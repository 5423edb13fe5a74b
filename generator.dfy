/**
 * create_data_generator (classifier_model_creator.py:109-134): an endless
 * generator that, at each request, reads `batch` consecutive metadata records
 * from its start index, turns each into an image and a one-hot label, yields
 * both lists, and then moves its start index as the Cursor module describes.
 * The image of a record is represented by the arguments handed to the image
 * library (path, crop points, size); whether that call raises is a parameter.
 */
module DataGenerator {
  import opened Wrappers
  import opened LabelEncoding
  import opened ImageCrop
  import opened Cursor

  /** One metadata row: crop box, class id and image file name, in the column order of the file. */
  datatype Record = Record(minX: int, minY: int, maxX: int, maxY: int, classId: int, file: string)

  /** Target size of the resize, `[pixels_x, pixels_y]`. */
  datatype Size = Size(pixelsX: int, pixelsY: int)

  /** The call `get_car_pic_matrix(image_path, crop_points, size)` made for one record. */
  datatype ImageRequest = ImageRequest(path: string, crop: CropBox, size: Size)

  /**
   * The fixed part of each record's processing: the image directory and the
   * resize target passed to create_data_generator, and `imageOk`, which tells
   * whether the image library reads, crops and resizes a request without
   * raising (it raises when the file is missing, since `cv2.imread` then gives
   * None, and when the crop is empty).
   */
  datatype Reader = Reader(path: string, size: Size, imageOk: ImageRequest -> bool)

  /** What one step yields: images[k] and labels[k] come from the same record. */
  datatype Batch = Batch(images: seq<ImageRequest>, labels: seq<seq<int>>)

  /**
   * Why a step raises: a record index past the end of the list, an image call
   * that fails for the record at `index`, a class id whose label subscript is
   * out of range, or a request to a generator that has already raised (Python
   * then answers StopIteration).
   */
  datatype GenError =
    | RecordIndexError(index: int)
    | ImageError(index: int)
    | LabelIndexError(index: int)
    | StopIteration

  /** The image request of one record (lines 117-119). */
  function Request(reader: Reader, rec: Record): ImageRequest {
    ImageRequest(reader.path + rec.file, CropBox(rec.minX, rec.minY, rec.maxX, rec.maxY), reader.size)
  }

  /** The record's image call and its label subscript both go through. */
  predicate RecordOk(reader: Reader, rec: Record) {
    reader.imageOk(Request(reader, rec)) && LabelSlot(rec.classId).Some?
  }

  /** Record i can be read, loaded and labelled without raising. */
  predicate Readable(data: seq<Record>, reader: Reader, i: nat) {
    i < |data| && RecordOk(reader, data[i])
  }

  /** The exception raised when record i is not readable, in the order of lines 116, 119 and 122. */
  function ErrorAt(data: seq<Record>, reader: Reader, i: nat): GenError {
    if i >= |data| then RecordIndexError(i)
    else if !reader.imageOk(Request(reader, data[i])) then ImageError(i)
    else LabelIndexError(data[i].classId - 1)
  }

  /** The lists built by the first `count` rounds of the loop of lines 115-125, or the exception it raises. */
  function ReadBatch(data: seq<Record>, reader: Reader, start: nat, count: nat): (r: Result<Batch, GenError>)
    ensures r.Ok? ==> |r.value.images| == count && |r.value.labels| == count
    ensures r.Err? ==> r.error != StopIteration
    decreases count
  {
    if count == 0 then Ok(Batch([], []))
    else match ReadBatch(data, reader, start, count - 1)
      case Err(e) => Err(e)
      case Ok(b) =>
        var i := start + count - 1;
        if !Readable(data, reader, i) then Err(ErrorAt(data, reader, i))
        else Ok(Batch(b.images + [Request(reader, data[i])],
                      b.labels + [OneHot(LabelSlot(data[i].classId).value)]))
  }

  /**
   * A step succeeds exactly when every record start .. start+count-1 is readable,
   * and then yields `count` images and `count` labels, the k-th of each built
   * from record start + k.
   */
  lemma {:induction false} ReadBatchOk(data: seq<Record>, reader: Reader, start: nat, count: nat)
    ensures ReadBatch(data, reader, start, count).Ok? <==>
      forall i :: start <= i < start + count ==> Readable(data, reader, i)
    ensures ReadBatch(data, reader, start, count).Ok? ==>
      var b := ReadBatch(data, reader, start, count).value;
      forall k :: 0 <= k < count ==>
        Readable(data, reader, start + k) &&
        b.images[k] == Request(reader, data[start + k]) &&
        b.labels[k] == OneHot(LabelSlot(data[start + k].classId).value)
    decreases count
  {
    if count > 0 {
      ReadBatchOk(data, reader, start, count - 1);
    }
  }

  /** A failing step raises for the first unreadable record of the window. */
  lemma {:induction false} ReadBatchFails(data: seq<Record>, reader: Reader, start: nat, count: nat)
    requires ReadBatch(data, reader, start, count).Err?
    ensures exists i :: start <= i < start + count && !Readable(data, reader, i) &&
                        (forall j :: start <= j < i ==> Readable(data, reader, j)) &&
                        ReadBatch(data, reader, start, count).error == ErrorAt(data, reader, i)
    decreases count
  {
    var i := start + count - 1;
    if ReadBatch(data, reader, start, count - 1).Err? {
      ReadBatchFails(data, reader, start, count - 1);
    } else {
      ReadBatchOk(data, reader, start, count - 1);
      assert !Readable(data, reader, i);
    }
  }

  /** Once a round has raised, the rounds after it are never run: the exception stays the same. */
  lemma {:induction false} ReadBatchErrorPersists(data: seq<Record>, reader: Reader, start: nat, n: nat, m: nat)
    requires n <= m
    requires ReadBatch(data, reader, start, n).Err?
    ensures ReadBatch(data, reader, start, m) == ReadBatch(data, reader, start, n)
    decreases m
  {
    if m > n {
      ReadBatchErrorPersists(data, reader, start, n, m - 1);
    }
  }

  /**
   * The generator object. `data`, `initial`, `end` and `batch` are arguments
   * of create_data_generator (`end` is the one named `cutoff` there), and
   * `reader` holds its `path` and `size` arguments; `start` is its local
   * variable; `closed` records that an exception has ended the generator.
   */
  class BatchGenerator {
    const reader: Reader
    const data: seq<Record>
    const initial: nat
    const end: nat
    const batch: nat
    var start: nat
    var closed: bool
    /** Number of batches yielded so far. */
    ghost var steps: nat

    ghost predicate Valid()
      reads this
    {
      start == CursorAfter(initial, batch, end, steps) &&
      (steps > 0 ==> start == 0 || start + batch <= end)
    }

    /** Creating the generator runs none of its body. */
    constructor (reader: Reader, data: seq<Record>, start: nat, end: nat, batch: nat)
      ensures Valid()
      ensures this.reader == reader && this.data == data
      ensures this.initial == start && this.end == end && this.batch == batch
      ensures this.start == start && !closed && steps == 0
    {
      this.reader := reader;
      this.data := data;
      this.initial := start;
      this.end := end;
      this.batch := batch;
      this.start := start;
      this.closed := false;
      this.steps := 0;
    }

    /**
     * The loop of lines 113-128: build the lists for records
     * from .. from+batch-1, raising at the first record that cannot be read.
     */
    method Collect(from: nat) returns (r: Result<Batch, GenError>)
      ensures r == ReadBatch(data, reader, from, batch)
    {
      var images: seq<ImageRequest> := [];
      var labels: seq<seq<int>> := [];
      var i := from;
      while i < from + batch
        invariant from <= i <= from + batch
        invariant ReadBatch(data, reader, from, i - from) == Ok(Batch(images, labels))
      {
        if i >= |data| {
          ReadBatchErrorPersists(data, reader, from, i - from + 1, batch);
          return Err(RecordIndexError(i));
        }
        var rec := data[i];
        var request := Request(reader, rec);
        if !reader.imageOk(request) {
          ReadBatchErrorPersists(data, reader, from, i - from + 1, batch);
          return Err(ImageError(i));
        }
        var encoded := EncodeLabel(rec.classId);
        if encoded.None? {
          ReadBatchErrorPersists(data, reader, from, i - from + 1, batch);
          return Err(LabelIndexError(rec.classId - 1));
        }
        images := images + [request];
        labels := labels + [encoded.value];
        i := i + 1;
      }
      r := Ok(Batch(images, labels));
    }

    /**
     * `next(generator)`: build the lists for records start .. start+batch-1
     * without checking any bound first, then advance the cursor (lines
     * 132-134). An exception closes the generator.
     */
    method Next() returns (r: Result<Batch, GenError>)
      requires Valid()
      modifies this
      ensures Valid()
      ensures old(closed) ==> r == Err(StopIteration) && closed && start == old(start) && steps == old(steps)
      ensures !old(closed) ==> r == ReadBatch(data, reader, old(start), batch)
      ensures !old(closed) && r.Ok? ==>
        !closed && steps == old(steps) + 1 && start == Advance(old(start), batch, end)
      ensures !old(closed) && r.Err? ==> closed && start == old(start) && steps == old(steps)
    {
      if closed {
        return Err(StopIteration);
      }
      r := Collect(start);
      if r.Err? {
        closed := true;
        return;
      }
      start := start + batch;
      if start + batch > end {
        start := 0;
      }
      steps := steps + 1;
    }
  }
}
