/**
 * The set-up done by `training` (classifier_model_creator.py:80-103) before
 * it hands over to the network library: the cut-off, the shuffle, the two
 * generators over the one shuffled list, and the step count per epoch; with
 * what these promise about which records each generator reads.
 */
module Training {
  import opened Wrappers
  import opened LabelEncoding
  import opened Cursor
  import opened Partition
  import opened DataGenerator

  /** The resize target of line 85. */
  const ResizeTo := Size(200, 200)

  /** The two generators and the step count passed to `fit_generator`. */
  datatype Setup = Setup(train: BatchGenerator, validation: BatchGenerator, stepsPerEpoch: nat)

  datatype TrainError = ZeroDivisionError

  /** Every record in lo .. hi-1 can be loaded and labelled. */
  predicate RecordsOk(data: seq<Record>, reader: Reader, lo: nat, hi: nat)
    requires hi <= |data|
  {
    forall i :: lo <= i < hi ==> RecordOk(reader, data[i])
  }

  /** Reading a window that lies inside a prefix of the list sees only that prefix. */
  lemma {:induction false} ReadBatchPrefix(data: seq<Record>, prefix: nat, reader: Reader, start: nat, count: nat)
    requires start + count <= prefix <= |data|
    ensures ReadBatch(data, reader, start, count) == ReadBatch(data[..prefix], reader, start, count)
    decreases count
  {
    if count > 0 {
      ReadBatchPrefix(data, prefix, reader, start, count - 1);
      assert data[..prefix][start + count - 1] == data[start + count - 1];
    }
  }

  /**
   * Whatever the records hold, the training generator (start 0, end cutoff)
   * never reads a validation record: each of its batches lies inside the first
   * `cutoff` records and equals, result or exception, the batch read from the
   * training part alone.
   */
  lemma TrainingReadsOnlyTrainPart(data: seq<Record>, reader: Reader, batch: nat, n: nat)
    requires 0 < batch <= Cutoff(|data|)
    ensures var s := CursorAfter(0, batch, Cutoff(|data|), n);
      s + batch <= Cutoff(|data|) &&
      ReadBatch(data, reader, s, batch) == ReadBatch(TrainPart(data), reader, s, batch)
  {
    var c := Cutoff(|data|);
    var s := CursorAfter(0, batch, c, n);
    TailNeverRead(batch, c, n);
    ReadBatchPrefix(data, c, reader, s, batch);
  }

  /** When every training record loads and labels, every batch of the training generator succeeds. */
  lemma TrainingBatchesSucceed(data: seq<Record>, reader: Reader, batch: nat, n: nat)
    requires 0 < batch <= Cutoff(|data|)
    requires RecordsOk(data, reader, 0, Cutoff(|data|))
    ensures ReadBatch(data, reader, CursorAfter(0, batch, Cutoff(|data|), n), batch).Ok?
  {
    var c := Cutoff(|data|);
    var s := CursorAfter(0, batch, c, n);
    TailNeverRead(batch, c, n);
    ReadBatchOk(data, reader, s, batch);
  }

  /**
   * The validation generator (start cutoff, end total) reads its first batch
   * unchecked: when the validation records load and label, it succeeds exactly
   * when the validation part holds at least one whole batch, and otherwise
   * raises IndexError for index `total`.
   */
  lemma ValidationFirstBatch(data: seq<Record>, reader: Reader, batch: nat)
    requires RecordsOk(data, reader, Cutoff(|data|), |data|)
    requires 0 < batch
    ensures var r := ReadBatch(data, reader, Cutoff(|data|), batch);
      (r.Ok? <==> batch <= |ValidationPart(data)|) &&
      (r.Err? ==> r.error == RecordIndexError(|data|))
  {
    var c := Cutoff(|data|);
    ReadBatchOk(data, reader, c, batch);
    if ReadBatch(data, reader, c, batch).Err? {
      ReadBatchFails(data, reader, c, batch);
    }
  }

  /**
   * The validation generator does not cycle over the validation part: once the
   * next batch would pass the end it resets to absolute index 0, so a later
   * batch of it reads records 0 .. batch-1 of the training part.
   */
  lemma ValidationRereadsTraining(total: nat, batch: nat) returns (n: nat)
    requires 0 < batch <= Cutoff(total)
    ensures n >= 1
    ensures CursorAfter(Cutoff(total), batch, total, n) == 0
    ensures forall m :: 0 <= m < n ==> CursorAfter(Cutoff(total), batch, total, m) == Cutoff(total) + m * batch
  {
    n := WalksThenWraps(Cutoff(total), batch, total);
  }

  /**
   * `steps_per_epoch` is one full cycle of the training generator: in every
   * epoch, step j reads the batch starting at j * batch, so an epoch reads
   * records 0 .. steps*batch-1 once each and the last cutoff mod batch
   * training records never.
   */
  lemma EpochReadsEachHeadRecordOnce(total: nat, batch: nat, epoch: nat, j: nat)
    requires 0 < batch <= Cutoff(total)
    requires StepsPerEpoch(Cutoff(total), batch).Some? && j < StepsPerEpoch(Cutoff(total), batch).value
    ensures StepsPerEpoch(Cutoff(total), batch).value == Period(batch, Cutoff(total))
    ensures var steps := StepsPerEpoch(Cutoff(total), batch).value;
      CursorAfter(0, batch, Cutoff(total), epoch * steps + j) == j * batch &&
      steps * batch <= Cutoff(total) < steps * batch + batch
  {
    CursorCycle(batch, Cutoff(total), epoch, j);
  }

  /**
   * 100 records and batch 32: 90 training and 10 validation records, 2 steps per
   * epoch, and the first validation batch raises IndexError at index 100.
   */
  lemma HundredRecordsExample(data: seq<Record>, reader: Reader)
    requires |data| == 100 && RecordsOk(data, reader, 0, 100)
    ensures Cutoff(|data|) == 90 && |ValidationPart(data)| == 10
    ensures StepsPerEpoch(Cutoff(|data|), 32) == Some(2)
    ensures ReadBatch(data, reader, Cutoff(|data|), 32) == Err(RecordIndexError(100))
  {
    ValidationFirstBatch(data, reader, 32);
  }

  /**
   * The body of `training` up to the call into the network library: shuffle the
   * list in place, then create both generators on it and compute the steps per
   * epoch (raising ZeroDivisionError for a zero batch size).
   */
  method Train(dataDir: string, imageOk: ImageRequest -> bool, data: array<Record>, draws: seq<nat>, batch: nat)
    returns (r: Result<Setup, TrainError>)
    requires ValidDraws(draws, data.Length)
    modifies data
    ensures data[..] == Shuffled(old(data[..]), draws, data.Length)
    ensures r.Err? <==> batch == 0
    ensures r.Ok? ==>
      var t, v := r.value.train, r.value.validation;
      fresh(t) && fresh(v) && t.Valid() && v.Valid() &&
      t.data == data[..] && v.data == data[..] &&
      t.reader == v.reader && t.reader.path == dataDir + "/images/" &&
      t.reader.size == ResizeTo && t.reader.imageOk == imageOk &&
      t.batch == batch && v.batch == batch &&
      t.initial == 0 && t.start == 0 && t.end == Cutoff(data.Length) &&
      v.initial == Cutoff(data.Length) && v.start == Cutoff(data.Length) && v.end == data.Length &&
      !t.closed && !v.closed && t.steps == 0 && v.steps == 0 &&
      Some(r.value.stepsPerEpoch) == StepsPerEpoch(Cutoff(data.Length), batch)
  {
    var reader := Reader(dataDir + "/images/", ResizeTo, imageOk);
    var total := data.Length;
    var cutoff := Cutoff(total);
    Shuffle(data, draws);
    var train := new BatchGenerator(reader, data[..], 0, cutoff, batch);
    var steps := StepsPerEpoch(cutoff, batch);
    if steps.None? {
      return Err(ZeroDivisionError);
    }
    var validation := new BatchGenerator(reader, data[..], cutoff, total, batch);
    r := Ok(Setup(train, validation, steps.value));
  }
}
