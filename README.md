# Car classifier data pipeline, in Dafny

A model of the data pipeline of the car make-and-model classifier trainer
(`classifier_model_creator.py`). The script reads a list of metadata records
(crop box, class id, image file), shuffles it in place, keeps the first 90% for
training and the rest for validation, and feeds both to the network library
through two endless batch generators. Each generator step reads `batch`
consecutive records from its cursor, crops and resizes each record's image,
encodes its class id as a one-hot vector of 196 entries, and yields the two
lists; the cursor then moves one batch on and goes back to index 0 when the
next batch would pass the generator's end bound. The trained model's
description is saved under a title built from the date and a name.

Modules, one per part of the pipeline:

- `Wrappers` (wrappers.dfy): `Option` and `Result`, for the places where the script raises.
- `LabelEncoding` (labels.dfy): the one-hot label of a class id, with numpy's subscript rules.
- `ImageCrop` (crop.dfy): the crop slice `image[min_y:max_y, min_x:max_x]` with Python's slice clamping.
- `ModelTitle` (title.dfy): the file title `<date>_<name>.json`.
- `Partition` (partition.dfy): the cut-off, the split, the steps per epoch and the Fisher-Yates shuffle done in place on an array.
- `Cursor` (cursor.dfy): the cursor update of the generator and where it leads over many steps.
- `DataGenerator` (generator.dfy): the generator as a class `BatchGenerator` whose `Next` yields a batch and moves the cursor; its specification is the function `ReadBatch`.
- `Training` (training.dfy): the set-up of `training` and what it implies about which records each generator reads.

The generator's parameter named `cutoff` is its end bound; the model calls it
`end`. The training generator runs from 0 with end `cutoff`; the validation
generator starts at `cutoff` with end `total`. Two behaviours of the code are
kept as they are: the reset goes to absolute index 0, so the validation
generator wraps into the training records; and the first batch is read before
any bound is checked, so a validation part shorter than one batch raises
IndexError on the first request.

Other behaviours of the script the model keeps:

- A crop box that leaves the image is clipped by numpy's slicing instead of raising, and an empty box gives an empty crop (the resize then fails inside the image library).
- A class id outside 1..196 does not always raise: numpy's negative subscripts accept -195..0, so class id 0 silently becomes class 196; 197 and above raise IndexError.
- No check of the batch size against the partition sizes is made before training; the failure shows up as an IndexError inside the generator.
- The list is shuffled in place, and both generators read that same shuffled list.
- Whether the image library raises for a record (a missing file, for which `cv2.imread` gives None, or an empty crop) is a parameter `imageOk` of the generator; such a record raises before its label is built, as in the loop of the script.

## Model

| member | source | states |
|---|---|---|
| LabelEncoding.LabelSlot | classifier_model_creator.py:122 | the subscript `class_id - 1` is accepted exactly when it lies in -196..195; for class ids 1..196 the slot is `class_id - 1`, and for -195..0 it is `class_id - 1 + 196`, counting from the end |
| LabelEncoding.OneHot | classifier_model_creator.py:121-122 | the label vector of a slot: 196 entries, 1 at the slot and 0 everywhere else; decoded by IndexOfOne in OneHotRoundTrip |
| LabelEncoding.EncodeLabel | classifier_model_creator.py:121-122 | a zeroed array of 196 entries with one subscript assignment gives exactly the one-hot vector of the resolved slot, and raises (None) exactly when the subscript is out of range |
| LabelEncoding.OneHotShape | classifier_model_creator.py:121-122 | for a class id in 1..196 the label has 196 entries, a 1 at `class_id - 1`, zeros elsewhere, and exactly one entry equal to 1 |
| LabelEncoding.OneHotRoundTrip | classifier_model_creator.py:121-122 | the position of the 1 in the label, plus one, is the class id: distinct classes get distinct labels |
| LabelEncoding.ClassZeroAliasesLast | classifier_model_creator.py:122 | class id 0 writes the same slot as class id 196; 197 and -196 raise |
| ImageCrop.SliceBound | classifier_model_creator.py:47 | a Python slice bound lands in 0..n: in-range bounds are kept, negatives count from the end, too-large or too-small ones clamp |
| ImageCrop.Slice | classifier_model_creator.py:47 | the slice `s[lo:hi]` has length max(0, b - a) for the normalised bounds a, b and its k-th element is `s[a + k]` |
| ImageCrop.CropImage | classifier_model_creator.py:47 | for any box, with row bounds normalised to a, b and each row's column bounds to c, d: max(0, b - a) rows, row y of max(0, d - c) pixels, and crop pixel (y, x) is image pixel (a + y, c + x) |
| ImageCrop.CropInBounds | classifier_model_creator.py:47 | a box inside the image gives `max_y - min_y` rows of `max_x - min_x` pixels, and crop pixel (y, x) is image pixel (min_y + y, min_x + x) |
| ImageCrop.CropClips | classifier_model_creator.py:47 | a box past the bottom or right edge is clipped to the image and an inverted or empty box gives an empty crop, for any non-negative box |
| ModelTitle.Replace | classifier_model_creator.py:152 | `str.replace` of one character: same length, every occurrence of `from` becomes `to`, every other character is kept, and `from` no longer occurs |
| ModelTitle.SanitizeDate | classifier_model_creator.py:151-152 | the cleaned date has the length of the date, blanks become '_', colons become '-', other characters stay, and it holds no blank or colon |
| ModelTitle.TitleString | classifier_model_creator.py:153 | the title is date + name + 6 characters long, its date part holds no blank or colon, and it ends in ".json"; the full layout is in TitleLayout |
| ModelTitle.TitleLayout | classifier_model_creator.py:153 | the title is the cleaned date, '_', the unaltered name and ".json"; its length is date + name + 6 and the name can be read back from it |
| ModelTitle.TitleInjective | classifier_model_creator.py:148-154 | for one date, two names give the same title only if they are equal |
| ModelTitle.PlainDateUnchanged | classifier_model_creator.py:151-152 | a date stamp without blanks or colons, such as YYYY-MM-DD, is used unchanged |
| Partition.Cutoff | classifier_model_creator.py:87 | the cut-off is the floor of 9/10 of the record count: 10c <= 9 total < 10c + 10, and it is at most the total |
| Partition.StepsPerEpoch | classifier_model_creator.py:98 | a zero batch size raises; otherwise the steps are the largest s with s * batch <= cutoff |
| Partition.TrainPart | classifier_model_creator.py:97 | the training generator's records: the first `cutoff` records of the shuffled list, in order |
| Partition.ValidationPart | classifier_model_creator.py:99 | the validation generator's records: the `total - cutoff` records from index cutoff on, in order |
| Partition.SplitCovers | classifier_model_creator.py:97-99 | the training part [0, cutoff) and the validation part [cutoff, total) put together are the list, so every record is in exactly one of them |
| Partition.Shuffled | classifier_model_creator.py:90-91 | the Fisher-Yates shuffle driven by the given draws only reorders: same length and same multiset of records |
| Partition.Shuffle | classifier_model_creator.py:90-91 | the in-place shuffle leaves the array equal to the Fisher-Yates result for the draws, and a permutation of what it held |
| Cursor.Advance | classifier_model_creator.py:132-134 | after a step the cursor is 0 or leaves room for a whole batch before the end; when it is not 0 it has moved exactly one batch; when there is room for the following batch it does move one batch |
| Cursor.CursorAfter | classifier_model_creator.py:132-134 | the cursor after n steps: the initial start for n = 0, and after any step either 0 or leaving room for a whole batch before the end |
| Cursor.FirstCycle | classifier_model_creator.py:132-134 | from start 0 the cursor takes the values 0, b, ..., (P-1)b and is 0 again after P = end div b steps |
| Cursor.CursorCycle | classifier_model_creator.py:132-134 | from start 0, step epoch * P + j begins at j * b, for every epoch |
| Cursor.TailNeverRead | classifier_model_creator.py:115-134 | from start 0 the cursor after n steps is (n mod P) * b and every batch ends by P * b, so the last end mod b records are never read |
| Cursor.EveryHeadIndexRead | classifier_model_creator.py:115-134 | every index below P * b is inside the batch of step index div b |
| Cursor.Example100By32 | classifier_model_creator.py:132-134 | with end 100 and batch 32 the cursors are 0, 32, 64, 0, ... and records 96..99 are never read |
| Cursor.WalksThenWraps | classifier_model_creator.py:132-134 | from any start the cursor moves one batch per step and then falls back to absolute index 0, not to its initial start |
| DataGenerator.ReadBatch | classifier_model_creator.py:113-128 | the lists built by the loop over a window, or its exception; a success holds `count` images and `count` labels, and no failure is StopIteration; specified by ReadBatchOk and ReadBatchFails |
| DataGenerator.ReadBatchOk | classifier_model_creator.py:113-130 | a step succeeds exactly when every record of its window exists, its image call goes through and its label subscript is in range, and then yields `batch` images and `batch` labels, the k-th of both from record start + k |
| DataGenerator.ReadBatchFails | classifier_model_creator.py:115-122 | a failing step raises for the first unreadable record of its window: IndexError for a missing record, the image error, or IndexError for the label subscript, checked in that order |
| DataGenerator.BatchGenerator.constructor | classifier_model_creator.py:109 | a new generator holds its arguments, has its cursor at the given start and has yielded nothing |
| DataGenerator.BatchGenerator.Collect | classifier_model_creator.py:113-128 | the list-building loop yields exactly what ReadBatch specifies for the window, raising where it does |
| DataGenerator.BatchGenerator.Next | classifier_model_creator.py:112-134 | a request yields ReadBatch at the current cursor without checking bounds first, then advances the cursor by Advance; the cursor stays equal to the n-th cursor of the initial start; an exception closes the generator and later requests raise StopIteration |
| Training.TrainingReadsOnlyTrainPart | classifier_model_creator.py:97 | for any list, every batch of the training generator ends by the cut-off and equals, result or exception, the batch read from the training part alone |
| Training.TrainingBatchesSucceed | classifier_model_creator.py:97 | when every training record loads and labels, every batch of the training generator succeeds |
| Training.ValidationFirstBatch | classifier_model_creator.py:99 | when the validation records load and label, the first validation batch succeeds exactly when the validation part holds a whole batch, and otherwise raises IndexError at index total |
| Training.ValidationRereadsTraining | classifier_model_creator.py:99 | the validation generator walks forward from the cut-off one batch at a time and then resets to index 0, inside the training part |
| Training.EpochReadsEachHeadRecordOnce | classifier_model_creator.py:97-98 | steps_per_epoch is one cycle of the training generator: in every epoch step j reads from j * batch, and steps * batch <= cutoff < (steps + 1) * batch |
| Training.HundredRecordsExample | classifier_model_creator.py:86-100 | 100 records that all load and label, batch 32: 90 training and 10 validation records, 2 steps per epoch, and the first validation batch raises IndexError at index 100 |
| Training.Train | classifier_model_creator.py:80-99 | the list is shuffled in place, both generators read that shuffled list with the image directory, the 200x200 size and the same image library, training from 0 to the cut-off and validation from the cut-off to the total; a zero batch size raises ZeroDivisionError |

## Left out

- Reading an image file and resizing the crop (lines 46 and 48) are calls into the image library: a batch holds the arguments of each `get_car_pic_matrix` call (path, crop points, size) instead of pixels, the crop is modelled separately on a sequence of rows, and which calls raise is the parameter `imageOk`, not derived from file contents or crop sizes.
- The network, its compilation and `fit_generator` (lines 53-75 and 97-103) are library code: how many batches the library requests, in which thread, and the returned model are not modelled; `Train` stops where that call begins.
- The checkpoint and TensorBoard callbacks (lines 94-95) choose and write the best snapshot inside the network library.
- `validation_steps = (total_length - cutoff) / batch` (line 100) is a float handed to the library and is not modelled.
- The random number generator behind `random.seed(447)` and `random.shuffle` (lines 90-91): the shuffle is modelled as Fisher-Yates with its draws passed in, each draw i in 0..i.
- Reading the CSV file (lines 29-35), writing the weights and the JSON file (lines 138-145) and the clock of line 151: the date stamp is a parameter of the title.
- Partition.Cutoff: computes `(total * 9) / 10` in integers where the script truncates the float `total * 0.9`; the two agree for every list size below 2^50.
- Partition.StepsPerEpoch: computes `cutoff div batch` in integers where the script truncates the float `cutoff / batch`; they agree for sizes below 2^52.
- LabelEncoding.EncodeLabel: `np.zeros(196)` holds float64 values, the model holds integers; only 0 and 1 ever occur, so the values agree.
- Converting the CSV text fields with `int(...)` (lines 118 and 122): records hold integers already.
- A negative start or batch size: the generator's start, end and batch are natural numbers, as every call in the script passes them.
- The data list is shared by both generators and by `training` in the script; after the shuffle no one changes it, so the generators hold it as a sequence value.
