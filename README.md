# Golf putting tracker: verified model of the core

This project models the computational core of a golf putting tracker.

On the C++ side, the core runs once per camera frame:

- The detector's output rows are parsed into ball and putter detections.
- An exponential-moving-average tracker keeps one smoothed track per class. It snaps to a new detection, coasts through short gaps and gives up after too many misses.
- A three-state putt engine (idle, in motion, stopped) accumulates per-putt metrics: launch, peak and current speed, path length, time, and break (the lateral drift from the initial line). It appends every finished putt to a history and summarises the session.
- The frame pre-processing step is modelled as its interleaved-to-planar (HWC to CHW) pixel reorder.

On the Python side, the dataset tooling is modelled:

- YOLO labels are converted to and from Label Studio percentage boxes.
- Label files are parsed.
- Detector boxes are converted to clamped YOLO boxes and filtered by confidence and class.
- Image directories are collected.
- A dataset is split into contiguous chunks, and the first chunks of a shuffled order become the validation set.

Modules, one file each:

- `Results`: `Option` and `Result`.
- `Numeric`: max, absolute value, truncation, and a square root supplied as a parameter.
- `FramePipeline`
- `Tracking`
- `PuttStatistics`
- `ImageFiles`: the shared image-collection logic.
- `LabelStudio`
- `AutoLabel`
- `SplitDataset`

How the source's code styles are modelled:

- Objects that the source updates in place are classes. `Tracking.Tracker` and `PuttStatistics.PuttStats` have the source's fields. Their methods are proved against pure step functions (`UpdateTrack`, `Step`), and the properties are lemmas about those functions.
- Loops of the source are methods with loop invariants. Each is proved equal to a specification function.
- Pure expressions and comprehensions are functions.

## Model

| member | source | states |
|---|---|---|
| FramePipeline.Detection.Cx | cpp/include/frame_pipeline.h:19 | the horizontal centre is equidistant from both edges and lies inside an ordered box |
| FramePipeline.Detection.Cy | cpp/include/frame_pipeline.h:20 | the vertical centre is equidistant from both edges and lies inside an ordered box |
| FramePipeline.Detection.Width | cpp/include/frame_pipeline.h:21 | left edge plus width is the right edge; the width is non-negative exactly when the box is ordered |
| FramePipeline.Detection.Height | cpp/include/frame_pipeline.h:22 | top edge plus height is the bottom edge; the height is non-negative exactly when the box is ordered |
| Numeric.TruncateToInt | cpp/src/frame_pipeline.cpp:93 | the cast truncates toward zero: the result is within one of the value, on the zero side |
| FramePipeline.RowDetection | cpp/src/frame_pipeline.cpp:82-93 | row i gives class id trunc(row[5]), confidence row[4] and a box whose corners are row[0..3] scaled by (sx, sy) |
| FramePipeline.KeptRows | cpp/src/frame_pipeline.cpp:81-85 | every kept index is a row below num_dets that lies inside the output array |
| FramePipeline.KeptRowsCharacterized | cpp/src/frame_pipeline.cpp:81-85 | kept rows are exactly the rows below num_dets whose confidence is not below the threshold, in increasing order, at most num_dets of them |
| FramePipeline.ParseDetections | cpp/src/frame_pipeline.cpp:71-98 | the parsing loop returns one detection per kept row, in row order, scaled from network to frame size (a negative num_dets gives none) |
| FramePipeline.ParsedDetectionsFiltered | cpp/src/frame_pipeline.cpp:84-85 | every parsed detection has confidence at least the threshold |
| FramePipeline.Chw | cpp/src/frame_pipeline.cpp:59-67 | the planar blob has as many values (3*area) as the interleaved pixels; `ChwAt` gives each value |
| FramePipeline.Hwc | cpp/src/frame_pipeline.cpp:59-67 | the interleaving of a planar blob of 3*area values has 3*area values; it is the inverse of `Chw` (`HwcOfChw`, `ChwOfHwc`) |
| FramePipeline.ChwAt | cpp/src/frame_pipeline.cpp:60-67 | blob[c*area + i] == interleaved[3*i + c] for c < 3 and i < area |
| FramePipeline.HwcOfChw | cpp/src/frame_pipeline.cpp:59-67 | interleaving the planar blob again gives back the pixels (no value is lost) |
| FramePipeline.ChwOfHwc | cpp/src/frame_pipeline.cpp:59-67 | planarising an interleaved image of any planar blob gives back the blob (the reorder is onto) |
| FramePipeline.PlanarIsChw | cpp/src/frame_pipeline.cpp:60-67 | a blob of length 3*area that satisfies the per-index rule is the planar reorder |
| FramePipeline.ReorderToChw | cpp/src/frame_pipeline.cpp:59-67 | the reorder loop fills a blob of length 3*area equal to the planar reorder of the pixels |
| Tracking.DefaultTrackSatisfiesInvariant | cpp/include/tracker.h:18-25 | a fresh track has class -1 and 0 missed frames, is not valid and is at rest |
| Tracking.BestIndex | cpp/src/tracker.cpp:20-33 | the chosen detection has the requested class and a positive confidence |
| Tracking.BestIndexIsFirstBest | cpp/src/tracker.cpp:25-33 | the selection picks the first detection with the greatest positive confidence in its class, and none when no detection of that class has positive confidence |
| Tracking.FirstBestUnique | cpp/src/tracker.cpp:25-33 | the first-best choice is unique, so the selection is determined by it |
| Tracking.SelectBest | cpp/src/tracker.cpp:19-33 | the single else-if loop over the detections selects the best ball and the best putter independently |
| Tracking.UpdateTrack | cpp/src/tracker.cpp:39-88 | the class is kept; a detection makes the track valid with its confidence and 0 missed frames; a miss adds one missed frame and keeps the confidence; a track that is not valid stays at rest |
| Tracking.SnapOnAcquire | cpp/src/tracker.cpp:45-50 | a track that was not valid snaps to the detection centre with zero velocity |
| Tracking.BlendBetween | cpp/src/tracker.cpp:56-57 | a blend with alpha in [0,1] lies between the previous and the observed value |
| Tracking.SmoothedPosition | cpp/src/tracker.cpp:56-57 | a tracked position becomes alpha*observed + (1-alpha)*previous |
| Tracking.SmoothedPositionBetween | cpp/src/tracker.cpp:52-57 | for alpha in [0,1] the smoothed position lies on the segment between the old position and the detection centre |
| Tracking.SmoothedVelocity | cpp/src/tracker.cpp:59-65 | the velocity changes only when dt > 1e-6, and then becomes alpha*(displacement/dt) + (1-alpha)*old velocity |
| Tracking.MissOutcome | cpp/src/tracker.cpp:71-87 | after a miss: past max_lost the track is lost and at rest; otherwise a valid track moves by v*dt and its velocity decays by 0.9; a track that is not valid stays where it was |
| Tracking.CoastThenLose | cpp/src/tracker.cpp:73-86 | with max_lost 3 and dt 1, velocity 10 coasts as 9, 8.1 and 7.29, and the fourth miss loses the track at rest |
| Tracking.Tracker.constructor | cpp/src/tracker.cpp:12-16 | alpha 0.6 and max_lost 15 by default; the ball track has class 0 and the putter track class 1, both not valid |
| Tracking.Tracker.Update | cpp/src/tracker.cpp:18-37 | each track is updated with the best detection of its own class (or a miss), and the class invariant is kept |
| Tracking.Tracker.Ball | cpp/include/tracker.h:38 | the ball state has class 0, and it is at rest when not valid |
| Tracking.Tracker.Putter | cpp/include/tracker.h:41 | the putter state has class 1, and it is at rest when not valid |
| Tracking.Tracker.BallVisible | cpp/include/tracker.h:44 | true exactly when the ball track is valid |
| Tracking.Tracker.PutterVisible | cpp/include/tracker.h:47 | true exactly when the putter track is valid |
| Numeric.Max | cpp/src/putt_stats.cpp:37-39 | the update keeps the larger value: at least both arguments, and equal to one of them |
| Numeric.Abs | cpp/src/putt_stats.cpp:46 | the result is non-negative and is the value or its negation |
| Numeric.Norm | cpp/src/putt_stats.cpp:24 | the speed is the non-negative number whose square is vx^2 + vy^2 |
| PuttStatistics.PuttData.StateStr | cpp/include/putt_stats.h:34-41 | the tag is "idle", "in_motion" or "stopped", each exactly for its state |
| PuttStatistics.StateStrInjective | cpp/include/putt_stats.h:34-41 | two records have the same tag exactly when they have the same state |
| PuttStatistics.InitialEngineSatisfiesInvariant | cpp/include/putt_stats.h:63-77 | the freshly constructed engine satisfies the engine invariant |
| PuttStatistics.AccumulatePreservesInvariant | cpp/src/putt_stats.cpp:27-55 | metric accumulation keeps the engine invariant |
| PuttStatistics.EnterMotionPreservesInvariant | cpp/src/putt_stats.cpp:63-87 | starting a putt keeps the engine invariant |
| PuttStatistics.TransitionPreservesInvariant | cpp/src/putt_stats.cpp:61-128 | the state switch keeps the engine invariant |
| PuttStatistics.Accumulate | cpp/src/putt_stats.cpp:28-55 | nothing changes unless the engine is in motion with a previous sample; the history, state and putt number are kept; distance, peak speed and break never decrease |
| PuttStatistics.EnterMotion | cpp/src/putt_stats.cpp:63-87 | the engine is in motion with putt number history+1, launch = peak = speed, counter 0 and the history kept; a direction is captured exactly when \|v\| > 1e-6 |
| PuttStatistics.Transition | cpp/src/putt_stats.cpp:61-128 | the history is kept or gains the current record, which is then stopped; when not in motion and the speed is not above the threshold, nothing changes |
| PuttStatistics.Step | cpp/src/putt_stats.cpp:16-129 | a tick without a valid ball only clears the previous-sample flag; a valid one stores the ball as the previous sample; the history is kept or gains the current record |
| PuttStatistics.StepPreservesInvariant | cpp/src/putt_stats.cpp:16-129 | each tick keeps the invariant: the k-th history entry is stopped and numbered k, the putt number is 0 when idle, history+1 in motion and history when stopped, and the speeds, distance and break are non-negative with launch <= peak |
| PuttStatistics.InvalidTickOnlyForgetsPrevious | cpp/src/putt_stats.cpp:19-22 | a tick without a valid ball only clears the previous-sample flag |
| PuttStatistics.ValidTickRecordsSample | cpp/src/putt_stats.cpp:24-59 | a valid tick records speed \|v\| and stores the ball as the previous sample |
| PuttStatistics.MotionAccumulates | cpp/src/putt_stats.cpp:28-55 | in motion with a previous sample, the tick adds the frame distance and dt, raises the peak and the break (the perpendicular distance from the start line), and moves the final point |
| PuttStatistics.AccumulatorsNonDecreasing | cpp/src/putt_stats.cpp:33-50 | within a putt, distance, time, peak speed and break never decrease for dt >= 0, and the start point stays fixed |
| PuttStatistics.NoAccumulationWithoutPrevious | cpp/src/putt_stats.cpp:28-55 | in motion without a previous sample (the ball was lost on the last tick), a valid tick leaves distance, time, peak speed, break and the final point unchanged |
| PuttStatistics.NoAccumulationOutsideMotion | cpp/src/putt_stats.cpp:28-88 | when not in motion, a tick that does not start a putt changes no metric other than the current speed, and changes neither the history nor the counter |
| PuttStatistics.StartsPuttIff | cpp/src/putt_stats.cpp:63-87 | from idle or stopped, a putt starts exactly when the speed is strictly above the threshold; it is numbered history+1 with launch = peak = speed, zeroed accumulators and start = final = ball |
| PuttStatistics.DirectionCapturedOnStart | cpp/src/putt_stats.cpp:77-85 | with a threshold of at least 1e-6, every putt start captures a direction (dirX, dirY) with dir * \|v\| == v |
| PuttStatistics.StopDebounce | cpp/src/putt_stats.cpp:90-100 | in motion, a speed strictly below the threshold increments the counter and any other speed resets it; the putt stops exactly when the counter reaches stop_frames |
| PuttStatistics.HistoryAppendOnlyOnStop | cpp/src/putt_stats.cpp:91-96 | the history changes only on the stopping tick, and then by appending the stopped record |
| PuttStatistics.RunKeepsHistory | cpp/src/putt_stats.cpp:62-128 | over any sequence of ticks the history only grows at its end, and the k-th entry keeps number k |
| PuttStatistics.Summary | cpp/src/putt_stats.cpp:141-159 | total_putts is the history length, and an empty history gives the all-zero summary |
| PuttStatistics.SumBounds | cpp/src/putt_stats.cpp:147-152 | a sum of n metric values, each in [lo, hi], lies in [n*lo, n*hi] |
| PuttStatistics.MeanBounds | cpp/src/putt_stats.cpp:153-157 | each average lies between the least and the greatest value it averages |
| PuttStatistics.TwoPuttAverage | cpp/src/putt_stats.cpp:141-159 | putts launched at 10 and 20 give total 2 and an average launch speed of 15 |
| PuttStatistics.PuttStats.constructor | cpp/src/putt_stats.cpp:12-14 | threshold 5 and 15 stop frames by default; the engine starts idle with an empty history |
| PuttStatistics.PuttStats.Update | cpp/src/putt_stats.cpp:16-129 | the in-place update is exactly one `Step` of the engine, and it keeps the invariant |
| PuttStatistics.PuttStats.AccumulateSample | cpp/src/putt_stats.cpp:27-55 | the accumulation statements perform `Accumulate` |
| PuttStatistics.PuttStats.ApplyTransition | cpp/src/putt_stats.cpp:61-128 | the switch performs `Transition` |
| PuttStatistics.PuttStats.BeginPutt | cpp/src/putt_stats.cpp:63-87 | the entry actions shared by the IDLE and STOPPED cases perform `EnterMotion` |
| PuttStatistics.PuttStats.FinalizePutt | cpp/src/putt_stats.cpp:161-163 | the history gains exactly one copy of the current record, at its end |
| PuttStatistics.PuttStats.Current | cpp/src/putt_stats.cpp:131-134 | returns the current record; while in motion its number is history+1 |
| PuttStatistics.PuttStats.History | cpp/src/putt_stats.cpp:136-139 | returns the history; the k-th entry is stopped and numbered k |
| PuttStatistics.PuttStats.Session | cpp/src/putt_stats.cpp:141-159 | the summing loop returns `Summary(history)`: the count and the four means |
| ImageFiles.LastDot | python/auto_label.py:53 | the index of the last '.' in the name, or -1 when there is none |
| ImageFiles.Suffix | python/auto_label.py:53 | a suffix is a '.' followed by at least one character, ends the name, holds no other '.', and is shorter than the name |
| ImageFiles.LowerChar | python/auto_label.py:53 | no upper-case ASCII letter is left; an upper-case letter becomes the lower-case letter at the same place in the alphabet; any other character is kept |
| ImageFiles.Lower | python/auto_label.py:53 | same length, no upper-case ASCII letter left, every other character kept in place, and upper-case letters mapped to the same alphabet position |
| ImageFiles.LowerIdempotent | python/auto_label.py:53 | lower-casing twice is lower-casing once |
| ImageFiles.ImagesOf | python/auto_label.py:51-54 | a name is kept exactly when its lower-cased suffix is an image extension |
| ImageFiles.SortNamesSorted | python/split_dataset.py:39-42 | sorting yields an ordered list |
| ImageFiles.SortedPermutationUnique | python/split_dataset.py:39-42 | two ordered lists with the same elements are equal, so the sorted listing is unique |
| ImageFiles.CollectImages | python/auto_label.py:49-55 | the result is sorted, is a permutation of the image entries, and contains exactly the image names of the directory |
| ImageFiles.SuffixOfName | python/split_dataset.py:34-41 | "stem.ext" with a non-empty stem has suffix ".ext" |
| ImageFiles.NoSuffix | python/split_dataset.py:37-42 | for a dot-free stem, the stem itself, the hidden name ".stem" and the name "stem." have no suffix |
| ImageFiles.IsImageByExtension | python/auto_label.py:46-54 | "stem.ext" is collected exactly when the lower-cased ".ext" is in the extension set |
| LabelStudio.ClassLabel | python/import_to_label_studio.py:70 | ids 0 and 1 are named "golf_ball" and "putter"; every other id gets the label "class_" + its decimal digits, which is never a known name |
| LabelStudio.YoloToLsBbox | python/import_to_label_studio.py:63-71 | the percentage box has the same centre (times 100) and size (times 100) as the YOLO box, and is labelled with its class name |
| LabelStudio.ExportInvertsImport | python/import_to_label_studio.py:344-350 | exporting an imported box gives back the YOLO box |
| LabelStudio.ImportInvertsExport | python/import_to_label_studio.py:344-350 | importing an exported, correctly labelled box gives back the percentage box |
| LabelStudio.LsToYolo | python/import_to_label_studio.py:347-350 | the YOLO box keeps the class id, and converting it back to percentages gives the same box, labelled with its class name |
| LabelStudio.ExportResult | python/import_to_label_studio.py:329-340 | a result is exported exactly when it is a rectangle whose first label is a known name, and it is converted with that name's id |
| LabelStudio.ExportResults | python/import_to_label_studio.py:328-352 | at most one line per result, and every line carries a known class id |
| LabelStudio.ExportTask | python/import_to_label_studio.py:317-353 | no annotations gives no file; otherwise only the latest annotation is converted |
| LabelStudio.ExportedFilesCharacterized | python/import_to_label_studio.py:317-355 | every file comes from an annotated task, and every annotated task produces its file |
| LabelStudio.ExportAll | python/import_to_label_studio.py:317-355 | the export loop writes the files of the annotated tasks and counts them |
| LabelStudio.ImportThenExport | python/import_to_label_studio.py:329-350 | importing boxes and exporting them gives back exactly the class-0 and class-1 boxes, in order |
| LabelStudio.Strip | python/import_to_label_studio.py:77 | the stripped text neither starts nor ends with whitespace, and whitespace-only text strips to empty |
| LabelStudio.StripMeaning | python/import_to_label_studio.py:77 | the stripped text is a slice of the text with only whitespace before and after it, and it neither starts nor ends with whitespace |
| LabelStudio.SplitLines | python/import_to_label_studio.py:81 | empty text has no lines, and any other text has at least one |
| LabelStudio.SplitLinesNoBreaks | python/import_to_label_studio.py:81 | no line contains a line break |
| LabelStudio.SplitLinesMeaning | python/import_to_label_studio.py:81 | writing each line followed by "\n" gives the text with every break ("\r\n" counted once) written as "\n", plus a final "\n" when the text does not end with a break |
| LabelStudio.Words | python/import_to_label_studio.py:82 | the tokens are non-empty and contain no whitespace |
| LabelStudio.WordsMeaning | python/import_to_label_studio.py:82 | the tokens, joined, are exactly the non-whitespace characters of the text, in order; there are none exactly when the text is all whitespace |
| LabelStudio.LineResult | python/import_to_label_studio.py:85-94 | a line converts exactly when int accepts token 0 and float accepts tokens 1-4; the result is a "label"/"image" rectangle whose value is `YoloToLsBbox` of the converted tokens, labelled with the class name; a failed int reports token 0, and any error names one of the first five tokens |
| LabelStudio.LongLines | python/import_to_label_studio.py:82-84 | at most one entry per line, each with at least five tokens |
| LabelStudio.LongLinesStep | python/import_to_label_studio.py:81-84 | one more line appends its tokens exactly when it has at least five, in line order |
| LabelStudio.LongLinesCharacterized | python/import_to_label_studio.py:81-84 | every kept entry is the tokens of a line with at least five, and every such line's tokens are kept |
| LabelStudio.ConvertAll | python/import_to_label_studio.py:81-94 | a successful conversion gives one result per kept line |
| LabelStudio.ConvertAllMeaning | python/import_to_label_studio.py:81-94 | parsing succeeds exactly when every kept line converts, and then gives one result per kept line, in order |
| LabelStudio.BlankLabelFile | python/import_to_label_studio.py:77-79 | empty or whitespace-only text gives no results |
| LabelStudio.ParsedLabel | python/import_to_label_studio.py:74-95 | a successful parse gives at most one result per line of the stripped text |
| LabelStudio.ParseYoloLabel | python/import_to_label_studio.py:74-95 | the parsing loop (skipping short lines and stopping at the first conversion error) computes `ParsedLabel` |
| AutoLabel.ClampUnit | python/auto_label.py:66-69 | the result lies in [0,1]: the value itself when it is already in range, else the nearer bound |
| AutoLabel.XyxyToYolo | python/auto_label.py:58-70 | every component lies in [0,1], each is the clamped raw value, and the raw box is returned unchanged when it is already in range |
| AutoLabel.InsideBoxRecovered | python/auto_label.py:61-64 | for a box inside the image, clamping changes nothing, and the pixel corners are recovered as (c -/+ size/2) * image size |
| AutoLabel.ClassNameAsWritten | python/auto_label.py:124 | the lookup as written names indices 0 and 1, gives no name at or above 2, and raises only below -2 |
| AutoLabel.NegativeIndexMislabelled | python/auto_label.py:124 | as written, index -1 is labelled "putter", -2 "golf_ball", and -3 raises |
| AutoLabel.ClassName | python/auto_label.py:123-127 | exactly indices 0 and 1 have a name, and that name maps back to the same id |
| AutoLabel.LabelLines | python/auto_label.py:117-132 | at most one line per detection, each with a known class id and a box in [0,1] |
| AutoLabel.LabelLinesCharacterized | python/auto_label.py:117-132 | every line comes from a detection at or above the threshold with a known class, and carries that class and a box in [0,1]; every such detection produces its line |
| AutoLabel.FilterDetections | python/auto_label.py:117-132 | the filtering loop computes `LabelLines` |
| SplitDataset.Chunks | python/split_dataset.py:45-47 | there are no chunks exactly when the list is empty, and never more chunks than elements |
| SplitDataset.ChunkList | python/split_dataset.py:45-47 | chunk size 0 raises, a negative size gives no chunks, and a positive size gives the contiguous chunks |
| SplitDataset.ChunksFlatten | python/split_dataset.py:45-47 | concatenating the chunks gives back the list |
| SplitDataset.ChunksShape | python/split_dataset.py:47 | chunks are non-empty and at most chunk_size long; all but the last are exactly chunk_size; there are ceil(n / chunk_size) of them |
| SplitDataset.ChunkAt | python/split_dataset.py:47 | chunk k is the slice lst[k*cs : k*cs + cs] |
| SplitDataset.ValChunkCount | python/split_dataset.py:80 | the count is at least 1, is max(1, floor(chunks * ratio)) for a non-negative ratio, is 1 for a negative ratio, and is at most the number of chunks for a ratio in [0,1] |
| SplitDataset.ValidationImages | python/split_dataset.py:80-82 | the validation images start with the whole first shuffled chunk, and there are none without chunks |
| SplitDataset.FlattenPermutation | python/split_dataset.py:77-78 | shuffling the chunks does not change which images they hold |
| SplitDataset.ValidationSubset | python/split_dataset.py:77-82 | the validation images are a sub-multiset of the images, and duplicate-free when the images are |
| SplitDataset.ValidationNonEmpty | python/split_dataset.py:73-82 | for a positive chunk size there is at least one validation image whenever there is an image |
| SplitDataset.NegativeChunkSizeNoValidation | python/split_dataset.py:73-82 | a negative chunk size gives no chunks and so no validation images, even when there are images |

## Findings

| source | as written | input that shows it | evidently intended | confidence | as-written member | corrected member |
|---|---|---|---|---|---|---|
| python/auto_label.py:124 | the guard `class_idx < len(CLASS_NAME_TO_ID)` rejects only indices that are too large, so Python's negative indexing maps -1 and -2 to class names | a detection with class index -1 is written as a "putter" line (class 1); -2 as "golf_ball"; -3 raises IndexError and aborts the run | only indices 0 and 1 are named; every other index is skipped like an index that is too large | low: depends on the detector ever reporting a negative index; not executed | AutoLabel.NegativeIndexMislabelled | AutoLabel.ClassName |

`AutoLabel.ClassNameAsWritten` models the lookup as written. `AutoLabel.FilterDetections` and `AutoLabel.LabelLines` use the corrected `AutoLabel.ClassName`.

## Left out

- Concurrency: the mutex in `PuttStats` is not modelled. Every operation is a single atomic step.
- Floating point: `float` and `double` are modelled as exact reals. Rounding, NaN and infinities are not modelled.
- Square roots: `std::sqrt` is a function parameter that is required to return the non-negative square root. No particular implementation is chosen.
- Numeric.TruncateToInt: out-of-range float-to-int casts, which are undefined behaviour in C++, are not modelled. Integers are unbounded.
- Tracking.TrackInvariant: `frames_since_seen` is an unbounded integer. In C++ the increment after 2^31 - 1 consecutive misses is signed overflow, which is undefined behaviour; the model does not cover it.
- FramePipeline.ParseDetections: requires positive network width and height. The C++ code would divide by zero. It also requires the output array to hold `num_dets` rows, which the C++ code assumes of its pointer.
- Frame capture and drawing are not modelled. This covers `open`, `read`, `draw`, and `cv::resize`, `cvtColor` and `convertTo` in `preprocess`.
- FramePipeline.ReorderToChw: takes the already converted interleaved pixels and returns a fresh array. It does not resize a caller's vector.
- PuttStatistics.DirectionCapturedOnStart: states dir * |v| == v. It does not state that the captured direction has unit length.
- Network and file I/O are not modelled: the TensorRT engine, the stats API, the Unreal sender, `main`, Label Studio sessions, uploads and paging, and reading and writing label files.
- Label file names are not modelled. The export keys each file by the task's image path, not by the file stem.
- `:.6f` formatting: label lines are exact numbers, not rounded text.
- LabelStudio.ParseYoloLabel: Python's `int` and `float` are supplied as parameters that return no value where Python raises. Their accepted syntax is not modelled.
- ImageFiles.Lower: lower-cases ASCII letters only.
- Python's whitespace and line-break sets are listed character by character.
- `iterdir` is not modelled: `CollectImages` takes the directory's entry names as a list. Like the source, which tests only the suffix, it keeps a sub-directory whose name has an image suffix.
- The GroundingDINO model and `cv2.imread` are not modelled.
- In `auto_label`, skipping existing label files, the `--overwrite` flag and the progress counters are not modelled. The model starts from one image's detections and its positive size.
- AutoLabel.XyxyToYolo: requires a positive image size. The image shape read by OpenCV guarantees it, and a zero size would raise.
- `random.shuffle` with seed 42 is modelled as an arbitrary permutation of the chunks.
- SplitDataset.ValidationNonEmpty: holds only for a positive chunk size. A negative chunk size gives an empty `range`, so no chunks and no validation images (`NegativeChunkSizeNoValidation`); a zero chunk size raises (`ChunkList`).
- In `split_dataset`, moving images and labels, creating directories and the dry-run listing are not modelled.
