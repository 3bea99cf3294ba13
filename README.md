# YOLO in the browser: decoding and drawing, modelled in Dafny

This project models the two core modules of a browser application that runs
YOLO models (object detection and pose estimation) on camera frames:

- `src/utils/inference_pipeline.js` turns the network's output tensor into a
  list of predictions. It selects the decoder by task, runs non-maximum
  suppression (NMS), gathers the selected results, and returns the empty list
  on any exception.
- `src/utils/draw_bounding_boxes.js` draws those predictions on an overlay
  canvas:
  - object detection is drawn grouped by class;
  - pose estimation draws boxes, score labels, a skeleton and keypoint dots;
  - label text widths are cached per text.

The model has three modules:

- `Predictions` (`predictions.dfy`) holds the values both sides share: `Box`,
  `Keypoint`, `Detection`, `Pose`, and `Prediction`, which is one of the two.
- `InferencePipeline` (`inference_pipeline.dfy`) covers the two decoders and
  the pipeline:
  - The output tensor is a channel-major `seq<real>`: attribute `a` of
    candidate `i` sits at `a * n + i`.
  - Each decoder is a `method` with the source's loops. It is proved equal to
    a prefix-recursive specification function (`Detections`, `Poses`).
  - The properties are proved about those functions: arg-max semantics,
    which candidates survive, order, the absence of a cap, and keypoint
    layout.
  - The JavaScript result array is preallocated with holes and grows on
    assignment. It is modelled as a `seq<Option<T>>` of slots.
  - `RunInference` models the switch on `config.task`, the NMS call with its gather, and
    the exception paths.
- `DrawBoundingBoxes` (`draw_bounding_boxes.dfy`) covers drawing.
  - The 2D context is a `Canvas` class. It has the fields the code assigns
    (`fillStyle`, `strokeStyle`, `lineWidth`, `font`) and a `log` of the
    drawing commands issued so far.
  - The width cache is a `FontCache` class whose `measurements` map the
    lookups update.
  - Every drawing method is proved to append exactly the commands of a
    specification function.
  - Lemmas about those functions state what the drawing means:
    - every detection is outlined once, in its class's colour;
    - the groups come in `Object.entries` order;
    - limbs and dots appear exactly where their score gates allow;
    - when there is nothing to draw, only the clear is issued.

Four behaviours of the code are easy to miss:
- **No cap at 50.** The decoders preallocate `min(50, n)` slots, but the array
  grows, so every passing candidate is returned. See `DetectNoCap` and
  `DetectReturnsEveryPassing`.
- **Class -1.** A detection's class index is -1, with score 0, when no class
  channel scores above 0. Such a candidate passes whenever the threshold is
  negative. See `BestOfIsFirstMaximum`.
- **The "segment" task.** Inference with this task yields `undefined`, so the
  NMS call throws and the pipeline returns `[]`.
- **An unknown task.** Inference with any other task logs "falling back to
  detection", but it leaves the results unset, so it also throws and returns
  `[]`. Only the drawing side really falls back to detection
  (`UnknownTaskOutlinesLikeDetect`).

## Model

| member | source | states |
|---|---|---|
| InferencePipeline.RunInference | src/utils/inference_pipeline.js:4-72 | no frame (capture, pre-processing or the network threw) gives []; a task other than "detect"/"pose" gives []; otherwise the result is the decoded list gathered at NMS's selected indices, in selection order, with one result per index; the score list handed to NMS has one entry per decoded result, equal to that result's score; every returned prediction scores strictly above the score threshold |
| InferencePipeline.DecodedAboveThreshold | src/utils/inference_pipeline.js:41-53 | every prediction the selected decoder produces scores above the threshold, and it is a detection exactly when `config.task` is "detect" |
| InferencePipeline.GatherSelects | src/utils/inference_pipeline.js:62 | gathering yields one prediction per selected index, the one at that index |
| InferencePipeline.GatherAll | src/utils/inference_pipeline.js:62 | selecting every index in order returns the decoded list unchanged |
| InferencePipeline.PostProcessDetect | src/utils/inference_pipeline.js:74-111 | the detection decoder's loops (preallocated, growing slot array; trimmed on return) return exactly `Detections` of all n candidates |
| InferencePipeline.ScanClasses | src/utils/inference_pipeline.js:87-96 | the inner class loop, reading the scores subarray at `i + c * n`, ends with the arg-max state `BestClass` of the candidate |
| InferencePipeline.BestOfIsFirstMaximum | src/utils/inference_pipeline.js:87-96 | the scan from (0, -1) with a strict `>` finds the first class reaching the maximum, with its score; it reports -1 with score 0 exactly when no class scores above 0 |
| InferencePipeline.ClassScoreRead | src/utils/inference_pipeline.js:81-91 | for each of the 80 classes c, reading the scores subarray at `i + c * n` stays in bounds and yields channel 4 + c of candidate i |
| InferencePipeline.DecodeBox | src/utils/inference_pipeline.js:99-102 | width and height are channels 2 and 3 scaled by the x and y ratios, and (x, y) is the top-left corner, half the size away from the scaled centre |
| InferencePipeline.BoxReads | src/utils/inference_pipeline.js:99-102 | the four box reads through the bbox subarray stay in bounds and read channels 0-3 of the candidate |
| InferencePipeline.DetectionsOfKept | src/utils/inference_pipeline.js:86-110 | a candidate passes exactly when its best class score is strictly above the threshold, and the detections are exactly those of the passing candidates, in ascending candidate order |
| InferencePipeline.DetectReturnsEveryPassing | src/utils/inference_pipeline.js:83-110 | the number of detections equals the number of passing candidates; the preallocation of 50 is no cap |
| InferencePipeline.DetectNoCap | src/utils/inference_pipeline.js:83-110 | when all k candidates pass, k detections are returned, whatever k is |
| InferencePipeline.DetectNoneAboveThreshold | src/utils/inference_pipeline.js:97 | when no best class score is above the threshold, nothing is returned |
| InferencePipeline.DetectOneCandidate | src/utils/inference_pipeline.js:86-108 | a single candidate centred at (100, 100), 50 x 50, class 3 at 0.9, with ratio 2 and the default score threshold 0.45 decodes to box (150, 150, 100, 100), class 3, score 0.9 |
| InferencePipeline.DetectionsAreFirstMaxima | src/utils/inference_pipeline.js:86-108 | every detection scores above the threshold, has a class in [-1, 80), and is its candidate's first maximum with that candidate's decoded box |
| InferencePipeline.PostProcessPose | src/utils/inference_pipeline.js:113-153 | the pose decoder's loops return exactly `Poses` of all n candidates |
| InferencePipeline.ReadKeypoints | src/utils/inference_pipeline.js:136-144 | the keypoint loop fills a fresh 17-element array with the candidate's keypoints, read at `kp * 3 * n + i` of the keypoint subarray |
| InferencePipeline.KeypointReads | src/utils/inference_pipeline.js:138-142 | the three keypoint reads stay in bounds and read channels 5 + 3kp, 6 + 3kp and 7 + 3kp; x and y are scaled and the score is not |
| InferencePipeline.PosesOfKept | src/utils/inference_pipeline.js:127-152 | a candidate passes exactly when its channel-4 score is strictly above the threshold, and the poses are exactly those of the passing candidates, in ascending candidate order |
| InferencePipeline.PoseReturnsEveryPassing | src/utils/inference_pipeline.js:124-152 | the number of poses equals the number of passing candidates |
| InferencePipeline.PoseNoneAboveThreshold | src/utils/inference_pipeline.js:128-129 | when no score is above the threshold, nothing is returned |
| InferencePipeline.PosesAreWellFormed | src/utils/inference_pipeline.js:127-150 | every pose scores above the threshold, has 17 keypoints, and is its own candidate's score, box and keypoints |
| InferencePipeline.HoldsStore | src/utils/inference_pipeline.js:104 | storing at index `resultCount` (growing the array when it is full) keeps slots 0..resultCount-1 filled with the results so far, in order |
| InferencePipeline.TrimmedHolds | src/utils/inference_pipeline.js:110 | returning the array, sliced to `resultCount` when shorter, yields exactly the stored results with no holes |
| InferencePipeline.Store | src/utils/inference_pipeline.js:104 | assignment past the end grows the array to idx + 1 with holes in between and leaves every other slot unchanged |
| DrawBoundingBoxes.DrawBoundingBoxesOn | src/utils/draw_bounding_boxes.js:10-37 | the canvas is cleared first; then nothing for no predictions or "segment", pose drawing for "pose", detection drawing for "detect" and any other task; the cache and pen state end as each path leaves them |
| DrawBoundingBoxes.OnlyClearsWithoutDrawing | src/utils/draw_bounding_boxes.js:22-31 | with null, undefined or empty predictions, or the "segment" task, nothing is drawn after the clear, nothing is measured and the pen is unchanged |
| DrawBoundingBoxes.UnknownTaskOutlinesLikeDetect | src/utils/draw_bounding_boxes.js:32-35 | any task other than "pose" and "segment" outlines every prediction exactly once in its class's border colour |
| DrawBoundingBoxes.PoseOutlinesEveryPrediction | src/utils/draw_bounding_boxes.js:90-96 | the pose task outlines every prediction once, in green, in the order given |
| DrawBoundingBoxes.DrawObjectDetection | src/utils/draw_bounding_boxes.js:42-82 | the commands drawn are the class groups' commands in `Object.entries` order of the first-seen class keys; every label text is measured; the pen ends in the last group's border colour |
| DrawBoundingBoxes.GroupByClass | src/utils/draw_bounding_boxes.js:43-49 | the grouping object has a key exactly for each class seen, and each key's list holds that class's predictions in input order |
| DrawBoundingBoxes.FirstSeenKeys | src/utils/draw_bounding_boxes.js:45-49 | the keys are distinct, and a key is present exactly when some prediction has that class |
| DrawBoundingBoxes.MembersAreTheKeysPredictions | src/utils/draw_bounding_boxes.js:45-49 | a class's list holds exactly its predictions, each as often as in the input |
| DrawBoundingBoxes.GroupedIsPermutation | src/utils/draw_bounding_boxes.js:45-51 | concatenating the groups of all seen keys is a permutation of the predictions |
| DrawBoundingBoxes.GroupedCoversAll | src/utils/draw_bounding_boxes.js:51 | the groups visited in entry order hold every prediction exactly once |
| DrawBoundingBoxes.EntryOrderIsPermutation | src/utils/draw_bounding_boxes.js:51 | `Object.entries` visits every key once: array-index keys first, in ascending numeric order, then the other keys ("-1", "undefined") in insertion order: the part after the index keys is exactly the order-preserving filter of the inserted keys |
| DrawBoundingBoxes.OtherKeysFilterInOrder | src/utils/draw_bounding_boxes.js:51 | the non-index keys are filtered in order: the filter distributes over concatenation of the inserted keys |
| DrawBoundingBoxes.OtherKeysOfOne | src/utils/draw_bounding_boxes.js:51 | a single inserted key is kept by the filter exactly when it is not an array index |
| DrawBoundingBoxes.IndexAndOtherKeys | src/utils/draw_bounding_boxes.js:51 | the index keys come out ascending, the other keys distinct and non-index, and together they are the inserted keys |
| DrawBoundingBoxes.InsertAscendingSorts | src/utils/draw_bounding_boxes.js:51 | inserting a new index key into an ascending key list keeps it ascending |
| DrawBoundingBoxes.InsertAscendingKeeps | src/utils/draw_bounding_boxes.js:51 | inserting adds exactly that key |
| DrawBoundingBoxes.DrawGroups | src/utils/draw_bounding_boxes.js:51-81 | the `forEach` over the entries draws each group's commands in turn and measures every text of the groups |
| DrawBoundingBoxes.DrawClassGroup | src/utils/draw_bounding_boxes.js:52-80 | one group is filled in its fill colour, outlined in its border colour at the line width, and labelled in the border colour in 16px Arial |
| DrawBoundingBoxes.FillBoxes | src/utils/draw_bounding_boxes.js:57-61 | one filled rectangle per item, at its box, in the current fill style |
| DrawBoundingBoxes.StrokeBoxes | src/utils/draw_bounding_boxes.js:64-69 | one outlined rectangle per item, at its box, in the current stroke style and line width |
| DrawBoundingBoxes.DrawLabels | src/utils/draw_bounding_boxes.js:74-80 | one label per item at its box's corner, in the fill style set before; the fill style is unchanged afterwards; every label text ends with an entry in the cache |
| DrawBoundingBoxes.OutlinesEveryPredictionOnce | src/utils/draw_bounding_boxes.js:45-81 | grouping changes only the order: the outlines drawn are one per prediction, each in its own class's border colour |
| DrawBoundingBoxes.DetectionStrokes | src/utils/draw_bounding_boxes.js:51-81 | the outlines of the drawn groups are those of the grouped predictions, group after group |
| DrawBoundingBoxes.GroupStrokes | src/utils/draw_bounding_boxes.js:56-80 | one group's fills and labels draw no outline; its outlines are its members' |
| DrawBoundingBoxes.StrokesAreOutlines | src/utils/draw_bounding_boxes.js:64-69 | outlining a group of one class gives each member's outline in that class's border colour |
| DrawBoundingBoxes.OutlinesPermutation | src/utils/draw_bounding_boxes.js:51 | reordering the predictions reorders their outlines in the same way |
| DrawBoundingBoxes.TextsOfPermutation | src/utils/draw_bounding_boxes.js:74-80 | reordering the predictions does not change the set of label texts measured |
| DrawBoundingBoxes.DrawPoseEstimation | src/utils/draw_bounding_boxes.js:87-164 | empty input draws nothing; otherwise green outlines, then green score labels, then one orange path of every limb, then red keypoint dots, leaving fill red, stroke orange and width 2 |
| DrawBoundingBoxes.DrawKeypointLayer | src/utils/draw_bounding_boxes.js:107-163 | one `beginPath`, the limbs of every prediction with keypoints, one orange `stroke` of width 2, then the dots in red |
| DrawBoundingBoxes.DrawSkeletons | src/utils/draw_bounding_boxes.js:135-147 | predictions without keypoints are skipped; the others contribute their limbs in input order |
| DrawBoundingBoxes.DrawSkeleton | src/utils/draw_bounding_boxes.js:138-146 | the 19 limbs are visited in source order, each drawn as a move and a line when both of its keypoints pass |
| DrawBoundingBoxes.LinkedLimbsAreDrawn | src/utils/draw_bounding_boxes.js:138-146 | every limb whose two keypoints exist and score strictly above 0.5 is drawn as one contiguous segment of the command list: a move to its first keypoint immediately followed by a line to its second |
| DrawBoundingBoxes.DrawnLimbsAreLinked | src/utils/draw_bounding_boxes.js:138-146 | nothing is drawn but segments of limbs whose two keypoints exist and score above 0.5 |
| DrawBoundingBoxes.SkeletonsArePathSteps | src/utils/draw_bounding_boxes.js:135-147 | the skeleton path consists only of moves and lines |
| DrawBoundingBoxes.DrawAllDots | src/utils/draw_bounding_boxes.js:152-163 | predictions without keypoints are skipped; the others contribute their dots in input order |
| DrawBoundingBoxes.DrawDots | src/utils/draw_bounding_boxes.js:155-162 | each keypoint scoring at least 0.5 is drawn as its own path with a radius-3 arc, filled in the current fill style |
| DrawBoundingBoxes.DotsAtConfidentKeypoints | src/utils/draw_bounding_boxes.js:155-162 | a dot is drawn at every keypoint scoring at least 0.5, nothing else but path starts and fills is drawn, and there are three commands per such keypoint |
| DrawBoundingBoxes.DotsArePathSteps | src/utils/draw_bounding_boxes.js:152-163 | the dot layer consists only of path starts, arcs and fills |
| DrawBoundingBoxes.HalfScoreGetsDotButNoLimb | src/utils/draw_bounding_boxes.js:142-157 | the two gates differ: a keypoint scoring exactly 0.5 gets a dot but no limb touches it |
| DrawBoundingBoxes.PoseStrokes | src/utils/draw_bounding_boxes.js:90-163 | of all pose commands, the only outlines are the green boxes, one per prediction in order |
| DrawBoundingBoxes.GreenStrokes | src/utils/draw_bounding_boxes.js:91-96 | outlining in green yields one green outline per prediction |
| DrawBoundingBoxes.FontCache.GetMeasuredTextWidth | src/utils/draw_bounding_boxes.js:175-180 | a lookup measures and stores the width when the entry is absent or 0, otherwise it leaves the cache alone; it returns the stored entry |
| DrawBoundingBoxes.CacheAfter | src/utils/draw_bounding_boxes.js:176-178 | after a lookup the text has an entry, a hit changes nothing, and no other entry changes |
| DrawBoundingBoxes.CacheAnswersMeasure | src/utils/draw_bounding_boxes.js:175-180 | a cache holding only measured widths answers the measured width and stays that way |
| DrawBoundingBoxes.CacheIdempotent | src/utils/draw_bounding_boxes.js:175-180 | looking the same text up twice leaves the cache as one lookup does |
| DrawBoundingBoxes.LabelPlacement | src/utils/draw_bounding_boxes.js:191-199 | the 20-pixel background sits directly above y when that fits on the canvas (y - 20 >= 0), otherwise just below it; the text baseline lies inside the background; for y >= -1 the background never starts above the canvas |
| DrawBoundingBoxes.DrawTextWithBackground | src/utils/draw_bounding_boxes.js:185-206 | sets the label font, looks the width up in the cache, draws the (width + 4) x 20 background at x - 1 in the current fill style and the text in white, and restores the fill style |

## Left out

- Capturing the frame, OpenCV pre-processing, tensor construction and the ONNX Runtime session are not modelled. A captured frame is an input `Frame` (source size, network size, output buffer, candidate count), and `None` stands for any of those steps throwing.
- Timing (`performance.now`, `toFixed(2)`) and the timing string returned beside the predictions are left out, because they depend on the clock.
- `applyNMS` is a parameter, because its code is not part of this model. The only thing required of it is that it selects indices within the list it is given; otherwise JavaScript would gather `undefined` entries.
- Tensor `dispose`/`delete` calls and the `finally` block are left out, because they manage memory and do not change the result.
- Numbers are exact reals. Float32 rounding of the tensor, float64 arithmetic in the decoders and NaN comparisons are not modelled.
- InferencePipeline.RunInference: requires an output buffer at least 84·n (detect) or 56·n (pose) long and positive network dimensions. A shorter typed array would read `undefined` (NaN) and a zero size would give an infinite ratio; both are outside a real-number model.
- The per-class colours (the `Colors` palette) and the class names (`yolo_classes.json`) are not modelled. A colour is named by its class key (`ClassFill`, `ClassBorder`), and the label texts are given as functions (`LabelText`).
- DrawBoundingBoxes.DrawBoundingBoxesOn: takes `lineWidth` as a parameter instead of computing the square root. Its precondition pins it to the canvas diagonal divided by 250.
- Text measurement (`ctx.measureText`) is a function of the text, fixed for the canvas. The arc's angles (0 to 2π) are not recorded in the `Arc` command.
- Object keys that JavaScript would take from `Object.prototype` (a label text such as "constructor") are not modelled: the cache map starts empty. Class keys are `ClassIdx(i)` or `Undefined` (a pose passed to the detection drawing), so key "-1" is a non-index key in insertion order.
- The `post_process_segment` and `draw_segmentation` stubs have no behaviour of their own. They appear only as the paths that return `[]` or draw nothing.
