/**
  Post-inference decoding of the YOLO output tensor.

  The network's output is a flat, channel-major buffer of shape [1, C, N]:
  attribute a of candidate i lives at index a * N + i. The detection decoder
  reads C = 4 + 80 channels (centre-x, centre-y, width, height, then 80 class
  scores); the pose decoder reads C = 5 + 17 * 3 channels (the box, a person
  score, then x, y and score of each of 17 keypoints). Both keep the
  candidates whose score is strictly above the threshold, in ascending
  candidate order, and rescale boxes to source-image pixels.
 */
module InferencePipeline {
  import opened Predictions

  const NumBboxAttrs: nat := 4
  const NumClasses: nat := 80
  const DetectChannels: nat := NumBboxAttrs + NumClasses

  const NumPoseAttrs: nat := 5
  const NumKeypoints: nat := 17
  const KeypointDims: nat := 3
  const PoseChannels: nat := NumPoseAttrs + NumKeypoints * KeypointDims

  /** The length the decoders preallocate their result arrays with (a hint only: the arrays grow). */
  const Preallocated: nat := 50

  /** The part of the app's configuration the pipeline reads. */
  datatype Config = Config(scoreThreshold: real, iouThreshold: real, task: string)

  function Min(a: nat, b: nat): nat { if a < b then a else b }
  function Max(a: nat, b: nat): nat { if a < b then b else a }

  // ---------------------------------------------------------------------
  // Channel-major layout
  // ---------------------------------------------------------------------

  lemma {:induction false} MulMonotone(p: nat, q: nat, n: nat)
    requires p <= q
    ensures p * n <= q * n
  {
    if p < q {
      MulMonotone(p, q - 1, n);
      assert q * n == (q - 1) * n + n;
    }
  }

  /** Attribute a of candidate i is read at a * n + i, inside a buffer of `channels` channels. */
  lemma ChannelIndexInBounds(a: nat, i: nat, n: nat, channels: nat)
    requires a < channels && i < n
    ensures a * n + i < channels * n
    ensures (a + 1) * n <= channels * n
  {
    MulMonotone(a + 1, channels, n);
  }

  /** Attribute a of candidate i in a channel-major buffer of n candidates. */
  function Attr(data: seq<real>, n: nat, a: nat, i: nat): real
    requires i < n && (a + 1) * n <= |data|
  {
    data[a * n + i]
  }

  // ---------------------------------------------------------------------
  // Arg-max over the class channels
  // ---------------------------------------------------------------------

  /** The state of the arg-max scan: the best score so far and its class channel. */
  datatype Best = Best(score: real, classIdx: int)

  /**
    The scan over scores[..k] as the detection decoder runs it: it starts at
    score 0 and class -1 and moves only on a strictly greater score.
   */
  function BestOf(scores: seq<real>, k: nat): Best
    requires k <= |scores|
  {
    if k == 0 then Best(0.0, -1)
    else
      var prev := BestOf(scores, k - 1);
      if scores[k - 1] > prev.score then Best(scores[k - 1], k - 1) else prev
  }

  /**
    The scan finds the FIRST channel reaching the maximum score, with that
    score; and it reports class -1 with score 0 exactly when no score is
    above 0.
   */
  lemma {:induction false} BestOfIsFirstMaximum(scores: seq<real>, k: nat)
    requires k <= |scores|
    ensures var b := BestOf(scores, k);
            && -1 <= b.classIdx < k
            && (b.classIdx == -1 <==> forall c :: 0 <= c < k ==> scores[c] <= 0.0)
            && (b.classIdx == -1 ==> b.score == 0.0)
            && (b.classIdx >= 0 ==> b.score == scores[b.classIdx] && b.score > 0.0)
            && (forall c :: 0 <= c < k ==> scores[c] <= b.score)
            && (forall c :: 0 <= c < b.classIdx ==> scores[c] < b.score)
  {
    if k > 0 {
      BestOfIsFirstMaximum(scores, k - 1);
    }
  }

  /** The 80 class scores of candidate i. */
  function ClassScores(data: seq<real>, n: nat, i: nat): (s: seq<real>)
    requires i < n && DetectChannels * n <= |data|
    ensures |s| == NumClasses
  {
    seq(NumClasses, c requires 0 <= c < NumClasses =>
      ChannelIndexInBounds(NumBboxAttrs + c, i, n, DetectChannels);
      Attr(data, n, NumBboxAttrs + c, i))
  }

  /** The best class of candidate i: its score and its (first) class channel. */
  function BestClass(data: seq<real>, n: nat, i: nat): Best
    requires i < n && DetectChannels * n <= |data|
  {
    var scores := ClassScores(data, n, i);
    BestOf(scores, |scores|)
  }

  // ---------------------------------------------------------------------
  // Box decoding
  // ---------------------------------------------------------------------

  /**
    The box of candidate i: the network gives centre and size in network-input
    pixels; the result is top-left corner and size scaled to the source image.
   */
  function DecodeBox(data: seq<real>, n: nat, i: nat, xRatio: real, yRatio: real): (b: Box)
    requires i < n && NumBboxAttrs * n <= |data|
    ensures b.w == data[2 * n + i] * xRatio && b.h == data[3 * n + i] * yRatio
    ensures b.x + b.w / 2.0 == data[i] * xRatio
    ensures b.y + b.h / 2.0 == data[n + i] * yRatio
  {
    ChannelIndexInBounds(3, i, n, NumBboxAttrs);
    var w := Attr(data, n, 2, i) * xRatio;
    var h := Attr(data, n, 3, i) * yRatio;
    Box(Attr(data, n, 0, i) * xRatio - 0.5 * w, Attr(data, n, 1, i) * yRatio - 0.5 * h, w, h)
  }

  // ---------------------------------------------------------------------
  // Ascending selection of candidates
  // ---------------------------------------------------------------------

  /** The set of passing candidate indices. */
  ghost function PassingSet(pass: seq<bool>): set<nat>
  {
    set i: nat | i < |pass| && pass[i]
  }

  /** The indices i with pass[i], in ascending order: the candidates a decoder keeps. */
  function Kept(pass: seq<bool>): (idx: seq<nat>)
    ensures forall j :: 0 <= j < |idx| ==> idx[j] < |pass| && pass[idx[j]]
    ensures forall j, j' :: 0 <= j < j' < |idx| ==> idx[j] < idx[j']
    ensures forall i :: 0 <= i < |pass| && pass[i] ==> i in idx
  {
    if |pass| == 0 then []
    else Kept(pass[..|pass| - 1]) + (if pass[|pass| - 1] then [|pass| - 1] else [])
  }

  lemma PassingSetStep(pass: seq<bool>)
    requires |pass| > 0
    ensures PassingSet(pass) == PassingSet(pass[..|pass| - 1]) + (if pass[|pass| - 1] then {|pass| - 1} else {})
  {
    var m := |pass| - 1;
    forall i: nat
      ensures i in PassingSet(pass) <==> i in PassingSet(pass[..m]) || (pass[m] && i == m)
    {
      if i < m {
        assert pass[..m][i] == pass[i];
      }
    }
  }

  /** The number of kept candidates is the number of passing ones: nothing is capped. */
  lemma {:induction false} KeptCount(pass: seq<bool>)
    ensures |Kept(pass)| == |PassingSet(pass)|
  {
    if |pass| > 0 {
      var m := |pass| - 1;
      KeptCount(pass[..m]);
      PassingSetStep(pass);
      assert m !in PassingSet(pass[..m]);
    }
  }

  lemma KeptStep(pass: seq<bool>, i: nat)
    requires i < |pass|
    ensures Kept(pass[..i + 1]) == Kept(pass[..i]) + (if pass[i] then [i] else [])
  {
    assert pass[..i + 1][..i] == pass[..i];
  }

  /**
    JavaScript's `arr[idx] = v` on an array whose unwritten slots are holes
    (None): writing at or past the end grows the array to idx + 1.
   */
  function Store<T>(slots: seq<Option<T>>, idx: nat, v: T): (r: seq<Option<T>>)
    ensures |r| == Max(|slots|, idx + 1)
    ensures r[idx] == Some(v)
    ensures forall j :: 0 <= j < |r| && j != idx ==> r[j] == if j < |slots| then slots[j] else None
  {
    if idx < |slots| then slots[idx := Some(v)]
    else slots + seq(idx - |slots|, _ => None) + [Some(v)]
  }

  /** The values of an array none of whose slots is a hole. */
  function Filled<T>(slots: seq<Option<T>>): (r: seq<T>)
    requires forall j :: 0 <= j < |slots| ==> slots[j].Some?
    ensures |r| == |slots| && forall j :: 0 <= j < |r| ==> slots[j] == Some(r[j])
  {
    seq(|slots|, j requires 0 <= j < |slots| => slots[j].value)
  }

  /** The decoders' final `resultCount < results.length ? results.slice(0, resultCount) : results`. */
  function Trimmed<T>(slots: seq<Option<T>>, count: nat): seq<Option<T>>
  {
    if count < |slots| then slots[..count] else slots
  }

  /**
    The result array of a decoder, preallocated with `prealloc` holes, holds
    the values written so far in its first slots and holes after them.
   */
  ghost predicate Holds<T>(slots: seq<Option<T>>, values: seq<T>, prealloc: nat)
  {
    && |slots| == Max(prealloc, |values|)
    && (forall j :: 0 <= j < |values| ==> slots[j] == Some(values[j]))
    && (forall j :: |values| <= j < |slots| ==> slots[j] == None)
  }

  lemma HoldsStore<T>(slots: seq<Option<T>>, values: seq<T>, prealloc: nat, v: T)
    requires Holds(slots, values, prealloc)
    ensures Holds(Store(slots, |values|, v), values + [v], prealloc)
  {
  }

  /**
    Trimming the result array returns exactly the values written, whatever
    the preallocated length: writes past the end grew the array, so no value
    is dropped, and no hole is returned.
   */
  lemma TrimmedHolds<T>(slots: seq<Option<T>>, values: seq<T>, prealloc: nat)
    requires Holds(slots, values, prealloc)
    ensures forall j :: 0 <= j < |Trimmed(slots, |values|)| ==> Trimmed(slots, |values|)[j].Some?
    ensures Filled(Trimmed(slots, |values|)) == values
  {
  }

  // ---------------------------------------------------------------------
  // Detection decoder
  // ---------------------------------------------------------------------

  /** The detection decoder keeps candidate i when its best class score is strictly above the threshold. */
  predicate DetectKeeps(data: seq<real>, n: nat, i: nat, threshold: real)
    requires i < n && DetectChannels * n <= |data|
  {
    BestClass(data, n, i).score > threshold
  }

  /** The detection the decoder builds for candidate i. */
  function DetectionAt(data: seq<real>, n: nat, i: nat, xRatio: real, yRatio: real): Detection
    requires i < n && DetectChannels * n <= |data|
  {
    var b := BestClass(data, n, i);
    Detection(DecodeBox(data, n, i, xRatio, yRatio), b.classIdx, b.score)
  }

  /** What the detection decoder returns after scanning candidates 0 .. k-1. */
  function Detections(data: seq<real>, n: nat, k: nat, threshold: real, xRatio: real, yRatio: real): seq<Detection>
    requires k <= n && DetectChannels * n <= |data|
  {
    if k == 0 then []
    else Detections(data, n, k - 1, threshold, xRatio, yRatio)
         + (if DetectKeeps(data, n, k - 1, threshold) then [DetectionAt(data, n, k - 1, xRatio, yRatio)] else [])
  }

  /**
    Decodes a detection tensor of n candidates. For each candidate it scans
    the 80 class channels for the first maximum, skips the candidate when that
    score is not above the threshold, and otherwise stores the decoded box into
    an array preallocated with min(50, n) holes, which grows past its length.
   */
  method PostProcessDetect(data: seq<real>, n: nat, threshold: real, xRatio: real, yRatio: real)
    returns (results: seq<Detection>)
    requires DetectChannels * n <= |data|
    ensures results == Detections(data, n, n, threshold, xRatio, yRatio)
  {
    var bboxData := data[..n * NumBboxAttrs];
    var scoresData := data[n * NumBboxAttrs..];

    var slots: seq<Option<Detection>> := seq(Min(Preallocated, n), _ => None);
    var resultCount := 0;
    for i := 0 to n
      invariant resultCount == |Detections(data, n, i, threshold, xRatio, yRatio)|
      invariant Holds(slots, Detections(data, n, i, threshold, xRatio, yRatio), Min(Preallocated, n))
    {
      var maxScore, classIdx := ScanClasses(scoresData, data, n, i);
      if maxScore <= threshold {
        continue;
      }

      BoxReads(data, n, i, NumBboxAttrs, xRatio, yRatio);
      var w := bboxData[i + n * 2] * xRatio;
      var h := bboxData[i + n * 3] * yRatio;
      var x := bboxData[i] * xRatio - 0.5 * w;
      var y := bboxData[i + n] * yRatio - 0.5 * h;

      assert Detection(Box(x, y, w, h), classIdx, maxScore) == DetectionAt(data, n, i, xRatio, yRatio);
      assert Detections(data, n, i + 1, threshold, xRatio, yRatio)
          == Detections(data, n, i, threshold, xRatio, yRatio) + [Detection(Box(x, y, w, h), classIdx, maxScore)];
      HoldsStore(slots, Detections(data, n, i, threshold, xRatio, yRatio), Min(Preallocated, n),
                 Detection(Box(x, y, w, h), classIdx, maxScore));
      slots := Store(slots, resultCount, Detection(Box(x, y, w, h), classIdx, maxScore));
      resultCount := resultCount + 1;
    }
    TrimmedHolds(slots, Detections(data, n, n, threshold, xRatio, yRatio), Min(Preallocated, n));
    results := Filled(Trimmed(slots, resultCount));
  }

  /**
    The inner loop of the detection decoder: scans the 80 class scores of
    candidate i for the first maximum above 0, starting from score 0 and
    class -1.
   */
  method ScanClasses(scoresData: seq<real>, ghost data: seq<real>, n: nat, i: nat)
    returns (maxScore: real, classIdx: int)
    requires i < n && DetectChannels * n <= |data| && scoresData == data[n * NumBboxAttrs..]
    ensures Best(maxScore, classIdx) == BestClass(data, n, i)
  {
    ghost var scores := ClassScores(data, n, i);
    maxScore := 0.0;
    classIdx := -1;
    for c := 0 to NumClasses
      invariant Best(maxScore, classIdx) == BestOf(scores, c)
    {
      ClassScoreRead(data, n, i, c);
      var score := scoresData[i + c * n];
      if score > maxScore {
        maxScore := score;
        classIdx := c;
      }
    }
  }

  /** Class c of candidate i, read through the class-score view that starts at channel 4. */
  lemma ClassScoreRead(data: seq<real>, n: nat, i: nat, c: nat)
    requires i < n && c < NumClasses && DetectChannels * n <= |data|
    ensures 0 <= i + c * n < |data[n * NumBboxAttrs..]|
    ensures data[n * NumBboxAttrs..][i + c * n] == ClassScores(data, n, i)[c]
  {
    MulMonotone(0, c, n);
    ChannelIndexInBounds(c, i, n, NumClasses);
    ChannelIndexInBounds(NumBboxAttrs + c, i, n, DetectChannels);
    assert (NumBboxAttrs + c) * n == n * NumBboxAttrs + c * n;
    calc {
      ClassScores(data, n, i)[c];
      Attr(data, n, NumBboxAttrs + c, i);
      data[(NumBboxAttrs + c) * n + i];
      data[n * NumBboxAttrs + (i + c * n)];
    }
  }

  /** The four box reads of candidate i, through the view of the first `attrs` channels. */
  lemma BoxReads(data: seq<real>, n: nat, i: nat, attrs: nat, xRatio: real, yRatio: real)
    requires i < n && NumBboxAttrs <= attrs && attrs * n <= |data|
    ensures i + n * 3 < |data[..n * attrs]|
    ensures var bbox := data[..n * attrs];
            var w := bbox[i + n * 2] * xRatio;
            var h := bbox[i + n * 3] * yRatio;
            DecodeBox(data, n, i, xRatio, yRatio)
              == Box(bbox[i] * xRatio - 0.5 * w, bbox[i + n] * yRatio - 0.5 * h, w, h)
  {
    MulMonotone(NumBboxAttrs, attrs, n);
  }

  /** The keep mask of the detection decoder over all n candidates. */
  function DetectMask(data: seq<real>, n: nat, threshold: real): (pass: seq<bool>)
    requires DetectChannels * n <= |data|
    ensures |pass| == n
    ensures forall i :: 0 <= i < n ==> (pass[i] <==> DetectKeeps(data, n, i, threshold))
  {
    seq(n, i requires 0 <= i < n => DetectKeeps(data, n, i, threshold))
  }

  /**
    The detections are exactly those of the kept candidates, in ascending
    candidate order (Kept states the order and which candidates are kept).
   */
  lemma {:induction false} DetectionsOfKept(data: seq<real>, n: nat, k: nat, threshold: real, xRatio: real, yRatio: real)
    requires k <= n && DetectChannels * n <= |data|
    ensures var r := Detections(data, n, k, threshold, xRatio, yRatio);
            var idx := Kept(DetectMask(data, n, threshold)[..k]);
            && |r| == |idx|
            && forall j :: 0 <= j < |r| ==> idx[j] < n && r[j] == DetectionAt(data, n, idx[j], xRatio, yRatio)
  {
    var mask := DetectMask(data, n, threshold);
    if k > 0 {
      DetectionsOfKept(data, n, k - 1, threshold, xRatio, yRatio);
      KeptStep(mask, k - 1);
    }
  }

  /**
    The detection decoder returns exactly the passing candidates, in ascending
    order: as many results as candidates whose best class score is strictly
    above the threshold, with no cap at 50.
   */
  lemma DetectReturnsEveryPassing(data: seq<real>, n: nat, threshold: real, xRatio: real, yRatio: real)
    requires DetectChannels * n <= |data|
    ensures |Detections(data, n, n, threshold, xRatio, yRatio)|
         == |set i: nat | i < n && DetectKeeps(data, n, i, threshold)|
  {
    var mask := DetectMask(data, n, threshold);
    DetectionsOfKept(data, n, n, threshold, xRatio, yRatio);
    assert mask[..n] == mask;
    KeptCount(mask);
    assert PassingSet(mask) == set i: nat | i < n && DetectKeeps(data, n, i, threshold);
  }

  /** When no candidate's best class score is above the threshold, the result is empty. */
  lemma {:induction false} DetectNoneAboveThreshold(data: seq<real>, n: nat, k: nat, threshold: real, xRatio: real, yRatio: real)
    requires k <= n && DetectChannels * n <= |data|
    requires forall i :: 0 <= i < k ==> BestClass(data, n, i).score <= threshold
    ensures Detections(data, n, k, threshold, xRatio, yRatio) == []
  {
    if k > 0 {
      DetectNoneAboveThreshold(data, n, k - 1, threshold, xRatio, yRatio);
    }
  }

  /** When every candidate passes, every candidate is returned: the preallocation of 50 is not a cap. */
  lemma {:induction false} DetectNoCap(data: seq<real>, n: nat, k: nat, threshold: real, xRatio: real, yRatio: real)
    requires k <= n && DetectChannels * n <= |data|
    requires forall i :: 0 <= i < k ==> DetectKeeps(data, n, i, threshold)
    ensures |Detections(data, n, k, threshold, xRatio, yRatio)| == k
  {
    if k > 0 {
      DetectNoCap(data, n, k - 1, threshold, xRatio, yRatio);
    }
  }

  /**
    One candidate whose class-3 channel holds 0.9 and whose other class
    channels hold 0, centred at (100, 100) with size 50 x 50, in an image
    twice the network's size, under the default score threshold 0.45: it
    decodes to class 3, score 0.9 and the box at (150, 150) of size 100 x 100.
   */
  lemma DetectOneCandidate()
    ensures var data := [100.0, 100.0, 50.0, 50.0] + [0.0, 0.0, 0.0, 0.9] + seq(NumClasses - 4, _ => 0.0);
            Detections(data, 1, 1, 0.45, 2.0, 2.0) == [Detection(Box(150.0, 150.0, 100.0, 100.0), 3, 0.9)]
  {
    var data := [100.0, 100.0, 50.0, 50.0] + [0.0, 0.0, 0.0, 0.9] + seq(NumClasses - 4, _ => 0.0);
    var scores := ClassScores(data, 1, 0);
    forall c | 0 <= c < NumClasses
      ensures scores[c] == if c == 3 then 0.9 else 0.0
    {
      ClassScoreRead(data, 1, 0, c);
      assert 0 + c * 1 == c;
    }
    BestOfIsFirstMaximum(scores, |scores|);
    var b := BestOf(scores, |scores|);
    assert scores[3] == 0.9;
    assert b.classIdx >= 0 && b.score >= 0.9;
    assert BestClass(data, 1, 0) == b == Best(0.9, 3);
  }

  /**
    Every detection scores strictly above the threshold, names the first class
    channel reaching its candidate's maximum (or -1 with score 0 when no class
    scored above 0), and carries its candidate's decoded box.
   */
  lemma {:induction false} DetectionsAreFirstMaxima(data: seq<real>, n: nat, k: nat, threshold: real, xRatio: real, yRatio: real)
    requires k <= n && DetectChannels * n <= |data|
    ensures forall d :: d in Detections(data, n, k, threshold, xRatio, yRatio) ==>
              && d.score > threshold
              && -1 <= d.classIdx < NumClasses
              && exists i :: 0 <= i < k && IsFirstMaximum(data, n, i, d) && d.bbox == DecodeBox(data, n, i, xRatio, yRatio)
  {
    if k > 0 {
      DetectionsAreFirstMaxima(data, n, k - 1, threshold, xRatio, yRatio);
      var i := k - 1;
      var scores := ClassScores(data, n, i);
      BestOfIsFirstMaximum(scores, |scores|);
      assert IsFirstMaximum(data, n, i, DetectionAt(data, n, i, xRatio, yRatio));
    }
  }

  /**
    d names class -1 with score 0 when no class of candidate i scores above
    0, and otherwise the lowest class reaching the maximum, with that score.
   */
  ghost predicate IsFirstMaximum(data: seq<real>, n: nat, i: nat, d: Detection)
    requires i < n && DetectChannels * n <= |data|
  {
    var scores := ClassScores(data, n, i);
    if forall c :: 0 <= c < NumClasses ==> scores[c] <= 0.0 then
      d.classIdx == -1 && d.score == 0.0
    else
      && 0 <= d.classIdx < NumClasses
      && d.score == scores[d.classIdx]
      && (forall c :: 0 <= c < NumClasses ==> scores[c] <= d.score)
      && (forall c :: 0 <= c < d.classIdx ==> scores[c] < d.score)
  }

  // ---------------------------------------------------------------------
  // Pose decoder
  // ---------------------------------------------------------------------

  /** The person score of candidate i: channel 4, no arg-max. */
  function PoseScore(data: seq<real>, n: nat, i: nat): real
    requires i < n && PoseChannels * n <= |data|
  {
    ChannelIndexInBounds(4, i, n, PoseChannels);
    Attr(data, n, 4, i)
  }

  /** Keypoint kp of candidate i: channels 5 + 3kp, 6 + 3kp and 7 + 3kp; only x and y are scaled. */
  function KeypointAt(data: seq<real>, n: nat, i: nat, kp: nat, xRatio: real, yRatio: real): Keypoint
    requires i < n && kp < NumKeypoints && PoseChannels * n <= |data|
  {
    var base := NumPoseAttrs + kp * KeypointDims;
    ChannelIndexInBounds(base + 2, i, n, PoseChannels);
    Keypoint(Attr(data, n, base, i) * xRatio, Attr(data, n, base + 1, i) * yRatio, Attr(data, n, base + 2, i))
  }

  /** The 17 keypoints of candidate i, in keypoint order. */
  function Keypoints(data: seq<real>, n: nat, i: nat, xRatio: real, yRatio: real): (kps: seq<Keypoint>)
    requires i < n && PoseChannels * n <= |data|
    ensures |kps| == NumKeypoints
  {
    seq(NumKeypoints, kp requires 0 <= kp < NumKeypoints => KeypointAt(data, n, i, kp, xRatio, yRatio))
  }

  /** The pose decoder keeps candidate i when its person score is strictly above the threshold. */
  predicate PoseKeeps(data: seq<real>, n: nat, i: nat, threshold: real)
    requires i < n && PoseChannels * n <= |data|
  {
    PoseScore(data, n, i) > threshold
  }

  /** The pose the decoder builds for candidate i. */
  function PoseAt(data: seq<real>, n: nat, i: nat, xRatio: real, yRatio: real): Pose
    requires i < n && PoseChannels * n <= |data|
  {
    ChannelIndexInBounds(3, i, n, PoseChannels);
    Pose(DecodeBox(data, n, i, xRatio, yRatio), PoseScore(data, n, i), Keypoints(data, n, i, xRatio, yRatio))
  }

  /** What the pose decoder returns after scanning candidates 0 .. k-1. */
  function Poses(data: seq<real>, n: nat, k: nat, threshold: real, xRatio: real, yRatio: real): seq<Pose>
    requires k <= n && PoseChannels * n <= |data|
  {
    if k == 0 then []
    else Poses(data, n, k - 1, threshold, xRatio, yRatio)
         + (if PoseKeeps(data, n, k - 1, threshold) then [PoseAt(data, n, k - 1, xRatio, yRatio)] else [])
  }

  /**
    Decodes a pose tensor of n candidates: skips candidates whose channel-4
    score is not above the threshold, decodes the box and fills a fresh
    17-slot keypoint array for the others.
   */
  method PostProcessPose(data: seq<real>, n: nat, threshold: real, xRatio: real, yRatio: real)
    returns (results: seq<Pose>)
    requires PoseChannels * n <= |data|
    ensures results == Poses(data, n, n, threshold, xRatio, yRatio)
  {
    var bboxData := data[..n * NumPoseAttrs];
    var keypointsData := data[n * NumPoseAttrs..];

    var slots: seq<Option<Pose>> := seq(Min(Preallocated, n), _ => None);
    var resultCount := 0;
    for i := 0 to n
      invariant resultCount == |Poses(data, n, i, threshold, xRatio, yRatio)|
      invariant Holds(slots, Poses(data, n, i, threshold, xRatio, yRatio), Min(Preallocated, n))
    {
      BoxReads(data, n, i, NumPoseAttrs, xRatio, yRatio);
      var score := bboxData[i + n * 4];
      if score <= threshold {
        continue;
      }

      var w := bboxData[i + n * 2] * xRatio;
      var h := bboxData[i + n * 3] * yRatio;
      var x := bboxData[i] * xRatio - 0.5 * w;
      var y := bboxData[i + n] * yRatio - 0.5 * h;

      var keypoints := ReadKeypoints(keypointsData, data, n, i, xRatio, yRatio);

      assert Pose(Box(x, y, w, h), score, keypoints[..]) == PoseAt(data, n, i, xRatio, yRatio);
      assert Poses(data, n, i + 1, threshold, xRatio, yRatio)
          == Poses(data, n, i, threshold, xRatio, yRatio) + [Pose(Box(x, y, w, h), score, keypoints[..])];
      HoldsStore(slots, Poses(data, n, i, threshold, xRatio, yRatio), Min(Preallocated, n),
                 Pose(Box(x, y, w, h), score, keypoints[..]));
      slots := Store(slots, resultCount, Pose(Box(x, y, w, h), score, keypoints[..]));
      resultCount := resultCount + 1;
    }
    TrimmedHolds(slots, Poses(data, n, n, threshold, xRatio, yRatio), Min(Preallocated, n));
    results := Filled(Trimmed(slots, resultCount));
  }

  /**
    The inner loop of the pose decoder: a fresh 17-slot array filled with the
    keypoints of candidate i.
   */
  method ReadKeypoints(keypointsData: seq<real>, ghost data: seq<real>, n: nat, i: nat, xRatio: real, yRatio: real)
    returns (keypoints: array<Keypoint>)
    requires i < n && PoseChannels * n <= |data| && keypointsData == data[n * NumPoseAttrs..]
    ensures fresh(keypoints)
    ensures keypoints[..] == Keypoints(data, n, i, xRatio, yRatio)
  {
    keypoints := new Keypoint[NumKeypoints];
    for kp := 0 to NumKeypoints
      invariant forall q :: 0 <= q < kp ==> keypoints[q] == KeypointAt(data, n, i, q, xRatio, yRatio)
    {
      var baseIdx := kp * KeypointDims * n + i;
      KeypointReads(keypointsData, data, n, i, kp, baseIdx, xRatio, yRatio);
      var keypoint := Keypoint(keypointsData[baseIdx] * xRatio,
                               keypointsData[baseIdx + n] * yRatio,
                               keypointsData[baseIdx + n * 2]);
      assert keypoint == KeypointAt(data, n, i, kp, xRatio, yRatio);
      keypoints[kp] := keypoint;
    }
  }

  /** The three reads of keypoint kp of candidate i, through the keypoint view that starts at channel 5. */
  lemma KeypointReads(view: seq<real>, data: seq<real>, n: nat, i: nat, kp: nat, base: int, xRatio: real, yRatio: real)
    requires i < n && kp < NumKeypoints && PoseChannels * n <= |data| && view == data[n * NumPoseAttrs..]
    requires base == kp * KeypointDims * n + i
    ensures 0 <= base && base + n * 2 < |view|
    ensures KeypointAt(data, n, i, kp, xRatio, yRatio)
         == Keypoint(view[base] * xRatio, view[base + n] * yRatio, view[base + n * 2])
  {
    var a := NumPoseAttrs + kp * KeypointDims;
    MulMonotone(a + 3, PoseChannels, n);
    MulMonotone(0, kp * KeypointDims, n);
    var idx := kp * KeypointDims * n + i;
    assert a * n + i == n * NumPoseAttrs + idx;
    assert (a + 1) * n + i == n * NumPoseAttrs + idx + n;
    assert (a + 2) * n + i == n * NumPoseAttrs + idx + n * 2;
  }

  /** The keep mask of the pose decoder over all n candidates. */
  function PoseMask(data: seq<real>, n: nat, threshold: real): (pass: seq<bool>)
    requires PoseChannels * n <= |data|
    ensures |pass| == n
    ensures forall i :: 0 <= i < n ==> (pass[i] <==> PoseKeeps(data, n, i, threshold))
  {
    seq(n, i requires 0 <= i < n => PoseKeeps(data, n, i, threshold))
  }

  /** The poses are exactly those of the kept candidates, in ascending candidate order. */
  lemma {:induction false} PosesOfKept(data: seq<real>, n: nat, k: nat, threshold: real, xRatio: real, yRatio: real)
    requires k <= n && PoseChannels * n <= |data|
    ensures var r := Poses(data, n, k, threshold, xRatio, yRatio);
            var idx := Kept(PoseMask(data, n, threshold)[..k]);
            && |r| == |idx|
            && forall j :: 0 <= j < |r| ==> idx[j] < n && r[j] == PoseAt(data, n, idx[j], xRatio, yRatio)
  {
    var mask := PoseMask(data, n, threshold);
    if k > 0 {
      PosesOfKept(data, n, k - 1, threshold, xRatio, yRatio);
      KeptStep(mask, k - 1);
    }
  }

  /** The pose decoder returns as many results as candidates whose score is above the threshold. */
  lemma PoseReturnsEveryPassing(data: seq<real>, n: nat, threshold: real, xRatio: real, yRatio: real)
    requires PoseChannels * n <= |data|
    ensures |Poses(data, n, n, threshold, xRatio, yRatio)|
         == |set i: nat | i < n && PoseKeeps(data, n, i, threshold)|
  {
    var mask := PoseMask(data, n, threshold);
    PosesOfKept(data, n, n, threshold, xRatio, yRatio);
    assert mask[..n] == mask;
    KeptCount(mask);
    assert PassingSet(mask) == set i: nat | i < n && PoseKeeps(data, n, i, threshold);
  }

  /** When no candidate's score is above the threshold, the result is empty. */
  lemma {:induction false} PoseNoneAboveThreshold(data: seq<real>, n: nat, k: nat, threshold: real, xRatio: real, yRatio: real)
    requires k <= n && PoseChannels * n <= |data|
    requires forall i :: 0 <= i < k ==> PoseScore(data, n, i) <= threshold
    ensures Poses(data, n, k, threshold, xRatio, yRatio) == []
  {
    if k > 0 {
      PoseNoneAboveThreshold(data, n, k - 1, threshold, xRatio, yRatio);
    }
  }

  /** p is the pose of candidate i: its channel-4 score, its box and its 17 keypoints in channel order. */
  ghost predicate PoseIsCandidate(data: seq<real>, n: nat, i: nat, p: Pose, xRatio: real, yRatio: real)
    requires i < n && PoseChannels * n <= |data|
  {
    ChannelIndexInBounds(4, i, n, PoseChannels);
    && p.score == Attr(data, n, 4, i)
    && p.bbox == DecodeBox(data, n, i, xRatio, yRatio)
    && |p.keypoints| == NumKeypoints
    && forall kp :: 0 <= kp < NumKeypoints ==> p.keypoints[kp] == KeypointAt(data, n, i, kp, xRatio, yRatio)
  }

  /**
    Every pose scores strictly above the threshold and has exactly 17
    keypoints; keypoint kp holds channels 5 + 3kp and 6 + 3kp scaled by the
    ratios and channel 7 + 3kp unscaled, of the pose's own candidate.
   */
  lemma {:induction false} PosesAreWellFormed(data: seq<real>, n: nat, k: nat, threshold: real, xRatio: real, yRatio: real)
    requires k <= n && PoseChannels * n <= |data|
    ensures forall p :: p in Poses(data, n, k, threshold, xRatio, yRatio) ==>
              && p.score > threshold
              && |p.keypoints| == NumKeypoints
              && exists i :: 0 <= i < k && PoseIsCandidate(data, n, i, p, xRatio, yRatio)
  {
    if k > 0 {
      PosesAreWellFormed(data, n, k - 1, threshold, xRatio, yRatio);
      assert PoseIsCandidate(data, n, k - 1, PoseAt(data, n, k - 1, xRatio, yRatio), xRatio, yRatio);
    }
  }

  // ---------------------------------------------------------------------
  // Pipeline: task dispatch, non-maximum suppression and gather
  // ---------------------------------------------------------------------

  /**
    What the pipeline sees of one captured frame: the source image's size,
    the size the pre-processing resized it to, and the network's output
    buffer with the number of candidates it holds (the tensor's third
    dimension).
   */
  datatype Frame = Frame(cols: nat, rows: nat, divWidth: nat, divHeight: nat, output: seq<real>, numPredictions: nat)

  /** The frame has positive network dimensions and an output buffer large enough for the decoder of `task`. */
  predicate FrameFits(f: Frame, task: string)
  {
    && f.divWidth > 0 && f.divHeight > 0
    && (task == "detect" ==> DetectChannels * f.numPredictions <= |f.output|)
    && (task == "pose" ==> PoseChannels * f.numPredictions <= |f.output|)
  }

  /** Source-image columns per network input column, and rows per row. */
  function XRatio(f: Frame): real
    requires f.divWidth > 0
  {
    f.cols as real / f.divWidth as real
  }

  function YRatio(f: Frame): real
    requires f.divHeight > 0
  {
    f.rows as real / f.divHeight as real
  }

  /** The score list handed to non-maximum suppression, one score per prediction. */
  function Scores(preds: seq<Prediction>): (scores: seq<real>)
    ensures |scores| == |preds| && forall j :: 0 <= j < |preds| ==> scores[j] == preds[j].Score()
  {
    seq(|preds|, j requires 0 <= j < |preds| => preds[j].Score())
  }

  /**
    Non-maximum suppression is not part of this model; it is a parameter,
    of which the pipeline needs only that every index it selects names one of
    the predictions it was given.
   */
  ghost predicate SelectsInRange(nms: (seq<Prediction>, seq<real>, real) -> seq<int>)
  {
    forall preds, scores, iou, j :: 0 <= j < |nms(preds, scores, iou)| ==> 0 <= nms(preds, scores, iou)[j] < |preds|
  }

  /** `selected_indices.map((i) => results[i])`. */
  function Gather(results: seq<Prediction>, indices: seq<int>): seq<Prediction>
    requires forall j :: 0 <= j < |indices| ==> 0 <= indices[j] < |results|
  {
    if indices == [] then [] else [results[indices[0]]] + Gather(results, indices[1..])
  }

  /** The gather yields one prediction per selected index, each the one at that index. */
  lemma {:induction false} GatherSelects(results: seq<Prediction>, indices: seq<int>)
    requires forall j :: 0 <= j < |indices| ==> 0 <= indices[j] < |results|
    ensures |Gather(results, indices)| == |indices|
    ensures forall j :: 0 <= j < |indices| ==> Gather(results, indices)[j] == results[indices[j]]
  {
    if indices != [] {
      GatherSelects(results, indices[1..]);
    }
  }

  /** Selecting every index in ascending order gives back the decoded list unchanged. */
  lemma GatherAll(results: seq<Prediction>, indices: seq<int>)
    requires |indices| == |results| && forall j :: 0 <= j < |indices| ==> indices[j] == j
    ensures Gather(results, indices) == results
  {
    GatherSelects(results, indices);
  }

  /** The decoded list as predictions. */
  function AsDetected(ds: seq<Detection>): (preds: seq<Prediction>)
    ensures |preds| == |ds| && forall j :: 0 <= j < |ds| ==> preds[j] == Detected(ds[j])
  {
    seq(|ds|, j requires 0 <= j < |ds| => Detected(ds[j]))
  }

  function AsPosed(ps: seq<Pose>): (preds: seq<Prediction>)
    ensures |preds| == |ps| && forall j :: 0 <= j < |ps| ==> preds[j] == Posed(ps[j])
  {
    seq(|ps|, j requires 0 <= j < |ps| => Posed(ps[j]))
  }

  /**
    The list the decoder of `config.task` produces, or None when that task has no
    working decoder: "segment" yields undefined and any other task leaves
    the results unset, and either way the suppression step then throws.
   */
  function Decoded(f: Frame, config: Config): Option<seq<Prediction>>
    requires FrameFits(f, config.task)
  {
    var n := f.numPredictions;
    if config.task == "detect" then
      Some(AsDetected(Detections(f.output, n, n, config.scoreThreshold, XRatio(f), YRatio(f))))
    else if config.task == "pose" then
      Some(AsPosed(Poses(f.output, n, n, config.scoreThreshold, XRatio(f), YRatio(f))))
    else None
  }

  /** Every decoded prediction of a known task scores strictly above the threshold and has that task's kind. */
  lemma DecodedAboveThreshold(f: Frame, config: Config)
    requires FrameFits(f, config.task) && Decoded(f, config).Some?
    ensures forall p :: p in Decoded(f, config).value ==>
              && p.Score() > config.scoreThreshold
              && (config.task == "detect" <==> p.Detected?)
  {
    var n := f.numPredictions;
    if config.task == "detect" {
      DetectionsAreFirstMaxima(f.output, n, n, config.scoreThreshold, XRatio(f), YRatio(f));
    } else {
      PosesAreWellFormed(f.output, n, n, config.scoreThreshold, XRatio(f), YRatio(f));
    }
  }

  /**
    One run of the pipeline on a frame (None when capturing the frame,
    pre-processing it or running the network throws). `config.task` selects the
    decoder; suppression picks indices into the decoded list, which are
    gathered in the order selected. Any exception yields the empty list.
   */
  method RunInference(frame: Option<Frame>, config: Config, nms: (seq<Prediction>, seq<real>, real) -> seq<int>)
    returns (predictions: seq<Prediction>)
    requires SelectsInRange(nms)
    requires frame.Some? ==> FrameFits(frame.value, config.task)
    ensures frame.None? ==> predictions == []
    ensures frame.Some? && config.task != "detect" && config.task != "pose" ==> predictions == []
    ensures frame.Some? && Decoded(frame.value, config).Some? ==>
              var decoded := Decoded(frame.value, config).value;
              var selected := nms(decoded, Scores(decoded), config.iouThreshold);
              && |predictions| == |selected|
              && forall j :: 0 <= j < |selected| ==> predictions[j] == decoded[selected[j]]
    ensures forall p :: p in predictions ==> p.Score() > config.scoreThreshold
  {
    if frame.None? {
      return [];
    }
    var f := frame.value;
    var xRatio := f.cols as real / f.divWidth as real;
    var yRatio := f.rows as real / f.divHeight as real;
    var n := f.numPredictions;

    var results: seq<Prediction>;
    match config.task {
      case "detect" =>
        var detections := PostProcessDetect(f.output, n, config.scoreThreshold, xRatio, yRatio);
        results := AsDetected(detections);
      case "pose" =>
        var poses := PostProcessPose(f.output, n, config.scoreThreshold, xRatio, yRatio);
        results := AsPosed(poses);
      case _ =>
        return [];
    }

    var selected := nms(results, Scores(results), config.iouThreshold);
    predictions := Gather(results, selected);
    GatherSelects(results, selected);
    DecodedAboveThreshold(f, config);
  }
}
