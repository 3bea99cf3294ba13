/**
  The overlay drawing layer: it clears the overlay canvas and draws the
  pipeline's predictions on it, grouped and coloured by class for detection,
  or as boxes, skeletons and keypoint dots for pose estimation.

  The 2D canvas context is modelled as a recorder: its drawing state
  (fill style, stroke style, line width, font) is a set of fields, and every
  drawing call appends one command, with the state it draws with, to a log.
 */
module DrawBoundingBoxes {
  import opened Predictions

  // ---------------------------------------------------------------------
  // Canvas
  // ---------------------------------------------------------------------

  /** A class's key in the grouping object: the prediction's class_idx, or undefined when it has none. */
  datatype ClassKey = ClassIdx(idx: int) | Undefined

  /** The colours the layer draws with. Class colours come from the palette (not modelled) at opacity 0.2 or 0.8. */
  datatype Style =
    | ClassFill(key: ClassKey)
    | ClassBorder(key: ClassKey)
    | Green
    | Orange
    | Red
    | White
    | Unset

  /** One call on the canvas, with the part of the drawing state it uses. */
  datatype Cmd =
    | ClearRect(x: real, y: real, w: real, h: real)
    | FillRect(x: real, y: real, w: real, h: real, style: Style)
    | StrokeRect(x: real, y: real, w: real, h: real, style: Style, lineWidth: real)
    | FillText(text: string, x: real, y: real, style: Style, font: string)
    | BeginPath
    | MoveTo(x: real, y: real)
    | LineTo(x: real, y: real)
    | Stroke(style: Style, lineWidth: real)
    | Arc(x: real, y: real, radius: real)
    | Fill(style: Style)

  /** The drawing state of the context. */
  datatype Pen = Pen(fillStyle: Style, strokeStyle: Style, lineWidth: real, font: string)

  /** The overlay canvas and its 2D context. `measure` is the text width the browser reports in the label font. */
  class Canvas {
    const width: real
    const height: real
    const measure: string -> real
    var fillStyle: Style
    var strokeStyle: Style
    var lineWidth: real
    var font: string
    var log: seq<Cmd>

    constructor (width: real, height: real, measure: string -> real)
      ensures this.width == width && this.height == height && this.measure == measure
      ensures fillStyle == Unset && strokeStyle == Unset && lineWidth == 1.0 && font == "10px sans-serif"
      ensures log == []
    {
      this.width := width;
      this.height := height;
      this.measure := measure;
      fillStyle := Unset;
      strokeStyle := Unset;
      lineWidth := 1.0;
      font := "10px sans-serif";
      log := [];
    }

    function CurrentPen(): Pen
      reads this
    {
      Pen(fillStyle, strokeStyle, lineWidth, font)
    }

    method ClearRect(x: real, y: real, w: real, h: real)
      modifies this`log
      ensures log == old(log) + [Cmd.ClearRect(x, y, w, h)]
    {
      log := log + [Cmd.ClearRect(x, y, w, h)];
    }

    method FillRect(x: real, y: real, w: real, h: real)
      modifies this`log
      ensures log == old(log) + [Cmd.FillRect(x, y, w, h, fillStyle)]
    {
      log := log + [Cmd.FillRect(x, y, w, h, fillStyle)];
    }

    method StrokeRect(x: real, y: real, w: real, h: real)
      modifies this`log
      ensures log == old(log) + [Cmd.StrokeRect(x, y, w, h, strokeStyle, lineWidth)]
    {
      log := log + [Cmd.StrokeRect(x, y, w, h, strokeStyle, lineWidth)];
    }

    method FillText(text: string, x: real, y: real)
      modifies this`log
      ensures log == old(log) + [Cmd.FillText(text, x, y, fillStyle, font)]
    {
      log := log + [Cmd.FillText(text, x, y, fillStyle, font)];
    }

    method BeginPath()
      modifies this`log
      ensures log == old(log) + [Cmd.BeginPath]
    {
      log := log + [Cmd.BeginPath];
    }

    method MoveTo(x: real, y: real)
      modifies this`log
      ensures log == old(log) + [Cmd.MoveTo(x, y)]
    {
      log := log + [Cmd.MoveTo(x, y)];
    }

    method LineTo(x: real, y: real)
      modifies this`log
      ensures log == old(log) + [Cmd.LineTo(x, y)]
    {
      log := log + [Cmd.LineTo(x, y)];
    }

    method Stroke()
      modifies this`log
      ensures log == old(log) + [Cmd.Stroke(strokeStyle, lineWidth)]
    {
      log := log + [Cmd.Stroke(strokeStyle, lineWidth)];
    }

    /** A full circle: `arc(x, y, radius, 0, 2 * Math.PI)`. */
    method Arc(x: real, y: real, radius: real)
      modifies this`log
      ensures log == old(log) + [Cmd.Arc(x, y, radius)]
    {
      log := log + [Cmd.Arc(x, y, radius)];
    }

    method Fill()
      modifies this`log
      ensures log == old(log) + [Cmd.Fill(fillStyle)]
    {
      log := log + [Cmd.Fill(fillStyle)];
    }
  }

  // ---------------------------------------------------------------------
  // Text width cache
  // ---------------------------------------------------------------------

  /** The font every label is drawn in. */
  const LabelFont: string := "16px Arial"

  /**
    A lookup misses when the text has no entry or its entry is 0: the cache
    tests the entry's truthiness, so a width of 0 is measured again.
   */
  predicate Misses(m: map<string, real>, text: string)
  {
    text !in m || m[text] == 0.0
  }

  /** The cache after one lookup of `text`: a miss stores the measured width, a hit changes nothing. */
  function CacheAfter(m: map<string, real>, text: string, measure: string -> real): (m': map<string, real>)
    ensures m'.Keys == m.Keys + {text}
    ensures !Misses(m, text) ==> m' == m
    ensures forall t :: t in m && t != text ==> m'[t] == m[t]
  {
    if Misses(m, text) then m[text := measure(text)] else m
  }

  /** Every cached width is the width the browser reports. */
  ghost predicate CoherentWith(m: map<string, real>, measure: string -> real)
  {
    forall t :: t in m ==> m[t] == measure(t)
  }

  /** A lookup in a coherent cache answers the measured width and keeps the cache coherent. */
  lemma CacheAnswersMeasure(m: map<string, real>, text: string, measure: string -> real)
    requires CoherentWith(m, measure)
    ensures CacheAfter(m, text, measure)[text] == measure(text)
    ensures CoherentWith(CacheAfter(m, text, measure), measure)
  {
  }

  /** A second lookup of the same text gives the same cache: the map stores only what it measured. */
  lemma CacheIdempotent(m: map<string, real>, text: string, measure: string -> real)
    ensures CacheAfter(CacheAfter(m, text, measure), text, measure) == CacheAfter(m, text, measure)
  {
  }

  /** The module-level cache of label widths. */
  class FontCache {
    const font: string := LabelFont
    var measurements: map<string, real>

    constructor ()
      ensures measurements == map[]
    {
      measurements := map[];
    }

    ghost predicate Coherent(measure: string -> real)
      reads this
    {
      CoherentWith(measurements, measure)
    }

    /** The width of `text` in the label font, measured on a miss and cached. */
    method GetMeasuredTextWidth(text: string, ctx: Canvas) returns (width: real)
      modifies this`measurements
      ensures measurements == CacheAfter(old(measurements), text, ctx.measure)
      ensures width == measurements[text]
    {
      if Misses(measurements, text) {
        measurements := measurements[text := ctx.measure(text)];
      }
      width := measurements[text];
    }
  }

  // ---------------------------------------------------------------------
  // Labels
  // ---------------------------------------------------------------------

  const TextHeight: real := 16.0

  /** Where a label for a box whose top edge is at y goes: the text baseline and the top of its background. */
  datatype Placement = Placement(textY: real, rectY: real)

  /**
    The label's background is TextHeight + 4 high. It sits right on top of
    the box when that keeps it inside the canvas, and just below the box's
    top edge otherwise; the text baseline is always inside the background.
   */
  function LabelPlacement(y: real): (p: Placement)
    ensures p.rectY < p.textY <= p.rectY + TextHeight + 4.0
    ensures p.rectY + TextHeight + 4.0 == y <==> y - TextHeight - 4.0 >= 0.0
    ensures p.rectY + TextHeight + 4.0 <= y || p.rectY > y
    ensures y >= -1.0 ==> p.rectY >= 0.0
  {
    var textY := y - 5.0;
    var rectY := y - TextHeight - 4.0;
    if rectY < 0.0 then Placement(y + TextHeight + 5.0, y + 1.0) else Placement(textY, rectY)
  }

  /** What one label draws: the background in the current fill style, then the text in white. */
  function LabelCommands(text: string, x: real, y: real, textWidth: real, style: Style): (cmds: seq<Cmd>)
  {
    var p := LabelPlacement(y);
    [FillRect(x - 1.0, p.rectY, textWidth + 4.0, TextHeight + 4.0, style), FillText(text, x, p.textY, White, LabelFont)]
  }

  /**
    Draws `text` with its top-left near (x, y) on a background rectangle in
    the current fill style, and restores the fill style afterwards.
   */
  method DrawTextWithBackground(ctx: Canvas, cache: FontCache, text: string, x: real, y: real)
    requires cache.Coherent(ctx.measure)
    modifies ctx`fillStyle, ctx`font, ctx`log, cache`measurements
    ensures cache.Coherent(ctx.measure)
    ensures cache.measurements == CacheAfter(old(cache.measurements), text, ctx.measure)
    ensures ctx.fillStyle == old(ctx.fillStyle) && ctx.font == LabelFont
    ensures ctx.log == old(ctx.log) + LabelCommands(text, x, y, ctx.measure(text), old(ctx.fillStyle))
  {
    ctx.font := cache.font;
    CacheAnswersMeasure(cache.measurements, text, ctx.measure);
    var textWidth := cache.GetMeasuredTextWidth(text, ctx);

    var textY := y - 5.0;
    var rectY := y - TextHeight - 4.0;
    if rectY < 0.0 {
      textY := y + TextHeight + 5.0;
      rectY := y + 1.0;
    }

    var currentFillStyle := ctx.fillStyle;
    ctx.FillRect(x - 1.0, rectY, textWidth + 4.0, TextHeight + 4.0);
    ctx.fillStyle := White;
    ctx.FillText(text, x, textY);
    ctx.fillStyle := currentFillStyle;
  }

  // ---------------------------------------------------------------------
  // Grouping by class
  // ---------------------------------------------------------------------

  /** The grouping key of a prediction: a detection's class_idx; a pose has none. */
  function KeyOf(p: Prediction): ClassKey
  {
    match p
    case Detected(d) => ClassIdx(d.classIdx)
    case Posed(_) => Undefined
  }

  /** The keys of the grouping object in insertion order: each key when its first prediction is seen. */
  function FirstSeen(preds: seq<Prediction>): seq<ClassKey>
  {
    if preds == [] then []
    else
      var keys := FirstSeen(preds[..|preds| - 1]);
      var k := KeyOf(preds[|preds| - 1]);
      if k in keys then keys else keys + [k]
  }

  /** The predictions of key k, in their original order. */
  function Members(preds: seq<Prediction>, k: ClassKey): seq<Prediction>
  {
    if preds == [] then []
    else Members(preds[..|preds| - 1], k) + (if KeyOf(preds[|preds| - 1]) == k then [preds[|preds| - 1]] else [])
  }

  predicate Distinct<T(==)>(s: seq<T>)
  {
    forall a, b :: 0 <= a < b < |s| ==> s[a] != s[b]
  }

  /**
    The grouping loop: each prediction is appended to the list of its class,
    which is created the first time the class is seen. `order` is the
    grouping object's key insertion order.
   */
  method GroupByClass(preds: seq<Prediction>) returns (order: seq<ClassKey>, groups: map<ClassKey, seq<Prediction>>)
    ensures order == FirstSeen(preds)
    ensures forall k :: k in groups <==> k in order
    ensures forall k :: k in groups ==> groups[k] == Members(preds, k)
  {
    order := [];
    groups := map[];
    for i := 0 to |preds|
      invariant order == FirstSeen(preds[..i])
      invariant forall k :: k in groups <==> k in order
      invariant forall k :: k in groups ==> groups[k] == Members(preds[..i], k)
      invariant forall k :: k !in groups ==> Members(preds[..i], k) == []
    {
      GroupStep(preds, i);
      var k := KeyOf(preds[i]);
      if k !in groups {
        groups := groups[k := []];
        order := order + [k];
      }
      groups := groups[k := groups[k] + [preds[i]]];
    }
    assert preds[..|preds|] == preds;
  }

  lemma GroupStep(preds: seq<Prediction>, i: nat)
    requires i < |preds|
    ensures var k := KeyOf(preds[i]);
            var keys := FirstSeen(preds[..i]);
            FirstSeen(preds[..i + 1]) == if k in keys then keys else keys + [k]
    ensures forall k :: Members(preds[..i + 1], k)
                     == Members(preds[..i], k) + (if KeyOf(preds[i]) == k then [preds[i]] else [])
  {
    assert preds[..i + 1][..i] == preds[..i];
  }

  /** Each key is inserted once, and a key is present exactly when it has a prediction. */
  lemma {:induction false} FirstSeenKeys(preds: seq<Prediction>)
    ensures Distinct(FirstSeen(preds))
    ensures forall k :: k in FirstSeen(preds) <==> Members(preds, k) != []
  {
    if preds != [] {
      FirstSeenKeys(preds[..|preds| - 1]);
    }
  }

  /** A group holds exactly the predictions of its key, each as often as in the input. */
  lemma {:induction false} MembersAreTheKeysPredictions(preds: seq<Prediction>, k: ClassKey)
    ensures forall p :: p in multiset(Members(preds, k)) ==> KeyOf(p) == k
    ensures forall p :: KeyOf(p) == k ==> multiset(Members(preds, k))[p] == multiset(preds)[p]
  {
    if preds != [] {
      var init := preds[..|preds| - 1];
      MembersAreTheKeysPredictions(init, k);
      assert preds == init + [preds[|preds| - 1]];
    }
  }

  /** The groups of `keys`, one after the other. */
  function Grouped(preds: seq<Prediction>, keys: seq<ClassKey>): seq<Prediction>
  {
    if keys == [] then [] else Grouped(preds, keys[..|keys| - 1]) + Members(preds, keys[|keys| - 1])
  }

  lemma {:induction false} GroupedStep(preds: seq<Prediction>, p: Prediction, keys: seq<ClassKey>)
    requires Distinct(keys)
    ensures multiset(Grouped(preds + [p], keys))
         == multiset(Grouped(preds, keys)) + (if KeyOf(p) in keys then multiset{p} else multiset{})
  {
    if keys != [] {
      var init := keys[..|keys| - 1];
      var last := keys[|keys| - 1];
      DistinctPrefix(keys);
      GroupedStep(preds, p, init);
      MembersAppend(preds, p, last);
      assert Grouped(preds + [p], keys) == Grouped(preds + [p], init) + Members(preds + [p], last);
      assert Grouped(preds, keys) == Grouped(preds, init) + Members(preds, last);
      assert KeyOf(p) in keys <==> KeyOf(p) in init || KeyOf(p) == last;
      ConcatGrowsBy(Grouped(preds + [p], init), Grouped(preds, init), Members(preds + [p], last), Members(preds, last),
                    p, KeyOf(p) in init, KeyOf(p) == last);
    }
  }

  lemma DistinctPrefix<T>(s: seq<T>)
    requires s != [] && Distinct(s)
    ensures Distinct(s[..|s| - 1]) && s[|s| - 1] !in s[..|s| - 1]
  {
    var init := s[..|s| - 1];
    forall a | 0 <= a < |init|
      ensures init[a] != s[|s| - 1]
    {
      assert init[a] == s[a];
    }
  }

  /** Two parts that each grew by at most one copy of p, never both, grow together by that copy. */
  lemma ConcatGrowsBy<T>(a': seq<T>, a: seq<T>, b': seq<T>, b: seq<T>, p: T, inA: bool, inB: bool)
    requires multiset(a') == multiset(a) + (if inA then multiset{p} else multiset{})
    requires multiset(b') == multiset(b) + (if inB then multiset{p} else multiset{})
    requires !(inA && inB)
    ensures multiset(a' + b') == multiset(a + b) + (if inA || inB then multiset{p} else multiset{})
  {
  }

  lemma MembersAppend(preds: seq<Prediction>, p: Prediction, k: ClassKey)
    ensures Members(preds + [p], k) == Members(preds, k) + (if KeyOf(p) == k then [p] else [])
  {
    assert (preds + [p])[..|preds + [p]| - 1] == preds;
  }

  /**
    Drawing the groups one after the other draws every prediction exactly
    once, whatever the order of the (distinct) keys, as long as every
    prediction's key is among them.
   */
  lemma {:induction false} GroupedIsPermutation(preds: seq<Prediction>, keys: seq<ClassKey>)
    requires Distinct(keys)
    requires forall p :: p in preds ==> KeyOf(p) in keys
    ensures multiset(Grouped(preds, keys)) == multiset(preds)
  {
    if preds == [] {
      GroupedOfNothing(keys);
    } else {
      var init := preds[..|preds| - 1];
      var p := preds[|preds| - 1];
      assert preds == init + [p];
      GroupedIsPermutation(init, keys);
      GroupedStep(init, p, keys);
    }
  }

  lemma {:induction false} GroupedOfNothing(keys: seq<ClassKey>)
    ensures Grouped([], keys) == []
  {
    if keys != [] {
      GroupedOfNothing(keys[..|keys| - 1]);
    }
  }

  // ---------------------------------------------------------------------
  // Key order of Object.entries
  // ---------------------------------------------------------------------

  /**
    An array-index property name: the canonical decimal of an integer in
    [0, 2^32 - 2]. Object.entries lists these first, numerically ascending,
    then the other keys ("-1", "undefined", larger integers) in insertion order.
   */
  predicate IsIndexKey(k: ClassKey)
  {
    k.ClassIdx? && 0 <= k.idx < 0xFFFF_FFFF
  }

  predicate Ascending(s: seq<ClassKey>)
  {
    && (forall a :: 0 <= a < |s| ==> IsIndexKey(s[a]))
    && (forall a, b :: 0 <= a < b < |s| ==> s[a].idx < s[b].idx)
  }

  function InsertAscending(k: ClassKey, s: seq<ClassKey>): (r: seq<ClassKey>)
    requires k.ClassIdx? && forall a :: 0 <= a < |s| ==> s[a].ClassIdx?
    ensures |r| == |s| + 1 && forall a :: 0 <= a < |r| ==> r[a].ClassIdx?
  {
    if s == [] || k.idx < s[0].idx then [k] + s
    else [s[0]] + InsertAscending(k, s[1..])
  }

  /** Inserting a key adds exactly that key. */
  lemma {:induction false} InsertAscendingKeeps(k: ClassKey, s: seq<ClassKey>)
    requires k.ClassIdx? && forall a :: 0 <= a < |s| ==> s[a].ClassIdx?
    ensures multiset(InsertAscending(k, s)) == multiset(s) + multiset{k}
  {
    if s != [] && k.idx >= s[0].idx {
      assert s == [s[0]] + s[1..];
      InsertAscendingKeeps(k, s[1..]);
    }
  }

  lemma {:induction false} InsertAscendingSorts(k: ClassKey, s: seq<ClassKey>)
    requires IsIndexKey(k) && Ascending(s) && k !in s
    ensures Ascending(InsertAscending(k, s))
  {
    if s != [] && k.idx >= s[0].idx {
      var tail := s[1..];
      AscendingTail(s);
      InsertAscendingSorts(k, tail);
      var r := InsertAscending(k, tail);
      InsertAscendingKeeps(k, tail);
      forall x | x in r
        ensures s[0].idx < x.idx
      {
        assert x in multiset(r);
        if x != k {
          var j :| 0 <= j < |tail| && tail[j] == x;
          assert s[j + 1] == x;
        } else {
          assert s[0] != k;
        }
      }
      AscendingCons(s[0], r);
    }
  }

  lemma AscendingTail(s: seq<ClassKey>)
    requires s != [] && Ascending(s)
    ensures Ascending(s[1..]) && forall x :: x in s[1..] ==> s[0].idx < x.idx
  {
    var tail := s[1..];
    forall a, b | 0 <= a < b < |tail| ensures tail[a].idx < tail[b].idx {
      assert tail[a] == s[a + 1] && tail[b] == s[b + 1];
    }
  }

  lemma AscendingCons(x: ClassKey, r: seq<ClassKey>)
    requires IsIndexKey(x) && Ascending(r) && forall y :: y in r ==> x.idx < y.idx
    ensures Ascending([x] + r)
  {
    var t := [x] + r;
    forall a, b | 0 <= a < b < |t| ensures t[a].idx < t[b].idx {
      if a == 0 {
        assert t[b] == r[b - 1] && t[b] in r;
      } else {
        assert t[a] == r[a - 1] && t[b] == r[b - 1];
      }
    }
  }

  /** The array-index keys of `keys`, ascending. */
  function IndexKeys(keys: seq<ClassKey>): (r: seq<ClassKey>)
    ensures forall a :: 0 <= a < |r| ==> r[a].ClassIdx?
  {
    if keys == [] then []
    else
      var rest := IndexKeys(keys[..|keys| - 1]);
      var k := keys[|keys| - 1];
      if IsIndexKey(k) && k !in rest then InsertAscending(k, rest) else rest
  }

  /** The other keys of `keys`, in insertion order. */
  function OtherKeys(keys: seq<ClassKey>): seq<ClassKey>
  {
    if keys == [] then []
    else OtherKeys(keys[..|keys| - 1]) + (if IsIndexKey(keys[|keys| - 1]) then [] else [keys[|keys| - 1]])
  }

  /**
    OtherKeys is the order-preserving filter of the non-index keys: it
    distributes over concatenation and keeps a single key exactly when that
    key is not an array index. So the other keys come in insertion order.
   */
  lemma {:induction false} OtherKeysFilterInOrder(a: seq<ClassKey>, b: seq<ClassKey>)
    ensures OtherKeys(a + b) == OtherKeys(a) + OtherKeys(b)
  {
    if b == [] {
      assert a + b == a;
    } else {
      var init := b[..|b| - 1];
      var k := b[|b| - 1];
      var tail := if IsIndexKey(k) then [] else [k];
      OtherKeysFilterInOrder(a, init);
      assert (a + b)[..|a + b| - 1] == a + init;
      assert OtherKeys(a + b) == OtherKeys(a + init) + tail;
      assert OtherKeys(b) == OtherKeys(init) + tail;
      AppendAssoc(OtherKeys(a), OtherKeys(init), tail);
    }
  }

  lemma OtherKeysOfOne(k: ClassKey)
    ensures OtherKeys([k]) == if IsIndexKey(k) then [] else [k]
  {
  }

  lemma DropPrefix<T>(x: seq<T>, y: seq<T>)
    ensures (x + y)[|x|..] == y
  {
  }

  /** The order in which Object.entries visits the grouping object's keys. */
  function EntryOrder(keys: seq<ClassKey>): seq<ClassKey>
  {
    IndexKeys(keys) + OtherKeys(keys)
  }

  /**
    For distinct keys, Object.entries visits every key exactly once, the
    array-index keys first and in ascending numeric order.
   */
  lemma {:induction false} EntryOrderIsPermutation(keys: seq<ClassKey>)
    requires Distinct(keys)
    ensures multiset(EntryOrder(keys)) == multiset(keys)
    ensures Distinct(EntryOrder(keys))
    ensures forall a, b :: 0 <= a < b < |EntryOrder(keys)| && IsIndexKey(EntryOrder(keys)[b]) ==>
              IsIndexKey(EntryOrder(keys)[a]) && EntryOrder(keys)[a].idx < EntryOrder(keys)[b].idx
    ensures EntryOrder(keys)[|IndexKeys(keys)|..] == OtherKeys(keys)
  {
    IndexAndOtherKeys(keys);
    DropPrefix(IndexKeys(keys), OtherKeys(keys));
    var e := EntryOrder(keys);
    var ik := IndexKeys(keys);
    var ok := OtherKeys(keys);
    forall a, b | 0 <= a < b < |e|
      ensures e[a] != e[b]
    {
      if b < |ik| {
      } else if a >= |ik| {
        assert e[a] == ok[a - |ik|] && e[b] == ok[b - |ik|];
      } else {
        assert e[a] in ik && e[b] in ok;
      }
    }
  }

  lemma {:induction false} IndexAndOtherKeys(keys: seq<ClassKey>)
    requires Distinct(keys)
    ensures Ascending(IndexKeys(keys))
    ensures Distinct(OtherKeys(keys))
    ensures forall k :: k in OtherKeys(keys) ==> !IsIndexKey(k)
    ensures multiset(IndexKeys(keys)) + multiset(OtherKeys(keys)) == multiset(keys)
  {
    if keys != [] {
      var init := keys[..|keys| - 1];
      var k := keys[|keys| - 1];
      assert keys == init + [k];
      assert Distinct(init);
      IndexAndOtherKeys(init);
      assert k !in init;
      if IsIndexKey(k) {
        assert multiset(init)[k] == 0;
        assert k !in multiset(IndexKeys(init));
        InsertAscendingSorts(k, IndexKeys(init));
        InsertAscendingKeeps(k, IndexKeys(init));
      } else {
        assert multiset(init)[k] == 0;
        assert k !in multiset(OtherKeys(init));
      }
    }
  }

  // ---------------------------------------------------------------------
  // Boxes and labels
  // ---------------------------------------------------------------------

  /** `fillRect` of every item's box, in the given fill style. */
  function BoxFills(items: seq<Prediction>, style: Style): seq<Cmd>
  {
    if items == [] then []
    else
      var b := items[|items| - 1].Bbox();
      BoxFills(items[..|items| - 1], style) + [FillRect(b.x, b.y, b.w, b.h, style)]
  }

  /** `strokeRect` of every item's box, in the given stroke style and line width. */
  function BoxStrokes(items: seq<Prediction>, style: Style, lineWidth: real): seq<Cmd>
  {
    if items == [] then []
    else
      var b := items[|items| - 1].Bbox();
      BoxStrokes(items[..|items| - 1], style, lineWidth) + [StrokeRect(b.x, b.y, b.w, b.h, style, lineWidth)]
  }

  /** A label at the top-left corner of every item's box, on a background in the given fill style. */
  function LabelsFor(items: seq<Prediction>, text: Prediction -> string, style: Style, measure: string -> real): seq<Cmd>
  {
    if items == [] then []
    else
      var p := items[|items| - 1];
      LabelsFor(items[..|items| - 1], text, style, measure)
        + LabelCommands(text(p), p.Bbox().x, p.Bbox().y, measure(text(p)), style)
  }

  /** The label texts of the items. */
  function Texts(items: seq<Prediction>, text: Prediction -> string): set<string>
  {
    set p | p in items :: text(p)
  }

  lemma TextsStep(items: seq<Prediction>, i: nat, text: Prediction -> string)
    requires i < |items|
    ensures Texts(items[..i + 1], text) == Texts(items[..i], text) + {text(items[i])}
  {
    assert items[..i + 1] == items[..i] + [items[i]];
  }

  method FillBoxes(ctx: Canvas, items: seq<Prediction>)
    modifies ctx`log
    ensures ctx.log == old(ctx.log) + BoxFills(items, ctx.fillStyle)
  {
    for i := 0 to |items|
      invariant ctx.log == old(ctx.log) + BoxFills(items[..i], ctx.fillStyle)
    {
      assert items[..i + 1][..i] == items[..i];
      var b := items[i].Bbox();
      ctx.FillRect(b.x, b.y, b.w, b.h);
    }
    assert items[..|items|] == items;
  }

  method StrokeBoxes(ctx: Canvas, items: seq<Prediction>)
    modifies ctx`log
    ensures ctx.log == old(ctx.log) + BoxStrokes(items, ctx.strokeStyle, ctx.lineWidth)
  {
    for i := 0 to |items|
      invariant ctx.log == old(ctx.log) + BoxStrokes(items[..i], ctx.strokeStyle, ctx.lineWidth)
    {
      assert items[..i + 1][..i] == items[..i];
      var b := items[i].Bbox();
      ctx.StrokeRect(b.x, b.y, b.w, b.h);
    }
    assert items[..|items|] == items;
  }

  lemma LabelsStep(items: seq<Prediction>, i: nat, text: Prediction -> string, style: Style, measure: string -> real)
    requires i < |items|
    ensures var p := items[i];
            LabelsFor(items[..i + 1], text, style, measure)
              == LabelsFor(items[..i], text, style, measure)
                 + LabelCommands(text(p), p.Bbox().x, p.Bbox().y, measure(text(p)), style)
  {
    assert items[..i + 1][..i] == items[..i];
  }

  /** Labels every item at its box's top-left corner; the fill style is kept and the cache learns the texts. */
  method DrawLabels(ctx: Canvas, cache: FontCache, items: seq<Prediction>, text: Prediction -> string)
    requires cache.Coherent(ctx.measure)
    modifies ctx`fillStyle, ctx`font, ctx`log, cache`measurements
    ensures cache.Coherent(ctx.measure)
    ensures cache.measurements.Keys == old(cache.measurements.Keys) + Texts(items, text)
    ensures ctx.fillStyle == old(ctx.fillStyle)
    ensures ctx.font == if items == [] then old(ctx.font) else LabelFont
    ensures ctx.log == old(ctx.log) + LabelsFor(items, text, old(ctx.fillStyle), ctx.measure)
  {
    for i := 0 to |items|
      invariant cache.Coherent(ctx.measure)
      invariant cache.measurements.Keys == old(cache.measurements.Keys) + Texts(items[..i], text)
      invariant ctx.fillStyle == old(ctx.fillStyle)
      invariant ctx.font == if i == 0 then old(ctx.font) else LabelFont
      invariant ctx.log == old(ctx.log) + LabelsFor(items[..i], text, old(ctx.fillStyle), ctx.measure)
    {
      TextsStep(items, i, text);
      LabelsStep(items, i, text, old(ctx.fillStyle), ctx.measure);
      var p := items[i];
      ghost var keys := cache.measurements.Keys;
      ghost var before := LabelsFor(items[..i], text, old(ctx.fillStyle), ctx.measure);
      ghost var drawn := LabelCommands(text(p), p.Bbox().x, p.Bbox().y, ctx.measure(text(p)), old(ctx.fillStyle));
      DrawTextWithBackground(ctx, cache, text(p), p.Bbox().x, p.Bbox().y);
      assert cache.measurements.Keys == keys + {text(p)};
      AppendAssoc(old(ctx.log), before, drawn);
    }
    assert items[..|items|] == items;
  }

  // ---------------------------------------------------------------------
  // Object detection
  // ---------------------------------------------------------------------

  /** How the label texts are built: "<class name> <score>" for detection, "score <score>" for pose. */
  datatype LabelText = LabelText(classText: (ClassKey, real) -> string, scoreText: real -> string)

  function DetectText(labels: LabelText): Prediction -> string
  {
    (p: Prediction) => labels.classText(KeyOf(p), p.Score())
  }

  function PoseText(labels: LabelText): Prediction -> string
  {
    (p: Prediction) => labels.scoreText(p.Score())
  }

  /** What one class group draws: its translucent fills, then its outlines, then its labels. */
  function GroupCommands(key: ClassKey, items: seq<Prediction>, lineWidth: real, text: Prediction -> string,
                         measure: string -> real): seq<Cmd>
  {
    BoxFills(items, ClassFill(key))
      + BoxStrokes(items, ClassBorder(key), lineWidth)
      + LabelsFor(items, text, ClassBorder(key), measure)
  }

  /** What the object-detection drawing draws for the groups of `entries`, in that order. */
  function DetectionCommands(preds: seq<Prediction>, entries: seq<ClassKey>, lineWidth: real,
                             text: Prediction -> string, measure: string -> real): seq<Cmd>
  {
    if entries == [] then []
    else
      var k := entries[|entries| - 1];
      DetectionCommands(preds, entries[..|entries| - 1], lineWidth, text, measure)
        + GroupCommands(k, Members(preds, k), lineWidth, text, measure)
  }

  /** The body of the loop over the groups: fills, outlines and labels of one class. */
  method DrawClassGroup(ctx: Canvas, cache: FontCache, key: ClassKey, items: seq<Prediction>, lineWidth: real,
                        text: Prediction -> string)
    requires cache.Coherent(ctx.measure)
    modifies ctx`fillStyle, ctx`strokeStyle, ctx`lineWidth, ctx`font, ctx`log, cache`measurements
    ensures cache.Coherent(ctx.measure)
    ensures cache.measurements.Keys == old(cache.measurements.Keys) + Texts(items, text)
    ensures ctx.CurrentPen() == Pen(ClassBorder(key), ClassBorder(key), lineWidth, LabelFont)
    ensures ctx.log == old(ctx.log) + GroupCommands(key, items, lineWidth, text, ctx.measure)
  {
    ghost var log0 := ctx.log;
    ghost var fills := BoxFills(items, ClassFill(key));
    ghost var strokes := BoxStrokes(items, ClassBorder(key), lineWidth);
    ghost var labelCmds := LabelsFor(items, text, ClassBorder(key), ctx.measure);

    ctx.fillStyle := ClassFill(key);
    FillBoxes(ctx, items);

    ctx.lineWidth := lineWidth;
    ctx.strokeStyle := ClassBorder(key);
    StrokeBoxes(ctx, items);
    assert ctx.log == log0 + fills + strokes;

    ctx.fillStyle := ClassBorder(key);
    ctx.font := LabelFont;
    DrawLabels(ctx, cache, items, text);
    assert ctx.log == log0 + fills + strokes + labelCmds;
    AppendAssoc3(log0, fills, strokes, labelCmds);
  }

  lemma AppendAssoc3<T>(a: seq<T>, b: seq<T>, c: seq<T>, d: seq<T>)
    ensures a + b + c + d == a + (b + c + d)
  {
  }

  /**
    Groups the predictions by class and draws each group in the order
    Object.entries visits the grouping object's keys.
   */
  method DrawObjectDetection(ctx: Canvas, cache: FontCache, preds: seq<Prediction>, lineWidth: real, labels: LabelText)
    requires cache.Coherent(ctx.measure)
    modifies ctx`fillStyle, ctx`strokeStyle, ctx`lineWidth, ctx`font, ctx`log, cache`measurements
    ensures cache.Coherent(ctx.measure)
    ensures ctx.log == old(ctx.log) + DetectionCommands(preds, EntryOrder(FirstSeen(preds)), lineWidth, DetectText(labels), ctx.measure)
    ensures cache.measurements.Keys == old(cache.measurements.Keys) + Texts(preds, DetectText(labels))
    ensures var entries := EntryOrder(FirstSeen(preds));
            ctx.CurrentPen() == if entries == [] then old(ctx.CurrentPen())
                                else Pen(ClassBorder(entries[|entries| - 1]), ClassBorder(entries[|entries| - 1]), lineWidth, LabelFont)
  {
    var order, groups := GroupByClass(preds);
    var entries := EntryOrder(order);
    FirstSeenKeys(preds);
    EntryOrderIsPermutation(order);
    forall k | k in entries
      ensures k in groups && groups[k] == Members(preds, k)
    {
      assert k in multiset(entries);
    }
    DrawGroups(ctx, cache, preds, entries, groups, lineWidth, DetectText(labels));
    GroupedCoversAll(preds);
    TextsOfPermutation(Grouped(preds, entries), preds, DetectText(labels));
  }

  /** `Object.entries(predictionsByClass).forEach(...)`: draws the groups of `entries`, in that order. */
  method DrawGroups(ctx: Canvas, cache: FontCache, preds: seq<Prediction>, entries: seq<ClassKey>,
                    groups: map<ClassKey, seq<Prediction>>, lineWidth: real, text: Prediction -> string)
    requires cache.Coherent(ctx.measure)
    requires forall k :: k in entries ==> k in groups && groups[k] == Members(preds, k)
    modifies ctx`fillStyle, ctx`strokeStyle, ctx`lineWidth, ctx`font, ctx`log, cache`measurements
    ensures cache.Coherent(ctx.measure)
    ensures ctx.log == old(ctx.log) + DetectionCommands(preds, entries, lineWidth, text, ctx.measure)
    ensures cache.measurements.Keys == old(cache.measurements.Keys) + Texts(Grouped(preds, entries), text)
    ensures ctx.CurrentPen() == if entries == [] then old(ctx.CurrentPen())
                                else Pen(ClassBorder(entries[|entries| - 1]), ClassBorder(entries[|entries| - 1]), lineWidth, LabelFont)
  {
    for e := 0 to |entries|
      invariant cache.Coherent(ctx.measure)
      invariant ctx.log == old(ctx.log) + DetectionCommands(preds, entries[..e], lineWidth, text, ctx.measure)
      invariant cache.measurements.Keys == old(cache.measurements.Keys) + Texts(Grouped(preds, entries[..e]), text)
      invariant ctx.CurrentPen() == if e == 0 then old(ctx.CurrentPen())
                                    else Pen(ClassBorder(entries[e - 1]), ClassBorder(entries[e - 1]), lineWidth, LabelFont)
    {
      var key := entries[e];
      DetectionStep(preds, entries, e, lineWidth, text, ctx.measure);
      ghost var done := DetectionCommands(preds, entries[..e], lineWidth, text, ctx.measure);
      ghost var group := GroupCommands(key, Members(preds, key), lineWidth, text, ctx.measure);
      DrawClassGroup(ctx, cache, key, groups[key], lineWidth, text);
      AppendAssoc(old(ctx.log), done, group);
    }
    assert entries[..|entries|] == entries;
  }

  lemma AppendAssoc<T>(a: seq<T>, b: seq<T>, c: seq<T>)
    ensures a + b + c == a + (b + c)
  {
  }

  lemma DetectionStep(preds: seq<Prediction>, entries: seq<ClassKey>, e: nat, lineWidth: real,
                      text: Prediction -> string, measure: string -> real)
    requires e < |entries|
    ensures DetectionCommands(preds, entries[..e + 1], lineWidth, text, measure)
         == DetectionCommands(preds, entries[..e], lineWidth, text, measure)
            + GroupCommands(entries[e], Members(preds, entries[e]), lineWidth, text, measure)
    ensures Texts(Grouped(preds, entries[..e + 1]), text)
         == Texts(Grouped(preds, entries[..e]), text) + Texts(Members(preds, entries[e]), text)
  {
    assert entries[..e + 1][..e] == entries[..e];
    TextsConcat(Grouped(preds, entries[..e]), Members(preds, entries[e]), text);
  }

  lemma TextsConcat(a: seq<Prediction>, b: seq<Prediction>, text: Prediction -> string)
    ensures Texts(a + b, text) == Texts(a, text) + Texts(b, text)
  {
    assert forall p :: p in a + b <==> p in a || p in b;
  }

  lemma TextsOfPermutation(a: seq<Prediction>, b: seq<Prediction>, text: Prediction -> string)
    requires multiset(a) == multiset(b)
    ensures Texts(a, text) == Texts(b, text)
  {
    assert forall p :: p in a <==> p in multiset(a);
    assert forall p :: p in b <==> p in multiset(b);
  }

  /** The groups in entry order hold every prediction exactly once. */
  lemma GroupedCoversAll(preds: seq<Prediction>)
    ensures multiset(Grouped(preds, EntryOrder(FirstSeen(preds)))) == multiset(preds)
  {
    var keys := FirstSeen(preds);
    FirstSeenKeys(preds);
    EntryOrderIsPermutation(keys);
    var entries := EntryOrder(keys);
    forall p | p in preds
      ensures KeyOf(p) in entries
    {
      MembersAreTheKeysPredictions(preds, KeyOf(p));
      assert p in multiset(Members(preds, KeyOf(p)));
      assert KeyOf(p) in multiset(entries);
    }
    GroupedIsPermutation(preds, entries);
  }

  /** The outline the detection drawing gives a prediction: its box, in its class's border colour. */
  function Outline(p: Prediction, lineWidth: real): Cmd
  {
    var b := p.Bbox();
    StrokeRect(b.x, b.y, b.w, b.h, ClassBorder(KeyOf(p)), lineWidth)
  }

  function Outlines(preds: seq<Prediction>, lineWidth: real): (cmds: seq<Cmd>)
    ensures |cmds| == |preds|
  {
    seq(|preds|, i requires 0 <= i < |preds| => Outline(preds[i], lineWidth))
  }

  /** The outlines a command list draws. */
  function StrokesOf(cmds: seq<Cmd>): seq<Cmd>
  {
    if cmds == [] then []
    else StrokesOf(cmds[..|cmds| - 1]) + (if cmds[|cmds| - 1].StrokeRect? then [cmds[|cmds| - 1]] else [])
  }

  lemma {:induction false} StrokesOfConcat(a: seq<Cmd>, b: seq<Cmd>)
    ensures StrokesOf(a + b) == StrokesOf(a) + StrokesOf(b)
  {
    if b == [] {
      assert a + b == a;
    } else {
      var init := b[..|b| - 1];
      StrokesOfConcat(a, init);
      assert (a + b)[..|a + b| - 1] == a + init;
    }
  }

  lemma {:induction false} FillsDrawNoOutline(items: seq<Prediction>, style: Style)
    ensures StrokesOf(BoxFills(items, style)) == []
  {
    if items != [] {
      var b := items[|items| - 1].Bbox();
      FillsDrawNoOutline(items[..|items| - 1], style);
      StrokesOfConcat(BoxFills(items[..|items| - 1], style), [FillRect(b.x, b.y, b.w, b.h, style)]);
    }
  }

  lemma {:induction false} LabelsDrawNoOutline(items: seq<Prediction>, text: Prediction -> string, style: Style, measure: string -> real)
    ensures StrokesOf(LabelsFor(items, text, style, measure)) == []
  {
    if items != [] {
      var p := items[|items| - 1];
      var labelCmds := LabelCommands(text(p), p.Bbox().x, p.Bbox().y, measure(text(p)), style);
      LabelsDrawNoOutline(items[..|items| - 1], text, style, measure);
      StrokesOfConcat(LabelsFor(items[..|items| - 1], text, style, measure), labelCmds);
      assert StrokesOf(labelCmds) == StrokesOf(labelCmds[..1]);
      assert StrokesOf(labelCmds[..1]) == StrokesOf(labelCmds[..1][..0]);
      assert labelCmds[..1][..0] == [];
    }
  }

  /** The outlines of a group whose items all have key k are their outlines in k's border colour. */
  lemma {:induction false} StrokesAreOutlines(k: ClassKey, items: seq<Prediction>, lineWidth: real)
    requires forall p :: p in items ==> KeyOf(p) == k
    ensures StrokesOf(BoxStrokes(items, ClassBorder(k), lineWidth)) == Outlines(items, lineWidth)
  {
    if items != [] {
      var init := items[..|items| - 1];
      var p := items[|items| - 1];
      assert forall q :: q in init ==> q in items;
      StrokesAreOutlines(k, init, lineWidth);
      StrokesOfConcat(BoxStrokes(init, ClassBorder(k), lineWidth), [Outline(p, lineWidth)]);
      assert StrokesOf([Outline(p, lineWidth)]) == [Outline(p, lineWidth)] by {
        assert [Outline(p, lineWidth)][..0] == [];
      }
      assert Outlines(items, lineWidth) == Outlines(init, lineWidth) + [Outline(p, lineWidth)];
    }
  }

  lemma {:induction false} MembersOfKey(preds: seq<Prediction>, k: ClassKey)
    ensures forall p :: p in Members(preds, k) ==> KeyOf(p) == k
  {
    if preds != [] {
      MembersOfKey(preds[..|preds| - 1], k);
    }
  }

  /** The outlines of the groups of `entries` are those of their predictions, group after group. */
  lemma {:induction false} DetectionStrokes(preds: seq<Prediction>, entries: seq<ClassKey>, lineWidth: real,
                                            text: Prediction -> string, measure: string -> real)
    ensures StrokesOf(DetectionCommands(preds, entries, lineWidth, text, measure)) == Outlines(Grouped(preds, entries), lineWidth)
  {
    if entries != [] {
      var init := entries[..|entries| - 1];
      var k := entries[|entries| - 1];
      var done := DetectionCommands(preds, init, lineWidth, text, measure);
      var group := GroupCommands(k, Members(preds, k), lineWidth, text, measure);
      DetectionStrokes(preds, init, lineWidth, text, measure);
      GroupStrokes(preds, k, lineWidth, text, measure);
      StrokesOfConcat(done, group);
      OutlinesConcat(Grouped(preds, init), Members(preds, k), lineWidth);
    }
  }

  /** Drawing one class group outlines exactly its members, in order. */
  lemma GroupStrokes(preds: seq<Prediction>, k: ClassKey, lineWidth: real, text: Prediction -> string, measure: string -> real)
    ensures StrokesOf(GroupCommands(k, Members(preds, k), lineWidth, text, measure)) == Outlines(Members(preds, k), lineWidth)
  {
    var items := Members(preds, k);
    MembersOfKey(preds, k);
    FillsDrawNoOutline(items, ClassFill(k));
    StrokesAreOutlines(k, items, lineWidth);
    LabelsDrawNoOutline(items, text, ClassBorder(k), measure);
    var fills := BoxFills(items, ClassFill(k));
    var strokes := BoxStrokes(items, ClassBorder(k), lineWidth);
    StrokesOfConcat(fills, strokes);
    StrokesOfConcat(fills + strokes, LabelsFor(items, text, ClassBorder(k), measure));
  }

  lemma OutlinesConcat(a: seq<Prediction>, b: seq<Prediction>, lineWidth: real)
    ensures Outlines(a + b, lineWidth) == Outlines(a, lineWidth) + Outlines(b, lineWidth)
  {
  }

  lemma MultisetCancel<T>(m1: multiset<T>, m2: multiset<T>, x: T)
    requires m1 + multiset{x} == m2 + multiset{x}
    ensures m1 == m2
  {
    forall y
      ensures m1[y] == m2[y]
    {
      assert (m1 + multiset{x})[y] == (m2 + multiset{x})[y];
    }
  }

  /** Reordering the predictions reorders their outlines in the same way. */
  lemma {:induction false} OutlinesPermutation(a: seq<Prediction>, b: seq<Prediction>, lineWidth: real)
    requires multiset(a) == multiset(b)
    ensures multiset(Outlines(a, lineWidth)) == multiset(Outlines(b, lineWidth))
    decreases |a|
  {
    if a == [] {
      assert |multiset(b)| == 0;
    } else {
      var init := a[..|a| - 1];
      var j := MatchLast(a, b);
      OutlinesPermutation(init, b[..j] + b[j + 1..], lineWidth);
      assert a == init + [a[|a| - 1]];
      OutlinesConcat(init, [a[|a| - 1]], lineWidth);
      OutlinesRemoveOne(b, j, lineWidth);
    }
  }

  /** Where a permutation of a non-empty sequence holds its last element, and what the rest is a permutation of. */
  lemma MatchLast<T>(a: seq<T>, b: seq<T>) returns (j: nat)
    requires a != [] && multiset(a) == multiset(b)
    ensures j < |b| && b[j] == a[|a| - 1]
    ensures multiset(a[..|a| - 1]) == multiset(b[..j] + b[j + 1..])
  {
    var x := a[|a| - 1];
    var init := a[..|a| - 1];
    assert a == init + [x];
    assert x in multiset(b);
    j :| 0 <= j < |b| && b[j] == x;
    RemoveOne(b, j);
    assert multiset(a) == multiset(init) + multiset{x};
    MultisetCancel(multiset(b[..j] + b[j + 1..]), multiset(init), x);
  }

  lemma OutlinesRemoveOne(b: seq<Prediction>, j: nat, lineWidth: real)
    requires j < |b|
    ensures multiset(Outlines(b, lineWidth)) == multiset(Outlines(b[..j] + b[j + 1..], lineWidth)) + multiset{Outline(b[j], lineWidth)}
  {
    var front, back := b[..j], b[j + 1..];
    assert b == front + [b[j]] + back;
    OutlinesConcat(front, [b[j]], lineWidth);
    OutlinesConcat(front + [b[j]], back, lineWidth);
    OutlinesConcat(front, back, lineWidth);
  }

  /** Removing one element from a sequence removes one occurrence of it from the sequence's multiset. */
  lemma RemoveOne<T>(b: seq<T>, j: nat)
    requires j < |b|
    ensures multiset(b[..j] + b[j + 1..]) + multiset{b[j]} == multiset(b)
  {
    assert b == b[..j] + [b[j]] + b[j + 1..];
  }

  /**
    The object-detection drawing outlines every prediction exactly once, in
    its own class's border colour: grouping changes only the order.
   */
  lemma OutlinesEveryPredictionOnce(preds: seq<Prediction>, lineWidth: real, text: Prediction -> string, measure: string -> real)
    ensures multiset(StrokesOf(DetectionCommands(preds, EntryOrder(FirstSeen(preds)), lineWidth, text, measure)))
         == multiset(Outlines(preds, lineWidth))
  {
    var entries := EntryOrder(FirstSeen(preds));
    GroupedCoversAll(preds);
    DetectionStrokes(preds, entries, lineWidth, text, measure);
    OutlinesPermutation(Grouped(preds, entries), preds, lineWidth);
  }

  // ---------------------------------------------------------------------
  // Pose estimation
  // ---------------------------------------------------------------------

  /** The limbs drawn between keypoints: legs, hips, body, shoulders, arms, face, ears to shoulders. */
  const Skeleton: seq<(nat, nat)> := [
    (15, 13), (13, 11), (16, 14), (14, 12),
    (11, 12),
    (5, 11), (6, 12),
    (5, 6),
    (5, 7), (6, 8), (7, 9), (8, 10),
    (1, 2), (0, 1), (0, 2), (1, 3), (2, 4),
    (3, 5), (4, 6)
  ]

  /** A prediction's keypoints; a detection has none. */
  function KeypointsOf(p: Prediction): Option<seq<Keypoint>>
  {
    match p
    case Detected(_) => None
    case Posed(pose) => Some(pose.keypoints)
  }

  /** A limb is drawn when both its keypoints exist and both score strictly above 0.5. */
  predicate Linked(kps: seq<Keypoint>, i: nat, j: nat)
  {
    i < |kps| && j < |kps| && kps[i].score > 0.5 && kps[j].score > 0.5
  }

  /** A keypoint gets a dot when its score is at least 0.5. */
  predicate Confident(k: Keypoint)
  {
    k.score >= 0.5
  }

  /** The path segment from keypoint i to keypoint j: a move to the first, a line to the second. */
  function Segment(kps: seq<Keypoint>, i: nat, j: nat): seq<Cmd>
    requires i < |kps| && j < |kps|
  {
    [MoveTo(kps[i].x, kps[i].y), LineTo(kps[j].x, kps[j].y)]
  }

  function LimbCommands(kps: seq<Keypoint>, i: nat, j: nat): seq<Cmd>
  {
    if Linked(kps, i, j) then Segment(kps, i, j) else []
  }

  /** The path segments of the given limbs of one skeleton, in order. */
  function LimbsCommands(kps: seq<Keypoint>, pairs: seq<(nat, nat)>): seq<Cmd>
  {
    if pairs == [] then []
    else LimbsCommands(kps, pairs[..|pairs| - 1]) + LimbCommands(kps, pairs[|pairs| - 1].0, pairs[|pairs| - 1].1)
  }

  /** The path segments of every prediction that has keypoints. */
  function SkeletonsOf(preds: seq<Prediction>): seq<Cmd>
  {
    if preds == [] then []
    else
      var kps := KeypointsOf(preds[|preds| - 1]);
      SkeletonsOf(preds[..|preds| - 1]) + (if kps.None? then [] else LimbsCommands(kps.value, Skeleton))
  }

  function DotCommands(k: Keypoint, style: Style): seq<Cmd>
  {
    if Confident(k) then [BeginPath, Arc(k.x, k.y, 3.0), Fill(style)] else []
  }

  /** The dots of one prediction's keypoints, each its own path filled in the given style. */
  function Dots(kps: seq<Keypoint>, style: Style): seq<Cmd>
  {
    if kps == [] then [] else Dots(kps[..|kps| - 1], style) + DotCommands(kps[|kps| - 1], style)
  }

  function DotsOf(preds: seq<Prediction>, style: Style): seq<Cmd>
  {
    if preds == [] then []
    else
      var kps := KeypointsOf(preds[|preds| - 1]);
      DotsOf(preds[..|preds| - 1], style) + (if kps.None? then [] else Dots(kps.value, style))
  }

  /**
    What the pose drawing draws: green outlines, then green score labels,
    then one orange path of all limbs, then a red dot per confident keypoint.
   */
  function PoseCommands(preds: seq<Prediction>, lineWidth: real, text: Prediction -> string, measure: string -> real): seq<Cmd>
  {
    BoxStrokes(preds, Green, lineWidth)
      + LabelsFor(preds, text, Green, measure)
      + [BeginPath]
      + SkeletonsOf(preds)
      + [Stroke(Orange, 2.0)]
      + DotsOf(preds, Red)
  }

  lemma LimbsStep(kps: seq<Keypoint>, pairs: seq<(nat, nat)>, s: nat)
    requires s < |pairs|
    ensures LimbsCommands(kps, pairs[..s + 1]) == LimbsCommands(kps, pairs[..s]) + LimbCommands(kps, pairs[s].0, pairs[s].1)
  {
    assert pairs[..s + 1][..s] == pairs[..s];
  }

  method DrawSkeleton(ctx: Canvas, kps: seq<Keypoint>)
    modifies ctx`log
    ensures ctx.log == old(ctx.log) + LimbsCommands(kps, Skeleton)
  {
    for s := 0 to |Skeleton|
      invariant ctx.log == old(ctx.log) + LimbsCommands(kps, Skeleton[..s])
    {
      LimbsStep(kps, Skeleton, s);
      var (i, j) := Skeleton[s];
      if i < |kps| && j < |kps| {
        var kp1 := kps[i];
        var kp2 := kps[j];
        if kp1.score > 0.5 && kp2.score > 0.5 {
          ctx.MoveTo(kp1.x, kp1.y);
          ctx.LineTo(kp2.x, kp2.y);
          AppendAssoc(old(ctx.log), LimbsCommands(kps, Skeleton[..s]), [MoveTo(kp1.x, kp1.y), LineTo(kp2.x, kp2.y)]);
        }
      }
    }
    assert Skeleton[..|Skeleton|] == Skeleton;
  }

  method DrawSkeletons(ctx: Canvas, preds: seq<Prediction>)
    modifies ctx`log
    ensures ctx.log == old(ctx.log) + SkeletonsOf(preds)
  {
    for i := 0 to |preds|
      invariant ctx.log == old(ctx.log) + SkeletonsOf(preds[..i])
    {
      assert preds[..i + 1][..i] == preds[..i];
      var kps := KeypointsOf(preds[i]);
      if kps.None? {
        continue;
      }
      DrawSkeleton(ctx, kps.value);
      AppendAssoc(old(ctx.log), SkeletonsOf(preds[..i]), LimbsCommands(kps.value, Skeleton));
    }
    assert preds[..|preds|] == preds;
  }

  method DrawDots(ctx: Canvas, kps: seq<Keypoint>)
    modifies ctx`log
    ensures ctx.log == old(ctx.log) + Dots(kps, ctx.fillStyle)
  {
    for i := 0 to |kps|
      invariant ctx.log == old(ctx.log) + Dots(kps[..i], ctx.fillStyle)
    {
      assert kps[..i + 1][..i] == kps[..i];
      var keypoint := kps[i];
      if keypoint.score < 0.5 {
        continue;
      }
      ctx.BeginPath();
      ctx.Arc(keypoint.x, keypoint.y, 3.0);
      ctx.Fill();
      AppendAssoc(old(ctx.log), Dots(kps[..i], ctx.fillStyle), DotCommands(keypoint, ctx.fillStyle));
    }
    assert kps[..|kps|] == kps;
  }

  method DrawAllDots(ctx: Canvas, preds: seq<Prediction>)
    modifies ctx`log
    ensures ctx.log == old(ctx.log) + DotsOf(preds, ctx.fillStyle)
  {
    for i := 0 to |preds|
      invariant ctx.log == old(ctx.log) + DotsOf(preds[..i], ctx.fillStyle)
    {
      assert preds[..i + 1][..i] == preds[..i];
      var kps := KeypointsOf(preds[i]);
      if kps.None? {
        continue;
      }
      DrawDots(ctx, kps.value);
      AppendAssoc(old(ctx.log), DotsOf(preds[..i], ctx.fillStyle), Dots(kps.value, ctx.fillStyle));
    }
    assert preds[..|preds|] == preds;
  }

  /**
    Draws pose predictions: outlines and score labels in green, the limbs
    whose keypoints both score above 0.5 as one orange path of width 2, and
    a red dot of radius 3 at every keypoint scoring at least 0.5.
   */
  method DrawPoseEstimation(ctx: Canvas, cache: FontCache, preds: seq<Prediction>, lineWidth: real, labels: LabelText)
    requires cache.Coherent(ctx.measure)
    modifies ctx`fillStyle, ctx`strokeStyle, ctx`lineWidth, ctx`font, ctx`log, cache`measurements
    ensures cache.Coherent(ctx.measure)
    ensures cache.measurements.Keys == old(cache.measurements.Keys) + Texts(preds, PoseText(labels))
    ensures ctx.log == old(ctx.log) + if preds == [] then [] else PoseCommands(preds, lineWidth, PoseText(labels), ctx.measure)
    ensures ctx.CurrentPen() == if preds == [] then old(ctx.CurrentPen()) else Pen(Red, Orange, 2.0, LabelFont)
  {
    if preds == [] {
      return;
    }
    ghost var log0 := ctx.log;
    ghost var strokes := BoxStrokes(preds, Green, lineWidth);
    ghost var labelCmds := LabelsFor(preds, PoseText(labels), Green, ctx.measure);
    ghost var limbs := SkeletonsOf(preds);
    ghost var dots := DotsOf(preds, Red);
    ghost var drawn := PoseCommands(preds, lineWidth, PoseText(labels), ctx.measure);
    assert drawn == strokes + labelCmds + [BeginPath] + limbs + [Stroke(Orange, 2.0)] + dots;

    ctx.lineWidth := lineWidth;
    ctx.strokeStyle := Green;
    StrokeBoxes(ctx, preds);

    ctx.fillStyle := Green;
    ctx.font := cache.font;
    DrawLabels(ctx, cache, preds, PoseText(labels));

    DrawKeypointLayer(ctx, preds);
    PoseCommandsAssoc(log0, strokes, labelCmds, limbs, dots);
  }

  /** Steps 3 and 4 of the pose drawing: one orange path of every limb, then the red keypoint dots. */
  method DrawKeypointLayer(ctx: Canvas, preds: seq<Prediction>)
    modifies ctx`fillStyle, ctx`strokeStyle, ctx`lineWidth, ctx`log
    ensures ctx.log == old(ctx.log) + [BeginPath] + SkeletonsOf(preds) + [Stroke(Orange, 2.0)] + DotsOf(preds, Red)
    ensures ctx.fillStyle == Red && ctx.strokeStyle == Orange && ctx.lineWidth == 2.0
  {
    ctx.strokeStyle := Orange;
    ctx.lineWidth := 2.0;
    ctx.BeginPath();
    DrawSkeletons(ctx, preds);
    ctx.Stroke();

    ctx.fillStyle := Red;
    DrawAllDots(ctx, preds);
  }

  lemma PoseCommandsAssoc(log0: seq<Cmd>, strokes: seq<Cmd>, labelCmds: seq<Cmd>, limbs: seq<Cmd>, dots: seq<Cmd>)
    ensures log0 + strokes + labelCmds + [BeginPath] + limbs + [Stroke(Orange, 2.0)] + dots
         == log0 + (strokes + labelCmds + [BeginPath] + limbs + [Stroke(Orange, 2.0)] + dots)
  {
  }

  /**
    Every listed pair whose keypoints both score above 0.5 is drawn as one
    segment: a move to its first keypoint immediately followed by a line to
    its second.
   */
  lemma {:induction false} LinkedLimbsAreDrawn(kps: seq<Keypoint>, pairs: seq<(nat, nat)>)
    ensures forall s :: 0 <= s < |pairs| && Linked(kps, pairs[s].0, pairs[s].1) ==>
              exists pre, post :: LimbsCommands(kps, pairs) == pre + Segment(kps, pairs[s].0, pairs[s].1) + post
  {
    if pairs != [] {
      var init := pairs[..|pairs| - 1];
      var last := LimbCommands(kps, pairs[|pairs| - 1].0, pairs[|pairs| - 1].1);
      LinkedLimbsAreDrawn(kps, init);
      assert LimbsCommands(kps, pairs) == LimbsCommands(kps, init) + last;
      forall s | 0 <= s < |pairs| && Linked(kps, pairs[s].0, pairs[s].1)
        ensures exists pre, post :: LimbsCommands(kps, pairs) == pre + Segment(kps, pairs[s].0, pairs[s].1) + post
      {
        var seg := Segment(kps, pairs[s].0, pairs[s].1);
        if s == |pairs| - 1 {
          assert LimbsCommands(kps, pairs) == LimbsCommands(kps, init) + seg + [];
        } else {
          assert pairs[s] == init[s];
          var pre, post :| LimbsCommands(kps, init) == pre + seg + post;
          assert LimbsCommands(kps, pairs) == pre + seg + (post + last);
        }
      }
    }
  }

  /** Nothing is drawn but the segments of listed pairs whose keypoints both score above 0.5. */
  lemma {:induction false} DrawnLimbsAreLinked(kps: seq<Keypoint>, pairs: seq<(nat, nat)>)
    ensures forall c :: c in LimbsCommands(kps, pairs) ==>
              exists s :: 0 <= s < |pairs| && Linked(kps, pairs[s].0, pairs[s].1) && c in LimbCommands(kps, pairs[s].0, pairs[s].1)
  {
    if pairs != [] {
      var init := pairs[..|pairs| - 1];
      var last := pairs[|pairs| - 1];
      DrawnLimbsAreLinked(kps, init);
      var limb := LimbCommands(kps, last.0, last.1);
      assert LimbsCommands(kps, pairs) == LimbsCommands(kps, init) + limb;
      forall c | c in LimbsCommands(kps, pairs)
        ensures exists s :: 0 <= s < |pairs| && Linked(kps, pairs[s].0, pairs[s].1) && c in LimbCommands(kps, pairs[s].0, pairs[s].1)
      {
        if c in limb {
          assert Linked(kps, pairs[|pairs| - 1].0, pairs[|pairs| - 1].1);
        } else {
          var s :| 0 <= s < |init| && Linked(kps, init[s].0, init[s].1) && c in LimbCommands(kps, init[s].0, init[s].1);
          assert pairs[s] == init[s];
        }
      }
    }
  }

  /**
    The dots are drawn exactly at the keypoints scoring at least 0.5, each as
    a radius-3 circle on a path of its own, filled in the given style.
   */
  lemma {:induction false} DotsAtConfidentKeypoints(kps: seq<Keypoint>, style: Style)
    ensures forall k :: k in kps && Confident(k) ==> Arc(k.x, k.y, 3.0) in Dots(kps, style)
    ensures forall c :: c in Dots(kps, style) ==>
              c == BeginPath || c == Fill(style) || exists k :: k in kps && Confident(k) && c == Arc(k.x, k.y, 3.0)
    ensures |Dots(kps, style)| == 3 * |ConfidentOnes(kps)|
  {
    if kps != [] {
      var init := kps[..|kps| - 1];
      DotsAtConfidentKeypoints(init, style);
      assert kps == init + [kps[|kps| - 1]];
    }
  }

  /** The keypoints scoring at least 0.5, in order. */
  function ConfidentOnes(kps: seq<Keypoint>): seq<Keypoint>
  {
    if kps == [] then []
    else ConfidentOnes(kps[..|kps| - 1]) + (if Confident(kps[|kps| - 1]) then [kps[|kps| - 1]] else [])
  }

  /**
    The two gates differ at exactly 0.5: a keypoint scoring 0.5 gets a dot,
    but no limb touches it.
   */
  lemma HalfScoreGetsDotButNoLimb(kps: seq<Keypoint>, i: nat)
    requires i < |kps| && kps[i].score == 0.5
    ensures Arc(kps[i].x, kps[i].y, 3.0) in Dots(kps, Red)
    ensures forall j: nat :: !Linked(kps, i, j) && !Linked(kps, j, i)
  {
    DotsAtConfidentKeypoints(kps, Red);
  }

  // ---------------------------------------------------------------------
  // Entry point
  // ---------------------------------------------------------------------

  /** What the drawing layer draws after clearing the canvas, by task. */
  function Drawn(predictions: Option<seq<Prediction>>, task: string, lineWidth: real, labels: LabelText,
                 measure: string -> real): seq<Cmd>
  {
    if predictions.None? || predictions.value == [] then []
    else
      var preds := predictions.value;
      match task
      case "pose" => PoseCommands(preds, lineWidth, PoseText(labels), measure)
      case "segment" => []
      case _ => DetectionCommands(preds, EntryOrder(FirstSeen(preds)), lineWidth, DetectText(labels), measure)
  }

  /** The label texts the drawing layer writes (and so measures), by task. */
  function DrawnTexts(predictions: Option<seq<Prediction>>, task: string, labels: LabelText): set<string>
  {
    if predictions.None? || predictions.value == [] then {}
    else
      match task
      case "pose" => Texts(predictions.value, PoseText(labels))
      case "segment" => {}
      case _ => Texts(predictions.value, DetectText(labels))
  }

  /** The drawing state the drawing layer leaves behind, by task. */
  function PenAfter(pen: Pen, predictions: Option<seq<Prediction>>, task: string, lineWidth: real): Pen
  {
    if predictions.None? || predictions.value == [] then pen
    else
      match task
      case "pose" => Pen(Red, Orange, 2.0, LabelFont)
      case "segment" => pen
      case _ =>
        var entries := EntryOrder(FirstSeen(predictions.value));
        if entries == [] then pen
        else Pen(ClassBorder(entries[|entries| - 1]), ClassBorder(entries[|entries| - 1]), lineWidth, LabelFont)
  }

  /**
    Clears the whole overlay, then draws the predictions by `task`:
    nothing more when there are none or `task` is "segment", pose drawing
    for "pose", and object detection for "detect" and any other task.
    lineWidth is the canvas diagonal divided by 250.
   */
  method DrawBoundingBoxesOn(predictions: Option<seq<Prediction>>, task: string, ctx: Canvas, cache: FontCache,
                             lineWidth: real, labels: LabelText)
    requires cache.Coherent(ctx.measure)
    requires lineWidth >= 0.0 && (250.0 * lineWidth) * (250.0 * lineWidth) == ctx.width * ctx.width + ctx.height * ctx.height
    modifies ctx`fillStyle, ctx`strokeStyle, ctx`lineWidth, ctx`font, ctx`log, cache`measurements
    ensures cache.Coherent(ctx.measure)
    ensures cache.measurements.Keys == old(cache.measurements.Keys) + DrawnTexts(predictions, task, labels)
    ensures ctx.log == old(ctx.log) + [ClearRect(0.0, 0.0, ctx.width, ctx.height)] + Drawn(predictions, task, lineWidth, labels, ctx.measure)
    ensures ctx.CurrentPen() == PenAfter(old(ctx.CurrentPen()), predictions, task, lineWidth)
  {
    ctx.ClearRect(0.0, 0.0, ctx.width, ctx.height);

    if predictions.None? || |predictions.value| == 0 {
      return;
    }
    var preds := predictions.value;
    ghost var cleared := ctx.log;
    match task {
      case "pose" =>
        DrawPoseEstimation(ctx, cache, preds, lineWidth, labels);
      case "segment" =>
      case _ =>
        DrawObjectDetection(ctx, cache, preds, lineWidth, labels);
    }
  }

  /**
    Every task other than "pose" and "segment" falls back to object
    detection, which outlines each prediction exactly once in its class's
    border colour.
   */
  lemma UnknownTaskOutlinesLikeDetect(preds: seq<Prediction>, task: string, lineWidth: real, labels: LabelText,
                                      measure: string -> real)
    requires preds != [] && task != "pose" && task != "segment"
    ensures multiset(StrokesOf(Drawn(Some(preds), task, lineWidth, labels, measure))) == multiset(Outlines(preds, lineWidth))
  {
    var detected := DetectionCommands(preds, EntryOrder(FirstSeen(preds)), lineWidth, DetectText(labels), measure);
    assert Drawn(Some(preds), task, lineWidth, labels, measure) == detected;
    OutlinesEveryPredictionOnce(preds, lineWidth, DetectText(labels), measure);
  }

  /**
    With no predictions (null, undefined or empty) or the "segment" task,
    the canvas is only cleared: nothing is drawn and nothing is measured.
   */
  lemma OnlyClearsWithoutDrawing(predictions: Option<seq<Prediction>>, task: string, lineWidth: real, labels: LabelText,
                                 measure: string -> real, pen: Pen)
    requires predictions.None? || predictions.value == [] || task == "segment"
    ensures Drawn(predictions, task, lineWidth, labels, measure) == []
    ensures DrawnTexts(predictions, task, labels) == {}
    ensures PenAfter(pen, predictions, task, lineWidth) == pen
  {
  }

  /** The pose drawing outlines every prediction once, in green, in the order given. */
  lemma PoseOutlinesEveryPrediction(preds: seq<Prediction>, lineWidth: real, labels: LabelText, measure: string -> real)
    requires preds != []
    ensures StrokesOf(Drawn(Some(preds), "pose", lineWidth, labels, measure)) == GreenOutlines(preds, lineWidth)
  {
    PoseStrokes(preds, lineWidth, PoseText(labels), measure);
  }

  /** One green outline per prediction, in order. */
  function GreenOutlines(preds: seq<Prediction>, lineWidth: real): (cmds: seq<Cmd>)
    ensures |cmds| == |preds|
  {
    seq(|preds|, j requires 0 <= j < |preds| => StrokeRect(preds[j].Bbox().x, preds[j].Bbox().y, preds[j].Bbox().w, preds[j].Bbox().h, Green, lineWidth))
  }

  lemma PoseStrokes(preds: seq<Prediction>, lineWidth: real, text: Prediction -> string, measure: string -> real)
    ensures StrokesOf(PoseCommands(preds, lineWidth, text, measure)) == GreenOutlines(preds, lineWidth)
  {
    var strokes := BoxStrokes(preds, Green, lineWidth);
    var labelCmds := LabelsFor(preds, text, Green, measure);
    var rest := [BeginPath] + SkeletonsOf(preds) + [Stroke(Orange, 2.0)] + DotsOf(preds, Red);
    GreenStrokes(preds, lineWidth);
    LabelsDrawNoOutline(preds, text, Green, measure);
    LimbsAndDotsDrawNoOutline(preds);
    StrokesOfConcat(strokes, labelCmds);
    StrokesOfConcat(strokes + labelCmds, rest);
    assert PoseCommands(preds, lineWidth, text, measure) == strokes + labelCmds + rest;
  }

  lemma {:induction false} GreenStrokes(items: seq<Prediction>, lineWidth: real)
    ensures StrokesOf(BoxStrokes(items, Green, lineWidth)) == GreenOutlines(items, lineWidth)
  {
    if items != [] {
      var init := items[..|items| - 1];
      var b := items[|items| - 1].Bbox();
      GreenStrokes(init, lineWidth);
      StrokesOfConcat(BoxStrokes(init, Green, lineWidth), [StrokeRect(b.x, b.y, b.w, b.h, Green, lineWidth)]);
      assert StrokesOf([StrokeRect(b.x, b.y, b.w, b.h, Green, lineWidth)]) == [StrokeRect(b.x, b.y, b.w, b.h, Green, lineWidth)] by {
        assert [StrokeRect(b.x, b.y, b.w, b.h, Green, lineWidth)][..0] == [];
      }
      assert GreenOutlines(items, lineWidth) == GreenOutlines(init, lineWidth) + [StrokeRect(b.x, b.y, b.w, b.h, Green, lineWidth)];
    }
  }

  lemma LimbsAndDotsDrawNoOutline(preds: seq<Prediction>)
    ensures StrokesOf([BeginPath] + SkeletonsOf(preds) + [Stroke(Orange, 2.0)] + DotsOf(preds, Red)) == []
  {
    SkeletonsArePathSteps(preds);
    DotsArePathSteps(preds, Red);
    NoStrokeRects([BeginPath] + SkeletonsOf(preds) + [Stroke(Orange, 2.0)] + DotsOf(preds, Red));
  }

  lemma {:induction false} NoStrokeRects(cmds: seq<Cmd>)
    requires forall c :: c in cmds ==> !c.StrokeRect?
    ensures StrokesOf(cmds) == []
  {
    if cmds != [] {
      NoStrokeRects(cmds[..|cmds| - 1]);
    }
  }

  lemma {:induction false} LimbsArePathSteps(kps: seq<Keypoint>, pairs: seq<(nat, nat)>)
    ensures forall c :: c in LimbsCommands(kps, pairs) ==> c.MoveTo? || c.LineTo?
  {
    if pairs != [] {
      LimbsArePathSteps(kps, pairs[..|pairs| - 1]);
    }
  }

  lemma {:induction false} SkeletonsArePathSteps(preds: seq<Prediction>)
    ensures forall c :: c in SkeletonsOf(preds) ==> c.MoveTo? || c.LineTo?
  {
    if preds != [] {
      SkeletonsArePathSteps(preds[..|preds| - 1]);
      var kps := KeypointsOf(preds[|preds| - 1]);
      if kps.Some? {
        LimbsArePathSteps(kps.value, Skeleton);
      }
    }
  }

  lemma {:induction false} DotsArePathSteps(preds: seq<Prediction>, style: Style)
    ensures forall c :: c in DotsOf(preds, style) ==> c.BeginPath? || c.Arc? || c.Fill?
  {
    if preds != [] {
      DotsArePathSteps(preds[..|preds| - 1], style);
      var kps := KeypointsOf(preds[|preds| - 1]);
      if kps.Some? {
        DotsAtConfidentKeypoints(kps.value, style);
      }
    }
  }
}
