// The pure core of the auto-labelling script: pixel-corner boxes to clamped YOLO boxes,
// and the confidence and class filter applied to each image's detections.
module AutoLabel {
  import opened Results
  import LabelStudio

  /// The YOLO class names in the key order of the class table: index 0 is "golf_ball",
  /// index 1 is "putter".
  const ClassNames: seq<string> := ["golf_ball", "putter"]

  /// `max(0.0, min(1.0, v))`.
  function ClampUnit(v: real): (r: real)
    ensures 0.0 <= r <= 1.0
    ensures 0.0 <= v <= 1.0 ==> r == v
    ensures v < 0.0 ==> r == 0.0
    ensures v > 1.0 ==> r == 1.0
  {
    if v > 1.0 then 1.0 else if v < 0.0 then 0.0 else v
  }

  /// A normalised box: centre and size as fractions of the image.
  datatype UnitBox = UnitBox(cx: real, cy: real, w: real, h: real)

  predicate InUnitRange(b: UnitBox)
  {
    0.0 <= b.cx <= 1.0 && 0.0 <= b.cy <= 1.0 && 0.0 <= b.w <= 1.0 && 0.0 <= b.h <= 1.0
  }

  /// The normalised box before clamping.
  function RawYolo(x1: real, y1: real, x2: real, y2: real, imgW: int, imgH: int): UnitBox
    requires imgW > 0 && imgH > 0
  {
    UnitBox(((x1 + x2) / 2.0) / imgW as real, ((y1 + y2) / 2.0) / imgH as real,
            (x2 - x1) / imgW as real, (y2 - y1) / imgH as real)
  }

  /// `xyxy_to_yolo`: every component clamped to [0,1], and left alone when it is already
  /// in that range.
  function XyxyToYolo(x1: real, y1: real, x2: real, y2: real, imgW: int, imgH: int): (b: UnitBox)
    requires imgW > 0 && imgH > 0
    ensures InUnitRange(b)
    ensures var raw := RawYolo(x1, y1, x2, y2, imgW, imgH);
      b == UnitBox(ClampUnit(raw.cx), ClampUnit(raw.cy), ClampUnit(raw.w), ClampUnit(raw.h))
    ensures InUnitRange(RawYolo(x1, y1, x2, y2, imgW, imgH)) ==> b == RawYolo(x1, y1, x2, y2, imgW, imgH)
  {
    var cx := ((x1 + x2) / 2.0) / imgW as real;
    var cy := ((y1 + y2) / 2.0) / imgH as real;
    var w := (x2 - x1) / imgW as real;
    var h := (y2 - y1) / imgH as real;
    UnitBox(ClampUnit(cx), ClampUnit(cy), ClampUnit(w), ClampUnit(h))
  }

  /// A corner box that lies inside the image is unchanged by clamping, and its pixel corners
  /// can be recovered from the YOLO box.
  lemma InsideBoxRecovered(x1: real, y1: real, x2: real, y2: real, imgW: int, imgH: int)
    requires imgW > 0 && imgH > 0
    requires 0.0 <= x1 <= x2 <= imgW as real && 0.0 <= y1 <= y2 <= imgH as real
    ensures var b := XyxyToYolo(x1, y1, x2, y2, imgW, imgH);
      b == RawYolo(x1, y1, x2, y2, imgW, imgH)
      && (b.cx - b.w / 2.0) * imgW as real == x1 && (b.cx + b.w / 2.0) * imgW as real == x2
      && (b.cy - b.h / 2.0) * imgH as real == y1 && (b.cy + b.h / 2.0) * imgH as real == y2
  {
    var W := imgW as real;
    var H := imgH as real;
    var raw := RawYolo(x1, y1, x2, y2, imgW, imgH);
    FractionInUnit((x1 + x2) / 2.0, W);
    FractionInUnit((y1 + y2) / 2.0, H);
    FractionInUnit(x2 - x1, W);
    FractionInUnit(y2 - y1, H);
    assert raw.cx * W == (x1 + x2) / 2.0 && raw.w * W == x2 - x1;
    assert raw.cy * H == (y1 + y2) / 2.0 && raw.h * H == y2 - y1;
  }

  /// `0 <= a <= d` gives a fraction `a / d` in [0,1].
  lemma FractionInUnit(a: real, d: real)
    requires d > 0.0 && 0.0 <= a <= d
    ensures 0.0 <= a / d <= 1.0
  {
    var q := a / d;
    assert q * d == a;
    assert (1.0 - q) * d == d - a;
  }

  /// One detection of the open-vocabulary detector: pixel corners, confidence and the
  /// index of the prompt it matched.
  datatype RawDetection = RawDetection(x1: real, y1: real, x2: real, y2: real, confidence: real, classIdx: int)

  /// Why indexing the class list failed.
  datatype IndexError = IndexError(index: int)

  /// The class lookup as written: the guard only rejects indices at or above the number of
  /// classes, so Python's negative indexing reaches the list from the end, and an index
  /// below -2 raises.
  function ClassNameAsWritten(classIdx: int): (r: Result<Option<string>, IndexError>)
    ensures r.Err? <==> classIdx < -|ClassNames|
    ensures 0 <= classIdx < |ClassNames| ==> r == Ok(Some(ClassNames[classIdx]))
    ensures classIdx >= |ClassNames| ==> r == Ok(None)
  {
    if classIdx < |ClassNames| then
      if classIdx >= 0 then Ok(Some(ClassNames[classIdx]))
      else if classIdx >= -|ClassNames| then Ok(Some(ClassNames[|ClassNames| + classIdx]))
      else Err(IndexError(classIdx))
    else Ok(None)
  }

  /// A detection the detector did not tie to a prompt (index -1) is labelled "putter" by
  /// the lookup as written, and index -2 is labelled "golf_ball".
  lemma NegativeIndexMislabelled()
    ensures ClassNameAsWritten(-1) == Ok(Some("putter"))
    ensures ClassNameAsWritten(-2) == Ok(Some("golf_ball"))
    ensures ClassNameAsWritten(-3).Err?
  {
  }

  /// The class lookup as intended: exactly the indices of the class list have a name.
  function ClassName(classIdx: int): (r: Option<string>)
    ensures r.Some? <==> 0 <= classIdx < |ClassNames|
    ensures r.Some? ==> r.value in LabelStudio.ClassNameToId && LabelStudio.ClassNameToId[r.value] == classIdx
    ensures 0 <= classIdx ==> ClassNameAsWritten(classIdx) == Ok(r)
  {
    if 0 <= classIdx < |ClassNames| then Some(ClassNames[classIdx]) else None
  }

  /// The label lines one image's detections produce, in order.
  function LabelLines(dets: seq<RawDetection>, confThreshold: real, imgW: int, imgH: int): (lines: seq<LabelStudio.YoloBox>)
    requires imgW > 0 && imgH > 0
    ensures |lines| <= |dets|
    ensures forall b :: b in lines ==>
      b.classId in LabelStudio.ClassIdToName && 0.0 <= b.cx <= 1.0 && 0.0 <= b.cy <= 1.0 && 0.0 <= b.w <= 1.0 && 0.0 <= b.h <= 1.0
    decreases |dets|
  {
    if dets == [] then []
    else
      var d := dets[|dets| - 1];
      var rest := LabelLines(dets[..|dets| - 1], confThreshold, imgW, imgH);
      if d.confidence < confThreshold then rest
      else match ClassName(d.classIdx)
        case None => rest
        case Some(name) =>
          var b := XyxyToYolo(d.x1, d.y1, d.x2, d.y2, imgW, imgH);
          rest + [LabelStudio.YoloBox(LabelStudio.ClassNameToId[name], b.cx, b.cy, b.w, b.h)]
  }

  /// The line a detection produces, if any.
  function LineOf(d: RawDetection, confThreshold: real, imgW: int, imgH: int): Option<LabelStudio.YoloBox>
    requires imgW > 0 && imgH > 0
  {
    if d.confidence < confThreshold || !(0 <= d.classIdx < |ClassNames|) then None
    else
      var b := XyxyToYolo(d.x1, d.y1, d.x2, d.y2, imgW, imgH);
      Some(LabelStudio.YoloBox(d.classIdx, b.cx, b.cy, b.w, b.h))
  }

  /// Every line comes from a detection at or above the threshold with a known class and
  /// carries that class and a box inside [0,1]; every such detection produces its line.
  lemma {:induction false} LabelLinesCharacterized(dets: seq<RawDetection>, confThreshold: real, imgW: int, imgH: int)
    requires imgW > 0 && imgH > 0
    ensures var lines := LabelLines(dets, confThreshold, imgW, imgH);
      |lines| <= |dets|
      && (forall b :: b in lines ==> exists d :: d in dets && LineOf(d, confThreshold, imgW, imgH) == Some(b))
      && (forall d :: d in dets && LineOf(d, confThreshold, imgW, imgH).Some? ==> LineOf(d, confThreshold, imgW, imgH).value in lines)
      && (forall b :: b in lines ==> b.classId in LabelStudio.ClassIdToName
                                     && 0.0 <= b.cx <= 1.0 && 0.0 <= b.cy <= 1.0 && 0.0 <= b.w <= 1.0 && 0.0 <= b.h <= 1.0)
    decreases |dets|
  {
    if dets != [] {
      var pre := dets[..|dets| - 1];
      var d := dets[|dets| - 1];
      LabelLinesCharacterized(pre, confThreshold, imgW, imgH);
      assert dets == pre + [d];
      var lines := LabelLines(dets, confThreshold, imgW, imgH);
      var line := LineOf(d, confThreshold, imgW, imgH);
      assert lines == LabelLines(pre, confThreshold, imgW, imgH) + (if line.Some? then [line.value] else []);
    }
  }

  /// The filtering loop over one image's detections: below-threshold detections and unknown
  /// class indices give no line; every other detection one YOLO line.
  method FilterDetections(dets: seq<RawDetection>, confThreshold: real, imgW: int, imgH: int)
    returns (lines: seq<LabelStudio.YoloBox>)
    requires imgW > 0 && imgH > 0
    ensures lines == LabelLines(dets, confThreshold, imgW, imgH)
  {
    lines := [];
    for i := 0 to |dets|
      invariant lines == LabelLines(dets[..i], confThreshold, imgW, imgH)
    {
      assert dets[..i + 1][..i] == dets[..i];
      var d := dets[i];
      if d.confidence < confThreshold {
        continue;
      }
      var className := ClassName(d.classIdx);
      if className.None? {
        continue;
      }
      var yoloId := LabelStudio.ClassNameToId[className.value];
      var b := XyxyToYolo(d.x1, d.y1, d.x2, d.y2, imgW, imgH);
      lines := lines + [LabelStudio.YoloBox(yoloId, b.cx, b.cy, b.w, b.h)];
    }
    assert dets[..|dets|] == dets;
  }
}
