// Detections and the two pieces of frame pre- and post-processing that are pure
// data movement: parsing the detector's output rows and reordering an
// interleaved (HWC) image into planar (CHW) order.
module FramePipeline {
  import opened Numeric

  /// One detection of the network, in pixel coordinates of the original frame.
  /// Class 0 is the golf ball, class 1 the putter.
  datatype Detection = Detection(classId: int, confidence: real, x1: real, y1: real, x2: real, y2: real)
  {
    /// Horizontal centre of the box; inside the box when it is ordered.
    function Cx(): (r: real)
      ensures x1 <= x2 ==> x1 <= r <= x2
      ensures r - x1 == x2 - r
    {
      (x1 + x2) * 0.5
    }

    /// Vertical centre of the box; inside the box when it is ordered.
    function Cy(): (r: real)
      ensures y1 <= y2 ==> y1 <= r <= y2
      ensures r - y1 == y2 - r
    {
      (y1 + y2) * 0.5
    }

    /// Width of the box; non-negative exactly when the box is ordered horizontally.
    function Width(): (r: real)
      ensures r >= 0.0 <==> x1 <= x2
      ensures x1 + r == x2
    {
      x2 - x1
    }

    /// Height of the box; non-negative exactly when the box is ordered vertically.
    function Height(): (r: real)
      ensures r >= 0.0 <==> y1 <= y2
      ensures y1 + r == y2
    {
      y2 - y1
    }
  }

  /// Number of values in one output row: [x1, y1, x2, y2, confidence, class_id].
  const RowWidth: nat := 6

  /// The detection built from row `i` of the output, with the box scaled by (sx, sy).
  function RowDetection(output: seq<real>, i: nat, sx: real, sy: real): (d: Detection)
    requires RowWidth * i + RowWidth <= |output|
    ensures d.classId == TruncateToInt(output[RowWidth * i + 5])
    ensures d.confidence == output[RowWidth * i + 4]
    ensures d.x1 == output[RowWidth * i] * sx && d.x2 == output[RowWidth * i + 2] * sx
    ensures d.y1 == output[RowWidth * i + 1] * sy && d.y2 == output[RowWidth * i + 3] * sy
  {
    var base := RowWidth * i;
    Detection(TruncateToInt(output[base + 5]), output[base + 4],
              output[base] * sx, output[base + 1] * sy, output[base + 2] * sx, output[base + 3] * sy)
  }

  /// Whether row `i` passes the confidence filter (rows below the threshold are dropped).
  predicate Kept(output: seq<real>, i: nat, confThresh: real)
    requires RowWidth * i + RowWidth <= |output|
  {
    !(output[RowWidth * i + 4] < confThresh)
  }

  /// The indices, in increasing order, of the first `n` rows that pass the filter.
  function KeptRows(output: seq<real>, n: int, confThresh: real): (k: seq<nat>)
    requires RowWidth * n <= |output|
    ensures forall j :: 0 <= j < |k| ==> k[j] < n && RowWidth * k[j] + RowWidth <= |output|
    decreases if n < 0 then 0 else n
  {
    if n <= 0 then []
    else KeptRows(output, n - 1, confThresh) + (if Kept(output, n - 1, confThresh) then [n - 1] else [])
  }

  /// `KeptRows` is exactly the filter "row index below n and confidence not below the
  /// threshold", listed in input order without repetition.
  lemma {:induction false} KeptRowsCharacterized(output: seq<real>, n: int, confThresh: real)
    requires RowWidth * n <= |output|
    ensures var k := KeptRows(output, n, confThresh);
      (forall j :: 0 <= j < |k| ==> Kept(output, k[j], confThresh))
      && (forall i: nat :: i < n && Kept(output, i, confThresh) ==> i in k)
      && (forall j1, j2 :: 0 <= j1 < j2 < |k| ==> k[j1] < k[j2])
      && |k| <= (if n < 0 then 0 else n)
  {
    if n > 0 {
      KeptRowsCharacterized(output, n - 1, confThresh);
    }
  }

  /// `parse_detections`: keeps the rows whose confidence is not below `confThresh`, in
  /// order, scaling the box from network to frame coordinates.
  method ParseDetections(output: array<real>, numDets: int, confThresh: real,
                         origW: int, origH: int, netW: int, netH: int)
    returns (dets: seq<Detection>)
    requires netW > 0 && netH > 0
    requires RowWidth * numDets <= output.Length
    ensures var sx, sy, k := origW as real / netW as real, origH as real / netH as real, KeptRows(output[..], numDets, confThresh);
      |dets| == |k| && forall j :: 0 <= j < |k| ==> dets[j] == RowDetection(output[..], k[j], sx, sy)
  {
    var sx := origW as real / netW as real;
    var sy := origH as real / netH as real;
    dets := [];
    var i := 0;
    while i < numDets
      invariant 0 <= i <= (if numDets < 0 then 0 else numDets)
      invariant var k := KeptRows(output[..], i, confThresh);
        |dets| == |k| && forall j :: 0 <= j < |k| ==> dets[j] == RowDetection(output[..], k[j], sx, sy)
    {
      var base := RowWidth * i;
      var conf := output[base + 4];
      if conf < confThresh {
        i := i + 1;
        continue;
      }
      var d := Detection(TruncateToInt(output[base + 5]), conf,
                         output[base] * sx, output[base + 1] * sy, output[base + 2] * sx, output[base + 3] * sy);
      dets := dets + [d];
      i := i + 1;
    }
  }

  /// Every parsed detection has a confidence not below the threshold, and there are at
  /// most `numDets` of them.
  lemma ParsedDetectionsFiltered(output: seq<real>, numDets: int, confThresh: real, sx: real, sy: real, j: nat)
    requires RowWidth * numDets <= |output|
    requires j < |KeptRows(output, numDets, confThresh)|
    ensures var k := KeptRows(output, numDets, confThresh);
      RowWidth * k[j] + RowWidth <= |output| && RowDetection(output, k[j], sx, sy).confidence >= confThresh
      && |k| <= numDets
  {
    KeptRowsCharacterized(output, numDets, confThresh);
  }

  // ---- HWC -> CHW reorder of `preprocess` ----

  /// Channel `c` of an interleaved image of `area` pixels with 3 channels.
  function Channel(pixels: seq<real>, area: nat, c: nat): (r: seq<real>)
    requires |pixels| == 3 * area && c < 3
    ensures |r| == area && forall i :: 0 <= i < area ==> r[i] == pixels[3 * i + c]
  {
    seq(area, i requires 0 <= i < area => pixels[3 * i + c])
  }

  /// The planar (CHW) blob for an interleaved (HWC) image: the three channels one after another.
  function Chw(pixels: seq<real>, area: nat): (blob: seq<real>)
    requires |pixels| == 3 * area
    ensures |blob| == 3 * area
  {
    Channel(pixels, area, 0) + Channel(pixels, area, 1) + Channel(pixels, area, 2)
  }

  /// The interleaved image for a planar blob: the inverse reorder.
  function Hwc(blob: seq<real>, area: nat): (pixels: seq<real>)
    requires |blob| == 3 * area
    ensures |pixels| == 3 * area
  {
    seq(3 * area, j requires 0 <= j < 3 * area => blob[(j % 3) * area + j / 3])
  }

  /// Element `c * area + i` of the blob is channel `c` of pixel `i`.
  lemma ChwAt(pixels: seq<real>, area: nat, c: nat, i: nat)
    requires |pixels| == 3 * area && c < 3 && i < area
    ensures c * area + i < 3 * area && Chw(pixels, area)[c * area + i] == pixels[3 * i + c]
  {
    var r0, r1, r2 := Channel(pixels, area, 0), Channel(pixels, area, 1), Channel(pixels, area, 2);
    assert Chw(pixels, area) == r0 + r1 + r2;
    if c == 0 {
    } else if c == 1 {
      assert (r0 + r1 + r2)[area + i] == r1[i];
    } else {
      assert c * area == 2 * area;
      assert (r0 + r1 + r2)[2 * area + i] == r2[i];
    }
  }

  /// Reordering to planar form and back gives the interleaved image again.
  lemma HwcOfChw(pixels: seq<real>, area: nat)
    requires |pixels| == 3 * area
    ensures Hwc(Chw(pixels, area), area) == pixels
  {
    var back := Hwc(Chw(pixels, area), area);
    forall j | 0 <= j < 3 * area
      ensures back[j] == pixels[j]
    {
      var c, i := j % 3, j / 3;
      ChwAt(pixels, area, c, i);
      assert 3 * i + c == j;
    }
  }

  /// Reordering to interleaved form and back gives the planar blob again, so the
  /// reorder is a bijection on positions: a permutation of the pixel values.
  lemma ChwOfHwc(blob: seq<real>, area: nat)
    requires |blob| == 3 * area
    ensures Chw(Hwc(blob, area), area) == blob
  {
    var pixels := Hwc(blob, area);
    var again := Chw(pixels, area);
    forall j | 0 <= j < 3 * area
      ensures again[j] == blob[j]
    {
      var c := if j < area then 0 else if j < 2 * area then 1 else 2;
      var i := j - c * area;
      ChwAt(pixels, area, c, i);
      assert (3 * i + c) % 3 == c && (3 * i + c) / 3 == i;
    }
  }

  /// A blob whose three planes hold the three channels of the pixels is their CHW reorder.
  lemma PlanarIsChw(blob: seq<real>, pixels: seq<real>, area: nat)
    requires |pixels| == 3 * area && |blob| == 3 * area
    requires forall j :: 0 <= j < area ==> blob[j] == pixels[3 * j]
    requires forall j :: 0 <= j < area ==> blob[area + j] == pixels[3 * j + 1]
    requires forall j :: 0 <= j < area ==> blob[2 * area + j] == pixels[3 * j + 2]
    ensures blob == Chw(pixels, area)
  {
    forall j | 0 <= j < 3 * area
      ensures blob[j] == Chw(pixels, area)[j]
    {
      if j < area {
        ChwAt(pixels, area, 0, j);
      } else if j < 2 * area {
        ChwAt(pixels, area, 1, j - area);
      } else {
        ChwAt(pixels, area, 2, j - 2 * area);
      }
    }
  }

  /// The HWC -> CHW loop of `preprocess`: `blob[c * area + i] = pixels[i * 3 + c]`.
  method ReorderToChw(pixels: array<real>, netH: nat, netW: nat) returns (blob: array<real>)
    requires pixels.Length == 3 * (netH * netW)
    ensures blob.Length == 3 * (netH * netW)
    ensures blob[..] == Chw(pixels[..], netH * netW)
  {
    var area := netH * netW;
    blob := new real[3 * area];
    var i := 0;
    while i < area
      invariant 0 <= i <= area && blob.Length == 3 * area
      invariant forall j :: 0 <= j < i ==> blob[j] == pixels[3 * j]
      invariant forall j :: 0 <= j < i ==> blob[area + j] == pixels[3 * j + 1]
      invariant forall j :: 0 <= j < i ==> blob[2 * area + j] == pixels[3 * j + 2]
    {
      blob[i] := pixels[3 * i];
      blob[area + i] := pixels[3 * i + 1];
      blob[2 * area + i] := pixels[3 * i + 2];
      i := i + 1;
    }
    PlanarIsChw(blob[..], pixels[..], area);
  }
}
