/**
 * The region-of-interest step of the back-end pipeline: choosing the one
 * detection box from the detector's raw predictions, scaling it to the
 * original image, clamping it to the image and deciding which files are
 * written.  Scores and coordinates are `real`; Python's `int()` is
 * truncation toward zero.  Image reading, the network itself and the
 * pixel data are not modelled: an image is known by its height and width.
 */
module YoloDetect {
  import opened Wrappers
  import opened Outputs

  /** Side of the square the detector's coordinates refer to. */
  const ImgSize: int := 512

  /** Smallest class score a prediction needs in order to be considered. */
  const ConfThres: real := 0.25

  /** Message of the error raised when the input image cannot be read. */
  const CannotRead: string := "Cannot read input image"

  /** One row of the detector output: box centre and size, then one score per class. */
  datatype Prediction = Prediction(x: real, y: real, w: real, h: real, classScores: seq<real>)

  /** Corner coordinates `[x1, y1, x2, y2]` in pixels. */
  datatype Box = Box(x1: int, y1: int, x2: int, y2: int)

  /** A decoded input image, known by its height and width in pixels. */
  datatype Image = Image(h: nat, w: nat)

  /** The index range `[lo, hi)` that a Python slice selects. */
  datatype Span = Span(lo: nat, hi: nat)

  /** What one written file holds. */
  datatype Content =
    | WholeImage                       // the input image, unchanged
    | Region(rows: Span, cols: Span)   // the rows and columns of the input kept by the crop
    | AnnotatedImage(rect: Box)           // the input image with this rectangle drawn on it
    | BboxJson(bbox: seq<int>)         // the JSON document {"bbox": bbox}

  datatype FileWrite = FileWrite(path: string, content: Content)

  /** The returned ROI path and the files written, in the order they are written. */
  datatype Detection = Detection(roiPath: string, writes: seq<FileWrite>)

  // ---------------------------------------------------------------------
  // Choosing the best prediction
  // ---------------------------------------------------------------------

  /** `np.argmax`: the first index holding the largest score. */
  function ArgMax(s: seq<real>): (k: nat)
    requires |s| > 0
    ensures k < |s|
    ensures forall j :: 0 <= j < |s| ==> s[j] <= s[k]
    ensures forall j :: 0 <= j < k ==> s[j] < s[k]
  {
    if |s| == 1 then 0
    else
      var k := ArgMax(s[..|s| - 1]);
      if s[|s| - 1] > s[k] then |s| - 1 else k
  }

  /** Every row has at least one class score (`np.argmax` raises on an empty row). */
  predicate WellFormed(preds: seq<Prediction>)
  {
    forall i :: 0 <= i < |preds| ==> |preds[i].classScores| > 0
  }

  /** The confidence of a prediction: its top class score. */
  function Conf(p: Prediction): real
    requires |p.classScores| > 0
  {
    p.classScores[ArgMax(p.classScores)]
  }

  /** A prediction survives the threshold unless its confidence is below it. */
  predicate Kept(p: Prediction)
    requires |p.classScores| > 0
  {
    !(Conf(p) < ConfThres)
  }

  predicate NoneKept(preds: seq<Prediction>)
    requires WellFormed(preds)
  {
    forall j :: 0 <= j < |preds| ==> !Kept(preds[j])
  }

  /**
   * Among the first `n` predictions, `k` is kept, no kept one has a
   * higher confidence, and every kept one before it has a strictly lower
   * confidence (ties go to the earliest).
   */
  predicate IsBestAmong(preds: seq<Prediction>, n: nat, k: nat)
    requires WellFormed(preds) && n <= |preds|
  {
    && k < n
    && Kept(preds[k])
    && (forall j :: 0 <= j < n && Kept(preds[j]) ==> Conf(preds[j]) <= Conf(preds[k]))
    && (forall j :: 0 <= j < k && Kept(preds[j]) ==> Conf(preds[j]) < Conf(preds[k]))
  }

  predicate IsBest(preds: seq<Prediction>, k: nat)
    requires WellFormed(preds)
  {
    IsBestAmong(preds, |preds|, k)
  }

  /** There is at most one best prediction. */
  lemma BestUnique(preds: seq<Prediction>, k1: nat, k2: nat)
    requires WellFormed(preds) && IsBest(preds, k1) && IsBest(preds, k2)
    ensures k1 == k2
  {
  }

  /** A best prediction exists exactly when some prediction is kept. */
  lemma {:induction false} BestExists(preds: seq<Prediction>, n: nat)
    requires WellFormed(preds) && n <= |preds|
    ensures (exists k: nat :: IsBestAmong(preds, n, k)) <==> (exists j :: 0 <= j < n && Kept(preds[j]))
  {
    if n == 0 {
    } else if exists j :: 0 <= j < n - 1 && Kept(preds[j]) {
      BestExists(preds, n - 1);
      var k: nat :| IsBestAmong(preds, n - 1, k);
      if Kept(preds[n - 1]) && Conf(preds[n - 1]) > Conf(preds[k]) {
        assert IsBestAmong(preds, n, n - 1);
      } else {
        assert IsBestAmong(preds, n, k);
      }
    } else if Kept(preds[n - 1]) {
      assert IsBestAmong(preds, n, n - 1);
    }
  }

  /** A prediction whose confidence equals the threshold exactly is kept. */
  lemma ThresholdInclusive(p: Prediction)
    requires |p.classScores| > 0 && Conf(p) == 0.25
    ensures Kept(p) && IsBest([p], 0)
  {
  }

  // ---------------------------------------------------------------------
  // Scaling to the original image
  // ---------------------------------------------------------------------

  /** Python's `int()` on a float: truncation toward zero. */
  function Trunc(r: real): (t: int)
    ensures 0.0 <= r ==> 0 <= t && t as real <= r < t as real + 1.0
    ensures r < 0.0 ==> t <= 0 && t as real - 1.0 < r <= t as real
  {
    if r >= 0.0 then r.Floor else -((-r).Floor)
  }

  lemma TruncMonotone(a: real, b: real)
    requires a <= b
    ensures Trunc(a) <= Trunc(b)
  {
  }

  /** Truncating a value no greater than an integer stays no greater than it. */
  lemma TruncAtMost(r: real, n: int)
    requires r <= n as real
    ensures Trunc(r) <= n
  {
  }

  /** One corner coordinate: network pixels scaled to `orig` pixels, then `int()`. */
  function Scale(c: real, orig: nat): int
  {
    Trunc(c / ImgSize as real * orig as real)
  }

  /** Centre/size to corners, each corner scaled to the original image. */
  function ToCorners(p: Prediction, origH: nat, origW: nat): Box
  {
    var x1 := p.x - p.w / 2.0;
    var y1 := p.y - p.h / 2.0;
    var x2 := p.x + p.w / 2.0;
    var y2 := p.y + p.h / 2.0;
    Box(Scale(x1, origW), Scale(y1, origH), Scale(x2, origW), Scale(y2, origH))
  }

  /** Scaling by a non-negative factor keeps order. */
  lemma MulMonotone(a: real, b: real, f: real)
    requires a <= b && 0.0 <= f
    ensures a * f <= b * f
  {
    assert 0.0 <= (b - a) * f;
  }

  /** Scaling keeps order: a smaller coordinate gives a smaller corner. */
  lemma ScaleMonotone(a: real, b: real, orig: nat)
    requires a <= b
    ensures Scale(a, orig) <= Scale(b, orig)
  {
    var o := orig as real;
    var da, db := a / ImgSize as real, b / ImgSize as real;
    var pa, pb := da * o, db * o;
    MulMonotone(da, db, o);
    TruncMonotone(pa, pb);
  }

  /** A coordinate inside the network frame lands inside the original image. */
  lemma ScaleWithin(c: real, orig: nat)
    requires 0.0 <= c <= ImgSize as real
    ensures 0 <= Scale(c, orig) <= orig
  {
    var d := c / ImgSize as real;
    assert 0.0 <= d <= 1.0;
    MulMonotone(0.0, d, orig as real);
    MulMonotone(d, 1.0, orig as real);
    TruncAtMost(d * orig as real, orig);
  }

  /** A box of non-negative size keeps its corners in order. */
  lemma CornersOrdered(p: Prediction, origH: nat, origW: nat)
    requires p.w >= 0.0 && p.h >= 0.0
    ensures ToCorners(p, origH, origW).x1 <= ToCorners(p, origH, origW).x2
    ensures ToCorners(p, origH, origW).y1 <= ToCorners(p, origH, origW).y2
  {
    ScaleMonotone(p.x - p.w / 2.0, p.x + p.w / 2.0, origW);
    ScaleMonotone(p.y - p.h / 2.0, p.y + p.h / 2.0, origH);
  }

  /** A box inside the network frame has its corners inside the original image. */
  lemma CornersWithinImage(p: Prediction, origH: nat, origW: nat)
    requires p.w >= 0.0 && p.h >= 0.0
    requires 0.0 <= p.x - p.w / 2.0 && p.x + p.w / 2.0 <= ImgSize as real
    requires 0.0 <= p.y - p.h / 2.0 && p.y + p.h / 2.0 <= ImgSize as real
    ensures var b := ToCorners(p, origH, origW);
      0 <= b.x1 <= origW && 0 <= b.x2 <= origW && 0 <= b.y1 <= origH && 0 <= b.y2 <= origH
  {
    ScaleWithin(p.x - p.w / 2.0, origW);
    ScaleWithin(p.x + p.w / 2.0, origW);
    ScaleWithin(p.y - p.h / 2.0, origH);
    ScaleWithin(p.y + p.h / 2.0, origH);
  }

  /**
   * `postprocess`: scan the predictions, keep those at or above the
   * threshold and return the corners of the first one with the highest
   * confidence, or nothing when no prediction is kept.
   */
  method Postprocess(preds: seq<Prediction>, origH: nat, origW: nat) returns (bbox: Option<Box>)
    requires WellFormed(preds)
    ensures bbox.None? <==> NoneKept(preds)
    ensures bbox.Some? ==> exists k: nat :: IsBest(preds, k) && bbox.value == ToCorners(preds[k], origH, origW)
  {
    var bestConf := 0.0;
    var bestBox: Option<Prediction> := None;
    ghost var bestIdx: nat := 0;
    for i := 0 to |preds|
      invariant bestBox.None? ==> bestConf == 0.0 && forall j :: 0 <= j < i ==> !Kept(preds[j])
      invariant bestBox.Some? ==> IsBestAmong(preds, i, bestIdx)
      invariant bestBox.Some? ==> bestBox.value == preds[bestIdx] && bestConf == Conf(preds[bestIdx])
    {
      var p := preds[i];
      var classId := ArgMax(p.classScores);
      var conf := p.classScores[classId];
      if conf < ConfThres {
        continue;
      }
      if conf > bestConf {
        bestConf := conf;
        bestBox := Some(p);
        bestIdx := i;
      }
    }
    if bestBox.None? {
      return None;
    }
    bbox := Some(ToCorners(bestBox.value, origH, origW));
  }

  // ---------------------------------------------------------------------
  // Clamping, cropping and the files written
  // ---------------------------------------------------------------------

  /** `lo <= v < hi`, named so that quantifiers over `v` have a trigger. */
  predicate InSpan(lo: int, hi: int, v: int)
  {
    lo <= v < hi
  }

  /** The box cut down to the image: exactly the pixels of the box inside the image. */
  function Clamp(b: Box, img: Image): (c: Box)
    ensures 0 <= c.x1 && 0 <= c.y1 && c.x2 <= img.w && c.y2 <= img.h
    ensures forall v :: InSpan(c.x1, c.x2, v) <==> InSpan(0, img.w, v) && InSpan(b.x1, b.x2, v)
    ensures forall v :: InSpan(c.y1, c.y2, v) <==> InSpan(0, img.h, v) && InSpan(b.y1, b.y2, v)
  {
    Box(if b.x1 < 0 then 0 else b.x1, if b.y1 < 0 then 0 else b.y1,
        if b.x2 < img.w then b.x2 else img.w, if b.y2 < img.h then b.y2 else img.h)
  }

  /** Where a Python slice bound lands in a sequence of length `n`. */
  function SliceIndex(i: int, n: nat): (j: nat)
    ensures j <= n
  {
    if i < 0 then (if i + n < 0 then 0 else i + n)
    else if i > n then n
    else i
  }

  /** The indices `xs[start:stop]` selects from a sequence of length `n`. */
  function Slice(start: int, stop: int, n: nat): (s: Span)
    ensures s.lo <= s.hi <= n
  {
    var lo := SliceIndex(start, n);
    var hi := SliceIndex(stop, n);
    Span(lo, if hi < lo then lo else hi)
  }

  predicate EmptySpan(s: Span)
  {
    s.lo == s.hi
  }

  /** The pixels `img[y1:y2, x1:x2]` keeps of the clamped box `c`. */
  function Crop(c: Box, img: Image): Content
  {
    Region(Slice(c.y1, c.y2, img.h), Slice(c.x1, c.x2, img.w))
  }

  /** The crop has no pixels (`roi.size == 0`). */
  predicate CropEmpty(c: Box, img: Image)
  {
    EmptySpan(Slice(c.y1, c.y2, img.h)) || EmptySpan(Slice(c.x1, c.x2, img.w))
  }

  /**
   * What `detect_roi` writes and returns once `postprocess` has produced
   * `bbox`: the whole image as the ROI when there is no box or the crop is
   * empty; otherwise the crop, the annotated image and the box file.
   */
  function RoiOutcome(bbox: Option<Box>, img: Image, outputDir: string, jobId: string): Detection
  {
    var roiPath := Join(outputDir, OutputName(jobId, Roi));
    if bbox.None? then Detection(roiPath, [FileWrite(roiPath, WholeImage)])
    else
      var c := Clamp(bbox.value, img);
      if CropEmpty(c, img) then Detection(roiPath, [FileWrite(roiPath, WholeImage)])
      else Detection(roiPath, [
        FileWrite(roiPath, Crop(c, img)),
        FileWrite(Join(outputDir, OutputName(jobId, Annotated)), AnnotatedImage(c)),
        FileWrite(Join(outputDir, OutputName(jobId, Bbox)), BboxJson([c.x1, c.y1, c.x2, c.y2]))])
  }

  /**
   * The decisions of `detect_roi` after `postprocess`: clamp the corners
   * to the image in place, fall back to the whole image when there is no
   * box or the crop is empty, and otherwise write the crop, the annotated
   * image and the box file.
   */
  method WriteOutputs(bbox: Option<Box>, image: Image, outputDir: string, jobId: string)
    returns (d: Detection)
    ensures d == RoiOutcome(bbox, image, outputDir, jobId)
  {
    var roiPath := Join(outputDir, OutputName(jobId, Roi));
    var annotatedPath := Join(outputDir, OutputName(jobId, Annotated));
    var bboxPath := Join(outputDir, OutputName(jobId, Bbox));

    if bbox.None? {
      return Detection(roiPath, [FileWrite(roiPath, WholeImage)]);
    }

    var Box(x1, y1, x2, y2) := bbox.value;
    var h, w := image.h, image.w;
    x1, y1 := if x1 < 0 then 0 else x1, if y1 < 0 then 0 else y1;
    x2, y2 := if x2 < w then x2 else w, if y2 < h then y2 else h;
    assert Box(x1, y1, x2, y2) == Clamp(bbox.value, image);

    var rows, cols := Slice(y1, y2, h), Slice(x1, x2, w);
    if rows.hi - rows.lo == 0 || cols.hi - cols.lo == 0 {
      return Detection(roiPath, [FileWrite(roiPath, WholeImage)]);
    }

    d := Detection(roiPath, [
      FileWrite(roiPath, Region(rows, cols)),
      FileWrite(annotatedPath, AnnotatedImage(Box(x1, y1, x2, y2))),
      FileWrite(bboxPath, BboxJson([x1, y1, x2, y2]))]);
  }

  /**
   * `detect_roi`: read the image, run the detector (its predictions are
   * given), post-process and write the outputs.
   */
  method DetectRoi(img: Option<Image>, preds: seq<Prediction>, outputDir: string, jobId: string)
    returns (r: Result<Detection, string>)
    requires WellFormed(preds)
    ensures img.None? <==> r == Err(CannotRead)
    ensures img.Some? && NoneKept(preds) ==> r == Ok(RoiOutcome(None, img.value, outputDir, jobId))
    ensures img.Some? && !NoneKept(preds) ==>
      exists k: nat :: IsBest(preds, k) &&
        r == Ok(RoiOutcome(Some(ToCorners(preds[k], img.value.h, img.value.w)), img.value, outputDir, jobId))
  {
    if img.None? {
      return Err(CannotRead);
    }
    var bbox := Postprocess(preds, img.value.h, img.value.w);
    var d := WriteOutputs(bbox, img.value, outputDir, jobId);
    r := Ok(d);
  }

  // ---------------------------------------------------------------------
  // Properties of the outcome
  // ---------------------------------------------------------------------

  /**
   * The ROI is the whole image exactly when there is no box or the crop
   * is empty, and then nothing but the ROI file is written.
   */
  lemma FallbackWritesOnlyWholeImage(bbox: Option<Box>, img: Image, outputDir: string, jobId: string)
    ensures var d := RoiOutcome(bbox, img, outputDir, jobId);
      && |d.writes| > 0
      && d.writes[0].path == d.roiPath == Join(outputDir, OutputName(jobId, Roi))
      && (d.writes[0].content == WholeImage <==> bbox.None? || CropEmpty(Clamp(bbox.value, img), img))
      && (d.writes[0].content == WholeImage ==> |d.writes| == 1)
  {
  }

  /**
   * The annotated image is written if and only if a non-empty crop is
   * produced: the two fallbacks leave no file at its path.
   */
  lemma AnnotatedOnlyForCrop(bbox: Option<Box>, img: Image, outputDir: string, jobId: string)
    ensures var d := RoiOutcome(bbox, img, outputDir, jobId);
      (exists w :: w in d.writes && w.path == Join(outputDir, OutputName(jobId, Annotated)))
      <==> bbox.Some? && !CropEmpty(Clamp(bbox.value, img), img)
  {
    var d := RoiOutcome(bbox, img, outputDir, jobId);
    var annotated := Join(outputDir, OutputName(jobId, Annotated));
    if bbox.None? || CropEmpty(Clamp(bbox.value, img), img) {
      JoinedOutputsDistinct(outputDir, jobId, Roi, Annotated);
      assert d.writes == [FileWrite(Join(outputDir, OutputName(jobId, Roi)), WholeImage)];
    } else {
      assert d.writes[1].path == annotated;
    }
  }

  /**
   * When a crop is produced, the annotated image and the box file are
   * written too, and the box file records exactly the clamped corners,
   * which lie inside the image on the top-left and cannot exceed it on
   * the bottom-right.
   */
  lemma BboxFileRecordsClampedBox(b: Box, img: Image, outputDir: string, jobId: string)
    requires !CropEmpty(Clamp(b, img), img)
    ensures var d := RoiOutcome(Some(b), img, outputDir, jobId);
      var c := Clamp(b, img);
      && |d.writes| == 3
      && d.writes[1] == FileWrite(Join(outputDir, OutputName(jobId, Annotated)), AnnotatedImage(c))
      && d.writes[2] == FileWrite(Join(outputDir, OutputName(jobId, Bbox)), BboxJson([c.x1, c.y1, c.x2, c.y2]))
      && 0 <= c.x1 && 0 <= c.y1 && c.x2 <= img.w && c.y2 <= img.h
  {
  }

  /**
   * When the clamped right and bottom edges are not negative, the crop is
   * empty exactly when the clamped box is, and otherwise it keeps exactly
   * the clamped box.
   */
  lemma CropIsClampedBox(b: Box, img: Image)
    requires Clamp(b, img).x2 >= 0 && Clamp(b, img).y2 >= 0
    ensures var c := Clamp(b, img);
      && (CropEmpty(c, img) <==> c.x2 <= c.x1 || c.y2 <= c.y1)
      && (!CropEmpty(c, img) ==> Crop(c, img) == Region(Span(c.y1, c.y2), Span(c.x1, c.x2)))
  {
  }

  /**
   * A box lying entirely left of the image is not an empty crop: the
   * negative right edge is read by Python slicing from the end, so the
   * crop keeps all columns but the last `-x2`, and the box file records
   * the negative edge.
   */
  lemma NegativeEdgeWrapsAround(b: Box, img: Image, outputDir: string, jobId: string)
    requires b.x1 <= b.x2 < 0 && -b.x2 < img.w
    requires 0 <= b.y1 < b.y2 <= img.h
    ensures var d := RoiOutcome(Some(b), img, outputDir, jobId);
      && d.writes[0].content == Region(Span(b.y1, b.y2), Span(0, img.w + b.x2))
      && d.writes[2].content == BboxJson([0, b.y1, b.x2, b.y2])
  {
  }

  /** The box chosen from a prediction inside the network frame needs no clamping. */
  lemma InFrameBoxUnclamped(p: Prediction, img: Image)
    requires p.w >= 0.0 && p.h >= 0.0
    requires 0.0 <= p.x - p.w / 2.0 && p.x + p.w / 2.0 <= ImgSize as real
    requires 0.0 <= p.y - p.h / 2.0 && p.y + p.h / 2.0 <= ImgSize as real
    ensures Clamp(ToCorners(p, img.h, img.w), img) == ToCorners(p, img.h, img.w)
  {
    CornersWithinImage(p, img.h, img.w);
  }
}
