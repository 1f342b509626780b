/**
 * The face-guided framing of `smart_crop`: a crop rectangle of the fixed
 * portrait ratio around the face, a transparent canvas of the crop's size,
 * the offset at which the matte is pasted into it, and the final resize.
 * Geometry is exact: the factors 2.2 and 0.8 are the rationals 11/5 and 4/5.
 */
module SmartCrop {
  import opened Geometry

  const TargetW: int := 358
  const TargetH: int := 441
  /** The size every framed portrait is resized to. */
  const Target: Size := Size(TargetW, TargetH)
  /** `target_w / target_h`. */
  const TargetRatio: real := TargetW as real / TargetH as real
  /** The crop is this many face widths wide. */
  const HeadroomFactor: real := 2.2
  /** The crop starts this many face heights above the face. */
  const TopOffsetFactor: real := 0.8

  /** The crop rectangle in matte coordinates; it may reach outside the matte. */
  datatype Region = Region(left: real, top: real, width: real, height: real)

  /** Sizes and offsets handed to PIL by `smart_crop`. */
  datatype CropPlan = CropPlan(region: Region, canvas: Size, offset: Point, output: Size)

  /** The crop rectangle for the face box `(fx, fy, fw, fh)`. */
  function CropRegion(fx: int, fy: int, fw: int, fh: int): (c: Region)
    // exactly the target aspect ratio
    ensures c.width * TargetH as real == c.height * TargetW as real
    ensures fw != 0 ==> c.height != 0.0 && c.width / c.height == TargetRatio
    // the face takes 5/11 of the crop's width
    ensures fw as real * 11.0 == c.width * 5.0
    // centred horizontally on the face
    ensures c.left + c.width / 2.0 == fx as real + fw as real / 2.0
    // the top edge sits 0.8 face heights above the face
    ensures fy as real - c.top == fh as real * 0.8
    ensures 0 <= fh ==> c.top <= fy as real
    // the face's horizontal extent lies inside the crop
    ensures 0 <= fw ==> c.left <= fx as real && fx as real + fw as real <= c.left + c.width
  {
    var cropW := fw as real * HeadroomFactor;
    var cropH := cropW / TargetRatio;
    var centerX := fx as real + fw as real / 2.0;
    var cropY := fy as real - fh as real * TopOffsetFactor;
    Region(centerX - cropW / 2.0, cropY, cropW, cropH)
  }

  /** `(int(crop_w), int(crop_h))`: the canvas a crop of this region is placed on. */
  function CanvasSize(c: Region): (s: Size)
    ensures 0.0 <= c.width ==> c.width - 1.0 < s.width as real <= c.width
    ensures 0.0 <= c.height ==> c.height - 1.0 < s.height as real <= c.height
    ensures c.width <= 0.0 ==> s.width <= 0
    ensures c.height <= 0.0 ==> s.height <= 0
  {
    Size(Trunc(c.width), Trunc(c.height))
  }

  /**
   * `(int(-left), int(-top))`: where the matte's origin goes in the canvas,
   * within one pixel of the exact negated crop origin, rounded toward zero.
   */
  function PasteOffset(c: Region): (o: Point)
    ensures Abs(o.x as real + c.left) < 1.0 && Abs(o.x as real) <= Abs(c.left)
    ensures Abs(o.y as real + c.top) < 1.0 && Abs(o.y as real) <= Abs(c.top)
  {
    Point(Trunc(-c.left), Trunc(-c.top))
  }

  /** PIL's `resize(size)` returns an image of exactly `size`. */
  function Resize(src: Size, size: Size): (r: Size)
    ensures r == size
  {
    size
  }

  /** The canvas has pixels exactly when the face box has a positive width; then it is at least 2 by 2. */
  lemma CanvasNonEmpty(fx: int, fy: int, fw: int, fh: int)
    ensures var s := CanvasSize(CropRegion(fx, fy, fw, fh));
            (1 <= s.width && 1 <= s.height) <==> 1 <= fw
    ensures var s := CanvasSize(CropRegion(fx, fy, fw, fh));
            1 <= fw ==> 2 <= s.width && 2 <= s.height
  {
  }

  /**
   * The face's vertical extent fits in the crop exactly when the box is not
   * too tall for its width: `358 * fh <= 539 * fw`. Square boxes always fit.
   */
  lemma FaceVerticallyInside(fx: int, fy: int, fw: int, fh: int)
    ensures var c := CropRegion(fx, fy, fw, fh);
            (fy as real + fh as real <= c.top + c.height) <==> 358 * fh <= 539 * fw
    ensures var c := CropRegion(fx, fy, fw, fh);
            0 <= fh <= fw ==> c.top <= fy as real && fy as real + fh as real <= c.top + c.height
  {
  }

  /**
   * Once pasted at the offset, a face box of positive height that does not
   * exceed its width lies wholly inside the canvas, despite both
   * truncations.
   */
  lemma FaceLandsInCanvas(fx: int, fy: int, fw: int, fh: int)
    requires 1 <= fh <= fw
    ensures var c := CropRegion(fx, fy, fw, fh);
            var s, o := CanvasSize(c), PasteOffset(c);
            && 0 <= fx + o.x && fx + fw + o.x <= s.width
            && 0 <= fy + o.y && fy + fh + o.y <= s.height
  {
  }

  /**
   * Where a resize from `from` pixels to `to` pixels sends the coordinate `x`
   * (in continuous coordinates, edges to edges).
   */
  function ScaleCoord(x: real, from: int, to: int): (r: real)
    requires 0 < from
    ensures r * from as real == x * to as real
  {
    x * to as real / from as real
  }

  /**
   * Through the paste and the resize to 358 pixels, the face's horizontal
   * midpoint `m` (in canvas pixels) lands at the output's centre column 179,
   * off by what its distance from the canvas centre becomes when scaled:
   * that distance is under 1.5 canvas pixels, so the output error is under
   * 1.5 * 358 / W for a canvas W pixels wide.
   */
  lemma FaceCentredInOutput(fx: int, fy: int, fw: int, fh: int)
    requires 1 <= fw
    ensures var c := CropRegion(fx, fy, fw, fh);
            var s, o := CanvasSize(c), PasteOffset(c);
            var m := fx as real + fw as real / 2.0 + o.x as real;
            && 0 < s.width
            && Abs(m - s.width as real / 2.0) < 1.5
            && ScaleCoord(m, s.width, TargetW) - 179.0 == ScaleCoord(m - s.width as real / 2.0, s.width, TargetW)
            && Abs(ScaleCoord(m, s.width, TargetW) - 179.0) < ScaleCoord(1.5, s.width, TargetW)
  {
    var c := CropRegion(fx, fy, fw, fh);
    var s, o := CanvasSize(c), PasteOffset(c);
    CanvasNonEmpty(fx, fy, fw, fh);
    var m := fx as real + fw as real / 2.0 + o.x as real;
    // the two truncation errors: of the offset (under 1) and of the width (under 1, halved)
    assert fx as real - c.left == fw as real * 0.6;
    assert -1.0 < m - s.width as real / 2.0 < 1.5;
    ScaleAroundCentre(m, s.width);
    ScaleBelow(m - s.width as real / 2.0, 1.5, s.width);
  }

  /**
   * For a face at least 50 pixels wide, the smallest the detector reports,
   * the face's midpoint lands within 5 output pixels of the centre column.
   */
  lemma FaceCentredWithinFivePixels(fx: int, fy: int, fw: int, fh: int)
    requires 50 <= fw
    ensures var c := CropRegion(fx, fy, fw, fh);
            var s, o := CanvasSize(c), PasteOffset(c);
            Abs(ScaleCoord(fx as real + fw as real / 2.0 + o.x as real, s.width, TargetW) - 179.0) < 5.0
  {
    var c := CropRegion(fx, fy, fw, fh);
    var s := CanvasSize(c);
    FaceCentredInOutput(fx, fy, fw, fh);
    assert 110 <= s.width;
    ScaleOfOneAndAHalf(s.width);
  }

  /** Scaling commutes with measuring from the centre: the centre `w / 2` goes to 179. */
  lemma ScaleAroundCentre(m: real, w: int)
    requires 0 < w
    ensures ScaleCoord(m, w, TargetW) - 179.0 == ScaleCoord(m - w as real / 2.0, w, TargetW)
  {
    var r1, r2 := ScaleCoord(m, w, TargetW), ScaleCoord(m - w as real / 2.0, w, TargetW);
    var x := w as real;
    assert r1 * x == m * 358.0 && r2 * x == (m - x / 2.0) * 358.0;
    assert (r1 - 179.0 - r2) * x == r1 * x - 179.0 * x - r2 * x == 0.0;
    ZeroFactor(r1 - 179.0 - r2, x);
  }

  /** A product with a non-zero factor vanishes only when the other factor does. */
  lemma ZeroFactor(a: real, x: real)
    requires x != 0.0 && a * x == 0.0
    ensures a == 0.0
  {
  }

  /** A distance under `b` stays under `b` once both are scaled. */
  lemma ScaleBelow(d: real, b: real, w: int)
    requires 0 < w && Abs(d) < b
    ensures Abs(ScaleCoord(d, w, TargetW)) < ScaleCoord(b, w, TargetW)
  {
  }

  /** 1.5 canvas pixels scale to under 5 output pixels from a canvas of 110 or more. */
  lemma ScaleOfOneAndAHalf(w: int)
    requires 110 <= w
    ensures ScaleCoord(1.5, w, TargetW) < 5.0
  {
  }

  /** `smart_crop(img, fx, fy, fw, fh)`: the region, canvas, offset and output size it uses. */
  function Plan(fx: int, fy: int, fw: int, fh: int): (p: CropPlan)
    ensures p.output == Target
    ensures 1 <= fw ==> 2 <= p.canvas.width && 2 <= p.canvas.height
    ensures Abs(p.offset.x as real + p.region.left) < 1.0 && Abs(p.offset.y as real + p.region.top) < 1.0
  {
    var c := CropRegion(fx, fy, fw, fh);
    CanvasNonEmpty(fx, fy, fw, fh);
    var canvas := CanvasSize(c);
    CropPlan(c, canvas, PasteOffset(c), Resize(canvas, Target))
  }

  /** The face box (400, 300, 100, 100): crop 220 wide from x = 340, top 220, canvas 220 by 271. */
  lemma WorkedExample()
    ensures var p := Plan(400, 300, 100, 100);
            && p.region.width == 220.0 && p.region.left == 340.0 && p.region.top == 220.0
            && 271.0 < p.region.height < 271.01
            && p.canvas == Size(220, 271) && p.offset == Point(-340, -220)
            && p.output == Size(358, 441)
  {
  }

  /**
   * An odd face width puts the crop origin at a fraction: -left is -339.4,
   * which `int()` truncates to -339 where a floor would give -340.
   */
  lemma TruncationTowardZeroExample()
    ensures var p := Plan(400, 300, 101, 101);
            p.region.left == 339.4 && p.offset.x == -339 && (-p.region.left).Floor == -340
  {
  }
}
