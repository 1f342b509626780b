/**
 * The framing decision of `process_image`: with no detected face the whole
 * matte is fitted to the portrait size; otherwise the largest face drives
 * `smart_crop`. Either way the result is flattened onto white at its size.
 */
module IdPhoto {
  import opened Geometry
  import opened FaceSelection
  import SmartCrop

  /** The framing applied to the matte, with the sizes it involves. */
  datatype Framing =
    | Fitted(source: Size, output: Size)
    | FaceCropped(face: Box, plan: SmartCrop.CropPlan)

  /** `simple_resize`: `ImageOps.fit(img, (358, 441))`, whose result has exactly that size. */
  function SimpleResize(img: Size): (r: Size)
    ensures r == Size(358, 441)
  {
    Size(358, 441)
  }

  /** The branch on `len(faces) == 0` and the call it makes. */
  function Frame(img: Size, faces: seq<Box>): (f: Framing)
    ensures f.Fitted? <==> |faces| == 0
    ensures f.Fitted? ==> f.source == img
    ensures f.FaceCropped? ==> f.face in faces && forall b :: b in faces ==> Area(b) <= Area(f.face)
    ensures f.FaceCropped? ==> exists i :: IsFirstLargest(faces, i) && faces[i] == f.face
    ensures f.FaceCropped? ==> f.plan == SmartCrop.Plan(f.face.x, f.face.y, f.face.w, f.face.h)
  {
    match Largest(faces)
    case None => Fitted(img, SimpleResize(img))
    case Some(face) => FaceCropped(face, SmartCrop.Plan(face.x, face.y, face.w, face.h))
  }

  /** `final_img.size` for either branch. */
  function FramedSize(f: Framing): (r: Size)
    ensures f.Fitted? ==> r == f.output
    ensures f.FaceCropped? ==> r == f.plan.output
  {
    match f
    case Fitted(_, output) => output
    case FaceCropped(_, plan) => plan.output
  }

  /**
   * The white backdrop is created at `final_img.size` and the RGB conversion
   * keeps it, so the saved image has the size of the framed one.
   */
  function Flatten(framed: Size): (r: Size)
    ensures r == framed
  {
    framed
  }

  /**
   * Whatever the matte's size, both branches flatten to 358 by 441; for a chosen
   * box of width 0 or less that is the model's answer, not the program's.
   */
  function OutputSize(img: Size, faces: seq<Box>): (s: Size)
    ensures s == Size(358, 441)
  {
    Flatten(FramedSize(Frame(img, faces)))
  }

  /**
   * When the detector reports square boxes of at least 50 pixels (its
   * minimum size), the chosen face is framed whole: it lands inside the
   * canvas, and its midpoint within 5 output pixels of the centre column.
   */
  lemma DetectedFaceFramed(img: Size, faces: seq<Box>)
    requires |faces| > 0
    requires forall b :: b in faces ==> 50 <= b.w && b.w == b.h
    ensures var f := Frame(img, faces);
            && f.FaceCropped?
            && var p := f.plan;
            && 0 <= f.face.x + p.offset.x && f.face.x + f.face.w + p.offset.x <= p.canvas.width
            && 0 <= f.face.y + p.offset.y && f.face.y + f.face.h + p.offset.y <= p.canvas.height
            && Abs(SmartCrop.ScaleCoord(f.face.x as real + f.face.w as real / 2.0 + p.offset.x as real,
                                        p.canvas.width, SmartCrop.TargetW) - 179.0) < 5.0
  {
    var f := Frame(img, faces);
    var b := f.face;
    SmartCrop.FaceLandsInCanvas(b.x, b.y, b.w, b.h);
    SmartCrop.FaceCentredWithinFivePixels(b.x, b.y, b.w, b.h);
  }

  /** No face on an 800 by 600 matte: the fallback fit, still 358 by 441. */
  lemma NoFaceExample()
    ensures Frame(Size(800, 600), []) == Fitted(Size(800, 600), Size(358, 441))
  {
  }

  /** One face (400, 300, 100, 100) on a 1000 by 1000 matte: a 220 by 271 canvas, the matte pasted at (-340, -220). */
  lemma OneFaceExample()
    ensures var f := Frame(Size(1000, 1000), [Box(400, 300, 100, 100)]);
            && f.FaceCropped? && f.face == Box(400, 300, 100, 100)
            && f.plan.canvas == Size(220, 271) && f.plan.offset == Point(-340, -220)
            && FramedSize(f) == Size(358, 441)
  {
  }
}
