# ID photo framing model

A Dafny model of the framing core of a small desktop tool that turns a photo
into a 358 by 441 passport-style portrait. The tool removes the background,
asks a face detector for boxes `(x, y, w, h)`, and then:

- with no box, fits the whole matte to 358 by 441 (`simple_resize`);
- otherwise takes the box of largest area `w * h` (the first such box, as
  Python's `max` does) and calls `smart_crop`, which cuts a rectangle of the
  target ratio 358:441, 2.2 face widths wide, centred on the face and starting
  0.8 face heights above it, places the matte on a transparent canvas of that
  rectangle's size at the truncated negated origin, and resizes the canvas to
  358 by 441;
- flattens the result onto a white background of the same size.

The model states this geometry in exact rationals (`real`), with `Trunc` for
Python's `int()` on a float (truncation toward zero), and proves the aspect
ratio, the centring, the headroom, containment of the face in the crop and in
the canvas, the one-pixel error of each truncation, how far the face's midpoint
can drift from the output's centre column, the face-selection policy, and that
both branches end at 358 by 441 for every face box of positive width (the
detector's minimum size of 50 by 50 at main.py:43 ensures that).

Files: `geometry.dfy` (sizes, points, `Trunc`), `face_selection.dfy` (boxes
and the largest-face choice), `smart_crop.dfy` (the crop geometry),
`id_photo.dfy` (the branch in `process_image` and the output size).

- main.py raises no error of its own for a face box of width 0 (main.py:71-82);
  the model proves the canvas has pixels exactly when `w >= 1`
  (`SmartCrop.CanvasNonEmpty`).
- 2.2, 0.8 and 358 by 441 are literals in main.py:68, 71, 75 and 87, and appear
  as constants here.

## Model

| member | source | states |
|---|---|---|
| Geometry.Trunc | main.py:81-82 | `int()` truncates toward zero: within 1 of its argument, never larger in magnitude, below it for non-negative and above it for negative arguments |
| Geometry.TruncOfNegation | main.py:82 | truncation is symmetric, `int(-f) == -int(f)` |
| FaceSelection.Area | main.py:48 | the selection key `w * h` is non-negative for boxes of non-negative sides, and zero exactly when a side is zero |
| FaceSelection.LargestIndex | main.py:48 | `max(faces, key=w*h)` returns a position in the list whose area is at least every box's area and strictly above every earlier box's area (first maximum) |
| FaceSelection.FirstLargestUnique | main.py:48 | the "first box of maximal area" specification has exactly one answer |
| FaceSelection.LargestIndexIsFirstLargest | main.py:48 | a position meets the first-maximum specification if and only if it is the one selected |
| FaceSelection.Largest | main.py:45-48 | no box exactly when the detector returned none; otherwise the chosen box is in the list, has maximal area and is the first such |
| FaceSelection.LargerAreaWins | main.py:48 | of boxes with areas 2000 and 5000 the 5000 one is chosen in either order |
| FaceSelection.TieGoesToFirst | main.py:48 | of boxes with equal largest area the first reported is chosen |
| SmartCrop.CropRegion | main.py:67-78 | the crop has exactly the 358:441 ratio, is 11/5 face widths wide, is centred horizontally on the face, starts 0.8 face heights above the face top, and contains the face horizontally |
| SmartCrop.CanvasSize | main.py:81 | each canvas dimension is the crop dimension truncated: at most it and more than it minus 1, and not positive when the crop dimension is not |
| SmartCrop.PasteOffset | main.py:82 | the paste offset is within 1 pixel of the negated crop origin and no larger in magnitude |
| SmartCrop.Resize | main.py:84 | `canvas.resize((358, 441))` has exactly the requested size, whatever the canvas size |
| SmartCrop.CanvasNonEmpty | main.py:71-81 | the canvas has pixels if and only if the face width is at least 1, and is then at least 2 by 2 |
| SmartCrop.FaceVerticallyInside | main.py:71-78 | the face's bottom lies inside the crop if and only if `358 * h <= 539 * w`; boxes no taller than wide always fit |
| SmartCrop.FaceLandsInCanvas | main.py:71-82 | after the paste, a face box of positive height no taller than wide lies inside the canvas, both truncations included |
| SmartCrop.ScaleCoord | main.py:84 | the resize maps a canvas coordinate `x` to `x * 358 / W` for a canvas `W` wide |
| SmartCrop.FaceCentredInOutput | main.py:74-84 | the face's midpoint in the canvas is under 1.5 pixels from the canvas centre, and its output offset from column 179 is that distance scaled, so under `1.5 * 358 / W` |
| SmartCrop.FaceCentredWithinFivePixels | main.py:71-84 | for a face at least 50 pixels wide its midpoint lands within 5 output pixels of the centre column |
| SmartCrop.Plan | main.py:67-84 | `smart_crop` ends at 358 by 441, with a canvas of at least 2 by 2 for a face width of at least 1, and a paste offset within a pixel of the negated crop origin |
| SmartCrop.WorkedExample | main.py:67-84 | box (400, 300, 100, 100): crop 220 wide from x 340, top 220, height just over 271, canvas 220 by 271, offset (-340, -220), output 358 by 441 |
| SmartCrop.TruncationTowardZeroExample | main.py:77-82 | box (400, 300, 101, 101): crop origin 339.4, offset -339, where a floor would give -340 |
| IdPhoto.SimpleResize | main.py:86-87 | the fallback fit has exactly the size 358 by 441 |
| IdPhoto.Frame | main.py:45-49 | the fallback is taken if and only if there are no boxes; otherwise the first largest box is cropped around with `smart_crop`'s plan |
| IdPhoto.FramedSize | main.py:45-51 | `final_img.size` is the fallback fit's size in one branch and `smart_crop`'s resized size in the other |
| IdPhoto.Flatten | main.py:51-53 | the white backdrop is made at `final_img.size` and the RGB conversion keeps it |
| IdPhoto.OutputSize | main.py:45-53 | whatever the matte size, the flattened image is 358 by 441 in both branches (for a chosen box of width 0 or less see Left out) |
| IdPhoto.DetectedFaceFramed | main.py:43-49 | when every box is square and at least 50 pixels, a face is chosen, lands wholly inside the canvas and has its midpoint within 5 output pixels of the centre |
| IdPhoto.NoFaceExample | main.py:45-46 | an 800 by 600 matte with no face is fitted to 358 by 441 |
| IdPhoto.OneFaceExample | main.py:47-49 | one face (400, 300, 100, 100) on a 1000 by 1000 matte gives a 220 by 271 canvas, the matte pasted at (-340, -220), output 358 by 441 |

## Left out

- The window, buttons, status labels, file dialogs and message boxes, reading the input file and saving the JPEG with quality 95 (main.py:10-33, 55-65, 89-92): user interface and I/O.
- Background removal and the Haar cascade detector (main.py:37-43): external models. The detector's output is an arbitrary sequence of integer boxes; its square boxes and 50-pixel minimum appear only as the hypotheses of `IdPhoto.DetectedFaceFramed`.
- Pixels: `Image.new`, `paste` with the alpha mask, LANCZOS resampling, `ImageOps.fit`'s centre crop and the white compositing (main.py:51-53, 81-87) live in an imaging library that is not part of this model; only the sizes and offsets handed to them are modelled, and the resize only as the coordinate map `x * 358 / W`. Hence opacity of the output is not stated.
- What the imaging library does with a zero or negative canvas size (a face box of width 0 or less) is not part of this model; the sizes it would be asked for are.
- IEEE-754 doubles: 2.2, 0.8, `358 / 441` and the divisions are exact rationals here. In doubles `100 * 2.2` is `220.00000000000003`; a truncation at an exact integer could then differ by one from the model where rounding falls below it, which does not happen in the worked example.
- IdPhoto.OutputSize: for a chosen box of width 0 or less the 358 by 441 result is the model's, not the program's: the program hands a zero or negative canvas size to `Image.new` (main.py:81), the imaging library rejects a negative one with an error that main.py:63-65 catches, and no image is saved.
- FaceSelection.Area: the key `w * h` is an unbounded integer; the detector's 32-bit product would wrap only for boxes over 46340 pixels on a side.
