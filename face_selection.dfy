/**
 * Choosing the face to frame among the boxes the detector returns:
 * `max(faces, key=lambda f: f[2] * f[3])`, guarded by `len(faces) == 0`.
 */
module FaceSelection {

  /** A detected box `(x, y, w, h)` in image pixels, as the detector reports it. */
  datatype Box = Box(x: int, y: int, w: int, h: int)

  datatype Option<T> = None | Some(value: T)

  /** The selection key `f[2] * f[3]`. */
  function Area(b: Box): (a: int)
    ensures 0 <= b.w && 0 <= b.h ==> 0 <= a
    ensures 0 <= b.w && 0 <= b.h ==> (a == 0 <==> b.w == 0 || b.h == 0)
  {
    b.w * b.h
  }

  /** `i` is the FIRST position of a box of maximal area. */
  ghost predicate IsFirstLargest(faces: seq<Box>, i: int)
  {
    && 0 <= i < |faces|
    && (forall k :: 0 <= k < |faces| ==> Area(faces[k]) <= Area(faces[i]))
    && (forall k :: 0 <= k < i ==> Area(faces[k]) < Area(faces[i]))
  }

  /**
   * Python's `max` with a key walks the sequence from the front and replaces
   * its candidate only by a STRICTLY larger key; this is that fold, with the
   * last element considered after all the others.
   */
  function LargestIndex(faces: seq<Box>): (i: nat)
    requires |faces| > 0
    ensures i < |faces|
    ensures forall k :: 0 <= k < |faces| ==> Area(faces[k]) <= Area(faces[i])
    ensures forall k :: 0 <= k < i ==> Area(faces[k]) < Area(faces[i])
  {
    if |faces| == 1 then 0
    else
      var j := LargestIndex(faces[..|faces| - 1]);
      if Area(faces[j]) < Area(faces[|faces| - 1]) then |faces| - 1 else j
  }

  /** The two properties of the selected position determine it: there is one answer. */
  lemma FirstLargestUnique(faces: seq<Box>, i: int, j: int)
    requires IsFirstLargest(faces, i) && IsFirstLargest(faces, j)
    ensures i == j
  {
    // both are maximal, so neither is strictly below the other
    assert Area(faces[i]) == Area(faces[j]);
  }

  /** `LargestIndex` computes exactly the position the specification describes. */
  lemma LargestIndexIsFirstLargest(faces: seq<Box>, i: int)
    requires |faces| > 0
    ensures IsFirstLargest(faces, i) <==> i == LargestIndex(faces)
  {
  }

  /**
   * The face `process_image` frames: none when the detector found nothing,
   * otherwise the first box of largest area.
   */
  function Largest(faces: seq<Box>): (r: Option<Box>)
    ensures r.None? <==> |faces| == 0
    ensures r.Some? ==> r.value in faces
    ensures r.Some? ==> forall f :: f in faces ==> Area(f) <= Area(r.value)
    ensures r.Some? ==> exists i :: IsFirstLargest(faces, i) && faces[i] == r.value
  {
    if |faces| == 0 then None else Some(faces[LargestIndex(faces)])
  }

  /** Two boxes of areas 2000 and 5000: the larger is chosen whatever the order. */
  lemma LargerAreaWins()
    ensures Largest([Box(10, 10, 40, 50), Box(200, 80, 50, 100)]) == Some(Box(200, 80, 50, 100))
    ensures Largest([Box(200, 80, 50, 100), Box(10, 10, 40, 50)]) == Some(Box(200, 80, 50, 100))
  {
  }

  /** Equal areas: the box reported first wins, as with Python's `max`. */
  lemma TieGoesToFirst()
    ensures Largest([Box(0, 0, 60, 60), Box(300, 0, 60, 60), Box(600, 0, 40, 40)]) == Some(Box(0, 0, 60, 60))
  {
  }
}
