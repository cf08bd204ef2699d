/** Small shared vocabulary: an Option type, Rust's integer division and
    32-bit range, inclusive rectangles and the first-match search over a
    row of rectangles that every hit test of the shell performs. */
module Basics {

  datatype Option<+T> = None | Some(value: T)

  const I32_MIN: int := -0x8000_0000
  const I32_MAX: int := 0x7FFF_FFFF

  /** The value fits in a Rust `i32`. */
  predicate IsI32(v: int) {
    I32_MIN <= v <= I32_MAX
  }

  /** Rust's `/` on integers for a positive divisor: the quotient is
      truncated toward zero, so the remainder takes the sign of `a`
      (Dafny's own `/` is Euclidean and differs for negative `a`). */
  function TruncDiv(a: int, d: int): (q: int)
    requires d > 0
    ensures a >= 0 ==> 0 <= a - q * d < d
    ensures a < 0 ==> -d < a - q * d <= 0
  {
    if a >= 0 then a / d else -((-a) / d)
  }

  /** An axis-aligned box in client coordinates. All four edges belong to
      the box: this is how every hit test of the shell compares. */
  datatype Rect = Rect(left: int, top: int, right: int, bottom: int) {

    predicate Contains(x: int, y: int) {
      left <= x <= right && top <= y <= bottom
    }

    /** Every point of this box is a point of `outer`. */
    predicate Within(outer: Rect) {
      outer.left <= left && right <= outer.right &&
      outer.top <= top && bottom <= outer.bottom
    }

    /** No point lies in both boxes. */
    predicate DisjointFrom(other: Rect) {
      right < other.left || other.right < left ||
      bottom < other.top || other.bottom < top
    }
  }

  /** The index of the first box, in sequence order, that contains the
      point; None when no box does. */
  function FirstContaining(boxes: seq<Rect>, x: int, y: int): (r: Option<nat>)
    ensures r.Some? ==> r.value < |boxes| && boxes[r.value].Contains(x, y)
    ensures r.Some? ==> forall j :: 0 <= j < r.value ==> !boxes[j].Contains(x, y)
    ensures r.None? <==> forall j :: 0 <= j < |boxes| ==> !boxes[j].Contains(x, y)
    decreases |boxes|
  {
    if |boxes| == 0 then None
    else if boxes[0].Contains(x, y) then Some(0)
    else
      match FirstContaining(boxes[1..], x, y)
      case None => None
      case Some(k) => Some(k + 1)
  }

  /** A box that contains the point and has no earlier box containing it is
      exactly what FirstContaining finds. */
  lemma FirstContainingIs(boxes: seq<Rect>, x: int, y: int, i: nat)
    requires i < |boxes| && boxes[i].Contains(x, y)
    requires forall j :: 0 <= j < i ==> !boxes[j].Contains(x, y)
    ensures FirstContaining(boxes, x, y) == Some(i)
  {
  }
}
