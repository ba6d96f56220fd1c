/**
 * `RectangularBoundary`: an axis-aligned rectangle of an image, given by its top-left corner
 * and its size, all Java `int`s. It is immutable and compared field by field, so it is a
 * value here. Its superclass `Boundary` is not part of this model.
 */
module Boundaries {
  import opened JavaInt

  /** A Java `int`. */
  type Int32 = x: int | IsInt32(x)

  datatype RectangularBoundary = RectangularBoundary(x: Int32, y: Int32, width: Int32, height: Int32)
  {
    /** `equals`: the same height, width, x and y. */
    predicate Equals(that: RectangularBoundary)
      ensures this == that ==> Equals(that)
    {
      height == that.height && width == that.width && x == that.x && y == that.y
    }

    /**
     * `hashCode`: `31 * result + field` over x, y, width and height in `int` arithmetic,
     * which is the polynomial in 31 over the four fields wrapped once to 32 bits.
     */
    function HashCode(): (r: int)
      ensures IsInt32(r)
      ensures r == Wrap(29791 * x + 961 * y + 31 * width + height)
    {
      var r1 := Hash31(x, y);
      var r2 := Hash31(r1, width);
      var r3 := Hash31(r2, height);
      Hash31Congruent(r1, 31 * x + y, width);
      Hash31Congruent(r2, 961 * x + 31 * y + width, height);
      WrapCongruent(31 * r2 + height, 29791 * x + 961 * y + 31 * width + height);
      r3
    }
  }

  /** `equals` holds exactly for equal boundaries. */
  lemma EqualsIsEquality(a: RectangularBoundary, b: RectangularBoundary)
    ensures a.Equals(b) <==> a == b
  {
  }

  /** Boundaries that are `equals` have the same `hashCode`. */
  lemma EqualBoundariesHashEqually(a: RectangularBoundary, b: RectangularBoundary)
    requires a.Equals(b)
    ensures a.HashCode() == b.HashCode()
  {
  }
}
