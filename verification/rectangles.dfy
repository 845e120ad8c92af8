/**
 * The rectangle exercise: a `Rectangle` with `i32` sides, its area computed three ways,
 * strict per-dimension containment and the square constructor.
 */
module Rectangles {
  import opened Prims

  /**
   * Rust's `x as usize` for an `i32` on a 64-bit target: sign extension, i.e. the unique
   * `usize` congruent to `x` modulo 2^64. Non-negative values are unchanged.
   */
  function I32AsUsize(x: i32): (u: usize)
    ensures x >= 0 ==> u == x
    ensures u % USIZE_MODULUS == x % USIZE_MODULUS
  {
    if x >= 0 then x else x + USIZE_MODULUS
  }

  datatype Rectangle = Rectangle(width: i32, height: i32)
  {
    /**
     * `area(&self)`: `(height * width) as usize`. The product must not overflow `i32`
     * (a panic in debug builds, wrap-around in release builds).
     */
    function Area(): (a: usize)
      requires FitsI32(height * width)
      ensures width >= 0 && height >= 0 ==> a == width * height
      ensures a % USIZE_MODULUS == (width * height) % USIZE_MODULUS
    {
      assert height * width == width * height;
      I32AsUsize(height * width)
    }

    /** `can_hold(&self, rec)`: strictly wider and strictly taller, no rotation. */
    predicate CanHold(rec: Rectangle)
    {
      width > rec.width && height > rec.height
    }

    /** `Rectangle::square(size)`: both sides equal to `size`. */
    static function Square(size: i32): (r: Rectangle)
      ensures r.width == size && r.height == size
    {
      Rectangle(size, size)
    }
  }

  /** `area_with_variables(width, height)`: `(width * height) as usize`. */
  function AreaWithVariables(width: i32, height: i32): (a: usize)
    requires FitsI32(width * height)
    ensures width >= 0 && height >= 0 ==> a == width * height
    ensures a == Rectangle(width, height).Area()
  {
    I32AsUsize(width * height)
  }

  /** `area_with_tuple(dimensions)`: `(dimensions.0 * dimensions.1) as usize`. */
  function AreaWithTuple(dimensions: (i32, i32)): (a: usize)
    requires FitsI32(dimensions.0 * dimensions.1)
    ensures dimensions.0 >= 0 && dimensions.1 >= 0 ==> a == dimensions.0 * dimensions.1
    ensures a == AreaWithVariables(dimensions.0, dimensions.1)
  {
    I32AsUsize(dimensions.0 * dimensions.1)
  }

  /** The three area computations agree, and area does not depend on the order of the sides. */
  lemma AreaVariantsAgree(w: i32, h: i32)
    requires FitsI32(w * h)
    ensures AreaWithVariables(w, h) == AreaWithTuple((w, h)) == Rectangle(w, h).Area()
    ensures AreaWithVariables(w, h) == AreaWithVariables(h, w)
    ensures Rectangle(w, h).Area() == Rectangle(h, w).Area()
  {
  }

  /** `can_hold` is a strict partial order: irreflexive, asymmetric and transitive. */
  lemma CanHoldIsStrictPartialOrder(a: Rectangle, b: Rectangle, c: Rectangle)
    ensures !a.CanHold(a)
    ensures a.CanHold(b) ==> !b.CanHold(a)
    ensures a.CanHold(b) && b.CanHold(c) ==> a.CanHold(c)
  {
  }

  /** A rectangle that holds another one (with non-negative sides) has a strictly larger area. */
  lemma CanHoldHasLargerArea(outer: Rectangle, inner: Rectangle)
    requires outer.CanHold(inner)
    requires inner.width >= 0 && inner.height >= 0
    requires FitsI32(outer.height * outer.width) && FitsI32(inner.height * inner.width)
    ensures inner.Area() < outer.Area()
  {
    assert inner.Area() == inner.width * inner.height;
    assert outer.Area() == outer.width * outer.height;
    ProductStrictlyMonotone(inner.width, inner.height, outer.width, outer.height);
  }

  /** Strictly larger non-negative factors give a strictly larger product. */
  lemma ProductStrictlyMonotone(iw: int, ih: int, ow: int, oh: int)
    requires 0 <= iw < ow && 0 <= ih < oh
    ensures iw * ih < ow * oh
  {
    assert iw * ih <= iw * oh by {
      assert iw * (oh - ih) >= 0;
    }
    assert iw * oh < ow * oh by {
      assert (ow - iw) * oh > 0;
    }
  }

  /** A square's area is the square of its side. */
  lemma SquareArea(size: i32)
    requires FitsI32(size * size)
    ensures Rectangle.Square(size).Area() == size * size
  {
    assert size * size >= 0;
  }

  /** One square holds another exactly when its side is longer. */
  lemma SquareCanHoldIff(a: i32, b: i32)
    ensures Rectangle.Square(a).CanHold(Rectangle.Square(b)) <==> a > b
  {
  }

  /**
   * The literals of `main`: every area of the 30 x 50 rectangle is 1500; it holds 10 x 40,
   * but neither 60 x 45 nor (containment being per dimension, without rotation) 40 x 10.
   */
  lemma MainExamples()
    ensures AreaWithVariables(30, 50) == AreaWithTuple((30, 50)) == Rectangle(30, 50).Area() == 1500
    ensures Rectangle(30, 50).CanHold(Rectangle(10, 40))
    ensures !Rectangle(30, 50).CanHold(Rectangle(60, 45))
    ensures !Rectangle(30, 50).CanHold(Rectangle(40, 10))
    ensures Rectangle.Square(50) == Rectangle(50, 50)
  {
  }
}
