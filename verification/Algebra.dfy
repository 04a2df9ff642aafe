/** Elementary facts about products and quotients of reals. */
module Algebra {

  lemma MulPos(x: real, y: real)
    requires x > 0.0 && y > 0.0
    ensures x * y > 0.0
  {
  }

  lemma MulNonNeg(x: real, y: real)
    requires x >= 0.0 && y >= 0.0
    ensures x * y >= 0.0
  {
  }

  lemma MulNonZero(x: real, y: real)
    requires x != 0.0 && y != 0.0
    ensures x * y != 0.0
  {
  }

  lemma MulLe(x: real, y: real, z: real)
    requires x <= y && z >= 0.0
    ensures x * z <= y * z
  {
    MulNonNeg(y - x, z);
    assert (y - x) * z == y * z - x * z;
  }

  lemma MulLt(x: real, y: real, z: real)
    requires x < y && z > 0.0
    ensures x * z < y * z
  {
    MulPos(y - x, z);
    assert (y - x) * z == y * z - x * z;
  }

  /** An equality may be multiplied through. */
  lemma Times(x: real, w: real, z: real)
    requires w == z
    ensures x * w == x * z
  {
  }

  /** A quotient is the number that times the divisor gives the dividend. */
  lemma DivIs(x: real, y: real, z: real)
    requires y != 0.0 && z * y == x
    ensures x / y == z
  {
  }

  lemma ScaleLe(d: real, z: real, y: real)
    requires y > 0.0
    ensures d <= z <==> d * y <= z * y
  {
    if d <= z {
      MulLe(d, z, y);
    } else {
      MulLt(z, d, y);
    }
  }

  lemma DivMul(x: real, y: real)
    requires y != 0.0
    ensures (x / y) * y == x
  {
  }

  lemma DivLe(x: real, y: real, z: real)
    requires y > 0.0
    ensures x / y <= z <==> x <= z * y
  {
    DivMul(x, y);
    ScaleLe(x / y, z, y);
  }

  lemma DivGe(x: real, y: real, z: real)
    requires y > 0.0
    ensures x / y >= z <==> x >= z * y
  {
    DivMul(x, y);
    ScaleLe(z, x / y, y);
  }
}
