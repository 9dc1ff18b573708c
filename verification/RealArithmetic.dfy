/** Facts about products and quotients of reals, one at a time. */
module RealArithmetic {

  lemma ScaleOrder(a: real, b: real, scale: real)
    requires a <= b && scale > 0.0
    ensures a * scale <= b * scale
  {
  }

  lemma StrictScale(a: real, b: real, scale: real)
    requires a < b && scale > 0.0
    ensures a * scale < b * scale
  {
  }

  lemma Unscale(a: real, b: real, scale: real)
    requires scale > 0.0 && a * scale < b * scale
    ensures a < b
  {
    if a >= b {
      ScaleOrder(b, a, scale);
    }
  }

  lemma DivOrder(a: real, b: real, scale: real)
    requires a <= b && scale > 0.0
    ensures a / scale <= b / scale
  {
  }

  lemma FloorOrder(a: real, b: real)
    requires a <= b
    ensures a.Floor <= b.Floor && a.Floor as real <= b.Floor as real
  {
    assert a.Floor as real < (b.Floor + 1) as real;
  }

  lemma DistributeSum(a: real, b: real, c: real)
    ensures (a + b) * c == a * c + b * c
  {
  }

  lemma DistributeDifference(a: real, b: real, c: real)
    ensures (a - b) * c == a * c - b * c
  {
  }

  lemma Divides(x: real, y: real)
    requires x != 0.0
    ensures x * y / x == y
  {
  }

  lemma QuotientIs(x: real, y: real, product: real)
    requires x != 0.0 && product == y * x
    ensures product / x == y
  {
    Divides(x, y);
  }

  lemma QuotientSign(x: real, y: real)
    requires x >= 0.0 && y != 0.0
    ensures (x / y) * y == x
    ensures if y > 0.0 then x / y >= 0.0 else x / y <= 0.0
  {
  }

  lemma QuotientPositive(x: real, y: real)
    requires x > 0.0 && y > 0.0
    ensures x / y > 0.0 && (x / y) * y == x
  {
  }
}
