/**
 Facts about real products, quotients and integer powers. The price law of the macro
 model raises a ratio to `1/delta` with `delta = -20`, so what it needs is the
 twentieth power, that the power is strictly increasing, and that it distributes over
 products.
 */
module Powers {

  lemma ProductPositive(x: real, y: real)
    requires x > 0.0
    ensures x * y > 0.0 <==> y > 0.0
    ensures x * y < 0.0 <==> y < 0.0
  {
  }

  lemma ProductOrder(x: real, y: real, z: real)
    requires z > 0.0
    ensures x < y <==> x * z < y * z
    ensures x == y <==> x * z == y * z
  {
    ProductPositive(z, y - x);
    assert z * (y - x) == y * z - x * z;
  }

  // The quotient is the number that gives `a` back, and compares as the products do.
  lemma QuotientOrder(a: real, b: real, c: real)
    requires b > 0.0
    ensures (a / b) * b == a
    ensures a / b < c <==> a < c * b
    ensures a / b == c <==> a == c * b
  {
    ProductOrder(a / b, c, b);
  }

  function Pow(x: real, n: nat): (r: real)
    ensures x > 0.0 ==> r > 0.0
  {
    if n == 0 then 1.0 else x * Pow(x, n - 1)
  }

  lemma {:induction false} PowOfProduct(x: real, y: real, n: nat)
    ensures Pow(x * y, n) == Pow(x, n) * Pow(y, n)
  {
    if n > 0 {
      PowOfProduct(x, y, n - 1);
      var a, b := Pow(x, n - 1), Pow(y, n - 1);
      assert (x * y) * (a * b) == (x * a) * (y * b);
    }
  }

  lemma {:induction false} PowStrictlyIncreasing(x: real, y: real, n: nat)
    requires 0.0 < x < y
    ensures Pow(x, n) <= Pow(y, n)
    ensures n > 0 ==> Pow(x, n) < Pow(y, n)
  {
    if n > 0 {
      PowStrictlyIncreasing(x, y, n - 1);
      var a, b := Pow(x, n - 1), Pow(y, n - 1);
      ProductOrder(x, y, a);
      ProductOrder(a, b, y);
      calc {
        Pow(x, n);
        x * a;
      <
        y * a;
      <=
        y * b;
        Pow(y, n);
      }
    }
  }

  lemma PowOrder(x: real, y: real, n: nat)
    requires x > 0.0 && y > 0.0 && n > 0
    ensures x < y <==> Pow(x, n) < Pow(y, n)
    ensures x == y <==> Pow(x, n) == Pow(y, n)
  {
    if x < y {
      PowStrictlyIncreasing(x, y, n);
    } else if y < x {
      PowStrictlyIncreasing(y, x, n);
    }
  }
}
