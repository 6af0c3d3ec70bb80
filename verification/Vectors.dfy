/** Vectors of reals: products, sums and scalar products. */
module Vectors {
  import opened Common

  type Vector = seq<real>

  /** A product, by name: the proofs use its laws below instead of its arithmetic. */
  function Mul(a: real, b: real): real {
    a * b
  }

  lemma MulLaws(a: real, b: real, c: real)
    ensures Mul(a, b) == Mul(b, a)
    ensures Mul(a, b + c) == Mul(a, b) + Mul(a, c)
    ensures Mul(a, Mul(b, c)) == Mul(b, Mul(a, c))
    ensures Mul(a, 0.0) == 0.0
  {
  }

  lemma MulSquare(a: real)
    ensures Mul(a, a) >= 0.0 && (Mul(a, a) == 0.0 ==> a == 0.0)
  {
    hide Mul;
    if a == 0.0 {
      MulLaws(a, a, a);
    } else if a < 0.0 {
      NegativeTimesNegative(a);
    } else if a > 0.0 {
      PositiveTimesPositive(a, a);
    }
  }

  lemma PositiveTimesPositive(a: real, b: real)
    requires a > 0.0 && b > 0.0
    ensures Mul(a, b) > 0.0
  {
  }

  lemma NegativeTimesNegative(a: real)
    requires a < 0.0
    ensures Mul(a, a) > 0.0
  {
    PositiveTimesPositive(-a, -a);
    assert Mul(-a, -a) == Mul(a, a);
  }

  lemma MulPositive(a: real, b: real)
    requires a > 0.0 && b >= 0.0
    ensures Mul(a, b) >= 0.0 && (Mul(a, b) == 0.0 ==> b == 0.0)
  {
  }

  lemma MulMinus(a: real)
    ensures Mul(-1.0, a) == -a
  {
  }

  function Dot(u: Vector, v: Vector): real
    requires |u| == |v|
  {
    if u == [] then 0.0 else Dot(DropLast(u), DropLast(v)) + Mul(Last(u), Last(v))
  }

  function Plus(u: Vector, v: Vector): (r: Vector)
    requires |u| == |v|
    ensures |r| == |u|
  {
    seq(|u|, i requires 0 <= i < |u| => u[i] + v[i])
  }

  function Times(c: real, v: Vector): (r: Vector)
    ensures |r| == |v|
  {
    seq(|v|, i requires 0 <= i < |v| => Mul(c, v[i]))
  }

  function Zero(n: nat): (r: Vector)
    ensures |r| == n
  {
    seq(n, _ => 0.0)
  }

  // ----- vector algebra -----

  lemma {:induction false} DotSymmetric(u: Vector, v: Vector)
    requires |u| == |v|
    ensures Dot(u, v) == Dot(v, u)
  {
    if u != [] {
      DotSymmetric(DropLast(u), DropLast(v));
      MulLaws(Last(u), Last(v), 0.0);
      hide Mul;
    }
  }

  lemma {:induction false} DotPlus(u: Vector, v: Vector, w: Vector)
    requires |u| == |v| == |w|
    ensures Dot(u, Plus(v, w)) == Dot(u, v) + Dot(u, w)
  {
    hide Mul;
    if u != [] {
      assert DropLast(Plus(v, w)) == Plus(DropLast(v), DropLast(w));
      DotPlus(DropLast(u), DropLast(v), DropLast(w));
      MulLaws(Last(u), Last(v), Last(w));
    }
  }

  lemma {:induction false} DotTimes(u: Vector, c: real, v: Vector)
    requires |u| == |v|
    ensures Dot(u, Times(c, v)) == Mul(c, Dot(u, v))
  {
    hide Mul;
    if u == [] {
      MulLaws(c, 0.0, 0.0);
    } else {
      assert DropLast(Times(c, v)) == Times(c, DropLast(v));
      DotTimes(DropLast(u), c, DropLast(v));
      MulLaws(Last(u), c, Last(v));
      MulLaws(c, Dot(DropLast(u), DropLast(v)), Mul(Last(u), Last(v)));
    }
  }

  lemma DotSnoc(u: Vector, a: real, v: Vector, b: real)
    requires |u| == |v|
    ensures Dot(u + [a], v + [b]) == Dot(u, v) + Mul(a, b)
  {
    hide Mul;
    assert DropLast(u + [a]) == u && DropLast(v + [b]) == v;
  }

  lemma {:induction false} DotZero(u: Vector)
    ensures Dot(u, Zero(|u|)) == 0.0
  {
    hide Mul;
    if u != [] {
      assert DropLast(Zero(|u|)) == Zero(|u| - 1);
      DotZero(DropLast(u));
      MulLaws(Last(u), 0.0, 0.0);
    }
  }

  lemma {:induction false} DotNonnegative(v: Vector)
    ensures Dot(v, v) >= 0.0
    ensures Dot(v, v) == 0.0 ==> v == Zero(|v|)
  {
    hide Mul;
    if v != [] {
      DotNonnegative(DropLast(v));
      MulSquare(Last(v));
      assert v == DropLast(v) + [Last(v)];
      assert Zero(|v|) == Zero(|v| - 1) + [0.0];
    }
  }
}
