/** The exact paired sign-flip test. */
module SignFlip {
  import opened Common
  import opened Vectors

  function Power2(n: nat): (r: nat)
    ensures r >= 1
  {
    if n == 0 then 1 else 2 * Power2(n - 1)
  }

  /** All vectors of n signs; the first sign changes slowest. */
  function Signs(n: nat): (r: seq<seq<real>>)
    ensures |r| == Power2(n)
    ensures forall k | 0 <= k < |r| :: |r[k]| == n
  {
    if n == 0 then [[]]
    else Prepend(-1.0, Signs(n - 1)) + Prepend(1.0, Signs(n - 1))
  }

  function Prepend(x: real, vs: seq<seq<real>>): (r: seq<seq<real>>)
    ensures |r| == |vs|
    ensures forall k | 0 <= k < |r| :: r[k] == [x] + vs[k]
  {
    seq(|vs|, k requires 0 <= k < |vs| => [x] + vs[k])
  }

  /** The sum of the differences with their signs changed. */
  function Signed(d: seq<real>, signs: seq<real>): real
    requires |d| == |signs|
  {
    if d == [] then 0.0 else Mul(d[0], signs[0]) + Signed(d[1..], signs[1..])
  }

  /** The absolute mean of n values with this sum. */
  function Statistic(sum: real, n: nat): real
    requires n > 0
  {
    Abs(sum / n as real)
  }

  /** How many of the sign vectors give a statistic of at least `level`, with `more` added to the sum. */
  function Extreme(d: seq<real>, vs: seq<seq<real>>, more: real, n: nat, level: real): nat
    requires n > 0 && forall k | 0 <= k < |vs| :: |vs[k]| == |d|
  {
    if vs == [] then 0
    else Extreme(d, DropLast(vs), more, n, level) + if Statistic(more + Signed(d, Last(vs)), n) >= level then 1 else 0
  }

  /** The same count over all sign vectors, one difference at a time. */
  function Count(d: seq<real>, more: real, n: nat, level: real): nat
    requires n > 0
  {
    if d == [] then (if Statistic(more, n) >= level then 1 else 0)
    else Count(d[1..], more - d[0], n, level) + Count(d[1..], more + d[0], n, level)
  }

  const TOLERANCE: real := 0.000000000000001

  function Level(d: seq<real>): real
    requires d != []
  {
    Statistic(Sum(d), |d|) - TOLERANCE
  }

  /** The number of sign vectors at least as extreme as the observed signs. */
  function ExtremeSigns(d: seq<real>): nat
    requires d != []
  {
    Count(d, 0.0, |d|, Level(d))
  }

  // ----- counting vector by vector and difference by difference agree -----

  lemma {:induction false} ExtremePrepended(d: seq<real>, x: real, vs: seq<seq<real>>, more: real, n: nat, level: real)
    requires n > 0 && d != [] && forall k | 0 <= k < |vs| :: |vs[k]| == |d| - 1
    ensures Extreme(d, Prepend(x, vs), more, n, level) == Extreme(d[1..], vs, more + Mul(d[0], x), n, level)
  {
    hide Statistic, Mul, Signed;
    if vs != [] {
      ExtremePrepended(d, x, DropLast(vs), more, n, level);
      PrependLast(x, vs);
      SignedPrepended(d, x, Last(vs));
      hide Prepend;
      assert more + (Mul(d[0], x) + Signed(d[1..], Last(vs))) == (more + Mul(d[0], x)) + Signed(d[1..], Last(vs));
    }
  }

  lemma PrependLast(x: real, vs: seq<seq<real>>)
    requires vs != []
    ensures Prepend(x, vs) != [] && DropLast(Prepend(x, vs)) == Prepend(x, DropLast(vs))
    ensures Last(Prepend(x, vs)) == [x] + Last(vs)
  {
  }

  lemma SignedPrepended(d: seq<real>, x: real, v: seq<real>)
    requires d != [] && |v| == |d| - 1
    ensures Signed(d, [x] + v) == Mul(d[0], x) + Signed(d[1..], v)
  {
    hide Mul;
    assert ([x] + v)[1..] == v;
  }

  lemma {:induction false} ExtremeAppend(
      d: seq<real>, us: seq<seq<real>>, vs: seq<seq<real>>, more: real, n: nat, level: real)
    requires n > 0 && (forall k | 0 <= k < |us| :: |us[k]| == |d|) && forall k | 0 <= k < |vs| :: |vs[k]| == |d|
    ensures Extreme(d, us + vs, more, n, level) == Extreme(d, us, more, n, level) + Extreme(d, vs, more, n, level)
  {
    if vs == [] {
      assert us + vs == us;
    } else {
      assert DropLast(us + vs) == us + DropLast(vs);
      ExtremeAppend(d, us, DropLast(vs), more, n, level);
    }
  }

  lemma ExtremeSplits(d: seq<real>, half: seq<seq<real>>, more: real, n: nat, level: real)
    requires n > 0 && d != [] && forall k | 0 <= k < |half| :: |half[k]| == |d| - 1
    ensures Extreme(d, Prepend(-1.0, half) + Prepend(1.0, half), more, n, level)
            == Extreme(d[1..], half, more - d[0], n, level) + Extreme(d[1..], half, more + d[0], n, level)
  {
    hide Extreme;
    ExtremeAppend(d, Prepend(-1.0, half), Prepend(1.0, half), more, n, level);
    ExtremePrepended(d, -1.0, half, more, n, level);
    ExtremePrepended(d, 1.0, half, more, n, level);
    assert Mul(d[0], -1.0) == -d[0] && Mul(d[0], 1.0) == d[0];
  }

  lemma NoSigns(more: real, n: nat, level: real)
    requires n > 0
    ensures Count([], more, n, level) == Extreme([], Signs(0), more, n, level)
  {
    hide Statistic;
    assert Last(Signs(0)) == [] && DropLast(Signs(0)) == [] && more + 0.0 == more;
  }

  lemma {:induction false} CountIsExtreme(d: seq<real>, more: real, n: nat, level: real)
    requires n > 0
    ensures Count(d, more, n, level) == Extreme(d, Signs(|d|), more, n, level)
  {
    if d == [] {
      hide *;
      NoSigns(more, n, level);
    } else {
      hide Extreme, Statistic, Power2;
      ExtremeSplits(d, Signs(|d| - 1), more, n, level);
      CountIsExtreme(d[1..], more - d[0], n, level);
      CountIsExtreme(d[1..], more + d[0], n, level);
    }
  }

  // ----- symmetry -----

  lemma StatisticEven(x: real, n: nat)
    requires n > 0
    ensures Statistic(-x, n) == Statistic(x, n)
  {
    assert -x / n as real == -(x / n as real);
  }

  lemma {:induction false} CountEven(d: seq<real>, more: real, n: nat, level: real)
    requires n > 0
    ensures Count(d, -more, n, level) == Count(d, more, n, level)
  {
    if d == [] {
      StatisticEven(more, n);
    } else {
      CountEven(d[1..], more - d[0], n, level);
      CountEven(d[1..], more + d[0], n, level);
      assert -more - d[0] == -(more + d[0]) && -more + d[0] == -(more - d[0]);
    }
  }

  lemma {:induction false} CountBounds(d: seq<real>, more: real, n: nat, level: real)
    requires n > 0
    ensures Count(d, more, n, level) <= Power2(|d|)
    ensures Statistic(more + Sum(d), n) >= level ==> Count(d, more, n, level) >= 1
  {
    if d != [] {
      CountBounds(d[1..], more - d[0], n, level);
      CountBounds(d[1..], more + d[0], n, level);
      SumFront(d);
      assert more + Sum(d) == (more + d[0]) + Sum(d[1..]);
    }
  }

  /** Sign vectors pair off under negation, and the observed signs are among the extreme ones: the count is
      even, at least two and at most all. */
  lemma CountRange(d: seq<real>)
    requires d != []
    ensures ExtremeSigns(d) % 2 == 0 && 2 <= ExtremeSigns(d) <= Power2(|d|)
  {
    var n, level := |d|, Level(d);
    var x, rest := d[0], d[1..];
    CountEven(rest, x, n, level);
    assert 0.0 - x == -x && 0.0 + x == x;
    assert Count(d, 0.0, n, level) == 2 * Count(rest, x, n, level);
    CountBounds(d, 0.0, n, level);
    assert 0.0 + Sum(d) == Sum(d);
  }

  function Negated(d: seq<real>): (r: seq<real>)
    ensures |r| == |d|
  {
    seq(|d|, k requires 0 <= k < |d| => -d[k])
  }

  lemma {:induction false} NegatedSum(d: seq<real>)
    ensures Sum(Negated(d)) == -Sum(d)
  {
    if d != [] {
      assert Negated(d)[1..] == Negated(d[1..]);
      NegatedSum(d[1..]);
      SumFront(d);
      SumFront(Negated(d));
    }
  }

  lemma {:induction false} NegatedCount(d: seq<real>, more: real, n: nat, level: real)
    requires n > 0
    ensures Count(Negated(d), more, n, level) == Count(d, more, n, level)
  {
    if d != [] {
      assert Negated(d)[1..] == Negated(d[1..]);
      NegatedCount(d[1..], more - d[0], n, level);
      NegatedCount(d[1..], more + d[0], n, level);
      assert more - -d[0] == more + d[0] && more + -d[0] == more - d[0];
    }
  }

  /** Swapping the two samples changes nothing. */
  lemma NegationKeepsCount(d: seq<real>)
    requires d != []
    ensures ExtremeSigns(Negated(d)) == ExtremeSigns(d)
  {
    NegatedSum(d);
    StatisticEven(Sum(d), |d|);
    NegatedCount(d, 0.0, |d|, Level(d));
  }

  function Without(d: seq<real>, x: real): (r: seq<real>)
    requires x in d
    ensures |r| == |d| - 1 && multiset(r) == multiset(d) - multiset{x}
  {
    assert d == [d[0]] + d[1..];
    if d[0] == x then d[1..] else [d[0]] + Without(d[1..], x)
  }

  lemma {:induction false} SumWithout(d: seq<real>, x: real)
    requires x in d
    ensures Sum(d) == x + Sum(Without(d, x))
  {
    SumFront(d);
    if d[0] != x {
      assert d == [d[0]] + d[1..];
      SumWithout(d[1..], x);
      SumFront(Without(d, x));
      assert Without(d, x)[1..] == Without(d[1..], x);
    }
  }

  lemma CountFirst(d: seq<real>, more: real, n: nat, level: real)
    requires n > 0 && d != []
    ensures Count(d, more, n, level) == Count(d[1..], more - d[0], n, level) + Count(d[1..], more + d[0], n, level)
  {
  }

  lemma WithoutFirst(d: seq<real>, x: real)
    requires x in d
    ensures if d[0] == x then Without(d, x) == d[1..]
            else
              && x in d[1..] && Without(d, x) != []
              && Without(d, x)[0] == d[0] && Without(d, x)[1..] == Without(d[1..], x)
  {
    assert d == [d[0]] + d[1..];
  }

  /** Any difference may be taken first. */
  lemma {:induction false} TakeFirst(d: seq<real>, x: real, more: real, n: nat, level: real)
    requires n > 0 && x in d
    ensures Count(d, more, n, level) == Count(Without(d, x), more - x, n, level)
          + Count(Without(d, x), more + x, n, level)
  {
    hide Count, Without;
    WithoutFirst(d, x);
    CountFirst(d, more, n, level);
    if d[0] != x {
      var y := d[0];
      TakeFirst(d[1..], x, more - y, n, level);
      TakeFirst(d[1..], x, more + y, n, level);
      CountFirst(Without(d, x), more - x, n, level);
      CountFirst(Without(d, x), more + x, n, level);
      assert more - y - x == more - x - y && more - y + x == more + x - y;
      assert more + y - x == more - x + y && more + y + x == more + x + y;
    }
  }

  lemma {:induction false} OrderFree(d: seq<real>, e: seq<real>, more: real, n: nat, level: real)
    requires n > 0 && multiset(d) == multiset(e)
    ensures Sum(d) == Sum(e) && Count(d, more, n, level) == Count(e, more, n, level)
  {
    if d == [] {
      assert |multiset(d)| == |d| && |multiset(e)| == |e|;
    } else {
      var x := d[0];
      assert d == [x] + d[1..];
      SumFront(d);
      assert x in multiset(e);
      SumWithout(e, x);
      TakeFirst(e, x, more, n, level);
      OrderFree(d[1..], Without(e, x), more - x, n, level);
      OrderFree(d[1..], Without(e, x), more + x, n, level);
    }
  }

  /** The order of the pairs does not matter. */
  lemma PermutationKeepsCount(d: seq<real>, e: seq<real>)
    requires d != [] && multiset(d) == multiset(e)
    ensures e != [] && ExtremeSigns(e) == ExtremeSigns(d)
  {
    assert |multiset(d)| == |d| && |multiset(e)| == |e|;
    OrderFree(d, e, 0.0, |d|, Level(d));
  }

  // ----- the test -----

  /** The exact test: the share of sign vectors that are at least as extreme, between two of them and all. */
  method SignFlipPValue(d: seq<real>) returns (p: real)
    requires 1 <= |d| <= 20
    ensures p == ExtremeSigns(d) as real / Power2(|d|) as real
    ensures 2.0 / Power2(|d|) as real <= p <= 1.0
  {
    var observed := Statistic(Sum(d), |d|);
    var vs := Signs(|d|);
    var count := 0;
    hide Signs, Statistic;
    for k := 0 to |vs|
      invariant count == Extreme(d, vs[..k], 0.0, |d|, Level(d))
    {
      assert DropLast(vs[..k + 1]) == vs[..k];
      if Statistic(0.0 + Signed(d, vs[k]), |d|) >= observed - TOLERANCE {
        count := count + 1;
      }
    }
    assert vs[..|vs|] == vs;
    CountIsExtreme(d, 0.0, |d|, Level(d));
    CountRange(d);
    hide *;
    p := count as real / |vs| as real;
    Ratio(count, |vs|);
  }

  lemma Ratio(count: nat, all: nat)
    requires 2 <= count <= all
    ensures 2.0 / all as real <= count as real / all as real <= 1.0
  {
  }

  /** The least p-value five pairs can give. */
  lemma FloorForFive(d: seq<real>)
    requires |d| == 5
    ensures ExtremeSigns(d) as real / Power2(5) as real >= 0.0625
  {
    CountRange(d);
    assert Power2(5) == 32;
  }
}
