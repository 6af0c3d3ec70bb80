/** Holm's adjustment of p-values for several hypotheses. */
module Holm {
  import opened Common
  import opened Samples

  predicate Acceptable(p: seq<real>) {
    forall i | 0 <= i < |p| :: 0.0 <= p[i] <= 1.0
  }

  /** An order of the hypotheses by p-value; ties may stand in any order. */
  ghost predicate Sorting(p: seq<real>, order: seq<nat>) {
    && multiset(order) == multiset(Indices(|p|))
    && (forall r | 0 <= r < |order| :: order[r] < |p|)
    && (forall r, t :: 0 <= r <= t < |order| ==> p[order[r]] <= p[order[t]])
  }

  /** How many of the listed hypotheses have a p-value of at least x. */
  function CountGe(p: seq<real>, s: seq<nat>, x: real): nat {
    if s == [] then 0 else CountGe(p, DropLast(s), x) + if Last(s) < |p| && p[Last(s)] >= x then 1 else 0
  }

  function AtLeast(p: seq<real>, x: real): nat {
    CountGe(p, Indices(|p|), x)
  }

  function Times(x: real, n: int): real {
    x * n as real
  }

  /** A p-value times the number of hypotheses at least as large, at most one. */
  function Scaled(p: seq<real>, x: real): real {
    Min(1.0, Times(x, AtLeast(p, x)))
  }

  /** The largest scaled value among the first n hypotheses whose p-value is at most x. */
  function MaxScaled(p: seq<real>, x: real, n: nat): (m: real)
    requires n <= |p|
    ensures 0.0 <= m
    ensures forall j | 0 <= j < n && p[j] <= x :: Scaled(p, p[j]) <= m
    ensures m == 0.0 || exists j :: 0 <= j < n && p[j] <= x && Scaled(p, p[j]) == m
  {
    if n == 0 then 0.0
    else
      var m := MaxScaled(p, x, n - 1);
      if p[n - 1] <= x && Scaled(p, p[n - 1]) > m then Scaled(p, p[n - 1]) else m
  }

  /** The adjusted value: the largest scaled value among the hypotheses with a p-value no larger. */
  function Adjusted(p: seq<real>, i: nat): real
    requires i < |p|
  {
    MaxScaled(p, p[i], |p|)
  }

  // ----- the procedure along the sorted order -----

  function Step(p: seq<real>, order: seq<nat>, r: nat): real
    requires r < |order| && order[r] < |p|
  {
    Times(p[order[r]], |p| - r)
  }

  /** The running maximum after ranks 0 to r - 1. */
  function Running(p: seq<real>, order: seq<nat>, r: nat): (m: real)
    requires r <= |order| && forall t | 0 <= t < |order| :: order[t] < |p|
    ensures 0.0 <= m
    ensures forall t | 0 <= t < r :: Min(1.0, Step(p, order, t)) <= m
    ensures m == 0.0 || exists t :: 0 <= t < r && m == Min(1.0, Step(p, order, t))
  {
    if r == 0 then 0.0 else Max(Running(p, order, r - 1), Min(1.0, Step(p, order, r - 1)))
  }

  lemma {:induction false} CountAppend(p: seq<real>, s: seq<nat>, t: seq<nat>, x: real)
    ensures CountGe(p, s + t, x) == CountGe(p, s, x) + CountGe(p, t, x)
  {
    if t == [] {
      assert s + t == s;
    } else {
      assert DropLast(s + t) == s + DropLast(t);
      CountAppend(p, s, DropLast(t), x);
    }
  }

  lemma {:induction false} CountRemove(p: seq<real>, s: seq<nat>, i: nat, x: real)
    requires i in s
    ensures CountGe(p, s, x) == CountGe(p, Remove(s, i), x) + CountGe(p, [i], x)
  {
    assert s == [s[0]] + s[1..];
    CountAppend(p, [s[0]], s[1..], x);
    if s[0] != i {
      CountAppend(p, [s[0]], Remove(s[1..], i), x);
      CountRemove(p, s[1..], i, x);
    }
  }

  lemma {:induction false} CountOfOrder(p: seq<real>, s: seq<nat>, t: seq<nat>, x: real)
    requires multiset(s) == multiset(t)
    ensures CountGe(p, s, x) == CountGe(p, t, x)
  {
    if s == [] {
      assert |multiset(s)| == |s| && |multiset(t)| == |t|;
    } else {
      var i := Last(s);
      assert s == DropLast(s) + [i];
      assert i in multiset(t);
      CountRemove(p, t, i, x);
      CountAppend(p, DropLast(s), [i], x);
      CountOfOrder(p, DropLast(s), Remove(t, i), x);
    }
  }

  lemma {:induction false} CountBounds(p: seq<real>, s: seq<nat>, x: real)
    ensures CountGe(p, s, x) <= |s|
    ensures (forall r | 0 <= r < |s| :: s[r] < |p| && p[s[r]] >= x) ==> CountGe(p, s, x) == |s|
    ensures (forall r | 0 <= r < |s| :: s[r] < |p| && p[s[r]] < x) ==> CountGe(p, s, x) == 0
  {
    if s != [] {
      CountBounds(p, DropLast(s), x);
    }
  }

  /** Everything from rank r on is at least as large as the value at rank r. */
  lemma TailCount(p: seq<real>, order: seq<nat>, r: nat)
    requires Sorting(p, order) && r < |order|
    ensures |order| == |p| && |p| - r <= AtLeast(p, p[order[r]])
    ensures (forall t | 0 <= t < r :: p[order[t]] < p[order[r]]) ==> |p| - r == AtLeast(p, p[order[r]])
  {
    var x := p[order[r]];
    OrderLength(p, order);
    CountOfOrder(p, order, Indices(|p|), x);
    SplitAt(p, order, r);
    hide CountGe, Indices, Sorting;
    CountSplit(p, order, r, x);
    CountBounds(p, order[..r], x);
    CountBounds(p, order[r..], x);
  }

  lemma CountSplit(p: seq<real>, order: seq<nat>, r: nat, x: real)
    requires r <= |order|
    ensures CountGe(p, order, x) == CountGe(p, order[..r], x) + CountGe(p, order[r..], x)
  {
    hide CountGe;
    assert order == order[..r] + order[r..];
    CountAppend(p, order[..r], order[r..], x);
  }

  lemma SplitAt(p: seq<real>, order: seq<nat>, r: nat)
    requires Sorting(p, order) && r < |order|
    ensures forall k | 0 <= k < |order[r..]| :: order[r..][k] < |p| && p[order[r..][k]] >= p[order[r]]
    ensures forall k | 0 <= k < |order[..r]| :: order[..r][k] == order[k]
    ensures forall k | 0 <= k < r :: order[k] < |p|
  {
    assert forall k | 0 <= k < |order| - r :: order[r..][k] == order[r + k];
  }

  lemma OrderLength(p: seq<real>, order: seq<nat>)
    requires multiset(order) == multiset(Indices(|p|))
    ensures |order| == |p|
  {
    assert |multiset(order)| == |order| && |multiset(Indices(|p|))| == |p|;
  }

  /** The first rank with the same p-value. */
  function FirstTie(p: seq<real>, order: seq<nat>, r: nat): (f: nat)
    requires Sorting(p, order) && r < |order|
    ensures f <= r && p[order[f]] == p[order[r]]
    ensures forall t | 0 <= t < f :: p[order[t]] < p[order[r]]
  {
    if r > 0 && p[order[r - 1]] == p[order[r]] then FirstTie(p, order, r - 1) else r
  }

  lemma ScaleUp(x: real, a: int, b: int)
    requires 0.0 <= x && a <= b
    ensures Times(x, a) <= Times(x, b)
  {
    assert x * (b - a) as real >= 0.0;
  }

  lemma Ranked(p: seq<real>, order: seq<nat>, i: nat) returns (r: nat)
    requires Sorting(p, order) && i < |p|
    ensures r < |order| && order[r] == i
  {
    assert Indices(|p|)[i] == i;
    assert i in multiset(order);
    r :| 0 <= r < |order| && order[r] == i;
  }

  /** No step up to rank r exceeds the adjusted value there. */
  lemma StepBelowAdjusted(p: seq<real>, order: seq<nat>, r: nat, t: nat)
    requires Acceptable(p) && Sorting(p, order) && t <= r < |order|
    ensures Min(1.0, Step(p, order, t)) <= Adjusted(p, order[r])
  {
    hide AtLeast, MaxScaled, Times, Indices;
    TailCount(p, order, t);
    ScaleUp(p[order[t]], |p| - t, AtLeast(p, p[order[t]]));
    assert Scaled(p, p[order[t]]) <= Adjusted(p, order[r]);
  }

  /** The scaled value of every smaller p-value is a step up to rank r. */
  lemma ScaledBelowRunning(p: seq<real>, order: seq<nat>, r: nat, j: nat)
    requires Acceptable(p) && Sorting(p, order) && r < |order| && j < |p| && p[j] <= p[order[r]]
    ensures Scaled(p, p[j]) <= Running(p, order, r + 1)
  {
    hide AtLeast, Running, Times, Indices;
    var t := Ranked(p, order, j);
    var f := FirstTie(p, order, t);
    TailCount(p, order, f);
    assert f <= r;
    assert Step(p, order, f) == Times(p[j], AtLeast(p, p[j]));
  }

  /** The running maximum at a hypothesis' rank is its adjusted value, whatever the order of ties. */
  lemma RunningIsAdjusted(p: seq<real>, order: seq<nat>, r: nat)
    requires Acceptable(p) && Sorting(p, order) && r < |order|
    ensures Running(p, order, r + 1) == Adjusted(p, order[r])
  {
    var run, adj := Running(p, order, r + 1), Adjusted(p, order[r]);
    forall t | 0 <= t <= r
      ensures Min(1.0, Step(p, order, t)) <= adj
    {
      StepBelowAdjusted(p, order, r, t);
    }
    forall j | 0 <= j < |p| && p[j] <= p[order[r]]
      ensures Scaled(p, p[j]) <= run
    {
      ScaledBelowRunning(p, order, r, j);
    }
    hide Running, MaxScaled, Scaled, Step, Sorting, Acceptable;
  }

  /** The adjustment loop. */
  method HolmAdjust(p: seq<real>, order: seq<nat>) returns (r: Option<seq<real>>)
    requires Sorting(p, order)
    ensures r.None? <==> !Acceptable(p)
    ensures r.Some? ==> |r.value| == |p| && forall i | 0 <= i < |p| :: r.value[i] == Adjusted(p, i)
  {
    if !Acceptable(p) {
      return None;
    }
    OrderLength(p, order);
    assert forall t | 0 <= t < |order| :: order[t] < |p|;
    var adjusted := new real[|p|](_ => 0.0);
    var running := 0.0;
    RunningStart(p, order);
    assert FilledTo(adjusted[..], p, order, 0);
    hide Adjusted, Times, Running, Sorting, Acceptable, FilledTo;
    for rank := 0 to |order|
      invariant running == Running(p, order, rank) && FilledTo(adjusted[..], p, order, rank)
    {
      running := Max(running, Min(1.0, Times(p[order[rank]], |p| - rank)));
      FillOne(p, order, rank, adjusted[..], running);
      adjusted[order[rank]] := running;
    }
    AllFilled(p, order, adjusted[..]);
    r := Some(adjusted[..]);
  }

  /** The hypotheses of the first ranks have their adjusted values. */
  ghost predicate FilledTo(v: seq<real>, p: seq<real>, order: seq<nat>, n: nat) {
    && |v| == |p|
    && forall t | 0 <= t < n && t < |order| && order[t] < |p| :: v[order[t]] == Adjusted(p, order[t])
  }

  lemma FillOne(p: seq<real>, order: seq<nat>, rank: nat, v: seq<real>, running: real)
    requires Acceptable(p) && Sorting(p, order) && rank < |order| && FilledTo(v, p, order, rank)
    requires running == Max(Running(p, order, rank), Min(1.0, Times(p[order[rank]], |p| - rank)))
    ensures running == Running(p, order, rank + 1)
    ensures FilledTo(v[order[rank] := running], p, order, rank + 1)
  {
    hide Adjusted, Times, Running;
    RunningStep(p, order, rank);
    RunningIsAdjusted(p, order, rank);
    hide Sorting, Acceptable;
  }

  lemma AllFilled(p: seq<real>, order: seq<nat>, v: seq<real>)
    requires Sorting(p, order) && FilledTo(v, p, order, |order|)
    ensures |v| == |p| && forall i | 0 <= i < |p| :: v[i] == Adjusted(p, i)
  {
    forall i | 0 <= i < |p|
      ensures v[i] == Adjusted(p, i)
    {
      var t := Ranked(p, order, i);
    }
  }

  lemma RunningStart(p: seq<real>, order: seq<nat>)
    requires forall t | 0 <= t < |order| :: order[t] < |p|
    ensures Running(p, order, 0) == 0.0
  {
  }

  lemma RunningStep(p: seq<real>, order: seq<nat>, r: nat)
    requires r < |order| && forall t | 0 <= t < |order| :: order[t] < |p|
    ensures Running(p, order, r + 1) == Max(Running(p, order, r), Min(1.0, Times(p[order[r]], |p| - r)))
  {
  }

  // ----- what the adjusted values are for -----

  /** Smaller p-values have smaller adjusted values; equal ones have equal ones; nothing falls below its p-value. */
  lemma AdjustedInOrder(p: seq<real>, i: nat, j: nat)
    requires Acceptable(p) && i < |p| && j < |p| && p[i] <= p[j]
    ensures Adjusted(p, i) <= Adjusted(p, j) && (p[i] == p[j] ==> Adjusted(p, i) == Adjusted(p, j))
    ensures p[i] <= Adjusted(p, i) <= 1.0
  {
    SelfCounts(p, i);
    ScaleUp(p[i], 1, AtLeast(p, p[i]));
    assert Times(p[i], 1) == p[i];
    hide AtLeast, Times;
    assert Scaled(p, p[i]) <= Adjusted(p, i);
  }

  lemma SelfCounts(p: seq<real>, i: nat)
    requires i < |p|
    ensures AtLeast(p, p[i]) >= 1
  {
    assert Indices(|p|)[i] == i;
    CountRemove(p, Indices(|p|), i, p[i]);
    assert DropLast([i]) == [];
  }

  /** Permuting the hypotheses permutes the adjusted values. */
  lemma AdjustedEquivariant(p: seq<real>, q: seq<real>, perm: seq<nat>, i: nat)
    requires Acceptable(p) && |q| == |p| == |perm| && multiset(perm) == multiset(Indices(|p|))
    requires forall k | 0 <= k < |p| :: perm[k] < |p| && q[k] == p[perm[k]]
    requires i < |p|
    ensures Adjusted(q, i) == Adjusted(p, perm[i])
  {
    forall x
      ensures AtLeast(q, x) == AtLeast(p, x)
      ensures Scaled(q, x) == Scaled(p, x)
    {
      CountThrough(p, q, perm, |p|, x);
      assert perm[..|p|] == perm;
      CountOfOrder(p, perm, Indices(|p|), x);
    }
    hide AtLeast, Scaled;
    var x := q[i];
    var a, b := MaxScaled(q, x, |q|), MaxScaled(p, x, |p|);
    forall k | 0 <= k < |q| && q[k] <= x
      ensures Scaled(q, q[k]) <= b
    {
      assert p[perm[k]] == q[k];
    }
    forall j | 0 <= j < |p| && p[j] <= x
      ensures Scaled(p, p[j]) <= a
    {
      assert Indices(|p|)[j] == j;
      assert j in multiset(perm);
      var k :| 0 <= k < |perm| && perm[k] == j;
      assert q[k] == p[j];
    }
  }

  lemma {:induction false} CountThrough(p: seq<real>, q: seq<real>, perm: seq<nat>, n: nat, x: real)
    requires n <= |q| == |perm| && forall k | 0 <= k < |perm| :: perm[k] < |p| && q[k] == p[perm[k]]
    ensures CountGe(q, Indices(n), x) == CountGe(p, perm[..n], x)
  {
    if n > 0 {
      CountThrough(p, q, perm, n - 1, x);
      assert DropLast(Indices(n)) == Indices(n - 1) && DropLast(perm[..n]) == perm[..n - 1];
    }
  }

  /** How many hypotheses the step-down procedure rejects at level alpha: it goes up the sorted p-values and
      stops at the first one, at rank r, with p * (n - r) above the level. */
  function Rejections(p: seq<real>, order: seq<nat>, alpha: real, r: nat): nat
    requires r <= |order| && forall t | 0 <= t < |order| :: order[t] < |p|
    decreases |order| - r
  {
    if r == |order| || Step(p, order, r) > alpha then r else Rejections(p, order, alpha, r + 1)
  }

  lemma {:induction false} RejectionsAre(p: seq<real>, order: seq<nat>, alpha: real, r: nat, t: nat)
    requires r <= t < |order| && forall k | 0 <= k < |order| :: order[k] < |p|
    ensures t < Rejections(p, order, alpha, r) <==> forall k | r <= k <= t :: Step(p, order, k) <= alpha
    decreases |order| - r
  {
    hide Step;
    if Step(p, order, r) <= alpha && r < t {
      RejectionsAre(p, order, alpha, r + 1, t);
    } else if Step(p, order, r) <= alpha {
      RejectionsBeyond(p, order, alpha, r + 1);
    }
  }

  lemma {:induction false} RejectionsBeyond(p: seq<real>, order: seq<nat>, alpha: real, r: nat)
    requires r <= |order| && forall k | 0 <= k < |order| :: order[k] < |p|
    ensures r <= Rejections(p, order, alpha, r)
    decreases |order| - r
  {
    if r < |order| && Step(p, order, r) <= alpha {
      RejectionsBeyond(p, order, alpha, r + 1);
    }
  }

  /** A hypothesis has an adjusted value of at most alpha exactly when the step-down procedure rejects it. */
  lemma AdjustedIsStepDown(p: seq<real>, order: seq<nat>, alpha: real, r: nat)
    requires Acceptable(p) && Sorting(p, order) && r < |order| && 0.0 <= alpha < 1.0
    ensures Adjusted(p, order[r]) <= alpha <==> r < Rejections(p, order, alpha, 0)
  {
    RunningIsAdjusted(p, order, r);
    RejectionsAre(p, order, alpha, 0, r);
    var run := Running(p, order, r + 1);
    hide Running, Step, Adjusted, Rejections;
    if run <= alpha {
      forall k | 0 <= k <= r
        ensures Step(p, order, k) <= alpha
      {
        assert Min(1.0, Step(p, order, k)) <= run;
      }
    }
  }

  lemma {:induction false} SmallestOf(p: seq<real>, I: set<nat>) returns (j: nat)
    requires I != {} && forall i | i in I :: i < |p|
    ensures j in I && forall i | i in I :: p[j] <= p[i]
  {
    var i :| i in I;
    if I == {i} {
      j := i;
    } else {
      assert I - {i} != {} by {
        assert I - {i} == {} ==> I == {i};
      }
      j := SmallestOf(p, I - {i});
      if p[i] < p[j] {
        j := i;
      }
    }
  }

  /** A set of hypotheses with p-values of at least x is no larger than the count of them all. */
  lemma {:induction false} SetWithin(p: seq<real>, I: set<nat>, x: real, n: nat)
    requires n <= |p| && forall i | i in I :: i < n && p[i] >= x
    ensures |I| <= CountGe(p, Indices(n), x)
  {
    if n == 0 {
      assert I == {} by { assert forall i | i in I :: i < 0; }
    } else {
      SetWithin(p, I - {n - 1}, x, n - 1);
      assert DropLast(Indices(n)) == Indices(n - 1);
      if n - 1 in I {
        assert |I - {n - 1}| == |I| - 1;
      } else {
        assert I - {n - 1} == I;
      }
    }
  }

  /** Why the adjustment controls the family-wise error: whenever a member of a set I of hypotheses is rejected
      at level alpha, Bonferroni's test of the whole of I rejects at that level too. */
  lemma RejectionPassesBonferroni(p: seq<real>, I: set<nat>, i: nat, alpha: real) returns (j: nat)
    requires Acceptable(p) && alpha < 1.0
    requires i in I && (forall k | k in I :: k < |p|) && Adjusted(p, i) <= alpha
    ensures j in I && Times(p[j], |I|) <= alpha
  {
    j := SmallestOf(p, I);
    SetWithin(p, I, p[j], |p|);
    var all := AtLeast(p, p[j]);
    assert Scaled(p, p[j]) <= Adjusted(p, i);
    ScaleUp(p[j], |I|, all);
    hide Adjusted, AtLeast, CountGe;
    assert Times(p[j], all) <= alpha;
  }
}
