/** The linear bandit with forced escaping: it keeps the ridge matrix and vector, updated in place. */
module LinUCB {
  import opened Common
  import opened Vectors
  import opened Ridge

  datatype Chosen = NoAction | Action(index: nat)

  /** An action that can be chosen: its features and the seconds its front end takes. */
  datatype Candidate = Candidate(x: Vector, frontend: real)

  /** What the linear solver returns: the estimated weights and, for every candidate, the solution for its
      features and the square root of its confidence width. */
  datatype Solved = Solved(theta: Vector, ys: seq<Vector>, roots: seq<real>)

  /** The answers solve the systems of the observations. */
  ghost predicate Answers(ridge: real, n: nat, obs: seq<Sample>, cands: seq<Candidate>, a: Solved)
    requires Fits(n, obs)
  {
    && |a.ys| == |cands| == |a.roots|
    && Solves(ridge, n, obs, a.theta, Target(n, obs))
    && (forall k | 0 <= k < |cands| :: Solves(ridge, n, obs, a.ys[k], cands[k].x))
    && (forall k | 0 <= k < |cands| ::
          0.0 <= a.roots[k] && Mul(a.roots[k], a.roots[k]) == Max(Dot(cands[k].x, a.ys[k]), 0.0))
  }

  /** The lower confidence bound of a candidate's latency. */
  function ScoreOf(alpha: real, c: Candidate, theta: Vector, root: real): real
    requires |c.x| == |theta|
  {
    c.frontend + Dot(c.x, theta) - Mul(alpha, root)
  }

  function ScoresOf(alpha: real, cands: seq<Candidate>, a: Solved): (r: seq<real>)
    requires |a.roots| == |cands| && forall k | 0 <= k < |cands| :: |cands[k].x| == |a.theta|
    ensures |r| == |cands|
  {
    seq(|cands|, k requires 0 <= k < |cands| => ScoreOf(alpha, cands[k], a.theta, a.roots[k]))
  }

  lemma SquareRootUnique(a: real, b: real)
    requires 0.0 <= a && 0.0 <= b && Mul(a, a) == Mul(b, b)
    ensures a == b
  {
    if a < b {
      PositiveTimesPositive(b - a, b + a);
    } else if b < a {
      PositiveTimesPositive(a - b, a + b);
    }
    MulLaws(b - a, b, a);
    assert Mul(b - a, b + a) == Mul(b, b) - Mul(a, a);
    assert Mul(a - b, a + b) == Mul(a, a) - Mul(b, b);
  }

  /** The scores depend on the observations and the candidates alone, not on how the systems were solved; no score
      exceeds the estimated latency. */
  lemma ScoresDetermined(
      ridge: real, n: nat, obs: seq<Sample>, alpha: real, cands: seq<Candidate>, a: Solved, b: Solved)
    requires ridge > 0.0 && alpha >= 0.0 && Fits(n, obs)
    requires Answers(ridge, n, obs, cands, a) && Answers(ridge, n, obs, cands, b)
    ensures ScoresOf(alpha, cands, a) == ScoresOf(alpha, cands, b)
    ensures forall k | 0 <= k < |cands| :: ScoresOf(alpha, cands, a)[k] <= cands[k].frontend + Dot(cands[k].x, a.theta)
  {
    SolutionUnique(ridge, n, obs, Target(n, obs), a.theta, b.theta);
    hide Mul, Dot;
    forall k | 0 <= k < |cands|
      ensures a.roots[k] == b.roots[k] && Mul(alpha, a.roots[k]) >= 0.0
    {
      SolutionUnique(ridge, n, obs, cands[k].x, a.ys[k], b.ys[k]);
      SquareRootUnique(a.roots[k], b.roots[k]);
      NonnegativeTimes(alpha, a.roots[k]);
    }
  }

  lemma NonnegativeTimes(a: real, b: real)
    requires 0.0 <= a && 0.0 <= b
    ensures 0.0 <= Mul(a, b)
  {
  }

  /** A score; None is plus infinity. */
  type Score = Option<real>

  predicate Less(s: Score, t: Score) {
    s.Some? && (t.None? || s.value < t.value)
  }

  /** The scores with the fully local action ruled out on every `interval`-th round. */
  function Escaped(scores: seq<real>, local: Option<nat>, round: nat, interval: Positive): (r: seq<Score>)
    ensures |r| == |scores|
  {
    seq(|scores|, k requires 0 <= k < |scores| =>
      if local == Some(k) && round % interval == 0 then None else Some(scores[k]))
  }

  class LinUCBE {
    const dimension: Positive
    const ridge: real
    const alpha: real
    const interval: Positive
    const a: array2<real>
    const b: array<real>
    var updates: nat
    ghost var obs: seq<Sample>

    /** The matrix and the vector are those of the observations so far. */
    ghost predicate Valid()
      reads this, a, b
    {
      && ridge > 0.0 && alpha >= 0.0
      && a.Length0 == dimension && a.Length1 == dimension && b.Length == dimension
      && updates == |obs| && Fits(dimension, obs)
      && (forall i, j | 0 <= i < dimension && 0 <= j < dimension :: a[i, j] == Entry(ridge, dimension, obs, i, j))
      && b[..] == Target(dimension, obs)
    }

    constructor (dimension: Positive, alpha: real, ridge: real, interval: Positive)
      requires ridge > 0.0 && alpha >= 0.0
      ensures Valid() && obs == [] && fresh(a) && fresh(b)
      ensures this.dimension == dimension && this.alpha == alpha && this.ridge == ridge && this.interval == interval
    {
      this.dimension, this.alpha, this.ridge, this.interval := dimension, alpha, ridge, interval;
      a := new real[dimension, dimension]((i, j) => if i == j then ridge else 0.0);
      b := new real[dimension](_ => 0.0);
      updates := 0;
      obs := [];
    }

    /** Absorbs an observation: a rank-one update of the matrix and an update of the vector. A negative latency
        is refused and changes nothing. */
    method Observe(x: seq<real>, time: real) returns (ok: bool)
      requires Valid() && |x| == dimension
      modifies this, a, b
      ensures Valid() && ok == (time >= 0.0)
      ensures obs == if ok then old(obs) + [Sample(x, time)] else old(obs)
    {
      if time < 0.0 {
        return false;
      }
      ghost var o := Sample(x, time);
      AddOuter(x, o);
      AddTimes(x, time, o);
      updates := updates + 1;
      obs := obs + [o];
      return true;
    }

    method AddOuter(x: seq<real>, ghost o: Sample)
      requires Valid() && |x| == dimension && o.x == x
      modifies a
      ensures Fits(dimension, obs + [o])
      ensures forall i, j | 0 <= i < dimension && 0 <= j < dimension ::
            a[i, j] == Entry(ridge, dimension, obs + [o], i, j)
    {
      assert DropLast(obs + [o]) == obs && Last(obs + [o]) == o;
      hide Mul;
      for i := 0 to dimension
        invariant forall k, j | 0 <= k < i && 0 <= j < dimension :: a[k, j] == Entry(ridge, dimension, obs + [o], k, j)
        invariant forall k, j | i <= k < dimension && 0 <= j < dimension ::
              a[k, j] == Entry(ridge, dimension, obs, k, j)
      {
        for j := 0 to dimension
          invariant forall k, l | 0 <= k < i && 0 <= l < dimension ::
                a[k, l] == Entry(ridge, dimension, obs + [o], k, l)
          invariant forall k, l | i < k < dimension && 0 <= l < dimension ::
                a[k, l] == Entry(ridge, dimension, obs, k, l)
          invariant forall l | 0 <= l < j :: a[i, l] == Entry(ridge, dimension, obs + [o], i, l)
          invariant forall l | j <= l < dimension :: a[i, l] == Entry(ridge, dimension, obs, i, l)
        {
          a[i, j] := a[i, j] + Mul(x[i], x[j]);
        }
      }
    }

    method AddTimes(x: seq<real>, time: real, ghost o: Sample)
      requires |x| == dimension == b.Length && o == Sample(x, time) && Fits(dimension, obs)
      requires Fits(dimension, obs + [o])
      requires b[..] == Target(dimension, obs)
      modifies b
      ensures b[..] == Target(dimension, obs + [o])
    {
      hide Mul;
      for i := 0 to dimension
        invariant forall k | 0 <= k < i :: b[k] == old(b[k]) + Mul(time, x[k])
        invariant forall k | i <= k < dimension :: b[k] == old(b[k])
      {
        b[i] := b[i] + Mul(time, x[i]);
      }
      assert DropLast(obs + [o]) == obs && Last(obs + [o]) == o;
      assert forall k | 0 <= k < dimension :: Target(dimension, obs + [o])[k] == old(b[..])[k] + Mul(time, x[k]);
    }

    /** The first candidate of least score, when the fully local one has been ruled out if its turn has come. */
    method Choose(cands: seq<Candidate>, answers: Solved, round: nat, local: Option<nat>) returns (r: Chosen)
      requires Valid() && Answers(ridge, dimension, obs, cands, answers)
      requires local.Some? ==> local.value < |cands|
      ensures FirstLeast(Escaped(ScoresOf(alpha, cands, answers), local, round, interval), r)
      ensures r.Action? && round % interval == 0 ==> local != Some(r.index)
    {
      var scores := ScoresOf(alpha, cands, answers);
      hide ScoresOf, Answers, Valid;
      var s := seq(|scores|, k requires 0 <= k < |scores| => Some(scores[k]));
      if local.Some? && round % interval == 0 {
        s := s[local.value := None];
      }
      assert s == Escaped(scores, local, round, interval);
      r := ArgMin(s);
    }
  }

  /** The first index of least score, or no action when every score is infinite. */
  ghost predicate FirstLeast(s: seq<Score>, r: Chosen) {
    && (r.NoAction? <==> forall k | 0 <= k < |s| :: s[k].None?)
    && (r.Action? ==>
          && r.index < |s| && s[r.index].Some?
          && (forall k | 0 <= k < |s| :: !Less(s[k], s[r.index]))
          && (forall k | 0 <= k < r.index :: Less(s[r.index], s[k])))
  }

  method ArgMin(s: seq<Score>) returns (r: Chosen)
    ensures FirstLeast(s, r)
  {
    if forall k :: 0 <= k < |s| ==> s[k].None? {
      return NoAction;
    }
    var best := 0;
    for k := 1 to |s|
      invariant best < k
      invariant (forall i | 0 <= i < k :: !Less(s[i], s[best])) && (forall i | 0 <= i < best :: Less(s[best], s[i]))
    {
      if Less(s[k], s[best]) {
        best := k;
      }
    }
    var finite :| 0 <= finite < |s| && s[finite].Some?;
    assert !Less(s[finite], s[best]);
    r := Action(best);
  }

  /** There is no action to choose exactly when there is none at all, or the local one is the only one and is
      ruled out. */
  lemma NothingToChoose(scores: seq<real>, local: Option<nat>, round: nat, interval: Positive)
    requires local.Some? ==> local.value < |scores|
    ensures (forall k | 0 <= k < |scores| :: Escaped(scores, local, round, interval)[k].None?)
            <==> scores == [] || (|scores| == 1 && local.Some? && round % interval == 0)
  {
    var s := Escaped(scores, local, round, interval);
    if scores != [] {
      assert s[0] in s;
      if |scores| > 1 {
        assert s[1] in s;
        assert s[0].Some? || s[1].Some?;
      }
    }
  }
}
