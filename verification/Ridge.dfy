/** Ridge regression state: the matrix ridge * I + sum of x x', the vector sum of t x, and what follows for
    every solution of the linear systems they define. */
module Ridge {
  import opened Common
  import opened Vectors

  /** An observed latency `time` of an action with features `x`. */
  datatype Sample = Sample(x: Vector, time: real)

  ghost predicate Fits(n: nat, obs: seq<Sample>) {
    forall k | 0 <= k < |obs| :: |obs[k].x| == n
  }

  // ----- the state -----

  /** Row i, column j of the matrix. */
  function Entry(ridge: real, n: nat, obs: seq<Sample>, i: nat, j: nat): real
    requires Fits(n, obs) && i < n && j < n
  {
    if obs == [] then (if i == j then ridge else 0.0)
    else Entry(ridge, n, DropLast(obs), i, j) + Mul(Last(obs).x[i], Last(obs).x[j])
  }

  function Row(ridge: real, n: nat, obs: seq<Sample>, i: nat): (r: Vector)
    requires Fits(n, obs) && i < n
    ensures |r| == n
  {
    seq(n, j requires 0 <= j < n => Entry(ridge, n, obs, i, j))
  }

  /** The matrix times a vector. */
  function MatVec(ridge: real, n: nat, obs: seq<Sample>, v: Vector): (r: Vector)
    requires Fits(n, obs) && |v| == n
    ensures |r| == n
  {
    seq(n, i requires 0 <= i < n => Dot(Row(ridge, n, obs, i), v))
  }

  function Target(n: nat, obs: seq<Sample>): (r: Vector)
    requires Fits(n, obs)
    ensures |r| == n
  {
    if obs == [] then Zero(n) else Plus(Target(n, DropLast(obs)), Times(Last(obs).time, Last(obs).x))
  }

  /** Sum over the observations of the product of their projections on u and v. */
  function Projections(n: nat, obs: seq<Sample>, u: Vector, v: Vector): real
    requires Fits(n, obs) && |u| == n && |v| == n
  {
    if obs == [] then 0.0
    else Projections(n, DropLast(obs), u, v) + Mul(Dot(Last(obs).x, u), Dot(Last(obs).x, v))
  }

  // ----- the matrix form -----

  lemma EarlierFit(n: nat, obs: seq<Sample>, o: Sample)
    requires Fits(n, obs + [o])
    ensures Fits(n, obs) && |o.x| == n
  {
    assert (obs + [o])[|obs|] == o;
    assert forall k | 0 <= k < |obs| :: (obs + [o])[k] == obs[k];
  }

  lemma RowGrows(ridge: real, n: nat, obs: seq<Sample>, o: Sample, i: nat)
    requires Fits(n, obs + [o]) && i < n && |o.x| == n && Fits(n, obs)
    ensures Row(ridge, n, obs + [o], i) == Plus(Row(ridge, n, obs, i), Times(o.x[i], o.x))
  {
    hide Mul;
    assert DropLast(obs + [o]) == obs && Last(obs + [o]) == o;
  }

  lemma RowDot(row: Vector, x: Vector, c: real, v: Vector)
    requires |row| == |x| == |v|
    ensures Dot(Plus(row, Times(c, x)), v) == Dot(row, v) + Mul(Dot(x, v), c)
  {
    hide Plus, Times, Dot, Mul;
    DotSymmetric(Plus(row, Times(c, x)), v);
    DotPlus(v, row, Times(c, x));
    DotTimes(v, c, x);
    DotSymmetric(v, row);
    DotSymmetric(v, x);
    MulLaws(Dot(x, v), c, 0.0);
  }

  /** One more observation adds its projection to the product. */
  lemma MatVecGrows(ridge: real, n: nat, obs: seq<Sample>, o: Sample, v: Vector)
    requires Fits(n, obs + [o]) && |v| == n
    ensures Fits(n, obs) && |o.x| == n
    ensures MatVec(ridge, n, obs + [o], v) == Plus(MatVec(ridge, n, obs, v), Times(Dot(o.x, v), o.x))
  {
    EarlierFit(n, obs, o);
    var l, r := MatVec(ridge, n, obs + [o], v), Plus(MatVec(ridge, n, obs, v), Times(Dot(o.x, v), o.x));
    hide Mul, Dot, Row, Fits;
    forall i | 0 <= i < n
      ensures l[i] == r[i]
    {
      RowGrows(ridge, n, obs, o, i);
      RowDot(Row(ridge, n, obs, i), o.x, o.x[i], v);
    }
  }

  lemma {:induction false} UnitDot(ridge: real, n: nat, i: nat, m: nat, v: Vector)
    requires i < n && m <= n == |v|
    ensures Dot(Row(ridge, n, [], i)[..m], v[..m]) == if i < m then Mul(ridge, v[i]) else 0.0
  {
    hide Mul;
    if m > 0 {
      UnitDot(ridge, n, i, m - 1, v);
      assert DropLast(Row(ridge, n, [], i)[..m]) == Row(ridge, n, [], i)[..m - 1];
      assert DropLast(v[..m]) == v[..m - 1];
      MulLaws(v[m - 1], 0.0, 0.0);
      MulLaws(0.0, v[m - 1], 0.0);
    }
  }

  lemma MatVecStart(ridge: real, n: nat, v: Vector)
    requires |v| == n
    ensures MatVec(ridge, n, [], v) == Times(ridge, v)
  {
    hide Mul;
    var l, r := MatVec(ridge, n, [], v), Times(ridge, v);
    forall i | 0 <= i < n
      ensures l[i] == r[i]
    {
      UnitDot(ridge, n, i, n, v);
      assert Row(ridge, n, [], i)[..n] == Row(ridge, n, [], i) && v[..n] == v;
    }
  }

  /** The bilinear form of the matrix: ridge u.v plus the products of the projections. */
  lemma {:induction false} Form(ridge: real, n: nat, obs: seq<Sample>, u: Vector, v: Vector)
    requires Fits(n, obs) && |u| == n && |v| == n
    ensures Dot(u, MatVec(ridge, n, obs, v)) == Mul(ridge, Dot(u, v)) + Projections(n, obs, u, v)
  {
    hide Mul, Dot, MatVec, Times, Plus;
    if obs == [] {
      MatVecStart(ridge, n, v);
      DotTimes(u, ridge, v);
    } else {
      var rest, o := DropLast(obs), Last(obs);
      assert obs == rest + [o];
      Form(ridge, n, rest, u, v);
      MatVecGrows(ridge, n, rest, o, v);
      DotPlus(u, MatVec(ridge, n, rest, v), Times(Dot(o.x, v), o.x));
      DotTimes(u, Dot(o.x, v), o.x);
      DotSymmetric(u, o.x);
      MulLaws(Dot(o.x, v), Dot(o.x, u), 0.0);
    }
  }

  lemma {:induction false} ProjectionsNonnegative(n: nat, obs: seq<Sample>, v: Vector)
    requires Fits(n, obs) && |v| == n
    ensures Projections(n, obs, v, v) >= 0.0
  {
    if obs != [] {
      ProjectionsNonnegative(n, DropLast(obs), v);
      MulSquare(Dot(Last(obs).x, v));
    }
  }

  lemma {:induction false} ProjectionsSymmetric(n: nat, obs: seq<Sample>, u: Vector, v: Vector)
    requires Fits(n, obs) && |u| == n && |v| == n
    ensures Projections(n, obs, u, v) == Projections(n, obs, v, u)
  {
    if obs != [] {
      ProjectionsSymmetric(n, DropLast(obs), u, v);
      MulLaws(Dot(Last(obs).x, u), Dot(Last(obs).x, v), 0.0);
    }
  }

  /** The matrix is positive definite: v'Av = ridge |v|^2 + sum of (x.v)^2, which is zero for the zero vector only. */
  lemma PositiveDefinite(ridge: real, n: nat, obs: seq<Sample>, v: Vector)
    requires ridge > 0.0 && Fits(n, obs) && |v| == n
    ensures Dot(v, MatVec(ridge, n, obs, v)) == Mul(ridge, Dot(v, v)) + Projections(n, obs, v, v) >= 0.0
    ensures Dot(v, MatVec(ridge, n, obs, v)) == 0.0 ==> v == Zero(n)
  {
    hide Mul;
    Form(ridge, n, obs, v, v);
    ProjectionsNonnegative(n, obs, v);
    DotNonnegative(v);
    MulPositive(ridge, Dot(v, v));
  }

  /** u'Av = v'Au. */
  lemma FormSymmetric(ridge: real, n: nat, obs: seq<Sample>, u: Vector, v: Vector)
    requires Fits(n, obs) && |u| == n && |v| == n
    ensures Dot(u, MatVec(ridge, n, obs, v)) == Dot(v, MatVec(ridge, n, obs, u))
  {
    hide Mul, Dot, MatVec;
    Form(ridge, n, obs, u, v);
    Form(ridge, n, obs, v, u);
    DotSymmetric(u, v);
    ProjectionsSymmetric(n, obs, u, v);
  }

  function Minus(u: Vector, v: Vector): (r: Vector)
    requires |u| == |v|
    ensures |r| == |u|
    ensures forall i | 0 <= i < |u| :: r[i] == u[i] - v[i]
  {
    assert forall i | 0 <= i < |u| :: Mul(-1.0, v[i]) == -v[i] by {
      forall i | 0 <= i < |u|
        ensures Mul(-1.0, v[i]) == -v[i]
      {
        MulMinus(v[i]);
      }
    }
    Plus(u, Times(-1.0, v))
  }

  lemma DotMinus(u: Vector, v: Vector, w: Vector)
    requires |u| == |v| == |w|
    ensures Dot(u, Minus(v, w)) == Dot(u, v) - Dot(u, w)
  {
    hide Mul;
    DotPlus(u, v, Times(-1.0, w));
    DotTimes(u, -1.0, w);
    MulMinus(Dot(u, w));
  }

  lemma MatVecMinus(ridge: real, n: nat, obs: seq<Sample>, u: Vector, v: Vector)
    requires Fits(n, obs) && |u| == n && |v| == n
    ensures MatVec(ridge, n, obs, Minus(u, v)) == Minus(MatVec(ridge, n, obs, u), MatVec(ridge, n, obs, v))
  {
    hide Mul, Dot, Row, Plus, Times;
    var l, r := MatVec(ridge, n, obs, Minus(u, v)), Minus(MatVec(ridge, n, obs, u), MatVec(ridge, n, obs, v));
    forall i | 0 <= i < n
      ensures l[i] == r[i]
    {
      DotMinus(Row(ridge, n, obs, i), u, v);
    }
  }

  /** The square of the difference in the matrix' own metric. */
  lemma SquareOfDifference(ridge: real, n: nat, obs: seq<Sample>, u: Vector, v: Vector)
    requires Fits(n, obs) && |u| == n && |v| == n
    ensures Dot(Minus(u, v), MatVec(ridge, n, obs, Minus(u, v)))
            == Dot(u, MatVec(ridge, n, obs, u)) - 2.0 * Dot(v, MatVec(ridge, n, obs, u))
                  + Dot(v, MatVec(ridge, n, obs, v))
  {
    hide MatVec, Minus, Dot, Mul;
    var au, av := MatVec(ridge, n, obs, u), MatVec(ridge, n, obs, v);
    var d := Minus(u, v);
    MatVecMinus(ridge, n, obs, u, v);
    FormSymmetric(ridge, n, obs, u, v);
    DotMinus(d, au, av);
    DotSymmetric(d, au);
    DotSymmetric(d, av);
    DotMinus(au, u, v);
    DotMinus(av, u, v);
    DotSymmetric(au, u);
    DotSymmetric(au, v);
    DotSymmetric(av, u);
    DotSymmetric(av, v);
  }

  // ----- solutions -----

  ghost predicate Solves(ridge: real, n: nat, obs: seq<Sample>, y: Vector, x: Vector)
    requires Fits(n, obs)
  {
    |y| == n && |x| == n && MatVec(ridge, n, obs, y) == x
  }

  lemma MinusZero(u: Vector, v: Vector)
    requires |u| == |v| && Minus(u, v) == Zero(|u|)
    ensures u == v
  {
    forall i | 0 <= i < |u|
      ensures u[i] == v[i]
    {
      assert Minus(u, v)[i] == Zero(|u|)[i];
    }
  }

  /** There is at most one solution. */
  lemma SolutionUnique(ridge: real, n: nat, obs: seq<Sample>, x: Vector, y: Vector, z: Vector)
    requires ridge > 0.0 && Fits(n, obs) && Solves(ridge, n, obs, y, x) && Solves(ridge, n, obs, z, x)
    ensures y == z
  {
    var d := Minus(y, z);
    MatVecMinus(ridge, n, obs, y, z);
    assert Minus(x, x) == Zero(n);
    hide MatVec, Minus, Dot, Mul;
    DotZero(d);
    PositiveDefinite(ridge, n, obs, d);
    MinusZero(y, z);
  }

  lemma ZeroGivesZero(ridge: real, n: nat, obs: seq<Sample>)
    requires Fits(n, obs)
    ensures MatVec(ridge, n, obs, Zero(n)) == Zero(n)
  {
    forall i | 0 <= i < n
      ensures MatVec(ridge, n, obs, Zero(n))[i] == 0.0
    {
      DotZero(Row(ridge, n, obs, i));
    }
  }

  /** The confidence width x'y with A y = x is never negative, so clamping it at zero changes nothing; it is
      zero for zero features only. */
  lemma WidthNonnegative(ridge: real, n: nat, obs: seq<Sample>, x: Vector, y: Vector)
    requires ridge > 0.0 && Fits(n, obs) && Solves(ridge, n, obs, y, x)
    ensures Dot(x, y) >= 0.0 && Max(Dot(x, y), 0.0) == Dot(x, y)
    ensures Dot(x, y) == 0.0 <==> x == Zero(n)
  {
    hide Mul, Dot, MatVec;
    PositiveDefinite(ridge, n, obs, y);
    DotSymmetric(x, y);
    DotZero(y);
    ZeroGivesZero(ridge, n, obs);
  }

  lemma ProjectedPart(v: Vector, x: Vector, z: Vector)
    requires |v| == |x| == |z|
    ensures Dot(z, Plus(v, Times(Dot(x, z), x))) == Dot(z, v) + Mul(Dot(x, z), Dot(x, z))
  {
    hide Plus, Times, Dot, Mul;
    DotPlus(z, v, Times(Dot(x, z), x));
    DotTimes(z, Dot(x, z), x);
    DotSymmetric(z, x);
  }

  /** One more observation never widens the confidence interval of any action: the width loses at least the
      squared projection of the new solution on the new features. */
  lemma WidthShrinks(ridge: real, n: nat, obs: seq<Sample>, o: Sample, x: Vector, y: Vector, z: Vector)
    requires ridge > 0.0 && Fits(n, obs + [o]) && Fits(n, obs)
    requires Solves(ridge, n, obs, y, x) && Solves(ridge, n, obs + [o], z, x)
    ensures |o.x| == n && Dot(x, z) + Mul(Dot(o.x, z), Dot(o.x, z)) <= Dot(x, y)
    ensures Dot(x, z) <= Dot(x, y)
  {
    EarlierFit(n, obs, o);
    hide Plus, Times, Dot, MatVec, Minus, Mul, Fits;
    MatVecGrows(ridge, n, obs, o, z);
    MulSquare(Dot(o.x, z));
    ProjectedPart(MatVec(ridge, n, obs, z), o.x, z);
    SquareOfDifference(ridge, n, obs, y, z);
    PositiveDefinite(ridge, n, obs, Minus(y, z));
    DotSymmetric(z, x);
    DotSymmetric(y, x);
  }

  // ----- the regression -----

  function Residual(o: Sample, w: Vector): real
    requires |o.x| == |w|
  {
    Dot(o.x, w) - o.time
  }

  /** The penalised squared error of a weight vector. */
  function Loss(ridge: real, n: nat, obs: seq<Sample>, w: Vector): real
    requires Fits(n, obs) && |w| == n
  {
    if obs == [] then Mul(ridge, Dot(w, w))
    else Loss(ridge, n, DropLast(obs), w) + Mul(Residual(Last(obs), w), Residual(Last(obs), w))
  }

  function TimesSquared(obs: seq<Sample>): real {
    if obs == [] then 0.0 else TimesSquared(DropLast(obs)) + Mul(Last(obs).time, Last(obs).time)
  }

  lemma SquareExpands(d: real, t: real)
    ensures Mul(d - t, d - t) == Mul(d, d) - 2.0 * Mul(t, d) + Mul(t, t)
  {
  }

  lemma TargetGrows(n: nat, rest: seq<Sample>, o: Sample, w: Vector)
    requires Fits(n, rest) && |o.x| == n && |w| == n
    ensures Dot(w, Plus(Target(n, rest), Times(o.time, o.x))) == Dot(w, Target(n, rest)) + Mul(o.time, Dot(o.x, w))
  {
    hide Dot, Plus, Times, Mul;
    DotPlus(w, Target(n, rest), Times(o.time, o.x));
    DotTimes(w, o.time, o.x);
    DotSymmetric(w, o.x);
  }

  lemma {:induction false} LossExpands(ridge: real, n: nat, obs: seq<Sample>, w: Vector)
    requires Fits(n, obs) && |w| == n
    ensures Loss(ridge, n, obs, w) == Mul(ridge, Dot(w, w))
          + Projections(n, obs, w, w) - 2.0 * Dot(w, Target(n, obs)) + TimesSquared(obs)
  {
    hide Mul, Dot, Plus, Times;
    if obs == [] {
      DotZero(w);
    } else {
      var rest, o := DropLast(obs), Last(obs);
      LossExpands(ridge, n, rest, w);
      TargetGrows(n, rest, o, w);
      SquareExpands(Dot(o.x, w), o.time);
    }
  }

  /** The solved weights are the only minimum of the penalised error: any other costs its squared distance more. */
  lemma EstimateMinimises(ridge: real, n: nat, obs: seq<Sample>, theta: Vector, w: Vector)
    requires ridge > 0.0 && Fits(n, obs) && |w| == n && Solves(ridge, n, obs, theta, Target(n, obs))
    ensures Loss(ridge, n, obs, w) == Loss(ridge, n, obs, theta)
          + Dot(Minus(w, theta), MatVec(ridge, n, obs, Minus(w, theta)))
    ensures Loss(ridge, n, obs, theta) <= Loss(ridge, n, obs, w)
    ensures Loss(ridge, n, obs, theta) == Loss(ridge, n, obs, w) ==> w == theta
  {
    hide Mul, Dot, MatVec, Minus, Plus, Times, Loss, Target;
    LossExpands(ridge, n, obs, w);
    LossExpands(ridge, n, obs, theta);
    Form(ridge, n, obs, w, w);
    Form(ridge, n, obs, theta, theta);
    SquareOfDifference(ridge, n, obs, w, theta);
    FormSymmetric(ridge, n, obs, w, theta);
    PositiveDefinite(ridge, n, obs, Minus(w, theta));
    if Minus(w, theta) == Zero(n) {
      MinusZero(w, theta);
    }
  }
}
