/** Mixing weights: their sum, and what an aggregation makes of the model. */
module WeightProofs {
  import opened Common
  import opened Scheduling
  import opened Compass
  import opened BooksProofs
  import opened Server
  import opened ServerInvariants
  import opened ServerProofs
  import opened RunProofs

  // ----- shares of the data -----

  lemma {:induction false} TotalWithout(sizes: map<ClientId, Positive>, cs: seq<ClientId>, k: nat)
    requires k < |cs|
    ensures Total(sizes, cs) == Total(sizes, cs[..k] + cs[k + 1..]) + SizeOf(sizes, cs[k])
  {
    var rest := cs[..k] + cs[k + 1..];
    if k == |cs| - 1 {
      assert rest == DropLast(cs);
    } else {
      TotalWithout(sizes, DropLast(cs), k);
      assert DropLast(rest) == DropLast(cs)[..k] + DropLast(cs)[k + 1..];
      assert Last(rest) == Last(cs);
    }
  }

  /** Distinct clients of a population hold at most its whole data. */
  lemma {:induction false} PartTotal(sizes: map<ClientId, Positive>, cs: seq<ClientId>, order: seq<ClientId>)
    requires Distinct(cs) && forall c | c in cs :: c in order
    ensures Total(sizes, cs) <= Total(sizes, order)
  {
    if cs != [] {
      var c := Last(cs);
      assert c in cs;
      var k :| 0 <= k < |order| && order[k] == c;
      var rest := order[..k] + order[k + 1..];
      TotalWithout(sizes, order, k);
      forall d | d in DropLast(cs) ensures d in rest {
        var i :| 0 <= i < |cs| - 1 && cs[i] == d;
        assert d in cs && d != c;
        var j :| 0 <= j < |order| && order[j] == d;
        assert rest[if j < k then j else j - 1] == d;
      }
      PartTotal(sizes, DropLast(cs), rest);
    }
  }

  lemma TotalPositive(env: Env, c: ClientId)
    requires ValidEnv(env) && c in env.order
    ensures 1 <= SizeOf(env.sizes, c) <= Total(env.sizes, env.order)
  {
    var k :| 0 <= k < |env.order| && env.order[k] == c;
    TotalWithout(env.sizes, env.order, k);
  }

  lemma Quotient(a: real, b: real)
    requires a > 0.0 && b > 0.0
    ensures a / b > 0.0
  {
  }

  lemma Product(a: real, w: real, d: real)
    requires a > 0.0 && w > 0.0 && 0.0 < d <= 1.0
    ensures 0.0 < MixingWeight(a, w, d) <= a * w
  {
    var p := a * w;
    assert p > 0.0;
    Monotone(p, d, 1.0);
    assert p * d > 0.0;
    assert MixingWeight(a, w, d) == p * d;
  }

  lemma WeightPositive(env: Env, c: ClientId)
    requires ValidEnv(env) && c in env.order
    ensures Weight(env, c) > 0.0
  {
    TotalPositive(env, c);
    Quotient(SizeOf(env.sizes, c) as real, Total(env.sizes, env.order) as real);
  }

  /** The weight of a client's delta when it is not stale. */
  function Cap(env: Env, c: ClientId): real {
    env.cfg.alpha * Weight(env, c)
  }

  lemma StaleWeightBounds(env: Env, c: ClientId, delay: nat)
    requires ValidEnv(env) && c in env.order
    ensures 0.0 < StaleWeight(env, c, delay) <= Cap(env, c)
  {
    WeightPositive(env, c);
    hide Weight, MixingWeight;
    Product(env.cfg.alpha, Weight(env, c), env.cfg.decay(delay));
  }

  /** Alpha times the clients' share of all data. */
  function Share(env: Env, cs: seq<ClientId>): real {
    var total := Total(env.sizes, env.order);
    if total == 0 then 0.0 else env.cfg.alpha * (Total(env.sizes, cs) as real / total as real)
  }

  lemma AddShares(alpha: real, a: real, b: real, total: real)
    requires total > 0.0
    ensures alpha * (a / total) + alpha * (b / total) == alpha * ((a + b) / total)
  {
    assert (a + b) / total == a / total + b / total;
  }

  lemma ShareStep(env: Env, cs: seq<ClientId>)
    ensures cs == [] ==> Share(env, cs) == 0.0
    ensures cs != [] ==> Share(env, cs) == Share(env, DropLast(cs)) + Cap(env, Last(cs))
  {
    var total := Total(env.sizes, env.order);
    if total != 0 {
      if cs == [] {
        assert Total(env.sizes, cs) as real / total as real == 0.0;
      } else {
        AddShares(env.cfg.alpha, Total(env.sizes, DropLast(cs)) as real, SizeOf(env.sizes, Last(cs)) as real,
              total as real);
      }
    }
  }

  lemma Fraction(a: nat, total: nat)
    requires a <= total && total > 0
    ensures a as real / total as real <= 1.0
  {
  }

  lemma WholeShare(env: Env, cs: seq<ClientId>)
    requires ValidEnv(env) && Distinct(cs) && forall c | c in cs :: c in env.order
    ensures Share(env, cs) <= env.cfg.alpha
  {
    PartTotal(env.sizes, cs, env.order);
    TotalPositive(env, env.order[0]);
    var part, total := Total(env.sizes, cs), Total(env.sizes, env.order);
    var q := part as real / total as real;
    Fraction(part, total);
    assert Share(env, cs) == env.cfg.alpha * q;
    Monotone(env.cfg.alpha, q, 1.0);
  }

  /** Weights of an aggregation of clients `cs` add up to at most alpha times their share of the data. */
  lemma {:induction false} WeightsWithinShare(env: Env, cs: seq<ClientId>, delays: seq<nat>, ws: seq<real>)
    requires ValidEnv(env) && |cs| == |delays| == |ws| && forall c | c in cs :: c in env.order
    requires forall i | 0 <= i < |cs| :: ws[i] == StaleWeight(env, cs[i], delays[i])
    ensures 0.0 <= Sum(ws) <= Share(env, cs)
  {
    hide StaleWeight, Share, Cap;
    ShareStep(env, cs);
    if cs != [] {
      WeightsWithinShare(env, DropLast(cs), DropLast(delays), DropLast(ws));
      assert Last(cs) in cs;
      StaleWeightBounds(env, Last(cs), Last(delays));
    }
  }

  /** An aggregation's weights are positive and add up to at most alpha. */
  lemma WeightsAtMostAlpha(env: Env, cs: seq<ClientId>, delays: seq<nat>, ws: seq<real>)
    requires ValidEnv(env) && |cs| == |delays| == |ws| && Distinct(cs) && forall c | c in cs :: c in env.order
    requires forall i | 0 <= i < |cs| :: ws[i] == StaleWeight(env, cs[i], delays[i])
    ensures 0.0 <= Sum(ws) <= env.cfg.alpha
  {
    hide StaleWeight, Share;
    WeightsWithinShare(env, cs, delays, ws);
    WholeShare(env, cs);
  }

  /** In every run each aggregation combines distinct clients with weights adding up to at most alpha. */
  lemma RunWeights(env: Env, model: Model, script: seq<Choice>, k: nat)
    requires ServerEnv(env) && k < |Run(env, model, script).control.aggregations|
    ensures var a := Run(env, model, script).control.aggregations[k];
            && Distinct(a.clients) && Distinct(a.dispatches)
            && (forall i | 0 <= i < |a.clients| :: a.clients[i] in env.order)
            && 0.0 <= Sum(a.weights) <= env.cfg.alpha
  {
    RunKeeps(env, model, script);
    var w := Run(env, model, script);
    hide Run;
    RecordWeights(env, w, k);
  }

  lemma RecordWeights(env: Env, w: World, k: nat)
    requires ValidEnv(env) && (Ready(env, w, []) || Stopped(env, w)) && k < |w.control.aggregations|
    ensures var a := w.control.aggregations[k];
            && Distinct(a.clients) && Distinct(a.dispatches)
            && (forall i | 0 <= i < |a.clients| :: a.clients[i] in env.order)
            && 0.0 <= Sum(a.weights) <= env.cfg.alpha
  {
    var a := w.control.aggregations[k];
    assert Ledger(env, w.control);
    hide Ready, Stopped;
    assert RecordOk(env, w.control.receipts, k, a);
    forall i | 0 <= i < |a.clients|
      ensures a.clients[i] in env.order && a.weights[i] == StaleWeight(env, a.clients[i], a.staleness[i])
    {
      var r := w.control.receipts[a.dispatches[i]];
      assert AggregatedOk(env, w.control.version, r);
    }
    WeightsAtMostAlpha(env, a.clients, a.staleness, a.weights);
  }

  // ----- the aggregated model -----

  /** Coordinate `i` of what a client trained. */
  function Coordinate(u: Update, i: nat): real {
    if i < |u.trained.params| then u.trained.params[i] else 0.0
  }

  function Times(a: real, b: real): real {
    a * b
  }

  /** The weighted sum of coordinate `i` of the trained parameters. */
  function MixedTraining(env: Env, version: nat, us: seq<Update>, i: nat): real {
    if us == [] then 0.0
    else MixedTraining(env, version, DropLast(us), i) + Times(ScaleOf(env, version, Last(us)), Coordinate(Last(us), i))
  }

  /** A share of the old value plus the weighted trained values. */
  function Mixture(sum: real, p: real, mix: real): real {
    (1.0 - sum) * p + mix
  }

  lemma MixStep(before: real, sum: real, p: real, mix: real, s: real, t: real)
    requires before == Mixture(sum, p, mix)
    ensures before - s * (p - t) == Mixture(sum + s, p, mix + Times(s, t))
  {
  }

  lemma ShiftAt(params: seq<real>, scale: real, u: Update, i: nat, p: real)
    requires i < |params| && i < |u.base.params| && i < |u.trained.params| && u.base.params[i] == p
    ensures Shift(params, scale, u)[i] == params[i] - scale * (p - Coordinate(u, i))
  {
  }

  lemma SumScales(env: Env, version: nat, us: seq<Update>)
    ensures us == [] ==> Sum(Scales(env, version, us)) == 0.0
    ensures us != [] ==>
          Sum(Scales(env, version, us))
          == Sum(Scales(env, version, DropLast(us))) + ScaleOf(env, version, Last(us))
  {
    var scales := Scales(env, version, us);
    if us == [] {
      assert scales == [];
    } else {
      assert DropLast(scales) == Scales(env, version, DropLast(us));
    }
  }

  /** With fresh updates every parameter becomes (1 - sum of weights) times the old value plus the
      weighted trained values. */
  lemma {:induction false} BlendIsMix(env: Env, version: nat, params: seq<real>, us: seq<Update>, i: nat)
    requires i < |params|
    requires forall u | u in us :: u.base.params == params && |u.trained.params| == |params|
    ensures Blend(env, version, params, us)[i]
            == Mixture(Sum(Scales(env, version, us)), params[i], MixedTraining(env, version, us, i))
  {
    hide ScaleOf, Times, Shift;
    SumScales(env, version, us);
    if us == [] {
    } else {
      var front, u := DropLast(us), Last(us);
      BlendIsMix(env, version, params, front, i);
      assert u in us;
      var before := Blend(env, version, params, front);
      ShiftAt(before, ScaleOf(env, version, u), u, i, params[i]);
      MixStep(before[i], Sum(Scales(env, version, front)), params[i], MixedTraining(env, version, front, i),
            ScaleOf(env, version, u), Coordinate(u, i));
      hide Mixture;
    }
  }

  lemma BoundStep(sum: real, mix: real, s: real, t: real, lo: real, hi: real)
    requires s > 0.0 && lo <= t <= hi && Times(sum, lo) <= mix <= Times(sum, hi)
    ensures Times(sum + s, lo) <= mix + Times(s, t) <= Times(sum + s, hi)
  {
    assert s * lo <= s * t <= s * hi;
    assert (sum + s) * lo == sum * lo + s * lo && (sum + s) * hi == sum * hi + s * hi;
  }

  lemma {:induction false} MixBounds(env: Env, version: nat, us: seq<Update>, i: nat, lo: real, hi: real)
    requires ValidEnv(env) && forall u | u in us :: u.job.client in env.order
    requires forall u | u in us :: lo <= Coordinate(u, i) <= hi
    ensures Times(Sum(Scales(env, version, us)), lo) <= MixedTraining(env, version, us, i)
          <= Times(Sum(Scales(env, version, us)), hi)
  {
    SumScales(env, version, us);
    if us == [] {
    } else {
      hide Times, StaleWeight;
      var front, u := DropLast(us), Last(us);
      MixBounds(env, version, front, i, lo, hi);
      assert u in us;
      StaleWeightBounds(env, u.job.client, Delay(version, u));
      BoundStep(Sum(Scales(env, version, front)), MixedTraining(env, version, front, i),
            ScaleOf(env, version, u), Coordinate(u, i), lo, hi);
    }
  }

  lemma Monotone(k: real, a: real, b: real)
    requires 0.0 <= k && a <= b
    ensures k * a <= k * b
  {
  }

  lemma ConvexBounds(sum: real, p: real, mix: real, lo: real, hi: real)
    requires 0.0 <= sum <= 1.0 && lo <= p <= hi && Times(sum, lo) <= mix <= Times(sum, hi)
    ensures lo <= Mixture(sum, p, mix) <= hi
  {
    Monotone(1.0 - sum, lo, p);
    Monotone(1.0 - sum, p, hi);
    assert (1.0 - sum) * lo + sum * lo == lo && (1.0 - sum) * hi + sum * hi == hi;
  }

  lemma FreshBases(env: Env, s: Controller, us: seq<Update>)
    requires Books(env, s, us) && forall u | u in us :: u.job.version == s.version
    ensures forall u | u in us ::
          u.job.client in env.order && u.base.params == s.model.params
          && |u.trained.params| == |s.model.params|
    ensures Distinct(ClientsOf(us)) && forall c | c in ClientsOf(us) :: c in env.order
  {
    forall u | u in us ensures u.job.client in env.order && u.base.params == s.model.params
          && |u.trained.params| == |s.model.params| {
      assert Filed(env, s, u);
    }
    forall c | c in ClientsOf(us) ensures c in env.order {
      var k :| 0 <= k < |us| && ClientsOf(us)[k] == c;
      assert us[k] in us;
    }
  }

  /** Aggregating updates trained from the current version makes every parameter a mixture of its old
      value and the trained values with weights adding up to one, so it stays within their range. */
  lemma FreshAggregationIsConvex(
      env: Env, s: Controller, us: seq<Update>, group: Option<nat>, reason: Reason, i: nat, lo: real, hi: real)
    requires ValidEnv(env) && Books(env, s, us) && i < |s.model.params|
    requires forall u | u in us :: u.job.version == s.version
    requires lo <= s.model.params[i] <= hi && forall u | u in us :: lo <= Coordinate(u, i) <= hi
    ensures var params := Commit(env, s, us, group, reason).model.params;
            var sum := Sum(Scales(env, s.version, us));
            && |params| == |s.model.params|
            && params[i] == Mixture(sum, s.model.params[i], MixedTraining(env, s.version, us, i))
            && 0.0 <= sum <= env.cfg.alpha <= 1.0
            && lo <= params[i] <= hi
  {
    FreshBases(env, s, us);
    hide Books, StaleWeight, MarkCommitted, Mixture, Times, MixedTraining;
    BlendIsMix(env, s.version, s.model.params, us, i);
    WeightsAtMostAlpha(env, ClientsOf(us), Delays(s.version, us), Scales(env, s.version, us));
    MixBounds(env, s.version, us, i, lo, hi);
    hide Blend, Sum;
    ConvexBounds(Sum(Scales(env, s.version, us)), s.model.params[i], MixedTraining(env, s.version, us, i), lo, hi);
  }

  // ----- the tensors that are not parameters -----

  lemma AddWeighted(x: real, a: nat, b: nat)
    ensures Weighted(a + b, x) == Weighted(a, x) + Weighted(b, x)
  {
    assert (a + b) as real == a as real + b as real;
  }

  lemma OrderWeighted(n: nat, x: real, y: real)
    requires x <= y
    ensures Weighted(n, x) <= Weighted(n, y)
  {
    assert n as real * (y - x) >= 0.0;
  }

  lemma NoWeight(x: real)
    ensures Weighted(0, x) == 0.0
  {
  }

  lemma {:induction false} StatSumWithin(env: Env, us: seq<Update>, i: nat, lo: real, hi: real)
    requires forall k | 0 <= k < |us| :: i < |us[k].trained.stats| && lo <= us[k].trained.stats[i] <= hi
    ensures Weighted(Total(env.sizes, ClientsOf(us)), lo) <= StatSum(env, us, i)
          <= Weighted(Total(env.sizes, ClientsOf(us)), hi)
  {
    hide Weighted;
    if us == [] {
      NoWeight(lo);
      NoWeight(hi);
    } else {
      var front, u := DropLast(us), Last(us);
      StatSumWithin(env, front, i, lo, hi);
      assert DropLast(ClientsOf(us)) == ClientsOf(front);
      var n, x := SizeOf(env.sizes, u.job.client), u.trained.stats[i];
      AddWeighted(lo, Total(env.sizes, ClientsOf(front)), n);
      AddWeighted(hi, Total(env.sizes, ClientsOf(front)), n);
      OrderWeighted(n, lo, x);
      OrderWeighted(n, x, hi);
    }
  }

  lemma DivideWithin(sum: real, total: Positive, lo: real, hi: real)
    requires Weighted(total, lo) <= sum <= Weighted(total, hi)
    ensures lo <= sum / total as real <= hi
  {
    var q := sum / total as real;
    assert q * total as real == sum;
  }

  /** The averaged tensors stay within the range of what the clients sent; a value they agree on is kept. */
  lemma AverageWithin(env: Env, stats: seq<real>, us: seq<Update>, i: nat, lo: real, hi: real)
    requires i < |stats| && Total(env.sizes, ClientsOf(us)) > 0
    requires forall k | 0 <= k < |us| :: i < |us[k].trained.stats| && lo <= us[k].trained.stats[i] <= hi
    ensures lo <= AverageStats(env, stats, us)[i] <= hi
  {
    StatSumWithin(env, us, i, lo, hi);
    DivideWithin(StatSum(env, us, i), Total(env.sizes, ClientsOf(us)), lo, hi);
    hide Weighted, StatSum;
  }
}
