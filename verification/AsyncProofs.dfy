/** What every run of the asynchronous controllers keeps, and the closed forms of their models. */
module AsyncProofs {
  import opened Common
  import opened Vectors
  import opened Scheduling
  import opened AsyncFL
  import Compass

  // ----- invariants -----

  /** Some look at the clock was not before the deadline. */
  ghost predicate Missed(env: AsyncEnv, s: Async) {
    exists k: nat :: k < s.ticks && LateAt(env, k)
  }

  ghost predicate JobsOk(env: AsyncEnv, s: Async) {
    forall c | c in s.active ::
      && c in env.order
      && s.active[c].client == c && s.active[c].serial < s.nextSerial
      && s.active[c].steps == env.cfg.steps && s.active[c].version <= s.version
  }

  /** Every accepted dispatch is in one place at most: in the model or in the buffer. */
  ghost predicate OncePlaced(s: Async) {
    var all := s.committed + s.buffer;
    && (forall k | 0 <= k < |all| :: all[k].dispatch in s.received && all[k].job.version <= s.version)
    && (forall j, k | 0 <= j < k < |all| :: all[j].dispatch != all[k].dispatch)
  }

  ghost predicate RecordsOk(s: Async) {
    && |s.records| == s.version && |s.weights| == |s.committed|
    && forall k | 0 <= k < |s.records| :: s.records[k].version == k + 1
  }

  /** How many updates one version takes. */
  function PerVersion(cfg: AsyncConfig): nat {
    if cfg.rule.FedAsync? then 1 else cfg.size
  }

  /** The count of accepted updates, and a job for every client, as long as the deadline has not been missed. */
  ghost predicate OnTime(env: AsyncEnv, s: Async) {
    && s.active.Keys == (set c | c in env.order)
    && |s.received| == PerVersion(env.cfg) * s.version + |s.buffer|
    && |s.buffer| < PerVersion(env.cfg)
  }

  ghost predicate AsyncOk(env: AsyncEnv, s: Async) {
    && JobsOk(env, s) && OncePlaced(s) && RecordsOk(s)
    && (env.cfg.rule.FedAsync? ==> s.buffer == [])
    && (!Missed(env, s) ==> OnTime(env, s))
  }

  // ----- closed forms of the model -----

  /** What mixing gives, one update after the other. */
  function Mixture(start: real, ws: seq<real>, values: seq<real>): real
    requires |ws| == |values|
  {
    if ws == [] then start
    else Mul(1.0 - Last(ws), Mixture(start, DropLast(ws), DropLast(values))) + Mul(Last(ws), Last(values))
  }

  /** The share of the initial value and of every mixed value in the end. */
  function Coefficients(ws: seq<real>): (r: seq<real>)
    ensures |r| == |ws| + 1
  {
    if ws == [] then [1.0] else Times(1.0 - Last(ws), Coefficients(DropLast(ws))) + [Last(ws)]
  }

  ghost predicate Proper(ws: seq<real>) {
    forall k | 0 <= k < |ws| :: 0.0 < ws[k] <= 1.0
  }

  function ParamOf(u: Update, i: nat): real {
    if i < |u.trained.params| then u.trained.params[i] else 0.0
  }

  function ParamsOf(us: seq<Update>, i: nat): (r: seq<real>)
    ensures |r| == |us|
  {
    seq(|us|, k requires 0 <= k < |us| => ParamOf(us[k], i))
  }

  function StatOf(u: Update, i: nat): real {
    if i < |u.trained.stats| then u.trained.stats[i] else 0.0
  }

  function StatsOf(us: seq<Update>, i: nat): (r: seq<real>)
    ensures |r| == |us|
  {
    seq(|us|, k requires 0 <= k < |us| => StatOf(us[k], i))
  }

  function DeltaSum(us: seq<Update>, i: nat): real {
    if us == [] then 0.0 else DeltaSum(DropLast(us), i) + DeltaAt(Last(us), i)
  }

  /** FedAsync: parameters and statistics alike are the initial values with every committed update mixed in. */
  ghost predicate Mixed(start: Model, s: Async)
    requires |s.weights| == |s.committed|
  {
    && |s.model.params| == |start.params| && |s.model.stats| == |start.stats|
    && (forall i | 0 <= i < |start.params| ::
          s.model.params[i] == Mixture(start.params[i], s.weights, ParamsOf(s.committed, i)))
    && forall i | 0 <= i < |start.stats| ::
         s.model.stats[i] == Mixture(start.stats[i], s.weights, StatsOf(s.committed, i))
  }

  /** The updates of the last version. */
  function Newest(cfg: AsyncConfig, committed: seq<Update>): seq<Update> {
    if |committed| < cfg.size then committed else committed[|committed| - cfg.size..]
  }

  /** FedBuff: deltas add up in the parameters; the statistics are the mean over the last version's updates. */
  ghost predicate Added(cfg: AsyncConfig, start: Model, s: Async) {
    && |s.model.params| == |start.params|
    && (forall i | 0 <= i < |start.params| ::
          s.model.params[i] == start.params[i] + Mul(cfg.rate / cfg.size as real, DeltaSum(s.committed, i)))
    && (s.committed != [] ==> |s.committed| >= cfg.size)
    && s.model.stats == if s.committed == [] then start.stats
                        else MeanStats(Newest(cfg, s.committed), |start.stats|)
  }

  ghost predicate ModelOk(cfg: AsyncConfig, start: Model, s: Async) {
    && |s.model.params| == |start.params| && |s.model.stats| == |start.stats| && |s.weights| == |s.committed|
    && (cfg.rule.FedAsync? ==> Mixed(start, s) && (ValidAsync(cfg) ==> Proper(s.weights)))
    && (cfg.rule.FedBuff? ==> Added(cfg, start, s))
  }

  lemma {:induction false} SumTimes(c: real, v: seq<real>)
    ensures Sum(Times(c, v)) == Mul(c, Sum(v))
  {
    hide Mul;
    MulLaws(c, 0.0, 0.0);
    if v != [] {
      assert DropLast(Times(c, v)) == Times(c, DropLast(v));
      SumTimes(c, DropLast(v));
      MulLaws(c, Sum(DropLast(v)), Last(v));
    }
  }

  /** The shares are not negative and add up to one. */
  lemma {:induction false} CoefficientsConvex(ws: seq<real>)
    requires Proper(ws)
    ensures Sum(Coefficients(ws)) == 1.0
    ensures forall k | 0 <= k <= |ws| :: 0.0 <= Coefficients(ws)[k]
  {
    if ws == [] {
      assert DropLast(Coefficients(ws)) == [];
    } else {
      CoefficientsConvex(DropLast(ws));
      var rest, w := Coefficients(DropLast(ws)), Last(ws);
      SumTimes(1.0 - w, rest);
      MulOne(1.0 - w);
      assert DropLast(Times(1.0 - w, rest) + [w]) == Times(1.0 - w, rest);
      hide Mul;
      var scaled := Times(1.0 - w, rest);
      forall k | 0 <= k < |rest|
        ensures scaled[k] >= 0.0
      {
        MulNonnegative(1.0 - w, rest[k]);
      }
    }
  }

  lemma MulOne(a: real)
    ensures Mul(a, 1.0) == a
  {
  }

  lemma MulNonnegative(a: real, b: real)
    requires a >= 0.0 && b >= 0.0
    ensures Mul(a, b) >= 0.0
  {
  }

  /** Mixing one after the other is the combination with these shares. */
  lemma {:induction false} MixtureIsCombination(start: real, ws: seq<real>, values: seq<real>)
    requires |ws| == |values|
    ensures Mixture(start, ws, values) == Dot([start] + values, Coefficients(ws))
  {
    hide Mul, Dot;
    if ws == [] {
      DotSnoc([], start, [], 1.0);
      EmptyDot();
      assert [start] + values == [] + [start] && Coefficients(ws) == [] + [1.0];
      MulOne(start);
    } else {
      var w, rest, front := Last(ws), Coefficients(DropLast(ws)), [start] + DropLast(values);
      MixtureIsCombination(start, DropLast(ws), DropLast(values));
      DotTimes(front, 1.0 - w, rest);
      assert [start] + values == front + [Last(values)];
      DotSnoc(front, Last(values), Times(1.0 - w, rest), w);
      MulLaws(w, Last(values), 0.0);
    }
  }

  lemma EmptyDot()
    ensures Dot([], []) == 0.0
  {
  }

  lemma {:induction false} AddDeltasSum(params: seq<real>, w: real, us: seq<Update>, i: nat)
    requires i < |params|
    ensures AddDeltas(params, w, us)[i] == params[i] + Mul(w, DeltaSum(us, i))
  {
    hide Mul;
    if us == [] {
      MulLaws(w, 0.0, 0.0);
    } else {
      AddDeltasSum(params, w, DropLast(us), i);
      MulLaws(w, DeltaSum(DropLast(us), i), DeltaAt(Last(us), i));
    }
  }

  lemma {:induction false} DeltaSumAppend(us: seq<Update>, vs: seq<Update>, i: nat)
    ensures DeltaSum(us + vs, i) == DeltaSum(us, i) + DeltaSum(vs, i)
  {
    if vs == [] {
      assert us + vs == us;
    } else {
      assert DropLast(us + vs) == us + DropLast(vs);
      DeltaSumAppend(us, DropLast(vs), i);
    }
  }

  /** A commit keeps the closed form. */
  lemma CommitKeepsModel(env: AsyncEnv, start: Model, s: Async, us: seq<Update>, at: real)
    requires ModelOk(env.cfg, start, s) && us != [] && |us| == PerVersion(env.cfg)
    ensures ModelOk(env.cfg, start, Committed(env, s, us, at))
  {
    if env.cfg.rule.FedAsync? {
      MixKeepsModel(env, start, s, us[0], at);
      assert us == [us[0]];
      if ValidAsync(env.cfg) {
        WeightInRange(env.cfg, s.version, us[0]);
      }
      assert Committed(env, s, us, at).weights == s.weights + [WeightOf(env.cfg, s.version, us[0])];
    } else {
      AddKeepsModel(env, start, s, us, at);
    }
    hide Mixed, Added, MarkAll, Interpolate, AddDeltas, MeanStats, WeightOf, ValidAsync, Compass.DispatchesOf;
  }

  lemma MixKeepsModel(env: AsyncEnv, start: Model, s: Async, u: Update, at: real)
    requires ModelOk(env.cfg, start, s) && env.cfg.rule.FedAsync?
    ensures Mixed(start, Committed(env, s, [u], at))
  {
    var t := Committed(env, s, [u], at);
    assert t.weights == s.weights + [WeightOf(env.cfg, s.version, u)];
    hide Mul, WeightOf, MarkAll;
    forall i | 0 <= i < |start.params|
      ensures t.model.params[i] == Mixture(start.params[i], t.weights, ParamsOf(t.committed, i))
    {
      MixtureGrows(start.params[i], s.weights, s.committed, t.weights, u, i);
    }
    forall i | 0 <= i < |start.stats|
      ensures t.model.stats[i] == Mixture(start.stats[i], t.weights, StatsOf(t.committed, i))
    {
      StatMixtureGrows(start.stats[i], s.weights, s.committed, t.weights, u, i);
    }
  }

  lemma AddKeepsModel(env: AsyncEnv, start: Model, s: Async, us: seq<Update>, at: real)
    requires ModelOk(env.cfg, start, s) && env.cfg.rule.FedBuff? && |us| == env.cfg.size
    ensures Added(env.cfg, start, Committed(env, s, us, at))
  {
    var t := Committed(env, s, us, at);
    assert t.committed == s.committed + us;
    assert Newest(env.cfg, t.committed) == us;
    var w := env.cfg.rate / env.cfg.size as real;
    hide Mul, MarkAll, MeanStats, Weights;
    forall i | 0 <= i < |start.params|
      ensures t.model.params[i] == start.params[i] + Mul(w, DeltaSum(t.committed, i))
    {
      AddDeltasSum(s.model.params, w, us, i);
      DeltaSumAppend(s.committed, us, i);
      MulLaws(w, DeltaSum(s.committed, i), DeltaSum(us, i));
    }
  }

  lemma StatMixtureGrows(start: real, ws: seq<real>, us: seq<Update>, longer: seq<real>, u: Update, i: nat)
    requires |ws| == |us| && |longer| == |us| + 1 && longer[..|us|] == ws
    ensures Mixture(start, longer, StatsOf(us + [u], i))
            == Mul(1.0 - Last(longer), Mixture(start, ws, StatsOf(us, i))) + Mul(Last(longer), StatOf(u, i))
  {
    hide Mul;
    assert DropLast(StatsOf(us + [u], i)) == StatsOf(us, i);
    assert DropLast(longer) == ws;
  }

  lemma MixtureGrows(start: real, ws: seq<real>, us: seq<Update>, longer: seq<real>, u: Update, i: nat)
    requires |ws| == |us| && |longer| == |us| + 1 && longer[..|us|] == ws
    ensures Mixture(start, longer, ParamsOf(us + [u], i))
            == Mul(1.0 - Last(longer), Mixture(start, ws, ParamsOf(us, i))) + Mul(Last(longer), ParamOf(u, i))
  {
    hide Mul;
    assert DropLast(ParamsOf(us + [u], i)) == ParamsOf(us, i);
    assert DropLast(longer) == ws;
  }

  // ----- every step keeps the invariant -----

  lemma MissedStays(env: AsyncEnv, s: Async, t: Async)
    requires s.ticks <= t.ticks && Missed(env, s)
    ensures Missed(env, t)
  {
    var k: nat :| k < s.ticks && LateAt(env, k);
    assert k < t.ticks && LateAt(env, k);
  }

  lemma LateIsMissed(env: AsyncEnv, s: Async, k: nat)
    requires k < s.ticks && LateAt(env, k)
    ensures Missed(env, s)
  {
  }

  /** The invariant while client c's answer is being worked on and it has no job; `extra` accepted updates are
      in neither place yet. */
  ghost predicate Between(env: AsyncEnv, s: Async, c: ClientId) {
    && JobsOk(env, s) && OncePlaced(s) && RecordsOk(s) && c !in s.active && c in env.order
    && (env.cfg.rule.FedAsync? ==> s.buffer == [])
    && (!Missed(env, s) ==>
          && s.active.Keys == (set d | d in env.order) - {c}
          && |s.received| == PerVersion(env.cfg) * s.version + |s.buffer|
          && |s.buffer| < PerVersion(env.cfg))
  }

  lemma NextJobKeeps(env: AsyncEnv, s: Async, c: ClientId, now: real)
    requires Between(env, s, c)
    ensures AsyncOk(env, NextJob(env, s, c, now).0)
  {
    var t := NextJob(env, s, c, now).0;
    if !Missed(env, t) {
      assert !Missed(env, s) by {
        if Missed(env, s) { MissedStays(env, s, t); }
      }
      assert t.active.Keys == s.active.Keys + {c};
    }
  }

  /** A deadline that was missed on the way excuses the rest. */
  lemma MissedKeeps(env: AsyncEnv, s: Async)
    requires JobsOk(env, s) && OncePlaced(s) && RecordsOk(s) && (env.cfg.rule.FedAsync? ==> s.buffer == [])
    requires Missed(env, s)
    ensures AsyncOk(env, s)
  {
  }

  lemma AcceptKeeps(env: AsyncEnv, s: Async, u: Update)
    requires AsyncOk(env, s) && Expected(s, u)
    ensures JobsOk(env, Accept(s, u)) && OncePlaced(Accept(s, u)) && RecordsOk(Accept(s, u))
    ensures !Missed(env, s) ==>
              && Accept(s, u).active.Keys == (set d | d in env.order) - {u.job.client}
              && |Accept(s, u).received| == |s.received| + 1
  {
  }

  /** Storing a new update keeps every update in one place. */
  lemma StoreKeepsPlaces(s: Async, t: Async, u: Update)
    requires OncePlaced(s) && u.dispatch !in s.received && u.job.version <= s.version <= t.version
    requires t.received == s.received + {u.dispatch}
    requires t.committed + t.buffer == s.committed + s.buffer + [u]
    ensures OncePlaced(t)
  {
    var before, after := s.committed + s.buffer, t.committed + t.buffer;
    assert forall k | 0 <= k < |before| :: after[k] == before[k];
    assert after[|before|] == u;
  }

  lemma CommittedRecords(env: AsyncEnv, s: Async, us: seq<Update>, at: real)
    requires us != [] && RecordsOk(s)
    ensures RecordsOk(Committed(env, s, us, at))
  {
  }

  lemma MoreVersions(size: nat, version: nat)
    ensures size * (version + 1) == size * version + size
  {
  }

  ghost predicate InTime(env: AsyncEnv, at: real) {
    env.budget.Some? ==> at < env.budget.value
  }

  /** What a commit attempt does: it succeeds, or the clock showed the deadline passed. */
  lemma CommitOutcome(env: AsyncEnv, s: Async, us: seq<Update>)
    requires us != []
    ensures var (t, ok) := Commit(env, s, us);
            && s.ticks <= t.ticks
            && (ok ==> exists at :: t == Committed(env, s.(ticks := t.ticks), us, at) && InTime(env, at))
            && (!ok ==> t == s.(ticks := t.ticks) && Missed(env, t))
  {
    hide Candidate, MarkAll, Weights;
    var (t, ok) := Commit(env, s, us);
    if !ok {
      var k := if LateAt(env, s.ticks) then s.ticks else t.ticks - 1;
      assert LateAt(env, k) && k < t.ticks ==> Missed(env, t);
    } else {
      var at := env.tick(t.ticks - 1);
      assert InTime(env, at) && t == Committed(env, s.(ticks := t.ticks), us, at);
    }
  }

  lemma MixKeeps(env: AsyncEnv, s: Async, u: Update, now: real)
    requires AsyncOk(env, s) && Expected(s, u) && u.job.version <= s.version && env.cfg.rule.FedAsync?
    ensures AsyncOk(env, Mix(env, Take(env, Accept(s, u), u), u, now).0)
  {
    AcceptKeeps(env, s, u);
    var s2 := Take(env, Accept(s, u), u);
    CommitOutcome(env, s2, [u]);
    var (t, ok) := Commit(env, s2, [u]);
    hide Commit, Candidate, MarkAll, Weights, LateAt;
    if ok {
      var at :| t == Committed(env, s2.(ticks := t.ticks), [u], at) && InTime(env, at);
      CommittedRecords(env, s2.(ticks := t.ticks), [u], at);
      assert t.committed + t.buffer == s.committed + s.buffer + [u];
      StoreKeepsPlaces(s, t, u);
      if Missed(env, s) {
        MissedStays(env, s, t);
      }
      assert Between(env, t, u.job.client);
      NextJobKeeps(env, t, u.job.client, now);
    } else {
      StoredNowhere(s, t);
      var after := t.(statuses := t.statuses[u.dispatch := Compass.DiscardedAtStop]);
      MissedStays(env, t, after);
      MissedKeeps(env, after);
    }
  }

  lemma StoredNowhere(s: Async, t: Async)
    requires OncePlaced(s) && t.committed == s.committed && t.buffer == s.buffer && s.received <= t.received
    requires s.version <= t.version
    ensures OncePlaced(t)
  {
  }

  lemma CollectKeeps(env: AsyncEnv, s: Async, u: Update, now: real)
    requires AsyncOk(env, s) && Expected(s, u) && u.job.version <= s.version && env.cfg.rule.FedBuff?
    ensures AsyncOk(env, Collect(env, Take(env, Accept(s, u), u), u, now).0)
  {
    AcceptKeeps(env, s, u);
    var s2 := Take(env, Accept(s, u), u);
    var stored := s2.(buffer := s2.buffer + [u]);
    assert stored.committed + stored.buffer == s.committed + s.buffer + [u];
    StoreKeepsPlaces(s, stored, u);
    if Missed(env, s) {
      MissedStays(env, s, stored);
    }
    if |stored.buffer| != env.cfg.size {
      assert Between(env, stored, u.job.client);
      NextJobKeeps(env, stored, u.job.client, now);
    } else {
      FullKeeps(env, s, stored, u, now);
    }
  }

  /** The state after a full buffer was committed and emptied. */
  lemma FullCommitted(env: AsyncEnv, s: Async, stored: Async, u: Update, done: Async, at: real)
    requires AsyncOk(env, s) && Expected(s, u) && u.job.version <= s.version && env.cfg.rule.FedBuff?
    requires stored == Take(env, Accept(s, u), u).(buffer := s.buffer + [u]) && |stored.buffer| == env.cfg.size
    requires s.ticks <= done.ticks
    requires done == Committed(env, stored.(ticks := done.ticks), stored.buffer, at).(buffer := [])
    ensures Between(env, done, u.job.client)
  {
    AcceptKeeps(env, s, u);
    CommittedRecords(env, stored.(ticks := done.ticks), stored.buffer, at);
    hide Candidate, MarkAll, Weights, LateAt, Expected, Compass.DispatchesOf;
    assert done.committed + done.buffer == s.committed + s.buffer + [u];
    StoreKeepsPlaces(s, done, u);
    MoreVersions(env.cfg.size, s.version);
    if Missed(env, s) {
      MissedStays(env, s, done);
    }
  }

  lemma FullKeeps(env: AsyncEnv, s: Async, stored: Async, u: Update, now: real)
    requires AsyncOk(env, s) && Expected(s, u) && u.job.version <= s.version && env.cfg.rule.FedBuff?
    requires stored == Take(env, Accept(s, u), u).(buffer := s.buffer + [u]) && |stored.buffer| == env.cfg.size
    requires OncePlaced(stored)
    ensures var (done, ok) := Commit(env, stored, stored.buffer);
            AsyncOk(env, if ok then NextJob(env, done.(buffer := []), u.job.client, now).0 else done)
  {
    AcceptKeeps(env, s, u);
    CommitOutcome(env, stored, stored.buffer);
    var (t, ok) := Commit(env, stored, stored.buffer);
    hide Commit, Committed, LateAt, Expected;
    if ok {
      var at :| t == Committed(env, stored.(ticks := t.ticks), stored.buffer, at) && InTime(env, at);
      FullTicks(env, stored, t.ticks, at);
      FullCommitted(env, s, stored, u, t.(buffer := []), at);
      NextJobKeeps(env, t.(buffer := []), u.job.client, now);
    } else {
      StoredNowhere(stored, t);
      MissedKeeps(env, t);
    }
  }

  lemma FullTicks(env: AsyncEnv, stored: Async, ticks: nat, at: real)
    requires stored.buffer != []
    ensures Committed(env, stored.(ticks := ticks), stored.buffer, at).ticks == ticks
  {
  }

  /** No arrival of an outstanding assignment fails, and the invariant stays. */
  lemma StepKeeps(env: AsyncEnv, s: Async, a: Arrival)
    requires AsyncOk(env, s)
    ensures AsyncOk(env, Step(env, s, a))
    ensures a.client in s.active ==> !Receive(env, s, Answer(s, a), a.now).Failed?
  {
    if a.client in s.active && Expected(s, Answer(s, a)) {
      var u := Answer(s, a);
      assert u.job.version <= s.version;
      ProcessKeeps(env, s, u, a.now);
      hide AsyncOk, Process;
    }
  }

  lemma ProcessKeeps(env: AsyncEnv, s: Async, u: Update, now: real)
    requires AsyncOk(env, s) && Expected(s, u) && u.job.version <= s.version
    ensures var r := Process(env, Accept(s, u), u, now); r.Accepted? && AsyncOk(env, r.state)
  {
    ProcessCases(env, s, u, now);
    hide Process, Mix, Collect;
    if LateAt(env, s.ticks) {
      AcceptKeeps(env, s, u);
      var t := Accept(s, u).(ticks := s.ticks + 1);
      LateIsMissed(env, t, s.ticks);
      StoredNowhere(s, t);
      MissedKeeps(env, t);
    } else if env.cfg.rule.FedAsync? {
      MixKeeps(env, s, u, now);
    } else {
      CollectKeeps(env, s, u, now);
    }
    hide Expected, Take;
  }

  lemma NobodyFromFuture(s: Async, u: Update)
    requires OncePlaced(s) && u.job.version <= s.version
    ensures forall t: Async | t.version == s.version :: !FromFuture(t, [u]) && !FromFuture(t, s.buffer + [u])
  {
    var all := s.committed + s.buffer;
    assert forall k | 0 <= k < |s.buffer| :: s.buffer[k] == all[|s.committed| + k];
  }

  /** Processing never fails; in time it mixes or collects. */
  lemma ProcessCases(env: AsyncEnv, s: Async, u: Update, now: real)
    requires OncePlaced(s) && u.job.version <= s.version
    ensures var s1 := Accept(s, u);
            var taken := Take(env, s1, u);
            var (done, jobs) := if env.cfg.rule.FedAsync? then Mix(env, taken, u, now) else Collect(env, taken, u, now);
            Process(env, s1, u, now)
            == if LateAt(env, s1.ticks) then Accepted(s1.(ticks := s1.ticks + 1), []) else Accepted(done, jobs)
  {
    NobodyFromFuture(s, u);
    var taken := Take(env, Accept(s, u), u);
    assert taken.version == s.version && taken.buffer == s.buffer;
    hide Mix, Collect, OncePlaced, FromFuture, Take, LateAt;
  }

  // ----- the model -----

  lemma SameModel(cfg: AsyncConfig, start: Model, s: Async, t: Async)
    requires ModelOk(cfg, start, s) && t.model == s.model && t.committed == s.committed && t.weights == s.weights
    ensures ModelOk(cfg, start, t)
  {
  }

  lemma CommitAttempt(env: AsyncEnv, start: Model, s: Async, us: seq<Update>)
    requires ModelOk(env.cfg, start, s) && us != [] && |us| == PerVersion(env.cfg)
    ensures ModelOk(env.cfg, start, Commit(env, s, us).0)
  {
    CommitOutcome(env, s, us);
    var (t, ok) := Commit(env, s, us);
    hide ModelOk, Commit, Committed;
    SameModel(env.cfg, start, s, s.(ticks := t.ticks));
    if ok {
      var at :| t == Committed(env, s.(ticks := t.ticks), us, at) && InTime(env, at);
      CommitKeepsModel(env, start, s.(ticks := t.ticks), us, at);
    }
  }

  ghost predicate SameParameters(s: Async, t: Async) {
    t.model == s.model && t.committed == s.committed && t.weights == s.weights
  }

  /** A step leaves the model alone or does one commit, of as many updates as a version takes. */
  lemma StepCommits(env: AsyncEnv, s: Async, u: Update, now: real) returns (before: Async, us: seq<Update>)
    ensures us != [] && SameParameters(s, before)
    ensures match Receive(env, s, u, now)
            case Rejected => true
            case Failed(t) => SameParameters(s, t)
            case Accepted(t, _) =>
              || SameParameters(s, t)
              || (|us| == PerVersion(env.cfg) && SameParameters(Commit(env, before, us).0, t))
  {
    var taken := Take(env, Accept(s, u), u);
    if env.cfg.rule.FedAsync? {
      before, us := taken, [u];
    } else {
      before := taken.(buffer := taken.buffer + [u]);
      us := before.buffer;
    }
    hide Commit, Expected, LateAt, FromFuture;
  }

  /** The model changes only by commits, so the closed form stays. */
  lemma StepKeepsModel(env: AsyncEnv, start: Model, s: Async, a: Arrival)
    requires ModelOk(env.cfg, start, s)
    ensures ModelOk(env.cfg, start, Step(env, s, a))
  {
    if a.client in s.active {
      var before, us := StepCommits(env, s, Answer(s, a), a.now);
      var t := Step(env, s, a);
      hide ModelOk, Commit, Receive;
      SameModel(env.cfg, start, s, before);
      if SameParameters(s, t) {
        SameModel(env.cfg, start, s, t);
      } else if |us| == PerVersion(env.cfg) {
        CommitAttempt(env, start, before, us);
        SameModel(env.cfg, start, Commit(env, before, us).0, t);
      }
    }
  }

  lemma WeightInRange(cfg: AsyncConfig, version: nat, u: Update)
    requires ValidAsync(cfg) && cfg.rule.FedAsync?
    ensures 0.0 < WeightOf(cfg, version, u) <= 1.0
  {
    var d := cfg.decay(Compass.Delay(version, u));
    assert 0.0 < cfg.alpha * d <= 1.0 * d;
  }

  // ----- whole runs -----

  lemma {:induction false} StartAllKeeps(cfg: AsyncConfig, s: Async, cs: seq<ClientId>, now: real)
    requires s.active == map[] && s.version == 0
    ensures var t := StartAll(cfg, s, cs, now).0;
            && t == s.(active := t.active, nextSerial := t.nextSerial)
            && t.active.Keys == (set c | c in cs)
            && forall c | c in t.active ::
                 t.active[c].client == c && t.active[c].serial < t.nextSerial && t.active[c].steps == cfg.steps
                       && t.active[c].version == 0
  {
    if cs != [] {
      StartAllKeeps(cfg, s, DropLast(cs), now);
      assert cs == DropLast(cs) + [Last(cs)];
    }
  }

  lemma StartKeeps(env: AsyncEnv, model: Model, start: real)
    requires ValidAsync(env.cfg)
    ensures AsyncOk(env, Run(env, model, start, [])) && ModelOk(env.cfg, model, Run(env, model, start, []))
  {
    StartAllKeeps(env.cfg, New(model).(initialized := true), env.order, start);
    var s := Run(env, model, start, []);
    hide Mul;
    MulLaws(env.cfg.rate / env.cfg.size as real, 0.0, 0.0);
    assert PerVersion(env.cfg) * 0 == 0;
  }

  /** Every run keeps the invariant and the closed form of the model. */
  lemma {:induction false} RunKeeps(env: AsyncEnv, model: Model, start: real, arrivals: seq<Arrival>)
    requires ValidAsync(env.cfg)
    ensures AsyncOk(env, Run(env, model, start, arrivals)) && ModelOk(env.cfg, model, Run(env, model, start, arrivals))
  {
    hide AsyncOk, ModelOk, Step;
    if arrivals == [] {
      StartKeeps(env, model, start);
    } else {
      RunKeeps(env, model, start, DropLast(arrivals));
      var s := Run(env, model, start, DropLast(arrivals));
      StepKeeps(env, s, Last(arrivals));
      StepKeepsModel(env, model, s, Last(arrivals));
    }
  }

  /** No deadline missed: every client has exactly one assignment, and the accepted updates are those of the
      committed versions, `size` each, and fewer than `size` buffered ones. */
  lemma ArrivalsAccounted(env: AsyncEnv, model: Model, start: real, arrivals: seq<Arrival>)
    requires ValidAsync(env.cfg) && !Missed(env, Run(env, model, start, arrivals))
    ensures var s := Run(env, model, start, arrivals);
            && s.active.Keys == (set c | c in env.order)
            && |s.received| == PerVersion(env.cfg) * s.version + |s.buffer|
            && |s.buffer| < PerVersion(env.cfg)
  {
    RunKeeps(env, model, start, arrivals);
  }

  /** An answer to an outstanding assignment never fails with a future version, in any run. */
  lemma NoArrivalFails(env: AsyncEnv, model: Model, start: real, arrivals: seq<Arrival>, a: Arrival)
    requires ValidAsync(env.cfg) && a.client in Run(env, model, start, arrivals).active
    ensures var s := Run(env, model, start, arrivals); !Receive(env, s, Answer(s, a), a.now).Failed?
  {
    RunKeeps(env, model, start, arrivals);
    StepKeeps(env, Run(env, model, start, arrivals), a);
  }

  /** FedBuff: the parameters are the initial ones plus rate / size times the sum of the committed deltas. */
  lemma FedBuffParameters(env: AsyncEnv, model: Model, start: real, arrivals: seq<Arrival>, i: nat)
    requires ValidAsync(env.cfg) && env.cfg.rule.FedBuff? && i < |model.params|
    ensures var s := Run(env, model, start, arrivals);
            && |s.model.params| == |model.params|
            && s.model.params[i] == model.params[i] + Mul(env.cfg.rate / env.cfg.size as real, DeltaSum(s.committed, i))
  {
    RunKeeps(env, model, start, arrivals);
  }

  /** FedBuff's statistics: the initial ones before the first commit, then the mean over the last version. */
  lemma FedBuffStatistics(env: AsyncEnv, model: Model, start: real, arrivals: seq<Arrival>)
    requires ValidAsync(env.cfg) && env.cfg.rule.FedBuff?
    ensures var s := Run(env, model, start, arrivals);
            if s.committed == [] then s.model.stats == model.stats
            else
              && |s.committed| >= env.cfg.size
              && s.model.stats == MeanStats(s.committed[|s.committed| - env.cfg.size..], |model.stats|)
  {
    hide Run, AsyncOk, DeltaSum, MeanStats, ValidAsync;
    RunKeeps(env, model, start, arrivals);
    NewestMean(env.cfg, model, Run(env, model, start, arrivals));
    hide ModelOk;
  }

  lemma NewestMean(cfg: AsyncConfig, model: Model, s: Async)
    requires cfg.rule.FedBuff? && ModelOk(cfg, model, s)
    ensures if s.committed == [] then s.model.stats == model.stats
            else
              && |s.committed| >= cfg.size
              && s.model.stats == MeanStats(s.committed[|s.committed| - cfg.size..], |model.stats|)
  {
    hide DeltaSum, MeanStats, ValidAsync;
  }

  /** The model is one combination of the initial model and all committed models: every tensor has the same
      shares, which are not negative and add up to one. */
  ghost predicate OneCombination(start: Model, s: Async, shares: seq<real>) {
    && |shares| == |s.committed| + 1 && Sum(shares) == 1.0 && (forall k | 0 <= k < |shares| :: 0.0 <= shares[k])
    && |s.model.params| == |start.params| && |s.model.stats| == |start.stats|
    && (forall i | 0 <= i < |start.params| ::
          s.model.params[i] == Dot([start.params[i]] + ParamsOf(s.committed, i), shares))
    && (forall i | 0 <= i < |start.stats| ::
          s.model.stats[i] == Dot([start.stats[i]] + StatsOf(s.committed, i), shares))
  }

  lemma ModelIsCombination(cfg: AsyncConfig, start: Model, s: Async) returns (shares: seq<real>)
    requires ValidAsync(cfg) && cfg.rule.FedAsync? && ModelOk(cfg, start, s)
    ensures OneCombination(start, s, shares)
  {
    shares := Coefficients(s.weights);
    hide Coefficients, Mixture, Dot;
    CoefficientsConvex(s.weights);
    forall i | 0 <= i < |start.params|
      ensures s.model.params[i] == Dot([start.params[i]] + ParamsOf(s.committed, i), shares)
    {
      MixtureIsCombination(start.params[i], s.weights, ParamsOf(s.committed, i));
    }
    forall i | 0 <= i < |start.stats|
      ensures s.model.stats[i] == Dot([start.stats[i]] + StatsOf(s.committed, i), shares)
    {
      MixtureIsCombination(start.stats[i], s.weights, StatsOf(s.committed, i));
    }
  }

  /** FedAsync: after any run the whole model is one combination of the initial and all committed models. */
  lemma FedAsyncIsConvex(
      env: AsyncEnv, model: Model, start: real, arrivals: seq<Arrival>) returns (shares: seq<real>)
    requires ValidAsync(env.cfg) && env.cfg.rule.FedAsync?
    ensures var s := Run(env, model, start, arrivals);
            && |shares| == |s.committed| + 1 && Sum(shares) == 1.0 && (forall k | 0 <= k < |shares| :: 0.0 <= shares[k])
            && |s.model.params| == |model.params| && |s.model.stats| == |model.stats|
            && (forall i | 0 <= i < |model.params| ::
                  s.model.params[i] == Dot([model.params[i]] + ParamsOf(s.committed, i), shares))
            && (forall i | 0 <= i < |model.stats| ::
                  s.model.stats[i] == Dot([model.stats[i]] + StatsOf(s.committed, i), shares))
  {
    RunKeeps(env, model, start, arrivals);
    shares := ModelIsCombination(env.cfg, model, Run(env, model, start, arrivals));
    hide Run, ModelOk, AsyncOk;
  }

  /** Every accepted dispatch enters the model at most once. */
  lemma CommittedOnce(env: AsyncEnv, model: Model, start: real, arrivals: seq<Arrival>)
    requires ValidAsync(env.cfg)
    ensures var s := Run(env, model, start, arrivals);
            && (forall j, k | 0 <= j < k < |s.committed| :: s.committed[j].dispatch != s.committed[k].dispatch)
            && (forall k | 0 <= k < |s.committed| :: s.committed[k].dispatch in s.received)
            && |s.records| == s.version && forall k | 0 <= k < |s.records| :: s.records[k].version == k + 1
  {
    RunKeeps(env, model, start, arrivals);
    var s := Run(env, model, start, arrivals);
    hide Run;
    var all := s.committed + s.buffer;
    assert forall k | 0 <= k < |s.committed| :: all[k] == s.committed[k];
  }
}
