/** The asynchronous receipts: what every run's records and statuses satisfy. */
module AsyncReceipts {
  import opened Common
  import opened Vectors
  import opened Scheduling
  import opened AsyncFL
  import opened AsyncProofs
  import Compass

  // ----- the receipts of a state -----

  ghost predicate AnswersOk(s: Async) {
    && (forall i, j :: 0 <= i < j < |s.answered| ==> s.answered[i].dispatch != s.answered[j].dispatch)
    && (forall i | 0 <= i < |s.answered| :: s.answered[i].dispatch in s.received)
    && (forall d | d in s.received :: HasAnswer(s, d))
  }

  ghost predicate HasAnswer(s: Async, d: nat) {
    exists i :: 0 <= i < |s.answered| && s.answered[i].dispatch == d
  }

  ghost predicate Known(s: Async, u: Update) {
    Answered(u.dispatch, u.job.version) in s.answered
  }

  ghost predicate KnownAll(s: Async) {
    forall u | u in s.committed + s.buffer :: Known(s, u)
  }

  ghost predicate InModel(s: Async, d: nat) {
    exists u :: u in s.committed && u.dispatch == d
  }

  ghost predicate StatusesOk(s: Async) {
    forall d | d in s.statuses ::
      && d in s.received
      && s.statuses[d] != Compass.WaitingForGroup && s.statuses[d] != Compass.LateBuffer
            && s.statuses[d] != Compass.SupersededLate
      && (s.statuses[d].Aggregated? ==> InModel(s, d))
  }

  /** The weight an update of this staleness enters the model with. */
  function WeightAfter(cfg: AsyncConfig, delay: nat): real {
    if cfg.rule.FedAsync? then Mul(cfg.alpha, cfg.decay(delay)) else cfg.rate / cfg.size as real
  }

  /** The status of an update sent with version v that entered the model as version k + 1. */
  ghost predicate Entered(cfg: AsyncConfig, k: nat, elapsed: real, v: nat, st: Compass.Status) {
    v <= k && st == Compass.Aggregated(k + 1, elapsed, k - v, WeightAfter(cfg, k - v))
  }

  /** Row k of the records: its population, its time, and the receipts of its dispatches. */
  ghost predicate RowOk(env: AsyncEnv, s: Async, k: nat, r: Record) {
    && r.version == k + 1 && |r.dispatches| == PerVersion(env.cfg) == r.size
    && InTime(env, r.elapsed)
    && forall d | d in r.dispatches ::
         && d in s.statuses && HasAnswer(s, d)
         && forall a | a in s.answered && a.dispatch == d :: Entered(env.cfg, k, r.elapsed, a.version, s.statuses[d])
  }

  /** All dispatches listed by the records, in order. */
  function Applied(rs: seq<Record>): seq<nat> {
    if rs == [] then [] else Applied(DropLast(rs)) + Last(rs).dispatches
  }

  ghost predicate RowsOk(env: AsyncEnv, s: Async) {
    && (forall k | 0 <= k < |s.records| :: RowOk(env, s, k, s.records[k]))
    && Applied(s.records) == Compass.DispatchesOf(s.committed)
  }

  ghost predicate ReceiptsOk(env: AsyncEnv, s: Async) {
    AnswersOk(s) && KnownAll(s) && StatusesOk(s) && RowsOk(env, s)
  }

  // ----- accepting and storing -----

  /** The receipts while update u is in hand: accepted, in neither place, not aggregated. */
  ghost predicate Held(env: AsyncEnv, s: Async, u: Update) {
    ReceiptsOk(env, s) && Known(s, u) && !InModel(s, u.dispatch) && u.dispatch in s.received
  }

  lemma AcceptHolds(env: AsyncEnv, s: Async, u: Update)
    requires ReceiptsOk(env, s) && OncePlaced(s) && Expected(s, u)
    ensures Held(env, Accept(s, u), u)
  {
    var t := Accept(s, u);
    var a := Answered(u.dispatch, u.job.version);
    assert t.answered[|s.answered|] == a;
    assert forall i | 0 <= i < |s.answered| :: t.answered[i] == s.answered[i];
    forall d | d in t.received
      ensures HasAnswer(t, d)
    {
      if d != u.dispatch {
        assert HasAnswer(s, d);
        var i :| 0 <= i < |s.answered| && s.answered[i].dispatch == d;
        assert t.answered[i].dispatch == d;
      }
    }
    assert forall b :: b in t.answered <==> b in s.answered || b == a;
    forall v | v in s.committed
      ensures v.dispatch != u.dispatch
    {
      var all := s.committed + s.buffer;
      var k :| 0 <= k < |s.committed| && s.committed[k] == v;
      assert all[k] == v;
    }
    forall k | 0 <= k < |t.records|
      ensures RowOk(env, t, k, t.records[k])
    {
      assert RowOk(env, s, k, s.records[k]);
      forall d | d in t.records[k].dispatches
        ensures d in s.received
      {
        assert HasAnswer(s, d);
      }
    }
  }

  /** Changing a status that is not aggregated, or nothing that the receipts look at, keeps them. */
  lemma MarkHolds(env: AsyncEnv, s: Async, t: Async, u: Update, st: Compass.Status)
    requires Held(env, s, u) && t.statuses == s.statuses[u.dispatch := st]
    requires st == Compass.UnaggregatedAtStop || st == Compass.DiscardedAtStop
    requires t.answered == s.answered && t.received == s.received && t.committed == s.committed
    requires t.records == s.records
    requires t.buffer == s.buffer
    ensures Held(env, t, u)
  {
    forall k | 0 <= k < |t.records|
      ensures RowOk(env, t, k, t.records[k])
    {
      assert RowOk(env, s, k, s.records[k]);
      RowInModel(env, s, k, u.dispatch);
    }
  }

  lemma {:induction false} AppliedHas(rs: seq<Record>, k: nat, d: nat)
    requires k < |rs| && d in rs[k].dispatches
    ensures d in Applied(rs)
  {
    if k < |rs| - 1 {
      AppliedHas(DropLast(rs), k, d);
    }
  }

  lemma RowInModel(env: AsyncEnv, s: Async, k: nat, d: nat)
    requires RowsOk(env, s) && k < |s.records|
    ensures d in s.records[k].dispatches ==> InModel(s, d)
  {
    if d in s.records[k].dispatches {
      AppliedHas(s.records, k, d);
      var i :| 0 <= i < |s.committed| && Compass.DispatchesOf(s.committed)[i] == d;
      assert s.committed[i] in s.committed;
    }
  }

  /** The receipts look at nothing else. */
  lemma SameReceipts(env: AsyncEnv, s: Async, t: Async)
    requires ReceiptsOk(env, s) && t.statuses == s.statuses && t.answered == s.answered && t.received == s.received
    requires t.committed == s.committed && t.records == s.records
    requires forall u | u in t.buffer :: u in s.buffer || Known(s, u)
    ensures ReceiptsOk(env, t)
  {
    forall k | 0 <= k < |t.records|
      ensures RowOk(env, t, k, t.records[k])
    {
      assert RowOk(env, s, k, s.records[k]);
    }
    forall u | u in t.committed + t.buffer
      ensures Known(t, u)
    {
      assert u in s.committed || u in s.buffer ==> u in s.committed + s.buffer;
    }
  }

  // ----- committing -----

  /** One of the updates answers dispatch d. */
  ghost predicate Among(us: seq<Update>, d: nat) {
    exists u :: u in us && u.dispatch == d
  }

  lemma AmongStep(us: seq<Update>, d: nat)
    requires us != []
    ensures Among(us, d) <==> Among(DropLast(us), d) || d == Last(us).dispatch
  {
    assert us == DropLast(us) + [Last(us)];
    assert forall u :: u in us <==> u in DropLast(us) || u == Last(us);
  }

  lemma {:induction false} MarkAllMeans(
      cfg: AsyncConfig, version: nat, at: real, statuses: map<nat, Compass.Status>, us: seq<Update>)
    requires forall j, k :: 0 <= j < k < |us| ==> us[j].dispatch != us[k].dispatch
    ensures var m := MarkAll(cfg, version, at, statuses, us);
            && (forall d :: d in m <==> d in statuses || Among(us, d))
            && (forall k | 0 <= k < |us| ::
                  m[us[k].dispatch]
                  == Compass.Aggregated(version + 1, at, Compass.Delay(version, us[k]), WeightOf(cfg, version, us[k])))
            && (forall d | d in statuses && !Among(us, d) :: m[d] == statuses[d])
  {
    hide WeightOf, Compass.Delay;
    if us != [] {
      MarkAllMeans(cfg, version, at, statuses, DropLast(us));
      forall d
        ensures Among(us, d) <==> Among(DropLast(us), d) || d == Last(us).dispatch
      {
        AmongStep(us, d);
      }
      assert forall k | 0 <= k < |us| - 1 :: DropLast(us)[k] == us[k] && us[k].dispatch != Last(us).dispatch;
      hide Among;
    }
  }

  /** The updates that are committed together. */
  ghost predicate Committable(env: AsyncEnv, s: Async, us: seq<Update>) {
    && |us| == PerVersion(env.cfg)
    && (forall u | u in us :: Known(s, u) && !InModel(s, u.dispatch) && u.job.version <= s.version
          && u.dispatch in s.received)
    && (forall j, k :: 0 <= j < k < |us| ==> us[j].dispatch != us[k].dispatch)
  }

  lemma UniqueAnswer(s: Async, a: Answered, b: Answered)
    requires AnswersOk(s) && a in s.answered && b in s.answered && a.dispatch == b.dispatch
    ensures a == b
  {
  }

  /** The status a committed update gets. */
  lemma NewStatus(env: AsyncEnv, s: Async, us: seq<Update>, at: real, u: Update)
    requires AnswersOk(s) && Committable(env, s, us) && u in us
    ensures u.dispatch in MarkAll(env.cfg, s.version, at, s.statuses, us) && HasAnswer(s, u.dispatch)
    ensures forall a | a in s.answered && a.dispatch == u.dispatch ::
              Entered(env.cfg, s.version, at, a.version, MarkAll(env.cfg, s.version, at, s.statuses, us)[u.dispatch])
  {
    MarkAllMeans(env.cfg, s.version, at, s.statuses, us);
    hide MarkAll;
    assert Known(s, u);
    forall a | a in s.answered && a.dispatch == u.dispatch
      ensures a == Answered(u.dispatch, u.job.version)
    {
      UniqueAnswer(s, a, Answered(u.dispatch, u.job.version));
    }
  }

  lemma NewRow(env: AsyncEnv, s: Async, us: seq<Update>, at: real)
    requires ReceiptsOk(env, s) && Committable(env, s, us) && us != [] && |s.records| == s.version
    requires InTime(env, at)
    ensures var t := Committed(env, s, us, at); RowOk(env, t, s.version, t.records[s.version])
  {
    var t := Committed(env, s, us, at);
    assert t.statuses == MarkAll(env.cfg, s.version, at, s.statuses, us);
    var r := t.records[s.version];
    assert r == Record(s.version + 1, at, Compass.DispatchesOf(us), |us|) && t.answered == s.answered;
    assert |us| == PerVersion(env.cfg);
    hide Committed, MarkAll, RowsOk, StatusesOk, KnownAll, Entered, Committable;
    forall d | d in r.dispatches
      ensures d in t.statuses && HasAnswer(t, d)
      ensures forall a | a in t.answered && a.dispatch == d :: Entered(env.cfg, s.version, at, a.version, t.statuses[d])
    {
      var i :| 0 <= i < |us| && r.dispatches[i] == d;
      NewStatus(env, s, us, at, us[i]);
      assert HasAnswer(s, d) ==> HasAnswer(t, d);
    }
  }

  lemma OldRow(env: AsyncEnv, s: Async, us: seq<Update>, at: real, k: nat)
    requires ReceiptsOk(env, s) && Committable(env, s, us) && us != [] && k < |s.records|
    ensures var t := Committed(env, s, us, at); RowOk(env, t, k, t.records[k])
  {
    var t := Committed(env, s, us, at);
    MarkAllMeans(env.cfg, s.version, at, s.statuses, us);
    hide MarkAll, Candidate, Weights;
    assert RowOk(env, s, k, s.records[k]);
    forall d | d in s.records[k].dispatches
      ensures t.statuses[d] == s.statuses[d]
    {
      RowInModel(env, s, k, d);
    }
  }

  lemma CommittedStatuses(env: AsyncEnv, s: Async, us: seq<Update>, at: real)
    requires StatusesOk(s) && Committable(env, s, us) && us != []
    ensures StatusesOk(Committed(env, s, us, at))
  {
    var t := Committed(env, s, us, at);
    MarkAllMeans(env.cfg, s.version, at, s.statuses, us);
    hide MarkAll, Candidate, Weights;
    assert forall u :: u in t.committed <==> u in s.committed || u in us;
    forall d | d in t.statuses && t.statuses[d].Aggregated?
      ensures InModel(t, d)
    {
      if u :| u in us && u.dispatch == d {
      } else {
        assert InModel(s, d);
      }
    }
  }

  /** A commit keeps the receipts. */
  lemma CommitKeepsReceipts(env: AsyncEnv, s: Async, us: seq<Update>, at: real)
    requires ReceiptsOk(env, s) && Committable(env, s, us) && us != [] && |s.records| == s.version
    requires InTime(env, at)
    ensures ReceiptsOk(env, Committed(env, s, us, at))
  {
    var t := Committed(env, s, us, at);
    CommittedStatuses(env, s, us, at);
    CommittedRows(env, s, us, at);
    hide RowsOk, StatusesOk, MarkAll, Candidate, Weights;
    forall u | u in t.committed + t.buffer
      ensures Known(t, u)
    {
      assert u in us || u in s.committed + s.buffer;
    }
  }

  lemma CommittedRows(env: AsyncEnv, s: Async, us: seq<Update>, at: real)
    requires ReceiptsOk(env, s) && Committable(env, s, us) && us != [] && |s.records| == s.version
    requires InTime(env, at)
    ensures RowsOk(env, Committed(env, s, us, at))
  {
    var t := Committed(env, s, us, at);
    assert t.records == s.records + [t.records[s.version]]
          && t.records[s.version].dispatches == Compass.DispatchesOf(us);
    assert Compass.DispatchesOf(t.committed) == Compass.DispatchesOf(s.committed) + Compass.DispatchesOf(us);
    assert DropLast(t.records) == s.records;
    NewRow(env, s, us, at);
    hide RowOk, Committed, StatusesOk, KnownAll, AnswersOk, Committable;
    forall k | 0 <= k < |t.records|
      ensures RowOk(env, t, k, t.records[k])
    {
      if k < |s.records| {
        OldRow(env, s, us, at, k);
      }
    }
  }

  lemma CommitTime(env: AsyncEnv, s: Async, us: seq<Update>)
    requires us != [] && ReceiptsOk(env, s) && Committable(env, s, us) && |s.records| == s.version
    ensures ReceiptsOk(env, Commit(env, s, us).0)
  {
    CommitOutcome(env, s, us);
    var (t, ok) := Commit(env, s, us);
    var before := s.(ticks := t.ticks);
    SameReceipts(env, s, before);
    assert Committable(env, before, us) && |before.records| == before.version;
    hide Commit, Committed, ReceiptsOk, Committable;
    if ok {
      var at :| t == Committed(env, before, us, at) && InTime(env, at);
      CommitKeepsReceipts(env, before, us, at);
    }
  }

  // ----- every step -----

  lemma MixReceipts(env: AsyncEnv, s: Async, u: Update, now: real)
    requires Held(env, s, u) && u.job.version <= s.version && |s.records| == s.version && env.cfg.rule.FedAsync?
    ensures ReceiptsOk(env, Mix(env, s, u, now).0)
  {
    assert [u][0] == u;
    CommitTime(env, s, [u]);
    var (t, ok) := Commit(env, s, [u]);
    if ok {
      hide Commit;
      SameReceipts(env, t, NextJob(env, t, u.job.client, now).0);
    } else {
      CommitOutcome(env, s, [u]);
      hide Commit;
      assert Held(env, t, u);
      MarkHolds(env, t, t.(statuses := t.statuses[u.dispatch := Compass.DiscardedAtStop]), u, Compass.DiscardedAtStop);
    }
  }

  lemma CollectReceipts(env: AsyncEnv, s: Async, u: Update, now: real)
    requires Held(env, s, u) && u.job.version <= s.version && |s.records| == s.version && env.cfg.rule.FedBuff?
    requires OncePlaced(s.(buffer := s.buffer + [u]))
    ensures ReceiptsOk(env, Collect(env, s, u, now).0)
  {
    var stored := s.(buffer := s.buffer + [u]);
    SameReceipts(env, s, stored);
    if |stored.buffer| != env.cfg.size {
      SameReceipts(env, stored, NextJob(env, stored, u.job.client, now).0);
    } else {
      FullCommittable(env, s, u);
      CommitTime(env, stored, stored.buffer);
      var (t, ok) := Commit(env, stored, stored.buffer);
      hide Commit;
      if ok {
        SameReceipts(env, t, NextJob(env, t.(buffer := []), u.job.client, now).0);
      }
    }
  }

  lemma FullCommittable(env: AsyncEnv, s: Async, u: Update)
    requires Held(env, s, u) && u.job.version <= s.version && env.cfg.rule.FedBuff?
    requires OncePlaced(s.(buffer := s.buffer + [u])) && |s.buffer| + 1 == env.cfg.size
    ensures Committable(env, s.(buffer := s.buffer + [u]), s.buffer + [u])
  {
    var stored := s.(buffer := s.buffer + [u]);
    var all := stored.committed + stored.buffer;
    assert forall k | 0 <= k < |stored.buffer| :: all[|s.committed| + k] == stored.buffer[k];
    assert forall k | 0 <= k < |s.committed| :: all[k] == s.committed[k];
    forall v | v in stored.buffer
      ensures Known(s, v) && !InModel(s, v.dispatch) && v.job.version <= s.version && v.dispatch in s.received
    {
      var k :| 0 <= k < |stored.buffer| && stored.buffer[k] == v;
      assert v != u ==> v in s.buffer && v in s.committed + s.buffer;
      assert forall c | c in s.committed :: c.dispatch != v.dispatch;
    }
  }

  lemma TakenPlaces(env: AsyncEnv, s: Async, u: Update)
    requires OncePlaced(s) && u.dispatch !in s.received && u.job.version <= s.version
    ensures var taken := Take(env, Accept(s, u), u); OncePlaced(taken.(buffer := taken.buffer + [u]))
  {
    var taken := Take(env, Accept(s, u), u);
    var stored := taken.(buffer := taken.buffer + [u]);
    assert stored.committed + stored.buffer == s.committed + s.buffer + [u];
    StoreKeepsPlaces(s, stored, u);
  }

  /** An arrival before the deadline. */
  lemma TakenReceipts(env: AsyncEnv, s: Async, u: Update, now: real)
    requires OncePlaced(s) && RecordsOk(s) && u.dispatch !in s.received && u.job.version <= s.version
    requires Held(env, Accept(s, u), u)
    ensures var taken := Take(env, Accept(s, u), u);
            ReceiptsOk(env, if env.cfg.rule.FedAsync? then Mix(env, taken, u, now).0 else Collect(env, taken, u, now).0)
  {
    var taken := Take(env, Accept(s, u), u);
    MarkHolds(env, Accept(s, u), taken, u, Compass.UnaggregatedAtStop);
    TakenPlaces(env, s, u);
    assert taken.version == s.version && |taken.records| == taken.version;
    hide Take, Accept, ReceiptsOk, Held, Mix, Collect, OncePlaced;
    if env.cfg.rule.FedAsync? {
      MixReceipts(env, taken, u, now);
    } else {
      CollectReceipts(env, taken, u, now);
    }
  }

  lemma ProcessReceipts(env: AsyncEnv, s: Async, u: Update, now: real)
    requires OncePlaced(s) && RecordsOk(s) && u.dispatch !in s.received && u.job.version <= s.version
    requires Held(env, Accept(s, u), u)
    ensures var r := Process(env, Accept(s, u), u, now);
            r.Accepted? && ReceiptsOk(env, r.state)
  {
    var s1 := Accept(s, u);
    ProcessCases(env, s, u, now);
    assert ReceiptsOk(env, s1);
    hide ReceiptsOk, Mix, Collect, OncePlaced, Held, RecordsOk, Process, Take, Accept, LateAt;
    if LateAt(env, s1.ticks) {
      SameReceipts(env, s1, s1.(ticks := s1.ticks + 1));
    } else {
      TakenReceipts(env, s, u, now);
    }
  }

  lemma ReceiveReceipts(env: AsyncEnv, s: Async, u: Update, now: real)
    requires ReceiptsOk(env, s) && OncePlaced(s) && RecordsOk(s) && u.job.version <= s.version
    ensures var r := Receive(env, s, u, now); !r.Failed? && (r.Accepted? ==> ReceiptsOk(env, r.state))
  {
    hide Process, Accept, ReceiptsOk, OncePlaced, RecordsOk, Held;
    if Expected(s, u) {
      AcceptHolds(env, s, u);
      ProcessReceipts(env, s, u, now);
    }
    hide Compass.SameShape;
  }

  lemma StepKeepsReceipts(env: AsyncEnv, s: Async, a: Arrival)
    requires AsyncOk(env, s) && ReceiptsOk(env, s)
    ensures ReceiptsOk(env, Step(env, s, a))
  {
    hide ReceiptsOk, Receive, OncePlaced, RecordsOk, Missed;
    if a.client in s.active {
      ReceiveReceipts(env, s, Answer(s, a), a.now);
    }
  }

  /** The receipts of every run are in order. */
  lemma {:induction false} RunKeepsReceipts(env: AsyncEnv, model: Model, start: real, arrivals: seq<Arrival>)
    requires ValidAsync(env.cfg)
    ensures ReceiptsOk(env, Run(env, model, start, arrivals))
  {
    if arrivals == [] {
      StartAllKeeps(env.cfg, New(model).(initialized := true), env.order, start);
    } else {
      hide ReceiptsOk, AsyncOk, Step;
      RunKeeps(env, model, start, DropLast(arrivals));
      RunKeepsReceipts(env, model, start, DropLast(arrivals));
      StepKeepsReceipts(env, Run(env, model, start, DropLast(arrivals)), Last(arrivals));
    }
  }
}
