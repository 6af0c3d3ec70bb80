/** Producer and checker agree on the asynchronous loop: what every finished run leaves passes both checks. */
module AsyncLoopTheorems {
  import opened Common
  import opened Vectors
  import opened Scheduling
  import opened AsyncFL
  import opened AsyncProofs
  import opened AsyncReceipts
  import opened AsyncAgreement
  import opened AsyncServer
  import opened AsyncLoop
  import opened Metrics
  import AsyncValidation
  import AsyncWork
  import BatchCycle
  import Compass
  import Server
  import Validation

  // ----- everybody has been sent something -----

  /** Dispatch rows are only ever added to, and only while some call is out. */
  ghost predicate Adds(w: Loop, v: Loop) {
    w.dispatches <= v.dispatches && (w.pending == map[] ==> v.dispatches == w.dispatches && v.pending == map[])
  }

  lemma HandOverAdds(env: LoopEnv, w: Loop, d: nat, flight: Server.Flight, trained: Model)
    ensures w.dispatches <= HandOver(env, w, d, flight, trained).dispatches
  {
    hide Receive;
  }

  lemma AwaitAdds(env: LoopEnv, w: Loop, choice: Server.Choice)
    ensures w.dispatches <= Await(env, w, choice).dispatches
  {
    var w1 := Tick(w);
    if Possible(w1, choice) {
      var w2 := if env.base.budget.Some? then Tick(w1) else w1;
      HandOverAdds(env, Book(w2, choice.dispatch), choice.dispatch, w1.pending[choice.dispatch], choice.trained);
    }
    hide HandOver;
  }

  lemma StepAdds(env: LoopEnv, w: Loop, choice: Server.Choice)
    ensures Adds(w, AsyncServer.Step(env, w, choice))
  {
    AwaitAdds(env, Tick(w), choice);
    hide Await, Stop;
  }

  lemma {:induction false} RunEverybody(env: LoopEnv, model: Model, script: seq<Server.Choice>)
    requires ValidLoop(env)
    ensures Everybody(env, RunLoop(env, model, script))
    ensures RunLoop(env, model, script).dispatches == [] ==> RunLoop(env, model, script).pending == map[]
  {
    AsyncLoop.RunKeeps(env, model, script);
    if script == [] {
      BeginKeeps(env, model);
      NothingOut(env, model, RunLoop(env, model, script));
    } else {
      RunEverybody(env, model, DropLast(script));
      var w := RunLoop(env, model, DropLast(script));
      StepAdds(env, w, Last(script));
      NothingOut(env, model, RunLoop(env, model, script));
      var v := AsyncServer.Step(env, w, Last(script));
      assert v == RunLoop(env, model, script);
      hide AsyncServer.Step, RunLoop, Running, Stopped;
      forall c | c in env.base.order && w.dispatches != []
        ensures exists k :: 0 <= k < |v.dispatches| && v.dispatches[k].client == c
      {
        var k :| 0 <= k < |w.dispatches| && w.dispatches[k].client == c;
        assert v.dispatches[k].client == c;
      }
    }
  }

  lemma NothingOut(env: LoopEnv, model: Model, w: Loop)
    requires Running(env, model, w) || Stopped(env, model, w)
    ensures w.dispatches == [] ==> w.pending == map[]
  {
    assert forall d | d in w.pending :: CallOk(env, w, d, w.pending[d]);
    hide ControlOk, FitsOk;
  }

  // ----- the result files -----

  function PlansOf(w: Loop): (r: seq<Validation.Plan>)
    ensures |r| == |w.dispatches|
  {
    seq(|w.dispatches|, k requires 0 <= k < |w.dispatches| =>
      Validation.Plan(k + 1, w.dispatches[k].client, w.dispatches[k].version, w.dispatches[k].steps))
  }

  /** The data, the configured proximal coefficient, and what the clients say. */
  datatype Site = Site(sizes: map<ClientId, Positive>, mu: real, says: Reporters)

  /** What the client reports: the examples its training loop counts, and its own metrics. */
  function WorkOf(site: Site, f: Fit): AsyncWork.WorkRow {
    var size := if f.row.client in site.sizes then site.sizes[f.row.client] else 1;
    var examples := BatchCycle.Processed(size, site.says.batch, f.row.steps);
    AsyncWork.WorkRow(f.dispatch, f.row.client, f.row.version, f.row.steps, f.row.steps, examples, examples,
                      site.says.told(f.dispatch))
  }

  function WorksOf(site: Site, w: Loop): (r: seq<AsyncWork.WorkRow>)
    ensures |r| == |w.fits|
  {
    seq(|w.fits|, k requires 0 <= k < |w.fits| => WorkOf(site, w.fits[k]))
  }

  function WorkReportOf(env: LoopEnv, site: Site, w: Loop): AsyncWork.WorkReport {
    AsyncWork.WorkReport(
      env.base.cfg.rule, site.mu, env.base.cfg.steps, PlansOf(w), WorksOf(site, w), |w.fits|)
  }

  function BundleOf(env: LoopEnv, site: Site): Validation.Bundle {
    Validation.Bundle(env.base.order, site.sizes, site.says.batch, site.says.crew)
  }

  function StatusOf(s: Async, d: nat): Compass.Status {
    if d in s.statuses then s.statuses[d] else Compass.DiscardedAtStop
  }

  function FitRowsOf(env: LoopEnv, site: Site, w: Loop): (r: seq<AsyncValidation.FitRow>)
    ensures |r| == |w.fits|
  {
    seq(|w.fits|, k requires 0 <= k < |w.fits| => FitRowOf(env, site, w, w.fits[k]))
  }

  function FitRowOf(env: LoopEnv, site: Site, w: Loop, f: Fit): AsyncValidation.FitRow {
    AsyncValidation.FitRow(f.dispatch, f.row.version, StatusOf(w.control, f.dispatch),
      AsyncWork.Identified(Validation.Planned(PlansOf(w)), BundleOf(env, site), WorkOf(site, f)))
  }

  // ----- dispatch and work receipts -----

  lemma {:induction false} WorkDispatches(works: seq<AsyncWork.WorkRow>)
    ensures |AsyncWork.Dispatches(works)| == |works|
    ensures forall k | 0 <= k < |works| :: AsyncWork.Dispatches(works)[k] == works[k].dispatch
  {
    if works != [] {
      WorkDispatches(DropLast(works));
    }
  }

  /** A list without repetition counts each of its members once. */
  lemma {:induction false} CountsOfSet(s: seq<nat>, t: set<nat>)
    requires Distinct(s) && forall d :: d in s <==> d in t
    ensures multiset(s) == multiset(t) && |s| == |t|
  {
    forall d: nat
      ensures multiset(s)[d] == multiset(t)[d]
    {
      OnceAtMost(s, d);
    }
    assert |multiset(s)| == |s| && |multiset(t)| == |t|;
  }

  /** A stopped run with nothing out: every dispatch has one fit record. */
  ghost predicate AllBack(env: LoopEnv, w: Loop) {
    FitsOk(env, w) && w.pending == map[] && w.dispatches != []
  }

  lemma AccountingPasses(env: LoopEnv, site: Site, w: Loop)
    requires AllBack(env, w)
    ensures !AsyncWork.Broken(AsyncWork.Accounting, WorkReportOf(env, site, w), BundleOf(env, site))
  {
    var works, planned := WorksOf(site, w), Validation.Planned(PlansOf(w));
    var ids := AsyncWork.Dispatches(works);
    Validation.PlannedPrefix(PlansOf(w));
    WorkDispatches(works);
    assert forall k | 0 <= k < |works| :: ids[k] == w.fits[k].dispatch;
    hide AsyncWork.Dispatches, Validation.Planned, WorksOf, PlansOf;
    forall d
      ensures d in ids <==> d in planned.Keys
    {
      if 1 <= d <= |w.dispatches| {
        assert HasFit(w, d);
        var k :| 0 <= k < |w.fits| && w.fits[k].dispatch == d;
        assert ids[k] == d;
      }
      if d in ids {
        var k :| 0 <= k < |ids| && ids[k] == d;
        assert 1 <= w.fits[k].dispatch <= |w.dispatches|;
      }
    }
    CountsOfSet(ids, planned.Keys);
    assert HasFit(w, 1);
  }

  /** What a client says about itself with one update is wrong. */
  predicate SaysWrong(p: AsyncWork.Problem, r: AsyncWork.WorkReport, crew: Crew, c: ClientId, m: Metrics) {
    match p
    case Work => !AsyncWork.ClaimsHold(r, crew, c, m)
    case Timestamps => !TimesHold(m)
    case Amounts => !AmountsHold(m)
    case _ => false
  }

  function SignsOf(site: Site, w: Loop): set<Sign> {
    set k | 0 <= k < |w.dispatches| :: Sign(w.dispatches[k].client, site.says.told(k + 1).pid)
  }

  /** The problem is one that clients caused by what they said about themselves. */
  ghost predicate ClientsShow(p: AsyncWork.Problem, env: LoopEnv, site: Site, w: Loop) {
    match p
    case Missing => SomeChanged(SignsOf(site, w), env.base.order)
    case ProcessShared => SomeShared(SignsOf(site, w), site.says.crew)
    case _ => exists k :: 0 <= k < |w.dispatches| && Wrongly(p, env, site, w, k)
  }

  ghost predicate Wrongly(p: AsyncWork.Problem, env: LoopEnv, site: Site, w: Loop, k: nat)
    requires k < |w.dispatches|
  {
    SaysWrong(p, WorkReportOf(env, site, w), site.says.crew, w.dispatches[k].client, site.says.told(k + 1))
  }

  /** A fit record repeats its dispatch row with the right counts, and carries what its client said. */
  lemma RowCounts(env: LoopEnv, site: Site, w: Loop, k: nat)
    requires AllBack(env, w) && k < |w.fits|
    ensures var planned, row, b := Validation.Planned(PlansOf(w)), WorksOf(site, w)[k], BundleOf(env, site);
            && AsyncWork.Identified(planned, b, row)
            && AsyncWork.CountsHold(WorkReportOf(env, site, w), b, planned[row.dispatch], row)
            && 1 <= row.dispatch <= |w.dispatches| && row.client == w.dispatches[row.dispatch - 1].client
            && row.told == site.says.told(row.dispatch)
  {
    Validation.PlannedPrefix(PlansOf(w));
    var f := w.fits[k];
    assert f.row == w.dispatches[f.dispatch - 1];
    var size := if f.row.client in site.sizes then site.sizes[f.row.client] else 1;
    BatchCycle.ProcessedClosedForm(size, site.says.batch, f.row.steps);
    hide BatchCycle.Processed, BatchCycle.ExpectedExamples, Validation.Planned;
  }

  lemma RowAgrees(env: LoopEnv, site: Site, w: Loop, p: AsyncWork.Problem, k: nat)
    requires AllBack(env, w) && k < |w.fits| && AsyncWork.RowProblem(p)
    ensures var planned, row := Validation.Planned(PlansOf(w)), WorksOf(site, w)[k];
            && 1 <= row.dispatch <= |w.dispatches|
            && (AsyncWork.RowBroken(p, WorkReportOf(env, site, w), BundleOf(env, site), planned, row)
                <==> Wrongly(p, env, site, w, row.dispatch - 1))
  {
    RowCounts(env, site, w, k);
    hide AllBack, AsyncWork.Identified, AsyncWork.CountsHold, AsyncWork.ClaimsHold, TimesHold, AmountsHold;
    hide Validation.Planned, WorksOf, PlansOf;
  }

  /** The fit record of a dispatch. */
  lemma DispatchFit(env: LoopEnv, site: Site, w: Loop, d: nat) returns (k: nat)
    requires AllBack(env, w) && 1 <= d <= |w.dispatches|
    ensures k < |w.fits| && WorksOf(site, w)[k].dispatch == d && WorksOf(site, w)[k] in WorksOf(site, w)
  {
    assert HasFit(w, d);
    k :| 0 <= k < |w.fits| && w.fits[k].dispatch == d;
  }

  lemma RowsAgree(env: LoopEnv, site: Site, w: Loop, p: AsyncWork.Problem)
    requires AllBack(env, w) && AsyncWork.RowProblem(p)
    ensures AsyncWork.Broken(p, WorkReportOf(env, site, w), BundleOf(env, site)) <==> ClientsShow(p, env, site, w)
  {
    var r, b, works, planned :=
      WorkReportOf(env, site, w), BundleOf(env, site), WorksOf(site, w), Validation.Planned(PlansOf(w));
    AsyncWork.BrokenMeans(r, b);
    hide AllBack, AsyncWork.Broken, AsyncWork.RowBroken, Wrongly, WorksOf, PlansOf;
    if AsyncWork.SomeRow(p, r, b, planned, works) {
      var row :| row in works && AsyncWork.RowBroken(p, r, b, planned, row);
      var k :| 0 <= k < |works| && works[k] == row;
      RowAgrees(env, site, w, p, k);
    }
    if ClientsShow(p, env, site, w) {
      var j :| 0 <= j < |w.dispatches| && Wrongly(p, env, site, w, j);
      var k := DispatchFit(env, site, w, j + 1);
      RowAgrees(env, site, w, p, k);
      assert AsyncWork.RowBroken(p, r, b, planned, works[k]);
    }
  }

  lemma SignsAgree(env: LoopEnv, site: Site, w: Loop)
    requires AllBack(env, w)
    ensures AsyncWork.Signs(Validation.Planned(PlansOf(w)), BundleOf(env, site), WorksOf(site, w)) == SignsOf(site, w)
  {
    var works, planned, b := WorksOf(site, w), Validation.Planned(PlansOf(w)), BundleOf(env, site);
    hide AllBack, AsyncWork.Identified, AsyncWork.CountsHold, WorksOf, PlansOf, WorkReportOf;
    forall s
      ensures s in AsyncWork.Signs(planned, b, works) <==> s in SignsOf(site, w)
    {
      if s in AsyncWork.Signs(planned, b, works) {
        var row :| row in works && AsyncWork.Identified(planned, b, row) && s == Sign(row.client, row.told.pid);
        var k :| 0 <= k < |works| && works[k] == row;
        RowCounts(env, site, w, k);
        assert s == Sign(w.dispatches[row.dispatch - 1].client, site.says.told(row.dispatch - 1 + 1).pid);
      }
      if s in SignsOf(site, w) {
        var j :| 0 <= j < |w.dispatches| && s == Sign(w.dispatches[j].client, site.says.told(j + 1).pid);
        var k := DispatchFit(env, site, w, j + 1);
        RowCounts(env, site, w, k);
        assert s == Sign(works[k].client, works[k].told.pid);
      }
    }
  }

  /** The only problems of the dispatch and work receipts are those that clients caused. */
  lemma WorkAgrees(env: LoopEnv, site: Site, w: Loop, p: AsyncWork.Problem)
    requires AllBack(env, w)
    ensures AsyncWork.Broken(p, WorkReportOf(env, site, w), BundleOf(env, site)) <==> ClientsShow(p, env, site, w)
  {
    hide AllBack;
    if AsyncWork.RowProblem(p) {
      RowsAgree(env, site, w, p);
    } else if p == AsyncWork.Accounting {
      AccountingPasses(env, site, w);
      hide AsyncWork.Broken, WorkReportOf;
      assert forall k | 0 <= k < |w.dispatches| :: !Wrongly(p, env, site, w, k);
    } else {
      SignsAgree(env, site, w);
      AsyncWork.BrokenMeans(WorkReportOf(env, site, w), BundleOf(env, site));
      hide AsyncWork.Broken, SomeChanged, SomeShared, AsyncWork.Signs, SignsOf;
    }
  }

  lemma LoopFits(env: LoopEnv, site: Site, w: Loop)
    requires FitsOk(env, w)
    ensures FitsFor(w.control, FitRowsOf(env, site, w))
  {
    forall a | a in w.control.answered
      ensures exists k ::
            0 <= k < |w.fits| && FitRowsOf(env, site, w)[k].dispatch == a.dispatch
            && FitRowsOf(env, site, w)[k].version == a.version
    {
      assert FiledAs(w, a);
      var k :| 0 <= k < |w.fits| && w.fits[k].dispatch == a.dispatch && w.fits[k].row.version == a.version;
      assert FitRowsOf(env, site, w)[k].dispatch == a.dispatch;
    }
  }

  // ----- the main results -----

  /** Every run of the asynchronous loop that dispatched something, stopped and drained leaves receipts that can be
      checked: in the dispatch and work receipts the only problems are those that clients caused by what they said
      about themselves, in the aggregation receipts the only one is, when nothing was committed, that. */
  lemma ProducerAndCheckersAgree(env: LoopEnv, model: Model, script: seq<Server.Choice>, site: Site)
    requires ValidLoop(env)
    requires var w := RunLoop(env, model, script); w.stop.Some? && w.pending == map[] && w.dispatches != []
    ensures var w := RunLoop(env, model, script);
            && (forall p :: AsyncWork.Broken(p, WorkReportOf(env, site, w), BundleOf(env, site))
                            <==> ClientsShow(p, env, site, w))
            && (forall p :: AsyncValidation.Broken(p, ReportOf(env.base, w.control, FitRowsOf(env, site, w)))
                            <==> p == AsyncValidation.Versions && w.control.version == 0)
            && !AsyncValidation.Raises(ReportOf(env.base, w.control, FitRowsOf(env, site, w)))
  {
    AsyncLoop.RunKeeps(env, model, script);
    var w := RunLoop(env, model, script);
    assert Stopped(env, model, w);
    hide RunLoop, ReceiptsOk, CallsOk, ModelOk;
    LoopFits(env, site, w);
    hide FitsOk, FitsFor, OncePlaced, RecordsOk, FitRowsOf, WorkReportOf, ClientsShow, AsyncWork.Broken;
    hide AsyncValidation.Broken;
    StatePasses(env.base, w.control, FitRowsOf(env, site, w), AsyncValidation.Versions);
    forall p
      ensures AsyncWork.Broken(p, WorkReportOf(env, site, w), BundleOf(env, site)) <==> ClientsShow(p, env, site, w)
    {
      WorkAgrees(env, site, w, p);
    }
    forall p
      ensures AsyncValidation.Broken(p, ReportOf(env.base, w.control, FitRowsOf(env, site, w)))
              <==> p == AsyncValidation.Versions && w.control.version == 0
    {
      StatePasses(env.base, w.control, FitRowsOf(env, site, w), p);
    }
  }

  /** Every client says what is right, from one process of its own. */
  ghost predicate Truthful(env: LoopEnv, site: Site, w: Loop, process: map<ClientId, nat>) {
    && (forall k | 0 <= k < |w.dispatches| ::
          var c, m := w.dispatches[k].client, site.says.told(k + 1);
          && AsyncWork.ClaimsHold(WorkReportOf(env, site, w), site.says.crew, c, m) && TimesHold(m) && AmountsHold(m)
          && c in process && m.pid == Some(process[c]))
    && forall h | h in site.says.crew.hosts && h.cpu in process && h.gpu in process ::
         process[h.cpu] != process[h.gpu]
  }

  lemma TruthfulProcesses(env: LoopEnv, site: Site, w: Loop, process: map<ClientId, nat>)
    requires Truthful(env, site, w, process) && Everybody(env, w) && w.dispatches != []
    ensures !SomeChanged(SignsOf(site, w), env.base.order) && !SomeShared(SignsOf(site, w), site.says.crew)
  {
    var signs := SignsOf(site, w);
    forall c | c in env.base.order
      ensures exists s :: s in signs && s.client == c
    {
      var k :| 0 <= k < |w.dispatches| && w.dispatches[k].client == c;
      assert Sign(c, site.says.told(k + 1).pid) in signs;
    }
    OwnProcessesPass(signs, env.base.order, site.says.crew, process);
    hide AsyncWork.ClaimsHold, TimesHold, AmountsHold;
  }

  /** With truthful clients the dispatch and work receipts of such a run show no problem at all. */
  lemma TruthfulRunPasses(
      env: LoopEnv, model: Model, script: seq<Server.Choice>, site: Site, process: map<ClientId, nat>)
    requires ValidLoop(env)
    requires var w := RunLoop(env, model, script);
             w.stop.Some? && w.pending == map[] && w.dispatches != [] && Truthful(env, site, w, process)
    ensures var w := RunLoop(env, model, script);
            forall p :: !AsyncWork.Broken(p, WorkReportOf(env, site, w), BundleOf(env, site))
  {
    var w := RunLoop(env, model, script);
    ProducerAndCheckersAgree(env, model, script, site);
    RunEverybody(env, model, script);
    hide RunLoop, AsyncWork.Broken, AsyncValidation.Broken, AsyncValidation.Raises, Everybody, SignsOf;
    TruthfulProcesses(env, site, w, process);
    hide SomeChanged, SomeShared;
    forall p
      ensures !ClientsShow(p, env, site, w)
    {
      assert forall k | 0 <= k < |w.dispatches| :: !Wrongly(p, env, site, w, k);
    }
    hide ClientsShow, Truthful;
  }

  // ----- a run without a commit -----

  /** One client and a clock that is past the deadline as soon as the first call is out. */
  function IdleEnv(): LoopEnv {
    LoopEnv(AsyncEnv(AsyncConfig(FedAsync, 1, 1.0, d => 1.0, 2, 1.0), [0], Some(1.0), k => if k < 6 then 0.0 else 2.0),
            None, 1.0)
  }

  function IdleScript(): seq<Server.Choice> {
    [Server.Quiet, Server.Arrival(1, Model([], []), 0.0)]
  }

  lemma IdleStart()
    ensures var w := RunLoop(IdleEnv(), Model([], []), []);
            && w.control.ticks == 6 && w.control.version == 0 && w.control.model == Model([], []) && w.stop.None?
            && w.pending == map[1 := Server.Flight(Job(0, 0, 1, 0, None, 0.0), Model([], []))]
            && w.dispatches == [Row(0, 0, 1)]
  {
    var env, s := IdleEnv(), New(Model([], [])).(ticks := 4, initialized := true);
    var job := Job(0, 0, 1, 0, None, 0.0);
    assert DropLast([0]) == [];
    assert StartAll(env.base.cfg, s, [], 0.0) == (s, []);
    assert s.active[0 := job] == map[0 := job] && [] + [job] == [job];
    assert StartAll(env.base.cfg, s, [0], 0.0) == (s.(active := map[0 := job], nextSerial := 1), [job]);
    hide StartAll;
    var w := Evaluate(env, Empty(Model([], [])));
    var w1 := Tick(Tick(w)).(control := s.(active := map[0 := job], nextSerial := 1));
    assert DropLast([job]) == [];
    assert DispatchAll(env, w1, []) == w1;
    assert DispatchAll(env, w1, [job]) == Dispatch(env, w1, job);
  }

  /** The loop stops before the only answer comes, which is then drained: nothing was committed, and that is what
      the checker reports. */
  lemma IdleRun(site: Site)
    ensures ValidLoop(IdleEnv())
    ensures var w := RunLoop(IdleEnv(), Model([], []), IdleScript());
            && w.dispatches != [] && w.stop.Some? && w.pending == map[] && w.control.version == 0
            && AsyncValidation.Broken(AsyncValidation.Versions,
                                      ReportOf(IdleEnv().base, w.control, FitRowsOf(IdleEnv(), site, w)))
  {
    var env, model, script := IdleEnv(), Model([], []), IdleScript();
    IdleStops();
    hide RunLoop, AsyncValidation.Broken;
    ProducerAndCheckersAgree(env, model, script, site);
  }

  lemma IdleStops()
    ensures ValidLoop(IdleEnv())
    ensures var w := RunLoop(IdleEnv(), Model([], []), IdleScript());
            w.dispatches != [] && w.stop.Some? && w.pending == map[] && w.control.version == 0
  {
    var env, model, script := IdleEnv(), Model([], []), IdleScript();
    IdleStart();
    var w := RunLoop(env, model, []);
    hide Begin;
    assert DropLast(script) == [Server.Quiet] && DropLast([Server.Quiet]) == [];
    var w1 := RunLoop(env, model, [Server.Quiet]);
    assert w1 == AsyncServer.Step(env, w, Server.Quiet);
    assert LateAt(env.base, 6);
    assert w1 == Shutdown(Tick(w), Server.TimeBudget);
    assert RunLoop(env, model, script) == Drain(w1, script[1]);
  }

  /** FedBuff under the loop: the parameters are the initial ones plus rate / size times the committed deltas. */
  lemma LoopParameters(env: LoopEnv, model: Model, script: seq<Server.Choice>, i: nat)
    requires ValidLoop(env) && env.base.cfg.rule.FedBuff? && i < |model.params|
    ensures var s := RunLoop(env, model, script).control;
            && |s.model.params| == |model.params|
            && s.model.params[i]
               == model.params[i] + Mul(env.base.cfg.rate / env.base.cfg.size as real, DeltaSum(s.committed, i))
  {
    AsyncLoop.RunKeeps(env, model, script);
    hide RunLoop, ReceiptsOk, CallsOk, FitsOk, AsyncOk;
  }

  /** FedAsync under the loop: in every state the whole model is one combination of the initial and all committed
      models, with shares that are not negative and add up to one. */
  lemma LoopIsConvex(env: LoopEnv, model: Model, script: seq<Server.Choice>) returns (shares: seq<real>)
    requires ValidLoop(env) && env.base.cfg.rule.FedAsync?
    ensures OneCombination(model, RunLoop(env, model, script).control, shares)
  {
    AsyncLoop.RunKeeps(env, model, script);
    hide RunLoop, ReceiptsOk, CallsOk, FitsOk, AsyncOk, ModelOk, OneCombination;
    shares := ModelIsCombination(env.base.cfg, model, RunLoop(env, model, script).control);
  }
}
