/** Producer and checker agree: the receipts of every finished run pass validation. */
module ReportProofs {
  import opened Common
  import opened Scheduling
  import opened Compass
  import opened BooksProofs
  import opened CompassProofs
  import opened Server
  import opened ServerInvariants
  import opened ServerProofs
  import opened RunProofs
  import opened RunTheorems
  import opened BatchCycle
  import opened Metrics
  import opened Validation

  /** What a client reports for `steps` steps: the examples its training loop counts. */
  function TrainedExamples(env: Env, batch: Positive, c: ClientId, steps: nat): nat {
    Processed(if c in env.sizes then env.sizes[c] else 1, batch, steps)
  }

  function FitOf(env: Env, rs: Reporters, d: nat, r: Receipt): FitRow {
    var examples := TrainedExamples(env, rs.batch, r.client, r.steps);
    FitRow(d, r.client, r.steps, r.version, r.version, examples, examples, r.status, rs.told(d))
  }

  function NoReceipt(): Receipt {
    Receipt(0, 0, 0, None, DiscardedAtStop)
  }

  function FitsOf(env: Env, rs: Reporters, w: World): (r: seq<FitRow>)
    ensures |r| == |w.arrivals|
  {
    seq(|w.arrivals|, k requires 0 <= k < |w.arrivals| =>
      FitOf(env, rs, w.arrivals[k],
            if w.arrivals[k] in w.control.receipts then w.control.receipts[w.arrivals[k]] else NoReceipt()))
  }

  function PlansOf(w: World): (r: seq<Plan>)
    ensures |r| == |w.dispatches|
  {
    seq(|w.dispatches|, k requires 0 <= k < |w.dispatches| =>
      Plan(k + 1, w.dispatches[k].client, w.dispatches[k].version, w.dispatches[k].steps))
  }

  function RowsOf(aggregations: seq<Aggregation>): (r: seq<AggregationRow>)
    ensures |r| == |aggregations|
  {
    seq(|aggregations|, k requires 0 <= k < |aggregations| => AggregationRow(aggregations[k].version,
          aggregations[k].dispatches))
  }

  function WeightsOf(env: Env): map<ClientId, real> {
    map c | c in env.order :: Weight(env, c)
  }

  /** The result file of a run. */
  function ReportOf(env: Env, rs: Reporters, w: World): Report {
    Report(env.cfg, PlansOf(w), FitsOf(env, rs, w), |w.arrivals|, RowsOf(w.control.aggregations),
           w.control.version, w.control.version, WeightsOf(env), env.budget)
  }

  function BundleOf(env: Env, rs: Reporters): Bundle {
    Bundle(env.order, env.sizes, rs.batch, rs.crew)
  }

  /** A run that dispatched something, stopped, and got every call back. */
  ghost predicate Finished(env: Env, w: World) {
    && ValidEnv(env) && Stopped(env, w) && w.pending == map[] && w.dispatches != []
    && forall c | c in env.order :: exists k :: 0 <= k < |w.dispatches| && w.dispatches[k].client == c
  }

  // ----- dispatch accounting -----

  lemma FinishedNumbers(env: Env, w: World)
    requires Finished(env, w)
    ensures forall d :: d in w.control.receipts <==> 1 <= d <= |w.dispatches|
    ensures Distinct(w.arrivals) && forall d :: d in w.arrivals <==> 1 <= d <= |w.dispatches|
  {
    hide Books;
    assert Accounts(env, w);
    forall d ensures d in w.control.receipts <==> 1 <= d <= |w.dispatches| {
      assert d in w.control.receipts ==> 1 <= d <= |w.dispatches|;
    }
  }

  lemma {:induction false} UpTo(n: nat, s: set<nat>)
    requires forall d :: d in s <==> 1 <= d <= n
    ensures |s| == n
  {
    if n == 0 {
      assert s == {};
    } else {
      UpTo(n - 1, s - {n});
    }
  }

  lemma ArrivalCount(env: Env, w: World)
    requires Finished(env, w)
    ensures |w.arrivals| == |w.dispatches|
  {
    FinishedNumbers(env, w);
    hide Finished;
    DistinctSize(w.arrivals);
    UpTo(|w.dispatches|, Elements(w.arrivals));
  }

  lemma FitAt(env: Env, rs: Reporters, w: World, row: FitRow)
    requires Finished(env, w) && row in FitsOf(env, rs, w)
    ensures row.dispatch in w.control.receipts
    ensures row == FitOf(env, rs, row.dispatch, w.control.receipts[row.dispatch])
    ensures 1 <= row.dispatch <= |w.dispatches|
  {
    FinishedNumbers(env, w);
    hide Finished;
    var k :| 0 <= k < |w.arrivals| && FitsOf(env, rs, w)[k] == row;
    assert w.arrivals[k] in w.arrivals;
  }

  lemma FitOfDispatch(env: Env, rs: Reporters, w: World, d: nat)
    requires Finished(env, w) && 1 <= d <= |w.dispatches|
    ensures d in w.control.receipts && FitOf(env, rs, d, w.control.receipts[d]) in FitsOf(env, rs, w)
  {
    FinishedNumbers(env, w);
    hide Finished;
    assert d in w.arrivals;
    var k :| 0 <= k < |w.arrivals| && w.arrivals[k] == d;
    assert FitsOf(env, rs, w)[k] == FitOf(env, rs, d, w.control.receipts[d]);
  }

  lemma FitNumbers(env: Env, rs: Reporters, w: World)
    requires Finished(env, w)
    ensures forall d :: d in FitDispatches(FitsOf(env, rs, w)) <==> 1 <= d <= |w.dispatches|
  {
    hide Finished, FitsOf, FitOf;
    forall d ensures d in FitDispatches(FitsOf(env, rs, w)) <==> 1 <= d <= |w.dispatches| {
      if d in FitDispatches(FitsOf(env, rs, w)) {
        var row :| row in FitsOf(env, rs, w) && row.dispatch == d;
        FitAt(env, rs, w, row);
      }
      if 1 <= d <= |w.dispatches| {
        FitOfDispatch(env, rs, w, d);
        assert FitOf(env, rs, d, w.control.receipts[d]).dispatch
              == d by { FitNumber(env, rs, d, w.control.receipts[d]); }
      }
    }
  }

  lemma FitNumber(env: Env, rs: Reporters, d: nat, r: Receipt)
    ensures FitOf(env, rs, d, r).dispatch == d && FitOf(env, rs, d, r).client == r.client
            && FitOf(env, rs, d, r).status == r.status
  {
  }

  lemma AccountingPasses(env: Env, rs: Reporters, w: World)
    requires Finished(env, w)
    ensures !Broken(Accounting, ReportOf(env, rs, w), BundleOf(env, rs))
  {
    var r := ReportOf(env, rs, w);
    PlannedPrefix(r.dispatches);
    ArrivalCount(env, w);
    FitNumbers(env, rs, w);
    assert w.dispatches != [];
    hide Finished, FitsOf, FitDispatches, Planned;
    assert FitDispatches(r.fits) == Planned(r.dispatches).Keys;
  }

  // ----- fit records -----

  lemma ReceiptRow(env: Env, w: World, d: nat)
    requires Finished(env, w) && d in w.control.receipts
    ensures var rec := w.control.receipts[d];
            && RowFits(env, w, d, rec.client, rec.steps, rec.version, rec.group)
            && rec.client in env.order && env.cfg.low <= rec.steps <= env.cfg.high
  {
    hide Books;
    assert Accounts(env, w);
    var rec := w.control.receipts[d];
    assert RowFits(env, w, d, rec.client, rec.steps, rec.version, rec.group);
    assert w.dispatches[d - 1].client in Ids(env);
  }

  lemma PlannedAt(w: World, d: nat)
    requires 1 <= d <= |w.dispatches|
    ensures var planned := Planned(PlansOf(w));
            && d in planned
            && planned[d] == Plan(d, w.dispatches[d - 1].client, w.dispatches[d - 1].version, w.dispatches[d - 1].steps)
  {
    PlannedPrefix(PlansOf(w));
    hide Planned;
  }

  lemma RowIdentified(env: Env, rs: Reporters, w: World, row: FitRow)
    requires Finished(env, w) && row in FitsOf(env, rs, w)
    ensures var r := ReportOf(env, rs, w);
            && Identified(r, BundleOf(env, rs), row)
            && Planned(r.dispatches)[row.dispatch] == Plan(row.dispatch, row.client, row.version, row.batches)
            && env.cfg.low <= row.batches <= env.cfg.high
  {
    hide Finished, FitsOf, Planned, PlansOf, TrainedExamples;
    FitAt(env, rs, w, row);
    ReceiptRow(env, w, row.dispatch);
    PlannedAt(w, row.dispatch);
  }

  lemma RowFinal(env: Env, w: World, d: nat)
    requires Finished(env, w) && d in w.control.receipts
    ensures Final(w.control.receipts[d].status)
  {
    assert OpenHeld(w.control, []);
    hide LooseOk, Ledger, BufferOk, ArrivedOk;
  }

  /** What a client says about itself with one update is wrong. */
  predicate SaysWrong(p: Problem, crew: Crew, c: ClientId, m: Metrics) {
    match p
    case WrongWorker => !RightWorker(crew, c, m)
    case Assignment => m.partition != crew.partition
    case Timestamps => !TimesHold(m)
    case Amounts => !AmountsHold(m)
    case _ => false
  }

  function SignsOf(rs: Reporters, w: World): set<Sign> {
    set k | 0 <= k < |w.dispatches| :: Sign(w.dispatches[k].client, rs.told(k + 1).pid)
  }

  /** The problem is one that clients caused by what they said about themselves. */
  ghost predicate ClientsShow(p: Problem, env: Env, rs: Reporters, w: World) {
    match p
    case ProcessChanged => SomeChanged(SignsOf(rs, w), env.order)
    case ProcessShared => SomeShared(SignsOf(rs, w), rs.crew)
    case _ => exists k :: 0 <= k < |w.dispatches| && SaysWrong(p, rs.crew, w.dispatches[k].client, rs.told(k + 1))
  }

  /** A fit record shows what its client said, and no other problem. */
  lemma RowAgrees(env: Env, rs: Reporters, w: World, p: Problem, row: FitRow)
    requires Finished(env, w) && RowProblem(p) && row in FitsOf(env, rs, w)
    ensures RowBroken(p, ReportOf(env, rs, w), BundleOf(env, rs), row) <==> SaysWrong(p, rs.crew, row.client, row.told)
  {
    RowIdentified(env, rs, w, row);
    RowExamples(env, rs, w, row);
    hide Finished, FitsOf, ExamplesHold, Planned, Identified, RightWorker, TimesHold, AmountsHold, Final;
  }

  /** The counts of a fit record are those expected, and its status is final. */
  lemma RowExamples(env: Env, rs: Reporters, w: World, row: FitRow)
    requires Finished(env, w) && row in FitsOf(env, rs, w)
    ensures var b := BundleOf(env, rs);
            forall job: Plan | job.steps == row.batches :: ExamplesHold(b, row, job)
    ensures Final(row.status) && row.trainedVersion == row.version
  {
    FitAt(env, rs, w, row);
    ReceiptRow(env, w, row.dispatch);
    RowFinal(env, w, row.dispatch);
    ProcessedClosedForm(SizeIn(BundleOf(env, rs), row.client), rs.batch, row.batches);
    hide Finished, FitsOf, ExpectedExamples, Final;
  }

  /** A fit record repeats its dispatch row and carries what its client said. */
  lemma RowTold(env: Env, rs: Reporters, w: World, row: FitRow)
    requires Finished(env, w) && row in FitsOf(env, rs, w)
    ensures row.told == rs.told(row.dispatch) && 1 <= row.dispatch <= |w.dispatches|
    ensures row.client == w.dispatches[row.dispatch - 1].client
  {
    FitAt(env, rs, w, row);
    ReceiptRow(env, w, row.dispatch);
    hide Finished, FitsOf, TrainedExamples;
  }

  /** The record of a dispatch carries what its client said. */
  lemma DispatchRow(env: Env, rs: Reporters, w: World, k: nat) returns (row: FitRow)
    requires Finished(env, w) && k < |w.dispatches|
    ensures row in FitsOf(env, rs, w) && row.dispatch == k + 1 && row.client == w.dispatches[k].client
    ensures row.told == rs.told(k + 1)
  {
    hide Finished, FitsOf;
    FitOfDispatch(env, rs, w, k + 1);
    ReceiptRow(env, w, k + 1);
    row := FitOf(env, rs, k + 1, w.control.receipts[k + 1]);
  }

  lemma RowsAgree(env: Env, rs: Reporters, w: World, p: Problem)
    requires Finished(env, w) && RowProblem(p)
    ensures Broken(p, ReportOf(env, rs, w), BundleOf(env, rs)) <==> ClientsShow(p, env, rs, w)
  {
    var r, b := ReportOf(env, rs, w), BundleOf(env, rs);
    BrokenRows(r, b);
    hide Broken, RowBroken, Finished, SaysWrong, FitsOf;
    if Broken(p, r, b) {
      var row :| row in r.fits && RowBroken(p, r, b, row);
      RowAgrees(env, rs, w, p, row);
      RowTold(env, rs, w, row);
      assert SaysWrong(p, rs.crew, w.dispatches[row.dispatch - 1].client, rs.told(row.dispatch - 1 + 1));
    }
    if ClientsShow(p, env, rs, w) {
      var k :| 0 <= k < |w.dispatches| && SaysWrong(p, rs.crew, w.dispatches[k].client, rs.told(k + 1));
      var row := DispatchRow(env, rs, w, k);
      RowAgrees(env, rs, w, p, row);
      assert RowBroken(p, r, b, row);
    }
  }

  lemma SignsAgree(env: Env, rs: Reporters, w: World)
    requires Finished(env, w)
    ensures Signs(ReportOf(env, rs, w), BundleOf(env, rs), FitsOf(env, rs, w)) == SignsOf(rs, w)
  {
    var r, b := ReportOf(env, rs, w), BundleOf(env, rs);
    hide Finished, FitsOf, Identified, SaysWrong, RowBroken;
    forall s
      ensures s in Signs(r, b, r.fits) <==> s in SignsOf(rs, w)
    {
      if s in Signs(r, b, r.fits) {
        var row :| row in r.fits && Identified(r, b, row) && s == Sign(row.client, row.told.pid);
        RowTold(env, rs, w, row);
        assert s == Sign(w.dispatches[row.dispatch - 1].client, rs.told(row.dispatch - 1 + 1).pid);
      }
      if s in SignsOf(rs, w) {
        var k :| 0 <= k < |w.dispatches| && s == Sign(w.dispatches[k].client, rs.told(k + 1).pid);
        var row := DispatchRow(env, rs, w, k);
        RowIdentified(env, rs, w, row);
      }
    }
  }

  /** Some fit record of client `c` counts as its contribution. */
  lemma Contributes(env: Env, rs: Reporters, w: World, c: ClientId) returns (row: FitRow)
    requires Finished(env, w) && c in env.order
    ensures row in FitsOf(env, rs, w) && row.client == c
  {
    var k :| 0 <= k < |w.dispatches| && w.dispatches[k].client == c;
    hide Finished, FitsOf;
    row := DispatchRow(env, rs, w, k);
  }

  lemma ContributionsPass(env: Env, rs: Reporters, w: World)
    requires Finished(env, w)
    ensures !Broken(MissingClient, ReportOf(env, rs, w), BundleOf(env, rs))
  {
    var r := ReportOf(env, rs, w);
    var b := BundleOf(env, rs);
    hide Finished, Identified, FitsOf;
    forall c | c in b.ids ensures exists row :: row in r.fits && Identified(r, b, row) && row.client == c {
      var row := Contributes(env, rs, w, c);
      RowIdentified(env, rs, w, row);
    }
  }

  // ----- aggregations -----

  lemma VersionsPass(env: Env, rs: Reporters, w: World)
    requires Finished(env, w)
    ensures !Broken(Versions, ReportOf(env, rs, w), BundleOf(env, rs))
  {
    var s := w.control;
    assert Ledger(env, s);
    forall k | 0 <= k < |s.aggregations| ensures s.aggregations[k].version == k + 1 {
      assert RecordOk(env, s.receipts, k, s.aggregations[k]);
    }
    hide Finished;
  }

  lemma WeightsPass(env: Env, rs: Reporters)
    ensures WeightsOf(env) == Shares(BundleOf(env, rs))
  {
    forall c | c in env.order ensures WeightsOf(env)[c] == Shares(BundleOf(env, rs))[c] {
    }
  }

  /** The first `n` records list distinct dispatches, all aggregated at a version up to `n`. */
  lemma {:induction false} AppliedPrefix(env: Env, s: Controller, n: nat)
    requires Ledger(env, s) && n <= |s.aggregations|
    ensures var ids := AppliedIds(RowsOf(s.aggregations[..n]));
            && Distinct(ids)
            && (forall d | d in ids :: d in s.receipts && s.receipts[d].status.Aggregated?
                  && s.receipts[d].status.version <= n)
            && (forall k, d | 0 <= k < n && d in s.aggregations[k].dispatches :: d in ids)
  {
    if n > 0 {
      AppliedPrefix(env, s, n - 1);
      var a := s.aggregations[n - 1];
      assert RecordOk(env, s.receipts, n - 1, a);
      hide Ledger;
      var rows := RowsOf(s.aggregations[..n]);
      assert DropLast(rows) == RowsOf(s.aggregations[..n - 1]);
      assert Last(rows).dispatches == a.dispatches;
      var before := AppliedIds(RowsOf(s.aggregations[..n - 1]));
      assert AppliedIds(rows) == before + a.dispatches;
      forall d | d in a.dispatches ensures d in s.receipts && s.receipts[d].status.Aggregated?
            && s.receipts[d].status.version == n {
      }
      DistinctJoin(before, a.dispatches);
    } else {
      assert RowsOf(s.aggregations[..0]) == [];
    }
  }

  lemma DistinctJoin(a: seq<nat>, b: seq<nat>)
    requires Distinct(a) && Distinct(b) && forall d | d in b :: d !in a
    ensures Distinct(a + b)
  {
    forall i, j | 0 <= i < j < |a + b| ensures (a + b)[i] != (a + b)[j] {
      if i < |a| <= j {
        assert b[j - |a|] in b;
      }
    }
  }

  lemma AppliedPasses(env: Env, rs: Reporters, w: World)
    requires Finished(env, w)
    ensures !Broken(Applied, ReportOf(env, rs, w), BundleOf(env, rs))
  {
    var s := w.control;
    assert Ledger(env, s);
    var r := ReportOf(env, rs, w);
    AppliedPrefix(env, s, |s.aggregations|);
    assert s.aggregations[..|s.aggregations|] == s.aggregations;
    var ids := AppliedIds(r.aggregations);
    forall d | d in ids ensures exists row :: row in r.fits && row.status.Aggregated? && row.dispatch == d {
      FinishedNumbers(env, w);
      FitOfDispatch(env, rs, w, d);
      var row := FitOf(env, rs, d, s.receipts[d]);
      assert row in r.fits && row.status.Aggregated? && row.dispatch == d;
    }
    forall row | row in r.fits && row.status.Aggregated? ensures row.dispatch in ids {
      FitAt(env, rs, w, row);
    }
    hide Finished, Ledger;
  }

  lemma AggregatedReceipt(env: Env, w: World, d: nat)
    requires Finished(env, w) && d in w.control.receipts && w.control.receipts[d].status.Aggregated?
    ensures AggregatedOk(env, w.control.version, w.control.receipts[d])
    ensures w.control.receipts[d].client in env.order
  {
    assert Ledger(env, w.control);
    ReceiptRow(env, w, d);
    hide Finished;
  }

  lemma EndpointPasses(env: Env, rs: Reporters, w: World, row: FitRow)
    requires Finished(env, w) && row in FitsOf(env, rs, w) && row.status.Aggregated?
    ensures EndpointHolds(ReportOf(env, rs, w), WeightsOf(env), row)
  {
    FitAt(env, rs, w, row);
    AggregatedReceipt(env, w, row.dispatch);
    hide Finished, IsClose, FitsOf, TrainedExamples, Weight, MixingWeight;
    CloseToItself(row.status.weight);
  }

  lemma EndpointsPass(env: Env, rs: Reporters, w: World)
    requires Finished(env, w)
    ensures !Broken(Endpoint, ReportOf(env, rs, w), BundleOf(env, rs))
  {
    var r := ReportOf(env, rs, w);
    BrokenRows(r, BundleOf(env, rs));
    WeightsPass(env, rs);
    hide Broken, Finished, EndpointHolds, FitsOf, WeightsOf, Shares;
    forall row | row in r.fits && row.status.Aggregated? ensures EndpointHolds(r, WeightsOf(env), row) {
      EndpointPasses(env, rs, w, row);
    }
  }

  /** No aggregated record asks for a power without a value. */
  lemma NothingRaised(env: Env, rs: Reporters, w: World)
    requires Finished(env, w)
    ensures !Raises(ReportOf(env, rs, w), BundleOf(env, rs))
  {
    var r, b := ReportOf(env, rs, w), BundleOf(env, rs);
    WeightsPass(env, rs);
    hide Finished, FitsOf, WeightsOf, Shares, IsClose, MixingWeight;
    forall row | row in r.fits && row.status.Aggregated?
      ensures !Powerless(r, Shares(b), row)
    {
      EndpointPasses(env, rs, w, row);
    }
  }

  // ----- the agreement -----

  predicate ControlProblem(p: Problem) {
    || p == Accounting || p == MissingClient || p == Versions || p == ClientWeights || p == Applied || p == Endpoint
  }

  lemma ControlPasses(env: Env, rs: Reporters, w: World, p: Problem)
    requires Finished(env, w) && ControlProblem(p)
    ensures !Broken(p, ReportOf(env, rs, w), BundleOf(env, rs))
  {
    AccountingPasses(env, rs, w);
    ContributionsPass(env, rs, w);
    VersionsPass(env, rs, w);
    AppliedPasses(env, rs, w);
    EndpointsPass(env, rs, w);
    WeightsPass(env, rs);
    BrokenRows(ReportOf(env, rs, w), BundleOf(env, rs));
    hide Finished, Broken, WeightsOf, Shares;
  }

  lemma FinishedAgrees(env: Env, rs: Reporters, w: World, p: Problem)
    requires Finished(env, w)
    ensures Broken(p, ReportOf(env, rs, w), BundleOf(env, rs)) <==> ClientsShow(p, env, rs, w)
  {
    hide Finished, Broken, ClientsShow, ReportOf, BundleOf;
    if RowProblem(p) {
      RowsAgree(env, rs, w, p);
    } else if ControlProblem(p) {
      ControlPasses(env, rs, w, p);
      NotByClients(p, env, rs, w);
    } else {
      ProcessesAgree(env, rs, w, p);
    }
  }

  lemma NotByClients(p: Problem, env: Env, rs: Reporters, w: World)
    requires ControlProblem(p)
    ensures !ClientsShow(p, env, rs, w)
  {
  }

  lemma ProcessesAgree(env: Env, rs: Reporters, w: World, p: Problem)
    requires Finished(env, w) && (p == ProcessChanged || p == ProcessShared)
    ensures Broken(p, ReportOf(env, rs, w), BundleOf(env, rs)) <==> ClientsShow(p, env, rs, w)
  {
    hide Finished, Broken, SomeChanged, SomeShared, Signs, SignsOf, PlansOf, FitsOf, WeightsOf, RowsOf;
    SignsAgree(env, rs, w);
    BrokenOthers(ReportOf(env, rs, w), BundleOf(env, rs));
  }

  /** Every run that started, stopped and drained leaves receipts that can be checked, and whose only problems are
      those that clients caused by what they said about themselves. */
  lemma ProducerAndCheckerAgree(env: Env, model: Model, script: seq<Choice>, rs: Reporters)
    requires ServerEnv(env)
    requires var w := Run(env, model, script);
             w.stop.Some? && w.pending == map[] && w.dispatches != []
    ensures var w := Run(env, model, script);
            && !Raises(ReportOf(env, rs, w), BundleOf(env, rs))
            && forall p :: Broken(p, ReportOf(env, rs, w), BundleOf(env, rs)) <==> ClientsShow(p, env, rs, w)
  {
    var w := Run(env, model, script);
    RunKeeps(env, model, script);
    RunRows(env, model, script);
    hide Run, Broken, Books, Accounts;
    assert Finished(env, w);
    hide Finished;
    NothingRaised(env, rs, w);
    forall p ensures Broken(p, ReportOf(env, rs, w), BundleOf(env, rs)) <==> ClientsShow(p, env, rs, w) {
      FinishedAgrees(env, rs, w, p);
    }
  }

  /** Every client says what is right, from one process of its own. */
  ghost predicate Truthful(env: Env, rs: Reporters, w: World, process: map<ClientId, nat>) {
    && (forall k | 0 <= k < |w.dispatches| ::
          var c, m := w.dispatches[k].client, rs.told(k + 1);
          && RightWorker(rs.crew, c, m) && m.partition == rs.crew.partition && TimesHold(m) && AmountsHold(m)
          && c in process && m.pid == Some(process[c]))
    && forall h | h in rs.crew.hosts && h.cpu in process && h.gpu in process :: process[h.cpu] != process[h.gpu]
  }

  /** With truthful clients the receipts of such a run show no problem at all. */
  lemma TruthfulRunPasses(env: Env, model: Model, script: seq<Choice>, rs: Reporters, process: map<ClientId, nat>)
    requires ServerEnv(env)
    requires var w := Run(env, model, script);
             w.stop.Some? && w.pending == map[] && w.dispatches != [] && Truthful(env, rs, w, process)
    ensures forall p :: !Broken(p, ReportOf(env, rs, Run(env, model, script)), BundleOf(env, rs))
  {
    var w := Run(env, model, script);
    ProducerAndCheckerAgree(env, model, script, rs);
    RunRows(env, model, script);
    hide Run, Broken;
    TruthfulShowsNothing(env, rs, w, process);
    hide ClientsShow, Truthful, ReportOf, BundleOf;
  }

  lemma TruthfulShowsNothing(env: Env, rs: Reporters, w: World, process: map<ClientId, nat>)
    requires Truthful(env, rs, w, process)
    requires forall c | c in env.order :: exists k :: 0 <= k < |w.dispatches| && w.dispatches[k].client == c
    ensures forall p :: !ClientsShow(p, env, rs, w)
  {
    TruthfulProcesses(env, rs, w, process);
    hide SomeChanged, SomeShared, SignsOf;
    forall p
      ensures !ClientsShow(p, env, rs, w)
    {
      assert forall k | 0 <= k < |w.dispatches| :: !SaysWrong(p, rs.crew, w.dispatches[k].client, rs.told(k + 1));
    }
  }

  lemma TruthfulProcesses(env: Env, rs: Reporters, w: World, process: map<ClientId, nat>)
    requires Truthful(env, rs, w, process)
    requires forall c | c in env.order :: exists k :: 0 <= k < |w.dispatches| && w.dispatches[k].client == c
    ensures !SomeChanged(SignsOf(rs, w), env.order) && !SomeShared(SignsOf(rs, w), rs.crew)
  {
    var signs := SignsOf(rs, w);
    forall c | c in env.order
      ensures exists s :: s in signs && s.client == c
    {
      var k :| 0 <= k < |w.dispatches| && w.dispatches[k].client == c;
      assert Sign(c, rs.told(k + 1).pid) in signs;
    }
    OwnProcessesPass(signs, env.order, rs.crew, process);
    hide RightWorker, TimesHold, AmountsHold;
  }
}
