/** The receipts of every asynchronous run pass the checker, unless nothing was committed. */
module AsyncAgreement {
  import opened Common
  import opened Scheduling
  import opened AsyncFL
  import opened AsyncProofs
  import opened AsyncReceipts
  import opened AsyncValidation
  import Compass
  import Validation

  /** The fit record of an accepted dispatch; discarded unless the controller said otherwise. */
  function FitOf(s: Async, a: Answered): FitRow {
    FitRow(a.dispatch, a.version, if a.dispatch in s.statuses then s.statuses[a.dispatch] else Compass.DiscardedAtStop,
           true)
  }

  function FitsOf(s: Async): (r: seq<FitRow>)
    ensures |r| == |s.answered|
  {
    seq(|s.answered|, k requires 0 <= k < |s.answered| => FitOf(s, s.answered[k]))
  }

  /** Fit records that go with a controller: one for every accepted dispatch with the version it was accepted for,
      possibly others, all with the controller's status or discarded. */
  ghost predicate FitsFor(s: Async, fits: seq<FitRow>) {
    && (forall i, j :: 0 <= i < j < |fits| ==> fits[i].dispatch != fits[j].dispatch)
    && (forall a | a in s.answered :: exists k ::
          0 <= k < |fits| && fits[k].dispatch == a.dispatch && fits[k].version == a.version)
    && forall k | 0 <= k < |fits| ::
         fits[k].status == if fits[k].dispatch in s.statuses then s.statuses[fits[k].dispatch]
               else Compass.DiscardedAtStop
  }

  lemma OwnFits(s: Async)
    requires AnswersOk(s)
    ensures FitsFor(s, FitsOf(s))
  {
    forall a | a in s.answered
      ensures exists k ::
            0 <= k < |FitsOf(s)| && FitsOf(s)[k].dispatch == a.dispatch
            && FitsOf(s)[k].version == a.version
    {
      var k :| 0 <= k < |s.answered| && s.answered[k] == a;
      assert FitsOf(s)[k] == FitOf(s, a);
    }
  }

  /** The result of a run with these fit records. */
  function ReportOf(env: AsyncEnv, s: Async, fits: seq<FitRow>): Report {
    Report(env.cfg, fits, s.records, s.version, env.budget)
  }

  lemma {:induction false} ByIdMeans(fits: seq<FitRow>)
    requires forall i, j :: 0 <= i < j < |fits| ==> fits[i].dispatch != fits[j].dispatch
    ensures forall d :: d in ById(fits) <==> exists k :: 0 <= k < |fits| && fits[k].dispatch == d
    ensures forall k | 0 <= k < |fits| :: ById(fits)[fits[k].dispatch] == fits[k]
  {
    if fits != [] {
      ByIdMeans(DropLast(fits));
    }
  }

  lemma {:induction false} AggregatedMeans(fits: seq<FitRow>)
    requires forall i, j :: 0 <= i < j < |fits| ==> fits[i].dispatch != fits[j].dispatch
    ensures Distinct(AggregatedIds(fits))
    ensures forall d ::
          d in AggregatedIds(fits)
          <==> exists k :: 0 <= k < |fits| && fits[k].dispatch == d && fits[k].status.Aggregated?
  {
    if fits != [] {
      AggregatedMeans(DropLast(fits));
      if Last(fits).status.Aggregated? {
        Repeats(AggregatedIds(DropLast(fits)), Last(fits).dispatch);
      }
    }
  }

  /** Two lists without repetition and with the same members have the same counts. */
  lemma {:induction false} SameCounts(s: seq<nat>, t: seq<nat>)
    requires Distinct(s) && Distinct(t) && forall d :: d in s <==> d in t
    ensures multiset(s) == multiset(t)
  {
    forall d: nat
      ensures multiset(s)[d] == multiset(t)[d]
    {
      OnceAtMost(s, d);
      OnceAtMost(t, d);
    }
  }

  lemma {:induction false} OnceAtMost(s: seq<nat>, d: nat)
    requires Distinct(s)
    ensures multiset(s)[d] == if d in s then 1 else 0
  {
    if s != [] {
      var front := DropLast(s);
      assert s == front + [Last(s)];
      Repeats(front, Last(s));
      OnceAtMost(front, d);
    }
  }

  lemma {:induction false} AppliedFrom(rs: seq<Record>, d: nat)
    requires d in Applied(rs)
    ensures exists k :: 0 <= k < |rs| && d in rs[k].dispatches
  {
    if d in Last(rs).dispatches {
      assert d in rs[|rs| - 1].dispatches;
    } else {
      AppliedFrom(DropLast(rs), d);
      var k :| 0 <= k < |rs| - 1 && d in DropLast(rs)[k].dispatches;
      assert d in rs[k].dispatches;
    }
  }

  /** The receipt of a dispatch that a row lists. */
  lemma ListedReceipt(env: AsyncEnv, s: Async, fits: seq<FitRow>, k: nat, d: nat)
    requires ReceiptsOk(env, s) && FitsFor(s, fits) && k < |s.records| && d in s.records[k].dispatches
    ensures d in ById(fits)
    ensures Entered(env.cfg, k, s.records[k].elapsed, ById(fits)[d].version, ById(fits)[d].status)
  {
    assert RowOk(env, s, k, s.records[k]);
    ByIdMeans(fits);
    assert HasAnswer(s, d);
    var i :| 0 <= i < |s.answered| && s.answered[i].dispatch == d;
    assert s.answered[i] in s.answered;
    var j :| 0 <= j < |fits| && fits[j].dispatch == d && fits[j].version == s.answered[i].version;
    assert ById(fits)[fits[j].dispatch] == fits[j];
  }

  lemma RowPasses(env: AsyncEnv, s: Async, fits: seq<FitRow>, k: nat, d: nat)
    requires ReceiptsOk(env, s) && FitsFor(s, fits) && k < |s.records| && d in s.records[k].dispatches
    ensures !LacksReceipt(ById(fits), s.records[k], d)
    ensures !Disagrees(ReportOf(env, s, fits), ById(fits), s.records[k], d)
    ensures !Powerless(ReportOf(env, s, fits), ById(fits), s.records[k], d)
  {
    ListedReceipt(env, s, fits, k, d);
    assert RowOk(env, s, k, s.records[k]);
    var fit := ById(fits)[d];
    hide ById, ReceiptsOk, FitsFor;
    Validation.CloseToItself(fit.status.weight);
    hide Validation.IsClose, WeightAfter;
  }

  /** A dispatch that a record lists is filed as aggregated. */
  lemma ListedIsAggregated(env: AsyncEnv, s: Async, fits: seq<FitRow>, d: nat)
    requires ReceiptsOk(env, s) && FitsFor(s, fits) && d in Applied(s.records)
    ensures exists k :: 0 <= k < |fits| && fits[k].dispatch == d && fits[k].status.Aggregated?
  {
    AppliedFrom(s.records, d);
    var k :| 0 <= k < |s.records| && d in s.records[k].dispatches;
    assert RowOk(env, s, k, s.records[k]) && HasAnswer(s, d);
    var i :| 0 <= i < |s.answered| && s.answered[i].dispatch == d;
    assert s.answered[i] in s.answered;
    var j :| 0 <= j < |fits| && fits[j].dispatch == d;
    assert fits[j].status.Aggregated?;
  }

  lemma AppliedPasses(env: AsyncEnv, s: Async, fits: seq<FitRow>)
    requires ReceiptsOk(env, s) && OncePlaced(s) && FitsFor(s, fits)
    ensures !Broken(AppliedDiffers, ReportOf(env, s, fits))
  {
    var applied, aggregated := Applied(s.records), AggregatedIds(fits);
    AggregatedMeans(fits);
    var all := s.committed + s.buffer;
    assert forall k | 0 <= k < |s.committed| :: all[k] == s.committed[k] && applied[k] == s.committed[k].dispatch;
    forall d
      ensures d in applied <==> d in aggregated
    {
      if d in applied {
        ListedIsAggregated(env, s, fits, d);
      }
      if d in aggregated {
        assert InModel(s, d);
        var u :| u in s.committed && u.dispatch == d;
        var k :| 0 <= k < |s.committed| && s.committed[k] == u;
        assert applied[k] == d;
      }
    }
    SameCounts(applied, aggregated);
  }

  lemma UnfinishedPasses(env: AsyncEnv, s: Async, fits: seq<FitRow>)
    requires StatusesOk(s) && FitsFor(s, fits)
    ensures !Broken(Unfinished, ReportOf(env, s, fits))
  {
    forall f | f in fits
      ensures Final(f.status)
    {
      var k :| 0 <= k < |fits| && fits[k] == f;
    }
  }

  lemma RowsPass(env: AsyncEnv, s: Async, fits: seq<FitRow>)
    requires ReceiptsOk(env, s) && FitsFor(s, fits)
    ensures var r := ReportOf(env, s, fits); !Broken(Incomplete, r) && !Broken(Endpoint, r) && !Broken(Population, r)
    ensures !Raises(ReportOf(env, s, fits))
  {
    forall row, d | row in s.records && d in row.dispatches
      ensures !LacksReceipt(ById(fits), row, d) && !Disagrees(ReportOf(env, s, fits), ById(fits), row, d)
      ensures !Powerless(ReportOf(env, s, fits), ById(fits), row, d)
    {
      var k :| 0 <= k < |s.records| && s.records[k] == row;
      RowPasses(env, s, fits, k, d);
    }
    forall row | row in s.records
      ensures |row.dispatches| == row.size == PerVersion(env.cfg)
    {
      var k :| 0 <= k < |s.records| && s.records[k] == row;
      assert RowOk(env, s, k, row);
    }
    hide LacksReceipt, Disagrees, Powerless, ById, ReceiptsOk, FitsFor;
  }

  /** Receipts in order show no problem, except that no committed update at all is reported. */
  lemma StatePasses(env: AsyncEnv, s: Async, fits: seq<FitRow>, p: Problem)
    requires ReceiptsOk(env, s) && OncePlaced(s) && RecordsOk(s) && FitsFor(s, fits)
    ensures Broken(p, ReportOf(env, s, fits)) <==> p == Versions && s.version == 0
    ensures !Raises(ReportOf(env, s, fits))
  {
    RowsPass(env, s, fits);
    hide Raises;
    match p
    case Unfinished => UnfinishedPasses(env, s, fits);
    case Versions =>
    case AppliedDiffers => AppliedPasses(env, s, fits);
    case Population =>
    case Incomplete =>
    case Endpoint =>
  }

  /** For every run and both rules: the receipts show no problem, except that a run without any committed
      update is reported for its versions. */
  lemma ReceiptsPass(env: AsyncEnv, model: Model, start: real, arrivals: seq<Arrival>, p: Problem)
    requires ValidAsync(env.cfg)
    ensures var s := Run(env, model, start, arrivals);
            && !Raises(ReportOf(env, s, FitsOf(s)))
            && (Broken(p, ReportOf(env, s, FitsOf(s))) <==> p == Versions && s.version == 0)
  {
    RunKeeps(env, model, start, arrivals);
    RunKeepsReceipts(env, model, start, arrivals);
    var s := Run(env, model, start, arrivals);
    hide Run;
    OwnFits(s);
    StatePasses(env, s, FitsOf(s), p);
  }
}
