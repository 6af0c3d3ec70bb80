/** The independent checker of the asynchronous dispatch and work receipts. */
module AsyncWork {
  import opened Common
  import opened Scheduling
  import opened BatchCycle
  import opened Metrics
  import AsyncFL
  import Validation

  /** One fit record with the metrics its client reported. */
  datatype WorkRow = WorkRow(
    dispatch: nat, client: ClientId, trained: nat, batches: nat, ordered: nat, examples: nat, reported: nat,
    told: Metrics)

  /** `mu` is the configured proximal coefficient. */
  datatype WorkReport = WorkReport(
    rule: AsyncFL.Rule, mu: real, steps: nat, plans: seq<Validation.Plan>, works: seq<WorkRow>, completed: nat)

  /** `Missing` is a client without a contribution or without a process of its own. */
  datatype Problem = Accounting | Identity | Work | Timestamps | Amounts | Missing | ProcessShared

  function Dispatches(works: seq<WorkRow>): seq<nat> {
    if works == [] then [] else Dispatches(DropLast(works)) + [Last(works).dispatch]
  }

  predicate Identified(planned: map<nat, Validation.Plan>, b: Validation.Bundle, row: WorkRow) {
    row.client in b.ids && row.dispatch in planned && planned[row.dispatch].client == row.client
  }

  /** The fixed number of steps was planned, assigned and trained, on the version sent, over the right examples. */
  predicate CountsHold(r: WorkReport, b: Validation.Bundle, job: Validation.Plan, row: WorkRow) {
    && job.steps == r.steps == row.batches == row.ordered && row.trained == job.version
    && row.examples == ExpectedExamples(Validation.SizeIn(b, row.client), b.batch, r.steps)
    && row.reported == row.examples
  }

  /** The right worker trained on the right data with the configured optimizer. */
  predicate ClaimsHold(r: WorkReport, crew: Crew, c: ClientId, m: Metrics) {
    && RightWorker(crew, c, m) && m.partition == crew.partition
    && m.proximal == if r.rule.FedAsync? then r.mu else 0.0
  }

  predicate RowBroken(
      p: Problem, r: WorkReport, b: Validation.Bundle, planned: map<nat, Validation.Plan>, row: WorkRow) {
    match p
    case Identity => !Identified(planned, b, row)
    case Work =>
      && Identified(planned, b, row)
      && !(CountsHold(r, b, planned[row.dispatch], row) && ClaimsHold(r, b.crew, row.client, row.told))
    case Timestamps => Identified(planned, b, row) && !TimesHold(row.told)
    case Amounts => Identified(planned, b, row) && !AmountsHold(row.told)
    case _ => false
  }

  ghost predicate SomeRow(
      p: Problem, r: WorkReport, b: Validation.Bundle, planned: map<nat, Validation.Plan>, works: seq<WorkRow>) {
    exists row :: row in works && RowBroken(p, r, b, planned, row)
  }

  /** The processes behind the records that count as their client's. */
  function Signs(planned: map<nat, Validation.Plan>, b: Validation.Bundle, works: seq<WorkRow>): set<Sign> {
    set row | row in works && Identified(planned, b, row) :: Sign(row.client, row.told.pid)
  }

  ghost predicate Broken(p: Problem, r: WorkReport, b: Validation.Bundle) {
    var planned := Validation.Planned(r.plans);
    match p
    case Accounting =>
      || r.works == [] || |planned| != |r.plans| || |r.works| != |planned| || |r.works| != r.completed
      || multiset(Dispatches(r.works)) != multiset(planned.Keys)
    case Missing => SomeChanged(Signs(planned, b, r.works), b.ids)
    case ProcessShared => SomeShared(Signs(planned, b, r.works), b.crew)
    case _ => SomeRow(p, r, b, planned, r.works)
  }

  predicate RowProblem(p: Problem) {
    p == Identity || p == Work || p == Timestamps || p == Amounts
  }

  /** Checks one fit record against its dispatch. */
  method CheckWork(r: WorkReport, b: Validation.Bundle, planned: map<nat, Validation.Plan>, row: WorkRow)
      returns (errors: seq<Problem>)
    ensures forall p :: p in errors <==> RowProblem(p) && RowBroken(p, r, b, planned, row)
  {
    if !Identified(planned, b, row) {
      return [Identity];
    }
    errors := [];
    if !CountsHold(r, b, planned[row.dispatch], row) || !ClaimsHold(r, b.crew, row.client, row.told) {
      errors := errors + [Work];
    }
    if !TimesHold(row.told) {
      errors := errors + [Timestamps];
    }
    if !AmountsHold(row.told) {
      errors := errors + [Amounts];
    }
    hide Identified, CountsHold, ClaimsHold, TimesHold, AmountsHold;
  }

  lemma NextRow(
      r: WorkReport, b: Validation.Bundle, planned: map<nat, Validation.Plan>, works: seq<WorkRow>, row: WorkRow)
    ensures forall p ::
              SomeRow(p, r, b, planned, works + [row])
              <==> SomeRow(p, r, b, planned, works) || RowBroken(p, r, b, planned, row)
    ensures Signs(planned, b, works + [row])
            == Signs(planned, b, works)
               + if Identified(planned, b, row) then {Sign(row.client, row.told.pid)} else {}
  {
    hide RowBroken, Identified;
    forall p
      ensures SomeRow(p, r, b, planned, works + [row])
              <==> SomeRow(p, r, b, planned, works) || RowBroken(p, r, b, planned, row)
    {
      if RowBroken(p, r, b, planned, row) {
        assert row in works + [row];
      }
      if SomeRow(p, r, b, planned, works) {
        var x :| x in works && RowBroken(p, r, b, planned, x);
        assert x in works + [row];
      }
    }
  }

  /** Checks every fit record and collects the processes. */
  method CheckWorks(r: WorkReport, b: Validation.Bundle, planned: map<nat, Validation.Plan>)
      returns (errors: seq<Problem>, signs: set<Sign>)
    ensures forall p :: p in errors <==> RowProblem(p) && SomeRow(p, r, b, planned, r.works)
    ensures signs == Signs(planned, b, r.works)
  {
    errors, signs := [], {};
    hide RowBroken, Identified;
    for k := 0 to |r.works|
      invariant forall p :: p in errors <==> RowProblem(p) && SomeRow(p, r, b, planned, r.works[..k])
      invariant signs == Signs(planned, b, r.works[..k])
    {
      var row := r.works[k];
      assert r.works[..k + 1] == r.works[..k] + [row];
      NextRow(r, b, planned, r.works[..k], row);
      var found := CheckWork(r, b, planned, row);
      errors := errors + found;
      if Identified(planned, b, row) {
        signs := signs + {Sign(row.client, row.told.pid)};
      }
      hide SomeRow, Signs;
    }
    assert r.works[..|r.works|] == r.works;
  }

  method CheckAccounting(r: WorkReport, planned: map<nat, Validation.Plan>) returns (broken: bool)
    requires planned == Validation.Planned(r.plans)
    ensures forall b :: broken == Broken(Accounting, r, b)
  {
    var counted: multiset<nat> := multiset{};
    for k := 0 to |r.works|
      invariant counted == multiset(Dispatches(r.works[..k]))
    {
      assert DropLast(r.works[..k + 1]) == r.works[..k];
      counted := counted + multiset{r.works[k].dispatch};
    }
    assert r.works[..|r.works|] == r.works;
    broken := r.works == [] || |planned| != |r.plans| || |r.works| != |planned| || |r.works| != r.completed
      || counted != multiset(planned.Keys);
  }

  lemma BrokenMeans(r: WorkReport, b: Validation.Bundle)
    ensures var planned := Validation.Planned(r.plans);
            && (forall p | RowProblem(p) :: Broken(p, r, b) <==> SomeRow(p, r, b, planned, r.works))
            && (Broken(Missing, r, b) <==> SomeChanged(Signs(planned, b, r.works), b.ids))
            && (Broken(ProcessShared, r, b) <==> SomeShared(Signs(planned, b, r.works), b.crew))
  {
  }

  function With(rows: seq<Problem>, holds: bool, p: Problem): (r: seq<Problem>)
    ensures forall q :: q in r <==> q in rows || (holds && q == p)
  {
    rows + if holds then [p] else []
  }

  /** Reports each problem exactly when the receipts have it. */
  method Validate(r: WorkReport, b: Validation.Bundle) returns (errors: seq<Problem>)
    ensures forall p :: p in errors <==> Broken(p, r, b)
  {
    var planned := Validation.CollectPlans(r.plans);
    var accounting := CheckAccounting(r, planned);
    var rows, signs := CheckWorks(r, b, planned);
    var changed, shared := CheckProcesses(signs, b.ids, b.crew);
    BrokenMeans(r, b);
    assert accounting <==> Broken(Accounting, r, b);
    hide Broken, SomeRow, SomeChanged, SomeShared, Signs, Validation.Planned, With;
    errors := With(With(With(rows, accounting, Accounting), changed, Missing), shared, ProcessShared);
  }
}
