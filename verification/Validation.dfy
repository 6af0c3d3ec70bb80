/** The checker of run receipts, and what makes a report pass it. */
module Validation {
  import opened Common
  import opened Scheduling
  import opened Compass
  import opened BatchCycle
  import opened Metrics

  datatype Plan = Plan(dispatch: nat, client: ClientId, version: nat, steps: nat)

  /** One fit record with the metrics its client reported. */
  datatype FitRow = FitRow(
    dispatch: nat, client: ClientId, batches: nat, version: nat, trainedVersion: nat,
    examples: nat, reported: nat, status: Status, told: Metrics)

  datatype AggregationRow = AggregationRow(version: nat, dispatches: seq<nat>)

  datatype Report = Report(
    cfg: Config, dispatches: seq<Plan>, fits: seq<FitRow>, completed: nat, aggregations: seq<AggregationRow>,
    globalUpdates: nat, rounds: nat, weights: map<ClientId, real>, budget: Option<real>)

  /** The frozen population the report is checked against. */
  datatype Bundle = Bundle(ids: seq<ClientId>, sizes: map<ClientId, Positive>, batch: Positive, crew: Crew)

  datatype Problem =
    | Accounting | Identity | Assignment | Examples | Unfinished | MissingClient
    | Versions | ClientWeights | Applied | Endpoint
    | WrongWorker | Timestamps | Amounts | ProcessChanged | ProcessShared

  // ----- what each problem means -----

  /** Dispatch rows by number; a repeated number keeps the later row. */
  function Planned(rows: seq<Plan>): map<nat, Plan> {
    if rows == [] then map[] else Planned(DropLast(rows))[Last(rows).dispatch := Last(rows)]
  }

  /** Rows numbered from one are found under their numbers. */
  lemma {:induction false} PlannedPrefix(rows: seq<Plan>)
    requires forall k | 0 <= k < |rows| :: rows[k].dispatch == k + 1
    ensures forall d :: d in Planned(rows) <==> 1 <= d <= |rows|
    ensures forall d | 1 <= d <= |rows| :: Planned(rows)[d] == rows[d - 1]
    ensures |Planned(rows)| == |rows|
  {
    if rows != [] {
      var front := DropLast(rows);
      PlannedPrefix(front);
      assert Planned(rows) == Planned(front)[|rows| := Last(rows)];
      assert Planned(rows).Keys == Planned(front).Keys + {|rows|};
      assert |Planned(front).Keys| == |Planned(front)| && |Planned(rows).Keys| == |Planned(rows)|;
    }
    hide Planned;
  }

  function FitDispatches(fits: seq<FitRow>): set<nat> {
    set row | row in fits :: row.dispatch
  }

  predicate Identified(r: Report, b: Bundle, row: FitRow) {
    var planned := Planned(r.dispatches);
    row.client in b.ids && row.dispatch in planned && planned[row.dispatch].client == row.client
  }

  predicate AssignmentHolds(r: Report, b: Bundle, row: FitRow, job: Plan) {
    && r.cfg.low <= job.steps <= r.cfg.high
    && row.batches == job.steps && row.trainedVersion == job.version && row.told.partition == b.crew.partition
  }

  function SizeIn(b: Bundle, c: ClientId): Positive {
    if c in b.sizes then b.sizes[c] else 1
  }

  predicate ExamplesHold(b: Bundle, row: FitRow, job: Plan) {
    row.examples == ExpectedExamples(SizeIn(b, row.client), b.batch, job.steps) && row.examples == row.reported
  }

  predicate Final(st: Status) {
    st != WaitingForGroup && st != LateBuffer
  }

  /** The clients that some record counts for. */
  function Contributors(r: Report, b: Bundle, fits: seq<FitRow>): set<ClientId> {
    set row | row in fits && Identified(r, b, row) :: row.client
  }

  /** The processes behind the records that count as their client's. */
  function Signs(r: Report, b: Bundle, fits: seq<FitRow>): set<Sign> {
    set row | row in fits && Identified(r, b, row) :: Sign(row.client, row.told.pid)
  }

  function Shares(b: Bundle): map<ClientId, real> {
    var total := Total(b.sizes, b.ids);
    map c | c in b.ids :: if total == 0 then 0.0 else SizeOf(b.sizes, c) as real / total as real
  }

  /** Equality up to the relative tolerance 1e-9. */
  predicate IsClose(a: real, b: real) {
    Abs(a - b) <= 0.000000001 * Max(Abs(a), Abs(b))
  }

  lemma CloseToItself(x: real)
    ensures IsClose(x, x)
  {
  }

  /** An aggregated row: staleness and weight follow from its versions, and it was committed in time. */
  predicate EndpointHolds(r: Report, shares: map<ClientId, real>, row: FitRow)
    requires row.status.Aggregated?
  {
    && row.client in shares
    && row.version + 1 <= row.status.version
    && row.status.staleness == row.status.version - 1 - row.version
    && IsClose(row.status.weight, MixingWeight(r.cfg.alpha, shares[row.client], r.cfg.decay(row.status.staleness)))
    && (r.budget.Some? ==> row.status.elapsed < r.budget.value)
  }

  function AppliedIds(rows: seq<AggregationRow>): seq<nat> {
    if rows == [] then [] else AppliedIds(DropLast(rows)) + Last(rows).dispatches
  }

  ghost predicate SameMembers(applied: seq<nat>, fits: seq<FitRow>) {
    && (forall d | d in applied :: exists row :: row in fits && row.status.Aggregated? && row.dispatch == d)
    && (forall row | row in fits && row.status.Aggregated? :: row.dispatch in applied)
  }

  /** The fit record alone shows the problem. */
  predicate RowBroken(p: Problem, r: Report, b: Bundle, row: FitRow) {
    var planned := Planned(r.dispatches);
    match p
    case Identity => !Identified(r, b, row)
    case Assignment => Identified(r, b, row) && !AssignmentHolds(r, b, row, planned[row.dispatch])
    case Examples => Identified(r, b, row) && !ExamplesHold(b, row, planned[row.dispatch])
    case Unfinished => Identified(r, b, row) && !Final(row.status)
    case Endpoint => row.status.Aggregated? && !EndpointHolds(r, Shares(b), row)
    case WrongWorker => Identified(r, b, row) && !RightWorker(b.crew, row.client, row.told)
    case Timestamps => Identified(r, b, row) && !TimesHold(row.told)
    case Amounts => Identified(r, b, row) && !AmountsHold(row.told)
    case _ => false
  }

  ghost predicate SomeRow(p: Problem, r: Report, b: Bundle, fits: seq<FitRow>) {
    exists row :: row in fits && RowBroken(p, r, b, row)
  }

  predicate RowProblem(p: Problem) {
    || p == Identity || p == Assignment || p == Examples || p == Unfinished
    || p == WrongWorker || p == Timestamps || p == Amounts
  }

  /** The report has the given problem. */
  ghost predicate Broken(p: Problem, r: Report, b: Bundle) {
    var planned := Planned(r.dispatches);
    match p
    case Accounting =>
      || r.fits == [] || |planned| != |r.dispatches| || |r.fits| != r.completed
      || FitDispatches(r.fits) != planned.Keys || |r.fits| != |planned|
    case Identity => SomeRow(p, r, b, r.fits)
    case Assignment => SomeRow(p, r, b, r.fits)
    case Examples => SomeRow(p, r, b, r.fits)
    case Unfinished => SomeRow(p, r, b, r.fits)
    case MissingClient => exists c :: c in b.ids && forall row | row in r.fits && Identified(r, b, row) ::
          row.client != c
    case Versions =>
      || r.rounds != r.globalUpdates || |r.aggregations| != r.globalUpdates
      || exists k :: 0 <= k < |r.aggregations| && r.aggregations[k].version != k + 1
    case ClientWeights => r.weights != Shares(b)
    case Applied => !Distinct(AppliedIds(r.aggregations)) || !SameMembers(AppliedIds(r.aggregations), r.fits)
    case Endpoint => SomeRow(p, r, b, r.fits)
    case WrongWorker => SomeRow(p, r, b, r.fits)
    case Timestamps => SomeRow(p, r, b, r.fits)
    case Amounts => SomeRow(p, r, b, r.fits)
    case ProcessChanged => SomeChanged(Signs(r, b, r.fits), b.ids)
    case ProcessShared => SomeShared(Signs(r, b, r.fits), b.crew)
  }

  /** The power in an aggregated record's weight has no value: zero to a negative exponent. Nothing catches it. */
  predicate Powerless(r: Report, shares: map<ClientId, real>, row: FitRow) {
    row.status.Aggregated? && row.client in shares && row.status.version == row.version && r.cfg.decay(1) < 1.0
  }

  ghost predicate Raises(r: Report, b: Bundle) {
    exists row :: row in r.fits && Powerless(r, Shares(b), row)
  }

  lemma NextRow(r: Report, b: Bundle, fits: seq<FitRow>, row: FitRow)
    ensures forall p :: SomeRow(p, r, b, fits + [row]) <==> SomeRow(p, r, b, fits) || RowBroken(p, r, b, row)
  {
    hide RowBroken;
    forall p ensures SomeRow(p, r, b, fits + [row]) <==> SomeRow(p, r, b, fits) || RowBroken(p, r, b, row) {
      if RowBroken(p, r, b, row) {
        assert row in fits + [row];
      }
      if SomeRow(p, r, b, fits) {
        var x :| x in fits && RowBroken(p, r, b, x);
        assert x in fits + [row];
      }
    }
  }

  // ----- the checker -----

  method CollectPlans(rows: seq<Plan>) returns (planned: map<nat, Plan>)
    ensures planned == Planned(rows)
  {
    planned := map[];
    for k := 0 to |rows|
      invariant planned == Planned(rows[..k])
    {
      assert DropLast(rows[..k + 1]) == rows[..k];
      planned := planned[rows[k].dispatch := rows[k]];
    }
    assert rows[..|rows|] == rows;
  }

  /** What the client says about itself. */
  method CheckClaims(b: Bundle, row: FitRow) returns (errors: seq<Problem>)
    ensures forall p :: p in errors <==>
              || (p == WrongWorker && !RightWorker(b.crew, row.client, row.told))
              || (p == Timestamps && !TimesHold(row.told))
              || (p == Amounts && !AmountsHold(row.told))
  {
    errors := [];
    if !RightWorker(b.crew, row.client, row.told) {
      errors := errors + [WrongWorker];
    }
    if !TimesHold(row.told) {
      errors := errors + [Timestamps];
    }
    if !AmountsHold(row.told) {
      errors := errors + [Amounts];
    }
    hide RightWorker, TimesHold, AmountsHold;
  }

  /** Checks one fit record against its dispatch. */
  method CheckRow(r: Report, b: Bundle, planned: map<nat, Plan>, row: FitRow) returns (errors: seq<Problem>)
    requires planned == Planned(r.dispatches)
    ensures forall p :: p in errors <==> RowProblem(p) && RowBroken(p, r, b, row)
  {
    if row.client !in b.ids || row.dispatch !in planned || planned[row.dispatch].client != row.client {
      return [Identity];
    }
    errors := [];
    var job := planned[row.dispatch];
    if !AssignmentHolds(r, b, row, job) {
      errors := errors + [Assignment];
    }
    if !ExamplesHold(b, row, job) {
      errors := errors + [Examples];
    }
    if !Final(row.status) {
      errors := errors + [Unfinished];
    }
    var claims := CheckClaims(b, row);
    errors := errors + claims;
  }

  /** Checks every fit record; `seen` are the clients that contributed, `signs` their processes. */
  method CheckFits(r: Report, b: Bundle, planned: map<nat, Plan>)
      returns (errors: seq<Problem>, seen: set<ClientId>, signs: set<Sign>)
    requires planned == Planned(r.dispatches)
    ensures forall p :: p in errors <==> RowProblem(p) && SomeRow(p, r, b, r.fits)
    ensures seen == Contributors(r, b, r.fits)
    ensures signs == Signs(r, b, r.fits)
  {
    errors, seen, signs := [], {}, {};
    hide RowBroken, Identified;
    for k := 0 to |r.fits|
      invariant forall p :: p in errors <==> RowProblem(p) && SomeRow(p, r, b, r.fits[..k])
      invariant seen == Contributors(r, b, r.fits[..k])
      invariant signs == Signs(r, b, r.fits[..k])
    {
      var row := r.fits[k];
      assert r.fits[..k + 1] == r.fits[..k] + [row];
      NextRow(r, b, r.fits[..k], row);
      var found := CheckRow(r, b, planned, row);
      errors := errors + found;
      if Identified(r, b, row) {
        seen, signs := seen + {row.client}, signs + {Sign(row.client, row.told.pid)};
      }
      hide SomeRow;
    }
    assert r.fits[..|r.fits|] == r.fits;
  }

  method CheckVersions(r: Report) returns (broken: bool)
    ensures forall b :: broken <==> Broken(Versions, r, b)
  {
    broken := r.rounds != r.globalUpdates || |r.aggregations| != r.globalUpdates;
    for k := 0 to |r.aggregations|
      invariant broken <==> (|| r.rounds != r.globalUpdates || |r.aggregations| != r.globalUpdates
                             || exists i :: 0 <= i < k && r.aggregations[i].version != i + 1)
    {
      if r.aggregations[k].version != k + 1 {
        broken := true;
      }
    }
  }

  /** Compares the dispatches listed by the aggregations with the rows that say they were aggregated. */
  method CheckApplied(r: Report) returns (broken: bool)
    ensures forall b :: broken <==> Broken(Applied, r, b)
  {
    var applied: seq<nat> := [];
    for k := 0 to |r.aggregations|
      invariant applied == AppliedIds(r.aggregations[..k])
    {
      assert DropLast(r.aggregations[..k + 1]) == r.aggregations[..k];
      applied := applied + r.aggregations[k].dispatches;
    }
    assert r.aggregations[..|r.aggregations|] == r.aggregations;
    var aggregated: set<nat> := {};
    for k := 0 to |r.fits|
      invariant aggregated == set row | row in r.fits[..k] && row.status.Aggregated? :: row.dispatch
    {
      assert r.fits[..k + 1] == r.fits[..k] + [r.fits[k]];
      if r.fits[k].status.Aggregated? {
        aggregated := aggregated + {r.fits[k].dispatch};
      }
    }
    assert r.fits[..|r.fits|] == r.fits;
    var distinct := Elements(applied);
    DistinctSize(applied);
    broken := |applied| != |distinct| || distinct != aggregated;
    SameMembersIsSetEquality(applied, r.fits);
  }

  lemma SameMembersIsSetEquality(applied: seq<nat>, fits: seq<FitRow>)
    ensures SameMembers(applied, fits)
            <==> (set d | d in applied) == (set row | row in fits && row.status.Aggregated? :: row.dispatch)
  {
    var left := set d | d in applied;
    var right := set row | row in fits && row.status.Aggregated? :: row.dispatch;
    if left == right {
      forall d | d in applied ensures exists row :: row in fits && row.status.Aggregated? && row.dispatch == d {
        assert d in left;
      }
      forall row | row in fits && row.status.Aggregated? ensures row.dispatch in applied {
        assert row.dispatch in right;
      }
    }
    if SameMembers(applied, fits) {
      forall d ensures d in left <==> d in right {
      }
    }
  }

  function Elements(s: seq<nat>): set<nat> {
    set d | d in s
  }

  lemma ElementsStep(s: seq<nat>)
    requires s != []
    ensures |Elements(s)| == |Elements(DropLast(s))| + (if Last(s) in DropLast(s) then 0 else 1)
    ensures Distinct(s) <==> Distinct(DropLast(s)) && Last(s) !in DropLast(s)
  {
    var front, x := DropLast(s), Last(s);
    assert s == front + [x];
    if x in front {
      assert Elements(s) == Elements(front);
    } else {
      assert x !in Elements(front) && Elements(s) == Elements(front) + {x};
    }
    assert x in front <==> exists i :: 0 <= i < |front| && s[i] == s[|s| - 1];
    assert forall i, j | 0 <= i < j < |front| :: front[i] == s[i] && front[j] == s[j];
  }

  /** A list has as many distinct members as positions exactly when it has no repetition. */
  lemma {:induction false} DistinctSize(s: seq<nat>)
    ensures |Elements(s)| <= |s|
    ensures |Elements(s)| == |s| <==> Distinct(s)
  {
    if s != [] {
      DistinctSize(DropLast(s));
      ElementsStep(s);
      hide Elements, Distinct;
    }
  }

  /** Recomputes every aggregated record's weight; None when a power has no value. */
  method CheckEndpoints(r: Report, b: Bundle) returns (broken: Option<bool>)
    ensures broken.None? <==> Raises(r, b)
    ensures broken.Some? ==> (broken.value <==> SomeRow(Endpoint, r, b, r.fits))
  {
    broken := Some(false);
    var shares := Shares(b);
    hide EndpointHolds, Shares;
    for k := 0 to |r.fits|
      invariant broken.Some? && (broken.value <==> SomeRow(Endpoint, r, b, r.fits[..k]))
      invariant forall row | row in r.fits[..k] :: !Powerless(r, shares, row)
    {
      var row := r.fits[k];
      assert r.fits[..k + 1] == r.fits[..k] + [row];
      NextRow(r, b, r.fits[..k], row);
      if Powerless(r, shares, row) {
        return None;
      }
      if row.status.Aggregated? && !EndpointHolds(r, shares, row) {
        broken := Some(true);
      }
      hide Powerless, SomeRow;
    }
    assert r.fits[..|r.fits|] == r.fits;
  }

  method CheckAccounting(r: Report, planned: map<nat, Plan>) returns (broken: bool)
    requires planned == Planned(r.dispatches)
    ensures forall b :: broken <==> Broken(Accounting, r, b)
  {
    broken := r.fits == [] || |planned| != |r.dispatches| || |r.fits| != r.completed
              || FitDispatches(r.fits) != planned.Keys || |r.fits| != |planned|;
  }

  method CheckContributions(r: Report, b: Bundle, seen: set<ClientId>) returns (broken: bool)
    requires seen == Contributors(r, b, r.fits)
    ensures broken <==> Broken(MissingClient, r, b)
  {
    broken := exists c :: c in b.ids && c !in seen;
    forall c ensures c !in seen <==> forall row | row in r.fits && Identified(r, b, row) :: row.client != c {
    }
  }

  function With(rows: seq<Problem>, holds: bool, p: Problem): (r: seq<Problem>)
    ensures forall q :: q in r <==> q in rows || (holds && q == p)
  {
    rows + if holds then [p] else []
  }

  predicate AboutBooks(p: Problem) {
    p == Versions || p == ClientWeights || p == Applied
  }

  /** The problems of the aggregation records. */
  method CheckBooks(r: Report, b: Bundle) returns (errors: seq<Problem>)
    ensures forall p :: p in errors <==> AboutBooks(p) && Broken(p, r, b)
  {
    var versions := CheckVersions(r);
    var weights := r.weights != Shares(b);
    var applied := CheckApplied(r);
    BrokenRows(r, b);
    assert versions <==> Broken(Versions, r, b);
    assert applied <==> Broken(Applied, r, b);
    hide Broken, Shares, With;
    errors := With(With(With([], versions, Versions), weights, ClientWeights), applied, Applied);
  }

  /** The problems that single records show, and those found over all of them. */
  method CheckWork(r: Report, b: Bundle) returns (rows: seq<Problem>, accounting: bool, missing: bool, signs: set<Sign>)
    ensures forall p :: p in rows <==> RowProblem(p) && Broken(p, r, b)
    ensures accounting <==> Broken(Accounting, r, b)
    ensures missing <==> Broken(MissingClient, r, b)
    ensures signs == Signs(r, b, r.fits)
  {
    var planned := CollectPlans(r.dispatches);
    accounting := CheckAccounting(r, planned);
    var seen: set<ClientId>;
    rows, seen, signs := CheckFits(r, b, planned);
    missing := CheckContributions(r, b, seen);
    BrokenRows(r, b);
    hide Broken, SomeRow, RowProblem, Planned, Signs, Contributors;
  }

  /** The problems of the dispatch and fit records, other than what the aggregated ones claim. */
  method CheckRecords(r: Report, b: Bundle) returns (errors: seq<Problem>)
    ensures forall p :: p in errors <==> !AboutBooks(p) && p != Endpoint && Broken(p, r, b)
  {
    var rows, accounting, missing, signs := CheckWork(r, b);
    var changed, shared := CheckProcesses(signs, b.ids, b.crew);
    BrokenOthers(r, b);
    hide Broken, SomeChanged, SomeShared, Signs, With;
    errors := With(With(rows, accounting, Accounting), missing, MissingClient);
    errors := With(With(errors, changed, ProcessChanged), shared, ProcessShared);
  }

  /** Reports each problem exactly when the report has it, unless a weight's power has no value. */
  method Validate(r: Report, b: Bundle) returns (errors: Option<seq<Problem>>)
    ensures errors.None? <==> Raises(r, b)
    ensures errors.Some? ==> forall p :: p in errors.value <==> Broken(p, r, b)
  {
    var records := CheckRecords(r, b);
    var books := CheckBooks(r, b);
    var endpoint := CheckEndpoints(r, b);
    if endpoint.None? {
      return None;
    }
    BrokenRows(r, b);
    hide Broken, SomeRow, Raises, With;
    errors := Some(With(records + books, endpoint.value, Endpoint));
  }

  lemma BrokenRows(r: Report, b: Bundle)
    ensures forall p | RowProblem(p) || p == Endpoint :: Broken(p, r, b) <==> SomeRow(p, r, b, r.fits)
    ensures Broken(ClientWeights, r, b) <==> r.weights != Shares(b)
  {
  }

  lemma BrokenOthers(r: Report, b: Bundle)
    ensures Broken(ProcessChanged, r, b) <==> SomeChanged(Signs(r, b, r.fits), b.ids)
    ensures Broken(ProcessShared, r, b) <==> SomeShared(Signs(r, b, r.fits), b.crew)
  {
  }
}
