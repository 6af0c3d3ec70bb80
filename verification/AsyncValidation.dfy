/** The independent checker of the asynchronous aggregation receipts: it reads the result of a run and lists
    what is wrong with it. */
module AsyncValidation {
  import opened Common
  import opened Scheduling
  import opened AsyncFL
  import opened AsyncProofs
  import opened AsyncReceipts
  import Compass
  import Validation

  /** One fit record: its dispatch, the version it was trained from, what became of it, and whether its client is
      known and the one its dispatch was planned for. */
  datatype FitRow = FitRow(dispatch: nat, version: nat, status: Compass.Status, identified: bool)

  datatype Report = Report(cfg: AsyncConfig, fits: seq<FitRow>, rows: seq<Record>, updates: nat, budget: Option<real>)

  datatype Problem = Unfinished | Versions | AppliedDiffers | Population | Incomplete | Endpoint

  predicate Final(st: Compass.Status) {
    st.Aggregated? || st.UnaggregatedAtStop? || st.DiscardedAtStop?
  }

  function AggregatedIds(fits: seq<FitRow>): seq<nat> {
    if fits == [] then []
    else AggregatedIds(DropLast(fits)) + if Last(fits).status.Aggregated? then [Last(fits).dispatch] else []
  }

  /** The fit records by dispatch; a repeated dispatch keeps the later one. */
  function ById(fits: seq<FitRow>): map<nat, FitRow> {
    if fits == [] then map[] else ById(DropLast(fits))[Last(fits).dispatch := Last(fits)]
  }

  /** A dispatch of an aggregation without the receipt that goes with it. */
  predicate LacksReceipt(fits: map<nat, FitRow>, row: Record, d: nat) {
    d !in fits || (fits[d].version + 1 <= row.version && !fits[d].status.Aggregated?)
  }

  /** A receipt that does not agree with its aggregation. */
  predicate Disagrees(r: Report, fits: map<nat, FitRow>, row: Record, d: nat) {
    && d in fits && !LacksReceipt(fits, row, d)
    && (row.version < fits[d].version + 1
        || (var st, delay := fits[d].status, row.version - 1 - fits[d].version;
            || st.staleness != delay
            || !Validation.IsClose(st.weight, WeightAfter(r.cfg, delay))
            || st.version != row.version || st.elapsed != row.elapsed
            || (r.budget.Some? && row.elapsed >= r.budget.value)))
  }

  /** The power in the weight has no value: zero to a negative exponent. Nothing catches it. */
  predicate Powerless(r: Report, fits: map<nat, FitRow>, row: Record, d: nat) {
    r.cfg.rule.FedAsync? && r.cfg.decay(1) < 1.0 && d in fits && row.version == fits[d].version
  }

  ghost predicate Raises(r: Report) {
    exists row, d :: row in r.rows && d in row.dispatches && Powerless(r, ById(r.fits), row, d)
  }

  ghost predicate Broken(p: Problem, r: Report) {
    match p
    case Unfinished => exists f :: f in r.fits && f.identified && !Final(f.status)
    case Versions => r.rows == [] || |r.rows| != r.updates || exists k ::
          0 <= k < |r.rows| && r.rows[k].version != k + 1
    case AppliedDiffers => multiset(Applied(r.rows)) != multiset(AggregatedIds(r.fits)) || !Distinct(Applied(r.rows))
    case Population => exists row ::
          row in r.rows
          && (|row.dispatches| != PerVersion(r.cfg) || row.size != PerVersion(r.cfg))
    case Incomplete => exists row, d :: row in r.rows && d in row.dispatches && LacksReceipt(ById(r.fits), row, d)
    case Endpoint => exists row, d :: row in r.rows && d in row.dispatches && Disagrees(r, ById(r.fits), row, d)
  }

  // ----- the checker -----

  method CheckFits(r: Report) returns (broken: bool)
    ensures broken == Broken(Unfinished, r)
  {
    broken := false;
    for k := 0 to |r.fits|
      invariant broken == exists f :: f in r.fits[..k] && f.identified && !Final(f.status)
    {
      assert r.fits[..k + 1] == r.fits[..k] + [r.fits[k]];
      broken := broken || (r.fits[k].identified && !Final(r.fits[k].status));
    }
    assert r.fits[..|r.fits|] == r.fits;
  }

  method CheckVersions(r: Report) returns (broken: bool)
    ensures broken == Broken(Versions, r)
  {
    broken := r.rows == [] || |r.rows| != r.updates;
    for k := 0 to |r.rows|
      invariant broken == (r.rows == [] || |r.rows| != r.updates || exists i ::
            0 <= i < k && r.rows[i].version != i + 1)
    {
      broken := broken || r.rows[k].version != k + 1;
    }
  }

  /** Counts the applied and the aggregated dispatches. */
  method CheckApplied(r: Report) returns (broken: bool)
    ensures broken == Broken(AppliedDiffers, r)
  {
    var applied, seen: set<nat>, repeated := [], {}, false;
    for k := 0 to |r.rows|
      invariant applied == Applied(r.rows[..k])
    {
      assert DropLast(r.rows[..k + 1]) == r.rows[..k];
      applied := applied + r.rows[k].dispatches;
    }
    assert r.rows[..|r.rows|] == r.rows;
    for k := 0 to |applied|
      invariant seen == set d | d in applied[..k]
      invariant repeated == !Distinct(applied[..k])
    {
      Repeats(applied[..k], applied[k]);
      assert applied[..k + 1] == applied[..k] + [applied[k]];
      repeated := repeated || applied[k] in seen;
      seen := seen + {applied[k]};
    }
    assert applied[..|applied|] == applied;
    var aggregated := [];
    for k := 0 to |r.fits|
      invariant aggregated == AggregatedIds(r.fits[..k])
    {
      assert DropLast(r.fits[..k + 1]) == r.fits[..k];
      if r.fits[k].status.Aggregated? {
        aggregated := aggregated + [r.fits[k].dispatch];
      }
    }
    assert r.fits[..|r.fits|] == r.fits;
    broken := multiset(applied) != multiset(aggregated) || repeated;
  }

  lemma Repeats(s: seq<nat>, x: nat)
    ensures Distinct(s + [x]) <==> Distinct(s) && x !in s
  {
    var t := s + [x];
    assert forall i | 0 <= i < |s| :: t[i] == s[i];
    assert t[|s|] == x;
  }

  method Index(r: Report) returns (byId: map<nat, FitRow>)
    ensures byId == ById(r.fits)
  {
    byId := map[];
    for k := 0 to |r.fits|
      invariant byId == ById(r.fits[..k])
    {
      assert DropLast(r.fits[..k + 1]) == r.fits[..k];
      byId := byId[r.fits[k].dispatch := r.fits[k]];
    }
    assert r.fits[..|r.fits|] == r.fits;
  }

  /** Checks one aggregation: its population, and every dispatch against its receipt; None when a power has no
      value. */
  method CheckRow(
      r: Report, byId: map<nat, FitRow>,
      row: Record) returns (population: bool, incomplete: bool, endpoint: Option<bool>)
    ensures population == (|row.dispatches| != PerVersion(r.cfg) || row.size != PerVersion(r.cfg))
    ensures endpoint.None? <==> exists d :: d in row.dispatches && Powerless(r, byId, row, d)
    ensures endpoint.Some? ==> incomplete == exists d :: d in row.dispatches && LacksReceipt(byId, row, d)
    ensures endpoint.Some? ==> endpoint.value == exists d :: d in row.dispatches && Disagrees(r, byId, row, d)
  {
    hide LacksReceipt, Disagrees, Powerless;
    population := |row.dispatches| != PerVersion(r.cfg) || row.size != PerVersion(r.cfg);
    incomplete, endpoint := false, Some(false);
    for k := 0 to |row.dispatches|
      invariant endpoint.Some? && forall d | d in row.dispatches[..k] :: !Powerless(r, byId, row, d)
      invariant incomplete == exists d :: d in row.dispatches[..k] && LacksReceipt(byId, row, d)
      invariant endpoint.value == exists d :: d in row.dispatches[..k] && Disagrees(r, byId, row, d)
    {
      assert row.dispatches[..k + 1] == row.dispatches[..k] + [row.dispatches[k]];
      if Powerless(r, byId, row, row.dispatches[k]) {
        return population, incomplete, None;
      }
      incomplete := incomplete || LacksReceipt(byId, row, row.dispatches[k]);
      endpoint := Some(endpoint.value || Disagrees(r, byId, row, row.dispatches[k]));
    }
    assert row.dispatches[..|row.dispatches|] == row.dispatches;
  }

  method CheckRows(r: Report) returns (population: bool, incomplete: bool, endpoint: Option<bool>)
    ensures endpoint.None? <==> Raises(r)
    ensures endpoint.Some? ==>
              && population == Broken(Population, r) && incomplete == Broken(Incomplete, r)
              && endpoint.value == Broken(Endpoint, r)
  {
    hide LacksReceipt, Disagrees, Powerless, PerVersion;
    var byId := Index(r);
    population, incomplete, endpoint := false, false, Some(false);
    for k := 0 to |r.rows|
      invariant endpoint.Some?
      invariant forall row, d | row in r.rows[..k] && d in row.dispatches :: !Powerless(r, byId, row, d)
      invariant population == exists row ::
            row in r.rows[..k]
            && (|row.dispatches| != PerVersion(r.cfg) || row.size != PerVersion(r.cfg))
      invariant incomplete == exists row, d :: row in r.rows[..k] && d in row.dispatches && LacksReceipt(byId, row, d)
      invariant endpoint.value == exists row, d ::
            row in r.rows[..k] && d in row.dispatches && Disagrees(r, byId, row, d)
    {
      assert r.rows[..k + 1] == r.rows[..k] + [r.rows[k]];
      var p, i, e := CheckRow(r, byId, r.rows[k]);
      if e.None? {
        return population, incomplete, None;
      }
      population, incomplete, endpoint := population || p, incomplete || i, Some(endpoint.value || e.value);
    }
    assert r.rows[..|r.rows|] == r.rows;
  }

  function With(found: seq<Problem>, holds: bool, p: Problem): (r: seq<Problem>)
    ensures forall q :: q in r <==> q in found || (holds && q == p)
  {
    found + if holds then [p] else []
  }

  /** Reports each problem exactly when the receipts have it, unless a weight's power has no value. */
  method Validate(r: Report) returns (errors: Option<seq<Problem>>)
    ensures errors.None? <==> Raises(r)
    ensures errors.Some? ==> forall p :: p in errors.value <==> Broken(p, r)
  {
    hide Broken, Raises, With;
    var unfinished := CheckFits(r);
    var versions := CheckVersions(r);
    var applied := CheckApplied(r);
    var population, incomplete, endpoint := CheckRows(r);
    if endpoint.None? {
      return None;
    }
    var records := With(With(With([], unfinished, Unfinished), versions, Versions), applied, AppliedDiffers);
    records := With(With(With(records, population, Population), incomplete, Incomplete), endpoint.value, Endpoint);
    forall p
      ensures p in records <==> Broken(p, r)
    {
      match p
      case Unfinished =>
      case Versions =>
      case AppliedDiffers =>
      case Population =>
      case Incomplete =>
      case Endpoint =>
    }
    errors := Some(records);
  }
}
