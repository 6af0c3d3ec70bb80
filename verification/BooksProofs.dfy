/** Receipts, aggregation records and the committed models: what every controller operation keeps. */
module BooksProofs {
  import opened Common
  import opened Scheduling
  import opened Compass

  function Dispatches(us: seq<Update>): set<nat> {
    set u | u in us :: u.dispatch
  }

  ghost predicate Apart2(us: seq<Update>) {
    forall i, j | 0 <= i < j < |us| :: us[i].dispatch != us[j].dispatch
  }

  ghost predicate OneEach(us: seq<Update>) {
    forall i, j | 0 <= i < j < |us| :: us[i].job.client != us[j].job.client
  }

  /** The model of each version is on record and the current one is the last. */
  ghost predicate Lineage(s: Controller) {
    && |s.history| == s.version + 1
    && s.history[s.version] == s.model
    && forall v | 0 <= v < |s.history| :: SameShape(s.history[v], s.model)
  }

  /** The update has a receipt that agrees with its job, and its base is the model of the job's version. */
  ghost predicate Filed(env: Env, s: Controller, u: Update) {
    && u.dispatch in s.receipts
    && s.receipts[u.dispatch].client == u.job.client && s.receipts[u.dispatch].steps == u.job.steps
    && s.receipts[u.dispatch].version == u.job.version && s.receipts[u.dispatch].group == u.job.group
    && u.job.client in Ids(env)
    && u.job.version <= s.version
    && u.job.version < |s.history| && u.base == s.history[u.job.version]
    && SameShape(u.trained, s.model)
  }

  ghost predicate BufferOk(env: Env, s: Controller) {
    && (forall u | u in s.buffer :: Filed(env, s, u) && s.receipts[u.dispatch].status == LateBuffer)
    && OneEach(s.buffer)
  }

  ghost predicate ArrivedOk(env: Env, s: Controller) {
    forall g, u | g in s.fleet.groups && u in s.fleet.groups[g].arrived ::
      Filed(env, s, u) && s.receipts[u.dispatch].status == WaitingForGroup && u.job.group == Some(g)
  }

  ghost predicate Elsewhere(s: Controller, d: nat) {
    && (forall v | v in s.buffer :: v.dispatch != d)
    && (forall g, v | g in s.fleet.groups && v in s.fleet.groups[g].arrived :: v.dispatch != d)
  }

  /** Updates an operation is holding: filed, not yet aggregated, and stored nowhere else. */
  ghost predicate LooseOk(env: Env, s: Controller, loose: seq<Update>) {
    && (forall u | u in loose :: Filed(env, s, u) && !s.receipts[u.dispatch].status.Aggregated?
          && Elsewhere(s, u.dispatch))
    && Apart2(loose) && OneEach(loose)
  }

  ghost predicate HeldInGroup(s: Controller, r: Receipt, d: nat) {
    r.group.Some? && r.group.value in s.fleet.groups && d in Dispatches(s.fleet.groups[r.group.value].arrived)
  }

  /** A receipt without a final status belongs to an update that is still held. */
  ghost predicate OpenHeld(s: Controller, loose: seq<Update>) {
    forall d | d in s.receipts ::
      && (s.receipts[d].status == LateBuffer ==> d in Dispatches(s.buffer) || d in Dispatches(loose))
      && (s.receipts[d].status == WaitingForGroup ==> HeldInGroup(s, s.receipts[d], d) || d in Dispatches(loose))
  }

  /** The aggregated fields of a receipt: staleness, weight and time follow from version and job. */
  ghost predicate AggregatedOk(env: Env, version: nat, r: Receipt) {
    && r.status.Aggregated?
    && 1 <= r.status.version <= version
    && r.version + r.status.staleness + 1 == r.status.version
    && r.status.weight == StaleWeight(env, r.client, r.status.staleness)
    && !Late(env, r.status.elapsed)
  }

  ghost predicate RecordOk(env: Env, receipts: map<nat, Receipt>, k: nat, a: Aggregation) {
    && a.version == k + 1
    && Distinct(a.dispatches) && Distinct(a.clients)
    && |a.dispatches| == |a.clients| == |a.staleness| == |a.weights|
    && !Late(env, a.elapsed)
    && forall i | 0 <= i < |a.dispatches| ::
         && a.dispatches[i] in receipts
         && receipts[a.dispatches[i]].client == a.clients[i]
         && a.clients[i] in Ids(env)
         && receipts[a.dispatches[i]].status == Aggregated(k + 1, a.elapsed, a.staleness[i], a.weights[i])
  }

  /** Records number the versions, and a receipt is aggregated exactly when one record lists it. */
  ghost predicate Ledger(env: Env, s: Controller) {
    && |s.aggregations| == s.version
    && (forall k | 0 <= k < s.version :: RecordOk(env, s.receipts, k, s.aggregations[k]))
    && (forall d | d in s.receipts && s.receipts[d].status.Aggregated? ::
          AggregatedOk(env, s.version, s.receipts[d])
          && d in s.aggregations[s.receipts[d].status.version - 1].dispatches)
  }

  ghost predicate Books(env: Env, s: Controller, loose: seq<Update>) {
    && Lineage(s)
    && BufferOk(env, s)
    && ArrivedOk(env, s)
    && LooseOk(env, s, loose)
    && OpenHeld(s, loose)
    && Ledger(env, s)
  }

  /** Only statuses differ. */
  ghost predicate SameRows(rs: map<nat, Receipt>, rs': map<nat, Receipt>) {
    && rs'.Keys == rs.Keys
    && forall d | d in rs :: rs'[d] == rs[d].(status := rs'[d].status)
  }

  // ----- marking receipts -----

  lemma {:induction false} MarkAllMeans(rs: map<nat, Receipt>, us: seq<Update>, st: Status)
    ensures var r := MarkAll(rs, us, st);
            && r.Keys == rs.Keys
            && forall d | d in rs :: r[d] == if d in Dispatches(us) then rs[d].(status := st) else rs[d]
  {
    if us != [] {
      MarkAllMeans(rs, DropLast(us), st);
      assert us == DropLast(us) + [Last(us)];
      assert Dispatches(us) == Dispatches(DropLast(us)) + {Last(us).dispatch};
    }
  }

  lemma {:induction false} MarkCommittedMeans(env: Env, version: nat, at: real, rs: map<nat, Receipt>, us: seq<Update>)
    requires Apart2(us)
    ensures var r := MarkCommitted(env, version, at, rs, us);
            && r.Keys == rs.Keys
            && (forall d | d in rs && d !in Dispatches(us) :: r[d] == rs[d])
            && (forall u | u in us && u.dispatch in rs ::
                  r[u.dispatch] == rs[u.dispatch].(status := CommitStatus(env, version, at, u)))
  {
    if us != [] {
      var front, u := DropLast(us), Last(us);
      MarkCommittedMeans(env, version, at, rs, front);
      assert us == front + [u];
      assert Dispatches(us) == Dispatches(front) + {u.dispatch};
      assert u.dispatch !in Dispatches(front);
    }
  }

  // ----- aggregation -----

  /** Between `s` and `s'` exactly the receipts of `us` are given a final status. */
  ghost predicate Filing(s: Controller, s': Controller, us: seq<Update>) {
    && s'.receipts.Keys == s.receipts.Keys
    && s'.fleet == s.fleet && s'.buffer == s.buffer
    && (forall d | d in s.receipts && d !in Dispatches(us) :: s'.receipts[d] == s.receipts[d])
    && (forall d | d in s.receipts && d in Dispatches(us) ::
          && s'.receipts[d] == s.receipts[d].(status := s'.receipts[d].status)
          && s'.receipts[d].status != LateBuffer && s'.receipts[d].status != WaitingForGroup)
  }

  lemma LooseElsewhere(env: Env, s: Controller, us: seq<Update>, d: nat)
    requires LooseOk(env, s, us) && d in Dispatches(us)
    ensures Elsewhere(s, d) && d in s.receipts && !s.receipts[d].status.Aggregated?
  {
    var u :| u in us && u.dispatch == d;
  }

  lemma FilingKeepsHeld(env: Env, s: Controller, s': Controller, us: seq<Update>)
    requires BufferOk(env, s) && ArrivedOk(env, s) && OpenHeld(s, us) && LooseOk(env, s, us) && Filing(s, s', us)
    requires s.version <= s'.version && s.history <= s'.history && SameShape(s'.model, s.model)
    ensures BufferOk(env, s') && ArrivedOk(env, s') && OpenHeld(s', [])
  {
    forall d | d in Dispatches(us) ensures Elsewhere(s, d) {
      LooseElsewhere(env, s, us, d);
    }
    hide LooseOk;
  }

  lemma FilingKeepsRecord(env: Env, s: Controller, s': Controller, us: seq<Update>, k: nat, a: Aggregation)
    requires LooseOk(env, s, us) && Filing(s, s', us) && RecordOk(env, s.receipts, k, a)
    ensures RecordOk(env, s'.receipts, k, a)
  {
    forall i | 0 <= i < |a.dispatches| ensures s'.receipts[a.dispatches[i]] == s.receipts[a.dispatches[i]] {
      var d := a.dispatches[i];
      assert s.receipts[d].status.Aggregated?;
      if d in Dispatches(us) {
        LooseElsewhere(env, s, us, d);
      }
    }
  }

  lemma CommitFiles(env: Env, s: Controller, us: seq<Update>, group: Option<nat>, reason: Reason)
    requires LooseOk(env, s, us)
    ensures var s' := Commit(env, s, us, group, reason);
            && Filing(s, s', us)
            && (forall u | u in us :: s'.receipts[u.dispatch].status
                  == CommitStatus(env, s.version, env.tick(s.ticks), u))
  {
    MarkCommittedMeans(env, s.version, env.tick(s.ticks), s.receipts, us);
    hide MarkCommitted, Merge, ScaleOf, Delay;
  }

  lemma CommitNewRecord(env: Env, s: Controller, us: seq<Update>, group: Option<nat>, reason: Reason)
    requires LooseOk(env, s, us) && !Late(env, env.tick(s.ticks)) && |s.aggregations| == s.version
    ensures var s' := Commit(env, s, us, group, reason);
            RecordOk(env, s'.receipts, s.version, s'.aggregations[s.version])
  {
    CommitFiles(env, s, us, group, reason);
    var s' := Commit(env, s, us, group, reason);
    hide MarkCommitted, Merge, StaleWeight, ScaleOf, Delay, Elsewhere, Dispatches;
    var a := s'.aggregations[s.version];
    forall i | 0 <= i < |us| ensures us[i] in us && Filed(env, s, us[i]) {
    }
    assert forall i | 0 <= i < |us| :: a.dispatches[i] == us[i].dispatch && a.clients[i] == us[i].job.client
             && a.staleness[i] == Delay(s.version, us[i]) && a.weights[i] == ScaleOf(env, s.version, us[i]);
  }

  lemma CommitKeepsLedger(env: Env, s: Controller, us: seq<Update>, group: Option<nat>, reason: Reason)
    requires LooseOk(env, s, us) && Ledger(env, s) && !Late(env, env.tick(s.ticks))
    ensures Ledger(env, Commit(env, s, us, group, reason))
  {
    var s' := Commit(env, s, us, group, reason);
    CommitFiles(env, s, us, group, reason);
    CommitNewRecord(env, s, us, group, reason);
    forall k | 0 <= k < s.version ensures RecordOk(env, s'.receipts, k, s'.aggregations[k]) {
      FilingKeepsRecord(env, s, s', us, k, s.aggregations[k]);
    }
    forall d | d in s'.receipts && s'.receipts[d].status.Aggregated?
      ensures AggregatedOk(env, s'.version, s'.receipts[d])
      ensures d in s'.aggregations[s'.receipts[d].status.version - 1].dispatches
    {
      if d in Dispatches(us) {
        CommittedStatus(env, s, us, group, reason, d);
      } else {
        assert s'.receipts[d] == s.receipts[d];
        assert s'.aggregations[s.receipts[d].status.version - 1] == s.aggregations[s.receipts[d].status.version - 1];
      }
    }
  }

  lemma CommittedStatus(env: Env, s: Controller, us: seq<Update>, group: Option<nat>, reason: Reason, d: nat)
    requires LooseOk(env, s, us) && |s.aggregations| == s.version && !Late(env, env.tick(s.ticks))
    requires d in Dispatches(us)
    ensures var s' := Commit(env, s, us, group, reason);
            && d in s'.receipts && AggregatedOk(env, s'.version, s'.receipts[d])
            && s'.receipts[d].status.version == s'.version
            && d in s'.aggregations[s.version].dispatches
  {
    CommitFiles(env, s, us, group, reason);
    hide MarkCommitted, Merge, Elsewhere, StaleWeight;
    var u :| u in us && u.dispatch == d;
    var i :| 0 <= i < |us| && us[i] == u;
    assert DispatchesOf(us)[i] == d;
    assert Filed(env, s, u);
  }

  lemma MergeShape(env: Env, version: nat, model: Model, us: seq<Update>)
    ensures SameShape(Merge(env, version, model, us), model)
  {
  }

  lemma CommitKeepsBooks(env: Env, s: Controller, us: seq<Update>, group: Option<nat>, reason: Reason)
    requires Books(env, s, us) && !Late(env, env.tick(s.ticks))
    ensures Books(env, Commit(env, s, us, group, reason), [])
  {
    var s' := Commit(env, s, us, group, reason);
    CommitFiles(env, s, us, group, reason);
    CommitKeepsLedger(env, s, us, group, reason);
    MergeShape(env, s.version, s.model, us);
    hide MarkCommitted, Merge, Ledger;
    FilingKeepsHeld(env, s, s', us);
    hide Filing;
  }

  lemma DiscardKeepsBooks(env: Env, s: Controller, s': Controller, us: seq<Update>)
    requires Books(env, s, us)
    requires s' == s.(receipts := MarkAll(s.receipts, us, DiscardedAtStop), ticks := s.ticks + 1)
    ensures Books(env, s', [])
  {
    MarkAllMeans(s.receipts, us, DiscardedAtStop);
    hide MarkAll;
    FilingKeepsHeld(env, s, s', us);
    forall k | 0 <= k < s.version ensures RecordOk(env, s'.receipts, k, s'.aggregations[k]) {
      FilingKeepsRecord(env, s, s', us, k, s.aggregations[k]);
    }
    hide BufferOk, ArrivedOk, OpenHeld;
  }

  lemma UpToDate(env: Env, s: Controller, us: seq<Update>)
    requires LooseOk(env, s, us)
    ensures !FromFuture(s.version, us)
  {
    forall i | 0 <= i < |us| ensures us[i].job.version <= s.version {
      assert us[i] in us && Filed(env, s, us[i]);
    }
  }

  /** A commit adds one record, of exactly these updates, and marks each of them with it; a missed deadline adds
      none and marks each of them discarded. */
  ghost predicate Recorded(env: Env, s: Controller, s': Controller, us: seq<Update>, committed: bool) {
    var at := env.tick(s.ticks);
    if committed then
      && |s'.aggregations| == |s.aggregations| + 1 && s.aggregations <= s'.aggregations
      && Last(s'.aggregations).version == s'.version == s.version + 1 && Last(s'.aggregations).elapsed == at
      && Last(s'.aggregations).dispatches == DispatchesOf(us) && Last(s'.aggregations).clients == ClientsOf(us)
      && forall u | u in us ::
           u.dispatch in s'.receipts && s'.receipts[u.dispatch].status == CommitStatus(env, s.version, at, u)
    else
      && s'.aggregations == s.aggregations && s'.version == s.version && s'.model == s.model
      && forall u | u in us :: u.dispatch in s'.receipts && s'.receipts[u.dispatch].status == DiscardedAtStop
  }

  lemma AggregateRecords(env: Env, s: Controller, us: seq<Update>, group: Option<nat>, reason: Reason)
    requires LooseOk(env, s, us)
    ensures var (s', committed) := Aggregate(env, s, us, group, reason);
            Recorded(env, s, s', us, committed)
  {
    UpToDate(env, s, us);
    MarkAllMeans(s.receipts, us, DiscardedAtStop);
    MarkCommittedMeans(env, s.version, env.tick(s.ticks), s.receipts, us);
    assert forall u | u in us :: u.dispatch in s.receipts && u.dispatch in Dispatches(us);
    hide Merge, MarkAll, MarkCommitted, CommitStatus, Filed, Elsewhere, DispatchesOf, ClientsOf, Delays, Scales;
  }

  /** Aggregating the held updates never throws, and files all of them with a final status. */
  lemma AggregateKeepsBooks(env: Env, s: Controller, us: seq<Update>, group: Option<nat>, reason: Reason)
    requires Books(env, s, us)
    ensures var (s', committed) := Aggregate(env, s, us, group, reason);
            && Books(env, s', []) && Recorded(env, s, s', us, committed)
            && s'.fleet == s.fleet && s'.buffer == s.buffer && s'.events == s.events && s'.ticks == s.ticks + 1
            && committed == !Late(env, env.tick(s.ticks))
            && s'.version == s.version + (if committed then 1 else 0)
            && (!committed ==> s'.model == s.model && s'.history == s.history)
            && s.history <= s'.history
            && SameRows(s.receipts, s'.receipts)
  {
    UpToDate(env, s, us);
    AggregateRecords(env, s, us, group, reason);
    MarkAllMeans(s.receipts, us, DiscardedAtStop);
    MarkCommittedMeans(env, s.version, env.tick(s.ticks), s.receipts, us);
    hide Recorded;
    if Late(env, env.tick(s.ticks)) {
      DiscardKeepsBooks(env, s, Aggregate(env, s, us, group, reason).0, us);
    } else {
      CommitKeepsBooks(env, s, us, group, reason);
    }
    hide Books, MarkAll, MarkCommitted, Merge;
  }

  // ----- changes that leave receipts and stored updates alone -----

  /** The same updates are stored under the same group numbers. */
  ghost predicate SameArrivals(gs: map<nat, Group>, gs': map<nat, Group>) {
    && (forall g | g in gs && gs[g].arrived != [] :: g in gs' && gs'[g].arrived == gs[g].arrived)
    && (forall g | g in gs' && gs'[g].arrived != [] :: g in gs && gs[g].arrived == gs'[g].arrived)
  }

  ghost predicate SameBooks(s: Controller, s': Controller) {
    && s'.receipts == s.receipts && s'.buffer == s.buffer && s'.model == s.model && s'.history == s.history
    && s'.version == s.version && s'.aggregations == s.aggregations
    && SameArrivals(s.fleet.groups, s'.fleet.groups)
  }

  lemma SameBooksKeep(env: Env, s: Controller, s': Controller, loose: seq<Update>)
    requires Books(env, s, loose) && SameBooks(s, s')
    ensures Books(env, s', loose)
  {
    hide RecordOk, AggregatedOk;
    assert Ledger(env, s');
    forall g, u | g in s'.fleet.groups && u in s'.fleet.groups[g].arrived
      ensures g in s.fleet.groups && u in s.fleet.groups[g].arrived
    {
      assert s'.fleet.groups[g].arrived != [];
    }
    forall d | d in s.receipts && HeldInGroup(s, s.receipts[d], d) ensures HeldInGroup(s', s.receipts[d], d) {
      var g := s.receipts[d].group.value;
      assert s.fleet.groups[g].arrived != [];
    }
  }

  lemma ExtendsSameArrivals(f: Fleet, f': Fleet, now: real)
    requires Extends(f, f', now)
    ensures SameArrivals(f.groups, f'.groups)
  {
  }

  // ----- an arrival is stored -----

  lemma ArriveKeepsBooks(env: Env, s: Controller, gid: nat, u: Update)
    requires Books(env, s, [u]) && gid in s.fleet.groups && u.job.group == Some(gid)
    ensures Books(env, Arrive(s, gid, u), [])
  {
    var s' := Arrive(s, gid, u);
    assert u in [u];
    assert Filed(env, s, u) && Elsewhere(s, u.dispatch);
    OneFiled(env, s, s', u);
    ArriveOpen(env, s, gid, u);
    ArriveStored(env, s, gid, u);
    hide RecordOk, AggregatedOk, Ledger, OpenHeld, ArrivedOk, BufferOk;
  }

  lemma ArriveStored(env: Env, s: Controller, gid: nat, u: Update)
    requires ArrivedOk(env, s) && BufferOk(env, s) && gid in s.fleet.groups && u.job.group == Some(gid)
    requires Filed(env, s, u) && Elsewhere(s, u.dispatch)
    ensures ArrivedOk(env, Arrive(s, gid, u)) && BufferOk(env, Arrive(s, gid, u))
  {
    var s' := Arrive(s, gid, u);
    forall g, v | g in s'.fleet.groups && v in s'.fleet.groups[g].arrived
      ensures Filed(env, s', v) && s'.receipts[v.dispatch].status == WaitingForGroup && v.job.group == Some(g)
    {
      assert v == u || v in s.fleet.groups[g].arrived;
    }
  }

  lemma ArriveOpen(env: Env, s: Controller, gid: nat, u: Update)
    requires OpenHeld(s, [u]) && gid in s.fleet.groups && u.job.group == Some(gid)
    requires u.dispatch in s.receipts && s.receipts[u.dispatch].group == Some(gid)
    ensures OpenHeld(Arrive(s, gid, u), [])
  {
    var s' := Arrive(s, gid, u);
    var was, now := s.fleet.groups[gid].arrived, s'.fleet.groups[gid].arrived;
    assert Dispatches([u]) == {u.dispatch};
    assert Dispatches(now) == Dispatches(was) + {u.dispatch};
    hide Dispatches;
  }

  /** Changing the status of one receipt that is not aggregated keeps the ledger. */
  lemma OneFiled(env: Env, s: Controller, s': Controller, u: Update)
    requires Ledger(env, s) && u.dispatch in s.receipts && !s.receipts[u.dispatch].status.Aggregated?
    requires s'.version == s.version && s'.aggregations == s.aggregations
    requires u.dispatch in s'.receipts
    requires s'.receipts == s.receipts[u.dispatch := s.receipts[u.dispatch].(status := s'.receipts[u.dispatch].status)]
    requires !s'.receipts[u.dispatch].status.Aggregated?
    ensures Ledger(env, s')
  {
    hide StaleWeight, Late;
    forall k | 0 <= k < s.version ensures RecordOk(env, s'.receipts, k, s'.aggregations[k]) {
      var a := s.aggregations[k];
      assert RecordOk(env, s.receipts, k, a);
    }
  }

  lemma OneSuperseded(env: Env, s: Controller, c: ClientId)
    requires BufferOk(env, s) && Ledger(env, s)
    ensures var rs := SupersedePrevious(s.receipts, s.buffer, c);
            && rs.Keys == s.receipts.Keys
            && (forall d | d in s.receipts :: rs[d] == s.receipts[d] ||
                  (rs[d] == s.receipts[d].(status := SupersededLate) && s.receipts[d].status == LateBuffer
                        && s.receipts[d].client == c))
            && (forall v | v in s.buffer && v.job.client != c :: rs[v.dispatch] == s.receipts[v.dispatch])
            && (forall v | v in s.buffer && v.job.client == c :: rs[v.dispatch].status == SupersededLate)
            && Ledger(env, s.(receipts := rs))
  {
    var found := Find(s.buffer, c);
    if found.Some? {
      assert Filed(env, s, found.value);
      OneFiled(env, s, s.(receipts := SupersedePrevious(s.receipts, s.buffer, c)), found.value);
      forall v | v in s.buffer && v.job.client == c ensures v == found.value {
        var i :| 0 <= i < |s.buffer| && s.buffer[i] == v;
        var j :| 0 <= j < |s.buffer| && s.buffer[j] == found.value;
      }
    }
    hide Ledger;
  }

  lemma {:induction false} PutMeans(us: seq<Update>, u: Update)
    requires OneEach(us)
    ensures OneEach(Put(us, u))
    ensures forall v :: v in Put(us, u) <==> v == u || (v in us && v.job.client != u.job.client)
  {
    if us != [] {
      assert us == [us[0]] + us[1..];
      forall v | v in us[1..] ensures v.job.client != us[0].job.client {
      }
      if us[0].job.client != u.job.client {
        PutMeans(us[1..], u);
        var r := Put(us[1..], u);
        forall v | v in r ensures v.job.client != us[0].job.client {
        }
        assert OneEach([us[0]] + r);
      }
    }
  }

  lemma StoreLateKeepsBooks(env: Env, s: Controller, gid: nat, u: Update)
    requires Books(env, s, [u])
    ensures Books(env, StoreLate(s, gid, u), [])
  {
    hide SupersedePrevious, Put, Ledger, Lineage, ArrivedOk, OpenHeld;
    var s' := StoreLate(s, gid, u);
    var rs := SupersedePrevious(s.receipts, s.buffer, u.job.client);
    assert u in [u];
    assert Filed(env, s, u) && Elsewhere(s, u.dispatch);
    assert Dispatches([u]) == {u.dispatch};
    OneSuperseded(env, s, u.job.client);
    PutMeans(s.buffer, u);
    assert !rs[u.dispatch].status.Aggregated?;
    OneFiled(env, s.(receipts := rs), s', u);
    hide LooseOk, Filed, Elsewhere;
    StoreLateHeld(env, s, s', rs, u);
  }

  lemma StoreLateHeld(env: Env, s: Controller, s': Controller, rs: map<nat, Receipt>, u: Update)
    requires Lineage(s) && BufferOk(env, s) && ArrivedOk(env, s) && OpenHeld(s, [u])
    requires Filed(env, s, u) && Elsewhere(s, u.dispatch)
    requires rs.Keys == s.receipts.Keys
    requires forall d | d in s.receipts :: rs[d] == s.receipts[d] ||
                  (rs[d] == s.receipts[d].(status := SupersededLate) && s.receipts[d].status == LateBuffer
                        && s.receipts[d].client == u.job.client)
    requires forall v | v in s.buffer && v.job.client != u.job.client :: rs[v.dispatch] == s.receipts[v.dispatch]
    requires forall v | v in s.buffer && v.job.client == u.job.client :: rs[v.dispatch].status == SupersededLate
    requires s'.receipts == rs[u.dispatch := rs[u.dispatch].(status := LateBuffer)]
    requires s'.history == s.history && s'.version == s.version && s'.model == s.model
    requires SameArrivals(s.fleet.groups, s'.fleet.groups)
    requires OneEach(s'.buffer) && forall v ::
          v in s'.buffer
          <==> v == u || (v in s.buffer && v.job.client != u.job.client)
    ensures Lineage(s') && BufferOk(env, s') && ArrivedOk(env, s') && OpenHeld(s', [])
  {
    forall g, v | g in s'.fleet.groups && v in s'.fleet.groups[g].arrived
      ensures g in s.fleet.groups && v in s.fleet.groups[g].arrived
    {
      assert s'.fleet.groups[g].arrived != [];
    }
    StoreLateOpen(env, s, s', rs, u);
    hide OpenHeld;
  }

  lemma StoreLateOpen(env: Env, s: Controller, s': Controller, rs: map<nat, Receipt>, u: Update)
    requires BufferOk(env, s) && OpenHeld(s, [u]) && u.dispatch in s.receipts
    requires rs.Keys == s.receipts.Keys
    requires forall d | d in s.receipts :: rs[d] == s.receipts[d] ||
                  (rs[d] == s.receipts[d].(status := SupersededLate) && s.receipts[d].status == LateBuffer
                        && s.receipts[d].client == u.job.client)
    requires forall v | v in s.buffer && v.job.client == u.job.client :: rs[v.dispatch].status == SupersededLate
    requires s'.receipts == rs[u.dispatch := rs[u.dispatch].(status := LateBuffer)]
    requires SameArrivals(s.fleet.groups, s'.fleet.groups)
    requires forall v :: v in s'.buffer <==> v == u || (v in s.buffer && v.job.client != u.job.client)
    ensures OpenHeld(s', [])
  {
    forall d | d in s'.receipts && s'.receipts[d].status == WaitingForGroup ensures HeldInGroup(s', s'.receipts[d], d) {
      assert HeldInGroup(s, s.receipts[d], d);
      assert s.fleet.groups[s.receipts[d].group.value].arrived != [];
    }
    hide HeldInGroup, SameArrivals;
    forall d | d in s'.receipts && s'.receipts[d].status == LateBuffer ensures d in Dispatches(s'.buffer) {
      if d == u.dispatch {
        assert u in s'.buffer;
      } else {
        assert d in Dispatches(s.buffer);
        var v :| v in s.buffer && v.dispatch == d;
        assert v in s'.buffer;
      }
    }
  }

  // ----- closing a group -----

  ghost predicate Overridden(buffer: seq<Update>, arrived: seq<Update>, d: nat) {
    exists v :: v in buffer && v.job.client in Clients(arrived) && v.dispatch == d
  }

  /** The merged list holds every arrival and the late updates of other clients, one per client. */
  ghost predicate Merged(
      rs: map<nat, Receipt>, buffer: seq<Update>, arrived: seq<Update>, rs': map<nat, Receipt>,
      merged: seq<Update>) {
    && OneEach(merged)
    && (forall v :: v in merged <==> v in arrived || (v in buffer && v.job.client !in Clients(arrived)))
    && rs'.Keys == rs.Keys
    && forall d | d in rs :: rs'[d] == if Overridden(buffer, arrived, d) then rs[d].(status := SupersededLate)
          else rs[d]
  }

  lemma {:induction false} MergeMeans(rs: map<nat, Receipt>, buffer: seq<Update>, arrived: seq<Update>)
    requires OneEach(buffer) && OneEach(arrived)
    ensures var (rs', merged) := MergeArrived(rs, buffer, arrived);
            Merged(rs, buffer, arrived, rs', merged)
  {
    if arrived == [] {
    } else {
      var front, u := DropLast(arrived), Last(arrived);
      assert arrived == front + [u];
      assert Clients(arrived) == Clients(front) + {u.job.client};
      var (rs1, merged) := MergeArrived(rs, buffer, front);
      MergeMeans(rs, buffer, front);
      MergeNext(rs, buffer, front, u, rs1, merged);
    }
  }

  lemma MergeNext(
      rs: map<nat, Receipt>, buffer: seq<Update>, front: seq<Update>, u: Update, rs1: map<nat, Receipt>,
      merged: seq<Update>)
    requires OneEach(buffer) && OneEach(front + [u]) && Merged(rs, buffer, front, rs1, merged)
    ensures Merged(rs, buffer, front + [u], SupersedePrevious(rs1, merged, u.job.client), Put(merged, u))
  {
    var arrived := front + [u];
    var c := u.job.client;
    assert Clients(arrived) == Clients(front) + {c};
    forall v | v in front ensures v.job.client != c {
      var k :| 0 <= k < |front| && front[k] == v;
      assert arrived[k] == v && arrived[|front|] == u;
    }
    PutMeans(merged, u);
    var found := Find(merged, c);
    var rs2 := SupersedePrevious(rs1, merged, c);
    forall d ensures Overridden(buffer, arrived, d)
          <==> Overridden(buffer, front, d) || (found.Some? && found.value.dispatch == d) {
      if found.Some? {
        assert found.value in buffer;
      }
      if Overridden(buffer, arrived, d) {
        var v :| v in buffer && v.job.client in Clients(arrived) && v.dispatch == d;
        if v.job.client !in Clients(front) {
          assert v in merged && v.job.client == c;
          SameClientSame(merged, v, found.value);
        }
      }
    }
  }

  lemma SameClientSame(us: seq<Update>, u: Update, v: Update)
    requires OneEach(us) && u in us && v in us && u.job.client == v.job.client
    ensures u == v
  {
    var i :| 0 <= i < |us| && us[i] == u;
    var j :| 0 <= j < |us| && us[j] == v;
  }

  lemma ShutKeepsBooks(env: Env, s: Controller, gid: nat, now: real, reason: Reason)
    requires Books(env, s, []) && gid in s.fleet.groups && OneEach(s.fleet.groups[gid].arrived)
    ensures var s' := Shut(s, gid, now, reason);
            && Books(env, s', s.fleet.groups[gid].arrived)
            && forall u | u in s.fleet.groups[gid].arrived :: s'.receipts[u.dispatch].status == WaitingForGroup
  {
    var s' := Shut(s, gid, now, reason);
    var us := s.fleet.groups[gid].arrived;
    hide RecordOk, AggregatedOk;
    assert Ledger(env, s');
    assert Lineage(s') && BufferOk(env, s') && ArrivedOk(env, s');
    forall u | u in us ensures Filed(env, s', u) && Elsewhere(s', u.dispatch) {
    }
    assert Apart2(us);
    forall d | d in s'.receipts && s'.receipts[d].status == WaitingForGroup
      ensures HeldInGroup(s', s'.receipts[d], d) || d in Dispatches(us)
    {
      assert HeldInGroup(s, s.receipts[d], d);
    }
  }

  lemma GatherKeepsBooks(env: Env, s: Controller, arrived: seq<Update>)
    requires Books(env, s, arrived)
    requires forall u | u in arrived :: s.receipts[u.dispatch].status == WaitingForGroup
    ensures var (s', merged) := Gather(s, arrived);
            Books(env, s', merged) && s'.fleet == s.fleet && s'.version == s.version && s'.events == s.events
            && s'.ticks == s.ticks && s'.buffer == [] && SameRows(s.receipts, s'.receipts)
                  && s'.history == s.history && s'.model == s.model
  {
    var (s', merged) := Gather(s, arrived);
    MergeMeans(s.receipts, s.buffer, arrived);
    hide MergeArrived;
    forall d | d in s.receipts && Overridden(s.buffer, arrived, d)
      ensures s.receipts[d].status == LateBuffer
    {
    }
    hide StaleWeight, Late;
    GatherKeepsLedger(env, s, s');
    hide Ledger;
    GatherHeld(env, s, s', arrived, merged);
  }

  lemma GatherKeepsLedger(env: Env, s: Controller, s': Controller)
    requires Ledger(env, s) && s'.version == s.version && s'.aggregations == s.aggregations
    requires s'.receipts.Keys == s.receipts.Keys
    requires forall d | d in s.receipts :: s'.receipts[d] == s.receipts[d] ||
               (s.receipts[d].status == LateBuffer && s'.receipts[d].status == SupersededLate)
    ensures Ledger(env, s')
  {
    hide StaleWeight, Late;
    forall k | 0 <= k < s.version ensures RecordOk(env, s'.receipts, k, s'.aggregations[k]) {
      var a := s.aggregations[k];
      assert RecordOk(env, s.receipts, k, a);
    }
  }

  /** Nothing that is kept had its receipt changed. */
  lemma GatherKeepsReceipts(env: Env, s: Controller, s': Controller, arrived: seq<Update>, merged: seq<Update>)
    requires BufferOk(env, s) && LooseOk(env, s, arrived)
    requires forall u | u in arrived :: s.receipts[u.dispatch].status == WaitingForGroup
    requires Merged(s.receipts, s.buffer, arrived, s'.receipts, merged)
    ensures forall d | d in s.receipts && s.receipts[d].status != LateBuffer :: s'.receipts[d] == s.receipts[d]
    ensures forall u | u in merged :: Filed(env, s, u) && s'.receipts[u.dispatch] == s.receipts[u.dispatch]
                                     && !s.receipts[u.dispatch].status.Aggregated?
  {
    forall u | u in s.buffer && u.job.client !in Clients(arrived) ensures !Overridden(s.buffer, arrived, u.dispatch) {
      assert forall v | v in s.buffer && v.dispatch == u.dispatch ::
            v.job.client == s.receipts[u.dispatch].client == u.job.client;
    }
  }

  lemma GatherOpen(env: Env, s: Controller, s': Controller, arrived: seq<Update>, merged: seq<Update>)
    requires OpenHeld(s, arrived)
    requires Merged(s.receipts, s.buffer, arrived, s'.receipts, merged)
    requires s' == s.(receipts := s'.receipts, buffer := [])
    ensures OpenHeld(s', merged)
  {
    forall d | d in s'.receipts && s'.receipts[d].status == LateBuffer ensures d in Dispatches(merged) {
      if d in Dispatches(s.buffer) {
        var u :| u in s.buffer && u.dispatch == d;
        assert u in merged;
      } else {
        var u :| u in arrived && u.dispatch == d;
        assert u in merged;
      }
    }
    forall d | d in s'.receipts && s'.receipts[d].status == WaitingForGroup
      ensures HeldInGroup(s', s'.receipts[d], d) || d in Dispatches(merged)
    {
      if d in Dispatches(arrived) {
        var u :| u in arrived && u.dispatch == d;
        assert u in merged;
      }
    }
  }

  lemma GatherLoose(env: Env, s: Controller, s': Controller, arrived: seq<Update>, merged: seq<Update>)
    requires BufferOk(env, s) && ArrivedOk(env, s) && LooseOk(env, s, arrived)
    requires OneEach(merged) && forall u | u in merged :: u in arrived || u in s.buffer
    requires forall u | u in merged ::
          Filed(env, s, u) && u.dispatch in s'.receipts
          && s'.receipts[u.dispatch] == s.receipts[u.dispatch]
                                     && !s.receipts[u.dispatch].status.Aggregated?
    requires s' == s.(receipts := s'.receipts, buffer := [])
    ensures LooseOk(env, s', merged)
  {
    forall u | u in merged ensures Filed(env, s', u) && Elsewhere(s', u.dispatch) {
      if u in s.buffer {
        assert s.receipts[u.dispatch].status == LateBuffer;
      }
    }
    forall i, j | 0 <= i < j < |merged| ensures merged[i].dispatch != merged[j].dispatch {
      assert merged[i] in merged && merged[j] in merged;
      assert Filed(env, s', merged[i]) && Filed(env, s', merged[j]);
    }
  }

  lemma GatherArrived(env: Env, s: Controller, s': Controller)
    requires Lineage(s) && ArrivedOk(env, s)
    requires s'.receipts.Keys == s.receipts.Keys
    requires forall d | d in s.receipts && s.receipts[d].status != LateBuffer :: s'.receipts[d] == s.receipts[d]
    requires s' == s.(receipts := s'.receipts, buffer := [])
    ensures Lineage(s') && BufferOk(env, s') && ArrivedOk(env, s')
  {
  }

  lemma GatherHeld(env: Env, s: Controller, s': Controller, arrived: seq<Update>, merged: seq<Update>)
    requires Lineage(s) && BufferOk(env, s) && ArrivedOk(env, s) && LooseOk(env, s, arrived) && OpenHeld(s, arrived)
    requires forall u | u in arrived :: s.receipts[u.dispatch].status == WaitingForGroup
    requires Merged(s.receipts, s.buffer, arrived, s'.receipts, merged)
    requires s' == s.(receipts := s'.receipts, buffer := [])
    ensures Lineage(s') && BufferOk(env, s') && ArrivedOk(env, s') && LooseOk(env, s', merged) && OpenHeld(s', merged)
  {
    hide OpenHeld, Overridden, ArrivedOk, LooseOk, BufferOk, Lineage;
    GatherKeepsReceipts(env, s, s', arrived, merged);
    GatherOpen(env, s, s', arrived, merged);
    GatherArrived(env, s, s');
    GatherLoose(env, s, s', arrived, merged);
  }
}
