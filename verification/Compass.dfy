/** The FedCompass controller: arrivals, group closing, aggregation and stop, as state functions. */
module Compass {
  import opened Common
  import opened Scheduling

  /** What a run is given: configuration, partitions, the coordinator clock, the two kinds of limit
      and the evaluation cadence. */
  datatype Env = Env(
    cfg: Config, order: seq<ClientId>, sizes: map<ClientId, Positive>,
    tick: nat -> real, budget: Option<real>, limit: Option<nat>, interval: real)

  function Ids(env: Env): set<ClientId> {
    set c | c in env.order
  }

  /** The clock never runs backwards; clients are distinct and have samples. */
  ghost predicate ValidEnv(env: Env) {
    && ValidConfig(env.cfg)
    && env.order != [] && Distinct(env.order)
    && (forall c | c in env.order :: c in env.sizes)
    && (forall i: nat, j: nat | i <= j :: env.tick(i) <= env.tick(j))
  }

  datatype Status =
    | DiscardedAtStop
    | WaitingForGroup
    | LateBuffer
    | SupersededLate
    | UnaggregatedAtStop
    | Aggregated(version: nat, elapsed: real, staleness: nat, weight: real)

  /** One row of the fit records: what came back for a dispatch and what became of it. */
  datatype Receipt = Receipt(client: ClientId, steps: nat, version: nat, group: Option<nat>, status: Status)

  datatype Reason = InitialArrival | GroupComplete | GroupDeadline

  datatype Aggregation = Aggregation(
    version: nat, elapsed: real, group: Option<nat>, reason: Reason,
    dispatches: seq<nat>, clients: seq<ClientId>, staleness: seq<nat>, weights: seq<real>)

  datatype GroupEvent = GroupEvent(
    group: nat, reason: Reason, elapsed: real, missing: set<ClientId>,
    expected: real, deadline: real, arrived: seq<ClientId>)

  /** `history` is auxiliary: the model committed at each version. `ticks` counts clock readings. */
  datatype Controller = Controller(
    fleet: Fleet, buffer: seq<Update>, model: Model, history: seq<Model>, version: nat,
    receipts: map<nat, Receipt>, aggregations: seq<Aggregation>, events: seq<GroupEvent>, ticks: nat)

  function Raise(s: Controller): Controller {
    s.(fleet := s.fleet.(raised := true))
  }

  // ----- weights and blending -----

  function Total(sizes: map<ClientId, Positive>, cs: seq<ClientId>): nat {
    if cs == [] then 0 else Total(sizes, DropLast(cs)) + SizeOf(sizes, Last(cs))
  }

  function SizeOf(sizes: map<ClientId, Positive>, c: ClientId): nat {
    if c in sizes then sizes[c] else 0
  }

  function Weight(env: Env, c: ClientId): real {
    var total := Total(env.sizes, env.order);
    if total == 0 then 0.0 else SizeOf(env.sizes, c) as real / total as real
  }

  function Delay(version: nat, u: Update): nat {
    if u.job.version <= version then version - u.job.version else 0
  }

  function MixingWeight(alpha: real, share: real, decay: real): real {
    alpha * share * decay
  }

  /** The mixing weight of a client's delta that is `delay` versions old. */
  function StaleWeight(env: Env, c: ClientId, delay: nat): real {
    MixingWeight(env.cfg.alpha, Weight(env, c), env.cfg.decay(delay))
  }

  function ScaleOf(env: Env, version: nat, u: Update): real {
    StaleWeight(env, u.job.client, Delay(version, u))
  }

  function Shift(params: seq<real>, scale: real, u: Update): (r: seq<real>)
    ensures |r| == |params|
  {
    seq(|params|, i requires 0 <= i < |params| =>
      if i < |u.base.params| && i < |u.trained.params|
      then params[i] - scale * (u.base.params[i] - u.trained.params[i])
      else params[i])
  }

  /** The parameters after adding every scaled delta, in order. */
  function Blend(env: Env, version: nat, params: seq<real>, us: seq<Update>): (r: seq<real>)
    ensures |r| == |params|
  {
    if us == [] then params
    else Shift(Blend(env, version, params, DropLast(us)), ScaleOf(env, version, Last(us)), Last(us))
  }

  function StatSum(env: Env, us: seq<Update>, i: nat): real {
    if us == [] then 0.0
    else
      StatSum(env, DropLast(us), i)
      + (if i < |Last(us).trained.stats| then Weighted(SizeOf(env.sizes, Last(us).job.client),
            Last(us).trained.stats[i]) else 0.0)
  }

  function Weighted(n: nat, x: real): real {
    n as real * x
  }

  function ClientsOf(us: seq<Update>): (r: seq<ClientId>)
    ensures |r| == |us|
  {
    seq(|us|, i requires 0 <= i < |us| => us[i].job.client)
  }

  /** Sample-weighted average of the tensors that are not parameters. */
  function AverageStats(env: Env, stats: seq<real>, us: seq<Update>): (r: seq<real>)
    ensures |r| == |stats|
  {
    var total := Total(env.sizes, ClientsOf(us));
    seq(|stats|, i requires 0 <= i < |stats| =>
      if total == 0 then stats[i] else StatSum(env, us, i) / total as real)
  }

  function Merge(env: Env, version: nat, model: Model, us: seq<Update>): Model {
    Model(Blend(env, version, model.params, us), AverageStats(env, model.stats, us))
  }

  // ----- receipts -----

  function SetStatus(rs: map<nat, Receipt>, d: nat, st: Status): map<nat, Receipt> {
    if d in rs then rs[d := rs[d].(status := st)] else rs
  }

  function MarkAll(rs: map<nat, Receipt>, us: seq<Update>, st: Status): map<nat, Receipt> {
    if us == [] then rs else SetStatus(MarkAll(rs, DropLast(us), st), Last(us).dispatch, st)
  }

  function CommitStatus(env: Env, version: nat, at: real, u: Update): Status {
    Aggregated(version + 1, at, Delay(version, u), ScaleOf(env, version, u))
  }

  function MarkCommitted(env: Env, version: nat, at: real, rs: map<nat, Receipt>, us: seq<Update>): map<nat, Receipt> {
    if us == [] then rs
    else SetStatus(MarkCommitted(env, version, at, rs, DropLast(us)), Last(us).dispatch,
          CommitStatus(env, version, at, Last(us)))
  }

  function DispatchesOf(us: seq<Update>): (r: seq<nat>)
    ensures |r| == |us|
  {
    seq(|us|, i requires 0 <= i < |us| => us[i].dispatch)
  }

  function Delays(version: nat, us: seq<Update>): (r: seq<nat>)
    ensures |r| == |us|
  {
    seq(|us|, i requires 0 <= i < |us| => Delay(version, us[i]))
  }

  function Scales(env: Env, version: nat, us: seq<Update>): (r: seq<real>)
    ensures |r| == |us|
  {
    seq(|us|, i requires 0 <= i < |us| => ScaleOf(env, version, us[i]))
  }

  // ----- aggregation -----

  predicate Late(env: Env, at: real) {
    env.budget.Some? && at >= env.budget.value
  }

  predicate FromFuture(version: nat, us: seq<Update>) {
    exists i :: 0 <= i < |us| && us[i].job.version > version
  }

  function Commit(env: Env, s: Controller, us: seq<Update>, group: Option<nat>, reason: Reason): Controller {
    var at := env.tick(s.ticks);
    var merged := Merge(env, s.version, s.model, us);
    s.(model := merged, history := s.history + [merged], version := s.version + 1,
       receipts := MarkCommitted(env, s.version, at, s.receipts, us),
       aggregations := s.aggregations + [Aggregation(s.version + 1, at, group, reason, DispatchesOf(us), ClientsOf(us),
                                                     Delays(s.version, us), Scales(env, s.version, us))],
       ticks := s.ticks + 1)
  }

  /** Adds the updates to the model unless the clock shows the budget spent; then the old model stays. */
  function Aggregate(env: Env, s: Controller, us: seq<Update>, group: Option<nat>, reason: Reason): (Controller, bool) {
    if FromFuture(s.version, us) then (Raise(s), false)
    else if Late(env, env.tick(s.ticks)) then
      (s.(receipts := MarkAll(s.receipts, us, DiscardedAtStop), ticks := s.ticks + 1), false)
    else (Commit(env, s, us, group, reason), true)
  }

  // ----- the late buffer -----

  function Find(us: seq<Update>, c: ClientId): (r: Option<Update>)
    ensures r.Some? ==> r.value in us && r.value.job.client == c
    ensures r.None? ==> forall u | u in us :: u.job.client != c
  {
    if us == [] then None else if us[0].job.client == c then Some(us[0]) else Find(us[1..], c)
  }

  /** Stores an update under its client, in the place of an earlier one if there is one. */
  function Put(us: seq<Update>, u: Update): seq<Update> {
    if us == [] then [u]
    else if us[0].job.client == u.job.client then [u] + us[1..]
    else [us[0]] + Put(us[1..], u)
  }

  function SupersedePrevious(rs: map<nat, Receipt>, merged: seq<Update>, c: ClientId): map<nat, Receipt> {
    match Find(merged, c)
    case None => rs
    case Some(previous) => SetStatus(rs, previous.dispatch, SupersededLate)
  }

  /** The late buffer overridden by what arrived in the group; replaced late updates are marked. */
  function MergeArrived(
      rs: map<nat, Receipt>, buffer: seq<Update>, arrived: seq<Update>): (map<nat, Receipt>, seq<Update>) {
    if arrived == [] then (rs, buffer)
    else
      var (rs1, merged) := MergeArrived(rs, buffer, DropLast(arrived));
      (SupersedePrevious(rs1, merged, Last(arrived).job.client), Put(merged, Last(arrived)))
  }

  // ----- closing a group -----

  function InsertBySpeed(speeds: map<ClientId, real>, cs: seq<ClientId>, c: ClientId): (r: seq<ClientId>)
    ensures multiset(r) == multiset(cs) + multiset{c}
  {
    if cs == [] then [c]
    else if SpeedOf(speeds, Last(cs)) <= SpeedOf(speeds, c) then cs + [c]
    else
      assert cs == DropLast(cs) + [Last(cs)];
      InsertBySpeed(speeds, DropLast(cs), c) + [Last(cs)]
  }

  /** Clients by increasing seconds per step; equal speeds keep their arrival order. */
  function BySpeed(speeds: map<ClientId, real>, cs: seq<ClientId>): (r: seq<ClientId>)
    ensures multiset(r) == multiset(cs)
  {
    if cs == [] then []
    else
      assert cs == DropLast(cs) + [Last(cs)];
      InsertBySpeed(speeds, BySpeed(speeds, DropLast(cs)), Last(cs))
  }

  function EventOf(g: Group, gid: nat, now: real, reason: Reason): GroupEvent {
    GroupEvent(gid, reason, now, g.pending, g.expected, g.deadline, ClientsOf(g.arrived))
  }

  /** Closes the group and takes its arrivals out. */
  function Shut(s: Controller, gid: nat, now: real, reason: Reason): Controller
    requires gid in s.fleet.groups
  {
    var g := s.fleet.groups[gid];
    s.(fleet := s.fleet.(groups := s.fleet.groups[gid := g.(closed := true, arrived := [])]),
       events := s.events + [EventOf(g, gid, now, reason)])
  }

  /** What is aggregated with a closing group: the late buffer, overridden by the arrivals. */
  function Gather(s: Controller, arrived: seq<Update>): (Controller, seq<Update>) {
    var (rs, merged) := MergeArrived(s.receipts, s.buffer, arrived);
    (s.(receipts := rs, buffer := []), merged)
  }

  function Release(env: Env, s: Controller, cs: seq<ClientId>, now: real): (Controller, seq<Job>) {
    var (fleet, jobs) := AssignAll(env.cfg, env.order, s.fleet, s.version, cs, now);
    (s.(fleet := fleet), jobs)
  }

  /** Releases the clients fastest first; sorting throws when one has no speed. */
  function ReleaseBySpeed(env: Env, s: Controller, cs: seq<ClientId>, now: real): (Controller, seq<Job>) {
    var unsorted := exists k :: 0 <= k < |cs| && cs[k] !in s.fleet.speeds;
    Release(env, if unsorted then Raise(s) else s, BySpeed(s.fleet.speeds, cs), now)
  }

  function Close(env: Env, s: Controller, gid: nat, now: real, reason: Reason): (Controller, seq<Job>) {
    if gid !in s.fleet.groups then (Raise(s), [])
    else
      var arrived := s.fleet.groups[gid].arrived;
      var shut := Shut(s, gid, now, reason);
      if arrived == [] then (shut, [])
      else
        var (ready, updates) := Gather(shut, arrived);
        var (done, committed) := Aggregate(env, ready, updates, Some(gid), reason);
        if !committed then (done, [])
        else ReleaseBySpeed(env, done, ClientsOf(arrived), now)
  }

  // ----- arrivals -----

  datatype Received = Rejected | Accepted(state: Controller, jobs: seq<Job>)

  predicate SameShape(m: Model, n: Model) {
    |m.params| == |n.params| && |m.stats| == |n.stats|
  }

  /** The update answers the client's outstanding assignment object, in time order and with the right tensors. */
  predicate Expected(s: Controller, u: Update, now: real) {
    && u.job.client in s.fleet.active
    && s.fleet.active[u.job.client].serial == u.job.serial
    && u.job.started <= now
    && SameShape(u.base, s.model) && SameShape(u.trained, s.model)
  }

  function Measured(job: Job, now: real): real {
    Max(now - job.started, 0.000000001) / job.steps as real
  }

  function LearnSpeed(cfg: Config, speeds: map<ClientId, real>, job: Job, now: real): map<ClientId, real> {
    var measured := Measured(job, now);
    var previous := if job.client in speeds then speeds[job.client] else measured;
    speeds[job.client := (1.0 - cfg.momentum) * previous + cfg.momentum * measured]
  }

  /** Takes the job off the books and updates the client's speed estimate. */
  function Retire(cfg: Config, s: Controller, job: Job, now: real): Controller {
    s.(fleet := s.fleet.(active := s.fleet.active - {job.client}, speeds := LearnSpeed(cfg, s.fleet.speeds, job, now)))
  }

  function Unpend(groups: map<nat, Group>, gid: nat, c: ClientId): map<nat, Group> {
    if gid in groups then groups[gid := groups[gid].(pending := groups[gid].pending - {c})] else groups
  }

  predicate MissedGroup(f: Fleet, gid: nat, now: real) {
    gid !in f.groups || f.groups[gid].closed || now > f.groups[gid].deadline
  }

  function ReceiveInitial(env: Env, s: Controller, u: Update, now: real): (Controller, seq<Job>) {
    var (done, committed) := Aggregate(env, s, [u], None, InitialArrival);
    if !committed then (done, [])
    else Release(env, done, [u.job.client], now)
  }

  function StoreLate(s: Controller, gid: nat, u: Update): Controller {
    s.(fleet := s.fleet.(groups := Unpend(s.fleet.groups, gid, u.job.client)),
       receipts := SetStatus(SupersedePrevious(s.receipts, s.buffer, u.job.client), u.dispatch, LateBuffer),
       buffer := Put(s.buffer, u))
  }

  function ReceiveLate(env: Env, s: Controller, gid: nat, u: Update, now: real): (Controller, seq<Job>) {
    Release(env, StoreLate(s, gid, u), [u.job.client], now)
  }

  /** Moves the update from the group's pending clients to its arrivals. */
  function Arrive(s: Controller, gid: nat, u: Update): Controller
    requires gid in s.fleet.groups
  {
    var g := s.fleet.groups[gid];
    var missing := u.job.client !in g.pending;
    var joined := g.(pending := g.pending - {u.job.client}, arrived := g.arrived + [u]);
    s.(fleet := s.fleet.(groups := s.fleet.groups[gid := joined], raised := s.fleet.raised || missing),
       receipts := SetStatus(s.receipts, u.dispatch, WaitingForGroup))
  }

  function ReceiveInGroup(env: Env, s: Controller, gid: nat, u: Update, now: real): (Controller, seq<Job>)
    requires gid in s.fleet.groups
  {
    var s1 := Arrive(s, gid, u);
    if s1.fleet.groups[gid].pending == {} then Close(env, s1, gid, now, GroupComplete) else (s1, [])
  }

  function Receive(env: Env, s: Controller, u: Update, now: real): Received {
    if !Expected(s, u, now) then Rejected
    else
      var s1 := Retire(env.cfg, s, u.job, now);
      var (s2, jobs) :=
        match u.job.group
        case None => ReceiveInitial(env, s1, u, now)
        case Some(gid) =>
          if MissedGroup(s1.fleet, gid, now) then ReceiveLate(env, s1, gid, u, now)
          else ReceiveInGroup(env, s1, gid, u, now);
      Accepted(s2, jobs)
  }

  // ----- group deadlines -----

  datatype Sweep = Sweep(state: Controller, jobs: seq<Job>, stopped: bool)

  predicate AtLimit(limit: Option<nat>, version: nat) {
    limit.Some? && version >= limit.value
  }

  function Prune(s: Controller, gid: nat): Controller {
    if gid in s.fleet.groups && s.fleet.groups[gid].closed && s.fleet.groups[gid].pending == {}
    then s.(fleet := s.fleet.(groups := s.fleet.groups - {gid}))
    else s
  }

  /** Closes the group if its deadline has passed, and forgets it once nobody is expected in it. */
  function Visit(env: Env, s: Controller, now: real, gid: nat): (Controller, seq<Job>)
    requires gid in s.fleet.groups
  {
    if !s.fleet.groups[gid].closed && now >= s.fleet.groups[gid].deadline then
      var (s1, jobs) := Close(env, s, gid, now, GroupDeadline);
      (Prune(s1, gid), jobs)
    else (Prune(s, gid), [])
  }

  function ExpireOne(env: Env, s: Controller, now: real, gid: nat): Sweep {
    var s1 := if env.budget.Some? then s.(ticks := s.ticks + 1) else s;
    if env.budget.Some? && env.tick(s.ticks) >= env.budget.value then Sweep(s1, [], true)
    else if AtLimit(env.limit, s1.version) then Sweep(s1, [], true)
    else if gid !in s1.fleet.groups then Sweep(Raise(s1), [], false)
    else
      var (s2, jobs) := Visit(env, s1, now, gid);
      Sweep(s2, jobs, false)
  }

  /** Visits the groups `known` below `n` in creation order; groups opened meanwhile are not visited. */
  function ExpireBelow(env: Env, s: Controller, now: real, known: set<nat>, n: nat): Sweep {
    if n == 0 then Sweep(s, [], false)
    else
      var before := ExpireBelow(env, s, now, known, n - 1);
      if before.stopped || n - 1 !in known then before
      else
        var one := ExpireOne(env, before.state, now, n - 1);
        Sweep(one.state, before.jobs + one.jobs, one.stopped)
  }

  function Expire(env: Env, s: Controller, now: real): Sweep {
    ExpireBelow(env, s, now, s.fleet.groups.Keys, s.fleet.nextGroup)
  }

  /** The earliest deadline among the open groups numbered below `n`. */
  function NextDeadlineBelow(groups: map<nat, Group>, n: nat): (r: Option<real>)
    ensures r.Some? ==> exists g :: g < n && g in groups && !groups[g].closed && groups[g].deadline == r.value
    ensures forall g | g < n && g in groups && !groups[g].closed :: r.Some? && r.value <= groups[g].deadline
  {
    if n == 0 then None
    else
      var before := NextDeadlineBelow(groups, n - 1);
      if n - 1 in groups && !groups[n - 1].closed && (before.None? || groups[n - 1].deadline < before.value)
      then Some(groups[n - 1].deadline) else before
  }

  function NextDeadline(s: Controller): Option<real> {
    NextDeadlineBelow(s.fleet.groups, s.fleet.nextGroup)
  }

  // ----- start and stop -----

  function StartAll(cfg: Config, f: Fleet, cs: seq<ClientId>, now: real): (r: (Fleet, seq<Job>))
    ensures |r.1| == |cs|
  {
    if cs == [] then (f, [])
    else
      var (before, jobs) := StartAll(cfg, f, DropLast(cs), now);
      var job := Job(before.nextSerial, Last(cs), cfg.high, 0, None, now);
      (before.(active := before.active[Last(cs) := job], nextSerial := before.nextSerial + 1), jobs + [job])
  }

  function Initialize(env: Env, s: Controller, now: real): Received {
    if s.fleet.active != map[] || s.version != 0 then Rejected
    else
      var (fleet, jobs) := StartAll(env.cfg, s.fleet, env.order, now);
      Accepted(s.(fleet := fleet), jobs)
  }

  function MarkGroups(rs: map<nat, Receipt>, groups: map<nat, Group>, n: nat): map<nat, Receipt> {
    if n == 0 then rs
    else
      var before := MarkGroups(rs, groups, n - 1);
      if n - 1 in groups then MarkAll(before, groups[n - 1].arrived, UnaggregatedAtStop) else before
  }

  function Stop(s: Controller): Controller {
    s.(receipts := MarkGroups(MarkAll(s.receipts, s.buffer, UnaggregatedAtStop), s.fleet.groups, s.fleet.nextGroup),
       buffer := [],
       fleet := s.fleet.(groups := map[], active := map[]))
  }

  function NewController(model: Model): Controller {
    Controller(Fleet(map[], map[], map[], 0, 0, false), [], model, [model], 0, map[], [], [], 0)
  }
}
