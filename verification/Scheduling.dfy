/** Jobs, arrival groups and the rule that gives a client its next job. */
module Scheduling {
  import opened Common

  /** Client identities are only ever compared, so a number stands for the name. */
  type ClientId = nat

  /** A model state: trainable parameters and the other tensors of its state dictionary. */
  datatype Model = Model(params: seq<real>, stats: seq<real>)

  /** `decay(d)` stands for (1 + d) to the power -staleness_exponent. */
  datatype Config = Config(
    low: Positive, high: Positive, momentum: real, latest: real, alpha: real, decay: nat -> real)

  ghost predicate ValidConfig(c: Config) {
    && c.low <= c.high
    && 0.0 <= c.momentum <= 1.0
    && 1.0 <= c.latest
    && 0.0 < c.alpha <= 1.0
    && c.decay(0) == 1.0
    && (forall d: nat :: 0.0 < c.decay(d) <= 1.0)
    && (forall d: nat, e: nat :: d <= e ==> c.decay(e) <= c.decay(d))
  }

  /** `serial` is the identity of the assignment object: no two objects share one. */
  datatype Job = Job(
    serial: nat, client: ClientId, steps: Positive, version: nat, group: Option<nat>, started: real)

  datatype Update = Update(job: Job, dispatch: nat, base: Model, trained: Model)

  datatype Group = Group(
    expected: real, deadline: real, pending: set<ClientId>, arrived: seq<Update>, closed: bool)

  /** The scheduling half of the controller. `raised` records that some operation threw. */
  datatype Fleet = Fleet(
    speeds: map<ClientId, real>, active: map<ClientId, Job>, groups: map<nat, Group>,
    nextGroup: nat, nextSerial: nat, raised: bool)

  function Clients(us: seq<Update>): set<ClientId> {
    set u | u in us :: u.job.client
  }

  function Members(g: Group): set<ClientId> {
    g.pending + Clients(g.arrived)
  }

  // ----- the assignment rule -----

  /** How many whole steps fit in `span`; a speed that is not positive makes the program throw. */
  function StepsIn(span: real, speed: real): int {
    if speed > 0.0 then (span / speed).Floor else 0
  }

  function Duration(steps: int, speed: real): real {
    steps as real * speed
  }

  function SpeedOf(speeds: map<ClientId, real>, c: ClientId): real {
    if c in speeds then speeds[c] else 0.0
  }

  ghost predicate Joinable(cfg: Config, g: Group, speed: real, now: real) {
    !g.closed && cfg.low <= StepsIn(g.expected - now, speed) <= cfg.high
  }

  /** The first group, in creation order, that allows the most steps. */
  function BestJoin(cfg: Config, groups: map<nat, Group>, speed: real, now: real, n: nat): (r: Option<(Positive, nat)>)
    ensures r.Some? ==>
              && r.value.1 < n && r.value.1 in groups
              && Joinable(cfg, groups[r.value.1], speed, now)
              && r.value.0 == StepsIn(groups[r.value.1].expected - now, speed)
    ensures forall g | g < n && g in groups && Joinable(cfg, groups[g], speed, now) ::
              && r.Some?
              && StepsIn(groups[g].expected - now, speed) <= r.value.0
              && (g < r.value.1 ==> StepsIn(groups[g].expected - now, speed) < r.value.0)
  {
    if n == 0 then None
    else
      var best := BestJoin(cfg, groups, speed, now, n - 1);
      if n - 1 !in groups || groups[n - 1].closed then best
      else
        var steps := StepsIn(groups[n - 1].expected - now, speed);
        if cfg.low <= steps <= cfg.high && (best.None? || steps > best.value.0) then Some((steps, n - 1))
        else best
  }

  /** The least speed estimate (seconds per step) among the members that have one. */
  function Least(speeds: map<ClientId, real>, order: seq<ClientId>, members: set<ClientId>): (r: Option<real>)
    ensures r.Some? <==> exists c :: c in order && c in members && c in speeds
    ensures forall c | c in order && c in members && c in speeds :: r.value <= speeds[c]
    ensures r.Some? ==> exists c :: c in order && c in members && c in speeds && speeds[c] == r.value
  {
    if order == [] then None
    else
      var rest := Least(speeds, order[1..], members);
      var c := order[0];
      assert forall d :: d in order <==> d == c || d in order[1..];
      if c in members && c in speeds && (rest.None? || speeds[c] <= rest.value) then Some(speeds[c]) else rest
  }

  /** Every member's speed has been measured. */
  predicate AllTimed(speeds: map<ClientId, real>, members: set<ClientId>) {
    forall c | c in members :: c in speeds
  }

  /** The minimum of the members' speeds; None when it throws, on a member without a speed or on no member. */
  function Fastest(speeds: map<ClientId, real>, order: seq<ClientId>, members: set<ClientId>): (r: Option<real>)
    ensures r.Some? <==> AllTimed(speeds, members) && exists c :: c in order && c in members
    ensures r.Some? ==> forall c | c in order && c in members :: r.value <= speeds[c]
    ensures r.Some? ==> exists c :: c in order && c in members && c in speeds && speeds[c] == r.value
  {
    if AllTimed(speeds, members) then Least(speeds, order, members) else None
  }

  datatype Alignment = Alignment(best: Option<int>, raised: bool)

  ghost predicate Alignable(g: Group, now: real) {
    !g.closed && now < g.deadline
  }

  function AlignSteps(cfg: Config, g: Group, fastest: real, speed: real, now: real): int {
    StepsIn(g.deadline + fastest * cfg.high as real - now, speed)
  }

  /** Group g can be aligned with by taking this many steps. */
  ghost predicate AlignsAt(
    cfg: Config, speeds: map<ClientId, real>, order: seq<ClientId>, groups: map<nat, Group>,
    speed: real, now: real, g: nat, steps: int)
  {
    && g in groups && Alignable(groups[g], now)
    && Fastest(speeds, order, Members(groups[g])).Some?
    && AlignSteps(cfg, groups[g], Fastest(speeds, order, Members(groups[g])).value, speed, now) == steps
  }

  /** The most steps, at most `high`, that end with the next fast arrival of an open group. */
  function LatestAlignment(
    cfg: Config, speeds: map<ClientId, real>, order: seq<ClientId>, groups: map<nat, Group>,
    speed: real, now: real, n: nat): (r: Alignment)
    ensures r.best.Some? ==> r.best.value <= cfg.high && exists g: nat ::
          g < n && AlignsAt(cfg, speeds, order, groups, speed, now, g, r.best.value)
    ensures r.raised <==> exists g :: g < n && g in groups && Alignable(groups[g], now)
                                     && Fastest(speeds, order, Members(groups[g])).None?
    ensures forall g | g < n && g in groups && Alignable(groups[g], now) ::
              var fast := Fastest(speeds, order, Members(groups[g]));
              fast.Some? && AlignSteps(cfg, groups[g], fast.value, speed, now) <= cfg.high ==>
                r.best.Some? && AlignSteps(cfg, groups[g], fast.value, speed, now) <= r.best.value
  {
    if n == 0 then Alignment(None, false)
    else
      var prev := LatestAlignment(cfg, speeds, order, groups, speed, now, n - 1);
      if n - 1 !in groups || groups[n - 1].closed || now >= groups[n - 1].deadline then prev
      else
        var g := groups[n - 1];
        match Fastest(speeds, order, Members(g))
        case None => prev.(raised := true)
        case Some(fastest) =>
          var steps := AlignSteps(cfg, g, fastest, speed, now);
          if steps <= cfg.high && (prev.best.None? || steps > prev.best.value) then
            assert AlignsAt(cfg, speeds, order, groups, speed, now, n - 1, steps);
            prev.(best := Some(steps))
          else prev
  }

  /** The steps of a newly opened group. */
  function FreshSteps(cfg: Config, best: Option<int>): (steps: Positive)
    ensures cfg.low <= cfg.high ==> cfg.low <= steps <= cfg.high || (best.Some? && best.value > cfg.high)
  {
    match best
    case None => cfg.high
    case Some(b) => if b > cfg.low then b else cfg.low
  }

  function JoinGroup(f: Fleet, version: nat, c: ClientId, steps: Positive, g: nat, now: real): (Fleet, Job)
    requires g in f.groups
  {
    var job := Job(f.nextSerial, c, steps, version, Some(g), now);
    var joined := f.groups[g].(pending := f.groups[g].pending + {c});
    (f.(groups := f.groups[g := joined], active := f.active[c := job], nextSerial := f.nextSerial + 1), job)
  }

  function OpenGroup(
      cfg: Config, f: Fleet, version: nat, c: ClientId, steps: Positive, speed: real, now: real): (Fleet, Job) {
    var duration := Duration(steps, speed);
    var started := Group(now + duration, now + cfg.latest * duration, {c}, [], false);
    var job := Job(f.nextSerial, c, steps, version, Some(f.nextGroup), now);
    (f.(groups := f.groups[f.nextGroup := started], active := f.active[c := job],
        nextGroup := f.nextGroup + 1, nextSerial := f.nextSerial + 1), job)
  }

  /** Gives client `c` its next job: join the best open group, else open a new one. */
  function Assign(cfg: Config, order: seq<ClientId>, f: Fleet, version: nat, c: ClientId, now: real): (Fleet, Job) {
    var speed := SpeedOf(f.speeds, c);
    var checked := f.(raised := f.raised || speed <= 0.0);
    match BestJoin(cfg, f.groups, speed, now, f.nextGroup)
    case Some((steps, g)) => JoinGroup(checked, version, c, steps, g, now)
    case None =>
      var align := LatestAlignment(cfg, f.speeds, order, f.groups, speed, now, f.nextGroup);
      OpenGroup(cfg, checked.(raised := checked.raised || align.raised), version, c, FreshSteps(cfg, align.best),
            speed, now)
  }

  /** Jobs for several clients, one after another. */
  function AssignAll(
      cfg: Config, order: seq<ClientId>, f: Fleet, version: nat, cs: seq<ClientId>,
      now: real): (r: (Fleet, seq<Job>))
    ensures |r.1| == |cs|
  {
    if cs == [] then (f, [])
    else
      var (before, jobs) := AssignAll(cfg, order, f, version, DropLast(cs), now);
      var (after, job) := Assign(cfg, order, before, version, Last(cs), now);
      (after, jobs + [job])
  }

  // ----- what every operation keeps -----

  ghost predicate JobsOk(cfg: Config, ids: set<ClientId>, f: Fleet) {
    forall c | c in f.active ::
      && c in ids && f.active[c].client == c
      && f.active[c].serial < f.nextSerial
      && cfg.low <= f.active[c].steps <= cfg.high
      && (f.active[c].group.Some? ==>
            f.active[c].group.value in f.groups && c in f.groups[f.active[c].group.value].pending)
  }

  ghost predicate PendingOk(f: Fleet, gid: nat, pending: set<ClientId>) {
    forall c | c in pending :: c in f.active && f.active[c].group == Some(gid) && c in f.speeds
  }

  ghost predicate WaitingOk(ids: set<ClientId>, f: Fleet, arrived: seq<Update>) {
    && (forall u | u in arrived :: u.job.client !in f.active && u.job.client in f.speeds && u.job.client in ids)
    && (forall i, j | 0 <= i < j < |arrived| :: arrived[i].job.client != arrived[j].job.client)
  }

  ghost predicate GroupOk(ids: set<ClientId>, f: Fleet, gid: nat, g: Group) {
    && gid < f.nextGroup
    && g.expected <= g.deadline
    && PendingOk(f, gid, g.pending)
    && WaitingOk(ids, f, g.arrived)
    && (g.closed ==> g.arrived == [])
  }

  /** No client waits in two groups. */
  ghost predicate Apart(f: Fleet) {
    forall g, h | g in f.groups && h in f.groups && g != h ::
      Clients(f.groups[g].arrived) !! Clients(f.groups[h].arrived)
  }

  ghost predicate SpeedsOk(f: Fleet) {
    forall c | c in f.speeds :: f.speeds[c] > 0.0
  }

  /** Jobs, pending clients and waiting updates agree, and no client is in two places. */
  ghost predicate FleetFits(cfg: Config, ids: set<ClientId>, f: Fleet) {
    && !f.raised
    && SpeedsOk(f)
    && JobsOk(cfg, ids, f)
    && (forall g | g in f.groups :: GroupOk(ids, f, g, f.groups[g]))
    && Apart(f)
  }

  /** An open group other than `but` that nobody is expected in any more is past its deadline. */
  ghost predicate Alive(f: Fleet, now: real, but: Option<nat>) {
    forall g | g in f.groups && but != Some(g) && !f.groups[g].closed && f.groups[g].pending == {} ::
      f.groups[g].deadline < now
  }

  /** The scheduling invariant, for a controller that has seen time `now`. */
  ghost predicate FleetOk(cfg: Config, ids: set<ClientId>, f: Fleet, now: real) {
    FleetFits(cfg, ids, f) && Alive(f, now, None)
  }

  ghost predicate Waiting(f: Fleet, c: ClientId) {
    exists g :: g in f.groups && !f.groups[g].closed && c in Clients(f.groups[g].arrived)
  }

  /** Every client has a job or waits in a group. */
  ghost predicate Complete(ids: set<ClientId>, f: Fleet) {
    forall c | c in ids :: c in f.active || Waiting(f, c)
  }

  lemma FleetOkLater(cfg: Config, ids: set<ClientId>, f: Fleet, now: real, later: real)
    requires FleetOk(cfg, ids, f, now) && now <= later
    ensures FleetOk(cfg, ids, f, later)
  {
  }

  // ----- the assignment rule keeps the invariant and its bounds -----

  lemma Scale(a: real, b: real, speed: real)
    requires speed > 0.0
    ensures a <= b ==> a * speed <= b * speed
    ensures a < b ==> a * speed < b * speed
  {
  }

  /** Rounding a span down to whole steps leaves less than one step over. */
  lemma StepsBound(span: real, speed: real, steps: int)
    requires speed > 0.0 && steps == StepsIn(span, speed)
    ensures steps as real * speed <= span < (steps + 1) as real * speed
  {
    var q := span / speed;
    assert q * speed == span;
    assert steps as real <= q < (steps + 1) as real;
    Scale(steps as real, q, speed);
    Scale(q, (steps + 1) as real, speed);
  }

  lemma JoinTimes(expected: real, speed: real, now: real, steps: Positive)
    requires speed > 0.0 && steps == StepsIn(expected - now, speed)
    ensures now + Duration(steps, speed) <= expected < now + Duration(steps + 1, speed)
    ensures now < expected
  {
    StepsBound(expected - now, speed, steps);
    Scale(1.0, steps as real, speed);
  }

  lemma FreshTimes(cfg: Config, steps: Positive, speed: real)
    requires ValidConfig(cfg) && speed > 0.0
    ensures 0.0 < Duration(steps, speed) <= cfg.latest * Duration(steps, speed)
    ensures Duration(steps, speed) < Duration(steps + 1, speed)
  {
    Scale(1.0, steps as real, speed);
    Scale(1.0, cfg.latest, Duration(steps, speed));
    Scale(steps as real, (steps + 1) as real, speed);
  }

  /** The client finishes on time: at its group's expected arrival, or less than one step earlier. */
  ghost predicate OnTime(cfg: Config, groups: map<nat, Group>, job: Job, speed: real, now: real) {
    && cfg.low <= job.steps <= cfg.high
    && job.group.Some?
    && job.group.value in groups
    && var g := groups[job.group.value];
    && !g.closed && job.client in g.pending
    && now + Duration(job.steps, speed) <= g.expected < now + Duration(job.steps + 1, speed)
    && now < g.expected <= g.deadline
  }

  /** An existing group is joined when one fits, the one with the most steps; else a new group is opened. */
  ghost predicate BestFit(cfg: Config, f: Fleet, f': Fleet, job: Job, speed: real, now: real) {
    && job.group.Some?
    && (job.group.value in f.groups ==>
          && f'.groups == f.groups[job.group.value := f.groups[job.group.value].(
                                     pending := f.groups[job.group.value].pending + {job.client})]
          && forall h | h in f.groups && Joinable(cfg, f.groups[h], speed, now) ::
               StepsIn(f.groups[h].expected - now, speed) <= job.steps)
    && (job.group.value !in f.groups ==>
          && job.group.value in f'.groups
          && f'.groups == f.groups[job.group.value := f'.groups[job.group.value]]
          && f'.groups[job.group.value].pending == {job.client} && f'.groups[job.group.value].arrived == []
          && forall h | h in f.groups :: !Joinable(cfg, f.groups[h], speed, now))
  }

  ghost predicate Numbered(f: Fleet) {
    forall g | g in f.groups :: g < f.nextGroup && f.groups[g].expected <= f.groups[g].deadline
  }

  lemma JoinOnTime(cfg: Config, order: seq<ClientId>, f: Fleet, version: nat, c: ClientId, now: real)
    requires ValidConfig(cfg) && Numbered(f)
    requires c in f.speeds && f.speeds[c] > 0.0
    requires BestJoin(cfg, f.groups, f.speeds[c], now, f.nextGroup).Some?
    ensures var (f', job) := Assign(cfg, order, f, version, c, now);
            OnTime(cfg, f'.groups, job, f.speeds[c], now)
  {
    var speed := f.speeds[c];
    var Some((steps, g)) := BestJoin(cfg, f.groups, speed, now, f.nextGroup);
    hide StepsIn, Duration;
    JoinTimes(f.groups[g].expected, speed, now, steps);
  }

  lemma FreshOnTime(cfg: Config, order: seq<ClientId>, f: Fleet, version: nat, c: ClientId, now: real)
    requires ValidConfig(cfg) && Numbered(f)
    requires c in f.speeds && f.speeds[c] > 0.0
    requires BestJoin(cfg, f.groups, f.speeds[c], now, f.nextGroup).None?
    ensures var (f', job) := Assign(cfg, order, f, version, c, now);
            OnTime(cfg, f'.groups, job, f.speeds[c], now)
  {
    var speed := f.speeds[c];
    var steps := Assign(cfg, order, f, version, c, now).1.steps;
    FreshTimes(cfg, steps, speed);
    hide StepsIn, Duration;
  }

  /** Every assignment respects the step bounds, meets its group's times and is the best fit. */
  lemma AssignSchedules(cfg: Config, order: seq<ClientId>, f: Fleet, version: nat, c: ClientId, now: real)
    requires ValidConfig(cfg) && Numbered(f)
    requires c in f.speeds && f.speeds[c] > 0.0
    ensures var (f', job) := Assign(cfg, order, f, version, c, now);
            && OnTime(cfg, f'.groups, job, f.speeds[c], now)
            && BestFit(cfg, f, f', job, f.speeds[c], now)
  {
    if BestJoin(cfg, f.groups, f.speeds[c], now, f.nextGroup).Some? {
      JoinOnTime(cfg, order, f, version, c, now);
    } else {
      FreshOnTime(cfg, order, f, version, c, now);
    }
  }

  /** A client that opens a group takes the most steps that align with another group, at least the minimum, or
      the maximum when there is nothing to align with. The group expects it when it is done, and waits for others
      until the time factor's multiple of that. */
  lemma FreshSchedules(cfg: Config, order: seq<ClientId>, f: Fleet, version: nat, c: ClientId, now: real)
    requires ValidConfig(cfg) && Numbered(f) && c in f.speeds && f.speeds[c] > 0.0
    requires forall g | g in f.groups :: !Joinable(cfg, f.groups[g], f.speeds[c], now)
    ensures var (f', job) := Assign(cfg, order, f, version, c, now);
            var speed := f.speeds[c];
            && job.group == Some(f.nextGroup) && f.nextGroup in f'.groups
            && f'.groups[f.nextGroup].expected == now + Duration(job.steps, speed)
            && f'.groups[f.nextGroup].deadline == now + cfg.latest * Duration(job.steps, speed)
            && (forall g, steps | AlignsAt(cfg, f.speeds, order, f.groups, speed, now, g, steps)
                  && steps <= cfg.high :: steps <= job.steps)
            && (job.steps == cfg.low || job.steps == cfg.high
                || exists g :: AlignsAt(cfg, f.speeds, order, f.groups, speed, now, g, job.steps))
            && ((forall g, steps | AlignsAt(cfg, f.speeds, order, f.groups, speed, now, g, steps) ::
                  steps > cfg.high) ==> job.steps == cfg.high)
  {
    hide StepsIn, Duration, Fastest;
    var align := LatestAlignment(cfg, f.speeds, order, f.groups, f.speeds[c], now, f.nextGroup);
    assert BestJoin(cfg, f.groups, f.speeds[c], now, f.nextGroup).None?;
    hide BestJoin, LatestAlignment;
  }

  // ----- the assignment rule keeps the invariant -----

  /** `c` has neither a job nor a place in a group. */
  ghost predicate Idle(f: Fleet, c: ClientId) {
    && c !in f.active
    && forall g | g in f.groups :: c !in Clients(f.groups[g].arrived)
  }

  /** The groups of `f` keep their waiting updates and times; groups added since `now` end later. */
  ghost predicate Extends(f: Fleet, f': Fleet, now: real) {
    && f.nextGroup <= f'.nextGroup && f.nextSerial <= f'.nextSerial && f.speeds == f'.speeds
    && (forall g | g in f.groups ::
          && g in f'.groups
          && f'.groups[g] == f.groups[g].(pending := f'.groups[g].pending)
          && f.groups[g].pending <= f'.groups[g].pending)
    && (forall g | g in f'.groups && g !in f.groups ::
          f.nextGroup <= g && f'.groups[g].arrived == [] && !f'.groups[g].closed && now < f'.groups[g].deadline)
  }

  /** A group that can still be aligned with has a member whose speed is known. */
  lemma AlignableHasMember(cfg: Config, order: seq<ClientId>, ids: set<ClientId>, f: Fleet, now: real, g: nat)
    requires FleetOk(cfg, ids, f, now) && ids == (set c | c in order)
    requires g in f.groups && Alignable(f.groups[g], now)
    ensures Fastest(f.speeds, order, Members(f.groups[g])).Some?
  {
    assert GroupOk(ids, f, g, f.groups[g]);
    assert f.groups[g].pending != {};
    var c :| c in f.groups[g].pending;
    assert c in f.active && c in ids;
    assert c in order && c in Members(f.groups[g]) && AllTimed(f.speeds, Members(f.groups[g]));
  }

  lemma AssignNeverRaises(
      cfg: Config, order: seq<ClientId>, ids: set<ClientId>, f: Fleet, version: nat, c: ClientId, now: real)
    requires FleetOk(cfg, ids, f, now) && ids == (set c | c in order)
    requires c in f.speeds
    ensures !Assign(cfg, order, f, version, c, now).0.raised
  {
    hide StepsIn, Duration;
    assert f.speeds[c] > 0.0;
    if BestJoin(cfg, f.groups, f.speeds[c], now, f.nextGroup).None? {
      forall g | g < f.nextGroup && g in f.groups && Alignable(f.groups[g], now)
        ensures Fastest(f.speeds, order, Members(f.groups[g])).Some?
      {
        AlignableHasMember(cfg, order, ids, f, now, g);
      }
    }
  }

  /** Only client `c` is given a job; every group keeps what waits in it. */
  lemma AssignExtends(cfg: Config, order: seq<ClientId>, f: Fleet, version: nat, c: ClientId, now: real)
    requires ValidConfig(cfg) && Numbered(f) && c in f.speeds && f.speeds[c] > 0.0
    ensures var (f', job) := Assign(cfg, order, f, version, c, now);
            && Extends(f, f', now) && f'.active == f.active[c := job]
            && job.client == c && job.version == version && job.started == now
            && job.serial == f.nextSerial < f'.nextSerial
  {
    hide StepsIn, Duration;
    AssignSchedules(cfg, order, f, version, c, now);
  }

  lemma AssignKeepsGroup(cfg: Config, ids: set<ClientId>, f: Fleet, f': Fleet, job: Job, now: real, speed: real, g: nat)
    requires FleetOk(cfg, ids, f, now) && Idle(f, job.client) && job.client in ids && job.client in f.speeds
    requires Extends(f, f', now) && f'.active == f.active[job.client := job]
    requires OnTime(cfg, f'.groups, job, speed, now) && BestFit(cfg, f, f', job, speed, now)
    requires g in f'.groups && g < f'.nextGroup
    ensures GroupOk(ids, f', g, f'.groups[g])
  {
    hide StepsIn, Duration;
    if g in f.groups {
      assert GroupOk(ids, f, g, f.groups[g]);
      forall u | u in f.groups[g].arrived ensures u.job.client != job.client {
        assert u.job.client in Clients(f.groups[g].arrived);
      }
    }
  }

  lemma AssignKeepsJobs(cfg: Config, ids: set<ClientId>, f: Fleet, f': Fleet, job: Job, now: real, speed: real)
    requires FleetOk(cfg, ids, f, now) && Idle(f, job.client) && job.client in ids
    requires Extends(f, f', now) && f'.active == f.active[job.client := job] && job.serial < f'.nextSerial
    requires OnTime(cfg, f'.groups, job, speed, now) && BestFit(cfg, f, f', job, speed, now)
    ensures JobsOk(cfg, ids, f') && Apart(f') && Alive(f', now, None)
  {
    hide StepsIn, Duration;
    forall g | g in f'.groups && !f'.groups[g].closed && f'.groups[g].pending == {}
      ensures f'.groups[g].deadline < now {
      assert g in f.groups && f.groups[g].pending == {};
    }
  }

  /** Assigning an idle client keeps the scheduling invariant. */
  lemma AssignKeeps(
      cfg: Config, order: seq<ClientId>, ids: set<ClientId>, f: Fleet, version: nat, c: ClientId, now: real)
    requires ValidConfig(cfg) && FleetOk(cfg, ids, f, now) && ids == (set c | c in order)
    requires c in ids && c in f.speeds && Idle(f, c)
    ensures var (f', job) := Assign(cfg, order, f, version, c, now);
            && FleetOk(cfg, ids, f', now) && Extends(f, f', now)
            && f'.active == f.active[c := job]
            && job.client == c && job.version == version && job.started == now
  {
    hide StepsIn, Duration;
    var (f', job) := Assign(cfg, order, f, version, c, now);
    forall g | g in f.groups ensures g < f.nextGroup && f.groups[g].expected <= f.groups[g].deadline {
      assert GroupOk(ids, f, g, f.groups[g]);
    }
    assert f.speeds[c] > 0.0;
    AssignExtends(cfg, order, f, version, c, now);
    AssignSchedules(cfg, order, f, version, c, now);
    AssignNeverRaises(cfg, order, ids, f, version, c, now);
    assert forall g | g in f'.groups :: g < f'.nextGroup;
    forall g | g in f'.groups ensures GroupOk(ids, f', g, f'.groups[g]) {
      AssignKeepsGroup(cfg, ids, f, f', job, now, f.speeds[c], g);
    }
    AssignKeepsJobs(cfg, ids, f, f', job, now, f.speeds[c]);
    hide Assign;
  }
}
