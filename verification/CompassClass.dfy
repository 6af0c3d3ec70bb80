/** The FedCompass controller as the object the coordinator owns: assignments are heap objects that are
    told apart by identity, and every operation updates the fields in place. */
module CompassClass {
  import opened Common
  import opened Scheduling
  import opened Compass

  /** One assignment. Only its version and start time are written after creation. */
  class Assignment {
    const serial: nat
    const client: ClientId
    const steps: Positive
    const group: Option<nat>
    var version: nat
    var started: real

    constructor (serial: nat, client: ClientId, steps: Positive, version: nat, group: Option<nat>, started: real)
      ensures Value() == Job(serial, client, steps, version, group, started)
    {
      this.serial, this.client, this.steps, this.group := serial, client, steps, group;
      this.version, this.started := version, started;
    }

    function Value(): Job
      reads this
    {
      Job(serial, client, steps, version, group, started)
    }
  }

  function Values(active: map<ClientId, Assignment>): map<ClientId, Job>
    reads active.Values
  {
    map c | c in active :: active[c].Value()
  }

  function ValuesOf(jobs: seq<Assignment>): (r: seq<Job>)
    reads jobs
    ensures |r| == |jobs|
  {
    seq(|jobs|, k requires 0 <= k < |jobs| reads jobs => jobs[k].Value())
  }

  class FedCompass {
    const env: Env
    var speeds: map<ClientId, real>
    var active: map<ClientId, Assignment>
    var groups: map<nat, Group>
    var nextGroup: nat
    var nextSerial: nat
    var raised: bool
    var buffer: seq<Update>
    var model: Model
    ghost var history: seq<Model>
    var version: nat
    var receipts: map<nat, Receipt>
    var aggregations: seq<Aggregation>
    var events: seq<GroupEvent>
    var ticks: nat

    constructor (env: Env, model: Model)
      ensures this.env == env && active == map[]
      ensures State() == NewController(model)
    {
      this.env, this.model := env, model;
      speeds, active, groups, nextGroup, nextSerial, raised := map[], map[], map[], 0, 0, false;
      buffer, history, version, receipts, aggregations, events, ticks := [], [model], 0, map[], [], [], 0;
      new;
      assert Values(active) == map[];
    }

    ghost function FleetState(): Fleet
      reads this, active.Values
    {
      Fleet(speeds, Values(active), groups, nextGroup, nextSerial, raised)
    }

    /** The whole state as a value. */
    ghost function State(): Controller
      reads this, active.Values
    {
      Controller(FleetState(), buffer, model, history, version, receipts, aggregations, events, ticks)
    }

    /** The new assignments have increasing new serial numbers, and every active one is new or was active. */
    ghost predicate Issued(jobs: seq<Assignment>, was: map<ClientId, Assignment>, since: nat)
      reads this
    {
      && since <= nextSerial
      && (forall k | 0 <= k < |jobs| :: since <= jobs[k].serial < nextSerial)
      && (forall i, j | 0 <= i < j < |jobs| :: jobs[i].serial < jobs[j].serial)
      && (forall c | c in active :: (active[c] in jobs && active[c].client == c) || (c in was && active[c] == was[c]))
    }

    /** One reading of the coordinator clock. */
    method Clock() returns (now: real)
      modifies this`ticks
      ensures ticks == old(ticks) + 1 && now == env.tick(old(ticks))
    {
      now := env.tick(ticks);
      ticks := ticks + 1;
    }

    // ----- the assignment rule -----

    method FindJoin(speed: real, now: real) returns (best: Option<(Positive, nat)>)
      ensures best == BestJoin(env.cfg, groups, speed, now, nextGroup)
    {
      best := None;
      hide StepsIn;
      for g := 0 to nextGroup
        invariant best == BestJoin(env.cfg, groups, speed, now, g)
      {
        if g in groups && !groups[g].closed {
          var steps := StepsIn(groups[g].expected - now, speed);
          if env.cfg.low <= steps <= env.cfg.high && (best.None? || steps > best.value.0) {
            best := Some((steps, g));
          }
        }
      }
    }

    method FindFastest(members: set<ClientId>) returns (fastest: Option<real>)
      ensures fastest == Fastest(speeds, env.order, members)
    {
      fastest := None;
      if exists c :: c in members && c !in speeds {
        return;
      }
      for k := |env.order| downto 0
        invariant fastest == Least(speeds, env.order[k..], members)
      {
        var c := env.order[k];
        assert env.order[k..][1..] == env.order[k + 1..];
        if c in members && c in speeds && (fastest.None? || speeds[c] <= fastest.value) {
          fastest := Some(speeds[c]);
        }
      }
      assert env.order[0..] == env.order;
    }

    method FindAlignment(speed: real, now: real) returns (align: Alignment)
      ensures align == LatestAlignment(env.cfg, speeds, env.order, groups, speed, now, nextGroup)
    {
      align := Alignment(None, false);
      hide StepsIn, Fastest;
      for g := 0 to nextGroup
        invariant align == LatestAlignment(env.cfg, speeds, env.order, groups, speed, now, g)
      {
        if g in groups && !groups[g].closed && now < groups[g].deadline {
          var fastest := FindFastest(Scheduling.Members(groups[g]));
          if fastest.None? {
            align := align.(raised := true);
          } else {
            var steps := AlignSteps(env.cfg, groups[g], fastest.value, speed, now);
            if steps <= env.cfg.high && (align.best.None? || steps > align.best.value) {
              align := align.(best := Some(steps));
            }
          }
        }
      }
    }

    method Join(c: ClientId, steps: Positive, g: nat, now: real) returns (job: Assignment)
      requires g in groups
      modifies this`groups, this`active, this`nextSerial
      ensures fresh(job) && active == old(active)[c := job]
      ensures job.serial == old(nextSerial) && job.client == c && nextSerial == old(nextSerial) + 1
      ensures (FleetState(), job.Value()) == JoinGroup(old(FleetState()), version, c, steps, g, now)
    {
      groups := groups[g := groups[g].(pending := groups[g].pending + {c})];
      job := new Assignment(nextSerial, c, steps, version, Some(g), now);
      nextSerial := nextSerial + 1;
      active := active[c := job];
      assert Values(active) == old(Values(active))[c := job.Value()];
    }

    method Open(c: ClientId, steps: Positive, speed: real, now: real) returns (job: Assignment)
      modifies this`groups, this`active, this`nextGroup, this`nextSerial
      ensures fresh(job) && active == old(active)[c := job]
      ensures job.serial == old(nextSerial) && job.client == c && nextSerial == old(nextSerial) + 1
      ensures (FleetState(), job.Value()) == OpenGroup(env.cfg, old(FleetState()), version, c, steps, speed, now)
    {
      hide Scheduling.Duration;
      var duration := Duration(steps, speed);
      var started := Group(now + duration, now + env.cfg.latest * duration, {c}, [], false);
      assert OpenGroup(env.cfg, old(FleetState()), version, c, steps, speed, now).0.groups[nextGroup].deadline
            == started.deadline;
      groups := groups[nextGroup := started];
      job := new Assignment(nextSerial, c, steps, version, Some(nextGroup), now);
      nextGroup := nextGroup + 1;
      nextSerial := nextSerial + 1;
      active := active[c := job];
      assert Values(active) == old(Values(active))[c := job.Value()];
    }

    /** Gives the client a new assignment object. */
    method Assign(c: ClientId, now: real) returns (job: Assignment)
      modifies this`groups, this`active, this`nextGroup, this`nextSerial, this`raised
      ensures fresh(job) && active == old(active)[c := job]
      ensures job.serial == old(nextSerial) && job.client == c && nextSerial == old(nextSerial) + 1
      ensures (FleetState(), job.Value()) == Scheduling.Assign(env.cfg, env.order, old(FleetState()), version, c, now)
    {
      hide StepsIn, Scheduling.Duration, LatestAlignment, BestJoin, JoinGroup, OpenGroup, Values;
      var speed := SpeedOf(speeds, c);
      raised := raised || speed <= 0.0;
      var join := FindJoin(speed, now);
      if join.Some? {
        job := Join(c, join.value.0, join.value.1, now);
      } else {
        var align := FindAlignment(speed, now);
        raised := raised || align.raised;
        job := Open(c, FreshSteps(env.cfg, align.best), speed, now);
      }
    }

    // ----- receipts -----

    method Mark(us: seq<Update>, st: Status)
      modifies this`receipts
      ensures receipts == MarkAll(old(receipts), us, st)
    {
      hide SetStatus;
      for k := 0 to |us|
        invariant receipts == MarkAll(old(receipts), us[..k], st)
      {
        assert DropLast(us[..k + 1]) == us[..k];
        receipts := SetStatus(receipts, us[k].dispatch, st);
      }
      assert us[..|us|] == us;
    }

    method MarkAggregated(us: seq<Update>, before: nat, at: real)
      modifies this`receipts
      ensures receipts == MarkCommitted(env, before, at, old(receipts), us)
    {
      hide SetStatus, CommitStatus;
      for k := 0 to |us|
        invariant receipts == MarkCommitted(env, before, at, old(receipts), us[..k])
      {
        assert DropLast(us[..k + 1]) == us[..k];
        receipts := SetStatus(receipts, us[k].dispatch, CommitStatus(env, before, at, us[k]));
      }
      assert us[..|us|] == us;
    }

    // ----- aggregation -----

    /** Adds every scaled delta to the parameters; throws on an update from a future version. */
    method BlendUpdates(us: seq<Update>) returns (ok: bool, params: seq<real>, weights: seq<real>, stale: seq<nat>)
      ensures ok == !FromFuture(version, us)
      ensures ok ==>
            params == Blend(env, version, model.params, us) && weights == Scales(env, version, us)
            && stale == Delays(version, us)
    {
      hide Shift, StaleWeight, ScaleOf, Delay;
      ok, params, weights, stale := true, model.params, [], [];
      for k := 0 to |us|
        invariant !FromFuture(version, us[..k])
        invariant params == Blend(env, version, model.params, us[..k])
        invariant weights == Scales(env, version, us[..k])
        invariant stale == Delays(version, us[..k])
      {
        if us[k].job.version > version {
          ok := false;
          return;
        }
        assert DropLast(us[..k + 1]) == us[..k];
        params := Shift(params, ScaleOf(env, version, us[k]), us[k]);
        weights := weights + [ScaleOf(env, version, us[k])];
        stale := stale + [Delay(version, us[k])];
      }
      assert us[..|us|] == us;
    }

    /** Makes the model, already blended, the next version. */
    method CommitUpdates(
        us: seq<Update>, at: real, group: Option<nat>, reason: Reason, stale: seq<nat>, weights: seq<real>)
      requires stale == Delays(version, us) && weights == Scales(env, version, us)
      modifies this`history, this`version, this`receipts, this`aggregations
      ensures version == old(version) + 1
      ensures history == old(history) + [model]
      ensures receipts == MarkCommitted(env, old(version), at, old(receipts), us)
      ensures aggregations == old(aggregations)
            + [Aggregation(old(version) + 1, at, group, reason, DispatchesOf(us), ClientsOf(us),
                                                               Delays(old(version), us), Scales(env, old(version), us))]
    {
      hide MarkCommitted, Scales, Delays, DispatchesOf, ClientsOf;
      history := history + [model];
      version := version + 1;
      MarkAggregated(us, version - 1, at);
      aggregations := aggregations + [Aggregation(version, at, group, reason, DispatchesOf(us), ClientsOf(us),
            stale, weights)];
    }

    /** Puts the blended model in place and looks at the clock; if the budget is spent the old model is restored. */
    method InstallModel(
        merged: Model, us: seq<Update>, group: Option<nat>, reason: Reason, stale: seq<nat>, weights: seq<real>)
        returns (committed: bool)
      requires merged == Merge(env, version, model, us) && stale == Delays(version, us)
      requires weights == Scales(env, version, us)
      modifies this`model, this`history, this`version, this`receipts, this`aggregations, this`ticks
      ensures committed == !Late(env, env.tick(old(ticks)))
      ensures State() ==
                if committed then Commit(env, old(State()), us, group, reason)
                else old(State()).(receipts := MarkAll(old(receipts), us, DiscardedAtStop), ticks := old(ticks) + 1)
    {
      hide Merge, MarkAll, MarkCommitted, Scales, Delays, DispatchesOf, ClientsOf, Late, Values;
      var previous := model;
      model := merged;
      var at := Clock();
      committed := !Late(env, at);
      if committed {
        CommitUpdates(us, at, group, reason, stale, weights);
      } else {
        model := previous;
        Mark(us, DiscardedAtStop);
      }
    }

    /** Blends the updates and commits the result unless the budget is spent by then. */
    method AggregateUpdates(us: seq<Update>, group: Option<nat>, reason: Reason) returns (committed: bool)
      modifies this`raised, this`model, this`history, this`version, this`receipts, this`aggregations, this`ticks
      ensures (State(), committed) == Aggregate(env, old(State()), us, group, reason)
    {
      hide Blend, MarkAll, AverageStats, FromFuture, Scales, Delays, Late, Commit, Values;
      var ok, params, weights, stale := BlendUpdates(us);
      if !ok {
        raised := true;
        return false;
      }
      committed := InstallModel(Model(params, AverageStats(env, model.stats, us)), us, group, reason, stale, weights);
    }

    // ----- closing -----

    /** Overrides the late buffer with the arrivals and empties it. */
    method GatherUpdates(arrived: seq<Update>) returns (merged: seq<Update>)
      modifies this`receipts, this`buffer
      ensures (State(), merged) == Gather(old(State()), arrived)
    {
      hide SupersedePrevious, Put;
      merged := buffer;
      for k := 0 to |arrived|
        invariant (receipts, merged) == MergeArrived(old(receipts), buffer, arrived[..k])
        invariant buffer == old(buffer)
      {
        assert DropLast(arrived[..k + 1]) == arrived[..k];
        receipts := SupersedePrevious(receipts, merged, arrived[k].job.client);
        merged := Put(merged, arrived[k]);
      }
      assert arrived[..|arrived|] == arrived;
      buffer := [];
    }

    method ReleaseAll(cs: seq<ClientId>, now: real) returns (jobs: seq<Assignment>)
      modifies this`groups, this`active, this`nextGroup, this`nextSerial, this`raised
      ensures forall k | 0 <= k < |jobs| :: fresh(jobs[k])
      ensures Issued(jobs, old(active), old(nextSerial))
      ensures (State(), ValuesOf(jobs)) == Release(env, old(State()), cs, now)
    {
      jobs := [];
      hide Scheduling.Assign, Values;
      for k := 0 to |cs|
        invariant forall i | 0 <= i < |jobs| :: fresh(jobs[i])
        invariant Issued(jobs, old(active), old(nextSerial))
        invariant (FleetState(), ValuesOf(jobs))
              == AssignAll(env.cfg, env.order, old(FleetState()), version, cs[..k], now)
      {
        assert DropLast(cs[..k + 1]) == cs[..k];
        ghost var before := ValuesOf(jobs);
        var job := Assign(cs[k], now);
        jobs := jobs + [job];
        assert ValuesOf(jobs) == before + [job.Value()];
      }
      assert cs[..|cs|] == cs;
    }

    method ReleaseFastestFirst(cs: seq<ClientId>, now: real) returns (jobs: seq<Assignment>)
      modifies this`groups, this`active, this`nextGroup, this`nextSerial, this`raised
      ensures forall k | 0 <= k < |jobs| :: fresh(jobs[k])
      ensures Issued(jobs, old(active), old(nextSerial))
      ensures (State(), ValuesOf(jobs)) == ReleaseBySpeed(env, old(State()), cs, now)
    {
      hide Release, BySpeed, Values;
      if exists k :: 0 <= k < |cs| && cs[k] !in speeds {
        raised := true;
      }
      jobs := ReleaseAll(BySpeed(speeds, cs), now);
    }

    method CloseGroup(gid: nat, now: real, reason: Reason) returns (jobs: seq<Assignment>)
      modifies this
      ensures forall k | 0 <= k < |jobs| :: fresh(jobs[k])
      ensures Issued(jobs, old(active), old(nextSerial))
      ensures (State(), ValuesOf(jobs)) == Close(env, old(State()), gid, now, reason)
    {
      hide Gather, Aggregate, ReleaseBySpeed, Values;
      jobs := [];
      if gid !in groups {
        raised := true;
        return;
      }
      var g := groups[gid];
      var arrived := g.arrived;
      groups := groups[gid := g.(closed := true, arrived := [])];
      events := events + [EventOf(g, gid, now, reason)];
      if arrived == [] {
        return;
      }
      assert State() == Shut(old(State()), gid, now, reason);
      jobs := Incorporate(arrived, gid, now, reason);
    }

    /** Aggregates the arrivals of a closed group with the late buffer and gives their clients new assignments. */
    method Incorporate(arrived: seq<Update>, gid: nat, now: real, reason: Reason) returns (jobs: seq<Assignment>)
      modifies this
      ensures forall k | 0 <= k < |jobs| :: fresh(jobs[k])
      ensures Issued(jobs, old(active), old(nextSerial))
      ensures var (ready, updates) := Gather(old(State()), arrived);
              var (done, committed) := Aggregate(env, ready, updates, Some(gid), reason);
              (State(), ValuesOf(jobs))
              == if committed then ReleaseBySpeed(env, done, ClientsOf(arrived), now) else (done, [])
    {
      hide Gather, Aggregate, ReleaseBySpeed, Values;
      jobs := [];
      var updates := GatherUpdates(arrived);
      var committed := AggregateUpdates(updates, Some(gid), reason);
      if committed {
        jobs := ReleaseFastestFirst(ClientsOf(arrived), now);
      }
    }

    // ----- arrivals -----

    method ReceiveLateUpdate(gid: nat, u: Update, now: real) returns (jobs: seq<Assignment>)
      modifies this
      ensures forall k | 0 <= k < |jobs| :: fresh(jobs[k])
      ensures Issued(jobs, old(active), old(nextSerial))
      ensures (State(), ValuesOf(jobs)) == ReceiveLate(env, old(State()), gid, u, now)
    {
      hide SupersedePrevious, SetStatus, Put, Release, Values;
      groups := Unpend(groups, gid, u.job.client);
      receipts := SetStatus(SupersedePrevious(receipts, buffer, u.job.client), u.dispatch, LateBuffer);
      buffer := Put(buffer, u);
      assert State() == StoreLate(old(State()), gid, u);
      jobs := ReleaseAll([u.job.client], now);
    }

    method ReceiveGroupUpdate(gid: nat, u: Update, now: real) returns (jobs: seq<Assignment>)
      requires gid in groups
      modifies this
      ensures forall k | 0 <= k < |jobs| :: fresh(jobs[k])
      ensures Issued(jobs, old(active), old(nextSerial))
      ensures (State(), ValuesOf(jobs)) == ReceiveInGroup(env, old(State()), gid, u, now)
    {
      hide SetStatus, Close, Values;
      var g := groups[gid];
      raised := raised || u.job.client !in g.pending;
      groups := groups[gid := g.(pending := g.pending - {u.job.client}, arrived := g.arrived + [u])];
      receipts := SetStatus(receipts, u.dispatch, WaitingForGroup);
      assert State() == Arrive(old(State()), gid, u);
      jobs := [];
      if groups[gid].pending == {} {
        jobs := CloseGroup(gid, now, GroupComplete);
      }
    }

    method ReceiveInitialUpdate(u: Update, now: real) returns (jobs: seq<Assignment>)
      modifies this
      ensures forall k | 0 <= k < |jobs| :: fresh(jobs[k])
      ensures Issued(jobs, old(active), old(nextSerial))
      ensures (State(), ValuesOf(jobs)) == ReceiveInitial(env, old(State()), u, now)
    {
      hide Aggregate, Release, Values;
      jobs := [];
      var committed := AggregateUpdates([u], None, InitialArrival);
      if committed {
        jobs := ReleaseAll([u.job.client], now);
      }
    }

    /** Takes the update if `job` is the client's outstanding assignment object itself, not merely an equal one. */
    method Receive(
        job: Assignment, dispatch: nat, base: Model, trained: Model,
        now: real) returns (accepted: bool, jobs: seq<Assignment>)
      modifies this
      ensures accepted == (old(job.client in active && active[job.client] == job && job.started <= now)
                           && SameShape(base, old(model)) && SameShape(trained, old(model)))
      ensures !accepted ==> State() == old(State()) && active == old(active) && jobs == []
      ensures accepted ==>
                Accepted(State(), ValuesOf(jobs))
                      == Compass.Receive(env, old(State()), Update(old(job.Value()), dispatch, base, trained), now)
      ensures forall k | 0 <= k < |jobs| :: fresh(jobs[k])
      ensures Issued(jobs, old(active), old(nextSerial))
    {
      hide ReceiveInitial, ReceiveLate, ReceiveInGroup, LearnSpeed;
      jobs := [];
      accepted := job.client in active && active[job.client] == job && job.started <= now
        && SameShape(base, model) && SameShape(trained, model);
      if !accepted {
        return;
      }
      ghost var was := active;
      var u := Update(job.Value(), dispatch, base, trained);
      assert Expected(State(), u, now);
      active := active - {job.client};
      speeds := LearnSpeed(env.cfg, speeds, u.job, now);
      assert Values(active) == old(Values(active)) - {job.client};
      assert State() == Retire(env.cfg, old(State()), u.job, now);
      if job.group.None? {
        jobs := ReceiveInitialUpdate(u, now);
      } else if job.group.value !in groups || groups[job.group.value].closed || now > groups[job.group.value].deadline {
        jobs := ReceiveLateUpdate(job.group.value, u, now);
      } else {
        jobs := ReceiveGroupUpdate(job.group.value, u, now);
      }
    }

    // ----- group deadlines -----

    method VisitGroup(gid: nat, now: real) returns (jobs: seq<Assignment>)
      requires gid in groups
      modifies this
      ensures forall k | 0 <= k < |jobs| :: fresh(jobs[k])
      ensures Issued(jobs, old(active), old(nextSerial))
      ensures (State(), ValuesOf(jobs)) == Visit(env, old(State()), now, gid)
    {
      hide Close, Values;
      jobs := [];
      if !groups[gid].closed && now >= groups[gid].deadline {
        jobs := CloseGroup(gid, now, GroupDeadline);
      }
      if gid in groups && groups[gid].closed && groups[gid].pending == {} {
        groups := groups - {gid};
      }
    }

    /** Checks the clock and the version, then visits the group; `stop` ends the sweep. */
    method ExpireGroup(gid: nat, now: real) returns (jobs: seq<Assignment>, stop: bool)
      modifies this
      ensures forall k | 0 <= k < |jobs| :: fresh(jobs[k])
      ensures Issued(jobs, old(active), old(nextSerial))
      ensures Sweep(State(), ValuesOf(jobs), stop) == ExpireOne(env, old(State()), now, gid)
    {
      hide Visit, Values;
      jobs, stop := [], false;
      if env.budget.Some? {
        var at := Clock();
        if at >= env.budget.value {
          stop := true;
          return;
        }
      }
      if AtLimit(env.limit, version) {
        stop := true;
      } else if gid !in groups {
        raised := true;
      } else {
        jobs := VisitGroup(gid, now);
      }
    }

    /** Visits the groups that exist now, in the order they were opened. */
    method Expire(now: real) returns (jobs: seq<Assignment>, stop: bool)
      modifies this
      ensures forall k | 0 <= k < |jobs| :: fresh(jobs[k])
      ensures Issued(jobs, old(active), old(nextSerial))
      ensures Sweep(State(), ValuesOf(jobs), stop) == Compass.Expire(env, old(State()), now)
    {
      hide ExpireOne, Values;
      jobs, stop := [], false;
      var known, n := groups.Keys, nextGroup;
      for gid := 0 to n
        invariant forall k | 0 <= k < |jobs| :: fresh(jobs[k])
        invariant Issued(jobs, old(active), old(nextSerial))
        invariant !stop && Sweep(State(), ValuesOf(jobs), stop) == ExpireBelow(env, old(State()), now, known, gid)
      {
        if gid in known {
          ghost var before := ValuesOf(jobs);
          var more;
          more, stop := ExpireGroup(gid, now);
          jobs := jobs + more;
          assert ValuesOf(jobs) == before + ValuesOf(more);
          if stop {
            StoppedStays(env, old(State()), now, known, gid + 1, n);
            return;
          }
        }
      }
    }

    method NextDeadline() returns (next: Option<real>)
      ensures next == Compass.NextDeadline(State())
    {
      next := None;
      for gid := 0 to nextGroup
        invariant next == NextDeadlineBelow(groups, gid)
      {
        if gid in groups && !groups[gid].closed && (next.None? || groups[gid].deadline < next.value) {
          next := Some(groups[gid].deadline);
        }
      }
    }

    // ----- start and stop -----

    method StartClient(c: ClientId, now: real) returns (job: Assignment)
      modifies this`active, this`nextSerial
      ensures fresh(job) && job.Value() == Job(old(nextSerial), c, env.cfg.high, 0, None, now)
      ensures active == old(active)[c := job] && nextSerial == old(nextSerial) + 1
      ensures Values(active) == old(Values(active))[c := job.Value()]
    {
      job := new Assignment(nextSerial, c, env.cfg.high, 0, None, now);
      active := active[c := job];
      nextSerial := nextSerial + 1;
    }

    /** The first assignment of every client, with the most steps and no group. */
    method Initialize(now: real) returns (accepted: bool, jobs: seq<Assignment>)
      modifies this
      ensures accepted == (old(active) == map[] && old(version) == 0)
      ensures !accepted ==> State() == old(State()) && active == old(active) && jobs == []
      ensures accepted ==> Accepted(State(), ValuesOf(jobs)) == Compass.Initialize(env, old(State()), now)
      ensures forall k | 0 <= k < |jobs| :: fresh(jobs[k])
      ensures Issued(jobs, old(active), old(nextSerial))
    {
      accepted, jobs := active == map[] && version == 0, [];
      if !accepted {
        return;
      }
      hide Values;
      for k := 0 to |env.order|
        invariant forall i | 0 <= i < |jobs| :: fresh(jobs[i])
        invariant Issued(jobs, old(active), old(nextSerial))
        invariant (FleetState(), ValuesOf(jobs)) == StartAll(env.cfg, old(FleetState()), env.order[..k], now)
        invariant State() == old(State()).(fleet := FleetState())
      {
        assert DropLast(env.order[..k + 1]) == env.order[..k];
        ghost var before := ValuesOf(jobs);
        var job := StartClient(env.order[k], now);
        jobs := jobs + [job];
        assert ValuesOf(jobs) == before + [job.Value()];
      }
      assert env.order[..|env.order|] == env.order;
    }

    /** Gives up on what was not aggregated and forgets every group and assignment. */
    method Stop()
      modifies this
      ensures State() == Compass.Stop(old(State())) && active == map[] && nextSerial == old(nextSerial)
    {
      hide MarkAll;
      Mark(buffer, UnaggregatedAtStop);
      for gid := 0 to nextGroup
        invariant receipts == MarkGroups(MarkAll(old(receipts), buffer, UnaggregatedAtStop), groups, gid)
        invariant State() == old(State()).(receipts := receipts) && active == old(active)
      {
        if gid in groups {
          Mark(groups[gid].arrived, UnaggregatedAtStop);
        }
      }
      buffer, groups, active := [], map[], map[];
      assert Values(active) == map[];
    }
  }

  /** A sweep that stopped early visits nothing more. */
  lemma StoppedStays(env: Env, s: Controller, now: real, known: set<nat>, m: nat, n: nat)
    requires m <= n && ExpireBelow(env, s, now, known, m).stopped
    ensures ExpireBelow(env, s, now, known, n) == ExpireBelow(env, s, now, known, m)
  {
    hide ExpireOne;
    if m < n {
      StoppedStays(env, s, now, known, m, n - 1);
    }
  }
}
