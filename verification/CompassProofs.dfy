/** Every controller operation keeps the whole controller invariant and loses no client. */
module CompassProofs {
  import opened Common
  import opened Scheduling
  import opened Compass
  import opened FleetProofs
  import opened BooksProofs

  /** The controller invariant at time `now`, while an operation holds the updates `loose`. */
  ghost predicate ControllerOk(env: Env, s: Controller, now: real, loose: seq<Update>) {
    FleetOk(env.cfg, Ids(env), s.fleet, now) && Books(env, s, loose)
  }

  /** Some clock reading already taken showed the budget spent. */
  ghost predicate Overdue(env: Env, s: Controller) {
    s.ticks > 0 && Late(env, env.tick(s.ticks - 1))
  }

  lemma OverdueStays(env: Env, s: Controller, s': Controller)
    requires ValidEnv(env) && Overdue(env, s) && s.ticks <= s'.ticks
    ensures Overdue(env, s')
  {
    assert env.tick(s.ticks - 1) <= env.tick(s'.ticks - 1);
  }

  /** Committed models and receipts are only ever added to, and the clock only advances. */
  ghost predicate Grows(s: Controller, s': Controller) {
    && s.version <= s'.version && s.history <= s'.history && s.ticks <= s'.ticks
    && SameRows(s.receipts, s'.receipts)
  }

  /** Every client is placed, unless the budget was found spent. */
  ghost predicate CompleteOrOverdue(env: Env, s: Controller) {
    Complete(Ids(env), s.fleet) || Overdue(env, s)
  }

  // ----- handing out jobs -----

  lemma ReleaseKeeps(env: Env, s: Controller, cs: seq<ClientId>, now: real)
    requires ValidEnv(env) && ControllerOk(env, s, now, [])
    requires Distinct(cs) && AllIdle(s.fleet, cs)
    requires forall c | c in cs :: c in Ids(env) && c in s.fleet.speeds
    ensures var (s', jobs) := Release(env, s, cs, now);
            && ControllerOk(env, s', now, []) && s' == s.(fleet := s'.fleet)
            && Served(env.cfg, Ids(env), s.fleet, s'.fleet, s.version, cs, jobs, now)
  {
    var (s', jobs) := Release(env, s, cs, now);
    AssignAllKeeps(env.cfg, env.order, Ids(env), s.fleet, s.version, cs, now);
    hide FleetOk;
    ExtendsSameArrivals(s.fleet, s'.fleet, now);
    hide AssignAll, Extends, Hands;
    SameBooksKeep(env, s, s', []);
  }

  /** When exactly the missing clients are served, every client has a place again. */
  lemma ServedComplete(
      cfg: Config, ids: set<ClientId>, f: Fleet, f': Fleet, version: nat, cs: seq<ClientId>, jobs: seq<Job>,
      now: real)
    requires Served(cfg, ids, f, f', version, cs, jobs, now)
    requires forall c | c in ids :: c in cs || c in f.active || Waiting(f, c)
    ensures Complete(ids, f')
  {
    forall c | c in ids ensures c in f'.active || Waiting(f', c) {
      if c in cs {
        var k :| 0 <= k < |cs| && cs[k] == c;
        assert jobs[k].client == c;
      } else if c !in f.active {
        var g :| g in f.groups && !f.groups[g].closed && c in Clients(f.groups[g].arrived);
        assert f'.groups[g].arrived == f.groups[g].arrived;
      }
    }
  }

  // ----- closing a group -----

  lemma CloseAggregates(env: Env, s: Controller, gid: nat, now: real, reason: Reason)
    requires ValidEnv(env) && FleetFits(env.cfg, Ids(env), s.fleet) && Alive(s.fleet, now, Some(gid))
    requires Books(env, s, [])
    requires gid in s.fleet.groups
    ensures var shut := Shut(s, gid, now, reason);
            var (ready, updates) := Gather(shut, s.fleet.groups[gid].arrived);
            var (done, committed) := Aggregate(env, ready, updates, Some(gid), reason);
            && ControllerOk(env, done, now, []) && done.fleet == shut.fleet && Grows(s, done)
            && done.ticks == s.ticks + 1 && committed == !Late(env, env.tick(s.ticks))
            && done.version <= s.version + 1
  {
    var arrived := s.fleet.groups[gid].arrived;
    ShutKeeps(env, s, gid, now, reason);
    assert OneEach(arrived) by {
      assert GroupOk(Ids(env), s.fleet, gid, s.fleet.groups[gid]);
    }
    ShutKeepsBooks(env, s, gid, now, reason);
    hide FleetFits, Alive, Books, FleetOk;
    var shut := Shut(s, gid, now, reason);
    GatherKeepsBooks(env, shut, arrived);
    var (ready, updates) := Gather(shut, arrived);
    AggregateKeepsBooks(env, ready, updates, Some(gid), reason);
    hide Gather, Aggregate;
  }

  lemma ShutKeepsOthers(s: Controller, gid: nat, now: real, reason: Reason, c: ClientId)
    requires gid in s.fleet.groups && Waiting(s.fleet, c) && c !in Clients(s.fleet.groups[gid].arrived)
    ensures Waiting(Shut(s, gid, now, reason).fleet, c)
  {
    var g :| g in s.fleet.groups && !s.fleet.groups[g].closed && c in Clients(s.fleet.groups[g].arrived);
    assert g != gid;
    assert Shut(s, gid, now, reason).fleet.groups[g] == s.fleet.groups[g];
  }

  lemma ShutIdle(env: Env, s: Controller, gid: nat, now: real, reason: Reason)
    requires FleetFits(env.cfg, Ids(env), s.fleet) && Alive(s.fleet, now, Some(gid)) && gid in s.fleet.groups
    ensures var f := Shut(s, gid, now, reason).fleet;
            var cs := BySpeed(f.speeds, ClientsOf(s.fleet.groups[gid].arrived));
            && Distinct(cs) && AllIdle(f, cs)
            && (forall c :: c in cs <==> c in Clients(s.fleet.groups[gid].arrived))
            && (forall c | c in cs :: c in Ids(env) && c in f.speeds)
  {
    ShutKeeps(env, s, gid, now, reason);
    hide FleetFits, Alive, FleetOk, Idle;
    var f := Shut(s, gid, now, reason).fleet;
    var arrived := s.fleet.groups[gid].arrived;
    BySpeedServes(f.speeds, arrived);
    var cs := BySpeed(f.speeds, ClientsOf(arrived));
    forall k | 0 <= k < |cs| ensures Idle(f, cs[k]) && cs[k] in Ids(env) && cs[k] in f.speeds {
      assert cs[k] in cs;
      var u :| u in arrived && u.job.client == cs[k];
    }
  }

  function ShutGroup(f: Fleet, gid: nat): Fleet
    requires gid in f.groups
  {
    f.(groups := f.groups[gid := f.groups[gid].(closed := true, arrived := [])])
  }

  /** What closing group `gid` does: it is emptied, the other groups only gain members. */
  ghost predicate CloseResult(env: Env, s: Controller, s': Controller, jobs: seq<Job>, gid: nat, now: real) {
    && ControllerOk(env, s', now, []) && Grows(s, s')
    && s'.version <= s.version + 1
    && Hands(s.fleet.active, s'.fleet.active, jobs)
    && (forall k | 0 <= k < |jobs| :: jobs[k].version == s'.version && jobs[k].started == now)
    && gid in s.fleet.groups && Extends(ShutGroup(s.fleet, gid), s'.fleet, now)
    && (Complete(Ids(env), s.fleet) ==> CompleteOrOverdue(env, s'))
  }

  lemma CloseResultFrom(
      env: Env, s: Controller, done: Controller, s': Controller, cs: seq<ClientId>, jobs: seq<Job>, gid: nat,
      now: real)
    requires gid in s.fleet.groups && done.fleet == ShutGroup(s.fleet, gid)
    requires Grows(s, done) && done.version <= s.version + 1
    requires ControllerOk(env, s', now, []) && s' == done.(fleet := s'.fleet)
    requires Served(env.cfg, Ids(env), done.fleet, s'.fleet, done.version, cs, jobs, now)
    requires Complete(Ids(env), s.fleet) ==> Complete(Ids(env), s'.fleet)
    ensures CloseResult(env, s, s', jobs, gid, now)
  {
    hide ControllerOk, FleetOk, Hands, Extends, Complete;
  }

  /** Every client that waited in the group has a speed, so sorting by speed does not throw. */
  lemma ArrivedMeasured(env: Env, s: Controller, gid: nat, now: real, reason: Reason)
    requires FleetFits(env.cfg, Ids(env), s.fleet) && gid in s.fleet.groups
    ensures var cs := ClientsOf(s.fleet.groups[gid].arrived);
            forall k | 0 <= k < |cs| :: cs[k] in Shut(s, gid, now, reason).fleet.speeds
  {
    var us := s.fleet.groups[gid].arrived;
    assert GroupOk(Ids(env), s.fleet, gid, s.fleet.groups[gid]);
    assert forall k | 0 <= k < |us| :: us[k] in us;
  }

  lemma ReleaseClosed(env: Env, s: Controller, done: Controller, gid: nat, now: real, reason: Reason)
    requires ValidEnv(env) && FleetFits(env.cfg, Ids(env), s.fleet) && Alive(s.fleet, now, Some(gid))
    requires gid in s.fleet.groups
    requires ControllerOk(env, done, now, []) && done.fleet == Shut(s, gid, now, reason).fleet
    requires Grows(s, done) && done.version <= s.version + 1
    ensures var (s', jobs) := ReleaseBySpeed(env, done, ClientsOf(s.fleet.groups[gid].arrived), now);
            CloseResult(env, s, s', jobs, gid, now)
  {
    ArrivedMeasured(env, s, gid, now, reason);
    assert ReleaseBySpeed(env, done, ClientsOf(s.fleet.groups[gid].arrived), now)
           == Release(env, done, BySpeed(done.fleet.speeds, ClientsOf(s.fleet.groups[gid].arrived)), now);
    hide ReleaseBySpeed, BySpeed;
    ReleasedClosed(env, s, done, gid, now, reason);
  }

  lemma ReleasedClosed(env: Env, s: Controller, done: Controller, gid: nat, now: real, reason: Reason)
    requires ValidEnv(env) && FleetFits(env.cfg, Ids(env), s.fleet) && Alive(s.fleet, now, Some(gid))
    requires gid in s.fleet.groups
    requires ControllerOk(env, done, now, []) && done.fleet == Shut(s, gid, now, reason).fleet
    requires Grows(s, done) && done.version <= s.version + 1
    ensures var cs := BySpeed(done.fleet.speeds, ClientsOf(s.fleet.groups[gid].arrived));
            var (s', jobs) := Release(env, done, cs, now);
            CloseResult(env, s, s', jobs, gid, now)
  {
    hide FleetFits, Alive, ControllerOk, Release, AllIdle, FleetOk, Hands, Extends, Grows, Complete, Served;
    var arrived := s.fleet.groups[gid].arrived;
    var cs := BySpeed(done.fleet.speeds, ClientsOf(arrived));
    ShutIdle(env, s, gid, now, reason);
    ReleaseKeeps(env, done, cs, now);
    var (s', jobs) := Release(env, done, cs, now);
    hide BySpeed;
    if Complete(Ids(env), s.fleet) {
      StillPlaced(env, s, done, cs, gid, now, reason);
      ServedComplete(env.cfg, Ids(env), done.fleet, s'.fleet, done.version, cs, jobs, now);
    }
    CloseResultFrom(env, s, done, s', cs, jobs, gid, now);
  }

  /** Whoever is not served after closing a group still has a job or waits elsewhere. */
  lemma StillPlaced(env: Env, s: Controller, done: Controller, cs: seq<ClientId>, gid: nat, now: real, reason: Reason)
    requires gid in s.fleet.groups && Complete(Ids(env), s.fleet) && done.fleet == Shut(s, gid, now, reason).fleet
    requires forall c :: c in cs <==> c in Clients(s.fleet.groups[gid].arrived)
    ensures forall c | c in Ids(env) :: c in cs || c in done.fleet.active || Waiting(done.fleet, c)
  {
    forall c | c in Ids(env) ensures c in cs || c in done.fleet.active || Waiting(done.fleet, c) {
      if c !in cs && c !in s.fleet.active {
        ShutKeepsOthers(s, gid, now, reason, c);
      }
    }
  }

  lemma ShutEmptyKeeps(env: Env, s: Controller, gid: nat, now: real, reason: Reason)
    requires FleetFits(env.cfg, Ids(env), s.fleet) && Alive(s.fleet, now, Some(gid)) && Books(env, s, [])
    requires gid in s.fleet.groups && s.fleet.groups[gid].arrived == []
    ensures CloseResult(env, s, Shut(s, gid, now, reason), [], gid, now)
  {
    ShutKeeps(env, s, gid, now, reason);
    ShutKeepsBooks(env, s, gid, now, reason);
    hide FleetFits, Alive, Books, FleetOk;
    HandsNothing(s.fleet.active);
    if Complete(Ids(env), s.fleet) {
      forall c | c in Ids(env) && c !in s.fleet.active ensures Waiting(Shut(s, gid, now, reason).fleet, c) {
        ShutKeepsOthers(s, gid, now, reason, c);
      }
    }
  }

  lemma DiscardedClose(env: Env, s: Controller, done: Controller, gid: nat, now: real)
    requires gid in s.fleet.groups && ControllerOk(env, done, now, []) && done.fleet == ShutGroup(s.fleet, gid)
    requires Grows(s, done) && done.version <= s.version + 1 && Overdue(env, done)
    ensures CloseResult(env, s, done, [], gid, now)
  {
    hide ControllerOk;
    HandsNothing(s.fleet.active);
  }

  /** Closing a group keeps the invariant and gives every client that waited in it a new job. */
  lemma CloseKeeps(env: Env, s: Controller, gid: nat, now: real, reason: Reason)
    requires ValidEnv(env) && FleetFits(env.cfg, Ids(env), s.fleet) && Alive(s.fleet, now, Some(gid))
    requires Books(env, s, [])
    requires gid in s.fleet.groups
    ensures var (s', jobs) := Close(env, s, gid, now, reason);
            CloseResult(env, s, s', jobs, gid, now)
  {
    var arrived := s.fleet.groups[gid].arrived;
    if arrived == [] {
      ShutEmptyKeeps(env, s, gid, now, reason);
    } else {
      CloseAggregates(env, s, gid, now, reason);
      hide FleetFits, Alive, Books, ControllerOk, Grows, CloseResult, Gather, Aggregate, ReleaseBySpeed;
      var (ready, updates) := Gather(Shut(s, gid, now, reason), arrived);
      var (done, committed) := Aggregate(env, ready, updates, Some(gid), reason);
      if committed {
        ReleaseClosed(env, s, done, gid, now, reason);
      } else {
        DiscardedClose(env, s, done, gid, now);
      }
    }
  }

  // ----- receiving an update -----

  ghost predicate ReceiveResult(env: Env, s: Controller, s': Controller, jobs: seq<Job>, c: ClientId, now: real) {
    && ControllerOk(env, s', now, []) && Grows(s, s')
    && s'.version <= s.version + 1
    && Hands(s.fleet.active - {c}, s'.fleet.active, jobs)
    && (forall k | 0 <= k < |jobs| :: jobs[k].version == s'.version && jobs[k].started == now)
    && (Complete(Ids(env), s.fleet) ==> CompleteOrOverdue(env, s'))
  }

  /** All but `c` are placed. */
  ghost predicate CompleteBut(ids: set<ClientId>, f: Fleet, c: ClientId) {
    forall d | d in ids && d != c :: d in f.active || Waiting(f, d)
  }

  lemma ServeOne(env: Env, s: Controller, s1: Controller, c: ClientId, now: real)
    requires ValidEnv(env) && ControllerOk(env, s1, now, []) && Grows(s, s1) && s1.version <= s.version + 1
    requires Idle(s1.fleet, c) && c in Ids(env) && c in s1.fleet.speeds
    requires s1.fleet.active == s.fleet.active - {c}
    requires Complete(Ids(env), s.fleet) ==> CompleteBut(Ids(env), s1.fleet, c)
    ensures var (s', jobs) := Release(env, s1, [c], now);
            ReceiveResult(env, s, s', jobs, c, now)
  {
    hide ControllerOk, Idle, Hands, Extends, FleetOk;
    ReleaseKeeps(env, s1, [c], now);
    var (s', jobs) := Release(env, s1, [c], now);
    hide Release;
    if Complete(Ids(env), s.fleet) {
      ServedComplete(env.cfg, Ids(env), s1.fleet, s'.fleet, s1.version, [c], jobs, now);
    }
    hide Complete;
  }

  lemma RetireCompletes(env: Env, s: Controller, f1: Fleet, c: ClientId)
    requires Complete(Ids(env), s.fleet) && f1.active == s.fleet.active - {c}
    requires forall g | g in s.fleet.groups :: g in f1.groups && f1.groups[g].closed == s.fleet.groups[g].closed
                                              && f1.groups[g].arrived == s.fleet.groups[g].arrived
    ensures CompleteBut(Ids(env), f1, c)
  {
    forall d | d in Ids(env) && d != c && d !in f1.active ensures Waiting(f1, d) {
      var g :| g in s.fleet.groups && !s.fleet.groups[g].closed && d in Clients(s.fleet.groups[g].arrived);
      assert d in Clients(f1.groups[g].arrived);
    }
  }

  lemma SameArrivalsRefl(gs: map<nat, Group>)
    ensures SameArrivals(gs, gs)
  {
  }

  lemma ReceiveInitialKeeps(env: Env, s: Controller, u: Update, now: real)
    requires ValidEnv(env) && FleetOk(env.cfg, Ids(env), s.fleet, now) && Books(env, s, [u])
    requires Genuine(s.fleet, u.job) && u.job.group.None?
    ensures var (s', jobs) := ReceiveInitial(env, Retire(env.cfg, s, u.job, now), u, now);
            ReceiveResult(env, s, s', jobs, u.job.client, now)
  {
    var c := u.job.client;
    var s1 := Retire(env.cfg, s, u.job, now);
    RetireInitialKeeps(env, s, u.job, now);
    SameArrivalsRefl(s.fleet.groups);
    hide FleetOk, SameArrivals, LearnSpeed;
    SameBooksKeep(env, s, s1, [u]);
    AggregateKeepsBooks(env, s1, [u], None, InitialArrival);
    hide Books, Aggregate, Idle;
    var (done, committed) := Aggregate(env, s1, [u], None, InitialArrival);
    if committed {
      if Complete(Ids(env), s.fleet) {
        RetireCompletes(env, s, done.fleet, c);
      }
      hide Complete, CompleteBut;
      ServeOne(env, s, done, c, now);
    } else {
      hide Complete;
      HandsNothing(done.fleet.active);
    }
  }

  lemma ReceiveLateKeeps(env: Env, s: Controller, u: Update, gid: nat, now: real)
    requires ValidEnv(env) && FleetOk(env.cfg, Ids(env), s.fleet, now) && Books(env, s, [u])
    requires Genuine(s.fleet, u.job) && u.job.group == Some(gid) && MissedGroup(s.fleet, gid, now)
    ensures var (s', jobs) := ReceiveLate(env, Retire(env.cfg, s, u.job, now), gid, u, now);
            ReceiveResult(env, s, s', jobs, u.job.client, now)
  {
    var c := u.job.client;
    var s1 := Retire(env.cfg, s, u.job, now);
    RetireLateKeeps(env, s, u, gid, now);
    SameArrivalsRefl(s.fleet.groups);
    hide FleetOk, LearnSpeed;
    SameBooksKeep(env, s, s1, [u]);
    StoreLateKeepsBooks(env, s1, gid, u);
    StoreLateGrows(env, s, s1, gid, u);
    hide Books, Idle, SameArrivals;
    var s2 := StoreLate(s1, gid, u);
    if Complete(Ids(env), s.fleet) {
      RetireCompletes(env, s, s2.fleet, c);
    }
    hide Complete, CompleteBut;
    assert s2.fleet.active == s.fleet.active - {c};
    hide StoreLate;
    ServeOne(env, s, s2, c, now);
  }

  lemma StoreLateGrows(env: Env, s: Controller, s1: Controller, gid: nat, u: Update)
    requires s1 == s.(fleet := s1.fleet)
    ensures Grows(s, StoreLate(s1, gid, u))
  {
    var previous := Find(s.buffer, u.job.client);
  }

  lemma ArriveCompletes(env: Env, s: Controller, s2: Controller, gid: nat, u: Update)
    requires Complete(Ids(env), s.fleet) && gid in s.fleet.groups && Waiting(s2.fleet, u.job.client)
    requires s2.fleet.active == s.fleet.active - {u.job.client}
    requires exists p :: s2.fleet.groups == s.fleet.groups[gid :=
          s.fleet.groups[gid].(pending := p, arrived := s.fleet.groups[gid].arrived + [u])]
    ensures Complete(Ids(env), s2.fleet)
  {
    forall d | d in Ids(env) && d != u.job.client && d !in s2.fleet.active ensures Waiting(s2.fleet, d) {
      var g :| g in s.fleet.groups && !s.fleet.groups[g].closed && d in Clients(s.fleet.groups[g].arrived);
      var v :| v in s.fleet.groups[g].arrived && v.job.client == d;
      assert v in s2.fleet.groups[g].arrived;
    }
  }

  ghost predicate Arrived(env: Env, s: Controller, s2: Controller, c: ClientId, gid: nat, now: real) {
    && FleetFits(env.cfg, Ids(env), s2.fleet) && Alive(s2.fleet, now, Some(gid)) && Books(env, s2, [])
    && gid in s2.fleet.groups
    && (s2.fleet.groups[gid].pending != {} ==> FleetOk(env.cfg, Ids(env), s2.fleet, now))
    && s2.fleet.active == s.fleet.active - {c}
    && Grows(s, s2) && s2.version == s.version
    && (Complete(Ids(env), s.fleet) ==> Complete(Ids(env), s2.fleet))
  }

  lemma ArrivedInGroup(env: Env, s: Controller, u: Update, gid: nat, now: real)
    requires ValidEnv(env) && FleetOk(env.cfg, Ids(env), s.fleet, now) && Books(env, s, [u])
    requires Genuine(s.fleet, u.job) && u.job.group == Some(gid) && !MissedGroup(s.fleet, gid, now)
    ensures Arrived(env, s, Arrive(Retire(env.cfg, s, u.job, now), gid, u), u.job.client, gid, now)
  {
    var s1 := Retire(env.cfg, s, u.job, now);
    var s2 := Arrive(s1, gid, u);
    ArriveKeeps(env, s, u, gid, now);
    RetireKeepsBooks(env, s, u, now);
    ArrivedGrows(env, s, u, gid, now);
    ArrivedComplete(env, s, u, gid, now);
    hide FleetOk, FleetFits, Alive, Books, Complete, Retire, Arrive, Grows;
    ArriveKeepsBooks(env, s1, gid, u);
  }

  lemma RetireKeepsBooks(env: Env, s: Controller, u: Update, now: real)
    requires Books(env, s, [u])
    ensures Books(env, Retire(env.cfg, s, u.job, now), [u])
    ensures Retire(env.cfg, s, u.job, now).fleet.groups == s.fleet.groups
  {
    SameArrivalsRefl(s.fleet.groups);
    hide LearnSpeed, SameArrivals;
    SameBooksKeep(env, s, Retire(env.cfg, s, u.job, now), [u]);
  }

  lemma ArrivedGrows(env: Env, s: Controller, u: Update, gid: nat, now: real)
    requires gid in s.fleet.groups && u.dispatch in s.receipts
    ensures var s2 := Arrive(Retire(env.cfg, s, u.job, now), gid, u);
            && gid in s2.fleet.groups && s2.fleet.active == s.fleet.active - {u.job.client}
            && Grows(s, s2) && s2.version == s.version
  {
    hide LearnSpeed;
  }

  lemma ArrivedComplete(env: Env, s: Controller, u: Update, gid: nat, now: real)
    requires Genuine(s.fleet, u.job) && u.job.group == Some(gid) && !MissedGroup(s.fleet, gid, now)
    requires Waiting(Arrive(Retire(env.cfg, s, u.job, now), gid, u).fleet, u.job.client)
    ensures var s2 := Arrive(Retire(env.cfg, s, u.job, now), gid, u);
            Complete(Ids(env), s.fleet) ==> Complete(Ids(env), s2.fleet)
  {
    var s2 := Arrive(Retire(env.cfg, s, u.job, now), gid, u);
    hide LearnSpeed;
    assert s2.fleet.groups == s.fleet.groups[gid := s.fleet.groups[gid].(
             pending := s.fleet.groups[gid].pending - {u.job.client}, arrived := s.fleet.groups[gid].arrived + [u])];
    hide Arrive, Complete;
    if Complete(Ids(env), s.fleet) {
      ArriveCompletes(env, s, s2, gid, u);
    }
  }

  lemma CloseAfterArrival(
      env: Env, s: Controller, s2: Controller, s': Controller, jobs: seq<Job>, c: ClientId, gid: nat, now: real)
    requires Arrived(env, s, s2, c, gid, now) && CloseResult(env, s2, s', jobs, gid, now)
    ensures ReceiveResult(env, s, s', jobs, c, now)
  {
    hide ControllerOk, FleetFits, FleetOk, Alive, Books, Hands, Extends, Complete;
  }

  lemma WaitAfterArrival(env: Env, s: Controller, s2: Controller, c: ClientId, gid: nat, now: real)
    requires Arrived(env, s, s2, c, gid, now) && s2.fleet.groups[gid].pending != {}
    ensures ReceiveResult(env, s, s2, [], c, now)
  {
    hide FleetFits, FleetOk, Alive, Books, Complete;
    HandsNothing(s2.fleet.active);
  }

  lemma ReceiveInGroupKeeps(env: Env, s: Controller, u: Update, gid: nat, now: real)
    requires ValidEnv(env) && FleetOk(env.cfg, Ids(env), s.fleet, now) && Books(env, s, [u])
    requires Genuine(s.fleet, u.job) && u.job.group == Some(gid) && !MissedGroup(s.fleet, gid, now)
    ensures var (s', jobs) := ReceiveInGroup(env, Retire(env.cfg, s, u.job, now), gid, u, now);
            ReceiveResult(env, s, s', jobs, u.job.client, now)
  {
    ArrivedInGroup(env, s, u, gid, now);
    var s2 := Arrive(Retire(env.cfg, s, u.job, now), gid, u);
    if s2.fleet.groups[gid].pending == {} {
      CloseKeeps(env, s2, gid, now, GroupComplete);
      var (s', jobs) := Close(env, s2, gid, now, GroupComplete);
      hide CloseResult, Arrived, Close, Arrive, ReceiveResult;
      CloseAfterArrival(env, s, s2, s', jobs, u.job.client, gid, now);
    } else {
      hide Arrived;
      WaitAfterArrival(env, s, s2, u.job.client, gid, now);
    }
  }

  /** An update that answers its client's assignment is accepted, keeps the invariant, and its client
      is placed again: with a new job or waiting in an open group. */
  lemma ReceiveKeeps(env: Env, s: Controller, u: Update, now: real)
    requires ValidEnv(env) && FleetOk(env.cfg, Ids(env), s.fleet, now) && Books(env, s, [u])
    requires Genuine(s.fleet, u.job) && u.job.started <= now && SameShape(u.base, s.model)
    requires SameShape(u.trained, s.model)
    ensures Receive(env, s, u, now).Accepted?
    ensures ReceiveResult(env, s, Receive(env, s, u, now).state, Receive(env, s, u, now).jobs, u.job.client, now)
  {
    hide ReceiveResult, ReceiveInitial, ReceiveLate, ReceiveInGroup, FleetOk, Books, LearnSpeed, SameShape;
    match u.job.group
    case None =>
      ReceiveInitialKeeps(env, s, u, now);
    case Some(gid) =>
      if MissedGroup(s.fleet, gid, now) {
        ReceiveLateKeeps(env, s, u, gid, now);
      } else {
        ReceiveInGroupKeeps(env, s, u, gid, now);
      }
  }
}
