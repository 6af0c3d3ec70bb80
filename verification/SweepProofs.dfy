/** Expiring overdue groups: one group, then the whole sweep. */
module SweepProofs {
  import opened Common
  import opened Scheduling
  import opened Compass
  import opened FleetProofs
  import opened BooksProofs
  import opened CompassProofs

  /** A group worth keeping at `now`: open with time left, or closed but still expecting someone. */
  ghost predicate Kept(g: Group, now: real) {
    if g.closed then g.pending != {} else now < g.deadline
  }

  /** Other groups than `gid` only gain members; groups opened at `now` have time left. */
  ghost predicate OthersKept(f: Fleet, f': Fleet, gid: nat, now: real) {
    && f.nextGroup <= f'.nextGroup
    && (forall g | g in f.groups && g != gid ::
          && g in f'.groups
          && f'.groups[g] == f.groups[g].(pending := f'.groups[g].pending)
          && f.groups[g].pending <= f'.groups[g].pending)
    && (forall g | g in f'.groups && g !in f.groups :: f.nextGroup <= g && Kept(f'.groups[g], now))
  }

  ghost predicate SweepResult(env: Env, s: Controller, r: Sweep, now: real) {
    && ControllerOk(env, r.state, now, []) && Grows(s, r.state)
    && Hands(s.fleet.active, r.state.fleet.active, r.jobs)
    && (forall k | 0 <= k < |r.jobs| :: r.jobs[k].version <= r.state.version && r.jobs[k].started == now)
    && (Complete(Ids(env), s.fleet) ==> CompleteOrOverdue(env, r.state))
    && (r.stopped ==> Overdue(env, r.state) || AtLimit(env.limit, r.state.version))
    && (env.limit.Some? && s.version <= env.limit.value ==> r.state.version <= env.limit.value)
  }

  ghost predicate OneResult(env: Env, s: Controller, r: Sweep, gid: nat, now: real) {
    && SweepResult(env, s, r, now)
    && OthersKept(s.fleet, r.state.fleet, gid, now)
    && (r.stopped ==> gid in r.state.fleet.groups)
    && (!r.stopped && gid in r.state.fleet.groups ==> Kept(r.state.fleet.groups[gid], now))
  }

  lemma PruneKeeps(env: Env, s: Controller, gid: nat, now: real)
    requires ControllerOk(env, s, now, [])
    ensures ControllerOk(env, Prune(s, gid), now, [])
    ensures Complete(Ids(env), s.fleet) ==> Complete(Ids(env), Prune(s, gid).fleet)
  {
    var s' := Prune(s, gid);
    if s' != s {
      assert GroupOk(Ids(env), s.fleet, gid, s.fleet.groups[gid]);
      assert s.fleet.groups[gid].arrived == [];
      PruneFleet(env, s, gid, now);
      PruneComplete(env, s, gid);
      hide FleetOk, Complete;
      SameBooksKeep(env, s, s', []);
      hide Books;
    }
  }

  lemma PruneFleet(env: Env, s: Controller, gid: nat, now: real)
    requires FleetOk(env.cfg, Ids(env), s.fleet, now) && Prune(s, gid) != s
    ensures FleetOk(env.cfg, Ids(env), Prune(s, gid).fleet, now)
  {
    var f' := Prune(s, gid).fleet;
    forall g | g in f'.groups ensures GroupOk(Ids(env), f', g, f'.groups[g]) {
      assert GroupOk(Ids(env), s.fleet, g, s.fleet.groups[g]);
    }
  }

  lemma PruneComplete(env: Env, s: Controller, gid: nat)
    requires Prune(s, gid) != s
    ensures Complete(Ids(env), s.fleet) ==> Complete(Ids(env), Prune(s, gid).fleet)
  {
    var f' := Prune(s, gid).fleet;
    forall c | Waiting(s.fleet, c) ensures Waiting(f', c) {
      var g :| g in s.fleet.groups && !s.fleet.groups[g].closed && c in Clients(s.fleet.groups[g].arrived);
      assert f'.groups[g] == s.fleet.groups[g];
    }
  }

  lemma LaterClock(env: Env, s: Controller, loose: seq<Update>, now: real)
    requires ControllerOk(env, s, now, loose)
    ensures ControllerOk(env, s.(ticks := s.ticks + 1), now, loose)
  {
    var s' := s.(ticks := s.ticks + 1);
    SameArrivalsRefl(s.fleet.groups);
    hide FleetOk;
    SameBooksKeep(env, s, s', loose);
    hide Books;
  }

  lemma NoMove(env: Env, s: Controller, r: Sweep, now: real)
    requires ControllerOk(env, s, now, []) && ValidEnv(env)
    requires r.state == s || r.state == s.(ticks := s.ticks + 1)
    requires r.jobs == []
    requires r.stopped ==> Overdue(env, r.state) || AtLimit(env.limit, r.state.version)
    ensures SweepResult(env, s, r, now)
  {
    LaterClock(env, s, [], now);
    HandsNothing(s.fleet.active);
    hide ControllerOk, Complete;
  }

  lemma StopHere(env: Env, s: Controller, r: Sweep, gid: nat, now: real)
    requires SweepResult(env, s, r, now) && r.state.fleet == s.fleet && gid in s.fleet.groups
    requires !r.stopped ==> Kept(s.fleet.groups[gid], now)
    ensures OneResult(env, s, r, gid, now)
  {
    hide SweepResult;
  }

  lemma PruneOnly(env: Env, s: Controller, gid: nat, now: real)
    requires FleetFits(env.cfg, Ids(env), s.fleet) && gid in s.fleet.groups
    requires s.fleet.groups[gid].closed || now < s.fleet.groups[gid].deadline
    ensures OthersKept(s.fleet, Prune(s, gid).fleet, gid, now)
    ensures gid in Prune(s, gid).fleet.groups ==> Kept(Prune(s, gid).fleet.groups[gid], now)
  {
  }

  lemma SkipGroup(env: Env, s: Controller, gid: nat, now: real)
    requires ValidEnv(env) && ControllerOk(env, s, now, []) && gid in s.fleet.groups
    requires s.fleet.groups[gid].closed || now < s.fleet.groups[gid].deadline
    ensures OneResult(env, s, Sweep(Prune(s, gid), [], false), gid, now)
  {
    PruneKeeps(env, s, gid, now);
    PruneOnly(env, s, gid, now);
    HandsNothing(s.fleet.active);
    hide ControllerOk, Complete, Hands, OthersKept, Kept;
  }

  lemma PruneOthers(s1: Controller, s2: Controller, gid: nat, now: real)
    requires gid in s1.fleet.groups && Extends(ShutGroup(s1.fleet, gid), s2.fleet, now)
    requires forall g | g in s2.fleet.groups && g !in s1.fleet.groups :: s2.fleet.groups[g].arrived == []
    ensures OthersKept(s1.fleet, Prune(s2, gid).fleet, gid, now)
    ensures gid in Prune(s2, gid).fleet.groups ==> Kept(Prune(s2, gid).fleet.groups[gid], now)
  {
  }

  lemma CloseResultSweeps(env: Env, s: Controller, s2: Controller, s3: Controller, jobs: seq<Job>, gid: nat, now: real)
    requires CloseResult(env, s, s2, jobs, gid, now) && !AtLimit(env.limit, s.version)
    requires ControllerOk(env, s3, now, []) && s3 == s2.(fleet := s3.fleet) && s3.fleet.active == s2.fleet.active
    requires Complete(Ids(env), s2.fleet) ==> Complete(Ids(env), s3.fleet)
    ensures SweepResult(env, s, Sweep(s3, jobs, false), now)
  {
    hide ControllerOk, Extends, Hands, Complete;
  }

  lemma CloseOverdue(env: Env, s: Controller, gid: nat, now: real)
    requires ValidEnv(env) && ControllerOk(env, s, now, []) && gid in s.fleet.groups
    requires !AtLimit(env.limit, s.version)
    ensures var (s2, jobs) := Close(env, s, gid, now, GroupDeadline);
            OneResult(env, s, Sweep(Prune(s2, gid), jobs, false), gid, now)
  {
    CloseKeeps(env, s, gid, now, GroupDeadline);
    var (s2, jobs) := Close(env, s, gid, now, GroupDeadline);
    hide Close, ControllerOk, Hands, Complete;
    PruneKeeps(env, s2, gid, now);
    PruneOthers(s, s2, gid, now);
    hide Extends, Kept, OthersKept;
    CloseResultSweeps(env, s, s2, Prune(s2, gid), jobs, gid, now);
    hide SweepResult, CloseResult;
  }

  lemma VisitKeeps(env: Env, s: Controller, gid: nat, now: real)
    requires ValidEnv(env) && ControllerOk(env, s, now, []) && gid in s.fleet.groups
    requires !AtLimit(env.limit, s.version)
    ensures var (s', jobs) := Visit(env, s, now, gid);
            OneResult(env, s, Sweep(s', jobs, false), gid, now)
  {
    if !s.fleet.groups[gid].closed && now >= s.fleet.groups[gid].deadline {
      hide ControllerOk, Prune, OneResult, Close;
      CloseOverdue(env, s, gid, now);
    } else {
      hide ControllerOk, Prune, OneResult, Close;
      SkipGroup(env, s, gid, now);
    }
  }

  lemma SinceEarlier(env: Env, s: Controller, s1: Controller, r: Sweep, gid: nat, now: real)
    requires OneResult(env, s1, r, gid, now) && s1 == s.(ticks := s.ticks + 1)
    ensures OneResult(env, s, r, gid, now)
  {
    hide ControllerOk, Hands, Complete, Kept, OthersKept;
  }

  lemma ExpireOneCases(env: Env, s: Controller, now: real, gid: nat)
    requires gid in s.fleet.groups
    ensures var r := ExpireOne(env, s, now, gid);
            var s1 := if env.budget.Some? then s.(ticks := s.ticks + 1) else s;
            && (r.stopped ==> r.state == s1 && r.jobs == [] && (Overdue(env, s1) || AtLimit(env.limit, s1.version)))
            && (!r.stopped ==> !AtLimit(env.limit, s1.version)
                               && r == Sweep(Visit(env, s1, now, gid).0, Visit(env, s1, now, gid).1, false))
  {
    hide Visit;
  }

  lemma StopKeeps(env: Env, s: Controller, s1: Controller, r: Sweep, now: real, gid: nat)
    requires ValidEnv(env) && ControllerOk(env, s, now, []) && gid in s.fleet.groups
    requires r.stopped && r.state == s1 && r.jobs == [] && (s1 == s || s1 == s.(ticks := s.ticks + 1))
    requires Overdue(env, s1) || AtLimit(env.limit, s1.version)
    ensures OneResult(env, s, r, gid, now)
  {
    hide ControllerOk, OneResult, SweepResult, Overdue;
    NoMove(env, s, r, now);
    StopHere(env, s, r, gid, now);
  }

  /** Visiting one group keeps the invariant, loses no client and never passes the update limit. */
  lemma ExpireOneKeeps(env: Env, s: Controller, now: real, gid: nat)
    requires ValidEnv(env) && ControllerOk(env, s, now, []) && gid in s.fleet.groups
    ensures OneResult(env, s, ExpireOne(env, s, now, gid), gid, now)
  {
    hide ControllerOk, OneResult, SweepResult, Visit, ExpireOne, Overdue, ValidEnv;
    var r := ExpireOne(env, s, now, gid);
    var s1 := if env.budget.Some? then s.(ticks := s.ticks + 1) else s;
    ExpireOneCases(env, s, now, gid);
    LaterClock(env, s, [], now);
    if r.stopped {
      StopKeeps(env, s, s1, r, now, gid);
    } else {
      VisitKeeps(env, s1, gid, now);
      if s1 != s {
        SinceEarlier(env, s, s1, r, gid, now);
      }
    }
  }

  /** After the groups below `n` have been visited. */
  ghost predicate Swept(env: Env, s: Controller, r: Sweep, known: set<nat>, n: nat, now: real) {
    && SweepResult(env, s, r, now)
    && s.fleet.nextGroup <= r.state.fleet.nextGroup
    && (forall g | g in known && g >= n :: g in r.state.fleet.groups)
    && (!r.stopped ==> forall g | g in r.state.fleet.groups && (g < n || g !in known) ::
          Kept(r.state.fleet.groups[g], now))
  }

  lemma JoinSweeps(env: Env, s: Controller, a: Sweep, b: Sweep, now: real)
    requires ValidEnv(env)
    requires SweepResult(env, s, a, now) && SweepResult(env, a.state, b, now) && !a.stopped
    ensures SweepResult(env, s, Sweep(b.state, a.jobs + b.jobs, b.stopped), now)
  {
    hide Hands, ControllerOk, Complete;
    HandsJoin(s.fleet.active, a.state.fleet.active, b.state.fleet.active, a.jobs, b.jobs);
    if Overdue(env, a.state) {
      OverdueStays(env, a.state, b.state);
    }
    hide Overdue;
  }

  lemma SweptNext(env: Env, s: Controller, a: Sweep, b: Sweep, known: set<nat>, n: nat, now: real)
    requires ValidEnv(env)
    requires Swept(env, s, a, known, n, now) && !a.stopped && OneResult(env, a.state, b, n, now) && n in known
    requires forall g | g in known :: g < s.fleet.nextGroup
    ensures Swept(env, s, Sweep(b.state, a.jobs + b.jobs, b.stopped), known, n + 1, now)
  {
    JoinSweeps(env, s, a, b, now);
    hide SweepResult;
    forall g | g in a.state.fleet.groups && g != n && Kept(a.state.fleet.groups[g], now)
      ensures Kept(b.state.fleet.groups[g], now)
    {
    }
  }

  lemma {:induction false} ExpireBelowKeeps(env: Env, s: Controller, now: real, known: set<nat>, n: nat)
    requires ValidEnv(env) && ControllerOk(env, s, now, []) && known == s.fleet.groups.Keys
    requires forall g | g in known :: g < s.fleet.nextGroup
    ensures Swept(env, s, ExpireBelow(env, s, now, known, n), known, n, now)
  {
    hide ControllerOk, ExpireOne, OneResult, Kept;
    if n == 0 {
      NoMove(env, s, Sweep(s, [], false), now);
      hide SweepResult;
    } else {
      var before := ExpireBelow(env, s, now, known, n - 1);
      ExpireBelowKeeps(env, s, now, known, n - 1);
      SweepState(env, s, before, now);
      hide SweepResult;
      if !before.stopped && n - 1 in known {
        ExpireOneKeeps(env, before.state, now, n - 1);
        SweptNext(env, s, before, ExpireOne(env, before.state, now, n - 1), known, n - 1, now);
      }
    }
  }

  lemma SweepState(env: Env, s: Controller, r: Sweep, now: real)
    requires SweepResult(env, s, r, now)
    ensures ControllerOk(env, r.state, now, [])
  {
  }

  /** The whole sweep: the invariant holds, no client is lost, and unless it was interrupted no group
      is overdue any more. */
  lemma ExpireKeeps(env: Env, s: Controller, now: real)
    requires ValidEnv(env) && ControllerOk(env, s, now, [])
    ensures var r := Expire(env, s, now);
            && SweepResult(env, s, r, now)
            && (!r.stopped ==> forall g | g in r.state.fleet.groups :: Kept(r.state.fleet.groups[g], now))
  {
    forall g | g in s.fleet.groups ensures g < s.fleet.nextGroup {
      assert GroupOk(Ids(env), s.fleet, g, s.fleet.groups[g]);
    }
    hide ControllerOk;
    ExpireBelowKeeps(env, s, now, s.fleet.groups.Keys, s.fleet.nextGroup);
    hide SweepResult, ExpireBelow;
  }
}
