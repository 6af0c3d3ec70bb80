/** Whole runs of the event loop: it never runs dry, never refuses an update and never passes its limit. */
module ServerProofs {
  import opened Common
  import opened Scheduling
  import opened Compass
  import opened FleetProofs
  import opened BooksProofs
  import opened CompassProofs
  import opened SweepProofs
  import opened Server
  import opened ServerInvariants

  /** A state of the loop with `jobs` still to be sent. */
  ghost predicate Ready(env: Env, w: World, jobs: seq<Job>) {
    Running(env, w) && Undispatched(w.control.fleet, jobs) && FullyServed(env, w, jobs)
  }

  lemma SkipRest(env: Env, w: World, w': World, jobs: seq<Job>)
    requires ValidEnv(env) && Ready(env, w, jobs) && jobs != [] && OnlyTime(w, w') && Ended(env, w')
    ensures Ready(env, w', jobs[1..])
  {
    TimeKeepsRunning(env, w, w');
    hide Running, Overdue;
    forall k | 0 <= k < |jobs[1..]| ensures Genuine(w'.control.fleet, jobs[1..][k]) {
      assert jobs[1..][k] == jobs[k + 1];
    }
  }

  lemma TimeKeepsReady(env: Env, w: World, w': World, jobs: seq<Job>)
    requires ValidEnv(env) && Ready(env, w, jobs) && OnlyTime(w, w')
    ensures Ready(env, w', jobs)
  {
    TimeKeepsRunning(env, w, w');
    TimeKeepsServed(env, w, w', jobs);
    hide Running, FullyServed;
  }

  lemma LateReading(env: Env, w: World)
    requires Late(env, Now(env, w))
    ensures Overdue(env, Tick(w).control)
  {
  }

  lemma TryDispatchNext(env: Env, w: World, jobs: seq<Job>, checkClock: bool)
    requires ValidEnv(env) && Ready(env, w, jobs) && jobs != []
    ensures Ready(env, TryDispatch(env, w, jobs[0], checkClock), jobs[1..])
  {
    var reading := checkClock && env.budget.Some?;
    var checked := if reading then Tick(w) else w;
    TimeKeepsReady(env, w, checked, jobs);
    hide Ready, Dispatch, Overdue;
    if reading && Now(env, w) >= env.budget.value {
      LateReading(env, w);
      SkipRest(env, w, checked, jobs);
    } else if AtLimit(env.limit, checked.control.version) {
      SkipRest(env, w, checked, jobs);
    } else {
      DispatchReady(env, checked, jobs);
    }
  }

  lemma DispatchReady(env: Env, w: World, jobs: seq<Job>)
    requires ValidEnv(env) && Ready(env, w, jobs) && jobs != []
    ensures Ready(env, Dispatch(env, w, jobs[0]), jobs[1..])
  {
    DispatchNext(env, w, jobs);
    hide Running, Undispatched, FullyServed, Dispatch;
  }

  lemma {:induction false} DispatchPrefix(env: Env, w: World, jobs: seq<Job>, checkClock: bool, n: nat)
    requires ValidEnv(env) && Ready(env, w, jobs) && n <= |jobs|
    ensures Ready(env, DispatchAll(env, w, jobs[..n], checkClock), jobs[n..])
  {
    hide Ready, TryDispatch;
    if n == 0 {
      assert jobs[0..] == jobs && jobs[..0] == [];
    } else {
      DispatchPrefix(env, w, jobs, checkClock, n - 1);
      var before := DispatchAll(env, w, jobs[..n - 1], checkClock);
      var rest := jobs[n - 1..];
      TryDispatchNext(env, before, rest, checkClock);
      assert rest[1..] == jobs[n..] && rest[0] == jobs[n - 1];
      assert DropLast(jobs[..n]) == jobs[..n - 1] && Last(jobs[..n]) == jobs[n - 1];
    }
  }

  /** Sending the released jobs leaves every assignment out, unless the run has ended meanwhile. */
  lemma DispatchAllKeeps(env: Env, w: World, jobs: seq<Job>, checkClock: bool)
    requires ValidEnv(env) && Ready(env, w, jobs)
    ensures Ready(env, DispatchAll(env, w, jobs, checkClock), [])
  {
    DispatchPrefix(env, w, jobs, checkClock, |jobs|);
    assert jobs[..|jobs|] == jobs && jobs[|jobs|..] == [];
    hide Ready, DispatchAll;
  }

  lemma {:induction false} DispatchFirstKeeps(env: Env, w: World, jobs: seq<Job>, n: nat)
    requires ValidEnv(env) && Ready(env, w, jobs) && n <= |jobs|
    ensures Ready(env, DispatchFirst(env, w, jobs[..n]), jobs[n..])
  {
    hide Ready, Dispatch;
    if n == 0 {
      assert jobs[0..] == jobs && jobs[..0] == [];
    } else {
      DispatchFirstKeeps(env, w, jobs, n - 1);
      var before := DispatchFirst(env, w, jobs[..n - 1]);
      var rest := jobs[n - 1..];
      DispatchReady(env, before, rest);
      assert rest[1..] == jobs[n..] && rest[0] == jobs[n - 1];
      assert DropLast(jobs[..n]) == jobs[..n - 1] && Last(jobs[..n]) == jobs[n - 1];
    }
  }

  // ----- the start of a run -----

  ghost predicate Started(cfg: Config, f: Fleet, f': Fleet, cs: seq<ClientId>, jobs: seq<Job>, now: real) {
    && f' == f.(active := f'.active, nextSerial := f'.nextSerial) && f.nextSerial <= f'.nextSerial
    && |jobs| == |cs|
    && (forall k | 0 <= k < |cs| :: jobs[k].client == cs[k] && Genuine(f', jobs[k]))
    && (forall c | c in f'.active ::
          var job := f'.active[c];
          c in cs && job == Job(job.serial, c, cfg.high, 0, None, now) && job.serial < f'.nextSerial)
  }

  /** One more client gets its job. */
  lemma StartedNext(
      cfg: Config, f: Fleet, before: Fleet, after: Fleet, cs: seq<ClientId>, jobs: seq<Job>, job: Job, now: real)
    requires Started(cfg, f, before, cs, jobs, now) && job.client !in cs
    requires job == Job(before.nextSerial, job.client, cfg.high, 0, None, now)
    requires after == before.(active := before.active[job.client := job], nextSerial := before.nextSerial + 1)
    ensures Started(cfg, f, after, cs + [job.client], jobs + [job], now)
  {
    forall k | 0 <= k < |cs|
      ensures Genuine(after, jobs[k])
    {
      assert Genuine(before, jobs[k]) && jobs[k].client == cs[k];
    }
  }

  lemma {:induction false} StartAllMeans(cfg: Config, f: Fleet, cs: seq<ClientId>, now: real)
    requires Distinct(cs) && f.active == map[]
    ensures var (f', jobs) := StartAll(cfg, f, cs, now);
            Started(cfg, f, f', cs, jobs, now)
  {
    if cs != [] {
      StartAllMeans(cfg, f, DropLast(cs), now);
      var (before, jobs) := StartAll(cfg, f, DropLast(cs), now);
      var (after, all) := StartAll(cfg, f, cs, now);
      assert Last(cs) !in DropLast(cs);
      hide Started;
      StartedNext(cfg, f, before, after, DropLast(cs), jobs, Last(all), now);
      assert cs == DropLast(cs) + [Last(cs)];
    } else {
      hide StartAll;
    }
  }

  ghost predicate Blank(env: Env, w: World, model: Model) {
    && w.control.(ticks := 0) == NewController(model)
    && w.pending == map[] && w.dispatches == [] && w.arrivals == [] && w.sent == map[] && w.stop.None? && !w.rejected
  }

  lemma BlankBooks(env: Env, s: Controller, model: Model)
    requires s.(ticks := 0) == NewController(model)
          || s.(ticks := 0, fleet := NewController(model).fleet) == NewController(model)
    requires s.fleet.groups == map[]
    ensures Books(env, s, [])
  {
  }

  lemma BlankRunning(env: Env, w: World, model: Model)
    requires ValidEnv(env) && Blank(env, w, model)
    ensures Running(env, w)
  {
    BlankBooks(env, w.control, model);
    hide Books;
  }

  lemma StartedReady(env: Env, w: World, w': World, jobs: seq<Job>, now: real)
    requires ValidEnv(env) && Running(env, w') && w'.pending == map[] && now <= Latest(env, w')
    requires w.control.fleet.active == map[]
    requires Started(env.cfg, w.control.fleet, w'.control.fleet, env.order, jobs, now)
    ensures Ready(env, w', jobs)
  {
    var fleet := w'.control.fleet;
    hide Running;
    forall c | c in env.order ensures c in fleet.active && exists k :: 0 <= k < |jobs| && jobs[k].client == c {
      var k :| 0 <= k < |env.order| && env.order[k] == c;
      assert jobs[k].client == c;
    }
    assert Coupled(env, w', jobs);
    assert Complete(Ids(env), fleet);
  }

  lemma StartedFits(env: Env, f: Fleet, f': Fleet, jobs: seq<Job>, now: real, later: real)
    requires ValidEnv(env) && f == NewController(Model([], [])).fleet && Started(env.cfg, f, f', env.order, jobs, now)
    ensures FleetOk(env.cfg, Ids(env), f', later)
  {
  }

  lemma LaunchRunning(env: Env, w: World, model: Model)
    requires ValidEnv(env) && Blank(env, w, model)
    ensures var w1 := Tick(w);
            Running(env, w1.(control := w1.control.(fleet :=
                  StartAll(env.cfg, w1.control.fleet, env.order, Now(env, w)).0)))
  {
    var now := Now(env, w);
    var w1 := Tick(w);
    var (fleet, jobs) := StartAll(env.cfg, w1.control.fleet, env.order, now);
    StartAllMeans(env.cfg, w1.control.fleet, env.order, now);
    var w' := w1.(control := w1.control.(fleet := fleet));
    StartedFits(env, w1.control.fleet, fleet, jobs, now, Latest(env, w'));
    BlankBooks(env, w'.control, model);
    hide Books, FleetOk, StartAll;
  }

  lemma LaunchReady(env: Env, w: World, model: Model)
    requires ValidEnv(env) && Blank(env, w, model)
    ensures Ready(env, Launch(env, w), [])
  {
    var now := Now(env, w);
    var w1 := Tick(w);
    var (fleet, jobs) := StartAll(env.cfg, w1.control.fleet, env.order, now);
    StartAllMeans(env.cfg, w1.control.fleet, env.order, now);
    var w' := w1.(control := w1.control.(fleet := fleet));
    hide Books, FleetOk, StartAll, Running, Started, Ready, DispatchFirst;
    LaunchRunning(env, w, model);
    StartedReady(env, w1, w', jobs, now);
    assert Launch(env, w) == DispatchFirst(env, w', jobs);
    FirstSent(env, w', jobs);
  }

  lemma FirstSent(env: Env, w: World, jobs: seq<Job>)
    requires ValidEnv(env) && Ready(env, w, jobs)
    ensures Ready(env, DispatchFirst(env, w, jobs), [])
  {
    hide Ready, DispatchFirst;
    DispatchFirstKeeps(env, w, jobs, |jobs|);
    assert jobs[..|jobs|] == jobs && jobs[|jobs|..] == [];
  }

  /** The loop starts with one dispatched job for every client, or with the budget already spent. */
  lemma BeginReady(env: Env, model: Model)
    requires ValidEnv(env)
    ensures Ready(env, Begin(env, model), [])
  {
    var w := Evaluate(env, EmptyWorld(model));
    var w1 := if env.budget.Some? then Tick(w) else w;
    assert Blank(env, w1, model);
    if env.budget.Some? && Now(env, w) >= env.budget.value {
      BlankRunning(env, w1, model);
      LateReading(env, w);
      hide Running, Overdue, ValidEnv;
    } else {
      hide Ready, Launch;
      LaunchReady(env, w1, model);
    }
  }
}
