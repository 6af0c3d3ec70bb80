/** What holds of the event loop and its controller between any two steps. */
module ServerInvariants {
  import opened Common
  import opened Scheduling
  import opened Compass
  import opened FleetProofs
  import opened BooksProofs
  import opened CompassProofs
  import opened Server

  ghost predicate RowFits(env: Env, w: World, d: nat, client: ClientId, steps: nat, version: nat, group: Option<nat>) {
    && 1 <= d <= |w.dispatches|
    && w.dispatches[d - 1].client == client && w.dispatches[d - 1].steps == steps
    && w.dispatches[d - 1].version == version && w.dispatches[d - 1].group == group
  }

  ghost predicate FlightOk(env: Env, w: World, d: nat, f: Flight) {
    && RowFits(env, w, d, f.job.client, f.job.steps, f.job.version, f.job.group)
    && f.job.client in Ids(env)
    && f.job.version <= w.control.version && f.job.version < |w.control.history|
    && f.base == w.control.history[f.job.version]
  }

  /** Every dispatch is either out or booked once, and its rows agree. */
  ghost predicate Accounts(env: Env, w: World) {
    && (forall d | d in w.pending :: FlightOk(env, w, d, w.pending[d]) && d !in w.control.receipts)
    && (forall d | d in w.control.receipts ::
          var r := w.control.receipts[d];
          RowFits(env, w, d, r.client, r.steps, r.version, r.group))
    && (forall d | 1 <= d <= |w.dispatches| :: d in w.pending || d in w.control.receipts)
    && Distinct(w.arrivals) && (forall d :: d in w.arrivals <==> d in w.control.receipts)
    && (forall k | 0 <= k < |w.dispatches| ::
          && w.dispatches[k].client in Ids(env)
          && env.cfg.low <= w.dispatches[k].steps <= env.cfg.high)
  }

  ghost predicate WithinLimit(env: Env, w: World) {
    env.limit.Some? ==> w.control.version <= env.limit.value
  }

  /** The time of the latest clock reading. */
  ghost function Latest(env: Env, w: World): real {
    if w.control.ticks == 0 then env.tick(0) else env.tick(w.control.ticks - 1)
  }

  /** The state of a running loop, whether or not every client is still being served. */
  ghost predicate Running(env: Env, w: World) {
    && !w.rejected && w.stop.None?
    && ControllerOk(env, w.control, Latest(env, w), [])
    && Accounts(env, w) && WithinLimit(env, w)
  }

  /** Jobs handed out by the controller and not dispatched yet. */
  ghost predicate Undispatched(f: Fleet, jobs: seq<Job>) {
    && (forall k | 0 <= k < |jobs| :: Genuine(f, jobs[k]))
    && (forall i, j | 0 <= i < j < |jobs| :: jobs[i].client != jobs[j].client)
  }

  ghost predicate InFlight(w: World, c: ClientId) {
    c in w.sent && w.sent[c] in w.pending && c in w.control.fleet.active
          && w.pending[w.sent[c]].job == w.control.fleet.active[c]
  }

  /** Calls that are out and assignments correspond one to one, apart from `jobs` still to be sent. */
  ghost predicate Coupled(env: Env, w: World, jobs: seq<Job>) {
    && (forall d | d in w.pending ::
          && Genuine(w.control.fleet, w.pending[d].job)
          && w.pending[d].job.client in w.sent && w.sent[w.pending[d].job.client] == d
          && w.pending[d].job.started <= Latest(env, w))
    && (forall c | c in w.control.fleet.active :: InFlight(w, c) || exists k :: 0 <= k < |jobs| && jobs[k].client == c)
    && (forall k | 0 <= k < |jobs| :: forall d | d in w.pending :: w.pending[d].job.client != jobs[k].client)
  }

  /** The budget was found spent, or the update limit is reached. */
  ghost predicate Ended(env: Env, w: World) {
    Overdue(env, w.control) || AtLimit(env.limit, w.control.version)
  }

  /** Unless the run has ended, every client is served and every assignment is out or in `jobs`. */
  ghost predicate FullyServed(env: Env, w: World, jobs: seq<Job>) {
    (Coupled(env, w, jobs) && Complete(Ids(env), w.control.fleet)) || Ended(env, w)
  }

  lemma LatestGrows(env: Env, w: World, w': World)
    requires ValidEnv(env) && w.control.ticks <= w'.control.ticks
    ensures Latest(env, w) <= Latest(env, w')
  {
  }

  // ----- steps that only read the clock -----

  /** `w'` differs from `w` in clock readings and evaluation bookkeeping only. */
  ghost predicate OnlyTime(w: World, w': World) {
    && w'.control == w.control.(ticks := w'.control.ticks) && w.control.ticks <= w'.control.ticks
    && w'.pending == w.pending && w'.dispatches == w.dispatches && w'.arrivals == w.arrivals
    && w'.stop == w.stop && w'.rejected == w.rejected && w'.sent == w.sent
  }

  lemma ControllerLater(env: Env, s: Controller, s': Controller, loose: seq<Update>, now: real, later: real)
    requires ControllerOk(env, s, now, loose) && s' == s.(ticks := s'.ticks) && now <= later
    ensures ControllerOk(env, s', later, loose)
  {
    FleetOkLater(env.cfg, Ids(env), s.fleet, now, later);
    SameArrivalsRefl(s.fleet.groups);
    hide FleetOk, SameArrivals;
    SameBooksKeep(env, s, s', loose);
    hide Books;
  }

  lemma TimeKeepsRunning(env: Env, w: World, w': World)
    requires ValidEnv(env) && Running(env, w) && OnlyTime(w, w')
    ensures Running(env, w')
  {
    LatestGrows(env, w, w');
    ControllerLater(env, w.control, w'.control, [], Latest(env, w), Latest(env, w'));
    hide ControllerOk;
  }

  lemma TimeKeepsServed(env: Env, w: World, w': World, jobs: seq<Job>)
    requires ValidEnv(env) && OnlyTime(w, w') && FullyServed(env, w, jobs)
    ensures FullyServed(env, w', jobs)
  {
    LatestGrows(env, w, w');
    if Overdue(env, w.control) {
      OverdueStays(env, w.control, w'.control);
    }
    hide Overdue, Complete, Latest;
  }

  // ----- dispatching -----

  /** The job as it will be sent: same assignment, current version and time. */
  ghost predicate Restamps(f: Fleet, job: Job, sentJob: Job) {
    Genuine(f, job) && sentJob == job.(version := sentJob.version, started := sentJob.started)
  }

  lemma RestampFleet(env: Env, f: Fleet, job: Job, sentJob: Job, now: real)
    requires FleetOk(env.cfg, Ids(env), f, now) && Restamps(f, job, sentJob)
    ensures FleetOk(env.cfg, Ids(env), Restamp(f, sentJob), now)
    ensures Restamp(f, sentJob) == f.(active := f.active[job.client := sentJob])
  {
    var f' := Restamp(f, sentJob);
    forall g | g in f'.groups ensures GroupOk(Ids(env), f', g, f'.groups[g]) {
      assert GroupOk(Ids(env), f, g, f.groups[g]);
    }
  }

  lemma DispatchController(env: Env, w: World, job: Job)
    requires ValidEnv(env) && ControllerOk(env, w.control, Latest(env, w), []) && Genuine(w.control.fleet, job)
    ensures var w' := Dispatch(env, w, job);
            && ControllerOk(env, w'.control, Latest(env, w'), [])
            && w'.control.fleet.active == w.control.fleet.active[job.client := w'.control.fleet.active[job.client]]
            && w'.control.fleet.groups == w.control.fleet.groups
  {
    var w' := Dispatch(env, w, job);
    var sentJob := job.(version := w.control.version, started := env.tick(w.control.ticks));
    LatestGrows(env, w, w');
    RestampFleet(env, w.control.fleet, job, sentJob, Latest(env, w));
    FleetOkLater(env.cfg, Ids(env), w'.control.fleet, Latest(env, w), Latest(env, w'));
    SameArrivalsRefl(w.control.fleet.groups);
    hide FleetOk, SameArrivals, Latest;
    SameBooksKeep(env, w.control, w'.control, []);
    hide Books;
  }

  lemma DispatchAccounts(env: Env, w: World, job: Job)
    requires Accounts(env, w) && Lineage(w.control) && job.client in Ids(env)
    requires env.cfg.low <= job.steps <= env.cfg.high
    ensures Accounts(env, Dispatch(env, w, job))
  {
    var w' := Dispatch(env, w, job);
    var id := |w.dispatches| + 1;
    assert id !in w.pending && id !in w.control.receipts;
    forall d, c: ClientId, steps: nat, version: nat, group: Option<nat> | RowFits(env, w, d, c, steps, version, group)
      ensures RowFits(env, w', d, c, steps, version, group)
    {
    }
  }

  lemma DispatchKeepsRunning(env: Env, w: World, job: Job)
    requires ValidEnv(env) && Running(env, w) && Genuine(w.control.fleet, job)
    ensures Running(env, Dispatch(env, w, job))
  {
    DispatchController(env, w, job);
    assert JobsOk(env.cfg, Ids(env), w.control.fleet);
    DispatchAccounts(env, w, job);
    hide ControllerOk, Accounts;
  }

  /** `w'` has one more flight than `w`: call `id` for `sentJob`, the restamped first of `jobs`. */
  ghost predicate Launched(env: Env, w: World, w': World, id: nat, sentJob: Job, jobs: seq<Job>) {
    && jobs != [] && sentJob.client == jobs[0].client
    && id !in w.pending && id in w'.pending && w'.pending[id].job == sentJob
    && w'.pending == w.pending[id := w'.pending[id]]
    && w'.sent == w.sent[sentJob.client := id]
    && w'.control.fleet.active == w.control.fleet.active[sentJob.client := sentJob]
    && Latest(env, w) <= Latest(env, w') && sentJob.started <= Latest(env, w')
  }

  lemma LaunchedFlights(env: Env, w: World, w': World, id: nat, sentJob: Job, jobs: seq<Job>, d: nat)
    requires Launched(env, w, w', id, sentJob, jobs) && Coupled(env, w, jobs) && d in w'.pending
    ensures Genuine(w'.control.fleet, w'.pending[d].job)
    ensures w'.pending[d].job.client in w'.sent && w'.sent[w'.pending[d].job.client] == d
    ensures w'.pending[d].job.started <= Latest(env, w')
  {
    hide Latest;
    if d != id {
      assert w'.pending[d] == w.pending[d];
      assert w.pending[d].job.client != jobs[0].client;
    }
  }

  lemma LaunchedJobs(env: Env, w: World, w': World, id: nat, sentJob: Job, jobs: seq<Job>, c: ClientId)
    requires Launched(env, w, w', id, sentJob, jobs) && Coupled(env, w, jobs) && c in w'.control.fleet.active
    ensures InFlight(w', c) || exists k :: 0 <= k < |jobs[1..]| && jobs[1..][k].client == c
  {
    hide Latest;
    if c != sentJob.client {
      if InFlight(w, c) {
        assert w'.sent[c] == w.sent[c];
      } else {
        var k :| 0 <= k < |jobs| && jobs[k].client == c;
        assert jobs[1..][k - 1].client == c;
      }
    }
  }

  lemma LaunchedCouples(env: Env, w: World, w': World, id: nat, sentJob: Job, jobs: seq<Job>)
    requires Launched(env, w, w', id, sentJob, jobs) && Coupled(env, w, jobs) && Undispatched(w.control.fleet, jobs)
    ensures Coupled(env, w', jobs[1..])
  {
    forall d | d in w'.pending
      ensures Genuine(w'.control.fleet, w'.pending[d].job)
      ensures w'.pending[d].job.client in w'.sent && w'.sent[w'.pending[d].job.client] == d
      ensures w'.pending[d].job.started <= Latest(env, w')
    {
      LaunchedFlights(env, w, w', id, sentJob, jobs, d);
    }
    forall c | c in w'.control.fleet.active
      ensures InFlight(w', c) || exists k :: 0 <= k < |jobs[1..]| && jobs[1..][k].client == c
    {
      LaunchedJobs(env, w, w', id, sentJob, jobs, c);
    }
    forall k | 0 <= k < |jobs[1..]|
      ensures forall d | d in w'.pending :: w'.pending[d].job.client != jobs[1..][k].client
    {
      assert jobs[1..][k] == jobs[k + 1];
    }
    hide Latest, InFlight, Genuine;
  }

  function Stamped(env: Env, w: World, job: Job): Job {
    job.(version := w.control.version, started := env.tick(w.control.ticks))
  }

  lemma DispatchLaunches(env: Env, w: World, jobs: seq<Job>)
    requires ValidEnv(env) && jobs != [] && Genuine(w.control.fleet, jobs[0]) && |w.dispatches| + 1 !in w.pending
    ensures Launched(env, w, Dispatch(env, w, jobs[0]), |w.dispatches| + 1, Stamped(env, w, jobs[0]), jobs)
  {
    LatestGrows(env, w, Dispatch(env, w, jobs[0]));
    assert env.tick(w.control.ticks) <= env.tick(w.control.ticks + 1);
    hide ValidConfig;
  }

  lemma FreshNumber(env: Env, w: World)
    requires Accounts(env, w)
    ensures |w.dispatches| + 1 !in w.pending
  {
  }

  lemma DispatchCouples(env: Env, w: World, jobs: seq<Job>)
    requires ValidEnv(env) && Running(env, w) && jobs != [] && Undispatched(w.control.fleet, jobs)
    requires Coupled(env, w, jobs)
    ensures Coupled(env, Dispatch(env, w, jobs[0]), jobs[1..])
  {
    hide ValidEnv, ControllerOk, Accounts, Coupled, Genuine, Launched, Dispatch;
    FreshNumber(env, w);
    assert Genuine(w.control.fleet, jobs[0]);
    DispatchLaunches(env, w, jobs);
    LaunchedCouples(env, w, Dispatch(env, w, jobs[0]), |w.dispatches| + 1, Stamped(env, w, jobs[0]), jobs);
  }

  lemma DispatchUndispatched(env: Env, w: World, job: Job, jobs: seq<Job>)
    requires Undispatched(w.control.fleet, jobs) && jobs != [] && job == jobs[0]
    ensures Undispatched(Dispatch(env, w, job).control.fleet, jobs[1..])
  {
    var w' := Dispatch(env, w, job);
    forall k | 0 <= k < |jobs[1..]| ensures Genuine(w'.control.fleet, jobs[1..][k]) {
      assert jobs[1..][k] == jobs[k + 1];
    }
  }

  lemma DispatchComplete(env: Env, w: World, job: Job)
    requires Complete(Ids(env), w.control.fleet) && Genuine(w.control.fleet, job)
    ensures Complete(Ids(env), Dispatch(env, w, job).control.fleet)
  {
    forall c | Waiting(w.control.fleet, c) ensures Waiting(Dispatch(env, w, job).control.fleet, c) {
    }
  }

  /** Dispatching the next job keeps everything; one job less remains to be sent. */
  lemma DispatchNext(env: Env, w: World, jobs: seq<Job>)
    requires ValidEnv(env) && Running(env, w) && jobs != [] && Undispatched(w.control.fleet, jobs)
    requires FullyServed(env, w, jobs)
    ensures var w' := Dispatch(env, w, jobs[0]);
            Running(env, w') && Undispatched(w'.control.fleet, jobs[1..]) && FullyServed(env, w', jobs[1..])
  {
    var w' := Dispatch(env, w, jobs[0]);
    DispatchKeepsRunning(env, w, jobs[0]);
    DispatchUndispatched(env, w, jobs[0], jobs);
    if Ended(env, w) {
      if Overdue(env, w.control) {
        OverdueStays(env, w.control, w'.control);
      }
    } else {
      DispatchCouples(env, w, jobs);
      DispatchComplete(env, w, jobs[0]);
    }
    hide Running, Undispatched, Coupled, Complete, Overdue;
  }
}
