/** The coordinator's event loop over the controller: dispatch, consume, expire, stop and drain. */
module Server {
  import opened Common
  import opened Scheduling
  import opened Compass

  /** A dispatched call that has not come back: the job as sent and the model it was sent with. */
  datatype Flight = Flight(job: Job, base: Model)

  datatype StopReason = TimeBudget | GlobalUpdateLimit | NoInflightUpdates

  datatype DispatchRow = DispatchRow(
    client: ClientId, version: nat, steps: nat, group: Option<nat>, elapsed: real, started: real, idle: real,
    expected: Option<real>, deadline: Option<real>)

  datatype EvaluationRow = EvaluationRow(version: nat, snapshot: real)

  /** Dispatch number k is row k - 1 of `dispatches`. `arrivals` lists the fit records in order.
      `rejected` records that the controller refused an update. `sent` is auxiliary: each client's
      latest dispatch. */
  datatype World = World(
    control: Controller, pending: map<nat, Flight>, dispatches: seq<DispatchRow>, arrivals: seq<nat>,
    lastArrivals: map<ClientId, real>, evaluations: seq<EvaluationRow>, nextEvaluation: real,
    stop: Option<StopReason>, rejected: bool, sent: map<ClientId, nat>)

  /** What the environment does while the loop waits: nothing before the timeout, or one call returns. */
  datatype Choice = Quiet | Arrival(dispatch: nat, trained: Model, at: real)

  /** A run is limited either by wall clock or by the number of model updates. */
  ghost predicate ServerEnv(env: Env) {
    ValidEnv(env) && (env.budget.Some? <==> env.limit.None?)
  }

  function Now(env: Env, w: World): real {
    env.tick(w.control.ticks)
  }

  function Tick(w: World): World {
    w.(control := w.control.(ticks := w.control.ticks + 1))
  }

  function GroupTimes(groups: map<nat, Group>, gid: Option<nat>): (Option<real>, Option<real>) {
    if gid.Some? && gid.value in groups
    then (Some(groups[gid.value].expected), Some(groups[gid.value].deadline))
    else (None, None)
  }

  function Restamp(f: Fleet, job: Job): Fleet {
    if job.client in f.active && f.active[job.client].serial == job.serial
    then f.(active := f.active[job.client := job])
    else f
  }

  /** Sends the job with the current model, stamping the version and time it is really sent with. */
  function Dispatch(env: Env, w: World, job: Job): World {
    var c := w.control;
    var started := env.tick(c.ticks);
    var sentJob := job.(version := c.version, started := started);
    var id := |w.dispatches| + 1;
    var idle := if job.client in w.lastArrivals then Max(0.0, started - w.lastArrivals[job.client]) else 0.0;
    var (expected, deadline) := GroupTimes(c.fleet.groups, job.group);
    w.(control := c.(fleet := Restamp(c.fleet, sentJob), ticks := c.ticks + 2),
       pending := w.pending[id := Flight(sentJob, c.model)],
       dispatches := w.dispatches + [DispatchRow(job.client, c.version, job.steps, job.group,
             env.tick(c.ticks + 1), started, idle,
                                                 expected, deadline)],
       sent := w.sent[job.client := id])
  }

  /** Sends the job unless the clock (when it is looked at) or the version has reached its limit. */
  function TryDispatch(env: Env, w: World, job: Job, checkClock: bool): World {
    var reading := checkClock && env.budget.Some?;
    var checked := if reading then Tick(w) else w;
    if reading && Now(env, w) >= env.budget.value then checked
    else if AtLimit(env.limit, checked.control.version) then checked
    else Dispatch(env, checked, job)
  }

  function DispatchAll(env: Env, w: World, jobs: seq<Job>, checkClock: bool): World {
    if jobs == [] then w else TryDispatch(env, DispatchAll(env, w, DropLast(jobs), checkClock), Last(jobs), checkClock)
  }

  /** Books the returned call; while accepting, hands it to the controller. */
  function Consume(env: Env, w: World, id: nat, trained: Model, at: real, accepting: bool): (World, seq<Job>)
    requires id in w.pending
  {
    var Flight(job, base) := w.pending[id];
    var receipt := Receipt(job.client, job.steps, job.version, job.group, DiscardedAtStop);
    var booked := w.(pending := w.pending - {id}, arrivals := w.arrivals + [id],
                     lastArrivals := w.lastArrivals[job.client := at],
                     control := w.control.(receipts := w.control.receipts[id := receipt]));
    if !accepting then (booked, [])
    else
      var now := Now(env, booked);
      var ready := Tick(booked);
      match Receive(env, ready.control, Update(job, id, base, trained), now)
      case Rejected => (ready.(rejected := true), [])
      case Accepted(control, jobs) => (ready.(control := control), jobs)
  }

  predicate LoopOpen(w: World) {
    w.pending != map[] || exists g :: g in w.control.fleet.groups && w.control.fleet.groups[g].arrived != []
  }

  function Evaluate(env: Env, w: World): World {
    var shot := w.(evaluations := w.evaluations + [EvaluationRow(w.control.version, Now(env, w))]);
    var after := Tick(shot);
    Tick(after).(nextEvaluation := Now(env, after) + env.interval)
  }

  /** Leaving the loop: the controller drops its buffers, groups and assignments. */
  function Shutdown(w: World, reason: StopReason): World {
    Tick(w.(control := Stop(w.control), stop := Some(reason)))
  }

  predicate Possible(w: World, choice: Choice) {
    choice.Arrival? && choice.dispatch in w.pending && SameShape(choice.trained, w.control.model)
  }

  /** The second half of an iteration: wait for one arrival and act on it. */
  function Await(env: Env, w: World, choice: Choice): World {
    var w1 := Tick(w);
    if !Possible(w1, choice) then w1
    else
      var accepting := env.budget.None? || Now(env, w1) < env.budget.value;
      var w2 := if env.budget.Some? then Tick(w1) else w1;
      var (w3, jobs) := Consume(env, w2, choice.dispatch, choice.trained, choice.at, accepting);
      DispatchAll(env, w3, jobs, true)
  }

  /** One iteration of the event loop. */
  function Turn(env: Env, w: World, choice: Choice): World {
    var now := Now(env, w);
    var w1 := Tick(w);
    if env.budget.Some? && now >= env.budget.value then Shutdown(w1, TimeBudget)
    else if AtLimit(env.limit, w1.control.version) then Shutdown(w1, GlobalUpdateLimit)
    else
      var sweep := Expire(env, w1.control, now);
      var w2 := DispatchAll(env, w1.(control := sweep.state), sweep.jobs, false);
      if AtLimit(env.limit, w2.control.version) then w2
      else if now >= w2.nextEvaluation then Evaluate(env, w2)
      else Await(env, w2, choice)
  }

  /** The loop ended by itself: the reason is worked out from the clock and the version. */
  function Settle(env: Env, w: World): World {
    var w1 := if env.budget.Some? then Tick(w) else w;
    if env.budget.Some? && Now(env, w) >= env.budget.value then Shutdown(w1, TimeBudget)
    else if AtLimit(env.limit, w.control.version) then Shutdown(w1, GlobalUpdateLimit)
    else Shutdown(w1, NoInflightUpdates)
  }

  /** After the stop, calls still out are booked without touching the controller. */
  function Drain(env: Env, w: World, choice: Choice): World {
    if Possible(w, choice) then Consume(env, w, choice.dispatch, choice.trained, choice.at, false).0 else w
  }

  /** Everything is back: the frozen model is evaluated, and the controller is stopped once more. */
  function Finish(env: Env, w: World): World {
    var shot := w.(evaluations := w.evaluations + [EvaluationRow(w.control.version, Now(env, w))]);
    var after := Tick(shot);
    after.(control := Stop(after.control))
  }

  /** The run is over: stopped, and no call out. */
  predicate Over(w: World) {
    w.stop.Some? && w.pending == map[]
  }

  function Step(env: Env, w: World, choice: Choice): World {
    if w.stop.Some? then Drain(env, w, choice)
    else if LoopOpen(w) then Turn(env, w, choice)
    else Settle(env, w)
  }

  function EmptyWorld(model: Model): World {
    World(NewController(model), map[], [], [], map[], [], 0.0, None, false, map[])
  }

  /** One job for every client. */
  function Launch(env: Env, w: World): World {
    var now := Now(env, w);
    var w1 := Tick(w);
    match Initialize(env, w1.control, now)
    case Rejected => w1.(rejected := true)
    case Accepted(control, jobs) => DispatchFirst(env, w1.(control := control), jobs)
  }

  /** The initial evaluation and, unless the budget is already spent, the first jobs. */
  function Begin(env: Env, model: Model): World {
    var w := Evaluate(env, EmptyWorld(model));
    var w1 := if env.budget.Some? then Tick(w) else w;
    if env.budget.Some? && Now(env, w) >= env.budget.value then w1 else Launch(env, w1)
  }

  function DispatchFirst(env: Env, w: World, jobs: seq<Job>): World {
    if jobs == [] then w else Dispatch(env, DispatchFirst(env, w, DropLast(jobs)), Last(jobs))
  }

  /** The state after the environment's choices so far. */
  function Run(env: Env, model: Model, script: seq<Choice>): World {
    if script == [] then Begin(env, model) else Step(env, Run(env, model, DropLast(script)), Last(script))
  }
}
