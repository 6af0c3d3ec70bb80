/** The event loop over an asynchronous controller. There are no groups, so nothing expires: an iteration looks
    at the two limits, evaluates, or waits for one arrival. */
module AsyncServer {
  import opened Common
  import opened Scheduling
  import opened AsyncFL
  import Compass
  import Server

  /** What a run is given: the controller's environment, the update limit and the evaluation interval. */
  datatype LoopEnv = LoopEnv(base: AsyncEnv, limit: Option<nat>, interval: real)

  /** One row of the dispatch records, and what it says again when the call has come back. */
  datatype Row = Row(client: ClientId, version: nat, steps: nat)

  datatype Fit = Fit(dispatch: nat, row: Row)

  /** Dispatch number k is row k - 1 of `dispatches`; `fits` lists what came back, in order. `failed` records an
      exception in the controller, `sent` is auxiliary: each client's latest dispatch. */
  datatype Loop = Loop(
    control: Async, pending: map<nat, Server.Flight>, dispatches: seq<Row>, fits: seq<Fit>,
    evaluations: seq<Server.EvaluationRow>, nextEvaluation: real, stop: Option<Server.StopReason>,
    rejected: bool, failed: bool, sent: map<ClientId, nat>)

  function Now(env: LoopEnv, w: Loop): real {
    env.base.tick(w.control.ticks)
  }

  function Tick(w: Loop): Loop {
    w.(control := w.control.(ticks := w.control.ticks + 1))
  }

  function RowOf(job: Job): Row {
    Row(job.client, job.version, job.steps)
  }

  /** Sends the job with the current model, stamping the version and time it is really sent with. */
  function Dispatch(env: LoopEnv, w: Loop, job: Job): Loop {
    var c := w.control;
    var sentJob := job.(version := c.version, started := env.base.tick(c.ticks));
    var id := |w.dispatches| + 1;
    var active :=
      if job.client in c.active && c.active[job.client].serial == job.serial then c.active[job.client := sentJob]
      else c.active;
    w.(control := c.(active := active, ticks := c.ticks + 2),
       pending := w.pending[id := Server.Flight(sentJob, c.model)],
       dispatches := w.dispatches + [RowOf(sentJob)], sent := w.sent[job.client := id])
  }

  /** Sends the job unless the budget is spent or the version has reached its limit. */
  function TryDispatch(env: LoopEnv, w: Loop, job: Job): Loop {
    var checked := if env.base.budget.Some? then Tick(w) else w;
    if LateAt(env.base, w.control.ticks) then checked
    else if Compass.AtLimit(env.limit, checked.control.version) then checked
    else Dispatch(env, checked, job)
  }

  function DispatchAll(env: LoopEnv, w: Loop, jobs: seq<Job>): Loop {
    if jobs == [] then w else Dispatch(env, DispatchAll(env, w, DropLast(jobs)), Last(jobs))
  }

  /** Takes the returned call off the books and files it. */
  function Book(w: Loop, id: nat): Loop
    requires id in w.pending
  {
    w.(pending := w.pending - {id}, fits := w.fits + [Fit(id, RowOf(w.pending[id].job))])
  }

  /** Gives the update to the controller and sends on what it releases. */
  function HandOver(env: LoopEnv, w: Loop, id: nat, flight: Server.Flight, trained: Model): Loop {
    var now := Now(env, w);
    var ready := Tick(w);
    match Receive(env.base, ready.control, Update(flight.job, id, flight.base, trained), now)
    case Rejected => ready.(rejected := true)
    case Failed(broken) => ready.(control := broken, failed := true)
    case Accepted(control, jobs) =>
      var next := ready.(control := control);
      if jobs == [] then next else TryDispatch(env, next, jobs[0])
  }

  predicate Possible(w: Loop, choice: Server.Choice) {
    choice.Arrival? && choice.dispatch in w.pending && Compass.SameShape(choice.trained, w.control.model)
  }

  /** Waits for one arrival; while the budget lasts it is given to the controller. */
  function Await(env: LoopEnv, w: Loop, choice: Server.Choice): Loop {
    var w1 := Tick(w);
    if !Possible(w1, choice) then w1
    else
      var flight := w1.pending[choice.dispatch];
      var w2 := if env.base.budget.Some? then Tick(w1) else w1;
      var booked := Book(w2, choice.dispatch);
      if LateAt(env.base, w1.control.ticks) then booked
      else HandOver(env, booked, choice.dispatch, flight, choice.trained)
  }

  function Evaluate(env: LoopEnv, w: Loop): Loop {
    var shot := w.(evaluations := w.evaluations + [Server.EvaluationRow(w.control.version, Now(env, w))]);
    var after := Tick(shot);
    Tick(after).(nextEvaluation := Now(env, after) + env.interval)
  }

  function Shutdown(w: Loop, reason: Server.StopReason): Loop {
    Tick(w.(control := Stop(w.control), stop := Some(reason)))
  }

  /** One iteration of the event loop. */
  function Turn(env: LoopEnv, w: Loop, choice: Server.Choice): Loop {
    var now := Now(env, w);
    var w1 := Tick(w);
    if LateAt(env.base, w.control.ticks) then Shutdown(w1, Server.TimeBudget)
    else if Compass.AtLimit(env.limit, w1.control.version) then Shutdown(w1, Server.GlobalUpdateLimit)
    else if now >= w1.nextEvaluation then Evaluate(env, w1)
    else Await(env, w1, choice)
  }

  /** The loop ended by itself. */
  function Settle(env: LoopEnv, w: Loop): Loop {
    var w1 := if env.base.budget.Some? then Tick(w) else w;
    if LateAt(env.base, w.control.ticks) then Shutdown(w1, Server.TimeBudget)
    else if Compass.AtLimit(env.limit, w.control.version) then Shutdown(w1, Server.GlobalUpdateLimit)
    else Shutdown(w1, Server.NoInflightUpdates)
  }

  /** After the stop, calls still out are only booked. */
  function Drain(w: Loop, choice: Server.Choice): Loop {
    if Possible(w, choice) then Book(w, choice.dispatch) else w
  }

  function Step(env: LoopEnv, w: Loop, choice: Server.Choice): Loop {
    if w.stop.Some? then Drain(w, choice)
    else if w.pending != map[] then Turn(env, w, choice)
    else Settle(env, w)
  }

  function Empty(model: Model): Loop {
    Loop(New(model), map[], [], [], [], 0.0, None, false, false, map[])
  }

  /** One job for every client. */
  function Launch(env: LoopEnv, w: Loop): Loop {
    var now := Now(env, w);
    var w1 := Tick(w);
    match Initialize(env.base, w1.control, now)
    case Accepted(control, jobs) => DispatchAll(env, w1.(control := control), jobs)
    case _ => w1.(rejected := true)
  }

  /** The initial evaluation and, unless the budget is already spent, the first jobs. */
  function Begin(env: LoopEnv, model: Model): Loop {
    var w := Evaluate(env, Empty(model));
    var w1 := if env.base.budget.Some? then Tick(w) else w;
    if LateAt(env.base, w.control.ticks) then w1 else Launch(env, w1)
  }

  /** The state after the environment's choices so far. */
  function RunLoop(env: LoopEnv, model: Model, script: seq<Server.Choice>): Loop {
    if script == [] then Begin(env, model) else Step(env, RunLoop(env, model, DropLast(script)), Last(script))
  }
}
