/** The coordinator as an object: it owns the controller, holds the calls that are out together with the
    assignment objects they were sent for, and writes the version and start time into those objects. */
module ServerClass {
  import opened Common
  import opened Scheduling
  import opened Compass
  import opened Server
  import opened CompassClass

  datatype Call = Call(job: Assignment, base: Model)

  function JobsOut(pending: map<nat, Call>): set<Assignment> {
    set id | id in pending :: pending[id].job
  }

  function Flights(pending: map<nat, Call>): map<nat, Flight>
    reads JobsOut(pending)
  {
    map id | id in pending :: Flight(pending[id].job.Value(), pending[id].base)
  }

  class FedCompassServer {
    const env: Env
    const control: FedCompass
    var pending: map<nat, Call>
    var dispatches: seq<DispatchRow>
    var arrivals: seq<nat>
    var lastArrivals: map<ClientId, real>
    var evaluations: seq<EvaluationRow>
    var nextEvaluation: real
    var stop: Option<StopReason>
    var rejected: bool
    ghost var sent: map<ClientId, nat>

    constructor (env: Env, model: Model)
      ensures this.env == env && fresh(control) && Valid() && pending == map[]
      ensures World() == EmptyWorld(model)
    {
      this.env := env;
      control := new FedCompass(env, model);
      pending, dispatches, arrivals, lastArrivals, evaluations := map[], [], [], map[], [];
      nextEvaluation, stop, rejected, sent := 0.0, None, false, map[];
      new;
      assert Flights(pending) == map[];
    }

    ghost function World(): World
      reads this, control, control.active.Values, JobsOut(pending)
    {
      Server.World(control.State(), Flights(pending), dispatches, arrivals, lastArrivals, evaluations, nextEvaluation,
                   stop, rejected, sent)
    }

    /** A serial number stands for one object among the outstanding assignments and the calls that are out. */
    ghost predicate Valid()
      reads this`pending, this`dispatches, control`active, control`nextSerial
    {
      && control.env == env
      && (forall c | c in control.active :: control.active[c].client == c
            && control.active[c].serial < control.nextSerial)
      && (forall id | id in pending :: Unique(pending[id].job))
      && (forall i, j | i in pending && j in pending && i != j :: pending[i].job.serial != pending[j].job.serial)
      && (forall id | id in pending :: 1 <= id <= |dispatches|)
    }

    /** No other outstanding assignment carries this one's serial number. */
    ghost predicate Unique(job: Assignment)
      reads control`active, control`nextSerial
    {
      && job.serial < control.nextSerial
      && (forall c | c in control.active && control.active[c].serial == job.serial :: control.active[c] == job)
    }

    ghost predicate NotOut(job: Assignment)
      reads this`pending
    {
      forall id | id in pending :: pending[id].job.serial != job.serial
    }

    /** One reading of the run's clock. */
    method Elapsed() returns (now: real)
      requires Valid()
      modifies control`ticks
      ensures control.ticks == old(control.ticks) + 1 && now == env.tick(old(control.ticks))
      ensures World() == Tick(old(World()))
    {
      now := control.Clock();
    }

    // ----- dispatch -----

    /** Writes the version and start time into an assignment object that no call is out for. */
    method Stamp(job: Assignment, version: nat, started: real)
      requires Valid() && Unique(job) && NotOut(job)
      modifies job
      ensures job.Value() == old(job.Value()).(version := version, started := started)
      ensures control.FleetState() == Restamp(old(control.FleetState()), job.Value())
      ensures Flights(pending) == old(Flights(pending))
    {
      job.version, job.started := version, started;
      assert Values(control.active) == Restamp(old(control.FleetState()), job.Value()).active;
    }

    /** Books a call for a job that is ready to go. */
    method Send(job: Assignment, row: DispatchRow)
      requires Valid() && Unique(job) && NotOut(job)
      modifies this`pending, this`dispatches, this`sent
      ensures Valid()
      ensures pending == old(pending)[old(|dispatches|) + 1 := Call(job, control.model)]
      ensures Flights(pending) == old(Flights(pending))[old(|dispatches|) + 1 := Flight(job.Value(), control.model)]
      ensures dispatches == old(dispatches) + [row]
      ensures sent == old(sent)[job.client := old(|dispatches|) + 1]
    {
      var id := |dispatches| + 1;
      pending := pending[id := Call(job, control.model)];
      dispatches := dispatches + [row];
      sent := sent[job.client := id];
    }

    /** Sends the job, writing the version and time it is really sent with into the assignment object. */
    method Dispatch(job: Assignment)
      requires Valid() && Unique(job) && NotOut(job)
      modifies this, control`ticks, job
      ensures Valid()
      ensures World() == Server.Dispatch(env, old(World()), old(job.Value()))
      ensures pending == old(pending)[old(|dispatches|) + 1 := Call(job, control.model)]
    {
      hide Values, Flights, GroupTimes, Restamp, Unique, NotOut, Valid;
      var started := Elapsed();
      Stamp(job, control.version, started);
      var elapsed := Elapsed();
      Send(job, RowFor(job, elapsed));
    }

    /** The row of a dispatch stamped with its start time. */
    function RowFor(job: Assignment, elapsed: real): DispatchRow
      reads this`lastArrivals, control`version, control`groups, job
    {
      var (expected, deadline) := GroupTimes(control.groups, job.group);
      DispatchRow(job.client, control.version, job.steps, job.group, elapsed, job.started,
                  if job.client in lastArrivals then Max(0.0, job.started - lastArrivals[job.client]) else 0.0,
                  expected, deadline)
    }

    /** Sends the job unless the clock (when it is looked at) or the version has reached its limit. */
    method TryDispatch(job: Assignment, checkClock: bool)
      requires Valid() && Unique(job) && NotOut(job)
      modifies this, control`ticks, job
      ensures Valid()
      ensures World() == Server.TryDispatch(env, old(World()), old(job.Value()), checkClock)
      ensures forall id | id in pending ::
            (id in old(pending) && pending[id] == old(pending)[id])
            || pending[id].job == job
    {
      hide Server.Dispatch, Valid, Unique, NotOut, Values, Flights;
      if checkClock && env.budget.Some? {
        var now := Elapsed();
        if now >= env.budget.value {
          return;
        }
      }
      if AtLimit(env.limit, control.version) {
        return;
      }
      Dispatch(job);
    }

    /** New assignments that can be sent: each with a serial number of its own, increasing. */
    ghost predicate Ready(jobs: seq<Assignment>)
      reads this`pending, control`active, control`nextSerial
    {
      && (forall k | 0 <= k < |jobs| :: Unique(jobs[k]) && NotOut(jobs[k]))
      && (forall i, j | 0 <= i < j < |jobs| :: jobs[i].serial < jobs[j].serial)
    }

    /** Sends job k; the later ones stay ready and as they were. */
    method DispatchAt(jobs: seq<Assignment>, k: nat, checkClock: bool)
      requires k < |jobs| && Valid() && Ready(jobs[k..])
      modifies this, control`ticks, jobs[k]
      ensures Valid() && Ready(jobs[k + 1..])
      ensures World() == Server.TryDispatch(env, old(World()), old(jobs[k].Value()), checkClock)
      ensures forall i | k < i < |jobs| :: jobs[i].Value() == old(jobs[i].Value())
    {
      hide Server.TryDispatch, Valid, Values, Flights, Unique;
      assert jobs[k..][0] == jobs[k] && jobs[k..][1..] == jobs[k + 1..];
      assert forall i | k < i < |jobs| :: jobs[i] == jobs[k..][i - k];
      TryDispatch(jobs[k], checkClock);
    }

    method DispatchAll(jobs: seq<Assignment>, checkClock: bool)
      requires Valid() && Ready(jobs)
      modifies this, control`ticks, jobs
      ensures Valid()
      ensures World() == Server.DispatchAll(env, old(World()), old(ValuesOf(jobs)), checkClock)
    {
      hide Server.TryDispatch, Valid, Values, Flights, Ready;
      ghost var values := ValuesOf(jobs);
      assert jobs[0..] == jobs;
      for k := 0 to |jobs|
        invariant Valid() && Ready(jobs[k..])
        invariant forall i | k <= i < |jobs| :: jobs[i].Value() == values[i]
        invariant World() == Server.DispatchAll(env, old(World()), values[..k], checkClock)
      {
        assert DropLast(values[..k + 1]) == values[..k];
        DispatchAt(jobs, k, checkClock);
      }
      assert values[..|values|] == values;
    }

    // ----- arrivals and deadlines -----

    /** Assignments the controller has just issued are ready to be sent. */
    lemma IssuedReady(jobs: seq<Assignment>, was: map<ClientId, Assignment>, since: nat)
      requires control.Issued(jobs, was, since) && control.env == env
      requires forall c | c in was :: was[c].client == c && was[c].serial < since
      requires forall id | id in pending :: pending[id].job.serial < since && 1 <= id <= |dispatches|
      requires forall id, c | id in pending && c in was && was[c].serial == pending[id].job.serial ::
            was[c] == pending[id].job
      requires forall i, j | i in pending && j in pending && i != j :: pending[i].job.serial != pending[j].job.serial
      ensures Valid() && Ready(jobs)
    {
    }

    /** The controller's test by identity and the specification's test by serial number agree. */
    lemma OutstandingByIdentity(job: Assignment, u: Update, now: real)
      requires Unique(job) && u.job == job.Value()
      ensures Expected(control.State(), u, now) <==>
                && job.client in control.active && control.active[job.client] == job
                && job.started <= now && SameShape(u.base, control.model) && SameShape(u.trained, control.model)
    {
    }

    method Offer(
        job: Assignment, id: nat, base: Model, trained: Model,
        now: real) returns (accepted: bool, jobs: seq<Assignment>)
      requires Valid() && Unique(job)
      modifies control
      ensures Valid() && Ready(jobs) && forall k | 0 <= k < |jobs| :: fresh(jobs[k])
      ensures Flights(pending) == old(Flights(pending))
      ensures Receive(env, old(control.State()), Update(old(job.Value()), id, base, trained), now)
              == if accepted then Accepted(control.State(), ValuesOf(jobs)) else Rejected
      ensures !accepted ==> control.State() == old(control.State()) && jobs == []
    {
      OutstandingByIdentity(job, Update(job.Value(), id, base, trained), now);
      hide Values, ReceiveInitial, ReceiveLate, ReceiveInGroup, Retire, MissedGroup, Expected;
      accepted, jobs := control.Receive(job, id, base, trained, now);
      IssuedReady(jobs, old(control.active), old(control.nextSerial));
    }

    /** Gives a returned update to the controller. */
    method HandOver(job: Assignment, id: nat, base: Model, trained: Model, now: real) returns (jobs: seq<Assignment>)
      requires Valid() && Unique(job)
      modifies this`rejected, control
      ensures Valid() && Ready(jobs) && forall k | 0 <= k < |jobs| :: fresh(jobs[k])
      ensures var was := old(World());
              match Receive(env, was.control, Update(old(job.Value()), id, base, trained), now)
              case Rejected => World() == was.(rejected := true) && jobs == []
              case Accepted(control, values) => World() == was.(control := control) && ValuesOf(jobs) == values
    {
      hide Values, Compass.Receive, Valid, Ready, Unique;
      var accepted;
      accepted, jobs := Offer(job, id, base, trained, now);
      if !accepted {
        rejected := true;
      }
    }

    method TakeCall(id: nat) returns (call: Call)
      requires Valid() && id in pending
      modifies this`pending
      ensures Valid() && call == old(pending)[id] && Unique(call.job) && pending == old(pending) - {id}
      ensures Flights(pending) == old(Flights(pending)) - {id}
    {
      call := pending[id];
      pending := pending - {id};
    }

    method FileReceipt(id: nat, receipt: Receipt)
      modifies control`receipts
      ensures World() == old(World()).(control :=
            old(World()).control.(receipts := old(control.receipts)[id := receipt]))
    {
      hide Values;
      control.receipts := control.receipts[id := receipt];
      assert Flights(pending) == old(Flights(pending));
    }

    method NoteArrival(id: nat, c: ClientId, at: real)
      modifies this`arrivals, this`lastArrivals
      ensures World() == old(World()).(arrivals := old(arrivals) + [id], lastArrivals := old(lastArrivals)[c := at])
    {
      hide Values;
      arrivals := arrivals + [id];
      lastArrivals := lastArrivals[c := at];
      assert Flights(pending) == old(Flights(pending));
    }

    /** Takes a returned call off the books and files its receipt. */
    method Book(id: nat, at: real) returns (call: Call)
      requires Valid() && id in pending
      modifies this`pending, this`arrivals, this`lastArrivals, control`receipts
      ensures Valid() && call == old(pending)[id] && Unique(call.job) && pending == old(pending) - {id}
      ensures var was, job := old(World()), call.job.Value();
              World() == was.(pending := was.pending - {id}, arrivals := was.arrivals + [id],
                              lastArrivals := was.lastArrivals[job.client := at],
                              control := was.control.(receipts := was.control.receipts[
                                id := Receipt(job.client, job.steps, job.version, job.group, DiscardedAtStop)]))
    {
      call := TakeCall(id);
      hide Values, Flights, Valid, Unique;
      var job := call.job;
      FileReceipt(id, Receipt(job.client, job.steps, job.version, job.group, DiscardedAtStop));
      NoteArrival(id, job.client, at);
    }

    /** Books the returned call; while accepting, hands it to the controller. */
    method Consume(id: nat, trained: Model, at: real, accepting: bool) returns (jobs: seq<Assignment>)
      requires Valid() && id in pending
      modifies this, control
      ensures Valid() && Ready(jobs) && forall k | 0 <= k < |jobs| :: fresh(jobs[k])
      ensures (World(), ValuesOf(jobs)) == Server.Consume(env, old(World()), id, trained, at, accepting)
      ensures stop == old(stop)
    {
      jobs := [];
      var call := Book(id, at);
      hide Values, Flights, Compass.Receive, Valid, Unique;
      if accepting {
        var now := Elapsed();
        jobs := HandOver(call.job, id, call.base, trained, now);
      }
    }

    /** Closes the groups whose deadline has passed. */
    method Sweep(now: real) returns (jobs: seq<Assignment>)
      requires Valid()
      modifies control
      ensures Valid() && Ready(jobs) && forall k | 0 <= k < |jobs| :: fresh(jobs[k])
      ensures Flights(pending) == old(Flights(pending))
      ensures var sweep := Compass.Expire(env, old(control.State()), now);
              control.State() == sweep.state && ValuesOf(jobs) == sweep.jobs
    {
      hide Values, Compass.Expire;
      var stopped;
      jobs, stopped := control.Expire(now);
      IssuedReady(jobs, old(control.active), old(control.nextSerial));
    }

    // ----- the loop -----

    method IsOpen() returns (yes: bool)
      ensures yes == LoopOpen(World()) && World() == old(World())
    {
      yes := pending != map[] || exists g :: g in control.groups && control.groups[g].arrived != [];
      assert pending != map[] <==> Flights(pending) != map[] by {
        if pending != map[] {
          var id :| id in pending;
          assert id in Flights(pending);
        }
      }
    }

    method Evaluate()
      requires Valid()
      modifies this`evaluations, this`nextEvaluation, control`ticks
      ensures Valid() && World() == Server.Evaluate(env, old(World()))
    {
      hide Values, Flights, Valid;
      var snapshot := Elapsed();
      var after := Elapsed();
      NoteEvaluation(EvaluationRow(control.version, snapshot), after + env.interval);
    }

    method NoteEvaluation(row: EvaluationRow, next: real)
      modifies this`evaluations, this`nextEvaluation
      ensures World() == old(World()).(evaluations := old(evaluations) + [row], nextEvaluation := next)
    {
      hide Values;
      evaluations := evaluations + [row];
      nextEvaluation := next;
      assert Flights(pending) == old(Flights(pending));
    }

    /** Leaving the loop: the controller drops its buffers, groups and assignments. */
    method Shutdown(reason: StopReason)
      requires Valid()
      modifies this`stop, control
      ensures Valid() && World() == Server.Shutdown(old(World()), reason) && stop == Some(reason)
    {
      stop := Some(reason);
      control.Stop();
      assert Flights(pending) == old(Flights(pending));
      var elapsed := Elapsed();
    }

    /** The second half of an iteration: wait for one arrival and act on it. */
    method Await(choice: Choice)
      requires Valid()
      modifies this, control
      ensures Valid() && World() == Server.Await(env, old(World()), choice)
    {
      hide Values, Server.Consume, Server.DispatchAll;
      var waited := Elapsed();
      if choice.Arrival? && choice.dispatch in pending && SameShape(choice.trained, control.model) {
        var accepting := true;
        if env.budget.Some? {
          var now := Elapsed();
          accepting := now < env.budget.value;
        }
        var jobs := Consume(choice.dispatch, choice.trained, choice.at, accepting);
        DispatchAll(jobs, true);
      }
    }

    /** Expires groups and sends what they release; then evaluates or waits. */
    method Work(choice: Choice, now: real)
      requires Valid()
      modifies this, control
      ensures Valid()
      ensures var was := old(World());
              var sweep := Compass.Expire(env, was.control, now);
              var sent := Server.DispatchAll(env, was.(control := sweep.state), sweep.jobs, false);
              World() == (if AtLimit(env.limit, sent.control.version) then sent
                          else if now >= sent.nextEvaluation then Server.Evaluate(env, sent)
                          else Server.Await(env, sent, choice))
    {
      hide Values, Flights, Valid, Ready, Compass.Expire, Server.DispatchAll, Server.Evaluate, Server.Await;
      var jobs := Sweep(now);
      DispatchAll(jobs, false);
      if AtLimit(env.limit, control.version) {
        return;
      }
      if now >= nextEvaluation {
        Evaluate();
      } else {
        Await(choice);
      }
    }

    /** One iteration of the event loop. */
    method Turn(choice: Choice)
      requires Valid()
      modifies this, control
      ensures Valid() && World() == Server.Turn(env, old(World()), choice)
    {
      hide Values, Flights, Valid, Compass.Expire, Server.DispatchAll, Server.Evaluate, Server.Await, Server.Shutdown;
      var now := Elapsed();
      if env.budget.Some? && now >= env.budget.value {
        Shutdown(TimeBudget);
      } else if AtLimit(env.limit, control.version) {
        Shutdown(GlobalUpdateLimit);
      } else {
        Work(choice, now);
      }
    }

    /** The loop ended by itself: the reason is worked out from the clock and the version. */
    method Settle()
      requires Valid()
      modifies this, control
      ensures Valid() && World() == Server.Settle(env, old(World())) && stop.Some?
    {
      hide Values, Flights, Valid, Server.Shutdown;
      var expired := false;
      if env.budget.Some? {
        var now := Elapsed();
        expired := now >= env.budget.value;
      }
      if expired {
        Shutdown(TimeBudget);
      } else if AtLimit(env.limit, control.version) {
        Shutdown(GlobalUpdateLimit);
      } else {
        Shutdown(NoInflightUpdates);
      }
    }

    method Drain(choice: Choice)
      requires Valid()
      modifies this, control
      ensures Valid() && World() == Server.Drain(env, old(World()), choice) && stop == old(stop)
    {
      hide Values, Valid, Server.Consume;
      if choice.Arrival? && choice.dispatch in pending && SameShape(choice.trained, control.model) {
        var jobs := Consume(choice.dispatch, choice.trained, choice.at, false);
      }
    }

    // ----- the run -----

    method DispatchFirst(jobs: seq<Assignment>)
      requires Valid() && Ready(jobs)
      modifies this, control`ticks, jobs
      ensures Valid()
      ensures World() == Server.DispatchFirst(env, old(World()), old(ValuesOf(jobs)))
    {
      hide Server.Dispatch, Valid, Values, Flights, Ready;
      ghost var values := ValuesOf(jobs);
      assert jobs[0..] == jobs;
      for k := 0 to |jobs|
        invariant Valid() && Ready(jobs[k..])
        invariant forall i | k <= i < |jobs| :: jobs[i].Value() == values[i]
        invariant World() == Server.DispatchFirst(env, old(World()), values[..k])
      {
        assert DropLast(values[..k + 1]) == values[..k];
        SendAt(jobs, k);
      }
      assert values[..|values|] == values;
    }

    /** Sends job k without looking at the limits; the later ones stay ready and as they were. */
    method SendAt(jobs: seq<Assignment>, k: nat)
      requires k < |jobs| && Valid() && Ready(jobs[k..])
      modifies this, control`ticks, jobs[k]
      ensures Valid() && Ready(jobs[k + 1..])
      ensures World() == Server.Dispatch(env, old(World()), old(jobs[k].Value()))
      ensures forall i | k < i < |jobs| :: jobs[i].Value() == old(jobs[i].Value())
    {
      hide Server.Dispatch, Valid, Values, Flights, Unique;
      assert jobs[k..][0] == jobs[k] && jobs[k..][1..] == jobs[k + 1..];
      assert forall i | k < i < |jobs| :: jobs[i] == jobs[k..][i - k];
      Dispatch(jobs[k]);
    }

    lemma NobodyActive()
      ensures control.active == map[] <==> Values(control.active) == map[]
    {
      if control.active != map[] {
        var c :| c in control.active;
        assert c in Values(control.active);
      }
    }

    method StartControl(now: real) returns (accepted: bool, jobs: seq<Assignment>)
      requires Valid()
      modifies control
      ensures Valid() && Ready(jobs) && forall k | 0 <= k < |jobs| :: fresh(jobs[k])
      ensures Flights(pending) == old(Flights(pending))
      ensures Initialize(env, old(control.State()), now)
            == if accepted then Accepted(control.State(), ValuesOf(jobs)) else Rejected
      ensures !accepted ==> control.State() == old(control.State()) && jobs == []
    {
      NobodyActive();
      hide Values, StartAll;
      accepted, jobs := control.Initialize(now);
      IssuedReady(jobs, old(control.active), old(control.nextSerial));
    }

    /** One job for every client. */
    method Launch()
      requires Valid()
      modifies this, control
      ensures Valid() && World() == Server.Launch(env, old(World()))
    {
      hide Values, Valid, Ready, Initialize, Server.DispatchFirst;
      var now := Elapsed();
      var accepted, jobs := StartControl(now);
      if accepted {
        DispatchFirst(jobs);
      } else {
        rejected := true;
      }
    }

    /** The initial evaluation and, unless the budget is already spent, the first jobs. */
    method Begin()
      requires Valid() && World() == EmptyWorld(control.model)
      modifies this, control
      ensures Valid() && World() == Server.Begin(env, old(control.model))
    {
      hide Values, Valid, Flights, Server.Launch, Server.Evaluate, EmptyWorld;
      Evaluate();
      if env.budget.Some? {
        var now := Elapsed();
        if now >= env.budget.value {
          return;
        }
      }
      Launch();
    }

    /** The event loop proper: how many choices it used. */
    method Loop(model: Model, script: seq<Choice>) returns (n: nat)
      requires Valid() && World() == Run(env, model, [])
      modifies this, control
      ensures n <= |script| && Valid() && World() == Run(env, model, script[..n])
      ensures n < |script| ==> stop.Some? || !LoopOpen(World())
    {
      hide Values, Valid, Flights, Server.Turn, Server.Settle, Server.Drain, Server.Begin, LoopOpen;
      n := 0;
      assert script[..0] == [];
      var more := IsOpen();
      while n < |script| && stop.None? && more
        invariant 0 <= n <= |script| && Valid() && more == LoopOpen(World())
        invariant World() == Run(env, model, script[..n])
      {
        assert DropLast(script[..n + 1]) == script[..n];
        Turn(script[n]);
        n := n + 1;
        more := IsOpen();
      }
    }

    method IsOver() returns (yes: bool)
      ensures yes == Over(World()) && World() == old(World())
    {
      yes := stop.Some? && pending == map[];
      assert pending != map[] <==> Flights(pending) != map[] by {
        if pending != map[] {
          var id :| id in pending;
          assert id in Flights(pending);
        }
      }
    }

    /** The final evaluation and the last stop. */
    method Finish()
      requires Valid()
      modifies this`evaluations, control
      ensures Valid() && World() == Server.Finish(env, old(World()))
    {
      hide Values, Valid, Compass.Stop;
      var snapshot := Elapsed();
      NoteFinal(EvaluationRow(control.version, snapshot));
      StopControl();
    }

    method NoteFinal(row: EvaluationRow)
      modifies this`evaluations
      ensures World() == old(World()).(evaluations := old(evaluations) + [row])
    {
      hide Values;
      evaluations := evaluations + [row];
      assert Flights(pending) == old(Flights(pending));
    }

    method StopControl()
      requires Valid()
      modifies control
      ensures Valid() && World() == old(World()).(control := Compass.Stop(old(World()).control))
    {
      hide Values;
      control.Stop();
      assert Flights(pending) == old(Flights(pending));
    }

    /** The whole run: the event loop, the stop, the drain and, once every call is back, the final evaluation, over
        the environment's choices. */
    method Fit(model: Model, script: seq<Choice>)
      requires Valid() && model == control.model && World() == EmptyWorld(model)
      modifies this, control
      ensures Valid()
      ensures var w := Run(env, model, script);
              World() == if Over(w) then Server.Finish(env, w) else w
    {
      hide Values, Valid, Flights, EmptyWorld, Server.Run, Server.Finish, Over;
      RunLoop(model, script);
      var over := IsOver();
      if over {
        Finish();
      }
    }

    /** The event loop, the stop and the drain. */
    method RunLoop(model: Model, script: seq<Choice>)
      requires Valid() && model == control.model && World() == EmptyWorld(model)
      modifies this, control
      ensures Valid() && World() == Run(env, model, script)
    {
      hide Values, Valid, Flights, EmptyWorld, Server.Turn, Server.Settle, Server.Drain, Server.Begin, LoopOpen;
      Begin();
      var n := Loop(model, script);
      if n < |script| && stop.None? {
        assert DropLast(script[..n + 1]) == script[..n];
        Settle();
        n := n + 1;
      }
      while n < |script|
        invariant 0 <= n <= |script| && Valid() && (n < |script| ==> stop.Some?)
        invariant World() == Run(env, model, script[..n])
      {
        assert DropLast(script[..n + 1]) == script[..n];
        Drain(script[n]);
        n := n + 1;
      }
      assert script[..|script|] == script;
    }
  }
}
