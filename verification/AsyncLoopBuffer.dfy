/** The arrivals and the buffer of the asynchronous controllers while the event loop drives them. */
module AsyncLoopBuffer {
  import opened Common
  import opened Scheduling
  import opened AsyncFL
  import opened AsyncProofs
  import opened AsyncBuffer
  import opened AsyncReceipts
  import opened AsyncServer
  import opened AsyncLoop
  import Compass
  import Server

  /** The iteration takes an arrival that the controller accepts in time and that takes the last place, and one of
      the commit's two looks at the clock is late. */
  ghost predicate Overfills(env: LoopEnv, w: Loop, choice: Server.Choice) {
    var k := w.control.ticks;
    && w.stop.None? && env.base.tick(k) < w.nextEvaluation && Possible(w, choice)
    && |w.control.buffer| + 1 == env.base.cfg.size
    && !LateAt(env.base, k + 4) && (LateAt(env.base, k + 5) || LateAt(env.base, k + 6))
  }

  lemma LateOnwards(env: AsyncEnv, j: nat, k: nat)
    requires ClockGoesOn(env) && LateAt(env, j) && j <= k
    ensures LateAt(env, k)
  {
    assert env.tick(j) <= env.tick(k);
  }

  lemma TryDispatchBuffer(env: LoopEnv, w: Loop, job: Job)
    ensures TryDispatch(env, w, job).control.buffer == w.control.buffer
    ensures TryDispatch(env, w, job).control.version == w.control.version
  {
  }

  /** What the controller makes of the call in hand. */
  lemma HandOverBuffer(env: LoopEnv, w: Loop, d: nat, flight: Server.Flight, trained: Model)
    requires flight.job.client in w.control.active && w.control.active[flight.job.client] == flight.job
    ensures var a := Arrival(flight.job.client, d, flight.base, trained, Now(env, w));
            HandOver(env, w, d, flight, trained).control.buffer
            == AsyncFL.Step(env.base, Tick(w).control, a).buffer
  {
    var ready := Tick(w);
    var r := Receive(env.base, ready.control, Update(flight.job, d, flight.base, trained), Now(env, w));
    if r.Accepted? && r.jobs != [] {
      TryDispatchBuffer(env, ready.(control := r.state), r.jobs[0]);
    }
    hide Receive, TryDispatch;
  }

  /** A call that is out is one the controller will accept. */
  lemma CallExpected(env: LoopEnv, start: Model, w: Loop, d: nat, trained: Model)
    requires Running(env, start, w) && !Ended(env, w) && d in w.pending
    requires Compass.SameShape(trained, w.control.model)
    ensures var flight := w.pending[d];
            && flight.job.client in w.control.active && w.control.active[flight.job.client] == flight.job
            && Expected(w.control, Update(flight.job, d, flight.base, trained))
  {
    CallAnswers(env, w, d);
    assert CallOk(env, w, d, w.pending[d]);
    hide ControlOk, FitsOk, AllOut, Ended;
  }

  lemma SmallBuffer(env: LoopEnv, start: Model, w: Loop)
    requires Running(env, start, w) && !Missed(env.base, w.control)
    ensures |w.control.buffer| < PerVersion(env.base.cfg)
  {
    hide ReceiptsOk, ModelOk, CallsOk, FitsOk, AllOut;
  }

  /** An expected arrival, seen from the later reading `ticks` on. */
  lemma LaterFills(env: AsyncEnv, s: Async, ticks: nat, a: Arrival)
    requires AsyncOk(env, s) && s.ticks <= ticks && env.cfg.rule.FedBuff? && |s.buffer| < env.cfg.size
    requires a.client in s.active && Expected(s, Answer(s, a))
    ensures var b := |AsyncFL.Step(env, s.(ticks := ticks), a).buffer|;
            b <= env.cfg.size
            && (b == env.cfg.size
                <==> |s.buffer| + 1 == env.cfg.size && !LateAt(env, ticks)
                     && (LateAt(env, ticks + 1) || LateAt(env, ticks + 2)))
  {
    var t := s.(ticks := ticks);
    assert Answer(t, a) == Answer(s, a) && Expected(t, Answer(t, a));
    hide AsyncFL.Step, Expected, LateAt;
    if Missed(env, s) {
      MissedStays(env, s, t);
    }
    hide Missed;
    BufferFills(env, t, a);
    hide AsyncOk;
  }

  /** The state in which the controller sees the call: booked, at the fourth reading of the iteration. */
  function Handing(env: LoopEnv, w: Loop, d: nat): Loop
    requires d in w.pending
  {
    var w1 := Tick(w);
    Book(if env.base.budget.Some? then Tick(w1) else w1, d)
  }

  lemma AwaitIsHandOver(env: LoopEnv, w: Loop, choice: Server.Choice)
    requires Possible(w, choice) && !LateAt(env.base, w.control.ticks + 1)
    ensures Await(env, w, choice)
            == HandOver(env, Handing(env, w, choice.dispatch), choice.dispatch, w.pending[choice.dispatch],
                        choice.trained)
  {
    hide HandOver;
  }

  lemma HandingControl(env: LoopEnv, w: Loop, d: nat)
    requires d in w.pending
    ensures Tick(Handing(env, w, d)).control
            == w.control.(ticks := w.control.ticks + if env.base.budget.Some? then 3 else 2)
    ensures Handing(env, w, d).control.active == w.control.active
  {
  }

  lemma AwaitIsStep(env: LoopEnv, w: Loop, choice: Server.Choice, a: Arrival)
    requires Possible(w, choice) && !LateAt(env.base, w.control.ticks + 1)
    requires var flight := w.pending[choice.dispatch];
             && flight.job.client in w.control.active && w.control.active[flight.job.client] == flight.job
             && a == Arrival(flight.job.client, choice.dispatch, flight.base, choice.trained, a.now)
             && a.now == Now(env, Handing(env, w, choice.dispatch))
    ensures var ticks := w.control.ticks + if env.base.budget.Some? then 3 else 2;
            Await(env, w, choice).control.buffer
            == AsyncFL.Step(env.base, w.control.(ticks := ticks), a).buffer
  {
    var d, flight := choice.dispatch, w.pending[choice.dispatch];
    AwaitIsHandOver(env, w, choice);
    HandingControl(env, w, d);
    hide Await, HandOver, AsyncFL.Step, LateAt, Possible, Handing, Tick, Now;
    HandOverBuffer(env, Handing(env, w, d), d, flight, choice.trained);
  }

  /** The arrival reaches the controller. */
  lemma AwaitHands(env: LoopEnv, w: Loop, choice: Server.Choice)
    requires env.base.cfg.rule.FedBuff? && AsyncOk(env.base, w.control) && Possible(w, choice)
    requires !LateAt(env.base, w.control.ticks + 1) && |w.control.buffer| < env.base.cfg.size
    requires var flight := w.pending[choice.dispatch];
             && flight.job.client in w.control.active && w.control.active[flight.job.client] == flight.job
             && Expected(w.control, Update(flight.job, choice.dispatch, flight.base, choice.trained))
    ensures var b, k := |Await(env, w, choice).control.buffer|, w.control.ticks;
            b <= env.base.cfg.size
            && (b == env.base.cfg.size
                <==> && |w.control.buffer| + 1 == env.base.cfg.size && !LateAt(env.base, k + 3)
                     && (LateAt(env.base, k + 4) || LateAt(env.base, k + 5)))
  {
    var flight := w.pending[choice.dispatch];
    var a := Arrival(flight.job.client, choice.dispatch, flight.base, choice.trained,
                     Now(env, Handing(env, w, choice.dispatch)));
    AwaitIsStep(env, w, choice, a);
    assert Answer(w.control, a) == Update(flight.job, choice.dispatch, flight.base, choice.trained);
    hide Await, AsyncFL.Step, AsyncOk, Expected, Handing, Now, Possible, Answer;
    LaterFills(env.base, w.control, w.control.ticks + if env.base.budget.Some? then 3 else 2, a);
  }

  /** Waiting for an arrival in time: the iteration began one reading earlier, at k. */
  lemma AwaitFills(env: LoopEnv, start: Model, w: Loop, choice: Server.Choice, k: nat)
    requires ValidLoop(env) && env.base.cfg.rule.FedBuff? && Running(env, start, w) && !Ended(env, w)
    requires w.control.ticks == k + 1
    ensures var b := |Await(env, w, choice).control.buffer|;
            b <= env.base.cfg.size
            && (b == env.base.cfg.size
                <==> && Possible(w, choice) && |w.control.buffer| + 1 == env.base.cfg.size && !LateAt(env.base, k + 4)
                     && (LateAt(env.base, k + 5) || LateAt(env.base, k + 6)))
  {
    SmallBuffer(env, start, w);
    if Possible(w, choice) {
      CallExpected(env, start, w, choice.dispatch, choice.trained);
      if LateAt(env.base, k + 2) {
        LateOnwards(env.base, k + 2, k + 4);
        hide LateAt;
      } else {
        hide Await, LateAt, Possible;
        AwaitHands(env, w, choice);
      }
    }
    hide AsyncOk, CallsOk, FitsOk, HandOver, Ended, Expected, Compass.SameShape, Book;
  }

  lemma QuietBuffer(env: LoopEnv, w: Loop, reason: Server.StopReason)
    ensures Shutdown(w, reason).control.buffer == [] && Evaluate(env, w).control.buffer == w.control.buffer
  {
  }

  /** After an iteration the buffer is full exactly when the iteration overfilled it. */
  lemma TurnFills(env: LoopEnv, start: Model, w: Loop, choice: Server.Choice)
    requires ValidLoop(env) && env.base.cfg.rule.FedBuff? && Running(env, start, w) && w.pending != map[]
    ensures var b := |Turn(env, w, choice).control.buffer|;
            b <= env.base.cfg.size && (b == env.base.cfg.size <==> Overfills(env, w, choice))
  {
    var k, w1 := w.control.ticks, Tick(w);
    QuietBuffer(env, w1, Server.TimeBudget);
    QuietBuffer(env, w1, Server.GlobalUpdateLimit);
    hide Running, Await, Shutdown, Evaluate;
    if LateAt(env.base, k) {
      LateOnwards(env.base, k, k + 4);
    } else if !Compass.AtLimit(env.limit, w.control.version) {
      InTimeTick(env, start, w);
      hide Ended;
      SmallBuffer(env, start, w1);
      if env.base.tick(k) < w.nextEvaluation {
        AwaitFills(env, start, w1, choice, k);
        assert Possible(w1, choice) == Possible(w, choice);
      }
    }
    hide Possible;
  }

  lemma InTimeTick(env: LoopEnv, start: Model, w: Loop)
    requires ValidLoop(env) && Running(env, start, w) && !LateAt(env.base, w.control.ticks)
    requires !Compass.AtLimit(env.limit, w.control.version)
    ensures Running(env, start, Tick(w)) && !Ended(env, Tick(w)) && !Missed(env.base, Tick(w).control)
    ensures w.stop.None?
  {
    TimeKeeps(env, start, w, Tick(w));
    NotMissed(env, Tick(w).control, w.control.ticks);
    hide ControlOk, CallsOk, FitsOk, AllOut;
  }

  /** A stopped controller's buffer stays empty, and settling stops it. */
  lemma StepFills(env: LoopEnv, start: Model, w: Loop, choice: Server.Choice)
    requires ValidLoop(env) && env.base.cfg.rule.FedBuff? && (Running(env, start, w) || Stopped(env, start, w))
    ensures var b := |AsyncServer.Step(env, w, choice).control.buffer|;
            b <= env.base.cfg.size && (b == env.base.cfg.size <==> Overfills(env, w, choice))
  {
    if w.stop.None? && w.pending != map[] {
      assert Running(env, start, w);
      TurnFills(env, start, w, choice);
    }
    hide Running, Turn, LateAt, CallsOk, FitsOk;
  }

  /** Under the event loop FedBuff's buffer never exceeds its size, and is full exactly after an iteration that
      overfilled it. */
  lemma LoopBufferFull(env: LoopEnv, model: Model, script: seq<Server.Choice>)
    requires ValidLoop(env) && env.base.cfg.rule.FedBuff?
    ensures var b := |RunLoop(env, model, script).control.buffer|;
            && b <= env.base.cfg.size
            && (b == env.base.cfg.size
                <==> script != [] && Overfills(env, RunLoop(env, model, DropLast(script)), Last(script)))
  {
    if script == [] {
      BeginBuffer(env, model);
    } else {
      AsyncLoop.RunKeeps(env, model, DropLast(script));
      StepFills(env, model, RunLoop(env, model, DropLast(script)), Last(script));
    }
    hide Overfills, AsyncServer.Step, Begin, Running, Stopped;
  }

  lemma {:induction false} SendBuffer(env: LoopEnv, w: Loop, jobs: seq<Job>)
    ensures DispatchAll(env, w, jobs).control.buffer == w.control.buffer
  {
    if jobs != [] {
      SendBuffer(env, w, DropLast(jobs));
    }
  }

  lemma BeginBuffer(env: LoopEnv, model: Model)
    requires ValidLoop(env)
    ensures Begin(env, model).control.buffer == []
  {
    var w := Evaluate(env, Empty(model));
    var w1 := if env.base.budget.Some? then Tick(w) else w;
    if !LateAt(env.base, w.control.ticks) {
      var now := Now(env, w1);
      var r := Initialize(env.base, Tick(w1).control, now);
      StartAllKeeps(env.base.cfg, Tick(w1).control.(initialized := true), env.base.order, now);
      SendBuffer(env, Tick(w1).(control := r.state), r.jobs);
    }
    hide DispatchAll, StartAll;
  }

  /** A full buffer is dropped by the next iteration, which leaves the loop with the same version. */
  lemma FullStops(env: LoopEnv, model: Model, script: seq<Server.Choice>, choice: Server.Choice)
    requires ValidLoop(env) && env.base.cfg.rule.FedBuff?
    requires |RunLoop(env, model, script).control.buffer| == env.base.cfg.size
    ensures var w, v := RunLoop(env, model, script), RunLoop(env, model, script + [choice]);
            v.stop == Some(Server.TimeBudget) && v.control.buffer == [] && v.control.version == w.control.version
  {
    var w := RunLoop(env, model, script);
    AsyncLoop.RunKeeps(env, model, script);
    assert w.stop.None?;
    if !Missed(env.base, w.control) {
      SmallBuffer(env, model, w);
    }
    var k: nat :| k < w.control.ticks && LateAt(env.base, k);
    LateOnwards(env.base, k, w.control.ticks);
    assert DropLast(script + [choice]) == script;
    hide Running, RunLoop;
  }

  /** While the run goes on and the deadline has not been missed, every client has its assignment and the accepted
      updates are those of the committed versions and the buffered ones. */
  lemma LoopArrivals(env: LoopEnv, model: Model, script: seq<Server.Choice>)
    requires ValidLoop(env)
    ensures var w := RunLoop(env, model, script);
            w.stop.None? && !Missed(env.base, w.control) ==>
              && w.control.active.Keys == (set c | c in env.base.order)
              && |w.control.received| == PerVersion(env.base.cfg) * w.control.version + |w.control.buffer|
              && |w.control.buffer| < PerVersion(env.base.cfg)
  {
    AsyncLoop.RunKeeps(env, model, script);
    hide RunLoop, ReceiptsOk, ModelOk, CallsOk, FitsOk;
  }
}
