/** What the event loop over an asynchronous controller keeps, for every clock, order of arrivals and model. */
module AsyncLoop {
  import opened Common
  import opened Vectors
  import opened Scheduling
  import opened AsyncFL
  import opened AsyncProofs
  import opened AsyncReceipts
  import opened AsyncBuffer
  import opened AsyncServer
  import Compass
  import Server

  /** Clients exist and are distinct, the clock goes on, and a run has one of the two kinds of limit. */
  ghost predicate ValidLoop(env: LoopEnv) {
    && ValidAsync(env.base.cfg) && ClockGoesOn(env.base)
    && env.base.order != [] && Distinct(env.base.order)
    && (env.base.budget.Some? <==> env.limit.None?)
  }

  // ----- invariants -----

  ghost predicate CallOk(env: LoopEnv, w: Loop, d: nat, f: Server.Flight) {
    && 1 <= d <= |w.dispatches| && w.dispatches[d - 1] == RowOf(f.job)
    && f.job.client in env.base.order && f.job.steps == env.base.cfg.steps && f.job.version <= w.control.version
    && Compass.SameShape(f.base, w.control.model) && d !in w.control.received
    && f.job.client in w.sent && w.sent[f.job.client] == d
  }

  ghost predicate CallsOk(env: LoopEnv, w: Loop) {
    forall d | d in w.pending :: CallOk(env, w, d, w.pending[d])
  }

  ghost predicate HasFit(w: Loop, d: nat) {
    exists i :: 0 <= i < |w.fits| && w.fits[i].dispatch == d
  }

  /** The accepted dispatch has come back, with the version it was accepted for. */
  ghost predicate FiledAs(w: Loop, a: Answered) {
    exists i :: 0 <= i < |w.fits| && w.fits[i].dispatch == a.dispatch && w.fits[i].row.version == a.version
  }

  /** Every dispatch is out or has come back once, with the same row. */
  ghost predicate FitsOk(env: LoopEnv, w: Loop) {
    && (forall i, j :: 0 <= i < j < |w.fits| ==> w.fits[i].dispatch != w.fits[j].dispatch)
    && (forall i | 0 <= i < |w.fits| ::
          && 1 <= w.fits[i].dispatch <= |w.dispatches| && w.fits[i].dispatch !in w.pending
          && w.fits[i].row == w.dispatches[w.fits[i].dispatch - 1])
    && (forall d | 1 <= d <= |w.dispatches| :: d in w.pending || HasFit(w, d))
    && (forall d | d in w.control.received :: HasFit(w, d))
    && (forall a | a in w.control.answered :: FiledAs(w, a))
    && (forall k | 0 <= k < |w.dispatches| ::
          w.dispatches[k].client in env.base.order && w.dispatches[k].steps == env.base.cfg.steps)
  }

  ghost predicate InFlight(w: Loop, c: ClientId) {
    && c in w.control.active && c in w.sent && w.sent[c] in w.pending
    && w.pending[w.sent[c]].job == w.control.active[c]
  }

  ghost predicate AllOut(env: LoopEnv, w: Loop) {
    forall c | c in env.base.order :: InFlight(w, c)
  }

  ghost predicate Ended(env: LoopEnv, w: Loop) {
    Missed(env.base, w.control) || Compass.AtLimit(env.limit, w.control.version)
  }

  ghost predicate ControlOk(env: LoopEnv, start: Model, s: Async) {
    && AsyncOk(env.base, s) && ReceiptsOk(env.base, s) && ModelOk(env.base.cfg, start, s)
    && (env.limit.Some? ==> s.version <= env.limit.value)
  }

  ghost predicate Running(env: LoopEnv, start: Model, w: Loop) {
    && w.stop.None? && !w.rejected && !w.failed
    && ControlOk(env, start, w.control) && CallsOk(env, w) && FitsOk(env, w)
    && (Ended(env, w) || AllOut(env, w))
  }

  /** The loop has been left for one of the two limits. */
  ghost predicate Stopped(env: LoopEnv, start: Model, w: Loop) {
    && w.stop.Some? && !w.rejected && !w.failed
    && w.control.buffer == [] && w.control.active == map[]
    && ReceiptsOk(env.base, w.control) && ModelOk(env.base.cfg, start, w.control)
    && OncePlaced(w.control) && RecordsOk(w.control)
    && CallsOk(env, w) && FitsOk(env, w)
    && match w.stop.value {
         case TimeBudget => env.base.budget.Some? && Missed(env.base, w.control)
         case GlobalUpdateLimit => env.limit == Some(w.control.version)
         case NoInflightUpdates => false
       }
  }

  // ----- time and stamps -----

  /** The controller at a later time, with the same clients at work on jobs that are still in order. */
  lemma ControlLater(env: LoopEnv, start: Model, s: Async, t: Async)
    requires ControlOk(env, start, s) && s.ticks <= t.ticks
    requires t == s.(active := t.active, ticks := t.ticks)
    requires t.active.Keys == s.active.Keys && AsyncProofs.JobsOk(env.base, t)
    ensures ControlOk(env, start, t)
  {
    SameReceipts(env.base, s, t);
    SameModel(env.base.cfg, start, s, t);
    if Missed(env.base, s) {
      MissedStays(env.base, s, t);
    }
    hide ReceiptsOk, ModelOk;
  }

  /** Only clock readings and evaluation bookkeeping differ. */
  ghost predicate OnlyTime(w: Loop, v: Loop) {
    && w.control.ticks <= v.control.ticks && v.control == w.control.(ticks := v.control.ticks)
    && v == w.(control := v.control, evaluations := v.evaluations, nextEvaluation := v.nextEvaluation)
  }

  /** The dispatch books look at nothing else. */
  ghost predicate SameBooks(w: Loop, v: Loop) {
    && v.pending == w.pending && v.dispatches == w.dispatches && v.fits == w.fits && v.sent == w.sent
    && v.control.received == w.control.received && v.control.answered == w.control.answered
    && w.control.version <= v.control.version && v.control.model == w.control.model
  }

  lemma SameBooksKeep(env: LoopEnv, w: Loop, v: Loop)
    requires CallsOk(env, w) && FitsOk(env, w) && SameBooks(w, v)
    ensures CallsOk(env, v) && FitsOk(env, v)
  {
    assert forall d | HasFit(w, d) :: HasFit(v, d);
    assert forall a | FiledAs(w, a) :: FiledAs(v, a);
    forall d | d in v.pending
      ensures CallOk(env, v, d, v.pending[d])
    {
      assert CallOk(env, w, d, w.pending[d]);
    }
  }

  lemma TimeKeepsBooks(env: LoopEnv, w: Loop, v: Loop)
    requires CallsOk(env, w) && FitsOk(env, w) && OnlyTime(w, v)
    ensures CallsOk(env, v) && FitsOk(env, v) && (AllOut(env, w) ==> AllOut(env, v))
  {
    assert forall c | InFlight(w, c) :: InFlight(v, c);
    hide InFlight, CallsOk, FitsOk;
    SameBooksKeep(env, w, v);
  }

  lemma TimeKeeps(env: LoopEnv, start: Model, w: Loop, v: Loop)
    requires Running(env, start, w) && OnlyTime(w, v)
    ensures Running(env, start, v)
  {
    assert AsyncProofs.JobsOk(env.base, v.control);
    hide AsyncOk, ReceiptsOk, ModelOk, AsyncProofs.JobsOk;
    ControlLater(env, start, w.control, v.control);
    TimeKeepsBooks(env, w, v);
    hide CallsOk, FitsOk, AllOut, ControlOk;
    if Missed(env.base, w.control) {
      MissedStays(env.base, w.control, v.control);
    }
  }

  // ----- sending -----

  /** A job that can be sent: it is its client's assignment, and no call of that client is out. */
  ghost predicate Sendable(env: LoopEnv, w: Loop, job: Job) {
    && job.client in env.base.order && job.client in w.control.active && w.control.active[job.client] == job
    && job.steps == env.base.cfg.steps
    && forall d | d in w.pending :: w.pending[d].job.client != job.client
  }

  lemma FreshNumber(env: LoopEnv, w: Loop)
    requires CallsOk(env, w) && FitsOk(env, w)
    ensures |w.dispatches| + 1 !in w.pending && |w.dispatches| + 1 !in w.control.received
    ensures !HasFit(w, |w.dispatches| + 1)
  {
    forall d | d in w.pending
      ensures d <= |w.dispatches|
    {
      assert CallOk(env, w, d, w.pending[d]);
    }
  }

  lemma DispatchControl(env: LoopEnv, start: Model, w: Loop, job: Job)
    requires ControlOk(env, start, w.control) && Sendable(env, w, job)
    ensures ControlOk(env, start, Dispatch(env, w, job).control)
  {
    var t := Dispatch(env, w, job).control;
    assert AsyncProofs.JobsOk(env.base, w.control);
    hide ReceiptsOk, ModelOk;
    ControlLater(env, start, w.control, t);
  }

  lemma DispatchCalls(env: LoopEnv, w: Loop, job: Job)
    requires CallsOk(env, w) && FitsOk(env, w) && Sendable(env, w, job)
    ensures CallsOk(env, Dispatch(env, w, job))
  {
    FreshNumber(env, w);
    var v := Dispatch(env, w, job);
    forall d | d in v.pending
      ensures CallOk(env, v, d, v.pending[d])
    {
      if d != |w.dispatches| + 1 {
        assert CallOk(env, w, d, w.pending[d]);
      }
    }
  }

  lemma DispatchFits(env: LoopEnv, w: Loop, job: Job)
    requires CallsOk(env, w) && FitsOk(env, w) && Sendable(env, w, job)
    ensures FitsOk(env, Dispatch(env, w, job))
  {
    FreshNumber(env, w);
    var v := Dispatch(env, w, job);
    DispatchFiled(env, w, job);
    hide FiledAs, CallsOk;
    forall d | 1 <= d <= |v.dispatches|
      ensures d in v.pending || HasFit(v, d)
    {
      assert d <= |w.dispatches| ==> d in w.pending || HasFit(w, d);
    }
    forall i | 0 <= i < |v.fits|
      ensures v.fits[i].dispatch !in v.pending
    {
      assert HasFit(w, w.fits[i].dispatch);
    }
    hide HasFit;
  }

  lemma DispatchFiled(env: LoopEnv, w: Loop, job: Job)
    ensures forall d | HasFit(w, d) :: HasFit(Dispatch(env, w, job), d)
    ensures forall a | FiledAs(w, a) :: FiledAs(Dispatch(env, w, job), a)
  {
  }

  /** After a dispatch the client is in flight, and so is everybody who was. */
  lemma DispatchFlights(env: LoopEnv, w: Loop, job: Job, c: ClientId)
    requires CallsOk(env, w) && FitsOk(env, w) && Sendable(env, w, job) && (c == job.client || InFlight(w, c))
    ensures InFlight(Dispatch(env, w, job), c)
  {
    FreshNumber(env, w);
    if c != job.client {
      assert CallOk(env, w, w.sent[c], w.pending[w.sent[c]]);
    }
  }

  // ----- an arrival -----

  /** What the controller makes of client c's answer to dispatch d. */
  ghost predicate Took(env: LoopEnv, start: Model, s: Async, t: Async, jobs: seq<Job>, c: ClientId, a: Answered) {
    && AsyncOk(env.base, t) && ReceiptsOk(env.base, t) && ModelOk(env.base.cfg, start, t)
    && TookShape(env, s, t, jobs, c, a)
  }

  ghost predicate TookShape(env: LoopEnv, s: Async, t: Async, jobs: seq<Job>, c: ClientId, a: Answered) {
    && s.version <= t.version <= s.version + 1 && s.ticks <= t.ticks
    && t.received == s.received + {a.dispatch} && t.answered == s.answered + [a]
    && Compass.SameShape(t.model, s.model)
    && if jobs == [] then t.active == s.active - {c} && Missed(env.base, t)
       else
         && |jobs| == 1 && jobs[0].client == c && jobs[0].steps == env.base.cfg.steps
         && t.active == s.active[c := jobs[0]]
  }

  lemma CommitShape(env: LoopEnv, s: Async, us: seq<Update>)
    requires us != []
    ensures var (t, ok) := Commit(env.base, s, us);
            && s.version <= t.version <= s.version + 1 && s.ticks <= t.ticks && t.received == s.received
            && t.answered == s.answered
            && t.active == s.active && t.nextSerial == s.nextSerial && Compass.SameShape(t.model, s.model)
            && (!ok ==> Missed(env.base, t))
  {
    CommitOutcome(env.base, s, us);
    hide MarkAll, Weights, Interpolate, AddDeltas, MeanStats;
  }

  lemma MixShape(env: LoopEnv, s: Async, u: Update, now: real)
    requires u.job.client !in s.active
    ensures var (t, jobs) := Mix(env.base, s, u, now);
            && s.version <= t.version <= s.version + 1 && s.ticks <= t.ticks && t.received == s.received
            && t.answered == s.answered
            && Compass.SameShape(t.model, s.model)
            && if jobs == [] then t.active == s.active && Missed(env.base, t)
               else
                 && |jobs| == 1 && jobs[0].client == u.job.client && jobs[0].steps == env.base.cfg.steps
                 && t.active == s.active[u.job.client := jobs[0]]
  {
    CommitShape(env, s, [u]);
    var (t, ok) := Commit(env.base, s, [u]);
    hide Commit;
    if !ok {
      MissedStays(env.base, t, t.(statuses := t.statuses[u.dispatch := Compass.DiscardedAtStop]));
    }
  }

  lemma CollectShape(env: LoopEnv, s: Async, u: Update, now: real)
    requires u.job.client !in s.active
    ensures var (t, jobs) := Collect(env.base, s, u, now);
            && s.version <= t.version <= s.version + 1 && s.ticks <= t.ticks && t.received == s.received
            && t.answered == s.answered
            && Compass.SameShape(t.model, s.model)
            && if jobs == [] then t.active == s.active && Missed(env.base, t)
               else
                 && |jobs| == 1 && jobs[0].client == u.job.client && jobs[0].steps == env.base.cfg.steps
                 && t.active == s.active[u.job.client := jobs[0]]
  {
    var stored := s.(buffer := s.buffer + [u]);
    CommitShape(env, stored, stored.buffer);
    hide Commit;
  }

  lemma TakeLate(env: LoopEnv, s: Async, u: Update)
    ensures LateAt(env.base, s.ticks) ==> Missed(env.base, Accept(s, u).(ticks := s.ticks + 1))
  {
    if LateAt(env.base, s.ticks) {
      LateIsMissed(env.base, Accept(s, u).(ticks := s.ticks + 1), s.ticks);
    }
  }

  lemma ProcessShape(env: LoopEnv, s: Async, u: Update, now: real)
    requires OncePlaced(s) && u.job.version <= s.version && u.job.client in s.active
    ensures var r := Process(env.base, Accept(s, u), u, now);
            r.Accepted? && TookShape(env, s, r.state, r.jobs, u.job.client, Answered(u.dispatch, u.job.version))
  {
    ProcessCases(env.base, s, u, now);
    var c, taken := u.job.client, Take(env.base, Accept(s, u), u);
    assert taken.received == s.received + {u.dispatch} && taken.active == s.active - {c} && taken.model == s.model;
    assert taken.answered == s.answered + [Answered(u.dispatch, u.job.version)];
    var jobs := Process(env.base, Accept(s, u), u, now).jobs;
    assert jobs != [] ==> (s.active - {c})[c := jobs[0]] == s.active[c := jobs[0]];
    MixShape(env, taken, u, now);
    CollectShape(env, taken, u, now);
    TakeLate(env, s, u);
    hide Process, Mix, Collect, Take, OncePlaced, LateAt, Missed;
  }

  /** The controller accepts the answer of every call it is still waiting for. */
  lemma ReceiveTakes(env: LoopEnv, start: Model, s: Async, d: nat, base: Model, trained: Model, now: real, c: ClientId)
    requires AsyncOk(env.base, s) && ReceiptsOk(env.base, s) && ModelOk(env.base.cfg, start, s)
    requires c in s.active && d !in s.received
    requires Compass.SameShape(base, s.model) && Compass.SameShape(trained, s.model)
    ensures var r := Receive(env.base, s, Update(s.active[c], d, base, trained), now);
            r.Accepted? && Took(env, start, s, r.state, r.jobs, c, Answered(d, s.active[c].version))
  {
    var a := Arrival(c, d, base, trained, now);
    assert s.active[c].client == c && s.active[c].version <= s.version;
    ProcessShape(env, s, Answer(s, a), now);
    hide AsyncOk, ReceiptsOk, ModelOk, Process, TookShape, Accept;
    StepKeeps(env.base, s, a);
    StepKeepsReceipts(env.base, s, a);
    StepKeepsModel(env.base, start, s, a);
  }

  // ----- handing over -----

  /** The state right after booking call d, before the controller sees it. */
  lemma BookKeeps(env: LoopEnv, w: Loop, d: nat)
    requires CallsOk(env, w) && FitsOk(env, w) && d in w.pending
    ensures CallsOk(env, Book(w, d)) && FitsOk(env, Book(w, d)) && HasFit(Book(w, d), d)
    ensures FiledAs(Book(w, d), Answered(d, w.pending[d].job.version))
  {
    var v := Book(w, d);
    assert CallOk(env, w, d, w.pending[d]);
    BookKeepsFiled(w, d);
    hide FiledAs;
    forall e | e in v.pending
      ensures CallOk(env, v, e, v.pending[e])
    {
      assert CallOk(env, w, e, w.pending[e]);
    }
    hide CallOk, HasFit;
  }

  lemma BookKeepsFiled(w: Loop, d: nat)
    requires d in w.pending
    ensures FiledAs(Book(w, d), Answered(d, w.pending[d].job.version))
    ensures forall a | FiledAs(w, a) :: FiledAs(Book(w, d), a)
    ensures forall e :: HasFit(Book(w, d), e) <==> e == d || HasFit(w, e)
  {
    var v := Book(w, d);
    assert v.fits[|w.fits|] == Fit(d, RowOf(w.pending[d].job));
    forall e
      ensures HasFit(v, e) <==> e == d || HasFit(w, e)
    {
      assert forall i | 0 <= i < |w.fits| :: v.fits[i] == w.fits[i];
      if HasFit(w, e) {
        var i :| 0 <= i < |w.fits| && w.fits[i].dispatch == e;
        assert v.fits[i].dispatch == e;
      }
    }
    forall a | FiledAs(w, a)
      ensures FiledAs(v, a)
    {
      var i :| 0 <= i < |w.fits| && w.fits[i].dispatch == a.dispatch && w.fits[i].row.version == a.version;
      assert v.fits[i] == w.fits[i];
    }
  }

  lemma BookFlights(env: LoopEnv, w: Loop, d: nat)
    requires CallsOk(env, w) && d in w.pending && AllOut(env, w) && AsyncProofs.JobsOk(env.base, w.control)
    ensures forall c | c in env.base.order && c != w.pending[d].job.client :: InFlight(Book(w, d), c)
  {
    assert CallOk(env, w, d, w.pending[d]);
    forall c | c in env.base.order && c != w.pending[d].job.client
      ensures InFlight(Book(w, d), c)
    {
      assert InFlight(w, c);
      assert CallOk(env, w, w.sent[c], w.pending[w.sent[c]]);
    }
  }

  /** The books after the controller has taken dispatch d, which has been filed. */
  lemma TookKeepsBooks(env: LoopEnv, w: Loop, t: Async, jobs: seq<Job>, c: ClientId, a: Answered)
    requires CallsOk(env, w) && FitsOk(env, w) && FiledAs(w, a) && TookShape(env, w.control, t, jobs, c, a)
    ensures CallsOk(env, w.(control := t)) && FitsOk(env, w.(control := t))
  {
    var v := w.(control := t);
    hide Missed;
    assert HasFit(w, a.dispatch);
    TookFiled(w, t);
    forall e | e in v.pending
      ensures CallOk(env, v, e, v.pending[e])
    {
      assert CallOk(env, w, e, w.pending[e]);
      assert HasFit(w, a.dispatch) ==> a.dispatch !in w.pending;
    }
    hide HasFit, FiledAs, CallOk;
  }

  lemma TookFiled(w: Loop, t: Async)
    ensures forall e | HasFit(w, e) :: HasFit(w.(control := t), e)
    ensures forall b | FiledAs(w, b) :: FiledAs(w.(control := t), b)
  {
  }

  lemma DispatchKeeps(env: LoopEnv, start: Model, w: Loop, job: Job)
    requires w.stop.None? && !w.rejected && !w.failed && ControlOk(env, start, w.control) && CallsOk(env, w)
    requires FitsOk(env, w)
    requires Sendable(env, w, job) && forall c | c in env.base.order && c != job.client :: InFlight(w, c)
    ensures Running(env, start, Dispatch(env, w, job))
  {
    DispatchControl(env, start, w, job);
    DispatchCalls(env, w, job);
    DispatchFits(env, w, job);
    forall c | c in env.base.order
      ensures InFlight(Dispatch(env, w, job), c)
    {
      DispatchFlights(env, w, job, c);
    }
    hide ControlOk, CallsOk, FitsOk, Sendable, InFlight;
  }

  /** Sending the next job, unless the run has ended meanwhile. */
  lemma TryDispatchKeeps(env: LoopEnv, start: Model, w: Loop, job: Job)
    requires w.stop.None? && !w.rejected && !w.failed && ControlOk(env, start, w.control) && CallsOk(env, w)
    requires FitsOk(env, w)
    requires Sendable(env, w, job) && forall c | c in env.base.order && c != job.client :: InFlight(w, c)
    ensures Running(env, start, TryDispatch(env, w, job))
  {
    var checked := if env.base.budget.Some? then Tick(w) else w;
    assert AsyncProofs.JobsOk(env.base, checked.control);
    hide AsyncOk, ReceiptsOk, ModelOk, AsyncProofs.JobsOk;
    ControlLater(env, start, w.control, checked.control);
    TimeKeepsBooks(env, w, checked);
    assert forall c | InFlight(w, c) :: InFlight(checked, c);
    assert Sendable(env, checked, job);
    hide ControlOk, CallsOk, FitsOk, Sendable, InFlight, AllOut;
    if LateAt(env.base, w.control.ticks) {
      LateIsMissed(env.base, checked.control, w.control.ticks);
    } else if !Compass.AtLimit(env.limit, checked.control.version) {
      DispatchKeeps(env, start, checked, job);
    }
    hide Dispatch;
  }

  /** A call that is out answers its client's assignment while everybody is in flight. */
  lemma CallAnswers(env: LoopEnv, w: Loop, d: nat)
    requires CallsOk(env, w) && d in w.pending && AllOut(env, w)
    ensures var c := w.pending[d].job.client; c in w.control.active && w.control.active[c] == w.pending[d].job
  {
    assert CallOk(env, w, d, w.pending[d]);
    assert InFlight(w, w.pending[d].job.client);
  }

  /** What remains to be sent once the controller has taken an answer. */
  lemma TookSendable(env: LoopEnv, w: Loop, t: Async, jobs: seq<Job>, c: ClientId, a: Answered)
    requires TookShape(env, w.control, t, jobs, c, a) && jobs != [] && c in env.base.order
    requires forall e | e in w.pending :: w.pending[e].job.client != c
    requires forall b | b in env.base.order && b != c :: InFlight(w, b)
    ensures Sendable(env, w.(control := t), jobs[0])
    ensures forall b | b in env.base.order && b != jobs[0].client :: InFlight(w.(control := t), b)
  {
    hide Missed;
  }

  /** A filed call in hand whose client the controller still waits for, everybody else being in flight. */
  ghost predicate InHand(env: LoopEnv, start: Model, w: Loop, d: nat, flight: Server.Flight) {
    var c := flight.job.client;
    && w.stop.None? && !w.rejected && !w.failed
    && ControlOk(env, start, w.control) && CallsOk(env, w) && FitsOk(env, w)
    && FiledAs(w, Answered(d, flight.job.version)) && d !in w.control.received && c in env.base.order
    && c in w.control.active && w.control.active[c] == flight.job && Compass.SameShape(flight.base, w.control.model)
    && (forall e | e in w.pending :: w.pending[e].job.client != c)
    && (forall b | b in env.base.order && b != c :: InFlight(w, b))
  }

  lemma HandTick(env: LoopEnv, start: Model, w: Loop, d: nat, flight: Server.Flight)
    requires InHand(env, start, w, d, flight)
    ensures InHand(env, start, Tick(w), d, flight)
  {
    var ready := Tick(w);
    assert AsyncProofs.JobsOk(env.base, ready.control);
    hide AsyncOk, ReceiptsOk, ModelOk, AsyncProofs.JobsOk;
    ControlLater(env, start, w.control, ready.control);
    TimeKeepsBooks(env, w, ready);
    hide ControlOk, CallsOk, FitsOk;
    assert FiledAs(ready, Answered(d, flight.job.version));
    assert forall b | InFlight(w, b) :: InFlight(ready, b);
  }

  /** After the controller has taken the call there is at most one job to send, and none only past the deadline. */
  ghost predicate Handed(env: LoopEnv, start: Model, w: Loop, jobs: seq<Job>) {
    && w.stop.None? && !w.rejected && !w.failed
    && ControlOk(env, start, w.control) && CallsOk(env, w) && FitsOk(env, w)
    && if jobs == [] then Missed(env.base, w.control)
       else Sendable(env, w, jobs[0]) && forall b | b in env.base.order && b != jobs[0].client :: InFlight(w, b)
  }

  lemma HandTaken(env: LoopEnv, start: Model, w: Loop, d: nat, flight: Server.Flight, trained: Model, now: real)
    requires InHand(env, start, w, d, flight) && Compass.SameShape(trained, w.control.model)
    requires !Compass.AtLimit(env.limit, w.control.version)
    ensures var r := Receive(env.base, w.control, Update(flight.job, d, flight.base, trained), now);
            r.Accepted? && Handed(env, start, w.(control := r.state), r.jobs)
  {
    hide AsyncOk, ReceiptsOk, ModelOk, Receive, Missed;
    ReceiveTakes(env, start, w.control, d, flight.base, trained, now, flight.job.client);
    var r := Receive(env.base, w.control, Update(flight.job, d, flight.base, trained), now);
    TookKeepsBooks(env, w, r.state, r.jobs, flight.job.client, Answered(d, flight.job.version));
    assert ControlOk(env, start, r.state);
    hide ControlOk, CallsOk, FitsOk;
    if r.jobs != [] {
      TookSendable(env, w, r.state, r.jobs, flight.job.client, Answered(d, flight.job.version));
    }
  }

  /** Handing a filed call to the controller, in time and below the limit, keeps the loop running. */
  lemma HandOverKeeps(env: LoopEnv, start: Model, w: Loop, d: nat, flight: Server.Flight, trained: Model)
    requires InHand(env, start, w, d, flight) && Compass.SameShape(trained, w.control.model)
    requires !Compass.AtLimit(env.limit, w.control.version)
    ensures Running(env, start, HandOver(env, w, d, flight, trained))
  {
    HandTick(env, start, w, d, flight);
    HandTaken(env, start, Tick(w), d, flight, trained, Now(env, w));
    var r := Receive(env.base, Tick(w).control, Update(flight.job, d, flight.base, trained), Now(env, w));
    var next := Tick(w).(control := r.state);
    hide InHand, Handed, Running, TryDispatch, Receive;
    assert HandOver(env, w, d, flight, trained) == if r.jobs == [] then next else TryDispatch(env, next, r.jobs[0]);
    hide HandOver;
    HandedKeeps(env, start, next, r.jobs);
  }

  /** Sending what was handed out keeps the loop running. */
  lemma HandedKeeps(env: LoopEnv, start: Model, w: Loop, jobs: seq<Job>)
    requires Handed(env, start, w, jobs)
    ensures Running(env, start, if jobs == [] then w else TryDispatch(env, w, jobs[0]))
  {
    hide ControlOk, CallsOk, FitsOk, Sendable, InFlight, AllOut, TryDispatch, Missed;
    if jobs != [] {
      hide Running;
      TryDispatchKeeps(env, start, w, jobs[0]);
    }
  }

  lemma NotMissed(env: LoopEnv, s: Async, k: nat)
    requires ClockGoesOn(env.base) && !LateAt(env.base, k) && s.ticks <= k + 1
    ensures !Missed(env.base, s)
  {
  }

  /** The second half of an iteration. */
  lemma AwaitKeeps(env: LoopEnv, start: Model, w: Loop, choice: Server.Choice)
    requires ValidLoop(env) && Running(env, start, w) && !Compass.AtLimit(env.limit, w.control.version)
    ensures Running(env, start, Await(env, w, choice))
  {
    var w1 := Tick(w);
    TimeKeeps(env, start, w, w1);
    if Possible(w1, choice) {
      var d := choice.dispatch;
      var flight := w1.pending[d];
      var w2 := if env.base.budget.Some? then Tick(w1) else w1;
      TimeKeeps(env, start, w1, w2);
      var booked := Book(w2, d);
      BookKeeps(env, w2, d);
      assert CallOk(env, w2, d, flight);
      hide Running;
      if LateAt(env.base, w1.control.ticks) {
        LateIsMissed(env.base, booked.control, w1.control.ticks);
        BookedLate(env, start, w2, d);
      } else {
        NotMissed(env, w2.control, w1.control.ticks);
        BookedInTime(env, start, w2, d, choice.trained);
      }
    }
    hide HandOver, Running;
  }

  lemma BookedLate(env: LoopEnv, start: Model, w: Loop, d: nat)
    requires Running(env, start, w) && d in w.pending && Missed(env.base, Book(w, d).control)
    ensures Running(env, start, Book(w, d))
  {
    hide ControlOk, AllOut, Missed;
    BookKeeps(env, w, d);
  }

  lemma BookedInTime(env: LoopEnv, start: Model, w: Loop, d: nat, trained: Model)
    requires Running(env, start, w) && d in w.pending && !Missed(env.base, w.control)
    requires !Compass.AtLimit(env.limit, w.control.version) && Compass.SameShape(trained, w.control.model)
    ensures Running(env, start, HandOver(env, Book(w, d), d, w.pending[d], trained))
  {
    var booked, flight := Book(w, d), w.pending[d];
    assert CallOk(env, w, d, flight);
    assert AllOut(env, w);
    BookKeeps(env, w, d);
    BookFlights(env, w, d);
    CallAnswers(env, w, d);
    forall e | e in booked.pending
      ensures booked.pending[e].job.client != flight.job.client
    {
      assert CallOk(env, w, e, w.pending[e]);
    }
    hide HandOver, ControlOk, CallsOk, FitsOk, AllOut, InFlight;
    HandOverKeeps(env, start, booked, d, flight, trained);
  }

  // ----- the loop -----

  lemma StopKeepsControl(env: LoopEnv, start: Model, s: Async, t: Async)
    requires ReceiptsOk(env.base, s) && ModelOk(env.base.cfg, start, s) && OncePlaced(s) && RecordsOk(s)
    requires t == Stop(s).(ticks := t.ticks)
    ensures ReceiptsOk(env.base, t) && ModelOk(env.base.cfg, start, t) && OncePlaced(t) && RecordsOk(t)
  {
    SameReceipts(env.base, s, t);
    SameModel(env.base.cfg, start, s, t);
    hide ReceiptsOk, ModelOk;
    var all := s.committed + s.buffer;
    assert forall k | 0 <= k < |s.committed| :: all[k] == s.committed[k];
    assert t.committed + t.buffer == s.committed;
  }

  /** Leaving the loop for a limit that has been reached. */
  lemma ShutdownStops(env: LoopEnv, start: Model, w: Loop, reason: Server.StopReason)
    requires Running(env, start, w) && reason != Server.NoInflightUpdates
    requires reason.TimeBudget? ==> env.base.budget.Some? && Missed(env.base, w.control)
    requires reason.GlobalUpdateLimit? ==> Compass.AtLimit(env.limit, w.control.version)
    ensures Stopped(env, start, Shutdown(w, reason))
  {
    var v := Shutdown(w, reason);
    StopKeepsControl(env, start, w.control, v.control);
    if Missed(env.base, w.control) {
      MissedStays(env.base, w.control, v.control);
    }
    hide ReceiptsOk, ModelOk, OncePlaced, RecordsOk, Missed, AsyncOk, CallsOk, FitsOk, AllOut;
    SameBooksKeep(env, w, v);
  }

  lemma EvaluateKeeps(env: LoopEnv, start: Model, w: Loop)
    requires Running(env, start, w)
    ensures Running(env, start, Evaluate(env, w))
  {
    TimeKeeps(env, start, w, Evaluate(env, w));
    hide Running;
  }

  /** One iteration keeps the loop running, or leaves it for one of the two limits. */
  lemma TurnKeeps(env: LoopEnv, start: Model, w: Loop, choice: Server.Choice)
    requires ValidLoop(env) && Running(env, start, w)
    ensures var v := Turn(env, w, choice); Running(env, start, v) || Stopped(env, start, v)
  {
    var w1 := Tick(w);
    TimeKeeps(env, start, w, w1);
    hide Running, Stopped, Shutdown, Evaluate, Await;
    if LateAt(env.base, w.control.ticks) {
      LateIsMissed(env.base, w1.control, w.control.ticks);
      ShutdownStops(env, start, w1, Server.TimeBudget);
    } else if Compass.AtLimit(env.limit, w1.control.version) {
      ShutdownStops(env, start, w1, Server.GlobalUpdateLimit);
    } else {
      EvaluateKeeps(env, start, w1);
      AwaitKeeps(env, start, w1, choice);
    }
  }

  /** While the run has not ended some call is out. */
  lemma SomebodyOut(env: LoopEnv, start: Model, w: Loop)
    requires ValidLoop(env) && Running(env, start, w) && w.pending == map[]
    ensures Ended(env, w)
  {
    assert Ended(env, w) || InFlight(w, env.base.order[0]);
  }

  lemma SettleStops(env: LoopEnv, start: Model, w: Loop)
    requires ValidLoop(env) && Running(env, start, w) && w.pending == map[]
    ensures Stopped(env, start, Settle(env, w))
  {
    SomebodyOut(env, start, w);
    var w1 := if env.base.budget.Some? then Tick(w) else w;
    TimeKeeps(env, start, w, w1);
    if Missed(env.base, w.control) {
      var k: nat :| k < w.control.ticks && LateAt(env.base, k);
      assert LateAt(env.base, w.control.ticks);
    }
    hide Running, Stopped, Shutdown;
    if LateAt(env.base, w.control.ticks) {
      LateIsMissed(env.base, w1.control, w.control.ticks);
      ShutdownStops(env, start, w1, Server.TimeBudget);
    } else {
      ShutdownStops(env, start, w1, Server.GlobalUpdateLimit);
    }
  }

  lemma DrainKeeps(env: LoopEnv, start: Model, w: Loop, choice: Server.Choice)
    requires Stopped(env, start, w)
    ensures Stopped(env, start, Drain(w, choice))
  {
    if Possible(w, choice) {
      BookKeeps(env, w, choice.dispatch);
    }
    hide CallsOk, FitsOk;
  }

  // ----- the start -----

  /** Starting later starts the same jobs. */
  lemma {:induction false} StartTicks(cfg: AsyncConfig, s: Async, cs: seq<ClientId>, now: real, ticks: nat)
    ensures var (t, jobs) := StartAll(cfg, s, cs, now);
            StartAll(cfg, s.(ticks := ticks), cs, now) == (t.(ticks := ticks), jobs)
  {
    if cs != [] {
      StartTicks(cfg, s, DropLast(cs), now, ticks);
    }
  }

  /** The jobs handed out are the clients' assignments, one each, in order. */
  lemma {:induction false} StartJobs(cfg: AsyncConfig, s: Async, cs: seq<ClientId>, now: real)
    requires Distinct(cs)
    ensures var (t, jobs) := StartAll(cfg, s, cs, now);
            forall k | 0 <= k < |cs| ::
              && jobs[k].client == cs[k] && jobs[k].steps == cfg.steps
              && cs[k] in t.active && t.active[cs[k]] == jobs[k]
  {
    if cs != [] {
      StartJobs(cfg, s, DropLast(cs), now);
      assert forall k | 0 <= k < |cs| - 1 :: DropLast(cs)[k] == cs[k] && cs[k] != Last(cs);
    }
  }

  lemma StartedControl(env: LoopEnv, model: Model, now: real, ticks: nat)
    requires ValidLoop(env)
    ensures var r := Initialize(env.base, New(model).(ticks := ticks), now);
            && r.Accepted? && ControlOk(env, model, r.state) && |r.jobs| == |env.base.order| && r.state.received == {}
            && r.state.answered == []
            && forall k | 0 <= k < |r.jobs| ::
                 && r.jobs[k].client == env.base.order[k] && r.jobs[k].steps == env.base.cfg.steps
                 && r.jobs[k].client in r.state.active && r.state.active[r.jobs[k].client] == r.jobs[k]
  {
    var s0 := New(model).(initialized := true);
    StartTicks(env.base.cfg, s0, env.base.order, now, ticks);
    StartJobs(env.base.cfg, s0, env.base.order, now);
    StartAllKeeps(env.base.cfg, s0, env.base.order, now);
    StartKeeps(env.base, model, now);
    RunKeepsReceipts(env.base, model, now, []);
    var s := AsyncFL.Run(env.base, model, now, []);
    assert AsyncProofs.JobsOk(env.base, s);
    hide AsyncOk, ReceiptsOk, ModelOk, StartAll;
    ControlLater(env, model, s, s.(ticks := ticks));
  }

  /** The first n jobs have been sent, the others are ready. */
  ghost predicate SentUpTo(env: LoopEnv, model: Model, w: Loop, jobs: seq<Job>, n: nat) {
    && n <= |jobs| && w.stop.None? && !w.rejected && !w.failed
    && ControlOk(env, model, w.control) && CallsOk(env, w) && FitsOk(env, w)
    && (forall k | 0 <= k < n :: InFlight(w, jobs[k].client))
    && (forall k | n <= k < |jobs| :: Sendable(env, w, jobs[k]))
    && |w.dispatches| == n && forall k | 0 <= k < n :: w.dispatches[k].client == jobs[k].client
  }

  lemma SendOneMore(env: LoopEnv, model: Model, w: Loop, jobs: seq<Job>, n: nat)
    requires SentUpTo(env, model, w, jobs, n) && n < |jobs|
    requires forall j, k :: 0 <= j < k < |jobs| ==> jobs[j].client != jobs[k].client
    ensures SentUpTo(env, model, Dispatch(env, w, jobs[n]), jobs, n + 1)
  {
    DispatchControl(env, model, w, jobs[n]);
    DispatchCalls(env, w, jobs[n]);
    DispatchFits(env, w, jobs[n]);
    var v := Dispatch(env, w, jobs[n]);
    hide ControlOk, CallsOk, FitsOk, InFlight, Sendable;
    forall k | 0 <= k <= n
      ensures InFlight(v, jobs[k].client)
    {
      DispatchFlights(env, w, jobs[n], jobs[k].client);
    }
    forall k | n < k < |jobs|
      ensures Sendable(env, v, jobs[k])
    {
      StillSendable(env, w, jobs[n], jobs[k]);
    }
  }

  lemma StillSendable(env: LoopEnv, w: Loop, job: Job, other: Job)
    requires Sendable(env, w, other) && other.client != job.client
    ensures Sendable(env, Dispatch(env, w, job), other)
  {
  }

  lemma {:induction false} SendAll(env: LoopEnv, model: Model, w: Loop, jobs: seq<Job>, n: nat)
    requires SentUpTo(env, model, w, jobs, 0) && n <= |jobs|
    requires forall j, k :: 0 <= j < k < |jobs| ==> jobs[j].client != jobs[k].client
    ensures SentUpTo(env, model, DispatchAll(env, w, jobs[..n]), jobs, n)
  {
    hide SentUpTo, Dispatch;
    if n > 0 {
      SendAll(env, model, w, jobs, n - 1);
      SendOneMore(env, model, DispatchAll(env, w, jobs[..n - 1]), jobs, n - 1);
      assert DropLast(jobs[..n]) == jobs[..n - 1];
    }
  }

  /** Every client has been sent a job, or nobody has. */
  ghost predicate Everybody(env: LoopEnv, w: Loop) {
    w.dispatches == [] || forall c | c in env.base.order :: exists k ::
          0 <= k < |w.dispatches| && w.dispatches[k].client == c
  }

  /** The jobs of a fresh start, before any of them is sent. */
  lemma LaunchStarts(env: LoopEnv, model: Model, w: Loop, now: real)
    requires ValidLoop(env) && w.control == New(model).(ticks := w.control.ticks)
    requires w.stop.None? && !w.rejected && !w.failed && w.pending == map[] && w.dispatches == [] && w.fits == []
    ensures var r := Initialize(env.base, w.control, now);
            && r.Accepted? && SentUpTo(env, model, w.(control := r.state), r.jobs, 0)
            && |r.jobs| == |env.base.order| && forall k | 0 <= k < |r.jobs| :: r.jobs[k].client == env.base.order[k]
  {
    StartedControl(env, model, now, w.control.ticks);
    hide ControlOk, Initialize;
    var r := Initialize(env.base, w.control, now);
    var v := w.(control := r.state);
    assert forall k | 0 <= k < |r.jobs| :: Sendable(env, v, r.jobs[k]);
    hide Sendable;
  }

  /** Once all jobs have been sent everybody is in flight. */
  lemma AllSent(env: LoopEnv, model: Model, w: Loop, jobs: seq<Job>)
    requires SentUpTo(env, model, w, jobs, |jobs|) && |jobs| == |env.base.order|
    requires forall k | 0 <= k < |jobs| :: jobs[k].client == env.base.order[k]
    ensures Running(env, model, w) && Everybody(env, w)
  {
    hide ControlOk, CallsOk, FitsOk, InFlight;
    forall c | c in env.base.order
      ensures InFlight(w, c) && exists k :: 0 <= k < |w.dispatches| && w.dispatches[k].client == c
    {
      var k :| 0 <= k < |env.base.order| && env.base.order[k] == c;
      assert jobs[k].client == c && w.dispatches[k].client == c;
    }
  }

  lemma LaunchKeeps(env: LoopEnv, model: Model, w: Loop)
    requires ValidLoop(env) && w.control == New(model).(ticks := w.control.ticks)
    requires w.stop.None? && !w.rejected && !w.failed && w.pending == map[] && w.dispatches == [] && w.fits == []
    ensures Running(env, model, Launch(env, w)) && Everybody(env, Launch(env, w))
  {
    var now, w1 := Now(env, w), Tick(w);
    assert w1.control == New(model).(ticks := w1.control.ticks);
    hide SentUpTo, Initialize, Running, Everybody, DispatchAll, ValidLoop;
    LaunchStarts(env, model, w1, now);
    var r := Initialize(env.base, w1.control, now);
    var started := w1.(control := r.state);
    assert Launch(env, w) == DispatchAll(env, started, r.jobs);
    LaunchSends(env, model, started, r.jobs);
  }

  lemma LaunchSends(env: LoopEnv, model: Model, w: Loop, jobs: seq<Job>)
    requires ValidLoop(env) && SentUpTo(env, model, w, jobs, 0) && |jobs| == |env.base.order|
    requires forall k | 0 <= k < |jobs| :: jobs[k].client == env.base.order[k]
    ensures Running(env, model, DispatchAll(env, w, jobs)) && Everybody(env, DispatchAll(env, w, jobs))
  {
    hide SentUpTo, Running, Everybody, DispatchAll;
    SendAll(env, model, w, jobs, |jobs|);
    assert jobs[..|jobs|] == jobs;
    AllSent(env, model, DispatchAll(env, w, jobs), jobs);
  }

  lemma BeginKeeps(env: LoopEnv, model: Model)
    requires ValidLoop(env)
    ensures Running(env, model, Begin(env, model)) && Everybody(env, Begin(env, model))
  {
    var w := Evaluate(env, Empty(model));
    var w1 := if env.base.budget.Some? then Tick(w) else w;
    assert w1.control == New(model).(ticks := w1.control.ticks);
    if LateAt(env.base, w.control.ticks) {
      LateIsMissed(env.base, w1.control, w.control.ticks);
      NewModelOk(env.base.cfg, model, w1.control);
      hide ModelOk;
    } else {
      hide Running, Everybody;
      LaunchKeeps(env, model, w1);
    }
  }

  lemma NewModelOk(cfg: AsyncConfig, model: Model, s: Async)
    requires s == New(model).(ticks := s.ticks)
    ensures ModelOk(cfg, model, s)
  {
    hide Mul;
    MulLaws(cfg.rate / cfg.size as real, 0.0, 0.0);
  }

  // ----- whole runs -----

  lemma {:induction false} RunKeeps(env: LoopEnv, model: Model, script: seq<Server.Choice>)
    requires ValidLoop(env)
    ensures var w := RunLoop(env, model, script); Running(env, model, w) || Stopped(env, model, w)
  {
    if script == [] {
      BeginKeeps(env, model);
    } else {
      RunKeeps(env, model, DropLast(script));
      var w := RunLoop(env, model, DropLast(script));
      assert Running(env, model, w) ==> w.stop.None?;
      assert Stopped(env, model, w) ==> w.stop.Some?;
      hide Running, Stopped, Turn, Settle, Drain, RunLoop;
      if w.stop.Some? {
        DrainKeeps(env, model, w, Last(script));
      } else if w.pending != map[] {
        TurnKeeps(env, model, w, Last(script));
      } else {
        SettleStops(env, model, w);
      }
    }
    hide Begin, Turn, Settle, Drain;
  }

  /** The asynchronous loop never runs dry: it is left only for the budget or the update limit, no update is
      refused or fails, and the version never passes the limit; an untimed run stops exactly there. */
  lemma NeverRunsDry(env: LoopEnv, model: Model, script: seq<Server.Choice>)
    requires ValidLoop(env)
    ensures var w := RunLoop(env, model, script);
            && w.stop != Some(Server.NoInflightUpdates) && !w.rejected && !w.failed
            && (env.limit.Some? ==> w.control.version <= env.limit.value)
            && (env.limit.Some? && w.stop.Some? ==> w.control.version == env.limit.value)
            && (w.stop == Some(Server.TimeBudget) ==> env.base.budget.Some? && Missed(env.base, w.control))
            && (w.stop.None? && w.pending == map[] ==> Ended(env, w))
  {
    RunKeeps(env, model, script);
    var w := RunLoop(env, model, script);
    if w.stop.None? && w.pending == map[] {
      SomebodyOut(env, model, w);
    }
    hide RunLoop, CallsOk, FitsOk, ReceiptsOk, ModelOk, AsyncOk;
  }

  /** Until a limit is reached every client has exactly one call out, for its own assignment. */
  lemma OneCallEach(env: LoopEnv, model: Model, script: seq<Server.Choice>)
    requires ValidLoop(env)
    ensures var w := RunLoop(env, model, script);
            w.stop.None? && !Ended(env, w) ==>
              && (forall c | c in env.base.order :: InFlight(w, c))
              && (forall d | d in w.pending ::
                    var c := w.pending[d].job.client; c in env.base.order && c in w.sent && w.sent[c] == d)
  {
    RunKeeps(env, model, script);
    var w := RunLoop(env, model, script);
    hide RunLoop, FitsOk, ControlOk;
    assert CallsOk(env, w);
    forall d | d in w.pending
      ensures var c := w.pending[d].job.client; c in env.base.order && c in w.sent && w.sent[c] == d
    {
      assert CallOk(env, w, d, w.pending[d]);
    }
  }
}
