/** Committed models and dispatch rows are never rewritten: later states extend earlier ones. */
module GrowthProofs {
  import opened Common
  import opened Scheduling
  import opened Compass
  import opened Server

  lemma CloseHistory(env: Env, s: Controller, gid: nat, now: real, reason: Reason)
    ensures s.history <= Close(env, s, gid, now, reason).0.history
  {
    hide AssignAll, MergeArrived, MarkAll, MarkCommitted, Merge, BySpeed;
  }

  lemma ReceiveHistory(env: Env, s: Controller, u: Update, now: real)
    ensures var r := Receive(env, s, u, now); r.Accepted? ==> s.history <= r.state.history
  {
    hide AssignAll, MarkAll, MarkCommitted, Merge, LearnSpeed, Close, Put;
    if Expected(s, u, now) && u.job.group.Some? {
      var s1 := Retire(env.cfg, s, u.job, now);
      var gid := u.job.group.value;
      if !MissedGroup(s1.fleet, gid, now) {
        CloseHistory(env, Arrive(s1, gid, u), gid, now, GroupComplete);
      }
    }
  }

  lemma ExpireOneHistory(env: Env, s: Controller, now: real, gid: nat)
    ensures s.history <= ExpireOne(env, s, now, gid).state.history
  {
    hide Close;
    CloseHistory(env, s, gid, now, GroupDeadline);
    CloseHistory(env, s.(ticks := s.ticks + 1), gid, now, GroupDeadline);
  }

  lemma PrefixTrans(a: seq<Model>, b: seq<Model>, c: seq<Model>)
    requires a <= b && b <= c
    ensures a <= c
  {
  }

  lemma {:induction false} ExpireHistory(env: Env, s: Controller, now: real, known: set<nat>, n: nat)
    ensures s.history <= ExpireBelow(env, s, now, known, n).state.history
  {
    hide ExpireOne;
    if n > 0 {
      ExpireHistory(env, s, now, known, n - 1);
      var before := ExpireBelow(env, s, now, known, n - 1).state;
      ExpireOneHistory(env, before, now, n - 1);
      PrefixTrans(s.history, before.history, ExpireOne(env, before, now, n - 1).state.history);
    }
  }

  /** `w'` has every committed model and every dispatch row of `w`, in the same places. */
  ghost predicate Appends(w: World, w': World) {
    w.control.history <= w'.control.history && w.dispatches <= w'.dispatches
  }

  lemma AppendsTrans(w: World, w1: World, w2: World)
    requires Appends(w, w1) && Appends(w1, w2)
    ensures Appends(w, w2)
  {
  }

  lemma {:induction false} DispatchAllAppends(env: Env, w: World, jobs: seq<Job>, checkClock: bool)
    ensures Appends(w, DispatchAll(env, w, jobs, checkClock))
  {
    if jobs != [] {
      DispatchAllAppends(env, w, DropLast(jobs), checkClock);
      AppendsTrans(w, DispatchAll(env, w, DropLast(jobs), checkClock), DispatchAll(env, w, jobs, checkClock));
    }
  }

  lemma ConsumeAppends(env: Env, w: World, id: nat, trained: Model, at: real, accepting: bool)
    requires id in w.pending
    ensures Appends(w, Consume(env, w, id, trained, at, accepting).0)
  {
    hide Receive;
    if accepting {
      var Flight(job, base) := w.pending[id];
      var receipt := Receipt(job.client, job.steps, job.version, job.group, DiscardedAtStop);
      var s := w.control.(receipts := w.control.receipts[id := receipt], ticks := w.control.ticks + 1);
      ReceiveHistory(env, s, Update(job, id, base, trained), Now(env, w));
    }
  }

  lemma AwaitAppends(env: Env, w: World, choice: Choice)
    ensures Appends(w, Await(env, w, choice))
  {
    hide Consume, DispatchAll;
    var w1 := Tick(w);
    if Possible(w1, choice) {
      var accepting := env.budget.None? || Now(env, w1) < env.budget.value;
      var w2 := if env.budget.Some? then Tick(w1) else w1;
      ConsumeAppends(env, w2, choice.dispatch, choice.trained, choice.at, accepting);
      var (w3, jobs) := Consume(env, w2, choice.dispatch, choice.trained, choice.at, accepting);
      DispatchAllAppends(env, w3, jobs, true);
    }
  }

  lemma SweepAppends(env: Env, w: World, now: real)
    ensures var sweep := Expire(env, w.control, now);
            Appends(w, DispatchAll(env, w.(control := sweep.state), sweep.jobs, false))
  {
    hide ExpireBelow, DispatchAll;
    var s := w.control;
    ExpireHistory(env, s, now, s.fleet.groups.Keys, s.fleet.nextGroup);
    var sweep := Expire(env, s, now);
    DispatchAllAppends(env, w.(control := sweep.state), sweep.jobs, false);
  }

  lemma ShutdownAppends(w: World, reason: StopReason)
    ensures Appends(w, Shutdown(w, reason))
  {
    hide MarkAll, MarkGroups;
  }

  lemma EvaluateAppends(env: Env, w: World)
    ensures Appends(w, Evaluate(env, w))
  {
  }

  lemma TurnAppends(env: Env, w: World, choice: Choice)
    ensures Appends(w, Turn(env, w, choice))
  {
    var now := Now(env, w);
    var w1 := Tick(w);
    assert Appends(w, w1);
    hide Expire, DispatchAll, Await, Shutdown, Evaluate;
    var sweep := Expire(env, w1.control, now);
    var w2 := DispatchAll(env, w1.(control := sweep.state), sweep.jobs, false);
    SweepAppends(env, w1, now);
    ShutdownAppends(w1, TimeBudget);
    ShutdownAppends(w1, GlobalUpdateLimit);
    EvaluateAppends(env, w2);
    AwaitAppends(env, w2, choice);
  }

  lemma StepAppends(env: Env, w: World, choice: Choice)
    ensures Appends(w, Step(env, w, choice))
  {
    hide Turn, MarkAll, MarkGroups, Consume;
    TurnAppends(env, w, choice);
    if Possible(w, choice) {
      ConsumeAppends(env, w, choice.dispatch, choice.trained, choice.at, false);
    }
  }

  /** A later state of a run extends every earlier one. */
  lemma {:induction false} RunAppends(env: Env, model: Model, script: seq<Choice>, n: nat)
    requires n <= |script|
    ensures Appends(Run(env, model, script[..n]), Run(env, model, script))
  {
    if n == |script| {
      assert script[..n] == script;
    } else {
      RunAppends(env, model, DropLast(script), n);
      assert DropLast(script)[..n] == script[..n];
      var w := Run(env, model, DropLast(script));
      StepAppends(env, w, Last(script));
      AppendsTrans(Run(env, model, script[..n]), w, Run(env, model, script));
    }
    hide Step, Begin;
  }

  lemma {:induction false} DispatchFirstRows(env: Env, w: World, jobs: seq<Job>)
    requires w.dispatches == []
    ensures var w' := DispatchFirst(env, w, jobs);
            |w'.dispatches| == |jobs| && forall k | 0 <= k < |jobs| :: w'.dispatches[k].client == jobs[k].client
  {
    if jobs != [] {
      DispatchFirstRows(env, w, DropLast(jobs));
      assert jobs == DropLast(jobs) + [Last(jobs)];
    }
  }

  lemma {:induction false} StartAllClients(cfg: Config, f: Fleet, cs: seq<ClientId>, now: real)
    ensures forall k | 0 <= k < |cs| :: StartAll(cfg, f, cs, now).1[k].client == cs[k]
  {
    if cs != [] {
      StartAllClients(cfg, f, DropLast(cs), now);
    }
  }

  /** A run that dispatches anything has dispatched a job to every client. */
  lemma BeginRows(env: Env, model: Model)
    ensures var w := Begin(env, model);
            w.dispatches == [] || forall c | c in env.order :: exists k ::
                  0 <= k < |w.dispatches| && w.dispatches[k].client == c
  {
    var w0 := Evaluate(env, EmptyWorld(model));
    var w := if env.budget.Some? then Tick(w0) else w0;
    var w1 := Tick(w);
    var (fleet, jobs) := StartAll(env.cfg, w1.control.fleet, env.order, Now(env, w));
    StartAllClients(env.cfg, w1.control.fleet, env.order, Now(env, w));
    var w2 := w1.(control := w1.control.(fleet := fleet));
    DispatchFirstRows(env, w2, jobs);
    hide StartAll, DispatchFirst;
    var done := DispatchFirst(env, w2, jobs);
    assert forall c | c in env.order :: exists k :: 0 <= k < |jobs| && jobs[k].client == c by {
      forall c | c in env.order ensures exists k :: 0 <= k < |jobs| && jobs[k].client == c {
        var k :| 0 <= k < |env.order| && env.order[k] == c;
        assert jobs[k].client == c;
      }
    }
    assert forall k | 0 <= k < |jobs| :: done.dispatches[k].client == jobs[k].client;
  }
}
