/** The main results about FedCompass runs, for every clock, every order of arrivals and every model. */
module RunTheorems {
  import opened Common
  import opened Scheduling
  import opened Compass
  import opened FleetProofs
  import opened BooksProofs
  import opened CompassProofs
  import opened SweepProofs
  import opened Server
  import opened ServerInvariants
  import opened ServerProofs
  import opened RunProofs
  import opened GrowthProofs

  // ----- the loop never runs dry -----

  /** The loop is only ever left for the time budget or the update limit, no update is refused, no
      operation throws, and the version never passes the limit; an untimed run stops exactly there. */
  lemma NeverRunsDry(env: Env, model: Model, script: seq<Choice>)
    requires ServerEnv(env)
    ensures var w := Run(env, model, script);
            && w.stop != Some(NoInflightUpdates)
            && !w.rejected && !w.control.fleet.raised
            && (env.limit.Some? ==> w.control.version <= env.limit.value)
            && (w.stop == Some(GlobalUpdateLimit) ==> env.limit == Some(w.control.version))
            && (w.stop == Some(TimeBudget) ==> env.budget.Some? && Overdue(env, w.control))
            && (env.limit.Some? && w.stop.Some? ==> env.limit.value == w.control.version)
            && (w.stop.None? && !LoopOpen(w) ==> Ended(env, w))
  {
    RunKeeps(env, model, script);
    var w := Run(env, model, script);
    hide Run, Books, Accounts;
    if w.stop.None? {
      assert FleetFits(env.cfg, Ids(env), w.control.fleet);
      hide FleetFits, Alive;
      if !Ended(env, w) {
        ServedLoopOpen(env, w);
      }
    }
  }

  /** The end of a run evaluates the model that was frozen at the stop: neither the final evaluation nor the second
      stop changes the model, its version, the receipts or the records. */
  lemma FinishKeeps(env: Env, model: Model, script: seq<Choice>)
    requires ServerEnv(env) && Over(Run(env, model, script))
    ensures var w := Run(env, model, script);
            var final := Finish(env, w);
            && final.control == w.control.(ticks := w.control.ticks + 1)
            && |final.evaluations| == |w.evaluations| + 1
            && Last(final.evaluations).version == w.control.version
  {
    RunKeeps(env, model, script);
    var w := Run(env, model, script);
    assert w.control.buffer == [] && w.control.fleet.groups == map[] && w.control.fleet.active == map[];
    hide Run, Stopped, Stop, Ready;
    StopAgain(w.control.(ticks := w.control.ticks + 1));
  }

  /** Stopping an empty controller changes nothing. */
  lemma StopAgain(s: Controller)
    requires s.buffer == [] && s.fleet.groups == map[] && s.fleet.active == map[]
    ensures Stop(s) == s
  {
    NoGroups(s.receipts, s.fleet.nextGroup);
  }

  lemma {:induction false} NoGroups(rs: map<nat, Receipt>, n: nat)
    ensures MarkGroups(rs, map[], n) == rs
  {
    if n > 0 {
      NoGroups(rs, n - 1);
    }
  }

  // ----- fleet conservation -----

  ghost predicate WaitsIn(f: Fleet, c: ClientId, g: nat) {
    g in f.groups && !f.groups[g].closed && c in Clients(f.groups[g].arrived)
  }

  ghost predicate Out(w: World, c: ClientId, d: nat) {
    d in w.pending && w.pending[d].job.client == c
  }

  /** One place for the client: exactly one call out that answers its assignment, or one open group. */
  ghost predicate OnePlace(w: World, c: ClientId) {
    var f := w.control.fleet;
    && (c in f.active <==> exists d :: Out(w, c, d))
    && (forall d, e | Out(w, c, d) && Out(w, c, e) :: d == e)
    && (forall d | Out(w, c, d) :: f.active[c] == w.pending[d].job)
    && (c in f.active <==> !exists g :: WaitsIn(f, c, g))
    && (forall g, h | WaitsIn(f, c, g) && WaitsIn(f, c, h) :: g == h)
  }

  lemma PlacedOnce(env: Env, w: World, c: ClientId)
    requires ValidEnv(env) && Running(env, w) && Coupled(env, w, []) && Complete(Ids(env), w.control.fleet)
    requires c in Ids(env)
    ensures OnePlace(w, c)
  {
    var f := w.control.fleet;
    assert JobsOk(env.cfg, Ids(env), f) && Apart(f);
    forall g | WaitsIn(f, c, g) ensures c !in f.active {
      assert GroupOk(Ids(env), f, g, f.groups[g]);
    }
    if c in f.active {
      assert InFlight(w, c);
      assert Out(w, c, w.sent[c]);
    } else {
      assert Waiting(f, c);
      var g :| g in f.groups && !f.groups[g].closed && c in Clients(f.groups[g].arrived);
      assert WaitsIn(f, c, g);
    }
    assert forall g, h | WaitsIn(f, c, g) && h in f.groups && h != g :: c !in Clients(f.groups[h].arrived);
  }

  /** Until a limit is reached every client has exactly one call out or waits in exactly one open group;
      a call's group exists and expects that client, and no client is expected in two groups. */
  lemma FleetConservation(env: Env, model: Model, script: seq<Choice>)
    requires ServerEnv(env)
    ensures var w := Run(env, model, script);
            var f := w.control.fleet;
            w.stop.None? && !Ended(env, w) ==>
              && (forall c | c in env.order :: OnePlace(w, c))
              && (forall d | d in w.pending && w.pending[d].job.group.Some? ::
                    w.pending[d].job.group.value in f.groups
                    && w.pending[d].job.client in f.groups[w.pending[d].job.group.value].pending)
              && (forall g, h | g in f.groups && h in f.groups && g != h :: f.groups[g].pending !! f.groups[h].pending)
              && (forall g | g in f.groups && !f.groups[g].closed && f.groups[g].pending == {} ::
                    f.groups[g].deadline < Latest(env, w))
  {
    RunKeeps(env, model, script);
    var w := Run(env, model, script);
    var f := w.control.fleet;
    hide Run;
    if w.stop.None? && !Ended(env, w) {
      assert Ids(env) == set c | c in env.order;
      forall c | c in env.order ensures OnePlace(w, c) {
        PlacedOnce(env, w, c);
      }
      hide OnePlace, Books, Accounts, Latest;
      PendingApart(env, f);
      assert JobsOk(env.cfg, Ids(env), f);
    }
  }

  lemma PendingApart(env: Env, f: Fleet)
    requires FleetFits(env.cfg, Ids(env), f)
    ensures forall g, h | g in f.groups && h in f.groups && g != h :: f.groups[g].pending !! f.groups[h].pending
  {
    forall g, h | g in f.groups && h in f.groups && g != h ensures f.groups[g].pending !! f.groups[h].pending {
      assert GroupOk(Ids(env), f, g, f.groups[g]) && GroupOk(Ids(env), f, h, f.groups[h]);
    }
  }

  // ----- deadlines and the number of groups -----

  lemma {:induction false} DisjointCount(parts: map<nat, set<ClientId>>, whole: set<ClientId>)
    requires forall g | g in parts :: parts[g] != {} && parts[g] <= whole
    requires forall g, h | g in parts && h in parts && g != h :: parts[g] !! parts[h]
    ensures |parts| <= |whole|
    decreases |parts|
  {
    if parts != map[] {
      var g :| g in parts;
      var rest := parts - {g};
      assert |rest| == |parts| - 1 by { assert rest.Keys == parts.Keys - {g}; }
      DisjointCount(rest, whole - parts[g]);
      assert |whole - parts[g]| == |whole| - |parts[g]|;
      assert |parts[g]| > 0;
    }
  }

  lemma KeptGroupsCount(env: Env, s: Controller, now: real)
    requires ControllerOk(env, s, now, []) && forall g | g in s.fleet.groups :: Kept(s.fleet.groups[g], now)
    ensures |s.fleet.groups| <= |Ids(env)|
  {
    var groups := s.fleet.groups;
    var parts := map g | g in groups :: groups[g].pending;
    assert parts.Keys == groups.Keys;
    assert JobsOk(env.cfg, Ids(env), s.fleet);
    forall g | g in groups ensures groups[g].pending != {} && groups[g].pending <= Ids(env) {
      assert GroupOk(Ids(env), s.fleet, g, groups[g]);
    }
    PendingApart(env, s.fleet);
    DisjointCount(parts, Ids(env));
  }

  /** After a sweep that was not interrupted every open group ends later, and each remaining group still
      expects a client of its own: there are at most as many groups as clients. */
  lemma SweepBounds(env: Env, s: Controller, now: real)
    requires ValidEnv(env) && ControllerOk(env, s, now, [])
    ensures var r := Expire(env, s, now);
            !r.stopped ==>
              && (NextDeadline(r.state).Some? ==> NextDeadline(r.state).value > now)
              && |r.state.fleet.groups| <= |Ids(env)|
              && (forall g | g in r.state.fleet.groups :: r.state.fleet.groups[g].pending != {})
  {
    ExpireKeeps(env, s, now);
    hide Expire, Books;
    var r := Expire(env, s, now);
    if !r.stopped {
      KeptGroupsCount(env, r.state, now);
      forall g | g in r.state.fleet.groups ensures r.state.fleet.groups[g].pending != {} {
        assert Kept(r.state.fleet.groups[g], now);
      }
    }
  }

  // ----- what was dispatched -----

  /** If the budget was spent before the first dispatch, nothing is ever dispatched. */
  lemma {:induction false} NothingOut(env: Env, model: Model, script: seq<Choice>)
    requires ValidEnv(env) && Begin(env, model).dispatches == []
    ensures var w := Run(env, model, script); w.dispatches == []
  {
    if script != [] {
      NothingOut(env, model, DropLast(script));
      RunKeeps(env, model, DropLast(script));
      NothingIdles(env, Run(env, model, DropLast(script)), Last(script));
    }
    hide Begin, Step, Ready, Stopped;
  }

  lemma NothingIdles(env: Env, w: World, choice: Choice)
    requires w.dispatches == [] && (Ready(env, w, []) || Stopped(env, w))
    ensures Step(env, w, choice).dispatches == []
  {
    FlightsNumbered(env, w);
    assert w.pending == map[];
    if w.stop.None? {
      NothingWaits(env, w);
    }
    hide Turn, Ready, Stopped, Stop;
  }

  lemma FlightsNumbered(env: Env, w: World)
    requires Accounts(env, w)
    ensures forall d | d in w.pending :: 1 <= d <= |w.dispatches|
  {
    forall d | d in w.pending ensures 1 <= d <= |w.dispatches| {
      assert FlightOk(env, w, d, w.pending[d]);
    }
  }

  lemma NothingWaits(env: Env, w: World)
    requires w.dispatches == [] && w.pending == map[] && Running(env, w)
    ensures !LoopOpen(w)
  {
    forall g | g in w.control.fleet.groups ensures w.control.fleet.groups[g].arrived == [] {
      var us := w.control.fleet.groups[g].arrived;
      assert us != [] ==> us[0] in us;
      assert forall u | u in us :: Filed(env, w.control, u) && u.dispatch in w.control.receipts;
      assert forall d | d in w.control.receipts :: 1 <= d <= |w.dispatches|;
    }
  }

  /** A run that dispatches anything at all has dispatched a job to every client. */
  lemma RunRows(env: Env, model: Model, script: seq<Choice>)
    requires ValidEnv(env)
    ensures var w := Run(env, model, script);
            w.dispatches == [] || forall c | c in env.order :: exists k ::
                  0 <= k < |w.dispatches| && w.dispatches[k].client == c
  {
    var w := Run(env, model, script);
    var first := Run(env, model, []);
    BeginRows(env, model);
    RunAppends(env, model, script, 0);
    assert script[..0] == [];
    hide Begin, Step;
    if first.dispatches == [] {
      NothingOut(env, model, script);
    } else {
      forall c | c in env.order ensures exists k :: 0 <= k < |w.dispatches| && w.dispatches[k].client == c {
        var k :| 0 <= k < |first.dispatches| && first.dispatches[k].client == c;
        assert w.dispatches[k].client == c;
      }
    }
  }

  // ----- models and versions -----

  /** The model after `script` at the version it had after the first `n` choices is the model it had then:
      models change only with the version, and every call out carries the model of its recorded version. */
  lemma VersionNamesModel(env: Env, model: Model, script: seq<Choice>, n: nat)
    requires ServerEnv(env) && n <= |script|
    ensures var early := Run(env, model, script[..n]);
            var late := Run(env, model, script);
            && early.control.version <= late.control.version
            && early.control.version < |late.control.history|
            && late.control.history[early.control.version] == early.control.model
            && (early.control.version == late.control.version ==> early.control.model == late.control.model)
            && (forall d | d in late.pending ::
                  late.pending[d].job.version < |late.control.history|
                  && late.pending[d].base == late.control.history[late.pending[d].job.version])
            && |late.control.history| == late.control.version + 1
  {
    RunKeeps(env, model, script[..n]);
    RunKeeps(env, model, script);
    RunAppends(env, model, script, n);
    var early := Run(env, model, script[..n]);
    var late := Run(env, model, script);
    RunLineage(env, early);
    RunLineage(env, late);
    hide Run, Ready, Stopped;
  }

  lemma RunLineage(env: Env, w: World)
    requires Ready(env, w, []) || Stopped(env, w)
    ensures Lineage(w.control)
    ensures forall d | d in w.pending ::
              w.pending[d].job.version < |w.control.history|
              && w.pending[d].base == w.control.history[w.pending[d].job.version]
  {
    forall d | d in w.pending
      ensures w.pending[d].job.version < |w.control.history|
              && w.pending[d].base == w.control.history[w.pending[d].job.version]
    {
      assert FlightOk(env, w, d, w.pending[d]);
    }
  }
}
