/** One iteration of the event loop, the stop, the drain, and the theorems about whole runs. */
module RunProofs {
  import opened Common
  import opened Scheduling
  import opened Compass
  import opened FleetProofs
  import opened BooksProofs
  import opened CompassProofs
  import opened SweepProofs
  import opened Server
  import opened ServerInvariants
  import opened ServerProofs

  // ----- booking a returned call -----

  function ReceiptOf(job: Job): Receipt {
    Receipt(job.client, job.steps, job.version, job.group, DiscardedAtStop)
  }

  /** A receipt for a new dispatch may be added; its update is then held by the caller. */
  lemma AddReceipt(env: Env, s: Controller, u: Update)
    requires Books(env, s, []) && u.dispatch !in s.receipts
    requires u.job.client in Ids(env) && u.job.version <= s.version && u.job.version < |s.history|
    requires u.base == s.history[u.job.version]
    ensures var s' := s.(receipts := s.receipts[u.dispatch := ReceiptOf(u.job)]);
            && Books(env, s', [])
            && (SameShape(u.trained, s.model) ==> Books(env, s', [u]))
  {
    var s' := s.(receipts := s.receipts[u.dispatch := ReceiptOf(u.job)]);
    hide StaleWeight, Late;
    AddReceiptLedger(env, s, s', u.dispatch);
    hide Ledger;
    forall v | Filed(env, s, v) ensures Filed(env, s', v) && s'.receipts[v.dispatch] == s.receipts[v.dispatch] {
    }
    assert BufferOk(env, s') && ArrivedOk(env, s');
    assert Elsewhere(s', u.dispatch);
  }

  lemma AddReceiptLedger(env: Env, s: Controller, s': Controller, d: nat)
    requires Ledger(env, s) && d !in s.receipts && d in s'.receipts && !s'.receipts[d].status.Aggregated?
    requires s' == s.(receipts := s.receipts[d := s'.receipts[d]])
    ensures Ledger(env, s')
  {
    hide StaleWeight, Late;
    forall k | 0 <= k < s.version ensures RecordOk(env, s'.receipts, k, s'.aggregations[k]) {
      assert RecordOk(env, s.receipts, k, s.aggregations[k]);
    }
  }

  /** The state right after booking call `id`, before the controller sees it. */
  function Booked(w: World, id: nat, at: real): World
    requires id in w.pending
  {
    var job := w.pending[id].job;
    w.(pending := w.pending - {id}, arrivals := w.arrivals + [id], lastArrivals := w.lastArrivals[job.client := at],
       control := w.control.(receipts := w.control.receipts[id := ReceiptOf(job)]))
  }

  lemma BookedAccounts(env: Env, w: World, id: nat, at: real)
    requires Accounts(env, w) && id in w.pending
    ensures Accounts(env, Booked(w, id, at))
  {
    var w' := Booked(w, id, at);
    forall d | d in w'.pending ensures FlightOk(env, w', d, w'.pending[d]) {
      assert FlightOk(env, w, d, w.pending[d]);
    }
    assert FlightOk(env, w, id, w.pending[id]);
  }

  lemma BookedController(env: Env, w: World, id: nat, at: real, trained: Model)
    requires Running(env, w) && id in w.pending
    ensures var s' := Booked(w, id, at).control;
            var flight := w.pending[id];
            && FleetOk(env.cfg, Ids(env), s'.fleet, Latest(env, w)) && Books(env, s', [])
            && (SameShape(trained, s'.model) ==> Books(env, s', [Update(flight.job, id, flight.base, trained)]))
            && SameShape(flight.base, s'.model)
  {
    assert FlightOk(env, w, id, w.pending[id]);
    AddReceipt(env, w.control, Update(w.pending[id].job, id, w.pending[id].base, trained));
    hide FleetOk, BufferOk, ArrivedOk, LooseOk, OpenHeld, Ledger, Accounts;
  }

  // ----- after the controller has acted -----

  lemma GrownAccounts(env: Env, w: World, w': World)
    requires Accounts(env, w) && Grows(w.control, w'.control)
    requires w' == w.(control := w'.control)
    ensures Accounts(env, w')
  {
    forall d | d in w'.pending ensures FlightOk(env, w', d, w'.pending[d]) {
      assert FlightOk(env, w, d, w.pending[d]);
      var v := w.pending[d].job.version;
      assert w'.control.history[v] == w.control.history[v];
    }
  }

  lemma HandsUndispatched(env: Env, a: Active, f: Fleet, jobs: seq<Job>)
    requires Hands(a, f.active, jobs)
    ensures Undispatched(f, jobs)
  {
  }

  lemma HandsCoupled(env: Env, w: World, w': World, jobs: seq<Job>)
    requires ValidEnv(env) && Coupled(env, w, []) && w.control.ticks <= w'.control.ticks
    requires w'.pending == w.pending && w'.sent == w.sent
    requires Hands(w.control.fleet.active, w'.control.fleet.active, jobs)
    ensures Coupled(env, w', jobs)
  {
    LatestGrows(env, w, w');
    hide Latest, ValidEnv;
    forall c | c in w'.control.fleet.active ensures InFlight(w', c) || exists k ::
          0 <= k < |jobs| && jobs[k].client == c {
      if c in w.control.fleet.active {
        assert InFlight(w, c);
      }
    }
  }

  // ----- consuming while accepting -----

  ghost predicate OwnJobs(f: Fleet) {
    forall c | c in f.active :: f.active[c].client == c
  }

  lemma RunningOwnJobs(env: Env, w: World)
    requires Running(env, w)
    ensures OwnJobs(w.control.fleet)
  {
    assert JobsOk(env.cfg, Ids(env), w.control.fleet);
  }

  /** Without its flight the retired client's assignment is gone; the others stay coupled. */
  lemma RetiredCoupled(env: Env, w: World, w1: World, id: nat, c: ClientId)
    requires ValidEnv(env) && Coupled(env, w, []) && id in w.pending && c == w.pending[id].job.client
    requires w1.pending == w.pending - {id} && w1.sent == w.sent && w.control.ticks <= w1.control.ticks
    requires w1.control.fleet.active == w.control.fleet.active - {c} && OwnJobs(w.control.fleet)
    ensures Coupled(env, w1, [])
  {
    LatestGrows(env, w, w1);
    hide Latest, ValidEnv;
    forall d | d in w1.pending ensures Genuine(w1.control.fleet, w1.pending[d].job) {
      assert w.sent[w.pending[d].job.client] == d;
    }
    forall x | x in w1.control.fleet.active ensures InFlight(w1, x) {
      assert InFlight(w, x);
      assert w.sent[x] != id;
    }
  }

  ghost predicate Consumed(env: Env, w: World, w': World, jobs: seq<Job>, id: nat, c: ClientId) {
    && w'.pending == w.pending - {id} && w'.sent == w.sent
    && w.control.ticks <= w'.control.ticks
    && Hands(w.control.fleet.active - {c}, w'.control.fleet.active, jobs)
    && CompleteOrOverdue(env, w'.control)
  }

  lemma ConsumedReady(env: Env, w: World, w': World, jobs: seq<Job>, id: nat, c: ClientId)
    requires ValidEnv(env) && Running(env, w') && OwnJobs(w.control.fleet) && Coupled(env, w, [])
    requires id in w.pending && c == w.pending[id].job.client
    requires Consumed(env, w, w', jobs, id, c)
    ensures Ready(env, w', jobs)
  {
    hide ValidEnv, Running, Coupled, Overdue, Complete, Hands;
    HandsUndispatched(env, w.control.fleet.active - {c}, w'.control.fleet, jobs);
    var w1 := w'.(control := w'.control.(fleet := w'.control.fleet.(active := w.control.fleet.active - {c})));
    RetiredCoupled(env, w, w1, id, c);
    HandsCoupled(env, w1, w', jobs);
  }

  /** The controller accepts the update of every call it is still waiting for. */
  lemma ConsumeReceives(env: Env, w: World, id: nat, trained: Model, at: real)
    requires ValidEnv(env) && Running(env, w) && Coupled(env, w, []) && id in w.pending
    requires SameShape(trained, w.control.model)
    ensures var ready := Tick(Booked(w, id, at));
            var flight := w.pending[id];
            var r := Receive(env, ready.control, Update(flight.job, id, flight.base, trained), Now(env, w));
            r.Accepted? && ReceiveResult(env, ready.control, r.state, r.jobs, flight.job.client, Now(env, w))
  {
    var booked := Booked(w, id, at);
    var ready := Tick(booked);
    var now := Now(env, w);
    BookedController(env, w, id, at, trained);
    var flight := w.pending[id];
    var u := Update(flight.job, id, flight.base, trained);
    assert Latest(env, w) <= now;
    assert Genuine(w.control.fleet, flight.job) && flight.job.started <= now;
    hide Running, Coupled, Latest;
    ControllerLater(env, booked.control, ready.control, [u], Latest(env, w), now);
    hide FleetOk, Books, Receive, ReceiveResult;
    ReceiveKeeps(env, ready.control, u, now);
  }

  lemma ConsumeAccounts(env: Env, w: World, w': World, id: nat, at: real)
    requires Accounts(env, w) && id in w.pending
    requires w' == Tick(Booked(w, id, at)).(control := w'.control) && Grows(Tick(Booked(w, id, at)).control, w'.control)
    ensures Accounts(env, w')
  {
    hide Accounts, Grows;
    BookedAccounts(env, w, id, at);
    TickAccounts(env, Booked(w, id, at));
    GrownAccounts(env, Tick(Booked(w, id, at)), w');
  }

  lemma ConsumeRunning(env: Env, w: World, w': World, jobs: seq<Job>, id: nat, at: real, c: ClientId)
    requires ValidEnv(env) && Running(env, w) && id in w.pending && !AtLimit(env.limit, w.control.version)
    requires w' == Tick(Booked(w, id, at)).(control := w'.control)
    requires ReceiveResult(env, Tick(Booked(w, id, at)).control, w'.control, jobs, c, Now(env, w))
    ensures Running(env, w')
  {
    hide ControllerOk, Hands, Complete, Overdue, SameRows, Accounts;
    ConsumeAccounts(env, w, w', id, at);
    assert Now(env, w) <= Latest(env, w');
    hide ValidEnv, Latest;
    ControllerLater(env, w'.control, w'.control, [], Now(env, w), Latest(env, w'));
  }

  lemma TickAccounts(env: Env, w: World)
    requires Accounts(env, w)
    ensures Accounts(env, Tick(w))
  {
    forall d | d in w.pending ensures FlightOk(env, Tick(w), d, w.pending[d]) {
      assert FlightOk(env, w, d, w.pending[d]);
    }
  }

  lemma ConsumeAccepting(env: Env, w: World, id: nat, trained: Model, at: real)
    requires ValidEnv(env) && Ready(env, w, []) && !Ended(env, w) && id in w.pending
    requires SameShape(trained, w.control.model)
    ensures var (w', jobs) := Consume(env, w, id, trained, at, true);
            Ready(env, w', jobs)
  {
    var c := w.pending[id].job.client;
    ConsumeReceives(env, w, id, trained, at);
    RunningOwnJobs(env, w);
    var (w', jobs) := Consume(env, w, id, trained, at, true);
    var ready := Tick(Booked(w, id, at));
    hide Receive, Running, Coupled, ReceiveResult;
    assert w' == ready.(control := w'.control);
    ConsumeRunning(env, w, w', jobs, id, at, c);
    assert Consumed(env, w, w', jobs, id, c) by {
      ConsumedFrom(env, w, w', jobs, id, at, c);
    }
    hide Consumed, Ready, Consume, Booked;
    ConsumedReady(env, w, w', jobs, id, c);
  }

  lemma ConsumedFrom(env: Env, w: World, w': World, jobs: seq<Job>, id: nat, at: real, c: ClientId)
    requires id in w.pending && w' == Tick(Booked(w, id, at)).(control := w'.control)
    requires Complete(Ids(env), w.control.fleet)
    requires ReceiveResult(env, Tick(Booked(w, id, at)).control, w'.control, jobs, c, Now(env, w))
    ensures Consumed(env, w, w', jobs, id, c)
  {
    hide ControllerOk, Complete, Overdue, Hands, SameRows;
  }

  /** A call that returns after the end is only booked. */
  lemma ConsumeEnded(env: Env, w: World, id: nat, trained: Model, at: real)
    requires ValidEnv(env) && Running(env, w) && Ended(env, w) && id in w.pending
    ensures Ready(env, Consume(env, w, id, trained, at, false).0, [])
    ensures Consume(env, w, id, trained, at, false).1 == []
  {
    hide Ready, Receive;
    assert Consume(env, w, id, trained, at, false).0 == Booked(w, id, at);
    BookedEnded(env, w, id, at);
  }

  lemma BookedEnded(env: Env, w: World, id: nat, at: real)
    requires Running(env, w) && Ended(env, w) && id in w.pending
    ensures Ready(env, Booked(w, id, at), [])
  {
    BookedRunning(env, w, id, at);
    hide Running, Coupled, Complete;
  }

  lemma BookedRunning(env: Env, w: World, id: nat, at: real)
    requires Running(env, w) && id in w.pending
    ensures Running(env, Booked(w, id, at))
  {
    hide Accounts, FleetOk, Books;
    BookedAccounts(env, w, id, at);
    BookedController(env, w, id, at, Model([], []));
  }

  // ----- the stop -----

  /** Every receipt that was still held is given its final status; the others are as they were. */
  ghost predicate Released(s: Controller, rs: map<nat, Receipt>) {
    && SameRows(s.receipts, rs)
    && (forall d | d in s.receipts :: rs[d] == s.receipts[d]
          || (rs[d].status == UnaggregatedAtStop && !Elsewhere(s, d)))
    && (forall u | u in s.buffer && u.dispatch in rs :: rs[u.dispatch].status == UnaggregatedAtStop)
    && (forall g, u | g in s.fleet.groups && u in s.fleet.groups[g].arrived && u.dispatch in rs ::
          rs[u.dispatch].status == UnaggregatedAtStop)
  }

  lemma {:induction false} MarkGroupsMeans(rs: map<nat, Receipt>, groups: map<nat, Group>, n: nat)
    ensures var r := MarkGroups(rs, groups, n);
            && SameRows(rs, r)
            && (forall d | d in rs :: r[d] == rs[d] ||
                  (r[d].status == UnaggregatedAtStop && exists g ::
                        g < n && g in groups && d in Dispatches(groups[g].arrived)))
            && (forall d | d in rs && rs[d].status == UnaggregatedAtStop :: r[d] == rs[d])
            && (forall g | g < n && g in groups ::
                  forall d | d in Dispatches(groups[g].arrived) && d in rs :: r[d].status == UnaggregatedAtStop)
  {
    if n > 0 {
      MarkGroupsMeans(rs, groups, n - 1);
      if n - 1 in groups {
        MarkAllMeans(MarkGroups(rs, groups, n - 1), groups[n - 1].arrived, UnaggregatedAtStop);
      }
    }
    hide MarkAll;
  }

  lemma StopReleases(env: Env, s: Controller)
    requires forall g | g in s.fleet.groups :: g < s.fleet.nextGroup
    ensures Released(s, Stop(s).receipts)
  {
    var mid := MarkAll(s.receipts, s.buffer, UnaggregatedAtStop);
    MarkAllMeans(s.receipts, s.buffer, UnaggregatedAtStop);
    MarkGroupsMeans(mid, s.fleet.groups, s.fleet.nextGroup);
    hide MarkAll, MarkGroups;
    forall u | u in s.buffer ensures u.dispatch in Dispatches(s.buffer) {
    }
    forall g, u | g in s.fleet.groups && u in s.fleet.groups[g].arrived
      ensures u.dispatch in Dispatches(s.fleet.groups[g].arrived) {
    }
  }

  lemma StopLedger(env: Env, s: Controller, s': Controller)
    requires Ledger(env, s) && BufferOk(env, s) && ArrivedOk(env, s) && Released(s, s'.receipts)
    requires s'.version == s.version && s'.aggregations == s.aggregations
    ensures Ledger(env, s')
  {
    hide StaleWeight, Late;
    forall d | d in s.receipts && s.receipts[d].status.Aggregated? ensures s'.receipts[d] == s.receipts[d] {
    }
    forall k | 0 <= k < s.version ensures RecordOk(env, s'.receipts, k, s'.aggregations[k]) {
      assert RecordOk(env, s.receipts, k, s.aggregations[k]);
    }
  }

  lemma StopOpen(env: Env, s: Controller, s': Controller)
    requires OpenHeld(s, []) && Released(s, s'.receipts)
    ensures OpenHeld(s', [])
  {
    forall d | d in s'.receipts ensures s'.receipts[d].status != LateBuffer
          && s'.receipts[d].status != WaitingForGroup {
      if s.receipts[d].status == LateBuffer {
        var u :| u in s.buffer && u.dispatch == d;
      } else if s.receipts[d].status == WaitingForGroup {
        var g := s.receipts[d].group.value;
        var u :| u in s.fleet.groups[g].arrived && u.dispatch == d;
      }
    }
  }

  /** Stopping keeps the books: what was never aggregated is recorded as such. */
  lemma StopKeepsBooks(env: Env, s: Controller)
    requires Books(env, s, []) && forall g | g in s.fleet.groups :: g < s.fleet.nextGroup
    ensures Books(env, Stop(s), []) && Grows(s, Stop(s))
  {
    StopReleases(env, s);
    var s' := Stop(s);
    hide MarkAll, MarkGroups;
    StopLedger(env, s, s');
    StopOpen(env, s, s');
    hide Ledger, OpenHeld, Released;
  }

  /** The loop has been left: nothing is held any more, and the reason is one of the two limits. */
  ghost predicate Stopped(env: Env, w: World) {
    && !w.rejected && w.stop.Some?
    && Books(env, w.control, []) && w.control.buffer == [] && !w.control.fleet.raised
    && w.control.fleet.groups == map[] && w.control.fleet.active == map[]
    && Accounts(env, w) && WithinLimit(env, w)
    && match w.stop.value {
         case TimeBudget => env.budget.Some? && Overdue(env, w.control)
         case GlobalUpdateLimit => env.limit == Some(w.control.version)
         case NoInflightUpdates => false
       }
  }

  lemma ShutdownStops(env: Env, w: World, reason: StopReason)
    requires ValidEnv(env) && Running(env, w)
    requires reason == TimeBudget ==> Overdue(env, w.control)
    requires reason == GlobalUpdateLimit ==> AtLimit(env.limit, w.control.version)
    requires reason != NoInflightUpdates
    ensures Stopped(env, Shutdown(w, reason))
  {
    var w' := Shutdown(w, reason);
    assert forall g | g in w.control.fleet.groups :: GroupOk(Ids(env), w.control.fleet, g, w.control.fleet.groups[g]);
    hide GroupOk;
    StopKeepsBooks(env, w.control);
    ShutdownBooks(env, w, reason);
    if Overdue(env, w.control) {
      OverdueStays(env, w.control, w'.control);
    }
    hide Books, Accounts, ValidEnv, Stop, FleetOk;
  }

  lemma ShutdownBooks(env: Env, w: World, reason: StopReason)
    requires Accounts(env, w) && Books(env, Stop(w.control), []) && Grows(w.control, Stop(w.control))
    ensures Books(env, Shutdown(w, reason).control, []) && Accounts(env, Shutdown(w, reason))
  {
    var w' := Shutdown(w, reason);
    var w1 := w.(control := Stop(w.control));
    GrownAccounts(env, w, w1);
    TickAccounts(env, w1);
    SameArrivalsRefl(w1.control.fleet.groups);
    hide Stop, SameArrivals;
    SameBooksKeep(env, w1.control, w'.control, []);
    hide Books;
    StopAccounts(env, Tick(w1), w');
  }

  lemma StopAccounts(env: Env, w: World, w': World)
    requires Accounts(env, w) && w' == w.(stop := w'.stop)
    ensures Accounts(env, w')
  {
    forall d | d in w'.pending ensures FlightOk(env, w', d, w'.pending[d]) {
      assert FlightOk(env, w, d, w.pending[d]);
    }
  }

  // ----- one iteration -----

  lemma SweepReady(env: Env, w: World, sweep: Sweep, now: real)
    requires ValidEnv(env) && Running(env, w) && Coupled(env, w, []) && now <= Latest(env, w)
    requires SweepResult(env, w.control, sweep, now) && Complete(Ids(env), w.control.fleet)
    ensures Ready(env, w.(control := sweep.state), sweep.jobs)
  {
    var w2 := w.(control := sweep.state);
    LatestGrows(env, w, w2);
    GrownAccounts(env, w, w2);
    HandsUndispatched(env, w.control.fleet.active, sweep.state.fleet, sweep.jobs);
    hide Accounts, ControllerOk, Hands, Complete, Overdue, Latest, Coupled, SameRows;
    HandsCoupled(env, w, w2, sweep.jobs);
    ControllerLater(env, w2.control, w2.control, [], now, Latest(env, w2));
  }

  /** After the sweep its released jobs are all that separates the loop from a fully served state. */
  lemma ExpireReady(env: Env, w: World)
    requires ValidEnv(env) && Ready(env, w, [])
    requires !Late(env, Now(env, w)) && !AtLimit(env.limit, w.control.version)
    ensures var sweep := Expire(env, Tick(w).control, Now(env, w));
            Ready(env, Tick(w).(control := sweep.state), sweep.jobs)
  {
    var now := Now(env, w);
    var w1 := Tick(w);
    NotEnded(env, w);
    TimeKeepsReady(env, w, w1, []);
    assert now == Latest(env, w1);
    hide Accounts, Coupled, Complete, Expire, Latest, ValidEnv;
    assert !Ended(env, w1) by { NotEndedTick(env, w); }
    hide Ended;
    ExpireKeeps(env, w1.control, now);
    hide ControllerOk, SweepResult, Running;
    SweepReady(env, w1, Expire(env, w1.control, now), now);
  }

  lemma NotEnded(env: Env, w: World)
    requires ValidEnv(env) && !Late(env, Now(env, w)) && !AtLimit(env.limit, w.control.version)
    ensures !Ended(env, w)
  {
    assert w.control.ticks > 0 ==> env.tick(w.control.ticks - 1) <= env.tick(w.control.ticks);
  }

  lemma NotEndedTick(env: Env, w: World)
    requires ValidEnv(env) && !Late(env, Now(env, w)) && !AtLimit(env.limit, w.control.version)
    ensures !Ended(env, Tick(w))
  {
  }

  lemma AwaitReady(env: Env, w: World, choice: Choice)
    requires ValidEnv(env) && Ready(env, w, []) && !AtLimit(env.limit, w.control.version)
    ensures Ready(env, Await(env, w, choice), [])
  {
    var w1 := Tick(w);
    hide Ready, Overdue, ValidEnv, Consume, DispatchAll;
    TimeKeepsReady(env, w, w1, []);
    if Possible(w1, choice) {
      if env.budget.None? || Now(env, w1) < env.budget.value {
        var w2 := if env.budget.Some? then Tick(w1) else w1;
        TimeKeepsReady(env, w1, w2, []);
        AcceptingNotEnded(env, w1, w2);
        ConsumeAccepting(env, w2, choice.dispatch, choice.trained, choice.at);
        var (w3, jobs) := Consume(env, w2, choice.dispatch, choice.trained, choice.at, true);
        DispatchAllKeeps(env, w3, jobs, true);
      } else {
        AwaitEnded(env, w1, choice);
        DispatchAllKeeps(env, Consume(env, Tick(w1), choice.dispatch, choice.trained, choice.at, false).0, [], true);
      }
    }
  }

  lemma AcceptingNotEnded(env: Env, w1: World, w2: World)
    requires ValidEnv(env) && !AtLimit(env.limit, w1.control.version)
    requires env.budget.None? || Now(env, w1) < env.budget.value
    requires w2 == if env.budget.Some? then Tick(w1) else w1
    ensures !Ended(env, w2)
  {
  }

  lemma AwaitEnded(env: Env, w1: World, choice: Choice)
    requires ValidEnv(env) && Ready(env, w1, []) && Possible(w1, choice) && Late(env, Now(env, w1))
    ensures var (w3, jobs) := Consume(env, Tick(w1), choice.dispatch, choice.trained, choice.at, false);
            jobs == [] && Ready(env, w3, [])
  {
    LateReading(env, w1);
    TimeKeepsReady(env, w1, Tick(w1), []);
    hide Running, Coupled, Complete, Overdue, ValidEnv, Consume;
    ConsumeEnded(env, Tick(w1), choice.dispatch, choice.trained, choice.at);
  }

  lemma LeaveForTime(env: Env, w: World)
    requires ValidEnv(env) && Ready(env, w, []) && Late(env, Now(env, w))
    ensures Stopped(env, Shutdown(Tick(w), TimeBudget))
  {
    TimeKeepsRunning(env, w, Tick(w));
    LateReading(env, w);
    hide Running, Overdue, ValidEnv, Stopped;
    ShutdownStops(env, Tick(w), TimeBudget);
  }

  lemma LeaveForLimit(env: Env, w: World)
    requires ValidEnv(env) && Ready(env, w, []) && AtLimit(env.limit, w.control.version)
    ensures Stopped(env, Shutdown(w, GlobalUpdateLimit)) && Stopped(env, Shutdown(Tick(w), GlobalUpdateLimit))
  {
    TimeKeepsRunning(env, w, Tick(w));
    hide Running, ValidEnv, Stopped;
    ShutdownStops(env, w, GlobalUpdateLimit);
    ShutdownStops(env, Tick(w), GlobalUpdateLimit);
  }

  /** One iteration keeps the loop ready, or leaves it for one of the two limits. */
  lemma TurnKeeps(env: Env, w: World, choice: Choice)
    requires ValidEnv(env) && Ready(env, w, [])
    ensures var w' := Turn(env, w, choice); Ready(env, w', []) || Stopped(env, w')
  {
    hide Ready, Stopped, ValidEnv, Expire, DispatchAll, Await, Shutdown;
    var now := Now(env, w);
    if env.budget.Some? && now >= env.budget.value {
      LeaveForTime(env, w);
    } else if AtLimit(env.limit, w.control.version) {
      LeaveForLimit(env, w);
    } else {
      ExpireReady(env, w);
      var sweep := Expire(env, Tick(w).control, now);
      var w1 := Tick(w).(control := sweep.state);
      DispatchAllKeeps(env, w1, sweep.jobs, false);
      var w2 := DispatchAll(env, w1, sweep.jobs, false);
      if !AtLimit(env.limit, w2.control.version) {
        if now >= w2.nextEvaluation {
          TimeKeepsReady(env, w2, Evaluate(env, w2), []);
        } else {
          AwaitReady(env, w2, choice);
        }
      }
    }
  }

  /** While clients are served there is always a call out or an update waiting in a group. */
  lemma ServedLoopOpen(env: Env, w: World)
    requires ValidEnv(env) && Coupled(env, w, []) && Complete(Ids(env), w.control.fleet)
    ensures LoopOpen(w)
  {
    var c := env.order[0];
    assert c in Ids(env);
    if c in w.control.fleet.active {
      assert InFlight(w, c);
    } else {
      var g :| g in w.control.fleet.groups && !w.control.fleet.groups[g].closed
            && c in Clients(w.control.fleet.groups[g].arrived);
      assert w.control.fleet.groups[g].arrived != [];
    }
  }

  lemma SettleStops(env: Env, w: World)
    requires ValidEnv(env) && Ready(env, w, []) && !LoopOpen(w)
    ensures Stopped(env, Settle(env, w))
  {
    hide Running, Stopped, Shutdown;
    if !Ended(env, w) {
      ServedLoopOpen(env, w);
    }
    hide LoopOpen, Coupled, Complete;
    if Overdue(env, w.control) {
      assert env.tick(w.control.ticks - 1) <= env.tick(w.control.ticks);
      LeaveForTime(env, w);
    } else {
      LimitWithBudget(env, w);
    }
  }

  lemma LimitWithBudget(env: Env, w: World)
    requires ValidEnv(env) && Ready(env, w, []) && AtLimit(env.limit, w.control.version)
    ensures Stopped(env, Settle(env, w))
  {
    hide Ready, Stopped, ValidEnv, Shutdown;
    if env.budget.Some? && Now(env, w) >= env.budget.value {
      LeaveForTime(env, w);
    } else {
      LeaveForLimit(env, w);
    }
  }

  /** Draining only books what comes back. */
  lemma DrainKeeps(env: Env, w: World, choice: Choice)
    requires Stopped(env, w)
    ensures Stopped(env, Drain(env, w, choice))
    ensures var w' := Drain(env, w, choice);
            && w'.control == w.control.(receipts := w'.control.receipts)
            && w'.evaluations == w.evaluations && w'.dispatches == w.dispatches
            && (w'.pending == w.pending || (Possible(w, choice) && w'.pending == w.pending - {choice.dispatch}))
  {
    if Possible(w, choice) {
      var w' := Drain(env, w, choice);
      var id := choice.dispatch;
      assert w' == Booked(w, id, choice.at);
      BookedAccounts(env, w, id, choice.at);
      assert FlightOk(env, w, id, w.pending[id]);
      AddReceipt(env, w.control, Update(w.pending[id].job, id, w.pending[id].base, choice.trained));
      hide Accounts, Books, Consume;
    }
  }

  // ----- whole runs -----

  lemma {:induction false} RunKeeps(env: Env, model: Model, script: seq<Choice>)
    requires ValidEnv(env)
    ensures var w := Run(env, model, script); Ready(env, w, []) || Stopped(env, w)
  {
    hide Ready, Stopped, Begin, Turn, Settle, Drain, ValidEnv;
    if script == [] {
      BeginReady(env, model);
    } else {
      RunKeeps(env, model, DropLast(script));
      var w := Run(env, model, DropLast(script));
      StopMeansStopped(env, w);
      if w.stop.Some? {
        DrainKeeps(env, w, Last(script));
      } else if LoopOpen(w) {
        TurnKeeps(env, w, Last(script));
      } else {
        SettleStops(env, w);
      }
    }
  }

  lemma StopMeansStopped(env: Env, w: World)
    ensures Ready(env, w, []) ==> w.stop.None?
    ensures Stopped(env, w) ==> w.stop.Some?
  {
  }
}
