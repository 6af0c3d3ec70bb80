/** The size of FedBuff's buffer: when an arrival fills it for good. */
module AsyncBuffer {
  import opened Common
  import opened Scheduling
  import opened AsyncFL
  import opened AsyncProofs
  import Compass

  /** The arrival takes the last place in time, and one of the two looks at the clock that the commit takes is late. */
  predicate Fills(env: AsyncEnv, s: Async, a: Arrival) {
    && a.client in s.active && Expected(s, Answer(s, a))
    && |s.buffer| + 1 == env.cfg.size
    && !LateAt(env, s.ticks)
    && (LateAt(env, s.ticks + 1) || LateAt(env, s.ticks + 2))
  }

  /** Collecting an update stores it, and empties the buffer when the commit of a full one succeeds. */
  lemma CollectBuffer(env: AsyncEnv, s: Async, u: Update, now: real)
    requires |s.buffer| < env.cfg.size
    ensures var t := Collect(env, s, u, now).0;
            |t.buffer| == if |s.buffer| + 1 != env.cfg.size then |s.buffer| + 1
                          else if Commit(env, s.(buffer := s.buffer + [u]), s.buffer + [u]).1 then 0
                          else env.cfg.size
  {
    var stored := s.(buffer := s.buffer + [u]);
    if |stored.buffer| == env.cfg.size {
      CommitOutcome(env, stored, stored.buffer);
    }
    hide Commit, Committed;
  }

  lemma CommitSucceeds(env: AsyncEnv, s: Async, us: seq<Update>)
    requires us != [] && env.budget.Some?
    ensures Commit(env, s, us).1 <==> !LateAt(env, s.ticks) && !LateAt(env, s.ticks + 1)
  {
    hide Committed;
  }

  lemma CommitWithoutBudget(env: AsyncEnv, s: Async, us: seq<Update>)
    requires us != [] && env.budget.None?
    ensures Commit(env, s, us).1
  {
    hide Committed;
  }

  /** From a buffer that is not full, an arrival leaves a full one exactly when it `Fills` it. */
  lemma BufferFills(env: AsyncEnv, s: Async, a: Arrival)
    requires AsyncOk(env, s) && env.cfg.rule.FedBuff? && |s.buffer| < env.cfg.size
    ensures |Step(env, s, a).buffer| <= env.cfg.size
    ensures |Step(env, s, a).buffer| == env.cfg.size <==> Fills(env, s, a)
  {
    if a.client in s.active && Expected(s, Answer(s, a)) {
      var u := Answer(s, a);
      assert u.job.version <= s.version;
      var s1 := Accept(s, u);
      var taken := Take(env, s1, u);
      ProcessCases(env, s, u, a.now);
      CollectBuffer(env, taken, u, a.now);
      var stored := taken.(buffer := taken.buffer + [u]);
      assert env.budget.Some? ==> stored.ticks == s.ticks + 1;
      if env.budget.Some? {
        CommitSucceeds(env, stored, stored.buffer);
      } else {
        CommitWithoutBudget(env, stored, stored.buffer);
      }
      hide Collect, Commit, Process, Mix, Expected;
    }
  }

  // ----- whole runs -----

  ghost predicate ClockGoesOn(env: AsyncEnv) {
    forall j: nat, k: nat :: j <= k ==> env.tick(j) <= env.tick(k)
  }

  /** A full buffer stays as it is: every later look at the clock is late. */
  lemma FullStays(env: AsyncEnv, s: Async, a: Arrival)
    requires AsyncOk(env, s) && ClockGoesOn(env) && env.cfg.rule.FedBuff? && |s.buffer| == env.cfg.size
    ensures Step(env, s, a).buffer == s.buffer && Step(env, s, a).model == s.model
    ensures Step(env, s, a).version == s.version
  {
    assert Missed(env, s);
    var k: nat :| k < s.ticks && LateAt(env, k);
    assert LateAt(env, s.ticks);
  }

  /** Some arrival of the run filled the buffer for good. */
  ghost predicate FilledIn(env: AsyncEnv, model: Model, start: real, arrivals: seq<Arrival>) {
    exists n :: 0 <= n < |arrivals| && FillsAt(env, model, start, arrivals, n)
  }

  ghost predicate FillsAt(env: AsyncEnv, model: Model, start: real, arrivals: seq<Arrival>, n: nat)
    requires n < |arrivals|
  {
    Fills(env, Run(env, model, start, arrivals[..n]), arrivals[n])
  }

  /** Over whole runs the buffer never exceeds its size, and is full exactly when some arrival took the last place
      and the commit then missed the deadline. */
  lemma {:induction false} BufferFullExactly(env: AsyncEnv, model: Model, start: real, arrivals: seq<Arrival>)
    requires ValidAsync(env.cfg) && ClockGoesOn(env) && env.cfg.rule.FedBuff?
    ensures var s := Run(env, model, start, arrivals);
            |s.buffer| <= env.cfg.size && (|s.buffer| == env.cfg.size <==> FilledIn(env, model, start, arrivals))
  {
    if arrivals == [] {
      StartAllKeeps(env.cfg, New(model).(initialized := true), env.order, start);
    } else {
      var front, last := DropLast(arrivals), |arrivals| - 1;
      BufferFullExactly(env, model, start, front);
      RunKeeps(env, model, start, front);
      var s := Run(env, model, start, front);
      FilledNext(env, model, start, arrivals);
      if |s.buffer| < env.cfg.size {
        BufferFills(env, s, Last(arrivals));
      } else {
        FullStays(env, s, Last(arrivals));
      }
      hide Step, AsyncOk, Fills, FilledIn;
      assert Run(env, model, start, arrivals) == Step(env, s, Last(arrivals));
    }
  }

  lemma FilledNext(env: AsyncEnv, model: Model, start: real, arrivals: seq<Arrival>)
    requires arrivals != []
    ensures FilledIn(env, model, start, arrivals) <==>
              || FilledIn(env, model, start, DropLast(arrivals))
              || Fills(env, Run(env, model, start, DropLast(arrivals)), Last(arrivals))
  {
    hide Run, Fills;
    var front := DropLast(arrivals);
    assert forall n | 0 <= n < |front| :: front[..n] == arrivals[..n] && front[n] == arrivals[n];
    assert arrivals[..|front|] == front;
    if FilledIn(env, model, start, front) {
      var n :| 0 <= n < |front| && FillsAt(env, model, start, front, n);
      assert FillsAt(env, model, start, arrivals, n);
    }
    if FilledIn(env, model, start, arrivals) {
      var n :| 0 <= n < |arrivals| && FillsAt(env, model, start, arrivals, n);
      assert n < |front| ==> FillsAt(env, model, start, front, n);
    }
    if Fills(env, Run(env, model, start, front), Last(arrivals)) {
      assert FillsAt(env, model, start, arrivals, |front|);
    }
  }

  // ----- a run that gets stuck -----

  function StuckEnv(): AsyncEnv {
    AsyncEnv(AsyncConfig(FedBuff, 1, 1.0, d => 1.0, 2, 1.0), [0, 1], Some(1.0), k => if k < 2 then 0.0 else 2.0)
  }

  function StuckArrivals(): seq<Arrival> {
    [Arrival(0, 1, Model([], []), Model([], []), 0.0), Arrival(1, 2, Model([], []), Model([], []), 0.0)]
  }

  lemma StuckStart()
    ensures Run(StuckEnv(), Model([], []), 0.0, [])
            == New(Model([], [])).(initialized := true, nextSerial := 2,
                                   active := map[0 := Job(0, 0, 1, 0, None, 0.0), 1 := Job(1, 1, 1, 0, None, 0.0)])
  {
    var s0 := New(Model([], [])).(initialized := true);
    var cfg := StuckEnv().cfg;
    assert DropLast([0, 1]) == [0] && DropLast([0]) == [];
    assert StartAll(cfg, s0, [], 0.0) == (s0, []);
    assert StartAll(cfg, s0, [0], 0.0).0 == s0.(active := map[0 := Job(0, 0, 1, 0, None, 0.0)], nextSerial := 1);
  }

  /** After the first of the two arrivals: one update buffered, the clock looked at once, client 1 still at work. */
  lemma StuckFirst()
    ensures var s := Run(StuckEnv(), Model([], []), 0.0, StuckArrivals()[..1]);
            |s.buffer| == 1 && s.ticks == 1 && s.received == {1} && s.model == Model([], [])
            && 1 in s.active && s.active[1].serial == 1 && s.active[1].client == 1
  {
    StuckStart();
    var a := StuckArrivals()[..1];
    assert DropLast(a) == [] && Last(a) == StuckArrivals()[0];
    hide StartAll, Initialize;
  }

  /** The second arrival takes the last place, and the commit comes too late. */
  lemma StuckSecond()
    ensures FillsAt(StuckEnv(), Model([], []), 0.0, StuckArrivals(), 1)
  {
    StuckFirst();
    hide Run;
  }

  /** Two clients, a buffer of two, a clock that passes the deadline right after the second arrival: the buffer is
      full and nothing has been committed. */
  lemma StuckRun()
    ensures ValidAsync(StuckEnv().cfg) && ClockGoesOn(StuckEnv())
    ensures var s := Run(StuckEnv(), Model([], []), 0.0, StuckArrivals()); |s.buffer| == 2 && s.version == 0
  {
    var env, arrivals := StuckEnv(), StuckArrivals();
    StuckSecond();
    assert |arrivals| == 2;
    hide Run, FillsAt, StuckArrivals;
    assert FilledIn(env, Model([], []), 0.0, arrivals);
    BufferFullExactly(env, Model([], []), 0.0, arrivals);
    RunKeeps(env, Model([], []), 0.0, arrivals);
    StuckVersion();
  }

  lemma StuckVersion()
    ensures Run(StuckEnv(), Model([], []), 0.0, StuckArrivals()).version == 0
  {
    var env, arrivals := StuckEnv(), StuckArrivals();
    StuckFirst();
    assert DropLast(arrivals) == arrivals[..1] && Last(arrivals) == arrivals[1];
    hide StartAll, Initialize, MarkAll, Candidate, Weights;
  }
}
