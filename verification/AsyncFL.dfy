/** The asynchronous controllers: FedAsync mixes every arrival into the model, FedBuff adds the mean delta of
    a full buffer. Every client has one assignment at a time. */
module AsyncFL {
  import opened Common
  import opened Vectors
  import opened Scheduling
  import Compass

  datatype Rule = FedAsync | FedBuff

  /** `decay(d)` stands for (1 + d) to the power -staleness_exponent. */
  datatype AsyncConfig = AsyncConfig(rule: Rule, steps: Positive, alpha: real, decay: nat -> real,
        size: Positive, rate: real)

  ghost predicate ValidAsync(c: AsyncConfig) {
    && 0.0 < c.alpha <= 1.0 && c.size >= 2 && c.rate > 0.0
    && forall d: nat :: 0.0 < c.decay(d) <= 1.0
  }

  datatype AsyncEnv = AsyncEnv(cfg: AsyncConfig, order: seq<ClientId>, budget: Option<real>, tick: nat -> real)

  /** One row of the aggregation records. */
  datatype Record = Record(version: nat, elapsed: real, dispatches: seq<nat>, size: nat)

  /** An accepted dispatch and the version its assignment was sent with. */
  datatype Answered = Answered(dispatch: nat, version: nat)

  /** `answered` lists the accepted dispatches in order, `committed` the updates that are part of the model and
      `weights` what they entered it with; the three are auxiliary. */
  datatype Async = Async(
    version: nat, active: map<ClientId, Job>, buffer: seq<Update>, model: Model, received: set<nat>,
    initialized: bool, nextSerial: nat, ticks: nat, statuses: map<nat, Compass.Status>, records: seq<Record>,
    answered: seq<Answered>, committed: seq<Update>, weights: seq<real>)

  /** `Failed` is an exception part of the way through. */
  datatype Outcome = Rejected | Failed(broken: Async) | Accepted(state: Async, jobs: seq<Job>)

  // ----- the new model -----

  function Interpolate(w: real, current: seq<real>, trained: seq<real>): (r: seq<real>)
    ensures |r| == |current|
  {
    seq(|current|, i requires 0 <= i < |current| =>
      Mul(1.0 - w, current[i]) + Mul(w, if i < |trained| then trained[i] else 0.0))
  }

  function DeltaAt(u: Update, i: nat): real {
    if i < |u.base.params| && i < |u.trained.params| then u.trained.params[i] - u.base.params[i] else 0.0
  }

  function AddDelta(params: seq<real>, w: real, u: Update): (r: seq<real>)
    ensures |r| == |params|
  {
    seq(|params|, i requires 0 <= i < |params| => params[i] + Mul(w, DeltaAt(u, i)))
  }

  function AddDeltas(params: seq<real>, w: real, us: seq<Update>): (r: seq<real>)
    ensures |r| == |params|
  {
    if us == [] then params else AddDelta(AddDeltas(params, w, DropLast(us)), w, Last(us))
  }

  function StatSum(us: seq<Update>, i: nat): real {
    if us == [] then 0.0
    else StatSum(DropLast(us), i) + if i < |Last(us).trained.stats| then Last(us).trained.stats[i] else 0.0
  }

  function MeanStats(us: seq<Update>, n: nat): (r: seq<real>)
    requires us != []
    ensures |r| == n
  {
    seq(n, i requires 0 <= i < n => StatSum(us, i) / |us| as real)
  }

  function WeightOf(cfg: AsyncConfig, version: nat, u: Update): real {
    if cfg.rule.FedAsync? then Mul(cfg.alpha, cfg.decay(Compass.Delay(version, u))) else cfg.rate / cfg.size as real
  }

  function Candidate(cfg: AsyncConfig, version: nat, m: Model, us: seq<Update>): Model
    requires us != []
  {
    var w := WeightOf(cfg, version, us[0]);
    if cfg.rule.FedAsync?
    then Model(Interpolate(w, m.params, us[0].trained.params), Interpolate(w, m.stats, us[0].trained.stats))
    else Model(AddDeltas(m.params, w, us), MeanStats(us, |m.stats|))
  }

  // ----- committing -----

  predicate LateAt(env: AsyncEnv, k: nat) {
    env.budget.Some? && env.tick(k) >= env.budget.value
  }

  function MarkAll(
      cfg: AsyncConfig, version: nat, at: real, statuses: map<nat, Compass.Status>,
      us: seq<Update>): map<nat, Compass.Status> {
    if us == [] then statuses
    else
      MarkAll(cfg, version, at, statuses, DropLast(us))[
        Last(us).dispatch := Compass.Aggregated(version + 1, at, Compass.Delay(version, Last(us)),
              WeightOf(cfg, version, Last(us)))]
  }

  function Weights(cfg: AsyncConfig, version: nat, us: seq<Update>): (r: seq<real>)
    ensures |r| == |us|
  {
    seq(|us|, k requires 0 <= k < |us| => WeightOf(cfg, version, us[k]))
  }

  /** The model of the next version; `at` is the commit time. */
  function Committed(env: AsyncEnv, s: Async, us: seq<Update>, at: real): Async
    requires us != []
  {
    s.(model := Candidate(env.cfg, s.version, s.model, us), version := s.version + 1,
       statuses := MarkAll(env.cfg, s.version, at, s.statuses, us),
       records := s.records + [Record(s.version + 1, at, Compass.DispatchesOf(us), |us|)],
       committed := s.committed + us, weights := s.weights + Weights(env.cfg, s.version, us))
  }

  /** The clock is looked at before the model is replaced, when there is a deadline, and again afterwards; a late
      second look puts the old model back. */
  function Commit(env: AsyncEnv, s: Async, us: seq<Update>): (Async, bool)
    requires us != []
  {
    var checked := if env.budget.Some? then s.(ticks := s.ticks + 1) else s;
    if LateAt(env, s.ticks) then (checked, false)
    else
      var stamped := checked.(ticks := checked.ticks + 1);
      if LateAt(env, checked.ticks) then (stamped, false)
      else (Committed(env, stamped, us, env.tick(checked.ticks)), true)
  }

  // ----- arrivals -----

  predicate Expected(s: Async, u: Update) {
    && u.job.client in s.active && s.active[u.job.client].serial == u.job.serial
    && u.dispatch !in s.received
    && Compass.SameShape(u.base, s.model) && Compass.SameShape(u.trained, s.model)
  }

  function NextJob(env: AsyncEnv, s: Async, c: ClientId, now: real): (Async, seq<Job>) {
    var job := Job(s.nextSerial, c, env.cfg.steps, s.version, None, now);
    (s.(active := s.active[c := job], nextSerial := s.nextSerial + 1), [job])
  }

  function Accept(s: Async, u: Update): Async {
    s.(received := s.received + {u.dispatch}, active := s.active - {u.job.client},
       answered := s.answered + [Answered(u.dispatch, u.job.version)])
  }

  /** An arrival within the deadline, marked as not yet aggregated. */
  function Take(env: AsyncEnv, s: Async, u: Update): Async {
    s.(ticks := if env.budget.Some? then s.ticks + 1
          else s.ticks, statuses := s.statuses[u.dispatch := Compass.UnaggregatedAtStop])
  }

  function Mix(env: AsyncEnv, s: Async, u: Update, now: real): (Async, seq<Job>) {
    var (done, ok) := Commit(env, s, [u]);
    if ok then NextJob(env, done, u.job.client, now)
    else (done.(statuses := done.statuses[u.dispatch := Compass.DiscardedAtStop]), [])
  }

  function Collect(env: AsyncEnv, s: Async, u: Update, now: real): (Async, seq<Job>) {
    var stored := s.(buffer := s.buffer + [u]);
    if |stored.buffer| != env.cfg.size then NextJob(env, stored, u.job.client, now)
    else
      var (done, ok) := Commit(env, stored, stored.buffer);
      if ok then NextJob(env, done.(buffer := []), u.job.client, now) else (done, [])
  }

  /** An update whose version the model has not reached. */
  predicate FromFuture(s: Async, us: seq<Update>) {
    exists k :: 0 <= k < |us| && us[k].job.version > s.version
  }

  /** What is aggregated now, if anything is, when the update arrives. */
  function Due(cfg: AsyncConfig, s: Async, u: Update): seq<Update> {
    if cfg.rule.FedAsync? then [u] else s.buffer + [u]
  }

  function Process(env: AsyncEnv, s: Async, u: Update, now: real): Outcome {
    if LateAt(env, s.ticks) then Accepted(s.(ticks := s.ticks + 1), [])
    else
      var taken := Take(env, s, u);
      var due := Due(env.cfg, taken, u);
      if (env.cfg.rule.FedAsync? || |due| == env.cfg.size) && FromFuture(taken, due)
      then Failed(if env.cfg.rule.FedAsync? then taken else taken.(buffer := due))
      else
        var (done, jobs) := if env.cfg.rule.FedAsync? then Mix(env, taken, u, now) else Collect(env, taken, u, now);
        Accepted(done, jobs)
  }

  function Receive(env: AsyncEnv, s: Async, u: Update, now: real): Outcome {
    if Expected(s, u) then Process(env, Accept(s, u), u, now) else Rejected
  }

  // ----- start, stop and runs -----

  function StartAll(cfg: AsyncConfig, s: Async, cs: seq<ClientId>, now: real): (r: (Async, seq<Job>))
    ensures |r.1| == |cs|
  {
    if cs == [] then (s, [])
    else
      var (before, jobs) := StartAll(cfg, s, DropLast(cs), now);
      var job := Job(before.nextSerial, Last(cs), cfg.steps, 0, None, now);
      (before.(active := before.active[Last(cs) := job], nextSerial := before.nextSerial + 1), jobs + [job])
  }

  function Initialize(env: AsyncEnv, s: Async, now: real): Outcome {
    if s.initialized then Rejected
    else
      var (started, jobs) := StartAll(env.cfg, s.(initialized := true), env.order, now);
      Accepted(started, jobs)
  }

  function Stop(s: Async): Async {
    s.(buffer := [], active := map[])
  }

  function New(model: Model): Async {
    Async(0, map[], [], model, {}, false, 0, 0, map[], [], [], [], [])
  }

  /** An answer to a client's outstanding assignment: with what was sent, what came back and when. */
  datatype Arrival = Arrival(client: ClientId, dispatch: nat, base: Model, trained: Model, now: real)

  function Answer(s: Async, a: Arrival): Update
    requires a.client in s.active
  {
    Update(s.active[a.client], a.dispatch, a.base, a.trained)
  }

  /** Takes the arrival if the controller accepts it. */
  function Step(env: AsyncEnv, s: Async, a: Arrival): Async {
    if a.client !in s.active then s
    else
      match Receive(env, s, Answer(s, a), a.now)
      case Rejected => s
      case Failed(broken) => broken
      case Accepted(next, _) => next
  }

  function Run(env: AsyncEnv, model: Model, start: real, arrivals: seq<Arrival>): Async {
    if arrivals == [] then
      match Initialize(env, New(model), start)
      case Accepted(s, _) => s
      case _ => New(model)
    else Step(env, Run(env, model, start, DropLast(arrivals)), Last(arrivals))
  }
}
