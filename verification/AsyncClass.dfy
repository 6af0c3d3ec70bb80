/** The asynchronous controller as an object, told which assignment is answered by the object itself. */
module AsyncClass {
  import opened Common
  import opened Vectors
  import opened Scheduling
  import opened AsyncFL
  import opened CompassClass
  import Compass

  class AsyncController {
    const env: AsyncEnv
    var version: nat
    var active: map<ClientId, Assignment>
    var buffer: seq<Update>
    var model: Model
    var received: set<nat>
    var initialized: bool
    var nextSerial: nat
    var ticks: nat
    var statuses: map<nat, Compass.Status>
    var records: seq<Record>
    ghost var answered: seq<Answered>
    ghost var committed: seq<Update>
    ghost var weights: seq<real>

    constructor (env: AsyncEnv, model: Model)
      ensures this.env == env && active == map[] && State() == New(model)
    {
      this.env, this.model := env, model;
      version, active, buffer, received, initialized, nextSerial, ticks := 0, map[], [], {}, false, 0, 0;
      statuses, records, answered, committed, weights := map[], [], [], [], [];
      new;
      assert Values(active) == map[];
    }

    ghost function State(): Async
      reads this, active.Values
    {
      Async(version, Values(active), buffer, model, received, initialized, nextSerial, ticks, statuses, records,
            answered, committed, weights)
    }

    method Clock() returns (at: real)
      modifies this`ticks
      ensures ticks == old(ticks) + 1 && at == env.tick(old(ticks))
    {
      at := env.tick(ticks);
      ticks := ticks + 1;
    }

    /** The model of the next version, computed tensor by tensor. */
    method Blend(us: seq<Update>) returns (candidate: Model)
      requires us != []
      ensures candidate == Candidate(env.cfg, version, model, us)
    {
      hide Interpolate, AddDelta, MeanStats, WeightOf;
      var w := WeightOf(env.cfg, version, us[0]);
      if env.cfg.rule.FedAsync? {
        return Model(Interpolate(w, model.params, us[0].trained.params),
              Interpolate(w, model.stats, us[0].trained.stats));
      }
      var params := model.params;
      for k := 0 to |us|
        invariant params == AddDeltas(model.params, w, us[..k])
      {
        assert DropLast(us[..k + 1]) == us[..k];
        params := AddDelta(params, w, us[k]);
      }
      assert us[..|us|] == us;
      candidate := Model(params, MeanStats(us, |model.stats|));
    }

    method MarkCommitted(us: seq<Update>, before: nat, at: real)
      modifies this`statuses
      ensures statuses == MarkAll(env.cfg, before, at, old(statuses), us)
    {
      hide WeightOf;
      for k := 0 to |us|
        invariant statuses == MarkAll(env.cfg, before, at, old(statuses), us[..k])
      {
        assert DropLast(us[..k + 1]) == us[..k];
        statuses := statuses[us[k].dispatch := Compass.Aggregated(before + 1, at, Compass.Delay(before, us[k]),
              WeightOf(env.cfg, before, us[k]))];
      }
      assert us[..|us|] == us;
    }

    /** Books the model that is already in place as the next version. */
    method Record(us: seq<Update>, at: real)
      modifies this`version, this`statuses, this`records, this`committed, this`weights
      ensures version == old(version) + 1
      ensures statuses == MarkAll(env.cfg, old(version), at, old(statuses), us)
      ensures records == old(records) + [AsyncFL.Record(old(version) + 1, at, Compass.DispatchesOf(us), |us|)]
      ensures committed == old(committed) + us && weights == old(weights) + Weights(env.cfg, old(version), us)
    {
      hide MarkAll;
      weights := weights + Weights(env.cfg, version, us);
      committed := committed + us;
      version := version + 1;
      MarkCommitted(us, version - 1, at);
      records := records + [AsyncFL.Record(version, at, Compass.DispatchesOf(us), |us|)];
    }

    /** Puts the new model in place and looks at the clock; if that is too late the old model is put back. */
    method Install(candidate: Model, us: seq<Update>) returns (ok: bool)
      requires us != [] && candidate == Candidate(env.cfg, version, model, us)
      modifies this`ticks, this`model, this`version, this`statuses, this`records, this`committed, this`weights
      ensures ok == !LateAt(env, old(ticks))
      ensures var stamped := old(State()).(ticks := old(ticks) + 1);
              State() == if ok then Committed(env, stamped, us, env.tick(old(ticks))) else stamped
    {
      hide Candidate, MarkAll, Weights, Values, Compass.DispatchesOf;
      var current := model;
      model := candidate;
      var at := Clock();
      if env.budget.Some? && at >= env.budget.value {
        model := current;
        return false;
      }
      Record(us, at);
      ok := true;
    }

    /** Commits unless the deadline has passed before the model is replaced or right after. */
    method CommitUpdates(us: seq<Update>) returns (ok: bool)
      requires us != []
      modifies this`ticks, this`model, this`version, this`statuses, this`records, this`committed, this`weights
      ensures (State(), ok) == Commit(env, old(State()), us)
    {
      hide Candidate, Committed, Values;
      var candidate := Blend(us);
      if env.budget.Some? {
        var now := Clock();
        if now >= env.budget.value {
          return false;
        }
      }
      ok := Install(candidate, us);
    }

    method GiveJob(c: ClientId, now: real) returns (jobs: seq<Assignment>)
      modifies this`active, this`nextSerial
      ensures |jobs| == 1 && fresh(jobs[0]) && active == old(active)[c := jobs[0]]
      ensures (State(), ValuesOf(jobs)) == NextJob(env, old(State()), c, now)
    {
      var job := new Assignment(nextSerial, c, env.cfg.steps, version, None, now);
      nextSerial := nextSerial + 1;
      active := active[c := job];
      jobs := [job];
      assert Values(active) == old(Values(active))[c := job.Value()];
      assert ValuesOf(jobs) == [job.Value()];
    }

    method MixUpdate(u: Update, now: real) returns (jobs: seq<Assignment>)
      modifies this
      ensures forall k | 0 <= k < |jobs| :: fresh(jobs[k])
      ensures (State(), ValuesOf(jobs)) == Mix(env, old(State()), u, now)
    {
      hide Commit, NextJob, Values;
      jobs := [];
      var ok := CommitUpdates([u]);
      if ok {
        jobs := GiveJob(u.job.client, now);
      } else {
        statuses := statuses[u.dispatch := Compass.DiscardedAtStop];
      }
    }

    method CollectUpdate(u: Update, now: real) returns (jobs: seq<Assignment>)
      modifies this
      ensures forall k | 0 <= k < |jobs| :: fresh(jobs[k])
      ensures (State(), ValuesOf(jobs)) == Collect(env, old(State()), u, now)
    {
      hide Commit, NextJob, Values;
      jobs := [];
      buffer := buffer + [u];
      if |buffer| == env.cfg.size {
        var ok := CommitUpdates(buffer);
        if !ok {
          return;
        }
        buffer := [];
      }
      jobs := GiveJob(u.job.client, now);
    }

    /** Works on an accepted update; `failed` is an exception on the way. */
    method ProcessUpdate(u: Update, now: real) returns (failed: bool, jobs: seq<Assignment>)
      modifies this
      ensures forall k | 0 <= k < |jobs| :: fresh(jobs[k])
      ensures Process(env, old(State()), u, now) == if failed then Failed(State())
            else Accepted(State(), ValuesOf(jobs))
    {
      hide Mix, Collect, Values;
      jobs, failed := [], false;
      if env.budget.Some? {
        var at := Clock();
        if at >= env.budget.value {
          return;
        }
      }
      statuses := statuses[u.dispatch := Compass.UnaggregatedAtStop];
      var due := if env.cfg.rule.FedAsync? then [u] else buffer + [u];
      if (env.cfg.rule.FedAsync? || |due| == env.cfg.size) && exists k ::
            0 <= k < |due| && due[k].job.version > version {
        failed := true;
        if env.cfg.rule.FedBuff? {
          buffer := due;
        }
        return;
      }
      if env.cfg.rule.FedAsync? {
        jobs := MixUpdate(u, now);
      } else {
        jobs := CollectUpdate(u, now);
      }
    }

    /** Takes the update if `job` is the client's assignment object itself. */
    method ReceiveUpdate(job: Assignment, dispatch: nat, base: Model, trained: Model, now: real)
        returns (accepted: bool, failed: bool, jobs: seq<Assignment>)
      modifies this
      ensures accepted == (old(job.client in active && active[job.client] == job) && dispatch !in old(received)
                           && Compass.SameShape(base, old(model)) && Compass.SameShape(trained, old(model)))
      ensures !accepted ==> State() == old(State()) && jobs == [] && !failed
      ensures accepted ==>
                Receive(env, old(State()), Update(old(job.Value()), dispatch, base, trained), now)
                == if failed then Failed(State()) else Accepted(State(), ValuesOf(jobs))
      ensures forall k | 0 <= k < |jobs| :: fresh(jobs[k])
    {
      hide Process;
      jobs, failed := [], false;
      accepted := job.client in active && active[job.client] == job && dispatch !in received
        && Compass.SameShape(base, model) && Compass.SameShape(trained, model);
      if !accepted {
        return;
      }
      var u := Update(job.Value(), dispatch, base, trained);
      assert Expected(State(), u);
      received := received + {dispatch};
      answered := answered + [Answered(dispatch, u.job.version)];
      active := active - {job.client};
      assert Values(active) == old(Values(active)) - {job.client};
      failed, jobs := ProcessUpdate(u, now);
    }

    method StartClient(c: ClientId, now: real) returns (job: Assignment)
      modifies this`active, this`nextSerial
      ensures fresh(job) && job.Value() == Job(old(nextSerial), c, env.cfg.steps, 0, None, now)
      ensures State() == old(State()).(active := old(Values(active))[c := job.Value()],
            nextSerial := old(nextSerial) + 1)
    {
      job := new Assignment(nextSerial, c, env.cfg.steps, 0, None, now);
      active := active[c := job];
      nextSerial := nextSerial + 1;
      assert Values(active) == old(Values(active))[c := job.Value()];
    }

    /** The first assignment of every client; a second start is refused. */
    method InitializeAll(now: real) returns (accepted: bool, jobs: seq<Assignment>)
      modifies this
      ensures accepted == !old(initialized)
      ensures Initialize(env, old(State()), now) == if accepted then Accepted(State(), ValuesOf(jobs)) else Rejected
      ensures !accepted ==> State() == old(State())
      ensures forall k | 0 <= k < |jobs| :: fresh(jobs[k])
    {
      hide Values;
      accepted, jobs := !initialized, [];
      if !accepted {
        return;
      }
      initialized := true;
      for k := 0 to |env.order|
        invariant forall i | 0 <= i < |jobs| :: fresh(jobs[i])
        invariant (State(), ValuesOf(jobs)) == StartAll(env.cfg, old(State()).(initialized := true),
              env.order[..k], now)
      {
        assert DropLast(env.order[..k + 1]) == env.order[..k];
        ghost var before := ValuesOf(jobs);
        var job := StartClient(env.order[k], now);
        jobs := jobs + [job];
        assert ValuesOf(jobs) == before + [job.Value()];
      }
      assert env.order[..|env.order|] == env.order;
    }

    method StopAll()
      modifies this
      ensures State() == Stop(old(State()))
    {
      buffer, active := [], map[];
      assert Values(active) == map[];
    }
  }
}
