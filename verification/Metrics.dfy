/** What clients say about themselves with every update, and when the checkers accept it. */
module Metrics {
  import opened Common
  import opened Scheduling

  /** Times are the client's own clock's. An amount that is missing or not finite is None. */
  datatype Metrics = Metrics(
    index: nat, device: nat, pid: Option<nat>, partition: nat, started: int, finished: int,
    loss: Option<real>, duration: Option<real>, proximal: real)

  datatype Worker = Worker(index: nat, device: nat)

  /** The two clients of a host. */
  datatype Host = Host(cpu: ClientId, gpu: ClientId)

  /** The frozen workers, the hash of the data partition, and the hosts. */
  datatype Crew = Crew(worker: ClientId -> Worker, partition: nat, hosts: seq<Host>)

  /** The clients of a run: how they train and what they say; `told(d)` comes with the answer to dispatch d. */
  datatype Reporters = Reporters(batch: Positive, crew: Crew, told: nat -> Metrics)

  predicate RightWorker(crew: Crew, c: ClientId, m: Metrics) {
    Worker(m.index, m.device) == crew.worker(c)
  }

  predicate TimesHold(m: Metrics) {
    0 < m.started < m.finished
  }

  predicate Amount(a: Option<real>) {
    a.Some? && a.value >= 0.0
  }

  predicate AmountsHold(m: Metrics) {
    Amount(m.loss) && Amount(m.duration)
  }

  // ----- processes -----

  /** Which client an update came from, and which process. */
  datatype Sign = Sign(client: ClientId, pid: Option<nat>)

  function Pids(signs: set<Sign>, c: ClientId): set<Option<nat>> {
    set s | s in signs && s.client == c :: s.pid
  }

  /** All updates of the client came from one process. */
  predicate OneProcess(signs: set<Sign>, c: ClientId) {
    |Pids(signs, c)| == 1 && None !in Pids(signs, c)
  }

  /** Both clients of the host ran in the same process. */
  predicate Shared(signs: set<Sign>, h: Host) {
    Pids(signs, h.cpu) != {} && Pids(signs, h.cpu) == Pids(signs, h.gpu)
  }

  /** Every client's updates come from its own process, and the clients of a host use different ones. */
  ghost predicate OwnProcesses(signs: set<Sign>, ids: seq<ClientId>, crew: Crew, process: map<ClientId, nat>) {
    && (forall c | c in ids :: exists s :: s in signs && s.client == c)
    && (forall s | s in signs :: s.client in process && s.pid == Some(process[s.client]))
    && forall h | h in crew.hosts && h.cpu in process && h.gpu in process :: process[h.cpu] != process[h.gpu]
  }

  lemma OwnProcessesPass(signs: set<Sign>, ids: seq<ClientId>, crew: Crew, process: map<ClientId, nat>)
    requires OwnProcesses(signs, ids, crew, process)
    ensures !SomeChanged(signs, ids) && !SomeShared(signs, crew)
  {
    forall c | c in ids
      ensures OneProcess(signs, c)
    {
      var s :| s in signs && s.client == c;
      assert s == Sign(c, Some(process[c]));
      OneProcessMeans(signs, c);
    }
    forall h | h in crew.hosts && Pids(signs, h.cpu) != {}
      ensures !Shared(signs, h)
    {
      var p :| p in Pids(signs, h.cpu);
      assert h.cpu in process && p == Some(process[h.cpu]);
      assert forall q | q in Pids(signs, h.gpu) :: h.gpu in process && q == Some(process[h.gpu]);
    }
  }

  ghost predicate SomeShared(signs: set<Sign>, crew: Crew) {
    exists h :: h in crew.hosts && Shared(signs, h)
  }

  ghost predicate SomeChanged(signs: set<Sign>, ids: seq<ClientId>) {
    exists c :: c in ids && !OneProcess(signs, c)
  }

  method CheckProcesses(signs: set<Sign>, ids: seq<ClientId>, crew: Crew) returns (changed: bool, shared: bool)
    ensures changed == SomeChanged(signs, ids) && shared == SomeShared(signs, crew)
  {
    changed, shared := false, false;
    for k := 0 to |ids|
      invariant changed == exists c :: c in ids[..k] && !OneProcess(signs, c)
    {
      assert ids[..k + 1] == ids[..k] + [ids[k]];
      changed := changed || !OneProcess(signs, ids[k]);
    }
    assert ids[..|ids|] == ids;
    for k := 0 to |crew.hosts|
      invariant shared == exists h :: h in crew.hosts[..k] && Shared(signs, h)
    {
      assert crew.hosts[..k + 1] == crew.hosts[..k] + [crew.hosts[k]];
      shared := shared || Shared(signs, crew.hosts[k]);
    }
    assert crew.hosts[..|crew.hosts|] == crew.hosts;
  }

  /** A client has one process exactly when all its updates name the same one, and it has an update. */
  lemma OneProcessMeans(signs: set<Sign>, c: ClientId)
    ensures OneProcess(signs, c)
            <==> exists n: nat ::
                   Sign(c, Some(n)) in signs && forall s | s in signs && s.client == c :: s.pid == Some(n)
  {
    var pids := Pids(signs, c);
    if OneProcess(signs, c) {
      var p :| p in pids;
      assert p.Some? && Sign(c, p) in signs;
      forall s | s in signs && s.client == c
        ensures s.pid == p
      {
        assert |pids - {p}| == 0;
        assert s.pid in pids;
      }
    }
    if n: nat :| Sign(c, Some(n)) in signs && forall s | s in signs && s.client == c :: s.pid == Some(n) {
      assert pids == {Some(n)};
    }
  }
}
