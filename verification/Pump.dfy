/** The pipelined pump of one direction: a reader task and a writer task that share a queue, a byte count and
    two events. One step is what a task does between two points where it can be suspended. Waiting on an event
    ends once the event has been set, even if it was cleared again before the task ran. */
module Pump {
  import opened Common

  type Byte = n: nat | n < 256

  const BLOCK_SIZE: nat := 16 * 1024

  /** A rate limit in megabits per second with the one-way latency in seconds. */
  datatype Limit = Limit(rate: real, latency: real)

  /** Bytes that may be in flight under a limit: the bandwidth-delay product and four blocks. */
  function Window(l: Limit): real {
    l.rate * 1_000_000.0 / 8.0 * l.latency + (4 * BLOCK_SIZE) as real
  }

  /** A block on its way, with the accounting round it was reserved in. */
  datatype Item = Item(block: seq<Byte>, round: nat)

  datatype Entry = Block(item: Item) | End

  datatype Producer =
    | Top
    | AwaitWritable(woken: bool)
    | Reading
    | Reserving(block: seq<Byte>)
    | AwaitSpace(item: Item, limit: Limit, woken: bool)
    | ProducerDone

  datatype Consumer = Getting | Sleeping(item: Item) | Draining(item: Item) | ConsumerDone

  /** `log` lists the delivered items; it is auxiliary. */
  datatype State = State(
    input: seq<Byte>, pos: nat, written: seq<Byte>, producer: Producer, consumer: Consumer,
    queue: seq<Entry>, buffered: int, space: bool, writable: bool, counts: map<nat, nat>, log: seq<Item>)

  /** What happens next: a task goes on, or the environment completes what a task waits for. */
  datatype Act =
    | Resume
    | Read(count: nat)
    | EndOfStream
    | Reserved(limit: Option<Limit>, round: nat)
    | Get
    | SleepOver
    | Drained

  function Initial(input: seq<Byte>): State {
    State(input, 0, [], Top, Getting, [], 0, false, true, map[], [])
  }

  predicate Enabled(s: State, act: Act) {
    match act
    case Resume =>
      s.producer.Top? || (s.producer.AwaitWritable? && s.producer.woken) || (s.producer.AwaitSpace? && s.producer.woken)
    case Read(count) => s.producer.Reading? && 1 <= count <= BLOCK_SIZE && s.pos + count <= |s.input|
    case EndOfStream => s.producer.Reading? && s.pos == |s.input|
    case Reserved(limit, _) => s.producer.Reserving?
          && (limit.Some? ==> limit.value.rate > 0.0 && limit.value.latency >= 0.0)
    case Get => s.consumer.Getting? && s.queue != []
    case SleepOver => s.consumer.Sleeping?
    case Drained => s.consumer.Draining?
  }

  function Enqueue(s: State, item: Item): State {
    s.(buffered := s.buffered + |item.block|, queue := s.queue + [Block(item)], producer := Top)
  }

  /** The admission loop of a rate-limited block: wait while the window is too full. */
  function Admit(s: State, item: Item, limit: Limit): State {
    if (s.buffered + |item.block|) as real > Window(limit)
    then s.(space := false, producer := AwaitSpace(item, limit, false))
    else Enqueue(s, item)
  }

  function SetWritable(s: State): State {
    s.(writable := true, producer := if s.producer.AwaitWritable? then AwaitWritable(true) else s.producer)
  }

  function SetSpace(s: State): State {
    s.(space := true, producer := if s.producer.AwaitSpace? then s.producer.(woken := true) else s.producer)
  }

  function Count(counts: map<nat, nat>, item: Item): map<nat, nat> {
    counts[item.round := (if item.round in counts then counts[item.round] else 0) + |item.block|]
  }

  function Apply(s: State, act: Act): State
    requires Enabled(s, act)
  {
    match act
    case Resume => (
      match s.producer
      case Top => if s.writable then s.(producer := Reading) else s.(producer := AwaitWritable(false))
      case AwaitWritable(_) => s.(producer := Reading)
      case AwaitSpace(item, limit, _) => Admit(s, item, limit))
    case Read(count) => s.(pos := s.pos + count, producer := Reserving(s.input[s.pos..s.pos + count]))
    case EndOfStream => s.(queue := s.queue + [End], producer := ProducerDone)
    case Reserved(limit, round) => (
      var item := Item(s.producer.block, round);
      if limit.None? then Enqueue(s, item) else Admit(s, item, limit.value))
    case Get => (
      var rest := s.(queue := s.queue[1..]);
      match s.queue[0]
      case End => rest.(consumer := ConsumerDone)
      case Block(item) => rest.(consumer := Sleeping(item)))
    case SleepOver => s.(written := s.written + s.consumer.item.block, writable := false,
          consumer := Draining(s.consumer.item))
    case Drained => (
      var item := s.consumer.item;
      var s1 := SetWritable(s);
      SetSpace(s1.(counts := Count(s.counts, item), buffered := s.buffered - |item.block|, consumer := Getting,
                   log := s.log + [item])))
  }

  /** The state after the steps, if each of them was possible when it was taken. */
  function Run(input: seq<Byte>, acts: seq<Act>): Option<State> {
    if acts == [] then Some(Initial(input))
    else
      match Run(input, DropLast(acts))
      case None => None
      case Some(s) => if Enabled(s, Last(acts)) then Some(Apply(s, Last(acts))) else None
  }

  predicate Finished(s: State) {
    s.producer.ProducerDone? && s.consumer.ConsumerDone?
  }

  // ----- where the bytes are -----

  function Bytes(queue: seq<Entry>): seq<Byte> {
    if queue == [] then [] else Bytes(DropLast(queue)) + (if Last(queue).Block? then Last(queue).item.block else [])
  }

  /** The block the producer has read and not queued. */
  function ProducerHolds(p: Producer): seq<Byte> {
    match p
    case Reserving(block) => block
    case AwaitSpace(item, _, _) => item.block
    case _ => []
  }

  function ConsumerHolds(c: Consumer): seq<Byte> {
    match c
    case Sleeping(item) => item.block
    case Draining(item) => item.block
    case _ => []
  }

  function LogBytes(log: seq<Item>): seq<Byte> {
    if log == [] then [] else LogBytes(DropLast(log)) + Last(log).block
  }

  /** Bytes delivered in one accounting round. */
  function RoundBytes(log: seq<Item>, round: nat): nat {
    if log == [] then 0
    else
      RoundBytes(DropLast(log), round) + if Last(log).round == round then |Last(log).block| else 0
  }

  // ----- the invariant -----

  /** Nothing is lost, repeated or reordered, and `buffered` counts what is queued or being written. */
  ghost predicate Conserves(s: State) {
    && s.pos <= |s.input|
    && s.input[..s.pos] == s.written + (if s.consumer.Sleeping? then ConsumerHolds(s.consumer) else [])
          + Bytes(s.queue) + ProducerHolds(s.producer)
    && s.buffered == |Bytes(s.queue)| + |ConsumerHolds(s.consumer)|
    && |ProducerHolds(s.producer)| <= BLOCK_SIZE
  }

  /** The end mark is queued once, after every block, when the producer stops. */
  ghost predicate EndsOnce(s: State) {
    && (forall k | 0 <= k < |s.queue| - 1 :: s.queue[k].Block?)
    && (s.queue != [] && Last(s.queue).End? ==> s.producer.ProducerDone?)
    && (s.producer.ProducerDone? ==> s.pos == |s.input| && (s.consumer.ConsumerDone? <==> s.queue == []))
    && (s.producer.ProducerDone? && s.queue != [] ==> Last(s.queue).End?)
    && (s.consumer.ConsumerDone? ==> s.producer.ProducerDone?)
  }

  /** A producer that nobody has woken waits for something that is still going to happen. */
  ghost predicate WaitsForCause(s: State) {
    && (s.writable <==> !s.consumer.Draining?)
    && (s.producer.AwaitWritable? && !s.producer.woken ==> s.consumer.Draining?)
    && (s.producer.AwaitSpace? ==> s.producer.limit.rate > 0.0 && s.producer.limit.latency >= 0.0)
    && (s.producer.AwaitSpace? && !s.producer.woken ==>
          !s.space && (s.buffered + |s.producer.item.block|) as real > Window(s.producer.limit))
  }

  ghost predicate Accounts(s: State) {
    && LogBytes(s.log) + (if s.consumer.Draining? then s.consumer.item.block else []) == s.written
    && forall r: nat :: (if r in s.counts then s.counts[r] else 0) == RoundBytes(s.log, r)
  }

  ghost predicate Inv(s: State) {
    Conserves(s) && EndsOnce(s) && WaitsForCause(s) && Accounts(s)
  }

  lemma WindowRoom(l: Limit)
    requires l.rate > 0.0 && l.latency >= 0.0
    ensures Window(l) >= (4 * BLOCK_SIZE) as real
  {
    assert l.rate * 1_000_000.0 / 8.0 * l.latency >= 0.0;
  }

  lemma {:induction false} BytesFront(queue: seq<Entry>)
    requires queue != []
    ensures Bytes(queue) == (if queue[0].Block? then queue[0].item.block else []) + Bytes(queue[1..])
  {
    if |queue| > 1 {
      BytesFront(DropLast(queue));
      assert DropLast(queue)[1..] == DropLast(queue[1..]);
    }
  }

  lemma EnqueueConserves(s: State, item: Item)
    requires Conserves(s) && ProducerHolds(s.producer) == item.block
    ensures Conserves(Enqueue(s, item))
  {
    var t := Enqueue(s, item);
    assert DropLast(t.queue) == s.queue;
  }

  lemma AdmitConserves(s: State, item: Item, limit: Limit)
    requires Conserves(s) && ProducerHolds(s.producer) == item.block
    ensures Conserves(Admit(s, item, limit))
  {
    EnqueueConserves(s, item);
    hide Window, Bytes, Enqueue;
  }

  lemma ReadConserves(s: State, count: nat)
    requires Conserves(s) && Enabled(s, Read(count))
    ensures Conserves(Apply(s, Read(count)))
  {
    hide Window, Bytes;
    var end := s.pos + count;
    assert s.input[..end] == s.input[..s.pos] + s.input[s.pos..end];
    var rest := s.written + (if s.consumer.Sleeping? then ConsumerHolds(s.consumer) else []) + Bytes(s.queue);
    assert s.input[..s.pos] == rest;
  }

  lemma EndConserves(s: State)
    requires Conserves(s) && Enabled(s, EndOfStream)
    ensures Conserves(Apply(s, EndOfStream))
  {
    var t := Apply(s, EndOfStream);
    assert DropLast(t.queue) == s.queue;
    assert Bytes(t.queue) == Bytes(s.queue);
    hide Bytes;
  }

  lemma ProducerConserves(s: State, act: Act)
    requires Conserves(s) && EndsOnce(s) && Enabled(s, act)
    requires act.Resume? || act.Read? || act.EndOfStream? || act.Reserved?
    ensures Conserves(Apply(s, act))
  {
    hide Window, Bytes, Admit, Enqueue;
    if act.Resume? {
      if s.producer.AwaitSpace? {
        AdmitConserves(s, s.producer.item, s.producer.limit);
      }
    } else if act.Read? {
      ReadConserves(s, act.count);
    } else if act.EndOfStream? {
      EndConserves(s);
    } else {
      var item := Item(s.producer.block, act.round);
      EnqueueConserves(s, item);
      if act.limit.Some? {
        AdmitConserves(s, item, act.limit.value);
      }
    }
  }

  lemma ConsumerConserves(s: State, act: Act)
    requires Conserves(s) && Enabled(s, act)
    requires act.Get? || act.SleepOver? || act.Drained?
    ensures Conserves(Apply(s, act))
  {
    hide Window, Count;
    if act.Get? {
      BytesFront(s.queue);
    }
    hide Bytes;
    var t := Apply(s, act);
    if act.Get? && s.queue[0].Block? {
      var x, w := s.queue[0].item.block, s.written;
      assert w + [] + (x + Bytes(t.queue)) == w + x + Bytes(t.queue);
    } else if act.SleepOver? {
      assert s.written + s.consumer.item.block + [] == t.written;
    }
  }

  lemma StepConserves(s: State, act: Act)
    requires Conserves(s) && EndsOnce(s) && Enabled(s, act)
    ensures Conserves(Apply(s, act))
  {
    hide *;
    if act.Resume? || act.Read? || act.EndOfStream? || act.Reserved? {
      ProducerConserves(s, act);
    } else {
      ConsumerConserves(s, act);
    }
  }

  lemma GetEndsOnce(s: State)
    requires EndsOnce(s) && Enabled(s, Get)
    ensures EndsOnce(Apply(s, Get))
  {
    var t := Apply(s, Get);
    assert |s.queue| > 1 ==> Last(t.queue) == Last(s.queue);
    assert forall k | 0 <= k < |t.queue| - 1 :: t.queue[k] == s.queue[k + 1];
  }

  lemma StepEndsOnce(s: State, act: Act)
    requires EndsOnce(s) && Conserves(s) && Enabled(s, act)
    ensures EndsOnce(Apply(s, act))
  {
    hide Window, Count, Bytes, Conserves;
    if act.Get? {
      GetEndsOnce(s);
    } else {
      assert forall k | 0 <= k < |s.queue| - 1 :: s.queue[k].Block?;
    }
  }

  lemma StepWaitsForCause(s: State, act: Act)
    requires WaitsForCause(s) && Conserves(s) && Enabled(s, act)
    ensures WaitsForCause(Apply(s, act))
  {
    hide Window, Count, Bytes, Conserves;
  }

  lemma DeliveryAccounts(s: State)
    requires Accounts(s) && Enabled(s, Drained)
    ensures Accounts(Apply(s, Drained))
  {
    hide Window, Bytes;
    var t, item := Apply(s, Drained), s.consumer.item;
    assert t.log == s.log + [item] && t.counts == Count(s.counts, item) && t.written == s.written
          && t.consumer.Getting?;
    hide Apply;
    assert DropLast(t.log) == s.log;
    assert LogBytes(t.log) == LogBytes(s.log) + item.block;
    hide LogBytes;
    forall r: nat
      ensures (if r in t.counts then t.counts[r] else 0) == RoundBytes(t.log, r)
    {
      assert (if r in s.counts then s.counts[r] else 0) == RoundBytes(s.log, r);
    }
  }

  /** What is written and counted changes only when a block is written or delivered. */
  ghost predicate SameAccounts(s: State, t: State) {
    && t.log == s.log && t.counts == s.counts
    && t.written == s.written + (if t.consumer.Draining? && !s.consumer.Draining? then t.consumer.item.block else [])
    && (s.consumer.Draining? ==> t.consumer == s.consumer)
  }

  lemma StepSameAccounts(s: State, act: Act)
    requires Enabled(s, act) && !act.Drained?
    ensures SameAccounts(s, Apply(s, act))
  {
    hide Window;
  }

  lemma StepAccounts(s: State, act: Act)
    requires Accounts(s) && Enabled(s, act)
    ensures Accounts(Apply(s, act))
  {
    if act.Drained? {
      DeliveryAccounts(s);
    } else {
      StepSameAccounts(s, act);
      hide Window, LogBytes, RoundBytes, Apply;
    }
  }

  lemma SameInput(s: State, act: Act)
    requires Enabled(s, act)
    ensures Apply(s, act).input == s.input
  {
    hide Window, Count;
  }

  /** Every reachable state satisfies the invariant. */
  lemma {:induction false} RunKeeps(input: seq<Byte>, acts: seq<Act>)
    requires Run(input, acts).Some?
    ensures Inv(Run(input, acts).value) && Run(input, acts).value.input == input
  {
    if acts != [] {
      hide Enabled, Apply, Conserves, EndsOnce, WaitsForCause, Accounts;
      RunKeeps(input, DropLast(acts));
      var s := Run(input, DropLast(acts)).value;
      StepConserves(s, Last(acts));
      StepEndsOnce(s, Last(acts));
      StepWaitsForCause(s, Last(acts));
      StepAccounts(s, Last(acts));
      SameInput(s, Last(acts));
    }
  }

  // ----- safety -----

  /** What has been written is always a prefix of the input, and so is what has been delivered and counted. */
  lemma WrittenIsPrefix(input: seq<Byte>, acts: seq<Act>)
    requires Run(input, acts).Some?
    ensures var s := Run(input, acts).value;
            s.written <= input && LogBytes(s.log) <= input && |s.written| <= s.pos
  {
    RunKeeps(input, acts);
    var s := Run(input, acts).value;
    assert s.written <= s.input[..s.pos] by {
      hide Bytes;
    }
  }

  /** The item whose admission a step decides, with its limit. */
  ghost predicate Decides(s: State, act: Act, size: nat, limit: Limit) {
    || (act.Reserved? && s.producer.Reserving? && act.limit == Some(limit) && size == |s.producer.block|)
    || (act.Resume? && s.producer.AwaitSpace? && s.producer.limit == limit && size == |s.producer.item.block|)
  }

  /** A rate-limited block is let in exactly when it fits the window, and then the buffer fits it too. */
  lemma AdmittedWithinWindow(s: State, act: Act, size: nat, limit: Limit)
    requires Enabled(s, act) && Decides(s, act, size, limit)
    ensures var t := Apply(s, act);
            if (s.buffered + size) as real <= Window(limit)
            then t.buffered == s.buffered + size && t.buffered as real <= Window(limit) && |t.queue| == |s.queue| + 1
            else t.buffered == s.buffered && t.queue == s.queue && t.producer.AwaitSpace? && !t.producer.woken
  {
    hide Window, Count;
  }

  /** Every block of the run was reserved under a limit whose window is at most w. */
  ghost predicate Limited(acts: seq<Act>, w: real) {
    forall k | 0 <= k < |acts| && acts[k].Reserved? ::
      acts[k].limit.Some? && Window(acts[k].limit.value) <= w
  }

  /** What the window leaves of a state: the buffered bytes fit, and so does the limit a block waits under. */
  ghost predicate FitsWindow(s: State, w: real) {
    && s.buffered as real <= w
    && (s.producer.AwaitSpace? ==> Window(s.producer.limit) <= w)
  }

  lemma StepFitsWindow(s: State, act: Act, w: real)
    requires FitsWindow(s, w) && Enabled(s, act)
    requires act.Reserved? ==> act.limit.Some? && Window(act.limit.value) <= w
    ensures FitsWindow(Apply(s, act), w)
  {
    if act.Reserved? {
      AdmittedWithinWindow(s, act, |s.producer.block|, act.limit.value);
    } else if act.Resume? && s.producer.AwaitSpace? {
      AdmittedWithinWindow(s, act, |s.producer.item.block|, s.producer.limit);
    }
    hide Window, Count;
  }

  /** Limits may change during a run: the bytes in flight never exceed the largest window among them. */
  lemma {:induction false} InFlightWithinWindows(input: seq<Byte>, acts: seq<Act>, w: real)
    requires Run(input, acts).Some? && Limited(acts, w) && 0.0 <= w
    ensures FitsWindow(Run(input, acts).value, w)
  {
    if acts != [] {
      hide Enabled, Apply, FitsWindow, Window;
      assert forall k | 0 <= k < |acts| - 1 :: DropLast(acts)[k] == acts[k];
      InFlightWithinWindows(input, DropLast(acts), w);
      StepFitsWindow(Run(input, DropLast(acts)).value, Last(acts), w);
    } else {
      assert Run(input, acts).value == Initial(input);
    }
  }

  /** A run under one limit keeps its bytes in flight within the bandwidth-delay window of that limit. */
  lemma InFlightWithinWindow(input: seq<Byte>, acts: seq<Act>, l: Limit)
    requires Run(input, acts).Some? && l.rate > 0.0 && l.latency >= 0.0
    requires forall k | 0 <= k < |acts| && acts[k].Reserved? :: acts[k].limit == Some(l)
    ensures Run(input, acts).value.buffered as real <= Window(l)
  {
    WindowRoom(l);
    hide Window, Run;
    InFlightWithinWindows(input, acts, Window(l));
  }

  // ----- progress -----

  /** A waiting producer always has a consumer that can go on without it, and an empty window takes any block. */
  lemma NoLostWakeup(s: State)
    requires Inv(s)
    requires s.producer.AwaitWritable? || s.producer.AwaitSpace?
    ensures s.producer.woken || Enabled(s, Get) || Enabled(s, SleepOver) || Enabled(s, Drained)
  {
    if s.producer.AwaitSpace? {
      WindowRoom(s.producer.limit);
      hide Window;
      assert !s.producer.woken ==> s.buffered > 0;
    }
  }

  /** No deadlock: until both tasks are done some step is possible. */
  lemma NoDeadlock(s: State)
    requires Inv(s) && !Finished(s)
    ensures exists act :: Enabled(s, act)
  {
    if s.producer.AwaitWritable? || s.producer.AwaitSpace? {
      NoLostWakeup(s);
      if s.producer.woken {
        assert Enabled(s, Resume);
      }
    } else if s.producer.Top? {
      assert Enabled(s, Resume);
    } else if s.producer.Reading? {
      assert s.pos == |s.input| ==> Enabled(s, EndOfStream);
      assert s.pos < |s.input| ==> Enabled(s, Read(1));
    } else if s.producer.Reserving? {
      assert Enabled(s, Reserved(None, 0));
    } else if s.consumer.Getting? {
      assert Enabled(s, Get);
    } else if s.consumer.Sleeping? {
      assert Enabled(s, SleepOver);
    } else {
      assert Enabled(s, Drained);
    }
  }

  function ProducerWork(p: Producer): nat {
    match p
    case Top => 13
    case AwaitWritable(woken) => if woken then 11 else 10
    case Reading => 9
    case Reserving(_) => 20
    case AwaitSpace(_, _, woken) => if woken then 19 else 18
    case ProducerDone => 0
  }

  function ConsumerWork(c: Consumer): nat {
    match c
    case Getting => 0
    case Sleeping(_) => 3
    case Draining(_) => 2
    case ConsumerDone => 0
  }

  /** An upper bound on the steps still to come. */
  function Work(s: State): nat
    requires s.pos <= |s.input|
  {
    12 * (|s.input| - s.pos) + ProducerWork(s.producer) + 4 * |s.queue| + ConsumerWork(s.consumer)
  }

  lemma ProducerWorks(s: State, act: Act)
    requires s.pos <= |s.input| && Enabled(s, act) && (act.Resume? || act.Read? || act.EndOfStream? || act.Reserved?)
    ensures Apply(s, act).pos <= |Apply(s, act).input| && Work(Apply(s, act)) < Work(s)
  {
    hide Window, Count, SetSpace, SetWritable;
  }

  lemma ConsumerWorks(s: State, act: Act)
    requires s.pos <= |s.input| && Enabled(s, act) && (act.Get? || act.SleepOver? || act.Drained?)
    ensures Apply(s, act).pos <= |Apply(s, act).input| && Work(Apply(s, act)) < Work(s)
  {
    hide Window, Count, Admit, Enqueue;
  }

  lemma StepWorks(s: State, act: Act)
    requires s.pos <= |s.input| && Enabled(s, act)
    ensures Apply(s, act).pos <= |Apply(s, act).input| && Work(Apply(s, act)) < Work(s)
  {
    hide Apply, Enabled, Work;
    if act.Get? || act.SleepOver? || act.Drained? {
      ConsumerWorks(s, act);
    } else {
      ProducerWorks(s, act);
    }
  }

  /** No run is longer than twelve steps a byte and thirteen more. */
  lemma {:induction false} RunsAreShort(input: seq<Byte>, acts: seq<Act>)
    requires Run(input, acts).Some?
    ensures Run(input, acts).value.pos <= |input| == |Run(input, acts).value.input|
    ensures |acts| + Work(Run(input, acts).value) <= 12 * |input| + 13
  {
    if acts != [] {
      RunsAreShort(input, DropLast(acts));
      StepWorks(Run(input, DropLast(acts)).value, Last(acts));
    }
  }

  lemma UnfinishedGoesOn(input: seq<Byte>, acts: seq<Act>)
    requires Run(input, acts).Some? && !Finished(Run(input, acts).value)
    ensures exists act :: Run(input, acts + [act]).Some?
  {
    RunKeeps(input, acts);
    var s := Run(input, acts).value;
    NoDeadlock(s);
    var act :| Enabled(s, act);
    assert DropLast(acts + [act]) == acts;
    assert Run(input, acts + [act]).Some?;
  }

  /** When both tasks are done everything has been read, written and delivered, in order. */
  lemma FinishedDelivered(s: State)
    requires Inv(s) && Finished(s)
    ensures s.written == s.input && LogBytes(s.log) == s.input && s.buffered == 0 && s.writable
  {
    assert s.input[..s.pos] == s.input;
  }

  /** A run that cannot go on has finished: everything was read, written, delivered and counted, in order. */
  lemma StuckMeansDelivered(input: seq<Byte>, acts: seq<Act>)
    requires Run(input, acts).Some?
    requires forall act :: Run(input, acts + [act]).None?
    ensures var s := Run(input, acts).value;
            Finished(s) && s.written == input && LogBytes(s.log) == input && s.buffered == 0 && s.writable
  {
    RunKeeps(input, acts);
    var s := Run(input, acts).value;
    if !Finished(s) {
      UnfinishedGoesOn(input, acts);
    }
    FinishedDelivered(s);
  }

  // ----- the counters -----

  /** The counters of the first `rounds` rounds. */
  function SumCounts(counts: map<nat, nat>, rounds: nat): nat {
    if rounds == 0 then 0
    else SumCounts(counts, rounds - 1) + if rounds - 1 in counts then counts[rounds - 1] else 0
  }

  function SumRounds(log: seq<Item>, rounds: nat): nat {
    if rounds == 0 then 0 else SumRounds(log, rounds - 1) + RoundBytes(log, rounds - 1)
  }

  lemma {:induction false} NoRounds(rounds: nat)
    ensures SumRounds([], rounds) == 0
  {
    if rounds > 0 {
      NoRounds(rounds - 1);
    }
  }

  lemma {:induction false} OneMoreItem(log: seq<Item>, rounds: nat)
    requires log != []
    ensures SumRounds(log, rounds)
            == SumRounds(DropLast(log), rounds) + if Last(log).round < rounds then |Last(log).block| else 0
  {
    if rounds > 0 {
      OneMoreItem(log, rounds - 1);
    }
  }

  /** Rounds beyond the last one with bytes add nothing. */
  lemma {:induction false} RoundsAddUp(log: seq<Item>, rounds: nat)
    requires forall r: nat | rounds <= r :: RoundBytes(log, r) == 0
    ensures SumRounds(log, rounds) == |LogBytes(log)|
  {
    if log == [] {
      NoRounds(rounds);
    } else {
      forall r: nat | rounds <= r
        ensures RoundBytes(DropLast(log), r) == 0
      {
        assert RoundBytes(log, r) == 0;
      }
      assert rounds <= Last(log).round ==> RoundBytes(log, Last(log).round) == 0;
      RoundsAddUp(DropLast(log), rounds);
      OneMoreItem(log, rounds);
    }
  }

  lemma {:induction false} CountsAreRounds(s: State, rounds: nat)
    requires Accounts(s)
    ensures SumCounts(s.counts, rounds) == SumRounds(s.log, rounds)
  {
    if rounds > 0 {
      CountsAreRounds(s, rounds - 1);
    }
  }

  /** In every reachable state the per-round counters add up to the delivered bytes, and at the end of a run to the
      whole input. */
  lemma CountersAddUp(input: seq<Byte>, acts: seq<Act>, rounds: nat)
    requires Run(input, acts).Some?
    requires forall r | r in Run(input, acts).value.counts :: r < rounds
    ensures var s := Run(input, acts).value;
            && SumCounts(s.counts, rounds) == |LogBytes(s.log)|
            && (Finished(s) ==> SumCounts(s.counts, rounds) == |input|)
  {
    RunKeeps(input, acts);
    var s := Run(input, acts).value;
    CountsAreRounds(s, rounds);
    forall r: nat | rounds <= r
      ensures RoundBytes(s.log, r) == 0
    {
      assert r !in s.counts;
    }
    RoundsAddUp(s.log, rounds);
    if Finished(s) {
      FinishedDelivered(s);
    }
  }
}
