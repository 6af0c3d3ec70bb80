/** The shared rate schedule of one direction: every block is due when the ones before it and itself have
    had their transmission time at the current rate. */
module Pacer {
  import opened Common

  /** The control file: a rate in megabits per second or none, and a round-trip time in milliseconds. */
  datatype Control = Control(rate: Option<real>, rtt: real)

  datatype Reservation = BadRate | BadRoundTrip | Due(at: real)

  /** The schedule: when the line is free, and the rate that was in force. */
  datatype Schedule = Schedule(nextDue: real, lastRate: Option<real>)

  /** Seconds that `count` bytes take at `rate` megabits per second. */
  function Transmission(count: nat, rate: real): real
    requires rate > 0.0
  {
    (count * 8) as real / (rate * 1_000_000.0)
  }

  predicate BadControl(c: Control) {
    c.rate.Some? && c.rate.value <= 0.0
  }

  /** When the block is due, before latency. */
  function DueAt(s: Schedule, c: Control, count: nat, now: real): real
    requires !BadControl(c)
  {
    if c.rate.None? then now
    else (if c.rate != s.lastRate then now else Max(now, s.nextDue)) + Transmission(count, c.rate.value)
  }

  /** The schedule after a call, refused or not. */
  function After(s: Schedule, c: Control, count: nat, now: real): Schedule {
    if BadControl(c) then s else Schedule(DueAt(s, c, count, now), c.rate)
  }

  predicate Refused(c: Control) {
    BadControl(c) || c.rtt < 0.0
  }

  class DirectionPacer {
    var nextDue: real
    var lastRate: Option<real>

    constructor ()
      ensures State() == Schedule(0.0, None)
    {
      nextDue, lastRate := 0.0, None;
    }

    function State(): Schedule
      reads this
    {
      Schedule(nextDue, lastRate)
    }

    /** Reserves the line for a block. A bad rate changes nothing; a negative round-trip time is noticed only
        after the line has been reserved. */
    method Reserve(c: Control, count: nat, now: real) returns (r: Reservation)
      modifies this
      ensures r == if BadControl(c) then BadRate
                   else if c.rtt < 0.0 then BadRoundTrip
                   else Due(DueAt(old(State()), c, count, now) + c.rtt / 2000.0)
      ensures State() == After(old(State()), c, count, now)
      ensures !r.Due? <==> Refused(c)
    {
      if c.rate.Some? && c.rate.value <= 0.0 {
        return BadRate;
      }
      if c.rate != lastRate {
        nextDue := now;
        lastRate := c.rate;
      }
      var due := now;
      if c.rate.Some? {
        due := Max(now, nextDue) + Transmission(count, c.rate.value);
      }
      nextDue := due;
      if c.rtt < 0.0 {
        return BadRoundTrip;
      }
      r := Due(due + c.rtt / 2000.0);
    }
  }

  // ----- refused calls -----

  lemma TransmissionPositive(count: nat, rate: real)
    requires rate > 0.0
    ensures Transmission(count, rate) >= 0.0 && (Transmission(count, rate) == 0.0 <==> count == 0)
  {
    var x, unit := (count * 8) as real, rate * 1_000_000.0;
    assert x / unit * unit == x;
    if count > 0 {
      assert x / unit > 0.0;
    }
  }

  /** A refused call leaves the schedule alone exactly when the rate itself is bad, or the rate is the one in force
      and the call reserves no time: an uncapped call at the very time the line is free, or an empty block on a
      line that is not free yet. */
  lemma RefusedLeavesAlone(s: Schedule, c: Control, count: nat, now: real)
    requires Refused(c)
    ensures After(s, c, count, now) == s <==>
              BadControl(c)
              || (c.rate == s.lastRate && if c.rate.None? then now == s.nextDue else count == 0 && now <= s.nextDue)
  {
    if !BadControl(c) && c.rate.Some? {
      TransmissionPositive(count, c.rate.value);
    }
    hide Transmission;
  }

  /** One byte at eight megabits per second with a negative round-trip time: refused, and the line is reserved. */
  lemma RefusedButReserved()
    ensures var c := Control(Some(8.0), -1.0);
            var s := Schedule(0.0, None);
            Refused(c) && !BadControl(c) && After(s, c, 1, 0.0) != s && After(s, c, 1, 0.0).nextDue == 0.000001
  {
  }

  // ----- a stretch at constant rate -----

  /** A block that asks for the line. */
  datatype Request = Request(count: nat, now: real)

  /** The schedule after the requests, and the times they are due. */
  function Stretch(s: Schedule, rate: real, rs: seq<Request>): (r: (Schedule, seq<real>))
    requires rate > 0.0
    ensures |r.1| == |rs|
  {
    if rs == [] then (s, [])
    else
      var (before, dues) := Stretch(s, rate, DropLast(rs));
      var due := DueAt(before, Control(Some(rate), 0.0), Last(rs).count, Last(rs).now);
      (Schedule(due, Some(rate)), dues + [due])
  }

  function TotalBytes(rs: seq<Request>): nat {
    if rs == [] then 0 else TotalBytes(DropLast(rs)) + Last(rs).count
  }

  /** Bytes of the requests due after `start` and no later than `end`. */
  function BytesDue(rs: seq<Request>, dues: seq<real>, start: real, end: real): nat
    requires |rs| == |dues|
  {
    if rs == [] then 0
    else BytesDue(DropLast(rs), DropLast(dues), start, end) + if start < Last(dues) <= end then Last(rs).count else 0
  }

  lemma TransmissionAdds(a: nat, b: nat, rate: real)
    requires rate > 0.0
    ensures Transmission(a + b, rate) == Transmission(a, rate) + Transmission(b, rate)
    ensures Transmission(a, rate) >= 0.0
    ensures a <= b ==> Transmission(a, rate) <= Transmission(b, rate)
  {
    var unit := rate * 1_000_000.0;
    var x, y := (a * 8) as real, (b * 8) as real;
    assert ((a + b) * 8) as real == x + y;
    assert (x + y) / unit == x / unit + y / unit;
    assert x / unit >= 0.0;
    assert a <= b ==> (y - x) / unit >= 0.0 && y / unit == x / unit + (y - x) / unit;
  }

  /** Consecutive blocks are due at least the second's transmission time apart, and never before it was asked for. */
  lemma Spacing(s: Schedule, rate: real, rs: seq<Request>)
    requires rate > 0.0 && |rs| >= 2
    ensures Stretch(s, rate, rs).1 == Stretch(s, rate, DropLast(rs)).1 + [Last(Stretch(s, rate, rs).1)]
    ensures Last(Stretch(s, rate, DropLast(rs)).1) + Transmission(Last(rs).count, rate) <= Last(Stretch(s, rate, rs).1)
  {
    hide Transmission;
    var before := Stretch(s, rate, DropLast(rs));
    assert before.0.lastRate == Some(rate);
    assert before.0.nextDue == Last(before.1);
  }

  /** Due times never go back. */
  lemma {:induction false} DuesNondecreasing(s: Schedule, rate: real, rs: seq<Request>)
    requires rate > 0.0
    ensures var dues := Stretch(s, rate, rs).1;
            forall i, j :: 0 <= i <= j < |dues| ==> dues[i] <= dues[j]
  {
    if |rs| >= 2 {
      DuesNondecreasing(s, rate, DropLast(rs));
      Spacing(s, rate, rs);
      TransmissionAdds(Last(rs).count, 0, rate);
      hide Transmission, Stretch;
    }
  }

  lemma {:induction false} NothingDue(rs: seq<Request>, dues: seq<real>, start: real, end: real)
    requires |rs| == |dues| && forall i | 0 <= i < |dues| :: dues[i] <= start
    ensures BytesDue(rs, dues, start, end) == 0
  {
    if rs != [] {
      NothingDue(DropLast(rs), DropLast(dues), start, end);
    }
  }

  /** The transmission time of what is due in a window: the part of the window used so far and one block. */
  lemma {:induction false} WindowTime(s: Schedule, rate: real, rs: seq<Request>, block: nat, start: real, end: real)
    requires rate > 0.0 && start <= end && forall i | 0 <= i < |rs| :: rs[i].count <= block
    ensures var dues := Stretch(s, rate, rs).1;
            Transmission(BytesDue(rs, dues, start, end), rate)
            <= Transmission(block, rate) + if dues == [] then 0.0 else Max(0.0, Min(Last(dues), end) - start)
  {
    TransmissionAdds(0, block, rate);
    if rs != [] {
      var dues := Stretch(s, rate, rs).1;
      var d, count := Last(dues), Last(rs).count;
      DuesNondecreasing(s, rate, rs);
      TransmissionAdds(count, block, rate);
      WindowTime(s, rate, DropLast(rs), block, start, end);
      var early := BytesDue(DropLast(rs), DropLast(dues), start, end);
      TransmissionAdds(early, count, rate);
      if |rs| >= 2 {
        Spacing(s, rate, rs);
        hide Transmission, Stretch;
        assert DropLast(dues) == Stretch(s, rate, DropLast(rs)).1;
        var previous := Last(DropLast(dues));
        assert previous == dues[|dues| - 2];
        if previous <= start {
          NothingDue(DropLast(rs), DropLast(dues), start, end);
        }
      }
    }
  }

  lemma Times(a: real, b: real, unit: real)
    requires a <= b && unit > 0.0
    ensures a * unit <= b * unit
  {
  }

  lemma TransmissionTimes(count: nat, rate: real)
    requires rate > 0.0
    ensures Transmission(count, rate) * (rate * 1_000_000.0) == 8.0 * count as real
  {
    var x, unit := (count * 8) as real, rate * 1_000_000.0;
    assert x / unit * unit == x;
  }

  lemma Untransmit(bytes: nat, block: nat, rate: real, span: real)
    requires rate > 0.0 && Transmission(bytes, rate) <= Transmission(block, rate) + span
    ensures bytes as real <= rate * 1_000_000.0 * span / 8.0 + block as real
  {
    TransmissionTimes(bytes, rate);
    TransmissionTimes(block, rate);
    var x, y, unit := Transmission(bytes, rate), Transmission(block, rate), rate * 1_000_000.0;
    hide Transmission;
    Times(x, y + span, unit);
    assert (y + span) * unit == y * unit + span * unit;
    assert span * unit == unit * span;
  }

  /** The rate bound: in any window, at most the rate's worth of bytes and one block are due. */
  lemma RateBound(s: Schedule, rate: real, rs: seq<Request>, block: nat, start: real, span: real)
    requires rate > 0.0 && span >= 0.0 && forall i | 0 <= i < |rs| :: rs[i].count <= block
    ensures BytesDue(rs, Stretch(s, rate, rs).1, start, start + span) as real
          <= rate * 1_000_000.0 * span / 8.0 + block as real
  {
    WindowTime(s, rate, rs, block, start, start + span);
    hide Transmission, Stretch, BytesDue;
    Untransmit(BytesDue(rs, Stretch(s, rate, rs).1, start, start + span), block, rate, span);
  }

  // ----- an independent description of the schedule -----

  /** When the last request would be due if the line had been free at `from` just before request k. */
  function DueFrom(rs: seq<Request>, k: nat, from: real, rate: real): real
    requires rate > 0.0 && k <= |rs|
  {
    from + Backlog(rs, k, rate)
  }

  /** The transmission time of the requests from the k-th on. */
  function Backlog(rs: seq<Request>, k: nat, rate: real): real
    requires rate > 0.0 && k <= |rs|
  {
    Transmission(TotalBytes(rs[k..]), rate)
  }

  /** When the line becomes free for the stretch. */
  function FreeAt(s: Schedule, rate: real, rs: seq<Request>): real
    requires rs != []
  {
    if s.lastRate == Some(rate) then Max(rs[0].now, s.nextDue) else rs[0].now
  }

  lemma BacklogGrows(rs: seq<Request>, k: nat, rate: real)
    requires rate > 0.0 && k < |rs|
    ensures Backlog(rs, k, rate) == Backlog(DropLast(rs), k, rate) + Transmission(Last(rs).count, rate)
  {
    assert DropLast(rs[k..]) == DropLast(rs)[k..];
    TransmissionAdds(TotalBytes(DropLast(rs)[k..]), Last(rs).count, rate);
  }

  lemma LastAlone(rs: seq<Request>, rate: real)
    requires rate > 0.0 && rs != []
    ensures Backlog(rs, |rs| - 1, rate) == Transmission(Last(rs).count, rate)
  {
    var tail := rs[|rs| - 1..];
    assert tail == [Last(rs)] && DropLast(tail) == [];
    assert TotalBytes(DropLast(tail)) == 0;
    assert TotalBytes(tail) == Last(rs).count;
  }

  lemma OneRequest(s: Schedule, rate: real, rs: seq<Request>)
    requires rate > 0.0 && |rs| == 1
    ensures Last(Stretch(s, rate, rs).1) == DueFrom(rs, 0, FreeAt(s, rate, rs), rate) >= DueFrom(rs, 0, rs[0].now, rate)
  {
    LastAlone(rs, rate);
    hide Transmission;
    assert DropLast(rs) == [];
  }

  lemma NextDue(s: Schedule, rate: real, rs: seq<Request>)
    requires rate > 0.0 && |rs| >= 2
    ensures Last(Stretch(s, rate, rs).1) == Max(Last(rs).now, Last(Stretch(s, rate, DropLast(rs)).1))
          + Transmission(Last(rs).count, rate)
    ensures FreeAt(s, rate, rs) == FreeAt(s, rate, DropLast(rs))
  {
    hide Transmission;
    var before := Stretch(s, rate, DropLast(rs));
    assert before.0.lastRate == Some(rate);
    assert before.0.nextDue == Last(before.1);
  }

  /** The latest over these starts. */
  ghost predicate IsLatest(s: Schedule, rate: real, rs: seq<Request>, due: real)
    requires rate > 0.0 && rs != []
  {
    && DueFrom(rs, 0, FreeAt(s, rate, rs), rate) <= due
    && (forall k | 0 <= k < |rs| :: DueFrom(rs, k, rs[k].now, rate) <= due)
    && (due == DueFrom(rs, 0, FreeAt(s, rate, rs), rate) || exists k ::
          0 <= k < |rs| && due == DueFrom(rs, k, rs[k].now, rate))
  }

  /** One more request shifts every earlier start's due time by its transmission. */
  lemma DueFromGrows(rs: seq<Request>, k: nat, from: real, rate: real)
    requires rate > 0.0 && k < |rs|
    ensures DueFrom(rs, k, from, rate) == DueFrom(DropLast(rs), k, from, rate) + Transmission(Last(rs).count, rate)
  {
    BacklogGrows(rs, k, rate);
    hide Backlog, Transmission;
  }

  lemma LastDue(rs: seq<Request>, rate: real)
    requires rate > 0.0 && rs != []
    ensures DueFrom(rs, |rs| - 1, Last(rs).now, rate) == Last(rs).now + Transmission(Last(rs).count, rate)
  {
    LastAlone(rs, rate);
    hide Backlog, Transmission;
  }

  lemma LatestNext(s: Schedule, rate: real, rs: seq<Request>, before: real, due: real)
    requires rate > 0.0 && |rs| >= 2 && IsLatest(s, rate, DropLast(rs), before)
    requires due == Max(Last(rs).now, before) + Transmission(Last(rs).count, rate)
    requires FreeAt(s, rate, rs) == FreeAt(s, rate, DropLast(rs))
    ensures IsLatest(s, rate, rs, due)
  {
    hide DueFrom, FreeAt, Transmission;
    var shorter, more := DropLast(rs), Transmission(Last(rs).count, rate);
    LastDue(rs, rate);
    DueFromGrows(rs, 0, FreeAt(s, rate, rs), rate);
    forall k | 0 <= k < |shorter|
      ensures DueFrom(rs, k, rs[k].now, rate) == DueFrom(shorter, k, shorter[k].now, rate) + more
    {
      DueFromGrows(rs, k, rs[k].now, rate);
    }
    if before <= Last(rs).now {
      assert due == DueFrom(rs, |rs| - 1, rs[|rs| - 1].now, rate);
    } else if before != DueFrom(shorter, 0, FreeAt(s, rate, shorter), rate) {
      var k :| 0 <= k < |shorter| && before == DueFrom(shorter, k, shorter[k].now, rate);
      assert due == DueFrom(rs, k, rs[k].now, rate);
    }
  }

  /** The last due time is the latest over all requests of: the moment it was asked for (for the first one, the
      moment the line was free) followed by the transmission of it and everything after it. */
  lemma {:induction false} DueIsLatest(s: Schedule, rate: real, rs: seq<Request>)
    requires rate > 0.0 && rs != []
    ensures var due := Last(Stretch(s, rate, rs).1);
            && DueFrom(rs, 0, FreeAt(s, rate, rs), rate) <= due
            && (forall k | 0 <= k < |rs| :: DueFrom(rs, k, rs[k].now, rate) <= due)
            && (due == DueFrom(rs, 0, FreeAt(s, rate, rs), rate) || exists k ::
                  0 <= k < |rs| && due == DueFrom(rs, k, rs[k].now, rate))
  {
    hide Stretch, DueFrom, FreeAt, Transmission;
    if |rs| == 1 {
      OneRequest(s, rate, rs);
    } else {
      var shorter := DropLast(rs);
      DueIsLatest(s, rate, shorter);
      NextDue(s, rate, rs);
      LatestNext(s, rate, rs, Last(Stretch(s, rate, shorter).1), Last(Stretch(s, rate, rs).1));
    }
  }
}
