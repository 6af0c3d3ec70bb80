/** Splitting a labelled data set over clients: the proportional cut of every class, the repair of clients
    that got too little, and the pass that shares every class between two clients. */
module Partition {
  import opened Common
  import opened Samples

  // ----- the minimum size -----

  /** The first client, from `c` on, with too few samples. */
  function FirstShort(a: Shares, minimum: nat, c: nat): (r: Option<nat>)
    requires c <= |a|
    decreases |a| - c
    ensures r.Some? ==> c <= r.value < |a| && |a[r.value]| < minimum
                        && forall k | c <= k < r.value :: minimum <= |a[k]|
    ensures r.None? ==> forall k | c <= k < |a| :: minimum <= |a[k]|
  {
    if c == |a| then None else if |a[c]| < minimum then Some(c) else FirstShort(a, minimum, c + 1)
  }

  /** The first of the longest lists. */
  function Longest(a: Shares): (d: nat)
    requires a != []
    ensures d < |a|
    ensures forall c | 0 <= c < |a| :: |a[c]| <= |a[d]|
    ensures forall c | 0 <= c < d :: |a[c]| < |a[d]|
  {
    if |a| == 1 then 0
    else
      var d := Longest(DropLast(a));
      if |Last(a)| > |a[d]| then |a| - 1 else d
  }

  /** Whether the donor would rather give x than y: first a class the recipient lacks, then the donor's
      more frequent class, then the smaller index. */
  predicate Rather(labels: seq<int>, own: seq<nat>, source: seq<nat>, x: nat, y: nat) {
    var lx, ly := LabelOf(labels, x), LabelOf(labels, y);
    var newX, newY := !Holds(labels, own, lx), !Holds(labels, own, ly);
    var cx, cy := CountLabel(labels, source, lx), CountLabel(labels, source, ly);
    (newX && !newY) || (newX == newY && (cx > cy || (cx == cy && x < y)))
  }

  /** The best sample among the first n of the donor's list. */
  function Choice(labels: seq<int>, own: seq<nat>, source: seq<nat>, n: nat): (x: nat)
    requires 1 <= n <= |source|
    ensures x in source[..n]
    ensures forall k | 0 <= k < n && source[k] != x :: Rather(labels, own, source, x, source[k])
  {
    if n == 1 then source[0]
    else
      var x := Choice(labels, own, source, n - 1);
      assert forall k | 0 <= k < n - 1 :: source[k] in source[..n];
      if Rather(labels, own, source, source[n - 1], x) then source[n - 1] else x
  }

  /** One repair move: the first longest list gives its best sample to client r. */
  function Give(labels: seq<int>, a: Shares, r: nat): Shares
    requires r < |a| && a[Longest(a)] != []
  {
    var d := Longest(a);
    var x := Choice(labels, a[r], a[d], |a[d]|);
    var taken := a[d := Remove(a[d], x)];
    taken[r := taken[r] + [x]]
  }

  function Deficit(a: Shares, minimum: nat): nat {
    if a == [] then 0
    else Deficit(DropLast(a), minimum) + if |Last(a)| < minimum then minimum - |Last(a)| else 0
  }

  /** There are enough samples for everybody. */
  ghost predicate Enough(a: Shares, minimum: nat) {
    minimum * |a| <= TotalSize(a)
  }

  lemma {:induction false} Pigeonhole(a: Shares, minimum: nat, d: nat)
    requires forall c | 0 <= c < |a| :: |a[c]| <= minimum
    requires d < |a| && |a[d]| < minimum
    ensures TotalSize(a) < minimum * |a|
  {
    var b := DropLast(a);
    assert minimum * |a| == minimum * |b| + minimum;
    if d < |b| {
      Pigeonhole(b, minimum, d);
    } else {
      SizeAtMost(b, minimum);
    }
  }

  lemma {:induction false} SizeAtMost(a: Shares, minimum: nat)
    requires forall c | 0 <= c < |a| :: |a[c]| <= minimum
    ensures TotalSize(a) <= minimum * |a|
  {
    if a != [] {
      var b := DropLast(a);
      SizeAtMost(b, minimum);
      assert minimum * |a| == minimum * |b| + minimum;
    }
  }

  /** While somebody is short, the donor has more than the minimum: it is another client and does not fall short. */
  lemma DonorIsRich(a: Shares, minimum: nat, r: nat)
    requires Enough(a, minimum) && r < |a| && |a[r]| < minimum
    ensures |a[Longest(a)]| > minimum && Longest(a) != r
  {
    if |a[Longest(a)]| <= minimum {
      Pigeonhole(a, minimum, r);
    }
  }

  lemma {:induction false} DeficitUpdate(a: Shares, minimum: nat, c: nat, s: seq<nat>)
    requires c < |a|
    ensures Deficit(a[c := s], minimum) + (if |a[c]| < minimum then minimum - |a[c]| else 0)
            == Deficit(a, minimum) + if |s| < minimum then minimum - |s| else 0
  {
    if c < |a| - 1 {
      DeficitUpdate(DropLast(a), minimum, c, s);
      assert DropLast(a[c := s]) == DropLast(a)[c := s];
    } else {
      assert DropLast(a[c := s]) == DropLast(a);
    }
  }

  /** A repair move takes a sample from the donor's list and adds it to the recipient's. */
  lemma GiveMovesOne(labels: seq<int>, a: Shares, minimum: nat, r: nat) returns (d: nat, x: nat)
    requires Enough(a, minimum) && r < |a| && |a[r]| < minimum
    ensures d < |a| && d != r && |a[d]| > minimum && x in a[d] && a[Longest(a)] != []
    ensures Give(labels, a, r) == a[d := Remove(a[d], x)][r := a[r] + [x]]
  {
    DonorIsRich(a, minimum, r);
    d := Longest(a);
    x := Choice(labels, a[r], a[d], |a[d]|);
    assert a[d][..|a[d]|] == a[d];
  }

  lemma MoveCounts(a: Shares, minimum: nat, d: nat, r: nat, x: nat)
    requires d < |a| && r < |a| && d != r && x in a[d] && |a[d]| > minimum && |a[r]| < minimum && Enough(a, minimum)
    ensures var b := a[d := Remove(a[d], x)][r := a[r] + [x]];
            multiset(Flat(b)) == multiset(Flat(a)) && Enough(b, minimum)
                  && Deficit(b, minimum) == Deficit(a, minimum) - 1
  {
    var b := a[d := Remove(a[d], x)][r := a[r] + [x]];
    assert multiset(Remove(a[d], x)) + multiset(a[r] + [x]) == multiset(a[d]) + multiset(a[r]);
    MoveKeepsAll(a, d, r, Remove(a[d], x), a[r] + [x]);
    assert |multiset(Flat(b))| == |multiset(Flat(a))|;
    DeficitUpdate(a, minimum, d, Remove(a[d], x));
    DeficitUpdate(a[d := Remove(a[d], x)], minimum, r, a[r] + [x]);
  }

  /** What one repair move does to every list. */
  lemma GiveMoves(labels: seq<int>, a: Shares, minimum: nat, r: nat)
    requires Enough(a, minimum) && r < |a| && |a[r]| < minimum
    ensures a[Longest(a)] != []
    ensures var b := Give(labels, a, r);
            && |b| == |a| && multiset(Flat(b)) == multiset(Flat(a)) && Enough(b, minimum)
            && Deficit(b, minimum) == Deficit(a, minimum) - 1
            && |b[r]| == |a[r]| + 1 && a[r] <= b[r]
            && (forall c | 0 <= c < |a| && c != r :: |a[c]| >= minimum ==>
                  |b[c]| >= minimum && multiset(b[c]) <= multiset(a[c]))
            && (forall c | 0 <= c < |a| && c != r && |a[c]| <= minimum :: b[c] == a[c])
  {
    var d, x := GiveMovesOne(labels, a, minimum, r);
    hide Give, Longest, Flat, Deficit, Enough;
    MoveCounts(a, minimum, d, r, x);
    MoveShape(a, minimum, d, r, x);
  }

  lemma MoveShape(a: Shares, minimum: nat, d: nat, r: nat, x: nat)
    requires d < |a| && r < |a| && d != r && x in a[d] && |a[d]| > minimum && |a[r]| < minimum
    ensures var b := a[d := Remove(a[d], x)][r := a[r] + [x]];
            && |b| == |a| && |b[r]| == |a[r]| + 1 && a[r] <= b[r]
            && (forall c | 0 <= c < |a| && c != r :: |a[c]| >= minimum ==>
                  |b[c]| >= minimum && multiset(b[c]) <= multiset(a[c]))
            && (forall c | 0 <= c < |a| && c != r && |a[c]| <= minimum :: b[c] == a[c])
  {
  }

  /** Repair: as long as some client is short, the first such client receives one sample. */
  function Repair(labels: seq<int>, a: Shares, minimum: nat): Shares
    requires Enough(a, minimum)
    decreases Deficit(a, minimum)
  {
    match FirstShort(a, minimum, 0)
    case None => a
    case Some(r) =>
      GiveMoves(labels, a, minimum, r);
      Repair(labels, Give(labels, a, r), minimum)
  }

  /** Nothing is lost; short clients keep what they have and get no more than the minimum, others only give. */
  ghost predicate Repairs(a: Shares, b: Shares, minimum: nat) {
    && |b| == |a| && multiset(Flat(b)) == multiset(Flat(a))
    && forall c | 0 <= c < |a| :: RepairsOne(a[c], b[c], minimum)
  }

  ghost predicate RepairsOne(s: seq<nat>, t: seq<nat>, minimum: nat) {
    && (|s| < minimum ==> |t| <= minimum && s <= t)
    && (|s| >= minimum ==> |t| >= minimum && multiset(t) <= multiset(s))
    && (|s| == minimum ==> t == s)
  }

  lemma GiveRepairs(labels: seq<int>, a: Shares, minimum: nat, r: nat)
    requires Enough(a, minimum) && r < |a| && |a[r]| < minimum
    ensures a[Longest(a)] != [] && Repairs(a, Give(labels, a, r), minimum)
  {
    GiveMoves(labels, a, minimum, r);
    hide Give, Longest, Deficit, Flat;
  }

  lemma RepairsTwice(a: Shares, b: Shares, c: Shares, minimum: nat)
    requires Repairs(a, b, minimum) && Repairs(b, c, minimum)
    ensures Repairs(a, c, minimum)
  {
    hide Flat;
    forall k | 0 <= k < |a|
      ensures RepairsOne(a[k], c[k], minimum)
    {
      assert RepairsOne(a[k], b[k], minimum) && RepairsOne(b[k], c[k], minimum);
    }
  }

  lemma {:induction false} RepairRepairs(labels: seq<int>, a: Shares, minimum: nat)
    requires Enough(a, minimum)
    ensures Repairs(a, Repair(labels, a, minimum), minimum) && AllAtLeast(Repair(labels, a, minimum), minimum)
    decreases Deficit(a, minimum)
  {
    match FirstShort(a, minimum, 0)
    case None =>
    case Some(r) =>
      GiveMoves(labels, a, minimum, r);
      GiveRepairs(labels, a, minimum, r);
      var next := Give(labels, a, r);
      hide Give, Longest, Deficit, Repairs, FirstShort;
      RepairRepairs(labels, next, minimum);
      RepairsTwice(a, next, Repair(labels, next, minimum), minimum);
  }

  /** Repair loses nothing and brings everybody to the minimum. A short client keeps what it had and ends
      with exactly the minimum; any other client only gives. */
  lemma RepairMeets(labels: seq<int>, a: Shares, minimum: nat)
    requires Enough(a, minimum)
    ensures var b := Repair(labels, a, minimum);
            && |b| == |a| && multiset(Flat(b)) == multiset(Flat(a)) && AllAtLeast(b, minimum)
            && (forall c | 0 <= c < |a| && |a[c]| < minimum :: |b[c]| == minimum && a[c] <= b[c])
            && (forall c | 0 <= c < |a| && |a[c]| >= minimum :: multiset(b[c]) <= multiset(a[c]))
            && (forall c | 0 <= c < |a| && |a[c]| == minimum :: b[c] == a[c])
  {
    RepairRepairs(labels, a, minimum);
    hide Repair, Flat;
    assert forall c | 0 <= c < |a| :: RepairsOne(a[c], Repair(labels, a, minimum)[c], minimum);
  }
}
