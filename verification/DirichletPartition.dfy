/** The partitioner itself: loops that move samples between the clients' lists in place. */
module DirichletPartition {
  import opened Common
  import opened Samples
  import opened Partition
  import opened Sharing
  import opened Cutting

  /** How often each label occurs in the list; labels that do not occur are absent. */
  method Tally(labels: seq<int>, s: seq<nat>) returns (counts: map<int, nat>)
    ensures forall l :: l in counts <==> Holds(labels, s, l)
    ensures forall l | l in counts :: counts[l] == CountLabel(labels, s, l)
  {
    counts := map[];
    for k := 0 to |s|
      invariant forall l :: l in counts <==> CountLabel(labels, s[..k], l) > 0
      invariant forall l | l in counts :: counts[l] == CountLabel(labels, s[..k], l)
    {
      var l := LabelOf(labels, s[k]);
      assert DropLast(s[..k + 1]) == s[..k];
      counts := counts[l := if l in counts then counts[l] + 1 else 1];
    }
    assert s[..|s|] == s;
    forall l
      ensures l in counts <==> Holds(labels, s, l)
    {
      CountPositive(labels, s, l);
    }
  }

  method FindLongest(a: array<seq<nat>>) returns (d: nat)
    requires a.Length > 0
    ensures d == Longest(a[..])
  {
    d := 0;
    for c := 1 to a.Length
      invariant d == Longest(a[..c])
    {
      assert DropLast(a[..c + 1]) == a[..c];
      if |a[c]| > |a[d]| {
        d := c;
      }
    }
    assert a[..a.Length] == a[..];
  }

  method Choose(labels: seq<int>, own: seq<nat>, source: seq<nat>) returns (x: nat)
    requires source != []
    ensures x == Choice(labels, own, source, |source|)
  {
    var counts := Tally(labels, source);
    var present := Tally(labels, own);
    hide LabelOf, CountLabel;
    x := source[0];
    for n := 1 to |source|
      invariant x == Choice(labels, own, source, n)
    {
      var y := source[n];
      assert Holds(labels, source, LabelOf(labels, x)) && Holds(labels, source, LabelOf(labels, y));
      var cx, cy := counts[LabelOf(labels, x)], counts[LabelOf(labels, y)];
      var newX, newY := LabelOf(labels, x) !in present, LabelOf(labels, y) !in present;
      if (newY && !newX) || (newX == newY && (cy > cx || (cx == cy && y < x))) {
        x := y;
      }
    }
  }

  /** Repairing can begin with the first short client. */
  lemma RepairFrom(labels: seq<int>, a: Shares, minimum: nat, r: nat)
    requires Enough(a, minimum) && r < |a| && |a[r]| < minimum
    requires forall c | 0 <= c < r :: |a[c]| >= minimum
    ensures a[Longest(a)] != []
    ensures var b := Give(labels, a, r);
            && |b| == |a| && Enough(b, minimum) && Repair(labels, a, minimum) == Repair(labels, b, minimum)
            && |b[r]| == |a[r]| + 1 && forall c | 0 <= c < r :: |b[c]| >= minimum
  {
    GiveMoves(labels, a, minimum, r);
    assert FirstShort(a, minimum, 0) == Some(r);
  }

  /** Client r takes samples from the longest list until it has the minimum. */
  method Fill(a: array<seq<nat>>, labels: seq<int>, minimum: nat, r: nat)
    requires r < a.Length && Enough(a[..], minimum)
    requires forall c | 0 <= c < r :: |a[c]| >= minimum
    modifies a
    ensures Enough(a[..], minimum) && Repair(labels, a[..], minimum) == Repair(labels, old(a[..]), minimum)
    ensures forall c | 0 <= c <= r :: |a[c]| >= minimum
  {
    hide Give, Longest, Repair, Enough;
    while |a[r]| < minimum
      invariant forall c | 0 <= c < r :: |a[c]| >= minimum
      invariant Enough(a[..], minimum) && Repair(labels, a[..], minimum) == Repair(labels, old(a[..]), minimum)
      decreases minimum - |a[r]|
    {
      ghost var before := a[..];
      RepairFrom(labels, before, minimum, r);
      GiveTo(a, labels, r);
      assert forall c | 0 <= c < a.Length :: a[..][c] == a[c];
    }
  }

  /** Phase one: every client in turn is filled up to the minimum. */
  method RaiseToMinimum(a: array<seq<nat>>, labels: seq<int>, minimum: nat)
    requires Enough(a[..], minimum)
    modifies a
    ensures a[..] == Repair(labels, old(a[..]), minimum)
  {
    for r := 0 to a.Length
      invariant forall c | 0 <= c < r :: |a[c]| >= minimum
      invariant Enough(a[..], minimum) && Repair(labels, a[..], minimum) == Repair(labels, old(a[..]), minimum)
    {
      hide Repair;
      Fill(a, labels, minimum, r);
    }
    assert FirstShort(a[..], minimum, 0).None?;
  }

  /** One repair move. */
  method GiveTo(a: array<seq<nat>>, labels: seq<int>, r: nat)
    requires r < a.Length && a[Longest(a[..])] != []
    modifies a
    ensures a[..] == Give(labels, old(a[..]), r)
  {
    var donor := FindLongest(a);
    var chosen := Choose(labels, a[r], a[donor]);
    a[donor] := Remove(a[donor], chosen);
    a[r] := a[r] + [chosen];
  }

  method FindHolders(a: array<seq<nat>>, labels: seq<int>, l: int) returns (holders: seq<nat>)
    ensures holders == Holders(labels, a[..], l)
  {
    holders := [];
    hide Holds;
    for c := 0 to a.Length
      invariant holders == Holders(labels, a[..c], l)
    {
      assert DropLast(a[..c + 1]) == a[..c];
      if Holds(labels, a[c], l) {
        holders := holders + [c];
      }
    }
    assert a[..a.Length] == a[..];
  }

  /** The first sample the client can part with. */
  method FindSwap(labels: seq<int>, own: seq<nat>, donor: seq<nat>) returns (swap: Option<nat>)
    ensures swap == FirstSwap(labels, own, donor, 0)
  {
    var counts := Tally(labels, own);
    var donorLabels := Tally(labels, donor);
    swap := None;
    var k := 0;
    while k < |own|
      invariant 0 <= k <= |own|
      invariant FirstSwap(labels, own, donor, 0) == FirstSwap(labels, own, donor, k)
    {
      var l := LabelOf(labels, own[k]);
      assert Holds(labels, own, l);
      if counts[l] > 1 || l !in donorLabels {
        swap := Some(own[k]);
        return;
      }
      k := k + 1;
    }
  }

  /** Offers the donor's sample to the other clients in order until one takes it. */
  method Offer(a: array<seq<nat>>, labels: seq<int>, minimum: nat, donor: nat, chosen: nat)
    requires donor < a.Length
    modifies a
    ensures a[..] == ShareFrom(labels, old(a[..]), minimum, donor, chosen, 0)
  {
    hide FirstSwap;
    for c := 0 to a.Length
      invariant a[..] == old(a[..])
      invariant ShareFrom(labels, old(a[..]), minimum, donor, chosen, 0)
            == ShareFrom(labels, old(a[..]), minimum, donor, chosen, c)
    {
      if c != donor {
        if |a[donor]| > minimum {
          a[donor] := Remove(a[donor], chosen);
          a[c] := a[c] + [chosen];
          return;
        }
        var swap := FindSwap(labels, a[c], a[donor]);
        if swap.Some? {
          a[donor] := Remove(a[donor], chosen) + [swap.value];
          a[c] := Remove(a[c], swap.value) + [chosen];
          return;
        }
      }
    }
  }

  method ShareOne(a: array<seq<nat>>, labels: seq<int>, minimum: nat, l: int)
    modifies a
    ensures a[..] == ShareClass(labels, old(a[..]), minimum, l)
  {
    var holders := FindHolders(a, labels, l);
    if |holders| != 1 || CountLabel(labels, Indices(|labels|), l) < 2 {
      return;
    }
    HoldersAre(labels, a[..], l);
    assert holders[0] in holders;
    Offer(a, labels, minimum, holders[0], FirstWith(labels, a[holders[0]], l));
  }

  /** Phase two: the sharing pass, class by class. */
  method ShareAll(a: array<seq<nat>>, labels: seq<int>, minimum: nat, classes: seq<int>)
    modifies a
    ensures a[..] == Share(labels, old(a[..]), minimum, classes)
  {
    hide ShareClass;
    for k := 0 to |classes|
      invariant a[..] == Share(labels, old(a[..]), minimum, classes[..k])
    {
      assert DropLast(classes[..k + 1]) == classes[..k];
      ShareOne(a, labels, minimum, classes[k]);
    }
    assert classes[..|classes|] == classes;
  }

  /** Moves samples, without loss, until everybody has the minimum and every class with two samples has two holders. */
  method EnforceMinimum(a: array<seq<nat>>, labels: seq<int>, minimum: nat)
    requires a.Length >= 2 && Lossless(a[..], |labels|) && Enough(a[..], minimum)
    modifies a
    ensures a[..] == Enforced(labels, old(a[..]), minimum)
    ensures Lossless(a[..], |labels|) && AllAtLeast(a[..], minimum)
    ensures forall l | CountLabel(labels, Indices(|labels|), l) >= 2 :: |Holders(labels, a[..], l)| >= 2
  {
    EnforcedMeets(labels, a[..], minimum);
    hide Repair, Share;
    RaiseToMinimum(a, labels, minimum);
    ShareAll(a, labels, minimum, Classes(labels));
  }

  /** Cuts one class over the clients. */
  method DealClass(a: array<seq<nat>>, s: seq<nat>, w: seq<real>)
    requires Weights(w) && |w| == a.Length
    modifies a
    ensures a[..] == Deal(old(a[..]), s, w)
  {
    hide CutPoint;
    for c := 0 to a.Length
      invariant forall k | 0 <= k < c :: a[k] == old(a[k]) + Piece(s, w, k)
      invariant forall k | c <= k < a.Length :: a[k] == old(a[k])
    {
      a[c] := a[c] + Piece(s, w, c);
    }
  }

  method DealClasses(a: array<seq<nat>>, labels: seq<int>, draw: nat -> seq<real>)
    requires Draws(draw, a.Length) && a[..] == NoSamples(a.Length)
    modifies a
    ensures a[..] == DealAll(labels, a.Length, Classes(labels), draw)
  {
    hide Deal, Classes, IndicesOf;
    var classes := Classes(labels);
    for k := 0 to |classes|
      invariant a[..] == DealAll(labels, a.Length, classes[..k], draw)
    {
      assert DropLast(classes[..k + 1]) == classes[..k];
      DealClass(a, IndicesOf(labels, classes[k], |labels|), draw(k));
    }
    assert classes[..|classes|] == classes;
  }

  method ShuffleAll(a: array<seq<nat>>, shuffle: (nat, seq<nat>) -> seq<nat>)
    modifies a
    ensures forall c | 0 <= c < a.Length :: a[c] == shuffle(c, old(a[c]))
  {
    for c := 0 to a.Length
      invariant forall k | 0 <= k < c :: a[k] == shuffle(k, old(a[k]))
      invariant forall k | c <= k < a.Length :: a[k] == old(a[k])
    {
      a[c] := shuffle(c, a[c]);
    }
  }

  /** The cut and, if somebody came out short, the enforcement. */
  method DivideInOrder(a: array<seq<nat>>, labels: seq<int>, least: nat, draw: nat -> seq<real>)
    requires a.Length >= 2 && Draws(draw, a.Length) && a[..] == NoSamples(a.Length)
    modifies a
    ensures a[..] == Divided(labels, a.Length, least, draw)
  {
    hide DealAll, Enforced, Lossless, Required, NoSamples;
    var required := Required(labels, a.Length, least);
    DealClasses(a, labels, draw);
    CutIsLossless(labels, a.Length, draw);
    LosslessSize(a[..], |labels|);
    RequiredFits(labels, a.Length, least);
    var short := exists c :: 0 <= c < a.Length && |a[c]| < required;
    assert short <==> FirstShort(a[..], required, 0).Some?;
    if short {
      EnforceMinimum(a, labels, required);
    }
  }

  datatype Division = Invalid | Division(shares: Shares)

  /** The lists `a`, each shuffled. */
  ghost predicate ShuffleOf(b: Shares, a: Shares, shuffle: (nat, seq<nat>) -> seq<nat>) {
    |b| == |a| && forall c | 0 <= c < |a| :: b[c] == shuffle(c, a[c])
  }

  /** The whole partition. `draw` gives the weights of each class, `shuffle` how a client's list is shuffled. */
  method Divide(
      labels: seq<int>, n: int, alpha: real, least: int, draw: nat -> seq<real>,
      shuffle: (nat, seq<nat>) -> seq<nat>)
      returns (r: Division)
    requires n >= 2 ==> Draws(draw, n)
    requires forall c: nat, s: seq<nat> :: multiset(shuffle(c, s)) == multiset(s)
    ensures r.Invalid? <==> n < 2 || alpha <= 0.0 || least < 1 || |labels| < n
    ensures r.Division? ==> ShuffleOf(r.shares, Divided(labels, n, least, draw), shuffle)
    ensures r.Division? ==>
              && |r.shares| == n && Lossless(r.shares, |labels|)
              && AllAtLeast(r.shares, Required(labels, n, least))
  {
    if n < 2 || alpha <= 0.0 || least < 1 || |labels| < n {
      return Invalid;
    }
    var a := new seq<nat>[n](_ => []);
    assert a[..] == NoSamples(n);
    hide Divided, NoSamples, Draws;
    DivideInOrder(a, labels, least, draw);
    ShuffleAll(a, shuffle);
    r := Division(a[..]);
    DividedMeets(labels, n, least, draw);
    ShuffledMeets(labels, Divided(labels, n, least, draw), r.shares);
  }

  /** Shuffling each list changes none of what the division promises. */
  lemma ShuffledMeets(labels: seq<int>, a: Shares, b: Shares)
    requires |a| == |b| && forall c | 0 <= c < |a| :: multiset(a[c]) == multiset(b[c])
    ensures multiset(Flat(a)) == multiset(Flat(b))
    ensures forall l :: |Holders(labels, a, l)| == |Holders(labels, b, l)|
    ensures forall minimum: nat :: AllAtLeast(a, minimum) <==> AllAtLeast(b, minimum)
  {
    assert forall c | 0 <= c < |a| :: |multiset(a[c])| == |multiset(b[c])|;
    FlatShuffled(a, b);
    forall l
      ensures |Holders(labels, a, l)| == |Holders(labels, b, l)|
    {
      forall c | 0 <= c < |a|
        ensures Holds(labels, a[c], l) <==> Holds(labels, b[c], l)
      {
        CountOfMultiset(labels, a[c], b[c], l);
        CountPositive(labels, a[c], l);
        CountPositive(labels, b[c], l);
      }
      HoldersGrow(labels, a, b, l);
      HoldersGrow(labels, b, a, l);
    }
  }

  lemma {:induction false} FlatShuffled(a: Shares, b: Shares)
    requires |a| == |b| && forall c | 0 <= c < |a| :: multiset(a[c]) == multiset(b[c])
    ensures multiset(Flat(a)) == multiset(Flat(b))
  {
    if a != [] {
      FlatShuffled(DropLast(a), DropLast(b));
    }
  }
}
