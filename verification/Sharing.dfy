/** The pass that makes two clients hold every class that has two samples. */
module Sharing {
  import opened Common
  import opened Samples

  /** The first sample of the list with the label. */
  function FirstWith(labels: seq<int>, s: seq<nat>, l: int): (x: nat)
    requires Holds(labels, s, l)
    ensures x in s && LabelOf(labels, x) == l
  {
    if LabelOf(labels, s[0]) == l then s[0]
    else
      assert s == [s[0]] + s[1..];
      FirstWith(labels, s[1..], l)
  }

  /** A sample the client can part with: it has another of that class, or the donor has none. */
  predicate Swappable(labels: seq<int>, own: seq<nat>, donor: seq<nat>, y: nat) {
    CountLabel(labels, own, LabelOf(labels, y)) > 1 || !Holds(labels, donor, LabelOf(labels, y))
  }

  /** The first sample, from position k on, that the client can part with. */
  function FirstSwap(labels: seq<int>, own: seq<nat>, donor: seq<nat>, k: nat): (r: Option<nat>)
    requires k <= |own|
    decreases |own| - k
    ensures r.Some? ==> r.value in own && Swappable(labels, own, donor, r.value)
    ensures r.None? ==> forall i | k <= i < |own| :: !Swappable(labels, own, donor, own[i])
  {
    if k == |own| then None
    else if Swappable(labels, own, donor, own[k]) then Some(own[k])
    else FirstSwap(labels, own, donor, k + 1)
  }

  function Move(a: Shares, d: nat, c: nat, x: nat): Shares
    requires d < |a| && c < |a|
  {
    a[d := Remove(a[d], x)][c := a[c] + [x]]
  }

  function Swap(a: Shares, d: nat, c: nat, x: nat, y: nat): Shares
    requires d < |a| && c < |a|
  {
    a[d := Remove(a[d], x) + [y]][c := Remove(a[c], y) + [x]]
  }

  /** Offers sample x of client d to the other clients, from client c on: a gift if d can spare it, else a swap. */
  function ShareFrom(labels: seq<int>, a: Shares, minimum: nat, d: nat, x: nat, c: nat): Shares
    requires d < |a| && c <= |a|
    decreases |a| - c
  {
    if c == |a| then a
    else if c == d then ShareFrom(labels, a, minimum, d, x, c + 1)
    else if |a[d]| > minimum then Move(a, d, c, x)
    else
      match FirstSwap(labels, a[c], a[d], 0)
      case Some(y) => Swap(a, d, c, x, y)
      case None => ShareFrom(labels, a, minimum, d, x, c + 1)
  }

  /** Shares the class if one client has it all and there are two samples of it. */
  function ShareClass(labels: seq<int>, a: Shares, minimum: nat, l: int): Shares {
    var holders := Holders(labels, a, l);
    if |holders| != 1 || CountLabel(labels, Indices(|labels|), l) < 2 then a
    else
      HoldersAre(labels, a, l);
      assert holders[0] in holders;
      ShareFrom(labels, a, minimum, holders[0], FirstWith(labels, a[holders[0]], l), 0)
  }

  function Share(labels: seq<int>, a: Shares, minimum: nat, classes: seq<int>): Shares {
    if classes == [] then a else ShareClass(labels, Share(labels, a, minimum, DropLast(classes)), minimum,
          Last(classes))
  }

  // ----- one gift or swap -----

  /** No class is held by fewer clients than before. */
  ghost predicate NoClassLost(labels: seq<int>, a: Shares, b: Shares) {
    forall l :: |Holders(labels, a, l)| <= |Holders(labels, b, l)|
  }

  /** What is kept by every change of the pass. */
  ghost predicate Kept(labels: seq<int>, a: Shares, b: Shares, minimum: nat) {
    && |b| == |a| && multiset(Flat(b)) == multiset(Flat(a))
    && AllAtLeast(b, minimum)
    && NoClassLost(labels, a, b)
  }

  lemma KeptTwice(labels: seq<int>, a: Shares, b: Shares, c: Shares, minimum: nat)
    requires Kept(labels, a, b, minimum) && Kept(labels, b, c, minimum)
    ensures Kept(labels, a, c, minimum)
  {
    forall l
      ensures |Holders(labels, a, l)| <= |Holders(labels, c, l)|
    {
      assert |Holders(labels, a, l)| <= |Holders(labels, b, l)| <= |Holders(labels, c, l)|;
    }
  }

  lemma HoldsAfterRemove(labels: seq<int>, s: seq<nat>, x: nat, l: int)
    requires x in s
    ensures Holds(labels, Remove(s, x), l) <==> CountLabel(labels, s, l) > if LabelOf(labels, x) == l then 1 else 0
  {
    CountRemove(labels, s, x, l);
    CountPositive(labels, Remove(s, x), l);
  }

  lemma HoldsAppend(labels: seq<int>, s: seq<nat>, x: nat, l: int)
    ensures Holds(labels, s + [x], l) <==> Holds(labels, s, l) || LabelOf(labels, x) == l
  {
    assert forall i :: i in s + [x] <==> i in s || i == x;
    assert x in s + [x];
  }

  /** Two clients hold the class. */
  lemma TwoHolders(labels: seq<int>, a: Shares, l: int, c: nat, d: nat)
    requires c < |a| && d < |a| && c != d && Holds(labels, a[c], l) && Holds(labels, a[d], l)
    ensures |Holders(labels, a, l)| >= 2
  {
    HoldersAre(labels, a, l);
    var h := Holders(labels, a, l);
    assert c in h && d in h;
    var i :| 0 <= i < |h| && h[i] == c;
    var j :| 0 <= j < |h| && h[j] == d;
    assert i != j;
  }

  /** A class whose holders outside {c, d} did not change and that c or d still holds where it did is not lost. */
  lemma HoldersSwap(labels: seq<int>, a: Shares, b: Shares, l: int, c: nat, d: nat)
    requires |a| == |b| && c < |a| && d < |a| && c != d
    requires forall k | 0 <= k < |a| && k != c && k != d :: a[k] == b[k]
    requires Holds(labels, a[c], l) && !Holds(labels, a[d], l) && Holds(labels, b[d], l)
    ensures |Holders(labels, a, l)| <= |Holders(labels, b, l)|
  {
    HoldersCount(labels, a, l, c, d);
    HoldersCount(labels, b, l, c, d);
    SameElsewhere(a, b, c, d);
  }

  lemma SameElsewhere(a: Shares, b: Shares, c: nat, d: nat)
    requires |a| == |b| && c < |a| && d < |a|
    requires forall k | 0 <= k < |a| && k != c && k != d :: a[k] == b[k]
    ensures a[c := []][d := []] == b[c := []][d := []]
  {
    var x, y := a[c := []][d := []], b[c := []][d := []];
    forall k | 0 <= k < |a|
      ensures x[k] == y[k]
    {
    }
  }

  lemma {:induction false} HoldersUpdate(labels: seq<int>, a: Shares, l: int, c: nat)
    requires c < |a|
    ensures |Holders(labels, a, l)| == |Holders(labels, a[c := []], l)| + if Holds(labels, a[c], l) then 1 else 0
  {
    if c == |a| - 1 {
      assert DropLast(a[c := []]) == DropLast(a);
    } else {
      assert DropLast(a[c := []]) == DropLast(a)[c := []];
      HoldersUpdate(labels, DropLast(a), l, c);
    }
  }

  lemma HoldersCount(labels: seq<int>, a: Shares, l: int, c: nat, d: nat)
    requires c < |a| && d < |a| && c != d
    ensures |Holders(labels, a, l)| == |Holders(labels, a[c := []][d := []], l)|
              + (if Holds(labels, a[c], l) then 1 else 0) + (if Holds(labels, a[d], l) then 1 else 0)
  {
    HoldersUpdate(labels, a, l, c);
    HoldersUpdate(labels, a[c := []], l, d);
    assert a[c := []][d] == a[d];
  }

  /** A gift of a sample of a class the donor has twice. */
  lemma MoveKeeps(labels: seq<int>, a: Shares, minimum: nat, d: nat, c: nat, x: nat)
    requires AllAtLeast(a, minimum) && d < |a| && c < |a| && d != c && x in a[d] && |a[d]| > minimum
    requires CountLabel(labels, a[d], LabelOf(labels, x)) >= 2
    ensures Kept(labels, a, Move(a, d, c, x), minimum)
    ensures |Holders(labels, Move(a, d, c, x), LabelOf(labels, x))| >= 2
  {
    var b := Move(a, d, c, x);
    assert multiset(Remove(a[d], x)) + multiset(a[c] + [x]) == multiset(a[d]) + multiset(a[c]);
    MoveKeepsAll(a, d, c, Remove(a[d], x), a[c] + [x]);
    forall l
      ensures |Holders(labels, a, l)| <= |Holders(labels, b, l)|
    {
      HoldsAfterRemove(labels, a[d], x, l);
      HoldsAppend(labels, a[c], x, l);
      CountPositive(labels, a[d], l);
      HoldersGrow(labels, a, b, l);
    }
    HoldsAfterRemove(labels, a[d], x, LabelOf(labels, x));
    HoldsAppend(labels, a[c], x, LabelOf(labels, x));
    TwoHolders(labels, b, LabelOf(labels, x), c, d);
  }

  /** What a swap does to the classes of the two lists. */
  lemma SwapHolds(labels: seq<int>, own: seq<nat>, donor: seq<nat>, x: nat, y: nat, l: int)
    requires x in donor && y in own && CountLabel(labels, donor, LabelOf(labels, x)) >= 2
    requires Swappable(labels, own, donor, y)
    ensures Holds(labels, donor, l) ==> Holds(labels, Remove(donor, x) + [y], l)
    ensures Holds(labels, own, l) && !Holds(labels, Remove(own, y) + [x], l)
            ==> !Holds(labels, donor, l) && Holds(labels, Remove(donor, x) + [y], l)
    ensures l == LabelOf(labels, x)
            ==> Holds(labels, Remove(donor, x) + [y], l) && Holds(labels, Remove(own, y) + [x], l)
  {
    HoldsAfterRemove(labels, donor, x, l);
    HoldsAfterRemove(labels, own, y, l);
    HoldsAppend(labels, Remove(donor, x), y, l);
    HoldsAppend(labels, Remove(own, y), x, l);
    CountPositive(labels, donor, l);
    CountPositive(labels, own, l);
    hide Holds, CountLabel;
  }

  lemma SwapSamples(s: seq<nat>, t: seq<nat>, x: nat, y: nat)
    requires x in s && y in t
    ensures multiset(Remove(s, x) + [y]) + multiset(Remove(t, y) + [x]) == multiset(s) + multiset(t)
    ensures |Remove(s, x) + [y]| == |s| && |Remove(t, y) + [x]| == |t|
  {
  }

  /** No class loses a holder by a swap. */
  lemma SwapHolders(labels: seq<int>, a: Shares, d: nat, c: nat, x: nat, y: nat, l: int)
    requires d < |a| && c < |a| && d != c && x in a[d] && y in a[c]
    requires CountLabel(labels, a[d], LabelOf(labels, x)) >= 2 && Swappable(labels, a[c], a[d], y)
    ensures |Holders(labels, a, l)| <= |Holders(labels, Swap(a, d, c, x, y), l)|
  {
    var b := Swap(a, d, c, x, y);
    SwapHolds(labels, a[c], a[d], x, y, l);
    hide Holds, CountLabel, Remove, Swappable;
    if Holds(labels, a[c], l) && !Holds(labels, b[c], l) {
      HoldersSwap(labels, a, b, l, c, d);
    } else {
      HoldersGrow(labels, a, b, l);
    }
  }

  /** A swap against a sample the recipient can part with. */
  lemma SwapKeeps(labels: seq<int>, a: Shares, minimum: nat, d: nat, c: nat, x: nat, y: nat)
    requires AllAtLeast(a, minimum) && d < |a| && c < |a| && d != c && x in a[d] && y in a[c]
    requires CountLabel(labels, a[d], LabelOf(labels, x)) >= 2
    requires Swappable(labels, a[c], a[d], y)
    ensures Kept(labels, a, Swap(a, d, c, x, y), minimum)
    ensures |Holders(labels, Swap(a, d, c, x, y), LabelOf(labels, x))| >= 2
  {
    var b := Swap(a, d, c, x, y);
    SwapSamples(a[d], a[c], x, y);
    MoveKeepsAll(a, d, c, Remove(a[d], x) + [y], Remove(a[c], y) + [x]);
    forall l
      ensures |Holders(labels, a, l)| <= |Holders(labels, b, l)|
    {
      SwapHolders(labels, a, d, c, x, y, l);
    }
    SwapHolds(labels, a[c], a[d], x, y, LabelOf(labels, x));
    hide Holds, Holders, CountLabel, Remove, Swappable, Flat;
    TwoHolders(labels, b, LabelOf(labels, x), c, d);
  }

  // ----- somebody can always take part -----

  function LabelSet(labels: seq<int>, s: seq<nat>): set<int> {
    set i | i in s :: LabelOf(labels, i)
  }

  lemma LabelSetHolds(labels: seq<int>, s: seq<nat>, l: int)
    ensures l in LabelSet(labels, s) <==> Holds(labels, s, l)
  {
  }

  lemma LabelSetStep(labels: seq<int>, s: seq<nat>)
    requires s != []
    ensures LabelSet(labels, s) == LabelSet(labels, DropLast(s)) + {LabelOf(labels, Last(s))}
  {
    assert s == DropLast(s) + [Last(s)];
    assert forall i :: i in s <==> i in DropLast(s) || i == Last(s);
  }

  /** A list with no class twice has as many classes as samples. */
  lemma {:induction false} AllDifferent(labels: seq<int>, s: seq<nat>)
    requires forall l :: CountLabel(labels, s, l) <= 1
    ensures |LabelSet(labels, s)| == |s|
  {
    if s != [] {
      LabelSetStep(labels, s);
      var l := LabelOf(labels, Last(s));
      forall m
        ensures CountLabel(labels, DropLast(s), m) <= 1
      {
        assert CountLabel(labels, s, m) <= 1;
      }
      AllDifferent(labels, DropLast(s));
      assert CountLabel(labels, s, l) <= 1;
      CountPositive(labels, DropLast(s), l);
      LabelSetHolds(labels, DropLast(s), l);
    }
  }

  /** Samples of a class beyond the first leave room for fewer classes. */
  lemma {:induction false} Repeated(labels: seq<int>, s: seq<nat>, l: int)
    ensures |LabelSet(labels, s)| + CountLabel(labels, s, l) <= |s| + if Holds(labels, s, l) then 1 else 0
  {
    if s != [] {
      LabelSetStep(labels, s);
      Repeated(labels, DropLast(s), l);
      LabelSetHolds(labels, DropLast(s), l);
      LabelSetHolds(labels, s, l);
      CountPositive(labels, DropLast(s), l);
    }
  }

  lemma SubsetSize(s: set<int>, t: set<int>)
    requires s <= t
    ensures |s| <= |t|
  {
    assert t == s + (t - s);
  }

  /** If the donor cannot spare a sample, every client at the minimum has something to swap. */
  lemma SwapExists(labels: seq<int>, own: seq<nat>, donor: seq<nat>, l: int)
    requires |donor| <= |own|
    requires CountLabel(labels, donor, l) >= 2 && !Holds(labels, own, l)
    ensures FirstSwap(labels, own, donor, 0).Some?
  {
    if FirstSwap(labels, own, donor, 0).None? {
      forall m
        ensures CountLabel(labels, own, m) <= 1
        ensures m in LabelSet(labels, own) ==> m in LabelSet(labels, donor) - {l}
      {
        CountPositive(labels, own, m);
        if Holds(labels, own, m) {
          var i :| i in own && LabelOf(labels, i) == m;
          assert !Swappable(labels, own, donor, i);
        }
      }
      AllDifferent(labels, own);
      CountPositive(labels, donor, l);
      Repeated(labels, donor, l);
      SubsetSize(LabelSet(labels, own), LabelSet(labels, donor) - {l});
    }
  }

  // ----- the pass -----

  /** The offer is always taken: afterwards two clients hold the class. */
  lemma {:induction false} ShareFromWorks(labels: seq<int>, a: Shares, minimum: nat, d: nat, x: nat, c: nat)
    requires AllAtLeast(a, minimum) && d < |a|
    requires x in a[d] && CountLabel(labels, a[d], LabelOf(labels, x)) >= 2
    requires forall k | 0 <= k < |a| && k != d :: !Holds(labels, a[k], LabelOf(labels, x))
    requires c < |a| && (c == d ==> c + 1 < |a|)
    ensures var b := ShareFrom(labels, a, minimum, d, x, c);
            Kept(labels, a, b, minimum) && |Holders(labels, b, LabelOf(labels, x))| >= 2
    decreases |a| - c
  {
    if c == d {
      ShareFromWorks(labels, a, minimum, d, x, c + 1);
    } else if |a[d]| > minimum {
      MoveKeeps(labels, a, minimum, d, c, x);
    } else {
      SwapExists(labels, a[c], a[d], LabelOf(labels, x));
      SwapKeeps(labels, a, minimum, d, c, x, FirstSwap(labels, a[c], a[d], 0).value);
    }
  }

  /** One class: nothing is lost, nobody falls short, no class loses a holder, and with two clients and two
      samples the class itself has two holders afterwards. */
  lemma ShareClassWorks(labels: seq<int>, a: Shares, minimum: nat, l: int)
    requires |a| >= 2 && Lossless(a, |labels|) && AllAtLeast(a, minimum)
    ensures Kept(labels, a, ShareClass(labels, a, minimum, l), minimum)
    ensures CountLabel(labels, Indices(|labels|), l) >= 2 ==>
          |Holders(labels, ShareClass(labels, a, minimum, l), l)| >= 2
  {
    var h := Holders(labels, a, l);
    LosslessCount(labels, a, l);
    CountByHolders(labels, a, l);
    HoldersAre(labels, a, l);
    if |h| == 1 && CountLabel(labels, Indices(|labels|), l) >= 2 {
      var d := h[0];
      assert d in h;
      var x := FirstWith(labels, a[d], l);
      forall k | 0 <= k < |a| && k != d
        ensures !Holds(labels, a[k], l)
      {
        assert h == [d];
        assert k !in h;
      }
      ShareFromWorks(labels, a, minimum, d, x, 0);
    }
  }

  /** Every class of the list that has two samples has two holders. */
  ghost predicate AllShared(labels: seq<int>, a: Shares, classes: seq<int>) {
    forall l | l in classes && CountLabel(labels, Indices(|labels|), l) >= 2 :: |Holders(labels, a, l)| >= 2
  }

  lemma OneMoreShared(labels: seq<int>, a: Shares, b: Shares, classes: seq<int>)
    requires classes != [] && AllShared(labels, a, DropLast(classes)) && NoClassLost(labels, a, b)
    requires CountLabel(labels, Indices(|labels|), Last(classes)) >= 2 ==> |Holders(labels, b, Last(classes))| >= 2
    ensures AllShared(labels, b, classes)
  {
    hide CountLabel, Holders, Indices;
    forall l | l in classes && CountLabel(labels, Indices(|labels|), l) >= 2
      ensures |Holders(labels, b, l)| >= 2
    {
      assert l in DropLast(classes) || l == Last(classes);
      assert |Holders(labels, a, l)| <= |Holders(labels, b, l)|;
    }
  }

  /** The pass: nothing is lost, nobody falls short, no class loses a holder, and every class of the list
      that has two samples ends with two holders. */
  lemma {:induction false} ShareWorks(labels: seq<int>, a: Shares, minimum: nat, classes: seq<int>)
    requires |a| >= 2 && Lossless(a, |labels|) && AllAtLeast(a, minimum)
    ensures Kept(labels, a, Share(labels, a, minimum, classes), minimum)
    ensures forall l | l in classes && CountLabel(labels, Indices(|labels|), l) >= 2 ::
              |Holders(labels, Share(labels, a, minimum, classes), l)| >= 2
  {
    SharePass(labels, a, minimum, classes);
    hide Kept, Share, CountLabel, Holders, Indices;
  }

  lemma {:induction false} SharePass(labels: seq<int>, a: Shares, minimum: nat, classes: seq<int>)
    requires |a| >= 2 && Lossless(a, |labels|) && AllAtLeast(a, minimum)
    ensures Kept(labels, a, Share(labels, a, minimum, classes), minimum)
    ensures AllShared(labels, Share(labels, a, minimum, classes), classes)
  {
    hide CountLabel, Holders, Indices, Flat, AllAtLeast, ShareClass, NoClassLost;
    if classes != [] {
      var before := Share(labels, a, minimum, DropLast(classes));
      SharePass(labels, a, minimum, DropLast(classes));
      ShareClassWorks(labels, before, minimum, Last(classes));
      var b := Share(labels, a, minimum, classes);
      KeptTwice(labels, a, before, b, minimum);
      OneMoreShared(labels, before, b, classes);
      hide AllShared;
    } else {
      KeptSame(labels, a, minimum);
    }
  }

  lemma KeptSame(labels: seq<int>, a: Shares, minimum: nat)
    requires AllAtLeast(a, minimum)
    ensures Kept(labels, a, a, minimum)
  {
  }
}
