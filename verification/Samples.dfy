/** Lists of sample indices: labels, counts, removal, and lists of lists that share out a data set. */
module Samples {
  import opened Common

  /** The lists held by the clients, in client order. */
  type Shares = seq<seq<nat>>

  /** The label of a sample; indices outside the data set never occur in a lossless division. */
  function LabelOf(labels: seq<int>, i: nat): int {
    if i < |labels| then labels[i] else 0
  }

  function CountLabel(labels: seq<int>, s: seq<nat>, l: int): nat {
    if s == [] then 0 else CountLabel(labels, DropLast(s), l) + if LabelOf(labels, Last(s)) == l then 1 else 0
  }

  predicate Holds(labels: seq<int>, s: seq<nat>, l: int) {
    exists i :: i in s && LabelOf(labels, i) == l
  }

  function Indices(n: nat): (r: seq<nat>)
    ensures |r| == n
  {
    seq(n, i => i)
  }

  /** All the lists one after another. */
  function Flat(a: Shares): seq<nat> {
    if a == [] then [] else Flat(DropLast(a)) + Last(a)
  }

  /** Every sample of the data set is in exactly one list, once. */
  ghost predicate Lossless(a: Shares, n: nat) {
    multiset(Flat(a)) == multiset(Indices(n))
  }

  ghost predicate AllAtLeast(a: Shares, minimum: nat) {
    forall c | 0 <= c < |a| :: minimum <= |a[c]|
  }

  /** The clients that hold the label, in order. */
  function Holders(labels: seq<int>, a: Shares, l: int): (r: seq<nat>)
    ensures |r| <= |a|
  {
    if a == [] then []
    else Holders(labels, DropLast(a), l) + if Holds(labels, Last(a), l) then [|a| - 1] else []
  }

  // ----- removing one sample -----

  /** The list without the first occurrence of the sample. */
  function Remove(s: seq<nat>, x: nat): (r: seq<nat>)
    ensures x !in s ==> r == s
    ensures x in s ==> multiset(r) == multiset(s) - multiset{x} && |r| == |s| - 1
  {
    if s == [] then []
    else if s[0] == x then
      assert s == [x] + s[1..];
      s[1..]
    else
      assert s == [s[0]] + s[1..];
      [s[0]] + Remove(s[1..], x)
  }

  lemma {:induction false} CountAppend(labels: seq<int>, s: seq<nat>, t: seq<nat>, l: int)
    ensures CountLabel(labels, s + t, l) == CountLabel(labels, s, l) + CountLabel(labels, t, l)
  {
    if t == [] {
      assert s + t == s;
    } else {
      assert DropLast(s + t) == s + DropLast(t);
      CountAppend(labels, s, DropLast(t), l);
    }
  }

  lemma {:induction false} CountRemove(labels: seq<int>, s: seq<nat>, x: nat, l: int)
    requires x in s
    ensures CountLabel(labels, Remove(s, x), l) == CountLabel(labels, s, l) - if LabelOf(labels, x) == l then 1 else 0
  {
    assert s == [s[0]] + s[1..];
    CountAppend(labels, [s[0]], s[1..], l);
    if s[0] != x {
      CountAppend(labels, [s[0]], Remove(s[1..], x), l);
      CountRemove(labels, s[1..], x, l);
    }
  }

  /** The count depends only on which samples there are. */
  lemma {:induction false} CountOfMultiset(labels: seq<int>, s: seq<nat>, t: seq<nat>, l: int)
    requires multiset(s) == multiset(t)
    ensures CountLabel(labels, s, l) == CountLabel(labels, t, l)
  {
    if s == [] {
      assert |multiset(s)| == |s| && |multiset(t)| == |t|;
    } else {
      var x := Last(s);
      assert s == DropLast(s) + [x];
      assert x in multiset(t);
      CountRemove(labels, t, x, l);
      CountOfMultiset(labels, DropLast(s), Remove(t, x), l);
    }
  }

  lemma {:induction false} CountPositive(labels: seq<int>, s: seq<nat>, l: int)
    ensures CountLabel(labels, s, l) > 0 <==> Holds(labels, s, l)
  {
    if s != [] {
      CountPositive(labels, DropLast(s), l);
      assert s == DropLast(s) + [Last(s)];
      assert forall i :: i in s <==> i in DropLast(s) || i == Last(s);
    }
  }

  // ----- changing lists -----

  lemma {:induction false} FlatAppend(a: Shares, b: Shares)
    ensures Flat(a + b) == Flat(a) + Flat(b)
  {
    if b == [] {
      assert a + b == a;
    } else {
      assert DropLast(a + b) == a + DropLast(b) && Last(a + b) == Last(b);
      FlatAppend(a, DropLast(b));
      var x, y, z := Flat(a), Flat(DropLast(b)), Last(b);
      assert Flat(b) == y + z;
      assert (x + y) + z == x + (y + z);
    }
  }

  /** Replacing one list changes the whole by just that list. */
  lemma FlatUpdate(a: Shares, c: nat, s: seq<nat>)
    requires c < |a|
    ensures multiset(Flat(a[c := s])) + multiset(a[c]) == multiset(Flat(a)) + multiset(s)
  {
    assert a == a[..c] + [a[c]] + a[c + 1..];
    assert a[c := s] == a[..c] + [s] + a[c + 1..];
    FlatAppend(a[..c] + [a[c]], a[c + 1..]);
    FlatAppend(a[..c], [a[c]]);
    FlatAppend(a[..c] + [s], a[c + 1..]);
    FlatAppend(a[..c], [s]);
    assert Flat([s]) == [] + s && Flat([a[c]]) == [] + a[c];
  }

  /** Moving samples between two lists loses nothing. */
  lemma MoveKeepsAll(a: Shares, d: nat, c: nat, s: seq<nat>, t: seq<nat>)
    requires d < |a| && c < |a| && d != c && multiset(s) + multiset(t) == multiset(a[d]) + multiset(a[c])
    ensures multiset(Flat(a[d := s][c := t])) == multiset(Flat(a))
  {
    FlatUpdate(a, d, s);
    FlatUpdate(a[d := s], c, t);
    assert a[d := s][c] == a[c];
    var f0: multiset<nat> := multiset(Flat(a));
    var f1: multiset<nat> := multiset(Flat(a[d := s]));
    var f2: multiset<nat> := multiset(Flat(a[d := s][c := t]));
    forall i: nat
      ensures f2[i] == f0[i]
    {
      assert (f1 + multiset(a[d]))[i] == (f0 + multiset(s))[i];
      assert (f2 + multiset(a[c]))[i] == (f1 + multiset(t))[i];
      assert (multiset(s) + multiset(t))[i] == (multiset(a[d]) + multiset(a[c]))[i];
    }
  }

  lemma {:induction false} HoldersAre(labels: seq<int>, a: Shares, l: int)
    ensures forall c :: c in Holders(labels, a, l) <==> 0 <= c < |a| && Holds(labels, a[c], l)
    ensures forall i, j :: 0 <= i < j < |Holders(labels, a, l)| ==> Holders(labels, a, l)[i] < Holders(labels, a, l)[j]
  {
    if a != [] {
      HoldersAre(labels, DropLast(a), l);
      var before := Holders(labels, DropLast(a), l);
      assert forall i | 0 <= i < |before| :: before[i] in before;
    }
  }

  /** A client outside the list of holders has none of the samples with the label. */
  lemma {:induction false} CountByHolders(labels: seq<int>, a: Shares, l: int)
    ensures |Holders(labels, a, l)| == 0 ==> CountLabel(labels, Flat(a), l) == 0
    ensures |Holders(labels, a, l)| == 1 ==>
              Holders(labels, a, l)[0] < |a| && CountLabel(labels, Flat(a), l)
                    == CountLabel(labels, a[Holders(labels, a, l)[0]], l)
  {
    if a != [] {
      CountByHolders(labels, DropLast(a), l);
      CountAppend(labels, Flat(DropLast(a)), Last(a), l);
      CountPositive(labels, Last(a), l);
    }
  }

  /** Strictly increasing lists of natural numbers are compared by size through their elements. */
  lemma HoldersGrow(labels: seq<int>, a: Shares, b: Shares, l: int)
    requires |a| == |b|
    requires forall c | 0 <= c < |a| :: Holds(labels, a[c], l) ==> Holds(labels, b[c], l)
    ensures |Holders(labels, a, l)| <= |Holders(labels, b, l)|
  {
    if a != [] {
      HoldersGrow(labels, DropLast(a), DropLast(b), l);
    }
  }

  lemma {:induction false} LosslessCount(labels: seq<int>, a: Shares, l: int)
    requires Lossless(a, |labels|)
    ensures CountLabel(labels, Flat(a), l) == CountLabel(labels, Indices(|labels|), l)
  {
    CountOfMultiset(labels, Flat(a), Indices(|labels|), l);
  }

  function TotalSize(a: Shares): (r: nat)
    ensures r == |Flat(a)|
  {
    if a == [] then 0 else TotalSize(DropLast(a)) + |Last(a)|
  }

  lemma LosslessSize(a: Shares, n: nat)
    requires Lossless(a, n)
    ensures TotalSize(a) == n
  {
    assert |multiset(Flat(a))| == |Flat(a)| && |multiset(Indices(n))| == n;
  }

  predicate SomeHas(a: Shares, i: nat) {
    exists c :: 0 <= c < |a| && i in a[c]
  }

  lemma {:induction false} InSome(a: Shares, i: nat)
    requires i in Flat(a)
    ensures SomeHas(a, i)
  {
    if i in Last(a) {
      assert i in a[|a| - 1];
    } else {
      InSome(DropLast(a), i);
      var c :| 0 <= c < |a| - 1 && i in DropLast(a)[c];
      assert i in a[c];
    }
  }

  lemma {:induction false} IndicesOnce(n: nat)
    ensures forall i: nat :: multiset(Indices(n))[i] == if i < n then 1 else 0
  {
    if n > 0 {
      IndicesOnce(n - 1);
      assert Indices(n) == Indices(n - 1) + [n - 1];
    }
  }

  /** What being lossless means: every sample is in some list, no list repeats it, no other list has it. */
  lemma LosslessMeans(a: Shares, n: nat)
    requires Lossless(a, n)
    ensures forall i: nat | i < n :: SomeHas(a, i)
    ensures forall c, i | 0 <= c < |a| && i in a[c] :: i < n && multiset(a[c])[i] == 1
    ensures forall c, d, i | 0 <= c < |a| && 0 <= d < |a| && c != d && i in a[c] :: i !in a[d]
  {
    IndicesOnce(n);
    hide Flat, Indices;
    forall i: nat | i < n
      ensures SomeHas(a, i)
    {
      assert i in multiset(Flat(a));
      InSome(a, i);
    }
    forall c, i | 0 <= c < |a| && i in a[c]
      ensures i < n && multiset(a[c])[i] == 1
    {
      CountInList(a, c, i);
      assert i in multiset(a[c]);
    }
    forall c, d, i | 0 <= c < |a| && 0 <= d < |a| && c != d && i in a[c]
      ensures i !in a[d]
    {
      CountInTwo(a, c, d, i);
      assert i in multiset(a[c]);
      assert multiset(a[d])[i] == 0;
    }
  }

  lemma CountInList(a: Shares, c: nat, i: nat)
    requires c < |a|
    ensures multiset(a[c])[i] <= multiset(Flat(a))[i]
  {
    FlatUpdate(a, c, []);
    var rest := multiset(Flat(a[c := []]));
    assert (rest + multiset(a[c]))[i] == multiset(Flat(a))[i];
  }

  lemma CountInTwo(a: Shares, c: nat, d: nat, i: nat)
    requires c < |a| && d < |a| && c != d
    ensures multiset(a[c])[i] + multiset(a[d])[i] <= multiset(Flat(a))[i]
  {
    CountInList(a[c := []], d, i);
    FlatUpdate(a, c, []);
    var rest := multiset(Flat(a[c := []]));
    assert (rest + multiset(a[c]))[i] == multiset(Flat(a))[i];
  }
}
