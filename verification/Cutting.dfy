/** The first division: every class is cut at the cumulative weights drawn for it. */
module Cutting {
  import opened Common
  import opened Samples
  import opened Partition
  import opened Sharing

  // ----- the classes, in increasing order -----

  function InsertClass(classes: seq<int>, l: int): seq<int> {
    if classes == [] || Last(classes) < l then classes + [l]
    else if Last(classes) == l then classes
    else InsertClass(DropLast(classes), l) + [Last(classes)]
  }

  function Classes(labels: seq<int>): seq<int> {
    if labels == [] then [] else InsertClass(Classes(DropLast(labels)), Last(labels))
  }

  ghost predicate Increasing(s: seq<int>) {
    forall i, j :: 0 <= i < j < |s| ==> s[i] < s[j]
  }

  lemma {:induction false} InsertClassSorted(classes: seq<int>, l: int)
    requires Increasing(classes)
    ensures Increasing(InsertClass(classes, l))
    ensures forall m :: m in InsertClass(classes, l) <==> m in classes || m == l
  {
    if classes != [] {
      assert classes == DropLast(classes) + [Last(classes)];
      if Last(classes) > l {
        InsertClassSorted(DropLast(classes), l);
        var r := InsertClass(DropLast(classes), l);
        assert forall i | 0 <= i < |r| :: r[i] in r;
      }
    }
  }

  lemma {:induction false} ClassesSorted(labels: seq<int>)
    ensures Increasing(Classes(labels))
    ensures forall l :: l in Classes(labels) <==> l in labels
  {
    if labels != [] {
      ClassesSorted(DropLast(labels));
      InsertClassSorted(Classes(DropLast(labels)), Last(labels));
      assert labels == DropLast(labels) + [Last(labels)];
    }
  }

  // ----- cutting one class -----

  /** Among the first n samples, those with the label, in order. */
  function IndicesOf(labels: seq<int>, l: int, n: nat): seq<nat>
    requires n <= |labels|
  {
    if n == 0 then [] else IndicesOf(labels, l, n - 1) + if labels[n - 1] == l then [n - 1] else []
  }

  function Cumulative(w: seq<real>, n: nat): real
    requires n <= |w|
  {
    if n == 0 then 0.0 else Cumulative(w, n - 1) + w[n - 1]
  }

  ghost predicate Weights(w: seq<real>) {
    (forall c | 0 <= c < |w| :: 0.0 <= w[c]) && Cumulative(w, |w|) == 1.0
  }

  lemma {:induction false} CumulativeGrows(w: seq<real>, m: nat, n: nat)
    requires Weights(w) && m <= n <= |w|
    ensures Cumulative(w, m) <= Cumulative(w, n)
  {
    if m < n {
      CumulativeGrows(w, m, n - 1);
    }
  }

  /** Where the samples of client c begin; the last client takes everything to the end. */
  function CutPoint(w: seq<real>, size: nat, c: nat): (p: nat)
    requires Weights(w) && c <= |w|
    ensures p <= size
  {
    CumulativeGrows(w, 0, c);
    CumulativeGrows(w, c, |w|);
    ScaledBounds(Cumulative(w, c), size);
    if c == |w| then size else (Cumulative(w, c) * size as real).Floor
  }

  lemma ScaledBounds(x: real, size: nat)
    requires 0.0 <= x <= 1.0
    ensures 0 <= (x * size as real).Floor <= size
  {
    NotNegative(x, size as real);
    NotNegative(1.0 - x, size as real);
    assert (1.0 - x) * size as real == size as real - x * size as real;
  }

  lemma NotNegative(a: real, b: real)
    requires a >= 0.0 && b >= 0.0
    ensures a * b >= 0.0
  {
  }

  lemma FloorGrows(x: real, y: real, size: nat)
    requires x <= y
    ensures (x * size as real).Floor <= (y * size as real).Floor
  {
    NotNegative(y - x, size as real);
    assert (y - x) * size as real == y * size as real - x * size as real;
  }

  lemma CutPointsGrow(w: seq<real>, size: nat, c: nat)
    requires Weights(w) && c < |w|
    ensures CutPoint(w, size, c) <= CutPoint(w, size, c + 1)
  {
    CumulativeGrows(w, c, c + 1);
    var x, y := Cumulative(w, c), Cumulative(w, c + 1);
    FloorGrows(x, y, size);
    assert c + 1 < |w| ==> CutPoint(w, size, c + 1) == (y * size as real).Floor;
    assert CutPoint(w, size, c) == (x * size as real).Floor;
  }

  function Piece(s: seq<nat>, w: seq<real>, c: nat): seq<nat>
    requires Weights(w) && c < |w|
  {
    CutPointsGrow(w, |s|, c);
    s[CutPoint(w, |s|, c)..CutPoint(w, |s|, c + 1)]
  }

  /** Every client gets its weight's worth of the class, to within one sample. */
  lemma PieceSize(s: seq<nat>, w: seq<real>, c: nat)
    requires Weights(w) && c < |w|
    ensures -1.0 < |Piece(s, w, c)| as real - w[c] * |s| as real < 1.0
  {
    CutPointsGrow(w, |s|, c);
    var x, y, size := Cumulative(w, c), Cumulative(w, c + 1), |s| as real;
    assert y * size == x * size + w[c] * size;
    assert c + 1 == |w| ==> y * size == size;
  }

  function Deal(a: Shares, s: seq<nat>, w: seq<real>): (r: Shares)
    requires Weights(w) && |w| == |a|
    ensures |r| == |a|
  {
    seq(|a|, c requires 0 <= c < |a| => a[c] + Piece(s, w, c))
  }

  /** The first list has the samples of the other two. */
  ghost predicate Joins(all: seq<nat>, b: seq<nat>, c: seq<nat>) {
    multiset(all) == multiset(b) + multiset(c)
  }

  lemma JoinsAppend(a: seq<nat>, b: seq<nat>, c: seq<nat>, x: seq<nat>, y: seq<nat>, z: seq<nat>)
    requires Joins(a, b, c) && Joins(x, y, z)
    ensures Joins(a + x, b + y, c + z)
  {
  }

  /** Joining the same samples to lists with the same samples. */
  lemma JoinsSame(a: seq<nat>, b: seq<nat>, x: seq<nat>, y: seq<nat>, c: seq<nat>)
    requires Joins(a, x, c) && Joins(b, y, c) && multiset(x) == multiset(y)
    ensures multiset(a) == multiset(b)
  {
  }

  lemma JoinsSelf(b: seq<nat>, c: seq<nat>)
    ensures Joins(b + c, b, c)
  {
  }

  lemma {:induction false} DealPrefix(a: Shares, s: seq<nat>, w: seq<real>, n: nat)
    requires Weights(w) && |w| == |a| && n <= |a|
    ensures Joins(Flat(Deal(a, s, w)[..n]), Flat(a[..n]), s[..CutPoint(w, |s|, n)])
  {
    if n == 0 {
      assert (0.0 * |s| as real).Floor == 0;
    } else {
      hide Joins;
      DealPrefix(a, s, w, n - 1);
      CutPointsGrow(w, |s|, n - 1);
      var piece := Piece(s, w, n - 1);
      assert DropLast(Deal(a, s, w)[..n]) == Deal(a, s, w)[..n - 1];
      assert Last(Deal(a, s, w)[..n]) == a[n - 1] + piece;
      assert DropLast(a[..n]) == a[..n - 1];
      assert s[..CutPoint(w, |s|, n)] == s[..CutPoint(w, |s|, n - 1)] + piece;
      hide Deal, Piece, CutPoint;
      JoinsSelf(a[n - 1], piece);
      JoinsAppend(Flat(Deal(a, s, w)[..n - 1]), Flat(a[..n - 1]), s[..CutPoint(w, |s|, n - 1)],
                  a[n - 1] + piece, a[n - 1], piece);
    }
  }

  lemma Whole<T>(s: seq<T>)
    ensures s[..|s|] == s
  {
  }

  lemma DealAddsClass(a: Shares, s: seq<nat>, w: seq<real>)
    requires Weights(w) && |w| == |a| && |a| > 0
    ensures Joins(Flat(Deal(a, s, w)), Flat(a), s)
  {
    hide Flat, Deal, Joins;
    assert CutPoint(w, |s|, |a|) == |s|;
    hide CutPoint;
    DealPrefix(a, s, w, |a|);
    Whole(Deal(a, s, w));
    Whole(a);
    Whole(s);
  }

  // ----- all classes -----

  /** One row of weights for every class, one weight for every client. */
  ghost predicate Draws(draw: nat -> seq<real>, n: nat) {
    forall k: nat :: |draw(k)| == n && Weights(draw(k))
  }

  function NoSamples(n: nat): (a: Shares)
    ensures |a| == n
  {
    seq(n, c => [])
  }

  function DealAll(labels: seq<int>, n: nat, classes: seq<int>, draw: nat -> seq<real>): (a: Shares)
    requires Draws(draw, n)
    ensures |a| == n
  {
    if classes == [] then NoSamples(n)
    else Deal(DealAll(labels, n, DropLast(classes), draw), IndicesOf(labels, Last(classes), |labels|),
          draw(|classes| - 1))
  }

  /** Among the first n samples, those with a label from the list. */
  function IndicesIn(labels: seq<int>, classes: seq<int>, n: nat): seq<nat>
    requires n <= |labels|
  {
    if n == 0 then [] else IndicesIn(labels, classes, n - 1) + InOne(labels, classes, n)
  }

  /** Sample n - 1, if its label is in the list. */
  function InOne(labels: seq<int>, classes: seq<int>, n: nat): seq<nat>
    requires 0 < n <= |labels|
  {
    if labels[n - 1] in classes then [n - 1] else []
  }

  lemma JoinsNone()
    ensures Joins([], [], [])
  {
  }

  lemma InOneJoins(labels: seq<int>, classes: seq<int>, l: int, n: nat)
    requires 0 < n <= |labels| && l !in classes
    ensures Joins(InOne(labels, classes + [l], n), InOne(labels, classes, n), InOne(labels, [l], n))
  {
    assert labels[n - 1] in classes + [l] <==> labels[n - 1] in classes || labels[n - 1] == l;
    JoinsSelf(InOne(labels, classes, n), InOne(labels, [l], n));
    assert InOne(labels, classes, n) + InOne(labels, [l], n) == InOne(labels, classes + [l], n);
    hide Joins;
  }

  lemma IndicesStep(labels: seq<int>, classes: seq<int>, l: int, n: nat)
    requires 0 < n <= |labels|
    ensures IndicesIn(labels, classes, n) == IndicesIn(labels, classes, n - 1) + InOne(labels, classes, n)
    ensures IndicesOf(labels, l, n) == IndicesOf(labels, l, n - 1) + InOne(labels, [l], n)
  {
  }

  lemma OneMoreSample(labels: seq<int>, classes: seq<int>, l: int, n: nat)
    requires 0 < n <= |labels| && l !in classes
    requires Joins(IndicesIn(labels, classes + [l], n - 1), IndicesIn(labels, classes, n - 1),
                   IndicesOf(labels, l, n - 1))
    ensures Joins(IndicesIn(labels, classes + [l], n), IndicesIn(labels, classes, n), IndicesOf(labels, l, n))
  {
    hide InOne, Joins;
    InOneJoins(labels, classes, l, n);
    IndicesStep(labels, classes, l, n);
    IndicesStep(labels, classes + [l], l, n);
    hide IndicesIn, IndicesOf;
    JoinsAppend(IndicesIn(labels, classes + [l], n - 1), IndicesIn(labels, classes, n - 1),
                IndicesOf(labels, l, n - 1), InOne(labels, classes + [l], n), InOne(labels, classes, n),
                InOne(labels, [l], n));
  }

  lemma {:induction false} OneMoreClass(labels: seq<int>, classes: seq<int>, l: int, n: nat)
    requires n <= |labels| && l !in classes
    ensures Joins(IndicesIn(labels, classes + [l], n), IndicesIn(labels, classes, n), IndicesOf(labels, l, n))
  {
    hide Joins;
    if n == 0 {
      JoinsNone();
    } else {
      OneMoreClass(labels, classes, l, n - 1);
      OneMoreSample(labels, classes, l, n);
    }
  }

  lemma {:induction false} EveryClass(labels: seq<int>, classes: seq<int>, n: nat)
    requires n <= |labels| && forall i | 0 <= i < n :: labels[i] in classes
    ensures IndicesIn(labels, classes, n) == Indices(n)
  {
    if n > 0 {
      EveryClass(labels, classes, n - 1);
      assert Indices(n) == Indices(n - 1) + [n - 1];
    }
  }

  lemma {:induction false} NoClass(labels: seq<int>, n: nat)
    requires n <= |labels|
    ensures IndicesIn(labels, [], n) == []
  {
    if n > 0 {
      NoClass(labels, n - 1);
    }
  }

  lemma {:induction false} FlatEmpty(n: nat)
    ensures Flat(NoSamples(n)) == []
  {
    if n > 0 {
      FlatEmpty(n - 1);
      assert DropLast(NoSamples(n)) == NoSamples(n - 1);
    }
  }

  /** The lists hold exactly the samples with a label from the list. */
  ghost predicate Dealt(labels: seq<int>, a: Shares, classes: seq<int>) {
    multiset(Flat(a)) == multiset(IndicesIn(labels, classes, |labels|))
  }

  lemma NothingDealt(labels: seq<int>, n: nat)
    ensures Dealt(labels, NoSamples(n), [])
  {
    FlatEmpty(n);
    NoClass(labels, |labels|);
  }

  lemma DealtNext(labels: seq<int>, a: Shares, classes: seq<int>, l: int, w: seq<real>)
    requires Dealt(labels, a, classes) && l !in classes && Weights(w) && |w| == |a| && |a| > 0
    ensures Dealt(labels, Deal(a, IndicesOf(labels, l, |labels|), w), classes + [l])
  {
    hide Joins, Flat, IndicesOf, IndicesIn, Deal, Weights;
    DealAddsClass(a, IndicesOf(labels, l, |labels|), w);
    OneMoreClass(labels, classes, l, |labels|);
    JoinsSame(Flat(Deal(a, IndicesOf(labels, l, |labels|), w)), IndicesIn(labels, classes + [l], |labels|), Flat(a),
              IndicesIn(labels, classes, |labels|), IndicesOf(labels, l, |labels|));
  }

  lemma {:induction false} DealtSoFar(labels: seq<int>, n: nat, classes: seq<int>, draw: nat -> seq<real>)
    requires Draws(draw, n) && n > 0 && Increasing(classes)
    ensures Dealt(labels, DealAll(labels, n, classes, draw), classes)
  {
    hide Dealt, Deal, IndicesOf;
    if classes == [] {
      NothingDealt(labels, n);
    } else {
      DealtSoFar(labels, n, DropLast(classes), draw);
      assert classes == DropLast(classes) + [Last(classes)];
      assert Last(classes) !in DropLast(classes);
      DealtNext(labels, DealAll(labels, n, DropLast(classes), draw), DropLast(classes), Last(classes),
                draw(|classes| - 1));
    }
  }

  /** The proportional cut puts every sample in exactly one list, whatever weights were drawn. */
  lemma CutIsLossless(labels: seq<int>, n: nat, draw: nat -> seq<real>)
    requires Draws(draw, n) && n > 0
    ensures Lossless(DealAll(labels, n, Classes(labels), draw), |labels|)
  {
    hide DealAll, IndicesIn, Classes, Flat;
    ClassesSorted(labels);
    DealtSoFar(labels, n, Classes(labels), draw);
    forall i | 0 <= i < |labels|
      ensures labels[i] in Classes(labels)
    {
      var l := labels[i];
      assert l in labels;
    }
    EveryClass(labels, Classes(labels), |labels|);
  }

  // ----- who holds a class after the cut -----

  lemma {:induction false} IndicesHaveLabel(labels: seq<int>, l: int, n: nat)
    requires n <= |labels|
    ensures forall i | i in IndicesOf(labels, l, n) :: LabelOf(labels, i) == l
  {
    if n > 0 {
      IndicesHaveLabel(labels, l, n - 1);
    }
  }

  /** A client's piece of a class holds that class alone, and does so when it is not empty. */
  lemma PieceHolds(labels: seq<int>, l: int, w: seq<real>, c: nat, m: int)
    requires Weights(w) && c < |w|
    ensures var s := IndicesOf(labels, l, |labels|);
            Holds(labels, Piece(s, w, c), m) <==> m == l && CutPoint(w, |s|, c) < CutPoint(w, |s|, c + 1)
  {
    var s := IndicesOf(labels, l, |labels|);
    IndicesHaveLabel(labels, l, |labels|);
    CutPointsGrow(w, |s|, c);
    var piece := Piece(s, w, c);
    hide CutPoint, IndicesOf;
    assert forall i | i in piece :: i in s;
    if |piece| > 0 {
      assert piece[0] in piece;
    }
  }

  lemma HoldsConcat(labels: seq<int>, s: seq<nat>, t: seq<nat>, m: int)
    ensures Holds(labels, s + t, m) <==> Holds(labels, s, m) || Holds(labels, t, m)
  {
    assert forall i :: i in s + t <==> i in s || i in t;
  }

  lemma DealHolds(labels: seq<int>, n: nat, classes: seq<int>, draw: nat -> seq<real>, c: nat, m: int)
    requires Draws(draw, n) && c < n && classes != []
    ensures var (k, l) := (|classes| - 1, Last(classes));
            var size := |IndicesOf(labels, l, |labels|)|;
            Holds(labels, DealAll(labels, n, classes, draw)[c], m) <==>
              || Holds(labels, DealAll(labels, n, DropLast(classes), draw)[c], m)
              || (m == l && CutPoint(draw(k), size, c) < CutPoint(draw(k), size, c + 1))
  {
    var (k, l) := (|classes| - 1, Last(classes));
    PieceHolds(labels, l, draw(k), c, m);
    var before, piece := DealAll(labels, n, DropLast(classes), draw)[c],
          Piece(IndicesOf(labels, l, |labels|), draw(k), c);
    assert DealAll(labels, n, classes, draw)[c] == before + piece;
    hide DealAll, Piece, CutPoint, IndicesOf, Holds;
    HoldsConcat(labels, before, piece, m);
  }

  /** No client holds a class that has not been dealt. */
  lemma {:induction false} NotDealt(labels: seq<int>, n: nat, classes: seq<int>, draw: nat -> seq<real>, c: nat, m: int)
    requires Draws(draw, n) && c < n && m !in classes
    ensures !Holds(labels, DealAll(labels, n, classes, draw)[c], m)
  {
    if classes != [] {
      assert classes == DropLast(classes) + [Last(classes)];
      NotDealt(labels, n, DropLast(classes), draw, c, m);
      DealHolds(labels, n, classes, draw, c, m);
      hide DealAll;
    }
  }

  /** After the cut a client holds class k exactly when the cut points of its share differ. */
  lemma {:induction false} DealtHolds(
      labels: seq<int>, n: nat, classes: seq<int>, draw: nat -> seq<real>, c: nat, k: nat)
    requires Draws(draw, n) && c < n && Increasing(classes) && k < |classes|
    ensures var size := |IndicesOf(labels, classes[k], |labels|)|;
            Holds(labels, DealAll(labels, n, classes, draw)[c], classes[k])
            <==> CutPoint(draw(k), size, c) < CutPoint(draw(k), size, c + 1)
  {
    var front := DropLast(classes);
    assert forall j | 0 <= j < |front| :: front[j] == classes[j] < Last(classes);
    DealHolds(labels, n, classes, draw, c, classes[k]);
    hide DealAll, CutPoint, IndicesOf, Holds;
    if k == |classes| - 1 {
      NotDealt(labels, n, front, draw, c, classes[k]);
    } else {
      DealtHolds(labels, n, front, draw, c, k);
    }
  }

  lemma {:induction false} CutPointsOrdered(w: seq<real>, size: nat, c: nat, d: nat)
    requires Weights(w) && c <= d <= |w|
    ensures CutPoint(w, size, c) <= CutPoint(w, size, d)
  {
    hide CutPoint;
    if c < d {
      CutPointsOrdered(w, size, c, d - 1);
      CutPointsGrow(w, size, d - 1);
    }
  }

  /** Between two different cut points some client gets samples. */
  lemma {:induction false} JumpBetween(w: seq<real>, size: nat, c: nat, d: nat) returns (j: nat)
    requires Weights(w) && c <= d <= |w| && CutPoint(w, size, c) < CutPoint(w, size, d)
    ensures c <= j < d && CutPoint(w, size, j) < CutPoint(w, size, j + 1)
  {
    hide CutPoint;
    if CutPoint(w, size, d - 1) < CutPoint(w, size, d) {
      j := d - 1;
    } else {
      j := JumpBetween(w, size, c, d - 1);
    }
  }

  lemma CutEnds(w: seq<real>, size: nat)
    requires Weights(w)
    ensures CutPoint(w, size, |w|) == size && CutPoint(w, size, 0) == 0
  {
    assert |w| > 0;
    assert (0.0 * size as real).Floor == 0;
  }

  /** Class number k is split between clients: some cut falls inside it. */
  predicate Split(labels: seq<int>, draw: nat -> seq<real>, n: nat, k: nat)
    requires k < |Classes(labels)| && |draw(k)| == n && Weights(draw(k))
  {
    var size := |IndicesOf(labels, Classes(labels)[k], |labels|)|;
    exists c :: 0 <= c <= n && 0 < CutPoint(draw(k), size, c) < size
  }

  /** After the cut a class has two holders exactly when some cut falls inside it. */
  lemma CutShares(labels: seq<int>, n: nat, draw: nat -> seq<real>, k: nat)
    requires Draws(draw, n) && k < |Classes(labels)|
    ensures |Holders(labels, DealAll(labels, n, Classes(labels), draw), Classes(labels)[k])| >= 2
            <==> Split(labels, draw, n, k)
  {
    var classes, w := Classes(labels), draw(k);
    var a, l := DealAll(labels, n, classes, draw), classes[k];
    var size := |IndicesOf(labels, l, |labels|)|;
    ClassesSorted(labels);
    CutEnds(w, size);
    forall c | 0 <= c < n
      ensures Holds(labels, a[c], l) <==> CutPoint(w, size, c) < CutPoint(w, size, c + 1)
    {
      DealtHolds(labels, n, classes, draw, c, k);
    }
    hide DealAll, CutPoint, IndicesOf, Holds, Classes, Weights;
    if c :| 0 <= c <= n && 0 < CutPoint(w, size, c) < size {
      var i := JumpBetween(w, size, 0, c);
      var j := JumpBetween(w, size, c, n);
      TwoHolders(labels, a, l, i, j);
    } else if |Holders(labels, a, l)| >= 2 {
      var i, j := FirstTwoHolders(labels, a, l);
      TwoJumpsCut(w, size, i, j);
    }
  }

  /** Two clients that get samples have a cut between them. */
  lemma TwoJumpsCut(w: seq<real>, size: nat, i: nat, j: nat)
    requires Weights(w) && i < j < |w|
    requires CutPoint(w, size, i) < CutPoint(w, size, i + 1) && CutPoint(w, size, j) < CutPoint(w, size, j + 1)
    ensures 0 < CutPoint(w, size, i + 1) < size
  {
    hide CutPoint;
    CutPointsOrdered(w, size, i + 1, j);
  }

  lemma FirstTwoHolders(labels: seq<int>, a: Shares, l: int) returns (i: nat, j: nat)
    requires |Holders(labels, a, l)| >= 2
    ensures i < j < |a| && Holds(labels, a[i], l) && Holds(labels, a[j], l)
  {
    HoldersAre(labels, a, l);
    i, j := Holders(labels, a, l)[0], Holders(labels, a, l)[1];
    assert i in Holders(labels, a, l) && j in Holders(labels, a, l);
  }

  // ----- the whole division -----

  /** Repair, then the sharing pass. */
  function Enforced(labels: seq<int>, a: Shares, minimum: nat): Shares
    requires Enough(a, minimum)
  {
    Share(labels, Repair(labels, a, minimum), minimum, Classes(labels))
  }

  /** What is enforced: no loss, the minimum for everybody, and two holders for every class with two samples. */
  lemma EnforcedMeets(labels: seq<int>, a: Shares, minimum: nat)
    requires |a| >= 2 && Lossless(a, |labels|) && Enough(a, minimum)
    ensures var b := Enforced(labels, a, minimum);
            && |b| == |a| && Lossless(b, |labels|) && AllAtLeast(b, minimum)
            && forall l | CountLabel(labels, Indices(|labels|), l) >= 2 :: |Holders(labels, b, l)| >= 2
  {
    RepairMeets(labels, a, minimum);
    ShareWorks(labels, Repair(labels, a, minimum), minimum, Classes(labels));
    ClassesSorted(labels);
    forall l | CountLabel(labels, Indices(|labels|), l) >= 2
      ensures l in Classes(labels)
    {
      CountPositive(labels, Indices(|labels|), l);
      var i :| i in Indices(|labels|) && LabelOf(labels, i) == l;
      assert labels[i] in labels;
    }
  }

  function Required(labels: seq<int>, n: nat, least: nat): nat
    requires n > 0
  {
    if least <= |labels| / n then least else |labels| / n
  }

  lemma RequiredFits(labels: seq<int>, n: nat, least: nat)
    requires n > 0
    ensures Required(labels, n, least) * n <= |labels|
  {
    assert Required(labels, n, least) * n <= (|labels| / n) * n;
  }

  /** The lists before they are shuffled. */
  function Divided(labels: seq<int>, n: nat, least: nat, draw: nat -> seq<real>): Shares
    requires Draws(draw, n) && n > 0
  {
    var cut := DealAll(labels, n, Classes(labels), draw);
    var minimum := Required(labels, n, least);
    CutIsLossless(labels, n, draw);
    LosslessSize(cut, |labels|);
    RequiredFits(labels, n, least);
    if FirstShort(cut, minimum, 0).Some? then Enforced(labels, cut, minimum) else cut
  }

  /** The division is lossless and meets the minimum. A class with two samples ends with two holders exactly when
      somebody came out short, so that the repair ran, or one of the drawn cut points falls inside the class. */
  lemma DividedMeets(labels: seq<int>, n: nat, least: nat, draw: nat -> seq<real>)
    requires Draws(draw, n) && n >= 2
    ensures var a := Divided(labels, n, least, draw);
            |a| == n && Lossless(a, |labels|) && AllAtLeast(a, Required(labels, n, least))
    ensures var cut := DealAll(labels, n, Classes(labels), draw);
            forall k | 0 <= k < |Classes(labels)| && CountLabel(labels, Indices(|labels|), Classes(labels)[k]) >= 2 ::
              |Holders(labels, Divided(labels, n, least, draw), Classes(labels)[k])| >= 2
              <==> FirstShort(cut, Required(labels, n, least), 0).Some? || Split(labels, draw, n, k)
  {
    var cut := DealAll(labels, n, Classes(labels), draw);
    var minimum := Required(labels, n, least);
    CutIsLossless(labels, n, draw);
    LosslessSize(cut, |labels|);
    RequiredFits(labels, n, least);
    if FirstShort(cut, minimum, 0).Some? {
      EnforcedMeets(labels, cut, minimum);
    }
    forall k | 0 <= k < |Classes(labels)|
      ensures |Holders(labels, cut, Classes(labels)[k])| >= 2 <==> Split(labels, draw, n, k)
    {
      CutShares(labels, n, draw, k);
    }
    hide DealAll, Split, Classes, Enforced, FirstShort, Holders, Lossless, Required;
  }

  // ----- the sharing pass does not always run -----

  /** Two samples of class 0 and four of class 1. */
  function ExampleLabels(): seq<int> {
    [0, 0, 1, 1, 1, 1]
  }

  lemma ExampleClasses()
    ensures Classes(ExampleLabels()) == [0, 1]
  {
    var l2, l3, l4, l5, l6 := [0, 0], [0, 0, 1], [0, 0, 1, 1], [0, 0, 1, 1, 1], ExampleLabels();
    assert DropLast(l6) == l5 && DropLast(l5) == l4 && DropLast(l4) == l3 && DropLast(l3) == l2;
    assert DropLast(l2) == [0] && DropLast([0]) == [];
    assert Classes([0]) == [0] && Classes(l2) == [0] && Classes(l3) == [0, 1];
    assert Classes(l4) == [0, 1] && Classes(l5) == [0, 1];
  }

  /** A class cut between two clients with the given share for the first. */
  lemma ExampleDeal(a: Shares, s: seq<nat>, share: real, k: nat)
    requires |a| == 2 && 0.0 <= share <= 1.0 && (share * |s| as real).Floor == k <= |s|
    ensures Weights([share, 1.0 - share])
    ensures Deal(a, s, [share, 1.0 - share]) == [a[0] + s[..k], a[1] + s[k..]]
  {
    var w := [share, 1.0 - share];
    assert Cumulative(w, 0) == 0.0 && Cumulative(w, 1) == share && Cumulative(w, 2) == 1.0;
    assert CutPoint(w, |s|, 0) == 0 && CutPoint(w, |s|, 1) == k && CutPoint(w, |s|, 2) == |s|;
    assert Piece(s, w, 0) == s[..k] && Piece(s, w, 1) == s[k..];
    assert Deal(a, s, w) == [a[0] + Piece(s, w, 0), a[1] + Piece(s, w, 1)];
  }

  lemma NextClass(labels: seq<int>, n: nat, classes: seq<int>, l: int, draw: nat -> seq<real>)
    requires Draws(draw, n)
    ensures DealAll(labels, n, classes + [l], draw)
            == Deal(DealAll(labels, n, classes, draw), IndicesOf(labels, l, |labels|), draw(|classes|))
  {
    assert DropLast(classes + [l]) == classes;
  }

  lemma ExampleIndices()
    ensures IndicesOf(ExampleLabels(), 0, 6) == [0, 1] && IndicesOf(ExampleLabels(), 1, 6) == [2, 3, 4, 5]
  {
    var labels := ExampleLabels();
    assert IndicesOf(labels, 0, 2) == [0, 1] && IndicesOf(labels, 1, 2) == [];
    assert IndicesOf(labels, 0, 4) == [0, 1] && IndicesOf(labels, 1, 4) == [2, 3];
  }

  /** One more class is cut. */
  lemma ExampleStep(
      labels: seq<int>, classes: seq<int>, l: int, draw: nat -> seq<real>, a: Shares, s: seq<nat>, share: real, k: nat)
    requires Draws(draw, 2) && |a| == 2 && DealAll(labels, 2, classes, draw) == a
    requires s == IndicesOf(labels, l, |labels|) && draw(|classes|) == [share, 1.0 - share]
    requires 0.0 <= share <= 1.0 && (share * |s| as real).Floor == k <= |s|
    ensures DealAll(labels, 2, classes + [l], draw) == [a[0] + s[..k], a[1] + s[k..]]
  {
    NextClass(labels, 2, classes, l, draw);
    hide Deal, IndicesOf, DealAll, Weights;
    ExampleDeal(a, s, share, k);
  }

  lemma ExampleShares(a: Shares)
    requires a == [[], [0, 1]]
    ensures [a[0] + [2, 3, 4, 5][..2], a[1] + [2, 3, 4, 5][2..]] == [[2, 3], [0, 1, 4, 5]]
  {
    assert [2, 3, 4, 5][..2] == [2, 3] && [2, 3, 4, 5][2..] == [4, 5];
    assert a[0] + [2, 3] == [2, 3] && a[1] + [4, 5] == [0, 1, 4, 5];
  }

  lemma ExampleFirst(draw: nat -> seq<real>)
    requires Draws(draw, 2) && draw(0) == [0.4, 0.6]
    ensures DealAll(ExampleLabels(), 2, [0], draw) == [[], [0, 1]]
  {
    var none: seq<int> := [];
    var a: Shares := DealAll(ExampleLabels(), 2, none, draw);
    assert a == [[], []] && |ExampleLabels()| == 6;
    ExampleIndices();
    assert none + [0] == [0] && [0.4, 1.0 - 0.4] == [0.4, 0.6];
    hide Draws, Deal, IndicesOf, DealAll, Weights, NoSamples, ExampleLabels;
    ExampleStep(ExampleLabels(), none, 0, draw, a, [0, 1], 0.4, 0);
    assert [0, 1][..0] == [] && [0, 1][0..] == [0, 1];
    assert a[0] + [] == [] && a[1] + [0, 1] == [0, 1];
  }

  lemma ExampleSecond(draw: nat -> seq<real>)
    requires Draws(draw, 2) && draw(0) == [0.4, 0.6] && draw(1) == [0.5, 0.5]
    ensures DealAll(ExampleLabels(), 2, [0, 1], draw) == [[2, 3], [0, 1, 4, 5]]
  {
    var one, a: Shares := [0], [[], [0, 1]];
    ExampleFirst(draw);
    ExampleIndices();
    assert |ExampleLabels()| == 6 && one + [1] == [0, 1] && [0.5, 1.0 - 0.5] == [0.5, 0.5] == draw(|one|);
    hide Draws, Deal, IndicesOf, DealAll, Weights, NoSamples, ExampleLabels;
    ExampleStep(ExampleLabels(), one, 1, draw, a, [2, 3, 4, 5], 0.5, 2);
    ExampleShares(a);
  }

  lemma ExampleDraws(draw: nat -> seq<real>)
    requires draw == ((k: nat) => if k == 0 then [0.4, 0.6] else [0.5, 0.5])
    ensures Draws(draw, 2)
  {
    assert Cumulative([0.4, 0.6], 1) == 0.4 && Cumulative([0.5, 0.5], 1) == 0.5;
  }

  /** Six samples of two classes between two clients with positive weights, no client short: class 0 stays with one
      client. */
  lemma ExclusiveWithoutRepair() returns (draw: nat -> seq<real>)
    ensures Draws(draw, 2) && forall k: nat, c | 0 <= c < 2 :: 0.0 < draw(k)[c] < 1.0
    ensures Divided(ExampleLabels(), 2, 2, draw) == [[2, 3], [0, 1, 4, 5]]
    ensures |Holders(ExampleLabels(), [[2, 3], [0, 1, 4, 5]], 0)| == 1
            && CountLabel(ExampleLabels(), Indices(6), 0) == 2
  {
    hide DealAll, Classes, Holders, CountLabel, Indices, FirstShort, Required, Enforced;
    hide Divided, ExampleLabels, Weights;
    draw := (k: nat) => if k == 0 then [0.4, 0.6] else [0.5, 0.5];
    ExampleDraws(draw);
    ExampleClasses();
    ExampleSecond(draw);
    ExampleHolders();
    ExampleNotShort();
    DividedIsCut(ExampleLabels(), 2, 2, draw);
  }

  lemma DividedIsCut(labels: seq<int>, n: nat, least: nat, draw: nat -> seq<real>)
    requires Draws(draw, n) && n > 0
    requires FirstShort(DealAll(labels, n, Classes(labels), draw), Required(labels, n, least), 0).None?
    ensures Divided(labels, n, least, draw) == DealAll(labels, n, Classes(labels), draw)
  {
    hide DealAll, Classes, FirstShort, Required, Enforced;
  }

  lemma ExampleNotShort()
    ensures FirstShort([[2, 3], [0, 1, 4, 5]], Required(ExampleLabels(), 2, 2), 0).None?
  {
    var a: Shares := [[2, 3], [0, 1, 4, 5]];
    assert |a[0]| == 2 && |a[1]| == 4;
  }

  lemma ExampleHolders()
    ensures |Holders(ExampleLabels(), [[2, 3], [0, 1, 4, 5]], 0)| == 1
            && CountLabel(ExampleLabels(), Indices(6), 0) == 2
  {
    var labels, a := ExampleLabels(), [[2, 3], [0, 1, 4, 5]];
    assert DropLast(a) == [[2, 3]] && DropLast([[2, 3]]) == [];
    assert 0 in a[1] && LabelOf(labels, 0) == 0;
    assert !Holds(labels, [2, 3], 0);
    var s := [0, 1, 2, 3, 4, 5];
    assert Indices(6) == s && DropLast(s) == s[..5] && DropLast(s[..5]) == s[..4] && DropLast(s[..4]) == s[..3]
          && DropLast(s[..3]) == s[..2] && DropLast(s[..2]) == s[..1] && DropLast(s[..1]) == [];
    assert CountLabel(labels, s[..1], 0) == 1 && CountLabel(labels, s[..2], 0) == 2
          && CountLabel(labels, s[..3], 0) == 2 && CountLabel(labels, s[..4], 0) == 2;
  }
}
