/** Value types and list facts shared by every other module. */
module Common {

  datatype Option<+T> = None | Some(value: T)

  /** Counts that the program checks to be at least one. */
  type Positive = n: nat | 1 <= n witness 1

  function Max(a: real, b: real): real {
    if a >= b then a else b
  }

  function Min(a: real, b: real): real {
    if a <= b then a else b
  }

  function Abs(x: real): real {
    if x < 0.0 then -x else x
  }

  function Last<T>(s: seq<T>): T
    requires s != []
  {
    s[|s| - 1]
  }

  function DropLast<T>(s: seq<T>): seq<T>
    requires s != []
  {
    s[..|s| - 1]
  }

  function Sum(v: seq<real>): real {
    if v == [] then 0.0 else Sum(DropLast(v)) + Last(v)
  }

  /** The same sum, taken from the front. */
  lemma {:induction false} SumFront(v: seq<real>)
    requires v != []
    ensures Sum(v) == v[0] + Sum(v[1..])
  {
    if |v| > 1 {
      SumFront(DropLast(v));
      assert DropLast(v)[1..] == DropLast(v[1..]);
    }
  }

  ghost predicate Distinct<T(!new)>(s: seq<T>) {
    forall i, j :: 0 <= i < j < |s| ==> s[i] != s[j]
  }
}
