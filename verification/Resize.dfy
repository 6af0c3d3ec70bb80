/** Bilinear resizing by two passes along one axis each: width first, then height. */
module Resize {
  import opened Common
  import opened Vectors
  import opened Images

  // ----- one axis -----

  /** Where output position k lies among `size` input positions; never before the first. */
  function Coordinate(size: Positive, output: Positive, k: nat): (c: real)
    ensures 0.0 <= c
  {
    Max(0.0, (k as real + 0.5) * (size as real / output as real) - 0.5)
  }

  function Lower(size: Positive, output: Positive, k: nat): nat {
    Coordinate(size, output, k).Floor
  }

  function Upper(size: Positive, output: Positive, k: nat): nat {
    if Lower(size, output, k) + 1 < size then Lower(size, output, k) + 1 else size - 1
  }

  function Weight(size: Positive, output: Positive, k: nat): (w: real)
    ensures 0.0 <= w <= 1.0
  {
    Min(1.0, Max(0.0, Coordinate(size, output, k) - Lower(size, output, k) as real))
  }

  lemma CoordinateFits(size: Positive, output: Positive, k: nat)
    requires k < output
    ensures Coordinate(size, output, k) < size as real
  {
    var s, o := size as real, output as real;
    var x, ratio := k as real + 0.5, s / o;
    assert ratio > 0.0 && o * ratio == s;
    Increases(x, o, ratio);
    assert Coordinate(size, output, k) == Max(0.0, x * ratio - 0.5);
  }

  lemma Increases(x: real, y: real, ratio: real)
    requires x < y && ratio > 0.0
    ensures x * ratio < y * ratio
  {
  }

  /** Both selected positions are in range. */
  lemma SelectedInRange(size: Positive, output: Positive, k: nat)
    requires k < output
    ensures Lower(size, output, k) < size && Upper(size, output, k) < size
  {
    CoordinateFits(size, output, k);
  }

  /** With equal sizes every position selects itself, with no weight on its neighbour. */
  lemma SameSizeSelectsItself(size: Positive, k: nat)
    ensures Lower(size, size, k) == k && Weight(size, size, k) == 0.0
  {
    assert size as real / size as real == 1.0;
    assert (k as real + 0.5) * 1.0 == k as real + 0.5;
    assert Coordinate(size, size, k) == k as real;
  }

  function Lerp(a: real, b: real, w: real): real {
    a + Mul(b - a, w)
  }

  // ----- the two passes -----

  /** One row at output position k. */
  function AcrossAt(row: seq<real>, output: Positive, k: nat): real
    requires row != [] && k < output
  {
    SelectedInRange(|row|, output, k);
    Lerp(row[Lower(|row|, output, k)], row[Upper(|row|, output, k)], Weight(|row|, output, k))
  }

  function AcrossRow(row: seq<real>, output: Positive): (r: seq<real>)
    requires row != []
    ensures |r| == output
  {
    seq(output, k requires 0 <= k < output => AcrossAt(row, output, k))
  }

  /** The width pass. */
  function Across(img: Image, width: Positive, output: Positive): (r: Image)
    requires Rectangle(img, width)
    ensures |r| == |img| && Rectangle(r, output)
  {
    seq(|img|, i requires 0 <= i < |img| => AcrossRow(img[i], output))
  }

  function LerpRows(a: seq<real>, b: seq<real>, w: real): (r: seq<real>)
    requires |a| == |b|
    ensures |r| == |a|
  {
    seq(|a|, j requires 0 <= j < |a| => Lerp(a[j], b[j], w))
  }

  function DownRow(img: Image, width: nat, output: Positive, k: nat): (r: seq<real>)
    requires Rectangle(img, width) && img != [] && k < output
    ensures |r| == width
  {
    SelectedInRange(|img|, output, k);
    LerpRows(img[Lower(|img|, output, k)], img[Upper(|img|, output, k)], Weight(|img|, output, k))
  }

  /** The height pass. */
  function Down(img: Image, width: nat, output: Positive): (r: Image)
    requires Rectangle(img, width) && img != []
    ensures |r| == output && Rectangle(r, width)
  {
    seq(output, k requires 0 <= k < output => DownRow(img, width, output, k))
  }

  /** The two-dimensional definition: four pixels, weighted by the product of the axis weights. */
  function FourTap(img: Image, width: Positive, height': Positive, width': Positive, i: nat, j: nat): real
    requires Rectangle(img, width) && img != [] && i < height' && j < width'
  {
    SelectedInRange(|img|, height', i);
    SelectedInRange(width, width', j);
    var (i0, i1, u) := (Lower(|img|, height', i), Upper(|img|, height', i), Weight(|img|, height', i));
    var (j0, j1, v) := (Lower(width, width', j), Upper(width, width', j), Weight(width, width', j));
    Mul(Mul(1.0 - u, 1.0 - v), img[i0][j0]) + Mul(Mul(1.0 - u, v), img[i0][j1])
    + Mul(Mul(u, 1.0 - v), img[i1][j0]) + Mul(Mul(u, v), img[i1][j1])
  }

  lemma LerpTwice(a: real, b: real, c: real, d: real, u: real, v: real)
    ensures Lerp(Lerp(a, b, v), Lerp(c, d, v), u)
            == Mul(Mul(1.0 - u, 1.0 - v), a) + Mul(Mul(1.0 - u, v), b) + Mul(Mul(u, 1.0 - v), c) + Mul(Mul(u, v), d)
  {
    Weighted(a, b, v);
    Weighted(c, d, v);
    var x, y := Lerp(a, b, v), Lerp(c, d, v);
    Weighted(x, y, u);
    Expand(1.0 - u, 1.0 - v, a, v, b);
    Expand(u, 1.0 - v, c, v, d);
  }

  lemma Weighted(a: real, b: real, w: real)
    ensures Lerp(a, b, w) == Mul(1.0 - w, a) + Mul(w, b)
  {
    assert (b - a) * w == b * w - a * w;
    assert (1.0 - w) * a == a - w * a;
  }

  lemma Expand(p: real, q: real, a: real, r: real, b: real)
    ensures Mul(p, Mul(q, a) + Mul(r, b)) == Mul(Mul(p, q), a) + Mul(Mul(p, r), b)
  {
    assert p * (q * a) == p * q * a && p * (r * b) == p * r * b;
  }

  /** The two passes, in either order, give the four-tap formula. */
  lemma PassesAreFourTap(img: Image, width: Positive, height': Positive, width': Positive)
    requires Rectangle(img, width) && img != []
    ensures forall i, j | 0 <= i < height' && 0 <= j < width' ::
              Down(Across(img, width, width'), width', height')[i][j] == FourTap(img, width, height', width', i, j)
    ensures Across(Down(img, width, height'), width, width') == Down(Across(img, width, width'), width', height')
  {
    var a, b := Down(Across(img, width, width'), width', height'), Across(Down(img, width, height'), width, width');
    forall i, j | 0 <= i < height' && 0 <= j < width'
      ensures a[i][j] == FourTap(img, width, height', width', i, j) == b[i][j]
    {
      EachPixel(img, width, height', width', i, j);
    }
    hide Down, Across, FourTap;
    assert forall i | 0 <= i < height' :: a[i] == b[i];
  }

  lemma EachPixel(img: Image, width: Positive, height': Positive, width': Positive, i: nat, j: nat)
    requires Rectangle(img, width) && img != [] && i < height' && j < width'
    ensures Down(Across(img, width, width'), width', height')[i][j] == FourTap(img, width, height', width', i, j)
    ensures Across(Down(img, width, height'), width, width')[i][j] == FourTap(img, width, height', width', i, j)
  {
    hide Lerp, Mul, Lower, Upper, Weight;
    SelectedInRange(|img|, height', i);
    SelectedInRange(width, width', j);
    var (i0, i1, u) := (Lower(|img|, height', i), Upper(|img|, height', i), Weight(|img|, height', i));
    var (j0, j1, v) := (Lower(width, width', j), Upper(width, width', j), Weight(width, width', j));
    LerpTwice(img[i0][j0], img[i0][j1], img[i1][j0], img[i1][j1], u, v);
    LerpTwice(img[i0][j0], img[i1][j0], img[i0][j1], img[i1][j1], v, u);
    Commutes(u, v);
  }

  lemma Commutes(u: real, v: real)
    ensures Mul(u, v) == Mul(v, u) && Mul(1.0 - u, v) == Mul(v, 1.0 - u)
    ensures Mul(u, 1.0 - v) == Mul(1.0 - v, u) && Mul(1.0 - u, 1.0 - v) == Mul(1.0 - v, 1.0 - u)
  {
  }

  // ----- the resize -----

  datatype Resized = BadSize | Resized(img: Image)

  /** The loop over the two axes. */
  method BilinearResize(img: Image, width: Positive, height': int, width': int) returns (r: Resized)
    requires Rectangle(img, width) && img != []
    ensures r.BadSize? <==> height' <= 0 || width' <= 0
    ensures r.Resized? ==>
              && |r.img| == height' && Rectangle(r.img, width')
              && forall i, j | 0 <= i < height' && 0 <= j < width' ::
                    r.img[i][j] == FourTap(img, width, height', width', i, j)
  {
    if height' <= 0 || width' <= 0 {
      return BadSize;
    }
    var result := img;
    for axis := 0 to 2
      invariant axis == 0 ==> result == img
      invariant axis == 1 ==> result == Across(img, width, width')
      invariant axis == 2 ==> result == Down(Across(img, width, width'), width', height')
    {
      if axis == 0 {
        result := Across(result, width, width');
      } else {
        result := Down(result, width', height');
      }
    }
    PassesAreFourTap(img, width, height', width');
    r := Resized(result);
  }

  ghost predicate Within(img: Image, low: real, high: real) {
    forall i, j | 0 <= i < |img| && 0 <= j < |img[i]| :: low <= img[i][j] <= high
  }

  lemma LerpWithin(a: real, b: real, w: real, low: real, high: real)
    requires low <= a <= high && low <= b <= high && 0.0 <= w <= 1.0
    ensures low <= Lerp(a, b, w) <= high
  {
    PartOf(b - a, w);
    hide Mul;
  }

  lemma PartOf(d: real, w: real)
    requires 0.0 <= w <= 1.0
    ensures d >= 0.0 ==> 0.0 <= Mul(d, w) <= d
    ensures d <= 0.0 ==> d <= Mul(d, w) <= 0.0
  {
    assert d - Mul(d, w) == d * (1.0 - w);
  }

  /** No value outside the range of the input appears. */
  lemma ResizeWithin(img: Image, width: Positive, height': Positive, width': Positive, low: real, high: real)
    requires Rectangle(img, width) && img != [] && Within(img, low, high)
    ensures Within(Down(Across(img, width, width'), width', height'), low, high)
  {
    var wide := Across(img, width, width');
    hide Lerp;
    forall i, j | 0 <= i < |wide| && 0 <= j < |wide[i]|
      ensures low <= wide[i][j] <= high
    {
      SelectedInRange(width, width', j);
      var a, b := img[i][Lower(width, width', j)], img[i][Upper(width, width', j)];
      LerpWithin(a, b, Weight(width, width', j), low, high);
    }
    var all := Down(wide, width', height');
    hide Across;
    forall i, j | 0 <= i < |all| && 0 <= j < |all[i]|
      ensures low <= all[i][j] <= high
    {
      SelectedInRange(|wide|, height', i);
      var a, b := wide[Lower(|wide|, height', i)][j], wide[Upper(|wide|, height', i)][j];
      LerpWithin(a, b, Weight(|wide|, height', i), low, high);
    }
  }

  lemma LerpZero(a: real, b: real)
    ensures Lerp(a, b, 0.0) == a
  {
  }

  /** Resizing to the same size changes nothing. */
  lemma SameSize(img: Image, width: Positive)
    requires Rectangle(img, width) && img != []
    ensures Down(Across(img, width, width), width, |img|) == img
  {
    hide Lerp, Lower, Upper, Weight;
    var wide := Across(img, width, width);
    forall i | 0 <= i < |img|
      ensures wide[i] == img[i]
    {
      forall j | 0 <= j < width
        ensures wide[i][j] == img[i][j]
      {
        SameSizeSelectsItself(width, j);
        SelectedInRange(width, width, j);
        LerpZero(img[i][j], img[i][Upper(width, width, j)]);
      }
    }
    assert wide == img;
    var all := Down(img, width, |img|);
    forall i | 0 <= i < |img|
      ensures all[i] == img[i]
    {
      SameSizeSelectsItself(|img|, i);
      SelectedInRange(|img|, |img|, i);
      forall j | 0 <= j < width
        ensures all[i][j] == img[i][j]
      {
        LerpZero(img[i][j], img[Upper(|img|, |img|, i)][j]);
      }
    }
  }
}
