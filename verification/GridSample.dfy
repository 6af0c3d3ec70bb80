/** Bilinear sampling of an image at real coordinates, with four gathers and zero padding. */
module GridSample {
  import opened Common
  import opened Vectors
  import opened Images

  // ----- the fast form -----

  /** The pixel coordinate of a grid coordinate in [-1, 1]. */
  function Coordinate(g: real, size: nat): real {
    (g + 1.0) * size as real / 2.0 - 0.5
  }

  function Clamp(i: int, high: int): int {
    if i < 0 then 0 else if i > high then high else i
  }

  /** The rows one after another. */
  function Flatten(img: Image): seq<real> {
    if img == [] then [] else Flatten(DropLast(img)) + Last(img)
  }

  /** The flat position that is read for a row and a column, wherever they are. */
  function FlatIndex(height: nat, width: nat, iy: int, ix: int): int {
    Clamp(iy, height - 1) * width + Clamp(ix, width - 1)
  }

  predicate Inside(height: nat, width: nat, iy: int, ix: int) {
    0 <= iy < height && 0 <= ix < width
  }

  function Gather(flat: seq<real>, height: nat, width: nat, iy: int, ix: int): real
    requires 0 <= FlatIndex(height, width, iy, ix) < |flat|
  {
    Mul(flat[FlatIndex(height, width, iy, ix)], if Inside(height, width, iy, ix) then 1.0 else 0.0)
  }

  /** The four weighted gathers around (x, y). */
  function SampleAt(img: Image, width: nat, x: real, y: real): real
    requires Rectangle(img, width) && img != [] && width > 0
  {
    var h, flat := |img|, Flatten(img);
    var x0, y0 := x.Floor, y.Floor;
    var wx, wy := x - x0 as real, y - y0 as real;
    IndexInRange(img, width, y0, x0);
    IndexInRange(img, width, y0, x0 + 1);
    IndexInRange(img, width, y0 + 1, x0);
    IndexInRange(img, width, y0 + 1, x0 + 1);
    Mul(Mul(1.0 - wx, 1.0 - wy), Gather(flat, h, width, y0, x0))
          + Mul(Mul(wx, 1.0 - wy), Gather(flat, h, width, y0, x0 + 1))
    + Mul(Mul(1.0 - wx, wy), Gather(flat, h, width, y0 + 1, x0))
          + Mul(Mul(wx, wy), Gather(flat, h, width, y0 + 1, x0 + 1))
  }

  function BilinearGridSample(img: Image, width: nat, gx: real, gy: real): real
    requires Rectangle(img, width) && img != [] && width > 0
  {
    SampleAt(img, width, Coordinate(gx, width), Coordinate(gy, |img|))
  }

  // ----- the definition -----

  /** The weight of a pixel at distance d along one axis. */
  function Tent(d: real): real {
    Max(0.0, 1.0 - Max(d, -d))
  }

  /** Sum over the pixels of one row, up to column n, of value, column weight and row weight. */
  function RowSum(row: seq<real>, x: real, rowWeight: real, n: nat): real
    requires n <= |row|
  {
    if n == 0 then 0.0
    else
      RowSum(row, x, rowWeight, n - 1)
      + Mul(rowWeight, Mul(row[n - 1], Tent(x - (n - 1) as real)))
  }

  /** Sum over all pixels of the first n rows of value times both weights. */
  function PixelSum(img: Image, x: real, y: real, n: nat): real
    requires n <= |img|
  {
    if n == 0 then 0.0 else PixelSum(img, x, y, n - 1) + RowSum(img[n - 1], x, Tent(y - (n - 1) as real), |img[n - 1]|)
  }

  // ----- reading the flat image -----

  lemma {:induction false} FlattenSize(img: Image, width: nat)
    requires Rectangle(img, width)
    ensures |Flatten(img)| == |img| * width
  {
    if img != [] {
      FlattenSize(DropLast(img), width);
      Distributes(|img| - 1, width);
    }
  }

  lemma Distributes(n: int, width: nat)
    ensures (n + 1) * width == n * width + width
  {
  }

  lemma RowsFit(i: nat, j: nat, height: nat, width: nat)
    requires i < height && j < width
    ensures 0 <= i * width + j < height * width
  {
    assert (i + 1) * width <= height * width;
    Distributes(i, width);
    assert 0 <= i * width;
  }

  /** Every position that is read is in range, however far outside the image the sample lies. */
  lemma IndexInRange(img: Image, width: nat, iy: int, ix: int)
    requires Rectangle(img, width) && img != [] && width > 0
    ensures 0 <= FlatIndex(|img|, width, iy, ix) < |Flatten(img)|
  {
    FlattenSize(img, width);
    RowsFit(Clamp(iy, |img| - 1), Clamp(ix, width - 1), |img|, width);
  }

  lemma {:induction false} FlattenAt(img: Image, width: nat, i: nat, j: nat)
    requires Rectangle(img, width) && i < |img| && j < width
    ensures 0 <= i * width + j < |Flatten(img)| && Flatten(img)[i * width + j] == img[i][j]
  {
    FlattenSize(img, width);
    RowsFit(i, j, |img|, width);
    FlattenSize(DropLast(img), width);
    if i < |img| - 1 {
      FlattenAt(DropLast(img), width, i, j);
    }
  }

  /** The pixel, or zero outside the first n of them. */
  function At(v: seq<real>, n: nat, j: int): real
    requires n <= |v|
  {
    if 0 <= j < n then v[j] else 0.0
  }

  /** A gather reads the pixel, or zero outside the image. */
  lemma GatherIsPixel(img: Image, width: nat, iy: int, ix: int)
    requires Rectangle(img, width) && img != [] && width > 0
    ensures 0 <= FlatIndex(|img|, width, iy, ix) < |Flatten(img)|
    ensures Gather(Flatten(img), |img|, width, iy, ix) == if 0 <= iy < |img| then At(img[iy], width, ix) else 0.0
  {
    IndexInRange(img, width, iy, ix);
    if Inside(|img|, width, iy, ix) {
      FlattenAt(img, width, iy, ix);
    }
  }

  // ----- along one axis -----

  /** Sum of value times tent weight over the first n values. */
  function TentSum(v: seq<real>, x: real, n: nat): real
    requires n <= |v|
  {
    if n == 0 then 0.0 else TentSum(v, x, n - 1) + Mul(v[n - 1], Tent(x - (n - 1) as real))
  }

  /** Only the two neighbours of the coordinate have weight. */
  lemma {:induction false} TwoNeighbours(v: seq<real>, x: real, n: nat)
    requires n <= |v|
    ensures var x0, w := x.Floor, x - x.Floor as real;
            TentSum(v, x, n) == Mul(At(v, n, x0), 1.0 - w) + Mul(At(v, n, x0 + 1), w)
  {
    var x0, w := x.Floor, x - x.Floor as real;
    ZeroTimes(w);
    ZeroTimes(1.0 - w);
    if n > 0 {
      TwoNeighbours(v, x, n - 1);
      TentWeight(x, n - 1);
      MulLaws(v[n - 1], 0.0, 0.0);
      hide Mul, Tent;
    }
  }

  lemma ZeroTimes(w: real)
    ensures Mul(0.0, w) == 0.0
  {
  }

  lemma TentWeight(x: real, j: nat)
    ensures var x0, w := x.Floor, x - x.Floor as real;
            Tent(x - j as real) == if j == x0 then 1.0 - w else if j == x0 + 1 then w else 0.0
  {
    var x0 := x.Floor;
    if j < x0 {
      assert j as real + 1.0 <= x0 as real;
    } else if j > x0 + 1 {
      assert j as real >= x0 as real + 2.0;
    }
  }

  lemma {:induction false} RowSumFactors(row: seq<real>, x: real, rowWeight: real, n: nat)
    requires n <= |row|
    ensures RowSum(row, x, rowWeight, n) == Mul(TentSum(row, x, n), rowWeight)
  {
    hide Mul, Tent;
    MulLaws(rowWeight, 0.0, 0.0);
    MulLaws(rowWeight, TentSum(row, x, n), 0.0);
    if n > 0 {
      RowSumFactors(row, x, rowWeight, n - 1);
      MulLaws(rowWeight, TentSum(row, x, n - 1), 0.0);
      MulLaws(rowWeight, TentSum(row, x, n - 1), Mul(row[n - 1], Tent(x - (n - 1) as real)));
    }
  }

  function RowSums(img: Image, x: real): (r: seq<real>)
    ensures |r| == |img|
  {
    seq(|img|, i requires 0 <= i < |img| => TentSum(img[i], x, |img[i]|))
  }

  lemma {:induction false} PixelSumFactors(img: Image, x: real, y: real, n: nat)
    requires n <= |img|
    ensures PixelSum(img, x, y, n) == TentSum(RowSums(img, x), y, n)
  {
    hide Mul, Tent;
    if n > 0 {
      PixelSumFactors(img, x, y, n - 1);
      RowSumFactors(img[n - 1], x, Tent(y - (n - 1) as real), |img[n - 1]|);
    }
  }

  lemma Products(a: real, b: real, p: real, q: real, s: real, t: real)
    ensures Mul(Mul(p, a) + Mul(q, b), s) == Mul(Mul(a, s), p) + Mul(Mul(b, s), q)
  {
    assert (p * a + q * b) * s == p * a * s + q * b * s;
    assert p * a * s == a * s * p && q * b * s == b * s * q;
  }

  // ----- the refinement -----

  /** Four gathers give the same as the sum over all pixels of value times the two tent weights, for every image
      and every real coordinate, inside or outside. */
  lemma SampleIsPixelSum(img: Image, width: nat, x: real, y: real)
    requires Rectangle(img, width) && img != [] && width > 0
    ensures SampleAt(img, width, x, y) == PixelSum(img, x, y, |img|)
  {
    var x0, y0 := x.Floor, y.Floor;
    var wx, wy := x - x0 as real, y - y0 as real;
    PixelSumFactors(img, x, y, |img|);
    TwoNeighbours(RowSums(img, x), y, |img|);
    RowAt(img, width, x, y0);
    RowAt(img, width, x, y0 + 1);
    GatherIsPixel(img, width, y0, x0);
    GatherIsPixel(img, width, y0, x0 + 1);
    GatherIsPixel(img, width, y0 + 1, x0);
    GatherIsPixel(img, width, y0 + 1, x0 + 1);
    hide Mul, Tent, PixelSum, Gather, FlatIndex, Flatten;
    var p00, p10, p01, p11 := PixelAt(img, width, y0, x0), PixelAt(img, width, y0, x0 + 1),
                              PixelAt(img, width, y0 + 1, x0), PixelAt(img, width, y0 + 1, x0 + 1);
    Products(1.0 - wx, wx, p00, p10, 1.0 - wy, 0.0);
    Products(1.0 - wx, wx, p01, p11, wy, 0.0);
    MulLaws(Mul(1.0 - wx, 1.0 - wy), p00, 0.0);
    MulLaws(Mul(wx, 1.0 - wy), p10, 0.0);
    MulLaws(Mul(1.0 - wx, wy), p01, 0.0);
    MulLaws(Mul(wx, wy), p11, 0.0);
  }

  function PixelAt(img: Image, width: nat, iy: int, ix: int): real
    requires Rectangle(img, width)
  {
    if 0 <= iy < |img| then At(img[iy], width, ix) else 0.0
  }

  lemma RowAt(img: Image, width: nat, x: real, iy: int)
    requires Rectangle(img, width)
    ensures var x0, w := x.Floor, x - x.Floor as real;
            At(RowSums(img, x), |img|, iy) == Mul(PixelAt(img, width, iy, x0), 1.0 - w)
                  + Mul(PixelAt(img, width, iy, x0 + 1), w)
  {
    var w := x - x.Floor as real;
    ZeroTimes(w);
    ZeroTimes(1.0 - w);
    if 0 <= iy < |img| {
      TwoNeighbours(img[iy], x, width);
    }
  }

  /** The sample of an image at a pixel's own coordinate is the pixel. */
  lemma SampleAtPixel(img: Image, width: nat, i: nat, j: nat)
    requires Rectangle(img, width) && i < |img| && j < width
    ensures SampleAt(img, width, j as real, i as real) == img[i][j]
  {
    GatherIsPixel(img, width, i, j);
    assert (j as real).Floor == j && (i as real).Floor == i;
    hide Gather, FlatIndex, Flatten;
    CornerOnly(Gather(Flatten(img), |img|, width, i, j));
    ZeroWeights();
  }

  lemma CornerOnly(v: real)
    ensures Mul(Mul(1.0, 1.0), v) == v
  {
  }

  lemma ZeroWeights()
    ensures forall v :: Mul(Mul(0.0, 1.0), v) == 0.0 && Mul(Mul(1.0, 0.0), v) == 0.0 && Mul(Mul(0.0, 0.0), v) == 0.0
  {
  }

  /** The sampler on grid coordinates, against the definition; a sample at a pixel's centre is the pixel. */
  lemma GridSampleIsPixelSum(img: Image, width: nat, gx: real, gy: real)
    requires Rectangle(img, width) && img != [] && width > 0
    ensures BilinearGridSample(img, width, gx, gy)
            == PixelSum(img, Coordinate(gx, width), Coordinate(gy, |img|), |img|)
  {
    SampleIsPixelSum(img, width, Coordinate(gx, width), Coordinate(gy, |img|));
  }

  /** The grid coordinate of the centre of pixel j, in [-1, 1]. */
  function Centre(j: nat, size: nat): real
    requires size > 0
  {
    (2 * j + 1) as real / size as real - 1.0
  }

  /** Pixel centres lie at whole pixel coordinates; the grid's ends lie half a pixel outside the first and last. */
  lemma CentreCoordinate(j: nat, size: nat)
    requires size > 0
    ensures Coordinate(Centre(j, size), size) == j as real
    ensures Coordinate(-1.0, size) == -0.5 && Coordinate(1.0, size) == size as real - 0.5
  {
    var x, s := (2 * j + 1) as real, size as real;
    assert x / s * s == x;
    assert x == 2.0 * j as real + 1.0;
  }

  lemma GridSampleAtCentre(img: Image, width: nat, i: nat, j: nat)
    requires Rectangle(img, width) && i < |img| && j < width
    ensures BilinearGridSample(img, width, Centre(j, width), Centre(i, |img|)) == img[i][j]
  {
    CentreCoordinate(j, width);
    CentreCoordinate(i, |img|);
    SampleAtPixel(img, width, i, j);
  }
}
