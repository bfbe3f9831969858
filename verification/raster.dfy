/** The pixel loop of `render`: each pixel (i, j) of the `ImageData`, with
    `j` counted from the top, is coloured from the grid cell of row
    `height - j - 1`, and its four RGBA bytes are written at `4*pixel`. The
    colour scale itself belongs to a library and is a parameter here. */
module Raster {
  import opened Wrappers
  import opened Numbers
  import opened Grids

  /** `pixel = j * width + i`. */
  function PixelIndex(width: nat, i: nat, j: nat): (p: nat)
    ensures j * width <= p
    ensures i < width ==> p < j * width + width
  {
    j * width + i
  }

  /** `data = (height - j - 1) * width + i`: the grid cell drawn at (i, j). */
  function SourceIndex(width: nat, height: nat, i: nat, j: nat): (s: nat)
    requires j < height
    ensures s == PixelIndex(width, i, height - j - 1)
    ensures i < width ==> s < width * height && s / width == height - j - 1 && s % width == i
  {
    var r := height - j - 1;
    if i < width then
      CellOfRow(width, height, r, i);
      r * width + i
    else r * width + i
  }

  /** Column `i` of row `r` is a cell of the grid whose row and column are
      recovered by `/` and `%`. */
  lemma CellOfRow(width: nat, height: nat, r: nat, i: nat)
    requires r < height && i < width
    ensures r * width + i < width * height
    ensures (r * width + i) / width == r && (r * width + i) % width == i
  {
    RowColumn(width, i, r);
    MulLeftMono(r + 1, height, width);
    assert (r + 1) * width == r * width + width;
  }

  /** `4 * pixel + c`: where channel `c` of pixel (i, j) is stored. */
  function ByteIndex(width: nat, i: nat, j: nat, c: nat): (b: nat)
    ensures c < 4 ==> b / 4 == PixelIndex(width, i, j) && b % 4 == c
  {
    4 * PixelIndex(width, i, j) + c
  }

  lemma MulLeftMono(a: int, b: int, w: nat)
    requires a <= b
    ensures a * w <= b * w
  {
    assert b * w - a * w == (b - a) * w;
  }

  /** Row `j` and column `i < width` are recovered from `j * width + i`. */
  lemma RowColumn(width: nat, i: nat, j: nat)
    requires i < width
    ensures (j * width + i) / width == j
    ensures (j * width + i) % width == i
  {
    var p := j * width + i;
    var q, r := p / width, p % width;
    assert p == q * width + r;
    if q > j {
      MulLeftMono(j + 1, q, width);
      assert false;
    } else if q < j {
      MulLeftMono(q + 1, j, width);
      assert false;
    }
  }

  /** Both indices of the loop body stay inside the `width*height` grid. */
  lemma IndicesInRange(width: nat, height: nat, i: nat, j: nat)
    requires i < width && j < height
    ensures PixelIndex(width, i, j) < width * height
    ensures SourceIndex(width, height, i, j) < width * height
  {
    MulLeftMono(j + 1, height, width);
    MulLeftMono(height - j, height, width);
  }

  /** Every RGBA write of the loops lands inside the `4*width*height` bytes
      of the `ImageData`. */
  lemma WritesInRange(width: nat, height: nat, i: nat, j: nat, c: nat)
    requires i < width && j < height && c < 4
    ensures ByteIndex(width, i, j, c) < 4 * width * height
  {
    IndicesInRange(width, height, i, j);
  }

  /** Distinct (i, j, c) are written at distinct bytes: no write of the
      loops overwrites another. */
  lemma WritesDistinct(width: nat, i: nat, j: nat, c: nat, i': nat, j': nat, c': nat)
    requires i < width && i' < width && c < 4 && c' < 4
    requires ByteIndex(width, i, j, c) == ByteIndex(width, i', j', c')
    ensures i == i' && j == j' && c == c'
  {
    assert PixelIndex(width, i, j) == PixelIndex(width, i', j');
    RowColumn(width, i, j);
    RowColumn(width, i', j');
  }

  /** Every byte of the `ImageData` is written by the loops. */
  lemma WritesCover(width: nat, height: nat, k: nat)
    requires k < 4 * width * height
    ensures exists i: nat, j: nat, c: nat :: i < width && j < height && c < 4 && ByteIndex(width, i, j, c) == k
  {
    var p, c := k / 4, k % 4;
    assert p < width * height;
    var i, j := p % width, p / width;
    assert p == j * width + i;
    if j >= height {
      MulLeftMono(height, j, width);
      assert false;
    }
    assert ByteIndex(width, i, j, c) == k;
  }

  /** The flip as a map on pixel numbers: pixel `p` shows cell `Flip(p)`. */
  function Flip(width: nat, height: nat, p: nat): nat
    requires p < width * height
  {
    RowBelowHeight(width, height, p);
    (height - p / width - 1) * width + p % width
  }

  lemma RowBelowHeight(width: nat, height: nat, p: nat)
    requires p < width * height
    ensures width > 0 && p / width < height
  {
    if p / width >= height {
      MulLeftMono(height, p / width, width);
      assert false;
    }
  }

  /** The loops' pairing `pixel -> data` is the flip on pixel numbers. */
  lemma FlipMatchesLoops(width: nat, height: nat, i: nat, j: nat)
    requires i < width && j < height
    ensures PixelIndex(width, i, j) < width * height
    ensures Flip(width, height, PixelIndex(width, i, j)) == SourceIndex(width, height, i, j)
  {
    IndicesInRange(width, height, i, j);
    RowColumn(width, i, j);
  }

  /** Flipping twice gives the pixel back, and the flip stays in range. */
  lemma FlipInvolution(width: nat, height: nat, p: nat)
    requires p < width * height
    ensures Flip(width, height, p) < width * height
    ensures Flip(width, height, Flip(width, height, p)) == p
  {
    RowBelowHeight(width, height, p);
    var i, j := p % width, p / width;
    assert p == j * width + i;
    var q := Flip(width, height, p);
    assert q == SourceIndex(width, height, i, j);
    IndicesInRange(width, height, i, j);
    RowColumn(width, i, height - j - 1);
  }

  /** The flip is a bijection of `[0, width*height)` onto itself: it is
      injective there, and every pixel `q` is the flip of `Flip(q)`. */
  lemma FlipBijective(width: nat, height: nat)
    ensures forall p: nat, q: nat :: p < width * height && q < width * height && Flip(width, height, p) == Flip(width, height, q) ==> p == q
    ensures forall q: nat :: q < width * height ==> Flip(width, height, q) < width * height && Flip(width, height, Flip(width, height, q)) == q
  {
    forall p: nat, q: nat | p < width * height && q < width * height && Flip(width, height, p) == Flip(width, height, q)
      ensures p == q
    {
      FlipInvolution(width, height, p);
      FlipInvolution(width, height, q);
    }
    forall q: nat | q < width * height
      ensures Flip(width, height, q) < width * height && Flip(width, height, Flip(width, height, q)) == q
    {
      FlipInvolution(width, height, q);
    }
  }

  // ---------------------------------------------------------- colouring

  /** The fixed scale domain `min = 0`, `max = 132`. */
  const ScaleMin: real := 0.0
  const ScaleMax: real := 132.0

  /** `relative = (value - min) / (max - min)`, not clamped; an `undefined`
      hole and NaN both give NaN. */
  function Relative(cell: Option<Val>): (v: Val)
    ensures v.Num? <==> cell.Some? && cell.value.Num?
    ensures v.Num? ==> ScaleMin + v.r * (ScaleMax - ScaleMin) == cell.value.r
  {
    match cell
    case Some(Num(x)) => Num((x - ScaleMin) / (ScaleMax - ScaleMin))
    case _ => NaN
  }

  /** The ends of the scale domain go to the ends of the colour scale. */
  lemma RelativeEndpoints()
    ensures Relative(Some(Num(ScaleMin))) == Num(0.0)
    ensures Relative(Some(Num(ScaleMax))) == Num(1.0)
  {
  }

  /** More precipitation is strictly further along the colour scale. */
  lemma RelativeStrictlyIncreasing(x: real, y: real)
    requires x < y
    ensures Relative(Some(Num(x))).r < Relative(Some(Num(y))).r
  {
  }

  /** Nothing clamps the position: values outside [0, 132] land outside
      [0, 1], and 264 lands at 2. */
  lemma RelativeUnclamped(x: real)
    ensures x > ScaleMax ==> Relative(Some(Num(x))).r > 1.0
    ensures x < ScaleMin ==> Relative(Some(Num(x))).r < 0.0
    ensures Relative(Some(Num(2.0 * ScaleMax))) == Num(2.0)
  {
  }

  /** What the colour scale returns: `rgb()` components and `alpha()`. */
  datatype Color = Color(red: int, green: int, blue: int, alpha: real)

  /** The `rgb()` component stored in channel `c < 3`. */
  function Component(color: Color, c: nat): int
    requires c < 3
  {
    if c == 0 then color.red else if c == 1 then color.green else color.blue
  }

  /** The byte stored for channel `c`: the three colour components as they
      are, alpha as `Math.round(alpha * 255)`, each clamped by the
      `Uint8ClampedArray`. */
  function Channel(color: Color, c: nat): (b: byte)
    requires c < 4
    ensures c < 3 && 0 <= Component(color, c) < 256 ==> b as int == Component(color, c)
    ensures c < 3 && Component(color, c) < 0 ==> b == 0
    ensures c < 3 && Component(color, c) > 255 ==> b == 255
    ensures c == 3 && 0.0 <= color.alpha <= 1.0 ==>
              b as real - 0.5 <= color.alpha * 255.0 < b as real + 0.5
    ensures c == 3 && color.alpha >= 1.0 ==> b == 255
    ensures c == 3 && color.alpha <= 0.0 ==> b == 0
  {
    if c == 0 then Clamp(color.red)
    else if c == 1 then Clamp(color.green)
    else if c == 2 then Clamp(color.blue)
    else Clamp(Round(color.alpha * 255.0))
  }

  /** Byte `k` of the image in pixel-number terms. */
  function ImageByte(f: Frame, gradient: Val -> Color, k: nat): byte
    requires k < 4 * f.width * f.height
  {
    RowBelowHeight(f.width, f.height, k / 4);
    Channel(gradient(Relative(CellAt(f, Flip(f.width, f.height, k / 4)))), k % 4)
  }

  lemma ImageLayout(f: Frame, gradient: Val -> Color, img: seq<byte>, i: nat, j: nat, c: nat)
    requires |img| == 4 * f.width * f.height
    requires forall k :: 0 <= k < |img| ==> img[k] == ImageByte(f, gradient, k)
    requires i < f.width && j < f.height && c < 4
    ensures ByteIndex(f.width, i, j, c) < |img|
    ensures img[ByteIndex(f.width, i, j, c)]
         == Channel(gradient(Relative(CellAt(f, SourceIndex(f.width, f.height, i, j)))), c)
  {
    WritesInRange(f.width, f.height, i, j, c);
    FlipMatchesLoops(f.width, f.height, i, j);
    var k := ByteIndex(f.width, i, j, c);
    assert k / 4 == PixelIndex(f.width, i, j) && k % 4 == c;
  }

  /** The `ImageData` bytes the loops leave behind: for every pixel (i, j)
      and channel c, the byte at `4*(j*width+i)+c` is channel c of the colour
      of the cell in row `height - j - 1`, column `i` of the frame. */
  function Image(f: Frame, gradient: Val -> Color): (img: seq<byte>)
    ensures |img| == 4 * f.width * f.height
    ensures forall i: nat, j: nat, c: nat {:trigger ByteIndex(f.width, i, j, c)} :: i < f.width && j < f.height && c < 4 ==>
              ByteIndex(f.width, i, j, c) < |img| &&
              img[ByteIndex(f.width, i, j, c)]
                == Channel(gradient(Relative(CellAt(f, SourceIndex(f.width, f.height, i, j)))), c)
  {
    var n := 4 * f.width * f.height;
    var img := seq(n, k requires 0 <= k < n => ImageByte(f, gradient, k));
    forall i: nat, j: nat, c: nat | i < f.width && j < f.height && c < 4
      ensures ByteIndex(f.width, i, j, c) < |img|
      ensures img[ByteIndex(f.width, i, j, c)]
           == Channel(gradient(Relative(CellAt(f, SourceIndex(f.width, f.height, i, j)))), c)
    {
      ImageLayout(f, gradient, img, i, j, c);
    }
    img
  }
}
