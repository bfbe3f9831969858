/** `renderMean`, `renderMax` and `renderMin`: collapsing the realization
    grids of one time step into one frame, cell by cell. Each of them reads
    `width` and `height` from the first realization only and walks cells
    `0 .. width*height - 1` of every realization, whatever its own size. */
module Aggregation {
  import opened Wrappers
  import opened Numbers
  import opened Grids

  /** The values of cell `j` across the realizations, in realization order. */
  function Column(data: seq<Field>, j: int): (col: seq<Val>)
    ensures |col| == |data|
    ensures forall k :: 0 <= k < |data| ==> col[k] == At(data[k], j)
  {
    seq(|data|, k requires 0 <= k < |data| => At(data[k], j))
  }

  lemma ColumnExtend(data: seq<Field>, j: int, k: nat)
    requires k < |data|
    ensures Column(data[..k + 1], j) == Column(data[..k], j) + [At(data[k], j)]
  {
    assert Column(data[..k + 1], j)[k] == At(data[k], j);
  }

  // ---------------------------------------------------------------- mean

  /** The numbers of a column, NaN dropped, in order. */
  function Finite(col: seq<Val>): seq<real> {
    if |col| == 0 then []
    else Finite(col[..|col| - 1]) + (if col[|col| - 1].Num? then [col[|col| - 1].r] else [])
  }

  function Sum(xs: seq<real>): real
  {
    if |xs| == 0 then 0.0 else Sum(xs[..|xs| - 1]) + xs[|xs| - 1]
  }

  lemma SumAppend(xs: seq<real>, ys: seq<real>)
    ensures Sum(xs + ys) == Sum(xs) + Sum(ys)
    decreases |ys|
  {
    if |ys| > 0 {
      assert (xs + ys)[..|xs + ys| - 1] == xs + ys[..|ys| - 1];
      SumAppend(xs, ys[..|ys| - 1]);
    } else {
      assert xs + ys == xs;
    }
  }

  /** The accumulator of `renderMean` for one cell: it starts at 0 and each
      realization adds its value unless `isNaN` holds of it. */
  function SkipNaNSum(col: seq<Val>): (s: real)
    ensures s == Sum(Finite(col))
  {
    if |col| == 0 then 0.0
    else
      var last := col[|col| - 1];
      var before := SkipNaNSum(col[..|col| - 1]);
      if last.Num? then
        SumAppend(Finite(col[..|col| - 1]), [last.r]);
        before + last.r
      else
        assert Finite(col) == Finite(col[..|col| - 1]);
        before
  }

  /** `renderMean`: `None` when there is no realization (destructuring
      `data[0]` throws); otherwise every cell of the `width*height` frame is
      the sum of the column's numbers divided by the number of
      realizations, NaN ones included. */
  function MeanOf(data: seq<Field>): (r: Option<Frame>)
    ensures r.None? <==> |data| == 0
    ensures r.Some? ==> r.value.width == data[0].width && r.value.height == data[0].height
    ensures r.Some? ==> |r.value.cells| == data[0].width * data[0].height
    ensures r.Some? ==> forall j :: 0 <= j < |r.value.cells| ==>
              r.value.cells[j] == Some(Num(Sum(Finite(Column(data, j))) / (|data| as real)))
  {
    if |data| == 0 then None
    else
      var n := data[0].width * data[0].height;
      Some(Grid(data[0].width, data[0].height,
        seq(n, j requires 0 <= j < n => Some(Num(SkipNaNSum(Column(data, j)) / (|data| as real))))))
  }

  /** The loops of `renderMean`: for each realization, add every non-NaN
      cell into an accumulator filled with 0; then divide each cell by the
      realization count. */
  method RenderMean(data: seq<Field>) returns (r: Option<Frame>)
    ensures r == MeanOf(data)
  {
    if |data| == 0 {
      return None;
    }
    var width, height := data[0].width, data[0].height;
    var sums := SumCells(data, width * height);
    var means := DivideCells(sums, |data|);
    MeanFromSums(data, sums, means);
    r := Some(Grid(width, height, Wrap(means)));
  }

  /** The number array of `renderMean` seen as frame cells: all set. */
  function Wrap(xs: seq<real>): (cells: seq<Option<Val>>)
    ensures |cells| == |xs|
    ensures forall i :: 0 <= i < |xs| ==> cells[i] == Some(Num(xs[i]))
  {
    seq(|xs|, i requires 0 <= i < |xs| => Some(Num(xs[i])))
  }

  /** The first loop nest of `renderMean`: an accumulator of `n` zeros to
      which every realization adds its non-NaN cells. */
  method SumCells(data: seq<Field>, n: nat) returns (acc: seq<real>)
    ensures |acc| == n
    ensures forall j :: 0 <= j < n ==> acc[j] == SkipNaNSum(Column(data, j))
  {
    acc := seq(n, _ => 0.0);
    assert forall j :: 0 <= j < n ==> Column(data[..0], j) == [];
    var k := 0;
    while k < |data|
      invariant 0 <= k <= |data|
      invariant |acc| == n
      invariant forall j :: 0 <= j < n ==> acc[j] == SkipNaNSum(Column(data[..k], j))
    {
      acc := AddRealization(data, k, acc);
      k := k + 1;
    }
    assert data[..k] == data;
  }

  lemma MeanFromSums(data: seq<Field>, sums: seq<real>, means: seq<real>)
    requires |data| > 0
    requires |sums| == |means| == data[0].width * data[0].height
    requires forall j :: 0 <= j < |sums| ==> sums[j] == SkipNaNSum(Column(data, j))
    requires forall j :: 0 <= j < |sums| ==> means[j] == sums[j] / (|data| as real)
    ensures MeanOf(data) == Some(Grid(data[0].width, data[0].height, Wrap(means)))
  {
    assert Wrap(means) == MeanOf(data).value.cells;
  }

  /** One pass of the inner loop of `renderMean`: realization `k` is added
      to every cell of the accumulator where it is not NaN. */
  method AddRealization(data: seq<Field>, k: nat, acc: seq<real>) returns (acc': seq<real>)
    requires k < |data|
    requires forall j :: 0 <= j < |acc| ==> acc[j] == SkipNaNSum(Column(data[..k], j))
    ensures |acc'| == |acc|
    ensures forall j :: 0 <= j < |acc| ==> acc'[j] == SkipNaNSum(Column(data[..k + 1], j))
  {
    acc' := acc;
    var j := 0;
    while j < |acc|
      invariant 0 <= j <= |acc|
      invariant |acc'| == |acc|
      invariant forall i :: 0 <= i < j ==> acc'[i] == SkipNaNSum(Column(data[..k + 1], i))
      invariant forall i :: j <= i < |acc| ==> acc'[i] == acc[i]
    {
      ColumnExtend(data, j, k);
      assert (Column(data[..k], j) + [At(data[k], j)])[..k] == Column(data[..k], j);
      var v := At(data[k], j);
      if v.Num? {
        acc' := acc'[j := acc'[j] + v.r];
      }
      j := j + 1;
    }
  }

  /** The final loop of `renderMean`: every cell divided by `count`. */
  method DivideCells(acc: seq<real>, count: nat) returns (out: seq<real>)
    requires count > 0
    ensures |out| == |acc|
    ensures forall j :: 0 <= j < |acc| ==> out[j] == acc[j] / (count as real)
  {
    out := acc;
    var j := 0;
    while j < |acc|
      invariant 0 <= j <= |acc|
      invariant |out| == |acc|
      invariant forall i :: 0 <= i < j ==> out[i] == acc[i] / (count as real)
      invariant forall i :: j <= i < |acc| ==> out[i] == acc[i]
    {
      out := out[j := out[j] / (count as real)];
      j := j + 1;
    }
  }

  /** A cell where every realization is NaN (or missing) comes out as 0:
      nothing was ever added to the accumulator. */
  lemma {:induction false} AllNaNColumnSumsToZero(col: seq<Val>)
    requires forall k :: 0 <= k < |col| ==> col[k] == NaN
    ensures Finite(col) == []
    ensures Sum(Finite(col)) == 0.0
  {
    if |col| > 0 {
      AllNaNColumnSumsToZero(col[..|col| - 1]);
    }
  }

  lemma MeanOfAllNaNCellIsZero(data: seq<Field>, j: int)
    requires |data| > 0
    requires 0 <= j < data[0].width * data[0].height
    requires forall k :: 0 <= k < |data| ==> At(data[k], j) == NaN
    ensures MeanOf(data).value.cells[j] == Some(Num(0.0))
  {
    AllNaNColumnSumsToZero(Column(data, j));
  }

  /** The mean divides by the realization count, not by the number of
      non-NaN values: a cell that is 2, NaN, 4 in three realizations
      averages to 2, not to 3. */
  lemma MeanCountsNaNRealizations(data: seq<Field>, j: int)
    requires |data| == 3
    requires 0 <= j < data[0].width * data[0].height
    requires At(data[0], j) == Num(2.0) && At(data[1], j) == NaN && At(data[2], j) == Num(4.0)
    ensures MeanOf(data).value.cells[j] == Some(Num(2.0))
  {
    assert Column(data, j) == [Num(2.0), NaN, Num(4.0)];
    TwoNaNFourSumsToSix();
  }

  lemma TwoNaNFourSumsToSix()
    ensures Sum(Finite([Num(2.0), NaN, Num(4.0)])) == 6.0
  {
    var col := [Num(2.0), NaN, Num(4.0)];
    assert col[..2] == [Num(2.0), NaN];
    assert col[..2][..1] == [Num(2.0)];
    assert [Num(2.0)][..0] == [];
    assert Finite([Num(2.0)]) == [2.0];
    assert Finite(col[..2]) == [2.0];
    assert Finite(col) == [2.0, 4.0];
    assert [2.0, 4.0][..1] == [2.0];
    assert [2.0][..0] == [];
  }

  // ---------------------------------------------------------- max and min

  datatype Extremum = Max | Min

  /** Whether a value overwrites the cell. The running extremum is a
      `const` that the loop never updates, so each value is compared with
      the seed: `Number.MIN_VALUE` for the maximum, `Number.MAX_VALUE` for
      the minimum. NaN never passes. */
  predicate Beats(e: Extremum, v: Val)
    ensures Beats(e, v) ==> v.Num?
    ensures e == Max && Beats(e, v) ==> v.r > 0.0
    ensures e == Min && v.Num? && v.r <= 1.0 ==> Beats(e, v)
  {
    match e
    case Max => Greater(v, MinValue)
    case Min => Less(v, MaxValue)
  }

  /** `k` is the last position of `col` whose value beats the seed. */
  predicate IsLastBeating(e: Extremum, col: seq<Val>, k: int) {
    && 0 <= k < |col|
    && Beats(e, col[k])
    && forall k' :: k < k' < |col| ==> !Beats(e, col[k'])
  }

  /** The value a cell of `renderMax`/`renderMin` ends up holding: the last
      realization's value that beats the seed, or a hole if none does. */
  function LastBeating(e: Extremum, col: seq<Val>): (r: Option<Val>)
    ensures r.None? <==> forall k :: 0 <= k < |col| ==> !Beats(e, col[k])
    ensures r.Some? ==> Beats(e, r.value) && r.value in col
    ensures forall k :: IsLastBeating(e, col, k) ==> r == Some(col[k])
  {
    if |col| == 0 then None
    else if Beats(e, col[|col| - 1]) then Some(col[|col| - 1])
    else
      var r := LastBeating(e, col[..|col| - 1]);
      assert forall k :: IsLastBeating(e, col, k) ==> IsLastBeating(e, col[..|col| - 1], k);
      r
  }

  /** `renderMax` (`e == Max`) and `renderMin` (`e == Min`). */
  function ExtremumOf(e: Extremum, data: seq<Field>): (r: Option<Frame>)
    ensures r.None? <==> |data| == 0
    ensures r.Some? ==> r.value.width == data[0].width && r.value.height == data[0].height
    ensures r.Some? ==> |r.value.cells| == data[0].width * data[0].height
    ensures r.Some? ==> forall j :: 0 <= j < |r.value.cells| ==>
              (r.value.cells[j].None? <==> forall k :: 0 <= k < |data| ==> !Beats(e, At(data[k], j)))
    ensures r.Some? ==> forall j, k :: 0 <= j < |r.value.cells| && IsLastBeating(e, Column(data, j), k) ==>
              r.value.cells[j] == Some(At(data[k], j))
  {
    if |data| == 0 then None
    else
      var n := data[0].width * data[0].height;
      var r := Some(Grid(data[0].width, data[0].height,
        seq(n, j requires 0 <= j < n => LastBeating(e, Column(data, j)))));
      assert forall j :: 0 <= j < n ==> r.value.cells[j] == LastBeating(e, Column(data, j));
      r
  }

  /** The loops of `renderMax`/`renderMin`: for each cell, scan the
      realizations and overwrite the cell whenever the value beats the
      seed. The array starts as `width*height` holes. */
  method RenderExtremum(e: Extremum, data: seq<Field>) returns (r: Option<Frame>)
    ensures r == ExtremumOf(e, data)
  {
    if |data| == 0 {
      return None;
    }
    var width, height := data[0].width, data[0].height;
    var n := width * height;
    var cells: seq<Option<Val>> := seq(n, _ => None);
    var j := 0;
    while j < n
      invariant 0 <= j <= n
      invariant |cells| == n
      invariant forall i :: 0 <= i < j ==> cells[i] == LastBeating(e, Column(data, i))
    {
      var c := ScanCell(e, data, j);
      cells := cells[j := c];
      j := j + 1;
    }
    r := Some(Grid(width, height, cells));
    assert cells == ExtremumOf(e, data).value.cells;
  }

  /** The inner loop of `renderMax`/`renderMin` for cell `j`: starting from
      a hole, every realization whose value beats the seed overwrites it. */
  method ScanCell(e: Extremum, data: seq<Field>, j: int) returns (c: Option<Val>)
    ensures c == LastBeating(e, Column(data, j))
  {
    c := None;
    var k := 0;
    while k < |data|
      invariant 0 <= k <= |data|
      invariant c == LastBeating(e, Column(data[..k], j))
    {
      ColumnExtend(data, j, k);
      assert (Column(data[..k], j) + [At(data[k], j)])[..k] == Column(data[..k], j);
      var v := At(data[k], j);
      if Beats(e, v) {
        c := Some(v);
      }
      k := k + 1;
    }
    assert data[..k] == data;
  }

  /** NaN never lands in a max or min frame. */
  lemma ExtremumNeverSelectsNaN(e: Extremum, data: seq<Field>, j: int)
    requires |data| > 0
    requires 0 <= j < data[0].width * data[0].height
    ensures ExtremumOf(e, data).value.cells[j] != Some(NaN)
  {
    var c := ExtremumOf(e, data).value.cells[j];
    assert c == LastBeating(e, Column(data, j));
  }

  /** The quirk of the never-updated `const max`: over realizations 5 then
      1 the cell holds 1, the last value above `Number.MIN_VALUE`, not the
      maximum 5. */
  lemma MaxKeepsLastNotLargest()
    ensures ExtremumOf(Max, [Grid(1, 1, [Num(5.0)]), Grid(1, 1, [Num(1.0)])]).value.cells[0]
         == Some(Num(1.0))
  {
    var data := [Grid(1, 1, [Num(5.0)]), Grid(1, 1, [Num(1.0)])];
    assert IsLastBeating(Max, Column(data, 0), 1);
  }

  /** A realization that is 0 everywhere leaves every cell of the max frame
      unset: 0 is not greater than `Number.MIN_VALUE`. */
  lemma MaxOfZeroFieldIsUnset(g: Field, j: int)
    requires forall i :: 0 <= i < |g.cells| ==> g.cells[i] == Num(0.0)
    requires 0 <= j < g.width * g.height
    ensures ExtremumOf(Max, [g]).value.cells[j] == None
  {
    assert Column([g], j)[0] == At(g, j);
  }

  /** A column of realizations 1 then 5 gives the min frame 5, the last
      value below `Number.MAX_VALUE`, not the minimum 1. */
  lemma MinKeepsLastNotSmallest()
    ensures ExtremumOf(Min, [Grid(1, 1, [Num(1.0)]), Grid(1, 1, [Num(5.0)])]).value.cells[0]
         == Some(Num(5.0))
  {
    var data := [Grid(1, 1, [Num(1.0)]), Grid(1, 1, [Num(5.0)])];
    assert IsLastBeating(Min, Column(data, 0), 1);
  }
}
