/** The grids that flow between the data cache, the aggregations and the
    painter: `{ width, height, precipitations }` records. */
module Grids {
  import opened Wrappers
  import opened Numbers

  /** A row-major grid. Nothing ties `|cells|` to `width * height`: the
      dimensions and the data variable of a dataset are read separately. */
  datatype Grid<T> = Grid(width: nat, height: nat, cells: seq<T>)

  /** A grid of a single realization, as the data cache returns it. */
  type Field = Grid<Val>

  /** An aggregated grid. `None` is an array hole that no realization
      filled; reading it yields `undefined`. */
  type Frame = Grid<Option<Val>>

  /** `grid.precipitations[j]`: an index past the end reads `undefined`,
      which `isNaN`, `>` and `<` treat exactly like NaN. */
  function At(g: Field, j: int): (v: Val)
    ensures 0 <= j < |g.cells| ==> v == g.cells[j]
    ensures v.Num? ==> 0 <= j < |g.cells|
  {
    if 0 <= j < |g.cells| then g.cells[j] else NaN
  }

  /** `frame[j]` for an aggregated grid; `None` stands for `undefined`. */
  function CellAt(f: Frame, j: int): (c: Option<Val>)
    ensures 0 <= j < |f.cells| ==> c == f.cells[j]
    ensures c.Some? ==> 0 <= j < |f.cells|
  {
    if 0 <= j < |f.cells| then f.cells[j] else None
  }

  /** A realization grid seen as a frame: every cell is set. */
  function Lift(g: Field): (f: Frame)
    ensures f.width == g.width && f.height == g.height
    ensures |f.cells| == |g.cells|
    ensures forall j :: 0 <= j < |g.cells| ==> f.cells[j] == Some(g.cells[j])
  {
    Grid(g.width, g.height, seq(|g.cells|, j requires 0 <= j < |g.cells| => Some(g.cells[j])))
  }

  /** Lifting loses nothing: the original grid is recovered from the frame. */
  lemma LiftIsInjective(g: Field, h: Field)
    requires Lift(g) == Lift(h)
    ensures g == h
  {
    assert |g.cells| == |h.cells|;
    forall j | 0 <= j < |g.cells|
      ensures g.cells[j] == h.cells[j]
    {
      assert Lift(g).cells[j] == Some(g.cells[j]);
    }
  }
}
