/**
 * The grid of ex0/sciper1-sciper2/src/RabbitsGrassSimulationSpace.java: a
 * grass layer whose cells hold BACKGROUND or GRASS, and a rabbit layer whose
 * cells hold a rabbit or nothing. Each random double the source draws with
 * Math.random() is a parameter: a pair of reals in [0, 1) per attempt, the
 * first scaled to a column and the second to a row.
 */
module RabbitsSpace {
  import opened Options
  import opened RabbitsAgent

  /** The value of a grass cell without grass. */
  const BACKGROUND: int := 0
  /** The value of a grass cell with grass. */
  const GRASS: int := 1

  /** A random double of Math.random(): a real in [0, 1). */
  predicate InUnit(u: real)
  {
    0.0 <= u < 1.0
  }

  /** A draw in [0, 1) times a size lies in [0, size), and is 0 for size 0. */
  lemma ScaledBelow(u: real, size: nat)
    requires InUnit(u)
    ensures 0.0 <= u * size as real
    ensures size > 0 ==> u * size as real < size as real
    ensures size == 0 ==> u * size as real == 0.0
  {
    var s := size as real;
    assert s - u * s == (1.0 - u) * s;
    if size > 0 {
      assert (1.0 - u) * s > 0.0;
    }
  }

  /** The source's `(int) (Math.random() * size)`: a draw in [0, 1) scaled to a coordinate in [0, size). */
  function ScaleDraw(u: real, size: nat): (c: int)
    requires InUnit(u)
    ensures size > 0 ==> 0 <= c < size
    ensures size == 0 ==> c == 0
  {
    ScaledBelow(u, size);
    (u * size as real).Floor
  }

  /** The cell a pair of draws picks on a grid of `sizeX` columns and `sizeY` rows. */
  function DrawnCell(draw: (real, real), sizeX: nat, sizeY: nat): (int, int)
    requires InUnit(draw.0) && InUnit(draw.1)
  {
    (ScaleDraw(draw.0, sizeX), ScaleDraw(draw.1, sizeY))
  }

  predicate AllInUnit(draws: seq<(real, real)>)
  {
    forall k :: 0 <= k < |draws| ==> InUnit(draws[k].0) && InUnit(draws[k].1)
  }

  /** The cells picked by the first `n` pairs of draws. */
  function DrawnCells(draws: seq<(real, real)>, sizeX: nat, sizeY: nat, n: nat): set<(int, int)>
    requires AllInUnit(draws) && n <= |draws|
  {
    if n == 0 then {}
    else DrawnCells(draws, sizeX, sizeY, n - 1) + {DrawnCell(draws[n - 1], sizeX, sizeY)}
  }

  /** `n` pairs of draws pick at most `n` distinct cells, each inside the grid when the grid is not empty. */
  lemma {:induction false} DrawnCellsBound(draws: seq<(real, real)>, sizeX: nat, sizeY: nat, n: nat)
    requires AllInUnit(draws) && n <= |draws|
    ensures |DrawnCells(draws, sizeX, sizeY, n)| <= n
    ensures sizeX > 0 && sizeY > 0 ==>
      forall c :: c in DrawnCells(draws, sizeX, sizeY, n) ==> 0 <= c.0 < sizeX && 0 <= c.1 < sizeY
  {
    if n > 0 {
      DrawnCellsBound(draws, sizeX, sizeY, n - 1);
    }
  }

  /** What getGrassAt reads from a cell: its value, or BACKGROUND for a cell that holds nothing. */
  function GrassValue(cell: Option<int>): (g: int)
    ensures cell.None? ==> g == BACKGROUND
    ensures cell.Some? ==> g == cell.value
  {
    if cell.Some? then cell.value else BACKGROUND
  }

  /** A grass cell after spreading grass: GRASS if it was picked and read BACKGROUND, otherwise as it was. */
  function SpreadCell(cell: Option<int>, picked: bool): (r: Option<int>)
    ensures r != cell ==> picked && GrassValue(cell) == BACKGROUND && r == Some(GRASS)
    ensures cell == Some(GRASS) ==> r == cell
  {
    if picked && GrassValue(cell) == BACKGROUND then Some(GRASS) else cell
  }

  /** A subset is no larger than the set that contains it. */
  lemma {:induction false} SubsetSize<T>(a: set<T>, b: set<T>)
    requires a <= b
    ensures |a| <= |b|
    decreases a
  {
    if a != {} {
      var x :| x in a;
      SubsetSize(a - {x}, b - {x});
    }
  }

  /** A set covered by two others is no larger than the two together. */
  lemma GrowthBound<T>(after: set<T>, before: set<T>, added: set<T>)
    requires after <= before + added
    ensures |after| <= |before| + |added|
  {
    SubsetSize(after, before + added);
  }

  class RabbitsGrassSimulationSpace {
    const grassSpace: array2<Option<int>>
    const rabbitSpace: array2<RabbitsGrassSimulationAgent?>

    /** Both layers have the same size, and every grass cell holds BACKGROUND or GRASS. */
    ghost predicate Valid()
      reads this, grassSpace
    {
      grassSpace.Length0 == rabbitSpace.Length0 && grassSpace.Length1 == rabbitSpace.Length1 &&
      forall i, j :: 0 <= i < grassSpace.Length0 && 0 <= j < grassSpace.Length1 ==>
        grassSpace[i, j] == Some(BACKGROUND) || grassSpace[i, j] == Some(GRASS)
    }

    /** The cells of the grass layer that hold grass. */
    ghost function GrassCells(): set<(int, int)>
      reads this, grassSpace
    {
      set i, j | 0 <= i < grassSpace.Length0 && 0 <= j < grassSpace.Length1 && grassSpace[i, j] == Some(GRASS) :: (i, j)
    }

    /**
     * What a spread of grass over the cells `picked` does to the grass layer
     * as a whole: cells keep holding BACKGROUND or GRASS, and the number of
     * grass cells grows by at most the number of picked cells.
     */
    twostate lemma SpreadEffects(picked: set<(int, int)>)
      requires forall i, j :: 0 <= i < grassSpace.Length0 && 0 <= j < grassSpace.Length1 ==>
        grassSpace[i, j] == SpreadCell(old(grassSpace[i, j]), (i, j) in picked)
      ensures old(Valid()) ==> Valid()
      ensures |GrassCells()| <= |old(GrassCells())| + |picked|
    {
      var before := old(GrassCells());
      forall a, b | 0 <= a < grassSpace.Length0 && 0 <= b < grassSpace.Length1 && grassSpace[a, b] == Some(GRASS)
        ensures (a, b) in before + picked
      {
      }
      GrowthBound(GrassCells(), before, picked);
    }

    /** An empty grid of `xSize` columns and `ySize` rows: no grass and no rabbits. */
    constructor (xSize: nat, ySize: nat)
      ensures grassSpace.Length0 == xSize && grassSpace.Length1 == ySize
      ensures rabbitSpace.Length0 == xSize && rabbitSpace.Length1 == ySize
      ensures fresh(grassSpace) && fresh(rabbitSpace)
      ensures forall i, j :: 0 <= i < xSize && 0 <= j < ySize ==> grassSpace[i, j] == Some(BACKGROUND)
      ensures forall i, j :: 0 <= i < xSize && 0 <= j < ySize ==> rabbitSpace[i, j] == null
      ensures Valid()
    {
      var grass := new Option<int>[xSize, ySize]((i, j) => None);
      var i := 0;
      while i < xSize
        invariant 0 <= i <= xSize
        invariant forall a, b :: 0 <= a < i && 0 <= b < ySize ==> grass[a, b] == Some(BACKGROUND)
      {
        var j := 0;
        while j < ySize
          invariant 0 <= j <= ySize
          invariant forall a, b :: 0 <= a < i && 0 <= b < ySize ==> grass[a, b] == Some(BACKGROUND)
          invariant forall b :: 0 <= b < j ==> grass[i, b] == Some(BACKGROUND)
        {
          grass[i, j] := Some(BACKGROUND);
          j := j + 1;
        }
        i := i + 1;
      }
      grassSpace := grass;
      rabbitSpace := new RabbitsGrassSimulationAgent?[xSize, ySize]((i, j) => null);
    }

    /** getGrassAt: the value of a grass cell, BACKGROUND when the cell holds nothing. */
    function GetGrassAt(x: int, y: int): (g: int)
      reads this, grassSpace
      requires 0 <= x < grassSpace.Length0 && 0 <= y < grassSpace.Length1
      ensures grassSpace[x, y].None? ==> g == BACKGROUND
      ensures grassSpace[x, y].Some? ==> g == grassSpace[x, y].value
      ensures Valid() ==> g == BACKGROUND || g == GRASS
    {
      GrassValue(grassSpace[x, y])
    }

    /**
     * spreadGrass: `numGrass` attempts, each picking a cell with the next pair
     * of draws and putting grass there if the cell reads BACKGROUND. The grid
     * stays valid and gains at most `numGrass` grass cells.
     */
    method SpreadGrass(numGrass: int, draws: seq<(real, real)>)
      requires numGrass <= |draws| && AllInUnit(draws)
      requires numGrass > 0 ==> grassSpace.Length0 > 0 && grassSpace.Length1 > 0
      modifies grassSpace
      ensures var picked := DrawnCells(draws, grassSpace.Length0, grassSpace.Length1, if numGrass > 0 then numGrass else 0);
        forall i, j :: 0 <= i < grassSpace.Length0 && 0 <= j < grassSpace.Length1 ==>
          grassSpace[i, j] == SpreadCell(old(grassSpace[i, j]), (i, j) in picked)
      ensures old(Valid()) ==> Valid()
      ensures |GrassCells()| <= |old(GrassCells())| + (if numGrass > 0 then numGrass else 0)
    {
      SpreadAttempts(numGrass, draws);
      var attempts := if numGrass > 0 then numGrass else 0;
      DrawnCellsBound(draws, grassSpace.Length0, grassSpace.Length1, attempts);
      SpreadEffects(DrawnCells(draws, grassSpace.Length0, grassSpace.Length1, attempts));
    }

    /** The loop of spreadGrass: each cell ends as SpreadCell of its old value and of whether an attempt picked it. */
    method SpreadAttempts(numGrass: int, draws: seq<(real, real)>)
      requires numGrass <= |draws| && AllInUnit(draws)
      requires numGrass > 0 ==> grassSpace.Length0 > 0 && grassSpace.Length1 > 0
      modifies grassSpace
      ensures var picked := DrawnCells(draws, grassSpace.Length0, grassSpace.Length1, if numGrass > 0 then numGrass else 0);
        forall i, j :: 0 <= i < grassSpace.Length0 && 0 <= j < grassSpace.Length1 ==>
          grassSpace[i, j] == SpreadCell(old(grassSpace[i, j]), (i, j) in picked)
    {
      var sizeX, sizeY := grassSpace.Length0, grassSpace.Length1;
      ghost var picked: set<(int, int)> := {};
      var i := 0;
      while i < numGrass
        invariant 0 <= i <= if numGrass > 0 then numGrass else 0
        invariant picked == DrawnCells(draws, sizeX, sizeY, i)
        invariant forall a, b :: 0 <= a < sizeX && 0 <= b < sizeY ==>
          grassSpace[a, b] == SpreadCell(old(grassSpace[a, b]), (a, b) in picked)
      {
        var (x, y) := DrawnCell(draws[i], sizeX, sizeY);
        if GetGrassAt(x, y) == BACKGROUND {
          grassSpace[x, y] := Some(GRASS);
        }
        picked := picked + {(x, y)};
        i := i + 1;
      }
    }

    /**
     * The first of the attempts k, k + 1, ..., limit - 1 whose pair of draws
     * picks an empty cell of the rabbit layer, if there is one.
     */
    ghost function FirstFree(draws: seq<(real, real)>, k: nat, limit: nat): (r: Option<nat>)
      reads this, rabbitSpace
      requires AllInUnit(draws) && limit <= |draws|
      requires limit > 0 ==> rabbitSpace.Length0 > 0 && rabbitSpace.Length1 > 0
      ensures r.Some? ==> k <= r.value < limit && FreeAt(draws, r.value)
      ensures r.Some? ==> forall m :: k <= m < r.value ==> !FreeAt(draws, m)
      ensures r.None? ==> forall m :: k <= m < limit ==> !FreeAt(draws, m)
      decreases limit - k
    {
      if k >= limit then None
      else if FreeAt(draws, k) then Some(k)
      else FirstFree(draws, k + 1, limit)
    }

    /** The pair of draws of attempt `k` picks an empty cell of the rabbit layer. */
    ghost predicate FreeAt(draws: seq<(real, real)>, k: nat)
      reads this, rabbitSpace
      requires AllInUnit(draws) && k < |draws| && rabbitSpace.Length0 > 0 && rabbitSpace.Length1 > 0
    {
      var (x, y) := DrawnCell(draws[k], rabbitSpace.Length0, rabbitSpace.Length1);
      rabbitSpace[x, y] == null
    }

    /**
     * addRabbit: up to width * height attempts, each picking a cell with the
     * next pair of draws; the first attempt that finds an empty cell puts the
     * rabbit there and moves the rabbit to it. Failing does not mean the grid
     * is full, only that every attempt picked an occupied cell.
     */
    method AddRabbit(rabbit: RabbitsGrassSimulationAgent, draws: seq<(real, real)>) returns (placed: bool)
      requires AllInUnit(draws) && rabbitSpace.Length0 * rabbitSpace.Length1 <= |draws|
      modifies rabbitSpace, rabbit`x, rabbit`y
      ensures var first := old(FirstFree(draws, 0, rabbitSpace.Length0 * rabbitSpace.Length1));
        placed <==> first.Some?
      ensures placed ==>
        var first := old(FirstFree(draws, 0, rabbitSpace.Length0 * rabbitSpace.Length1)).value;
        var (x, y) := DrawnCell(draws[first], rabbitSpace.Length0, rabbitSpace.Length1);
        rabbit.x == x && rabbit.y == y && old(rabbitSpace[x, y]) == null && rabbitSpace[x, y] == rabbit &&
        forall i, j :: 0 <= i < rabbitSpace.Length0 && 0 <= j < rabbitSpace.Length1 && (i, j) != (x, y) ==>
          rabbitSpace[i, j] == old(rabbitSpace[i, j])
      ensures !placed ==> unchanged(rabbitSpace) && unchanged(rabbit)
      ensures old(Valid()) ==> Valid()
    {
      var sizeX, sizeY := rabbitSpace.Length0, rabbitSpace.Length1;
      var maxTries := sizeX * sizeY;
      assert maxTries > 0 ==> sizeX > 0 && sizeY > 0;
      ghost var first := FirstFree(draws, 0, maxTries);
      var tries := 0;
      while tries < maxTries
        invariant 0 <= tries <= maxTries
        invariant FirstFree(draws, tries, maxTries) == first
      {
        var (x, y) := DrawnCell(draws[tries], sizeX, sizeY);
        if rabbitSpace[x, y] == null {
          rabbitSpace[x, y] := rabbit;
          rabbit.SetX(x);
          rabbit.SetY(y);
          return true;
        }
        tries := tries + 1;
      }
      return false;
    }
  }
}
