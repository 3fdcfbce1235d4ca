/**
 * The rabbit of ex0/sciper1-sciper2/src/RabbitsGrassSimulationAgent.java:
 * a position on the grid and an energy level. Drawing the rabbit on the
 * display is not part of this model.
 */
module RabbitsAgent {

  /** The energy of a rabbit created without one. */
  const DEFAULT_ENERGY: int := 50

  class RabbitsGrassSimulationAgent {
    var x: int
    var y: int
    var energy: int

    /** A rabbit not yet placed on the grid (position -1, -1) with the default energy. */
    constructor ()
      ensures x == -1 && y == -1
      ensures energy == DEFAULT_ENERGY
    {
      x, y := -1, -1;
      energy := DEFAULT_ENERGY;
    }

    /** A rabbit not yet placed on the grid with the given energy. */
    constructor WithEnergy(energy: int)
      ensures x == -1 && y == -1
      ensures this.energy == energy
    {
      x, y := -1, -1;
      this.energy := energy;
    }

    method GetX() returns (r: int)
      ensures r == x
    {
      r := x;
    }

    method GetY() returns (r: int)
      ensures r == y
    {
      r := y;
    }

    /** Moves the rabbit to column `x`; its row and energy stay as they were. */
    method SetX(x: int)
      modifies this`x
      ensures this.x == x
      ensures y == old(y) && energy == old(energy)
    {
      this.x := x;
    }

    /** Moves the rabbit to row `y`; its column and energy stay as they were. */
    method SetY(y: int)
      modifies this`y
      ensures this.y == y
      ensures x == old(x) && energy == old(energy)
    {
      this.y := y;
    }
  }
}
