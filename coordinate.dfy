/**
 * A panel's rectangle: four offsets relative to the terminal's extents and
 * the four absolute screen coordinates computed from them.
 */
module Coordinates {

  /** The eight fields of a Coordinate, as a value. */
  datatype Coord = Coord(
    topLeftXrel: int, topLeftYrel: int, bottomRightXrel: int, bottomRightYrel: int,
    topLeftXabs: int, topLeftYabs: int, bottomRightXabs: int, bottomRightYabs: int)
  {
    /**
     * The coordinate after scaling against a terminal of `maxX` by `maxY`:
     * each absolute field becomes extent + offset when its offset is
     * non-zero and keeps its value when the offset is zero; offsets never change.
     */
    function Scaled(maxX: int, maxY: int): (r: Coord)
      ensures r.topLeftXrel == topLeftXrel && r.topLeftYrel == topLeftYrel
      ensures r.bottomRightXrel == bottomRightXrel && r.bottomRightYrel == bottomRightYrel
      ensures r.topLeftXabs == (if topLeftXrel != 0 then maxX + topLeftXrel else topLeftXabs)
      ensures r.topLeftYabs == (if topLeftYrel != 0 then maxY + topLeftYrel else topLeftYabs)
      ensures r.bottomRightXabs == (if bottomRightXrel != 0 then maxX + bottomRightXrel else bottomRightXabs)
      ensures r.bottomRightYabs == (if bottomRightYrel != 0 then maxY + bottomRightYrel else bottomRightYabs)
    {
      this.(topLeftXabs := Edge(topLeftXrel, topLeftXabs, maxX),
            topLeftYabs := Edge(topLeftYrel, topLeftYabs, maxY),
            bottomRightXabs := Edge(bottomRightXrel, bottomRightXabs, maxX),
            bottomRightYabs := Edge(bottomRightYrel, bottomRightYabs, maxY))
    }
  }

  /** One absolute field after scaling: set from a non-zero offset, untouched otherwise. */
  function Edge(rel: int, abs: int, extent: int): int
  {
    if rel != 0 then extent + rel else abs
  }

  /** Scaling twice against the same extents is scaling once. */
  lemma ScaleIdempotent(c: Coord, maxX: int, maxY: int)
    ensures c.Scaled(maxX, maxY).Scaled(maxX, maxY) == c.Scaled(maxX, maxY)
  {
  }

  /** Re-scaling against new extents forgets the old ones: only the offsets and the new extents matter. */
  lemma RescaleForgetsOldExtents(c: Coord, maxX: int, maxY: int, maxX': int, maxY': int)
    ensures c.Scaled(maxX, maxY).Scaled(maxX', maxY') == c.Scaled(maxX', maxY')
  {
  }

  /** X fields depend only on maxX and Y fields only on maxY. */
  lemma ScaleAxesIndependent(c: Coord, maxX: int, maxY: int, maxX': int, maxY': int)
    ensures c.Scaled(maxX, maxY).topLeftXabs == c.Scaled(maxX, maxY').topLeftXabs
    ensures c.Scaled(maxX, maxY).bottomRightXabs == c.Scaled(maxX, maxY').bottomRightXabs
    ensures c.Scaled(maxX, maxY).topLeftYabs == c.Scaled(maxX', maxY).topLeftYabs
    ensures c.Scaled(maxX, maxY).bottomRightYabs == c.Scaled(maxX', maxY).bottomRightYabs
  {
  }

  /** The record the source updates in place. */
  class Coordinate {
    var topLeftXrel: int
    var topLeftYrel: int
    var bottomRightXrel: int
    var bottomRightYrel: int
    var topLeftXabs: int
    var topLeftYabs: int
    var bottomRightXabs: int
    var bottomRightYabs: int

    function Value(): Coord
      reads this
    {
      Coord(topLeftXrel, topLeftYrel, bottomRightXrel, bottomRightYrel,
            topLeftXabs, topLeftYabs, bottomRightXabs, bottomRightYabs)
    }

    /** A coordinate holding the given fields, as the configuration decoder builds it. */
    constructor (c: Coord)
      ensures Value() == c
    {
      topLeftXrel, topLeftYrel := c.topLeftXrel, c.topLeftYrel;
      bottomRightXrel, bottomRightYrel := c.bottomRightXrel, c.bottomRightYrel;
      topLeftXabs, topLeftYabs := c.topLeftXabs, c.topLeftYabs;
      bottomRightXabs, bottomRightYabs := c.bottomRightXabs, c.bottomRightYabs;
    }

    /** Converts the relative offsets into absolute coordinates for a terminal of maxX by maxY. */
    method Scale(maxX: int, maxY: int)
      modifies this
      ensures Value() == old(Value()).Scaled(maxX, maxY)
    {
      if topLeftXrel != 0 {
        topLeftXabs := maxX + topLeftXrel;
      }
      if topLeftYrel != 0 {
        topLeftYabs := maxY + topLeftYrel;
      }
      if bottomRightXrel != 0 {
        bottomRightXabs := maxX + bottomRightXrel;
      }
      if bottomRightYrel != 0 {
        bottomRightYabs := maxY + bottomRightYrel;
      }
    }
  }
}
