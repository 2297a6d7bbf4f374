/** The fixed tile map of the terminal ray-caster and the lookups on it.
    Entities have continuous coordinates; a coordinate becomes a cell index
    by truncation toward zero, as Python's int() does on a float. */
module Grid {

  /** The compiled-in map: '#' is a wall, ' ' is open floor.
      Row r is the map's y coordinate, column c its x coordinate. */
  const MAP: seq<string> := [
    "##########",
    "#        #",
    "#  ##    #",
    "#     #  #",
    "#   ##### ",
    "#        #",
    "##########"
  ]

  const MAP_WIDTH: int := 10
  const MAP_HEIGHT: int := 7

  const WALL: char := '#'

  /** Truncation toward zero of a real, Python's int() on a float.
      For negative arguments this is NOT floor: Trunc(-0.5) == 0. */
  function Trunc(v: real): int {
    if v >= 0.0 then v.Floor else -((-v).Floor)
  }

  /** Trunc(v) is the integer next to v on the side of zero. */
  lemma TruncTowardZero(v: real)
    ensures v >= 0.0 ==> Trunc(v) >= 0 && Trunc(v) as real <= v < Trunc(v) as real + 1.0
    ensures v < 0.0 ==> Trunc(v) <= 0 && Trunc(v) as real - 1.0 < v <= Trunc(v) as real
  {
  }

  /** Truncation differs from floor on negative non-integers: anything
      strictly between -1 and 0 truncates to 0 but floors to -1. */
  lemma TruncIsNotFloor(v: real)
    requires -1.0 < v < 0.0
    ensures Trunc(v) == 0 && v.Floor == -1
  {
    assert (-v).Floor == 0;
  }

  predicate InBounds(c: int, r: int) {
    0 <= c < MAP_WIDTH && 0 <= r < MAP_HEIGHT
  }

  /** Every row of MAP is MAP_WIDTH characters long, so MAP[r][c] is
      defined for every in-bounds cell. */
  lemma MapShape()
    ensures |MAP| == MAP_HEIGHT
    ensures forall r :: 0 <= r < |MAP| ==> |MAP[r]| == MAP_WIDTH
  {
  }

  /** MAP[r][c] == "#", for an in-bounds cell. */
  predicate IsWall(c: int, r: int)
    requires InBounds(c, r)
  {
    MapShape();
    MAP[r][c] == WALL
  }

  /** What a lookup of a cell finds. */
  datatype Probe = Outside | Wall | Open

  /** The fail-closed lookup: a cell outside the map is reported as Outside,
      never as Open. */
  function ProbeAt(c: int, r: int): (p: Probe)
    ensures p == Outside <==> !InBounds(c, r)
    ensures p == Wall <==> InBounds(c, r) && IsWall(c, r)
    ensures p == Open <==> InBounds(c, r) && !IsWall(c, r)
  {
    if !InBounds(c, r) then Outside
    else if IsWall(c, r) then Wall
    else Open
  }

  /** What the map holds at a continuous position. */
  function ProbePoint(x: real, y: real): Probe {
    ProbeAt(Trunc(x), Trunc(y))
  }

  /** The outer ring of the map is wall everywhere except at the east end of
      row 4, where row "#   ##### " ends in a space. */
  lemma BorderHasOneGap(c: int, r: int)
    requires InBounds(c, r)
    requires c == 0 || c == MAP_WIDTH - 1 || r == 0 || r == MAP_HEIGHT - 1
    ensures IsWall(c, r) <==> (c, r) != (9, 4)
  {
    MapShape();
    if r == 0 {
      assert MAP[0] == "##########";
    } else if r == MAP_HEIGHT - 1 {
      assert MAP[6] == "##########";
    } else if c == 0 {
      assert MAP[r][0] == '#' by {
        assert r == 1 || r == 2 || r == 3 || r == 4 || r == 5;
      }
    } else {
      assert r == 1 || r == 2 || r == 3 || r == 4 || r == 5;
    }
  }

  /** Because of truncation, a point just west of the map, with x in
      (-1, 0), reads as map column 0, which is wall in every row, and not as
      Outside. */
  lemma WestOfMapReadsColumnZero(x: real, y: real)
    requires -1.0 < x < 0.0 && 0.0 <= y < MAP_HEIGHT as real
    ensures ProbePoint(x, y) == ProbeAt(0, Trunc(y)) == Wall
  {
    TruncIsNotFloor(x);
    TruncTowardZero(y);
    BorderHasOneGap(0, Trunc(y));
  }

  /** The start position of the player, (3.0, 3.0), is on open floor. */
  lemma SpawnIsOpen()
    ensures ProbePoint(3.0, 3.0) == Open
  {
    assert (3.0).Floor == 3;
    assert MAP[3] == "#     #  #";
  }
}
