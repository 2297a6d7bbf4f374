/** The text frame of render_frame: one text line per screen column (the
    output is column-major), each line SCREEN_HEIGHT characters followed by a
    newline. In a line, rows above the wall band are blank, rows below it are
    floor dots, and the band itself is drawn in a shade chosen by distance. */
module Render {
  import opened Grid
  import opened RayCaster

  const SCREEN_WIDTH: nat := 80
  const SCREEN_HEIGHT: nat := 24

  /** SCREEN_HEIGHT // 2, the row the wall band is centred on. */
  const HORIZON: int := 12

  /** Length of one frame line, newline included. */
  const LINE: nat := 25

  const FULL: char := '\U{2588}'
  const DARK: char := '\U{2593}'
  const MEDIUM: char := '\U{2592}'
  const LIGHT: char := '\U{2591}'
  const BLANK: char := ' '
  const FLOOR: char := '.'
  const NEWLINE: char := '\n'

  /** The wall shade for a distance: the thresholds are DEPTH/4, DEPTH/3,
      DEPTH/2 and DEPTH; at DEPTH or beyond nothing is drawn. */
  function Shade(dist: real): (c: char)
    ensures c == BLANK <==> dist >= DEPTH
    ensures c != NEWLINE && c != FLOOR
  {
    if dist < DEPTH / 4.0 then FULL
    else if dist < DEPTH / 3.0 then DARK
    else if dist < DEPTH / 2.0 then MEDIUM
    else if dist < DEPTH then LIGHT
    else BLANK
  }

  /** How dark a shade is: 4 for the nearest bucket down to 0 for none. */
  function Darkness(c: char): nat {
    if c == FULL then 4
    else if c == DARK then 3
    else if c == MEDIUM then 2
    else if c == LIGHT then 1
    else 0
  }

  /** Each of the five shades covers exactly its distance bucket. */
  lemma ShadeBuckets(dist: real)
    ensures Shade(dist) == FULL <==> dist < 4.0
    ensures Shade(dist) == DARK <==> 4.0 <= dist < 16.0 / 3.0
    ensures Shade(dist) == MEDIUM <==> 16.0 / 3.0 <= dist < 8.0
    ensures Shade(dist) == LIGHT <==> 8.0 <= dist < 16.0
  {
  }

  /** A nearer wall is never drawn lighter than a farther one. */
  lemma ShadeMonotone(d1: real, d2: real)
    requires d1 <= d2
    ensures Darkness(Shade(d1)) >= Darkness(Shade(d2))
  {
  }

  /** int(SCREEN_HEIGHT / dist): the half-height of the wall band. */
  function Height(dist: real): (h: int)
    requires dist > 0.0
    ensures h >= 0
    ensures h as real <= SCREEN_HEIGHT as real / dist < h as real + 1.0
  {
    assert SCREEN_HEIGHT as real / dist > 0.0;
    TruncTowardZero(SCREEN_HEIGHT as real / dist);
    Trunc(SCREEN_HEIGHT as real / dist)
  }

  /** The band of a nearer wall is at least as tall. */
  lemma HeightMonotone(d1: real, d2: real)
    requires 0.0 < d1 <= d2
    ensures Height(d1) >= Height(d2)
  {
    var q1 := SCREEN_HEIGHT as real / d1;
    var q2 := SCREEN_HEIGHT as real / d2;
    assert q1 * d1 == q2 * d2;
    assert q2 <= q1;
  }

  /** Every column the ray caster can produce has a band of half-height at
      least 1, since its distance is at most DEPTH. */
  lemma HeightAtLeastOne(dist: real)
    requires 0.0 < dist <= DEPTH
    ensures Height(dist) >= 1
  {
    HeightMonotone(dist, DEPTH);
    assert Height(DEPTH) == 1 by {
      assert SCREEN_HEIGHT as real / DEPTH == 1.5;
    }
  }

  /** The first and last rows of the wall band. */
  function Top(dist: real): int
    requires dist > 0.0
  {
    HORIZON - Height(dist)
  }

  function Bottom(dist: real): int
    requires dist > 0.0
  {
    HORIZON + Height(dist)
  }

  predicate InBand(dist: real, y: int)
    requires dist > 0.0
  {
    Top(dist) <= y <= Bottom(dist)
  }

  /** The band is symmetric about HORIZON. */
  lemma BandSymmetric(dist: real, j: int)
    requires dist > 0.0
    ensures Top(dist) + Bottom(dist) == 2 * HORIZON
    ensures InBand(dist, HORIZON - j) <==> InBand(dist, HORIZON + j)
  {
  }

  /** The band of a farther wall lies inside the band of a nearer one. */
  lemma BandNested(d1: real, d2: real, y: int)
    requires 0.0 < d1 <= d2
    requires InBand(d2, y)
    ensures InBand(d1, y)
  {
    HeightMonotone(d1, d2);
  }

  /** Row y of the line drawn for a column at distance dist. */
  function Pixel(dist: real, y: int): char
    requires dist > 0.0
  {
    if y < Top(dist) then BLANK
    else if y > Bottom(dist) then FLOOR
    else Shade(dist)
  }

  /** A pixel is never a newline; it is a floor dot exactly below the band,
      blank exactly above the band or where the ray found no wall, and the
      shade inside the band. */
  lemma PixelKinds(dist: real, y: int)
    requires dist > 0.0
    ensures Pixel(dist, y) != NEWLINE
    ensures Pixel(dist, y) == FLOOR <==> y > Bottom(dist)
    ensures Pixel(dist, y) == BLANK <==> y < Top(dist) || (InBand(dist, y) && dist >= DEPTH)
    ensures InBand(dist, y) ==> Pixel(dist, y) == Shade(dist)
  {
  }

  /** Rows 0 .. n-1 of a column line. */
  function Rows(dist: real, n: nat): (rows: seq<char>)
    requires dist > 0.0
    ensures |rows| == n
  {
    if n == 0 then [] else Rows(dist, n - 1) + [Pixel(dist, n - 1)]
  }

  lemma {:induction false} RowsAt(dist: real, n: nat)
    requires dist > 0.0
    ensures |Rows(dist, n)| == n
    ensures forall y :: 0 <= y < n ==> Rows(dist, n)[y] == Pixel(dist, y)
  {
    if n > 0 {
      RowsAt(dist, n - 1);
    }
  }

  /** The text line for one screen column. */
  function ColumnLine(dist: real): (line: seq<char>)
    requires dist > 0.0
    ensures |line| == LINE
  {
    Rows(dist, SCREEN_HEIGHT) + [NEWLINE]
  }

  /** A column line has SCREEN_HEIGHT rows and then a newline, and no other
      newline: blank above the band, the shade in it and dots below it. */
  lemma ColumnLineShape(dist: real)
    requires dist > 0.0
    ensures |ColumnLine(dist)| == LINE && ColumnLine(dist)[SCREEN_HEIGHT] == NEWLINE
    ensures forall y :: 0 <= y < SCREEN_HEIGHT ==> ColumnLine(dist)[y] == Pixel(dist, y) != NEWLINE
    ensures forall y :: 0 <= y < SCREEN_HEIGHT && y < Top(dist) ==> ColumnLine(dist)[y] == BLANK
    ensures forall y :: 0 <= y < SCREEN_HEIGHT && y > Bottom(dist) ==> ColumnLine(dist)[y] == FLOOR
    ensures forall y :: 0 <= y < SCREEN_HEIGHT && InBand(dist, y) ==> ColumnLine(dist)[y] == Shade(dist)
  {
    RowsAt(dist, SCREEN_HEIGHT);
  }

  /** A ray that found no wall draws blank rows down to row 13 and floor
      dots below: its band has half-height 1 and the blank shade. */
  lemma FarColumn(y: int)
    requires 0 <= y < SCREEN_HEIGHT
    ensures Pixel(DEPTH, y) == if y <= HORIZON + 1 then BLANK else FLOOR
  {
    assert Height(DEPTH) == 1 by {
      assert SCREEN_HEIGHT as real / DEPTH == 1.5;
    }
  }

  /** A wall closer than one unit fills the whole column with its shade. */
  lemma NearColumn(dist: real, y: int)
    requires 0.0 < dist <= 1.0
    requires 0 <= y < SCREEN_HEIGHT
    ensures Pixel(dist, y) == FULL
  {
    HeightMonotone(dist, 1.0);
    assert Height(1.0) == SCREEN_HEIGHT;
  }

  /** Every column distance is positive, so every column has a line. */
  predicate AllPositive(ds: seq<real>) {
    forall x :: 0 <= x < |ds| ==> ds[x] > 0.0
  }

  /** The distances cast_ray reports for the rays in directions dirs. They
      are all positive when the player does not stand in a wall. */
  function Dists(p: Point, dirs: seq<Dir>): (ds: seq<real>)
    requires ProbePoint(p.x, p.y) != Wall
    ensures |ds| == |dirs| && AllPositive(ds)
    ensures forall x :: 0 <= x < |dirs| ==> ds[x] == Cast(p, dirs[x])
  {
    seq(|dirs|, x requires 0 <= x < |dirs| => Cast(p, dirs[x]))
  }

  /** The lines of the first n columns, for column distances ds. */
  function FrameFrom(ds: seq<real>, n: nat): string
    requires n <= |ds| && AllPositive(ds)
  {
    if n == 0 then [] else FrameFrom(ds, n - 1) + ColumnLine(ds[n - 1])
  }

  /** The whole frame: one line per screen column, for per-column ray
      directions dirs. */
  function Frame(p: Point, dirs: seq<Dir>): (f: string)
    requires |dirs| == SCREEN_WIDTH
    requires ProbePoint(p.x, p.y) != Wall
    ensures |f| == SCREEN_WIDTH * LINE
  {
    FrameFromAt(Dists(p, dirs), SCREEN_WIDTH);
    FrameFrom(Dists(p, dirs), SCREEN_WIDTH)
  }

  /** Indexing into m lines followed by one more line. */
  lemma AppendLineAt(prev: string, line: string, m: nat, x: nat, y: nat)
    requires |prev| == m * 25 && |line| == LINE
    requires x <= m && y < LINE
    ensures x * 25 + y < |prev + line|
    ensures (prev + line)[x * 25 + y] == if x < m then prev[x * 25 + y] else line[y]
  {
  }

  lemma {:induction false} FrameFromAt(ds: seq<real>, n: nat)
    requires n <= |ds| && AllPositive(ds)
    ensures |FrameFrom(ds, n)| == n * 25
    ensures forall x, y :: 0 <= x < n && 0 <= y < LINE ==>
      FrameFrom(ds, n)[x * 25 + y] == ColumnLine(ds[x])[y]
  {
    if n > 0 {
      FrameFromAt(ds, n - 1);
      var prev := FrameFrom(ds, n - 1);
      var line := ColumnLine(ds[n - 1]);
      assert FrameFrom(ds, n) == prev + line;
      forall x, y | 0 <= x < n && 0 <= y < LINE
        ensures FrameFrom(ds, n)[x * 25 + y] == ColumnLine(ds[x])[y]
      {
        AppendLineAt(prev, line, n - 1, x, y);
      }
    }
  }

  /** Row y of line x of the frame, from the column's line. */
  lemma FrameCharAt(ds: seq<real>, x: nat)
    requires |ds| == SCREEN_WIDTH && AllPositive(ds)
    requires x < SCREEN_WIDTH
    ensures |FrameFrom(ds, SCREEN_WIDTH)| == SCREEN_WIDTH * 25
    ensures FrameFrom(ds, SCREEN_WIDTH)[x * 25 + SCREEN_HEIGHT] == NEWLINE
    ensures forall y :: 0 <= y < SCREEN_HEIGHT ==>
      FrameFrom(ds, SCREEN_WIDTH)[x * 25 + y] == Pixel(ds[x], y) != NEWLINE
  {
    FrameFromAt(ds, SCREEN_WIDTH);
    ColumnLineShape(ds[x]);
  }

  /** The frame is SCREEN_WIDTH lines of SCREEN_HEIGHT characters, each
      ended by a newline: row y of line x is the pixel of column x. */
  lemma FrameShape(p: Point, dirs: seq<Dir>)
    requires |dirs| == SCREEN_WIDTH
    requires ProbePoint(p.x, p.y) != Wall
    ensures |Frame(p, dirs)| == SCREEN_WIDTH * 25
    ensures forall x :: 0 <= x < SCREEN_WIDTH ==> Frame(p, dirs)[x * 25 + SCREEN_HEIGHT] == NEWLINE
    ensures forall x, y :: 0 <= x < SCREEN_WIDTH && 0 <= y < SCREEN_HEIGHT ==>
      Frame(p, dirs)[x * 25 + y] == Pixel(Cast(p, dirs[x]), y) != NEWLINE
  {
    var ds := Dists(p, dirs);
    forall x | 0 <= x < SCREEN_WIDTH
      ensures Frame(p, dirs)[x * 25 + SCREEN_HEIGHT] == NEWLINE
      ensures forall y :: 0 <= y < SCREEN_HEIGHT ==> Frame(p, dirs)[x * 25 + y] == Pixel(Cast(p, dirs[x]), y) != NEWLINE
    {
      FrameCharAt(ds, x);
    }
  }

  /** The body of render_frame's column loop, from the shade on: the text
      line for a column whose ray reported dist. */
  method DrawColumn(dist: real) returns (line: string)
    requires dist > 0.0
    ensures line == ColumnLine(dist)
  {
    var shade := Shade(dist);
    var height := Height(dist);
    var top := HORIZON - height;
    var bottom := HORIZON + height;
    line := "";
    for y := 0 to SCREEN_HEIGHT
      invariant line == Rows(dist, y)
    {
      if y < top {
        line := line + [BLANK];
      } else if y > bottom {
        line := line + [FLOOR];
      } else {
        line := line + [shade];
      }
    }
    line := line + [NEWLINE];
  }

  /** render_frame (main.py): for each screen column, cast its ray and
      append the column's line to the frame. */
  method RenderFrame(p: Point, dirs: seq<Dir>) returns (frame: string)
    requires |dirs| == SCREEN_WIDTH
    requires ProbePoint(p.x, p.y) != Wall
    ensures frame == Frame(p, dirs)
  {
    ghost var ds := Dists(p, dirs);
    frame := "";
    for x := 0 to SCREEN_WIDTH
      invariant frame == FrameFrom(ds, x)
    {
      var dist := CastRay(p, dirs[x]);
      assert dist == ds[x];
      var line := DrawColumn(dist);
      frame := frame + line;
    }
  }
}
