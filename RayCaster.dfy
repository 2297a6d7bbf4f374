/** The ray march of cast_ray: from the player's position, sample the ray at
    distances 0, 0.05, 0.10, ... while the distance is below DEPTH, and stop
    at the first sample whose cell is a wall (that distance is the result) or
    lies outside the map (the result is DEPTH). The ray's direction, which the
    source computes with cos and sin of the column's ray angle, is a parameter. */
module RayCaster {
  import opened Grid

  /** Maximum view distance, in world units. */
  const DEPTH: real := 16.0

  /** Distance between two consecutive samples of a ray. */
  const STEP: real := 0.05

  /** Number of samples k with k * STEP < DEPTH, i.e. k in [0, 320). */
  const SAMPLES: nat := 320

  datatype Point = Point(x: real, y: real)

  /** A ray direction (cos, sin) of the ray angle. */
  datatype Dir = Dir(dx: real, dy: real)

  /** The distance of sample k. */
  function SampleDist(k: nat): (d: real)
    ensures d >= 0.0
    ensures d < DEPTH <==> k < SAMPLES
  {
    k as real * 0.05
  }

  /** The position of sample k of the ray from p in direction d. */
  function SampleX(p: Point, d: Dir, k: nat): real {
    p.x + d.dx * SampleDist(k)
  }

  function SampleY(p: Point, d: Dir, k: nat): real {
    p.y + d.dy * SampleDist(k)
  }

  /** What sample k of the ray finds in the map. */
  function SampleProbe(p: Point, d: Dir, k: nat): Probe {
    ProbePoint(SampleX(p, d, k), SampleY(p, d, k))
  }

  lemma SampleAtDistance(p: Point, d: Dir, k: nat, t: real)
    requires t == SampleDist(k)
    ensures SampleX(p, d, k) == p.x + d.dx * t && SampleY(p, d, k) == p.y + d.dy * t
  {
  }

  /** Sample 0 lies at the player's own position. */
  lemma FirstSampleIsOwnPosition(p: Point, d: Dir)
    ensures SampleX(p, d, 0) == p.x && SampleY(p, d, 0) == p.y
  {
  }

  /** The march from sample k on: the distance cast_ray returns when it
      starts sampling at sample k. */
  function MarchFrom(p: Point, d: Dir, k: nat): real
    decreases SAMPLES - k
  {
    if SampleDist(k) >= DEPTH then DEPTH
    else match SampleProbe(p, d, k)
      case Outside => DEPTH
      case Wall => SampleDist(k)
      case Open => MarchFrom(p, d, k + 1)
  }

  /** The distance cast_ray returns for the ray from p in direction d. It
      lies in [0, DEPTH], and it is 0 exactly when the player's own cell is a
      wall (the only case in which render_frame would divide by zero). */
  function Cast(p: Point, d: Dir): (r: real)
    ensures 0.0 <= r <= DEPTH
    ensures r == 0.0 <==> ProbePoint(p.x, p.y) == Wall
  {
    MarchRange(p, d, 0);
    MarchRange(p, d, 1);
    FirstSampleIsOwnPosition(p, d);
    MarchFrom(p, d, 0)
  }

  /** Sample k is a wall and every sample from k0 up to it is open floor. */
  ghost predicate FirstWallFrom(p: Point, d: Dir, k0: nat, k: nat) {
    k0 <= k < SAMPLES && SampleProbe(p, d, k) == Wall &&
    forall i :: k0 <= i < k ==> SampleProbe(p, d, i) == Open
  }

  /** The march never yields a negative distance nor one beyond DEPTH, and
      never one before the sample it starts at. */
  lemma {:induction false} MarchRange(p: Point, d: Dir, k: nat)
    ensures 0.0 <= MarchFrom(p, d, k) <= DEPTH
    ensures k < SAMPLES ==> SampleDist(k) <= MarchFrom(p, d, k)
    decreases SAMPLES - k
  {
    if k < SAMPLES && SampleProbe(p, d, k) == Open {
      MarchRange(p, d, k + 1);
    }
  }

  /** A result below DEPTH is the distance of the first wall sample: that
      sample's cell is in the map and is '#', and every earlier sample lies
      in the map on open floor. */
  lemma {:induction false} MarchHitIsFirstWall(p: Point, d: Dir, k0: nat)
    requires MarchFrom(p, d, k0) < DEPTH
    ensures exists k :: FirstWallFrom(p, d, k0, k) && MarchFrom(p, d, k0) == SampleDist(k)
    decreases SAMPLES - k0
  {
    if SampleProbe(p, d, k0) == Wall {
      assert FirstWallFrom(p, d, k0, k0);
    } else {
      MarchHitIsFirstWall(p, d, k0 + 1);
      var k :| FirstWallFrom(p, d, k0 + 1, k) && MarchFrom(p, d, k0 + 1) == SampleDist(k);
      assert FirstWallFrom(p, d, k0, k);
    }
  }

  /** Conversely, when sample k is the first wall, the march stops there. */
  lemma {:induction false} MarchStopsAtFirstWall(p: Point, d: Dir, k0: nat, k: nat)
    requires FirstWallFrom(p, d, k0, k)
    ensures MarchFrom(p, d, k0) == SampleDist(k)
    decreases k - k0
  {
    if k0 < k {
      assert SampleProbe(p, d, k0) == Open;
      MarchStopsAtFirstWall(p, d, k0 + 1, k);
    }
  }

  /** A sample that leaves the map before any wall is met ends the march with
      exactly DEPTH. */
  lemma {:induction false} MarchLeavesMap(p: Point, d: Dir, k0: nat, k: nat)
    requires k0 <= k
    requires SampleProbe(p, d, k) == Outside
    requires forall i :: k0 <= i < k ==> SampleProbe(p, d, i) == Open
    ensures MarchFrom(p, d, k0) == DEPTH
    decreases k - k0
  {
    if k0 < k {
      assert SampleProbe(p, d, k0) == Open;
      MarchLeavesMap(p, d, k0 + 1, k);
    }
  }

  /** When every remaining sample is open floor, the loop runs out and the
      result is exactly DEPTH. */
  lemma {:induction false} MarchExhausts(p: Point, d: Dir, k0: nat)
    requires forall i :: k0 <= i < SAMPLES ==> SampleProbe(p, d, i) == Open
    ensures MarchFrom(p, d, k0) == DEPTH
    decreases SAMPLES - k0
  {
    if k0 < SAMPLES {
      MarchExhausts(p, d, k0 + 1);
    }
  }

  /** The ray reports a wall before DEPTH exactly when some sample is the
      first wall along it, and then it reports that sample's distance. */
  lemma CastHitIff(p: Point, d: Dir)
    ensures Cast(p, d) < DEPTH <==> exists k :: FirstWallFrom(p, d, 0, k)
    ensures forall k :: FirstWallFrom(p, d, 0, k) ==> Cast(p, d) == SampleDist(k)
  {
    if Cast(p, d) < DEPTH {
      MarchHitIsFirstWall(p, d, 0);
    }
    forall k | FirstWallFrom(p, d, 0, k)
      ensures Cast(p, d) == SampleDist(k)
    {
      MarchStopsAtFirstWall(p, d, 0, k);
    }
  }

  /** From the spawn point (3.0, 3.0) facing angle 0 (the ray of the
      centre column), the samples cross open cells (3, 3) .. (5, 3) and the
      60th sample is the first to reach wall cell (6, 3): the ray reports 3.0. */
  lemma SpawnRayEast()
    ensures Cast(Point(3.0, 3.0), Dir(1.0, 0.0)) == 3.0
  {
    var p, d := Point(3.0, 3.0), Dir(1.0, 0.0);
    assert MAP[3] == "#     #  #";
    forall i | 0 <= i < 60
      ensures SampleProbe(p, d, i) == Open
    {
      TruncTowardZero(SampleX(p, d, i));
      TruncTowardZero(SampleY(p, d, i));
      assert 3 <= Trunc(SampleX(p, d, i)) <= 5 && Trunc(SampleY(p, d, i)) == 3;
    }
    assert SampleX(p, d, 60) == 6.0 && SampleY(p, d, 60) == 3.0;
    assert (6.0).Floor == 6 && (3.0).Floor == 3;
    assert FirstWallFrom(p, d, 0, 60);
    MarchStopsAtFirstWall(p, d, 0, 60);
  }

  /** The march of cast_ray (main.py), sample by sample. */
  method CastRay(p: Point, d: Dir) returns (dist: real)
    ensures dist == Cast(p, d)
    ensures 0.0 <= dist <= DEPTH
  {
    dist := 0.0;
    ghost var k: nat := 0;
    while dist < DEPTH
      invariant k <= SAMPLES && dist == SampleDist(k)
      invariant MarchFrom(p, d, k) == Cast(p, d)
      decreases SAMPLES - k
    {
      var testX := Trunc(p.x + d.dx * dist);
      var testY := Trunc(p.y + d.dy * dist);
      SampleAtDistance(p, d, k, dist);
      assert ProbeAt(testX, testY) == SampleProbe(p, d, k);
      if 0 <= testX < MAP_WIDTH && 0 <= testY < MAP_HEIGHT {
        if IsWall(testX, testY) {
          return;
        }
      } else {
        return DEPTH;
      }
      assert MarchFrom(p, d, k) == MarchFrom(p, d, k + 1);
      dist := dist + STEP;
      k := k + 1;
    }
    return DEPTH;
  }
}
