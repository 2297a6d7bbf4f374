/** One pass of the input loop of update: turning by a fixed angle, and a
    forward or backward step that is committed only when the destination cell
    is not a wall. Only the destination is looked at, so a diagonal step can
    cut the corner between two walls. The cosine and sine of the player's
    angle, which the source computes with math.cos and math.sin, are given as
    a Heading. */
module Movement {
  import opened Grid

  /** Step length per pass, `speed` in update. */
  const SPEED: real := 0.2

  /** Turn per pass, in radians. */
  const TURN: real := 0.1

  /** The player's state: position, facing angle and the shooting flag. */
  datatype Pose = Pose(x: real, y: real, angle: real, shooting: bool)

  /** The keys held during one pass: a, d, w, s and space. */
  datatype Keys = Keys(left: bool, right: bool, forward: bool, backward: bool, fire: bool)

  /** cos and sin of the player's angle at the time of the step. */
  datatype Heading = Heading(cos: real, sin: real)

  /** A displacement (dx, dy). */
  datatype Vec = Vec(dx: real, dy: real)

  /** The displacement of key w: (cos * speed, sin * speed). */
  function Ahead(h: Heading): Vec {
    Vec(h.cos * SPEED, h.sin * SPEED)
  }

  /** The displacement of key s: (-cos * speed, -sin * speed). */
  function Behind(h: Heading): Vec {
    Vec(-h.cos * SPEED, -h.sin * SPEED)
  }

  const SPAWN: Pose := Pose(3.0, 3.0, 0.0, false)

  /** The player stands on open floor inside the map. */
  predicate OnOpenFloor(s: Pose) {
    ProbePoint(s.x, s.y) == Open
  }

  // ---------------------------------------------------------------------
  // The step as the source writes it: MAP[int(y + dy)][int(x + dx)] with
  // Python's indexing, where a negative index counts from the end and an
  // index past either end raises IndexError.

  datatype Lookup = IndexError | Found(ch: char)

  /** Python's index i into a sequence of length n, once it is in range. */
  function PyWrap(i: int, n: nat): (j: int)
    requires -(n as int) <= i < n
    ensures 0 <= j < n
    ensures i >= 0 ==> j == i
    ensures i < 0 ==> j == n as int + i
  {
    if i >= 0 then i else n as int + i
  }

  /** MAP[r][c] evaluated as Python does it. */
  function LookupAsWritten(c: int, r: int): (l: Lookup)
    ensures l == IndexError <==> !(-MAP_HEIGHT <= r < MAP_HEIGHT && -MAP_WIDTH <= c < MAP_WIDTH)
    ensures InBounds(c, r) ==> l == Found(MAP[r][c])
    ensures -MAP_HEIGHT <= r < 0 && 0 <= c < MAP_WIDTH ==> l == Found(MAP[r + MAP_HEIGHT][c])
    ensures 0 <= r < MAP_HEIGHT && -MAP_WIDTH <= c < 0 ==> l == Found(MAP[r][c + MAP_WIDTH])
  {
    MapShape();
    if -MAP_HEIGHT <= r < MAP_HEIGHT && -MAP_WIDTH <= c < MAP_WIDTH then
      Found(MAP[PyWrap(r, MAP_HEIGHT)][PyWrap(c, MAP_WIDTH)])
    else
      IndexError
  }

  datatype StepOutcome = Crashed | Refused | Moved(x: real, y: real)

  /** A step by (dx, dy) exactly as main.py:100-102 performs it. */
  function StepAsWritten(x: real, y: real, dx: real, dy: real): (o: StepOutcome)
    ensures o == Crashed <==> LookupAsWritten(Trunc(x + dx), Trunc(y + dy)) == IndexError
    ensures o == Refused <==> LookupAsWritten(Trunc(x + dx), Trunc(y + dy)) == Found(WALL)
    ensures o.Moved? ==> o == Moved(x + dx, y + dy)
  {
    match LookupAsWritten(Trunc(x + dx), Trunc(y + dy))
    case IndexError => Crashed
    case Found(ch) => if ch != WALL then Moved(x + dx, y + dy) else Refused
  }

  /** The map's east wall has a gap at cell (9, 4). Standing in it within
      one step of the map's edge and holding w while facing east, the source
      looks up MAP[int(y)][10] and raises IndexError. */
  lemma GapStepCrashes(x: real, y: real)
    requires 9.8 <= x < 10.0 && 4.0 <= y < 5.0
    ensures ProbePoint(x, y) == Open
    ensures var v := Ahead(Heading(1.0, 0.0)); StepAsWritten(x, y, v.dx, v.dy) == Crashed
  {
    TruncTowardZero(x);
    TruncTowardZero(y);
    TruncTowardZero(x + 0.2);
    assert Trunc(x) == 9 && Trunc(y) == 4 && Trunc(x + 0.2) == 10;
    assert MAP[4] == "#   ##### ";
  }

  /** The gap cell can be entered: from open cell (8, 3), a step along the
      unit heading (0.6, 0.8) crosses x = 9 inside wall cell (9, 3) and ends
      in cell (9, 4); the source commits it too. */
  lemma StepIntoGap()
    ensures ProbePoint(8.95, 3.9) == Open
    ensures Ahead(Heading(0.6, 0.8)) == Vec(0.12, 0.16)
    ensures StepAsWritten(8.95, 3.9, 0.12, 0.16) == Moved(9.07, 4.06)
    ensures ProbePoint(9.07, 4.06) == Open
  {
    assert (8.95).Floor == 8 && (3.9).Floor == 3 && (9.07).Floor == 9 && (4.06).Floor == 4;
    assert MAP[3] == "#     #  #" && MAP[4] == "#   ##### ";
  }

  // ---------------------------------------------------------------------
  // The step with the destination checked against the map's extent first
  // (a cell outside the map counts as blocked), used by the rest of the
  // model.

  /** A step by v: committed when the destination cell is open floor
      inside the map, otherwise the pose is left as it was. */
  function Step(s: Pose, v: Vec): (t: Pose)
    ensures t.angle == s.angle && t.shooting == s.shooting
    ensures ProbePoint(s.x + v.dx, s.y + v.dy) == Open ==> t.x == s.x + v.dx && t.y == s.y + v.dy
    ensures ProbePoint(s.x + v.dx, s.y + v.dy) != Open ==> t.x == s.x && t.y == s.y
  {
    if ProbePoint(s.x + v.dx, s.y + v.dy) == Open then s.(x := s.x + v.dx, y := s.y + v.dy) else s
  }

  /** Wherever the destination lies inside the map, the source does not
      crash and the checked step does exactly what the source does. */
  lemma StepAgreesWithSource(s: Pose, v: Vec)
    requires InBounds(Trunc(s.x + v.dx), Trunc(s.y + v.dy))
    ensures StepAsWritten(s.x, s.y, v.dx, v.dy) ==
      if ProbePoint(s.x + v.dx, s.y + v.dy) == Open then Moved(s.x + v.dx, s.y + v.dy) else Refused
    ensures Step(s, v) ==
      match StepAsWritten(s.x, s.y, v.dx, v.dy)
      case Moved(x', y') => s.(x := x', y := y')
      case _ => s
  {
    var c, r := Trunc(s.x + v.dx), Trunc(s.y + v.dy);
    assert LookupAsWritten(c, r) == Found(MAP[r][c]);
    assert ProbePoint(s.x + v.dx, s.y + v.dy) == ProbeAt(c, r);
  }

  /** A step never leaves the player on a wall or outside the map. */
  lemma StepKeepsOnOpenFloor(s: Pose, v: Vec)
    requires OnOpenFloor(s)
    ensures OnOpenFloor(Step(s, v))
  {
  }

  /** Only the destination cell is checked: the forward step along the
      unit heading (0.6, 0.8) from (2.95, 2.9) to (3.07, 3.06) is committed
      although its midpoint (3.01, 2.98) lies inside wall cell (3, 2). */
  lemma StepChecksOnlyDestination()
    ensures Ahead(Heading(0.6, 0.8)) == Vec(0.12, 0.16)
    ensures ProbePoint(3.01, 2.98) == Wall
    ensures Step(Pose(2.95, 2.9, 0.0, false), Vec(0.12, 0.16)) == Pose(3.07, 3.06, 0.0, false)
  {
    assert (3.07).Floor == 3 && (3.06).Floor == 3 && (3.01).Floor == 3 && (2.98).Floor == 2;
    assert MAP[2] == "#  ##    #" && MAP[3] == "#     #  #";
  }

  /** main.py:101-102 commits a step in two assignments, x first. The same
      step from (2.95, 2.9) passes, between them, through (3.07, 2.9), which
      lies inside wall cell (3, 2) although both ends are open floor. */
  lemma TornStepPassesThroughWall()
    ensures OnOpenFloor(Pose(2.95, 2.9, 0.0, false))
    ensures OnOpenFloor(Step(Pose(2.95, 2.9, 0.0, false), Vec(0.12, 0.16)))
    ensures ProbePoint(2.95 + 0.12, 2.9) == Wall
  {
    assert (2.95).Floor == 2 && (2.9).Floor == 2 && (3.07).Floor == 3 && (3.06).Floor == 3;
    assert MAP[2] == "#  ##    #" && MAP[3] == "#     #  #";
  }

  // ---------------------------------------------------------------------
  // One pass of update's loop.

  /** Keys a and d, in that order. */
  function Turned(s: Pose, k: Keys): Pose {
    var s1 := if k.left then s.(angle := s.angle - TURN) else s;
    if k.right then s1.(angle := s1.angle + TURN) else s1
  }

  /** A step by v if its key is pressed. */
  function StepIf(s: Pose, pressed: bool, v: Vec): Pose {
    if pressed then Step(s, v) else s
  }

  /** Keys w and s, in that order, both along the heading h. */
  function Walked(s: Pose, k: Keys, h: Heading): Pose {
    StepIf(StepIf(s, k.forward, Ahead(h)), k.backward, Behind(h))
  }

  /** The pose after one pass with keys held: a, then d, then w, then s,
      then space, in the order of main.py:93-110. Both steps use the heading
      h of the angle reached after turning. */
  function Tick(s: Pose, k: Keys, h: Heading): (t: Pose)
    ensures var a, b := Ahead(h), Behind(h);
      (t.x == s.x && t.y == s.y) ||
      (t.x == s.x + a.dx && t.y == s.y + a.dy) ||
      (t.x == s.x + b.dx && t.y == s.y + b.dy)
  {
    var t := Walked(Turned(s, k), k, h);
    if k.fire then t.(shooting := true) else t
  }

  /** The angle changes by exactly -0.1 for a and +0.1 for d, whatever else
      is held. */
  lemma TickTurns(s: Pose, k: Keys, h: Heading)
    ensures Tick(s, k, h).angle ==
      s.angle - (if k.left then TURN else 0.0) + (if k.right then TURN else 0.0)
  {
  }

  /** Without w or s the position stays where it is. */
  lemma TickWithoutStepKeepsPosition(s: Pose, k: Keys, h: Heading)
    requires !k.forward && !k.backward
    ensures Tick(s, k, h).x == s.x && Tick(s, k, h).y == s.y
  {
  }

  /** The shooting flag is raised by space and otherwise left as it was. */
  lemma TickShooting(s: Pose, k: Keys, h: Heading)
    ensures Tick(s, k, h).shooting == (k.fire || s.shooting)
  {
  }

  /** Holding only w moves the player by exactly SPEED along the heading
      when the destination is open floor, and not at all otherwise. */
  lemma TickForward(s: Pose, h: Heading)
    ensures var t, v := Tick(s, Keys(false, false, true, false, false), h), Ahead(h);
      if ProbePoint(s.x + v.dx, s.y + v.dy) == Open
      then t == s.(x := s.x + v.dx, y := s.y + v.dy)
      else t == s
  {
  }

  /** A pass never puts the player on a wall or outside the map, so the
      renderer's precondition holds after every pass. */
  lemma TickKeepsOnOpenFloor(s: Pose, k: Keys, h: Heading)
    requires OnOpenFloor(s)
    ensures OnOpenFloor(Tick(s, k, h))
  {
    var t := Turned(s, k);
    assert t.x == s.x && t.y == s.y;
    var u := StepIf(t, k.forward, Ahead(h));
    StepKeepsOnOpenFloor(t, Ahead(h));
    StepKeepsOnOpenFloor(u, Behind(h));
    assert OnOpenFloor(Walked(t, k, h));
  }

  /** The pose after a sequence of passes, each with its keys and heading. */
  function Run(s: Pose, inputs: seq<(Keys, Heading)>): Pose
    decreases |inputs|
  {
    if inputs == [] then s else Run(Tick(s, inputs[0].0, inputs[0].1), inputs[1..])
  }

  /** Any sequence of passes from open floor keeps the player on open floor. */
  lemma {:induction false} RunKeepsOnOpenFloor(s: Pose, inputs: seq<(Keys, Heading)>)
    requires OnOpenFloor(s)
    ensures OnOpenFloor(Run(s, inputs))
    decreases |inputs|
  {
    if inputs != [] {
      TickKeepsOnOpenFloor(s, inputs[0].0, inputs[0].1);
      RunKeepsOnOpenFloor(Tick(s, inputs[0].0, inputs[0].1), inputs[1..]);
    }
  }

  lemma SpawnOnOpenFloor()
    ensures OnOpenFloor(SPAWN)
  {
    SpawnIsOpen();
  }

  /** The player's state, the globals player_x, player_y, player_angle and
      is_shooting of main.py, updated in place. */
  class Player {
    var x: real
    var y: real
    var angle: real
    var shooting: bool

    function Current(): Pose
      reads this
    {
      Pose(x, y, angle, shooting)
    }

    constructor ()
      ensures Current() == SPAWN && OnOpenFloor(Current())
    {
      x, y, angle, shooting := 3.0, 3.0, 0.0, false;
      SpawnOnOpenFloor();
    }

    /** Key a. */
    method TurnLeft()
      modifies this
      ensures Current() == old(Current()).(angle := old(angle) - TURN)
    {
      angle := angle - TURN;
    }

    /** Key d. */
    method TurnRight()
      modifies this
      ensures Current() == old(Current()).(angle := old(angle) + TURN)
    {
      angle := angle + TURN;
    }

    /** A step by v, committed only onto open floor. */
    method Walk(v: Vec)
      modifies this
      ensures Current() == Step(old(Current()), v)
      ensures old(OnOpenFloor(Current())) ==> OnOpenFloor(Current())
    {
      ghost var s := Current();
      if ProbePoint(x + v.dx, y + v.dy) == Open {
        x := x + v.dx;
        y := y + v.dy;
      }
      assert Current() == Step(s, v);
      if OnOpenFloor(s) {
        StepKeepsOnOpenFloor(s, v);
      }
    }

    /** Keys a and d of one pass. */
    method TurnKeys(k: Keys)
      modifies this
      ensures Current() == Turned(old(Current()), k)
    {
      if k.left {
        TurnLeft();
      }
      if k.right {
        TurnRight();
      }
    }

    /** Key w or s of one pass: a step by v when pressed. */
    method WalkKey(pressed: bool, v: Vec)
      modifies this
      ensures Current() == StepIf(old(Current()), pressed, v)
    {
      if pressed {
        Walk(v);
      }
    }

    /** One pass of update's loop with keys held and heading h. */
    method Update(k: Keys, h: Heading)
      modifies this
      ensures Current() == Tick(old(Current()), k, h)
      ensures old(OnOpenFloor(Current())) ==> OnOpenFloor(Current())
    {
      ghost var s := Current();
      TurnKeys(k);
      ghost var t := Current();
      WalkKey(k.forward, Ahead(h));
      WalkKey(k.backward, Behind(h));
      if k.fire {
        shooting := true;
      }
      if OnOpenFloor(s) {
        TickKeepsOnOpenFloor(s, k, h);
      }
    }
  }
}
