# Terminal ray-caster (main.py), modelled in Dafny

`main.py` draws a pseudo-3D view of a fixed 10 × 7 tile map in a terminal.
The view is built one screen column at a time. For each column a ray is
marched from the player in steps of 0.05 until it meets a wall cell, leaves
the map, or reaches the maximum depth of 16. The distance found picks a shade
and the height of a wall band. Each screen column becomes one text line of 24
characters plus a newline. A background loop turns the player by 0.1 rad or
steps them 0.2 units forward or backward. A step is committed only when the
destination cell is not a wall.

The model has four modules, one per part of the program:

- `Grid` (`Grid.dfy`): the compiled-in `MAP`, Python's `int()` truncation
  toward zero, and a fail-closed cell lookup (`Outside | Wall | Open`).
- `RayCaster` (`RayCaster.dfy`): the march of `cast_ray`.
  - `Cast` / `MarchFrom` is the specification: sample `k` lies at distance
    `k * 0.05`.
  - `CastRay` is the `while` loop, proved equal to `Cast`.
  - Lemmas show the result is in `[0, DEPTH]`, that it is the first wall
    sample, and that it is exactly `DEPTH` when a sample leaves the map or
    the samples run out.
- `Render` (`Render.dfy`): the shade buckets, `height`, `top` and `bottom`,
  and the column lines.
  - `Frame` is the specification of the whole frame, built from the
    column distances `Dists`.
  - `RenderFrame` is the column loop and `DrawColumn` the row loop inside
    it; together they are proved equal to `Frame`.
  - Lemmas give the frame's exact layout (80 lines of 24 characters, each
    ended by a newline) and the meaning of each row.
- `Movement` (`Movement.dfy`): one pass of the `update` loop.
  - The state is a `Pose`. `Tick` is the specification of one pass.
  - The globals `player_x`, `player_y`, `player_angle` and `is_shooting`
    are the fields of the class `Player`, whose methods update them in
    place.
  - `StepAsWritten` is the source's destination check, with Python's
    indexing (negative indices wrap, an index past the end raises
    `IndexError`).
  - `Step` is the same check, but a destination outside the map counts as
    blocked. The class uses `Step` (see "## Findings").

Parameters stand in for what the model cannot compute:

- `Dir` is the ray direction `(cos, sin)` of a column's ray angle.
- `Heading` is `(cos, sin)` of the player's angle.
- The sequence `dirs` holds the 80 column directions of one frame.

## Model

| member | source | states |
|---|---|---|
| `Grid.MapShape` | main.py:8-19 | the map has MAP_HEIGHT = 7 rows, each MAP_WIDTH = 10 characters long |
| `Grid.BorderHasOneGap` | main.py:8-16 | the map's outer ring is wall everywhere except cell (9, 4) |
| `Grid.SpawnIsOpen` | main.py:26-27 | the start position (3.0, 3.0) lies on open floor |
| `Grid.TruncTowardZero` | main.py:41-42 | `int()` of a coordinate is the integer next to it on the side of zero: within one below a non-negative value, within one above a negative one |
| `Grid.TruncIsNotFloor` | main.py:41-42 | truncation differs from floor on negative values: every v strictly between -1 and 0 truncates to 0 but floors to -1 |
| `Grid.WestOfMapReadsColumnZero` | main.py:41-44 | a sample just west of the map (x in (-1, 0)) is truncated into column 0 and reads as wall, not as outside the map |
| `Grid.ProbeAt` | main.py:43-44 | a cell is Outside exactly when it is off the map, Wall exactly when it is in the map and holds '#', Open otherwise |
| `RayCaster.SampleDist` | main.py:39-48 | sample k lies at a non-negative distance, and it is below DEPTH exactly for the 320 samples k < 320 |
| `RayCaster.FirstSampleIsOwnPosition` | main.py:39-42 | the first sample (dist = 0) is the player's own position |
| `RayCaster.Cast` | main.py:35-49 | the ray's distance lies in [0, DEPTH] and is 0 exactly when the player's own cell is a wall |
| `RayCaster.MarchRange` | main.py:39-49 | `MarchFrom`, the loop of main.py:39-49 started at sample k, never gives less than sample k's distance, nor more than DEPTH |
| `RayCaster.MarchHitIsFirstWall` | main.py:41-45 | a result below DEPTH is the distance of a sample whose cell is in the map and is '#', and every earlier sample is in the map on open floor |
| `RayCaster.MarchStopsAtFirstWall` | main.py:40-48 | conversely, when sample k is the first wall after only open samples, the result is k * 0.05 |
| `RayCaster.MarchLeavesMap` | main.py:43-47 | a sample outside the map, after only open samples, makes the result exactly DEPTH |
| `RayCaster.MarchExhausts` | main.py:40-49 | when every remaining sample is open floor the loop runs out and the result is exactly DEPTH |
| `RayCaster.CastHitIff` | main.py:39-49 | the ray reports a distance below DEPTH if and only if some sample is the first wall, and then it reports that sample's distance |
| `RayCaster.SpawnRayEast` | main.py:35-49 | with exact reals, from (3.0, 3.0) along (1, 0), the ray meets wall cell (6, 3) at sample 60 and reports 3.0 |
| `RayCaster.CastRay` | main.py:35-49 | the while loop returns exactly the specified march distance, which lies in [0, DEPTH] |
| `Render.Shade` | main.py:71-76 | the shade is blank exactly when dist >= DEPTH, and is never a newline or a floor dot |
| `Render.ShadeBuckets` | main.py:72-75 | the four shades cover exactly [0,4), [4,16/3), [16/3,8) and [8,16) |
| `Render.ShadeMonotone` | main.py:71-76 | a smaller distance never gives a lighter shade |
| `Render.Height` | main.py:78 | the half-height is the non-negative integer h with h <= 24/dist < h + 1 |
| `Render.HeightMonotone` | main.py:78 | the half-height never grows as the distance grows |
| `Render.HeightAtLeastOne` | main.py:78 | every distance the ray caster produces (0 < dist <= DEPTH) gives a half-height of at least 1 |
| `Render.BandSymmetric` | main.py:79-80 | top + bottom = 2 * (SCREEN_HEIGHT // 2), and row 12 - j is in the band exactly when row 12 + j is |
| `Render.BandNested` | main.py:78-80 | the band of a farther wall lies inside the band of a nearer one |
| `Render.PixelKinds` | main.py:83-85 | row y of a column is never a newline; it is '.' exactly below the band, ' ' exactly above the band or where the ray found no wall, and the shade inside the band |
| `Render.RowsAt` | main.py:82-85 | the first n rows of a column line are n characters, row y being that column's pixel y |
| `Render.ColumnLineShape` | main.py:82-86 | a line is 24 rows and then a newline; rows above top are ' ', rows below bottom are '.', rows in the band are the shade |
| `Render.FarColumn` | main.py:71-85 | a ray that met no wall draws ' ' in rows 0-13 and '.' in rows 14-23 |
| `Render.NearColumn` | main.py:72-85 | a wall nearer than one unit fills all 24 rows with the darkest shade |
| `Render.Dists` | main.py:69-70 | one distance per column, each the column ray's distance, all positive when the player does not stand in a wall |
| `Render.FrameFromAt` | main.py:69-86 | n column lines make n * 25 characters, with character x * 25 + y being row y of column x |
| `Render.Frame` | main.py:67-87 | the frame is 80 * 25 characters long |
| `Render.FrameShape` | main.py:67-87 | character x * 25 + 24 of the frame is a newline, and character x * 25 + y is row y of column x's line, which is not a newline |
| `Render.DrawColumn` | main.py:71-86 | the shade choice and the row loop build exactly the specified line for a column: 24 rows, then a newline |
| `Render.RenderFrame` | main.py:67-87 | the column loop builds exactly the specified frame |
| `Movement.LookupAsWritten` | main.py:100 | Python's `MAP[r][c]` raises IndexError exactly when r is outside [-7, 7) or c is outside [-10, 10); a negative index wraps around, and an in-map cell yields its own character |
| `Movement.StepAsWritten` | main.py:100-102 | the step crashes exactly when Python's lookup of the destination raises IndexError, is refused exactly when the lookup finds '#', and otherwise moves by exactly (dx, dy) |
| `Movement.GapStepCrashes` | main.py:100 | as written, a step east from the gap cell (9, 4) indexes column 10 and raises IndexError |
| `Movement.StepIntoGap` | main.py:97-102 | the gap cell can be entered from open cell (8, 3) by a step that crosses wall cell (9, 3); the source commits that step |
| `Movement.Step` | main.py:100-102 | a committed step moves the position by exactly (dx, dy) onto open floor, a refused step leaves it unchanged, and the angle and shooting flag never change |
| `Movement.StepAgreesWithSource` | main.py:100-102 | when the destination cell is in the map, the source does not crash and moves exactly when the checked step does |
| `Movement.StepKeepsOnOpenFloor` | main.py:100-102 | a step from open floor ends on open floor |
| `Movement.StepChecksOnlyDestination` | main.py:100 | only the destination is checked: the step along heading (0.6, 0.8) from (2.95, 2.9) to (3.07, 3.06) is committed although its midpoint lies in wall cell (3, 2) |
| `Movement.TornStepPassesThroughWall` | main.py:101-102 | between the two assignments of that step, the position (3.07, 2.9) lies in wall cell (3, 2) although both ends are open floor |
| `Movement.Tick` | main.py:93-110 | one pass ends where it started, one forward step ahead, or one backward step behind |
| `Movement.TickTurns` | main.py:93-96 | one pass changes the angle by exactly -0.1 for 'a' and +0.1 for 'd' |
| `Movement.TickWithoutStepKeepsPosition` | main.py:93-110 | without 'w' or 's' the position is unchanged |
| `Movement.TickShooting` | main.py:109-110 | the shooting flag becomes true with space and stays as it was otherwise |
| `Movement.TickForward` | main.py:97-102 | with only 'w' held, the pose moves by exactly (cos, sin) * 0.2 when the destination is open and not at all otherwise |
| `Movement.TickKeepsOnOpenFloor` | main.py:93-110 | a whole pass from open floor ends on open floor |
| `Movement.RunKeepsOnOpenFloor` | main.py:92-111 | any number of passes from open floor stay on open floor; in the model, where a pass completes before a frame reads the position, the renderer never divides by zero |
| `Movement.SpawnOnOpenFloor` | main.py:26-28 | the start pose is on open floor |
| `Movement.Player.constructor` | main.py:26-29 | the player starts at (3.0, 3.0), angle 0, not shooting |
| `Movement.Player.TurnLeft` | main.py:93-94 | 'a' lowers the angle by 0.1 and changes nothing else |
| `Movement.Player.TurnRight` | main.py:95-96 | 'd' raises the angle by 0.1 and changes nothing else |
| `Movement.Player.Walk` | main.py:100-102 | the fields move as Step says, and stay on open floor |
| `Movement.Player.TurnKeys` | main.py:93-96 | 'a' lowers the angle by 0.1, then 'd' raises it by 0.1, each only when its key is held; the position and the shooting flag do not change |
| `Movement.Player.WalkKey` | main.py:97-108 | a step when its key is pressed, no change otherwise |
| `Movement.Player.Update` | main.py:89-111 | one pass of the loop updates the fields exactly as Tick says and keeps the player on open floor |

## Left out

- Terminal output is not modelled: `clear()`, `print`, and the render loop at main.py:117-127. This includes the reset of `is_shooting` after each frame (main.py:123).
- Timing and concurrency are not modelled: `time.sleep`, `keyboard.is_pressed` polling and the background `threading.Thread`. The model takes the set of keys held during one pass as a parameter.
- `render_weapon` (main.py:51-65) is left out. It returns one of two constant strings and has no logic.
- The ray-angle formula and `math.cos` / `math.sin` (main.py:36-38, 98-99, 104-105) are floating-point trigonometry. Directions are parameters instead.
- Movement.Player.Update: the heading h is not tied to `player_angle`. The model takes it as a parameter and does not require it to be the cosine and sine of the angle after turning.
- Arithmetic is exact on unbounded reals, not IEEE doubles.
  - Sample k is exactly k * 0.05. In IEEE doubles the repeated `dist += 0.05` drifts: after 60 additions it is 2.9999999999999973, not 3. The number of samples is still 320, since 320 additions give 16.000000000000092.
  - The threshold DEPTH/3 is exactly 16/3.
  - Turning by -0.1 and then +0.1 gives back the same angle.
- RayCaster.SpawnRayEast: stated for the model's exact reals. In doubles the 60th sample probes x = 5.999999999999997, which is open cell (5, 3), so the program reports the 61st sample, about 3.05.
- Render.RenderFrame: its requires rules out the ZeroDivisionError at main.py:78, which needs the player to stand in a wall. The threaded program can reach it. `update` runs on its own thread (main.py:114) and commits a step in two assignments (main.py:101-102), while `cast_ray` reads the position at every sample (main.py:41-42). A frame drawn between the two assignments can see a point inside a wall, as `Movement.TornStepPassesThroughWall` shows. main.py:125 catches only KeyboardInterrupt.

## Findings

| source | as written | input that shows it | evidently intended | confidence | as-written member | corrected member |
|---|---|---|---|---|---|---|
| main.py:100 | the destination cell is looked up as `MAP[int(y + dy)][int(x + dx)]` with no bounds check, but map row 4 (`"#   ##### "`) leaves cell (9, 4) open on the map's edge | step into (9, 4) from (8.95, 3.9) along heading (0.6, 0.8), a step that crosses wall cell (9, 3), then walk east until x >= 9.8; the next 'w' looks up `MAP[4][10]` and raises IndexError, which ends the input thread | a destination outside the map is refused like a wall, as `cast_ray` already treats off-map samples (main.py:43-47) | medium; not executed | `Movement.StepAsWritten`, `Movement.GapStepCrashes` | `Movement.Step`, `Movement.StepKeepsOnOpenFloor` |
