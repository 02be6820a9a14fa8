/** Pac-Man: input buffering with instant reversal, the ±4 pixel turn
    window with its snap and overshoot carry, stopping at walls, tile resync
    and tunnel wrap, eating at the tile centre, and the mouth animation. */
module Player {
  import opened Shared
  import opened Maze
  import Dots

  /** Pixels per second at full speed (`baseSpeed`). */
  const BaseSpeed: real := 75.5
  /** The level-1 speed factor (`speedMultiplier`). */
  const SpeedMultiplier: real := 0.8
  /** Degrees per second the mouth opens or closes (`mouthSpeed`). */
  const MouthSpeed: real := 400.0

  /** What one update announces on the event bus. */
  datatype PacEvent = Quiet | PowerPelletEaten | DotEaten

  /** Everything `update` changes, as a value: pixel position, tile, the
      current and buffered directions, the facing angle and the mouth. */
  datatype Pac = Pac(x: real, y: real, tileX: int, tileY: int, dir: Vec, nextDir: Vec,
                     facing: real, mouth: real, mouthDir: int)
  {
    /** The tile is the tile of the pixel position. */
    predicate Synced() { tileX == TileOf(x) && tileY == TileOf(y) }

    /** Offset from the centre of the current tile, per axis. */
    function OffX(): real { x - Centre(tileX) }
    function OffY(): real { y - Centre(tileY) }

    /** Squared distance to the centre of the current tile. */
    function CentreDist2(): real { OffX() * OffX() + OffY() * OffY() }
  }

  /** `resetRotation`: the angle the sprite is drawn at for a direction; a
      zero direction keeps the current angle. */
  function Facing(dir: Vec, current: real): (a: real)
    ensures dir == Right ==> a == 0.0
    ensures dir == Left ==> a == 180.0
    ensures dir == Down ==> a == 90.0
    ensures dir == Up ==> a == 270.0
    ensures dir == Zero ==> a == current
    ensures a == current || a in {0.0, 90.0, 180.0, 270.0}
  {
    if dir.x == 1 then 0.0
    else if dir.x == -1 then 180.0
    else if dir.y == 1 then 90.0
    else if dir.y == -1 then 270.0
    else current
  }

  /** The instant-reverse test of `update`: the buffered direction undoes the
      current one on an axis the current direction moves along. */
  predicate IsReversal(dir: Vec, next: Vec)
  {
    (dir.x == -next.x && dir.x != 0) || (dir.y == -next.y && dir.y != 0)
  }

  /** Between movement directions the reversal test is exactly "the buffered
      direction is the opposite of a non-zero current direction". */
  lemma ReversalIsOpposite(dir: Vec, next: Vec)
    requires IsDirection(dir) && IsDirection(next)
    ensures IsReversal(dir, next) <==> !dir.IsZero() && next == dir.Negated()
  {
  }

  /** Steps 0 and 1 of `update`: a non-zero request replaces the buffered
      direction (a zero one keeps it), and a buffered reversal takes effect
      at once, wherever Pac-Man is, turning the sprite with it. */
  function TakeInput(p: Pac, input: Vec): (q: Pac)
    ensures q.nextDir == (if input.IsZero() then p.nextDir else input)
    ensures IsReversal(p.dir, q.nextDir) ==> q == p.(nextDir := q.nextDir, dir := q.nextDir, facing := Facing(q.nextDir, p.facing))
    ensures !IsReversal(p.dir, q.nextDir) ==> q == p.(nextDir := q.nextDir)
  {
    var next := if input.x != 0 || input.y != 0 then input else p.nextDir;
    if IsReversal(p.dir, next) then p.(nextDir := next, dir := next, facing := Facing(next, p.facing))
    else p.(nextDir := next)
  }

  /** Pixels moved in `dt` seconds. */
  function Speed(dt: real): real
  {
    BaseSpeed * SpeedMultiplier * dt
  }

  /** The turn window (within 4 pixels of the centre, squared distance at
      most 16, see HypotAtMost) and, inside it, the hit test: the step
      before this one crossed the centre along `dir` (strict comparisons),
      or Pac-Man is within 1 pixel of the centre. */
  predicate AtCentre(p: Pac, speed: real)
  {
    var dx, dy := p.OffX(), p.OffY();
    && p.CentreDist2() <= 16.0
    && (|| (p.dir.x == 1 && dx >= 0.0 && dx - speed < 0.0)
        || (p.dir.x == -1 && dx <= 0.0 && dx + speed > 0.0)
        || (p.dir.y == 1 && dy >= 0.0 && dy - speed < 0.0)
        || (p.dir.y == -1 && dy <= 0.0 && dy + speed > 0.0)
        || p.CentreDist2() < 1.0)
  }

  /** How far past the centre Pac-Man already is along `d`, carried into the
      new direction after a turn: `|dx * d.x + dy * d.y|`. */
  function Overshoot(p: Pac, d: Vec): (o: real)
    ensures o >= 0.0
  {
    var s := p.OffX() * d.x as real + p.OffY() * d.y as real;
    if s < 0.0 then -s else s
  }

  /** A turn into the buffered direction at the centre: snap to the centre,
      take the buffered direction and carry the overshoot along it. */
  function Turned(p: Pac): Pac
  {
    var d := p.nextDir;
    var o := Overshoot(p, d);
    p.(x := Centre(p.tileX) + d.x as real * o, y := Centre(p.tileY) + d.y as real * o,
       dir := d, facing := Facing(d, p.facing))
  }

  /** A step of `speed` pixels straight along the current direction. */
  function Ahead(p: Pac, speed: real): Pac
  {
    p.(x := p.x + p.dir.x as real * speed, y := p.y + p.dir.y as real * speed)
  }

  /** The movement phase of `update`, with the two maze queries it makes given
      as `nextOpen` (the tile toward the buffered direction is not solid) and
      `aheadOpen` (the tile straight ahead is not solid). Returns the new pose
      and whether Pac-Man moved. */
  function Steer(p: Pac, speed: real, nextOpen: bool, aheadOpen: bool): (r: (Pac, bool))
  {
    var cx, cy := Centre(p.tileX), Centre(p.tileY);
    if AtCentre(p, speed) then
      if p.nextDir != p.dir && nextOpen then
        (Turned(p), true)
      else if !aheadOpen then
        (p.(x := cx, y := cy), false)
      else
        (Ahead(p, speed), true)
    else
      (Ahead(p, speed), true)
  }

  /** The three outcomes of the movement phase. Pac-Man changes direction
      only at the centre and only into an open tile, landing on the centre
      plus the carried overshoot; it stops only at the centre with the tile
      ahead blocked, and then stands on the centre; otherwise it moves
      `speed` pixels straight on. The buffered direction, tile and mouth are
      never touched. */
  lemma SteerCases(p: Pac, speed: real, nextOpen: bool, aheadOpen: bool)
    ensures var (q, moving) := Steer(p, speed, nextOpen, aheadOpen);
            var turned := AtCentre(p, speed) && p.nextDir != p.dir && nextOpen;
            && (q.dir != p.dir <==> turned)
            && (turned ==> && q.dir == p.nextDir && q.facing == Facing(p.nextDir, p.facing) && moving
                           && q.x == Centre(p.tileX) + p.nextDir.x as real * Overshoot(p, p.nextDir)
                           && q.y == Centre(p.tileY) + p.nextDir.y as real * Overshoot(p, p.nextDir))
            && (!moving <==> AtCentre(p, speed) && !turned && !aheadOpen)
            && (!moving ==> q.x == Centre(p.tileX) && q.y == Centre(p.tileY) && q.dir == p.dir)
            && (moving && !turned ==> q == Ahead(p, speed))
            && q.nextDir == p.nextDir && q.tileX == p.tileX && q.tileY == p.tileY
            && q.mouth == p.mouth && q.mouthDir == p.mouthDir
  {
  }

  /** Tile resync and tunnel wrap after the move. */
  function Resync(p: Pac, width: int): (q: Pac)
    ensures q.Synced()
    ensures width > 0 ==> 0 <= q.tileX < width
    ensures q.y == p.y && q.dir == p.dir && q.nextDir == p.nextDir && q.facing == p.facing
    ensures q.mouth == p.mouth && q.mouthDir == p.mouthDir
  {
    var w := TunnelWrap(p.x, width);
    p.(x := w.0, tileX := w.1, tileY := TileOf(p.y))
  }

  /** The mouth animation: while moving the angle swings by 400 degrees per
      second between 0 and 45, turning round at either end; when Pac-Man did
      not move the mouth shows the stopped pose, 20 degrees. */
  function Animate(mouth: real, mouthDir: int, moving: bool, dt: real): (r: (real, int))
    ensures 0.0 <= r.0 <= 45.0
    ensures !moving ==> r == (20.0, mouthDir)
    ensures moving && r.0 == 45.0 ==> r.1 == -1
    ensures moving && r.0 == 0.0 ==> r.1 == 1
    ensures moving && 0.0 < r.0 < 45.0 ==> r == (mouth + MouthSpeed * mouthDir as real * dt, mouthDir)
    ensures mouthDir in {-1, 1} ==> r.1 in {-1, 1}
  {
    if moving then
      var a := mouth + MouthSpeed * mouthDir as real * dt;
      if a >= 45.0 then (45.0, -1)
      else if a <= 0.0 then (0.0, 1)
      else (a, mouthDir)
    else (20.0, mouthDir)
  }

  /** The movement part of `update`, as a value: input, turn window and
      move, tile resync and wrap; with whether Pac-Man moved. */
  function Travel(p: Pac, input: Vec, dt: real, m: TileMap): (Pac, bool)
    reads m, m.grid
    requires m.Valid()
  {
    var q := TakeInput(p, input);
    var r := Steer(q, Speed(dt),
                   !m.IsSolidForPacman(q.tileX + q.nextDir.x, q.tileY + q.nextDir.y),
                   !m.IsSolidForPacman(q.tileX + q.dir.x, q.tileY + q.dir.y));
    (Resync(r.0, m.width), r.1)
  }

  /** `update` for a living Pac-Man, as a value: the new pose. */
  function Tick(p: Pac, input: Vec, dt: real, m: TileMap): Pac
    reads m, m.grid
    requires m.Valid()
  {
    var t := Travel(p, input, dt, m);
    var mouth := Animate(t.0.mouth, t.0.mouthDir, t.1, dt);
    t.0.(mouth := mouth.0, mouthDir := mouth.1)
  }

  /** Pac-Man eats during an update when, before moving, it is within 3
      pixels of its tile centre (squared distance at most 9, see
      HypotAtMost); it eats at the tile it ends the update on. */
  predicate EatsThisTick(p: Pac)
  {
    p.CentreDist2() <= 9.0
  }

  /** After every update the tile is the tile of the position and lies in a
      column of the maze; directions stay movement directions and the mouth
      stays between closed and 45 degrees. */
  lemma TickKeepsInvariant(p: Pac, input: Vec, dt: real, m: TileMap)
    requires m.Valid()
    requires IsDirection(p.dir) && IsDirection(p.nextDir) && IsDirection(input) && p.mouthDir in {-1, 1}
    ensures var q := Tick(p, input, dt, m);
            && q.Synced() && (m.width > 0 ==> 0 <= q.tileX < m.width)
            && IsDirection(q.dir) && IsDirection(q.nextDir)
            && 0.0 <= q.mouth <= 45.0 && q.mouthDir in {-1, 1}
  {
    var q := TakeInput(p, input);
    SteerCases(q, Speed(dt), !m.IsSolidForPacman(q.tileX + q.nextDir.x, q.tileY + q.nextDir.y),
               !m.IsSolidForPacman(q.tileX + q.dir.x, q.tileY + q.dir.y));
  }

  /** A turn away from the current direction happens only toward a tile
      that is not solid for Pac-Man, or as an instant reversal. */
  lemma TurnsOnlyIntoOpen(p: Pac, input: Vec, dt: real, m: TileMap)
    requires m.Valid()
    ensures var q := TakeInput(p, input);
            var r := Tick(p, input, dt, m);
            r.dir != p.dir ==>
              && r.dir == q.nextDir
              && (IsReversal(p.dir, q.nextDir) || !m.IsSolidForPacman(p.tileX + r.dir.x, p.tileY + r.dir.y))
  {
    var q := TakeInput(p, input);
    SteerCases(q, Speed(dt), !m.IsSolidForPacman(q.tileX + q.nextDir.x, q.tileY + q.nextDir.y),
               !m.IsSolidForPacman(q.tileX + q.dir.x, q.tileY + q.dir.y));
  }

  /** Pac-Man at a centre, facing a solid tile and unable to turn, stops:
      it sits on the centre of its tile, keeps its direction and shows the
      stopped mouth (SteerCases gives the converse: it stops in no other case). */
  lemma StopsOnlyAtWalls(p: Pac, input: Vec, dt: real, m: TileMap)
    requires m.Valid() && 0 <= p.tileX < m.width
    ensures var q := TakeInput(p, input);
            var r := Tick(p, input, dt, m);
            var stopped := && AtCentre(q, Speed(dt))
                           && (q.nextDir == q.dir || m.IsSolidForPacman(q.tileX + q.nextDir.x, q.tileY + q.nextDir.y))
                           && m.IsSolidForPacman(q.tileX + q.dir.x, q.tileY + q.dir.y);
            stopped ==> r.x == Centre(p.tileX) && r.y == Centre(p.tileY) && r.dir == q.dir && r.mouth == 20.0
  {
    var q := TakeInput(p, input);
    SteerCases(q, Speed(dt), !m.IsSolidForPacman(q.tileX + q.nextDir.x, q.tileY + q.nextDir.y),
               !m.IsSolidForPacman(q.tileX + q.dir.x, q.tileY + q.dir.y));
    TileOfCentre(p.tileX);
    TileOfCentre(p.tileY);
  }

  /** The event for what `eatDot` consumed. */
  function EventOf(consumed: Option<Tile>): (e: PacEvent)
    ensures e == PowerPelletEaten <==> consumed == Some(PowerPellet)
    ensures e == DotEaten <==> consumed == Some(Dot)
  {
    if consumed == Some(PowerPellet) then PowerPelletEaten
    else if consumed == Some(Dot) then DotEaten
    else Quiet
  }

  class PacMan {
    var tileX: int
    var tileY: int
    var x: real
    var y: real
    var dir: Vec
    var nextDir: Vec
    var mouthAngle: real
    var mouthDir: int
    var facingAngle: real
    var isAlive: bool

    /** The tile is the tile of the position, both directions are movement
        directions, and the mouth is between closed and 45 degrees. */
    ghost predicate Valid()
      reads this
    {
      && tileX == TileOf(x) && tileY == TileOf(y)
      && IsDirection(dir) && IsDirection(nextDir)
      && 0.0 <= mouthAngle <= 45.0 && mouthDir in {-1, 1}
    }

    /** What the ghosts' targeting reads of Pac-Man. */
    function View(): (v: PacView)
      reads this
      ensures v.tile == Vec(tileX, tileY) && v.dir == dir
    {
      PacView(Vec(tileX, tileY), dir)
    }

    /** The moving part of Pac-Man as a value. */
    ghost function Snapshot(): Pac
      reads this
    {
      Pac(x, y, tileX, tileY, dir, nextDir, facingAngle, mouthAngle, mouthDir)
    }

    /** `new PacMan(startTileX, startTileY)`: alive on the centre of the start
        tile, heading and buffering left, mouth closed and opening. */
    constructor (startTileX: int, startTileY: int)
      ensures Valid() && isAlive
      ensures tileX == startTileX && tileY == startTileY
      ensures x == Centre(startTileX) && y == Centre(startTileY)
      ensures dir == Left && nextDir == Left && facingAngle == 180.0
      ensures mouthAngle == 0.0 && mouthDir == 1
    {
      tileX, tileY := startTileX, startTileY;
      x, y := Centre(startTileX), Centre(startTileY);
      dir, nextDir := Left, Left;
      mouthAngle, mouthDir := 0.0, 1;
      facingAngle := 180.0;
      isAlive := true;
      new;
      TileOfCentre(startTileX);
      TileOfCentre(startTileY);
    }

    /** `resetRotation`. */
    method ResetRotation()
      modifies this`facingAngle
      ensures facingAngle == Facing(dir, old(facingAngle))
    {
      if dir.x == 1 {
        facingAngle := 0.0;
      } else if dir.x == -1 {
        facingAngle := 180.0;
      } else if dir.y == 1 {
        facingAngle := 90.0;
      } else if dir.y == -1 {
        facingAngle := 270.0;
      }
    }

    /** `update(dt, input, tileMap, dotManager)`: a dead Pac-Man does nothing.
        Otherwise the pose becomes Tick's; when Pac-Man started within 3
        pixels of its tile centre it eats at its new tile, announcing a
        power pellet or a dot; nothing else is eaten or announced. */
    method Update(dt: real, input: Vec, m: TileMap, dots: Dots.DotManager) returns (ev: PacEvent)
      requires Valid() && m.Valid() && dots.Valid() && dots.FlagsOnPickups()
      modifies this, dots.activeDots, dots`dotsEaten
      ensures IsDirection(input) ==> Valid()
      ensures dots.Valid() && dots.FlagsOnPickups()
      ensures !old(isAlive) ==> unchanged(this) && unchanged(dots.activeDots) && ev == Quiet
      ensures old(isAlive) ==> Snapshot() == old(Tick(Snapshot(), input, dt, m)) && isAlive
      ensures old(isAlive) && old(EatsThisTick(Snapshot())) ==>
                var index := tileY * dots.tileMap.width + tileX;
                && (dots.activeDots[..], ev != Quiet) == Dots.Eat(old(dots.activeDots[..]), index)
                && (ev == PowerPelletEaten <==> ev != Quiet && dots.tileMap.grid[index] == PowerPellet)
      ensures !(old(isAlive) && old(EatsThisTick(Snapshot()))) ==>
                ev == Quiet && dots.activeDots[..] == old(dots.activeDots[..])
    {
      ev := Quiet;
      if !isAlive {
        return;
      }
      var near := EatsThisTick(Pac(x, y, tileX, tileY, dir, nextDir, facingAngle, mouthAngle, mouthDir));
      Advance(dt, input, m);
      if near {
        ev := EatHere(dots);
      }
    }

    /** The pose part of `update` (see Tick). Eating touches only the dot
        manager and the mouth only this object, so they commute. */
    method Advance(dt: real, input: Vec, m: TileMap)
      requires Valid() && m.Valid()
      modifies this`x, this`y, this`tileX, this`tileY, this`dir, this`nextDir, this`facingAngle, this`mouthAngle, this`mouthDir
      ensures Snapshot() == old(Tick(Snapshot(), input, dt, m))
      ensures IsDirection(input) ==> Valid()
    {
      if IsDirection(input) {
        TickKeepsInvariant(Snapshot(), input, dt, m);
      }
      var moving := Move(dt, input, m);
      AnimateMouth(moving, dt);
    }

    /** `eatDot(tileX, tileY)` and the event it leads to. */
    method EatHere(dots: Dots.DotManager) returns (ev: PacEvent)
      requires dots.Valid() && dots.FlagsOnPickups()
      modifies dots.activeDots, dots`dotsEaten
      ensures dots.Valid() && dots.FlagsOnPickups()
      ensures var index := tileY * dots.tileMap.width + tileX;
              && (dots.activeDots[..], ev != Quiet) == Dots.Eat(old(dots.activeDots[..]), index)
              && (ev == PowerPelletEaten <==> ev != Quiet && dots.tileMap.grid[index] == PowerPellet)
    {
      var consumed := dots.EatDot(tileX, tileY);
      ev := EventOf(consumed);
    }

    /** Input, the turn window and the move, the tile resync (see Travel). */
    method Move(dt: real, input: Vec, m: TileMap) returns (moving: bool)
      requires m.Valid()
      modifies this`x, this`y, this`tileX, this`tileY, this`dir, this`nextDir, this`facingAngle
      ensures (Snapshot(), moving) == old(Travel(Snapshot(), input, dt, m))
    {
      ghost var q := TakeInput(Snapshot(), input);
      ghost var t := Travel(Snapshot(), input, dt, m);
      ApplyInput(input);
      var speed := Speed(dt);
      var nextOpen := !m.IsSolidForPacman(tileX + nextDir.x, tileY + nextDir.y);
      var aheadOpen := !m.IsSolidForPacman(tileX + dir.x, tileY + dir.y);
      ghost var r := Steer(q, speed, nextOpen, aheadOpen);
      assert t == (Resync(r.0, m.width), r.1);
      moving := SteerStep(speed, nextOpen, aheadOpen);
      SyncTile(m.width);
    }

    /** Steps 0 and 1 of `update` (see TakeInput). */
    method ApplyInput(input: Vec)
      modifies this`nextDir, this`dir, this`facingAngle
      ensures Snapshot() == TakeInput(old(Snapshot()), input)
    {
      if input.x != 0 || input.y != 0 {
        nextDir := input;
      }
      if (dir.x == -nextDir.x && dir.x != 0) || (dir.y == -nextDir.y && dir.y != 0) {
        dir := nextDir;
        ResetRotation();
      }
    }

    /** The turn window and the move (see Steer). */
    method SteerStep(speed: real, nextOpen: bool, aheadOpen: bool) returns (moving: bool)
      modifies this`x, this`y, this`dir, this`facingAngle
      ensures (Snapshot(), moving) == Steer(old(Snapshot()), speed, nextOpen, aheadOpen)
    {
      var dx, dy := x - Centre(tileX), y - Centre(tileY);
      var dist2 := dx * dx + dy * dy;
      assert dist2 == Snapshot().CentreDist2();
      if dist2 <= 16.0 {
        var hit := || (dir.x == 1 && dx >= 0.0 && dx - speed < 0.0)
                   || (dir.x == -1 && dx <= 0.0 && dx + speed > 0.0)
                   || (dir.y == 1 && dy >= 0.0 && dy - speed < 0.0)
                   || (dir.y == -1 && dy <= 0.0 && dy + speed > 0.0)
                   || dist2 < 1.0;
        if hit {
          moving := TurnOrStop(speed, nextOpen, aheadOpen);
        } else {
          StepAhead(speed);
          moving := true;
        }
      } else {
        StepAhead(speed);
        moving := true;
      }
    }

    /** At the centre: turn into the buffered direction when it differs and
        is open, carrying the overshoot; otherwise stop on the centre facing
        a solid tile, or keep going. */
    method TurnOrStop(speed: real, nextOpen: bool, aheadOpen: bool) returns (moving: bool)
      requires AtCentre(Snapshot(), speed)
      modifies this`x, this`y, this`dir, this`facingAngle
      ensures (Snapshot(), moving) == Steer(old(Snapshot()), speed, nextOpen, aheadOpen)
    {
      ghost var start := Snapshot();
      var cx, cy := Centre(tileX), Centre(tileY);
      var dx, dy := x - cx, y - cy;
      var turned := false;
      if nextDir != dir && nextOpen {
        x, y := cx, cy;
        dir := nextDir;
        ResetRotation();
        var s := dx * dir.x as real + dy * dir.y as real;
        var overshoot := if s < 0.0 then -s else s;
        x := x + dir.x as real * overshoot;
        y := y + dir.y as real * overshoot;
        turned := true;
        assert Snapshot() == Turned(start);
      }
      if !turned {
        if !aheadOpen {
          x, y := cx, cy;
          moving := false;
        } else {
          StepAhead(speed);
          moving := true;
        }
      } else {
        moving := true;
      }
    }

    /** A step of `speed` pixels along the current direction (see Ahead). */
    method StepAhead(speed: real)
      modifies this`x, this`y
      ensures Snapshot() == Ahead(old(Snapshot()), speed)
    {
      x := x + dir.x as real * speed;
      y := y + dir.y as real * speed;
    }

    /** Tile resync and tunnel wrap (see Resync). */
    method SyncTile(width: int)
      modifies this`x, this`tileX, this`tileY
      ensures Snapshot() == Resync(old(Snapshot()), width)
    {
      ghost var wrapped := TunnelWrap(x, width);  // what the branches below compute
      tileX := TileOf(x);
      tileY := TileOf(y);
      if tileX < 0 {
        x := (width * TileSize) as real - 1.0;
        tileX := width - 1;
      } else if tileX >= width {
        x := 0.0;
        tileX := 0;
      }
      assert (x, tileX) == wrapped;
    }

    /** The mouth animation (see Animate). */
    method AnimateMouth(moving: bool, dt: real)
      modifies this`mouthAngle, this`mouthDir
      ensures (mouthAngle, mouthDir) == Animate(old(mouthAngle), old(mouthDir), moving, dt)
    {
      if moving {
        mouthAngle := mouthAngle + MouthSpeed * mouthDir as real * dt;
        if mouthAngle >= 45.0 {
          mouthAngle := 45.0;
          mouthDir := -1;
        } else if mouthAngle <= 0.0 {
          mouthAngle := 0.0;
          mouthDir := 1;
        }
      } else {
        mouthAngle := 20.0;
      }
    }
  }
}
