/** The ghost engine (src/entities/Ghost.js): the direction choice at tile
    centres, the target and speed rules of each behaviour state, the
    checkpoint transitions at the ghost house, and the tile bookkeeping with
    tunnel wrap. Blinky, Pinky, Inky and Clyde differ only in their start
    state, start direction, scatter corner and chase target. */
module Ghosts {
  import opened Shared
  import opened Maze
  import BlinkyAI
  import PinkyAI
  import InkyAI
  import ClydeAI

  /** `checkDirs`, in the arcade's priority order Up, Left, Down, Right. */
  const CheckDirs: seq<Vec> := [Up, Left, Down, Right]

  /** `baseSpeed = 75.5 * 0.85` pixels per second. */
  const BaseSpeed: real := 75.5 * 0.85

  /** The tile above the door: EATEN ghosts head here, and a LEAVING_HOUSE
      ghost centred here has left. */
  const HouseEntry := Vec(13, 11)
  /** The tile inside the house where an EATEN ghost revives. */
  const HouseInside := Vec(13, 14)

  /** `isOpposite(dirA, dirB)`. */
  predicate IsOpposite(a: Vec, b: Vec)
  {
    a.x == -b.x && a.y == -b.y
  }

  /** Opposition is the same as one vector being the other negated, and it is symmetric. */
  lemma OppositeIsNegation(a: Vec, b: Vec)
    ensures IsOpposite(a, b) <==> a == b.Negated()
    ensures IsOpposite(a, b) <==> IsOpposite(b, a)
  {
  }

  // ---------------------------------------------------------------------------
  // _chooseDirection
  // ---------------------------------------------------------------------------

  /** What `_chooseDirection` asks of the maze for a ghost on a tile: whether
      the tile forbids turning up, and which of the four directions lead to
      a neighbour that is solid for the ghost. The maze queries have no side
      effects, so answering them all up front gives the loop the same
      answers as asking them one at a time. */
  datatype Surroundings = Surroundings(noTurnUp: bool, solid: set<Vec>)

  /** The answers of `tileMap.isNoTurnUpTile` and `tileMap.isSolidForGhost`
      for a ghost on `tile` in `state`. */
  function Look(m: TileMap, tile: Vec, state: GhostState): (s: Surroundings)
    reads m, m.grid
    requires m.Valid()
    ensures s.noTurnUp <==> m.IsNoTurnUpTile(tile.x, tile.y)
    ensures forall d :: d in CheckDirs ==>
              (d in s.solid <==> m.IsSolidForGhost(tile.x + d.x, tile.y + d.y, state))
  {
    Surroundings(m.IsNoTurnUpTile(tile.x, tile.y),
                 set d | d in CheckDirs && m.IsSolidForGhost(tile.x + d.x, tile.y + d.y, state))
  }

  /** Whether the loop of `_chooseDirection` keeps `d` as a valid direction:
      it is not the reverse of a non-zero `dir`; it is not Up on a no-turn-up
      tile unless the ghost is EATEN or FRIGHTENED; and the neighbouring tile
      is not solid for the ghost. */
  predicate Allowed(s: Surroundings, dir: Vec, state: GhostState, d: Vec)
  {
    && (dir.IsZero() || !(d.x == -dir.x && d.y == -dir.y))
    && !(d.y == -1 && s.noTurnUp && state != Eaten && state != Frightened)
    && d !in s.solid
  }

  /** Read against the maze, a direction is allowed exactly when it is not a
      forbidden reverse, not a forbidden turn up, and leads to a tile that is
      not solid for the ghost. */
  lemma AllowedInMaze(m: TileMap, tile: Vec, dir: Vec, state: GhostState, d: Vec)
    requires m.Valid() && d in CheckDirs
    ensures Allowed(Look(m, tile, state), dir, state, d) <==>
              && !(!dir.IsZero() && IsOpposite(d, dir))
              && !(d == Up && m.IsNoTurnUpTile(tile.x, tile.y) && state != Eaten && state != Frightened)
              && !m.IsSolidForGhost(tile.x + d.x, tile.y + d.y, state)
  {
  }

  /** `validDirs` after the first `n` iterations of the loop. */
  function ValidDirs(s: Surroundings, dir: Vec, state: GhostState, n: nat): (r: seq<Vec>)
    requires n <= |CheckDirs|
    ensures |r| <= n
  {
    if n == 0 then []
    else
      var d := CheckDirs[n - 1];
      var before := ValidDirs(s, dir, state, n - 1);
      if Allowed(s, dir, state, d) then before + [d] else before
  }

  /** The loop keeps exactly the allowed directions among the first `n`. */
  lemma {:induction false} ValidDirsMembers(s: Surroundings, dir: Vec, state: GhostState, n: nat)
    requires n <= |CheckDirs|
    ensures forall d :: d in ValidDirs(s, dir, state, n) ==> d in CheckDirs[..n] && Allowed(s, dir, state, d)
    ensures forall j :: 0 <= j < n && Allowed(s, dir, state, CheckDirs[j]) ==> CheckDirs[j] in ValidDirs(s, dir, state, n)
  {
    if n > 0 {
      ValidDirsMembers(s, dir, state, n - 1);
      assert CheckDirs[..n] == CheckDirs[..n - 1] + [CheckDirs[n - 1]];
    }
  }

  /** The distance `_chooseDirection` compares for direction `d`, squared. */
  function DistVia(tile: Vec, d: Vec, target: Vec): int
  {
    Dist2(tile.Plus(d), target)
  }

  /** `bestDir` after the first `n` iterations: the index of the best valid
      direction so far, or None while no direction was valid
      (`bestDist === Infinity`). */
  function Scan(s: Surroundings, tile: Vec, dir: Vec, state: GhostState, target: Vec, n: nat): (best: Option<nat>)
    requires n <= |CheckDirs|
    ensures best.Some? ==> best.value < n
  {
    if n == 0 then None
    else
      var d := CheckDirs[n - 1];
      var before := Scan(s, tile, dir, state, target, n - 1);
      if !Allowed(s, dir, state, d) then before
      else if before.None? then Some(n - 1)
      else if DistVia(tile, d, target) < DistVia(tile, CheckDirs[before.value], target) then Some(n - 1)
      else before
  }

  /** The loop finds no best direction exactly when none is allowed; the one
      it finds is allowed, of least distance among the allowed ones, and
      strictly nearer than every allowed direction before it, since the
      comparison is a strict `<` and a later direction at the same distance
      never displaces an earlier one. */
  lemma {:induction false} ScanBest(s: Surroundings, tile: Vec, dir: Vec, state: GhostState, target: Vec, n: nat)
    requires n <= |CheckDirs|
    ensures var best := Scan(s, tile, dir, state, target, n);
            && (best.None? <==> forall j :: 0 <= j < n ==> !Allowed(s, dir, state, CheckDirs[j]))
            && (best.Some? ==>
                  && Allowed(s, dir, state, CheckDirs[best.value])
                  && (forall j :: 0 <= j < n && Allowed(s, dir, state, CheckDirs[j]) ==>
                        DistVia(tile, CheckDirs[best.value], target) <= DistVia(tile, CheckDirs[j], target))
                  && (forall j :: 0 <= j < best.value && Allowed(s, dir, state, CheckDirs[j]) ==>
                        DistVia(tile, CheckDirs[j], target) > DistVia(tile, CheckDirs[best.value], target)))
  {
    if n > 0 {
      ScanBest(s, tile, dir, state, target, n - 1);
    }
  }

  /** The loop finds a best direction exactly when some direction is valid. */
  lemma ScanFindsIffValid(s: Surroundings, tile: Vec, dir: Vec, state: GhostState, target: Vec)
    ensures Scan(s, tile, dir, state, target, |CheckDirs|).None?
        <==> ValidDirs(s, dir, state, |CheckDirs|) == []
  {
    var valid := ValidDirs(s, dir, state, |CheckDirs|);
    ValidDirsMembers(s, dir, state, |CheckDirs|);
    ScanBest(s, tile, dir, state, target, |CheckDirs|);
    assert CheckDirs[..|CheckDirs|] == CheckDirs;
    if valid != [] {
      assert valid[0] in CheckDirs;
    }
  }

  /** `_chooseDirection` for a ghost on `tile` moving along `dir` in `state`,
      heading for `target`, with the maze's answers `s`.
      `Math.floor(Math.random() * validDirs.length)` is the parameter `roll`
      taken modulo the number of valid directions. What the choice is, case
      by case, is stated by the lemmas that follow. */
  function ChooseDirection(s: Surroundings, tile: Vec, dir: Vec, state: GhostState, target: Vec, roll: nat): Vec
  {
    var valid := ValidDirs(s, dir, state, |CheckDirs|);
    var best := Scan(s, tile, dir, state, target, |CheckDirs|);
    if state == Frightened && |valid| > 0 then
      valid[roll % |valid|]
    else if best.None? && |valid| == 0 && !dir.IsZero() then
      Vec(-dir.x, -dir.y)
    else if best.Some? then
      CheckDirs[best.value]
    else
      dir
  }

  /** With somewhere to go, the choice is one of the valid directions, so
      an allowed unit step. */
  lemma ChoiceIsValid(s: Surroundings, tile: Vec, dir: Vec, state: GhostState, target: Vec, roll: nat)
    requires ValidDirs(s, dir, state, |CheckDirs|) != []
    ensures var r := ChooseDirection(s, tile, dir, state, target, roll);
            && r in ValidDirs(s, dir, state, |CheckDirs|) && r in CheckDirs && Allowed(s, dir, state, r)
            && (r == Up || r == Left || r == Down || r == Right)
  {
    ChoiceWhenFree(s, tile, dir, state, target, roll);
    var r := ChooseDirection(s, tile, dir, state, target, roll);
    assert r in [Up, Left, Down, Right];
  }

  /** With somewhere to go, the choice is a random valid direction when
      FRIGHTENED, otherwise the loop's best. */
  lemma ChoiceWhenFree(s: Surroundings, tile: Vec, dir: Vec, state: GhostState, target: Vec, roll: nat)
    requires ValidDirs(s, dir, state, |CheckDirs|) != []
    ensures var valid := ValidDirs(s, dir, state, |CheckDirs|);
            var r := ChooseDirection(s, tile, dir, state, target, roll);
            && r in valid && r in CheckDirs && Allowed(s, dir, state, r)
            && Scan(s, tile, dir, state, target, |CheckDirs|).Some?
            && (state == Frightened ==> r == valid[roll % |valid|])
            && (state != Frightened ==> r == CheckDirs[Scan(s, tile, dir, state, target, |CheckDirs|).value])
  {
    ScanFindsIffValid(s, tile, dir, state, target);
    ValidDirsMembers(s, dir, state, |CheckDirs|);
    ScanBest(s, tile, dir, state, target, |CheckDirs|);
    assert CheckDirs[..|CheckDirs|] == CheckDirs;
  }

  /** With nowhere to go, the ghost reverses (a stopped ghost stays stopped). */
  lemma ChoiceWhenTrapped(s: Surroundings, tile: Vec, dir: Vec, state: GhostState, target: Vec, roll: nat)
    requires ValidDirs(s, dir, state, |CheckDirs|) == []
    ensures ChooseDirection(s, tile, dir, state, target, roll) == dir.Negated()
  {
    ScanFindsIffValid(s, tile, dir, state, target);
    if dir.IsZero() {
      assert ChooseDirection(s, tile, dir, state, target, roll) == dir;
    } else {
      assert ChooseDirection(s, tile, dir, state, target, roll) == Vec(-dir.x, -dir.y);
    }
  }

  /** Outside FRIGHTENED, a ghost with valid directions takes one of least
      distance to its target, and among those the earliest of Up, Left, Down,
      Right. */
  lemma NearestFirst(s: Surroundings, tile: Vec, dir: Vec, state: GhostState, target: Vec, roll: nat)
    requires state != Frightened
    requires ValidDirs(s, dir, state, |CheckDirs|) != []
    ensures var r := ChooseDirection(s, tile, dir, state, target, roll);
            && (forall d :: d in ValidDirs(s, dir, state, |CheckDirs|) ==>
                  DistVia(tile, r, target) <= DistVia(tile, d, target))
            && exists k :: 0 <= k < |CheckDirs| && r == CheckDirs[k] &&
                 forall j :: 0 <= j < k && Allowed(s, dir, state, CheckDirs[j]) ==>
                   DistVia(tile, CheckDirs[j], target) > DistVia(tile, r, target)
  {
    var valid := ValidDirs(s, dir, state, |CheckDirs|);
    ChoiceWhenFree(s, tile, dir, state, target, roll);
    ValidDirsMembers(s, dir, state, |CheckDirs|);
    ScanBest(s, tile, dir, state, target, |CheckDirs|);
    var k := Scan(s, tile, dir, state, target, |CheckDirs|).value;
    assert CheckDirs[..|CheckDirs|] == CheckDirs;
    forall d | d in valid
      ensures DistVia(tile, CheckDirs[k], target) <= DistVia(tile, d, target)
    {
      var j :| 0 <= j < |CheckDirs| && CheckDirs[j] == d;
    }
  }

  /** The choice is always stopped or a unit step when the current direction is. */
  lemma ChoiceIsDirection(s: Surroundings, tile: Vec, dir: Vec, state: GhostState, target: Vec, roll: nat)
    requires IsDirection(dir)
    ensures IsDirection(ChooseDirection(s, tile, dir, state, target, roll))
  {
    var r := ChooseDirection(s, tile, dir, state, target, roll);
    var free := ValidDirs(s, dir, state, |CheckDirs|) != [];
    if free {
      ChoiceIsValid(s, tile, dir, state, target, roll);
    } else {
      ChoiceWhenTrapped(s, tile, dir, state, target, roll);
    }
    UnitOrReverse(r, dir, free);
  }

  /** A unit step, or the reverse of a direction, is a direction. */
  lemma UnitOrReverse(r: Vec, dir: Vec, free: bool)
    requires IsDirection(dir)
    requires free ==> r == Up || r == Left || r == Down || r == Right
    requires !free ==> r == dir.Negated()
    ensures IsDirection(r)
  {
  }

  /** A moving ghost reverses exactly when it has no valid direction. */
  lemma ReversesOnlyWhenTrapped(s: Surroundings, tile: Vec, dir: Vec, state: GhostState, target: Vec, roll: nat)
    requires !dir.IsZero()
    ensures IsOpposite(ChooseDirection(s, tile, dir, state, target, roll), dir)
        <==> ValidDirs(s, dir, state, |CheckDirs|) == []
  {
    if ValidDirs(s, dir, state, |CheckDirs|) == [] {
      ChoiceWhenTrapped(s, tile, dir, state, target, roll);
    } else {
      ChoiceWhenFree(s, tile, dir, state, target, roll);
    }
  }

  /** A ghost with somewhere to go never heads into a tile that is solid for
      it in the maze. */
  lemma NeverIntoSolid(m: TileMap, tile: Vec, dir: Vec, state: GhostState, target: Vec, roll: nat)
    requires m.Valid()
    requires ValidDirs(Look(m, tile, state), dir, state, |CheckDirs|) != []
    ensures var r := ChooseDirection(Look(m, tile, state), tile, dir, state, target, roll);
            !m.IsSolidForGhost(tile.x + r.x, tile.y + r.y, state)
  {
    var s := Look(m, tile, state);
    ChoiceIsOpen(s, tile, dir, state, target, roll);
    LookedOpen(m, tile, state, ChooseDirection(s, tile, dir, state, target, roll));
  }

  /** The choice of a ghost with somewhere to go is one of the four
      directions, and not one the surroundings report solid. */
  lemma ChoiceIsOpen(s: Surroundings, tile: Vec, dir: Vec, state: GhostState, target: Vec, roll: nat)
    requires ValidDirs(s, dir, state, |CheckDirs|) != []
    ensures var r := ChooseDirection(s, tile, dir, state, target, roll);
            r in CheckDirs && r !in s.solid
  {
    ChoiceIsValid(s, tile, dir, state, target, roll);
  }

  /** A direction the surroundings report open leads to a tile that is not
      solid for the ghost. */
  lemma LookedOpen(m: TileMap, tile: Vec, state: GhostState, d: Vec)
    requires m.Valid() && d in CheckDirs && d !in Look(m, tile, state).solid
    ensures !m.IsSolidForGhost(tile.x + d.x, tile.y + d.y, state)
  {
  }

  /** On a no-turn-up tile of the maze a ghost that is neither EATEN nor
      FRIGHTENED goes up only as the forced reverse of moving down with
      nowhere else to go. */
  lemma NoTurnUpRespected(m: TileMap, tile: Vec, dir: Vec, state: GhostState, target: Vec, roll: nat)
    requires m.Valid() && m.IsNoTurnUpTile(tile.x, tile.y) && state != Eaten && state != Frightened
    requires ChooseDirection(Look(m, tile, state), tile, dir, state, target, roll) == Up
    ensures ValidDirs(Look(m, tile, state), dir, state, |CheckDirs|) == [] && dir == Down
  {
    var s := Look(m, tile, state);
    if ValidDirs(s, dir, state, |CheckDirs|) == [] {
      ChoiceWhenTrapped(s, tile, dir, state, target, roll);
    } else {
      ChoiceWhenFree(s, tile, dir, state, target, roll);
    }
  }

  /** A FRIGHTENED ghost with valid directions can take each one of them:
      every valid direction is the choice for some roll. */
  lemma FrightenedReachesEveryValid(s: Surroundings, tile: Vec, dir: Vec, target: Vec, i: nat)
    requires i < |ValidDirs(s, dir, Frightened, |CheckDirs|)|
    ensures exists roll: nat :: ChooseDirection(s, tile, dir, Frightened, target, roll)
                              == ValidDirs(s, dir, Frightened, |CheckDirs|)[i]
  {
    var valid := ValidDirs(s, dir, Frightened, |CheckDirs|);
    assert i % |valid| == i;
    assert ChooseDirection(s, tile, dir, Frightened, target, i) == valid[i];
  }

  // ---------------------------------------------------------------------------
  // Per-ghost constants and targeting
  // ---------------------------------------------------------------------------

  function ScatterCorner(name: GhostName): Vec
  {
    match name
    case Blinky => BlinkyAI.ScatterCorner
    case Pinky => PinkyAI.ScatterCorner
    case Inky => InkyAI.ScatterCorner
    case Clyde => ClydeAI.ScatterCorner
  }

  function StartState(name: GhostName): GhostState
  {
    match name
    case Blinky => BlinkyAI.StartState
    case Pinky => PinkyAI.StartState
    case Inky => InkyAI.StartState
    case Clyde => ClydeAI.StartState
  }

  function StartDir(name: GhostName): Vec
  {
    match name
    case Blinky => BlinkyAI.StartDir
    case Pinky => PinkyAI.StartDir
    case Inky => InkyAI.StartDir
    case Clyde => ClydeAI.StartDir
  }

  /** The overridden `getTargetTile(pacman, ghosts)` of each ghost; `own` is
      the ghost's own tile (read by Clyde only). */
  function ChaseTarget(name: GhostName, own: Vec, pac: PacView, ghosts: seq<GhostView>): Vec
  {
    match name
    case Blinky => BlinkyAI.TargetTile(pac, ghosts, own)
    case Pinky => PinkyAI.TargetTile(pac)
    case Inky => InkyAI.TargetTile(pac, ghosts)
    case Clyde => ClydeAI.TargetTile(own, pac)
  }

  /** The target selection at the head of `update`. */
  function NextTarget(state: GhostState, current: Vec, name: GhostName, own: Vec,
                      pac: PacView, ghosts: seq<GhostView>): (t: Vec)
    ensures state == Scatter || state == LeavingHouse ==> t == ScatterCorner(name)
    ensures state == Chase ==> t == ChaseTarget(name, own, pac, ghosts)
    ensures state == Eaten ==> t == HouseEntry
    ensures state == Frightened || state == JustLeftHouse || state == Idle ==> t == current
  {
    if state == Scatter || state == LeavingHouse then ScatterCorner(name)
    else if state == Chase then ChaseTarget(name, own, pac, ghosts)
    else if state == Frightened then current
    else if state == Eaten then HouseEntry
    else current
  }

  /** The speed multiplier: EATEN doubles, FRIGHTENED halves, and so does a
      tunnel tile otherwise. */
  function SpeedMultiplier(state: GhostState, tile: Tile): (k: real)
    ensures k == 2.0 <==> state == Eaten
    ensures k == 0.5 <==> state != Eaten && (state == Frightened || tile == Tunnel)
    ensures k == 1.0 <==> state != Eaten && state != Frightened && tile != Tunnel
  {
    if state == Eaten then 2.0
    else if state == Frightened then 0.5
    else if tile == Tunnel then 0.5
    else 1.0
  }

  /** `baseSpeed * speedMult * dt`. */
  function Speed(state: GhostState, tile: Tile, dt: real): real
  {
    BaseSpeed * SpeedMultiplier(state, tile) * dt
  }

  /** The checkpoint transitions taken on reaching a tile centre. */
  function AfterCheckpoint(state: GhostState, tile: Vec): (s: GhostState)
    ensures state == LeavingHouse && tile == HouseEntry ==> s == JustLeftHouse
    ensures state == Eaten && tile == HouseInside ==> s == LeavingHouse
    ensures s != state ==> (state == LeavingHouse && tile == HouseEntry) || (state == Eaten && tile == HouseInside)
  {
    if state == LeavingHouse && tile.x == 13 && tile.y == 11 then JustLeftHouse
    else if state == Eaten && tile.x == 13 && tile.y == 14 then LeavingHouse
    else state
  }

  /** The snap window of `update`: within 2 pixels of the centre of `tile`
      (squared distance at most 4, HypotAtMost), and either the last step
      crossed the centre along `dir` or the ghost is within 1 pixel of it. */
  predicate Snaps(x: real, y: real, tile: Vec, dir: Vec, speed: real)
  {
    var cx, cy := Centre(tile.x), Centre(tile.y);
    var d2 := (x - cx) * (x - cx) + (y - cy) * (y - cy);
    && d2 <= 4.0
    && (|| (dir.x == 1 && x - cx >= 0.0 && (x - speed) - cx <= 0.0)
        || (dir.x == -1 && x - cx <= 0.0 && (x + speed) - cx >= 0.0)
        || (dir.y == 1 && y - cy >= 0.0 && (y - speed) - cy <= 0.0)
        || (dir.y == -1 && y - cy <= 0.0 && (y + speed) - cy >= 0.0)
        || d2 < 1.0)
  }

  /** A ghost standing exactly on a tile centre is always in the snap window. */
  lemma CentreSnaps(tile: Vec, dir: Vec, speed: real)
    ensures Snaps(Centre(tile.x), Centre(tile.y), tile, dir, speed)
  {
  }

  /** The part of a ghost that `update` moves: pixel position, tile,
      direction, eye direction and behaviour state. */
  datatype Pose = Pose(x: real, y: real, tileX: int, tileY: int, dir: Vec, eyeDir: Vec, state: GhostState)
  {
    function Tile(): Vec { Vec(tileX, tileY) }

    /** The tile is the tile of the pixel position, and the direction is
        stopped or a unit step. */
    predicate Synced()
    {
      tileX == TileOf(x) && tileY == TileOf(y) && IsDirection(dir)
    }
  }

  /** The snap-window step, with `around` the maze's answers for the tile:
      centre on the tile, take the checkpoint
      transitions, choose a direction for the state after them (as
      `_chooseDirection` reads the updated `this.state`), record it as the
      eye direction unless it is zero, and step 0.1 pixel along it. The tile
      is not resynced here. */
  function Turn(p: Pose, around: Surroundings, target: Vec, roll: nat): Pose
  {
    var st := AfterCheckpoint(p.state, p.Tile());
    var d := ChooseDirection(around, p.Tile(), p.dir, st, target, roll);
    Pose(Centre(p.tileX) + d.x as real * 0.1, Centre(p.tileY) + d.y as real * 0.1,
         p.tileX, p.tileY, d, if d.IsZero() then p.eyeDir else d, st)
  }

  /** The move at the end of `update`: `speed` pixels along the direction,
      resync the tile, wrap through the tunnel of a maze `width` tiles wide. */
  function Move(p: Pose, speed: real, width: int): (q: Pose)
    ensures q.tileX == TileOf(q.x) && q.tileY == TileOf(q.y)
    ensures width > 0 ==> 0 <= q.tileX < width
    ensures q.dir == p.dir && q.eyeDir == p.eyeDir && q.state == p.state
    ensures q.y == p.y + p.dir.y as real * speed
  {
    var ny := p.y + p.dir.y as real * speed;
    var w := TunnelWrap(p.x + p.dir.x as real * speed, width);
    Pose(w.0, ny, w.1, TileOf(ny), p.dir, p.eyeDir, p.state)
  }

  /** Everything `update` does to a ghost that is not IDLE, once the target
      is set: turn when inside the snap window, then move. */
  function Advance(p: Pose, m: TileMap, target: Vec, speed: real, roll: nat): Pose
    reads m, m.grid
    requires m.Valid()
  {
    if Snaps(p.x, p.y, p.Tile(), p.dir, speed) then
      Move(Turn(p, Look(m, p.Tile(), AfterCheckpoint(p.state, p.Tile())), target, roll), speed, m.width)
    else Move(p, speed, m.width)
  }

  /** A step keeps the tile in sync with the position and the direction a
      unit step or zero, and leaves the ghost in a column of the maze. */
  lemma AdvanceKeepsSynced(p: Pose, m: TileMap, target: Vec, speed: real, roll: nat)
    requires m.Valid() && IsDirection(p.dir)
    ensures Advance(p, m, target, speed, roll).Synced()
    ensures m.width > 0 ==> 0 <= Advance(p, m, target, speed, roll).tileX < m.width
  {
    var st := AfterCheckpoint(p.state, p.Tile());
    ChoiceIsDirection(Look(m, p.Tile(), st), p.Tile(), p.dir, st, target, roll);
  }

  /** Outside the snap window a ghost keeps its direction, eye direction and
      state; inside it, it takes the direction chosen for its tile and the
      state after the checkpoints. */
  lemma AdvanceTurnsOnlyAtCentre(p: Pose, m: TileMap, target: Vec, speed: real, roll: nat)
    requires m.Valid()
    ensures var q := Advance(p, m, target, speed, roll);
            var st := AfterCheckpoint(p.state, p.Tile());
            if Snaps(p.x, p.y, p.Tile(), p.dir, speed) then
              && q.state == st
              && q.dir == ChooseDirection(Look(m, p.Tile(), st), p.Tile(), p.dir, st, target, roll)
            else
              q.dir == p.dir && q.eyeDir == p.eyeDir && q.state == p.state
  {
  }

  /** The eye direction is the last non-zero direction: it is never zero
      once it is not. */
  lemma EyesNeverZero(p: Pose, m: TileMap, target: Vec, speed: real, roll: nat)
    requires m.Valid() && !p.eyeDir.IsZero()
    ensures !Advance(p, m, target, speed, roll).eyeDir.IsZero()
    ensures !Advance(p, m, target, speed, roll).dir.IsZero() ==>
              Advance(p, m, target, speed, roll).eyeDir == Advance(p, m, target, speed, roll).dir
              || !Snaps(p.x, p.y, p.Tile(), p.dir, speed)
  {
  }

  class Ghost {
    const name: GhostName
    const scatterTarget: Vec
    var tileX: int
    var tileY: int
    var x: real
    var y: real
    var dir: Vec
    var eyeDir: Vec
    var state: GhostState
    var targetTile: Vec

    /** Tile coordinates are the tiles of the pixel position, and the
        direction is stopped or a unit step. */
    ghost predicate Valid()
      reads this`tileX, this`tileY, this`x, this`y, this`dir
    {
      tileX == TileOf(x) && tileY == TileOf(y) && IsDirection(dir) && scatterTarget == ScatterCorner(name)
    }

    /** What the other ghosts' targeting reads of this one. */
    function View(): (v: GhostView)
      reads this
      ensures v.name == name && v.tile == Vec(tileX, tileY)
    {
      GhostView(name, Vec(tileX, tileY))
    }

    /** `new Blinky(startTile)`, `new Pinky(startTile)`, ...: centred on the
        start tile, facing the ghost's start direction, in its start state. */
    constructor (ghostName: GhostName, startTile: Vec)
      ensures Valid() && name == ghostName
      ensures tileX == startTile.x && tileY == startTile.y
      ensures x == Centre(startTile.x) && y == Centre(startTile.y)
      ensures state == StartState(ghostName) && dir == StartDir(ghostName)
      ensures scatterTarget == ScatterCorner(ghostName)
      ensures targetTile == Zero && eyeDir == Right
    {
      name := ghostName;
      scatterTarget := ScatterCorner(ghostName);
      tileX, tileY := startTile.x, startTile.y;
      x, y := Centre(startTile.x), Centre(startTile.y);
      dir := StartDir(ghostName);
      eyeDir := Right;
      state := StartState(ghostName);
      targetTile := Zero;
      new;
      TileOfCentre(startTile.x);
      TileOfCentre(startTile.y);
    }

    /** The moving part of the ghost as a value. */
    ghost function Snapshot(): Pose
      reads this
    {
      Pose(x, y, tileX, tileY, dir, eyeDir, state)
    }

    /** `update(dt, tileMap, pacman, ghosts)`: IDLE ghosts stay put. Otherwise
        pick the target and the speed; inside the snap window centre the
        ghost, take the checkpoint transitions, choose a new direction and
        nudge 0.1 pixel along it; then move, resync the tile and wrap through
        the tunnel. */
    method Update(dt: real, m: TileMap, pac: PacView, ghosts: seq<GhostView>, roll: nat)
      requires Valid() && m.Valid()
      modifies this
      ensures Valid()
      ensures old(state) == Idle ==> unchanged(this)
      ensures old(state) != Idle ==>
        && targetTile == old(NextTarget(state, targetTile, name, Vec(tileX, tileY), pac, ghosts))
        && Snapshot() == old(Advance(Snapshot(), m, NextTarget(state, targetTile, name, Vec(tileX, tileY), pac, ghosts),
                                     Speed(state, m.GetTile(tileX, tileY), dt), roll))
      ensures old(state) != Idle && m.width > 0 ==> 0 <= tileX < m.width
    {
      if state == Idle {
        return;
      }
      var own := Vec(tileX, tileY);
      var target := NextTarget(state, targetTile, name, own, pac, ghosts);
      var speed := Speed(state, m.GetTile(tileX, tileY), dt);
      ghost var start := Snapshot();
      AdvanceKeepsSynced(start, m, target, speed, roll);
      var around := Look(m, own, AfterCheckpoint(state, own));
      targetTile := target;
      assert Snapshot() == start;
      if Snaps(x, y, own, dir, speed) {
        TurnAtCentre(around, roll);
      }
      MoveAndWrap(speed, m.width);
    }

    /** The body of the snap window (see Turn). */
    method TurnAtCentre(around: Surroundings, roll: nat)
      modifies this`x, this`y, this`state, this`dir, this`eyeDir
      ensures Snapshot() == Turn(old(Snapshot()), around, targetTile, roll)
    {
      var own := Vec(tileX, tileY);
      x, y := Centre(tileX), Centre(tileY);
      state := AfterCheckpoint(state, own);
      var chosen := ChooseDirection(around, own, dir, state, targetTile, roll);
      dir := chosen;
      if dir.x != 0 || dir.y != 0 {
        eyeDir := dir;
      }
      x := x + dir.x as real * 0.1;
      y := y + dir.y as real * 0.1;
    }

    /** The move, tile resync and tunnel wrap (see Move). */
    method MoveAndWrap(speed: real, width: int)
      modifies this`x, this`y, this`tileX, this`tileY
      ensures Snapshot() == Move(old(Snapshot()), speed, width)
    {
      ghost var p := Snapshot();
      var nx := x + dir.x as real * speed;
      var ny := y + dir.y as real * speed;
      ghost var wrapped := TunnelWrap(nx, width);  // what the branches below compute
      var tx := TileOf(nx);
      if tx < 0 {
        nx := (width * TileSize) as real - 1.0;
        tx := width - 1;
      } else if tx >= width {
        nx := 0.0;
        tx := 0;
      }
      assert (nx, tx) == wrapped;
      x, y, tileX, tileY := nx, ny, tx, TileOf(ny);
      assert Snapshot() == Pose(wrapped.0, ny, wrapped.1, TileOf(ny), p.dir, p.eyeDir, p.state);
    }
  }
}
