/** The game: the screen state machine, the fixed-step loop and the per-tick
    orchestration of dots, waves, Pac-Man, ghosts, fruit, score and popups,
    with the event handlers that tie them together. */
module Game {
  import opened Shared
  import opened Maze
  import Dots
  import Waves
  import Ghosts
  import Player
  import Scoring
  import Bonus
  import Popups
  import Input

  /** The screens (`STATES`). */
  datatype Screen = Boot | TitleScreen | ModeSelect | LevelIntro | Playing | Paused | PlayerDeath | GameOver | Victory

  /** Seconds per simulation step (`fixedDeltaTime`). */
  const FixedDeltaTime: real := 1.0 / 60.0
  /** A frame never feeds more than this many seconds into the accumulator. */
  const MaxFrameTime: real := 0.25
  /** The level intro lasts until its timer passes this many seconds. */
  const IntroSeconds: real := 4.5
  /** Pac-Man spins while the death timer is below this. */
  const SpinSeconds: real := 2.0
  /** The death sequence ends once its timer passes this. */
  const DeathSeconds: real := 3.0
  /** Degrees per second of the death spin. */
  const SpinSpeed: real := 400.0
  const StartLives: int := 3
  const PacStart: Vec := Vec(14, 23)
  const GhostNames: seq<GhostName> := [Blinky, Pinky, Inky, Clyde]
  const GhostStarts: seq<Vec> := [Vec(13, 11), Vec(13, 14), Vec(11, 14), Vec(15, 14)]
  /** Dots eaten before Inky and Clyde leave the house. */
  const InkyDots: int := 30
  const ClydeDots: int := 60
  /** Pac-Man and a ghost touch when their centres are closer than this. */
  const CatchDistance: real := 6.0

  // ---------------------------------------------------------------------
  // Screens and timers

  /** The pause check at the top of `update`: a latched pause is read only in
      PLAYING or PAUSED, and flips between the two. */
  function PauseToggle(s: Screen, pressed: bool): Screen
  {
    if pressed && s == Playing then Paused
    else if pressed && s == Paused then Playing
    else s
  }

  /** Pausing and unpausing gets back to where the game was. */
  lemma PauseTwiceResumes(s: Screen)
    ensures PauseToggle(PauseToggle(s, true), true) == s
  {
  }

  /** Entering these screens drops any latched tap or key. */
  predicate FlushesInput(s: Screen)
  {
    s == LevelIntro || s == GameOver || s == Victory
  }

  /** One LEVEL_INTRO step: the screen timer grows by `dt`, and play starts
      once it is past 4.5 seconds. */
  function IntroStep(timer: real, dt: real): (r: (real, Screen))
    ensures r.0 == timer + dt
    ensures r.1 == Playing <==> timer + dt > IntroSeconds
    ensures r.1 == Playing || r.1 == LevelIntro
  {
    (timer + dt, if timer + dt > IntroSeconds then Playing else LevelIntro)
  }

  /** Seconds after `n` fixed steps. */
  function Elapsed(n: nat): real
  {
    n as real * FixedDeltaTime
  }

  /** The intro after `n` fixed steps from a fresh LEVEL_INTRO. */
  function IntroRun(n: nat): (real, Screen)
    decreases n
  {
    if n == 0 then (0.0, LevelIntro)
    else
      var prev := IntroRun(n - 1);
      if prev.1 == LevelIntro then IntroStep(prev.0, FixedDeltaTime) else prev
  }

  /** The intro lasts exactly 271 fixed steps: after 270 the timer is 4.5
      seconds, which is not yet past 4.5. */
  lemma {:induction false} IntroLasts(n: nat)
    ensures IntroRun(n) == if n <= 270 then (Elapsed(n), LevelIntro) else (Elapsed(271), Playing)
    decreases n
  {
    if n > 0 {
      IntroLasts(n - 1);
      if n - 1 <= 270 {
        assert Elapsed(n - 1) + FixedDeltaTime == Elapsed(n);
        assert Elapsed(n) > IntroSeconds <==> n > 270;
      }
    }
  }

  /** What one PLAYER_DEATH step does. */
  datatype Dying = Dying(timer: real, lives: int, screen: Screen, spin: bool)

  /** One PLAYER_DEATH step: the timer grows by `dt`; below 2 seconds Pac-Man
      spins; past 3 seconds a life is lost, and play resumes on a fresh level
      while lives remain (at least 0 after the loss), else the game is over. */
  function DeathStep(timer: real, lives: int, dt: real): (r: Dying)
    ensures r.timer == timer + dt
    ensures r.spin <==> timer + dt < SpinSeconds
    ensures timer + dt <= DeathSeconds ==> r.lives == lives && r.screen == PlayerDeath
    ensures timer + dt > DeathSeconds ==> r.lives == lives - 1 && r.screen == (if lives - 1 >= 0 then Playing else GameOver)
  {
    var t := timer + dt;
    if t < SpinSeconds then Dying(t, lives, PlayerDeath, true)
    else if t > DeathSeconds then
      Dying(t, lives - 1, if lives - 1 >= 0 then Playing else GameOver, false)
    else Dying(t, lives, PlayerDeath, false)
  }

  /** The death sequence after `n` fixed steps from a fresh PLAYER_DEATH. */
  function DeathRun(lives: int, n: nat): Dying
    decreases n
  {
    if n == 0 then Dying(0.0, lives, PlayerDeath, false)
    else
      var prev := DeathRun(lives, n - 1);
      if prev.screen == PlayerDeath then DeathStep(prev.timer, prev.lives, FixedDeltaTime) else prev
  }

  /** A death takes 181 fixed steps: Pac-Man spins during the first 119, and
      the 181st takes a life and leaves the death screen, for a fresh level
      while a life remains and for GAME_OVER after the last one. Starting
      from 3 lives the fourth death ends the game. */
  lemma {:induction false} DeathLasts(lives: int, n: nat)
    ensures 1 <= n <= 180 ==> DeathRun(lives, n) == Dying(Elapsed(n), lives, PlayerDeath, n < 120)
    ensures n > 180 ==> DeathRun(lives, n) == Dying(Elapsed(181), lives - 1, if lives >= 1 then Playing else GameOver, false)
    decreases n
  {
    if n > 0 {
      DeathLasts(lives, n - 1);
      assert Elapsed(n - 1) + FixedDeltaTime == Elapsed(n);
      if n <= 181 {
        assert Elapsed(n) < SpinSeconds <==> n < 120;
        assert Elapsed(n) > DeathSeconds <==> n > 180;
      }
    }
  }

  // ---------------------------------------------------------------------
  // The fixed-step loop

  /** `loop(time)`: the seconds since the last frame, clamped to 0.25. */
  function FrameTime(time: real, lastTime: real): (f: real)
    ensures f <= MaxFrameTime
    ensures (time - lastTime) / 1000.0 <= MaxFrameTime ==> f == (time - lastTime) / 1000.0
    ensures (time - lastTime) / 1000.0 > MaxFrameTime ==> f == MaxFrameTime
  {
    var f := (time - lastTime) / 1000.0;
    if f > MaxFrameTime then MaxFrameTime else f
  }

  /** However long a frame took, it runs at most 15 simulation steps when
      the accumulator held less than one step before it. */
  lemma AtMostFifteenSteps(before: real, frame: real, steps: nat, after: real)
    requires 0.0 <= before < FixedDeltaTime && frame <= MaxFrameTime
    requires after == before + frame - steps as real * FixedDeltaTime && after >= 0.0
    ensures steps <= 15
  {
    assert steps as real * FixedDeltaTime < 16.0 * FixedDeltaTime;
  }

  // ---------------------------------------------------------------------
  // What the orchestration does to one ghost

  /** A wave change: a SCATTER or CHASE ghost adopts the new phase and turns
      round; a ghost in any other state is left alone. */
  function WaveTurn(p: Ghosts.Pose, phase: GhostState): Ghosts.Pose
  {
    if p.state == Scatter || p.state == Chase then p.(state := phase, dir := p.dir.Negated()) else p
  }

  /** A ghost that follows two wave changes in a row heads the way it did
      before them, in the second phase; a direction stays a direction. */
  lemma WaveTurnTwice(p: Ghosts.Pose, first: GhostState, second: GhostState)
    requires p.state == Scatter || p.state == Chase
    requires first == Scatter || first == Chase
    ensures WaveTurn(WaveTurn(p, first), second) == p.(state := second)
    ensures IsDirection(p.dir) ==> IsDirection(WaveTurn(p, first).dir)
  {
  }

  /** A power pellet: every ghost neither EATEN nor IDLE becomes FRIGHTENED
      and turns round. */
  function Frighten(p: Ghosts.Pose): Ghosts.Pose
  {
    if p.state != Eaten && p.state != Idle then p.(state := Frightened, dir := p.dir.Negated()) else p
  }

  /** The end of the frightened window: FRIGHTENED ghosts adopt the wave's
      phase; the direction is kept. */
  function Unfrighten(p: Ghosts.Pose, phase: GhostState): Ghosts.Pose
  {
    if p.state == Frightened then p.(state := phase) else p
  }

  /** A pellet followed by the end of its window: a ghost that was out and
      not eaten ends in the wave's phase, heading the other way; an eaten or
      idle ghost is untouched. */
  lemma PelletWindow(p: Ghosts.Pose, phase: GhostState)
    ensures p.state != Eaten && p.state != Idle ==>
              Unfrighten(Frighten(p), phase) == p.(state := phase, dir := p.dir.Negated())
    ensures p.state == Eaten || p.state == Idle ==> Unfrighten(Frighten(p), phase) == p
    ensures IsDirection(p.dir) ==> IsDirection(Frighten(p).dir)
  {
  }

  /** House release for the ghost at `index` of the list: Pinky (1) leaves
      IDLE at once, Inky (2) once 30 dots are eaten, Clyde (3) once 60 are. */
  function Release(index: int, s: GhostState, dotsEaten: int): (r: GhostState)
    ensures r != s ==> s == Idle && r == LeavingHouse
    ensures r == LeavingHouse && s == Idle <==>
              s == Idle && (index == 1 || (index == 2 && dotsEaten >= InkyDots) || (index == 3 && dotsEaten >= ClydeDots))
  {
    if s == Idle && (index == 1 || (index == 2 && dotsEaten >= InkyDots) || (index == 3 && dotsEaten >= ClydeDots))
    then LeavingHouse
    else s
  }

  /** The ghosts leave the house in order: whenever Clyde is let out, Inky
      and Pinky would be too; Blinky is never held. */
  lemma ReleaseInOrder(dotsEaten: int)
    ensures Release(3, Idle, dotsEaten) == LeavingHouse ==> Release(2, Idle, dotsEaten) == LeavingHouse
    ensures Release(2, Idle, dotsEaten) == LeavingHouse ==> Release(1, Idle, dotsEaten) == LeavingHouse
    ensures Release(1, Idle, dotsEaten) == LeavingHouse
    ensures Release(0, Idle, dotsEaten) == Idle
  {
  }

  /** A ghost that has just left the house joins the wave's current phase
      before it moves. */
  function Doorway(s: GhostState, phase: GhostState): GhostState
  {
    if s == JustLeftHouse then phase else s
  }

  /** Since the wave is always SCATTER or CHASE, no ghost moves as
      JUST_LEFT_HOUSE. */
  lemma DoorwayNeverLingers(s: GhostState, phase: GhostState)
    requires phase == Scatter || phase == Chase
    ensures Doorway(s, phase) != JustLeftHouse
    ensures Doorway(Doorway(s, phase), phase) == Doorway(s, phase)
  {
  }

  /** How a touch ends. */
  datatype Contact = NoContact | GhostEaten | PacManCaught

  /** The squared distance between two pixel positions. */
  function PixelDist2(px: real, py: real, gx: real, gy: real): real
  {
    (px - gx) * (px - gx) + (py - gy) * (py - gy)
  }

  /** The collision check after a ghost moves, with `dist2` the squared
      distance between the two centres (`Math.hypot(dx, dy) < 6`): a
      FRIGHTENED ghost is eaten, a SCATTER or CHASE ghost catches Pac-Man,
      and anything else, or anything further away, does nothing. */
  function Collide(s: GhostState, dist2: real): (GhostState, Contact)
  {
    if dist2 < CatchDistance * CatchDistance then
      if s == Frightened then (Eaten, GhostEaten)
      else if s == Scatter || s == Chase then (s, PacManCaught)
      else (s, NoContact)
    else (s, NoContact)
  }

  /** A ghost is eaten once: the eaten ghost harms nobody and cannot be eaten
      again, however close Pac-Man stays. */
  lemma EatenOnce(s: GhostState, d1: real, d2: real)
    requires Collide(s, d1).1 == GhostEaten
    ensures Collide(Collide(s, d1).0, d2) == (Eaten, NoContact)
  {
  }

  /** The screen after a contact as `update` writes it: any catch switches to
      PLAYER_DEATH, even when the last dot, eaten earlier in the same tick,
      has already switched to VICTORY. */
  function CaughtScreenAsWritten(s: Screen, c: Contact): Screen
  {
    if c == PacManCaught then PlayerDeath else s
  }

  /** The screen after a contact: a catch ends play only while playing. */
  function CaughtScreen(s: Screen, c: Contact): (r: Screen)
    ensures s != Playing ==> r == s
    ensures s == Playing ==> (r == PlayerDeath <==> c == PacManCaught)
  {
    if c == PacManCaught && s == Playing then PlayerDeath else s
  }

  /** The contacts of one tick's ghost pass, in order. */
  function CaughtAll(s: Screen, cs: seq<Contact>): Screen
    decreases |cs|
  {
    if |cs| == 0 then s else CaughtAll(CaughtScreen(s, cs[0]), cs[1..])
  }

  /** The last dot and a catch in one tick: as written the win is replaced
      by a death; and since the respawned level has no dot left to eat, no
      later DOT_EATEN can bring VICTORY back. */
  lemma LastDotThenCaught(flags: seq<bool>, index: int)
    requires Dots.CountTrue(flags) == 0
    ensures CaughtScreenAsWritten(Victory, PacManCaught) == PlayerDeath
    ensures !Dots.Eat(flags, index).1
  {
  }

  /** With the correction, a VICTORY reached during a tick stands through
      every later contact of that tick, and from PLAYING the tick ends in
      PLAYER_DEATH exactly when some ghost catches Pac-Man. */
  lemma {:induction false} VictoryStands(s: Screen, cs: seq<Contact>)
    ensures s == Victory ==> CaughtAll(s, cs) == Victory
    ensures s == Playing ==> (CaughtAll(s, cs) == PlayerDeath <==> PacManCaught in cs)
    ensures s == Playing ==> (CaughtAll(s, cs) == Playing <==> PacManCaught !in cs)
    decreases |cs|
  {
    if |cs| > 0 {
      VictoryStands(CaughtScreen(s, cs[0]), cs[1..]);
      if s == Playing && cs[0] == PacManCaught {
        StaysCaught(cs[1..]);
      }
      assert cs == [cs[0]] + cs[1..];
    }
  }

  /** Once in PLAYER_DEATH, later contacts change nothing. */
  lemma {:induction false} StaysCaught(cs: seq<Contact>)
    ensures CaughtAll(PlayerDeath, cs) == PlayerDeath
    decreases |cs|
  {
    if |cs| > 0 {
      StaysCaught(cs[1..]);
    }
  }

  // ---------------------------------------------------------------------
  // The DOT_EATEN handler

  /** The fruit check of the DOT_EATEN handler: the count of pickups eaten
      so far is 70 or 170. The count goes up for power pellets too. */
  predicate FruitDue(dotsEaten: int)
  {
    dotsEaten == 70 || dotsEaten == 170
  }

  /** Fruits spawned over the pickups `evs` of one maze, in the order they
      are eaten. Every pickup, dot or power pellet, adds one to the count,
      so the k-th pickup (from 1) makes it k; only a plain dot (DOT_EATEN)
      runs the fruit check, a power pellet (POWER_PELLET_EATEN) does not. */
  function FruitSpawns(evs: seq<Player.PacEvent>): nat
  {
    if |evs| == 0 then 0
    else FruitSpawns(evs[..|evs| - 1]) + (if evs[|evs| - 1] == Player.DotEaten && FruitDue(|evs|) then 1 else 0)
  }

  /** A maze yields at most two fruits: one exactly when its 70th pickup is
      a plain dot, one exactly when its 170th is. A power pellet eaten as
      the 70th or 170th pickup spawns none. */
  lemma {:induction false} TwoFruitsPerMaze(evs: seq<Player.PacEvent>)
    ensures FruitSpawns(evs) == (if |evs| >= 70 && evs[69] == Player.DotEaten then 1 else 0)
                              + (if |evs| >= 170 && evs[169] == Player.DotEaten then 1 else 0)
    ensures FruitSpawns(evs) <= 2
  {
    if |evs| > 0 {
      var init := evs[..|evs| - 1];
      TwoFruitsPerMaze(init);
      assert |init| >= 70 ==> init[69] == evs[69];
      assert |init| >= 170 ==> init[169] == evs[169];
    }
  }

  // ---------------------------------------------------------------------
  // The game object

  /** A fresh level (`_initLevel`): Pac-Man alive on tile (14, 23) heading
      left, no fruit showing, and the four ghosts in the order Blinky, Pinky,
      Inky, Clyde on their start tiles in their start states. */
  ghost predicate LevelStart(pac: Player.PacMan, fruit: Bonus.Fruit, ghosts: seq<Ghosts.Ghost>)
    reads pac, fruit, ghosts
  {
    && pac.Valid() && pac.isAlive && Vec(pac.tileX, pac.tileY) == PacStart && pac.dir == Left
    && fruit.Valid() && !fruit.isActive
    && |ghosts| == 4
    && ghosts[0] != ghosts[1] && ghosts[0] != ghosts[2] && ghosts[0] != ghosts[3]
    && ghosts[1] != ghosts[2] && ghosts[1] != ghosts[3] && ghosts[2] != ghosts[3]
    && AtStart(ghosts[0], 0) && AtStart(ghosts[1], 1) && AtStart(ghosts[2], 2) && AtStart(ghosts[3], 3)
  }


  /** Ghost `g` is the `i`-th of a fresh level: its name, start tile and
      start state. */
  ghost predicate AtStart(g: Ghosts.Ghost, i: nat)
    reads g
    requires i < 4
  {
    && g.Valid() && g.name == GhostNames[i]
    && Vec(g.tileX, g.tileY) == GhostStarts[i]
    && g.state == Ghosts.StartState(GhostNames[i])
  }

  /** Four ghosts, all newly allocated. */
  twostate predicate FreshFour(new ghosts: seq<Ghosts.Ghost>)
  {
    |ghosts| == 4 && fresh(ghosts[0]) && fresh(ghosts[1]) && fresh(ghosts[2]) && fresh(ghosts[3])
  }

  /** `_initLevel`: a new Pac-Man, a new fruit and four new ghosts. */
  method NewLevel() returns (pac: Player.PacMan, fruit: Bonus.Fruit, ghosts: seq<Ghosts.Ghost>)
    ensures fresh(pac) && fresh(fruit) && FreshFour(ghosts)
    ensures LevelStart(pac, fruit, ghosts)
  {
    pac := new Player.PacMan(PacStart.x, PacStart.y);
    fruit := new Bonus.Fruit();
    var blinky := new Ghosts.Ghost(Blinky, GhostStarts[0]);
    var pinky := new Ghosts.Ghost(Pinky, GhostStarts[1]);
    var inky := new Ghosts.Ghost(Inky, GhostStarts[2]);
    var clyde := new Ghosts.Ghost(Clyde, GhostStarts[3]);
    ghosts := [blinky, pinky, inky, clyde];
  }

  /** The maze read from `asciiMaze`, with only what the game's invariant
      needs of it. */
  method LoadMaze(asciiMaze: string) returns (maze: TileMap)
    ensures fresh(maze) && fresh(maze.grid) && maze.Valid()
  {
    maze := new TileMap(asciiMaze);
  }

  /** A dot manager over `maze`, with only what the game's invariant and
      the constructor's promise need of it. */
  method LoadDots(maze: TileMap) returns (dots: Dots.DotManager)
    requires maze.Valid()
    ensures fresh(dots) && fresh(dots.activeDots) && dots.tileMap == maze
    ensures dots.Valid() && dots.FlagsOnPickups()
    ensures dots.dotsEaten == 0 && dots.totalDots == Dots.CountTrue(dots.activeDots[..])
  {
    dots := new Dots.DotManager(maze);
  }

  /** Everything `new Game` builds besides the level: the maze read from
      `asciiMaze`, its dot manager, the score keeper with the stored high
      score, the wave clock and the popups. */
  method NewParts(asciiMaze: string, storedHigh: int)
    returns (maze: TileMap, dots: Dots.DotManager, scores: Scoring.ScoreManager,
             waves: Waves.WaveController, popups: Popups.ParticleSystem)
    ensures fresh(maze) && fresh(maze.grid) && fresh(dots) && fresh(dots.activeDots)
    ensures fresh(scores) && fresh(waves) && fresh(popups)
    ensures maze.Valid() && dots.tileMap == maze && dots.Valid() && dots.FlagsOnPickups()
    ensures dots.dotsEaten == 0 && dots.totalDots == Dots.CountTrue(dots.activeDots[..])
    ensures scores.State() == Scoring.Scores(0, storedHigh, 0, false)
    ensures waves.Valid() && waves.Snapshot() == Waves.InitialClock
    ensures popups.Valid() && popups.particles == []
  {
    maze := LoadMaze(asciiMaze);
    dots := LoadDots(maze);
    scores := new Scoring.ScoreManager(storedHigh);
    waves := new Waves.WaveController();
    popups := new Popups.ParticleSystem();
  }

  class Game {
    const input: Input.InputHandler
    const scoreManager: Scoring.ScoreManager
    const tileMap: TileMap
    const dotManager: Dots.DotManager
    const particleSystem: Popups.ParticleSystem
    var waveController: Waves.WaveController
    var pacman: Player.PacMan
    var fruit: Bonus.Fruit
    var ghosts: seq<Ghosts.Ghost>
    var currentState: Screen
    var lives: int
    var level: int
    var deathTimer: real
    var accumulator: real
    var lastTime: real
    var isRunning: bool
    /** Frightened-window callbacks scheduled by power pellets and not yet run. */
    var pendingTimeouts: nat

    /** Each part the game replaces when a level starts is the one it had
        before, or a newly allocated one. */
    twostate predicate Renewed()
      reads this
    {
      && (waveController == old(waveController) || fresh(waveController))
      && (pacman == old(pacman) || fresh(pacman))
      && (fruit == old(fruit) || fresh(fruit))
      && (ghosts == old(ghosts) || FreshFour(ghosts))
    }

    /** Four distinct, well-formed ghosts. */
    ghost predicate GhostsValid()
      reads this`ghosts, ghosts
    {
      && |ghosts| == 4
      && ghosts[0] != ghosts[1] && ghosts[0] != ghosts[2] && ghosts[0] != ghosts[3]
      && ghosts[1] != ghosts[2] && ghosts[1] != ghosts[3] && ghosts[2] != ghosts[3]
      && ghosts[0].Valid() && ghosts[1].Valid() && ghosts[2].Valid() && ghosts[3].Valid()
    }

    /** The level's actors are well formed, and Pac-Man is alive. */
    ghost predicate LevelValid()
      reads this`pacman, this`fruit, this`ghosts, pacman, fruit, ghosts
    {
      pacman.Valid() && pacman.isAlive && fruit.Valid() && GhostsValid()
    }

    /** The maze is well formed and the dot flags follow it. */
    ghost predicate DotsValid()
      reads tileMap, tileMap.grid, dotManager`tileMap, dotManager`activeDots, dotManager`totalDots, dotManager`dotsEaten, dotManager.activeDots
    {
      tileMap.Valid() && dotManager.tileMap == tileMap && dotManager.Valid() && dotManager.FlagsOnPickups()
    }

    /** Every part is well formed. */
    ghost predicate Valid()
      reads this`waveController, this`pacman, this`fruit, this`ghosts, input`dir, input`p2dir, tileMap, tileMap.grid,
            dotManager`tileMap, dotManager`activeDots, dotManager`totalDots, dotManager`dotsEaten, dotManager.activeDots,
            particleSystem, waveController, pacman, fruit, ghosts
    {
      input.Valid() && DotsValid() && particleSystem.Valid() && waveController.Valid() && LevelValid()
    }

    /** The four ghosts' poses. */
    ghost function Poses(): (ps: seq<Ghosts.Pose>)
      reads this`ghosts, ghosts
      requires |ghosts| == 4
      ensures |ps| == 4 && forall i :: 0 <= i < 4 ==> ps[i] == ghosts[i].Snapshot()
    {
      [ghosts[0].Snapshot(), ghosts[1].Snapshot(), ghosts[2].Snapshot(), ghosts[3].Snapshot()]
    }

    /** The four ghosts' targets. */
    ghost function Targets(): (ts: seq<Vec>)
      reads this`ghosts, ghosts
      requires |ghosts| == 4
      ensures |ts| == 4 && forall i :: 0 <= i < 4 ==> ts[i] == ghosts[i].targetTile
    {
      [ghosts[0].targetTile, ghosts[1].targetTile, ghosts[2].targetTile, ghosts[3].targetTile]
    }

    /** The ghost at `i` is none of the other three. */
    twostate lemma ReplacedOne(i: nat)
      requires old(GhostsValid()) && i < 4 && ghosts == old(ghosts)
      requires forall j :: 0 <= j < 4 && j != i ==> unchanged(ghosts[j])
      ensures Poses() == old(Poses())[i := ghosts[i].Snapshot()] && Targets() == old(Targets())[i := ghosts[i].targetTile]
    {
    }

    lemma OthersDiffer(i: nat)
      requires GhostsValid() && i < 4
      ensures forall j :: 0 <= j < 4 && j != i ==> ghosts[j] != ghosts[i]
    {
    }

    /** What the targeting rules read of the four ghosts. */
    function Views(): (vs: seq<GhostView>)
      reads this`ghosts, ghosts
      requires |ghosts| == 4
      ensures |vs| == 4 && forall i :: 0 <= i < 4 ==> vs[i] == ghosts[i].View()
    {
      [ghosts[0].View(), ghosts[1].View(), ghosts[2].View(), ghosts[3].View()]
    }

    /** The four ghosts' names. */
    function Names(): (ns: seq<GhostName>)
      reads this`ghosts
      requires |ghosts| == 4
      ensures |ns| == 4 && forall i :: 0 <= i < 4 ==> ns[i] == ghosts[i].name
    {
      [ghosts[0].name, ghosts[1].name, ghosts[2].name, ghosts[3].name]
    }

    /** `new Game(canvas, input)` for the maze text `asciiMaze`, with
        `storedHigh` the high score read from storage: BOOT, 3 lives,
        level 1, a full maze, the first wave and a fresh level. */
    constructor (asciiMaze: string, storedHigh: int, handler: Input.InputHandler)
      requires handler.Valid()
      ensures Valid() && input == handler
      ensures LevelStart(pacman, fruit, ghosts)
      ensures currentState == Boot && lives == StartLives && level == 1 && deathTimer == 0.0
      ensures accumulator == 0.0 && lastTime == 0.0 && !isRunning && pendingTimeouts == 0
      ensures scoreManager.State() == Scoring.Scores(0, storedHigh, 0, false)
      ensures dotManager.dotsEaten == 0 && dotManager.totalDots == Dots.CountTrue(dotManager.activeDots[..])
      ensures waveController.Snapshot() == Waves.InitialClock
      ensures particleSystem.particles == []
    {
      var pac, bonus, four := NewLevel();
      var maze, dots, scores, waves, popups := NewParts(asciiMaze, storedHigh);
      input := handler;
      tileMap, dotManager, scoreManager := maze, dots, scores;
      waveController, particleSystem := waves, popups;
      currentState := Boot;
      lives, level, deathTimer := StartLives, 1, 0.0;
      accumulator, lastTime, isRunning := 0.0, 0.0, false;
      pendingTimeouts := 0;
      pacman, fruit, ghosts := pac, bonus, four;
    }

    /** `changeState(newState)`: entering LEVEL_INTRO or PLAYER_DEATH restarts
        the screen timer; entering LEVEL_INTRO, GAME_OVER or VICTORY drops
        any latched tap or key. */
    method ChangeState(newState: Screen)
      modifies this`currentState, this`deathTimer, input`pausePressed, input`actionPressed
      ensures currentState == newState
      ensures deathTimer == (if newState == LevelIntro || newState == PlayerDeath then 0.0 else old(deathTimer))
      ensures FlushesInput(newState) ==> !input.pausePressed && !input.actionPressed
      ensures !FlushesInput(newState) ==>
                input.pausePressed == old(input.pausePressed) && input.actionPressed == old(input.actionPressed)
    {
      if newState == PlayerDeath {
        EnterDeath();
        return;
      }
      currentState := newState;
      if newState == LevelIntro {
        deathTimer := 0.0;
        var action := input.ConsumeAction();
        var pause := input.ConsumePause();
      } else if newState == GameOver || newState == Victory {
        var action := input.ConsumeAction();
        var pause := input.ConsumePause();
      }
    }

    /** `changeState(PLAYER_DEATH)`: the screen timer restarts, and the
        input is not touched. */
    method EnterDeath()
      modifies this`currentState, this`deathTimer
      ensures currentState == PlayerDeath && deathTimer == 0.0
    {
      currentState := PlayerDeath;
      deathTimer := 0.0;
    }

    /** `start()` at time `now`: running, and into the level intro. */
    method Start(now: real)
      modifies this`isRunning, this`lastTime, this`currentState, this`deathTimer, input`pausePressed, input`actionPressed
      ensures isRunning && lastTime == now && currentState == LevelIntro && deathTimer == 0.0
      ensures !input.pausePressed && !input.actionPressed
    {
      isRunning := true;
      lastTime := now;
      ChangeState(LevelIntro);
    }

    /** `loop(time)`: feed the clamped frame time into the accumulator and
        run one `update` per whole fixed step in it (RunSteps); `roll(k, i)`
        is the random draw of ghost `i` in the `k`-th of those steps. */
    method Loop(time: real, roll: (nat, nat) -> nat) returns (steps: nat)
      requires Valid()
      modifies this`accumulator, this`lastTime, this`deathTimer, this`lives, this`level, this`currentState, this`pendingTimeouts, this`waveController,
               this`pacman, this`fruit, this`ghosts, input`pausePressed, input`actionPressed, scoreManager,
               dotManager`tileMap, dotManager`totalDots, dotManager`dotsEaten, dotManager`flashTimer, dotManager`pelletVisible,
               dotManager.activeDots, particleSystem, waveController, pacman, fruit, ghosts[0], ghosts[1], ghosts[2], ghosts[3]
      ensures !old(isRunning) ==> steps == 0 && accumulator == old(accumulator) && lastTime == old(lastTime)
      ensures old(isRunning) ==>
                var total := old(accumulator) + FrameTime(time, old(lastTime));
                && lastTime == time
                && accumulator == total - steps as real * FixedDeltaTime
                && accumulator < FixedDeltaTime
                && (total >= 0.0 ==> accumulator >= 0.0)
    {
      steps := 0;
      if !isRunning {
        return;
      }
      var total := accumulator + FrameTime(time, lastTime);
      lastTime := time;
      var rest;
      steps, rest := StepsOf(total, roll);
      accumulator := rest;
    }

    /** RunSteps, seen from `loop`: only what it leaves of the accumulated
        time. */
    method StepsOf(acc: real, roll: (nat, nat) -> nat) returns (steps: nat, rest: real)
      requires Valid()
      modifies this`deathTimer, this`lives, this`level, this`currentState, this`pendingTimeouts, this`waveController,
               this`pacman, this`fruit, this`ghosts, input`pausePressed, input`actionPressed, scoreManager,
               dotManager`tileMap, dotManager`totalDots, dotManager`dotsEaten, dotManager`flashTimer, dotManager`pelletVisible,
               dotManager.activeDots, particleSystem, waveController, pacman, fruit, ghosts[0], ghosts[1], ghosts[2], ghosts[3]
      ensures rest == acc - steps as real * FixedDeltaTime
      ensures rest < FixedDeltaTime
      ensures acc >= 0.0 ==> rest >= 0.0
    {
      steps, rest := RunSteps(acc, roll);
    }

    /** The fixed-step loop of `loop` over the accumulated time `acc`: one
        `update` per whole step in it, each taking its step out of it.
        `update` never reads the accumulator, so the running value is kept
        in a local here and stored by `loop` once the steps are done. */
    method RunSteps(acc: real, roll: (nat, nat) -> nat) returns (steps: nat, rest: real)
      requires Valid()
      modifies this`deathTimer, this`lives, this`level, this`currentState, this`pendingTimeouts, this`waveController,
               this`pacman, this`fruit, this`ghosts, input`pausePressed, input`actionPressed, scoreManager,
               dotManager`tileMap, dotManager`totalDots, dotManager`dotsEaten, dotManager`flashTimer, dotManager`pelletVisible,
               dotManager.activeDots, particleSystem, waveController, pacman, fruit, ghosts[0], ghosts[1], ghosts[2], ghosts[3]
      ensures Valid() && Renewed()
      ensures rest == acc - steps as real * FixedDeltaTime
      ensures rest < FixedDeltaTime
      ensures acc >= 0.0 ==> rest >= 0.0
    {
      steps, rest := 0, acc;
      while rest >= FixedDeltaTime
        invariant Valid() && Renewed()
        invariant rest == acc - steps as real * FixedDeltaTime
        invariant steps > 0 ==> rest >= 0.0
        decreases (rest * 60.0).Floor
      {
        var k := steps;
        Update(FixedDeltaTime, i => roll(k, i));
        rest := rest - FixedDeltaTime;
        steps := steps + 1;
      }
    }

    /** `update(dt)`, with `roll(i)` the random draw of ghost `i`: the pause
        check, then the step of the current screen. */
    method Update(dt: real, roll: nat -> nat)
      requires Valid()
      modifies this`deathTimer, this`lives, this`level, this`currentState, this`pendingTimeouts, this`waveController,
               this`pacman, this`fruit, this`ghosts, input`pausePressed, input`actionPressed, scoreManager,
               dotManager`tileMap, dotManager`totalDots, dotManager`dotsEaten, dotManager`flashTimer, dotManager`pelletVisible,
               dotManager.activeDots, particleSystem, waveController, pacman, fruit, ghosts[0], ghosts[1], ghosts[2], ghosts[3]
      ensures Valid() && Renewed()
      ensures old(currentState) in {Boot, TitleScreen, ModeSelect} ==> currentState == old(currentState) && lives == old(lives)
      ensures currentState == Paused ==> old(currentState) == Playing || old(currentState) == Paused
      ensures old(currentState) == Paused && !old(input.pausePressed) ==> currentState == Paused && lives == old(lives)
    {
      PauseCheck();
      assert lives == old(lives);
      label Checked:
      ScreenStep(dt, roll);
      assert waveController == old(waveController) || fresh@Checked(waveController);
      assert pacman == old(pacman) || fresh@Checked(pacman);
      assert fruit == old(fruit) || fresh@Checked(fruit);
      assert ghosts == old(ghosts) || FreshFour@Checked(ghosts);
    }

    /** The pause check at the head of `update`: only PLAYING and PAUSED
        consume a latched pause, and it toggles between the two. */
    method PauseCheck()
      requires Valid()
      modifies this`currentState, this`deathTimer, input`pausePressed, input`actionPressed
      ensures Valid()
      ensures currentState == PauseToggle(old(currentState), old(input.pausePressed))
      ensures deathTimer == old(deathTimer) && input.actionPressed == old(input.actionPressed)
      ensures old(currentState) == Playing || old(currentState) == Paused ==> !input.pausePressed
      ensures old(currentState) != Playing && old(currentState) != Paused ==> input.pausePressed == old(input.pausePressed)
    {
      if currentState == Playing || currentState == Paused {
        var pressed := input.ConsumePause();
        if pressed {
          if currentState == Playing {
            ChangeState(Paused);
          } else {
            ChangeState(Playing);
          }
        }
      }
    }

    /** The step of the current screen in `update`; PAUSED and the menu
        screens do nothing. */
    method ScreenStep(dt: real, roll: nat -> nat)
      requires Valid()
      modifies this`deathTimer, this`lives, this`level, this`currentState, this`pendingTimeouts, this`waveController,
               this`pacman, this`fruit, this`ghosts, input`pausePressed, input`actionPressed, scoreManager,
               dotManager`tileMap, dotManager`totalDots, dotManager`dotsEaten, dotManager`flashTimer, dotManager`pelletVisible,
               dotManager.activeDots, particleSystem, waveController, pacman, fruit, ghosts[0], ghosts[1], ghosts[2], ghosts[3]
      ensures Valid() && Renewed()
      ensures old(currentState) in {Boot, TitleScreen, ModeSelect, Paused} ==>
                currentState == old(currentState) && lives == old(lives) && input.pausePressed == old(input.pausePressed)
      ensures currentState == Paused ==> old(currentState) == Paused
    {
      match currentState {
        case LevelIntro => IntroTick(dt);
        case Playing => PlayingTick(dt, roll);
        case PlayerDeath => EndStep(dt);
        case GameOver => EndStep(dt);
        case Victory => EndStep(dt);
        case _ =>
      }
    }

    /** The screens after play: the death animation, and the wait for a
        restart key. */
    method EndStep(dt: real)
      requires Valid() && currentState in {PlayerDeath, GameOver, Victory}
      modifies this`deathTimer, this`lives, this`level, this`currentState, this`waveController,
               this`pacman, this`fruit, this`ghosts, pacman`facingAngle, input`pausePressed, input`actionPressed,
               scoreManager`score, dotManager`tileMap, dotManager`totalDots, dotManager`dotsEaten, dotManager.activeDots
      ensures Valid() && Renewed() && currentState != Paused
    {
      if currentState == PlayerDeath {
        DeathStage(dt);
      } else {
        RestartStage();
      }
    }

    /** The LEVEL_INTRO branch. */
    method IntroTick(dt: real)
      requires currentState == LevelIntro
      modifies this`deathTimer, this`currentState
      ensures (deathTimer, currentState) == IntroStep(old(deathTimer), dt)
    {
      deathTimer := deathTimer + dt;
      if deathTimer > IntroSeconds {
        currentState := Playing;
      }
    }

    /** The PLAYING branch: the timers (TimersTick), Pac-Man (PacTick),
        then the ghosts (GhostsTick). */
    method PlayingTick(dt: real, roll: nat -> nat)
      requires Valid() && currentState == Playing
      modifies this`lives, this`currentState, this`deathTimer, this`pendingTimeouts,
               input`pausePressed, input`actionPressed, scoreManager, dotManager`flashTimer, dotManager`pelletVisible,
               dotManager`dotsEaten, dotManager.activeDots, particleSystem, waveController, pacman, fruit, ghosts[0], ghosts[1], ghosts[2], ghosts[3]
      ensures Valid()
      ensures currentState == Playing || currentState == Victory || currentState == PlayerDeath
      ensures lives >= old(lives)
    {
      TimersTick(dt);
      PacTick(dt);
      GhostsTick(dt, roll);
    }

    /** The first part of the PLAYING branch: the pellets' flash, the
        popups, the fruit, and the wave (turning the ghosts round on a
        phase change). */
    method TimersTick(dt: real)
      requires Valid()
      modifies dotManager`flashTimer, dotManager`pelletVisible, particleSystem, fruit, scoreManager, this`lives,
               waveController, ghosts[0], ghosts[1], ghosts[2], ghosts[3]
      ensures Valid() && lives >= old(lives)
    {
      FlashStage(dt);
      FruitStage(dt);
      WaveStage(dt);
    }

    /** The pellets' flash and the popups, seen from the whole game. */
    method FlashStage(dt: real)
      requires Valid()
      modifies dotManager`flashTimer, dotManager`pelletVisible, particleSystem
      ensures Valid()
    {
      dotManager.Update(dt);
      particleSystem.Update(dt);
    }

    /** FruitTick, seen from the whole game. */
    method FruitStage(dt: real)
      requires Valid()
      modifies fruit, scoreManager, this`lives, particleSystem
      ensures Valid() && lives >= old(lives)
    {
      FruitTick(dt);
    }

    /** WaveTick, seen from the whole game. */
    method WaveStage(dt: real)
      requires Valid()
      modifies waveController, ghosts[0], ghosts[1], ghosts[2], ghosts[3]
      ensures Valid() && lives == old(lives)
    {
      WaveTick(dt);
    }

    /** The middle part of the PLAYING branch: Pac-Man's update with the
        held direction, and the handlers of what it ate. */
    method PacTick(dt: real)
      requires Valid() && currentState == Playing
      modifies pacman, dotManager`dotsEaten, dotManager.activeDots, scoreManager, this`lives,
               waveController`isPaused, this`pendingTimeouts, ghosts[0], ghosts[1], ghosts[2], ghosts[3], fruit, this`currentState, this`deathTimer,
               input`pausePressed, input`actionPressed
      ensures Valid() && (currentState == Playing || currentState == Victory) && lives >= old(lives)
    {
      var ev := PacStage(dt);
      if ev == Player.PowerPelletEaten {
        PelletStage();
      } else if ev == Player.DotEaten {
        DotStage();
      }
    }

    /** Pac-Man's update, seen from the whole game. */
    method PacStage(dt: real) returns (ev: Player.PacEvent)
      requires Valid()
      modifies pacman, dotManager`dotsEaten, dotManager.activeDots
      ensures Valid()
    {
      ev := pacman.Update(dt, input.dir, tileMap, dotManager);
    }

    /** OnPowerPelletEaten, seen from the whole game. */
    method PelletStage()
      requires Valid()
      modifies scoreManager, this`lives, waveController`isPaused, this`pendingTimeouts, ghosts[0], ghosts[1], ghosts[2], ghosts[3]
      ensures Valid() && lives >= old(lives)
    {
      OnPowerPelletEaten();
    }

    /** OnDotEaten, seen from the whole game. */
    method DotStage()
      requires Valid() && currentState == Playing
      modifies scoreManager, this`lives, fruit, this`currentState, this`deathTimer, input`pausePressed, input`actionPressed
      ensures Valid() && lives >= old(lives) && (currentState == Playing || currentState == Victory)
    {
      OnDotEaten();
    }

    /** The last part of the PLAYING branch: the house release, then each
        ghost in turn; a catch ends play only if the tick has not already
        been won. */
    method GhostsTick(dt: real, roll: nat -> nat)
      requires Valid() && (currentState == Playing || currentState == Victory)
      modifies ghosts[0], ghosts[1], ghosts[2], ghosts[3], scoreManager, this`lives, particleSystem, this`currentState, this`deathTimer
      ensures Valid() && lives >= old(lives)
      ensures old(currentState) == Victory ==> currentState == Victory
      ensures old(currentState) == Playing ==> currentState == Playing || currentState == PlayerDeath
    {
      ReleaseStage();
      PassStage(dt, roll);
    }

    /** GhostPass, seen from the whole game. */
    method PassStage(dt: real, roll: nat -> nat)
      requires Valid() && (currentState == Playing || currentState == Victory)
      modifies ghosts[0], ghosts[1], ghosts[2], ghosts[3], scoreManager, this`lives, particleSystem, this`currentState, this`deathTimer
      ensures Valid() && lives >= old(lives)
      ensures old(currentState) == Victory ==> currentState == Victory
      ensures old(currentState) == Playing ==> currentState == Playing || currentState == PlayerDeath
    {
      var contacts := PassEffects(dt, roll);
    }

    /** The fruit's update and, when it is eaten, the FRUIT_EATEN handlers:
        its points are scored (an EXTRA_LIFE adds a life) and a popup shows
        them where the fruit was. */
    method FruitTick(dt: real)
      requires fruit.Valid() && particleSystem.Valid()
      modifies fruit, scoreManager, this`lives, particleSystem
      ensures fruit.Valid() && particleSystem.Valid()
      ensures var r := Bonus.Step(old(fruit.State()), dt, pacman.x, pacman.y);
              && fruit.State() == r.0
              && (r.1.Worth? ==>
                    var added := Scoring.Add(old(scoreManager.State()), r.1.points);
                    && scoreManager.State() == added.0
                    && lives == old(lives) + (if added.1 then 1 else 0)
                    && particleSystem.particles
                       == Popups.Pushed(old(particleSystem.particles), Popups.NewPop(Bonus.FruitX, Bonus.FruitY, r.1.points, Popups.Cyan)))
              && (r.1.NoFruit? ==>
                    && scoreManager.State() == old(scoreManager.State()) && lives == old(lives)
                    && particleSystem.particles == old(particleSystem.particles))
    {
      var eaten := fruit.Update(dt, pacman.x, pacman.y);
      if eaten.Some? {
        var extra, popup := scoreManager.OnFruitEaten(eaten.value.x, eaten.value.y, eaten.value.score);
        if extra {
          lives := lives + 1;
        }
        particleSystem.AddPop(popup.x, popup.y, popup.points, Popups.Cyan);
      }
    }

    /** The wave's update and, when its phase changed, the turn of every
        SCATTER or CHASE ghost (see WaveTurn). */
    method WaveTick(dt: real)
      requires waveController.Valid() && GhostsValid()
      modifies waveController, ghosts[0], ghosts[1], ghosts[2], ghosts[3]
      ensures waveController.Valid() && GhostsValid()
      ensures var r := Waves.Tick(old(waveController.Snapshot()), dt);
              && waveController.Snapshot() == r.0
              && forall i :: 0 <= i < 4 ==>
                   && ghosts[i].Snapshot() == (if r.1 then WaveTurn(old(ghosts[i].Snapshot()), r.0.state) else old(ghosts[i].Snapshot()))
                   && ghosts[i].targetTile == old(ghosts[i].targetTile)
    {
      var changed := waveController.Update(dt);
      if changed {
        ReverseOnWaveChange(waveController.GetCurrentState());
      }
    }

    /** The loop over the ghosts on a wave change. */
    method ReverseOnWaveChange(phase: GhostState)
      requires GhostsValid()
      modifies ghosts[0], ghosts[1], ghosts[2], ghosts[3]
      ensures GhostsValid()
      ensures forall i :: 0 <= i < 4 ==>
                ghosts[i].Snapshot() == WaveTurn(old(ghosts[i].Snapshot()), phase) && ghosts[i].targetTile == old(ghosts[i].targetTile)
    {
      ghost var before, targets := Poses(), Targets();
      var i := 0;
      while i < 4
        invariant 0 <= i <= 4 && GhostsValid()
        invariant forall j :: 0 <= j < i ==> ghosts[j].Snapshot() == WaveTurn(before[j], phase)
        invariant forall j :: i <= j < 4 ==> ghosts[j].Snapshot() == before[j]
        invariant forall j :: 0 <= j < 4 ==> ghosts[j].targetTile == targets[j]
      {
        OthersDiffer(i);
        WaveTurnOne(ghosts[i], phase);
        i := i + 1;
      }
    }

    /** One ghost's part of ReverseOnWaveChange. */
    static method WaveTurnOne(g: Ghosts.Ghost, phase: GhostState)
      requires g.Valid()
      modifies g`state, g`dir
      ensures g.Valid() && g.Snapshot() == WaveTurn(old(g.Snapshot()), phase)
    {
      if g.state == Scatter || g.state == Chase {
        NegatedIsDirection(g.dir);
        g.state := phase;
        g.dir := g.dir.Negated();
      }
    }

    /** The POWER_PELLET_EATEN handlers: 50 points and a fresh combo (an
        EXTRA_LIFE adds a life); then the wave pauses, the end of the
        frightened window is scheduled, and every ghost neither EATEN nor
        IDLE is frightened (see Frighten). */
    method OnPowerPelletEaten()
      requires waveController.Valid() && GhostsValid()
      modifies scoreManager, this`lives, waveController`isPaused, this`pendingTimeouts, ghosts[0], ghosts[1], ghosts[2], ghosts[3]
      ensures waveController.Valid() && GhostsValid()
      ensures var added := Scoring.Add(old(scoreManager.State()), Scoring.PowerPelletPoints);
              && scoreManager.State() == added.0.(ghostCombo := 0)
              && lives == old(lives) + (if added.1 then 1 else 0)
      ensures waveController.isPaused && pendingTimeouts == old(pendingTimeouts) + 1
      ensures forall i :: 0 <= i < 4 ==>
                ghosts[i].Snapshot() == Frighten(old(ghosts[i].Snapshot())) && ghosts[i].targetTile == old(ghosts[i].targetTile)
    {
      var extra := scoreManager.OnPowerPelletEaten();
      if extra {
        lives := lives + 1;
      }
      waveController.SetPaused(true);
      pendingTimeouts := pendingTimeouts + 1;
      FrightenAll();
    }

    /** The loop over the ghosts when a power pellet is eaten. */
    method FrightenAll()
      requires GhostsValid()
      modifies ghosts[0], ghosts[1], ghosts[2], ghosts[3]
      ensures GhostsValid()
      ensures forall i :: 0 <= i < 4 ==>
                ghosts[i].Snapshot() == Frighten(old(ghosts[i].Snapshot())) && ghosts[i].targetTile == old(ghosts[i].targetTile)
    {
      ghost var before, targets := Poses(), Targets();
      var i := 0;
      while i < 4
        invariant 0 <= i <= 4 && GhostsValid()
        invariant forall j :: 0 <= j < i ==> ghosts[j].Snapshot() == Frighten(before[j])
        invariant forall j :: i <= j < 4 ==> ghosts[j].Snapshot() == before[j]
        invariant forall j :: 0 <= j < 4 ==> ghosts[j].targetTile == targets[j]
      {
        OthersDiffer(i);
        FrightenOne(i);
        i := i + 1;
      }
    }

    /** The `i`-th ghost's part of FrightenAll. */
    method FrightenOne(i: nat)
      requires GhostsValid() && i < 4
      modifies ghosts[i]
      ensures GhostsValid() && ghosts[i].Snapshot() == Frighten(old(ghosts[i].Snapshot()))
      ensures ghosts[i].targetTile == old(ghosts[i].targetTile)
    {
      OthersDiffer(i);
      FrightenPose(ghosts[i]);
    }

    /** FrightenOne on the pose alone, apart from the tile bookkeeping
        that it leaves as it was. */
    static method FrightenPose(g: Ghosts.Ghost)
      requires IsDirection(g.dir)
      modifies g`state, g`dir
      ensures IsDirection(g.dir) && g.Snapshot() == Frighten(old(g.Snapshot()))
    {
      if g.state != Eaten && g.state != Idle {
        NegatedIsDirection(g.dir);
        g.state := Frightened;
        g.dir := g.dir.Negated();
      }
    }

    /** The callback a power pellet schedules for 6 seconds later: the wave
        resumes, and every FRIGHTENED ghost adopts the wave's phase (see
        Unfrighten). */
    method FrightenedTimeout()
      requires Valid() && pendingTimeouts > 0
      modifies waveController`isPaused, this`pendingTimeouts, ghosts[0], ghosts[1], ghosts[2], ghosts[3]
      ensures Valid()
      ensures !waveController.isPaused && pendingTimeouts == old(pendingTimeouts) - 1
      ensures forall i :: 0 <= i < 4 ==>
                && ghosts[i].Snapshot() == Unfrighten(old(ghosts[i].Snapshot()), waveController.GetCurrentState())
                && ghosts[i].targetTile == old(ghosts[i].targetTile)
    {
      waveController.SetPaused(false);
      pendingTimeouts := pendingTimeouts - 1;
      UnfrightenAll(waveController.GetCurrentState());
    }

    /** The loop over the ghosts when the frightened window ends. */
    method UnfrightenAll(phase: GhostState)
      requires GhostsValid()
      modifies ghosts[0], ghosts[1], ghosts[2], ghosts[3]
      ensures GhostsValid()
      ensures forall i :: 0 <= i < 4 ==>
                ghosts[i].Snapshot() == Unfrighten(old(ghosts[i].Snapshot()), phase) && ghosts[i].targetTile == old(ghosts[i].targetTile)
    {
      ghost var before, targets := Poses(), Targets();
      var i := 0;
      while i < 4
        invariant 0 <= i <= 4 && GhostsValid()
        invariant forall j :: 0 <= j < i ==> ghosts[j].Snapshot() == Unfrighten(before[j], phase)
        invariant forall j :: i <= j < 4 ==> ghosts[j].Snapshot() == before[j]
        invariant forall j :: 0 <= j < 4 ==> ghosts[j].targetTile == targets[j]
      {
        OthersDiffer(i);
        UnfrightenOne(ghosts[i], phase);
        i := i + 1;
      }
    }

    /** One ghost's part of UnfrightenAll. */
    static method UnfrightenOne(g: Ghosts.Ghost, phase: GhostState)
      requires g.Valid()
      modifies g`state
      ensures g.Valid() && g.Snapshot() == Unfrighten(old(g.Snapshot()), phase)
    {
      if g.state == Frightened {
        g.state := phase;
      }
    }

    /** The DOT_EATEN handlers: 10 points (an EXTRA_LIFE adds a life); then
        the level's fruit when this was the 70th or 170th dot, and VICTORY
        when no dot is left. */
    method OnDotEaten()
      requires fruit.Valid()
      modifies scoreManager, this`lives, fruit, this`currentState, this`deathTimer, input`pausePressed, input`actionPressed
      ensures fruit.Valid()
      ensures var added := Scoring.Add(old(scoreManager.State()), Scoring.DotPoints);
              scoreManager.State() == added.0 && lives == old(lives) + (if added.1 then 1 else 0)
      ensures fruit.State() == if FruitDue(dotManager.dotsEaten)
                               then Bonus.FruitState(true, Bonus.MaxTime, Bonus.Worth(Bonus.FruitScore(level)))
                               else old(fruit.State())
      ensures currentState == if dotManager.totalDots - dotManager.dotsEaten == 0 then Victory else old(currentState)
      ensures deathTimer == old(deathTimer)
      ensures dotManager.totalDots - dotManager.dotsEaten == 0 ==> !input.pausePressed && !input.actionPressed
      ensures dotManager.totalDots - dotManager.dotsEaten != 0 ==>
                input.pausePressed == old(input.pausePressed) && input.actionPressed == old(input.actionPressed)
    {
      var extra := scoreManager.OnDotEaten();
      if extra {
        lives := lives + 1;
      }
      if dotManager.dotsEaten == 70 || dotManager.dotsEaten == 170 {
        fruit.Spawn(level);
      }
      if dotManager.totalDots - dotManager.dotsEaten == 0 {
        ChangeState(Victory);
      }
    }

    /** ReleaseFromHouse, seen from the whole game. */
    method ReleaseStage()
      requires Valid()
      modifies ghosts[0], ghosts[1], ghosts[2], ghosts[3]
      ensures Valid()
    {
      ReleaseFromHouse();
    }

    /** The house release (see Release). */
    method ReleaseFromHouse()
      requires GhostsValid()
      modifies ghosts[0], ghosts[1], ghosts[2], ghosts[3]
      ensures GhostsValid()
      ensures forall i :: 0 <= i < 4 ==>
                && ghosts[i].Snapshot() == old(ghosts[i].Snapshot()).(state := Release(i, old(ghosts[i].state), dotManager.dotsEaten))
                && ghosts[i].targetTile == old(ghosts[i].targetTile)
    {
      if ghosts[1].state == Idle {
        ghosts[1].state := LeavingHouse;
      }
      if ghosts[2].state == Idle && dotManager.dotsEaten >= InkyDots {
        ghosts[2].state := LeavingHouse;
      }
      if ghosts[3].state == Idle && dotManager.dotsEaten >= ClydeDots {
        ghosts[3].state := LeavingHouse;
      }
    }

    /** What the game loop relies on of GhostPass: the screen, the score,
        the lives and the popups; the poses and the contacts are in
        `GhostPass`. */
    method PassEffects(dt: real, roll: nat -> nat) returns (contacts: seq<Contact>)
      requires tileMap.Valid() && waveController.Valid() && particleSystem.Valid() && GhostsValid()
      modifies ghosts[0], ghosts[1], ghosts[2], ghosts[3], scoreManager, this`lives, particleSystem, this`currentState, this`deathTimer
      ensures particleSystem.Valid() && GhostsValid()
      ensures |contacts| == 4 && currentState == CaughtAll(old(currentState), contacts)
      ensures old(currentState) == Victory ==> currentState == Victory
      ensures old(currentState) == Playing ==> (currentState == PlayerDeath <==> PacManCaught in contacts)
      ensures old(currentState) == Playing && currentState != PlayerDeath ==> currentState == Playing
      ensures old(currentState) == Playing && currentState == PlayerDeath ==> deathTimer == 0.0
      ensures lives >= old(lives)
      ensures GhostEaten !in contacts ==>
                && scoreManager.State() == old(scoreManager.State()) && lives == old(lives)
                && particleSystem.particles == old(particleSystem.particles)
    {
      contacts := GhostPass(dt, roll);
      FeastCounts(old(scoreManager.State()), old(lives), old(particleSystem.particles), contacts, Poses());
    }

    /** The loop over the ghosts at the end of the PLAYING branch: each in
        turn leaves the doorway and moves (MoveGhost), then meets Pac-Man or
        not (ResolveContact), seeing the ghosts before it already moved;
        `contacts` are the four outcomes in order, the whole pass is Pass
        of the old poses, and the score, the lives and the popups are Feast
        of the contacts. */
    method GhostPass(dt: real, roll: nat -> nat) returns (contacts: seq<Contact>)
      requires tileMap.Valid() && waveController.Valid() && particleSystem.Valid() && GhostsValid()
      modifies ghosts[0], ghosts[1], ghosts[2], ghosts[3], scoreManager, this`lives, particleSystem, this`currentState, this`deathTimer
      ensures particleSystem.Valid() && GhostsValid()
      ensures |contacts| == 4 && currentState == CaughtAll(old(currentState), contacts)
      ensures old(currentState) == Victory ==> currentState == Victory
      ensures old(currentState) == Playing ==> (currentState == PlayerDeath <==> PacManCaught in contacts)
      ensures old(currentState) == Playing && currentState != PlayerDeath ==> currentState == Playing
      ensures old(currentState) == Playing && currentState == PlayerDeath ==> deathTimer == 0.0
      ensures currentState == old(currentState) ==> deathTimer == old(deathTimer)
      ensures (scoreManager.State(), lives, particleSystem.particles)
              == Feast(old(scoreManager.State()), old(lives), old(particleSystem.particles), contacts, Poses())
      ensures (Poses(), Targets(), contacts)
              == Pass(old(Poses()), old(Targets()), Names(), tileMap, pacman.View(), pacman.x, pacman.y, dt, roll,
                      waveController.GetCurrentState(), 4)
      ensures forall j :: 0 <= j < 4 ==>
                var near := PixelDist2(pacman.x, pacman.y, ghosts[j].x, ghosts[j].y) < CatchDistance * CatchDistance;
                && (contacts[j] == PacManCaught <==> (ghosts[j].state == Scatter || ghosts[j].state == Chase) && near)
                && (contacts[j] == GhostEaten ==> ghosts[j].state == Eaten && near)
    {
      ghost var before, targets, names := Poses(), Targets(), Names();
      ghost var pac, px, py, phase := pacman.View(), pacman.x, pacman.y, waveController.GetCurrentState();
      contacts := RunPass(dt, roll, before, targets, names, pac, px, py, phase,
                          old(currentState), old(deathTimer), old(scoreManager.State()), old(lives), old(particleSystem.particles));
      VictoryStands(old(currentState), contacts);
      forall j | 0 <= j < 4 {
        PassCatches(before, targets, names, tileMap, pac, px, py, dt, roll, phase, 4, j);
      }
    }

    /** The loop of GhostPass: the four turns in order, each one PassTurn. */
    method RunPass(dt: real, roll: nat -> nat, ghost before: seq<Ghosts.Pose>, ghost targets: seq<Vec>,
                   ghost names: seq<GhostName>, ghost pac: PacView, ghost px: real, ghost py: real, ghost phase: GhostState,
                   ghost s0: Screen, ghost d0: real, ghost sc0: Scoring.Scores, ghost l0: int,
                   ghost p0: seq<Popups.Particle>) returns (contacts: seq<Contact>)
      requires Progress(0, [], dt, roll, before, targets, names, pac, px, py, phase, s0, d0, sc0, l0, p0)
      requires waveController.Valid() && names == Names()
      requires pac == pacman.View() && px == pacman.x && py == pacman.y && phase == waveController.GetCurrentState()
      modifies ghosts[0], ghosts[1], ghosts[2], ghosts[3], scoreManager, this`lives, particleSystem, this`currentState, this`deathTimer
      ensures Progress(4, contacts, dt, roll, before, targets, names, pac, px, py, phase, s0, d0, sc0, l0, p0)
    {
      contacts := [];
      var i := 0;
      while i < 4
        invariant 0 <= i <= 4
        invariant Progress(i, contacts, dt, roll, before, targets, names, pac, px, py, phase, s0, d0, sc0, l0, p0)
      {
        var c := PassTurn(i, dt, roll, before, targets, names, pac, px, py, phase, contacts, s0, d0, sc0, l0, p0);
        contacts := contacts + [c];
        i := i + 1;
      }
    }

    /** What GhostPass keeps after the turns that gave `contacts`, from a
        start where the screen was `s0`, the timer `d0`, the scores `sc0`,
        the lives `l0` and the popups `p0`: the poses, targets and contacts are those of
        Pass, and the screen, the score, the lives and the popups follow
        the contacts. */
    ghost predicate Progress(i: nat, contacts: seq<Contact>, dt: real, roll: nat -> nat, before: seq<Ghosts.Pose>,
                             targets: seq<Vec>, names: seq<GhostName>, pac: PacView, px: real, py: real, phase: GhostState,
                             s0: Screen, d0: real, sc0: Scoring.Scores, l0: int, p0: seq<Popups.Particle>)
      reads this, ghosts, tileMap, tileMap.grid, scoreManager, particleSystem
    {
      && Tally(i, contacts, s0, d0, sc0, l0, p0) && |before| == 4 && |targets| == 4 && |names| == 4 && tileMap.Valid()
      && (Poses(), Targets(), contacts) == Pass(before, targets, names, tileMap, pac, px, py, dt, roll, phase, i)
    }

    /** What the first `i` turns of a pass have done to the screen, the timer
        (kept unless the screen changed), the score, the lives and the popups. */
    ghost predicate Tally(i: nat, contacts: seq<Contact>, s0: Screen, d0: real, sc0: Scoring.Scores, l0: int, p0: seq<Popups.Particle>)
      reads this, ghosts, scoreManager, particleSystem
    {
      && i <= 4 && |contacts| == i
      && particleSystem.Valid() && GhostsValid()
      && currentState == CaughtAll(s0, contacts)
      && (s0 == Playing && currentState == PlayerDeath ==> deathTimer == 0.0)
      && (currentState == s0 ==> deathTimer == d0)
      && (scoreManager.State(), lives, particleSystem.particles) == Feast(sc0, l0, p0, contacts, Poses())
    }

    /** Turn `i` of GhostPass as turn `i` of Pass. */
    method PassTurn(i: nat, dt: real, roll: nat -> nat, ghost before: seq<Ghosts.Pose>, ghost targets: seq<Vec>,
                    ghost names: seq<GhostName>, ghost pac: PacView, ghost px: real, ghost py: real, ghost phase: GhostState,
                    ghost contacts: seq<Contact>, ghost s0: Screen, ghost d0: real, ghost sc0: Scoring.Scores, ghost l0: int,
                    ghost p0: seq<Popups.Particle>) returns (c: Contact)
      requires Progress(i, contacts, dt, roll, before, targets, names, pac, px, py, phase, s0, d0, sc0, l0, p0)
      requires i < 4 && waveController.Valid() && names == Names()
      requires pac == pacman.View() && px == pacman.x && py == pacman.y && phase == waveController.GetCurrentState()
      modifies ghosts[i], scoreManager, this`lives, particleSystem, this`currentState, this`deathTimer
      ensures Progress(i + 1, contacts + [c], dt, roll, before, targets, names, pac, px, py, phase, s0, d0, sc0, l0, p0)
    {
      ghost var q := Pass(before, targets, names, tileMap, pac, px, py, dt, roll, phase, i);
      ghost var t := GhostTurn(ghosts[i].Snapshot(), ghosts[i].targetTile, ghosts[i].name, tileMap, pacman.View(), pacman.x, pacman.y,
                               Views(), dt, roll(i), waveController.GetCurrentState());
      assert ghosts[i].Snapshot() == q.0[i] && ghosts[i].targetTile == q.1[i] && ghosts[i].name == names[i];
      assert Views() == ViewsOf(names, q.0);
      PassStep(before, targets, names, tileMap, pac, px, py, dt, roll, phase, i, t);
      c := TallyTurn(i, dt, roll(i), Views(), contacts, s0, d0, sc0, l0, p0);
      assert (Poses(), Targets(), contacts + [c]) == Pass(before, targets, names, tileMap, pac, px, py, dt, roll, phase, i + 1);
    }

    /** Turn `i` of a pass, keeping the tally of the turns before it. */
    method TallyTurn(i: nat, dt: real, r: nat, views: seq<GhostView>, ghost contacts: seq<Contact>, ghost s0: Screen, ghost d0: real,
                     ghost sc0: Scoring.Scores, ghost l0: int, ghost p0: seq<Popups.Particle>) returns (c: Contact)
      requires Tally(i, contacts, s0, d0, sc0, l0, p0) && i < 4 && tileMap.Valid() && waveController.Valid()
      modifies ghosts[i], scoreManager, this`lives, particleSystem, this`currentState, this`deathTimer
      ensures Tally(i + 1, contacts + [c], s0, d0, sc0, l0, p0)
      ensures (ghosts[i].Snapshot(), ghosts[i].targetTile, c)
              == old(GhostTurn(ghosts[i].Snapshot(), ghosts[i].targetTile, ghosts[i].name, tileMap, pacman.View(), pacman.x, pacman.y,
                               views, dt, r, waveController.GetCurrentState()))
      ensures Poses() == old(Poses())[i := ghosts[i].Snapshot()] && Targets() == old(Targets())[i := ghosts[i].targetTile]
    {
      ghost var before := Poses();
      c := GhostStep(i, dt, r, views);
      CaughtAllSnoc(s0, contacts, c);
      if s0 == PlayerDeath {
        StaysCaught(contacts);
      }
      FeastFrame(sc0, l0, p0, contacts, before, Poses());
      FeastSnoc(sc0, l0, p0, contacts, c, Poses(), old(scoreManager.State()), old(lives), old(particleSystem.particles),
                scoreManager.State(), lives, particleSystem.particles, ghosts[i].x, ghosts[i].y);
    }

    /** Turn `i` of GhostPass: ghost `i` moves, then meets Pac-Man or not,
        with outcome `c` (GhostTurn); the other ghosts are not touched. */
    method GhostStep(i: nat, dt: real, r: nat, views: seq<GhostView>) returns (c: Contact)
      requires i < 4 && GhostsValid() && tileMap.Valid() && waveController.Valid() && particleSystem.Valid()
      modifies ghosts[i], scoreManager, this`lives, particleSystem, this`currentState, this`deathTimer
      ensures GhostsValid() && particleSystem.Valid()
      ensures (ghosts[i].Snapshot(), ghosts[i].targetTile, c)
              == old(GhostTurn(ghosts[i].Snapshot(), ghosts[i].targetTile, ghosts[i].name, tileMap, pacman.View(), pacman.x, pacman.y,
                               views, dt, r, waveController.GetCurrentState()))
      ensures Poses() == old(Poses())[i := ghosts[i].Snapshot()] && Targets() == old(Targets())[i := ghosts[i].targetTile]
      ensures currentState == CaughtScreen(old(currentState), c)
      ensures c == GhostEaten ==>
                var e := Scoring.EatGhost(old(scoreManager.State()));
                && scoreManager.State() == e.0
                && lives == old(lives) + (if e.1 then 1 else 0)
                && particleSystem.particles
                   == Popups.Pushed(old(particleSystem.particles), Popups.NewPop(ghosts[i].x, ghosts[i].y, e.2, Popups.Cyan))
      ensures c != GhostEaten ==>
                && scoreManager.State() == old(scoreManager.State()) && lives == old(lives)
                && particleSystem.particles == old(particleSystem.particles)
      ensures currentState == PlayerDeath && old(currentState) != PlayerDeath ==> deathTimer == 0.0
      ensures currentState == old(currentState) ==> deathTimer == old(deathTimer)
      ensures lives >= old(lives)
    {
      OthersDiffer(i);
      MoveGhost(ghosts[i], dt, r, pacman.View(), views, waveController.GetCurrentState());
      c := ResolveContact(ghosts[i]);
      ReplacedOne(i);
    }

    /** A ghost's move in the PLAYING branch (see GhostMove): leaving the
        doorway, then the ghost's own update, against Pac-Man and the ghosts
        as they stood before it. */
    method MoveGhost(g: Ghosts.Ghost, dt: real, r: nat, pac: PacView, views: seq<GhostView>, phase: GhostState)
      requires g.Valid() && tileMap.Valid()
      modifies g
      ensures g.Valid()
      ensures (g.Snapshot(), g.targetTile) == old(GhostMove(g.Snapshot(), g.targetTile, g.name, tileMap, pac, views, dt, r, phase))
    {
      ghost var want := GhostMove(g.Snapshot(), g.targetTile, g.name, tileMap, pac, views, dt, r, phase);
      if g.state == JustLeftHouse {
        g.state := phase;
      }
      if g.state != Idle {
        ghost var next := Ghosts.NextTarget(g.state, g.targetTile, g.name, Vec(g.tileX, g.tileY), pac, views);
        assert want == (Ghosts.Advance(g.Snapshot(), tileMap, next, Ghosts.Speed(g.state, tileMap.GetTile(g.tileX, g.tileY), dt), r), next);
      }
      g.Update(dt, tileMap, pac, views, r);
    }

    /** The collision check for ghost `g` after its move (see Collide): an
        eaten ghost is scored through the GHOST_EATEN handler (an EXTRA_LIFE
        adds a life) with a popup where it was, and a catch ends play (see
        CaughtScreen). */
    method ResolveContact(g: Ghosts.Ghost) returns (c: Contact)
      requires g.Valid() && particleSystem.Valid()
      modifies g`state, scoreManager, this`lives, particleSystem, this`currentState, this`deathTimer
      ensures g.Valid() && particleSystem.Valid()
      ensures var hit := Collide(old(g.state), PixelDist2(pacman.x, pacman.y, g.x, g.y));
              g.state == hit.0 && c == hit.1
      ensures currentState == CaughtScreen(old(currentState), c)
      ensures c == GhostEaten ==>
                var e := Scoring.EatGhost(old(scoreManager.State()));
                && scoreManager.State() == e.0
                && lives == old(lives) + (if e.1 then 1 else 0)
                && particleSystem.particles == Popups.Pushed(old(particleSystem.particles), Popups.NewPop(g.x, g.y, e.2, Popups.Cyan))
      ensures c != GhostEaten ==>
                && scoreManager.State() == old(scoreManager.State()) && lives == old(lives)
                && particleSystem.particles == old(particleSystem.particles)
      ensures currentState == PlayerDeath && old(currentState) != PlayerDeath ==> deathTimer == 0.0
      ensures currentState == old(currentState) ==> deathTimer == old(deathTimer)
    {
      c := NoContact;
      if PixelDist2(pacman.x, pacman.y, g.x, g.y) < CatchDistance * CatchDistance {
        if g.state == Frightened {
          g.state := Eaten;
          c := GhostEaten;
          var extra, popup := scoreManager.OnGhostEaten(g.x, g.y);
          if extra {
            lives := lives + 1;
          }
          particleSystem.AddPop(popup.x, popup.y, popup.points, Popups.Cyan);
        } else if g.state == Chase || g.state == Scatter {
          c := PacManCaught;
          if currentState == Playing {
            EnterDeath();
          }
        }
      }
    }

    /** The PLAYER_DEATH branch (see DeathStep): Pac-Man spins, and a
        respawn starts a fresh level. */
    method DeathTick(dt: real)
      requires LevelValid() && currentState == PlayerDeath
      modifies this`deathTimer, this`lives, this`currentState, this`pacman, this`fruit, this`ghosts,
               pacman`facingAngle, input`pausePressed, input`actionPressed
      ensures LevelValid() && Renewed()
      ensures var r := DeathStep(old(deathTimer), old(lives), dt);
              && deathTimer == r.timer && lives == r.lives && currentState == r.screen
              && (r.spin ==> pacman.facingAngle == old(pacman.facingAngle) + SpinSpeed * dt)
              && (!r.spin ==> old(pacman).facingAngle == old(pacman.facingAngle))
              && (r.screen != Playing ==> pacman == old(pacman) && fruit == old(fruit) && ghosts == old(ghosts))
              && (r.screen == Playing ==> fresh(pacman) && fresh(fruit) && FreshFour(ghosts) && LevelStart(pacman, fruit, ghosts))
              && (r.screen == GameOver ==> !input.pausePressed && !input.actionPressed)
              && (r.screen != GameOver ==>
                    input.pausePressed == old(input.pausePressed) && input.actionPressed == old(input.actionPressed))
    {
      deathTimer := deathTimer + dt;
      if deathTimer < SpinSeconds {
        pacman.facingAngle := pacman.facingAngle + SpinSpeed * dt;
      } else if deathTimer > DeathSeconds {
        LoseLife();
      }
    }

    /** The end of the death animation: a life is taken, then a fresh level
        in PLAYING while one remains, or GAME_OVER with the latches dropped. */
    method LoseLife()
      requires LevelValid()
      modifies this`lives, this`currentState, this`deathTimer, this`pacman, this`fruit, this`ghosts, input`pausePressed, input`actionPressed
      ensures LevelValid() && lives == old(lives) - 1 && deathTimer == old(deathTimer)
      ensures currentState == (if lives >= 0 then Playing else GameOver)
      ensures lives >= 0 ==> fresh(pacman) && fresh(fruit) && FreshFour(ghosts) && LevelStart(pacman, fruit, ghosts)
      ensures lives >= 0 ==> input.pausePressed == old(input.pausePressed) && input.actionPressed == old(input.actionPressed)
      ensures lives < 0 ==> pacman == old(pacman) && fruit == old(fruit) && ghosts == old(ghosts)
      ensures lives < 0 ==> !input.pausePressed && !input.actionPressed
    {
      lives := lives - 1;
      if lives >= 0 {
        Respawn();
      } else {
        ChangeState(GameOver);
      }
    }

    /** EnterLevel(PLAYING), seen from the death animation. */
    method Respawn()
      modifies this`pacman, this`fruit, this`ghosts, this`currentState, this`deathTimer, input`pausePressed, input`actionPressed
      ensures LevelValid() && currentState == Playing && deathTimer == old(deathTimer)
      ensures fresh(pacman) && fresh(fruit) && FreshFour(ghosts) && LevelStart(pacman, fruit, ghosts)
      ensures input.pausePressed == old(input.pausePressed) && input.actionPressed == old(input.actionPressed)
    {
      EnterLevel(Playing);
    }

    /** DeathTick, seen from the whole game. */
    method DeathStage(dt: real)
      requires Valid() && currentState == PlayerDeath
      modifies this`deathTimer, this`lives, this`currentState, this`pacman, this`fruit, this`ghosts,
               pacman`facingAngle, input`pausePressed, input`actionPressed
      ensures Valid() && Renewed() && currentState != Paused
    {
      DeathTick(dt);
    }

    /** `_initLevel()` followed by `changeState(next)`: a fresh level, entered
        in the given screen. */
    method EnterLevel(next: Screen)
      modifies this`pacman, this`fruit, this`ghosts, this`currentState, this`deathTimer, input`pausePressed, input`actionPressed
      ensures LevelValid() && currentState == next
      ensures deathTimer == (if next == LevelIntro || next == PlayerDeath then 0.0 else old(deathTimer))
      ensures FlushesInput(next) ==> !input.pausePressed && !input.actionPressed
      ensures !FlushesInput(next) ==>
                input.pausePressed == old(input.pausePressed) && input.actionPressed == old(input.actionPressed)
      ensures fresh(pacman) && fresh(fruit) && FreshFour(ghosts) && LevelStart(pacman, fruit, ghosts)
    {
      pacman, fruit, ghosts := NewLevel();
      ChangeState(next);
    }

    /** The GAME_OVER and VICTORY branch: a latched action, or else a latched
        pause, starts a new game; without one nothing but the latches changes. */
    method RestartStage()
      requires Valid() && (currentState == GameOver || currentState == Victory)
      modifies this`lives, this`level, this`waveController, this`pacman, this`fruit, this`ghosts, this`currentState,
               this`deathTimer, input`pausePressed, input`actionPressed, scoreManager`score,
               dotManager`tileMap, dotManager`totalDots, dotManager`dotsEaten, dotManager.activeDots
      ensures Valid() && Renewed() && currentState != Paused
    {
      var pressed := RestartKey();
      if pressed {
        Renew();
      }
    }

    /** `input.consumeAction() || input.consumePause()`: the pause latch is
        consumed only when no action was latched. */
    method RestartKey() returns (pressed: bool)
      modifies input`pausePressed, input`actionPressed
      ensures pressed == old(input.actionPressed || input.pausePressed)
      ensures !input.actionPressed
      ensures input.pausePressed == (old(input.actionPressed) && old(input.pausePressed))
    {
      pressed := input.ConsumeAction();
      if !pressed {
        pressed := input.ConsumePause();
      }
    }

    /** Restart, reduced to what the whole game's invariant needs. */
    method Renew()
      requires DotsValid()
      modifies this`lives, this`level, this`waveController, this`pacman, this`fruit, this`ghosts, this`currentState,
               this`deathTimer, input`pausePressed, input`actionPressed, scoreManager`score,
               dotManager`tileMap, dotManager`totalDots, dotManager`dotsEaten, dotManager.activeDots
      ensures DotsValid() && waveController.Valid() && LevelValid() && currentState == LevelIntro
      ensures Renewed()
    {
      Restart();
    }

    /** The new game started from GAME_OVER or VICTORY: 3 lives, level 1,
        score 0 (the high score, the combo and the extra-life flag are kept),
        a full maze, a new wave schedule and a fresh level, in LEVEL_INTRO. */
    method Restart()
      requires DotsValid()
      modifies this`lives, this`level, this`waveController, this`pacman, this`fruit, this`ghosts, this`currentState,
               this`deathTimer, input`pausePressed, input`actionPressed, scoreManager`score,
               dotManager`tileMap, dotManager`totalDots, dotManager`dotsEaten, dotManager.activeDots
      ensures DotsValid() && waveController.Valid() && LevelValid()
      ensures !input.pausePressed && !input.actionPressed
      ensures currentState == LevelIntro && deathTimer == 0.0 && lives == StartLives && level == 1
      ensures scoreManager.State() == old(scoreManager.State()).(score := 0)
      ensures dotManager.activeDots[..] == Dots.InitialFlags(tileMap.grid[..], dotManager.activeDots.Length)
      ensures dotManager.dotsEaten == 0
      ensures fresh(waveController) && waveController.Snapshot() == Waves.InitialClock
      ensures fresh(pacman) && fresh(fruit) && FreshFour(ghosts) && LevelStart(pacman, fruit, ghosts)
    {
      NewRun();
      EnterLevel(LevelIntro);
    }

    /** The counters, the maze and the wave schedule of a new game. */
    method NewRun()
      requires DotsValid()
      modifies this`lives, this`level, this`waveController, scoreManager`score,
               dotManager`tileMap, dotManager`totalDots, dotManager`dotsEaten, dotManager.activeDots
      ensures DotsValid() && waveController.Valid()
      ensures lives == StartLives && level == 1
      ensures scoreManager.State() == old(scoreManager.State()).(score := 0)
      ensures dotManager.activeDots[..] == Dots.InitialFlags(tileMap.grid[..], dotManager.activeDots.Length)
      ensures dotManager.dotsEaten == 0
      ensures fresh(waveController) && waveController.Snapshot() == Waves.InitialClock
    {
      lives := StartLives;
      level := 1;
      scoreManager.score := 0;
      dotManager.Reset(tileMap);
      waveController := new Waves.WaveController();
    }
  }

  /** A ghost's move in the PLAYING branch as a value, from its pose and
      target: a ghost that has just left the house first adopts the wave's
      `phase`; then `update`, which leaves an IDLE ghost alone and otherwise
      retargets and advances it. */
  function GhostMove(p: Ghosts.Pose, target: Vec, name: GhostName, m: TileMap, pac: PacView, views: seq<GhostView>,
                     dt: real, roll: nat, phase: GhostState): (r: (Ghosts.Pose, Vec))
    reads m, m.grid
    requires m.Valid()
  {
    var s := Doorway(p.state, phase);
    if s == Idle then (p.(state := s), target)
    else
      var t := Ghosts.NextTarget(s, target, name, Vec(p.tileX, p.tileY), pac, views);
      (Ghosts.Advance(p.(state := s), m, t, Ghosts.Speed(s, m.GetTile(p.tileX, p.tileY), dt), roll), t)
  }

  /** One ghost's turn of the ghost loop as a value: its move (GhostMove),
      then the collision check against Pac-Man standing at (`px`, `py`)
      (Collide). Returns the new pose, the new target and the contact. */
  function GhostTurn(p: Ghosts.Pose, target: Vec, name: GhostName, m: TileMap, pac: PacView, px: real, py: real,
                     views: seq<GhostView>, dt: real, roll: nat, phase: GhostState): (Ghosts.Pose, Vec, Contact)
    reads m, m.grid
    requires m.Valid()
  {
    var mv := GhostMove(p, target, name, m, pac, views, dt, roll, phase);
    var hit := Collide(mv.0.state, PixelDist2(px, py, mv.0.x, mv.0.y));
    (mv.0.(state := hit.0), mv.1, hit.1)
  }

  /** What a turn decides: the collision check changes only the moved
      ghost's state; Pac-Man is caught exactly when the ghost ends its move
      in SCATTER or CHASE closer than 6 pixels, and the ghost is eaten
      exactly when it ends its move FRIGHTENED that close, and is then
      EATEN. */
  lemma TurnOutcome(p: Ghosts.Pose, target: Vec, name: GhostName, m: TileMap, pac: PacView, px: real, py: real,
                    views: seq<GhostView>, dt: real, roll: nat, phase: GhostState)
    requires m.Valid()
    ensures var mv := GhostMove(p, target, name, m, pac, views, dt, roll, phase);
            var t := GhostTurn(p, target, name, m, pac, px, py, views, dt, roll, phase);
            var near := PixelDist2(px, py, t.0.x, t.0.y) < CatchDistance * CatchDistance;
            && t.0 == mv.0.(state := t.0.state) && t.1 == mv.1
            && (t.2 == PacManCaught <==> (t.0.state == Scatter || t.0.state == Chase) && near)
            && (t.2 == GhostEaten <==> mv.0.state == Frightened && near)
            && (t.2 == GhostEaten ==> t.0.state == Eaten)
            && (t.2 != GhostEaten ==> t.0 == mv.0)
  {
  }

  /** What the targeting rules read of ghosts with these names and poses. */
  function ViewsOf(names: seq<GhostName>, ps: seq<Ghosts.Pose>): seq<GhostView>
    requires |names| == |ps|
  {
    seq(|ps|, k requires 0 <= k < |ps| => GhostView(names[k], ps[k].Tile()))
  }

  /** The first `n` turns of the ghost loop as a value, from the poses `ps`
      and targets `ts` the ghosts had before it (see Turn). Returns the
      poses, the targets and the contacts. */
  function Pass(ps: seq<Ghosts.Pose>, ts: seq<Vec>, names: seq<GhostName>, m: TileMap, pac: PacView, px: real, py: real,
                dt: real, roll: nat -> nat, phase: GhostState, n: nat): (r: (seq<Ghosts.Pose>, seq<Vec>, seq<Contact>))
    reads m, m.grid
    requires m.Valid() && |ts| == |ps| && |names| == |ps| && n <= |ps|
    ensures |r.0| == |ps| && |r.1| == |ps| && |r.2| == n
    decreases n, 0
  {
    if n == 0 then (ps, ts, [])
    else
      var r := Pass(ps, ts, names, m, pac, px, py, dt, roll, phase, n - 1);
      var t := Turn(ps, ts, names, m, pac, px, py, dt, roll, phase, n - 1);
      (r.0[n - 1 := t.0], r.1[n - 1 := t.1], r.2 + [t.2])
  }

  /** Turn `k` of the ghost loop: ghost `k` moves from where the first `k`
      turns left it (GhostTurn), seeing the ghosts before it where their
      turns left them and the others where they stood. */
  function Turn(ps: seq<Ghosts.Pose>, ts: seq<Vec>, names: seq<GhostName>, m: TileMap, pac: PacView, px: real, py: real,
                dt: real, roll: nat -> nat, phase: GhostState, k: nat): (Ghosts.Pose, Vec, Contact)
    reads m, m.grid
    requires m.Valid() && |ts| == |ps| && |names| == |ps| && k < |ps|
    decreases k, 1
  {
    var q := Pass(ps, ts, names, m, pac, px, py, dt, roll, phase, k);
    GhostTurn(q.0[k], q.1[k], names[k], m, pac, px, py, ViewsOf(names, q.0), dt, roll(k), phase)
  }

  /** One more turn of the loop, unfolded. */
  lemma PassStep(ps: seq<Ghosts.Pose>, ts: seq<Vec>, names: seq<GhostName>, m: TileMap, pac: PacView, px: real, py: real,
                 dt: real, roll: nat -> nat, phase: GhostState, n: nat, t: (Ghosts.Pose, Vec, Contact))
    requires m.Valid() && |ts| == |ps| && |names| == |ps| && n < |ps|
    requires var q := Pass(ps, ts, names, m, pac, px, py, dt, roll, phase, n);
             t == GhostTurn(q.0[n], q.1[n], names[n], m, pac, px, py, ViewsOf(names, q.0), dt, roll(n), phase)
    ensures var q := Pass(ps, ts, names, m, pac, px, py, dt, roll, phase, n);
            Pass(ps, ts, names, m, pac, px, py, dt, roll, phase, n + 1) == (q.0[n := t.0], q.1[n := t.1], q.2 + [t.2])
  {
  }

  /** The ghosts whose turn has not come yet are where they stood. */
  lemma {:induction false} PassKeepsLater(ps: seq<Ghosts.Pose>, ts: seq<Vec>, names: seq<GhostName>, m: TileMap, pac: PacView,
                                          px: real, py: real, dt: real, roll: nat -> nat, phase: GhostState, n: nat)
    requires m.Valid() && |ts| == |ps| && |names| == |ps| && n <= |ps|
    ensures var r := Pass(ps, ts, names, m, pac, px, py, dt, roll, phase, n);
            r.0[n..] == ps[n..] && r.1[n..] == ts[n..]
    decreases n
  {
    if n > 0 {
      PassKeepsLater(ps, ts, names, m, pac, px, py, dt, roll, phase, n - 1);
      var q := Pass(ps, ts, names, m, pac, px, py, dt, roll, phase, n - 1);
      var r := Pass(ps, ts, names, m, pac, px, py, dt, roll, phase, n);
      assert r.0[n..] == q.0[n..] && r.1[n..] == q.1[n..];
    }
  }

  /** Later turns leave the ghosts before them alone: after `n` turns the
      first `j` ghosts are where the first `j` turns left them. */
  lemma {:induction false} PassKeepsEarlier(ps: seq<Ghosts.Pose>, ts: seq<Vec>, names: seq<GhostName>, m: TileMap, pac: PacView,
                                            px: real, py: real, dt: real, roll: nat -> nat, phase: GhostState, n: nat, j: nat)
    requires m.Valid() && |ts| == |ps| && |names| == |ps| && j <= n <= |ps|
    ensures Pass(ps, ts, names, m, pac, px, py, dt, roll, phase, n).0[..j]
            == Pass(ps, ts, names, m, pac, px, py, dt, roll, phase, j).0[..j]
    decreases n
  {
    if j < n {
      PassKeepsEarlier(ps, ts, names, m, pac, px, py, dt, roll, phase, n - 1, j);
      var q := Pass(ps, ts, names, m, pac, px, py, dt, roll, phase, n - 1);
      var r := Pass(ps, ts, names, m, pac, px, py, dt, roll, phase, n);
      assert r.0[..j] == q.0[..j];
    }
  }

  /** After `n` turns, ghost `j < n` holds the pose, the target and the
      contact its own turn gave it. */
  lemma {:induction false} PassHoldsTurn(ps: seq<Ghosts.Pose>, ts: seq<Vec>, names: seq<GhostName>, m: TileMap, pac: PacView,
                                         px: real, py: real, dt: real, roll: nat -> nat, phase: GhostState, n: nat, j: nat)
    requires m.Valid() && |ts| == |ps| && |names| == |ps| && j < n <= |ps|
    ensures var r := Pass(ps, ts, names, m, pac, px, py, dt, roll, phase, n);
            (r.0[j], r.1[j], r.2[j]) == Turn(ps, ts, names, m, pac, px, py, dt, roll, phase, j)
    decreases n
  {
    if j < n - 1 {
      PassHoldsTurn(ps, ts, names, m, pac, px, py, dt, roll, phase, n - 1, j);
      var q := Pass(ps, ts, names, m, pac, px, py, dt, roll, phase, n - 1);
      var r := Pass(ps, ts, names, m, pac, px, py, dt, roll, phase, n);
      assert r.2[j] == q.2[j];
    }
  }

  /** Every turn of the loop is a GhostTurn: after `n` turns, ghost `j < n`
      holds the pose, the target and the contact of its own turn, taken from
      where it stood and seeing the ghosts before it moved, the rest not. */
  lemma PassTurns(ps: seq<Ghosts.Pose>, ts: seq<Vec>, names: seq<GhostName>, m: TileMap, pac: PacView,
                  px: real, py: real, dt: real, roll: nat -> nat, phase: GhostState, n: nat, j: nat)
    requires m.Valid() && |ts| == |ps| && |names| == |ps| && j < n <= |ps|
    ensures var r := Pass(ps, ts, names, m, pac, px, py, dt, roll, phase, n);
            var seen := Pass(ps, ts, names, m, pac, px, py, dt, roll, phase, j).0;
            && seen == r.0[..j] + ps[j..]
            && (r.0[j], r.1[j], r.2[j]) == GhostTurn(ps[j], ts[j], names[j], m, pac, px, py, ViewsOf(names, seen), dt, roll(j), phase)
  {
    var q := Pass(ps, ts, names, m, pac, px, py, dt, roll, phase, j);
    PassHoldsTurn(ps, ts, names, m, pac, px, py, dt, roll, phase, n, j);
    PassKeepsLater(ps, ts, names, m, pac, px, py, dt, roll, phase, j);
    PassKeepsEarlier(ps, ts, names, m, pac, px, py, dt, roll, phase, n, j);
    assert q.0[j] == ps[j] && q.1[j] == ts[j];
    PrefixOfUpdate(q.0, ps, j);
  }

  /** Before turn `j`, the poses are the moved prefix and the untouched rest. */
  lemma PrefixOfUpdate(qs: seq<Ghosts.Pose>, ps: seq<Ghosts.Pose>, j: nat)
    requires |qs| == |ps| && j < |ps| && qs[j..] == ps[j..]
    ensures qs == qs[..j] + ps[j..]
  {
    assert qs == qs[..j] + qs[j..];
  }

  /** What the loop decides for each ghost: Pac-Man is caught at turn `j`
      exactly when ghost `j` ends its turn in SCATTER or CHASE closer than
      6 pixels, and it is eaten exactly when it ends its turn EATEN having
      moved FRIGHTENED that close. */
  lemma PassCatches(ps: seq<Ghosts.Pose>, ts: seq<Vec>, names: seq<GhostName>, m: TileMap, pac: PacView,
                    px: real, py: real, dt: real, roll: nat -> nat, phase: GhostState, n: nat, j: nat)
    requires m.Valid() && |ts| == |ps| && |names| == |ps| && j < n <= |ps|
    ensures var r := Pass(ps, ts, names, m, pac, px, py, dt, roll, phase, n);
            var near := PixelDist2(px, py, r.0[j].x, r.0[j].y) < CatchDistance * CatchDistance;
            && (r.2[j] == PacManCaught <==> (r.0[j].state == Scatter || r.0[j].state == Chase) && near)
            && (r.2[j] == GhostEaten ==> r.0[j].state == Eaten && near)
  {
    PassTurns(ps, ts, names, m, pac, px, py, dt, roll, phase, n, j);
    var seen := Pass(ps, ts, names, m, pac, px, py, dt, roll, phase, j).0;
    TurnOutcome(ps[j], ts[j], names[j], m, pac, px, py, ViewsOf(names, seen), dt, roll(j), phase);
  }

  /** CaughtAll over one more contact. */
  lemma {:induction false} CaughtAllSnoc(s: Screen, cs: seq<Contact>, c: Contact)
    ensures CaughtAll(s, cs + [c]) == CaughtScreen(CaughtAll(s, cs), c)
    decreases |cs|
  {
    if |cs| > 0 {
      assert (cs + [c])[1..] == cs[1..] + [c];
      CaughtAllSnoc(CaughtScreen(s, cs[0]), cs[1..], c);
    }
  }

  /** The score, the lives and the popups after a pass's contacts `cs`, in
      order, from `sc`, `lives` and `ps`: each GhostEaten runs the
      GHOST_EATEN handlers (EatGhost, a life on EXTRA_LIFE, a cyan popup
      where the ghost stands in `poses`); the other contacts change none
      of them. */
  function Feast(sc: Scoring.Scores, lives: int, ps: seq<Popups.Particle>, cs: seq<Contact>, poses: seq<Ghosts.Pose>)
    : (Scoring.Scores, int, seq<Popups.Particle>)
    requires |cs| <= |poses|
    decreases |cs|
  {
    if |cs| == 0 then (sc, lives, ps)
    else
      var n := |cs| - 1;
      var r := Feast(sc, lives, ps, cs[..n], poses);
      if cs[n] == GhostEaten then
        var e := Scoring.EatGhost(r.0);
        (e.0, r.1 + (if e.1 then 1 else 0), Popups.Pushed(r.2, Popups.NewPop(poses[n].x, poses[n].y, e.2, Popups.Cyan)))
      else r
  }

  /** One more contact `c`, met by the ghost at `|cs|` standing at (`x`, `y`),
      that leaves the score, the lives and the popups at `sc'`, `lives'`
      and `ps'` as the GHOST_EATEN handlers do, extends Feast by one. */
  lemma FeastSnoc(sc0: Scoring.Scores, l0: int, p0: seq<Popups.Particle>, cs: seq<Contact>, c: Contact, poses: seq<Ghosts.Pose>,
                  sc: Scoring.Scores, lives: int, ps: seq<Popups.Particle>, sc': Scoring.Scores, lives': int, ps': seq<Popups.Particle>,
                  x: real, y: real)
    requires |cs| < |poses| && Feast(sc0, l0, p0, cs, poses) == (sc, lives, ps)
    requires poses[|cs|].x == x && poses[|cs|].y == y
    requires c == GhostEaten ==>
               var e := Scoring.EatGhost(sc);
               sc' == e.0 && lives' == lives + (if e.1 then 1 else 0) && ps' == Popups.Pushed(ps, Popups.NewPop(x, y, e.2, Popups.Cyan))
    requires c != GhostEaten ==> sc' == sc && lives' == lives && ps' == ps
    ensures Feast(sc0, l0, p0, cs + [c], poses) == (sc', lives', ps')
  {
    assert (cs + [c])[..|cs|] == cs;
  }

  /** Only the poses of the ghosts that met Pac-Man matter to Feast. */
  lemma {:induction false} FeastFrame(sc: Scoring.Scores, lives: int, ps: seq<Popups.Particle>, cs: seq<Contact>,
                                      poses: seq<Ghosts.Pose>, poses': seq<Ghosts.Pose>)
    requires |cs| <= |poses| && |cs| <= |poses'|
    requires forall k :: 0 <= k < |cs| ==> poses[k] == poses'[k]
    ensures Feast(sc, lives, ps, cs, poses) == Feast(sc, lives, ps, cs, poses')
    decreases |cs|
  {
    if |cs| > 0 {
      FeastFrame(sc, lives, ps, cs[..|cs| - 1], poses, poses');
    }
  }

  /** A pass scores one combo step per ghost eaten, never takes a life,
      and without a ghost eaten changes neither the score, the lives nor
      the popups. */
  lemma {:induction false} FeastCounts(sc: Scoring.Scores, lives: int, ps: seq<Popups.Particle>, cs: seq<Contact>, poses: seq<Ghosts.Pose>)
    requires |cs| <= |poses|
    ensures var r := Feast(sc, lives, ps, cs, poses);
            && r.0.ghostCombo == sc.ghostCombo + multiset(cs)[GhostEaten]
            && r.0.score >= sc.score && r.1 >= lives
            && (GhostEaten !in cs ==> r == (sc, lives, ps))
    decreases |cs|
  {
    if |cs| > 0 {
      var n := |cs| - 1;
      FeastCounts(sc, lives, ps, cs[..n], poses);
      assert cs == cs[..n] + [cs[n]];
    }
  }
}
