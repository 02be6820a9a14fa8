/** The bonus fruit: spawned below the ghost house for 9.5 seconds, worth
    a level-dependent score, eaten when Pac-Man comes within 8 pixels. */
module Bonus {
  import opened Shared

  /** Seconds a fruit stays before it disappears (`maxTime`). */
  const MaxTime: real := 9.5
  /** The fruit's fixed pixel position: tile (13.5, 17) times 8. */
  const FruitX: real := 13.5 * 8.0
  const FruitY: real := 17.0 * 8.0

  /** The `FRUIT_EATEN` payload. */
  datatype FruitEaten = FruitEaten(x: real, y: real, score: int)

  /** The fruit table: cherry, strawberry, orange for levels 1 to 3, an apple
      for every other level. */
  function FruitScore(level: int): (score: int)
    ensures level == 1 ==> score == 100
    ensures level == 2 ==> score == 300
    ensures level == 3 ==> score == 500
    ensures level !in {1, 2, 3} ==> score == 700
  {
    if level == 1 then 100 else if level == 2 then 300 else if level == 3 then 500 else 700
  }

  /** The fruit's state as a value: showing or not, the time left and the
      score of the fruit last spawned (none before the first spawn). */
  datatype FruitState = FruitState(isActive: bool, timer: real, score: FruitData)

  /** `currentData`: nothing before the first spawn, then the fruit's score. */
  datatype FruitData = NoFruit | Worth(points: int)

  /** `update(dt, pacman)` for Pac-Man at (`px`, `py`): the new state and
      what was eaten, if anything. Pac-Man eats the fruit when within 8
      pixels of it (squared distance at most 64). */
  function Step(f: FruitState, dt: real, px: real, py: real): (r: (FruitState, FruitData))
    ensures !f.isActive ==> r == (f, NoFruit)
    ensures f.isActive ==> r.0.timer == f.timer - dt && r.0.score == f.score
    ensures f.isActive && f.timer - dt <= 0.0 ==> r == (f.(isActive := false, timer := f.timer - dt), NoFruit)
    ensures f.isActive && f.timer - dt > 0.0 && Near(px, py) ==> !r.0.isActive && r.1 == f.score
    ensures f.isActive && f.timer - dt > 0.0 && !Near(px, py) ==> r.0.isActive && r.1 == NoFruit
    ensures r.0.isActive ==> r.0.timer > 0.0
  {
    if !f.isActive then (f, NoFruit)
    else
      var t := f.timer - dt;
      if t <= 0.0 then (f.(isActive := false, timer := t), NoFruit)
      else if Near(px, py) then (f.(isActive := false, timer := t), f.score)
      else (f.(timer := t), NoFruit)
  }

  /** Pac-Man within 8 pixels of the fruit (`Math.hypot(...) <= 8`). */
  predicate Near(px: real, py: real)
  {
    (px - FruitX) * (px - FruitX) + (py - FruitY) * (py - FruitY) <= 64.0
  }

  /** A fruit shows for at most 9.5 seconds of updates: if the updates after
      a spawn add up to at least 9.5 seconds, it is gone. */
  lemma {:induction false} FruitExpires(f: FruitState, dts: seq<real>, px: real, py: real)
    requires f.isActive ==> 0.0 < f.timer <= Sum(dts)
    requires forall i :: 0 <= i < |dts| ==> dts[i] >= 0.0
    ensures !Run(f, dts, px, py).isActive
    decreases |dts|
  {
    if |dts| > 0 {
      var next := Step(f, dts[0], px, py).0;
      FruitExpires(next, dts[1..], px, py);
    }
  }

  function Sum(dts: seq<real>): real
    decreases |dts|
  {
    if |dts| == 0 then 0.0 else dts[0] + Sum(dts[1..])
  }

  /** Updates in a row with Pac-Man standing still at (`px`, `py`). */
  function Run(f: FruitState, dts: seq<real>, px: real, py: real): FruitState
    decreases |dts|
  {
    if |dts| == 0 then f else Run(Step(f, dts[0], px, py).0, dts[1..], px, py)
  }

  class Fruit {
    var isActive: bool
    var timer: real
    var currentData: FruitData

    ghost function State(): FruitState
      reads this
    {
      FruitState(isActive, timer, currentData)
    }

    /** A showing fruit has been spawned, so it has a score. */
    ghost predicate Valid()
      reads this`isActive, this`currentData
    {
      isActive ==> currentData.Worth?
    }

    /** `new Fruit()`: hidden, no timer, no fruit chosen. */
    constructor ()
      ensures Valid() && State() == FruitState(false, 0.0, NoFruit)
    {
      isActive, timer, currentData := false, 0.0, NoFruit;
    }

    /** `spawn(level)`: show the level's fruit for 9.5 seconds. */
    method Spawn(level: int)
      modifies this
      ensures Valid() && State() == FruitState(true, MaxTime, Worth(FruitScore(level)))
    {
      isActive := true;
      timer := MaxTime;
      currentData := Worth(FruitScore(level));
    }

    /** `update(dt, pacman)`: returns the FRUIT_EATEN payload when eaten. */
    method Update(dt: real, px: real, py: real) returns (eaten: Option<FruitEaten>)
      requires Valid()
      modifies this
      ensures Valid()
      ensures var r := Step(old(State()), dt, px, py);
              && State() == r.0
              && (eaten.Some? <==> r.1.Worth?)
              && (eaten.Some? ==> eaten.value == FruitEaten(FruitX, FruitY, r.1.points))
    {
      eaten := None;
      if !isActive {
        return;
      }
      timer := timer - dt;
      if timer <= 0.0 {
        isActive := false;
        return;
      }
      var dx, dy := px - FruitX, py - FruitY;
      if dx * dx + dy * dy <= 64.0 {
        isActive := false;
        eaten := Some(FruitEaten(FruitX, FruitY, currentData.points));
      }
    }
  }
}
