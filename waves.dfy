/** The SCATTER/CHASE wave schedule (src/world/WaveController.js): a timer
    walks through a fixed table of phases, the last of which never ends. */
module Waves {
  import opened Shared

  /** A phase length in seconds, or `Infinity` for the final phase. */
  datatype Duration = Seconds(s: real) | Forever

  datatype Wave = Wave(state: GhostState, duration: Duration)

  /** The classic table set up by the constructor. */
  function Schedule(): (ws: seq<Wave>)
    ensures |ws| == 8
    ensures forall i :: 0 <= i < |ws| ==> ws[i].state == (if i % 2 == 0 then Scatter else Chase)
    ensures forall i :: 0 <= i < |ws| - 1 ==> ws[i].duration.Seconds? && ws[i].duration.s >= 5.0
    ensures ws[|ws| - 1].duration == Forever
  {
    [ Wave(Scatter, Seconds(7.0)), Wave(Chase, Seconds(20.0)),
      Wave(Scatter, Seconds(7.0)), Wave(Chase, Seconds(20.0)),
      Wave(Scatter, Seconds(5.0)), Wave(Chase, Seconds(20.0)),
      Wave(Scatter, Seconds(5.0)), Wave(Chase, Forever) ]
  }

  /** `timer >= duration`; nothing is ever `>= Infinity`. */
  predicate Expired(timer: real, d: Duration)
  {
    d.Seconds? && timer >= d.s
  }

  /** Everything `update` reads and writes: timer, waveIndex, currentState, isPaused. */
  datatype Clock = Clock(timer: real, waveIndex: nat, state: GhostState, paused: bool)

  /** `currentState` is always the state of the current table entry. */
  predicate ClockValid(c: Clock)
  {
    c.waveIndex < |Schedule()| && c.state == Schedule()[c.waveIndex].state
  }

  const InitialClock := Clock(0.0, 0, Scatter, false)

  /** One `update(dt)`: the new clock and whether the phase changed. */
  function Tick(c: Clock, dt: real): (r: (Clock, bool))
    requires ClockValid(c)
    ensures ClockValid(r.0) && r.0.paused == c.paused
    ensures r.1 <==> !c.paused && Expired(c.timer + dt, Schedule()[c.waveIndex].duration)
    ensures r.1 ==> r.0.waveIndex == c.waveIndex + 1 && r.0.state != c.state
                    && r.0.timer == c.timer + dt - Schedule()[c.waveIndex].duration.s
    ensures !r.1 ==> r.0.waveIndex == c.waveIndex && r.0.state == c.state
    ensures !r.1 && !c.paused ==> r.0.timer == c.timer + dt
    ensures c.paused ==> r.0 == c
  {
    if c.paused then (c, false)
    else
      var t := c.timer + dt;
      var d := Schedule()[c.waveIndex].duration;
      if Expired(t, d) then
        var i := c.waveIndex + 1;
        if i < |Schedule()| then (Clock(t - d.s, i, Schedule()[i].state, false), true)
        else assert false; (c, false)
      else
        (c.(timer := t), false)
  }

  /** A run of consecutive updates: the final clock and how many of them
      reported a phase change. */
  function Run(c: Clock, dts: seq<real>): (r: (Clock, nat))
    requires ClockValid(c)
    ensures ClockValid(r.0)
    decreases |dts|
  {
    if dts == [] then (c, 0)
    else
      var (c', changed) := Tick(c, dts[0]);
      var (last, n) := Run(c', dts[1..]);
      (last, if changed then n + 1 else n)
  }

  /** Every reported change moves exactly one entry on, so the index counts
      the changes, and no update can skip a phase. */
  lemma {:induction false} RunCountsChanges(c: Clock, dts: seq<real>)
    requires ClockValid(c)
    ensures Run(c, dts).0.waveIndex == c.waveIndex + Run(c, dts).1
    ensures Run(c, dts).1 <= |dts|
    decreases |dts|
  {
    if dts != [] {
      RunCountsChanges(Tick(c, dts[0]).0, dts[1..]);
    }
  }

  /** Once the final CHASE entry is current, no sequence of updates changes
      the phase again. */
  lemma {:induction false} FinalWaveAbsorbing(c: Clock, dts: seq<real>)
    requires ClockValid(c) && c.waveIndex == |Schedule()| - 1
    ensures Run(c, dts).0.waveIndex == c.waveIndex && Run(c, dts).0.state == Chase
    ensures Run(c, dts).1 == 0
    decreases |dts|
  {
    if dts != [] {
      FinalWaveAbsorbing(Tick(c, dts[0]).0, dts[1..]);
    }
  }

  /** While paused, no sequence of updates changes anything. */
  lemma {:induction false} PausedFrozen(c: Clock, dts: seq<real>)
    requires ClockValid(c) && c.paused
    ensures Run(c, dts) == (c, 0)
    decreases |dts|
  {
    if dts != [] {
      PausedFrozen(c, dts[1..]);
    }
  }

  /** From the start, an update enters CHASE exactly when it covers at
      least the 7 seconds of the first SCATTER entry. */
  lemma FirstChangeAtSeven(dt: real)
    ensures Tick(InitialClock, dt).1 <==> dt >= 7.0
    ensures Tick(InitialClock, dt).1 ==> Tick(InitialClock, dt).0.state == Chase
  {
  }

  class WaveController {
    var level: int
    var timer: real
    var waveIndex: nat
    var currentState: GhostState
    var isPaused: bool

    ghost function Snapshot(): Clock
      reads this
    {
      Clock(timer, waveIndex, currentState, isPaused)
    }

    ghost predicate Valid()
      reads this
    {
      ClockValid(Snapshot())
    }

    /** Level 1, first entry (SCATTER), timer 0, not paused. */
    constructor ()
      ensures Valid() && Snapshot() == InitialClock && level == 1
    {
      level := 1;
      timer := 0.0;
      waveIndex := 0;
      currentState := Schedule()[0].state;
      isPaused := false;
    }

    /** `update(dt)`: nothing while paused; otherwise advance the timer and,
        when it reaches the current entry's duration, move to the next entry
        and report the change. */
    method Update(dt: real) returns (changed: bool)
      requires Valid()
      modifies this
      ensures Valid() && level == old(level)
      ensures (Snapshot(), changed) == Tick(old(Snapshot()), dt)
    {
      if isPaused {
        return false;
      }
      timer := timer + dt;
      var current := Schedule()[waveIndex];
      changed := false;
      if Expired(timer, current.duration) {
        timer := timer - current.duration.s;
        waveIndex := waveIndex + 1;
        if waveIndex < |Schedule()| {
          currentState := Schedule()[waveIndex].state;
          changed := true;
        }
      }
    }

    /** `getCurrentState`. */
    function GetCurrentState(): (s: GhostState)
      reads this
      requires Valid()
      ensures s == Schedule()[waveIndex].state
      ensures s == Scatter || s == Chase
    {
      currentState
    }

    /** `setPaused(paused)`. */
    method SetPaused(paused: bool)
      modifies this`isPaused
      ensures isPaused == paused
    {
      isPaused := paused;
    }
  }
}
