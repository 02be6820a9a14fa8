/** The dot tracker (src/world/DotManager.js): one flag per grid cell, set
    while the dot or power pellet on that cell has not been eaten, plus the
    total and eaten counters and the power-pellet flash timer. */
module Dots {
  import opened Shared
  import opened Maze

  /** `type === DOT || type === POWER_PELLET` for `grid[i]`; a cell past the
      end of the grid reads as `undefined`, which is neither. */
  predicate PickupAt(grid: seq<Tile>, i: int)
  {
    0 <= i < |grid| && grid[i].IsPickup()
  }

  /** The number of set flags. */
  function CountTrue(s: seq<bool>): (n: nat)
    ensures n <= |s|
    ensures n == 0 <==> forall i :: 0 <= i < |s| ==> !s[i]
  {
    if s == [] then 0
    else (if s[|s| - 1] then 1 else 0) + CountTrue(s[..|s| - 1])
  }

  /** Clearing one set flag lowers the count by exactly one. */
  lemma {:induction false} CountTrueClear(s: seq<bool>, i: nat)
    requires i < |s| && s[i]
    ensures CountTrue(s[i := false]) == CountTrue(s) - 1
    decreases |s|
  {
    var n := |s| - 1;
    if i == n {
      assert s[i := false][..n] == s[..n];
    } else {
      assert s[i := false][..n] == s[..n][i := false];
      CountTrueClear(s[..n], i);
    }
  }

  /** The flags `_initializeDots` writes into an array of `n` entries: set
      exactly on the cells holding a dot or a power pellet. */
  function InitialFlags(grid: seq<Tile>, n: nat): (f: seq<bool>)
    ensures |f| == n && forall i :: 0 <= i < n ==> (f[i] <==> PickupAt(grid, i))
  {
    seq(n, i requires 0 <= i < n => PickupAt(grid, i))
  }

  /** `eatDot` on the flag array at a flat index: the new flags and whether a
      dot was eaten. */
  function Eat(flags: seq<bool>, index: int): (r: (seq<bool>, bool))
    ensures r.1 <==> 0 <= index < |flags| && flags[index]
    ensures |r.0| == |flags|
    ensures forall j :: 0 <= j < |flags| && j != index ==> r.0[j] == flags[j]
    ensures 0 <= index < |flags| ==> !r.0[index]
    ensures r.1 ==> CountTrue(r.0) == CountTrue(flags) - 1
    ensures !r.1 ==> r.0 == flags
  {
    if 0 <= index < |flags| && flags[index] then
      CountTrueClear(flags, index);
      (flags[index := false], true)
    else
      (flags, false)
  }

  /** Eating the same cell twice: the second call finds nothing and changes nothing. */
  lemma EatTwice(flags: seq<bool>, index: int)
    ensures !Eat(Eat(flags, index).0, index).1
    ensures Eat(Eat(flags, index).0, index).0 == Eat(flags, index).0
  {
  }

  /** The flash timer of `update(dt)`: at 0.25 s the timer restarts and the
      pellets' visibility flips. */
  function Flash(timer: real, visible: bool, dt: real): (r: (real, bool))
    ensures r.1 != visible <==> timer + dt >= 0.25
    ensures r.1 != visible ==> r.0 == 0.0
    ensures r.1 == visible ==> r.0 == timer + dt
    ensures 0.0 <= timer && 0.0 <= dt ==> 0.0 <= r.0 < 0.25
  {
    if timer + dt >= 0.25 then (0.0, !visible) else (timer + dt, visible)
  }

  class DotManager {
    var tileMap: TileMap
    var activeDots: array<bool>
    var totalDots: int
    var dotsEaten: int
    var flashTimer: real
    var pelletVisible: bool

    /** The flags count the dots still to eat, and only pickups are flagged. */
    ghost predicate Valid()
      reads this`tileMap, this`activeDots, this`totalDots, this`dotsEaten, activeDots, tileMap
    {
      tileMap.Valid() &&
      0 <= dotsEaten <= totalDots &&
      CountTrue(activeDots[..]) == totalDots - dotsEaten
    }

    /** Flagged cells hold a dot or a power pellet of the current map. */
    ghost predicate FlagsOnPickups()
      reads this`tileMap, this`activeDots, activeDots, tileMap, tileMap.grid
    {
      forall i :: 0 <= i < activeDots.Length && activeDots[i] ==> PickupAt(tileMap.grid[..], i)
    }

    /** `new DotManager(tileMap)`: one flag per cell of the map, then `_initializeDots`. */
    constructor (newMap: TileMap)
      requires newMap.Valid()
      ensures Valid() && FlagsOnPickups() && tileMap == newMap && fresh(activeDots)
      ensures activeDots.Length == newMap.width * newMap.height
      ensures activeDots[..] == InitialFlags(newMap.grid[..], newMap.width * newMap.height)
      ensures totalDots == CountTrue(activeDots[..]) && dotsEaten == 0
      ensures flashTimer == 0.0 && pelletVisible
    {
      tileMap := newMap;
      activeDots := new bool[newMap.width * newMap.height];
      totalDots := 0;
      dotsEaten := 0;
      flashTimer := 0.0;
      pelletVisible := true;
      new;
      InitializeDots();
    }

    /** `_initializeDots`: flag every pickup of the grid, clear every other
        cell, and add the number of flags to `totalDots`. */
    method InitializeDots()
      modifies this`totalDots, activeDots
      ensures activeDots[..] == InitialFlags(tileMap.grid[..], activeDots.Length)
      ensures totalDots == old(totalDots) + CountTrue(activeDots[..])
    {
      var flags, grid := activeDots, tileMap.grid;
      var count := 0;
      var i := 0;
      while i < flags.Length
        invariant 0 <= i <= flags.Length
        invariant forall j :: 0 <= j < i ==> (flags[j] <==> PickupAt(grid[..], j))
        invariant count == CountTrue(flags[..i])
        modifies flags
      {
        flags[i] := i < grid.Length && grid[i].IsPickup();
        assert flags[..i + 1][..i] == flags[..i];
        count := count + (if flags[i] then 1 else 0);
        i := i + 1;
      }
      assert flags[..] == flags[..i];
      assert flags[..] == InitialFlags(grid[..], flags.Length);
      totalDots := totalDots + count;
    }

    /** `reset(tileMap)`: adopt the given map, or keep the current one when
        none is given, and start counting afresh. The flag array is not
        reallocated. */
    method Reset(newMap: TileMap?)
      requires newMap != null ==> newMap.Valid()
      requires tileMap.Valid()
      modifies this`tileMap, this`totalDots, this`dotsEaten, activeDots
      ensures Valid() && FlagsOnPickups()
      ensures tileMap == (if newMap != null then newMap else old(tileMap))
      ensures activeDots[..] == InitialFlags(tileMap.grid[..], activeDots.Length)
      ensures totalDots == CountTrue(activeDots[..]) && dotsEaten == 0
    {
      if newMap != null {
        tileMap := newMap;
      }
      totalDots := 0;
      dotsEaten := 0;
      InitializeDots();
    }

    /** `eatDot(x, y)`: when the cell at flat index `y * width + x` is flagged,
        clear its flag, count it and return its tile; otherwise return null
        and change nothing. */
    method EatDot(x: int, y: int) returns (r: Option<Tile>)
      requires Valid() && FlagsOnPickups()
      modifies activeDots, this`dotsEaten
      ensures Valid() && FlagsOnPickups()
      ensures (activeDots[..], r.Some?) == Eat(old(activeDots[..]), y * tileMap.width + x)
      ensures r.Some? ==> r.value.IsPickup() && r.value == tileMap.grid[y * tileMap.width + x]
      ensures dotsEaten == old(dotsEaten) + (if r.Some? then 1 else 0)
    {
      var index := y * tileMap.width + x;
      ghost var before := activeDots[..];
      if 0 <= index < activeDots.Length && activeDots[index] {
        activeDots[index] := false;
        dotsEaten := dotsEaten + 1;
        assert activeDots[..] == before[index := false];
        CountTrueClear(before, index);
        return Some(tileMap.grid[index]);
      }
      return None;
    }

    /** `update(dt)`: the pellet flash. */
    method Update(dt: real)
      modifies this`flashTimer, this`pelletVisible
      ensures (flashTimer, pelletVisible) == Flash(old(flashTimer), old(pelletVisible), dt)
    {
      flashTimer := flashTimer + dt;
      if flashTimer >= 0.25 {
        flashTimer := 0.0;
        pelletVisible := !pelletVisible;
      }
    }

    /** `getDotsRemaining`: the number of flags still set. */
    function GetDotsRemaining(): (n: int)
      reads this, activeDots, tileMap
      requires Valid()
      ensures n == CountTrue(activeDots[..]) && 0 <= n <= activeDots.Length
      ensures n == 0 <==> forall i :: 0 <= i < activeDots.Length ==> !activeDots[i]
    {
      totalDots - dotsEaten
    }
  }
}
