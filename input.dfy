/** The input handler: key codes and swipes become a movement intent for
    each player, and pause and action presses are latched until read. */
module Input {
  import opened Shared

  const UpKeys: seq<string> := ["ArrowUp", "KeyW"]
  const DownKeys: seq<string> := ["ArrowDown", "KeyS"]
  const LeftKeys: seq<string> := ["ArrowLeft", "KeyA"]
  const RightKeys: seq<string> := ["ArrowRight", "KeyD"]
  const PauseKeys: seq<string> := ["Escape", "KeyP", "Enter", "Space"]
  const P2UpKeys: seq<string> := ["KeyI"]
  const P2DownKeys: seq<string> := ["KeyK"]
  const P2LeftKeys: seq<string> := ["KeyJ"]
  const P2RightKeys: seq<string> := ["KeyL"]

  /** A swipe must move more than this many pixels on some axis. */
  const MinSwipeDistance: real := 20.0
  /** Two taps closer than this many milliseconds are a double tap. */
  const DoubleTapMillis: real := 300.0

  /** The latched state of the handler as a value. */
  datatype Latch = Latch(dir: Vec, p2dir: Vec, pausePressed: bool, actionPressed: bool)

  /** The direction a key binding table gives for `code`; `current` when the
      code is bound to no direction. Later rows win, as the handler's checks
      run up, down, left, right in turn. */
  function KeyDirection(code: string, current: Vec, up: seq<string>, down: seq<string>,
                        left: seq<string>, right: seq<string>): Vec
  {
    if code in right then Right
    else if code in left then Left
    else if code in down then Down
    else if code in up then Up
    else current
  }

  /** `_handleKeyDown(e)`: the new latched state for key `code`. */
  function KeyDown(l: Latch, code: string): (r: Latch)
    ensures code in UpKeys ==> r.dir == Up
    ensures code in DownKeys ==> r.dir == Down
    ensures code in LeftKeys ==> r.dir == Left
    ensures code in RightKeys ==> r.dir == Right
    ensures code !in UpKeys + DownKeys + LeftKeys + RightKeys ==> r.dir == l.dir
    ensures code in P2UpKeys ==> r.p2dir == Up
    ensures code in P2DownKeys ==> r.p2dir == Down
    ensures code in P2LeftKeys ==> r.p2dir == Left
    ensures code in P2RightKeys ==> r.p2dir == Right
    ensures code !in P2UpKeys + P2DownKeys + P2LeftKeys + P2RightKeys ==> r.p2dir == l.p2dir
    ensures r.pausePressed <==> l.pausePressed || code in PauseKeys
    ensures r.actionPressed <==> l.actionPressed || code == "Space"
  {
    Latch(KeyDirection(code, l.dir, UpKeys, DownKeys, LeftKeys, RightKeys),
          KeyDirection(code, l.p2dir, P2UpKeys, P2DownKeys, P2LeftKeys, P2RightKeys),
          l.pausePressed || code in PauseKeys,
          l.actionPressed || code == "Space")
  }

  /** Player two's keys never move player one, and player one's keys never
      move player two. */
  lemma PlayersIndependent(l: Latch, code: string)
    ensures code in P2UpKeys + P2DownKeys + P2LeftKeys + P2RightKeys ==> KeyDown(l, code).dir == l.dir
    ensures code in UpKeys + DownKeys + LeftKeys + RightKeys ==> KeyDown(l, code).p2dir == l.p2dir
  {
    var c := code;
    if c in P2UpKeys + P2DownKeys + P2LeftKeys + P2RightKeys {
      assert c == "KeyI" || c == "KeyK" || c == "KeyJ" || c == "KeyL";
      assert c !in UpKeys + DownKeys + LeftKeys + RightKeys by {
        assert UpKeys + DownKeys + LeftKeys + RightKeys
               == ["ArrowUp", "KeyW", "ArrowDown", "KeyS", "ArrowLeft", "KeyA", "ArrowRight", "KeyD"];
      }
    }
    if c in UpKeys + DownKeys + LeftKeys + RightKeys {
      assert c !in P2UpKeys + P2DownKeys + P2LeftKeys + P2RightKeys by {
        assert P2UpKeys + P2DownKeys + P2LeftKeys + P2RightKeys == ["KeyI", "KeyK", "KeyJ", "KeyL"];
        assert c in ["ArrowUp", "KeyW", "ArrowDown", "KeyS", "ArrowLeft", "KeyA", "ArrowRight", "KeyD"];
      }
    }
  }

  /** `Math.sign`. */
  function Sign(r: real): (s: int)
    ensures s in {-1, 0, 1}
    ensures s == 1 <==> r > 0.0
    ensures s == -1 <==> r < 0.0
  {
    if r > 0.0 then 1 else if r < 0.0 then -1 else 0
  }

  function Abs(r: real): (a: real)
    ensures a >= 0.0 && (a == r || a == -r)
  {
    if r < 0.0 then -r else r
  }

  /** `_handleTouchEnd`: a swipe of (`dx`, `dy`) pixels. Below the threshold
      on both axes the direction is kept; otherwise the longer axis decides,
      and a tie counts as vertical. */
  function Swipe(dir: Vec, dx: real, dy: real): Vec
  {
    if Abs(dx) > MinSwipeDistance || Abs(dy) > MinSwipeDistance then
      if Abs(dx) > Abs(dy) then Vec(Sign(dx), 0) else Vec(0, Sign(dy))
    else dir
  }

  /** A swipe past the threshold always gives one of the four unit
      directions, along its dominant axis and pointing the way the finger
      moved; a short one changes nothing. */
  lemma SwipeIsUnit(dir: Vec, dx: real, dy: real)
    ensures var d := Swipe(dir, dx, dy);
            && (Abs(dx) <= MinSwipeDistance && Abs(dy) <= MinSwipeDistance ==> d == dir)
            && (Abs(dx) > MinSwipeDistance || Abs(dy) > MinSwipeDistance ==>
                  && d in {Up, Left, Down, Right}
                  && (Abs(dx) > Abs(dy) ==> d.y == 0 && (d.x == 1 <==> dx > 0.0))
                  && (Abs(dx) <= Abs(dy) ==> d.x == 0 && (d.y == 1 <==> dy > 0.0)))
  {
  }

  /** Every direction the handler ever holds is a movement direction. */
  lemma HeldDirections(l: Latch, code: string, dx: real, dy: real)
    requires IsDirection(l.dir) && IsDirection(l.p2dir)
    ensures IsDirection(KeyDown(l, code).dir) && IsDirection(KeyDown(l, code).p2dir)
    ensures IsDirection(Swipe(l.dir, dx, dy))
  {
    SwipeIsUnit(l.dir, dx, dy);
  }

  /** `_handleTouchStart` at time `now` (milliseconds), with the time of the
      previous tap: a tap within 300 ms of it latches a pause and clears
      the tap time, any other tap becomes the new tap time. */
  function Tap(pausePressed: bool, lastTapTime: real, now: real): (bool, real)
  {
    if now - lastTapTime < DoubleTapMillis then (true, 0.0) else (pausePressed, now)
  }

  /** Taps in a row: the second of two taps less than 300 ms apart latches
      a pause and clears the tap time, so that a third tap at least 300 ms
      after time 0 is an ordinary first tap again. */
  lemma {:induction false} DoubleTap(last: real, t1: real, t2: real, t3: real)
    requires t1 - last >= DoubleTapMillis && t1 <= t2 < t1 + DoubleTapMillis
    requires t3 >= DoubleTapMillis
    ensures var first := Tap(false, last, t1);
            var second := Tap(first.0, first.1, t2);
            var third := Tap(false, second.1, t3);
            && first == (false, t1)
            && second == (true, 0.0)
            && third == (false, t3)
  {
  }

  class InputHandler {
    var dir: Vec
    var p2dir: Vec
    var pausePressed: bool
    var actionPressed: bool
    var touchStartX: real
    var touchStartY: real
    var lastTapTime: real

    ghost function State(): Latch
      reads this
    {
      Latch(dir, p2dir, pausePressed, actionPressed)
    }

    /** Both intents are movement directions. */
    ghost predicate Valid()
      reads this`dir, this`p2dir
    {
      IsDirection(dir) && IsDirection(p2dir)
    }

    /** `new InputHandler()`: no intent, nothing pressed. */
    constructor ()
      ensures Valid() && State() == Latch(Zero, Zero, false, false)
      ensures touchStartX == 0.0 && touchStartY == 0.0 && lastTapTime == 0.0
    {
      dir, p2dir := Zero, Zero;
      pausePressed, actionPressed := false, false;
      touchStartX, touchStartY, lastTapTime := 0.0, 0.0, 0.0;
    }

    /** `_handleKeyDown(e)` for key `code`. */
    method HandleKeyDown(code: string)
      requires Valid()
      modifies this`dir, this`p2dir, this`pausePressed, this`actionPressed
      ensures Valid()
      ensures State() == KeyDown(old(State()), code)
    {
      HeldDirections(State(), code, 0.0, 0.0);
      if code in UpKeys { dir := Up; }
      if code in DownKeys { dir := Down; }
      if code in LeftKeys { dir := Left; }
      if code in RightKeys { dir := Right; }
      if code in PauseKeys {
        pausePressed := true;
      }
      if code == "Space" {
        actionPressed := true;
      }
      if code in P2UpKeys { p2dir := Up; }
      if code in P2DownKeys { p2dir := Down; }
      if code in P2LeftKeys { p2dir := Left; }
      if code in P2RightKeys { p2dir := Right; }
    }

    /** `_handleTouchStart(e)` with `touches` the first touch point, if any,
        and `now` the current time in milliseconds. */
    method HandleTouchStart(touch: Option<(real, real)>, now: real)
      modifies this`touchStartX, this`touchStartY, this`pausePressed, this`lastTapTime
      ensures touch.None? ==> unchanged(this)
      ensures touch.Some? ==>
                && (touchStartX, touchStartY) == touch.value
                && (pausePressed, lastTapTime) == Tap(old(pausePressed), old(lastTapTime), now)
    {
      if touch.Some? {
        touchStartX, touchStartY := touch.value.0, touch.value.1;
        if now - lastTapTime < DoubleTapMillis {
          pausePressed := true;
          lastTapTime := 0.0;
        } else {
          lastTapTime := now;
        }
      }
    }

    /** `_handleTouchEnd(e)` with `touch` the first changed touch point, if any. */
    method HandleTouchEnd(touch: Option<(real, real)>)
      requires Valid()
      modifies this`dir
      ensures Valid()
      ensures touch.None? ==> dir == old(dir)
      ensures touch.Some? ==> dir == Swipe(old(dir), touch.value.0 - touchStartX, touch.value.1 - touchStartY)
    {
      if touch.Some? {
        var dx := touch.value.0 - touchStartX;
        var dy := touch.value.1 - touchStartY;
        SwipeIsUnit(dir, dx, dy);
        if Abs(dx) > MinSwipeDistance || Abs(dy) > MinSwipeDistance {
          if Abs(dx) > Abs(dy) {
            dir := Vec(Sign(dx), 0);
          } else {
            dir := Vec(0, Sign(dy));
          }
        }
      }
    }

    /** The `pointerup` listener: latch an action. */
    method PointerUp()
      modifies this`actionPressed
      ensures actionPressed
    {
      actionPressed := true;
    }

    /** `consumePause()`: whether a pause was latched; the latch is cleared. */
    method ConsumePause() returns (pressed: bool)
      modifies this`pausePressed
      ensures pressed == old(pausePressed) && !pausePressed
    {
      pressed := pausePressed;
      if pausePressed {
        pausePressed := false;
      }
    }

    /** `consumeAction()`: whether an action was latched; the latch is cleared. */
    method ConsumeAction() returns (pressed: bool)
      modifies this`actionPressed
      ensures pressed == old(actionPressed) && !actionPressed
    {
      pressed := actionPressed;
      if actionPressed {
        actionPressed := false;
      }
    }
  }
}
