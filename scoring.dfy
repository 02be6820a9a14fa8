/** The score keeper: points per pickup, the ghost combo that doubles
    from 200 to a cap of 1600, the high score, and the single extra life
    awarded at 10000 points. */
module Scoring {

  const DotPoints: int := 10
  const PowerPelletPoints: int := 50
  /** Points for the first, second, third and fourth and later ghost of a combo. */
  const GhostPoints: seq<int> := [200, 400, 800, 1600]
  const ExtraLifeThreshold: int := 10000

  /** The score keeper's state as a value. */
  datatype Scores = Scores(score: int, highScore: int, ghostCombo: nat, extraLifeAwarded: bool)

  /** A score popup to show where points were earned. */
  datatype Popup = Popup(x: real, y: real, points: int)

  /** `addScore(points)`: the new state, and whether EXTRA_LIFE is announced. */
  function Add(s: Scores, points: int): (r: (Scores, bool))
    ensures r.0.score == s.score + points
    ensures r.0.highScore >= r.0.score && r.0.highScore >= s.highScore
    ensures r.0.highScore == s.highScore || r.0.highScore == r.0.score
    ensures r.1 <==> !s.extraLifeAwarded && s.score + points >= ExtraLifeThreshold
    ensures r.0.extraLifeAwarded <==> s.extraLifeAwarded || r.1
    ensures r.0.ghostCombo == s.ghostCombo
  {
    var score := s.score + points;
    var high := if score > s.highScore then score else s.highScore;
    var award := score >= ExtraLifeThreshold && !s.extraLifeAwarded;
    (Scores(score, high, s.ghostCombo, s.extraLifeAwarded || award), award)
  }

  /** Points for the ghost eaten at combo position `combo`: `GhostPoints[min(combo, 3)]`. */
  function GhostValue(combo: nat): (p: int)
    ensures p in GhostPoints
  {
    GhostPoints[if combo < 3 then combo else 3]
  }

  /** Each ghost of a combo is worth twice the one before, up to 1600. */
  lemma GhostValueDoubles(combo: nat)
    ensures combo < 3 ==> GhostValue(combo + 1) == 2 * GhostValue(combo)
    ensures combo >= 3 ==> GhostValue(combo) == 1600 && GhostValue(combo + 1) == 1600
    ensures 200 <= GhostValue(combo) <= 1600
  {
  }

  /** A series of `addScore` calls: the final state and how many times
      EXTRA_LIFE was announced. */
  function AddAll(s: Scores, points: seq<int>): (r: (Scores, nat))
    decreases |points|
  {
    if |points| == 0 then (s, 0)
    else
      var step := Add(s, points[0]);
      var rest := AddAll(step.0, points[1..]);
      (rest.0, rest.1 + if step.1 then 1 else 0)
  }

  /** EXTRA_LIFE is announced at most once: exactly when the award flag goes
      from unset to set. */
  lemma {:induction false} ExtraLifeAtMostOnce(s: Scores, points: seq<int>)
    ensures var r := AddAll(s, points);
            && r.1 == (if r.0.extraLifeAwarded && !s.extraLifeAwarded then 1 else 0)
            && r.1 <= 1
            && (s.extraLifeAwarded ==> r.0.extraLifeAwarded)
    decreases |points|
  {
    if |points| > 0 {
      var step := Add(s, points[0]);
      ExtraLifeAtMostOnce(step.0, points[1..]);
    }
  }

  /** The high score never falls, and after any `addScore` it is at or
      above the score. */
  lemma {:induction false} HighScoreBounds(s: Scores, points: seq<int>)
    ensures var r := AddAll(s, points).0;
            && r.highScore >= s.highScore
            && (|points| > 0 || s.highScore >= s.score ==> r.highScore >= r.score)
    decreases |points|
  {
    if |points| > 0 {
      HighScoreBounds(Add(s, points[0]).0, points[1..]);
    }
  }

  /** With no negative amounts the score never falls. */
  lemma {:induction false} ScoreNeverFalls(s: Scores, points: seq<int>)
    requires forall i :: 0 <= i < |points| ==> points[i] >= 0
    ensures AddAll(s, points).0.score >= s.score
    decreases |points|
  {
    if |points| > 0 {
      ScoreNeverFalls(Add(s, points[0]).0, points[1..]);
    }
  }

  /** With no negative amounts, the extra life has been awarded after a series
      exactly when it had been before or the score has reached 10000. */
  lemma {:induction false} ExtraLifeOnReaching(s: Scores, points: seq<int>)
    requires forall i :: 0 <= i < |points| ==> points[i] >= 0
    ensures var r := AddAll(s, points).0;
            r.extraLifeAwarded <==> s.extraLifeAwarded || (|points| > 0 && r.score >= ExtraLifeThreshold)
    decreases |points|
  {
    if |points| > 0 {
      var next := Add(s, points[0]).0;
      ExtraLifeOnReaching(next, points[1..]);
      ScoreNeverFalls(next, points[1..]);
    }
  }

  /** The `GHOST_EATEN` handler: the combo's current value is added as any
      points are (high score and extra life included), and the combo
      advances. */
  function EatGhost(s: Scores): (r: (Scores, bool, int))
    ensures r.2 == GhostValue(s.ghostCombo)
    ensures r.0.score == s.score + r.2 && r.0.ghostCombo == s.ghostCombo + 1
    ensures r.0.highScore == Add(s, r.2).0.highScore && r.0.extraLifeAwarded == Add(s, r.2).0.extraLifeAwarded
    ensures r.1 == Add(s, r.2).1
  {
    var points := GhostValue(s.ghostCombo);
    var added := Add(s, points);
    (added.0.(ghostCombo := s.ghostCombo + 1), added.1, points)
  }

  /** Four ghosts eaten after one power pellet earn 200 + 400 + 800 + 1600. */
  lemma FourGhostsAfterPellet(s: Scores)
    ensures var p := Add(s, PowerPelletPoints).0.(ghostCombo := 0);
            var g1 := EatGhost(p).0;
            var g2 := EatGhost(g1).0;
            var g3 := EatGhost(g2).0;
            var g4 := EatGhost(g3).0;
            g4.score == s.score + 50 + 3000 && g4.ghostCombo == 4
  {
  }

  class ScoreManager {
    var score: int
    var highScore: int
    var ghostCombo: nat
    var extraLifeAwarded: bool

    ghost function State(): Scores
      reads this
    {
      Scores(score, highScore, ghostCombo, extraLifeAwarded)
    }

    /** `new ScoreManager()`, with the high score read from storage given as
        `storedHigh` (0 when nothing usable was stored). */
    constructor (storedHigh: int)
      ensures State() == Scores(0, storedHigh, 0, false)
    {
      score, highScore, ghostCombo, extraLifeAwarded := 0, storedHigh, 0, false;
    }

    /** `addScore(points)`; `extraLife` says whether EXTRA_LIFE was emitted. */
    method AddScore(points: int) returns (extraLife: bool)
      modifies this
      ensures (State(), extraLife) == Add(old(State()), points)
    {
      score := score + points;
      if score > highScore {
        highScore := score;
      }
      extraLife := false;
      if score >= ExtraLifeThreshold && !extraLifeAwarded {
        extraLifeAwarded := true;
        extraLife := true;
      }
    }

    /** The `DOT_EATEN` handler. */
    method OnDotEaten() returns (extraLife: bool)
      modifies this
      ensures (State(), extraLife) == Add(old(State()), DotPoints)
    {
      extraLife := AddScore(DotPoints);
    }

    /** The `POWER_PELLET_EATEN` handler: 50 points and a fresh combo. */
    method OnPowerPelletEaten() returns (extraLife: bool)
      modifies this
      ensures var r := Add(old(State()), PowerPelletPoints);
              State() == r.0.(ghostCombo := 0) && extraLife == r.1
    {
      extraLife := AddScore(PowerPelletPoints);
      ghostCombo := 0;
    }

    /** The `GHOST_EATEN` handler for a ghost at (`x`, `y`): the popup it
        asks for. */
    method OnGhostEaten(x: real, y: real) returns (extraLife: bool, popup: Popup)
      modifies this
      ensures var r := EatGhost(old(State()));
              State() == r.0 && extraLife == r.1 && popup == Popup(x, y, r.2)
    {
      var points := GhostPoints[if ghostCombo < 3 then ghostCombo else 3];
      extraLife := AddScore(points);
      ghostCombo := ghostCombo + 1;
      popup := Popup(x, y, points);
    }

    /** The `FRUIT_EATEN` handler for a fruit at (`x`, `y`) worth `points`. */
    method OnFruitEaten(x: real, y: real, points: int) returns (extraLife: bool, popup: Popup)
      modifies this
      ensures (State(), extraLife) == Add(old(State()), points) && popup == Popup(x, y, points)
    {
      extraLife := AddScore(points);
      popup := Popup(x, y, points);
    }
  }
}
