/** Inky's chase rule (src/entities/Inky.js): Blinky's tile reflected
    through a pivot two tiles ahead of Pac-Man. */
module InkyAI {
  import opened Shared

  /** Inky's scatter corner, the bottom-right of the maze. */
  const ScatterCorner := Vec(27, 31)
  /** Inky starts in the house, IDLE, facing up. */
  const StartState := Idle
  const StartDir := Up

  /** `ghosts.find(g => g.name === 'Blinky')`: the tile of the first ghost
      named Blinky, if any. */
  function FindBlinky(ghosts: seq<GhostView>): (r: Option<Vec>)
    ensures r.None? <==> forall i :: 0 <= i < |ghosts| ==> ghosts[i].name != Blinky
    ensures r.Some? ==> exists i :: 0 <= i < |ghosts| && ghosts[i].name == Blinky && ghosts[i].tile == r.value
                                  && forall j :: 0 <= j < i ==> ghosts[j].name != Blinky
  {
    if ghosts == [] then None
    else if ghosts[0].name == Blinky then Some(ghosts[0].tile)
    else
      var r := FindBlinky(ghosts[1..]);
      assert forall j :: 1 <= j < |ghosts| ==> ghosts[j] == ghosts[1..][j - 1];
      r
  }

  /** Two tiles ahead of Pac-Man, and two more to the left when facing up. */
  function Pivot(pac: PacView): (p: Vec)
    ensures pac.dir != Up ==> p == pac.tile.Plus(pac.dir.Times(2))
    ensures pac.dir == Up ==> p == Vec(pac.tile.x - 2, pac.tile.y - 2)
  {
    var ahead := pac.tile.Plus(pac.dir.Times(2));
    if pac.dir.y == -1 && pac.dir.x == 0 then Vec(ahead.x - 2, ahead.y) else ahead
  }

  /** `getTargetTile(pacman, ghosts)`: Pac-Man's tile when there is no
      Blinky; otherwise the pivot plus the vector from Blinky to the pivot. */
  function TargetTile(pac: PacView, ghosts: seq<GhostView>): (t: Vec)
    ensures FindBlinky(ghosts).None? ==> t == pac.tile
    ensures FindBlinky(ghosts).Some? ==>
              var b := FindBlinky(ghosts).value;
              t == Pivot(pac).Times(2).Plus(b.Negated())
  {
    match FindBlinky(ghosts)
    case None => pac.tile
    case Some(blinky) =>
      var pivot := Pivot(pac);
      var vector := pivot.Plus(blinky.Negated());
      pivot.Plus(vector)
  }

  /** The pivot is the midpoint of Blinky and the target; in particular a
      Blinky standing on the pivot makes the pivot the target. */
  lemma TargetReflectsBlinky(pac: PacView, ghosts: seq<GhostView>)
    requires FindBlinky(ghosts).Some?
    ensures var b := FindBlinky(ghosts).value;
            TargetTile(pac, ghosts).Plus(b) == Pivot(pac).Times(2)
    ensures FindBlinky(ghosts).value == Pivot(pac) ==> TargetTile(pac, ghosts) == Pivot(pac)
  {
  }
}
