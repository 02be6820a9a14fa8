/** Pinky's chase rule (src/entities/Pinky.js): four tiles ahead of Pac-Man,
    with the arcade's overflow quirk when Pac-Man faces up. */
module PinkyAI {
  import opened Shared

  /** Pinky's scatter corner, above the top-left of the maze. */
  const ScatterCorner := Vec(2, -4)
  /** Pinky starts in the house, IDLE, facing up. */
  const StartState := Idle
  const StartDir := Up

  /** `getTargetTile(pacman, ghosts)`. */
  function TargetTile(pac: PacView): (t: Vec)
    ensures pac.dir != Up ==> t == pac.tile.Plus(pac.dir.Times(4))
    ensures pac.dir == Up ==> t == Vec(pac.tile.x - 4, pac.tile.y - 4)
  {
    var target := pac.tile.Plus(pac.dir.Times(4));
    if pac.dir.y == -1 && pac.dir.x == 0 then Vec(target.x - 4, target.y) else target
  }

  /** A stopped Pac-Man is its own target; facing up, the target is four
      tiles up AND four tiles left, as in the arcade original. */
  lemma TargetCases(pac: PacView)
    ensures pac.dir == Zero ==> TargetTile(pac) == pac.tile
    ensures pac.dir == Up ==> TargetTile(pac) == pac.tile.Plus(Vec(-4, -4))
    ensures IsDirection(pac.dir) && pac.dir != Up ==> Dist2(TargetTile(pac), pac.tile) == 16 * Dist2(pac.dir, Zero)
  {
  }
}
