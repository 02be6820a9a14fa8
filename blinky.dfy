/** Blinky's chase rule (src/entities/Blinky.js): straight at Pac-Man. */
module BlinkyAI {
  import opened Shared

  /** Blinky's scatter corner, above the top-right of the maze. */
  const ScatterCorner := Vec(25, -4)
  /** Blinky starts outside the house, in SCATTER, moving left. */
  const StartState := Scatter
  const StartDir := Left

  /** `getTargetTile(pacman, ghosts)`: Pac-Man's current tile; neither the
      ghost list nor Blinky's own position is consulted. */
  function TargetTile(pac: PacView, ghosts: seq<GhostView>, own: Vec): Vec
  {
    pac.tile
  }

  /** The target depends on Pac-Man's tile alone. */
  lemma TargetIgnoresOthers(pac: PacView, pac': PacView, ghosts: seq<GhostView>, ghosts': seq<GhostView>, own: Vec, own': Vec)
    requires pac.tile == pac'.tile
    ensures TargetTile(pac, ghosts, own) == TargetTile(pac', ghosts', own')
  {
  }
}
