/** Clyde's chase rule (src/entities/Clyde.js): chase Pac-Man from afar,
    retreat to the corner up close. */
module ClydeAI {
  import opened Shared

  /** Clyde's scatter corner, the bottom-left of the maze. */
  const ScatterCorner := Vec(0, 31)
  /** Clyde starts in the house, IDLE, facing up. */
  const StartState := Idle
  const StartDir := Up

  /** `getTargetTile(pacman, ghosts)`: `hypot(...) > 8` is taken as its
      squared form `> 64` (HypotAtMost). */
  function TargetTile(own: Vec, pac: PacView): Vec
  {
    if Dist2(own, pac.tile) > 64 then pac.tile else ScatterCorner
  }

  /** The tile-distance test of the source, on the real hypotenuse `h`:
      farther than 8 tiles is exactly a squared distance above 64. */
  lemma FarMeansSquaredAbove64(own: Vec, pac: PacView, h: real)
    requires 0.0 <= h && h * h == Dist2(own, pac.tile) as real
    ensures h > 8.0 <==> Dist2(own, pac.tile) > 64
    ensures h > 8.0 ==> TargetTile(own, pac) == pac.tile
    ensures h <= 8.0 ==> TargetTile(own, pac) == ScatterCorner
  {
    HypotAtMost(h, Dist2(own, pac.tile) as real, 8.0);
  }
}
