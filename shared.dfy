/** Vocabulary shared by every component of the simulation: grid vectors,
    the four movement directions, ghost behaviour states and the tile
    geometry (8 pixels per tile, positions measured in pixels). */
module Shared {

  datatype Option<T> = None | Some(value: T)

  /** A tile coordinate or a direction: the `{ x, y }` objects of the game. */
  datatype Vec = Vec(x: int, y: int) {
    function Plus(o: Vec): Vec { Vec(x + o.x, y + o.y) }
    function Times(k: int): Vec { Vec(k * x, k * y) }
    function Negated(): Vec { Vec(-x, -y) }
    predicate IsZero() { x == 0 && y == 0 }
  }

  const Zero := Vec(0, 0)
  const Up := Vec(0, -1)
  const Left := Vec(-1, 0)
  const Down := Vec(0, 1)
  const Right := Vec(1, 0)

  /** Squared Euclidean distance between two tiles; `Math.hypot(a, b) < Math.hypot(c, d)`
      holds exactly when the squares compare the same way. */
  function Dist2(a: Vec, b: Vec): int
  {
    (a.x - b.x) * (a.x - b.x) + (a.y - b.y) * (a.y - b.y)
  }

  /** `Math.hypot(...) <= k` with `h` the hypotenuse and `s` the sum of squares:
      the comparison holds exactly when `s <= k * k`. */
  lemma HypotAtMost(h: real, s: real, k: real)
    requires 0.0 <= h && 0.0 <= k && h * h == s
    ensures h <= k <==> s <= k * k
  {
    if h < k {
      SquareLess(h, k);
    } else if k < h {
      SquareLess(k, h);
    }
  }

  /** The strict form: `Math.hypot(...) < k` exactly when `s < k * k`. */
  lemma HypotBelow(h: real, s: real, k: real)
    requires 0.0 <= h && 0.0 <= k && h * h == s
    ensures h < k <==> s < k * k
  {
    if h < k {
      SquareLess(h, k);
    } else if k < h {
      SquareLess(k, h);
    }
  }

  lemma SquareLess(a: real, b: real)
    requires 0.0 <= a < b
    ensures a * a < b * b
  {
    PositiveProduct(b - a, b + a);
    assert b * b - a * a == (b - a) * (b + a);
  }

  lemma PositiveProduct(d: real, e: real)
    requires d > 0.0 && e > 0.0
    ensures d * e > 0.0
  {
  }

  /** The movement directions a game entity ever holds: stopped or one of
      the four units, stated on the components (see DirectionCases). */
  predicate IsDirection(d: Vec)
  {
    (d.x == 0 && -1 <= d.y <= 1) || (d.y == 0 && -1 <= d.x <= 1)
  }

  /** IsDirection names exactly the stopped vector and the four units. */
  lemma DirectionCases(d: Vec)
    ensures IsDirection(d) <==> d == Zero || d == Up || d == Left || d == Down || d == Right
  {
  }

  /** Turning round keeps a movement direction a movement direction. */
  lemma NegatedIsDirection(d: Vec)
    requires IsDirection(d)
    ensures IsDirection(d.Negated())
  {
  }

  /** What the targeting rules read of Pac-Man: `tileX`, `tileY` and `dir`. */
  datatype PacView = PacView(tile: Vec, dir: Vec)

  /** What the targeting rules read of another ghost: `name`, `tileX`, `tileY`. */
  datatype GhostView = GhostView(name: GhostName, tile: Vec)

  datatype GhostState = Idle | LeavingHouse | JustLeftHouse | Scatter | Chase | Frightened | Eaten

  datatype GhostName = Blinky | Pinky | Inky | Clyde

  /** Pixels per tile (`this.tileSize = 8` in every entity). */
  const TileSize: int := 8

  /** Pixel coordinate of the centre of tile `t` on one axis: `t * tileSize + half`. */
  function Centre(t: int): real
  {
    (t * TileSize) as real + 4.0
  }

  /** The tile holding pixel coordinate `p` on one axis: `Math.floor(p / tileSize)`. */
  function TileOf(p: real): int
  {
    (p / 8.0).Floor
  }

  /** The centre of a tile lies in that tile. */
  lemma TileOfCentre(t: int)
    ensures TileOf(Centre(t)) == t
  {
    assert Centre(t) / 8.0 == t as real + 0.5;
  }

  /** The tunnel wrap that PacMan.update and Ghost.update both apply after moving:
      given the new horizontal pixel position, the position and tile column after
      wrapping. Leaving on the left re-enters at the last pixel of the last column,
      leaving on the right re-enters at pixel 0. */
  function TunnelWrap(px: real, width: int): (r: (real, int))
    ensures r.1 == TileOf(r.0)
    ensures width > 0 ==> 0 <= r.1 < width
    ensures 0 <= TileOf(px) < width ==> r == (px, TileOf(px))
    ensures TileOf(px) < 0 ==> r.1 == width - 1
    ensures TileOf(px) >= width && TileOf(px) >= 0 ==> r == (0.0, 0)
  {
    var tx := TileOf(px);
    if tx < 0 then
      ((width * TileSize) as real - 1.0, width - 1)
    else if tx >= width then
      (0.0, 0)
    else
      (px, tx)
  }
}
