/** The maze grid (src/world/TileMap.js): parsing an ASCII maze into tile kinds,
    total tile queries (anything outside the grid is a tunnel), the blocking
    rules for Pac-Man and for ghosts, and the tiles where ghosts may not turn up. */
module Maze {
  import opened Shared

  datatype Tile = Empty | Dot | PowerPellet | Wall | GhostHouseDoor | GhostHouseFloor | Tunnel | NoTurnUp
  {
    /** A tile that starts out holding something Pac-Man can eat. */
    predicate IsPickup() { this == Dot || this == PowerPellet }
  }

  /** `ASCII_TO_TILE`. */
  const AsciiToTile: map<char, Tile> :=
    map['#' := Wall, '.' := Dot, 'o' := PowerPellet, 'X' := Empty,
        '-' := GhostHouseDoor, '_' := GhostHouseFloor, 'T' := Tunnel, ' ' := Empty]

  /** `ASCII_TO_TILE[char] ?? TILES.EMPTY`: a character outside the table is an empty tile. */
  function TileOfChar(c: char): (t: Tile)
    ensures t == Wall <==> c == '#'
    ensures t == Dot <==> c == '.'
    ensures t == PowerPellet <==> c == 'o'
    ensures t == GhostHouseDoor <==> c == '-'
    ensures t == GhostHouseFloor <==> c == '_'
    ensures t == Tunnel <==> c == 'T'
    ensures t == Empty <==> c !in {'#', '.', 'o', '-', '_', 'T'}
    ensures t != NoTurnUp
  {
    if c in AsciiToTile then AsciiToTile[c] else Empty
  }

  // ---------------------------------------------------------------------------
  // String.prototype.trim and String.prototype.split('\n')
  // ---------------------------------------------------------------------------

  /** The characters `String.prototype.trim` removes: the ECMAScript WhiteSpace
      and LineTerminator code points. */
  predicate IsJsWhitespace(c: char)
  {
    c in {'\t', '\n', '\U{B}', '\U{C}', '\r', ' ', '\U{A0}', '\U{1680}', '\U{2028}',
          '\U{2029}', '\U{202F}', '\U{205F}', '\U{3000}', '\U{FEFF}'}
    || ('\U{2000}' <= c <= '\U{200A}')
  }

  function TrimStart(s: string): (r: string)
    ensures |r| <= |s| && r == s[|s| - |r|..]
    ensures forall i :: 0 <= i < |s| - |r| ==> IsJsWhitespace(s[i])
    ensures r == [] || !IsJsWhitespace(r[0])
  {
    if s != [] && IsJsWhitespace(s[0]) then TrimStart(s[1..]) else s
  }

  function TrimEnd(s: string): (r: string)
    ensures |r| <= |s| && r == s[..|r|]
    ensures forall i :: |r| <= i < |s| ==> IsJsWhitespace(s[i])
    ensures r == [] || !IsJsWhitespace(r[|r| - 1])
  {
    if s != [] && IsJsWhitespace(s[|s| - 1]) then TrimEnd(s[..|s| - 1]) else s
  }

  /** `ascii.trim()`: the text without its leading and trailing white space. */
  function Trim(s: string): (r: string)
    ensures r == [] || (!IsJsWhitespace(r[0]) && !IsJsWhitespace(r[|r| - 1]))
  {
    TrimEnd(TrimStart(s))
  }

  /** `s.split('\n')`: the pieces between newlines; always at least one piece. */
  function Split(s: string): (rows: seq<string>)
    ensures |rows| >= 1
    ensures forall i :: 0 <= i < |rows| ==> '\n' !in rows[i]
  {
    if s == [] then [""]
    else
      var rest := Split(s[1..]);
      if s[0] == '\n' then [""] + rest
      else [[s[0]] + rest[0]] + rest[1..]
  }

  /** `rows.join('\n')`, the inverse of Split. */
  function Join(rows: seq<string>): string
    requires |rows| >= 1
  {
    if |rows| == 1 then rows[0] else rows[0] + "\n" + Join(rows[1..])
  }

  lemma {:induction false} JoinSplit(s: string)
    ensures Join(Split(s)) == s
  {
    if s != [] {
      var rest := Split(s[1..]);
      JoinSplit(s[1..]);
      if s[0] == '\n' {
        assert Split(s) == [""] + rest;
        assert Join(Split(s)) == "" + "\n" + Join(rest);
      } else {
        var first := [s[0]] + rest[0];
        assert Split(s) == [first] + rest[1..];
        if |rest| == 1 {
          assert Join(Split(s)) == first;
        } else {
          assert Join(Split(s)) == first + "\n" + Join(rest[1..]);
          assert Join(rest) == rest[0] + "\n" + Join(rest[1..]);
        }
        assert [s[0]] + s[1..] == s;
      }
    }
  }

  lemma {:induction false} SplitJoin(rows: seq<string>)
    requires |rows| >= 1
    requires forall i :: 0 <= i < |rows| ==> '\n' !in rows[i]
    ensures Split(Join(rows)) == rows
  {
    if |rows| == 1 {
      SplitRow(rows[0]);
    } else {
      SplitJoin(rows[1..]);
      SplitRowThenNewline(rows[0], Join(rows[1..]));
      assert [rows[0]] + rows[1..] == rows;
    }
  }

  /** A piece without newlines splits into itself. */
  lemma {:induction false} SplitRow(row: string)
    requires '\n' !in row
    ensures Split(row) == [row]
  {
    if row != [] {
      SplitRow(row[1..]);
      assert [row[0]] + row[1..] == row;
    }
  }

  lemma {:induction false} SplitRowThenNewline(row: string, tail: string)
    requires '\n' !in row
    ensures Split(row + "\n" + tail) == [row] + Split(tail)
  {
    if row == [] {
      assert row + "\n" + tail == "\n" + tail;
      assert ("\n" + tail)[1..] == tail;
    } else {
      var s := row + "\n" + tail;
      assert s[0] == row[0];
      assert s[1..] == row[1..] + "\n" + tail;
      SplitRowThenNewline(row[1..], tail);
      assert [row[0]] + row[1..] == row;
    }
  }

  /** The rows `parseOptions` works on: `ascii.trim().split('\n')`. */
  function Rows(ascii: string): (rows: seq<string>)
    ensures |rows| >= 1
  {
    Split(Trim(ascii))
  }

  // ---------------------------------------------------------------------------
  // The parsed grid, row by row
  // ---------------------------------------------------------------------------

  /** `rowStr[x] || ' '`: a row shorter than the grid is padded with spaces. */
  function CharAt(row: string, x: nat): char
  {
    if x < |row| then row[x] else ' '
  }

  /** The `width` tiles of one row. */
  function ParseRow(row: string, width: nat): (r: seq<Tile>)
    ensures |r| == width
  {
    seq(width, x requires 0 <= x < width => TileOfChar(CharAt(row, x)))
  }

  /** The flat grid `parseOptions` fills: the rows one after the other. */
  function ParsedGrid(rows: seq<string>, width: nat): seq<Tile>
  {
    if rows == [] then [] else ParseRow(rows[0], width) + ParsedGrid(rows[1..], width)
  }

  lemma {:induction false} ParsedGridLength(rows: seq<string>, width: nat)
    ensures |ParsedGrid(rows, width)| == width * |rows|
  {
    if rows != [] {
      ParsedGridLength(rows[1..], width);
      assert width * |rows| == width + width * (|rows| - 1);
    }
  }

  lemma {:induction false} ParsedGridConcat(rows: seq<string>, more: seq<string>, width: nat)
    ensures ParsedGrid(rows + more, width) == ParsedGrid(rows, width) + ParsedGrid(more, width)
  {
    if rows == [] {
      assert rows + more == more;
    } else {
      assert (rows + more)[1..] == rows[1..] + more;
      ParsedGridConcat(rows[1..], more, width);
    }
  }

  /** Filling row `y` extends the parsed prefix by that row, and the row fits in the grid. */
  lemma ParsedGridNextRow(rows: seq<string>, y: nat, width: nat)
    requires y < |rows|
    ensures ParsedGrid(rows[..y + 1], width) == ParsedGrid(rows[..y], width) + ParseRow(rows[y], width)
    ensures |ParsedGrid(rows[..y], width)| + width <= |ParsedGrid(rows, width)|
  {
    assert rows[..y + 1] == rows[..y] + [rows[y]];
    ParsedGridConcat(rows[..y], [rows[y]], width);
    assert ParsedGrid([rows[y]], width) == ParseRow(rows[y], width) + ParsedGrid([], width);
    assert rows == rows[..y + 1] + rows[y + 1..];
    ParsedGridConcat(rows[..y + 1], rows[y + 1..], width);
  }

  /** Cell (x, y) of the parsed grid is the tile of character x of row y. */
  lemma {:induction false} ParsedGridAt(rows: seq<string>, width: nat, x: nat, y: nat)
    requires x < width && y < |rows|
    ensures y * width + x < |ParsedGrid(rows, width)|
    ensures ParsedGrid(rows, width)[y * width + x] == TileOfChar(CharAt(rows[y], x))
  {
    ParsedGridLength(rows, width);
    CellIndexInRange(x, y, width, |rows|);
    if y > 0 {
      ParsedGridAt(rows[1..], width, x, y - 1);
      assert y * width + x == width + ((y - 1) * width + x);
    }
  }

  // ---------------------------------------------------------------------------
  // Index arithmetic of the flat grid
  // ---------------------------------------------------------------------------

  lemma CellIndexInRange(x: int, y: int, width: int, height: int)
    requires 0 <= x < width && 0 <= y < height
    ensures 0 <= y * width + x < width * height
  {
    assert y * width + x < y * width + width == (y + 1) * width;
    assert (y + 1) * width <= height * width by {
      MulMonotone(y + 1, height, width);
    }
  }

  lemma MulMonotone(a: int, b: int, c: int)
    requires a <= b && 0 <= c
    ensures a * c <= b * c
  {
    assert b * c - a * c == (b - a) * c;
  }

  /** Distinct cells have distinct flat indices. */
  lemma CellIndexInjective(x: int, y: int, x': int, y': int, width: int)
    requires 0 <= x < width && 0 <= x' < width && 0 <= y && 0 <= y'
    requires y * width + x == y' * width + x'
    ensures x == x' && y == y'
  {
    if y < y' {
      MulMonotone(y + 1, y', width);
      assert false;
    } else if y' < y {
      MulMonotone(y' + 1, y, width);
      assert false;
    }
  }

  predicate InBounds(x: int, y: int, width: int, height: int)
  {
    0 <= x < width && 0 <= y < height
  }

  /** `getTile` on a flat grid: out-of-bounds coordinates are tunnels. */
  function Lookup(cells: seq<Tile>, width: nat, height: nat, x: int, y: int): (t: Tile)
    requires |cells| == width * height
    ensures !InBounds(x, y, width, height) ==> t == Tunnel
  {
    if !InBounds(x, y, width, height) then Tunnel
    else
      CellIndexInRange(x, y, width, height);
      cells[y * width + x]
  }

  /** Every cell of a freshly parsed maze is the tile of its character, and every
      cell outside it is a tunnel. */
  lemma LookupParsed(rows: seq<string>, width: nat, x: int, y: int)
    ensures |ParsedGrid(rows, width)| == width * |rows|
    ensures Lookup(ParsedGrid(rows, width), width, |rows|, x, y)
         == if InBounds(x, y, width, |rows|) then TileOfChar(CharAt(rows[y], x)) else Tunnel
  {
    ParsedGridLength(rows, width);
    if InBounds(x, y, width, |rows|) {
      ParsedGridAt(rows, width, x, y);
    }
  }

  /** Writing cell (x, y) with `setTile` changes the answer of `getTile` at (x, y)
      only, and only when (x, y) is inside the grid. */
  lemma LookupAfterSet(cells: seq<Tile>, width: nat, height: nat, x: int, y: int, t: Tile, qx: int, qy: int)
    requires |cells| == width * height
    requires InBounds(x, y, width, height)
    ensures 0 <= y * width + x < |cells|
    ensures Lookup(cells[y * width + x := t], width, height, qx, qy)
         == if qx == x && qy == y then t else Lookup(cells, width, height, qx, qy)
  {
    CellIndexInRange(x, y, width, height);
    if InBounds(qx, qy, width, height) && (qx != x || qy != y) {
      CellIndexInRange(qx, qy, width, height);
      if qy * width + qx == y * width + x {
        CellIndexInjective(qx, qy, x, y, width);
      }
    }
  }

  // ---------------------------------------------------------------------------
  // The no-turn-up overlay
  // ---------------------------------------------------------------------------

  /** The tiles `_setNoTurnUpRegion(x1, y1, x2, y2)` adds: the inclusive rectangle. */
  function Region(x1: int, y1: int, x2: int, y2: int): set<Vec>
  {
    set x, y | x1 <= x <= x2 && y1 <= y <= y2 :: Vec(x, y)
  }

  /** The overlay `applyNoTurnUpZones` builds: columns 12 to 15 of rows 11 and 23. */
  function NoTurnUpZones(): set<Vec>
  {
    {Vec(12, 11), Vec(13, 11), Vec(14, 11), Vec(15, 11),
     Vec(12, 23), Vec(13, 23), Vec(14, 23), Vec(15, 23)}
  }

  /** The two `_setNoTurnUpRegion` calls of `applyNoTurnUpZones` lay exactly that overlay. */
  lemma NoTurnUpZonesAreRegions()
    ensures NoTurnUpZones() == Region(12, 11, 15, 11) + Region(12, 23, 15, 23)
  {
    var r := Region(12, 11, 15, 11) + Region(12, 23, 15, 23);
    forall v | v in r ensures v in NoTurnUpZones() {
      var x, y :| 12 <= x <= 15 && (y == 11 || y == 23) && v == Vec(x, y);
    }
    forall v | v in NoTurnUpZones() ensures v in r {
      assert v in Region(12, v.y, 15, v.y);
    }
  }

  class TileMap {
    var width: nat
    var height: nat
    var grid: array<Tile>
    var noTurnUpTiles: set<Vec>

    ghost predicate Valid()
      reads this
    {
      grid.Length == width * height && noTurnUpTiles == NoTurnUpZones()
    }

    /** `new TileMap(asciiMaze)`: parse, then lay the no-turn-up overlay. */
    constructor (asciiMaze: string)
      ensures Valid() && fresh(grid)
      ensures height == |Rows(asciiMaze)| && width == |Rows(asciiMaze)[0]|
      ensures grid[..] == ParsedGrid(Rows(asciiMaze), width)
    {
      width, height := 0, 0;
      grid := new Tile[0];
      noTurnUpTiles := {};
      new;
      ParseOptions(asciiMaze);
      ParsedGridLength(Rows(asciiMaze), width);
      ApplyNoTurnUpZones();
    }

    /** `parseOptions`: height is the number of rows, width the length of the
        first row, and the grid is filled row by row. */
    method ParseOptions(ascii: string)
      modifies this
      ensures fresh(grid)
      ensures height == |Rows(ascii)| && width == |Rows(ascii)[0]|
      ensures grid[..] == ParsedGrid(Rows(ascii), width)
      ensures noTurnUpTiles == old(noTurnUpTiles)
    {
      var rows := Split(Trim(ascii));
      var h, w := |rows|, |rows[0]|;
      var cells := ParseCells(rows, w);
      height, width, grid := h, w, cells;
    }

    /** The nested loops of `parseOptions`: one cell per character of each row,
        rows padded with spaces to `w` characters. */
    static method ParseCells(rows: seq<string>, w: nat) returns (cells: array<Tile>)
      ensures fresh(cells) && cells[..] == ParsedGrid(rows, w)
    {
      // `width * height` cells, one per character of the padded rows (ParsedGridLength)
      cells := new Tile[|ParsedGrid(rows, w)|];
      var y, rowStart: nat := 0, 0;
      while y < |rows|
        invariant 0 <= y <= |rows|
        invariant cells.Length == |ParsedGrid(rows, w)|
        invariant rowStart <= cells.Length && cells[..rowStart] == ParsedGrid(rows[..y], w)
        modifies cells
      {
        ParsedGridNextRow(rows, y, w);
        FillRow(cells, rowStart, rows[y], w);
        y, rowStart := y + 1, rowStart + w;
      }
      assert rows[..y] == rows;
      assert cells[..] == cells[..rowStart];
    }

    /** One pass of the inner loop of `parseOptions`: the tiles of row `rowStr`,
        padded with spaces to `w` characters, are written from `rowStart` on. */
    static method FillRow(cells: array<Tile>, rowStart: nat, rowStr: string, w: nat)
      requires rowStart + w <= cells.Length
      modifies cells
      ensures cells[..rowStart + w] == old(cells[..rowStart]) + ParseRow(rowStr, w)
      ensures cells[rowStart + w..] == old(cells[rowStart + w..])
    {
      ghost var row := ParseRow(rowStr, w);
      var x := 0;
      while x < w
        invariant 0 <= x <= w
        invariant cells[..rowStart + x] == old(cells[..rowStart]) + row[..x]
        invariant cells[rowStart + w..] == old(cells[rowStart + w..])
      {
        var ch := if x < |rowStr| then rowStr[x] else ' ';
        cells[rowStart + x] := TileOfChar(ch);
        assert cells[..rowStart + x + 1] == cells[..rowStart + x] + [cells[rowStart + x]];
        x := x + 1;
      }
      assert row[..w] == row;
    }

    /** `applyNoTurnUpZones`. */
    method ApplyNoTurnUpZones()
      modifies this`noTurnUpTiles
      ensures noTurnUpTiles == NoTurnUpZones()
    {
      noTurnUpTiles := {};
      SetNoTurnUpRegion(12, 11, 15, 11);
      SetNoTurnUpRegion(12, 23, 15, 23);
      NoTurnUpZonesAreRegions();
    }

    /** `_setNoTurnUpRegion`: add every tile of the inclusive rectangle. */
    method SetNoTurnUpRegion(x1: int, y1: int, x2: int, y2: int)
      modifies this`noTurnUpTiles
      ensures noTurnUpTiles == old(noTurnUpTiles) + Region(x1, y1, x2, y2)
    {
      var y := y1;
      while y <= y2
        invariant y1 <= y && (y <= y2 + 1 || y == y1)
        invariant noTurnUpTiles == old(noTurnUpTiles) + Region(x1, y1, x2, y - 1)
        decreases y2 - y
      {
        var x := x1;
        while x <= x2
          invariant x1 <= x && (x <= x2 + 1 || x == x1)
          invariant noTurnUpTiles == old(noTurnUpTiles) + Region(x1, y1, x2, y - 1) + Region(x1, y, x - 1, y)
          decreases x2 - x
        {
          noTurnUpTiles := noTurnUpTiles + {Vec(x, y)};
          assert Region(x1, y, x, y) == Region(x1, y, x - 1, y) + {Vec(x, y)};
          x := x + 1;
        }
        assert Region(x1, y1, x2, y) == Region(x1, y1, x2, y - 1) + Region(x1, y, x - 1, y);
        y := y + 1;
      }
      assert Region(x1, y1, x2, y - 1) == Region(x1, y1, x2, y2);
    }

    /** `isNoTurnUpTile`. */
    predicate IsNoTurnUpTile(x: int, y: int)
      reads this
      requires Valid()
      ensures IsNoTurnUpTile(x, y) <==> 12 <= x <= 15 && (y == 11 || y == 23)
    {
      Vec(x, y) in noTurnUpTiles
    }

    /** `getTile`: total; anything outside the grid is a tunnel. */
    function GetTile(x: int, y: int): (t: Tile)
      reads this, grid
      requires Valid()
      ensures !InBounds(x, y, width, height) ==> t == Tunnel
      ensures InBounds(x, y, width, height) ==> 0 <= y * width + x < grid.Length && t == grid[y * width + x]
    {
      if InBounds(x, y, width, height) then
        CellIndexInRange(x, y, width, height);
        Lookup(grid[..], width, height, x, y)
      else
        Tunnel
    }

    /** `setTile`: writes the addressed cell when it is inside the grid, else does nothing. */
    method SetTile(x: int, y: int, t: Tile)
      requires Valid()
      modifies grid
      ensures Valid()
      ensures InBounds(x, y, width, height) ==>
                0 <= y * width + x < grid.Length && grid[..] == old(grid[..])[y * width + x := t]
      ensures !InBounds(x, y, width, height) ==> grid[..] == old(grid[..])
    {
      if 0 <= x < width && 0 <= y < height {
        CellIndexInRange(x, y, width, height);
        grid[y * width + x] := t;
      }
    }

    /** `isSolidForPacman`: walls and the ghost-house door. */
    predicate IsSolidForPacman(x: int, y: int)
      reads this, grid
      requires Valid()
      ensures IsSolidForPacman(x, y) ==> InBounds(x, y, width, height)
      ensures IsSolidForPacman(x, y) <==> GetTile(x, y) in {Wall, GhostHouseDoor}
    {
      var t := GetTile(x, y);
      t == Wall || t == GhostHouseDoor
    }

    /** `isSolidForGhost`: walls always; the door unless the ghost is going
        home (EATEN) or leaving it (LEAVING_HOUSE). */
    predicate IsSolidForGhost(x: int, y: int, state: GhostState)
      reads this, grid
      requires Valid()
      ensures IsSolidForGhost(x, y, state) ==> IsSolidForPacman(x, y)
      ensures IsSolidForPacman(x, y) && state != Eaten && state != LeavingHouse ==> IsSolidForGhost(x, y, state)
      ensures GetTile(x, y) == Wall ==> IsSolidForGhost(x, y, state)
      ensures GetTile(x, y) == GhostHouseDoor && (state == Eaten || state == LeavingHouse) ==> !IsSolidForGhost(x, y, state)
    {
      var t := GetTile(x, y);
      if t == Wall then true
      else if t == GhostHouseDoor && state != Eaten && state != LeavingHouse then true
      else false
    }
  }
}
