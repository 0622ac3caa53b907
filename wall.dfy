/**
 * The static map: brick and iron tiles on the 24-pixel grid, the fixed layout
 * that `Map()` builds, and the removal of tiles struck by a bullet.
 */
module Wall {
  import opened Geometry

  /** A grid cell; its tile sits at pixel (3 + 24x, 3 + 24y). */
  datatype Cell = Cell(x: int, y: int)

  /** The box of the tile placed for cell `c` (`_place_brick` / `_place_iron`). */
  function TileRect(c: Cell): Rect {
    Rect(Margin + TileSize * c.x, Margin + TileSize * c.y, TileSize, TileSize)
  }

  /** The cell whose tile has its top-left corner at that of `r`. */
  function CellAt(r: Rect): Cell {
    Cell((r.left - Margin) / TileSize, (r.top - Margin) / TileSize)
  }

  /** A tile's box has its corner at (3 + 24x, 3 + 24y), and the cell can be read back from it. */
  lemma TilePlacement(c: Cell)
    ensures TileRect(c).left == 3 + 24 * c.x && TileRect(c).top == 3 + 24 * c.y
    ensures TileRect(c).width == 24 && TileRect(c).height == 24
    ensures CellAt(TileRect(c)) == c
  {
    assert (TileSize * c.x) / TileSize == c.x;
    assert (TileSize * c.y) / TileSize == c.y;
  }

  // The layout lists of `Map.__init__`.
  const X1379: seq<int> := [2, 3, 6, 7, 18, 19, 22, 23]
  const Y1379: seq<int> := [2, 3, 4, 5, 6, 7, 8, 9, 10, 17, 18, 19, 20, 21, 22, 23]
  const X28: seq<int> := [10, 11, 14, 15]
  const Y28: seq<int> := [2, 3, 4, 5, 6, 7, 8, 11, 12, 15, 16, 17, 18, 19, 20]
  const X46: seq<int> := [4, 5, 6, 7, 18, 19, 20, 21]
  const Y46: seq<int> := [13, 14]
  const X5: seq<int> := [12, 13]
  const Y5: seq<int> := [16, 17]
  /** The bricks around the base; also the cells of the K_1 and power-up 4 walls. */
  const X0Y0: seq<Cell> :=
    [Cell(11, 23), Cell(12, 23), Cell(13, 23), Cell(14, 23),
     Cell(11, 24), Cell(14, 24), Cell(11, 25), Cell(14, 25)]
  const IronPositions: seq<Cell> :=
    [Cell(0, 14), Cell(1, 14), Cell(12, 6), Cell(13, 6),
     Cell(12, 7), Cell(13, 7), Cell(24, 14), Cell(25, 14)]

  /** The cells `for y in ys: place(x, y)` visits, in order. */
  function Column(x: int, ys: seq<int>): seq<Cell>
    decreases |ys|
  {
    if ys == [] then [] else Column(x, ys[..|ys| - 1]) + [Cell(x, ys[|ys| - 1])]
  }

  /** The cells `for x in xs: for y in ys: place(x, y)` visits, in order. */
  function Grid(xs: seq<int>, ys: seq<int>): seq<Cell>
    decreases |xs|
  {
    if xs == [] then [] else Grid(xs[..|xs| - 1], ys) + Column(xs[|xs| - 1], ys)
  }

  /** The bricks `Map()` places, in placement order. */
  function BrickLayout(): seq<Cell> {
    Grid(X1379, Y1379) + Grid(X28, Y28) + Grid(X46, Y46) + Grid(X5, Y5) + X0Y0
  }

  /** The irons `Map()` places, in placement order. */
  function IronLayout(): seq<Cell> {
    IronPositions
  }

  /** Membership in the brick layout as a condition on the cell itself. */
  predicate BrickCell(c: Cell) {
    (c.x in X1379 && c.y in Y1379) || (c.x in X28 && c.y in Y28) ||
    (c.x in X46 && c.y in Y46) || (c.x in X5 && c.y in Y5) || c in X0Y0
  }

  predicate Distinct<T(==)>(s: seq<T>) {
    forall i, j :: 0 <= i < j < |s| ==> s[i] != s[j]
  }

  /** The mirror image of a cell under x |-> 25 - x. */
  function Mirror(c: Cell): Cell {
    Cell(25 - c.x, c.y)
  }

  /** Some tile of `cells` overlaps `r` (pygame.sprite.spritecollide is non-empty). */
  predicate HitsTile(r: Rect, cells: seq<Cell>) {
    exists k :: 0 <= k < |cells| && r.Collides(TileRect(cells[k]))
  }

  /** The tiles that survive `spritecollide(sprite, group, True)` for a sprite with box `r`. */
  function Unhit(cells: seq<Cell>, r: Rect): seq<Cell>
  {
    if cells == [] then []
    else (if r.Collides(TileRect(cells[0])) then [] else [cells[0]]) + Unhit(cells[1..], r)
  }

  // ---------------------------------------------------------------------------
  // Lemmas about the grid construction

  lemma {:induction false} ColumnFacts(x: int, ys: seq<int>)
    ensures |Column(x, ys)| == |ys|
    ensures forall k :: 0 <= k < |ys| ==> Column(x, ys)[k] == Cell(x, ys[k])
    decreases |ys|
  {
    if ys != [] {
      ColumnFacts(x, ys[..|ys| - 1]);
    }
  }

  lemma {:induction false} GridSize(xs: seq<int>, ys: seq<int>)
    ensures |Grid(xs, ys)| == |xs| * |ys|
    decreases |xs|
  {
    if xs != [] {
      GridSize(xs[..|xs| - 1], ys);
      ColumnFacts(xs[|xs| - 1], ys);
      assert |xs| * |ys| == (|xs| - 1) * |ys| + |ys|;
    }
  }

  lemma {:induction false} GridMembers(xs: seq<int>, ys: seq<int>, c: Cell)
    ensures c in Grid(xs, ys) <==> c.x in xs && c.y in ys
    decreases |xs|
  {
    if xs != [] {
      var init, last := xs[..|xs| - 1], xs[|xs| - 1];
      assert xs == init + [last];
      GridMembers(init, ys, c);
      ColumnFacts(last, ys);
      if c in Column(last, ys) {
        var k :| 0 <= k < |Column(last, ys)| && Column(last, ys)[k] == c;
        assert c.y == ys[k];
      }
      if c.x == last && c.y in ys {
        var k :| 0 <= k < |ys| && ys[k] == c.y;
        assert Column(last, ys)[k] == c;
      }
    }
  }

  lemma DistinctConcat<T>(a: seq<T>, b: seq<T>)
    requires Distinct(a) && Distinct(b)
    requires forall t :: t in a ==> t !in b
    ensures Distinct(a + b)
  {
    forall i, j | 0 <= i < j < |a + b|
      ensures (a + b)[i] != (a + b)[j]
    {
      if j >= |a| && i < |a| {
        assert (a + b)[i] in a && (a + b)[j] in b;
      }
    }
  }

  lemma {:induction false} GridDistinct(xs: seq<int>, ys: seq<int>)
    requires Distinct(xs) && Distinct(ys)
    ensures Distinct(Grid(xs, ys))
    decreases |xs|
  {
    if xs != [] {
      var init, last := xs[..|xs| - 1], xs[|xs| - 1];
      GridDistinct(init, ys);
      ColumnFacts(last, ys);
      assert Distinct(Column(last, ys));
      forall c | c in Grid(init, ys) ensures c !in Column(last, ys) {
        GridMembers(init, ys, c);
        assert last !in init;
      }
      DistinctConcat(Grid(init, ys), Column(last, ys));
    }
  }

  /** Membership in the brick layout is exactly `BrickCell`. */
  lemma BrickLayoutMembers(c: Cell)
    ensures c in BrickLayout() <==> BrickCell(c)
  {
    GridMembers(X1379, Y1379, c);
    GridMembers(X28, Y28, c);
    GridMembers(X46, Y46, c);
    GridMembers(X5, Y5, c);
  }

  // ---------------------------------------------------------------------------
  // Properties of the layout

  /** `Map()` places 8*16 + 4*15 + 8*2 + 2*2 + 8 = 216 bricks and 8 irons. */
  lemma LayoutCount()
    ensures |BrickLayout()| == 216 && |IronLayout()| == 8
  {
    GridSize(X1379, Y1379);
    GridSize(X28, Y28);
    GridSize(X46, Y46);
    GridSize(X5, Y5);
  }

  /** The layout lists themselves hold no repeated value. */
  lemma ListsDistinct()
    ensures Distinct(X1379) && Distinct(Y1379) && Distinct(X28) && Distinct(Y28)
    ensures Distinct(X46) && Distinct(Y46) && Distinct(X5) && Distinct(Y5)
    ensures Distinct(X0Y0) && Distinct(IronPositions)
  {
  }

  /** The five brick blocks of the layout cover disjoint cells. */
  predicate InBlocks(c: Cell, n: nat) {
    (n >= 1 && c.x in X1379 && c.y in Y1379) || (n >= 2 && c.x in X28 && c.y in Y28) ||
    (n >= 3 && c.x in X46 && c.y in Y46) || (n >= 4 && c.x in X5 && c.y in Y5)
  }

  lemma BlocksApart(c: Cell)
    ensures c.x in X28 && c.y in Y28 ==> !InBlocks(c, 1)
    ensures c.x in X46 && c.y in Y46 ==> !InBlocks(c, 2)
    ensures c.x in X5 && c.y in Y5 ==> !InBlocks(c, 3)
    ensures c in X0Y0 ==> !InBlocks(c, 4)
    ensures BrickCell(c) ==> c !in IronPositions
  {
    ListRanges(c.x);
    ListRanges(c.y);
    HomeApart(c);
    IronApart(c);
  }

  /** The layout lists as ranges of values. */
  lemma ListRanges(v: int)
    ensures v in X1379 <==> 2 <= v <= 3 || 6 <= v <= 7 || 18 <= v <= 19 || 22 <= v <= 23
    ensures v in Y1379 <==> 2 <= v <= 10 || 17 <= v <= 23
    ensures v in X28 <==> 10 <= v <= 11 || 14 <= v <= 15
    ensures v in Y28 <==> 2 <= v <= 8 || 11 <= v <= 12 || 15 <= v <= 20
    ensures v in X46 <==> 4 <= v <= 7 || 18 <= v <= 21
    ensures v in Y46 <==> 13 <= v <= 14
    ensures v in X5 <==> 12 <= v <= 13
    ensures v in Y5 <==> 16 <= v <= 17
  {
  }

  /** Where the cells around the base and the iron cells lie. */
  lemma CellRanges(c: Cell)
    ensures c in X0Y0 ==> 11 <= c.x <= 14 && 23 <= c.y <= 25
    ensures c in IronPositions ==> (c.y == 14 && (c.x <= 1 || 24 <= c.x)) || (6 <= c.y <= 7 && 12 <= c.x <= 13)
  {
  }

  /** The cells around the base lie in none of the grid blocks. */
  lemma HomeApart(c: Cell)
    ensures c in X0Y0 ==> !InBlocks(c, 4)
  {
    ListRanges(c.x);
    ListRanges(c.y);
    CellRanges(c);
  }

  /** The iron cells lie in none of the brick blocks. */
  lemma IronApart(c: Cell)
    ensures c in IronPositions ==> !BrickCell(c)
  {
    ListRanges(c.x);
    ListRanges(c.y);
    CellRanges(c);
  }

  /** The first `n` grid blocks of the brick layout, concatenated. */
  function Blocks(n: nat): seq<Cell>
    requires n <= 4
  {
    if n == 0 then []
    else if n == 1 then Grid(X1379, Y1379)
    else if n == 2 then Blocks(1) + Grid(X28, Y28)
    else if n == 3 then Blocks(2) + Grid(X46, Y46)
    else Blocks(3) + Grid(X5, Y5)
  }

  /** The cells of the first n blocks. */
  lemma {:induction false} BlocksMembers(n: nat, c: Cell)
    requires n <= 4
    ensures c in Blocks(n) <==> InBlocks(c, n)
  {
    if n == 1 {
      GridMembers(X1379, Y1379, c);
    } else if n == 2 {
      BlocksMembers(1, c);
      GridMembers(X28, Y28, c);
    } else if n == 3 {
      BlocksMembers(2, c);
      GridMembers(X46, Y46, c);
    } else if n == 4 {
      BlocksMembers(3, c);
      GridMembers(X5, Y5, c);
    }
  }

  /** The first n blocks hold no cell twice. */
  lemma {:induction false} BlocksFacts(n: nat, c: Cell)
    requires n <= 4
    ensures c in Blocks(n) <==> InBlocks(c, n)
    ensures Distinct(Blocks(n))
  {
    ListsDistinct();
    BlocksMembers(n, c);
    if n == 1 {
      GridDistinct(X1379, Y1379);
    } else if n > 1 {
      var xs, ys := if n == 2 then X28 else if n == 3 then X46 else X5,
                    if n == 2 then Y28 else if n == 3 then Y46 else Y5;
      assert Blocks(n) == Blocks(n - 1) + Grid(xs, ys);
      BlocksFacts(n - 1, c);
      GridDistinct(xs, ys);
      forall d | d in Blocks(n - 1) ensures d !in Grid(xs, ys) {
        BlocksMembers(n - 1, d);
        GridMembers(xs, ys, d);
        BlocksApart(d);
      }
      DistinctConcat(Blocks(n - 1), Grid(xs, ys));
    }
  }

  /** No two bricks share a cell, no two irons share a cell, and no cell holds both. */
  lemma LayoutDistinct()
    ensures Distinct(BrickLayout()) && Distinct(IronLayout())
    ensures forall c :: c in BrickLayout() ==> c !in IronLayout()
  {
    ListsDistinct();
    assert BrickLayout() == Blocks(4) + X0Y0;
    BlocksFacts(4, Cell(0, 0));
    forall c | c in Blocks(4) ensures c !in X0Y0 {
      BlocksFacts(4, c);
      BlocksApart(c);
    }
    DistinctConcat(Blocks(4), X0Y0);
    forall c | c in BrickLayout() ensures c !in IronLayout() {
      BrickLayoutMembers(c);
      BlocksApart(c);
    }
  }

  /** Tile cells, described without the layout sequences. */
  predicate TileCell(c: Cell) {
    BrickCell(c) || c in IronPositions
  }

  lemma TileCellOf(c: Cell)
    requires c in BrickLayout() || c in IronLayout()
    ensures TileCell(c)
  {
    BrickLayoutMembers(c);
  }

  lemma TileCellInBounds(c: Cell)
    requires TileCell(c)
    ensures 0 <= c.x <= 25 && 0 <= c.y <= 25
  {
  }

  /** Every tile cell lies in 0..25 x 0..25, so every tile box lies inside the margin. */
  lemma LayoutInBounds(c: Cell)
    requires c in BrickLayout() || c in IronLayout()
    ensures 0 <= c.x <= 25 && 0 <= c.y <= 25
    ensures !OutOfField(TileRect(c))
  {
    TileCellOf(c);
    TileCellInBounds(c);
  }

  lemma BrickCellMirror(c: Cell)
    ensures BrickCell(c) <==> BrickCell(Mirror(c))
  {
  }

  lemma IronCellMirror(c: Cell)
    ensures c in IronPositions <==> Mirror(c) in IronPositions
  {
  }

  /** The layout is symmetric under x |-> 25 - x, for bricks and for irons. */
  lemma LayoutMirror(c: Cell)
    ensures c in BrickLayout() <==> Mirror(c) in BrickLayout()
    ensures c in IronLayout() <==> Mirror(c) in IronLayout()
  {
    BrickLayoutMembers(c);
    BrickLayoutMembers(Mirror(c));
    BrickCellMirror(c);
    IronCellMirror(c);
  }

  lemma TileCellOffBase(c: Cell)
    requires TileCell(c)
    ensures !(12 <= c.x <= 13 && 24 <= c.y <= 25)
  {
  }

  /** No tile covers the base cells 12..13 x 24..25. */
  lemma HomeUncovered(c: Cell)
    requires c in BrickLayout() || c in IronLayout()
    ensures !(12 <= c.x <= 13 && 24 <= c.y <= 25)
  {
    TileCellOf(c);
    TileCellOffBase(c);
  }

  /** The spawn boxes of the two players and the three enemy lanes. */
  predicate SpawnBox(box: Rect) {
    box == TankBox(195, 579) || box == TankBox(387, 579) ||
    box == TankBox(3, 3) || box == TankBox(291, 3) || box == TankBox(579, 3)
  }

  lemma TileCellOffSpawns(c: Cell, box: Rect)
    requires TileCell(c) && SpawnBox(box)
    ensures !box.Collides(TileRect(c))
  {
  }

  /**
   * The two player spawn boxes, (195, 579) and (387, 579), and the three enemy
   * lane boxes at top 3 overlap no tile of the layout.
   */
  lemma SpawnsUncovered(c: Cell, box: Rect)
    requires c in BrickLayout() || c in IronLayout()
    requires SpawnBox(box)
    ensures !box.Collides(TileRect(c))
  {
    TileCellOf(c);
    TileCellOffSpawns(c, box);
  }

  // ---------------------------------------------------------------------------
  // Lemmas about tile removal

  /** A tile survives a hit by `r` exactly when it was there and does not overlap `r`. */
  lemma {:induction false} UnhitMembers(cells: seq<Cell>, r: Rect, c: Cell)
    ensures c in Unhit(cells, r) <==> c in cells && !r.Collides(TileRect(c))
    decreases |cells|
  {
    if cells != [] {
      UnhitMembers(cells[1..], r, c);
      assert cells == [cells[0]] + cells[1..];
    }
  }

  /** Tiles are removed exactly when some tile is hit; otherwise the group is untouched. */
  lemma {:induction false} UnhitShrinks(cells: seq<Cell>, r: Rect)
    ensures |Unhit(cells, r)| <= |cells|
    ensures HitsTile(r, cells) <==> |Unhit(cells, r)| < |cells|
    ensures !HitsTile(r, cells) ==> Unhit(cells, r) == cells
    decreases |cells|
  {
    if cells != [] {
      UnhitShrinks(cells[1..], r);
      if HitsTile(r, cells[1..]) {
        var k :| 0 <= k < |cells[1..]| && r.Collides(TileRect(cells[1..][k]));
        assert r.Collides(TileRect(cells[k + 1]));
      }
      if HitsTile(r, cells) && !r.Collides(TileRect(cells[0])) {
        var k :| 0 <= k < |cells| && r.Collides(TileRect(cells[k]));
        assert r.Collides(TileRect(cells[1..][k - 1]));
      }
      assert cells == [cells[0]] + cells[1..];
    }
  }

  /** Removing struck tiles keeps a group free of duplicates. */
  lemma {:induction false} UnhitDistinct(cells: seq<Cell>, r: Rect)
    requires Distinct(cells)
    ensures Distinct(Unhit(cells, r))
    decreases |cells|
  {
    if cells != [] {
      assert Distinct(cells[1..]);
      UnhitDistinct(cells[1..], r);
      var head := if r.Collides(TileRect(cells[0])) then [] else [cells[0]];
      forall t | t in head ensures t !in Unhit(cells[1..], r) {
        UnhitMembers(cells[1..], r, t);
      }
      DistinctConcat(head, Unhit(cells[1..], r));
    }
  }

  /** The brick and iron groups of the map (pygame sprite groups, in insertion order). */
  class Map {
    var bricks: seq<Cell>
    var irons: seq<Cell>

    /** The map as `Map()` builds it. */
    predicate Pristine()
      reads this
    {
      bricks == BrickLayout() && irons == IronLayout()
    }

    /** `Map()`: place the fixed layout, block by block, then the irons. */
    constructor ()
      ensures Pristine()
    {
      bricks, irons := [], [];
      new;
      PlaceBrickGrid(X1379, Y1379);
      assert bricks == Blocks(1);
      PlaceBrickGrid(X28, Y28);
      assert bricks == Blocks(2);
      PlaceBrickGrid(X46, Y46);
      assert bricks == Blocks(3);
      PlaceBrickGrid(X5, Y5);
      assert bricks == Blocks(4);
      PlaceBricks(X0Y0);
      PlaceIrons(IronPositions);
      assert irons == IronLayout();
      assert bricks == Blocks(4) + X0Y0;
    }

    /** `_place_brick(x, y)`: one more brick, at cell (x, y). */
    method PlaceBrick(x: int, y: int)
      modifies this
      ensures bricks == old(bricks) + [Cell(x, y)] && irons == old(irons)
    {
      bricks := bricks + [Cell(x, y)];
    }

    /** `_place_iron(x, y)`: one more iron, at cell (x, y). */
    method PlaceIron(x: int, y: int)
      modifies this
      ensures irons == old(irons) + [Cell(x, y)] && bricks == old(bricks)
    {
      irons := irons + [Cell(x, y)];
    }

    /** One of the nested `for x in xs: for y in ys: self._place_brick(x, y)` loops. */
    method PlaceBrickGrid(xs: seq<int>, ys: seq<int>)
      modifies this
      ensures bricks == old(bricks) + Grid(xs, ys) && irons == old(irons)
    {
      for i := 0 to |xs|
        invariant bricks == old(bricks) + Grid(xs[..i], ys)
        invariant irons == old(irons)
      {
        assert xs[..i + 1][..i] == xs[..i];
        for j := 0 to |ys|
          invariant bricks == old(bricks) + Grid(xs[..i], ys) + Column(xs[i], ys[..j])
          invariant irons == old(irons)
        {
          PlaceBrick(xs[i], ys[j]);
          assert ys[..j + 1][..j] == ys[..j];
        }
        assert ys[..|ys|] == ys;
      }
      assert xs[..|xs|] == xs;
    }

    /** `for x, y in cells: self._place_brick(x, y)` */
    method PlaceBricks(cells: seq<Cell>)
      modifies this
      ensures bricks == old(bricks) + cells && irons == old(irons)
    {
      for k := 0 to |cells|
        invariant bricks == old(bricks) + cells[..k] && irons == old(irons)
      {
        PlaceBrick(cells[k].x, cells[k].y);
        assert cells[..k + 1] == cells[..k] + [cells[k]];
      }
      assert cells[..|cells|] == cells;
    }

    /** `for x, y in cells: self._place_iron(x, y)` */
    method PlaceIrons(cells: seq<Cell>)
      modifies this
      ensures irons == old(irons) + cells && bricks == old(bricks)
    {
      for k := 0 to |cells|
        invariant irons == old(irons) + cells[..k] && bricks == old(bricks)
      {
        PlaceIron(cells[k].x, cells[k].y);
        assert cells[..k + 1] == cells[..k] + [cells[k]];
      }
      assert cells[..|cells|] == cells;
    }

    /**
     * `spritecollide(bullet, brickGroup, True)` for a bullet with box `r`:
     * every brick the bullet overlaps is removed, whatever the bullet's strength.
     */
    method Shatter(r: Rect) returns (hit: bool)
      modifies this
      ensures hit == HitsTile(r, old(bricks))
      ensures bricks == Unhit(old(bricks), r) && irons == old(irons)
    {
      hit := HitsTile(r, bricks);
      bricks := Unhit(bricks, r);
    }

    /**
     * The iron test of a bullet with box `r`: a strong bullet removes every
     * iron it overlaps (dokill True), a plain one removes none (dokill False).
     */
    method Strike(r: Rect, strong: bool) returns (hit: bool)
      modifies this
      ensures hit == HitsTile(r, old(irons))
      ensures irons == (if strong then Unhit(old(irons), r) else old(irons))
      ensures bricks == old(bricks)
    {
      hit := HitsTile(r, irons);
      if strong {
        irons := Unhit(irons, r);
      }
    }
  }
}
