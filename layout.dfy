// buildBricks / createBrick: the brick layout as a function of the level's
// cells in row-major order. A cursor walks 160x60 cells; before each cell it
// wraps to the next row once x has passed width - 160, and a wrap whose new
// y passes height / 2 sets a skip flag that stays set for the rest of the
// build, so every later cell is dropped. Level rows are not layout rows:
// wrapping depends on x alone.

module Layout {
  import opened Geometry
  import opened Bricks
  import opened Levels

  /** The builder's running position ({x, y} in the source) and its skip flag. */
  datatype Cursor = Cursor(x: real, y: real, skip: bool)

  /** Horizontal offset of every row: half of what is left after whole 160-wide cells. */
  function StartX(cfg: Config): real {
    (cfg.width % 160) as real / 2.0
  }

  function Origin(cfg: Config): Cursor {
    Cursor(StartX(cfg), 60.0, false)
  }

  /** The wrap check run before every cell. */
  function Wrap(c: Cursor, cfg: Config): Cursor {
    if c.x > cfg.width as real - 160.0 then
      var y := c.y + 60.0;
      Cursor(StartX(cfg), y, c.skip || y > cfg.height as real / 2.0)
    else c
  }

  /** The bricks a cell adds at the (already wrapped) cursor. */
  function Place(c: Cursor, v: int): seq<Brick> {
    if c.skip then [] else NewBrick(c.x, c.y, v)
  }

  /** After a cell that was not skipped, x moves one cell right, whatever the value. */
  function Advance(c: Cursor): Cursor {
    if c.skip then c else c.(x := c.x + 160.0)
  }

  /** The cursor once the given cells have been visited. */
  function CursorAfter(cells: seq<int>, cfg: Config): Cursor {
    if cells == [] then Origin(cfg)
    else Advance(Wrap(CursorAfter(cells[..|cells| - 1], cfg), cfg))
  }

  /** The bricks appended, in order, while visiting the given cells. */
  function Built(cells: seq<int>, cfg: Config): seq<Brick> {
    if cells == [] then []
    else
      var prefix := cells[..|cells| - 1];
      Built(prefix, cfg) + Place(Wrap(CursorAfter(prefix, cfg), cfg), cells[|cells| - 1])
  }

  /** Cell i is dropped: the skip flag is set once its wrap check has run. */
  predicate Dropped(cells: seq<int>, i: nat, cfg: Config)
    requires i < |cells|
  {
    Wrap(CursorAfter(cells[..i], cfg), cfg).skip
  }

  /** Number of cells that were laid out (not dropped). */
  function Kept(cells: seq<int>, cfg: Config): (n: nat)
    ensures n <= |cells|
  {
    if cells == [] then 0
    else if Dropped(cells, |cells| - 1, cfg) then Kept(cells[..|cells| - 1], cfg)
    else |cells|
  }

  /** One more cell: how the cursor and the brick list grow. */
  lemma Step(cells: seq<int>, v: int, cfg: Config)
    ensures CursorAfter(cells + [v], cfg) == Advance(Wrap(CursorAfter(cells, cfg), cfg))
    ensures Built(cells + [v], cfg) == Built(cells, cfg) + Place(Wrap(CursorAfter(cells, cfg), cfg), v)
  {
    assert (cells + [v])[..|cells|] == cells;
  }

  /** One more cell, as the builder's loop sees it: appended to bricks already in the list. */
  lemma AppendCell(prev: seq<Brick>, seen: seq<int>, t: int, cfg: Config)
    ensures CursorAfter(seen + [t], cfg) == Advance(Wrap(CursorAfter(seen, cfg), cfg))
    ensures prev + Built(seen, cfg) + Place(Wrap(CursorAfter(seen, cfg), cfg), t) == prev + Built(seen + [t], cfg)
    ensures ActiveCount(Built(seen + [t], cfg))
            == ActiveCount(Built(seen, cfg)) + ActiveCount(Place(Wrap(CursorAfter(seen, cfg), cfg), t))
  {
    var built, placed := Built(seen, cfg), Place(Wrap(CursorAfter(seen, cfg), cfg), t);
    Step(seen, t, cfg);
    assert prev + built + placed == prev + (built + placed);
    ActiveCountAppend(built, placed);
  }

  /** Visiting one more cell of the current level row. */
  lemma NextCell(done: seq<int>, row: seq<int>, j: nat)
    requires j < |row|
    ensures done + row[..j + 1] == (done + row[..j]) + [row[j]]
  {
    assert row[..j + 1] == row[..j] + [row[j]];
  }

  lemma PrefixDropped(cells: seq<int>, k: nat, i: nat, cfg: Config)
    requires i < k <= |cells|
    ensures Dropped(cells[..k], i, cfg) == Dropped(cells, i, cfg)
  {
    assert cells[..k][..i] == cells[..i];
  }

  /** The skip flag is sticky: once a cell is dropped, every later cell is dropped. */
  lemma {:induction false} DroppedStaysDropped(cells: seq<int>, i: nat, j: nat, cfg: Config)
    requires i <= j < |cells| && Dropped(cells, i, cfg)
    ensures Dropped(cells, j, cfg)
    decreases j - i
  {
    if i < j {
      DroppedStaysDropped(cells, i, j - 1, cfg);
      assert cells[..j] == cells[..j - 1] + [cells[j - 1]];
      Step(cells[..j - 1], cells[j - 1], cfg);
    }
  }

  /** Every dropped cell comes after every laid-out cell in row-major order. */
  lemma DroppedAfterPlaced(cells: seq<int>, i: nat, j: nat, cfg: Config)
    requires i < |cells| && j < |cells|
    requires !Dropped(cells, i, cfg) && Dropped(cells, j, cfg)
    ensures j > i
  {
    if j <= i {
      DroppedStaysDropped(cells, j, i, cfg);
    }
  }

  /** The laid-out cells are exactly the first Kept(cells) cells. */
  lemma {:induction false} KeptIsPrefix(cells: seq<int>, cfg: Config)
    ensures forall i :: 0 <= i < Kept(cells, cfg) ==> !Dropped(cells, i, cfg)
    ensures forall i :: Kept(cells, cfg) <= i < |cells| ==> Dropped(cells, i, cfg)
  {
    if cells != [] {
      var n := |cells| - 1;
      if Dropped(cells, n, cfg) {
        KeptIsPrefix(cells[..n], cfg);
        forall i | 0 <= i < n ensures Dropped(cells[..n], i, cfg) == Dropped(cells, i, cfg) {
          PrefixDropped(cells, n, i, cfg);
        }
      } else {
        forall i | 0 <= i < |cells| ensures !Dropped(cells, i, cfg) {
          if Dropped(cells, i, cfg) {
            DroppedStaysDropped(cells, i, n, cfg);
          }
        }
      }
    }
  }

  /** When the last cell is laid out, so are all before it. */
  lemma LastKeptKeepsAll(cells: seq<int>, cfg: Config)
    requires cells != [] && !Dropped(cells, |cells| - 1, cfg)
    ensures Kept(cells[..|cells| - 1], cfg) == |cells| - 1
  {
    var n := |cells| - 1;
    KeptIsPrefix(cells[..n], cfg);
    if Kept(cells[..n], cfg) < n {
      var k := Kept(cells[..n], cfg);
      PrefixDropped(cells, n, k, cfg);
      DroppedStaysDropped(cells, k, n, cfg);
    }
  }

  /** The kinds a list of cell values creates, in order; other values create nothing. */
  function KindsOf(cells: seq<int>): seq<Kind> {
    if cells == [] then []
    else
      KindsOf(cells[..|cells| - 1])
      + (match KindOf(cells[|cells| - 1]) case Some(k) => [k] case None => [])
  }

  function Kinds(bs: seq<Brick>): (ks: seq<Kind>)
    ensures |ks| == |bs| && forall i :: 0 <= i < |bs| ==> ks[i] == bs[i].kind
  {
    seq(|bs|, i requires 0 <= i < |bs| => bs[i].kind)
  }

  /**
   * Every laid-out cell with a value from 0 to 3 yields one brick of that
   * kind, in order; dropped cells and other values yield nothing.
   */
  lemma {:induction false} BuiltKinds(cells: seq<int>, cfg: Config)
    ensures Kinds(Built(cells, cfg)) == KindsOf(cells[..Kept(cells, cfg)])
  {
    if cells != [] {
      var n := |cells| - 1;
      var prefix := cells[..n];
      BuiltKinds(prefix, cfg);
      if Dropped(cells, n, cfg) {
        assert cells[..Kept(cells, cfg)] == prefix[..Kept(prefix, cfg)];
      } else {
        LastKeptKeepsAll(cells, cfg);
        assert prefix[..Kept(prefix, cfg)] == prefix;
        assert cells[..Kept(cells, cfg)] == cells;
      }
    }
  }

  /**
   * buildBricks' count: the active bricks built are the laid-out cells
   * holding 1 or 2.
   */
  lemma {:induction false} BuildCount(cells: seq<int>, cfg: Config)
    ensures ActiveCount(Built(cells, cfg)) == CountActiveValues(cells[..Kept(cells, cfg)])
  {
    if cells != [] {
      var n := |cells| - 1;
      var prefix := cells[..n];
      var c := Wrap(CursorAfter(prefix, cfg), cfg);
      BuildCount(prefix, cfg);
      ActiveCountAppend(Built(prefix, cfg), Place(c, cells[n]));
      PlaceCount(c, cells[n]);
      if Dropped(cells, n, cfg) {
        assert cells[..Kept(cells, cfg)] == prefix[..Kept(prefix, cfg)];
      } else {
        LastKeptKeepsAll(cells, cfg);
        assert prefix[..Kept(prefix, cfg)] == prefix;
        assert cells[..Kept(cells, cfg)] == prefix + [cells[n]];
        CountActiveValuesAppend(prefix, [cells[n]]);
      }
    }
  }

  /** A laid-out cell counts as its value does; a dropped one counts nothing. */
  lemma PlaceCount(c: Cursor, v: int)
    ensures ActiveCount(Place(c, v)) == if c.skip then 0 else CountActiveValues([v])
  {
    assert [v][1..] == [];
  }

  /** Freshly built bricks have not been hit. */
  lemma {:induction false} BuiltUnhit(cells: seq<int>, cfg: Config)
    ensures forall i :: 0 <= i < |Built(cells, cfg)| ==> !Built(cells, cfg)[i].hit
  {
    if cells != [] {
      BuiltUnhit(cells[..|cells| - 1], cfg);
    }
  }

  /** The x of the k-th cell of a row, and the y of the m-th layout row. */
  function ColumnX(cfg: Config, k: nat): real {
    StartX(cfg) + 160.0 * k as real
  }

  function RowY(m: nat): real {
    60.0 + 60.0 * m as real
  }

  /**
   * A position on the layout grid; below the first row it never lies
   * lower than half the arena height.
   */
  ghost predicate OnGrid(x: real, y: real, cfg: Config) {
    (exists k: nat :: x == ColumnX(cfg, k))
    && (exists m: nat :: y == RowY(m))
    && (y > 60.0 ==> y <= cfg.height as real / 2.0)
  }

  /** What the cursor keeps true: it sits on the grid, and it is low only when skipping. */
  ghost predicate CursorOk(c: Cursor, cfg: Config) {
    (exists k: nat :: c.x == ColumnX(cfg, k))
    && (exists m: nat :: c.y == RowY(m))
    && (!c.skip && c.y > 60.0 ==> c.y <= cfg.height as real / 2.0)
  }

  lemma WrapOk(c: Cursor, cfg: Config)
    requires CursorOk(c, cfg)
    ensures CursorOk(Wrap(c, cfg), cfg)
  {
    if c.x > cfg.width as real - 160.0 {
      var m: nat :| c.y == RowY(m);
      assert Wrap(c, cfg).y == RowY(m + 1);
      assert Wrap(c, cfg).x == ColumnX(cfg, 0);
    }
  }

  lemma AdvanceOk(c: Cursor, cfg: Config)
    requires CursorOk(c, cfg)
    ensures CursorOk(Advance(c), cfg)
  {
    if !c.skip {
      var k: nat :| c.x == ColumnX(cfg, k);
      assert Advance(c).x == ColumnX(cfg, k + 1);
    }
  }

  lemma {:induction false} CursorAfterOk(cells: seq<int>, cfg: Config)
    ensures CursorOk(CursorAfter(cells, cfg), cfg)
  {
    if cells == [] {
      assert Origin(cfg).x == ColumnX(cfg, 0) && Origin(cfg).y == RowY(0);
    } else {
      var c := CursorAfter(cells[..|cells| - 1], cfg);
      CursorAfterOk(cells[..|cells| - 1], cfg);
      WrapOk(c, cfg);
      AdvanceOk(Wrap(c, cfg), cfg);
    }
  }

  /**
   * Every brick lies at x = (width mod 160) / 2 + 160k and y = 60 + 60m,
   * and any brick below the first row lies no lower than height / 2.
   */
  lemma {:induction false} BuiltOnGrid(cells: seq<int>, cfg: Config)
    ensures forall i :: 0 <= i < |Built(cells, cfg)| ==>
      OnGrid(Built(cells, cfg)[i].x, Built(cells, cfg)[i].y, cfg)
  {
    if cells != [] {
      var prefix := cells[..|cells| - 1];
      var c := Wrap(CursorAfter(prefix, cfg), cfg);
      BuiltOnGrid(prefix, cfg);
      CursorAfterOk(prefix, cfg);
      WrapOk(CursorAfter(prefix, cfg), cfg);
      var placed := Place(c, cells[|cells| - 1]);
      assert forall i :: 0 <= i < |placed| ==> placed[i].x == c.x && placed[i].y == c.y;
    }
  }

  /** The cursor drops at most one row per visited cell. */
  lemma {:induction false} CursorDepth(cells: seq<int>, cfg: Config)
    ensures CursorAfter(cells, cfg).y <= RowY(|cells|)
    ensures cfg.height as real / 2.0 >= RowY(|cells|) ==> !CursorAfter(cells, cfg).skip
  {
    if cells != [] {
      CursorDepth(cells[..|cells| - 1], cfg);
    }
  }

  /** In an arena tall enough for one row per cell, nothing is dropped. */
  lemma NoDropWhenTall(cells: seq<int>, cfg: Config)
    requires cfg.height as real / 2.0 >= RowY(|cells|)
    ensures Kept(cells, cfg) == |cells|
  {
    if cells != [] {
      var n := |cells| - 1;
      CursorDepth(cells[..n], cfg);
      assert !Dropped(cells, n, cfg);
    }
  }

  /** The starting level, built where nothing is dropped, has 20 active bricks. */
  lemma StartingLevelBuild(cfg: Config)
    requires cfg.height >= 3960
    ensures Kept(Flatten(Catalog[0]), cfg) == 32
    ensures ActiveCount(Built(Flatten(Catalog[0]), cfg)) == 20
  {
    var cells := Flatten(Catalog[0]);
    StartingLevelValues();
    NoDropWhenTall(cells, cfg);
    BuildCount(cells, cfg);
    assert cells[..32] == cells;
  }
}
