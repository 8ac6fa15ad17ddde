/**
 * The 64 x 32 monochrome framebuffer and its XOR sprite drawing.
 *
 * The specification of `Draw` is a pure fold: `Hits` lists, in the order
 * the nested loops visit them, the cells a sprite toggles, and `Toggles`
 * applies those toggles one at a time while accumulating the collision
 * flag. The lemmas then say what that fold means for the screen.
 */
module Display {
  import opened Ram

  const Width: nat := 64
  const Height: nat := 32
  const ScreenSize: nat := Width * Height

  /** Bit `c` of a sprite row, counting from the most significant bit. */
  predicate BitSet(b: bv8, c: nat)
    requires c < 8
  {
    b & (0x80 >> c) != 0
  }

  /** The cell that column `c` of sprite row `r` lands on, wrapping at the edges. */
  function Cell(x: nat, y: nat, r: nat, c: nat): (idx: nat)
    ensures idx < ScreenSize
    ensures idx % Width == (x + c) % Width && idx / Width == (y + r) % Height
  {
    (x + c) % Width + Width * ((y + r) % Height)
  }

  /** Column offset of cell `h` from column `x`, modulo the width. */
  function ColumnOf(h: nat, x: nat): nat
  {
    (h % Width - x) % Width
  }

  /** Row offset of cell `h` from row `y`, modulo the height. */
  function RowOf(h: nat, y: nat): nat
  {
    (h / Width - y) % Height
  }

  /** The cells toggled by the first `m` columns of sprite row `r`, in visiting order. */
  function RowHits(b: bv8, x: nat, y: nat, r: nat, m: nat): (hs: seq<nat>)
    requires m <= 8
    ensures forall j :: 0 <= j < |hs| ==> hs[j] < ScreenSize
  {
    if m == 0 then []
    else RowHits(b, x, y, r, m - 1) + (if BitSet(b, m - 1) then [Cell(x, y, r, m - 1)] else [])
  }

  /** The cells toggled by the first `n` rows of `sprite`, in visiting order. */
  function Hits(sprite: seq<bv8>, x: nat, y: nat, n: nat): (hs: seq<nat>)
    requires n <= |sprite|
    ensures forall j :: 0 <= j < |hs| ==> hs[j] < ScreenSize
  {
    if n == 0 then []
    else Hits(sprite, x, y, n - 1) + RowHits(sprite[n - 1], x, y, n - 1, 8)
  }

  datatype DrawResult = DrawResult(cells: seq<bool>, collision: bool)

  /**
   * Toggles the cells `hits` one after the other; the flag records whether
   * some toggled cell was lit at the moment it was toggled.
   */
  function Toggles(buf: seq<bool>, hits: seq<nat>): (d: DrawResult)
    requires forall j :: 0 <= j < |hits| ==> hits[j] < |buf|
    ensures |d.cells| == |buf|
  {
    if hits == [] then DrawResult(buf, false)
    else
      var prev := Toggles(buf, hits[..|hits| - 1]);
      var h := hits[|hits| - 1];
      DrawResult(prev.cells[h := !prev.cells[h]], prev.collision || prev.cells[h])
  }

  /** The effect of drawing `sprite` at (`x`, `y`) on the buffer `buf`. */
  function DrawSprite(buf: seq<bool>, sprite: seq<bv8>, x: nat, y: nat): (d: DrawResult)
    requires |buf| == ScreenSize
    ensures |d.cells| == ScreenSize
  {
    Toggles(buf, Hits(sprite, x, y, |sprite|))
  }

  /** The sprite rows `Draw` reads: `rows` bytes from address `i`. */
  function SpriteAt(memory: Memory, i: Uint16, rows: Uint8): (sprite: seq<bv8>)
    reads memory.bytes
    requires memory.Valid() && (rows == 0 || i as int + rows as int <= RamSize)
    ensures |sprite| == rows as int
    ensures forall r :: 0 <= r < |sprite| ==> sprite[r] == memory.bytes[i as int + r]
  {
    if rows == 0 then [] else memory.bytes[i..i as int + rows as int]
  }

  /**
   * The `u8` additions `x + column` and `y + row` that the source performs
   * for every set bit do not overflow.
   */
  predicate NoU8Overflow(sprite: seq<bv8>, x: nat, y: nat)
  {
    forall r, c :: 0 <= r < |sprite| && 0 <= c < 8 && BitSet(sprite[r], c) ==> x + c < 0x100 && y + r < 0x100
  }

  predicate Odd(n: nat)
  {
    n % 2 == 1
  }

  predicate Distinct(s: seq<nat>)
  {
    forall j, j' :: 0 <= j < j' < |s| ==> s[j] != s[j']
  }

  // ---------------------------------------------------------------------
  // Properties of the toggle fold
  // ---------------------------------------------------------------------

  /** A cell ends up flipped exactly when it was toggled an odd number of times. */
  lemma {:induction false} ToggledCell(buf: seq<bool>, hits: seq<nat>, k: nat)
    requires forall j :: 0 <= j < |hits| ==> hits[j] < |buf|
    requires k < |buf|
    ensures Toggles(buf, hits).cells[k] == (buf[k] != Odd(multiset(hits)[k]))
  {
    if hits != [] {
      var p := hits[..|hits| - 1];
      ToggledCell(buf, p, k);
      assert hits == p + [hits[|hits| - 1]];
    }
  }

  /** When no cell is toggled twice, the flag says that some toggled cell was lit beforehand. */
  lemma {:induction false} CollisionOfDistinct(buf: seq<bool>, hits: seq<nat>)
    requires forall j :: 0 <= j < |hits| ==> hits[j] < |buf|
    requires Distinct(hits)
    ensures Toggles(buf, hits).collision <==> SomeLitHit(buf, hits)
  {
    if hits != [] {
      var p := hits[..|hits| - 1];
      var h := hits[|hits| - 1];
      assert hits == p + [h];
      CollisionOfDistinct(buf, p);
      ToggledCell(buf, p, h);
      assert h !in multiset(p);
      if buf[h] {
        assert hits[|hits| - 1] == h;
      }
      if SomeLitHit(buf, hits) {
        var j :| 0 <= j < |hits| && hits[j] < |buf| && buf[hits[j]];
        if j < |p| {
          assert buf[p[j]];
        }
      }
    }
  }

  /** The cells visited up to column `c` of row `r`. */
  function Visited(sprite: seq<bv8>, x: nat, y: nat, r: nat, c: nat): (hs: seq<nat>)
    requires r < |sprite| && c <= 8
  {
    Hits(sprite, x, y, r) + RowHits(sprite[r], x, y, r, c)
  }

  /**
   * Visiting column `c` of row `r` toggles its cell, and records whether
   * it was lit, exactly when its bit is set.
   */
  lemma VisitColumn(buf: seq<bool>, sprite: seq<bv8>, x: nat, y: nat, r: nat, c: nat)
    requires |buf| == ScreenSize && r < |sprite| && c < 8
    ensures var prev := Toggles(buf, Visited(sprite, x, y, r, c));
      var h := Cell(x, y, r, c);
      Toggles(buf, Visited(sprite, x, y, r, c + 1)) ==
        if BitSet(sprite[r], c) then DrawResult(prev.cells[h := !prev.cells[h]], prev.collision || prev.cells[h])
        else prev
  {
    var done := Visited(sprite, x, y, r, c);
    if BitSet(sprite[r], c) {
      assert Visited(sprite, x, y, r, c + 1) == done + [Cell(x, y, r, c)];
      ToggleStep(buf, done, Cell(x, y, r, c));
    } else {
      assert Visited(sprite, x, y, r, c + 1) == done;
    }
  }

  /** Appending one cell to the toggle list toggles it last. */
  lemma ToggleStep(buf: seq<bool>, done: seq<nat>, h: nat)
    requires forall j :: 0 <= j < |done| ==> done[j] < |buf|
    requires h < |buf|
    ensures var prev := Toggles(buf, done);
      Toggles(buf, done + [h]) == DrawResult(prev.cells[h := !prev.cells[h]], prev.collision || prev.cells[h])
  {
    assert (done + [h])[..|done|] == done;
  }

  /** Toggling the same cells twice restores the buffer. */
  lemma TogglesTwice(buf: seq<bool>, hits: seq<nat>)
    requires forall j :: 0 <= j < |hits| ==> hits[j] < |buf|
    ensures Toggles(Toggles(buf, hits).cells, hits).cells == buf
  {
    var once := Toggles(buf, hits).cells;
    forall k | 0 <= k < |buf|
      ensures Toggles(once, hits).cells[k] == buf[k]
    {
      ToggledCell(buf, hits, k);
      ToggledCell(once, hits, k);
    }
  }

  // ---------------------------------------------------------------------
  // Which cells a sprite touches
  // ---------------------------------------------------------------------

  /** A cell's offsets from (`x`, `y`) are the sprite column and row that produced it, modulo the screen size. */
  lemma CellCoordinates(x: nat, y: nat, r: nat, c: nat)
    ensures ColumnOf(Cell(x, y, r, c), x) == c % Width
    ensures RowOf(Cell(x, y, r, c), y) == r % Height
  {
    var idx := Cell(x, y, r, c);
    assert (x + c) % Width - x == c - Width * ((x + c) / Width);
    assert (y + r) % Height - y == r - Height * ((y + r) / Height);
  }

  /** A cell is hit by the first `m` columns of a row iff some set bit among them lands on it. */
  lemma {:induction false} RowHitsMember(b: bv8, x: nat, y: nat, r: nat, m: nat, k: nat)
    requires m <= 8
    ensures k in RowHits(b, x, y, r, m) <==> exists c :: 0 <= c < m && BitSet(b, c) && Cell(x, y, r, c) == k
  {
    if m > 0 {
      RowHitsMember(b, x, y, r, m - 1, k);
      if exists c :: 0 <= c < m && BitSet(b, c) && Cell(x, y, r, c) == k {
        var c :| 0 <= c < m && BitSet(b, c) && Cell(x, y, r, c) == k;
        if c < m - 1 {
          assert k in RowHits(b, x, y, r, m - 1);
        }
      }
    }
  }

  /** A cell is hit by the first `n` rows iff some set bit of those rows lands on it. */
  lemma {:induction false} HitsMember(sprite: seq<bv8>, x: nat, y: nat, n: nat, k: nat)
    requires n <= |sprite|
    ensures k in Hits(sprite, x, y, n) <==>
      exists r, c :: 0 <= r < n && 0 <= c < 8 && BitSet(sprite[r], c) && Cell(x, y, r, c) == k
  {
    if n > 0 {
      HitsMember(sprite, x, y, n - 1, k);
      RowHitsMember(sprite[n - 1], x, y, n - 1, 8, k);
      if exists r, c :: 0 <= r < n && 0 <= c < 8 && BitSet(sprite[r], c) && Cell(x, y, r, c) == k {
        var r, c :| 0 <= r < n && 0 <= c < 8 && BitSet(sprite[r], c) && Cell(x, y, r, c) == k;
        if r < n - 1 {
          assert k in Hits(sprite, x, y, n - 1);
        } else {
          assert k in RowHits(sprite[n - 1], x, y, n - 1, 8);
        }
      }
    }
  }

  /** A row never toggles a cell twice: its cells lie in its own screen row, one per column offset. */
  lemma {:induction false} RowHitsDistinct(b: bv8, x: nat, y: nat, r: nat, m: nat)
    requires m <= 8
    ensures Distinct(RowHits(b, x, y, r, m))
    ensures forall j :: 0 <= j < |RowHits(b, x, y, r, m)| ==>
      ColumnOf(RowHits(b, x, y, r, m)[j], x) < m && RowOf(RowHits(b, x, y, r, m)[j], y) == r % Height
  {
    if m > 0 {
      RowHitsDistinct(b, x, y, r, m - 1);
      CellCoordinates(x, y, r, m - 1);
    }
  }

  /** At most `Height` rows never toggle a cell twice. */
  lemma HitsDistinct(sprite: seq<bv8>, x: nat, y: nat)
    requires |sprite| <= Height
    ensures Distinct(Hits(sprite, x, y, |sprite|))
  {
    HitsRowsDistinct(sprite, x, y, |sprite|);
  }

  /** The first `n <= Height` rows never toggle a cell twice, and their cells lie in the first `n` screen rows from `y`. */
  lemma {:induction false} HitsRowsDistinct(sprite: seq<bv8>, x: nat, y: nat, n: nat)
    requires n <= |sprite| && n <= Height
    ensures Distinct(Hits(sprite, x, y, n))
    ensures forall j :: 0 <= j < |Hits(sprite, x, y, n)| ==> RowOf(Hits(sprite, x, y, n)[j], y) < n
  {
    if n > 0 {
      HitsRowsDistinct(sprite, x, y, n - 1);
      RowHitsDistinct(sprite[n - 1], x, y, n - 1, 8);
      var a := Hits(sprite, x, y, n - 1);
      var b := RowHits(sprite[n - 1], x, y, n - 1, 8);
      assert Hits(sprite, x, y, n) == a + b;
      forall j, j' | 0 <= j < j' < |a + b|
        ensures (a + b)[j] != (a + b)[j']
      {
        if j' >= |a| && j < |a| {
          assert RowOf(a[j], y) < n - 1;
          assert RowOf(b[j' - |a|], y) == n - 1;
        }
      }
    }
  }

  // ---------------------------------------------------------------------
  // What drawing a sprite does
  // ---------------------------------------------------------------------

  /**
   * A cell that no set bit of the sprite lands on keeps its value; any
   * other cell flips when it is hit an odd number of times.
   */
  lemma DrawCell(buf: seq<bool>, sprite: seq<bv8>, x: nat, y: nat, k: nat)
    requires |buf| == ScreenSize && k < ScreenSize
    ensures DrawSprite(buf, sprite, x, y).cells[k] == (buf[k] != Odd(multiset(Hits(sprite, x, y, |sprite|))[k]))
    ensures (forall r, c :: 0 <= r < |sprite| && 0 <= c < 8 && BitSet(sprite[r], c) ==> Cell(x, y, r, c) != k) ==>
      DrawSprite(buf, sprite, x, y).cells[k] == buf[k]
  {
    ToggledCell(buf, Hits(sprite, x, y, |sprite|), k);
    HitsMember(sprite, x, y, |sprite|, k);
  }

  /** A sprite of at most 32 rows flips exactly the cells its set bits land on. */
  lemma DrawWithinHeightCells(buf: seq<bool>, sprite: seq<bv8>, x: nat, y: nat)
    requires |buf| == ScreenSize && |sprite| <= Height
    ensures forall k :: 0 <= k < ScreenSize ==>
      (DrawSprite(buf, sprite, x, y).cells[k] != buf[k] <==>
       exists r, c :: 0 <= r < |sprite| && 0 <= c < 8 && BitSet(sprite[r], c) && Cell(x, y, r, c) == k)
  {
    forall k | 0 <= k < ScreenSize
      ensures DrawSprite(buf, sprite, x, y).cells[k] != buf[k] <==>
        exists r, c :: 0 <= r < |sprite| && 0 <= c < 8 && BitSet(sprite[r], c) && Cell(x, y, r, c) == k
    {
      DrawWithinHeightCell(buf, sprite, x, y, k);
      HitsMember(sprite, x, y, |sprite|, k);
    }
  }

  lemma DrawWithinHeightCell(buf: seq<bool>, sprite: seq<bv8>, x: nat, y: nat, k: nat)
    requires |buf| == ScreenSize && |sprite| <= Height && k < ScreenSize
    ensures DrawSprite(buf, sprite, x, y).cells[k] != buf[k] <==> k in Hits(sprite, x, y, |sprite|)
  {
    var hits := Hits(sprite, x, y, |sprite|);
    HitsDistinct(sprite, x, y);
    ToggledCell(buf, hits, k);
    DistinctCount(hits, k);
    var occurrences: multiset<nat> := multiset(hits);
    assert Odd(occurrences[k]) <==> occurrences[k] == 1;
    assert DrawSprite(buf, sprite, x, y).cells[k] == Toggles(buf, hits).cells[k];
  }

  /** A sprite of at most 32 rows reports a collision iff one of the cells its set bits land on was lit. */
  lemma DrawWithinHeightCollision(buf: seq<bool>, sprite: seq<bv8>, x: nat, y: nat)
    requires |buf| == ScreenSize && |sprite| <= Height
    ensures DrawSprite(buf, sprite, x, y).collision <==>
      exists r, c :: 0 <= r < |sprite| && 0 <= c < 8 && BitSet(sprite[r], c) && buf[Cell(x, y, r, c)]
  {
    var hits := Hits(sprite, x, y, |sprite|);
    assert DrawSprite(buf, sprite, x, y).collision <==> SomeLitHit(buf, hits) by {
      HitsDistinct(sprite, x, y);
      CollisionOfDistinct(buf, hits);
    }
    LitHitIsLitCell(buf, sprite, x, y);
    LitCellIsLitHit(buf, sprite, x, y);
    assert SomeLitHit(buf, hits) <==> SomeLitCell(buf, sprite, x, y);
  }

  /** Some visited cell of `hits` is lit in `buf`. */
  predicate SomeLitHit(buf: seq<bool>, hits: seq<nat>)
  {
    exists j :: 0 <= j < |hits| && hits[j] < |buf| && buf[hits[j]]
  }

  /** Some set bit of `sprite`, placed at (`x`, `y`), falls on a lit cell of `buf`. */
  predicate SomeLitCell(buf: seq<bool>, sprite: seq<bv8>, x: nat, y: nat)
    requires |buf| == ScreenSize
  {
    exists r, c :: 0 <= r < |sprite| && 0 <= c < 8 && BitSet(sprite[r], c) && buf[Cell(x, y, r, c)]
  }

  lemma LitHitIsLitCell(buf: seq<bool>, sprite: seq<bv8>, x: nat, y: nat)
    requires |buf| == ScreenSize
    ensures SomeLitHit(buf, Hits(sprite, x, y, |sprite|)) ==> SomeLitCell(buf, sprite, x, y)
  {
    var hits := Hits(sprite, x, y, |sprite|);
    if SomeLitHit(buf, hits) {
      var j :| 0 <= j < |hits| && hits[j] < |buf| && buf[hits[j]];
      HitsMember(sprite, x, y, |sprite|, hits[j]);
    }
  }

  lemma LitCellIsLitHit(buf: seq<bool>, sprite: seq<bv8>, x: nat, y: nat)
    requires |buf| == ScreenSize
    ensures SomeLitCell(buf, sprite, x, y) ==> SomeLitHit(buf, Hits(sprite, x, y, |sprite|))
  {
    var hits := Hits(sprite, x, y, |sprite|);
    if SomeLitCell(buf, sprite, x, y) {
      var r, c :| 0 <= r < |sprite| && 0 <= c < 8 && BitSet(sprite[r], c) && buf[Cell(x, y, r, c)];
      HitsMember(sprite, x, y, |sprite|, Cell(x, y, r, c));
      var j :| 0 <= j < |hits| && hits[j] == Cell(x, y, r, c);
    }
  }

  /** In a sequence without repeats every value occurs at most once. */
  lemma {:induction false} DistinctCount(s: seq<nat>, k: nat)
    requires Distinct(s)
    ensures multiset(s)[k] <= 1
    ensures multiset(s)[k] == 1 <==> k in s
  {
    if s != [] {
      var p := s[..|s| - 1];
      assert s == p + [s[|s| - 1]];
      DistinctCount(p, k);
    }
  }

  /** Drawing no rows, or rows with no bit set, changes nothing and reports no collision. */
  lemma DrawBlank(buf: seq<bool>, sprite: seq<bv8>, x: nat, y: nat)
    requires |buf| == ScreenSize
    requires forall r :: 0 <= r < |sprite| ==> sprite[r] == 0
    ensures DrawSprite(buf, sprite, x, y) == DrawResult(buf, false)
  {
    var hits := Hits(sprite, x, y, |sprite|);
    if hits != [] {
      HitsMember(sprite, x, y, |sprite|, hits[0]);
      assert false;
    }
  }

  /** Drawing the same sprite at the same place twice restores the buffer. */
  lemma DrawTwiceRestores(buf: seq<bool>, sprite: seq<bv8>, x: nat, y: nat)
    requires |buf| == ScreenSize
    ensures DrawSprite(DrawSprite(buf, sprite, x, y).cells, sprite, x, y).cells == buf
  {
    TogglesTwice(buf, Hits(sprite, x, y, |sprite|));
  }

  /**
   * An all-set one-row sprite drawn twice at the same place on a blank
   * screen: the first draw reports no collision, the second reports one
   * and leaves the screen blank again.
   */
  lemma FullRowTwice(x: nat, y: nat)
    ensures var blank := seq(ScreenSize, _ => false);
      var first := DrawSprite(blank, [0xFF], x, y);
      var second := DrawSprite(first.cells, [0xFF], x, y);
      !first.collision && second.collision && second.cells == blank
  {
    var blank := seq(ScreenSize, _ => false);
    var first := DrawSprite(blank, [0xFF], x, y);
    DrawWithinHeightCollision(blank, [0xFF], x, y);
    DrawWithinHeightCells(blank, [0xFF], x, y);
    DrawWithinHeightCollision(first.cells, [0xFF], x, y);
    DrawTwiceRestores(blank, [0xFF], x, y);
    assert BitSet(0xFF, 0);
    assert first.cells[Cell(x, y, 0, 0)];
  }

  /**
   * An all-set one-row sprite drawn at column 60 of a blank screen wraps:
   * it lights columns 60 to 63 and 0 to 3 of row 0 and nothing else.
   */
  lemma WrapAtRightEdge()
    ensures var d := DrawSprite(seq(ScreenSize, _ => false), [0xFF], 60, 0);
      !d.collision && forall k :: 0 <= k < ScreenSize ==> (d.cells[k] <==> k < 4 || 60 <= k < 64)
  {
    var blank := seq(ScreenSize, _ => false);
    DrawWithinHeightCollision(blank, [0xFF], 60, 0);
    DrawWithinHeightCells(blank, [0xFF], 60, 0);
    var d := DrawSprite(blank, [0xFF], 60, 0);
    forall k | 0 <= k < ScreenSize
      ensures d.cells[k] <==> k < 4 || 60 <= k < 64
    {
      WrappedCell(k);
    }
  }

  lemma WrappedCell(k: nat)
    requires k < ScreenSize
    ensures (exists r, c :: 0 <= r < |[0xFF as bv8]| && 0 <= c < 8 && BitSet([0xFF as bv8][r], c) && Cell(60, 0, r, c) == k)
      <==> k < 4 || 60 <= k < 64
  {
    if k < 4 || 60 <= k < 64 {
      var c := if k < 4 then k + 4 else k - 60;
      assert BitSet(0xFF, c);
      assert Cell(60, 0, 0, c) == k;
    } else {
      forall r, c | 0 <= r < 1 && 0 <= c < 8
        ensures Cell(60, 0, r, c) != k
      {
        assert Cell(60, 0, r, c) == (60 + c) % 64;
      }
    }
  }

  // ---------------------------------------------------------------------
  // The framebuffer
  // ---------------------------------------------------------------------

  class Screen {
    /** One cell per pixel, row-major, `Width` cells per row. */
    const cells: array<bool>

    ghost predicate Valid() {
      cells.Length == ScreenSize
    }

    /** A fresh screen has every pixel unlit. */
    constructor ()
      ensures Valid() && fresh(cells)
      ensures forall k :: 0 <= k < ScreenSize ==> !cells[k]
    {
      cells := new bool[ScreenSize](_ => false);
    }

    /** The pixels, for presentation. */
    function Buffer(): (b: seq<bool>)
      reads cells
      requires Valid()
      ensures |b| == ScreenSize
    {
      cells[..]
    }

    /** Unlights every pixel. */
    method Clear()
      requires Valid()
      modifies cells
      ensures forall k :: 0 <= k < ScreenSize ==> !cells[k]
    {
      forall k | 0 <= k < cells.Length {
        cells[k] := false;
      }
    }

    /**
     * XOR-draws the `rows`-tall sprite stored at `i` with its top-left
     * corner at (`x`, `y`), and reports whether a lit pixel was toggled.
     */
    method Draw(memory: Memory, i: Uint16, x: Uint8, y: Uint8, rows: Uint8) returns (collision: bool)
      requires Valid() && memory.Valid()
      requires rows == 0 || i as int + rows as int <= RamSize
      requires NoU8Overflow(SpriteAt(memory, i, rows), x as nat, y as nat)
      modifies cells
      ensures DrawResult(cells[..], collision) == DrawSprite(old(cells[..]), SpriteAt(memory, i, rows), x as nat, y as nat)
    {
      ghost var before := cells[..];
      ghost var sprite := SpriteAt(memory, i, rows);
      collision := false;
      for yLine := 0 to rows as int
        invariant DrawResult(cells[..], collision) == Toggles(before, Hits(sprite, x as nat, y as nat, yLine))
      {
        var pixels := memory.ReadU8(i + yLine as Uint16);
        assert pixels == sprite[yLine];
        assert Visited(sprite, x as nat, y as nat, yLine, 0) == Hits(sprite, x as nat, y as nat, yLine);
        for xLine := 0 to 8
          invariant DrawResult(cells[..], collision) == Toggles(before, Visited(sprite, x as nat, y as nat, yLine, xLine))
        {
          VisitColumn(before, sprite, x as nat, y as nat, yLine, xLine);
          if BitSet(pixels, xLine) {
            var col := (x + xLine as Uint8) as int % Width;
            var row := (y + yLine as Uint8) as int % Height;
            var idx := col + Width * row;
            assert idx == Cell(x as nat, y as nat, yLine, xLine);
            ghost var prev := cells[..];
            collision := collision || cells[idx];
            cells[idx] := !cells[idx];
            assert cells[..] == prev[idx := !prev[idx]];
          }
        }
      }
    }
  }
}
