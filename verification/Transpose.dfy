/** The transpose kernel: blocks of threads copy tiles of the matrix through shared memory, with one barrier between
    writing and reading a tile. It is proved for every order of the threads' accesses that respects the barrier. */
module Transpose {
  import opened Arith

  const TILE_DIM := 32
  const BLOCK_ROWS := 8

  /** Access number k of a thread to the shared tile: a write before the barrier, a read after it. */
  datatype Event = Load(block: nat, thread: nat, k: nat) | Store(block: nat, thread: nat, k: nat)

  function Blocks(n: nat): nat { (n + TILE_DIM - 1) / TILE_DIM }

  predicate IsEvent(e: Event, nblocks: nat) {
    e.block < nblocks && e.thread < TILE_DIM * BLOCK_ROWS && e.k < TILE_DIM / BLOCK_ROWS
  }

  /** Every access of every thread once, and in every block all writes before all reads. */
  ghost predicate IsSchedule(s: seq<Event>, nblocks: nat) {
    && (forall i :: 0 <= i < |s| ==> IsEvent(s[i], nblocks))
    && (forall e :: IsEvent(e, nblocks) ==> e in s)
    && (forall i, j :: 0 <= i < j < |s| ==> s[i] != s[j])
    && (forall i, j :: 0 <= i < j < |s| && s[i].Store? && s[j].Load? ==> s[i].block != s[j].block)
  }

  /** Entry of a matrix with rows of length n. */
  function Entry(row: nat, col: nat, n: nat): nat { row * n + col }

  lemma EntryRange(row: nat, col: nat, rows: nat, n: nat)
    requires row < rows && col < n
    ensures Entry(row, col, n) < rows * n
  {
    MulAtLeast(n, rows - row);
  }

  lemma EntryUnique(row: nat, col: nat, row': nat, col': nat, n: nat)
    requires col < n && col' < n && Entry(row, col, n) == Entry(row', col', n)
    ensures row == row' && col == col'
  {
    DivUnique(Entry(row, col, n), n, row, col);
    DivUnique(Entry(row, col, n), n, row', col');
  }

  /** Column and row of a thread's access inside the tile. */
  function Column(e: Event): nat { e.thread % TILE_DIM }

  function Row(e: Event): nat { e.thread / TILE_DIM + BLOCK_ROWS * e.k }

  /** Position of the block in the grid of tiles. */
  function BlockY(e: Event, nx: nat): nat requires nx > 0 { e.block / nx }

  function BlockX(e: Event, nx: nat): nat
    requires nx > 0
  {
    DivMod(e.block, nx);
    e.block - BlockY(e, nx) * nx
  }

  /** The accesses of a block are the places of a tile. */
  lemma PlaceOf(e: Event, nblocks: nat)
    requires IsEvent(e, nblocks)
    ensures Column(e) < TILE_DIM && Row(e) < TILE_DIM
  {
  }

  function LoadAt(block: nat, row: nat, col: nat): Event
    requires row < TILE_DIM && col < TILE_DIM
  {
    Load(block, row % BLOCK_ROWS * TILE_DIM + col, row / BLOCK_ROWS)
  }

  lemma LoadAtPlace(block: nat, nblocks: nat, row: nat, col: nat)
    requires row < TILE_DIM && col < TILE_DIM && block < nblocks
    ensures var e := LoadAt(block, row, col); IsEvent(e, nblocks) && Column(e) == col && Row(e) == row
  {
    var t := row % BLOCK_ROWS * TILE_DIM + col;
    DivUnique(t, TILE_DIM, row % BLOCK_ROWS, col);
  }

  function StoreAt(block: nat, row: nat, col: nat): Event
    requires row < TILE_DIM && col < TILE_DIM
  {
    Store(block, row % BLOCK_ROWS * TILE_DIM + col, row / BLOCK_ROWS)
  }

  lemma StoreAtPlace(block: nat, nblocks: nat, row: nat, col: nat)
    requires row < TILE_DIM && col < TILE_DIM && block < nblocks
    ensures var e := StoreAt(block, row, col); IsEvent(e, nblocks) && Column(e) == col && Row(e) == row
  {
    var t := row % BLOCK_ROWS * TILE_DIM + col;
    DivUnique(t, TILE_DIM, row % BLOCK_ROWS, col);
  }

  /** An access is determined by its place. */
  lemma PlaceUnique(e: Event, f: Event)
    requires e.block == f.block && Column(e) == Column(f) && Row(e) == Row(f) && e.Load? == f.Load?
    requires IsEvent(e, e.block + 1) && IsEvent(f, f.block + 1)
    ensures e == f
  {
  }

  // ---------------------------------------------------------------- the kernel

  /** The matrix has nBatch rows of length nData; the launch has nx * ny blocks. */
  datatype Launch = Launch(nData: nat, nBatch: nat)
  {
    function Nx(): nat { Blocks(nData) }
    function NumBlocks(): nat { Blocks(nData) * Blocks(nBatch) }

    /** A write: row and column of the input entry, and whether there is one. */
    function LoadRow(e: Event): nat requires Nx() > 0 { BlockY(e, Nx()) * TILE_DIM + Row(e) }
    function LoadCol(e: Event): nat requires Nx() > 0 { BlockX(e, Nx()) * TILE_DIM + Column(e) }
    predicate Loads(e: Event) requires Nx() > 0 { e.Load? && LoadCol(e) < nData && LoadRow(e) < nBatch }

    /** A read: row and column of the output entry. */
    function StoreRow(e: Event): nat requires Nx() > 0 { BlockX(e, Nx()) * TILE_DIM + Row(e) }
    function StoreCol(e: Event): nat requires Nx() > 0 { BlockY(e, Nx()) * TILE_DIM + Column(e) }
    predicate Stores(e: Event) requires Nx() > 0 { e.Store? && StoreCol(e) < nBatch && StoreRow(e) < nData }
  }

  /** Shared memory of a block: rows of one entry more than the tile, so that columns do not share a bank. */
  function TilePlace(row: nat, col: nat): nat { Entry(row, col, TILE_DIM + 1) }

  lemma TilePlaceRange(row: nat, col: nat)
    requires row < TILE_DIM && col < TILE_DIM
    ensures TilePlace(row, col) < TILE_DIM * (TILE_DIM + 1)
  {
  }

  ghost predicate LoadDone(l: Launch, inp: seq<real>, tile: array2<real>, e: Event)
    requires l.Nx() > 0
    reads tile
  {
    l.Loads(e) ==>
      && e.block < tile.Length0 && TilePlace(Row(e), Column(e)) < tile.Length1 && Entry(l.LoadRow(e), l.LoadCol(e), l.nData) < |inp|
      && tile[e.block, TilePlace(Row(e), Column(e))] == inp[Entry(l.LoadRow(e), l.LoadCol(e), l.nData)]
  }

  ghost predicate StoreDone(l: Launch, inp: seq<real>, out: array<real>, e: Event)
    requires l.Nx() > 0
    reads out
  {
    l.Stores(e) ==>
      && Entry(l.StoreRow(e), l.StoreCol(e), l.nBatch) < out.Length && Entry(l.StoreCol(e), l.StoreRow(e), l.nData) < |inp|
      && out[Entry(l.StoreRow(e), l.StoreCol(e), l.nBatch)] == inp[Entry(l.StoreCol(e), l.StoreRow(e), l.nData)]
  }

  lemma SameTilePlace(l: Launch, e: Event, f: Event, n: nat)
    requires l.Nx() > 0 && IsEvent(e, n) && IsEvent(f, n) && e.block == f.block
    requires TilePlace(Row(e), Column(e)) == TilePlace(Row(f), Column(f))
    ensures l.LoadRow(e) == l.LoadRow(f) && l.LoadCol(e) == l.LoadCol(f)
  {
    PlaceOf(e, n);
    PlaceOf(f, n);
    EntryUnique(Row(e), Column(e), Row(f), Column(f), TILE_DIM + 1);
  }

  ghost predicate AllLoaded(l: Launch, inp: seq<real>, tile: array2<real>, done: seq<Event>)
    requires l.Nx() > 0
    reads tile
  {
    forall f :: f in done ==> IsEvent(f, l.NumBlocks()) && LoadDone(l, inp, tile, f)
  }

  method Put(l: Launch, inp: seq<real>, tile: array2<real>, e: Event, place: nat, v: real, ghost done: seq<Event>)
    requires l.Nx() > 0 && IsEvent(e, l.NumBlocks()) && l.Loads(e) && AllLoaded(l, inp, tile, done)
    requires e.block < tile.Length0 && place < tile.Length1 && place == TilePlace(Row(e), Column(e))
    requires Entry(l.LoadRow(e), l.LoadCol(e), l.nData) < |inp| && v == inp[Entry(l.LoadRow(e), l.LoadCol(e), l.nData)]
    modifies tile
    ensures AllLoaded(l, inp, tile, done + [e])
  {
    tile[e.block, place] := v;
    forall f | f in done ensures LoadDone(l, inp, tile, f) {
      if l.Loads(f) && f.block == e.block && TilePlace(Row(f), Column(f)) == place { SameTilePlace(l, e, f, l.NumBlocks()); }
    }
  }

  lemma {:induction false} LoadPlace(l: Launch, e: Event)
    requires l.Nx() > 0 && IsEvent(e, l.NumBlocks()) && l.Loads(e)
    ensures TilePlace(Row(e), Column(e)) < TILE_DIM * (TILE_DIM + 1)
    ensures Entry(l.LoadRow(e), l.LoadCol(e), l.nData) < l.nData * l.nBatch
  {
    PlaceOf(e, l.NumBlocks());
    EntryRange(l.LoadRow(e), l.LoadCol(e), l.nBatch, l.nData);
    TilePlaceRange(Row(e), Column(e));
  }

  /** A write before the barrier. */
  method LoadStep(l: Launch, inp: seq<real>, tile: array2<real>, e: Event, ghost done: seq<Event>)
    requires |inp| == l.nData * l.nBatch && l.Nx() > 0 && tile.Length0 == l.NumBlocks() && tile.Length1 == TILE_DIM * (TILE_DIM + 1)
    requires e.Load? && IsEvent(e, l.NumBlocks()) && AllLoaded(l, inp, tile, done)
    modifies tile
    ensures AllLoaded(l, inp, tile, done + [e])
  {
    var threadX, threadY := e.thread % TILE_DIM, e.thread / TILE_DIM;
    var blockY := BlockY(e, l.Nx());
    var blockX := BlockX(e, l.Nx());
    var matX, matY := blockX * TILE_DIM + threadX, blockY * TILE_DIM + threadY;
    var i := BLOCK_ROWS * e.k;
    assert matX == l.LoadCol(e) && matY + i == l.LoadRow(e);
    if matX < l.nData && matY + i < l.nBatch {
      LoadPlace(l, e);
      Put(l, inp, tile, e, Entry(threadY + i, threadX, TILE_DIM + 1), inp[Entry(matY + i, matX, l.nData)], done);
    }
  }

  lemma SameOutPlace(l: Launch, e: Event, f: Event)
    requires l.Nx() > 0 && l.Stores(e) && l.Stores(f)
    requires Entry(l.StoreRow(e), l.StoreCol(e), l.nBatch) == Entry(l.StoreRow(f), l.StoreCol(f), l.nBatch)
    ensures l.StoreRow(e) == l.StoreRow(f) && l.StoreCol(e) == l.StoreCol(f)
  {
    EntryUnique(l.StoreRow(e), l.StoreCol(e), l.StoreRow(f), l.StoreCol(f), l.nBatch);
  }

  ghost predicate AllStored(l: Launch, inp: seq<real>, out: array<real>, done: seq<Event>)
    requires l.Nx() > 0
    reads out
  {
    forall f :: f in done ==> StoreDone(l, inp, out, f)
  }

  /** The write a read depends on: the same tile place, rows and columns exchanged. */
  lemma Partner(l: Launch, e: Event) returns (f: Event)
    requires l.Nx() > 0 && l.Stores(e) && IsEvent(e, l.NumBlocks())
    ensures IsEvent(f, l.NumBlocks()) && f.block == e.block && l.Loads(f) && Row(f) == Column(e) && Column(f) == Row(e)
    ensures l.LoadRow(f) == l.StoreCol(e) && l.LoadCol(f) == l.StoreRow(e)
  {
    PlaceOf(e, l.NumBlocks());
    f := LoadAt(e.block, Column(e), Row(e));
    LoadAtPlace(e.block, l.NumBlocks(), Column(e), Row(e));
  }

  /** A read after the barrier, when all writes of the block are done: it reads what its partner has written. */
  method StoreStep(l: Launch, inp: seq<real>, tile: array2<real>, out: array<real>, e: Event, ghost done: seq<Event>)
    requires |inp| == out.Length == l.nData * l.nBatch && l.Nx() > 0 && tile.Length0 == l.NumBlocks() && tile.Length1 == TILE_DIM * (TILE_DIM + 1)
    requires e.Store? && IsEvent(e, l.NumBlocks()) && AllLoaded(l, inp, tile, done) && AllStored(l, inp, out, done)
    requires forall f :: IsEvent(f, l.NumBlocks()) && f.Load? && f.block == e.block ==> f in done
    modifies out
    ensures AllStored(l, inp, out, done + [e])
  {
    var threadX, threadY := e.thread % TILE_DIM, e.thread / TILE_DIM;
    var blockY := BlockY(e, l.Nx());
    var blockX := BlockX(e, l.Nx());
    var matX, matY := blockY * TILE_DIM + threadX, blockX * TILE_DIM + threadY;
    var i := BLOCK_ROWS * e.k;
    PlaceOf(e, l.NumBlocks());
    if matX < l.nBatch && matY + i < l.nData {
      EntryRange(matY + i, matX, l.nData, l.nBatch);
      TilePlaceRange(threadX, threadY + i);
      ghost var f := Partner(l, e);
      assert LoadDone(l, inp, tile, f);
      out[Entry(matY + i, matX, l.nBatch)] := tile[e.block, Entry(threadX, threadY + i, TILE_DIM + 1)];
      forall g | g in done ensures StoreDone(l, inp, out, g) {
        if l.Stores(g) && Entry(l.StoreRow(g), l.StoreCol(g), l.nBatch) == Entry(matY + i, matX, l.nBatch) { SameOutPlace(l, e, g); }
      }
    }
  }

  lemma WritesBefore(s: seq<Event>, nblocks: nat, j: nat)
    requires IsSchedule(s, nblocks) && j < |s| && s[j].Store?
    ensures forall f :: IsEvent(f, nblocks) && f.Load? && f.block == s[j].block ==> f in s[..j]
  {
    forall f | IsEvent(f, nblocks) && f.Load? && f.block == s[j].block ensures f in s[..j] {
      assert f in s;
      var i :| 0 <= i < |s| && s[i] == f;
      assert s[..j][i] == f;
    }
  }

  /** Entry (row, col) of the transposed matrix is entry (col, row) of the matrix. */
  ghost predicate IsTranspose(inp: seq<real>, out: seq<real>, nData: nat, nBatch: nat) {
    |inp| == |out| == nData * nBatch &&
    forall row: nat, col: nat {:trigger Entry(row, col, nBatch)} :: row < nData && col < nBatch ==>
      Entry(row, col, nBatch) < |out| && Entry(col, row, nData) < |inp| && out[Entry(row, col, nBatch)] == inp[Entry(col, row, nData)]
  }

  /** The access that writes entry (row, col) of the output. */
  lemma Writer(l: Launch, row: nat, col: nat) returns (e: Event)
    requires row < l.nData && col < l.nBatch
    ensures l.Nx() > 0 && IsEvent(e, l.NumBlocks()) && l.Stores(e) && l.StoreRow(e) == row && l.StoreCol(e) == col
  {
    var tx, ty := row / TILE_DIM, col / TILE_DIM;
    assert l.Nx() > tx && Blocks(l.nBatch) > ty;
    EntryRange(ty, tx, Blocks(l.nBatch), l.Nx());
    var b := Entry(ty, tx, l.Nx());
    DivUnique(b, l.Nx(), ty, tx);
    e := StoreAt(b, row % TILE_DIM, col % TILE_DIM);
    StoreAtPlace(b, l.NumBlocks(), row % TILE_DIM, col % TILE_DIM);
  }

  /** Every output entry is written by exactly one access. */
  lemma WrittenOnce(l: Launch, e: Event, f: Event)
    requires l.Nx() > 0 && IsEvent(e, l.NumBlocks()) && IsEvent(f, l.NumBlocks()) && l.Stores(e) && l.Stores(f)
    requires Entry(l.StoreRow(e), l.StoreCol(e), l.nBatch) == Entry(l.StoreRow(f), l.StoreCol(f), l.nBatch)
    ensures e == f
  {
    SameOutPlace(l, e, f);
    PlaceOf(e, l.NumBlocks());
    PlaceOf(f, l.NumBlocks());
    DivMod(e.block, l.Nx());
    DivMod(f.block, l.Nx());
    assert BlockX(e, l.Nx()) == BlockX(f, l.Nx()) && BlockY(e, l.Nx()) == BlockY(f, l.Nx());
    PlaceUnique(e, f);
  }

  /** In linear memory: entry i, in column i % nData of row i / nData, is in column i / nData of row i % nData of the output. */
  ghost predicate EntriesMoved(inp: seq<real>, out: seq<real>, nData: nat, nBatch: nat)
    requires nData > 0
  {
    |out| == |inp| && forall i :: 0 <= i < |inp| ==> HasAt(out, i % nData * nBatch + i / nData, inp[i])
  }

  ghost predicate HasAt(out: seq<real>, k: int, x: real) { 0 <= k < |out| && out[k] == x }

  /** The kernel launch: for all sizes and every schedule the output is the transpose of the input. */
  method Kernel(l: Launch, inp: seq<real>, out: array<real>, tile: array2<real>, schedule: seq<Event>)
    requires |inp| == out.Length == l.nData * l.nBatch && l.nData > 0
    requires tile.Length0 == l.NumBlocks() && tile.Length1 == TILE_DIM * (TILE_DIM + 1)
    requires IsSchedule(schedule, l.NumBlocks())
    modifies out, tile
    ensures IsTranspose(inp, out[..], l.nData, l.nBatch)
    ensures EntriesMoved(inp, out[..], l.nData, l.nBatch)
  {
    for j := 0 to |schedule|
      invariant AllLoaded(l, inp, tile, schedule[..j]) && AllStored(l, inp, out, schedule[..j])
    {
      var e := schedule[j];
      assert schedule[..j + 1] == schedule[..j] + [e];
      if e.Load? {
        LoadStep(l, inp, tile, e, schedule[..j]);
      } else {
        WritesBefore(schedule, l.NumBlocks(), j);
        StoreStep(l, inp, tile, out, e, schedule[..j]);
      }
    }
    assert schedule[..|schedule|] == schedule;
    Finished(l, inp, out, schedule);
    AllMoved(inp, out[..], l.nData, l.nBatch);
  }

  /** A transposed matrix is moved that way. */
  lemma AllMoved(inp: seq<real>, out: seq<real>, nData: nat, nBatch: nat)
    requires nData > 0 && IsTranspose(inp, out, nData, nBatch)
    ensures EntriesMoved(inp, out, nData, nBatch)
  {
    forall i | 0 <= i < |inp| ensures HasAt(out, i % nData * nBatch + i / nData, inp[i]) { EntryMoved(inp, out, nData, nBatch, i); }
  }

  lemma EntryMoved(inp: seq<real>, out: seq<real>, nData: nat, nBatch: nat, i: nat)
    requires nData > 0 && IsTranspose(inp, out, nData, nBatch) && i < |inp|
    ensures HasAt(out, i % nData * nBatch + i / nData, inp[i])
  {
    DivMod(i, nData);
    RowInRange(i, nData, nBatch);
    var row, col := i % nData, i / nData;
    assert Entry(row, col, nBatch) == row * nBatch + col && Entry(col, row, nData) == i;
  }

  lemma Finished(l: Launch, inp: seq<real>, out: array<real>, schedule: seq<Event>)
    requires |inp| == out.Length == l.nData * l.nBatch && l.nData > 0 && IsSchedule(schedule, l.NumBlocks()) && AllStored(l, inp, out, schedule)
    ensures IsTranspose(inp, out[..], l.nData, l.nBatch)
  {
    forall row: nat, col: nat {:trigger Entry(row, col, l.nBatch)} | row < l.nData && col < l.nBatch
      ensures Entry(row, col, l.nBatch) < out.Length && Entry(col, row, l.nData) < |inp|
      ensures out[Entry(row, col, l.nBatch)] == inp[Entry(col, row, l.nData)]
    {
      var e := Writer(l, row, col);
      assert StoreDone(l, inp, out, e);
    }
  }

  /** Transposing twice is the identity. */
  lemma {:induction false} TransposeTwice(a: seq<real>, b: seq<real>, c: seq<real>, nData: nat, nBatch: nat)
    requires nData > 0 && IsTranspose(a, b, nData, nBatch) && IsTranspose(b, c, nBatch, nData)
    ensures c == a
  {
    forall i | 0 <= i < |a| ensures c[i] == a[i] {
      DivMod(i, nData);
      RowInRange(i, nData, nBatch);
      EntryTwice(a, b, c, nData, nBatch, i, i / nData, i % nData);
    }
  }

  lemma EntryTwice(a: seq<real>, b: seq<real>, c: seq<real>, nData: nat, nBatch: nat, i: nat, row: nat, col: nat)
    requires IsTranspose(a, b, nData, nBatch) && IsTranspose(b, c, nBatch, nData) && row < nBatch && col < nData && i == Entry(row, col, nData)
    ensures i < |a| && i < |c| && c[i] == a[i]
  {
    assert c[Entry(row, col, nData)] == b[Entry(col, row, nBatch)] == a[Entry(row, col, nData)];
  }

  lemma RowInRange(i: nat, n: nat, rows: nat)
    requires n > 0 && i < n * rows
    ensures 0 <= i / n < rows
  {
    DivMod(i, n);
    MulAtLeast(n, i / n - rows);
    MulAtLeast(n, i / n);
  }
}
