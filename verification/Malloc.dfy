/**
 The block allocator of the application: a pool of equal blocks and a table with one entry a block,
 zero for a free block and otherwise the length of the chunk the block belongs to.
 */
module Malloc {

  const FAILED: nat := 0xFFFF_FFFF

  /** A table entry has sixteen bits, so a chunk, and with it the table, may be no longer than this. */
  const MOST: nat := 0xFFFF

  datatype Chunk = Chunk(start: nat, len: nat) {
    predicate Covers(k: int) { start <= k < start + len }
  }

  predicate Apart(c: Chunk, d: Chunk) { c.start + c.len <= d.start || d.start + d.len <= c.start }

  /** The table describes these chunks: they lie apart, their blocks carry their length, all other blocks are free. */
  ghost predicate Describes(m: seq<nat>, chunks: set<Chunk>) {
    && (forall c :: c in chunks ==> 0 < c.len && c.start + c.len <= |m|)
    && (forall c, k :: c in chunks && c.Covers(k) && 0 <= k < |m| ==> m[k] == c.len)
    && (forall c, d :: c in chunks && d in chunks && c != d ==> Apart(c, d))
    && forall k :: 0 <= k < |m| && m[k] != 0 ==> exists c :: c in chunks && c.Covers(k)
  }

  /** n free blocks in a row. */
  predicate FreeRun(m: seq<nat>, start: nat, n: nat) {
    start + n <= |m| && forall k :: start <= k < start + n ==> m[k] == 0
  }

  function Marked(m: seq<nat>, start: nat, n: nat, value: nat): (r: seq<nat>)
    requires start + n <= |m|
    ensures |r| == |m| && forall k :: 0 <= k < |m| ==> r[k] == if start <= k < start + n then value else m[k]
  {
    m[..start] + seq(n, _ => value) + m[start + n..]
  }

  /** Allocating a free run adds exactly that chunk. */
  lemma MarkAdds(m: seq<nat>, chunks: set<Chunk>, start: nat, n: nat)
    requires Describes(m, chunks) && n > 0 && FreeRun(m, start, n)
    ensures Describes(Marked(m, start, n, n), chunks + {Chunk(start, n)})
    ensures Chunk(start, n) !in chunks
  {
    var c := Chunk(start, n);
    assert c.Covers(start);
    forall d | d in chunks
      ensures Apart(c, d)
    {
      assert d.Covers(d.start) && !d.Covers(start);
    }
    var m' := Marked(m, start, n, n);
    forall k | 0 <= k < |m| && m'[k] != 0
      ensures exists d :: d in chunks + {c} && d.Covers(k)
    {
      if c.Covers(k) {
        assert c in chunks + {c};
      } else {
        var d :| d in chunks && d.Covers(k);
        assert d in chunks + {c};
      }
    }
  }

  /** Clearing the blocks of a chunk removes exactly that chunk. */
  lemma ClearRemoves(m: seq<nat>, chunks: set<Chunk>, c: Chunk)
    requires Describes(m, chunks) && c in chunks
    ensures Describes(Marked(m, c.start, c.len, 0), chunks - {c})
  {
    var m' := Marked(m, c.start, c.len, 0);
    forall d, k | d in chunks - {c} && d.Covers(k) && 0 <= k < |m|
      ensures m'[k] == d.len
    {
      assert Apart(c, d);
    }
    forall k | 0 <= k < |m| && m'[k] != 0
      ensures exists d :: d in chunks - {c} && d.Covers(k)
    {
      var d :| d in chunks && d.Covers(k);
      assert d in chunks - {c};
    }
  }

  /** Freeing what was just allocated restores the table. */
  lemma {:induction false} FreeUndoesMalloc(m: seq<nat>, start: nat, n: nat)
    requires FreeRun(m, start, n)
    ensures Marked(Marked(m, start, n, n), start, n, 0) == m
  {
    var m' := Marked(Marked(m, start, n, n), start, n, 0);
    assert forall k :: 0 <= k < |m| ==> m'[k] == m[k];
  }

  /** A block in the middle of a chunk. */
  ghost predicate Inside(chunks: set<Chunk>, k: nat) {
    exists c :: c in chunks && c.start < k < c.start + c.len
  }

  /** In a described table, a chunk of the same length ends right where another starts if the block before it says so. */
  lemma Neighbour(m: seq<nat>, chunks: set<Chunk>, start: nat, len: nat)
    requires Describes(m, chunks) && Chunk(start, len) in chunks
    requires start > 0 && m[start - 1] == len
    ensures start >= len && Chunk(start - len, len) in chunks
  {
    var c := Chunk(start, len);
    var e :| e in chunks && e.Covers(start - 1);
    assert e.len == m[start - 1];
    assert Apart(c, e);
    assert e == Chunk(start - len, len);
  }

  /**
   Two tables that agree below b cannot be described by chunks of length len that overlap out of step: one
   ends at b in the second, one starts at a in the first and reaches beyond b. Each has a neighbour below,
   which would go on for ever.
   */
  lemma {:induction false} OutOfStep(m: seq<nat>, s: set<Chunk>, a: nat, m': seq<nat>, s': set<Chunk>, b: nat, len: nat)
    requires Describes(m, s) && Describes(m', s') && |m| == |m'|
    requires a < b < a + len && b >= len && b <= |m|
    requires forall k :: 0 <= k < b ==> m[k] == m'[k]
    requires Chunk(a, len) in s && Chunk(b - len, len) in s'
    ensures false
    decreases b
  {
    var d := Chunk(b - len, len);
    assert d.Covers(a - 1) && m'[a - 1] == len;
    Neighbour(m, s, a, len);
    OutOfStep(m', s', b - len, m, s, a, len);
  }

  /** Clearing from the middle of a chunk leaves a table that describes no chunks at all. */
  lemma ClearInsideBreaks(m: seq<nat>, chunks: set<Chunk>, k: nat, chunks': set<Chunk>)
    requires Describes(m, chunks) && Inside(chunks, k)
    requires k + m[k] <= |m|
    ensures !Describes(Marked(m, k, m[k], 0), chunks')
  {
    var c :| c in chunks && c.start < k < c.start + c.len;
    assert c.Covers(k) && c.Covers(k - 1);
    var m' := Marked(m, k, m[k], 0);
    if Describes(m', chunks') {
      assert m'[k - 1] == c.len && m'[k] == 0;
      var d :| d in chunks' && d.Covers(k - 1);
      assert !d.Covers(k);
      assert d == Chunk(k - c.len, c.len);
      OutOfStep(m, chunks, c.start, m', chunks', k, c.len);
    }
  }

  /** Freeing the second block of a chunk of two leaves an entry that claims a block it no longer has. */
  lemma FreeInTheMiddle()
    ensures Describes([2, 2, 0], {Chunk(0, 2)}) && !exists s :: Describes([2, 0, 0], s)
  {
    var m, chunks := [2, 2, 0], {Chunk(0, 2)};
    assert Chunk(0, 2).Covers(0) && Chunk(0, 2).Covers(1);
    assert Inside(chunks, 1);
    assert Marked(m, 1, m[1], 0) == [2, 0, 0];
    FreeCases(m, chunks, 1);
  }

  /** Blocks needed for a size, rounded up. */
  function Needed(size: nat, block: nat): (n: nat)
    requires block > 0
    ensures size <= n * block < size + block
  {
    if size % block == 0 then size / block else size / block + 1
  }

  /** The start of the highest run of n free blocks. */
  ghost predicate Highest(m: seq<nat>, start: nat, n: nat) {
    FreeRun(m, start, n) && forall o: nat :: o > start ==> !FreeRun(m, o, n)
  }

  ghost predicate NoRun(m: seq<nat>, n: nat) {
    forall o: nat :: !FreeRun(m, o, n)
  }

  /** What one call of free does to the chunks, for every block it may be given. */
  lemma FreeCases(m: seq<nat>, chunks: set<Chunk>, k: nat)
    requires Describes(m, chunks) && k < |m| && k + m[k] <= |m|
    ensures var m' := Marked(m, k, m[k], 0);
      && (Describes(m', chunks - {Chunk(k, m[k])}) <==> !Inside(chunks, k))
      && ((exists s :: Describes(m', s)) <==> !Inside(chunks, k))
  {
    var m' := Marked(m, k, m[k], 0);
    if Inside(chunks, k) {
      forall s ensures !Describes(m', s) { ClearInsideBreaks(m, chunks, k, s); }
    } else if m[k] == 0 {
      assert m' == m && chunks - {Chunk(k, 0)} == chunks;
    } else {
      var c :| c in chunks && c.Covers(k);
      assert c == Chunk(k, m[k]);
      ClearRemoves(m, chunks, c);
    }
  }

  // ---------- how much is in use ----------

  /** The blocks in use. */
  function InUse(m: seq<nat>): set<nat> { set k: nat | k < |m| && m[k] != 0 }

  function Used(m: seq<nat>): nat {
    if m == [] then 0 else Used(m[..|m| - 1]) + if m[|m| - 1] != 0 then 1 else 0
  }

  /** Counting down the table counts each block in use once. */
  lemma {:induction false} UsedCounts(m: seq<nat>)
    ensures Used(m) == |InUse(m)|
    decreases |m|
  {
    if m != [] {
      var n := |m| - 1;
      UsedCounts(m[..n]);
      assert InUse(m) == InUse(m[..n]) + if m[n] != 0 then {n} else {};
    }
  }

  /** The blocks of all chunks together. */
  ghost function Total(chunks: set<Chunk>): nat {
    if chunks == {} then 0 else
      var c :| c in chunks;
      c.len + Total(chunks - {c})
  }

  lemma {:induction false} TotalWithout(chunks: set<Chunk>, c: Chunk)
    requires c in chunks
    ensures Total(chunks) == c.len + Total(chunks - {c})
    decreases chunks
  {
    var d :| d in chunks && Total(chunks) == d.len + Total(chunks - {d});
    if d != c {
      TotalWithout(chunks - {d}, c);
      TotalWithout(chunks - {c}, d);
      assert chunks - {d} - {c} == chunks - {c} - {d};
    }
  }

  function Range(start: nat, len: nat): (r: set<nat>)
    ensures |r| == len && forall k: nat :: k in r <==> start <= k < start + len
  {
    if len == 0 then {} else Range(start, len - 1) + {start + len - 1}
  }

  /** Clearing a run of blocks in use takes as many out of use. */
  lemma MarkedInUse(m: seq<nat>, start: nat, len: nat)
    requires start + len <= |m| && forall k :: start <= k < start + len ==> m[k] != 0
    ensures |InUse(m)| == |InUse(Marked(m, start, len, 0))| + len
  {
    var r, s, t := Range(start, len), InUse(m), InUse(Marked(m, start, len, 0));
    assert forall k :: k in s <==> k in t || k in r;
    assert s == t + r && t !! r;
  }

  lemma ChunkInUse(m: seq<nat>, chunks: set<Chunk>, c: Chunk)
    requires Describes(m, chunks) && c in chunks
    ensures c.start + c.len <= |m| && forall k :: c.start <= k < c.start + c.len ==> m[k] != 0
  {
    assert forall k :: c.start <= k < c.start + c.len ==> c.Covers(k);
  }

  lemma NoneInUse(m: seq<nat>)
    requires Describes(m, {})
    ensures InUse(m) == {}
  {
  }

  /** A table has as many blocks in use as the chunks it describes have together. */
  lemma {:induction false} InUseIsTotal(m: seq<nat>, chunks: set<Chunk>)
    requires Describes(m, chunks)
    ensures |InUse(m)| == Total(chunks)
    decreases chunks
  {
    if chunks == {} {
      NoneInUse(m);
    } else {
      hide Describes, InUse, Total;
      var c :| c in chunks;
      ChunkInUse(m, chunks, c);
      ClearRemoves(m, chunks, c);
      InUseIsTotal(Marked(m, c.start, c.len, 0), chunks - {c});
      TotalWithout(chunks, c);
      MarkedInUse(m, c.start, c.len);
    }
  }

  class Pool {
    const block: nat
    const table: array<nat>
    var ready: bool
    ghost var chunks: set<Chunk>

    ghost predicate Shaped()
      reads this
    {
      0 < block && 0 < table.Length <= MOST && table.Length * block <= FAILED
    }

    /** Once initialised, the table describes the chunks handed out and not yet freed. */
    ghost predicate Valid()
      reads this, table
    {
      Shaped() && (ready ==> Describes(table[..], chunks))
    }

    /** What the table counts as: all free until the pool is initialised. */
    ghost function Entries(): seq<nat>
      reads this, table
    {
      if ready then table[..] else seq(table.Length, _ => 0)
    }

    ghost function Live(): set<Chunk>
      reads this
    {
      if ready then chunks else {}
    }

    constructor (blocks: nat, block: nat)
      requires 0 < block && 0 < blocks <= MOST && blocks * block <= FAILED
      ensures Valid() && !ready && table.Length == blocks && this.block == block && fresh(table)
    {
      this.block := block;
      table := new nat[blocks];
      ready := false;
    }

    method Init()
      requires Shaped()
      modifies this, table
      ensures Valid() && ready && chunks == {} && forall k :: 0 <= k < table.Length ==> table[k] == 0
    {
      for i := 0 to table.Length
        invariant forall k :: 0 <= k < i ==> table[k] == 0
      {
        table[i] := 0;
      }
      ready := true;
      chunks := {};
    }

    /** Percentage of blocks in use, which are those of the chunks handed out. */
    method Preused() returns (percent: nat)
      requires Shaped()
      ensures percent == |InUse(table[..])| * 100 / table.Length
      ensures ready && Valid() ==> percent == Total(chunks) * 100 / table.Length
    {
      var used := 0;
      for i := 0 to table.Length
        invariant used == Used(table[..i])
      {
        assert table[..i + 1] == table[..i] + [table[i]];
        if table[i] != 0 { used := used + 1; }
      }
      assert table[..table.Length] == table[..];
      assert used == |InUse(table[..])| && (ready && Valid() ==> used == Total(chunks)) by {
        UsedCounts(table[..]);
        if ready && Valid() { InUseIsTotal(table[..], chunks); }
      }
      hide Describes, Used, Total, InUse;
      percent := used * 100 / table.Length;
    }

    /** `len` entries from `start` on. */
    method Fill(start: nat, len: nat, value: nat)
      requires start + len <= table.Length
      modifies table
      ensures table[..] == Marked(old(table[..]), start, len, value)
    {
      for i := 0 to len
        invariant forall k :: 0 <= k < table.Length ==> table[k] == if start <= k < start + i then value else old(table[k])
      {
        table[start + i] := value;
      }
    }

    /** The highest run of `need` free blocks, as one more chunk. */
    method Take(need: nat) returns (start: nat)
      requires Valid() && ready && 0 < need
      modifies `chunks, table
      ensures Valid() && start <= table.Length
      ensures start == table.Length <==> NoRun(old(table[..]), need)
      ensures start == table.Length ==> table[..] == old(table[..]) && chunks == old(chunks)
      ensures start < table.Length ==>
        && Highest(old(table[..]), start, need) && table[..] == Marked(old(table[..]), start, need, need)
        && Chunk(start, need) !in old(chunks) && chunks == old(chunks) + {Chunk(start, need)}
    {
      start := Search(need);
      if start < table.Length {
        MarkAdds(table[..], chunks, start, need);
        hide Describes;
        Fill(start, need, need);
        chunks := chunks + {Chunk(start, need)};
      }
    }

    /**
     Hands out the highest run of enough free blocks, as one chunk and nothing else, and fails exactly when
     there is none or nothing is asked for.
     */
    method Malloc(size: nat) returns (offset: nat)
      requires Valid()
      modifies this, table
      ensures Valid() && ready
      ensures offset == FAILED <==> size == 0 || NoRun(old(Entries()), Needed(size, block))
      ensures offset == FAILED ==> table[..] == old(Entries()) && chunks == old(Live())
      ensures offset != FAILED ==> Allocated(old(Entries()), old(Live()), offset, Needed(size, block))
    {
      if !ready {
        Init();
      }
      assert table[..] == old(Entries()) && chunks == old(Live());
      hide Describes, Highest, NoRun;
      offset := FAILED;
      if size != 0 {
        var need := size / block;
        if size % block != 0 {
          need := need + 1;
        }
        assert need == Needed(size, block);
        var start := Take(need);
        if start < table.Length {
          Address(start, block, table.Length);
          offset := start * block;
        }
      }
    }

    /** The outcome of a successful call: n blocks, the highest free run before, are now one more chunk at `offset`. */
    ghost predicate Allocated(before: seq<nat>, live: set<Chunk>, offset: nat, n: nat)
      reads this, table
    {
      && Shaped() && |before| == table.Length
      && var start := offset / block;
      && offset == start * block && Highest(before, start, n)
      && table[..] == Marked(before, start, n, n)
      && Chunk(start, n) !in live && chunks == live + {Chunk(start, n)}
    }

    /** Walks down the table counting free blocks in a row until there are enough. */
    method Search(need: nat) returns (start: nat)
      requires 0 < need
      ensures start <= table.Length
      ensures if start < table.Length then Highest(table[..], start, need) else NoRun(table[..], need)
    {
      var offset, run := table.Length - 1, 0;
      while offset >= 0 && run != need
        invariant -1 <= offset < table.Length && run <= need && offset + run < table.Length
        invariant forall k :: offset < k <= offset + run ==> table[k] == 0
        invariant offset + run + 1 == table.Length || table[offset + run + 1] != 0
        invariant forall o: nat :: o > offset + 1 || (o > offset && run < need) ==> !FreeRun(table[..], o, need)
      {
        if table[offset] == 0 {
          run := run + 1;
        } else {
          run := 0;
        }
        offset := offset - 1;
      }
      start := if run == need then offset + 1 else table.Length;
    }

    /**
     Clears as many entries as the addressed block says, starting at that block. The result describes chunks
     exactly when the block is free or the first of its chunk; then the chunk, and nothing else, is gone.
     */
    method Free(offset: nat) returns (code: nat)
      requires Valid()
      requires ready && offset < table.Length * block ==> offset / block + table[offset / block] <= table.Length
      modifies this, table
      ensures ready
      ensures !old(ready) ==> code == 1 && chunks == {} && table[..] == old(Entries())
      ensures old(ready) && offset >= table.Length * block ==> code == 2 && chunks == old(chunks) && table[..] == old(table[..])
      ensures old(ready) && offset < table.Length * block ==>
        var k := offset / block; var n := old(table[k]);
        && code == 0 && table[..] == Marked(old(table[..]), k, n, 0)
        && chunks == old(chunks) - {Chunk(k, n)}
        && (Describes(table[..], chunks) <==> !Inside(old(chunks), k))
        && ((exists s :: Describes(table[..], s)) <==> !Inside(old(chunks), k))
    {
      if !ready {
        Init();
        code := 1;
      } else if offset < table.Length * block {
        InTable(offset, block, table.Length);
        var index := offset / block;
        var count := table[index];
        FreeCases(table[..], chunks, index);
        Fill(index, count, 0);
        chunks := chunks - {Chunk(index, count)};
        code := 0;
      } else {
        code := 2;
      }
    }
  }

  lemma Times(a: nat, b: nat, c: nat)
    ensures a >= b ==> a * c >= b * c
    ensures a > b && c > 0 ==> a * c > b * c
  {
  }

  lemma InTable(offset: nat, block: nat, length: nat)
    requires 0 < block && offset < length * block
    ensures offset / block < length
  {
    Times(offset / block, length, block);
  }

  lemma Address(start: nat, block: nat, length: nat)
    requires 0 < block && start < length
    ensures start * block < length * block && start * block / block == start
  {
    Times(length, start, block);
    WholeBlocks(start, block, start * block);
  }

  lemma WholeBlocks(start: nat, block: nat, bytes: nat)
    requires 0 < block && bytes == start * block
    ensures bytes / block == start
  {
    var q := bytes / block;
    assert (q + 1) * block == q * block + block;
    Times(q, start, block);
    Times(start, q + 1, block);
  }
}
