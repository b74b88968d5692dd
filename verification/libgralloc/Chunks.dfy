/** The allocator's chunk list as a value: what allocation and deallocation do to it. */
module Chunks {
  import opened Options

  const PAGE := 128  // a page, in units of 32 bytes

  /** A chunk of the heap, in units of 32 bytes. */
  datatype Block = Block(start: nat, size: nat, free: bool) {
    function End(): nat {
      start + size
    }
  }

  function Inserted<T>(s: seq<T>, i: nat, x: T): (r: seq<T>)
    requires i <= |s|
    ensures |r| == |s| + 1
  {
    s[..i] + [x] + s[i..]
  }

  function Removed<T>(s: seq<T>, i: nat): (r: seq<T>)
    requires i < |s|
    ensures |r| == |s| - 1
  {
    s[..i] + s[i + 1..]
  }

  lemma InsertedAt<T>(s: seq<T>, i: nat, x: T, k: nat)
    requires i <= |s| && k <= |s|
    ensures Inserted(s, i, x)[k] == if k < i then s[k] else if k == i then x else s[k - 1]
  {
  }

  lemma RemovedAt<T>(s: seq<T>, i: nat, k: nat)
    requires i < |s| && k < |s| - 1
    ensures Removed(s, i)[k] == if k < i then s[k] else s[k + 1]
  {
  }

  // ---------------------------------------------------------------- well-formed chunk lists

  /** The chunks cover [from, to) without gap or overlap, and none is empty. */
  predicate Tiles(bs: seq<Block>, from: nat, to: nat) {
    && (bs == [] ==> from == to)
    && (bs != [] ==> bs[0].start == from && bs[|bs| - 1].End() == to)
    && (forall i :: 0 <= i < |bs| ==> bs[i].size > 0)
    && (forall i :: 0 <= i < |bs| - 1 ==> bs[i].End() == bs[i + 1].start)
  }

  predicate Coalesced(bs: seq<Block>) {
    forall i :: 0 <= i < |bs| - 1 ==> !(bs[i].free && bs[i + 1].free)
  }

  predicate WellFormed(bs: seq<Block>, h: nat) {
    Tiles(bs, 0, h) && Coalesced(bs)
  }

  function Live(bs: seq<Block>): set<Block> {
    set b | b in bs && !b.free
  }

  lemma {:induction false} InOrder(bs: seq<Block>, from: nat, to: nat, i: nat, j: nat)
    requires Tiles(bs, from, to) && i < j < |bs|
    ensures bs[i].End() <= bs[j].start
    decreases j - i
  {
    if i + 1 < j {
      InOrder(bs, from, to, i + 1, j);
    }
  }

  lemma InHeap(bs: seq<Block>, from: nat, to: nat, i: nat)
    requires Tiles(bs, from, to) && i < |bs|
    ensures from <= bs[i].start && bs[i].End() <= to
  {
    if 0 < i { InOrder(bs, from, to, 0, i); }
    if i < |bs| - 1 { InOrder(bs, from, to, i, |bs| - 1); }
  }

  lemma StartsAreUnique(bs: seq<Block>, from: nat, to: nat, i: nat, j: nat)
    requires Tiles(bs, from, to) && i < |bs| && j < |bs| && bs[i].start == bs[j].start
    ensures i == j
  {
    if i < j { InOrder(bs, from, to, i, j); }
    if j < i { InOrder(bs, from, to, j, i); }
  }

  /** Live blocks lie inside the heap and do not overlap one another. */
  lemma LiveBlocksAreDisjoint(bs: seq<Block>, h: nat, b: Block, c: Block)
    requires Tiles(bs, 0, h) && b in Live(bs) && c in Live(bs)
    ensures b.End() <= h
    ensures b == c || b.End() <= c.start || c.End() <= b.start
  {
    var i :| 0 <= i < |bs| && bs[i] == b;
    var j :| 0 <= j < |bs| && bs[j] == c;
    InHeap(bs, 0, h, i);
    if i < j { InOrder(bs, 0, h, i, j); }
    if j < i { InOrder(bs, 0, h, j, i); }
  }

  // ---------------------------------------------------------------- the list as a function of the live blocks

  ghost predicate StartsAt(live: set<Block>, p: nat) {
    exists b :: b in live && b.start == p && b.size > 0
  }

  /** The first position from p on at which a live block starts, or the end of the heap. */
  ghost function NextLive(live: set<Block>, p: nat, h: nat): (n: nat)
    requires p <= h
    ensures p <= n <= h
    decreases h - p
  {
    if p == h || StartsAt(live, p) then p else NextLive(live, p + 1, h)
  }

  /** From p on: the live blocks, and one free chunk for each gap between them. */
  ghost function ChunksFrom(live: set<Block>, p: nat, h: nat): seq<Block>
    decreases h - p
  {
    if p >= h then []
    else if StartsAt(live, p) then
      var b :| b in live && b.start == p && b.size > 0;
      [b] + ChunksFrom(live, p + b.size, h)
    else
      var n := NextLive(live, p + 1, h);
      [Block(p, n - p, true)] + ChunksFrom(live, n, h)
  }

  lemma {:induction false} NextLiveIs(live: set<Block>, p: nat, n: nat, h: nat)
    requires p <= n <= h
    requires forall q: nat :: p <= q < n ==> !StartsAt(live, q)
    requires n == h || StartsAt(live, n)
    ensures NextLive(live, p, h) == n
    decreases n - p
  {
    if p < n {
      NextLiveIs(live, p + 1, n, h);
    }
  }

  /** Inside a chunk of the list no live block starts, except the chunk itself at its own start. */
  lemma NoStartInside(bs: seq<Block>, h: nat, k: nat, q: nat)
    requires Tiles(bs, 0, h) && k < |bs|
    requires bs[k].start <= q < bs[k].End() && StartsAt(Live(bs), q)
    ensures q == bs[k].start && !bs[k].free
  {
    var b :| b in Live(bs) && b.start == q && b.size > 0;
    var j :| 0 <= j < |bs| && bs[j] == b;
    if j < k { InOrder(bs, 0, h, j, k); }
    if k < j { InOrder(bs, 0, h, k, j); }
  }

  /** A free chunk is the whole gap up to the next live block. */
  lemma FreeChunkIsGap(bs: seq<Block>, h: nat, k: nat)
    requires WellFormed(bs, h) && k < |bs| && bs[k].free
    ensures !StartsAt(Live(bs), bs[k].start)
    ensures bs[k].start < bs[k].End() <= h && NextLive(Live(bs), bs[k].start + 1, h) == bs[k].End()
  {
    var live, c := Live(bs), bs[k];
    InHeap(bs, 0, h, k);
    forall q: nat | c.start <= q < c.End() ensures !StartsAt(live, q) {
      if StartsAt(live, q) { NoStartInside(bs, h, k, q); }
    }
    if k + 1 < |bs| {
      assert bs[k + 1] in live;
      assert StartsAt(live, c.End());
    }
    NextLiveIs(live, c.start + 1, c.End(), h);
  }

  lemma OnlyBlockAtItsStart(bs: seq<Block>, h: nat, k: nat, b: Block)
    requires Tiles(bs, 0, h) && k < |bs| && !bs[k].free
    ensures bs[k] in Live(bs)
    ensures b in Live(bs) && b.start == bs[k].start ==> b == bs[k]
  {
    if b in Live(bs) && b.start == bs[k].start {
      var j :| 0 <= j < |bs| && bs[j] == b;
      StartsAreUnique(bs, 0, h, j, k);
    }
  }

  lemma ChunksFromLive(live: set<Block>, c: Block, h: nat)
    requires c in live && c.size > 0 && c.start < h
    requires forall b :: b in live && b.start == c.start ==> b == c
    ensures ChunksFrom(live, c.start, h) == [c] + ChunksFrom(live, c.End(), h)
  {
    assert StartsAt(live, c.start);
  }

  lemma ChunksFromGap(live: set<Block>, c: Block, h: nat)
    requires c.free && c.start < h && !StartsAt(live, c.start)
    requires NextLive(live, c.start + 1, h) == c.End()
    ensures ChunksFrom(live, c.start, h) == [c] + ChunksFrom(live, c.End(), h)
  {
  }

  /** One chunk of the list is what the live blocks say comes at its start. */
  lemma CanonicalStep(bs: seq<Block>, h: nat, k: nat)
    requires WellFormed(bs, h) && k < |bs|
    ensures bs[k].End() == if k + 1 < |bs| then bs[k + 1].start else h
    ensures ChunksFrom(Live(bs), bs[k].start, h) == [bs[k]] + ChunksFrom(Live(bs), bs[k].End(), h)
  {
    InHeap(bs, 0, h, k);
    if bs[k].free {
      FreeChunkIsGap(bs, h, k);
      ChunksFromGap(Live(bs), bs[k], h);
    } else {
      forall b | b in Live(bs) && b.start == bs[k].start ensures b == bs[k] {
        OnlyBlockAtItsStart(bs, h, k, b);
      }
      OnlyBlockAtItsStart(bs, h, k, bs[k]);
      ChunksFromLive(Live(bs), bs[k], h);
    }
  }

  lemma {:induction false} CanonicalFrom(bs: seq<Block>, h: nat, k: nat)
    requires WellFormed(bs, h) && k <= |bs|
    ensures bs[k..] == ChunksFrom(Live(bs), if k < |bs| then bs[k].start else h, h)
    decreases |bs| - k
  {
    if k < |bs| {
      CanonicalStep(bs, h, k);
      CanonicalFrom(bs, h, k + 1);
      assert bs[k..] == [bs[k]] + bs[k + 1..];
    }
  }

  /** A well-formed chunk list is determined by its live blocks: its free chunks are exactly the gaps. */
  lemma Canonical(bs: seq<Block>, h: nat)
    requires WellFormed(bs, h)
    ensures bs == ChunksFrom(Live(bs), 0, h)
  {
    CanonicalFrom(bs, h, 0);
    if bs != [] {
      assert bs[0..] == bs;
    }
  }

  lemma SameLiveSameList(bs: seq<Block>, cs: seq<Block>, h: nat)
    requires WellFormed(bs, h) && WellFormed(cs, h) && Live(bs) == Live(cs)
    ensures bs == cs
  {
    Canonical(bs, h);
    Canonical(cs, h);
  }

  lemma NothingLive(bs: seq<Block>, h: nat)
    requires WellFormed(bs, h) && Live(bs) == {} && h > 0
    ensures bs == [Block(0, h, true)]
  {
    var initial := [Block(0, h, true)];
    assert Live(initial) == {};
    SameLiveSameList(bs, initial, h);
  }

  // ---------------------------------------------------------------- choosing a chunk

  /** How far the start must move up to reach a page boundary. */
  function Extra(start: nat): (e: nat)
    ensures e < PAGE && (start + e) % PAGE == 0
  {
    var negated: int := -(start as int);
    negated % PAGE
  }

  predicate Fits(b: Block, n: nat) {
    b.free && n + Extra(b.start) <= b.size
  }

  /** The smallest fitting chunk among the first k, the first one among equals. */
  function Scan(bs: seq<Block>, n: nat, k: nat): (r: Option<nat>)
    requires k <= |bs|
    ensures r.Some? ==> r.value < k && Fits(bs[r.value], n)
  {
    if k == 0 then None
    else
      var r := Scan(bs, n, k - 1);
      if Fits(bs[k - 1], n) && (r.None? || bs[k - 1].size < bs[r.value].size) then Some(k - 1) else r
  }

  lemma {:induction false} ScanIsBest(bs: seq<Block>, n: nat, k: nat)
    requires k <= |bs|
    ensures Scan(bs, n, k).None? <==> forall j :: 0 <= j < k ==> !Fits(bs[j], n)
    ensures Scan(bs, n, k).Some? ==>
              var i := Scan(bs, n, k).value;
              forall j :: 0 <= j < k && Fits(bs[j], n) ==>
                bs[i].size < bs[j].size || (bs[i].size == bs[j].size && i <= j)
  {
    if k > 0 {
      ScanIsBest(bs, n, k - 1);
    }
  }

  /** A chunk of exactly the requested size stays the choice, whatever follows. */
  lemma {:induction false} ExactFitStays(bs: seq<Block>, n: nat, i: nat, k: nat)
    requires i < k <= |bs|
    requires Scan(bs, n, i + 1) == Some(i) && bs[i].size == n
    ensures Scan(bs, n, k) == Some(i)
    decreases k
  {
    if i + 1 < k {
      ExactFitStays(bs, n, i, k - 1);
    }
  }

  /** A page-aligned run of n units that no live block touches. */
  predicate FreeRun(live: set<Block>, a: nat, n: nat, h: nat) {
    && a % PAGE == 0 && a + n <= h
    && forall b :: b in live ==> b.End() <= a || a + n <= b.start
  }

  /** The chunk that holds a unit of the heap. */
  lemma {:induction false} ChunkAt(bs: seq<Block>, from: nat, to: nat, u: nat) returns (i: nat)
    requires Tiles(bs, from, to) && from <= u < to
    ensures i < |bs| && bs[i].start <= u < bs[i].End()
    decreases |bs|
  {
    if u < bs[0].End() {
      i := 0;
    } else {
      assert Tiles(bs[1..], bs[0].End(), to);
      i := ChunkAt(bs[1..], bs[0].End(), to, u);
      i := i + 1;
    }
  }

  /** Some chunk fits exactly when some page-aligned run of free units exists anywhere in the heap. */
  lemma FitsIffFreeRun(bs: seq<Block>, h: nat, n: nat)
    requires WellFormed(bs, h) && n > 0
    ensures (exists i :: 0 <= i < |bs| && Fits(bs[i], n)) <==> (exists a: nat :: FreeRun(Live(bs), a, n, h))
  {
    if i :| 0 <= i < |bs| && Fits(bs[i], n) {
      var a := bs[i].start + Extra(bs[i].start);
      InHeap(bs, 0, h, i);
      forall b | b in Live(bs) ensures b.End() <= a || a + n <= b.start {
        var j :| 0 <= j < |bs| && bs[j] == b;
        if j < i { InOrder(bs, 0, h, j, i); }
        if i < j { InOrder(bs, 0, h, i, j); }
      }
      assert FreeRun(Live(bs), a, n, h);
    }
    if a: nat :| FreeRun(Live(bs), a, n, h) {
      var i := ChunkHoldsRun(bs, h, a, n);
      assert Fits(bs[i], n);
    }
  }

  lemma FreeOrLive(bs: seq<Block>, i: nat)
    requires i < |bs|
    ensures bs[i].free || bs[i] in Live(bs)
  {
  }

  /** A free run lies in one chunk, because free neighbours are always merged; and that chunk fits the request. */
  lemma ChunkHoldsRun(bs: seq<Block>, h: nat, a: nat, n: nat) returns (i: nat)
    requires WellFormed(bs, h) && n > 0 && FreeRun(Live(bs), a, n, h)
    ensures i < |bs| && Fits(bs[i], n)
  {
    i := ChunkAt(bs, 0, h, a);
    FreeOrLive(bs, i);
    InHeap(bs, 0, h, i);
    if i + 1 < |bs| {
      FreeOrLive(bs, i + 1);
    }
    AlignedIsFurther(bs[i].start, a);
  }

  lemma AlignedIsFurther(start: nat, a: nat)
    requires start <= a && a % PAGE == 0
    ensures start + Extra(start) <= a
  {
    var q := a / PAGE;
    assert a == PAGE * q;
    assert (PAGE * q - start) % PAGE == (-(start as int)) % PAGE;
  }
}
