/** Allocation and deallocation on chunk lists, and whole runs of them. */
module ChunkOps {
  import opened Options
  import opened Chunks

  // ---------------------------------------------------------------- allocation

  /** The live block that n units taken from the free chunk b become. */
  function Carve(b: Block, n: nat): Block {
    Block(b.start + Extra(b.start), n, false)
  }

  /** The free chunk of the given size, if that is not zero. */
  function Padding(start: nat, size: nat): seq<Block> {
    if size == 0 then [] else [Block(start, size, true)]
  }

  /** The pieces a fitting chunk is cut into: padding up to the page boundary, the block, the rest. */
  function Split(b: Block, n: nat): seq<Block>
    requires Fits(b, n)
  {
    var block := Carve(b, n);
    Padding(b.start, Extra(b.start)) + [block] + Padding(block.End(), b.End() - block.End())
  }

  function Placed(bs: seq<Block>, i: nat, n: nat): seq<Block>
    requires i < |bs| && Fits(bs[i], n)
  {
    bs[..i] + Split(bs[i], n) + bs[i + 1..]
  }

  /** The list after the chosen chunk has become the block and its padding has been inserted before it. */
  function Padded(bs: seq<Block>, i: nat, n: nat): (cs: seq<Block>)
    requires i < |bs| && Fits(bs[i], n)
    ensures |cs| == if Extra(bs[i].start) == 0 then |bs| else |bs| + 1
  {
    var cs := bs[i := Carve(bs[i], n)];
    if Extra(bs[i].start) == 0 then cs else Inserted(cs, i, Block(bs[i].start, Extra(bs[i].start), true))
  }

  function BlockIndex(bs: seq<Block>, i: nat): nat
    requires i < |bs|
  {
    if Extra(bs[i].start) == 0 then i else i + 1
  }

  /** Placing is: carve, insert the padding before the block, insert the rest behind it. */
  lemma PlacedByInsertions(bs: seq<Block>, i: nat, n: nat)
    requires i < |bs| && Fits(bs[i], n)
    ensures Padded(bs, i, n)[BlockIndex(bs, i)] == Carve(bs[i], n)
    ensures Carve(bs[i], n).End() == bs[i].End() ==> Placed(bs, i, n) == Padded(bs, i, n)
    ensures var end := Carve(bs[i], n).End();
            end < bs[i].End() ==>
              Placed(bs, i, n) == Inserted(Padded(bs, i, n), BlockIndex(bs, i) + 1, Block(end, bs[i].End() - end, true))
  {
  }

  /** Replacing a chunk by pieces that tile it leaves a tiling. */
  lemma ReplaceTiles(bs: seq<Block>, from: nat, to: nat, lo: nat, hi: nat, mid: seq<Block>)
    requires Tiles(bs, from, to) && lo < hi <= |bs|
    requires mid != [] && Tiles(mid, bs[lo].start, bs[hi - 1].End())
    ensures Tiles(bs[..lo] + mid + bs[hi..], from, to)
  {
    var cs := bs[..lo] + mid + bs[hi..];
    forall i | 0 <= i < |cs| - 1 ensures cs[i].End() == cs[i + 1].start {
      if i + 1 < lo {
        assert cs[i] == bs[i] && cs[i + 1] == bs[i + 1];
      } else if i + 1 == lo {
        assert cs[i] == bs[i] && cs[i + 1] == mid[0];
        assert bs[i].End() == bs[i + 1].start;
      } else if i + 1 < lo + |mid| {
        assert cs[i] == mid[i - lo] && cs[i + 1] == mid[i - lo + 1];
      } else {
        var k := i + 1 - lo - |mid| + hi;
        assert cs[i + 1] == bs[k];
        if i + 1 == lo + |mid| {
          assert cs[i] == mid[|mid| - 1];
          assert bs[hi - 1].End() == bs[hi - 1 + 1].start;
        } else {
          assert cs[i] == bs[k - 1];
        }
      }
    }
    if hi < |bs| {
      assert cs[|cs| - 1] == bs[|bs| - 1];
    } else {
      assert cs[|cs| - 1] == mid[|mid| - 1];
    }
    if lo > 0 {
      assert cs[0] == bs[0];
    }
  }

  /** Replacing chunks leaves no free neighbours when the pieces have none and their ends do not meet free ones. */
  lemma ReplaceCoalesced(bs: seq<Block>, lo: nat, hi: nat, mid: seq<Block>)
    requires Coalesced(bs) && lo < hi <= |bs| && mid != [] && Coalesced(mid)
    requires lo > 0 ==> !(bs[lo - 1].free && mid[0].free)
    requires hi < |bs| ==> !(mid[|mid| - 1].free && bs[hi].free)
    ensures Coalesced(bs[..lo] + mid + bs[hi..])
  {
    var cs := bs[..lo] + mid + bs[hi..];
    forall i | 0 <= i < |cs| - 1 ensures !(cs[i].free && cs[i + 1].free) {
      if i + 1 < lo {
        assert cs[i] == bs[i] && cs[i + 1] == bs[i + 1];
      } else if i + 1 == lo {
        assert cs[i] == bs[lo - 1] && cs[i + 1] == mid[0];
      } else if i + 1 < lo + |mid| {
        assert cs[i] == mid[i - lo] && cs[i + 1] == mid[i - lo + 1];
      } else {
        var k := i + 1 - lo - |mid| + hi;
        assert cs[i + 1] == bs[k];
        assert i + 1 == lo + |mid| ==> cs[i] == mid[|mid| - 1];
        assert i + 1 > lo + |mid| ==> cs[i] == bs[k - 1];
      }
    }
  }

  lemma LiveConcat(bs: seq<Block>, cs: seq<Block>)
    ensures Live(bs + cs) == Live(bs) + Live(cs)
  {
  }

  lemma LiveOne(b: Block)
    ensures Live([b]) == if b.free then {} else {b}
  {
  }

  lemma ReplaceLive(bs: seq<Block>, lo: nat, hi: nat, mid: seq<Block>)
    requires lo <= hi <= |bs|
    ensures Live(bs[..lo] + mid + bs[hi..]) == Live(bs[..lo]) + Live(mid) + Live(bs[hi..])
    ensures Live(bs) == Live(bs[..lo]) + Live(bs[lo..hi]) + Live(bs[hi..])
  {
    LiveConcat(bs[..lo] + mid, bs[hi..]);
    LiveConcat(bs[..lo], mid);
    LiveConcat(bs[..lo] + bs[lo..hi], bs[hi..]);
    LiveConcat(bs[..lo], bs[lo..hi]);
    assert bs == bs[..lo] + bs[lo..hi] + bs[hi..];
  }

  lemma SplitLive(b: Block, n: nat)
    requires Fits(b, n)
    ensures Live(Split(b, n)) == {Carve(b, n)}
  {
    var block := Carve(b, n);
    var head := Padding(b.start, Extra(b.start));
    var tail := Padding(block.End(), b.End() - block.End());
    LiveConcat(head + [block], tail);
    LiveConcat(head, [block]);
    LiveOne(block);
  }

  lemma PlacedIsWellFormed(bs: seq<Block>, h: nat, i: nat, n: nat)
    requires WellFormed(bs, h) && n > 0 && i < |bs| && Fits(bs[i], n)
    ensures WellFormed(Placed(bs, i, n), h)
  {
    var mid := Split(bs[i], n);
    ReplaceTiles(bs, 0, h, i, i + 1, mid);
    ReplaceCoalesced(bs, i, i + 1, mid);
  }

  /** A request for no units at all would leave a block of size 0 in the list. */
  lemma PlacedIsWellFormedIff(bs: seq<Block>, h: nat, i: nat, n: nat)
    requires WellFormed(bs, h) && i < |bs| && Fits(bs[i], n)
    ensures Carve(bs[i], n) in Live(Placed(bs, i, n))
    ensures WellFormed(Placed(bs, i, n), h) <==> n > 0
  {
    var mid := Split(bs[i], n);
    var k := i + |Padding(bs[i].start, Extra(bs[i].start))|;
    assert Placed(bs, i, n)[k] == mid[k - i] == Carve(bs[i], n);
    if n > 0 { PlacedIsWellFormed(bs, h, i, n); }
  }

  /** The place of the new block was free. */
  lemma CarveIsFree(bs: seq<Block>, h: nat, i: nat, n: nat)
    requires WellFormed(bs, h) && i < |bs| && Fits(bs[i], n)
    ensures FreeRun(Live(bs), Carve(bs[i], n).start, n, h)
    ensures n > 0 ==> Carve(bs[i], n) !in Live(bs)
  {
    var block := Carve(bs[i], n);
    InHeap(bs, 0, h, i);
    forall b | b in Live(bs) ensures b.End() <= block.start || block.start + n <= b.start {
      var j :| 0 <= j < |bs| && bs[j] == b;
      if j < i { InOrder(bs, 0, h, j, i); }
      if i < j { InOrder(bs, 0, h, i, j); }
    }
  }

  /** Allocation adds exactly its block to the live ones. */
  lemma PlacedAddsBlock(bs: seq<Block>, h: nat, i: nat, n: nat)
    requires WellFormed(bs, h) && n > 0 && i < |bs| && Fits(bs[i], n)
    ensures Live(Placed(bs, i, n)) == Live(bs) + {Carve(bs[i], n)}
    ensures Carve(bs[i], n) !in Live(bs)
  {
    var before, after := Live(bs[..i]), Live(bs[i + 1..]);
    CarveIsFree(bs, h, i, n);
    assert Live(Placed(bs, i, n)) == before + {Carve(bs[i], n)} + after by {
      ReplaceLive(bs, i, i + 1, Split(bs[i], n));
      SplitLive(bs[i], n);
    }
    assert Live(bs) == before + {} + after by {
      ReplaceLive(bs, i, i + 1, []);
      assert bs[i..i + 1] == [bs[i]];
      LiveOne(bs[i]);
    }
  }

  /** The n units at a come from the first page of the smallest chunk that can hold them, the first one of equals. */
  predicate InBestChunk(bs: seq<Block>, cs: seq<Block>, n: nat, a: nat) {
    exists i :: 0 <= i < |bs| && Fits(bs[i], n) && Smallest(bs, n, i)
                && bs[i].start <= a < bs[i].start + PAGE && a + n <= bs[i].End() && cs == Placed(bs, i, n)
  }

  predicate Smallest(bs: seq<Block>, n: nat, i: nat)
    requires i < |bs|
  {
    forall j :: 0 <= j < |bs| && Fits(bs[j], n) ==> bs[i].size < bs[j].size || (bs[i].size == bs[j].size && i <= j)
  }

  /** What an allocation of n units promises: the list goes from bs to cs and the block is at unit r, if anywhere. */
  ghost predicate Allocated(bs: seq<Block>, cs: seq<Block>, h: nat, n: nat, r: Option<nat>) {
    match r
    case None =>
      cs == bs && !exists a: nat :: FreeRun(Live(bs), a, n, h)
    case Some(a) =>
      && FreeRun(Live(bs), a, n, h)
      && InBestChunk(bs, cs, n, a)
      && WellFormed(cs, h)
      && Block(a, n, false) !in Live(bs)
      && Live(cs) == Live(bs) + {Block(a, n, false)}
  }

  /** Best fit by scanning keeps that promise; in particular it fails only if there is no room anywhere. */
  lemma ScanAllocates(bs: seq<Block>, h: nat, n: nat)
    requires WellFormed(bs, h) && n > 0
    ensures Scan(bs, n, |bs|) == None ==> Allocated(bs, bs, h, n, None)
    ensures Scan(bs, n, |bs|).Some? ==>
              var i := Scan(bs, n, |bs|).value;
              Allocated(bs, Placed(bs, i, n), h, n, Some(Carve(bs[i], n).start))
  {
    ScanIsBest(bs, n, |bs|);
    FitsIffFreeRun(bs, h, n);
    if Scan(bs, n, |bs|).Some? {
      var i := Scan(bs, n, |bs|).value;
      PlacedIsWellFormed(bs, h, i, n);
      PlacedAddsBlock(bs, h, i, n);
      CarveIsFree(bs, h, i, n);
      assert Smallest(bs, n, i);
    }
  }

  // ---------------------------------------------------------------- deallocation

  /** The first and one past the last of the chunks that become one when chunk i is freed. */
  function MergeLo(bs: seq<Block>, i: nat): (lo: nat)
    requires i < |bs|
    ensures lo <= i
  {
    if i > 0 && bs[i - 1].free then i - 1 else i
  }

  function MergeHi(bs: seq<Block>, i: nat): (hi: nat)
    requires i < |bs|
    ensures i < hi <= |bs|
  {
    if i + 1 < |bs| && bs[i + 1].free then i + 2 else i + 1
  }

  /** The free chunk that takes the place of chunks lo to hi. */
  function Span(bs: seq<Block>, lo: nat, hi: nat): Block
    requires lo < hi <= |bs|
    requires bs[lo].start <= bs[hi - 1].End()
  {
    Block(bs[lo].start, bs[hi - 1].End() - bs[lo].start, true)
  }

  lemma SpanIsPositive(bs: seq<Block>, from: nat, to: nat, lo: nat, hi: nat)
    requires Tiles(bs, from, to) && lo < hi <= |bs|
    ensures bs[lo].start < bs[hi - 1].End()
  {
    if lo < hi - 1 { InOrder(bs, from, to, lo, hi - 1); }
  }

  function Freed(bs: seq<Block>, h: nat, i: nat): seq<Block>
    requires Tiles(bs, 0, h) && i < |bs|
  {
    var lo, hi := MergeLo(bs, i), MergeHi(bs, i);
    SpanIsPositive(bs, 0, h, lo, hi);
    bs[..lo] + [Span(bs, lo, hi)] + bs[hi..]
  }

  /** Chunk j joined to a free chunk on its left. */
  function JoinLeft(bs: seq<Block>, j: nat): seq<Block>
    requires j < |bs|
  {
    if j > 0 && bs[j - 1].free then
      Removed(bs[j - 1 := Block(bs[j - 1].start, bs[j - 1].size + bs[j].size, true)], j)
    else bs
  }

  /** Where the chunk after chunk j is once that has been joined. */
  function NextIndex(bs: seq<Block>, j: nat): nat
    requires j < |bs|
  {
    if j > 0 && bs[j - 1].free then j else j + 1
  }

  lemma JoinPair(before: seq<Block>, x: Block, y: Block, after: seq<Block>)
    requires x.free
    ensures JoinLeft(before + [x, y] + after, |before| + 1) == before + [Block(x.start, x.size + y.size, true)] + after
  {
  }

  lemma JoinFirst(bs: seq<Block>, from: nat, to: nat, i: nat)
    requires Tiles(bs, from, to) && i < |bs|
    ensures var lo, marked := MergeLo(bs, i), bs[i := Block(bs[i].start, bs[i].size, true)];
            && bs[lo].start < bs[i].End()
            && JoinLeft(marked, i) == bs[..lo] + [Span(bs, lo, i + 1)] + bs[i + 1..]
            && NextIndex(marked, i) == lo + 1
  {
    var lo, marked := MergeLo(bs, i), bs[i := Block(bs[i].start, bs[i].size, true)];
    SpanIsPositive(bs, from, to, lo, i + 1);
    var before, rest := bs[..lo], bs[i + 1..];
    if lo < i {
      assert bs[i - 1].End() == bs[i - 1 + 1].start;
      var x, y := bs[lo], marked[i];
      assert Span(bs, lo, i + 1) == Block(x.start, x.size + y.size, true);
      assert marked == before + [x, y] + rest;
      JoinPair(before, x, y, rest);
    } else {
      assert marked == before + [Span(bs, lo, i + 1)] + rest;
    }
  }

  /** The second turn of the merging loop, which happens if the next chunk is free. */
  function JoinNext(bs: seq<Block>, next: nat): seq<Block> {
    if next < |bs| && bs[next].free then JoinLeft(bs, next) else bs
  }

  /** A free chunk x between before and rest, grown over the chunk after it if that is free. */
  function Grown(before: seq<Block>, x: Block, rest: seq<Block>): seq<Block> {
    if rest != [] && rest[0].free then before + [Block(x.start, x.size + rest[0].size, true)] + rest[1..]
    else before + [x] + rest
  }

  lemma JoinSecond(before: seq<Block>, x: Block, rest: seq<Block>)
    requires x.free
    ensures JoinNext(before + [x] + rest, |before| + 1) == Grown(before, x, rest)
  {
    if rest != [] {
      assert before + [x] + rest == before + [x, rest[0]] + rest[1..];
      assert (before + [x] + rest)[|before| + 1] == rest[0];
      JoinPair(before, x, rest[0], rest[1..]);
    }
  }

  lemma FreedIsGrown(bs: seq<Block>, h: nat, i: nat)
    requires Tiles(bs, 0, h) && i < |bs|
    ensures bs[MergeLo(bs, i)].start < bs[i].End()
    ensures Freed(bs, h, i) == Grown(bs[..MergeLo(bs, i)], Span(bs, MergeLo(bs, i), i + 1), bs[i + 1..])
  {
    var lo, hi := MergeLo(bs, i), MergeHi(bs, i);
    SpanIsPositive(bs, 0, h, lo, i + 1);
    SpanIsPositive(bs, 0, h, lo, hi);
    var before, x, rest := bs[..lo], Span(bs, lo, i + 1), bs[i + 1..];
    if i + 1 < hi {
      var wide := Span(bs, lo, hi);
      assert wide == Block(x.start, x.size + rest[0].size, true) by {
        assert bs[i].End() == bs[i + 1].start;
      }
      var after := bs[hi..];
      assert rest[1..] == after;
      assert Freed(bs, h, i) == before + [wide] + after == Grown(before, x, rest);
    } else {
      assert Freed(bs, h, i) == before + [x] + rest == Grown(before, x, rest);
    }
  }

  function Marked(bs: seq<Block>, i: nat): seq<Block>
    requires i < |bs|
  {
    bs[i := Block(bs[i].start, bs[i].size, true)]
  }

  /** Freeing is: marking the chunk, joining it to the left, then joining the next chunk if that is free. */
  lemma FreedByJoining(bs: seq<Block>, h: nat, i: nat)
    requires Tiles(bs, 0, h) && i < |bs|
    ensures Freed(bs, h, i) == JoinNext(JoinLeft(Marked(bs, i), i), NextIndex(Marked(bs, i), i))
  {
    FreedIsGrown(bs, h, i);
    JoinFirst(bs, 0, h, i);
    var before, x, rest := bs[..MergeLo(bs, i)], Span(bs, MergeLo(bs, i), i + 1), bs[i + 1..];
    var once, next := JoinLeft(Marked(bs, i), i), NextIndex(Marked(bs, i), i);
    JoinSecond(before, x, rest);
    assert once == before + [x] + rest && next == |before| + 1;
  }

  lemma FreedIsWellFormed(bs: seq<Block>, h: nat, i: nat)
    requires WellFormed(bs, h) && i < |bs| && !bs[i].free
    ensures WellFormed(Freed(bs, h, i), h)
  {
    var lo, hi := MergeLo(bs, i), MergeHi(bs, i);
    SpanIsPositive(bs, 0, h, lo, hi);
    var mid := [Span(bs, lo, hi)];
    ReplaceTiles(bs, 0, h, lo, hi, mid);
    ReplaceCoalesced(bs, lo, hi, mid);
  }

  /** Of the chunks that are merged, only the freed one was live. */
  lemma MergedLive(bs: seq<Block>, i: nat)
    requires i < |bs| && !bs[i].free
    ensures Live(bs[MergeLo(bs, i)..MergeHi(bs, i)]) == {bs[i]}
  {
    var lo, hi := MergeLo(bs, i), MergeHi(bs, i);
    var left, right := bs[lo..i], bs[i + 1..hi];
    assert bs[lo..hi] == left + [bs[i]] + right;
    LiveConcat(left + [bs[i]], right);
    LiveConcat(left, [bs[i]]);
    LiveOne(bs[i]);
    if lo < i { assert left == [bs[lo]]; LiveOne(bs[lo]); }
    if i + 1 < hi { assert right == [bs[i + 1]]; LiveOne(bs[i + 1]); }
  }

  lemma NotElsewhere(bs: seq<Block>, from: nat, to: nat, i: nat, lo: nat, hi: nat)
    requires Tiles(bs, from, to) && lo <= i < hi <= |bs|
    ensures bs[i] !in bs[..lo] && bs[i] !in bs[hi..]
  {
    if bs[i] in bs[..lo] {
      var j :| 0 <= j < lo && bs[j] == bs[i];
      StartsAreUnique(bs, from, to, j, i);
    }
    if bs[i] in bs[hi..] {
      var j :| 0 <= j < |bs| - hi && bs[hi..][j] == bs[i];
      StartsAreUnique(bs, from, to, hi + j, i);
    }
  }

  /** After the second turn the merging loop has arrived at a live chunk or at the end, so it stops. */
  lemma MergeEnds(bs: seq<Block>, h: nat, i: nat)
    requires WellFormed(bs, h) && i < |bs| && !bs[i].free
    ensures var once, next := JoinLeft(Marked(bs, i), i), NextIndex(Marked(bs, i), i);
            && (forall k :: 0 <= k < |once| ==> once[k].size > 0)
            && (next < |once| && once[next].free ==>
                  && NextIndex(once, next) == next
                  && var twice := JoinLeft(once, next);
                     next < |twice| ==> !twice[next].free)
  {
  }

  /** Freeing removes exactly its block from the live ones. */
  lemma FreedRemovesBlock(bs: seq<Block>, h: nat, i: nat)
    requires WellFormed(bs, h) && i < |bs| && !bs[i].free
    ensures Live(Freed(bs, h, i)) == Live(bs) - {bs[i]}
  {
    var lo, hi := MergeLo(bs, i), MergeHi(bs, i);
    SpanIsPositive(bs, 0, h, lo, hi);
    ReplaceLive(bs, lo, hi, [Span(bs, lo, hi)]);
    LiveOne(Span(bs, lo, hi));
    MergedLive(bs, i);
    NotElsewhere(bs, 0, h, i, lo, hi);
  }

  // ---------------------------------------------------------------- a pair of operations, and whole runs

  /** Freeing what was just allocated restores the list exactly. */
  lemma FreeUndoesAllocate(bs: seq<Block>, h: nat, i: nat, n: nat, j: nat)
    requires WellFormed(bs, h) && n > 0 && i < |bs| && Fits(bs[i], n)
    requires j < |Placed(bs, i, n)| && Placed(bs, i, n)[j] == Carve(bs[i], n)
    ensures Tiles(Placed(bs, i, n), 0, h)
    ensures Freed(Placed(bs, i, n), h, j) == bs
  {
    var cs := Placed(bs, i, n);
    PlacedIsWellFormed(bs, h, i, n);
    PlacedAddsBlock(bs, h, i, n);
    FreedIsWellFormed(cs, h, j);
    FreedRemovesBlock(cs, h, j);
    assert Live(Freed(cs, h, j)) == Live(bs);
    SameLiveSameList(Freed(cs, h, j), bs, h);
  }

  /** The same for any allocation that kept its promise: freeing the new block finds it and restores the list. */
  lemma RollbackRestores(bs: seq<Block>, cs: seq<Block>, h: nat, n: nat, a: nat)
    requires WellFormed(bs, h) && n > 0 && Allocated(bs, cs, h, n, Some(a))
    ensures Find(cs, a).Some? && Apply(cs, h, Deallocate(a)) == bs
    ensures forall b :: b in cs && b.start == a ==> !b.free
  {
    var block := Block(a, n, false);
    LiveStartsAreTaken(cs, h, block);
    DeallocateRemoves(cs, h, block);
    assert Live(Apply(cs, h, Deallocate(a))) == Live(bs);
    SameLiveSameList(Apply(cs, h, Deallocate(a)), bs, h);
  }

  /** A live block is found at its start, and nothing else is. */
  lemma LiveStartsAreTaken(bs: seq<Block>, h: nat, block: Block)
    requires WellFormed(bs, h) && block in Live(bs)
    ensures Find(bs, block.start).Some? && bs[Find(bs, block.start).value] == block
    ensures forall b :: b in bs && b.start == block.start ==> b == block
  {
    var j :| 0 <= j < |bs| && bs[j] == block;
    forall b | b in bs && b.start == block.start ensures b == block {
      var k :| 0 <= k < |bs| && bs[k] == b;
      StartsAreUnique(bs, 0, h, j, k);
    }
    assert bs[Find(bs, block.start).value] in bs;
  }

  datatype Op = Allocate(units: nat) | Deallocate(start: nat)

  /** Where in the list a live block starts. */
  function Find(bs: seq<Block>, start: nat): (r: Option<nat>)
    ensures r.Some? ==> r.value < |bs| && bs[r.value].start == start
    ensures r.None? ==> forall i :: 0 <= i < |bs| ==> bs[i].start != start
  {
    if bs == [] then None
    else if bs[0].start == start then Some(0)
    else
      match Find(bs[1..], start)
      case None =>
        assert forall i :: 1 <= i < |bs| ==> bs[i] == bs[1..][i - 1];
        None
      case Some(i) => Some(i + 1)
  }

  /** One operation. A request that cannot be met, or a block that is not live, leaves the list alone. */
  function Apply(bs: seq<Block>, h: nat, op: Op): (cs: seq<Block>)
    requires WellFormed(bs, h)
    ensures WellFormed(cs, h)
  {
    match op
    case Allocate(n) =>
      (match Scan(bs, n, |bs|)
       case None => bs
       case Some(i) =>
         if n == 0 then bs else
         PlacedIsWellFormed(bs, h, i, n);
         Placed(bs, i, n))
    case Deallocate(start) =>
      (match Find(bs, start)
       case None => bs
       case Some(i) =>
         if bs[i].free then bs else
         FreedIsWellFormed(bs, h, i);
         Freed(bs, h, i))
  }

  /** An operation of a run keeps the promise of an allocation, or ends the live block that starts there, if any. */
  lemma ApplyMeans(bs: seq<Block>, h: nat, op: Op) returns (r: Option<nat>)
    requires WellFormed(bs, h)
    ensures op.Allocate? && op.units > 0 ==> Allocated(bs, Apply(bs, h, op), h, op.units, r)
    ensures op.Allocate? && op.units == 0 ==> Apply(bs, h, op) == bs
    ensures op.Deallocate? ==>
              forall b :: b in Live(Apply(bs, h, op)) <==> b in Live(bs) && b.start != op.start
  {
    r := None;
    if op.Allocate? {
      if op.units > 0 {
        ScanAllocates(bs, h, op.units);
        var i := Scan(bs, op.units, |bs|);
        if i.Some? { r := Some(Carve(bs[i.value], op.units).start); }
      }
    } else if b :| b in Live(bs) && b.start == op.start {
      DeallocateRemoves(bs, h, b);
      LiveStartsAreTaken(bs, h, b);
    } else if Find(bs, op.start).Some? {
      FreeOrLive(bs, Find(bs, op.start).value);
    }
  }

  function Run(h: nat, ops: seq<Op>): (bs: seq<Block>)
    requires h > 0
    ensures WellFormed(bs, h)
  {
    if ops == [] then [Block(0, h, true)] else Apply(Run(h, ops[..|ops| - 1]), h, ops[|ops| - 1])
  }

  /** After any run the list is a function of the live blocks alone, however they came to be. */
  lemma RunIsCanonical(h: nat, ops: seq<Op>, others: seq<Op>)
    requires h > 0 && Live(Run(h, ops)) == Live(Run(h, others))
    ensures Run(h, ops) == Run(h, others) == ChunksFrom(Live(Run(h, ops)), 0, h)
  {
    Canonical(Run(h, ops), h);
    Canonical(Run(h, others), h);
  }

  /** The deallocations of the given blocks, in the given order. */
  function FreeAll(bs: seq<Block>, h: nat, order: seq<Block>): (cs: seq<Block>)
    requires WellFormed(bs, h)
    ensures WellFormed(cs, h)
    decreases |order|
  {
    if order == [] then bs
    else FreeAll(Apply(bs, h, Deallocate(order[0].start)), h, order[1..])
  }

  lemma DeallocateRemoves(bs: seq<Block>, h: nat, b: Block)
    requires WellFormed(bs, h) && b in Live(bs)
    ensures Live(Apply(bs, h, Deallocate(b.start))) == Live(bs) - {b}
  {
    var j :| 0 <= j < |bs| && bs[j] == b;
    var i := Find(bs, b.start).value;
    StartsAreUnique(bs, 0, h, i, j);
    FreedRemovesBlock(bs, h, i);
  }

  /** Freeing every live block, in any order, gives back the single initial chunk. */
  lemma {:induction false} FreeAllRestores(bs: seq<Block>, h: nat, order: seq<Block>)
    requires WellFormed(bs, h) && h > 0
    requires forall i, j :: 0 <= i < j < |order| ==> order[i] != order[j]
    requires (set b | b in order) == Live(bs)
    ensures FreeAll(bs, h, order) == [Block(0, h, true)]
    decreases |order|
  {
    if order == [] {
      NothingLive(bs, h);
    } else {
      DeallocateRemoves(bs, h, order[0]);
      var rest := order[1..];
      assert (set b | b in rest) == Live(bs) - {order[0]} by {
        forall b | b in Live(bs) && b != order[0] ensures b in rest {
          var k :| 0 <= k < |order| && order[k] == b;
          assert b == rest[k - 1];
        }
      }
      FreeAllRestores(Apply(bs, h, Deallocate(order[0].start)), h, rest);
    }
  }
}
