/** SimpleBestFitAllocator: best fit, page aligned, on a linked list of chunks. */
module Allocators {
  import opened Options
  import opened Chunks
  import opened ChunkOps
  import opened ChunkLists

  const MEMORY_ALIGN := 32
  const PAGE_SIZE := 4096
  const HEAP_MAX := 0x7FFF_F000  // every offset and every size fits a signed 32-bit integer
  const ENOENT := 2
  const ENOMEM := 12
  const EINVAL := 22

  function RoundUpToPage(size: nat): (r: nat)
    ensures size <= r < size + PAGE_SIZE && r % PAGE_SIZE == 0
  {
    (size + PAGE_SIZE - 1) / PAGE_SIZE * PAGE_SIZE
  }

  /** The request in units, as the code computes it in an unsigned 32-bit type. */
  function Units(size: nat): nat {
    (size + MEMORY_ALIGN - 1) % 0x1_0000_0000 / MEMORY_ALIGN
  }

  /** The units cover the request exactly when rounding it up does not wrap around. */
  lemma UnitsCover(size: nat)
    requires 0 < size < 0x1_0000_0000
    ensures size <= MEMORY_ALIGN * Units(size) <==> size <= 0x1_0000_0000 - MEMORY_ALIGN
    ensures size > 0x1_0000_0000 - MEMORY_ALIGN ==> Units(size) == 0
    ensures size <= 0x1_0000_0000 - MEMORY_ALIGN ==> MEMORY_ALIGN * (Units(size) - 1) < size
  {
  }

  /**
   * An allocation that finds a chunk keeps the chunk list well formed exactly when rounding its request does not wrap
   * around; otherwise it leaves a live block of no units. On a heap that is all free it does find one.
   */
  lemma AllocationKeepsListIff(bs: seq<Block>, h: nat, size: nat)
    requires WellFormed(bs, h) && 0 < size < 0x1_0000_0000 && Scan(bs, Units(size), |bs|).Some?
    ensures var i := Scan(bs, Units(size), |bs|).value;
            && (WellFormed(Placed(bs, i, Units(size)), h) <==> size <= 0x1_0000_0000 - MEMORY_ALIGN)
            && Block(bs[i].start + Extra(bs[i].start), Units(size), false) in Live(Placed(bs, i, Units(size)))
  {
    UnitsCover(size);
    PlacedIsWellFormedIff(bs, h, Scan(bs, Units(size), |bs|).value, Units(size));
  }

  lemma WrappedRequestFindsChunk(h: nat, size: nat)
    requires 0 < h && 0x1_0000_0000 - MEMORY_ALIGN < size < 0x1_0000_0000
    ensures WellFormed([Block(0, h, true)], h) && Scan([Block(0, h, true)], Units(size), 1) == Some(0)
  {
    UnitsCover(size);
  }

  class BestFitAllocator {
    const list: ChunkList
    var heapSize: nat

    /** The chunk list as a value. */
    ghost function View(): seq<Block>
      reads list
    {
      list.view
    }

    ghost predicate Valid()
      reads this, list, list.repr, list.nodes
    {
      && list.Valid()
      && heapSize % PAGE_SIZE == 0 && heapSize <= HEAP_MAX
      && (if heapSize == 0 then list.nodes == [] else WellFormed(View(), heapSize / MEMORY_ALIGN))
    }

    constructor ()
      ensures Valid() && heapSize == 0 && fresh(list) && list.nodes == [] && list.repr == {}
    {
      list := new ChunkList();
      heapSize := 0;
    }

    method SetSize(size: nat) returns (r: int)
      requires Valid() && 0 < size <= HEAP_MAX
      modifies this, list
      ensures Valid()
      ensures fresh(list.repr - old(list.repr))
      ensures old(heapSize) != 0 ==> r == -EINVAL && heapSize == old(heapSize) && View() == old(View())
      ensures old(heapSize) == 0 ==>
                r == size && heapSize == RoundUpToPage(size) && View() == [Block(0, heapSize / MEMORY_ALIGN, true)]
    {
      if heapSize != 0 {
        return -EINVAL;
      }
      heapSize := RoundUpToPage(size);
      var node := new Chunk(0, heapSize / MEMORY_ALIGN);
      list.InsertHead(node);
      return size;
    }

    /** The walk over the list: it may stop at an exact fit, but finds what the whole list would give. */
    method FindBest(n: nat) returns (best: Chunk?, ghost i: nat)
      requires list.Valid()
      ensures best == null <==> Scan(View(), n, |View()|) == None
      ensures best != null ==> Scan(View(), n, |View()|) == Some(i) && i < |list.nodes| && best == list.nodes[i]
    {
      ghost var bs := View();
      var cur := list.first;
      ghost var k := 0;
      best, i := null, 0;
      while cur != null
        invariant k <= |bs| && cur == (if k < |bs| then list.nodes[k] else null)
        invariant best == null ==> Scan(bs, n, k) == None
        invariant best != null ==> Scan(bs, n, k) == Some(i) && best == list.nodes[i] && bs[i].size > n
        decreases |bs| - k
      {
        var extra := Extra(cur.start);
        assert cur.ToBlock() == bs[k];
        if cur.free && cur.size >= n + extra {
          if best == null || cur.size < best.size {
            best, i := cur, k;
          }
          if cur.size == n {
            assert Scan(bs, n, k + 1) == Some(k);
            ExactFitStays(bs, n, k, |bs|);
            return;
          }
        }
        cur, k := cur.next, k + 1;
      }
    }

    /** Inserts a free chunk of the given size before chunk, which has just moved up by as much. */
    method CutFront(chunk: Chunk, start: nat, extra: nat, ghost i: nat)
      requires list.Valid() && i < |list.nodes| && list.nodes[i] == chunk
      modifies list, list.repr
      ensures list.Valid() && fresh(list.repr - old(list.repr))
      ensures i + 1 < |list.nodes| && list.nodes[i + 1] == chunk
      ensures View() == Inserted(old(View()), i, Block(start, extra, true))
    {
      ghost var nodes := list.nodes;
      var split := new Chunk(start, extra);
      list.InsertBefore(chunk, split, i);
      InsertedAt(nodes, i, split, i + 1);
    }

    /** Inserts a free chunk of the given size behind chunk. */
    method CutBack(chunk: Chunk, tailFree: nat, ghost i: nat)
      requires list.Valid() && i < |list.nodes| && list.nodes[i] == chunk
      modifies list, list.repr
      ensures list.Valid() && fresh(list.repr - old(list.repr))
      ensures View() == Inserted(old(View()), i + 1, Block(old(chunk.start) + old(chunk.size), tailFree, true))
      ensures chunk.ToBlock() == old(chunk.ToBlock())
    {
      var split := new Chunk(chunk.start + chunk.size, tailFree);
      list.InsertAfter(chunk, split, i);
    }

    /** Turns the chosen chunk into the block, with the padding before it in a chunk of its own. */
    method Carved(chunk: Chunk, n: nat, ghost i: nat) returns (extra: nat, ghost at: nat)
      requires list.Valid() && i < |list.nodes| && list.nodes[i] == chunk
      requires n > 0 && Fits(View()[i], n)
      modifies list, list.repr
      ensures list.Valid() && fresh(list.repr - old(list.repr))
      ensures View() == Padded(old(View()), i, n) && extra == Extra(old(View())[i].start)
      ensures at == BlockIndex(old(View()), i) && at < |list.nodes| && list.nodes[at] == chunk
    {
      ghost var b := View()[i];
      assert b == chunk.ToBlock();
      var start := chunk.start;
      extra, at := Extra(start), i;
      chunk.free := false;
      chunk.size := n;
      chunk.start := start + extra;
      list.view := list.view[i := chunk.ToBlock()];
      assert chunk.ToBlock() == Carve(b, n);
      if extra != 0 {
        CutFront(chunk, start, extra, i);
        at := i + 1;
      }
    }

    /**
     * Cuts the chosen chunk into padding, block and rest. (A chunk of exactly the requested size has neither
     * padding nor rest, so it needs no case of its own.)
     */
    method Place(chunk: Chunk, n: nat, ghost i: nat)
      requires list.Valid() && i < |list.nodes| && list.nodes[i] == chunk
      requires n > 0 && Fits(View()[i], n)
      modifies list, list.repr
      ensures list.Valid() && fresh(list.repr - old(list.repr))
      ensures View() == Placed(old(View()), i, n)
      ensures chunk.ToBlock() == Carve(old(View())[i], n)
    {
      ghost var bs := View();
      ghost var b, padded := bs[i], Padded(bs, i, n);
      assert b == chunk.ToBlock();
      PlacedByInsertions(bs, i, n);
      var freeSize := chunk.size;
      ghost var at;
      var extra;
      extra, at := Carved(chunk, n, i);
      assert chunk.ToBlock() == padded[at] == Carve(b, n);
      var tailFree := freeSize - (n + extra);
      if tailFree > 0 {
        CutBack(chunk, tailFree, at);
        assert View() == Inserted(padded, at + 1, Block(Carve(b, n).End(), tailFree, true));
      } else {
        assert View() == padded;
      }
    }

    ghost function HeapUnits(): nat
      reads this
    {
      heapSize / MEMORY_ALIGN
    }

    /** The allocation itself, for a request of n units. */
    method AllocUnits(n: nat) returns (r: int, ghost a: Option<nat>)
      requires Valid() && heapSize != 0 && n > 0
      modifies list, list.repr
      ensures Valid() && fresh(list.repr - old(list.repr))
      ensures Allocated(old(View()), View(), HeapUnits(), n, a)
      ensures r == match a case None => -ENOMEM case Some(u) => MEMORY_ALIGN * u
    {
      var best;
      ghost var i;
      ghost var bs := View();
      ScanAllocates(bs, HeapUnits(), n);
      best, i := FindBest(n);
      if best == null {
        return -ENOMEM, None;
      }
      assert best.ToBlock() == bs[i];
      Place(best, n, i);
      return best.start * MEMORY_ALIGN, Some(Carve(bs[i], n).start);
    }

    /**
     * allocate. The offset returned is page aligned and the block there is disjoint from every live one; the
     * allocator is out of memory only when no page-aligned run of free units is long enough.
     */
    method Allocate(size: nat) returns (r: int, ghost a: Option<nat>)
      requires Valid()
      requires size <= 0x1_0000_0000 - MEMORY_ALIGN  // otherwise the rounding wraps around: see UnitsCover
      modifies list, list.repr
      ensures Valid() && fresh(list.repr - old(list.repr))
      ensures heapSize == 0 ==> r == -EINVAL && View() == old(View())
      ensures heapSize != 0 && size == 0 ==> r == 0 && View() == old(View())
      ensures heapSize != 0 && size > 0 ==>
                && Allocated(old(View()), View(), HeapUnits(), Units(size), a)
                && (r == match a case None => -ENOMEM case Some(u) => MEMORY_ALIGN * u)
    {
      a := None;
      if heapSize == 0 {
        return -EINVAL, None;
      }
      if size == 0 {
        return 0, None;
      }
      UnitsCover(size);
      r, a := AllocUnits(Units(size));
    }

    /** One turn of the merging loop: joins cur to a free chunk before it, and moves on. */
    method JoinStep(cur: Chunk, freed: Chunk, ghost j: nat) returns (next: Chunk?, freed': Chunk, ghost j': nat)
      requires list.Valid() && j < |list.nodes| && list.nodes[j] == cur && cur.size > 0
      modifies list, list.repr
      ensures list.Valid() && list.repr == old(list.repr)
      ensures View() == JoinLeft(old(View()), j) && j' == NextIndex(old(View()), j)
      ensures next == if j' < |list.nodes| then list.nodes[j'] else null
    {
      ghost var bs, nodes := View(), list.nodes;
      assert cur.ToBlock() == bs[j];
      assert j > 0 ==> list.nodes[j - 1].ToBlock() == bs[j - 1];
      var p := cur.prev;
      next, freed', j' := cur.next, freed, j + 1;
      if p != null && (p.free || cur.size == 0) {
        freed' := p;
        p.size := p.size + cur.size;
        list.view := list.view[j - 1 := p.ToBlock()];
        list.Remove(cur, j);
        j' := j;
        if j < |list.nodes| { RemovedAt(nodes, j, j); }
        assert View() == Removed(bs[j - 1 := Block(bs[j - 1].start, bs[j - 1].size + bs[j].size, true)], j);
      } else {
        assert View() == bs && !(j > 0 && bs[j - 1].free);
      }
    }

    /** The merging loop, from the chunk just marked free. It takes at most two turns. */
    method MergeLoop(chunk: Chunk, ghost i: nat, ghost bs: seq<Block>, ghost h: nat) returns (freed: Chunk)
      requires list.Valid() && i < |list.nodes| && list.nodes[i] == chunk
      requires WellFormed(bs, h) && |bs| == |View()| && !bs[i].free && View() == Marked(bs, i)
      modifies list, list.repr
      ensures list.Valid() && list.repr == old(list.repr)
      ensures View() == Freed(bs, h, i)
    {
      FreedByJoining(bs, h, i);
      MergeEnds(bs, h, i);
      ghost var once, next := JoinLeft(Marked(bs, i), i), NextIndex(Marked(bs, i), i);
      assert chunk.ToBlock() == View()[i];
      ghost var turns, j: nat := 1, 0;
      var cur: Chunk?;
      cur, freed, j := JoinStep(chunk, chunk, i);
      while cur != null && cur.free
        invariant list.Valid() && list.repr == old(list.repr)
        invariant cur == if j < |list.nodes| then list.nodes[j] else null
        invariant cur != null ==> cur.ToBlock() == View()[j]
        invariant turns == 1 || turns == 2
        invariant turns == 1 ==> View() == once && j == next
        invariant turns == 2 ==> View() == JoinNext(once, next) && (j < |View()| ==> !View()[j].free)
        invariant turns == 2 ==> next < |once| && once[next].free
        decreases 2 - turns
      {
        cur, freed, j := JoinStep(cur, freed, j);
        turns := turns + 1;
        assert cur != null ==> cur.ToBlock() == View()[j];
      }
    }

    /** Marks the chunk free and merges it with its free neighbours, deleting nodes on the way. */
    method Merge(chunk: Chunk, ghost i: nat) returns (freed: Chunk)
      requires Valid() && heapSize != 0
      requires i < |list.nodes| && list.nodes[i] == chunk && !View()[i].free
      modifies list, list.repr
      ensures Valid() && list.repr == old(list.repr)
      ensures Tiles(old(View()), 0, HeapUnits()) && View() == Freed(old(View()), HeapUnits(), i)
    {
      ghost var bs := View();
      assert chunk.ToBlock() == bs[i];
      chunk.free := true;
      list.view := list.view[i := chunk.ToBlock()];
      freed := MergeLoop(chunk, i, bs, HeapUnits());
      FreedIsWellFormed(bs, HeapUnits(), i);
    }

    /**
     * deallocate. The block at the offset, if one starts there, is no longer live. Freeing a chunk that is
     * already free is a fatal error, so callers must not.
     */
    method Deallocate(offset: nat) returns (r: int)
      requires Valid()
      requires forall b :: b in View() && b.start == offset / MEMORY_ALIGN ==> !b.free
      modifies list, list.repr
      ensures Valid() && list.repr == old(list.repr)
      ensures heapSize == 0 ==> r == -EINVAL && View() == old(View())
      ensures heapSize != 0 && Find(old(View()), offset / MEMORY_ALIGN) == None ==>
                r == -ENOENT && View() == old(View())
      ensures heapSize != 0 && Find(old(View()), offset / MEMORY_ALIGN).Some? ==>
                r == 0 && View() == Apply(old(View()), HeapUnits(), Op.Deallocate(offset / MEMORY_ALIGN))
    {
      if heapSize == 0 {
        return -EINVAL;
      }
      var start := offset / MEMORY_ALIGN;
      ghost var bs := View();
      var cur := list.first;
      ghost var k := 0;
      while cur != null
        invariant k <= |bs| && cur == (if k < |bs| then list.nodes[k] else null)
        invariant forall j :: 0 <= j < k ==> bs[j].start != start
        decreases |bs| - k
      {
        assert cur.ToBlock() == bs[k];
        if cur.start == start {
          StartsAreUnique(bs, 0, HeapUnits(), k, Find(bs, start).value);
          var freed := Merge(cur, k);
          return 0;
        }
        cur, k := cur.next, k + 1;
      }
      return -ENOENT;
    }
  }
}
