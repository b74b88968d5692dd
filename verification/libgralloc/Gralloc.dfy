/** gralloc_alloc_buffer and gralloc_free: buffers as clients of the allocator, with their failure paths. */
module Gralloc {
  import opened Options
  import opened Chunks
  import opened ChunkOps
  import opened ChunkLists
  import opened Allocators

  const DEFAULT_HEAP := 0x80_0000  // 8 MiB, when the driver does not tell

  /** Conversion to a signed 32-bit int. */
  function ToInt32(x: nat): (r: int)
    ensures -0x8000_0000 <= r < 0x8000_0000 && (x - r) % 0x1_0000_0000 == 0
  {
    var y := x % 0x1_0000_0000;
    if y < 0x8000_0000 then y else y - 0x1_0000_0000
  }

  /** private_handle_t, as far as the allocation sets it. */
  class PrivateHandle {
    const fd: int
    const size: int
    const usesPmem: bool
    const offset: int
    const mapped: bool  // LOCK_STATE_MAPPED when the handle is made
    const base: int

    constructor (fd: int, size: int, usesPmem: bool, offset: int, mapped: bool, base: int)
      ensures this.fd == fd && this.size == size && this.usesPmem == usesPmem
      ensures this.offset == offset && this.mapped == mapped && this.base == base
    {
      this.fd, this.size, this.usesPmem := fd, size, usesPmem;
      this.offset, this.mapped, this.base := offset, mapped, base;
    }
  }

  datatype Usage = Usage(hwTexture: bool, hw2d: bool)

  /** What the system calls of one operation answer. A negative descriptor or a false flag is a failure. */
  datatype System = System(
    masterFd: int, totalSize: Option<nat>, masterBase: Option<int>,
    ashmemFd: int, fd: int, connects: bool, maps: bool, unmaps: bool, errno: int)
  {
    predicate Possible() {
      errno > 0 && (totalSize.Some? ==> 0 < totalSize.value <= HEAP_MAX)
    }

    /** Is PMEM open once a request has asked for it, the device having been in the given state? */
    predicate Opens(pmemMaster: int) {
      pmemMaster >= 0 || (pmemMaster == -1 && masterFd >= 0 && masterBase.Some?)
    }
  }

  // ---------------------------------------------------------------- whole pages

  /** Every chunk starts at a page boundary and is made of whole pages. */
  predicate WholePages(bs: seq<Block>) {
    forall i :: 0 <= i < |bs| ==> bs[i].start % PAGE == 0 && bs[i].size % PAGE == 0
  }

  /** On whole pages no allocation ever needs padding. */
  lemma NoPadding(bs: seq<Block>, i: nat, n: nat)
    requires WholePages(bs) && i < |bs| && Fits(bs[i], n)
    ensures Extra(bs[i].start) == 0
    ensures Split(bs[i], n) == [Block(bs[i].start, n, false)] + Padding(bs[i].start + n, bs[i].size - n)
  {
  }

  lemma PlacedKeepsPages(bs: seq<Block>, i: nat, n: nat)
    requires WholePages(bs) && i < |bs| && Fits(bs[i], n) && n % PAGE == 0
    ensures WholePages(Placed(bs, i, n))
  {
    NoPadding(bs, i, n);
    var cs := Placed(bs, i, n);
    forall k | 0 <= k < |cs| ensures cs[k].start % PAGE == 0 && cs[k].size % PAGE == 0 {
      var mid := Split(bs[i], n);
      if k < i {
        assert cs[k] == bs[k];
      } else if k < i + |mid| {
        assert cs[k] == mid[k - i];
      } else {
        assert cs[k] == bs[k - |mid| + 1];
      }
    }
  }

  lemma FreedKeepsPages(bs: seq<Block>, h: nat, i: nat)
    requires WellFormed(bs, h) && i < |bs| && WholePages(bs)
    ensures WholePages(Freed(bs, h, i))
  {
    var lo, hi := MergeLo(bs, i), MergeHi(bs, i);
    SpanIsPositive(bs, 0, h, lo, hi);
    var cs, mid := Freed(bs, h, i), Span(bs, lo, hi);
    PageSums(bs[hi - 1].start, bs[hi - 1].size);
    PageDifference(bs[hi - 1].End(), bs[lo].start);
    forall k | 0 <= k < |cs| ensures cs[k].start % PAGE == 0 && cs[k].size % PAGE == 0 {
      if k < lo {
        assert cs[k] == bs[k];
      } else if k == lo {
        assert cs[k] == mid;
      } else {
        assert cs[k] == bs[k - lo - 1 + hi];
      }
    }
  }

  lemma PageSums(a: nat, b: nat)
    requires a % PAGE == 0 && b % PAGE == 0
    ensures (a + b) % PAGE == 0
  {
  }

  lemma PageDifference(a: nat, b: nat)
    requires a % PAGE == 0 && b % PAGE == 0 && b <= a
    ensures (a - b) % PAGE == 0
  {
  }

  // ---------------------------------------------------------------- the device

  /** The part of the heap a PMEM buffer owns. */
  function RangeOf(h: PrivateHandle): Block
    requires GoodPmemHandle(h)
  {
    Block(h.offset / MEMORY_ALIGN, h.size / MEMORY_ALIGN, false)
  }

  predicate GoodPmemHandle(h: PrivateHandle) {
    && h.usesPmem && h.fd >= 0 && h.mapped
    && 0 <= h.offset && h.offset % PAGE_SIZE == 0
    && 0 < h.size && h.size % PAGE_SIZE == 0
  }

  class Device {
    const allocator: BestFitAllocator
    var pmemMaster: int
    var pmemMasterBase: int
    ghost var buffers: set<PrivateHandle>  // the PMEM handles made and not yet freed
    ghost var stuck: set<Block>            // ranges that could not be unmapped when their handle was freed

    ghost function Owned(): set<Block>
      reads this
    {
      set h | h in buffers && GoodPmemHandle(h) :: RangeOf(h)
    }

    ghost predicate Valid()
      reads this, allocator, allocator.list, allocator.list.repr, allocator.list.nodes
    {
      && allocator.Valid()
      && (pmemMaster >= 0 ==> allocator.heapSize != 0)
      && (allocator.heapSize == 0 ==> buffers == {} && stuck == {})
      && WholePages(allocator.View())
      && (forall h :: h in buffers ==> GoodPmemHandle(h))
      && (forall h, k :: h in buffers && k in buffers && h != k ==> RangeOf(h) != RangeOf(k))
      && (forall h :: h in buffers ==> RangeOf(h) !in stuck)
      && Live(allocator.View()) == Owned() + stuck
    }

    constructor ()
      ensures Valid() && buffers == {} && stuck == {} && pmemMaster == -1
      ensures fresh(allocator) && fresh(allocator.list) && allocator.list.repr == {}
    {
      allocator := new BestFitAllocator();
      pmemMaster, pmemMasterBase := -1, 0;
      buffers, stuck := {}, {};
    }

    /** Every buffer owns its own pages of the heap: none is shared with another buffer or with a stuck range. */
    lemma BuffersAreDisjoint(h: PrivateHandle, b: Block)
      requires Valid() && h in buffers
      requires b in stuck || exists k :: k in buffers && k != h && GoodPmemHandle(k) && b == RangeOf(k)
      ensures h.offset % PAGE_SIZE == 0 && h.offset + h.size <= allocator.heapSize
      ensures h.offset + h.size <= MEMORY_ALIGN * b.start || MEMORY_ALIGN * b.End() <= h.offset
    {
      var bs, units, range := allocator.View(), allocator.HeapUnits(), RangeOf(h);
      assert range in Live(bs) && b in Live(bs) && range != b;
      LiveBlocksAreDisjoint(bs, units, range, b);
      PageBytes(h.offset);
      PageBytes(h.size);
      PageBytes(allocator.heapSize);
      assert MEMORY_ALIGN * range.start == h.offset && MEMORY_ALIGN * range.size == h.size;
    }

    /** Nothing is allocated: there is no heap yet, or it is one free chunk. */
    ghost predicate HeapIsFree()
      reads allocator, allocator.list
    {
      allocator.View() == if allocator.heapSize == 0 then [] else [Block(0, allocator.HeapUnits(), true)]
    }

    /** The size of the heap: all that the driver has, or 8 MiB when it does not tell, in whole pages. */
    static function HeapBytes(totalSize: Option<nat>): (bytes: nat)
      ensures bytes % 4096 == 0
      ensures var size := if totalSize.Some? then totalSize.value else 8 * 1024 * 1024; size <= bytes < size + 4096
    {
      RoundUpToPage(if totalSize.Some? then totalSize.value else DEFAULT_HEAP)
    }

    /** Sizes the heap: its total size, or a default when the driver does not tell. */
    method SizeHeap(totalSize: Option<nat>)
      requires Valid() && (totalSize.Some? ==> 0 < totalSize.value <= HEAP_MAX)
      modifies allocator, allocator.list
      ensures Valid() && allocator.heapSize != 0
      ensures fresh(allocator.list.repr - old(allocator.list.repr))
      ensures old(allocator.heapSize) != 0 ==>
                allocator.heapSize == old(allocator.heapSize) && allocator.View() == old(allocator.View())
      ensures old(allocator.heapSize) == 0 ==> HeapIsFree() && allocator.heapSize == HeapBytes(totalSize)
    {
      var size := match totalSize case None => DEFAULT_HEAP case Some(len) => len;
      var r := allocator.SetSize(size);
    }

    /** init_pmem_area_locked. The heap is sized even when the mapping that follows fails. */
    method InitLocked(system: System) returns (err: int)
      requires Valid() && system.Possible()
      modifies this`pmemMaster, this`pmemMasterBase, allocator, allocator.list
      ensures Valid()
      ensures err == if system.masterFd < 0 || system.masterBase.None? then -system.errno else 0
      ensures err == 0 ==> pmemMaster == system.masterFd && Some(pmemMasterBase) == system.masterBase
      ensures fresh(allocator.list.repr - old(allocator.list.repr))
      ensures old(allocator.heapSize) != 0 || system.masterFd < 0 ==>
                allocator.heapSize == old(allocator.heapSize) && allocator.View() == old(allocator.View())
      ensures old(allocator.heapSize) == 0 && system.masterFd >= 0 ==>
                HeapIsFree() && allocator.heapSize == HeapBytes(system.totalSize)
    {
      if system.masterFd < 0 {
        return -system.errno;
      }
      SizeHeap(system.totalSize);
      match system.masterBase {
        case None =>
          pmemMaster, pmemMasterBase := -1, 0;
          return -system.errno;
        case Some(base) =>
          pmemMaster, pmemMasterBase := system.masterFd, base;
          return 0;
      }
    }

    /** init_pmem_area. A failure is remembered, unless its code happens to be the mark for "not tried yet". */
    method InitPmemArea(system: System) returns (err: int)
      requires Valid() && system.Possible()
      modifies this`pmemMaster, this`pmemMasterBase, allocator, allocator.list
      ensures Valid() && err <= 0
      ensures err == if pmemMaster >= 0 then 0 else pmemMaster
      ensures old(pmemMaster) != -1 ==> pmemMaster == old(pmemMaster) && pmemMasterBase == old(pmemMasterBase)
      ensures old(pmemMaster) == -1 ==>
                err == if system.masterFd < 0 || system.masterBase.None? then -system.errno else 0
      ensures old(pmemMaster) == -1 && err == 0 ==>
                pmemMaster == system.masterFd && Some(pmemMasterBase) == system.masterBase
      ensures fresh(allocator.list.repr - old(allocator.list.repr))
      ensures old(allocator.heapSize) != 0 || old(pmemMaster) != -1 || system.masterFd < 0 ==>
                allocator.heapSize == old(allocator.heapSize) && allocator.View() == old(allocator.View())
      ensures old(allocator.heapSize) == 0 && old(pmemMaster) == -1 && system.masterFd >= 0 ==>
                HeapIsFree() && allocator.heapSize == HeapBytes(system.totalSize)
    {
      err := pmemMaster;
      if err == -1 {
        err := InitLocked(system);
        if err != 0 {
          pmemMaster := err;
        }
      } else if err >= 0 {
        err := 0;
      }
    }

    /** Is there a page-aligned run of free units for so many bytes? */
    ghost predicate Room(bs: seq<Block>, size: nat)
      reads allocator
    {
      exists a: nat :: FreeRun(Live(bs), a, size / MEMORY_ALIGN, allocator.HeapUnits())
    }

    /** A heap that is all free has room for any number of pages up to its size. */
    lemma FreshHeapHasRoom(size: nat)
      requires Valid() && allocator.View() == [Block(0, allocator.HeapUnits(), true)] && size % PAGE_SIZE == 0
      ensures Room(allocator.View(), size) <==> size <= allocator.heapSize
    {
      PageBytes(size);
      PageBytes(allocator.heapSize);
      if size <= allocator.heapSize {
        assert FreeRun(Live(allocator.View()), 0, size / MEMORY_ALIGN, allocator.HeapUnits());
      }
    }

    /** Asks the allocator for whole pages. */
    method Reserve(size: nat) returns (offset: int, ghost a: Option<nat>)
      requires Valid() && pmemMaster >= 0
      requires 0 < size <= 0x8000_0000 && size % PAGE_SIZE == 0
      modifies allocator.list, allocator.list.repr
      ensures allocator.Valid() && WholePages(allocator.View())
      ensures fresh(allocator.list.repr - old(allocator.list.repr))
      ensures offset == match a case None => -ENOMEM case Some(u) => MEMORY_ALIGN * u
      ensures a == None ==> allocator.View() == old(allocator.View())
      ensures a.Some? <==> Room(old(allocator.View()), size)
      ensures a.Some? ==>
                Allocated(old(allocator.View()), allocator.View(), allocator.HeapUnits(), size / MEMORY_ALIGN, a)
      ensures a.Some? ==> offset / MEMORY_ALIGN == a.value && offset % MEMORY_ALIGN == 0
    {
      ghost var bs := allocator.View();
      PageUnits(size);
      offset, a := allocator.Allocate(size);
      if a.Some? {
        PagesStay(bs, allocator.View(), size / MEMORY_ALIGN, a.value);
      }
    }

    /** Gives back what was just reserved, the chunk list having been bs. */
    method Unreserve(offset: nat, ghost bs: seq<Block>, ghost n: nat)
      requires allocator.Valid() && allocator.heapSize != 0 && n > 0
      requires WellFormed(bs, allocator.HeapUnits())
      requires Allocated(bs, allocator.View(), allocator.HeapUnits(), n, Some(offset / MEMORY_ALIGN))
      modifies allocator.list, allocator.list.repr
      ensures allocator.Valid() && allocator.list.repr == old(allocator.list.repr)
      ensures allocator.View() == bs
    {
      RollbackRestores(bs, allocator.View(), allocator.HeapUnits(), n, offset / MEMORY_ALIGN);
      var r := allocator.Deallocate(offset);
    }

    /** Opens the device once more, connects it to the master and maps the range. */
    static method Connect(system: System) returns (err: int, fd: int)
      requires system.Possible()
      ensures err == if system.fd < 0 || !system.connects || !system.maps then -system.errno else 0
      ensures fd == if err == 0 then system.fd else -1
    {
      fd := system.fd;
      err := if fd < 0 then fd else 0;
      if err == 0 {
        err := if system.connects then 0 else -1;
      }
      if err == 0 {
        err := if system.maps then 0 else -1;
      }
      if err < 0 {
        err, fd := -system.errno, -1;
      }
    }

    /** Reserves and maps a range of the heap. Whatever fails, the chunk list ends as it was. */
    method AllocPmem(size: nat, system: System) returns (err: int, fd: int, offset: int)
      requires Valid() && pmemMaster >= 0 && system.Possible()
      requires 0 < size <= 0x8000_0000 && size % PAGE_SIZE == 0
      modifies allocator.list, allocator.list.repr
      ensures allocator.Valid() && WholePages(allocator.View()) && err <= 0
      ensures fresh(allocator.list.repr - old(allocator.list.repr))
      ensures err != 0 ==> allocator.View() == old(allocator.View())
      ensures err ==
              if !Room(old(allocator.View()), size) then -ENOMEM
              else if system.fd < 0 || !system.connects || !system.maps then -system.errno
              else 0
      ensures err == 0 ==>
                && fd == system.fd && offset >= 0
                && Allocated(old(allocator.View()), allocator.View(), allocator.HeapUnits(), size / MEMORY_ALIGN,
                             Some(offset / MEMORY_ALIGN))
                && offset % MEMORY_ALIGN == 0
    {
      ghost var bs, a := allocator.View(), None;
      offset, a := Reserve(size);
      if offset < 0 {
        return -ENOMEM, -1, offset;
      }
      assert a == Some(offset / MEMORY_ALIGN);
      err, fd := Connect(system);
      if err < 0 {
        Unreserve(offset, bs, size / MEMORY_ALIGN);
      }
    }

    /** A new handle takes over the range just allocated. */
    method MakePmemHandle(fd: int, size: nat, offset: nat, ghost before: seq<Block>) returns (handle: PrivateHandle)
      requires fd >= 0 && 0 < size < 0x8000_0000 && size % PAGE_SIZE == 0 && offset % PAGE_SIZE == 0
      requires allocator.Valid() && WholePages(allocator.View()) && allocator.heapSize != 0
      requires forall h :: h in buffers ==> GoodPmemHandle(h)
      requires forall h, k :: h in buffers && k in buffers && h != k ==> RangeOf(h) != RangeOf(k)
      requires forall h :: h in buffers ==> RangeOf(h) !in stuck
      requires Live(before) == Owned() + stuck
      requires var block := Block(offset / MEMORY_ALIGN, size / MEMORY_ALIGN, false);
               block !in Live(before) && Live(allocator.View()) == Live(before) + {block}
      modifies this`buffers
      ensures Valid() && buffers == old(buffers) + {handle} && fresh(handle)
      ensures GoodPmemHandle(handle) && handle.fd == fd && handle.size == size && handle.offset == offset
      ensures handle.base == pmemMasterBase + offset
    {
      handle := new PrivateHandle(fd, size, true, offset, true, pmemMasterBase + offset);
      assert forall h :: h in buffers ==> RangeOf(h) in Owned();
      buffers := buffers + {handle};
      assert Owned() == old(Owned()) + {RangeOf(handle)};
    }

    /** The PMEM path, once the heap is there. */
    method AllocPmemBuffer(size: nat, system: System) returns (err: int, handle: PrivateHandle?)
      requires Valid() && pmemMaster >= 0 && system.Possible()
      requires 0 < size <= 0x8000_0000 && size % PAGE_SIZE == 0
      modifies this`buffers, allocator.list, allocator.list.repr
      ensures Valid() && err <= 0 && (err == 0 <==> handle != null)
      ensures fresh(allocator.list.repr - old(allocator.list.repr))
      ensures err != 0 ==> buffers == old(buffers) && allocator.View() == old(allocator.View())
      ensures err == 0 ==> buffers == old(buffers) + {handle} && fresh(handle)
      ensures err == 0 ==> GoodPmemHandle(handle) && handle.size == size < 0x8000_0000
      ensures err == 0 ==> handle.fd == system.fd && handle.base == pmemMasterBase + handle.offset
      ensures err ==
              if !Room(old(allocator.View()), size) then -ENOMEM
              else if system.fd < 0 || !system.connects || !system.maps then -system.errno
              else 0
    {
      ghost var bs := allocator.View();
      var fd, offset;
      err, fd, offset := AllocPmem(size, system);
      if err != 0 {
        return err, null;
      }
      ReservedFits(bs, allocator.View(), allocator.HeapUnits(), size, offset);
      handle := MakePmemHandle(fd, size, offset, bs);
    }

    /** The ashmem path. */
    method AllocAshmem(size: nat, system: System) returns (err: int, handle: PrivateHandle?)
      requires system.Possible()
      ensures err == (if system.ashmemFd < 0 then -system.errno else 0) && (err == 0 <==> handle != null)
      ensures err == 0 ==> fresh(handle) && handle.fd == system.ashmemFd && handle.size == ToInt32(size)
      ensures err == 0 ==> !handle.usesPmem && !handle.mapped && handle.offset == 0 && handle.base == 0
    {
      if system.ashmemFd < 0 {
        return -system.errno, null;
      }
      err := 0;
      handle := new PrivateHandle(system.ashmemFd, ToInt32(size), false, 0, false, 0);
    }

    /** The attempt to get a buffer from PMEM, which the first one opens; usable says whether it is open. */
    method TryPmem(size: nat, system: System) returns (err: int, handle: PrivateHandle?, usable: bool)
      requires Valid() && system.Possible()
      requires 0 < size <= 0x8000_0000 && size % PAGE_SIZE == 0
      modifies this`pmemMaster, this`pmemMasterBase, this`buffers
      modifies allocator, allocator.list, allocator.list.repr
      ensures Valid() && err <= 0 && (err == 0 <==> handle != null)
      ensures usable == system.Opens(old(pmemMaster)) == (pmemMaster >= 0)
      ensures err != 0 ==> buffers == old(buffers)
      ensures err != 0 && old(allocator.heapSize) != 0 ==> allocator.View() == old(allocator.View())
      ensures err != 0 && old(allocator.heapSize) == 0 ==> HeapIsFree()
      ensures err == 0 ==> buffers == old(buffers) + {handle} && fresh(handle) && GoodPmemHandle(handle)
      ensures err == 0 ==>
                handle.size == size && handle.fd == system.fd && handle.base == pmemMasterBase + handle.offset
      ensures !usable ==> err == if old(pmemMaster) == -1 then -system.errno else old(pmemMaster)
      ensures usable ==>
                err ==
                if !(if old(allocator.heapSize) != 0 then Room(old(allocator.View()), size)
                     else size <= HeapBytes(system.totalSize)) then -ENOMEM
                else if system.fd < 0 || !system.connects || !system.maps then -system.errno
                else 0
    {
      err := InitPmemArea(system);
      usable := err == 0;
      if !usable {
        return err, null, false;
      }
      if allocator.View() == [Block(0, allocator.HeapUnits(), true)] { FreshHeapHasRoom(size); }
      err, handle := AllocPmemBuffer(size, system);
    }

    /**
     * gralloc_alloc_buffer. A PMEM buffer gets pages of its own; a failure leaves every buffer, and the chunk
     * list, as it was. Only a request without HW_2D may fall back to ashmem.
     */
    method AllocBuffer(requested: nat, usage: Usage, system: System) returns (err: int, handle: PrivateHandle?)
      requires Valid() && system.Possible() && 0 < requested < 0x8000_0000
      modifies this, allocator, allocator.list, allocator.list.repr
      ensures Valid() && err <= 0 && (err == 0 <==> handle != null)
      ensures stuck == old(stuck)
      ensures old(allocator.heapSize) != 0 && (err != 0 || !handle.usesPmem) ==>
                allocator.View() == old(allocator.View())
      ensures old(allocator.heapSize) == 0 && (err != 0 || !handle.usesPmem) ==> HeapIsFree()
      ensures err != 0 || !handle.usesPmem ==> buffers == old(buffers)
      ensures err == 0 ==> fresh(handle)
      ensures err == 0 && handle.usesPmem ==>
                && handle.size == RoundUpToPage(requested)
                && buffers == old(buffers) + {handle} && GoodPmemHandle(handle)
      ensures err == 0 && !handle.usesPmem ==> handle.size == ToInt32(RoundUpToPage(requested))
      ensures err == 0 && handle.usesPmem ==> handle.fd == system.fd && handle.base == pmemMasterBase + handle.offset
      ensures err == 0 && !handle.usesPmem ==> handle.fd == system.ashmemFd >= 0 && !handle.mapped
      ensures err == 0 && !handle.usesPmem ==> handle.base == 0 && handle.offset == 0
      ensures if usage.hwTexture || usage.hw2d then pmemMaster >= 0 <==> system.Opens(old(pmemMaster))
              else pmemMaster == old(pmemMaster)
      ensures !usage.hwTexture && !usage.hw2d ==> err == if system.ashmemFd < 0 then -system.errno else 0
      ensures usage.hwTexture && !usage.hw2d && !system.Opens(old(pmemMaster)) ==>
                err == if system.ashmemFd < 0 then -system.errno else 0
      ensures usage.hw2d && !system.Opens(old(pmemMaster)) ==>
                err == if old(pmemMaster) == -1 then -system.errno else old(pmemMaster)
      ensures (usage.hwTexture || usage.hw2d) && system.Opens(old(pmemMaster)) ==>
                var size := RoundUpToPage(requested);
                err ==
                if !(if old(allocator.heapSize) != 0 then Room(old(allocator.View()), size)
                     else size <= HeapBytes(system.totalSize)) then -ENOMEM
                else if system.fd < 0 || !system.connects || !system.maps then -system.errno
                else 0
      ensures err == 0 ==>
                (handle.usesPmem <==> (usage.hwTexture || usage.hw2d) && system.Opens(old(pmemMaster)))
    {
      var size := RoundUpToPage(requested);
      var flagged := usage.hwTexture || usage.hw2d;
      err := 0;
      if flagged {
        var usable;
        err, handle, usable := TryPmem(size, system);
        if usable || usage.hw2d {
          return;
        }
      }
      err, handle := AllocAshmem(size, system);
    }

    /**
     * gralloc_free for a handle of gralloc_alloc_buffer. The range of a PMEM buffer is free again, except when
     * it cannot be unmapped: then it stays reserved for good.
     */
    method FreeBuffer(h: PrivateHandle, system: System)
      requires Valid() && (h.usesPmem ==> h in buffers)
      modifies this`buffers, this`stuck, allocator.list, allocator.list.repr
      ensures Valid()
      ensures buffers == old(buffers) - {h}
      ensures !h.usesPmem ==> stuck == old(stuck) && allocator.View() == old(allocator.View())
      ensures h.usesPmem && system.unmaps ==>
                stuck == old(stuck) && Live(allocator.View()) == Live(old(allocator.View())) - {RangeOf(h)}
      ensures h.usesPmem && !system.unmaps ==>
                stuck == old(stuck) + {RangeOf(h)} && allocator.View() == old(allocator.View())
    {
      if h.usesPmem && h.fd >= 0 {
        assert RangeOf(h) in Owned();
        if system.unmaps {
          ReleaseRange(h);
        } else {
          stuck := stuck + {RangeOf(h)};
        }
        buffers := buffers - {h};
        assert Owned() == old(Owned()) - {RangeOf(h)};
      }
    }

    method ReleaseRange(h: PrivateHandle)
      requires allocator.Valid() && allocator.heapSize != 0 && WholePages(allocator.View())
      requires GoodPmemHandle(h) && RangeOf(h) in Live(allocator.View())
      modifies allocator.list, allocator.list.repr
      ensures allocator.Valid() && WholePages(allocator.View())
      ensures Live(allocator.View()) == Live(old(allocator.View())) - {RangeOf(h)}
    {
      ghost var bs, units := allocator.View(), allocator.HeapUnits();
      LiveStartsAreTaken(bs, units, RangeOf(h));
      DeallocateRemoves(bs, units, RangeOf(h));
      FreedKeepsPages(bs, units, Find(bs, RangeOf(h).start).value);
      var r := allocator.Deallocate(h.offset);
    }
  }

  /** A reserved range lies in the heap, so its size fits the handle, and page boundaries become byte offsets. */
  lemma ReservedFits(bs: seq<Block>, cs: seq<Block>, h: nat, size: nat, offset: nat)
    requires size % PAGE_SIZE == 0 && offset % MEMORY_ALIGN == 0
    requires Allocated(bs, cs, h, size / MEMORY_ALIGN, Some(offset / MEMORY_ALIGN))
    ensures offset % PAGE_SIZE == 0 && offset + size <= MEMORY_ALIGN * h
  {
    var p, q := offset / MEMORY_ALIGN / PAGE, size / PAGE_SIZE;
    assert offset == PAGE_SIZE * p && size == PAGE_SIZE * q;
    assert size / MEMORY_ALIGN == PAGE * q;
  }

  lemma PageBytes(x: nat)
    requires x % PAGE_SIZE == 0
    ensures MEMORY_ALIGN * (x / MEMORY_ALIGN) == x
  {
    var p := x / PAGE_SIZE;
    assert x == PAGE_SIZE * p && x / MEMORY_ALIGN == PAGE * p;
  }

  lemma PageUnits(size: nat)
    requires 0 < size <= 0x8000_0000 && size % PAGE_SIZE == 0
    ensures Units(size) == size / MEMORY_ALIGN > 0 && Units(size) % PAGE == 0
    ensures MEMORY_ALIGN * Units(size) == size
  {
    var p := size / PAGE_SIZE;
    assert size == PAGE_SIZE * p && size / MEMORY_ALIGN == PAGE * p;
  }

  lemma PagesStay(bs: seq<Block>, cs: seq<Block>, n: nat, a: nat)
    requires WholePages(bs) && n % PAGE == 0 && InBestChunk(bs, cs, n, a)
    ensures WholePages(cs)
  {
    var i :| 0 <= i < |bs| && Fits(bs[i], n) && Smallest(bs, n, i)
             && bs[i].start <= a < bs[i].start + PAGE && cs == Placed(bs, i, n);
    PlacedKeepsPages(bs, i, n);
  }
}
