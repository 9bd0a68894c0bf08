/** The memory manager object (MemoryManager.cpp, headers/MemoryManager.h):
    the flat block list and the paging frame table as fields updated in
    place, each operation proved against the value-level definitions of
    FlatMemory and PagingMemory. */
module Memory {
  import opened Wrappers
  import opened ProcessRecord
  import opened FlatMemory
  import opened PagingMemory

  class MemoryManager {
    const maxMemory: int
    const frameSize: int
    const minMemoryPerProcess: int
    const memPerFrame: int
    /** The number of frames, maxMemory / frameSize in C++ arithmetic. */
    const numFrames: int
    var pagedIns: int
    var pagedOuts: int
    var freeFrameList: seq<int>
    var processFrameMap: map<int, Frame>
    var memoryBlocks: seq<MemoryBlock>

    ghost predicate PagingInvariant()
      reads this
    {
      PagingValid(processFrameMap, freeFrameList, numFrames)
    }

    ghost predicate FlatInvariant()
      reads this
    {
      Layout(memoryBlocks, maxMemory)
    }

    /** One free block over all memory, and frames 1..numFrames all blank
        and listed ascending in the free list. maxMemoryPerProcess is taken
        but not stored, as in the source. */
    constructor (maxMemory: int, frameSize: int, minMemoryPerProcess: int, maxMemoryPerProcess: int, memPerFrame: int)
      requires frameSize != 0
      ensures this.maxMemory == maxMemory && this.frameSize == frameSize
      ensures this.minMemoryPerProcess == minMemoryPerProcess && this.memPerFrame == memPerFrame
      ensures numFrames == TruncDiv(maxMemory, frameSize)
      ensures memoryBlocks == [MemoryBlock(0, maxMemory - 1, "")]
      ensures processFrameMap == InitialFrames(numFrames) && freeFrameList == InitialFreeList(numFrames)
      ensures pagedIns == 0 && pagedOuts == 0
      ensures PagingInvariant()
      ensures maxMemory >= 1 ==> FlatInvariant()
    {
      this.maxMemory := maxMemory;
      this.frameSize := frameSize;
      this.minMemoryPerProcess := minMemoryPerProcess;
      this.memPerFrame := memPerFrame;
      var n := TruncDiv(maxMemory, frameSize);
      numFrames := n;
      pagedIns, pagedOuts := 0, 0;
      memoryBlocks := [MemoryBlock(0, maxMemory - 1, "")];
      var frames, free := BuildFrameTable(n);
      processFrameMap, freeFrameList := frames, free;
      InitialPagingValid(n);
      new;
      assert maxMemory >= 1 ==> memoryBlocks == InitialBlocks(maxMemory);
    }

    // ----- Flat allocator -----

    /** findFirstFit. */
    method FindFirstFit(processSize: int) returns (index: int)
      ensures index == FirstFit(memoryBlocks, processSize)
    {
      index := 0;
      while index < |memoryBlocks|
        invariant 0 <= index <= |memoryBlocks|
        invariant forall j :: 0 <= j < index ==> !Fits(memoryBlocks[j], processSize)
      {
        var b := memoryBlocks[index];
        if b.processName == "" && b.end - b.start + 1 >= processSize {
          return;
        }
        index := index + 1;
      }
      index := -1;
    }

    /** allocateMemory: first fit; the block is renamed on an exact fit,
        otherwise shrunk from the front and the owned part inserted before it. */
    method AllocateMemory(processName: string, processSize: int) returns (ok: bool)
      modifies this`memoryBlocks
      ensures ok == (FirstFit(old(memoryBlocks), processSize) != -1)
      ensures memoryBlocks == Allocated(old(memoryBlocks), processName, processSize)
      ensures old(FlatInvariant()) && processName != "" && processSize >= 1 ==> FlatInvariant()
    {
      ghost var bs := memoryBlocks;
      var index := FindFirstFit(processSize);
      if index == -1 {
        return false;
      }
      var block := memoryBlocks[index];
      if block.end - block.start + 1 == processSize {
        memoryBlocks := memoryBlocks[index := block.(processName := processName)];
      } else {
        var newBlock := MemoryBlock(block.start, block.start + processSize - 1, processName);
        memoryBlocks := memoryBlocks[index := block.(start := block.start + processSize)];
        memoryBlocks := memoryBlocks[..index] + [newBlock] + memoryBlocks[index..];
        InsertedBefore(bs, index, newBlock, block.(start := block.start + processSize));
      }
      if Layout(bs, maxMemory) && processName != "" && processSize >= 1 {
        AllocatedPreservesLayout(bs, maxMemory, processName, processSize);
      }
      return true;
    }

    /** deallocateMemory: the first block owned by the name is freed, then
        merged into a free predecessor (which is erased) and with a free
        successor (which is erased). */
    method DeallocateMemory(processName: string)
      modifies this`memoryBlocks
      ensures memoryBlocks == Deallocated(old(memoryBlocks), processName)
      ensures old(FlatInvariant()) ==> FlatInvariant()
    {
      ghost var bs := memoryBlocks;
      if Layout(bs, maxMemory) {
        DeallocatedPreservesLayout(bs, maxMemory, processName);
      }
      var i := 0;
      while i < |memoryBlocks|
        invariant 0 <= i <= |memoryBlocks| && memoryBlocks == bs
        invariant forall j :: 0 <= j < i ==> bs[j].processName != processName
      {
        if memoryBlocks[i].processName == processName {
          assert OwnerIndex(bs, processName) == i;
          FreeAndMerge(i);
          return;
        }
        i := i + 1;
      }
    }

    /** isProcessInMemory. */
    method IsProcessInMemory(processName: string) returns (found: bool)
      ensures found == (OwnerIndex(memoryBlocks, processName) != -1)
    {
      var i := 0;
      while i < |memoryBlocks|
        invariant 0 <= i <= |memoryBlocks|
        invariant forall j :: 0 <= j < i ==> memoryBlocks[j].processName != processName
      {
        if memoryBlocks[i].processName == processName {
          return true;
        }
        i := i + 1;
      }
      return false;
    }

    /** calculateExternalFragmentation: the free space, summed block by block. */
    method CalculateExternalFragmentation() returns (fragmentation: int)
      ensures fragmentation == FreeTotal(memoryBlocks)
    {
      fragmentation := 0;
      var i := 0;
      while i < |memoryBlocks|
        invariant 0 <= i <= |memoryBlocks|
        invariant fragmentation == FreeTotal(memoryBlocks[..i])
      {
        var block := memoryBlocks[i];
        if block.processName == "" {
          fragmentation := fragmentation + (block.end - block.start + 1);
        }
        assert memoryBlocks[..i + 1][..i] == memoryBlocks[..i];
        i := i + 1;
      }
      assert memoryBlocks[..i] == memoryBlocks;
    }

    /** getMemoryUsage: owned space in flat mode; memPerFrame per owned
        frame otherwise. */
    method GetMemoryUsage(memoryType: string) returns (totalMemory: int)
      ensures memoryType == "flat" ==> totalMemory == UsedTotal(memoryBlocks)
      ensures memoryType != "flat" ==> totalMemory == memPerFrame * OwnedFrameCount(processFrameMap, numFrames)
    {
      totalMemory := 0;
      if memoryType == "flat" {
        var i := 0;
        while i < |memoryBlocks|
          invariant 0 <= i <= |memoryBlocks|
          invariant totalMemory == UsedTotal(memoryBlocks[..i])
        {
          var block := memoryBlocks[i];
          if block.processName != "" {
            totalMemory := totalMemory + (block.end - block.start + 1);
          }
          assert memoryBlocks[..i + 1][..i] == memoryBlocks[..i];
          i := i + 1;
        }
        assert memoryBlocks[..i] == memoryBlocks;
      } else {
        var k := 1;
        while k <= numFrames
          invariant 1 <= k <= (if numFrames < 1 then 1 else numFrames + 1)
          invariant totalMemory == memPerFrame * OwnedFrameCount(processFrameMap, k - 1)
        {
          if k in processFrameMap && processFrameMap[k].processPtr.Some? {
            totalMemory := totalMemory + memPerFrame;
          }
          k := k + 1;
        }
      }
    }

    /** getFreeMemory, with the flat branch corrected to sum the free
        blocks' sizes; frameSize per free frame otherwise. */
    method GetFreeMemory(memoryType: string) returns (freeMemory: int)
      ensures memoryType == "flat" ==> freeMemory == FreeTotal(memoryBlocks)
      ensures memoryType != "flat" ==> freeMemory == frameSize * FreeFrameCount(processFrameMap, numFrames)
    {
      if memoryType == "flat" {
        freeMemory := CalculateExternalFragmentation();
      } else {
        freeMemory := 0;
        var k := 1;
        while k <= numFrames
          invariant 1 <= k <= (if numFrames < 1 then 1 else numFrames + 1)
          invariant freeMemory == frameSize * FreeFrameCount(processFrameMap, k - 1)
        {
          if k in processFrameMap && processFrameMap[k].processPtr.None? {
            freeMemory := freeMemory + frameSize;
          }
          k := k + 1;
        }
      }
    }

    /** The paged figures under the invariant: the free frames the table
        reports are the free list's entries, and with one unit per used
        frame equal to the frame size (as the scheduler builds its manager)
        usage plus free memory is the frame size times the number of
        frames. */
    lemma PagedMemoryAccounted()
      requires PagingInvariant()
      ensures FreeFrameCount(processFrameMap, numFrames) == |freeFrameList|
      ensures memPerFrame == frameSize ==>
        memPerFrame * OwnedFrameCount(processFrameMap, numFrames)
        + frameSize * FreeFrameCount(processFrameMap, numFrames)
        == frameSize * (if numFrames < 0 then 0 else numFrames)
    {
      FreeCountIsFreeListLength(processFrameMap, freeFrameList, numFrames);
      FrameCountsSum(processFrameMap, numFrames);
      assert frameSize * OwnedFrameCount(processFrameMap, numFrames)
             + frameSize * FreeFrameCount(processFrameMap, numFrames)
          == frameSize * (OwnedFrameCount(processFrameMap, numFrames) + FreeFrameCount(processFrameMap, numFrames));
    }

    // ----- Paging allocator -----

    /** findProcessInMap: the frames named `processName`, in key order. */
    method FindProcessInMap(processName: string) returns (pages: seq<int>)
      ensures pages == NamedKeys(processFrameMap, processName, numFrames)
    {
      pages := [];
      var k := 1;
      while k <= numFrames
        invariant 1 <= k <= (if numFrames < 1 then 1 else numFrames + 1)
        invariant pages == NamedKeys(processFrameMap, processName, k - 1)
      {
        if k in processFrameMap && processFrameMap[k].processName == processName {
          pages := pages + [k];
        }
        k := k + 1;
      }
    }

    /** getFramesOccupiedByProcess: how many frames are named `processName`. */
    method GetFramesOccupiedByProcess(processName: string) returns (framesOccupied: int)
      ensures framesOccupied == |NamedKeys(processFrameMap, processName, numFrames)|
    {
      framesOccupied := 0;
      var k := 1;
      while k <= numFrames
        invariant 1 <= k <= (if numFrames < 1 then 1 else numFrames + 1)
        invariant framesOccupied == |NamedKeys(processFrameMap, processName, k - 1)|
      {
        if k in processFrameMap && processFrameMap[k].processName == processName {
          framesOccupied := framesOccupied + 1;
        }
        k := k + 1;
      }
    }

    /** isProcessinPagingMemory: whether the process holds any page. */
    method IsProcessInPagingMemory(process: Process) returns (resident: bool)
      ensures resident <==> |process.pages| > 0
    {
      resident := |process.pages| != 0;
    }

    /** pagingAllocate, with the missing check added: a request for more
        pages than there are free frames is refused. Otherwise the first k
        free frames are popped in order, stamped with the owner, the time
        `now` and the recorded size, and appended to the process's pages. */
    method PagingAllocate(process: Process, processPageReq: int, now: int) returns (ok: bool)
      modifies this`freeFrameList, this`processFrameMap, this`pagedIns, process`pages
      ensures ok == Admits(old(freeFrameList), processPageReq)
      ensures var g := Granted(old(freeFrameList), processPageReq);
              freeFrameList == old(freeFrameList)[|g|..] &&
              processFrameMap == Stamped(old(processFrameMap), g, process, now,
                                         SizeInMem(processPageReq, process.processSize, memPerFrame)) &&
              process.pages == old(process.pages) + g &&
              pagedIns == old(pagedIns) + |g|
      ensures old(PagingInvariant()) ==> PagingInvariant()
    {
      ghost var free0, frames0 := freeFrameList, processFrameMap;
      var processSize := process.processSize;
      ghost var sizeInMem := SizeInMem(processPageReq, processSize, memPerFrame);
      if |freeFrameList| == 0 || processPageReq > |freeFrameList| {
        StampedNone(frames0, process, now, sizeInMem);
        return false;
      }
      if processPageReq == 1 {
        TakeFrontFrame(process, processSize, now);
        assert free0[..1] == [] + [free0[0]];
        StampedSnoc(frames0, [], free0[0], process, now, sizeInMem);
      } else if processPageReq > 1 {
        TakeFrontFrames(process, processPageReq, processSize, now);
      } else {
        StampedNone(frames0, process, now, sizeInMem);
      }
      if PagingValid(frames0, free0, numFrames) {
        StampedPreservesValid(frames0, free0, numFrames, |Granted(free0, processPageReq)|, process, now, sizeInMem);
      }
      return true;
    }

    /** pagingAllocate's loop for a request of `count` pages: each pass
        records the process size less one frame's worth (or the whole size
        when that is negative) and takes the front free frame. */
    method TakeFrontFrames(process: Process, count: int, processSize: int, now: int)
      requires 0 <= count <= |freeFrameList|
      modifies this`freeFrameList, this`processFrameMap, this`pagedIns, process`pages
      ensures freeFrameList == old(freeFrameList)[count..]
      ensures processFrameMap == Stamped(old(processFrameMap), old(freeFrameList)[..count], process, now,
                                         ShareInMem(processSize, memPerFrame))
      ensures process.pages == old(process.pages) + old(freeFrameList)[..count]
      ensures pagedIns == old(pagedIns) + count
    {
      ghost var free0, frames0, pages0 := freeFrameList, processFrameMap, process.pages;
      ghost var share := ShareInMem(processSize, memPerFrame);
      ghost var taken: seq<int> := [];
      StampedNone(frames0, process, now, share);
      var i := 0;
      while i < count
        invariant 0 <= i <= count && taken == free0[..i]
        invariant freeFrameList == free0[i..]
        invariant processFrameMap == Stamped(frames0, taken, process, now, share)
        invariant process.pages == pages0 + taken
        invariant pagedIns == old(pagedIns) + i
      {
        var currSize := processSize - memPerFrame;
        var recorded := if currSize < 0 then processSize else currSize;
        ghost var page := freeFrameList[0];
        TakeFrontFrame(process, recorded, now);
        StampedSnoc(frames0, taken, page, process, now, share);
        SnocPrefix(free0, i);
        taken := taken + [page];
        i := i + 1;
      }
    }

    /** One pass of pagingAllocate's loop: the front free frame is popped
        and handed to the process. */
    method TakeFrontFrame(process: Process, recorded: int, now: int)
      requires freeFrameList != []
      modifies this`freeFrameList, this`processFrameMap, this`pagedIns, process`pages
      ensures var page := old(freeFrameList[0]);
              freeFrameList == old(freeFrameList[1..]) &&
              processFrameMap == old(processFrameMap)[page := Stamp(process, page, now, recorded)] &&
              process.pages == old(process.pages) + [page] &&
              pagedIns == old(pagedIns) + 1
    {
      var page := freeFrameList[0];
      freeFrameList := freeFrameList[1..];
      processFrameMap := processFrameMap[page := Frame(Some(process), process.processName, page, now, recorded)];
      process.pages := process.pages + [page];
      pagedIns := pagedIns + 1;
    }

    /** One pass of pagingDeallocate's loop: the frame is reset, pushed
        onto the free list and dropped from the process's pages. */
    method ReleaseFrame(process: Process, page: int)
      requires page in processFrameMap
      modifies this`freeFrameList, this`processFrameMap, this`pagedOuts, process`pages
      ensures processFrameMap == old(processFrameMap)[page := Clear(old(processFrameMap)[page])]
      ensures freeFrameList == old(freeFrameList) + [page]
      ensures process.pages == RemoveValue(old(process.pages), page)
      ensures pagedOuts == old(pagedOuts) + 1
    {
      processFrameMap := processFrameMap[page := processFrameMap[page].(processName := "", processPage := -1,
                                                                        timestamp := 0, processPtr := None)];
      freeFrameList := freeFrameList + [page];
      process.pages := RemoveValue(process.pages, page);
      pagedOuts := pagedOuts + 1;
    }

    /** pagingDeallocate: every frame named after the process is reset,
        pushed onto the back of the free list and dropped from the
        process's pages; false when there was none. */
    method PagingDeallocate(process: Process) returns (ok: bool)
      modifies this`freeFrameList, this`processFrameMap, this`pagedOuts, process`pages
      ensures var ks := NamedKeys(old(processFrameMap), process.processName, numFrames);
              ok == (ks != []) &&
              processFrameMap == Cleared(old(processFrameMap), ks) &&
              freeFrameList == old(freeFrameList) + ks &&
              process.pages == RemoveAll(old(process.pages), ks) &&
              pagedOuts == old(pagedOuts) + |ks|
      ensures old(PagingInvariant()) && process.processName != "" ==> PagingInvariant()
    {
      ghost var free0, frames0 := freeFrameList, processFrameMap;
      var pages := FindProcessInMap(process.processName);
      if PagingValid(frames0, free0, numFrames) && process.processName != "" {
        ClearedPreservesValid(frames0, free0, numFrames, process.processName);
      }
      if pages == [] {
        assert Cleared(frames0, []) == frames0;
        return false;
      }
      ReleaseFrames(process, pages);
      return true;
    }

    /** pagingDeallocate's loop over the frames found. */
    method ReleaseFrames(process: Process, pages: seq<int>)
      requires forall i :: 0 <= i < |pages| ==> pages[i] in processFrameMap
      modifies this`freeFrameList, this`processFrameMap, this`pagedOuts, process`pages
      ensures processFrameMap == Cleared(old(processFrameMap), pages)
      ensures freeFrameList == old(freeFrameList) + pages
      ensures process.pages == RemoveAll(old(process.pages), pages)
      ensures pagedOuts == old(pagedOuts) + |pages|
    {
      ghost var free0, frames0, pages0 := freeFrameList, processFrameMap, process.pages;
      ghost var done: seq<int> := [];
      assert Cleared(frames0, []) == frames0;
      var idx := 0;
      while idx < |pages|
        invariant 0 <= idx <= |pages| && done == pages[..idx]
        invariant processFrameMap.Keys == frames0.Keys
        invariant processFrameMap == Cleared(frames0, done)
        invariant freeFrameList == free0 + done
        invariant process.pages == RemoveAll(pages0, done)
        invariant pagedOuts == old(pagedOuts) + idx
      {
        var page := pages[idx];
        ClearedSnoc(frames0, done, page);
        ReleaseFrame(process, page);
        assert (done + [page])[..|done|] == done;
        SnocPrefix(pages, idx);
        done := done + [page];
        idx := idx + 1;
      }
      assert pages[..idx] == pages;
    }

    /** getOldestProcessInFrameMap, restricted to owned frames: among frames
        whose owner is not running and whose timestamp is before `now`, the
        owner of one with the smallest timestamp, the first such key on a
        tie; None when there is no such frame. */
    method GetOldestProcessInFrameMap(now: int) returns (oldest: Option<Process>, ghost key: int)
      ensures oldest.None? <==>
                forall j :: 1 <= j <= numFrames && j in processFrameMap ==> !Eligible(processFrameMap[j], now)
      ensures oldest.Some? ==>
                1 <= key <= numFrames && key in processFrameMap &&
                processFrameMap[key].processPtr == oldest && Eligible(processFrameMap[key], now) &&
                (forall j :: 1 <= j <= numFrames && j in processFrameMap && Eligible(processFrameMap[j], now) ==>
                   processFrameMap[key].timestamp <= processFrameMap[j].timestamp) &&
                (forall j :: 1 <= j < key && j in processFrameMap && Eligible(processFrameMap[j], now) ==>
                   processFrameMap[key].timestamp < processFrameMap[j].timestamp)
    {
      var oldestTimestamp := now;
      oldest, key := None, 0;
      var k := 1;
      while k <= numFrames
        invariant 1 <= k <= (if numFrames < 1 then 1 else numFrames + 1)
        invariant oldest.None? ==>
                    oldestTimestamp == now &&
                    forall j :: 1 <= j < k && j in processFrameMap ==> !Eligible(processFrameMap[j], now)
        invariant oldest.Some? ==>
                    1 <= key < k && key in processFrameMap && processFrameMap[key].processPtr == oldest &&
                    Eligible(processFrameMap[key], now) && oldestTimestamp == processFrameMap[key].timestamp &&
                    (forall j :: 1 <= j < k && j in processFrameMap && Eligible(processFrameMap[j], now) ==>
                       oldestTimestamp <= processFrameMap[j].timestamp) &&
                    (forall j :: 1 <= j < key && j in processFrameMap && Eligible(processFrameMap[j], now) ==>
                       oldestTimestamp < processFrameMap[j].timestamp)
      {
        if k in processFrameMap {
          var frame := processFrameMap[k];
          if frame.processPtr.Some? && frame.timestamp < oldestTimestamp && !frame.processPtr.value.isRunning {
            oldestTimestamp := frame.timestamp;
            oldest, key := frame.processPtr, k;
          }
        }
        k := k + 1;
      }
    }

    /** The body of deallocateMemory once block i is found: free it, absorb a
        free predecessor, then a free successor. */
    method FreeAndMerge(i: int)
      requires 0 <= i < |memoryBlocks|
      modifies this`memoryBlocks
      ensures memoryBlocks == Released(old(memoryBlocks), MergeLo(old(memoryBlocks), i), MergeHi(old(memoryBlocks), i))
    {
      ghost var bs := memoryBlocks;
      var j := i;
      memoryBlocks := memoryBlocks[j := memoryBlocks[j].(processName := "")];
      FreedInPlace(bs, i);
      if j != 0 && memoryBlocks[j - 1].processName == "" {
        memoryBlocks := memoryBlocks[j := memoryBlocks[j].(start := memoryBlocks[j - 1].start)];
        memoryBlocks := memoryBlocks[..j - 1] + memoryBlocks[j..];
        j := j - 1;
        MergedWithPrevious(bs, i);
      }
      assert memoryBlocks == Released(bs, j, i) && j == MergeLo(bs, i);
      ReleasedShape(bs, j, i);
      if j != |memoryBlocks| - 1 && memoryBlocks[j + 1].processName == "" {
        memoryBlocks := memoryBlocks[j := memoryBlocks[j].(end := memoryBlocks[j + 1].end)];
        memoryBlocks := memoryBlocks[..j + 1] + memoryBlocks[j + 2..];
        MergedWithNext(bs, j, i);
      }
    }
  }

  /** A frame getOldestProcessInFrameMap may pick: owned, stamped before
      `now`, and its owner not running. */
  predicate Eligible(f: Frame, now: int)
    reads if f.processPtr.Some? then {f.processPtr.value} else {}
  {
    f.processPtr.Some? && f.timestamp < now && !f.processPtr.value.isRunning
  }

  /** The constructor's loop: frame i inserted blank and pushed onto the
      free list, for i = 1..n. */
  method BuildFrameTable(n: int) returns (frames: map<int, Frame>, free: seq<int>)
    ensures frames == InitialFrames(n) && free == InitialFreeList(n)
  {
    frames, free := map[], [];
    var i := 1;
    while i <= n
      invariant 1 <= i <= (if n < 1 then 1 else n + 1)
      invariant frames == InitialFrames(i - 1) && free == InitialFreeList(i - 1)
    {
      frames := frames[i := BlankFrame];
      free := free + [i];
      i := i + 1;
    }
  }

  // ----- The insert and erase steps, as sequence identities -----

  lemma SnocPrefix(s: seq<int>, i: int)
    requires 0 <= i < |s|
    ensures s[..i + 1] == s[..i] + [s[i]]
  {
  }

  lemma InsertedBefore(bs: seq<MemoryBlock>, i: int, nb: MemoryBlock, rest: MemoryBlock)
    requires 0 <= i < |bs|
    ensures var m := bs[i := rest];
            m[..i] + [nb] + m[i..] == bs[..i] + [nb, rest] + bs[i + 1..]
  {
    var m := bs[i := rest];
    assert m[..i] == bs[..i];
    assert m[i..] == [rest] + bs[i + 1..];
  }

  lemma FreedInPlace(bs: seq<MemoryBlock>, o: int)
    requires 0 <= o < |bs|
    ensures bs[o := bs[o].(processName := "")] == Released(bs, o, o)
  {
  }

  lemma MergedWithPrevious(bs: seq<MemoryBlock>, o: int)
    requires 0 < o < |bs|
    ensures var m1 := bs[o := bs[o].(processName := "")];
            var m2 := m1[o := m1[o].(start := m1[o - 1].start)];
            m2[..o - 1] + m2[o..] == Released(bs, o - 1, o)
  {
  }

  lemma ReleasedShape(bs: seq<MemoryBlock>, lo: int, o: int)
    requires 0 <= lo <= o < |bs|
    ensures |Released(bs, lo, o)| == |bs| - (o - lo)
    ensures o + 1 < |bs| ==> Released(bs, lo, o)[lo + 1] == bs[o + 1]
  {
  }

  lemma MergedWithNext(bs: seq<MemoryBlock>, lo: int, o: int)
    requires 0 <= lo <= o && o + 1 < |bs|
    ensures var m := Released(bs, lo, o);
            var m4 := m[lo := m[lo].(end := m[lo + 1].end)];
            m4[..lo + 1] + m4[lo + 2..] == Released(bs, lo, o + 1)
  {
  }
}
