/** The flat first-fit allocator's block list, as values: the layout
    invariant, the effect of allocateMemory and deallocateMemory
    (MemoryManager.cpp), and what those effects preserve. */
module FlatMemory {

  /** A block [start, end] with an inclusive end; an empty name marks it free. */
  datatype MemoryBlock = MemoryBlock(start: int, end: int, processName: string)

  predicate IsFree(b: MemoryBlock) { b.processName == "" }

  function Size(b: MemoryBlock): int { b.end - b.start + 1 }

  /** A block that allocateMemory may use for a request of `size`. */
  predicate Fits(b: MemoryBlock, size: int) { IsFree(b) && Size(b) >= size }

  // ----- The layout invariant -----

  predicate Contiguous(bs: seq<MemoryBlock>)
  {
    forall i :: 0 <= i < |bs| - 1 ==> bs[i].end + 1 == bs[i + 1].start
  }

  predicate NonEmptyBlocks(bs: seq<MemoryBlock>)
  {
    forall i :: 0 <= i < |bs| ==> bs[i].start <= bs[i].end
  }

  /** No two neighbouring blocks are both free. */
  predicate Coalesced(bs: seq<MemoryBlock>)
  {
    forall i :: 0 <= i < |bs| - 1 ==> !(IsFree(bs[i]) && IsFree(bs[i + 1]))
  }

  predicate Covers(bs: seq<MemoryBlock>, lo: int, hi: int)
  {
    |bs| > 0 && bs[0].start == lo && bs[|bs| - 1].end == hi
  }

  /** The blocks tile [0, maxMemory - 1] in address order, none is empty,
      and free space is always coalesced. */
  predicate Layout(bs: seq<MemoryBlock>, maxMemory: int)
  {
    Covers(bs, 0, maxMemory - 1) && Contiguous(bs) && NonEmptyBlocks(bs) && Coalesced(bs)
  }

  /** The layout the constructor creates: one free block over all memory. */
  function InitialBlocks(maxMemory: int): (bs: seq<MemoryBlock>)
    ensures maxMemory >= 1 ==> Layout(bs, maxMemory)
  {
    [MemoryBlock(0, maxMemory - 1, "")]
  }

  // ----- Searches -----

  /** findFirstFit: the lowest index of a free block of at least `size`
      units, or -1 when there is none. */
  function FirstFit(bs: seq<MemoryBlock>, size: int): (r: int)
    ensures -1 <= r < |bs|
    ensures r >= 0 ==> Fits(bs[r], size) && forall j :: 0 <= j < r ==> !Fits(bs[j], size)
    ensures r == -1 ==> forall j :: 0 <= j < |bs| ==> !Fits(bs[j], size)
    decreases |bs|
  {
    if bs == [] then -1
    else if Fits(bs[0], size) then 0
    else
      var r := FirstFit(bs[1..], size);
      if r == -1 then -1 else r + 1
  }

  /** The index of the first block named `name`, or -1. */
  function OwnerIndex(bs: seq<MemoryBlock>, name: string): (r: int)
    ensures -1 <= r < |bs|
    ensures r >= 0 ==> bs[r].processName == name && forall j :: 0 <= j < r ==> bs[j].processName != name
    ensures r == -1 ==> forall j :: 0 <= j < |bs| ==> bs[j].processName != name
    decreases |bs|
  {
    if bs == [] then -1
    else if bs[0].processName == name then 0
    else
      var r := OwnerIndex(bs[1..], name);
      if r == -1 then -1 else r + 1
  }

  // ----- The two state changes -----

  /** allocateMemory: no fit leaves the list alone; an exact fit renames the
      block; otherwise an owned prefix is split off before the free rest. */
  function Allocated(bs: seq<MemoryBlock>, name: string, size: int): seq<MemoryBlock>
  {
    var i := FirstFit(bs, size);
    if i == -1 then bs
    else
      var b := bs[i];
      if Size(b) == size then bs[i := b.(processName := name)]
      else bs[..i] + [MemoryBlock(b.start, b.start + size - 1, name), b.(start := b.start + size)] + bs[i + 1..]
  }

  /** deallocateMemory: the first block owned by `name` becomes free and is
      merged with a free predecessor and a free successor; an unknown name
      changes nothing. */
  function Deallocated(bs: seq<MemoryBlock>, name: string): seq<MemoryBlock>
  {
    var i := OwnerIndex(bs, name);
    if i == -1 then bs else Released(bs, MergeLo(bs, i), MergeHi(bs, i))
  }

  /** The first block of the merged run: the predecessor if it is free. */
  function MergeLo(bs: seq<MemoryBlock>, i: int): (lo: int)
    requires 0 <= i < |bs|
    ensures i - 1 <= lo <= i
  {
    if i > 0 && IsFree(bs[i - 1]) then i - 1 else i
  }

  /** The last block of the merged run: the successor if it is free. */
  function MergeHi(bs: seq<MemoryBlock>, i: int): (hi: int)
    requires 0 <= i < |bs|
    ensures i <= hi <= i + 1 && hi < |bs|
  {
    if i < |bs| - 1 && IsFree(bs[i + 1]) then i + 1 else i
  }

  /** Blocks lo..hi replaced by one free block spanning them. */
  function Released(bs: seq<MemoryBlock>, lo: int, hi: int): seq<MemoryBlock>
    requires 0 <= lo <= hi < |bs|
  {
    bs[..lo] + [MemoryBlock(bs[lo].start, bs[hi].end, "")] + bs[hi + 1..]
  }

  // ----- Totals -----

  /** calculateExternalFragmentation: the total size of the free blocks. */
  function FreeTotal(bs: seq<MemoryBlock>): int
  {
    if bs == [] then 0
    else FreeTotal(bs[..|bs| - 1]) + (if IsFree(bs[|bs| - 1]) then Size(bs[|bs| - 1]) else 0)
  }

  /** getMemoryUsage("flat"): the total size of the owned blocks. */
  function UsedTotal(bs: seq<MemoryBlock>): int
  {
    if bs == [] then 0
    else UsedTotal(bs[..|bs| - 1]) + (if IsFree(bs[|bs| - 1]) then 0 else Size(bs[|bs| - 1]))
  }

  /** The number of free blocks (getFreeMemory("flat") charges one frame each). */
  function FreeBlockCount(bs: seq<MemoryBlock>): nat
  {
    if bs == [] then 0
    else FreeBlockCount(bs[..|bs| - 1]) + (if IsFree(bs[|bs| - 1]) then 1 else 0)
  }

  /** The number of owned blocks (the "processes in memory" of a report). */
  function OwnedBlockCount(bs: seq<MemoryBlock>): nat
  {
    if bs == [] then 0
    else OwnedBlockCount(bs[..|bs| - 1]) + (if IsFree(bs[|bs| - 1]) then 0 else 1)
  }

  // ----- Lemmas: totals -----

  lemma {:induction false} FreeTotalAppend(a: seq<MemoryBlock>, b: seq<MemoryBlock>)
    ensures FreeTotal(a + b) == FreeTotal(a) + FreeTotal(b)
    decreases |b|
  {
    if b == [] {
      assert a + b == a;
    } else {
      var b' := b[..|b| - 1];
      assert (a + b)[..|a + b| - 1] == a + b';
      FreeTotalAppend(a, b');
    }
  }

  lemma {:induction false} UsedTotalAppend(a: seq<MemoryBlock>, b: seq<MemoryBlock>)
    ensures UsedTotal(a + b) == UsedTotal(a) + UsedTotal(b)
    decreases |b|
  {
    if b == [] {
      assert a + b == a;
    } else {
      var b' := b[..|b| - 1];
      assert (a + b)[..|a + b| - 1] == a + b';
      UsedTotalAppend(a, b');
    }
  }

  /** Free and owned space together are exactly the span the blocks tile:
      under the layout invariant, fragmentation plus flat usage is maxMemory. */
  lemma {:induction false} TotalsCoverSpan(bs: seq<MemoryBlock>, lo: int, hi: int)
    requires Covers(bs, lo, hi) && Contiguous(bs)
    ensures FreeTotal(bs) + UsedTotal(bs) == hi - lo + 1
    decreases |bs|
  {
    if |bs| > 1 {
      var p := bs[..|bs| - 1];
      assert Contiguous(p);
      TotalsCoverSpan(p, lo, p[|p| - 1].end);
    }
  }

  lemma FragmentationPlusUsageIsMaxMemory(bs: seq<MemoryBlock>, maxMemory: int)
    requires Layout(bs, maxMemory)
    ensures FreeTotal(bs) + UsedTotal(bs) == maxMemory
  {
    TotalsCoverSpan(bs, 0, maxMemory - 1);
  }

  // ----- Lemmas: the layout invariant is preserved -----

  lemma ConcatContiguous(a: seq<MemoryBlock>, b: seq<MemoryBlock>)
    requires Contiguous(a) && Contiguous(b)
    requires a != [] && b != [] ==> a[|a| - 1].end + 1 == b[0].start
    ensures Contiguous(a + b)
  {
    var r := a + b;
    forall k | 0 <= k < |r| - 1
      ensures r[k].end + 1 == r[k + 1].start
    {
      if k + 1 < |a| {
        assert r[k] == a[k] && r[k + 1] == a[k + 1];
      } else if k + 1 == |a| {
        assert r[k] == a[k] && r[k + 1] == b[0];
      } else {
        assert r[k] == b[k - |a|] && r[k + 1] == b[k - |a| + 1];
      }
    }
  }

  lemma ConcatCoalesced(a: seq<MemoryBlock>, b: seq<MemoryBlock>)
    requires Coalesced(a) && Coalesced(b)
    requires a != [] && b != [] ==> !(IsFree(a[|a| - 1]) && IsFree(b[0]))
    ensures Coalesced(a + b)
  {
    var r := a + b;
    forall k | 0 <= k < |r| - 1
      ensures !(IsFree(r[k]) && IsFree(r[k + 1]))
    {
      if k + 1 < |a| {
        assert r[k] == a[k] && r[k + 1] == a[k + 1];
      } else if k + 1 == |a| {
        assert r[k] == a[k] && r[k + 1] == b[0];
      } else {
        assert r[k] == b[k - |a|] && r[k + 1] == b[k - |a| + 1];
      }
    }
  }

  lemma ConcatNonEmpty(a: seq<MemoryBlock>, b: seq<MemoryBlock>)
    requires NonEmptyBlocks(a) && NonEmptyBlocks(b)
    ensures NonEmptyBlocks(a + b)
  {
    var r := a + b;
    forall k | 0 <= k < |r|
      ensures r[k].start <= r[k].end
    {
      if k < |a| {
        assert r[k] == a[k];
      } else {
        assert r[k] == b[k - |a|];
      }
    }
  }

  /** Replacing blocks lo..hi by a well-formed run `mid` that spans the same
      addresses, and that does not put two free blocks side by side at its
      borders, keeps the layout invariant. */
  lemma SpliceLayout(bs: seq<MemoryBlock>, maxMemory: int, lo: int, hi: int, mid: seq<MemoryBlock>)
    requires Layout(bs, maxMemory)
    requires 0 <= lo <= hi < |bs| && |mid| >= 1
    requires mid[0].start == bs[lo].start && mid[|mid| - 1].end == bs[hi].end
    requires Contiguous(mid) && NonEmptyBlocks(mid) && Coalesced(mid)
    requires lo > 0 ==> !(IsFree(bs[lo - 1]) && IsFree(mid[0]))
    requires hi < |bs| - 1 ==> !(IsFree(mid[|mid| - 1]) && IsFree(bs[hi + 1]))
    ensures Layout(bs[..lo] + mid + bs[hi + 1..], maxMemory)
  {
    var a, b := bs[..lo], bs[hi + 1..];
    assert lo > 0 ==> a[|a| - 1] == bs[lo - 1];
    assert hi < |bs| - 1 ==> b[0] == bs[hi + 1];
    assert Contiguous(a) && Coalesced(a) && NonEmptyBlocks(a);
    assert Contiguous(b) && Coalesced(b) && NonEmptyBlocks(b);
    assert lo > 0 ==> bs[lo - 1].end + 1 == bs[lo].start;
    assert hi < |bs| - 1 ==> bs[hi].end + 1 == bs[hi + 1].start;
    ConcatContiguous(a, mid);
    ConcatCoalesced(a, mid);
    ConcatNonEmpty(a, mid);
    var am := a + mid;
    assert am[|am| - 1] == mid[|mid| - 1];
    ConcatContiguous(am, b);
    ConcatCoalesced(am, b);
    ConcatNonEmpty(am, b);
    var r := am + b;
    assert r[0] == if lo == 0 then mid[0] else bs[0];
    assert r[|r| - 1] == if hi == |bs| - 1 then mid[|mid| - 1] else bs[|bs| - 1];
  }

  /** The two neighbours of a free block are owned. */
  lemma FreeNeighboursOwned(bs: seq<MemoryBlock>, i: int)
    requires Coalesced(bs) && 0 <= i < |bs| && IsFree(bs[i])
    ensures i > 0 ==> !IsFree(bs[i - 1])
    ensures i < |bs| - 1 ==> !IsFree(bs[i + 1])
  {
  }

  /** The block list allocateMemory leaves when block i is the first fit. */
  function Carve(b: MemoryBlock, name: string, size: int): (mid: seq<MemoryBlock>)
  {
    if Size(b) == size then [b.(processName := name)]
    else [MemoryBlock(b.start, b.start + size - 1, name), b.(start := b.start + size)]
  }

  lemma AllocatedIsSplice(bs: seq<MemoryBlock>, name: string, size: int)
    requires FirstFit(bs, size) != -1
    ensures var i := FirstFit(bs, size);
            Allocated(bs, name, size) == bs[..i] + Carve(bs[i], name, size) + bs[i + 1..]
  {
    var i := FirstFit(bs, size);
    var b := bs[i];
    if Size(b) == size {
      UpdateIsSplice(bs, i, b.(processName := name));
    }
  }

  lemma UpdateIsSplice(bs: seq<MemoryBlock>, i: int, x: MemoryBlock)
    requires 0 <= i < |bs|
    ensures bs[i := x] == bs[..i] + [x] + bs[i + 1..]
  {
    var u, t := bs[i := x], bs[..i] + [x] + bs[i + 1..];
    forall j | 0 <= j < |u|
      ensures u[j] == t[j]
    {
      if j < i {
        assert t[j] == bs[..i][j];
      } else if j > i {
        assert t[j] == bs[i + 1..][j - i - 1];
      }
    }
  }

  /** allocateMemory keeps the layout invariant for a named request of at
      least one unit. */
  lemma AllocatedPreservesLayout(bs: seq<MemoryBlock>, maxMemory: int, name: string, size: int)
    requires Layout(bs, maxMemory)
    requires name != "" && size >= 1
    ensures Layout(Allocated(bs, name, size), maxMemory)
  {
    var i := FirstFit(bs, size);
    if i != -1 {
      FreeNeighboursOwned(bs, i);
      AllocatedIsSplice(bs, name, size);
      CarveWellFormed(bs[i], name, size);
      SpliceLayout(bs, maxMemory, i, i, Carve(bs[i], name, size));
    }
  }

  lemma CarveWellFormed(b: MemoryBlock, name: string, size: int)
    requires Fits(b, size) && b.start <= b.end && name != "" && size >= 1
    ensures var mid := Carve(b, name, size);
            |mid| >= 1 && mid[0].start == b.start && mid[|mid| - 1].end == b.end &&
            NonEmptyBlocks(mid) && Contiguous(mid) && Coalesced(mid) &&
            !IsFree(mid[0]) && (IsFree(mid[|mid| - 1]) ==> |mid| == 2)
  {
  }

  /** Blocks lo..hi of a contiguous list span from bs[lo].start to bs[hi].end. */
  lemma {:induction false} SpanOrdered(bs: seq<MemoryBlock>, lo: int, hi: int)
    requires Contiguous(bs) && NonEmptyBlocks(bs)
    requires 0 <= lo <= hi < |bs|
    ensures bs[lo].start <= bs[hi].end
    decreases hi - lo
  {
    if lo < hi {
      SpanOrdered(bs, lo + 1, hi);
    }
  }

  /** deallocateMemory keeps the layout invariant, whatever the name. */
  lemma DeallocatedPreservesLayout(bs: seq<MemoryBlock>, maxMemory: int, name: string)
    requires Layout(bs, maxMemory)
    ensures Layout(Deallocated(bs, name), maxMemory)
  {
    var i := OwnerIndex(bs, name);
    if i != -1 {
      ReleasedPreservesLayout(bs, maxMemory, i);
    }
  }

  lemma ReleasedPreservesLayout(bs: seq<MemoryBlock>, maxMemory: int, i: int)
    requires Layout(bs, maxMemory) && 0 <= i < |bs|
    ensures Layout(Released(bs, MergeLo(bs, i), MergeHi(bs, i)), maxMemory)
  {
    var lo, hi := MergeLo(bs, i), MergeHi(bs, i);
    SpanOrdered(bs, lo, hi);
    SpliceLayout(bs, maxMemory, lo, hi, [MemoryBlock(bs[lo].start, bs[hi].end, "")]);
  }

  // ----- Lemmas: what the two operations do -----

  /** A successful named allocation moves exactly `size` units from free to
      owned; a failed one moves nothing. */
  lemma AllocatedMovesSize(bs: seq<MemoryBlock>, name: string, size: int)
    requires name != ""
    ensures FirstFit(bs, size) == -1 ==> Allocated(bs, name, size) == bs
    ensures FirstFit(bs, size) != -1 ==>
              FreeTotal(Allocated(bs, name, size)) == FreeTotal(bs) - size &&
              UsedTotal(Allocated(bs, name, size)) == UsedTotal(bs) + size
  {
    var i := FirstFit(bs, size);
    if i != -1 {
      var b := bs[i];
      var a, c := bs[..i], bs[i + 1..];
      assert bs == a + [b] + c;
      FreeTotalAppend(a + [b], c);
      FreeTotalAppend(a, [b]);
      UsedTotalAppend(a + [b], c);
      UsedTotalAppend(a, [b]);
      var mid := Carve(b, name, size);
      AllocatedIsSplice(bs, name, size);
      FreeTotalAppend(a + mid, c);
      FreeTotalAppend(a, mid);
      UsedTotalAppend(a + mid, c);
      UsedTotalAppend(a, mid);
      CarveMovesSize(b, name, size);
    }
  }

  /** Carving a fitting free block moves `size` units from free to owned. */
  lemma CarveMovesSize(b: MemoryBlock, name: string, size: int)
    requires name != "" && Fits(b, size)
    ensures FreeTotal(Carve(b, name, size)) == FreeTotal([b]) - size
    ensures UsedTotal(Carve(b, name, size)) == UsedTotal([b]) + size
  {
    var mid := Carve(b, name, size);
    assert [b][..0] == [];
    if Size(b) != size {
      assert mid[..1] == [mid[0]] && mid[..1][..0] == [];
    } else {
      assert mid[..0] == [];
    }
  }

  /** Freeing a process that was just allocated, and that held nothing
      before, gives back exactly the block list from before the allocation. */
  lemma AllocateThenDeallocateRestores(bs: seq<MemoryBlock>, name: string, size: int)
    requires Coalesced(bs)
    requires name != "" && size >= 1
    requires OwnerIndex(bs, name) == -1
    ensures Deallocated(Allocated(bs, name, size), name) == bs
  {
    var i := FirstFit(bs, size);
    if i != -1 {
      FreeNeighboursOwned(bs, i);
      AllocatedIsSplice(bs, name, size);
      SplitAt(bs, i);
      DeallocateCarved(bs[..i], bs[i], bs[i + 1..], name, size);
    }
  }

  lemma SplitAt(bs: seq<MemoryBlock>, i: int)
    requires 0 <= i < |bs|
    ensures bs == bs[..i] + [bs[i]] + bs[i + 1..]
  {
  }

  /** Freeing the run that allocateMemory carved out of free block b, between
      owned neighbours, merges it back into b. */
  lemma DeallocateCarved(a: seq<MemoryBlock>, b: MemoryBlock, c: seq<MemoryBlock>, name: string, size: int)
    requires forall j :: 0 <= j < |a| ==> a[j].processName != name
    requires |a| > 0 ==> !IsFree(a[|a| - 1])
    requires |c| > 0 ==> !IsFree(c[0])
    requires Fits(b, size) && name != "" && size >= 1
    ensures Deallocated(a + Carve(b, name, size) + c, name) == a + [b] + c
  {
    var mid := Carve(b, name, size);
    var al := a + mid + c;
    FirstOwnerAfter(a, mid + c, name);
    assert al == a + (mid + c);
    CarvedRelease(a, b, c, name, size);
  }

  lemma FirstOwnerAfter(a: seq<MemoryBlock>, rest: seq<MemoryBlock>, name: string)
    requires forall j :: 0 <= j < |a| ==> a[j].processName != name
    requires |rest| > 0 && rest[0].processName == name
    ensures OwnerIndex(a + rest, name) == |a|
  {
    var r := OwnerIndex(a + rest, name);
    assert (a + rest)[|a|] == rest[0];
  }

  lemma CarvedRelease(a: seq<MemoryBlock>, b: MemoryBlock, c: seq<MemoryBlock>, name: string, size: int)
    requires |a| > 0 ==> !IsFree(a[|a| - 1])
    requires |c| > 0 ==> !IsFree(c[0])
    requires Fits(b, size) && name != "" && size >= 1
    ensures var al := a + Carve(b, name, size) + c;
            Released(al, MergeLo(al, |a|), MergeHi(al, |a|)) == a + [b] + c
  {
    var mid := Carve(b, name, size);
    var al := a + mid + c;
    var i := |a|;
    assert i > 0 ==> al[i - 1] == a[i - 1];
    assert MergeLo(al, i) == i;
    if |mid| == 1 {
      assert i < |al| - 1 ==> al[i + 1] == c[0];
      assert al[..i] == a && al[i + 1..] == c;
    } else {
      assert al[i + 1] == mid[1];
      assert al[..i] == a && al[i + 2..] == c;
    }
  }

  /** Freeing the first block of `name` releases exactly that block's size. */
  lemma DeallocatedReleasesBlock(bs: seq<MemoryBlock>, name: string)
    requires Contiguous(bs) && name != ""
    ensures OwnerIndex(bs, name) == -1 ==> Deallocated(bs, name) == bs
    ensures OwnerIndex(bs, name) != -1 ==>
              UsedTotal(Deallocated(bs, name)) == UsedTotal(bs) - Size(bs[OwnerIndex(bs, name)]) &&
              FreeTotal(Deallocated(bs, name)) == FreeTotal(bs) + Size(bs[OwnerIndex(bs, name)])
  {
    var i := OwnerIndex(bs, name);
    if i != -1 {
      ReleasedTotals(bs, i, name);
    }
  }

  lemma ReleasedTotals(bs: seq<MemoryBlock>, i: int, name: string)
    requires Contiguous(bs) && name != "" && 0 <= i < |bs| && bs[i].processName == name
    ensures var r := Released(bs, MergeLo(bs, i), MergeHi(bs, i));
            UsedTotal(r) == UsedTotal(bs) - Size(bs[i]) && FreeTotal(r) == FreeTotal(bs) + Size(bs[i])
  {
    var lo, hi := MergeLo(bs, i), MergeHi(bs, i);
    var a, mid, c := bs[..lo], bs[lo..hi + 1], bs[hi + 1..];
    var m := MemoryBlock(bs[lo].start, bs[hi].end, "");
    assert Released(bs, lo, hi) == a + [m] + c;
    SplitRun(bs, lo, hi);
    RunOthersFree(bs, i);
    SliceContiguous(bs, lo, hi + 1);
    assert mid[0] == bs[lo] && mid[|mid| - 1] == bs[hi] && mid[i - lo] == bs[i];
    RunReplacedTotals(a, mid, c, i - lo, name);
    assert UsedTotal(a + [m] + c) == UsedTotal(bs) - Size(bs[i]);
    assert FreeTotal(a + [m] + c) == FreeTotal(bs) + Size(bs[i]);
  }

  /** Replacing a run whose only owned block is mid[k] by one free block
      over its span moves that block's size from used to free. */
  lemma RunReplacedTotals(a: seq<MemoryBlock>, mid: seq<MemoryBlock>, c: seq<MemoryBlock>, k: int, name: string)
    requires Contiguous(mid) && 1 <= |mid| <= 3 && 0 <= k < |mid| && name != ""
    requires mid[k].processName == name
    requires forall j :: 0 <= j < |mid| && j != k ==> IsFree(mid[j])
    ensures var m := MemoryBlock(mid[0].start, mid[|mid| - 1].end, "");
            UsedTotal(a + [m] + c) == UsedTotal(a + mid + c) - Size(mid[k])
            && FreeTotal(a + [m] + c) == FreeTotal(a + mid + c) + Size(mid[k])
  {
    var m := MemoryBlock(mid[0].start, mid[|mid| - 1].end, "");
    MergedRunTotals(mid, k, name);
    TotalsCoverSpan(mid, mid[0].start, mid[|mid| - 1].end);
    ReplaceRunTotals(a, mid, c, m);
  }

  lemma SplitRun(bs: seq<MemoryBlock>, lo: int, hi: int)
    requires 0 <= lo <= hi < |bs|
    ensures bs == bs[..lo] + bs[lo..hi + 1] + bs[hi + 1..]
  {
  }

  /** In the run deallocateMemory merges, every block but the released one is free. */
  lemma RunOthersFree(bs: seq<MemoryBlock>, i: int)
    requires 0 <= i < |bs|
    ensures var lo, hi := MergeLo(bs, i), MergeHi(bs, i);
            var mid := bs[lo..hi + 1];
            mid[i - lo] == bs[i] &&
            forall j :: 0 <= j < |mid| && j != i - lo ==> IsFree(mid[j])
  {
  }

  lemma SliceContiguous(bs: seq<MemoryBlock>, lo: int, hi: int)
    requires Contiguous(bs) && 0 <= lo <= hi <= |bs|
    ensures Contiguous(bs[lo..hi])
  {
    var s := bs[lo..hi];
    forall k | 0 <= k < |s| - 1
      ensures s[k].end + 1 == s[k + 1].start
    {
      assert s[k] == bs[lo + k] && s[k + 1] == bs[lo + k + 1];
    }
  }

  /** Replacing a run by one free block spanning it moves the run's owned
      space to free space and leaves the rest of the list's totals alone. */
  lemma ReplaceRunTotals(a: seq<MemoryBlock>, mid: seq<MemoryBlock>, c: seq<MemoryBlock>, m: MemoryBlock)
    requires IsFree(m) && FreeTotal(mid) + UsedTotal(mid) == Size(m)
    ensures UsedTotal(a + [m] + c) == UsedTotal(a + mid + c) - UsedTotal(mid)
    ensures FreeTotal(a + [m] + c) == FreeTotal(a + mid + c) + UsedTotal(mid)
  {
    UsedTotalAppend(a + mid, c);
    UsedTotalAppend(a, mid);
    UsedTotalAppend(a + [m], c);
    UsedTotalAppend(a, [m]);
    FreeTotalAppend(a + mid, c);
    FreeTotalAppend(a, mid);
    FreeTotalAppend(a + [m], c);
    FreeTotalAppend(a, [m]);
  }

  /** In the run of one to three blocks that deallocateMemory merges, only
      the released block k is owned. */
  lemma MergedRunTotals(mid: seq<MemoryBlock>, k: int, name: string)
    requires 1 <= |mid| <= 3 && 0 <= k < |mid| && name != ""
    requires mid[k].processName == name
    requires forall j :: 0 <= j < |mid| && j != k ==> IsFree(mid[j])
    ensures UsedTotal(mid) == Size(mid[k])
  {
    var n := |mid|;
    assert [mid[0]][..0] == [];
    if n == 2 {
      assert mid == [mid[0]] + [mid[1]];
      UsedTotalAppend([mid[0]], [mid[1]]);
      assert [mid[1]][..0] == [];
    } else if n == 3 {
      assert mid == [mid[0]] + [mid[1]] + [mid[2]];
      UsedTotalAppend([mid[0]] + [mid[1]], [mid[2]]);
      UsedTotalAppend([mid[0]], [mid[1]]);
      assert [mid[1]][..0] == [];
      assert [mid[2]][..0] == [];
    }
  }

  // ----- The flat free-memory query as written -----

  /** The flat free-memory figure as the source computes it: one frameSize
      per free block, whatever the block's size. */
  function AsWrittenFlatFreeMemory(bs: seq<MemoryBlock>, frameSize: int): (r: int)
    ensures r == frameSize * FreeBlockCount(bs)
  {
    if bs == [] then 0
    else AsWrittenFlatFreeMemory(bs[..|bs| - 1], frameSize) + (if IsFree(bs[|bs| - 1]) then frameSize else 0)
  }

  /** The flat allocator runs only when the whole memory is one frame.
      With 100 units as both memory and frame size, allocating 30 units to
      "p1" in a fresh memory leaves one free block of 70 units: the
      as-written figure is 100, and free plus used then exceeds the memory. */
  lemma AsWrittenFlatFreeMemoryMiscounts()
    ensures var bs := Allocated(InitialBlocks(100), "p1", 30);
      bs == [MemoryBlock(0, 29, "p1"), MemoryBlock(30, 99, "")] && Layout(bs, 100)
      && AsWrittenFlatFreeMemory(bs, 100) == 100 && FreeTotal(bs) == 70 && UsedTotal(bs) == 30
      && AsWrittenFlatFreeMemory(bs, 100) + UsedTotal(bs) != 100
  {
    var bs := [MemoryBlock(0, 29, "p1"), MemoryBlock(30, 99, "")];
    ThirtyOfHundred();
    assert bs[..1] == [bs[0]] && bs[..1][..0] == [];
    assert FreeTotal(bs[..1]) == 0 && UsedTotal(bs[..1]) == 30;
    assert AsWrittenFlatFreeMemory(bs[..1], 100) == 0;
  }

  /** Allocating 30 units to "p1" in a fresh 100-unit memory. */
  lemma ThirtyOfHundred()
    ensures var bs := Allocated(InitialBlocks(100), "p1", 30);
      bs == [MemoryBlock(0, 29, "p1"), MemoryBlock(30, 99, "")] && Layout(bs, 100)
  {
    var init := InitialBlocks(100);
    assert Fits(init[0], 30);
    assert FirstFit(init, 30) == 0;
    assert init[..0] + [MemoryBlock(0, 29, "p1"), init[0].(start := 30)] + init[1..]
        == [MemoryBlock(0, 29, "p1"), MemoryBlock(30, 99, "")];
    AllocatedPreservesLayout(init, 100, "p1", 30);
  }
}
