/** The paging allocator's frame table and free-frame list, as values: the
    invariant that ties them together, the effect of pagingAllocate and
    pagingDeallocate (MemoryManager.cpp), and the allocate-then-free round
    trip. The table is keyed 1..n; its iteration order is taken to be
    ascending key order. */
module PagingMemory {
  import opened Wrappers
  import opened ProcessRecord

  /** One frame; an absent owner marks it free (headers/MemoryManager.h). */
  datatype Frame = Frame(processPtr: Option<Process>, processName: string, processPage: int,
                         timestamp: int, processSizeInMem: int)

  /** The frame the constructor inserts for every key. */
  const BlankFrame := Frame(None, "", -1, 0, 0)

  predicate IsFreeFrame(f: Frame) { f.processPtr.None? }

  /** C++ `int` division, which truncates toward zero. */
  function TruncDiv(a: int, b: int): (q: int)
    requires b != 0
    ensures a >= 0 && b > 0 ==> q == a / b
    ensures a <= 0 && b > 0 ==> q <= 0
  {
    var m := (if a < 0 then -a else a) / (if b < 0 then -b else b);
    if (a < 0) != (b < 0) then -m else m
  }

  predicate Ascending(s: seq<int>)
  {
    forall i, j :: 0 <= i < j < |s| ==> s[i] < s[j]
  }

  predicate Distinct(s: seq<int>)
  {
    forall i, j :: 0 <= i < j < |s| ==> s[i] != s[j]
  }

  // ----- Construction -----

  /** The table the constructor builds: keys 1..n, every frame blank. */
  function InitialFrames(n: int): (frames: map<int, Frame>)
    ensures forall k :: k in frames <==> 1 <= k <= n
    ensures forall k :: k in frames ==> frames[k] == BlankFrame
  {
    if n <= 0 then map[] else InitialFrames(n - 1)[n := BlankFrame]
  }

  /** The free list the constructor builds: 1..n in ascending order. */
  function InitialFreeList(n: int): (free: seq<int>)
    ensures |free| == (if n < 0 then 0 else n)
    ensures forall i :: 0 <= i < |free| ==> free[i] == i + 1
  {
    if n <= 0 then [] else InitialFreeList(n - 1) + [n]
  }

  // ----- The invariant -----

  ghost predicate KeysAre(frames: map<int, Frame>, n: int)
  {
    forall k :: k in frames <==> 1 <= k <= n
  }

  /** The free list holds each free frame exactly once and nothing else. */
  predicate FreeListExact(frames: map<int, Frame>, free: seq<int>)
  {
    Distinct(free) &&
    (forall i :: 0 <= i < |free| ==> free[i] in frames) &&
    (forall k :: k in frames ==> (IsFreeFrame(frames[k]) <==> k in free))
  }

  /** A free frame carries no name, no page and no timestamp. */
  predicate FreeFramesBlank(frames: map<int, Frame>)
  {
    forall k :: k in frames && IsFreeFrame(frames[k]) ==>
      frames[k].processName == "" && frames[k].processPage == -1 && frames[k].timestamp == 0
  }

  /** An owned frame carries its owner's name. */
  predicate OwnedFramesNamed(frames: map<int, Frame>)
  {
    forall k :: k in frames && !IsFreeFrame(frames[k]) ==>
      frames[k].processName == frames[k].processPtr.value.processName
  }

  /** Every frame is either in the free list exactly once and blank, or owned
      and named after its owner. */
  ghost predicate PagingValid(frames: map<int, Frame>, free: seq<int>, n: int)
  {
    KeysAre(frames, n) && FreeListExact(frames, free) && FreeFramesBlank(frames) && OwnedFramesNamed(frames)
  }

  lemma InitialPagingValid(n: int)
    ensures PagingValid(InitialFrames(n), InitialFreeList(n), n)
  {
    var frames, free := InitialFrames(n), InitialFreeList(n);
    forall k | k in frames
      ensures k in free
    {
      assert free[k - 1] == k;
    }
  }

  // ----- pagingAllocate -----

  /** The guard as corrected: the request is refused when no frame is free
      or when fewer frames are free than pages are requested. */
  predicate Admits(free: seq<int>, k: int)
  {
    free != [] && k <= |free|
  }

  /** The frames a request of k pages is granted: the first k of the free
      list when admitted (none for k <= 0), none otherwise. */
  function Granted(free: seq<int>, k: int): (g: seq<int>)
    ensures |g| <= |free| && g == free[..|g|]
    ensures Admits(free, k) && k >= 0 ==> |g| == k
    ensures !Admits(free, k) || k <= 0 ==> g == []
  {
    if Admits(free, k) && k > 0 then free[..k] else []
  }

  /** The size recorded in each granted frame: the whole process for a
      one-page request; otherwise the process size less one frame's worth,
      or the whole size when that would be negative. */
  function SizeInMem(k: int, processSize: int, memPerFrame: int): (s: int)
    ensures k == 1 ==> s == processSize
    ensures s == processSize || s == processSize - memPerFrame
    ensures s >= 0 <== processSize >= 0
  {
    if k == 1 then processSize else ShareInMem(processSize, memPerFrame)
  }

  /** The size each frame of a multi-page request records. */
  function ShareInMem(processSize: int, memPerFrame: int): int
  {
    if processSize - memPerFrame < 0 then processSize else processSize - memPerFrame
  }

  function Stamp(owner: Process, key: int, now: int, sizeInMem: int): Frame
  {
    Frame(Some(owner), owner.processName, key, now, sizeInMem)
  }

  /** Every frame in `keys` handed to `owner`; the others unchanged. A key
      not yet in the table is added, as std::unordered_map's operator[]
      does. */
  function Stamped(frames: map<int, Frame>, keys: seq<int>, owner: Process, now: int, sizeInMem: int): (r: map<int, Frame>)
    ensures r.Keys == frames.Keys + Members(keys)
  {
    map k | k in frames.Keys + Members(keys) :: if k in keys then Stamp(owner, k, now, sizeInMem) else frames[k]
  }

  lemma StampedNone(frames: map<int, Frame>, owner: Process, now: int, sizeInMem: int)
    ensures Stamped(frames, [], owner, now, sizeInMem) == frames
  {
  }

  lemma StampedSnoc(frames: map<int, Frame>, keys: seq<int>, x: int, owner: Process, now: int, sizeInMem: int)
    ensures Stamped(frames, keys + [x], owner, now, sizeInMem)
         == Stamped(frames, keys, owner, now, sizeInMem)[x := Stamp(owner, x, now, sizeInMem)]
  {
  }

  /** pagingAllocate keeps the invariant, whoever the owner. */
  lemma StampedPreservesValid(frames: map<int, Frame>, free: seq<int>, n: int, k: int,
                              owner: Process, now: int, sizeInMem: int)
    requires PagingValid(frames, free, n) && 0 <= k <= |free|
    ensures PagingValid(Stamped(frames, free[..k], owner, now, sizeInMem), free[k..], n)
  {
    var f := Stamped(frames, free[..k], owner, now, sizeInMem);
    var rest := free[k..];
    assert free == free[..k] + rest;
    forall key | key in f
      ensures IsFreeFrame(f[key]) <==> key in rest
    {
      if key in free[..k] {
        var i :| 0 <= i < k && free[i] == key;
      }
    }
  }

  // ----- pagingDeallocate -----

  /** findProcessInMap: the keys among 1..n of the frames named `name`, in
      ascending order. */
  function NamedKeys(frames: map<int, Frame>, name: string, n: int): (ks: seq<int>)
    ensures forall i :: 0 <= i < |ks| ==> 1 <= ks[i] <= n && ks[i] in frames && frames[ks[i]].processName == name
    decreases n
  {
    if n <= 0 then []
    else NamedKeys(frames, name, n - 1) + (if n in frames && frames[n].processName == name then [n] else [])
  }

  /** Every frame among 1..n named `name` is listed. */
  lemma {:induction false} NamedKeysComplete(frames: map<int, Frame>, name: string, n: int)
    ensures forall k :: 1 <= k <= n && k in frames && frames[k].processName == name ==> k in NamedKeys(frames, name, n)
    decreases n
  {
    if n > 0 {
      NamedKeysComplete(frames, name, n - 1);
    }
  }

  /** The keys are listed in strictly ascending order, so each once. */
  lemma {:induction false} NamedKeysAscending(frames: map<int, Frame>, name: string, n: int)
    ensures Ascending(NamedKeys(frames, name, n))
    decreases n
  {
    if n > 0 {
      NamedKeysAscending(frames, name, n - 1);
      var p := NamedKeys(frames, name, n - 1);
      var ks := NamedKeys(frames, name, n);
      forall i, j | 0 <= i < j < |ks|
        ensures ks[i] < ks[j]
      {
        assert ks[i] == p[i];
        if j < |p| {
          assert ks[j] == p[j];
        } else {
          assert ks[j] == n;
        }
      }
    }
  }

  /** A frame released: owner, name, page and timestamp reset, the recorded
      size kept. */
  function Clear(f: Frame): Frame
  {
    f.(processPtr := None, processName := "", processPage := -1, timestamp := 0)
  }

  function Cleared(frames: map<int, Frame>, keys: seq<int>): (r: map<int, Frame>)
    ensures r.Keys == frames.Keys
  {
    map k | k in frames :: if k in keys then Clear(frames[k]) else frames[k]
  }

  lemma ClearedSnoc(frames: map<int, Frame>, keys: seq<int>, x: int)
    requires x in frames
    ensures Cleared(frames, keys + [x]) == Cleared(frames, keys)[x := Clear(Cleared(frames, keys)[x])]
  {
  }

  /** pagingDeallocate keeps the invariant for any non-empty name (the empty
      name matches every free frame as well). */
  lemma ClearedPreservesValid(frames: map<int, Frame>, free: seq<int>, n: int, name: string)
    requires PagingValid(frames, free, n) && name != ""
    ensures var ks := NamedKeys(frames, name, n);
            PagingValid(Cleared(frames, ks), free + ks, n)
  {
    var ks := NamedKeys(frames, name, n);
    var f, fr := Cleared(frames, ks), free + ks;
    NamedKeysAscending(frames, name, n);
    forall i, j | 0 <= i < j < |fr|
      ensures fr[i] != fr[j]
    {
      if i < |free| && j >= |free| {
        assert fr[j] == ks[j - |free|];
        assert !IsFreeFrame(frames[fr[j]]);
      }
    }
    forall key | key in f
      ensures IsFreeFrame(f[key]) <==> key in fr
    {
      if key in ks {
        var i :| 0 <= i < |ks| && ks[i] == key;
        assert fr[|free| + i] == key;
      }
    }
  }

  /** std::remove followed by erase: every occurrence of x dropped, the
      rest kept in order. */
  function RemoveValue(s: seq<int>, x: int): (r: seq<int>)
    ensures forall y :: y in r <==> y in s && y != x
    ensures |r| <= |s|
    decreases |s|
  {
    if s == [] then []
    else (if s[0] == x then [] else [s[0]]) + RemoveValue(s[1..], x)
  }

  /** The page list after `keys` are removed one after another. */
  function RemoveAll(s: seq<int>, keys: seq<int>): seq<int>
    decreases |keys|
  {
    if keys == [] then s else RemoveValue(RemoveAll(s, keys[..|keys| - 1]), keys[|keys| - 1])
  }

  lemma {:induction false} RemoveAllMembers(s: seq<int>, keys: seq<int>)
    ensures forall y :: y in RemoveAll(s, keys) <==> y in s && y !in keys
    decreases |keys|
  {
    if keys != [] {
      var keys' := keys[..|keys| - 1];
      RemoveAllMembers(s, keys');
      assert keys == keys' + [keys[|keys| - 1]];
    }
  }

  // ----- The round trip -----

  /** The owned frames named `name`: none, before the first allocation. */
  predicate Unnamed(frames: map<int, Frame>, name: string)
  {
    forall k :: k in frames ==> frames[k].processName != name
  }

  /** A process that owned no frame, granted the first k free frames and
      then released, hands back exactly those k frames: the free list has
      the same members as before, and no frame is named after the process. */
  lemma AllocateThenDeallocateRestoresFree(frames: map<int, Frame>, free: seq<int>, n: int, k: int,
                                           owner: Process, now: int, sizeInMem: int)
    requires PagingValid(frames, free, n) && owner.processName != ""
    requires Unnamed(frames, owner.processName) && 0 <= k <= |free|
    ensures var f1 := Stamped(frames, free[..k], owner, now, sizeInMem);
            var ks := NamedKeys(f1, owner.processName, n);
            Members(free[k..] + ks) == Members(free) && |ks| == k &&
            Unnamed(Cleared(f1, ks), owner.processName)
  {
    var name := owner.processName;
    var f1 := Stamped(frames, free[..k], owner, now, sizeInMem);
    var ks := NamedKeys(f1, name, n);
    GrantedAreNamed(frames, free, n, k, owner, now, sizeInMem);
    ClearedUnnamed(f1, name, n);
    DistinctPrefix(free, k);
    SameMembersSameLength(ks, free[..k]);
    MembersRequeued(free, k, ks);
  }

  /** Releasing every frame named `name` leaves none named so. */
  lemma ClearedUnnamed(frames: map<int, Frame>, name: string, n: int)
    requires KeysAre(frames, n) && name != ""
    ensures Unnamed(Cleared(frames, NamedKeys(frames, name, n)), name)
  {
    NamedKeysComplete(frames, name, n);
  }

  lemma SameMembersSameLength(a: seq<int>, b: seq<int>)
    requires Distinct(a) && Distinct(b) && Members(a) == Members(b)
    ensures |a| == |b|
  {
    DistinctCard(a);
    DistinctCard(b);
  }

  /** Moving the first k entries to the back, in any order, keeps the members. */
  lemma MembersRequeued(free: seq<int>, k: int, ks: seq<int>)
    requires 0 <= k <= |free| && Members(ks) == Members(free[..k])
    ensures Members(free[k..] + ks) == Members(free)
  {
    assert free == free[..k] + free[k..];
    assert Members(free[k..] + ks) == Members(free[k..]) + Members(ks);
    assert Members(free) == Members(free[..k]) + Members(free[k..]);
  }

  /** After the grant, the frames named after the owner are exactly those granted. */
  lemma GrantedAreNamed(frames: map<int, Frame>, free: seq<int>, n: int, k: int,
                        owner: Process, now: int, sizeInMem: int)
    requires PagingValid(frames, free, n) && Unnamed(frames, owner.processName) && 0 <= k <= |free|
    ensures var ks := NamedKeys(Stamped(frames, free[..k], owner, now, sizeInMem), owner.processName, n);
            Members(ks) == Members(free[..k]) && Distinct(ks)
  {
    var f1 := Stamped(frames, free[..k], owner, now, sizeInMem);
    var ks := NamedKeys(f1, owner.processName, n);
    NamedKeysComplete(f1, owner.processName, n);
    NamedKeysAscending(f1, owner.processName, n);
  }

  lemma DistinctPrefix(s: seq<int>, k: int)
    requires Distinct(s) && 0 <= k <= |s|
    ensures Distinct(s[..k])
  {
  }

  function Members(s: seq<int>): set<int>
  {
    set x | x in s
  }

  /** A duplicate-free sequence has as many members as elements. */
  lemma {:induction false} DistinctCard(s: seq<int>)
    requires Distinct(s)
    ensures |Members(s)| == |s|
    decreases |s|
  {
    if s != [] {
      var s' := s[..|s| - 1];
      var x := s[|s| - 1];
      assert Distinct(s') by {
        forall i, j | 0 <= i < j < |s'|
          ensures s'[i] != s'[j]
        {
          assert s'[i] == s[i] && s'[j] == s[j];
        }
      }
      DistinctCard(s');
      assert s == s' + [x];
      assert Members(s) == Members(s') + {x};
      assert x !in Members(s');
    }
  }

  // ----- Counts over the table -----

  /** The number of owned frames among keys 1..n. */
  function OwnedFrameCount(frames: map<int, Frame>, n: int): nat
    decreases n
  {
    if n <= 0 then 0
    else OwnedFrameCount(frames, n - 1) + (if n in frames && !IsFreeFrame(frames[n]) then 1 else 0)
  }

  /** The number of free frames among keys 1..n. */
  function FreeFrameCount(frames: map<int, Frame>, n: int): nat
    decreases n
  {
    if n <= 0 then 0
    else FreeFrameCount(frames, n - 1) + (if n in frames && IsFreeFrame(frames[n]) then 1 else 0)
  }

  /** Over a table keyed 1..n, owned and free frames together number n. */
  lemma {:induction false} FrameCountsSum(frames: map<int, Frame>, n: int)
    requires KeysAre(frames, n)
    ensures OwnedFrameCount(frames, n) + FreeFrameCount(frames, n) == (if n < 0 then 0 else n)
  {
    FrameCountsUpTo(frames, n, n);
  }

  lemma {:induction false} FrameCountsUpTo(frames: map<int, Frame>, n: int, m: int)
    requires KeysAre(frames, n) && m <= n
    ensures OwnedFrameCount(frames, m) + FreeFrameCount(frames, m) == (if m < 0 then 0 else m)
    decreases m
  {
    if m > 0 {
      FrameCountsUpTo(frames, n, m - 1);
    }
  }

  /** The free keys among 1..m. */
  function FreeKeys(frames: map<int, Frame>, m: int): set<int>
  {
    set k | k in frames && 1 <= k <= m && IsFreeFrame(frames[k])
  }

  lemma {:induction false} FreeKeysCount(frames: map<int, Frame>, m: int)
    ensures |FreeKeys(frames, m)| == FreeFrameCount(frames, m)
    decreases m
  {
    if m <= 0 {
      assert FreeKeys(frames, m) == {};
    } else {
      FreeKeysCount(frames, m - 1);
      if m in frames && IsFreeFrame(frames[m]) {
        assert FreeKeys(frames, m) == FreeKeys(frames, m - 1) + {m};
      } else {
        assert FreeKeys(frames, m) == FreeKeys(frames, m - 1);
      }
    }
  }

  /** Under the invariant the table's free frames are exactly as many as the
      free list's entries, so the free memory the table reports is the free
      list's length in frames. */
  lemma FreeCountIsFreeListLength(frames: map<int, Frame>, free: seq<int>, n: int)
    requires PagingValid(frames, free, n)
    ensures FreeFrameCount(frames, n) == |free|
  {
    FreeKeysCount(frames, n);
    DistinctCard(free);
    assert FreeKeys(frames, n) == Members(free);
  }

  // ----- The allocation guard as written -----

  /** The guard the source applies before granting frames: only an empty
      free list is refused, whatever the number of pages requested. */
  predicate AsWrittenAdmits(free: seq<int>, k: int)
  {
    free != []
  }

  /** The as-written guard lets through every request for more frames than
      are free, which the corrected guard refuses; the grant loop then reads
      the front of the free list once it is empty. */
  lemma AsWrittenAdmitsOverdraw(free: seq<int>, k: int)
    requires free != [] && k > |free|
    ensures AsWrittenAdmits(free, k) && !Admits(free, k)
    ensures |free[1..]| < k - 1
  {
  }

  /** The smallest instance: one free frame, two pages requested. */
  lemma AsWrittenAdmitsTwoOfOne()
    ensures AsWrittenAdmits([1], 2) && !Admits([1], 2)
  {
    AsWrittenAdmitsOverdraw([1], 2);
  }

}
