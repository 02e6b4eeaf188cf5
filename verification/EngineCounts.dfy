// Conservation: chunks, bytes and pages are counted exactly, in the middle of a page move too.
module EngineCounts {
  import opened Memory
  import opened Linkage
  import opened SlabSpec
  import opened Engine
  import opened EngineInv
  import opened SlabProofs
  import opened EditProofs
  import opened WorkerProofs
  import opened MoverProofs
  import opened FinishProofs
  import opened EngineTheorems

  // ---- chunks ----

  predicate OfClass(sl: Slabs, c: nat, p: Ptr) { p in sl.mem && OwnerIn(sl.owner, p) == c }

  ghost function ChunksOf(sl: Slabs, c: nat): set<Ptr> { set p | p in sl.mem && OfClass(sl, c, p) }

  ghost function FreeChunks(sl: Slabs, c: nat): set<Ptr> {
    set p | p in sl.mem && OfClass(sl, c, p) && sl.mem[p].flags == SLABBED
  }

  ghost function WipedChunks(sl: Slabs, c: nat): set<Ptr> {
    set p | p in sl.mem && OfClass(sl, c, p) && sl.mem[p].flags == CLEARED
  }

  ghost function HandedOut(sl: Slabs, c: nat): set<Ptr> {
    set p | p in sl.mem && OfClass(sl, c, p) && !sl.mem[p].flags.slabbed
  }

  ghost function PageSet(page: nat, n: nat): set<Ptr> { set k: nat | k < n :: Chunk(page, k) }

  lemma {:induction false} PageSetSize(page: nat, n: nat)
    ensures |PageSet(page, n)| == n
  {
    if n > 0 {
      PageSetSize(page, n - 1);
      assert PageSet(page, n) == PageSet(page, n - 1) + {Chunk(page, n - 1)};
    }
  }

  ghost function PagesSet(pages: seq<nat>, n: nat): set<Ptr> {
    set i, k: nat | 0 <= i < |pages| && k < n :: Chunk(pages[i], k)
  }

  lemma PagesSetSplit(pages: seq<nat>, n: nat)
    requires NoDup(pages) && pages != []
    ensures var last := |pages| - 1;
      && PagesSet(pages, n) == PagesSet(pages[..last], n) + PageSet(pages[last], n)
      && PagesSet(pages[..last], n) !! PageSet(pages[last], n)
  {
    var last := |pages| - 1;
    var front := pages[..last];
    forall p | p in PagesSet(pages, n) ensures p in PagesSet(front, n) + PageSet(pages[last], n) {
      var i, k: nat :| 0 <= i < |pages| && k < n && p == Chunk(pages[i], k);
      if i < last { assert front[i] == pages[i]; }
    }
    forall p | p in PagesSet(front, n) ensures p in PagesSet(pages, n) && p !in PageSet(pages[last], n) {
      var i, k: nat :| 0 <= i < |front| && k < n && p == Chunk(front[i], k);
      assert front[i] == pages[i] && pages[i] != pages[last];
    }
    assert forall k: nat :: k < n ==> Chunk(pages[last], k) in PagesSet(pages, n);
  }

  lemma OneMore(a: nat, n: nat)
    ensures (a + 1) * n == a * n + n
  {
  }

  lemma {:induction false} PagesSetSize(pages: seq<nat>, n: nat)
    requires NoDup(pages)
    ensures |PagesSet(pages, n)| == |pages| * n
  {
    hide PagesSet, PageSet;
    if pages == [] {
      NoPages(n);
    } else {
      var last := |pages| - 1;
      PagesSetSize(pages[..last], n);
      PageSetSize(pages[last], n);
      PagesSetSplit(pages, n);
      OneMore(last, n);
    }
  }

  lemma NoPages(n: nat)
    ensures PagesSet([], n) == {}
  {
  }

  lemma ChunksArePages(sl: Slabs, c: nat)
    requires SlabsOk(sl) && ValidClass(sl, c)
    ensures ChunksOf(sl, c) == PagesSet(sl.pages[c], sl.perslab[c])
  {
    hide FreeOk, SlabbedOk;
    forall p | p in ChunksOf(sl, c) ensures p in PagesSet(sl.pages[c], sl.perslab[c]) {
      assert p.page in sl.pages[c];
      var i :| 0 <= i < |sl.pages[c]| && sl.pages[c][i] == p.page;
      assert p == Chunk(sl.pages[c][i], p.idx);
    }
    forall p | p in PagesSet(sl.pages[c], sl.perslab[c]) ensures p in ChunksOf(sl, c) {
      var i, k: nat :| 0 <= i < |sl.pages[c]| && k < sl.perslab[c] && p == Chunk(sl.pages[c][i], k);
      assert p.page in sl.pages[c];
    }
  }

  lemma {:induction false} SeqSetSize<T>(s: seq<T>)
    requires NoDup(s)
    ensures |set x | x in s| == |s|
  {
    if s != [] {
      var last := |s| - 1;
      var front := s[..last];
      SeqSetSize(front);
      assert s == front + [s[last]];
      assert s[last] !in front;
      assert (set x | x in s) == (set x | x in front) + {s[last]};
    }
  }

  lemma FreeIsList(sl: Slabs, c: nat)
    requires SlabsOk(sl) && ValidClass(sl, c)
    ensures FreeChunks(sl, c) == (set p | p in sl.free[c]) && NoDup(sl.free[c])
  {
    hide PagesOk, MemOk;
  }

  lemma SlabbedTwoWays(sl: Slabs, c: nat)
    requires SlabsOk(sl)
    ensures ChunksOf(sl, c) == FreeChunks(sl, c) + WipedChunks(sl, c) + HandedOut(sl, c)
  {
    hide PagesOk, MemOk;
  }

  // Every chunk of every page of a class is on the freelist, handed out, or wiped for a move: slabs * perslab
  // == sl_curr + handed out + wiped.
  lemma ChunksConserved(s: State, c: nat)
    requires Inv(s) && ValidClass(s.sl, c)
    ensures |s.sl.pages[c]| * s.sl.perslab[c] == |s.sl.free[c]| + |HandedOut(s.sl, c)| + |WipedChunks(s.sl, c)|
    ensures HandedOut(s.sl, c) !! WipedChunks(s.sl, c) !! (set p | p in s.sl.free[c])
  {
    hide Refs, Links, Move, SlabsOk;
    ClassPages(s.sl, c);
    ChunksArePages(s.sl, c);
    PagesSetSize(s.sl.pages[c], s.sl.perslab[c]);
    FreeIsList(s.sl, c);
    SeqSetSize(s.sl.free[c]);
    SlabbedTwoWays(s.sl, c);
    assert FreeChunks(s.sl, c) !! WipedChunks(s.sl, c)
        && FreeChunks(s.sl, c) + WipedChunks(s.sl, c) !! HandedOut(s.sl, c);
  }

  lemma ClassPages(sl: Slabs, c: nat)
    requires SlabsOk(sl) && ValidClass(sl, c)
    ensures NoDup(sl.pages[c])
  {
    hide MemOk, FreeOk, SlabbedOk;
  }

  // ---- the memory bound ----

  ghost function Owning(pages: seq<seq<nat>>): set<nat> { set c: nat | 1 <= c < |pages| && pages[c] != [] }

  // A class may exceed the limit for its first page only.
  ghost predicate WithinLimit(sl: Slabs) {
    sl.limit > 0 ==> sl.malloced <= sl.limit + |Owning(sl.pages)| * PAGE_BYTES
  }

  lemma OwningGrows(pages: seq<seq<nat>>, pages1: seq<seq<nat>>)
    requires |pages| == |pages1| && forall c :: 1 <= c < |pages| && pages[c] != [] ==> pages1[c] != []
    ensures |Owning(pages)| <= |Owning(pages1)|
    ensures forall c :: 1 <= c < |pages| && pages[c] == [] && pages1[c] != [] ==>
      |Owning(pages)| + 1 <= |Owning(pages1)|
  {
    Subset(Owning(pages), Owning(pages1));
    forall c | 1 <= c < |pages| && pages[c] == [] && pages1[c] != [] ensures |Owning(pages)| + 1 <= |Owning(pages1)| {
      assert |Owning(pages) + {c}| == |Owning(pages)| + 1;
      Subset(Owning(pages) + {c}, Owning(pages1));
    }
  }

  lemma {:induction false} Subset<T>(a: set<T>, b: set<T>)
    requires a <= b
    ensures |a| <= |b|
  {
    assert b == a + (b - a);
    assert |a + (b - a)| == |a| + |b - a|;
  }

  lemma NewSlabBound(sl: Slabs, c: nat, raw: nat)
    requires ValidClass(sl, c) && WithinLimit(sl)
    ensures WithinLimit(NewSlab(sl, c, raw)) && NewSlab(sl, c, raw).limit == sl.limit
  {
    if !NoRoom(sl, c) {
      OwningGrows(sl.pages, NewSlab(sl, c, raw).pages);
    }
  }

  lemma AllocFrame(sl: Slabs, size: nat, c: nat, raw: nat)
    requires FreeLive(sl.free, sl.mem) && ValidClass(sl, c)
    ensures var r := Alloc(sl, size, c, true, raw).0;
      var sl1 := if sl.free[c] == [] then NewSlab(sl, c, raw) else sl;
      r.limit == sl1.limit && r.malloced == sl1.malloced && r.pages == sl1.pages
  {
    hide FreeLive;
    NewSlabLive(sl, c, raw);
  }

  lemma AllocBound(sl: Slabs, size: nat, c: nat, raw: nat)
    requires FreeLive(sl.free, sl.mem) && WithinLimit(sl)
    ensures WithinLimit(Alloc(sl, size, c, true, raw).0)
  {
    hide WithinLimit, FreeLive, NewSlab;
    if ValidClass(sl, c) {
      NewSlabBound(sl, c, raw);
      AllocFrame(sl, size, c, raw);
      SameBound(if sl.free[c] == [] then NewSlab(sl, c, raw) else sl, Alloc(sl, size, c, true, raw).0);
    }
  }

  lemma SameBound(sl: Slabs, sl1: Slabs)
    requires WithinLimit(sl) && sl1.limit == sl.limit && sl1.malloced == sl.malloced && sl1.pages == sl.pages
    ensures WithinLimit(sl1)
  {
  }

  lemma {:induction false} RescueFrame(sl: Slabs, size: nat, c: nat, start: nat, n: nat)
    requires FreeLive(sl.free, sl.mem)
    ensures var r := RescueAlloc(sl, size, c, start, n).0;
      r.limit == sl.limit && r.malloced == sl.malloced && r.pages == sl.pages && r.perslab == sl.perslab
          && r.owner == sl.owner
    decreases n
  {
    hide FreeLive, NewSlab;
    if n > 0 && ValidClass(sl, c) && sl.free[c] != [] {
      HeadLive(sl, c);
      var (sl1, q) := Alloc(sl, size, c, false, 0);
      if q != Null && q.Chunk? && q.page == start {
        PopClass(sl, size, c);
        WipeLive(sl1, q, c, size);
        RescueFrame(Wipe(Uncharge(sl1, c, size), q), size, c, start, n - 1);
      }
    }
  }

  lemma WipeLive(sl: Slabs, p: Ptr, c: nat, size: nat)
    requires FreeLive(sl.free, sl.mem) && p in sl.mem && HasClass(sl, c)
    ensures FreeLive(Wipe(Uncharge(sl, c, size), p).free, Wipe(Uncharge(sl, c, size), p).mem)
  {
  }

  lemma FinishBound(s: State)
    requires Inv(s) && Enabled(s, SFinish) && WithinLimit(s.sl)
    ensures WithinLimit(Apply(s, SFinish).sl)
  {
    hide Inv;
    AllWiped(s);
    OwningGrows(s.sl.pages, Apply(s, SFinish).sl.pages);
  }

  lemma StepBound(s: State, a: Step)
    requires Inv(s) && Enabled(s, a) && WithinLimit(s.sl)
    ensures WithinLimit(Apply(s, a).sl)
  {
    hide Inv, WithinLimit, FreeLive, RescueAlloc, Alloc, DoFill, DoLink, DoUnlink, DoGet, DoRelease, DoFree, DoRequeue,
        DoWrite, DoRequest, DoStart, DoLook, DoTryLock, DoDecide, DoLeave, DoUnlock, DoWipe;
    if a.SAlloc? {
      AllocBound(s.sl, a.size, a.c, a.raw);
    } else if a.SFinish? {
      FinishBound(s);
    } else {
      if a.SDecide? { RescueFrame(s.sl, s.sl.mem[s.mover.it].ntotal, s.rb.src, s.rb.start, Perslab(s)); }
      PagesStay(s, a);
      SameBound(s.sl, Apply(s, a).sl);
    }
  }

  predicate SameMemory(sl: Slabs, sl1: Slabs) {
    sl1.limit == sl.limit && sl1.malloced == sl.malloced && sl1.pages == sl.pages
  }

  lemma PagesStay(s: State, a: Step)
    requires Enabled(s, a) && !a.SAlloc? && !a.SFinish?
    requires a.SDecide? ==>
      SameMemory(s.sl, RescueAlloc(s.sl, s.sl.mem[s.mover.it].ntotal, s.rb.src, s.rb.start, Perslab(s)).0)
    ensures SameMemory(s.sl, Apply(s, a).sl)
  {
    hide SameMemory;
    if a.SFill? || a.SLink? || a.SUnlink? || a.SGet? || a.SRelease? || a.SFree? || a.SRequeue? || a.SWrite? {
      WorkerPages(s, a);
    } else if a.SLook? || a.STryLock? || a.SWipe? {
      WalkPages(s, a);
    } else if a.SDecide? {
      DecidePages(s, a.dead);
    } else {
      MoverPages(s, a);
    }
  }

  lemma WorkerPages(s: State, a: Step)
    requires Enabled(s, a)
    requires a.SFill? || a.SLink? || a.SUnlink? || a.SGet? || a.SRelease? || a.SFree? || a.SRequeue? || a.SWrite?
    ensures SameMemory(s.sl, Apply(s, a).sl)
  {
    hide DoAlloc, DoRequest, DoStart, DoLook, DoTryLock, DoDecide, DoLeave, DoUnlock, DoWipe, DoFinish, EraseQueue,
        PushQueue, Erase;
  }

  lemma WalkPages(s: State, a: Step)
    requires Enabled(s, a) && (a.SLook? || a.STryLock? || a.SWipe?)
    ensures SameMemory(s.sl, Apply(s, a).sl)
  {
    hide DoAlloc, DoFill, DoLink, DoUnlink, DoGet, DoRelease, DoFree, DoRequeue, DoWrite, DoRequest, DoStart, DoDecide,
        DoLeave, DoUnlock, DoFinish, Advance, Erase;
  }

  lemma DecidePages(s: State, dead: bool)
    requires Enabled(s, SDecide(dead))
    requires SameMemory(s.sl, RescueAlloc(s.sl, s.sl.mem[s.mover.it].ntotal, s.rb.src, s.rb.start, Perslab(s)).0)
    ensures SameMemory(s.sl, DoDecide(s, dead).sl)
  {
    hide RescueAlloc, FreeLive;
  }

  lemma MoverPages(s: State, a: Step)
    requires Enabled(s, a) && (a.SRequest? || a.SStart? || a.SGiveUp? || a.SLeave? || a.SUnlock?)
    ensures SameMemory(s.sl, Apply(s, a).sl)
  {
    hide DoAlloc, DoFill, DoUnlink, DoGet, DoRelease, DoFree, DoRequeue, DoWrite, DoLook, DoTryLock, DoDecide, DoWipe,
        DoFinish, EraseQueue, PushQueue;
  }

  // In every state of every run: mem_malloced is the pages in use, and exceeds mem_limit by at most one page
  // for each class that owns any.
  lemma {:induction false} MemoryBound(run: seq<State>, steps: seq<Step>, n: nat)
    requires IsRun(run, steps) && n < |run|
    ensures WithinLimit(run[n].sl) && run[n].sl.malloced == PAGE_BYTES * |run[n].sl.owner|
    decreases n
  {
    hide Inv, Initial, Enabled, Apply, WithinLimit;
    RunInv(run, steps, n);
    InvMalloced(run[n]);
    if n == 0 {
      InitialBound(run[0]);
    } else {
      MemoryBound(run, steps, n - 1);
      RunInv(run, steps, n - 1);
      assert Enabled(run[n - 1], steps[n - 1]) && run[n] == Apply(run[n - 1], steps[n - 1]);
      StepBound(run[n - 1], steps[n - 1]);
    }
  }

  lemma InitialBound(s: State)
    requires Initial(s)
    ensures WithinLimit(s.sl)
  {
  }

  lemma InvMalloced(s: State)
    requires Inv(s)
    ensures s.sl.malloced == PAGE_BYTES * |s.sl.owner|
  {
    hide Refs, Links, Move, PagesOk, MemOk, FreeOk, SlabbedOk;
  }
}
