// The end of a page move: the page the mover has emptied leaves its class.
module FinishProofs {
  import opened Memory
  import opened Linkage
  import opened SlabSpec
  import opened Engine
  import opened EngineInv
  import opened SlabProofs
  import opened EditProofs
  import opened WorkerProofs
  import opened MoverProofs

  // No chunk of the page is in use any more.
  ghost predicate PageWiped(mem: map<Ptr, Item>, page: nat) {
    forall p :: p in mem && p.Chunk? && p.page == page ==> mem[p].flags == CLEARED
  }

  lemma DetachFree(free: seq<seq<Ptr>>, mem: map<Ptr, Item>, owner: map<nat, nat>, page: nat)
    requires FreeOk(free, mem, owner) && PageWiped(mem, page)
    ensures FreeOk(free, DropPage(mem, page), owner - {page})
  {
  }

  lemma DetachSlabbed(free: seq<seq<Ptr>>, mem: map<Ptr, Item>, owner: map<nat, nat>, page: nat)
    requires SlabbedOk(free, mem, owner)
    ensures SlabbedOk(free, DropPage(mem, page), owner - {page})
  {
  }

  lemma DetachMem(mem: map<Ptr, Item>, owner: map<nat, nat>, perslab: seq<nat>, page: nat)
    requires MemOk(mem, owner, perslab)
    ensures MemOk(DropPage(mem, page), owner - {page}, perslab)
  {
  }

  lemma DetachOk(sl: Slabs, src: nat, index: nat)
    requires SlabsOk(sl) && ValidClass(sl, src) && index < |sl.pages[src]| && PageWiped(sl.mem, sl.pages[src][index])
    ensures var r := Detach(sl, src, index);
      && Shape(r) && PagesOk(r.pages, r.owner) && MemOk(r.mem, r.owner, r.perslab)
      && FreeOk(r.free, r.mem, r.owner) && SlabbedOk(r.free, r.mem, r.owner)
      && sl.malloced == PAGE_BYTES * (|r.owner| + 1) && sl.pages[src][index] in sl.owner
  {
    hide PagesOk, MemOk, FreeOk, SlabbedOk;
    var page := sl.pages[src][index];
    PageOwned(sl, src, index);
    RemovePage(sl.pages, sl.owner, src, index);
    RemoveCount(sl.owner, page);
    DetachMem(sl.mem, sl.owner, sl.perslab, page);
    DetachFree(sl.free, sl.mem, sl.owner, page);
    DetachSlabbed(sl.free, sl.mem, sl.owner, page);
  }

  lemma PageOwned(sl: Slabs, src: nat, index: nat)
    requires PagesOk(sl.pages, sl.owner) && src < |sl.pages| && index < |sl.pages[src]|
    ensures sl.pages[src][index] in sl.owner && sl.owner[sl.pages[src][index]] == src
  {
    assert sl.pages[src][index] in sl.pages[src];
  }

  // A page nobody uses enters the pool.
  lemma PoolOk(sl: Slabs, page: nat)
    requires Shape(sl) && PagesOk(sl.pages, sl.owner) && MemOk(sl.mem, sl.owner, sl.perslab)
    requires FreeOk(sl.free, sl.mem, sl.owner) && SlabbedOk(sl.free, sl.mem, sl.owner)
    requires page !in sl.owner && sl.malloced == PAGE_BYTES * (|sl.owner| + 1)
    ensures SlabsOk(sl.(owner := sl.owner[page := 0], pages := sl.pages[0 := sl.pages[0] + [page]]))
  {
    CarvePages(sl.pages, sl.owner, page, 0);
    PoolMem(sl, page);
    hide PagesOk, MemOk, FreeOk, SlabbedOk;
    assert |sl.owner[page := 0]| == |sl.owner| + 1;
  }

  lemma PoolMem(sl: Slabs, page: nat)
    requires MemOk(sl.mem, sl.owner, sl.perslab) && page !in sl.owner
    requires FreeOk(sl.free, sl.mem, sl.owner) && SlabbedOk(sl.free, sl.mem, sl.owner)
    ensures MemOk(sl.mem, sl.owner[page := 0], sl.perslab)
    ensures FreeOk(sl.free, sl.mem, sl.owner[page := 0]) && SlabbedOk(sl.free, sl.mem, sl.owner[page := 0])
  {
    assert FreeOk(sl.free, sl.mem, sl.owner[page := 0]) by { hide SlabbedOk; }
    assert SlabbedOk(sl.free, sl.mem, sl.owner[page := 0]) by { hide FreeOk; }
    hide FreeOk, SlabbedOk;
  }

  lemma HandOverOk(sl: Slabs, src: nat, index: nat, dst: nat)
    requires SlabsOk(sl) && ValidClass(sl, src) && HasClass(sl, dst) && index < |sl.pages[src]|
    requires PageWiped(sl.mem, sl.pages[src][index])
    ensures SlabsOk(HandOver(sl, src, index, dst))
  {
    hide PagesOk, MemOk, FreeOk, SlabbedOk, PageWiped;
    DetachOk(sl, src, index);
    var page := sl.pages[src][index];
    if dst == 0 { PoolOk(Detach(sl, src, index), page); } else { CarveOk(Detach(sl, src, index), page, dst); }
  }

  lemma GiveBackOk(sl: Slabs, src: nat, index: nat)
    requires SlabsOk(sl) && ValidClass(sl, src) && index < |sl.pages[src]| && PageWiped(sl.mem, sl.pages[src][index])
    ensures sl.malloced >= PAGE_BYTES && SlabsOk(GiveBack(sl, src, index))
  {
    hide PagesOk, MemOk, FreeOk, SlabbedOk, PageWiped;
    DetachOk(sl, src, index);
  }

  // ---- the other groups ----

  // What is left of memory after the page is gone: nothing that was linked or held changes.
  ghost predicate SameLive(mem: map<Ptr, Item>, mem1: map<Ptr, Item>) {
    && (forall p :: p in mem && !mem[p].flags.slabbed ==> p in mem1 && mem1[p] == mem[p])
    && (forall p :: p in mem1 && !mem1[p].flags.slabbed ==> p in mem && mem[p] == mem1[p])
  }

  lemma SameRefsLive(mem: map<Ptr, Item>, mem1: map<Ptr, Item>, held: map<Ptr, nat>, m: Mover)
    requires Refs(mem, held, m) && SameLive(mem, mem1)
    ensures Refs(mem1, held, m)
  {
  }

  lemma SameLinksLive(mem: map<Ptr, Item>, mem1: map<Ptr, Item>, table: map<Key, Ptr>, lru: map<Queue, seq<Ptr>>,
                      owner: map<nat, nat>, owner1: map<nat, nat>)
    requires Links(mem, table, lru, owner) && SameLive(mem, mem1) && LinkedOk(mem1)
    requires forall p :: FilledIn(mem, p) ==> OwnerIn(owner1, p) == OwnerIn(owner, p)
    ensures Links(mem1, table, lru, owner1)
  {
    hide TableOk, QueuedOk, QueuesOnce;
    assert forall q :: LinkedIn(mem1, q) == LinkedIn(mem, q) && (LinkedIn(mem, q) ==> mem1[q] == mem[q]);
    SameTable(mem, mem1, table);
    SameQueues(mem, mem1, lru);
  }

  lemma DropSame(mem: map<Ptr, Item>, page: nat, n: nat)
    requires PageWiped(mem, page) && LinkedOk(mem)
    ensures SameLive(mem, DropPage(mem, page)) && LinkedOk(DropPage(mem, page))
    ensures SameLive(mem, DropPage(mem, page) + BlankPage(page, n))
        && LinkedOk(DropPage(mem, page) + BlankPage(page, n))
  {
  }

  // At the end of the last pass all chunks of the page are wiped.
  lemma AllWiped(s: State)
    requires Inv(s) && s.rb.done > 0
    ensures Moving(s) && ValidClass(s.sl, s.rb.src) && s.rb.index < |s.sl.pages[s.rb.src]| && HasClass(s.sl, s.rb.dst)
    ensures s.sl.pages[s.rb.src][s.rb.index] == s.rb.start && (s.rb.remove || s.rb.dst != s.rb.src)
    ensures s.mover == Rest && PageWiped(s.sl.mem, s.rb.start) && ClearedUpTo(s.sl.mem, s.rb.start, Perslab(s))
    ensures |s.sl.pages[s.rb.src]| >= 2 && (s.rb.remove || s.rb.index == 0)
  {
    hide SlabsOk, Refs, Links;
    PageBounds(s.sl, s.rb.src, s.rb.index);
    forall p | p in s.sl.mem && p.Chunk? && p.page == s.rb.start ensures s.sl.mem[p].flags == CLEARED {
      assert IsCleared(s.sl.mem, Chunk(s.rb.start, p.idx));
    }
  }

  lemma PageBounds(sl: Slabs, src: nat, index: nat)
    requires SlabsOk(sl) && ValidClass(sl, src) && index < |sl.pages[src]|
    ensures forall p :: p in sl.mem && p.Chunk? && p.page == sl.pages[src][index] ==> p.idx < sl.perslab[src]
  {
    hide FreeOk, SlabbedOk;
    PageOwned(sl, src, index);
    hide PagesOk;
  }

  lemma FinishMove(sl: Slabs, held: map<Ptr, nat>, sl1: Slabs)
    requires forall p :: !IsCleared(sl1.mem, p)
    ensures Move(sl1, held, IDLE, Rest)
  {
  }

  lemma NoneCleared(mem: map<Ptr, Item>, rb: Rebal, n: nat)
    requires ClearedOk(mem, rb)
    ensures forall p :: !IsCleared(DropPage(mem, rb.start), p)
    ensures forall p :: !IsCleared(DropPage(mem, rb.start) + BlankPage(rb.start, n), p)
  {
    forall p ensures !IsCleared(DropPage(mem, rb.start), p) {
      if IsCleared(DropPage(mem, rb.start), p) { assert IsCleared(mem, p); }
    }
    forall p ensures !IsCleared(DropPage(mem, rb.start) + BlankPage(rb.start, n), p) {
      if IsCleared(DropPage(mem, rb.start) + BlankPage(rb.start, n), p) { assert IsCleared(mem, p); }
    }
  }

  // Chunks that are filled in do not lie in the page.
  lemma OwnersStay(mem: map<Ptr, Item>, owner: map<nat, nat>, owner1: map<nat, nat>, page: nat)
    requires PageWiped(mem, page)
    requires forall g :: g != page ==> (g in owner1 <==> g in owner) && (g in owner ==> owner1[g] == owner[g])
    ensures forall p :: FilledIn(mem, p) ==> OwnerIn(owner1, p) == OwnerIn(owner, p)
  {
  }

  lemma LinksLinked(mem: map<Ptr, Item>, table: map<Key, Ptr>, lru: map<Queue, seq<Ptr>>, owner: map<nat, nat>)
    requires Links(mem, table, lru, owner)
    ensures LinkedOk(mem)
  {
  }

  lemma MoveCleared(sl: Slabs, held: map<Ptr, nat>, rb: Rebal, m: Mover)
    requires Move(sl, held, rb, m)
    ensures ClearedOk(sl.mem, rb)
  {
  }

  lemma FinishDefined(s: State)
    requires Inv(s) && Guard(s, SFinish)
    ensures Defined(s, SFinish)
  {
    hide SlabsOk, Refs, Links, Move, PageWiped;
    AllWiped(s);
    GiveBackOk(s.sl, s.rb.src, s.rb.index);
  }

  lemma FinishKeeps(s: State)
    requires Inv(s) && Enabled(s, SFinish)
    ensures Inv(Apply(s, SFinish))
  {
    hide SlabsOk, Refs, Links, Move, PageWiped, LinkedOk, SameLive, ClearedOk;
    AllWiped(s);
    var page := s.rb.start;
    var t := Apply(s, SFinish);
    var n := if s.rb.dst < |s.sl.perslab| then s.sl.perslab[s.rb.dst] else 0;
    LinksLinked(s.sl.mem, s.table, s.lru, s.sl.owner);
    MoveCleared(s.sl, s.held, s.rb, s.mover);
    DropSame(s.sl.mem, page, n);
    NoneCleared(s.sl.mem, s.rb, n);
    if s.rb.remove {
      GiveBackOk(s.sl, s.rb.src, s.rb.index);
    } else {
      HandOverOk(s.sl, s.rb.src, s.rb.index, s.rb.dst);
    }
    OwnersStay(s.sl.mem, s.sl.owner, t.sl.owner, page);
    SameRefsLive(s.sl.mem, t.sl.mem, s.held, s.mover);
    SameLinksLive(s.sl.mem, t.sl.mem, s.table, s.lru, s.sl.owner, t.sl.owner);
    FinishMove(s.sl, s.held, t.sl);
  }
}
