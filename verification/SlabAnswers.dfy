// What the allocator hands out and where pages go, stated on the fields of slabclass[].
module SlabAnswers {
  import opened Memory
  import opened SlabSpec
  import opened EngineInv
  import opened SlabProofs

  // ---- slabs_alloc ----

  // mem_limit stops a class that owns a page, when the pool has none to give.
  predicate Stopped(sl: Slabs, c: nat)
    requires HasClass(sl, c)
  {
    sl.limit > 0 && sl.malloced + PAGE_BYTES > sl.limit && sl.pages[c] != [] && sl.pages[0] == []
  }

  // The page a new slab gets: the last one of the pool, or the one malloc returns.
  function PageFor(sl: Slabs, raw: nat): nat
    requires HasClass(sl, 0)
  {
    if sl.pages[0] == [] then raw else sl.pages[0][|sl.pages[0]| - 1]
  }

  // Chunk p is the caller's: off the freelist, with one reference.
  ghost predicate Taken(mem: map<Ptr, Item>, mem1: map<Ptr, Item>, p: Ptr, size: nat) {
    && p in mem && mem1.Keys == mem.Keys && (forall q :: q in mem && q != p ==> mem1[q] == mem[q])
    && !mem1[p].flags.slabbed && mem1[p].refcount == 1 && mem1[p].ntotal == size && mem1[p].clsid == mem[p].clsid
  }

  // The head of the freelist was there already.
  ghost predicate HeadHanded(sl: Slabs, sl1: Slabs, size: nat, c: nat, p: Ptr)
    requires ValidClass(sl, c) && sl.free[c] != []
  {
    && p == sl.free[c][0] && Taken(sl.mem, sl1.mem, p, size)
    && sl1 == sl.(mem := sl1.mem, free := sl.free[c := sl.free[c][1..]],
                  requested := sl.requested[c := sl.requested[c] + size])
  }

  // A page was taken and cut up, its last chunk handed out; the others are the freelist, the next to last one first.
  ghost predicate PageHanded(sl: Slabs, sl1: Slabs, size: nat, c: nat, raw: nat, p: Ptr)
    requires ValidClass(sl, c)
  {
    var page, n := PageFor(sl, raw), sl.perslab[c];
    && n > 0 && p == Chunk(page, n - 1) && |sl1.free| == |sl.free| && |sl1.pages| == |sl.pages|
    && |sl1.free[c]| == n - 1 && (forall i :: 0 <= i < n - 1 ==> sl1.free[c][i] == Chunk(page, n - 2 - i))
    && (forall d :: 0 <= d < |sl.free| && d != c ==> sl1.free[d] == sl.free[d])
    && sl1.pages[c] == sl.pages[c] + [page]
    && (forall d :: 1 <= d < |sl.pages| && d != c ==> sl1.pages[d] == sl.pages[d])
    && (if sl.pages[0] == [] then sl1.pages[0] == [] && sl1.malloced == sl.malloced + PAGE_BYTES
        else sl1.pages[0] + [page] == sl.pages[0] && sl1.malloced == sl.malloced)
    && (forall k: nat :: k < n ==> Chunk(page, k) in sl1.mem)
    && (forall q :: q in sl.mem ==> q in sl1.mem && (q != p ==> sl1.mem[q] == sl.mem[q]))
    && p in sl1.mem && !sl1.mem[p].flags.slabbed && sl1.mem[p].refcount == 1 && sl1.mem[p].ntotal == size
    && sl1.requested == sl.requested[c := sl.requested[c] + size]
  }

  ghost predicate Handed(sl: Slabs, sl1: Slabs, size: nat, c: nat, newPage: bool, raw: nat, p: Ptr)
    requires ValidClass(sl, c)
  {
    if sl.free[c] != [] then HeadHanded(sl, sl1, size, c, p)
    else if !newPage || Stopped(sl, c) then p == Null && sl1 == sl
    else PageHanded(sl, sl1, size, c, raw, p)
  }

  // slabs_alloc refuses exactly when the class is invalid, or has no free chunk and must not or cannot take a page.
  lemma AllocHands(sl: Slabs, size: nat, c: nat, newPage: bool, raw: nat)
    requires SlabsOk(sl) && raw !in sl.owner
    ensures FreeLive(sl.free, sl.mem)
    ensures var (sl1, p) := Alloc(sl, size, c, newPage, raw);
      && (p == Null <==> !ValidClass(sl, c) || (sl.free[c] == [] && (!newPage || Stopped(sl, c))))
      && (if ValidClass(sl, c) then Handed(sl, sl1, size, c, newPage, raw, p) else sl1 == sl)
  {
    hide PagesOk, MemOk, SlabbedOk;
    if ValidClass(sl, c) {
      if sl.free[c] != [] {
        HeadTaken(sl, size, c);
      } else if newPage && !Stopped(sl, c) {
        PageTaken(sl, size, c, raw);
      }
    }
  }

  lemma HeadTaken(sl: Slabs, size: nat, c: nat)
    requires SlabsOk(sl) && ValidClass(sl, c) && sl.free[c] != []
    ensures sl.free[c][0] in sl.mem && sl.free[c][0].Chunk?
    ensures HeadHanded(sl, Pop(sl, size, c), size, c, sl.free[c][0])
  {
    assert sl.free[c][0] in sl.free[c];
    hide PagesOk, MemOk, SlabbedOk;
  }

  lemma PageTaken(sl: Slabs, size: nat, c: nat, raw: nat)
    requires SlabsOk(sl) && raw !in sl.owner && ValidClass(sl, c) && sl.free[c] == [] && !Stopped(sl, c)
    ensures var sl1 := NewSlab(sl, c, raw);
      && ValidClass(sl1, c) && sl1.free[c] != [] && sl1.free[c][0] in sl1.mem && sl1.free[c][0].Chunk?
      && PageHanded(sl, Pop(sl1, size, c), size, c, raw, sl1.free[c][0])
  {
    hide SlabsOk, NewSlab;
    PageIsNew(sl, raw);
    assert sl.perslab[c] > 0 by { PerslabAt(sl, c); }
    PageCut(sl, c, raw);
  }

  lemma PerslabAt(sl: Slabs, c: nat)
    requires SlabsOk(sl) && ValidClass(sl, c)
    ensures sl.perslab[c] > 0
  {
    hide PagesOk, MemOk, FreeOk, SlabbedOk;
  }

  // A page entered the class: it is at the end of slab_list, and its chunks before the rest of the freelist, the last
  // one first.
  ghost predicate PageAdded(sl: Slabs, sl1: Slabs, c: nat, raw: nat)
    requires ValidClass(sl, c)
  {
    var page, n := PageFor(sl, raw), sl.perslab[c];
    && |sl1.free| == |sl.free| && |sl1.pages| == |sl.pages| && sl1.perslab == sl.perslab
    && |sl1.free[c]| == n + |sl.free[c]| && sl1.free[c][n..] == sl.free[c]
    && (forall i :: 0 <= i < n ==> sl1.free[c][i] == Chunk(page, n - 1 - i))
    && (forall d :: 0 <= d < |sl.free| && d != c ==> sl1.free[d] == sl.free[d]) && sl1.requested == sl.requested
    && sl1.pages[c] == sl.pages[c] + [page]
    && (forall d :: 1 <= d < |sl.pages| && d != c ==> sl1.pages[d] == sl.pages[d])
    && (if sl.pages[0] == [] then sl1.pages[0] == [] && sl1.malloced == sl.malloced + PAGE_BYTES
        else sl1.pages[0] + [page] == sl.pages[0] && sl1.malloced == sl.malloced)
    && (forall k: nat :: k < n ==> Chunk(page, k) in sl1.mem && sl1.mem[Chunk(page, k)] == BLANK)
    && forall q :: q in sl.mem && !(q.Chunk? && q.page == page) ==> q in sl1.mem && sl1.mem[q] == sl.mem[q]
  }

  lemma PageCut(sl: Slabs, c: nat, raw: nat)
    requires ValidClass(sl, c) && !Stopped(sl, c)
    ensures PageAdded(sl, NewSlab(sl, c, raw), c, raw)
  {
    var page, n := PageFor(sl, raw), sl.perslab[c];
    PoolIs(sl.pages[0]);
    assert (PageChunks(page, n) + sl.free[c])[n..] == sl.free[c];
  }

  lemma PoolIs(pool: seq<nat>)
    ensures pool != [] ==> pool[..|pool| - 1] + [pool[|pool| - 1]] == pool
  {
  }

  // No chunk of the page is in use.
  lemma PageIsNew(sl: Slabs, raw: nat)
    requires SlabsOk(sl) && raw !in sl.owner
    ensures forall q :: q in sl.mem ==> q.Chunk? && q.page != PageFor(sl, raw)
  {
    if sl.pages[0] != [] { assert PageFor(sl, raw) in sl.pages[0]; }
    hide FreeOk, SlabbedOk;
  }

  // ---- the rescue chunk ----

  // The first i chunks of the freelist belong to the page that is being emptied.
  ghost predicate Inside(free: seq<Ptr>, i: nat, page: nat) {
    i <= |free| && forall j :: 0 <= j < i ==> free[j].Chunk? && free[j].page == page
  }

  lemma InsideNext(free: seq<Ptr>, i: nat, page: nat)
    requires Inside(free, i, page) && i > 0
    ensures Inside(free[1..], i - 1, page)
  {
  }

  lemma RescueTurn(sl: Slabs, size: nat, c: nat, start: nat, n: nat) returns (sl1: Slabs)
    requires FreeLive(sl.free, sl.mem) && ValidClass(sl, c) && n > 0
    requires sl.free[c] != [] && sl.free[c][0].Chunk?
    ensures FreeLive(sl1.free, sl1.mem) && ValidClass(sl1, c) && sl1.free[c] == sl.free[c][1..]
    ensures sl.free[c][0].page != start ==> RescueAlloc(sl, size, c, start, n).1 == sl.free[c][0]
    ensures sl.free[c][0].page == start ==>
      RescueAlloc(sl, size, c, start, n).1 == RescueAlloc(sl1, size, c, start, n - 1).1
  {
    var p := sl.free[c][0];
    assert p in sl.free[c];
    sl1 := Wipe(Uncharge(Pop(sl, size, c), c, size), p);
    assert forall d, q :: 0 <= d < |sl1.free| && q in sl1.free[d] ==> q in sl.free[d];
  }

  // slab_rebalance_alloc passes by the page's own chunks and returns the first other one, if its tries suffice.
  lemma {:induction false} RescueFinds(sl: Slabs, size: nat, c: nat, start: nat, n: nat, i: nat)
    requires FreeLive(sl.free, sl.mem) && ValidClass(sl, c)
    requires Inside(sl.free[c], i, start) && i < n && i < |sl.free[c]| && sl.free[c][i].Chunk?
    requires sl.free[c][i].page != start
    ensures RescueAlloc(sl, size, c, start, n).1 == sl.free[c][i]
    decreases n
  {
    hide RescueAlloc, FreeLive;
    var sl1 := RescueTurn(sl, size, c, start, n);
    if i > 0 {
      InsideNext(sl.free[c], i, start);
      RescueFinds(sl1, size, c, start, n - 1, i - 1);
    }
  }

  lemma {:induction false} RescueFindsNone(sl: Slabs, size: nat, c: nat, start: nat, n: nat, k: nat)
    requires FreeLive(sl.free, sl.mem) && ValidClass(sl, c) && Inside(sl.free[c], k, start)
    requires k == |sl.free[c]| || n <= k
    ensures RescueAlloc(sl, size, c, start, n).1 == Null
    decreases n
  {
    hide FreeLive, Pop;
    if n > 0 && sl.free[c] != [] {
      var sl1 := RescueTurn(sl, size, c, start, n);
      InsideNext(sl.free[c], k, start);
      RescueFindsNone(sl1, size, c, start, n - 1, k - 1);
    }
  }

  // The first of at most n chunks of a freelist that lies outside the page, or Null.
  ghost predicate FirstElsewhere(free: seq<Ptr>, start: nat, n: nat, p: Ptr) {
    exists i: nat :: Inside(free, i, start)
      && if p == Null then i == |free| || n <= i
         else i < n && i < |free| && free[i] == p && p.Chunk? && p.page != start
  }

  lemma FirstOutside(free: seq<Ptr>, page: nat) returns (i: nat)
    ensures Inside(free, i, page) && (i < |free| ==> !(free[i].Chunk? && free[i].page == page))
  {
    i := 0;
    while i < |free| && free[i].Chunk? && free[i].page == page
      invariant Inside(free, i, page)
    {
      i := i + 1;
    }
  }

  lemma RescueIsFirst(sl: Slabs, size: nat, c: nat, start: nat, n: nat)
    requires FreeLive(sl.free, sl.mem) && ValidClass(sl, c) && forall p :: p in sl.free[c] ==> p.Chunk?
    ensures FirstElsewhere(sl.free[c], start, n, RescueAlloc(sl, size, c, start, n).1)
  {
    hide FreeLive, RescueAlloc, Inside;
    var i := FirstOutside(sl.free[c], start);
    assert i <= |sl.free[c]| by { InsideLength(sl.free[c], i, start); }
    if i < |sl.free[c]| && i < n {
      assert sl.free[c][i] in sl.free[c];
      RescueFinds(sl, size, c, start, n, i);
    } else {
      RescueFindsNone(sl, size, c, start, n, i);
    }
  }

  lemma InsideLength(free: seq<Ptr>, i: nat, page: nat)
    requires Inside(free, i, page)
    ensures i <= |free|
  {
  }

  // ---- pages that leave ----

  // The page is at the end of the list of class dst, cut up there unless that is the pool.
  ghost predicate HandedOver(sl: Slabs, sl1: Slabs, src: nat, index: nat, dst: nat)
    requires ValidClass(sl, src) && HasClass(sl, dst) && index < |sl.pages[src]|
  {
    var page, n := sl.pages[src][index], sl.perslab[dst];
    var rest := sl.pages[src := sl.pages[src][..index] + sl.pages[src][index + 1..]];
    && sl1.pages == rest[dst := rest[dst] + [page]] && sl1.malloced == sl.malloced && sl1.requested == sl.requested
    && |sl1.free| == |sl.free| && (forall d :: 0 <= d < |sl.free| && d != dst ==> sl1.free[d] == sl.free[d])
    && (dst == 0 ==> sl1.free == sl.free && forall q :: q in sl1.mem ==> !(q.Chunk? && q.page == page))
    && (dst > 0 ==>
          && |sl1.free[dst]| == n + |sl.free[dst]| && sl1.free[dst][n..] == sl.free[dst]
          && (forall i :: 0 <= i < n ==> sl1.free[dst][i] == Chunk(page, n - 1 - i))
          && forall k: nat :: k < n ==> Chunk(page, k) in sl1.mem && sl1.mem[Chunk(page, k)] == BLANK)
    && (forall q :: q in sl.mem && !(q.Chunk? && q.page == page) ==> q in sl1.mem && sl1.mem[q] == sl.mem[q])
  }

  lemma HandOverHands(sl: Slabs, src: nat, index: nat, dst: nat)
    requires ValidClass(sl, src) && HasClass(sl, dst) && index < |sl.pages[src]|
    ensures HandedOver(sl, HandOver(sl, src, index, dst), src, index, dst)
  {
    var page, n := sl.pages[src][index], sl.perslab[dst];
    if dst > 0 {
      assert PageChunks(page, n) + sl.free[dst] == HandOver(sl, src, index, dst).free[dst];
    }
  }

  // The page is the system's again.
  ghost predicate GivenBack(sl: Slabs, sl1: Slabs, src: nat, index: nat)
    requires ValidClass(sl, src) && index < |sl.pages[src]|
  {
    var page := sl.pages[src][index];
    && sl1.pages == sl.pages[src := sl.pages[src][..index] + sl.pages[src][index + 1..]]
    && sl1.malloced + PAGE_BYTES == sl.malloced && sl1.free == sl.free && sl1.requested == sl.requested
    && (forall q :: q in sl1.mem ==> !(q.Chunk? && q.page == page))
    && forall q :: q in sl.mem && !(q.Chunk? && q.page == page) ==> q in sl1.mem && sl1.mem[q] == sl.mem[q]
  }

  lemma GiveBackGives(sl: Slabs, src: nat, index: nat)
    requires ValidClass(sl, src) && index < |sl.pages[src]| && sl.malloced >= PAGE_BYTES
    ensures GivenBack(sl, GiveBack(sl, src, index), src, index)
  {
  }
}
