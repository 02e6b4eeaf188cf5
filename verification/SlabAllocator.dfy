// The slab allocator as it runs: freelists threaded through the link words of the free chunks, page lists shifted
// in place.
module SlabAllocator {
  import opened Memory
  import opened SlabSpec
  import opened DList
  import opened EngineInv
  import opened SlabProofs
  import opened SlabAnswers
  import opened MoverProofs
  import opened FinishProofs

  // No chunk is on two freelists.
  ghost predicate Apart(free: seq<seq<Ptr>>) {
    forall c, d, p :: 0 <= c < |free| && 0 <= d < |free| && c != d && p in free[c] ==> p !in free[d]
  }

  ghost predicate Unlisted(free: seq<seq<Ptr>>, p: Ptr) { forall c :: 0 <= c < |free| ==> p !in free[c] }

  // The slots pointers and sl_curr counters describe the freelists.
  ghost predicate Threaded(prev: Words, next: Words, slots: seq<Ptr>, slCurr: seq<nat>, free: seq<seq<Ptr>>) {
    && |slots| == |slCurr| == |free| && Apart(free)
    && forall c :: 0 <= c < |free| ==>
      IsList(prev, next, free[c]) && slots[c] == Head(free[c]) && slCurr[c] == |free[c]|
  }

  // Writing the words of one list, or of a chunk on none, leaves the other lists alone.
  lemma OtherLists(prev: Words, next: Words, prev1: Words, next1: Words, free: seq<seq<Ptr>>, c: nat)
    requires Apart(free) && c < |free| && forall d :: 0 <= d < |free| ==> IsList(prev, next, free[d])
    requires forall q :: At(prev1, q) != At(prev, q) || At(next1, q) != At(next, q) ==>
      q in free[c] || Unlisted(free, q)
    ensures forall d :: 0 <= d < |free| && d != c ==> IsList(prev1, next1, free[d])
  {
    hide IsList, At;
    forall d | 0 <= d < |free| && d != c ensures IsList(prev1, next1, free[d]) {
      Untouched(prev, next, prev1, next1, free[d]);
    }
  }

  lemma PushThreaded(prev: Words, next: Words, slots: seq<Ptr>, slCurr: seq<nat>, free: seq<seq<Ptr>>, c: nat, p: Ptr)
    requires Threaded(prev, next, slots, slCurr, free) && c < |free| && Unlisted(free, p) && p != Null
    ensures Threaded(PushPrev(prev, slots[c], p), next[p := slots[c]], slots[c := p], slCurr[c := slCurr[c] + 1],
        free[c := [p] + free[c]])
  {
    var prev1 := PushPrev(prev, slots[c], p);
    var next1 := next[p := slots[c]];
    PushFront(prev, next, free[c], p);
    assert slots[c] == Null || slots[c] in free[c];
    OtherLists(prev, next, prev1, next1, free, c);
    var r := free[c := [p] + free[c]];
    assert Apart(r) by {
      assert forall d, q :: 0 <= d < |r| && q in r[d] ==> q in free[d] || (d == c && q == p);
    }
    hide Apart, IsList;
  }

  lemma ApartShrink(free: seq<seq<Ptr>>, c: nat, s: seq<Ptr>)
    requires Apart(free) && c < |free| && forall q :: q in s ==> q in free[c]
    ensures Apart(free[c := s])
  {
    var r := free[c := s];
    assert forall d, q :: 0 <= d < |r| && q in r[d] ==> q in free[d];
  }

  lemma CutThreaded(prev: Words, next: Words, slots: seq<Ptr>, slCurr: seq<nat>, free: seq<seq<Ptr>>, c: nat, p: Ptr)
    requires Threaded(prev, next, slots, slCurr, free) && c < |free| && p in free[c]
    ensures slCurr[c] > 0
    ensures var slots1 := slots[c := if slots[c] == p then At(next, p) else slots[c]];
      Threaded(CutPrev(prev, next, p), CutNext(prev, next, p), slots1, slCurr[c := slCurr[c] - 1],
          free[c := Erase(free[c], p)])
  {
    hide Apart, IsList, CutPrev, CutNext, At, Head, NoDup;
    var s := free[c];
    var i := IndexOf(s, p);
    Cut(prev, next, s, i);
    CutEnds(prev, next, s, i);
    CutFrame(prev, next, s, i);
    OtherLists(prev, next, CutPrev(prev, next, p), CutNext(prev, next, p), free, c);
    ListNoDup(prev, next, s);
    EraseFacts(s, p);
    ApartShrink(free, c, Erase(s, p));
  }

  lemma ListNoDup(prev: Words, next: Words, s: seq<Ptr>)
    requires IsList(prev, next, s)
    ensures NoDup(s)
  {
  }

  // A zeroed header, before do_slabs_free has seen it.
  const ZERO := Item(NO_FLAGS, 0, 0, Hot, 0, "", Content("", 0, 0))

  class SlabClasses {
    const perslab: seq<nat>
    const limit: nat
    // words and headers of all chunks
    var prev: Words
    var next: Words
    var mem: map<Ptr, Item>
    // slabclass[]
    var slots: seq<Ptr>
    var slCurr: seq<nat>
    var slabList: seq<seq<nat>>
    var requested: seq<int>
    var malloced: nat
    ghost var free: seq<seq<Ptr>>
    ghost var owner: map<nat, nat>

    ghost predicate Valid()
      reads this
    {
      && Threaded(prev, next, slots, slCurr, free)
      && |slabList| == |requested| == |perslab| == |free| >= 1
    }

    // The classes, pages and chunks as a value.
    ghost function View(): Slabs
      reads this
    {
      Slabs(perslab, free, slabList, requested, owner, mem, malloced, limit)
    }

    // do_slabs_free
    method DoSlabsFree(p: Ptr, size: nat, id: nat)
      requires Valid() && p in mem && p != Null && Unlisted(free, p)
      modifies this
      ensures Valid()
      ensures View() == if ValidClass(old(View()), id) then FreeChunk(old(View()), p, size, id) else old(View())
      ensures 1 <= id < |perslab| ==>
        && free == old(free)[id := [p] + old(free)[id]] && requested == old(requested)[id := old(requested)[id] - size]
        && mem == old(mem)[p := old(mem)[p].(flags := SLABBED, clsid := 0)]
    {
      if id < 1 || id >= |perslab| {
        return;
      }
      PushThreaded(prev, next, slots, slCurr, free, id, p);
      hide IsList, Apart, Unlisted;
      mem := mem[p := mem[p].(flags := SLABBED, clsid := 0)];
      var head := slots[id];
      prev := prev[p := Null];
      next := next[p := head];
      if head != Null {
        prev := prev[head := p];
      }
      slots := slots[id := p];
      slCurr := slCurr[id := slCurr[id] + 1];
      requested := requested[id := requested[id] - size];
      free := free[id := [p] + free[id]];
    }
  
    // split_slab_page_into_freelist, on a page that has just been zeroed
    method SplitSlabPageIntoFreelist(page: nat, id: nat)
      requires Valid() && 1 <= id < |perslab|
      requires forall k: nat :: k < perslab[id] ==> Chunk(page, k) in mem && mem[Chunk(page, k)] == ZERO
      requires forall k: nat :: Unlisted(free, Chunk(page, k))
      modifies this
      ensures Valid() && View() == Split(old(View()), page, id, perslab[id])
    {
      hide Threaded, IsList, Apart, Unlisted, FreeChunk, Split;
      ghost var before := View();
      var x := 0;
      SplitNone(before, page, id);
      while x < perslab[id]
        invariant x <= perslab[id]
        invariant Valid() && View() == Split(before, page, id, x)
      {
        SplitStep(before, page, id, x);
        DoSlabsFree(Chunk(page, x), 0, id);
        x := x + 1;
      }
    }

    // get_page_from_global_pool and memory_allocate; raw is what malloc returns
    method TakeNewPage(raw: nat) returns (page: nat)
      requires Valid()
      modifies this
      ensures Valid() && (View(), page) == TakePage(old(View()), raw)
    {
      hide Threaded;
      var pool := slabList[0];
      if |pool| < 1 {
        page := raw;
        malloced := malloced + PAGE_BYTES;
      } else {
        page := pool[|pool| - 1];
        slabList := slabList[0 := pool[..|pool| - 1]];
        owner := owner - {page};
      }
    }

    // do_slabs_newslab
    method DoSlabsNewslab(id: nat, raw: nat) returns (ok: bool)
      requires Valid() && ValidClass(View(), id) && SlabsOk(View()) && raw !in owner
      modifies this
      ensures Valid() && View() == NewSlab(old(View()), id, raw)
      ensures ok == !Stopped(old(View()), id)
      ensures if ok then PageAdded(old(View()), View(), id, raw) else View() == old(View())
    {
      hide SlabsOk, Threaded, Unlisted, TakePage, Split, NewSlab, PageAdded;
      ghost var before := View();
      if limit > 0 && malloced + PAGE_BYTES > limit && |slabList[id]| > 0 && |slabList[0]| == 0 {
        NewSlabRefused(before, id, raw);
        return false;
      }
      PageCut(before, id, raw);
      NewPageUnlisted(before, raw);
      TakePageFrame(before, raw);
      var page := TakeNewPage(raw);
      mem := mem + ZeroPage(page, perslab[id]);
      SplitSlabPageIntoFreelist(page, id);
      slabList := slabList[id := slabList[id] + [page]];
      owner := owner[page := id];
      NewSlabGranted(before, id, raw);
      ok := true;
    }

    // The head of a freelist goes to the caller of do_slabs_alloc.
    method PopSlot(size: nat, id: nat) returns (p: Ptr)
      requires Valid() && 1 <= id < |perslab| && free[id] != [] && free[id][0] in mem
      modifies this
      ensures p == old(free)[id][0] && Valid() && View() == Pop(old(View()), size, id)
    {
      hide Apart, IsList;
      p := slots[id];
      PopThreaded(prev, next, slots, slCurr, free, id);
      hide Threaded;
      var n := At(next, p);
      slots := slots[id := n];
      if n != Null {
        prev := prev[n := Null];
      }
      mem := mem[p := mem[p].(flags := mem[p].flags.(slabbed := false), refcount := 1, ntotal := size)];
      slCurr := slCurr[id := slCurr[id] - 1];
      requested := requested[id := requested[id] + size];
      free := free[id := free[id][1..]];
    }

    // do_slabs_alloc
    method DoSlabsAlloc(size: nat, id: nat, newPage: bool, raw: nat) returns (p: Ptr)
      requires Valid() && SlabsOk(View()) && raw !in owner
      modifies this
      ensures FreeLive(old(free), old(mem))
      ensures Valid() && SlabsOk(View()) && (View(), p) == Alloc(old(View()), size, id, newPage, raw)
      ensures p == Null <==>
        !ValidClass(old(View()), id) || (old(free)[id] == [] && (!newPage || Stopped(old(View()), id)))
      ensures if ValidClass(old(View()), id) then Handed(old(View()), View(), size, id, newPage, raw, p)
              else View() == old(View())
    {
      hide SlabsOk, Apart, IsList, FreeLive, NewSlab, Pop, Handed;
      AllocHands(View(), size, id, newPage, raw);
      Live(View());
      AllocOk(View(), size, id, newPage, raw);
      p := Null;
      if id >= 1 && id < |perslab| {
        if slCurr[id] == 0 && newPage {
          NewSlabOk(View(), id, raw);
          var _ := DoSlabsNewslab(id, raw);
        }
        if slCurr[id] != 0 {
          HeadInUse(View(), id);
          p := PopSlot(size, id);
        }
      }
    }

    // slab_rebalance_move takes a free chunk of the page off its freelist.
    method TakeOffFreelist(p: Ptr, id: nat)
      requires Valid() && 1 <= id < |perslab| && p in free[id]
      modifies this
      ensures Valid() && View() == TakeFree(old(View()), p, id)
    {
      hide Apart, IsList, Erase, IndexOf, NoDup;
      CutThreaded(prev, next, slots, slCurr, free, id, p);
      hide Threaded;
      if slots[id] == p {
        slots := slots[id := At(next, p)];
      }
      var n, b := At(next, p), At(prev, p);
      if n != Null {
        prev := prev[n := b];
      }
      if b != Null {
        next := next[b := n];
      }
      slCurr := slCurr[id := slCurr[id] - 1];
      free := free[id := Erase(free[id], p)];
    }

    // it->refcount = 0; it->it_flags = ITEM_SLABBED|ITEM_FETCHED
    method WipeChunk(p: Ptr)
      requires p in mem
      modifies this`mem
      ensures View() == Wipe(old(View()), p)
    {
      mem := mem[p := mem[p].(flags := CLEARED, refcount := 0)];
    }

    // slab_rebalance_alloc
    method SlabRebalanceAlloc(size: nat, id: nat, start: nat) returns (newIt: Ptr)
      requires Valid() && SlabsOk(View()) && 1 <= id < |perslab|
      modifies this
      ensures FreeLive(old(free), old(mem))
      ensures Valid() && (View(), newIt) == RescueAlloc(old(View()), size, id, start, perslab[id])
      ensures FirstElsewhere(old(free)[id], start, perslab[id], newIt)
    {
      hide SlabsOk, Threaded, FreeLive, Pop, FirstElsewhere;
      ghost var before := View();
      Live(before);
      FreeAreChunks(before, id);
      RescueIsFirst(before, size, id, start, perslab[id]);
      newIt := Null;
      var x := 0;
      while x < perslab[id]
        invariant x <= perslab[id]
        invariant Valid() && SlabsOk(View()) && FreeLive(free, mem)
        invariant RescueAlloc(before, size, id, start, perslab[id]) == RescueAlloc(View(), size, id, start,
            perslab[id] - x)
        invariant newIt == Null
      {
        ghost var now := View();
        Live(now);
        newIt := DoSlabsAllocNoPage(size, id);
        if newIt == Null {
          break;
        }
        if newIt.Chunk? && newIt.page == start {
          ReclaimOk(now, size, id);
          requested := requested[id := requested[id] - size];
          WipeChunk(newIt);
          newIt := Null;
          Live(View());
        } else {
          break;
        }
        x := x + 1;
      }
    }

    // do_slabs_alloc with SLABS_ALLOC_NO_NEWPAGE
    method DoSlabsAllocNoPage(size: nat, id: nat) returns (p: Ptr)
      requires Valid() && SlabsOk(View()) && 1 <= id < |perslab|
      modifies this
      ensures FreeLive(old(free), old(mem))
      ensures Valid() && (View(), p) == Alloc(old(View()), size, id, false, 0)
      ensures p != Null ==> old(free)[id] != [] && p == old(free)[id][0]
    {
      hide SlabsOk, Apart, IsList, FreeLive, Pop;
      Live(View());
      p := Null;
      if slCurr[id] != 0 {
        HeadInUse(View(), id);
        p := PopSlot(size, id);
      }
    }

    // The loop of slab_rebalance_finish and slab_remove_finish that shuffles the page list backwards.
    method ShiftPages(src: nat, index: nat)
      requires Valid() && src < |slabList| && index < |slabList[src]|
      modifies this`slabList
      ensures Valid() && slabList == old(slabList)[src := Without(old(slabList)[src], index)]
    {
      hide Threaded;
      ghost var orig := slabList[src];
      var list := slabList[src];
      var slabs := |list| - 1;
      var x: nat := index;
      while x < slabs
        invariant index <= x <= slabs && |list| == |orig|
        invariant forall k :: 0 <= k < index || x <= k < |orig| ==> list[k] == orig[k]
        invariant forall k :: index <= k < x ==> list[k] == orig[k + 1]
      {
        list := list[x := list[x + 1]];
        x := x + 1;
      }
      assert list[..slabs] == Without(orig, index);
      slabList := slabList[src := list[..slabs]];
    }

    // slab_rebalance_finish: the emptied page goes to class dst, or to the page pool.
    method SlabRebalanceFinish(src: nat, index: nat, dst: nat)
      requires Valid() && SlabsOk(View()) && ValidClass(View(), src) && HasClass(View(), dst) && index < |slabList[src]|
      requires PageWiped(mem, slabList[src][index])
      modifies this
      ensures Valid() && View() == HandOver(old(View()), src, index, dst)
      ensures HandedOver(old(View()), View(), src, index, dst)
    {
      hide SlabsOk, Threaded, Unlisted, PageWiped, Split, Detach, HandOver, HandedOver;
      ghost var before := View();
      HandOverHands(before, src, index, dst);
      var page := slabList[src][index];
      WipedUnlisted(before, page);
      ShiftPages(src, index);
      mem := DropPage(mem, page);
      owner := owner - {page};
      FinishSteps(before, src, index, dst);
      if dst > 0 {
        mem := mem + ZeroPage(page, perslab[dst]);
        SplitSlabPageIntoFreelist(page, dst);
      }
      slabList := slabList[dst := slabList[dst] + [page]];
      owner := owner[page := dst];
    }

    // slab_remove_finish: free() of the page, whose place in the list was slab_index
    method SlabRemoveFinish(src: nat, index: nat)
      requires Valid() && SlabsOk(View()) && ValidClass(View(), src) && index < |slabList[src]|
      requires malloced >= PAGE_BYTES
      modifies this
      ensures Valid() && View() == GiveBack(old(View()), src, index)
      ensures GivenBack(old(View()), View(), src, index)
    {
      hide SlabsOk, Threaded, GivenBack;
      GiveBackGives(View(), src, index);
      var page := slabList[src][index];
      ShiftPages(src, index);
      mem := DropPage(mem, page);
      owner := owner - {page};
      malloced := malloced - PAGE_BYTES;
    }
  }

  lemma FreeAreChunks(sl: Slabs, c: nat)
    requires SlabsOk(sl) && ValidClass(sl, c)
    ensures forall p :: p in sl.free[c] ==> p.Chunk?
  {
    hide PagesOk, MemOk, SlabbedOk;
  }

  lemma WipedUnlisted(sl: Slabs, page: nat)
    requires SlabsOk(sl) && PageWiped(sl.mem, page)
    ensures forall k: nat :: Unlisted(sl.free, Chunk(page, k))
  {
    hide PagesOk, SlabbedOk;
  }

  lemma FinishSteps(sl: Slabs, src: nat, index: nat, dst: nat)
    requires ValidClass(sl, src) && HasClass(sl, dst) && index < |sl.pages[src]|
    ensures var page := sl.pages[src][index];
      var out := Detach(sl, src, index);
      && out == sl.(mem := DropPage(sl.mem, page), owner := sl.owner - {page},
                pages := sl.pages[src := Without(sl.pages[src], index)])
      && (dst == 0 ==>
            HandOver(sl, src, index, dst) == out.(pages := out.pages[dst := out.pages[dst] + [page]],
                owner := out.owner[page := dst]))
      && (dst > 0 ==>
            var zeroed := out.(mem := out.mem + ZeroPage(page, sl.perslab[dst]));
            var split := Split(zeroed, page, dst, sl.perslab[dst]);
            HandOver(sl, src, index, dst) == split.(pages := split.pages[dst := split.pages[dst] + [page]],
                owner := split.owner[page := dst]))
  {
    var out := Detach(sl, src, index);
    if dst > 0 {
      var n := sl.perslab[dst];
      var page := sl.pages[src][index];
      assert out.mem + ZeroPage(page, n) + BlankPage(page, n) == out.mem + BlankPage(page, n);
    }
  }

  // What splitting has done after x chunks.
  ghost function Split(sl: Slabs, page: nat, id: nat, x: nat): Slabs
    requires id < |sl.free|
  {
    sl.(mem := sl.mem + BlankPage(page, x), free := sl.free[id := PageChunks(page, x) + sl.free[id]])
  }

  lemma SplitNone(sl: Slabs, page: nat, id: nat)
    requires id < |sl.free|
    ensures Split(sl, page, id, 0) == sl
  {
    assert PageChunks(page, 0) + sl.free[id] == sl.free[id];
    assert sl.mem + BlankPage(page, 0) == sl.mem;
  }

  lemma SplitStep(sl: Slabs, page: nat, id: nat, x: nat)
    requires ValidClass(sl, id) && Chunk(page, x) in sl.mem && sl.mem[Chunk(page, x)] == ZERO
        && Unlisted(sl.free, Chunk(page, x))
    ensures var t := Split(sl, page, id, x);
      && ValidClass(t, id) && Chunk(page, x) in t.mem && Unlisted(t.free, Chunk(page, x))
      && FreeChunk(t, Chunk(page, x), 0, id) == Split(sl, page, id, x + 1)
  {
    StillUnlisted(sl.free, id, page, x);
    hide Unlisted;
    var t := Split(sl, page, id, x);
    var p := Chunk(page, x);
    assert t.mem[p] == ZERO;
    assert PageChunks(page, x + 1) == [p] + PageChunks(page, x);
    assert [p] + (PageChunks(page, x) + sl.free[id]) == PageChunks(page, x + 1) + sl.free[id];
    assert (sl.mem + BlankPage(page, x))[p := BLANK] == sl.mem + BlankPage(page, x + 1);
    assert t.requested[id := t.requested[id] - 0] == t.requested;
  }

  // memset of a page
  function ZeroPage(page: nat, n: nat): (m: map<Ptr, Item>)
    ensures forall p :: p in m <==> p.Chunk? && p.page == page && p.idx < n
    ensures forall p :: p in m ==> m[p] == ZERO
  {
    map k: nat | k < n :: Chunk(page, k) := ZERO
  }

  lemma NewSlabRefused(sl: Slabs, c: nat, raw: nat)
    requires ValidClass(sl, c) && NoRoom(sl, c)
    ensures NewSlab(sl, c, raw) == sl
  {
  }

  lemma TakePageFrame(sl: Slabs, raw: nat)
    requires HasClass(sl, 0)
    ensures var sl1 := TakePage(sl, raw).0;
      && sl1.mem == sl.mem && sl1.free == sl.free && sl1.requested == sl.requested && sl1.perslab == sl.perslab
      && sl1.limit == sl.limit && |sl1.pages| == |sl.pages|
  {
  }

  lemma NewSlabGranted(sl: Slabs, c: nat, raw: nat)
    requires ValidClass(sl, c) && !NoRoom(sl, c)
    ensures var (sl1, page) := TakePage(sl, raw);
      var zeroed := sl1.(mem := sl1.mem + ZeroPage(page, sl.perslab[c]));
      var split := Split(zeroed, page, c, sl.perslab[c]);
      NewSlab(sl, c, raw) == split.(pages := split.pages[c := split.pages[c] + [page]], owner := split.owner[page := c])
  {
    var (sl1, page) := TakePage(sl, raw);
    var n := sl.perslab[c];
    assert sl1.mem + ZeroPage(page, n) + BlankPage(page, n) == sl1.mem + BlankPage(page, n);
  }

  lemma ReclaimOk(sl: Slabs, size: nat, c: nat)
    requires SlabsOk(sl) && ValidClass(sl, c) && sl.free[c] != []
    ensures sl.free[c][0] in sl.mem && SlabsOk(Wipe(Uncharge(Pop(sl, size, c), c, size), sl.free[c][0]))
  {
    hide PagesOk, FreeOk, SlabbedOk;
    assert sl.free[c][0] in sl.free[c];
    PopOk(sl, size, c);
    PopHead(sl, size, c);
    WipeSlabs(Pop(sl, size, c), sl.free[c][0], Wipe(Uncharge(Pop(sl, size, c), c, size),
        sl.free[c][0]).mem[sl.free[c][0]]);
  }

  lemma PopHead(sl: Slabs, size: nat, c: nat)
    requires SlabsOk(sl) && ValidClass(sl, c) && sl.free[c] != []
    ensures sl.free[c][0] in sl.mem && sl.free[c][0] in Pop(sl, size, c).mem
        && !Pop(sl, size, c).mem[sl.free[c][0]].flags.slabbed
  {
    HeadInUse(sl, c);
    hide SlabsOk;
  }

  lemma Live(sl: Slabs)
    requires SlabsOk(sl)
    ensures FreeLive(sl.free, sl.mem)
  {
    hide PagesOk, MemOk, SlabbedOk;
  }

  lemma HeadInUse(sl: Slabs, c: nat)
    requires SlabsOk(sl) && c < |sl.free| && sl.free[c] != []
    ensures sl.free[c][0] in sl.mem
  {
    hide PagesOk, MemOk, SlabbedOk;
    assert sl.free[c][0] in sl.free[c];
  }

  // A new page, from malloc or from the pool, has no chunk on a freelist.
  lemma NewPageUnlisted(sl: Slabs, raw: nat)
    requires SlabsOk(sl) && raw !in sl.owner
    ensures forall k: nat :: Unlisted(sl.free, Chunk(TakePage(sl, raw).1, k))
    ensures forall k: nat :: Chunk(TakePage(sl, raw).1, k) !in sl.mem
  {
    if |sl.pages[0]| > 0 { PoolTop(sl.pages, sl.owner); }
    hide PagesOk, SlabbedOk;
  }

  lemma StillUnlisted(free: seq<seq<Ptr>>, c: nat, page: nat, x: nat)
    requires c < |free| && Unlisted(free, Chunk(page, x))
    ensures Unlisted(free[c := PageChunks(page, x) + free[c]], Chunk(page, x))
  {
    PageChunksSet(page, x);
  }

  // The head is taken off: slots = it->next; if (it->next) it->next->prev = 0
  lemma PopThreaded(prev: Words, next: Words, slots: seq<Ptr>, slCurr: seq<nat>, free: seq<seq<Ptr>>, c: nat)
    requires Threaded(prev, next, slots, slCurr, free) && c < |free| && free[c] != []
    ensures var p := free[c][0];
      var n := At(next, p);
      && slots[c] == p && slCurr[c] > 0
      && Threaded(if n == Null then prev else prev[n := Null], next,
                  slots[c := n], slCurr[c := slCurr[c] - 1], free[c := free[c][1..]])
  {
    hide Apart, IsList, CutPrev, CutNext, At, NoDup;
    var s := free[c];
    PopList(prev, next, s);
    var n := At(next, s[0]);
    OtherLists(prev, next, if n == Null then prev else prev[n := Null], next, free, c);
    assert forall q :: q in s[1..] ==> q in s;
    ApartShrink(free, c, s[1..]);
  }

  lemma PopList(prev: Words, next: Words, s: seq<Ptr>)
    requires IsList(prev, next, s) && s != []
    ensures var n := At(next, s[0]);
      var prev1 := if n == Null then prev else prev[n := Null];
      && IsList(prev1, next, s[1..]) && n == Head(s[1..])
      && forall q :: At(prev1, q) != At(prev, q) ==> q in s
  {
    Cut(prev, next, s, 0);
    Neighbours(prev, next, s, 0);
    assert Without(s, 0) == s[1..];
  }
}
