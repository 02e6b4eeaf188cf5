// Each allocator operation keeps pages, chunks and freelists consistent.
module SlabProofs {
  import opened Memory
  import opened SlabSpec
  import opened EngineInv

  // A chunk is put at the head of the freelist of its page's class.
  lemma PushFree(free: seq<seq<Ptr>>, mem: map<Ptr, Item>, owner: map<nat, nat>, p: Ptr, c: nat, it: Item)
    requires FreeOk(free, mem, owner) && SlabbedOk(free, mem, owner) && c < |free|
    requires p in mem && !mem[p].flags.slabbed && p.Chunk? && p.page in owner && owner[p.page] == c
        && it.flags == SLABBED && it.clsid == 0
    ensures FreeOk(free[c := [p] + free[c]], mem[p := it], owner)
    ensures SlabbedOk(free[c := [p] + free[c]], mem[p := it], owner)
  {
    var r := free[c := [p] + free[c]];
    assert p !in free[c];
    assert forall q :: q in r[c] <==> q == p || q in free[c];
    assert FreeOk(r, mem[p := it], owner) by { hide SlabbedOk; }
    assert SlabbedOk(r, mem[p := it], owner) by { hide FreeOk; }
  }

  lemma FreeChunkOk(sl: Slabs, p: Ptr, size: nat, c: nat)
    requires SlabsOk(sl) && ValidClass(sl, c) && p in sl.mem && !sl.mem[p].flags.slabbed
    requires sl.owner[p.page] == c
    ensures SlabsOk(FreeChunk(sl, p, size, c))
  {
    PushFree(sl.free, sl.mem, sl.owner, p, c, sl.mem[p].(flags := SLABBED, clsid := 0));
    hide PagesOk, FreeOk, SlabbedOk;
  }

  lemma PopFree(free: seq<seq<Ptr>>, mem: map<Ptr, Item>, owner: map<nat, nat>, c: nat, it: Item)
    requires FreeOk(free, mem, owner) && SlabbedOk(free, mem, owner) && c < |free| && free[c] != []
    requires !it.flags.slabbed
    ensures free[c][0] in mem
    ensures FreeOk(free[c := free[c][1..]], mem[free[c][0] := it], owner)
    ensures SlabbedOk(free[c := free[c][1..]], mem[free[c][0] := it], owner)
  {
    var p := free[c][0];
    var r := free[c := free[c][1..]];
    assert p in free[c];
    assert forall q :: q in free[c] <==> q == p || q in r[c];
    assert FreeOk(r, mem[p := it], owner) by { hide SlabbedOk; }
    assert SlabbedOk(r, mem[p := it], owner) by { hide FreeOk; }
  }

  lemma PopOk(sl: Slabs, size: nat, c: nat)
    requires SlabsOk(sl) && ValidClass(sl, c) && sl.free[c] != []
    ensures sl.free[c][0] in sl.mem && SlabsOk(Pop(sl, size, c))
  {
    var p := sl.free[c][0];
    assert p in sl.free[c];
    PopFree(sl.free, sl.mem, sl.owner, c,
            sl.mem[p].(flags := sl.mem[p].flags.(slabbed := false), refcount := 1, ntotal := size));
    hide PagesOk, SlabbedOk;
  }

  lemma PageChunksSet(page: nat, n: nat)
    ensures NoDup(PageChunks(page, n))
    ensures forall q: Ptr :: q in PageChunks(page, n) <==> q.Chunk? && q.page == page && q.idx < n
  {
    forall q: Ptr | q.Chunk? && q.page == page && q.idx < n ensures q in PageChunks(page, n) {
      assert PageChunks(page, n)[n - 1 - q.idx] == q;
    }
  }

  lemma CarvePages(pages: seq<seq<nat>>, owner: map<nat, nat>, page: nat, c: nat)
    requires PagesOk(pages, owner) && c < |pages| && page !in owner
    ensures PagesOk(pages[c := pages[c] + [page]], owner[page := c])
  {
    var r := pages[c := pages[c] + [page]];
    assert forall g :: g in r[c] <==> g in pages[c] || g == page;
  }

  lemma CarveMem(mem: map<Ptr, Item>, owner: map<nat, nat>, perslab: seq<nat>, page: nat, c: nat)
    requires MemOk(mem, owner, perslab) && 1 <= c < |perslab| && page !in owner
    ensures MemOk(mem + BlankPage(page, perslab[c]), owner[page := c], perslab)
  {
  }

  lemma CarveFree(free: seq<seq<Ptr>>, mem: map<Ptr, Item>, owner: map<nat, nat>, page: nat, c: nat, n: nat)
    requires FreeOk(free, mem, owner) && c < |free| && page !in owner
    ensures FreeOk(free[c := PageChunks(page, n) + free[c]], mem + BlankPage(page, n), owner[page := c])
  {
    PageChunksSet(page, n);
    var chunks := PageChunks(page, n);
    var r := free[c := chunks + free[c]];
    forall i, j | 0 <= i < j < |r[c]| ensures r[c][i] != r[c][j] {
      if i < n <= j {
        assert r[c][i] in chunks && r[c][j] in free[c];
      }
    }
    forall d, p | 0 <= d < |r| && p in r[d]
      ensures p in mem + BlankPage(page, n) && p.Chunk? && p.page in owner[page := c]
              && owner[page := c][p.page] == d && (mem + BlankPage(page, n))[p].flags == SLABBED
              && (mem + BlankPage(page, n))[p].clsid == 0
    {
      if d == c && p in chunks {
      } else {
        assert p in free[d];
      }
    }
  }

  lemma CarveSlabbed(sl: Slabs, page: nat, c: nat)
    requires MemOk(sl.mem, sl.owner, sl.perslab) && SlabbedOk(sl.free, sl.mem, sl.owner)
    requires ValidClass(sl, c) && page !in sl.owner
    ensures SlabbedOk(Carve(sl, page, c).free, Carve(sl, page, c).mem, Carve(sl, page, c).owner)
  {
    var r := Carve(sl, page, c);
    PageChunksSet(page, sl.perslab[c]);
    assert forall q :: q in r.free[c] <==> q in PageChunks(page, sl.perslab[c]) || q in sl.free[c];
  }

  // A page nobody uses enters class c.
  lemma CarveOk(sl: Slabs, page: nat, c: nat)
    requires Shape(sl) && PagesOk(sl.pages, sl.owner) && MemOk(sl.mem, sl.owner, sl.perslab)
    requires FreeOk(sl.free, sl.mem, sl.owner) && SlabbedOk(sl.free, sl.mem, sl.owner)
    requires ValidClass(sl, c) && page !in sl.owner && sl.malloced == PAGE_BYTES * (|sl.owner| + 1)
    ensures SlabsOk(Carve(sl, page, c))
  {
    hide PagesOk, MemOk, FreeOk, SlabbedOk;
    CarvePages(sl.pages, sl.owner, page, c);
    CarveMem(sl.mem, sl.owner, sl.perslab, page, c);
    CarveFree(sl.free, sl.mem, sl.owner, page, c, sl.perslab[c]);
    CarveSlabbed(sl, page, c);
    var r := Carve(sl, page, c);
    assert r.owner == sl.owner[page := c] && |r.owner| == |sl.owner| + 1;
  }

  lemma RemovePage(pages: seq<seq<nat>>, owner: map<nat, nat>, c: nat, i: nat)
    requires PagesOk(pages, owner) && c < |pages| && i < |pages[c]|
    ensures PagesOk(pages[c := Without(pages[c], i)], owner - {pages[c][i]})
  {
    var g := pages[c][i];
    var r := pages[c := Without(pages[c], i)];
    WithoutFacts(pages[c], i);
    assert g in pages[c] && owner[g] == c;
    assert forall d, h :: 0 <= d < |r| && h in r[d] ==> h in pages[d] && h != g;
    assert forall h :: h in owner && h != g ==> h in r[owner[h]];
  }

  lemma RemoveCount(owner: map<nat, nat>, g: nat)
    requires g in owner
    ensures |owner - {g}| == |owner| - 1
  {
    assert (owner - {g}).Keys == owner.Keys - {g};
    assert |(owner - {g}).Keys| == |owner.Keys| - 1;
  }

  // A page of the pool holds no chunks.
  lemma PoolPageEmpty(sl: Slabs, g: nat)
    requires MemOk(sl.mem, sl.owner, sl.perslab) && g in sl.owner && sl.owner[g] == 0
    ensures MemOk(sl.mem, sl.owner - {g}, sl.perslab)
    ensures FreeOk(sl.free, sl.mem, sl.owner) ==> FreeOk(sl.free, sl.mem, sl.owner - {g})
    ensures SlabbedOk(sl.free, sl.mem, sl.owner) ==> SlabbedOk(sl.free, sl.mem, sl.owner - {g})
  {
  }

  lemma PoolTop(pages: seq<seq<nat>>, owner: map<nat, nat>)
    requires PagesOk(pages, owner) && |pages| > 0 && |pages[0]| > 0
    ensures var g := pages[0][|pages[0]| - 1];
      g in owner && owner[g] == 0 && PagesOk(pages[0 := pages[0][..|pages[0]| - 1]], owner - {g})
  {
    RemovePage(pages, owner, 0, |pages[0]| - 1);
    assert Without(pages[0], |pages[0]| - 1) == pages[0][..|pages[0]| - 1];
  }

  lemma NewSlabOk(sl: Slabs, c: nat, raw: nat)
    requires SlabsOk(sl) && ValidClass(sl, c) && raw !in sl.owner
    ensures SlabsOk(NewSlab(sl, c, raw))
  {
    hide PagesOk, MemOk, FreeOk, SlabbedOk;
    if !NoRoom(sl, c) {
      var (sl1, page) := TakePage(sl, raw);
      if |sl.pages[0]| > 0 {
        PoolTop(sl.pages, sl.owner);
        PoolPageEmpty(sl, page);
        RemoveCount(sl.owner, page);
      }
      CarveOk(sl1, page, c);
    }
  }

  lemma AllocOk(sl: Slabs, size: nat, c: nat, newPage: bool, raw: nat)
    requires SlabsOk(sl) && raw !in sl.owner
    ensures FreeLive(sl.free, sl.mem) && SlabsOk(Alloc(sl, size, c, newPage, raw).0)
  {
    if ValidClass(sl, c) {
      var sl1 := if sl.free[c] == [] && newPage then NewSlab(sl, c, raw) else sl;
      if sl.free[c] == [] && newPage { NewSlabOk(sl, c, raw); }
      if sl1.free[c] != [] { PopOk(sl1, size, c); }
    }
  }
}
