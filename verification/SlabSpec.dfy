// Slab pages, classes and freelists: what each allocator function does, on values.
module SlabSpec {
  import opened Memory

  // settings.item_size_max: with slab_reassign on, every page has this size.
  const PAGE_BYTES: nat := 1024 * 1024

  // slabclass[], one sequence for each field: free[c] is the freelist of class c from its slots pointer on, so
  // sl_curr is |free[c]|; pages[c] is slab_list[0..slabs]. Class 0 is the global page pool. owner tells in which
  // class's list a page is; the allocator has no such table, it is bookkeeping for the proofs.
  datatype Slabs = Slabs(perslab: seq<nat>, free: seq<seq<Ptr>>, pages: seq<seq<nat>>, requested: seq<int>,
                         owner: map<nat, nat>, mem: map<Ptr, Item>, malloced: nat, limit: nat)

  predicate HasClass(sl: Slabs, c: nat) {
    c < |sl.perslab| && c < |sl.free| && c < |sl.pages| && c < |sl.requested|
  }

  // A class other than the page pool.
  predicate ValidClass(sl: Slabs, c: nat) { c >= 1 && HasClass(sl, c) }

  // Every free chunk lies in a page that is in use.
  ghost predicate FreeLive(free: seq<seq<Ptr>>, mem: map<Ptr, Item>) {
    forall c, p :: 0 <= c < |free| && p in free[c] ==> p in mem
  }

  // do_slabs_free
  function FreeChunk(sl: Slabs, p: Ptr, size: nat, c: nat): Slabs
    requires p in sl.mem && ValidClass(sl, c)
  {
    sl.(mem := sl.mem[p := sl.mem[p].(flags := SLABBED, clsid := 0)],
        free := sl.free[c := [p] + sl.free[c]],
        requested := sl.requested[c := sl.requested[c] - size])
  }

  // The first n chunks of a page, last one first: the order in which splitting leaves them on the freelist.
  function PageChunks(page: nat, n: nat): (s: seq<Ptr>)
    ensures |s| == n && forall i :: 0 <= i < n ==> s[i] == Chunk(page, n - 1 - i)
  {
    seq(n, i requires 0 <= i < n => Chunk(page, n - 1 - i))
  }

  function BlankPage(page: nat, n: nat): (m: map<Ptr, Item>)
    ensures forall p :: p in m <==> p.Chunk? && p.page == page && p.idx < n
    ensures forall p :: p in m ==> m[p] == BLANK
  {
    map k: nat | k < n :: Chunk(page, k) := BLANK
  }

  // memset and split_slab_page_into_freelist: a page enters class c.
  function Carve(sl: Slabs, page: nat, c: nat): Slabs
    requires ValidClass(sl, c)
  {
    sl.(mem := sl.mem + BlankPage(page, sl.perslab[c]),
        owner := sl.owner[page := c],
        free := sl.free[c := PageChunks(page, sl.perslab[c]) + sl.free[c]],
        pages := sl.pages[c := sl.pages[c] + [page]])
  }

  // The limit stops a class that owns a page already, unless the pool has one to give.
  predicate NoRoom(sl: Slabs, c: nat)
    requires HasClass(sl, c)
  {
    sl.limit > 0 && sl.malloced + PAGE_BYTES > sl.limit && |sl.pages[c]| > 0 && |sl.pages[0]| == 0
  }

  // The page for a new slab: the last one of the pool, or raw, the one malloc returns.
  function TakePage(sl: Slabs, raw: nat): (Slabs, nat)
    requires HasClass(sl, 0)
  {
    var pool := sl.pages[0];
    if |pool| > 0 then
      (sl.(pages := sl.pages[0 := pool[..|pool| - 1]], owner := sl.owner - {pool[|pool| - 1]}), pool[|pool| - 1])
    else (sl.(malloced := sl.malloced + PAGE_BYTES), raw)
  }

  // do_slabs_newslab
  function NewSlab(sl: Slabs, c: nat, raw: nat): Slabs
    requires ValidClass(sl, c)
  {
    if NoRoom(sl, c) then sl
    else
      var (sl1, page) := TakePage(sl, raw);
      Carve(sl1, page, c)
  }

  // Takes the chunk at the head of a freelist for an item of the given size.
  function Pop(sl: Slabs, size: nat, c: nat): Slabs
    requires ValidClass(sl, c) && sl.free[c] != [] && sl.free[c][0] in sl.mem
  {
    var p := sl.free[c][0];
    sl.(mem := sl.mem[p := sl.mem[p].(flags := sl.mem[p].flags.(slabbed := false), refcount := 1, ntotal := size)],
        free := sl.free[c := sl.free[c][1..]],
        requested := sl.requested[c := sl.requested[c] + size])
  }

  lemma NewSlabLive(sl: Slabs, c: nat, raw: nat)
    requires ValidClass(sl, c) && FreeLive(sl.free, sl.mem)
    ensures FreeLive(NewSlab(sl, c, raw).free, NewSlab(sl, c, raw).mem)
  {
    var r := NewSlab(sl, c, raw);
    if !NoRoom(sl, c) {
      var (sl1, page) := TakePage(sl, raw);
      assert r.free == sl.free[c := PageChunks(page, sl.perslab[c]) + sl.free[c]];
    }
  }

  // do_slabs_alloc, with SLABS_ALLOC_NO_NEWPAGE when newPage is false.
  function Alloc(sl: Slabs, size: nat, c: nat, newPage: bool, raw: nat): (r: (Slabs, Ptr))
    requires FreeLive(sl.free, sl.mem)
    ensures r.1 != Null ==> ValidClass(sl, c) && r.1 in r.0.mem && FreeLive(r.0.free, r.0.mem)
  {
    if !ValidClass(sl, c) then (sl, Null)
    else
      NewSlabLive(sl, c, raw);
      var sl1 := if sl.free[c] == [] && newPage then NewSlab(sl, c, raw) else sl;
      if sl1.free[c] == [] then (sl1, Null) else (Pop(sl1, size, c), sl1.free[c][0])
  }

  // The chunk, off its freelist by now, is marked as wiped for the move.
  function Wipe(sl: Slabs, p: Ptr): Slabs
    requires p in sl.mem
  {
    sl.(mem := sl.mem[p := sl.mem[p].(flags := CLEARED, refcount := 0)])
  }

  function Uncharge(sl: Slabs, c: nat, size: nat): Slabs
    requires HasClass(sl, c)
  {
    sl.(requested := sl.requested[c := sl.requested[c] - size])
  }

  // slab_rebalance_alloc: chunks of the page being emptied are wiped on the way; at most n chunks are tried.
  function RescueAlloc(sl: Slabs, size: nat, c: nat, start: nat, n: nat): (Slabs, Ptr)
    requires FreeLive(sl.free, sl.mem)
    decreases n
  {
    if n == 0 then (sl, Null)
    else
      var (sl1, p) := Alloc(sl, size, c, false, 0);
      if p == Null then (sl1, Null)
      else if p.Chunk? && p.page == start then
        RescueAlloc(Wipe(Uncharge(sl1, c, size), p), size, c, start, n - 1)
      else (sl1, p)
  }

  // The mover takes a free chunk off its freelist.
  function TakeFree(sl: Slabs, p: Ptr, c: nat): Slabs
    requires ValidClass(sl, c)
  {
    sl.(free := sl.free[c := Erase(sl.free[c], p)])
  }

  function DropPage(m: map<Ptr, Item>, page: nat): map<Ptr, Item> {
    map p | p in m && !(p.Chunk? && p.page == page) :: m[p]
  }

  // A page leaves its class.
  function Detach(sl: Slabs, src: nat, index: nat): Slabs
    requires ValidClass(sl, src) && index < |sl.pages[src]|
  {
    var page := sl.pages[src][index];
    sl.(mem := DropPage(sl.mem, page), owner := sl.owner - {page},
        pages := sl.pages[src := Without(sl.pages[src], index)])
  }

  // slab_rebalance_finish: page number index of class src goes to class dst, or to the page pool.
  function HandOver(sl: Slabs, src: nat, index: nat, dst: nat): Slabs
    requires ValidClass(sl, src) && HasClass(sl, dst) && index < |sl.pages[src]|
  {
    var page := sl.pages[src][index];
    var out := Detach(sl, src, index);
    if dst == 0 then out.(owner := out.owner[page := 0], pages := out.pages[0 := out.pages[0] + [page]])
    else Carve(out, page, dst)
  }

  // slab_remove_finish: the page goes back to the system.
  function GiveBack(sl: Slabs, src: nat, index: nat): Slabs
    requires ValidClass(sl, src) && index < |sl.pages[src]| && sl.malloced >= PAGE_BYTES
  {
    Detach(sl, src, index).(malloced := sl.malloced - PAGE_BYTES)
  }
}
