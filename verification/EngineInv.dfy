// The invariant of the storage engine.
module EngineInv {
  import opened Memory
  import opened Linkage
  import opened SlabSpec
  import opened Engine

  // ---- pages, chunks and freelists ----

  ghost predicate Shape(sl: Slabs) {
    && |sl.free| == |sl.pages| == |sl.requested| == |sl.perslab| >= 1
    && sl.free[0] == []
    && forall c :: 1 <= c < |sl.perslab| ==> sl.perslab[c] >= 1
  }

  // A page is in exactly one page list, once.
  ghost predicate PagesOk(pages: seq<seq<nat>>, owner: map<nat, nat>) {
    && (forall c, g :: 0 <= c < |pages| && g in pages[c] ==> g in owner && owner[g] == c)
    && (forall c :: 0 <= c < |pages| ==> NoDup(pages[c]))
    && (forall g :: g in owner ==> owner[g] < |pages| && g in pages[owner[g]])
  }

  predicate InUse(owner: map<nat, nat>, perslab: seq<nat>, p: Ptr) {
    p.Chunk? && p.page in owner && 1 <= owner[p.page] < |perslab| && p.idx < perslab[owner[p.page]]
  }

  ghost predicate MemOk(mem: map<Ptr, Item>, owner: map<nat, nat>, perslab: seq<nat>) {
    forall p :: p in mem <==> InUse(owner, perslab, p)
  }

  ghost predicate FreeOk(free: seq<seq<Ptr>>, mem: map<Ptr, Item>, owner: map<nat, nat>) {
    && (forall c :: 0 <= c < |free| ==> NoDup(free[c]))
    && (forall c, p :: 0 <= c < |free| && p in free[c] ==>
          p in mem && p.Chunk? && p.page in owner && owner[p.page] == c && mem[p].flags == SLABBED && mem[p].clsid == 0)
  }

  // ITEM_SLABBED alone means on the freelist of the page's class; with ITEM_FETCHED it means wiped.
  ghost predicate SlabbedOk(free: seq<seq<Ptr>>, mem: map<Ptr, Item>, owner: map<nat, nat>) {
    forall p :: p in mem && mem[p].flags.slabbed ==>
      if mem[p].flags == CLEARED then mem[p].refcount == 0
      else p.Chunk? && p.page in owner && owner[p.page] < |free| && p in free[owner[p.page]]
  }

  ghost predicate SlabsOk(sl: Slabs) {
    && Shape(sl) && PagesOk(sl.pages, sl.owner) && MemOk(sl.mem, sl.owner, sl.perslab)
    && FreeOk(sl.free, sl.mem, sl.owner) && SlabbedOk(sl.free, sl.mem, sl.owner)
    && sl.malloced == PAGE_BYTES * |sl.owner|
  }

  // ---- items ----

  function MoverRef(m: Mover, p: Ptr): nat {
    match m
    case Rest => 0
    case SawLinked(_, _) => 0
    case Pinned(it, _) => if p == it then 1 else 0
    case Leaving(it, _, copy) => if p == it || (p == copy && p != Null) then 1 else 0
    case Left(it, _) => if p == it then 1 else 0
    case Unlocked(it) => if p == it then 1 else 0
  }

  function LinkRef(it: Item): nat { if it.flags.linked then 1 else 0 }

  // A reference count is the link, the references workers hold and the mover's.
  ghost predicate RefOk(mem: map<Ptr, Item>, held: map<Ptr, nat>, m: Mover) {
    forall p :: p in mem && !mem[p].flags.slabbed ==>
      mem[p].refcount == HeldIn(held, p) + LinkRef(mem[p]) + MoverRef(m, p)
  }

  ghost predicate HeldOk(mem: map<Ptr, Item>, held: map<Ptr, nat>) {
    forall p :: HeldIn(held, p) > 0 ==> p in mem && !mem[p].flags.slabbed
  }

  // The class an item names is the class its page belongs to.
  ghost predicate HomeOk(mem: map<Ptr, Item>, owner: map<nat, nat>) {
    forall p :: FilledIn(mem, p) ==> mem[p].clsid == OwnerIn(owner, p)
  }

  // ---- the mover ----

  predicate IsCleared(mem: map<Ptr, Item>, p: Ptr) { p in mem && mem[p].flags == CLEARED }

  // Wiped chunks exist only in the page being emptied.
  ghost predicate ClearedOk(mem: map<Ptr, Item>, rb: Rebal) {
    forall p :: IsCleared(mem, p) ==> rb.signal == 2 && p.Chunk? && p.page == rb.start
  }

  // While a move is on, the page is at its place in the list of the source class, which keeps another page.
  ghost predicate PageOk(sl: Slabs, rb: Rebal) {
    && (rb.signal != 2 ==> rb.done == 0)
    && (rb.signal != 0 ==> ValidClass(sl, rb.src) && HasClass(sl, rb.dst) && (rb.remove || rb.src != rb.dst))
    && (rb.signal == 2 ==>
          && ValidClass(sl, rb.src) && rb.index < |sl.pages[rb.src]| && |sl.pages[rb.src]| >= 2
          && sl.pages[rb.src][rb.index] == rb.start && (rb.remove || rb.index == 0)
          && (rb.done == 0 ==> rb.pos < sl.perslab[rb.src]))
  }

  ghost predicate ClearedUpTo(mem: map<Ptr, Item>, page: nat, n: nat) {
    forall k: nat :: k < n ==> IsCleared(mem, Chunk(page, k))
  }

  // Behind slab_pos every chunk is wiped, or a busy one was counted; at the end all are wiped.
  ghost predicate BehindOk(mem: map<Ptr, Item>, rb: Rebal, perslab: nat) {
    && (rb.signal == 2 && rb.done == 0 && rb.busy == 0 ==> ClearedUpTo(mem, rb.start, rb.pos))
    && (rb.signal == 2 && rb.done > 0 ==> ClearedUpTo(mem, rb.start, perslab))
  }

  // The rescue chunk: outside the page, in the same class, in nobody else's hands.
  ghost predicate CopyOk(mem: map<Ptr, Item>, owner: map<nat, nat>, held: map<Ptr, nat>, rb: Rebal, copy: Ptr) {
    && copy in mem && copy.Chunk? && copy.page != rb.start && OwnerIn(owner, copy) == rb.src
    && !mem[copy].flags.slabbed && !mem[copy].flags.linked && mem[copy].clsid == 0
    && HeldIn(held, copy) == 0
  }

  ghost predicate MoverOk(mem: map<Ptr, Item>, owner: map<nat, nat>, held: map<Ptr, nat>, rb: Rebal, m: Mover) {
    && (m.Rest? || (rb.signal == 2 && rb.done == 0 && m.it == Chunk(rb.start, rb.pos) && FilledIn(mem, m.it)))
    && match m
       case Rest => true
       case SawLinked(it, key) => mem[it].key == key
       case Pinned(it, key) => mem[it].key == key && LinkedIn(mem, it) && HeldIn(held, it) == 0
       case Leaving(it, key, copy) =>
         && mem[it].key == key && LinkedIn(mem, it) && HeldIn(held, it) == 0
         && (copy != Null ==> CopyOk(mem, owner, held, rb, copy) && mem[copy].ntotal == mem[it].ntotal)
       case Left(it, key) => mem[it].key == key && !LinkedIn(mem, it) && HeldIn(held, it) == 0
       case Unlocked(it) => !LinkedIn(mem, it) && HeldIn(held, it) == 0
  }

  // ---- all of it, in four groups ----

  ghost predicate Refs(mem: map<Ptr, Item>, held: map<Ptr, nat>, m: Mover) { RefOk(mem, held, m) && HeldOk(mem, held) }

  ghost predicate Links(mem: map<Ptr, Item>, table: map<Key, Ptr>, lru: map<Queue, seq<Ptr>>, owner: map<nat, nat>) {
    LinkedOk(mem) && TableOk(mem, table) && QueuesOnce(lru) && QueuedOk(mem, lru) && HomeOk(mem, owner)
  }

  function SrcPerslab(sl: Slabs, rb: Rebal): nat { if rb.src < |sl.perslab| then sl.perslab[rb.src] else 0 }

  ghost predicate Move(sl: Slabs, held: map<Ptr, nat>, rb: Rebal, m: Mover) {
    && ClearedOk(sl.mem, rb) && PageOk(sl, rb) && BehindOk(sl.mem, rb, SrcPerslab(sl, rb))
    && MoverOk(sl.mem, sl.owner, held, rb, m)
  }

  ghost predicate Inv(s: State) {
    && SlabsOk(s.sl) && Refs(s.sl.mem, s.held, s.mover) && Links(s.sl.mem, s.table, s.lru, s.sl.owner)
    && Move(s.sl, s.held, s.rb, s.mover)
  }
}
