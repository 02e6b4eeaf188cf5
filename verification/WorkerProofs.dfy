// Every step of a worker thread keeps the invariant.
module WorkerProofs {
  import opened Memory
  import opened Linkage
  import opened SlabSpec
  import opened Engine
  import opened EngineInv
  import opened SlabProofs
  import opened EditProofs

  // A worker can reach an item only while the mover has no hold on it.
  lemma Unheld(s: State, p: Ptr)
    requires Inv(s) && p in s.sl.mem && !s.sl.mem[p].flags.slabbed
    requires Held(s, p) > 0 || (Linked(s, p) && ItemLockFree(s, s.sl.mem[p].key)) || s.sl.mem[p].refcount == 0
    ensures MoverRef(s.mover, p) == 0
  {
    hide SlabsOk, Links, Refs;
    RefFacts(s.sl.mem, s.held, s.mover, p);
    hide ClearedOk, BehindOk, PageOk;
  }

  lemma ChunkFacts(sl: Slabs, p: Ptr)
    requires SlabsOk(sl) && p in sl.mem
    ensures p.Chunk? && p.page in sl.owner && ValidClass(sl, sl.owner[p.page]) && p.idx < sl.perslab[sl.owner[p.page]]
  {
    hide PagesOk, FreeOk, SlabbedOk;
  }

  lemma FillKeeps(s: State, p: Ptr, key: Key, seg: Segment, content: Content, useCas: bool)
    requires Inv(s) && Guard(s, SFill(p, key, seg, content, useCas))
    ensures Inv(DoFill(s, p, key, seg, content, useCas))
  {
    hide SlabsOk, Refs, Links, Move;
    var o := s.sl.mem[p];
    RefFacts(s.sl.mem, s.held, s.mover, p);
    LinkedFacts(s.sl.mem, s.table, s.lru, s.sl.owner, p);
    Unheld(s, p);
    var n := o.(clsid := OwnerIn(s.sl.owner, p), seg := seg, key := key, content := content,
                    flags := NO_FLAGS.(cas := useCas));
    EditSlabs(s.sl, p, n);
    KeepRefs(s.sl.mem, s.held, s.mover, p, n);
    EditMove(s.sl, s.held, s.rb, s.mover, p, n, s.held);
    EditUnlinked(s.sl.mem, s.table, s.lru, s.sl.owner, p, n);
  }

  lemma LinkKeeps(s: State, p: Ptr)
    requires Inv(s) && Guard(s, SLink(p))
    ensures Inv(DoLink(s, p))
  {
    hide SlabsOk, Refs, Links, Move;
    var o := s.sl.mem[p];
    RefFacts(s.sl.mem, s.held, s.mover, p);
    LinkedFacts(s.sl.mem, s.table, s.lru, s.sl.owner, p);
    Unheld(s, p);
    var n := o.(flags := o.flags.(linked := true), refcount := o.refcount + 1);
    EditSlabs(s.sl, p, n);
    KeepRefs(s.sl.mem, s.held, s.mover, p, n);
    EditMove(s.sl, s.held, s.rb, s.mover, p, n, s.held);
    LinkLinks(s.sl.mem, s.table, s.lru, s.sl.owner, p, n);
  }

  lemma UnlinkKeeps(s: State, p: Ptr)
    requires Inv(s) && Guard(s, SUnlink(p))
    ensures Inv(DoUnlink(s, p))
  {
    hide SlabsOk, Refs, Links, Move;
    var o := s.sl.mem[p];
    RefFacts(s.sl.mem, s.held, s.mover, p);
    LinkedFacts(s.sl.mem, s.table, s.lru, s.sl.owner, p);
    Unheld(s, p);
    var n := o.(flags := o.flags.(linked := false));
    EditSlabs(s.sl, p, n);
    EditRefs(s.sl.mem, s.held, s.mover, p, n, Held(s, p) + 1);
    EditMove(s.sl, s.held, s.rb, s.mover, p, n, s.held[p := Held(s, p) + 1]);
    UnlinkLinks(s.sl.mem, s.table, s.lru, s.sl.owner, p, n);
  }

  lemma GetKeeps(s: State, p: Ptr, fetch: bool)
    requires Inv(s) && Guard(s, SGet(p, fetch))
    ensures Inv(DoGet(s, p, fetch))
  {
    hide SlabsOk, Refs, Links, Move;
    var o := s.sl.mem[p];
    RefFacts(s.sl.mem, s.held, s.mover, p);
    LinkedFacts(s.sl.mem, s.table, s.lru, s.sl.owner, p);
    Unheld(s, p);
    var n := o.(flags := if fetch then o.flags.(fetched := true, active := true) else o.flags,
                    refcount := o.refcount + 1);
    EditSlabs(s.sl, p, n);
    EditRefs(s.sl.mem, s.held, s.mover, p, n, Held(s, p) + 1);
    EditMove(s.sl, s.held, s.rb, s.mover, p, n, s.held[p := Held(s, p) + 1]);
    EditKept(s.sl.mem, s.table, s.lru, s.sl.owner, p, n);
  }

  lemma ReleaseKeeps(s: State, p: Ptr)
    requires Inv(s) && Guard(s, SRelease(p))
    ensures s.sl.mem[p].refcount > 0 && Inv(DoRelease(s, p))
  {
    hide SlabsOk, Refs, Links, Move;
    var o := s.sl.mem[p];
    RefFacts(s.sl.mem, s.held, s.mover, p);
    Unheld(s, p);
    var n := o.(refcount := o.refcount - 1);
    EditSlabs(s.sl, p, n);
    EditRefs(s.sl.mem, s.held, s.mover, p, n, Held(s, p) - 1);
    EditMove(s.sl, s.held, s.rb, s.mover, p, n, s.held[p := Held(s, p) - 1]);
    EditKept(s.sl.mem, s.table, s.lru, s.sl.owner, p, n);
  }

  lemma WriteKeeps(s: State, p: Ptr, content: Content)
    requires Inv(s) && Guard(s, SWrite(p, content))
    ensures Inv(DoWrite(s, p, content))
  {
    hide SlabsOk, Refs, Links, Move;
    RefFacts(s.sl.mem, s.held, s.mover, p);
    LinkedFacts(s.sl.mem, s.table, s.lru, s.sl.owner, p);
    Unheld(s, p);
    var n := s.sl.mem[p].(content := content);
    EditSlabs(s.sl, p, n);
    KeepRefs(s.sl.mem, s.held, s.mover, p, n);
    EditMove(s.sl, s.held, s.rb, s.mover, p, n, s.held);
    EditKept(s.sl.mem, s.table, s.lru, s.sl.owner, p, n);
  }

  lemma RequeueKeeps(s: State, p: Ptr, seg: Segment, active: bool)
    requires Inv(s) && Guard(s, SRequeue(p, seg, active))
    ensures Inv(DoRequeue(s, p, seg, active))
  {
    hide SlabsOk, Refs, Links, Move;
    var o := s.sl.mem[p];
    RefFacts(s.sl.mem, s.held, s.mover, p);
    LinkedFacts(s.sl.mem, s.table, s.lru, s.sl.owner, p);
    Unheld(s, p);
    var n := o.(seg := seg, flags := o.flags.(active := active));
    EditSlabs(s.sl, p, n);
    KeepRefs(s.sl.mem, s.held, s.mover, p, n);
    EditMove(s.sl, s.held, s.rb, s.mover, p, n, s.held);
    // the item leaves its queue, and enters the other one
    var off := o.(flags := o.flags.(linked := false));
    UnlinkLinks(s.sl.mem, s.table, s.lru, s.sl.owner, p, off);
    LinkLinks(s.sl.mem[p := off], s.table - {o.key}, EraseQueue(s.lru, o.Home(), p), s.sl.owner, p, n);
    assert s.sl.mem[p := off][p := n] == s.sl.mem[p := n];
    assert (s.table - {o.key})[o.key := p] == s.table;
  }

  // The last reference is gone, and the chunk goes back to its freelist.
  lemma FreeMove(sl: Slabs, held: map<Ptr, nat>, rb: Rebal, m: Mover, p: Ptr, c: nat, size: nat)
    requires Move(sl, held, rb, m) && p in sl.mem && !sl.mem[p].flags.slabbed && ValidClass(sl, c)
    requires MoverRef(m, p) == 0 && !m.SawLinked?
    ensures Move(FreeChunk(sl, p, size, c), held, rb, m)
  {
    EditWiped(sl.mem, rb, SrcPerslab(sl, rb), p, sl.mem[p].(flags := SLABBED, clsid := 0));
    hide ClearedOk, BehindOk;
  }

  lemma FreeRefs(mem: map<Ptr, Item>, held: map<Ptr, nat>, m: Mover, p: Ptr, n: Item)
    requires Refs(mem, held, m) && HeldIn(held, p) == 0 && n.flags.slabbed
    ensures Refs(mem[p := n], held, m)
  {
  }

  lemma FreeKeeps(s: State, p: Ptr)
    requires Inv(s) && Guard(s, SFree(p))
    ensures ValidClass(s.sl, s.sl.mem[p].clsid) && Inv(DoFree(s, p))
  {
    hide SlabsOk, Refs, Links, Move;
    var o := s.sl.mem[p];
    ChunkFacts(s.sl, p);
    RefFacts(s.sl.mem, s.held, s.mover, p);
    LinkedFacts(s.sl.mem, s.table, s.lru, s.sl.owner, p);
    Unheld(s, p);
    FreeChunkOk(s.sl, p, o.ntotal, o.clsid);
    var n := o.(flags := SLABBED, clsid := 0);
    FreeRefs(s.sl.mem, s.held, s.mover, p, n);
    FreeMove(s.sl, s.held, s.rb, s.mover, p, o.clsid, o.ntotal);
    EditUnlinked(s.sl.mem, s.table, s.lru, s.sl.owner, p, n);
  }

  // ---- slabs_alloc ----

  // A new page brings only blank chunks.
  lemma BlankRefs(mem: map<Ptr, Item>, held: map<Ptr, nat>, m: Mover, page: nat, n: nat)
    requires Refs(mem, held, m) && forall p :: p in mem ==> !(p.Chunk? && p.page == page)
    ensures Refs(mem + BlankPage(page, n), held, m)
  {
  }

  lemma BlankLinks(mem: map<Ptr, Item>, table: map<Key, Ptr>, lru: map<Queue, seq<Ptr>>, owner: map<nat, nat>,
                   owner1: map<nat, nat>, page: nat, n: nat)
    requires Links(mem, table, lru, owner) && forall p :: p in mem ==> !(p.Chunk? && p.page == page)
    requires forall p :: p in mem ==> OwnerIn(owner1, p) == OwnerIn(owner, p)
    ensures Links(mem + BlankPage(page, n), table, lru, owner1)
  {
    hide TableOk, QueuedOk, QueuesOnce;
    var mem1 := mem + BlankPage(page, n);
    assert forall q :: LinkedIn(mem1, q) == LinkedIn(mem, q) && (LinkedIn(mem, q) ==> mem1[q] == mem[q]);
    SameTable(mem, mem1, table);
    SameQueues(mem, mem1, lru);
  }

  lemma SameTable(mem: map<Ptr, Item>, mem1: map<Ptr, Item>, table: map<Key, Ptr>)
    requires TableOk(mem, table)
    requires forall q :: LinkedIn(mem1, q) == LinkedIn(mem, q) && (LinkedIn(mem, q) ==> mem1[q] == mem[q])
    ensures TableOk(mem1, table)
  {
  }

  lemma SameQueues(mem: map<Ptr, Item>, mem1: map<Ptr, Item>, lru: map<Queue, seq<Ptr>>)
    requires QueuedOk(mem, lru)
    requires forall q :: LinkedIn(mem1, q) == LinkedIn(mem, q) && (LinkedIn(mem, q) ==> mem1[q] == mem[q])
    ensures QueuedOk(mem1, lru)
  {
    forall q, x ensures x in QueueIn(lru, q) <==> LinkedIn(mem1, x) && mem1[x].Home() == q {
      assert x in QueueIn(lru, q) <==> LinkedIn(mem, x) && mem[x].Home() == q;
    }
  }

  // Pages may be appended to lists and taken from the pool; chunks in use stay as they are.
  lemma GrowMove(sl: Slabs, sl1: Slabs, held: map<Ptr, nat>, rb: Rebal, m: Mover)
    requires Move(sl, held, rb, m) && sl1.perslab == sl.perslab && |sl1.pages| == |sl.pages|
    requires |sl1.free| == |sl.free| && |sl1.requested| == |sl.requested|
    requires forall c :: 1 <= c < |sl.pages| ==> sl.pages[c] <= sl1.pages[c]
    requires forall p :: p in sl.mem ==>
      p in sl1.mem && sl1.mem[p] == sl.mem[p] && OwnerIn(sl1.owner, p) == OwnerIn(sl.owner, p)
    requires forall p :: p in sl1.mem && p !in sl.mem ==> sl1.mem[p] == BLANK
    ensures Move(sl1, held, rb, m)
  {
    assert forall q :: IsCleared(sl1.mem, q) == IsCleared(sl.mem, q);
    assert ClearedOk(sl1.mem, rb);
    assert BehindOk(sl1.mem, rb, SrcPerslab(sl1, rb)) by {
      forall n: nat | ClearedUpTo(sl.mem, rb.start, n) ensures ClearedUpTo(sl1.mem, rb.start, n) {
        forall j: nat | j < n
          ensures IsCleared(sl1.mem, Chunk(rb.start, j))
        {
          assert IsCleared(sl.mem, Chunk(rb.start, j));
        }
      }
    }
    hide ClearedOk, BehindOk;
  }

  // What the other groups of the invariant can see of do_slabs_newslab.
  lemma NewSlabEffect(sl: Slabs, c: nat, raw: nat)
    requires SlabsOk(sl) && ValidClass(sl, c) && raw !in sl.owner && !NoRoom(sl, c)
    ensures var r := NewSlab(sl, c, raw);
      var page := TakePage(sl, raw).1;
      && r.mem == sl.mem + BlankPage(page, sl.perslab[c])
      && (forall p :: p in sl.mem ==> !(p.Chunk? && p.page == page))
      && (forall p :: p in sl.mem ==> OwnerIn(r.owner, p) == OwnerIn(sl.owner, p))
      && (forall d :: 1 <= d < |sl.pages| ==> sl.pages[d] <= r.pages[d])
  {
    hide FreeOk, SlabbedOk, PagesOk;
    var (sl1, page) := TakePage(sl, raw);
    if |sl.pages[0]| > 0 { PoolTop(sl.pages, sl.owner); }
    assert sl1.pages[1..] == sl.pages[1..];
  }

  lemma NewSlabKeeps(s: State, c: nat, raw: nat)
    requires Inv(s) && ValidClass(s.sl, c) && raw !in s.sl.owner
    ensures Inv(s.(sl := NewSlab(s.sl, c, raw)))
  {
    hide SlabsOk, Refs, Links, Move;
    NewSlabOk(s.sl, c, raw);
    if !NoRoom(s.sl, c) {
      NewSlabEffect(s.sl, c, raw);
      var page := TakePage(s.sl, raw).1;
      var r := NewSlab(s.sl, c, raw);
      BlankRefs(s.sl.mem, s.held, s.mover, page, s.sl.perslab[c]);
      BlankLinks(s.sl.mem, s.table, s.lru, s.sl.owner, r.owner, page, s.sl.perslab[c]);
      GrowMove(s.sl, r, s.held, s.rb, s.mover);
    }
  }

  // The head of a freelist is a chunk nobody knows.
  lemma HeadFacts(s: State, c: nat)
    requires Inv(s) && ValidClass(s.sl, c) && s.sl.free[c] != []
    ensures var p := s.sl.free[c][0];
      && p in s.sl.mem && s.sl.mem[p].flags == SLABBED && s.sl.mem[p].clsid == 0 && Held(s, p) == 0
      && MoverRef(s.mover, p) == 0 && OwnerIn(s.sl.owner, p) == c && !(s.mover.SawLinked? && s.mover.it == p)
  {
    hide SlabsOk, Links;
    var p := s.sl.free[c][0];
    HeadSlabs(s.sl, c);
    RefFacts(s.sl.mem, s.held, s.mover, p);
    hide Refs, ClearedOk, BehindOk, PageOk;
  }

  lemma HeadSlabs(sl: Slabs, c: nat)
    requires SlabsOk(sl) && ValidClass(sl, c) && sl.free[c] != []
    ensures var p := sl.free[c][0];
      p in sl.mem && sl.mem[p].flags == SLABBED && sl.mem[p].clsid == 0 && OwnerIn(sl.owner, p) == c
  {
    assert sl.free[c][0] in sl.free[c];
    hide PagesOk, MemOk, SlabbedOk;
  }

  lemma PopMove(sl: Slabs, held: map<Ptr, nat>, rb: Rebal, m: Mover, c: nat, size: nat, held1: map<Ptr, nat>)
    requires Move(sl, held, rb, m) && ValidClass(sl, c) && sl.free[c] != [] && sl.free[c][0] in sl.mem
    requires sl.mem[sl.free[c][0]].flags == SLABBED
    requires forall q :: q != sl.free[c][0] ==> HeldIn(held1, q) == HeldIn(held, q)
    ensures Move(Pop(sl, size, c), held1, rb, m)
  {
    var p := sl.free[c][0];
    EditWiped(sl.mem, rb, SrcPerslab(sl, rb), p, Pop(sl, size, c).mem[p]);
    hide ClearedOk, BehindOk;
  }

  lemma PopKeeps(s: State, c: nat, size: nat)
    requires Inv(s) && ValidClass(s.sl, c) && s.sl.free[c] != []
    ensures s.sl.free[c][0] in s.sl.mem
    ensures Inv(s.(sl := Pop(s.sl, size, c), held := s.held[s.sl.free[c][0] := 1]))
  {
    hide SlabsOk, Refs, Links, Move;
    var p := s.sl.free[c][0];
    HeadFacts(s, c);
    var n := s.sl.mem[p].(flags := s.sl.mem[p].flags.(slabbed := false), refcount := 1, ntotal := size);
    PopOk(s.sl, size, c);
    EditRefs(s.sl.mem, s.held, s.mover, p, n, 1);
    EditUnlinked(s.sl.mem, s.table, s.lru, s.sl.owner, p, n);
    PopMove(s.sl, s.held, s.rb, s.mover, c, size, s.held[p := 1]);
  }

  lemma FreeIsLive(sl: Slabs)
    requires SlabsOk(sl)
    ensures FreeLive(sl.free, sl.mem)
  {
    hide PagesOk, MemOk, SlabbedOk;
  }

  lemma InvLive(s: State)
    requires Inv(s)
    ensures FreeLive(s.sl.free, s.sl.mem)
  {
    FreeIsLive(s.sl);
  }

  lemma AllocKeeps(s: State, size: nat, c: nat, raw: nat)
    requires Inv(s) && Guard(s, SAlloc(size, c, raw))
    ensures FreeLive(s.sl.free, s.sl.mem) && Inv(DoAlloc(s, size, c, raw))
  {
    hide Inv, FreeLive;
    InvLive(s);
    if ValidClass(s.sl, c) {
      var s1 := if s.sl.free[c] == [] then s.(sl := NewSlab(s.sl, c, raw)) else s;
      if s.sl.free[c] == [] { NewSlabKeeps(s, c, raw); }
      hide NewSlab, Pop;
      if s1.sl.free[c] != [] {
        HeadFacts(s1, c);
        PopKeeps(s1, c, size);
      }
    }
  }
}
