// Every step of the page mover keeps the invariant.
module MoverProofs {
  import opened Memory
  import opened Linkage
  import opened SlabSpec
  import opened Engine
  import opened EngineInv
  import opened SlabProofs
  import opened EditProofs
  import opened WorkerProofs

  // ---- the cursor ----

  // One chunk is passed: it is wiped, or it is counted as busy.
  lemma AdvanceKeeps(sl: Slabs, rb: Rebal, wasBusy: nat)
    requires PageOk(sl, rb) && BehindOk(sl.mem, rb, SrcPerslab(sl, rb)) && ClearedOk(sl.mem, rb)
    requires rb.signal == 2 && rb.done == 0
    requires wasBusy == 0 ==> IsCleared(sl.mem, Chunk(rb.start, rb.pos))
    ensures var rb1 := Advance(rb, SrcPerslab(sl, rb), wasBusy);
      && PageOk(sl, rb1) && BehindOk(sl.mem, rb1, SrcPerslab(sl, rb1)) && ClearedOk(sl.mem, rb1)
  {
    hide IsCleared;
    var rb1 := Advance(rb, SrcPerslab(sl, rb), wasBusy);
    if rb.busy + wasBusy == 0 {
      assert ClearedUpTo(sl.mem, rb.start, rb.pos + 1);
    }
  }

  lemma AdvanceMove(sl: Slabs, held: map<Ptr, nat>, rb: Rebal, m: Mover, wasBusy: nat)
    requires Move(sl, held, rb, m) && rb.signal == 2 && rb.done == 0
    requires wasBusy == 0 ==> IsCleared(sl.mem, Chunk(rb.start, rb.pos))
    ensures Move(sl, held, Advance(rb, SrcPerslab(sl, rb), wasBusy), Rest)
  {
    AdvanceKeeps(sl, rb, wasBusy);
    hide ClearedOk, BehindOk, PageOk;
  }

  // ---- wiping a chunk ----

  // The chunk under the cursor, or any other chunk of the page, becomes wiped.
  lemma WipeMove(sl: Slabs, held: map<Ptr, nat>, rb: Rebal, m: Mover, p: Ptr, n: Item, sl1: Slabs)
    requires Move(sl, held, rb, m) && p in sl.mem && n.flags == CLEARED && rb.signal == 2
    requires p.Chunk? && p.page == rb.start
    requires m.Rest? || (m.Pinned? && p != m.it)
    requires sl1.mem == sl.mem[p := n] && sl1.perslab == sl.perslab && sl1.pages == sl.pages && sl1.owner == sl.owner
    requires |sl1.free| == |sl.free| && |sl1.requested| == |sl.requested|
    ensures Move(sl1, held, rb, m) && IsCleared(sl1.mem, p)
  {
    assert forall q :: q != p ==> IsCleared(sl1.mem, q) == IsCleared(sl.mem, q);
    assert BehindOk(sl1.mem, rb, SrcPerslab(sl1, rb)) by {
      forall k: nat | ClearedUpTo(sl.mem, rb.start, k) ensures ClearedUpTo(sl1.mem, rb.start, k) {
        forall j: nat | j < k
          ensures IsCleared(sl1.mem, Chunk(rb.start, j))
        {
          assert IsCleared(sl.mem, Chunk(rb.start, j));
        }
      }
    }
    hide BehindOk;
  }

  // A chunk that is on no freelist becomes wiped.
  lemma WipeSlabs(sl: Slabs, p: Ptr, n: Item)
    requires SlabsOk(sl) && p in sl.mem && !sl.mem[p].flags.slabbed && n.flags == CLEARED && n.refcount == 0
    ensures SlabsOk(sl.(mem := sl.mem[p := n]))
  {
    hide PagesOk;
    assert FreeOk(sl.free, sl.mem[p := n], sl.owner) by { hide SlabbedOk; }
    assert SlabbedOk(sl.free, sl.mem[p := n], sl.owner) by { hide FreeOk; }
    hide FreeOk, SlabbedOk;
  }

  lemma UnchargeSlabs(sl: Slabs, c: nat, size: nat)
    requires SlabsOk(sl) && HasClass(sl, c)
    ensures SlabsOk(Uncharge(sl, c, size))
  {
    hide PagesOk, MemOk, FreeOk, SlabbedOk;
  }

  // A chunk on a freelist is taken off it and wiped.
  lemma TakeFreeLists(free: seq<seq<Ptr>>, mem: map<Ptr, Item>, owner: map<nat, nat>, p: Ptr, c: nat, n: Item)
    requires FreeOk(free, mem, owner) && SlabbedOk(free, mem, owner) && c < |free|
    requires p in mem && mem[p].flags == SLABBED && p.Chunk? && p.page in owner && owner[p.page] == c
    requires n.flags == CLEARED && n.refcount == 0
    ensures FreeOk(free[c := Erase(free[c], p)], mem[p := n], owner)
    ensures SlabbedOk(free[c := Erase(free[c], p)], mem[p := n], owner)
  {
    EraseFacts(free[c], p);
    var r := free[c := Erase(free[c], p)];
    assert FreeOk(r, mem[p := n], owner) by { hide SlabbedOk; }
    assert SlabbedOk(r, mem[p := n], owner) by { hide FreeOk; }
  }

  lemma TakeFreeSlabs(sl: Slabs, p: Ptr, c: nat)
    requires SlabsOk(sl) && ValidClass(sl, c) && p in sl.mem && sl.mem[p].flags == SLABBED && OwnerIn(sl.owner, p) == c
    ensures SlabsOk(Wipe(TakeFree(sl, p, c), p))
  {
    hide PagesOk, FreeOk, SlabbedOk;
    TakeFreeLists(sl.free, sl.mem, sl.owner, p, c, sl.mem[p].(flags := CLEARED, refcount := 0));
  }

  // ---- slab_rebalance_start and its request ----

  lemma ClassFacts(sl: Slabs, c: nat)
    requires SlabsOk(sl) && ValidClass(sl, c)
    ensures sl.perslab[c] >= 1
    ensures |sl.free| == |sl.pages| == |sl.requested| == |sl.perslab|
    ensures forall g :: g in sl.pages[c] ==> g in sl.owner && sl.owner[g] == c
  {
    hide MemOk, FreeOk, SlabbedOk;
  }

  lemma RequestKeeps(s: State, src: nat, dst: nat, remove: bool)
    requires Inv(s) && Guard(s, SRequest(src, dst, remove))
    ensures Inv(DoRequest(s, src, dst, remove))
  {
    hide SlabsOk, Refs, Links;
  }

  lemma StartKeeps(s: State, index: nat)
    requires Inv(s) && Guard(s, SStart(index))
    ensures Inv(DoStart(s, index))
  {
    hide SlabsOk, Refs, Links;
    ClassFacts(s.sl, s.rb.src);
  }

  lemma GiveUpKeeps(s: State)
    requires Inv(s) && Guard(s, SGiveUp)
    ensures Inv(s.(rb := s.rb.(signal := 0)))
  {
    hide SlabsOk, Refs, Links;
  }

  // ---- looking at the next chunk ----

  // The cursor is on a chunk of the source class.
  lemma CursorFacts(s: State)
    requires Inv(s) && Moving(s) && s.rb.done == 0
    ensures ValidClass(s.sl, s.rb.src) && Cursor(s) in s.sl.mem && OwnerIn(s.sl.owner, Cursor(s)) == s.rb.src
    ensures Perslab(s) == SrcPerslab(s.sl, s.rb) && s.rb.pos < Perslab(s)
    ensures |s.sl.free| == |s.sl.pages| == |s.sl.requested| == |s.sl.perslab|
  {
    hide Refs, Links, ClearedOk, BehindOk, MoverOk;
    assert s.sl.pages[s.rb.src][s.rb.index] in s.sl.pages[s.rb.src];
    ClassFacts(s.sl, s.rb.src);
    CursorInUse(s.sl, s.rb);
  }

  lemma CursorInUse(sl: Slabs, rb: Rebal)
    requires SlabsOk(sl) && ValidClass(sl, rb.src) && rb.start in sl.owner && sl.owner[rb.start] == rb.src
    requires rb.pos < sl.perslab[rb.src]
    ensures Chunk(rb.start, rb.pos) in sl.mem
  {
    hide PagesOk, FreeOk, SlabbedOk;
    assert InUse(sl.owner, sl.perslab, Chunk(rb.start, rb.pos));
  }

  lemma SlabbedFacts(sl: Slabs, p: Ptr)
    requires SlabsOk(sl) && p in sl.mem && sl.mem[p].flags.slabbed && sl.mem[p].flags != CLEARED
    ensures sl.mem[p].flags == SLABBED
  {
    hide PagesOk, MemOk;
  }

  // A chunk nobody knows is wiped.
  lemma WipeRefs(mem: map<Ptr, Item>, held: map<Ptr, nat>, m: Mover, m1: Mover, p: Ptr, n: Item)
    requires Refs(mem, held, m) && HeldIn(held, p) == 0 && n.flags.slabbed
    requires forall q :: q != p ==> MoverRef(m1, q) == MoverRef(m, q)
    ensures Refs(mem[p := n], held, m1)
  {
  }

  lemma LookKeeps(s: State)
    requires Inv(s) && Enabled(s, SLook)
    ensures Inv(Apply(s, SLook))
  {
    hide SlabsOk, Refs, Links, Move, CopyOk;
    CursorFacts(s);
    var p := Cursor(s);
    var o := s.sl.mem[p];
    RefFacts(s.sl.mem, s.held, s.mover, p);
    LinkedFacts(s.sl.mem, s.table, s.lru, s.sl.owner, p);
    if o.flags == CLEARED {
      AdvanceMove(s.sl, s.held, s.rb, s.mover, 0);
    } else if o.flags.slabbed {
      SlabbedFacts(s.sl, p);
      TakeFreeSlabs(s.sl, p, s.rb.src);
      var n := o.(flags := CLEARED, refcount := 0);
      WipeRefs(s.sl.mem, s.held, s.mover, s.mover, p, n);
      EditUnlinked(s.sl.mem, s.table, s.lru, s.sl.owner, p, n);
      var sl1 := Wipe(TakeFree(s.sl, p, s.rb.src), p);
      WipeMove(s.sl, s.held, s.rb, s.mover, p, n, sl1);
      AdvanceMove(sl1, s.held, s.rb, s.mover, 0);
    } else if o.flags.linked {
      SawMove(s.sl, s.held, s.rb, p);
      SameRefs(s.sl.mem, s.held, s.mover, SawLinked(p, o.key));
    } else {
      AdvanceMove(s.sl, s.held, s.rb, s.mover, 1);
    }
  }

  lemma SawMove(sl: Slabs, held: map<Ptr, nat>, rb: Rebal, p: Ptr)
    requires Move(sl, held, rb, Rest) && rb.signal == 2 && rb.done == 0 && p == Chunk(rb.start, rb.pos)
        && FilledIn(sl.mem, p)
    ensures Move(sl, held, rb, SawLinked(p, sl.mem[p].key))
  {
  }

  lemma SameRefs(mem: map<Ptr, Item>, held: map<Ptr, nat>, m: Mover, m1: Mover)
    requires Refs(mem, held, m) && forall q :: MoverRef(m1, q) == MoverRef(m, q)
    ensures Refs(mem, held, m1)
  {
  }

  // ---- trylock and the second look ----

  lemma PinMove(sl: Slabs, held: map<Ptr, nat>, rb: Rebal, m: Mover, n: Item)
    requires Move(sl, held, rb, m) && m.SawLinked? && m.it in sl.mem && LinkedIn(sl.mem, m.it)
        && HeldIn(held, m.it) == 0
    requires n.flags == sl.mem[m.it].flags && n.clsid == sl.mem[m.it].clsid && n.key == sl.mem[m.it].key
    ensures Move(sl.(mem := sl.mem[m.it := n]), held, rb, Pinned(m.it, m.key))
  {
    EditWiped(sl.mem, rb, SrcPerslab(sl, rb), m.it, n);
    hide ClearedOk, BehindOk;
  }

  // The mover takes or drops references; one header changes with it.
  lemma MoverRefs(mem: map<Ptr, Item>, held: map<Ptr, nat>, m: Mover, m1: Mover, p: Ptr, n: Item)
    requires Refs(mem, held, m) && !n.flags.slabbed
    requires forall q :: q != p ==> MoverRef(m1, q) == MoverRef(m, q)
    requires n.refcount == HeldIn(held, p) + LinkRef(n) + MoverRef(m1, p)
    ensures Refs(mem[p := n], held, m1)
  {
  }

  lemma MovingFacts(s: State)
    requires Inv(s) && !s.mover.Rest?
    ensures Moving(s) && s.rb.done == 0 && s.mover.it == Cursor(s) && FilledIn(s.sl.mem, s.mover.it)
    ensures !s.mover.Unlocked? ==> s.mover.key == s.sl.mem[s.mover.it].key
    ensures s.mover.Pinned? || s.mover.Leaving? ==> Linked(s, s.mover.it)
    ensures s.mover.Left? || s.mover.Unlocked? ==> !Linked(s, s.mover.it)
    ensures !s.mover.SawLinked? ==> Held(s, s.mover.it) == 0
    ensures s.mover.Leaving? && s.mover.copy != Null ==>
      CopyOk(s.sl.mem, s.sl.owner, s.held, s.rb, s.mover.copy)
          && s.sl.mem[s.mover.copy].ntotal == s.sl.mem[s.mover.it].ntotal
  {
    hide SlabsOk, Refs, Links, ClearedOk, BehindOk, PageOk, CopyOk;
  }

  lemma TryLockKeeps(s: State, granted: bool)
    requires Inv(s) && Enabled(s, STryLock(granted))
    ensures Inv(Apply(s, STryLock(granted)))
  {
    hide SlabsOk, Refs, Links, Move, CopyOk;
    MovingFacts(s);
    CursorFacts(s);
    var o := s.sl.mem[s.mover.it];
    RefFacts(s.sl.mem, s.held, s.mover, s.mover.it);
    if granted && o.refcount + 1 == 2 && o.flags.linked {
      var n := o.(refcount := 2);
      EditSlabs(s.sl, s.mover.it, n);
      MoverRefs(s.sl.mem, s.held, s.mover, Pinned(s.mover.it, s.mover.key), s.mover.it, n);
      PinMove(s.sl, s.held, s.rb, s.mover, n);
      EditKept(s.sl.mem, s.table, s.lru, s.sl.owner, s.mover.it, n);
    } else {
      AdvanceMove(s.sl, s.held, s.rb, s.mover, 1);
      SameRefs(s.sl.mem, s.held, s.mover, Rest);
    }
  }

  // ---- the rescue chunk ----

  // A free chunk of the page itself came off the freelist: it is wiped at once.
  lemma ReclaimKeeps(s: State, size: nat)
    requires Inv(s) && s.mover.Pinned? && ValidClass(s.sl, s.rb.src)
    requires s.sl.free[s.rb.src] != [] && s.sl.free[s.rb.src][0].Chunk? && s.sl.free[s.rb.src][0].page == s.rb.start
    ensures var p := s.sl.free[s.rb.src][0];
      p in s.sl.mem && Inv(s.(sl := Wipe(Uncharge(Pop(s.sl, size, s.rb.src), s.rb.src, size), p)))
  {
    hide SlabsOk, Refs, Links, Move, CopyOk;
    var p := s.sl.free[s.rb.src][0];
    HeadFacts(s, s.rb.src);
    MovingFacts(s);
    CursorFacts(s);
    var sl1 := Pop(s.sl, size, s.rb.src);
    PopOk(s.sl, size, s.rb.src);
    UnchargeSlabs(sl1, s.rb.src, size);
    var n := sl1.mem[p].(flags := CLEARED, refcount := 0);
    WipeSlabs(Uncharge(sl1, s.rb.src, size), p, n);
    var sl2 := Wipe(Uncharge(sl1, s.rb.src, size), p);
    assert sl2.mem == s.sl.mem[p := n];
    WipeRefs(s.sl.mem, s.held, s.mover, s.mover, p, n);
    EditUnlinked(s.sl.mem, s.table, s.lru, s.sl.owner, p, n);
    WipeMove(s.sl, s.held, s.rb, s.mover, p, n, sl2);
  }

  lemma CopyMove(sl: Slabs, held: map<Ptr, nat>, rb: Rebal, m: Mover, size: nat)
    requires Move(sl, held, rb, m) && m.Pinned? && ValidClass(sl, rb.src) && sl.free[rb.src] != []
    requires var p := sl.free[rb.src][0];
      && p in sl.mem && sl.mem[p].flags == SLABBED && sl.mem[p].clsid == 0 && HeldIn(held, p) == 0
      && p.Chunk? && p.page != rb.start && OwnerIn(sl.owner, p) == rb.src
    requires size == sl.mem[m.it].ntotal
    ensures Move(Pop(sl, size, rb.src), held, rb, Leaving(m.it, m.key, sl.free[rb.src][0]))
  {
    var p := sl.free[rb.src][0];
    EditWiped(sl.mem, rb, SrcPerslab(sl, rb), p, Pop(sl, size, rb.src).mem[p]);
    hide ClearedOk, BehindOk;
  }

  // A free chunk elsewhere came off the freelist: it becomes the copy.
  lemma CopyKeeps(s: State, size: nat)
    requires Inv(s) && s.mover.Pinned? && ValidClass(s.sl, s.rb.src) && s.sl.free[s.rb.src] != []
    requires s.sl.free[s.rb.src][0].Chunk? && s.sl.free[s.rb.src][0].page != s.rb.start
    requires s.mover.it in s.sl.mem && size == s.sl.mem[s.mover.it].ntotal
    ensures var p := s.sl.free[s.rb.src][0];
      p in s.sl.mem && Inv(s.(sl := Pop(s.sl, size, s.rb.src), mover := Leaving(s.mover.it, s.mover.key, p)))
  {
    hide SlabsOk, Refs, Links, Move, CopyOk;
    var p := s.sl.free[s.rb.src][0];
    HeadFacts(s, s.rb.src);
    var n := s.sl.mem[p].(flags := s.sl.mem[p].flags.(slabbed := false), refcount := 1, ntotal := size);
    PopOk(s.sl, size, s.rb.src);
    MoverRefs(s.sl.mem, s.held, s.mover, Leaving(s.mover.it, s.mover.key, p), p, n);
    EditUnlinked(s.sl.mem, s.table, s.lru, s.sl.owner, p, n);
    CopyMove(s.sl, s.held, s.rb, s.mover, size);
  }

  lemma LeaveMove(sl: Slabs, held: map<Ptr, nat>, rb: Rebal, m: Mover)
    requires Move(sl, held, rb, m) && m.Pinned?
    ensures Move(sl, held, rb, Leaving(m.it, m.key, Null))
  {
  }

  lemma NoCopyKeeps(s: State)
    requires Inv(s) && s.mover.Pinned?
    ensures Inv(s.(mover := Leaving(s.mover.it, s.mover.key, Null)))
  {
    hide SlabsOk, Refs, Links, Move;
    LeaveMove(s.sl, s.held, s.rb, s.mover);
    SameRefs(s.sl.mem, s.held, s.mover, Leaving(s.mover.it, s.mover.key, Null));
  }

  // slab_rebalance_alloc leaves the mover with a proper copy, or with none.
  lemma {:induction false} RescueKeeps(s: State, n: nat)
    requires Inv(s) && s.mover.Pinned? && ValidClass(s.sl, s.rb.src) && s.mover.it in s.sl.mem
    ensures FreeLive(s.sl.free, s.sl.mem)
    ensures var (sl1, copy) := RescueAlloc(s.sl, s.sl.mem[s.mover.it].ntotal, s.rb.src, s.rb.start, n);
      Inv(s.(sl := sl1, mover := Leaving(s.mover.it, s.mover.key, copy)))
    decreases n
  {
    hide Inv, FreeLive, Pop, CopyOk;
    InvLive(s);
    var c := s.rb.src;
    var size := s.sl.mem[s.mover.it].ntotal;
    if n == 0 || s.sl.free[c] == [] {
      NoCopyKeeps(s);
    } else {
      var p := s.sl.free[c][0];
      HeadFacts(s, c);
      MovingFacts(s);
      if p.page == s.rb.start {
        ReclaimKeeps(s, size);
        PopOther(s.sl, size, c, s.mover.it);
        var s2 := s.(sl := Wipe(Uncharge(Pop(s.sl, size, c), c, size), p));
        RescueKeeps(s2, n - 1);
      } else {
        CopyKeeps(s, size);
      }
    }
  }

  lemma PopOther(sl: Slabs, size: nat, c: nat, q: Ptr)
    requires ValidClass(sl, c) && sl.free[c] != [] && sl.free[c][0] in sl.mem && q in sl.mem && q != sl.free[c][0]
    ensures q in Pop(sl, size, c).mem && Pop(sl, size, c).mem[q] == sl.mem[q]
    ensures ValidClass(Pop(sl, size, c), c) && sl.free[c][0] in Pop(sl, size, c).mem
  {
  }

  lemma DecideKeeps(s: State, dead: bool)
    requires Inv(s) && Enabled(s, SDecide(dead))
    ensures Inv(Apply(s, SDecide(dead)))
  {
    hide Inv, FreeLive, RescueAlloc, CopyOk;
    InvLive(s);
    MovingFacts(s);
    CursorFacts(s);
    if dead || s.rb.remove {
      NoCopyKeeps(s);
    } else {
      RescueKeeps(s, Perslab(s));
    }
  }

  // ---- the item leaves ----

  lemma LeftMove(sl: Slabs, held: map<Ptr, nat>, rb: Rebal, m: Mover, n: Item)
    requires Move(sl, held, rb, m) && m.Leaving? && m.it in sl.mem && n.key == sl.mem[m.it].key
    requires !n.flags.linked && !n.flags.slabbed && n.clsid == sl.mem[m.it].clsid
    ensures Move(sl.(mem := sl.mem[m.it := n]), held, rb, Left(m.it, m.key))
  {
    EditWiped(sl.mem, rb, SrcPerslab(sl, rb), m.it, n);
    hide ClearedOk, BehindOk, CopyOk;
  }

  // The item under the cursor is unlinked; the mover's reference stays.
  lemma DropKeeps(s: State)
    requires Inv(s) && Enabled(s, SLeave) && s.mover.Leaving? && s.mover.copy == Null
    ensures Inv(Apply(s, SLeave))
  {
    hide SlabsOk, Refs, Links, Move, CopyOk;
    MovingFacts(s);
    var p := s.mover.it;
    var o := s.sl.mem[p];
    RefFacts(s.sl.mem, s.held, s.mover, p);
    LinkedFacts(s.sl.mem, s.table, s.lru, s.sl.owner, p);
    var n := o.(flags := o.flags.(linked := false), refcount := o.refcount - 1);
    ChunkFacts(s.sl, p);
    EditSlabs(s.sl, p, n);
    MoverRefs(s.sl.mem, s.held, s.mover, Left(p, s.mover.key), p, n);
    UnlinkLinks(s.sl.mem, s.table, s.lru, s.sl.owner, p, n);
    LeftMove(s.sl, s.held, s.rb, s.mover, n);
  }

  // The copy takes the item's place in the hash table and in its queue.
  lemma ReplaceKeeps(s: State)
    requires Inv(s) && Enabled(s, SLeave) && s.mover.Leaving? && s.mover.copy != Null
    ensures Inv(Apply(s, SLeave))
  {
    hide SlabsOk, Refs, Links, Move, Erase, PushQueue, EraseQueue, DoLeave;
    MovingFacts(s);
    CursorFacts(s);
    var p := s.mover.it;
    var copy := s.mover.copy;
    var o := s.sl.mem[p];
    ReplaceIs(s);
    RefFacts(s.sl.mem, s.held, s.mover, p);
    LinkedFacts(s.sl.mem, s.table, s.lru, s.sl.owner, p);
    var n := o.(flags := o.flags.(linked := false), refcount := o.refcount - 1);
    var sl1 := s.sl.(mem := s.sl.mem[p := n]);
    EditSlabs(s.sl, p, n);
    MoverRefs(s.sl.mem, s.held, s.mover, s.mover, p, n);
    UnlinkLinks(s.sl.mem, s.table, s.lru, s.sl.owner, p, n);
    LeftMove(s.sl, s.held, s.rb, s.mover, n);
    var left := Left(p, s.mover.key);
    var c := o.(refcount := 1);
    EditSlabs(sl1, copy, c);
    MoverRefs(sl1.mem, s.held, s.mover, left, copy, c);
    EditMove(sl1, s.held, s.rb, left, copy, c, s.held);
    LinkLinks(sl1.mem, s.table - {o.key}, EraseQueue(s.lru, o.Home(), p), s.sl.owner, copy, c);
  }

  // The state after the rescue, field by field.
  lemma ReplaceIs(s: State)
    requires Enabled(s, SLeave) && s.mover.Leaving? && s.mover.copy != Null && s.sl.mem[s.mover.it].flags.linked
    ensures var p, copy := s.mover.it, s.mover.copy;
      var o := s.sl.mem[p];
      DoLeave(s) == s.(
        sl := s.sl.(mem := s.sl.mem[p := o.(flags := o.flags.(linked := false), refcount := o.refcount - 1)]
                                   [copy := o.(refcount := 1)]),
        table := (s.table - {o.key})[o.key := copy], lru := PushQueue(EraseQueue(s.lru, o.Home(), p), o.Home(), copy),
        mover := Left(p, s.mover.key))
  {
    hide PushQueue, EraseQueue;
    var p, copy := s.mover.it, s.mover.copy;
    var o := s.sl.mem[p];
    var filled := o.(flags := o.flags.(linked := false), refcount := 0);
    var left := o.(flags := o.flags.(linked := false), refcount := o.refcount - 1);
    var linked := o.(refcount := 1);
    assert s.sl.mem[copy := filled][p := left][copy := linked] == s.sl.mem[p := left][copy := linked];
  }

  lemma LeaveKeeps(s: State)
    requires Inv(s) && Enabled(s, SLeave)
    ensures Inv(Apply(s, SLeave))
  {
    hide Inv;
    if s.mover.copy == Null { DropKeeps(s); } else { ReplaceKeeps(s); }
  }

  lemma UnlockMove(sl: Slabs, held: map<Ptr, nat>, rb: Rebal, m: Mover)
    requires Move(sl, held, rb, m) && m.Left?
    ensures Move(sl, held, rb, Unlocked(m.it))
  {
  }

  lemma UnlockKeeps(s: State)
    requires Inv(s) && Enabled(s, SUnlock)
    ensures Inv(Apply(s, SUnlock))
  {
    hide SlabsOk, Refs, Links, Move;
    UnlockMove(s.sl, s.held, s.rb, s.mover);
    SameRefs(s.sl.mem, s.held, s.mover, Unlocked(s.mover.it));
  }

  lemma RestMove(sl: Slabs, held: map<Ptr, nat>, rb: Rebal, m: Mover)
    requires Move(sl, held, rb, m)
    ensures Move(sl, held, rb, Rest)
  {
  }

  lemma WipeKeeps(s: State)
    requires Inv(s) && Enabled(s, SWipe)
    ensures Inv(Apply(s, SWipe))
  {
    hide SlabsOk, Refs, Links, Move;
    MovingFacts(s);
    CursorFacts(s);
    var p := s.mover.it;
    var o := s.sl.mem[p];
    var n := o.(flags := CLEARED, refcount := 0);
    var sl1 := Wipe(Uncharge(s.sl, s.rb.src, o.ntotal), p);
    UnchargeSlabs(s.sl, s.rb.src, o.ntotal);
    WipeSlabs(Uncharge(s.sl, s.rb.src, o.ntotal), p, n);
    WipeRefs(s.sl.mem, s.held, s.mover, Rest, p, n);
    EditUnlinked(s.sl.mem, s.table, s.lru, s.sl.owner, p, n);
    RestMove(s.sl, s.held, s.rb, s.mover);
    WipeMove(s.sl, s.held, s.rb, Rest, p, n, sl1);
    AdvanceMove(sl1, s.held, s.rb, Rest, 0);
  }

  // ---- every step follows pointers into pages in use ----

  lemma MoverDefined(s: State, a: Step)
    requires Inv(s) && Guard(s, a) && (a.SLook? || a.STryLock? || a.SDecide? || a.SLeave? || a.SWipe?)
    ensures Defined(s, a)
  {
    hide Inv, CopyOk, FreeLive;
    InvLive(s);
    CursorDefined(s);
    if !s.mover.Rest? { MovingFacts(s); }
    if s.mover.Leaving? { LeavingDefined(s); }
  }

  lemma CursorDefined(s: State)
    requires Inv(s)
    ensures Moving(s) && s.rb.done == 0 ==> ValidClass(s.sl, s.rb.src) && Cursor(s) in s.sl.mem
  {
    hide Inv;
    if Moving(s) && s.rb.done == 0 { CursorFacts(s); }
  }

  lemma LeavingDefined(s: State)
    requires Inv(s) && s.mover.Leaving?
    ensures s.mover.it in s.sl.mem && s.sl.mem[s.mover.it].refcount > 0 && s.mover.copy != s.mover.it
  {
    hide SlabsOk, Refs, Links, Move;
    MovingFacts(s);
    CursorFacts(s);
    RefFacts(s.sl.mem, s.held, s.mover, s.mover.it);
  }
}
