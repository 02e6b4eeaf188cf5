// What holds in every execution of the storage engine.
module EngineTheorems {
  import opened Memory
  import opened Linkage
  import opened SlabSpec
  import opened Engine
  import opened EngineInv
  import opened EditProofs
  import opened WorkerProofs
  import opened MoverProofs
  import opened FinishProofs

  // Whatever the locks let a thread do, it follows pointers into pages in use: no step touches freed memory.
  lemma StepIsSafe(s: State, a: Step)
    requires Inv(s) && Guard(s, a)
    ensures Enabled(s, a)
  {
    hide Inv;
    match a {
      case SAlloc(_, _, _) => InvLive(s);
      case SRelease(p) => ReleaseKeeps(s, p);
      case SFree(p) => FreeKeeps(s, p);
      case SFinish => FinishDefined(s);
      case _ =>
        if a.SLook? || a.STryLock? || a.SDecide? || a.SLeave? || a.SWipe? { MoverDefined(s, a); }
    }
  }

  lemma StepKeepsInv(s: State, a: Step)
    requires Inv(s) && Enabled(s, a)
    ensures Inv(Apply(s, a))
  {
    hide Inv;
    match a {
      case SAlloc(size, c, raw) => AllocKeeps(s, size, c, raw);
      case SFill(p, key, seg, content, useCas) => FillKeeps(s, p, key, seg, content, useCas);
      case SLink(p) => LinkKeeps(s, p);
      case SUnlink(p) => UnlinkKeeps(s, p);
      case SGet(p, fetch) => GetKeeps(s, p, fetch);
      case SRelease(p) => ReleaseKeeps(s, p);
      case SFree(p) => FreeKeeps(s, p);
      case SRequeue(p, seg, active) => RequeueKeeps(s, p, seg, active);
      case SWrite(p, content) => WriteKeeps(s, p, content);
      case SRequest(src, dst, remove) => RequestKeeps(s, src, dst, remove);
      case SStart(index) => StartKeeps(s, index);
      case SGiveUp => GiveUpKeeps(s);
      case SLook => LookKeeps(s);
      case STryLock(granted) => TryLockKeeps(s, granted);
      case SDecide(dead) => DecideKeeps(s, dead);
      case SLeave => LeaveKeeps(s);
      case SUnlock => UnlockKeeps(s);
      case SWipe => WipeKeeps(s);
      case SFinish => FinishKeeps(s);
    }
  }

  lemma InitialInv(s: State)
    requires Initial(s)
    ensures Inv(s)
  {
    assert s.sl.free[0] == [];
    assert SlabsOk(s.sl) by { hide Refs, Links, Move; }
    assert Refs(s.sl.mem, s.held, s.mover);
    assert Links(s.sl.mem, s.table, s.lru, s.sl.owner);
    assert Move(s.sl, s.held, s.rb, s.mover);
  }

  // The invariant holds in every state of every run.
  lemma {:induction false} RunInv(run: seq<State>, steps: seq<Step>, n: nat)
    requires IsRun(run, steps) && n < |run|
    ensures Inv(run[n])
    decreases n
  {
    hide Inv, Initial, Enabled, Apply;
    if n == 0 {
      InitialInv(run[0]);
    } else {
      RunInv(run, steps, n - 1);
      assert Enabled(run[n - 1], steps[n - 1]) && run[n] == Apply(run[n - 1], steps[n - 1]);
      StepKeepsInv(run[n - 1], steps[n - 1]);
    }
  }

  // Nothing refers to the chunk: no freelist, no LRU queue, no hash table entry, no worker, no reference count.
  ghost predicate Unreferenced(s: State, p: Ptr) {
    && p in s.sl.mem && s.sl.mem[p].flags == CLEARED && s.sl.mem[p].refcount == 0 && Held(s, p) == 0
    && (forall c :: 0 <= c < |s.sl.free| ==> p !in s.sl.free[c])
    && (forall q :: p !in QueueIn(s.lru, q))
    && (forall k :: k in s.table ==> s.table[k] != p)
  }

  lemma WipedUnreferenced(s: State, p: Ptr)
    requires Inv(s) && IsCleared(s.sl.mem, p)
    ensures Unreferenced(s, p)
  {
    hide SlabsOk, Move, Refs, Links;
    RefFacts(s.sl.mem, s.held, s.mover, p);
    WipedSlabs(s.sl, p);
    WipedLinks(s.sl.mem, s.table, s.lru, s.sl.owner, p);
  }

  lemma WipedSlabs(sl: Slabs, p: Ptr)
    requires SlabsOk(sl) && IsCleared(sl.mem, p)
    ensures sl.mem[p].refcount == 0 && forall c :: 0 <= c < |sl.free| ==> p !in sl.free[c]
  {
    hide PagesOk, MemOk;
  }

  lemma WipedLinks(mem: map<Ptr, Item>, table: map<Key, Ptr>, lru: map<Queue, seq<Ptr>>, owner: map<nat, nat>, p: Ptr)
    requires Links(mem, table, lru, owner) && IsCleared(mem, p)
    ensures (forall q :: p !in QueueIn(lru, q)) && (forall k :: k in table ==> table[k] != p)
  {
  }

  // When a pass has ended without a busy chunk, the stolen page is completely clear, and stays so while other
  // threads run on until the mover takes it away; it is still where the mover found it in the page list.
  lemma StolenPageIsClear(run: seq<State>, steps: seq<Step>, n: nat)
    requires IsRun(run, steps) && n < |run| && run[n].rb.done > 0
    ensures var s := run[n];
      && s.rb.src < |s.sl.pages| && s.rb.index < |s.sl.pages[s.rb.src]|
          && s.sl.pages[s.rb.src][s.rb.index] == s.rb.start
      && (!s.rb.remove ==> s.rb.index == 0)
      && forall k: nat :: k < Perslab(s) ==> Unreferenced(s, Chunk(s.rb.start, k))
  {
    hide Inv, Initial, Enabled, Apply, Unreferenced;
    RunInv(run, steps, n);
    var s := run[n];
    AllWiped(s);
    forall k: nat | k < Perslab(s) ensures Unreferenced(s, Chunk(s.rb.start, k)) {
      assert IsCleared(s.sl.mem, Chunk(s.rb.start, k));
      WipedUnreferenced(s, Chunk(s.rb.start, k));
    }
  }

  // A wiped chunk stays wiped until its page is taken away: no worker and no other step of the mover revives it.
  lemma WipedIsStable(s: State, a: Step, p: Ptr)
    requires Inv(s) && Enabled(s, a) && IsCleared(s.sl.mem, p) && a != SFinish
    ensures IsCleared(Apply(s, a).sl.mem, p)
  {
    hide Inv, FreeLive, Apply, RescueAlloc;
    WipedUnknown(s, p);
    if a.SAlloc? {
      AllocStable(s, a.size, a.c, a.raw, p);
      assert Apply(s, a) == DoAlloc(s, a.size, a.c, a.raw) by { ApplyAlloc(s, a); }
    } else if a.SDecide? {
      DecideStable(s, a, p);
    } else if a.SLook? || a.STryLock? || a.SLeave? || a.SWipe? {
      if a.SLook? || a.STryLock? { MoverStable(s, a, p); } else { MoverEndStable(s, a, p); }
    } else {
      OtherStable(s, a, p);
    }
  }

  lemma ApplyAlloc(s: State, a: Step)
    requires a.SAlloc? && Enabled(s, a)
    ensures Apply(s, a) == DoAlloc(s, a.size, a.c, a.raw)
  {
    hide DoAlloc;
  }

  lemma OtherStable(s: State, a: Step, p: Ptr)
    requires Enabled(s, a) && IsCleared(s.sl.mem, p) && Held(s, p) == 0
    requires !a.SAlloc? && !a.SDecide? && !a.SLook? && !a.STryLock? && !a.SLeave? && !a.SWipe? && !a.SFinish?
    ensures IsCleared(Apply(s, a).sl.mem, p)
  {
    hide EraseQueue, PushQueue;
  }

  lemma MoverStable(s: State, a: Step, p: Ptr)
    requires Inv(s) && Enabled(s, a) && IsCleared(s.sl.mem, p)
    requires a.SLook? || a.STryLock?
    ensures IsCleared(Apply(s, a).sl.mem, p)
  {
    hide Inv, FreeLive, Erase, CopyOk, EraseQueue, PushQueue, Advance;
    if !s.mover.Rest? { MovingFacts(s); }
  }

  lemma MoverEndStable(s: State, a: Step, p: Ptr)
    requires Inv(s) && Enabled(s, a) && IsCleared(s.sl.mem, p) && (a.SLeave? || a.SWipe?)
    ensures IsCleared(Apply(s, a).sl.mem, p)
  {
    hide Inv, FreeLive, CopyOk, DoAlloc, DoFill, DoLink, DoUnlink, DoGet, DoRelease, DoFree, DoRequeue, DoWrite,
        DoRequest, DoStart, DoLook, DoTryLock, DoDecide, DoLeave, DoUnlock, DoWipe, DoFinish;
    MovingFacts(s);
    if a.SLeave? {
      if s.mover.copy != Null { CopyFacts(s); }
      LeaveMem(s, p);
    } else {
      WipeLeaves(s, p);
    }
  }

  lemma LeaveMem(s: State, p: Ptr)
    requires Enabled(s, SLeave) && p in s.sl.mem && p != s.mover.it && (s.mover.copy == Null || p != s.mover.copy)
    ensures p in DoLeave(s).sl.mem && DoLeave(s).sl.mem[p] == s.sl.mem[p]
  {
    hide EraseQueue, PushQueue;
  }

  lemma WipeLeaves(s: State, p: Ptr)
    requires Enabled(s, SWipe) && IsCleared(s.sl.mem, p)
    ensures IsCleared(DoWipe(s).sl.mem, p)
  {
    hide Advance;
  }

  lemma DecideStable(s: State, a: Step, p: Ptr)
    requires Inv(s) && a.SDecide? && Enabled(s, a) && IsCleared(s.sl.mem, p) && HeadsAre(s.sl, p)
    ensures IsCleared(Apply(s, a).sl.mem, p)
  {
    hide Inv, FreeLive, RescueAlloc, HeadsAre;
    if !a.dead && !s.rb.remove {
      RescueStable(s.sl, s.sl.mem[s.mover.it].ntotal, s.rb.src, s.rb.start, Perslab(s), p);
    }
  }

  // A wiped chunk is not linked, not filled in, not held and on no freelist.
  lemma WipedUnknown(s: State, p: Ptr)
    requires Inv(s) && IsCleared(s.sl.mem, p)
    ensures p in s.sl.mem && s.sl.mem[p].flags == CLEARED && Held(s, p) == 0 && HeadsAre(s.sl, p)
  {
    hide SlabsOk, Move, Refs, Links;
    RefFacts(s.sl.mem, s.held, s.mover, p);
    WipedSlabs(s.sl, p);
  }

  ghost predicate HeadsAre(sl: Slabs, p: Ptr) { forall c :: 0 <= c < |sl.free| ==> p !in sl.free[c] }

  lemma CopyFacts(s: State)
    requires Inv(s) && s.mover.Leaving? && s.mover.copy != Null
    ensures s.mover.copy in s.sl.mem && !s.sl.mem[s.mover.copy].flags.slabbed
  {
    hide SlabsOk, Move, Refs, Links;
    MovingFacts(s);
  }

  lemma PopStable(sl: Slabs, size: nat, c: nat, p: Ptr)
    requires ValidClass(sl, c) && sl.free[c] != [] && sl.free[c][0] in sl.mem && IsCleared(sl.mem, p) && HeadsAre(sl, p)
    ensures IsCleared(Pop(sl, size, c).mem, p) && HeadsAre(Pop(sl, size, c), p)
  {
    assert sl.free[c][0] in sl.free[c];
    assert forall q :: q in sl.free[c][1..] ==> q in sl.free[c];
  }

  lemma AllocStable(s: State, size: nat, c: nat, raw: nat, p: Ptr)
    requires Inv(s) && Enabled(s, SAlloc(size, c, raw)) && IsCleared(s.sl.mem, p) && HeadsAre(s.sl, p)
    ensures IsCleared(DoAlloc(s, size, c, raw).sl.mem, p)
  {
    hide Inv, FreeLive, NewSlab, Pop, HeadsAre;
    if ValidClass(s.sl, c) {
      if s.sl.free[c] == [] {
        var s1 := s.(sl := NewSlab(s.sl, c, raw));
        NewSlabKeeps(s, c, raw);
        NewSlabStable(s, c, raw, p);
        WipedUnknown(s1, p);
        if s1.sl.free[c] != [] {
          HeadFacts(s1, c);
          PopStable(s1.sl, size, c, p);
        }
      } else {
        HeadFacts(s, c);
        PopStable(s.sl, size, c, p);
      }
    }
  }

  lemma NewSlabStable(s: State, c: nat, raw: nat, p: Ptr)
    requires Inv(s) && ValidClass(s.sl, c) && raw !in s.sl.owner && IsCleared(s.sl.mem, p)
    ensures IsCleared(NewSlab(s.sl, c, raw).mem, p) && ValidClass(NewSlab(s.sl, c, raw), c)
  {
    hide SlabsOk, Move, Refs, Links;
    if !NoRoom(s.sl, c) { NewSlabEffect(s.sl, c, raw); }
  }

  lemma {:induction false} RescueStable(sl: Slabs, size: nat, c: nat, start: nat, n: nat, p: Ptr)
    requires FreeLive(sl.free, sl.mem) && IsCleared(sl.mem, p) && HeadsAre(sl, p)
    ensures IsCleared(RescueAlloc(sl, size, c, start, n).0.mem, p)
    decreases n
  {
    hide HeadsAre, FreeLive, NewSlab, Pop;
    if n > 0 && ValidClass(sl, c) && sl.free[c] != [] {
      HeadLive(sl, c);
      PopStable(sl, size, c, p);
      var (sl1, q) := Alloc(sl, size, c, false, 0);
      if q != Null && q.Chunk? && q.page == start {
        PopClass(sl, size, c);
        SameHeads(sl1, Wipe(Uncharge(sl1, c, size), q), p);
        RescueStable(Wipe(Uncharge(sl1, c, size), q), size, c, start, n - 1, p);
      }
    }
  }

  lemma PopClass(sl: Slabs, size: nat, c: nat)
    requires ValidClass(sl, c) && sl.free[c] != [] && sl.free[c][0] in sl.mem
    ensures ValidClass(Pop(sl, size, c), c)
  {
  }

  lemma HeadLive(sl: Slabs, c: nat)
    requires FreeLive(sl.free, sl.mem) && ValidClass(sl, c) && sl.free[c] != []
    ensures sl.free[c][0] in sl.mem
  {
    assert sl.free[c][0] in sl.free[c];
  }

  lemma SameHeads(sl: Slabs, sl1: Slabs, p: Ptr)
    requires HeadsAre(sl, p) && sl1.free == sl.free && FreeLive(sl.free, sl.mem) && sl.mem.Keys <= sl1.mem.Keys
    ensures HeadsAre(sl1, p) && FreeLive(sl1.free, sl1.mem)
  {
  }

  // ITEM_LINKED, the hash table and the LRU queues say the same in every state of every run.
  lemma LinkedExactlyOnce(run: seq<State>, steps: seq<Step>, n: nat, p: Ptr)
    requires IsRun(run, steps) && n < |run|
    ensures var s := run[n];
      && (Linked(s, p) <==> exists k :: k in s.table && s.table[k] == p)
      && (Linked(s, p) <==> exists q :: p in QueueIn(s.lru, q))
      && (forall k1, k2 :: k1 in s.table && k2 in s.table && s.table[k1] == s.table[k2] ==> k1 == k2)
      && (forall q :: p in QueueIn(s.lru, q) ==> q == s.sl.mem[p].Home() && NoDup(QueueIn(s.lru, q)))
  {
    hide Initial, Enabled, Apply, SlabsOk, Refs, Move, LinkedOk, HomeOk;
    RunInv(run, steps, n);
    var s := run[n];
    if Linked(s, p) {
      assert s.table[s.sl.mem[p].key] == p;
      assert p in QueueIn(s.lru, s.sl.mem[p].Home());
    }
  }

  // A chunk on a freelist is linked nowhere and held by nobody; a linked item has a reference for the link and
  // one for each holder.
  lemma ReferencesExact(run: seq<State>, steps: seq<Step>, n: nat, p: Ptr)
    requires IsRun(run, steps) && n < |run| && p in run[n].sl.mem
    ensures var s := run[n];
      var it := s.sl.mem[p];
      && (it.flags.slabbed ==> !it.flags.linked && Held(s, p) == 0)
      && (!it.flags.slabbed ==> it.refcount == LinkRef(it) + Held(s, p) + MoverRef(s.mover, p))
  {
    hide Initial, Enabled, Apply, SlabsOk, Move, Refs, Links;
    RunInv(run, steps, n);
    RefFacts(run[n].sl.mem, run[n].held, run[n].mover, p);
    LinkedFacts(run[n].sl.mem, run[n].table, run[n].lru, run[n].sl.owner, p);
  }
}
