// What clients stored, and which steps of the engine can change it.
module EngineContents {
  import opened Memory
  import opened Linkage
  import opened SlabSpec
  import opened Engine
  import opened EngineInv
  import opened EditProofs
  import opened WorkerProofs
  import opened MoverProofs
  import opened FinishProofs
  import opened EngineTheorems

  // What is stored: data, flags and expiry time, and the ITEM_ntotal the statistics count.
  datatype Record = Record(content: Content, ntotal: nat)

  function RecordOf(it: Item): Record { Record(it.content, it.ntotal) }

  ghost function Contents(mem: map<Ptr, Item>, table: map<Key, Ptr>): map<Key, Record> {
    map k | k in table && table[k] in mem :: RecordOf(mem[table[k]])
  }

  ghost function Stored(s: State): map<Key, Record> { Contents(s.sl.mem, s.table) }

  // What a step does to what clients stored: linking, unlinking and writing do what they say, a mover that found
  // no rescue chunk drops its item, and everything else changes nothing.
  ghost function StoredAfter(s: State, a: Step): map<Key, Record>
    requires Enabled(s, a)
  {
    match a
    case SLink(p) => Stored(s)[s.sl.mem[p].key := RecordOf(s.sl.mem[p])]
    case SUnlink(p) => Stored(s) - {s.sl.mem[p].key}
    case SWrite(p, content) => Stored(s)[s.sl.mem[p].key := Record(content, s.sl.mem[p].ntotal)]
    case SLeave => if s.mover.copy == Null then Stored(s) - {s.mover.key} else Stored(s)
    case _ => Stored(s)
  }

  ghost predicate SameItems(mem: map<Ptr, Item>, mem1: map<Ptr, Item>, table: map<Key, Ptr>) {
    forall k :: k in table ==>
      table[k] in mem && table[k] in mem1 && RecordOf(mem1[table[k]]) == RecordOf(mem[table[k]])
  }

  lemma SameContents(mem: map<Ptr, Item>, mem1: map<Ptr, Item>, table: map<Key, Ptr>)
    requires SameItems(mem, mem1, table)
    ensures Contents(mem1, table) == Contents(mem, table)
  {
  }

  // Items in the table are linked, and no two keys share one.
  lemma TableFacts(s: State)
    requires Inv(s)
    ensures forall k :: k in s.table ==> s.table[k] in s.sl.mem && s.sl.mem[s.table[k]].flags.linked
    ensures forall k :: k in s.table ==> s.sl.mem[s.table[k]].key == k && !s.sl.mem[s.table[k]].flags.slabbed
    ensures forall p :: Linked(s, p) ==> s.sl.mem[p].key in s.table && s.table[s.sl.mem[p].key] == p
  {
    hide SlabsOk, Refs, Move, QueuesOnce, QueuedOk, HomeOk;
  }

  lemma WorkerStable(s: State, a: Step)
    requires Inv(s) && Enabled(s, a) && (a.SFill? || a.SGet? || a.SRelease? || a.SFree? || a.SRequeue?)
    ensures Apply(s, a).table == s.table && SameItems(s.sl.mem, Apply(s, a).sl.mem, s.table)
  {
    hide Inv, EraseQueue, PushQueue;
    TableFacts(s);
    if a.SFill? { FillFacts(s, a.p); }
  }

  lemma MoverStable(s: State, a: Step)
    requires Inv(s) && Enabled(s, a) && (a.SLook? || a.STryLock? || a.SWipe?)
    ensures Apply(s, a).table == s.table && SameItems(s.sl.mem, Apply(s, a).sl.mem, s.table)
  {
    hide Inv, CopyOk, DoAlloc, DoFill, DoLink, DoUnlink, DoGet, DoRelease, DoFree, DoRequeue, DoWrite, DoRequest,
        DoStart, DoLook, DoTryLock, DoDecide, DoLeave, DoUnlock, DoWipe, DoFinish;
    TableFacts(s);
    if !s.mover.Rest? { MovingFacts(s); }
    match a {
      case SLook => LookMem(s);
      case STryLock(granted) => TryLockMem(s, granted);
      case _ => WipeMem(s);
    }
  }

  lemma LookMem(s: State)
    requires Enabled(s, SLook)
    ensures var z := DoLook(s);
      z.table == s.table
      && forall p :: p in s.sl.mem && !s.sl.mem[p].flags.slabbed ==> p in z.sl.mem && z.sl.mem[p] == s.sl.mem[p]
  {
    hide Advance, Erase;
  }

  lemma TryLockMem(s: State, granted: bool)
    requires Enabled(s, STryLock(granted))
    ensures var z := DoTryLock(s, granted);
      z.table == s.table
      && forall p :: p in s.sl.mem ==> p in z.sl.mem && RecordOf(z.sl.mem[p]) == RecordOf(s.sl.mem[p])
  {
    hide Advance;
  }

  lemma WipeMem(s: State)
    requires Enabled(s, SWipe)
    ensures var z := DoWipe(s);
      z.table == s.table
      && forall p :: p in s.sl.mem && p != s.mover.it ==> p in z.sl.mem && z.sl.mem[p] == s.sl.mem[p]
  {
    hide Advance;
  }

  lemma FillFacts(s: State, p: Ptr)
    requires Inv(s) && p in s.sl.mem && s.sl.mem[p].clsid == 0
    ensures !Linked(s, p)
  {
    hide SlabsOk, Refs, Links, Move;
    LinkedFacts(s.sl.mem, s.table, s.lru, s.sl.owner, p);
  }

  lemma FinishStable(s: State)
    requires Inv(s) && Enabled(s, SFinish)
    ensures Apply(s, SFinish).table == s.table && SameItems(s.sl.mem, Apply(s, SFinish).sl.mem, s.table)
  {
    hide Inv;
    AllWiped(s);
    TableFacts(s);
  }

  // Popping from a freelist leaves linked items alone.
  lemma AllocTable(s: State, a: Step)
    requires Inv(s) && Enabled(s, a) && a.SAlloc?
    ensures Apply(s, a).table == s.table && SameItems(s.sl.mem, Apply(s, a).sl.mem, s.table)
  {
    hide Inv, FreeLive, NewSlab, Pop;
    TableFacts(s);
    if ValidClass(s.sl, a.c) {
      var s1 := if s.sl.free[a.c] == [] then s.(sl := NewSlab(s.sl, a.c, a.raw)) else s;
      if s.sl.free[a.c] == [] {
        NewSlabKeeps(s, a.c, a.raw);
        NewSlabKept(s, a.c, a.raw);
      }
      if s1.sl.free[a.c] != [] {
        HeadFacts(s1, a.c);
        PopKept(s1.sl, a.size, a.c);
      }
    }
  }

  lemma NewSlabKept(s: State, c: nat, raw: nat)
    requires Inv(s) && ValidClass(s.sl, c) && raw !in s.sl.owner
    ensures ValidClass(NewSlab(s.sl, c, raw), c)
    ensures forall p :: p in s.sl.mem ==> p in NewSlab(s.sl, c, raw).mem && NewSlab(s.sl, c, raw).mem[p] == s.sl.mem[p]
  {
    hide SlabsOk, Refs, Links, Move;
    if !NoRoom(s.sl, c) { NewSlabEffect(s.sl, c, raw); }
  }

  lemma PopKept(sl: Slabs, size: nat, c: nat)
    requires ValidClass(sl, c) && sl.free[c] != [] && sl.free[c][0] in sl.mem
    ensures forall p :: p in sl.mem && p != sl.free[c][0] ==>
      p in Pop(sl, size, c).mem && Pop(sl, size, c).mem[p] == sl.mem[p]
  {
  }

  // The search for a rescue chunk touches free chunks only.
  lemma {:induction false} RescueKept(s: State, n: nat, p: Ptr)
    requires Inv(s) && s.mover.Pinned? && ValidClass(s.sl, s.rb.src) && s.mover.it in s.sl.mem
    requires p in s.sl.mem && !s.sl.mem[p].flags.slabbed
    ensures FreeLive(s.sl.free, s.sl.mem)
    ensures var r := RescueAlloc(s.sl, s.sl.mem[s.mover.it].ntotal, s.rb.src, s.rb.start, n).0;
      p in r.mem && r.mem[p] == s.sl.mem[p]
    decreases n
  {
    hide Inv, FreeLive, Pop, CopyOk;
    InvLive(s);
    var c := s.rb.src;
    var size := s.sl.mem[s.mover.it].ntotal;
    if n > 0 && s.sl.free[c] != [] {
      var head := s.sl.free[c][0];
      HeadFacts(s, c);
      MovingFacts(s);
      PopOther(s.sl, size, c, p);
      if head.page == s.rb.start {
        ReclaimKeeps(s, size);
        PopOther(s.sl, size, c, s.mover.it);
        var s2 := s.(sl := Wipe(Uncharge(Pop(s.sl, size, c), c, size), head));
        RescueKept(s2, n - 1, p);
      }
    }
  }

  lemma DecideTable(s: State, a: Step)
    requires Inv(s) && Enabled(s, a) && a.SDecide?
    ensures Apply(s, a).table == s.table && SameItems(s.sl.mem, Apply(s, a).sl.mem, s.table)
  {
    hide Inv, FreeLive, RescueAlloc, CopyOk;
    TableFacts(s);
    MovingFacts(s);
    CursorFacts(s);
    if !a.dead && !s.rb.remove {
      forall k | k in s.table
        ensures s.table[k] in Apply(s, a).sl.mem && Apply(s, a).sl.mem[s.table[k]] == s.sl.mem[s.table[k]]
      {
        RescueKept(s, Perslab(s), s.table[k]);
      }
    }
  }

  // One key gets an item, or loses it.
  lemma PutContents(mem: map<Ptr, Item>, mem1: map<Ptr, Item>, table: map<Key, Ptr>, k: Key, p: Ptr)
    requires forall j :: j in table && j != k ==>
      table[j] in mem && table[j] in mem1 && RecordOf(mem1[table[j]]) == RecordOf(mem[table[j]])
    requires p in mem1
    ensures Contents(mem1, table[k := p]) == Contents(mem, table)[k := RecordOf(mem1[p])]
  {
  }

  lemma DropContents(mem: map<Ptr, Item>, mem1: map<Ptr, Item>, table: map<Key, Ptr>, k: Key)
    requires forall j :: j in table && j != k ==>
      table[j] in mem && table[j] in mem1 && RecordOf(mem1[table[j]]) == RecordOf(mem[table[j]])
    ensures Contents(mem1, table - {k}) == Contents(mem, table) - {k}
  {
  }

  lemma LinkStored(s: State, a: Step)
    requires Inv(s) && Enabled(s, a) && a.SLink?
    ensures Stored(Apply(s, a)) == StoredAfter(s, a)
  {
    hide Inv, PushQueue, Contents;
    TableFacts(s);
    PutContents(s.sl.mem, Apply(s, a).sl.mem, s.table, s.sl.mem[a.p].key, a.p);
  }

  lemma UnlinkStored(s: State, a: Step)
    requires Inv(s) && Enabled(s, a) && a.SUnlink?
    ensures Stored(Apply(s, a)) == StoredAfter(s, a)
  {
    hide Inv, EraseQueue, Contents;
    TableFacts(s);
    DropContents(s.sl.mem, Apply(s, a).sl.mem, s.table, s.sl.mem[a.p].key);
  }

  lemma WriteStored(s: State, a: Step)
    requires Inv(s) && Enabled(s, a) && a.SWrite?
    ensures Stored(Apply(s, a)) == StoredAfter(s, a)
  {
    hide Inv, Contents;
    TableFacts(s);
    var k := s.sl.mem[a.p].key;
    assert s.table[k := a.p] == s.table;
    PutContents(s.sl.mem, Apply(s, a).sl.mem, s.table, k, a.p);
  }

  lemma DropStored(s: State)
    requires Inv(s) && Enabled(s, SLeave) && s.mover.copy == Null
    ensures Stored(Apply(s, SLeave)) == StoredAfter(s, SLeave)
  {
    hide Inv, EraseQueue, CopyOk, Contents;
    TableFacts(s);
    MovingFacts(s);
    DropContents(s.sl.mem, Apply(s, SLeave).sl.mem, s.table, s.mover.key);
  }

  // What a rescue does to memory and table.
  lemma RescueEffect(s: State)
    requires Inv(s) && Enabled(s, SLeave) && s.mover.copy != Null
    ensures var t := Apply(s, SLeave);
      && t.table == s.table[s.mover.key := s.mover.copy]
      && s.mover.copy in t.sl.mem && RecordOf(t.sl.mem[s.mover.copy]) == RecordOf(s.sl.mem[s.mover.it])
      && (forall p :: p in s.sl.mem && p != s.mover.it && p != s.mover.copy ==>
            p in t.sl.mem && t.sl.mem[p] == s.sl.mem[p])
  {
    hide Inv, EraseQueue, PushQueue, CopyOk;
    MovingFacts(s);
  }

  lemma RescueStored(s: State)
    requires Inv(s) && Enabled(s, SLeave) && s.mover.Leaving? && s.mover.copy != Null
    ensures Stored(Apply(s, SLeave)) == Stored(s)
  {
    hide Inv, Enabled, Apply, CopyOk, Contents;
    TableFacts(s);
    MovingFacts(s);
    CopyUnlinked(s);
    RescueEffect(s);
    PutContents(s.sl.mem, Apply(s, SLeave).sl.mem, s.table, s.mover.key, s.mover.copy);
    StoredAt(s, s.mover.key);
  }

  lemma LeaveStored(s: State)
    requires Inv(s) && Enabled(s, SLeave)
    ensures Stored(Apply(s, SLeave)) == StoredAfter(s, SLeave)
  {
    hide Inv, Apply, CopyOk, Contents;
    if s.mover.copy == Null { DropStored(s); } else { RescueStored(s); }
  }

  lemma StoredAt(s: State, k: Key)
    requires k in s.table && s.table[k] in s.sl.mem
    ensures k in Stored(s) && Stored(s)[k] == RecordOf(s.sl.mem[s.table[k]])
  {
  }

  lemma CopyUnlinked(s: State)
    requires Inv(s) && s.mover.Leaving? && s.mover.copy != Null
    ensures !Linked(s, s.mover.copy)
  {
    hide SlabsOk, Refs, Links, Move;
    MovingFacts(s);
  }

  // No background step alters a value. Moving a page with its items rescued is invisible, and so are requeueing,
  // allocation, references, freeing and wiping; only a move that finds no rescue chunk drops a key.
  lemma StoredExactly(s: State, a: Step)
    requires Inv(s) && Enabled(s, a)
    ensures Stored(Apply(s, a)) == StoredAfter(s, a)
  {
    hide Inv, Apply, Enabled, SameItems, Contents;
    match a {
      case SLink(_) => LinkStored(s, a);
      case SUnlink(_) => UnlinkStored(s, a);
      case SWrite(_, _) => WriteStored(s, a);
      case SLeave => LeaveStored(s);
      case SRequest(_, _, _) => NoMemory(s, a);
      case SStart(_) => NoMemory(s, a);
      case SGiveUp => NoMemory(s, a);
      case SUnlock => NoMemory(s, a);
      case _ =>
        OthersStable(s, a);
        SameContents(s.sl.mem, Apply(s, a).sl.mem, s.table);
    }
  }

  lemma NoMemory(s: State, a: Step)
    requires Enabled(s, a) && (a.SRequest? || a.SStart? || a.SGiveUp? || a.SUnlock?)
    ensures Stored(Apply(s, a)) == StoredAfter(s, a)
  {
  }

  lemma OthersStable(s: State, a: Step)
    requires Inv(s) && Enabled(s, a)
    requires !a.SLink? && !a.SUnlink? && !a.SWrite? && !a.SLeave? && !a.SRequest? && !a.SStart? && !a.SGiveUp?
        && !a.SUnlock?
    ensures Apply(s, a).table == s.table && SameItems(s.sl.mem, Apply(s, a).sl.mem, s.table)
  {
    hide Inv, Apply, Enabled, SameItems;
    match a {
      case SAlloc(_, _, _) => AllocTable(s, a);
      case SDecide(_) => DecideTable(s, a);
      case SFinish => FinishStable(s);
      case SLook => MoverStable(s, a);
      case STryLock(_) => MoverStable(s, a);
      case SWipe => MoverStable(s, a);
      case _ => WorkerStable(s, a);
    }
  }
}
