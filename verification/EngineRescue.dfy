// What the page mover achieves: when it saves the item it has found, and that a pass over a page nobody holds on to
// empties the page.
module EngineRescue {
  import opened Memory
  import opened Linkage
  import opened SlabSpec
  import opened Engine
  import opened EngineInv
  import opened WorkerProofs
  import opened MoverProofs
  import opened EngineTheorems
  import opened EngineCounts
  import opened EngineContents
  import opened SlabAnswers

  // ---- rescue or drop ----

  function SourceFree(s: State): seq<Ptr>
    requires s.rb.src < |s.sl.free|
  {
    s.sl.free[s.rb.src]
  }

  // Some free chunk of the class lies outside the page that is being emptied.
  ghost predicate HasRoomElsewhere(s: State) {
    s.rb.src < |s.sl.free|
    && exists i :: 0 <= i < |SourceFree(s)| && !(SourceFree(s)[i].Chunk? && SourceFree(s)[i].page == s.rb.start)
  }

  // The mover saves the item unless it is dead, the page is to be removed, or there is no room.
  ghost predicate Saves(s: State, dead: bool) { !dead && !s.rb.remove && HasRoomElsewhere(s) }

  lemma FreeFacts(s: State)
    requires Inv(s) && ValidClass(s.sl, s.rb.src)
    ensures NoDup(SourceFree(s)) && FreeLive(s.sl.free, s.sl.mem)
    ensures forall p :: p in SourceFree(s) ==>
      && p in s.sl.mem && p.Chunk? && s.sl.mem[p].flags.slabbed && OwnerIn(s.sl.owner, p) == s.rb.src
      && p.idx < s.sl.perslab[s.rb.src]
  {
    InvLive(s);
    hide PagesOk, SlabbedOk, Refs, Links, Move;
  }

  // The tries suffice: the page holds the item too, which is not free.
  lemma FewInside(s: State, i: nat)
    requires Inv(s) && !s.mover.Rest? && ValidClass(s.sl, s.rb.src) && Inside(SourceFree(s), i, s.rb.start)
    ensures i < Perslab(s)
  {
    hide Inv, FreeLive, CopyOk;
    FreeFacts(s);
    MovingFacts(s);
    CursorFacts(s);
    var head := SourceFree(s)[..i];
    var page := PageSet(s.rb.start, Perslab(s));
    forall p | p in head ensures p in page - {s.mover.it} {
      assert p in SourceFree(s);
      assert p == Chunk(s.rb.start, p.idx);
    }
    SeqSetSize(head);
    PageSetSize(s.rb.start, Perslab(s));
    assert s.mover.it in page;
    Subset((set p | p in head), page - {s.mover.it});
  }

  // The decision, under slabs_lock: the rescue chunk is the first free one outside the page, and there is none exactly
  // when the item is dead, the page is to be removed, or all free chunks of the class lie in the page.
  lemma DecideSaves(s: State, dead: bool)
    requires Inv(s) && Enabled(s, SDecide(dead))
    ensures ValidClass(s.sl, s.rb.src)
    ensures var z := Apply(s, SDecide(dead));
      && z.mover.Leaving? && z.mover.it == s.mover.it && z.mover.key == s.mover.key && z.rb == s.rb
      && (z.mover.copy != Null <==> Saves(s, dead))
      && (z.mover.copy != Null ==>
            exists i: nat :: Inside(SourceFree(s), i, s.rb.start) && i < |SourceFree(s)|
              && SourceFree(s)[i] == z.mover.copy && z.mover.copy.Chunk? && z.mover.copy.page != s.rb.start)
  {
    hide Inv, FreeLive, RescueAlloc, CopyOk;
    MovingFacts(s);
    CursorFacts(s);
    FreeFacts(s);
    if !dead && !s.rb.remove {
      var free, size := SourceFree(s), s.sl.mem[s.mover.it].ntotal;
      var i := FirstOutside(free, s.rb.start);
      FewInside(s, i);
      if i < |free| {
        assert free[i] in free;
        RescueFinds(s.sl, size, s.rb.src, s.rb.start, Perslab(s), i);
      } else {
        RescueFindsNone(s.sl, size, s.rb.src, s.rb.start, Perslab(s), i);
      }
    }
  }

  // Until the mover leaves the item nothing about it changes.
  lemma MoverWaits(s: State, a: Step)
    requires Enabled(s, a) && s.mover.Leaving? && !a.SLeave?
    ensures Apply(s, a).mover == s.mover
  {
    hide Defined, Alloc, FreeLive, PushQueue, EraseQueue, FreeChunk, RescueAlloc, HandOver, GiveBack;
  }

  lemma {:induction false} MoverWaitsOn(run: seq<State>, steps: seq<Step>, i: nat, j: nat)
    requires IsRun(run, steps) && i <= j < |run| && run[i].mover.Leaving?
    requires forall n :: i <= n < j ==> !steps[n].SLeave?
    ensures run[j].mover == run[i].mover
    decreases j
  {
    hide Enabled, Apply, Initial;
    if i < j {
      MoverWaitsOn(run, steps, i, j - 1);
      MoverWaits(run[j - 1], steps[j - 1]);
    }
  }

  // What clients stored survives the move of its item if and only if the mover could save it, whatever workers do
  // between its decision and the moment it leaves the item.
  lemma RescueKeepsWhatIsStored(run: seq<State>, steps: seq<Step>, i: nat, j: nat)
    requires IsRun(run, steps) && i < j < |steps| && steps[i].SDecide? && steps[j].SLeave?
    requires forall n :: i < n < j ==> !steps[n].SLeave?
    ensures var key := run[i].mover.key;
      && run[i].mover.Pinned? && key in Stored(run[j])
      && Stored(run[j + 1]) == if Saves(run[i], steps[i].dead) then Stored(run[j]) else Stored(run[j]) - {key}
  {
    hide Inv, Enabled, Apply, Initial, Saves, Contents, CopyOk;
    RunInv(run, steps, i);
    RunInv(run, steps, j);
    DecidePinned(run[i], steps[i]);
    DecideSaves(run[i], steps[i].dead);
    MoverWaitsOn(run, steps, i + 1, j);
    StoredExactly(run[j], steps[j]);
    LeavingStored(run[j]);
  }

  lemma DecidePinned(s: State, a: Step)
    requires Enabled(s, a) && a.SDecide?
    ensures s.mover.Pinned?
  {
  }

  lemma LeavingStored(s: State)
    requires Inv(s) && s.mover.Leaving?
    ensures s.mover.key in Stored(s)
  {
    hide Inv, Contents, CopyOk;
    MovingFacts(s);
    TableFacts(s);
    StoredAt(s, s.mover.key);
  }

  // ---- a pass ----

  ghost predicate Goes(s: State, steps: seq<Step>, z: State)
    decreases |steps|
  {
    if steps == [] then z == s else Enabled(s, steps[0]) && Goes(Apply(s, steps[0]), steps[1..], z)
  }

  lemma {:induction false} GoesOn(s: State, a: seq<Step>, x: State, b: seq<Step>, z: State)
    requires Goes(s, a, x) && Goes(x, b, z)
    ensures Goes(s, a + b, z)
    decreases |a|
  {
    hide Enabled, Apply;
    if a == [] {
      assert a + b == b;
    } else {
      assert (a + b)[1..] == a[1..] + b;
      GoesOn(Apply(s, a[0]), a[1..], x, b, z);
    }
  }

  lemma GoesStep(s: State, a: seq<Step>, x: State, b: Step)
    requires Goes(s, a, x) && Enabled(x, b)
    ensures Goes(s, a + [b], Apply(x, b))
  {
    hide Enabled, Apply;
    assert [b][1..] == [];
    assert Goes(Apply(x, b), [], Apply(x, b));
    assert Goes(x, [b], Apply(x, b));
    GoesOn(s, a, x, [b], Apply(x, b));
  }

  // What the mover does when every item lock it asks for is free and no item is dead.
  predicate MoverAlone(a: Step) {
    a.SLook? || (a.STryLock? && a.granted) || (a.SDecide? && !a.dead) || a.SLeave? || a.SUnlock? || a.SWipe?
  }

  // A chunk that is on the freelist or wiped, or a stored item that nobody is using.
  ghost predicate LetGo(s: State, p: Ptr) {
    p in s.sl.mem && (s.sl.mem[p].flags.slabbed || (Linked(s, p) && Held(s, p) == 0))
  }

  ghost predicate PageLetGo(s: State) { forall k: nat :: k < Perslab(s) ==> LetGo(s, Chunk(s.rb.start, k)) }

  // All of the page but the chunk at the cursor.
  ghost predicate RestLetGo(s: State) {
    forall k: nat :: k < Perslab(s) && k != s.rb.pos ==> LetGo(s, Chunk(s.rb.start, k))
  }

  ghost predicate AtChunk(s: State) {
    Inv(s) && Moving(s) && s.rb.done == 0 && s.mover.Rest? && PageLetGo(s)
  }

  // The cursor has moved on, or is back at the start of the page after a busy pass, and the whole page is as free to be
  // taken as before.
  ghost predicate Onward(s: State, z: State) {
    && Inv(z) && Moving(z) && z.mover.Rest? && z.rb.start == s.rb.start && Perslab(z) == Perslab(s)
    && z.rb.src == s.rb.src && PageLetGo(z)
    && (if s.rb.pos + 1 < Perslab(s) then z.rb.done == 0 && z.rb.pos == s.rb.pos + 1 && z.rb.busy == s.rb.busy
        else if s.rb.busy > 0 then z.rb.done == 0 && z.rb.pos == 0 && z.rb.busy == 0
        else z.rb.done > 0)
  }

  // The same page, class and references, and the other chunks are as free to be taken as before.
  ghost predicate Along(s: State, z: State) {
    && Inv(z) && z.rb == s.rb && z.held == s.held && Perslab(z) == Perslab(s)
    && (RestLetGo(s) ==> RestLetGo(z))
  }

  lemma AlongTwice(s: State, x: State, z: State)
    requires Along(s, x) && Along(x, z)
    ensures Along(s, z)
  {
    hide Inv, PageLetGo, RestLetGo;
  }

  // Chunks of the page other than this one are left alone, or stay slabbed.
  ghost predicate OthersLeft(s: State, z: State, it: Ptr) {
    forall p :: p in s.sl.mem && p.Chunk? && p.page == s.rb.start && p != it ==>
      p in z.sl.mem && (z.sl.mem[p] == s.sl.mem[p] || (s.sl.mem[p].flags.slabbed && z.sl.mem[p].flags.slabbed))
  }

  lemma StillLetGo(s: State, z: State)
    requires OthersLeft(s, z, Cursor(s)) && z.rb.start == s.rb.start && z.held == s.held && Perslab(z) == Perslab(s)
    requires RestLetGo(s)
    ensures forall k: nat :: k < Perslab(z) && k != s.rb.pos ==> LetGo(z, Chunk(z.rb.start, k))
  {
    forall k: nat | k < Perslab(z) && k != s.rb.pos ensures LetGo(z, Chunk(z.rb.start, k)) {
      assert LetGo(s, Chunk(s.rb.start, k));
    }
  }

  lemma AlongIs(s: State, z: State)
    requires Inv(z) && z.rb == s.rb && z.held == s.held && Perslab(z) == Perslab(s) && OthersLeft(s, z, Cursor(s))
    ensures Along(s, z)
  {
    hide Inv, OthersLeft, LetGo;
    if RestLetGo(s) { StillLetGo(s, z); }
  }

  lemma OnwardIs(s: State, z: State)
    requires Inv(z) && s.rb.signal == 2 && s.rb.done == 0 && z.rb == Advance(s.rb, Perslab(s), 0) && RestLetGo(s)
    requires z.mover.Rest? && z.held == s.held && Perslab(z) == Perslab(s) && OthersLeft(s, z, Cursor(s))
    requires Cursor(s) in z.sl.mem && z.sl.mem[Cursor(s)].flags.slabbed
    ensures Onward(s, z)
  {
    hide Inv, OthersLeft, RestLetGo;
    StillLetGo(s, z);
    assert LetGo(z, Chunk(z.rb.start, s.rb.pos));
    hide LetGo;
  }

  // ---- a chunk that is on the freelist or wiped ----

  lemma LookSlabbed(s: State)
    requires AtChunk(s) && Cursor(s) in s.sl.mem && s.sl.mem[Cursor(s)].flags.slabbed
    ensures Enabled(s, SLook) && Onward(s, Apply(s, SLook))
  {
    hide Inv, PageLetGo, RestLetGo, Onward, OthersLeft, Advance;
    StepIsSafe(s, SLook);
    StepKeepsInv(s, SLook);
    LookSlabbedEffect(s);
    LetGoRest(s);
    OnwardIs(s, Apply(s, SLook));
  }

  lemma LetGoRest(s: State)
    requires PageLetGo(s)
    ensures RestLetGo(s)
  {
    hide LetGo;
  }

  lemma LookSlabbedEffect(s: State)
    requires Enabled(s, SLook) && s.sl.mem[Cursor(s)].flags.slabbed
    ensures var z := Apply(s, SLook);
      && z.rb == Advance(s.rb, Perslab(s), 0) && z.mover == s.mover && z.held == s.held && Perslab(z) == Perslab(s)
      && OthersLeft(s, z, Cursor(s)) && Cursor(s) in z.sl.mem && z.sl.mem[Cursor(s)].flags.slabbed
  {
    hide Erase;
  }

  // ---- a stored item ----

  lemma LookLinked(s: State)
    requires AtChunk(s) && Linked(s, Cursor(s))
    ensures Enabled(s, SLook)
    ensures var z := Apply(s, SLook);
      Along(s, z) && z.mover.SawLinked? && z.mover.it == Cursor(s) && Linked(z, Cursor(s))
  {
    hide Inv, PageLetGo, RestLetGo, OthersLeft, Along;
    StepIsSafe(s, SLook);
    StepKeepsInv(s, SLook);
    LinkedNotSlabbed(s, Cursor(s));
    LookLinkedEffect(s);
    AlongIs(s, Apply(s, SLook));
  }

  lemma LinkedNotSlabbed(s: State, p: Ptr)
    requires Inv(s) && Linked(s, p)
    ensures !s.sl.mem[p].flags.slabbed
  {
    hide SlabsOk, Refs, Move, TableOk, QueuesOnce, QueuedOk, HomeOk;
  }

  lemma LookLinkedEffect(s: State)
    requires Enabled(s, SLook) && Linked(s, Cursor(s)) && !s.sl.mem[Cursor(s)].flags.slabbed
    ensures var z := Apply(s, SLook);
      && z == s.(mover := SawLinked(Cursor(s), s.sl.mem[Cursor(s)].key)) && Perslab(z) == Perslab(s)
      && OthersLeft(s, z, Cursor(s))
  {
  }

  lemma LockPins(s: State)
    requires Inv(s) && s.mover.SawLinked? && s.mover.it == Cursor(s) && Linked(s, Cursor(s)) && Held(s, Cursor(s)) == 0
    ensures Enabled(s, STryLock(true))
    ensures var z := Apply(s, STryLock(true)); Along(s, z) && z.mover.Pinned? && z.mover.it == Cursor(s)
  {
    hide Inv, PageLetGo, RestLetGo, OthersLeft, Along;
    StepIsSafe(s, STryLock(true));
    StepKeepsInv(s, STryLock(true));
    OneReference(s);
    LockEffect(s);
    AlongIs(s, Apply(s, STryLock(true)));
  }

  lemma OneReference(s: State)
    requires Inv(s) && s.mover.SawLinked? && Linked(s, s.mover.it) && Held(s, s.mover.it) == 0
    ensures s.sl.mem[s.mover.it].refcount == 1
  {
    LinkedNotSlabbed(s, s.mover.it);
    hide SlabsOk, Links, Move;
  }

  lemma LockEffect(s: State)
    requires Enabled(s, STryLock(true)) && s.mover.it == Cursor(s) && Linked(s, Cursor(s))
    requires s.sl.mem[Cursor(s)].refcount == 1
    ensures var z := Apply(s, STryLock(true));
      && z.rb == s.rb && z.held == s.held && Perslab(z) == Perslab(s) && OthersLeft(s, z, Cursor(s))
      && z.mover == Pinned(s.mover.it, s.mover.key)
  {
  }

  lemma DecideGoesOn(s: State)
    requires Inv(s) && s.mover.Pinned? && s.mover.it == Cursor(s)
    ensures Enabled(s, SDecide(false))
    ensures var z := Apply(s, SDecide(false));
      && Along(s, z) && z.mover.Leaving? && z.mover.it == Cursor(s)
      && (z.mover.copy == Null || (z.mover.copy.Chunk? && z.mover.copy.page != s.rb.start))
  {
    hide Inv, PageLetGo, RestLetGo, OthersLeft, Along, Saves, Inside;
    StepIsSafe(s, SDecide(false));
    StepKeepsInv(s, SDecide(false));
    DecideSaves(s, false);
    DecideEffect(s);
    AlongIs(s, Apply(s, SDecide(false)));
  }

  lemma DecideEffect(s: State)
    requires Inv(s) && Enabled(s, SDecide(false))
    ensures var z := Apply(s, SDecide(false));
      z.held == s.held && Perslab(z) == Perslab(s) && OthersLeft(s, z, Cursor(s))
  {
    hide Inv, FreeLive, RescueAlloc, CopyOk;
    MovingFacts(s);
    CursorFacts(s);
    FreeFacts(s);
    RescueFrame(s.sl, s.sl.mem[s.mover.it].ntotal, s.rb.src, s.rb.start, Perslab(s));
    RescueLeaves(s.sl, s.sl.mem[s.mover.it].ntotal, s.rb.src, s.rb.start, Perslab(s));
  }

  // On its way to the rescue chunk the mover only wipes free chunks of the page.
  lemma {:induction false} RescueLeaves(sl: Slabs, size: nat, c: nat, start: nat, n: nat)
    requires FreeLive(sl.free, sl.mem) && ValidClass(sl, c)
    requires forall p :: p in sl.free[c] ==> p.Chunk? && p in sl.mem && sl.mem[p].flags.slabbed
    requires NoDup(sl.free[c])
    ensures var r := RescueAlloc(sl, size, c, start, n).0;
      forall p :: p in sl.mem && p.Chunk? && p.page == start ==>
        p in r.mem && (r.mem[p] == sl.mem[p] || (sl.mem[p].flags.slabbed && r.mem[p].flags.slabbed))
    decreases n
  {
    hide FreeLive;
    if n > 0 && sl.free[c] != [] {
      var p := sl.free[c][0];
      assert p in sl.free[c];
      if p.page == start {
        var sl1 := Wipe(Uncharge(Pop(sl, size, c), c, size), p);
        PopKept(sl, size, c);
        assert forall q :: q in sl1.free[c] ==> q in sl.free[c] && q != p;
        WipedLive(sl, size, c);
        RescueLeaves(sl1, size, c, start, n - 1);
      }
    }
  }

  lemma WipedLive(sl: Slabs, size: nat, c: nat)
    requires FreeLive(sl.free, sl.mem) && ValidClass(sl, c) && sl.free[c] != [] && sl.free[c][0] in sl.mem
    ensures var p := sl.free[c][0]; var sl0 := Pop(sl, size, c);
      && HasClass(sl0, c) && p in Uncharge(sl0, c, size).mem
      && var sl1 := Wipe(Uncharge(sl0, c, size), p); FreeLive(sl1.free, sl1.mem)
  {
    assert forall d, q :: 0 <= d < |sl.free| && q in Pop(sl, size, c).free[d] ==> q in sl.free[d];
  }

  lemma LeaveGoesOn(s: State)
    requires Inv(s) && s.mover.Leaving? && s.mover.it == Cursor(s)
    requires s.mover.copy == Null || (s.mover.copy.Chunk? && s.mover.copy.page != s.rb.start)
    ensures Enabled(s, SLeave)
    ensures var z := Apply(s, SLeave); Along(s, z) && z.mover.Left? && z.mover.it == Cursor(s)
  {
    hide Inv, PageLetGo, RestLetGo, OthersLeft, Along;
    StepIsSafe(s, SLeave);
    StepKeepsInv(s, SLeave);
    LeaveEffect(s);
    AlongIs(s, Apply(s, SLeave));
  }

  lemma LeaveEffect(s: State)
    requires Enabled(s, SLeave) && s.mover.it == Cursor(s)
    requires s.mover.copy == Null || (s.mover.copy.Chunk? && s.mover.copy.page != s.rb.start)
    ensures var z := Apply(s, SLeave);
      && z.rb == s.rb && z.held == s.held && Perslab(z) == Perslab(s) && OthersLeft(s, z, Cursor(s))
      && z.mover == Left(s.mover.it, s.mover.key)
  {
    hide EraseQueue, PushQueue;
  }

  lemma UnlockGoesOn(s: State)
    requires Inv(s) && s.mover.Left? && s.mover.it == Cursor(s)
    ensures Enabled(s, SUnlock)
    ensures var z := Apply(s, SUnlock); Along(s, z) && z.mover.Unlocked? && z.mover.it == Cursor(s)
  {
    hide Inv, PageLetGo, RestLetGo, OthersLeft, Along;
    StepIsSafe(s, SUnlock);
    StepKeepsInv(s, SUnlock);
    UnlockEffect(s);
    AlongIs(s, Apply(s, SUnlock));
  }

  lemma UnlockEffect(s: State)
    requires Enabled(s, SUnlock)
    ensures var z := Apply(s, SUnlock);
      && z == s.(mover := Unlocked(s.mover.it)) && Perslab(z) == Perslab(s) && OthersLeft(s, z, Cursor(s))
  {
  }

  lemma WipeGoesOn(s: State)
    requires Inv(s) && s.mover.Unlocked? && s.mover.it == Cursor(s) && RestLetGo(s)
    ensures Enabled(s, SWipe) && Onward(s, Apply(s, SWipe))
  {
    hide Inv, PageLetGo, RestLetGo, OthersLeft, Onward, Advance;
    StepIsSafe(s, SWipe);
    StepKeepsInv(s, SWipe);
    MovingFacts(s);
    WipeEffect(s);
    OnwardIs(s, Apply(s, SWipe));
  }

  lemma WipeEffect(s: State)
    requires Enabled(s, SWipe) && s.mover.it == Cursor(s)
    ensures var z := Apply(s, SWipe);
      && z.rb == Advance(s.rb, Perslab(s), 0) && z.mover.Rest? && z.held == s.held && Perslab(z) == Perslab(s)
      && OthersLeft(s, z, Cursor(s)) && Cursor(s) in z.sl.mem && z.sl.mem[Cursor(s)].flags.slabbed
  {
  }

  // One chunk of the pass.
  lemma ChunkDone(s: State) returns (steps: seq<Step>, z: State)
    requires AtChunk(s)
    ensures Goes(s, steps, z) && Onward(s, z) && forall i :: 0 <= i < |steps| ==> MoverAlone(steps[i])
  {
    hide Inv, Enabled, Apply, PageLetGo, RestLetGo, Along, Onward;
    CursorLetGo(s);
    assert Goes(s, [], s);
    if s.sl.mem[Cursor(s)].flags.slabbed {
      LookSlabbed(s);
      GoesStep(s, [], s, SLook);
      steps, z := [] + [SLook], Apply(s, SLook);
    } else {
      steps, z := ItemDone(s);
    }
  }

  lemma CursorLetGo(s: State)
    requires AtChunk(s)
    ensures LetGo(s, Cursor(s))
  {
    hide LetGo;
    CursorFacts(s);
    hide Inv;
  }

  lemma ItemDone(s: State) returns (steps: seq<Step>, z: State)
    requires AtChunk(s) && Linked(s, Cursor(s)) && Held(s, Cursor(s)) == 0
    ensures Goes(s, steps, z) && Onward(s, z) && forall i :: 0 <= i < |steps| ==> MoverAlone(steps[i])
  {
    hide Inv, Enabled, Apply, PageLetGo, RestLetGo, Along, Onward, Goes;
    NoSteps(s);
    LookLinked(s);
    GoesStep(s, [], s, SLook);
    var x1 := Apply(s, SLook);
    AlongFacts(s, x1);
    LockPins(x1);
    GoesStep(s, [] + [SLook], x1, STryLock(true));
    var x2 := Apply(x1, STryLock(true));
    AlongTwice(s, x1, x2);
    AlongFacts(s, x2);
    DecideGoesOn(x2);
    GoesStep(s, [] + [SLook] + [STryLock(true)], x2, SDecide(false));
    var x3 := Apply(x2, SDecide(false));
    AlongTwice(s, x2, x3);
    AlongFacts(s, x3);
    var a := [] + [SLook] + [STryLock(true)] + [SDecide(false)];
    var b;
    b, z := ItemLeft(x3);
    GoesOn(s, a, x3, b, z);
    OnwardFrom(s, x3, z);
    steps := a + b;
  }

  lemma ItemLeft(s: State) returns (steps: seq<Step>, z: State)
    requires Inv(s) && s.mover.Leaving? && s.mover.it == Cursor(s) && RestLetGo(s)
    requires s.mover.copy == Null || (s.mover.copy.Chunk? && s.mover.copy.page != s.rb.start)
    ensures Goes(s, steps, z) && Onward(s, z) && forall i :: 0 <= i < |steps| ==> MoverAlone(steps[i])
  {
    hide Inv, Enabled, Apply, PageLetGo, RestLetGo, Along, Onward, Goes;
    NoSteps(s);
    LeaveGoesOn(s);
    GoesStep(s, [], s, SLeave);
    var x1 := Apply(s, SLeave);
    AlongFacts(s, x1);
    UnlockGoesOn(x1);
    GoesStep(s, [] + [SLeave], x1, SUnlock);
    var x2 := Apply(x1, SUnlock);
    AlongTwice(s, x1, x2);
    AlongFacts(s, x2);
    WipeGoesOn(x2);
    GoesStep(s, [] + [SLeave] + [SUnlock], x2, SWipe);
    z := Apply(x2, SWipe);
    OnwardFrom(s, x2, z);
    steps := [] + [SLeave] + [SUnlock] + [SWipe];
  }

  lemma NoSteps(s: State)
    ensures Goes(s, [], s)
  {
  }

  lemma AlongFacts(s: State, z: State)
    requires Along(s, z)
    ensures Inv(z) && z.rb == s.rb && z.held == s.held && Perslab(z) == Perslab(s) && Cursor(z) == Cursor(s)
    ensures RestLetGo(s) || PageLetGo(s) ==> RestLetGo(z)
  {
    hide Inv, PageLetGo, RestLetGo;
    if PageLetGo(s) { LetGoRest(s); }
  }

  lemma OnwardFrom(s: State, x: State, z: State)
    requires Along(s, x) && Onward(x, z)
    ensures Onward(s, z)
  {
    hide Inv, PageLetGo, RestLetGo;
  }

  // From wherever it stands in a page in which nobody holds on to a chunk, with every item lock free, the mover empties
  // the page: in this pass, or in the next one if it has met busy chunks in this one.
  lemma {:induction false} PassEmptiesThePage(s: State) returns (steps: seq<Step>, z: State)
    requires AtChunk(s)
    ensures Goes(s, steps, z) && (forall i :: 0 <= i < |steps| ==> MoverAlone(steps[i]))
    ensures Inv(z) && z.rb.done > 0 && z.rb.start == s.rb.start
    ensures forall k: nat :: k < Perslab(z) ==> IsCleared(z.sl.mem, Chunk(z.rb.start, k))
    decreases if s.rb.busy > 0 then 1 else 0, Perslab(s) - s.rb.pos
  {
    hide Inv, Enabled, Apply, PageLetGo, RestLetGo, Goes, IsCleared;
    CursorBelow(s);
    var a, x := ChunkDone(s);
    if x.rb.done > 0 {
      steps, z := a, x;
      DoneCleared(z);
    } else {
      var b;
      b, z := PassEmptiesThePage(x);
      GoesOn(s, a, x, b, z);
      steps := a + b;
    }
  }

  lemma CursorBelow(s: State)
    requires AtChunk(s)
    ensures s.rb.pos < Perslab(s)
  {
    CursorFacts(s);
    hide Inv;
  }

  lemma DoneCleared(z: State)
    requires Inv(z) && Moving(z) && z.rb.done > 0
    ensures forall k: nat :: k < Perslab(z) ==> IsCleared(z.sl.mem, Chunk(z.rb.start, k))
  {
    hide SlabsOk, Refs, Links, ClearedOk, PageOk, MoverOk, IsCleared;
  }

  // ---- where the page goes ----

  // The page that was emptied leaves its class for the one it was meant for, or for the system.
  lemma PageArrives(s: State)
    requires Inv(s) && Enabled(s, SFinish)
    ensures Moving(s) && ValidClass(s.sl, s.rb.src) && HasClass(s.sl, s.rb.dst) && s.rb.index < |s.sl.pages[s.rb.src]|
    ensures s.sl.pages[s.rb.src][s.rb.index] == s.rb.start
    ensures var z := Apply(s, SFinish);
      && z.rb == IDLE && z.table == s.table && z.lru == s.lru && z.held == s.held
      && if s.rb.remove then GivenBack(s.sl, z.sl, s.rb.src, s.rb.index)
         else HandedOver(s.sl, z.sl, s.rb.src, s.rb.index, s.rb.dst)
  {
    FinishPage(s);
    hide Inv, HandOver, GiveBack, HandedOver, GivenBack;
    if s.rb.remove {
      GiveBackGives(s.sl, s.rb.src, s.rb.index);
    } else {
      HandOverHands(s.sl, s.rb.src, s.rb.index, s.rb.dst);
    }
  }

  lemma FinishPage(s: State)
    requires Inv(s) && Enabled(s, SFinish)
    ensures Moving(s) && s.rb.index < |s.sl.pages[s.rb.src]| && s.sl.pages[s.rb.src][s.rb.index] == s.rb.start
  {
    hide SlabsOk, Refs, Links, ClearedOk, BehindOk, MoverOk;
  }
}
