// What an item and a page go through from one end to the other, over whole runs.
module EngineJourneys {
  import opened Memory
  import opened Linkage
  import opened SlabSpec
  import opened Engine
  import opened EngineInv
  import opened EditProofs
  import opened WorkerProofs
  import opened MoverProofs
  import opened FinishProofs
  import opened EngineTheorems
  import opened EngineContents
  import opened SlabAnswers
  import opened EngineRescue

  // ---- an item that is being prepared ----

  // Filled in, not linked, and held by a worker.
  ghost predicate InHand(s: State, p: Ptr) { Filled(s, p) && !s.sl.mem[p].flags.linked && Held(s, p) > 0 }

  // Nothing of the item has changed but perhaps its reference count.
  ghost predicate Untouched(s: State, z: State, p: Ptr) {
    p in s.sl.mem && p in z.sl.mem && z.sl.mem[p] == s.sl.mem[p].(refcount := z.sl.mem[p].refcount)
  }

  lemma MoverElsewhere(s: State, p: Ptr)
    requires Inv(s) && InHand(s, p)
    ensures s.sl.mem[p].refcount > 0
    ensures !s.mover.Rest? && !s.mover.SawLinked? ==> s.mover.it != p
    ensures s.mover.Leaving? && s.mover.copy != Null ==> s.mover.copy != p
  {
    hide SlabsOk, Links, Move, CopyOk;
    RefFacts(s.sl.mem, s.held, s.mover, p);
    if !s.mover.Rest? { MovingFacts(s); }
    if s.mover.Leaving? && s.mover.copy != Null { CopyAlone(s); }
  }

  lemma CopyAlone(s: State)
    requires Inv(s) && s.mover.Leaving? && s.mover.copy != Null
    ensures Held(s, s.mover.copy) == 0
  {
    hide SlabsOk, Links, Refs, Move;
    MovingFacts(s);
  }

  lemma AllocLeaves(s: State, a: Step, p: Ptr)
    requires Inv(s) && Enabled(s, a) && a.SAlloc? && InHand(s, p)
    ensures Untouched(s, Apply(s, a), p)
  {
    hide Inv, FreeLive, NewSlab, Pop;
    if ValidClass(s.sl, a.c) {
      var s1 := if s.sl.free[a.c] == [] then s.(sl := NewSlab(s.sl, a.c, a.raw)) else s;
      if s.sl.free[a.c] == [] {
        NewSlabKeeps(s, a.c, a.raw);
        NewSlabKept(s, a.c, a.raw);
      }
      if s1.sl.free[a.c] != [] {
        HeadFacts(s1, a.c);
        PopKept(s1.sl, a.size, a.c);
      }
    }
  }

  lemma DecideLeaves(s: State, a: Step, p: Ptr)
    requires Inv(s) && Enabled(s, a) && a.SDecide? && InHand(s, p)
    ensures Untouched(s, Apply(s, a), p)
  {
    hide Inv, FreeLive, RescueAlloc, CopyOk;
    MovingFacts(s);
    CursorFacts(s);
    if !a.dead && !s.rb.remove { RescueKept(s, Perslab(s), p); }
  }

  lemma MoverLeaves(s: State, a: Step, p: Ptr)
    requires Inv(s) && Enabled(s, a) && (a.SLook? || a.STryLock? || a.SLeave? || a.SWipe?) && InHand(s, p)
    ensures Untouched(s, Apply(s, a), p)
  {
    hide Inv, CopyOk, DoAlloc, DoFill, DoLink, DoUnlink, DoGet, DoRelease, DoFree, DoRequeue, DoWrite, DoRequest,
        DoStart, DoLook, DoTryLock, DoDecide, DoLeave, DoUnlock, DoWipe, DoFinish;
    MoverElsewhere(s, p);
    match a {
      case SLook => LookMem(s);
      case STryLock(granted) => TryLockLeaves(s, granted, p);
      case SLeave => LeaveMem(s, p);
      case _ => WipeMem(s);
    }
  }

  lemma TryLockLeaves(s: State, granted: bool, p: Ptr)
    requires Enabled(s, STryLock(granted)) && InHand(s, p)
    ensures var z := DoTryLock(s, granted); p in z.sl.mem && z.sl.mem[p] == s.sl.mem[p]
  {
    hide Advance;
  }

  lemma FinishLeaves(s: State, p: Ptr)
    requires Inv(s) && Enabled(s, SFinish) && InHand(s, p)
    ensures Untouched(s, Apply(s, SFinish), p)
  {
    hide Inv;
    AllWiped(s);
  }

  lemma WriterLeaves(s: State, a: Step, p: Ptr)
    requires Inv(s) && Enabled(s, a) && InHand(s, p) && (a.SFill? || a.SGet? || a.SRelease? || a.SWrite?)
    ensures Untouched(s, Apply(s, a), p)
  {
    hide Inv, DoAlloc, DoLink, DoUnlink, DoFree, DoRequeue, DoRequest, DoStart, DoLook, DoTryLock, DoDecide, DoLeave,
        DoUnlock, DoWipe, DoFinish, FreeLive;
  }

  lemma LinkerLeaves(s: State, a: Step, p: Ptr)
    requires Inv(s) && Enabled(s, a) && InHand(s, p) && (a.SLink? || a.SUnlink? || a.SRequeue?) && a != SLink(p)
    ensures Untouched(s, Apply(s, a), p)
  {
    hide Inv, DoAlloc, DoFill, DoGet, DoRelease, DoWrite, DoFree, DoRequest, DoStart, DoLook, DoTryLock, DoDecide,
        DoLeave, DoUnlock, DoWipe, DoFinish, FreeLive, PushQueue, EraseQueue;
  }

  lemma FreerLeaves(s: State, a: Step, p: Ptr)
    requires Inv(s) && Enabled(s, a) && InHand(s, p) && a.SFree?
    ensures Untouched(s, Apply(s, a), p)
  {
    MoverElsewhere(s, p);
    hide Inv, DoAlloc, DoFill, DoGet, DoRelease, DoWrite, DoLink, DoUnlink, DoRequeue, DoRequest, DoStart, DoLook,
        DoTryLock, DoDecide, DoLeave, DoUnlock, DoWipe, DoFinish, FreeLive;
  }

  lemma OthersLeave(s: State, a: Step, p: Ptr)
    requires Enabled(s, a) && InHand(s, p) && (a.SRequest? || a.SStart? || a.SGiveUp? || a.SUnlock?)
    ensures Untouched(s, Apply(s, a), p)
  {
    hide DoAlloc, DoFill, DoGet, DoRelease, DoWrite, DoLink, DoUnlink, DoRequeue, DoFree, DoLook, DoTryLock, DoDecide,
        DoLeave, DoWipe, DoFinish, FreeLive;
  }

  // While a worker holds an item that it has filled in and not yet linked, no other thread writes to it.
  lemma InHandKept(s: State, a: Step, p: Ptr)
    requires Inv(s) && Enabled(s, a) && InHand(s, p) && a != SLink(p)
    ensures Untouched(s, Apply(s, a), p)
  {
    hide Inv, Apply, Enabled, InHand, Untouched;
    match a {
      case SAlloc(_, _, _) => AllocLeaves(s, a, p);
      case SDecide(_) => DecideLeaves(s, a, p);
      case SFinish => FinishLeaves(s, p);
      case SLook => MoverLeaves(s, a, p);
      case STryLock(_) => MoverLeaves(s, a, p);
      case SLeave => MoverLeaves(s, a, p);
      case SWipe => MoverLeaves(s, a, p);
      case SFree(_) => FreerLeaves(s, a, p);
      case SLink(_) => LinkerLeaves(s, a, p);
      case SUnlink(_) => LinkerLeaves(s, a, p);
      case SRequeue(_, _, _) => LinkerLeaves(s, a, p);
      case SFill(_, _, _, _, _) => WriterLeaves(s, a, p);
      case SGet(_, _) => WriterLeaves(s, a, p);
      case SRelease(_) => WriterLeaves(s, a, p);
      case SWrite(_, _) => WriterLeaves(s, a, p);
      case _ => OthersLeave(s, a, p);
    }
  }

  lemma UntouchedTwice(s: State, x: State, z: State, p: Ptr)
    requires Untouched(s, x, p) && Untouched(x, z, p)
    ensures Untouched(s, z, p)
  {
  }

  lemma InHandThere(s: State, p: Ptr)
    requires InHand(s, p)
    ensures p in s.sl.mem && Untouched(s, s, p)
  {
  }

  lemma {:induction false} InHandOn(run: seq<State>, steps: seq<Step>, i: nat, j: nat, p: Ptr)
    requires IsRun(run, steps) && i <= j < |run|
    requires forall n :: i <= n <= j ==> InHand(run[n], p)
    ensures p in run[i].sl.mem && Untouched(run[i], run[j], p)
    decreases j
  {
    hide Inv, Enabled, Apply, Initial, InHand, Untouched;
    InHandThere(run[i], p);
    if i < j {
      InHandOn(run, steps, i, j - 1, p);
      RunInv(run, steps, j - 1);
      assert InHand(run[j], p);
      if steps[j - 1] == SLink(p) { LinkEndsIt(run[j - 1], steps[j - 1], p); }
      InHandKept(run[j - 1], steps[j - 1], p);
      UntouchedTwice(run[i], run[j - 1], run[j], p);
    }
  }

  lemma LinkEndsIt(s: State, a: Step, p: Ptr)
    requires Enabled(s, a) && a == SLink(p)
    ensures !InHand(Apply(s, a), p)
  {
    hide PushQueue;
  }

  // What do_item_alloc was asked for is what is stored under the key once the item is linked, whatever other threads
  // and the page mover do while its owner prepares it.
  lemma FilledIsStored(run: seq<State>, steps: seq<Step>, i: nat, j: nat)
    requires IsRun(run, steps) && i < j < |steps| && steps[i].SFill? && steps[j] == SLink(steps[i].p)
    requires forall n :: i < n <= j ==> InHand(run[n], steps[i].p)
    ensures steps[i].p in run[i].sl.mem
    ensures Stored(run[j + 1])
      == Stored(run[j])[steps[i].key := Record(steps[i].content, run[i].sl.mem[steps[i].p].ntotal)]
  {
    hide Apply, Initial, Contents, Filled;
    RunInv(run, steps, j);
    hide Inv;
    StoredExactly(run[j], steps[j]);
    InHandOn(run, steps, i + 1, j, steps[i].p);
    FillIs(run[i], steps[i]);
    hide Enabled;
  }

  lemma FillIs(s: State, a: Step)
    requires Enabled(s, a) && a.SFill?
    ensures var z := Apply(s, a);
      && a.p in s.sl.mem && a.p in z.sl.mem && z.sl.mem[a.p].key == a.key && z.sl.mem[a.p].content == a.content
      && z.sl.mem[a.p].ntotal == s.sl.mem[a.p].ntotal
  {
  }

  // ---- a page on its way ----

  // Which page goes where.
  ghost predicate SameMove(r: Rebal, t: Rebal) {
    t.src == r.src && t.dst == r.dst && t.remove == r.remove && t.index == r.index && t.start == r.start
  }

  lemma MoveKept(s: State, a: Step)
    requires Enabled(s, a) && !a.SRequest? && !a.SStart? && !a.SFinish?
    ensures SameMove(s.rb, Apply(s, a).rb)
  {
    hide SameMove;
    if a.SLook? || a.STryLock? || a.SWipe? { CursorMoves(s, a); } else { CursorStays(s, a); }
    SameAsIs(s.rb);
  }

  lemma SameAsIs(r: Rebal)
    ensures SameMove(r, r) && SameMove(r, r.(signal := 0))
  {
  }

  lemma CursorStays(s: State, a: Step)
    requires Enabled(s, a) && !a.SRequest? && !a.SStart? && !a.SFinish? && !a.SLook? && !a.STryLock? && !a.SWipe?
    ensures Apply(s, a).rb == s.rb || Apply(s, a).rb == s.rb.(signal := 0)
  {
    hide Defined, Alloc, FreeLive, PushQueue, EraseQueue, FreeChunk, RescueAlloc, HandOver, GiveBack;
  }

  lemma CursorMoves(s: State, a: Step)
    requires Enabled(s, a) && (a.SLook? || a.STryLock? || a.SWipe?)
    ensures SameMove(s.rb, Apply(s, a).rb)
  {
    hide DoAlloc, DoFill, DoLink, DoUnlink, DoGet, DoRelease, DoFree, DoRequeue, DoWrite, DoRequest, DoStart, DoDecide,
        DoLeave, DoUnlock, DoFinish, DoLook, DoTryLock, DoWipe, FreeLive, SameMove;
    match a {
      case SLook => LookMoves(s);
      case STryLock(granted) => TryLockMoves(s, granted);
      case _ => WipeMoves(s);
    }
  }

  lemma AdvanceMoves(rb: Rebal, perslab: nat, wasBusy: nat)
    ensures SameMove(rb, Advance(rb, perslab, wasBusy)) && SameMove(rb, rb)
  {
  }

  lemma LookMoves(s: State)
    requires Enabled(s, SLook)
    ensures SameMove(s.rb, DoLook(s).rb)
  {
    hide Advance, Erase, SameMove;
    AdvanceMoves(s.rb, Perslab(s), 0);
    AdvanceMoves(s.rb, Perslab(s), 1);
  }

  lemma TryLockMoves(s: State, granted: bool)
    requires Enabled(s, STryLock(granted))
    ensures SameMove(s.rb, DoTryLock(s, granted).rb)
  {
    hide Advance, SameMove;
    AdvanceMoves(s.rb, Perslab(s), 1);
  }

  lemma WipeMoves(s: State)
    requires Enabled(s, SWipe)
    ensures SameMove(s.rb, DoWipe(s).rb)
  {
    hide Advance, SameMove;
    AdvanceMoves(s.rb, Perslab(s), 0);
  }

  lemma {:induction false} MoveKeptOn(run: seq<State>, steps: seq<Step>, i: nat, j: nat)
    requires IsRun(run, steps) && i <= j < |run|
    requires forall n :: i <= n < j ==> !steps[n].SRequest? && !steps[n].SStart? && !steps[n].SFinish?
    ensures SameMove(run[i].rb, run[j].rb)
    decreases j
  {
    hide Enabled, Apply, Initial;
    if i < j {
      MoveKeptOn(run, steps, i, j - 1);
      MoveKept(run[j - 1], steps[j - 1]);
    }
  }

  // The page that is taken when a move ends is the one that was chosen when it started, and it goes where the request
  // said: to the class named, or out of the process.
  lemma RequestIsMet(run: seq<State>, steps: seq<Step>, i: nat, k: nat, j: nat)
    requires IsRun(run, steps) && i < k < j < |steps| && steps[i].SRequest? && steps[k].SStart? && steps[j].SFinish?
    requires forall n :: i < n < j && n != k ==> !steps[n].SRequest? && !steps[n].SStart? && !steps[n].SFinish?
    ensures var src, dst, index := steps[i].src, steps[i].dst, steps[k].index;
      && ValidClass(run[j].sl, src) && HasClass(run[j].sl, dst) && HasClass(run[k].sl, src)
      && index < |run[k].sl.pages[src]| && index < |run[j].sl.pages[src]|
      && run[j].sl.pages[src][index] == run[k].sl.pages[src][index]
      && if steps[i].remove then GivenBack(run[j].sl, run[j + 1].sl, src, index)
         else HandedOver(run[j].sl, run[j + 1].sl, src, index, dst)
  {
    hide Inv, Apply, Enabled, Initial, SameMove, HandedOver, GivenBack;
    RequestIs(run[i], steps[i]);
    MoveKeptOn(run, steps, i + 1, k);
    StartIs(run[k], steps[k]);
    MoveKeptOn(run, steps, k + 1, j);
    RunInv(run, steps, j);
    PageArrives(run[j]);
    MoveChain(run[i + 1].rb, run[k].rb, run[k + 1].rb, run[j].rb, steps[k].index);
  }

  lemma RequestIs(s: State, a: Step)
    requires Enabled(s, a) && a.SRequest?
    ensures var r := Apply(s, a).rb; r.src == a.src && r.dst == a.dst && r.remove == a.remove
  {
  }

  lemma StartIs(s: State, a: Step)
    requires Enabled(s, a) && a.SStart?
    ensures HasClass(s.sl, s.rb.src) && a.index < |s.sl.pages[s.rb.src]|
    ensures var r := Apply(s, a).rb;
      && r.src == s.rb.src && r.dst == s.rb.dst && r.remove == s.rb.remove && r.index == a.index
      && r.start == s.sl.pages[s.rb.src][a.index]
  {
  }

  lemma MoveChain(r: Rebal, s: Rebal, t: Rebal, u: Rebal, index: nat)
    requires SameMove(r, s) && SameMove(t, u) && t.index == index
    requires t.src == s.src && t.dst == s.dst && t.remove == s.remove
    ensures s.src == r.src && u.src == r.src && u.dst == r.dst && u.remove == r.remove && u.index == index
    ensures u.start == t.start
  {
  }
}
