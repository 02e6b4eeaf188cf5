// The requested counter of a class is the size of the items in its chunks.
module EngineBytes {
  import opened Memory
  import opened Linkage
  import opened SlabSpec
  import opened Engine
  import opened EngineInv
  import opened SlabProofs
  import opened EditProofs
  import opened WorkerProofs
  import opened MoverProofs
  import opened FinishProofs
  import opened EngineTheorems
  import opened EngineCounts

  function ChargeOf(mem: map<Ptr, Item>, p: Ptr): nat { if p in mem && !mem[p].flags.slabbed then mem[p].ntotal else 0 }

  // ITEM_ntotal summed over the chunks handed out in the first n chunks of a page, and over a list of pages.
  function SumPage(mem: map<Ptr, Item>, g: nat, n: nat): nat {
    if n == 0 then 0 else SumPage(mem, g, n - 1) + ChargeOf(mem, Chunk(g, n - 1))
  }

  function SumPages(mem: map<Ptr, Item>, pages: seq<nat>, n: nat): nat {
    if pages == [] then 0 else SumPages(mem, pages[..|pages| - 1], n) + SumPage(mem, pages[|pages| - 1], n)
  }

  ghost predicate Sums(mem: map<Ptr, Item>, pages: seq<seq<nat>>, perslab: seq<nat>, requested: seq<int>) {
    && |pages| == |perslab| == |requested|
    && forall c :: 1 <= c < |pages| ==> requested[c] == SumPages(mem, pages[c], perslab[c])
  }

  ghost predicate RequestedOk(sl: Slabs) { Sums(sl.mem, sl.pages, sl.perslab, sl.requested) }

  lemma {:induction false} SumPageSame(mem: map<Ptr, Item>, mem1: map<Ptr, Item>, g: nat, n: nat)
    requires forall p: Ptr :: p.Chunk? && p.page == g && p.idx < n ==> ChargeOf(mem1, p) == ChargeOf(mem, p)
    ensures SumPage(mem1, g, n) == SumPage(mem, g, n)
  {
    if n > 0 { SumPageSame(mem, mem1, g, n - 1); }
  }

  lemma {:induction false} SumPagesSame(mem: map<Ptr, Item>, mem1: map<Ptr, Item>, pages: seq<nat>, n: nat)
    requires forall p: Ptr :: p.Chunk? && p.page in pages && p.idx < n ==> ChargeOf(mem1, p) == ChargeOf(mem, p)
    ensures SumPages(mem1, pages, n) == SumPages(mem, pages, n)
  {
    if pages != [] {
      SumPagesSame(mem, mem1, pages[..|pages| - 1], n);
      SumPageSame(mem, mem1, pages[|pages| - 1], n);
    }
  }

  lemma {:induction false} SumPageEdit(mem: map<Ptr, Item>, mem1: map<Ptr, Item>, p: Ptr, n: nat)
    requires p.Chunk? && p.idx < n && forall q :: q != p ==> ChargeOf(mem1, q) == ChargeOf(mem, q)
    ensures SumPage(mem1, p.page, n) == SumPage(mem, p.page, n) + ChargeOf(mem1, p) - ChargeOf(mem, p)
  {
    if p.idx == n - 1 { SumPageSame(mem, mem1, p.page, n - 1); } else { SumPageEdit(mem, mem1, p, n - 1); }
  }

  lemma {:induction false} SumPagesEdit(mem: map<Ptr, Item>, mem1: map<Ptr, Item>, p: Ptr, pages: seq<nat>, n: nat)
    requires p.Chunk? && p.idx < n && forall q :: q != p ==> ChargeOf(mem1, q) == ChargeOf(mem, q)
    requires NoDup(pages) && p.page in pages
    ensures SumPages(mem1, pages, n) == SumPages(mem, pages, n) + ChargeOf(mem1, p) - ChargeOf(mem, p)
  {
    var last := |pages| - 1;
    if pages[last] == p.page {
      assert p.page !in pages[..last];
      SumPagesSame(mem, mem1, pages[..last], n);
      SumPageEdit(mem, mem1, p, n);
    } else {
      SumPagesEdit(mem, mem1, p, pages[..last], n);
      SumPageSame(mem, mem1, pages[last], n);
    }
  }

  lemma {:induction false} SumWithout(mem: map<Ptr, Item>, pages: seq<nat>, i: nat, n: nat)
    requires i < |pages|
    ensures SumPages(mem, Without(pages, i), n) == SumPages(mem, pages, n) - SumPage(mem, pages[i], n)
  {
    var last := |pages| - 1;
    if i == last {
      assert Without(pages, i) == pages[..last];
    } else {
      SumWithout(mem, pages[..last], i, n);
      var r := Without(pages, i);
      assert r[..|r| - 1] == Without(pages[..last], i);
    }
  }

  lemma SumAppend(mem: map<Ptr, Item>, pages: seq<nat>, g: nat, n: nat)
    ensures SumPages(mem, pages + [g], n) == SumPages(mem, pages, n) + SumPage(mem, g, n)
  {
    assert (pages + [g])[..|pages|] == pages;
  }

  // One chunk of class c changes, and requested with it.
  lemma EditSums(mem: map<Ptr, Item>, mem1: map<Ptr, Item>, pages: seq<seq<nat>>, perslab: seq<nat>,
      requested: seq<int>, p: Ptr, c: nat)
    requires Sums(mem, pages, perslab, requested) && 1 <= c < |pages| && p.Chunk? && p.idx < perslab[c]
    requires forall q :: q != p ==> ChargeOf(mem1, q) == ChargeOf(mem, q)
    requires forall d :: 1 <= d < |pages| ==> NoDup(pages[d]) && (p.page in pages[d] <==> d == c)
    ensures Sums(mem1, pages, perslab, requested[c := requested[c] + ChargeOf(mem1, p) - ChargeOf(mem, p)])
  {
    hide NoDup;
    var r := requested[c := requested[c] + ChargeOf(mem1, p) - ChargeOf(mem, p)];
    forall d | 1 <= d < |pages| ensures r[d] == SumPages(mem1, pages[d], perslab[d]) {
      if d == c { SumPagesEdit(mem, mem1, p, pages[d], perslab[d]); }
      else { SumPagesSame(mem, mem1, pages[d], perslab[d]); }
    }
  }

  lemma PageOfClass(sl: Slabs, p: Ptr)
    requires SlabsOk(sl) && p in sl.mem
    ensures p.Chunk? && 1 <= OwnerIn(sl.owner, p) < |sl.pages| && OwnerIn(sl.owner, p) < |sl.perslab|
        && p.idx < sl.perslab[OwnerIn(sl.owner, p)]
    ensures forall d :: 1 <= d < |sl.pages| ==>
      NoDup(sl.pages[d]) && (p.page in sl.pages[d] <==> d == OwnerIn(sl.owner, p))
  {
    ChunkFacts(sl, p);
    hide MemOk, FreeOk, SlabbedOk;
  }

  lemma EditRequested(sl: Slabs, sl1: Slabs, p: Ptr, c: nat)
    requires RequestedOk(sl) && SlabsOk(sl) && p in sl.mem && OwnerIn(sl.owner, p) == c < |sl.requested|
    requires forall q :: q != p ==> ChargeOf(sl1.mem, q) == ChargeOf(sl.mem, q)
    requires sl1.pages == sl.pages && sl1.perslab == sl.perslab
    requires sl1.requested == sl.requested[c := sl.requested[c] + ChargeOf(sl1.mem, p) - ChargeOf(sl.mem, p)]
    ensures RequestedOk(sl1)
  {
    hide SlabsOk, Sums;
    PageOfClass(sl, p);
    EditSums(sl.mem, sl1.mem, sl.pages, sl.perslab, sl.requested, p, c);
  }

  // No charge changes.
  lemma SameRequested(sl: Slabs, sl1: Slabs)
    requires RequestedOk(sl) && forall q :: ChargeOf(sl1.mem, q) == ChargeOf(sl.mem, q)
    requires sl1.pages == sl.pages && sl1.perslab == sl.perslab && sl1.requested == sl.requested
    ensures RequestedOk(sl1)
  {
    forall d | 1 <= d < |sl.pages| ensures sl1.requested[d] == SumPages(sl1.mem, sl1.pages[d], sl1.perslab[d]) {
      SumPagesSame(sl.mem, sl1.mem, sl.pages[d], sl.perslab[d]);
    }
  }

  lemma {:induction false} BlankSum(mem: map<Ptr, Item>, g: nat, k: nat)
    requires forall p: Ptr :: p.Chunk? && p.page == g && p.idx < k ==> ChargeOf(mem, p) == 0
    ensures SumPage(mem, g, k) == 0
  {
    if k > 0 { BlankSum(mem, g, k - 1); }
  }

  // A page without charges joins the list of class c.
  lemma AppendSums(mem: map<Ptr, Item>, mem1: map<Ptr, Item>, pages: seq<seq<nat>>, perslab: seq<nat>,
      requested: seq<int>,
                   page: nat, c: nat, pool: seq<nat>)
    requires Sums(mem, pages, perslab, requested) && 1 <= c < |pages|
    requires forall q :: ChargeOf(mem1, q) == ChargeOf(mem, q)
    requires forall p: Ptr :: p.Chunk? && p.page == page ==> ChargeOf(mem, p) == 0
    ensures Sums(mem1, pages[0 := pool][c := pages[c] + [page]], perslab, requested)
  {
    var r := pages[0 := pool][c := pages[c] + [page]];
    forall d | 1 <= d < |r| ensures requested[d] == SumPages(mem1, r[d], perslab[d]) {
      SumPagesSame(mem, mem1, pages[d], perslab[d]);
      if d == c {
        SumAppend(mem1, pages[c], page, perslab[c]);
        BlankSum(mem1, page, perslab[c]);
      }
    }
  }

  lemma NewSlabRequested(sl: Slabs, c: nat, raw: nat)
    requires RequestedOk(sl) && SlabsOk(sl) && ValidClass(sl, c) && raw !in sl.owner
    ensures RequestedOk(NewSlab(sl, c, raw))
  {
    hide SlabsOk, Sums;
    if !NoRoom(sl, c) {
      NewSlabEffect(sl, c, raw);
      var r := NewSlab(sl, c, raw);
      var page := TakePage(sl, raw).1;
      AppendSums(sl.mem, r.mem, sl.pages, sl.perslab, sl.requested, page, c, r.pages[0]);
      assert r.pages == sl.pages[0 := r.pages[0]][c := sl.pages[c] + [page]];
    }
  }

  lemma PopRequested(sl: Slabs, size: nat, c: nat)
    requires RequestedOk(sl) && SlabsOk(sl) && ValidClass(sl, c) && sl.free[c] != []
    ensures sl.free[c][0] in sl.mem && RequestedOk(Pop(sl, size, c))
  {
    hide SlabsOk, RequestedOk;
    HeadSlabs(sl, c);
    EditRequested(sl, Pop(sl, size, c), sl.free[c][0], c);
  }

  lemma AllocRequested(s: State, a: Step)
    requires Inv(s) && RequestedOk(s.sl) && a.SAlloc? && Enabled(s, a)
    ensures RequestedOk(Apply(s, a).sl)
  {
    hide Inv, RequestedOk, FreeLive, NewSlab, Pop, SlabsOk;
    InvSlabs(s);
    if ValidClass(s.sl, a.c) {
      var s1 := if s.sl.free[a.c] == [] then s.(sl := NewSlab(s.sl, a.c, a.raw)) else s;
      if s.sl.free[a.c] == [] {
        NewSlabKeeps(s, a.c, a.raw);
        NewSlabRequested(s.sl, a.c, a.raw);
        NewSlabClass(s.sl, a.c, a.raw);
      }
      InvSlabs(s1);
      if s1.sl.free[a.c] != [] { PopRequested(s1.sl, a.size, a.c); }
    }
  }

  lemma NewSlabClass(sl: Slabs, c: nat, raw: nat)
    requires ValidClass(sl, c)
    ensures ValidClass(NewSlab(sl, c, raw), c)
  {
  }

  lemma InvSlabs(s: State)
    requires Inv(s)
    ensures SlabsOk(s.sl)
  {
  }

  // The rescue loop charges for a chunk and takes the charge back when it wipes it.
  lemma {:induction false} RescueRequested(s: State, n: nat)
    requires Inv(s) && s.mover.Pinned? && ValidClass(s.sl, s.rb.src) && s.mover.it in s.sl.mem && RequestedOk(s.sl)
    ensures FreeLive(s.sl.free, s.sl.mem)
    ensures RequestedOk(RescueAlloc(s.sl, s.sl.mem[s.mover.it].ntotal, s.rb.src, s.rb.start, n).0)
    decreases n
  {
    hide Inv, FreeLive, Pop, CopyOk, RequestedOk, SlabsOk;
    InvLive(s);
    InvSlabs(s);
    var c := s.rb.src;
    var size := s.sl.mem[s.mover.it].ntotal;
    if n > 0 && s.sl.free[c] != [] {
      var p := s.sl.free[c][0];
      HeadFacts(s, c);
      MovingFacts(s);
      PopRequested(s.sl, size, c);
      if p.page == s.rb.start {
        ReclaimKeeps(s, size);
        PopOther(s.sl, size, c, s.mover.it);
        var s2 := s.(sl := Wipe(Uncharge(Pop(s.sl, size, c), c, size), p));
        ReclaimRequested(s.sl, size, c);
        RescueRequested(s2, n - 1);
      }
    }
  }

  lemma ReclaimRequested(sl: Slabs, size: nat, c: nat)
    requires RequestedOk(sl) && SlabsOk(sl) && ValidClass(sl, c) && sl.free[c] != []
    ensures var p := sl.free[c][0];
      p in sl.mem && RequestedOk(Wipe(Uncharge(Pop(sl, size, c), c, size), p))
  {
    hide SlabsOk, RequestedOk;
    HeadSlabs(sl, c);
    var sl1 := Wipe(Uncharge(Pop(sl, size, c), c, size), sl.free[c][0]);
    assert sl1.requested == sl.requested;
    SameRequested(sl, sl1);
  }

  lemma FinishRequested(s: State)
    requires Inv(s) && RequestedOk(s.sl) && Enabled(s, SFinish)
    ensures RequestedOk(Apply(s, SFinish).sl)
  {
    hide Inv, SlabsOk, PageWiped, Sums;
    AllWiped(s);
    var t := Apply(s, SFinish).sl;
    var page := s.rb.start;
    WipedCharge(s.sl.mem, page);
    assert forall q :: ChargeOf(t.mem, q) == ChargeOf(s.sl.mem, q);
    MoveSums(s.sl.mem, t.mem, s.sl.pages, s.sl.perslab, s.sl.requested, s.rb.src, s.rb.index);
    if !s.rb.remove && s.rb.dst > 0 {
      AppendSums(t.mem, t.mem, Detach(s.sl, s.rb.src, s.rb.index).pages, s.sl.perslab, s.sl.requested, page, s.rb.dst,
          s.sl.pages[0]);
    }
    hide Sums;
    if s.rb.remove {
    } else if s.rb.dst == 0 {
      PoolSums(t.mem, Detach(s.sl, s.rb.src, s.rb.index).pages, s.sl.perslab, s.sl.requested, s.sl.pages[0] + [page]);
    } else {
      assert t.pages == Detach(s.sl, s.rb.src,
          s.rb.index).pages[0 := s.sl.pages[0]][s.rb.dst := s.sl.pages[s.rb.dst] + [page]];
    }
  }

  lemma PoolSums(mem: map<Ptr, Item>, pages: seq<seq<nat>>, perslab: seq<nat>, requested: seq<int>, pool: seq<nat>)
    requires Sums(mem, pages, perslab, requested) && |pages| > 0
    ensures Sums(mem, pages[0 := pool], perslab, requested)
  {
  }

  // A page without charges leaves the list of class c.
  lemma MoveSums(mem: map<Ptr, Item>, mem1: map<Ptr, Item>, pages: seq<seq<nat>>, perslab: seq<nat>,
      requested: seq<int>, c: nat, i: nat)
    requires Sums(mem, pages, perslab, requested) && 1 <= c < |pages| && i < |pages[c]|
    requires forall q :: ChargeOf(mem1, q) == ChargeOf(mem, q)
    requires forall p: Ptr :: p.Chunk? && p.page == pages[c][i] ==> ChargeOf(mem, p) == 0
    ensures Sums(mem1, pages[c := Without(pages[c], i)], perslab, requested)
  {
    var r := pages[c := Without(pages[c], i)];
    forall d | 1 <= d < |r| ensures requested[d] == SumPages(mem1, r[d], perslab[d]) {
      SumPagesSame(mem, mem1, pages[d], perslab[d]);
      if d == c {
        SumWithout(mem1, pages[c], i, perslab[c]);
        BlankSum(mem1, pages[c][i], perslab[c]);
      }
    }
  }

  lemma WipedCharge(mem: map<Ptr, Item>, page: nat)
    requires PageWiped(mem, page)
    ensures forall p: Ptr :: p.Chunk? && p.page == page ==> ChargeOf(mem, p) == 0
  {
  }

  lemma FreeRequested(s: State, p: Ptr)
    requires Inv(s) && RequestedOk(s.sl) && Enabled(s, SFree(p))
    ensures RequestedOk(Apply(s, SFree(p)).sl)
  {
    hide SlabsOk, Refs, Links, Move, RequestedOk;
    LinkedFacts(s.sl.mem, s.table, s.lru, s.sl.owner, p);
    EditRequested(s.sl, Apply(s, SFree(p)).sl, p, s.sl.mem[p].clsid);
  }

  lemma WipeRequested(s: State)
    requires Inv(s) && RequestedOk(s.sl) && Enabled(s, SWipe)
    ensures RequestedOk(Apply(s, SWipe).sl)
  {
    hide Inv, SlabsOk, RequestedOk;
    InvSlabs(s);
    MovingFacts(s);
    CursorFacts(s);
    EditRequested(s.sl, Apply(s, SWipe).sl, s.mover.it, s.rb.src);
  }

  // The other steps leave every charge alone.
  lemma OtherRequested(s: State, a: Step)
    requires Inv(s) && RequestedOk(s.sl) && Enabled(s, a)
    requires !a.SAlloc? && !a.SFree? && !a.SDecide? && !a.SWipe? && !a.SFinish? && !a.SLook? && !a.SLeave?
        && !a.STryLock? && !a.SFill?
    ensures RequestedOk(Apply(s, a).sl)
  {
    hide Inv, RequestedOk, EraseQueue, PushQueue;
    SameRequested(s.sl, Apply(s, a).sl);
  }

  lemma LookRequested(s: State)
    requires Inv(s) && RequestedOk(s.sl) && Enabled(s, SLook)
    ensures RequestedOk(Apply(s, SLook).sl)
  {
    hide Inv, RequestedOk, Erase, Advance;
    SameRequested(s.sl, Apply(s, SLook).sl);
  }

  lemma TryLockRequested(s: State, a: Step)
    requires Inv(s) && RequestedOk(s.sl) && Enabled(s, a) && a.STryLock?
    ensures RequestedOk(Apply(s, a).sl)
  {
    hide Inv, RequestedOk, Advance, CopyOk;
    MovingFacts(s);
    SameRequested(s.sl, Apply(s, a).sl);
  }

  lemma LeaveRequested(s: State)
    requires Inv(s) && RequestedOk(s.sl) && Enabled(s, SLeave)
    ensures RequestedOk(Apply(s, SLeave).sl)
  {
    hide Inv, RequestedOk, EraseQueue, PushQueue, Erase, CopyOk;
    MovingFacts(s);
    if s.mover.copy != Null { CopyFacts(s); }
    SameRequested(s.sl, Apply(s, SLeave).sl);
  }

  lemma FillRequested(s: State, a: Step)
    requires Inv(s) && RequestedOk(s.sl) && Enabled(s, a) && a.SFill?
    ensures RequestedOk(Apply(s, a).sl)
  {
    hide SlabsOk, Refs, Links, Move, RequestedOk;
    RefFacts(s.sl.mem, s.held, s.mover, a.p);
    SameRequested(s.sl, Apply(s, a).sl);
  }

  lemma StepRequested(s: State, a: Step)
    requires Inv(s) && RequestedOk(s.sl) && Enabled(s, a)
    ensures RequestedOk(Apply(s, a).sl)
  {
    hide Inv, RequestedOk, FreeLive, Apply, RescueAlloc;
    match a {
      case SAlloc(_, _, _) => AllocRequested(s, a);
      case SFree(p) => FreeRequested(s, p);
      case SFill(_, _, _, _, _) => FillRequested(s, a);
      case SDecide(dead) => DecideRequested(s, a);
      case SWipe => WipeRequested(s);
      case SFinish => FinishRequested(s);
      case _ =>
        if a.SLook? { LookRequested(s); } else if a.SLeave? { LeaveRequested(s); }
        else if a.STryLock? { TryLockRequested(s, a); } else { OtherRequested(s, a); }
    }
  }

  lemma DecideRequested(s: State, a: Step)
    requires Inv(s) && RequestedOk(s.sl) && Enabled(s, a) && a.SDecide?
    ensures RequestedOk(Apply(s, a).sl)
  {
    hide Inv, RequestedOk, FreeLive, RescueAlloc;
    MovingFacts(s);
    CursorFacts(s);
    if !a.dead && !s.rb.remove { RescueRequested(s, Perslab(s)); }
  }

  // In every state of every run requested is the sum of ITEM_ntotal over the chunks that are handed out.
  lemma {:induction false} RequestedExact(run: seq<State>, steps: seq<Step>, n: nat)
    requires IsRun(run, steps) && n < |run|
    ensures RequestedOk(run[n].sl)
    decreases n
  {
    hide Inv, Initial, Enabled, Apply, RequestedOk;
    if n == 0 {
      InitialRequested(run[0]);
    } else {
      RequestedExact(run, steps, n - 1);
      RunInv(run, steps, n - 1);
      assert Enabled(run[n - 1], steps[n - 1]) && run[n] == Apply(run[n - 1], steps[n - 1]);
      StepRequested(run[n - 1], steps[n - 1]);
    }
  }

  lemma InitialRequested(s: State)
    requires Initial(s)
    ensures RequestedOk(s.sl)
  {
  }
}
