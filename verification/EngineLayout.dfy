// Where chunks lie in memory: the pointers of the model are addresses of stretches that never overlap.
module EngineLayout {
  import opened Memory
  import opened SlabSpec
  import opened Engine
  import opened EngineInv
  import opened EngineTheorems
  import opened Geometry

  // Pages are blocks of item_size_max bytes that malloc has handed out and not got back; a page of a class holds its
  // perslab chunks.
  ghost predicate LaidOut(sl: Slabs, base: map<nat, nat>, size: seq<nat>, bytes: nat) {
    && |size| == |sl.perslab| && (forall c :: 1 <= c < |size| ==> 0 < size[c] && sl.perslab[c] * size[c] <= bytes)
    && (forall g :: g in sl.owner ==> g in base)
    && forall g, h :: g in sl.owner && h in sl.owner && g != h ==> Disjoint(base[g], base[h], bytes)
  }

  // The size of a chunk, and where it starts.
  function SizeOf(sl: Slabs, size: seq<nat>, p: Ptr): nat {
    if p.Chunk? && p.page in sl.owner && sl.owner[p.page] < |size| then size[sl.owner[p.page]] else 0
  }

  function BaseOf(base: map<nat, nat>, p: Ptr): nat { if p.Chunk? && p.page in base then base[p.page] else 0 }

  function From(sl: Slabs, base: map<nat, nat>, size: seq<nat>, p: Ptr): nat {
    Address(BaseOf(base, p), SizeOf(sl, size, p), if p.Chunk? then p.idx else 0)
  }

  function UpTo(sl: Slabs, base: map<nat, nat>, size: seq<nat>, p: Ptr): nat {
    From(sl, base, size, p) + SizeOf(sl, size, p)
  }

  lemma ChunkIn(s: State, base: map<nat, nat>, size: seq<nat>, bytes: nat, p: Ptr)
    requires Inv(s) && LaidOut(s.sl, base, size, bytes) && p in s.sl.mem
    ensures p.Chunk? && p.page in base && p.page in s.sl.owner && 1 <= s.sl.owner[p.page] < |size| == |s.sl.perslab|
    ensures p.idx < s.sl.perslab[s.sl.owner[p.page]]
  {
    hide Refs, Links, Move, PagesOk, FreeOk, SlabbedOk;
  }

  lemma Clear(s: State, base: map<nat, nat>, size: seq<nat>, bytes: nat, p: Ptr, q: Ptr)
    requires Inv(s) && LaidOut(s.sl, base, size, bytes) && p in s.sl.mem && q in s.sl.mem && p != q
    ensures UpTo(s.sl, base, size, p) <= From(s.sl, base, size, q)
        || UpTo(s.sl, base, size, q) <= From(s.sl, base, size, p)
  {
    hide Inv, Disjoint, Address;
    ChunkIn(s, base, size, bytes, p);
    ChunkIn(s, base, size, bytes, q);
    var c, d := s.sl.owner[p.page], s.sl.owner[q.page];
    if p.page == q.page {
      Below(base[p.page], size[c], p.idx, q.idx);
      Below(base[p.page], size[c], q.idx, p.idx);
    } else {
      PagesApart(base[p.page], base[q.page], bytes, size[c], s.sl.perslab[c], p.idx, size[d], s.sl.perslab[d], q.idx);
    }
  }

  lemma Below(base: nat, size: nat, j: nat, k: nat)
    ensures j < k ==> Address(base, size, j) + size <= Address(base, size, k)
  {
    if j < k { Steps(size, j, k); }
  }

  lemma Within(s: State, base: map<nat, nat>, size: seq<nat>, bytes: nat, p: Ptr)
    requires Inv(s) && LaidOut(s.sl, base, size, bytes) && p in s.sl.mem
    ensures BaseOf(base, p) <= From(s.sl, base, size, p) < UpTo(s.sl, base, size, p) <= BaseOf(base, p) + bytes
  {
    hide Inv, Disjoint;
    ChunkIn(s, base, size, bytes, p);
    var c := s.sl.owner[p.page];
    InsidePage(size[c], s.sl.perslab[c], bytes, p.idx);
  }

  // In every state of every run each chunk lies in its page, and two chunks never share a byte: comparing pointers is
  // comparing chunks.
  lemma ChunksNeverOverlap(run: seq<State>, steps: seq<Step>, n: nat, base: map<nat, nat>, size: seq<nat>, bytes: nat,
                           p: Ptr, q: Ptr)
    requires IsRun(run, steps) && n < |run| && LaidOut(run[n].sl, base, size, bytes)
    requires p in run[n].sl.mem && q in run[n].sl.mem
    ensures var sl := run[n].sl;
      && BaseOf(base, p) <= From(sl, base, size, p) < UpTo(sl, base, size, p) <= BaseOf(base, p) + bytes
      && (p == q || UpTo(sl, base, size, p) <= From(sl, base, size, q)
          || UpTo(sl, base, size, q) <= From(sl, base, size, p))
      && (From(sl, base, size, p) == From(sl, base, size, q) <==> p == q)
  {
    hide Inv, Initial, Enabled, Apply, LaidOut, From, UpTo, BaseOf;
    RunInv(run, steps, n);
    Within(run[n], base, size, bytes, p);
    Within(run[n], base, size, bytes, q);
    if p != q { Clear(run[n], base, size, bytes, p, q); }
  }
}
