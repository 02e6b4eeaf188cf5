// What lru_pull_tail does to the items it comes by, stated on the items, the queues and the hash table.
module LruTurns {
  import opened Memory
  import opened Linkage
  import opened CacheSpec
  import opened LruPull
  import opened LruPullProofs
  import opened LruRecency

  // ---- one item ----

  // The caller's own hash, or a lock somebody else has.
  predicate PassedOver(c: Cache, o: Oracle, call: Call, tries: nat, p: Ptr)
    requires p in c.mem
  {
    o.h(c.mem[p].key) == call.curHv || !o.granted(tries, p)
  }

  // Expired or flushed.
  predicate Over(c: Cache, env: Env, p: Ptr)
    requires p in c.mem
  {
    (c.mem[p].content.exptime != 0 && c.mem[p].content.exptime < env.now) || IsFlushed(c, env, p)
  }

  // The queues but for one item, which has left its queue.
  ghost predicate OutOfQueue(lru: map<Queue, seq<Ptr>>, lru1: map<Queue, seq<Ptr>>, q: Queue, p: Ptr) {
    && (exists i: nat :: i < |QueueIn(lru, q)| && QueueIn(lru, q)[i] == p
          && QueueIn(lru1, q) == QueueIn(lru, q)[..i] + QueueIn(lru, q)[i + 1..])
    && forall r :: r != q ==> QueueIn(lru1, r) == QueueIn(lru, r)
  }

  // Out of its queue, and at the head of another one or of the same.
  ghost predicate ToHead(lru: map<Queue, seq<Ptr>>, lru1: map<Queue, seq<Ptr>>, q: Queue, p: Ptr, to: Queue) {
    exists mid :: OutOfQueue(lru, mid, q, p) && QueueIn(lru1, to) == [p] + QueueIn(mid, to)
      && forall r :: r != to ==> QueueIn(lru1, r) == QueueIn(mid, r)
  }

  // The item is unlinked: its key and its place in the queue are gone, and so is the item when nobody else holds it.
  ghost predicate Unlinked(c: Cache, z: Cache, p: Ptr)
    requires p in c.mem
  {
    && z.mem.Keys == c.mem.Keys && (forall x :: x in c.mem && x != p ==> z.mem[x] == c.mem[x])
    && z.stamps == c.stamps && z.casId == c.casId && z.currItems == c.currItems - 1
    && z.table == c.table - {c.mem[p].key} && OutOfQueue(c.lru, z.lru, c.mem[p].Home(), p)
    && !z.mem[p].flags.linked
    && (Others(c.mem, p) == 0 ==> z.mem[p].flags == SLABBED && z.mem[p].refcount == 0)
    && (Others(c.mem, p) != 0 ==>
          && z.mem[p].refcount + 1 == c.mem[p].refcount
          && z.mem[p] == c.mem[p].(flags := c.mem[p].flags.(linked := false), refcount := z.mem[p].refcount))
  }

  // The item stays linked: in segment seg, with its ACTIVE bit and its time as given.
  ghost predicate KeptAs(c: Cache, z: Cache, p: Ptr, seg: Segment, active: bool, time: nat)
    requires p in c.mem
  {
    && z.mem == c.mem[p := c.mem[p].(seg := seg, flags := c.mem[p].flags.(active := active))]
    && z.table == c.table && z.casId == c.casId && z.currItems == c.currItems && TimeOf(z, p) == time
    && StampOf(z.stamps, p).cas == StampOf(c.stamps, p).cas
    && forall x :: x != p ==> StampOf(z.stamps, x) == StampOf(c.stamps, x)
  }

  // Used more than a minute ago.
  predicate LongAgo(env: Env, time: nat) { env.now < 60 || time + 60 < env.now }

  // What the walk does with a live item of COLD_LRU.
  ghost predicate ColdMeans(c: Cache, env: Env, call: Call, p: Ptr, t: Turn)
    requires p in c.mem
  {
    if call.evict && env.evictToFree then t == Turn(t.c, 1, true, p) && Unlinked(c, t.c, p)
    else if !call.evict && c.mem[p].flags.active && env.maintainer then
      && t == Turn(t.c, 1, true, Null) && KeptAs(c, t.c, p, Warm, false, TimeOf(c, p))
      && ToHead(c.lru, t.c.lru, call.q, p, Queue(call.q.clsid, Warm))
    else t == Turn(c, 0, true, Null)
  }

  // What it does with one of HOT_LRU or WARM_LRU.
  ghost predicate WarmMeans(c: Cache, env: Env, call: Call, p: Ptr, t: Turn)
    requires p in c.mem
  {
    var it := c.mem[p];
    if |QueueIn(c.lru, call.q)| > call.limit then
      && t == Turn(t.c, 1, true, Null) && KeptAs(c, t.c, p, Cold, it.flags.active, TimeOf(c, p))
      && ToHead(c.lru, t.c.lru, call.q, p, Queue(call.q.clsid, Cold))
    else if !it.flags.active then t == Turn(c, 0, true, Null)
    else if LongAgo(env, TimeOf(c, p)) then
      && t == Turn(t.c, 0, false, Null) && KeptAs(c, t.c, p, it.seg, false, env.now)
      && ToHead(c.lru, t.c.lru, call.q, p, call.q)
    else
      t == Turn(t.c, 0, false, Null) && KeptAs(c, t.c, p, it.seg, false, TimeOf(c, p)) && t.c.lru == c.lru
  }

  // What the walk does with an item.
  ghost predicate TurnMeans(c: Cache, env: Env, o: Oracle, call: Call, tries: nat, p: Ptr, t: Turn) {
    && p in c.mem
    && if PassedOver(c, o, call, tries, p) then t == Turn(c, 0, false, Null)
       else if Over(c, env, p) then t == Turn(t.c, 1, false, Null) && Unlinked(c, t.c, p)
       else if call.q.seg == Cold then ColdMeans(c, env, call, p, t)
       else WarmMeans(c, env, call, p, t)
  }

  lemma OutIs(lru: map<Queue, seq<Ptr>>, q: Queue, p: Ptr)
    requires p in QueueIn(lru, q)
    ensures OutOfQueue(lru, EraseQueue(lru, q, p), q, p)
  {
    var i := IndexOf(QueueIn(lru, q), p);
    assert QueueIn(EraseQueue(lru, q, p), q) == QueueIn(lru, q)[..i] + QueueIn(lru, q)[i + 1..];
  }

  lemma HeadIs(lru: map<Queue, seq<Ptr>>, q: Queue, p: Ptr, to: Queue)
    requires p in QueueIn(lru, q)
    ensures ToHead(lru, PushQueue(EraseQueue(lru, q, p), to, p), q, p, to)
  {
    OutIs(lru, q, p);
    hide OutOfQueue, EraseQueue;
  }

  lemma GoneIs(c: Cache, p: Ptr)
    requires Coherent(c) && LinkedIn(c.mem, p)
    ensures Usable(c, p) && Unlinked(c, Gone(c, p), p)
  {
    LinkedHere(c, p);
    OutIs(c.lru, c.mem[p].Home(), p);
    hide Coherent, EraseQueue, OutOfQueue;
  }

  // A reference that is taken and given back leaves no trace.
  lemma HeldAndDropped(c: Cache, p: Ptr)
    requires p in c.mem && c.mem[p].refcount > 0
    ensures Drop(Hold(c, p), p) == c
  {
    assert c.mem[p := c.mem[p]] == c.mem;
  }

  // The reference that is taken for a move is given back at its end.
  lemma MovedWhole(c: Cache, p: Ptr, seg: Segment, active: bool, time: nat)
    requires Usable(c, p)
    ensures var h := Hold(c, p); var it := h.mem[p];
      var e := Edit(h, p, it.(flags := it.flags.(active := active)));
      && p in e.mem && p in Requeue(e, p, seg, time).mem && Requeue(e, p, seg, time).mem[p].refcount > 0
      && Drop(Requeue(e, p, seg, time), p)
        == c.(mem := c.mem[p := c.mem[p].(seg := seg, flags := c.mem[p].flags.(active := active))],
              stamps := c.stamps[p := StampOf(c.stamps, p).(time := time)],
              lru := PushQueue(EraseQueue(c.lru, c.mem[p].Home(), p), Queue(c.mem[p].clsid, seg), p))
  {
    hide EraseQueue, PushQueue;
  }

  lemma MovedIs(c: Cache, p: Ptr, seg: Segment, active: bool, time: nat)
    requires Coherent(c) && LinkedIn(c.mem, p)
    ensures Usable(c, p)
    ensures var h := Hold(c, p); var it := h.mem[p];
      var e := Edit(h, p, it.(flags := it.flags.(active := active)));
      && p in e.mem && p in Requeue(e, p, seg, time).mem && Requeue(e, p, seg, time).mem[p].refcount > 0
      && var z := Drop(Requeue(e, p, seg, time), p);
      KeptAs(c, z, p, seg, active, time) && ToHead(c.lru, z.lru, c.mem[p].Home(), p, Queue(c.mem[p].clsid, seg))
  {
    LinkedHere(c, p);
    HeadIs(c.lru, c.mem[p].Home(), p, Queue(c.mem[p].clsid, seg));
    MovedWhole(c, p, seg, active, time);
    hide Coherent, EraseQueue, PushQueue, ToHead, Drop, Requeue, Hold, Edit;
  }

  lemma UnmarkedIs(c: Cache, p: Ptr)
    requires p in c.mem && c.mem[p].refcount > 0
    ensures var h := Hold(c, p); var it := h.mem[p];
      var z := Drop(Edit(h, p, it.(flags := it.flags.(active := false))), p);
      KeptAs(c, z, p, c.mem[p].seg, false, TimeOf(c, p)) && z.lru == c.lru
  {
  }

  lemma SameMark(c: Cache, p: Ptr)
    requires p in c.mem
    ensures Edit(c, p, c.mem[p].(flags := c.mem[p].flags.(active := c.mem[p].flags.active))) == c
  {
    assert c.mem[p := c.mem[p]] == c.mem;
  }

  lemma TurnDoes(c: Cache, env: Env, o: Oracle, call: Call, tries: nat, p: Ptr)
    requires Coherent(c) && LinkedIn(c.mem, p) && c.mem[p].Home() == call.q
    ensures Usable(c, p) && TurnMeans(c, env, o, call, tries, p, Visit(c, env, o, call, tries, p))
  {
    LinkedHere(c, p);
    hide Coherent, Unlinked, KeptAs, ToHead, Flushed, Drop, Unlink, Requeue, VisitLive;
    if PassedOver(c, o, call, tries, p) {
    } else if Over(c, env, p) {
      GoneIs(c, p);
    } else if call.q.seg == Cold {
      ColdDoes(c, env, call, p);
    } else {
      WarmDoes(c, env, call, p);
    }
  }

  lemma ColdDoes(c: Cache, env: Env, call: Call, p: Ptr)
    requires Coherent(c) && LinkedIn(c.mem, p) && c.mem[p].Home() == call.q && call.q.seg == Cold
    ensures Usable(c, p) && ColdMeans(c, env, call, p, VisitLive(Hold(c, p), env, call, p))
  {
    LinkedHere(c, p);
    hide Coherent, Unlinked, KeptAs, ToHead, Flushed, Drop, Unlink, Requeue, QueueIn;
    HeldAndDropped(c, p);
    GoneIs(c, p);
    MovedIs(c, p, Warm, false, TimeOf(c, p));
  }

  lemma WarmDoes(c: Cache, env: Env, call: Call, p: Ptr)
    requires Coherent(c) && LinkedIn(c.mem, p) && c.mem[p].Home() == call.q && call.q.seg != Cold
    ensures Usable(c, p) && WarmMeans(c, env, call, p, VisitLive(Hold(c, p), env, call, p))
  {
    LinkedHere(c, p);
    hide Coherent, Unlinked, KeptAs, ToHead, Flushed, Drop, Unlink, Requeue, QueueIn;
    HeldAndDropped(c, p);
    SameMark(Hold(c, p), p);
    MovedIs(c, p, Cold, c.mem[p].flags.active, TimeOf(c, p));
    MovedIs(c, p, c.mem[p].seg, false, env.now);
    UnmarkedIs(c, p);
  }

  // ---- the walk ----

  // The node read from search->prev before the item is touched.
  predicate NextUp(s: seq<Ptr>, p: Ptr, next: Ptr) {
    exists i: nat :: i < |s| && s[i] == p && next == if i == 0 then Null else s[i - 1]
  }

  // At most `tries` items, from p towards the head, until one ends the walk: the cache it leaves, how many items have
  // left the queue, and the live one that was evicted.
  ghost predicate WalkMeans(c: Cache, env: Env, o: Oracle, call: Call, p: Ptr, tries: nat, z: Cache, removed: nat,
                            victim: Ptr)
    decreases tries
  {
    if tries == 0 || p == Null then z == c && removed == 0 && victim == Null
    else
      exists t: Turn, next: Ptr :: TurnMeans(c, env, o, call, tries, p, t) && NextUp(QueueIn(c.lru, call.q), p, next)
        && (t.stop ==> z == t.c && removed == t.removed && victim == t.victim)
        && (!t.stop ==>
              removed >= t.removed && WalkMeans(t.c, env, o, call, next, tries - 1, z, removed - t.removed, victim))
  }

  // The walk begins at the tail and looks at five items at most.
  ghost predicate PullMeans(c: Cache, env: Env, o: Oracle, call: Call, z: Cache, removed: nat, victim: Ptr) {
    var s := QueueIn(c.lru, call.q);
    if call.q.clsid == 0 || s == [] then z == c && removed == 0 && victim == Null
    else WalkMeans(c, env, o, call, s[|s| - 1], 5, z, removed, victim)
  }

  lemma AboveIsNext(c: Cache, call: Call, p: Ptr)
    requires Coherent(c) && LinkedIn(c.mem, p) && c.mem[p].Home() == call.q
    ensures NextUp(QueueIn(c.lru, call.q), p, Above(QueueIn(c.lru, call.q), p))
  {
    LinkedHere(c, p);
    hide Coherent;
    var s := QueueIn(c.lru, call.q);
    var i := IndexOf(s, p);
    NextAt(s, i, Above(s, p));
  }

  lemma NextAt(s: seq<Ptr>, i: nat, next: Ptr)
    requires i < |s| && next == if i == 0 then Null else s[i - 1]
    ensures NextUp(s, s[i], next)
  {
  }

  lemma {:induction false} WalkDoes(c: Cache, env: Env, o: Oracle, call: Call, p: Ptr, tries: nat)
    requires Coherent(c) && Timely(c, env) && (p == Null || (LinkedIn(c.mem, p) && c.mem[p].Home() == call.q))
    ensures var r := Walk(c, env, o, call, p, tries);
      WalkMeans(c, env, o, call, p, tries, r.c, r.removed, r.victim)
    decreases tries
  {
    hide Coherent, Timely, Visit, TurnMeans, NextUp, Above, Elsewhere, PullOk, QueueIn;
    NotNullAt(c);
    if tries > 0 && p != Null {
      LinkedHere(c, p);
      TurnDoes(c, env, o, call, tries, p);
      AboveIsNext(c, call, p);
      var t := Visit(c, env, o, call, tries, p);
      var next := Above(QueueIn(c.lru, call.q), p);
      if !t.stop {
        TurnPulled(c, env, o, call, tries, p);
        PullCoherent(c, env, o, call, 1, t);
        AboveLinked(c, call, p, t.c);
        WalkDoes(t.c, env, o, call, next, tries - 1);
      }
    }
  }

  lemma PullDoes(c: Cache, env: Env, o: Oracle, call: Call)
    requires Coherent(c) && Timely(c, env)
    ensures var r := PullTail(c, env, o, call); PullMeans(c, env, o, call, r.c, r.removed, r.victim)
  {
    hide Coherent, Timely, Walk, WalkMeans;
    var s := QueueIn(c.lru, call.q);
    if call.q.clsid != 0 && s != [] {
      QueueFacts(c, call.q, |s| - 1);
      WalkDoes(c, env, o, call, s[|s| - 1], TRIES);
    }
  }

  // ---- eviction ----

  // Nothing is evicted that is not to be: not without evict_to_free, nor by a call that does not ask for it, nor from
  // HOT or WARM.
  lemma NothingEvicted(c: Cache, env: Env, o: Oracle, call: Call)
    requires Coherent(c) && Timely(c, env) && !(env.evictToFree && call.evict && call.q.seg == Cold)
    ensures PullTail(c, env, o, call).victim == Null && Visible(PullTail(c, env, o, call).c, env) == Visible(c, env)
  {
    hide Coherent, Timely, PullTail, Visible, AllKept, TableShrinks, OwnKept, QueueIn;
    PullTailOk(c, env, o, call);
    PullVisible(c, env, o, call);
  }

  // The first item from the tail that is neither passed over nor dead, within five tries.
  ghost predicate FirstLive(c: Cache, env: Env, o: Oracle, call: Call, from: nat, tries: nat, i: nat) {
    var s := QueueIn(c.lru, call.q);
    && i <= from < |s| && from - i < tries && (forall j :: i <= j <= from ==> s[j] in c.mem)
    && (forall j :: i < j <= from ==> PassedOver(c, o, call, tries - (from - j), s[j]) || Over(c, env, s[j]))
    && !PassedOver(c, o, call, tries - (from - i), s[i]) && !Over(c, env, s[i])
  }

  lemma WalkCounts(c: Cache, env: Env, o: Oracle, call: Call, p: Ptr, tries: nat)
    requires Usable(c, p) && tries > 0
    ensures var t := Visit(c, env, o, call, tries, p);
      var r := Walk(t.c, env, o, call, Above(QueueIn(c.lru, call.q), p), tries - 1);
      Walk(c, env, o, call, p, tries).removed == t.removed + if t.stop then 0 else r.removed
  {
    hide Visit, Above, QueueIn;
  }

  // The next item up the queue is as it was.
  lemma FirstLiveNext(c: Cache, c1: Cache, env: Env, o: Oracle, call: Call, from: nat, tries: nat, i: nat)
    requires FirstLive(c, env, o, call, from, tries, i) && i < from && tries > 0
    requires Elsewhere(c, c1, QueueIn(c.lru, call.q)[from])
    requires forall j :: 0 <= j < from ==>
      && j < |QueueIn(c1.lru, call.q)| && QueueIn(c1.lru, call.q)[j] == QueueIn(c.lru, call.q)[j]
      && QueueIn(c.lru, call.q)[j] != QueueIn(c.lru, call.q)[from]
    ensures FirstLive(c1, env, o, call, from - 1, tries - 1, i)
  {
    hide QueueIn, Flushed;
    var s, s1 := QueueIn(c.lru, call.q), QueueIn(c1.lru, call.q);
    forall j: nat | i <= j < from
      ensures j < |s1| && s1[j] == s[j] && s[j] in c.mem && s[j] in c1.mem
      ensures PassedOver(c1, o, call, tries - 1 - (from - 1 - j), s[j])
        == PassedOver(c, o, call, tries - (from - j), s[j])
      ensures Over(c1, env, s[j]) == Over(c, env, s[j])
    {
      assert s[j] in c.mem && s[j] != s[from];
    }
    hide PassedOver, Over, Elsewhere;
    var j: nat := from - 1;
    assert s[j] in c.mem && s1[j] == s[j];
  }

  lemma {:induction false} WalkEvicts(c: Cache, env: Env, o: Oracle, call: Call, from: nat, tries: nat, i: nat)
    requires Coherent(c) && Timely(c, env) && call.q.seg == Cold && call.evict && env.evictToFree
    requires FirstLive(c, env, o, call, from, tries, i)
    ensures var s := QueueIn(c.lru, call.q); var w := Walk(c, env, o, call, s[from], tries);
      w.victim == s[i] && w.removed >= 1
    decreases tries
  {
    hide Coherent, Timely, Visit, Walk, Above, Elsewhere, QueueIn, Over, PassedOver, Unlinked, FirstLive, Usable;
    var s := QueueIn(c.lru, call.q);
    FirstLiveAt(c, env, o, call, from, tries, i);
    QueueFacts(c, call.q, from);
    TurnDoes(c, env, o, call, tries, s[from]);
    ColdNext(c, env, o, call, from, tries);
    WalkStep(c, env, o, call, s[from], tries);
    WalkCounts(c, env, o, call, s[from], tries);
    if i < from {
      var t := Visit(c, env, o, call, tries, s[from]);
      FirstLiveNext(c, t.c, env, o, call, from, tries, i);
      WalkEvicts(t.c, env, o, call, from - 1, tries - 1, i);
    }
  }

  lemma FirstLiveAt(c: Cache, env: Env, o: Oracle, call: Call, from: nat, tries: nat, i: nat)
    requires FirstLive(c, env, o, call, from, tries, i)
    ensures var s := QueueIn(c.lru, call.q);
      && i <= from < |s| && from - i < tries && s[from] in c.mem
      && (i == from ==> !PassedOver(c, o, call, tries, s[from]) && !Over(c, env, s[from]))
      && (i < from ==> PassedOver(c, o, call, tries, s[from]) || Over(c, env, s[from]))
  {
    hide QueueIn, Flushed;
  }

  // With evict_to_free, a call that is to evict from COLD takes the first item from the tail that is neither passed
  // over nor dead, if it comes that far: the item is unlinked, its key is gone, and without other holders it is free.
  lemma EvictsFirst(c: Cache, env: Env, o: Oracle, call: Call, i: nat)
    requires Coherent(c) && Timely(c, env) && call.q.seg == Cold && call.evict && env.evictToFree && call.q.clsid != 0
    requires QueueIn(c.lru, call.q) != [] && FirstLive(c, env, o, call, |QueueIn(c.lru, call.q)| - 1, 5, i)
    ensures var s := QueueIn(c.lru, call.q); var r := PullTail(c, env, o, call); var p := s[i];
      && r.victim == p && r.removed >= 1 && p in c.mem && p in r.c.mem && !LinkedIn(r.c.mem, p)
      && c.mem[p].key !in r.c.table && (r.c.mem[p].flags.slabbed <==> Others(c.mem, p) == 0)
  {
    hide Coherent, Timely, Walk, FirstLive, QueueIn, TableShrinks, OwnKept, ItemKept;
    var s := QueueIn(c.lru, call.q);
    FirstLiveAt(c, env, o, call, |s| - 1, 5, i);
    WalkEvicts(c, env, o, call, |s| - 1, 5, i);
    PullTailOk(c, env, o, call);
    QueueFacts(c, call.q, i);
    VictimNotNull(c, s[i]);
    EvictedKept(c, PullTail(c, env, o, call).c, env, s[i]);
  }

  lemma VictimNotNull(c: Cache, p: Ptr)
    requires Coherent(c) && p in c.mem
    ensures p != Null
  {
    hide Coherent;
    NotNullAt(c);
  }

  lemma EvictedKept(c: Cache, c1: Cache, env: Env, p: Ptr)
    requires AllKept(c, c1, env) && LinkedIn(c.mem, p)
    ensures p in c1.mem && (!LinkedIn(c1.mem, p) ==> (c1.mem[p].flags.slabbed <==> Others(c.mem, p) == 0))
  {
    hide StaysLinked;
  }

  // ---- what stays at the tail ----

  ghost predicate AtTail(c: Cache, q: Queue, p: Ptr) {
    var s := QueueIn(c.lru, q);
    s != [] && s[|s| - 1] == p
  }

  // The walk goes through another queue, or through this one without evicting and without the maintainer.
  predicate Spares(env: Env, call: Call, q: Queue) {
    q.seg == Cold && call.q.clsid == q.clsid && (call.q != q || (!call.evict && !env.maintainer))
  }

  lemma OutLeavesTail(lru: map<Queue, seq<Ptr>>, lru1: map<Queue, seq<Ptr>>, q: Queue, x: Ptr, p: Ptr)
    requires OutOfQueue(lru, lru1, q, x) && x != p
    requires QueueIn(lru, q) != [] && QueueIn(lru, q)[|QueueIn(lru, q)| - 1] == p
    ensures QueueIn(lru1, q) != [] && QueueIn(lru1, q)[|QueueIn(lru1, q)| - 1] == p
  {
    hide QueueIn;
  }

  lemma TurnLeavesTail(c: Cache, env: Env, o: Oracle, call: Call, tries: nat, x: Ptr, t: Turn, q: Queue, p: Ptr)
    requires TurnMeans(c, env, o, call, tries, x, t) && Spares(env, call, q) && AtTail(c, q, p) && p in c.mem
    requires x in c.mem && c.mem[x].Home() == call.q && c.mem[p].Home() == q && !Over(c, env, p)
    ensures AtTail(t.c, q, p) && p in t.c.mem && t.c.mem[p] == c.mem[p]
    ensures StampOf(t.c.stamps, p) == StampOf(c.stamps, p)
  {
    hide QueueIn, Flushed;
    if PassedOver(c, o, call, tries, x) {
    } else if Over(c, env, x) {
      if call.q == q { OutLeavesTail(c.lru, t.c.lru, q, x, p); }
    } else if call.q.seg == Cold {
    } else {
      WarmLeavesTail(c, env, call, x, t, q, p);
    }
  }

  lemma WarmLeavesTail(c: Cache, env: Env, call: Call, x: Ptr, t: Turn, q: Queue, p: Ptr)
    requires x in c.mem && WarmMeans(c, env, call, x, t) && q.seg == Cold && q != call.q && AtTail(c, q, p) && p != x
    requires p in c.mem
    ensures AtTail(t.c, q, p) && p in t.c.mem && t.c.mem[p] == c.mem[p]
    ensures StampOf(t.c.stamps, p) == StampOf(c.stamps, p)
  {
    hide QueueIn, Flushed;
    if t.c.lru != c.lru {
      var to := if t.stop then Queue(call.q.clsid, Cold) else call.q;
      assert ToHead(c.lru, t.c.lru, call.q, x, to);
    }
  }

  lemma {:induction false} WalkLeavesTail(c: Cache, env: Env, o: Oracle, call: Call, x: Ptr, tries: nat, q: Queue,
                                          p: Ptr)
    requires Coherent(c) && Timely(c, env) && (x == Null || (LinkedIn(c.mem, x) && c.mem[x].Home() == call.q))
    requires Spares(env, call, q) && AtTail(c, q, p) && LinkedIn(c.mem, p) && c.mem[p].Home() == q && !Over(c, env, p)
    ensures var r := Walk(c, env, o, call, x, tries);
      AtTail(r.c, q, p) && p in r.c.mem && r.c.mem[p] == c.mem[p] && StampOf(r.c.stamps, p) == StampOf(c.stamps, p)
    decreases tries
  {
    hide Coherent, Timely, Visit, TurnMeans, Above, Elsewhere, PullOk, QueueIn, AtTail, Spares, Flushed, Walk;
    NotNullAt(c);
    if tries == 0 || x == Null {
      WalkIdle(c, env, o, call, x, tries);
    } else {
      LinkedHere(c, x);
      TurnDoes(c, env, o, call, tries, x);
      var t := Visit(c, env, o, call, tries, x);
      TurnLeavesTail(c, env, o, call, tries, x, t, q, p);
      WalkStep(c, env, o, call, x, tries);
      if !t.stop {
        TurnPulled(c, env, o, call, tries, x);
        PullCoherent(c, env, o, call, 1, t);
        AboveLinked(c, call, x, t.c);
        WalkLeavesTail(t.c, env, o, call, Above(QueueIn(c.lru, call.q), x), tries - 1, q, p);
      }
    }
  }

  lemma WalkIdle(c: Cache, env: Env, o: Oracle, call: Call, x: Ptr, tries: nat)
    requires Null !in c.mem && (tries == 0 || x == Null)
    ensures Walk(c, env, o, call, x, tries).c == c
  {
    hide Visit, Above;
  }

  // A live item at the tail of COLD stays there, and as it is, under calls that do not evict from it.
  lemma PullLeavesTail(c: Cache, env: Env, o: Oracle, call: Call, q: Queue, p: Ptr)
    requires Coherent(c) && Timely(c, env) && Spares(env, call, q) && AtTail(c, q, p)
    ensures p in c.mem
    ensures var c1 := PullTail(c, env, o, call).c;
      !Over(c, env, p) ==>
        AtTail(c1, q, p) && p in c1.mem && c1.mem[p] == c.mem[p] && StampOf(c1.stamps, p) == StampOf(c.stamps, p)
  {
    hide Coherent, Timely, Walk, AtTail, Spares, Flushed;
    TailFacts(c, q, p);
    var s := QueueIn(c.lru, call.q);
    if call.q.clsid != 0 && s != [] && !Over(c, env, p) {
      QueueFacts(c, call.q, |s| - 1);
      WalkLeavesTail(c, env, o, call, s[|s| - 1], TRIES, q, p);
    }
  }

  lemma TailFacts(c: Cache, q: Queue, p: Ptr)
    requires Coherent(c) && AtTail(c, q, p)
    ensures LinkedIn(c.mem, p) && c.mem[p].Home() == q
  {
    hide Coherent;
    QueueFacts(c, q, |QueueIn(c.lru, q)| - 1);
  }

  // A dead item at the tail is reclaimed by any call that is not kept from it, and stays so.
  lemma TailReclaimed(c: Cache, env: Env, o: Oracle, call: Call, p: Ptr)
    requires Coherent(c) && Timely(c, env) && call.q.clsid != 0 && AtTail(c, call.q, p) && p in c.mem
    requires !PassedOver(c, o, call, 5, p) && Over(c, env, p)
    ensures var c1 := PullTail(c, env, o, call).c;
      && p in c1.mem && !LinkedIn(c1.mem, p) && c.mem[p].key !in c1.table
      && (Others(c.mem, p) == 0 ==> c1.mem[p].flags.slabbed)
  {
    hide Coherent, Timely, Visit, Above, Over, PassedOver, Flushed, Walk, AllKept, TableShrinks, OwnKept, VictimOk;
    TailFacts(c, call.q, p);
    LinkedHere(c, p);
    TurnDoes(c, env, o, call, TRIES, p);
    WalkStep(c, env, o, call, p, TRIES);
    var t := Visit(c, env, o, call, TRIES, p);
    var next := Above(QueueIn(c.lru, call.q), p);
    hide QueueIn;
    TurnPulled(c, env, o, call, TRIES, p);
    PullCoherent(c, env, o, call, 1, t);
    AboveLinked(c, call, p, t.c);
    WalkOk(t.c, env, o, call, next, TRIES - 1);
    var r := Walk(t.c, env, o, call, next, TRIES - 1);
    AllAt(t.c, r.c, env, p);
    KeyStaysGone(t.c, r.c, env, r.victim, c.mem[p].key);
  }

  lemma KeyStaysGone(c: Cache, c1: Cache, env: Env, victim: Ptr, k: Key)
    requires TableShrinks(c, c1, env, victim) && k !in c.table
    ensures k !in c1.table
  {
    hide Dead;
  }

  // ---- other queues ----

  // Queues nothing is moved to: HOT from anywhere, WARM but from COLD by a call that does not evict.
  predicate Apart(call: Call, q: Queue) {
    call.q != q && (q.seg == Hot || (q.seg == Warm && !(call.q.seg == Cold && !call.evict)))
  }

  ghost predicate QueueStays(c: Cache, z: Cache, q: Queue) {
    && QueueIn(z.lru, q) == QueueIn(c.lru, q)
    && forall p :: p in QueueIn(c.lru, q) && p in c.mem ==>
         p in z.mem && z.mem[p] == c.mem[p] && StampOf(z.stamps, p) == StampOf(c.stamps, p)
  }

  lemma QueueStaysTwice(c: Cache, x: Cache, z: Cache, q: Queue)
    requires QueueStays(c, x, q) && QueueStays(x, z, q)
    ensures QueueStays(c, z, q)
  {
    hide QueueIn;
  }

  lemma TurnLeavesQueue(c: Cache, env: Env, o: Oracle, call: Call, tries: nat, x: Ptr, t: Turn, q: Queue)
    requires TurnMeans(c, env, o, call, tries, x, t) && Apart(call, q) && x in c.mem && c.mem[x].Home() == call.q
    requires x !in QueueIn(c.lru, q)
    ensures QueueStays(c, t.c, q)
  {
    hide QueueIn, Flushed;
    if PassedOver(c, o, call, tries, x) || Over(c, env, x) {
    } else if call.q.seg == Cold {
    } else {
      WarmLeavesQueue(c, env, call, x, t, q);
    }
  }

  lemma WarmLeavesQueue(c: Cache, env: Env, call: Call, x: Ptr, t: Turn, q: Queue)
    requires x in c.mem && WarmMeans(c, env, call, x, t) && Apart(call, q) && x !in QueueIn(c.lru, q)
    ensures QueueStays(c, t.c, q)
  {
    hide QueueIn, Flushed;
    if t.c.lru != c.lru {
      var to := if t.stop then Queue(call.q.clsid, Cold) else call.q;
      assert ToHead(c.lru, t.c.lru, call.q, x, to);
    }
  }

  lemma {:induction false} WalkLeavesQueue(c: Cache, env: Env, o: Oracle, call: Call, x: Ptr, tries: nat, q: Queue)
    requires Coherent(c) && Timely(c, env) && (x == Null || (LinkedIn(c.mem, x) && c.mem[x].Home() == call.q))
    requires Apart(call, q)
    ensures QueueStays(c, Walk(c, env, o, call, x, tries).c, q)
    decreases tries
  {
    hide Coherent, Timely, Visit, TurnMeans, Above, Elsewhere, PullOk, QueueIn, QueueStays, Apart, Flushed, Walk;
    NotNullAt(c);
    if tries == 0 || x == Null {
      WalkIdle(c, env, o, call, x, tries);
      SameQueue(c, q);
    } else {
      LinkedHere(c, x);
      NotQueued(c, x, q) by { ApartFrom(call, q); }
      TurnDoes(c, env, o, call, tries, x);
      var t := Visit(c, env, o, call, tries, x);
      TurnLeavesQueue(c, env, o, call, tries, x, t, q);
      WalkStep(c, env, o, call, x, tries);
      if !t.stop {
        TurnPulled(c, env, o, call, tries, x);
        PullCoherent(c, env, o, call, 1, t);
        AboveLinked(c, call, x, t.c);
        var next := Above(QueueIn(c.lru, call.q), x);
        WalkLeavesQueue(t.c, env, o, call, next, tries - 1, q);
        QueueStaysTwice(c, t.c, Walk(t.c, env, o, call, next, tries - 1).c, q);
      }
    }
  }

  lemma ApartFrom(call: Call, q: Queue)
    requires Apart(call, q)
    ensures call.q != q
  {
  }

  lemma SameQueue(c: Cache, q: Queue)
    ensures QueueStays(c, c, q)
  {
  }

  lemma NotQueued(c: Cache, x: Ptr, q: Queue)
    requires Coherent(c) && LinkedIn(c.mem, x) && c.mem[x].Home() != q
    ensures x !in QueueIn(c.lru, q)
  {
    hide TableOk, LinkedOk, StampsOk, QueuesOnce, RefsOk;
  }

  // A pull leaves such a queue and its items alone.
  lemma PullLeavesQueue(c: Cache, env: Env, o: Oracle, call: Call, q: Queue)
    requires Coherent(c) && Timely(c, env) && Apart(call, q)
    ensures QueueStays(c, PullTail(c, env, o, call).c, q)
  {
    hide Coherent, Timely, Walk, QueueStays, Apart;
    var s := QueueIn(c.lru, call.q);
    SameQueue(c, q);
    if call.q.clsid != 0 && s != [] {
      QueueFacts(c, call.q, |s| - 1);
      WalkLeavesQueue(c, env, o, call, s[|s| - 1], TRIES, q);
    }
  }

  // The live item at the tail of a HOT or WARM queue that has grown over its limit goes to the head of COLD.
  lemma TailMovesDown(c: Cache, env: Env, o: Oracle, call: Call, p: Ptr)
    requires Coherent(c) && Timely(c, env) && call.q.clsid != 0 && call.q.seg != Cold && AtTail(c, call.q, p)
    requires p in c.mem && !PassedOver(c, o, call, 5, p) && !Over(c, env, p)
    requires |QueueIn(c.lru, call.q)| > call.limit
    ensures var r := PullTail(c, env, o, call);
      && r.removed == 1 && r.victim == Null && KeptAs(c, r.c, p, Cold, c.mem[p].flags.active, TimeOf(c, p))
      && ToHead(c.lru, r.c.lru, call.q, p, Queue(call.q.clsid, Cold))
      && p !in QueueIn(r.c.lru, call.q)
  {
    hide Coherent, Timely, Visit, Above, Over, PassedOver, KeptAs, ToHead, Walk, PullOk;
    TailFacts(c, call.q, p);
    TurnDoes(c, env, o, call, TRIES, p);
    LinkedHere(c, p);
    WalkStep(c, env, o, call, p, TRIES);
    WalkCounts(c, env, o, call, p, TRIES);
    PullTailOk(c, env, o, call);
    PullCoherent(c, env, o, call, TRIES, PullTail(c, env, o, call));
    MovedAway(c, PullTail(c, env, o, call).c, call.q, p);
  }

  lemma MovedAway(c: Cache, z: Cache, q: Queue, p: Ptr)
    requires Coherent(z) && p in c.mem && q.seg != Cold && KeptAs(c, z, p, Cold, c.mem[p].flags.active, TimeOf(c, p))
    ensures p !in QueueIn(z.lru, q)
  {
    hide TableOk, LinkedOk, StampsOk, QueuesOnce, RefsOk, QueueIn;
    assert z.mem[p].Home() != q;
  }
}
