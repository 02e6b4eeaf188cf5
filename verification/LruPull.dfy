// lru_pull_tail: what one walk up a queue may do.
module LruPull {
  import opened Memory
  import opened Linkage
  import opened CacheSpec

  // hash(), and whether item_trylock succeeds: by how many tries are left and the item looked at.
  datatype Oracle = Oracle(h: Key -> nat, granted: (nat, Ptr) -> bool)

  // What lru_pull_tail was called with: the queue id | cur_lru, the size limit, do_evict and cur_hv.
  datatype Call = Call(q: Queue, limit: nat, evict: bool, curHv: nat)

  // limit = total_chunks * warm_lru_pct / 100, for HOT_LRU too: its case falls through and the limit is overwritten.
  function Limit(env: Env, totalChunks: nat): nat { totalChunks * env.warmPct / 100 }

  // The state after one item has been looked at, how many left the queue, whether the walk stops, and the live
  // item that was evicted.
  datatype Turn = Turn(c: Cache, removed: nat, stop: bool, victim: Ptr)

  predicate Usable(c: Cache, p: Ptr) { p in c.mem && c.mem[p].flags.linked && c.mem[p].refcount > 0 }

  predicate Skipped(c: Cache, o: Oracle, call: Call, tries: nat, p: Ptr)
    requires p in c.mem
  {
    o.h(c.mem[p].key) == call.curHv || !o.granted(tries, p)
  }

  // The switch on cur_lru, for a live item of which we hold a reference.
  function VisitLive(c: Cache, env: Env, call: Call, p: Ptr): Turn
    requires p in c.mem && c.mem[p].flags.linked && c.mem[p].refcount > 1
  {
    var it := c.mem[p];
    if call.q.seg != Cold then
      if |QueueIn(c.lru, call.q)| > call.limit then Turn(Drop(Requeue(c, p, Cold, TimeOf(c, p)), p), 1, true, Null)
      else if it.flags.active then
        Turn(Drop(UpdateNolock(Edit(c, p, it.(flags := it.flags.(active := false))), env, p), p), 0, false, Null)
      else Turn(Drop(c, p), 0, true, Null)
    else if call.evict then
      if !env.evictToFree then Turn(Drop(c, p), 0, true, Null) else Turn(Drop(Unlink(c, p), p), 1, true, p)
    else if it.flags.active && env.maintainer then
      Turn(Drop(Requeue(Edit(c, p, it.(flags := it.flags.(active := false))), p, Warm, TimeOf(c, p)), p), 1, true, Null)
    else Turn(Drop(c, p), 0, true, Null)
  }

  function Visit(c: Cache, env: Env, o: Oracle, call: Call, tries: nat, p: Ptr): Turn
    requires Usable(c, p)
  {
    if Skipped(c, o, call, tries, p) then Turn(c, 0, false, Null)
    else
      var c1 := Hold(c, p);
      if Dead(c1, env, p) then Turn(Drop(Unlink(c1, p), p), 1, false, Null) else VisitLive(c1, env, call, p)
  }

  // The item before p in the queue, or Null at the head: next_it is read before p is touched.
  function Above(s: seq<Ptr>, p: Ptr): Ptr {
    if p in s && IndexOf(s, p) > 0 then s[IndexOf(s, p) - 1] else Null
  }

  // The walk: up to `tries` items from `search` towards the head.
  function Walk(c: Cache, env: Env, o: Oracle, call: Call, search: Ptr, tries: nat): Turn
    decreases tries
  {
    if tries == 0 || !Usable(c, search) then Turn(c, 0, true, Null)
    else
      var next := Above(QueueIn(c.lru, call.q), search);
      var t := Visit(c, env, o, call, tries, search);
      if t.stop then t
      else
        var r := Walk(t.c, env, o, call, next, tries - 1);
        Turn(r.c, t.removed + r.removed, true, r.victim)
  }

  const TRIES: nat := 5

  function PullTail(c: Cache, env: Env, o: Oracle, call: Call): Turn {
    var s := QueueIn(c.lru, call.q);
    if call.q.clsid == 0 || s == [] then Turn(c, 0, true, Null) else Walk(c, env, o, call, s[|s| - 1], TRIES)
  }

  // ---- what a turn keeps ----

  // The clock does not run backwards.
  ghost predicate Timely(c: Cache, env: Env) { forall p :: TimeOf(c, p) <= env.now }

  // An item that stays linked keeps its key, what is stored in it, its class, its cas id and whether it is flushed.
  ghost predicate StaysLinked(c: Cache, c1: Cache, env: Env, p: Ptr) {
    && LinkedIn(c.mem, p) && p in c1.mem && c1.mem[p].key == c.mem[p].key && c1.mem[p].content == c.mem[p].content
    && c1.mem[p].clsid == c.mem[p].clsid && CasOf(c1, p) == CasOf(c, p)
    && IsFlushed(c1, env, p) == IsFlushed(c, env, p) && TimeOf(c1, p) >= TimeOf(c, p)
  }

  // Every item keeps its holders; one that is unlinked is freed exactly when it has none.
  ghost predicate ItemKept(c: Cache, c1: Cache, env: Env, p: Ptr) {
    && p in c.mem && p in c1.mem && Others(c1.mem, p) == Others(c.mem, p)
    && (c1.mem[p].flags.slabbed || c1.mem[p].flags.cas == c.mem[p].flags.cas)
    && (LinkedIn(c1.mem, p) ==> StaysLinked(c, c1, env, p))
    && (LinkedIn(c.mem, p) && !LinkedIn(c1.mem, p) ==> (c1.mem[p].flags.slabbed <==> Others(c.mem, p) == 0))
  }

  // Nothing is written but item p and its stamp.
  ghost predicate Elsewhere(c: Cache, c1: Cache, p: Ptr) {
    && c1.casId == c.casId && c1.mem.Keys == c.mem.Keys
    && (forall x :: x != p && x in c.mem ==> c1.mem[x] == c.mem[x])
    && forall x :: x != p ==> StampOf(c1.stamps, x) == StampOf(c.stamps, x)
  }

  ghost predicate TurnOk(c: Cache, env: Env, call: Call, p: Ptr, t: Turn) {
    && Coherent(t.c) && Timely(t.c, env) && ItemKept(c, t.c, env, p) && Elsewhere(c, t.c, p)
    && t.removed <= 1 && |QueueIn(t.c.lru, call.q)| + t.removed == |QueueIn(c.lru, call.q)|
    && (t.victim != Null ==>
          && t.victim == p && t.stop && call.evict && env.evictToFree && call.q.seg == Cold && !Dead(c, env, p)
          && !LinkedIn(t.c.mem, p) && t.c.table == c.table - {c.mem[p].key})
    && (t.c.table == c.table
        || (t.c.table == c.table - {c.mem[p].key} && (t.victim == p || Dead(c, env, p)) && !LinkedIn(t.c.mem, p)))
  }

  // The item leaves the cache: unlinked, and freed unless others hold it.
  function Gone(c: Cache, p: Ptr): Cache
    requires Usable(c, p)
  {
    Drop(Unlink(Hold(c, p), p), p)
  }

  lemma EraseLength(s: seq<Ptr>, p: Ptr)
    requires p in s
    ensures |Erase(s, p)| == |s| - 1
  {
  }

  lemma GoneCoherent(c: Cache, p: Ptr)
    requires Coherent(c) && LinkedIn(c.mem, p)
    ensures Usable(c, p) && Coherent(Gone(c, p)) && Others(Gone(c, p).mem, p) == Others(c.mem, p)
  {
    LinkedHere(c, p);
    hide Coherent, EraseQueue;
    HoldCoherent(c, p);
    UnlinkCoherent(Hold(c, p), p);
    DropCoherent(Unlink(Hold(c, p), p), p);
  }

  lemma TimelyKept(c: Cache, c1: Cache, env: Env, p: Ptr)
    requires Timely(c, env) && Elsewhere(c, c1, p) && TimeOf(c1, p) <= env.now
    ensures Timely(c1, env)
  {
    forall x ensures TimeOf(c1, x) <= env.now { assert TimeOf(c, x) <= env.now; }
  }

  lemma GoneOk(c: Cache, env: Env, call: Call, p: Ptr, stop: bool, victim: Ptr)
    requires Coherent(c) && Timely(c, env) && LinkedIn(c.mem, p) && c.mem[p].Home() == call.q
    requires if victim == Null then Dead(c, env, p)
        else victim == p && stop && call.evict && env.evictToFree && call.q.seg == Cold && !Dead(c, env, p)
    ensures Usable(c, p) && TurnOk(c, env, call, p, Turn(Gone(c, p), 1, stop, victim))
  {
    LinkedHere(c, p);
    GoneCoherent(c, p);
    GoneEffect(c, p);
    FreedWhen(c, p);
    hide Coherent, EraseQueue, Erase, Flushed, Gone, Others, Dead;
    EraseLength(QueueIn(c.lru, call.q), p);
    QueueAfterErase(c.lru, call.q, p);
    hide QueueIn;
    assert TimeOf(Gone(c, p), p) == TimeOf(c, p);
    TimelyKept(c, Gone(c, p), env, p);
    hide Timely, StaysLinked;
  }

  lemma QueueAfterErase(lru: map<Queue, seq<Ptr>>, q: Queue, p: Ptr)
    ensures QueueIn(EraseQueue(lru, q, p), q) == Erase(QueueIn(lru, q), p)
  {
  }

  lemma GoneEffect(c: Cache, p: Ptr)
    requires Usable(c, p)
    ensures var g := Gone(c, p);
      && Elsewhere(c, g, p) && g.stamps == c.stamps && g.table == c.table - {c.mem[p].key}
      && g.lru == EraseQueue(c.lru, c.mem[p].Home(), p) && !g.mem[p].flags.linked && g.mem[p].seg == c.mem[p].seg
  {
    hide EraseQueue, Unlink, Drop;
    var h := Hold(c, p);
    UnlinkElsewhere(h, p);
    DropElsewhere(Unlink(h, p), p);
  }

  lemma UnlinkElsewhere(c: Cache, p: Ptr)
    requires Usable(c, p)
    ensures var u := Unlink(c, p);
      && u.mem.Keys == c.mem.Keys && (forall x :: x != p && x in c.mem ==> u.mem[x] == c.mem[x])
      && u.stamps == c.stamps && u.casId == c.casId && u.table == c.table - {c.mem[p].key}
      && u.lru == EraseQueue(c.lru, c.mem[p].Home(), p) && !u.mem[p].flags.linked
      && u.mem[p].refcount == c.mem[p].refcount - 1 && u.mem[p].seg == c.mem[p].seg
  {
    hide EraseQueue, Drop;
    assert Detach(c, p).mem[p].refcount == c.mem[p].refcount;
    DropElsewhere(Detach(c, p), p);
  }

  lemma DropElsewhere(c: Cache, p: Ptr)
    requires p in c.mem && c.mem[p].refcount > 0 && !c.mem[p].flags.linked
    ensures var u := Drop(c, p);
      && u.mem.Keys == c.mem.Keys && (forall x :: x != p && x in c.mem ==> u.mem[x] == c.mem[x])
      && u == c.(mem := u.mem) && !u.mem[p].flags.linked && u.mem[p].refcount == c.mem[p].refcount - 1
      && u.mem[p].seg == c.mem[p].seg
  {
  }

  lemma FreedWhen(c: Cache, p: Ptr)
    requires Usable(c, p) && !c.mem[p].flags.slabbed
    ensures Gone(c, p).mem[p].flags.slabbed <==> Others(c.mem, p) == 0
  {
    hide EraseQueue;
  }

  // p as it is left: in segment seg, with its ACTIVE bit and time as given.
  ghost predicate LeftAs(c: Cache, c1: Cache, p: Ptr, active: bool, seg: Segment, time: nat) {
    && p in c.mem && p in c1.mem && Elsewhere(c, c1, p) && c1.table == c.table
    && c1.mem[p] == c.mem[p].(flags := c.mem[p].flags.(active := active), seg := seg)
    && StampOf(c1.stamps, p) == StampOf(c.stamps, p).(time := time)
  }

  lemma LeftOk(c: Cache, env: Env, p: Ptr, c1: Cache, active: bool, seg: Segment, time: nat)
    requires Timely(c, env) && LinkedIn(c.mem, p) && LeftAs(c, c1, p, active, seg, time) && !Dead(c, env, p)
    requires TimeOf(c, p) <= time <= env.now
    ensures ItemKept(c, c1, env, p) && Timely(c1, env)
  {
    TimelyKept(c, c1, env, p);
    hide Timely, Elsewhere;
    StillUnflushed(env, TimeOf(c, p), time, CasOf(c, p));
    hide Flushed;
  }

  // The item with a reference more and its ACTIVE bit set as given.
  function Marked(c: Cache, p: Ptr, active: bool): Cache
    requires p in c.mem
  {
    Edit(c, p, c.mem[p].(flags := c.mem[p].flags.(active := active), refcount := c.mem[p].refcount + 1))
  }

  lemma MarkedFacts(c: Cache, p: Ptr, active: bool)
    requires Coherent(c) && LinkedIn(c.mem, p)
    ensures Coherent(Marked(c, p, active)) && Others(Marked(c, p, active).mem, p) == Others(c.mem, p) + 1
    ensures Usable(c, p) && LinkedIn(Marked(c, p, active).mem, p) && !Marked(c, p, active).mem[p].flags.slabbed
  {
    LinkedHere(c, p);
    hide Coherent;
    EditCoherent(c, p, c.mem[p].(flags := c.mem[p].flags.(active := active), refcount := c.mem[p].refcount + 1));
  }

  lemma MovedCoherent(c: Cache, p: Ptr, active: bool, seg: Segment, time: nat)
    requires Coherent(c) && LinkedIn(c.mem, p)
    ensures var r := Requeue(Marked(c, p, active), p, seg, time);
      Coherent(r) && p in r.mem && r.mem[p].refcount > 1 && Coherent(Drop(r, p))
  {
    MarkedFacts(c, p, active);
    LinkedHere(c, p);
    var c1 := Marked(c, p, active);
    hide Coherent, EraseQueue, PushQueue, Drop;
    RequeueCoherent(c1, p, seg, time);
    DropCoherent(Requeue(c1, p, seg, time), p);
  }

  lemma MovedLeft(c: Cache, p: Ptr, active: bool, seg: Segment, time: nat)
    requires Usable(c, p)
    ensures var r := Requeue(Marked(c, p, active), p, seg, time);
      p in r.mem && r.mem[p].refcount > 1 && LeftAs(c, Drop(r, p), p, active, seg, time)
      && Drop(r, p).lru == PushQueue(EraseQueue(c.lru, c.mem[p].Home(), p), Queue(c.mem[p].clsid, seg), p)
  {
    hide EraseQueue, PushQueue;
    var c1 := Marked(c, p, active);
    RequeueEffect(c1, p, seg, time);
    hide Requeue;
    DropEffect(Requeue(c1, p, seg, time), p);
  }

  // The item is requeued.
  lemma MovedOk(c: Cache, env: Env, call: Call, p: Ptr, active: bool, seg: Segment, time: nat, stop: bool)
    requires Coherent(c) && Timely(c, env) && LinkedIn(c.mem, p) && c.mem[p].Home() == call.q && !Dead(c, env, p)
    requires TimeOf(c, p) <= time <= env.now
    ensures Usable(c, p)
    ensures var r := Requeue(Marked(c, p, active), p, seg, time);
      && p in r.mem && r.mem[p].refcount > 0
      && TurnOk(c, env, call, p, Turn(Drop(r, p), if seg == call.q.seg then 0 else 1, stop, Null))
  {
    LinkedHere(c, p);
    MovedCoherent(c, p, active, seg, time);
    MovedLeft(c, p, active, seg, time);
    var d := Drop(Requeue(Marked(c, p, active), p, seg, time), p);
    hide Coherent, EraseQueue, PushQueue, Drop, Requeue, Dead, Marked;
    RequeueLength(c.lru, call.q, Queue(call.q.clsid, seg), p);
    LeftOk(c, env, p, d, active, seg, time);
    hide ItemKept, Timely, QueueIn;
  }

  lemma StillUnflushed(env: Env, time: nat, time1: nat, cas: nat)
    requires time <= time1
    ensures !Flushed(env, time, cas) ==> !Flushed(env, time1, cas)
  {
  }

  lemma RequeueEffect(c: Cache, p: Ptr, seg: Segment, time: nat)
    requires p in c.mem
    ensures var r := Requeue(c, p, seg, time);
      && r.mem == c.mem[p := c.mem[p].(seg := seg)] && r.table == c.table && r.casId == c.casId
      && StampOf(r.stamps, p) == StampOf(c.stamps, p).(time := time)
      && (forall x :: x != p ==> StampOf(r.stamps, x) == StampOf(c.stamps, x))
      && r.lru == PushQueue(EraseQueue(c.lru, c.mem[p].Home(), p), Queue(c.mem[p].clsid, seg), p)
  {
    hide EraseQueue, PushQueue;
  }

  lemma DropEffect(c: Cache, p: Ptr)
    requires p in c.mem && c.mem[p].refcount > 1
    ensures var d := Drop(c, p);
      d == c.(mem := c.mem[p := c.mem[p].(refcount := c.mem[p].refcount - 1)])
  {
  }

  lemma RequeueLength(lru: map<Queue, seq<Ptr>>, q: Queue, q1: Queue, p: Ptr)
    requires p in QueueIn(lru, q)
    ensures |QueueIn(PushQueue(EraseQueue(lru, q, p), q1, p), q)| + (if q1 == q then 0 else 1) == |QueueIn(lru, q)|
  {
    EraseLength(QueueIn(lru, q), p);
  }

  // The item is only looked at, and perhaps its ACTIVE bit dropped.
  lemma LookedOk(c: Cache, env: Env, call: Call, p: Ptr, active: bool, stop: bool)
    requires Coherent(c) && Timely(c, env) && LinkedIn(c.mem, p) && c.mem[p].Home() == call.q && !Dead(c, env, p)
    ensures Usable(c, p) && TurnOk(c, env, call, p, Turn(Drop(Marked(c, p, active), p), 0, stop, Null))
  {
    MarkedFacts(c, p, active);
    LinkedHere(c, p);
    hide Coherent;
    DropCoherent(Marked(c, p, active), p);
    DropEffect(Marked(c, p, active), p);
    var d := Drop(Marked(c, p, active), p);
    assert LeftAs(c, d, p, active, call.q.seg, TimeOf(c, p));
    hide Drop, Dead, Marked;
    assert TimeOf(c, p) <= env.now;
    LeftOk(c, env, p, d, active, call.q.seg, TimeOf(c, p));
    hide ItemKept, Timely, QueueIn;
  }

  // Every branch of the loop body.
  lemma VisitOk(c: Cache, env: Env, o: Oracle, call: Call, tries: nat, p: Ptr)
    requires Coherent(c) && Timely(c, env) && LinkedIn(c.mem, p) && c.mem[p].Home() == call.q
    ensures Usable(c, p) && TurnOk(c, env, call, p, Visit(c, env, o, call, tries, p))
    ensures Skipped(c, o, call, tries, p) ==> Visit(c, env, o, call, tries, p).c == c
  {
    LinkedHere(c, p);
    hide Coherent, TurnOk, EraseQueue, PushQueue, Drop, Requeue, Flushed, Unlink;
    if Skipped(c, o, call, tries, p) {
      SkipOk(c, env, call, p);
    } else if Dead(c, env, p) {
      GoneOk(c, env, call, p, false, Null);
    } else {
      LiveOk(c, env, call, p);
    }
  }

  lemma SkipOk(c: Cache, env: Env, call: Call, p: Ptr)
    requires Coherent(c) && Timely(c, env) && LinkedIn(c.mem, p)
    ensures TurnOk(c, env, call, p, Turn(c, 0, false, Null))
  {
    hide Coherent, Timely;
  }

  lemma MarkedIs(c: Cache, p: Ptr)
    requires p in c.mem
    ensures Hold(c, p) == Marked(c, p, c.mem[p].flags.active)
    ensures Edit(Hold(c, p), p, Hold(c, p).mem[p].(flags := c.mem[p].flags.(active := false))) == Marked(c, p, false)
    ensures forall active :: Marked(c, p, active).lru == c.lru && Marked(c, p, active).stamps == c.stamps
    ensures forall active :: Marked(c, p, active).mem[p].flags == c.mem[p].flags.(active := active)
    ensures forall active :: Marked(c, p, active).mem[p].seg == c.mem[p].seg
  {
  }

  // HOT_LRU and WARM_LRU
  lemma UpperOk(c: Cache, env: Env, call: Call, p: Ptr)
    requires Coherent(c) && Timely(c, env) && LinkedIn(c.mem, p) && c.mem[p].Home() == call.q && !Dead(c, env, p)
    requires call.q.seg != Cold
    ensures Usable(c, p) && TurnOk(c, env, call, p, VisitLive(Hold(c, p), env, call, p))
  {
    LinkedHere(c, p);
    hide Coherent, TurnOk, EraseQueue, PushQueue, Drop, Requeue, Dead, Unlink;
    assert TimeOf(c, p) <= env.now;
    hide Timely;
    MarkedIs(c, p);
    hide Marked;
    if |QueueIn(c.lru, call.q)| > call.limit {
      MovedOk(c, env, call, p, c.mem[p].flags.active, Cold, TimeOf(c, p), true);
    } else if !c.mem[p].flags.active {
      LookedOk(c, env, call, p, c.mem[p].flags.active, true);
    } else if Stale(env, TimeOf(c, p)) {
      MovedOk(c, env, call, p, false, call.q.seg, env.now, false);
    } else {
      LookedOk(c, env, call, p, false, false);
    }
  }

  lemma ColdOk(c: Cache, env: Env, call: Call, p: Ptr)
    requires Coherent(c) && Timely(c, env) && LinkedIn(c.mem, p) && c.mem[p].Home() == call.q && !Dead(c, env, p)
    requires call.q.seg == Cold
    ensures Usable(c, p) && TurnOk(c, env, call, p, VisitLive(Hold(c, p), env, call, p))
  {
    LinkedHere(c, p);
    hide Coherent, TurnOk, EraseQueue, PushQueue, Drop, Requeue, Dead, Unlink;
    assert TimeOf(c, p) <= env.now;
    hide Timely;
    MarkedIs(c, p);
    hide Marked;
    if call.evict && env.evictToFree {
      NotNull(c, p);
      GoneOk(c, env, call, p, true, p);
    } else if !call.evict && c.mem[p].flags.active && env.maintainer {
      MovedOk(c, env, call, p, false, Warm, TimeOf(c, p), true);
    } else {
      LookedOk(c, env, call, p, c.mem[p].flags.active, true);
    }
  }

  lemma NotNull(c: Cache, p: Ptr)
    requires Coherent(c) && p in c.mem
    ensures p != Null
  {
    hide TableOk, LinkedOk, QueuesOnce, QueuedOk, RefsOk, StampsOk;
  }

  lemma LiveOk(c: Cache, env: Env, call: Call, p: Ptr)
    requires Coherent(c) && Timely(c, env) && LinkedIn(c.mem, p) && c.mem[p].Home() == call.q && !Dead(c, env, p)
    ensures Usable(c, p) && TurnOk(c, env, call, p, VisitLive(Hold(c, p), env, call, p))
  {
    hide Coherent, Timely, TurnOk, VisitLive, Dead;
    if call.q.seg == Cold { ColdOk(c, env, call, p); } else { UpperOk(c, env, call, p); }
  }
}
