// What do_item_alloc achieves: it gives up only after five refusals, and before that it makes room.
module StoreRoom {
  import opened Memory
  import opened Linkage
  import opened CacheSpec
  import opened LruPull
  import opened LruPullProofs
  import opened LruTurns
  import opened StoreCommand
  import opened StoreCommandProofs

  // ---- a chunk that slabs_alloc may hand out stays one ----

  lemma PullSound(c: Cache, env: Env, w: Want, s: Supply, i: nat, seg: Segment, evict: bool)
    requires Coherent(c) && Timely(c, env)
    ensures var c1 := PullFor(c, env, w, s, i, seg, evict);
      && Coherent(c1) && Timely(c1, env) && c1.mem.Keys == c.mem.Keys
      && (forall p :: p in c.mem && !LinkedIn(c.mem, p) ==> c1.mem[p] == c.mem[p])
      && (forall k :: k in c1.table ==> k in c.table)
  {
    hide Coherent, Timely, PullTail, OwnKept, VictimOk, ItemKept, Limit;
    var total := if env.maintainer then s.total(i) else 0;
    PullTailOk(c, env, Oracle(w.h, s.locks(i)), Call(Queue(w.clsid, seg), Limit(env, total), evict, w.hv));
  }

  lemma SpareStays(c: Cache, env: Env, w: Want, s: Supply, i: nat, seg: Segment, evict: bool, p: Ptr)
    requires Coherent(c) && Timely(c, env) && Spare(c, p)
    ensures Spare(PullFor(c, env, w, s, i, seg, evict), p)
  {
    hide Coherent, Timely, PullFor;
    PullSound(c, env, w, s, i, seg, evict);
  }

  // The pulls of one attempt: without the maintainer one before slabs_alloc is asked, and those after a refusal.
  function Before(c: Cache, env: Env, w: Want, s: Supply, i: nat): Cache {
    if env.maintainer then c else PullFor(c, env, w, s, 4 * i, Cold, false)
  }

  function After(c: Cache, env: Env, w: Want, s: Supply, i: nat): Cache {
    if env.maintainer then
      PullFor(PullFor(PullFor(c, env, w, s, 4 * i + 1, Hot, false), env, w, s, 4 * i + 2, Warm, false),
              env, w, s, 4 * i + 3, Cold, true)
    else PullFor(c, env, w, s, 4 * i + 1, Cold, true)
  }

  lemma TryIs(c: Cache, env: Env, w: Want, s: Supply, i: nat)
    ensures AllocTry(c, env, w, s, i) ==
      if i >= 5 then (c, Null)
      else if Spare(Before(c, env, w, s, i), s.chunk(i)) then (Before(c, env, w, s, i), s.chunk(i))
      else AllocTry(After(Before(c, env, w, s, i), env, w, s, i), env, w, s, i + 1)
  {
    hide PullFor;
  }

  lemma BeforeSound(c: Cache, env: Env, w: Want, s: Supply, i: nat)
    requires Coherent(c) && Timely(c, env)
    ensures var c1 := Before(c, env, w, s, i);
      Coherent(c1) && Timely(c1, env) && forall p :: Spare(c, p) ==> Spare(c1, p)
  {
    hide Coherent, Timely, PullFor, Spare;
    if !env.maintainer {
      PullSound(c, env, w, s, 4 * i, Cold, false);
      forall p | Spare(c, p) ensures Spare(Before(c, env, w, s, i), p) {
        SpareStays(c, env, w, s, 4 * i, Cold, false, p);
      }
    }
  }

  lemma PullSpare(c: Cache, env: Env, w: Want, s: Supply, i: nat, seg: Segment, evict: bool)
    requires Coherent(c) && Timely(c, env)
    ensures var c1 := PullFor(c, env, w, s, i, seg, evict);
      Coherent(c1) && Timely(c1, env) && forall p :: Spare(c, p) ==> Spare(c1, p)
  {
    hide Coherent, Timely, PullFor, Spare;
    PullSound(c, env, w, s, i, seg, evict);
    forall p | Spare(c, p) ensures Spare(PullFor(c, env, w, s, i, seg, evict), p) {
      SpareStays(c, env, w, s, i, seg, evict, p);
    }
  }

  lemma AfterSound(c: Cache, env: Env, w: Want, s: Supply, i: nat)
    requires Coherent(c) && Timely(c, env)
    ensures var c1 := After(c, env, w, s, i);
      Coherent(c1) && Timely(c1, env) && forall p :: Spare(c, p) ==> Spare(c1, p)
  {
    hide Coherent, Timely, PullFor, Spare;
    if env.maintainer {
      PullSpare(c, env, w, s, 4 * i + 1, Hot, false);
      var c1 := PullFor(c, env, w, s, 4 * i + 1, Hot, false);
      PullSpare(c1, env, w, s, 4 * i + 2, Warm, false);
      PullSpare(PullFor(c1, env, w, s, 4 * i + 2, Warm, false), env, w, s, 4 * i + 3, Cold, true);
    } else {
      PullSpare(c, env, w, s, 4 * i + 1, Cold, true);
    }
  }

  // ---- it gives up only after five refusals ----

  lemma {:induction false} TryTakesFirst(c: Cache, env: Env, w: Want, s: Supply, i: nat)
    requires Coherent(c) && Timely(c, env) && i <= 5
    ensures var p := AllocTry(c, env, w, s, i).1;
      && (p == Null ==> forall j: nat :: i <= j < 5 ==> !Spare(c, s.chunk(j)))
      && (p != Null ==>
            exists k: nat :: i <= k < 5 && p == s.chunk(k) && forall j: nat :: i <= j < k ==> !Spare(c, s.chunk(j)))
    decreases 5 - i
  {
    hide Coherent, Timely, Spare, Before, After, AllocTry;
    TryIs(c, env, w, s, i);
    if i < 5 {
      var c1 := Before(c, env, w, s, i);
      BeforeSound(c, env, w, s, i);
      if !Spare(c1, s.chunk(i)) {
        var c2 := After(c1, env, w, s, i);
        AfterSound(c1, env, w, s, i);
        TryTakesFirst(c2, env, w, s, i + 1);
      } else {
        SpareChunk(c1, s.chunk(i));
      }
    }
  }

  lemma SpareChunk(c: Cache, p: Ptr)
    requires Spare(c, p)
    ensures p != Null
  {
  }

  // do_item_alloc takes the first chunk it is given, and answers NULL only for an item too large for every class or
  // when all five of slabs_alloc's answers were refusals.
  lemma AllocTakesFirst(c: Cache, env: Env, w: Want, s: Supply, key: Key, content: Content)
    requires Coherent(c) && Timely(c, env)
    ensures var (c1, p) := ItemAlloc(c, env, w, s, key, content);
      && (p == Null ==> w.clsid == 0 || forall j: nat :: j < 5 ==> !Spare(c, s.chunk(j)))
      && (p != Null ==>
            && w.clsid != 0
            && (exists k: nat :: k < 5 && p == s.chunk(k) && forall j: nat :: j < k ==> !Spare(c, s.chunk(j)))
            && p in c1.mem && Filled(c1.mem[p], env, w, key, content))
  {
    hide Coherent, Timely, Spare, AllocTry;
    TryTakesFirst(c, env, w, s, 0);
  }

  // The header of a new item: not linked, one reference, of its class, in HOT with the maintainer and in COLD without.
  predicate Filled(it: Item, env: Env, w: Want, key: Key, content: Content) {
    && !it.flags.linked && !it.flags.slabbed && !it.flags.fetched && !it.flags.active && it.flags.cas == env.useCas
    && it.refcount == 1 && it.clsid == w.clsid && it.ntotal == w.size && it.key == key && it.content == content
    && (!env.maintainer ==> it.seg == Cold)
    && (env.maintainer && !(content.exptime == 0 && env.noEvictZero) ==> it.seg == Hot)
    && (env.maintainer && content.exptime == 0 && env.noEvictZero ==> it.seg == NoExp)
  }

  // ---- it makes room ----

  // The item at the tail of COLD, which is not the caller's own and whose lock the pull gets at its first try.
  ghost predicate Reachable(c: Cache, w: Want, s: Supply, i: nat, p: Ptr) {
    && AtTail(c, Queue(w.clsid, Cold), p) && p in c.mem && Others(c.mem, p) == 0 && w.h(c.mem[p].key) != w.hv
    && s.locks(i)(5, p)
  }

  // Its chunk can be handed out, and its key is gone.
  ghost predicate MadeRoom(c: Cache, c1: Cache, p: Ptr)
    requires p in c.mem
  {
    Spare(c1, p) && p in c1.mem && c.mem[p].key !in c1.table
  }

  lemma SpareIs(c: Cache, c1: Cache, p: Ptr)
    requires Coherent(c) && LinkedIn(c.mem, p) && p in c1.mem && !LinkedIn(c1.mem, p) && c1.mem[p].flags.slabbed
    ensures Spare(c1, p)
  {
    hide TableOk, LinkedOk, StampsOk, QueuesOnce, QueuedOk, RefsOk;
  }

  lemma TailEvicted(c: Cache, env: Env, w: Want, s: Supply, i: nat, p: Ptr)
    requires Coherent(c) && Timely(c, env) && env.evictToFree && w.clsid != 0 && Reachable(c, w, s, i, p)
    requires !Over(c, env, p)
    ensures MadeRoom(c, PullFor(c, env, w, s, i, Cold, true), p)
  {
    hide Coherent, Timely, PullTail, Limit, QueueIn, Spare, Over;
    var total := if env.maintainer then s.total(i) else 0;
    var o, q := Oracle(w.h, s.locks(i)), Queue(w.clsid, Cold);
    var call := Call(q, Limit(env, total), true, w.hv);
    var n := |QueueIn(c.lru, q)|;
    TailFacts(c, q, p);
    assert FirstLive(c, env, o, call, n - 1, 5, n - 1);
    EvictsFirst(c, env, o, call, n - 1);
    SpareIs(c, PullTail(c, env, o, call).c, p);
  }

  // A pull of HOT or WARM, or of COLD without evicting and without the maintainer, leaves a live item at the tail of
  // COLD where it is.
  lemma TailLeft(c: Cache, env: Env, w: Want, s: Supply, i: nat, seg: Segment, p: Ptr)
    requires Coherent(c) && Timely(c, env) && AtTail(c, Queue(w.clsid, Cold), p) && (seg == Cold ==> !env.maintainer)
    ensures p in c.mem
    ensures var c1 := PullFor(c, env, w, s, i, seg, false);
      !Over(c, env, p) ==>
        && Coherent(c1) && Timely(c1, env) && AtTail(c1, Queue(w.clsid, Cold), p) && p in c1.mem
        && c1.mem[p] == c.mem[p] && !Over(c1, env, p)
  {
    hide Coherent, Timely, PullTail, Limit, AtTail, Flushed;
    PullSound(c, env, w, s, i, seg, false);
    var total := if env.maintainer then s.total(i) else 0;
    var call := Call(Queue(w.clsid, seg), Limit(env, total), false, w.hv);
    PullLeavesTail(c, env, Oracle(w.h, s.locks(i)), call, Queue(w.clsid, Cold), p);
  }

  // After a first refusal the pulls have evicted the live item at the tail of COLD: without the maintainer by the
  // first of them, with it by the last, after HOT and WARM have been looked at.
  lemma RoomAfterRefusal(c: Cache, env: Env, w: Want, s: Supply, p: Ptr)
    requires Coherent(c) && Timely(c, env) && env.evictToFree && w.clsid != 0
    requires Reachable(c, w, s, if env.maintainer then 3 else 1, p) && !Over(c, env, p)
    ensures var c1 := After(Before(c, env, w, s, 0), env, w, s, 0);
      Coherent(c1) && Timely(c1, env) && MadeRoom(c, c1, p)
  {
    hide Coherent, Timely, PullFor, AtTail, Over, MadeRoom;
    BeforeSound(c, env, w, s, 0);
    AfterSound(Before(c, env, w, s, 0), env, w, s, 0);
    if env.maintainer {
      TailLeft(c, env, w, s, 1, Hot, p);
      var c1 := PullFor(c, env, w, s, 1, Hot, false);
      TailLeft(c1, env, w, s, 2, Warm, p);
      var c2 := PullFor(c1, env, w, s, 2, Warm, false);
      TailEvicted(c2, env, w, s, 3, p);
      RoomFrom(c, c2, PullFor(c2, env, w, s, 3, Cold, true), p);
    } else {
      TailLeft(c, env, w, s, 0, Cold, p);
      var c1 := PullFor(c, env, w, s, 0, Cold, false);
      TailEvicted(c1, env, w, s, 1, p);
      RoomFrom(c, c1, PullFor(c1, env, w, s, 1, Cold, true), p);
    }
  }

  lemma RoomFrom(c: Cache, c1: Cache, c2: Cache, p: Ptr)
    requires p in c.mem && p in c1.mem && c1.mem[p] == c.mem[p] && MadeRoom(c1, c2, p)
    ensures MadeRoom(c, c2, p)
  {
  }

  lemma RoomKept(c: Cache, c1: Cache, env: Env, w: Want, s: Supply, i: nat, p: Ptr)
    requires p in c.mem && Coherent(c1) && Timely(c1, env) && MadeRoom(c, c1, p)
    ensures MadeRoom(c, Before(c1, env, w, s, i), p)
  {
    hide Coherent, Timely, PullFor, Spare;
    if !env.maintainer {
      PullSound(c1, env, w, s, 4 * i, Cold, false);
      SpareStays(c1, env, w, s, 4 * i, Cold, false, p);
    }
  }

  // With evict_to_free, an attempt that is refused evicts the live item at the tail of COLD, and if slabs_alloc then
  // hands out its chunk, the new item is put there; the evicted key is gone.
  lemma AllocMakesRoom(c: Cache, env: Env, w: Want, s: Supply, key: Key, content: Content, p: Ptr)
    requires Coherent(c) && Timely(c, env) && env.evictToFree && w.clsid != 0
    requires Reachable(c, w, s, if env.maintainer then 3 else 1, p) && !Over(c, env, p)
    requires !s.chunk(0).Chunk? && s.chunk(1) == p
    ensures var (c1, q) := ItemAlloc(c, env, w, s, key, content);
      q == p && p in c1.mem && Filled(c1.mem[p], env, w, key, content) && c.mem[p].key !in c1.table
  {
    hide Coherent, Timely, AllocTry, Before, After, Reachable, Over;
    TryIs(c, env, w, s, 0);
    var c1 := After(Before(c, env, w, s, 0), env, w, s, 0);
    assert p in c.mem by { ReachableIn(c, w, s, if env.maintainer then 3 else 1, p); }
    RoomAfterRefusal(c, env, w, s, p);
    TryIs(c1, env, w, s, 1);
    RoomKept(c, c1, env, w, s, 1, p);
  }

  lemma ReachableIn(c: Cache, w: Want, s: Supply, i: nat, p: Ptr)
    requires Reachable(c, w, s, i, p)
    ensures p in c.mem
  {
    hide AtTail;
  }

  // Before anything is evicted dead items are reclaimed: without the maintainer a dead item at the tail of COLD is
  // freed before slabs_alloc is asked for the first time.
  lemma AllocReclaimsFirst(c: Cache, env: Env, w: Want, s: Supply, key: Key, content: Content, p: Ptr)
    requires Coherent(c) && Timely(c, env) && !env.maintainer && w.clsid != 0
    requires Reachable(c, w, s, 0, p) && Over(c, env, p) && s.chunk(0) == p
    ensures var (c1, q) := ItemAlloc(c, env, w, s, key, content);
      q == p && p in c1.mem && Filled(c1.mem[p], env, w, key, content) && c.mem[p].key !in c1.table
  {
    hide Coherent, Timely, AllocTry, PullTail, Limit, Over, AtTail;
    TryIs(c, env, w, s, 0);
    var call := Call(Queue(w.clsid, Cold), Limit(env, 0), false, w.hv);
    TailReclaimed(c, env, Oracle(w.h, s.locks(0)), call, p);
    TailFacts(c, call.q, p);
    SpareIs(c, PullTail(c, env, Oracle(w.h, s.locks(0)), call).c, p);
  }

  // ---- HOT and WARM are drained on the way ----

  function PullCall(env: Env, w: Want, s: Supply, i: nat, seg: Segment, evict: bool): Call {
    Call(Queue(w.clsid, seg), Limit(env, if env.maintainer then s.total(i) else 0), evict, w.hv)
  }

  // The live item at the tail of a queue that has more items than its share of total_chunks, and that the pull gets at.
  ghost predicate Overfull(c: Cache, env: Env, w: Want, s: Supply, i: nat, seg: Segment, p: Ptr) {
    && AtTail(c, Queue(w.clsid, seg), p) && p in c.mem && !Over(c, env, p) && w.h(c.mem[p].key) != w.hv
    && s.locks(i)(5, p) && |QueueIn(c.lru, Queue(w.clsid, seg))| > s.total(i) * env.warmPct / 100
  }

  lemma QueueLeft(c: Cache, env: Env, w: Want, s: Supply, i: nat, seg: Segment, evict: bool, q: Queue)
    requires Coherent(c) && Timely(c, env) && Apart(PullCall(env, w, s, i, seg, evict), q)
    ensures QueueStays(c, PullFor(c, env, w, s, i, seg, evict), q)
  {
    hide Coherent, Timely, PullTail, Limit, QueueStays, Apart;
    PullLeavesQueue(c, env, Oracle(w.h, s.locks(i)), PullCall(env, w, s, i, seg, evict), q);
  }

  lemma TailDrained(c: Cache, env: Env, w: Want, s: Supply, i: nat, seg: Segment, p: Ptr)
    requires Coherent(c) && Timely(c, env) && env.maintainer && w.clsid != 0 && seg != Cold
    requires Overfull(c, env, w, s, i, seg, p)
    ensures p !in QueueIn(PullFor(c, env, w, s, i, seg, false).lru, Queue(w.clsid, seg))
  {
    hide Coherent, Timely, PullTail, QueueIn, AtTail, Over, KeptAs, ToHead;
    TailMovesDown(c, env, Oracle(w.h, s.locks(i)), PullCall(env, w, s, i, seg, false), p);
  }

  lemma StillOverfull(c: Cache, c1: Cache, env: Env, w: Want, s: Supply, i: nat, seg: Segment, p: Ptr)
    requires Overfull(c, env, w, s, i, seg, p) && QueueStays(c, c1, Queue(w.clsid, seg))
    ensures Overfull(c1, env, w, s, i, seg, p)
  {
    hide QueueIn, Flushed;
  }

  lemma NotBack(c: Cache, c1: Cache, q: Queue, p: Ptr)
    requires QueueStays(c, c1, q) && p !in QueueIn(c.lru, q)
    ensures p !in QueueIn(c1.lru, q)
  {
    hide QueueIn;
  }

  // With the maintainer a refusal takes the tails of overfull HOT and WARM queues out of them before it looks at COLD.
  lemma RefusalDrains(c: Cache, env: Env, w: Want, s: Supply, p: Ptr)
    requires Coherent(c) && Timely(c, env) && env.maintainer && w.clsid != 0
    ensures var c1 := After(c, env, w, s, 0);
      && (Overfull(c, env, w, s, 1, Hot, p) ==> p !in QueueIn(c1.lru, Queue(w.clsid, Hot)))
      && (Overfull(c, env, w, s, 2, Warm, p) ==> p !in QueueIn(c1.lru, Queue(w.clsid, Warm)))
  {
    hide Coherent, Timely, PullFor, QueueIn, Overfull, QueueStays;
    var hot, warm := Queue(w.clsid, Hot), Queue(w.clsid, Warm);
    var c1 := PullFor(c, env, w, s, 1, Hot, false);
    PullSound(c, env, w, s, 1, Hot, false);
    var c2 := PullFor(c1, env, w, s, 2, Warm, false);
    PullSound(c1, env, w, s, 2, Warm, false);
    var c3 := PullFor(c2, env, w, s, 3, Cold, true);
    if Overfull(c, env, w, s, 1, Hot, p) {
      TailDrained(c, env, w, s, 1, Hot, p);
      QueueLeft(c1, env, w, s, 2, Warm, false, hot);
      NotBack(c1, c2, hot, p);
      QueueLeft(c2, env, w, s, 3, Cold, true, hot);
      NotBack(c2, c3, hot, p);
    }
    if Overfull(c, env, w, s, 2, Warm, p) {
      QueueLeft(c, env, w, s, 1, Hot, false, warm);
      StillOverfull(c, c1, env, w, s, 2, Warm, p);
      TailDrained(c1, env, w, s, 2, Warm, p);
      QueueLeft(c2, env, w, s, 3, Cold, true, warm);
      NotBack(c2, c3, warm, p);
    }
  }
}
