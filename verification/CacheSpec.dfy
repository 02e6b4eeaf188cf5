// The item operations of items.c on values: the hash table, the LRU queues and the items of the engine, with the
// access times and cas ids the engine leaves out.
module CacheSpec {
  import opened Memory
  import opened Linkage

  // it->time and the cas word in front of the key
  datatype Stamp = Stamp(time: nat, cas: nat)

  const NO_STAMP := Stamp(0, 0)

  // current_time, and the settings that items.c reads.
  datatype Env = Env(now: nat, oldestLive: nat, oldestCas: nat, useCas: bool, evictToFree: bool, maintainer: bool,
                     noEvictZero: bool, warmPct: nat)

  // currItems is stats.curr_items; casId the counter of get_cas_id.
  datatype Cache = Cache(mem: map<Ptr, Item>, stamps: map<Ptr, Stamp>, table: map<Key, Ptr>,
                         lru: map<Queue, seq<Ptr>>, casId: nat, currItems: int)

  function StampOf(stamps: map<Ptr, Stamp>, p: Ptr): Stamp { if p in stamps then stamps[p] else NO_STAMP }

  // ITEM_get_cas
  function CasOf(c: Cache, p: Ptr): nat { if p in c.mem && c.mem[p].flags.cas then StampOf(c.stamps, p).cas else 0 }

  function TimeOf(c: Cache, p: Ptr): nat { StampOf(c.stamps, p).time }

  // item_is_flushed
  predicate Flushed(env: Env, time: nat, cas: nat) {
    && env.oldestLive != 0 && env.oldestLive <= env.now
    && (time <= env.oldestLive || (env.oldestCas != 0 && cas != 0 && cas < env.oldestCas))
  }

  predicate IsFlushed(c: Cache, env: Env, p: Ptr) { Flushed(env, TimeOf(c, p), CasOf(c, p)) }

  // The test of do_item_get, and the slightly later one of the tail puller, the crawler and the mover.
  predicate ExpiredNow(env: Env, exptime: nat) { exptime != 0 && exptime <= env.now }

  predicate ExpiredBefore(env: Env, exptime: nat) { exptime != 0 && exptime < env.now }

  predicate Dead(c: Cache, env: Env, p: Ptr) {
    p in c.mem && (ExpiredBefore(env, c.mem[p].content.exptime) || IsFlushed(c, env, p))
  }

  predicate Alive(c: Cache, env: Env, p: Ptr) {
    p in c.mem && !ExpiredNow(env, c.mem[p].content.exptime) && !IsFlushed(c, env, p)
  }

  // What do_item_get would answer for every key.
  ghost function Visible(c: Cache, env: Env): map<Key, Content> {
    map k | k in c.table && Alive(c, env, c.table[k]) :: c.mem[c.table[k]].content
  }

  // ---- operations ----

  function Edit(c: Cache, p: Ptr, it: Item): Cache { c.(mem := c.mem[p := it]) }

  // refcount_incr
  function Hold(c: Cache, p: Ptr): Cache
    requires p in c.mem
  {
    Edit(c, p, c.mem[p].(refcount := c.mem[p].refcount + 1))
  }

  // do_item_remove, with item_free when the last reference goes
  function Drop(c: Cache, p: Ptr): Cache
    requires p in c.mem && c.mem[p].refcount > 0
  {
    var it := c.mem[p];
    if it.refcount == 1 then Edit(c, p, it.(refcount := 0, flags := SLABBED, clsid := 0))
    else Edit(c, p, it.(refcount := it.refcount - 1))
  }

  // do_item_unlink and do_item_unlink_nolock, up to the call of do_item_remove
  function Detach(c: Cache, p: Ptr): Cache
    requires p in c.mem
  {
    var it := c.mem[p];
    Edit(c, p, it.(flags := it.flags.(linked := false)))
    .(table := c.table - {it.key}, lru := EraseQueue(c.lru, it.Home(), p), currItems := c.currItems - 1)
  }

  function Unlink(c: Cache, p: Ptr): Cache
    requires p in c.mem && (c.mem[p].flags.linked ==> c.mem[p].refcount > 0)
  {
    if c.mem[p].flags.linked then Drop(Detach(c, p), p) else c
  }

  // do_item_link
  function Link(c: Cache, env: Env, p: Ptr): Cache
    requires p in c.mem
  {
    var it := c.mem[p];
    var id := if env.useCas then c.casId + 1 else c.casId;
    Edit(c, p, it.(flags := it.flags.(linked := true), refcount := it.refcount + 1))
    .(stamps := c.stamps[p := Stamp(env.now,
        if !it.flags.cas then StampOf(c.stamps, p).cas else if env.useCas then id else 0)],
      table := c.table[it.key := p], lru := PushQueue(c.lru, it.Home(), p), casId := id, currItems := c.currItems + 1)
  }

  // item_unlink_q, a new segment or a new time, item_link_q
  function Requeue(c: Cache, p: Ptr, seg: Segment, time: nat): Cache
    requires p in c.mem
  {
    var it := c.mem[p];
    Edit(c, p, it.(seg := seg))
    .(stamps := c.stamps[p := StampOf(c.stamps, p).(time := time)],
      lru := PushQueue(EraseQueue(c.lru, it.Home(), p), it.(seg := seg).Home(), p))
  }

  const ITEM_UPDATE_INTERVAL: nat := 60

  // it->time < current_time - ITEM_UPDATE_INTERVAL, in unsigned arithmetic
  predicate Stale(env: Env, time: nat) { env.now < ITEM_UPDATE_INTERVAL || time < env.now - ITEM_UPDATE_INTERVAL }

  // do_item_update_nolock
  function UpdateNolock(c: Cache, env: Env, p: Ptr): Cache
    requires p in c.mem
  {
    if Stale(env, TimeOf(c, p)) && c.mem[p].flags.linked then Requeue(c, p, c.mem[p].seg, env.now) else c
  }

  // do_item_update: with the LRU maintainer running, items are not moved
  function Update(c: Cache, env: Env, p: Ptr): Cache
    requires p in c.mem
  {
    if Stale(env, TimeOf(c, p)) && c.mem[p].flags.linked then
      if env.maintainer then c.(stamps := c.stamps[p := StampOf(c.stamps, p).(time := env.now)])
      else Requeue(c, p, c.mem[p].seg, env.now)
    else c
  }

  // do_item_get
  function Get(c: Cache, env: Env, key: Key): (r: (Cache, Ptr))
    requires key in c.table ==> c.table[key] in c.mem && c.mem[c.table[key]].refcount > 0
  {
    if key !in c.table then (c, Null)
    else
      var p := c.table[key];
      var it := c.mem[p];
      if IsFlushed(c, env, p) || ExpiredNow(env, it.content.exptime) then
        (Drop(Unlink(Hold(c, p), p), p), Null)
      else (Edit(c, p, it.(refcount := it.refcount + 1, flags := it.flags.(fetched := true, active := true))), p)
  }

  // do_item_replace
  function Replace(c: Cache, env: Env, p: Ptr, q: Ptr): Cache
    requires p in c.mem && q in c.mem && (c.mem[p].flags.linked ==> c.mem[p].refcount > 0)
  {
    Link(Unlink(c, p), env, q)
  }

  // ---- the invariant ----

  ghost predicate RefsOk(mem: map<Ptr, Item>) {
    forall p :: LinkedIn(mem, p) ==> mem[p].refcount > 0
  }

  ghost predicate ChunksOnly(mem: map<Ptr, Item>) { forall p :: p in mem ==> p.Chunk? }

  ghost predicate StampsOk(mem: map<Ptr, Item>, stamps: map<Ptr, Stamp>, casId: nat) {
    && (forall p :: p in stamps ==> stamps[p].cas <= casId)
    && forall p :: LinkedIn(mem, p) ==> p in stamps
  }

  ghost predicate Coherent(c: Cache) {
    && TableOk(c.mem, c.table) && LinkedOk(c.mem) && QueuesOnce(c.lru) && QueuedOk(c.mem, c.lru) && RefsOk(c.mem)
    && ChunksOnly(c.mem) && StampsOk(c.mem, c.stamps, c.casId) && c.currItems == |c.table|
  }

  // References to an item other than the one for its link.
  function Others(mem: map<Ptr, Item>, p: Ptr): int {
    if p in mem then mem[p].refcount - (if mem[p].flags.linked then 1 else 0) else 0
  }

  // An item whose link, queue and key stay as they are.
  predicate SameLinks(o: Item, n: Item) {
    n.flags.linked == o.flags.linked && n.flags.slabbed == o.flags.slabbed && n.Home() == o.Home() && n.key == o.key
  }

  lemma EditCoherent(c: Cache, p: Ptr, n: Item)
    requires Coherent(c) && p in c.mem && SameLinks(c.mem[p], n) && (n.flags.linked ==> n.refcount > 0)
    ensures Coherent(Edit(c, p, n))
  {
    hide TableOk, QueuedOk, QueuesOnce;
    KeptTable(c.mem, c.table, p, n);
    KeptQueue(c.mem, c.lru, p, n);
  }

  lemma HoldCoherent(c: Cache, p: Ptr)
    requires Coherent(c) && p in c.mem
    ensures Coherent(Hold(c, p)) && Others(Hold(c, p).mem, p) == Others(c.mem, p) + 1
  {
    hide Coherent;
    EditCoherent(c, p, c.mem[p].(refcount := c.mem[p].refcount + 1));
  }

  // A reference other than the link's can always be given back.
  lemma DropCoherent(c: Cache, p: Ptr)
    requires Coherent(c) && p in c.mem && !c.mem[p].flags.slabbed && Others(c.mem, p) > 0
    ensures c.mem[p].refcount > 0 && Coherent(Drop(c, p)) && Others(Drop(c, p).mem, p) == Others(c.mem, p) - 1
  {
    hide TableOk, QueuedOk, QueuesOnce;
    if c.mem[p].refcount == 1 {
      var n := c.mem[p].(refcount := 0, flags := SLABBED, clsid := 0);
      KeptTable(c.mem, c.table, p, n);
      KeptQueue(c.mem, c.lru, p, n);
    } else {
      EditCoherent(c, p, c.mem[p].(refcount := c.mem[p].refcount - 1));
    }
  }

  lemma LinkedHere(c: Cache, p: Ptr)
    requires Coherent(c) && LinkedIn(c.mem, p)
    ensures !c.mem[p].flags.slabbed && c.mem[p].refcount > 0 && c.mem[p].clsid != 0
    ensures c.mem[p].key in c.table && c.table[c.mem[p].key] == p && p in QueueIn(c.lru, c.mem[p].Home())
  {
  }

  lemma TableHere(c: Cache, key: Key)
    requires Coherent(c) && key in c.table
    ensures LinkedIn(c.mem, c.table[key]) && c.mem[c.table[key]].key == key
  {
    hide QueuedOk, QueuesOnce;
  }

  lemma DetachCoherent(c: Cache, p: Ptr)
    requires Coherent(c) && LinkedIn(c.mem, p)
    ensures Coherent(Detach(c, p)) && Others(Detach(c, p).mem, p) == Others(c.mem, p) + 1
  {
    hide TableOk, QueuedOk, QueuesOnce, EraseQueue;
    var n := c.mem[p].(flags := c.mem[p].flags.(linked := false));
    UnlinkTable(c.mem, c.table, p, n);
    UnlinkLru(c.mem, c.lru, p, n);
    LinkedHere(c, p);
    assert (c.table - {n.key}).Keys == c.table.Keys - {n.key};
  }

  lemma UnlinkCoherent(c: Cache, p: Ptr)
    requires Coherent(c) && LinkedIn(c.mem, p)
    ensures c.mem[p].refcount > 0 && Coherent(Unlink(c, p)) && Others(Unlink(c, p).mem, p) == Others(c.mem, p)
  {
    LinkedHere(c, p);
    hide Coherent, EraseQueue;
    DetachCoherent(c, p);
    hide Drop;
    DropCoherent(Detach(c, p), p);
  }

  lemma LinkCoherent(c: Cache, env: Env, p: Ptr)
    requires Coherent(c) && FilledIn(c.mem, p) && !c.mem[p].flags.linked && c.mem[p].key !in c.table
    ensures Coherent(Link(c, env, p)) && Others(Link(c, env, p).mem, p) == Others(c.mem, p)
  {
    hide TableOk, QueuedOk, QueuesOnce, PushQueue;
    var n := c.mem[p].(flags := c.mem[p].flags.(linked := true), refcount := c.mem[p].refcount + 1);
    LinkTable(c.mem, c.table, p, n);
    LinkLru(c.mem, c.lru, p, n);
  }

  lemma RequeueCoherent(c: Cache, p: Ptr, seg: Segment, time: nat)
    requires Coherent(c) && LinkedIn(c.mem, p)
    ensures Coherent(Requeue(c, p, seg, time)) && Others(Requeue(c, p, seg, time).mem, p) == Others(c.mem, p)
  {
    hide TableOk, QueuedOk, QueuesOnce, PushQueue, EraseQueue;
    var n := c.mem[p].(seg := seg);
    var o := c.mem[p].(flags := c.mem[p].flags.(linked := false));
    KeptTable(c.mem, c.table, p, n);
    UnlinkLru(c.mem, c.lru, p, o);
    LinkLru(c.mem[p := o], EraseQueue(c.lru, c.mem[p].Home(), p), p, n);
    assert c.mem[p := o][p := n] == c.mem[p := n];
  }
}
