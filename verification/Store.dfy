// The cache under every kind of step that commands, LRU maintenance, the crawler, the page mover and flush_all take,
// at the granularity of the item locks. flush_all takes none of them, and an operation can look at item_is_flushed
// before, between or after its three accesses to what that function reads.
module Store {
  import opened Memory
  import opened Linkage
  import opened CacheSpec
  import opened LruPull
  import opened LruPullProofs

  // Why a thread that holds an item lock has looked at item_is_flushed: the mover, to rescue the item, do_add_delta,
  // to count in place, or a command that builds a new item from what this one holds: append, prepend, and incr and
  // decr when the number needs a new item.
  datatype Intent = Rescuing | Counting | Building

  // How far a thread inside flush_all has got: it has written oldest_live, or also taken a cas id.
  datatype Phase = Wrote | Took(id: nat)

  // busy are the items whose lock such a thread holds, flushes the threads inside flush_all. used and origin exist only
  // in the model: the time of an item's last use, and the cas id at which a command stored what it holds, or what that
  // was built from. An item with what a client has sent gets its origin when it is linked.
  datatype World = World(c: Cache, env: Env, busy: map<Ptr, Intent>, used: map<Ptr, nat>, origin: map<Ptr, nat>,
                         flushes: map<nat, Phase>)

  function ValueIn(m: map<Ptr, nat>, p: Ptr): nat { if p in m then m[p] else 0 }

  datatype Step =
    | STick(seconds: nat)
    | SFill(p: Ptr, it: Item)             // do_item_alloc, and the data that goes into the new item
    | SLink(p: Ptr)                       // do_item_link
    | SGet(key: Key)                      // do_item_get
    | SUse(p: Ptr)                        // do_item_update
    | SUnlink(p: Ptr)                     // do_item_unlink
    | SDrop(p: Ptr)                       // do_item_remove of a reference other than the link's
    | STouch(p: Ptr, exptime: nat)
    | SCopyCas(p: Ptr, q: Ptr)            // do_add_delta gives the replaced item the id of the new one
    | SPull(o: Oracle, call: Call)        // lru_pull_tail
    | SCrawl(p: Ptr)                      // item_crawler_evaluate
    | SCheck(p: Ptr)                      // the mover finds the item neither expired nor flushed; the lock is kept
    | SBegin(key: Key, intent: Intent)    // do_item_get of a live item that is counted or built upon; the lock is kept
    | SRewrite(p: Ptr, data: string)      // do_add_delta overwrites the value in place
    | SRescue(p: Ptr, q: Ptr)             // do_item_replace of p by its copy q
    | SReplace(p: Ptr, q: Ptr)            // do_item_replace of p by q, which was built from what p holds
    | SAbandon(p: Ptr)                    // the lock is given back
    | SFlushLive(th: nat, newOldest: nat) // flush_all writes oldest_live, from current_time or realtime(exptime)
    | SFlushId(th: nat)                   // it finds oldest_live not in the future, and takes a cas id
    | SFlushCas(th: nat)                  // it writes oldest_cas
    | SFlushLater(th: nat)                // it finds oldest_live in the future, and is through

  predicate Takes(w: World, p: Ptr) { LinkedIn(w.c.mem, p) && p !in w.busy }

  // Filled in, and not linked since.
  predicate Unlinked(w: World, p: Ptr) { FilledIn(w.c.mem, p) && !w.c.mem[p].flags.linked && p !in w.origin }

  predicate Succeeds(w: World, p: Ptr, q: Ptr) {
    p in w.busy && Usable(w.c, p) && q != p && Unlinked(w, q) && w.c.mem[q].key == w.c.mem[p].key
  }

  ghost predicate Enabled(w: World, a: Step) {
    var c := w.c;
    match a
    case STick(_) => true
    case SFill(p, it) =>
      && p.Chunk? && !LinkedIn(c.mem, p) && !it.flags.linked && !it.flags.slabbed && it.clsid != 0 && it.refcount == 1
      && it.flags.cas == w.env.useCas && (!w.env.maintainer ==> it.seg == Cold)
    case SLink(p) => Unlinked(w, p) && c.mem[p].key !in c.table
    case SGet(key) => key in c.table ==> c.table[key] !in w.busy && Usable(c, c.table[key])
    case SUse(p) => Takes(w, p)
    case SUnlink(p) => Takes(w, p) && c.mem[p].refcount > 0
    case SDrop(p) => p in c.mem && !c.mem[p].flags.slabbed && p !in w.busy && Others(c.mem, p) > 0
        && c.mem[p].refcount > 0
    case STouch(p, _) => Takes(w, p) && Alive(c, w.env, p)
    case SCopyCas(p, q) => FilledIn(c.mem, p) && !c.mem[p].flags.linked && q != p && LinkedIn(c.mem, q)
    case SPull(o, call) =>
      && (forall p :: p in w.busy ==> OffLimits(c, o, call, p))
      && (!w.env.maintainer ==> call.q.seg == Cold)
    case SCrawl(p) => Takes(w, p) && c.mem[p].refcount == 1
    case SCheck(p) => Takes(w, p) && !Dead(c, w.env, p) && c.mem[p].refcount == 1
    case SBegin(key, intent) =>
      && intent != Rescuing && key in c.table && Takes(w, c.table[key]) && Usable(c, c.table[key])
      && Alive(c, w.env, c.table[key]) && (intent == Counting ==> c.mem[c.table[key]].refcount == 1)
    case SRewrite(p, _) => p in w.busy && w.busy[p] == Counting && p in c.mem
    case SRescue(p, q) =>
      Succeeds(w, p, q) && w.busy[p] == Rescuing && c.mem[q].content == c.mem[p].content
    case SReplace(p, q) =>
      Succeeds(w, p, q) && w.busy[p] == Building && c.mem[q].content.exptime == c.mem[p].content.exptime
    case SAbandon(p) => p in w.busy
    case SFlushLive(th, newOldest) => th !in w.flushes && newOldest > 0
    case SFlushId(th) => th in w.flushes && w.flushes[th].Wrote? && w.env.oldestLive <= w.env.now
    case SFlushCas(th) => th in w.flushes && w.flushes[th].Took?
    case SFlushLater(th) => th in w.flushes && w.flushes[th].Wrote? && w.env.oldestLive > w.env.now
  }

  // get_cas_id() when use_cas
  function NextId(env: Env, c: Cache): nat { if env.useCas then c.casId + 1 else c.casId }

  // ITEM_set_cas with a new id, and the new digits
  function Overwrite(c: Cache, env: Env, p: Ptr, data: string): Cache
    requires p in c.mem
  {
    var it := c.mem[p];
    var cas := if !it.flags.cas then StampOf(c.stamps, p).cas else if env.useCas then NextId(env, c) else 0;
    Edit(c, p, it.(content := it.content.(data := data)))
    .(stamps := c.stamps[p := StampOf(c.stamps, p).(cas := cas)], casId := NextId(env, c))
  }

  // The in-place branch of do_add_delta ends with do_item_update.
  function Rewrite(c: Cache, env: Env, p: Ptr, data: string): Cache
    requires p in c.mem
  {
    Update(Overwrite(c, env, p, data), env, p)
  }

  // ITEM_set_cas on the item that has just been replaced, so that its id can be returned.
  function CopyCas(c: Cache, p: Ptr, q: Ptr): Cache {
    if p in c.mem && c.mem[p].flags.cas then
      c.(stamps := c.stamps[p := StampOf(c.stamps, p).(cas := CasOf(c, q))]) else c
  }

  // What the crawler does with an item whose lock it got and that nobody else refers to.
  function Crawl(c: Cache, env: Env, p: Ptr): Cache
    requires Usable(c, p)
  {
    if Dead(c, env, p) then Gone(c, p) else c
  }

  // Without use_cas this is all there is to flush_all.
  function FlushLive(w: World, th: nat, newOldest: nat): World
    requires newOldest > 0
  {
    if w.env.useCas then w.(env := w.env.(oldestLive := newOldest - 1), flushes := w.flushes[th := Wrote])
    else w.(env := w.env.(oldestLive := newOldest))
  }

  function Succeed(w: World, p: Ptr, q: Ptr): World
    requires Succeeds(w, p, q)
  {
    w.(c := Replace(w.c, w.env, p, q), busy := w.busy - {p}, used := w.used[q := w.env.now],
       origin := w.origin[q := ValueIn(w.origin, p)])
  }

  ghost function Apply(w: World, a: Step): World
    requires Enabled(w, a) && w.env.now > 0
  {
    var c, env := w.c, w.env;
    match a
    case STick(seconds) => w.(env := env.(now := env.now + seconds))
    case SFill(p, it) => w.(c := Edit(c, p, it), origin := w.origin - {p})
    case SLink(p) => w.(c := Link(c, env, p), used := w.used[p := env.now], origin := w.origin[p := NextId(env, c)])
    case SGet(key) => w.(c := Get(c, env, key).0)
    case SUse(p) => w.(c := Update(c, env, p), used := w.used[p := env.now])
    case SUnlink(p) => w.(c := Unlink(c, p))
    case SDrop(p) => w.(c := Drop(c, p))
    case STouch(p, exptime) => w.(c := Edit(c, p, c.mem[p].(content := c.mem[p].content.(exptime := exptime))))
    case SCopyCas(p, q) => w.(c := CopyCas(c, p, q))
    case SPull(o, call) => w.(c := PullTail(c, env, o, call).c)
    case SCrawl(p) => w.(c := Crawl(c, env, p))
    case SCheck(p) => w.(busy := w.busy[p := Rescuing])
    case SBegin(key, intent) => w.(c := Get(c, env, key).0, busy := w.busy[c.table[key] := intent])
    case SRewrite(p, data) => w.(c := Rewrite(c, env, p, data), busy := w.busy - {p}, used := w.used[p := env.now])
    case SRescue(p, q) => Succeed(w, p, q)
    case SReplace(p, q) => Succeed(w, p, q)
    case SAbandon(p) => w.(busy := w.busy - {p})
    case SFlushLive(th, newOldest) => FlushLive(w, th, newOldest)
    case SFlushId(th) => w.(c := c.(casId := c.casId + 1), flushes := w.flushes[th := Took(c.casId + 1)])
    case SFlushCas(th) => w.(env := env.(oldestCas := w.flushes[th].id), flushes := w.flushes - {th})
    case SFlushLater(th) => w.(flushes := w.flushes - {th})
  }

  // current_time starts at 2: the process is taken to have started two seconds ago.
  ghost predicate Initial(w: World) {
    && w.c == Cache(map[], map[], map[], map[], 0, 0) && w.busy == map[] && w.used == map[] && w.origin == map[]
    && w.flushes == map[] && w.env.now >= 2 && w.env.oldestLive == 0 && w.env.oldestCas == 0
  }

  ghost predicate IsRun(run: seq<World>, steps: seq<Step>) {
    && |run| == |steps| + 1 && Initial(run[0])
    && forall i :: 0 <= i < |steps| ==>
         Enabled(run[i], steps[i]) && run[i].env.now > 0 && run[i + 1] == Apply(run[i], steps[i])
  }

  // ---- the invariant ----

  ghost predicate CasOk(c: Cache, env: Env) {
    && (forall p :: FilledIn(c.mem, p) ==> c.mem[p].flags.cas == env.useCas)
    && (env.useCas ==> forall p :: LinkedIn(c.mem, p) ==> StampOf(c.stamps, p).cas > 0)
  }

  ghost predicate BusyOk(c: Cache, busy: map<Ptr, Intent>) { forall p :: p in busy ==> LinkedIn(c.mem, p) }

  ghost predicate Inv(w: World) {
    && Coherent(w.c) && Timely(w.c, w.env) && CasOk(w.c, w.env) && BusyOk(w.c, w.busy) && w.env.now >= 2
  }

  // ---- what a step does to linked items ----

  // An item that was linked and still is, with its key, cas id and value.
  ghost predicate Kept(c: Cache, c1: Cache, p: Ptr) {
    && LinkedIn(c.mem, p) && LinkedIn(c1.mem, p) && c1.mem[p].key == c.mem[p].key && CasOf(c1, p) == CasOf(c, p)
    && c1.mem[p].flags.cas == c.mem[p].flags.cas && TimeOf(c1, p) >= TimeOf(c, p)
    && c1.mem[p].content.data == c.mem[p].content.data && c1.mem[p].content.clientFlags == c.mem[p].content.clientFlags
  }

  // The item a step gives a new cas id.
  function Stamped(a: Step): Ptr {
    match a
    case SLink(p) => p
    case SRewrite(p, _) => p
    case SRescue(_, q) => q
    case SReplace(_, q) => q
    case _ => Null
  }

  // A linked item is one that was kept, or the one stamped, with an id never used before.
  ghost predicate Traced(c: Cache, c1: Cache, s: Ptr, p: Ptr) {
    LinkedIn(c1.mem, p) ==> Kept(c, c1, p) || (p == s && CasOf(c1, p) > c.casId && c1.mem[p].flags.cas)
  }
}
