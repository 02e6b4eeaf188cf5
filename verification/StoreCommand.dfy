// do_store_item on values: set, add, replace, append, prepend and cas.
module StoreCommand {
  import opened Memory
  import opened Linkage
  import opened CacheSpec
  import opened LruPull
  import opened Decimal

  datatype Command = Set | Add | Replace | Append | Prepend | Cas

  datatype Result = Stored | NotStored | Exists | NotFound

  // What do_item_alloc meets: slabs_alloc's answers, its total_chunks, and the locks the tail puller gets.
  datatype Supply = Supply(chunk: nat -> Ptr, total: nat -> nat, locks: nat -> ((nat, Ptr) -> bool))

  // A request: the item's header size and class, hash() and the hash of the key.
  datatype Want = Want(size: nat, clsid: nat, h: Key -> nat, hv: nat)

  // ---- do_item_alloc ----

  function PullFor(c: Cache, env: Env, w: Want, s: Supply, i: nat, seg: Segment, evict: bool): Cache {
    var total := if env.maintainer then s.total(i) else 0;
    PullTail(c, env, Oracle(w.h, s.locks(i)), Call(Queue(w.clsid, seg), Limit(env, total), evict, w.hv)).c
  }

  // A chunk slabs_alloc may hand out.
  predicate Spare(c: Cache, p: Ptr) { p.Chunk? && (p in c.mem ==> c.mem[p].flags.slabbed && !c.mem[p].flags.linked) }

  const ALLOC_TRIES: nat := 5

  function AllocTry(c: Cache, env: Env, w: Want, s: Supply, i: nat): (Cache, Ptr)
    decreases ALLOC_TRIES - i
  {
    if i >= ALLOC_TRIES then (c, Null)
    else
      var c1 := if env.maintainer then c else PullFor(c, env, w, s, 4 * i, Cold, false);
      if Spare(c1, s.chunk(i)) then (c1, s.chunk(i))
      else if env.maintainer then
        var c2 := PullFor(c1, env, w, s, 4 * i + 1, Hot, false);
        var c3 := PullFor(c2, env, w, s, 4 * i + 2, Warm, false);
        AllocTry(PullFor(c3, env, w, s, 4 * i + 3, Cold, true), env, w, s, i + 1)
      else AllocTry(PullFor(c1, env, w, s, 4 * i + 1, Cold, true), env, w, s, i + 1)
  }

  function NewSegment(env: Env, exptime: nat): Segment {
    if !env.maintainer then Cold else if exptime == 0 && env.noEvictZero then NoExp else Hot
  }

  function Fresh(env: Env, w: Want, key: Key, content: Content): Item {
    Item(NO_FLAGS.(cas := env.useCas), 1, w.clsid, NewSegment(env, content.exptime), w.size, key, content)
  }

  // An item too large for every class gets class 0.
  function ItemAlloc(c: Cache, env: Env, w: Want, s: Supply, key: Key, content: Content): (Cache, Ptr) {
    if w.clsid == 0 then (c, Null)
    else
      var (c1, p) := AllocTry(c, env, w, s, 0);
      if p == Null then (c1, Null) else (Edit(c1, p, Fresh(env, w, key, content)), p)
  }

  // ---- the command ----

  // do_item_remove of a reference we hold
  function Release(c: Cache, p: Ptr): Cache {
    if p in c.mem && c.mem[p].refcount > 0 then Drop(c, p) else c
  }

  function SwapIn(c: Cache, env: Env, p: Ptr, q: Ptr): Cache {
    if p in c.mem && q in c.mem && (c.mem[p].flags.linked ==> c.mem[p].refcount > 0) then
      CacheSpec.Replace(c, env, p, q) else c
  }

  // Data blocks end with a line end.
  function Body(data: string): string { if |data| >= 2 then data[..|data| - 2] else data }

  // Append and prepend keep the flags and the expiry time of the old item.
  function Joined(comm: Command, held: Content, sent: Content): Content {
    held.(data := if comm == Prepend then Body(sent.data) + held.data else Body(held.data) + sent.data)
  }

  function ContentOf(c: Cache, p: Ptr): Content { if p in c.mem then c.mem[p].content else Content("", 0, 0) }

  // The new cache, the answer, and the item that was linked. reqCas is ITEM_get_cas(it), what the client sent.
  function StoreItem(c: Cache, env: Env, it: Ptr, comm: Command, reqCas: nat, w: Want, s: Supply): (Cache, Result, Ptr)
    requires it in c.mem
    requires var key := c.mem[it].key; key in c.table ==> Usable(c, c.table[key])
  {
    var key := c.mem[it].key;
    var (c1, oldIt) := Get(c, env, key);
    if oldIt != Null && comm == Add then
      (Release(if oldIt in c1.mem then Update(c1, env, oldIt) else c1, oldIt), NotStored, Null)
    else if oldIt == Null && (comm == Replace || comm == Append || comm == Prepend) then (c1, NotStored, Null)
    else if comm == Cas then
      if oldIt == Null then (c1, NotFound, Null)
      else if reqCas == CasOf(c1, oldIt) then (Release(SwapIn(c1, env, oldIt, it), oldIt), Stored, it)
      else (Release(c1, oldIt), Exists, Null)
    else if comm == Append || comm == Prepend then
      if reqCas != 0 && reqCas != CasOf(c1, oldIt) then (Release(c1, oldIt), Exists, Null)
      else
        var (c2, newIt) := ItemAlloc(c1, env, w, s, key, Joined(comm, ContentOf(c1, oldIt), ContentOf(c1, it)));
        if newIt == Null then (Release(c2, oldIt), NotStored, Null)
        else (Release(Release(SwapIn(c2, env, oldIt, newIt), oldIt), newIt), Stored, newIt)
    else if oldIt != Null then (Release(SwapIn(c1, env, oldIt, it), oldIt), Stored, it)
    else if it in c1.mem then (Link(c1, env, it), Stored, it)
    else (c1, NotStored, Null)
  }

  // ---- what it is for ----

  // What do_item_get would answer.
  ghost function Answer(c: Cache, env: Env, key: Key): Option<Content> {
    if key in c.table && Alive(c, env, c.table[key]) then Some(c.mem[c.table[key]].content) else None
  }

  datatype Outcome = Outcome(result: Result, value: Option<Content>)

  // The command on one entry of a map with versions.
  function Meaning(held: Option<Content>, version: nat, comm: Command, sent: Content, reqCas: nat,
                     fits: bool): Outcome {
    match comm
    case Set => Outcome(Stored, Some(sent))
    case Add => if held.Some? then Outcome(NotStored, held) else Outcome(Stored, Some(sent))
    case Replace => if held.None? then Outcome(NotStored, held) else Outcome(Stored, Some(sent))
    case Cas =>
      if held.None? then Outcome(NotFound, held)
      else if version == reqCas then Outcome(Stored, Some(sent))
      else Outcome(Exists, held)
    case _ =>
      if held.None? then Outcome(NotStored, held)
      else if reqCas != 0 && reqCas != version then Outcome(Exists, held)
      else if !fits then Outcome(NotStored, held)
      else Outcome(Stored, Some(Joined(comm, held.value, sent)))
  }
}
