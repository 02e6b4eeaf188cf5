// The storage engine as a state machine: worker threads and one page mover, interleaved at the sections that
// slabs_lock and the item locks protect.
module Engine {
  import opened Memory
  import opened Linkage
  import opened SlabSpec

  // Where the mover stands between two lock-protected sections of slab_rebalance_move.
  datatype Mover =
    | Rest                                   // between chunks; slabs_lock is free
    | SawLinked(it: Ptr, key: Key)           // holds slabs_lock, has read ITEM_LINKED and the key
    | Pinned(it: Ptr, key: Key)              // holds slabs_lock and the item lock; refcount was 2 and still linked
    | Leaving(it: Ptr, key: Key, copy: Ptr)  // holds the item lock only; copy is the rescue chunk or Null
    | Left(it: Ptr, key: Key)                // unlinked, still holds the item lock
    | Unlocked(it: Ptr)                      // unlinked, holds no lock, has not wiped the chunk yet

  // slab_rebal and slab_rebalance_signal. slab_start is a page, slab_pos a chunk number in it. index and remove
  // are the additions of the page-removal variant; the plain mover has index == 0.
  datatype Rebal = Rebal(signal: nat, src: nat, dst: nat, remove: bool, index: nat,
                         start: nat, pos: nat, busy: nat, done: nat)

  // held counts the references worker threads own; it exists only in the model.
  datatype State = State(sl: Slabs, table: map<Key, Ptr>, lru: map<Queue, seq<Ptr>>, held: map<Ptr, nat>,
                         rb: Rebal, mover: Mover)

  const IDLE := Rebal(0, 0, 0, false, 0, 0, 0, 0, 0)

  function HeldIn(held: map<Ptr, nat>, p: Ptr): nat { if p in held then held[p] else 0 }

  function Held(s: State, p: Ptr): nat { HeldIn(s.held, p) }

  predicate Linked(s: State, p: Ptr) { LinkedIn(s.sl.mem, p) }

  // The mover keeps slabs_lock across these points.
  predicate SlabsLockFree(s: State) { !s.mover.SawLinked? && !s.mover.Pinned? }

  // The mover owns the lock of the stripe its key hashes to.
  predicate ItemLockFree(s: State, k: Key) {
    !((s.mover.Pinned? || s.mover.Leaving? || s.mover.Left?) && s.mover.key == k)
  }

  predicate Moving(s: State) { s.rb.signal == 2 }

  // The chunk is off the freelists and do_item_alloc has set its class.
  predicate Filled(s: State, p: Ptr) {
    p in s.sl.mem && !s.sl.mem[p].flags.slabbed && s.sl.mem[p].clsid != 0
  }

  function SetItem(s: State, p: Ptr, it: Item): State { s.(sl := s.sl.(mem := s.sl.mem[p := it])) }

  function OwnerIn(owner: map<nat, nat>, p: Ptr): nat {
    if p.Chunk? && p.page in owner then owner[p.page] else 0
  }

  // ---- what worker threads do ----

  // slabs_alloc
  function DoAlloc(s: State, size: nat, c: nat, raw: nat): State
    requires FreeLive(s.sl.free, s.sl.mem)
  {
    var (sl1, p) := Alloc(s.sl, size, c, true, raw);
    if p == Null then s.(sl := sl1) else s.(sl := sl1, held := s.held[p := 1])
  }

  // do_item_alloc fills in the header and key of a chunk it was just given.
  function DoFill(s: State, p: Ptr, key: Key, seg: Segment, content: Content, useCas: bool): State
    requires p in s.sl.mem
  {
    SetItem(s, p, s.sl.mem[p].(clsid := OwnerIn(s.sl.owner, p), seg := seg, key := key, content := content,
                               flags := NO_FLAGS.(cas := useCas)))
  }

  // do_item_link
  function DoLink(s: State, p: Ptr): State
    requires p in s.sl.mem
  {
    var it := s.sl.mem[p];
    SetItem(s, p, it.(flags := it.flags.(linked := true), refcount := it.refcount + 1))
    .(table := s.table[it.key := p], lru := PushQueue(s.lru, it.Home(), p))
  }

  // do_item_unlink up to its call of do_item_remove: the link's reference is now the caller's.
  function DoUnlink(s: State, p: Ptr): State
    requires p in s.sl.mem
  {
    var it := s.sl.mem[p];
    SetItem(s, p, it.(flags := it.flags.(linked := false)))
    .(table := s.table - {it.key}, lru := EraseQueue(s.lru, it.Home(), p),
      held := s.held[p := Held(s, p) + 1])
  }

  // refcount_incr: do_item_get of a live item also sets ITEM_FETCHED and ITEM_ACTIVE, the tail puller and the crawler
  // take their references without.
  function DoGet(s: State, p: Ptr, fetch: bool): State
    requires p in s.sl.mem
  {
    var it := s.sl.mem[p];
    var flags := if fetch then it.flags.(fetched := true, active := true) else it.flags;
    SetItem(s, p, it.(flags := flags, refcount := it.refcount + 1))
    .(held := s.held[p := Held(s, p) + 1])
  }

  // do_item_remove; a chunk left with refcount 0 waits for its Free step.
  function DoRelease(s: State, p: Ptr): State
    requires p in s.sl.mem && s.sl.mem[p].refcount > 0 && Held(s, p) > 0
  {
    SetItem(s, p, s.sl.mem[p].(refcount := s.sl.mem[p].refcount - 1)).(held := s.held[p := Held(s, p) - 1])
  }

  // item_free
  function DoFree(s: State, p: Ptr): State
    requires p in s.sl.mem && ValidClass(s.sl, s.sl.mem[p].clsid)
  {
    s.(sl := FreeChunk(s.sl, p, s.sl.mem[p].ntotal, s.sl.mem[p].clsid))
  }

  // An item changes segment, or moves to the head of its own queue; its ACTIVE bit may be dropped.
  function DoRequeue(s: State, p: Ptr, seg: Segment, active: bool): State
    requires p in s.sl.mem
  {
    var it := s.sl.mem[p];
    var it1 := it.(seg := seg, flags := it.flags.(active := active));
    SetItem(s, p, it1).(lru := PushQueue(EraseQueue(s.lru, it.Home(), p), it1.Home(), p))
  }

  // The value of a linked item is overwritten in place, as incr and decr do, or its expiry is touched.
  function DoWrite(s: State, p: Ptr, content: Content): State
    requires p in s.sl.mem
  {
    SetItem(s, p, s.sl.mem[p].(content := content))
  }

  // ---- what the page mover does ----

  // do_slabs_reassign, or slabs_deallocate choosing a page to remove
  function DoRequest(s: State, src: nat, dst: nat, remove: bool): State {
    s.(rb := s.rb.(signal := 1, src := src, dst := dst, remove := remove))
  }

  // slab_rebalance_start
  function DoStart(s: State, index: nat): State
    requires HasClass(s.sl, s.rb.src) && index < |s.sl.pages[s.rb.src]|
  {
    s.(rb := s.rb.(signal := 2, index := index, start := s.sl.pages[s.rb.src][index], pos := 0, done := 0))
  }

  // The end of one loop iteration of slab_rebalance_move, with the end-of-pass test behind the loop.
  function Advance(rb: Rebal, perslab: nat, wasBusy: nat): Rebal {
    var busy := rb.busy + wasBusy;
    if rb.pos + 1 < perslab then rb.(pos := rb.pos + 1, busy := busy)
    else if busy > 0 then rb.(pos := 0, busy := 0)
    else rb.(pos := rb.pos + 1, busy := busy, done := rb.done + 1)
  }

  function Cursor(s: State): Ptr { Chunk(s.rb.start, s.rb.pos) }

  function Perslab(s: State): nat { if s.rb.src < |s.sl.perslab| then s.sl.perslab[s.rb.src] else 0 }

  // The first look at a chunk, under slabs_lock.
  function DoLook(s: State): State
    requires ValidClass(s.sl, s.rb.src) && Cursor(s) in s.sl.mem
  {
    var it := s.sl.mem[Cursor(s)];
    if it.flags == CLEARED then s.(rb := Advance(s.rb, Perslab(s), 0))
    else if it.flags.slabbed then
      s.(sl := Wipe(TakeFree(s.sl, Cursor(s), s.rb.src), Cursor(s)), rb := Advance(s.rb, Perslab(s), 0))
    else if it.flags.linked then s.(mover := SawLinked(Cursor(s), it.key))
    else s.(rb := Advance(s.rb, Perslab(s), 1))
  }

  // item_trylock, refcount_incr and the second look at ITEM_LINKED. On failure the reference is dropped again.
  function DoTryLock(s: State, granted: bool): State
    requires s.mover.SawLinked? && s.mover.it in s.sl.mem
  {
    var it := s.sl.mem[s.mover.it];
    if granted && it.refcount + 1 == 2 && it.flags.linked then
      SetItem(s, s.mover.it, it.(refcount := 2)).(mover := Pinned(s.mover.it, s.mover.key))
    else s.(rb := Advance(s.rb, Perslab(s), 1), mover := Rest)
  }

  // Rescue or not: dead says the item has expired or was flushed. Ends by releasing slabs_lock.
  function DoDecide(s: State, dead: bool): State
    requires s.mover.Pinned? && s.mover.it in s.sl.mem && FreeLive(s.sl.free, s.sl.mem)
  {
    if dead || s.rb.remove then s.(mover := Leaving(s.mover.it, s.mover.key, Null))
    else
      var (sl1, copy) := RescueAlloc(s.sl, s.sl.mem[s.mover.it].ntotal, s.rb.src, s.rb.start, Perslab(s));
      s.(sl := sl1, mover := Leaving(s.mover.it, s.mover.key, copy))
  }

  // do_item_unlink by the mover, which keeps its own reference.
  function MoverUnlink(s: State, p: Ptr): State
    requires p in s.sl.mem && s.sl.mem[p].refcount > 0
  {
    var it := s.sl.mem[p];
    SetItem(s, p, it.(flags := it.flags.(linked := false), refcount := it.refcount - 1))
    .(table := s.table - {it.key}, lru := EraseQueue(s.lru, it.Home(), p))
  }

  // memcpy of the item into the rescue chunk
  function CopyItem(s: State, p: Ptr, copy: Ptr): State
    requires p in s.sl.mem
  {
    var it := s.sl.mem[p];
    SetItem(s, copy, it.(flags := it.flags.(linked := false), refcount := 0))
  }

  // do_item_replace or do_item_unlink, under the item lock
  function DoLeave(s: State): State
    requires s.mover.Leaving? && s.mover.it in s.sl.mem && s.sl.mem[s.mover.it].refcount > 0
    requires s.mover.copy != s.mover.it
  {
    var p := s.mover.it;
    var copy := s.mover.copy;
    if copy == Null then MoverUnlink(s, p).(mover := Left(p, s.mover.key))
    else DoLink(MoverUnlink(CopyItem(s, p, copy), p), copy).(mover := Left(p, s.mover.key))
  }

  // item_trylock_unlock
  function DoUnlock(s: State): State
    requires s.mover.Left?
  {
    s.(mover := Unlocked(s.mover.it))
  }

  // slabs_lock again: requested is reduced and the chunk is marked as wiped.
  function DoWipe(s: State): State
    requires s.mover.Unlocked? && s.mover.it in s.sl.mem && HasClass(s.sl, s.rb.src)
  {
    s.(sl := Wipe(Uncharge(s.sl, s.rb.src, s.sl.mem[s.mover.it].ntotal), s.mover.it),
       rb := Advance(s.rb, Perslab(s), 0), mover := Rest)
  }

  // slab_rebalance_finish or slab_remove_finish
  function DoFinish(s: State): State
    requires ValidClass(s.sl, s.rb.src) && HasClass(s.sl, s.rb.dst) && s.rb.index < |s.sl.pages[s.rb.src]|
    requires s.sl.malloced >= PAGE_BYTES
  {
    s.(sl := if s.rb.remove then GiveBack(s.sl, s.rb.src, s.rb.index)
             else HandOver(s.sl, s.rb.src, s.rb.index, s.rb.dst),
       rb := IDLE)
  }

  // ---- steps and runs ----

  datatype Step =
    | SAlloc(size: nat, c: nat, raw: nat)
    | SFill(p: Ptr, key: Key, seg: Segment, content: Content, useCas: bool)
    | SLink(p: Ptr)
    | SUnlink(p: Ptr)
    | SGet(p: Ptr, fetch: bool)
    | SRelease(p: Ptr)
    | SFree(p: Ptr)
    | SRequeue(p: Ptr, seg: Segment, active: bool)
    | SWrite(p: Ptr, content: Content)
    | SRequest(src: nat, dst: nat, remove: bool)
    | SStart(index: nat)
    | SGiveUp                       // slab_rebalance_start refuses
    | SLook
    | STryLock(granted: bool)
    | SDecide(dead: bool)
    | SLeave
    | SUnlock
    | SWipe
    | SFinish

  // What the code and its locks let a thread do next.
  predicate Guard(s: State, a: Step) {
    match a
    case SAlloc(size, c, raw) => SlabsLockFree(s) && raw !in s.sl.owner
    case SFill(p, key, seg, content, useCas) => p in s.sl.mem && Held(s, p) == 1 && s.sl.mem[p].clsid == 0
    case SLink(p) =>
      Filled(s, p) && Held(s, p) > 0 && !s.sl.mem[p].flags.linked && s.sl.mem[p].key !in s.table
      && ItemLockFree(s, s.sl.mem[p].key)
    case SUnlink(p) => Linked(s, p) && ItemLockFree(s, s.sl.mem[p].key)
    case SGet(p, fetch) => Linked(s, p) && ItemLockFree(s, s.sl.mem[p].key)
    case SRelease(p) => Filled(s, p) && Held(s, p) > 0 && ItemLockFree(s, s.sl.mem[p].key)
    case SFree(p) => SlabsLockFree(s) && Filled(s, p) && s.sl.mem[p].refcount == 0
    case SRequeue(p, seg, active) => Linked(s, p) && ItemLockFree(s, s.sl.mem[p].key)
    case SWrite(p, content) => Linked(s, p) && ItemLockFree(s, s.sl.mem[p].key)
    case SRequest(src, dst, remove) =>
      s.rb.signal == 0 && ValidClass(s.sl, src) && HasClass(s.sl, dst) && (remove || src != dst)
    case SStart(index) =>
      s.rb.signal == 1 && HasClass(s.sl, s.rb.src) && |s.sl.pages[s.rb.src]| >= 2
      && index < |s.sl.pages[s.rb.src]| && (s.rb.remove || index == 0)
    case SGiveUp => s.rb.signal == 1
    case SLook => Moving(s) && s.rb.done == 0 && s.mover.Rest?
    case STryLock(granted) => s.mover.SawLinked?
    case SDecide(dead) => s.mover.Pinned?
    case SLeave => s.mover.Leaving?
    case SUnlock => s.mover.Left?
    case SWipe => s.mover.Unlocked?
    case SFinish => s.rb.done > 0 && s.mover.Rest?
  }

  // Every pointer the step follows leads into a page in use, and every table it indexes has the entry.
  ghost predicate Defined(s: State, a: Step) {
    match a
    case SAlloc(_, _, _) => FreeLive(s.sl.free, s.sl.mem)
    case SRelease(p) => p in s.sl.mem && s.sl.mem[p].refcount > 0
    case SFree(p) => p in s.sl.mem && ValidClass(s.sl, s.sl.mem[p].clsid)
    case SLook => ValidClass(s.sl, s.rb.src) && Cursor(s) in s.sl.mem
    case STryLock(_) => s.mover.SawLinked? && s.mover.it in s.sl.mem
    case SDecide(_) => s.mover.Pinned? && s.mover.it in s.sl.mem && FreeLive(s.sl.free, s.sl.mem)
    case SLeave =>
      s.mover.Leaving? && s.mover.it in s.sl.mem && s.sl.mem[s.mover.it].refcount > 0 && s.mover.copy != s.mover.it
    case SWipe => s.mover.Unlocked? && s.mover.it in s.sl.mem && HasClass(s.sl, s.rb.src)
    case SFinish =>
      ValidClass(s.sl, s.rb.src) && HasClass(s.sl, s.rb.dst) && s.rb.index < |s.sl.pages[s.rb.src]|
      && s.sl.malloced >= PAGE_BYTES
    case _ => true
  }

  ghost predicate Enabled(s: State, a: Step) { Guard(s, a) && Defined(s, a) }

  ghost function Apply(s: State, a: Step): State
    requires Enabled(s, a)
  {
    match a
    case SAlloc(size, c, raw) => DoAlloc(s, size, c, raw)
    case SFill(p, key, seg, content, useCas) => DoFill(s, p, key, seg, content, useCas)
    case SLink(p) => DoLink(s, p)
    case SUnlink(p) => DoUnlink(s, p)
    case SGet(p, fetch) => DoGet(s, p, fetch)
    case SRelease(p) => DoRelease(s, p)
    case SFree(p) => DoFree(s, p)
    case SRequeue(p, seg, active) => DoRequeue(s, p, seg, active)
    case SWrite(p, content) => DoWrite(s, p, content)
    case SRequest(src, dst, remove) => DoRequest(s, src, dst, remove)
    case SStart(index) => DoStart(s, index)
    case SGiveUp => s.(rb := s.rb.(signal := 0))
    case SLook => DoLook(s)
    case STryLock(granted) => DoTryLock(s, granted)
    case SDecide(dead) => DoDecide(s, dead)
    case SLeave => DoLeave(s)
    case SUnlock => DoUnlock(s)
    case SWipe => DoWipe(s)
    case SFinish => DoFinish(s)
  }

  // The engine after slabs_init without preallocation: classes with room for at least one chunk a page.
  ghost predicate Initial(s: State) {
    && |s.sl.perslab| >= 1 && |s.sl.free| == |s.sl.pages| == |s.sl.requested| == |s.sl.perslab|
    && (forall c :: 0 <= c < |s.sl.free| ==> s.sl.free[c] == [] && s.sl.pages[c] == [] && s.sl.requested[c] == 0)
    && (forall c :: 1 <= c < |s.sl.perslab| ==> s.sl.perslab[c] >= 1)
    && s.sl.owner == map[] && s.sl.mem == map[] && s.sl.malloced == 0
    && s.table == map[] && s.lru == map[] && s.held == map[] && s.rb == IDLE && s.mover == Rest
  }

  // run[0], run[1], ... are the states of an execution that takes the given steps.
  ghost predicate IsRun(run: seq<State>, steps: seq<Step>) {
    && |run| == |steps| + 1
    && Initial(run[0])
    && forall i :: 0 <= i < |steps| ==> Enabled(run[i], steps[i]) && run[i + 1] == Apply(run[i], steps[i])
  }
}
