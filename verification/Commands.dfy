// The storage commands of memcached.c and do_item_get, do_item_alloc and do_item_replace of items.c, working on the
// queues, items and table in place. Each does what its specification function says.
module Commands {
  import opened Memory
  import opened Linkage
  import opened CacheSpec
  import opened LruPull
  import opened LruPullProofs
  import opened LruLists
  import opened LruQueues
  import opened LazyExpiry
  import opened Decimal
  import opened Store
  import opened StoreProofs
  import opened StoreCommand
  import opened StoreCommandProofs
  import opened StoreRefines
  import opened StoreDelta
  import opened StoreRoom

  // An unlinked item is in no queue.
  lemma UnqueuedItem(c: Cache, phys: map<Queue, seq<Ptr>>, sizes: map<Queue, int>, p: Ptr)
    requires Coherent(c) && Mirrors(phys, c.lru, sizes) && p.Chunk? && !LinkedIn(c.mem, p)
    ensures forall q :: p !in QueueIn(phys, q)
  {
    NotQueued(c, p);
    hide Coherent;
    forall q ensures p !in QueueIn(phys, q) {
      assert Items(QueueIn(phys, q)) == QueueIn(c.lru, q);
      ItemsIn(QueueIn(phys, q), p);
    }
  }

  lemma NotQueued(c: Cache, p: Ptr)
    requires Coherent(c) && !LinkedIn(c.mem, p)
    ensures forall q :: p !in QueueIn(c.lru, q)
  {
    hide TableOk, LinkedOk, StampsOk, RefsOk, QueuesOnce;
  }

  method DoItemGet(l: Lru, env: Env, key: Key) returns (it: Ptr)
    requires l.Valid() && Coherent(l.View())
    modifies l
    ensures l.Valid() && (key in old(l.table) ==> Usable(old(l.View()), old(l.table)[key]))
    ensures (l.View(), it) == Get(old(l.View()), env, key)
    ensures GetMeans(old(l.View()), env, key, l.View(), it)
  {
    hide Coherent, Threaded, Disjoint, OwnCrawler, Mirrors, Drop, Unlink, Flushed, GetMeans;
    ghost var c := l.View();
    GetDoes(c, env, key);
    it := Null;
    if key in l.table {                                  // assoc_find
      TableHere(c, key);
      it := l.table[key];
      GetLinked(c, it);
      var n := l.RefcountIncr(it);
      var cas := if l.mem[it].flags.cas then StampOf(l.stamps, it).cas else 0;
      if Flushed(env, StampOf(l.stamps, it).time, cas) || ExpiredNow(env, l.mem[it].content.exptime) {
        l.Reclaim(it);
        it := Null;
      } else {
        l.mem := l.mem[it := l.mem[it].(flags := l.mem[it].flags.(fetched := true, active := true))];
        assert l.mem == c.mem[it := l.mem[it]];
      }
    }
  }

  lemma GetLinked(c: Cache, p: Ptr)
    requires Coherent(c) && LinkedIn(c.mem, p)
    ensures Usable(c, p) && Coherent(Hold(c, p))
  {
    LinkedHere(c, p);
    HoldCoherent(c, p);
  }

  method DoItemRemove(l: Lru, it: Ptr)
    requires l.Valid() && it in l.mem && l.mem[it].refcount > 0
    modifies l
    ensures l.Valid() && l.View() == Release(old(l.View()), it)
  {
    hide Threaded, Disjoint, OwnCrawler, Mirrors, Drop;
    l.DoItemRemove(it);
  }

  // do_item_replace; both items have our key
  method DoItemReplace(l: Lru, env: Env, it: Ptr, newIt: Ptr)
    requires l.Valid() && Sound(l.View(), env) && LinkedIn(l.mem, it) && newIt != it
    requires FilledIn(l.mem, newIt) && !l.mem[newIt].flags.linked && newIt.Chunk?
    modifies l
    ensures l.Valid() && l.View() == SwapIn(old(l.View()), env, it, newIt)
  {
    hide Threaded, Disjoint, OwnCrawler, Mirrors, Coherent, Timely, CasOk, Unlink, Link;
    ghost var c := l.View();
    LinkedQueued(c, l.phys, l.sizes, it);
    UnlinkKeeps(c, env, it);
    l.DoItemUnlink(it);
    UnqueuedItem(l.View(), l.phys, l.sizes, newIt);
    l.DoItemLink(newIt, env);
  }

  method DoItemUpdate(l: Lru, env: Env, it: Ptr)
    requires l.Valid() && Coherent(l.View()) && LinkedIn(l.mem, it)
    modifies l
    ensures l.Valid() && l.View() == Update(old(l.View()), env, it)
  {
    hide Threaded, Disjoint, OwnCrawler, Mirrors, Coherent, PushQueue, EraseQueue;
    ghost var c := l.View();
    LinkedQueued(c, l.phys, l.sizes, it);
    if Stale(env, StampOf(l.stamps, it).time) && l.mem[it].flags.linked {
      if env.maintainer {
        l.stamps := l.stamps[it := StampOf(l.stamps, it).(time := env.now)];
      } else {
        l.DoItemUpdateNolock(it, env);
      }
    }
  }

  // One call of lru_pull_tail from do_item_alloc.
  method PullOnce(l: Lru, env: Env, w: Want, s: Supply, i: nat, seg: Segment, evict: bool)
    requires l.Valid() && Sound(l.View(), env)
    modifies l
    ensures l.Valid() && Sound(l.View(), env) && l.View() == PullFor(old(l.View()), env, w, s, i, seg, evict)
  {
    hide Threaded, Disjoint, OwnCrawler, Mirrors, Coherent, Timely, CasOk, PullTail, Limit, Weaker;
    PullWeaker(l.View(), env, w, s, i, seg, evict);
    WeakerSound(l.View(), PullFor(l.View(), env, w, s, i, seg, evict), env, w);
    var total := if env.maintainer then s.total(i) else 0;
    var removed := l.LruPullTail(env, Oracle(w.h, s.locks(i)),
                          Call(Queue(w.clsid, seg), Limit(env, total), evict, w.hv));
  }

  // What an attempt that got no chunk does for the next one.
  method MakeRoom(l: Lru, env: Env, w: Want, s: Supply, i: nat)
    requires l.Valid() && Sound(l.View(), env)
    modifies l
    ensures l.Valid() && Sound(l.View(), env)
    ensures var c := old(l.View());
      l.View() ==
        if env.maintainer then
          var c1 := PullFor(PullFor(c, env, w, s, 4 * i + 1, Hot, false), env, w, s, 4 * i + 2, Warm, false);
          PullFor(c1, env, w, s, 4 * i + 3, Cold, true)
        else PullFor(c, env, w, s, 4 * i + 1, Cold, true)
  {
    hide Sound, PullFor;
    if env.maintainer {
      PullOnce(l, env, w, s, 4 * i + 1, Hot, false);
      PullOnce(l, env, w, s, 4 * i + 2, Warm, false);
      PullOnce(l, env, w, s, 4 * i + 3, Cold, true);
    } else {
      PullOnce(l, env, w, s, 4 * i + 1, Cold, true);
    }
  }

  lemma AllocGivesUp(c: Cache, env: Env, w: Want, s: Supply, key: Key, content: Content)
    requires Sound(c, env)
    ensures var (c1, p) := ItemAlloc(c, env, w, s, key, content);
      && (p != Null ==> p in c1.mem && Filled(c1.mem[p], env, w, key, content))
      && (p == Null ==> w.clsid == 0 || forall j: nat :: j < 5 ==> !Spare(c, s.chunk(j)))
  {
    hide Coherent, Timely, CasOk, ItemAlloc, Spare, Filled;
    AllocTakesFirst(c, env, w, s, key, content);
  }

  method DoItemAlloc(l: Lru, env: Env, w: Want, s: Supply, key: Key, content: Content) returns (it: Ptr)
    requires l.Valid() && Sound(l.View(), env)
    modifies l
    ensures l.Valid() && (l.View(), it) == ItemAlloc(old(l.View()), env, w, s, key, content)
    ensures it != Null ==> it.Chunk? && it in l.mem && Filled(l.mem[it], env, w, key, content)
    ensures it == Null ==> w.clsid == 0 || forall j: nat :: j < 5 ==> !Spare(old(l.View()), s.chunk(j))
  {
    hide Threaded, Disjoint, OwnCrawler, Mirrors, Sound, PullFor;
    AllocGivesUp(l.View(), env, w, s, key, content);
    it := Null;
    if w.clsid == 0 { return; }
    ghost var goal := AllocTry(l.View(), env, w, s, 0);
    var i := 0;
    while i < ALLOC_TRIES
      invariant l.Valid() && Sound(l.View(), env) && it == Null && i <= ALLOC_TRIES
      invariant goal == AllocTry(l.View(), env, w, s, i)
    {
      if !env.maintainer { PullOnce(l, env, w, s, 4 * i, Cold, false); }
      it := s.chunk(i);                                  // slabs_alloc
      if it.Chunk? && (it in l.mem ==> l.mem[it].flags.slabbed && !l.mem[it].flags.linked) { break; }
      it := Null;
      MakeRoom(l, env, w, s, i);
      i := i + 1;
    }
    if it == Null { return; }
    l.mem := l.mem[it := Fresh(env, w, key, content)];
  }

  lemma ChunkHere(c: Cache, env: Env, p: Ptr)
    requires Sound(c, env) && p in c.mem
    ensures p.Chunk?
  {
  }

  // do_store_item: `it` carries what the client sent, reqCas is ITEM_get_cas(it).
  method DoStoreItem(l: Lru, env: Env, it: Ptr, comm: Command, reqCas: nat, w: Want,
      s: Supply) returns (stored: Result, linked: Ptr)
    requires l.Valid() && Sound(l.View(), env) && FilledIn(l.mem, it) && !l.mem[it].flags.linked
        && w.h(l.mem[it].key) == w.hv
    modifies l
    ensures l.Valid()
    ensures var c := old(l.View()); var key := c.mem[it].key; key in c.table ==> Usable(c, c.table[key])
    ensures (l.View(), stored, linked) == StoreItem(old(l.View()), env, it, comm, reqCas, w, s)
  {
    hide Threaded, Disjoint, OwnCrawler, Mirrors, Coherent, Timely, CasOk, Got, Missed, Get, Link, SwapIn, ItemAlloc,
        Release, Update;
    ghost var c := l.View();
    var key := l.mem[it].key;
    GetEither(c, env, key, it);
    var oldIt := DoItemGet(l, env, key);
    ghost var c1 := l.View();
    stored, linked := NotStored, Null;
    if oldIt != Null && comm == Add {
      DoItemUpdate(l, env, oldIt);
      UpdateHeld(c1, env, oldIt);
      DoItemRemove(l, oldIt);
    } else if oldIt == Null && (comm == Replace || comm == Append || comm == Prepend) {
    } else if comm == Cas {
      if oldIt == Null {
        stored := NotFound;
      } else if reqCas == ReadCas(l, oldIt) {
        StoreOver(l, env, oldIt, it);
        stored, linked := Stored, it;
      } else {
        stored := Exists;
        DoItemRemove(l, oldIt);
      }
    } else if (comm == Append || comm == Prepend) && reqCas != 0 && reqCas != ReadCas(l, oldIt) {
      stored := Exists;
      DoItemRemove(l, oldIt);
    } else if comm == Append || comm == Prepend {
      linked := StoreJoined(l, env, oldIt, it, comm, w, s, c);
      if linked != Null { stored := Stored; }
    } else if oldIt != Null {
      StoreOver(l, env, oldIt, it);
      stored, linked := Stored, it;
    } else {
      UnqueuedItem(c1, l.phys, l.sizes, it) by { ChunkHere(c1, env, it); }
      l.DoItemLink(it, env);
      stored, linked := Stored, it;
    }
  }

  function ReadCas(l: Lru, p: Ptr): nat
    reads l
  {
    if p in l.mem && l.mem[p].flags.cas then StampOf(l.stamps, p).cas else 0
  }

  // What do_item_get leaves for the rest of the command.
  lemma GetEither(c: Cache, env: Env, key: Key, it: Ptr)
    requires Sound(c, env) && FilledIn(c.mem, it) && !c.mem[it].flags.linked
    ensures key in c.table ==> Usable(c, c.table[key])
    ensures var (c1, p) := Get(c, env, key);
      && Sound(c1, env) && it in c1.mem && c1.mem[it] == c.mem[it] && it.Chunk?
      && (if p == Null then key !in c1.table
          else key in c.table && p == c.table[key] && Got(c, c1, env, key, p) && LinkedIn(c1.mem, p) && it != p
               && c1.mem[p].refcount > 1 && c1.mem[p].key == key && c1.table == c.table && Others(c1.mem, p) > 0)
  {
    ChunkHere(c, env, it);
    hide Sound, Answer, Get, Got, Missed, Others;
    if Answer(c, env, key).None? {
      GetMissed(c, env, key);
      MissedItem(c, Get(c, env, key).0, env, key, it);
      MissedFacts(c, Get(c, env, key).0, env, key);
    } else {
      GetGot(c, env, key);
      var (c1, p) := Get(c, env, key);
      GotItem(c, c1, env, key, p, it);
      GotRefs(c, c1, env, key, p);
      GotFacts(c, c1, env, key, p);
      GotTable(c, c1, env, key, p);
    }
  }

  lemma MissedFacts(c: Cache, c1: Cache, env: Env, key: Key)
    requires Missed(c, c1, env, key)
    ensures Sound(c1, env) && key !in c1.table
  {
    hide Sound, Answer, Others;
  }

  lemma GotTable(c: Cache, c1: Cache, env: Env, key: Key, p: Ptr)
    requires Got(c, c1, env, key, p)
    ensures c1.table == c.table
  {
    hide Sound, Answer, Others, Alive;
  }

  lemma UpdateHeld(c: Cache, env: Env, p: Ptr)
    requires LinkedIn(c.mem, p) && c.mem[p].refcount > 1
    ensures p in Update(c, env, p).mem && Update(c, env, p).mem[p].refcount > 0
  {
    hide PushQueue, EraseQueue;
  }

  // item_replace(old_it, it, hv), then do_item_remove(old_it)
  method StoreOver(l: Lru, env: Env, oldIt: Ptr, it: Ptr)
    requires l.Valid() && Sound(l.View(), env) && LinkedIn(l.mem, oldIt) && it != oldIt && Others(l.mem, oldIt) > 0
    requires FilledIn(l.mem, it) && !l.mem[it].flags.linked && it.Chunk? && l.mem[it].key == l.mem[oldIt].key
    modifies l
    ensures l.Valid() && l.View() == Release(SwapIn(old(l.View()), env, oldIt, it), oldIt)
  {
    hide Threaded, Disjoint, OwnCrawler, Mirrors, Sound, SwapIn, Release, Answer;
    SwapKeeps(l.View(), env, oldIt, it);
    DoItemReplace(l, env, oldIt, it);
    DoItemRemove(l, oldIt);
  }

  // The append and prepend branch: a new item, both bodies copied into it, and the replacement.
  method StoreJoined(l: Lru, env: Env, oldIt: Ptr, it: Ptr, comm: Command, w: Want, s: Supply,
      ghost c: Cache) returns (newIt: Ptr)
    requires l.Valid() && it in l.mem && oldIt in l.mem && w.h(l.mem[oldIt].key) == w.hv
    requires Got(c, l.View(), env, l.mem[oldIt].key, oldIt)
    modifies l
    ensures l.Valid()
    ensures var c1 := old(l.View());
      var (c2, q) := ItemAlloc(c1, env, w, s, c1.mem[oldIt].key, Joined(comm, ContentOf(c1, oldIt), ContentOf(c1, it)));
      newIt == q && l.View() ==
        if q == Null then Release(c2, oldIt) else Release(Release(SwapIn(c2, env, oldIt, q), oldIt), q)
  {
    hide Threaded, Disjoint, OwnCrawler, Mirrors, Sound, Got, Release, ItemAlloc, SwapIn, Answer, Others, AnswersLess,
        RefsBut;
    ghost var c1 := l.View();
    var key := l.mem[oldIt].key;
    GotFacts(c, c1, env, key, oldIt);
    var data := JoinBodies(l.mem[oldIt].content.data, l.mem[it].content.data, comm);
    var content := l.mem[oldIt].content.(data := data);
    AllocatedOk(c1, env, w, s, key, oldIt, content);
    newIt := DoItemAlloc(l, env, w, s, key, content);
    ghost var c2 := l.View();
    SameOthers(c1, c2, oldIt);
    SoundLinked(c2, env, oldIt);
    HasRefs(c2, oldIt);
    if newIt == Null {
      DoItemRemove(l, oldIt);
    } else {
      SwapKeeps(c2, env, oldIt, newIt);
      ReleaseAnswers(SwapIn(c2, env, oldIt, newIt), env, oldIt);
      StoreOver(l, env, oldIt, newIt);
      SameOthers(SwapIn(c2, env, oldIt, newIt), l.View(), newIt);
      HasRefs(l.View(), newIt);
      DoItemRemove(l, newIt);
    }
  }

  lemma HasRefs(c: Cache, p: Ptr)
    requires p in c.mem && Others(c.mem, p) > 0
    ensures c.mem[p].refcount > 0
  {
  }

  // The two memcpy calls: the second one starts on the line end of the first.
  method JoinBodies(held: string, sent: string, comm: Command) returns (data: string)
    ensures data == if comm == Prepend then Body(sent) + held else Body(held) + sent
  {
    var first, second := held, sent;
    if comm == Prepend { first, second := sent, held; }
    var at := if |first| >= 2 then |first| - 2 else |first|;
    var block := new char[at + |second| + 2](_ => ' ');
    forall i | 0 <= i < |first| { block[i] := first[i]; }
    assert block[..at] == first[..at];
    forall i | 0 <= i < |second| { block[at + i] := second[i]; }
    data := block[..at + |second|];
    assert data == first[..at] + second;
  }

  // ---- do_add_delta ----

  // The in-place branch: ITEM_set_cas, the new bytes, do_item_update, and our reference.
  method CountHere(l: Lru, env: Env, it: Ptr, data: string, ghost c: Cache) returns (cas: nat)
    requires l.Valid() && it in l.mem && env.oldestCas <= c.casId && Got(c, l.View(), env, l.mem[it].key, it)
    modifies l
    ensures l.Valid() && l.View() == Release(Rewrite(old(l.View()), env, it, data), it)
    ensures cas == CasOf(Rewrite(old(l.View()), env, it, data), it)
  {
    hide Threaded, Disjoint, OwnCrawler, Mirrors, Sound, Got, Release, Update, Answer, Others;
    ghost var c1 := l.View();
    GotFacts(c, c1, env, l.mem[it].key, it);
    GotAlive(c, c1, env, l.mem[it].key, it);
    RewriteKeeps(c1, env, it, data);
    OverwriteSound(c1, env, it, data);
    hide Overwrite;
    SetCasAndData(l, env, it, data);
    DoItemUpdate(l, env, it);
    cas := ReadCas(l, it);
    HasRefs(l.View(), it);
    DoItemRemove(l, it);
  }

  method SetCasAndData(l: Lru, env: Env, it: Ptr, data: string)
    requires l.Valid() && it in l.mem
    modifies l
    ensures l.Valid() && l.View() == Overwrite(old(l.View()), env, it, data)
  {
    hide Threaded, Disjoint, OwnCrawler, Mirrors;
    if env.useCas { l.casId := l.casId + 1; }
    l.stamps := l.stamps[it := StampOf(l.stamps, it).(cas := if !l.mem[it].flags.cas then StampOf(l.stamps, it).cas
                                                            else if env.useCas then l.casId else 0)];
    l.mem := l.mem[it := l.mem[it].(content := l.mem[it].content.(data := data))];
  }

  lemma OverwriteSound(c: Cache, env: Env, p: Ptr, data: string)
    requires Sound(c, env) && LinkedIn(c.mem, p)
    ensures Coherent(Overwrite(c, env, p, data)) && LinkedIn(Overwrite(c, env, p, data).mem, p)
  {
    OverwriteOk(c, env, p, data);
  }

  // Once the number has been counted.
  method Recount64(l: Lru, env: Env, key: Key, it: Ptr, n: nat, w: Want, s: Supply, ghost c: Cache)
    returns (r: DeltaResult, cas: nat)
    requires l.Valid() && it in l.mem && env.oldestCas <= c.casId && w.h(key) == w.hv
    requires Got(c, l.View(), env, key, it) && l.mem[it].key == key
    modifies l
    ensures l.Valid() && (l.View(), r, cas) == Recounted(old(l.View()), env, key, it, n, w, s)
  {
    hide Threaded, Disjoint, OwnCrawler, Mirrors, Sound, Got, Release, ItemAlloc, SwapIn, Answer, Others, AnswersLess,
        RefsBut;
    hide Recount, Print, Rewrite, CopyCas;
    ghost var c1 := l.View();
    GotRefs(c, c1, env, key, it);
    GotFacts(c, c1, env, key, it);
    var data := l.mem[it].content.data;
    var digits := Print(n);
    if |digits| + 2 <= |data| && l.mem[it].refcount == 2 {
      cas := CountHere(l, env, it, Recount(data, digits, true), c);
      r := Ok(n);
    } else {
      var content := l.mem[it].content.(data := Recount(data, digits, false));
      AllocatedOk(c1, env, w, s, key, it, content);
      var newIt := DoItemAlloc(l, env, w, s, key, content);
      SameOthers(c1, l.View(), it);
      if newIt == Null {
        HasRefs(l.View(), it);
        DoItemRemove(l, it);
        r, cas := Eom, 0;
      } else {
        cas := CountInNew(l, env, it, newIt);
        r := Ok(n);
      }
    }
  }

  // item_replace, the id of the new item copied to the old one, and both references.
  method CountInNew(l: Lru, env: Env, it: Ptr, newIt: Ptr) returns (cas: nat)
    requires l.Valid() && Sound(l.View(), env) && LinkedIn(l.mem, it) && newIt != it && Others(l.mem, it) > 0
    requires FilledIn(l.mem, newIt) && !l.mem[newIt].flags.linked && newIt.Chunk? && l.mem[newIt].key == l.mem[it].key
    requires Others(l.mem, newIt) == 1
    modifies l
    ensures l.Valid()
    ensures var c3 := CopyCas(SwapIn(old(l.View()), env, it, newIt), it, newIt);
      l.View() == Release(Release(c3, newIt), it) && cas == CasOf(c3, it)
  {
    hide Threaded, Disjoint, OwnCrawler, Mirrors, Sound, Release, SwapIn, Answer, Others, SameEntry;
    ghost var c2 := l.View();
    SwapKeeps(c2, env, it, newIt);
    StillFilled(c2, env, it, newIt);
    DoItemReplace(l, env, it, newIt);
    CopyCasKeeps(l.View(), env, it, newIt);
    if l.mem[it].flags.cas { l.stamps := l.stamps[it := StampOf(l.stamps, it).(cas := ReadCas(l, newIt))]; }
    ghost var c3 := l.View();
    assert c3 == CopyCas(SwapIn(c2, env, it, newIt), it, newIt);
    cas := ReadCas(l, it);
    SameOthersAll(SwapIn(c2, env, it, newIt), c3);
    HasRefs(c3, newIt);
    ReleaseAnswers(c3, env, newIt);
    DoItemRemove(l, newIt);
    SameOthers(c3, l.View(), it);
    HasRefs(l.View(), it);
    DoItemRemove(l, it);
  }

  method DoAddDelta(l: Lru, env: Env, key: Key, d: Delta, reqCas: nat, beyond: string, w: Want, s: Supply)
    returns (r: DeltaResult, cas: nat)
    requires l.Valid() && Sound(l.View(), env) && env.oldestCas <= l.casId && w.h(key) == w.hv
    modifies l
    ensures l.Valid()
    ensures var c := old(l.View()); key in c.table ==> Usable(c, c.table[key])
    ensures (l.View(), r, cas) == AddDelta(old(l.View()), env, key, d, reqCas, beyond, w, s)
    ensures DeltaRefines(old(l.View()), env, key, d, reqCas, beyond, w, l.View(), r, cas)
  {
    hide Threaded, Disjoint, OwnCrawler, Mirrors, Coherent, Timely, CasOk, Got, Get, Release, SafeStrtoull, Count,
        Recounted, DeltaRefines;
    ghost var c := l.View();
    AddDeltaRefines(c, env, key, d, reqCas, beyond, w, s);
    GetForDelta(c, env, key);
    var it := DoItemGet(l, env, key);
    if it == Null { return ItemNotFound, 0; }
    var data := l.mem[it].content.data;
    if |data| <= 2 { return NotNumeric, 0; }
    if reqCas != 0 && ReadCas(l, it) != reqCas {
      DoItemRemove(l, it);
      return CasMismatch, 0;
    }
    var parsed := SafeStrtoull(data, beyond);
    ParseRange(data, beyond);
    if parsed == None {
      DoItemRemove(l, it);
      return NotNumeric, 0;
    }
    r, cas := Recount64(l, env, key, it, Count(parsed.value, d), w, s, c);
  }

  lemma GetForDelta(c: Cache, env: Env, key: Key)
    requires Sound(c, env)
    ensures key in c.table ==> Usable(c, c.table[key])
    ensures var (c1, p) := Get(c, env, key);
      p != Null ==>
        key in c.table && p == c.table[key] && Got(c, c1, env, key, p) && p in c1.mem && c1.mem[p].key == key
                    && c1.mem[p].refcount > 1
  {
    hide Sound, Answer, Get, Got, Others;
    if Answer(c, env, key).None? {
      GetMissed(c, env, key);
    } else {
      GetGot(c, env, key);
      var (c1, p) := Get(c, env, key);
      GotRefs(c, c1, env, key, p);
      GotFacts(c, c1, env, key, p);
    }
  }
}
