// items.c on its queues: linking, unlinking, the tail puller and the crawler, in place.
module LruQueues {
  import opened Memory
  import opened Linkage
  import opened DList
  import opened CacheSpec
  import opened LruLists
  import opened LruPull
  import opened LruPullProofs
  import opened LruWalk
  import opened LruTurns

  class Lru {
    var heads: Ends
    var tails: Ends
    var sizes: map<Queue, int>
    var prev: Words
    var next: Words
    var mem: map<Ptr, Item>
    var stamps: map<Ptr, Stamp>
    var table: map<Key, Ptr>
    var casId: nat
    var currItems: int
    var locks: multiset<Ptr>               // the item locks this thread has got from item_trylock, by item
    ghost var phys: map<Queue, seq<Ptr>>   // the queues, with crawlers
    ghost var lru: map<Queue, seq<Ptr>>    // and without

    ghost predicate Valid()
      reads this
    {
      Threaded(prev, next, heads, tails, phys) && Disjoint(phys) && OwnCrawler(phys) && Mirrors(phys, lru, sizes)
    }

    ghost function View(): Cache
      reads this
    {
      Cache(mem, stamps, table, lru, casId, currItems)
    }

    method DoItemLinkQ(it: Ptr)
      requires Valid() && it in mem && it.Chunk? && forall q :: it !in QueueIn(phys, q)
      modifies this`heads, this`tails, this`sizes, this`prev, this`next, this`phys, this`lru
      ensures Valid() && lru == PushQueue(old(lru), mem[it].Home(), it)
      ensures phys == PushQueue(old(phys), mem[it].Home(), it)
    {
      hide Threaded, Disjoint, OwnCrawler, Mirrors, OneList, IsList, NoDup;
      var q := mem[it].Home();
      ghost var s := QueueIn(phys, q);
      PushThreaded(prev, next, heads, tails, phys, q, it);
      PushMirrors(phys, lru, sizes, q, it);
      var head := EndAt(heads, q);
      QueueList(prev, next, heads, tails, phys, q);
      prev := prev[it := Null];
      next := next[it := head];
      if head != Null { prev := prev[head := it]; }
      heads := heads[q := it];
      ghost var tails0 := tails[q := Tail([it] + s)];
      if EndAt(tails, q) == Null { tails := tails[q := it]; }
      SameEnds(prev, next, heads, tails0, heads, tails, PushQueue(phys, q, it));
      sizes := sizes[q := CountAt(sizes, q) + 1];
      phys := PushQueue(phys, q, it);
      lru := PushQueue(lru, q, it);
    }

    // The body of do_item_unlink_q and crawler_unlink_q: *head, *tail and the neighbours' words. A crawler that
    // crawler_crawl_q has popped off already is out of the list; for it this changes nothing.
    method CutOut(it: Ptr, q: Queue)
      requires Valid()
      requires var s := QueueIn(phys, q);
        it in s || (it == CrawlerOf(q) && s != [] && At(prev, it) == Null && At(next, it) == s[0])
      modifies this`heads, this`tails, this`prev, this`next, this`phys
      ensures Threaded(prev, next, heads, tails, phys) && Disjoint(phys) && OwnCrawler(phys)
      ensures phys == EraseQueue(old(phys), q, it)
      ensures var s := QueueIn(old(phys), q);
        Items(QueueIn(phys, q)) == if it.Crawler? then Items(s) else Erase(Items(s), it)
    {
      hide Threaded, Disjoint, OwnCrawler, Mirrors, OneList, IsList, NoDup, Items;
      ghost var s := QueueIn(phys, q);
      ghost var heads0, tails0 := heads, tails;
      if it in s {
        CutThreaded(prev, next, heads, tails, phys, q, it);
        heads0, tails0 := heads[q := Head(Erase(s, it))], tails[q := Tail(Erase(s, it))];
      } else {
        assert Erase(s, it) == s;
        PoppedThreaded(prev, next, heads, tails, phys, lru, sizes, q);
      }
      hide Erase;
      var before, after := At(prev, it), At(next, it);
      if EndAt(heads, q) == it { heads := heads[q := after]; }
      if EndAt(tails, q) == it { tails := tails[q := before]; }
      if after != Null { prev := prev[after := before]; }
      if before != Null { next := next[before := after]; }
      phys := EraseQueue(phys, q, it);
      SameEnds(prev, next, heads0, tails0, heads, tails, phys);
    }

    method DoItemUnlinkQ(it: Ptr)
      requires Valid() && it in mem && it.Chunk? && it in QueueIn(phys, mem[it].Home())
      modifies this`heads, this`tails, this`sizes, this`prev, this`next, this`phys, this`lru
      ensures Valid() && lru == EraseQueue(old(lru), mem[it].Home(), it)
      ensures phys == EraseQueue(old(phys), mem[it].Home(), it)
    {
      hide Threaded, Disjoint, OwnCrawler, Mirrors, Items, Erase;
      var q := mem[it].Home();
      EraseMirrors(phys, lru, sizes, q, it);
      CutOut(it, q);
      sizes := sizes[q := CountAt(sizes, q) - 1];
      lru := EraseQueue(lru, q, it);
    }

    // ---- the crawler ----

    // The crawler becomes the tail of its queue.
    method CrawlerLinkQ(q: Queue)
      requires Valid() && forall q1 :: CrawlerOf(q) !in QueueIn(phys, q1)
      modifies this`heads, this`tails, this`prev, this`next, this`phys
      ensures Valid() && phys == old(phys)[q := QueueIn(old(phys), q) + [CrawlerOf(q)]]
    {
      hide Threaded, Disjoint, OwnCrawler, Mirrors, OneList, IsList, NoDup;
      var it := CrawlerOf(q);
      ghost var s := QueueIn(phys, q);
      BackThreaded(prev, next, heads, tails, phys, q, it);
      ItemsBack(s, it);
      MirrorSame(phys, lru, sizes, q, s + [it]);
      QueueList(prev, next, heads, tails, phys, q);
      ghost var heads0 := heads[q := Head(s + [it])];
      var tail := EndAt(tails, q);
      prev := prev[it := tail];
      next := next[it := Null];
      if tail != Null { next := next[tail := it]; }
      tails := tails[q := it];
      if EndAt(heads, q) == Null { heads := heads[q := it]; }
      phys := phys[q := s + [it]];
      SameEnds(prev, next, heads0, tails, heads, tails, phys);
    }

    // The crawler has reached the head and is popped off, unless it is alone.
    method CrawlerPop(it: Ptr, q: Queue)
      requires Valid() && it == CrawlerOf(q) && QueueIn(phys, q) != [] && QueueIn(phys, q)[0] == it
      modifies this`heads, this`tails, this`prev, this`next, this`phys
      ensures var s := QueueIn(old(phys), q);
        && phys == (if |s| == 1 then old(phys) else old(phys)[q := s[1..]])
        && At(prev, it) == Null && (|s| > 1 ==> At(next, it) == s[1])
      ensures Valid()
    {
      hide Threaded, Disjoint, OwnCrawler, Mirrors, OneList, IsList, Items, NoDup;
      ghost var s := QueueIn(phys, q);
      QueueList(prev, next, heads, tails, phys, q);
      Neighbours(prev, next, s, 0);
      if At(next, it) != Null {
        PopThreaded(prev, next, heads, tails, phys, lru, sizes, q);
        ghost var tails0 := tails[q := Tail(s[1..])];
        heads := heads[q := At(next, it)];
        prev := prev[At(next, it) := Null];
        phys := phys[q := s[1..]];
        SameEnds(prev, next, heads, tails0, heads, tails, phys);
      }
    }

    // The crawler steps in front of the node before it.
    method CrawlerSwing(it: Ptr, q: Queue, ghost i: nat)
      requires Valid() && it == CrawlerOf(q) && 0 < i < |QueueIn(phys, q)| && QueueIn(phys, q)[i] == it
      modifies this`heads, this`tails, this`prev, this`next, this`phys
      ensures phys == old(phys)[q := Swapped(QueueIn(old(phys), q), i)] && At(next, it) == QueueIn(old(phys), q)[i - 1]
      ensures Valid()
    {
      hide Threaded, Disjoint, OwnCrawler, Mirrors, OneList, IsList, Items, NoDup, Swapped, SwingPrev, SwingNext;
      ghost var r := Swapped(QueueIn(phys, q), i);
      SwingThreaded(prev, next, heads, tails, phys, lru, sizes, q, i);
      ghost var heads0, tails0 := heads[q := Head(r)], tails[q := Tail(r)];
      if EndAt(heads, q) == At(prev, it) { heads := heads[q := it]; }
      if EndAt(tails, q) == it { tails := tails[q := At(prev, it)]; }
      SwingWords(it);
      phys := phys[q := r];
      hide Tail, Head;
      SameEnds(prev, next, heads0, tails0, heads, tails, phys);
    }

    method SwingWords(it: Ptr)
      requires var y := At(prev, it); y != it && y != Null && At(next, it) != y && At(next, it) != it
      modifies this`prev, this`next
      ensures prev == SwingPrev(old(prev), old(next), it) && next == SwingNext(old(prev), old(next), it)
      ensures At(old(prev), At(old(prev), it)) != it ==> At(next, it) == At(old(prev), it)
    {
      var before, after := At(prev, it), At(next, it);
      if after != Null {
        next := next[before := after];
        prev := prev[after := before];
      } else {
        next := next[before := Null];
      }
      next := next[it := before];
      prev := prev[it := At(prev, before)];
      prev := prev[before := it];
      if At(prev, it) != Null { next := next[At(prev, it) := it]; }
    }

    // The crawler steps in front of the next item, which is returned, or is popped off at the head.
    method CrawlerCrawlQ(q: Queue) returns (r: Ptr)
      requires Valid() && CrawlerOf(q) in QueueIn(phys, q)
      modifies this`heads, this`tails, this`prev, this`next, this`phys
      ensures var s := QueueIn(old(phys), q); var x := CrawlerOf(q);
        if s[0] == x then
          && r == Null && At(prev, x) == Null && (|s| > 1 ==> At(next, x) == s[1])
          && phys == (if |s| == 1 then old(phys) else old(phys)[q := s[1..]])
        else
          IndexOf(s, x) > 0 && r == s[IndexOf(s, x) - 1] && phys == old(phys)[q := Swapped(s, IndexOf(s, x))]
      ensures Valid()
    {
      hide Threaded, Disjoint, OwnCrawler, Mirrors, OneList, IsList, Items, NoDup, Swapped;
      var it := CrawlerOf(q);
      ghost var s := QueueIn(phys, q);
      ghost var i := IndexOf(s, it);
      QueueList(prev, next, heads, tails, phys, q);
      Neighbours(prev, next, s, i);
      if At(prev, it) == Null {
        CrawlerPop(it, q);
        return Null;
      }
      CrawlerSwing(it, q, i);
      r := At(next, it);
    }

    method CrawlerUnlinkQ(q: Queue)
      requires Valid()
      requires var s := QueueIn(phys, q); var x := CrawlerOf(q);
        x in s || (s != [] && At(prev, x) == Null && At(next, x) == s[0])
      modifies this`heads, this`tails, this`prev, this`next, this`phys
      ensures Valid() && phys == EraseQueue(old(phys), q, CrawlerOf(q))
    {
      hide Threaded, Disjoint, OwnCrawler, Mirrors, IsList, Items, Erase;
      CrawlerMirrors(phys, lru, sizes, q);
      CutOut(CrawlerOf(q), q);
    }

    // ---- items ----

    method RefcountIncr(it: Ptr) returns (n: nat)
      requires Valid() && it in mem
      modifies this`mem
      ensures Valid() && View() == Hold(old(View()), it) && n == mem[it].refcount
    {
      n := mem[it].refcount + 1;
      mem := mem[it := mem[it].(refcount := n)];
    }

    method DoItemRemove(it: Ptr)
      requires Valid() && it in mem && mem[it].refcount > 0
      modifies this`mem
      ensures Valid() && View() == Drop(old(View()), it)
    {
      var n: nat := mem[it].refcount - 1;
      mem := mem[it := mem[it].(refcount := n)];
      if n == 0 { mem := mem[it := mem[it].(flags := SLABBED, clsid := 0)]; }
    }

    // do_item_unlink and do_item_unlink_nolock
    method DoItemUnlink(it: Ptr)
      requires Valid() && it in mem
      requires mem[it].flags.linked ==> mem[it].refcount > 0 && it.Chunk? && it in QueueIn(phys, mem[it].Home())
      modifies this
      ensures locks == old(locks)
      ensures Valid() && View() == Unlink(old(View()), it)
      ensures phys == if old(mem)[it].flags.linked then EraseQueue(old(phys), old(mem)[it].Home(), it) else old(phys)
    {
      hide Threaded, Disjoint, OwnCrawler, Mirrors, EraseQueue;
      if mem[it].flags.linked {
        mem := mem[it := mem[it].(flags := mem[it].flags.(linked := false))];
        currItems := currItems - 1;
        table := table - {mem[it].key};
        DoItemUnlinkQ(it);
        DoItemRemove(it);
      }
    }

    // it->time = current_time, and a new cas id
    method StampNow(it: Ptr, env: Env)
      requires Valid() && it in mem
      modifies this`stamps, this`casId
      ensures Valid() && casId == if env.useCas then old(casId) + 1 else old(casId)
      ensures stamps == old(stamps)[it := Stamp(env.now, if !mem[it].flags.cas then StampOf(old(stamps), it).cas
                                                         else if env.useCas then casId else 0)]
    {
      hide Threaded, Disjoint, OwnCrawler, Mirrors;
      stamps := stamps[it := StampOf(stamps, it).(time := env.now)];
      if env.useCas { casId := casId + 1; }
      if mem[it].flags.cas { stamps := stamps[it := stamps[it].(cas := if env.useCas then casId else 0)]; }
    }

    method DoItemLink(it: Ptr, env: Env)
      requires Valid() && it in mem && it.Chunk? && forall q :: it !in QueueIn(phys, q)
      modifies this
      ensures Valid() && View() == Link(old(View()), env, it)
    {
      hide Threaded, Disjoint, OwnCrawler, Mirrors, PushQueue, QueueIn, Link, Hold;
      ghost var c := View();
      mem := mem[it := mem[it].(flags := mem[it].flags.(linked := true))];
      StampNow(it, env);
      currItems := currItems + 1;
      table := table[mem[it].key := it];
      DoItemLinkQ(it);
      LinkIs(c, env, it, View());
      var n := RefcountIncr(it);
    }

    method DoItemUpdateNolock(it: Ptr, env: Env)
      requires Valid() && it in mem && (mem[it].flags.linked ==> it.Chunk? && it in QueueIn(phys, mem[it].Home()))
      modifies this
      ensures locks == old(locks)
      ensures Valid() && View() == UpdateNolock(old(View()), env, it)
      ensures var q := mem[it].Home();
        phys == if Stale(env, TimeOf(old(View()), it)) && mem[it].flags.linked
                then PushQueue(EraseQueue(old(phys), q, it), q, it) else old(phys)
    {
      hide Threaded, Disjoint, OwnCrawler, Mirrors, PushQueue, EraseQueue, Erase;
      if Stale(env, StampOf(stamps, it).time) {
        if mem[it].flags.linked {
          GoneFromAll(prev, next, heads, tails, phys, mem[it].Home(), it);
          DoItemUnlinkQ(it);
          stamps := stamps[it := StampOf(stamps, it).(time := env.now)];
          DoItemLinkQ(it);
        }
      }
    }

    // An item that has been unlinked from its queue gets another segment and enters that queue.
    method Relink(it: Ptr, seg: Segment)
      requires Valid() && it in mem && it.Chunk? && forall q :: it !in QueueIn(phys, q)
      modifies this`heads, this`tails, this`sizes, this`prev, this`next, this`phys, this`lru, this`mem
      ensures Valid() && mem == old(mem)[it := old(mem)[it].(seg := seg)]
      ensures lru == PushQueue(old(lru), mem[it].Home(), it) && phys == PushQueue(old(phys), mem[it].Home(), it)
    {
      hide Threaded, Disjoint, OwnCrawler, Mirrors, PushQueue;
      mem := mem[it := mem[it].(seg := seg)];
      DoItemLinkQ(it);
    }

    // ---- lru_pull_tail ----

    // Whether the lock is free is given by o.
    method ItemTrylock(it: Ptr, o: Oracle, tries: nat) returns (got: bool)
      modifies this`locks
      ensures got == o.granted(tries, it) && locks == if got then old(locks) + multiset{it} else old(locks)
    {
      got := o.granted(tries, it);
      if got { locks := locks + multiset{it}; }
    }

    method ItemTrylockUnlock(it: Ptr)
      requires it in locks
      modifies this`locks
      ensures locks == old(locks) - multiset{it}
    {
      locks := locks - multiset{it};
    }

    // do_item_unlink_q, a new segment, item_link_q
    method MoveTo(it: Ptr, seg: Segment)
      requires Valid() && Coherent(View()) && LinkedIn(mem, it)
      modifies this
      ensures locks == old(locks)
      ensures Valid() && View() == Requeue(old(View()), it, seg, TimeOf(old(View()), it))
      ensures it in mem && mem[it].refcount == old(mem)[it].refcount
    {
      hide Threaded, Disjoint, OwnCrawler, Mirrors, PushQueue, EraseQueue, Erase, Coherent;
      ghost var c := View();
      LinkedQueued(c, phys, sizes, it);
      GoneFromAll(prev, next, heads, tails, phys, mem[it].Home(), it);
      DoItemUnlinkQ(it);
      Relink(it, seg);
      MoveIs(c, it, seg, View());
    }

    // The switch on cur_lru, and what follows the loop for the item it ends with.
    method SwitchLru(search: Ptr, env: Env, call: Call) returns (n: nat, stop: bool)
      requires Valid() && Coherent(View()) && LinkedIn(mem, search) && mem[search].refcount > 1
          && mem[search].Home() == call.q
      requires Timely(View(), env) && !Dead(View(), env, search)
      requires search in locks
      modifies this
      ensures locks == old(locks) - multiset{search}
      ensures var t := VisitLive(old(View()), env, call, search); View() == t.c && n == t.removed && stop == t.stop
      ensures Valid()
      ensures !stop ==> Idle(View(), env, call, search)
                        && (phys == old(phys)
                            || phys == PushQueue(EraseQueue(old(phys), call.q, search), call.q, search))
    {
      hide Threaded, Disjoint, OwnCrawler, Mirrors, PushQueue, EraseQueue, Erase, Coherent, Requeue, Drop, Unlink,
          Hold, QueueIn;
      hide Timely, Dead, Idle, UpdateNolock;
      ghost var c := View();
      SizeIs(phys, lru, sizes, call.q);
      LinkedQueued(c, phys, sizes, search);
      stop := true;
      if call.q.seg != Cold {              // HOT_LRU falls through to WARM_LRU
        if CountAt(sizes, call.q) > call.limit {
          n := 1;
          MoveTo(search, Cold);
          DoItemRemove(search);
          ItemTrylockUnlock(search);
        } else if mem[search].flags.active {
          n, stop := 0, false;
          BumpedIdle(c, env, call, search);
          Bump(search, env);
        } else {
          n := 0;
          DoItemRemove(search);
          ItemTrylockUnlock(search);
        }
      } else if call.evict {
        if !env.evictToFree {
          n := 0;
          DoItemRemove(search);
          ItemTrylockUnlock(search);
        } else {
          n := 1;
          Reclaim(search);
          ItemTrylockUnlock(search);
        }
      } else if mem[search].flags.active && env.maintainer {
        n := 1;
        ClearActive(search);
        MoveTo(search, Warm);
        DoItemRemove(search);
        ItemTrylockUnlock(search);
      } else {
        n := 0;
        DoItemRemove(search);
        ItemTrylockUnlock(search);
      }
    }

    // do_item_unlink_nolock, then do_item_remove of our own reference
    method Reclaim(it: Ptr)
      requires Valid() && Coherent(View()) && LinkedIn(mem, it) && mem[it].refcount > 1
      modifies this
      ensures locks == old(locks)
      ensures Valid() && phys == EraseQueue(old(phys), old(mem)[it].Home(), it)
      ensures View() == Drop(Unlink(old(View()), it), it)
    {
      hide Threaded, Disjoint, OwnCrawler, Mirrors, EraseQueue, Coherent, Drop, Unlink;
      LinkedQueued(View(), phys, sizes, it);
      UnlinkRef(View(), it);
      DoItemUnlink(it);
      DoItemRemove(it);
    }

    method ClearActive(it: Ptr)
      requires Valid() && Coherent(View()) && LinkedIn(mem, it)
      modifies this`mem
      ensures Valid() && Coherent(View()) && LinkedIn(mem, it)
      ensures View() == Edit(old(View()), it, old(mem)[it].(flags := old(mem)[it].flags.(active := false)))
    {
      hide Threaded, Disjoint, OwnCrawler, Mirrors, Coherent;
      ghost var c := View();
      LinkedRef(c, it);
      EditCoherent(c, it, mem[it].(flags := mem[it].flags.(active := false)));
      mem := mem[it := mem[it].(flags := mem[it].flags.(active := false))];
    }

    // An active item is left in the queue, at its head when it had not been touched for a minute.
    method Bump(search: Ptr, env: Env)
      requires Valid() && Coherent(View()) && LinkedIn(mem, search) && mem[search].refcount > 1
      requires search in locks
      modifies this
      ensures locks == old(locks) - multiset{search}
      ensures Valid()
      ensures var c := old(View());
        View() == Drop(UpdateNolock(Edit(c, search, c.mem[search].(flags := c.mem[search].flags.(active := false))),
            env, search), search)
      ensures var q := old(mem)[search].Home();
        phys == old(phys) || phys == PushQueue(EraseQueue(old(phys), q, search), q, search)
    {
      hide Threaded, Disjoint, OwnCrawler, Mirrors, PushQueue, EraseQueue, Erase, Coherent, Drop;
      ClearActive(search);
      LinkedQueued(View(), phys, sizes, search);
      DoItemUpdateNolock(search, env);
      DoItemRemove(search);
      ItemTrylockUnlock(search);
    }

    // An item whose lock we have, with a reference of our own.
    method PullHeld(search: Ptr, env: Env, call: Call) returns (n: nat, stop: bool)
      requires Valid() && Coherent(View()) && LinkedIn(mem, search) && mem[search].refcount > 1
          && mem[search].Home() == call.q
      requires Timely(View(), env) && search in locks
      modifies this
      ensures locks == old(locks) - multiset{search}
      ensures var c := old(View());
        var t := if Dead(c, env, search) then Turn(Drop(Unlink(c, search), search), 1, false, Null)
                 else VisitLive(c, env, call, search);
        View() == t.c && n == t.removed && stop == t.stop
      ensures Valid()
      ensures !stop ==>
        || phys == old(phys) || phys == EraseQueue(old(phys), call.q, search)
        || (phys == PushQueue(EraseQueue(old(phys), call.q, search), call.q, search) && Idle(View(), env, call, search))
    {
      hide Threaded, Disjoint, OwnCrawler, Mirrors, PushQueue, EraseQueue, Erase, Coherent, Drop, Unlink, VisitLive,
          Flushed, Timely, Idle;
      var it := mem[search];
      if ExpiredBefore(env, it.content.exptime)
         || Flushed(env, StampOf(stamps, search).time, if it.flags.cas then StampOf(stamps, search).cas else 0)
      {
        Reclaim(search);
        ItemTrylockUnlock(search);
        n, stop := 1, false;
      } else {
        n, stop := SwitchLru(search, env, call);
      }
    }

    // One turn of the loop for an item, with the locks it takes given by o.
    method PullTurn(search: Ptr, env: Env, o: Oracle, call: Call, tries: nat) returns (n: nat, stop: bool)
      requires Valid() && Coherent(View()) && LinkedIn(mem, search) && mem[search].refcount > 0
          && mem[search].Home() == call.q
      requires Timely(View(), env)
      modifies this
      ensures locks == old(locks)
      ensures var t := Visit(old(View()), env, o, call, tries, search);
        View() == t.c && n == t.removed && stop == t.stop
      ensures Valid()
      ensures !stop ==>
        || phys == old(phys) || phys == EraseQueue(old(phys), call.q, search)
        || (phys == PushQueue(EraseQueue(old(phys), call.q, search), call.q, search) && Idle(View(), env, call, search))
    {
      hide Threaded, Disjoint, OwnCrawler, Mirrors, PushQueue, EraseQueue, Erase, Coherent, Drop, Unlink, VisitLive,
          Dead, Idle;
      ghost var c := View();
      HeldTimely(c, env, search);
      n, stop := 0, false;
      if o.h(mem[search].key) == call.curHv { return; }
      var got := ItemTrylock(search, o, tries);
      if !got { return; }
      HoldCoherent(c, search);
      var count := RefcountIncr(search);
      n, stop := PullHeld(search, env, call);
    }

    // One turn within a walk: total is what the whole walk comes to, n the position of search.
    method WalkTurn(search: Ptr, env: Env, o: Oracle, call: Call, tries: nat, ghost total: Turn, ghost removed: nat,
        ghost n: nat)
      returns (k: nat, stop: bool, ghost n1: nat)
      requires Valid() && Coherent(View()) && Timely(View(), env) && tries > 0
      requires 0 < n <= |QueueIn(phys, call.q)| && QueueIn(phys, call.q)[n - 1] == search && !search.Crawler?
      requires var s := QueueIn(phys, call.q);
        (Going(total, View(), removed, env, o, call, s, n, tries) || Settled(total, View(), removed, env, call, s, n))
      modifies this
      ensures locks == old(locks)
      ensures Valid() && Coherent(View()) && Timely(View(), env)
      ensures stop ==> View() == total.c && removed + k == total.removed
      ensures !stop ==> var s := QueueIn(phys, call.q);
        && n1 <= |s| && old(At(prev, search)) == NodeAt(s, n1)
        && (Going(total, View(), removed + k, env, o, call, s, n1, tries - 1)
            || Settled(total, View(), removed + k, env, call, s, n1))
    {
      hide Threaded, Disjoint, OwnCrawler, Mirrors, Coherent, Timely, Going, Settled, Idle, Visit, Usable, PushQueue,
          EraseQueue, PullOk;
      ghost var c := View();
      ghost var s := QueueIn(phys, call.q);
      ItemHere(c, phys, sizes, call.q, n);
      NodeFacts(prev, next, heads, tails, phys, call.q, n);
      OnlyOwn(phys, call.q, s) by { QueueList(prev, next, heads, tails, phys, call.q); }
      TurnPulled(c, env, o, call, tries, search);
      PullCoherent(c, env, o, call, 1, Visit(c, env, o, call, tries, search));
      ghost var phys0 := phys;
      k, stop := PullTurn(search, env, o, call, tries);
      n1 := 0;
      if !stop { n1 := PositionAfter(phys0, phys, call.q, n); }
      TurnDone(total, c, removed, env, o, call, s, n, tries, QueueIn(phys, call.q), n1);
    }

    // At most five items from the tail up; crawlers are stepped over. Items that are requeued while the queue is
    // being walked do not lead the walk astray. Every item lock that was got is given back, whatever way the walk ends.
    method LruPullTail(env: Env, o: Oracle, call: Call) returns (removed: nat)
      requires Valid() && Coherent(View()) && Timely(View(), env)
      modifies this
      ensures locks == old(locks)
      ensures Valid() && Coherent(View()) && Timely(View(), env)
      ensures var t := PullTail(old(View()), env, o, call); View() == t.c && removed == t.removed
      ensures exists victim :: PullMeans(old(View()), env, o, call, View(), removed, victim)
    {
      hide Threaded, Disjoint, OwnCrawler, Mirrors, Coherent, Timely, Going, Settled, Idle, Walk, Usable, PullMeans;
      PullDoes(View(), env, o, call);
      ghost var total := PullTail(View(), env, o, call);
      removed := 0;
      if call.q.clsid == 0 { return; }
      var tries := TRIES;
      var search := EndAt(tails, call.q);
      ghost var n: nat := |QueueIn(phys, call.q)|;
      StartAt(View(), prev, next, heads, tails, phys, sizes, env, o, call, total);
      while tries > 0 && search != Null
        invariant Valid() && Coherent(View()) && Timely(View(), env) && locks == old(locks)
        invariant n <= |QueueIn(phys, call.q)| && search == NodeAt(QueueIn(phys, call.q), n)
        invariant || Going(total, View(), removed, env, o, call, QueueIn(phys, call.q), n, tries)
                  || Settled(total, View(), removed, env, call, QueueIn(phys, call.q), n)
        decreases tries, n
      {
        var nextIt := At(prev, search);
        if search.Crawler? {
          StepOver(View(), prev, next, heads, tails, phys, env, o, call, total, removed, n, tries);
          n := n - 1;
        } else {
          var k, stop;
          k, stop, n := WalkTurn(search, env, o, call, tries, total, removed, n);
          removed := removed + k;
          tries := tries - 1;
          if stop { return; }
        }
        search := nextIt;
      }
      QueueList(prev, next, heads, tails, phys, call.q);
      Finished(View(), env, o, call, QueueIn(phys, call.q), total, removed, n, tries);
    }
  }

  lemma PushThreaded(prev: Words, next: Words, heads: Ends, tails: Ends, phys: map<Queue, seq<Ptr>>, q: Queue, p: Ptr)
    requires Threaded(prev, next, heads, tails, phys) && Disjoint(phys) && OwnCrawler(phys)
    requires p.Chunk? && forall q1 :: p !in QueueIn(phys, q1)
    ensures var phys1 := PushQueue(phys, q, p); var r := [p] + QueueIn(phys, q);
      && Threaded(PushPrev(prev, EndAt(heads, q), p), next[p := EndAt(heads, q)], heads[q := p], tails[q := Tail(r)],
          phys1)
      && Disjoint(phys1) && OwnCrawler(phys1)
  {
    hide Disjoint, OwnCrawler, OneList, IsList, NoDup;
    QueueList(prev, next, heads, tails, phys, q);
    hide Threaded;
    var s := QueueIn(phys, q);
    PushOne(prev, next, s, p);
    ThreadOne(prev, next, heads, tails, phys, PushPrev(prev, Head(s), p), next[p := Head(s)], q, [p] + s, p);
    OwnOne(phys, q, [p] + s);
  }

  lemma PushMirrors(phys: map<Queue, seq<Ptr>>, lru: map<Queue, seq<Ptr>>, sizes: map<Queue, int>, q: Queue, p: Ptr)
    requires Mirrors(phys, lru, sizes) && p.Chunk?
    ensures Mirrors(PushQueue(phys, q, p), PushQueue(lru, q, p), sizes[q := CountAt(sizes, q) + 1])
  {
    assert Items(QueueIn(phys, q)) == QueueIn(lru, q) && CountAt(sizes, q) == |QueueIn(lru, q)|;
    hide Mirrors;
    ItemsPush(QueueIn(phys, q), p);
    MirrorOne(phys, lru, sizes, q, [p] + QueueIn(phys, q), [p] + QueueIn(lru, q));
  }

  lemma IndexIn(s: seq<Ptr>, p: Ptr)
    requires p in s && NoDup(s)
    ensures Erase(s, p) == Without(s, IndexOf(s, p)) && s[IndexOf(s, p)] == p
    ensures forall j :: 0 <= j < |s| && j != IndexOf(s, p) ==> s[j] != p
  {
  }

  lemma ElsewhereNot(phys: map<Queue, seq<Ptr>>, q: Queue, p: Ptr)
    requires Disjoint(phys) && p in QueueIn(phys, q)
    ensures forall q1 :: q1 != q ==> p !in QueueIn(phys, q1)
  {
  }

  lemma CutThreaded(prev: Words, next: Words, heads: Ends, tails: Ends, phys: map<Queue, seq<Ptr>>, q: Queue, p: Ptr)
    requires Threaded(prev, next, heads, tails, phys) && Disjoint(phys) && OwnCrawler(phys) && p in QueueIn(phys, q)
    ensures var phys1 := EraseQueue(phys, q, p); var s := QueueIn(phys, q); var r := Erase(s, p);
      && Threaded(CutPrev(prev, next, p), CutNext(prev, next, p), heads[q := Head(r)], tails[q := Tail(r)], phys1)
      && Disjoint(phys1) && OwnCrawler(phys1)
      && Head(r) == (if p == EndAt(heads, q) then At(next, p) else EndAt(heads, q))
      && Tail(r) == (if p == EndAt(tails, q) then At(prev, p) else EndAt(tails, q))
      && Items(r) == (if p.Crawler? then Items(s) else Erase(Items(s), p))
  {
    hide Disjoint, OwnCrawler, OneList, IsList, NoDup, Threaded, CutPrev, CutNext, Without, Items, Erase;
    QueueList(prev, next, heads, tails, phys, q);
    var s := QueueIn(phys, q);
    IndexIn(s, p);
    var i := IndexOf(s, p);
    CutOne(prev, next, s, i);
    CutEnds(prev, next, s, i);
    ItemsErase(s, i);
    ElsewhereNot(phys, q, p);
    ThreadOne(prev, next, heads, tails, phys, CutPrev(prev, next, p), CutNext(prev, next, p), q, Without(s, i), p);
    CutSubset(prev, next, s, i);
    OwnOne(phys, q, Without(s, i));
  }

  lemma CutSubset(prev: Words, next: Words, s: seq<Ptr>, i: nat)
    requires NoDup(s) && i < |s|
    ensures forall x :: x in Without(s, i) ==> x in s
  {
    WithoutFacts(s, i);
  }

  lemma EraseMirrors(phys: map<Queue, seq<Ptr>>, lru: map<Queue, seq<Ptr>>, sizes: map<Queue, int>, q: Queue, p: Ptr)
    requires Mirrors(phys, lru, sizes) && p.Chunk? && p in QueueIn(phys, q)
    ensures Items(QueueIn(phys, q)) == QueueIn(lru, q) && p in QueueIn(lru, q)
    ensures forall r :: Items(r) == Erase(Items(QueueIn(phys, q)), p) ==>
      Mirrors(phys[q := r], EraseQueue(lru, q, p), sizes[q := CountAt(sizes, q) - 1])
  {
    assert Items(QueueIn(phys, q)) == QueueIn(lru, q) && CountAt(sizes, q) == |QueueIn(lru, q)|;
    hide Mirrors, Items;
    ItemsIn(QueueIn(phys, q), p);
    forall r | Items(r) == Erase(Items(QueueIn(phys, q)), p)
      ensures Mirrors(phys[q := r], EraseQueue(lru, q, p), sizes[q := CountAt(sizes, q) - 1])
    {
      MirrorOne(phys, lru, sizes, q, r, Erase(QueueIn(lru, q), p));
    }
  }

  lemma BackThreaded(prev: Words, next: Words, heads: Ends, tails: Ends, phys: map<Queue, seq<Ptr>>, q: Queue, p: Ptr)
    requires Threaded(prev, next, heads, tails, phys) && Disjoint(phys) && OwnCrawler(phys)
    requires p == CrawlerOf(q) && forall q1 :: p !in QueueIn(phys, q1)
    ensures var r := QueueIn(phys, q) + [p]; var phys1 := phys[q := r];
      && Threaded(prev[p := EndAt(tails, q)], PushNext(next, EndAt(tails, q), p), heads[q := Head(r)], tails[q := p],
          phys1)
      && Disjoint(phys1) && OwnCrawler(phys1)
  {
    hide Disjoint, OwnCrawler, OneList, IsList, NoDup;
    QueueList(prev, next, heads, tails, phys, q);
    hide Threaded;
    var s := QueueIn(phys, q);
    PushLast(prev, next, s, p);
    ThreadOne(prev, next, heads, tails, phys, prev[p := Tail(s)], PushNext(next, Tail(s), p), q, s + [p], p);
    OwnOne(phys, q, s + [p]);
  }

  // The crawler at the head is popped off.
  lemma PopThreaded(prev: Words, next: Words, heads: Ends, tails: Ends, phys: map<Queue, seq<Ptr>>,
                    lru: map<Queue, seq<Ptr>>, sizes: map<Queue, int>, q: Queue)
    requires Threaded(prev, next, heads, tails, phys) && Disjoint(phys) && OwnCrawler(phys) && Mirrors(phys, lru, sizes)
    requires |QueueIn(phys, q)| > 1 && QueueIn(phys, q)[0].Crawler?
    ensures var s := QueueIn(phys, q); var r := s[1..]; var phys1 := phys[q := r];
      && Threaded(prev[s[1] := Null], next, heads[q := s[1]], tails[q := Tail(r)], phys1)
      && Disjoint(phys1) && OwnCrawler(phys1) && Mirrors(phys1, lru, sizes)
      && At(next, s[0]) == s[1] && s[1] != Null && Tail(r) == EndAt(tails, q)
  {
    hide Disjoint, OwnCrawler, OneList, IsList, NoDup, Threaded, Mirrors, Without, Items;
    QueueList(prev, next, heads, tails, phys, q);
    var s := QueueIn(phys, q);
    Neighbours(prev, next, s, 0);
    CutOne(prev, next, s, 0);
    CutSubset(prev, next, s, 0);
    ElsewhereNot(phys, q, s[0]);
    FirstOut(s);
    ThreadOne(prev, next, heads, tails, phys, CutPrev(prev, next, s[0]), CutNext(prev, next, s[0]), q, s[1..], s[0]);
    OwnOne(phys, q, s[1..]);
    ItemsErase(s, 0);
    MirrorSame(phys, lru, sizes, q, s[1..]);
  }

  lemma FirstOut(s: seq<Ptr>)
    requires s != []
    ensures Without(s, 0) == s[1..]
  {
  }

  lemma SwingThreaded(prev: Words, next: Words, heads: Ends, tails: Ends, phys: map<Queue, seq<Ptr>>,
                      lru: map<Queue, seq<Ptr>>, sizes: map<Queue, int>, q: Queue, i: nat)
    requires Threaded(prev, next, heads, tails, phys) && Disjoint(phys) && OwnCrawler(phys) && Mirrors(phys, lru, sizes)
    requires 0 < i < |QueueIn(phys, q)| && QueueIn(phys, q)[i].Crawler?
    ensures var s := QueueIn(phys, q); var r := Swapped(s, i); var phys1 := phys[q := r]; var x := s[i];
      && Threaded(SwingPrev(prev, next, x), SwingNext(prev, next, x), heads[q := Head(r)], tails[q := Tail(r)], phys1)
      && Disjoint(phys1) && OwnCrawler(phys1) && Mirrors(phys1, lru, sizes)
      && Head(r) == (if EndAt(heads, q) == s[i - 1] then x else EndAt(heads, q))
      && Tail(r) == (if EndAt(tails, q) == x then s[i - 1] else EndAt(tails, q))
      && At(prev, x) == s[i - 1] && s[i - 1] != x && s[i - 1] != Null && At(next, x) != s[i - 1] && At(next, x) != x
      && At(prev, s[i - 1]) != s[i - 1] && At(prev, s[i - 1]) != x
  {
    hide Disjoint, OwnCrawler, OneList, IsList, Threaded, Mirrors, Items, SwingPrev, SwingNext;
    QueueList(prev, next, heads, tails, phys, q);
    var s := QueueIn(phys, q);
    Neighbours(prev, next, s, i);
    Neighbours(prev, next, s, i - 1);
    SwapOne(prev, next, s, i);
    SwapNoDup(s, i);
    ElsewhereNot(phys, q, s[i]);
    ThreadOne(prev, next, heads, tails, phys, SwingPrev(prev, next, s[i]), SwingNext(prev, next, s[i]), q, Swapped(s,
        i), s[i]);
    OwnOne(phys, q, Swapped(s, i));
    ItemsSwap(s, i);
    MirrorSame(phys, lru, sizes, q, Swapped(s, i));
  }

  lemma CrawlerMirrors(phys: map<Queue, seq<Ptr>>, lru: map<Queue, seq<Ptr>>, sizes: map<Queue, int>, q: Queue)
    requires Mirrors(phys, lru, sizes)
    ensures forall r :: Items(r) == Items(QueueIn(phys, q)) ==> Mirrors(phys[q := r], lru, sizes)
  {
    hide Mirrors, Items;
    forall r | Items(r) == Items(QueueIn(phys, q)) ensures Mirrors(phys[q := r], lru, sizes) {
      MirrorSame(phys, lru, sizes, q, r);
    }
  }

  lemma PoppedThreaded(prev: Words, next: Words, heads: Ends, tails: Ends, phys: map<Queue, seq<Ptr>>,
                       lru: map<Queue, seq<Ptr>>, sizes: map<Queue, int>, q: Queue)
    requires Threaded(prev, next, heads, tails, phys) && Disjoint(phys) && OwnCrawler(phys) && Mirrors(phys, lru, sizes)
    requires CrawlerOf(q) !in QueueIn(phys, q) && QueueIn(phys, q) != []
    ensures var s := QueueIn(phys, q); var phys1 := EraseQueue(phys, q, CrawlerOf(q));
      && Threaded(prev[s[0] := Null], next, heads, tails, phys1)
      && Disjoint(phys1) && OwnCrawler(phys1) && Mirrors(phys1, lru, sizes)
      && EndAt(heads, q) != CrawlerOf(q) && EndAt(tails, q) != CrawlerOf(q) && s[0] != Null
  {
    hide Disjoint, OwnCrawler, IsList, NoDup, Threaded, Mirrors, Items, CrawlerOf;
    var s := QueueIn(phys, q);
    var phys1 := EraseQueue(phys, q, CrawlerOf(q));
    QueueList(prev, next, heads, tails, phys, q);
    Neighbours(prev, next, s, 0);
    assert phys1 == phys[q := s];
    MirrorSame(phys, lru, sizes, q, s);
    OwnOne(phys, q, s);
    ElsewhereNot(phys, q, s[0]);
    DisjointOne(phys, q, s, s[0]);
    SameWords(prev, next, prev[s[0] := Null], heads, tails, phys, phys1);
    assert s[0] in s && s[|s| - 1] in s;
  }

  // Words that read the same string the same lists.
  lemma SameWords(prev: Words, next: Words, prev1: Words, heads: Ends, tails: Ends, phys: map<Queue, seq<Ptr>>,
      phys1: map<Queue, seq<Ptr>>)
    requires Threaded(prev, next, heads, tails, phys) && forall p :: At(prev1, p) == At(prev, p)
    requires forall q :: QueueIn(phys1, q) == QueueIn(phys, q)
    ensures Threaded(prev1, next, heads, tails, phys1)
  {
    hide Threaded, IsList;
    forall q
      ensures IsList(prev1, next, QueueIn(phys1, q))
      ensures EndAt(heads, q) == Head(QueueIn(phys1, q)) && EndAt(tails, q) == Tail(QueueIn(phys1, q))
    {
      QueueList(prev, next, heads, tails, phys, q);
      Untouched(prev, next, prev1, next, QueueIn(phys, q));
    }
    ThreadedFrom(prev1, next, heads, tails, phys1);
  }

  lemma ThreadedFrom(prev: Words, next: Words, heads: Ends, tails: Ends, phys: map<Queue, seq<Ptr>>)
    requires forall q :: IsList(prev, next, QueueIn(phys, q))
    requires forall q :: EndAt(heads, q) == Head(QueueIn(phys, q)) && EndAt(tails, q) == Tail(QueueIn(phys, q))
    ensures Threaded(prev, next, heads, tails, phys)
  {
    hide IsList;
  }

  // An item that leaves its queue is in none.
  lemma GoneFromAll(prev: Words, next: Words, heads: Ends, tails: Ends, phys: map<Queue, seq<Ptr>>, q: Queue, p: Ptr)
    requires Threaded(prev, next, heads, tails, phys) && Disjoint(phys) && p in QueueIn(phys, q)
    ensures forall q1 :: p !in QueueIn(EraseQueue(phys, q, p), q1)
  {
    QueueList(prev, next, heads, tails, phys, q);
    ElsewhereNot(phys, q, p);
    hide Threaded, Disjoint;
    EraseFacts(QueueIn(phys, q), p);
    hide Erase, NoDup;
    assert forall q1 :: q1 != q ==> QueueIn(EraseQueue(phys, q, p), q1) == QueueIn(phys, q1);
  }

  // Everything of do_item_link but the reference for the link.
  lemma LinkIs(c: Cache, env: Env, p: Ptr, c1: Cache)
    requires p in c.mem && c1.mem == c.mem[p := c.mem[p].(flags := c.mem[p].flags.(linked := true))]
    requires c1.casId == (if env.useCas then c.casId + 1 else c.casId) && c1.currItems == c.currItems + 1
    requires c1.stamps == c.stamps[p := Stamp(env.now, if !c.mem[p].flags.cas then StampOf(c.stamps, p).cas
                                                       else if env.useCas then c1.casId else 0)]
    requires c1.table == c.table[c.mem[p].key := p] && c1.lru == PushQueue(c.lru, c.mem[p].Home(), p)
    ensures Hold(c1, p) == Link(c, env, p)
  {
    hide PushQueue;
  }

  lemma LinkedQueued(c: Cache, phys: map<Queue, seq<Ptr>>, sizes: map<Queue, int>, p: Ptr)
    requires Coherent(c) && Mirrors(phys, c.lru, sizes) && LinkedIn(c.mem, p)
    ensures p.Chunk? && p in QueueIn(phys, c.mem[p].Home()) && p in c.stamps && c.mem[p].refcount > 0
  {
    LinkedHere(c, p);
    hide TableOk, QueuedOk, QueuesOnce, LinkedOk;
    assert Items(QueueIn(phys, c.mem[p].Home())) == QueueIn(c.lru, c.mem[p].Home());
    ItemsIn(QueueIn(phys, c.mem[p].Home()), p);
  }

  lemma LinkedRef(c: Cache, p: Ptr)
    requires Coherent(c) && LinkedIn(c.mem, p)
    ensures c.mem[p].refcount > 0
  {
  }

  lemma SizeIs(phys: map<Queue, seq<Ptr>>, lru: map<Queue, seq<Ptr>>, sizes: map<Queue, int>, q: Queue)
    requires Mirrors(phys, lru, sizes)
    ensures CountAt(sizes, q) == |QueueIn(lru, q)|
  {
  }

  lemma MoveIs(c: Cache, p: Ptr, seg: Segment, c1: Cache)
    requires p in c.mem && p in c.stamps
    requires c1.mem == c.mem[p := c.mem[p].(seg := seg)] && c1.stamps == c.stamps && c1.table == c.table
    requires c1.casId == c.casId && c1.currItems == c.currItems
    requires c1.lru == PushQueue(EraseQueue(c.lru, c.mem[p].Home(), p), c1.mem[p].Home(), p)
    ensures c1 == Requeue(c, p, seg, TimeOf(c, p))
  {
    hide PushQueue, EraseQueue;
    assert c.stamps[p := StampOf(c.stamps, p).(time := TimeOf(c, p))] == c.stamps;
  }

  lemma UnlinkRef(c: Cache, p: Ptr)
    requires LinkedIn(c.mem, p) && c.mem[p].refcount > 1
    ensures p in Unlink(c, p).mem && Unlink(c, p).mem[p].refcount == c.mem[p].refcount - 1
  {
    hide EraseQueue;
  }

  lemma HeldTimely(c: Cache, env: Env, p: Ptr)
    requires Timely(c, env) && p in c.mem
    ensures Timely(Hold(c, p), env)
  {
    forall x ensures TimeOf(Hold(c, p), x) <= env.now { assert TimeOf(c, x) <= env.now; }
  }

  lemma BumpedIdle(c: Cache, env: Env, call: Call, p: Ptr)
    requires Coherent(c) && Timely(c, env) && LinkedIn(c.mem, p) && c.mem[p].refcount > 1 && c.mem[p].Home() == call.q
    requires !Dead(c, env, p) && call.q.seg != Cold && |QueueIn(c.lru, call.q)| <= call.limit
    ensures var r := UpdateNolock(Edit(c, p, c.mem[p].(flags := c.mem[p].flags.(active := false))), env, p);
      p in r.mem && r.mem[p].refcount > 0 && Idle(Drop(r, p), env, call, p)
  {
    LinkedHere(c, p);
    assert TimeOf(c, p) <= env.now;
    hide Coherent, Timely, PushQueue, EraseQueue;
    StillUnflushed(env, TimeOf(c, p), env.now, CasOf(c, p));
    RequeueLength(c.lru, call.q, call.q, p);
    hide Flushed;
  }

  lemma StartAt(c: Cache, prev: Words, next: Words, heads: Ends, tails: Ends, phys: map<Queue, seq<Ptr>>,
      sizes: map<Queue, int>,
                env: Env, o: Oracle, call: Call, total: Turn)
    requires Threaded(prev, next, heads, tails, phys) && Mirrors(phys, c.lru, sizes) && Coherent(c)
    requires total == PullTail(c, env, o, call) && call.q.clsid != 0
    ensures var s := QueueIn(phys, call.q);
      EndAt(tails, call.q) == NodeAt(s, |s|) && Going(total, c, 0, env, o, call, s, |s|, TRIES)
  {
    QueueList(prev, next, heads, tails, phys, call.q);
    var s := QueueIn(phys, call.q);
    assert Items(s) == QueueIn(c.lru, call.q);
    assert s[..|s|] == s;
    LastOfItems(s);
    NotNullAt(c);
    hide Threaded, Mirrors, Coherent, Walk, IsList, NoDup, Items;
    WalkNone(c, env, o, call, TRIES);
  }

  lemma StepOver(c: Cache, prev: Words, next: Words, heads: Ends, tails: Ends, phys: map<Queue, seq<Ptr>>,
                 env: Env, o: Oracle, call: Call, total: Turn, removed: nat, n: nat, tries: nat)
    requires Threaded(prev, next, heads, tails, phys)
    requires 0 < n <= |QueueIn(phys, call.q)| && QueueIn(phys, call.q)[n - 1].Crawler?
    requires var s := QueueIn(phys, call.q);
      (Going(total, c, removed, env, o, call, s, n, tries) || Settled(total, c, removed, env, call, s, n))
    ensures var s := QueueIn(phys, call.q);
      && At(prev, s[n - 1]) == NodeAt(s, n - 1)
      && (Going(total, c, removed, env, o, call, s, n - 1, tries) || Settled(total, c, removed, env, call, s, n - 1))
  {
    QueueList(prev, next, heads, tails, phys, call.q);
    var s := QueueIn(phys, call.q);
    Neighbours(prev, next, s, n - 1);
    hide Threaded, IsList, Walk, Idle;
    assert s[..n][..n - 1] == s[..n - 1];
  }

  lemma Finished(c: Cache, env: Env, o: Oracle, call: Call, s: seq<Ptr>, total: Turn, removed: nat, n: nat, tries: nat)
    requires Coherent(c) && n <= |s| && (tries == 0 || NodeAt(s, n) == Null) && Null !in s
    requires Going(total, c, removed, env, o, call, s, n, tries) || Settled(total, c, removed, env, call, s, n)
    ensures c == total.c && removed == total.removed
  {
    NotNullAt(c);
    hide Coherent, Idle;
    if n > 0 && n <= |s| { assert s[n - 1] in s; }
    WalkNone(c, env, o, call, tries);
  }

  lemma ItemHere(c: Cache, phys: map<Queue, seq<Ptr>>, sizes: map<Queue, int>, q: Queue, n: nat)
    requires Coherent(c) && Mirrors(phys, c.lru, sizes) && 0 < n <= |QueueIn(phys, q)|
        && !QueueIn(phys, q)[n - 1].Crawler?
    ensures var p := QueueIn(phys, q)[n - 1];
      LinkedIn(c.mem, p) && c.mem[p].Home() == q && c.mem[p].refcount > 0 && p.Chunk?
          && Items(QueueIn(phys, q)) == QueueIn(c.lru, q)
  {
    var p := QueueIn(phys, q)[n - 1];
    assert Items(QueueIn(phys, q)) == QueueIn(c.lru, q);
    ItemsIn(QueueIn(phys, q), p);
    hide TableOk, LinkedOk, StampsOk, QueuesOnce, Mirrors;
    assert p in QueueIn(c.lru, q);
  }

  lemma NodeFacts(prev: Words, next: Words, heads: Ends, tails: Ends, phys: map<Queue, seq<Ptr>>, q: Queue, n: nat)
    requires Threaded(prev, next, heads, tails, phys) && 0 < n <= |QueueIn(phys, q)|
    ensures var s := QueueIn(phys, q); NoDup(s) && Null !in s && At(prev, s[n - 1]) == Before(s, n - 1)
  {
    QueueList(prev, next, heads, tails, phys, q);
  }

  lemma OnlyOwn(phys: map<Queue, seq<Ptr>>, q: Queue, s: seq<Ptr>)
    requires OwnCrawler(phys) && s == QueueIn(phys, q) && NoDup(s)
    ensures OneCrawler(s)
  {
    forall i, j | 0 <= i < |s| && 0 <= j < |s| && s[i].Crawler? && s[j].Crawler? ensures i == j {
      assert s[i] in s && s[j] in s;
    }
  }

  lemma PositionAfter(phys: map<Queue, seq<Ptr>>, phys1: map<Queue, seq<Ptr>>, q: Queue, n: nat) returns (n1: nat)
    requires var s := QueueIn(phys, q); 0 < n <= |s| && NoDup(s)
    requires var p := QueueIn(phys, q)[n - 1];
      phys1 == phys || phys1 == EraseQueue(phys, q, p) || phys1 == PushQueue(EraseQueue(phys, q, p), q, p)
    ensures Afterwards(QueueIn(phys, q), n, QueueIn(phys1, q), n1)
    ensures n1 != n - 1 ==> phys1 != phys && phys1 != EraseQueue(phys, q, QueueIn(phys, q)[n - 1])
  {
    var s := QueueIn(phys, q);
    AroundAt(s, n - 1);
    FirstAt(s, n - 1);
    assert Erase(s, s[n - 1]) == Without(s, n - 1);
    n1 := if phys1 == phys || phys1 == EraseQueue(phys, q, s[n - 1]) || n == 1 then n - 1 else n;
  }

  lemma TurnDone(total: Turn, c: Cache, removed: nat, env: Env, o: Oracle, call: Call, s: seq<Ptr>, n: nat, tries: nat,
                 s1: seq<Ptr>, n1: nat)
    requires NoDup(s) && Null !in s && OneCrawler(s) && 0 < n <= |s| && s[n - 1].Chunk?
        && Items(s) == QueueIn(c.lru, call.q)
    requires tries > 0 && Usable(c, s[n - 1]) && Coherent(c)
    requires Going(total, c, removed, env, o, call, s, n, tries) || Settled(total, c, removed, env, call, s, n)
    requires var t := Visit(c, env, o, call, tries, s[n - 1]);
      Coherent(t.c) && (!t.stop ==> Afterwards(s, n, s1, n1) && (n1 != n - 1 ==> Idle(t.c, env, call, s[n - 1])))
    ensures var t := Visit(c, env, o, call, tries, s[n - 1]);
      if t.stop then total.c == t.c && total.removed == removed + t.removed
      else
        && n1 <= |s1| && NodeAt(s1, n1) == Before(s, n - 1)
        && (Going(total, t.c, removed + t.removed, env, o, call, s1, n1, tries - 1)
            || Settled(total, t.c, removed + t.removed, env, call, s1, n1))
  {
    hide Coherent, Idle, Visit, Walk, Usable, Items, OneCrawler, NoDup, Afterwards, Above;
    var t := Visit(c, env, o, call, tries, s[n - 1]);
    NotNullAt(c);
    NotNullAt(t.c);
    AboveIs(s, n);
    WalkOn(c, env, o, call, s[n - 1], tries);
    if !t.stop { NextNode(s, n, s1, n1); }
    if Going(total, c, removed, env, o, call, s, n, tries) {
      hide Going, Settled;
      if t.stop {
        GoingStops(total, c, removed, env, o, call, s, n, tries);
      } else {
        GoesOn(total, c, removed, env, o, call, s, n, tries, s1, n1);
      }
    } else {
      IdleVisit(c, env, o, call, tries, s[0]);
      assert n == 1;
      SettledOn(total, t.c, removed, env, call, s, s1, n1, t.stop);
    }
  }

  lemma GoingStops(total: Turn, c: Cache, removed: nat, env: Env, o: Oracle, call: Call, s: seq<Ptr>, n: nat,
      tries: nat)
    requires 0 < n <= |s| && LastItem(s[..n]) == s[n - 1] && tries > 0 && Usable(c, s[n - 1])
    requires Going(total, c, removed, env, o, call, s, n, tries) && Visit(c, env, o, call, tries, s[n - 1]).stop
    ensures var t := Visit(c, env, o, call, tries, s[n - 1]); total.c == t.c && total.removed == removed + t.removed
  {
    hide Visit, Walk, Usable;
    WalkOn(c, env, o, call, s[n - 1], tries);
  }

  lemma SettledOn(total: Turn, c: Cache, removed: nat, env: Env, call: Call, s: seq<Ptr>, s1: seq<Ptr>, n1: nat,
      stop: bool)
    requires Settled(total, c, removed, env, call, s, 1) && s != [] && (!stop ==> Afterwards(s, 1, s1, n1))
    ensures !stop ==> Settled(total, c, removed, env, call, s1, n1)
  {
    hide Idle, Without;
  }
}
