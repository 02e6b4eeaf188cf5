// Whole calls of lru_pull_tail.
module LruPullProofs {
  import opened Memory
  import opened Linkage
  import opened CacheSpec
  import opened LruPull

  // Items keep their holders and what is stored in them; items that are not linked are not touched.
  ghost predicate AllKept(c: Cache, c1: Cache, env: Env) {
    forall p :: p in c.mem ==> ItemKept(c, c1, env, p) && (!LinkedIn(c.mem, p) ==> c1.mem[p] == c.mem[p])
  }

  // Keys leave the table only when their item is expired, flushed or the victim; none changes its item.
  ghost predicate TableShrinks(c: Cache, c1: Cache, env: Env, victim: Ptr) {
    && (forall k :: k in c1.table ==> k in c.table && c1.table[k] == c.table[k])
    && (forall k :: k in c.table && k !in c1.table ==> Dead(c, env, c.table[k]) || c.table[k] == victim)
  }

  // The caller's own key, or an item whose lock another thread keeps.
  ghost predicate OffLimits(c: Cache, o: Oracle, call: Call, p: Ptr) {
    LinkedIn(c.mem, p) && (o.h(c.mem[p].key) == call.curHv || forall tries: nat :: !o.granted(tries, p))
  }

  // Such items are left alone.
  ghost predicate OwnKept(c: Cache, c1: Cache, o: Oracle, call: Call) {
    forall p :: OffLimits(c, o, call, p) ==>
      p in c1.mem && c1.mem[p] == c.mem[p] && StampOf(c1.stamps, p) == StampOf(c.stamps, p)
  }

  ghost predicate VictimOk(c: Cache, env: Env, call: Call, r: Turn) {
    r.victim != Null ==>
      && call.evict && env.evictToFree && call.q.seg == Cold && LinkedIn(c.mem, r.victim) && !Dead(c, env, r.victim)
      && !LinkedIn(r.c.mem, r.victim) && c.mem[r.victim].key !in r.c.table
  }

  ghost predicate PullOk(c: Cache, env: Env, o: Oracle, call: Call, tries: nat, r: Turn) {
    && Coherent(r.c) && Timely(r.c, env) && r.c.casId == c.casId && r.c.mem.Keys == c.mem.Keys
    && r.removed <= tries && |QueueIn(r.c.lru, call.q)| + r.removed == |QueueIn(c.lru, call.q)|
    && AllKept(c, r.c, env) && TableShrinks(c, r.c, env, r.victim) && OwnKept(c, r.c, o, call)
    && VictimOk(c, env, call, r)
  }

  lemma TurnKept(c: Cache, c1: Cache, env: Env, p: Ptr)
    requires LinkedIn(c.mem, p) && ItemKept(c, c1, env, p) && Elsewhere(c, c1, p)
    ensures AllKept(c, c1, env)
  {
    forall x | x in c.mem && x != p ensures ItemKept(c, c1, env, x) { SameItem(c, c1, env, x); }
    hide ItemKept;
  }

  lemma SameItem(c: Cache, c1: Cache, env: Env, x: Ptr)
    requires x in c.mem && x in c1.mem && c1.mem[x] == c.mem[x] && StampOf(c1.stamps, x) == StampOf(c.stamps, x)
    ensures ItemKept(c, c1, env, x)
  {
    hide Flushed;
  }

  lemma TurnTable(c: Cache, env: Env, call: Call, p: Ptr, t: Turn)
    requires Coherent(c) && LinkedIn(c.mem, p) && TurnOk(c, env, call, p, t)
    ensures TableShrinks(c, t.c, env, t.victim) && VictimOk(c, env, call, t)
  {
    LinkedHere(c, p);
    hide Coherent, Timely, ItemKept, Elsewhere, Dead, QueueIn;
  }

  lemma TurnOwn(c: Cache, env: Env, o: Oracle, call: Call, tries: nat, p: Ptr, t: Turn)
    requires TurnOk(c, env, call, p, t) && LinkedIn(c.mem, p)
    requires Skipped(c, o, call, tries, p) ==> t.c == c
    ensures OwnKept(c, t.c, o, call)
  {
    hide Coherent, Timely, ItemKept, QueueIn, Dead;
  }

  // ---- one turn after another ----

  lemma KeptTwice(c: Cache, c1: Cache, c2: Cache, env: Env, p: Ptr)
    requires p in c.mem && ItemKept(c, c1, env, p) && ItemKept(c1, c2, env, p)
    requires if LinkedIn(c1.mem, p) then !c1.mem[p].flags.slabbed else c2.mem[p] == c1.mem[p]
    ensures ItemKept(c, c2, env, p)
  {
    hide Flushed;
  }

  lemma AllTwice(c: Cache, c1: Cache, c2: Cache, env: Env)
    requires AllKept(c, c1, env) && AllKept(c1, c2, env) && Coherent(c1)
    ensures AllKept(c, c2, env)
  {
    hide Coherent;
    forall p | p in c.mem ensures ItemKept(c, c2, env, p) && (!LinkedIn(c.mem, p) ==> c2.mem[p] == c.mem[p]) {
      AllAt(c, c1, env, p);
      AllAt(c1, c2, env, p);
      if LinkedIn(c1.mem, p) { LinkedHere(c1, p); }
      hide AllKept, ItemKept;
      KeptTwice(c, c1, c2, env, p);
    }
  }

  lemma AllAt(c: Cache, c1: Cache, env: Env, p: Ptr)
    requires AllKept(c, c1, env) && p in c.mem
    ensures ItemKept(c, c1, env, p) && p in c1.mem && (!LinkedIn(c.mem, p) ==> c1.mem[p] == c.mem[p])
  {
  }

  lemma DeadBefore(c: Cache, c1: Cache, env: Env, p: Ptr)
    requires p in c.mem && ItemKept(c, c1, env, p) && LinkedIn(c1.mem, p)
    ensures Dead(c1, env, p) == Dead(c, env, p)
  {
    hide Others, Flushed;
  }

  lemma TableTwice(c: Cache, c1: Cache, c2: Cache, env: Env, victim: Ptr)
    requires Coherent(c) && Coherent(c1) && AllKept(c, c1, env)
    requires TableShrinks(c, c1, env, Null) && TableShrinks(c1, c2, env, victim)
    ensures TableShrinks(c, c2, env, victim)
  {
    hide Coherent, AllKept, Dead;
    forall k | k in c.table && k !in c2.table ensures Dead(c, env, c.table[k]) || c.table[k] == victim {
      TableHere(c, k);
      NotNull(c, c.table[k]);
      if k in c1.table {
        TableHere(c1, k);
        AllAt(c, c1, env, c.table[k]);
        DeadBefore(c, c1, env, c.table[k]);
      }
    }
  }

  lemma VictimTwice(c: Cache, c1: Cache, env: Env, call: Call, r: Turn)
    requires Coherent(c1) && AllKept(c, c1, env) && VictimOk(c1, env, call, r) && c1.mem.Keys == c.mem.Keys
    ensures VictimOk(c, env, call, r)
  {
    hide Coherent, AllKept, Dead, Flushed;
    if r.victim != Null {
      AllAt(c, c1, env, r.victim);
      DeadBefore(c, c1, env, r.victim);
    }
  }

  lemma OwnTwice(c: Cache, c1: Cache, c2: Cache, o: Oracle, call: Call)
    requires OwnKept(c, c1, o, call) && OwnKept(c1, c2, o, call)
    ensures OwnKept(c, c2, o, call)
  {
  }

  // The item above is in the queue still.
  lemma AboveLinked(c: Cache, call: Call, p: Ptr, c1: Cache)
    requires Coherent(c) && LinkedIn(c.mem, p) && c.mem[p].Home() == call.q && Elsewhere(c, c1, p) && Coherent(c1)
    ensures var n := Above(QueueIn(c.lru, call.q), p);
      n == Null || (LinkedIn(c1.mem, n) && c1.mem[n].Home() == call.q)
  {
    LinkedHere(c, p);
    var s := QueueIn(c.lru, call.q);
    var n := Above(s, p);
    hide TableOk, LinkedOk, StampsOk, RefsOk;
    NotNullAt(c1);
    if n != Null {
      assert NoDup(s);
      var i := IndexOf(s, p);
      assert s[i] == p && s[i - 1] == n;
      assert n in QueueIn(c.lru, call.q);
      assert LinkedIn(c.mem, n) && c.mem[n].Home() == call.q;
      assert n != p;
    }
  }

  lemma NotNullAt(c: Cache)
    requires Coherent(c)
    ensures Null !in c.mem
  {
    hide TableOk, LinkedOk, StampsOk, QueuesOnce, QueuedOk, RefsOk;
  }

  lemma TurnPulled(c: Cache, env: Env, o: Oracle, call: Call, tries: nat, p: Ptr)
    requires Coherent(c) && Timely(c, env) && LinkedIn(c.mem, p) && c.mem[p].Home() == call.q && tries > 0
    ensures Usable(c, p)
    ensures var t := Visit(c, env, o, call, tries, p);
      && PullOk(c, env, o, call, 1, t) && Elsewhere(c, t.c, p) && (!t.stop ==> t.victim == Null)
  {
    hide Coherent, Timely, Visit, ItemKept, Elsewhere, AllKept, TableShrinks, OwnKept, VictimOk, QueueIn;
    VisitOk(c, env, o, call, tries, p);
    var t := Visit(c, env, o, call, tries, p);
    TurnKept(c, t.c, env, p);
    TurnTable(c, env, call, p, t);
    TurnOwn(c, env, o, call, tries, p, t);
    CasIdKept(c, t.c, p);
  }

  lemma CasIdKept(c: Cache, c1: Cache, p: Ptr)
    requires Elsewhere(c, c1, p)
    ensures c1.casId == c.casId && c1.mem.Keys == c.mem.Keys
  {
  }

  lemma PullTwice(c: Cache, env: Env, o: Oracle, call: Call, tries: nat, t: Turn, r: Turn)
    requires Coherent(c) && tries > 0 && PullOk(c, env, o, call, 1, t) && t.victim == Null && t.c.mem.Keys == c.mem.Keys
    requires PullOk(t.c, env, o, call, tries - 1, r)
    ensures PullOk(c, env, o, call, tries, Turn(r.c, t.removed + r.removed, true, r.victim))
  {
    hide Coherent, Timely, AllKept, TableShrinks, OwnKept, QueueIn;
    AllTwice(c, t.c, r.c, env);
    TableTwice(c, t.c, r.c, env, r.victim);
    OwnTwice(c, t.c, r.c, o, call);
    VictimTwice(c, t.c, env, call, r);
  }

  lemma {:induction false} WalkOk(c: Cache, env: Env, o: Oracle, call: Call, search: Ptr, tries: nat)
    requires Coherent(c) && Timely(c, env)
    requires search == Null || (LinkedIn(c.mem, search) && c.mem[search].Home() == call.q)
    ensures PullOk(c, env, o, call, tries, Walk(c, env, o, call, search, tries))
    decreases tries
  {
    hide Coherent, Timely, PullOk, Visit, Elsewhere;
    NotNullAt(c);
    if search != Null { LinkedHere(c, search); }
    if tries == 0 || !Usable(c, search) {
      NothingPulled(c, env, o, call, tries, Turn(c, 0, true, Null));
    } else {
      var next := Above(QueueIn(c.lru, call.q), search);
      var t := Visit(c, env, o, call, tries, search);
      TurnPulled(c, env, o, call, tries, search);
      PullMore(c, env, o, call, 1, tries, t);
      SameKeys(c, t.c, search);
      if !t.stop {
        PullCoherent(c, env, o, call, 1, t);
        AboveLinked(c, call, search, t.c);
        WalkOk(t.c, env, o, call, next, tries - 1);
        PullTwice(c, env, o, call, tries, t, Walk(t.c, env, o, call, next, tries - 1));
      }
    }
  }

  lemma SameKeys(c: Cache, c1: Cache, p: Ptr)
    requires Elsewhere(c, c1, p)
    ensures c1.mem.Keys == c.mem.Keys
  {
  }

  lemma PullMore(c: Cache, env: Env, o: Oracle, call: Call, n: nat, m: nat, t: Turn)
    requires PullOk(c, env, o, call, n, t) && n <= m
    ensures PullOk(c, env, o, call, m, t)
  {
    hide Coherent, Timely, AllKept, TableShrinks, OwnKept, QueueIn, VictimOk;
  }

  lemma PullCoherent(c: Cache, env: Env, o: Oracle, call: Call, n: nat, t: Turn)
    requires PullOk(c, env, o, call, n, t)
    ensures Coherent(t.c) && Timely(t.c, env)
  {
    hide Coherent, Timely, AllKept, TableShrinks, OwnKept, QueueIn, VictimOk;
  }

  lemma NothingPulled(c: Cache, env: Env, o: Oracle, call: Call, tries: nat, r: Turn)
    requires Coherent(c) && Timely(c, env) && r.c == c && r.removed == 0 && r.victim == Null
    ensures PullOk(c, env, o, call, tries, r)
  {
    hide Coherent, Timely, Dead, ItemKept, QueueIn;
    forall p | p in c.mem ensures ItemKept(c, c, env, p) { SameItem(c, c, env, p); }
  }

  // ---- the main results ----

  // The value returned is the drop in the queue's size and at most five; every item visited has its other holders
  // still and no more; items with the caller's hash are untouched.
  lemma PullTailOk(c: Cache, env: Env, o: Oracle, call: Call)
    requires Coherent(c) && Timely(c, env)
    ensures PullOk(c, env, o, call, TRIES, PullTail(c, env, o, call))
  {
    var s := QueueIn(c.lru, call.q);
    if call.q.clsid == 0 || s == [] {
      hide Coherent, Timely;
      NothingPulled(c, env, o, call, TRIES, PullTail(c, env, o, call));
    } else {
      var p := s[|s| - 1];
      assert p in s;
      hide TableOk, LinkedOk, StampsOk, QueuesOnce;
      LinkedHere(c, p);
      hide Coherent, Timely, PullOk, Walk;
      WalkOk(c, env, o, call, p, TRIES);
    }
  }

  // A pull is invisible to clients, except that one that evicts drops exactly its victim.
  lemma PullVisible(c: Cache, env: Env, o: Oracle, call: Call)
    requires Coherent(c) && Timely(c, env)
    ensures var r := PullTail(c, env, o, call);
      && (r.victim != Null ==> call.evict && r.victim in c.mem)
      && Visible(r.c, env) == (if r.victim == Null then Visible(c, env) else Visible(c, env) - {c.mem[r.victim].key})
  {
    hide Coherent, Timely, PullTail, QueueIn, PullOk, Visible;
    PullTailOk(c, env, o, call);
    var r := PullTail(c, env, o, call);
    VictimIn(c, env, o, call, r);
    forall k
      ensures k in Visible(r.c, env) <==> k in Visible(c, env) && (r.victim == Null || k != c.mem[r.victim].key)
      ensures k in Visible(r.c, env) ==> Visible(r.c, env)[k] == Visible(c, env)[k]
    {
      VisibleAt(c, env, o, call, r, k);
    }
  }

  lemma VictimIn(c: Cache, env: Env, o: Oracle, call: Call, r: Turn)
    requires PullOk(c, env, o, call, TRIES, r)
    ensures r.victim != Null ==> call.evict && r.victim in c.mem
  {
    hide AllKept, OwnKept, QueueIn, Coherent, Timely;
  }

  lemma VisibleAt(c: Cache, env: Env, o: Oracle, call: Call, r: Turn, k: Key)
    requires Coherent(c) && PullOk(c, env, o, call, TRIES, r)
    ensures r.victim != Null ==> r.victim in c.mem
    ensures k in Visible(r.c, env) <==> k in Visible(c, env) && (r.victim == Null || k != c.mem[r.victim].key)
    ensures k in Visible(r.c, env) ==> Visible(r.c, env)[k] == Visible(c, env)[k]
  {
    hide Coherent, Timely, OwnKept, AllKept, QueueIn, Flushed;
    if k in c.table {
      TableHere(c, k);
      NotNullAt(c);
      AllAt(c, r.c, env, c.table[k]);
    }
    if r.victim != Null { LinkedHere(c, r.victim); }
    if k in r.c.table { TableHere(r.c, k); }
  }
}
