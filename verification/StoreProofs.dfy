// Every step of the store keeps its invariant, and no step gives a linked item another value without a new cas id.
module StoreProofs {
  import opened Memory
  import opened Linkage
  import opened CacheSpec
  import opened LruPull
  import opened LruPullProofs
  import opened Store

  ghost predicate AllTraced(c: Cache, c1: Cache, s: Ptr) { c1.casId >= c.casId && forall p :: Traced(c, c1, s, p) }

  // What each step is shown to do.
  ghost predicate StepOk(w: World, w1: World, s: Ptr) {
    Inv(w1) && (w.env.useCas ==> AllTraced(w.c, w1.c, s)) && w1.env.useCas == w.env.useCas
  }

  // Only item p and its stamp are written.
  lemma TraceOne(c: Cache, c1: Cache, s: Ptr, p: Ptr)
    requires c1.casId >= c.casId && Traced(c, c1, s, p)
    requires forall x :: x != p && x in c1.mem ==>
      x in c.mem && c1.mem[x] == c.mem[x] && StampOf(c1.stamps, x) == StampOf(c.stamps, x)
    ensures AllTraced(c, c1, s)
  {
  }

  lemma CasOkEdit(c: Cache, c1: Cache, env: Env, p: Ptr)
    requires CasOk(c, env)
    requires forall x :: x != p && x in c1.mem ==>
      x in c.mem && c1.mem[x] == c.mem[x] && StampOf(c1.stamps, x) == StampOf(c.stamps, x)
    requires p in c1.mem && (FilledIn(c1.mem, p) ==> c1.mem[p].flags.cas == env.useCas)
    requires env.useCas && LinkedIn(c1.mem, p) ==> StampOf(c1.stamps, p).cas > 0
    ensures CasOk(c1, env)
  {
  }

  lemma TimelyEdit(c: Cache, c1: Cache, env: Env, p: Ptr)
    requires Timely(c, env) && TimeOf(c1, p) <= env.now
    requires forall x :: x != p ==> StampOf(c1.stamps, x) == StampOf(c.stamps, x)
    ensures Timely(c1, env)
  {
    forall x ensures TimeOf(c1, x) <= env.now { assert TimeOf(c, x) <= env.now; }
  }

  lemma BusyKept(c: Cache, c1: Cache, busy: map<Ptr, Intent>)
    requires BusyOk(c, busy) && forall p :: p in busy && LinkedIn(c.mem, p) ==> LinkedIn(c1.mem, p)
    ensures BusyOk(c1, busy)
  {
  }

  lemma TimeAt(c: Cache, env: Env, p: Ptr)
    requires Timely(c, env)
    ensures TimeOf(c, p) <= env.now
  {
  }

  lemma TickOk(w: World, a: Step)
    requires Inv(w) && Enabled(w, a) && a.STick?
    ensures StepOk(w, Apply(w, a), Stamped(a))
  {
    hide Coherent, BusyOk, AllTraced;
    SameTraced(w.c);
    forall p ensures TimeOf(w.c, p) <= w.env.now + a.seconds { TimeAt(w.c, w.env, p); }
  }

  lemma FillOk(w: World, a: Step)
    requires Inv(w) && Enabled(w, a) && a.SFill?
    ensures StepOk(w, Apply(w, a), Stamped(a))
  {
    hide Coherent, Timely, CasOk, AllTraced;
    var c1 := Edit(w.c, a.p, a.it);
    FillCoherent(w.c, a.p, a.it);
    CasOkEdit(w.c, c1, w.env, a.p);
    TimeAt(w.c, w.env, a.p);
    TimelyEdit(w.c, c1, w.env, a.p);
    TraceOne(w.c, c1, Null, a.p);
  }

  lemma FillCoherent(c: Cache, p: Ptr, it: Item)
    requires Coherent(c) && p.Chunk? && !LinkedIn(c.mem, p) && !it.flags.linked
    ensures Coherent(Edit(c, p, it))
  {
    hide TableOk, QueuedOk, QueuesOnce;
    KeptTable(c.mem, c.table, p, it);
    KeptQueue(c.mem, c.lru, p, it);
  }

  lemma CasFacts(c: Cache, env: Env, p: Ptr)
    requires CasOk(c, env)
    ensures FilledIn(c.mem, p) ==> c.mem[p].flags.cas == env.useCas
    ensures env.useCas && LinkedIn(c.mem, p) ==> StampOf(c.stamps, p).cas > 0
  {
  }

  // An item keeps its link, stamp and value, whatever else of it changes.
  ghost predicate Minor(c: Cache, c1: Cache, env: Env, p: Ptr) {
    && p in c.mem && p in c1.mem && c1.casId == c.casId && Coherent(c1)
    && (forall x :: x != p && x in c1.mem ==> x in c.mem && c1.mem[x] == c.mem[x])
    && (forall x :: x != p ==> StampOf(c1.stamps, x) == StampOf(c.stamps, x))
    && StampOf(c1.stamps, p).cas == StampOf(c.stamps, p).cas && TimeOf(c, p) <= TimeOf(c1, p) <= env.now
    && (!c1.mem[p].flags.slabbed ==>
          !c.mem[p].flags.slabbed && c1.mem[p].flags.cas == c.mem[p].flags.cas && c1.mem[p].clsid == c.mem[p].clsid)
    && (c1.mem[p].flags.linked ==>
          && c.mem[p].flags.linked && c1.mem[p].key == c.mem[p].key && !c1.mem[p].flags.slabbed
          && c1.mem[p].content.data == c.mem[p].content.data
              && c1.mem[p].content.clientFlags == c.mem[p].content.clientFlags)
  }

  lemma MinorOk(w: World, c1: Cache, s: Ptr, p: Ptr)
    requires Inv(w) && Minor(w.c, c1, w.env, p)
    requires p in w.busy ==> LinkedIn(c1.mem, p)
    requires forall x :: LinkedIn(w.c.mem, x) && x != p ==> x in c1.mem
    ensures Inv(w.(c := c1)) && AllTraced(w.c, c1, s)
  {
    hide Coherent, Timely, CasOk, AllTraced;
    CasFacts(w.c, w.env, p);
    CasOkEdit(w.c, c1, w.env, p);
    TimelyEdit(w.c, c1, w.env, p);
    TraceOne(w.c, c1, s, p);
    BusyKept(w.c, c1, w.busy);
  }

  lemma GoneMinor(c: Cache, env: Env, p: Ptr)
    requires Coherent(c) && Timely(c, env) && LinkedIn(c.mem, p)
    ensures Usable(c, p) && Minor(c, Gone(c, p), env, p) && Gone(c, p).mem.Keys == c.mem.Keys
  {
    hide Coherent, Timely, Gone;
    LinkedHere(c, p);
    TimeAt(c, env, p);
    GoneCoherent(c, p);
    GoneEffect(c, p);
    GoneKeeps(c, p);
  }

  lemma GoneKeeps(c: Cache, p: Ptr)
    requires Usable(c, p) && !c.mem[p].flags.slabbed
    ensures var n := Gone(c, p).mem[p];
      !n.flags.slabbed ==> n.flags.cas == c.mem[p].flags.cas && n.clsid == c.mem[p].clsid
  {
    hide EraseQueue;
  }

  lemma EditMinor(c: Cache, env: Env, p: Ptr, n: Item)
    requires Coherent(c) && Timely(c, env) && p in c.mem && SameLinks(c.mem[p], n) && n.refcount > 0
        && n.flags.cas == c.mem[p].flags.cas
    requires n.content.data == c.mem[p].content.data && n.content.clientFlags == c.mem[p].content.clientFlags
    ensures Minor(c, Edit(c, p, n), env, p)
  {
    EditCoherent(c, p, n);
    TimeAt(c, env, p);
    if n.flags.linked { LinkedHere(c, p); }
    hide Coherent, Timely;
  }

  lemma GetOk(w: World, a: Step)
    requires Inv(w) && Enabled(w, a) && a.SGet?
    ensures StepOk(w, Apply(w, a), Stamped(a))
  {
    hide Coherent, Timely, CasOk, Flushed, Drop, Unlink, AllTraced, Minor;
    if a.key in w.c.table {
      var p := w.c.table[a.key];
      TableHere(w.c, a.key);
      var it := w.c.mem[p];
      GoneMinor(w.c, w.env, p);
      EditMinor(w.c, w.env, p, it.(refcount := it.refcount + 1, flags := it.flags.(fetched := true, active := true)));
      MinorOk(w, Get(w.c, w.env, a.key).0, Null, p);
    } else {
      SameTraced(w.c);
    }
  }

  lemma BeginOk(w: World, a: Step)
    requires Inv(w) && Enabled(w, a) && a.SBegin?
    ensures StepOk(w, Apply(w, a), Stamped(a))
  {
    hide Coherent, Timely, CasOk, Flushed, AllTraced, Minor, BusyOk;
    var p := w.c.table[a.key];
    var it := w.c.mem[p];
    EditMinor(w.c, w.env, p, it.(refcount := it.refcount + 1, flags := it.flags.(fetched := true, active := true)));
    var c1 := Get(w.c, w.env, a.key).0;
    MinorOk(w, c1, Null, p);
    BusyMore(c1, w.busy, p, a.intent);
  }

  lemma BusyMore(c: Cache, busy: map<Ptr, Intent>, p: Ptr, intent: Intent)
    requires BusyOk(c, busy) && LinkedIn(c.mem, p)
    ensures BusyOk(c, busy[p := intent])
  {
  }

  lemma SameTraced(c: Cache)
    ensures AllTraced(c, c, Null)
  {
  }

  lemma UnlinkMinor(c: Cache, env: Env, p: Ptr)
    requires Coherent(c) && Timely(c, env) && LinkedIn(c.mem, p)
    ensures Usable(c, p) && Minor(c, Unlink(c, p), env, p) && Unlink(c, p).mem.Keys == c.mem.Keys
    ensures !LinkedIn(Unlink(c, p).mem, p) && Unlink(c, p).table == c.table - {c.mem[p].key}
    ensures Unlink(c, p).stamps == c.stamps && Unlink(c, p).lru == EraseQueue(c.lru, c.mem[p].Home(), p)
  {
    hide Coherent, Timely, Unlink, EraseQueue;
    LinkedHere(c, p);
    TimeAt(c, env, p);
    UnlinkCoherent(c, p);
    UnlinkEffect(c, p);
  }

  lemma UnlinkEffect(c: Cache, p: Ptr)
    requires Usable(c, p) && !c.mem[p].flags.slabbed
    ensures var u := Unlink(c, p);
      && u.mem == c.mem[p := u.mem[p]] && u.stamps == c.stamps && u.casId == c.casId
          && u.table == c.table - {c.mem[p].key}
      && u.lru == EraseQueue(c.lru, c.mem[p].Home(), p) && !u.mem[p].flags.linked
      && (!u.mem[p].flags.slabbed ==> u.mem[p].flags.cas == c.mem[p].flags.cas && u.mem[p].clsid == c.mem[p].clsid)
  {
    hide EraseQueue;
  }

  lemma UnlinkOk(w: World, a: Step)
    requires Inv(w) && Enabled(w, a) && a.SUnlink?
    ensures StepOk(w, Apply(w, a), Stamped(a))
  {
    hide Coherent, Timely, CasOk, Unlink, AllTraced, Minor;
    UnlinkMinor(w.c, w.env, a.p);
    MinorOk(w, Unlink(w.c, a.p), Null, a.p);
  }

  lemma DropOk(w: World, a: Step)
    requires Inv(w) && Enabled(w, a) && a.SDrop?
    ensures StepOk(w, Apply(w, a), Stamped(a))
  {
    hide Coherent, Timely, CasOk, AllTraced;
    TimeAt(w.c, w.env, a.p);
    DropCoherent(w.c, a.p);
    hide Others;
    assert Minor(w.c, Drop(w.c, a.p), w.env, a.p);
    hide Minor;
    MinorOk(w, Drop(w.c, a.p), Null, a.p);
  }

  lemma TouchOk(w: World, a: Step)
    requires Inv(w) && Enabled(w, a) && a.STouch?
    ensures StepOk(w, Apply(w, a), Stamped(a))
  {
    hide Coherent, Timely, CasOk, AllTraced, Minor;
    LinkedHere(w.c, a.p);
    var it := w.c.mem[a.p];
    EditMinor(w.c, w.env, a.p, it.(content := it.content.(exptime := a.exptime)));
    MinorOk(w, Edit(w.c, a.p, it.(content := it.content.(exptime := a.exptime))), Null, a.p);
  }

  lemma CopyCasOk(w: World, a: Step)
    requires Inv(w) && Enabled(w, a) && a.SCopyCas?
    ensures StepOk(w, Apply(w, a), Stamped(a))
  {
    hide Coherent, Timely, CasOk, AllTraced;
    var c1 := CopyCas(w.c, a.p, a.q);
    CasFacts(w.c, w.env, a.p);
    CasAtMost(w.c, a.q);
    StampCoherent(w.c, a.p, StampOf(w.c.stamps, a.p).(cas := CasOf(w.c, a.q)));
    CasOkEdit(w.c, c1, w.env, a.p);
    TimeAt(w.c, w.env, a.p);
    TimelyEdit(w.c, c1, w.env, a.p);
    TraceOne(w.c, c1, Null, a.p);
  }

  lemma CasAtMost(c: Cache, p: Ptr)
    requires Coherent(c)
    ensures CasOf(c, p) <= c.casId
  {
    hide TableOk, QueuedOk, QueuesOnce, LinkedOk, RefsOk;
  }

  lemma CrawlOk(w: World, a: Step)
    requires Inv(w) && Enabled(w, a) && a.SCrawl?
    ensures StepOk(w, Apply(w, a), Stamped(a))
  {
    hide Coherent, Timely, CasOk, Gone, Dead, AllTraced, Minor;
    GoneMinor(w.c, w.env, a.p);
    if Dead(w.c, w.env, a.p) { MinorOk(w, Gone(w.c, a.p), Null, a.p); } else { SameTraced(w.c); }
  }

  // do_item_update moves an item and its time forward.
  lemma UpdateMinor(c: Cache, env: Env, p: Ptr)
    requires Coherent(c) && Timely(c, env) && LinkedIn(c.mem, p)
    ensures Minor(c, Update(c, env, p), env, p) && Update(c, env, p).mem.Keys == c.mem.Keys
    ensures LinkedIn(Update(c, env, p).mem, p) && Update(c, env, p).table == c.table
    ensures Update(c, env, p).mem[p].content == c.mem[p].content
  {
    LinkedHere(c, p);
    TimeAt(c, env, p);
    if Stale(env, TimeOf(c, p)) && !env.maintainer {
      RequeueCoherent(c, p, c.mem[p].seg, env.now);
      RequeueEffect(c, p, c.mem[p].seg, env.now);
      hide Coherent, Requeue, Timely;
    } else if Stale(env, TimeOf(c, p)) {
      StampCoherent(c, p, StampOf(c.stamps, p).(time := env.now));
      hide Coherent, Timely;
    }
  }

  lemma StampCoherent(c: Cache, p: Ptr, st: Stamp)
    requires Coherent(c) && st.cas <= c.casId
    ensures Coherent(c.(stamps := c.stamps[p := st]))
  {
    hide TableOk, QueuedOk, QueuesOnce;
  }

  lemma UseOk(w: World, a: Step)
    requires Inv(w) && Enabled(w, a) && a.SUse?
    ensures StepOk(w, Apply(w, a), Stamped(a))
  {
    hide Coherent, Timely, CasOk, Update, AllTraced, Minor;
    UpdateMinor(w.c, w.env, a.p);
    MinorOk(w, Update(w.c, w.env, a.p), Null, a.p);
  }

  lemma LinkOk(c: Cache, env: Env, p: Ptr)
    requires Coherent(c) && Timely(c, env) && CasOk(c, env)
    requires FilledIn(c.mem, p) && !c.mem[p].flags.linked && c.mem[p].key !in c.table
    ensures var c1 := Link(c, env, p);
      && Coherent(c1) && Timely(c1, env) && CasOk(c1, env) && c1.mem.Keys == c.mem.Keys
      && (forall x :: LinkedIn(c.mem, x) ==> LinkedIn(c1.mem, x))
      && (env.useCas ==> AllTraced(c, c1, p))
  {
    hide Coherent, Timely, PushQueue;
    LinkCoherent(c, env, p);
    CasFacts(c, env, p);
    hide CasOk;
    var c1 := Link(c, env, p);
    CasOkEdit(c, c1, env, p);
    TimelyEdit(c, c1, env, p);
    if env.useCas { TraceOne(c, c1, p, p); }
  }

  lemma LinkStepOk(w: World, a: Step)
    requires Inv(w) && Enabled(w, a) && a.SLink?
    ensures StepOk(w, Apply(w, a), Stamped(a))
  {
    hide Coherent, Timely, CasOk, Link, AllTraced;
    LinkOk(w.c, w.env, a.p);
    BusyKept(w.c, Link(w.c, w.env, a.p), w.busy);
  }

  // ---- the tail puller ----

  lemma PullTraced(c: Cache, env: Env, o: Oracle, call: Call, r: Turn)
    requires Coherent(c) && PullOk(c, env, o, call, TRIES, r)
    ensures AllTraced(c, r.c, Null)
  {
    hide Coherent, Timely, TableShrinks, OwnKept, VictimOk, AllKept, QueueIn;
    forall p ensures Traced(c, r.c, Null, p) {
      if LinkedIn(r.c.mem, p) {
        LinkedHere(r.c, p);
        AllAt(c, r.c, env, p);
        hide ItemKept;
        TracedFrom(c, r.c, env, p);
      }
    }
  }

  lemma TracedFrom(c: Cache, c1: Cache, env: Env, p: Ptr)
    requires ItemKept(c, c1, env, p) && LinkedIn(c1.mem, p) && !c1.mem[p].flags.slabbed
    ensures Traced(c, c1, Null, p)
  {
    hide Flushed, Others;
  }

  lemma PullCas(c: Cache, env: Env, o: Oracle, call: Call, r: Turn)
    requires Coherent(c) && PullOk(c, env, o, call, TRIES, r) && CasOk(c, env)
    ensures CasOk(r.c, env)
  {
    hide Coherent, Timely, TableShrinks, OwnKept, VictimOk, AllKept, QueueIn, CasOk;
    forall p | p in r.c.mem
      ensures FilledIn(r.c.mem, p) ==> r.c.mem[p].flags.cas == env.useCas
      ensures env.useCas && LinkedIn(r.c.mem, p) ==> StampOf(r.c.stamps, p).cas > 0
    {
      AllAt(c, r.c, env, p);
      if LinkedIn(r.c.mem, p) { LinkedHere(r.c, p); }
      if LinkedIn(c.mem, p) { LinkedHere(c, p); }
      hide AllKept;
      PullCasAt(c, r.c, env, p);
    }
    CasFrom(r.c, env);
  }

  lemma CasFrom(c: Cache, env: Env)
    requires forall p :: FilledIn(c.mem, p) ==> c.mem[p].flags.cas == env.useCas
    requires forall p :: env.useCas && LinkedIn(c.mem, p) ==> StampOf(c.stamps, p).cas > 0
    ensures CasOk(c, env)
  {
  }

  lemma PullCasAt(c: Cache, c1: Cache, env: Env, p: Ptr)
    requires ItemKept(c, c1, env, p) && CasOk(c, env)
    requires LinkedIn(c1.mem, p) ==> !c1.mem[p].flags.slabbed
    requires if LinkedIn(c.mem, p) then !c.mem[p].flags.slabbed && c.mem[p].clsid != 0 else c1.mem[p] == c.mem[p]
    ensures FilledIn(c1.mem, p) ==> c1.mem[p].flags.cas == env.useCas
    ensures env.useCas && LinkedIn(c1.mem, p) ==> StampOf(c1.stamps, p).cas > 0
  {
    hide Flushed, Others;
    CasFacts(c, env, p);
    hide CasOk;
  }

  lemma PullStepOk(w: World, a: Step)
    requires Inv(w) && Enabled(w, a) && a.SPull?
    ensures StepOk(w, Apply(w, a), Stamped(a))
  {
    hide Coherent, Timely, CasOk, PullTail, AllTraced, PullOk;
    var r := PullTail(w.c, w.env, a.o, a.call);
    PullTailOk(w.c, w.env, a.o, a.call);
    PullCoherent(w.c, w.env, a.o, a.call, TRIES, r);
    PullTraced(w.c, w.env, a.o, a.call, r);
    PullCas(w.c, w.env, a.o, a.call, r);
    forall p | p in w.busy ensures LinkedIn(r.c.mem, p) { PullBusy(w.c, w.env, a.o, a.call, r, p); }
    hide Apply;
  }

  lemma PullBusy(c: Cache, env: Env, o: Oracle, call: Call, r: Turn, p: Ptr)
    requires PullOk(c, env, o, call, TRIES, r) && OffLimits(c, o, call, p)
    ensures LinkedIn(r.c.mem, p) && r.c.mem[p] == c.mem[p] && StampOf(r.c.stamps, p) == StampOf(c.stamps, p)
  {
    hide Coherent, Timely, TableShrinks, VictimOk, AllKept, QueueIn;
  }

  // ---- operations that had looked at item_is_flushed ----

  lemma BusyLinked(c: Cache, busy: map<Ptr, Intent>, p: Ptr)
    requires BusyOk(c, busy) && p in busy
    ensures LinkedIn(c.mem, p)
  {
  }

  lemma OverwriteOk(c: Cache, env: Env, p: Ptr, data: string)
    requires Coherent(c) && Timely(c, env) && CasOk(c, env) && LinkedIn(c.mem, p)
    ensures var c1 := Overwrite(c, env, p, data);
      && Coherent(c1) && Timely(c1, env) && CasOk(c1, env) && c1.mem.Keys == c.mem.Keys && LinkedIn(c1.mem, p)
      && (forall x :: x != p && x in c1.mem ==> c1.mem[x] == c.mem[x])
      && (env.useCas ==> AllTraced(c, c1, p) && CasOf(c1, p) == c.casId + 1)
  {
    hide Coherent, Timely, AllTraced;
    LinkedHere(c, p);
    CasFacts(c, env, p);
    TimeAt(c, env, p);
    hide CasOk;
    var c1 := Overwrite(c, env, p, data);
    OverwriteCoherent(c, env, p, data);
    CasOkEdit(c, c1, env, p);
    TimelyEdit(c, c1, env, p);
    if env.useCas { TraceOne(c, c1, p, p); }
  }

  lemma OverwriteCoherent(c: Cache, env: Env, p: Ptr, data: string)
    requires Coherent(c) && LinkedIn(c.mem, p)
    ensures Coherent(Overwrite(c, env, p, data))
  {
    hide TableOk, QueuedOk, QueuesOnce;
    var it := c.mem[p];
    EditCoherent(c, p, it.(content := it.content.(data := data)));
  }

  lemma TracedTwice(c: Cache, c1: Cache, c2: Cache, s: Ptr)
    requires AllTraced(c, c1, s) && AllTraced(c1, c2, s)
    ensures AllTraced(c, c2, s)
  {
    forall p ensures Traced(c, c2, s, p) { assert Traced(c, c1, s, p) && Traced(c1, c2, s, p); }
  }

  lemma RewriteOk(w: World, a: Step)
    requires Inv(w) && Enabled(w, a) && a.SRewrite?
    ensures StepOk(w, Apply(w, a), Stamped(a))
  {
    hide Coherent, Timely, Update, AllTraced, Minor, BusyOk, CasOk, Overwrite;
    BusyLinked(w.c, w.busy, a.p);
    var c1 := Overwrite(w.c, w.env, a.p, a.data);
    OverwriteOk(w.c, w.env, a.p, a.data);
    BusyKept(w.c, c1, w.busy);
    UpdateMinor(c1, w.env, a.p);
    MinorOk(w.(c := c1), Update(c1, w.env, a.p), a.p, a.p);
    if w.env.useCas { TracedTwice(w.c, c1, Update(c1, w.env, a.p), a.p); }
    BusyLess(Update(c1, w.env, a.p), w.busy, a.p);
  }

  lemma BusyLess(c: Cache, busy: map<Ptr, Intent>, p: Ptr)
    requires BusyOk(c, busy)
    ensures BusyOk(c, busy - {p})
  {
  }

  lemma RescueOk(w: World, a: Step)
    requires Inv(w) && Enabled(w, a) && (a.SRescue? || a.SReplace?)
    ensures StepOk(w, Apply(w, a), Stamped(a))
  {
    hide Coherent, Timely, AllTraced, Minor, BusyOk, CasOk, Unlink, Link;
    var c, env := w.c, w.env;
    BusyLinked(c, w.busy, a.p);
    LinkedHere(c, a.p);
    UnlinkMinor(c, env, a.p);
    var c1 := Unlink(c, a.p);
    UnlinkFrame(c, a.p);
    MinorOk(w.(busy := map[]), c1, a.q, a.p) by { NoneBusy(c); }
    LinkOk(c1, env, a.q);
    if env.useCas { TracedTwice(c, c1, Link(c1, env, a.q), a.q); }
    BusyRest(c, Link(c1, env, a.q), w.busy, a.p);
  }

  lemma NoneBusy(c: Cache)
    ensures BusyOk(c, map[])
  {
  }

  lemma UnlinkFrame(c: Cache, p: Ptr)
    requires Usable(c, p) && !c.mem[p].flags.slabbed
    ensures forall x :: x != p && x in c.mem ==> x in Unlink(c, p).mem && Unlink(c, p).mem[x] == c.mem[x]
  {
    hide Unlink;
    UnlinkEffect(c, p);
  }

  lemma BusyRest(c: Cache, c1: Cache, busy: map<Ptr, Intent>, p: Ptr)
    requires BusyOk(c, busy) && forall x :: x != p && LinkedIn(c.mem, x) ==> LinkedIn(c1.mem, x)
    ensures BusyOk(c1, busy - {p})
  {
  }

  predicate InFlush(a: Step) { a.SFlushLive? || a.SFlushId? || a.SFlushCas? || a.SFlushLater? }

  lemma FlushOk(w: World, a: Step)
    requires Inv(w) && Enabled(w, a) && InFlush(a)
    ensures StepOk(w, Apply(w, a), Stamped(a))
  {
    hide Coherent, Timely, CasOk, AllTraced, BusyOk;
    var w1 := Apply(w, a);
    FlushSame(w, w1);
    SameItemsTraced(w.c, w1.c);
    BusyKept(w.c, w1.c, w.busy);
  }

  lemma FlushSame(w: World, w1: World)
    requires Coherent(w.c) && Timely(w.c, w.env) && CasOk(w.c, w.env)
    requires w1.c == w.c.(casId := w1.c.casId) && w1.c.casId >= w.c.casId && w1.env.now == w.env.now
        && w1.env.useCas == w.env.useCas
    ensures Coherent(w1.c) && Timely(w1.c, w1.env) && CasOk(w1.c, w1.env)
  {
    hide TableOk, QueuedOk, QueuesOnce, LinkedOk, RefsOk;
    forall p ensures TimeOf(w1.c, p) <= w1.env.now { TimeAt(w.c, w.env, p); }
  }

  lemma SameItemsTraced(c: Cache, c1: Cache)
    requires c1.mem == c.mem && c1.stamps == c.stamps && c1.casId >= c.casId
    ensures AllTraced(c, c1, Null)
  {
  }

  lemma HandsOk(w: World, a: Step)
    requires Inv(w) && Enabled(w, a) && (a.SCheck? || a.SAbandon?)
    ensures StepOk(w, Apply(w, a), Stamped(a))
  {
    hide Coherent, Timely, AllTraced, CasOk, Flushed, BusyOk;
    SameTraced(w.c);
    HandsBusy(w.c, w.busy, a);
    var w1 := Apply(w, a);
    assert w1.c == w.c && w1.env == w.env;
  }

  lemma HandsBusy(c: Cache, busy: map<Ptr, Intent>, a: Step)
    requires BusyOk(c, busy)
    ensures a.SCheck? && LinkedIn(c.mem, a.p) ==> BusyOk(c, busy[a.p := Rescuing])
    ensures a.SAbandon? ==> BusyOk(c, busy - {a.p})
  {
  }

  lemma EachStepOk(w: World, a: Step)
    requires Inv(w) && Enabled(w, a)
    ensures w.env.now > 0 && StepOk(w, Apply(w, a), Stamped(a))
  {
    assert w.env.now >= 2;
    hide Inv, Enabled, Apply, StepOk;
    match a {
      case STick(_) => TickOk(w, a);
      case SFill(_, _) => FillOk(w, a);
      case SLink(_) => LinkStepOk(w, a);
      case SGet(_) => GetOk(w, a);
      case SUse(_) => UseOk(w, a);
      case SUnlink(_) => UnlinkOk(w, a);
      case SDrop(_) => DropOk(w, a);
      case STouch(_, _) => TouchOk(w, a);
      case SCopyCas(_, _) => CopyCasOk(w, a);
      case SPull(_, _) => PullStepOk(w, a);
      case SCrawl(_) => CrawlOk(w, a);
      case SCheck(_) => HandsOk(w, a);
      case SBegin(_, _) => BeginOk(w, a);
      case SRewrite(_, _) => RewriteOk(w, a);
      case SRescue(_, _) => RescueOk(w, a);
      case SReplace(_, _) => RescueOk(w, a);
      case SAbandon(_) => HandsOk(w, a);
      case _ => FlushOk(w, a);
    }
  }

  lemma InitialInv(w: World)
    requires Initial(w)
    ensures Inv(w)
  {
  }

  lemma {:induction false} RunInv(run: seq<World>, steps: seq<Step>, n: nat)
    requires IsRun(run, steps) && n < |run|
    ensures Inv(run[n])
  {
    hide Inv, Apply, Enabled, Initial, AllTraced;
    if n == 0 {
      InitialInv(run[0]);
    } else {
      RunInv(run, steps, n - 1);
      EachStepOk(run[n - 1], steps[n - 1]);
    }
  }
}
