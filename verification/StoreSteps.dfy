// The storage commands are made of steps of the store: what is proved of all its runs holds while they run.
module StoreSteps {
  import opened Memory
  import opened Linkage
  import opened CacheSpec
  import opened LruPull
  import opened LruPullProofs
  import opened Decimal
  import opened Store
  import opened StoreProofs
  import opened StoreTheorems
  import opened StoreRuns
  import opened StoreCommand
  import opened StoreCommandProofs
  import opened StoreRefines
  import opened StoreDelta

  ghost predicate Goes(w: World, z: World) { exists steps :: Runs(w, steps, z) }

  // Some steps later: the cache, where each value comes from, and the settings and locks as before.
  ghost predicate Leads(w: World, c: Cache, origin: map<Ptr, nat>, z: World) {
    z.c == c && z.origin == origin && z.env == w.env && z.busy == w.busy && Goes(w, z)
  }

  lemma Nothing(w: World)
    ensures Leads(w, w.c, w.origin, w)
  {
    assert Runs(w, [], w);
  }

  lemma Onward(w: World, x: World, z: World)
    requires Goes(w, x) && Goes(x, z)
    ensures Goes(w, z)
  {
    hide Runs;
    var s :| Runs(w, s, x);
    var t :| Runs(x, t, z);
    RunsOn(w, s, x, t, z);
  }

  lemma Then(w: World, x: World, c: Cache, origin: map<Ptr, nat>, z: World)
    requires Goes(w, x) && x.env == w.env && x.busy == w.busy && Leads(x, c, origin, z)
    ensures Leads(w, c, origin, z)
  {
    hide Goes;
    Onward(w, x, z);
  }

  lemma OneStep(w: World, a: Step) returns (z: World)
    requires w.env.now > 0 && Enabled(w, a)
    ensures z == Apply(w, a) && Goes(w, z)
  {
    hide Enabled, Apply, Runs;
    z := Apply(w, a);
    RunsOne(w, a);
  }

  lemma GoesInv(w: World, z: World)
    requires Inv(w) && Goes(w, z)
    ensures Inv(z) && Sound(z.c, z.env) && z.env.now > 0
  {
    hide Runs, Coherent, Timely, CasOk, BusyOk;
    var s :| Runs(w, s, z);
    RunsInv(w, s, z);
  }

  lemma LeadsInv(w: World, c: Cache, origin: map<Ptr, nat>, z: World)
    requires Inv(w) && Leads(w, c, origin, z)
    ensures Inv(z) && Sound(z.c, z.env) && z.env.now > 0
    ensures z.c == c && z.origin == origin && z.env == w.env && z.busy == w.busy && Goes(w, z)
  {
    hide Goes, Inv, Sound;
    GoesInv(w, z);
  }

  // ---- the parts of a command ----

  // No other thread holds the lock of this item.
  predicate Ours(w: World, p: Ptr) { p !in w.busy }

  lemma GetSteps(w: World, key: Key) returns (z: World)
    requires w.env.now > 0 && (key in w.c.table ==> Ours(w, w.c.table[key]) && Usable(w.c, w.c.table[key]))
    ensures Leads(w, Get(w.c, w.env, key).0, w.origin, z)
  {
    hide Goes, Get;
    z := OneStep(w, SGet(key));
  }

  // do_item_get by a command that will build on what it finds.
  lemma BeginSteps(w: World, key: Key, intent: Intent) returns (z: World)
    requires w.env.now > 0 && intent != Rescuing && key in w.c.table && LinkedIn(w.c.mem, w.c.table[key])
    requires Ours(w, w.c.table[key]) && Usable(w.c, w.c.table[key]) && Alive(w.c, w.env, w.c.table[key])
    requires intent == Counting ==> w.c.mem[w.c.table[key]].refcount == 1
    ensures Goes(w, z) && z == w.(c := Get(w.c, w.env, key).0, busy := w.busy[w.c.table[key] := intent])
  {
    hide Goes, Get, Alive;
    z := OneStep(w, SBegin(key, intent));
  }

  lemma UseSteps(w: World, p: Ptr) returns (z: World)
    requires w.env.now > 0 && Ours(w, p) && LinkedIn(w.c.mem, p)
    ensures Leads(w, Update(w.c, w.env, p), w.origin, z)
  {
    hide Goes, Update;
    z := OneStep(w, SUse(p));
  }

  lemma ReleaseSteps(w: World, p: Ptr) returns (z: World)
    requires w.env.now > 0 && Ours(w, p) && p in w.c.mem && !w.c.mem[p].flags.slabbed && Others(w.c.mem, p) > 0
    ensures Leads(w, Release(w.c, p), w.origin, z)
  {
    hide Goes, Drop;
    z := OneStep(w, SDrop(p));
  }

  lemma LinkSteps(w: World, p: Ptr) returns (z: World)
    requires w.env.now > 0 && Unlinked(w, p) && w.c.mem[p].key !in w.c.table
    ensures Leads(w, Link(w.c, w.env, p), w.origin[p := NextId(w.env, w.c)], z)
  {
    hide Goes, Link;
    z := OneStep(w, SLink(p));
  }

  lemma SwapSteps(w: World, p: Ptr, q: Ptr) returns (z: World)
    requires Sound(w.c, w.env) && Ours(w, p) && LinkedIn(w.c.mem, p) && q != p
    requires Unlinked(w, q) && w.c.mem[q].key == w.c.mem[p].key
    ensures Leads(w, SwapIn(w.c, w.env, p, q), w.origin[q := NextId(w.env, w.c)], z)
  {
    hide Goes, Link, Coherent, Timely, CasOk;
    UnlinkKeeps(w.c, w.env, p);
    UnlinkTouches(w.c, p, q);
    hide Unlink;
    var x := OneStep(w, SUnlink(p));
    z := LinkSteps(x, q);
    SwapIs(w.c, w.env, p, q);
    Then(w, x, z.c, z.origin, z);
  }

  lemma SwapIs(c: Cache, env: Env, p: Ptr, q: Ptr)
    requires Usable(c, p) && q in c.mem
    ensures q in Unlink(c, p).mem
        && SwapIn(c, env, p, q) == Link(Unlink(c, p), env, q) == CacheSpec.Replace(c, env, p, q)
  {
  }

  lemma UnlinkTouches(c: Cache, p: Ptr, q: Ptr)
    requires Usable(c, p) && q in c.mem && q != p
    ensures q in Unlink(c, p).mem && Unlink(c, p).mem[q] == c.mem[q] && Unlink(c, p).table == c.table - {c.mem[p].key}
  {
    hide EraseQueue;
  }

  // ---- do_item_alloc ----

  // The tail puller never gets a lock another thread holds, nor looks at the item whose key we work on.
  ghost predicate Granted(w: World, k: Want, s: Supply, own: Ptr) {
    && (forall p, i: nat, tries: nat :: p in w.busy && p != own ==> !s.locks(i)(tries, p))
    && (own in w.busy ==> LinkedIn(w.c.mem, own) && k.h(w.c.mem[own].key) == k.hv)
  }

  lemma PullSteps(w: World, k: Want, s: Supply, own: Ptr, i: nat, seg: Segment, evict: bool) returns (z: World)
    requires Inv(w) && Granted(w, k, s, own) && (!w.env.maintainer ==> seg == Cold)
    ensures Leads(w, PullFor(w.c, w.env, k, s, i, seg, evict), w.origin, z) && Inv(z) && Granted(z, k, s, own)
  {
    hide Goes, PullTail, Inv, PullOk, LinkedIn;
    BusyAll(w);
    var total := if w.env.maintainer then s.total(i) else 0;
    var o, call := Oracle(k.h, s.locks(i)), Call(Queue(k.clsid, seg), Limit(w.env, total), evict, k.hv);
    forall p | p in w.busy ensures OffLimits(w.c, o, call, p) {}
    z := OneStep(w, SPull(o, call));
    EachStepOk(w, SPull(o, call));
    if own in w.busy { PullOwn(w, o, call, own); }
  }

  lemma BusyAll(w: World)
    requires Inv(w)
    ensures w.env.now > 0 && forall p :: p in w.busy ==> LinkedIn(w.c.mem, p)
  {
    hide Coherent, Timely, CasOk;
  }

  lemma InvSound(w: World)
    requires Inv(w)
    ensures Sound(w.c, w.env) && w.env.now > 0
  {
  }

  lemma PullOwn(w: World, o: Oracle, call: Call, p: Ptr)
    requires Inv(w) && LinkedIn(w.c.mem, p) && OffLimits(w.c, o, call, p)
    ensures var c1 := PullTail(w.c, w.env, o, call).c; LinkedIn(c1.mem, p) && c1.mem[p] == w.c.mem[p]
  {
    hide PullTail, Coherent, Timely, CasOk, BusyOk, PullOk, OffLimits;
    PullTailOk(w.c, w.env, o, call);
    PullBusy(w.c, w.env, o, call, PullTail(w.c, w.env, o, call), p);
  }

  lemma PullAll(w: World, k: Want, s: Supply, own: Ptr, i: nat) returns (z: World)
    requires Inv(w) && Granted(w, k, s, own) && w.env.maintainer
    ensures var c2 := PullFor(w.c, w.env, k, s, 4 * i + 1, Hot, false);
      var c3 := PullFor(c2, w.env, k, s, 4 * i + 2, Warm, false);
      Leads(w, PullFor(c3, w.env, k, s, 4 * i + 3, Cold, true), w.origin, z) && Inv(z) && Granted(z, k, s, own)
  {
    hide PullFor, Goes, Inv, Granted;
    var x := PullSteps(w, k, s, own, 4 * i + 1, Hot, false);
    var y := PullSteps(x, k, s, own, 4 * i + 2, Warm, false);
    z := PullSteps(y, k, s, own, 4 * i + 3, Cold, true);
    Then(x, y, z.c, z.origin, z);
    Then(w, x, z.c, z.origin, z);
  }

  lemma {:induction false} TrySteps(w: World, k: Want, s: Supply, own: Ptr, i: nat) returns (z: World)
    requires Inv(w) && Granted(w, k, s, own)
    ensures Leads(w, AllocTry(w.c, w.env, k, s, i).0, w.origin, z) && Inv(z) && Granted(z, k, s, own)
    decreases ALLOC_TRIES - i
  {
    hide Granted, PullFor, Goes, Spare, Inv;
    Nothing(w);
    if i >= ALLOC_TRIES {
      z := w;
    } else {
      var x := w;
      if !w.env.maintainer { x := PullSteps(w, k, s, own, 4 * i, Cold, false); }
      if Spare(x.c, s.chunk(i)) {
        z := x;
      } else {
        var y: World;
        if w.env.maintainer {
          y := PullAll(x, k, s, own, i);
        } else {
          y := PullSteps(x, k, s, own, 4 * i + 1, Cold, true);
        }
        z := TrySteps(y, k, s, own, i + 1);
        Then(x, y, z.c, z.origin, z);
        Then(w, x, z.c, z.origin, z);
      }
    }
  }

  // A new item has not been linked, wherever its chunk has been before.
  lemma AllocSteps(w: World, k: Want, s: Supply, own: Ptr, key: Key, content: Content) returns (z: World)
    requires Inv(w) && Granted(w, k, s, own)
    ensures var (c, q) := ItemAlloc(w.c, w.env, k, s, key, content);
      Leads(w, c, if q == Null then w.origin else w.origin - {q}, z)
  {
    hide Goes, Coherent, Timely, CasOk, BusyOk, AllocTry, Granted;
    if k.clsid == 0 {
      Nothing(w);
      z := w;
    } else {
      var x := TrySteps(w, k, s, own, 0);
      AllocKeeps(w.c, w.env, k, s, 0);
      hide Weaker;
      var p := AllocTry(w.c, w.env, k, s, 0).1;
      z := x;
      if p != Null {
        z := OneStep(x, SFill(p, Fresh(w.env, k, key, content)));
        Onward(w, x, z);
      }
    }
  }

  lemma UnlinkedIsOurs(w: World, p: Ptr)
    requires Inv(w) && !LinkedIn(w.c.mem, p)
    ensures Ours(w, p)
  {
    hide Coherent, Timely, CasOk;
  }

  // ---- do_store_item ----

  // Whoever runs a command on this key holds its lock.
  ghost predicate Locked(w: World, key: Key, k: Want, s: Supply) {
    && (forall p, i: nat, tries: nat :: p in w.busy ==> !s.locks(i)(tries, p)) && k.h(key) == k.hv
    && (key in w.c.table ==> Ours(w, w.c.table[key]))
  }

  lemma ReplaceSteps(w: World, p: Ptr, q: Ptr) returns (z: World)
    requires Inv(w) && Ours(w, p) && LinkedIn(w.c.mem, p) && Others(w.c.mem, p) > 0 && q != p
    requires Unlinked(w, q) && w.c.mem[q].key == w.c.mem[p].key
    ensures Leads(w, Release(SwapIn(w.c, w.env, p, q), p), w.origin[q := NextId(w.env, w.c)], z)
  {
    hide Leads, Coherent, Timely, CasOk, BusyOk, SwapIn, Release, Others, StoreCommandProofs.Holds, SameEntry;
    SwapKeeps(w.c, w.env, p, q);
    var c1 := SwapIn(w.c, w.env, p, q);
    var x := SwapSteps(w, p, q);
    LeadsInv(w, c1, w.origin[q := NextId(w.env, w.c)], x);
    z := ReleaseSteps(x, p);
    Then(w, x, Release(c1, p), x.origin, z);
  }

  // The thread has begun to build on p, and has the new item.
  lemma SucceedSteps(w: World, p: Ptr, q: Ptr) returns (z: World)
    requires Inv(w) && p in w.busy && w.busy[p] == Building && LinkedIn(w.c.mem, p) && q != p
    requires Unlinked(w, q) && w.c.mem[q].key == w.c.mem[p].key
        && w.c.mem[q].content.exptime == w.c.mem[p].content.exptime
    ensures Goes(w, z) && z.c == SwapIn(w.c, w.env, p, q) && z.origin == w.origin[q := ValueIn(w.origin, p)]
    ensures z.env == w.env && z.busy == w.busy - {p}
  {
    hide Goes, Coherent, Timely, CasOk, BusyOk, Link, Unlink;
    UnlinkKeeps(w.c, w.env, p);
    SwapIs(w.c, w.env, p, q);
    z := OneStep(w, SReplace(p, q));
  }

  lemma AbandonSteps(w: World, p: Ptr) returns (z: World)
    requires w.env.now > 0 && p in w.busy
    ensures Goes(w, z) && z == w.(busy := w.busy - {p})
  {
    hide Goes;
    z := OneStep(w, SAbandon(p));
  }

  // What building on p needs, once do_item_get has answered.
  ghost predicate UnderWay(w: World, key: Key, p: Ptr, k: Want, s: Supply) {
    && Inv(w) && Granted(w, k, s, p) && p in w.busy && w.busy[p] == Building && k.h(key) == k.hv
    && key in w.c.table && w.c.table[key] == p && LinkedIn(w.c.mem, p) && w.c.mem[p].key == key
        && Others(w.c.mem, p) > 0
  }

  // Nothing was allocated: the lock and the reference are given back.
  lemma GiveUp(w: World, p: Ptr, x: World) returns (z: World)
    requires Inv(w) && Goes(w, x) && p in x.busy && LinkedIn(x.c.mem, p) && Others(x.c.mem, p) > 0 && x.env == w.env
    ensures Goes(w, z) && z.c == Release(x.c, p) && z.origin == x.origin && z.env == w.env && z.busy == x.busy - {p}
  {
    hide Coherent, Timely, CasOk, BusyOk, Goes, Release, Others;
    GoesInv(w, x);
    SoundLinked(x.c, x.env, p);
    var y := AbandonSteps(x, p);
    Onward(w, x, y);
    z := ReleaseSteps(y, p);
    Onward(w, y, z);
  }

  lemma JoinOn(w: World, key: Key, p: Ptr, k: Want, s: Supply, content: Content) returns (z: World)
    requires UnderWay(w, key, p, k, s) && content.exptime == w.c.mem[p].content.exptime
    ensures var (c2, q) := ItemAlloc(w.c, w.env, k, s, key, content);
      && Goes(w, z) && z.env == w.env && z.busy == w.busy - {p}
      && z.c == (if q == Null then Release(c2, p) else Release(Release(SwapIn(c2, w.env, p, q), p), q))
      && z.origin == if q == Null then w.origin else w.origin[q := ValueIn(w.origin, p)]
  {
    hide Goes, Coherent, Timely, CasOk, BusyOk, SwapIn, Release, ItemAlloc, Granted, Others, AnswersLess, RefsBut;
    AllocatedOk(w.c, w.env, k, s, key, p, content);
    var x := AllocSteps(w, k, s, p, key, content);
    var (c2, q) := ItemAlloc(w.c, w.env, k, s, key, content);
    GoesInv(w, x);
    SameOthers(w.c, c2, p);
    if q == Null {
      z := GiveUp(w, p, x);
    } else {
      NewHeld(c2, w.env, p, q);
      UnlinkedIsOurs(x, q);
      var y := SucceedSteps(x, p, q);
      Onward(w, x, y);
      GoesInv(w, y);
      SwapKeeps(c2, w.env, p, q);
      var y1 := ReleaseSteps(y, p);
      Onward(w, y, y1);
      GoesInv(w, y1);
      z := ReleaseSteps(y1, q);
      Onward(w, y1, z);
      assert (w.origin - {q})[q := ValueIn(w.origin - {q}, p)] == w.origin[q := ValueIn(w.origin, p)];
    }
  }

  // Our reference on the new item outlives the replacement.
  lemma NewHeld(c: Cache, env: Env, p: Ptr, q: Ptr)
    requires Sound(c, env) && LinkedIn(c.mem, p) && Others(c.mem, p) > 0 && q != p
    requires FilledIn(c.mem, q) && !c.mem[q].flags.linked && c.mem[q].key == c.mem[p].key && Others(c.mem, q) > 0
    ensures var c1 := Release(SwapIn(c, env, p, q), p); q in c1.mem && !c1.mem[q].flags.slabbed && Others(c1.mem, q) > 0
  {
    hide Sound, SwapIn, Release, Others, SameEntry;
    SwapKeeps(c, env, p, q);
    var c1 := SwapIn(c, env, p, q);
    ReleaseKeeps(c1, env, p);
    SameOthers(c1, Release(c1, p), q);
    SoundLinked(c1, env, q);
  }

  // do_item_get has found p, which is alive, and the thread goes on to build on it.
  lemma Begun(w: World, key: Key, k: Want, s: Supply) returns (p: Ptr, x: World)
    requires Inv(w) && Locked(w, key, k, s) && Answer(w.c, w.env, key).Some?
    ensures key in w.c.table && p == w.c.table[key] && Usable(w.c, p) && Get(w.c, w.env, key).1 == p && p != Null
    ensures Goes(w, x) && x == w.(c := Get(w.c, w.env, key).0, busy := w.busy[p := Building])
    ensures UnderWay(x, key, p, k, s) && Got(w.c, x.c, w.env, key, p) && p !in w.busy
  {
    hide Goes, Coherent, Timely, CasOk, BusyOk, Answer, Get, Others, Got, Alive;
    GetGot(w.c, w.env, key);
    p := w.c.table[key];
    AnswerAlive(w.c, w.env, key);
    TableSound(w.c, w.env, key);
    x := BeginSteps(w, key, Building);
    GoesInv(w, x);
    GotFacts(w.c, x.c, w.env, key, p);
  }

  lemma AnswerAlive(c: Cache, env: Env, key: Key)
    requires Answer(c, env, key).Some?
    ensures key in c.table && Alive(c, env, c.table[key])
  {
    hide Alive;
  }

  lemma JoinSteps(w: World, it: Ptr, comm: Command, reqCas: nat, k: Want, s: Supply) returns (z: World)
    requires Inv(w) && FilledIn(w.c.mem, it) && !w.c.mem[it].flags.linked && Locked(w, w.c.mem[it].key, k, s)
        && Joins(comm)
    requires var key := w.c.mem[it].key; Answer(w.c, w.env, key).Some? && (reqCas == 0 || reqCas == Version(w.c, key))
    ensures var key := w.c.mem[it].key; key in w.c.table && Usable(w.c, w.c.table[key])
    ensures var key := w.c.mem[it].key; var (c1, r, q) := StoreItem(w.c, w.env, it, comm, reqCas, k, s);
      Leads(w, c1, if r == Stored then w.origin[q := ValueIn(w.origin, w.c.table[key])] else w.origin, z)
  {
    hide Goes, Coherent, Timely, CasOk, BusyOk, Answer, Get, Others, Got, SwapIn, Release, Update, ItemAlloc, CasOf,
        Granted, Version;
    var key := w.c.mem[it].key;
    var p, x := Begun(w, key, k, s);
    GotItem(w.c, x.c, w.env, key, p, it);
    var content := Joined(comm, ContentOf(x.c, p), ContentOf(x.c, it));
    z := JoinOn(x, key, p, k, s, content);
    Onward(w, x, z);
    assert w.busy[p := Building] - {p} == w.busy;
  }

  // Where the value of what a command has linked comes from: append and prepend have built it from the old one.
  ghost function OriginAfter(w: World, key: Key, comm: Command, r: Result, q: Ptr): map<Ptr, nat> {
    if r != Stored then w.origin
    else if Joins(comm) then w.origin[q := if key in w.c.table then ValueIn(w.origin, w.c.table[key]) else 0]
    else w.origin[q := NextId(w.env, w.c)]
  }

  // do_item_get has found nothing for the key of a new item.
  lemma LookedUp(w: World, it: Ptr, k: Want, s: Supply) returns (x: World)
    requires Inv(w) && Unlinked(w, it) && Locked(w, w.c.mem[it].key, k, s)
    requires Answer(w.c, w.env, w.c.mem[it].key).None?
    ensures var key := w.c.mem[it].key; key in w.c.table ==> Usable(w.c, w.c.table[key])
    ensures var (c1, oldIt) := Get(w.c, w.env, w.c.mem[it].key);
      && Leads(w, c1, w.origin, x) && oldIt == Null && w.c.mem[it].key !in c1.table && x.env.now > 0
      && Unlinked(x, it) && x.c.mem[it] == w.c.mem[it] && c1.casId == w.c.casId
  {
    hide Goes, Inv, Sound, Answer, Get, Others;
    InvSound(w);
    var key := w.c.mem[it].key;
    GetMissed(w.c, w.env, key);
    x := GetSteps(w, key);
    GoesInv(w, x);
    MissedItem(w.c, Get(w.c, w.env, key).0, w.env, key, it);
  }

  lemma MissedSteps(w: World, it: Ptr, comm: Command, reqCas: nat, k: Want, s: Supply) returns (z: World)
    requires Inv(w) && Unlinked(w, it) && Locked(w, w.c.mem[it].key, k, s)
    requires Answer(w.c, w.env, w.c.mem[it].key).None?
    ensures var key := w.c.mem[it].key; key in w.c.table ==> Usable(w.c, w.c.table[key])
    ensures var (c1, r, q) := StoreItem(w.c, w.env, it, comm, reqCas, k, s);
      Leads(w, c1, OriginAfter(w, w.c.mem[it].key, comm, r, q), z)
  {
    hide Goes, Inv, Answer, Get, Link, StoreItem, Locked, LinkedIn;
    var x := LookedUp(w, it, k, s);
    StoreMissed(w.c, w.env, it, comm, reqCas, k, s);
    z := x;
    if comm == Set || comm == Add {
      z := LinkSteps(x, it);
      Onward(w, x, z);
    }
  }

  lemma FoundSteps(w: World, it: Ptr, comm: Command, reqCas: nat, k: Want, s: Supply) returns (z: World)
    requires Inv(w) && Unlinked(w, it) && Locked(w, w.c.mem[it].key, k, s)
    requires Answer(w.c, w.env, w.c.mem[it].key).Some?
    requires Joins(comm) ==> reqCas != 0 && reqCas != Version(w.c, w.c.mem[it].key)
    ensures var key := w.c.mem[it].key; key in w.c.table ==> Usable(w.c, w.c.table[key])
    ensures var (c1, r, q) := StoreItem(w.c, w.env, it, comm, reqCas, k, s);
      Leads(w, c1, OriginAfter(w, w.c.mem[it].key, comm, r, q), z)
  {
    hide Goes, Coherent, Timely, CasOk, BusyOk, Answer, Get, Others, Got, SwapIn, Release, Update, ItemAlloc, CasOf,
        Joined, Version;
    var key := w.c.mem[it].key;
    GetGot(w.c, w.env, key);
    var (c1, p) := Get(w.c, w.env, key);
    var x := GetSteps(w, key);
    GoesInv(w, x);
    GotItem(w.c, c1, w.env, key, p, it);
    GotFacts(w.c, c1, w.env, key, p);
    SoundLinked(c1, w.env, p);
    if comm == Add {
      z := AddSteps(x, p, w.c, key);
    } else if Joins(comm) || (comm == Cas && reqCas != CasOf(c1, p)) {
      z := ReleaseSteps(x, p);
    } else {
      z := ReplaceSteps(x, p, it);
    }
    Then(w, x, z.c, z.origin, z);
    assert StoreItem(w.c, w.env, it, comm, reqCas, k, s).0 == z.c;
  }

  lemma AddSteps(w: World, p: Ptr, c: Cache, key: Key) returns (z: World)
    requires Inv(w) && Got(c, w.c, w.env, key, p) && Ours(w, p)
    ensures Leads(w, Release(Update(w.c, w.env, p), p), w.origin, z)
  {
    hide Goes, Coherent, Timely, CasOk, BusyOk, Others, Update, Release, Alive, Answer;
    GotFacts(c, w.c, w.env, key, p);
    UpdateKeeps(w.c, w.env, p);
    var x := UseSteps(w, p);
    GoesInv(w, x);
    z := ReleaseSteps(x, p);
    Onward(w, x, z);
  }

  // Every storage command on an item that has just been filled in is a sequence of steps of the store, for every
  // outcome of its allocation; append and prepend pass on where the old value came from.
  lemma StoreItemIsSteps(w: World, it: Ptr, comm: Command, reqCas: nat, k: Want, s: Supply) returns (z: World)
    requires Inv(w) && Unlinked(w, it) && Locked(w, w.c.mem[it].key, k, s)
    ensures var key := w.c.mem[it].key; key in w.c.table ==> Usable(w.c, w.c.table[key])
    ensures var (c1, r, q) := StoreItem(w.c, w.env, it, comm, reqCas, k, s);
      Leads(w, c1, OriginAfter(w, w.c.mem[it].key, comm, r, q), z)
  {
    hide Inv, Locked, Leads, StoreItem, Answer, Version;
    var key := w.c.mem[it].key;
    if Answer(w.c, w.env, key).None? {
      z := MissedSteps(w, it, comm, reqCas, k, s);
    } else if Joins(comm) && (reqCas == 0 || reqCas == Version(w.c, key)) {
      z := JoinSteps(w, it, comm, reqCas, k, s);
    } else {
      z := FoundSteps(w, it, comm, reqCas, k, s);
    }
  }

  // ---- do_add_delta ----

  lemma InPlaceSteps(w: World, key: Key, k: Want, s: Supply, data: string) returns (z: World)
    requires Inv(w) && Locked(w, key, k, s) && Answer(w.c, w.env, key).Some? && Alone(w.c, key)
        && w.env.oldestCas <= w.c.casId
    ensures key in w.c.table && Usable(w.c, w.c.table[key])
    ensures var c1 := Get(w.c, w.env, key).0; var p := w.c.table[key];
      p in c1.mem && Leads(w, Release(Rewrite(c1, w.env, p, data), p), w.origin, z)
  {
    hide Goes, Coherent, Timely, CasOk, BusyOk, Others, Rewrite, Release, Answer, CasOf, SameEntry, Get, Got, Alive;
    GetGot(w.c, w.env, key);
    var p := w.c.table[key];
    AnswerAlive(w.c, w.env, key);
    TableSound(w.c, w.env, key);
    AloneOnce(w.c, key);
    var x := BeginSteps(w, key, Counting);
    GoesInv(w, x);
    GotFacts(w.c, x.c, w.env, key, p);
    GotAlive(w.c, x.c, w.env, key, p);
    RewriteKeeps(x.c, w.env, p, data);
    var y := OneStep(x, SRewrite(p, data));
    Onward(w, x, y);
    GoesInv(w, y);
    z := ReleaseSteps(y, p);
    Onward(w, y, z);
    assert w.busy[p := Counting] - {p} == w.busy;
  }

  lemma AloneOnce(c: Cache, key: Key)
    requires Alone(c, key) && LinkedIn(c.mem, c.table[key])
    ensures c.mem[c.table[key]].refcount == 1
  {
  }

  lemma CopyCasSteps(w: World, p: Ptr, q: Ptr) returns (z: World)
    requires w.env.now > 0 && FilledIn(w.c.mem, p) && !w.c.mem[p].flags.linked && q != p && LinkedIn(w.c.mem, q)
    ensures Leads(w, CopyCas(w.c, p, q), w.origin, z)
  {
    hide Goes, CopyCas;
    z := OneStep(w, SCopyCas(p, q));
  }

  // The new item replaces the old one, which gets its id.
  lemma SwapCopySteps(w: World, p: Ptr, q: Ptr) returns (z: World)
    requires Inv(w) && p in w.busy && w.busy[p] == Building && LinkedIn(w.c.mem, p) && Others(w.c.mem, p) > 0
    requires q != p && Others(w.c.mem, q) > 0 && Unlinked(w, q) && w.c.mem[q].key == w.c.mem[p].key
    requires w.c.mem[q].content.exptime == w.c.mem[p].content.exptime
    ensures var c1 := SwapIn(w.c, w.env, p, q); var c2 := CopyCas(c1, p, q);
      && Goes(w, z) && z.c == c2 && z.origin == w.origin[q := ValueIn(w.origin, p)] && z.env == w.env
      && z.busy == w.busy - {p}
      && p in c2.mem && !c2.mem[p].flags.slabbed && Others(c2.mem, p) > 0
      && q in c2.mem && !c2.mem[q].flags.slabbed && Others(c2.mem, q) > 0
  {
    hide Goes, Coherent, Timely, CasOk, BusyOk, SwapIn, Others, SameEntry, Told;
    SwapKeeps(w.c, w.env, p, q);
    StillFilled(w.c, w.env, p, q);
    var c1 := SwapIn(w.c, w.env, p, q);
    var x := SucceedSteps(w, p, q);
    GoesInv(w, x);
    SoundLinked(c1, w.env, q);
    z := CopyCasSteps(x, p, q);
    Onward(w, x, z);
    SameOthersAll(c1, z.c);
  }

  lemma NewCountOn(w: World, key: Key, p: Ptr, k: Want, s: Supply, content: Content) returns (z: World)
    requires UnderWay(w, key, p, k, s) && content.exptime == w.c.mem[p].content.exptime
    ensures var (c2, q) := ItemAlloc(w.c, w.env, k, s, key, content);
      && Goes(w, z) && z.env == w.env && z.busy == w.busy - {p}
      && z.c == (if q == Null then Release(c2, p) else Release(Release(CopyCas(SwapIn(c2, w.env, p, q), p, q), q), p))
      && z.origin == if q == Null then w.origin else w.origin[q := ValueIn(w.origin, p)]
  {
    hide Goes, Coherent, Timely, CasOk, BusyOk, SwapIn, Release, ItemAlloc, Granted, Others, AnswersLess, RefsBut,
        CopyCas;
    AllocatedOk(w.c, w.env, k, s, key, p, content);
    var x := AllocSteps(w, k, s, p, key, content);
    var (c2, q) := ItemAlloc(w.c, w.env, k, s, key, content);
    GoesInv(w, x);
    SameOthers(w.c, c2, p);
    if q == Null {
      z := GiveUp(w, p, x);
    } else {
      UnlinkedIsOurs(x, q);
      var y := SwapCopySteps(x, p, q);
      Onward(w, x, y);
      GoesInv(w, y);
      var y1 := ReleaseSteps(y, q);
      Onward(w, y, y1);
      GoesInv(w, y1);
      ReleasedOther(y.c, w.env, q, p);
      z := ReleaseSteps(y1, p);
      Onward(w, y1, z);
      assert (w.origin - {q})[q := ValueIn(w.origin - {q}, p)] == w.origin[q := ValueIn(w.origin, p)];
    }
  }

  lemma ReleasedOther(c: Cache, env: Env, q: Ptr, p: Ptr)
    requires Sound(c, env) && q in c.mem && !c.mem[q].flags.slabbed && Others(c.mem, q) > 0 && p != q
    requires p in c.mem && !c.mem[p].flags.slabbed && Others(c.mem, p) > 0
    ensures var c1 := Release(c, q); p in c1.mem && !c1.mem[p].flags.slabbed && Others(c1.mem, p) > 0
  {
    hide Sound, Release, Others, SameEntry;
    ReleaseKeeps(c, env, q);
    SameOthers(c, Release(c, q), p);
  }

  // Where the value of the key comes from stays what it was, also when the number is in a new item.
  ghost predicate OriginPassed(w: World, z: World, key: Key) {
    && key in w.c.table && key in z.c.table
    && ValueIn(z.origin, z.c.table[key]) == ValueIn(w.origin, w.c.table[key])
  }

  lemma RecountSteps(w: World, key: Key, n: nat, k: Want, s: Supply) returns (z: World)
    requires Inv(w) && Locked(w, key, k, s) && Answer(w.c, w.env, key).Some? && w.env.oldestCas <= w.c.casId
    ensures key in w.c.table && Usable(w.c, w.c.table[key])
    ensures var c1 := Get(w.c, w.env, key).0; var p := w.c.table[key];
      && p in c1.mem && Leads(w, Recounted(c1, w.env, key, p, n, k, s).0, z.origin, z)
      && (Recounted(c1, w.env, key, p, n, k, s).1.Ok? ==> OriginPassed(w, z, key))
  {
    hide Goes, Coherent, Timely, CasOk, BusyOk, SwapIn, Release, ItemAlloc, Granted, Got, Others, Rewrite, CopyCas,
        Print, Recount;
    hide CasOf, Get, Answer, Alone, Locked, CountRefines;
    GetGot(w.c, w.env, key);
    var (c1, p) := Get(w.c, w.env, key);
    GotFacts(w.c, c1, w.env, key, p);
    GotRefs(w.c, c1, w.env, key, p);
    var data := c1.mem[p].content.data;
    var digits := Print(n);
    if |digits| + 2 <= |data| && c1.mem[p].refcount == 2 {
      z := InPlaceSteps(w, key, k, s, Recount(data, digits, true));
      SameTable(c1, w.env, p, Recount(data, digits, true));
    } else {
      var content := c1.mem[p].content.(data := Recount(data, digits, false));
      var x;
      p, x := Begun(w, key, k, s);
      z := NewCountOn(x, key, p, k, s, content);
      Onward(w, x, z);
      assert w.busy[p := Building] - {p} == w.busy;
      var (c2, q) := ItemAlloc(c1, w.env, k, s, key, content);
      if q != Null { NewTable(w, c1, c2, key, p, q, k, s, content); }
    }
  }

  lemma SameTable(c: Cache, env: Env, p: Ptr, data: string)
    requires p in c.mem
    ensures Release(Rewrite(c, env, p, data), p).table == c.table
  {
    hide Update, Release;
    UpdateTable(Overwrite(c, env, p, data), env, p);
    ReleaseTable(Rewrite(c, env, p, data), p);
  }

  lemma UpdateTable(c: Cache, env: Env, p: Ptr)
    requires p in c.mem
    ensures Update(c, env, p).table == c.table
  {
    hide PushQueue, EraseQueue;
  }

  lemma ReleaseTable(c: Cache, p: Ptr)
    ensures Release(c, p).table == c.table
  {
  }

  lemma NewTable(w: World, c1: Cache, c2: Cache, key: Key, p: Ptr, q: Ptr, k: Want, s: Supply, content: Content)
    requires Got(w.c, c1, w.env, key, p) && k.h(key) == k.hv && ItemAlloc(c1, w.env, k, s, key, content) == (c2, q)
        && q != Null
    ensures var c5 := Release(Release(CopyCas(SwapIn(c2, w.env, p, q), p, q), q), p);
      key in c5.table && c5.table[key] == q
  {
    hide Sound, Answer, Others, ItemAlloc, AnswersLess, RefsBut, Got, Release, SwapIn, CopyCas, CasOf;
    GotFacts(w.c, c1, w.env, key, p);
    AllocatedOk(c1, w.env, k, s, key, p, content);
    CountStored(w.c, c1, c2, w.env, k, key, p, q, content);
  }

  // incr and decr are sequences of steps of the store, and count on without hiding where the number came from.
  lemma AddDeltaIsSteps(w: World, key: Key, d: Delta, reqCas: nat, beyond: string, k: Want,
      s: Supply) returns (z: World)
    requires Inv(w) && Locked(w, key, k, s) && w.env.oldestCas <= w.c.casId
    ensures key in w.c.table ==> Usable(w.c, w.c.table[key])
    ensures var (c1, r, cas) := AddDelta(w.c, w.env, key, d, reqCas, beyond, k, s);
      Leads(w, c1, z.origin, z) && (r.Ok? ==> OriginPassed(w, z, key))
  {
    hide Goes, Coherent, Timely, CasOk, BusyOk, Answer, Get, Got, Others, Release, Recounted, SafeStrtoull, Count,
        CasOf, OriginPassed;
    if Answer(w.c, w.env, key).None? {
      GetMissed(w.c, w.env, key);
      z := GetSteps(w, key);
    } else {
      GetGot(w.c, w.env, key);
      var (c1, p) := Get(w.c, w.env, key);
      GotFacts(w.c, c1, w.env, key, p);
      var data := c1.mem[p].content.data;
      ParseRange(data, beyond);
      if |data| > 2 && (reqCas == 0 || CasOf(c1, p) == reqCas) && SafeStrtoull(data, beyond).Some? {
        z := RecountSteps(w, key, Count(SafeStrtoull(data, beyond).value, d), k, s);
      } else {
        var x := GetSteps(w, key);
        z := x;
        if |data| > 2 {
          GoesInv(w, x);
          SoundLinked(c1, w.env, p);
          z := ReleaseSteps(x, p);
          Onward(w, x, z);
        }
      }
    }
  }

  // ---- runs with commands in them ----

  // No lost updates, command by command: a cas that is answered STORED finds the key with the data and flags it had
  // when the client read that id, and it has had no others in between.
  lemma CasStoresOverWhatWasRead(run: seq<World>, steps: seq<Step>, i: nat, n: nat, j: nat, it: Ptr, reqCas: nat,
                                 k: Want, s: Supply)
    requires IsRun(run, steps) && i <= n <= j < |run| && run[0].env.useCas
    requires var w := run[j]; FilledIn(w.c.mem, it) && !w.c.mem[it].flags.linked && k.h(w.c.mem[it].key) == k.hv
    requires var key := run[j].c.mem[it].key;
      key in run[i].c.table && run[i].c.table[key] in run[i].c.mem && CasOf(run[i].c, run[i].c.table[key]) == reqCas
    ensures var w := run[j]; var key := w.c.mem[it].key; key in w.c.table ==> Usable(w.c, w.c.table[key])
    ensures var w := run[j]; var key := w.c.mem[it].key;
      StoreItem(w.c, w.env, it, Cas, reqCas, k, s).1 == Stored ==>
        var held := run[i].c.mem[run[i].c.table[key]].content;
        Answers(run[n].c, key, reqCas, held.data, held.clientFlags)
  {
    hide Inv, Enabled, Apply, Initial, StoreItem, Answer, AnswersLess, AnswersElse, RefsBut, StoredAs, Fits, CasOf,
        Coherent, Timely;
    hide CasOk;
    RunInv(run, steps, j);
    InvCoherent(run[j]);
    var w := run[j];
    var key := w.c.mem[it].key;
    StoreItemRefines(w.c, w.env, it, Cas, reqCas, k, s);
    if StoreItem(w.c, w.env, it, Cas, reqCas, k, s).1 == Stored {
      AnswerIn(w.c, w.env, key);
      CasMeansUnchanged(run, steps, i, n, j, key);
    }
  }

  lemma AnswerIn(c: Cache, env: Env, key: Key)
    ensures Answer(c, env, key).Some? ==> key in c.table
  {
  }
}
