// When an immediate flush_all splits history, and when an operation overtaken by it brings an old value back.
module StoreFlushTheorems {
  import opened Memory
  import opened Linkage
  import opened CacheSpec
  import opened LruPull
  import opened LruPullProofs
  import opened Store
  import opened StoreProofs
  import opened StoreTheorems
  import opened StoreRuns
  import opened StoreFlush
  import opened StoreFlushing

  // ---- the flush is through ----

  // The time of the item is past the flush, or do_item_update can move it there before the item expires.
  predicate Movable(env: Env, time: nat, exptime: nat) {
    time > env.oldestLive || Stale(env, time) || exptime == 0 || exptime > time + ITEM_UPDATE_INTERVAL + 1
  }

  // An operation in flight that can show clients an old value again: a rescue, or a command that builds a new item, on
  // an item that has not expired; a count in place on such an item if its time is past the flush, or can be moved
  // there.
  predicate Reviving(w: World, p: Ptr)
    requires p in w.busy && p in w.c.mem
  {
    var exptime := w.c.mem[p].content.exptime;
    !ExpiredNow(w.env, exptime) && (w.busy[p] == Counting ==> Movable(w.env, TimeOf(w.c, p), exptime))
  }

  // An old value that was passed on while the flush was under way, and that clients can get.
  predicate Revived(w: World, p: Ptr)
    requires p in w.c.mem
  {
    var exptime := w.c.mem[p].content.exptime;
    !ExpiredNow(w.env, exptime) && Movable(w.env, TimeOf(w.c, p), exptime)
  }

  ghost predicate NoneReviving(w: World, id: nat) {
    forall p :: p in w.c.mem ==>
      !(InFlightOld(w, id, p) && Reviving(w, p)) && !(PassedOn(w, id, p) && Revived(w, p))
  }

  // The settings are those of a flush that is due at once, and one thread is about to write oldest_cas.
  ghost predicate Ready(w: World, th: nat) {
    && Inv(w) && w.env.useCas && Origins(w) && 0 < w.env.oldestLive < w.env.now
    && th in w.flushes && w.flushes[th].Took?
    && forall p :: LinkedIn(w.c.mem, p) && ValueIn(w.origin, p) > w.flushes[th].id ==> TimeOf(w.c, p) > w.env.oldestLive
  }

  lemma FlushingReady(run: seq<World>, steps: seq<Step>, i: nat, th: nat)
    requires Flushing(run, steps, i, th)
    ensures Ready(run[|steps|], th)
  {
    hide Inv, Enabled, Apply, Initial, Origins, Young;
    var w := run[|steps|];
    RunInv(run, steps, |steps|);
    OriginsRun(run, steps, |steps|);
    FlushTook(w, th);
    UnderwayRun(run, steps, i, th, |steps|);
    forall p | LinkedIn(w.c.mem, p) && ValueIn(w.origin, p) > w.flushes[th].id
      ensures TimeOf(w.c, p) > w.env.oldestLive
    {
      YoungAt(w, run[i].c.casId, p);
    }
  }

  lemma FlushTook(w: World, th: nat)
    requires Enabled(w, SFlushCas(th))
    ensures th in w.flushes && w.flushes[th].Took?
  {
  }

  lemma FlushEffect(w: World, th: nat)
    requires Ready(w, th)
    ensures Enabled(w, SFlushCas(th)) && w.env.now > 0
    ensures Apply(w, SFlushCas(th)) ==
      w.(env := w.env.(oldestCas := w.flushes[th].id), flushes := w.flushes - {th})
    ensures 0 < w.flushes[th].id <= w.c.casId
  {
    assert Unique(w, w.flushes[th].id) by { FlushAt(w, th); }
    hide Coherent, Timely, CasOk, BusyOk, Origins;
  }

  lemma ItemBefore(mode: Mode, w: World, th: nat, p: Ptr)
    requires Ready(w, th)
    requires mode == Strict ==> NoneOld(w, w.flushes[th].id)
    requires mode == Doom ==> NoneReviving(w, w.flushes[th].id)
    ensures Enabled(w, SFlushCas(th)) && w.env.now > 0
    ensures var z := Apply(w, SFlushCas(th)); ItemAfter(mode, z.c, z.env, z.origin, w.flushes[th].id, p)
  {
    hide Apply, Enabled, NoneOld, NoneReviving;
    FlushEffect(w, th);
    var id := w.flushes[th].id;
    if LinkedIn(w.c.mem, p) {
      LinkedCas(w, p);
      FlushAt(w, th);
      UniqueAt(w, id, p);
      OriginAt(w, p);
      if mode == Strict { NoneAt(w, id, p); }
      if mode == Doom { NotRevived(w, id, p); }
    }
    hide Inv, Origins;
  }

  lemma LinkedCas(w: World, p: Ptr)
    requires Inv(w) && w.env.useCas && LinkedIn(w.c.mem, p)
    ensures CasOf(w.c, p) > 0
  {
    LinkedHere(w.c, p);
    CasFacts(w.c, w.env, p);
    hide Coherent, CasOk, Timely, BusyOk;
  }

  lemma NotRevived(w: World, id: nat, p: Ptr)
    requires NoneReviving(w, id) && p in w.c.mem
    ensures PassedOn(w, id, p) ==> Doomed(w.env, TimeOf(w.c, p), w.c.mem[p].content.exptime)
    ensures InFlightOld(w, id, p) ==>
      var exptime := w.c.mem[p].content.exptime;
      ExpiredNow(w.env, exptime) || (w.busy[p] == Counting && Doomed(w.env, TimeOf(w.c, p), exptime))
  {
  }

  lemma InFlightBefore(mode: Mode, w: World, th: nat, p: Ptr)
    requires Ready(w, th)
    requires mode == Strict ==> NoneOld(w, w.flushes[th].id)
    requires mode == Doom ==> NoneReviving(w, w.flushes[th].id)
    ensures Enabled(w, SFlushCas(th)) && w.env.now > 0
    ensures BusyAfter(mode, Apply(w, SFlushCas(th)), w.flushes[th].id, p)
  {
    hide Apply, Enabled, NoneOld, NoneReviving;
    FlushEffect(w, th);
    var id := w.flushes[th].id;
    FlushAt(w, th);
    UniqueAt(w, id, p);
    hide Inv, Origins;
    if p in w.busy && p in w.c.mem {
      if mode == Strict { NoneAt(w, id, p); }
      if mode == Doom { NotRevived(w, id, p); }
    }
  }

  lemma FlushStarts(mode: Mode, w: World, th: nat)
    requires Ready(w, th)
    requires mode == Strict ==> NoneOld(w, w.flushes[th].id)
    requires mode == Doom ==> NoneReviving(w, w.flushes[th].id)
    ensures Enabled(w, SFlushCas(th)) && w.env.now > 0
    ensures Inv(Apply(w, SFlushCas(th))) && After(mode, Apply(w, SFlushCas(th)), w.flushes[th].id)
  {
    hide Inv, Origins, Apply, Enabled, ItemAfter, BusyAfter, NoneReviving, NoneOld;
    FlushEffect(w, th);
    EachStepOk(w, SFlushCas(th));
    var z, id := Apply(w, SFlushCas(th)), w.flushes[th].id;
    forall p ensures ItemAfter(mode, z.c, z.env, z.origin, id, p) { ItemBefore(mode, w, th, p); }
    forall p ensures BusyAfter(mode, z, id, p) { InFlightBefore(mode, w, th, p); }
  }

  // ---- what history looks like ----

  // An item counts as flushed exactly when what it holds was stored before the flush, or was built from such a value.
  ghost predicate Split(z: World, c0: nat) {
    forall p :: LinkedIn(z.c.mem, p) ==> (IsFlushed(z.c, z.env, p) <==> ValueIn(z.origin, p) < c0)
  }

  // Nobody can get a value that was stored before the flush or built from one.
  ghost predicate NothingOld(z: World, c0: nat) {
    forall k :: k in Visible(z.c, z.env) ==> ValueIn(z.origin, z.c.table[k]) > c0
  }

  // What was stored after the flush counts as not flushed.
  ghost predicate NothingLost(z: World, c0: nat) {
    forall p :: LinkedIn(z.c.mem, p) && ValueIn(z.origin, p) > c0 ==> !IsFlushed(z.c, z.env, p)
  }

  ghost predicate AlwaysSplit(w: World, c0: nat) {
    forall steps, z :: Runs(w, steps, z) && NoFlush(steps) ==> Split(z, c0)
  }

  ghost predicate NeverOld(w: World, c0: nat) {
    forall steps, z :: Runs(w, steps, z) && NoFlush(steps) ==> NothingOld(z, c0)
  }

  ghost predicate NeverLost(w: World, c0: nat) {
    forall steps, z :: Runs(w, steps, z) && NoFlush(steps) ==> NothingLost(z, c0)
  }

  lemma StrictSplits(z: World, c0: nat)
    requires After(Strict, z, c0)
    ensures Split(z, c0)
  {
    hide After, Flushed;
    forall p | LinkedIn(z.c.mem, p) ensures IsFlushed(z.c, z.env, p) <==> ValueIn(z.origin, p) < c0 {
      Unflushed(Strict, z, c0, p);
      NotAtC0(Strict, z, c0, p);
    }
  }

  lemma NotAtC0(mode: Mode, z: World, c0: nat, p: Ptr)
    requires After(mode, z, c0) && LinkedIn(z.c.mem, p)
    ensures ValueIn(z.origin, p) != c0
  {
    assert ItemAfter(mode, z.c, z.env, z.origin, c0, p);
    hide Items, InFlight;
  }

  lemma LooseLosesNothing(z: World, c0: nat)
    requires After(Loose, z, c0)
    ensures NothingLost(z, c0)
  {
    hide After, Flushed;
    forall p | LinkedIn(z.c.mem, p) && ValueIn(z.origin, p) > c0
      ensures !IsFlushed(z.c, z.env, p)
    {
      Unflushed(Loose, z, c0, p);
    }
  }

  lemma DoomHides(z: World, c0: nat)
    requires Inv(z) && After(Doom, z, c0)
    ensures NothingOld(z, c0)
  {
    hide After, Inv, Doomed;
    forall k | k in Visible(z.c, z.env) ensures ValueIn(z.origin, z.c.table[k]) > c0 {
      var p := z.c.table[k];
      InTable(z, k);
      hide Flushed;
      Unflushed(Doom, z, c0, p);
      AfterSettings(Doom, z, c0);
      DoomedDead(z, p);
    }
  }

  lemma InTable(z: World, k: Key)
    requires Inv(z) && k in z.c.table
    ensures LinkedIn(z.c.mem, z.c.table[k]) && z.c.mem[z.c.table[k]].key == k
  {
    hide Timely, CasOk, BusyOk;
    TableHere(z.c, k);
  }

  // ---- how an old value comes back ----

  lemma {:induction false} Unused(pages: set<nat>) returns (g: nat)
    ensures g !in pages && forall x :: x in pages ==> x < g
    decreases |pages|
  {
    if pages == {} {
      g := 0;
    } else {
      var x :| x in pages;
      g := Unused(pages - {x});
      if x >= g { g := x + 1; }
      forall y | y in pages ensures y < g {
        if y != x { assert y in pages - {x}; }
      }
    }
  }

  // A chunk nothing is known about.
  lemma SpareChunk(c: Cache) returns (q: Ptr)
    ensures q.Chunk? && q !in c.mem
  {
    var pages := set p | p in c.mem && p.Chunk? :: p.page;
    var g := Unused(pages);
    assert forall p :: p in c.mem && p.Chunk? ==> p.page in pages;
    q := Chunk(g, 0);
  }

  function CopyOf(it: Item): Item { Item(NO_FLAGS.(cas := true), 1, 1, Cold, it.ntotal, it.key, it.content) }

  // The old value is back: linked, not considered flushed, and visible unless it has expired.
  ghost predicate Back(z: World, c0: nat, q: Ptr) {
    LinkedIn(z.c.mem, q) && !IsFlushed(z.c, z.env, q) && ValueIn(z.origin, q) < c0
  }

  lemma SucceedBack(w: World, a: Step, c0: nat)
    requires Inv(w) && Settings(w, c0) && Enabled(w, a) && (a.SRescue? || a.SReplace?) && ValueIn(w.origin, a.p) < c0
    ensures w.env.now > 0 && Back(Apply(w, a), c0, a.q)
    ensures Apply(w, a).c.mem[a.q].content.exptime == w.c.mem[a.p].content.exptime && Apply(w, a).env == w.env
  {
    hide Coherent, Timely, CasOk, BusyOk, Replace;
    SucceedTouches(w, a);
  }

  lemma FillForCopy(w: World, p: Ptr, q: Ptr)
    requires Inv(w) && w.env.useCas && p in w.busy && q.Chunk? && q !in w.c.mem
    ensures p in w.c.mem && w.env.now > 0
    ensures var it := CopyOf(w.c.mem[p]); var x := w.(c := Edit(w.c, q, it), origin := w.origin - {q});
      Enabled(w, SFill(q, it)) && Apply(w, SFill(q, it)) == x && Succeeds(x, p, q)
          && x.c.mem[q].content == x.c.mem[p].content
      && x.c.mem[p] == w.c.mem[p] && ValueIn(x.origin, p) == ValueIn(w.origin, p)
  {
    BusyLinked(w.c, w.busy, p);
    LinkedHere(w.c, p);
    hide Timely, CasOk, BusyOk, TableOk, QueuedOk, QueuesOnce, LinkedOk;
  }

  lemma CopyComesBack(w: World, c0: nat, p: Ptr) returns (steps: seq<Step>, z: World, q: Ptr)
    requires Inv(w) && Settings(w, c0) && p in w.busy && w.busy[p] != Counting && ValueIn(w.origin, p) < c0
    ensures p in w.c.mem && Runs(w, steps, z) && NoFlush(steps) && Back(z, c0, q)
    ensures z.env == w.env && z.c.mem[q].content.exptime == w.c.mem[p].content.exptime
  {
    hide Inv, Apply, Back, Succeeds;
    q := SpareChunk(w.c);
    FillForCopy(w, p, q);
    var it := CopyOf(w.c.mem[p]);
    var x := Apply(w, SFill(q, it));
    var a := if w.busy[p] == Rescuing then SRescue(p, q) else SReplace(p, q);
    EachStepOk(w, SFill(q, it));
    SucceedBack(x, a, c0);
    hide Enabled;
    RunsOne(w, SFill(q, it));
    RunsOne(x, a);
    z := Apply(x, a);
    steps := [SFill(q, it)] + [a];
    RunsOn(w, [SFill(q, it)], x, [a], z);
  }

  lemma RewriteBack(w: World, c0: nat, p: Ptr, data: string)
    requires Inv(w) && Settings(w, c0) && p in w.busy && w.busy[p] == Counting && ValueIn(w.origin, p) < c0
    requires TimeOf(w.c, p) > w.env.oldestLive || Stale(w.env, TimeOf(w.c, p))
    ensures Enabled(w, SRewrite(p, data)) && w.env.now > 0 && p in w.c.mem
    ensures var z := Apply(w, SRewrite(p, data));
      Back(z, c0, p) && z.env == w.env && z.c.mem[p].content.exptime == w.c.mem[p].content.exptime
  {
    hide Coherent, Timely, CasOk, BusyOk, Back, Rewrite;
    BusyLinked(w.c, w.busy, p);
    RewriteFacts(w.c, w.env, p, data);
    RewrittenBack(Apply(w, SRewrite(p, data)), c0, p);
  }

  lemma RewriteFacts(c: Cache, env: Env, p: Ptr, data: string)
    requires Coherent(c) && Timely(c, env) && CasOk(c, env) && LinkedIn(c.mem, p) && env.useCas
    ensures var c1 := Rewrite(c, env, p, data);
      && LinkedIn(c1.mem, p) && CasOf(c1, p) == c.casId + 1 && c1.mem[p].content.exptime == c.mem[p].content.exptime
      && TimeOf(c1, p) == if Stale(env, TimeOf(c, p)) then env.now else TimeOf(c, p)
  {
    hide Coherent, Timely, CasOk, Update, Overwrite;
    OverwriteOk(c, env, p, data);
    OverwriteTime(c, env, p, data);
    UpdateMinor(Overwrite(c, env, p, data), env, p);
    UpdateTime(Overwrite(c, env, p, data), env, p);
  }

  lemma RewrittenBack(z: World, c0: nat, p: Ptr)
    requires LinkedIn(z.c.mem, p) && CasOf(z.c, p) > c0 && TimeOf(z.c, p) > z.env.oldestLive && z.env.oldestCas == c0
    requires ValueIn(z.origin, p) < c0
    ensures Back(z, c0, p)
  {
  }

  // How long it takes until do_item_update moves the item's time.
  function Wait(w: World, p: Ptr): nat {
    var time := TimeOf(w.c, p);
    if time > w.env.oldestLive || Stale(w.env, time) || time + ITEM_UPDATE_INTERVAL + 1 < w.env.now then 0
    else time + ITEM_UPDATE_INTERVAL + 1 - w.env.now
  }

  lemma CountComesBack(w: World, c0: nat, p: Ptr) returns (steps: seq<Step>, z: World)
    requires Inv(w) && Settings(w, c0) && p in w.busy && w.busy[p] == Counting && ValueIn(w.origin, p) < c0
    ensures p in w.c.mem && Runs(w, steps, z) && NoFlush(steps) && Back(z, c0, p)
    ensures z.env == w.env.(now := w.env.now + Wait(w, p)) && z.c.mem[p].content.exptime == w.c.mem[p].content.exptime
  {
    hide Coherent, Timely, CasOk, BusyOk, Back, Apply, Rewrite;
    var t := STick(Wait(w, p));
    var x := w.(env := w.env.(now := w.env.now + Wait(w, p)));
    assert Apply(w, t) == x by { TickIs(w, Wait(w, p)); }
    EachStepOk(w, t);
    RewriteBack(x, c0, p, "");
    RunsOne(w, t);
    RunsOne(x, SRewrite(p, ""));
    z := Apply(x, SRewrite(p, ""));
    steps := [t] + [SRewrite(p, "")];
    RunsOn(w, [t], x, [SRewrite(p, "")], z);
  }

  lemma TickIs(w: World, seconds: nat)
    requires w.env.now > 0
    ensures Apply(w, STick(seconds)) == w.(env := w.env.(now := w.env.now + seconds))
  {
  }

  // An old value that was passed on is used once more, when that will move its time.
  lemma PassedComesBack(w: World, c0: nat, p: Ptr) returns (steps: seq<Step>, z: World)
    requires Inv(w) && Settings(w, c0) && PassedOn(w, c0, p) && p !in w.busy
    ensures p in w.c.mem && Runs(w, steps, z) && NoFlush(steps) && Back(z, c0, p)
    ensures z.env == w.env.(now := w.env.now + Wait(w, p)) && z.c.mem[p].content.exptime == w.c.mem[p].content.exptime
  {
    hide Coherent, Timely, CasOk, BusyOk, Back, Apply, Update;
    var t := STick(Wait(w, p));
    var x := w.(env := w.env.(now := w.env.now + Wait(w, p)));
    assert Apply(w, t) == x by { TickIs(w, Wait(w, p)); }
    EachStepOk(w, t);
    UseBack(x, c0, p);
    RunsOne(w, t);
    RunsOne(x, SUse(p));
    z := Apply(x, SUse(p));
    steps := [t] + [SUse(p)];
    RunsOn(w, [t], x, [SUse(p)], z);
  }

  lemma UseBack(w: World, c0: nat, p: Ptr)
    requires Inv(w) && Settings(w, c0) && PassedOn(w, c0, p) && p !in w.busy
    requires TimeOf(w.c, p) > w.env.oldestLive || Stale(w.env, TimeOf(w.c, p))
    ensures Enabled(w, SUse(p)) && w.env.now > 0 && p in w.c.mem
    ensures var z := Apply(w, SUse(p));
      Back(z, c0, p) && z.env == w.env && z.c.mem[p].content.exptime == w.c.mem[p].content.exptime
  {
    hide Inv, Update;
    UpdateTime(w.c, w.env, p);
  }

  // Not expired now, nor when the wait is over.
  lemma WaitLives(w: World, p: Ptr)
    requires p in w.c.mem && !ExpiredNow(w.env, w.c.mem[p].content.exptime)
    requires Movable(w.env, TimeOf(w.c, p), w.c.mem[p].content.exptime)
    ensures !ExpiredNow(w.env.(now := w.env.now + Wait(w, p)), w.c.mem[p].content.exptime)
  {
  }

  lemma ComesBack(w: World, th: nat, p: Ptr) returns (steps: seq<Step>, z: World, q: Ptr)
    requires Ready(w, th) && (InFlightOld(w, w.flushes[th].id, p) || PassedOn(w, w.flushes[th].id, p))
    ensures Enabled(w, SFlushCas(th)) && w.env.now > 0 && p in w.c.mem
    ensures Runs(Apply(w, SFlushCas(th)), steps, z) && NoFlush(steps) && Back(z, w.flushes[th].id, q)
    ensures InFlightOld(w, w.flushes[th].id, p) && Reviving(w, p) ==> Alive(z.c, z.env, q)
    ensures PassedOn(w, w.flushes[th].id, p) && Revived(w, p) ==> Alive(z.c, z.env, q)
  {
    hide Inv, Apply, Enabled, Runs, Origins;
    FlushStarts(Loose, w, th);
    FlushEffect(w, th);
    var x, id := Apply(w, SFlushCas(th)), w.flushes[th].id;
    AfterSettings(Loose, x, id);
    if p !in w.busy {
      steps, z := PassedComesBack(x, id, p);
      q := p;
      if Revived(w, p) { WaitLives(x, p); }
    } else if w.busy[p] == Counting {
      steps, z := CountComesBack(x, id, p);
      q := p;
      if Reviving(w, p) { WaitLives(x, p); }
    } else {
      steps, z, q := CopyComesBack(x, id, p);
    }
  }

  // ---- the theorem ----

  // An immediate flush_all, from its write of oldest_live to its write of oldest_cas, with whatever other threads do
  // before, meanwhile and afterwards until a flush command writes the settings again. Once it is through:
  // history is split at its id, so that an item counts as flushed exactly when its value is older, if and only if at
  // the last write no rescue, count or building command that has looked at an older value is in flight, and no older
  // value has been passed on since the flush took its id;
  // no client ever gets an older value, or one built from an older value, if and only if none of these is reviving, or
  // revived;
  // and what is stored after the flush took its id never counts as flushed, whatever is in flight.
  lemma FlushSplitsHistory(run: seq<World>, steps: seq<Step>, i: nat, th: nat)
    requires Flushing(run, steps, i, th)
    ensures var w := run[|steps|];
      && Enabled(w, SFlushCas(th)) && w.env.now > 0 && th in w.flushes && w.flushes[th].Took?
      && var z, id := Apply(w, SFlushCas(th)), w.flushes[th].id;
         && (AlwaysSplit(z, id) <==> NoneOld(w, id))
         && (NeverOld(z, id) <==> NoneReviving(w, id))
         && NeverLost(z, id)
  {
    hide Inv, Apply, Enabled, Initial, Runs, After, Split, NothingLost, NothingOld, NoneReviving, Origins,
        AlwaysSplit, NeverOld, NoneOld;
    FlushingReady(run, steps, i, th);
    var w := run[|steps|];
    FlushStarts(Loose, w, th);
    SplitIff(w, th);
    OldIff(w, th);
    var x, id := Apply(w, SFlushCas(th)), w.flushes[th].id;
    forall more, z | Runs(x, more, z) && NoFlush(more) ensures NothingLost(z, id) {
      AfterRun(Loose, x, more, z, id);
      LooseLosesNothing(z, id);
    }
  }

  lemma SplitIff(w: World, th: nat)
    requires Ready(w, th)
    ensures Enabled(w, SFlushCas(th)) && w.env.now > 0
    ensures AlwaysSplit(Apply(w, SFlushCas(th)), w.flushes[th].id) <==> NoneOld(w, w.flushes[th].id)
  {
    hide Inv, Apply, Enabled, Runs, After, Origins, Split, NoFlush, Back, Reviving, Revived, NoneReviving;
    FlushStarts(Loose, w, th);
    var x, id := Apply(w, SFlushCas(th)), w.flushes[th].id;
    if NoneOld(w, id) {
      hide NoneOld;
      FlushStarts(Strict, w, th);
      forall more, z | Runs(x, more, z) && NoFlush(more) ensures Split(z, id) {
        AfterRun(Strict, x, more, z, id);
        StrictSplits(z, id);
      }
    } else {
      var p :| InFlightOld(w, id, p) || PassedOn(w, id, p);
      var more, z, q := ComesBack(w, th, p);
      BackUnsplit(z, id, q);
    }
  }

  lemma BackUnsplit(z: World, c0: nat, q: Ptr)
    requires Back(z, c0, q)
    ensures !Split(z, c0)
  {
    hide Flushed;
  }

  lemma OldIff(w: World, th: nat)
    requires Ready(w, th)
    ensures Enabled(w, SFlushCas(th)) && w.env.now > 0
    ensures NeverOld(Apply(w, SFlushCas(th)), w.flushes[th].id) <==> NoneReviving(w, w.flushes[th].id)
  {
    hide Inv, Apply, Enabled, Runs, After, Origins, NothingOld, NoFlush, Back, Reviving, Revived, Alive, NoneOld,
        InFlightOld, PassedOn;
    FlushStarts(Loose, w, th);
    var x, id := Apply(w, SFlushCas(th)), w.flushes[th].id;
    if NoneReviving(w, id) {
      hide NoneReviving;
      FlushStarts(Doom, w, th);
      forall more, z | Runs(x, more, z) && NoFlush(more) ensures NothingOld(z, id) {
        AfterRun(Doom, x, more, z, id);
        DoomHides(z, id);
      }
    } else {
      var p := SomeReviving(w, id);
      var more, z, q := ComesBack(w, th, p);
      EachStepOk(w, SFlushCas(th));
      RunsInv(x, more, z);
      BackSeen(z, id, q);
    }
  }

  lemma SomeReviving(w: World, id: nat) returns (p: Ptr)
    requires !NoneReviving(w, id)
    ensures p in w.c.mem
    ensures (InFlightOld(w, id, p) && Reviving(w, p)) || (PassedOn(w, id, p) && Revived(w, p))
  {
    hide Reviving, Revived;
    p :| p in w.c.mem && ((InFlightOld(w, id, p) && Reviving(w, p)) || (PassedOn(w, id, p) && Revived(w, p)));
  }

  lemma BackSeen(z: World, c0: nat, q: Ptr)
    requires Inv(z) && Back(z, c0, q) && Alive(z.c, z.env, q)
    ensures !NothingOld(z, c0)
  {
    hide Timely, CasOk, BusyOk, Flushed;
    LinkedEntry(z.c, q);
    hide Coherent;
    assert z.c.mem[q].key in Visible(z.c, z.env);
  }

  lemma LinkedEntry(c: Cache, q: Ptr)
    requires Coherent(c) && LinkedIn(c.mem, q)
    ensures c.mem[q].key in c.table && c.table[c.mem[q].key] == q
  {
    hide QueuedOk, QueuesOnce, LinkedOk;
  }

  // A flush dated at or before the start of the server, which realtime() makes second 1, flushes nothing, and takes
  // back what an earlier one flushed, until another writes oldest_live.
  lemma FlushBeforeStart(w: World, th: nat, more: seq<Step>, z: World, p: Ptr)
    requires Inv(w) && w.env.useCas && Enabled(w, SFlushLive(th, 1)) && w.env.now > 0
    requires Runs(Apply(w, SFlushLive(th, 1)), more, z) && forall i :: 0 <= i < |more| ==> !more[i].SFlushLive?
    ensures !IsFlushed(z.c, z.env, p)
  {
    hide Coherent, Timely, CasOk, BusyOk, Runs;
    StaysZero(Apply(w, SFlushLive(th, 1)), more, z);
  }

  lemma {:induction false} StaysZero(w: World, more: seq<Step>, z: World)
    requires Runs(w, more, z) && w.env.oldestLive == 0 && forall i :: 0 <= i < |more| ==> !more[i].SFlushLive?
    ensures z.env.oldestLive == 0
    decreases |more|
  {
    hide Enabled, Apply;
    if more != [] {
      LiveKept(w, more[0]);
      StaysZero(Apply(w, more[0]), more[1..], z);
    }
  }

  lemma LiveKept(w: World, a: Step)
    requires Enabled(w, a) && w.env.now > 0 && !a.SFlushLive?
    ensures Apply(w, a).env.oldestLive == w.env.oldestLive
  {
    hide Flushed, PullTail, Get, Update, Link, Unlink, Drop, Crawl, Rewrite, Replace, OffLimits, CopyCas;
  }

  // ---- one step ----

  // A rescue in flight: its next step makes the key visible again, with the old value.
  lemma RescueOvertakesFlush(w: World, th: nat, p: Ptr, q: Ptr, z: World)
    requires Ready(w, th) && Runs(w, [SFlushCas(th), SRescue(p, q)], z)
    requires p in w.c.mem && !ExpiredNow(w.env, w.c.mem[p].content.exptime)
    ensures var k := w.c.mem[p].key;
      && k in Visible(z.c, z.env) && Visible(z.c, z.env)[k] == w.c.mem[p].content
      && ValueIn(z.origin, q) == ValueIn(w.origin, p)
  {
    hide Inv, Origins, Apply, Enabled, Runs, Visible, ExpiredNow;
    RunsTwo(w, SFlushCas(th), SRescue(p, q), z);
    FlushEffect(w, th);
    SucceedOvertakes(w, th, SRescue(p, q));
    RescueCopies(Apply(w, SFlushCas(th)), p, q);
  }

  lemma RescueCopies(w: World, p: Ptr, q: Ptr)
    requires Enabled(w, SRescue(p, q))
    ensures p in w.c.mem && q in w.c.mem && w.c.mem[q].content == w.c.mem[p].content
  {
  }

  // Append, prepend and a number in a new item: the key shows what was built from the old value.
  lemma BuildOvertakesFlush(w: World, th: nat, p: Ptr, q: Ptr, z: World)
    requires Ready(w, th) && Runs(w, [SFlushCas(th), SReplace(p, q)], z)
    requires p in w.c.mem && !ExpiredNow(w.env, w.c.mem[p].content.exptime)
    ensures var k := w.c.mem[p].key;
      && k in Visible(z.c, z.env) && q in w.c.mem && Visible(z.c, z.env)[k] == w.c.mem[q].content
      && ValueIn(z.origin, q) == ValueIn(w.origin, p)
  {
    hide Inv, Origins, Apply, Enabled, Runs, Visible, ExpiredNow;
    RunsTwo(w, SFlushCas(th), SReplace(p, q), z);
    SucceedOvertakes(w, th, SReplace(p, q));
  }

  lemma SucceedOvertakes(w: World, th: nat, a: Step)
    requires Ready(w, th) && Enabled(w, SFlushCas(th)) && w.env.now > 0
    requires Enabled(Apply(w, SFlushCas(th)), a) && Apply(w, SFlushCas(th)).env.now > 0 && (a.SRescue? || a.SReplace?)
    requires a.p in w.c.mem && !ExpiredNow(w.env, w.c.mem[a.p].content.exptime)
    ensures var z := Apply(Apply(w, SFlushCas(th)), a); var k := w.c.mem[a.p].key;
      && k in Visible(z.c, z.env) && a.q in w.c.mem && Visible(z.c, z.env)[k] == w.c.mem[a.q].content
      && ValueIn(z.origin, a.q) == ValueIn(w.origin, a.p)
  {
    hide Inv, Origins, Apply, Enabled, Visible;
    EachStepOk(w, SFlushCas(th));
    FlushEffect(w, th);
    SucceedOrigin(Apply(w, SFlushCas(th)), a);
    SucceedVisible(Apply(w, SFlushCas(th)), a);
  }

  lemma SucceedVisible(w: World, a: Step)
    requires Inv(w) && w.env.useCas && Enabled(w, a) && (a.SRescue? || a.SReplace?) && w.env.oldestLive < w.env.now
    requires w.env.oldestCas <= w.c.casId && !ExpiredNow(w.env, w.c.mem[a.p].content.exptime)
    ensures w.env.now > 0
    ensures var z := Apply(w, a); var k := w.c.mem[a.p].key;
      k in Visible(z.c, z.env) && Visible(z.c, z.env)[k] == w.c.mem[a.q].content
          && ValueIn(z.origin, a.q) == ValueIn(w.origin, a.p)
  {
    hide Coherent, Timely, CasOk, BusyOk, Replace;
    BusyLinked(w.c, w.busy, a.p);
    ReplaceTouches(w.c, w.env, a.p, a.q);
  }

  // A count in place: its next step leaves the item not flushed exactly when do_item_update moves the item's time to
  // now, or it was past the flush already.
  lemma CountOvertakesFlush(w: World, th: nat, p: Ptr, data: string, z: World)
    requires Ready(w, th) && Runs(w, [SFlushCas(th), SRewrite(p, data)], z)
    ensures IsFlushed(z.c, z.env, p) <==> !Stale(w.env, TimeOf(w.c, p)) && TimeOf(w.c, p) <= w.env.oldestLive
  {
    hide Inv, Origins, Apply, Enabled, Runs, Flushed, TimeOf;
    RunsTwo(w, SFlushCas(th), SRewrite(p, data), z);
    EachStepOk(w, SFlushCas(th));
    FlushEffect(w, th);
    RewriteFlushed(Apply(w, SFlushCas(th)), p, data);
  }

  lemma RewriteFlushed(w: World, p: Ptr, data: string)
    requires Inv(w) && w.env.useCas && Enabled(w, SRewrite(p, data)) && w.env.now > 0
    requires 0 < w.env.oldestLive < w.env.now && w.env.oldestCas <= w.c.casId
    ensures var z := Apply(w, SRewrite(p, data));
      IsFlushed(z.c, z.env, p) <==> !Stale(w.env, TimeOf(w.c, p)) && TimeOf(w.c, p) <= w.env.oldestLive
  {
    hide Coherent, Timely, CasOk, BusyOk, Rewrite;
    BusyLinked(w.c, w.busy, p);
    RewriteFacts(w.c, w.env, p, data);
  }

  // ---- it can happen ----

  const FIRST: Ptr := Chunk(0, 0)

  function FirstItem(): Item { Item(NO_FLAGS.(cas := true), 1, 1, Cold, 50, "k", Content("1\r\n", 0, 0)) }

  ghost predicate Ends(run: seq<World>, steps: seq<Step>, w: World) {
    IsRun(run, steps) && run[0] == Empty() && run[|steps|] == w
  }

  lemma EndsNext(run: seq<World>, steps: seq<Step>, w: World, a: Step) returns (r: seq<World>, s: seq<Step>)
    requires Ends(run, steps, w) && w.env.now > 0 && Enabled(w, a)
    ensures Ends(r, s, Apply(w, a)) && r == run + [Apply(w, a)] && s == steps + [a]
  {
    hide Enabled, Apply, Initial;
    r, s := run + [Apply(w, a)], steps + [a];
  }

  function Empty(): World {
    World(Cache(map[], map[], map[], map[], 0, 0), Env(2, 0, 0, true, true, false, false, 32), map[], map[], map[],
          map[])
  }

  // For each kind of operation there is a run with one in flight that brings an old value back.
  lemma FlushCanBeOvertaken(intent: Intent) returns (run: seq<World>, steps: seq<Step>, i: nat)
    ensures Flushing(run, steps, i, 0)
    ensures var w := run[|steps|];
      && 0 in w.flushes && w.flushes[0].Took? && InFlightOld(w, w.flushes[0].id, FIRST) && w.busy[FIRST] == intent
      && FIRST in w.c.mem && Reviving(w, FIRST)
  {
    hide Enabled, Apply, Stored, FlushedTo, Ends, Flushing, Reviving, ExpiredNow;
    run, steps := StoredRun();
    FirstBegins(intent);
    var a := if intent == Rescuing then SCheck(FIRST) else SBegin("k", intent);
    var w := Apply(Stored(), a);
    run, steps := EndsNext(run, steps, Stored(), a);
    i := |steps|;
    run, steps := FlushNext(run, steps, w);
    EndsLength(run, steps, FlushedTo(w));
  }

  // And one in which nothing is in flight when the flush writes oldest_live, when it takes its id and when it writes
  // oldest_cas: an item stored in this very second is rescued in between.
  lemma GapCanBeOvertaken() returns (run: seq<World>, steps: seq<Step>, i: nat)
    ensures Flushing(run, steps, i, 0) && i + 2 < |run| && steps[i + 1] == SFlushId(0)
    ensures run[i].busy == map[] && run[i + 1].busy == map[] && run[i + 2].busy == map[] && run[|steps|].busy == map[]
    ensures var w := run[|steps|];
      && 0 in w.flushes && w.flushes[0].Took? && PassedOn(w, w.flushes[0].id, SECOND) && SECOND in w.c.mem
      && Revived(w, SECOND)
  {
    hide Enabled, Apply, Ends, Flushing, Checked, Copied, PassedOn, Revived;
    run, steps, i := GapStart();
    FillSecond();
    run, steps := FlushingNext(run, steps, i, Checked(), SFill(SECOND, FirstCopy()));
    CopiedInv(run, steps);
    CopiedRevives();
    run, steps := FlushingNext(run, steps, i, Copied(), SRescue(FIRST, SECOND));
    EndsLength(run, steps, Apply(Copied(), SRescue(FIRST, SECOND)));
  }

  // The flush has taken its id, and the rescue begins.
  lemma GapStart() returns (run: seq<World>, steps: seq<Step>, i: nat)
    ensures Ends(run, steps, Checked()) && Flushing(run, steps, i, 0) && i + 2 < |run| && steps[i + 1] == SFlushId(0)
    ensures run[i].busy == map[] && run[i + 1].busy == map[] && run[i + 2].busy == map[]
  {
    hide Enabled, Apply, Stored, FlushedTo, Ends, Flushing, Checked;
    run, steps := StoredRun();
    EndsLength(run, steps, Stored());
    GapSteps();
    i := |steps|;
    run, steps := FlushNext(run, steps, Stored());
    EndsLength(run, steps, FlushedTo(Stored()));
    run, steps := FlushingNext(run, steps, i, FlushedTo(Stored()), SCheck(FIRST));
  }

  lemma FlushingNext(run: seq<World>, steps: seq<Step>, i: nat, w: World, a: Step)
      returns (r: seq<World>, s: seq<Step>)
    requires Ends(run, steps, w) && Flushing(run, steps, i, 0) && Enabled(w, a) && w.env.now > 0 && !IsFlush(a)
    ensures Ends(r, s, Apply(w, a)) && Flushing(r, s, i, 0) && r == run + [Apply(w, a)] && s == steps + [a]
  {
    hide Enabled, Apply, Empty;
    r, s := EndsNext(run, steps, w, a);
    FlushGoesOn(w, a, 0);
  }

  lemma FlushGoesOn(w: World, a: Step, th: nat)
    requires Enabled(w, SFlushCas(th)) && Enabled(w, a) && w.env.now > 0 && !IsFlush(a)
    ensures Enabled(Apply(w, a), SFlushCas(th))
  {
    hide Apply, LinkedIn, Usable, Takes, Unlinked, Succeeds, Alive, Dead, OffLimits;
    TookStays(w, a, th);
  }

  lemma CopiedInv(run: seq<World>, steps: seq<Step>)
    requires Ends(run, steps, Copied())
    ensures Inv(Copied())
  {
    hide Enabled, Apply, Copied, Inv, Empty;
    RunInv(run, steps, |steps|);
  }

  lemma StoredRun() returns (run: seq<World>, steps: seq<Step>)
    ensures Ends(run, steps, Stored())
  {
    run, steps := [Empty()], [];
    assert Ends(run, steps, Empty());
    FirstSteps();
    hide Enabled, Apply, Empty, Filled, Linked, Stored, Initial;
    run, steps := EndsNext(run, steps, Empty(), SFill(FIRST, FirstItem()));
    run, steps := EndsNext(run, steps, Filled(), SLink(FIRST));
    run, steps := EndsNext(run, steps, Linked(), SDrop(FIRST));
  }

  function FlushedTo(w: World): World {
    w.(env := w.env.(oldestLive := if w.env.now > 0 then w.env.now - 1 else 0), c := w.c.(casId := w.c.casId + 1),
       flushes := w.flushes[0 := Took(w.c.casId + 1)])
  }

  // flush_all up to the id it takes
  lemma FlushNext(run: seq<World>, steps: seq<Step>, w: World) returns (r: seq<World>, s: seq<Step>)
    requires Ends(run, steps, w) && w.env.useCas && w.flushes == map[] && w.env.now >= 2
    ensures Ends(r, s, FlushedTo(w)) && |r| == |run| + 2 && r[..|run|] == run && r[|run|].busy == w.busy
    ensures s == steps + [SFlushLive(0, w.env.now), SFlushId(0)] && Flushing(r, s, |steps|, 0)
    ensures FlushedTo(w).busy == w.busy && FlushedTo(w).env.now > 0
  {
    var a, b := SFlushLive(0, w.env.now), SFlushId(0);
    FlushGoes(w);
    hide Enabled, Apply, FlushedTo, Empty;
    r, s := EndsNext(run, steps, w, a);
    r, s := EndsNext(r, s, Apply(w, a), b);
    assert s[|steps|] == a && s[|steps| + 1] == b && run[|steps|] == w;
    EmptyCas();
  }

  lemma FlushGoes(w: World)
    requires w.env.useCas && w.flushes == map[] && w.env.now >= 2
    ensures Enabled(w, SFlushLive(0, w.env.now)) && w.env.now > 0
    ensures var x := Apply(w, SFlushLive(0, w.env.now));
      x.busy == w.busy && x.env.now > 0 && Enabled(x, SFlushId(0)) && Apply(x, SFlushId(0)) == FlushedTo(w)
    ensures FlushedTo(w).busy == w.busy && FlushedTo(w).env.now > 0 && Enabled(FlushedTo(w), SFlushCas(0))
  {
    LiveGoes(w);
    var x := w.(env := w.env.(oldestLive := w.env.now - 1), flushes := w.flushes[0 := Wrote]);
    hide Enabled, Apply;
    IdGoes(x);
    assert x.flushes[0 := Took(w.c.casId + 1)] == FlushedTo(w).flushes;
    CasGoes(FlushedTo(w));
  }

  lemma LiveGoes(w: World)
    requires w.env.useCas && w.flushes == map[] && w.env.now >= 2
    ensures Enabled(w, SFlushLive(0, w.env.now)) && w.env.now > 0
    ensures Apply(w, SFlushLive(0, w.env.now)) ==
      w.(env := w.env.(oldestLive := w.env.now - 1), flushes := w.flushes[0 := Wrote])
  {
  }

  lemma IdGoes(w: World)
    requires 0 in w.flushes && w.flushes[0].Wrote? && 0 < w.env.now && w.env.oldestLive <= w.env.now
    ensures Enabled(w, SFlushId(0))
    ensures Apply(w, SFlushId(0)) ==
      w.(c := w.c.(casId := w.c.casId + 1), flushes := w.flushes[0 := Took(w.c.casId + 1)])
  {
  }

  lemma CasGoes(w: World)
    requires 0 in w.flushes && w.flushes[0].Took?
    ensures Enabled(w, SFlushCas(0))
  {
  }

  lemma EmptyCas()
    ensures Empty().env.useCas
  {
  }

  lemma EndsLength(run: seq<World>, steps: seq<Step>, w: World)
    requires Ends(run, steps, w)
    ensures |run| == |steps| + 1 && run[|steps|] == w
  {
    hide Initial, Enabled, Apply, Empty;
  }

  const SECOND: Ptr := Chunk(0, 1)

  function FirstCopy(): Item { CopyOf(FirstItem()) }

  function Checked(): World { FlushedTo(Stored()).(busy := map[FIRST := Rescuing]) }

  function Copied(): World {
    var w := Checked();
    w.(c := Edit(w.c, SECOND, FirstCopy()))
  }

  lemma StoredFacts()
    ensures var w := Stored();
      && w.busy == map[] && w.flushes == map[] && w.env.now == 2 && w.env.useCas && w.c.casId == 1
      && w.origin == map[FIRST := 1] && FIRST in w.c.mem && SECOND !in w.c.mem
  {
  }

  lemma GapSteps()
    ensures Enabled(FlushedTo(Stored()), SCheck(FIRST)) && Apply(FlushedTo(Stored()), SCheck(FIRST)) == Checked()
    ensures Stored().busy == map[] && Stored().flushes == map[] && Stored().env.now >= 2 && Stored().env.useCas
    ensures FlushedTo(Stored()).env.now > 0 && Checked().env.now > 0
  {
    hide PullTail, Get, Update, Link, Unlink, Drop, Crawl, Rewrite, Replace, OffLimits, CopyCas;
  }

  lemma FillSecond()
    ensures Enabled(Checked(), SFill(SECOND, FirstCopy())) && Apply(Checked(), SFill(SECOND, FirstCopy())) == Copied()
    ensures Checked().env.now > 0
  {
    hide PullTail, Get, Update, Link, Unlink, Drop, Crawl, Rewrite, Replace, OffLimits, CopyCas, Alive, Dead, Stored;
    StoredFacts();
    assert Checked().origin - {SECOND} == Checked().origin;
  }

  lemma RescueSecond()
    ensures Enabled(Copied(), SRescue(FIRST, SECOND)) && Copied().env.now > 0
    ensures var w := Copied();
      && w.env.useCas && w.env.now == 2 && w.env.oldestLive == 1 && w.c.casId == 2 && w.flushes == map[0 := Took(2)]
      && w.busy == map[FIRST := Rescuing] && w.origin == map[FIRST := 1] && w.c.mem[SECOND].content.exptime == 0
  {
    hide PullTail, Get, Update, Link, Unlink, Drop, Crawl, Rewrite, Replace, OffLimits, CopyCas, Alive, Dead;
  }

  lemma CopiedRevives()
    requires Inv(Copied())
    ensures Enabled(Copied(), SRescue(FIRST, SECOND)) && Copied().env.now > 0
    ensures var w := Apply(Copied(), SRescue(FIRST, SECOND));
      && w.busy == map[] && 0 in w.flushes && w.flushes[0].Took? && PassedOn(w, w.flushes[0].id, SECOND)
      && SECOND in w.c.mem && Revived(w, SECOND) && Enabled(w, SFlushCas(0))
  {
    RescueSecond();
    hide Inv, Replace, Copied, Checked, Stored, FlushedTo, FirstCopy, Get, PullTail, Alive, Dead, OffLimits;
    SucceedTouches(Copied(), SRescue(FIRST, SECOND));
    SucceedKeepsFlush(Copied(), SRescue(FIRST, SECOND));
  }

  lemma SucceedKeepsFlush(w: World, a: Step)
    requires Enabled(w, a) && w.env.now > 0 && (a.SRescue? || a.SReplace?)
    ensures var z := Apply(w, a);
      && z.flushes == w.flushes && z.env == w.env && z.busy == w.busy - {a.p}
      && ValueIn(z.origin, a.q) == ValueIn(w.origin, a.p)
  {
    hide Replace;
  }

  function Filled(): World { Empty().(c := Cache(map[FIRST := FirstItem()], map[], map[], map[], 0, 0)) }

  function Linked(): World {
    var it := FirstItem();
    World(Cache(map[FIRST := it.(flags := it.flags.(linked := true), refcount := 2)], map[FIRST := Stamp(2, 1)],
                map["k" := FIRST], map[Queue(1, Cold) := [FIRST]], 1, 1),
          Empty().env, map[], map[FIRST := 2], map[FIRST := 1], map[])
  }

  function Stored(): World {
    var w := Linked();
    w.(c := Edit(w.c, FIRST, w.c.mem[FIRST].(refcount := 1)))
  }

  lemma FirstSteps()
    ensures Enabled(Empty(), SFill(FIRST, FirstItem())) && Apply(Empty(), SFill(FIRST, FirstItem())) == Filled()
    ensures Enabled(Filled(), SLink(FIRST)) && Apply(Filled(), SLink(FIRST)) == Linked()
    ensures Enabled(Linked(), SDrop(FIRST)) && Apply(Linked(), SDrop(FIRST)) == Stored()
  {
    assert Empty().origin - {FIRST} == map[];
    assert [FIRST] + QueueIn(map[], Queue(1, Cold)) == [FIRST];
    assert PushQueue(map[], Queue(1, Cold), FIRST) == map[Queue(1, Cold) := [FIRST]];
  }

  lemma FirstBegins(intent: Intent)
    ensures var w := Stored(); var a := if intent == Rescuing then SCheck(FIRST) else SBegin("k", intent);
      && Enabled(w, a) && w.env.now > 0 && w.env.useCas
      && var z := Apply(w, a);
         && FIRST in z.busy && z.busy[FIRST] == intent && z.flushes == map[] && z.env.now >= 2 && z.env.useCas
         && var y := FlushedTo(z);
            && FIRST in y.c.mem && InFlightOld(y, 2, FIRST) && y.busy[FIRST] == intent && Reviving(y, FIRST)
            && y.flushes == map[0 := Took(2)]
  {
  }

}
