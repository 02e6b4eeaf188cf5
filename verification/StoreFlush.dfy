// What an immediate flush_all does to history, with use_cas on: the invariant of everything that comes after it.
module StoreFlush {
  import opened Memory
  import opened Linkage
  import opened CacheSpec
  import opened LruPull
  import opened LruPullProofs
  import opened Store
  import opened StoreProofs
  import opened StoreTheorems
  import opened StoreBackground
  import opened StoreRuns

  // The steps of flush_all that write the settings.
  predicate IsFlush(a: Step) { a.SFlushLive? || a.SFlushCas? }

  // ---- what each item is like after the flush that took cas id c0 ----

  // It will be expired before do_item_update can move its time past the flush.
  predicate Doomed(env: Env, time: nat, exptime: nat) {
    ExpiredNow(env, exptime)
    || (time <= env.oldestLive && env.now >= ITEM_UPDATE_INTERVAL && exptime != 0
        && exptime <= time + ITEM_UPDATE_INTERVAL + 1)
  }

  // Loose: what holds whatever was in flight. Doom: old values may get new ids, but nobody will see them. Strict: they
  // get none.
  datatype Mode = Loose | Doom | Strict

  predicate Excusable(mode: Mode, env: Env, time: nat, exptime: nat) {
    mode == Loose || (mode == Doom && Doomed(env, time, exptime))
  }

  // What is stored after the flush has a newer id and a later time, and what has a newer id was stored after it.
  ghost predicate ItemAfter(mode: Mode, c: Cache, env: Env, origin: map<Ptr, nat>, c0: nat, p: Ptr) {
    LinkedIn(c.mem, p) ==>
      && CasOf(c, p) != c0 && CasOf(c, p) > 0 && ValueIn(origin, p) != c0
      && (ValueIn(origin, p) > c0 ==> CasOf(c, p) > c0 && TimeOf(c, p) > env.oldestLive)
      && (CasOf(c, p) > c0 ==> ValueIn(origin, p) > c0 || Excusable(mode, env, TimeOf(c, p), c.mem[p].content.exptime))
  }

  // What an operation in flight can still pass on.
  predicate InFlightOk(mode: Mode, env: Env, intent: Intent, origin: nat, time: nat, exptime: nat, c0: nat) {
    origin > c0 || mode == Loose
    || (mode == Doom && (ExpiredNow(env, exptime) || (intent == Counting && Doomed(env, time, exptime))))
  }

  ghost predicate BusyAfter(mode: Mode, w: World, c0: nat, p: Ptr) {
    p in w.busy && p in w.c.mem ==>
      && InFlightOk(mode, w.env, w.busy[p], ValueIn(w.origin, p), TimeOf(w.c, p), w.c.mem[p].content.exptime, c0)
      && ValueIn(w.origin, p) != c0
  }

  ghost predicate Items(mode: Mode, w: World, c0: nat) { forall p :: ItemAfter(mode, w.c, w.env, w.origin, c0, p) }

  ghost predicate InFlight(mode: Mode, w: World, c0: nat) { forall p :: BusyAfter(mode, w, c0, p) }

  ghost predicate Settings(w: World, c0: nat) {
    w.env.useCas && w.env.oldestCas == c0 > 0 && 0 < w.env.oldestLive < w.env.now && w.c.casId >= c0
  }

  ghost predicate After(mode: Mode, w: World, c0: nat) {
    Settings(w, c0) && Items(mode, w, c0) && InFlight(mode, w, c0)
  }

  // While the flush is in force, an item that is not considered flushed has a newer id.
  lemma Unflushed(mode: Mode, w: World, c0: nat, p: Ptr)
    requires After(mode, w, c0) && LinkedIn(w.c.mem, p)
    ensures IsFlushed(w.c, w.env, p) <==> TimeOf(w.c, p) <= w.env.oldestLive || CasOf(w.c, p) < c0
    ensures !IsFlushed(w.c, w.env, p) ==> CasOf(w.c, p) > c0
    ensures ValueIn(w.origin, p) > c0 ==> !IsFlushed(w.c, w.env, p)
    ensures !IsFlushed(w.c, w.env, p) ==>
      ValueIn(w.origin, p) > c0 || Excusable(mode, w.env, TimeOf(w.c, p), w.c.mem[p].content.exptime)
  {
    assert ItemAfter(mode, w.c, w.env, w.origin, c0, p);
    hide Items, InFlight;
  }

  // ---- what a step does to an item it does not stamp ----

  // The item and its times are as before, but for the bump of do_item_update or of the tail puller.
  ghost predicate Carried(w: World, z: World, a: Step, p: Ptr) {
    && p in z.c.mem && p in w.c.mem && z.c.mem[p].content.exptime == w.c.mem[p].content.exptime
    && TimeOf(z.c, p) >= TimeOf(w.c, p)
    && (a.SUse? && TimeOf(z.c, p) != TimeOf(w.c, p) ==> Stale(w.env, TimeOf(w.c, p)))
    && (a.SPull? ==> IsFlushed(z.c, w.env, p) == IsFlushed(w.c, w.env, p))
    && (!a.SUse? && !a.SPull? ==> TimeOf(z.c, p) == TimeOf(w.c, p))
  }

  lemma SameCarried(w: World, z: World, a: Step, p: Ptr)
    requires p in w.c.mem && p in z.c.mem && z.c.mem[p] == w.c.mem[p]
        && StampOf(z.c.stamps, p) == StampOf(w.c.stamps, p)
    ensures Carried(w, z, a, p)
  {
    hide Flushed;
  }

  // Only item p is written, and no provenance but its own changes.
  ghost predicate OnlyThere(w: World, z: World, p: Ptr) {
    && (forall x :: x != p && x in w.c.mem ==> x in z.c.mem && z.c.mem[x] == w.c.mem[x])
    && (forall x :: x != p ==>
          StampOf(z.c.stamps, x) == StampOf(w.c.stamps, x) && ValueIn(z.origin, x) == ValueIn(w.origin, x))
    && (forall x :: x != p && x in w.busy ==> x in z.busy && z.busy[x] == w.busy[x])
  }

  predicate OnUnlinked(a: Step) { a.SFill? || a.SLink? || a.SCopyCas? }

  predicate OnLinked(a: Step) { a.SUnlink? || a.SDrop? || a.SCrawl? || a.SUse? || a.STouch? }

  lemma UnlinkedWritten(w: World, a: Step)
    requires Enabled(w, a) && w.env.now > 0 && OnUnlinked(a)
    ensures !LinkedIn(w.c.mem, a.p) && OnlyThere(w, Apply(w, a), a.p)
  {
    hide Link, CopyCas, OnlyThere;
    if a.SLink? { LinkWritten(w, a.p); } else { FillWritten(w, a); }
  }

  lemma LinkWritten(w: World, p: Ptr)
    requires p in w.c.mem
    ensures OnlyThere(w, w.(c := Link(w.c, w.env, p), used := w.used[p := w.env.now],
        origin := w.origin[p := NextId(w.env, w.c)]), p)
  {
    hide PushQueue;
  }

  lemma FillWritten(w: World, a: Step)
    requires Enabled(w, a) && w.env.now > 0 && (a.SFill? || a.SCopyCas?)
    ensures OnlyThere(w, Apply(w, a), a.p)
  {
  }

  lemma LinkedWritten(w: World, a: Step)
    requires Enabled(w, a) && w.env.now > 0 && OnLinked(a)
    ensures a.p !in w.busy && OnlyThere(w, Apply(w, a), a.p)
  {
    hide Unlink, Drop, Crawl, Update, OnlyThere, Alive, Others;
    if a.SUse? { UpdateWritten(w, a.p); } else { EditWritten(w, a); }
  }

  lemma UpdateWritten(w: World, p: Ptr)
    requires p in w.c.mem
    ensures OnlyThere(w, w.(c := Update(w.c, w.env, p), used := w.used[p := w.env.now]), p)
  {
    hide PushQueue, EraseQueue;
  }

  lemma EditWritten(w: World, a: Step)
    requires Enabled(w, a) && w.env.now > 0 && (a.SUnlink? || a.SDrop? || a.SCrawl? || a.STouch?)
    ensures OnlyThere(w, Apply(w, a), a.p)
  {
    hide EraseQueue, Dead, Alive, Others;
  }

  // What is left of an item that is linked still.
  lemma SubjectCarried(w: World, a: Step)
    requires Enabled(w, a) && w.env.now > 0 && (a.SUnlink? || a.SDrop? || a.SCrawl?)
    requires LinkedIn(w.c.mem, a.p) && LinkedIn(Apply(w, a).c.mem, a.p)
    ensures Carried(w, Apply(w, a), a, a.p)
  {
    hide PushQueue, EraseQueue, Dead, Flushed, Others;
  }

  lemma OneCarried(w: World, a: Step, p: Ptr)
    requires Enabled(w, a) && w.env.now > 0 && LinkedIn(w.c.mem, p) && LinkedIn(Apply(w, a).c.mem, p)
    requires OnUnlinked(a) || (OnLinked(a) && (p == a.p ==> !a.SUse? && !a.STouch?))
    ensures Carried(w, Apply(w, a), a, p)
  {
    hide Enabled, Apply, Carried;
    if OnUnlinked(a) { UnlinkedWritten(w, a); } else { LinkedWritten(w, a); }
    if p == a.p { SubjectCarried(w, a); } else { SameCarried(w, Apply(w, a), a, p); }
  }

  lemma GetCarried(w: World, a: Step, p: Ptr)
    requires Inv(w) && Enabled(w, a) && w.env.now > 0 && LinkedIn(w.c.mem, p) && LinkedIn(Apply(w, a).c.mem, p)
    requires a.SGet? || a.SBegin?
    ensures Carried(w, Apply(w, a), a, p)
  {
    hide Coherent, Timely, CasOk, BusyOk, Flushed, Get;
    GetWritten(w.c, w.env, a.key);
    GetContent(w.c, w.env, a.key);
  }

  lemma GetContent(c: Cache, env: Env, key: Key)
    requires key in c.table ==> Usable(c, c.table[key])
    ensures key in c.table && c.table[key] in Get(c, env, key).0.mem && c.table[key] in c.mem ==>
      Get(c, env, key).0.mem[c.table[key]].content == c.mem[c.table[key]].content
  {
    hide EraseQueue, Flushed;
  }

  lemma UseCarried(w: World, a: Step)
    requires Inv(w) && Enabled(w, a) && w.env.now > 0 && a.SUse?
    ensures LinkedIn(w.c.mem, a.p) && Carried(w, Apply(w, a), a, a.p)
  {
    TimeAt(w.c, w.env, a.p);
    UpdateTime(w.c, w.env, a.p);
    hide Coherent, Timely, CasOk, BusyOk, Flushed, Update;
  }

  lemma PullCarried(w: World, a: Step, p: Ptr)
    requires Inv(w) && Enabled(w, a) && w.env.now > 0 && LinkedIn(w.c.mem, p) && LinkedIn(Apply(w, a).c.mem, p)
        && a.SPull?
    ensures Carried(w, Apply(w, a), a, p)
  {
    hide BusyOk, CasOk, PullTail, TableShrinks, OwnKept, VictimOk, AllKept, QueueIn, Coherent, Timely, OffLimits;
    PullTailOk(w.c, w.env, a.o, a.call);
    AllAt(w.c, PullTail(w.c, w.env, a.o, a.call).c, w.env, p);
    hide Flushed, Others;
  }

  lemma SucceedCarried(w: World, a: Step, p: Ptr)
    requires Inv(w) && Enabled(w, a) && w.env.now > 0 && LinkedIn(w.c.mem, p) && LinkedIn(Apply(w, a).c.mem, p)
    requires (a.SRescue? || a.SReplace?) && p != a.q
    ensures p != a.p && Carried(w, Apply(w, a), a, p)
  {
    hide Coherent, Timely, CasOk, BusyOk, Carried, PushQueue, EraseQueue, Unlink;
    SucceedTouches(w, a);
    SameCarried(w, Apply(w, a), a, p);
  }

  // Only the two items are written.
  lemma SucceedTouches(w: World, a: Step)
    requires Inv(w) && Enabled(w, a) && w.env.now > 0 && (a.SRescue? || a.SReplace?)
    ensures var z := Apply(w, a);
      && a.p in z.c.mem && !z.c.mem[a.p].flags.linked && a.q in z.c.mem && LinkedIn(z.c.mem, a.q)
      && z.c.mem[a.q].content == w.c.mem[a.q].content && TimeOf(z.c, a.q) == w.env.now
      && (w.env.useCas ==> CasOf(z.c, a.q) == w.c.casId + 1)
      && (forall x :: x != a.p && x != a.q && x in w.c.mem ==> x in z.c.mem && z.c.mem[x] == w.c.mem[x])
      && forall x :: x != a.q ==> StampOf(z.c.stamps, x) == StampOf(w.c.stamps, x)
  {
    hide Timely, BusyOk, Coherent, CasOk, Replace;
    BusyLinked(w.c, w.busy, a.p);
    ReplaceTouches(w.c, w.env, a.p, a.q);
  }

  lemma ReplaceTouches(c: Cache, env: Env, p: Ptr, q: Ptr)
    requires Coherent(c) && CasOk(c, env) && LinkedIn(c.mem, p)
    requires FilledIn(c.mem, q) && !c.mem[q].flags.linked && q != p
    ensures Usable(c, p)
    ensures var c1 := Replace(c, env, p, q);
      && p in c1.mem && !c1.mem[p].flags.linked && q in c1.mem && LinkedIn(c1.mem, q)
      && c1.mem[q].content == c.mem[q].content && TimeOf(c1, q) == env.now
      && (env.useCas ==> CasOf(c1, q) == c.casId + 1)
      && (forall x :: x != p && x != q && x in c.mem ==> x in c1.mem && c1.mem[x] == c.mem[x])
      && (forall x :: x != q ==> StampOf(c1.stamps, x) == StampOf(c.stamps, x))
      && c.mem[q].key in c1.table && c1.table[c.mem[q].key] == q
  {
    hide PushQueue, EraseQueue, Unlink, Coherent;
    LinkedHere(c, p);
    CasFacts(c, env, q);
    UnlinkEffect(c, p);
    hide CasOk;
  }

  lemma StillCarried(w: World, a: Step, p: Ptr)
    requires Enabled(w, a) && w.env.now > 0 && LinkedIn(w.c.mem, p)
    requires a.STick? || a.SCheck? || a.SAbandon? || a.SFlushId? || a.SFlushLater?
    ensures Carried(w, Apply(w, a), a, p)
  {
    hide Flushed, Dead;
  }

  lemma RewriteCarried(w: World, a: Step, p: Ptr)
    requires Inv(w) && Enabled(w, a) && w.env.now > 0 && LinkedIn(w.c.mem, p) && a.SRewrite? && p != a.p
    ensures Carried(w, Apply(w, a), a, p)
  {
    hide Coherent, Timely, CasOk, BusyOk, Rewrite, Carried;
    BusyLinked(w.c, w.busy, a.p);
    OverwriteElse(w.c, w.env, a.p, a.data, p);
    UpdateElse(Overwrite(w.c, w.env, a.p, a.data), w.env, a.p, p);
    RewriteIs(w.c, w.env, a.p, a.data);
    SameCarried(w, Apply(w, a), a, p);
  }

  lemma RewriteIs(c: Cache, env: Env, p: Ptr, data: string)
    requires p in c.mem
    ensures p in Overwrite(c, env, p, data).mem
    ensures Rewrite(c, env, p, data) == Update(Overwrite(c, env, p, data), env, p)
  {
    hide Update;
  }

  lemma OverwriteElse(c: Cache, env: Env, p: Ptr, data: string, x: Ptr)
    requires p in c.mem && x != p && x in c.mem
    ensures var c1 := Overwrite(c, env, p, data);
      x in c1.mem && c1.mem[x] == c.mem[x] && StampOf(c1.stamps, x) == StampOf(c.stamps, x)
  {
  }

  lemma UpdateElse(c: Cache, env: Env, p: Ptr, x: Ptr)
    requires p in c.mem && x != p && x in c.mem
    ensures var c1 := Update(c, env, p);
      x in c1.mem && c1.mem[x] == c.mem[x] && StampOf(c1.stamps, x) == StampOf(c.stamps, x)
  {
    hide PushQueue, EraseQueue;
  }

  lemma EachCarried(w: World, a: Step, p: Ptr)
    requires Inv(w) && Enabled(w, a) && w.env.now > 0 && LinkedIn(w.c.mem, p) && LinkedIn(Apply(w, a).c.mem, p)
    requires p != Stamped(a) && !(a.STouch? && a.p == p) && !IsFlush(a)
    ensures Carried(w, Apply(w, a), a, p)
  {
    hide Inv, Enabled, Apply, Carried;
    match a {
      case STick(_) => StillCarried(w, a, p);
      case SCheck(_) => StillCarried(w, a, p);
      case SAbandon(_) => StillCarried(w, a, p);
      case SFlushId(_) => StillCarried(w, a, p);
      case SFlushLater(_) => StillCarried(w, a, p);
      case SGet(_) => GetCarried(w, a, p);
      case SBegin(_, _) => GetCarried(w, a, p);
      case SUse(_) => if p == a.p { UseCarried(w, a); } else { OneCarried(w, a, p); }
      case SPull(_, _) => PullCarried(w, a, p);
      case SRescue(_, _) => SucceedCarried(w, a, p);
      case SReplace(_, _) => SucceedCarried(w, a, p);
      case SRewrite(_, _) => RewriteCarried(w, a, p);
      case _ => OneCarried(w, a, p);
    }
  }

  // ---- operations in flight ----

  // Nobody else writes an item whose lock is held.
  ghost predicate Untouched(w: World, z: World, p: Ptr) {
    && p in w.c.mem && p in z.c.mem && z.c.mem[p] == w.c.mem[p] && StampOf(z.c.stamps, p) == StampOf(w.c.stamps, p)
    && ValueIn(z.origin, p) == ValueIn(w.origin, p) && p in w.busy && p in z.busy && z.busy[p] == w.busy[p]
  }

  lemma ElseUntouched(w: World, z: World, p: Ptr, x: Ptr)
    requires OnlyThere(w, z, p) && x != p && x in w.busy && x in w.c.mem
    ensures Untouched(w, z, x)
  {
  }

  lemma SimpleUntouched(w: World, a: Step, p: Ptr)
    requires Inv(w) && Enabled(w, a) && w.env.now > 0 && p in w.busy && (OnUnlinked(a) || OnLinked(a))
    ensures Untouched(w, Apply(w, a), p)
  {
    hide Coherent, Timely, CasOk, Enabled, Apply, Untouched, OnlyThere;
    BusyLinked(w.c, w.busy, p);
    if OnUnlinked(a) { UnlinkedWritten(w, a); } else { LinkedWritten(w, a); }
    ElseUntouched(w, Apply(w, a), a.p, p);
  }

  lemma GetUntouched(w: World, a: Step, p: Ptr)
    requires Inv(w) && Enabled(w, a) && w.env.now > 0 && p in w.busy && (a.SGet? || a.SBegin?)
    ensures Untouched(w, Apply(w, a), p)
  {
    hide Coherent, Timely, CasOk, Untouched, Flushed, Get;
    BusyLinked(w.c, w.busy, p);
    GetWritten(w.c, w.env, a.key);
    if a.key in w.c.table { ElseUntouched(w, Apply(w, a), w.c.table[a.key], p); } else { SelfUntouched(w, p); }
  }

  lemma SelfUntouched(w: World, p: Ptr)
    requires p in w.busy && p in w.c.mem
    ensures Untouched(w, w, p)
  {
  }

  lemma GetWritten(c: Cache, env: Env, key: Key)
    requires key in c.table ==> Usable(c, c.table[key])
    ensures var c1 := Get(c, env, key).0;
      c1.stamps == c.stamps && (key !in c.table ==> c1 == c)
      && (key in c.table ==> forall x :: x != c.table[key] && x in c.mem ==> x in c1.mem && c1.mem[x] == c.mem[x])
  {
    hide EraseQueue, Flushed;
  }

  lemma PullUntouched(w: World, a: Step, p: Ptr)
    requires Inv(w) && Enabled(w, a) && w.env.now > 0 && p in w.busy && p in Apply(w, a).busy && a.SPull?
    ensures Untouched(w, Apply(w, a), p)
  {
    hide CasOk, PullTail, TableShrinks, VictimOk, AllKept, QueueIn, Coherent, Timely, OffLimits, OwnKept;
    BusyLinked(w.c, w.busy, p);
    hide BusyOk;
    PullTailOk(w.c, w.env, a.o, a.call);
    PullBusy(w.c, w.env, a.o, a.call, PullTail(w.c, w.env, a.o, a.call), p);
  }

  lemma SucceedUntouched(w: World, a: Step, p: Ptr)
    requires Inv(w) && Enabled(w, a) && w.env.now > 0 && p in w.busy && p in Apply(w, a).busy
        && (a.SRescue? || a.SReplace?)
    ensures Untouched(w, Apply(w, a), p)
  {
    hide Coherent, Timely, CasOk, Replace;
    SucceedTouches(w, a);
  }

  lemma RewriteUntouched(w: World, a: Step, p: Ptr)
    requires Inv(w) && Enabled(w, a) && w.env.now > 0 && p in w.busy && p in Apply(w, a).busy && a.SRewrite?
    ensures Untouched(w, Apply(w, a), p)
  {
    hide Coherent, Timely, CasOk, Rewrite;
    BusyLinked(w.c, w.busy, p);
    BusyLinked(w.c, w.busy, a.p);
    OverwriteElse(w.c, w.env, a.p, a.data, p);
    UpdateElse(Overwrite(w.c, w.env, a.p, a.data), w.env, a.p, p);
    RewriteIs(w.c, w.env, a.p, a.data);
  }

  lemma StillUntouched(w: World, a: Step, p: Ptr)
    requires Inv(w) && Enabled(w, a) && w.env.now > 0 && p in w.busy && p in Apply(w, a).busy
    requires a.STick? || a.SCheck? || a.SAbandon? || a.SFlushId? || a.SFlushLater?
    ensures Untouched(w, Apply(w, a), p)
  {
    hide Coherent, Timely, CasOk, Dead, Alive, Usable, PullTail, Get, Update, Link, Unlink, Drop, Crawl, Rewrite,
        Replace, OffLimits, CopyCas, Edit;
  }

  lemma EachUntouched(w: World, a: Step, p: Ptr)
    requires Inv(w) && Enabled(w, a) && w.env.now > 0 && p in w.busy && p in Apply(w, a).busy && !IsFlush(a)
    ensures Untouched(w, Apply(w, a), p)
  {
    hide Inv, Enabled, Apply, Untouched;
    match a {
      case STick(_) => StillUntouched(w, a, p);
      case SCheck(_) => StillUntouched(w, a, p);
      case SAbandon(_) => StillUntouched(w, a, p);
      case SFlushId(_) => StillUntouched(w, a, p);
      case SFlushLater(_) => StillUntouched(w, a, p);
      case SGet(_) => GetUntouched(w, a, p);
      case SBegin(_, _) => GetUntouched(w, a, p);
      case SPull(_, _) => PullUntouched(w, a, p);
      case SRescue(_, _) => SucceedUntouched(w, a, p);
      case SReplace(_, _) => SucceedUntouched(w, a, p);
      case SRewrite(_, _) => RewriteUntouched(w, a, p);
      case _ => SimpleUntouched(w, a, p);
    }
  }

  // ---- a step keeps it all ----

  lemma StepEnv(w: World, a: Step)
    requires Enabled(w, a) && w.env.now > 0 && !IsFlush(a)
    ensures Apply(w, a).env == w.env.(now := Apply(w, a).env.now) && Apply(w, a).env.now >= w.env.now
    ensures !a.STick? ==> Apply(w, a).env == w.env
  {
    hide Flushed, PullTail, Get, Update, Link, Unlink, Drop, Crawl, Rewrite, Replace, OffLimits;
  }

  lemma OriginKept(w: World, a: Step, p: Ptr)
    requires Enabled(w, a) && w.env.now > 0 && LinkedIn(w.c.mem, p) && (p != Stamped(a) || a.SRewrite?)
    ensures ValueIn(Apply(w, a).origin, p) == ValueIn(w.origin, p)
  {
    hide Flushed, PullTail, Get, Update, Link, Unlink, Drop, Crawl, Rewrite, Replace, OffLimits, CopyCas, Alive, Dead,
        Usable, Edit;
  }

  // A doomed item stays doomed, since by the time its last use may count again it has expired.
  lemma DoomKept(env: Env, env1: Env, time: nat, time1: nat, exptime: nat)
    requires env1.oldestLive == env.oldestLive && env1.now >= env.now && Doomed(env, time, exptime)
    requires time1 >= time && (time1 == time || time1 <= env.oldestLive || Stale(env, time))
    ensures Doomed(env1, time1, exptime)
  {
  }

  lemma CarriedAfter(mode: Mode, w: World, a: Step, c0: nat, p: Ptr)
    requires Inv(w) && Enabled(w, a) && w.env.now > 0 && After(mode, w, c0) && !IsFlush(a)
    requires Kept(w.c, Apply(w, a).c, p) && p != Stamped(a)
    ensures ItemAfter(mode, Apply(w, a).c, Apply(w, a).env, Apply(w, a).origin, c0, p)
  {
    hide Inv, Enabled, Apply, InFlight, Items, Flushed, Doomed, CasOf;
    var z := Apply(w, a);
    OriginKept(w, a, p);
    StepEnv(w, a);
    Unflushed(mode, w, c0, p);
    assert ItemAfter(mode, w.c, w.env, w.origin, c0, p) by { ItemAt(mode, w, c0, p); }
    if a.STouch? && a.p == p {
      TouchAlive(w, a);
      if mode == Doom { DoomedDead(w, p); }
    } else {
      EachCarried(w, a, p);
      var exptime := w.c.mem[p].content.exptime;
      if mode == Doom && Doomed(w.env, TimeOf(w.c, p), exptime) && CasOf(w.c, p) > c0 && ValueIn(w.origin, p) < c0 {
        if a.SPull? {
          PulledDoom(w, z, p, c0);
        } else {
          DoomKept(w.env, z.env, TimeOf(w.c, p), TimeOf(z.c, p), exptime);
        }
      }
    }
  }

  lemma ItemAt(mode: Mode, w: World, c0: nat, p: Ptr)
    requires Items(mode, w, c0)
    ensures ItemAfter(mode, w.c, w.env, w.origin, c0, p)
  {
  }

  lemma TouchAlive(w: World, a: Step)
    requires Enabled(w, a) && a.STouch?
    ensures Alive(w.c, w.env, a.p)
  {
    hide Flushed;
  }

  lemma DoomedDead(w: World, p: Ptr)
    requires Alive(w.c, w.env, p) && w.env.oldestLive > 0 && w.env.oldestLive < w.env.now
    ensures !Doomed(w.env, TimeOf(w.c, p), w.c.mem[p].content.exptime)
  {
  }

  // The tail puller bumps no item that is flushed.
  lemma PulledDoom(w: World, z: World, p: Ptr, c0: nat)
    requires 0 < w.env.oldestLive < w.env.now && w.env.oldestCas == c0 && z.env == w.env
        && CasOf(z.c, p) == CasOf(w.c, p) > c0
    requires p in w.c.mem && p in z.c.mem && TimeOf(z.c, p) >= TimeOf(w.c, p)
    requires IsFlushed(z.c, w.env, p) == IsFlushed(w.c, w.env, p)
        && z.c.mem[p].content.exptime == w.c.mem[p].content.exptime
    requires Doomed(w.env, TimeOf(w.c, p), w.c.mem[p].content.exptime)
    ensures Doomed(z.env, TimeOf(z.c, p), z.c.mem[p].content.exptime)
  {
  }

  // What a step stamps is new, or has passed on what was in flight.
  lemma LinkedAfter(mode: Mode, w: World, a: Step, c0: nat)
    requires Inv(w) && Enabled(w, a) && w.env.now > 0 && After(mode, w, c0) && a.SLink?
    ensures ItemAfter(mode, Apply(w, a).c, Apply(w, a).env, Apply(w, a).origin, c0, a.p)
  {
    CasFacts(w.c, w.env, a.p);
    hide Coherent, Timely, CasOk, BusyOk, PushQueue, Items, InFlight;
  }

  lemma SucceededAfter(mode: Mode, w: World, a: Step, c0: nat)
    requires Inv(w) && Enabled(w, a) && w.env.now > 0 && After(mode, w, c0) && (a.SRescue? || a.SReplace?)
    ensures ItemAfter(mode, Apply(w, a).c, Apply(w, a).env, Apply(w, a).origin, c0, a.q)
  {
    hide Inv, Items, InFlight, Doomed, Replace, CasOf, TimeOf;
    SucceedTouches(w, a);
    SucceedOrigin(w, a);
    StepEnv(w, a);
    assert BusyAfter(mode, w, c0, a.p) by { BusyAt(mode, w, c0, a.p); }
    if mode == Doom { ExpiredDoomed(w.env, w.env.now, w.c.mem[a.q].content.exptime); }
  }

  lemma SucceedOrigin(w: World, a: Step)
    requires Enabled(w, a) && w.env.now > 0 && (a.SRescue? || a.SReplace?)
    ensures a.p in w.busy && a.p in w.c.mem && a.q in w.c.mem && w.busy[a.p] != Counting
    ensures ValueIn(Apply(w, a).origin, a.q) == ValueIn(w.origin, a.p)
    ensures w.c.mem[a.q].content.exptime == w.c.mem[a.p].content.exptime
  {
    hide Replace;
  }

  lemma RewrittenAfter(mode: Mode, w: World, a: Step, c0: nat)
    requires Inv(w) && Enabled(w, a) && w.env.now > 0 && After(mode, w, c0) && a.SRewrite?
    ensures ItemAfter(mode, Apply(w, a).c, Apply(w, a).env, Apply(w, a).origin, c0, a.p)
  {
    hide Coherent, Timely, CasOk, BusyOk, Items, InFlight, Update, Doomed, CasOf;
    BusyLinked(w.c, w.busy, a.p);
    assert BusyAfter(mode, w, c0, a.p) by { BusyAt(mode, w, c0, a.p); }
    assert ItemAfter(mode, w.c, w.env, w.origin, c0, a.p) by { ItemAt(mode, w, c0, a.p); }
    TimeAt(w.c, w.env, a.p);
    OverwriteOk(w.c, w.env, a.p, a.data);
    var c1 := Overwrite(w.c, w.env, a.p, a.data);
    OverwriteTime(w.c, w.env, a.p, a.data);
    UpdateMinor(c1, w.env, a.p);
    UpdateTime(c1, w.env, a.p);
    var exptime := w.c.mem[a.p].content.exptime;
    if mode == Doom && ValueIn(w.origin, a.p) < c0 {
      assert Doomed(w.env, TimeOf(w.c, a.p), exptime) by { ExpiredDoomed(w.env, TimeOf(w.c, a.p), exptime); }
      DoomKept(w.env, w.env, TimeOf(w.c, a.p), TimeOf(Apply(w, a).c, a.p), exptime);
    }
  }

  lemma ExpiredDoomed(env: Env, time: nat, exptime: nat)
    ensures ExpiredNow(env, exptime) ==> Doomed(env, time, exptime)
  {
  }

  lemma OverwriteTime(c: Cache, env: Env, p: Ptr, data: string)
    requires p in c.mem
    ensures var c1 := Overwrite(c, env, p, data);
      && p in c1.mem && TimeOf(c1, p) == TimeOf(c, p) && c1.mem[p].content.exptime == c.mem[p].content.exptime
      && c1.mem[p].flags == c.mem[p].flags
  {
  }

  lemma UpdateTime(c: Cache, env: Env, p: Ptr)
    requires LinkedIn(c.mem, p)
    ensures var c1 := Update(c, env, p);
      && TimeOf(c1, p) == (if Stale(env, TimeOf(c, p)) then env.now else TimeOf(c, p)) && CasOf(c1, p) == CasOf(c, p)
      && LinkedIn(c1.mem, p) && c1.mem[p].content == c.mem[p].content
  {
    hide PushQueue, EraseQueue;
  }

  lemma BusyAt(mode: Mode, w: World, c0: nat, p: Ptr)
    requires InFlight(mode, w, c0)
    ensures BusyAfter(mode, w, c0, p)
  {
  }

  lemma ItemStep(mode: Mode, w: World, a: Step, c0: nat, p: Ptr)
    requires Inv(w) && Enabled(w, a) && w.env.now > 0 && After(mode, w, c0) && !IsFlush(a)
    ensures ItemAfter(mode, Apply(w, a).c, Apply(w, a).env, Apply(w, a).origin, c0, p)
  {
    hide Inv, Enabled, Apply, After, ItemAfter, Kept;
    assert w.env.useCas by { AfterSettings(mode, w, c0); }
    EachStepOk(w, a);
    NullUnlinked(Apply(w, a));
    assert Traced(w.c, Apply(w, a).c, Stamped(a), p);
    if !LinkedIn(Apply(w, a).c.mem, p) {
      UnlinkedAfter(mode, Apply(w, a), c0, p);
    } else if p != Stamped(a) {
      CarriedAfter(mode, w, a, c0, p);
    } else {
      match a {
        case SLink(_) => LinkedAfter(mode, w, a, c0);
        case SRewrite(_, _) => RewrittenAfter(mode, w, a, c0);
        case SRescue(_, _) => SucceededAfter(mode, w, a, c0);
        case SReplace(_, _) => SucceededAfter(mode, w, a, c0);
        case _ =>
      }
    }
  }

  lemma UnlinkedAfter(mode: Mode, z: World, c0: nat, p: Ptr)
    requires !LinkedIn(z.c.mem, p)
    ensures ItemAfter(mode, z.c, z.env, z.origin, c0, p)
  {
  }

  lemma AfterSettings(mode: Mode, w: World, c0: nat)
    requires After(mode, w, c0)
    ensures Settings(w, c0)
  {
  }

  lemma NullUnlinked(w: World)
    requires Inv(w)
    ensures !LinkedIn(w.c.mem, Null)
  {
    hide Timely, CasOk, BusyOk;
    NotNullAt(w.c);
  }

  // A new operation starts from an item that is not considered flushed.
  lemma NewBusy(mode: Mode, w: World, a: Step, c0: nat, p: Ptr)
    requires Inv(w) && Enabled(w, a) && w.env.now > 0 && After(mode, w, c0) && p !in w.busy && p in Apply(w, a).busy
    ensures BusyAfter(mode, Apply(w, a), c0, p)
  {
    Begun(w, a, p);
    hide Inv, Enabled, Apply, Items, InFlight, Doomed, Flushed, Alive, Dead, CasOf;
    Unflushed(mode, w, c0, p);
    assert ItemAfter(mode, w.c, w.env, w.origin, c0, p) by { ItemAt(mode, w, c0, p); }
    if mode == Doom && Doomed(w.env, TimeOf(w.c, p), w.c.mem[p].content.exptime) {
      if a.SBegin? { DoomedDead(w, p); } else { DoomedExpired(w, p); }
    }
  }

  lemma DoomedExpired(w: World, p: Ptr)
    requires p in w.c.mem && !IsFlushed(w.c, w.env, p) && 0 < w.env.oldestLive < w.env.now
    requires Doomed(w.env, TimeOf(w.c, p), w.c.mem[p].content.exptime)
    ensures ExpiredNow(w.env, w.c.mem[p].content.exptime)
  {
  }

  lemma Begun(w: World, a: Step, p: Ptr)
    requires Inv(w) && Enabled(w, a) && w.env.now > 0 && p !in w.busy && p in Apply(w, a).busy
    ensures a.SBegin? || a.SCheck?
    ensures var z := Apply(w, a);
      && LinkedIn(w.c.mem, p) && !IsFlushed(w.c, w.env, p) && (a.SBegin? ==> Alive(w.c, w.env, p)) && p in z.c.mem
      && z.c.mem[p].content == w.c.mem[p].content && TimeOf(z.c, p) == TimeOf(w.c, p)
      && z.origin == w.origin && z.env == w.env
  {
    hide Coherent, Timely, CasOk, BusyOk, PullTail, Update, Link, Unlink, Drop, Crawl, Rewrite, Replace, Flushed,
        OffLimits;
  }

  lemma BusyStep(mode: Mode, w: World, a: Step, c0: nat, p: Ptr)
    requires Inv(w) && Enabled(w, a) && w.env.now > 0 && After(mode, w, c0) && !IsFlush(a)
    ensures BusyAfter(mode, Apply(w, a), c0, p)
  {
    hide Inv, Enabled, Apply, Items, Doomed;
    if p in Apply(w, a).busy {
      if p in w.busy {
        EachUntouched(w, a, p);
        StepEnv(w, a);
        BusyAt(mode, w, c0, p);
        var exptime, time := w.c.mem[p].content.exptime, TimeOf(w.c, p);
        hide InFlight;
        if mode == Doom && Doomed(w.env, time, exptime) { DoomKept(w.env, Apply(w, a).env, time, time, exptime); }
      } else {
        NewBusy(mode, w, a, c0, p);
      }
    }
  }

  lemma AfterKept(mode: Mode, w: World, a: Step, c0: nat)
    requires Inv(w) && Enabled(w, a) && w.env.now > 0 && After(mode, w, c0) && !IsFlush(a)
    ensures After(mode, Apply(w, a), c0)
  {
    hide Inv, Enabled, Apply, ItemAfter, BusyAfter;
    EachStepOk(w, a);
    StepEnv(w, a);
    forall p
      ensures ItemAfter(mode, Apply(w, a).c, Apply(w, a).env, Apply(w, a).origin, c0, p)
    {
      ItemStep(mode, w, a, c0, p);
    }
    forall p ensures BusyAfter(mode, Apply(w, a), c0, p) { BusyStep(mode, w, a, c0, p); }
  }

  predicate NoFlush(steps: seq<Step>) { forall i :: 0 <= i < |steps| ==> !IsFlush(steps[i]) }

  lemma {:induction false} AfterRun(mode: Mode, w: World, steps: seq<Step>, z: World, c0: nat)
    requires Inv(w) && After(mode, w, c0) && Runs(w, steps, z) && NoFlush(steps)
    ensures Inv(z) && After(mode, z, c0)
    decreases |steps|
  {
    hide Inv, Enabled, Apply, After;
    if steps != [] {
      AfterKept(mode, w, steps[0], c0);
      EachStepOk(w, steps[0]);
      AfterRun(mode, Apply(w, steps[0]), steps[1..], z, c0);
    }
  }
}
