// flush_all takes no item lock: what can happen between its write of oldest_live, the cas id it takes, and its write of
// oldest_cas.
module StoreFlushing {
  import opened Memory
  import opened Linkage
  import opened CacheSpec
  import opened LruPull
  import opened LruPullProofs
  import opened Store
  import opened StoreProofs
  import opened StoreTheorems
  import opened StoreRuns
  import opened StoreFlush

  // ---- where values and ids come from ----

  // The id is the flush's own.
  ghost predicate Unique(w: World, id: nat) {
    && 0 < id <= w.c.casId
    && forall p :: ValueIn(w.origin, p) != id && (LinkedIn(w.c.mem, p) ==> CasOf(w.c, p) != id)
  }

  // A value is not younger than the id it is stored under.
  ghost predicate Origins(w: World) {
    && (forall p :: ValueIn(w.origin, p) <= w.c.casId)
    && (forall p :: LinkedIn(w.c.mem, p) ==> ValueIn(w.origin, p) <= CasOf(w.c, p))
    && forall th :: th in w.flushes && w.flushes[th].Took? ==> Unique(w, w.flushes[th].id)
  }

  lemma OriginAt(w: World, p: Ptr)
    requires Origins(w)
    ensures ValueIn(w.origin, p) <= w.c.casId && (LinkedIn(w.c.mem, p) ==> ValueIn(w.origin, p) <= CasOf(w.c, p))
  {
    hide Unique;
  }

  lemma UniqueAt(w: World, id: nat, p: Ptr)
    requires Unique(w, id)
    ensures 0 < id <= w.c.casId && ValueIn(w.origin, p) != id && (LinkedIn(w.c.mem, p) ==> CasOf(w.c, p) != id)
  {
  }

  // A step leaves the origin of an item alone, forgets it, gives a new one, or hands one on.
  lemma OriginFrom(w: World, a: Step, p: Ptr)
    requires Enabled(w, a) && w.env.now > 0 && w.env.useCas
    ensures var v, u := ValueIn(Apply(w, a).origin, p), ValueIn(w.origin, p);
      || v == u || v == 0 || (a.SLink? && p == a.p && v == w.c.casId + 1)
      || ((a.SRescue? || a.SReplace?) && p == a.q && v == ValueIn(w.origin, a.p))
  {
    hide Flushed, PullTail, Get, Update, Link, Unlink, Drop, Crawl, Rewrite, Replace, PushQueue, OffLimits, CopyCas,
        Alive, Dead, Usable, Edit;
  }

  lemma OriginBound(w: World, a: Step, p: Ptr)
    requires Enabled(w, a) && w.env.now > 0 && w.env.useCas && Origins(w)
    ensures ValueIn(Apply(w, a).origin, p) <= w.c.casId || (a.SLink? && ValueIn(Apply(w, a).origin, p) == w.c.casId + 1)
  {
    hide Enabled, Apply, Origins;
    OriginFrom(w, a, p);
    OriginAt(w, p);
    if a.SRescue? || a.SReplace? { OriginAt(w, a.p); }
  }

  lemma IdFrom(w: World, a: Step)
    requires Enabled(w, a) && w.env.now > 0 && w.env.useCas
    ensures a.SFlushId? || a.SLink? ==> Apply(w, a).c.casId == w.c.casId + 1
    ensures a.SFlushId? ==> Apply(w, a).c == w.c.(casId := w.c.casId + 1) && Apply(w, a).origin == w.origin
  {
    hide PushQueue;
  }

  lemma OriginsStep(w: World, a: Step)
    requires Inv(w) && Enabled(w, a) && w.env.now > 0 && w.env.useCas && Origins(w)
    ensures Origins(Apply(w, a))
  {
    hide Inv, Apply, Enabled, Unique, Origins;
    var z := Apply(w, a);
    EachStepOk(w, a);
    IdFrom(w, a);
    forall p ensures ValueIn(z.origin, p) <= z.c.casId { OriginBound(w, a, p); }
    forall p | LinkedIn(z.c.mem, p) ensures ValueIn(z.origin, p) <= CasOf(z.c, p) { LinkedOrigin(w, a, p); }
    forall th | th in z.flushes && z.flushes[th].Took? ensures Unique(z, z.flushes[th].id) { UniqueStep(w, a, th); }
    OriginsAre(z);
  }

  lemma OriginsAre(w: World)
    requires forall p :: ValueIn(w.origin, p) <= w.c.casId
    requires forall p :: LinkedIn(w.c.mem, p) ==> ValueIn(w.origin, p) <= CasOf(w.c, p)
    requires forall th :: th in w.flushes && w.flushes[th].Took? ==> Unique(w, w.flushes[th].id)
    ensures Origins(w)
  {
    hide Unique;
  }

  // A linked item keeps id and origin, or gets an id larger than all before.
  lemma LinkedFrom(w: World, a: Step, p: Ptr)
    requires Inv(w) && Enabled(w, a) && w.env.now > 0 && w.env.useCas && LinkedIn(Apply(w, a).c.mem, p)
    ensures Apply(w, a).c.casId >= w.c.casId
    ensures var z := Apply(w, a);
      || (Kept(w.c, z.c, p) && ValueIn(z.origin, p) == ValueIn(w.origin, p))
      || (p == Stamped(a) && CasOf(z.c, p) > w.c.casId)
  {
    hide Inv, Apply, Enabled, Kept;
    EachStepOk(w, a);
    NullUnlinked(w);
    NullUnlinked(Apply(w, a));
    assert Traced(w.c, Apply(w, a).c, Stamped(a), p);
    if Kept(w.c, Apply(w, a).c, p) {
      KeptLinked(w.c, Apply(w, a).c, p);
      StampedBefore(w, a);
      OriginKept(w, a, p);
    }
  }

  lemma KeptLinked(c: Cache, c1: Cache, p: Ptr)
    requires Kept(c, c1, p)
    ensures LinkedIn(c.mem, p) && LinkedIn(c1.mem, p) && CasOf(c1, p) == CasOf(c, p) && TimeOf(c1, p) >= TimeOf(c, p)
  {
  }

  lemma StampedBefore(w: World, a: Step)
    requires Enabled(w, a)
    ensures Stamped(a) == Null || a.SRewrite? || !LinkedIn(w.c.mem, Stamped(a))
  {
  }

  lemma LinkedOrigin(w: World, a: Step, p: Ptr)
    requires Inv(w) && Enabled(w, a) && w.env.now > 0 && w.env.useCas && Origins(w) && LinkedIn(Apply(w, a).c.mem, p)
    ensures ValueIn(Apply(w, a).origin, p) <= CasOf(Apply(w, a).c, p)
  {
    hide Inv, Apply, Enabled, Origins, Kept;
    LinkedFrom(w, a, p);
    OriginAt(w, p);
    OriginBound(w, a, p);
    if Kept(w.c, Apply(w, a).c, p) { KeptLinked(w.c, Apply(w, a).c, p); }
  }

  lemma UniqueStep(w: World, a: Step, th: nat)
    requires Inv(w) && Enabled(w, a) && w.env.now > 0 && w.env.useCas && Origins(w)
    requires th in Apply(w, a).flushes && Apply(w, a).flushes[th].Took?
    ensures Unique(Apply(w, a), Apply(w, a).flushes[th].id)
  {
    hide Inv, Apply, Enabled, Origins, Unique;
    FlushesFrom(w, a, th);
    var z, id := Apply(w, a), Apply(w, a).flushes[th].id;
    if th in w.flushes && z.flushes[th] == w.flushes[th] {
      assert Unique(w, id) by { FlushAt(w, th); }
      UniqueKept(w, a, id);
    } else {
      UniqueNew(w, z);
    }
  }

  lemma FlushAt(w: World, th: nat)
    requires Origins(w) && th in w.flushes && w.flushes[th].Took?
    ensures Unique(w, w.flushes[th].id)
  {
    hide Unique;
  }

  lemma FlushesFrom(w: World, a: Step, th: nat)
    requires Enabled(w, a) && w.env.now > 0 && w.env.useCas
    ensures th in Apply(w, a).flushes && Apply(w, a).flushes[th].Took? ==>
      || (th in w.flushes && Apply(w, a).flushes[th] == w.flushes[th])
      || (a.SFlushId? && Apply(w, a).flushes[th].id == w.c.casId + 1
          && Apply(w, a).c == w.c.(casId := w.c.casId + 1) && Apply(w, a).origin == w.origin)
    ensures th in w.flushes && (a.SFlushId? || !InFlush(a) || a.th != th) ==> th in Apply(w, a).flushes
  {
    hide Flushed, PullTail, Get, Update, Link, Unlink, Drop, Crawl, Rewrite, Replace, PushQueue, OffLimits, CopyCas,
        Alive, Dead, Usable, Edit;
  }

  lemma UniqueKept(w: World, a: Step, id: nat)
    requires Inv(w) && Enabled(w, a) && w.env.now > 0 && w.env.useCas && Origins(w) && Unique(w, id)
    ensures Unique(Apply(w, a), id)
  {
    hide Inv, Apply, Enabled, Origins, Kept, Unique;
    var z := Apply(w, a);
    EachStepOk(w, a);
    UniqueAt(w, id, Null);
    forall p ensures ValueIn(z.origin, p) != id && (LinkedIn(z.c.mem, p) ==> CasOf(z.c, p) != id) {
      UniqueAt(w, id, p);
      OriginFrom(w, a, p);
      if a.SRescue? || a.SReplace? { UniqueAt(w, id, a.p); }
      if LinkedIn(z.c.mem, p) {
        LinkedFrom(w, a, p);
        if Kept(w.c, z.c, p) { KeptLinked(w.c, z.c, p); }
      }
    }
    UniqueIs(z, id);
  }

  lemma UniqueIs(w: World, id: nat)
    requires 0 < id <= w.c.casId
    requires forall p :: ValueIn(w.origin, p) != id && (LinkedIn(w.c.mem, p) ==> CasOf(w.c, p) != id)
    ensures Unique(w, id)
  {
  }

  lemma UniqueNew(w: World, z: World)
    requires Inv(w) && Origins(w) && z.c == w.c.(casId := w.c.casId + 1) && z.origin == w.origin
    ensures Unique(z, w.c.casId + 1)
  {
    hide Inv, Origins, Unique;
    forall p ensures ValueIn(z.origin, p) != z.c.casId && (LinkedIn(z.c.mem, p) ==> CasOf(z.c, p) != z.c.casId) {
      OriginAt(w, p);
      IdAtMost(w, p);
    }
    UniqueIs(z, z.c.casId);
  }

  lemma IdAtMost(w: World, p: Ptr)
    requires Inv(w)
    ensures CasOf(w.c, p) <= w.c.casId
  {
    CasAtMost(w.c, p);
  }

  lemma {:induction false} OriginsRun(run: seq<World>, steps: seq<Step>, n: nat)
    requires IsRun(run, steps) && n < |run| && run[0].env.useCas
    ensures Origins(run[n]) && run[n].env.useCas
  {
    hide Inv, Apply, Enabled;
    if n > 0 {
      OriginsRun(run, steps, n - 1);
      RunInv(run, steps, n - 1);
      EachStepOk(run[n - 1], steps[n - 1]);
      OriginsStep(run[n - 1], steps[n - 1]);
    }
  }

  // ---- from oldest_live to oldest_cas ----

  // What has been stored since the flush wrote oldest_live has a later time.
  ghost predicate Young(w: World, floor: nat) {
    forall p :: LinkedIn(w.c.mem, p) && ValueIn(w.origin, p) > floor ==> TimeOf(w.c, p) > w.env.oldestLive
  }

  // The thread has written live into oldest_live, when the last id was floor.
  ghost predicate Underway(w: World, th: nat, live: nat, floor: nat) {
    && w.env.useCas && w.env.oldestLive == live && 0 < live < w.env.now && floor <= w.c.casId
    && th in w.flushes && (w.flushes[th].Took? ==> w.flushes[th].id > floor) && Young(w, floor)
  }

  lemma YoungAt(w: World, floor: nat, p: Ptr)
    requires Young(w, floor)
    ensures LinkedIn(w.c.mem, p) && ValueIn(w.origin, p) > floor ==> TimeOf(w.c, p) > w.env.oldestLive
  {
  }

  lemma StampTime(w: World, a: Step, p: Ptr)
    requires Inv(w) && Enabled(w, a) && w.env.now > 0 && w.env.useCas && p == Stamped(a) != Null
    ensures a.SRewrite? ==> LinkedIn(w.c.mem, p) && TimeOf(Apply(w, a).c, p) >= TimeOf(w.c, p)
    ensures !a.SRewrite? ==> TimeOf(Apply(w, a).c, p) == w.env.now
  {
    hide Inv, Enabled, Apply;
    match a {
      case SLink(_) => LinkTime(w, a);
      case SRewrite(_, _) => RewriteTime(w, a);
      case _ => SucceedTouches(w, a);
    }
  }

  lemma LinkTime(w: World, a: Step)
    requires Enabled(w, a) && w.env.now > 0 && a.SLink?
    ensures TimeOf(Apply(w, a).c, a.p) == w.env.now
  {
    hide PushQueue;
  }

  lemma RewriteTime(w: World, a: Step)
    requires Inv(w) && Enabled(w, a) && w.env.now > 0 && a.SRewrite?
    ensures LinkedIn(w.c.mem, a.p) && TimeOf(Apply(w, a).c, a.p) >= TimeOf(w.c, a.p)
  {
    hide Coherent, Timely, CasOk, Update, Overwrite;
    BusyLinked(w.c, w.busy, a.p);
    hide BusyOk;
    OverwriteTime(w.c, w.env, a.p, a.data);
    UpdateTime(Overwrite(w.c, w.env, a.p, a.data), w.env, a.p);
    TimeAt(w.c, w.env, a.p);
  }

  lemma YoungStep(w: World, a: Step, floor: nat, p: Ptr)
    requires Inv(w) && Enabled(w, a) && w.env.now > 0 && w.env.useCas && Young(w, floor) && !IsFlush(a)
    requires w.env.oldestLive < w.env.now && LinkedIn(Apply(w, a).c.mem, p) && ValueIn(Apply(w, a).origin, p) > floor
    ensures TimeOf(Apply(w, a).c, p) > w.env.oldestLive
  {
    hide Inv, Enabled, Apply, Young, Kept;
    LinkedFrom(w, a, p);
    YoungAt(w, floor, p);
    if Kept(w.c, Apply(w, a).c, p) && ValueIn(Apply(w, a).origin, p) == ValueIn(w.origin, p) {
      KeptLinked(w.c, Apply(w, a).c, p);
    } else {
      NullUnlinked(w);
      StampedNotNull(w, a);
      StampTime(w, a, p);
      if a.SRewrite? { OriginKept(w, a, p); }
    }
  }

  lemma StampedNotNull(w: World, a: Step)
    requires Inv(w) && Enabled(w, a) && w.env.now > 0 && LinkedIn(Apply(w, a).c.mem, Stamped(a))
    ensures Stamped(a) != Null
  {
    hide Inv, Enabled, Apply;
    EachStepOk(w, a);
    NullUnlinked(Apply(w, a));
  }

  lemma UnderwayStep(w: World, a: Step, th: nat, live: nat, floor: nat)
    requires Inv(w) && Enabled(w, a) && w.env.now > 0 && Underway(w, th, live, floor) && !IsFlush(a)
    ensures Underway(Apply(w, a), th, live, floor)
  {
    hide Inv, Enabled, Apply, Young;
    EachStepOk(w, a);
    StepEnv(w, a);
    FlushesFrom(w, a, th);
    FlushLaterNot(w, a);
    var z := Apply(w, a);
    forall p | LinkedIn(z.c.mem, p) && ValueIn(z.origin, p) > floor ensures TimeOf(z.c, p) > z.env.oldestLive {
      YoungStep(w, a, floor, p);
    }
    YoungIs(z, floor);
  }

  lemma YoungIs(w: World, floor: nat)
    requires forall p :: LinkedIn(w.c.mem, p) && ValueIn(w.origin, p) > floor ==> TimeOf(w.c, p) > w.env.oldestLive
    ensures Young(w, floor)
  {
  }

  lemma FlushLaterNot(w: World, a: Step)
    requires Enabled(w, a) && w.env.oldestLive < w.env.now
    ensures !a.SFlushLater?
  {
  }

  lemma UnderwayStarts(w: World, th: nat, newOldest: nat)
    requires Inv(w) && w.env.useCas && Origins(w) && 2 <= newOldest <= w.env.now && th !in w.flushes
    ensures Enabled(w, SFlushLive(th, newOldest)) && w.env.now > 0
    ensures Underway(Apply(w, SFlushLive(th, newOldest)), th, newOldest - 1, w.c.casId)
  {
    hide Coherent, Timely, CasOk, BusyOk, Origins;
    var z := Apply(w, SFlushLive(th, newOldest));
    forall p ensures ValueIn(z.origin, p) <= w.c.casId { OriginAt(w, p); }
  }

  // flush_all in a thread, begun at step i of the run and about to write oldest_cas, while nobody else wrote the
  // settings. It is due at once, and reaches back to a second after the server started, or to a later one.
  ghost predicate Flushing(run: seq<World>, steps: seq<Step>, i: nat, th: nat) {
    && IsRun(run, steps) && run[0].env.useCas && i < |steps|
    && steps[i].SFlushLive? && steps[i].th == th && 2 <= steps[i].newOldest <= run[i].env.now
    && (forall n :: i < n < |steps| ==> !IsFlush(steps[n]))
    && Enabled(run[|steps|], SFlushCas(th))
  }

  lemma {:induction false} UnderwayRun(run: seq<World>, steps: seq<Step>, i: nat, th: nat, n: nat)
    requires IsRun(run, steps) && run[0].env.useCas && i < n < |run|
    requires steps[i].SFlushLive? && steps[i].th == th && 2 <= steps[i].newOldest <= run[i].env.now
    requires forall k :: i < k < n ==> !IsFlush(steps[k])
    ensures Underway(run[n], th, steps[i].newOldest - 1, run[i].c.casId)
    decreases n
  {
    hide Inv, Enabled, Apply, Underway, Initial;
    RunInv(run, steps, n - 1);
    if n == i + 1 {
      OriginsRun(run, steps, i);
      LiveFree(run[i], steps[i]);
      UnderwayStarts(run[i], th, steps[i].newOldest);
    } else {
      UnderwayRun(run, steps, i, th, n - 1);
      UnderwayStep(run[n - 1], steps[n - 1], th, steps[i].newOldest - 1, run[i].c.casId);
    }
  }

  lemma LiveFree(w: World, a: Step)
    requires Enabled(w, a) && a.SFlushLive?
    ensures a.th !in w.flushes
  {
  }

  // ---- what the flush can miss ----

  // An operation that has called item_is_flushed, on a value older than the flush's id.
  predicate InFlightOld(w: World, id: nat, p: Ptr) { p in w.busy && ValueIn(w.origin, p) < id }

  // An older value that was passed on since the flush took its id.
  predicate PassedOn(w: World, id: nat, p: Ptr) { LinkedIn(w.c.mem, p) && ValueIn(w.origin, p) < id < CasOf(w.c, p) }

  ghost predicate NoneOld(w: World, id: nat) { forall p :: !InFlightOld(w, id, p) && !PassedOn(w, id, p) }

  // The operation this step begins calls item_is_flushed for p.
  predicate LooksAt(w: World, a: Step, p: Ptr) {
    (a.SCheck? && a.p == p) || (a.SBegin? && a.key in w.c.table && w.c.table[a.key] == p)
  }

  ghost predicate LooksAtNew(w: World, a: Step, id: nat) { forall p :: LooksAt(w, a, p) ==> ValueIn(w.origin, p) >= id }

  lemma NoneAt(w: World, id: nat, p: Ptr)
    requires NoneOld(w, id)
    ensures p in w.busy ==> ValueIn(w.origin, p) >= id
    ensures LinkedIn(w.c.mem, p) ==> ValueIn(w.origin, p) >= id || CasOf(w.c, p) <= id
  {
    assert !InFlightOld(w, id, p) && !PassedOn(w, id, p);
  }

  lemma LooksAtWhat(w: World, a: Step, p: Ptr)
    requires Enabled(w, a) && w.env.now > 0 && (a.SCheck? || a.SBegin?) && p !in w.busy && p in Apply(w, a).busy
    ensures LooksAt(w, a, p)
  {
    hide Dead, Alive, Get;
  }

  lemma LooksAtAt(w: World, a: Step, id: nat, p: Ptr)
    requires LooksAtNew(w, a, id) && LooksAt(w, a, p)
    ensures ValueIn(w.origin, p) >= id
  {
    hide LooksAt;
  }

  lemma InFlightStep(w: World, a: Step, id: nat, p: Ptr)
    requires Inv(w) && Enabled(w, a) && w.env.now > 0 && NoneOld(w, id) && LooksAtNew(w, a, id) && !IsFlush(a)
    ensures !InFlightOld(Apply(w, a), id, p)
  {
    hide Inv, Enabled, Apply, NoneOld, LooksAt, LooksAtNew, Alive, Flushed;
    if p in Apply(w, a).busy {
      if p in w.busy {
        EachUntouched(w, a, p);
        NoneAt(w, id, p);
      } else {
        Begun(w, a, p);
        LooksAtWhat(w, a, p);
        LooksAtAt(w, a, id, p);
      }
    }
  }

  lemma StampedFrom(w: World, a: Step, p: Ptr)
    requires Enabled(w, a) && w.env.now > 0 && w.env.useCas && p == Stamped(a) != Null
    ensures var v := ValueIn(Apply(w, a).origin, p);
      || v == w.c.casId + 1 || (p in w.busy && v == ValueIn(w.origin, p))
      || ((a.SRescue? || a.SReplace?) && a.p in w.busy && v == ValueIn(w.origin, a.p))
  {
    hide Rewrite, Replace, Link;
  }

  lemma PassedStep(w: World, a: Step, id: nat, p: Ptr)
    requires Inv(w) && Enabled(w, a) && w.env.now > 0 && w.env.useCas && NoneOld(w, id) && id <= w.c.casId
    ensures !PassedOn(Apply(w, a), id, p)
  {
    hide Inv, Enabled, Apply, NoneOld, Kept;
    var z := Apply(w, a);
    if LinkedIn(z.c.mem, p) {
      LinkedFrom(w, a, p);
      NoneAt(w, id, p);
      if Kept(w.c, z.c, p) && ValueIn(z.origin, p) == ValueIn(w.origin, p) {
        KeptLinked(w.c, z.c, p);
      } else {
        StampedNotNull(w, a);
        StampedFrom(w, a, p);
        if a.SRescue? || a.SReplace? { NoneAt(w, id, a.p); }
      }
    }
  }

  lemma NoneOldStep(w: World, a: Step, id: nat)
    requires Inv(w) && Enabled(w, a) && w.env.now > 0 && w.env.useCas && NoneOld(w, id) && id <= w.c.casId
    requires LooksAtNew(w, a, id) && !IsFlush(a)
    ensures NoneOld(Apply(w, a), id)
  {
    hide Inv, Enabled, Apply, LooksAtNew, InFlightOld, PassedOn, NoneOld;
    forall p ensures !InFlightOld(Apply(w, a), id, p) && !PassedOn(Apply(w, a), id, p) {
      InFlightStep(w, a, id, p);
      PassedStep(w, a, id, p);
    }
    NoneOldIs(Apply(w, a), id);
  }

  lemma NoneOldIs(w: World, id: nat)
    requires forall p :: !InFlightOld(w, id, p) && !PassedOn(w, id, p)
    ensures NoneOld(w, id)
  {
    hide InFlightOld, PassedOn;
  }

  lemma TakesId(w: World, th: nat)
    requires Inv(w) && Enabled(w, SFlushId(th)) && w.env.now > 0 && w.busy == map[]
    ensures var z, id := Apply(w, SFlushId(th)), w.c.casId + 1;
      NoneOld(z, id) && th in z.flushes && z.flushes[th] == Took(id) && id <= z.c.casId
  {
    hide Inv;
    var z, id := Apply(w, SFlushId(th)), w.c.casId + 1;
    forall p ensures !InFlightOld(z, id, p) && !PassedOn(z, id, p) { IdAtMost(w, p); }
  }

  lemma TookStays(w: World, a: Step, th: nat)
    requires Enabled(w, a) && w.env.now > 0 && th in w.flushes && w.flushes[th].Took? && !IsFlush(a)
    ensures th in Apply(w, a).flushes && Apply(w, a).flushes[th] == w.flushes[th]
  {
    hide Flushed, PullTail, Get, Update, Link, Unlink, Drop, Crawl, Rewrite, Replace, PushQueue, OffLimits, CopyCas,
        Alive, Dead, Usable, Edit;
  }

  lemma {:induction false} GapRun(run: seq<World>, steps: seq<Step>, k: nat, th: nat, n: nat)
    requires IsRun(run, steps) && run[0].env.useCas && k < n < |run| && steps[k] == SFlushId(th)
    requires run[k].busy == map[]
    requires forall m :: k < m < n ==> !IsFlush(steps[m]) && LooksAtNew(run[m], steps[m], run[k].c.casId + 1)
    ensures NoneOld(run[n], run[k].c.casId + 1) && run[n].c.casId > run[k].c.casId
    ensures th in run[n].flushes && run[n].flushes[th] == Took(run[k].c.casId + 1)
    decreases n
  {
    hide Inv, Enabled, Apply, NoneOld, LooksAtNew, Initial;
    RunInv(run, steps, n - 1);
    CasIdGrows(run, steps, k, n - 1);
    if n == k + 1 {
      TakesId(run[k], th);
    } else {
      GapRun(run, steps, k, th, n - 1);
      NoneOldStep(run[n - 1], steps[n - 1], run[k].c.casId + 1);
      TookStays(run[n - 1], steps[n - 1], th);
      CasIdGrows(run, steps, n - 1, n);
    }
  }

  // Over the interval: a flush misses nothing when no operation is in flight as it takes its id, and none that begins
  // before it writes oldest_cas looks at an older value.
  lemma QuietFlushMissesNothing(run: seq<World>, steps: seq<Step>, i: nat, th: nat, k: nat)
    requires Flushing(run, steps, i, th) && i < k < |steps| && steps[k] == SFlushId(th) && run[k].busy == map[]
    requires forall n :: k < n < |steps| ==> LooksAtNew(run[n], steps[n], run[k].c.casId + 1)
    ensures var w := run[|steps|];
      th in w.flushes && w.flushes[th] == Took(run[k].c.casId + 1) && NoneOld(w, run[k].c.casId + 1)
  {
    hide Enabled, Apply, NoneOld, LooksAtNew, Initial;
    GapRun(run, steps, k, th, |steps|);
  }
}
