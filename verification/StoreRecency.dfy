// How close to least-recently-used an eviction is when the LRU maintainer thread is off.
module StoreRecency {
  import opened Memory
  import opened Linkage
  import opened CacheSpec
  import opened LruPull
  import opened LruPullProofs
  import opened LruRecency
  import opened Store
  import opened StoreProofs

  // The time of an item is at most a minute behind its last use: when it was linked, or the last call of
  // do_item_update for it.
  ghost predicate Close(mem: map<Ptr, Item>, stamps: map<Ptr, Stamp>, used: map<Ptr, nat>) {
    forall p :: LinkedIn(mem, p) ==>
      StampOf(stamps, p).time <= ValueIn(used, p) <= StampOf(stamps, p).time + ITEM_UPDATE_INTERVAL
  }

  // There is only COLD_LRU without the maintainer.
  ghost predicate AllCold(mem: map<Ptr, Item>) { forall p :: FilledIn(mem, p) ==> mem[p].seg == Cold }

  ghost predicate Recent(c: Cache, used: map<Ptr, nat>) {
    AllSorted(c.stamps, c.lru) && Close(c.mem, c.stamps, used) && AllCold(c.mem)
  }

  // Queues, times and segments stay.
  ghost predicate Quiet(c: Cache, c1: Cache) {
    && c1.lru == c.lru && (forall x :: StampOf(c1.stamps, x).time == StampOf(c.stamps, x).time)
    && (forall x :: LinkedIn(c1.mem, x) ==> LinkedIn(c.mem, x))
    && forall x :: FilledIn(c1.mem, x) ==> FilledIn(c.mem, x) && c1.mem[x].seg == c.mem[x].seg
  }

  lemma QuietRecent(c: Cache, c1: Cache, used: map<Ptr, nat>)
    requires Recent(c, used) && Quiet(c, c1)
    ensures Recent(c1, used)
  {
    forall q ensures Sorted(c1.stamps, QueueIn(c1.lru, q)) { assert Sorted(c.stamps, QueueIn(c.lru, q)); }
  }

  lemma ThinnedRecent(c: Cache, c1: Cache, used: map<Ptr, nat>)
    requires Recent(c, used) && Thinned(c, c1) && AllSorted(c1.stamps, c1.lru)
    ensures Recent(c1, used)
  {
    hide AllSorted;
  }

  lemma UnlinkThins(c: Cache, env: Env, used: map<Ptr, nat>, p: Ptr)
    requires Coherent(c) && Timely(c, env) && LinkedIn(c.mem, p) && Recent(c, used)
    ensures Usable(c, p) && Recent(Unlink(c, p), used)
  {
    LinkedHere(c, p);
    hide Coherent, Unlink, EraseQueue, AllSorted, Timely, Close, AllCold;
    UnlinkEffect(c, p);
    UnlinkSeg(c, p);
    EraseSorted(c.stamps, c.lru, c.mem[p].Home(), p);
    ThinnedRecent(c, Unlink(c, p), used);
  }

  lemma UnlinkSeg(c: Cache, p: Ptr)
    requires Usable(c, p) && FilledIn(c.mem, p)
    ensures Unlink(c, p).mem == c.mem[p := Unlink(c, p).mem[p]] && Unlink(c, p).mem[p].seg == c.mem[p].seg
  {
    hide EraseQueue;
  }

  lemma GoneThins(c: Cache, env: Env, used: map<Ptr, nat>, p: Ptr)
    requires Coherent(c) && Timely(c, env) && LinkedIn(c.mem, p) && Recent(c, used)
    ensures Usable(c, p) && Recent(Gone(c, p), used)
  {
    LinkedHere(c, p);
    hide Coherent, Gone, EraseQueue, AllSorted, Timely, Close, AllCold;
    GoneEffect(c, p);
    GoneSeg(c, p);
    EraseSorted(c.stamps, c.lru, c.mem[p].Home(), p);
    ThinnedRecent(c, Gone(c, p), used);
  }

  lemma GoneSeg(c: Cache, p: Ptr)
    requires Usable(c, p) && FilledIn(c.mem, p)
    ensures p in Gone(c, p).mem && Gone(c, p).mem[p].seg == c.mem[p].seg
  {
    hide EraseQueue;
  }

  lemma LinkRecent(c: Cache, env: Env, used: map<Ptr, nat>, p: Ptr)
    requires Coherent(c) && Timely(c, env) && FilledIn(c.mem, p) && !c.mem[p].flags.linked && Recent(c, used)
    ensures Recent(Link(c, env, p), used[p := env.now])
  {
    hide Coherent, PushQueue, AllSorted, Close, Timely;
    var c1 := Link(c, env, p);
    NotQueued(c, p);
    StampSorted(c.stamps, c.lru, p, c1.stamps[p]);
    LinkTimes(c, env, used, p);
    PushSorted(c1.stamps, c.lru, c.mem[p].Home(), p, env.now);
  }

  lemma LinkTimes(c: Cache, env: Env, used: map<Ptr, nat>, p: Ptr)
    requires Timely(c, env) && Close(c.mem, c.stamps, used) && p in c.mem
    ensures var c1 := Link(c, env, p);
      Close(c1.mem, c1.stamps, used[p := env.now]) && forall x :: StampOf(c1.stamps, x).time <= env.now
  {
    hide PushQueue;
    var c1 := Link(c, env, p);
    forall x ensures StampOf(c1.stamps, x).time <= env.now { TimeAt(c, env, x); }
    forall x | LinkedIn(c1.mem, x) && x != p
      ensures StampOf(c1.stamps, x).time <= ValueIn(used, x) <= StampOf(c1.stamps, x).time + ITEM_UPDATE_INTERVAL
    {
      assert LinkedIn(c.mem, x);
    }
  }

  lemma UpdateRecent(c: Cache, env: Env, used: map<Ptr, nat>, p: Ptr)
    requires Coherent(c) && Timely(c, env) && LinkedIn(c.mem, p) && Recent(c, used) && !env.maintainer
    ensures Recent(Update(c, env, p), used[p := env.now])
  {
    hide Coherent, PushQueue, EraseQueue, AllSorted, Close, Timely;
    UpdateTimes(c, env, used, p);
    if Stale(env, TimeOf(c, p)) {
      var q := c.mem[p].Home();
      EraseSorted(c.stamps, c.lru, q, p);
      ErasedQueue(c, p);
      StampSorted(c.stamps, EraseQueue(c.lru, q, p), p, StampOf(c.stamps, p).(time := env.now));
      PushSorted(Requeue(c, p, c.mem[p].seg, env.now).stamps, EraseQueue(c.lru, q, p), q, p, env.now);
    }
  }

  lemma UpdateTimes(c: Cache, env: Env, used: map<Ptr, nat>, p: Ptr)
    requires Timely(c, env) && Close(c.mem, c.stamps, used) && LinkedIn(c.mem, p) && !env.maintainer
    ensures var c1 := Update(c, env, p);
      Close(c1.mem, c1.stamps, used[p := env.now]) && forall x :: StampOf(c1.stamps, x).time <= env.now
  {
    hide PushQueue, EraseQueue;
    var c1 := Update(c, env, p);
    TimeAt(c, env, p);
    forall x ensures StampOf(c1.stamps, x).time <= env.now { TimeAt(c, env, x); }
    forall x | LinkedIn(c1.mem, x) && x != p
      ensures StampOf(c1.stamps, x).time <= ValueIn(used, x) <= StampOf(c1.stamps, x).time + ITEM_UPDATE_INTERVAL
    {
      assert LinkedIn(c.mem, x);
    }
  }

  // ---- steps ----

  ghost predicate RecentIn(w: World) { Recent(w.c, w.used) && !w.env.maintainer }

  // Steps that touch neither queues nor times.
  lemma IdleStep(w: World, a: Step)
    requires Enabled(w, a) && w.env.now > 0 && RecentIn(w)
    requires a.STick? || a.SCheck? || a.SAbandon? || InFlush(a)
    ensures RecentIn(Apply(w, a))
  {
    hide Flushed;
  }

  lemma CopyCasStep(w: World, a: Step)
    requires Enabled(w, a) && w.env.now > 0 && RecentIn(w) && a.SCopyCas?
    ensures RecentIn(Apply(w, a))
  {
    hide Recent;
    QuietRecent(w.c, CopyCas(w.c, a.p, a.q), w.used);
  }

  lemma EditQuiet(c: Cache, used: map<Ptr, nat>, p: Ptr, n: Item)
    requires Recent(c, used) && p in c.mem && (n.flags.linked ==> c.mem[p].flags.linked)
    requires !n.flags.slabbed && n.clsid != 0 ==> FilledIn(c.mem, p) && n.seg == c.mem[p].seg
    ensures Recent(Edit(c, p, n), used)
  {
    hide Recent;
    QuietRecent(c, Edit(c, p, n), used);
  }

  lemma QuietStep(w: World, a: Step)
    requires Enabled(w, a) && w.env.now > 0 && RecentIn(w) && (a.SDrop? || a.STouch?)
    ensures RecentIn(Apply(w, a))
  {
    hide Recent, Others;
    EditQuiet(w.c, w.used, a.p, Apply(w, a).c.mem[a.p]);
  }

  lemma FillStep(w: World, a: Step)
    requires Inv(w) && Enabled(w, a) && w.env.now > 0 && RecentIn(w) && a.SFill?
    ensures RecentIn(Apply(w, a))
  {
    hide Coherent, Timely, CasOk, BusyOk, AllSorted;
  }

  lemma GetStep(w: World, a: Step)
    requires Inv(w) && Enabled(w, a) && w.env.now > 0 && RecentIn(w) && (a.SGet? || a.SBegin?)
    ensures RecentIn(Apply(w, a))
  {
    hide Coherent, Timely, CasOk, BusyOk, Recent, Flushed, Drop, Unlink;
    if a.key in w.c.table {
      TableHere(w.c, a.key);
      GoneThins(w.c, w.env, w.used, w.c.table[a.key]);
      var p := w.c.table[a.key];
      var it := w.c.mem[p];
      var c1 := Edit(w.c, p, it.(refcount := it.refcount + 1, flags := it.flags.(fetched := true, active := true)));
      assert Quiet(w.c, c1);
      QuietRecent(w.c, c1, w.used);
    }
  }

  lemma GoneStep(w: World, a: Step)
    requires Inv(w) && Enabled(w, a) && w.env.now > 0 && RecentIn(w) && (a.SUnlink? || a.SCrawl?)
    ensures RecentIn(Apply(w, a))
  {
    hide Coherent, Timely, CasOk, BusyOk, Recent, Flushed, Gone, Unlink;
    GoneThins(w.c, w.env, w.used, a.p);
    UnlinkThins(w.c, w.env, w.used, a.p);
  }

  lemma RewriteStep(w: World, a: Step)
    requires Inv(w) && Enabled(w, a) && w.env.now > 0 && RecentIn(w) && a.SRewrite?
    ensures RecentIn(Apply(w, a))
  {
    hide Coherent, Timely, CasOk, BusyOk, Recent, Update;
    BusyLinked(w.c, w.busy, a.p);
    var c1 := Overwrite(w.c, w.env, a.p, a.data);
    OverwriteOk(w.c, w.env, a.p, a.data);
    assert Quiet(w.c, c1);
    QuietRecent(w.c, c1, w.used);
    UpdateRecent(c1, w.env, w.used, a.p);
  }

  lemma RescueStep(w: World, a: Step)
    requires Inv(w) && Enabled(w, a) && w.env.now > 0 && RecentIn(w) && (a.SRescue? || a.SReplace?)
    ensures RecentIn(Apply(w, a))
  {
    hide Coherent, Timely, CasOk, BusyOk, Recent, Unlink, Link;
    BusyLinked(w.c, w.busy, a.p);
    LinkedHere(w.c, a.p);
    var c1 := Unlink(w.c, a.p);
    UnlinkThins(w.c, w.env, w.used, a.p);
    UnlinkCoherent(w.c, a.p);
    UnlinkEffect(w.c, a.p);
    TimelyKept(w.c, c1, w.env, a.p) by { TimeAt(w.c, w.env, a.p); }
    LinkRecent(c1, w.env, w.used, a.q);
  }

  lemma PullStep(w: World, a: Step)
    requires Inv(w) && Enabled(w, a) && w.env.now > 0 && RecentIn(w) && a.SPull?
    ensures RecentIn(Apply(w, a))
  {
    hide Coherent, Timely, CasOk, BusyOk, PullTail, AllSorted, Close, AllCold;
    PullThins(w.c, w.env, a.o, a.call);
    ThinnedRecent(w.c, PullTail(w.c, w.env, a.o, a.call).c, w.used);
  }

  lemma LinkStep(w: World, a: Step)
    requires Inv(w) && Enabled(w, a) && w.env.now > 0 && RecentIn(w) && (a.SLink? || a.SUse?)
    ensures RecentIn(Apply(w, a))
  {
    hide Coherent, Timely, CasOk, BusyOk, Recent, Link, Update;
    if a.SLink? { LinkRecent(w.c, w.env, w.used, a.p); } else { UpdateRecent(w.c, w.env, w.used, a.p); }
  }

  lemma StepRecent(w: World, a: Step)
    requires Inv(w) && Enabled(w, a) && w.env.now > 0 && RecentIn(w)
    ensures RecentIn(Apply(w, a))
  {
    hide Inv, Enabled, Apply, RecentIn;
    match a {
      case SFill(_, _) => FillStep(w, a);
      case SLink(_) => LinkStep(w, a);
      case SUse(_) => LinkStep(w, a);
      case SGet(_) => GetStep(w, a);
      case SBegin(_, _) => GetStep(w, a);
      case SUnlink(_) => GoneStep(w, a);
      case SCrawl(_) => GoneStep(w, a);
      case SPull(_, _) => PullStep(w, a);
      case SRewrite(_, _) => RewriteStep(w, a);
      case SRescue(_, _) => RescueStep(w, a);
      case SReplace(_, _) => RescueStep(w, a);
      case SDrop(_) => QuietStep(w, a);
      case STouch(_, _) => QuietStep(w, a);
      case SCopyCas(_, _) => CopyCasStep(w, a);
      case _ => IdleStep(w, a);
    }
  }

  lemma {:induction false} RunRecent(run: seq<World>, steps: seq<Step>, n: nat)
    requires IsRun(run, steps) && n < |run| && !run[0].env.maintainer
    ensures RecentIn(run[n])
  {
    hide Inv, Apply, Enabled;
    if n > 0 {
      hide Initial, RecentIn;
      RunRecent(run, steps, n - 1);
      RunInv(run, steps, n - 1);
      StepRecent(run[n - 1], steps[n - 1]);
    }
  }

  // The walk has come by x on its way to the victim, and did not take it because its lock was taken or it has the hash
  // of the item the caller works on: x is behind the victim, and was looked at with so many tries left.
  ghost predicate SkippedOnTheWay(c: Cache, o: Oracle, call: Call, x: Ptr, victim: Ptr) {
    var s := QueueIn(c.lru, call.q);
    && x in s && victim in s && IndexOf(s, victim) < IndexOf(s, x) && x in c.mem
    && |s| - 1 - IndexOf(s, x) < TRIES && Skipped(c, o, call, TRIES - (|s| - 1 - IndexOf(s, x)), x)
  }

  lemma VictimIsOld(c: Cache, env: Env, used: map<Ptr, nat>, o: Oracle, call: Call, x: Ptr)
    requires Coherent(c) && Timely(c, env) && Recent(c, used) && call.q.seg == Cold && !env.maintainer
    requires x in QueueIn(c.lru, call.q) && PullTail(c, env, o, call).victim != Null
        && LinkedIn(PullTail(c, env, o, call).c.mem, x)
    ensures var victim := PullTail(c, env, o, call).victim;
      && victim in QueueIn(c.lru, call.q)
      && (ValueIn(used, victim) <= ValueIn(used, x) + ITEM_UPDATE_INTERVAL || SkippedOnTheWay(c, o, call, x, victim))
  {
    hide Coherent, Timely, Walk, Skipped, Recent, QueueIn, NoDup, LinkedIn, PassedAt, IndexOf;
    var s := QueueIn(c.lru, call.q);
    var v := VictimIsFirst(c, env, o, call, |s| - 1, TRIES);
    var i: nat :| i < |s| && s[i] == x;
    QueueFacts(c, call.q, i);
    QueueFacts(c, call.q, v);
    IndexIs(s, i);
    IndexIs(s, v);
    if v < i {
      assert PassedAt(c, o, call, TRIES, |s| - 1, i, PullTail(c, env, o, call).c);
      SkippedThere(c, o, call, i, PullTail(c, env, o, call).c);
    } else if i < v {
      OlderLast(c, used, call.q, i, v);
    }
  }

  lemma SkippedThere(c: Cache, o: Oracle, call: Call, i: nat, z: Cache)
    requires i < |QueueIn(c.lru, call.q)| && LinkedIn(z.mem, QueueIn(c.lru, call.q)[i])
    requires PassedAt(c, o, call, TRIES, |QueueIn(c.lru, call.q)| - 1, i, z)
    ensures var s := QueueIn(c.lru, call.q);
      s[i] in c.mem && |s| - 1 - i < TRIES && Skipped(c, o, call, TRIES - (|s| - 1 - i), s[i])
  {
    hide Skipped, QueueIn;
  }

  // Further down the queue means used longer ago, give or take a minute.
  lemma OlderLast(c: Cache, used: map<Ptr, nat>, q: Queue, i: nat, v: nat)
    requires Recent(c, used) && i < v < |QueueIn(c.lru, q)|
    requires LinkedIn(c.mem, QueueIn(c.lru, q)[i]) && LinkedIn(c.mem, QueueIn(c.lru, q)[v])
    ensures var s := QueueIn(c.lru, q); ValueIn(used, s[v]) <= ValueIn(used, s[i]) + ITEM_UPDATE_INTERVAL
  {
    hide QueueIn, AllCold;
    assert Sorted(c.stamps, QueueIn(c.lru, q));
  }

  // Approximate LRU: no item of the victim's queue that is still there after the pull was last used more than a minute
  // before the victim, unless the walk skipped it on its way.
  lemma EvictsAlmostOldest(run: seq<World>, steps: seq<Step>, n: nat, x: Ptr)
    requires IsRun(run, steps) && n < |steps| && steps[n].SPull? && !run[0].env.maintainer
        && steps[n].call.q.seg == Cold
    requires x in QueueIn(run[n].c.lru, steps[n].call.q) && LinkedIn(run[n + 1].c.mem, x)
    requires PullTail(run[n].c, run[n].env, steps[n].o, steps[n].call).victim != Null
    ensures var w := run[n]; var victim := PullTail(w.c, w.env, steps[n].o, steps[n].call).victim;
      && victim in QueueIn(w.c.lru, steps[n].call.q)
      && (ValueIn(w.used, victim) <= ValueIn(w.used, x) + ITEM_UPDATE_INTERVAL
          || SkippedOnTheWay(w.c, steps[n].o, steps[n].call, x, victim))
  {
    hide Coherent, Timely, CasOk, BusyOk, PullTail, Recent, Enabled, Initial, SkippedOnTheWay;
    RunInv(run, steps, n);
    RunRecent(run, steps, n);
    VictimIsOld(run[n].c, run[n].env, run[n].used, steps[n].o, steps[n].call, x);
  }
}
