// Work behind the clients' backs does not change what they see.
module StoreBackground {
  import opened Memory
  import opened Linkage
  import opened CacheSpec
  import opened LruPull
  import opened LruPullProofs
  import opened Store
  import opened StoreProofs
  import opened StoreTheorems

  ghost predicate Shows(c: Cache, env: Env, k: Key, content: Content) {
    k in c.table && Alive(c, env, c.table[k]) && c.mem[c.table[k]].content == content
  }

  lemma VisibleIs(c: Cache, env: Env, k: Key)
    ensures k in Visible(c, env) <==> k in c.table && Alive(c, env, c.table[k])
    ensures k in Visible(c, env) ==> Shows(c, env, k, Visible(c, env)[k])
  {
  }

  // Two caches answer alike when they show the same things.
  lemma SameAnswers(c: Cache, c1: Cache, env: Env)
    requires forall k, content :: Shows(c1, env, k, content) <==> Shows(c, env, k, content)
    ensures Visible(c1, env) == Visible(c, env)
  {
    forall k
      ensures k in Visible(c1, env) <==> k in Visible(c, env)
      ensures k in Visible(c1, env) ==> Visible(c1, env)[k] == Visible(c, env)[k]
    {
      VisibleIs(c, env, k);
      VisibleIs(c1, env, k);
      ShowsOne(c, c1, env, k);
    }
  }

  lemma ShowsOne(c: Cache, c1: Cache, env: Env, k: Key)
    requires forall content :: Shows(c1, env, k, content) <==> Shows(c, env, k, content)
    ensures k in c.table && Alive(c, env, c.table[k]) <==> k in c1.table && Alive(c1, env, c1.table[k])
  {
    hide Alive;
    if k in c.table && Alive(c, env, c.table[k]) {
      assert Shows(c, env, k, c.mem[c.table[k]].content) by { AliveIn(c, env, c.table[k]); }
    }
    if k in c1.table && Alive(c1, env, c1.table[k]) {
      assert Shows(c1, env, k, c1.mem[c1.table[k]].content) by { AliveIn(c1, env, c1.table[k]); }
    }
  }

  lemma AliveIn(c: Cache, env: Env, p: Ptr)
    requires Alive(c, env, p)
    ensures p in c.mem
  {
  }

  // The items other than p are as they were.
  ghost predicate OthersSame(c: Cache, c1: Cache, p: Ptr) {
    && (forall x :: x != p && x in c.mem ==> x in c1.mem && c1.mem[x] == c.mem[x])
    && forall x :: x != p ==> StampOf(c1.stamps, x) == StampOf(c.stamps, x)
  }

  lemma AliveSame(c: Cache, c1: Cache, env: Env, x: Ptr)
    requires x in c.mem && x in c1.mem && StampOf(c1.stamps, x) == StampOf(c.stamps, x)
    requires c1.mem[x].content == c.mem[x].content && c1.mem[x].flags.cas == c.mem[x].flags.cas
    ensures Alive(c1, env, x) == Alive(c, env, x)
  {
    hide Flushed;
  }

  // An item that nobody could get is taken out.
  lemma DeadGone(c: Cache, env: Env, p: Ptr)
    requires Coherent(c) && LinkedIn(c.mem, p) && !Alive(c, env, p)
    ensures Usable(c, p) && Visible(Gone(c, p), env) == Visible(c, env)
  {
    hide Coherent, Gone, Alive, EraseQueue;
    LinkedHere(c, p);
    GoneEffect(c, p);
    var g := Gone(c, p);
    forall k, content ensures Shows(g, env, k, content) <==> Shows(c, env, k, content) {
      if k in c.table {
        TableHere(c, k);
        if c.table[k] != p { AliveSame(c, g, env, c.table[k]); }
      }
    }
    SameAnswers(c, g, env);
  }

  // An item changes in ways a get cannot see.
  lemma UnseenEdit(c: Cache, c1: Cache, env: Env, p: Ptr)
    requires Coherent(c) && OthersSame(c, c1, p) && c1.table == c.table && p in c.mem && p in c1.mem
    requires c1.mem[p].content == c.mem[p].content && Alive(c1, env, p) == Alive(c, env, p)
    ensures Visible(c1, env) == Visible(c, env)
  {
    hide Coherent, Alive;
    forall k, content ensures Shows(c1, env, k, content) <==> Shows(c, env, k, content) {
      if k in c.table {
        TableHere(c, k);
        if c.table[k] != p { AliveSame(c, c1, env, c.table[k]); }
      }
    }
    SameAnswers(c, c1, env);
  }

  lemma CrawlUnseen(c: Cache, env: Env, p: Ptr)
    requires Coherent(c) && LinkedIn(c.mem, p)
    ensures Usable(c, p) && Visible(Crawl(c, env, p), env) == Visible(c, env)
  {
    LinkedHere(c, p);
    hide Coherent, Gone, Visible;
    if Dead(c, env, p) { DeadGone(c, env, p); }
  }

  lemma GetUnseen(c: Cache, env: Env, k: Key)
    requires Coherent(c)
    ensures k in c.table ==> c.table[k] in c.mem && c.mem[c.table[k]].refcount > 0
    ensures Visible(Get(c, env, k).0, env) == Visible(c, env)
  {
    hide Coherent, Visible, Flushed, Drop, Unlink;
    if k in c.table {
      TableHere(c, k);
      var p := c.table[k];
      LinkedHere(c, p);
      if !Alive(c, env, p) {
        DeadGone(c, env, p);
        assert Get(c, env, k).0 == Gone(c, p);
      } else {
        var it := c.mem[p];
        var c1 := Edit(c, p, it.(refcount := it.refcount + 1, flags := it.flags.(fetched := true, active := true)));
        AliveSame(c, c1, env, p);
        UnseenEdit(c, c1, env, p);
      }
    }
  }

  // The page mover replaces an item by its copy.
  lemma RescueUnseen(c: Cache, env: Env, p: Ptr, q: Ptr)
    requires Coherent(c) && Timely(c, env) && CasOk(c, env) && LinkedIn(c.mem, p)
        && (env.useCas ==> env.oldestCas <= c.casId)
    requires FilledIn(c.mem, q) && !c.mem[q].flags.linked && c.mem[q].key == c.mem[p].key
        && c.mem[q].content == c.mem[p].content
    requires !IsFlushed(c, env, p)
    ensures Usable(c, p) && Visible(Replace(c, env, p, q), env) == Visible(c, env)
  {
    hide Coherent, Timely, CasOk, Unlink, PushQueue, EraseQueue;
    LinkedHere(c, p);
    UnlinkEffect(c, p);
    TimeAt(c, env, p);
    CasFacts(c, env, q);
    var c1 := Replace(c, env, p, q);
    CopyAlive(c, env, p, c1, q);
    hide Alive, IsFlushed;
    forall k, content ensures Shows(c1, env, k, content) <==> Shows(c, env, k, content) {
      if k in c.table {
        TableHere(c, k);
        if c.table[k] != p { AliveSame(c, c1, env, c.table[k]); }
      }
    }
    SameAnswers(c, c1, env);
  }

  lemma CopyAlive(c: Cache, env: Env, p: Ptr, c1: Cache, q: Ptr)
    requires p in c.mem && q in c1.mem && c1.mem[q].content == c.mem[p].content && !IsFlushed(c, env, p)
    requires TimeOf(c1, q) == env.now >= TimeOf(c, p) && (CasOf(c1, q) == 0 || CasOf(c1, q) >= env.oldestCas)
    ensures Alive(c1, env, q) == Alive(c, env, p)
  {
  }

  // The cas ids in flush_all's hands, and the one in the settings, are ones that get_cas_id has given out.
  ghost predicate IdsGiven(w: World) {
    w.env.oldestCas <= w.c.casId
    && forall th :: th in w.flushes && w.flushes[th].Took? ==> w.flushes[th].id <= w.c.casId
  }

  lemma {:induction false} IdsRun(run: seq<World>, steps: seq<Step>, n: nat)
    requires IsRun(run, steps) && n < |run| && run[0].env.useCas
    ensures IdsGiven(run[n])
  {
    hide Inv, Enabled, Apply, AllTraced;
    if n > 0 {
      IdsRun(run, steps, n - 1);
      CasIdGrows(run, steps, n - 1, n);
      IdsStep(run[n - 1], steps[n - 1]);
    }
  }

  lemma IdsStep(w: World, a: Step)
    requires Enabled(w, a) && w.env.now > 0 && IdsGiven(w) && Apply(w, a).c.casId >= w.c.casId
    ensures IdsGiven(Apply(w, a))
  {
    hide Flushed, PullTail, Get, Update, Unlink, Drop, Crawl, Rewrite, Replace, Link, CopyCas, OffLimits, Alive, Dead,
        Usable, Edit, Takes, Unlinked;
  }

  // Lazy expiry, the crawler, pulls that evict nothing and rescues by the page mover are invisible; an evicting
  // pull drops its victim's key and nothing else.
  lemma BackgroundIsInvisible(run: seq<World>, steps: seq<Step>, n: nat)
    requires IsRun(run, steps) && n < |steps| && run[0].env.useCas
    requires steps[n].SGet? || steps[n].SCrawl? || steps[n].SPull?
             || (steps[n].SRescue? && !IsFlushed(run[n].c, run[n].env, steps[n].p))
    ensures var w, a := run[n], steps[n];
      if a.SPull? && PullTail(w.c, w.env, a.o, a.call).victim != Null then
        && PullTail(w.c, w.env, a.o, a.call).victim in w.c.mem
        && Visible(run[n + 1].c, w.env) == Visible(w.c, w.env) - {w.c.mem[PullTail(w.c, w.env, a.o, a.call).victim].key}
      else Visible(run[n + 1].c, w.env) == Visible(w.c, w.env)
  {
    hide Coherent, Timely, CasOk, Visible, Get, Crawl, PullTail, Replace, Initial, Flushed, IsFlushed;
    RunInv(run, steps, n);
    IdsRun(run, steps, n);
    CasIdGrows(run, steps, 0, n);
    var w, a := run[n], steps[n];
    if a.SGet? {
      GetUnseen(w.c, w.env, a.key);
    } else if a.SCrawl? {
      CrawlUnseen(w.c, w.env, a.p);
    } else if a.SPull? {
      PullVisible(w.c, w.env, a.o, a.call);
    } else {
      BusyLinked(w.c, w.busy, a.p);
      RescueUnseen(w.c, w.env, a.p, a.q);
    }
  }
}
