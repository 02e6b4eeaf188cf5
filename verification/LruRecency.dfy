// One call of the tail puller on a COLD queue: why the items behind its victim were passed by, and that it keeps the
// order of the others.
module LruRecency {
  import opened Memory
  import opened Linkage
  import opened CacheSpec
  import opened LruPull
  import opened LruPullProofs

  // ---- one walk up a COLD queue ----

  // How a walk that ends in cache z has passed x by when `tries` were left: x has the caller's hash or its lock was
  // taken, or x was reclaimed.
  predicate PassedBy(c: Cache, o: Oracle, call: Call, tries: nat, x: Ptr, z: Cache) {
    x in c.mem && (Skipped(c, o, call, tries, x) || !LinkedIn(z.mem, x))
  }

  lemma {:induction false} IndexIs(s: seq<Ptr>, i: nat)
    requires NoDup(s) && i < |s|
    ensures IndexOf(s, s[i]) == i
  {
    var j := IndexOf(s, s[i]);
    assert s[j] == s[i];
  }

  // In a COLD queue a turn that does not stop the walk takes its item out or does nothing.
  lemma ColdTurn(c: Cache, env: Env, o: Oracle, call: Call, tries: nat, p: Ptr)
    requires Usable(c, p) && c.mem[p].Home() == call.q && call.q.seg == Cold && (call.evict || !env.maintainer)
    ensures var t := Visit(c, env, o, call, tries, p);
      && t.c.stamps == c.stamps && p in t.c.mem && t.c.mem[p].seg == c.mem[p].seg
      && (t.c.lru == c.lru || t.c.lru == EraseQueue(c.lru, call.q, p))
      && (!t.stop ==> PassedBy(c, o, call, tries, p, t.c) && t.victim == Null)
      && (t.victim != Null ==> t.victim == p)
  {
    hide EraseQueue, PushQueue, Flushed, Unlink, Drop, VisitLive;
    if Skipped(c, o, call, tries, p) {
    } else if Dead(Hold(c, p), env, p) {
      GoneEffect(c, p);
    } else {
      ColdLive(Hold(c, p), env, call, p);
    }
  }

  lemma ColdLive(c: Cache, env: Env, call: Call, p: Ptr)
    requires LinkedIn(c.mem, p) && c.mem[p].refcount > 1 && c.mem[p].Home() == call.q && call.q.seg == Cold
    requires call.evict || !env.maintainer
    ensures var t := VisitLive(c, env, call, p);
      && t.stop && t.c.stamps == c.stamps && p in t.c.mem && t.c.mem[p].seg == c.mem[p].seg
      && (t.c.lru == c.lru || t.c.lru == EraseQueue(c.lru, call.q, p)) && (t.victim != Null ==> t.victim == p)
  {
    hide EraseQueue, Unlink, Drop;
    UnlinkElsewhere(c, p);
    DropElsewhere(Unlink(c, p), p);
    if !(call.evict && env.evictToFree) { DropKeeps(c, p); }
  }

  lemma DropKeeps(c: Cache, p: Ptr)
    requires p in c.mem && c.mem[p].refcount > 1
    ensures var u := Drop(c, p); u == c.(mem := u.mem) && p in u.mem && u.mem[p].seg == c.mem[p].seg
  {
  }

  lemma ErasedAt(s: seq<Ptr>, i: nat, j: nat)
    requires NoDup(s) && j < i < |s|
    ensures |Erase(s, s[i])| == |s| - 1 && Erase(s, s[i])[j] == s[j]
  {
    IndexIs(s, i);
  }

  // The walk started at position i of the queue, and position j was its turn i - j.
  ghost predicate PassedAt(c: Cache, o: Oracle, call: Call, tries: nat, i: nat, j: nat, z: Cache) {
    var s := QueueIn(c.lru, call.q);
    j <= i < |s| && i - j < tries && PassedBy(c, o, call, tries - (i - j), s[j], z)
  }

  lemma PassedBefore(c: Cache, c1: Cache, o: Oracle, call: Call, tries: nat, p: Ptr, x: Ptr, z: Cache)
    requires Elsewhere(c, c1, p) && x != p && x in c.mem && PassedBy(c1, o, call, tries, x, z)
    ensures PassedBy(c, o, call, tries, x, z)
  {
  }

  // What a turn has reclaimed stays so for the rest of the walk.
  lemma StaysReclaimed(c: Cache, t: Cache, env: Env, o: Oracle, call: Call, tries: nat, x: Ptr, search: Ptr, rest: nat)
    requires Coherent(t) && Timely(t, env) && PassedBy(c, o, call, tries, x, t) && x in t.mem
    requires search == Null || (LinkedIn(t.mem, search) && t.mem[search].Home() == call.q)
    ensures PassedBy(c, o, call, tries, x, Walk(t, env, o, call, search, rest).c)
  {
    hide Coherent, Timely, Walk, TableShrinks, OwnKept, VictimOk, ItemKept, QueueIn, Skipped;
    WalkOk(t, env, o, call, search, rest);
  }

  lemma QueueFacts(c: Cache, q: Queue, i: nat)
    requires Coherent(c) && i < |QueueIn(c.lru, q)|
    ensures NoDup(QueueIn(c.lru, q)) && LinkedIn(c.mem, QueueIn(c.lru, q)[i]) && c.mem[QueueIn(c.lru, q)[i]].Home() == q
  {
    hide TableOk, LinkedOk, StampsOk, RefsOk;
    assert QueueIn(c.lru, q)[i] in QueueIn(c.lru, q);
  }

  // The walk goes on with the queue above p unchanged.
  lemma ColdNext(c: Cache, env: Env, o: Oracle, call: Call, i: nat, tries: nat)
    requires Coherent(c) && Timely(c, env) && call.q.seg == Cold && (call.evict || !env.maintainer)
    requires i < |QueueIn(c.lru, call.q)| && tries > 0
    ensures var s := QueueIn(c.lru, call.q);
      && Usable(c, s[i]) && c.mem[s[i]].Home() == call.q && NoDup(s)
          && (forall j :: 0 <= j < i ==> s[j] != s[i] && s[j] in c.mem)
    ensures var s := QueueIn(c.lru, call.q); var t := Visit(c, env, o, call, tries, s[i]);
      && Coherent(t.c) && Timely(t.c, env) && Elsewhere(c, t.c, s[i])
      && Above(s, s[i]) == (if i > 0 then s[i - 1] else Null)
      && (forall j :: 0 <= j < i ==> j < |QueueIn(t.c.lru, call.q)| && QueueIn(t.c.lru, call.q)[j] == s[j])
  {
    var s := QueueIn(c.lru, call.q);
    var p := s[i];
    QueueFacts(c, call.q, i);
    forall j | 0 <= j < i ensures s[j] != s[i] && s[j] in c.mem { QueueFacts(c, call.q, j); }
    hide Coherent, Timely, Visit, Elsewhere, PassedBy, PullOk;
    TurnPulled(c, env, o, call, tries, p);
    ColdTurn(c, env, o, call, tries, p);
    IndexIs(s, i);
    PullCoherent(c, env, o, call, 1, Visit(c, env, o, call, tries, p));
    forall j | 0 <= j < i ensures j < |Erase(s, p)| && Erase(s, p)[j] == s[j] { ErasedAt(s, i, j); }
    hide Erase;
  }

  lemma WalkStep(c: Cache, env: Env, o: Oracle, call: Call, p: Ptr, tries: nat)
    requires Usable(c, p) && tries > 0
    ensures var t := Visit(c, env, o, call, tries, p); var w := Walk(c, env, o, call, p, tries);
      var r := Walk(t.c, env, o, call, Above(QueueIn(c.lru, call.q), p), tries - 1);
      w.victim == (if t.stop then t.victim else r.victim) && w.c == if t.stop then t.c else r.c
  {
    hide Visit, Above, QueueIn;
  }

  lemma WalkNothing(c: Cache, env: Env, o: Oracle, call: Call, tries: nat)
    requires Coherent(c)
    ensures Walk(c, env, o, call, Null, tries).victim == Null
  {
    hide Visit, Above, QueueIn, Coherent;
    NotNullAt(c);
  }

  lemma WalkOver(c: Cache, env: Env, o: Oracle, call: Call, p: Ptr)
    ensures Walk(c, env, o, call, p, 0).victim == Null
  {
  }

  // Everything between the victim and the start of the walk was passed by for a reason.
  lemma {:induction false} VictimIsFirst(c: Cache, env: Env, o: Oracle, call: Call, i: nat, tries: nat) returns (v: nat)
    requires Coherent(c) && Timely(c, env) && call.q.seg == Cold && !env.maintainer && i < |QueueIn(c.lru, call.q)|
    requires Walk(c, env, o, call, QueueIn(c.lru, call.q)[i], tries).victim != Null
    ensures var s := QueueIn(c.lru, call.q);
      && v <= i && s[v] == Walk(c, env, o, call, s[i], tries).victim
      && forall j: nat :: v < j <= i ==> PassedAt(c, o, call, tries, i, j, Walk(c, env, o, call, s[i], tries).c)
    decreases tries
  {
    hide Coherent, Timely, Visit, Elsewhere, PassedBy, QueueIn, Above, Walk, Usable, EraseQueue, NoDup;
    var s := QueueIn(c.lru, call.q);
    WalkOver(c, env, o, call, s[i]);
    ColdNext(c, env, o, call, i, tries);
    WalkStep(c, env, o, call, s[i], tries);
    ColdTurn(c, env, o, call, tries, s[i]);
    var t := Visit(c, env, o, call, tries, s[i]);
    v := i;
    if !t.stop {
      WalkNothing(t.c, env, o, call, tries - 1);
      v := VictimIsFirst(t.c, env, o, call, i - 1, tries - 1);
      var z := Walk(c, env, o, call, s[i], tries).c;
      assert z == Walk(t.c, env, o, call, s[i - 1], tries - 1).c;
      QueueFacts(t.c, call.q, i - 1);
      StaysReclaimed(c, t.c, env, o, call, tries, s[i], s[i - 1], tries - 1);
      forall j: nat | v < j <= i ensures PassedAt(c, o, call, tries, i, j, z) {
        if j < i {
          assert PassedAt(t.c, o, call, tries - 1, i - 1, j, z) && QueueIn(t.c.lru, call.q)[j] == s[j];
          PassedBefore(c, t.c, o, call, (tries - 1) - (i - 1 - j), s[i], s[j], z);
        } else {
          assert tries - (i - j) == tries;
        }
      }
    }
  }

  // ---- sorted queues ----

  // From the head on, access times do not grow.
  ghost predicate Sorted(stamps: map<Ptr, Stamp>, s: seq<Ptr>) {
    forall i, j :: 0 <= i < j < |s| ==> StampOf(stamps, s[j]).time <= StampOf(stamps, s[i]).time
  }

  ghost predicate AllSorted(stamps: map<Ptr, Stamp>, lru: map<Queue, seq<Ptr>>) {
    forall q :: Sorted(stamps, QueueIn(lru, q))
  }

  lemma EraseSorted(stamps: map<Ptr, Stamp>, lru: map<Queue, seq<Ptr>>, q: Queue, p: Ptr)
    requires AllSorted(stamps, lru)
    ensures AllSorted(stamps, EraseQueue(lru, q, p))
  {
    var s := QueueIn(lru, q);
    var r := Erase(s, p);
    assert Sorted(stamps, s);
    if p in s {
      var i := IndexOf(s, p);
      assert forall j :: 0 <= j < |r| ==> r[j] == s[if j < i then j else j + 1];
    }
    assert Sorted(stamps, r);
    forall x ensures Sorted(stamps, QueueIn(EraseQueue(lru, q, p), x)) {
      if x != q { assert QueueIn(EraseQueue(lru, q, p), x) == QueueIn(lru, x); }
    }
  }

  // An item that is in no queue may get any time.
  lemma StampSorted(stamps: map<Ptr, Stamp>, lru: map<Queue, seq<Ptr>>, p: Ptr, st: Stamp)
    requires AllSorted(stamps, lru) && forall q :: p !in QueueIn(lru, q)
    ensures AllSorted(stamps[p := st], lru)
  {
    forall q ensures Sorted(stamps[p := st], QueueIn(lru, q)) {
      var s := QueueIn(lru, q);
      assert Sorted(stamps, s);
      assert forall i :: 0 <= i < |s| ==> s[i] in s;
    }
  }

  lemma PushSorted(stamps: map<Ptr, Stamp>, lru: map<Queue, seq<Ptr>>, q: Queue, p: Ptr, now: nat)
    requires AllSorted(stamps, lru) && StampOf(stamps, p).time == now
    requires forall x :: StampOf(stamps, x).time <= now
    ensures AllSorted(stamps, PushQueue(lru, q, p))
  {
    assert Sorted(stamps, QueueIn(lru, q));
    assert Sorted(stamps, [p] + QueueIn(lru, q));
    forall x ensures Sorted(stamps, QueueIn(PushQueue(lru, q, p), x)) {
      if x != q { assert QueueIn(PushQueue(lru, q, p), x) == QueueIn(lru, x); }
    }
  }

  lemma NotQueued(c: Cache, p: Ptr)
    requires Coherent(c) && !LinkedIn(c.mem, p)
    ensures forall q :: p !in QueueIn(c.lru, q)
  {
    hide TableOk, LinkedOk, StampsOk, RefsOk, QueuesOnce;
  }

  lemma ErasedQueue(c: Cache, p: Ptr)
    requires Coherent(c) && LinkedIn(c.mem, p)
    ensures forall q :: p !in QueueIn(EraseQueue(c.lru, c.mem[p].Home(), p), q)
  {
    hide TableOk, LinkedOk, StampsOk, RefsOk;
    EraseQueueFacts(c.lru, c.mem[p].Home(), p);
    hide EraseQueue, QueuesOnce;
  }

  // ---- pulls ----

  ghost predicate Thinned(c: Cache, c1: Cache) {
    && c1.stamps == c.stamps
    && (forall x :: LinkedIn(c1.mem, x) ==> LinkedIn(c.mem, x))
    && forall x :: FilledIn(c1.mem, x) ==> FilledIn(c.mem, x) && c1.mem[x].seg == c.mem[x].seg
  }

  lemma ColdThinned(c: Cache, env: Env, o: Oracle, call: Call, tries: nat, p: Ptr)
    requires Coherent(c) && Timely(c, env) && LinkedIn(c.mem, p) && c.mem[p].Home() == call.q && call.q.seg == Cold
    requires !env.maintainer && AllSorted(c.stamps, c.lru) && tries > 0
    ensures Usable(c, p)
    ensures var t := Visit(c, env, o, call, tries, p); Thinned(c, t.c) && AllSorted(t.c.stamps, t.c.lru)
  {
    hide Coherent, Timely, Visit, EraseQueue, AllSorted, PullOk;
    LinkedHere(c, p);
    TurnPulled(c, env, o, call, tries, p);
    ColdTurn(c, env, o, call, tries, p);
    EraseSorted(c.stamps, c.lru, call.q, p);
  }

  lemma {:induction false} WalkThins(c: Cache, env: Env, o: Oracle, call: Call, search: Ptr, tries: nat)
    requires Coherent(c) && Timely(c, env) && call.q.seg == Cold && !env.maintainer && AllSorted(c.stamps, c.lru)
    requires search == Null || (LinkedIn(c.mem, search) && c.mem[search].Home() == call.q)
    ensures var r := Walk(c, env, o, call, search, tries); Thinned(c, r.c) && AllSorted(r.c.stamps, r.c.lru)
    decreases tries
  {
    hide Coherent, Timely, PullOk, Visit, Elsewhere, AllSorted, Thinned, Above, QueueIn;
    NotNullAt(c);
    if search != Null { LinkedHere(c, search); }
    ThinnedSelf(c);
    if tries > 0 && Usable(c, search) {
      var t := Visit(c, env, o, call, tries, search);
      ColdThinned(c, env, o, call, tries, search);
      if !t.stop {
        TurnPulled(c, env, o, call, tries, search);
        PullCoherent(c, env, o, call, 1, t);
        AboveLinked(c, call, search, t.c);
        var next := Above(QueueIn(c.lru, call.q), search);
        WalkThins(t.c, env, o, call, next, tries - 1);
        ThinnedTwice(c, t.c, Walk(t.c, env, o, call, next, tries - 1).c);
      }
    }
  }

  lemma ThinnedSelf(c: Cache)
    ensures Thinned(c, c)
  {
  }

  lemma ThinnedTwice(c: Cache, c1: Cache, c2: Cache)
    requires Thinned(c, c1) && Thinned(c1, c2)
    ensures Thinned(c, c2)
  {
  }

  lemma PullThins(c: Cache, env: Env, o: Oracle, call: Call)
    requires Coherent(c) && Timely(c, env) && call.q.seg == Cold && !env.maintainer && AllSorted(c.stamps, c.lru)
    ensures var r := PullTail(c, env, o, call); Thinned(c, r.c) && AllSorted(r.c.stamps, r.c.lru)
  {
    hide Coherent, Timely, AllSorted, Thinned, Walk;
    ThinnedSelf(c);
    var s := QueueIn(c.lru, call.q);
    if call.q.clsid != 0 && s != [] {
      QueueFacts(c, call.q, |s| - 1);
      WalkThins(c, env, o, call, s[|s| - 1], TRIES);
    }
  }
}
