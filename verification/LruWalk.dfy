// The walk of lru_pull_tail past crawler nodes: positions in the queue with its crawler against items.
module LruWalk {
  import opened Memory
  import opened Linkage
  import opened DList
  import opened CacheSpec
  import opened LruPull
  import opened LruLists

  // An item a second look at would change nothing about.
  ghost predicate Idle(c: Cache, env: Env, call: Call, p: Ptr) {
    && LinkedIn(c.mem, p) && c.mem[p].refcount > 0 && c.mem[p].Home() == call.q && call.q.seg != Cold
        && !Dead(c, env, p)
    && |QueueIn(c.lru, call.q)| <= call.limit && !c.mem[p].flags.active
  }

  lemma IdleVisit(c: Cache, env: Env, o: Oracle, call: Call, tries: nat, p: Ptr)
    requires Idle(c, env, call, p)
    ensures Usable(c, p) && Visit(c, env, o, call, tries, p).c == c && Visit(c, env, o, call, tries, p).removed == 0
  {
    hide Flushed;
    assert c.mem[p := c.mem[p]] == c.mem;
    assert Hold(c, p).mem[p].refcount > 1;
  }

  // The last item of s.
  function LastItem(s: seq<Ptr>): Ptr {
    if s == [] then Null else if s[|s| - 1].Crawler? then LastItem(s[..|s| - 1]) else s[|s| - 1]
  }

  lemma {:induction false} LastOfItems(s: seq<Ptr>)
    requires Null !in s
    ensures LastItem(s) == if Items(s) == [] then Null else Items(s)[|Items(s)| - 1]
    ensures LastItem(s) == Null <==> forall i :: 0 <= i < |s| ==> s[i].Crawler?
  {
    if s != [] {
      var t, p := s[..|s| - 1], s[|s| - 1];
      assert s == t + [p];
      ItemsBack(t, p);
      LastOfItems(t);
      assert forall i :: 0 <= i < |t| ==> s[i] == t[i];
    }
  }

  lemma {:induction false} LastAfter(p: Ptr, s: seq<Ptr>)
    requires p.Chunk? && Null !in s
    ensures LastItem([p] + s) == if LastItem(s) == Null then p else LastItem(s)
  {
    if s == [] {
      assert [p] + s == [p];
    } else {
      var t, x := s[..|s| - 1], s[|s| - 1];
      assert ([p] + s)[..|s|] == [p] + t;
      LastAfter(p, t);
      LastOfItems(s);
    }
  }

  // What the walk is at: n nodes from the head, the last of them being `search`.
  function NodeAt(s: seq<Ptr>, n: nat): Ptr { if 0 < n <= |s| then s[n - 1] else Null }

  lemma AboveIs(s: seq<Ptr>, n: nat)
    requires NoDup(s) && Null !in s && 0 < n <= |s| && s[n - 1].Chunk?
    ensures LastItem(s[..n]) == s[n - 1] && Above(Items(s), s[n - 1]) == LastItem(s[..n - 1])
  {
    hide NoDup, Items, Without, Above;
    var a, p, b := s[..n - 1], s[n - 1], s[n..];
    AroundAt(s, n - 1);
    assert s[..n][..n - 1] == a;
    ItemsMid(a, p, b);
    ItemsIn(a, p);
    AboveMid(Items(a), p, Items(b));
    LastOfItems(a);
  }

  lemma AboveMid(a: seq<Ptr>, p: Ptr, b: seq<Ptr>)
    requires p !in a
    ensures Above(a + [p] + b, p) == if a == [] then Null else a[|a| - 1]
  {
    var r := a + [p] + b;
    assert r[..|a|] == a && r[|a|] == p;
    FirstAt(r, |a|);
  }

  // The rest of the walk is what the specification still has to do.
  ghost predicate Going(total: Turn, c: Cache, removed: nat, env: Env, o: Oracle, call: Call, s: seq<Ptr>, n: nat,
      tries: nat)
    requires n <= |s|
  {
    var w := Walk(c, env, o, call, LastItem(s[..n]), tries);
    total.c == w.c && total.removed == removed + w.removed
  }

  // The specification is done; the walk itself may come, past a crawler, to the item it has just put at the head.
  ghost predicate Settled(total: Turn, c: Cache, removed: nat, env: Env, call: Call, s: seq<Ptr>, n: nat) {
    && total.c == c && total.removed == removed
    && (n == 0 || (n <= 2 && n <= |s| && s[0].Chunk? && Idle(c, env, call, s[0]) && (n == 2 ==> s[1].Crawler?)))
  }

  // The queue after a turn on the item at position n - 1 that does not end the walk.
  predicate Afterwards(s: seq<Ptr>, n: nat, s1: seq<Ptr>, n1: nat)
    requires 0 < n <= |s|
  {
    || (s1 == s && n1 == n - 1)
    || (s1 == Without(s, n - 1) && n1 == n - 1)
    || (s1 == [s[n - 1]] + Without(s, n - 1) && n1 == if n == 1 then 0 else n)
  }

  ghost predicate OneCrawler(s: seq<Ptr>) {
    forall i, j :: 0 <= i < |s| && 0 <= j < |s| && s[i].Crawler? && s[j].Crawler? ==> i == j
  }

  // The walk goes on with the node that was before the item.
  lemma NextNode(s: seq<Ptr>, n: nat, s1: seq<Ptr>, n1: nat)
    requires 0 < n <= |s| && Afterwards(s, n, s1, n1)
    ensures n1 <= |s1| && NodeAt(s1, n1) == Before(s, n - 1)
    ensures n1 == n - 1 ==> s1[..n1] == s[..n - 1]
    ensures n1 != n - 1 ==> n > 1 && n1 == n && s1[..n1] == [s[n - 1]] + s[..n - 1]
  {
  }

  lemma WalkOn(c: Cache, env: Env, o: Oracle, call: Call, p: Ptr, tries: nat)
    requires Usable(c, p) && tries > 0
    ensures var t := Visit(c, env, o, call, tries, p); var w := Walk(c, env, o, call, p, tries);
      var r := Walk(t.c, env, o, call, Above(QueueIn(c.lru, call.q), p), tries - 1);
      if t.stop then w == t else w.c == r.c && w.removed == t.removed + r.removed
  {
    hide Visit, Above;
  }

  lemma WalkNone(c: Cache, env: Env, o: Oracle, call: Call, tries: nat)
    requires Null !in c.mem
    ensures Walk(c, env, o, call, Null, tries).c == c && Walk(c, env, o, call, Null, tries).removed == 0
  {
    hide Visit, Above;
  }

  lemma GoesOn(total: Turn, c: Cache, removed: nat, env: Env, o: Oracle, call: Call, s: seq<Ptr>, n: nat, tries: nat,
               s1: seq<Ptr>, n1: nat)
    requires NoDup(s) && Null !in s && OneCrawler(s) && 0 < n <= |s| && s[n - 1].Chunk?
        && Items(s) == QueueIn(c.lru, call.q)
    requires tries > 0 && Usable(c, s[n - 1]) && Null !in c.mem && Going(total, c, removed, env, o, call, s, n, tries)
    requires var t := Visit(c, env, o, call, tries, s[n - 1]);
      && !t.stop && Afterwards(s, n, s1, n1) && Null !in t.c.mem
      && (n1 != n - 1 ==> Idle(t.c, env, call, s[n - 1]))
    ensures n1 <= |s1|
    ensures var t := Visit(c, env, o, call, tries, s[n - 1]);
      || Going(total, t.c, removed + t.removed, env, o, call, s1, n1, tries - 1)
      || Settled(total, t.c, removed + t.removed, env, call, s1, n1)
  {
    hide Visit, Walk, Above, Usable, Idle, Afterwards, Items, Without, NoDup, OneCrawler;
    var p := s[n - 1];
    AboveIs(s, n);
    WalkOn(c, env, o, call, p, tries);
    NextNode(s, n, s1, n1);
    var t := Visit(c, env, o, call, tries, p);
    WalkNone(t.c, env, o, call, tries - 1);
    if n1 != n - 1 {
      NoNullBelow(s, n - 1);
      LastAfter(p, s[..n - 1]);
      if LastItem(s[..n - 1]) == Null {
        OnlyCrawler(s, n - 1);
        assert s1[..n1][0] == p && s1[..n1][1] == s[..n - 1][0];
      }
    }
  }

  lemma NoNullBelow(s: seq<Ptr>, n: nat)
    requires Null !in s && n <= |s|
    ensures Null !in s[..n]
  {
  }

  lemma OnlyCrawler(s: seq<Ptr>, n: nat)
    requires Null !in s && OneCrawler(s) && 0 < n <= |s| && LastItem(s[..n]) == Null
    ensures n == 1 && s[0].Crawler?
  {
    NoNullBelow(s, n);
    LastOfItems(s[..n]);
    assert forall i :: 0 <= i < n ==> s[i] == s[..n][i];
  }
}
