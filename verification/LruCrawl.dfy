// A whole crawl of one queue, while other threads link, unlink and requeue its items.
module LruCrawl {
  import opened Memory
  import opened DList
  import opened LruLists

  // The queue with its crawler node x, the items crawler_crawl_q has returned, and whether x is still linked.
  datatype Crawl = Crawl(s: seq<Ptr>, visited: seq<Ptr>, on: bool)

  datatype Step =
    | SCrawl                // crawler_crawl_q; at the head, crawler_unlink_q as well
    | SLimit                // the crawler has used up what it was told to look at, and is unlinked
    | SLink(p: Ptr)         // do_item_link_q
    | SUnlink(p: Ptr)       // do_item_unlink_q, by other threads or by item_crawler_evaluate
    | SRequeue(p: Ptr)      // both, one after the other

  predicate Enabled(c: Crawl, x: Ptr, a: Step) {
    match a
    case SCrawl => c.on && x in c.s
    case SLimit => c.on && x in c.s
    case SLink(p) => p != x && p !in c.s
    case SUnlink(p) => p != x && p in c.s
    case SRequeue(p) => p != x && p in c.s
  }

  function Apply(c: Crawl, x: Ptr, a: Step): Crawl
    requires Enabled(c, x, a)
  {
    match a
    case SCrawl =>
      if c.s[0] == x then c.(s := Erase(c.s, x), on := false)
      else
        var i := IndexOf(c.s, x);
        c.(s := Swapped(c.s, i), visited := c.visited + [c.s[i - 1]])
    case SLimit => c.(s := Erase(c.s, x), on := false)
    case SLink(p) => c.(s := [p] + c.s)
    case SUnlink(p) => c.(s := Erase(c.s, p))
    case SRequeue(p) => c.(s := [p] + Erase(c.s, p))
  }

  // The run starts with the crawler linked as the new tail of items.
  ghost predicate IsRun(run: seq<Crawl>, steps: seq<Step>, x: Ptr, items: seq<Ptr>) {
    && |run| == |steps| + 1 && NoDup(items) && x !in items && run[0] == Crawl(items + [x], [], true)
    && forall i :: 0 <= i < |steps| ==> Enabled(run[i], x, steps[i]) && run[i + 1] == Apply(run[i], x, steps[i])
  }

  predicate Moves(a: Step, p: Ptr) { (a.SLink? || a.SUnlink? || a.SRequeue?) && a.p == p }

  function Visits(visited: seq<Ptr>, p: Ptr): nat { multiset(visited)[p] }

  // p is further from the head than x.
  ghost predicate Passed(s: seq<Ptr>, x: Ptr, p: Ptr) { exists i, j :: 0 <= i < j < |s| && s[i] == x && s[j] == p }

  lemma PassedPush(s: seq<Ptr>, x: Ptr, p: Ptr, q: Ptr)
    requires q != x && q != p
    ensures Passed([q] + s, x, p) <==> Passed(s, x, p)
  {
    var r := [q] + s;
    if Passed(s, x, p) {
      var i, j :| 0 <= i < j < |s| && s[i] == x && s[j] == p;
      assert r[i + 1] == x && r[j + 1] == p;
    }
    if Passed(r, x, p) {
      var i, j :| 0 <= i < j < |r| && r[i] == x && r[j] == p;
      assert s[i - 1] == x && s[j - 1] == p;
    }
  }

  lemma PassedBy(s: seq<Ptr>, x: Ptr, p: Ptr, i: nat, j: nat)
    requires i < j < |s| && s[i] == x && s[j] == p
    ensures Passed(s, x, p)
  {
  }

  // Where the element at position i is once the element at k is gone, and where it was.
  lemma Down(s: seq<Ptr>, k: nat, i: nat) returns (i1: nat)
    requires k < |s| && i < |s| && i != k
    ensures i1 == (if i < k then i else i - 1) && i1 < |s| - 1 && Without(s, k)[i1] == s[i]
  {
    i1 := if i < k then i else i - 1;
  }

  lemma Up(s: seq<Ptr>, k: nat, i: nat) returns (i1: nat)
    requires k < |s| && i < |s| - 1
    ensures i1 == (if i < k then i else i + 1) && i1 < |s| && s[i1] == Without(s, k)[i]
  {
    i1 := if i < k then i else i + 1;
  }

  lemma PassedErase(s: seq<Ptr>, x: Ptr, p: Ptr, q: Ptr)
    requires q != x && q != p
    ensures Passed(Erase(s, q), x, p) <==> Passed(s, x, p)
  {
    if q in s {
      var k := IndexOf(s, q);
      hide Without;
      if Passed(s, x, p) {
        var i: nat, j: nat :| i < j < |s| && s[i] == x && s[j] == p;
        var i1 := Down(s, k, i);
        var j1 := Down(s, k, j);
        PassedBy(Without(s, k), x, p, i1, j1);
      }
      if Passed(Without(s, k), x, p) {
        var i: nat, j: nat :| i < j < |Without(s, k)| && Without(s, k)[i] == x && Without(s, k)[j] == p;
        var i1 := Up(s, k, i);
        var j1 := Up(s, k, j);
        PassedBy(s, x, p, i1, j1);
      }
    }
  }

  lemma PassedSwap(s: seq<Ptr>, i: nat, p: Ptr)
    requires NoDup(s) && 0 < i < |s| && p in s && p != s[i]
    ensures Passed(Swapped(s, i), s[i], p) <==> Passed(s, s[i], p) || p == s[i - 1]
    ensures p == s[i - 1] ==> !Passed(s, s[i], p)
  {
    var r, x := Swapped(s, i), s[i];
    assert r[i - 1] == x && r[i] == s[i - 1] && forall j :: 0 <= j < |s| && j != i && j != i - 1 ==> r[j] == s[j];
    if Passed(s, x, p) {
      var k, j :| 0 <= k < j < |s| && s[k] == x && s[j] == p;
      assert k == i && r[j] == p;
    }
    if Passed(r, x, p) {
      var k, j :| 0 <= k < j < |r| && r[k] == x && r[j] == p;
      assert forall m :: 0 <= m < |s| && s[m] == x ==> m == i;
      assert k == i - 1 && (j == i || s[j] == p);
    }
  }

  // Until it is passed an item has not been visited, afterwards it has been visited once.
  ghost predicate Tracked(c: Crawl, x: Ptr, p: Ptr) {
    && NoDup(c.s) && p in c.s && p != x
    && (c.on ==> x in c.s && Visits(c.visited, p) == if Passed(c.s, x, p) then 1 else 0)
  }

  lemma EraseKeeps(s: seq<Ptr>, q: Ptr)
    requires NoDup(s)
    ensures NoDup(Erase(s, q)) && q !in Erase(s, q) && forall y :: y in Erase(s, q) <==> y in s && y != q
  {
    EraseFacts(s, q);
  }

  lemma PushKeeps(s: seq<Ptr>, q: Ptr)
    requires NoDup(s) && q !in s
    ensures NoDup([q] + s) && forall y :: y in [q] + s <==> y in s || y == q
  {
  }

  lemma CountOne(visited: seq<Ptr>, y: Ptr, p: Ptr)
    ensures Visits(visited + [y], p) == Visits(visited, p) + if y == p then 1 else 0
  {
  }

  lemma CrawlTracks(c: Crawl, x: Ptr, p: Ptr)
    requires Tracked(c, x, p) && Enabled(c, x, SCrawl)
    ensures Tracked(Apply(c, x, SCrawl), x, p)
  {
    hide Passed, Visits, NoDup;
    EraseKeeps(c.s, x);
    if c.s[0] != x {
      var i := IndexOf(c.s, x);
      SwapNoDup(c.s, i);
      PassedSwap(c.s, i, p);
      CountOne(c.visited, c.s[i - 1], p);
      hide Swapped;
    }
  }

  lemma StepTracks(c: Crawl, x: Ptr, a: Step, p: Ptr)
    requires Tracked(c, x, p) && Enabled(c, x, a) && !Moves(a, p)
    ensures Tracked(Apply(c, x, a), x, p)
  {
    hide Passed, Visits, NoDup, Erase;
    match a {
      case SCrawl => CrawlTracks(c, x, p);
      case SLimit => EraseKeeps(c.s, x);
      case SLink(q) =>
        PushKeeps(c.s, q);
        PassedPush(c.s, x, p, q);
      case SUnlink(q) =>
        EraseKeeps(c.s, q);
        PassedErase(c.s, x, p, q);
      case SRequeue(q) =>
        EraseKeeps(c.s, q);
        PassedErase(c.s, x, p, q);
        PushKeeps(Erase(c.s, q), q);
        PassedPush(Erase(c.s, q), x, p, q);
    }
  }

  lemma StartTracks(items: seq<Ptr>, x: Ptr, p: Ptr)
    requires NoDup(items) && x !in items && p in items
    ensures Tracked(Crawl(items + [x], [], true), x, p)
  {
    var s := items + [x];
    assert s[|items|] == x;
    assert forall i :: 0 <= i < |items| ==> s[i] == items[i] && s[i] in items;
    assert !Passed(s, x, p);
  }

  lemma {:induction false} RunTracks(run: seq<Crawl>, steps: seq<Step>, x: Ptr, items: seq<Ptr>, p: Ptr, n: nat)
    requires IsRun(run, steps, x, items) && p in items && n < |run|
    requires forall i :: 0 <= i < n ==> !Moves(steps[i], p)
    ensures Tracked(run[n], x, p)
  {
    hide Tracked, Apply, Enabled;
    if n == 0 {
      StartTracks(items, x, p);
    } else {
      RunTracks(run, steps, x, items, p, n - 1);
      StepTracks(run[n - 1], x, steps[n - 1], p);
    }
  }

  // A crawl that reaches the head has visited every item that was there at the start and was not moved exactly
  // once; a crawl that was cut short has visited none of them twice.
  lemma VisitedOnce(run: seq<Crawl>, steps: seq<Step>, x: Ptr, items: seq<Ptr>, p: Ptr, n: nat)
    requires IsRun(run, steps, x, items) && p in items && n < |steps| && run[n].on
    requires forall i :: 0 <= i < n ==> !Moves(steps[i], p)
    ensures Visits(run[n].visited, p) <= 1
    ensures steps[n] == SCrawl && !run[n + 1].on ==>
      Visits(run[n].visited, p) == 1 && x !in run[n + 1].s && NoDup(run[n + 1].s)
  {
    hide Visits;
    RunTracks(run, steps, x, items, p, n);
    var s := run[n].s;
    if steps[n] == SCrawl && !run[n + 1].on {
      var j :| 0 <= j < |s| && s[j] == p;
      assert s[0] == x && 0 < j;
      assert Passed(s, x, p);
      hide NoDup;
      EraseKeeps(s, x);
    }
  }

  lemma EraseItems(s: seq<Ptr>, x: Ptr)
    requires NoDup(s) && x in s
    ensures Items(Erase(s, x)) == if x.Crawler? then Items(s) else Erase(Items(s), x)
  {
    ItemsErase(s, IndexOf(s, x));
  }

  // The crawler's own steps leave the sequence of items as it is.
  lemma CrawlerPermutesOnlyItself(c: Crawl, x: Ptr, a: Step)
    requires NoDup(c.s) && x.Crawler? && Enabled(c, x, a) && (a.SCrawl? || a.SLimit?)
    ensures Items(Apply(c, x, a).s) == Items(c.s)
  {
    hide Items;
    EraseItems(c.s, x);
    if a.SCrawl? && c.s[0] != x { ItemsSwap(c.s, IndexOf(c.s, x)); }
  }
}
