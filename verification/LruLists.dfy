// The LRU queues as items.c keeps them: heads, tails and sizes, and prev and next words in the items, with at most
// one crawler node in each queue.
module LruLists {
  import opened Memory
  import opened Linkage
  import opened DList

  type Ends = map<Queue, Ptr>

  function EndAt(e: Ends, q: Queue): Ptr { if q in e then e[q] else Null }

  function CountAt(sizes: map<Queue, int>, q: Queue): int { if q in sizes then sizes[q] else 0 }

  // The queue without crawlers.
  function Items(s: seq<Ptr>): seq<Ptr> {
    if s == [] then [] else if s[0].Crawler? then Items(s[1..]) else [s[0]] + Items(s[1..])
  }

  // A crawler is one node of a static array with an entry for every queue.
  function SegmentCode(seg: Segment): nat { match seg case Hot => 0 case Warm => 1 case Cold => 2 case NoExp => 3 }

  function CrawlerOf(q: Queue): Ptr { Crawler(4 * q.clsid + SegmentCode(q.seg)) }

  // phys are the queues with their crawlers, lru those without.
  ghost predicate Threaded(prev: Words, next: Words, heads: Ends, tails: Ends, phys: map<Queue, seq<Ptr>>) {
    forall q ::
      && IsList(prev, next, QueueIn(phys, q))
      && EndAt(heads, q) == Head(QueueIn(phys, q)) && EndAt(tails, q) == Tail(QueueIn(phys, q))
  }

  ghost predicate Disjoint(phys: map<Queue, seq<Ptr>>) {
    forall q1, q2, p :: p in QueueIn(phys, q1) && p in QueueIn(phys, q2) ==> q1 == q2
  }

  ghost predicate OwnCrawler(phys: map<Queue, seq<Ptr>>) {
    forall q, p :: p in QueueIn(phys, q) && p.Crawler? ==> p == CrawlerOf(q)
  }

  ghost predicate Mirrors(phys: map<Queue, seq<Ptr>>, lru: map<Queue, seq<Ptr>>, sizes: map<Queue, int>) {
    forall q :: Items(QueueIn(phys, q)) == QueueIn(lru, q) && CountAt(sizes, q) == |QueueIn(lru, q)|
  }

  // ---- the items of a queue ----

  lemma {:induction false} ItemsOfCat(s: seq<Ptr>, t: seq<Ptr>)
    ensures Items(s + t) == Items(s) + Items(t)
  {
    if s == [] {
      assert s + t == t;
    } else {
      assert (s + t)[1..] == s[1..] + t;
      ItemsOfCat(s[1..], t);
    }
  }

  lemma {:induction false} ItemsIn(s: seq<Ptr>, p: Ptr)
    ensures p in Items(s) <==> p in s && !p.Crawler?
  {
    if s != [] { ItemsIn(s[1..], p); }
  }

  lemma ItemsPush(s: seq<Ptr>, p: Ptr)
    ensures Items([p] + s) == if p.Crawler? then Items(s) else [p] + Items(s)
  {
    assert ([p] + s)[1..] == s;
  }

  lemma OneItem(p: Ptr)
    ensures Items([p]) == if p.Crawler? then [] else [p]
  {
  }

  lemma ItemsBack(s: seq<Ptr>, p: Ptr)
    ensures Items(s + [p]) == if p.Crawler? then Items(s) else Items(s) + [p]
  {
    ItemsOfCat(s, [p]);
    OneItem(p);
  }

  lemma {:induction false} FirstAt(r: seq<Ptr>, k: nat)
    requires k < |r| && r[k] !in r[..k]
    ensures IndexOf(r, r[k]) == k
  {
    if k > 0 {
      assert r[..k][0] == r[0];
      assert forall j :: 0 <= j < k - 1 ==> r[1..][j] == r[..k][j + 1];
      FirstAt(r[1..], k - 1);
    }
  }

  lemma ItemsMid(a: seq<Ptr>, p: Ptr, b: seq<Ptr>)
    ensures Items(a + [p] + b) == Items(a) + (if p.Crawler? then [] else [p]) + Items(b)
    ensures Items(a + b) == Items(a) + Items(b)
  {
    ItemsOfCat(a + [p], b);
    ItemsBack(a, p);
    ItemsOfCat(a, b);
  }

  lemma EraseMid(a: seq<Ptr>, p: Ptr, b: seq<Ptr>)
    requires p !in a
    ensures Erase(a + [p] + b, p) == a + b
  {
    var r := a + [p] + b;
    assert r[|a|] == p && r[..|a|] == a;
    FirstAt(r, |a|);
    assert Without(r, |a|) == a + b;
  }

  lemma AroundAt(s: seq<Ptr>, i: nat)
    requires NoDup(s) && i < |s|
    ensures s == s[..i] + [s[i]] + s[i + 1..] && Without(s, i) == s[..i] + s[i + 1..] && s[i] !in s[..i]
  {
  }

  lemma ItemsEraseMid(a: seq<Ptr>, p: Ptr, b: seq<Ptr>)
    requires p !in a
    ensures Items(a + b) == if p.Crawler? then Items(a + [p] + b) else Erase(Items(a + [p] + b), p)
  {
    hide Items, Erase;
    ItemsMid(a, p, b);
    ItemsIn(a, p);
    if p.Crawler? { assert Items(a) + [] == Items(a); } else { EraseMid(Items(a), p, Items(b)); }
  }

  // Taking a node out takes it out of the items.
  lemma ItemsErase(s: seq<Ptr>, i: nat)
    requires NoDup(s) && i < |s|
    ensures Items(Without(s, i)) == if s[i].Crawler? then Items(s) else Erase(Items(s), s[i])
  {
    hide NoDup, Items, Erase, Without;
    AroundAt(s, i);
    ItemsEraseMid(s[..i], s[i], s[i + 1..]);
  }

  // A crawler that swings in front of an item leaves the items as they are.
  lemma ItemsSwap(s: seq<Ptr>, i: nat)
    requires 0 < i < |s| && s[i].Crawler?
    ensures Items(Swapped(s, i)) == Items(s)
  {
    hide Items;
    var a, b, y, x := s[..i - 1], s[i + 1..], s[i - 1], s[i];
    assert s == a + [y] + [x] + b;
    assert Swapped(s, i) == a + [x] + [y] + b;
    ItemsOfCat(a + [y] + [x], b);
    ItemsOfCat(a + [x] + [y], b);
    ItemsBack(a + [y], x);
    ItemsBack(a, y);
    ItemsBack(a + [x], y);
    ItemsBack(a, x);
  }

  // ---- one queue changes ----

  ghost predicate OneList(prev: Words, next: Words, prev1: Words, next1: Words, s: seq<Ptr>, r: seq<Ptr>, p: Ptr) {
    && IsList(prev1, next1, r)
    && (forall x :: At(prev1, x) != At(prev, x) || At(next1, x) != At(next, x) ==> x in s || x == p)
    && forall x :: x in r ==> x in s || x == p
  }

  // The words written belong to the queue's own nodes and the node p that enters or leaves it.
  lemma ThreadOne(prev: Words, next: Words, heads: Ends, tails: Ends, phys: map<Queue, seq<Ptr>>,
                  prev1: Words, next1: Words, q: Queue, r: seq<Ptr>, p: Ptr)
    requires Threaded(prev, next, heads, tails, phys) && Disjoint(phys)
    requires OneList(prev, next, prev1, next1, QueueIn(phys, q), r, p)
    requires forall q1 :: q1 != q ==> p !in QueueIn(phys, q1)
    ensures Threaded(prev1, next1, heads[q := Head(r)], tails[q := Tail(r)], phys[q := r]) && Disjoint(phys[q := r])
  {
    var s := QueueIn(phys, q);
    forall q1 | q1 != q ensures IsList(prev1, next1, QueueIn(phys, q1)) {
      OtherList(prev, next, heads, tails, phys, prev1, next1, q, r, p, q1);
    }
    OneIsList(prev, next, prev1, next1, s, r, p);
    hide IsList, OneList, Disjoint;
    DisjointOne(phys, q, r, p);
    var phys1, heads1, tails1 := phys[q := r], heads[q := Head(r)], tails[q := Tail(r)];
    forall q1
      ensures IsList(prev1, next1, QueueIn(phys1, q1))
      ensures EndAt(heads1, q1) == Head(QueueIn(phys1, q1)) && EndAt(tails1, q1) == Tail(QueueIn(phys1, q1))
    {
      QueueList(prev, next, heads, tails, phys, q1);
      hide Threaded;
    }
  }

  lemma DisjointOne(phys: map<Queue, seq<Ptr>>, q: Queue, r: seq<Ptr>, p: Ptr)
    requires Disjoint(phys) && (forall x :: x in r ==> x in QueueIn(phys, q) || x == p)
    requires forall q1 :: q1 != q ==> p !in QueueIn(phys, q1)
    ensures Disjoint(phys[q := r])
  {
    var phys1 := phys[q := r];
    forall q1, q2, x | x in QueueIn(phys1, q1) && x in QueueIn(phys1, q2) ensures q1 == q2 {
      if q1 != q && q2 != q { assert x in QueueIn(phys, q1) && x in QueueIn(phys, q2); }
      if q1 == q && q2 != q { assert x in QueueIn(phys, q2); }
    }
  }

  lemma OneIsList(prev: Words, next: Words, prev1: Words, next1: Words, s: seq<Ptr>, r: seq<Ptr>, p: Ptr)
    requires OneList(prev, next, prev1, next1, s, r, p)
    ensures IsList(prev1, next1, r) && forall x :: x in r ==> x in s || x == p
  {
  }

  lemma OtherList(prev: Words, next: Words, heads: Ends, tails: Ends, phys: map<Queue, seq<Ptr>>,
                  prev1: Words, next1: Words, q: Queue, r: seq<Ptr>, p: Ptr, q1: Queue)
    requires Threaded(prev, next, heads, tails, phys) && Disjoint(phys) && q1 != q && p !in QueueIn(phys, q1)
    requires OneList(prev, next, prev1, next1, QueueIn(phys, q), r, p)
    ensures IsList(prev1, next1, QueueIn(phys, q1))
  {
    hide IsList, QueueIn;
    forall x | x in QueueIn(phys, q1) ensures At(prev1, x) == At(prev, x) && At(next1, x) == At(next, x) {
    }
    Untouched(prev, next, prev1, next1, QueueIn(phys, q1));
  }

  // An end word that already has its value need not be written.
  lemma SameEnds(prev: Words, next: Words, heads: Ends, tails: Ends, heads1: Ends, tails1: Ends, phys: map<Queue,
      seq<Ptr>>)
    requires Threaded(prev, next, heads, tails, phys)
    requires forall q :: EndAt(heads1, q) == EndAt(heads, q) && EndAt(tails1, q) == EndAt(tails, q)
    ensures Threaded(prev, next, heads1, tails1, phys)
  {
    hide IsList;
    forall q
      ensures IsList(prev, next, QueueIn(phys, q))
      ensures EndAt(heads1, q) == Head(QueueIn(phys, q)) && EndAt(tails1, q) == Tail(QueueIn(phys, q))
    {
      QueueList(prev, next, heads, tails, phys, q);
    }
  }

  lemma PushOne(prev: Words, next: Words, s: seq<Ptr>, p: Ptr)
    requires IsList(prev, next, s) && p !in s && p != Null
    ensures OneList(prev, next, PushPrev(prev, Head(s), p), next[p := Head(s)], s, [p] + s, p)
    ensures Head([p] + s) == p && Tail([p] + s) == if s == [] then p else Tail(s)
  {
    PushFront(prev, next, s, p);
    hide IsList;
    assert s != [] ==> s[0] in s;
  }

  lemma PushLast(prev: Words, next: Words, s: seq<Ptr>, p: Ptr)
    requires IsList(prev, next, s) && p !in s && p != Null
    ensures OneList(prev, next, prev[p := Tail(s)], PushNext(next, Tail(s), p), s, s + [p], p)
    ensures Tail(s + [p]) == p && Head(s + [p]) == if s == [] then p else Head(s)
  {
    PushBack(prev, next, s, p);
    hide IsList;
    assert s != [] ==> s[|s| - 1] in s;
  }

  lemma CutOne(prev: Words, next: Words, s: seq<Ptr>, i: nat)
    requires IsList(prev, next, s) && i < |s|
    ensures OneList(prev, next, CutPrev(prev, next, s[i]), CutNext(prev, next, s[i]), s, Without(s, i), s[i])
  {
    Cut(prev, next, s, i);
    CutFrame(prev, next, s, i);
    WithoutFacts(s, i);
    hide IsList, CutPrev, CutNext, Without;
  }

  lemma SwapOne(prev: Words, next: Words, s: seq<Ptr>, i: nat)
    requires IsList(prev, next, s) && 0 < i < |s|
    ensures OneList(prev, next, SwingPrev(prev, next, s[i]), SwingNext(prev, next, s[i]), s, Swapped(s, i), s[i])
  {
    Swap(prev, next, s, i);
    SwapFrame(prev, next, s, i);
    SwapNoDup(s, i);
    hide IsList, SwingPrev, SwingNext, Swapped;
  }

  lemma QueueList(prev: Words, next: Words, heads: Ends, tails: Ends, phys: map<Queue, seq<Ptr>>, q: Queue)
    requires Threaded(prev, next, heads, tails, phys)
    ensures var s := QueueIn(phys, q);
      IsList(prev, next, s) && NoDup(s) && Null !in s && EndAt(heads, q) == Head(s) && EndAt(tails, q) == Tail(s)
  {
  }

  lemma MirrorOne(phys: map<Queue, seq<Ptr>>, lru: map<Queue, seq<Ptr>>, sizes: map<Queue, int>, q: Queue,
      r: seq<Ptr>, t: seq<Ptr>)
    requires Mirrors(phys, lru, sizes) && Items(r) == t
    ensures Mirrors(phys[q := r], lru[q := t], sizes[q := |t|])
  {
    hide Items;
    var phys1, lru1, sizes1 := phys[q := r], lru[q := t], sizes[q := |t|];
    forall q1 ensures Items(QueueIn(phys1, q1)) == QueueIn(lru1, q1) && CountAt(sizes1, q1) == |QueueIn(lru1, q1)| {
      assert Items(QueueIn(phys, q1)) == QueueIn(lru, q1) && CountAt(sizes, q1) == |QueueIn(lru, q1)|;
    }
  }

  lemma MirrorSame(phys: map<Queue, seq<Ptr>>, lru: map<Queue, seq<Ptr>>, sizes: map<Queue, int>, q: Queue, r: seq<Ptr>)
    requires Mirrors(phys, lru, sizes) && Items(r) == Items(QueueIn(phys, q))
    ensures Mirrors(phys[q := r], lru, sizes)
  {
    hide Items;
  }

  lemma OwnOne(phys: map<Queue, seq<Ptr>>, q: Queue, r: seq<Ptr>)
    requires OwnCrawler(phys) && forall p :: p in r ==> p in QueueIn(phys, q) || !p.Crawler? || p == CrawlerOf(q)
    ensures OwnCrawler(phys[q := r])
  {
    hide CrawlerOf;
  }
}
