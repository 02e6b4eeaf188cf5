// Doubly linked lists threaded through the next and prev words of items.
module DList {
  import opened Memory

  type Words = map<Ptr, Ptr>

  function At(w: Words, p: Ptr): Ptr { if p in w then w[p] else Null }

  // The neighbours of position i of a list.
  function Before(s: seq<Ptr>, i: int): Ptr { if 0 < i <= |s| then s[i - 1] else Null }

  function After(s: seq<Ptr>, i: int): Ptr { if 0 <= i < |s| - 1 then s[i + 1] else Null }

  // s is the list from its head on.
  ghost predicate IsList(prev: Words, next: Words, s: seq<Ptr>) {
    && NoDup(s) && Null !in s
    && forall i :: 0 <= i < |s| ==> At(prev, s[i]) == Before(s, i) && At(next, s[i]) == After(s, i)
  }

  function Head(s: seq<Ptr>): Ptr { if s == [] then Null else s[0] }

  function Tail(s: seq<Ptr>): Ptr { if s == [] then Null else s[|s| - 1] }

  // A list whose elements' words are not written stays a list.
  lemma Untouched(prev: Words, next: Words, prev1: Words, next1: Words, s: seq<Ptr>)
    requires IsList(prev, next, s)
    requires forall p :: p in s ==> At(prev1, p) == At(prev, p) && At(next1, p) == At(next, p)
    ensures IsList(prev1, next1, s)
  {
    forall i | 0 <= i < |s| ensures s[i] in s {}
  }

  // it->prev = 0; it->next = head; if (it->next) it->next->prev = it
  function PushPrev(prev: Words, head: Ptr, p: Ptr): Words {
    if head == Null then prev[p := Null] else prev[p := Null][head := p]
  }

  lemma PushFront(prev: Words, next: Words, s: seq<Ptr>, p: Ptr)
    requires IsList(prev, next, s) && p !in s && p != Null
    ensures IsList(PushPrev(prev, Head(s), p), next[p := Head(s)], [p] + s)
  {
    var r := [p] + s;
    var prev1 := PushPrev(prev, Head(s), p);
    var next1 := next[p := Head(s)];
    assert NoDup(r) && Null !in r;
    forall i | 0 <= i < |r| ensures At(prev1, r[i]) == Before(r, i) && At(next1, r[i]) == After(r, i) {
      if i > 0 {
        assert r[i] == s[i - 1] && s[i - 1] in s;
        assert At(prev, s[i - 1]) == Before(s, i - 1) && At(next, s[i - 1]) == After(s, i - 1);
        if i > 1 { assert s[i - 1] != s[0]; }
      }
    }
  }

  // if (it->next) it->next->prev = it->prev; if (it->prev) it->prev->next = it->next
  function CutPrev(prev: Words, next: Words, p: Ptr): Words {
    if At(next, p) == Null then prev else prev[At(next, p) := At(prev, p)]
  }

  function CutNext(prev: Words, next: Words, p: Ptr): Words {
    if At(prev, p) == Null then next else next[At(prev, p) := At(next, p)]
  }

  lemma Neighbours(prev: Words, next: Words, s: seq<Ptr>, i: nat)
    requires IsList(prev, next, s) && i < |s|
    ensures At(next, s[i]) == (if i + 1 < |s| then s[i + 1] else Null)
        && At(prev, s[i]) == (if i > 0 then s[i - 1] else Null)
    ensures forall j :: 0 <= j < |s| && j != i ==> s[j] != s[i]
    ensures i + 1 < |s| ==> s[i + 1] != Null && s[i + 1] in s && forall j :: 0 <= j < |s| && j != i + 1 ==>
      s[j] != s[i + 1]
    ensures i > 0 ==> s[i - 1] != Null && s[i - 1] in s && forall j :: 0 <= j < |s| && j != i - 1 ==> s[j] != s[i - 1]
  {
    assert At(next, s[i]) == After(s, i) && At(prev, s[i]) == Before(s, i);
    if i > 0 { assert s[i - 1] in s; }
    if i + 1 < |s| { assert s[i + 1] in s; }
  }

  lemma CutWords(prev: Words, next: Words, s: seq<Ptr>, i: nat, k: nat)
    requires IsList(prev, next, s) && i < |s| && k < |s| && k != i
    ensures At(CutPrev(prev, next, s[i]), s[k]) == (if k == i + 1 then Before(s, i) else Before(s, k))
    ensures At(CutNext(prev, next, s[i]), s[k]) == (if k + 1 == i then After(s, i) else After(s, k))
  {
    Neighbours(prev, next, s, i);
    assert At(prev, s[k]) == Before(s, k) && At(next, s[k]) == After(s, k);
  }

  lemma CutAt(prev: Words, next: Words, s: seq<Ptr>, i: nat, j: nat)
    requires IsList(prev, next, s) && i < |s| && j < |s| - 1
    ensures At(CutPrev(prev, next, s[i]), Without(s, i)[j]) == Before(Without(s, i), j)
    ensures At(CutNext(prev, next, s[i]), Without(s, i)[j]) == After(Without(s, i), j)
  {
    hide CutPrev, CutNext, IsList;
    CutWords(prev, next, s, i, if j < i then j else j + 1);
  }

  lemma Cut(prev: Words, next: Words, s: seq<Ptr>, i: nat)
    requires IsList(prev, next, s) && i < |s|
    ensures IsList(CutPrev(prev, next, s[i]), CutNext(prev, next, s[i]), Without(s, i))
  {
    var r := Without(s, i);
    WithoutFacts(s, i);
    hide CutPrev, CutNext, NoDup, At, Before, After, Without;
    forall j | 0 <= j < |r|
      ensures At(CutPrev(prev, next, s[i]), r[j]) == Before(r, j) && At(CutNext(prev, next, s[i]), r[j]) == After(r, j)
    {
      CutAt(prev, next, s, i, j);
    }
  }

  // The head and tail words after a Cut.
  lemma CutEnds(prev: Words, next: Words, s: seq<Ptr>, i: nat)
    requires IsList(prev, next, s) && i < |s|
    ensures Head(Without(s, i)) == (if s[i] == Head(s) then At(next, s[i]) else Head(s))
    ensures Tail(Without(s, i)) == (if s[i] == Tail(s) then At(prev, s[i]) else Tail(s))
  {
    Neighbours(prev, next, s, i);
    assert s[0] == Head(s) && s[|s| - 1] == Tail(s);
  }

  // A Cut writes words of the list's own elements only.
  lemma CutFrame(prev: Words, next: Words, s: seq<Ptr>, i: nat)
    requires IsList(prev, next, s) && i < |s|
    ensures forall q :: At(CutPrev(prev, next, s[i]), q) != At(prev, q) ==> q in s
    ensures forall q :: At(CutNext(prev, next, s[i]), q) != At(next, q) ==> q in s
  {
    Neighbours(prev, next, s, i);
    hide IsList;
  }

  // it->prev = tail; it->next = 0; if (it->prev) it->prev->next = it
  function PushNext(next: Words, tail: Ptr, p: Ptr): Words {
    if tail == Null then next[p := Null] else next[p := Null][tail := p]
  }

  lemma PushBack(prev: Words, next: Words, s: seq<Ptr>, p: Ptr)
    requires IsList(prev, next, s) && p !in s && p != Null
    ensures IsList(prev[p := Tail(s)], PushNext(next, Tail(s), p), s + [p])
  {
    var r := s + [p];
    var prev1 := prev[p := Tail(s)];
    var next1 := PushNext(next, Tail(s), p);
    assert NoDup(r) && Null !in r;
    forall i | 0 <= i < |r| ensures At(prev1, r[i]) == Before(r, i) && At(next1, r[i]) == After(r, i) {
      if i < |s| {
        assert r[i] == s[i] && s[i] in s;
        assert At(prev, s[i]) == Before(s, i) && At(next, s[i]) == After(s, i);
        if i < |s| - 1 { assert s[i] != s[|s| - 1]; }
      }
    }
  }

  // s with its elements at positions i - 1 and i exchanged.
  function Swapped(s: seq<Ptr>, i: nat): seq<Ptr>
    requires 0 < i < |s|
  {
    s[i - 1 := s[i]][i := s[i - 1]]
  }

  // A node x swings in front of its predecessor y: y->next = x->next and x->next->prev = y, then x->next = y,
  // x->prev = y->prev, y->prev = x, and x->prev->next = x.
  function SwingPrev(prev: Words, next: Words, x: Ptr): Words {
    var y := At(prev, x);
    (if At(next, x) == Null then prev else prev[At(next, x) := y])[x := At(prev, y)][y := x]
  }

  function SwingNext(prev: Words, next: Words, x: Ptr): Words {
    var y := At(prev, x);
    var next1 := next[y := At(next, x)][x := y];
    if At(prev, y) == Null then next1 else next1[At(prev, y) := x]
  }

  lemma SwapAt(prev: Words, next: Words, s: seq<Ptr>, i: nat, j: nat)
    requires IsList(prev, next, s) && 0 < i < |s| && j < |s|
    ensures At(SwingPrev(prev, next, s[i]), Swapped(s, i)[j]) == Before(Swapped(s, i), j)
    ensures At(SwingNext(prev, next, s[i]), Swapped(s, i)[j]) == After(Swapped(s, i), j)
  {
    Neighbours(prev, next, s, i);
    Neighbours(prev, next, s, i - 1);
    assert At(prev, s[j]) == Before(s, j) && At(next, s[j]) == After(s, j);
    hide IsList;
  }

  lemma Swap(prev: Words, next: Words, s: seq<Ptr>, i: nat)
    requires IsList(prev, next, s) && 0 < i < |s|
    ensures IsList(SwingPrev(prev, next, s[i]), SwingNext(prev, next, s[i]), Swapped(s, i))
  {
    var r := Swapped(s, i);
    SwapNoDup(s, i);
    hide SwingPrev, SwingNext, NoDup, At, Before, After, Swapped;
    forall j | 0 <= j < |r|
      ensures At(SwingPrev(prev, next, s[i]), r[j]) == Before(r, j)
          && At(SwingNext(prev, next, s[i]), r[j]) == After(r, j)
    {
      SwapAt(prev, next, s, i, j);
    }
  }

  lemma SwapNoDup(s: seq<Ptr>, i: nat)
    requires NoDup(s) && 0 < i < |s|
    ensures NoDup(Swapped(s, i)) && |Swapped(s, i)| == |s| && forall p :: p in Swapped(s, i) <==> p in s
  {
    var r := Swapped(s, i);
    assert r[i] == s[i - 1] && r[i - 1] == s[i];
    assert forall j :: 0 <= j < |s| && j != i && j != i - 1 ==> r[j] == s[j];
    forall p | p in s ensures p in r {
      var j :| 0 <= j < |s| && s[j] == p;
      assert r[if j == i then i - 1 else if j == i - 1 then i else j] == p;
    }
  }

  // A swing writes words of the list's own elements only.
  lemma SwapFrame(prev: Words, next: Words, s: seq<Ptr>, i: nat)
    requires IsList(prev, next, s) && 0 < i < |s|
    ensures forall q :: At(SwingPrev(prev, next, s[i]), q) != At(prev, q) ==> q in s
    ensures forall q :: At(SwingNext(prev, next, s[i]), q) != At(next, q) ==> q in s
  {
    Neighbours(prev, next, s, i);
    Neighbours(prev, next, s, i - 1);
    hide IsList;
  }
}
