// Every step of the hash table machine keeps the table in agreement with the map the operations describe.
module AssocRuns {
  import opened Memory
  import opened AssocSpec
  import opened AssocProofs

  // ---- what a worker sees is the map ----

  // With the lock held and the bucket chosen, the bucket answers for the whole table.
  lemma ChosenIsRight(c: Config, w: World, m: map<Key, Ptr>, th: nat)
    requires Inv(c, w, m) && th in w.ops && w.ops[th].Chosen?
    ensures w.ops[th].cell == CellOf(w.t, c.h(w.ops[th].key)) && !InTransit(w.t, w.moving, c.h(w.ops[th].key))
    ensures FindAt(w.t, w.ops[th].cell, w.ops[th].key) == LookIn(m, w.ops[th].key)
  {
    hide Shape, Placed, Once, FindAt, LookIn, InTransit, CellOf;
    NotInTransit(c, w, th);
    assert OpOk(c, w.t, w.ops[th]);
    assert Lookup(w.t, w.moving, c.h(w.ops[th].key), w.ops[th].key) == LookIn(m, w.ops[th].key);
  }

  lemma InsertTable(h: HashFn, t: Table, moving: bool, m: map<Key, Ptr>, e: Entry)
    requires TableOk(h, t, moving, m) && !InTransit(t, moving, h(e.key)) && e.item != Null
    requires FindAt(t, CellOf(t, h(e.key)), e.key) == Null == LookIn(m, e.key)
    ensures TableOk(h, InsertAt(t, CellOf(t, h(e.key)), e), moving, m[e.key := e.item])
  {
    hide Shape, Placed, Once, Lookup, InTransit, Chain, CellOf, ChainAt, SetChain, Search, DiffersAt;
    var cell := CellOf(t, h(e.key));
    ChainIn(h, t, moving, cell);
    InsertDiffers(ChainAt(t, cell), e);
    EditKeeps(h, t, moving, m, e.key, [e] + ChainAt(t, cell), e.item, InsertAt(t, cell, e), m[e.key := e.item]);
  }

  lemma InsertKeeps(c: Config, w: World, m: map<Key, Ptr>, a: Step)
    requires Inv(c, w, m) && Enabled(c, w, a) && a.SInsert?
    ensures Inv(c, Apply(c, w, a), Meaning(m, a))
  {
    hide Shape, Placed, Once, Agrees, InTransit, CellOf, FindAt, InsertAt, LookIn, Exclusive, OpsOk, Mask;
    ChosenIsRight(c, w, m, a.th);
    InsertTable(c.h, w.t, w.moving, m, Entry(a.key, a.item));
    InsertSame(w.t, w.ops[a.th].cell, Entry(a.key, a.item));
    SamePlaces(c, w, InsertAt(w.t, w.ops[a.th].cell, Entry(a.key, a.item)));
  }

  lemma InsertSame(t: Table, cell: Cell, e: Entry)
    ensures var t1 := InsertAt(t, cell, e);
      t1.expanding == t.expanding && t1.cursor == t.cursor && t1.power == t.power
  {
  }

  lemma InsertDiffers(s: seq<Entry>, e: Entry)
    requires Chain(s) && e.item != Null && Search(s, e.key) == Null
    ensures DiffersAt(s, [e] + s, e.key, e.item)
  {
    ConsChain(e, s);
    forall k ensures Search([e] + s, k) == if k == e.key then e.item else Search(s, k) { ConsSearch(e, s, k); }
  }

  lemma ChainIn(h: HashFn, t: Table, moving: bool, cell: Cell)
    requires Placed(h, t, moving)
    ensures Chain(ChainAt(t, cell))
  {
  }

  // Editing chains does not change where threads have to look.
  lemma SamePlaces(c: Config, w: World, t1: Table)
    requires Exclusive(c, w) && OpsOk(c, w)
    requires t1.expanding == w.t.expanding && t1.cursor == w.t.cursor && t1.power == w.t.power
    ensures Exclusive(c, w.(t := t1)) && OpsOk(c, w.(t := t1))
  {
    forall th | th in w.ops ensures OpOk(c, t1, w.ops[th]) { assert OpOk(c, w.t, w.ops[th]); }
  }

  lemma DeleteTable(h: HashFn, t: Table, moving: bool, m: map<Key, Ptr>, key: Key)
    requires TableOk(h, t, moving, m) && !InTransit(t, moving, h(key)) && key in m
    ensures TableOk(h, DeleteAt(t, CellOf(t, h(key)), key), moving, m - {key})
  {
    hide Shape, Placed, Once, Lookup, InTransit, Chain, CellOf, ChainAt, SetChain, Search, DiffersAt, Remove;
    var cell := CellOf(t, h(key));
    ChainIn(h, t, moving, cell);
    DeleteDiffers(ChainAt(t, cell), key);
    assert (m - {key}).Keys == m.Keys - {key};
    EditKeeps(h, t, moving, m, key, Remove(ChainAt(t, cell), key), Null, DeleteAt(t, cell, key), m - {key});
  }

  lemma DeleteKeeps(c: Config, w: World, m: map<Key, Ptr>, a: Step)
    requires Inv(c, w, m) && Enabled(c, w, a) && a.SDelete?
    ensures Inv(c, Apply(c, w, a), Meaning(m, a))
  {
    hide Shape, Placed, Once, Agrees, InTransit, CellOf, FindAt, DeleteAt, Exclusive, OpsOk, Mask;
    ChosenIsRight(c, w, m, a.th);
    DeleteTable(c.h, w.t, w.moving, m, a.key);
    DeleteSame(w.t, w.ops[a.th].cell, a.key);
    SamePlaces(c, w, DeleteAt(w.t, w.ops[a.th].cell, a.key));
  }

  lemma DeleteSame(t: Table, cell: Cell, key: Key)
    ensures var t1 := DeleteAt(t, cell, key);
      t1.expanding == t.expanding && t1.cursor == t.cursor && t1.power == t.power
  {
  }

  lemma DeleteDiffers(s: seq<Entry>, key: Key)
    requires Chain(s)
    ensures DiffersAt(s, Remove(s, key), key, Null)
  {
    RemoveFacts(s, key, key);
    forall k ensures Search(Remove(s, key), k) == if k == key then Null else Search(s, k) { RemoveFacts(s, key, k); }
  }

  // ---- the maintenance thread ----

  // Before its bucket is locked, a key is nowhere but at home.
  lemma NotElsewhere(h: HashFn, t: Table, key: Key, d: Cell)
    requires Placed(h, t, false) && d != CellOf(t, h(key))
    ensures FindAt(t, d, key) == Null
  {
    hide CellOf, ChainAt, Search;
    ChainIn(h, t, false, d);
    SearchFinds(ChainAt(t, d), key);
    forall i | 0 <= i < |ChainAt(t, d)| ensures ChainAt(t, d)[i].key != key {
      assert Home(t, false, h(ChainAt(t, d)[i].key), d);
    }
  }

  lemma TryLockKeeps(c: Config, w: World, m: map<Key, Ptr>)
    requires Inv(c, w, m) && Enabled(c, w, STryLock)
    ensures Inv(c, Apply(c, w, STryLock), m)
  {
    hide Shape, Placed, FindAt, Mask, LookIn;
    var h, t := c.h, w.t;
    assert Placed(h, t, true) by { PlacedMore(h, t); }
    forall k | InTransit(t, true, h(k)) ensures FindAt(t, Primary(Mask(h(k), t.power)), k) == Null {
      NotElsewhere(h, t, k, Primary(Mask(h(k), t.power)));
    }
    forall k ensures Lookup(t, true, h(k), k) == LookIn(m, k) { assert Lookup(t, false, h(k), k) == LookIn(m, k); }
    assert OpsOk(c, w.(moving := true));
  }

  lemma PlacedMore(h: HashFn, t: Table)
    requires Placed(h, t, false)
    ensures Placed(h, t, true)
  {
    hide ChainAt, CellOf, Chain;
    forall d ensures Chain(ChainAt(t, d)) && forall e :: e in ChainAt(t, d) ==> Home(t, true, h(e.key), d) {
      forall e | e in ChainAt(t, d) ensures Home(t, true, h(e.key), d) { assert Home(t, false, h(e.key), d); }
    }
  }

  // What moving one entry does to every bucket.
  lemma MoveFind(h: HashFn, t: Table, e: Entry, d: Cell, k: Key)
    requires Shape(t) && t.expanding && t.prior[t.cursor] != [] && e == t.prior[t.cursor][0]
    ensures var t1 := MoveHead(h, t);
      && t1.power == t.power && t1.expanding && t1.cursor == t.cursor && t1.items == t.items && Shape(t1)
      && ChainAt(t1, d) == (if d == Prior(t.cursor) then ChainAt(t, d)[1..]
                            else if d == Primary(Mask(h(e.key), t.power)) then [e] + ChainAt(t, d)
                            else ChainAt(t, d))
  {
  }

  lemma HeadFacts(h: HashFn, t: Table)
    requires Shape(t) && Placed(h, t, true) && Once(h, t, true) && t.expanding && t.prior[t.cursor] != []
    ensures var e := t.prior[t.cursor][0]; var b := Primary(Mask(h(e.key), t.power));
      && InTransit(t, true, h(e.key)) && CellOf(t, h(e.key)) == Prior(t.cursor) && e.item != Null
      && Search(ChainAt(t, b), e.key) == Null && Search(ChainAt(t, Prior(t.cursor))[1..], e.key) == Null
      && FindAt(t, Prior(t.cursor), e.key) == e.item
      && Chain(ChainAt(t, Prior(t.cursor))[1..])
  {
    hide Mask;
    var s := t.prior[t.cursor];
    var e := s[0];
    assert ChainAt(t, Prior(t.cursor)) == s;
    assert e in s && Home(t, true, h(e.key), Prior(t.cursor));
    ChainIn(h, t, true, Prior(t.cursor));
    hide Placed;
    SearchFinds(s, e.key);
    SearchFinds(s[1..], e.key);
  }

  lemma MovePlaced(h: HashFn, t: Table)
    requires Shape(t) && Placed(h, t, true) && Once(h, t, true) && t.expanding && t.prior[t.cursor] != []
    ensures Placed(h, MoveHead(h, t), true)
  {
    hide Placed, Once, Mask, ChainAt, MoveHead, CellOf, Search, Chain, Home;
    var t1 := MoveHead(h, t);
    HeadFacts(h, t);
    var e := t.prior[t.cursor][0];
    forall d ensures Chain(ChainAt(t1, d)) && forall f :: f in ChainAt(t1, d) ==> Home(t1, true, h(f.key), d) {
      MoveFind(h, t, e, d, e.key);
      ChainIn(h, t, true, d);
      if d == Primary(Mask(h(e.key), t.power)) { ConsChain(e, ChainAt(t, d)); }
      forall f | f in ChainAt(t1, d) ensures Home(t1, true, h(f.key), d) { MoveHome(h, t, d, f); }
    }
    PlacedIs(h, t1, true);
  }

  lemma PlacedIs(h: HashFn, t: Table, moving: bool)
    requires forall c :: Chain(ChainAt(t, c)) && forall e :: e in ChainAt(t, c) ==> Home(t, moving, h(e.key), c)
    ensures Placed(h, t, moving)
  {
    hide Chain, ChainAt, Home;
  }

  lemma AtHome(h: HashFn, t: Table, moving: bool, d: Cell, e: Entry)
    requires Placed(h, t, moving) && e in ChainAt(t, d)
    ensures Home(t, moving, h(e.key), d)
  {
    hide ChainAt, Home, Chain;
  }

  // The moved item was in transit, and is at home in its new bucket; the others stay where they were at home.
  lemma MoveHome(h: HashFn, t: Table, d: Cell, f: Entry)
    requires Shape(t) && Placed(h, t, true) && Once(h, t, true) && t.expanding && t.prior[t.cursor] != []
    requires f in ChainAt(MoveHead(h, t), d)
    ensures Home(MoveHead(h, t), true, h(f.key), d)
  {
    hide Placed, Once, Mask, ChainAt, MoveHead, CellOf, Search, Chain;
    HeadFacts(h, t);
    var e := t.prior[t.cursor][0];
    MoveFind(h, t, e, d, e.key);
    MoveCell(h, t, h(f.key));
    if f in ChainAt(t, d) { AtHome(h, t, true, d, f); }
  }

  lemma MoveCell(h: HashFn, t: Table, hv: nat)
    requires t.cursor < |t.prior| && t.prior[t.cursor] != []
    ensures CellOf(MoveHead(h, t), hv) == CellOf(t, hv) && MoveHead(h, t).power == t.power
        && MoveHead(h, t).cursor == t.cursor
  {
  }

  // Only the answers about the moved key change, from its old bucket to its new one.
  lemma MoveAnswers(h: HashFn, t: Table, e: Entry, d: Cell, k: Key)
    requires Shape(t) && Placed(h, t, true) && Once(h, t, true) && t.expanding && t.prior[t.cursor] != []
        && e == t.prior[t.cursor][0]
    ensures FindAt(MoveHead(h, t), d, k) ==
      if k == e.key && d == Prior(t.cursor) then Null
      else if k == e.key && d == Primary(Mask(h(k), t.power)) then e.item
      else FindAt(t, d, k)
  {
    HeadFacts(h, t);
    HeadOf(t, e);
    MoveFind(h, t, e, d, k);
    hide Shape, Placed, ChainAt, MoveHead, Search, Mask, CellOf, Once;
    ConsSearch(e, ChainAt(t, d), k);
    if d == Prior(t.cursor) { TailSearch(ChainAt(t, d), k); }
  }

  lemma MoveLookup(h: HashFn, t: Table, k: Key)
    requires Shape(t) && Placed(h, t, true) && Once(h, t, true) && t.expanding && t.prior[t.cursor] != []
    ensures var t1 := MoveHead(h, t);
      && Lookup(t1, true, h(k), k) == Lookup(t, true, h(k), k)
      && (InTransit(t1, true, h(k)) ==>
            FindAt(t1, CellOf(t1, h(k)), k) == Null || FindAt(t1, Primary(Mask(h(k), t1.power)), k) == Null)
  {
    var e := t.prior[t.cursor][0];
    MoveCell(h, t, h(k));
    HeadFacts(h, t);
    MoveAnswers(h, t, e, CellOf(t, h(k)), k);
    MoveAnswers(h, t, e, Primary(Mask(h(k), t.power)), k);
    SameTransit(t, MoveHead(h, t), h(k));
    hide Shape, Placed, Once, FindAt, MoveHead, Mask, CellOf, Search, Chain, InTransit, ChainAt;
    if k == e.key {
      assert FindAt(MoveHead(h, t), CellOf(t, h(k)), k) == Null;
      assert FindAt(MoveHead(h, t), Primary(Mask(h(k), t.power)), k) == e.item;
    } else {
      assert FindAt(MoveHead(h, t), CellOf(t, h(k)), k) == FindAt(t, CellOf(t, h(k)), k);
      OnceAt(h, t, k);
    }
  }

  lemma SameTransit(t: Table, t1: Table, hv: nat)
    requires t1.power == t.power && t1.cursor == t.cursor
    ensures InTransit(t1, true, hv) == InTransit(t, true, hv)
  {
  }

  lemma OnceAt(h: HashFn, t: Table, k: Key)
    requires Once(h, t, true) && t.expanding
    ensures InTransit(t, true, h(k)) ==>
      FindAt(t, CellOf(t, h(k)), k) == Null || FindAt(t, Primary(Mask(h(k), t.power)), k) == Null
  {
  }

  lemma HeadOf(t: Table, e: Entry)
    requires t.cursor < |t.prior| && t.prior[t.cursor] != [] && e == t.prior[t.cursor][0]
    ensures ChainAt(t, Prior(t.cursor)) != [] && ChainAt(t, Prior(t.cursor))[0] == e
  {
  }

  lemma TailSearch(s: seq<Entry>, k: Key)
    requires s != []
    ensures k != s[0].key ==> Search(s[1..], k) == Search(s, k)
  {
  }

  lemma MoveKeeps(c: Config, w: World, m: map<Key, Ptr>)
    requires Inv(c, w, m) && Enabled(c, w, SMoveHead)
    ensures Inv(c, Apply(c, w, SMoveHead), m)
  {
    hide Placed, Lookup, InTransit, CellOf, MoveHead, LookIn, FindAt;
    var t := w.t;
    var t1 := MoveHead(c.h, t);
    MovePlaced(c.h, t);
    MoveFind(c.h, t, t.prior[t.cursor][0], Prior(0), "");
    hide Shape;
    forall k ensures Lookup(t1, true, c.h(k), k) == LookIn(m, k) { MoveLookup(c.h, t, k); }
    forall k | InTransit(t1, true, c.h(k)) && t1.expanding
      ensures FindAt(t1, CellOf(t1, c.h(k)), k) == Null || FindAt(t1, Primary(Mask(c.h(k), t1.power)), k) == Null
    {
      MoveLookup(c.h, t, k);
    }
    SamePlaces(c, w, t1);
  }

  // ---- the bucket is done ----

  lemma NextCell(t: Table, hv: nat)
    requires Shape(t) && t.expanding
    ensures CellOf(NextBucket(t), hv) == if InTransit(t, true, hv) then Primary(Mask(hv, t.power)) else CellOf(t, hv)
    ensures InTransit(t, true, hv) ==> CellOf(t, hv) == Prior(t.cursor)
    ensures Shape(NextBucket(t)) && NextBucket(t).power == t.power && NextBucket(t).items == t.items
  {
    hide Mask;
  }

  lemma NextChain(t: Table, d: Cell)
    requires Shape(t) && t.expanding
    ensures ChainAt(NextBucket(t), d) == ChainAt(t, d)
        || (d.Prior? && !NextBucket(t).expanding && ChainAt(NextBucket(t), d) == [])
  {
  }

  lemma NextPlaced(h: HashFn, t: Table)
    requires Shape(t) && Placed(h, t, true) && t.expanding && t.prior[t.cursor] == []
    ensures Placed(h, NextBucket(t), false)
  {
    var t1 := NextBucket(t);
    hide Shape, NextBucket, ChainAt, CellOf, Mask;
    forall d ensures Chain(ChainAt(t1, d)) && forall e :: e in ChainAt(t1, d) ==> Home(t1, false, h(e.key), d) {
      NextChain(t, d);
      ChainIn(h, t, true, d);
      forall e | e in ChainAt(t1, d) ensures Home(t1, false, h(e.key), d) {
        assert Home(t, true, h(e.key), d);
        NextCell(t, h(e.key));
        NoneLeft(t);
      }
    }
  }

  lemma NoneLeft(t: Table)
    requires BucketIn(t.prior, t.cursor) == []
    ensures ChainAt(t, Prior(t.cursor)) == []
  {
  }

  lemma NextLookup(h: HashFn, t: Table, k: Key)
    requires Shape(t) && t.expanding && t.prior[t.cursor] == []
    ensures Lookup(NextBucket(t), false, h(k), k) == Lookup(t, true, h(k), k)
  {
    hide NextBucket, Mask, CellOf;
    NextCell(t, h(k));
    NoneLeft(t);
    NextChain(t, CellOf(NextBucket(t), h(k)));
    hide ChainAt, Shape;
    if CellOf(NextBucket(t), h(k)).Prior? { PriorWhileExpanding(NextBucket(t), h(k)); }
  }

  lemma PriorWhileExpanding(t: Table, hv: nat)
    requires CellOf(t, hv).Prior?
    ensures t.expanding
  {
  }

  lemma NextOps(c: Config, w: World)
    requires Shape(w.t) && w.t.expanding && w.moving && c.lockPower < w.t.power && Exclusive(c, w) && OpsOk(c, w)
    ensures OpsOk(c, w.(t := NextBucket(w.t), moving := false))
  {
    hide Shape, InTransit;
    forall th | th in w.ops ensures OpOk(c, NextBucket(w.t), w.ops[th]) {
      assert OpOk(c, w.t, w.ops[th]);
      NotInTransit(c, w, th);
      hide OpsOk, Exclusive;
      NextOp(c, w.t, w.ops[th]);
    }
  }

  // A thread that has read `expanding` as true just before the last bucket was emptied still finds its way, since
  // expand_bucket keeps its final value.
  lemma NextOp(c: Config, t: Table, op: Op)
    requires Shape(t) && t.expanding && OpOk(c, t, op) && !InTransit(t, true, c.h(op.key))
    ensures OpOk(c, NextBucket(t), op)
  {
    hide Mask;
    NextCell(t, c.h(op.key));
  }

  lemma NextKeeps(c: Config, w: World, m: map<Key, Ptr>)
    requires Inv(c, w, m) && Enabled(c, w, SNextBucket)
    ensures Inv(c, Apply(c, w, SNextBucket), m)
  {
    hide Placed, Lookup, CellOf, OpsOk, LookIn, Mask, FindAt;
    NextPlaced(c.h, w.t);
    NextCell(w.t, 0);
    hide NextBucket;
    forall k ensures Lookup(NextBucket(w.t), false, c.h(k), k) == LookIn(m, k) { NextLookup(c.h, w.t, k); }
    NextOps(c, w);
  }

  // ---- the switch to a bigger table ----

  lemma ExpandChain(t: Table, d: Cell)
    requires Shape(t) && !t.expanding
    ensures ChainAt(Expand(t), d) == if d.Prior? then ChainAt(t, Primary(d.b)) else []
  {
  }

  lemma ExpandCell(t: Table, hv: nat)
    ensures CellOf(Expand(t), hv) == Prior(Mask(hv, t.power))
        && (!t.expanding ==> CellOf(t, hv) == Primary(Mask(hv, t.power)))
  {
    hide Mask;
  }

  lemma ExpandShape(t: Table)
    requires Shape(t) && !t.expanding
    ensures Shape(Expand(t))
  {
    hide Mask;
  }

  lemma ExpandPlaced(h: HashFn, t: Table)
    requires Shape(t) && Placed(h, t, false) && !t.expanding
    ensures Placed(h, Expand(t), false) && Shape(Expand(t))
  {
    hide Mask, ChainAt, CellOf, Chain, Shape;
    ExpandShape(t);
    var t1 := Expand(t);
    hide Expand;
    forall d ensures Chain(ChainAt(t1, d)) && forall e :: e in ChainAt(t1, d) ==> Home(t1, false, h(e.key), d) {
      ExpandChain(t, d);
      if d.Prior? {
        ChainIn(h, t, false, Primary(d.b));
        forall e | e in ChainAt(t1, d) ensures Home(t1, false, h(e.key), d) {
          HomeIn(h, t, Primary(d.b), e);
          ExpandCell(t, h(e.key));
        }
      } else {
        EmptyChain();
      }
    }
  }

  lemma EmptyChain()
    ensures Chain([])
  {
  }

  lemma HomeIn(h: HashFn, t: Table, d: Cell, e: Entry)
    requires Placed(h, t, false) && e in ChainAt(t, d)
    ensures d == CellOf(t, h(e.key))
  {
    assert Home(t, false, h(e.key), d);
  }

  lemma ExpandKeeps(c: Config, w: World, m: map<Key, Ptr>)
    requires Inv(c, w, m) && Enabled(c, w, SExpand)
    ensures Inv(c, Apply(c, w, SExpand), m)
  {
    hide Placed, Mask, Shape, CellOf, ChainAt, LookIn;
    ExpandPlaced(c.h, w.t);
    var t1 := Expand(w.t);
    forall k ensures Lookup(t1, false, c.h(k), k) == LookIn(m, k) {
      assert Lookup(w.t, false, c.h(k), k) == LookIn(m, k);
      ExpandCell(w.t, c.h(k));
      ExpandChain(w.t, CellOf(t1, c.h(k)));
    }
  }

  // ---- steps that leave the table alone ----

  lemma LockKeeps(c: Config, w: World, m: map<Key, Ptr>, a: Step)
    requires Inv(c, w, m) && Enabled(c, w, a) && (a.SLock? || a.SReadFlag? || a.SReadCursor? || a.SFind? || a.SUnlock?)
    ensures Inv(c, Apply(c, w, a), m)
  {
    hide Shape, Placed, Once, Agrees, Mask;
    var w1 := Apply(c, w, a);
    forall th | th in w1.ops ensures OpOk(c, w1.t, w1.ops[th]) {
      if th in w.ops { assert OpOk(c, w.t, w.ops[th]); }
    }
  }

  lemma StepKeeps(c: Config, w: World, m: map<Key, Ptr>, a: Step)
    requires Inv(c, w, m) && Enabled(c, w, a)
    ensures Inv(c, Apply(c, w, a), Meaning(m, a))
  {
    hide Inv, Apply, Enabled;
    match a {
      case SInsert(_, _, _) => InsertKeeps(c, w, m, a);
      case SDelete(_, _) => DeleteKeeps(c, w, m, a);
      case STryLock => TryLockKeeps(c, w, m);
      case SMoveHead => MoveKeeps(c, w, m);
      case SNextBucket => NextKeeps(c, w, m);
      case SExpand => ExpandKeeps(c, w, m);
      case _ => LockKeeps(c, w, m, a);
    }
  }

  lemma InitialInv(c: Config)
    requires c.lockPower < c.power
    ensures Inv(c, World(Init(c.power), map[], false), map[])
  {
    hide Mask;
    var t := Init(c.power);
    assert forall d :: ChainAt(t, d) == [];
  }

  // ---- whole runs ----

  lemma {:induction false} RunInv(c: Config, run: seq<World>, steps: seq<Step>, n: nat)
    requires IsRun(c, run, steps) && n < |run|
    ensures Inv(c, run[n], MeaningOf(steps[..n]))
  {
    hide Inv, Apply, Enabled, Meaning;
    if n == 0 {
      InitialInv(c);
    } else {
      RunInv(c, run, steps, n - 1);
      StepKeeps(c, run[n - 1], MeaningOf(steps[..n - 1]), steps[n - 1]);
      assert steps[..n][..n - 1] == steps[..n - 1];
    }
  }

  // Under every interleaving of finds, inserts, deletes, bucket migration and growth, a find answers what the
  // operations so far say, hash_items is the number of keys and hash_bytes counts exactly the live tables.
  lemma TableIsOneMap(c: Config, run: seq<World>, steps: seq<Step>, n: nat)
    requires IsRun(c, run, steps) && n < |run|
    ensures var m := MeaningOf(steps[..n]);
      && (n < |steps| && steps[n].SFind? ==> steps[n].answer == LookIn(m, steps[n].key))
      && run[n].t.power > 0 && run[n].t.items == |m|
      && run[n].t.bytes == WORD * (Size(run[n].t.power) + (if run[n].t.expanding then Size(run[n].t.power - 1) else 0))
  {
    hide Placed, Once, Exclusive, OpsOk, Apply, LookIn, MeaningOf;
    RunInv(c, run, steps, n);
    if n < |steps| && steps[n].SFind? {
      ChosenIsRight(c, run[n], MeaningOf(steps[..n]), steps[n].th);
    }
  }

  // Two threads that have chosen buckets, or a thread and the maintenance thread, are never in the same bucket, old
  // or new: the chain each of them walks or rewrites is its own.
  lemma BucketsAreNotShared(c: Config, run: seq<World>, steps: seq<Step>, n: nat, a: nat, b: nat)
    requires IsRun(c, run, steps) && n < |run|
    requires a in run[n].ops && b in run[n].ops && a != b
    ensures var t := run[n].t; var j, k := c.h(run[n].ops[a].key), c.h(run[n].ops[b].key);
      && t.power > 0 && Mask(j, t.power - 1) != Mask(k, t.power - 1) && Mask(j, t.power) != Mask(k, t.power)
      && (run[n].moving ==> Mask(j, t.power - 1) != t.cursor)
  {
    hide Placed, Once, Agrees, Shape, OpsOk, Apply, Enabled, Mask;
    RunInv(c, run, steps, n);
    var t := run[n].t;
    var j, k := c.h(run[n].ops[a].key), c.h(run[n].ops[b].key);
    if Mask(j, t.power - 1) == Mask(k, t.power - 1) || Mask(j, t.power) == Mask(k, t.power) {
      OneStripePerBucket(c, t, j, k);
    }
    NotInTransit(c, run[n], a);
  }
}
