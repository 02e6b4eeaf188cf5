// The hash table as assoc.c keeps it: two arrays of chain heads and one h_next word in every item.
module AssocTable {
  import opened Memory
  import opened AssocSpec
  import opened DList

  type Keys = map<Ptr, Key>

  function KeyAt(keys: Keys, p: Ptr): Key { if p in keys then keys[p] else "" }

  // The h_next words string the entries of s together from head on.
  ghost predicate Strung(next: Words, keys: Keys, head: Ptr, s: seq<Entry>)
    decreases |s|
  {
    if s == [] then head == Null
    else head != Null && s[0] == Entry(KeyAt(keys, head), head) && Strung(next, keys, At(next, head), s[1..])
  }

  ghost predicate AllStrung(next: Words, keys: Keys, heads: seq<Ptr>, chains: seq<seq<Entry>>) {
    |heads| == |chains| && forall b :: 0 <= b < |heads| ==> Strung(next, keys, heads[b], chains[b])
  }

  ghost predicate Has(s: seq<Entry>, p: Ptr) { exists i :: 0 <= i < |s| && s[i].item == p }

  // No item is in two chains, or twice in one.
  ghost predicate Apart(t: Table) {
    && (forall c, i, j :: 0 <= i < j < |ChainAt(t, c)| ==> ChainAt(t, c)[i].item != ChainAt(t, c)[j].item)
    && forall c, d, p :: Has(ChainAt(t, c), p) && Has(ChainAt(t, d), p) ==> c == d
  }

  ghost predicate Good(next: Words, keys: Keys, heads: seq<Ptr>, oldHeads: seq<Ptr>, t: Table) {
    AllStrung(next, keys, heads, t.primary) && AllStrung(next, keys, oldHeads, t.prior) && Apart(t)
  }

  function HeadAt(heads: seq<Ptr>, oldHeads: seq<Ptr>, c: Cell): Ptr {
    match c
    case Prior(b) => if b < |oldHeads| then oldHeads[b] else Null
    case Primary(b) => if b < |heads| then heads[b] else Null
  }

  lemma {:induction false} StrungFrame(next: Words, next1: Words, keys: Keys, head: Ptr, s: seq<Entry>)
    requires Strung(next, keys, head, s)
    requires forall p :: Has(s, p) ==> At(next1, p) == At(next, p)
    ensures Strung(next1, keys, head, s)
    decreases |s|
  {
    if s != [] {
      assert s[0].item == head && Has(s, head);
      forall p | Has(s[1..], p) ensures Has(s, p) {
        var i :| 0 <= i < |s[1..]| && s[1..][i].item == p;
        assert s[i + 1].item == p;
      }
      StrungFrame(next, next1, keys, At(next, head), s[1..]);
    }
  }

  lemma HasCons(e: Entry, s: seq<Entry>, p: Ptr)
    ensures Has([e] + s, p) <==> p == e.item || Has(s, p)
  {
    var r := [e] + s;
    assert r[0] == e;
    if Has(r, p) && p != e.item {
      var i :| 0 <= i < |r| && r[i].item == p;
      assert s[i - 1].item == p;
    }
    if Has(s, p) {
      var i :| 0 <= i < |s| && s[i].item == p;
      assert r[i + 1].item == p;
    }
  }

  ghost predicate NoTwins(s: seq<Entry>) { forall i, j :: 0 <= i < j < |s| ==> s[i].item != s[j].item }

  lemma TailHas(s: seq<Entry>, p: Ptr)
    requires NoTwins(s) && s != []
    ensures Has(s[1..], p) <==> Has(s, p) && p != s[0].item
    ensures NoTwins(s[1..])
  {
    HasCons(s[0], s[1..], p);
    assert [s[0]] + s[1..] == s;
  }

  // ---- find ----

  lemma StrungAt(next: Words, keys: Keys, heads: seq<Ptr>, oldHeads: seq<Ptr>, t: Table, c: Cell)
    requires Good(next, keys, heads, oldHeads, t)
    ensures Strung(next, keys, HeadAt(heads, oldHeads, c), ChainAt(t, c)) && NoTwins(ChainAt(t, c))
    ensures forall d, p :: Has(ChainAt(t, c), p) && Has(ChainAt(t, d), p) ==> d == c
  {
  }

  // ---- rewriting one chain ----

  function SetHead(heads: seq<Ptr>, b: nat, p: Ptr): seq<Ptr> { if b < |heads| then heads[b := p] else heads }

  // Chains other than c keep their strings when only words of c's items, or of an item in no chain, are written.
  lemma Rewrite(next: Words, next1: Words, keys: Keys, heads: seq<Ptr>, oldHeads: seq<Ptr>, t: Table, c: Cell,
                head: Ptr, r: seq<Entry>, t1: Table)
    requires Good(next, keys, heads, oldHeads, t)
    requires t1.primary == SetChain(t, c, r).primary && t1.prior == SetChain(t, c, r).prior
    requires Strung(next1, keys, head, r) && NoTwins(r)
    requires forall d, p :: d != c && Has(ChainAt(t, d), p) ==> At(next1, p) == At(next, p) && !Has(r, p)
    ensures Good(next1, keys, if c.Primary? then SetHead(heads, c.b, head) else heads,
                 if c.Prior? then SetHead(oldHeads, c.b, head) else oldHeads, t1)
  {
    hide Strung, Has, Apart;
    forall b, p | 0 <= b < |heads| && c != Primary(b) && Has(t.primary[b], p) ensures At(next1, p) == At(next, p) {
      assert ChainAt(t, Primary(b)) == t.primary[b];
    }
    forall b, p | 0 <= b < |oldHeads| && c != Prior(b) && Has(t.prior[b], p) ensures At(next1, p) == At(next, p) {
      assert ChainAt(t, Prior(b)) == t.prior[b];
    }
    RewriteList(next, next1, keys, heads, t.primary, c.Primary?, c.b, head, r);
    RewriteList(next, next1, keys, oldHeads, t.prior, c.Prior?, c.b, head, r);
    RewriteApart(t, c, r, t1);
  }

  lemma RewriteList(next: Words, next1: Words, keys: Keys, heads: seq<Ptr>, chains: seq<seq<Entry>>, hit: bool, b: nat,
                    head: Ptr, r: seq<Entry>)
    requires AllStrung(next, keys, heads, chains) && (hit ==> Strung(next1, keys, head, r))
    requires forall i, p :: 0 <= i < |heads| && !(hit && i == b) && Has(chains[i], p) ==> At(next1, p) == At(next, p)
    ensures AllStrung(next1, keys, if hit then SetHead(heads, b, head) else heads,
                      if hit then SetBucket(chains, b, r) else chains)
  {
    hide Strung, Has;
    forall i | 0 <= i < |heads| && !(hit && i == b) ensures Strung(next1, keys, heads[i], chains[i]) {
      StrungFrame(next, next1, keys, heads[i], chains[i]);
    }
  }

  lemma RewriteApart(t: Table, c: Cell, r: seq<Entry>, t1: Table)
    requires Apart(t) && NoTwins(r)
    requires t1.primary == SetChain(t, c, r).primary && t1.prior == SetChain(t, c, r).prior
    requires forall d, p :: d != c && Has(ChainAt(t, d), p) ==> !Has(r, p)
    ensures Apart(t1)
  {
    hide Has;
    assert forall d :: ChainAt(t1, d) == ChainAt(t, d) || (d == c && ChainAt(t1, d) == r);
  }

  // ---- insert ----

  lemma InsertGood(next: Words, keys: Keys, heads: seq<Ptr>, oldHeads: seq<Ptr>, t: Table, c: Cell, p: Ptr)
    requires Good(next, keys, heads, oldHeads, t) && p != Null && forall d :: !Has(ChainAt(t, d), p)
    ensures Good(next[p := HeadAt(heads, oldHeads, c)], keys, if c.Primary? then SetHead(heads, c.b, p) else heads,
                 if c.Prior? then SetHead(oldHeads, c.b, p) else oldHeads, InsertAt(t, c, Entry(KeyAt(keys, p), p)))
  {
    hide Good, ChainAt, SetChain, Has;
    var s, head := ChainAt(t, c), HeadAt(heads, oldHeads, c);
    var e := Entry(KeyAt(keys, p), p);
    var next1 := next[p := head];
    StrungAt(next, keys, heads, oldHeads, t, c);
    StrungFrame(next, next1, keys, head, s);
    assert ([e] + s)[1..] == s;
    PushTwins(e, s);
    forall q { HasCons(e, s, q); }
    Rewrite(next, next1, keys, heads, oldHeads, t, c, p, [e] + s, InsertAt(t, c, e));
  }

  // Of all buckets only this one has changed, and it holds r.
  ghost predicate BucketBecomes(t: Table, t1: Table, c: Cell, r: seq<Entry>) {
    ChainAt(t1, c) == r && forall d :: d != c ==> ChainAt(t1, d) == ChainAt(t, d)
  }

  // The item of the key has been cut out of the chain, and was the first with the key.
  ghost predicate CutFrom(s: seq<Entry>, r: seq<Entry>, key: Key) {
    exists i: nat :: i < |s| && s[i].key == key && (forall j: nat :: j < i ==> s[j].key != key)
      && r == s[..i] + s[i + 1..]
  }

  predicate InTable(t: Table, c: Cell) { match c case Prior(b) => b < |t.prior| case Primary(b) => b < |t.primary| }

  lemma InsertMeans(t: Table, c: Cell, e: Entry)
    requires InTable(t, c)
    ensures BucketBecomes(t, InsertAt(t, c, e), c, [e] + ChainAt(t, c))
  {
  }

  lemma ConsCut(e: Entry, s: seq<Entry>, n: nat, key: Key)
    requires n < |s| && s[n].key == key != e.key && forall j: nat :: j < n ==> s[j].key != key
    ensures CutFrom([e] + s, [e] + (s[..n] + s[n + 1..]), key)
  {
    var t := [e] + s;
    assert forall j: nat :: 0 < j < n + 1 ==> t[j] == s[j - 1];
    assert t[..n + 1] == [e] + s[..n] && t[n + 1 + 1..] == s[n + 1..];
  }

  lemma {:induction false} RemoveCuts(s: seq<Entry>, key: Key)
    requires Search(s, key) != Null
    ensures CutFrom(s, Remove(s, key), key)
  {
    if s[0].key == key {
      assert s[1..] == s[..0] + s[0 + 1..];
    } else {
      RemoveCuts(s[1..], key);
      ConsCutOnce(s[0], s[1..], Remove(s[1..], key), key);
      assert [s[0]] + s[1..] == s;
    }
  }

  lemma ConsCutOnce(e: Entry, s: seq<Entry>, r: seq<Entry>, key: Key)
    requires CutFrom(s, r, key) && e.key != key
    ensures CutFrom([e] + s, [e] + r, key)
  {
    var n: nat :| n < |s| && s[n].key == key && (forall j: nat :: j < n ==> s[j].key != key)
      && r == s[..n] + s[n + 1..];
    ConsCut(e, s, n, key);
  }

  lemma DeleteMeans(t: Table, c: Cell, key: Key)
    requires InTable(t, c) && FindAt(t, c, key) != Null
    ensures var t1 := DeleteAt(t, c, key);
      CutFrom(ChainAt(t, c), ChainAt(t1, c), key) && BucketBecomes(t, t1, c, ChainAt(t1, c))
  {
    hide CutFrom, Remove;
    RemoveCuts(ChainAt(t, c), key);
  }

  lemma PushTwins(e: Entry, s: seq<Entry>)
    requires NoTwins(s) && !Has(s, e.item)
    ensures NoTwins([e] + s)
  {
  }

  // ---- delete ----

  // The walk of _hashitem_before: the item whose h_next is the slot (or prev for the slot before s) and *pos.
  function Walk(s: seq<Entry>, key: Key, prev: Ptr): (Ptr, Ptr) {
    if s == [] then (prev, Null)
    else if s[0].key == key then (prev, s[0].item)
    else Walk(s[1..], key, s[0].item)
  }

  // nxt = (*before)->h_next; (*before)->h_next = 0; *before = nxt, for a slot inside an item
  function Bypass(next: Words, before: Ptr, p: Ptr): Words {
    if before == Null then next[p := Null] else next[p := Null][before := At(next, p)]
  }

  lemma {:induction false} WalkFinds(s: seq<Entry>, key: Key, prev: Ptr)
    ensures Walk(s, key, prev).1 == Search(s, key)
    ensures Walk(s, key, prev).0 == prev || Has(s, Walk(s, key, prev).0)
    ensures Walk(s, key, prev).1 == Null || Has(s, Walk(s, key, prev).1)
  {
    if s != [] {
      if s[0].key != key { WalkFinds(s[1..], key, s[0].item); }
      forall p { HasCons(s[0], s[1..], p); }
      assert s == [s[0]] + s[1..];
    }
  }

  lemma {:induction false} RemoveHas(s: seq<Entry>, key: Key)
    requires NoTwins(s)
    ensures NoTwins(Remove(s, key)) && forall p :: Has(Remove(s, key), p) ==> Has(s, p)
  {
    if s != [] {
      forall p { TailHas(s, p); }
      if s[0].key != key {
        RemoveHas(s[1..], key);
        PushTwins(s[0], Remove(s[1..], key));
        forall p { HasCons(s[0], Remove(s[1..], key), p); }
      }
    }
  }

  lemma {:induction false} Bypassed(next: Words, keys: Keys, head: Ptr, s: seq<Entry>, key: Key, prev: Ptr)
    requires Strung(next, keys, head, s) && NoTwins(s) && !Has(s, prev) && Search(s, key) != Null
    ensures var (before, p) := Walk(s, key, prev);
      if before == prev then head == p && Strung(Bypass(next, before, p), keys, At(next, p), Remove(s, key))
      else Strung(Bypass(next, before, p), keys, head, Remove(s, key))
    decreases |s|
  {
    hide Bypass, Has;
    var (before, p) := Walk(s, key, prev);
    TailHas(s, head);
    TailHas(s, prev);
    WalkFinds(s, key, prev);
    if s[0].key == key {
      StrungBypass(next, keys, At(next, head), s[1..], before, p);
    } else {
      var tail := s[1..];
      WalkFinds(tail, key, head);
      HasCons(s[0], tail, prev);
      HasCons(s[0], tail, before);
      assert [s[0]] + tail == s;
      Bypassed(next, keys, At(next, head), tail, key, head);
      TailHas(s, before);
      BypassWord(next, before, p, head);
      assert ([s[0]] + Remove(tail, key))[1..] == Remove(tail, key);
    }
  }

  lemma BypassWord(next: Words, before: Ptr, p: Ptr, q: Ptr)
    requires p != Null
    ensures At(Bypass(next, before, p), q) ==
      if q == before && q != Null then At(next, p) else if q == p then Null else At(next, q)
  {
  }

  lemma StrungBypass(next: Words, keys: Keys, head: Ptr, s: seq<Entry>, before: Ptr, p: Ptr)
    requires Strung(next, keys, head, s) && !Has(s, before) && !Has(s, p)
    ensures Strung(Bypass(next, before, p), keys, head, s)
  {
    StrungFrame(next, Bypass(next, before, p), keys, head, s);
  }

  lemma DeleteGood(next: Words, keys: Keys, heads: seq<Ptr>, oldHeads: seq<Ptr>, t: Table, c: Cell, key: Key)
    requires Good(next, keys, heads, oldHeads, t) && Search(ChainAt(t, c), key) != Null
    ensures var (before, p) := Walk(ChainAt(t, c), key, Null);
      var head := if before == Null then At(next, p) else HeadAt(heads, oldHeads, c);
      && p != Null
      && Good(Bypass(next, before, p), keys, if c.Primary? then SetHead(heads, c.b, head) else heads,
              if c.Prior? then SetHead(oldHeads, c.b, head) else oldHeads, DeleteAt(t, c, key))
  {
    hide Good, ChainAt, SetChain, Has, Bypass, Walk, Search, Remove;
    var s := ChainAt(t, c);
    var (before, p) := Walk(s, key, Null);
    StrungAt(next, keys, heads, oldHeads, t, c);
    StrungNoNull(next, keys, HeadAt(heads, oldHeads, c), s);
    Bypassed(next, keys, HeadAt(heads, oldHeads, c), s, key, Null);
    WalkFinds(s, key, Null);
    RemoveHas(s, key);
    forall d, q | d != c && Has(ChainAt(t, d), q)
      ensures At(Bypass(next, before, p), q) == At(next, q) && !Has(Remove(s, key), q)
    {
      BypassWord(next, before, p, q);
    }
    Rewrite(next, Bypass(next, before, p), keys, heads, oldHeads, t, c,
            if before == Null then At(next, p) else HeadAt(heads, oldHeads, c), Remove(s, key), DeleteAt(t, c, key));
  }

  lemma {:induction false} StrungNoNull(next: Words, keys: Keys, head: Ptr, s: seq<Entry>)
    requires Strung(next, keys, head, s)
    ensures !Has(s, Null)
    decreases |s|
  {
    if s != [] {
      StrungNoNull(next, keys, At(next, head), s[1..]);
      HasCons(s[0], s[1..], Null);
      assert [s[0]] + s[1..] == s;
    }
  }

  // ---- migration ----

  lemma PopGood(next: Words, keys: Keys, heads: seq<Ptr>, oldHeads: seq<Ptr>, t: Table, c: Cell)
    requires Good(next, keys, heads, oldHeads, t) && c.Prior? && c.b < |oldHeads| && oldHeads[c.b] != Null
    ensures var s := ChainAt(t, c); var p := oldHeads[c.b];
      && s != [] && s[0] == Entry(KeyAt(keys, p), p)
      && Good(next, keys, heads, oldHeads[c.b := At(next, p)], SetChain(t, c, s[1..]))
      && forall d :: !Has(ChainAt(SetChain(t, c, s[1..]), d), p)
  {
    hide Good, Has;
    var s := ChainAt(t, c);
    StrungAt(next, keys, heads, oldHeads, t, c);
    hide ChainAt, SetChain;
    forall p { TailHas(s, p); }
    HasCons(s[0], s[1..], s[0].item);
    assert [s[0]] + s[1..] == s;
    Rewrite(next, next, keys, heads, oldHeads, t, c, At(next, oldHeads[c.b]), s[1..], SetChain(t, c, s[1..]));
    forall d ensures !Has(ChainAt(SetChain(t, c, s[1..]), d), s[0].item) {
      PopChain(t, c, s[1..], d);
    }
  }

  lemma PopChain(t: Table, c: Cell, r: seq<Entry>, d: Cell)
    ensures ChainAt(SetChain(t, c, r), d) == ChainAt(t, d) || (d == c && ChainAt(SetChain(t, c, r), d) == r)
  {
  }

  lemma GoodSame(next: Words, keys: Keys, heads: seq<Ptr>, oldHeads: seq<Ptr>, t: Table, t1: Table)
    requires Good(next, keys, heads, oldHeads, t) && t1.primary == t.primary && t1.prior == t.prior
    ensures Good(next, keys, heads, oldHeads, t1)
  {
    hide Strung, Has;
    assert forall c :: ChainAt(t1, c) == ChainAt(t, c);
  }

  lemma MoveGood(h: HashFn, next: Words, keys: Keys, heads: seq<Ptr>, oldHeads: seq<Ptr>, t: Table, b: nat)
    requires Good(next, keys, heads, oldHeads, t) && t.cursor < |oldHeads| && oldHeads[t.cursor] != Null
    requires b < |heads| && b == Mask(h(KeyAt(keys, oldHeads[t.cursor])), t.power)
    ensures t.cursor < |t.prior| && t.prior[t.cursor] != []
    ensures var p := oldHeads[t.cursor];
      Good(next[p := heads[b]], keys, heads[b := p], oldHeads[t.cursor := At(next, p)], MoveHead(h, t))
  {
    hide Strung, Has, Apart, Mask;
    var p := oldHeads[t.cursor];
    var c := Prior(t.cursor);
    PopGood(next, keys, heads, oldHeads, t, c);
    var t1 := SetChain(t, c, ChainAt(t, c)[1..]);
    InsertGood(next, keys, heads, oldHeads[t.cursor := At(next, p)], t1, Primary(b), p);
    GoodSame(next[p := heads[b]], keys, heads[b := p], oldHeads[t.cursor := At(next, p)],
             InsertAt(t1, Primary(b), Entry(KeyAt(keys, p), p)), MoveHead(h, t));
  }

  // assoc_expand keeps the chains, as the chains of the old table.
  lemma ExpandGood(next: Words, keys: Keys, heads: seq<Ptr>, t: Table, zeros: seq<Ptr>)
    requires Good(next, keys, heads, [], t)
    requires |zeros| == Size(t.power + 1) && forall b :: 0 <= b < |zeros| ==> zeros[b] == Null
    ensures Good(next, keys, zeros, heads, Expand(t))
  {
    NothingInEmpty();
    hide Has;
    assert forall c :: ChainAt(Expand(t), c) == if c.Prior? then ChainAt(t, Primary(c.b)) else [];
  }

  lemma NothingInEmpty()
    ensures forall p :: !Has([], p)
  {
  }

  lemma InitGood(zeros: seq<Ptr>, t: Table)
    requires |zeros| == |t.primary| && t.prior == []
    requires forall b :: 0 <= b < |zeros| ==> zeros[b] == Null && t.primary[b] == []
    ensures forall next, keys :: Good(next, keys, zeros, [], t)
  {
    NothingInEmpty();
    hide Has;
    assert forall c :: ChainAt(t, c) == [];
  }

  lemma MigrateEnds(h: HashFn, t: Table)
    requires t.power > 0 && t.cursor < |t.prior| && t.prior[t.cursor] == []
    ensures Migrate(h, t) == NextBucket(t)
  {
  }

  lemma MigrateOn(h: HashFn, t: Table)
    requires t.power > 0 && t.cursor < |t.prior| && t.prior[t.cursor] != []
    ensures t.cursor < |MoveHead(h, t).prior| && MoveHead(h, t).power > 0 && MoveHead(h, t).cursor == t.cursor
    ensures Migrate(h, t) == Migrate(h, MoveHead(h, t))
  {
    hide Mask;
  }

  lemma MoveSame(h: HashFn, t: Table)
    requires t.cursor < |t.prior| && t.prior[t.cursor] != []
    ensures var t1 := MoveHead(h, t);
      && t1 == t.(primary := t1.primary, prior := t1.prior) && |t1.prior| == |t.prior|
      && |t1.prior[t.cursor]| < |t.prior[t.cursor]|
  {
    hide Mask;
  }

  lemma SetSame(heads: seq<Ptr>, oldHeads: seq<Ptr>, c: Cell)
    ensures c.Primary? ==> SetHead(heads, c.b, HeadAt(heads, oldHeads, c)) == heads
    ensures c.Prior? ==> SetHead(oldHeads, c.b, HeadAt(heads, oldHeads, c)) == oldHeads
  {
  }

  lemma EmptyBucket(next: Words, keys: Keys, heads: seq<Ptr>, oldHeads: seq<Ptr>, t: Table, b: nat)
    requires Good(next, keys, heads, oldHeads, t) && b < |oldHeads|
    ensures b < |t.prior| && (oldHeads[b] == Null <==> t.prior[b] == [])
  {
    assert Strung(next, keys, oldHeads[b], t.prior[b]);
  }

  lemma NextGood(next: Words, keys: Keys, heads: seq<Ptr>, oldHeads: seq<Ptr>, t: Table)
    requires Good(next, keys, heads, oldHeads, t) && t.power > 0
    ensures Good(next, keys, heads, if t.cursor + 1 == Size(t.power - 1) then [] else oldHeads, NextBucket(t))
  {
    NothingInEmpty();
    hide Has, Strung;
    assert forall c :: ChainAt(NextBucket(t), c) == ChainAt(t, c) || ChainAt(NextBucket(t), c) == [];
  }

  // ---- the module's state ----

  class Assoc {
    const h: HashFn
    var hashpower: nat
    var expanding: bool
    var primaryTable: array<Ptr>
    var oldTable: array<Ptr>          // of length 0 when it has been freed
    var expandBucket: nat
    var hNext: Words
    var keys: Keys                    // ITEM_key of the items
    var hashItems: int
    var hashBytes: int
    ghost var chains: Table           // the two tables with the chains they string together

    constructor AssocInit(h: HashFn, power: nat)
      ensures Valid() && View() == Init(power) && this.h == h
    {
      hide Good, Has;
      var table := new Ptr[Size(power)](_ => Null);
      InitGood(table[..], Init(power));
      this.h, hashpower, expanding, primaryTable, oldTable := h, power, false, table, new Ptr[0];
      expandBucket, hNext, keys, hashItems, hashBytes := 0, map[], map[], 0, Size(power) * WORD;
      chains := Init(power);
      new;
      assert oldTable[..] == [];
    }

    ghost predicate Valid()
      reads this, primaryTable, oldTable
    {
      && primaryTable != oldTable
      && chains == View()
      && |primaryTable[..]| == Size(hashpower)
          && (expanding ==> hashpower > 0 && oldTable.Length == Size(hashpower - 1))
      && (!expanding ==> oldTable.Length == 0) && (expanding ==> expandBucket < oldTable.Length)
      && Good(hNext, keys, primaryTable[..], oldTable[..], chains)
    }

    lemma InTables(hv: nat)
      requires Valid()
      ensures InTable(View(), CellOf(View(), hv))
    {
      hide Apart;
    }

    // The table as a value.
    ghost function View(): Table
      reads this
    {
      Table(hashpower, expanding, chains.primary, chains.prior, expandBucket, hashItems, hashBytes)
    }

    method AssocFind(key: Key, hv: nat) returns (ret: Ptr)
      requires Valid()
      ensures ret == FindAt(View(), CellOf(View(), hv), key)
    {
      hide Good, Mask;
      ghost var c := CellOf(chains, hv);
      StrungAt(hNext, keys, primaryTable[..], oldTable[..], chains, c);
      hide Has;
      var it;
      var oldBucket := if expanding then Mask(hv, hashpower - 1) else 0;
      if expanding && oldBucket >= expandBucket {
        it := oldTable[oldBucket];
      } else {
        it := primaryTable[Mask(hv, hashpower)];
      }
      ghost var rest := ChainAt(chains, c);
      ret := Null;
      while it != Null
        invariant Strung(hNext, keys, it, rest)
        invariant Search(ChainAt(chains, c), key) == Search(rest, key)
        decreases |rest|
      {
        if KeyAt(keys, it) == key {
          ret := it;
          return;
        }
        it := At(hNext, it);
        rest := rest[1..];
      }
    }
  
    // The slot that points to the item with the key, as the item whose h_next it is (Null for the bucket's head),
    // and what it points to.
    method HashitemBefore(key: Key, hv: nat) returns (before: Ptr, pos: Ptr)
      requires Valid()
      ensures (before, pos) == Walk(ChainAt(View(), CellOf(View(), hv)), key, Null)
    {
      hide Good, Mask;
      ghost var c := CellOf(chains, hv);
      StrungAt(hNext, keys, primaryTable[..], oldTable[..], chains, c);
      hide Has;
      var oldBucket := if expanding then Mask(hv, hashpower - 1) else 0;
      if expanding && oldBucket >= expandBucket {
        pos := oldTable[oldBucket];
      } else {
        pos := primaryTable[Mask(hv, hashpower)];
      }
      before := Null;
      ghost var rest := ChainAt(chains, c);
      while pos != Null && KeyAt(keys, pos) != key
        invariant Strung(hNext, keys, pos, rest)
        invariant Walk(ChainAt(chains, c), key, Null) == Walk(rest, key, before)
        decreases |rest|
      {
        before := pos;
        pos := At(hNext, pos);
        rest := rest[1..];
      }
    }

    // The caller has filled in the item's key, and no item of the table has that key or is that item.
    // asks: assoc_start_expand is called
    method AssocInsert(it: Ptr, hv: nat) returns (asks: bool)
      requires Valid() && it != Null && forall c :: !Has(ChainAt(View(), c), it)
      modifies this`hNext, this`hashItems, this`chains, primaryTable, oldTable
      ensures Valid() && View() == old(InsertAt(View(), CellOf(View(), hv), Entry(KeyAt(keys, it), it)))
      ensures var c := old(CellOf(View(), hv));
        BucketBecomes(old(View()), View(), c, [Entry(KeyAt(keys, it), it)] + old(ChainAt(View(), c)))
      ensures hashItems == old(hashItems) + 1 && (asks <==> !expanding && hashItems > Size(hashpower) * 3 / 2)
    {
      hide Good, Mask, Has, BucketBecomes;
      InsertMeans(chains, CellOf(chains, hv), Entry(KeyAt(keys, it), it)) by { InTables(hv); }
      ghost var c := CellOf(chains, hv);
      ghost var t1 := InsertAt(chains, c, Entry(KeyAt(keys, it), it));
      InsertGood(hNext, keys, primaryTable[..], oldTable[..], chains, c, it);
      var oldBucket := if expanding then Mask(hv, hashpower - 1) else 0;
      if expanding && oldBucket >= expandBucket {
        hNext := hNext[it := oldTable[oldBucket]];
        oldTable[oldBucket] := it;
      } else {
        hNext := hNext[it := primaryTable[Mask(hv, hashpower)]];
        primaryTable[Mask(hv, hashpower)] := it;
      }
      hashItems := hashItems + 1;
      asks := !expanding && hashItems > Size(hashpower) * 3 / 2;
      chains := t1;
    }

    // Callers delete keys they have found.
    method AssocDelete(key: Key, hv: nat)
      requires Valid() && FindAt(View(), CellOf(View(), hv), key) != Null
      modifies this`hNext, this`hashItems, this`chains, primaryTable, oldTable
      ensures Valid() && View() == old(DeleteAt(View(), CellOf(View(), hv), key))
      ensures var c := old(CellOf(View(), hv));
        && CutFrom(old(ChainAt(View(), c)), ChainAt(View(), c), key)
        && BucketBecomes(old(View()), View(), c, ChainAt(View(), c))
      ensures hashItems == old(hashItems) - 1
    {
      hide Good, Mask, Has, Walk, Remove, CutFrom, BucketBecomes;
      DeleteMeans(chains, CellOf(chains, hv), key) by { InTables(hv); }
      ghost var c := CellOf(chains, hv);
      ghost var t1 := DeleteAt(chains, c, key);
      DeleteGood(hNext, keys, primaryTable[..], oldTable[..], chains, c, key);
      SetSame(primaryTable[..], oldTable[..], c);
      var before, pos := HashitemBefore(key, hv);
      hashItems := hashItems - 1;
      var nxt := At(hNext, pos);
      hNext := hNext[pos := Null];
      if before != Null {
        hNext := hNext[before := nxt];
      } else {
        var oldBucket := if expanding then Mask(hv, hashpower - 1) else 0;
        if expanding && oldBucket >= expandBucket {
          oldTable[oldBucket] := nxt;
        } else {
          primaryTable[Mask(hv, hashpower)] := nxt;
        }
      }
      chains := t1;
    }

    method AssocExpand()
      requires Valid() && !expanding
      modifies this
      ensures Valid() && View() == old(Expand(View()))
      ensures hashpower == old(hashpower) + 1 && expanding && expandBucket == 0 && hashItems == old(hashItems)
      ensures oldTable == old(primaryTable) && oldTable[..] == old(primaryTable[..])
      ensures primaryTable.Length == 2 * oldTable.Length
        && forall b :: 0 <= b < primaryTable.Length ==> primaryTable[b] == Null
    {
      ghost var t1 := Expand(chains);
      hide Good, Has;
      var table := new Ptr[Size(hashpower + 1)](_ => Null);
      ExpandGood(hNext, keys, primaryTable[..], chains, table[..]) by { assert oldTable[..] == []; }
      oldTable := primaryTable;
      primaryTable := table;
      hashpower := hashpower + 1;
      expanding := true;
      expandBucket := 0;
      hashBytes := hashBytes + Size(hashpower) * WORD;
      chains := t1;
    }

    // One item goes to the bucket its hash names in the bigger table.
    method MoveFirst(it: Ptr, ghost heads: seq<Ptr>, ghost t: Table) returns (next: Ptr, ghost t1: Table)
      requires it != Null && expandBucket < |heads| && |primaryTable[..]| == Size(hashpower)
      requires Good(hNext, keys, primaryTable[..], heads[expandBucket := it], t)
      requires hashpower == t.power && t.cursor == expandBucket
      modifies this`hNext, primaryTable
      ensures t.cursor < |t.prior| && t.prior[t.cursor] != [] && t1 == MoveHead(h, t)
      ensures |primaryTable[..]| == Size(hashpower)
      ensures Good(hNext, keys, primaryTable[..], heads[expandBucket := next], t1)
    {
      hide Good, Mask, MoveHead;
      next := At(hNext, it);
      var bucket := Mask(h(KeyAt(keys, it)), hashpower);
      MoveGood(h, hNext, keys, primaryTable[..], heads[expandBucket := it], t, bucket);
      t1 := MoveHead(h, t);
      assert heads[expandBucket := it][expandBucket := next] == heads[expandBucket := next];
      hNext := hNext[it := primaryTable[bucket]];
      primaryTable[bucket] := it;
    }

    // The chain of the old bucket is moved item by item; the bucket's head is still the old one.
    method MoveChain() returns (ghost t: Table)
      requires Valid() && expanding
      modifies this`hNext, primaryTable
      ensures expandBucket < oldTable.Length && primaryTable[..] != [] && |primaryTable[..]| == Size(hashpower)
      ensures Good(hNext, keys, primaryTable[..], oldTable[..][expandBucket := Null], t)
      ensures View().(primary := t.primary, prior := t.prior) == t && t.cursor < |t.prior| && t.power > 0
      ensures Migrate(h, t) == old(Migrate(h, View())) && t.prior[t.cursor] == []
    {
      EmptyBucket(hNext, keys, primaryTable[..], oldTable[..], chains, expandBucket);
      hide Good, Has, Mask, MoveHead, NextBucket, Migrate;
      ghost var goal := Migrate(h, chains);
      t := chains;
      ghost var heads := oldTable[..];
      assert heads[expandBucket := heads[expandBucket]] == heads;
      var it := oldTable[expandBucket];
      while it != Null
        modifies this`hNext, primaryTable
        invariant Good(hNext, keys, primaryTable[..], heads[expandBucket := it], t)
        invariant |primaryTable[..]| == Size(hashpower)
        invariant 0 < t.power == hashpower && t.cursor == expandBucket < |t.prior|
        invariant View().(primary := t.primary, prior := t.prior) == t
        invariant goal == Migrate(h, t)
        decreases |t.prior[t.cursor]|
      {
        EmptyBucket(hNext, keys, primaryTable[..], heads[expandBucket := it], t, expandBucket);
        MoveSame(h, t);
        MigrateOn(h, t);
        it, t := MoveFirst(it, heads, t);
      }
      EmptyBucket(hNext, keys, primaryTable[..], heads[expandBucket := it], t, expandBucket);
    }

    // One turn of the maintenance thread, with the stripe lock of expand_bucket held.
    method MigrateBucket()
      requires Valid() && expanding
      modifies this, primaryTable, oldTable
      ensures Valid() && View() == old(Migrate(h, View()))
      ensures hashpower == old(hashpower) && hashItems == old(hashItems) && expandBucket == old(expandBucket) + 1
      ensures expanding <==> expandBucket < old(oldTable.Length)
    {
      hide Good, Mask, Migrate, Size;
      ghost var t := MoveChain();
      MigrateEnds(h, t);
      NextGood(hNext, keys, primaryTable[..], oldTable[..][expandBucket := Null], t);
      oldTable[expandBucket] := Null;
      expandBucket := expandBucket + 1;
      if expandBucket == Size(hashpower - 1) {
        expanding := false;
        oldTable := new Ptr[0];
        assert oldTable[..] == [];
        hashBytes := hashBytes - Size(hashpower - 1) * WORD;
      }
      chains := NextBucket(t);
    }
  }
}
