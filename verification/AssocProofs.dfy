// The hash table under concurrent access: worker threads under stripe locks, one maintenance thread that grows the
// table bucket by bucket, and the pause barrier around the switch to a bigger table.
module AssocProofs {
  import opened Memory
  import opened AssocSpec

  // ---- masks ----

  // The smaller mask of a bucket number is the smaller mask of the hash: a stripe of fewer bits than the old table
  // covers an old bucket and both buckets it is split into.
  lemma {:induction false} MaskMask(hv: nat, m: nat, n: nat)
    requires m <= n
    ensures Mask(Mask(hv, n), m) == Mask(hv, m)
  {
    if m > 0 {
      var b, x := hv % 2, Mask(hv / 2, n - 1);
      assert (b + 2 * x) % 2 == b && (b + 2 * x) / 2 == x;
      MaskMask(hv / 2, m - 1, n - 1);
    }
  }

  // An old bucket is split into the bucket of the same number and the one hashsize(n) above it.
  lemma {:induction false} SplitInTwo(hv: nat, n: nat)
    ensures Mask(hv, n + 1) == Mask(hv, n) || Mask(hv, n + 1) == Mask(hv, n) + Size(n)
  {
    if n > 0 { SplitInTwo(hv / 2, n - 1); }
  }

  // hv & hashmask(n), the lowest n bits, is the remainder by hashsize(n).
  lemma MaskIsRemainder(hv: nat, n: nat)
    ensures Mask(hv, n) == hv % Size(n)
  {
    hide Mask, Size;
    var q := MaskedOff(hv, n);
    RemainderIs(hv, Size(n), q, Mask(hv, n));
  }

  lemma {:induction false} MaskedOff(hv: nat, n: nat) returns (q: nat)
    ensures hv == q * Size(n) + Mask(hv, n)
  {
    if n == 0 {
      q := hv;
    } else {
      q := MaskedOff(hv / 2, n - 1);
      assert hv == 2 * (hv / 2) + hv % 2;
      Twice(q, Size(n - 1));
    }
  }

  lemma Twice(q: nat, d: nat)
    ensures q * (2 * d) == 2 * (q * d)
  {
  }

  lemma RemainderIs(a: nat, d: nat, q: nat, r: nat)
    requires a == q * d + r && r < d
    ensures r == a % d
  {
    var e := a / d - q;
    assert a == a / d * d + a % d;
    assert e * d == r - a % d;
    if e > 0 { Multiple(e, d); } else if e < 0 { Multiple(-e, d); }
  }

  lemma Multiple(e: nat, d: nat)
    requires e > 0
    ensures e * d >= d
  {
  }

  // ---- chains ----

  ghost predicate Chain(s: seq<Entry>) {
    && (forall i :: 0 <= i < |s| ==> s[i].item != Null)
    && forall i, j :: 0 <= i < j < |s| ==> s[i].key != s[j].key
  }

  lemma {:induction false} SearchFinds(s: seq<Entry>, key: Key)
    requires Chain(s)
    ensures Search(s, key) == Null <==> forall i :: 0 <= i < |s| ==> s[i].key != key
    ensures forall i :: 0 <= i < |s| && s[i].key == key ==> Search(s, key) == s[i].item
  {
    if s != [] && s[0].key != key {
      assert Chain(s[1..]);
      SearchFinds(s[1..], key);
      assert forall i :: 0 < i < |s| ==> s[i] == s[1..][i - 1];
    }
  }

  lemma ConsSearch(e: Entry, s: seq<Entry>, key: Key)
    ensures Search([e] + s, key) == if e.key == key then e.item else Search(s, key)
  {
    assert ([e] + s)[1..] == s;
  }

  lemma ConsChain(e: Entry, s: seq<Entry>)
    requires Chain(s) && e.item != Null && Search(s, e.key) == Null
    ensures Chain([e] + s)
  {
    SearchFinds(s, e.key);
  }

  lemma {:induction false} RemoveFacts(s: seq<Entry>, key: Key, k: Key)
    requires Chain(s)
    ensures Search(Remove(s, key), k) == if k == key then Null else Search(s, k)
    ensures Chain(Remove(s, key))
    ensures forall e :: e in Remove(s, key) ==> e in s
  {
    if s != [] {
      var tail := s[1..];
      assert Chain(tail);
      SearchFinds(s, s[0].key);
      SearchFinds(tail, s[0].key);
      if s[0].key != key {
        RemoveFacts(tail, key, k);
        RemoveFacts(tail, key, s[0].key);
        ConsSearch(s[0], Remove(tail, key), k);
        ConsChain(s[0], Remove(tail, key));
      }
    }
  }

  // ---- the machine ----

  // A worker inside an operation on a key whose stripe lock it holds. It reads `expanding`, then `expand_bucket`,
  // and then goes to the bucket it has chosen; the table may change between these reads.
  datatype Op = Locked(key: Key) | SawFlag(key: Key, expanding: bool) | Chosen(key: Key, cell: Cell)

  // moving says that the maintenance thread holds the stripe lock of expand_bucket.
  datatype World = World(t: Table, ops: map<nat, Op>, moving: bool)

  // lockPower is item_lock_hashpower.
  datatype Config = Config(h: HashFn, lockPower: nat, power: nat)
  {
    function Stripe(hv: nat): nat { Mask(hv, lockPower) }

    function KeyStripe(k: Key): nat { Stripe(h(k)) }
  }

  datatype Step =
    | SLock(th: nat, key: Key)
    | SReadFlag(th: nat)
    | SReadCursor(th: nat)
    | SFind(th: nat, key: Key, answer: Ptr)
    | SInsert(th: nat, key: Key, item: Ptr)
    | SDelete(th: nat, key: Key)
    | SUnlock(th: nat)
    | STryLock                 // the maintenance thread gets the lock of expand_bucket
    | SMoveHead
    | SNextBucket              // and gives it back
    | SExpand                  // between PAUSE_ALL_THREADS and RESUME_ALL_THREADS

  predicate StripeFree(c: Config, w: World, stripe: nat) {
    && (forall th :: th in w.ops ==> c.KeyStripe(w.ops[th].key) != stripe)
    && (w.moving ==> c.Stripe(w.t.cursor) != stripe)
  }

  predicate At(w: World, th: nat, key: Key) { th in w.ops && w.ops[th].Chosen? && w.ops[th].key == key }

  predicate Enabled(c: Config, w: World, a: Step) {
    match a
    case SLock(th, key) => th !in w.ops && StripeFree(c, w, c.KeyStripe(key))
    case SReadFlag(th) => th in w.ops && w.ops[th].Locked?
    case SReadCursor(th) => th in w.ops && w.ops[th].SawFlag?
    case SFind(th, key, answer) => At(w, th, key) && answer == FindAt(w.t, w.ops[th].cell, key)
    case SInsert(th, key, item) => At(w, th, key) && item != Null && FindAt(w.t, w.ops[th].cell, key) == Null
    case SDelete(th, key) => At(w, th, key) && FindAt(w.t, w.ops[th].cell, key) != Null
    case SUnlock(th) => th in w.ops
    case STryLock => w.t.expanding && !w.moving && StripeFree(c, w, c.Stripe(w.t.cursor))
    case SMoveHead => w.moving && w.t.cursor < |w.t.prior| && w.t.prior[w.t.cursor] != []
    case SNextBucket => w.moving && w.t.power > 0 && BucketIn(w.t.prior, w.t.cursor) == []
    case SExpand => !w.t.expanding && w.ops == map[] && !w.moving
  }

  function Apply(c: Config, w: World, a: Step): World
    requires Enabled(c, w, a)
  {
    match a
    case SLock(th, key) => w.(ops := w.ops[th := Locked(key)])
    case SReadFlag(th) => w.(ops := w.ops[th := SawFlag(w.ops[th].key, w.t.expanding)])
    case SReadCursor(th) =>
      var op := w.ops[th];
      w.(ops := w.ops[th := Chosen(op.key, Choose(op.expanding, w.t.cursor, w.t.power, c.h(op.key)))])
    case SFind(_, _, _) => w
    case SInsert(th, key, item) => w.(t := InsertAt(w.t, w.ops[th].cell, Entry(key, item)))
    case SDelete(th, key) => w.(t := DeleteAt(w.t, w.ops[th].cell, key))
    case SUnlock(th) => w.(ops := w.ops - {th})
    case STryLock => w.(moving := true)
    case SMoveHead => w.(t := MoveHead(c.h, w.t))
    case SNextBucket => w.(t := NextBucket(w.t), moving := false)
    case SExpand => w.(t := Expand(w.t))
  }

  // What the step means for a client: the table is one map from keys to items.
  function Meaning(m: map<Key, Ptr>, a: Step): map<Key, Ptr> {
    match a
    case SInsert(_, key, item) => m[key := item]
    case SDelete(_, key) => m - {key}
    case _ => m
  }

  function MeaningOf(steps: seq<Step>): map<Key, Ptr> {
    if steps == [] then map[] else Meaning(MeaningOf(steps[..|steps| - 1]), steps[|steps| - 1])
  }

  function LookIn(m: map<Key, Ptr>, key: Key): Ptr { if key in m then m[key] else Null }

  ghost predicate IsRun(c: Config, run: seq<World>, steps: seq<Step>) {
    && |run| == |steps| + 1 && c.lockPower < c.power   // the check in memcached_thread_init
    && run[0] == World(Init(c.power), map[], false)
    && forall i :: 0 <= i < |steps| ==> Enabled(c, run[i], steps[i]) && run[i + 1] == Apply(c, run[i], steps[i])
  }

  // ---- the invariant ----

  // The tables have the sizes their powers say, and hash_bytes counts exactly the live ones.
  ghost predicate Shape(t: Table) {
    && |t.primary| == Size(t.power)
    && (t.expanding ==> t.power > 0 && |t.prior| == Size(t.power - 1) && t.cursor < Size(t.power - 1))
    && (!t.expanding ==> t.prior == [])
    && t.bytes == WORD * (Size(t.power) + |t.prior|)
  }

  // Keys of the bucket the maintenance thread is emptying.
  predicate InTransit(t: Table, moving: bool, hv: nat) { moving && t.power > 0 && Mask(hv, t.power - 1) == t.cursor }

  // A key is kept in the bucket its hash names, or, in transit, possibly in its new one already.
  predicate Home(t: Table, moving: bool, hv: nat, c: Cell) {
    c == CellOf(t, hv) || (InTransit(t, moving, hv) && c == Primary(Mask(hv, t.power)))
  }

  ghost predicate Placed(h: HashFn, t: Table, moving: bool) {
    forall c :: Chain(ChainAt(t, c)) && forall e :: e in ChainAt(t, c) ==> Home(t, moving, h(e.key), c)
  }

  // What the table as a whole says about a key.
  function Lookup(t: Table, moving: bool, hv: nat, key: Key): Ptr {
    var p := FindAt(t, CellOf(t, hv), key);
    if p == Null && InTransit(t, moving, hv) then FindAt(t, Primary(Mask(hv, t.power)), key) else p
  }

  // Never in two chains at once.
  ghost predicate Once(h: HashFn, t: Table, moving: bool) {
    forall k :: InTransit(t, moving, h(k)) && t.expanding ==>
      FindAt(t, CellOf(t, h(k)), k) == Null || FindAt(t, Primary(Mask(h(k), t.power)), k) == Null
  }

  ghost predicate Agrees(h: HashFn, t: Table, moving: bool, m: map<Key, Ptr>) {
    && (forall k :: Lookup(t, moving, h(k), k) == LookIn(m, k))
    && (forall k :: k in m ==> m[k] != Null)
    && t.items == |m|
  }

  // Locks are held by one thread at a time, and what a thread has read so far is still good.
  ghost predicate OpOk(c: Config, t: Table, op: Op) {
    match op
    case Locked(_) => true
    case SawFlag(key, expanding) => Choose(expanding, t.cursor, t.power, c.h(key)) == CellOf(t, c.h(key))
    case Chosen(key, cell) => cell == CellOf(t, c.h(key))
  }

  ghost predicate Exclusive(c: Config, w: World) {
    && (forall a, b :: a in w.ops && b in w.ops && a != b ==> c.KeyStripe(w.ops[a].key) != c.KeyStripe(w.ops[b].key))
    && (w.moving ==> forall a :: a in w.ops ==> c.KeyStripe(w.ops[a].key) != c.Stripe(w.t.cursor))
  }

  ghost predicate OpsOk(c: Config, w: World) { forall th :: th in w.ops ==> OpOk(c, w.t, w.ops[th]) }

  ghost predicate Inv(c: Config, w: World, m: map<Key, Ptr>) {
    && Shape(w.t) && c.lockPower < w.t.power && (w.moving ==> w.t.expanding)
    && Placed(c.h, w.t, w.moving) && Once(c.h, w.t, w.moving) && Agrees(c.h, w.t, w.moving, m)
    && Exclusive(c, w) && OpsOk(c, w)
  }

  // ---- one bucket at a time ----

  predicate InRange(t: Table, c: Cell) { match c case Prior(b) => b < |t.prior| case Primary(b) => b < |t.primary| }

  lemma CellInRange(t: Table, hv: nat)
    requires Shape(t)
    ensures InRange(t, CellOf(t, hv)) && InRange(t, Primary(Mask(hv, t.power)))
  {
  }

  // The number of an old bucket names the stripe of its keys. Its two halves are the new bucket of the same number and
  // the one hashsize(hashpower - 1) above, and their numbers name the same stripe.
  lemma HalvesShareStripe(c: Config, t: Table, j: nat)
    requires c.lockPower < t.power
    ensures var b := Mask(j, t.power - 1);
      && Mask(j, t.power) in {b, b + Size(t.power - 1)}
      && c.Stripe(b) == c.Stripe(j) && c.Stripe(Mask(j, t.power)) == c.Stripe(j)
  {
    SplitInTwo(j, t.power - 1);
    MaskMask(j, c.lockPower, t.power - 1);
    MaskMask(j, c.lockPower, t.power);
  }

  // Two keys with the same bucket, before or after its split, have the same stripe.
  lemma OneStripePerBucket(c: Config, t: Table, j: nat, k: nat)
    requires c.lockPower < t.power
    requires Mask(j, t.power - 1) == Mask(k, t.power - 1) || Mask(j, t.power) == Mask(k, t.power)
    ensures c.Stripe(j) == c.Stripe(k)
  {
    HalvesShareStripe(c, t, j);
    HalvesShareStripe(c, t, k);
  }

  // A thread inside an operation is never on the bucket in transit.
  lemma NotInTransit(c: Config, w: World, th: nat)
    requires c.lockPower < w.t.power && Exclusive(c, w) && th in w.ops
    ensures !InTransit(w.t, w.moving, c.h(w.ops[th].key))
  {
    if InTransit(w.t, w.moving, c.h(w.ops[th].key)) {
      MaskMask(c.h(w.ops[th].key), c.lockPower, w.t.power - 1);
    }
  }

  // ---- insert and delete ----

  ghost predicate TableOk(h: HashFn, t: Table, moving: bool, m: map<Key, Ptr>) {
    Shape(t) && Placed(h, t, moving) && Once(h, t, moving) && Agrees(h, t, moving, m)
  }

  // A bucket is given a chain that differs in one key, the key being at home there and not in transit.
  ghost predicate DiffersAt(s: seq<Entry>, r: seq<Entry>, key: Key, p: Ptr) {
    && Chain(r) && (forall e :: e in r ==> e in s || e.key == key)
    && forall k :: Search(r, k) == if k == key then p else Search(s, k)
  }

  lemma EditPlaced(h: HashFn, t: Table, moving: bool, key: Key, r: seq<Entry>, p: Ptr, t1: Table)
    requires Shape(t) && Placed(h, t, moving)
    requires DiffersAt(ChainAt(t, CellOf(t, h(key))), r, key, p)
    requires t1 == SetChain(t, CellOf(t, h(key)), r).(items := t1.items)
    ensures Placed(h, t1, moving) && Shape(t1)
  {
    hide Chain, Search, DiffersAt, Mask;
    CellInRange(t, h(key));
    forall d ensures Chain(ChainAt(t1, d)) && forall e :: e in ChainAt(t1, d) ==> Home(t1, moving, h(e.key), d) {
      hide ChainAt, SetChain;
      EditChain(t, CellOf(t, h(key)), r, t1, d);
      DiffersFacts(ChainAt(t, CellOf(t, h(key))), r, key, p, key);
      hide Shape;
    }
  }

  lemma EditChain(t: Table, c: Cell, r: seq<Entry>, t1: Table, d: Cell)
    requires InRange(t, c) && t1 == SetChain(t, c, r).(items := t1.items)
    ensures ChainAt(t1, d) == if d == c then r else ChainAt(t, d)
    ensures t1.power == t.power && t1.cursor == t.cursor && t1.expanding == t.expanding
  {
  }

  lemma DiffersFacts(s: seq<Entry>, r: seq<Entry>, key: Key, p: Ptr, k: Key)
    requires DiffersAt(s, r, key, p)
    ensures Chain(r) && (forall e :: e in r ==> e in s || e.key == key)
    ensures Search(r, k) == if k == key then p else Search(s, k)
  {
  }

  lemma EditFind(h: HashFn, t: Table, key: Key, r: seq<Entry>, p: Ptr, t1: Table, d: Cell, k: Key)
    requires Shape(t)
    requires DiffersAt(ChainAt(t, CellOf(t, h(key))), r, key, p)
    requires t1 == SetChain(t, CellOf(t, h(key)), r).(items := t1.items)
    ensures FindAt(t1, d, k) == if d == CellOf(t, h(key)) && k == key then p else FindAt(t, d, k)
  {
    hide Search, DiffersAt, Shape, ChainAt, SetChain, CellOf;
    CellInRange(t, h(key));
    EditChain(t, CellOf(t, h(key)), r, t1, d);
    DiffersFacts(ChainAt(t, CellOf(t, h(key))), r, key, p, k);
  }

  lemma EditLookup(h: HashFn, t: Table, moving: bool, key: Key, r: seq<Entry>, p: Ptr, t1: Table, k: Key)
    requires Shape(t) && !InTransit(t, moving, h(key))
    requires DiffersAt(ChainAt(t, CellOf(t, h(key))), r, key, p)
    requires t1 == SetChain(t, CellOf(t, h(key)), r).(items := t1.items)
    ensures Lookup(t1, moving, h(k), k) == if k == key then p else Lookup(t, moving, h(k), k)
    ensures InTransit(t1, moving, h(k)) == InTransit(t, moving, h(k)) && CellOf(t1, h(k)) == CellOf(t, h(k))
    ensures FindAt(t1, Primary(Mask(h(k), t.power)), k) == FindAt(t, Primary(Mask(h(k), t.power)), k) || k == key
    ensures FindAt(t1, CellOf(t1, h(k)), k) == FindAt(t, CellOf(t, h(k)), k) || k == key
  {
    hide DiffersAt, FindAt, Shape, Mask;
    CellInRange(t, h(key));
    EditChain(t, CellOf(t, h(key)), r, t1, CellOf(t, h(key)));
    hide ChainAt, SetChain;
    EditFind(h, t, key, r, p, t1, CellOf(t, h(k)), k);
    EditFind(h, t, key, r, p, t1, Primary(Mask(h(k), t.power)), k);
  }

  lemma EditKeeps(h: HashFn, t: Table, moving: bool, m: map<Key, Ptr>, key: Key, r: seq<Entry>, p: Ptr, t1: Table,
                  m1: map<Key, Ptr>)
    requires TableOk(h, t, moving, m) && !InTransit(t, moving, h(key))
    requires DiffersAt(ChainAt(t, CellOf(t, h(key))), r, key, p)
    requires t1 == SetChain(t, CellOf(t, h(key)), r).(items := t1.items)
    requires forall k :: LookIn(m1, k) == if k == key then p else LookIn(m, k)
    requires |m1| == t1.items && forall k :: k in m1 ==> m1[k] != Null
    ensures TableOk(h, t1, moving, m1)
  {
    hide DiffersAt, FindAt, Shape, ChainAt, SetChain, Placed, Lookup, InTransit, CellOf, LookIn;
    EditPlaced(h, t, moving, key, r, p, t1);
    forall k ensures Lookup(t1, moving, h(k), k) == LookIn(m1, k) {
      EditLookup(h, t, moving, key, r, p, t1, k);
    }
    EditPower(t, CellOf(t, h(key)), r, t1);
    forall k | InTransit(t1, moving, h(k)) && t1.expanding
      ensures FindAt(t1, CellOf(t1, h(k)), k) == Null || FindAt(t1, Primary(Mask(h(k), t1.power)), k) == Null
    {
      EditLookup(h, t, moving, key, r, p, t1, k);
    }
  }

  lemma EditPower(t: Table, c: Cell, r: seq<Entry>, t1: Table)
    requires t1 == SetChain(t, c, r).(items := t1.items)
    ensures t1.power == t.power && t1.expanding == t.expanding
  {
  }
}
