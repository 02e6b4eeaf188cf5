// The hash table with its incremental growth, on values.
module AssocSpec {
  import opened Memory

  // hash(): some fixed function of the key.
  type HashFn = Key -> nat

  datatype Entry = Entry(key: Key, item: Ptr)

  // primary_hashtable, old_hashtable, hashpower, expanding, expand_bucket, hash_items and stats.hash_bytes.
  datatype Table = Table(power: nat, expanding: bool, primary: seq<seq<Entry>>, prior: seq<seq<Entry>>,
                         cursor: nat, items: int, bytes: int)

  // hashsize(n)
  function Size(n: nat): (r: nat)
    ensures r >= 1
  {
    if n == 0 then 1 else 2 * Size(n - 1)
  }

  // hv & hashmask(n): the low n bits
  function Mask(hv: nat, n: nat): (r: nat)
    ensures r < Size(n)
  {
    if n == 0 then 0 else hv % 2 + 2 * Mask(hv / 2, n - 1)
  }

  const WORD: nat := 8   // sizeof(void *)

  // The bucket an access to a key goes to.
  datatype Cell = Prior(b: nat) | Primary(b: nat)

  // The choice made once the two flags have been read.
  function Choose(expanding: bool, cursor: nat, power: nat, hv: nat): Cell {
    if expanding && power > 0 && Mask(hv, power - 1) >= cursor then Prior(Mask(hv, power - 1))
    else Primary(Mask(hv, power))
  }

  function CellOf(t: Table, hv: nat): Cell { Choose(t.expanding, t.cursor, t.power, hv) }

  function BucketIn(buckets: seq<seq<Entry>>, b: nat): seq<Entry> { if b < |buckets| then buckets[b] else [] }

  function ChainAt(t: Table, c: Cell): seq<Entry> {
    match c
    case Prior(b) => BucketIn(t.prior, b)
    case Primary(b) => BucketIn(t.primary, b)
  }

  function SetBucket(buckets: seq<seq<Entry>>, b: nat, s: seq<Entry>): seq<seq<Entry>> {
    if b < |buckets| then buckets[b := s] else buckets
  }

  function SetChain(t: Table, c: Cell, s: seq<Entry>): Table {
    match c
    case Prior(b) => t.(prior := SetBucket(t.prior, b, s))
    case Primary(b) => t.(primary := SetBucket(t.primary, b, s))
  }

  // The walk along a chain.
  function Search(s: seq<Entry>, key: Key): Ptr {
    if s == [] then Null else if s[0].key == key then s[0].item else Search(s[1..], key)
  }

  function Remove(s: seq<Entry>, key: Key): seq<Entry> {
    if s == [] then [] else if s[0].key == key then s[1..] else [s[0]] + Remove(s[1..], key)
  }

  // assoc_find, assoc_insert and assoc_delete on the bucket that has been chosen
  function FindAt(t: Table, c: Cell, key: Key): Ptr { Search(ChainAt(t, c), key) }

  function InsertAt(t: Table, c: Cell, e: Entry): Table { SetChain(t, c, [e] + ChainAt(t, c)).(items := t.items + 1) }

  function DeleteAt(t: Table, c: Cell, key: Key): Table {
    SetChain(t, c, Remove(ChainAt(t, c), key)).(items := t.items - 1)
  }

  function Empty(n: nat): (r: seq<seq<Entry>>)
    ensures |r| == n && forall i :: 0 <= i < n ==> r[i] == []
  {
    seq(n, i => [])
  }

  // assoc_init
  function Init(power: nat): Table { Table(power, false, Empty(Size(power)), [], 0, 0, Size(power) * WORD) }

  // assoc_expand, when calloc succeeds
  function Expand(t: Table): Table {
    Table(t.power + 1, true, Empty(Size(t.power + 1)), t.primary, 0, t.items, t.bytes + Size(t.power + 1) * WORD)
  }

  // One turn of the inner loop of assoc_maintenance_thread: the head of the old bucket goes to its new bucket.
  function MoveHead(h: HashFn, t: Table): Table
    requires t.cursor < |t.prior| && t.prior[t.cursor] != []
  {
    var e := t.prior[t.cursor][0];
    var b := Mask(h(e.key), t.power);
    t.(prior := SetBucket(t.prior, t.cursor, t.prior[t.cursor][1..]),
       primary := SetBucket(t.primary, b, [e] + BucketIn(t.primary, b)))
  }

  // The rest of a turn of the outer loop, when the old bucket has been emptied.
  function NextBucket(t: Table): Table
    requires t.power > 0
  {
    if t.cursor + 1 == Size(t.power - 1) then
      t.(cursor := t.cursor + 1, expanding := false, prior := [], bytes := t.bytes - Size(t.power - 1) * WORD)
    else t.(cursor := t.cursor + 1)
  }

  // A whole turn of the outer loop.
  function Migrate(h: HashFn, t: Table): Table
    requires t.power > 0 && t.cursor < |t.prior|
    decreases |t.prior[t.cursor]|
  {
    if t.prior[t.cursor] == [] then NextBucket(t) else Migrate(h, MoveHead(h, t))
  }
}
