// Pointers and item headers shared by the slab allocator, the LRU queues and the hash table.
module Memory {

  // A chunk pointer is base + idx * size of the page it lies in; the geometry lemmas of module Geometry
  // justify naming it by page and index. A crawler is one of the static nodes that walk the LRU queues.
  datatype Ptr = Null | Chunk(page: nat, idx: nat) | Crawler(queue: nat)

  type Key = string

  // What a client stores: the data block, the client flags and the expiry time.
  datatype Content = Content(data: string, clientFlags: int, exptime: nat)

  // The bits of it_flags.
  datatype Flags = Flags(linked: bool, cas: bool, slabbed: bool, fetched: bool, active: bool)

  const SLABBED := Flags(false, false, true, false, false)          // on a freelist
  const CLEARED := Flags(false, false, true, true, false)           // ITEM_SLABBED|ITEM_FETCHED, wiped by the mover
  const NO_FLAGS := Flags(false, false, false, false, false)

  // The segment bits of slabs_clsid.
  datatype Segment = Hot | Warm | Cold | NoExp

  datatype Queue = Queue(clsid: nat, seg: Segment)

  // An item header. clsid and seg are the two halves of slabs_clsid; clsid is 0 until the item has been filled in.
  // ntotal is ITEM_ntotal of the item a chunk was handed out for.
  datatype Item = Item(flags: Flags, refcount: nat, clsid: nat, seg: Segment, ntotal: nat, key: Key, content: Content)
  {
    function Home(): Queue { Queue(clsid, seg) }
  }

  // A chunk of a page that has been zeroed and given to a freelist.
  const BLANK := Item(SLABBED, 0, 0, Hot, 0, "", Content("", 0, 0))

  ghost predicate NoDup<T>(s: seq<T>) {
    forall i, j :: 0 <= i < j < |s| ==> s[i] != s[j]
  }

  // s without its element at position i.
  function Without<T>(s: seq<T>, i: nat): (r: seq<T>)
    requires i < |s|
    ensures |r| == |s| - 1
  {
    s[..i] + s[i + 1..]
  }

  lemma WithoutFacts<T>(s: seq<T>, i: nat)
    requires NoDup(s) && i < |s|
    ensures NoDup(Without(s, i)) && forall x :: x in Without(s, i) <==> x in s && x != s[i]
  {
    var r := Without(s, i);
    assert forall j :: 0 <= j < |r| ==> r[j] == s[if j < i then j else j + 1];
    forall x | x in s && x != s[i] ensures x in r {
      var j :| 0 <= j < |s| && s[j] == x;
      assert r[if j < i then j else j - 1] == x;
    }
  }

  // Position of an element that is present.
  function IndexOf<T(==)>(s: seq<T>, x: T): (i: nat)
    requires x in s
    ensures i < |s| && s[i] == x && x !in s[..i]
  {
    if s[0] == x then 0 else 1 + IndexOf(s[1..], x)
  }

  // s without the first occurrence of x, or s itself.
  function Erase<T(==)>(s: seq<T>, x: T): seq<T> {
    if x in s then Without(s, IndexOf(s, x)) else s
  }

  lemma EraseFacts<T>(s: seq<T>, x: T)
    requires NoDup(s)
    ensures NoDup(Erase(s, x)) && x !in Erase(s, x)
    ensures forall y :: y in Erase(s, x) <==> y in s && y != x
  {
    if x in s {
      var i := IndexOf(s, x);
      var r := Without(s, i);
      assert forall j :: 0 <= j < |r| ==> r[j] == if j < i then s[j] else s[j + 1];
      forall y | y in s && y != x ensures y in r {
        var j :| 0 <= j < |s| && s[j] == y;
        assert r[if j < i then j else j - 1] == y;
      }
    }
  }
}
