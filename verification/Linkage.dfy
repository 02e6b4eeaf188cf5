// What ITEM_LINKED, the hash table and the LRU queues have to do with each other.
module Linkage {
  import opened Memory

  // The LRU queues, from head to tail.
  function QueueIn(lru: map<Queue, seq<Ptr>>, q: Queue): seq<Ptr> { if q in lru then lru[q] else [] }

  // item_link_q and item_unlink_q
  function PushQueue(lru: map<Queue, seq<Ptr>>, q: Queue, p: Ptr): map<Queue, seq<Ptr>> {
    lru[q := [p] + QueueIn(lru, q)]
  }

  function EraseQueue(lru: map<Queue, seq<Ptr>>, q: Queue, p: Ptr): map<Queue, seq<Ptr>> {
    lru[q := Erase(QueueIn(lru, q), p)]
  }

  predicate LinkedIn(mem: map<Ptr, Item>, p: Ptr) { p in mem && mem[p].flags.linked }

  // Flags of a linked item: it is not on a freelist and has been filled in.
  ghost predicate LinkedOk(mem: map<Ptr, Item>) {
    forall p :: LinkedIn(mem, p) ==> !mem[p].flags.slabbed && mem[p].clsid != 0
  }

  // A linked item is the hash table's entry for its key, and nothing else is in the table.
  ghost predicate TableOk(mem: map<Ptr, Item>, table: map<Key, Ptr>) {
    && (forall k :: k in table ==> LinkedIn(mem, table[k]) && mem[table[k]].key == k)
    && (forall p :: LinkedIn(mem, p) ==> mem[p].key in table && table[mem[p].key] == p)
  }

  // A linked item is in the queue its slabs_clsid names, once, and nothing else is in a queue.
  ghost predicate QueuesOnce(lru: map<Queue, seq<Ptr>>) { forall q :: NoDup(QueueIn(lru, q)) }

  ghost predicate QueuedOk(mem: map<Ptr, Item>, lru: map<Queue, seq<Ptr>>) {
    forall q, p :: p in QueueIn(lru, q) <==> LinkedIn(mem, p) && mem[p].Home() == q
  }

  predicate FilledIn(mem: map<Ptr, Item>, p: Ptr) { p in mem && !mem[p].flags.slabbed && mem[p].clsid != 0 }

  lemma KeptTable(mem: map<Ptr, Item>, table: map<Key, Ptr>, p: Ptr, n: Item)
    requires TableOk(mem, table) && LinkedIn(mem, p) == n.flags.linked && (n.flags.linked ==> n.key == mem[p].key)
    ensures TableOk(mem[p := n], table)
  {
    assert forall q :: LinkedIn(mem[p := n], q) == LinkedIn(mem, q);
  }

  lemma KeptQueue(mem: map<Ptr, Item>, lru: map<Queue, seq<Ptr>>, p: Ptr, n: Item)
    requires QueuedOk(mem, lru) && LinkedIn(mem, p) == n.flags.linked && (n.flags.linked ==> n.Home() == mem[p].Home())
    ensures QueuedOk(mem[p := n], lru)
  {
    forall q, x ensures x in QueueIn(lru, q) <==> LinkedIn(mem[p := n], x) && (mem[p := n])[x].Home() == q {
      assert x in QueueIn(lru, q) <==> LinkedIn(mem, x) && mem[x].Home() == q;
    }
  }

  lemma LinkTable(mem: map<Ptr, Item>, table: map<Key, Ptr>, p: Ptr, n: Item)
    requires TableOk(mem, table) && !LinkedIn(mem, p) && n.flags.linked && n.key !in table
    ensures TableOk(mem[p := n], table[n.key := p])
  {
  }

  lemma UnlinkTable(mem: map<Ptr, Item>, table: map<Key, Ptr>, p: Ptr, n: Item)
    requires TableOk(mem, table) && LinkedIn(mem, p) && !n.flags.linked && n.key == mem[p].key
    ensures TableOk(mem[p := n], table - {n.key})
  {
  }

  lemma PushQueueFacts(lru: map<Queue, seq<Ptr>>, q: Queue, p: Ptr)
    requires QueuesOnce(lru) && p !in QueueIn(lru, q)
    ensures QueuesOnce(PushQueue(lru, q, p))
    ensures forall q1, x :: x in QueueIn(PushQueue(lru, q, p), q1) <==> (q1 == q && x == p) || x in QueueIn(lru, q1)
  {
    var r := PushQueue(lru, q, p);
    assert forall x :: x in QueueIn(r, q) <==> x == p || x in QueueIn(lru, q);
    assert forall q1 :: q1 != q ==> QueueIn(r, q1) == QueueIn(lru, q1);
  }

  lemma EraseQueueFacts(lru: map<Queue, seq<Ptr>>, q: Queue, p: Ptr)
    requires QueuesOnce(lru)
    ensures QueuesOnce(EraseQueue(lru, q, p))
    ensures forall q1, x :: x in QueueIn(EraseQueue(lru, q, p), q1) <==> x in QueueIn(lru, q1) && !(q1 == q && x == p)
  {
    var r := EraseQueue(lru, q, p);
    EraseFacts(QueueIn(lru, q), p);
    assert forall q1 :: q1 != q ==> QueueIn(r, q1) == QueueIn(lru, q1);
  }

  lemma LinkLru(mem: map<Ptr, Item>, lru: map<Queue, seq<Ptr>>, p: Ptr, n: Item)
    requires QueuesOnce(lru) && QueuedOk(mem, lru) && !LinkedIn(mem, p) && n.flags.linked
    ensures QueuesOnce(PushQueue(lru, n.Home(), p)) && QueuedOk(mem[p := n], PushQueue(lru, n.Home(), p))
  {
    var r := PushQueue(lru, n.Home(), p);
    assert p !in QueueIn(lru, n.Home());
    PushQueueFacts(lru, n.Home(), p);
    hide PushQueue, QueuesOnce, QueueIn;
    forall q, x ensures x in QueueIn(r, q) <==> LinkedIn(mem[p := n], x) && (mem[p := n])[x].Home() == q {
      assert x in QueueIn(r, q) <==> (q == n.Home() && x == p) || x in QueueIn(lru, q);
      assert x in QueueIn(lru, q) <==> LinkedIn(mem, x) && mem[x].Home() == q;
    }
  }

  lemma UnlinkLru(mem: map<Ptr, Item>, lru: map<Queue, seq<Ptr>>, p: Ptr, n: Item)
    requires QueuesOnce(lru) && QueuedOk(mem, lru) && LinkedIn(mem, p) && !n.flags.linked
    ensures QueuesOnce(EraseQueue(lru, mem[p].Home(), p)) && QueuedOk(mem[p := n], EraseQueue(lru, mem[p].Home(), p))
  {
    var r := EraseQueue(lru, mem[p].Home(), p);
    EraseQueueFacts(lru, mem[p].Home(), p);
    hide EraseQueue, QueuesOnce, QueueIn;
    forall q, x ensures x in QueueIn(r, q) <==> LinkedIn(mem[p := n], x) && (mem[p := n])[x].Home() == q {
      assert x in QueueIn(r, q) <==> x in QueueIn(lru, q) && !(q == mem[p].Home() && x == p);
      assert x in QueueIn(lru, q) <==> LinkedIn(mem, x) && mem[x].Home() == q;
    }
  }
}
