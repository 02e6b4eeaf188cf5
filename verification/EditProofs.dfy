// What replacing one item header, link or reference keeps of the invariant.
module EditProofs {
  import opened Memory
  import opened Linkage
  import opened SlabSpec
  import opened Engine
  import opened EngineInv

  // A header that is on no freelist is replaced by another such header.
  lemma EditSlabs(sl: Slabs, p: Ptr, n: Item)
    requires SlabsOk(sl) && p in sl.mem && !sl.mem[p].flags.slabbed && !n.flags.slabbed
    ensures SlabsOk(sl.(mem := sl.mem[p := n]))
  {
    assert FreeOk(sl.free, sl.mem[p := n], sl.owner) by { hide PagesOk, SlabbedOk; }
    assert SlabbedOk(sl.free, sl.mem[p := n], sl.owner) by { hide PagesOk, FreeOk; }
    hide PagesOk, FreeOk, SlabbedOk;
  }

  lemma EditRefs(mem: map<Ptr, Item>, held: map<Ptr, nat>, m: Mover, p: Ptr, n: Item, h: nat)
    requires Refs(mem, held, m)
    requires !n.flags.slabbed && n.refcount == h + LinkRef(n) + MoverRef(m, p)
    ensures Refs(mem[p := n], held[p := h], m)
  {
  }

  // The same when the number of worker references stays.
  lemma KeepRefs(mem: map<Ptr, Item>, held: map<Ptr, nat>, m: Mover, p: Ptr, n: Item)
    requires Refs(mem, held, m)
    requires !n.flags.slabbed && n.refcount == HeldIn(held, p) + LinkRef(n) + MoverRef(m, p)
    ensures Refs(mem[p := n], held, m)
  {
  }

  lemma RefFacts(mem: map<Ptr, Item>, held: map<Ptr, nat>, m: Mover, p: Ptr)
    requires Refs(mem, held, m) && p in mem
    ensures !mem[p].flags.slabbed ==> mem[p].refcount == HeldIn(held, p) + LinkRef(mem[p]) + MoverRef(m, p)
    ensures HeldIn(held, p) > 0 ==> !mem[p].flags.slabbed
  {
  }

  lemma EditWiped(mem: map<Ptr, Item>, rb: Rebal, perslab: nat, p: Ptr, n: Item)
    requires ClearedOk(mem, rb) && BehindOk(mem, rb, perslab)
    requires !IsCleared(mem, p) && n.flags != CLEARED
    ensures ClearedOk(mem[p := n], rb) && BehindOk(mem[p := n], rb, perslab)
  {
    var mem1 := mem[p := n];
    forall q ensures IsCleared(mem1, q) == IsCleared(mem, q) {
    }
    assert ClearedOk(mem1, rb);
    forall k: nat | ClearedUpTo(mem, rb.start, k) ensures ClearedUpTo(mem1, rb.start, k) {
      forall j: nat | j < k ensures IsCleared(mem1, Chunk(rb.start, j)) {
        assert IsCleared(mem, Chunk(rb.start, j));
      }
    }
  }

  // An item the mover has not taken hold of is edited; h is the number of worker references it then has.
  lemma EditMove(sl: Slabs, held: map<Ptr, nat>, rb: Rebal, m: Mover, p: Ptr, n: Item, held1: map<Ptr, nat>)
    requires Move(sl, held, rb, m) && p in sl.mem && !sl.mem[p].flags.slabbed && !n.flags.slabbed
    requires MoverRef(m, p) == 0
    requires m.SawLinked? && p == m.it && sl.mem[p].clsid != 0 ==> n.clsid != 0 && n.key == sl.mem[p].key
    requires forall q :: q != p ==> HeldIn(held1, q) == HeldIn(held, q)
    ensures Move(sl.(mem := sl.mem[p := n]), held1, rb, m)
  {
    EditWiped(sl.mem, rb, SrcPerslab(sl, rb), p, n);
    hide ClearedOk, BehindOk;
  }

  lemma EditKept(mem: map<Ptr, Item>, table: map<Key, Ptr>, lru: map<Queue, seq<Ptr>>, owner: map<nat, nat>, p: Ptr,
      n: Item)
    requires p in mem && n.flags.linked == mem[p].flags.linked && n.Home() == mem[p].Home() && n.key == mem[p].key
    requires n.flags.slabbed == mem[p].flags.slabbed
    requires Links(mem, table, lru, owner)
    ensures Links(mem[p := n], table, lru, owner)
  {
    hide TableOk, QueuedOk, QueuesOnce;
    assert TableOk(mem[p := n], table) by { KeptTable(mem, table, p, n); }
    assert QueuedOk(mem[p := n], lru) by { KeptQueue(mem, lru, p, n); }
  }

  // An item no table and no queue knows is filled in, or edited otherwise.
  lemma EditUnlinked(mem: map<Ptr, Item>, table: map<Key, Ptr>, lru: map<Queue, seq<Ptr>>, owner: map<nat, nat>,
      p: Ptr, n: Item)
    requires !LinkedIn(mem, p) && !n.flags.linked && (n.flags.slabbed || n.clsid == 0 || n.clsid == OwnerIn(owner, p))
    requires Links(mem, table, lru, owner)
    ensures Links(mem[p := n], table, lru, owner)
  {
    hide TableOk, QueuedOk, QueuesOnce;
    KeptTable(mem, table, p, n);
    KeptQueue(mem, lru, p, n);
  }

  lemma LinkedFacts(mem: map<Ptr, Item>, table: map<Key, Ptr>, lru: map<Queue, seq<Ptr>>, owner: map<nat, nat>, p: Ptr)
    requires Links(mem, table, lru, owner) && p in mem
    ensures mem[p].flags.linked ==> FilledIn(mem, p) && mem[p].key in table && table[mem[p].key] == p
    ensures FilledIn(mem, p) ==> mem[p].clsid == OwnerIn(owner, p)
  {
  }

  // do_item_link and do_item_unlink
  lemma LinkLinks(mem: map<Ptr, Item>, table: map<Key, Ptr>, lru: map<Queue, seq<Ptr>>, owner: map<nat, nat>, p: Ptr,
      n: Item)
    requires Links(mem, table, lru, owner)
    requires !LinkedIn(mem, p) && n.flags.linked && n.key !in table
    requires !n.flags.slabbed && n.clsid != 0 && n.clsid == OwnerIn(owner, p)
    ensures Links(mem[p := n], table[n.key := p], PushQueue(lru, n.Home(), p), owner)
  {
    hide TableOk, QueuedOk, QueuesOnce;
    LinkTable(mem, table, p, n);
    LinkLru(mem, lru, p, n);
  }

  lemma UnlinkLinks(mem: map<Ptr, Item>, table: map<Key, Ptr>, lru: map<Queue, seq<Ptr>>, owner: map<nat, nat>,
      p: Ptr, n: Item)
    requires Links(mem, table, lru, owner)
    requires LinkedIn(mem, p) && !n.flags.linked && n.key == mem[p].key && n.clsid == mem[p].clsid
    ensures Links(mem[p := n], table - {n.key}, EraseQueue(lru, mem[p].Home(), p), owner)
  {
    hide TableOk, QueuedOk, QueuesOnce;
    UnlinkTable(mem, table, p, n);
    UnlinkLru(mem, lru, p, n);
  }
}
