// What becomes of dead items, and of live ones, when a get or the crawler comes by.
module LazyExpiry {
  import opened Memory
  import opened Linkage
  import opened CacheSpec
  import opened LruPull
  import opened LruPullProofs
  import opened LruTurns
  import Store

  // What do_item_get does: a dead item is unlinked, any other gets a reference and is marked fetched and active.
  ghost predicate GetMeans(c: Cache, env: Env, key: Key, z: Cache, r: Ptr) {
    if key !in c.table then z == c && r == Null
    else
      var p := c.table[key];
      && p in c.mem
      && var it := c.mem[p];
      if (it.content.exptime != 0 && it.content.exptime <= env.now) || IsFlushed(c, env, p)
      then r == Null && Unlinked(c, z, p)
      else
        && r == p && z == c.(mem := z.mem) && z.mem.Keys == c.mem.Keys
        && (forall x :: x in c.mem && x != p ==> z.mem[x] == c.mem[x])
        && z.mem[p] == it.(refcount := z.mem[p].refcount, flags := z.mem[p].flags)
        && z.mem[p].refcount == it.refcount + 1 && z.mem[p].flags.fetched && z.mem[p].flags.active
        && z.mem[p].flags == it.flags.(fetched := true, active := true)
  }

  lemma GetDoes(c: Cache, env: Env, key: Key)
    requires Coherent(c)
    ensures key in c.table ==> Usable(c, c.table[key])
    ensures var (z, r) := Get(c, env, key); GetMeans(c, env, key, z, r)
  {
    if key in c.table {
      var p := c.table[key];
      TableHere(c, key);
      GoneIs(c, p);
      hide Coherent, Flushed, Unlinked, Drop, Unlink;
    }
  }

  // The crawler reclaims what is over, by a test one second later than that of do_item_get, and touches nothing else.
  lemma CrawlDoes(c: Cache, env: Env, p: Ptr)
    requires Coherent(c) && LinkedIn(c.mem, p)
    ensures Usable(c, p)
    ensures var z := Store.Crawl(c, env, p); if Over(c, env, p) then Unlinked(c, z, p) else z == c
  {
    GoneIs(c, p);
    hide Coherent, Flushed, Unlinked, Drop, Unlink;
  }
}
