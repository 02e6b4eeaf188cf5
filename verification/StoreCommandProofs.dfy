// The storage commands refine a map with versions.
module StoreCommandProofs {
  import opened Memory
  import opened Linkage
  import opened CacheSpec
  import opened LruPull
  import opened LruPullProofs
  import opened Decimal
  import opened Store
  import opened StoreProofs
  import opened StoreBackground
  import opened StoreCommand

  // ---- what the pieces do to answers ----

  // The entry of a key is the same item, with the same content and stamp.
  ghost predicate SameEntry(c: Cache, c1: Cache, key: Key) {
    && (key in c1.table <==> key in c.table)
    && (key in c.table ==>
          var p := c.table[key];
          && c1.table[key] == p && p in c.mem && p in c1.mem && c1.mem[p].content == c.mem[p].content
          && c1.mem[p].flags.cas == c.mem[p].flags.cas && StampOf(c1.stamps, p) == StampOf(c.stamps, p))
  }

  lemma SameAnswer(c: Cache, c1: Cache, env: Env, key: Key)
    requires SameEntry(c, c1, key)
    ensures Answer(c1, env, key) == Answer(c, env, key)
  {
    hide Flushed;
  }

  // Item p is written, and the table keeps its other entries.
  lemma EditEntries(c: Cache, c1: Cache, p: Ptr, key: Key)
    requires Coherent(c) && OthersSame(c, c1, p)
    requires (key in c1.table <==> key in c.table) && (key in c.table ==> c1.table[key] == c.table[key] != p)
    ensures SameEntry(c, c1, key)
  {
    if key in c.table { TableHere(c, key); }
  }

  // Everything a command may assume, and leaves as it was.
  ghost predicate Sound(c: Cache, env: Env) { Coherent(c) && Timely(c, env) && CasOk(c, env) && env.now >= 2 }

  lemma MinorSound(c: Cache, c1: Cache, env: Env, p: Ptr)
    requires Sound(c, env) && Minor(c, c1, env, p) && c1.mem.Keys == c.mem.Keys
    ensures Sound(c1, env)
  {
    hide Coherent, Timely, CasOk, Minor;
    var w := World(c, env, map[], map[], map[], map[]);
    NoneBusy(c);
    hide BusyOk, AllTraced;
    MinorOk(w, c1, Null, p);
  }

  // ---- do_item_get ----

  lemma GetFound(c: Cache, env: Env, key: Key)
    requires Sound(c, env) && key in c.table && Alive(c, env, c.table[key])
    ensures Usable(c, c.table[key])
    ensures var (c1, p) := Get(c, env, key);
      && p == c.table[key] && p != Null && Sound(c1, env) && LinkedIn(c1.mem, p) && c1.table == c.table
          && c1.casId == c.casId
      && c1.mem[p].content == c.mem[p].content && c1.mem[p].key == key && CasOf(c1, p) == CasOf(c, p)
          && Alive(c1, env, p)
      && OthersSame(c, c1, p) && Others(c1.mem, p) == Others(c.mem, p) + 1 && c1.mem.Keys == c.mem.Keys
  {
    TableHere(c, key);
    var p := c.table[key];
    LinkedHere(c, p);
    NotNullAt(c);
    TimeAt(c, env, p);
    CasFacts(c, env, p);
    hide Coherent, Timely, CasOk, Flushed;
    var it := c.mem[p];
    var c1 := Get(c, env, key).0;
    EditCoherent(c, p, c1.mem[p]);
    CasOkEdit(c, c1, env, p);
    TimelyEdit(c, c1, env, p);
  }

  lemma GetMissing(c: Cache, env: Env, key: Key)
    requires Sound(c, env) && Answer(c, env, key).None?
    ensures key in c.table ==> Usable(c, c.table[key])
    ensures var (c1, p) := Get(c, env, key);
      && p == Null && Sound(c1, env) && key !in c1.table && c1.casId == c.casId && c1.mem.Keys == c.mem.Keys
      && (forall k :: k != key ==> SameEntry(c, c1, k))
      && (forall x :: x in c.mem ==> Others(c1.mem, x) == Others(c.mem, x))
      && (forall x :: x in c.mem && !LinkedIn(c.mem, x) ==> c1.mem[x] == c.mem[x])
  {
    hide Coherent, Timely, CasOk, Flushed, Others, Drop, Unlink, Minor, Gone, SameEntry;
    if key in c.table {
      TableHere(c, key);
      LinkedHere(c, c.table[key]);
      GoneEntries(c, env, key);
      GetIsGone(c, env, key);
    } else {
      forall k ensures SameEntry(c, c, k) { SelfEntry(c, k); }
    }
  }

  lemma GetIsGone(c: Cache, env: Env, key: Key)
    requires key in c.table && Usable(c, c.table[key]) && !Alive(c, env, c.table[key])
    ensures Get(c, env, key) == (Gone(c, c.table[key]), Null)
  {
    hide Drop, Unlink, Flushed;
  }

  lemma SelfEntry(c: Cache, k: Key)
    requires Coherent(c)
    ensures SameEntry(c, c, k)
  {
    if k in c.table { TableHere(c, k); }
  }

  lemma GoneEntries(c: Cache, env: Env, key: Key)
    requires Sound(c, env) && key in c.table
    ensures Usable(c, c.table[key])
    ensures var g := Gone(c, c.table[key]);
      && Sound(g, env) && key !in g.table && g.casId == c.casId && g.mem.Keys == c.mem.Keys
      && (forall k :: k != key ==> SameEntry(c, g, k))
      && (forall x :: x in c.mem ==> Others(g.mem, x) == Others(c.mem, x))
      && (forall x :: x in c.mem && !LinkedIn(c.mem, x) ==> g.mem[x] == c.mem[x])
  {
    hide Coherent, Timely, CasOk, Others, Minor, Gone, SameEntry;
    TableHere(c, key);
    var p := c.table[key];
    GoneMinor(c, env, p);
    var g := Gone(c, p);
    MinorSound(c, g, env, p);
    GoneCoherent(c, p);
    GoneEffect(c, p);
    forall k | k != key ensures SameEntry(c, g, k) {
      if k in c.table { TableHere(c, k); }
      EditEntries(c, g, p, k);
    }
    forall x | x in c.mem ensures Others(g.mem, x) == Others(c.mem, x) { if x != p { SameOthers(c, g, x); } }
  }

  lemma SameOthers(c: Cache, c1: Cache, x: Ptr)
    requires x in c.mem && x in c1.mem && c1.mem[x] == c.mem[x]
    ensures Others(c1.mem, x) == Others(c.mem, x)
  {
  }

  // ---- do_item_remove, do_item_update ----

  lemma ReleaseKeeps(c: Cache, env: Env, p: Ptr)
    requires Sound(c, env) && p in c.mem && !c.mem[p].flags.slabbed && Others(c.mem, p) > 0
    ensures var c1 := Release(c, p);
      && Sound(c1, env) && c1.table == c.table && c1.stamps == c.stamps && c1.casId == c.casId
          && c1.mem.Keys == c.mem.Keys
      && OthersSame(c, c1, p) && Others(c1.mem, p) == Others(c.mem, p) - 1
      && (forall k :: SameEntry(c, c1, k))
      && (LinkedIn(c.mem, p) ==> c1.mem[p] == c.mem[p].(refcount := c.mem[p].refcount - 1))
  {
    hide Coherent, Timely, CasOk, SameEntry, Minor;
    var c1 := Release(c, p);
    ReleaseMinor(c, env, p);
    MinorSound(c, c1, env, p);
    forall k ensures SameEntry(c, c1, k) {
      if k in c.table { TableHere(c, k); }
      DropEntry(c, c1, k, p);
    }
  }

  lemma ReleaseMinor(c: Cache, env: Env, p: Ptr)
    requires Sound(c, env) && p in c.mem && !c.mem[p].flags.slabbed && Others(c.mem, p) > 0
    ensures Minor(c, Release(c, p), env, p) && Others(Release(c, p).mem, p) == Others(c.mem, p) - 1
    ensures c.mem[p].refcount > 0 && (LinkedIn(c.mem, p) ==> c.mem[p].refcount > 1)
  {
    hide Coherent, Timely, CasOk;
    DropCoherent(c, p);
    TimeAt(c, env, p);
  }

  lemma DropEntry(c: Cache, c1: Cache, k: Key, p: Ptr)
    requires OthersSame(c, c1, p) && c1.table == c.table && c1.stamps == c.stamps && p in c.mem && p in c1.mem
    requires k in c.table ==> LinkedIn(c.mem, c.table[k])
    requires LinkedIn(c.mem, p) ==> c1.mem[p] == c.mem[p].(refcount := c1.mem[p].refcount)
    ensures SameEntry(c, c1, k)
  {
  }

  // A live item that is bumped answers as before.
  lemma UpdateKeeps(c: Cache, env: Env, p: Ptr)
    requires Sound(c, env) && LinkedIn(c.mem, p) && Alive(c, env, p)
    ensures var c1 := Update(c, env, p);
      && Sound(c1, env) && c1.table == c.table && c1.casId == c.casId && c1.mem.Keys == c.mem.Keys
          && LinkedIn(c1.mem, p)
      && (forall k :: Answer(c1, env, k) == Answer(c, env, k))
      && (forall x :: x in c.mem ==> Others(c1.mem, x) == Others(c.mem, x)) && !c1.mem[p].flags.slabbed
  {
    hide Coherent, Timely, CasOk, Minor, Answer;
    UpdateMinor(c, env, p);
    var c1 := Update(c, env, p);
    MinorSound(c, c1, env, p);
    LinkedHere(c1, p);
    UpdateFrame(c, env, p);
    UpdateAlive(c, env, p);
    hide Update, Alive;
    forall k ensures Answer(c1, env, k) == Answer(c, env, k) {
      if k in c.table { TableHere(c, k); }
      UpdateAnswer(c, c1, env, k, p);
    }
  }

  lemma UpdateAnswer(c: Cache, c1: Cache, env: Env, k: Key, p: Ptr)
    requires OthersSame(c, c1, p) && c1.table == c.table && p in c.mem && p in c1.mem
        && c1.mem[p].content == c.mem[p].content
    requires k in c.table ==> c.table[k] in c.mem
    requires Alive(c1, env, p) == Alive(c, env, p)
    ensures Answer(c1, env, k) == Answer(c, env, k)
  {
    hide Alive;
    if k in c.table && c.table[k] != p { AliveSame(c, c1, env, c.table[k]); }
  }

  lemma UpdateFrame(c: Cache, env: Env, p: Ptr)
    requires p in c.mem
    ensures OthersSame(c, Update(c, env, p), p) && Update(c, env, p).casId == c.casId
    ensures forall x :: x in c.mem ==> Others(Update(c, env, p).mem, x) == Others(c.mem, x)
  {
    hide PushQueue, EraseQueue;
  }

  lemma UpdateAlive(c: Cache, env: Env, p: Ptr)
    requires Timely(c, env) && LinkedIn(c.mem, p) && Alive(c, env, p)
    ensures Alive(Update(c, env, p), env, p)
  {
    TimeAt(c, env, p);
    hide PushQueue, EraseQueue, Timely;
    StillUnflushed(env, TimeOf(c, p), env.now, CasOf(c, p));
    hide Flushed;
  }

  // ---- do_item_link, do_item_replace ----

  // Whether an item linked now can be got: it can not when its expiry time has come, or a flush is due this second.
  ghost predicate Shown(env: Env, casId: nat, content: Content) {
    !ExpiredNow(env, content.exptime) && !Flushed(env, env.now, if env.useCas then casId + 1 else 0)
  }

  ghost function Told(env: Env, casId: nat, content: Content): Option<Content> {
    if Shown(env, casId, content) then Some(content) else None
  }

  // Item p now holds the key.
  ghost predicate Holds(c: Cache, c1: Cache, env: Env, key: Key, content: Content, p: Ptr) {
    && key in c1.table && c1.table[key] == p && LinkedIn(c1.mem, p) && c1.mem[p].content == content
        && !c1.mem[p].flags.slabbed
    && Answer(c1, env, key) == Told(env, c.casId, content)
    && CasOf(c1, p) == (if env.useCas then c.casId + 1 else 0)
    && c1.casId == if env.useCas then c.casId + 1 else c.casId
  }

  lemma LinkHolds(c: Cache, env: Env, p: Ptr)
    requires Sound(c, env) && FilledIn(c.mem, p) && !c.mem[p].flags.linked
    ensures Holds(c, Link(c, env, p), env, c.mem[p].key, c.mem[p].content, p)
  {
    CasFacts(c, env, p);
    hide Coherent, Timely, CasOk, PushQueue;
  }

  lemma LinkKeeps(c: Cache, env: Env, p: Ptr)
    requires Sound(c, env) && FilledIn(c.mem, p) && !c.mem[p].flags.linked && c.mem[p].key !in c.table
    ensures var c1 := Link(c, env, p);
      && Sound(c1, env) && c1.mem.Keys == c.mem.Keys && Holds(c, c1, env, c.mem[p].key, c.mem[p].content, p)
      && OthersSame(c, c1, p) && (forall k :: k != c.mem[p].key ==> SameEntry(c, c1, k))
      && Others(c1.mem, p) == Others(c.mem, p)
  {
    hide Coherent, Timely, CasOk, PushQueue, SameEntry, Holds;
    LinkOk(c, env, p);
    LinkHolds(c, env, p);
    var c1 := Link(c, env, p);
    forall k | k != c.mem[p].key ensures SameEntry(c, c1, k) {
      if k in c.table { TableHere(c, k); }
      EditEntries(c, c1, p, k);
    }
  }

  lemma UnlinkKeeps(c: Cache, env: Env, p: Ptr)
    requires Sound(c, env) && LinkedIn(c.mem, p)
    ensures Usable(c, p)
    ensures var c1 := Unlink(c, p);
      && Sound(c1, env) && c1.mem.Keys == c.mem.Keys && c1.casId == c.casId && c1.table == c.table - {c.mem[p].key}
      && OthersSame(c, c1, p) && (forall k :: k != c.mem[p].key ==> SameEntry(c, c1, k)) && !LinkedIn(c1.mem, p)
      && Others(c1.mem, p) == Others(c.mem, p) && (Others(c.mem, p) > 0 ==> !c1.mem[p].flags.slabbed)
  {
    hide Coherent, Timely, CasOk, Unlink, SameEntry, Minor, Others;
    LinkedHere(c, p);
    UnlinkMinor(c, env, p);
    UnlinkCoherent(c, p);
    UnlinkEffect(c, p);
    var c1 := Unlink(c, p);
    MinorSound(c, c1, env, p);
    UnlinkFree(c, p);
    forall k | k != c.mem[p].key ensures SameEntry(c, c1, k) {
      if k in c.table { TableHere(c, k); }
      EditEntries(c, c1, p, k);
    }
  }

  lemma UnlinkFree(c: Cache, p: Ptr)
    requires Usable(c, p) && !c.mem[p].flags.slabbed
    ensures p in Unlink(c, p).mem && (Others(c.mem, p) > 0 ==> !Unlink(c, p).mem[p].flags.slabbed)
  {
    hide EraseQueue;
  }

  lemma EntryTwice(c: Cache, c1: Cache, c2: Cache, k: Key)
    requires SameEntry(c, c1, k) && SameEntry(c1, c2, k)
    ensures SameEntry(c, c2, k)
  {
  }

  lemma SwapKeeps(c: Cache, env: Env, p: Ptr, q: Ptr)
    requires Sound(c, env) && LinkedIn(c.mem, p) && Others(c.mem, p) > 0 && q != p
    requires FilledIn(c.mem, q) && !c.mem[q].flags.linked && c.mem[q].key == c.mem[p].key
    ensures var c1 := SwapIn(c, env, p, q); var k := c.mem[p].key;
      && Sound(c1, env) && c1.mem.Keys == c.mem.Keys && Holds(c, c1, env, k, c.mem[q].content, q)
      && (forall j :: j != k ==> SameEntry(c, c1, j))
      && (forall x :: x in c.mem ==> Others(c1.mem, x) == Others(c.mem, x))
      && p in c1.mem && !c1.mem[p].flags.slabbed && !LinkedIn(c1.mem, p)
  {
    hide Coherent, Timely, CasOk, Unlink, Link, SameEntry, Others, Flushed, Alive;
    UnlinkKeeps(c, env, p);
    var c1 := Unlink(c, p);
    LinkKeeps(c1, env, q);
    var c2 := Link(c1, env, q);
    forall j | j != c.mem[p].key ensures SameEntry(c, c2, j) { EntryTwice(c, c1, c2, j); }
    forall x | x in c.mem ensures Others(c2.mem, x) == Others(c.mem, x) {
      if x != p { SameOthers(c, c1, x); }
      if x != q { SameOthers(c1, c2, x); }
    }
  }

  // ---- do_item_alloc ----

  // What allocation may do to the rest of the cache: items are dropped, never changed, and none with the caller's
  // hash.
  ghost predicate Weaker(c: Cache, c1: Cache, env: Env, w: Want) {
    && Sound(c1, env) && c1.casId == c.casId && c1.mem.Keys == c.mem.Keys
    && (forall k :: Answer(c1, env, k).Some? ==> Answer(c1, env, k) == Answer(c, env, k))
    && (forall k :: w.h(k) == w.hv && k in c.table ==> SameEntry(c, c1, k) && c1.mem[c.table[k]] == c.mem[c.table[k]])
    && (forall k :: k in c1.table ==> k in c.table)
    && (forall x :: x in c.mem ==> Others(c1.mem, x) == Others(c.mem, x))
    && (forall x :: x in c.mem && !LinkedIn(c.mem, x) ==> c1.mem[x] == c.mem[x])
  }

  lemma WeakerSelf(c: Cache, env: Env, w: Want)
    requires Sound(c, env)
    ensures Weaker(c, c, env, w)
  {
    hide Answer, Others, SameEntry;
    forall k ensures SameEntry(c, c, k) {
      SelfEntry(c, k);
    }
    forall k | k in c.table ensures c.table[k] in c.mem { TableHere(c, k); }
    hide Coherent, Timely, CasOk;
  }

  lemma WeakerTwice(c: Cache, c1: Cache, c2: Cache, env: Env, w: Want)
    requires Weaker(c, c1, env, w) && Weaker(c1, c2, env, w)
    ensures Weaker(c, c2, env, w)
  {
    hide Sound, Answer, Others;
    forall k | w.h(k) == w.hv && k in c.table ensures SameEntry(c, c2, k) && c2.mem[c.table[k]] == c.mem[c.table[k]] {
      EntryTwice(c, c1, c2, k);
    }
    hide SameEntry;
    forall x | x in c.mem && !LinkedIn(c.mem, x) ensures c2.mem[x] == c.mem[x] { assert c1.mem[x] == c.mem[x]; }
  }

  lemma PullWeaker(c: Cache, env: Env, w: Want, s: Supply, i: nat, seg: Segment, evict: bool)
    requires Sound(c, env)
    ensures Weaker(c, PullFor(c, env, w, s, i, seg, evict), env, w)
  {
    hide Coherent, Timely, CasOk, PullTail, PullOk, Visible, Answer, Others, SameEntry, Limit;
    var total := if env.maintainer then s.total(i) else 0;
    var o := Oracle(w.h, s.locks(i));
    var call := Call(Queue(w.clsid, seg), Limit(env, total), evict, w.hv);
    var r := PullTail(c, env, o, call);
    PullTailOk(c, env, o, call);
    PullCoherent(c, env, o, call, TRIES, r);
    PullCas(c, env, o, call, r);
    PullSubset(c, env, o, call, r);
    PullAnswers(c, env, o, call);
    forall k | w.h(k) == w.hv && k in c.table
      ensures SameEntry(c, r.c, k) && c.table[k] in c.mem && c.table[k] in r.c.mem
          && r.c.mem[c.table[k]] == c.mem[c.table[k]]
    {
      OwnEntry(c, env, o, call, r, k);
    }
    forall x | x in c.mem
      ensures x in r.c.mem && Others(r.c.mem, x) == Others(c.mem, x)
      ensures !LinkedIn(c.mem, x) ==> r.c.mem[x] == c.mem[x]
    {
      PullItem(c, env, o, call, r, x);
    }
  }

  lemma PullAnswers(c: Cache, env: Env, o: Oracle, call: Call)
    requires Coherent(c) && Timely(c, env)
    ensures var r := PullTail(c, env, o, call);
      forall k :: Answer(r.c, env, k).Some? ==> Answer(r.c, env, k) == Answer(c, env, k)
  {
    hide Coherent, Timely, PullTail, Visible, Answer;
    PullVisible(c, env, o, call);
    var r := PullTail(c, env, o, call);
    forall k | Answer(r.c, env, k).Some? ensures Answer(r.c, env, k) == Answer(c, env, k) {
      AnswerIs(c, env, k);
      AnswerIs(r.c, env, k);
    }
  }

  lemma AnswerIs(c: Cache, env: Env, k: Key)
    ensures Answer(c, env, k) == if k in Visible(c, env) then Some(Visible(c, env)[k]) else None
  {
    hide Alive;
  }

  lemma PullItem(c: Cache, env: Env, o: Oracle, call: Call, r: Turn, x: Ptr)
    requires PullOk(c, env, o, call, TRIES, r) && x in c.mem
    ensures x in r.c.mem && Others(r.c.mem, x) == Others(c.mem, x) && (!LinkedIn(c.mem, x) ==> r.c.mem[x] == c.mem[x])
  {
    hide Coherent, Timely, TableShrinks, OwnKept, VictimOk, AllKept, StaysLinked, Others, QueueIn;
    AllAt(c, r.c, env, x);
  }

  lemma PullSubset(c: Cache, env: Env, o: Oracle, call: Call, r: Turn)
    requires PullOk(c, env, o, call, TRIES, r)
    ensures r.c.casId == c.casId && r.c.mem.Keys == c.mem.Keys && forall k :: k in r.c.table ==> k in c.table
  {
    hide Coherent, Timely, OwnKept, VictimOk, AllKept, QueueIn, Dead;
  }

  lemma OwnEntry(c: Cache, env: Env, o: Oracle, call: Call, r: Turn, k: Key)
    requires Coherent(c) && PullOk(c, env, o, call, TRIES, r) && k in c.table && o.h(k) == call.curHv
    ensures SameEntry(c, r.c, k) && c.table[k] in c.mem && c.table[k] in r.c.mem
        && r.c.mem[c.table[k]] == c.mem[c.table[k]]
  {
    TableHere(c, k);
    hide Timely, TableShrinks, VictimOk, AllKept, QueueIn;
    assert OffLimits(c, o, call, c.table[k]);
    LinkedHere(r.c, c.table[k]);
    hide Coherent;
  }

  lemma {:induction false} AllocKeeps(c: Cache, env: Env, w: Want, s: Supply, i: nat)
    requires Sound(c, env)
    ensures var (c1, p) := AllocTry(c, env, w, s, i); Weaker(c, c1, env, w) && (p != Null ==> Spare(c1, p))
    decreases ALLOC_TRIES - i
  {
    hide Sound, Weaker, PullFor;
    WeakerSelf(c, env, w);
    if i < ALLOC_TRIES {
      var c1 := if env.maintainer then c else PullFor(c, env, w, s, 4 * i, Cold, false);
      PullWeaker(c, env, w, s, 4 * i, Cold, false);
      WeakerSound(c, c1, env, w);
      if !Spare(c1, s.chunk(i)) {
        var c2 := if env.maintainer then PullFor(c1, env, w, s, 4 * i + 1, Hot, false) else c1;
        PullWeaker(c1, env, w, s, 4 * i + 1, Hot, false);
        WeakerSelf(c1, env, w);
        WeakerSound(c1, c2, env, w);
        var c3 := if env.maintainer then PullFor(c2, env, w, s, 4 * i + 2, Warm, false) else c2;
        PullWeaker(c2, env, w, s, 4 * i + 2, Warm, false);
        WeakerSelf(c2, env, w);
        WeakerSound(c2, c3, env, w);
        var n := if env.maintainer then 4 * i + 3 else 4 * i + 1;
        var c4 := PullFor(c3, env, w, s, n, Cold, true);
        PullWeaker(c3, env, w, s, n, Cold, true);
        WeakerSound(c3, c4, env, w);
        AllocKeeps(c4, env, w, s, i + 1);
        WeakerTwice(c, c1, c2, env, w);
        WeakerTwice(c, c2, c3, env, w);
        WeakerTwice(c, c3, c4, env, w);
        WeakerTwice(c, c4, AllocTry(c4, env, w, s, i + 1).0, env, w);
      }
    }
  }

  lemma WeakerSound(c: Cache, c1: Cache, env: Env, w: Want)
    requires Weaker(c, c1, env, w)
    ensures Sound(c1, env)
  {
    hide Sound, Answer, Others, SameEntry;
  }
}
