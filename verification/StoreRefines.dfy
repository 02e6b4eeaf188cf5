// do_store_item does to a map with versions what the protocol says.
module StoreRefines {
  import opened Memory
  import opened Linkage
  import opened CacheSpec
  import opened LruPull
  import opened LruPullProofs
  import opened Decimal
  import opened Store
  import opened StoreProofs
  import opened StoreBackground
  import opened StoreCommand
  import opened StoreCommandProofs

  function Version(c: Cache, key: Key): nat { if key in c.table then CasOf(c, c.table[key]) else 0 }

  // What every command leaves as it was: other keys answer as before, and all items have the references they had.
  ghost predicate Rest(c: Cache, c1: Cache, env: Env, key: Key) {
    && Sound(c1, env) && (forall k :: k != key ==> Answer(c1, env, k) == Answer(c, env, k))
    && forall x :: x in c.mem ==> x in c1.mem && Others(c1.mem, x) == Others(c.mem, x)
  }

  // A reference of ours on p is outstanding.
  ghost predicate Owing(c: Cache, c1: Cache, p: Ptr) {
    && p in c1.mem && !c1.mem[p].flags.slabbed
    && (p in c.mem ==> Others(c1.mem, p) == Others(c.mem, p) + 1) && Others(c1.mem, p) > 0
    && forall x :: x in c.mem && x != p ==> x in c1.mem && Others(c1.mem, x) == Others(c.mem, x)
  }

  ghost predicate AnswersElse(c: Cache, c1: Cache, env: Env, key: Key) {
    forall k :: k != key ==> Answer(c1, env, k) == Answer(c, env, k)
  }

  // Giving the reference back settles it.
  lemma Settle(c: Cache, c1: Cache, env: Env, key: Key, p: Ptr)
    requires Sound(c1, env) && Owing(c, c1, p) && p in c.mem && AnswersElse(c, c1, env, key)
    ensures var c2 := Release(c1, p);
      && Rest(c, c2, env, key) && Answer(c2, env, key) == Answer(c1, env, key) && c2.casId == c1.casId
          && c2.table == c1.table
      && c2.stamps == c1.stamps && OthersSame(c1, c2, p) && p in c2.mem
      && (LinkedIn(c1.mem, p) ==> c2.mem[p] == c1.mem[p].(refcount := c1.mem[p].refcount - 1))
  {
    hide Sound, Answer, Others, SameEntry, Release;
    ReleaseKeeps(c1, env, p);
    var c2 := Release(c1, p);
    forall k ensures Answer(c2, env, k) == Answer(c1, env, k) { SameAnswer(c1, c2, env, k); }
    forall x | x in c.mem ensures x in c2.mem && Others(c2.mem, x) == Others(c.mem, x) {
      if x != p { SameOthers(c1, c2, x); }
    }
  }

  // ---- the key has a live item ----

  // do_item_get has answered with p.
  ghost predicate Got(c: Cache, c1: Cache, env: Env, key: Key, p: Ptr) {
    && Sound(c, env) && Sound(c1, env) && key in c.table && c.table[key] == p && LinkedIn(c1.mem, p)
        && Owing(c, c1, p) && p in c.mem
    && c1.casId == c.casId && c1.mem.Keys == c.mem.Keys && c1.table == c.table && c1.mem[p].key == key
        && Alive(c1, env, p)
    && CasOf(c1, p) == CasOf(c, p) && Answer(c, env, key) == Some(c1.mem[p].content)
    && (forall k :: Answer(c1, env, k) == Answer(c, env, k))
    && forall x :: x in c.mem && x != p ==> c1.mem[x] == c.mem[x]
  }

  lemma GetGot(c: Cache, env: Env, key: Key)
    requires Sound(c, env) && Answer(c, env, key).Some?
    ensures key in c.table ==> Usable(c, c.table[key])
    ensures key in c.table && Get(c, env, key).1 == c.table[key] && c.table[key] != Null
    ensures Got(c, Get(c, env, key).0, env, key, c.table[key])
  {
    hide Sound, Alive, Others, SameEntry, Get;
    assert key in c.table;
    TableSound(c, env, key);
    assert Answer(c, env, key) == Some(c.mem[c.table[key]].content);
    GetFound(c, env, key);
    var (c1, p) := Get(c, env, key);
    hide Answer;
    SoundLinked(c1, env, p);
    SoundLinked(c, env, p);
    forall k ensures Answer(c1, env, k) == Answer(c, env, k) { GotAnswer(c, c1, env, k, p); }
    forall x | x in c.mem && x != p ensures Others(c1.mem, x) == Others(c.mem, x) { SameOthers(c, c1, x); }
  }

  lemma TableSound(c: Cache, env: Env, key: Key)
    requires Sound(c, env) && key in c.table
    ensures LinkedIn(c.mem, c.table[key]) && c.mem[c.table[key]].key == key
  {
    TableHere(c, key);
  }

  lemma SoundLinked(c: Cache, env: Env, p: Ptr)
    requires Sound(c, env) && LinkedIn(c.mem, p)
    ensures Others(c.mem, p) >= 0 && !c.mem[p].flags.slabbed && c.mem[p].clsid != 0
  {
    LinkedHere(c, p);
  }

  lemma GotAlive(c: Cache, c1: Cache, env: Env, key: Key, p: Ptr)
    requires Got(c, c1, env, key, p)
    ensures Alive(c1, env, p)
  {
    hide Sound, Answer, Others, Alive;
  }

  lemma GotAnswer(c: Cache, c1: Cache, env: Env, k: Key, p: Ptr)
    requires Sound(c, env) && OthersSame(c, c1, p) && c1.table == c.table && p in c.mem && p in c1.mem
    requires c1.mem[p].content == c.mem[p].content && Alive(c1, env, p) && Alive(c, env, p)
    ensures Answer(c1, env, k) == Answer(c, env, k)
  {
    if k in c.table { TableSound(c, env, k); }
    hide Alive, Sound;
    if k in c.table && c.table[k] != p { AliveSame(c, c1, env, c.table[k]); }
  }

  // add on a live item only bumps it.
  lemma AddFound(c: Cache, c1: Cache, env: Env, key: Key, p: Ptr)
    requires Got(c, c1, env, key, p)
    ensures p in c1.mem
    ensures var c2 := Release(Update(c1, env, p), p);
      Rest(c, c2, env, key) && Answer(c2, env, key) == Answer(c, env, key)
  {
    hide Sound, Answer, Others, Alive, Release, Update;
    UpdateKeeps(c1, env, p);
    var c2 := Update(c1, env, p);
    UpdateKeys(c, c1, c2, p);
    assert AnswersElse(c, c2, env, key);
    Settle(c, c2, env, key, p);
  }

  lemma UpdateKeys(c: Cache, c1: Cache, c2: Cache, p: Ptr)
    requires Owing(c, c1, p) && c2.mem.Keys == c1.mem.Keys && !(p in c2.mem && c2.mem[p].flags.slabbed)
    requires forall x :: x in c1.mem ==> Others(c2.mem, x) == Others(c1.mem, x)
    ensures Owing(c, c2, p)
  {
    hide Others;
  }

  // Nothing is stored.
  lemma RefuseFound(c: Cache, c1: Cache, env: Env, key: Key, p: Ptr)
    requires Got(c, c1, env, key, p)
    ensures var c2 := Release(c1, p); Rest(c, c2, env, key) && Answer(c2, env, key) == Answer(c, env, key)
  {
    hide Sound, Answer, Others, Alive, Release;
    assert AnswersElse(c, c1, env, key);
    Settle(c, c1, env, key, p);
  }

  // What a stored item looks like afterwards.
  ghost predicate StoredAs(c: Cache, c1: Cache, env: Env, key: Key, content: Content, q: Ptr) {
    && key in c1.table && c1.table[key] == q && q in c1.mem && c1.mem[q].content == content
    && Answer(c1, env, key) == Told(env, c.casId, content)
    && c1.casId == (if env.useCas then c.casId + 1 else c.casId)
    && CasOf(c1, q) == if env.useCas then c.casId + 1 else 0
  }

  lemma ReplaceFound(c: Cache, c1: Cache, env: Env, key: Key, p: Ptr, q: Ptr)
    requires Got(c, c1, env, key, p) && q != p && FilledIn(c1.mem, q) && !c1.mem[q].flags.linked && c1.mem[q].key == key
    ensures var c2 := Release(SwapIn(c1, env, p, q), p);
      Rest(c, c2, env, key) && StoredAs(c, c2, env, key, c1.mem[q].content, q) && Others(c2.mem, q) == Others(c1.mem, q)
  {
    hide Sound, Answer, Others, Alive, Release, SwapIn, SameEntry, Told;
    SwapKeeps(c1, env, p, q);
    var c2 := SwapIn(c1, env, p, q);
    UpdateKeys(c, c1, c2, p);
    forall k | k != key ensures Answer(c2, env, k) == Answer(c, env, k) { SameAnswer(c1, c2, env, k); }
    Settle(c, c2, env, key, p);
    ReleaseOther(c2, Release(c2, p), p, q);
  }

  lemma ReleaseOther(c: Cache, c1: Cache, p: Ptr, q: Ptr)
    requires OthersSame(c, c1, p) && q != p && q in c.mem
    ensures q in c1.mem && c1.mem[q] == c.mem[q] && CasOf(c1, q) == CasOf(c, q) && Others(c1.mem, q) == Others(c.mem, q)
  {
  }

  // ---- the key has no live item ----

  ghost predicate Missed(c: Cache, c1: Cache, env: Env, key: Key) {
    && Sound(c1, env) && key !in c1.table && c1.casId == c.casId && c1.mem.Keys == c.mem.Keys
    && (forall k :: k != key ==> Answer(c1, env, k) == Answer(c, env, k))
    && (forall x :: x in c.mem ==> Others(c1.mem, x) == Others(c.mem, x))
    && forall x :: x in c.mem && !LinkedIn(c.mem, x) ==> c1.mem[x] == c.mem[x]
  }

  lemma GetMissed(c: Cache, env: Env, key: Key)
    requires Sound(c, env) && Answer(c, env, key).None?
    ensures key in c.table ==> Usable(c, c.table[key])
    ensures Get(c, env, key).1 == Null && Missed(c, Get(c, env, key).0, env, key)
  {
    hide Sound, Answer, Others, SameEntry, Get;
    GetMissing(c, env, key);
    var c1 := Get(c, env, key).0;
    forall k | k != key ensures Answer(c1, env, k) == Answer(c, env, k) { SameAnswer(c, c1, env, k); }
  }

  lemma RefuseMissed(c: Cache, c1: Cache, env: Env, key: Key)
    requires Missed(c, c1, env, key)
    ensures Rest(c, c1, env, key) && Answer(c1, env, key) == None
  {
    hide Sound, Others, Alive;
  }

  lemma LinkMissed(c: Cache, c1: Cache, env: Env, key: Key, q: Ptr)
    requires Missed(c, c1, env, key) && FilledIn(c1.mem, q) && !c1.mem[q].flags.linked && c1.mem[q].key == key
    ensures var c2 := Link(c1, env, q); Rest(c, c2, env, key) && StoredAs(c, c2, env, key, c1.mem[q].content, q)
  {
    hide Sound, Answer, Others, SameEntry, Link, Told;
    LinkKeeps(c1, env, q);
    var c2 := Link(c1, env, q);
    forall k | k != key ensures Answer(c2, env, k) == Answer(c, env, k) { SameAnswer(c1, c2, env, k); }
    forall x | x in c.mem ensures Others(c2.mem, x) == Others(c.mem, x) { if x != q { SameOthers(c1, c2, x); } }
  }

  // ---- append and prepend ----

  // Other keys answer as before or, where allocation evicted, not at all; none of those with our hash is evicted.
  ghost predicate AnswersLess(c: Cache, c1: Cache, env: Env, key: Key, w: Want) {
    && (forall k :: k != key && Answer(c1, env, k).Some? ==> Answer(c1, env, k) == Answer(c, env, k))
    && forall k :: k != key && w.h(k) == w.hv ==> Answer(c1, env, k) == Answer(c, env, k)
  }

  ghost predicate RefsBut(c: Cache, c1: Cache, q: Ptr) {
    forall x :: x in c.mem && x != q ==> x in c1.mem && Others(c1.mem, x) == Others(c.mem, x)
  }

  lemma FillKeeps(c: Cache, env: Env, p: Ptr, it: Item)
    requires Sound(c, env) && Spare(c, p) && !it.flags.linked && !it.flags.slabbed && it.flags.cas == env.useCas
        && it.refcount == 1
    ensures var c1 := Edit(c, p, it);
      && Sound(c1, env) && (forall k :: SameEntry(c, c1, k)) && Others(c1.mem, p) == 1
      && (forall x :: x in c.mem && x != p ==> x in c1.mem && c1.mem[x] == c.mem[x])
  {
    hide Coherent, Timely, CasOk, SameEntry;
    var c1 := Edit(c, p, it);
    FillCoherent(c, p, it);
    CasOkEdit(c, c1, env, p);
    TimeAt(c, env, p);
    TimelyEdit(c, c1, env, p);
    forall k ensures SameEntry(c, c1, k) {
      if k in c.table { TableHere(c, k); }
      EditEntries(c, c1, p, k);
    }
  }

  // A chunk was found and filled in; p, our key's item, is as it was.
  ghost predicate Allocated(c1: Cache, c2: Cache, env: Env, w: Want, key: Key, p: Ptr, q: Ptr, content: Content) {
    && Sound(c2, env) && c2.casId == c1.casId && LinkedIn(c2.mem, p) && p in c1.mem && c2.mem[p] == c1.mem[p]
        && c2.mem[p].key == key
    && (q != Null ==>
          && q != p && FilledIn(c2.mem, q) && !c2.mem[q].flags.linked && c2.mem[q].key == key
              && c2.mem[q].content == content
          && Others(c2.mem, q) == 1)
    && AnswersLess(c1, c2, env, key, w) && RefsBut(c1, c2, q) && Answer(c2, env, key) == Answer(c1, env, key)
  }

  lemma WeakerFacts(c1: Cache, c2: Cache, env: Env, w: Want, key: Key, p: Ptr)
    requires Weaker(c1, c2, env, w) && key in c1.table && c1.table[key] == p && w.h(key) == w.hv && LinkedIn(c1.mem, p)
    ensures Sound(c2, env) && c2.casId == c1.casId && p in c2.mem && c2.mem[p] == c1.mem[p]
    ensures AnswersLess(c1, c2, env, key, w) && Answer(c2, env, key) == Answer(c1, env, key)
    ensures forall x :: x in c1.mem ==> x in c2.mem && Others(c2.mem, x) == Others(c1.mem, x)
  {
    hide Sound, Answer, Others, SameEntry;
    forall k | w.h(k) == w.hv ensures Answer(c2, env, k) == Answer(c1, env, k) {
      if k in c1.table { SameAnswer(c1, c2, env, k); } else { NoAnswer(c1, env, k); NoAnswer(c2, env, k); }
    }
    assert SameEntry(c1, c2, key) && c2.mem[c1.table[key]] == c1.mem[c1.table[key]];
    EntryIn(c1, c2, key);
  }

  lemma EntryIn(c1: Cache, c2: Cache, key: Key)
    requires SameEntry(c1, c2, key) && key in c1.table
    ensures c1.table[key] in c2.mem && c1.table[key] in c1.mem
  {
  }

  lemma NoAnswer(c: Cache, env: Env, k: Key)
    ensures k !in c.table ==> Answer(c, env, k) == None
  {
  }

  lemma AllocatedOk(c1: Cache, env: Env, w: Want, s: Supply, key: Key, p: Ptr, content: Content)
    requires Sound(c1, env) && key in c1.table && c1.table[key] == p && w.h(key) == w.hv && LinkedIn(c1.mem, p)
        && c1.mem[p].key == key
    ensures var (c2, q) := ItemAlloc(c1, env, w, s, key, content); Allocated(c1, c2, env, w, key, p, q, content)
  {
    hide Sound, Answer, Others, SameEntry, AllocTry, Weaker, AnswersLess;
    WeakerSelf(c1, env, w);
    WeakerFacts(c1, c1, env, w, key, p);
    if w.clsid != 0 {
      AllocKeeps(c1, env, w, s, 0);
      var (c2, q) := AllocTry(c1, env, w, s, 0);
      WeakerFacts(c1, c2, env, w, key, p);
      if q != Null {
        var it := Fresh(env, w, key, content);
        FillKeeps(c2, env, q, it);
        FilledLess(c1, c2, Edit(c2, q, it), env, key, w);
        forall x | x in c1.mem && x != q ensures Others(Edit(c2, q, it).mem, x) == Others(c1.mem, x) {
          SameOthers(c2, Edit(c2, q, it), x);
        }
      }
    }
  }

  lemma FilledLess(c1: Cache, c2: Cache, c3: Cache, env: Env, key: Key, w: Want)
    requires AnswersLess(c1, c2, env, key, w) && forall k :: SameEntry(c2, c3, k)
    ensures AnswersLess(c1, c3, env, key, w) && Answer(c3, env, key) == Answer(c2, env, key)
  {
    hide Answer, SameEntry;
    forall k ensures Answer(c3, env, k) == Answer(c2, env, k) { SameAnswer(c2, c3, env, k); }
  }

  lemma ReleaseAnswers(c: Cache, env: Env, p: Ptr)
    requires Sound(c, env) && p in c.mem && !c.mem[p].flags.slabbed && Others(c.mem, p) > 0
    ensures var c1 := Release(c, p);
      && Sound(c1, env) && c1.table == c.table && c1.casId == c.casId
          && (forall k :: Answer(c1, env, k) == Answer(c, env, k))
      && (forall x :: x in c.mem && x != p ==> x in c1.mem && c1.mem[x] == c.mem[x] && CasOf(c1, x) == CasOf(c, x))
      && p in c1.mem && Others(c1.mem, p) == Others(c.mem, p) - 1
      && (LinkedIn(c.mem, p) ==>
            LinkedIn(c1.mem, p) && c1.mem[p].content == c.mem[p].content && CasOf(c1, p) == CasOf(c, p))
  {
    hide Sound, Answer, Others, SameEntry, Release;
    ReleaseKeeps(c, env, p);
    var c1 := Release(c, p);
    forall k ensures Answer(c1, env, k) == Answer(c, env, k) { SameAnswer(c, c1, env, k); }
  }

  lemma LessSame(c: Cache, c1: Cache, c2: Cache, env: Env, key: Key, w: Want)
    requires AnswersLess(c, c1, env, key, w) && forall k :: k != key ==> Answer(c2, env, k) == Answer(c1, env, k)
    ensures AnswersLess(c, c2, env, key, w)
  {
    hide Answer;
  }

  lemma LessGot(c: Cache, c1: Cache, c2: Cache, env: Env, key: Key, w: Want)
    requires AnswersLess(c1, c2, env, key, w) && forall k :: Answer(c1, env, k) == Answer(c, env, k)
    ensures AnswersLess(c, c2, env, key, w)
  {
    hide Answer;
  }

  lemma GotFacts(c: Cache, c1: Cache, env: Env, key: Key, p: Ptr)
    requires Got(c, c1, env, key, p)
    ensures p in c1.mem && Others(c1.mem, p) > 0 && p in c.mem && Others(c1.mem, p) == Others(c.mem, p) + 1
    ensures forall k :: Answer(c1, env, k) == Answer(c, env, k)
    ensures forall x :: x in c.mem && x != p ==> x in c1.mem && Others(c1.mem, x) == Others(c.mem, x)
    ensures c1.casId == c.casId && key in c1.table && c1.table[key] == p && Sound(c1, env) && LinkedIn(c1.mem, p)
        && c1.mem[p].key == key
  {
    hide Sound, Answer, Others, Alive;
  }

  // Allocation failed: the answer is NOT_STORED, and what was evicted on the way stays evicted.
  lemma JoinRefused(c: Cache, c1: Cache, c2: Cache, env: Env, w: Want, key: Key, p: Ptr, content: Content)
    requires Got(c, c1, env, key, p) && Allocated(c1, c2, env, w, key, p, Null, content)
    ensures var c3 := Release(c2, p);
      Sound(c3, env) && AnswersLess(c, c3, env, key, w) && RefsBut(c, c3, Null)
          && Answer(c3, env, key) == Answer(c, env, key)
  {
    hide Sound, Answer, Others, Alive, Got, AnswersLess, Release;
    GotFacts(c, c1, env, key, p);
    SameOthers(c1, c2, p);
    SoundLinked(c2, env, p);
    ReleaseAnswers(c2, env, p);
    var c3 := Release(c2, p);
    LessGot(c, c1, c2, env, key, w);
    LessSame(c, c2, c3, env, key, w);
    forall x | x in c.mem && x != Null ensures x in c3.mem && Others(c3.mem, x) == Others(c.mem, x) {
      if x != p { SameOthers(c2, c3, x); }
    }
  }

  lemma JoinStored(c: Cache, c1: Cache, c2: Cache, env: Env, w: Want, key: Key, p: Ptr, q: Ptr, content: Content)
    requires Got(c, c1, env, key, p) && Allocated(c1, c2, env, w, key, p, q, content) && q != Null
    ensures var c3 := Release(Release(SwapIn(c2, env, p, q), p), q);
      && Sound(c3, env) && AnswersLess(c, c3, env, key, w) && RefsBut(c, c3, q)
      && StoredAs(c, c3, env, key, content, q) && q in c3.mem && Others(c3.mem, q) == 0
  {
    hide Sound, Answer, Others, Alive, Got, AnswersLess, Release, SwapIn, SameEntry, Told, FilledIn;
    GotFacts(c, c1, env, key, p);
    SameOthers(c1, c2, p);
    SwapKeeps(c2, env, p, q);
    var c3 := SwapIn(c2, env, p, q);
    forall k | k != key ensures Answer(c3, env, k) == Answer(c2, env, k) { SameAnswer(c2, c3, env, k); }
    ReleaseAnswers(c3, env, p);
    var c4 := Release(c3, p);
    SameOthers(c3, c4, q);
    ReleaseAnswers(c4, env, q);
    var c5 := Release(c4, q);
    LessGot(c, c1, c2, env, key, w);
    LessSame(c, c2, c5, env, key, w);
    forall x | x in c.mem && x != q ensures x in c5.mem && Others(c5.mem, x) == Others(c.mem, x) {
      SameOthers(c4, c5, x);
      if x != p { SameOthers(c3, c4, x); }
    }
  }

  // ---- the whole command ----

  predicate Joins(comm: Command) { comm == Append || comm == Prepend }

  // Whether do_item_alloc finds memory for the joined value.
  function Fits(c: Cache, env: Env, it: Ptr, comm: Command, w: Want, s: Supply): bool
    requires it in c.mem
    requires var key := c.mem[it].key; key in c.table ==> Usable(c, c.table[key])
  {
    var key := c.mem[it].key;
    var (c1, held) := Get(c, env, key);
    ItemAlloc(c1, env, w, s, key, Joined(comm, ContentOf(c1, held), ContentOf(c1, it))).1 != Null
  }

  ghost predicate Refines(c: Cache, env: Env, it: Ptr, comm: Command, reqCas: nat, w: Want, fits: bool, c1: Cache,
      r: Result, q: Ptr)
    requires it in c.mem
  {
    var key := c.mem[it].key;
    var m := Meaning(Answer(c, env, key), Version(c, key), comm, c.mem[it].content, reqCas, fits);
    && r == m.result && Sound(c1, env)
    && (if r == Stored then m.value.Some? && StoredAs(c, c1, env, key, m.value.value, q)
        else Answer(c1, env, key) == Answer(c, env, key) == m.value)
    && AnswersLess(c, c1, env, key, w) && (!Joins(comm) ==> AnswersElse(c, c1, env, key))
    && RefsBut(c, c1, if Joins(comm) then q else Null)
        && (Joins(comm) && r == Stored ==> q in c1.mem && Others(c1.mem, q) == 0)
  }

  lemma RestLess(c: Cache, c1: Cache, env: Env, key: Key, w: Want)
    requires Rest(c, c1, env, key)
    ensures Sound(c1, env) && AnswersLess(c, c1, env, key, w) && AnswersElse(c, c1, env, key) && RefsBut(c, c1, Null)
  {
    hide Sound, Answer, Others;
  }

  lemma StoreMissed(c: Cache, env: Env, it: Ptr, comm: Command, reqCas: nat, w: Want, s: Supply)
    requires it in c.mem
    requires var key := c.mem[it].key; (key in c.table ==> Usable(c, c.table[key])) && Get(c, env, key).1 == Null
    ensures var c1 := Get(c, env, c.mem[it].key).0;
      it in c1.mem ==>
        StoreItem(c, env, it, comm, reqCas, w, s) == (
          if comm == Set || comm == Add then (Link(c1, env, it), Stored, it)
          else (c1, if comm == Cas then NotFound else NotStored, Null))
  {
    hide Get, Link, Release, Update, SwapIn, ItemAlloc, Joined, CasOf, ContentOf;
  }

  lemma Missing(c: Cache, env: Env, it: Ptr, comm: Command, reqCas: nat, w: Want, s: Supply)
    requires Sound(c, env) && FilledIn(c.mem, it) && !c.mem[it].flags.linked && Answer(c, env, c.mem[it].key).None?
    ensures var key := c.mem[it].key; key in c.table ==> Usable(c, c.table[key])
    ensures var (c1, r, q) := StoreItem(c, env, it, comm, reqCas, w, s);
      Refines(c, env, it, comm, reqCas, w, Fits(c, env, it, comm, w, s), c1, r, q)
  {
    hide Sound, Answer, Others, Get, Link, Told, StoreItem, AnswersLess, AnswersElse, RefsBut, Rest, Fits;
    var key := c.mem[it].key;
    GetMissed(c, env, key);
    StoreMissed(c, env, it, comm, reqCas, w, s);
    var c1 := Get(c, env, key).0;
    MissedItem(c, c1, env, key, it);
    hide Missed;
    RefuseMissed(c, c1, env, key);
    LinkMissed(c, c1, env, key, it);
    RestLess(c, c1, env, key, w);
    RestLess(c, Link(c1, env, it), env, key, w);
    hide StoredAs;
  }

  lemma MissedItem(c: Cache, c1: Cache, env: Env, key: Key, it: Ptr)
    requires Missed(c, c1, env, key) && FilledIn(c.mem, it) && !c.mem[it].flags.linked
    ensures it in c1.mem && c1.mem[it] == c.mem[it]
  {
    hide Sound, Answer, Others;
  }

  lemma GotItem(c: Cache, c1: Cache, env: Env, key: Key, p: Ptr, it: Ptr)
    requires Got(c, c1, env, key, p) && FilledIn(c.mem, it) && !c.mem[it].flags.linked
    ensures it != p && it in c1.mem && c1.mem[it] == c.mem[it]
    ensures p in c1.mem && Answer(c, env, key) == Some(c1.mem[p].content) && CasOf(c1, p) == Version(c, key)
  {
    TableSound(c, env, key);
    hide Sound, Answer, Others, Alive;
  }

  lemma Found(c: Cache, env: Env, it: Ptr, comm: Command, reqCas: nat, w: Want, s: Supply)
    requires Sound(c, env) && FilledIn(c.mem, it) && !c.mem[it].flags.linked && Answer(c, env, c.mem[it].key).Some?
    requires !Joins(comm)
    ensures var key := c.mem[it].key; key in c.table ==> Usable(c, c.table[key])
    ensures var (c1, r, q) := StoreItem(c, env, it, comm, reqCas, w, s);
      Refines(c, env, it, comm, reqCas, w, Fits(c, env, it, comm, w, s), c1, r, q)
  {
    hide Sound, Answer, Others, Get, Update, Told, ItemAlloc, AnswersLess, AnswersElse, RefsBut, Rest, Fits, Got,
        Release, SwapIn;
    hide StoredAs, CasOf, Version;
    var key := c.mem[it].key;
    GetGot(c, env, key);
    var (c1, p) := Get(c, env, key);
    GotItem(c, c1, env, key, p, it);
    AddFound(c, c1, env, key, p);
    RefuseFound(c, c1, env, key, p);
    ReplaceFound(c, c1, env, key, p, it);
    RestLess(c, Release(Update(c1, env, p), p), env, key, w);
    RestLess(c, Release(c1, p), env, key, w);
    RestLess(c, Release(SwapIn(c1, env, p, it), p), env, key, w);
  }

  lemma FoundJoin(c: Cache, env: Env, it: Ptr, comm: Command, reqCas: nat, w: Want, s: Supply)
    requires Sound(c, env) && FilledIn(c.mem, it) && !c.mem[it].flags.linked && Answer(c, env, c.mem[it].key).Some?
    requires Joins(comm) && w.h(c.mem[it].key) == w.hv
    ensures var key := c.mem[it].key; key in c.table ==> Usable(c, c.table[key])
    ensures var (c1, r, q) := StoreItem(c, env, it, comm, reqCas, w, s);
      Refines(c, env, it, comm, reqCas, w, Fits(c, env, it, comm, w, s), c1, r, q)
  {
    hide Sound, Answer, Others, Get, Update, Told, ItemAlloc, AnswersLess, AnswersElse, RefsBut, Rest, Got, Release,
        SwapIn;
    hide StoredAs, CasOf, Version, Allocated, Joined;
    var key := c.mem[it].key;
    GetGot(c, env, key);
    var (c1, p) := Get(c, env, key);
    GotItem(c, c1, env, key, p, it);
    GotFacts(c, c1, env, key, p);
    if reqCas != 0 && reqCas != CasOf(c1, p) {
      RefuseFound(c, c1, env, key, p);
      RestLess(c, Release(c1, p), env, key, w);
    } else {
      var content := Joined(comm, ContentOf(c1, p), ContentOf(c1, it));
      AllocatedOk(c1, env, w, s, key, p, content);
      var (c2, q) := ItemAlloc(c1, env, w, s, key, content);
      if q == Null {
        JoinRefused(c, c1, c2, env, w, key, p, content);
      } else {
        JoinStored(c, c1, c2, env, w, key, p, q, content);
      }
    }
  }

  // Every storage command answers what the map with versions says and leaves it as it says: set, add, replace and
  // cas touch no other key; append and prepend join the two bodies under the old flags and expiry time with one
  // line end, and the memory they need is never taken from the key itself. All references balance. A stored value
  // can be got at once unless it expires now or a flush is due in this very second.
  lemma StoreItemRefines(c: Cache, env: Env, it: Ptr, comm: Command, reqCas: nat, w: Want, s: Supply)
    requires Sound(c, env) && FilledIn(c.mem, it) && !c.mem[it].flags.linked && w.h(c.mem[it].key) == w.hv
    ensures var key := c.mem[it].key; key in c.table ==> Usable(c, c.table[key])
    ensures var (c1, r, q) := StoreItem(c, env, it, comm, reqCas, w, s);
      Refines(c, env, it, comm, reqCas, w, Fits(c, env, it, comm, w, s), c1, r, q)
  {
    hide Sound, Answer, StoreItem, Refines, Fits;
    if Answer(c, env, c.mem[it].key).None? {
      Missing(c, env, it, comm, reqCas, w, s);
    } else if Joins(comm) {
      FoundJoin(c, env, it, comm, reqCas, w, s);
    } else {
      Found(c, env, it, comm, reqCas, w, s);
    }
  }

  // Used within the last minute, and when it had not been and items are moved on use, at the head of its queue.
  ghost predicate Touched(c: Cache, c1: Cache, env: Env, p: Ptr) {
    && p in c1.mem && env.now <= TimeOf(c1, p) + 60
    && (env.now > TimeOf(c, p) + 60 && !env.maintainer ==>
          QueueIn(c1.lru, c1.mem[p].Home()) != [] && QueueIn(c1.lru, c1.mem[p].Home())[0] == p)
  }

  lemma UpdateTouches(c: Cache, env: Env, p: Ptr)
    requires Timely(c, env) && p in c.mem && c.mem[p].flags.linked && c.mem[p].refcount > 1
    ensures Touched(c, Release(Update(c, env, p), p), env, p)
  {
    TimeAt(c, env, p);
    hide Timely, EraseQueue;
  }

  lemma GetMarks(c: Cache, env: Env, key: Key)
    requires key in c.table && Usable(c, c.table[key]) && Alive(c, env, c.table[key])
    ensures var (c1, p) := Get(c, env, key);
      && p == c.table[key] && c1.stamps == c.stamps && p in c1.mem && c1.mem[p].flags.linked && c1.mem[p].refcount > 1
  {
    hide Flushed;
  }

  lemma AddIs(c: Cache, env: Env, it: Ptr, reqCas: nat, w: Want, s: Supply)
    requires it in c.mem
    requires var key := c.mem[it].key; (key in c.table ==> Usable(c, c.table[key])) && Get(c, env, key).1 != Null
    ensures var (c1, p) := Get(c, env, c.mem[it].key);
      p in c1.mem ==> StoreItem(c, env, it, Add, reqCas, w, s).0 == Release(Update(c1, env, p), p)
  {
    hide Get, Link, Release, Update, SwapIn, ItemAlloc, Joined, CasOf, ContentOf;
  }

  // An add that is refused counts as a use of the item that is there.
  lemma AddTouches(c: Cache, env: Env, it: Ptr, reqCas: nat, w: Want, s: Supply)
    requires Sound(c, env) && FilledIn(c.mem, it) && !c.mem[it].flags.linked && Answer(c, env, c.mem[it].key).Some?
    ensures var key := c.mem[it].key; key in c.table && Usable(c, c.table[key])
    ensures Touched(c, StoreItem(c, env, it, Add, reqCas, w, s).0, env, c.table[c.mem[it].key])
  {
    hide Coherent, Timely, CasOk, Got, Get, Update, Release, StoreItem, Flushed, Touched;
    var key := c.mem[it].key;
    GetGot(c, env, key);
    var (c1, p) := Get(c, env, key);
    GetMarks(c, env, key);
    GotTimely(c, c1, env, key, p);
    AddIs(c, env, it, reqCas, w, s);
    UpdateTouches(c1, env, p);
    TouchedSince(c, c1, StoreItem(c, env, it, Add, reqCas, w, s).0, env, p);
  }

  lemma GotTimely(c: Cache, c1: Cache, env: Env, key: Key, p: Ptr)
    requires Got(c, c1, env, key, p)
    ensures Timely(c1, env)
  {
    hide Coherent, Timely, CasOk, Answer, Others, Alive;
  }

  lemma TouchedSince(c: Cache, c1: Cache, c2: Cache, env: Env, p: Ptr)
    requires c1.stamps == c.stamps && Touched(c1, c2, env, p)
    ensures Touched(c, c2, env, p)
  {
  }

  // One line end, at the end.
  lemma JoinedEndsOnce(comm: Command, held: Content, sent: Content)
    requires Joins(comm) && |held.data| >= 2 && held.data[|held.data| - 2..] == CRLF
    requires |sent.data| >= 2 && sent.data[|sent.data| - 2..] == CRLF
    ensures var j := Joined(comm, held, sent);
      && j.clientFlags == held.clientFlags && j.exptime == held.exptime && |j.data| >= 2
          && j.data[|j.data| - 2..] == CRLF
      && Body(j.data) == if comm == Append then Body(held.data) + Body(sent.data) else Body(sent.data) + Body(held.data)
  {
    assert held.data == Body(held.data) + CRLF && sent.data == Body(sent.data) + CRLF;
  }
}
