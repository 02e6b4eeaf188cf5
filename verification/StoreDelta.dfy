// do_add_delta: incr and decr.
module StoreDelta {
  import opened Memory
  import opened Linkage
  import opened CacheSpec
  import opened LruPull
  import opened LruPullProofs
  import opened Decimal
  import opened Store
  import opened StoreProofs
  import opened StoreBackground
  import opened StoreCommand
  import opened StoreCommandProofs
  import opened StoreRefines

  datatype DeltaResult = Ok(value: nat) | NotNumeric | Eom | ItemNotFound | CasMismatch

  // Once the number has been read and counted: the new cache, the answer and the cas id returned.
  function Recounted(c1: Cache, env: Env, key: Key, it: Ptr, n: nat, w: Want, s: Supply): (Cache, DeltaResult, nat)
    requires it in c1.mem
  {
    var data := c1.mem[it].content.data;
    var digits := Print(n);
    if |digits| + 2 <= |data| && c1.mem[it].refcount == 2 then
      var c2 := Rewrite(c1, env, it, Recount(data, digits, true));
      (Release(c2, it), Ok(n), CasOf(c2, it))
    else if c1.mem[it].refcount > 1 then
      var (c2, newIt) := ItemAlloc(c1, env, w, s, key, c1.mem[it].content.(data := Recount(data, digits, false)));
      if newIt == Null then (Release(c2, it), Eom, 0)
      else
        var c3 := CopyCas(SwapIn(c2, env, it, newIt), it, newIt);
        (Release(Release(c3, newIt), it), Ok(n), CasOf(c3, it))
    else (Release(c1, it), ItemNotFound, 0)
  }

  // reqCas is 0 when the client named none; beyond is what lies in memory behind the item.
  function AddDelta(c: Cache, env: Env, key: Key, d: Delta, reqCas: nat, beyond: string, w: Want, s: Supply): (Cache,
      DeltaResult, nat)
    requires key in c.table ==> Usable(c, c.table[key])
  {
    var (c1, it) := Get(c, env, key);
    if it == Null || it !in c1.mem then (c1, ItemNotFound, 0)
    else
      var data := c1.mem[it].content.data;
      if |data| <= 2 then (c1, NotNumeric, 0)
      else if reqCas != 0 && CasOf(c1, it) != reqCas then (Release(c1, it), CasMismatch, 0)
      else
        match SafeStrtoull(data, beyond)
        case None => (Release(c1, it), NotNumeric, 0)
        case Some(v) => if v >= WORD64 then (c1, NotNumeric, 0) else Recounted(c1, env, key, it, Count(v, d), w, s)
  }

  // ---- in place ----

  lemma RewriteKeeps(c: Cache, env: Env, p: Ptr, data: string)
    requires Sound(c, env) && LinkedIn(c.mem, p) && Alive(c, env, p) && env.oldestCas <= c.casId
    ensures var c1 := Rewrite(c, env, p, data);
      && Sound(c1, env) && c1.table == c.table && c1.casId == NextId(env, c) && c1.mem.Keys == c.mem.Keys
          && LinkedIn(c1.mem, p)
      && OthersSame(c, c1, p) && Others(c1.mem, p) == Others(c.mem, p) && !c1.mem[p].flags.slabbed
      && c1.mem[p].content == c.mem[p].content.(data := data) && Alive(c1, env, p)
      && CasOf(c1, p) == if env.useCas then c.casId + 1 else 0
  {
    hide Coherent, Timely, CasOk, Alive, Minor, AllTraced, Others, Update;
    CasFacts(c, env, p);
    SoundLinked(c, env, p);
    OverwriteOk(c, env, p, data);
    var c1 := Overwrite(c, env, p, data);
    OverwriteAlive(c, env, p, data);
    UpdateKeeps(c1, env, p);
    UpdateAlive(c1, env, p);
    UpdateFrame(c1, env, p);
    UpdateMinor(c1, env, p);
    UpdateCas(c1, env, p);
  }

  lemma OverwriteAlive(c: Cache, env: Env, p: Ptr, data: string)
    requires Alive(c, env, p) && p in c.mem && env.oldestCas <= c.casId && c.mem[p].flags.cas == env.useCas
    ensures var c1 := Overwrite(c, env, p, data);
      && Alive(c1, env, p) && CasOf(c1, p) == (if env.useCas then c.casId + 1 else 0) && OthersSame(c, c1, p)
      && Others(c1.mem, p) == Others(c.mem, p) && c1.table == c.table && c1.casId == NextId(env, c) && p in c1.mem
      && c1.mem[p].content == c.mem[p].content.(data := data)
  {
  }

  lemma UpdateCas(c: Cache, env: Env, p: Ptr)
    requires p in c.mem
    ensures p in Update(c, env, p).mem && CasOf(Update(c, env, p), p) == CasOf(c, p)
  {
    hide PushQueue, EraseQueue;
  }

  // ---- through a new item ----

  lemma CopyCasKeeps(c: Cache, env: Env, p: Ptr, q: Ptr)
    requires Sound(c, env) && p in c.mem && !LinkedIn(c.mem, p) && q != p && q in c.mem
    requires FilledIn(c.mem, p) && CasOf(c, q) == if env.useCas then c.casId else 0
    ensures var c1 := CopyCas(c, p, q);
      && Sound(c1, env) && c1.mem == c.mem && c1.table == c.table && c1.casId == c.casId
      && (forall k :: Answer(c1, env, k) == Answer(c, env, k)) && CasOf(c1, p) == CasOf(c, q)
          && CasOf(c1, q) == CasOf(c, q)
  {
    hide Coherent, Timely, CasOk, Answer, SameEntry, Flushed;
    CasFacts(c, env, p);
    TimeAt(c, env, p);
    var c1 := CopyCas(c, p, q);
    StampCoherent(c, p, StampOf(c.stamps, p).(cas := CasOf(c, q)));
    CasOkEdit(c, c1, env, p);
    TimelyEdit(c, c1, env, p);
    forall k ensures Answer(c1, env, k) == Answer(c, env, k) {
      if k in c.table { TableHere(c, k); }
      EditEntries(c, c1, p, k);
      SameAnswer(c, c1, env, k);
    }
  }

  lemma CountStored(c: Cache, c1: Cache, c2: Cache, env: Env, w: Want, key: Key, p: Ptr, q: Ptr, content: Content)
    requires Got(c, c1, env, key, p) && Allocated(c1, c2, env, w, key, p, q, content) && q != Null
    ensures var c3 := CopyCas(SwapIn(c2, env, p, q), p, q); var c5 := Release(Release(c3, q), p);
      && Sound(c5, env) && AnswersLess(c, c5, env, key, w) && RefsBut(c, c5, q)
      && StoredAs(c, c5, env, key, content, q) && q in c5.mem && Others(c5.mem, q) == 0 && CasOf(c3, p) == CasOf(c5, q)
  {
    hide Sound, Answer, Others, Alive, Got, AnswersLess, Release, SwapIn, SameEntry, Told, FilledIn, CopyCas, CasOf;
    GotFacts(c, c1, env, key, p);
    SameOthers(c1, c2, p);
    SwapKeeps(c2, env, p, q);
    var c3 := SwapIn(c2, env, p, q);
    SwappedFilled(c3, p, q, env) by { StillFilled(c2, env, p, q); }
    CopyCasKeeps(c3, env, p, q);
    var c3a := CopyCas(c3, p, q);
    SameOthersAll(c3, c3a);
    forall k | k != key ensures Answer(c3a, env, k) == Answer(c2, env, k) { SameAnswer(c2, c3, env, k); }
    ReleaseAnswers(c3a, env, q);
    var c4 := Release(c3a, q);
    SameOthers(c3a, c4, p);
    ReleaseAnswers(c4, env, p);
    var c5 := Release(c4, p);
    SameOthers(c4, c5, q);
    LessGot(c, c1, c2, env, key, w);
    LessSame(c, c2, c5, env, key, w);
    forall x | x in c.mem && x != q ensures x in c5.mem && Others(c5.mem, x) == Others(c.mem, x) {
      SameOthers(c3a, c4, x);
      if x != p { SameOthers(c4, c5, x); }
    }
  }

  lemma SameOthersAll(c: Cache, c1: Cache)
    requires c1.mem == c.mem
    ensures forall x :: Others(c1.mem, x) == Others(c.mem, x)
  {
  }

  lemma SwappedFilled(c: Cache, p: Ptr, q: Ptr, env: Env)
    requires p in c.mem && !c.mem[p].flags.slabbed && c.mem[p].clsid != 0
    ensures FilledIn(c.mem, p)
  {
  }

  lemma StillFilled(c: Cache, env: Env, p: Ptr, q: Ptr)
    requires Sound(c, env) && LinkedIn(c.mem, p) && Others(c.mem, p) > 0 && q in c.mem && q != p
    ensures var c1 := SwapIn(c, env, p, q); p in c1.mem && !c1.mem[p].flags.slabbed && c1.mem[p].clsid != 0
  {
    SoundLinked(c, env, p);
    hide Sound, PushQueue, EraseQueue;
  }

  // ---- the whole command ----

  lemma {:induction false} ValueRange(s: string)
    ensures Strtoull(s).value < WORD64
  {
    hide Value;
  }

  lemma ParseRange(s: string, beyond: string)
    ensures SafeStrtoull(s, beyond).Some? ==> SafeStrtoull(s, beyond).value < WORD64
  {
    ValueRange(s + beyond);
    hide Strtoull;
  }

  // Nobody else holds the item.
  predicate Alone(c: Cache, key: Key) { key in c.table && Others(c.mem, c.table[key]) == 0 }

  // A value that was counted in place: same item, same expiry, no other key touched.
  ghost predicate CountedIn(c: Cache, c1: Cache, env: Env, key: Key, content: Content) {
    && Rest(c, c1, env, key) && key in c.table && c1.table == c.table && Answer(c1, env, key) == Some(content)
    && CasOf(c1, c.table[key]) == if env.useCas then c.casId + 1 else 0
  }

  ghost predicate DeltaRefines(c: Cache, env: Env, key: Key, d: Delta, reqCas: nat, beyond: string, w: Want,
                               c1: Cache, r: DeltaResult, cas: nat) {
    match Answer(c, env, key)
    case None => r == ItemNotFound && Rest(c, c1, env, key) && Answer(c1, env, key) == None
    case Some(held) =>
      if |held.data| <= 2 then
        // the early return keeps the reference it took
        && r == NotNumeric && key in c.table && Owing(c, c1, c.table[key])
        && forall k :: Answer(c1, env, k) == Answer(c, env, k)
      else if reqCas != 0 && Version(c, key) != reqCas then
        r == CasMismatch && Rest(c, c1, env, key) && Answer(c1, env, key) == Some(held)
      else match SafeStrtoull(held.data, beyond)
        case None => r == NotNumeric && Rest(c, c1, env, key) && Answer(c1, env, key) == Some(held)
        case Some(v) => v < WORD64 && exists n :: Counted(v, d, n) && CountRefines(c, env, key, held, n, w, c1, r, cas)
  }

  ghost predicate CountRefines(c: Cache, env: Env, key: Key, held: Content, n: nat, w: Want,
                                 c1: Cache, r: DeltaResult, cas: nat) {
    if |Print(n)| + 2 <= |held.data| && Alone(c, key) then
      && r == Ok(n) && CountedIn(c, c1, env, key, held.(data := Recount(held.data, Print(n), true)))
      && cas == CasOf(c1, c.table[key])
    else if r == Eom then
      Sound(c1, env) && AnswersLess(c, c1, env, key, w) && RefsBut(c, c1, Null) && Answer(c1, env, key) == Some(held)
    else
      && r == Ok(n) && Sound(c1, env) && AnswersLess(c, c1, env, key, w) && key in c1.table
      && RefsBut(c, c1, c1.table[key]) && c1.table[key] in c1.mem && Others(c1.mem, c1.table[key]) == 0
      && StoredAs(c, c1, env, key, held.(data := Recount(held.data, Print(n), false)), c1.table[key])
      && cas == CasOf(c1, c1.table[key])
  }

  lemma CountInPlace(c: Cache, c1: Cache, env: Env, key: Key, p: Ptr, data: string)
    requires Got(c, c1, env, key, p) && env.oldestCas <= c.casId
    ensures p in c1.mem
    ensures var c2 := Rewrite(c1, env, p, data); var c3 := Release(c2, p);
      CountedIn(c, c3, env, key, c1.mem[p].content.(data := data)) && CasOf(c2, p) == CasOf(c3, p)
  {
    hide Sound, Answer, Others, Alive, Release, Rewrite, SameEntry;
    RewriteKeeps(c1, env, p, data);
    var c2 := Rewrite(c1, env, p, data);
    forall x | x in c1.mem ensures Others(c2.mem, x) == Others(c1.mem, x) { if x != p { SameOthers(c1, c2, x); } }
    UpdateKeys(c, c1, c2, p);
    forall k | k != key ensures Answer(c2, env, k) == Answer(c, env, k) { RewriteAnswer(c1, c2, env, k, p); }
    AliveAnswer(c2, env, key, p);
    Settle(c, c2, env, key, p);
    ReleaseAnswers(c2, env, p);
  }

  lemma AliveAnswer(c: Cache, env: Env, key: Key, p: Ptr)
    requires key in c.table && c.table[key] == p && p in c.mem && Alive(c, env, p)
    ensures Answer(c, env, key) == Some(c.mem[p].content)
  {
    hide Alive;
  }

  lemma RewriteAnswer(c: Cache, c1: Cache, env: Env, k: Key, p: Ptr)
    requires Sound(c, env) && OthersSame(c, c1, p) && c1.table == c.table && LinkedIn(c.mem, p) && k != c.mem[p].key
    ensures Answer(c1, env, k) == Answer(c, env, k)
  {
    if k in c.table { TableSound(c, env, k); }
    hide Sound, Alive;
    if k in c.table { AliveSame(c, c1, env, c.table[k]); }
  }

  lemma GotRefs(c: Cache, c1: Cache, env: Env, key: Key, p: Ptr)
    requires Got(c, c1, env, key, p)
    ensures p in c1.mem && key in c.table && c.table[key] == p && c1.mem[p].refcount > 1
    ensures c1.mem[p].refcount == 2 <==> Alone(c, key)
    ensures Answer(c, env, key) == Some(c1.mem[p].content) && CasOf(c1, p) == Version(c, key)
  {
    hide Sound, Alive, Answer;
  }

  lemma CountOk(c: Cache, c1: Cache, env: Env, key: Key, p: Ptr, n: nat, w: Want, s: Supply)
    requires Got(c, c1, env, key, p) && env.oldestCas <= c.casId && w.h(key) == w.hv
    ensures p in c1.mem
    ensures var (c2, r, cas) := Recounted(c1, env, key, p, n, w, s);
      CountRefines(c, env, key, c1.mem[p].content, n, w, c2, r, cas)
  {
    hide Sound, Answer, Others, Alive, Got, AnswersLess, Release, SwapIn, Told, ItemAlloc, Rewrite, CopyCas, CasOf,
        Alone;
    hide Recount, Print, RefsBut, Allocated;
    GotRefs(c, c1, env, key, p);
    GotFacts(c, c1, env, key, p);
    var data := c1.mem[p].content.data;
    var digits := Print(n);
    if |digits| + 2 <= |data| && c1.mem[p].refcount == 2 {
      CountInPlace(c, c1, env, key, p, Recount(data, digits, true));
      hide CountedIn;
    } else {
      var content := c1.mem[p].content.(data := Recount(data, digits, false));
      AllocatedOk(c1, env, w, s, key, p, content);
      var (c2, q) := ItemAlloc(c1, env, w, s, key, content);
      if q == Null {
        JoinRefused(c, c1, c2, env, w, key, p, content);
      } else {
        CountStored(c, c1, c2, env, w, key, p, q, content);
      }
    }
  }

  // incr and decr answer and store what they say: the number the item holds, counted, in place or in a new item,
  // always under a new cas id; every refusal leaves the key as it was. References balance in every case but one: an
  // item no longer than its line end keeps the reference that was taken on it.
  lemma AddDeltaRefines(c: Cache, env: Env, key: Key, d: Delta, reqCas: nat, beyond: string, w: Want, s: Supply)
    requires Sound(c, env) && env.oldestCas <= c.casId && w.h(key) == w.hv
    ensures key in c.table ==> Usable(c, c.table[key])
    ensures var (c1, r, cas) := AddDelta(c, env, key, d, reqCas, beyond, w, s);
      DeltaRefines(c, env, key, d, reqCas, beyond, w, c1, r, cas)
  {
    hide Sound, Answer, Others, Alive, Got, Release, Get, SafeStrtoull, Count, Counted, Rest, CasOf, Version, Owing,
        Missed, CountRefines;
    hide Recounted;
    if Answer(c, env, key).None? {
      GetMissed(c, env, key);
      RefuseMissed(c, Get(c, env, key).0, env, key);
    } else {
      GetGot(c, env, key);
      var (c1, p) := Get(c, env, key);
      GotRefs(c, c1, env, key, p);
      RefuseFound(c, c1, env, key, p);
      GotOwes(c, c1, env, key, p);
      var data := c1.mem[p].content.data;
      ParseRange(data, beyond);
      var parsed := SafeStrtoull(data, beyond);
      if parsed.Some? {
        CountCounts(parsed.value, d);
        CountOk(c, c1, env, key, p, Count(parsed.value, d), w, s);
      }
    }
  }

  lemma GotOwes(c: Cache, c1: Cache, env: Env, key: Key, p: Ptr)
    requires Got(c, c1, env, key, p)
    ensures Owing(c, c1, p) && forall k :: Answer(c1, env, k) == Answer(c, env, k)
  {
    hide Sound, Answer, Others, Alive, Owing;
  }
}
