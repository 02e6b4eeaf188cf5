// What clients may rely on, over whole runs of the store.
module StoreTheorems {
  import opened Memory
  import opened Linkage
  import opened CacheSpec
  import opened LruPull
  import opened LruPullProofs
  import opened Store
  import opened StoreProofs

  // ---- compare-and-swap ----

  // What `gets` answers, read in one locked step: the key's cas id, data and flags.
  ghost predicate Answers(c: Cache, k: Key, cas: nat, data: string, clientFlags: int) {
    && k in c.table && LinkedIn(c.mem, c.table[k]) && CasOf(c, c.table[k]) == cas
    && c.mem[c.table[k]].content.data == data && c.mem[c.table[k]].content.clientFlags == clientFlags
  }

  // The key is gone, or was stored again under a later id.
  ghost predicate Moved(c: Cache, k: Key, cas: nat) {
    k in c.table ==> CasOf(c, c.table[k]) > cas
  }

  lemma StepAnswers(c: Cache, c1: Cache, s: Ptr, k: Key, cas: nat, data: string, clientFlags: int)
    requires Coherent(c) && Coherent(c1) && AllTraced(c, c1, s) && cas <= c.casId
    ensures Answers(c, k, cas, data, clientFlags) ==> Answers(c1, k, cas, data, clientFlags) || Moved(c1, k, cas)
    ensures Moved(c, k, cas) ==> Moved(c1, k, cas)
  {
    if k in c1.table {
      var p := c1.table[k];
      TableHere(c1, k);
      assert Traced(c, c1, s, p);
      if LinkedIn(c.mem, p) { LinkedHere(c, p); }
    }
    hide Coherent, AllTraced;
  }

  lemma {:induction false} CasIdGrows(run: seq<World>, steps: seq<Step>, i: nat, n: nat)
    requires IsRun(run, steps) && i <= n < |run| && run[0].env.useCas
    ensures run[i].c.casId <= run[n].c.casId && run[n].env.useCas
    decreases n
  {
    hide Inv, Apply, Enabled, Initial;
    if n == 0 {
    } else {
      if i < n { CasIdGrows(run, steps, i, n - 1); } else { CasIdGrows(run, steps, n - 1, n - 1); }
      RunInv(run, steps, n - 1);
      EachStepOk(run[n - 1], steps[n - 1]);
    }
  }

  lemma {:induction false} StaysOrMoves(run: seq<World>, steps: seq<Step>, i: nat, n: nat,
                                      k: Key, cas: nat, data: string, clientFlags: int)
    requires IsRun(run, steps) && i <= n < |run| && run[0].env.useCas && cas <= run[i].c.casId
    requires Answers(run[i].c, k, cas, data, clientFlags) || Moved(run[i].c, k, cas)
    ensures Moved(run[i].c, k, cas) ==> Moved(run[n].c, k, cas)
    ensures Answers(run[n].c, k, cas, data, clientFlags) || Moved(run[n].c, k, cas)
    decreases n
  {
    hide Inv, Apply, Enabled, Initial, AllTraced, Answers, Moved;
    if i < n {
      StaysOrMoves(run, steps, i, n - 1, k, cas, data, clientFlags);
      CasIdGrows(run, steps, i, n - 1);
      RunInv(run, steps, n - 1);
      RunInv(run, steps, n);
      EachStepOk(run[n - 1], steps[n - 1]);
      InvCoherent(run[n - 1]);
      InvCoherent(run[n]);
      StepAnswers(run[n - 1].c, run[n].c, Stamped(steps[n - 1]), k, cas, data, clientFlags);
    }
  }

  lemma InvCoherent(w: World)
    requires Inv(w)
    ensures Coherent(w.c) && Timely(w.c, w.env) && CasOk(w.c, w.env) && w.env.now >= 2
  {
  }

  // No lost updates: when a key has the cas id it had at an earlier moment, it has had that id, that data and those
  // flags at every moment in between, whatever else went on. A cas command that succeeds has therefore seen the
  // value it replaces.
  lemma CasMeansUnchanged(run: seq<World>, steps: seq<Step>, i: nat, n: nat, j: nat, k: Key)
    requires IsRun(run, steps) && i <= n <= j < |run| && run[0].env.useCas
    requires k in run[i].c.table && k in run[j].c.table && run[i].c.table[k] in run[i].c.mem
    requires CasOf(run[i].c, run[i].c.table[k]) == CasOf(run[j].c, run[j].c.table[k])
    ensures var it := run[i].c.mem[run[i].c.table[k]];
      Answers(run[n].c, k, CasOf(run[i].c, run[i].c.table[k]), it.content.data, it.content.clientFlags)
  {
    hide Inv, Apply, Enabled, Initial;
    RunInv(run, steps, i);
    InvCoherent(run[i]);
    TableHere(run[i].c, k);
    hide Coherent;
    var p := run[i].c.table[k];
    var cas := CasOf(run[i].c, p);
    var content := run[i].c.mem[p].content;
    CasAtMost(run[i].c, p);
    StaysOrMoves(run, steps, i, n, k, cas, content.data, content.clientFlags);
    CasIdGrows(run, steps, i, n);
    StaysOrMoves(run, steps, n, j, k, cas, content.data, content.clientFlags);
  }
}
