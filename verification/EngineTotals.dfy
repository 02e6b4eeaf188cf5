// stats.curr_items and stats.curr_bytes, as the engine counts them link by link, against what is stored.
module EngineTotals {
  import opened Memory
  import opened Linkage
  import opened SlabSpec
  import opened Engine
  import opened EngineInv
  import opened EditProofs
  import opened MoverProofs
  import opened EngineTheorems
  import opened EngineContents

  datatype Totals = Totals(items: int, bytes: int)

  // The counting in do_item_link and in do_item_unlink.
  function CountLink(t: Totals, it: Item): Totals { Totals(t.items + 1, t.bytes + it.ntotal) }

  function CountUnlink(t: Totals, it: Item): Totals { Totals(t.items - 1, t.bytes - it.ntotal) }

  // What a step counts: a rescue unlinks the item and links its copy.
  ghost function TotalsStep(t: Totals, s: State, a: Step): Totals
    requires Enabled(s, a)
  {
    match a
    case SLink(p) => CountLink(t, s.sl.mem[p])
    case SUnlink(p) => CountUnlink(t, s.sl.mem[p])
    case SLeave =>
      var it := s.sl.mem[s.mover.it];
      if s.mover.copy == Null then CountUnlink(t, it)
      else CountLink(CountUnlink(t, it), CopyItem(s, s.mover.it, s.mover.copy).sl.mem[s.mover.copy])
    case _ => t
  }

  ghost function TotalsAfter(run: seq<State>, steps: seq<Step>, n: nat): Totals
    requires IsRun(run, steps) && n < |run|
  {
    if n == 0 then Totals(0, 0) else TotalsStep(TotalsAfter(run, steps, n - 1), run[n - 1], steps[n - 1])
  }

  ghost function Sum(m: map<Key, Record>): nat {
    if m == map[] then 0 else var k :| k in m; m[k].ntotal + Sum(m - {k})
  }

  lemma {:induction false} SumTakes(m: map<Key, Record>, k: Key)
    requires k in m
    ensures Sum(m) == m[k].ntotal + Sum(m - {k})
    decreases |m|
  {
    var j :| j in m && Sum(m) == m[j].ntotal + Sum(m - {j});
    if j != k {
      SumTakes(m - {j}, k);
      SumTakes(m - {k}, j);
      assert m - {j} - {k} == m - {k} - {j};
    }
  }

  lemma SumPuts(m: map<Key, Record>, k: Key, r: Record)
    ensures k !in m ==> Sum(m[k := r]) == Sum(m) + r.ntotal && |m[k := r]| == |m| + 1
    ensures k in m && m[k].ntotal == r.ntotal ==> Sum(m[k := r]) == Sum(m) && |m[k := r]| == |m|
  {
    hide Sum;
    SumTakes(m[k := r], k);
    assert m[k := r].Keys == m.Keys + {k};
    PutElsewhere(m, k, r);
    if k in m { SumTakes(m, k); }
  }

  lemma PutElsewhere(m: map<Key, Record>, k: Key, r: Record)
    ensures m[k := r] - {k} == if k in m then m - {k} else m
  {
  }

  lemma SumDrops(m: map<Key, Record>, k: Key)
    requires k in m
    ensures Sum(m - {k}) == Sum(m) - m[k].ntotal && |m - {k}| == |m| - 1
  {
    SumTakes(m, k);
    assert (m - {k}).Keys == m.Keys - {k};
  }

  ghost predicate Counted(t: Totals, m: map<Key, Record>) { t == Totals(|m|, Sum(m)) }

  lemma KeysStored(s: State)
    requires Inv(s)
    ensures |Stored(s)| == |s.table|
    ensures forall p :: Linked(s, p) ==>
      s.sl.mem[p].key in Stored(s) && Stored(s)[s.sl.mem[p].key] == RecordOf(s.sl.mem[p])
  {
    hide Inv;
    TableFacts(s);
    assert Stored(s).Keys == s.table.Keys;
  }

  lemma LinkCounts(t: Totals, s: State, a: Step)
    requires Inv(s) && Enabled(s, a) && Counted(t, Stored(s)) && (a.SLink? || a.SUnlink? || a.SWrite?)
    ensures Counted(TotalsStep(t, s, a), StoredAfter(s, a))
  {
    hide Inv, Stored, Sum, Defined;
    var it := s.sl.mem[a.p];
    RecordSize(it);
    if a.SLink? {
      KeysNew(s, a);
      SumPuts(Stored(s), it.key, RecordOf(it));
    } else {
      KeysStored(s);
      if a.SUnlink? { SumDrops(Stored(s), it.key); } else { SumPuts(Stored(s), it.key, Record(a.content, it.ntotal)); }
    }
  }

  lemma LeaveCounts(t: Totals, s: State)
    requires Inv(s) && Enabled(s, SLeave) && Counted(t, Stored(s))
    ensures Counted(TotalsStep(t, s, SLeave), StoredAfter(s, SLeave))
  {
    hide Inv, Stored, Sum, CopyOk;
    MovingFacts(s);
    if s.mover.copy == Null { LeavingDrops(s); SumDrops(Stored(s), s.mover.key); }
  }

  lemma StepCounts(t: Totals, s: State, a: Step)
    requires Inv(s) && Enabled(s, a) && Counted(t, Stored(s))
    ensures Counted(TotalsStep(t, s, a), Stored(Apply(s, a)))
  {
    hide Inv, Apply, Stored, Enabled, Counted;
    StoredExactly(s, a);
    if a.SLink? || a.SUnlink? || a.SWrite? { LinkCounts(t, s, a); } else if a.SLeave? { LeaveCounts(t, s); }
  }

  lemma RecordSize(it: Item)
    ensures RecordOf(it).ntotal == it.ntotal
  {
  }

  lemma KeysNew(s: State, a: Step)
    requires Inv(s) && Enabled(s, a) && a.SLink?
    ensures s.sl.mem[a.p].key !in Stored(s)
  {
    hide Inv;
  }

  lemma LeavingDrops(s: State)
    requires Inv(s) && s.mover.Leaving? && s.mover.it in s.sl.mem
    ensures s.mover.key in Stored(s) && Stored(s)[s.mover.key].ntotal == s.sl.mem[s.mover.it].ntotal
  {
    hide Inv, CopyOk;
    MovingFacts(s);
    KeysStored(s);
  }

  // In every state of every run both statistics are exact, with a page move under way too.
  lemma {:induction false} StatisticsExact(run: seq<State>, steps: seq<Step>, n: nat)
    requires IsRun(run, steps) && n < |run|
    ensures Counted(TotalsAfter(run, steps, n), Stored(run[n])) && TotalsAfter(run, steps, n).items == |run[n].table|
  {
    hide Inv, Apply, Enabled, Stored, Sum, TotalsStep;
    RunInv(run, steps, n);
    KeysStored(run[n]);
    if n > 0 {
      StatisticsExact(run, steps, n - 1);
      RunInv(run, steps, n - 1);
      StepCounts(TotalsAfter(run, steps, n - 1), run[n - 1], steps[n - 1]);
    } else {
      NothingStored(run[0]);
    }
  }

  lemma NothingStored(s: State)
    requires Initial(s)
    ensures Stored(s) == map[] && Sum(map[]) == 0
  {
  }
}
