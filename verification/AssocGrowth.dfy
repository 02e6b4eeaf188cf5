// How long the hash table grows, whatever else goes on in it.
module AssocGrowth {
  import opened Memory
  import opened AssocSpec
  import opened AssocProofs
  import opened AssocRuns

  // Old buckets given up among these steps.
  function Turns(steps: seq<Step>): nat {
    if steps == [] then 0
    else Turns(steps[..|steps| - 1]) + if steps[|steps| - 1].SNextBucket? then 1 else 0
  }

  // Power, cursor and flag change when an expansion starts and when a bucket has been emptied.
  lemma StepGrowth(c: Config, w: World, m: map<Key, Ptr>, a: Step)
    requires Inv(c, w, m) && Enabled(c, w, a)
    ensures var t, t1 := w.t, Apply(c, w, a).t;
      && (a.SExpand? ==> t1.power == t.power + 1 && t1.expanding && t1.cursor == 0)
      && (a.SNextBucket? ==>
            && t.expanding && t.power > 0 && t.cursor < Size(t.power - 1)
            && t1.power == t.power && t1.cursor == t.cursor + 1 && (t1.expanding <==> t1.cursor < Size(t.power - 1)))
      && (!a.SExpand? && !a.SNextBucket? ==>
            t1.power == t.power && t1.expanding == t.expanding && t1.cursor == t.cursor)
  {
    hide Placed, Once, Agrees, Exclusive, OpsOk, Mask;
  }

  // An expansion doubles the table and lasts exactly as many turns of the maintenance thread as there are old buckets.
  lemma {:induction false} ExpansionEnds(c: Config, run: seq<World>, steps: seq<Step>, i: nat, j: nat)
    requires IsRun(c, run, steps) && i < j <= |steps| && steps[i].SExpand?
    requires forall n :: i < n < j ==> !steps[n].SExpand?
    ensures var turns, n, t := Turns(steps[i + 1..j]), Size(run[i].t.power), run[j].t;
      && t.power == run[i].t.power + 1 && |t.primary| == 2 * n
      && turns <= n && t.cursor == turns && (t.expanding <==> turns < n) && (!t.expanding ==> t.prior == [])
    decreases j
  {
    hide Inv, Enabled, Apply;
    RunInv(c, run, steps, j - 1);
    RunInv(c, run, steps, j);
    StepGrowth(c, run[j - 1], MeaningOf(steps[..j - 1]), steps[j - 1]);
    ShapeOf(c, run[j], MeaningOf(steps[..j]));
    if i + 1 < j {
      ExpansionEnds(c, run, steps, i, j - 1);
      assert steps[i + 1..j][..j - i - 2] == steps[i + 1..j - 1];
    }
  }

  lemma ShapeOf(c: Config, w: World, m: map<Key, Ptr>)
    requires Inv(c, w, m)
    ensures w.t.power > 0 && |w.t.primary| == 2 * Size(w.t.power - 1) && (!w.t.expanding ==> w.t.prior == [])
  {
    hide Placed, Once, Agrees, Exclusive, OpsOk;
  }
}
