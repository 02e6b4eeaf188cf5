// Pieces of runs of the store.
module StoreRuns {
  import opened Memory
  import opened CacheSpec
  import opened Store
  import opened StoreProofs

  // z is reached from w by the given steps.
  ghost predicate Runs(w: World, steps: seq<Step>, z: World)
    decreases |steps|
  {
    if steps == [] then z == w
    else Enabled(w, steps[0]) && w.env.now > 0 && Runs(Apply(w, steps[0]), steps[1..], z)
  }

  lemma {:induction false} RunsOn(w: World, s: seq<Step>, x: World, t: seq<Step>, z: World)
    requires Runs(w, s, x) && Runs(x, t, z)
    ensures Runs(w, s + t, z)
    decreases |s|
  {
    hide Enabled, Apply;
    if s == [] {
      assert s + t == t;
    } else {
      assert (s + t)[1..] == s[1..] + t;
      RunsOn(Apply(w, s[0]), s[1..], x, t, z);
    }
  }

  lemma RunsOne(w: World, a: Step)
    requires Enabled(w, a) && w.env.now > 0
    ensures Runs(w, [a], Apply(w, a))
  {
    hide Enabled, Apply;
    assert [a][1..] == [];
    assert Runs(Apply(w, a), [], Apply(w, a));
  }

  lemma RunsTwo(w: World, a: Step, b: Step, z: World)
    requires Runs(w, [a, b], z)
    ensures Enabled(w, a) && w.env.now > 0 && Enabled(Apply(w, a), b) && Apply(w, a).env.now > 0
    ensures z == Apply(Apply(w, a), b)
  {
    hide Enabled, Apply;
    assert [a, b][1..] == [b] && [b][1..] == [];
    assert Runs(Apply(w, a), [b], z);
  }

  lemma {:induction false} RunsInv(w: World, steps: seq<Step>, z: World)
    requires Inv(w) && Runs(w, steps, z)
    ensures Inv(z)
    decreases |steps|
  {
    hide Inv, Enabled, Apply;
    if steps != [] {
      EachStepOk(w, steps[0]);
      RunsInv(Apply(w, steps[0]), steps[1..], z);
    }
  }
}
