// How an overfull hash table asks the maintenance thread for a bigger one, and when the thread never hears of it.
module AssocRequest {
  import opened AssocSpec

  // Where the maintenance thread is: migrating buckets or past them, having cleared started_expanding, waiting on
  // maintenance_cond, woken and on its way to assoc_expand.
  datatype Thread = Working | Cleared | Waiting | Woken

  // requesting: a worker has set started_expanding and will signal next; it holds hash_items_counter_lock.
  datatype World = World(items: nat, power: nat, expanding: bool, started: bool, requesting: bool, thread: Thread)

  datatype Step =
    | Insert | Delete | Signal
    | Clear | Wait | Grow(room: bool) | Done
    | Spurious                 // pthread_cond_wait may return without a signal

  predicate Overfull(items: nat, power: nat) { items > Size(power) * 3 / 2 }

  predicate Enabled(w: World, a: Step) {
    match a
    case Insert => !w.requesting
    case Delete => !w.requesting && w.items > 0
    case Signal => w.requesting
    case Clear => w.thread == Working && !w.expanding
    case Wait => w.thread == Cleared
    case Grow(_) => w.thread == Woken && !w.requesting   // all workers are paused outside their operations
    case Done => w.thread == Working && w.expanding
    case Spurious => w.thread == Waiting
  }

  function Apply(w: World, a: Step): World
    requires Enabled(w, a)
  {
    match a
    case Insert =>
      var asks := !w.expanding && Overfull(w.items + 1, w.power) && !w.started;
      w.(items := w.items + 1, started := w.started || asks, requesting := asks)
    case Delete => w.(items := w.items - 1)
    case Signal => w.(requesting := false, thread := if w.thread == Waiting then Woken else w.thread)
    case Clear => w.(started := false, thread := Cleared)
    case Wait => w.(thread := Waiting)
    case Grow(room) =>
      if room then w.(power := w.power + 1, expanding := true, thread := Working) else w.(thread := Working)
    case Done => w.(expanding := false)
    case Spurious => w.(thread := Woken)
  }

  function Start(power: nat): World { World(0, power, false, false, false, Working) }

  // The thread is at work on an expansion, if there is one.
  predicate Inv(w: World) { w.thread != Working ==> !w.expanding }

  // The flag is up and nobody will signal: the request has fallen on deaf ears.
  predicate Lost(w: World) { w.started && !w.requesting && w.thread in {Cleared, Waiting} && !w.expanding }

  ghost predicate Runs(w: World, steps: seq<Step>, z: World)
    decreases |steps|
  {
    if steps == [] then z == w
    else Enabled(w, steps[0]) && Runs(Apply(w, steps[0]), steps[1..], z)
  }

  lemma {:induction false} RunsOn(w: World, s: seq<Step>, x: World, t: seq<Step>, z: World)
    requires Runs(w, s, x) && Runs(x, t, z)
    ensures Runs(w, s + t, z)
    decreases |s|
  {
    hide Enabled, Apply;
    if s == [] {
      assert s + t == t;
    } else {
      assert (s + t)[1..] == s[1..] + t;
      RunsOn(Apply(w, s[0]), s[1..], x, t, z);
    }
  }

  lemma InvKept(w: World, a: Step)
    requires Inv(w) && Enabled(w, a)
    ensures Inv(Apply(w, a))
  {
  }

  lemma {:induction false} RunsInv(w: World, steps: seq<Step>, z: World)
    requires Inv(w) && Runs(w, steps, z)
    ensures Inv(z)
    decreases |steps|
  {
    hide Inv, Enabled, Apply;
    if steps != [] {
      InvKept(w, steps[0]);
      RunsInv(Apply(w, steps[0]), steps[1..], z);
    }
  }

  // ---- a request is lost ----

  // It happens to a signal that comes between the clearing of the flag and the wait, when the flag was set there too.
  lemma LostAt(w: World, a: Step)
    requires Inv(w) && Enabled(w, a) && !Lost(w)
    ensures Lost(Apply(w, a)) <==> a == Signal && w.thread == Cleared && w.started
  {
  }

  lemma {:induction false} LostForGood(w: World, steps: seq<Step>, z: World)
    requires Lost(w) && Runs(w, steps, z) && Spurious !in steps
    ensures Lost(z) && z.power == w.power
    decreases |steps|
  {
    if steps != [] {
      LostForGood(Apply(w, steps[0]), steps[1..], z);
    }
  }

  // ---- a request that is not lost ----

  // The table has grown.
  ghost predicate Grows(w: World, steps: seq<Step>) {
    Spurious !in steps && exists z :: Runs(w, steps, z) && z.power > w.power
  }

  lemma First(w: World, a: Step, steps: seq<Step>)
    requires Enabled(w, a) && a != Spurious && Apply(w, a).power == w.power && Grows(Apply(w, a), steps)
    ensures Grows(w, [a] + steps)
  {
    hide Enabled, Apply;
    var z :| Runs(Apply(w, a), steps, z) && z.power > Apply(w, a).power;
    assert ([a] + steps)[1..] == steps;
    assert Runs(w, [a] + steps, z);
  }

  lemma FromWoken(w: World) returns (steps: seq<Step>)
    requires w.thread == Woken && !w.requesting
    ensures Grows(w, steps)
  {
    steps := [Grow(true)];
    var z := Apply(w, Grow(true));
    assert Runs(z, steps[1..], z);
    assert Runs(w, steps, z);
  }

  lemma FromRequest(w: World) returns (steps: seq<Step>)
    requires w.thread in {Waiting, Woken} && w.requesting
    ensures Grows(w, steps)
  {
    hide Grows;
    steps := FromWoken(Apply(w, Signal));
    First(w, Signal, steps);
    steps := [Signal] + steps;
  }

  // Inserts go on until the table is overfull.
  lemma {:induction false} FillUp(w: World) returns (steps: seq<Step>, x: World)
    requires !w.expanding && !w.requesting && !w.started
    ensures Runs(w, steps, x) && Spurious !in steps && Overfull(x.items, w.power)
    ensures x == w.(items := x.items, started := true, requesting := true)
    decreases Size(w.power) * 3 / 2 - w.items
  {
    var a := Apply(w, Insert);
    var rest := [];
    if a.requesting {
      x := a;
    } else {
      rest, x := FillUp(a);
    }
    steps := [Insert] + rest;
    assert steps[1..] == rest;
  }

  lemma After(w: World, steps: seq<Step>, x: World, rest: seq<Step>)
    requires Runs(w, steps, x) && Spurious !in steps && x.power == w.power && Grows(x, rest)
    ensures Grows(w, steps + rest)
  {
    hide Runs;
    var z :| Runs(x, rest, z) && z.power > x.power;
    RunsOn(w, steps, x, rest, z);
  }

  lemma FromWaiting(w: World) returns (steps: seq<Step>)
    requires Inv(w) && w.thread == Waiting && !w.requesting && !w.started
    ensures Grows(w, steps)
  {
    hide Grows, Runs;
    var fill, x := FillUp(w);
    var rest := FromRequest(x);
    After(w, fill, x, rest);
    steps := fill + rest;
  }

  lemma FromCleared(w: World) returns (steps: seq<Step>)
    requires Inv(w) && w.thread == Cleared && !Lost(w)
    ensures Grows(w, steps)
  {
    hide Grows;
    var x := Apply(w, Wait);
    if x.requesting {
      steps := FromRequest(x);
    } else {
      steps := FromWaiting(x);
    }
    First(w, Wait, steps);
    steps := [Wait] + steps;
  }

  lemma FromWorking(w: World) returns (steps: seq<Step>)
    requires Inv(w) && w.thread == Working
    ensures Grows(w, steps)
  {
    hide Grows;
    var x := if w.expanding then Apply(w, Done) else w;
    steps := FromCleared(Apply(x, Clear));
    First(x, Clear, steps);
    steps := [Clear] + steps;
    if w.expanding {
      First(w, Done, steps);
      steps := [Done] + steps;
    }
  }

  // The table can still grow, by what its threads do on their own, exactly when no request has been lost.
  lemma GrowsIffHeard(power: nat, before: seq<Step>, w: World)
    requires Runs(Start(power), before, w)
    ensures (exists steps :: Grows(w, steps)) <==> !Lost(w)
  {
    RunsInv(Start(power), before, w);
    if Lost(w) {
      forall steps ensures !Grows(w, steps) {
        if Grows(w, steps) {
          var z :| Runs(w, steps, z) && z.power > w.power;
          LostForGood(w, steps, z);
        }
      }
    } else {
      hide Grows, Runs;
      var steps: seq<Step>;
      match w.thread {
        case Working => steps := FromWorking(w);
        case Cleared => steps := FromCleared(w);
        case Waiting => if w.requesting { steps := FromRequest(w); } else { steps := FromWaiting(w); }
        case Woken =>
          if w.requesting { steps := FromRequest(w); } else { steps := FromWoken(w); }
      }
    }
  }

  // And it can happen to a table of any size: the insert that makes it overfull signals before the thread waits.
  lemma RequestCanBeLost(power: nat) returns (steps: seq<Step>, w: World)
    ensures Runs(Start(power), steps, w) && Spurious !in steps
    ensures Lost(w) && w.thread == Waiting && Overfull(w.items, w.power)
  {
    hide Overfull;
    var a := Apply(Start(power), Clear);
    var fill, b := FillUp(a);
    var c := Apply(b, Signal);
    w := Apply(c, Wait);
    assert [Signal, Wait][1..] == [Wait] && [Wait][1..] == [] && ([Clear] + fill)[1..] == fill;
    assert Runs(w, [], w);
    assert Runs(c, [Wait], w);
    assert Runs(b, [Signal, Wait], w);
    assert Runs(Start(power), [Clear] + fill, b);
    RunsOn(Start(power), [Clear] + fill, b, [Signal, Wait], w);
    steps := [Clear] + fill + [Signal, Wait];
  }
}
