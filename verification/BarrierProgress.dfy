// When pause_threads returns, and when it never will.
module BarrierProgress {
  import opened Barrier

  ghost predicate Runs(w: World, steps: seq<Step>, z: World)
    decreases |steps|
  {
    if steps == [] then z == w
    else |w.pipes| == |w.workers| && Enabled(w, steps[0]) && Runs(Apply(w, steps[0]), steps[1..], z)
  }

  lemma {:induction false} RunsOn(w: World, s: seq<Step>, x: World, t: seq<Step>, z: World)
    requires Runs(w, s, x) && Runs(x, t, z)
    ensures Runs(w, s + t, z)
    decreases |s|
  {
    hide Enabled, Apply;
    if s == [] {
      assert s + t == t;
    } else {
      assert (s + t)[1..] == s[1..] + t;
      RunsOn(Apply(w, s[0]), s[1..], x, t, z);
    }
  }

  lemma OneStep(w: World, a: Step)
    requires |w.pipes| == |w.workers| && Enabled(w, a)
    ensures Runs(w, [a], Apply(w, a))
  {
    hide Enabled, Apply;
    assert [a][1..] == [];
    assert Runs(Apply(w, a), [], Apply(w, a));
  }

  // ---- a worker that is left behind ----

  // The pause has begun while worker i was still on its way past the hang lock: it stays there.
  predicate LeftBehind(p: Pauser, worker: Worker, pipe: nat, i: nat) {
    && worker == Parked
    && match p
       case Locked => pipe == 0
       case Sending(k) => pipe == if i < k then 1 else 0
       case Waiting => pipe == 1
       case _ => false
  }

  ghost predicate Behind(w: World, i: nat) {
    i < |w.workers| == |w.pipes| && LeftBehind(w.pauser, w.workers[i], w.pipes[i], i)
  }

  lemma StaysBehind(w: World, a: Step, i: nat)
    requires Inv(w) && Enabled(w, a) && Behind(w, i)
    ensures Behind(Apply(w, a), i)
  {
    hide Arrived;
    AllArrived(w.workers, w.pipes);
    assert w.hang == ByPauser && (w.pauser == Waiting ==> !Here(w.workers[i], w.pipes[i]));
    hide LocksOk, WorkerOk, Here, Asked;
  }

  lemma {:induction false} NeverPaused(w: World, steps: seq<Step>, z: World, i: nat)
    requires Inv(w) && Behind(w, i) && Runs(w, steps, z)
    ensures z.pauser != Paused
    decreases |steps|
  {
    hide Inv, Enabled, Apply;
    if steps != [] {
      StaysBehind(w, steps[0], i);
      InvKept(w, steps[0]);
      NeverPaused(Apply(w, steps[0]), steps[1..], z, i);
    }
  }

  // ---- nobody is left behind ----

  // A worker that can still answer, or has.
  predicate WillAnswer(p: Pauser, worker: Worker, pipe: nat, i: nat) {
    match p
    case Locked => pipe == 0 && worker in {Idle, Working}
    case Sending(k) => if i < k then Answering(worker, pipe) else pipe == 0 && worker in {Idle, Working}
    case Waiting => Here(worker, pipe) || Answering(worker, pipe)
    case Paused => true
    case _ => false
  }

  predicate Answering(worker: Worker, pipe: nat) {
    if pipe == 1 then worker in {Idle, Working} else pipe == 0 && worker == Told
  }

  ghost predicate OnTime(w: World)
    requires |w.pipes| == |w.workers|
  {
    HoldsHang(w.pauser) && forall i: nat :: i < |w.workers| ==> WillAnswer(w.pauser, w.workers[i], w.pipes[i], i)
  }

  lemma OnTimeKept(w: World, a: Step)
    requires Inv(w) && Enabled(w, a) && OnTime(w) && a != Resume
    ensures OnTime(Apply(w, a))
  {
    hide Arrived, CountOk;
    var z := Apply(w, a);
    assert w.hang == ByPauser;
    forall i: nat | i < |z.workers| ensures WillAnswer(z.pauser, z.workers[i], z.pipes[i], i) {
      assert WillAnswer(w.pauser, w.workers[i], w.pipes[i], i) && WorkerOk(w.pauser, i, w.workers[i], w.pipes[i]);
    }
  }

  lemma {:induction false} OnTimeRun(w: World, steps: seq<Step>, z: World)
    requires Inv(w) && OnTime(w) && Runs(w, steps, z) && Resume !in steps
    ensures Inv(z) && OnTime(z)
    decreases |steps|
  {
    hide Inv, Enabled, Apply, OnTime;
    if steps != [] {
      OnTimeKept(w, steps[0]);
      InvKept(w, steps[0]);
      OnTimeRun(Apply(w, steps[0]), steps[1..], z);
    }
  }

  function StepsLeft(worker: Worker): nat {
    match worker case Working => 3 case Idle => 2 case Told => 1 case _ => 0
  }

  // Worker i ends its operation, reads its byte and registers.
  lemma {:induction false} Bring(w: World, i: nat) returns (steps: seq<Step>, z: World)
    requires Inv(w) && w.pauser == Waiting && OnTime(w) && i < |w.workers|
    ensures Runs(w, steps, z) && Inv(z) && OnTime(z) && z.pauser == Waiting
    ensures z.workers == w.workers[i := Parked] && z.pipes == w.pipes[i := 0]
    decreases StepsLeft(w.workers[i])
  {
    hide Inv, OnTime;
    Answers(w, i);
    if Here(w.workers[i], w.pipes[i]) {
      steps, z := [], w;
      assert Runs(w, steps, z);
    } else {
      var a := match w.workers[i] case Working => End(i) case Idle => Read(i) case _ => Register(i);
      var x := Apply(w, a);
      OneStep(w, a);
      OnTimeKept(w, a);
      InvKept(w, a);
      var rest;
      rest, z := Bring(x, i);
      RunsOn(w, [a], x, rest, z);
      steps := [a] + rest;
    }
  }

  lemma Answers(w: World, i: nat)
    requires Inv(w) && OnTime(w) && i < |w.workers|
    ensures |w.pipes| == |w.workers| && WillAnswer(w.pauser, w.workers[i], w.pipes[i], i)
  {
  }

  lemma {:induction false} BringAll(w: World, n: nat) returns (steps: seq<Step>, z: World)
    requires Inv(w) && w.pauser == Waiting && OnTime(w) && n <= |w.workers|
    requires forall j :: n <= j < |w.workers| ==> Here(w.workers[j], w.pipes[j])
    ensures Runs(w, steps, z) && Inv(z) && z.pauser == Waiting
    ensures forall j :: 0 <= j < |z.workers| ==> Here(z.workers[j], z.pipes[j])
    decreases n
  {
    hide OnTime, LocksOk, WorkersOk, Enabled, Apply;
    if n == 0 {
      steps, z := [], w;
      assert Runs(w, steps, z);
    } else {
      var s, x := Bring(w, n - 1);
      var t;
      t, z := BringAll(x, n - 1);
      RunsOn(w, s, x, t, z);
      steps := s + t;
    }
  }

  ghost predicate CanPause(w: World) { exists steps, z :: Runs(w, steps, z) && z.pauser == Paused }

  lemma CanAfter(w: World, a: Step)
    requires |w.pipes| == |w.workers| && Enabled(w, a) && CanPause(Apply(w, a))
    ensures CanPause(w)
  {
    hide Enabled, Apply, Runs;
    var s, z :| Runs(Apply(w, a), s, z) && z.pauser == Paused;
    OneStep(w, a);
    RunsOn(w, [a], Apply(w, a), s, z);
  }

  lemma WaitingEnds(w: World)
    requires Inv(w) && OnTime(w) && w.pauser == Waiting
    ensures CanPause(w)
  {
    hide OnTime, LocksOk, Runs;
    var s, x := BringAll(w, |w.workers|);
    AllArrived(x.workers, x.pipes);
    hide Arrived;
    OneStep(x, Wake);
    RunsOn(w, s, x, [Wake], Apply(x, Wake));
  }

  lemma {:induction false} SendingEnds(w: World)
    requires Inv(w) && OnTime(w) && w.pauser.Sending?
    ensures CanPause(w)
    decreases |w.workers| - w.pauser.k
  {
    hide OnTime, LocksOk, CanPause;
    SendingBound(w);
    hide WorkersOk;
    var a := if w.pauser.k < |w.workers| then Send else Sent;
    OnTimeKept(w, a);
    InvKept(w, a);
    if a == Send { SendingEnds(Apply(w, a)); } else { WaitingEnds(Apply(w, a)); }
    CanAfter(w, a);
  }

  lemma SendingBound(w: World)
    requires Inv(w) && w.pauser.Sending?
    ensures w.pauser.k <= |w.workers|
  {
  }

  // From wherever the round has got to, there is a way to its end.
  lemma OnTimeEnds(w: World)
    requires Inv(w) && OnTime(w)
    ensures CanPause(w)
  {
    hide Inv, OnTime;
    if w.pauser == Paused {
      assert Runs(w, [], w);
    } else if w.pauser == Waiting {
      WaitingEnds(w);
    } else if w.pauser.Sending? {
      SendingEnds(w);
    } else {
      HangHeld(w);
      OnTimeKept(w, Reset);
      InvKept(w, Reset);
      SendingEnds(Apply(w, Reset));
      CanAfter(w, Reset);
    }
  }

  lemma HangHeld(w: World)
    requires Inv(w) && OnTime(w)
    ensures |w.pipes| == |w.workers| && HoldsHang(w.pauser)
  {
  }

  // ---- when a pause completes ----

  // Wherever the threads go from here, short of the resume, the pause can still be completed.
  ghost predicate Completes(w: World) {
    forall steps, z :: Runs(w, steps, z) && Resume !in steps ==> CanPause(z)
  }

  // Wherever they go, it is never completed.
  ghost predicate NeverCompletes(w: World) { forall steps, z :: Runs(w, steps, z) ==> z.pauser != Paused }

  // Once pause_threads has the hang lock, all is decided: with a worker still on its way past that lock from the round
  // before the pause is never completed, and without one nothing the threads do can keep it from completion.
  lemma PauseCompletesIffNobodyIsBehind(run: seq<World>, steps: seq<Step>, n: nat)
    requires IsRun(run, steps) && n < |steps| && steps[n] == LockHang
    ensures Completes(run[n + 1]) <==> Parked !in run[n].workers
    ensures NeverCompletes(run[n + 1]) <==> Parked in run[n].workers
  {
    hide Initial, Enabled, Apply, Inv, Runs, CanPause, OnTime;
    var w, z := run[n], run[n + 1];
    HangTaken(run, steps, n);
    if Parked in w.workers {
      var i: nat :| i < |w.workers| && w.workers[i] == Parked;
      forall more, y | Runs(z, more, y) ensures y.pauser != Paused { NeverPaused(z, more, y, i); }
      hide CanPause;
      NotBoth(z);
    } else {
      forall more, y | Runs(z, more, y) && Resume !in more ensures CanPause(y) {
        OnTimeRun(z, more, y);
        OnTimeEnds(y);
      }
      NotBoth(z);
    }
  }

  lemma HangTaken(run: seq<World>, steps: seq<Step>, n: nat)
    requires IsRun(run, steps) && n < |steps| && steps[n] == LockHang
    ensures Inv(run[n + 1])
    ensures forall i: nat :: i < |run[n].workers| && run[n].workers[i] == Parked ==> Behind(run[n + 1], i)
    ensures Parked !in run[n].workers ==> |run[n + 1].pipes| == |run[n + 1].workers| && OnTime(run[n + 1])
  {
    RunInv(run, steps, n);
    RunInv(run, steps, n + 1);
    hide Arrived;
    var w, z := run[n], run[n + 1];
    assert z == Apply(w, LockHang);
    forall i: nat | i < |w.workers| ensures w.pipes[i] == 0 && w.workers[i] in {Idle, Working, Parked} {
      assert WorkerOk(w.pauser, i, w.workers[i], w.pipes[i]);
    }
  }

  lemma NotBoth(w: World)
    ensures !(Completes(w) && NeverCompletes(w))
  {
    hide CanPause;
    assert Runs(w, [], w) && Resume !in [];
    if Completes(w) && NeverCompletes(w) {
      assert CanPause(w);
      Reached(w);
    }
  }

  lemma Reached(w: World)
    requires CanPause(w)
    ensures !NeverCompletes(w)
  {
  }
}
