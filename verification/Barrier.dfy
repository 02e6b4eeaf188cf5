// pause_threads: the barrier that stops every worker and every background thread while the hash table is switched.
// Each step below is one critical section, or one read or write of a worker's pipe.
module Barrier {

  // Where a worker is: in its event loop, inside an operation, holding the pause byte it read, counted and about to
  // take the hang lock, or holding the hang lock.
  datatype Worker = Idle | Working | Told | Parked | Leaving

  datatype Holder = Free | ByPauser | ByOther(id: nat)

  // Where the pausing thread is: taking the locks of the background threads, holding them and the hang lock, sending
  // the bytes with init_lock held, waiting on the condition, or done.
  datatype Pauser = Away | Taking(k: nat) | Locked | Sending(k: nat) | Waiting | Paused

  // Pipes hold unread pause bytes; count is init_count; background locks are those of the rebalancer, the crawler and
  // the maintainer, each held by its thread while it works.
  datatype World = World(workers: seq<Worker>, pipes: seq<nat>, hang: Holder, count: nat, background: seq<Holder>,
      pauser: Pauser)

  datatype Step =
    | Begin(i: nat) | End(i: nat) | Read(i: nat) | Register(i: nat) | TakeHang(i: nat) | DropHang(i: nat)
    | BackgroundTake(j: nat) | BackgroundDrop(j: nat)
    | Start | TakeLock | LockHang | Reset | Send | Sent | Wake | Resume

  // init_lock is the pauser's from the reset until it waits.
  predicate InitLockFree(w: World) { !w.pauser.Sending? }

  predicate Enabled(w: World, a: Step)
    requires |w.pipes| == |w.workers|
  {
    match a
    case Begin(i) => i < |w.workers| && w.workers[i] == Idle
    case End(i) => i < |w.workers| && w.workers[i] == Working
    case Read(i) => i < |w.workers| && w.workers[i] == Idle && w.pipes[i] > 0
    case Register(i) => i < |w.workers| && w.workers[i] == Told && InitLockFree(w)
    case TakeHang(i) => i < |w.workers| && w.workers[i] == Parked && w.hang == Free
    case DropHang(i) => i < |w.workers| && w.workers[i] == Leaving
    case BackgroundTake(j) => j < |w.background| && w.background[j] == Free
    case BackgroundDrop(j) => j < |w.background| && w.background[j] == ByOther(j)
    case Start => w.pauser == Away
    case TakeLock => w.pauser.Taking? && w.pauser.k < |w.background| && w.background[w.pauser.k] == Free
    case LockHang => w.pauser == Taking(|w.background|) && w.hang == Free
    case Reset => w.pauser == Locked
    case Send => w.pauser.Sending? && w.pauser.k < |w.workers|
    case Sent => w.pauser == Sending(|w.workers|)
    case Wake => w.pauser == Waiting && w.count >= |w.workers|
    case Resume => w.pauser == Paused
  }

  function Apply(w: World, a: Step): World
    requires |w.pipes| == |w.workers| && Enabled(w, a)
  {
    match a
    case Begin(i) => w.(workers := w.workers[i := Working])
    case End(i) => w.(workers := w.workers[i := Idle])
    case Read(i) => w.(workers := w.workers[i := Told], pipes := w.pipes[i := w.pipes[i] - 1])
    case Register(i) => w.(workers := w.workers[i := Parked], count := w.count + 1)
    case TakeHang(i) => w.(workers := w.workers[i := Leaving], hang := ByOther(i))
    case DropHang(i) => w.(workers := w.workers[i := Idle], hang := Free)
    case BackgroundTake(j) => w.(background := w.background[j := ByOther(j)])
    case BackgroundDrop(j) => w.(background := w.background[j := Free])
    case Start => w.(pauser := Taking(0))
    case TakeLock => w.(background := w.background[w.pauser.k := ByPauser], pauser := Taking(w.pauser.k + 1))
    case LockHang => w.(hang := ByPauser, pauser := Locked)
    case Reset => w.(count := 0, pauser := Sending(0))
    case Send => w.(pipes := w.pipes[w.pauser.k := w.pipes[w.pauser.k] + 1], pauser := Sending(w.pauser.k + 1))
    case Sent => w.(pauser := Waiting)
    case Wake => w.(pauser := Paused)
    case Resume => w.(background := seq(|w.background|, j => Free), hang := Free, pauser := Away)
  }

  // After memcached_thread_init: every worker has registered once, and may still be on its way past the hang lock.
  ghost predicate Initial(w: World) {
    && |w.pipes| == |w.workers| == w.count
    && (forall i :: 0 <= i < |w.workers| ==> w.workers[i] in {Idle, Parked} && w.pipes[i] == 0)
    && (forall j :: 0 <= j < |w.background| ==> w.background[j] == Free)
    && w.hang == Free && w.pauser == Away
  }

  ghost predicate IsRun(run: seq<World>, steps: seq<Step>) {
    && |run| == |steps| + 1 && Initial(run[0])
    && forall k :: 0 <= k < |steps| ==>
      |run[k].pipes| == |run[k].workers| && Enabled(run[k], steps[k]) && run[k + 1] == Apply(run[k], steps[k])
  }

  // ---- the invariant ----

  // Counted in this round.
  predicate Here(worker: Worker, pipe: nat) { worker == Parked && pipe == 0 }

  // Asked in this round, and not yet counted.
  predicate Asked(worker: Worker, pipe: nat) {
    if pipe == 1 then worker in {Idle, Working, Parked} else pipe == 0 && worker == Told
  }

  function Arrived(workers: seq<Worker>, pipes: seq<nat>): (n: nat)
    requires |workers| == |pipes|
    ensures n <= |workers|
  {
    if workers == [] then 0
    else var m := |workers| - 1; Arrived(workers[..m], pipes[..m]) + if Here(workers[m], pipes[m]) then 1 else 0
  }

  lemma {:induction false} AllArrived(workers: seq<Worker>, pipes: seq<nat>)
    requires |workers| == |pipes|
    ensures Arrived(workers, pipes) == |workers| <==> forall i :: 0 <= i < |workers| ==> Here(workers[i], pipes[i])
  {
    if workers != [] {
      var m := |workers| - 1;
      AllArrived(workers[..m], pipes[..m]);
      if Arrived(workers, pipes) == |workers| {
        forall i | 0 <= i < |workers|
          ensures Here(workers[i], pipes[i])
        {
          if i < m { assert Here(workers[..m][i], pipes[..m][i]); }
        }
      }
    }
  }

  lemma {:induction false} NoneArrived(workers: seq<Worker>, pipes: seq<nat>)
    requires |workers| == |pipes| && forall i :: 0 <= i < |workers| ==> Asked(workers[i], pipes[i])
    ensures Arrived(workers, pipes) == 0
  {
    if workers != [] {
      var m := |workers| - 1;
      assert Asked(workers[m], pipes[m]);
      NoneArrived(workers[..m], pipes[..m]);
    }
  }

  lemma {:induction false} OneMoves(workers: seq<Worker>, pipes: seq<nat>, i: nat, worker: Worker, pipe: nat)
    requires |workers| == |pipes| && i < |workers|
    ensures Arrived(workers[i := worker], pipes[i := pipe])
      == Arrived(workers, pipes) + (if Here(worker, pipe) then 1 else 0) - (if Here(workers[i], pipes[i]) then 1 else 0)
  {
    var m := |workers| - 1;
    if i < m {
      OneMoves(workers[..m], pipes[..m], i, worker, pipe);
      assert workers[i := worker][..m] == workers[..m][i := worker] && pipes[i := pipe][..m] == pipes[..m][i := pipe];
    } else {
      assert workers[i := worker][..m] == workers[..m] && pipes[i := pipe][..m] == pipes[..m];
    }
  }

  predicate HoldsHang(p: Pauser) { p.Locked? || p.Sending? || p.Waiting? || p.Paused? }

  // The number of background locks the pauser holds.
  function Taken(w: World): nat { match w.pauser case Away => 0 case Taking(k) => k case _ => |w.background| }

  ghost predicate LocksOk(w: World) {
    && (w.hang == ByPauser <==> HoldsHang(w.pauser))
    && (forall i :: 0 <= i < |w.workers| ==> (w.workers[i] == Leaving <==> w.hang == ByOther(i)))
    && Taken(w) <= |w.background|
    && (forall j :: 0 <= j < |w.background| ==>
          if j < Taken(w) then w.background[j] == ByPauser else w.background[j] in {Free, ByOther(j)})
  }

  predicate WorkerOk(p: Pauser, i: nat, worker: Worker, pipe: nat) {
    match p
    case Waiting => Here(worker, pipe) || Asked(worker, pipe)
    case Paused => Here(worker, pipe)
    case Sending(k) => if i < k then Asked(worker, pipe) else pipe == 0 && worker in {Idle, Working, Parked}
    case _ => pipe == 0 && worker != Told
  }

  predicate CountOk(p: Pauser, count: nat, n: nat, arrived: int) {
    match p
    case Waiting => count == arrived
    case Sending(k) => count == 0 && k <= n
    case _ => true
  }

  ghost predicate WorkersOk(w: World)
    requires |w.pipes| == |w.workers|
  {
    && (forall i: nat :: i < |w.workers| ==> WorkerOk(w.pauser, i, w.workers[i], w.pipes[i]))
    && CountOk(w.pauser, w.count, |w.workers|, Arrived(w.workers, w.pipes))
  }

  ghost predicate Inv(w: World) { |w.pipes| == |w.workers| && LocksOk(w) && WorkersOk(w) }

  lemma LocksKept(w: World, a: Step)
    requires |w.pipes| == |w.workers| && LocksOk(w) && Enabled(w, a)
    ensures LocksOk(Apply(w, a))
  {
  }

  predicate ByWorker(a: Step) { a.Begin? || a.End? || a.Read? || a.Register? || a.TakeHang? || a.DropHang? }

  lemma WorkerKept(w: World, a: Step)
    requires Inv(w) && Enabled(w, a) && ByWorker(a)
    ensures WorkersOk(Apply(w, a))
  {
    hide Arrived, LocksOk, Here, Asked, WorkersOk;
    var z, i := Apply(w, a), a.i;
    OneWorker(w, a);
    OneMoves(w.workers, w.pipes, i, z.workers[i], z.pipes[i]);
    Rejoin(w, z, i);
  }

  // Only worker i has changed, and for the better.
  lemma Rejoin(w: World, z: World, i: nat)
    requires |w.pipes| == |w.workers| == |z.workers| == |z.pipes| && i < |w.workers| && w.pauser == z.pauser
        && WorkersOk(w)
    requires z.workers == w.workers[i := z.workers[i]] && z.pipes == w.pipes[i := z.pipes[i]]
    requires WorkerOk(z.pauser, i, z.workers[i], z.pipes[i])
        && CountOk(z.pauser, z.count, |z.workers|, Arrived(z.workers, z.pipes))
    ensures WorkersOk(z)
  {
    hide WorkerOk, CountOk, Arrived;
  }

  lemma OneWorker(w: World, a: Step)
    requires Inv(w) && Enabled(w, a) && ByWorker(a)
    ensures var z, i := Apply(w, a), a.i;
      && i < |w.workers| == |z.workers| == |z.pipes| && z.pauser == w.pauser
      && z.workers == w.workers[i := z.workers[i]] && z.pipes == w.pipes[i := z.pipes[i]]
      && WorkerOk(z.pauser, i, z.workers[i], z.pipes[i])
      && CountOk(z.pauser, z.count, |z.workers|, Arrived(w.workers, w.pipes)
           + (if Here(z.workers[i], z.pipes[i]) then 1 else 0) - (if Here(w.workers[i], w.pipes[i]) then 1 else 0))
  {
    hide Arrived;
    assert WorkerOk(w.pauser, a.i, w.workers[a.i], w.pipes[a.i]);
  }

  lemma PauserKept(w: World, a: Step)
    requires Inv(w) && Enabled(w, a) && !ByWorker(a)
    ensures WorkersOk(Apply(w, a))
  {
    hide LocksOk, Arrived;
    var z := Apply(w, a);
    match a
    case Reset => NobodyLeaving(w);
    case Sent =>
      forall i | 0 <= i < |w.workers|
        ensures Asked(w.workers[i], w.pipes[i])
      {
        assert WorkerOk(w.pauser, i, w.workers[i], w.pipes[i]);
      }
      NoneArrived(w.workers, w.pipes);
    case Wake => AllArrived(w.workers, w.pipes);
    case _ =>
  }

  lemma NobodyLeaving(w: World)
    requires LocksOk(w) && w.pauser == Locked
    ensures forall i :: 0 <= i < |w.workers| ==> w.workers[i] != Leaving
  {
  }

  lemma {:induction false} RunInv(run: seq<World>, steps: seq<Step>, k: nat)
    requires IsRun(run, steps) && k < |run|
    ensures Inv(run[k])
  {
    hide Inv, Enabled, Apply;
    if k == 0 {
      InitialInv(run[0]);
    } else {
      RunInv(run, steps, k - 1);
      InvKept(run[k - 1], steps[k - 1]);
    }
  }

  lemma InitialInv(w: World)
    requires Initial(w)
    ensures Inv(w)
  {
  }

  lemma InvKept(w: World, a: Step)
    requires |w.pipes| == |w.workers| && Inv(w) && Enabled(w, a)
    ensures Inv(Apply(w, a))
  {
    LocksKept(w, a);
    hide LocksOk, WorkersOk, Enabled, Apply;
    if ByWorker(a) { WorkerKept(w, a); } else { PauserKept(w, a); }
  }

  // ---- what the barrier is for ----

  // When pause_threads has returned, no worker is inside an operation, none can begin one, and no background thread
  // holds its lock: whatever step comes next, either the pause is over or all of this still holds.
  lemma PausedMeansQuiet(run: seq<World>, steps: seq<Step>, k: nat)
    requires IsRun(run, steps) && k < |run| && run[k].pauser == Paused
    ensures forall i :: 0 <= i < |run[k].workers| ==> run[k].workers[i] == Parked
    ensures forall j :: 0 <= j < |run[k].background| ==> run[k].background[j] == ByPauser
    ensures k < |steps| ==> steps[k] == Resume
  {
    RunInv(run, steps, k);
  }

  ghost predicate Stuck(w: World, i: nat) {
    i < |w.workers| == |w.pipes| && w.pauser == Waiting && w.workers[i] == Parked && w.pipes[i] == 1
  }

  lemma StaysStuck(w: World, a: Step, i: nat)
    requires Inv(w) && Enabled(w, a) && Stuck(w, i)
    ensures Stuck(Apply(w, a), i)
  {
    hide Arrived;
    AllArrived(w.workers, w.pipes);
    assert !Here(w.workers[i], w.pipes[i]) && w.hang == ByPauser;
    hide LocksOk, WorkerOk, Here, Asked;
  }

  // The barrier may hang, though never break: a worker that is still leaving the last round when the next one locks it
  // out can not read its byte, and then the pauser waits for ever.
  lemma {:induction false} OvertakenNeverWakes(run: seq<World>, steps: seq<Step>, k: nat, m: nat, i: nat)
    requires IsRun(run, steps) && k <= m < |run| && Stuck(run[k], i)
    ensures Stuck(run[m], i)
  {
    hide Inv, Enabled, Apply, Stuck, Initial;
    if k < m {
      OvertakenNeverWakes(run, steps, k, m - 1, i);
      RunInv(run, steps, m - 1);
      StaysStuck(run[m - 1], steps[m - 1], i);
    }
  }

  ghost predicate Reaches(run: seq<World>, steps: seq<Step>, w: World) { IsRun(run, steps) && run[|run| - 1] == w }

  lemma Then(run: seq<World>, steps: seq<Step>, w: World, a: Step, z: World) returns (r: seq<World>, s: seq<Step>)
    requires Reaches(run, steps, w) && |w.pipes| == |w.workers| && Enabled(w, a) && Apply(w, a) == z
    ensures Reaches(r, s, z)
  {
    hide Enabled, Apply, Initial;
    r, s := run + [z], steps + [a];
  }

  function Lone(p: Pauser, hang: Holder, count: nat, pipe: nat): World { World([Parked], [pipe], hang, count, [], p) }

  lemma LoneSteps()
    ensures Enabled(Lone(Away, Free, 1, 0), Start)
        && Apply(Lone(Away, Free, 1, 0), Start) == Lone(Taking(0), Free, 1, 0)
    ensures Enabled(Lone(Taking(0), Free, 1, 0), LockHang)
        && Apply(Lone(Taking(0), Free, 1, 0), LockHang) == Lone(Locked, ByPauser, 1, 0)
    ensures Enabled(Lone(Locked, ByPauser, 1, 0), Reset)
        && Apply(Lone(Locked, ByPauser, 1, 0), Reset) == Lone(Sending(0), ByPauser, 0, 0)
    ensures Enabled(Lone(Sending(0), ByPauser, 0, 0), Send)
        && Apply(Lone(Sending(0), ByPauser, 0, 0), Send) == Lone(Sending(1), ByPauser, 0, 1)
    ensures Enabled(Lone(Sending(1), ByPauser, 0, 1), Sent)
        && Apply(Lone(Sending(1), ByPauser, 0, 1), Sent) == Lone(Waiting, ByPauser, 0, 1)
  {
    assert [0][0 := 1] == [1];
  }

  // Such a round exists: the only worker has registered at start-up, and the first pause comes before it has moved on.
  lemma OvertakingHappens() returns (run: seq<World>, steps: seq<Step>)
    ensures IsRun(run, steps) && Stuck(run[|run| - 1], 0)
  {
    run, steps := [Lone(Away, Free, 1, 0)], [];
    assert Reaches(run, steps, Lone(Away, Free, 1, 0));
    LoneSteps();
    hide Enabled, Apply, IsRun;
    run, steps := Then(run, steps, Lone(Away, Free, 1, 0), Start, Lone(Taking(0), Free, 1, 0));
    run, steps := Then(run, steps, Lone(Taking(0), Free, 1, 0), LockHang, Lone(Locked, ByPauser, 1, 0));
    run, steps := Then(run, steps, Lone(Locked, ByPauser, 1, 0), Reset, Lone(Sending(0), ByPauser, 0, 0));
    run, steps := Then(run, steps, Lone(Sending(0), ByPauser, 0, 0), Send, Lone(Sending(1), ByPauser, 0, 1));
    run, steps := Then(run, steps, Lone(Sending(1), ByPauser, 0, 1), Sent, Lone(Waiting, ByPauser, 0, 1));
  }
}
