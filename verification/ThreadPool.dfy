/** The thread pool (include/common/thread_pool.hpp and src/common/thread_pool.cpp) under every
    interleaving of its submitters, its workers and its shutdown. Each region under the mutex, and
    each notification after it, is one step. */
module ThreadPool {

  /** A ticket that stands for one packaged task. */
  type Task = nat

  datatype Worker =
    | AtLock            // about to take the mutex and look at the queue
    | Parked            // inside cv_.wait, with the mutex released
    | Running(task: Task)
    | Exited

  /** `signals` submitters have queued their task but not yet called notify_one; `stopping` says
      that the shutdown has set `stop_` but not yet called notify_all. `accepted`, `started` and
      `finished` record the tasks in the order in which that happened to them. */
  datatype State = State(
    tasks: seq<Task>,
    stop: bool,
    workers: seq<Worker>,
    signals: nat,
    stopping: bool,
    accepted: seq<Task>,
    started: seq<Task>,
    finished: seq<Task>)

  datatype Step =
    | Submit(task: Task)
    | NotifyOne(woken: nat)   // the worker the condition variable picks, if any is parked
    | Shutdown
    | NotifyAll
    | Locked(worker: nat)     // the worker's region under the mutex
    | Finish(worker: nat)
    | Spurious(worker: nat)   // a wakeup without a notification

  function Init(n: nat): State {
    State([], false, seq(n, _ => AtLock), 0, false, [], [], [])
  }

  predicate AnyParked(s: State) {
    exists w :: 0 <= w < |s.workers| && s.workers[w].Parked?
  }

  predicate Enabled(s: State, step: Step) {
    match step
    case Submit(t) => t !in s.accepted
    case NotifyOne(w) =>
      s.signals > 0 && (AnyParked(s) ==> w < |s.workers| && s.workers[w].Parked?)
    case Shutdown => true
    case NotifyAll => s.stopping
    case Locked(w) => w < |s.workers| && s.workers[w].AtLock?
    case Finish(w) => w < |s.workers| && s.workers[w].Running?
    case Spurious(w) => w < |s.workers| && s.workers[w].Parked?
  }

  function WakeAll(workers: seq<Worker>): (woken: seq<Worker>)
    ensures |woken| == |workers|
  {
    seq(|workers|, w requires 0 <= w < |workers| =>
      if workers[w].Parked? then AtLock else workers[w])
  }

  /** The worker holds the mutex: it parks, exits, or takes the first task. */
  function Look(s: State, w: nat): State
    requires w < |s.workers|
  {
    if !s.stop && s.tasks == [] then s.(workers := s.workers[w := Parked])
    else if s.tasks == [] then s.(workers := s.workers[w := Exited])
    else s.(workers := s.workers[w := Running(s.tasks[0])], tasks := s.tasks[1..],
            started := s.started + [s.tasks[0]])
  }

  function Next(s: State, step: Step): State
    requires Enabled(s, step)
  {
    match step
    case Submit(t) =>
      if s.stop then s
      else s.(tasks := s.tasks + [t], accepted := s.accepted + [t], signals := s.signals + 1)
    case NotifyOne(w) =>
      var s1 := s.(signals := s.signals - 1);
      if AnyParked(s) then s1.(workers := s.workers[w := AtLock]) else s1
    case Shutdown => if s.stop then s else s.(stop := true, stopping := true)
    case NotifyAll => s.(workers := WakeAll(s.workers), stopping := false)
    case Locked(w) => Look(s, w)
    case Finish(w) =>
      s.(workers := s.workers[w := AtLock], finished := s.finished + [s.workers[w].task])
    case Spurious(w) => s.(workers := s.workers[w := AtLock])
  }

  ghost predicate RunOf(n: nat, steps: seq<Step>, states: seq<State>) {
    && |states| == |steps| + 1
    && states[0] == Init(n)
    && forall i :: 0 <= i < |steps| ==>
         Enabled(states[i], steps[i]) && states[i + 1] == Next(states[i], steps[i])
  }

  // ---- The invariant ----

  /** The tasks that the workers are running. */
  function InHand(workers: seq<Worker>): multiset<Task> {
    if workers == [] then multiset{}
    else InHand(workers[..|workers| - 1]) + Held(workers[|workers| - 1])
  }

  function Held(w: Worker): multiset<Task> {
    if w.Running? then multiset{w.task} else multiset{}
  }

  predicate Active(w: Worker) {
    w.AtLock? || w.Running?
  }

  ghost predicate Distinct(s: seq<Task>) {
    forall i, j :: 0 <= i < j < |s| ==> s[i] != s[j]
  }

  /** Every accepted task is in exactly one place, and tasks are started in the order in which
      they were accepted. */
  ghost predicate Conserved(s: State) {
    && s.accepted == s.started + s.tasks
    && multiset(s.started) == multiset(s.finished) + InHand(s.workers)
    && Distinct(s.accepted)
  }

  /** Nobody sleeps through a task or a shutdown. */
  ghost predicate Awake(s: State) {
    && (s.tasks != [] && |s.workers| > 0 ==>
          || s.signals > 0
          || s.stopping
          || exists w :: 0 <= w < |s.workers| && Active(s.workers[w]))
    && (s.stop && !s.stopping ==> forall w :: 0 <= w < |s.workers| ==> !s.workers[w].Parked?)
    && (s.stopping ==> s.stop)
    && (forall w :: 0 <= w < |s.workers| && s.workers[w].Exited? ==> s.stop && s.tasks == [])
  }

  ghost predicate Inv(n: nat, s: State) {
    Conserved(s) && Awake(s) && |s.workers| == n
  }

  lemma {:induction false} InHandUpdate(workers: seq<Worker>, w: nat, v: Worker)
    requires w < |workers|
    ensures InHand(workers[w := v]) + Held(workers[w]) == InHand(workers) + Held(v)
  {
    hide Held;
    var n := |workers| - 1;
    var changed := workers[w := v];
    if w < n {
      InHandUpdate(workers[..n], w, v);
      assert changed[..n] == workers[..n][w := v];
      AddBoth(InHand(changed[..n]), Held(workers[w]), InHand(workers[..n]), Held(v),
              Held(workers[n]));
    } else {
      assert changed[..n] == workers[..n];
    }
  }

  lemma AddBoth(a: multiset<Task>, x: multiset<Task>, b: multiset<Task>, y: multiset<Task>,
                c: multiset<Task>)
    requires a + x == b + y
    ensures (a + c) + x == (b + c) + y
  {
    forall t ensures ((a + c) + x)[t] == ((b + c) + y)[t] {
      assert (a + x)[t] == (b + y)[t];
    }
  }

  /** Workers that hold nothing before and after do not count. */
  lemma InHandMove(workers: seq<Worker>, w: nat, v: Worker)
    requires w < |workers| && !workers[w].Running? && !v.Running?
    ensures InHand(workers[w := v]) == InHand(workers)
  {
    hide InHand;
    InHandUpdate(workers, w, v);
    assert InHand(workers[w := v]) + multiset{} == InHand(workers[w := v]);
    assert InHand(workers) + multiset{} == InHand(workers);
  }

  lemma {:induction false} InHandWake(workers: seq<Worker>)
    ensures InHand(WakeAll(workers)) == InHand(workers)
  {
    if workers != [] {
      var n := |workers| - 1;
      InHandWake(workers[..n]);
      assert WakeAll(workers)[..n] == WakeAll(workers[..n]);
    }
  }

  lemma {:induction false} InHandInit(n: nat)
    ensures InHand(seq(n, _ => AtLock)) == multiset{}
  {
    if n > 0 {
      InHandInit(n - 1);
      assert seq(n, _ => AtLock)[..n - 1] == seq(n - 1, _ => AtLock);
    }
  }

  lemma StepConserves(s: State, step: Step)
    requires Enabled(s, step) && Conserved(s)
    ensures Conserved(Next(s, step))
  {
    hide InHand;
    match step
    case Submit(t) =>
      if !s.stop {
        assert s.started + (s.tasks + [t]) == s.accepted + [t];
      }
    case NotifyOne(w) =>
      if AnyParked(s) {
        InHandMove(s.workers, w, AtLock);
      }
    case Shutdown =>
    case NotifyAll => InHandWake(s.workers);
    case Locked(w) => LookConserves(s, w);
    case Finish(w) =>
      InHandUpdate(s.workers, w, AtLock);
      var left := InHand(s.workers[w := AtLock]);
      assert InHand(s.workers) + multiset{} == InHand(s.workers);
      assert multiset(s.finished + [s.workers[w].task]) + left ==
             multiset(s.finished) + (left + multiset{s.workers[w].task});
    case Spurious(w) => InHandMove(s.workers, w, AtLock);
  }

  lemma LookConserves(s: State, w: nat)
    requires w < |s.workers| && s.workers[w].AtLock? && Conserved(s)
    ensures Conserved(Look(s, w))
  {
    hide InHand;
    var s' := Look(s, w);
    if s.tasks == [] {
      InHandMove(s.workers, w, s'.workers[w]);
    } else {
      var t := s.tasks[0];
      InHandUpdate(s.workers, w, Running(t));
      assert InHand(s'.workers) + multiset{} == InHand(s'.workers);
      assert s.tasks == [t] + s.tasks[1..];
      assert s'.started + s'.tasks == s.accepted;
      assert multiset(s'.started) == multiset(s.started) + multiset{t};
    }
  }

  lemma StepStaysAwake(s: State, step: Step)
    requires Enabled(s, step) && Awake(s)
    ensures Awake(Next(s, step))
  {
    var s' := Next(s, step);
    if s'.tasks != [] && |s'.workers| > 0 && s'.signals == 0 && !s'.stopping {
      match step
      case Submit(_) =>
      case Shutdown =>
      case NotifyOne(w) =>
        if AnyParked(s) {
          assert Active(s'.workers[w]);
        } else {
          assert Active(s'.workers[0]);
        }
      case NotifyAll => assert Active(s'.workers[0]);
      case Locked(w) => assert Active(s'.workers[w]);
      case Finish(w) => assert Active(s'.workers[w]);
      case Spurious(w) => assert Active(s'.workers[w]);
    }
  }

  lemma {:induction false} RunInv(n: nat, steps: seq<Step>, states: seq<State>, i: nat)
    requires RunOf(n, steps, states) && i < |states|
    ensures Inv(n, states[i])
  {
    hide Inv, Next, Enabled;
    if i == 0 {
      InitInv(n);
    } else {
      RunInv(n, steps, states, i - 1);
      StepInv(n, states[i - 1], steps[i - 1]);
    }
  }

  lemma InitInv(n: nat)
    ensures Inv(n, Init(n))
  {
    InHandInit(n);
  }

  lemma StepInv(n: nat, s: State, step: Step)
    requires Inv(n, s) && Enabled(s, step)
    ensures Inv(n, Next(s, step))
  {
    hide Conserved, Awake;
    StepConserves(s, step);
    StepStaysAwake(s, step);
  }

  // ---- Main results ----

  /** Every accepted task is queued, running or finished, in exactly one of these and exactly
      once; and tasks are started first come, first served. */
  lemma ExactlyOnce(n: nat, steps: seq<Step>, states: seq<State>, i: nat, t: Task)
    requires RunOf(n, steps, states) && i < |states|
    ensures var s := states[i];
            var places := multiset(s.tasks) + InHand(s.workers) + multiset(s.finished);
            places == multiset(s.accepted) && places[t] == if t in s.accepted then 1 else 0
    ensures states[i].started <= states[i].accepted
  {
    hide Awake, InHand;
    RunInv(n, steps, states, i);
    DistinctCount(states[i].accepted, t);
  }

  lemma {:induction false} DistinctCount(s: seq<Task>, t: Task)
    requires Distinct(s)
    ensures multiset(s)[t] == if t in s then 1 else 0
  {
    if s != [] {
      var n := |s| - 1;
      assert s == s[..n] + [s[n]];
      DistinctCount(s[..n], t);
    }
  }

  /** Once every worker has exited (which is what the shutdown waits for), every task that was
      ever accepted has finished. */
  lemma ExitedMeansDone(n: nat, steps: seq<Step>, states: seq<State>, i: nat)
    requires RunOf(n, steps, states) && i < |states| && n > 0
    requires forall w :: 0 <= w < |states[i].workers| ==> states[i].workers[w].Exited?
    ensures states[i].tasks == [] && multiset(states[i].finished) == multiset(states[i].accepted)
  {
    RunInv(n, steps, states, i);
    IdleHoldsNothing(states[i].workers);
    assert states[i].workers[0].Exited?;
    assert states[i].accepted == states[i].started;
  }

  lemma {:induction false} IdleHoldsNothing(workers: seq<Worker>)
    requires forall w :: 0 <= w < |workers| ==> !workers[w].Running?
    ensures InHand(workers) == multiset{}
  {
    if workers != [] {
      IdleHoldsNothing(workers[..|workers| - 1]);
    }
  }

  /** No wakeup is lost: while all workers are parked there is no task queued and no shutdown
      under way, unless the notification for it is still to come. */
  lemma NoLostWakeup(n: nat, steps: seq<Step>, states: seq<State>, i: nat)
    requires RunOf(n, steps, states) && i < |states| && n > 0
    requires forall w :: 0 <= w < |states[i].workers| ==> states[i].workers[w].Parked?
    ensures states[i].tasks != [] ==> states[i].signals > 0 || states[i].stopping
    ensures states[i].stop ==> states[i].stopping
  {
    hide Conserved;
    RunInv(n, steps, states, i);
    assert states[i].workers[0].Parked?;
  }

  // ---- Progress ----

  /** The steps that the pool owes: notifications under way and the workers' own. */
  predicate Owed(step: Step) {
    step.NotifyOne? || step.NotifyAll? || step.Locked? || step.Finish?
  }

  function Weight(w: Worker): nat {
    if w.Running? then 2 else if w.AtLock? then 1 else 0
  }

  function Weights(workers: seq<Worker>): nat {
    if workers == [] then 0
    else Weights(workers[..|workers| - 1]) + Weight(workers[|workers| - 1])
  }

  function Measure(s: State): nat {
    2 * |s.tasks| + 2 * s.signals + (if s.stopping then |s.workers| + 1 else 0) + Weights(s.workers)
  }

  lemma {:induction false} WeightsUpdate(workers: seq<Worker>, w: nat, v: Worker)
    requires w < |workers|
    ensures Weights(workers[w := v]) == Weights(workers) - Weight(workers[w]) + Weight(v)
  {
    var n := |workers| - 1;
    if w < n {
      WeightsUpdate(workers[..n], w, v);
      assert workers[w := v][..n] == workers[..n][w := v];
    } else {
      assert workers[w := v][..n] == workers[..n];
    }
  }

  lemma {:induction false} WeightsWake(workers: seq<Worker>)
    ensures Weights(WakeAll(workers)) <= Weights(workers) + |workers|
  {
    if workers != [] {
      var n := |workers| - 1;
      WeightsWake(workers[..n]);
      assert WakeAll(workers)[..n] == WakeAll(workers[..n]);
    }
  }

  /** Every step the pool owes brings it closer to rest. */
  lemma OwedStepsRunOut(s: State, step: Step)
    requires Enabled(s, step) && Owed(step)
    ensures Measure(Next(s, step)) < Measure(s)
  {
    hide Weights;
    match step
    case NotifyOne(w) =>
      if AnyParked(s) {
        WeightsUpdate(s.workers, w, AtLock);
      }
    case NotifyAll => WeightsWake(s.workers);
    case Locked(w) => WeightsUpdate(s.workers, w, Look(s, w).workers[w]);
    case Finish(w) => WeightsUpdate(s.workers, w, AtLock);
  }

  /** The pool is never stuck: in every reachable state either a step it owes can be taken, or it
      is at rest, with every accepted task finished and, after a shutdown, every worker gone. */
  lemma NeverStuck(n: nat, steps: seq<Step>, states: seq<State>, i: nat)
    requires RunOf(n, steps, states) && i < |states| && n > 0
    ensures var s := states[i];
            || (exists step :: Owed(step) && Enabled(s, step))
            || (&& s.tasks == [] && multiset(s.finished) == multiset(s.accepted)
                && (s.stop ==> forall w :: 0 <= w < |s.workers| ==> s.workers[w].Exited?))
  {
    RunInv(n, steps, states, i);
    var s := states[i];
    if s.stopping {
      assert Enabled(s, NotifyAll);
    } else if s.signals > 0 {
      if AnyParked(s) {
        var w :| 0 <= w < |s.workers| && s.workers[w].Parked?;
        assert Enabled(s, NotifyOne(w));
      } else {
        assert Enabled(s, NotifyOne(0));
      }
    } else if w :| 0 <= w < |s.workers| && Active(s.workers[w]) {
      assert if s.workers[w].AtLock? then Enabled(s, Locked(w)) else Enabled(s, Finish(w));
    } else {
      AtRest(n, s);
    }
  }

  lemma AtRest(n: nat, s: State)
    requires Inv(n, s) && n > 0 && !s.stopping && s.signals == 0
    requires forall w :: 0 <= w < |s.workers| ==> !Active(s.workers[w])
    ensures s.tasks == [] && multiset(s.finished) == multiset(s.accepted)
    ensures s.stop ==> forall w :: 0 <= w < |s.workers| ==> s.workers[w].Exited?
  {
    IdleHoldsNothing(s.workers);
    assert s.tasks == [];
    assert s.accepted == s.started;
  }

  // ---- Without workers ----

  /** A pool of no workers accepts tasks, and its shutdown has nobody to wait for, but it never
      runs any. */
  lemma {:induction false} NoWorkersNoWork(steps: seq<Step>, states: seq<State>, i: nat)
    requires RunOf(0, steps, states) && i < |states|
    ensures states[i].workers == [] && states[i].finished == [] && states[i].started == []
  {
    if i > 0 {
      NoWorkersNoWork(steps, states, i - 1);
    }
  }

  lemma NoWorkersLoseTasks() returns (steps: seq<Step>, states: seq<State>)
    ensures RunOf(0, steps, states)
    ensures var s := states[|steps|];
            && s.stop && !s.stopping && s.signals == 0
            && (forall w :: 0 <= w < |s.workers| ==> s.workers[w].Exited?)
            && s.accepted == [7] && s.finished == []
  {
    steps := [Submit(7), NotifyOne(0), Shutdown, NotifyAll];
    var s1 := Next(Init(0), steps[0]);
    var s2 := Next(s1, steps[1]);
    var s3 := Next(s2, steps[2]);
    states := [Init(0), s1, s2, s3, Next(s3, steps[3])];
  }

  // ---- The code ----

  class Pool {
    var tasks: seq<Task>
    var stop: bool
    var workers: seq<Worker>
    var signals: nat
    var stopping: bool
    ghost var accepted: seq<Task>
    ghost var started: seq<Task>
    ghost var finished: seq<Task>

    ghost function View(): State
      reads this
    {
      State(tasks, stop, workers, signals, stopping, accepted, started, finished)
    }

    ghost predicate Valid()
      reads this
    {
      Inv(|workers|, View())
    }

    constructor (n: nat)
      ensures Valid() && View() == Init(n)
    {
      tasks, stop, workers, signals, stopping := [], false, seq(n, _ => AtLock), 0, false;
      accepted, started, finished := [], [], [];
      new;
      InitInv(n);
    }

    /** Refused (an exception in the source) once the pool is stopped. */
    method Enqueue(t: Task) returns (ok: bool)
      requires Valid() && t !in accepted
      modifies this
      ensures Valid() && View() == Next(old(View()), Step.Submit(t))
      ensures ok <==> !old(stop)
      ensures ok ==> accepted == old(accepted) + [t]
    {
      StepInv(|workers|, View(), Step.Submit(t));
      if stop {
        return false;
      }
      tasks, accepted, signals := tasks + [t], accepted + [t], signals + 1;
      return true;
    }

    /** One pass of the worker loop: under the mutex it parks, exits or takes a task. */
    method TakeTask(w: nat)
      requires Valid() && w < |workers| && workers[w].AtLock?
      modifies this
      ensures Valid() && View() == Next(old(View()), Locked(w))
      ensures accepted == old(accepted) && |workers| == old(|workers|)
    {
      hide Inv;
      StepInv(|workers|, View(), Locked(w));
      if !stop && tasks == [] {
        workers := workers[w := Parked];
      } else if stop && tasks == [] {
        workers := workers[w := Exited];
      } else {
        started := started + [tasks[0]];
        workers, tasks := workers[w := Running(tasks[0])], tasks[1..];
      }
    }

    method FinishTask(w: nat)
      requires Valid() && w < |workers| && workers[w].Running?
      modifies this
      ensures Valid() && View() == Next(old(View()), Step.Finish(w))
      ensures accepted == old(accepted) && |workers| == old(|workers|)
    {
      hide Inv;
      StepInv(|workers|, View(), Step.Finish(w));
      finished := finished + [workers[w].task];
      workers := workers[w := AtLock];
    }

    /** Sets the flag and wakes everybody; false if the pool was stopped before. */
    method SetStop() returns (first: bool)
      requires Valid()
      modifies this
      ensures Valid() && first == !old(stop)
      ensures View() == if first then Next(Next(old(View()), Step.Shutdown), Step.NotifyAll)
                        else old(View())
    {
      if stop {
        return false;
      }
      StepInv(|workers|, View(), Step.Shutdown);
      stop, stopping := true, true;
      StepInv(|workers|, View(), Step.NotifyAll);
      workers := WakeAll(workers);
      stopping := false;
      return true;
    }

    method FirstBusy() returns (w: nat)
      ensures w <= |workers|
      ensures w < |workers| ==> !workers[w].Exited?
      ensures w == |workers| ==> forall v :: 0 <= v < |workers| ==> workers[v].Exited?
    {
      w := 0;
      while w < |workers| && workers[w].Exited?
        invariant w <= |workers|
        invariant forall v :: 0 <= v < w ==> workers[v].Exited?
      {
        w := w + 1;
      }
    }

    /** The joins at the end of a shutdown: the workers run, in the order that `schedule` names
        them, until all have exited. They do exit, and then every task that was ever accepted has
        finished. */
    method Join(schedule: seq<nat>)
      requires Valid() && stop && !stopping && workers != []
      modifies this
      ensures Valid() && accepted == old(accepted) && tasks == [] && stop
      ensures forall w :: 0 <= w < |workers| ==> workers[w].Exited?
      ensures multiset(finished) == multiset(accepted)
    {
      hide Weights, Conserved;
      var todo: seq<nat> := schedule;
      while true
        invariant Valid() && stop && !stopping && workers != []
        invariant accepted == old(accepted)
        decreases Measure(View())
      {
        var w := FirstBusy();
        if w == |workers| {
          break;
        }
        if todo != [] {
          if todo[0] < |workers| && !workers[todo[0]].Exited? {
            w := todo[0];
          }
          todo := todo[1..];
        }
        if workers[w].AtLock? {
          OwedStepsRunOut(View(), Locked(w));
          TakeTask(w);
        } else {
          OwedStepsRunOut(View(), Step.Finish(w));
          FinishTask(w);
        }
      }
      assert workers[0].Exited?;
      AllDone(View());
    }

    method Shutdown(schedule: seq<nat>)
      requires Valid() && workers != []
      modifies this
      ensures Valid() && accepted == old(accepted) && stop
      ensures !old(stop) ==> multiset(finished) == multiset(accepted)
      ensures !old(stop) ==> forall w :: 0 <= w < |workers| ==> workers[w].Exited?
    {
      var first := SetStop();
      if first {
        Join(schedule);
      }
    }
  }

  lemma AllDone(s: State)
    requires Inv(|s.workers|, s) && s.tasks == []
    requires forall w :: 0 <= w < |s.workers| ==> s.workers[w].Exited?
    ensures multiset(s.finished) == multiset(s.accepted)
  {
    IdleHoldsNothing(s.workers);
    assert s.accepted == s.started;
  }
}
