/**
  `Run` and its goroutines: four informers, which run until the context is cancelled, and the workers,
  which take keys until the queue is shut down and empty. `Run` counts them in a WaitGroup and returns
  when the count is zero.
*/
module Shutdown {
  import opened Workqueue

  const INFORMERS := 4

  /** `served` says that the goroutine has consumed the queue until it was told to quit. */
  datatype Task =
    | NotStarted
    | Informing
    | Until(served: bool)
    | Getting
    | Holding(key: string)
    | Releasing(key: string)
    | Finished(served: bool)

  datatype Main = Begin | Launching(next: nat) | Syncing | Starting(next: nat) | Serving | Draining | Returned | Abandoned

  /** The informers come first in `tasks`, the workers after them. */
  datatype State = State(main: Main, cancelled: bool, wg: int, tasks: seq<Task>, q: Queue)
  {
    function At(i: nat, t: Task): State
      requires i < |tasks|
    {
      this.(tasks := tasks[i := t])
    }
  }

  datatype Step =
    | Cancel
    | Event(key: string)
    | FireKey(key: string)
    | MainStep(synced: bool)
    | TaskStep(i: nat, ok: bool)

  // ---------- Steps ----------

  predicate Launched(main: Main) {
    !main.Begin?
  }

  predicate MainEnabled(s: State, synced: bool) {
    match s.main
    case Syncing => synced || s.cancelled
    case Serving => s.cancelled
    case Draining => s.wg == 0
    case Returned => false
    case Abandoned => false
    case _ => true
  }

  predicate TaskEnabled(s: State, i: nat) {
    i < |s.tasks| &&
    match s.tasks[i]
    case NotStarted => false
    case Informing => s.cancelled
    case Getting => s.q.queue != [] || s.q.shuttingDown
    case Finished(_) => false
    case _ => true
  }

  predicate Enabled(s: State, step: Step) {
    match step
    case Cancel => !s.cancelled
    case Event(_) => exists i: nat :: i < |s.tasks| && s.tasks[i].Informing?
    case FireKey(k) => k in s.q.waiting
    case MainStep(synced) => MainEnabled(s, synced)
    case TaskStep(i, _) => TaskEnabled(s, i)
  }

  function MainApply(s: State, synced: bool): State
    requires |s.tasks| >= INFORMERS && MainEnabled(s, synced)
  {
    match s.main
    case Begin => s.(wg := s.wg + |s.tasks|, main := Launching(0))
    case Launching(i) => if i < INFORMERS then s.At(i, Informing).(main := Launching(i + 1)) else s.(main := Syncing)
    case Syncing => s.(main := if synced then Starting(INFORMERS) else Abandoned)
    case Starting(i) => if i < |s.tasks| then s.At(i, Until(false)).(main := Starting(i + 1)) else s.(main := Serving)
    case Serving => s.(q := s.q.ShutDown(), main := Draining)
    case Draining => s.(main := Returned)
  }

  /** A worker's conform ends well or not; then the key is let go. */
  function TaskApply(s: State, i: nat, ok: bool): State
    requires TaskEnabled(s, i)
  {
    match s.tasks[i]
    case Informing => s.At(i, Finished(false)).(wg := s.wg - 1)
    case Until(served) => if s.cancelled then s.At(i, Finished(served)).(wg := s.wg - 1) else s.At(i, Getting)
    case Getting => if s.q.queue == [] then s.At(i, Until(true)) else s.At(i, Holding(s.q.Take().0)).(q := s.q.Take().1)
    case Holding(k) => s.At(i, Releasing(k)).(q := if ok then s.q else s.q.AddRateLimited(k))
    case Releasing(k) => s.At(i, Getting).(q := s.q.Done(k))
  }

  function Apply(s: State, step: Step): State
    requires |s.tasks| >= INFORMERS && Enabled(s, step)
  {
    match step
    case Cancel => s.(cancelled := true)
    case Event(k) => s.(q := s.q.Add(k))
    case FireKey(k) => s.(q := s.q.Fire(k))
    case MainStep(synced) => MainApply(s, synced)
    case TaskStep(i, ok) => TaskApply(s, i, ok)
  }

  // ---------- Sums over the goroutines ----------

  function Sum(tasks: seq<Task>, f: Task -> nat): nat {
    if tasks == [] then 0 else f(tasks[0]) + Sum(tasks[1..], f)
  }

  function Open(t: Task): nat {
    if t.Finished? then 0 else 1
  }

  /** How many goroutines are not finished, started or not. */
  function Unfinished(tasks: seq<Task>): nat {
    Sum(tasks, Open)
  }

  lemma {:induction false} SumUpdate(tasks: seq<Task>, f: Task -> nat, i: nat, t: Task)
    requires i < |tasks|
    ensures Sum(tasks[i := t], f) == Sum(tasks, f) - f(tasks[i]) + f(t)
  {
    var tasks' := tasks[i := t];
    if i == 0 {
      assert tasks'[1..] == tasks[1..];
    } else {
      SumUpdate(tasks[1..], f, i - 1, t);
      assert tasks'[1..] == tasks[1..][i - 1 := t];
    }
  }

  lemma {:induction false} SumZero(tasks: seq<Task>)
    requires Unfinished(tasks) == 0
    ensures forall i :: 0 <= i < |tasks| ==> tasks[i].Finished?
  {
    if tasks != [] {
      SumZero(tasks[1..]);
      forall i | 0 <= i < |tasks| ensures tasks[i].Finished? {
        if i > 0 { assert tasks[i] == tasks[1..][i - 1]; }
      }
    }
  }

  lemma {:induction false} AllOpen(tasks: seq<Task>)
    requires forall i :: 0 <= i < |tasks| ==> !tasks[i].Finished?
    ensures Unfinished(tasks) == |tasks|
  {
    if tasks != [] { AllOpen(tasks[1..]); }
  }

  lemma {:induction false} SomeOpen(tasks: seq<Task>) returns (i: nat)
    requires Unfinished(tasks) > 0
    ensures i < |tasks| && !tasks[i].Finished?
  {
    if Open(tasks[0]) == 1 {
      i := 0;
    } else {
      i := SomeOpen(tasks[1..]);
      i := i + 1;
    }
  }

  // ---------- What every step keeps ----------

  predicate Holds(t: Task) {
    t.Holding? || t.Releasing?
  }

  predicate Serves(t: Task) {
    t.Getting? || Holds(t)
  }

  /** The WaitGroup counts the goroutines that are not finished. */
  predicate Counted(s: State) {
    if Launched(s.main) then s.wg == Unfinished(s.tasks)
    else s.wg == 0 && forall i :: 0 <= i < |s.tasks| ==> s.tasks[i].NotStarted?
  }

  ghost predicate HeldBy(tasks: seq<Task>, k: string) {
    exists i: nat :: i < |tasks| && Holds(tasks[i]) && tasks[i].key == k
  }

  /** Keys in processing are held, each by one goroutine. */
  ghost predicate Held(s: State) {
    && s.q.Wf()
    && (forall i :: 0 <= i < |s.tasks| && Holds(s.tasks[i]) ==> s.tasks[i].key in s.q.processing)
    && (forall i, j :: 0 <= i < |s.tasks| && 0 <= j < |s.tasks| && Holds(s.tasks[i]) && Holds(s.tasks[j]) && s.tasks[i].key == s.tasks[j].key ==> i == j)
    && (forall k :: k in s.q.processing ==> HeldBy(s.tasks, k))
  }

  /** What has been started follows from where `Run` is; the queue is shut down once it drains. */
  predicate Started(s: State) {
    && |s.tasks| >= INFORMERS
    && (s.main.Launching? ==> s.main.next <= INFORMERS)
    && (s.main.Starting? ==> INFORMERS <= s.main.next <= |s.tasks|)
    && (s.q.shuttingDown <==> s.main.Draining? || s.main.Returned?)
    && (s.q.shuttingDown ==> s.cancelled)
    && (forall i :: 0 <= i < |s.tasks| ==> (s.tasks[i].NotStarted? <==> i >= Begun(s)))
    && (s.main.Returned? ==> s.wg == 0)
  }

  function Begun(s: State): nat {
    match s.main
    case Begin => 0
    case Launching(i) => i
    case Syncing => INFORMERS
    case Abandoned => INFORMERS
    case Starting(i) => i
    case _ => |s.tasks|
  }

  /** A goroutine that was told to quit left nothing behind, or left it to one that still serves. */
  ghost predicate LeftToSomeone(s: State) {
    (exists i :: 0 <= i < |s.tasks| && Quitter(s.tasks[i])) ==>
      && s.q.shuttingDown
      && (s.q.queue == [] || exists j :: 0 <= j < |s.tasks| && Serves(s.tasks[j]))
  }

  predicate Quitter(t: Task) {
    (t.Until? || t.Finished?) && t.served
  }

  ghost predicate Inv(s: State) {
    Counted(s) && Held(s) && Started(s) && LeftToSomeone(s)
  }

  ghost predicate Init(s: State) {
    && s.main == Begin && !s.cancelled && s.wg == 0 && s.q == EMPTY && |s.tasks| >= INFORMERS
    && forall i :: 0 <= i < |s.tasks| ==> s.tasks[i].NotStarted?
  }

  lemma StepKeepsCount(s: State, step: Step)
    requires Inv(s) && Enabled(s, step)
    ensures Counted(Apply(s, step))
  {
    match step
    case MainStep(synced) =>
      match s.main {
        case Begin => AllOpen(s.tasks);
        case Launching(i) => if i < INFORMERS { SumUpdate(s.tasks, Open, i, Informing); }
        case Starting(i) => if i < |s.tasks| { SumUpdate(s.tasks, Open, i, Until(false)); }
        case _ =>
      }
    case TaskStep(i, ok) =>
      SumUpdate(s.tasks, Open, i, Apply(s, step).tasks[i]);
    case _ =>
  }

  lemma MainKeepsStarted(s: State, synced: bool)
    requires Started(s) && MainEnabled(s, synced)
    ensures Started(MainApply(s, synced))
  {
  }

  /** What a goroutine's step leaves alone. */
  lemma TaskFrame(s: State, i: nat, ok: bool)
    requires TaskEnabled(s, i)
    ensures var s' := TaskApply(s, i, ok);
            && s'.main == s.main && s'.cancelled == s.cancelled && s'.q.shuttingDown == s.q.shuttingDown
            && |s'.tasks| == |s.tasks| && s'.tasks == s.tasks[i := s'.tasks[i]]
            && !s.tasks[i].NotStarted? && !s'.tasks[i].NotStarted?
  {
  }

  lemma ReturnedIsIdle(s: State, i: nat)
    requires Counted(s) && s.main.Returned? && s.wg == 0
    ensures !TaskEnabled(s, i)
  {
    SumZero(s.tasks);
  }

  lemma TaskKeepsStarted(s: State, i: nat, ok: bool)
    requires Counted(s) && Started(s) && TaskEnabled(s, i)
    ensures Started(TaskApply(s, i, ok))
  {
    if s.main.Returned? { ReturnedIsIdle(s, i); }
    TaskFrame(s, i, ok);
  }

  lemma StepKeepsStarted(s: State, step: Step)
    requires Inv(s) && Enabled(s, step)
    ensures Started(Apply(s, step))
  {
    match step
    case MainStep(synced) => MainKeepsStarted(s, synced);
    case TaskStep(i, ok) => TaskKeepsStarted(s, i, ok);
    case _ =>
  }

  lemma TakeKeepsHeld(s: State, i: nat)
    requires Held(s) && i < |s.tasks| && s.tasks[i].Getting? && s.q.queue != []
    ensures Held(TaskApply(s, i, true))
  {
    var s' := TaskApply(s, i, true);
    TakeWf(s.q);
    forall k | k in s'.q.processing ensures HeldBy(s'.tasks, k) {
      if k == s.q.queue[0] {
        assert Holds(s'.tasks[i]) && s'.tasks[i].key == k;
      } else {
        var j: nat :| j < |s.tasks| && Holds(s.tasks[j]) && s.tasks[j].key == k;
        assert Holds(s'.tasks[j]) && s'.tasks[j].key == k;
      }
    }
  }

  lemma DoneKeepsHeld(s: State, i: nat)
    requires Held(s) && i < |s.tasks| && s.tasks[i].Releasing?
    ensures Held(TaskApply(s, i, true))
  {
    var s' := TaskApply(s, i, true);
    DoneWf(s.q, s.tasks[i].key);
    forall k | k in s'.q.processing ensures HeldBy(s'.tasks, k) {
      var j: nat :| j < |s.tasks| && Holds(s.tasks[j]) && s.tasks[j].key == k;
      assert Holds(s'.tasks[j]) && s'.tasks[j].key == k;
    }
  }

  lemma OtherTaskKeepsHeld(s: State, i: nat, ok: bool)
    requires Held(s) && TaskEnabled(s, i) && !s.tasks[i].Releasing? && !(s.tasks[i].Getting? && s.q.queue != [])
    ensures Held(TaskApply(s, i, ok))
  {
    var s' := TaskApply(s, i, ok);
    forall k | k in s'.q.processing ensures HeldBy(s'.tasks, k) {
      var j: nat :| j < |s.tasks| && Holds(s.tasks[j]) && s.tasks[j].key == k;
      assert Holds(s'.tasks[j]) && s'.tasks[j].key == k;
    }
  }

  lemma TaskKeepsHeld(s: State, i: nat, ok: bool)
    requires Held(s) && TaskEnabled(s, i)
    ensures Held(TaskApply(s, i, ok))
  {
    if s.tasks[i].Getting? && s.q.queue != [] {
      TakeKeepsHeld(s, i);
    } else if s.tasks[i].Releasing? {
      DoneKeepsHeld(s, i);
    } else {
      OtherTaskKeepsHeld(s, i, ok);
    }
  }

  lemma StepKeepsHeld(s: State, step: Step)
    requires Inv(s) && Enabled(s, step)
    ensures Held(Apply(s, step))
  {
    var s' := Apply(s, step);
    if step.TaskStep? {
      TaskKeepsHeld(s, step.i, step.ok);
    } else {
      if step.Event? { AddWf(s.q, step.key); }
      if step.FireKey? { AddWf(s.q.(waiting := s.q.waiting - {step.key}), step.key); }
      assert forall j :: 0 <= j < |s.tasks| && (Holds(s.tasks[j]) || Holds(s'.tasks[j])) ==> s'.tasks[j] == s.tasks[j];
      forall k | k in s'.q.processing ensures HeldBy(s'.tasks, k) {
        var j: nat :| j < |s.tasks| && Holds(s.tasks[j]) && s.tasks[j].key == k;
        assert Holds(s'.tasks[j]);
      }
    }
  }

  lemma StepKeepsLeft(s: State, step: Step)
    requires Inv(s) && Enabled(s, step)
    ensures LeftToSomeone(Apply(s, step))
  {
    var s' := Apply(s, step);
    if i :| 0 <= i < |s'.tasks| && Quitter(s'.tasks[i]) {
      if step.TaskStep? && step.i == i && s.tasks[i].Getting? {
      } else {
        assert Quitter(s.tasks[i]);
        if s'.q.queue != [] {
          if step.TaskStep? && s.tasks[step.i].Releasing? {
            assert Serves(s'.tasks[step.i]);
          } else {
            var j :| 0 <= j < |s.tasks| && Serves(s.tasks[j]);
            assert Serves(s'.tasks[j]);
          }
        }
      }
    }
  }

  lemma StepKeepsInv(s: State, step: Step)
    requires Inv(s) && Enabled(s, step)
    ensures Inv(Apply(s, step))
  {
    StepKeepsCount(s, step);
    StepKeepsHeld(s, step);
    StepKeepsStarted(s, step);
    StepKeepsLeft(s, step);
  }

  // ---------- Runs ----------

  ghost predicate Run(states: seq<State>, steps: seq<Step>) {
    && |states| == |steps| + 1 && Init(states[0])
    && forall i :: 0 <= i < |steps| ==>
         |states[i].tasks| >= INFORMERS && Enabled(states[i], steps[i]) && states[i + 1] == Apply(states[i], steps[i])
  }

  lemma {:induction false} RunKeepsInv(states: seq<State>, steps: seq<Step>, n: nat)
    requires Run(states, steps) && n < |states|
    ensures Inv(states[n])
  {
    if n > 0 {
      RunKeepsInv(states, steps, n - 1);
      StepKeepsInv(states[n - 1], steps[n - 1]);
    }
  }

  /** The counter is never negative, and counts what is unfinished from the moment it has been set. */
  lemma CounterIsExact(states: seq<State>, steps: seq<Step>, n: nat)
    requires Run(states, steps) && n < |states|
    ensures states[n].wg >= 0
    ensures Launched(states[n].main) ==> states[n].wg == Unfinished(states[n].tasks)
  {
    RunKeepsInv(states, steps, n);
  }

  /**
    When `Run` returns after a shutdown, every goroutine is finished and no key is in anyone's hands;
    and the queue is empty, unless no worker came to serve it at all.
  */
  lemma ReturnIsClean(states: seq<State>, steps: seq<Step>, n: nat)
    requires Run(states, steps) && n < |states| && states[n].main == Returned
    ensures var s := states[n];
            && (forall i :: 0 <= i < |s.tasks| ==> s.tasks[i].Finished?)
            && s.q.processing == {}
            && (s.q.queue != [] ==> forall i :: 0 <= i < |s.tasks| ==> s.tasks[i] == Finished(false))
  {
    RunKeepsInv(states, steps, n);
    SumZero(states[n].tasks);
  }

  // ---------- When workers are started ----------

  /** The caches have synced, and `Run` takes notice. */
  predicate Syncs(s: State, step: Step) {
    s.main.Syncing? && step == MainStep(true)
  }

  predicate IsServing(main: Main) {
    main.Serving? || main.Draining? || main.Returned?
  }

  /** No worker has been started, and none will be unless the caches sync. */
  predicate NoWorker(s: State) {
    (s.main.Abandoned? ==> s.cancelled) && !s.main.Starting? && !IsServing(s.main)
    && forall i :: INFORMERS <= i < |s.tasks| ==> s.tasks[i].NotStarted?
  }

  lemma StepKeepsNoWorker(s: State, step: Step)
    requires NoWorker(s) && Started(s) && Enabled(s, step) && !Syncs(s, step)
    ensures NoWorker(Apply(s, step))
  {
    if step.TaskStep? { TaskFrame(s, step.i, step.ok); }
  }

  lemma {:induction false} UnsyncedStartsNobody(states: seq<State>, steps: seq<Step>, n: nat)
    requires Run(states, steps) && n < |states|
    requires forall j :: 0 <= j < n ==> !Syncs(states[j], steps[j])
    ensures NoWorker(states[n])
  {
    if n > 0 {
      UnsyncedStartsNobody(states, steps, n - 1);
      RunKeepsInv(states, steps, n - 1);
      StepKeepsNoWorker(states[n - 1], steps[n - 1]);
    }
  }

  /** `Run` is about to start the workers from `next` on, or has started them all. */
  predicate ServesFrom(s: State, next: nat) {
    if next <= |s.tasks| then s.main == Starting(next)
    else IsServing(s.main) && forall i :: 0 <= i < |s.tasks| ==> !s.tasks[i].NotStarted?
  }

  lemma MainStartsNext(s: State, next: nat, synced: bool)
    requires Started(s) && ServesFrom(s, next) && MainEnabled(s, synced)
    ensures ServesFrom(MainApply(s, synced), next + 1)
  {
  }

  lemma OthersStartNobody(s: State, next: nat, step: Step)
    requires Started(s) && ServesFrom(s, next) && Enabled(s, step) && !step.MainStep?
    ensures ServesFrom(Apply(s, step), next)
  {
    if step.TaskStep? { TaskFrame(s, step.i, step.ok); }
  }

  function Own(step: Step): nat {
    if step.MainStep? then 1 else 0
  }

  /** How many of the steps from `i` up to `n` are `Run`'s own. */
  function MainSteps(steps: seq<Step>, i: nat, n: nat): nat
    requires i <= n <= |steps|
    decreases n
  {
    if i == n then 0 else MainSteps(steps, i, n - 1) + Own(steps[n - 1])
  }

  lemma ServingGoesOn(s: State, next: nat, step: Step)
    requires Started(s) && ServesFrom(s, next) && Enabled(s, step)
    ensures ServesFrom(Apply(s, step), next + Own(step))
  {
    if step.MainStep? { MainStartsNext(s, next, step.synced); } else { OthersStartNobody(s, next, step); }
  }

  lemma SyncStarts(s: State, step: Step)
    requires Started(s) && Syncs(s, step)
    ensures Enabled(s, step) && ServesFrom(Apply(s, step), INFORMERS)
  {
  }

  lemma StepOf(states: seq<State>, steps: seq<Step>, n: nat)
    requires Run(states, steps) && n < |steps|
    ensures Started(states[n]) && Enabled(states[n], steps[n]) && states[n + 1] == Apply(states[n], steps[n])
  {
    RunKeepsInv(states, steps, n);
  }

  /** Once the caches have synced each step of `Run` starts a worker, until all are started and it serves. */
  lemma {:induction false} SyncedStartsAll(states: seq<State>, steps: seq<Step>, i: nat, n: nat)
    requires Run(states, steps) && i < n < |states| && Syncs(states[i], steps[i])
    ensures ServesFrom(states[n], INFORMERS + MainSteps(steps, i + 1, n))
  {
    StepOf(states, steps, n - 1);
    if n == i + 1 {
      SyncStarts(states[i], steps[i]);
    } else {
      SyncedStartsAll(states, steps, i, n - 1);
      ServingGoesOn(states[n - 1], INFORMERS + MainSteps(steps, i + 1, n - 1), steps[n - 1]);
    }
  }

  /** `Run` gives up exactly because it was cancelled before the caches had synced, and then no worker was ever started. */
  lemma AbandonedStartsNobody(states: seq<State>, steps: seq<Step>, n: nat)
    requires Run(states, steps) && n < |states| && states[n].main == Abandoned
    ensures states[n].cancelled
    ensures forall m, i :: 0 <= m <= n && 4 <= i < |states[m].tasks| ==> states[m].tasks[i].NotStarted?
    ensures forall j :: 0 <= j < n ==> !Syncs(states[j], steps[j])
  {
    forall j | 0 <= j < n ensures !Syncs(states[j], steps[j]) {
      if Syncs(states[j], steps[j]) { SyncedStartsAll(states, steps, j, n); }
    }
    forall m | 0 <= m <= n ensures NoWorker(states[m]) {
      UnsyncedStartsNobody(states, steps, m);
    }
  }

  /** A worker is started only after the caches have synced. */
  lemma WorkersStartSynced(states: seq<State>, steps: seq<Step>, n: nat, i: nat) returns (j: nat)
    requires Run(states, steps) && n < |states|
    requires 4 <= i < |states[n].tasks| && !states[n].tasks[i].NotStarted?
    ensures j < n && Syncs(states[j], steps[j])
  {
    if forall j :: 0 <= j < n ==> !Syncs(states[j], steps[j]) {
      UnsyncedStartsNobody(states, steps, n);
      assert false;
    }
    j :| 0 <= j < n && Syncs(states[j], steps[j]);
  }

  /** From the sync on, `Run` can always go on until every worker is started and it serves. */
  lemma SyncedServes(states: seq<State>, steps: seq<Step>, i: nat, n: nat)
    requires Run(states, steps) && i < n < |states| && Syncs(states[i], steps[i])
    ensures IsServing(states[n].main) || MainEnabled(states[n], false)
    ensures IsServing(states[n].main) <==> MainSteps(steps, i + 1, n) > |states[n].tasks| - 4
    ensures IsServing(states[n].main) ==> forall j :: 0 <= j < |states[n].tasks| ==> !states[n].tasks[j].NotStarted?
  {
    SyncedStartsAll(states, steps, i, n);
  }

  // ---------- Nobody stops early ----------

  /** The first four goroutines are informers, the others workers. */
  predicate Roles(tasks: seq<Task>) {
    && (forall i :: 0 <= i < |tasks| && i < 4 ==> tasks[i].NotStarted? || tasks[i].Informing? || tasks[i].Finished?)
    && (forall i :: 4 <= i < |tasks| ==> !tasks[i].Informing?)
  }

  /** Until the context is cancelled no goroutine ends, and `Run` neither returns nor shuts the queue down. */
  predicate AllGoOn(s: State) {
    Roles(s.tasks) &&
    (!s.cancelled ==>
      && (forall i :: 0 <= i < |s.tasks| ==> !s.tasks[i].Finished?)
      && !s.main.Draining? && !s.main.Returned? && !s.main.Abandoned?)
  }

  lemma StepKeepsGoing(s: State, step: Step)
    requires AllGoOn(s) && Started(s) && Enabled(s, step)
    ensures AllGoOn(Apply(s, step))
  {
    if step.TaskStep? { TaskFrame(s, step.i, step.ok); }
  }

  lemma {:induction false} NobodyStopsEarly(states: seq<State>, steps: seq<Step>, n: nat)
    requires Run(states, steps) && n < |states|
    ensures AllGoOn(states[n])
  {
    if n > 0 {
      NobodyStopsEarly(states, steps, n - 1);
      RunKeepsInv(states, steps, n - 1);
      StepKeepsGoing(states[n - 1], steps[n - 1]);
    }
  }

  // ---------- A worker's loop ----------

  /** Steps of goroutine `i` alone, each with the outcome that `oks` gives. */
  function OwnSteps(s: State, i: nat, oks: seq<bool>): State
    decreases |oks|
  {
    if oks == [] || !TaskEnabled(s, i) then s else OwnSteps(TaskApply(s, i, oks[0]), i, oks[1..])
  }

  /**
    A worker that is ready takes the oldest key, reconciles it and lets it go, backing it off exactly if
    the reconcile fails, and is ready again: what one call of `processNextItem` does to the queue.
  */
  lemma WorkerServes(s: State, i: nat, ok: bool)
    requires i < |s.tasks| && s.tasks[i] == Getting && s.q.queue != []
    ensures OwnSteps(s, i, [ok, ok, ok]).tasks == s.tasks
    ensures var k, taken := s.q.queue[0], s.q.Take().1;
            OwnSteps(s, i, [ok, ok, ok]).q == (if ok then taken else taken.AddRateLimited(k)).Done(k)
  {
    var k := s.q.queue[0];
    var s1 := TaskApply(s, i, ok);
    assert s1.tasks[i] == Holding(k);
    var s2 := TaskApply(s1, i, ok);
    assert s2.tasks[i] == Releasing(k);
    var s3 := TaskApply(s2, i, ok);
    assert s3.tasks == s.tasks;
    assert [ok, ok, ok][1..] == [ok, ok] && [ok, ok][1..] == [ok] && [ok][1..] == [];
    assert OwnSteps(s2, i, [ok]) == s3;
  }

  /** A worker that has just been started, or started again, is ready unless the context is cancelled, which ends it. */
  lemma WorkerStarts(s: State, i: nat, ok: bool)
    requires i < |s.tasks| && s.tasks[i].Until?
    ensures TaskEnabled(s, i)
    ensures TaskApply(s, i, ok).tasks[i] == if s.cancelled then Finished(s.tasks[i].served) else Getting
  {
  }

  // ---------- Draining ends ----------

  function Stage(t: Task): nat {
    match t
    case Finished(_) => 0
    case Holding(_) => 4
    case Releasing(_) => 3
    case Getting => 2
    case _ => 1
  }

  /** What is left to do once the queue is shut down. */
  function Left(s: State): nat {
    3 * |s.q.dirty| + |s.q.waiting| + Sum(s.tasks, Stage) + (if s.main.Draining? then 1 else 0)
  }

  lemma TaskDecreases(s: State, i: nat, ok: bool)
    requires Inv(s) && s.q.shuttingDown && TaskEnabled(s, i)
    ensures Left(TaskApply(s, i, ok)) < Left(s)
  {
    var s' := TaskApply(s, i, ok);
    assert s'.tasks == s.tasks[i := s'.tasks[i]];
    SumUpdate(s.tasks, Stage, i, s'.tasks[i]);
    if s.tasks[i].Getting? && s.q.queue != [] {
      assert s.q.queue[0] in s.q.dirty;
      assert |s'.q.dirty| == |s.q.dirty| - 1;
    }
  }

  /** Every step of the shutdown, failing conforms included, makes less to do; events change nothing. */
  lemma DrainDecreases(s: State, step: Step)
    requires Inv(s) && s.q.shuttingDown && Enabled(s, step)
    ensures if step.Event? then Apply(s, step) == s else Left(Apply(s, step)) < Left(s)
  {
    if step.TaskStep? { TaskDecreases(s, step.i, step.ok); }
  }

  /** Until `Run` has returned, one of its goroutines can go on. */
  lemma DrainIsNeverStuck(s: State) returns (step: Step)
    requires Inv(s) && s.main == Draining
    ensures Enabled(s, step) && (step.MainStep? || step.TaskStep?)
  {
    if s.wg == 0 {
      step := MainStep(true);
    } else {
      var i := SomeOpen(s.tasks);
      step := TaskStep(i, true);
    }
  }

  ghost predicate Drains(states: seq<State>, steps: seq<Step>) {
    && |states| == |steps| + 1 && Inv(states[0]) && states[0].q.shuttingDown
    && forall i :: 0 <= i < |steps| ==>
         && |states[i].tasks| >= INFORMERS && Enabled(states[i], steps[i]) && !steps[i].Event?
         && states[i + 1] == Apply(states[i], steps[i])
  }

  /** The shutdown takes no more steps than are left at its start; if nothing can go on, `Run` has returned. */
  lemma {:induction false} ShutdownEnds(states: seq<State>, steps: seq<Step>)
    requires Drains(states, steps)
    ensures |steps| + Left(states[|steps|]) <= Left(states[0])
    ensures Inv(states[|steps|]) && states[|steps|].q.shuttingDown
    ensures (forall step :: Enabled(states[|steps|], step) ==> step.Event?) ==> states[|steps|].main == Returned
    decreases |steps|
  {
    var n := |steps|;
    if n > 0 {
      ShutdownEnds(states[..n], steps[..n - 1]);
      DrainDecreases(states[n - 1], steps[n - 1]);
      StepKeepsInv(states[n - 1], steps[n - 1]);
    }
    if states[n].main == Draining {
      var step := DrainIsNeverStuck(states[n]);
    }
  }
}
