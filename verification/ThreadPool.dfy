/** common/thread_pool/include/thread_pool.h: a task queue under one mutex, a condition variable, and any
    number of workers.  Every critical section, wake-up and task is one step; they interleave freely. */
module ThreadPool {

  datatype Worker<T> = Awake | Asleep | Running(task: T) | Exited

  /** `owed`: `notify_one` calls still to come from submits whose critical section is over.
      `submitted`, `started`, `finished` record the tasks in order. */
  datatype Pool<T> = Pool(
    tasks: seq<T>, stop: bool, owed: nat, notifiedAll: bool, workers: seq<Worker<T>>,
    submitted: seq<T>, started: seq<T>, finished: seq<T>)

  datatype PoolStep<T> =
    | Submit(task: T)   // the locked part of `submit`
    | NotifyOne(w: nat) // its notification; `w` is the sleeper it wakes, if anyone sleeps
    | Enter(w: nat)     // a worker takes the mutex and evaluates the wait predicate
    | Finish(w: nat)    // its task returns
    | Spurious(w: nat)  // it wakes up by itself
    | Stop              // the locked part of the destructor
    | NotifyAll

  function NewPool<T>(capacity: nat): Pool<T> {
    Pool([], false, 0, false, seq(capacity, _ => Awake), [], [], [])
  }

  ghost predicate SomeoneSleeps<T>(p: Pool<T>) { exists w :: 0 <= w < |p.workers| && p.workers[w] == Asleep }

  ghost predicate CanStep<T>(p: Pool<T>, a: PoolStep<T>) {
    match a
    case Submit(_) => true
    case NotifyOne(w) => p.owed > 0 && (SomeoneSleeps(p) ==> w < |p.workers| && p.workers[w] == Asleep)
    case Enter(w) => w < |p.workers| && p.workers[w] == Awake
    case Finish(w) => w < |p.workers| && p.workers[w].Running?
    case Spurious(w) => w < |p.workers| && p.workers[w] == Asleep
    case Stop => !p.stop
    case NotifyAll => p.stop && !p.notifiedAll
  }

  /** What the worker's critical section decides. */
  datatype Decision<T> = Wait | Quit | Run(task: T, rest: seq<T>)

  function Decide<T>(tasks: seq<T>, stop: bool): Decision<T> {
    if stop then Quit else if tasks == [] then Wait else Run(tasks[0], tasks[1..])
  }

  function WakeAll<T>(ws: seq<Worker<T>>): seq<Worker<T>> {
    seq(|ws|, i requires 0 <= i < |ws| => if ws[i].Asleep? then Awake else ws[i])
  }

  ghost function Step<T>(p: Pool<T>, a: PoolStep<T>): Pool<T>
    requires CanStep(p, a)
  {
    match a
    case Submit(task) =>
      if p.stop then p  // throws "submit to stopped ThreadPool"
      else p.(tasks := p.tasks + [task], submitted := p.submitted + [task], owed := p.owed + 1)
    case NotifyOne(w) =>
      if SomeoneSleeps(p) then p.(owed := p.owed - 1, workers := p.workers[w := Awake])
      else p.(owed := p.owed - 1)
    case Enter(w) =>
      (match Decide(p.tasks, p.stop)
       case Wait => p.(workers := p.workers[w := Asleep])
       case Quit => p.(workers := p.workers[w := Exited])
       case Run(task, rest) =>
         p.(tasks := rest, workers := p.workers[w := Running(task)], started := p.started + [task]))
    case Finish(w) => p.(workers := p.workers[w := Awake], finished := p.finished + [p.workers[w].task])
    case Spurious(w) => p.(workers := p.workers[w := Awake])
    case Stop => p.(stop := true)
    case NotifyAll => p.(notifiedAll := true, workers := WakeAll(p.workers))
  }

  datatype PoolRun<T> = Begin(capacity: nat) | More(before: PoolRun<T>, a: PoolStep<T>)

  ghost predicate Possible<T>(r: PoolRun<T>)
    decreases r, 0
  {
    r.More? ==> Possible(r.before) && CanStep(PoolOf(r.before), r.a)
  }

  ghost function PoolOf<T>(r: PoolRun<T>): Pool<T>
    requires Possible(r)
    decreases r, 1
  {
    if r.Begin? then NewPool(r.capacity) else Step(PoolOf(r.before), r.a)
  }

  // ---------------------------------------------------------------- counting workers

  function CountAwake<T>(ws: seq<Worker<T>>): nat {
    if ws == [] then 0 else (if ws[0].Awake? then 1 else 0) + CountAwake(ws[1..])
  }

  lemma {:induction false} CountUpdate<T>(ws: seq<Worker<T>>, w: nat, x: Worker<T>)
    requires w < |ws|
    ensures CountAwake(ws[w := x]) + (if ws[w].Awake? then 1 else 0)
         == CountAwake(ws) + (if x.Awake? then 1 else 0)
  {
    if w > 0 {
      CountUpdate(ws[1..], w - 1, x);
      assert ws[w := x][1..] == ws[1..][w - 1 := x];
    } else {
      assert ws[0 := x][1..] == ws[1..];
    }
  }

  // ---------------------------------------------------------------- the invariant

  /** While somebody sleeps and the pool is not stopping, every queued task is covered by a notification
      still to come or by a worker that is awake and will look at the queue. */
  ghost predicate NoLostWakeup<T>(p: Pool<T>) {
    !p.stop && SomeoneSleeps(p) ==> |p.tasks| <= p.owed + CountAwake(p.workers)
  }

  ghost predicate PoolOk<T>(p: Pool<T>) {
    && p.started + p.tasks == p.submitted
    && NoLostWakeup(p)
    && (p.notifiedAll ==> p.stop && !SomeoneSleeps(p))
    && (!p.stop ==> forall w :: 0 <= w < |p.workers| ==> !p.workers[w].Exited?)
  }

  lemma EnterKeepsOk<T>(p: Pool<T>, w: nat)
    requires PoolOk(p) && CanStep(p, Enter(w))
    ensures PoolOk(Step(p, Enter(w)))
  {
    var p' := Step(p, Enter(w));
    CountUpdate(p.workers, w, p'.workers[w]);
    assert !p.stop && p.tasks != [] ==> [p.tasks[0]] + p.tasks[1..] == p.tasks;
    if p.tasks != [] || p.stop {
      forall v | 0 <= v < |p'.workers| && p'.workers[v] == Asleep ensures p.workers[v] == Asleep {}
    }
  }

  lemma StepKeepsOk<T>(p: Pool<T>, a: PoolStep<T>)
    requires PoolOk(p) && CanStep(p, a)
    ensures PoolOk(Step(p, a))
  {
    match a
    case Submit(task) => assert p.started + (p.tasks + [task]) == (p.started + p.tasks) + [task];
    case NotifyOne(w) => if SomeoneSleeps(p) { CountUpdate(p.workers, w, Awake); WakeKeepsSleepers(p, w); }
    case Enter(w) => EnterKeepsOk(p, w);
    case Finish(w) => CountUpdate(p.workers, w, Awake); WakeKeepsSleepers(p, w);
    case Spurious(w) => CountUpdate(p.workers, w, Awake); WakeKeepsSleepers(p, w);
    case Stop =>
    case NotifyAll =>
  }

  lemma WakeKeepsSleepers<T>(p: Pool<T>, w: nat)
    requires w < |p.workers|
    ensures SomeoneSleeps(p.(workers := p.workers[w := Awake])) ==> SomeoneSleeps(p)
  {}

  /** In every interleaving: the tasks started are a prefix of the tasks submitted, in order, so none is
      lost, none runs twice; and no wake-up is lost. */
  lemma {:induction false} PoolAlways<T>(r: PoolRun<T>)
    requires Possible(r)
    ensures PoolOf(r).started + PoolOf(r).tasks == PoolOf(r).submitted
    ensures PoolOk(PoolOf(r))
  {
    if r.More? {
      PoolAlways(r.before);
      StepKeepsOk(PoolOf(r.before), r.a);
    }
  }

  ghost predicate Extends<T>(r0: PoolRun<T>, r: PoolRun<T>) {
    r == r0 || (r.More? && Extends(r0, r.before))
  }

  /** A worker that looks at the queue exits iff the pool stops, sleeps iff it does not and nothing is queued, and else
      runs the task that has waited longest. */
  lemma EnterIff<T>(p: Pool<T>, w: nat)
    requires CanStep(p, Enter(w))
    ensures var p' := Step(p, Enter(w));
            && (p'.workers[w].Exited? <==> p.stop)
            && (p'.workers[w].Asleep? <==> !p.stop && p.tasks == [])
            && (p'.workers[w].Running? <==> !p.stop && p.tasks != [])
            && (p'.workers[w].Running? ==> [p'.workers[w].task] + p'.tasks == p.tasks && p'.started == p.started + [p.tasks[0]])
            && (!p'.workers[w].Running? ==> p'.tasks == p.tasks && p'.started == p.started)
            && forall v :: 0 <= v < |p.workers| && v != w ==> p'.workers[v] == p.workers[v]
  {}

  /** Once the stop flag is set no task is started and none is accepted. */
  lemma {:induction false} NothingStartsAfterStop<T>(r0: PoolRun<T>, r: PoolRun<T>)
    requires Possible(r) && Possible(r0) && Extends(r0, r) && PoolOf(r0).stop
    ensures PoolOf(r).stop && PoolOf(r).started == PoolOf(r0).started && PoolOf(r).submitted == PoolOf(r0).submitted
  {
    if r != r0 { NothingStartsAfterStop(r0, r.before); }
  }

  /** A pool with a queued task is never stuck: a worker is running or awake, or a notification is due. */
  lemma QueuedTaskIsSeen<T>(r: PoolRun<T>)
    requires Possible(r) && |PoolOf(r).workers| > 0
    requires !PoolOf(r).stop && PoolOf(r).tasks != []
    ensures PoolOf(r).owed > 0
         || exists w :: CanStep(PoolOf(r), Enter(w)) || CanStep(PoolOf(r), Finish(w))
  {
    PoolAlways(r);
    var p := PoolOf(r);
    if w :| 0 <= w < |p.workers| && !p.workers[w].Asleep? {
      assert CanStep(p, Enter(w)) || CanStep(p, Finish(w));
    } else {
      assert p.workers[0] == Asleep;
      AllAsleep(p.workers);
    }
  }

  lemma {:induction false} AllAsleep<T>(ws: seq<Worker<T>>)
    requires forall w :: 0 <= w < |ws| ==> ws[w].Asleep?
    ensures CountAwake(ws) == 0
  {
    if ws != [] { AllAsleep(ws[1..]); }
  }

  /** After the destructor's `notify_all` no worker sleeps, now or later, so every `join` can complete. */
  lemma JoinIsNotStuck<T>(r: PoolRun<T>, w: nat)
    requires Possible(r) && PoolOf(r).notifiedAll && w < |PoolOf(r).workers|
    ensures PoolOf(r).workers[w].Exited? || CanStep(PoolOf(r), Enter(w)) || CanStep(PoolOf(r), Finish(w))
    ensures PoolOf(r).workers[w].Awake? ==> Step(PoolOf(r), Enter(w)).workers[w] == Exited
  {
    PoolAlways(r);
    var p := PoolOf(r);
    assert p.workers[w] != Asleep;
  }

  // ---------------------------------------------------------------- one worker

  /** With a single worker tasks also finish in the order they were started, one at a time. */
  ghost predicate Serial<T>(p: Pool<T>) {
    && |p.workers| == 1
    && p.started == p.finished + (if p.workers[0].Running? then [p.workers[0].task] else [])
  }

  lemma SerialStep<T>(p: Pool<T>, a: PoolStep<T>)
    requires Serial(p) && CanStep(p, a)
    ensures Serial(Step(p, a))
  {}

  // ---------------------------------------------------------------- the object

  /** The queue and the flag, changed in place by the three critical sections. */
  class TaskQueue<T> {
    var tasks: seq<T>
    var stop: bool

    constructor ()
      ensures tasks == [] && !stop
    {
      tasks, stop := [], false;
    }

    /** `submit`; `ok` is false when it throws. */
    method Submit(task: T) returns (ok: bool)
      modifies this
      ensures ok == !old(stop) && stop == old(stop)
      ensures tasks == if ok then old(tasks) + [task] else old(tasks)
    {
      if stop {
        return false;
      }
      tasks := tasks + [task];
      return true;
    }

    /** One pass of the worker loop under the mutex. */
    method EnterWorker() returns (d: Decision<T>)
      modifies this
      ensures d == Decide(old(tasks), old(stop)) && stop == old(stop)
      ensures tasks == if d.Run? then d.rest else old(tasks)
    {
      if !(stop || tasks != []) {
        return Wait;
      }
      if stop {
        return Quit;
      }
      var task := tasks[0];
      tasks := tasks[1..];
      return Run(task, tasks);
    }

    method SetStop()
      modifies this
      ensures stop && tasks == old(tasks)
    {
      stop := true;
    }
  }
}
