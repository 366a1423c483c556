/**
 * Threads share one counter; processes each get their own. Threads are
 * not modelled: the lock makes every increment one atomic step, so a run
 * of the workers is a sequence of increments in some order (a schedule),
 * and the final count is proved for every such order.
 */
module ThreadsProcesses {
  import opened Sums
  import opened Results
  import opened PyValues

  /** The shared dict `counter = {"value": ...}`. */
  class SharedCounter {
    var value: int

    constructor (value: int)
      ensures this.value == value
    {
      this.value := value;
    }
  }

  /** `threading.Lock`: the flag says whether some worker holds it. */
  class Lock {
    var held: bool

    constructor ()
      ensures !held
    {
      held := false;
    }

    method Acquire()
      requires !held
      modifies this
      ensures held
    {
      held := true;
    }

    method Release()
      requires held
      modifies this
      ensures !held
    {
      held := false;
    }
  }

  /** `increment_shared(n)` run on its own: raises the counter by the number of iterations. */
  method IncrementShared(counter: SharedCounter, n: int)
    modifies counter
    ensures counter.value == old(counter.value) + RangeLen(n)
  {
    for i := 0 to RangeLen(n)
      invariant counter.value == old(counter.value) + i
    {
      counter.value := counter.value + 1;
    }
  }

  /** One increment under the lock, as `with lock: counter["value"] += 1` does it. */
  method LockedIncrement(counter: SharedCounter, lock: Lock)
    requires !lock.held
    modifies counter, lock
    ensures counter.value == old(counter.value) + 1 && !lock.held
  {
    lock.Acquire();
    counter.value := counter.value + 1;
    lock.Release();
  }

  /** `increment_shared_safe(n, lock)`: `n` locked increments; the lock is free afterwards. */
  method IncrementSharedSafe(counter: SharedCounter, n: int, lock: Lock)
    requires !lock.held
    modifies counter, lock
    ensures counter.value == old(counter.value) + RangeLen(n) && !lock.held
  {
    for i := 0 to RangeLen(n)
      invariant counter.value == old(counter.value) + i && !lock.held
    {
      LockedIncrement(counter, lock);
    }
  }

  /** How many steps of the schedule belong to worker `w`. */
  function Count(schedule: seq<nat>, w: nat): nat
  {
    if schedule == [] then 0
    else (if schedule[0] == w then 1 else 0) + Count(schedule[1..], w)
  }

  /** Steps of workers `0 .. workers - 1`, added up worker by worker. */
  function CountBelow(schedule: seq<nat>, workers: nat): nat
  {
    if workers == 0 then 0 else CountBelow(schedule, workers - 1) + Count(schedule, workers - 1)
  }

  /** An interleaving of `workers` workers that each perform `n` increments. */
  predicate IsSchedule(schedule: seq<nat>, workers: nat, n: nat)
  {
    && (forall k :: 0 <= k < |schedule| ==> schedule[k] < workers)
    && (forall w :: 0 <= w < workers ==> Count(schedule, w) == n)
  }

  lemma {:induction false} CountBelowOfEmpty(workers: nat)
    ensures CountBelow([], workers) == 0
  {
    if workers > 0 {
      CountBelowOfEmpty(workers - 1);
    }
  }

  lemma {:induction false} CountBelowStep(schedule: seq<nat>, workers: nat)
    requires schedule != []
    ensures CountBelow(schedule, workers)
         == CountBelow(schedule[1..], workers) + (if schedule[0] < workers then 1 else 0)
  {
    if workers > 0 {
      CountBelowStep(schedule, workers - 1);
    }
  }

  /** Every step belongs to some worker, so the steps add up to the schedule's length. */
  lemma {:induction false} LengthIsCountBelow(schedule: seq<nat>, workers: nat)
    requires forall k :: 0 <= k < |schedule| ==> schedule[k] < workers
    ensures |schedule| == CountBelow(schedule, workers)
    decreases |schedule|
  {
    if schedule == [] {
      CountBelowOfEmpty(workers);
    } else {
      CountBelowStep(schedule, workers);
      LengthIsCountBelow(schedule[1..], workers);
    }
  }

  lemma {:induction false} CountBelowUniform(schedule: seq<nat>, workers: nat, n: nat)
    requires forall w :: 0 <= w < workers ==> Count(schedule, w) == n
    ensures CountBelow(schedule, workers) == workers * n
  {
    if workers > 0 {
      CountBelowUniform(schedule, workers - 1, n);
    }
  }

  /** Whatever the interleaving, `workers` workers doing `n` increments make `workers * n` steps. */
  lemma ScheduleLength(schedule: seq<nat>, workers: nat, n: nat)
    requires IsSchedule(schedule, workers, n)
    ensures |schedule| == workers * n
  {
    LengthIsCountBelow(schedule, workers);
    CountBelowUniform(schedule, workers, n);
  }

  /**
   * The locked demonstration for one interleaving: the counter is reset to
   * 0 and each step of the schedule is one worker's locked increment. The
   * result is `workers * n` whatever the order.
   */
  method RunSafeWorkers(counter: SharedCounter, lock: Lock, schedule: seq<nat>, workers: nat, n: nat)
    requires !lock.held
    requires IsSchedule(schedule, workers, n)
    modifies counter, lock
    ensures counter.value == workers * n && !lock.held
  {
    counter.value := 0;
    for k := 0 to |schedule|
      invariant counter.value == k && !lock.held
    {
      LockedIncrement(counter, lock);
    }
    ScheduleLength(schedule, workers, n);
  }

  /** The locked demonstration with the workers run one after another. */
  method RunSafeWorkersInTurn(counter: SharedCounter, lock: Lock, workers: nat, n: nat)
    requires !lock.held
    modifies counter, lock
    ensures counter.value == workers * n && !lock.held
  {
    counter.value := 0;
    for w := 0 to workers
      invariant counter.value == w * n && !lock.held
    {
      IncrementSharedSafe(counter, n, lock);
    }
  }

  /**
   * `increment_process(n)` in a child process: it binds a counter of its
   * own, counts to `n` there and reports the final value.
   */
  method IncrementProcess(n: int) returns (final: int)
    ensures final == RangeLen(n)
  {
    var counter := new SharedCounter(0);
    for i := 0 to RangeLen(n)
      invariant counter.value == i
    {
      counter.value := counter.value + 1;
    }
    final := counter.value;
  }

  /**
   * The process demonstration: each child counts on its own copy; the
   * parent's counter is not among the objects any child can change.
   */
  method RunProcesses(parent: SharedCounter, processes: nat, n: int) returns (finals: seq<int>)
    ensures |finals| == processes && forall i :: 0 <= i < processes ==> finals[i] == RangeLen(n)
    ensures unchanged(parent)
  {
    finals := [];
    for p := 0 to processes
      invariant |finals| == p && forall i :: 0 <= i < p ==> finals[i] == RangeLen(n)
    {
      var final := IncrementProcess(n);
      finals := finals + [final];
    }
  }

  /** `cpu_bound_task(n)`: the sum of `i * i` for `i` in `range(n)`. */
  method CpuBoundTask(n: int) returns (count: int)
    ensures count == SumSquaresBelow(n)
  {
    count := 0;
    for i := 0 to RangeLen(n)
      invariant count == SumSquaresBelow(i)
    {
      count := count + i * i;
    }
  }

  /** `io_bound_task(n)` without its simulated wait: it hands back its argument. */
  function IoBoundTask(n: int): (r: int)
    ensures r == n
  {
    n
  }

  /** `task(n)`, the job handed to the executors. */
  function Task(n: int): (r: int)
    ensures Square(Int(n)) == Success(Int(r))
  {
    n * n
  }

  /** `executor.map(task, xs)`: one result per input, in input order. */
  function MapTask(xs: seq<int>): (r: seq<int>)
    ensures |r| == |xs|
    ensures forall i :: 0 <= i < |xs| ==> r[i] == Task(xs[i])
  {
    if xs == [] then [] else MapTask(xs[..|xs| - 1]) + [Task(xs[|xs| - 1])]
  }

  /** The executor demonstration: the squares of `range(10)` in order. */
  lemma MapTaskOverRange()
    ensures MapTask(Range(10)) == [0, 1, 4, 9, 16, 25, 36, 49, 64, 81]
  {
    var r := MapTask(Range(10));
    assert forall i :: 0 <= i < 10 ==> r[i] == i * i;
  }

  /**
   * The script's counter demonstrations in order: 5 locked workers of 1000
   * increments, then 3 processes of 100 increments each, after which the
   * parent still sees its own 5000.
   */
  method DemoCounters() returns (locked: int, children: seq<int>, parentAfter: int)
    ensures locked == 5000
    ensures children == [100, 100, 100]
    ensures parentAfter == 5000
  {
    var counter := new SharedCounter(0);
    var lock := new Lock();
    RunSafeWorkersInTurn(counter, lock, 5, 1000);
    locked := counter.value;
    children := RunProcesses(counter, 3, 100);
    parentAfter := counter.value;
  }
}
