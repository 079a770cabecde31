/** The precompiler: one producer, a queue, and any number of workers. A step is one critical section, one
    notification, one wakeup or one run of a job. (include/deep_jit/runtime/precompiler.hpp) */
module Precompiler {
  import opened Bytes
  import opened Finite

  type Key = bytes

  datatype Outcome = Ok | Error(what: bytes)

  /** Where a worker is: about to take the mutex and look, waiting, woken, holding job i before or after
      running it, or gone. */
  datatype Worker = Look | Asleep | Running(i: nat) | Ran(i: nat) | Exited

  /** Where the producer is: in user code, in `enqueue` between the insertion into `submitted` and the push,
      about to notify, in `stop_and_join`, or after `finish`. */
  datatype Producer = Ready | Pushing(key: Key) | NotifyOne | Stopping | NotifyAll | Joining | Joined

  /** `order`: the keys of `results` by submission; `results`: what the futures hold; `jobs`: the queue, as
      indices of results. `taken`, `runs` and `counted` only record: the jobs in the order they were taken,
      the runs of each, and those that `num_completed` counts. */
  datatype State = State(
    submitted: set<Key>, order: seq<Key>, results: seq<Option<Outcome>>, jobs: seq<nat>, workers: seq<Worker>,
    stopping: bool, completed: nat, producer: Producer,
    taken: seq<nat>, runs: seq<nat>, counted: set<nat>)

  function Initial(n: nat): State {
    State({}, [], [], [], seq(n, i => Look), false, 0, Ready, [], [], {})
  }

  function SetWorker(s: State, w: nat, pc: Worker): State
    requires w < |s.workers|
  {
    s.(workers := s.workers[w := pc])
  }

  /** The producer's next step; `target` is whom a notification wakes. */
  ghost function ProducerStep(s: State, target: nat): Option<State> {
    match s.producer
    case Pushing(key) =>
      var i := |s.results|;
      Some(s.(order := s.order + [key], results := s.results + [None], jobs := s.jobs + [i], runs := s.runs + [0],
              producer := NotifyOne))
    case NotifyOne =>
      if target < |s.workers| && s.workers[target].Asleep? then Some(SetWorker(s, target, Look).(producer := Ready))
      else if Asleep !in s.workers then Some(s.(producer := Ready))
      else None
    case Stopping => Some(s.(stopping := true, producer := NotifyAll))
    case NotifyAll =>
      Some(s.(workers := seq(|s.workers|, w requires 0 <= w < |s.workers| => if s.workers[w].Asleep? then Look else s.workers[w]),
              producer := Joining))
    case Joining => if forall w :: w in s.workers ==> w.Exited? then Some(s.(producer := Joined)) else None
    case _ => None
  }

  /** Worker w's next step; `o` is what a job does. */
  function WorkerStep(s: State, w: nat, o: Outcome): Option<State>
    requires w < |s.workers|
  {
    match s.workers[w]
    case Look =>
      if s.jobs != [] then
        Some(SetWorker(s, w, Running(s.jobs[0])).(jobs := s.jobs[1..], taken := s.taken + [s.jobs[0]]))
      else if s.stopping then Some(SetWorker(s, w, Exited))
      else Some(SetWorker(s, w, Asleep))
    case Running(i) =>
      if i < |s.results| && i < |s.runs| then
        Some(SetWorker(s, w, Ran(i)).(results := s.results[i := Some(o)], runs := s.runs[i := s.runs[i] + 1]))
      else None
    case Ran(i) => Some(SetWorker(s, w, Look).(completed := s.completed + 1, counted := s.counted + {i}))
    case _ => None
  }

  datatype Action =
    | Enqueue(key: Key)
    | Finish
    | Produce(target: nat)
    | Work(w: nat, o: Outcome)
    | Wake(w: nat)             // a spurious wakeup

  ghost function Apply(s: State, a: Action): Option<State> {
    match a
    case Enqueue(key) =>
      if !s.producer.Ready? && !s.producer.Joined? then None
      else if s.stopping || key in s.submitted then Some(s)
      else Some(s.(submitted := s.submitted + {key}, producer := Pushing(key)))
    case Finish => if s.producer.Ready? then Some(s.(producer := Stopping)) else None
    case Produce(target) => ProducerStep(s, target)
    case Work(w, o) => if w < |s.workers| then WorkerStep(s, w, o) else None
    case Wake(w) => if w < |s.workers| && s.workers[w].Asleep? then Some(SetWorker(s, w, Look)) else None
  }

  // ---- The numbers that progress prints ----

  function Holds(w: Worker): Option<nat> {
    match w
    case Running(i) => Some(i)
    case Ran(i) => Some(i)
    case _ => None
  }

  /** The workers that hold a job. */
  function Holders(s: State): set<nat> { set w | 0 <= w < |s.workers| && Holds(s.workers[w]).Some? }

  function Iota(n: nat): seq<nat> { seq(n, i => i) }

  // ---- The invariant ----

  ghost predicate QueueOk(s: State) {
    && |s.order| == |s.results| == |s.runs|
    && s.taken + s.jobs == Iota(|s.results|)
    && (forall i, j :: 0 <= i < j < |s.order| ==> s.order[i] != s.order[j])
    && (forall key :: key in s.submitted <==> key in s.order || s.producer == Pushing(key))
    && (s.producer.Pushing? ==> s.producer.key !in s.order)
  }

  /** Every job is queued, held by one worker, or counted; it has run exactly when its worker is past it. */
  ghost predicate JobsOk(s: State) {
    && (forall i :: i in s.counted ==> i < |s.taken|)
    && (forall w: nat :: w < |s.workers| && Holds(s.workers[w]).Some? ==>
          Holds(s.workers[w]).value < |s.taken| && Holds(s.workers[w]).value !in s.counted)
    && (forall w: nat, w': nat :: w < w' < |s.workers| && Holds(s.workers[w]).Some? ==> Holds(s.workers[w]) != Holds(s.workers[w']))
    && (forall i: nat :: i < |s.taken| ==> i in s.counted || Held(s, i))
    && |s.counted| == s.completed
    && |s.counted| + |Holders(s)| == |s.taken|
  }

  ghost predicate Held(s: State, i: nat) { exists w: nat :: w < |s.workers| && Holds(s.workers[w]) == Some(i) }

  ghost predicate RunsOk(s: State) {
    && |s.runs| == |s.results|
    && (forall i: nat :: i < |s.runs| ==> s.runs[i] <= 1 && (s.runs[i] == 1 <==> s.results[i].Some?))
    && (forall i: nat :: i < |s.runs| && |s.taken| <= i ==> s.runs[i] == 0)
    && (forall w: nat :: w < |s.workers| && s.workers[w].Running? && s.workers[w].i < |s.runs| ==> s.runs[s.workers[w].i] == 0)
    && (forall w: nat :: w < |s.workers| && s.workers[w].Ran? && s.workers[w].i < |s.runs| ==> s.runs[s.workers[w].i] == 1)
    && (forall i :: i in s.counted && i < |s.runs| ==> s.runs[i] == 1)
  }

  /** A worker that will look at the queue again without being woken. */
  predicate Awake(w: Worker) { !w.Asleep? && !w.Exited? }

  /** No wakeup is lost: a queued job has an awake worker or a notification coming for it, and so has every
      sleeper after `stopping`. */
  ghost predicate WakeOk(s: State) {
    && (s.jobs != [] ==> s.producer.NotifyOne? || exists w: nat :: w < |s.workers| && Awake(s.workers[w]))
    && (s.stopping <==> s.producer.NotifyAll? || s.producer.Joining? || s.producer.Joined?)
    && (s.stopping && !s.producer.NotifyAll? ==> Asleep !in s.workers)
    && (forall w: nat :: w < |s.workers| && s.workers[w].Exited? ==> s.stopping && s.jobs == [])
    && (s.producer.Joined? ==> forall w: nat :: w < |s.workers| ==> s.workers[w].Exited?)
  }

  ghost predicate Inv(s: State) { |s.workers| > 0 && QueueOk(s) && JobsOk(s) && RunsOk(s) && WakeOk(s) }

  lemma InitialInv(n: nat)
    requires n > 0
    ensures Inv(Initial(n))
  {
    assert Iota(0) == [];
    assert Holders(Initial(n)) == {};
    assert Initial(n).workers[0] == Look;
  }

  // ---- Steps of the producer ----

  lemma PushInv(s: State)
    requires Inv(s) && s.producer.Pushing?
    ensures Inv(ProducerStep(s, 0).value)
  {
    var s' := ProducerStep(s, 0).value;
    var n := |s.results|;
    assert s'.taken + s'.jobs == (s.taken + s.jobs) + [n];
    assert Iota(n + 1) == Iota(n) + [n];
    assert s'.workers == s.workers;
    assert Holders(s') == Holders(s);
    forall i: nat | Held(s, i)
      ensures Held(s', i)
    {
    }
    assert |s.taken| <= n by {
      assert |s.taken + s.jobs| == n;
    }
    assert RunsOk(s');
  }

  /** Sleepers that wake up hold nothing, and looking again costs nothing. */
  ghost predicate Woken(s: State, s': State) {
    && |s'.workers| == |s.workers|
    && s' == s.(workers := s'.workers, producer := s'.producer)
    && forall w: nat :: w < |s.workers| ==> s'.workers[w] == s.workers[w] || (s.workers[w].Asleep? && s'.workers[w].Look?)
  }

  lemma WokenJobsOk(s: State, s': State)
    requires JobsOk(s) && Woken(s, s')
    ensures JobsOk(s')
  {
    assert Holders(s') == Holders(s);
    forall i: nat | Held(s, i)
      ensures Held(s', i)
    {
      var w: nat :| w < |s.workers| && Holds(s.workers[w]) == Some(i);
      assert Holds(s'.workers[w]) == Some(i);
    }
  }

  lemma WokenInv(s: State, s': State)
    requires Inv(s) && Woken(s, s') && WakeOk(s') && (s'.producer == s.producer || !s.producer.Pushing?) && !(s'.producer.Pushing? && s'.producer != s.producer)
    ensures Inv(s')
  {
    WokenJobsOk(s, s');
    assert RunsOk(s');
  }

  lemma NotifyOneInv(s: State, target: nat, s': State)
    requires Inv(s) && s.producer.NotifyOne? && ProducerStep(s, target) == Some(s')
    ensures Inv(s')
  {
    if target < |s.workers| && s.workers[target].Asleep? {
      assert Awake(s'.workers[target]);
    } else if s.jobs != [] {
      assert s'.workers[0] in s'.workers;
      assert Awake(s'.workers[0]);
    }
    WokenInv(s, s');
  }

  lemma StopInv(s: State, target: nat, s': State)
    requires Inv(s) && (s.producer.Stopping? || s.producer.NotifyAll? || s.producer.Joining?) && ProducerStep(s, target) == Some(s')
    ensures Inv(s')
  {
    if s.producer.Stopping? {
      assert s'.workers == s.workers && Holders(s') == Holders(s);
      assert forall i: nat :: Held(s, i) ==> Held(s', i);
    } else {
      assert Asleep !in s'.workers;
      assert s.jobs != [] ==> forall w: nat :: w < |s.workers| && Awake(s.workers[w]) ==> Awake(s'.workers[w]);
      assert forall w: nat :: w < |s.workers| ==> s.workers[w] in s.workers;
      WokenInv(s, s');
    }
  }

  lemma ProducerInv(s: State, target: nat, s': State)
    requires Inv(s) && ProducerStep(s, target) == Some(s')
    ensures Inv(s')
  {
    if s.producer.Pushing? {
      PushInv(s);
    } else if s.producer.NotifyOne? {
      NotifyOneInv(s, target, s');
    } else {
      StopInv(s, target, s');
    }
  }

  // ---- Steps of a worker ----

  /** Worker w moves to pc: the holders change by w at most. */
  lemma HoldersSet(s: State, w: nat, pc: Worker)
    requires w < |s.workers|
    ensures Holders(SetWorker(s, w, pc)) == if Holds(pc).Some? then Holders(s) + {w} else Holders(s) - {w}
  {
  }

  lemma HeldStays(s: State, w: nat, pc: Worker, n: nat)
    requires w < |s.workers| && Held(s, n) && (Holds(s.workers[w]) == Some(n) ==> Holds(pc) == Some(n))
    ensures Held(SetWorker(s, w, pc), n)
  {
    var v: nat :| v < |s.workers| && Holds(s.workers[v]) == Some(n);
    assert Holds(SetWorker(s, w, pc).workers[v]) == Some(n);
  }

  /** Jobs are taken in the order of their submission. */
  lemma TakenInOrder(s: State)
    requires QueueOk(s) && s.jobs != []
    ensures s.jobs[0] == |s.taken| < |s.results|
    ensures s.taken + [s.jobs[0]] + s.jobs[1..] == Iota(|s.results|)
  {
    assert (s.taken + s.jobs)[|s.taken|] == s.jobs[0];
    assert s.taken + [s.jobs[0]] + s.jobs[1..] == s.taken + s.jobs;
  }

  /** Worker w took job i. */
  ghost predicate Took(s: State, w: nat, i: nat, s': State) {
    && w < |s.workers| && s.workers[w].Look? && i == |s.taken|
    && s'.workers == s.workers[w := Running(i)] && s'.counted == s.counted && s'.completed == s.completed
    && |s'.taken| == |s.taken| + 1
  }

  lemma TakeHolders(s: State, w: nat, i: nat, s': State)
    requires Took(s, w, i, s')
    ensures Holders(s') == Holders(s) + {w} && w !in Holders(s)
  {
    HoldersSet(s, w, Running(i));
  }

  lemma TakeHeld(s: State, w: nat, i: nat, s': State, n: nat)
    requires Took(s, w, i, s') && (Held(s, n) || n == i)
    ensures Held(s', n)
  {
    if Held(s, n) {
      HeldStays(s, w, Running(i), n);
      assert Held(SetWorker(s, w, Running(i)), n);
    } else {
      assert Holds(s'.workers[w]) == Some(i);
    }
  }

  lemma TakeJobsOk(s: State, w: nat, i: nat, s': State)
    requires JobsOk(s) && Took(s, w, i, s')
    ensures JobsOk(s')
  {
    TakeHolders(s, w, i, s');
    forall n: nat | n < |s'.taken| && n !in s'.counted
      ensures Held(s', n)
    {
      TakeHeld(s, w, i, s', n);
    }
  }

  lemma TakeInv(s: State, w: nat, o: Outcome)
    requires Inv(s) && w < |s.workers| && s.workers[w].Look? && s.jobs != []
    ensures Inv(WorkerStep(s, w, o).value)
  {
    var s' := WorkerStep(s, w, o).value;
    TakenInOrder(s);
    TakeJobsOk(s, w, s.jobs[0], s');
    assert QueueOk(s');
    assert RunsOk(s');
    assert Awake(s'.workers[w]);
    assert WakeOk(s');
  }

  lemma RestJobsOk(s: State, w: nat, pc: Worker)
    requires JobsOk(s) && w < |s.workers| && s.workers[w].Look? && Holds(pc) == None
    ensures JobsOk(SetWorker(s, w, pc))
  {
    var s' := SetWorker(s, w, pc);
    HoldersSet(s, w, pc);
    assert Holders(s') == Holders(s);
    forall n: nat | Held(s, n)
      ensures Held(s', n)
    {
      HeldStays(s, w, pc, n);
    }
  }

  /** A worker that finds nothing sleeps, or is gone. */
  lemma RestInv(s: State, w: nat, o: Outcome)
    requires Inv(s) && w < |s.workers| && s.workers[w].Look? && s.jobs == []
    ensures Inv(WorkerStep(s, w, o).value)
  {
    RestJobsOk(s, w, WorkerStep(s, w, o).value.workers[w]);
  }

  lemma RunJobsOk(s: State, w: nat, i: nat, s': State)
    requires JobsOk(s) && w < |s.workers| && s.workers[w] == Running(i)
    requires s'.workers == s.workers[w := Ran(i)] && s'.taken == s.taken && s'.counted == s.counted && s'.completed == s.completed
    ensures JobsOk(s')
  {
    HoldersSet(s, w, Ran(i));
    assert Holders(s') == Holders(s);
    forall n: nat | Held(s, n)
      ensures Held(s', n)
    {
      HeldStays(s, w, s'.workers[w], n);
      assert Held(SetWorker(s, w, s'.workers[w]), n);
    }
  }

  lemma RunInv1(s: State, w: nat, o: Outcome, s': State)
    requires Inv(s) && w < |s.workers| && s.workers[w].Running? && WorkerStep(s, w, o) == Some(s')
    ensures Inv(s')
  {
    RunJobsOk(s, w, s.workers[w].i, s');
    assert RunsOk(s');
    assert s.jobs != [] ==> Awake(s'.workers[w]);
  }

  lemma CountJobsOk(s: State, w: nat, i: nat, s': State)
    requires JobsOk(s) && w < |s.workers| && s.workers[w] == Ran(i)
    requires s' == SetWorker(s, w, Look).(completed := s.completed + 1, counted := s.counted + {i})
    ensures JobsOk(s')
  {
    HoldersSet(s, w, Look);
    assert Holders(s') == Holders(s) - {w};
    assert w in Holders(s);
    forall n: nat | Held(s, n) && n != i
      ensures Held(s', n)
    {
      HeldStays(s, w, s'.workers[w], n);
      assert Held(SetWorker(s, w, s'.workers[w]), n);
    }
  }

  lemma CountInv(s: State, w: nat, o: Outcome)
    requires Inv(s) && w < |s.workers| && s.workers[w].Ran?
    ensures Inv(WorkerStep(s, w, o).value)
  {
    var s' := WorkerStep(s, w, o).value;
    CountJobsOk(s, w, s.workers[w].i, s');
    assert RunsOk(s');
    assert Awake(s'.workers[w]);
  }

  // ---- Every step ----

  lemma StepInv(s: State, a: Action, s': State)
    requires Inv(s) && Apply(s, a) == Some(s')
    ensures Inv(s')
  {
    match a {
      case Enqueue(key) => EnqueueInv(s, key, s');
      case Finish => EnqueueInv(s, [], s');
      case Produce(target) => ProducerInv(s, target, s');
      case Work(w, o) =>
        if s.workers[w].Look? && s.jobs != [] {
          TakeInv(s, w, o);
        } else if s.workers[w].Look? {
          RestInv(s, w, o);
        } else if s.workers[w].Running? {
          RunInv1(s, w, o, s');
        } else {
          CountInv(s, w, o);
        }
      case Wake(w) =>
        assert s.jobs != [] ==> Awake(s'.workers[w]);
        WokenInv(s, s');
    }
  }

  /** What the producer does by itself, outside the mutex. */
  lemma EnqueueInv(s: State, key: Key, s': State)
    requires Inv(s) && (Apply(s, Enqueue(key)) == Some(s') || Apply(s, Finish) == Some(s'))
    ensures Inv(s')
  {
    assert s'.workers == s.workers && Holders(s') == Holders(s);
    assert forall i: nat :: Held(s, i) ==> Held(s', i);
  }

  // ---- Runs ----

  ghost predicate Step(s: State, a: Action, s': State) { Apply(s, a) == Some(s') }

  ghost predicate Run(n: nat, run: seq<State>, acts: seq<Action>) {
    && n > 0 && |run| == |acts| + 1 && run[0] == Initial(n)
    && forall k: nat :: k < |acts| ==> Step(run[k], acts[k], run[k + 1])
  }

  lemma {:induction false} RunInv(n: nat, run: seq<State>, acts: seq<Action>, k: nat)
    requires Run(n, run, acts) && k < |run|
    ensures Inv(run[k])
  {
    if k == 0 {
      InitialInv(n);
    } else {
      RunInv(n, run, acts, k - 1);
      assert Step(run[k - 1], acts[k - 1], run[k - 1 + 1]);
      StepInv(run[k - 1], acts[k - 1], run[k]);
    }
  }

  /** Whenever progress is printed, total minus completed minus queued is the number of workers that hold a
      job: the unsigned subtraction never goes below zero. */
  lemma Conservation(n: nat, run: seq<State>, acts: seq<Action>, k: nat)
    requires Run(n, run, acts) && k < |run|
    ensures var s := run[k]; |s.results| - s.completed - |s.jobs| == |Holders(s)| <= n
  {
    RunInv(n, run, acts, k);
    assert |run[k].taken + run[k].jobs| == |Iota(|run[k].results|)|;
    WorkersConstant(n, run, acts, k);
    HoldersBounded(run[k], |run[k].workers|);
  }

  lemma {:induction false} WorkersConstant(n: nat, run: seq<State>, acts: seq<Action>, k: nat)
    requires Run(n, run, acts) && k < |run|
    ensures |run[k].workers| == n
  {
    if k > 0 {
      WorkersConstant(n, run, acts, k - 1);
      assert Step(run[k - 1], acts[k - 1], run[k - 1 + 1]);
    }
  }

  lemma {:induction false} HoldersBounded(s: State, n: nat)
    requires n <= |s.workers|
    ensures |set w | 0 <= w < n && Holds(s.workers[w]).Some?| <= n
  {
    if n > 0 {
      HoldersBounded(s, n - 1);
      var less := set w | 0 <= w < n - 1 && Holds(s.workers[w]).Some?;
      var all := set w | 0 <= w < n && Holds(s.workers[w]).Some?;
      assert all <= less + {n - 1};
      SubsetSmaller(all, less + {n - 1});
    }
  }

  /** For every schedule: jobs are taken in the order of their submission, none is taken twice, and none
      runs twice. */
  lemma FirstInFirstOut(n: nat, run: seq<State>, acts: seq<Action>, k: nat, i: nat)
    requires Run(n, run, acts) && k < |run|
    ensures i < |run[k].taken| ==> run[k].taken[i] == i
    ensures i < |run[k].runs| ==> run[k].runs[i] <= 1
  {
    RunInv(n, run, acts, k);
    var s := run[k];
    assert i < |s.taken| ==> (s.taken + s.jobs)[i] == s.taken[i];
  }

  /** When `finish` has joined the workers, nothing is queued or held, every job has run exactly once, and
      everything is counted. */
  lemma Drained(s: State)
    requires Inv(s) && s.producer.Joined?
    ensures s.jobs == [] && Holders(s) == {} && s.completed == |s.results|
    ensures forall i: nat :: i < |s.runs| ==> s.runs[i] == 1 && s.results[i].Some?
  {
    assert s.workers[0].Exited?;
    assert s.taken + s.jobs == s.taken;
    assert Holders(s) == {};
    forall i: nat | i < |s.runs|
      ensures s.runs[i] == 1
    {
      assert !Held(s, i);
    }
  }

  /** The producer never forgets a key. */
  lemma {:induction false} SubmittedGrows(n: nat, run: seq<State>, acts: seq<Action>, i: nat, k: nat)
    requires Run(n, run, acts) && i <= k < |run|
    ensures run[i].submitted <= run[k].submitted
  {
    if i < k {
      SubmittedGrows(n, run, acts, i, k - 1);
      assert Step(run[k - 1], acts[k - 1], run[k - 1 + 1]);
    }
  }

  /** For every schedule of the producer and the workers: every key that was enqueued before `finish` has
      exactly one job, and that job has run exactly once when `finish` has joined. */
  lemma Drain(n: nat, run: seq<State>, acts: seq<Action>, i: nat, k: nat, key: Key) returns (j: nat)
    requires Run(n, run, acts) && i < k < |run| && acts[i] == Enqueue(key) && !run[i].stopping && run[k].producer.Joined?
    ensures j < |run[k].order| == |run[k].runs| && run[k].order[j] == key && run[k].runs[j] == 1
    ensures forall j' :: 0 <= j' < |run[k].order| && run[k].order[j'] == key ==> j' == j
  {
    assert Step(run[i], acts[i], run[i + 1]);
    SubmittedGrows(n, run, acts, i + 1, k);
    RunInv(n, run, acts, k);
    Drained(run[k]);
    assert key in run[k].order;
    j :| 0 <= j < |run[k].order| && run[k].order[j] == key;
  }

  /** No lost wakeup and no deadlock: until the workers are joined, somebody can go on, or the producer is in
      user code and all jobs are done. */
  lemma NoDeadlock(n: nat, run: seq<State>, acts: seq<Action>, k: nat)
    requires Run(n, run, acts) && k < |run| && !run[k].producer.Joined?
    ensures CanGo(run[k]) || (run[k].producer.Ready? && run[k].jobs == [] && Holders(run[k]) == {})
  {
    RunInv(n, run, acts, k);
    var s := run[k];
    if w: nat :| w < |s.workers| && Awake(s.workers[w]) {
      AwakeGoes(s, w);
    } else {
      assert Holders(s) == {};
      assert s.workers[0] in s.workers;
      if !s.producer.Ready? {
        ProducerGoes(s);
      }
    }
  }

  ghost predicate CanGo(s: State) {
    (exists target :: Apply(s, Produce(target)).Some?) || (exists w, o :: Apply(s, Work(w, o)).Some?)
  }

  lemma AwakeGoes(s: State, w: nat)
    requires Inv(s) && w < |s.workers| && Awake(s.workers[w])
    ensures CanGo(s)
  {
    assert |s.taken + s.jobs| == |s.results|;
    assert Apply(s, Work(w, Ok)).Some?;
  }

  lemma ProducerGoes(s: State)
    requires Inv(s) && !s.producer.Ready? && !s.producer.Joined?
    requires forall w: nat :: w < |s.workers| ==> !Awake(s.workers[w])
    ensures CanGo(s)
  {
    var target: nat := 0;
    if s.producer.NotifyOne? && Asleep in s.workers {
      target :| target < |s.workers| && s.workers[target] == Asleep;
    }
    assert Apply(s, Produce(target)).Some?;
  }

  // ---- The error that finish reports ----

  /** The first error in submission order. */
  ghost predicate FirstError(results: seq<Option<Outcome>>, error: Option<bytes>) {
    match error
    case None => forall i :: 0 <= i < |results| ==> results[i] == Some(Ok)
    case Some(what) =>
      exists i :: 0 <= i < |results| && results[i] == Some(Error(what)) && forall j :: 0 <= j < i ==> results[j] == Some(Ok)
  }

  /** The loop of `finish`: it gets each future in turn, and throws what the first failed one holds. */
  method Report(results: seq<Option<Outcome>>) returns (error: Option<bytes>)
    requires forall i :: 0 <= i < |results| ==> results[i].Some?
    ensures FirstError(results, error)
  {
    for i := 0 to |results|
      invariant forall j :: 0 <= j < i ==> results[j] == Some(Ok)
    {
      match results[i].value
      case Ok =>
      case Error(what) => return Some(what);
    }
    return None;
  }

  /** The error depends on the jobs' outcomes alone, not on the order in which they completed. */
  lemma ReportIsUnique(results: seq<Option<Outcome>>, e: Option<bytes>, f: Option<bytes>)
    requires FirstError(results, e) && FirstError(results, f)
    ensures e == f
  {
  }

  /** After joining, every future is ready: the report never waits. */
  lemma ReportIsReady(n: nat, run: seq<State>, acts: seq<Action>, k: nat)
    requires Run(n, run, acts) && k < |run| && run[k].producer.Joined?
    ensures forall i :: 0 <= i < |run[k].results| ==> run[k].results[i].Some?
  {
    RunInv(n, run, acts, k);
    Drained(run[k]);
  }
}
