/** `ThreadExecutor` as threads with program counters: one lock for submissions, and for each worker a
    context with a lock and one condition variable that caller and worker share. A step is one lock
    operation, one critical statement, one notification or one run of a closure; waits may wake up
    spuriously or by their timeout. (include/deep_jit/utils/executor.hpp) */
module Executor {
  import opened Bytes

  type Tid = nat
  type Ticket = nat

  /** What a closure did. */
  datatype Outcome = Value(v: nat) | Error(e: nat)

  datatype Answer = Got(o: Outcome) | TimedOut

  /** Where a thread is inside `run`. `expired`: the wait ended by its timeout. */
  datatype Call =
    | Outside | WantRun | Prepare | WantCtx | Install | Notify
    | Check(expired: bool) | Sleep | Relock(expired: bool) | Leave(done: bool) | Fetch
    | StopLock(a: Answer) | StopMark(a: Answer) | StopUnlock(a: Answer) | StopNotify(a: Answer) | Detach(a: Answer)
    | Release(a: Answer)

  /** Where a worker is inside `thread_main`. */
  datatype Loop =
    | NotWorker | Start | Lock | Test | Doze | Regain
    | Unlock(task: Option<Ticket>, stop: bool) | Decide(task: Option<Ticket>, stop: bool)
    | Run(k: Ticket) | Destroy(k: Ticket) | FinishLock | MarkDone | UnlockDone | NotifyDone | Exited

  /** `inIo` is the thread-local flag `in_iothread`; `ticket` and `timed` describe the current `run` call. */
  datatype Thread = Thread(inIo: bool, ticket: Ticket, timed: bool, call: Call, loop: Loop)

  /** A context. `last` is the submission installed last; it is not part of the program's state. */
  datatype Ctx = Ctx(holder: Option<Tid>, task: Option<Ticket>, done: bool, stopped: bool, last: Option<Ticket>)

  /** The context of worker w has the key w. `ran` counts the runs of each closure, `results` is what the
      promises hold, `destroyed` are the closures whose captures are gone, `answers` what calls gave. */
  datatype State = State(
    context: Option<Tid>, runLock: Option<Tid>, ctxs: map<Tid, Ctx>, threads: map<Tid, Thread>, next: nat,
    ran: multiset<Ticket>, results: map<Ticket, Outcome>, destroyed: set<Ticket>, answers: map<Ticket, Answer>)

  const INITIAL := State(None, None, map[], map[], 0, multiset{}, map[], {}, map[])

  function SetCall(s: State, t: Tid, call: Call): State
    requires t in s.threads
  {
    s.(threads := s.threads[t := s.threads[t].(call := call)])
  }

  function SetLoop(s: State, w: Tid, loop: Loop): State
    requires w in s.threads
  {
    s.(threads := s.threads[w := s.threads[w].(loop := loop)])
  }

  function SetCtx(s: State, c: Tid, x: Ctx): State { s.(ctxs := s.ctxs[c := x]) }

  // ---- The condition variable ----

  predicate WorkerSleeps(s: State, c: Tid) { c in s.threads && s.threads[c].loop.Doze? }

  predicate CallerSleeps(s: State, c: Tid, t: Tid) {
    s.context == Some(c) && t in s.threads && s.threads[t].call.Sleep?
  }

  /** `notify_one` on context c: wakes the sleeper `target`, or nobody when nobody sleeps. */
  ghost function Notified(s: State, c: Tid, target: Tid): Option<State> {
    if target == c && WorkerSleeps(s, c) then Some(SetLoop(s, c, Regain))
    else if CallerSleeps(s, c, target) then Some(SetCall(s, target, Call.Relock(false)))
    else if !WorkerSleeps(s, c) && forall t: Tid :: !CallerSleeps(s, c, t) then Some(s)
    else None
  }

  // ---- Steps ----

  /** What a step leaves open: whom a notification wakes, and what a closure does. */
  datatype Choice = Choice(target: Tid, outcome: Outcome)

  /** What a worker's step does beside its context: it runs a closure, or destroys one. */
  datatype Effect = Nothing | Runs(k: Ticket) | Destroys(k: Ticket)

  datatype Move = Move(x: Ctx, loop: Loop, effect: Effect)

  /** A step of worker w in `thread_main` that is not a notification, on its context x. */
  function WorkerMove(x: Ctx, loop: Loop, w: Tid): Option<Move> {
    match loop
    case Start => Some(Move(x, Lock, Nothing))
    case Lock => if x.holder == None then Some(Move(x.(holder := Some(w)), Test, Nothing)) else None
    case Test =>
      if x.stopped || x.task.Some? then Some(Move(x.(task := None), Unlock(x.task, x.stopped), Nothing))
      else Some(Move(x.(holder := None), Doze, Nothing))
    case Regain => if x.holder == None then Some(Move(x.(holder := Some(w)), Test, Nothing)) else None
    case Unlock(task, stop) => Some(Move(x.(holder := None), Decide(task, stop), Nothing))
    case Decide(task, stop) =>
      if stop then Some(Move(x, Exited, if task.Some? then Destroys(task.value) else Nothing))
      else if task.Some? then Some(Move(x, Run(task.value), Nothing))
      else None
    case Run(k) => Some(Move(x, Destroy(k), Runs(k)))
    case Destroy(k) => Some(Move(x, FinishLock, Destroys(k)))
    case FinishLock => if x.holder == None then Some(Move(x.(holder := Some(w)), MarkDone, Nothing)) else None
    case MarkDone => Some(Move(x.(done := true), UnlockDone, Nothing))
    case UnlockDone => Some(Move(x.(holder := None), NotifyDone, Nothing))
    case _ => None
  }

  /** The first step of `thread_main` sets the thread's flag. */
  function Moved(s: State, w: Tid, m: Move, o: Outcome): State
    requires w in s.threads
  {
    s.(threads := s.threads[w := s.threads[w].(inIo := true, loop := m.loop)], ctxs := s.ctxs[w := m.x],
       ran := if m.effect.Runs? then s.ran + multiset{m.effect.k} else s.ran,
       results := if m.effect.Runs? then s.results[m.effect.k := o] else s.results,
       destroyed := if m.effect.Destroys? then s.destroyed + {m.effect.k} else s.destroyed)
  }

  ghost function WorkerStep(s: State, w: Tid, choice: Choice): Option<State>
    requires w in s.threads && w in s.ctxs
  {
    if s.threads[w].loop.NotifyDone? then
      var n := Notified(s, w, choice.target);
      if n.Some? then Some(SetLoop(n.value, w, Lock)) else None
    else
      var m := WorkerMove(s.ctxs[w], s.threads[w].loop, w);
      if m.Some? then Some(Moved(s, w, m.value, choice.outcome)) else None
  }

  /** `run` with run_lock held: a new worker when there is no context. */
  function PrepareStep(s: State, t: Tid): State
    requires t in s.threads
  {
    if s.context.Some? then SetCall(s, t, WantCtx)
    else
      var w := s.next;
      var s1 := SetCall(s, t, WantCtx);
      s1.(context := Some(w), next := w + 1, ctxs := s1.ctxs[w := Ctx(None, None, false, false, None)],
          threads := s1.threads[w := Thread(false, 0, false, Outside, Start)])
  }

  /** A step of `run` or `stop`, made by thread t with submission k, that is not a notification, on its
      context x. */
  function CallMove(x: Ctx, call: Call, t: Tid, k: Ticket): Option<(Ctx, Call)> {
    match call
    case WantCtx => if x.holder == None then Some((x.(holder := Some(t)), Install)) else None
    case Install => Some((x.(done := false, task := Some(k), last := Some(k)), Notify))
    case Check(expired) =>
      if x.done || expired then Some((x, Leave(x.done))) else Some((x.(holder := None), Sleep))
    case Relock(expired) => if x.holder == None then Some((x.(holder := Some(t)), Call.Check(expired))) else None
    case Leave(done) => Some((x.(holder := None), if done then Fetch else StopLock(TimedOut)))
    case StopLock(a) => if x.holder == None then Some((x.(holder := Some(t)), StopMark(a))) else None
    case StopMark(a) => Some((x.(stopped := true), StopUnlock(a)))
    case StopUnlock(a) => Some((x.(holder := None), StopNotify(a)))
    case _ => None
  }

  ghost function OnCtxStep(s: State, t: Tid, c: Tid, choice: Choice): Option<State>
    requires t in s.threads && c in s.ctxs
  {
    var th := s.threads[t];
    if th.call.Notify? || th.call.StopNotify? then
      var n := Notified(s, c, choice.target);
      if n.Some? then Some(SetCall(n.value, t, if th.call.Notify? then Call.Check(false) else Detach(th.call.a))) else None
    else
      var m := CallMove(s.ctxs[c], th.call, t, th.ticket);
      if m.Some? then Some(SetCall(SetCtx(s, c, m.value.0), t, m.value.1)) else None
  }

  function EnterStep(s: State, t: Tid): State
    requires t in s.threads
  {
    SetCall(s.(runLock := Some(t)), t, Prepare)
  }

  /** `result.get()`: the value, or the error after retiring the worker. */
  function FetchStep(s: State, t: Tid, o: Outcome): State
    requires t in s.threads
  {
    SetCall(s, t, if o.Value? then Release(Got(o)) else StopLock(Got(o)))
  }

  function DetachStep(s: State, t: Tid, a: Answer): State
    requires t in s.threads
  {
    SetCall(s.(context := None), t, Release(a))
  }

  function ReleaseStep(s: State, t: Tid, a: Answer): State
    requires t in s.threads
  {
    SetCall(s.(runLock := None, answers := s.answers[s.threads[t].ticket := a]), t, Outside)
  }

  /** A step of thread t inside `run`. */
  ghost function CallStep(s: State, t: Tid, choice: Choice): Option<State>
    requires t in s.threads
  {
    var th := s.threads[t];
    match th.call
    case Outside => None
    case WantRun => if s.runLock == None then Some(EnterStep(s, t)) else None
    case Prepare => Some(PrepareStep(s, t))
    case Fetch => if th.ticket in s.results then Some(FetchStep(s, t, s.results[th.ticket])) else None
    case Detach(a) => Some(DetachStep(s, t, a))
    case Release(a) => Some(ReleaseStep(s, t, a))
    case _ => if s.context.Some? && s.context.value in s.ctxs then OnCtxStep(s, t, s.context.value, choice) else None
  }

  /** Thread t runs code of its own: a user thread outside `run`, or a worker inside a closure. */
  predicate RunsOwnCode(th: Thread) { th.call.Outside? && (th.loop.NotWorker? || th.loop.Run?) }

  /** `run_in_iothread`: on a worker the closure is called at once, in place; elsewhere it is submitted. */
  function Submitted(s: State, t: Tid, timed: bool): State
    requires t in s.threads
  {
    if s.threads[t].inIo then s
    else s.(threads := s.threads[t := s.threads[t].(ticket := s.next, timed := timed, call := WantRun)], next := s.next + 1)
  }

  datatype Action =
    | Spawn                        // a new user thread
    | Submit(t: Tid, timed: bool)  // run_in_iothread; `timed`: the timeout is not zero
    | Go(t: Tid, choice: Choice)   // the thread's next step
    | Wake(t: Tid)                 // a spurious wakeup
    | Expire(t: Tid)               // the timeout of a timed wait

  ghost function Apply(s: State, a: Action): Option<State> {
    match a
    case Spawn =>
      Some(s.(threads := s.threads[s.next := Thread(false, 0, false, Outside, NotWorker)], next := s.next + 1))
    case Submit(t, timed) =>
      if t in s.threads && RunsOwnCode(s.threads[t]) then Some(Submitted(s, t, timed)) else None
    case Go(t, choice) =>
      if t !in s.threads then None
      else if !s.threads[t].call.Outside? then CallStep(s, t, choice)
      else if t in s.ctxs then WorkerStep(s, t, choice)
      else None
    case Wake(t) =>
      if t !in s.threads then None
      else if s.threads[t].call.Sleep? then Some(SetCall(s, t, Call.Relock(false)))
      else if s.threads[t].loop.Doze? then Some(SetLoop(s, t, Regain))
      else None
    case Expire(t) =>
      if t in s.threads && s.threads[t].call.Sleep? && s.threads[t].timed then Some(SetCall(s, t, Call.Relock(true)))
      else None
  }
}
