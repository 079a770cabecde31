/** `ThreadExecutor` loses no wakeup: while a call is in progress, it or its worker can always take a step
    unless the closure itself blocks, and a call is over after a bounded number of such steps. */
module ExecutorProgress {
  import opened Bytes
  import opened Executor
  import opened ExecutorSafety
  import opened ExecutorRuns

  // ---- No deadlock ----

  ghost predicate CanGo(s: State, t: Tid) { exists choice :: Apply(s, Go(t, choice)).Some? }

  /** The thread has a step of the executor's own code. */
  ghost predicate CanStep(s: State, t: Tid) { CanGo(s, t) && t in s.threads && !s.threads[t].loop.Run? }

  lemma Goes(s: State, t: Tid, choice: Choice)
    requires Apply(s, Go(t, choice)).Some?
    ensures CanGo(s, t)
  {
  }

  /** The calls that wait for nothing. */
  predicate NeverWaits(call: Call) {
    call.Prepare? || call.Install? || call.Check? || call.Leave? || call.StopMark? || call.StopUnlock? || call.Detach? || call.Release?
  }

  predicate WantsLock(call: Call) { call.WantCtx? || call.Relock? || call.StopLock? }

  lemma OffCtxGoes(s: State, t: Tid)
    requires Inv(s) && t in s.threads && (s.threads[t].call.Prepare? || s.threads[t].call.Detach? || s.threads[t].call.Release? || s.threads[t].call.Fetch?)
    ensures CanStep(s, t)
  {
    if s.threads[t].call.Fetch? {
      DoneMeansFinished(s, t);
    }
    Goes(s, t, Choice(t, Value(0)));
  }

  lemma OnCtxGoes(s: State, t: Tid, c: Tid)
    requires Inv(s) && t in s.threads && s.runLock == Some(t) && s.context == Some(c) && OnCtx(s.threads[t].call)
    requires NeverWaits(s.threads[t].call) || (WantsLock(s.threads[t].call) && s.ctxs[c].holder == None)
    ensures CanStep(s, t)
  {
    StepOnCtx(s, t, Choice(t, Value(0)));
    Goes(s, t, Choice(t, Value(0)));
  }

  lemma NotifyGoes(s: State, t: Tid, c: Tid)
    requires Inv(s) && t in s.threads && s.runLock == Some(t) && s.context == Some(c)
    requires s.threads[t].call.Notify? || s.threads[t].call.StopNotify?
    ensures CanStep(s, t)
  {
    OwnerSleeps(s, c);
    StepOnCtx(s, t, Choice(c, Value(0)));
    Goes(s, t, Choice(c, Value(0)));
  }

  /** A worker that holds its lock, or whose lock is free, goes on, unless it sleeps, has ended or runs the
      closure. */
  lemma WorkerGoes(s: State, w: Tid)
    requires Inv(s) && w in s.ctxs && w in s.threads && !s.threads[w].loop.NotifyDone?
    requires !s.threads[w].loop.Doze? && !s.threads[w].loop.Exited? && !s.threads[w].loop.Run?
    requires HoldsOwn(s.threads[w].loop) || s.ctxs[w].holder == None
    ensures CanStep(s, w)
  {
    WorkerIsOutside(s, w);
    assert CtxOk(ViewOf(s, w));
    assert WorkerMove(s.ctxs[w], s.threads[w].loop, w).Some?;
    Goes(s, w, Choice(w, Value(0)));
  }

  lemma WorkerNotifyGoes(s: State, w: Tid)
    requires Inv(s) && w in s.ctxs && w in s.threads && s.threads[w].loop.NotifyDone?
    ensures CanStep(s, w)
  {
    WorkerIsOutside(s, w);
    OwnerSleeps(s, w);
    var target := if OwnerCallSleeps(s, w) then s.runLock.value else w;
    Goes(s, w, Choice(target, Value(0)));
  }

  /** While a caller sleeps, its worker neither sleeps nor has ended. */
  lemma SleeperHasWorker(v: View)
    requires CtxOk(v) && v.current && v.call.Sleep?
    ensures !v.loop.Doze? && !v.loop.Exited? && (v.loop.Run? ==> v.loop == Loop.Run(v.ticket))
    ensures HoldsOwn(v.loop) || v.x.holder == None
  {
  }

  /** In every reachable state with a call in progress, the calling thread or its worker has a step, or the
      worker is inside the closure that was submitted. */
  lemma NoDeadlock(s: State, t: Tid)
    requires Inv(s) && s.runLock == Some(t)
    ensures t in s.threads
    ensures CanStep(s, t) || (s.context.Some? && s.context.value in s.threads &&
              (CanStep(s, s.context.value) || s.threads[s.context.value].loop == Loop.Run(s.threads[t].ticket)))
  {
    var call := s.threads[t].call;
    if !OnCtx(call) {
      OffCtxGoes(s, t);
    } else {
      var c := s.context.value;
      assert CtxOk(ViewOf(s, c));
      if call.Notify? || call.StopNotify? {
        NotifyGoes(s, t, c);
      } else if NeverWaits(call) || (WantsLock(call) && s.ctxs[c].holder == None) {
        OnCtxGoes(s, t, c);
      } else if call.Sleep? {
        SleeperHasWorker(ViewOf(s, c));
        if s.threads[c].loop.NotifyDone? {
          WorkerNotifyGoes(s, c);
        } else if !s.threads[c].loop.Run? {
          WorkerGoes(s, c);
        }
      } else {
        WorkerGoes(s, c);
      }
    }
  }

  /** Nobody waits in vain for the submission lock: it is free, or its holder's call is in progress. */
  lemma NoDeadlockInRuns(run: seq<State>, acts: seq<Action>, i: nat, t: Tid)
    requires ExecutorRuns.Run(run, acts) && i < |run| && t in run[i].threads && !run[i].threads[t].call.Outside?
    ensures exists u: Tid :: CanStep(run[i], u) || (u in run[i].threads && run[i].threads[u].loop.Run? && run[i].context == Some(u))
  {
    RunInv(run, acts, i);
    var s := run[i];
    if s.runLock.Some? {
      NoDeadlock(s, s.runLock.value);
    } else {
      Goes(s, t, Choice(t, Value(0)));
      assert CanStep(s, t);
    }
  }

  // ---- A bound on the steps of a call ----

  /** Whether the worker has something to find in its context. */
  predicate Pending(x: Ctx) { x.task.Some? || x.stopped }

  /** How many steps a worker can take at most before it sleeps, ends, or needs another notification; a
      notification that it gives counts 4, for the steps of the caller that it wakes. */
  function LoopRank(loop: Loop, pending: bool): nat {
    var look := if pending then 14 else 1;
    match loop
    case Test => look
    case Lock => look + 1
    case Regain => look + 1
    case Start => look + 2
    case NotifyDone => look + 5
    case UnlockDone => look + 6
    case MarkDone => look + 7
    case FinishLock => look + 8
    case Destroy(_) => look + 9
    case Run(_) => look + 10
    case Decide(_, stop) => if stop then 1 else look + 11
    case Unlock(_, stop) => if stop then 2 else look + 12
    case _ => 0
  }

  /** The same for a call; where it gives its worker something to find, the worker's steps are counted. */
  function CallRank(call: Call): nat {
    match call
    case Outside => 0
    case WantRun => 0
    case Release(_) => 1
    case Detach(_) => 2
    case StopNotify(_) => 20
    case StopUnlock(_) => 21
    case StopMark(_) => 50
    case StopLock(_) => 51
    case Fetch => 52
    case Leave(_) => 53
    case Sleep => 53
    case Check(_) => 54
    case Relock(_) => 55
    case Notify => 75
    case Install => 105
    case WantCtx => 106
    case Prepare => 120
  }

  function Rank(s: State): nat {
    CallRank(OwnerCall(s)) +
    (if s.context.Some? && s.context.value in s.ctxs && s.context.value in s.threads then
       LoopRank(s.threads[s.context.value].loop, Pending(s.ctxs[s.context.value]))
     else 0)
  }

  lemma WorkerMoveRank(v: View, m: Move)
    requires CtxOk(v) && WorkerMove(v.x, v.loop, v.w) == Some(m)
    ensures LoopRank(m.loop, Pending(m.x)) < LoopRank(v.loop, Pending(v.x))
  {
  }

  lemma CallMoveRank(v: View, t: Tid, x: Ctx, call: Call)
    requires CtxOk(v) && v.current && v.owner == Some(t) && CallMove(v.x, v.call, t, v.ticket) == Some((x, call))
    ensures CallRank(call) + LoopRank(v.loop, Pending(x)) < CallRank(v.call) + LoopRank(v.loop, Pending(v.x))
  {
  }

  lemma WorkerRank(s: State, w: Tid, choice: Choice, s': State)
    requires Inv(s) && s.context == Some(w) && w in s.threads && WorkerStep(s, w, choice) == Some(s')
    ensures Rank(s') < Rank(s)
  {
    WorkerIsOutside(s, w);
    if s.threads[w].loop.NotifyDone? {
      OwnerSleeps(s, w);
      WorkerNotifyRank(s, w, choice, s');
    } else {
      WorkerMoveRank(ViewOf(s, w), WorkerMove(s.ctxs[w], s.threads[w].loop, w).value);
    }
  }

  lemma WorkerNotifyRank(s: State, w: Tid, choice: Choice, s': State)
    requires s.context == Some(w) && w in s.ctxs && w in s.threads && s.runLock != Some(w)
    requires forall t: Tid :: CallerSleeps(s, w, t) ==> s.runLock == Some(t)
    requires s.threads[w].loop.NotifyDone? && WorkerStep(s, w, choice) == Some(s')
    ensures Rank(s') < Rank(s)
  {
    var n := Notified(s, w, choice.target).value;
    assert n == s || (s.runLock == Some(choice.target) && n == SetCall(s, choice.target, Call.Relock(false)));
    assert CallRank(OwnerCall(n)) <= CallRank(OwnerCall(s)) + 2;
    assert s' == SetLoop(n, w, Lock);
    assert OwnerCall(s') == OwnerCall(n);
  }

  lemma CallNotifyRank(s: State, t: Tid, c: Tid, choice: Choice, s': State)
    requires t in s.threads && s.runLock == Some(t) && s.context == Some(c) && c in s.ctxs && c in s.threads && c != t
    requires forall t': Tid :: !CallerSleeps(s, c, t')
    requires (s.threads[t].call.Notify? || s.threads[t].call.StopNotify?) && OnCtxStep(s, t, c, choice) == Some(s')
    ensures Rank(s') < Rank(s)
  {
    var n := Notified(s, c, choice.target).value;
    assert n == s || (s.threads[c].loop.Doze? && n == SetLoop(s, c, Regain));
    assert LoopRank(n.threads[c].loop, Pending(s.ctxs[c])) <= LoopRank(s.threads[c].loop, Pending(s.ctxs[c])) + 15;
    assert s'.threads[c].loop == n.threads[c].loop;
  }

  lemma OnCtxRank(s: State, t: Tid, c: Tid, choice: Choice, s': State)
    requires Inv(s) && t in s.threads && s.runLock == Some(t) && s.context == Some(c) && OnCtxStep(s, t, c, choice) == Some(s')
    ensures Rank(s') < Rank(s)
  {
    var th := s.threads[t];
    if th.call.Notify? || th.call.StopNotify? {
      OwnerSleeps(s, c);
      WorkerIsOutside(s, c);
      CallNotifyRank(s, t, c, choice, s');
    } else {
      WorkerIsOutside(s, c);
      var m := CallMove(s.ctxs[c], th.call, t, th.ticket).value;
      CallMoveRank(ViewOf(s, c), t, m.0, m.1);
    }
  }

  lemma PrepareRank(s: State, t: Tid)
    requires t in s.threads && s.runLock == Some(t) && s.threads[t].call.Prepare? && s.next !in s.threads
    requires s.context.Some? ==> s.context.value != t
    ensures Rank(PrepareStep(s, t)) < Rank(s)
  {
  }

  lemma OutRank(s: State, t: Tid, choice: Choice, s': State)
    requires t in s.threads && s.runLock == Some(t) && CallStep(s, t, choice) == Some(s')
    requires s.threads[t].call.Fetch? || s.threads[t].call.Detach? || s.threads[t].call.Release?
    requires s.context.Some? ==> s.context.value != t
    ensures Rank(s') < Rank(s)
  {
  }

  lemma OffCtxRank(s: State, t: Tid, choice: Choice, s': State)
    requires Inv(s) && s.runLock == Some(t) && t in s.threads && CallStep(s, t, choice) == Some(s') && !OnCtx(s.threads[t].call)
    ensures Rank(s') < Rank(s)
  {
    if s.context.Some? {
      WorkerIsOutside(s, s.context.value);
    }
    if s.threads[t].call.Prepare? {
      PrepareRank(s, t);
    } else {
      OutRank(s, t, choice, s');
    }
  }

  /** Every step of the calling thread, of its worker, or of the closure lowers the rank. */
  lemma RankDrops(s: State, t: Tid, u: Tid, choice: Choice, s': State)
    requires Inv(s) && s.runLock == Some(t) && (u == t || s.context == Some(u)) && Apply(s, Go(u, choice)) == Some(s')
    ensures Rank(s') < Rank(s)
  {
    if s.context == Some(u) {
      WorkerIsOutside(s, u);
      WorkerRank(s, u, choice, s');
    } else if OnCtx(s.threads[t].call) {
      StepOnCtx(s, t, choice);
      OnCtxRank(s, t, s.context.value, choice, s');
    } else {
      OffCtxRank(s, t, choice, s');
    }
  }

  /** A step of the call of thread t, of its worker, or of its closure. */
  predicate OwnStep(s: State, t: Tid, a: Action) { a.Go? && (a.t == t || s.context == Some(a.t)) }

  lemma UserRank(s: State, t: Tid, a: Action, s': State)
    requires Inv(s) && s.runLock == Some(t) && Step(s, a, s') && (a.Spawn? || a.Submit?)
    ensures Rank(s') == Rank(s)
  {
    if s.context.Some? {
      WorkerIsOutside(s, s.context.value);
    }
  }

  lemma RetiredRank(s: State, t: Tid, w: Tid, choice: Choice, s': State)
    requires Inv(s) && s.runLock == Some(t) && w in s.ctxs && w in s.threads && s.context != Some(w) && WorkerStep(s, w, choice) == Some(s')
    ensures Rank(s') == Rank(s)
  {
    WorkerIsOutside(s, w);
    if s.threads[w].loop.NotifyDone? {
      assert Notified(s, w, choice.target) == Some(s);
    }
  }

  /** No other thread moves the rank. */
  lemma RankKept(s: State, t: Tid, a: Action, s': State)
    requires Inv(s) && s.runLock == Some(t) && Step(s, a, s') && !a.Wake? && !a.Expire? && !OwnStep(s, t, a)
    ensures Rank(s') == Rank(s)
  {
    if a.Go? {
      assert s.threads[a.t].call.WantRun? || s.threads[a.t].call.Outside?;
      RetiredRank(s, t, a.t, a.choice, s');
    } else {
      UserRank(s, t, a, s');
    }
  }

  function OwnSteps(run: seq<State>, acts: seq<Action>, t: Tid, i: nat, j: nat): nat
    requires i <= j <= |acts| <= |run|
    decreases j
  {
    if i == j then 0
    else OwnSteps(run, acts, t, i, j - 1) + (if OwnStep(run[j - 1], t, acts[j - 1]) then 1 else 0)
  }

  lemma RankMax(s: State)
    ensures Rank(s) <= 146
  {
  }

  /** Step k lowers the rank by at least what it counts. */
  ghost predicate Lowers(run: seq<State>, acts: seq<Action>, t: Tid, k: nat)
    requires k < |acts| < |run|
  {
    Rank(run[k + 1]) + (if OwnStep(run[k], t, acts[k]) then 1 else 0) <= Rank(run[k])
  }

  lemma RankInRun(run: seq<State>, acts: seq<Action>, t: Tid, k: nat)
    requires ExecutorRuns.Run(run, acts) && k < |acts|
    requires run[k].runLock == Some(t) && !acts[k].Wake? && !acts[k].Expire?
    ensures Lowers(run, acts, t, k)
  {
    RunInv(run, acts, k);
    assert Step(run[k], acts[k], run[k + 1]);
    if OwnStep(run[k], t, acts[k]) {
      RankDrops(run[k], t, acts[k].t, acts[k].choice, run[k + 1]);
    } else {
      RankKept(run[k], t, acts[k], run[k + 1]);
    }
  }

  lemma {:induction false} StepsBounded(run: seq<State>, acts: seq<Action>, t: Tid, i: nat, j: nat)
    requires i <= j <= |acts| < |run| && forall k: nat :: i <= k < j ==> Lowers(run, acts, t, k)
    ensures OwnSteps(run, acts, t, i, j) + Rank(run[j]) <= Rank(run[i])
  {
    if i < j {
      StepsBounded(run, acts, t, i, j - 1);
      assert Lowers(run, acts, t, j - 1);
    }
  }

  /** Without spurious wakeups and timeouts, a call, its worker and its closure take together at most 146
      steps while the call is in progress, whatever other threads do meanwhile. */
  lemma CallIsBounded(run: seq<State>, acts: seq<Action>, t: Tid, i: nat, j: nat)
    requires ExecutorRuns.Run(run, acts) && i <= j <= |acts|
    requires forall k: nat :: i <= k < j ==> run[k].runLock == Some(t) && !acts[k].Wake? && !acts[k].Expire?
    ensures OwnSteps(run, acts, t, i, j) <= 146
  {
    forall k: nat | i <= k < j
      ensures Lowers(run, acts, t, k)
    {
      RankInRun(run, acts, t, k);
    }
    StepsBounded(run, acts, t, i, j);
    RankMax(run[i]);
  }
}
