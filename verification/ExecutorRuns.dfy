/** What holds in every run of `ThreadExecutor`: isolation of submissions, retirement, and progress. */
module ExecutorRuns {
  import opened Bytes
  import opened Executor
  import opened ExecutorSafety

  ghost predicate Step(s: State, a: Action, s': State) { Apply(s, a) == Some(s') }

  ghost predicate Run(run: seq<State>, acts: seq<Action>) {
    && |run| == |acts| + 1 && run[0] == INITIAL
    && forall k: nat :: k < |acts| ==> Step(run[k], acts[k], run[k + 1])
  }

  lemma {:induction false} RunInv(run: seq<State>, acts: seq<Action>, i: nat)
    requires Run(run, acts) && i < |run|
    ensures Inv(run[i])
  {
    if i == 0 {
      InitialInv();
    } else {
      RunInv(run, acts, i - 1);
      assert Step(run[i - 1], acts[i - 1], run[i - 1 + 1]);
      StepInv(run[i - 1], acts[i - 1], run[i]);
    }
  }

  // ---- Isolation ----

  /** In every interleaving each closure runs at most once, and `run` gives a value or error only of its own
      closure, after that closure ran exactly once and its captures were destroyed. */
  lemma Isolation(run: seq<State>, acts: seq<Action>, i: nat, k: Ticket)
    requires Run(run, acts) && i < |run|
    ensures run[i].ran[k] <= 1
    ensures k in run[i].answers && run[i].answers[k].Got? ==> RanOnce(run[i], k, run[i].answers[k].o)
  {
    RunInv(run, acts, i);
  }

  /** While a call waits, `done` means that this call's submission has run exactly once and is destroyed,
      not an earlier one. */
  lemma DoneIsCurrent(run: seq<State>, acts: seq<Action>, i: nat, t: Tid, c: Tid)
    requires Run(run, acts) && i < |run|
    requires run[i].runLock == Some(t) && run[i].context == Some(c) && t in run[i].threads && Installed(run[i].threads[t].call)
    ensures c in run[i].ctxs && run[i].ctxs[c].last == Some(run[i].threads[t].ticket)
    ensures run[i].ctxs[c].done ==>
              var k := run[i].threads[t].ticket; k in run[i].results && RanOnce(run[i], k, run[i].results[k])
  {
    RunInv(run, acts, i);
    assert CtxOk(ViewOf(run[i], c));
  }

  /** A call that saw `done` finds its future ready: it never waits for the result. */
  lemma FetchNeverBlocks(run: seq<State>, acts: seq<Action>, i: nat, t: Tid, choice: Choice)
    requires Run(run, acts) && i < |run| && t in run[i].threads && run[i].threads[t].call.Fetch?
    ensures Apply(run[i], Go(t, choice)).Some?
  {
    RunInv(run, acts, i);
    DoneMeansFinished(run[i], t);
  }

  /** I/O inside a closure is called in place: it changes nothing here, and no worker ever waits for, or
      holds, the submission lock. */
  lemma NestedIsInline(run: seq<State>, acts: seq<Action>, i: nat, w: Tid, timed: bool)
    requires Run(run, acts) && i < |run| && w in run[i].ctxs
    ensures w in run[i].threads && run[i].threads[w].call.Outside? && run[i].runLock != Some(w)
    ensures run[i].threads[w].loop.Run? ==> Apply(run[i], Submit(w, timed)) == Some(run[i])
  {
    RunInv(run, acts, i);
    WorkerIsOutside(run[i], w);
  }

  // ---- Retirement ----

  /** Worker c is retired, and has not taken a task that it has yet to run. */
  predicate Retired(s: State, c: Tid) {
    && c in s.ctxs && c in s.threads && s.ctxs[c].stopped
    && match s.threads[c].loop
       case Unlock(_, stop) => stop
       case Decide(_, stop) => stop
       case Run(_) => false
       case _ => true
  }

  /** Threads only wake up. */
  ghost predicate LoopsWake(s: State, s': State) {
    forall u :: u in s.threads ==>
      u in s'.threads && (s'.threads[u].loop == s.threads[u].loop || (s.threads[u].loop.Doze? && s'.threads[u].loop.Regain?))
  }

  lemma NotifiedWakes(s: State, c: Tid, target: Tid, n: State)
    requires Notified(s, c, target) == Some(n)
    ensures n.ctxs == s.ctxs && LoopsWake(s, n)
  {
  }

  lemma OnCtxWakes(s: State, t: Tid, c: Tid, choice: Choice, s': State)
    requires t in s.threads && c in s.ctxs && OnCtxStep(s, t, c, choice) == Some(s')
    ensures LoopsWake(s, s') && c in s'.ctxs && s'.ctxs == s.ctxs[c := s'.ctxs[c]]
    ensures s'.ctxs[c].stopped == (s.ctxs[c].stopped || s.threads[t].call.StopMark?)
  {
    var th := s.threads[t];
    if th.call.Notify? || th.call.StopNotify? {
      var n := Notified(s, c, choice.target).value;
      NotifiedWakes(s, c, choice.target, n);
      assert s.ctxs[c := s.ctxs[c]] == s.ctxs;
    }
  }

  lemma OffCtxKeeps(s: State, t: Tid, choice: Choice, s': State)
    requires t in s.threads && CallStep(s, t, choice) == Some(s') && !OnCtx(s.threads[t].call)
    requires s.next !in s.threads && s.next !in s.ctxs
    ensures LoopsWake(s, s') && forall c :: c in s.ctxs ==> c in s'.ctxs && s'.ctxs[c] == s.ctxs[c]
  {
  }

  /** A call's step stops a worker only by its mark. */
  lemma CallKeepsStopped(s: State, t: Tid, c: Tid, choice: Choice, s': State)
    requires ThreadsOk(s) && t in s.threads && !s.threads[t].call.Outside? && CallStep(s, t, choice) == Some(s') && c in s.ctxs
    ensures c in s'.ctxs && LoopsWake(s, s')
    ensures s'.ctxs[c].stopped == (s.ctxs[c].stopped || (s.threads[t].call.StopMark? && s.context == Some(c)))
  {
    if OnCtx(s.threads[t].call) {
      StepOnCtx(s, t, choice);
      OnCtxWakes(s, t, s.context.value, choice, s');
    } else {
      OffCtxKeeps(s, t, choice, s');
    }
  }

  lemma WorkerKeepsStopped(s: State, w: Tid, c: Tid, choice: Choice, s': State)
    requires w in s.ctxs && w in s.threads && WorkerStep(s, w, choice) == Some(s') && c in s.ctxs && c in s.threads
    ensures c in s'.ctxs && c in s'.threads && s'.ctxs[c].stopped == s.ctxs[c].stopped
    ensures c != w ==> s'.threads[c].loop == s.threads[c].loop
    ensures !s.threads[w].loop.NotifyDone? ==>
              WorkerMove(s.ctxs[w], s.threads[w].loop, w) == Some(Move(s'.ctxs[w], s'.threads[w].loop, WorkerMove(s.ctxs[w], s.threads[w].loop, w).value.effect))
    ensures s.threads[w].loop.NotifyDone? ==> s'.threads[w].loop.Lock?
  {
    if s.threads[w].loop.NotifyDone? {
      NotifiedWakes(s, w, choice.target, Notified(s, w, choice.target).value);
    }
  }

  /** A retired worker stays retired: it takes no further task to run. */
  lemma RetiredStays(s: State, a: Action, s': State, c: Tid)
    requires Inv(s) && Step(s, a, s') && Retired(s, c)
    ensures Retired(s', c)
  {
    match a {
      case Go(t, choice) =>
        if s.threads[t].call.Outside? {
          WorkerKeepsStopped(s, t, c, choice, s');
        } else {
          CallKeepsStopped(s, t, c, choice, s');
        }
      case _ => OthersWake(s, a, s');
    }
  }

  lemma OthersWake(s: State, a: Action, s': State)
    requires Step(s, a, s') && !a.Go? && s.next !in s.threads
    ensures s'.ctxs == s.ctxs && LoopsWake(s, s')
  {
  }

  lemma {:induction false} RetiredForEver(run: seq<State>, acts: seq<Action>, i: nat, j: nat, c: Tid)
    requires Run(run, acts) && i <= j < |run| && Retired(run[i], c)
    ensures Retired(run[j], c)
  {
    if i < j {
      RetiredForEver(run, acts, i, j - 1, c);
      RunInv(run, acts, j - 1);
      assert Step(run[j - 1], acts[j - 1], run[j - 1 + 1]);
      RetiredStays(run[j - 1], acts[j - 1], run[j], c);
    }
  }

  /** When a worker is stopped, the only closure it can still run is the submission whose caller stopped it. */
  lemma StoppedWorkerHasOneTask(run: seq<State>, acts: seq<Action>, i: nat, c: Tid)
    requires Run(run, acts) && i < |run| && c in run[i].ctxs && run[i].ctxs[c].stopped && !Retired(run[i], c)
    ensures run[i].ctxs[c].last.Some? && c in run[i].threads
    ensures var k := run[i].ctxs[c].last.value;
            run[i].threads[c].loop == Unlock(Some(k), false) || run[i].threads[c].loop == Decide(Some(k), false) || run[i].threads[c].loop == Loop.Run(k)
  {
    RunInv(run, acts, i);
    assert CtxOk(ViewOf(run[i], c));
  }

  /** A worker is stopped only by the call whose submission it was given last, after that call's timeout or
      error: an old timeout cannot retire a newer task. */
  lemma OnlyOwnCallRetires(run: seq<State>, acts: seq<Action>, i: nat, c: Tid)
    requires Run(run, acts) && i < |acts| && c in run[i].ctxs && c in run[i + 1].ctxs
    requires !run[i].ctxs[c].stopped && run[i + 1].ctxs[c].stopped
    ensures acts[i].Go? && acts[i].t in run[i].threads && run[i].runLock == Some(acts[i].t)
    ensures run[i].ctxs[c].last == Some(run[i].threads[acts[i].t].ticket)
    ensures var th := run[i].threads[acts[i].t];
            && th.call.StopMark?
            && (th.call.a == TimedOut ==> th.timed)
            && (th.call.a.Got? ==> RanOnce(run[i], th.ticket, th.call.a.o))
  {
    RunInv(run, acts, i);
    var s := run[i];
    assert Step(s, acts[i], run[i + 1]);
    assert CtxOk(ViewOf(s, c));
    StoppedBy(s, acts[i], run[i + 1], c);
  }

  lemma StoppedBy(s: State, a: Action, s': State, c: Tid)
    requires Inv(s) && Step(s, a, s') && c in s.ctxs && c in s'.ctxs && !s.ctxs[c].stopped && s'.ctxs[c].stopped
    ensures a.Go? && a.t in s.threads && s.runLock == Some(a.t) && s.context == Some(c) && s.threads[a.t].call.StopMark?
  {
    match a {
      case Go(t, choice) =>
        if s.threads[t].call.Outside? {
          WorkerKeepsStopped(s, t, c, choice, s');
        } else {
          CallKeepsStopped(s, t, c, choice, s');
        }
      case _ => OthersWake(s, a, s');
    }
  }
}
