/** The invariant of `ThreadExecutor` and its preservation by every interleaving. */
module ExecutorSafety {
  import opened Bytes
  import opened Executor

  // ---- Program points ----

  predicate InRun(call: Call) { !call.Outside? && !call.WantRun? }

  /** The call still needs the context. */
  predicate UsesCtx(call: Call) { InRun(call) && !call.Prepare? && !call.Release? }

  /** The call holds its context's lock. */
  predicate HoldsCtx(call: Call) {
    call.Install? || call.Notify? || call.Check? || call.Leave? || call.StopMark? || call.StopUnlock?
  }

  /** The worker holds its context's lock. */
  predicate HoldsOwn(loop: Loop) { loop.Test? || loop.Unlock? || loop.MarkDone? || loop.UnlockDone? }

  /** The call has handed its closure over. */
  predicate Installed(call: Call) { UsesCtx(call) && !call.WantCtx? && !call.Install? }

  /** The call has not handed its closure over yet. */
  predicate BeforeInstall(call: Call) { call.WantRun? || call.Prepare? || call.WantCtx? || call.Install? }

  predicate AfterMark(call: Call) { call.StopUnlock? || call.StopNotify? || call.Detach? }

  function AnswerOf(call: Call): Option<Answer> {
    match call
    case StopLock(a) => Some(a)
    case StopMark(a) => Some(a)
    case StopUnlock(a) => Some(a)
    case StopNotify(a) => Some(a)
    case Detach(a) => Some(a)
    case Release(a) => Some(a)
    case _ => None
  }

  /** The call has seen its closure done. */
  predicate SawDone(call: Call) {
    call == Leave(true) || call.Fetch? || (AnswerOf(call).Some? && AnswerOf(call).value.Got? && !call.Release?)
  }

  predicate SawTimeout(call: Call) {
    call == Call.Check(true) || call == Call.Relock(true) || call == Leave(false) || AnswerOf(call) == Some(TimedOut)
  }

  // ---- One context ----

  /** What concerns one context: its fields, its worker, the call that uses it, and its last submission. */
  datatype View = View(x: Ctx, w: Tid, loop: Loop, current: bool, owner: Option<Tid>, call: Call, ticket: Ticket,
                       ran: nat, destroyed: bool)

  function OwnerCall(s: State): Call {
    if s.runLock.Some? && s.runLock.value in s.threads then s.threads[s.runLock.value].call else Outside
  }

  function OwnerTicket(s: State): Ticket {
    if s.runLock.Some? && s.runLock.value in s.threads then s.threads[s.runLock.value].ticket else 0
  }

  function ViewOf(s: State, c: Tid): View
    requires c in s.ctxs && c in s.threads
  {
    var x := s.ctxs[c];
    var current := s.context == Some(c);
    View(x, c, s.threads[c].loop, current,
         if current then s.runLock else None, if current then OwnerCall(s) else Outside, if current then OwnerTicket(s) else 0,
         if x.last.Some? then s.ran[x.last.value] else 0, x.last.Some? && x.last.value in s.destroyed)
  }

  /** The worker looks for a task, or is about to. */
  predicate Idle(loop: Loop) {
    loop.Start? || loop.Lock? || loop.Test? || loop.Doze? || loop.Regain? || loop.NotifyDone?
  }

  /** The submission k waits in the context: not run, not destroyed. */
  predicate Waits(v: View, k: Ticket) {
    v.x.task == Some(k) && !v.x.done && Idle(v.loop) && v.ran == 0 && !v.destroyed
  }

  /** The worker has taken the submission k and is not through with it. */
  predicate Taken(v: View, k: Ticket) {
    && v.x.task == None && !v.x.done
    && match v.loop
       case Unlock(task, stop) => task == Some(k) && v.ran == 0 && !v.destroyed && stop == v.x.stopped
       case Decide(task, stop) => task == Some(k) && v.ran == 0 && !v.destroyed && (stop ==> v.x.stopped)
       case Run(n) => n == k && v.ran == 0 && !v.destroyed
       case Destroy(n) => n == k && v.ran == 1 && !v.destroyed
       case FinishLock => v.ran == 1 && v.destroyed
       case MarkDone => v.ran == 1 && v.destroyed
       case Exited => v.ran == 0 && v.destroyed && v.x.stopped
       case _ => false
  }

  /** The last submission has run once and is destroyed; a retired worker has no task left to take. */
  predicate Over(v: View) {
    && v.x.task == None && v.x.done && v.ran == 1 && v.destroyed
    && (Idle(v.loop) || v.loop.UnlockDone? ||
        (v.x.stopped && (v.loop == Unlock(None, true) || v.loop == Decide(None, true) || v.loop.Exited?)))
  }

  predicate StageOk(v: View) {
    match v.x.last
    case None => v.x.task == None && !v.x.done && !v.x.stopped && Idle(v.loop) && !v.loop.NotifyDone?
    case Some(k) => Waits(v, k) || Taken(v, k) || Over(v)
  }

  predicate LockOk(v: View) {
    && (HoldsOwn(v.loop) ==> v.x.holder == Some(v.w) && !HoldsCtx(v.call))
    && (HoldsCtx(v.call) ==> v.x.holder == v.owner && v.owner.Some?)
    && (!HoldsOwn(v.loop) && !HoldsCtx(v.call) ==> v.x.holder == None)
  }

  /** No wakeup is lost: who sleeps although there is something for it has a notification coming. */
  predicate WakeOk(v: View) {
    && (v.loop.Doze? && v.x.task.Some? ==> v.call.Notify?)
    && (v.loop.Doze? && v.x.stopped ==> v.call.StopUnlock? || v.call.StopNotify?)
    && (v.call.Sleep? && v.x.done ==> v.loop.UnlockDone? || v.loop.NotifyDone?)
  }

  predicate OwnerOk(v: View) {
    && (v.x.stopped <==> !v.current || AfterMark(v.call))
    && (v.current ==>
          && (Installed(v.call) ==> v.x.last == Some(v.ticket))
          && (!Installed(v.call) ==> v.x.last == None || v.x.done)
          && (SawDone(v.call) ==> v.x.done))
  }

  predicate CtxOk(v: View) { StageOk(v) && LockOk(v) && WakeOk(v) && OwnerOk(v) }

  // ---- All of it ----

  ghost predicate ThreadsOk(s: State) {
    && (forall t :: t in s.threads ==>
          var th := s.threads[t];
          && t < s.next
          && (th.loop.NotWorker? <==> t !in s.ctxs)
          && (!th.loop.NotWorker? ==> th.call.Outside?)
          && (th.inIo ==> !th.loop.NotWorker?)
          && (!th.loop.NotWorker? && !th.loop.Start? ==> th.inIo)
          && (InRun(th.call) <==> s.runLock == Some(t)))
    && (forall c :: c in s.ctxs ==> c in s.threads)
    && (s.runLock.Some? ==> s.runLock.value in s.threads)
    && (s.context.Some? ==> s.context.value in s.ctxs)
    && (UsesCtx(OwnerCall(s)) ==> s.context.Some?)
  }

  ghost predicate CtxsOk(s: State)
    requires ThreadsOk(s)
  {
    forall c :: c in s.ctxs ==> CtxOk(ViewOf(s, c))
  }

  /** k was run exactly once, with this outcome, and its captures are gone. */
  predicate RanOnce(s: State, k: Ticket, o: Outcome) {
    s.ran[k] == 1 && k in s.results && s.results[k] == o && k in s.destroyed
  }

  ghost predicate AnswersOk(s: State) {
    && (forall k :: k in s.answers && s.answers[k].Got? ==> RanOnce(s, k, s.answers[k].o))
    && (forall t :: t in s.threads ==>
          var th := s.threads[t];
          && (SawTimeout(th.call) ==> th.timed)
          && (AnswerOf(th.call).Some? && AnswerOf(th.call).value.Got? ==> RanOnce(s, th.ticket, AnswerOf(th.call).value.o)))
  }

  ghost predicate Unused(s: State, k: Ticket) {
    && s.ran[k] == 0 && k !in s.results && k !in s.destroyed && k !in s.answers
    && forall c :: c in s.ctxs ==> s.ctxs[c].last != Some(k)
  }

  /** Each closure has run at most once, and its promise holds a result exactly when it has. */
  ghost predicate RecordOk(s: State) {
    forall k: nat :: s.ran[k] <= 1 && (s.ran[k] == 1 <==> k in s.results)
  }

  ghost predicate LastsOk(s: State) {
    forall c, c' :: c in s.ctxs && c' in s.ctxs && c != c' && s.ctxs[c].last.Some? ==> s.ctxs[c].last != s.ctxs[c'].last
  }

  ghost predicate FreshOk(s: State) {
    && (forall k: nat :: k >= s.next ==> Unused(s, k))
    && (forall t :: t in s.threads && BeforeInstall(s.threads[t].call) ==> Unused(s, s.threads[t].ticket))
  }

  ghost predicate CallTicketsOk(s: State) {
    && (forall t :: t in s.threads && !s.threads[t].call.Outside? ==>
          s.threads[t].ticket < s.next && s.threads[t].ticket !in s.answers)
    && (forall t, t' :: t in s.threads && t' in s.threads && t != t' && !s.threads[t].call.Outside? && !s.threads[t'].call.Outside? ==>
          s.threads[t].ticket != s.threads[t'].ticket)
  }

  ghost predicate TicketsOk(s: State) { RecordOk(s) && LastsOk(s) && FreshOk(s) && CallTicketsOk(s) }

  ghost predicate Inv(s: State) { ThreadsOk(s) && CtxsOk(s) && AnswersOk(s) && TicketsOk(s) }

  lemma InitialInv()
    ensures Inv(INITIAL)
  {
  }

  // ---- Steps of a worker ----

  /** The submission that a step runs or destroys is the last one of its context, and a closure that runs
      has not run before. */
  ghost predicate EffectOk(s: State, x: Ctx, effect: Effect) {
    match effect
    case Nothing => true
    case Runs(k) => x.last == Some(k) && s.ran[k] == 0
    case Destroys(k) => x.last == Some(k)
  }

  ghost predicate MoveOk(s: State, w: Tid, m: Move) {
    && w in s.ctxs && w in s.threads && s.runLock != Some(w) && !m.loop.NotWorker?
    && m.x.last == s.ctxs[w].last && EffectOk(s, m.x, m.effect)
  }

  lemma MovedThreads(s: State, w: Tid, m: Move, o: Outcome)
    requires ThreadsOk(s) && MoveOk(s, w, m)
    ensures ThreadsOk(Moved(s, w, m, o))
  {
  }

  lemma MovedOthers(s: State, w: Tid, m: Move, o: Outcome, c: Tid)
    requires ThreadsOk(s) && LastsOk(s) && MoveOk(s, w, m) && c in s.ctxs && c != w
    ensures ViewOf(Moved(s, w, m, o), c) == ViewOf(s, c)
  {
  }

  lemma MovedFresh(s: State, w: Tid, m: Move, o: Outcome)
    requires ThreadsOk(s) && FreshOk(s) && MoveOk(s, w, m)
    ensures FreshOk(Moved(s, w, m, o))
  {
    var s' := Moved(s, w, m, o);
    forall k: nat | Unused(s, k)
      ensures Unused(s', k)
    {
    }
  }

  lemma MovedLasts(s: State, w: Tid, m: Move, o: Outcome)
    requires LastsOk(s) && MoveOk(s, w, m)
    ensures LastsOk(Moved(s, w, m, o))
  {
    var s' := Moved(s, w, m, o);
    assert forall c :: c in s'.ctxs ==> c in s.ctxs && s'.ctxs[c].last == s.ctxs[c].last;
  }

  lemma MovedTickets(s: State, w: Tid, m: Move, o: Outcome)
    requires ThreadsOk(s) && TicketsOk(s) && MoveOk(s, w, m)
    ensures TicketsOk(Moved(s, w, m, o))
  {
    MovedFresh(s, w, m, o);
    MovedLasts(s, w, m, o);
    assert CallTicketsOk(Moved(s, w, m, o));
    assert RecordOk(Moved(s, w, m, o));
  }

  lemma MovedAnswers(s: State, w: Tid, m: Move, o: Outcome)
    requires RecordOk(s) && AnswersOk(s) && MoveOk(s, w, m)
    ensures AnswersOk(Moved(s, w, m, o))
  {
    var s' := Moved(s, w, m, o);
    forall k: nat, o' | RanOnce(s, k, o')
      ensures RanOnce(s', k, o')
    {
    }
    assert forall t :: t in s'.threads ==> s'.threads[t].call == s.threads[t].call && s'.threads[t].ticket == s.threads[t].ticket && s'.threads[t].timed == s.threads[t].timed;
  }

  lemma MovedInv(s: State, w: Tid, m: Move, o: Outcome)
    requires Inv(s) && MoveOk(s, w, m)
    requires var s' := Moved(s, w, m, o); CtxOk(ViewOf(s', w))
    ensures Inv(Moved(s, w, m, o))
  {
    var s' := Moved(s, w, m, o);
    MovedThreads(s, w, m, o);
    MovedTickets(s, w, m, o);
    MovedAnswers(s, w, m, o);
    forall c | c in s'.ctxs
      ensures CtxOk(ViewOf(s', c))
    {
      if c != w {
        MovedOthers(s, w, m, o, c);
      }
    }
  }

  /** A worker is never inside `run`: its nested I/O is called in place, and it never waits for run_lock. */
  lemma WorkerIsOutside(s: State, w: Tid)
    requires Inv(s) && w in s.ctxs
    ensures w in s.threads && s.threads[w].call.Outside? && s.runLock != Some(w)
    ensures s.threads[w].loop.Run? ==> s.threads[w].inIo
  {
  }

  /** A worker's step as its own context sees it. */
  function MovedView(v: View, m: Move): View {
    v.(x := m.x, loop := m.loop, ran := if m.effect.Runs? then v.ran + 1 else v.ran,
       destroyed := v.destroyed || m.effect.Destroys?)
  }

  lemma WorkerMoveView(v: View, m: Move)
    requires CtxOk(v) && WorkerMove(v.x, v.loop, v.w) == Some(m)
    ensures CtxOk(MovedView(v, m)) && m.x.last == v.x.last && !m.loop.NotWorker?
    ensures m.effect.Runs? ==> v.x.last == Some(m.effect.k) && v.ran == 0
    ensures m.effect.Destroys? ==> v.x.last == Some(m.effect.k)
  {
  }

  lemma MovedViewIs(s: State, w: Tid, m: Move, o: Outcome)
    requires MoveOk(s, w, m)
    ensures ViewOf(Moved(s, w, m, o), w) == MovedView(ViewOf(s, w), m)
  {
  }

  lemma WorkerMoveInv(s: State, w: Tid, m: Move, o: Outcome)
    requires Inv(s) && w in s.ctxs && w in s.threads && WorkerMove(s.ctxs[w], s.threads[w].loop, w) == Some(m)
    ensures Inv(Moved(s, w, m, o))
  {
    WorkerIsOutside(s, w);
    WorkerMoveView(ViewOf(s, w), m);
    MovedViewIs(s, w, m, o);
    MovedInv(s, w, m, o);
  }

  // ---- Steps of a call on its context ----

  /** Call of thread t moves to `call'`, leaving its context as x. */
  function Called(s: State, t: Tid, c: Tid, x: Ctx, call: Call): State
    requires t in s.threads
  {
    SetCall(SetCtx(s, c, x), t, call)
  }

  /** t is inside `run` on context c, and this step hands over its closure or leaves the submission alone. */
  ghost predicate CalledOk(s: State, t: Tid, c: Tid, x: Ctx, call: Call) {
    && t in s.threads && s.runLock == Some(t) && s.context == Some(c) && c in s.ctxs && InRun(call)
    && (x.last == s.ctxs[c].last || (x.last == Some(s.threads[t].ticket) && BeforeInstall(s.threads[t].call)))
    && (BeforeInstall(call) ==> BeforeInstall(s.threads[t].call) && x.last == s.ctxs[c].last)
    && (SawTimeout(call) ==> s.threads[t].timed)
    && (AnswerOf(call).Some? && AnswerOf(call).value.Got? ==> RanOnce(s, s.threads[t].ticket, AnswerOf(call).value.o))
  }

  lemma CalledThreads(s: State, t: Tid, c: Tid, x: Ctx, call: Call)
    requires ThreadsOk(s) && CalledOk(s, t, c, x, call)
    ensures ThreadsOk(Called(s, t, c, x, call))
  {
  }

  lemma CalledOthers(s: State, t: Tid, c: Tid, x: Ctx, call: Call, c': Tid)
    requires ThreadsOk(s) && CalledOk(s, t, c, x, call) && c' in s.ctxs && c' != c
    ensures ViewOf(Called(s, t, c, x, call), c') == ViewOf(s, c')
  {
  }

  lemma CalledFresh(s: State, t: Tid, c: Tid, x: Ctx, call: Call)
    requires ThreadsOk(s) && FreshOk(s) && CallTicketsOk(s) && CalledOk(s, t, c, x, call)
    ensures FreshOk(Called(s, t, c, x, call))
  {
    var s' := Called(s, t, c, x, call);
    var k' := s.threads[t].ticket;
    forall k: nat | Unused(s, k) && (x.last == s.ctxs[c].last || k != k')
      ensures Unused(s', k)
    {
    }
  }

  lemma CalledLasts(s: State, t: Tid, c: Tid, x: Ctx, call: Call)
    requires ThreadsOk(s) && LastsOk(s) && FreshOk(s) && CalledOk(s, t, c, x, call)
    ensures LastsOk(Called(s, t, c, x, call))
  {
    var s' := Called(s, t, c, x, call);
    assert BeforeInstall(s.threads[t].call) ==> Unused(s, s.threads[t].ticket);
    assert forall c' :: c' in s'.ctxs && c' != c ==> c' in s.ctxs && s'.ctxs[c'].last == s.ctxs[c'].last;
  }

  lemma CalledTickets(s: State, t: Tid, c: Tid, x: Ctx, call: Call)
    requires ThreadsOk(s) && TicketsOk(s) && CalledOk(s, t, c, x, call)
    ensures TicketsOk(Called(s, t, c, x, call))
  {
    CalledFresh(s, t, c, x, call);
    CalledLasts(s, t, c, x, call);
    assert CallTicketsOk(Called(s, t, c, x, call));
  }

  lemma CalledAnswers(s: State, t: Tid, c: Tid, x: Ctx, call: Call)
    requires AnswersOk(s) && CalledOk(s, t, c, x, call)
    ensures AnswersOk(Called(s, t, c, x, call))
  {
  }

  lemma CalledInv(s: State, t: Tid, c: Tid, x: Ctx, call: Call)
    requires Inv(s) && CalledOk(s, t, c, x, call)
    requires var s' := Called(s, t, c, x, call); CtxOk(ViewOf(s', c))
    ensures Inv(Called(s, t, c, x, call))
  {
    var s' := Called(s, t, c, x, call);
    CalledThreads(s, t, c, x, call);
    CalledTickets(s, t, c, x, call);
    CalledAnswers(s, t, c, x, call);
    forall c' | c' in s'.ctxs
      ensures CtxOk(ViewOf(s', c'))
    {
      if c' != c {
        CalledOthers(s, t, c, x, call, c');
      }
    }
  }

  /** A call's step as its context sees it. */
  function CalledView(v: View, x: Ctx, call: Call): View {
    v.(x := x, call := call, ran := if x.last == v.x.last then v.ran else 0,
       destroyed := if x.last == v.x.last then v.destroyed else false)
  }

  lemma CallMoveView(v: View, t: Tid, x: Ctx, call: Call)
    requires CtxOk(v) && v.current && v.owner == Some(t) && CallMove(v.x, v.call, t, v.ticket) == Some((x, call))
    requires BeforeInstall(v.call) ==> v.x.last != Some(v.ticket)
    ensures CtxOk(CalledView(v, x, call)) && UsesCtx(call)
    ensures x.last == v.x.last || (x.last == Some(v.ticket) && BeforeInstall(v.call))
    ensures BeforeInstall(call) ==> BeforeInstall(v.call) && x.last == v.x.last
    ensures SawTimeout(call) ==> SawTimeout(v.call)
    ensures AnswerOf(call) == AnswerOf(v.call) || AnswerOf(call) == Some(TimedOut)
  {
  }

  lemma CalledViewIs(s: State, t: Tid, c: Tid, x: Ctx, call: Call)
    requires CalledOk(s, t, c, x, call) && c in s.threads
    requires BeforeInstall(s.threads[t].call) ==> Unused(s, s.threads[t].ticket)
    ensures ViewOf(Called(s, t, c, x, call), c) == CalledView(ViewOf(s, c), x, call)
  {
  }

  lemma CallMoveInv(s: State, t: Tid, c: Tid, x: Ctx, call: Call)
    requires Inv(s) && t in s.threads && s.runLock == Some(t) && s.context == Some(c)
    requires CallMove(s.ctxs[c], s.threads[t].call, t, s.threads[t].ticket) == Some((x, call))
    ensures Inv(Called(s, t, c, x, call))
  {
    var th := s.threads[t];
    assert BeforeInstall(th.call) ==> Unused(s, th.ticket);
    CallMoveView(ViewOf(s, c), t, x, call);
    CalledViewIs(s, t, c, x, call);
    CalledInv(s, t, c, x, call);
  }

  // ---- Wakeups and notifications ----

  /** The worker moves on without touching its context. */
  lemma WorkerAloneInv(s: State, w: Tid, loop: Loop)
    requires Inv(s) && w in s.ctxs && s.threads[w].inIo && !loop.NotWorker?
    requires CtxOk(ViewOf(s, w).(loop := loop))
    ensures Inv(SetLoop(s, w, loop))
  {
    WorkerIsOutside(s, w);
    var m, s' := Move(s.ctxs[w], loop, Nothing), SetLoop(s, w, loop);
    assert s'.ctxs[w := s.ctxs[w]] == s'.ctxs;
    assert Moved(s, w, m, Value(0)) == s';
    MovedViewIs(s, w, m, Value(0));
    MovedInv(s, w, m, Value(0));
  }

  /** The call moves on without touching its context. */
  lemma CallAloneInv(s: State, t: Tid, c: Tid, call: Call)
    requires Inv(s) && c in s.ctxs && CalledOk(s, t, c, s.ctxs[c], call)
    requires CtxOk(ViewOf(s, c).(call := call))
    ensures Inv(SetCall(s, t, call))
  {
    assert SetCtx(s, c, s.ctxs[c]) == s;
    assert BeforeInstall(s.threads[t].call) ==> Unused(s, s.threads[t].ticket);
    CalledViewIs(s, t, c, s.ctxs[c], call);
    CalledInv(s, t, c, s.ctxs[c], call);
  }

  lemma WakeWorkerInv(s: State, w: Tid)
    requires Inv(s) && w in s.ctxs && s.threads[w].loop.Doze?
    ensures Inv(SetLoop(s, w, Regain))
  {
    WokenWorkerView(ViewOf(s, w));
    WorkerAloneInv(s, w, Regain);
  }

  lemma WokenWorkerView(v: View)
    requires CtxOk(v) && v.loop.Doze?
    ensures CtxOk(v.(loop := Regain))
  {
  }

  lemma OwnerSleeps(s: State, c: Tid)
    requires Inv(s)
    ensures OwnerCallSleeps(s, c) ==> s.runLock.Some? && CallerSleeps(s, c, s.runLock.value)
    ensures forall t: Tid :: CallerSleeps(s, c, t) ==> s.runLock == Some(t) && c in s.ctxs && OwnerCallSleeps(s, c)
  {
  }

  predicate OwnerCallSleeps(s: State, c: Tid) { s.context == Some(c) && OwnerCall(s).Sleep? }

  lemma WokenCallView(v: View, expired: bool)
    requires CtxOk(v) && v.call.Sleep?
    ensures CtxOk(v.(call := Call.Relock(expired)))
  {
  }

  lemma WakeCallerInv(s: State, t: Tid, expired: bool)
    requires Inv(s) && t in s.threads && s.threads[t].call.Sleep? && (expired ==> s.threads[t].timed)
    ensures Inv(SetCall(s, t, Call.Relock(expired)))
  {
    var c := s.context.value;
    WokenCallView(ViewOf(s, c), expired);
    CallAloneInv(s, t, c, Call.Relock(expired));
  }

  lemma NotifiedWorkerView(v: View)
    requires CtxOk(v) && v.loop.NotifyDone? && !v.call.Sleep?
    ensures CtxOk(v.(loop := Lock))
  {
  }

  /** A worker's notification wakes the caller if it sleeps: nobody else sleeps there. */
  lemma WorkerNotifyInv(s: State, w: Tid, choice: Choice, s': State)
    requires Inv(s) && w in s.ctxs && w in s.threads && s.threads[w].loop.NotifyDone? && WorkerStep(s, w, choice) == Some(s')
    ensures Inv(s')
  {
    WorkerIsOutside(s, w);
    OwnerSleeps(s, w);
    var n := Notified(s, w, choice.target).value;
    if CallerSleeps(s, w, choice.target) {
      WakeCallerInv(s, choice.target, false);
    }
    NotifiedWorkerView(ViewOf(n, w));
    WorkerAloneInv(n, w, Lock);
  }

  lemma NotifiedCallView(v: View)
    requires CtxOk(v) && !v.loop.Doze?
    ensures v.call.Notify? ==> CtxOk(v.(call := Call.Check(false)))
    ensures v.call.StopNotify? ==> CtxOk(v.(call := Detach(v.call.a)))
  {
  }

  /** A caller's notification wakes the worker if it sleeps: nobody else sleeps there. */
  lemma CallNotifyInv(s: State, t: Tid, c: Tid, choice: Choice, s': State)
    requires Inv(s) && t in s.threads && s.runLock == Some(t) && s.context == Some(c)
    requires (s.threads[t].call.Notify? || s.threads[t].call.StopNotify?) && OnCtxStep(s, t, c, choice) == Some(s')
    ensures Inv(s')
  {
    OwnerSleeps(s, c);
    var n := Notified(s, c, choice.target).value;
    if WorkerSleeps(s, c) {
      WakeWorkerInv(s, c);
    }
    WorkerIsOutside(s, c);
    if s.threads[t].call.Notify? {
      NotifiedCallInv(n, t, c);
    } else {
      NotifiedStopInv(n, t, c);
    }
  }

  lemma NotifiedCallInv(n: State, t: Tid, c: Tid)
    requires Inv(n) && t in n.threads && n.runLock == Some(t) && n.context == Some(c) && !n.threads[c].loop.Doze?
    requires n.threads[t].call.Notify?
    ensures Inv(SetCall(n, t, Call.Check(false)))
  {
    NotifiedCallView(ViewOf(n, c));
    CallAloneInv(n, t, c, Call.Check(false));
  }

  lemma NotifiedStopInv(n: State, t: Tid, c: Tid)
    requires Inv(n) && t in n.threads && n.runLock == Some(t) && n.context == Some(c) && !n.threads[c].loop.Doze?
    requires n.threads[t].call.StopNotify?
    ensures Inv(SetCall(n, t, Detach(n.threads[t].call.a)))
  {
    NotifiedCallView(ViewOf(n, c));
    CallAloneInv(n, t, c, Detach(n.threads[t].call.a));
  }

  // ---- The other steps of a call ----

  /** Thread t moves to `call`; contexts and records stay, except that a finished call gives its answer. */
  ghost predicate Turned(s: State, s': State, t: Tid, call: Call) {
    && t in s.threads && s'.threads == s.threads[t := s.threads[t].(call := call)]
    && s'.ctxs == s.ctxs && s'.next == s.next && s'.ran == s.ran && s'.results == s.results && s'.destroyed == s.destroyed
    && var th := s.threads[t];
       && !th.call.Outside? && !call.WantRun? && (BeforeInstall(call) ==> BeforeInstall(th.call))
       && (SawTimeout(call) ==> SawTimeout(th.call)) && (AnswerOf(call) == None || AnswerOf(call) == AnswerOf(th.call))
       && (s'.answers == s.answers ||
           (call.Outside? && th.call.Release? && s'.answers == s.answers[th.ticket := th.call.a]))
  }

  lemma TurnedFresh(s: State, s': State, t: Tid, call: Call)
    requires FreshOk(s) && CallTicketsOk(s) && Turned(s, s', t, call)
    ensures FreshOk(s')
  {
    var k' := s.threads[t].ticket;
    forall k: nat | Unused(s, k) && (s'.answers == s.answers || k != k')
      ensures Unused(s', k)
    {
    }
  }

  lemma TurnedTickets(s: State, s': State, t: Tid, call: Call)
    requires TicketsOk(s) && Turned(s, s', t, call)
    ensures TicketsOk(s')
  {
    TurnedFresh(s, s', t, call);
    assert LastsOk(s');
    assert CallTicketsOk(s');
  }

  /** The submission lock goes to the thread that comes into `run`, and from the thread that leaves it. */
  lemma TurnedThreads(s: State, s': State, t: Tid, call: Call)
    requires ThreadsOk(s) && Turned(s, s', t, call) && !UsesCtx(call)
    requires s'.context == s.context || s'.context == None
    requires InRun(s.threads[t].call) || s.runLock == None
    requires s'.runLock == if InRun(call) then Some(t) else None
    ensures ThreadsOk(s')
  {
  }

  lemma TurnedAnswers(s: State, s': State, t: Tid, call: Call)
    requires AnswersOk(s) && Turned(s, s', t, call)
    ensures AnswersOk(s')
  {
  }

  /** What a context may see of such a step: another owner, or none, or that it is retired. */
  lemma TurnedInv(s: State, s': State, t: Tid, call: Call)
    requires Inv(s) && Turned(s, s', t, call) && ThreadsOk(s') && CtxsOk(s')
    ensures Inv(s')
  {
    TurnedTickets(s, s', t, call);
    TurnedAnswers(s, s', t, call);
  }

  lemma WantRunInv(s: State, t: Tid)
    requires Inv(s) && t in s.threads && s.threads[t].call.WantRun? && s.runLock == None
    ensures Inv(EnterStep(s, t))
  {
    var s' := EnterStep(s, t);
    TurnedThreads(s, s', t, Prepare);
    forall c | c in s'.ctxs
      ensures CtxOk(ViewOf(s', c))
    {
      NewOwnerView(ViewOf(s, c), ViewOf(s', c));
    }
    TurnedInv(s, s', t, Prepare);
  }

  /** Between two calls, and before a call has its context, a context sees nothing change. */
  predicate Quiet(call: Call) { call.Outside? || call.Prepare? || call.WantCtx? || call.Release? }

  lemma NewOwnerView(v: View, v': View)
    requires CtxOk(v) && v' == v.(owner := v'.owner, call := v'.call, ticket := v'.ticket)
    requires Quiet(v.call) && Quiet(v'.call)
    ensures CtxOk(v')
  {
  }

  lemma ReuseInv(s: State, t: Tid)
    requires Inv(s) && t in s.threads && s.threads[t].call.Prepare? && s.context.Some?
    ensures Inv(PrepareStep(s, t))
  {
    var c := s.context.value;
    NewOwnerView(ViewOf(s, c), ViewOf(s, c).(call := WantCtx));
    CallAloneInv(s, t, c, WantCtx);
  }

  lemma NewWorkerFresh(s: State, t: Tid)
    requires FreshOk(s) && t in s.threads && s.threads[t].call.Prepare? && s.context == None
    ensures FreshOk(PrepareStep(s, t))
  {
    var s' := PrepareStep(s, t);
    forall k: nat | Unused(s, k)
      ensures Unused(s', k)
    {
    }
  }

  lemma NewWorkerTickets(s: State, t: Tid)
    requires ThreadsOk(s) && TicketsOk(s) && t in s.threads && s.threads[t].call.Prepare? && s.context == None
    ensures TicketsOk(PrepareStep(s, t))
  {
    NewWorkerFresh(s, t);
    assert LastsOk(PrepareStep(s, t));
    assert CallTicketsOk(PrepareStep(s, t));
  }

  lemma NewWorkerThreads(s: State, t: Tid)
    requires ThreadsOk(s) && t in s.threads && s.threads[t].call.Prepare? && s.context == None
    ensures ThreadsOk(PrepareStep(s, t))
  {
  }

  lemma NewWorkerView(s: State, t: Tid, c: Tid)
    requires ThreadsOk(s) && c in s.ctxs && t in s.threads && s.threads[t].call.Prepare? && s.context == None
    ensures ViewOf(PrepareStep(s, t), c) == ViewOf(s, c)
  {
  }

  lemma NewWorkerViews(s: State, t: Tid)
    requires ThreadsOk(s) && CtxsOk(s) && t in s.threads && s.threads[t].call.Prepare? && s.context == None
    requires ThreadsOk(PrepareStep(s, t))
    ensures CtxsOk(PrepareStep(s, t))
  {
    var s' := PrepareStep(s, t);
    forall c | c in s'.ctxs
      ensures CtxOk(ViewOf(s', c))
    {
      if c in s.ctxs {
        NewWorkerView(s, t, c);
      }
    }
  }

  lemma NewWorkerAnswers(s: State, t: Tid)
    requires ThreadsOk(s) && AnswersOk(s) && t in s.threads && s.threads[t].call.Prepare? && s.context == None
    ensures AnswersOk(PrepareStep(s, t))
  {
  }

  lemma NewWorkerInv(s: State, t: Tid)
    requires Inv(s) && t in s.threads && s.threads[t].call.Prepare? && s.context == None
    ensures Inv(PrepareStep(s, t))
  {
    NewWorkerTickets(s, t);
    NewWorkerThreads(s, t);
    NewWorkerViews(s, t);
    NewWorkerAnswers(s, t);
  }

  /** A call that saw its closure done finds its result: the future is ready. */
  lemma DoneMeansFinished(s: State, t: Tid)
    requires Inv(s) && t in s.threads && SawDone(s.threads[t].call)
    ensures s.threads[t].ticket in s.results && RanOnce(s, s.threads[t].ticket, s.results[s.threads[t].ticket])
  {
    assert CtxOk(ViewOf(s, s.context.value));
  }

  function FetchedCall(o: Outcome): Call { if o.Value? then Release(Got(o)) else StopLock(Got(o)) }

  lemma FetchedView(v: View, o: Outcome)
    requires CtxOk(v) && v.current && v.call.Fetch?
    ensures CtxOk(v.(call := FetchedCall(o)))
  {
  }

  lemma FetchInv(s: State, t: Tid)
    requires Inv(s) && t in s.threads && s.threads[t].call.Fetch? && s.threads[t].ticket in s.results
    ensures Inv(FetchStep(s, t, s.results[s.threads[t].ticket]))
  {
    DoneMeansFinished(s, t);
    var c, o := s.context.value, s.results[s.threads[t].ticket];
    FetchedView(ViewOf(s, c), o);
    CallAloneInv(s, t, c, FetchedCall(o));
  }

  lemma RetiredView(v: View)
    requires CtxOk(v) && v.call.Detach?
    ensures CtxOk(v.(current := false, owner := None, call := Outside, ticket := 0))
  {
  }

  lemma DetachInv(s: State, t: Tid, a: Answer)
    requires Inv(s) && t in s.threads && s.threads[t].call == Detach(a)
    ensures Inv(DetachStep(s, t, a))
  {
    var s' := DetachStep(s, t, a);
    TurnedThreads(s, s', t, Release(a));
    forall c | c in s'.ctxs
      ensures CtxOk(ViewOf(s', c))
    {
      DetachedView(s, t, a, c);
      if s.context == Some(c) {
        RetiredView(ViewOf(s, c));
      }
    }
    TurnedInv(s, s', t, Release(a));
  }

  lemma DetachedView(s: State, t: Tid, a: Answer, c: Tid)
    requires ThreadsOk(s) && t in s.threads && s.threads[t].call == Detach(a) && c in s.ctxs
    ensures ViewOf(DetachStep(s, t, a), c) == ViewOf(s, c).(current := false, owner := None, call := Outside, ticket := 0)
    ensures s.context == Some(c) ==> ViewOf(s, c).call == Detach(a)
    ensures s.context != Some(c) ==> ViewOf(DetachStep(s, t, a), c) == ViewOf(s, c)
  {
  }

  lemma ReleaseInv(s: State, t: Tid, a: Answer)
    requires Inv(s) && t in s.threads && s.threads[t].call == Release(a)
    ensures Inv(ReleaseStep(s, t, a))
  {
    var s' := ReleaseStep(s, t, a);
    TurnedThreads(s, s', t, Outside);
    forall c | c in s'.ctxs
      ensures CtxOk(ViewOf(s', c))
    {
      NewOwnerView(ViewOf(s, c), ViewOf(s', c));
    }
    TurnedInv(s, s', t, Outside);
  }

  // ---- Every step ----

  lemma OnCtxStepInv(s: State, t: Tid, c: Tid, choice: Choice, s': State)
    requires Inv(s) && t in s.threads && s.runLock == Some(t) && s.context == Some(c) && OnCtxStep(s, t, c, choice) == Some(s')
    ensures Inv(s')
  {
    var th := s.threads[t];
    if th.call.Notify? || th.call.StopNotify? {
      CallNotifyInv(s, t, c, choice, s');
    } else {
      var m := CallMove(s.ctxs[c], th.call, t, th.ticket).value;
      CallMoveInv(s, t, c, m.0, m.1);
    }
  }

  predicate OnCtx(call: Call) { UsesCtx(call) && !call.Fetch? && !call.Detach? }

  lemma StepOnCtx(s: State, t: Tid, choice: Choice)
    requires ThreadsOk(s) && t in s.threads && OnCtx(s.threads[t].call)
    ensures s.runLock == Some(t) && s.context.Some? && s.context.value in s.ctxs
    ensures CallStep(s, t, choice) == OnCtxStep(s, t, s.context.value, choice)
  {
  }

  lemma StepIn(s: State, t: Tid, choice: Choice, s': State)
    requires Inv(s) && t in s.threads && CallStep(s, t, choice) == Some(s')
    requires s.threads[t].call.WantRun? || s.threads[t].call.Prepare?
    ensures Inv(s')
  {
    if s.threads[t].call.WantRun? {
      WantRunInv(s, t);
    } else if s.context.Some? {
      ReuseInv(s, t);
    } else {
      NewWorkerInv(s, t);
    }
  }

  lemma StepFetch(s: State, t: Tid, choice: Choice, s': State)
    requires Inv(s) && t in s.threads && s.threads[t].call.Fetch? && CallStep(s, t, choice) == Some(s')
    ensures Inv(s')
  {
    FetchInv(s, t);
  }

  lemma StepDetach(s: State, t: Tid, choice: Choice, s': State)
    requires Inv(s) && t in s.threads && s.threads[t].call.Detach? && CallStep(s, t, choice) == Some(s')
    ensures Inv(s')
  {
    DetachInv(s, t, s.threads[t].call.a);
  }

  lemma StepRelease(s: State, t: Tid, choice: Choice, s': State)
    requires Inv(s) && t in s.threads && s.threads[t].call.Release? && CallStep(s, t, choice) == Some(s')
    ensures Inv(s')
  {
    ReleaseInv(s, t, s.threads[t].call.a);
  }

  lemma CallStepInv(s: State, t: Tid, choice: Choice, s': State)
    requires Inv(s) && t in s.threads && CallStep(s, t, choice) == Some(s')
    ensures Inv(s')
  {
    if OnCtx(s.threads[t].call) {
      StepOnCtx(s, t, choice);
      OnCtxStepInv(s, t, s.context.value, choice, s');
    } else if s.threads[t].call.WantRun? || s.threads[t].call.Prepare? {
      StepIn(s, t, choice, s');
    } else if s.threads[t].call.Fetch? {
      StepFetch(s, t, choice, s');
    } else if s.threads[t].call.Detach? {
      StepDetach(s, t, choice, s');
    } else {
      StepRelease(s, t, choice, s');
    }
  }

  lemma GoInv(s: State, t: Tid, choice: Choice, s': State)
    requires Inv(s) && Apply(s, Go(t, choice)) == Some(s')
    ensures Inv(s')
  {
    if !s.threads[t].call.Outside? {
      CallStepInv(s, t, choice, s');
    } else if s.threads[t].loop.NotifyDone? {
      WorkerNotifyInv(s, t, choice, s');
    } else {
      WorkerMoveInv(s, t, WorkerMove(s.ctxs[t], s.threads[t].loop, t).value, choice.outcome);
    }
  }

  /** A step of user code: one thread outside `run` comes or changes, and numbers are drawn. */
  ghost predicate UserMoved(s: State, s': State, t: Tid, th: Thread) {
    && s' == s.(threads := s.threads[t := th], next := s.next + 1)
    && (t in s.threads ==> s.threads[t].call.Outside? && s.threads[t].loop.NotWorker?)
    && (t !in s.threads ==> t == s.next && th.call.Outside?)
    && th.loop.NotWorker? && !th.inIo && (th.call.Outside? || (th.call.WantRun? && th.ticket == s.next))
  }

  lemma UserMovedThreads(s: State, s': State, t: Tid, th: Thread)
    requires ThreadsOk(s) && UserMoved(s, s', t, th)
    ensures ThreadsOk(s')
  {
  }

  lemma UserMovedTickets(s: State, s': State, t: Tid, th: Thread)
    requires TicketsOk(s) && UserMoved(s, s', t, th)
    ensures TicketsOk(s')
  {
    assert forall k: nat :: Unused(s, k) ==> Unused(s', k);
    assert FreshOk(s');
    assert LastsOk(s');
    assert CallTicketsOk(s');
  }

  lemma UserMovedAnswers(s: State, s': State, t: Tid, th: Thread)
    requires AnswersOk(s) && UserMoved(s, s', t, th)
    ensures AnswersOk(s')
  {
  }

  lemma UserMovedViews(s: State, s': State, t: Tid, th: Thread)
    requires ThreadsOk(s) && CtxsOk(s) && ThreadsOk(s') && UserMoved(s, s', t, th)
    ensures CtxsOk(s')
  {
    forall c | c in s'.ctxs
      ensures CtxOk(ViewOf(s', c))
    {
      assert CtxOk(ViewOf(s, c));
      assert ViewOf(s', c) == ViewOf(s, c);
    }
  }

  lemma UserMovedInv(s: State, s': State, t: Tid, th: Thread)
    requires Inv(s) && UserMoved(s, s', t, th)
    ensures Inv(s')
  {
    UserMovedThreads(s, s', t, th);
    UserMovedTickets(s, s', t, th);
    UserMovedAnswers(s, s', t, th);
    UserMovedViews(s, s', t, th);
  }

  lemma SubmitInv(s: State, t: Tid, timed: bool, s': State)
    requires Inv(s) && Apply(s, Submit(t, timed)) == Some(s')
    ensures Inv(s')
  {
    if !s.threads[t].inIo {
      UserMovedInv(s, s', t, s'.threads[t]);
    }
  }

  lemma StepInv(s: State, a: Action, s': State)
    requires Inv(s) && Apply(s, a) == Some(s')
    ensures Inv(s')
  {
    match a {
      case Spawn => UserMovedInv(s, s', s.next, s'.threads[s.next]);
      case Submit(t, timed) => SubmitInv(s, t, timed, s');
      case Go(t, choice) => GoInv(s, t, choice, s');
      case Wake(t) =>
        if s.threads[t].call.Sleep? {
          WakeCallerInv(s, t, false);
        } else {
          WakeWorkerInv(s, t);
        }
      case Expire(t) => WakeCallerInv(s, t, true);
    }
  }
}
