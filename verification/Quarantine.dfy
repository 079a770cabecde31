/** The quarantine of roots that time out: how far a root's timeout count can go when several requests of
    one process use it at the same time, and what a quarantined root is spared. */
module Quarantine {
  import opened Bytes
  import opened CacheKey
  import opened Publication
  import opened PublicationSafety
  import opened PublicationRuns
  import opened PublicationOwnership
  import opened Finite

  /** A request whose next I/O timeout would be charged to root i. */
  predicate Exposes(pc: Pc, i: nat) {
    match pc
    case Probing(_) => false
    case Placing(_) => false
    case Dropping(_, _) => false
    case DropWait(_, _, _) => false
    case Finished(_) => false
    case _ => pc.i == i
  }

  predicate IsLive(q: Req, h: nat) { q.host == h && !q.pc.Finished? }

  /** A request of the caller, not one for the AICPU loader that another request waits for. */
  predicate IsTop(q: Req, h: nat) { IsLive(q, h) && q.input.Kernel? }

  predicate IsNested(q: Req, h: nat) { IsLive(q, h) && q.input.Loader? }

  predicate IsExposed(q: Req, h: nat, i: nat) { q.host == h && Exposes(q.pc, i) }

  function Live(s: State, h: nat): set<nat> { set r | r in s.reqs && IsLive(s.reqs[r], h) }

  function Top(s: State, h: nat): set<nat> { set r | r in s.reqs && IsTop(s.reqs[r], h) }

  function Nested(s: State, h: nat): set<nat> { set r | r in s.reqs && IsNested(s.reqs[r], h) }

  function Exposed(s: State, h: nat, i: nat): set<nat> { set r | r in s.reqs && IsExposed(s.reqs[r], h, i) }

  ghost predicate Bounded(s: State, k: nat, h: nat, i: nat) { Count(s, h, i) + |Exposed(s, h, i)| <= k + 2 }

  // ---- A request's step ----

  /** Request r moved without a charge; it comes to use a root only while the root's count is below 3. */
  ghost predicate Moved(s: State, s': State, r: nat) {
    && r in s.reqs && r in s'.reqs && s'.reqs == s.reqs[r := s'.reqs[r]] && s'.reqs[r].host == s.reqs[r].host
    && s'.counts == s.counts
    && forall i: nat :: Exposes(s'.reqs[r].pc, i) ==> Exposes(s.reqs[r].pc, i) || Count(s, s.reqs[r].host, i) < 3
  }

  /** Request r leaves its root, and that root is charged once. */
  ghost predicate Left(s: State, s': State, r: nat) {
    && r in s.reqs && r in s'.reqs && s'.reqs == s.reqs[r := s'.reqs[r]] && s'.reqs[r].host == s.reqs[r].host
    && (forall i: nat :: !Exposes(s'.reqs[r].pc, i))
    && exists i: nat :: Exposes(s.reqs[r].pc, i) && s'.counts == Charge(s, s.reqs[r].host, i).counts
  }

  lemma BareExposesNothing(pc: Pc)
    requires Bare(pc)
    ensures forall i: nat :: !Exposes(pc, i)
  {
  }

  lemma AnsweredExposes(c: Setup, q: Req, result: Result, i: nat)
    requires Awaited(q.pc).Some?
    ensures Exposes(AnsweredReq(c, q, result).pc, i) ==> Exposes(q.pc, i)
  {
  }

  lemma AnsweredMoved(c: Setup, s: State, r: nat, result: Result)
    requires r in s.reqs && Awaited(s.reqs[r].pc).Some?
    ensures Moved(s, SetReq(s, r, AnsweredReq(c, s.reqs[r], result)), r)
  {
    AnsweredHolds(c, s.reqs[r], result);
    forall i: nat
      ensures Exposes(AnsweredReq(c, s.reqs[r], result).pc, i) ==> Exposes(s.reqs[r].pc, i)
    {
      AnsweredExposes(c, s.reqs[r], result, i);
    }
  }

  lemma LookupMoved(c: Setup, s: State, r: nat, i: nat)
    requires r in s.reqs && s.reqs[r].pc == Probing(i)
    ensures Moved(s, Lookup(c, s, r, i), r)
  {
  }

  lemma PlaceMoved(s: State, r: nat, i: nat)
    requires r in s.reqs && s.reqs[r].pc == Placing(i)
    ensures Moved(s, Place(s, r, i), r)
  {
  }

  /** A step outside `entry`: it stays on its root, and starts neither a lookup nor a temporary directory. */
  ghost predicate OwnMoved(s: State, s': State, r: nat) {
    && Moved(s, s', r) && !s'.reqs[r].pc.ProbeWait? && !s'.reqs[r].pc.PlaceWait?
    && forall j :: j in s'.jobs && j !in s.jobs ==> !s'.jobs[j].work.Probe? && !s'.jobs[j].work.MakeTemp?
  }

  lemma BuildMoved(s: State, r: nat, i: nat, u: nat, rest: seq<Stage>)
    requires r in s.reqs && i < |s.reqs[r].roots| && s.reqs[r].pc == Building(i, u, rest)
    ensures OwnMoved(s, Build(s, r, i, u, rest), r)
  {
  }

  lemma OpenMoved(c: Setup, s: State, r: nat, i: nat)
    requires r in s.reqs && i < |s.reqs[r].roots| && Exposes(s.reqs[r].pc, i)
    ensures OwnMoved(s, Open(c, s, r, i), r)
  {
  }

  lemma LoadMoved(c: Setup, s: State, r: nat, i: nat)
    requires r in s.reqs && i < |s.reqs[r].roots| && s.reqs[r].pc == Loading(i)
    ensures OwnMoved(s, StartLoad(c, s, r, i), r)
  {
    OpenMoved(c, s, r, i);
  }

  lemma DropMoved(s: State, r: nat, i: nat, u: nat)
    requires r in s.reqs && i < |s.reqs[r].roots|
    ensures OwnMoved(s, Drop(s, r, i, u), r)
  {
  }

  lemma OwnStepMoved(c: Setup, s: State, r: nat, s': State)
    requires r in s.reqs && !s.reqs[r].pc.Finished? && s.reqs[r].pc.i < |s.reqs[r].roots| && OwnStep(c, s, r) == Some(s')
    requires !s.reqs[r].pc.Booting?
    ensures OwnMoved(s, s', r)
  {
    match s.reqs[r].pc {
      case Building(i, u, rest) => BuildMoved(s, r, i, u, rest);
      case Loading(i) => LoadMoved(c, s, r, i);
      case Aicpu(i) =>
      case Opening(i) => OpenMoved(c, s, r, i);
      case Dropping(i, u) => DropMoved(s, r, i, u);
      case _ =>
    }
  }

  lemma BootFailedLeaves(s: State, r: nat, i: nat, timedOut: bool)
    requires r in s.reqs && s.reqs[r].pc.Booting? && s.reqs[r].pc.i == i
    ensures var s' := BootFailed(s, r, i, timedOut); if timedOut then Left(s, s', r) else Moved(s, s', r)
  {
    RetriedIsBare(s.reqs[r], i, timedOut);
    BareExposesNothing(Retried(s.reqs[r], i, timedOut).pc);
    assert Exposes(s.reqs[r].pc, i);
  }

  /** The step with which a request learns that the build of the loader ended in an I/O timeout. */
  predicate BootTimedOut(s: State, r: nat) {
    r in s.reqs && s.reqs[r].pc.Booting? && ChildThrew(s, s.reqs[r].pc.child) && s.reqs[s.reqs[r].pc.child].pc.answer.timedOut
  }

  lemma AdvanceMoved(c: Setup, s: State, r: nat, s': State)
    requires r in s.reqs && ReqStep(c, s, r) == Some(s')
    ensures if BootTimedOut(s, r) then Left(s, s', r) else Moved(s, s', r)
  {
    var pc := s.reqs[r].pc;
    if Awaited(pc).Some? {
      AnsweredMoved(c, s, r, s.jobs[Awaited(pc).value].work.result);
    } else if pc.Probing? {
      LookupMoved(c, s, r, pc.i);
    } else if pc.Placing? {
      PlaceMoved(s, r, pc.i);
    } else if pc.Booting? {
      BootFailedLeaves(s, r, pc.i, s.reqs[pc.child].pc.answer.timedOut);
    } else {
      OwnStepMoved(c, s, r, s');
    }
  }

  lemma ExpireMoved(s: State, r: nat, s': State)
    requires r in s.reqs && TimeoutStep(s, r) == Some(s')
    ensures if ChargesRoot(s.reqs[r].pc) then Left(s, s', r) else Moved(s, s', r)
  {
    TimedOutSame(s.reqs[r]);
    BareExposesNothing(TimedOutReq(s.reqs[r]).pc);
    assert ChargesRoot(s.reqs[r].pc) ==> Exposes(s.reqs[r].pc, s.reqs[r].pc.i);
  }

  lemma DeployMoved(s: State, r: nat, ok: bool, s': State)
    requires r in s.reqs && DeployStep(s, r, ok) == Some(s')
    ensures Moved(s, s', r)
  {
    if !ok {
      RetriedIsBare(s.reqs[r], s.reqs[r].pc.i, false);
      BareExposesNothing(Retried(s.reqs[r], s.reqs[r].pc.i, false).pc);
    }
  }

  // ---- The bound ----

  lemma FewerExposed(s: State, s': State, k: nat, h: nat, i: nat)
    requires Bounded(s, k, h, i) && Count(s', h, i) == Count(s, h, i)
    requires Exposed(s', h, i) <= Exposed(s, h, i)
    ensures Bounded(s', k, h, i)
  {
    SubsetSmaller(Exposed(s', h, i), Exposed(s, h, i));
  }

  lemma MovedBounded(s: State, s': State, r: nat, k: nat, h: nat, i: nat)
    requires Moved(s, s', r) && Bounded(s, k, h, i) && |Live(s', h)| <= k
    ensures Bounded(s', k, h, i) && Count(s', h, i) == Count(s, h, i)
  {
    if Exposed(s', h, i) <= Exposed(s, h, i) {
      FewerExposed(s, s', k, h, i);
    } else {
      assert Count(s, h, i) < 3;
      SubsetSmaller(Exposed(s', h, i), Live(s', h));
    }
  }

  lemma LeftBounded(s: State, s': State, r: nat, k: nat, h: nat, i: nat)
    requires Left(s, s', r) && Bounded(s, k, h, i)
    ensures Bounded(s', k, h, i) && Count(s', h, i) >= Count(s, h, i)
  {
    if Count(s', h, i) == Count(s, h, i) {
      FewerExposed(s, s', k, h, i);
    } else {
      assert r in Exposed(s, h, i);
      SubsetWithout(Exposed(s', h, i), Exposed(s, h, i), r);
    }
  }

  lemma SubmitExposes(s: State, q: Req, h: nat, i: nat)
    requires s.next !in s.reqs && !Exposes(q.pc, i)
    ensures Exposed(AddReq(s, q), h, i) <= Exposed(s, h, i)
  {
  }

  lemma BootExposes(c: Setup, s: State, s': State, r: nat, h: nat, i: nat)
    requires Booted(c, s, s', r) && s.next !in s.reqs
    ensures Exposed(s', h, i) <= Exposed(s, h, i)
  {
    assert !Exposes(LoaderReq(c, s.reqs[r]).pc, i);
  }

  lemma NewcomerBounded(c: Setup, s: State, a: Action, s': State, k: nat, h: nat, i: nat)
    requires Inv(c, s) && Step(c, s, a, s') && (a.Submit? || a.Boot?) && Bounded(s, k, h, i)
    ensures Bounded(s', k, h, i) && Count(s', h, i) == Count(s, h, i)
  {
    NextIsFree(c, s);
    if a.Boot? {
      assert ReqOk(c, s, a.r);
      BootTurns(c, s, a.r, s');
      BootExposes(c, s, s', a.r, h, i);
    } else {
      SubmitExposes(s, NewReq(a.host, a.roots, a.tag, Kernel(a.input), a.load), h, i);
    }
    FewerExposed(s, s', k, h, i);
  }

  /** Every step keeps the count of a root plus the requests exposed to it within k + 2, as long as no more
      than k requests of the process, nested ones included, are under way. */
  lemma StepBounded(c: Setup, s: State, a: Action, s': State, k: nat, h: nat, i: nat)
    requires Inv(c, s) && Step(c, s, a, s') && Bounded(s, k, h, i) && |Live(s', h)| <= k
    ensures Bounded(s', k, h, i)
    ensures !a.Crash? ==> Count(s', h, i) >= Count(s, h, i)
  {
    match a {
      case Advance(r) =>
        AdvanceMoved(c, s, r, s');
        if BootTimedOut(s, r) {
          LeftBounded(s, s', r, k, h, i);
        } else {
          MovedBounded(s, s', r, k, h, i);
        }
      case Expire(r) =>
        ExpireMoved(s, r, s');
        if ChargesRoot(s.reqs[r].pc) {
          LeftBounded(s, s', r, k, h, i);
        } else {
          MovedBounded(s, s', r, k, h, i);
        }
      case Deploy(r, ok) =>
        DeployMoved(s, r, ok, s');
        MovedBounded(s, s', r, k, h, i);
      case Work(j, choice) =>
        JobTurns(c, s, j, choice, s');
        FewerExposed(s, s', k, h, i);
      case Crash(_, _) =>
        assert Exposed(s', h, i) == {};
      case Submit(_, _, _, _, _) => NewcomerBounded(c, s, a, s', k, h, i);
      case Boot(_) => NewcomerBounded(c, s, a, s', k, h, i);
      case Kill(_) => FewerExposed(s, s', k, h, i);
      case Reboot(_, _) => FewerExposed(s, s', k, h, i);
    }
  }

  lemma BoundedInRun(c: Setup, run: seq<State>, acts: seq<Action>, k: nat, h: nat, i: nat, n: nat)
    requires Run(c, run, acts) && n < |acts| && Bounded(run[n], k, h, i) && |Live(run[n + 1], h)| <= k
    ensures Bounded(run[n + 1], k, h, i)
    ensures !acts[n].Crash? ==> Count(run[n + 1], h, i) >= Count(run[n], h, i)
  {
    RunInv(c, run, acts, n);
    assert Step(c, run[n], acts[n], run[n + 1]);
    StepBounded(c, run[n], acts[n], run[n + 1], k, h, i);
  }

  lemma {:induction false} LiveBound(c: Setup, run: seq<State>, acts: seq<Action>, k: nat, h: nat, i: nat, n: nat)
    requires Run(c, run, acts) && n < |run|
    requires forall m: nat :: m < |run| ==> |Live(run[m], h)| <= k
    ensures Bounded(run[n], k, h, i) && Count(run[n], h, i) <= k + 2
  {
    if n == 0 {
      assert Exposed(run[0], h, i) == {};
    } else {
      LiveBound(c, run, acts, k, h, i, n - 1);
      BoundedInRun(c, run, acts, k, h, i, n - 1);
    }
  }

  // ---- Requests for the loader ----

  /** Request p waits for the unfinished loader request r. */
  ghost predicate Parent(s: State, p: nat, r: nat) {
    p in s.reqs && r in s.reqs && s.reqs[p].pc.Booting? && s.reqs[p].pc.child == r && s.reqs[p].host == s.reqs[r].host && s.reqs[p].input.Kernel?
  }

  /** Every unfinished loader request has another request that waits for it. */
  ghost predicate Paired(s: State) {
    forall r :: r in s.reqs && s.reqs[r].input.Loader? && !s.reqs[r].pc.Finished? ==> exists p: nat :: Parent(s, p, r)
  }

  lemma TurnedPaired(s: State, s': State, r: nat)
    requires Paired(s) && ReqTurned(s, s', r) && !s.reqs[r].pc.Finished?
    requires s.reqs[r].pc.Booting? ==> s.reqs[r].pc.child in s.reqs && s.reqs[s.reqs[r].pc.child].pc.Finished?
    ensures Paired(s')
  {
    forall n | n in s'.reqs && s'.reqs[n].input.Loader? && !s'.reqs[n].pc.Finished?
      ensures exists p: nat :: Parent(s', p, n)
    {
      var p: nat :| Parent(s, p, n);
      assert Parent(s', p, n);
    }
  }

  lemma BootPaired(c: Setup, s: State, s': State, r: nat)
    requires Paired(s) && Booted(c, s, s', r) && s.next !in s.reqs && s.reqs[r].input.Kernel?
    ensures Paired(s')
  {
    forall n | n in s'.reqs && s'.reqs[n].input.Loader? && !s'.reqs[n].pc.Finished?
      ensures exists p: nat :: Parent(s', p, n)
    {
      if n == s.next {
        assert Parent(s', r, n);
      } else {
        var p: nat :| Parent(s, p, n);
        assert Parent(s', p, n);
      }
    }
  }

  /** Requests vanish only together with all others of their process. */
  lemma FewerPaired(s: State, s': State, gone: set<nat>)
    requires Paired(s)
    requires forall r :: r in s'.reqs <==> r in s.reqs && s.reqs[r].host !in gone
    requires forall r :: r in s'.reqs ==> s'.reqs[r] == s.reqs[r]
    ensures Paired(s')
  {
    forall n | n in s'.reqs && s'.reqs[n].input.Loader? && !s'.reqs[n].pc.Finished?
      ensures exists p: nat :: Parent(s', p, n)
    {
      var p: nat :| Parent(s, p, n);
      assert Parent(s', p, n);
    }
  }

  lemma SubmitPaired(s: State, s': State, q: Req)
    requires Paired(s) && s.next !in s.reqs && s' == AddReq(s, q) && q.input.Kernel?
    ensures Paired(s')
  {
    forall n | n in s'.reqs && s'.reqs[n].input.Loader? && !s'.reqs[n].pc.Finished?
      ensures exists p: nat :: Parent(s', p, n)
    {
      var p: nat :| Parent(s, p, n);
      assert Parent(s', p, n);
    }
  }

  lemma RequestPaired(c: Setup, s: State, a: Action, s': State)
    requires Inv(c, s) && Step(c, s, a, s') && Paired(s) && (a.Advance? || a.Expire? || a.Deploy?)
    ensures Paired(s')
  {
    match a {
      case Advance(r) => AdvanceTurns(c, s, r, s');
      case Expire(r) => ExpireTurns(s, r, s');
      case Deploy(r, ok) => DeployTurns(s, r, ok, s');
      case _ =>
    }
    TurnedPaired(s, s', a.r);
  }

  lemma NewcomerPaired(c: Setup, s: State, a: Action, s': State)
    requires Inv(c, s) && Step(c, s, a, s') && Paired(s) && (a.Submit? || a.Boot?)
    ensures Paired(s')
  {
    NextIsFree(c, s);
    if a.Boot? {
      assert ReqOk(c, s, a.r);
      BootTurns(c, s, a.r, s');
      BootPaired(c, s, s', a.r);
    } else {
      SubmitPaired(s, s', NewReq(a.host, a.roots, a.tag, Kernel(a.input), a.load));
    }
  }

  lemma StepPaired(c: Setup, s: State, a: Action, s': State)
    requires Inv(c, s) && Step(c, s, a, s') && Paired(s)
    ensures Paired(s')
  {
    if a.Advance? || a.Expire? || a.Deploy? {
      RequestPaired(c, s, a, s');
    } else if a.Submit? || a.Boot? {
      NewcomerPaired(c, s, a, s');
    } else if a.Work? {
      JobTurns(c, s, a.j, a.choice, s');
      FewerPaired(s, s', {});
    } else if !a.Crash? {
      FewerPaired(s, s', if a.Kill? then {a.host} else a.hosts);
    }
  }

  lemma {:induction false} PairedInRun(c: Setup, run: seq<State>, acts: seq<Action>, n: nat)
    requires Run(c, run, acts) && n < |run|
    ensures Paired(run[n])
  {
    if n > 0 {
      RunInv(c, run, acts, n - 1);
      assert Step(c, run[n - 1], acts[n - 1], run[n - 1 + 1]);
      PairedInRun(c, run, acts, n - 1);
      StepPaired(c, run[n - 1], acts[n - 1], run[n]);
    }
  }

  /** What the requests of ps wait for. */
  ghost function Children(s: State, ps: set<nat>): set<nat> {
    set p | p in ps && p in s.reqs && s.reqs[p].pc.Booting? :: s.reqs[p].pc.child
  }

  lemma {:induction false} ChildrenFewer(s: State, ps: set<nat>)
    ensures |Children(s, ps)| <= |ps|
    decreases |ps|
  {
    if ps == {} {
      assert Children(s, ps) == {};
    } else {
      var p :| p in ps;
      ChildrenFewer(s, ps - {p});
      var extra := if p in s.reqs && s.reqs[p].pc.Booting? then {s.reqs[p].pc.child} else {};
      assert Children(s, ps) == Children(s, ps - {p}) + extra;
    }
  }

  /** At most half of the unfinished requests of a process are for the loader. */
  lemma LiveIsTwiceTop(s: State, h: nat)
    requires Paired(s)
    ensures |Live(s, h)| <= 2 * |Top(s, h)|
  {
    forall r | r in Nested(s, h)
      ensures r in Children(s, Top(s, h))
    {
      var p: nat :| Parent(s, p, r);
      assert p in Top(s, h);
    }
    SubsetSmaller(Nested(s, h), Children(s, Top(s, h)));
    ChildrenFewer(s, Top(s, h));
    assert Live(s, h) == Top(s, h) + Nested(s, h);
  }

  /** With at most k unfinished requests of callers in a process at any time, a root's timeout count never
      exceeds 2k + 2: every one of them, and the build of the loader that it may wait for, can still be
      charged once after the count has come to 2. */
  lemma QuarantineBound(c: Setup, run: seq<State>, acts: seq<Action>, k: nat, h: nat, i: nat, n: nat)
    requires Run(c, run, acts) && n < |run|
    requires forall m: nat :: m < |run| ==> |Top(run[m], h)| <= k
    ensures Count(run[n], h, i) <= 2 * k + 2
  {
    forall m: nat | m < |run|
      ensures |Live(run[m], h)| <= 2 * k
    {
      PairedInRun(c, run, acts, m);
      LiveIsTwiceTop(run[m], h);
      assert |Top(run[m], h)| <= k;
    }
    LiveBound(c, run, acts, 2 * k, h, i, n);
  }

  /** No request of the process is ever for the loader. */
  ghost predicate NeverBoots(run: seq<State>, h: nat) {
    forall m: nat, r: nat :: m < |run| && r in run[m].reqs && run[m].reqs[r].host == h ==> run[m].reqs[r].input.Kernel?
  }

  /** Without builds of the loader the bound is k + 2: 3 for one request at a time. */
  lemma BoundWithoutLoader(c: Setup, run: seq<State>, acts: seq<Action>, k: nat, h: nat, i: nat, n: nat)
    requires Run(c, run, acts) && n < |run| && NeverBoots(run, h)
    requires forall m: nat :: m < |run| ==> |Top(run[m], h)| <= k
    ensures Count(run[n], h, i) <= k + 2
  {
    forall m: nat | m < |run|
      ensures |Live(run[m], h)| <= k
    {
      assert Live(run[m], h) == Top(run[m], h);
      assert |Top(run[m], h)| <= k;
    }
    LiveBound(c, run, acts, k, h, i, n);
  }

  // ---- What is charged, over runs ----

  /** This step is an I/O timeout on root i of process h: of a task that one of its requests waited for, or of
      the build of the loader that one waited for. */
  ghost predicate TimesOut(s: State, a: Action, h: nat, i: nat) {
    || (a.Expire? && a.r in s.reqs && s.reqs[a.r].host == h && Awaited(s.reqs[a.r].pc).Some? &&
       ChargesRoot(s.reqs[a.r].pc) && s.reqs[a.r].pc.i == i)
    || (a.Advance? && BootTimedOut(s, a.r) && s.reqs[a.r].host == h && s.reqs[a.r].pc.i == i)
  }

  /** The I/O timeouts on root i of process h, since all machines crashed last. */
  ghost function Timeouts(run: seq<State>, acts: seq<Action>, n: nat, h: nat, i: nat): nat
    requires n <= |acts| && |run| == |acts| + 1
  {
    if n == 0 || acts[n - 1].Crash? then 0
    else Timeouts(run, acts, n - 1, h, i) + if TimesOut(run[n - 1], acts[n - 1], h, i) then 1 else 0
  }

  lemma AdvanceCharges(c: Setup, s: State, r: nat, s': State, h: nat, i: nat)
    requires r in s.reqs && ReqStep(c, s, r) == Some(s')
    ensures Count(s', h, i) == Count(s, h, i) + if TimesOut(s, Advance(r), h, i) then 1 else 0
  {
    AdvanceMoved(c, s, r, s');
    if BootTimedOut(s, r) {
      assert forall n: nat :: Exposes(s.reqs[r].pc, n) ==> n == s.reqs[r].pc.i;
    }
  }

  lemma ExpireCharges(s: State, r: nat, s': State, h: nat, i: nat)
    requires r in s.reqs && TimeoutStep(s, r) == Some(s')
    ensures Count(s', h, i) == Count(s, h, i) + if TimesOut(s, Expire(r), h, i) then 1 else 0
  {
    ExpireMoved(s, r, s');
    if ChargesRoot(s.reqs[r].pc) {
      assert forall n: nat :: Exposes(s.reqs[r].pc, n) ==> n == s.reqs[r].pc.i;
    }
  }

  lemma StepCharges(c: Setup, s: State, a: Action, s': State, h: nat, i: nat)
    requires Step(c, s, a, s') && !a.Crash? && Inv(c, s)
    ensures Count(s', h, i) == Count(s, h, i) + if TimesOut(s, a, h, i) then 1 else 0
  {
    match a {
      case Advance(r) => AdvanceCharges(c, s, r, s', h, i);
      case Expire(r) => ExpireCharges(s, r, s', h, i);
      case Deploy(r, ok) => DeployTurns(s, r, ok, s');
      case Boot(r) =>
        assert ReqOk(c, s, r);
        BootTurns(c, s, r, s');
      case Work(j, choice) => JobTurns(c, s, j, choice, s');
      case _ =>
    }
  }

  lemma ChargesInRun(c: Setup, run: seq<State>, acts: seq<Action>, n: nat, h: nat, i: nat)
    requires Run(c, run, acts) && n < |acts|
    ensures Count(run[n + 1], h, i) ==
              if acts[n].Crash? then 0 else Count(run[n], h, i) + if TimesOut(run[n], acts[n], h, i) then 1 else 0
  {
    RunInv(c, run, acts, n);
    assert Step(c, run[n], acts[n], run[n + 1]);
    if !acts[n].Crash? {
      StepCharges(c, run[n], acts[n], run[n + 1], h, i);
    }
  }

  lemma {:induction false} SummedUp(run: seq<State>, acts: seq<Action>, n: nat, h: nat, i: nat)
    requires |run| == |acts| + 1 && n < |run| && Count(run[0], h, i) == 0
    requires forall k: nat :: k < |acts| ==>
               Count(run[k + 1], h, i) == if acts[k].Crash? then 0 else Count(run[k], h, i) + if TimesOut(run[k], acts[k], h, i) then 1 else 0
    ensures Count(run[n], h, i) == Timeouts(run, acts, n, h, i)
  {
    if n > 0 {
      SummedUp(run, acts, n - 1, h, i);
      assert Count(run[n - 1 + 1], h, i) ==
        if acts[n - 1].Crash? then 0 else Count(run[n - 1], h, i) + if TimesOut(run[n - 1], acts[n - 1], h, i) then 1 else 0;
    }
  }

  /** In every run a root's count is exactly the number of I/O timeouts that its process met on it: none is
      lost or charged to another root or process, and nothing else is charged. The timeout of a loader build
      that reaches the request waiting for it counts for that request's root again. */
  lemma TimeoutIsCharged(c: Setup, run: seq<State>, acts: seq<Action>, n: nat, h: nat, i: nat)
    requires Run(c, run, acts) && n < |run|
    ensures Count(run[n], h, i) == Timeouts(run, acts, n, h, i)
  {
    forall k: nat | k < |acts|
      ensures Count(run[k + 1], h, i) == if acts[k].Crash? then 0 else Count(run[k], h, i) + if TimesOut(run[k], acts[k], h, i) then 1 else 0
    {
      ChargesInRun(c, run, acts, k, h, i);
    }
    SummedUp(run, acts, n, h, i);
  }

  lemma {:induction false} Growing(run: seq<State>, m: nat, n: nat, h: nat, i: nat)
    requires m <= n < |run| && forall k: nat :: m <= k < n ==> Count(run[k], h, i) <= Count(run[k + 1], h, i)
    ensures Count(run[m], h, i) <= Count(run[n], h, i)
  {
    if m < n {
      Growing(run, m, n - 1, h, i);
      assert Count(run[n - 1], h, i) <= Count(run[n - 1 + 1], h, i);
    }
  }

  lemma GrowsOnce(c: Setup, run: seq<State>, acts: seq<Action>, n: nat, h: nat, i: nat)
    requires Run(c, run, acts) && n < |acts| && !acts[n].Crash?
    ensures Count(run[n], h, i) <= Count(run[n + 1], h, i)
  {
    ChargesInRun(c, run, acts, n, h, i);
  }

  lemma CountsGrow(c: Setup, run: seq<State>, acts: seq<Action>, m: nat, n: nat, h: nat, i: nat)
    requires Run(c, run, acts) && m <= n < |run| && forall k :: m <= k < n ==> !acts[k].Crash?
    ensures Count(run[m], h, i) <= Count(run[n], h, i)
  {
    forall k: nat | m <= k < n
      ensures Count(run[k], h, i) <= Count(run[k + 1], h, i)
    {
      GrowsOnce(c, run, acts, k, h, i);
    }
    Growing(run, m, n, h, i);
  }

  // ---- What a quarantined root is spared ----

  /** The step starts a lookup or makes a temporary directory, for root i of process h. */
  ghost predicate UsesRoot(s: State, a: Action, s': State, h: nat, i: nat) {
    && a.Advance? && a.r in s.reqs && a.r in s'.reqs && s.reqs[a.r].host == h
    && (s'.reqs[a.r].pc.ProbeWait? || s'.reqs[a.r].pc.PlaceWait?) && s'.reqs[a.r].pc.i == i
  }

  lemma OthersStartNothing(c: Setup, s: State, a: Action, s': State)
    requires Inv(c, s) && Step(c, s, a, s') && !a.Advance?
    ensures s'.jobs.Keys <= s.jobs.Keys
  {
    match a {
      case Work(j, choice) => JobTurns(c, s, j, choice, s');
      case Expire(r) => ExpireTurns(s, r, s');
      case Deploy(r, ok) => DeployTurns(s, r, ok, s');
      case Boot(r) =>
        assert ReqOk(c, s, r);
        BootTurns(c, s, r, s');
      case _ =>
    }
  }

  /** Every lookup and every new temporary directory is started by such a step, on that root. */
  lemma OnlyEntryUsesRoots(c: Setup, s: State, a: Action, s': State, j: nat)
    requires Inv(c, s) && Step(c, s, a, s') && j in s'.jobs && j !in s.jobs
    requires s'.jobs[j].work.Probe? || s'.jobs[j].work.MakeTemp?
    ensures a.Advance? && a.r in s'.reqs && (s'.reqs[a.r].pc.ProbeWait? || s'.reqs[a.r].pc.PlaceWait?)
    ensures var i := s'.reqs[a.r].pc.i;
            UsesRoot(s, a, s', s'.jobs[j].host, i) && i < |s'.reqs[a.r].roots| && s'.jobs[j].root == s'.reqs[a.r].roots[i]
  {
    if a.Advance? {
      EntryJob(c, s, a.r, s', j);
    } else {
      OthersStartNothing(c, s, a, s');
    }
  }

  lemma LookupJob(c: Setup, s: State, r: nat, i: nat, j: nat)
    requires r in s.reqs && j in Lookup(c, s, r, i).jobs && j !in s.jobs
    ensures var s' := Lookup(c, s, r, i);
            && r in s'.reqs && s'.reqs[r].pc.ProbeWait? && s'.reqs[r].pc.i == i < |s'.reqs[r].roots|
            && s'.jobs[j].root == s'.reqs[r].roots[i] && s'.jobs[j].host == s.reqs[r].host
  {
  }

  lemma PlaceJob(s: State, r: nat, i: nat, j: nat)
    requires r in s.reqs && j in Place(s, r, i).jobs && j !in s.jobs
    ensures var s' := Place(s, r, i);
            && r in s'.reqs && s'.reqs[r].pc.PlaceWait? && s'.reqs[r].pc.i == i < |s'.reqs[r].roots|
            && s'.jobs[j].root == s'.reqs[r].roots[i] && s'.jobs[j].host == s.reqs[r].host
  {
  }

  lemma EntryJob(c: Setup, s: State, r: nat, s': State, j: nat)
    requires r in s.reqs && ReqStep(c, s, r) == Some(s') && j in s'.jobs && j !in s.jobs
    requires s'.jobs[j].work.Probe? || s'.jobs[j].work.MakeTemp?
    ensures r in s'.reqs && (s'.reqs[r].pc.ProbeWait? || s'.reqs[r].pc.PlaceWait?)
    ensures var i := s'.reqs[r].pc.i;
            i < |s'.reqs[r].roots| && s'.jobs[j].root == s'.reqs[r].roots[i] && s'.jobs[j].host == s.reqs[r].host
  {
    var pc := s.reqs[r].pc;
    if pc.Probing? {
      LookupJob(c, s, r, pc.i, j);
    } else if pc.Placing? {
      PlaceJob(s, r, pc.i, j);
    } else {
      NoEntryJob(c, s, r, s');
    }
  }

  /** Outside `entry` a step does not use a root anew. */
  lemma NoEntryJob(c: Setup, s: State, r: nat, s': State)
    requires r in s.reqs && ReqStep(c, s, r) == Some(s') && !s.reqs[r].pc.Probing? && !s.reqs[r].pc.Placing?
    ensures r in s'.reqs && !s'.reqs[r].pc.ProbeWait? && !s'.reqs[r].pc.PlaceWait?
    ensures forall j :: j in s'.jobs && j !in s.jobs ==> !s'.jobs[j].work.Probe? && !s'.jobs[j].work.MakeTemp?
  {
    var pc := s.reqs[r].pc;
    if Awaited(pc).Some? {
      AnsweredWaitsNot(c, s.reqs[r], s.jobs[Awaited(pc).value].work.result);
    } else if pc.Booting? {
      RetriedIsBare(s.reqs[r], pc.i, s.reqs[pc.child].pc.answer.timedOut);
    } else {
      OwnStepMoved(c, s, r, s');
    }
  }

  lemma AnsweredWaitsNot(c: Setup, q: Req, result: Result)
    requires Awaited(q.pc).Some?
    ensures Awaited(AnsweredReq(c, q, result).pc) == None
  {
  }

  lemma UsedRootIsBelow(c: Setup, s: State, r: nat, s': State, h: nat, i: nat)
    requires r in s.reqs && ReqStep(c, s, r) == Some(s') && UsesRoot(s, Advance(r), s', h, i)
    ensures Count(s, h, i) < 3
  {
    AdvanceMoved(c, s, r, s');
    AdvanceTurns(c, s, r, s');
    UsesOnlyNew(c, s, r, s');
  }

  lemma UsesOnlyNew(c: Setup, s: State, r: nat, s': State)
    requires r in s.reqs && ReqStep(c, s, r) == Some(s') && r in s'.reqs
    requires s'.reqs[r].pc.ProbeWait? || s'.reqs[r].pc.PlaceWait?
    ensures s.reqs[r].pc.Probing? || s.reqs[r].pc.Placing?
  {
    if !s.reqs[r].pc.Probing? && !s.reqs[r].pc.Placing? {
      NoEntryJob(c, s, r, s');
    }
  }

  /** In every run, once a root's count is 3 or more no lookup and no temporary directory is started on it by
      that process until all machines crash. */
  lemma QuarantinedRootIsLeftAlone(c: Setup, run: seq<State>, acts: seq<Action>, m: nat, n: nat, h: nat, i: nat)
    requires Run(c, run, acts) && m <= n < |acts| && Count(run[m], h, i) >= 3
    requires forall k :: m <= k < n ==> !acts[k].Crash?
    ensures !UsesRoot(run[n], acts[n], run[n + 1], h, i)
  {
    CountsGrow(c, run, acts, m, n, h, i);
    assert Step(c, run[n], acts[n], run[n + 1]);
    if UsesRoot(run[n], acts[n], run[n + 1], h, i) {
      UsedRootIsBelow(c, run[n], acts[n].r, run[n + 1], h, i);
    }
  }
}
