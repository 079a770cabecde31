/** Who may write, remove or publish a temporary directory, in every run of the disk-cache protocol. */
module PublicationOwnership {
  import opened Bytes
  import opened ArtifactImage
  import opened CacheKey
  import opened Publication
  import opened PublicationSafety
  import opened PublicationRuns

  // ---- What a step does to jobs and requests ----

  /** A job's work goes on with the same directory, for the same entry, or ends. */
  predicate Follows(w: Work, w': Work) {
    || w' == w || w'.Done?
    || (w.Perform? && w'.Perform? && w'.u == w.u)
    || (w.Commit? && w'.Commit? && w'.u == w.u && w'.tag == w.tag && w'.input == w.input)
  }

  ghost predicate JobTurned(s: State, s': State, j: nat) {
    && j in s.jobs && j in s'.jobs && s'.jobs == s.jobs[j := s'.jobs[j]]
    && Follows(s.jobs[j].work, s'.jobs[j].work)
    && s'.reqs == s.reqs && s'.next == s.next && s'.counts == s.counts && s'.jobs[j].host == s.jobs[j].host && s'.jobs[j].root == s.jobs[j].root
  }

  lemma RemovalTurns(s: State, j: nat, u: nat, choice: Choice)
    requires j in s.jobs
    ensures JobTurned(s, RemoveStep(s, j, u, choice), j)
  {
    assert s.jobs[j := s.jobs[j]] == s.jobs;
  }

  lemma RenameTurns(c: Setup, s: State, j: nat, u: nat, tag: bytes, x: Subject)
    requires j in s.jobs && s.jobs[j].work == Commit(u, tag, x, Rename) && TmpBound(s, s.jobs[j].root, u)
    ensures JobTurned(s, RenameStep(c, s, j, u, tag, x), j)
  {
  }

  lemma PrepareTurns(s: State, j: nat, u: nat, tag: bytes, x: Subject, phase: Phase, choice: Choice, s': State)
    requires j in s.jobs && s.jobs[j].work == Commit(u, tag, x, phase) && TmpBound(s, s.jobs[j].root, u)
    requires PrepareStep(s, j, u, tag, x, phase, choice) == Some(s')
    ensures JobTurned(s, s', j)
  {
  }

  lemma CommitTurns(c: Setup, s: State, j: nat, u: nat, tag: bytes, x: Subject, phase: Phase, choice: Choice, s': State)
    requires j in s.jobs && s.jobs[j].work == Commit(u, tag, x, phase)
    requires CommitStep(c, s, j, u, tag, x, phase, choice) == Some(s')
    ensures JobTurned(s, s', j)
  {
    if phase.CleanUp? {
      RemovalTurns(s, j, u, choice);
    } else if choice.GiveUp? || !TmpBound(s, s.jobs[j].root, u) {
    } else if phase.Rename? {
      RenameTurns(c, s, j, u, tag, x);
    } else {
      PrepareTurns(s, j, u, tag, x, phase, choice, s');
    }
  }

  lemma PerformTurns(s: State, j: nat, u: nat, kind: Kind, ops: seq<Op>)
    requires j in s.jobs && s.jobs[j].work == Perform(u, kind, ops) && TmpBound(s, s.jobs[j].root, u)
    ensures JobTurned(s, PerformStep(s, j, u, kind, ops), j)
  {
  }

  lemma EndTurns(s: State, s': State, j: nat, result: Result)
    requires j in s.jobs && s'.jobs == s.jobs[j := s.jobs[j].(work := Done(result))]
    requires s'.reqs == s.reqs && s'.next == s.next && s'.counts == s.counts
    ensures JobTurned(s, s', j)
  {
  }

  /** A lookup, a load, a new temporary directory, or an operation that fails. */
  lemma ShortJobTurns(c: Setup, s: State, j: nat, choice: Choice, s': State)
    requires j in s.jobs && JobStep(c, s, j, choice) == Some(s')
    requires var w := s.jobs[j].work; w.Probe? || w.Check? || w.Load? || w.MakeTemp? || (w.Perform? && (choice.GiveUp? || !TmpBound(s, s.jobs[j].root, w.u)))
    ensures JobTurned(s, s', j)
  {
    assert s'.jobs[j].work.Done?;
    EndTurns(s, s', j, s'.jobs[j].work.result);
  }

  lemma JobTurns(c: Setup, s: State, j: nat, choice: Choice, s': State)
    requires j in s.jobs && JobStep(c, s, j, choice) == Some(s')
    ensures JobTurned(s, s', j)
  {
    var w := s.jobs[j].work;
    if w.Remove? {
      RemovalTurns(s, j, w.u, choice);
    } else if w.Commit? {
      CommitTurns(c, s, j, w.u, w.tag, w.input, w.phase, choice, s');
    } else if w.Perform? && !choice.GiveUp? && TmpBound(s, s.jobs[j].root, w.u) {
      PerformTurns(s, j, w.u, w.kind, w.ops);
    } else {
      ShortJobTurns(c, s, j, choice, s');
    }
  }

  /** What a request is for. */
  predicate SameReq(q: Req, q': Req) {
    q'.host == q.host && q'.roots == q.roots && q'.tag == q.tag && q'.input == q.input && q'.load == q.load
  }

  /** Request r moved, and started at most a job on a directory of its own. */
  ghost predicate ReqTurned(s: State, s': State, r: nat) {
    && r in s.reqs && r in s'.reqs && s'.reqs == s.reqs[r := s'.reqs[r]] && SameReq(s.reqs[r], s'.reqs[r])
    && s'.bound == s.bound && s.next <= s'.next
    && (Held(s'.reqs[r].pc).Some? ==> Private(s, r, Held(s'.reqs[r].pc).value))
    && (s'.jobs == s.jobs || exists j: nat :: Started(s, s', r, j))
  }

  /** A commit is started for the request's own entry. */
  ghost predicate Started(s: State, s': State, r: nat, j: nat)
    requires r in s.reqs
  {
    && j >= s.next && j in s'.jobs && s'.jobs == s.jobs[j := s'.jobs[j]]
    && var w := s'.jobs[j].work;
       && (Touches(w).Some? ==> Private(s, r, Touches(w).value))
       && (w.Remove? ==> s.reqs[r].pc.Dropping? && s.reqs[r].pc.u == w.u)
       && (w.Commit? ==> w.tag == s.reqs[r].tag && w.input == s.reqs[r].input && s'.jobs[j].root in s.reqs[r].roots)
  }

  /** A request that only moves on. */
  lemma MoveTurns(s: State, s': State, r: nat)
    requires OnlyReq(s, s', r) && SameReq(s.reqs[r], s'.reqs[r])
    requires Held(s'.reqs[r].pc) == None || Held(s'.reqs[r].pc) == Held(s.reqs[r].pc)
    ensures ReqTurned(s, s', r)
  {
  }

  lemma RetriedIsBare(q: Req, i: nat, timedOut: bool)
    ensures var q' := Retried(q, i, timedOut); Bare(q'.pc) && SameReq(q, q')
  {
  }

  lemma AnsweredTurns(c: Setup, s: State, r: nat, result: Result)
    requires r in s.reqs && Awaited(s.reqs[r].pc).Some?
    ensures ReqTurned(s, SetReq(s, r, AnsweredReq(c, s.reqs[r], result)), r)
  {
    AnsweredHolds(c, s.reqs[r], result);
    MoveTurns(s, SetReq(s, r, AnsweredReq(c, s.reqs[r], result)), r);
  }

  /** A request that starts a job and waits for it. */
  lemma StartTurns(s: State, s': State, r: nat, j: nat, job: Job, q: Req)
    requires r in s.reqs && j >= s.next && s'.reqs == s.reqs[r := q] && SameReq(s.reqs[r], q)
    requires s'.jobs == s.jobs[j := job] && s'.bound == s.bound && s.next <= s'.next
    requires !job.work.Commit? && !job.work.Remove?
    requires Touches(job.work).Some? ==> Private(s, r, Touches(job.work).value)
    requires Held(q.pc).Some? ==> Private(s, r, Held(q.pc).value)
    ensures ReqTurned(s, s', r)
  {
    assert Started(s, s', r, j);
  }

  lemma LookupTurns(c: Setup, s: State, r: nat, i: nat)
    requires r in s.reqs
    ensures ReqTurned(s, Lookup(c, s, r, i), r)
  {
    var q, s' := s.reqs[r], Lookup(c, s, r, i);
    if i < |q.roots| && Count(s, q.host, i) < 3 {
      StartTurns(s, s', r, s.next, Job(q.host, q.roots[i], Probe(SlotOf(c, q, i))), s'.reqs[r]);
    } else {
      MoveTurns(s, s', r);
    }
  }

  lemma PlaceTurns(s: State, r: nat, i: nat)
    requires r in s.reqs
    ensures ReqTurned(s, Place(s, r, i), r)
  {
    var q, s' := s.reqs[r], Place(s, r, i);
    if Places(s, q, i) {
      StartTurns(s, s', r, s.next + 1, Job(q.host, q.roots[i], MakeTemp(s.next)), s'.reqs[r]);
    } else {
      MoveTurns(s, s', r);
    }
  }

  lemma BuildTurns(s: State, r: nat, i: nat, u: nat, rest: seq<Stage>)
    requires r in s.reqs && i < |s.reqs[r].roots| && s.reqs[r].pc == Building(i, u, rest)
    ensures ReqTurned(s, Build(s, r, i, u, rest), r)
  {
    assert Started(s, Build(s, r, i, u, rest), r, s.next);
  }

  lemma OpenTurns(c: Setup, s: State, r: nat, i: nat)
    requires r in s.reqs && i < |s.reqs[r].roots|
    ensures ReqTurned(s, Open(c, s, r, i), r)
  {
    assert Started(s, Open(c, s, r, i), r, s.next);
  }

  lemma LoadTurns(c: Setup, s: State, r: nat, i: nat)
    requires r in s.reqs && i < |s.reqs[r].roots|
    ensures ReqTurned(s, StartLoad(c, s, r, i), r)
  {
    var q, s' := s.reqs[r], StartLoad(c, s, r, i);
    if q.input.Kernel? && q.load && c.loader(q.host) == None {
      OpenTurns(c, s, r, i);
    } else {
      assert s'.jobs == s.jobs || Started(s, s', r, s.next);
    }
  }

  lemma DropTurns(s: State, r: nat, i: nat, u: nat)
    requires r in s.reqs && i < |s.reqs[r].roots| && s.reqs[r].pc == Dropping(i, u)
    ensures ReqTurned(s, Drop(s, r, i, u), r)
  {
    assert Started(s, Drop(s, r, i, u), r, s.next);
  }

  lemma BootFailedTurns(s: State, r: nat, i: nat, timedOut: bool)
    requires r in s.reqs
    ensures ReqTurned(s, BootFailed(s, r, i, timedOut), r)
  {
    RetriedIsBare(s.reqs[r], i, timedOut);
    MoveTurns(s, BootFailed(s, r, i, timedOut), r);
  }

  lemma OwnStepTurns(c: Setup, s: State, r: nat, s': State)
    requires r in s.reqs && !s.reqs[r].pc.Finished? && s.reqs[r].pc.i < |s.reqs[r].roots| && OwnStep(c, s, r) == Some(s')
    ensures ReqTurned(s, s', r)
  {
    match s.reqs[r].pc {
      case Building(i, u, rest) => BuildTurns(s, r, i, u, rest);
      case Loading(i) => LoadTurns(c, s, r, i);
      case Aicpu(i) => MoveTurns(s, s', r);
      case Booting(i, child) => BootFailedTurns(s, r, i, s.reqs[child].pc.answer.timedOut);
      case Opening(i) => OpenTurns(c, s, r, i);
      case Dropping(i, u) => DropTurns(s, r, i, u);
      case _ =>
    }
  }

  lemma AdvanceTurns(c: Setup, s: State, r: nat, s': State)
    requires r in s.reqs && ReqStep(c, s, r) == Some(s')
    ensures ReqTurned(s, s', r)
  {
    var pc := s.reqs[r].pc;
    if Awaited(pc).Some? {
      AnsweredTurns(c, s, r, s.jobs[Awaited(pc).value].work.result);
    } else if pc.Probing? {
      LookupTurns(c, s, r, pc.i);
    } else if pc.Placing? {
      PlaceTurns(s, r, pc.i);
    } else {
      OwnStepTurns(c, s, r, s');
    }
  }

  lemma TimedOutSame(q: Req)
    requires Awaited(q.pc).Some?
    ensures Bare(TimedOutReq(q).pc) && SameReq(q, TimedOutReq(q))
  {
  }

  lemma ExpireTurns(s: State, r: nat, s': State)
    requires r in s.reqs && TimeoutStep(s, r) == Some(s')
    ensures ReqTurned(s, s', r) && s'.jobs == s.jobs && s'.next == s.next && Bare(s'.reqs[r].pc)
  {
    TimedOutMoves(s, r, s');
    TimedOutSame(s.reqs[r]);
    MoveTurns(s, s', r);
  }

  lemma DeployTurns(s: State, r: nat, ok: bool, s': State)
    requires r in s.reqs && DeployStep(s, r, ok) == Some(s')
    ensures ReqTurned(s, s', r) && s'.jobs == s.jobs && s'.counts == s.counts && Held(s'.reqs[r].pc) == None
  {
    if !ok {
      RetriedIsBare(s.reqs[r], s.reqs[r].pc.i, false);
    }
    MoveTurns(s, s', r);
  }

  /** Request r waits for the new request that it made for the loader. */
  ghost predicate Booted(c: Setup, s: State, s': State, r: nat) {
    && r in s.reqs && r != s.next && s.reqs[r].pc.Aicpu? && c.loader(s.reqs[r].host).Some?
    && s'.reqs == s.reqs[r := s.reqs[r].(pc := Booting(s.reqs[r].pc.i, s.next))][s.next := LoaderReq(c, s.reqs[r])]
    && s'.jobs == s.jobs && s'.bound == s.bound && s'.next == s.next + 1 && s'.counts == s.counts
  }

  lemma BootTurns(c: Setup, s: State, r: nat, s': State)
    requires r in s.reqs && BootStep(c, s, r) == Some(s') && r < s.next
    ensures Booted(c, s, s', r)
  {
  }

  // ---- Removal ----

  /** Every removal is started by the request that holds the directory, and at that moment no I/O task and
      no compiler command started on the directory can still be running. */
  lemma RemovalHasNoCompany(c: Setup, s: State, a: Action, s': State, j: nat, u: nat)
    requires Inv(c, s) && Step(c, s, a, s')
    requires j in s'.jobs && s'.jobs[j].work == Remove(u) && j !in s.jobs
    ensures a.Advance? && a.r in s.reqs && s.reqs[a.r].pc.Dropping? && s.reqs[a.r].pc.u == u
    ensures !Published(s, u) && forall j': nat :: !Toucher(s, j', u)
  {
    match a {
      case Work(j', choice) => JobTurns(c, s, j', choice, s');
      case Expire(r) => ExpireTurns(s, r, s');
      case Deploy(r, ok) => DeployTurns(s, r, ok, s');
      case Advance(r) =>
        AdvanceTurns(c, s, r, s');
        assert ReqOk(c, s, r);
      case _ =>
    }
  }

  // ---- Directories that their request has given up ----

  /** No request holds u any more, and none ever will. */
  ghost predicate Abandoned(s: State, u: nat) {
    u < s.next && forall r :: r in s.reqs ==> Held(s.reqs[r].pc) != Some(u)
  }

  /** Apart from job j, which is no removal by an owner, nothing can change u. */
  ghost predicate LateWork(s: State, u: nat, j: nat) {
    Abandoned(s, u) && forall j': nat :: Toucher(s, j', u) ==> j' == j && !s.jobs[j'].work.Remove?
  }

  /** u is abandoned and unpublished, and no commit of it runs. */
  ghost predicate Leaked(s: State, u: nat) {
    && Abandoned(s, u) && !Published(s, u)
    && forall j: nat :: Toucher(s, j, u) ==> s.jobs[j].work.MakeTemp? || s.jobs[j].work.Perform?
  }

  /** A step neither gives an abandoned directory to a request nor starts work on it. */
  ghost predicate NoNewWork(s: State, s': State, u: nat) {
    && Abandoned(s', u)
    && forall j: nat :: Toucher(s', j, u) ==>
         && Toucher(s, j, u)
         && (s'.jobs[j].work.Remove? ==> s.jobs[j].work.Remove?)
         && (s.jobs[j].work.Perform? || s.jobs[j].work.MakeTemp? ==> s'.jobs[j].work.Perform? || s'.jobs[j].work.MakeTemp?)
  }

  lemma JobAddsNoWork(s: State, s': State, j: nat, u: nat)
    requires JobTurned(s, s', j) && Abandoned(s, u)
    ensures NoNewWork(s, s', u)
  {
  }

  lemma RequestAddsNoWork(s: State, s': State, r: nat, u: nat)
    requires ReqTurned(s, s', r) && Abandoned(s, u)
    ensures NoNewWork(s, s', u)
  {
    assert !Private(s, r, u);
  }

  lemma BootAddsNoWork(c: Setup, s: State, s': State, r: nat, u: nat)
    requires Booted(c, s, s', r) && Abandoned(s, u)
    ensures NoNewWork(s, s', u)
  {
    assert Held(LoaderReq(c, s.reqs[r]).pc) == None;
  }

  lemma AbandonedStays(c: Setup, s: State, a: Action, s': State, u: nat)
    requires Inv(c, s) && Step(c, s, a, s') && Abandoned(s, u)
    ensures NoNewWork(s, s', u)
  {
    match a {
      case Work(j, choice) =>
        JobTurns(c, s, j, choice, s');
        JobAddsNoWork(s, s', j, u);
      case Advance(r) =>
        AdvanceTurns(c, s, r, s');
        RequestAddsNoWork(s, s', r, u);
      case Expire(r) =>
        ExpireTurns(s, r, s');
        RequestAddsNoWork(s, s', r, u);
      case Deploy(r, ok) =>
        DeployTurns(s, r, ok, s');
        RequestAddsNoWork(s, s', r, u);
      case Boot(r) =>
        assert ReqOk(c, s, r);
        BootTurns(c, s, r, s');
        BootAddsNoWork(c, s, s', r, u);
      case _ =>
    }
  }

  lemma LateWorkStays(c: Setup, s: State, a: Action, s': State, u: nat, j: nat)
    requires Inv(c, s) && Step(c, s, a, s') && LateWork(s, u, j)
    ensures LateWork(s', u, j)
    ensures Published(s', u) ==> Published(s, u) || (Renames(s, a, u) && a.j == j)
    ensures Leaked(s, u) ==> Leaked(s', u)
  {
    AbandonedStays(c, s, a, s', u);
    if !a.Crash? {
      StepKeepsEntries(c, s, a, s', u);
    }
    if Renames(s, a, u) {
      assert Toucher(s, a.j, u);
    }
  }

  // ---- A timed-out build or commit ----

  /** A request that waits for work on its directory, other than its removal. */
  predicate AtWork(pc: Pc) { pc.PlaceWait? || pc.StageWait? || pc.CommitWait? }

  lemma TimeoutAbandons(c: Setup, s: State, r: nat, s': State)
    requires Inv(c, s) && Step(c, s, Expire(r), s') && r in s.reqs && AtWork(s.reqs[r].pc)
    ensures LateWork(s', s.reqs[r].pc.u, s.reqs[r].pc.job)
    ensures Published(s', s.reqs[r].pc.u) == Published(s, s.reqs[r].pc.u)
    ensures !s.reqs[r].pc.CommitWait? ==> Leaked(s', s.reqs[r].pc.u)
  {
    var u := s.reqs[r].pc.u;
    ExpireTurns(s, r, s');
    assert ReqOk(c, s, r);
    assert Held(s.reqs[r].pc) == Some(u);
    assert forall j: nat :: Toucher(s', j, u) == Toucher(s, j, u);
    assert Published(s', u) == Published(s, u);
  }

  /** Job j's rename at step m made u an entry. */
  ghost predicate RenamedAt(run: seq<State>, acts: seq<Action>, m: nat, u: nat, j: nat)
    requires m < |acts| && |run| == |acts| + 1
  {
    acts[m].Work? && acts[m].j == j && Renames(run[m], acts[m], u)
  }

  lemma LateStepInRun(c: Setup, run: seq<State>, acts: seq<Action>, k: nat, u: nat, j: nat)
    requires Run(c, run, acts) && k < |acts| && LateWork(run[k], u, j)
    ensures LateWork(run[k + 1], u, j)
    ensures Published(run[k + 1], u) ==> Published(run[k], u) || RenamedAt(run, acts, k, u, j)
    ensures Leaked(run[k], u) ==> Leaked(run[k + 1], u)
  {
    RunInv(c, run, acts, k);
    assert Step(c, run[k], acts[k], run[k + 1]);
    LateWorkStays(c, run[k], acts[k], run[k + 1], u, j);
  }

  lemma TimeoutInRun(c: Setup, run: seq<State>, acts: seq<Action>, i: nat, r: nat)
    requires Run(c, run, acts) && i < |acts| && acts[i] == Expire(r) && r in run[i].reqs && AtWork(run[i].reqs[r].pc)
    ensures var pc := run[i].reqs[r].pc;
            && LateWork(run[i + 1], pc.u, pc.job) && Published(run[i + 1], pc.u) == Published(run[i], pc.u)
            && (!pc.CommitWait? ==> Leaked(run[i + 1], pc.u))
  {
    RunInv(c, run, acts, i);
    assert Step(c, run[i], acts[i], run[i + 1]);
    TimeoutAbandons(c, run[i], r, run[i + 1]);
  }

  /** When a request times out on a directory it is building or committing, then for ever after only the
      very job it waited for can change that directory: no owner removes it, and it becomes an entry only
      by that job's own rename. A directory whose build timed out never becomes one. */
  lemma {:induction false} TimedOutDirectory(c: Setup, run: seq<State>, acts: seq<Action>, i: nat, k: nat, r: nat)
      returns (m: nat)
    requires Run(c, run, acts) && i < k < |run| && acts[i] == Expire(r)
    requires r in run[i].reqs && AtWork(run[i].reqs[r].pc)
    ensures var pc := run[i].reqs[r].pc;
            && LateWork(run[k], pc.u, pc.job)
            && (Published(run[k], pc.u) && !Published(run[i], pc.u) ==> i < m < k && RenamedAt(run, acts, m, pc.u, pc.job))
            && (!pc.CommitWait? ==> Leaked(run[k], pc.u))
  {
    var pc := run[i].reqs[r].pc;
    if k == i + 1 {
      m := 0;
      TimeoutInRun(c, run, acts, i, r);
    } else {
      m := TimedOutDirectory(c, run, acts, i, k - 1, r);
      LateStepInRun(c, run, acts, k - 1, pc.u, pc.job);
      if !Published(run[k - 1], pc.u) {
        m := k - 1;
      }
    }
  }
}
