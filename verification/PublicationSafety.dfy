/** The invariant of the disk-cache protocol and its preservation by every step. */
module PublicationSafety {
  import opened Bytes
  import opened ArtifactImage
  import opened CacheKey
  import opened Publication

  // ---- The invariant ----

  /** u has, or had before a crash, the name of a cache entry. */
  ghost predicate Published(s: State, u: nat) {
    exists root: Root, tag: bytes, digest: bytes :: (Slot(root, tag, digest), u) in s.bound
  }

  /** `img` is the whole file set that one build for an input with this digest produced, with the marker. */
  ghost predicate BuiltBy(c: Setup, img: Image, digest: bytes, x: Subject, u: nat) {
    && c.key(x) == digest
    && Artifact(c, x, u).Some?
    && img.nodes == Artifact(c, x, u).value[MARKER := File([])]
  }

  ghost predicate Complete(c: Setup, img: Image, digest: bytes) {
    && img.WellFormed() && img.Durable()
    && exists x, u :: BuiltBy(c, img, digest, x, u)
  }

  /** A directory without a marker that was there at the start, at rest. */
  ghost predicate Foreign(img: Image) { img.WellFormed() && img.Durable() && !img.Marked() }

  ghost predicate FsOk(c: Setup, s: State) {
    && (forall p :: p in s.names ==> (p, s.names[p]) in s.bound && s.names[p] in s.images)
    && (forall p, u :: (p, u) in s.bound ==> u in s.images)
    && (forall u :: u in s.images ==> u < s.next)
    && (forall root: Root, tag: bytes, digest: bytes, u: nat :: (Slot(root, tag, digest), u) in s.bound ==>
          Complete(c, s.images[u], digest) || Foreign(s.images[u]))
    && (forall root: Root, v: nat, u: nat :: (Tmp(root, v), u) in s.bound ==> u == v)
  }

  ghost predicate Toucher(s: State, j: nat, u: nat) { j in s.jobs && Touches(s.jobs[j].work) == Some(u) }

  /** A commit job acts on the finished file set, whether or not its request still waits. */
  ghost predicate CommitOk(c: Setup, s: State, root: Root, u: nat, tag: bytes, x: Subject, phase: Phase) {
    && ValidTag(tag)
    && (!phase.CleanUp? ==> u in s.images && s.images[u].WellFormed())
    && (phase.CleanUp? ==> IsMarked(s, Slot(root, tag, c.key(x))))
    && (phase.WriteMarker? ==> Some(s.images[u].nodes) == Artifact(c, x, u))
    && (phase.SyncMarker? || phase.SyncTree? || phase.Rename? ==>
          Artifact(c, x, u).Some? && s.images[u].nodes == Artifact(c, x, u).value[MARKER := File([])])
    && (phase.SyncTree? ==> Pending(s.images[u], phase.todo))
    && (phase.Rename? ==> s.images[u].Durable())
  }

  ghost predicate JobsOk(c: Setup, s: State) {
    && (forall j :: j in s.jobs ==> j < s.next)
    && (forall j: nat, u: nat :: Toucher(s, j, u) ==> u < s.next && !Published(s, u))
    && (forall j: nat, j': nat, u: nat :: Toucher(s, j, u) && Toucher(s, j', u) ==> j == j')
    && (forall j :: j in s.jobs && s.jobs[j].work.Commit? ==>
          var w := s.jobs[j].work; CommitOk(c, s, s.jobs[j].root, w.u, w.tag, w.input, w.phase))
  }

  /** The directory is well-formed, and the remaining operations complete the artifact of x. */
  ghost predicate OnTrack(c: Setup, s: State, u: nat, x: Subject, ops: seq<Op>) {
    u in s.images && s.images[u].WellFormed() && Outcome(s.images[u].nodes, ops) == Artifact(c, x, u)
  }

  /** j is the job that request q started on its root i. */
  ghost predicate JobFor(s: State, q: Req, i: nat, j: nat) {
    i < |q.roots| && j in s.jobs && s.jobs[j].host == q.host && s.jobs[j].root == q.roots[i]
  }

  /** Nothing but job j can change directory u. */
  ghost predicate OnlyBy(s: State, u: nat, j: nat) {
    u < s.next && forall j': nat :: Toucher(s, j', u) ==> j' == j
  }

  /** Nothing can change directory u, and it is not a cache entry. */
  ghost predicate Idle(s: State, u: nat) {
    u < s.next && !Published(s, u) && forall j: nat :: !Toucher(s, j, u)
  }

  /** An AICPU kernel's entry. */
  ghost predicate BootOk(c: Setup, s: State, q: Req, i: nat) {
    i < |q.roots| && q.input.Kernel? && IsMarked(s, SlotOf(c, q, i)) && HasFile(s, SlotOf(c, q, i), c.aicpu)
  }

  ghost predicate PcOk(c: Setup, s: State, q: Req) {
    match q.pc
    case Probing(i) => true
    case ProbeWait(i, j) =>
      && JobFor(s, q, i, j)
      && var w := s.jobs[j].work;
         w == Probe(SlotOf(c, q, i)) || (w == Done(Hit) && IsMarked(s, SlotOf(c, q, i))) || w == Done(Miss) || w == Done(Failed)
    case Placing(i) => true
    case PlaceWait(i, u, j) =>
      && JobFor(s, q, i, j) && OnlyBy(s, u, j) && !Published(s, u)
      && var w := s.jobs[j].work;
         w == MakeTemp(u) || (w == Done(Good) && u in s.images && s.images[u] == EMPTY) || w == Done(Failed)
    case Building(i, u, rest) =>
      i < |q.roots| && Idle(s, u) && OnTrack(c, s, u, q.input, AllOps(rest))
    case StageWait(i, u, rest, kind, j) =>
      && JobFor(s, q, i, j) && OnlyBy(s, u, j) && !Published(s, u)
      && var w := s.jobs[j].work;
         || (w.Perform? && w.u == u && OnTrack(c, s, u, q.input, w.ops + AllOps(rest)))
         || (w == Done(Good) && OnTrack(c, s, u, q.input, AllOps(rest)))
         || w == Done(Failed)
    case CommitWait(i, u, j) =>
      && JobFor(s, q, i, j) && OnlyBy(s, u, j)
      && var w := s.jobs[j].work;
         || (w.Commit? && w.u == u && w.tag == q.tag && w.input == q.input && !Published(s, u))
         || (w == Done(Good) && IsMarked(s, SlotOf(c, q, i)))
         || (w == Done(Failed) && !Published(s, u))
    case Loading(i) => i < |q.roots| && IsMarked(s, SlotOf(c, q, i))
    case CheckWait(i, j) =>
      && JobFor(s, q, i, j) && IsMarked(s, SlotOf(c, q, i))
      && var w := s.jobs[j].work;
         || w == Check(SlotOf(c, q, i), FileFor(c, q)) || w == Done(Miss) || w == Done(Failed)
         || (w == Done(Good) && HasFile(s, SlotOf(c, q, i), FileFor(c, q)))
    case Aicpu(i) => BootOk(c, s, q, i)
    case Booting(i, _) => BootOk(c, s, q, i)
    case Opening(i) => i < |q.roots| && IsMarked(s, SlotOf(c, q, i))
    case LoadWait(i, j) =>
      && JobFor(s, q, i, j) && IsMarked(s, SlotOf(c, q, i))
      && var w := s.jobs[j].work;
         w == Load(SlotOf(c, q, i)) || w == Done(Failed) ||
         (w.Done? && w.result.Read? && Loaded(c, s, SlotOf(c, q, i)) == Some(w.result.data))
    case Dropping(i, u) => i < |q.roots| && Idle(s, u)
    case DropWait(i, u, j) =>
      && JobFor(s, q, i, j) && OnlyBy(s, u, j) && !Published(s, u)
      && (s.jobs[j].work == Remove(u) || s.jobs[j].work.Done?)
    case Finished(Threw(_)) => true
    case Finished(Returned(i, loaded)) =>
      && i < |q.roots| && IsMarked(s, SlotOf(c, q, i))
      && (loaded.Some? ==> Loaded(c, s, SlotOf(c, q, i)) == loaded)
  }

  ghost predicate ReqOk(c: Setup, s: State, r: nat)
    requires r in s.reqs
  {
    var q := s.reqs[r];
    && r < s.next && q.first <= |q.roots| && (q.pc.Finished? || ValidTag(q.tag))
    && (q.input.Loader? ==> q.tag == LOADER_TAG)
    && PcOk(c, s, q)
  }

  ghost predicate ReqsOk(c: Setup, s: State) {
    && (forall r :: r in s.reqs ==> ReqOk(c, s, r))
    && (forall r, r' :: r in s.reqs && r' in s.reqs && r != r' && Held(s.reqs[r].pc).Some? ==>
          Held(s.reqs[r].pc) != Held(s.reqs[r'].pc))
  }

  ghost predicate Inv(c: Setup, s: State) { FsOk(c, s) && JobsOk(c, s) && ReqsOk(c, s) }

  /** At the start nothing runs, the disk is at rest, and marked entries are complete artifacts. The
      compiler's output file is not the marker. */
  ghost predicate Init(c: Setup, s: State) {
    c.binary != MARKER && FsOk(c, s) && s.jobs == map[] && s.reqs == map[] && s.counts == map[] && s.booted == {}
  }

  lemma InitInv(c: Setup, s: State)
    requires Init(c, s)
    ensures Inv(c, s)
  {
  }

  // ---- What every ordinary step leaves alone ----

  /** Marked entries stay, with their contents. */
  ghost predicate SlotsKept(s: State, s': State) {
    forall p: Path :: p.Slot? && IsMarked(s, p) ==>
      && p in s'.names && s'.names[p] == s.names[p]
      && s.names[p] in s'.images && s'.images[s.names[p]].nodes == s.images[s.names[p]].nodes
  }

  /** Marked entries stay, and so does everything about request r. */
  ghost predicate Undisturbed(s: State, s': State, r: nat) {
    && r in s.reqs && r in s'.reqs && s'.reqs[r] == s.reqs[r]
    && s.next <= s'.next
    && SlotsKept(s, s')
    && (Awaited(s.reqs[r].pc).Some? ==>
          var j := Awaited(s.reqs[r].pc).value;
          j in s.jobs ==> j in s'.jobs && s'.jobs[j] == s.jobs[j])
    && (Held(s.reqs[r].pc).Some? ==>
          var u := Held(s.reqs[r].pc).value;
          && (u in s.images ==> u in s'.images && s'.images[u] == s.images[u])
          && (forall j: nat :: Toucher(s', j, u) ==> Toucher(s, j, u))
          && (Published(s', u) ==> Published(s, u)))
  }

  lemma UndisturbedOk(c: Setup, s: State, s': State, r: nat)
    requires r in s.reqs && ReqOk(c, s, r) && Undisturbed(s, s', r)
    ensures ReqOk(c, s', r)
  {
  }

  // ---- Steps of a request ----

  /** s' is s with request r moved to q and, if `started`, one new job. */
  ghost predicate ReqMoved(s: State, s': State, r: nat, q: Req, started: bool, j: nat, job: Job) {
    && r in s.reqs && s'.reqs == s.reqs[r := q]
    && s'.names == s.names && s'.images == s.images && s'.bound == s.bound
    && s.next <= s'.next
    && s'.jobs == (if started then s.jobs[j := job] else s.jobs)
    && (started ==> s.next <= j < s'.next)
  }

  /** A directory that only request r can know of. */
  ghost predicate Private(s: State, r: nat, u: nat) {
    u >= s.next || (r in s.reqs && Held(s.reqs[r].pc) == Some(u))
  }

  /** The new job, if any, is the only toucher of a directory private to r. */
  ghost predicate NewJobOk(c: Setup, s: State, s': State, r: nat, job: Job) {
    && (Touches(job.work).Some? ==>
          var u := Touches(job.work).value;
          Private(s, r, u) && u < s'.next && !Published(s, u) && forall j: nat :: !Toucher(s, j, u))
    && (job.work.Commit? ==>
          CommitOk(c, s, job.root, job.work.u, job.work.tag, job.work.input, job.work.phase))
  }

  lemma NewJobKeepsJobsOk(c: Setup, s: State, s': State, r: nat, q: Req, j: nat, job: Job)
    requires Inv(c, s) && ReqMoved(s, s', r, q, true, j, job) && NewJobOk(c, s, s', r, job)
    ensures JobsOk(c, s')
  {
    forall u: nat
      ensures Published(s', u) == Published(s, u)
    {
    }
    forall j': nat, u: nat | Toucher(s', j', u)
      ensures j' == j || Toucher(s, j', u)
      ensures u < s'.next && !Published(s', u)
    {
      assert j' != j ==> Toucher(s, j', u);
    }
    forall j' | j' in s'.jobs && s'.jobs[j'].work.Commit?
      ensures var w := s'.jobs[j'].work; CommitOk(c, s', s'.jobs[j'].root, w.u, w.tag, w.input, w.phase)
    {
      if j' != j {
        assert j' in s.jobs && s.jobs[j'].work.Commit?;
      }
    }
  }

  lemma OtherReqUndisturbed(c: Setup, s: State, s': State, r: nat, q: Req, started: bool, j: nat, job: Job, r': nat)
    requires Inv(c, s) && ReqMoved(s, s', r, q, started, j, job)
    requires started ==> NewJobOk(c, s, s', r, job)
    requires r' in s.reqs && r' != r
    ensures Undisturbed(s, s', r')
  {
    assert ReqOk(c, s, r');
    if Held(s.reqs[r'].pc).Some? {
      var u := Held(s.reqs[r'].pc).value;
      assert !Private(s, r, u);
      forall j': nat | Toucher(s', j', u)
        ensures Toucher(s, j', u)
      {
      }
    }
  }

  lemma OthersHoldOthers(c: Setup, s: State, s': State, r: nat, q: Req)
    requires ReqsOk(c, s) && r in s.reqs && s'.reqs == s.reqs[r := q]
    requires Held(q.pc).Some? ==> Private(s, r, Held(q.pc).value)
    requires forall r' :: r' in s.reqs && Held(s.reqs[r'].pc).Some? ==> Held(s.reqs[r'].pc).value < s.next
    ensures forall a, b :: a in s'.reqs && b in s'.reqs && a != b && Held(s'.reqs[a].pc).Some? ==>
              Held(s'.reqs[a].pc) != Held(s'.reqs[b].pc)
  {
  }

  lemma HeldIsOld(c: Setup, s: State, r: nat)
    requires r in s.reqs && ReqOk(c, s, r) && Held(s.reqs[r].pc).Some?
    ensures Held(s.reqs[r].pc).value < s.next
  {
  }

  lemma OthersKeepReqsOk(c: Setup, s: State, s': State, r: nat, q: Req, started: bool, j: nat, job: Job)
    requires Inv(c, s) && ReqMoved(s, s', r, q, started, j, job)
    requires ReqOk(c, s', r)
    requires Held(q.pc).Some? ==> Private(s, r, Held(q.pc).value)
    requires started ==> NewJobOk(c, s, s', r, job)
    ensures ReqsOk(c, s')
  {
    forall r' | r' in s'.reqs && r' != r
      ensures ReqOk(c, s', r')
    {
      assert ReqOk(c, s, r');
      OtherReqUndisturbed(c, s, s', r, q, started, j, job, r');
      UndisturbedOk(c, s, s', r');
    }
    forall r' | r' in s.reqs && Held(s.reqs[r'].pc).Some?
      ensures Held(s.reqs[r'].pc).value < s.next
    {
      HeldIsOld(c, s, r');
    }
    OthersHoldOthers(c, s, s', r, q);
  }

  lemma SameJobsOk(c: Setup, s: State, s': State)
    requires FsOk(c, s) && JobsOk(c, s)
    requires s'.names == s.names && s'.images == s.images && s'.bound == s.bound && s'.jobs == s.jobs && s.next <= s'.next
    ensures FsOk(c, s') && JobsOk(c, s')
  {
    assert forall j': nat, u: nat :: Toucher(s', j', u) == Toucher(s, j', u);
    assert forall u: nat :: Published(s', u) == Published(s, u);
  }

  lemma ReqMovedInv(c: Setup, s: State, s': State, r: nat, q: Req, started: bool, j: nat, job: Job)
    requires Inv(c, s) && ReqMoved(s, s', r, q, started, j, job)
    requires ReqOk(c, s', r)
    requires Held(q.pc).Some? ==> Private(s, r, Held(q.pc).value)
    requires started ==> NewJobOk(c, s, s', r, job)
    ensures Inv(c, s')
  {
    OthersKeepReqsOk(c, s, s', r, q, started, j, job);
    if started {
      NewJobKeepsJobsOk(c, s, s', r, q, j, job);
    } else {
      SameJobsOk(c, s, s');
    }
  }

  ghost const NO_JOB := Job(0, 0, Done(Good))

  /** A request step that starts no job. */
  lemma ReqTurnedInv(c: Setup, s: State, s': State, r: nat, q: Req)
    requires Inv(c, s) && ReqMoved(s, s', r, q, false, 0, NO_JOB)
    requires ReqOk(c, s', r)
    requires Held(q.pc).Some? ==> Private(s, r, Held(q.pc).value)
    ensures Inv(c, s')
  {
    ReqMovedInv(c, s, s', r, q, false, 0, NO_JOB);
  }

  /** A step of a request that neither starts a job nor touches the disk. */
  ghost predicate OnlyReq(s: State, s': State, r: nat) {
    && r in s.reqs && r in s'.reqs && s'.reqs == s.reqs[r := s'.reqs[r]]
    && s'.names == s.names && s'.images == s.images && s'.bound == s.bound
    && s'.jobs == s.jobs && s'.next == s.next
  }

  lemma OnlyReqInv(c: Setup, s: State, s': State, r: nat)
    requires Inv(c, s) && OnlyReq(s, s', r) && ReqOk(c, s', r)
    requires Held(s'.reqs[r].pc).Some? ==> Held(s'.reqs[r].pc) == Held(s.reqs[r].pc)
    ensures Inv(c, s')
  {
    ReqTurnedInv(c, s, s', r, s'.reqs[r]);
  }

  /** A request between two waits of `entry`, or at its error. */
  predicate Bare(pc: Pc) { pc.Probing? || pc.Placing? || (pc.Finished? && pc.answer.Threw?) }

  lemma BareOk(c: Setup, s: State, r: nat, q: Req)
    requires r in s.reqs && ReqOk(c, s, r) && !s.reqs[r].pc.Finished?
    requires Bare(q.pc) && q.tag == s.reqs[r].tag && q.input == s.reqs[r].input && q.first <= |q.roots|
    ensures ReqOk(c, SetReq(s, r, q), r) && OnlyReq(s, SetReq(s, r, q), r) && Held(q.pc) == None
  {
  }

  lemma BareInv(c: Setup, s: State, r: nat, q: Req)
    requires Inv(c, s) && r in s.reqs && !s.reqs[r].pc.Finished?
    requires Bare(q.pc) && q.tag == s.reqs[r].tag && q.input == s.reqs[r].input && q.first <= |q.roots|
    ensures Inv(c, SetReq(s, r, q))
  {
    assert ReqOk(c, s, r);
    BareOk(c, s, r, q);
    OnlyReqInv(c, s, SetReq(s, r, q), r);
  }

  lemma LookupStarts(c: Setup, s: State, r: nat, i: nat)
    requires r in s.reqs && ReqOk(c, s, r) && s.reqs[r].pc == Probing(i)
    requires i < |s.reqs[r].roots| && Count(s, s.reqs[r].host, i) < 3
    ensures ReqOk(c, Lookup(c, s, r, i), r)
  {
  }

  lemma LookupInv(c: Setup, s: State, r: nat, i: nat)
    requires Inv(c, s) && r in s.reqs && s.reqs[r].pc == Probing(i)
    ensures Inv(c, Lookup(c, s, r, i))
  {
    var q, s' := s.reqs[r], Lookup(c, s, r, i);
    if i < |q.roots| && Count(s, q.host, i) < 3 {
      LookupStarts(c, s, r, i);
      ReqMovedInv(c, s, s', r, s'.reqs[r], true, s.next, Job(q.host, q.roots[i], Probe(SlotOf(c, q, i))));
    } else {
      assert ReqOk(c, s, r);
      BareInv(c, s, r, s'.reqs[r]);
    }
  }

  /** A job started for request r touches a directory, and nothing else does. */
  lemma NewToucher(s: State, s': State, j: nat, job: Job, u: nat)
    requires s'.jobs == s.jobs[j := job] && s'.bound == s.bound
    requires forall j': nat :: !Toucher(s, j', u)
    ensures forall j': nat :: Toucher(s', j', u) ==> j' == j
    ensures Published(s', u) == Published(s, u)
  {
    forall j': nat | Toucher(s', j', u)
      ensures j' == j
    {
      assert j' != j ==> Toucher(s, j', u);
    }
  }

  lemma FreshUntouched(c: Setup, s: State, u: nat)
    requires Inv(c, s) && u >= s.next
    ensures !Published(s, u) && forall j: nat :: !Toucher(s, j, u)
  {
  }

  predicate Places(s: State, q: Req, i: nat) { i < |q.roots| && Count(s, q.host, i) < 3 && i !in q.failed }

  lemma PlaceStarts(c: Setup, s: State, s': State, r: nat, i: nat)
    requires r in s.reqs && ReqOk(c, s, r) && s.reqs[r].pc == Placing(i) && i < |s.reqs[r].roots|
    requires !Published(s, s.next) && forall j: nat :: !Toucher(s, j, s.next)
    requires var q, u := s.reqs[r], s.next;
             ReqMoved(s, s', r, q.(pc := PlaceWait(i, u, u + 1)), true, u + 1, Job(q.host, q.roots[i], MakeTemp(u)))
    ensures ReqOk(c, s', r)
  {
    var q, u := s.reqs[r], s.next;
    NewToucher(s, s', u + 1, Job(q.host, q.roots[i], MakeTemp(u)), u);
  }

  lemma PlaceMoves(s: State, r: nat, i: nat)
    requires r in s.reqs && Places(s, s.reqs[r], i)
    ensures var q, u := s.reqs[r], s.next;
            ReqMoved(s, Place(s, r, i), r, q.(pc := PlaceWait(i, u, u + 1)), true, u + 1, Job(q.host, q.roots[i], MakeTemp(u)))
  {
  }

  lemma PlaceStartsInv(c: Setup, s: State, s': State, r: nat, i: nat)
    requires Inv(c, s) && r in s.reqs && s.reqs[r].pc == Placing(i) && i < |s.reqs[r].roots|
    requires var q, u := s.reqs[r], s.next;
             ReqMoved(s, s', r, q.(pc := PlaceWait(i, u, u + 1)), true, u + 1, Job(q.host, q.roots[i], MakeTemp(u)))
    ensures Inv(c, s')
  {
    var q, u := s.reqs[r], s.next;
    FreshUntouched(c, s, u);
    PlaceStarts(c, s, s', r, i);
    ReqMovedInv(c, s, s', r, q.(pc := PlaceWait(i, u, u + 1)), true, u + 1, Job(q.host, q.roots[i], MakeTemp(u)));
  }

  lemma PlaceInv(c: Setup, s: State, r: nat, i: nat)
    requires Inv(c, s) && r in s.reqs && s.reqs[r].pc == Placing(i)
    ensures Inv(c, Place(s, r, i))
  {
    if Places(s, s.reqs[r], i) {
      PlaceMoves(s, r, i);
      PlaceStartsInv(c, s, Place(s, r, i), r, i);
    } else {
      assert ReqOk(c, s, r);
      BareInv(c, s, r, Place(s, r, i).reqs[r]);
    }
  }

  lemma BuildReqOk(c: Setup, s: State, r: nat, i: nat, u: nat, rest: seq<Stage>)
    requires r in s.reqs && ReqOk(c, s, r) && s.reqs[r].pc == Building(i, u, rest)
    ensures ReqOk(c, Build(s, r, i, u, rest), r)
  {
    var q, s' := s.reqs[r], Build(s, r, i, u, rest);
    if rest == [] {
      NewToucher(s, s', s.next, Job(q.host, q.roots[i], Commit(u, q.tag, q.input, WriteMarker)), u);
    } else {
      NewToucher(s, s', s.next, Job(q.host, q.roots[i], Perform(u, rest[0].kind, rest[0].ops)), u);
    }
  }

  lemma BuildInv(c: Setup, s: State, r: nat, i: nat, u: nat, rest: seq<Stage>)
    requires Inv(c, s) && r in s.reqs && s.reqs[r].pc == Building(i, u, rest) && i < |s.reqs[r].roots|
    ensures Inv(c, Build(s, r, i, u, rest))
  {
    var q, s' := s.reqs[r], Build(s, r, i, u, rest);
    assert ReqOk(c, s, r);
    BuildReqOk(c, s, r, i, u, rest);
    var work := if rest == [] then Commit(u, q.tag, q.input, WriteMarker) else Perform(u, rest[0].kind, rest[0].ops);
    ReqMovedInv(c, s, s', r, s'.reqs[r], true, s.next, Job(q.host, q.roots[i], work));
  }

  lemma ReaderOk(c: Setup, s: State, s': State, r: nat, i: nat, w: Work, pc: Pc)
    requires r in s.reqs && ReqOk(c, s, r) && !s.reqs[r].pc.Finished? && i < |s.reqs[r].roots| && IsMarked(s, SlotOf(c, s.reqs[r], i))
    requires var q := s.reqs[r];
             && ReqMoved(s, s', r, q.(pc := pc), true, s.next, Job(q.host, q.roots[i], w))
             && ((w == Check(SlotOf(c, q, i), FileFor(c, q)) && pc == CheckWait(i, s.next)) ||
                 (w == Load(SlotOf(c, q, i)) && pc == LoadWait(i, s.next)))
    ensures ReqOk(c, s', r)
  {
  }

  lemma ReaderMoves(s: State, r: nat, i: nat, w: Work, pc: Pc)
    requires r in s.reqs && i < |s.reqs[r].roots|
    ensures var q := s.reqs[r];
            ReqMoved(s, SetPc(StartJob(s, q.host, q.roots[i], w), r, pc), r, q.(pc := pc), true, s.next, Job(q.host, q.roots[i], w))
  {
  }

  /** A job that a request starts on its entry, to look at it. */
  lemma ReaderStartedInv(c: Setup, s: State, s': State, r: nat, i: nat, w: Work, pc: Pc)
    requires Inv(c, s) && r in s.reqs && i < |s.reqs[r].roots| && IsMarked(s, SlotOf(c, s.reqs[r], i))
    requires !s.reqs[r].pc.Finished?
    requires var q := s.reqs[r];
             && ReqMoved(s, s', r, q.(pc := pc), true, s.next, Job(q.host, q.roots[i], w))
             && ((w == Check(SlotOf(c, q, i), FileFor(c, q)) && pc == CheckWait(i, s.next)) ||
                 (w == Load(SlotOf(c, q, i)) && pc == LoadWait(i, s.next)))
    ensures Inv(c, s')
  {
    var q := s.reqs[r];
    assert ReqOk(c, s, r);
    ReaderOk(c, s, s', r, i, w, pc);
    ReqMovedInv(c, s, s', r, q.(pc := pc), true, s.next, Job(q.host, q.roots[i], w));
  }

  lemma OpenInv(c: Setup, s: State, r: nat, i: nat)
    requires Inv(c, s) && r in s.reqs && (s.reqs[r].pc == Opening(i) || s.reqs[r].pc == Loading(i)) && i < |s.reqs[r].roots|
    ensures Inv(c, Open(c, s, r, i))
  {
    assert ReqOk(c, s, r);
    ReaderMoves(s, r, i, Load(SlotOf(c, s.reqs[r], i)), LoadWait(i, s.next));
    ReaderStartedInv(c, s, Open(c, s, r, i), r, i, Load(SlotOf(c, s.reqs[r], i)), LoadWait(i, s.next));
  }

  lemma StartLoadInv(c: Setup, s: State, r: nat, i: nat)
    requires Inv(c, s) && r in s.reqs && s.reqs[r].pc == Loading(i) && i < |s.reqs[r].roots|
    ensures Inv(c, StartLoad(c, s, r, i))
  {
    var q, s' := s.reqs[r], StartLoad(c, s, r, i);
    assert ReqOk(c, s, r);
    if q.input.Kernel? && !q.load {
      ReqTurnedInv(c, s, s', r, s'.reqs[r]);
    } else if q.input.Kernel? && c.loader(q.host) == None {
      OpenInv(c, s, r, i);
    } else {
      ReaderMoves(s, r, i, Check(SlotOf(c, q, i), FileFor(c, q)), CheckWait(i, s.next));
      ReaderStartedInv(c, s, s', r, i, Check(SlotOf(c, q, i), FileFor(c, q)), CheckWait(i, s.next));
    }
  }

  lemma DropInv(c: Setup, s: State, r: nat, i: nat, u: nat)
    requires Inv(c, s) && r in s.reqs && s.reqs[r].pc == Dropping(i, u) && i < |s.reqs[r].roots|
    ensures Inv(c, Drop(s, r, i, u))
  {
    var q, s' := s.reqs[r], Drop(s, r, i, u);
    assert ReqOk(c, s, r);
    var job := Job(q.host, q.roots[i], Remove(u));
    NewToucher(s, s', s.next, job, u);
    ReqMovedInv(c, s, s', r, s'.reqs[r], true, s.next, job);
  }

  lemma SameTouchers(s: State, s': State)
    requires s'.jobs == s.jobs && s'.bound == s.bound
    ensures forall j: nat, u: nat :: Toucher(s', j, u) == Toucher(s, j, u)
    ensures forall u: nat :: Published(s', u) == Published(s, u)
  {
  }

  lemma NextAttemptInv(c: Setup, s: State, r: nat, i: nat, timedOut: bool)
    requires Inv(c, s) && r in s.reqs && !s.reqs[r].pc.Finished? && i < |s.reqs[r].roots|
    ensures Inv(c, NextAttempt(s, r, i, timedOut))
  {
    assert ReqOk(c, s, r);
    BareInv(c, s, r, Retried(s.reqs[r], i, timedOut));
  }

  /** Request r, with the result of its job, is ready to go on. */
  ghost predicate Answering(c: Setup, s: State, r: nat, result: Result) {
    && r in s.reqs && ReqOk(c, s, r) && Awaited(s.reqs[r].pc).Some?
    && var j := Awaited(s.reqs[r].pc).value; j in s.jobs && s.jobs[j].work == Done(result)
  }

  lemma AnsweredHolds(c: Setup, q: Req, result: Result)
    requires Awaited(q.pc).Some?
    ensures var q' := AnsweredReq(c, q, result);
            && (Held(q'.pc) == None || Held(q'.pc) == Held(q.pc))
            && q'.host == q.host && q'.roots == q.roots && q'.tag == q.tag && q'.input == q.input && q'.load == q.load
  {
  }

  lemma AnsweredProbeOk(c: Setup, s: State, r: nat, result: Result)
    requires Answering(c, s, r, result) && s.reqs[r].pc.ProbeWait?
    ensures ReqOk(c, SetReq(s, r, AnsweredReq(c, s.reqs[r], result)), r)
  {
  }

  lemma AnsweredPlaceOk(c: Setup, s: State, r: nat, result: Result)
    requires Answering(c, s, r, result) && s.reqs[r].pc.PlaceWait?
    ensures ReqOk(c, SetReq(s, r, AnsweredReq(c, s.reqs[r], result)), r)
  {
    SameTouchers(s, SetReq(s, r, AnsweredReq(c, s.reqs[r], result)));
  }

  lemma AnsweredStageOk(c: Setup, s: State, r: nat, result: Result)
    requires Answering(c, s, r, result) && s.reqs[r].pc.StageWait?
    ensures ReqOk(c, SetReq(s, r, AnsweredReq(c, s.reqs[r], result)), r)
  {
    SameTouchers(s, SetReq(s, r, AnsweredReq(c, s.reqs[r], result)));
  }

  lemma AnsweredCommitOk(c: Setup, s: State, r: nat, result: Result)
    requires Answering(c, s, r, result) && s.reqs[r].pc.CommitWait?
    ensures ReqOk(c, SetReq(s, r, AnsweredReq(c, s.reqs[r], result)), r)
  {
    SameTouchers(s, SetReq(s, r, AnsweredReq(c, s.reqs[r], result)));
  }

  lemma AnsweredReaderOk(c: Setup, s: State, r: nat, result: Result)
    requires Answering(c, s, r, result) && (s.reqs[r].pc.CheckWait? || s.reqs[r].pc.LoadWait? || s.reqs[r].pc.DropWait?)
    ensures ReqOk(c, SetReq(s, r, AnsweredReq(c, s.reqs[r], result)), r)
  {
  }

  lemma AnsweredInv(c: Setup, s: State, r: nat, result: Result)
    requires Inv(c, s) && Answering(c, s, r, result)
    ensures Inv(c, SetReq(s, r, AnsweredReq(c, s.reqs[r], result)))
  {
    var pc := s.reqs[r].pc;
    if pc.ProbeWait? {
      AnsweredProbeOk(c, s, r, result);
    } else if pc.PlaceWait? {
      AnsweredPlaceOk(c, s, r, result);
    } else if pc.StageWait? {
      AnsweredStageOk(c, s, r, result);
    } else if pc.CommitWait? {
      AnsweredCommitOk(c, s, r, result);
    } else {
      AnsweredReaderOk(c, s, r, result);
    }
    AnsweredHolds(c, s.reqs[r], result);
    OnlyReqInv(c, s, SetReq(s, r, AnsweredReq(c, s.reqs[r], result)), r);
  }

  /** Charging a timeout concerns the counters alone. */
  lemma ChargeInv(c: Setup, s: State, h: nat, i: nat)
    requires Inv(c, s)
    ensures Inv(c, Charge(s, h, i))
  {
    var s' := Charge(s, h, i);
    SameTouchers(s, s');
    SameJobsOk(c, s, s');
    forall r | r in s'.reqs
      ensures ReqOk(c, s', r)
    {
      assert ReqOk(c, s, r);
      UndisturbedOk(c, s, s', r);
    }
  }

  lemma TimedOutMoves(s: State, r: nat, s': State)
    requires r in s.reqs && TimeoutStep(s, r) == Some(s')
    ensures Awaited(s.reqs[r].pc).Some?
    ensures var s1 := SetReq(s, r, TimedOutReq(s.reqs[r])); s' == s1 || s' == Charge(s1, s.reqs[r].host, s.reqs[r].pc.i)
  {
  }

  lemma TimedOutBare(q: Req)
    requires Awaited(q.pc).Some? && q.first <= |q.roots|
    ensures var q' := TimedOutReq(q);
            Bare(q'.pc) && q'.tag == q.tag && q'.input == q.input && q'.roots == q.roots && q'.host == q.host && q'.first <= |q'.roots|
  {
  }

  lemma ExpireInv(c: Setup, s: State, r: nat, s': State)
    requires Inv(c, s) && r in s.reqs && TimeoutStep(s, r) == Some(s')
    ensures Inv(c, s')
  {
    var q := s.reqs[r];
    TimedOutMoves(s, r, s');
    assert ReqOk(c, s, r);
    TimedOutBare(q);
    BareInv(c, s, r, TimedOutReq(q));
    ChargeInv(c, SetReq(s, r, TimedOutReq(q)), q.host, q.pc.i);
  }

  // ---- Requests for the AICPU loader ----

  lemma BootFailedInv(c: Setup, s: State, r: nat, i: nat, timedOut: bool)
    requires Inv(c, s) && r in s.reqs && !s.reqs[r].pc.Finished? && i < |s.reqs[r].roots|
    ensures Inv(c, BootFailed(s, r, i, timedOut))
  {
    NextAttemptInv(c, s, r, i, timedOut);
    ChargeInv(c, NextAttempt(s, r, i, timedOut), s.reqs[r].host, i);
  }

  lemma NewReqOk(c: Setup, s: State, host: nat, roots: seq<Root>, tag: bytes, x: Subject, load: bool)
    requires x.Loader? ==> tag == LOADER_TAG
    ensures ReqOk(c, AddReq(s, NewReq(host, roots, tag, x, load)), s.next) && Held(NewReq(host, roots, tag, x, load).pc) == None
  {
  }

  lemma AddedUndisturbed(c: Setup, s: State, q: Req, r: nat)
    requires Inv(c, s) && r in s.reqs
    ensures r != s.next && ReqOk(c, AddReq(s, q), r)
  {
    assert ReqOk(c, s, r);
    SameTouchers(s, AddReq(s, q));
    UndisturbedOk(c, s, AddReq(s, q), r);
  }

  /** A new request holds nothing. */
  lemma AddReqInv(c: Setup, s: State, host: nat, roots: seq<Root>, tag: bytes, x: Subject, load: bool)
    requires Inv(c, s) && (x.Loader? ==> tag == LOADER_TAG)
    ensures Inv(c, AddReq(s, NewReq(host, roots, tag, x, load)))
  {
    var q := NewReq(host, roots, tag, x, load);
    var s' := AddReq(s, q);
    SameJobsOk(c, s, s');
    NewReqOk(c, s, host, roots, tag, x, load);
    forall r | r in s.reqs
      ensures r != s.next && ReqOk(c, s', r)
    {
      AddedUndisturbed(c, s, q, r);
    }
  }

  lemma NextIsFree(c: Setup, s: State)
    requires Inv(c, s)
    ensures s.next !in s.reqs
  {
    forall r | r in s.reqs
      ensures r != s.next
    {
      assert ReqOk(c, s, r);
    }
  }

  lemma BootInv(c: Setup, s: State, r: nat, s': State)
    requires Inv(c, s) && r in s.reqs && BootStep(c, s, r) == Some(s')
    ensures Inv(c, s')
  {
    var q := s.reqs[r];
    assert ReqOk(c, s, r);
    var s1 := SetPc(s, r, Booting(q.pc.i, s.next));
    OnlyReqInv(c, s, s1, r);
    AddReqInv(c, s1, q.host, q.roots, LOADER_TAG, Loader(c.loader(q.host).value), false);
  }

  lemma DeployInv(c: Setup, s: State, r: nat, ok: bool, s': State)
    requires Inv(c, s) && r in s.reqs && DeployStep(s, r, ok) == Some(s')
    ensures Inv(c, s')
  {
    assert ReqOk(c, s, r);
    if ok {
      OnlyReqInv(c, s, s', r);
    } else {
      NextAttemptInv(c, s, r, s.reqs[r].pc.i, false);
    }
  }

  lemma OwnStepInv(c: Setup, s: State, r: nat, s': State)
    requires Inv(c, s) && r in s.reqs && !s.reqs[r].pc.Finished? && s.reqs[r].pc.i < |s.reqs[r].roots|
    requires OwnStep(c, s, r) == Some(s')
    ensures Inv(c, s')
  {
    match s.reqs[r].pc {
      case Building(i, u, rest) => BuildInv(c, s, r, i, u, rest);
      case Loading(i) => StartLoadInv(c, s, r, i);
      case Aicpu(i) =>
        assert ReqOk(c, s, r);
        OnlyReqInv(c, s, s', r);
      case Booting(i, child) => BootFailedInv(c, s, r, i, s.reqs[child].pc.answer.timedOut);
      case Opening(i) => OpenInv(c, s, r, i);
      case Dropping(i, u) => DropInv(c, s, r, i, u);
      case _ =>
    }
  }

  lemma AdvanceInv(c: Setup, s: State, r: nat, s': State)
    requires Inv(c, s) && r in s.reqs && ReqStep(c, s, r) == Some(s')
    ensures Inv(c, s')
  {
    var pc := s.reqs[r].pc;
    if Awaited(pc).Some? {
      assert ReqOk(c, s, r);
      AnsweredInv(c, s, r, s.jobs[Awaited(pc).value].work.result);
    } else if pc.Probing? {
      LookupInv(c, s, r, pc.i);
    } else if pc.Placing? {
      PlaceInv(c, s, r, pc.i);
    } else {
      OwnStepInv(c, s, r, s');
    }
  }

  // ---- Steps of a job ----

  /** s' is s after job j moved to work w, changing at most the directory it touches. */
  ghost predicate JobMoved(s: State, s': State, j: nat, w: Work) {
    && j in s.jobs && s'.jobs == s.jobs[j := s.jobs[j].(work := w)]
    && s'.reqs == s.reqs && s'.next == s.next
    && (Touches(w) == None || Touches(w) == Touches(s.jobs[j].work))
    && SlotsKept(s, s')
    && (forall v :: v in s.images && Touches(s.jobs[j].work) != Some(v) ==> v in s'.images && s'.images[v] == s.images[v])
    && (forall v: nat :: Published(s', v) ==> Published(s, v) || (Touches(s.jobs[j].work) == Some(v) && Touches(w) == None))
  }

  lemma MovedTouchers(s: State, s': State, j: nat, w: Work)
    requires JobMoved(s, s', j, w)
    ensures forall j': nat, u: nat :: Toucher(s', j', u) ==> Toucher(s, j', u)
  {
  }

  lemma JobMovedJobsOk(c: Setup, s: State, s': State, j: nat, w: Work)
    requires Inv(c, s) && JobMoved(s, s', j, w)
    requires w.Commit? ==> CommitOk(c, s', s.jobs[j].root, w.u, w.tag, w.input, w.phase)
    ensures JobsOk(c, s')
  {
    MovedTouchers(s, s', j, w);
    forall j': nat, u: nat | Toucher(s', j', u)
      ensures u < s'.next && !Published(s', u)
    {
      assert Toucher(s, j', u);
      if Published(s', u) {
        assert Toucher(s, j, u);
      }
    }
    forall j' | j' in s'.jobs && s'.jobs[j'].work.Commit? && j' != j
      ensures var w' := s'.jobs[j'].work; CommitOk(c, s', s'.jobs[j'].root, w'.u, w'.tag, w'.input, w'.phase)
    {
      var w' := s.jobs[j'].work;
      assert Toucher(s, j', w'.u);
      assert Touches(s.jobs[j].work) == Some(w'.u) ==> Toucher(s, j, w'.u);
      assert CommitOk(c, s, s.jobs[j'].root, w'.u, w'.tag, w'.input, w'.phase);
    }
  }

  lemma JobMovedOtherReq(c: Setup, s: State, s': State, j: nat, w: Work, r: nat)
    requires Inv(c, s) && JobMoved(s, s', j, w)
    requires r in s.reqs && Awaited(s.reqs[r].pc) != Some(j)
    ensures ReqOk(c, s', r)
  {
    assert ReqOk(c, s, r);
    MovedTouchers(s, s', j, w);
    if Touches(s.jobs[j].work).Some? {
      assert Toucher(s, j, Touches(s.jobs[j].work).value);
    }
    UndisturbedOk(c, s, s', r);
  }

  lemma JobMovedInv(c: Setup, s: State, s': State, j: nat, w: Work)
    requires Inv(c, s) && JobMoved(s, s', j, w) && FsOk(c, s')
    requires w.Commit? ==> CommitOk(c, s', s.jobs[j].root, w.u, w.tag, w.input, w.phase)
    requires forall r :: r in s.reqs && Awaited(s.reqs[r].pc) == Some(j) ==> PcOk(c, s', s.reqs[r])
    ensures Inv(c, s')
  {
    JobMovedJobsOk(c, s, s', j, w);
    forall r | r in s'.reqs
      ensures ReqOk(c, s', r)
    {
      assert ReqOk(c, s, r);
      if Awaited(s.reqs[r].pc) != Some(j) {
        JobMovedOtherReq(c, s, s', j, w, r);
      }
    }
  }

  /** Only the directory u changes, and u is not a cache entry. */
  lemma WriteFsOk(c: Setup, s: State, u: nat, img: Image)
    requires FsOk(c, s) && u in s.images && !Published(s, u)
    ensures FsOk(c, SetImage(s, u, img))
  {
  }

  lemma PrivateWriteMoves(c: Setup, s: State, j: nat, u: nat, img: Image, w: Work)
    requires FsOk(c, s) && Toucher(s, j, u) && u in s.images && !Published(s, u)
    requires Touches(w) == Some(u)
    ensures JobMoved(s, SetWork(SetImage(s, u, img), j, w), j, w)
  {
    forall p: Path | p.Slot? && IsMarked(s, p)
      ensures s.names[p] != u
    {
      assert (Slot(p.root, p.tag, p.digest), s.names[p]) in s.bound;
    }
  }

  /** A job that only reports a result. */
  lemma ResultInv(c: Setup, s: State, j: nat, result: Result)
    requires Inv(c, s) && j in s.jobs && !s.jobs[j].work.Done?
    requires forall r :: r in s.reqs && Awaited(s.reqs[r].pc) == Some(j) ==> PcOk(c, SetWork(s, j, Done(result)), s.reqs[r])
    ensures Inv(c, SetWork(s, j, Done(result)))
  {
    JobMovedInv(c, s, SetWork(s, j, Done(result)), j, Done(result));
  }

  lemma FewerTouchers(s: State, j: nat, result: Result)
    requires j in s.jobs
    ensures var s' := SetWork(s, j, Done(result));
            && (forall j': nat, u: nat :: Toucher(s', j', u) ==> Toucher(s, j', u))
            && (forall u: nat :: Published(s', u) == Published(s, u))
  {
  }

  /** Any unfinished job may fail. */
  lemma FailInv(c: Setup, s: State, j: nat)
    requires Inv(c, s) && j in s.jobs && !s.jobs[j].work.Done?
    ensures Inv(c, SetWork(s, j, Done(Failed)))
  {
    var s' := SetWork(s, j, Done(Failed));
    FewerTouchers(s, j, Failed);
    forall r | r in s.reqs && Awaited(s.reqs[r].pc) == Some(j)
      ensures PcOk(c, s', s.reqs[r])
    {
      assert ReqOk(c, s, r);
    }
    ResultInv(c, s, j, Failed);
  }

  lemma ProbeInv(c: Setup, s: State, j: nat, slot: Path)
    requires Inv(c, s) && j in s.jobs && s.jobs[j].work == Probe(slot)
    ensures Inv(c, SetWork(s, j, Done(if IsMarked(s, slot) then Hit else Miss)))
  {
    var result := if IsMarked(s, slot) then Hit else Miss;
    forall r | r in s.reqs && Awaited(s.reqs[r].pc) == Some(j)
      ensures PcOk(c, SetWork(s, j, Done(result)), s.reqs[r])
    {
      assert ReqOk(c, s, r);
    }
    ResultInv(c, s, j, result);
  }

  lemma CheckInv(c: Setup, s: State, j: nat, slot: Path, file: Rel)
    requires Inv(c, s) && j in s.jobs && s.jobs[j].work == Check(slot, file)
    ensures Inv(c, SetWork(s, j, Done(if HasFile(s, slot, file) then Good else Miss)))
  {
    var result := if HasFile(s, slot, file) then Good else Miss;
    forall r | r in s.reqs && Awaited(s.reqs[r].pc) == Some(j)
      ensures PcOk(c, SetWork(s, j, Done(result)), s.reqs[r])
    {
      assert ReqOk(c, s, r);
    }
    ResultInv(c, s, j, result);
  }

  lemma LoadInv(c: Setup, s: State, j: nat, slot: Path)
    requires Inv(c, s) && j in s.jobs && s.jobs[j].work == Load(slot) && Loaded(c, s, slot).Some?
    ensures Inv(c, SetWork(s, j, Done(Read(Loaded(c, s, slot).value))))
  {
    var result := Read(Loaded(c, s, slot).value);
    forall r | r in s.reqs && Awaited(s.reqs[r].pc) == Some(j)
      ensures PcOk(c, SetWork(s, j, Done(result)), s.reqs[r])
    {
      assert ReqOk(c, s, r);
    }
    ResultInv(c, s, j, result);
  }

  lemma MakeTempInv(c: Setup, s: State, j: nat, u: nat)
    requires Inv(c, s) && j in s.jobs && s.jobs[j].work == MakeTemp(u)
    ensures Inv(c, MakeTempStep(s, j, u))
  {
    var s' := MakeTempStep(s, j, u);
    assert Toucher(s, j, u);
    MakeTempMoves(c, s, j, u);
    MovedTouchers(s, s', j, Done(Good));
    forall r | r in s.reqs && Awaited(s.reqs[r].pc) == Some(j)
      ensures PcOk(c, s', s.reqs[r])
    {
      assert ReqOk(c, s, r);
    }
    JobMovedInv(c, s, s', j, Done(Good));
  }

  lemma MakeTempMoves(c: Setup, s: State, j: nat, u: nat)
    requires FsOk(c, s) && Toucher(s, j, u) && u < s.next && !Published(s, u)
    ensures var s' := MakeTempStep(s, j, u);
            JobMoved(s, s', j, Done(Good)) && FsOk(c, s') && (Published(s', u) == Published(s, u))
  {
    var s' := MakeTempStep(s, j, u);
    assert forall v: nat :: Published(s', v) ==> Published(s, v);
    forall p: Path | p.Slot? && IsMarked(s, p)
      ensures IsMarked(s', p)
    {
      assert (Slot(p.root, p.tag, p.digest), s.names[p]) in s.bound;
    }
  }

  /** The temporary path of a directory leads to that directory. */
  lemma TmpLeadsHome(c: Setup, s: State, root: Root, u: nat)
    requires FsOk(c, s) && TmpBound(s, root, u)
    ensures s.names[Tmp(root, u)] == u
  {
  }

  lemma StageTrack(c: Setup, s: State, u: nat, x: Subject, ops: seq<Op>, rest: seq<Op>)
    requires OnTrack(c, s, u, x, ops + rest) && ops != []
    ensures Fits(s.images[u], ops[0]) ==>
              OnTrack(c, SetImage(s, u, ArtifactImage.Perform(s.images[u], ops[0])), u, x, ops[1..] + rest)
  {
    assert (ops + rest)[0] == ops[0] && (ops + rest)[1..] == ops[1..] + rest;
    PerformIsOutcomeStep(s.images[u], ops + rest);
    if Fits(s.images[u], ops[0]) {
      PerformKeepsWellFormed(s.images[u], ops[0]);
    }
  }

  lemma PerformOpInv(c: Setup, s: State, j: nat, u: nat, kind: Kind, ops: seq<Op>)
    requires Inv(c, s) && j in s.jobs && s.jobs[j].work == Perform(u, kind, ops)
    requires u in s.images && ops != [] && Fits(s.images[u], ops[0])
    ensures Inv(c, SetWork(SetImage(s, u, ArtifactImage.Perform(s.images[u], ops[0])), j, Perform(u, kind, ops[1..])))
  {
    var img := ArtifactImage.Perform(s.images[u], ops[0]);
    var w := Perform(u, kind, ops[1..]);
    var s' := SetWork(SetImage(s, u, img), j, w);
    assert Toucher(s, j, u);
    WriteFsOk(c, s, u, img);
    PrivateWriteMoves(c, s, j, u, img, w);
    MovedTouchers(s, s', j, w);
    forall r | r in s.reqs && Awaited(s.reqs[r].pc) == Some(j)
      ensures PcOk(c, s', s.reqs[r])
    {
      assert ReqOk(c, s, r);
      var q := s.reqs[r];
      if q.pc.StageWait? {
        StageTrack(c, s, u, q.input, ops, AllOps(q.pc.rest));
      }
    }
    JobMovedInv(c, s, s', j, w);
  }

  lemma PerformDoneInv(c: Setup, s: State, j: nat, u: nat, kind: Kind)
    requires Inv(c, s) && j in s.jobs && s.jobs[j].work == Perform(u, kind, [])
    ensures Inv(c, SetWork(s, j, Done(Good)))
  {
    FewerTouchers(s, j, Good);
    forall r | r in s.reqs && Awaited(s.reqs[r].pc) == Some(j)
      ensures PcOk(c, SetWork(s, j, Done(Good)), s.reqs[r])
    {
      assert ReqOk(c, s, r);
      if s.reqs[r].pc.StageWait? {
        assert [] + AllOps(s.reqs[r].pc.rest) == AllOps(s.reqs[r].pc.rest);
      }
    }
    ResultInv(c, s, j, Good);
  }

  lemma PerformStepInv(c: Setup, s: State, j: nat, u: nat, kind: Kind, ops: seq<Op>)
    requires Inv(c, s) && j in s.jobs && s.jobs[j].work == Perform(u, kind, ops) && TmpBound(s, s.jobs[j].root, u)
    ensures Inv(c, PerformStep(s, j, u, kind, ops))
  {
    TmpLeadsHome(c, s, s.jobs[j].root, u);
    if ops == [] {
      PerformDoneInv(c, s, j, u, kind);
    } else if Fits(s.images[u], ops[0]) {
      PerformOpInv(c, s, j, u, kind, ops);
    } else {
      FailInv(c, s, j);
    }
  }
}
