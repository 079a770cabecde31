/** What holds in every run of the disk-cache protocol, with any number of processes, requests and
    crashes: cache entries are complete and permanent, and temporary directories have one owner. */
module PublicationRuns {
  import opened Bytes
  import opened ArtifactImage
  import opened CacheKey
  import opened Publication
  import opened PublicationSafety
  import opened PublicationCommit

  // ---- Runs ----

  /** A run: the states before and after each action. */
  ghost predicate Run(c: Setup, run: seq<State>, acts: seq<Action>) {
    && |run| == |acts| + 1
    && Init(c, run[0])
    && forall k: nat :: k < |acts| ==> Step(c, run[k], acts[k], run[k + 1])
  }

  ghost predicate Step(c: Setup, s: State, a: Action, s': State) { Apply(c, s, a) == Some(s') }

  lemma KilledFewer(s: State, h: nat)
    ensures forall j: nat, u: nat :: Toucher(Killed(s, h), j, u) ==> Toucher(s, j, u)
    ensures forall u: nat :: Published(Killed(s, h), u) == Published(s, u)
  {
  }

  lemma KilledUndisturbed(c: Setup, s: State, h: nat, r: nat)
    requires Inv(c, s) && r in Killed(s, h).reqs
    ensures ReqOk(c, Killed(s, h), r)
  {
    KilledFewer(s, h);
    assert ReqOk(c, s, r);
    UndisturbedOk(c, s, Killed(s, h), r);
  }

  lemma KillInv(c: Setup, s: State, h: nat)
    requires Inv(c, s)
    ensures Inv(c, Killed(s, h))
  {
    KilledFewer(s, h);
    forall r | r in Killed(s, h).reqs
      ensures ReqOk(c, Killed(s, h), r)
    {
      KilledUndisturbed(c, s, h, r);
    }
  }

  lemma CrashKeepsEntry(c: Setup, before: Image, after: Image, digest: bytes)
    requires Complete(c, before, digest) || Foreign(before)
    requires Survives(before, after)
    ensures after.nodes == before.nodes && (Complete(c, after, digest) || Foreign(after))
  {
    DurableSurvives(before, after);
    if Complete(c, before, digest) {
      var x, u :| BuiltBy(c, before, digest, x, u);
      assert BuiltBy(c, after, digest, x, u);
    }
  }

  lemma CrashInv(c: Setup, s: State, names: map<Path, nat>, images: map<nat, Image>)
    requires Inv(c, s) && CrashLeaves(s, names, images)
    ensures Inv(c, State(names, images, s.bound, s.next, map[], map[], map[], {}))
  {
    var s' := State(names, images, s.bound, s.next, map[], map[], map[], {});
    forall root: Root, tag: bytes, digest: bytes, u: nat | (Slot(root, tag, digest), u) in s'.bound
      ensures Complete(c, s'.images[u], digest) || Foreign(s'.images[u])
    {
      CrashKeepsEntry(c, s.images[u], images[u], digest);
    }
  }

  /** In the crash of one machine the directories of cache entries stay as they are. */
  ghost predicate SameContents(s: State, s': State, u: nat) {
    u in s.images && u in s'.images && s'.images[u].nodes == s.images[u].nodes
  }

  lemma RebootKeepsEntry(c: Setup, s: State, hosts: set<nat>, images: map<nat, Image>, root: Root, tag: bytes, digest: bytes, u: nat)
    requires FsOk(c, s) && RebootLeaves(s, hosts, images) && (Slot(root, tag, digest), u) in s.bound
    ensures (Complete(c, images[u], digest) || Foreign(images[u])) && SameContents(s, Rebooted(s, hosts, images), u)
  {
    assert Complete(c, s.images[u], digest) || Foreign(s.images[u]);
    if images[u] != s.images[u] {
      CrashKeepsEntry(c, s.images[u], images[u], digest);
    }
  }

  lemma RebootSlotsKept(c: Setup, s: State, hosts: set<nat>, images: map<nat, Image>)
    requires FsOk(c, s) && RebootLeaves(s, hosts, images)
    ensures SlotsKept(s, Rebooted(s, hosts, images))
    ensures forall u: nat :: Published(s, u) ==> SameContents(s, Rebooted(s, hosts, images), u)
  {
    forall root: Root, tag: bytes, digest: bytes, u: nat | (Slot(root, tag, digest), u) in s.bound
      ensures SameContents(s, Rebooted(s, hosts, images), u)
    {
      RebootKeepsEntry(c, s, hosts, images, root, tag, digest, u);
    }
    forall p: Path | p.Slot? && IsMarked(s, p)
      ensures SameContents(s, Rebooted(s, hosts, images), s.names[p])
    {
      RebootKeepsEntry(c, s, hosts, images, p.root, p.tag, p.digest, s.names[p]);
    }
  }

  lemma RebootFsOk(c: Setup, s: State, hosts: set<nat>, images: map<nat, Image>)
    requires FsOk(c, s) && RebootLeaves(s, hosts, images)
    ensures FsOk(c, Rebooted(s, hosts, images))
  {
    forall root: Root, tag: bytes, digest: bytes, u: nat | (Slot(root, tag, digest), u) in s.bound
      ensures Complete(c, images[u], digest) || Foreign(images[u])
    {
      RebootKeepsEntry(c, s, hosts, images, root, tag, digest, u);
    }
  }

  lemma RebootJobsOk(c: Setup, s: State, hosts: set<nat>, images: map<nat, Image>)
    requires FsOk(c, s) && JobsOk(c, s) && RebootLeaves(s, hosts, images) && SlotsKept(s, Rebooted(s, hosts, images))
    ensures JobsOk(c, Rebooted(s, hosts, images))
    ensures forall j: nat, u: nat :: Toucher(Rebooted(s, hosts, images), j, u) ==> Toucher(s, j, u)
    ensures forall u: nat :: Published(Rebooted(s, hosts, images), u) == Published(s, u)
  {
    var s' := Rebooted(s, hosts, images);
    assert forall j: nat, u: nat :: Toucher(s', j, u) ==> Toucher(s, j, u);
    assert forall u: nat :: Published(s', u) == Published(s, u);
    forall j | j in s'.jobs && s'.jobs[j].work.Commit?
      ensures var w := s'.jobs[j].work; CommitOk(c, s', s'.jobs[j].root, w.u, w.tag, w.input, w.phase)
    {
      assert InUse(s, hosts, s.jobs[j].work.u);
    }
  }

  lemma RebootInv(c: Setup, s: State, hosts: set<nat>, images: map<nat, Image>)
    requires Inv(c, s) && RebootLeaves(s, hosts, images)
    ensures Inv(c, Rebooted(s, hosts, images))
  {
    var s' := Rebooted(s, hosts, images);
    RebootFsOk(c, s, hosts, images);
    RebootSlotsKept(c, s, hosts, images);
    RebootJobsOk(c, s, hosts, images);
    forall r | r in s'.reqs
      ensures ReqOk(c, s', r)
    {
      assert ReqOk(c, s, r);
      assert Held(s.reqs[r].pc).Some? ==> InUse(s, hosts, Held(s.reqs[r].pc).value);
      UndisturbedOk(c, s, s', r);
    }
  }

  lemma StepInv(c: Setup, s: State, a: Action, s': State)
    requires Inv(c, s) && Step(c, s, a, s')
    ensures Inv(c, s')
  {
    match a {
      case Submit(h, roots, tag, x, load) => AddReqInv(c, s, h, roots, tag, Kernel(x), load);
      case Advance(r) => AdvanceInv(c, s, r, s');
      case Expire(r) => ExpireInv(c, s, r, s');
      case Boot(r) => BootInv(c, s, r, s');
      case Deploy(r, ok) => DeployInv(c, s, r, ok, s');
      case Work(j, choice) => WorkInv(c, s, j, choice);
      case Kill(h) => KillInv(c, s, h);
      case Reboot(hosts, images) => RebootInv(c, s, hosts, images);
      case Crash(names, images) => CrashInv(c, s, names, images);
    }
  }

  lemma {:induction false} RunInv(c: Setup, run: seq<State>, acts: seq<Action>, k: nat)
    requires Run(c, run, acts) && k < |run|
    ensures Inv(c, run[k])
  {
    if k == 0 {
      InitInv(c, run[0]);
    } else {
      RunInv(c, run, acts, k - 1);
      StepInv(c, run[k - 1], acts[k - 1], run[k]);
    }
  }

  // ---- Atomic publication ----

  /** Entries keep their directories, and the directories their contents and durability. */
  ghost predicate EntriesKept(s: State, s': State) {
    && (forall p: Path :: p.Slot? && IsMarked(s, p) ==> p in s'.names && s'.names[p] == s.names[p])
    && (forall u: nat :: Published(s, u) && u in s.images ==> SameContents(s, s', u))
  }

  ghost predicate SameDisk(s: State, s': State) {
    s'.names == s.names && s'.images == s.images && s'.bound == s.bound
  }

  lemma SameDiskKeeps(s: State, s': State)
    requires SameDisk(s, s')
    ensures EntriesKept(s, s') && forall u: nat :: Published(s', u) == Published(s, u)
  {
  }

  lemma LoadSameDisk(c: Setup, s: State, r: nat, i: nat)
    requires r in s.reqs && i < |s.reqs[r].roots|
    ensures SameDisk(s, Open(c, s, r, i)) && SameDisk(s, StartLoad(c, s, r, i))
  {
  }

  lemma BuildSameDisk(s: State, r: nat, i: nat, u: nat, rest: seq<Stage>)
    requires r in s.reqs && i < |s.reqs[r].roots|
    ensures SameDisk(s, Build(s, r, i, u, rest)) && SameDisk(s, Drop(s, r, i, u))
  {
  }

  lemma OwnStepSameDisk(c: Setup, s: State, r: nat, s': State)
    requires r in s.reqs && !s.reqs[r].pc.Finished? && s.reqs[r].pc.i < |s.reqs[r].roots| && OwnStep(c, s, r) == Some(s')
    ensures SameDisk(s, s')
  {
    match s.reqs[r].pc {
      case Building(i, u, rest) => BuildSameDisk(s, r, i, u, rest);
      case Dropping(i, u) => BuildSameDisk(s, r, i, u, []);
      case Loading(i) => LoadSameDisk(c, s, r, i);
      case Opening(i) => LoadSameDisk(c, s, r, i);
      case _ =>
    }
  }

  lemma AdvanceSameDisk(c: Setup, s: State, r: nat, s': State)
    requires r in s.reqs && ReqStep(c, s, r) == Some(s')
    ensures SameDisk(s, s')
  {
    var pc := s.reqs[r].pc;
    if Awaited(pc) == None && !pc.Probing? && !pc.Placing? {
      OwnStepSameDisk(c, s, r, s');
    }
  }

  lemma BootSameDisk(c: Setup, s: State, a: Action, s': State)
    requires Step(c, s, a, s') && (a.Boot? || a.Deploy?)
    ensures SameDisk(s, s')
  {
  }

  lemma ExpireSameDisk(s: State, r: nat, s': State)
    requires r in s.reqs && TimeoutStep(s, r) == Some(s')
    ensures SameDisk(s, s')
  {
    TimedOutMoves(s, r, s');
  }

  lemma RemovalKeepsEntries(c: Setup, s: State, j: nat, u: nat, choice: Choice)
    requires FsOk(c, s) && j in s.jobs && !Published(s, u)
    ensures EntriesKept(s, RemoveStep(s, j, u, choice)) && RemoveStep(s, j, u, choice).bound == s.bound
  {
    var root := s.jobs[j].root;
    if TmpBound(s, root, u) {
      TmpLeadsHome(c, s, root, u);
    }
  }

  lemma RenamePublishesOne(c: Setup, s: State, j: nat, u: nat, tag: bytes, x: Subject, v: nat)
    requires FsOk(c, s) && j in s.jobs && TmpBound(s, s.jobs[j].root, u)
    ensures Published(RenameStep(c, s, j, u, tag, x), v) ==> v == u || Published(s, v)
  {
    TmpLeadsHome(c, s, s.jobs[j].root, u);
  }

  lemma RenameKeepsEntries(c: Setup, s: State, j: nat, u: nat, tag: bytes, x: Subject)
    requires FsOk(c, s) && j in s.jobs && TmpBound(s, s.jobs[j].root, u)
    ensures EntriesKept(s, RenameStep(c, s, j, u, tag, x)) && s.bound <= RenameStep(c, s, j, u, tag, x).bound
  {
    TmpLeadsHome(c, s, s.jobs[j].root, u);
  }

  lemma PrepareKeepsEntries(c: Setup, s: State, j: nat, u: nat, tag: bytes, x: Subject, phase: Phase, choice: Choice, s': State)
    requires FsOk(c, s) && j in s.jobs && TmpBound(s, s.jobs[j].root, u) && !Published(s, u)
    requires PrepareStep(s, j, u, tag, x, phase, choice) == Some(s')
    ensures EntriesKept(s, s') && s'.bound == s.bound
  {
    TmpLeadsHome(c, s, s.jobs[j].root, u);
  }

  lemma PerformKeepsEntries(c: Setup, s: State, j: nat, u: nat, kind: Kind, ops: seq<Op>)
    requires FsOk(c, s) && j in s.jobs && TmpBound(s, s.jobs[j].root, u) && !Published(s, u)
    ensures EntriesKept(s, PerformStep(s, j, u, kind, ops)) && PerformStep(s, j, u, kind, ops).bound == s.bound
  {
    TmpLeadsHome(c, s, s.jobs[j].root, u);
  }

  /** The rename of a commit, the one step that makes a directory an entry. */
  ghost predicate Renames(s: State, a: Action, u: nat) {
    && a.Work? && a.j in s.jobs && s.jobs[a.j].work.Commit? && s.jobs[a.j].work.u == u
    && s.jobs[a.j].work.phase.Rename?
  }

  lemma MakeTempKeepsEntries(c: Setup, s: State, j: nat, u: nat)
    requires FsOk(c, s) && j in s.jobs && !Published(s, u)
    ensures EntriesKept(s, MakeTempStep(s, j, u))
    ensures forall v: nat :: Published(MakeTempStep(s, j, u), v) == Published(s, v)
  {
    forall p: Path | p.Slot? && IsMarked(s, p)
      ensures s.names[p] != u
    {
      assert (Slot(p.root, p.tag, p.digest), s.names[p]) in s.bound;
    }
  }

  lemma CommitKeepsEntries(c: Setup, s: State, j: nat, u: nat, tag: bytes, x: Subject, phase: Phase, choice: Choice, s': State, v: nat)
    requires FsOk(c, s) && j in s.jobs && s.jobs[j].work == Commit(u, tag, x, phase) && !Published(s, u)
    requires CommitStep(c, s, j, u, tag, x, phase, choice) == Some(s')
    ensures EntriesKept(s, s')
    ensures Published(s', v) ==> Published(s, v) || (v == u && phase.Rename?)
  {
    if phase.CleanUp? {
      RemovalKeepsEntries(c, s, j, u, choice);
    } else if choice.GiveUp? || !TmpBound(s, s.jobs[j].root, u) {
      SameDiskKeeps(s, s');
    } else if phase.Rename? {
      RenameKeepsEntries(c, s, j, u, tag, x);
      RenamePublishesOne(c, s, j, u, tag, x, v);
    } else {
      PrepareKeepsEntries(c, s, j, u, tag, x, phase, choice, s');
    }
  }

  /** An action that leaves the disk alone, as every one does that is neither a job's nor a crash. */
  lemma OthersKeepDisk(c: Setup, s: State, a: Action, s': State)
    requires Step(c, s, a, s') && !a.Work? && !a.Reboot? && !a.Crash?
    ensures SameDisk(s, s')
  {
    match a {
      case Advance(r) => AdvanceSameDisk(c, s, r, s');
      case Expire(r) => ExpireSameDisk(s, r, s');
      case Boot(_) => BootSameDisk(c, s, a, s');
      case Deploy(_, _) => BootSameDisk(c, s, a, s');
      case _ =>
    }
  }

  /** A lookup, a load, or an operation that fails. */
  lemma ReadersKeepDisk(c: Setup, s: State, j: nat, choice: Choice, s': State)
    requires j in s.jobs && JobStep(c, s, j, choice) == Some(s')
    requires var w := s.jobs[j].work;
             w.Probe? || w.Check? || w.Load? || (choice.GiveUp? && (w.MakeTemp? || w.Perform?)) || (w.Perform? && !TmpBound(s, s.jobs[j].root, w.u))
    ensures SameDisk(s, s')
  {
  }

  lemma BuildersKeepEntries(c: Setup, s: State, j: nat, choice: Choice, s': State, v: nat)
    requires FsOk(c, s) && j in s.jobs && JobStep(c, s, j, choice) == Some(s')
    requires s.jobs[j].work.MakeTemp? || s.jobs[j].work.Perform?
    requires !Published(s, s.jobs[j].work.u)
    ensures EntriesKept(s, s') && (Published(s', v) ==> Published(s, v))
  {
    var w := s.jobs[j].work;
    if choice.GiveUp? || (w.Perform? && !TmpBound(s, s.jobs[j].root, w.u)) {
      ReadersKeepDisk(c, s, j, choice, s');
      SameDiskKeeps(s, s');
    } else if w.Perform? {
      PerformKeepsEntries(c, s, j, w.u, w.kind, w.ops);
    } else {
      MakeTempKeepsEntries(c, s, j, w.u);
    }
  }

  lemma JobsKeepEntries(c: Setup, s: State, j: nat, choice: Choice, s': State, v: nat)
    requires Inv(c, s) && j in s.jobs && JobStep(c, s, j, choice) == Some(s')
    ensures EntriesKept(s, s')
    ensures Published(s', v) ==> Published(s, v) || Renames(s, Action.Work(j, choice), v)
  {
    var w := s.jobs[j].work;
    assert Touches(w).Some? ==> Toucher(s, j, Touches(w).value);
    if w.Commit? {
      CommitKeepsEntries(c, s, j, w.u, w.tag, w.input, w.phase, choice, s', v);
    } else if w.Remove? {
      RemovalKeepsEntries(c, s, j, w.u, choice);
    } else if w.MakeTemp? || w.Perform? {
      BuildersKeepEntries(c, s, j, choice, s', v);
    } else {
      ReadersKeepDisk(c, s, j, choice, s');
      SameDiskKeeps(s, s');
    }
  }

  /** A step that is not a crash of all machines keeps every entry, and makes an entry only by a commit's rename. */
  lemma StepKeepsEntries(c: Setup, s: State, a: Action, s': State, v: nat)
    requires Inv(c, s) && Step(c, s, a, s') && !a.Crash?
    ensures EntriesKept(s, s')
    ensures Published(s', v) ==> Published(s, v) || Renames(s, a, v)
  {
    if a.Work? {
      JobsKeepEntries(c, s, a.j, a.choice, s', v);
    } else if a.Reboot? {
      RebootSlotsKept(c, s, a.hosts, a.images);
    } else {
      OthersKeepDisk(c, s, a, s');
      SameDiskKeeps(s, s');
    }
  }

  lemma CommitBoundStays(c: Setup, s: State, j: nat, choice: Choice, s': State)
    requires Inv(c, s) && j in s.jobs && s.jobs[j].work.Commit? && JobStep(c, s, j, choice) == Some(s')
    ensures s.bound <= s'.bound
  {
    var w := s.jobs[j].work;
    assert Toucher(s, j, w.u);
    if w.phase.CleanUp? {
      RemovalKeepsEntries(c, s, j, w.u, choice);
    } else if choice.GiveUp? || !TmpBound(s, s.jobs[j].root, w.u) {
    } else if w.phase.Rename? {
      RenameKeepsEntries(c, s, j, w.u, w.tag, w.input);
    } else {
      PrepareKeepsEntries(c, s, j, w.u, w.tag, w.input, w.phase, choice, s');
    }
  }

  lemma JobBoundStays(c: Setup, s: State, j: nat, choice: Choice, s': State)
    requires Inv(c, s) && j in s.jobs && JobStep(c, s, j, choice) == Some(s')
    ensures s.bound <= s'.bound
  {
    var w := s.jobs[j].work;
    assert Touches(w).Some? ==> Toucher(s, j, Touches(w).value);
    if w.Commit? {
      CommitBoundStays(c, s, j, choice, s');
    } else if w.Remove? {
      RemovalKeepsEntries(c, s, j, w.u, choice);
    } else if w.Perform? && !choice.GiveUp? && TmpBound(s, s.jobs[j].root, w.u) {
      PerformKeepsEntries(c, s, j, w.u, w.kind, w.ops);
    } else if !w.MakeTemp? || choice.GiveUp? {
      ReadersKeepDisk(c, s, j, choice, s');
    }
  }

  lemma BoundStays(c: Setup, s: State, a: Action, s': State)
    requires Inv(c, s) && Step(c, s, a, s')
    ensures s.bound <= s'.bound
  {
    if a.Work? {
      JobBoundStays(c, s, a.j, a.choice, s');
    } else if !a.Reboot? && !a.Crash? {
      OthersKeepDisk(c, s, a, s');
    }
  }

  /** No step at all changes the contents of a directory that is an entry. */
  lemma ContentsStay(c: Setup, s: State, a: Action, s': State, u: nat)
    requires Inv(c, s) && Step(c, s, a, s') && Published(s, u)
    ensures u in s.images && u in s'.images && s'.images[u].nodes == s.images[u].nodes && Published(s', u)
  {
    BoundStays(c, s, a, s');
    var root: Root, tag: bytes, digest: bytes :| (Slot(root, tag, digest), u) in s.bound;
    assert (Slot(root, tag, digest), u) in s'.bound;
    if a.Crash? {
      CrashKeepsEntry(c, s.images[u], a.images[u], digest);
    } else {
      StepKeepsEntries(c, s, a, s', u);
    }
  }

  /** In every reachable state a directory that bears the marker under a cache entry's name is the whole
      file set of one build for an input with that digest, plus the marker, and all of it is durable. */
  lemma EntryIsComplete(c: Setup, run: seq<State>, acts: seq<Action>, k: nat, root: Root, tag: bytes, digest: bytes)
    requires Run(c, run, acts) && k < |run| && IsMarked(run[k], Slot(root, tag, digest))
    ensures Complete(c, run[k].images[run[k].names[Slot(root, tag, digest)]], digest)
  {
    RunInv(c, run, acts, k);
    var slot := Slot(root, tag, digest);
    assert (slot, run[k].names[slot]) in run[k].bound;
  }

  /** Directory u has been an entry, with these contents. */
  ghost predicate Holds(s: State, u: nat, nodes: map<Rel, Node>) {
    Published(s, u) && u in s.images && s.images[u].nodes == nodes
  }

  ghost predicate Named(s: State, slot: Path, u: nat) { IsMarked(s, slot) && s.names[slot] == u }

  lemma NamedHolds(c: Setup, s: State, slot: Path)
    requires Inv(c, s) && slot.Slot? && IsMarked(s, slot)
    ensures Holds(s, s.names[slot], s.images[s.names[slot]].nodes)
  {
    assert (Slot(slot.root, slot.tag, slot.digest), s.names[slot]) in s.bound;
  }

  lemma EntryStays(c: Setup, s: State, a: Action, s': State, slot: Path, u: nat, nodes: map<Rel, Node>)
    requires Inv(c, s) && Step(c, s, a, s') && slot.Slot? && Holds(s, u, nodes)
    ensures Holds(s', u, nodes)
    ensures Named(s, slot, u) && !a.Crash? ==> Named(s', slot, u)
  {
    ContentsStay(c, s, a, s', u);
    if !a.Crash? {
      StepKeepsEntries(c, s, a, s', u);
    }
  }

  lemma EntryStaysInRun(c: Setup, run: seq<State>, acts: seq<Action>, k: nat, slot: Path, u: nat, nodes: map<Rel, Node>)
    requires Run(c, run, acts) && k < |acts| && slot.Slot? && Holds(run[k], u, nodes)
    ensures Holds(run[k + 1], u, nodes)
    ensures Named(run[k], slot, u) && !acts[k].Crash? ==> Named(run[k + 1], slot, u)
  {
    RunInv(c, run, acts, k);
    assert Step(c, run[k], acts[k], run[k + 1]);
    EntryStays(c, run[k], acts[k], run[k + 1], slot, u, nodes);
  }

  /** Once a directory is an entry no later step changes its contents, crashes included; and until a
      crash of all machines the entry's name leads to it. */
  lemma {:induction false} EntryIsForever(c: Setup, run: seq<State>, acts: seq<Action>, i: nat, k: nat, slot: Path)
    requires Run(c, run, acts) && i <= k < |run| && slot.Slot? && IsMarked(run[i], slot)
    ensures Holds(run[k], run[i].names[slot], run[i].images[run[i].names[slot]].nodes)
    ensures (forall m :: i <= m < k ==> !acts[m].Crash?) ==> Named(run[k], slot, run[i].names[slot])
  {
    if i == k {
      RunInv(c, run, acts, i);
      NamedHolds(c, run[i], slot);
    } else {
      EntryIsForever(c, run, acts, i, k - 1, slot);
      EntryStaysInRun(c, run, acts, k - 1, slot, run[i].names[slot], run[i].images[run[i].names[slot]].nodes);
    }
  }

  lemma CrashKeepsContents(c: Setup, run: seq<State>, acts: seq<Action>, k: nat, slot: Path)
    requires Run(c, run, acts) && k < |acts| && acts[k].Crash? && slot.Slot? && IsMarked(run[k + 1], slot)
    ensures var u := run[k + 1].names[slot];
            u in run[k].images && u in run[k + 1].images && run[k].images[u].nodes == run[k + 1].images[u].nodes
  {
    RunInv(c, run, acts, k);
    assert Step(c, run[k], acts[k], run[k + 1]);
    var u := run[k + 1].names[slot];
    assert (Slot(slot.root, slot.tag, slot.digest), u) in run[k].bound;
    ContentsStay(c, run[k], acts[k], run[k + 1], u);
  }

  /** After a crash of all machines at any point, an entry that still bears its marker has every file of its
      writer, as it was before the crash, and nothing of it can be lost in a later crash. */
  lemma CrashConsistency(c: Setup, run: seq<State>, acts: seq<Action>, k: nat, slot: Path)
    requires Run(c, run, acts) && k < |acts| && acts[k].Crash? && slot.Slot? && IsMarked(run[k + 1], slot)
    ensures var u := run[k + 1].names[slot];
            && run[k + 1].images[u].Durable() && Complete(c, run[k + 1].images[u], slot.digest)
            && u in run[k].images && run[k].images[u].nodes == run[k + 1].images[u].nodes
  {
    EntryIsComplete(c, run, acts, k + 1, slot.root, slot.tag, slot.digest);
    CrashKeepsContents(c, run, acts, k, slot);
  }

  /** The directory that request r has in hand is as it was. */
  ghost predicate HandUntouched(s: State, s': State, r: nat) {
    && r in s.reqs && r in s'.reqs && s'.reqs[r] == s.reqs[r]
    && (Held(s.reqs[r].pc).Some? && Held(s.reqs[r].pc).value in s.images ==>
          Held(s.reqs[r].pc).value in s'.images && s'.images[Held(s.reqs[r].pc).value] == s.images[Held(s.reqs[r].pc).value])
  }

  /** When one machine crashes, the cache is the same for all others: each entry is marked after the crash
      exactly if it was before, with the same contents, whatever of the machine's own directories is lost;
      and every request elsewhere goes on with its directory as it was. */
  lemma RebootConsistency(c: Setup, run: seq<State>, acts: seq<Action>, k: nat, slot: Path, r: nat)
    requires Run(c, run, acts) && k < |acts| && acts[k].Reboot? && slot.Slot?
    ensures IsMarked(run[k], slot) <==> IsMarked(run[k + 1], slot)
    ensures slot in run[k].names ==> slot in run[k + 1].names && SameContents(run[k], run[k + 1], run[k].names[slot])
    ensures r in run[k].reqs && run[k].reqs[r].host !in acts[k].hosts ==> HandUntouched(run[k], run[k + 1], r)
  {
    RunInv(c, run, acts, k);
    assert Step(c, run[k], acts[k], run[k + 1]);
    if slot in run[k].names {
      RebootKeepsEntry(c, run[k], acts[k].hosts, acts[k].images, slot.root, slot.tag, slot.digest, run[k].names[slot]);
    }
    if r in run[k].reqs && run[k].reqs[r].host !in acts[k].hosts && Held(run[k].reqs[r].pc).Some? {
      assert InUse(run[k], acts[k].hosts, Held(run[k].reqs[r].pc).value);
    }
  }
}
