/** Where the cache entries of a run come from: each was there at the start, or is the work of one request of
    the run, for that very entry. */
module Origin {
  import opened Bytes
  import opened ArtifactImage
  import opened CacheKey
  import opened Publication
  import opened PublicationSafety
  import opened PublicationRuns
  import opened PublicationOwnership

  // ---- Commits ----

  /** Request r asks for x under this tag, and uses this root. */
  ghost predicate Asks(s: State, r: nat, root: Root, tag: bytes, x: Subject) {
    r in s.reqs && s.reqs[r].tag == tag && s.reqs[r].input == x && root in s.reqs[r].roots
  }

  ghost predicate Commits(s: State, j: nat, root: Root, tag: bytes, x: Subject) {
    j in s.jobs && s.jobs[j].root == root && s.jobs[j].work.Commit? && s.jobs[j].work.tag == tag && s.jobs[j].work.input == x
  }

  /** A commit is started by a request for the entry it commits, and stays the commit of that entry. */
  lemma CommitGoesBack(c: Setup, s: State, a: Action, s': State, j: nat, root: Root, tag: bytes, x: Subject)
    requires Inv(c, s) && Step(c, s, a, s') && Commits(s', j, root, tag, x)
    ensures Commits(s, j, root, tag, x) || (a.Advance? && Asks(s, a.r, root, tag, x))
  {
    match a {
      case Work(j', choice) => JobTurns(c, s, j', choice, s');
      case Expire(r) => ExpireTurns(s, r, s');
      case Deploy(r, ok) => DeployTurns(s, r, ok, s');
      case Advance(r) => AdvanceTurns(c, s, r, s');
      case _ =>
    }
  }

  lemma {:induction false} CommitAuthor(c: Setup, run: seq<State>, acts: seq<Action>, k: nat, j: nat, root: Root, tag: bytes, x: Subject)
      returns (m: nat, r: nat)
    requires Run(c, run, acts) && k < |run| && Commits(run[k], j, root, tag, x)
    ensures m <= k && Asks(run[m], r, root, tag, x)
  {
    m, r := 0, 0;
    if k > 0 {
      RunInv(c, run, acts, k - 1);
      assert Step(c, run[k - 1], acts[k - 1], run[k - 1 + 1]);
      CommitGoesBack(c, run[k - 1], acts[k - 1], run[k], j, root, tag, x);
      if Commits(run[k - 1], j, root, tag, x) {
        m, r := CommitAuthor(c, run, acts, k - 1, j, root, tag, x);
      } else {
        m, r := k - 1, acts[k - 1].r;
      }
    }
  }

  // ---- New entries ----

  /** Job j is a commit for this entry, and directory u is the artifact that it publishes. */
  ghost predicate Publishes(c: Setup, s: State, s': State, j: nat, root: Root, tag: bytes, digest: bytes, u: nat) {
    && j in s.jobs && s.jobs[j].work.Commit?
    && var x := s.jobs[j].work.input;
       Commits(s, j, root, tag, x) && c.key(x) == digest && u in s'.images && BuiltBy(c, s'.images[u], digest, x, u)
  }

  lemma RenamePublishes(c: Setup, s: State, j: nat, u: nat, tag: bytes, x: Subject, root: Root, tag': bytes, digest: bytes, v: nat)
    requires Inv(c, s) && j in s.jobs && s.jobs[j].work == Commit(u, tag, x, Rename) && TmpBound(s, s.jobs[j].root, u)
    requires (Slot(root, tag', digest), v) in RenameStep(c, s, j, u, tag, x).bound && (Slot(root, tag', digest), v) !in s.bound
    ensures Publishes(c, s, RenameStep(c, s, j, u, tag, x), j, root, tag', digest, v)
  {
    TmpLeadsHome(c, s, s.jobs[j].root, u);
  }

  lemma CommitPublishes(c: Setup, s: State, j: nat, choice: Choice, s': State, root: Root, tag: bytes, digest: bytes, u: nat)
    requires Inv(c, s) && j in s.jobs && s.jobs[j].work.Commit? && JobStep(c, s, j, choice) == Some(s')
    requires (Slot(root, tag, digest), u) in s'.bound && (Slot(root, tag, digest), u) !in s.bound
    ensures Publishes(c, s, s', j, root, tag, digest, u)
  {
    var w := s.jobs[j].work;
    assert Toucher(s, j, w.u);
    if w.phase.CleanUp? {
      RemovalKeepsEntries(c, s, j, w.u, choice);
    } else if choice.GiveUp? || !TmpBound(s, s.jobs[j].root, w.u) {
    } else if w.phase.Rename? {
      RenamePublishes(c, s, j, w.u, w.tag, w.input, root, tag, digest, u);
    } else {
      PrepareKeepsEntries(c, s, j, w.u, w.tag, w.input, w.phase, choice, s');
    }
  }

  /** No other job gives a directory the name of an entry. */
  lemma OtherJobsBind(c: Setup, s: State, j: nat, choice: Choice, s': State, root: Root, tag: bytes, digest: bytes, u: nat)
    requires Inv(c, s) && j in s.jobs && !s.jobs[j].work.Commit? && JobStep(c, s, j, choice) == Some(s')
    ensures (Slot(root, tag, digest), u) in s'.bound ==> (Slot(root, tag, digest), u) in s.bound
  {
    var w := s.jobs[j].work;
    assert Touches(w).Some? ==> Toucher(s, j, Touches(w).value);
    if w.Remove? {
      RemovalKeepsEntries(c, s, j, w.u, choice);
    } else if w.Perform? && !choice.GiveUp? && TmpBound(s, s.jobs[j].root, w.u) {
      PerformKeepsEntries(c, s, j, w.u, w.kind, w.ops);
    } else if !w.MakeTemp? || choice.GiveUp? {
      ReadersKeepDisk(c, s, j, choice, s');
    }
  }

  /** Only the rename of a commit makes a directory an entry, and it is the directory of that commit with the
      whole artifact of its subject. */
  lemma NewEntryIsPublished(c: Setup, s: State, a: Action, s': State, root: Root, tag: bytes, digest: bytes, u: nat)
    requires Inv(c, s) && Step(c, s, a, s')
    requires (Slot(root, tag, digest), u) in s'.bound && (Slot(root, tag, digest), u) !in s.bound
    ensures a.Work? && Publishes(c, s, s', a.j, root, tag, digest, u)
  {
    if a.Work? {
      if s.jobs[a.j].work.Commit? {
        CommitPublishes(c, s, a.j, a.choice, s', root, tag, digest, u);
      } else {
        OtherJobsBind(c, s, a.j, a.choice, s', root, tag, digest, u);
      }
    } else if !a.Reboot? && !a.Crash? {
      OthersKeepDisk(c, s, a, s');
    }
  }

  // ---- Entries of a run ----

  /** The directory was this entry at the start, with the same contents. */
  ghost predicate FromStart(run: seq<State>, k: nat, slot: Path, u: nat)
    requires k < |run|
  {
    && (slot, u) in run[0].bound && u in run[0].images && u in run[k].images
    && run[k].images[u].nodes == run[0].images[u].nodes
  }

  /** Request r of state m asked for this very entry, and the directory holds what building its subject in
      that directory gives. */
  ghost predicate WrittenBy(c: Setup, run: seq<State>, k: nat, slot: Path, u: nat, m: nat, r: nat)
    requires k < |run| && slot.Slot?
  {
    && m <= k && r in run[m].reqs && u in run[k].images
    && Asks(run[m], r, slot.root, slot.tag, run[m].reqs[r].input)
    && BuiltBy(c, run[k].images[u], slot.digest, run[m].reqs[r].input, u)
  }

  lemma OriginStays(c: Setup, run: seq<State>, acts: seq<Action>, k: nat, slot: Path, u: nat, m: nat, r: nat)
    requires Run(c, run, acts) && k < |acts| && slot.Slot? && (slot, u) in run[k].bound
    requires FromStart(run, k, slot, u) || WrittenBy(c, run, k, slot, u, m, r)
    ensures FromStart(run, k + 1, slot, u) || WrittenBy(c, run, k + 1, slot, u, m, r)
  {
    RunInv(c, run, acts, k);
    assert Step(c, run[k], acts[k], run[k + 1]);
    assert (Slot(slot.root, slot.tag, slot.digest), u) in run[k].bound;
    ContentsStay(c, run[k], acts[k], run[k + 1], u);
  }

  /** Every directory that has, or ever had, the name of an entry was that entry at the start, or holds what
      one request of the run built for it. */
  lemma {:induction false} EntryOrigin(c: Setup, run: seq<State>, acts: seq<Action>, k: nat, slot: Path, u: nat)
      returns (m: nat, r: nat)
    requires Run(c, run, acts) && k < |run| && slot.Slot? && (slot, u) in run[k].bound
    ensures FromStart(run, k, slot, u) || WrittenBy(c, run, k, slot, u, m, r)
  {
    m, r := 0, 0;
    if k == 0 {
      RunInv(c, run, acts, 0);
    } else if (slot, u) in run[k - 1].bound {
      m, r := EntryOrigin(c, run, acts, k - 1, slot, u);
      OriginStays(c, run, acts, k - 1, slot, u, m, r);
    } else {
      m, r := FreshOrigin(c, run, acts, k - 1, slot, u);
    }
  }

  lemma FreshOrigin(c: Setup, run: seq<State>, acts: seq<Action>, k: nat, slot: Path, u: nat) returns (m: nat, r: nat)
    requires Run(c, run, acts) && k < |acts| && slot.Slot? && (slot, u) in run[k + 1].bound && (slot, u) !in run[k].bound
    ensures WrittenBy(c, run, k + 1, slot, u, m, r)
  {
    RunInv(c, run, acts, k);
    assert Step(c, run[k], acts[k], run[k + 1]);
    assert slot == Slot(slot.root, slot.tag, slot.digest);
    NewEntryIsPublished(c, run[k], acts[k], run[k + 1], slot.root, slot.tag, slot.digest, u);
    m, r := CommitAuthor(c, run, acts, k, acts[k].j, slot.root, slot.tag, run[k].jobs[acts[k].j].work.input);
  }

  /** In every reachable state a directory that bears the marker under a cache entry's name is, as a whole
      and durably, what one request of the run built in it for that very entry, plus the marker; or it was
      that entry before the run, and has not changed. */
  lemma AtomicPublication(c: Setup, run: seq<State>, acts: seq<Action>, k: nat, slot: Path) returns (m: nat, r: nat)
    requires Run(c, run, acts) && k < |run| && slot.Slot? && IsMarked(run[k], slot)
    ensures var u := run[k].names[slot];
            && Complete(c, run[k].images[u], slot.digest)
            && (FromStart(run, k, slot, u) || WrittenBy(c, run, k, slot, u, m, r))
  {
    RunInv(c, run, acts, k);
    EntryIsComplete(c, run, acts, k, slot.root, slot.tag, slot.digest);
    m, r := EntryOrigin(c, run, acts, k, slot, run[k].names[slot]);
  }
}
