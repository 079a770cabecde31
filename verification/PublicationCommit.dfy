/** The steps of a commit job and of a removal keep the invariant of the disk-cache protocol. */
module PublicationCommit {
  import opened Bytes
  import opened ArtifactImage
  import opened CacheKey
  import opened Publication
  import opened PublicationSafety

  // ---- The request that waits ----

  /** A commit job that is still at work suits the request that waits for it, if any. */
  lemma CommitGoesOn(c: Setup, s: State, s': State, j: nat, r: nat, phase: Phase)
    requires j in s.jobs && s.jobs[j].work.Commit? && r in s.reqs && ReqOk(c, s, r) && Awaited(s.reqs[r].pc) == Some(j)
    requires s'.jobs == s.jobs[j := s.jobs[j].(work := s.jobs[j].work.(phase := phase))]
    requires s'.next == s.next && s'.bound == s.bound
    requires forall j': nat, u: nat :: Toucher(s', j', u) ==> Toucher(s, j', u)
    ensures PcOk(c, s', s.reqs[r])
  {
  }

  /** A commit or a removal that ended well suits the request that waits for it, if any. */
  lemma CommitEnds(c: Setup, s: State, s': State, j: nat, r: nat)
    requires j in s.jobs && r in s.reqs && ReqOk(c, s, r) && Awaited(s.reqs[r].pc) == Some(j)
    requires s'.jobs == s.jobs[j := s.jobs[j].(work := Done(Good))] && s'.next == s.next
    requires forall j': nat, u: nat :: Toucher(s', j', u) ==> Toucher(s, j', u)
    requires var w := s.jobs[j].work;
             || (w.Remove? && (Published(s', w.u) ==> Published(s, w.u)))
             || (w.Commit? && IsMarked(s', Slot(s.jobs[j].root, w.tag, c.key(w.input))))
    ensures PcOk(c, s', s.reqs[r])
  {
  }

  // ---- Removal of a temporary directory ----

  /** A removal: the owner's, or the one after a lost race. */
  ghost predicate Removing(w: Work, u: nat) { w == Remove(u) || (w.Commit? && w.u == u && w.phase.CleanUp?) }

  /** A removal that ended, whatever it got done. */
  lemma RemovedInv(c: Setup, s: State, s': State, j: nat, u: nat)
    requires Inv(c, s) && j in s.jobs && Removing(s.jobs[j].work, u)
    requires JobMoved(s, s', j, Done(Good)) && FsOk(c, s') && (Published(s', u) ==> Published(s, u))
    ensures Inv(c, s')
  {
    MovedTouchers(s, s', j, Done(Good));
    forall r | r in s.reqs && Awaited(s.reqs[r].pc) == Some(j)
      ensures PcOk(c, s', s.reqs[r])
    {
      assert ReqOk(c, s, r);
      CommitEnds(c, s, s', j, r);
    }
    JobMovedInv(c, s, s', j, Done(Good));
  }

  lemma UnlinkInv(c: Setup, s: State, j: nat, u: nat, img: Image)
    requires Inv(c, s) && j in s.jobs && Removing(s.jobs[j].work, u) && u in s.images
    ensures Inv(c, SetImage(s, u, img))
  {
    var s', w := SetImage(s, u, img), s.jobs[j].work;
    assert Toucher(s, j, u);
    WriteFsOk(c, s, u, img);
    PrivateWriteMoves(c, s, j, u, img, w);
    assert s.jobs[j := s.jobs[j].(work := w)] == s.jobs;
    assert s' == SetWork(s', j, w);
    MovedTouchers(s, s', j, w);
    forall r | r in s.reqs && Awaited(s.reqs[r].pc) == Some(j)
      ensures PcOk(c, s', s.reqs[r])
    {
      assert ReqOk(c, s, r);
    }
    JobMovedInv(c, s, s', j, w);
  }

  lemma ForgetTmp(c: Setup, s: State, j: nat, root: Root, u: nat)
    requires FsOk(c, s) && j in s.jobs
    ensures var s' := SetWork(s.(names := s.names - {Tmp(root, u)}), j, Done(Good));
            JobMoved(s, s', j, Done(Good)) && FsOk(c, s') && (Published(s', u) ==> Published(s, u))
  {
  }

  lemma RemoveStepInv(c: Setup, s: State, j: nat, u: nat, choice: Choice)
    requires Inv(c, s) && j in s.jobs && Removing(s.jobs[j].work, u)
    ensures Inv(c, RemoveStep(s, j, u, choice))
  {
    var root := s.jobs[j].root;
    if choice.Visit? && TmpBound(s, root, u) {
      TmpLeadsHome(c, s, root, u);
      if choice.target == [] && s.images[u].nodes == map[] {
        ForgetTmp(c, s, j, root, u);
        RemovedInv(c, s, RemoveStep(s, j, u, choice), j, u);
      } else {
        UnlinkInv(c, s, j, u, Removed(s.images[u], choice.target));
      }
    } else {
      FewerTouchers(s, j, Good);
      RemovedInv(c, s, SetWork(s, j, Done(Good)), j, u);
    }
  }

  // ---- Marker and fsync ----

  /** A step of `commit` before the rename writes its directory u alone. */
  lemma PreparedInv(c: Setup, s: State, j: nat, u: nat, tag: bytes, x: Subject, phase: Phase, img: Image, phase': Phase)
    requires Inv(c, s) && j in s.jobs && s.jobs[j].work == Commit(u, tag, x, phase) && u in s.images
    requires !phase'.CleanUp?
    requires CommitOk(c, SetWork(SetImage(s, u, img), j, Commit(u, tag, x, phase')), s.jobs[j].root, u, tag, x, phase')
    ensures Inv(c, SetWork(SetImage(s, u, img), j, Commit(u, tag, x, phase')))
  {
    var w := Commit(u, tag, x, phase');
    var s' := SetWork(SetImage(s, u, img), j, w);
    assert Toucher(s, j, u);
    WriteFsOk(c, s, u, img);
    PrivateWriteMoves(c, s, j, u, img, w);
    MovedTouchers(s, s', j, w);
    forall r | r in s.reqs && Awaited(s.reqs[r].pc) == Some(j)
      ensures PcOk(c, s', s.reqs[r])
    {
      assert ReqOk(c, s, r);
      CommitGoesOn(c, s, s', j, r, phase');
    }
    JobMovedInv(c, s, s', j, w);
  }

  lemma WriteMarkerInv(c: Setup, s: State, j: nat, u: nat, tag: bytes, x: Subject)
    requires Inv(c, s) && j in s.jobs && s.jobs[j].work == Commit(u, tag, x, WriteMarker)
    requires Fits(s.images[u], Put(MARKER, []))
    ensures Inv(c, SetWork(SetImage(s, u, ArtifactImage.Perform(s.images[u], Put(MARKER, []))), j, Commit(u, tag, x, SyncMarker)))
  {
    PerformKeepsWellFormed(s.images[u], Put(MARKER, []));
    PreparedInv(c, s, j, u, tag, x, WriteMarker, ArtifactImage.Perform(s.images[u], Put(MARKER, [])), SyncMarker);
  }

  lemma SyncMarkerInv(c: Setup, s: State, j: nat, u: nat, tag: bytes, x: Subject)
    requires Inv(c, s) && j in s.jobs && s.jobs[j].work == Commit(u, tag, x, SyncMarker)
    ensures var img := s.images[u];
            Inv(c, SetWork(SetImage(s, u, img.Synced(MARKER)), j, Commit(u, tag, x, SyncTree(img.SyncTargets()))))
  {
    var img := s.images[u];
    assert img.nodes[MARKER] == File([]) && !img.IsFolder(MARKER);
    var img' := img.Synced(MARKER);
    AllTargetsPending(img');
    assert img'.SyncTargets() == img.SyncTargets();
    PreparedInv(c, s, j, u, tag, x, SyncMarker, img', SyncTree(img.SyncTargets()));
  }

  lemma SyncTreeInv(c: Setup, s: State, j: nat, u: nat, tag: bytes, x: Subject, todo: set<Rel>, t: Rel)
    requires Inv(c, s) && j in s.jobs && s.jobs[j].work == Commit(u, tag, x, SyncTree(todo)) && t in todo
    ensures Inv(c, SetWork(SetImage(s, u, s.images[u].Synced(t)), j, Commit(u, tag, x, SyncTree(todo - {t}))))
  {
    SyncedIsProgress(s.images[u], todo, t);
    PreparedInv(c, s, j, u, tag, x, SyncTree(todo), s.images[u].Synced(t), SyncTree(todo - {t}));
  }

  lemma SyncedTreeInv(c: Setup, s: State, j: nat, u: nat, tag: bytes, x: Subject)
    requires Inv(c, s) && j in s.jobs && s.jobs[j].work == Commit(u, tag, x, SyncTree({}))
    ensures Inv(c, SetWork(s, j, Commit(u, tag, x, Rename)))
  {
    NothingPendingIsDurable(s.images[u]);
    assert SetImage(s, u, s.images[u]) == s;
    PreparedInv(c, s, j, u, tag, x, SyncTree({}), s.images[u], Rename);
  }

  lemma PrepareStepInv(c: Setup, s: State, j: nat, u: nat, tag: bytes, x: Subject, phase: Phase, choice: Choice)
    requires Inv(c, s) && j in s.jobs && s.jobs[j].work == Commit(u, tag, x, phase) && TmpBound(s, s.jobs[j].root, u)
    requires PrepareStep(s, j, u, tag, x, phase, choice).Some?
    ensures Inv(c, PrepareStep(s, j, u, tag, x, phase, choice).value)
  {
    TmpLeadsHome(c, s, s.jobs[j].root, u);
    match phase {
      case WriteMarker =>
        if Fits(s.images[u], Put(MARKER, [])) {
          WriteMarkerInv(c, s, j, u, tag, x);
        } else {
          FailInv(c, s, j);
        }
      case SyncMarker => SyncMarkerInv(c, s, j, u, tag, x);
      case SyncTree(todo) =>
        if todo == {} {
          SyncedTreeInv(c, s, j, u, tag, x);
        } else {
          SyncTreeInv(c, s, j, u, tag, x, todo, choice.target);
        }
      case _ =>
    }
  }

  // ---- The rename ----

  /** The commit found a complete entry in its place: it goes on to remove its own directory. */
  lemma LostRaceInv(c: Setup, s: State, j: nat, u: nat, tag: bytes, x: Subject)
    requires Inv(c, s) && j in s.jobs && s.jobs[j].work == Commit(u, tag, x, Rename)
    requires IsMarked(s, Slot(s.jobs[j].root, tag, c.key(x)))
    ensures Inv(c, SetWork(s, j, Commit(u, tag, x, CleanUp)))
  {
    var w := Commit(u, tag, x, CleanUp);
    var s' := SetWork(s, j, w);
    assert JobMoved(s, s', j, w);
    MovedTouchers(s, s', j, w);
    forall r | r in s.reqs && Awaited(s.reqs[r].pc) == Some(j)
      ensures PcOk(c, s', s.reqs[r])
    {
      assert ReqOk(c, s, r);
      CommitGoesOn(c, s, s', j, r, CleanUp);
    }
    JobMovedInv(c, s, s', j, w);
  }

  function Published1(s: State, j: nat, root: Root, u: nat, slot: Path): State
    requires j in s.jobs
  {
    SetWork(Put1(s.(names := s.names - {Tmp(root, u)}), slot, u), j, Done(Good))
  }

  /** The finished, synced directory is a complete entry. */
  lemma FinishedIsComplete(c: Setup, s: State, root: Root, u: nat, tag: bytes, x: Subject)
    requires CommitOk(c, s, root, u, tag, x, Rename)
    ensures Complete(c, s.images[u], c.key(x)) && s.images[u].Marked()
  {
    assert BuiltBy(c, s.images[u], c.key(x), x, u);
  }

  lemma PublishFsOk(c: Setup, s: State, j: nat, root: Root, u: nat, tag: bytes, x: Subject)
    requires FsOk(c, s) && j in s.jobs && CommitOk(c, s, root, u, tag, x, Rename)
    ensures FsOk(c, Published1(s, j, root, u, Slot(root, tag, c.key(x))))
  {
    FinishedIsComplete(c, s, root, u, tag, x);
  }

  lemma PublishKeepsSlots(c: Setup, s: State, j: nat, root: Root, u: nat, slot: Path)
    requires FsOk(c, s) && j in s.jobs && slot.Slot?
    requires slot !in s.names || (s.names[slot] in s.images && s.images[s.names[slot]].nodes == map[])
    ensures SlotsKept(s, Published1(s, j, root, u, slot))
  {
  }

  lemma PublishMoves(c: Setup, s: State, j: nat, root: Root, u: nat, tag: bytes, x: Subject)
    requires FsOk(c, s) && Toucher(s, j, u) && CommitOk(c, s, root, u, tag, x, Rename)
    requires SlotsKept(s, Published1(s, j, root, u, Slot(root, tag, c.key(x))))
    ensures var slot := Slot(root, tag, c.key(x)); var s' := Published1(s, j, root, u, slot);
            JobMoved(s, s', j, Done(Good)) && IsMarked(s', slot)
  {
    FinishedIsComplete(c, s, root, u, tag, x);
  }

  lemma PublishInv(c: Setup, s: State, j: nat, u: nat, tag: bytes, x: Subject)
    requires Inv(c, s) && j in s.jobs && s.jobs[j].work == Commit(u, tag, x, Rename)
    requires var slot := Slot(s.jobs[j].root, tag, c.key(x));
             slot !in s.names || (s.names[slot] in s.images && s.images[s.names[slot]].nodes == map[])
    ensures Inv(c, Published1(s, j, s.jobs[j].root, u, Slot(s.jobs[j].root, tag, c.key(x))))
  {
    var root := s.jobs[j].root;
    var s' := Published1(s, j, root, u, Slot(root, tag, c.key(x)));
    assert Toucher(s, j, u);
    PublishFsOk(c, s, j, root, u, tag, x);
    PublishKeepsSlots(c, s, j, root, u, Slot(root, tag, c.key(x)));
    PublishMoves(c, s, j, root, u, tag, x);
    MovedTouchers(s, s', j, Done(Good));
    forall r | r in s.reqs && Awaited(s.reqs[r].pc) == Some(j)
      ensures PcOk(c, s', s.reqs[r])
    {
      assert ReqOk(c, s, r);
      CommitEnds(c, s, s', j, r);
    }
    JobMovedInv(c, s, s', j, Done(Good));
  }

  lemma RenameStepInv(c: Setup, s: State, j: nat, u: nat, tag: bytes, x: Subject)
    requires Inv(c, s) && j in s.jobs && s.jobs[j].work == Commit(u, tag, x, Rename) && TmpBound(s, s.jobs[j].root, u)
    ensures Inv(c, RenameStep(c, s, j, u, tag, x))
  {
    var root := s.jobs[j].root;
    var slot := Slot(root, tag, c.key(x));
    TmpLeadsHome(c, s, root, u);
    if slot !in s.names || (s.names[slot] in s.images && s.images[s.names[slot]].nodes == map[]) {
      PublishInv(c, s, j, u, tag, x);
    } else if IsMarked(s, slot) {
      LostRaceInv(c, s, j, u, tag, x);
    } else {
      FailInv(c, s, j);
    }
  }

  // ---- Every step of a job ----

  lemma WorkInv(c: Setup, s: State, j: nat, choice: Choice)
    requires Inv(c, s)
    requires j in s.jobs && JobStep(c, s, j, choice).Some?
    ensures Inv(c, JobStep(c, s, j, choice).value)
  {
    var w := s.jobs[j].work;
    if choice.GiveUp? && !Removes(w) {
      FailInv(c, s, j);
    } else {
      match w {
        case Probe(slot) => ProbeInv(c, s, j, slot);
        case MakeTemp(u) => MakeTempInv(c, s, j, u);
        case Check(slot, file) => CheckInv(c, s, j, slot, file);
        case Load(slot) =>
          if Loaded(c, s, slot).Some? {
            LoadInv(c, s, j, slot);
          } else {
            FailInv(c, s, j);
          }
        case Perform(u, kind, ops) =>
          if TmpBound(s, s.jobs[j].root, u) {
            PerformStepInv(c, s, j, u, kind, ops);
          } else {
            FailInv(c, s, j);
          }
        case Remove(u) => RemoveStepInv(c, s, j, u, choice);
        case Commit(u, tag, x, phase) => CommitStepInv(c, s, j, u, tag, x, phase, choice);
        case Done(_) =>
      }
    }
  }

  predicate Removes(w: Work) { w.Remove? || (w.Commit? && w.phase.CleanUp?) }

  lemma CommitStepInv(c: Setup, s: State, j: nat, u: nat, tag: bytes, x: Subject, phase: Phase, choice: Choice)
    requires Inv(c, s) && j in s.jobs && s.jobs[j].work == Commit(u, tag, x, phase)
    requires CommitStep(c, s, j, u, tag, x, phase, choice).Some?
    ensures Inv(c, CommitStep(c, s, j, u, tag, x, phase, choice).value)
  {
    if phase.CleanUp? {
      RemoveStepInv(c, s, j, u, choice);
    } else if choice.GiveUp? || !TmpBound(s, s.jobs[j].root, u) {
      FailInv(c, s, j);
    } else if phase.Rename? {
      RenameStepInv(c, s, j, u, tag, x);
    } else {
      PrepareStepInv(c, s, j, u, tag, x, phase, choice);
    }
  }
}
