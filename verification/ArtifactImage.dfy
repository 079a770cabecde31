/** One artifact directory on disk: what it shows now, and what a machine crash can leave of it. */
module ArtifactImage {
  import opened Bytes

  /** A path below the artifact directory; [] is the directory itself. */
  type Rel = seq<bytes>

  datatype Node = File(data: bytes) | Folder

  /** The commit marker `.committed`. */
  const MARKER: Rel := [[0x2e, 0x63, 0x6f, 0x6d, 0x6d, 0x69, 0x74, 0x74, 0x65, 0x64]]

  function Parent(n: Rel): Rel { if n == [] then [] else n[..|n| - 1] }

  predicate StrictlyBelow(n: Rel, p: Rel) { p <= n && p != n }

  /** `synced`: files whose contents are durable. `linked`: nodes whose directory entry is durable.
      `ghosts`: removed nodes whose removal is not durable yet. */
  datatype Image = Image(nodes: map<Rel, Node>, synced: set<Rel>, linked: set<Rel>, ghosts: set<Rel>) {

    predicate IsFolder(p: Rel) { p == [] || (p in nodes && nodes[p].Folder?) }

    ghost predicate WellFormed() {
      && [] !in nodes && [] !in ghosts
      && (forall n :: n in nodes ==> IsFolder(Parent(n)))
      && (forall g :: g in ghosts ==> IsFolder(Parent(g)))
    }

    /** Nothing of the directory is lost or comes back after a crash. */
    ghost predicate Durable() {
      && (forall n :: n in nodes && nodes[n].File? ==> n in synced)
      && (forall n :: n in nodes ==> n in linked)
      && ghosts == {}
    }

    predicate Marked() { MARKER in nodes }

    /** What fsync_dir visits: every file and directory below, and the directory itself. */
    function SyncTargets(): set<Rel> { nodes.Keys + {[]} }

    /** fsync of one target: the contents of a file, or the entries of a directory. */
    function Synced(t: Rel): Image {
      if IsFolder(t) then
        this.(linked := linked + (set n | n in nodes && Parent(n) == t),
              ghosts := set g | g in ghosts && Parent(g) != t)
      else
        this.(synced := synced + {t})
    }
  }

  const EMPTY := Image(map[], {}, {}, {})

  datatype Op = Put(name: Rel, data: bytes) | MakeFolder(name: Rel) | Delete(name: Rel)

  /** Whether the filesystem accepts the operation: parents exist, and files and folders keep their kind. */
  predicate Fits(img: Image, op: Op) {
    && op.name != [] && img.IsFolder(Parent(op.name))
    && match op
       case Put(n, _) => n !in img.nodes || img.nodes[n].File?
       case MakeFolder(n) => n !in img.nodes || img.nodes[n].Folder?
       case Delete(n) => n in img.nodes && img.nodes[n].File?
  }

  function Perform(img: Image, op: Op): Image
    requires Fits(img, op)
  {
    match op
    case Put(n, d) =>
      img.(nodes := img.nodes[n := File(d)], synced := img.synced - {n},
           linked := if n in img.nodes then img.linked else img.linked - {n})
    case MakeFolder(n) =>
      if n in img.nodes then img
      else img.(nodes := img.nodes[n := Folder], linked := img.linked - {n})
    case Delete(n) =>
      img.(nodes := img.nodes - {n}, synced := img.synced - {n}, linked := img.linked - {n},
           ghosts := img.ghosts + {n})
  }

  /** The nodes after a list of operations on given nodes; None when one of them is refused. */
  function Outcome(nodes: map<Rel, Node>, ops: seq<Op>): Option<map<Rel, Node>>
    decreases |ops|
  {
    if ops == [] then Some(nodes)
    else
      var img := Image(nodes, {}, {}, {});
      if Fits(img, ops[0]) then Outcome(Perform(img, ops[0]).nodes, ops[1..]) else None
  }

  lemma PerformKeepsWellFormed(img: Image, op: Op)
    requires img.WellFormed() && Fits(img, op)
    ensures Perform(img, op).WellFormed()
  {
  }

  /** A file operation of an image is one step of the outcome. */
  lemma PerformIsOutcomeStep(img: Image, ops: seq<Op>)
    requires ops != []
    ensures Fits(img, ops[0]) ==> Outcome(img.nodes, ops) == Outcome(Perform(img, ops[0]).nodes, ops[1..])
    ensures !Fits(img, ops[0]) ==> Outcome(img.nodes, ops) == None
  {
    var bare := Image(img.nodes, {}, {}, {});
    assert Fits(img, ops[0]) == Fits(bare, ops[0]);
    assert Fits(img, ops[0]) ==> Perform(img, ops[0]).nodes == Perform(bare, ops[0]).nodes;
  }

  // ---- fsync_dir ----

  /** What the targets still to visit have not made durable yet. */
  ghost predicate Pending(img: Image, todo: set<Rel>) {
    && (forall n :: n in img.nodes && img.nodes[n].File? ==> n in todo || n in img.synced)
    && (forall n :: n in img.nodes ==> Parent(n) in todo || n in img.linked)
    && (forall g :: g in img.ghosts ==> Parent(g) in todo)
  }

  lemma AllTargetsPending(img: Image)
    requires img.WellFormed()
    ensures Pending(img, img.SyncTargets())
  {
  }

  lemma SyncedIsProgress(img: Image, todo: set<Rel>, t: Rel)
    requires img.WellFormed() && Pending(img, todo) && t in todo
    ensures Pending(img.Synced(t), todo - {t})
    ensures img.Synced(t).WellFormed() && img.Synced(t).nodes == img.nodes
  {
    var img' := img.Synced(t);
    forall n | n in img'.nodes && img'.nodes[n].File?
      ensures n in todo - {t} || n in img'.synced
    {
      if n == t {
        assert !img.IsFolder(t);
      }
    }
    forall n | n in img'.nodes
      ensures Parent(n) in todo - {t} || n in img'.linked
    {
      if Parent(n) == t {
        assert img.IsFolder(t);
      }
    }
    forall g | g in img'.ghosts
      ensures Parent(g) in todo - {t}
    {
      assert img.IsFolder(Parent(g));
    }
  }

  lemma NothingPendingIsDurable(img: Image)
    requires Pending(img, {})
    ensures img.Durable()
  {
  }

  // ---- A machine crash ----

  /** What a crash may leave: a node whose entry and whose folders' entries are durable stays, with its
      contents if they were synced; any other node, and any removed one, may be there with any contents. */
  ghost predicate Survives(before: Image, after: Image) {
    && after.Durable()
    && (forall n :: n in before.nodes && Anchored(before, n) && (before.nodes[n].File? ==> n in before.synced) ==>
          n in after.nodes && after.nodes[n] == before.nodes[n])
    && (forall n :: n in after.nodes ==> n in before.nodes || n in before.ghosts)
  }

  /** The entries of n and of every folder above it are durable. */
  ghost predicate Anchored(img: Image, n: Rel) {
    forall k :: 0 < k <= |n| ==> n[..k] in img.linked
  }

  lemma {:induction false} AncestorsExist(img: Image, n: Rel, k: nat)
    requires img.WellFormed() && n in img.nodes && 0 < k <= |n|
    ensures n[..k] in img.nodes
    decreases |n|
  {
    if k < |n| {
      assert Parent(n)[..k] == n[..k];
      assert img.IsFolder(Parent(n));
      AncestorsExist(img, Parent(n), k);
    } else {
      assert n[..k] == n;
    }
  }

  /** A durable image comes through a crash as it was. */
  lemma DurableSurvives(before: Image, after: Image)
    requires before.WellFormed() && before.Durable() && Survives(before, after)
    ensures after.nodes == before.nodes && after.Durable() && after.WellFormed()
  {
    forall n | n in before.nodes
      ensures n in after.nodes && after.nodes[n] == before.nodes[n]
    {
      forall k | 0 < k <= |n|
        ensures n[..k] in before.linked
      {
        AncestorsExist(before, n, k);
      }
      assert Anchored(before, n);
    }
    assert after.nodes.Keys == before.nodes.Keys;
  }
}
