/** The directory walks of a commit, as the program runs them on one artifact directory. Any system call may
    fail; a directory's entries come in any order. (include/deep_jit/utils/filesystem.hpp) */
module FsTree {
  import opened Bytes
  import opened ArtifactImage
  import opened Finite
  import Publication

  /** The entries of folder p. */
  function Children(nodes: map<Rel, Node>, p: Rel): set<Rel> { set n | n in nodes && n != [] && Parent(n) == p }

  /** Everything below folder p. */
  function Below(nodes: map<Rel, Node>, p: Rel): set<Rel> { set n | n in nodes && StrictlyBelow(n, p) }

  /** The entry of p that n lies in. */
  function Branch(n: Rel, p: Rel): Rel
    requires StrictlyBelow(n, p)
  {
    n[..|p| + 1]
  }

  lemma ChildIsBranch(n: Rel, p: Rel)
    requires n != [] && Parent(n) == p
    ensures StrictlyBelow(n, p) && Branch(n, p) == n
  {
  }

  /** What lies below p lies in one of its entries. */
  lemma BranchIsChild(img: Image, n: Rel, p: Rel)
    requires img.WellFormed() && n in img.nodes && StrictlyBelow(n, p)
    ensures Branch(n, p) in Children(img.nodes, p)
    ensures n == Branch(n, p) || StrictlyBelow(n, Branch(n, p))
  {
    AncestorsExist(img, n, |p| + 1);
    assert Parent(n[..|p| + 1]) == n[..|p|] == p;
  }

  lemma BelowChild(n: Rel, c: Rel, p: Rel)
    requires c != [] && Parent(c) == p && (n == c || StrictlyBelow(n, c))
    ensures StrictlyBelow(n, p) && Branch(n, p) == c
  {
    assert n[..|c|] == c;
    assert c[..|p|] == p;
    assert n[..|p|] == c[..|p|];
  }

  lemma SameBranch(n: Rel, m: Rel, p: Rel)
    requires StrictlyBelow(m, p) && StrictlyBelow(n, p)
    ensures StrictlyBelow(n, m) ==> Branch(n, p) == Branch(m, p)
  {
    if StrictlyBelow(n, m) {
      assert n[..|m|] == m;
      assert n[..|p| + 1] == m[..|p| + 1];
    }
  }

  lemma SubtreeSmaller(nodes: map<Rel, Node>, c: Rel, p: Rel)
    requires c in Children(nodes, p)
    ensures |Below(nodes, c)| < |Below(nodes, p)|
  {
    var inner, outer := Below(nodes, c), Below(nodes, p);
    forall n | n in inner
      ensures n in outer
    {
      BelowChild(n, c, p);
    }
    ChildIsBranch(c, p);
    assert c in outer && c !in inner;
    SubsetSmaller(inner + {c}, outer);
  }

  // ---- fsync_dir ----

  /** The image after syncing these targets in order. */
  function SyncedAll(img: Image, order: seq<Rel>): (after: Image)
    ensures after.nodes == img.nodes
  {
    if order == [] then img else SyncedAll(img, order[..|order| - 1]).Synced(order[|order| - 1])
  }

  lemma {:induction false} SyncedAllConcat(img: Image, a: seq<Rel>, b: seq<Rel>)
    ensures SyncedAll(img, a + b) == SyncedAll(SyncedAll(img, a), b)
  {
    if b == [] {
      assert a + b == a;
    } else {
      SyncedAllConcat(img, a, b[..|b| - 1]);
      assert (a + b)[..|a + b| - 1] == a + b[..|b| - 1];
    }
  }

  /** Nothing comes twice, and nothing comes after a folder that it lies in. */
  ghost predicate Upwards(order: seq<Rel>) {
    forall i, j :: 0 <= i < j < |order| ==> order[i] != order[j] && !StrictlyBelow(order[j], order[i])
  }

  /** Folder p and everything below it, each once, every folder after what it holds. */
  ghost predicate BottomUp(nodes: map<Rel, Node>, p: Rel, order: seq<Rel>) {
    Upwards(order) && forall n :: n in order <==> n == p || n in Below(nodes, p)
  }

  /** The entries `handled` of p with all that lies in them. */
  ghost predicate Walked(nodes: map<Rel, Node>, p: Rel, handled: set<Rel>, order: seq<Rel>) {
    && Upwards(order)
    && forall n :: n in order <==> n in nodes && StrictlyBelow(n, p) && Branch(n, p) in handled
  }

  lemma WalkedOneMore(img: Image, p: Rel, handled: set<Rel>, order: seq<Rel>, c: Rel, sub: seq<Rel>)
    requires img.WellFormed() && Walked(img.nodes, p, handled, order)
    requires c in Children(img.nodes, p) && c !in handled && BottomUp(img.nodes, c, sub)
    ensures Walked(img.nodes, p, handled + {c}, order + sub)
  {
    var all := order + sub;
    forall n
      ensures n in all <==> n in img.nodes && StrictlyBelow(n, p) && Branch(n, p) in handled + {c}
    {
      if n in sub {
        BelowChild(n, c, p);
      }
      if n in img.nodes && StrictlyBelow(n, p) && Branch(n, p) == c {
        BranchIsChild(img, n, p);
      }
    }
    forall i, j | 0 <= i < j < |all|
      ensures all[i] != all[j] && !StrictlyBelow(all[j], all[i])
    {
      if i < |order| <= j {
        assert all[i] in order && all[j] in sub;
        BelowChild(all[j], c, p);
        assert Branch(all[i], p) in handled;
        SameBranch(all[j], all[i], p);
      } else if j < |order| {
        assert all[i] == order[i] && all[j] == order[j];
      } else {
        assert all[i] == sub[i - |order|] && all[j] == sub[j - |order|];
      }
    }
  }

  lemma WalkedAll(img: Image, p: Rel, order: seq<Rel>)
    requires img.WellFormed() && Walked(img.nodes, p, Children(img.nodes, p), order)
    ensures BottomUp(img.nodes, p, order + [p])
  {
    var all := order + [p];
    forall n
      ensures n in all <==> n == p || n in Below(img.nodes, p)
    {
      if n in img.nodes && StrictlyBelow(n, p) {
        BranchIsChild(img, n, p);
      }
    }
    forall i, j | 0 <= i < j < |all|
      ensures all[i] != all[j] && !StrictlyBelow(all[j], all[i])
    {
      if j == |order| {
        assert all[i] in order;
      }
    }
  }

  class Directory {
    var img: Image

    constructor (img: Image)
      ensures this.img == img
    {
      this.img := img;
    }

    /** `fsync_file`: open, fsync, close; any of them may fail. */
    method FsyncFile(t: Rel) returns (ok: bool)
      modifies this
      ensures img == if ok then old(img).Synced(t) else old(img)
    {
      ok := *;
      if ok {
        img := img.Synced(t);
      }
    }

    /** One entry of a folder: a folder is walked, a file is synced. */
    method SyncEntry(c: Rel) returns (ok: bool, ghost order: seq<Rel>)
      requires img.WellFormed() && c in img.nodes && c != []
      modifies this
      ensures img == SyncedAll(old(img), order)
      ensures ok ==> BottomUp(old(img).nodes, c, order)
      decreases |Below(img.nodes, c)|, 2
    {
      if img.IsFolder(c) {
        ok, order := FsyncDir(c);
      } else {
        NothingBelowFile(img, c);
        ok := FsyncFile(c);
        order := if ok then [c] else [];
        assert [c][..0] == [];
      }
    }

    /** The loop of `fsync_dir` over the entries of a folder. */
    method SyncEntries(p: Rel) returns (ok: bool, ghost order: seq<Rel>)
      requires img.WellFormed() && img.IsFolder(p)
      modifies this
      ensures img == SyncedAll(old(img), order)
      ensures ok ==> Walked(old(img).nodes, p, Children(old(img).nodes, p), order)
      decreases |Below(img.nodes, p)|, 0
    {
      order := [];
      ghost var start := img;
      var todo := Children(img.nodes, p);
      while todo != {}
        invariant Syncing(start, img, p, todo, order)
        decreases |todo|
      {
        var c :| c in todo;
        SubtreeSmaller(img.nodes, c, p);
        ghost var sub;
        ok, sub := SyncEntry(c);
        SyncedAllConcat(start, order, sub);
        if !ok {
          order := order + sub;
          return;
        }
        SyncingOn(start, p, todo, order, c, sub);
        todo, order := todo - {c}, order + sub;
      }
      ok := true;
      assert Children(start.nodes, p) - {} == Children(start.nodes, p);
    }

    /** `fsync_dir`: if nothing fails, it syncs p and everything below it, every folder after what it holds. */
    method FsyncDir(p: Rel) returns (ok: bool, ghost order: seq<Rel>)
      requires img.WellFormed() && img.IsFolder(p)
      modifies this
      ensures img == SyncedAll(old(img), order)
      ensures ok ==> BottomUp(old(img).nodes, p, order)
      decreases |Below(img.nodes, p)|, 1
    {
      ghost var start := img;
      ok, order := SyncEntries(p);
      if ok {
        WalkedAll(start, p, order);
        ok := FsyncFile(p);
        if ok {
          SyncedSnoc(start, order, p);
          order := order + [p];
        }
      }
    }

    /** `write_file_sync`: opening, writing, closing and syncing may each fail, and a failed write may leave
        part of the data. */
    method WriteFileSync(name: Rel, data: bytes) returns (ok: bool)
      requires img.WellFormed()
      modifies this
      ensures img.WellFormed()
      ensures ok ==> Fits(old(img), Put(name, data)) && img == Perform(old(img), Put(name, data)).Synced(name)
      ensures forall n :: n != name ==> (n in img.nodes <==> n in old(img).nodes) && (n in img.nodes ==> img.nodes[n] == old(img).nodes[n])
    {
      ok := *;
      if !ok || !Fits(img, Put(name, [])) {
        return false;
      }
      PerformKeepsWellFormed(img, Put(name, []));
      img := Perform(img, Put(name, []));
      ok := *;
      assert [] <= data;
      var written :| written <= data && (ok ==> written == data);
      PerformKeepsWellFormed(img, Put(name, written));
      PutTwice(old(img), name, written);
      img := Perform(img, Put(name, written));
      if ok {
        ok := FsyncFile(name);
      }
    }

    /** `commit` up to the rename: on success the directory has the marker beside what was there, and nothing
        of it can be lost in a crash. */
    method Prepare() returns (ok: bool)
      requires img.WellFormed()
      modifies this
      ensures ok ==> img.WellFormed() && img.Durable() && img.nodes == old(img).nodes[MARKER := File([])]
    {
      ok := WriteFileSync(MARKER, []);
      if ok {
        ghost var start := img;
        ghost var order;
        ok, order := FsyncDir([]);
        if ok {
          BottomUpIsDurable(start, order);
        }
      }
    }

    /** `remove`: a file, or an empty folder; anything may fail. */
    method RemoveOne(n: Rel) returns (ghost failed: bool)
      modifies this
      ensures img == if failed then old(img) else Publication.Removed(old(img), n)
    {
      var ok: bool := *;
      failed := !ok;
      if ok {
        img := Publication.Removed(img, n);
      }
    }

    /** The loop of `safe_remove_all` over the entries of a folder; it stops where listing fails. */
    method RemoveEntries(p: Rel) returns (ghost clean: bool, ghost order: seq<Rel>)
      requires Rooted(img)
      modifies this
      ensures img == RemovedAll(old(img), order) && Rooted(img) && AllBelow(p, order)
      ensures clean ==> Below(img.nodes, p) == {}
      decreases |Below(img.nodes, p)|, 0
    {
      order, clean := [], true;
      ghost var start := img;
      var todo := Children(img.nodes, p);
      while todo != {}
        invariant img == RemovedAll(start, order) && Rooted(img) && AllBelow(p, order)
        invariant img.nodes.Keys <= start.nodes.Keys && todo <= Children(start.nodes, p)
        invariant clean ==> Children(img.nodes, p) <= todo
        decreases |todo|
      {
        var listed: bool := *;
        if !listed {
          clean := false;
          break;
        }
        var c :| c in todo;
        todo := todo - {c};
        SubtreeSmaller(start.nodes, c, p);
        FewerBelow(img.nodes, start.nodes, c);
        ghost var cleanSub, sub;
        cleanSub, sub := SafeRemoveAll(c);
        RemovedAllConcat(start, order, sub);
        SelfLastWithin(c, sub);
        WithinChild(c, p, sub);
        clean, order := clean && cleanSub, order + sub;
      }
      if clean {
        NoChildrenNothingBelow(img, p);
      }
    }

    /** `safe_remove_all` below the directory: best effort and silent. It removes only what lies below p and
        then p itself, each folder after it is empty, and everything there if nothing fails. */
    method SafeRemoveAll(p: Rel) returns (ghost clean: bool, ghost order: seq<Rel>)
      requires Rooted(img)
      modifies this
      ensures img == RemovedAll(old(img), order) && Rooted(img) && SelfLast(p, order)
      ensures clean ==> p !in img.nodes && Below(img.nodes, p) == {}
      ensures img.nodes.Keys <= old(img).nodes.Keys
      decreases |Below(img.nodes, p)|, 1
    {
      ghost var start := img;
      clean, order := true, [];
      if img.IsFolder(p) {
        clean, order := RemoveEntries(p);
      } else {
        NothingBelowNonFolder(img, p);
      }
      if clean {
        EmptiedGoes(img, p);
      }
      ghost var failed := RemoveOne(p);
      if !failed {
        RemovedSnoc(start, order, p);
        assert (order + [p])[..|order|] == order;
        order := order + [p];
      }
      RemovedAllFewer(start, order);
      clean := clean && !failed;
    }
  }

  lemma PutTwice(img: Image, name: Rel, data: bytes)
    requires Fits(img, Put(name, []))
    ensures var touched := Perform(img, Put(name, []));
            Fits(touched, Put(name, data)) && Fits(img, Put(name, data)) && Perform(touched, Put(name, data)) == Perform(img, Put(name, data))
  {
    var touched := Perform(img, Put(name, []));
    assert touched.nodes[name := File(data)] == img.nodes[name := File(data)];
    assert touched.synced - {name} == img.synced - {name};
    assert img.linked - {name} - {name} == img.linked - {name};
  }

  // ---- What the walk achieves ----

  function Visited(order: seq<Rel>): set<Rel> { set n | n in order }

  lemma {:induction false} SyncedPending(img: Image, order: seq<Rel>, k: nat)
    requires img.WellFormed() && BottomUp(img.nodes, [], order) && k <= |order|
    ensures SyncedAll(img, order[..k]).WellFormed()
    ensures Pending(SyncedAll(img, order[..k]), img.SyncTargets() - Visited(order[..k]))
  {
    if k == 0 {
      AllTargetsPending(img);
      assert img.SyncTargets() - Visited(order[..0]) == img.SyncTargets();
    } else {
      SyncedPending(img, order, k - 1);
      var todo := img.SyncTargets() - Visited(order[..k - 1]);
      var t := order[k - 1];
      assert order[..k] == order[..k - 1] + [t];
      assert t in order;
      SyncedSnoc(img, order[..k - 1], t);
      SyncedIsProgress(SyncedAll(img, order[..k - 1]), todo, t);
      assert todo - {t} == img.SyncTargets() - Visited(order[..k]);
    }
  }

  /** A complete walk makes the directory durable. */
  lemma BottomUpIsDurable(img: Image, order: seq<Rel>)
    requires img.WellFormed() && BottomUp(img.nodes, [], order)
    ensures SyncedAll(img, order).Durable() && SyncedAll(img, order).WellFormed()
  {
    SyncedPending(img, order, |order|);
    assert order[..|order|] == order;
    var left := img.SyncTargets() - Visited(order);
    forall n | n in img.SyncTargets()
      ensures n in order
    {
      assert n == [] || n in Below(img.nodes, []);
    }
    assert left == {};
    NothingPendingIsDurable(SyncedAll(img, order));
  }

  lemma EarlierIsVisited(order: seq<Rel>, j: nat, k: nat)
    requires j < |order| && k <= |order|
    ensures j < k ==> order[j] in Visited(order[..k])
  {
    if j < k {
      assert order[..k][j] == order[j];
    }
  }

  /** Every step of the walk is one that the protocol of the disk cache allows: the target is still to be
      visited, and a folder comes when nothing below it is left. */
  lemma WalkFollowsProtocol(img: Image, order: seq<Rel>, k: nat)
    requires BottomUp(img.nodes, [], order) && k < |order|
    ensures var todo := img.SyncTargets() - Visited(order[..k]);
            order[k] in todo && forall t :: t in todo ==> !StrictlyBelow(t, order[k])
  {
    var todo := img.SyncTargets() - Visited(order[..k]);
    assert order[k] in order;
    forall t | t in todo
      ensures !StrictlyBelow(t, order[k])
    {
      assert t in order by {
        assert t == [] || t in Below(img.nodes, []);
      }
      var j :| 0 <= j < |order| && order[j] == t;
      EarlierIsVisited(order, j, k);
    }
  }

  // ---- safe_remove_all ----

  function RemovedAll(img: Image, order: seq<Rel>): Image {
    if order == [] then img else Publication.Removed(RemovedAll(img, order[..|order| - 1]), order[|order| - 1])
  }

  predicate Within(p: Rel, order: seq<Rel>) { forall n :: n in order ==> p <= n }

  predicate AllBelow(p: Rel, order: seq<Rel>) { forall n :: n in order ==> StrictlyBelow(n, p) }

  /** Everything comes before p itself. */
  predicate SelfLast(p: Rel, order: seq<Rel>) {
    AllBelow(p, order) || (order != [] && order[|order| - 1] == p && AllBelow(p, order[..|order| - 1]))
  }

  lemma SelfLastWithin(p: Rel, order: seq<Rel>)
    requires SelfLast(p, order)
    ensures Within(p, order)
  {
    if !AllBelow(p, order) {
      assert order == order[..|order| - 1] + [p];
    }
  }

  lemma RemovedSnoc(img: Image, order: seq<Rel>, n: Rel)
    ensures RemovedAll(img, order + [n]) == Publication.Removed(RemovedAll(img, order), n)
  {
    assert (order + [n])[..|order|] == order;
  }

  lemma {:induction false} RemovedAllConcat(img: Image, a: seq<Rel>, b: seq<Rel>)
    ensures RemovedAll(img, a + b) == RemovedAll(RemovedAll(img, a), b)
  {
    if b == [] {
      assert a + b == a;
    } else {
      RemovedAllConcat(img, a, b[..|b| - 1]);
      assert (a + b)[..|a + b| - 1] == a + b[..|b| - 1];
    }
  }

  /** The protocol's state after its removal of u has visited these nodes in turn. */
  function RemovalRun(s: Publication.State, j: nat, u: nat, order: seq<Rel>): Publication.State
    requires j in s.jobs
    ensures j in RemovalRun(s, j, u, order).jobs
  {
    if order == [] then s
    else Publication.RemoveStep(RemovalRun(s, j, u, order[..|order| - 1]), j, u, Publication.Visit(order[|order| - 1]))
  }

  lemma {:induction false} VisitsRemove(s: Publication.State, j: nat, u: nat, order: seq<Rel>)
    requires j in s.jobs && Publication.TmpBound(s, s.jobs[j].root, u) && AllBelow([], order)
    ensures var d := s.names[Publication.Tmp(s.jobs[j].root, u)];
            RemovalRun(s, j, u, order) == Publication.SetImage(s, d, RemovedAll(s.images[d], order))
  {
    var d := s.names[Publication.Tmp(s.jobs[j].root, u)];
    if order == [] {
      assert s.images[d := s.images[d]] == s.images;
    } else {
      var before := order[..|order| - 1];
      VisitsRemove(s, j, u, before);
      assert order[|order| - 1] in order;
    }
  }

  /** What `safe_remove_all` does to a temporary directory is what the protocol's removal job can do, step by
      step: the same nodes go in the same order, and a last visit of the emptied directory takes its name. */
  lemma RemovalFollowsProtocol(s: Publication.State, j: nat, u: nat, order: seq<Rel>)
    requires j in s.jobs && Publication.TmpBound(s, s.jobs[j].root, u) && SelfLast([], order)
    ensures var tmp := Publication.Tmp(s.jobs[j].root, u);
            var d := s.names[tmp];
            var s' := RemovalRun(s, j, u, order);
            if AllBelow([], order) then s' == Publication.SetImage(s, d, RemovedAll(s.images[d], order))
            else if RemovedAll(s.images[d], order[..|order| - 1]).nodes == map[] then
              && s'.names == s.names - {tmp} && d in s'.images && s'.images[d] == RemovedAll(s.images[d], order[..|order| - 1])
              && s'.jobs[j].work == Publication.Done(Publication.Good)
            else s'.names == s.names && d in s'.images && s'.images[d] == RemovedAll(s.images[d], order)
  {
    if AllBelow([], order) {
      VisitsRemove(s, j, u, order);
    } else {
      VisitsRemove(s, j, u, order[..|order| - 1]);
    }
  }

  /** Every node lies in a folder. */
  ghost predicate Rooted(img: Image) { Image(img.nodes, {}, {}, {}).WellFormed() }

  lemma {:induction false} RemovedAllFewer(img: Image, order: seq<Rel>)
    requires Rooted(img)
    ensures Rooted(RemovedAll(img, order))
    ensures RemovedAll(img, order).nodes.Keys <= img.nodes.Keys
  {
    if order != [] {
      RemovedAllFewer(img, order[..|order| - 1]);
      RemovedKeepsRooted(RemovedAll(img, order[..|order| - 1]), order[|order| - 1]);
    }
  }

  lemma RemovedKeepsRooted(img: Image, n: Rel)
    requires Rooted(img)
    ensures Rooted(Publication.Removed(img, n)) && Publication.Removed(img, n).nodes.Keys <= img.nodes.Keys
  {
    var bare := Image(img.nodes, {}, {}, {});
    forall m | m in Publication.Removed(img, n).nodes && Publication.Removed(img, n).nodes != img.nodes
      ensures bare.IsFolder(Parent(m)) && m != [] && Parent(m) != n
    {
      assert Parent(m) == n ==> StrictlyBelow(m, n);
    }
  }

  lemma WithinChild(c: Rel, p: Rel, order: seq<Rel>)
    requires c != [] && Parent(c) == p && Within(c, order)
    ensures AllBelow(p, order)
  {
    forall n | n in order
      ensures StrictlyBelow(n, p)
    {
      assert n[..|c|] == c && c[..|p|] == p;
      assert n[..|p|] == c[..|p|];
    }
  }

  lemma EmptiedGoes(img: Image, p: Rel)
    requires Below(img.nodes, p) == {}
    ensures p !in Publication.Removed(img, p).nodes && Below(Publication.Removed(img, p).nodes, p) == {}
  {
    assert forall m :: m in img.nodes && StrictlyBelow(m, p) ==> m in Below(img.nodes, p);
    FewerBelow(Publication.Removed(img, p).nodes, img.nodes, p);
  }

  lemma FewerBelow(few: map<Rel, Node>, many: map<Rel, Node>, p: Rel)
    requires few.Keys <= many.Keys
    ensures |Below(few, p)| <= |Below(many, p)|
  {
    SubsetSmaller(Below(few, p), Below(many, p));
  }

  lemma NoChildrenNothingBelow(img: Image, p: Rel)
    requires Rooted(img) && Children(img.nodes, p) == {}
    ensures Below(img.nodes, p) == {}
  {
    forall n | n in img.nodes && StrictlyBelow(n, p)
      ensures false
    {
      BranchIsChild(Image(img.nodes, {}, {}, {}), n, p);
    }
  }

  lemma NothingBelowNonFolder(img: Image, p: Rel)
    requires Rooted(img) && !img.IsFolder(p)
    ensures Below(img.nodes, p) == {}
  {
    forall n | n in img.nodes && StrictlyBelow(n, p)
      ensures false
    {
      BranchIsChild(Image(img.nodes, {}, {}, {}), n, p);
    }
  }

  // ---- The loop of fsync_dir ----

  /** The loop has handled all entries of p but `todo`. */
  ghost predicate Syncing(start: Image, img: Image, p: Rel, todo: set<Rel>, order: seq<Rel>) {
    && start.WellFormed() && img.WellFormed() && img == SyncedAll(start, order)
    && todo <= Children(start.nodes, p) && Walked(start.nodes, p, Children(start.nodes, p) - todo, order)
  }

  lemma SyncingOn(start: Image, p: Rel, todo: set<Rel>, order: seq<Rel>, c: Rel, sub: seq<Rel>)
    requires Syncing(start, SyncedAll(start, order), p, todo, order) && c in todo && BottomUp(start.nodes, c, sub)
    ensures Syncing(start, SyncedAll(start, order + sub), p, todo - {c}, order + sub)
  {
    var all := Children(start.nodes, p);
    WalkedOneMore(start, p, all - todo, order, c, sub);
    assert all - (todo - {c}) == (all - todo) + {c};
    SyncedKeepsWellFormed(start, order + sub);
  }

  lemma SyncedSnoc(img: Image, order: seq<Rel>, t: Rel)
    ensures SyncedAll(img, order + [t]) == SyncedAll(img, order).Synced(t)
  {
    assert (order + [t])[..|order|] == order;
  }

  lemma NothingBelowFile(img: Image, f: Rel)
    requires img.WellFormed() && f in img.nodes && img.nodes[f].File?
    ensures f != [] && Below(img.nodes, f) == {} && BottomUp(img.nodes, f, [f])
  {
    forall n | n in img.nodes && StrictlyBelow(n, f)
      ensures false
    {
      BranchIsChild(img, n, f);
    }
  }

  lemma {:induction false} SyncedKeepsWellFormed(img: Image, order: seq<Rel>)
    requires img.WellFormed()
    ensures SyncedAll(img, order).WellFormed()
  {
    if order != [] {
      SyncedKeepsWellFormed(img, order[..|order| - 1]);
    }
  }
}
