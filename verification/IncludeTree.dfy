/** The unfolded include tree of a source, its digest, and what the digest determines. */
module IncludeTree {
  import opened Bytes
  import opened IncludeScan

  /** The include path, the tracked prefixes, and the files on disk. A file is named by the include
      directory it lies in and its name below that directory. */
  datatype Sources = Sources(dirs: seq<bytes>, prefixes: seq<bytes>, files: map<(bytes, bytes), Str>) {

    /** The contents of the first match along the include path. */
    function Lookup(name: bytes): Option<Str> { LookupIn(dirs, name) }

    function LookupIn(ds: seq<bytes>, name: bytes): Option<Str> {
      if ds == [] then None
      else if (ds[0], name) in files then Some(files[(ds[0], name)])
      else LookupIn(ds[1..], name)
    }

    ghost function Names(): set<bytes> { set p | p in files.Keys :: p.1 }

    lemma {:induction false} LookupNames(ds: seq<bytes>, name: bytes)
      requires LookupIn(ds, name).Some?
      ensures name in Names()
    {
      if (ds[0], name) in files {
        assert (ds[0], name).1 == name;
      } else {
        LookupNames(ds[1..], name);
      }
    }

    predicate Edge(code: Str, name: bytes) { Tracked(name) in Directives(prefixes, code) }
  }

  /** A source with the sources it tracks, fully unfolded. */
  datatype Tree = Tree(code: Str, children: seq<Tree>)

  /** t is the complete unfolding of `code`: every directive is standard, every tracked file is found,
      and the children unfold those files in order. Trees are finite, so a source on or above an
      include cycle has no unfolding. */
  ghost predicate Unfolds(src: Sources, code: Str, t: Tree)
    decreases t
  {
    var ds := Directives(src.prefixes, code);
    && t.code == code
    && |t.children| == |ds|
    && forall i :: 0 <= i < |ds| ==>
         ds[i].Tracked? && src.Lookup(ds[i].name).Some? && Unfolds(src, src.Lookup(ds[i].name).value, t.children[i])
  }

  /** A hash of component lists. Everything here holds for any hash. */
  type Hash = seq<Str> -> Str

  /** The digest without any memo: the code, then the digests of the children, as one hash chain. */
  function TreeDigest(h: Hash, t: Tree): Str
    decreases t, 1
  {
    h(Parts(h, t))
  }

  function Parts(h: Hash, t: Tree): (ps: seq<Str>)
    ensures |ps| == 1 + |t.children|
    decreases t, 0
  {
    [t.code] + Digests(h, t.children)
  }

  function Digests(h: Hash, ts: seq<Tree>): (ds: seq<Str>)
    ensures |ds| == |ts|
    decreases ts
  {
    if ts == [] then [] else [TreeDigest(h, ts[0])] + Digests(h, ts[1..])
  }

  lemma {:induction false} DigestsAt(h: Hash, ts: seq<Tree>, i: nat)
    requires i < |ts|
    ensures Digests(h, ts)[i] == TreeDigest(h, ts[i])
  {
    if i > 0 {
      DigestsAt(h, ts[1..], i - 1);
    }
  }

  // ---- Unfoldings are unique ----

  lemma {:induction false} UnfoldingUnique(src: Sources, code: Str, t: Tree, u: Tree)
    requires Unfolds(src, code, t) && Unfolds(src, code, u)
    ensures t == u
    decreases t
  {
    var ds := Directives(src.prefixes, code);
    forall i | 0 <= i < |ds|
      ensures t.children[i] == u.children[i]
    {
      UnfoldingUnique(src, src.Lookup(ds[i].name).value, t.children[i], u.children[i]);
    }
    assert t.children == u.children;
  }

  // ---- Paths and faults in the include graph ----

  /** The source reached from `code` along a path of tracked names, if every file on it is found. */
  function Follow(src: Sources, code: Str, path: seq<bytes>): Option<Str>
    decreases |path|
  {
    if path == [] then Some(code)
    else if !src.Edge(code, path[0]) || src.Lookup(path[0]) == None then None
    else Follow(src, src.Lookup(path[0]).value, path[1..])
  }

  lemma {:induction false} FollowConcat(src: Sources, code: Str, a: seq<bytes>, b: seq<bytes>)
    requires Follow(src, code, a).Some?
    ensures Follow(src, code, a + b) == Follow(src, Follow(src, code, a).value, b)
    decreases |a|
  {
    if a == [] {
      assert a + b == b;
    } else {
      assert (a + b)[1..] == a[1..] + b;
      FollowConcat(src, src.Lookup(a[0]).value, a[1..], b);
    }
  }

  lemma {:induction false} FollowPrefix(src: Sources, code: Str, a: seq<bytes>, b: seq<bytes>)
    requires Follow(src, code, a + b).Some?
    ensures Follow(src, code, a).Some?
    decreases |a|
  {
    if a != [] {
      assert (a + b)[1..] == a[1..] + b;
      FollowPrefix(src, src.Lookup(a[0]).value, a[1..], b);
    }
  }

  datatype Fault = NonStandardLine | MissingFile(name: bytes) | CircularInclude(name: bytes)

  /** The fault lies at the end of a path from the root source. */
  ghost predicate FaultAt(src: Sources, root: Str, path: seq<bytes>, f: Fault) {
    var end := Follow(src, root, path);
    && end.Some?
    && match f
       case NonStandardLine => NonStandard in Directives(src.prefixes, end.value)
       case MissingFile(name) => src.Edge(end.value, name) && src.Lookup(name) == None
       case CircularInclude(name) => src.Edge(end.value, name) && name in path
  }

  function Size(t: Tree): (n: nat)
    ensures n > 0
    decreases t
  {
    1 + SizeAll(t.children)
  }

  function SizeAll(ts: seq<Tree>): nat
    decreases ts
  {
    if ts == [] then 0 else Size(ts[0]) + SizeAll(ts[1..])
  }

  lemma {:induction false} ChildSmaller(ts: seq<Tree>, i: nat)
    requires i < |ts|
    ensures Size(ts[i]) <= SizeAll(ts)
  {
    if i > 0 {
      ChildSmaller(ts[1..], i - 1);
    }
  }

  /** What a path from an unfolded source reaches is unfolded too, by a smaller tree if it moved. */
  lemma {:induction false} UnfoldsBelow(src: Sources, code: Str, t: Tree, path: seq<bytes>) returns (u: Tree)
    requires Unfolds(src, code, t) && Follow(src, code, path).Some?
    ensures Unfolds(src, Follow(src, code, path).value, u)
    ensures Size(u) <= Size(t) && (path != [] ==> Size(u) < Size(t))
    decreases |path|
  {
    if path == [] {
      u := t;
    } else {
      var ds := Directives(src.prefixes, code);
      var i :| 0 <= i < |ds| && ds[i] == Tracked(path[0]);
      ChildSmaller(t.children, i);
      u := UnfoldsBelow(src, src.Lookup(path[0]).value, t.children[i], path[1..]);
    }
  }

  /** A path that ends with a file reaches exactly that file. */
  lemma FollowLast(src: Sources, code: Str, path: seq<bytes>, name: bytes)
    requires Follow(src, code, path + [name]).Some?
    ensures Follow(src, code, path).Some?
    ensures src.Lookup(name) == Follow(src, code, path + [name])
  {
    FollowPrefix(src, code, path, [name]);
    FollowConcat(src, code, path, [name]);
    assert [name][1..] == [];
  }

  lemma CycleDoesNotUnfold(src: Sources, code: Str, loop: seq<bytes>, t: Tree)
    requires loop != [] && Follow(src, code, loop) == Some(code)
    ensures !Unfolds(src, code, t)
  {
    if Unfolds(src, code, t) {
      var u := UnfoldsBelow(src, code, t, loop);
      UnfoldingUnique(src, code, t, u);
    }
  }

  /** Including a file that is already on the path closes a cycle. */
  lemma CircularClosesCycle(src: Sources, root: Str, path: seq<bytes>, name: bytes)
    returns (entry: seq<bytes>, entered: Str, loop: seq<bytes>)
    requires FaultAt(src, root, path, CircularInclude(name))
    ensures Follow(src, root, entry) == Some(entered)
    ensures loop != [] && Follow(src, entered, loop) == Some(entered)
  {
    var j :| 0 <= j < |path| && path[j] == name;
    var rest := path[j + 1..];
    entry := path[..j] + [name];
    assert path == entry + rest;
    FollowPrefix(src, root, entry, rest);
    FollowConcat(src, root, entry, rest);
    FollowLast(src, root, path[..j], name);
    entered := Follow(src, root, entry).value;
    loop := rest + [name];
    FollowConcat(src, entered, rest, [name]);
    assert [name][1..] == [];
  }

  /** A reachable fault leaves the root without an unfolding. */
  lemma FaultPreventsUnfolding(src: Sources, root: Str, path: seq<bytes>, f: Fault, t: Tree)
    requires FaultAt(src, root, path, f)
    ensures !Unfolds(src, root, t)
  {
    if Unfolds(src, root, t) {
      if f.CircularInclude? {
        var entry, entered, loop := CircularClosesCycle(src, root, path, f.name);
        var u := UnfoldsBelow(src, root, t, entry);
        CycleDoesNotUnfold(src, entered, loop, u);
      } else {
        var u := UnfoldsBelow(src, root, t, path);
      }
    }
  }

  // ---- The Merkle property ----

  /** u is t or lies below it. */
  ghost predicate Within(u: Tree, t: Tree)
    decreases t
  {
    u == t || exists i :: 0 <= i < |t.children| && Within(u, t.children[i])
  }

  /** Equal digests of different trees carry an explicit hash collision between the component lists of
      two of their nodes. The trees may come from different files, processes or machines. */
  lemma {:induction false} Merkle(h: Hash, t: Tree, u: Tree) returns (a: Tree, b: Tree)
    requires TreeDigest(h, t) == TreeDigest(h, u) && t != u
    ensures Within(a, t) && Within(b, u)
    ensures Parts(h, a) != Parts(h, b) && h(Parts(h, a)) == h(Parts(h, b))
    decreases t
  {
    if Parts(h, t) != Parts(h, u) {
      a, b := t, u;
    } else {
      assert Parts(h, t)[0] == t.code && Parts(h, u)[0] == u.code;
      assert Digests(h, t.children) == Parts(h, t)[1..] == Parts(h, u)[1..] == Digests(h, u.children);
      assert t.children != u.children;
      var i :| 0 <= i < |t.children| && t.children[i] != u.children[i];
      DigestsAt(h, t.children, i);
      DigestsAt(h, u.children, i);
      a, b := Merkle(h, t.children[i], u.children[i]);
    }
  }
}
