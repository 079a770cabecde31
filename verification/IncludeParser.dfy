/** The memoised, cycle-checked include parser of include/deep_jit/utils/parser.hpp. */
module IncludeParser {
  import opened Bytes
  import opened IncludeScan
  import opened IncludeTree
  import Fnv

  datatype Result = Ok(digest: Str) | Err(fault: Fault)

  /** d is the cache-free digest of the source `code`. */
  ghost predicate IsDigest(h: Hash, src: Sources, code: Str, d: Str) {
    exists t: Tree :: Unfolds(src, code, t) && d == TreeDigest(h, t)
  }

  ghost predicate IsFileDigest(h: Hash, src: Sources, name: bytes, d: Str) {
    src.Lookup(name).Some? && IsDigest(h, src, src.Lookup(name).value, d)
  }

  ghost predicate HasFault(src: Sources, root: Str, f: Fault) {
    exists path :: FaultAt(src, root, path, f)
  }

  /** Digests of the tracked files, in the order of the directives. */
  ghost predicate Digested(h: Hash, src: Sources, ds: seq<Scan>, digests: seq<Str>) {
    && |digests| == |ds|
    && forall i :: 0 <= i < |ds| ==> ds[i].Tracked? && IsFileDigest(h, src, ds[i].name, digests[i])
  }

  lemma {:induction false} CollectTrees(h: Hash, src: Sources, ds: seq<Scan>, digests: seq<Str>) returns (ts: seq<Tree>)
    requires Digested(h, src, ds, digests)
    ensures |ts| == |ds| && Digests(h, ts) == digests
    ensures forall i :: 0 <= i < |ds| ==> Unfolds(src, src.Lookup(ds[i].name).value, ts[i])
  {
    ts := [];
    if ds != [] {
      assert IsFileDigest(h, src, ds[0].name, digests[0]);
      var t: Tree :| Unfolds(src, src.Lookup(ds[0].name).value, t) && digests[0] == TreeDigest(h, t);
      assert Digested(h, src, ds[1..], digests[1..]);
      var rest := CollectTrees(h, src, ds[1..], digests[1..]);
      ts := [t] + rest;
      assert ts[1..] == rest && digests == [digests[0]] + digests[1..];
    }
  }

  lemma ChainIsDigest(h: Hash, src: Sources, code: Str, digests: seq<Str>)
    requires Digested(h, src, Directives(src.prefixes, code), digests)
    ensures IsDigest(h, src, code, h([code] + digests))
  {
    var ts := CollectTrees(h, src, Directives(src.prefixes, code), digests);
    var t := Tree(code, ts);
    assert Unfolds(src, code, t);
    assert Parts(h, t) == [code] + digests;
  }

  function LineRest(view: bytes): bytes {
    var newline := FindNewline(view);
    if newline == |view| then [] else view[newline + 1..]
  }

  /** The scan of `code` has come to `view`, with these digests taken. */
  ghost predicate Scanned(h: Hash, src: Sources, code: Str, view: bytes, digests: seq<Str>) {
    var all := Directives(src.prefixes, code);
    && |digests| <= |all|
    && all[|digests|..] == Directives(src.prefixes, view)
    && Digested(h, src, all[..|digests|], digests)
  }

  function LineVerdict(prefixes: seq<bytes>, view: bytes): Scan { ParseInclude(prefixes, view[..FindNewline(view)]) }

  lemma DirectivesStep(prefixes: seq<bytes>, view: bytes)
    requires view != []
    ensures var d := LineVerdict(prefixes, view);
            Directives(prefixes, view) == (if d == Untracked then [] else [d]) + Directives(prefixes, LineRest(view))
  {
  }

  lemma DropStep(all: seq<Scan>, n: nat, d: Scan, tail: seq<Scan>)
    requires n <= |all| && all[n..] == [d] + tail
    ensures n < |all| && all[n] == d && all[n + 1..] == tail && all[..n + 1] == all[..n] + [d]
  {
    assert all[n] == all[n..][0];
    assert all[n + 1..] == all[n..][1..];
  }

  lemma ScanLine(h: Hash, src: Sources, code: Str, view: bytes, digests: seq<Str>, d: Scan)
    requires Scanned(h, src, code, view, digests) && view != [] && d == LineVerdict(src.prefixes, view)
    ensures d == Untracked ==> Scanned(h, src, code, LineRest(view), digests)
    ensures d == NonStandard ==> NonStandard in Directives(src.prefixes, code)
    ensures d.Tracked? ==> src.Edge(code, d.name)
  {
    DirectivesStep(src.prefixes, view);
    var tail := Directives(src.prefixes, LineRest(view));
    if d == Untracked {
      assert [] + tail == tail;
    } else {
      DropStep(Directives(src.prefixes, code), |digests|, d, tail);
    }
  }

  lemma DigestedMore(h: Hash, src: Sources, ds: seq<Scan>, digests: seq<Str>, name: bytes, digest: Str)
    requires Digested(h, src, ds, digests) && IsFileDigest(h, src, name, digest)
    ensures Digested(h, src, ds + [Tracked(name)], digests + [digest])
  {
  }

  lemma ScanTracked(h: Hash, src: Sources, code: Str, view: bytes, digests: seq<Str>, name: bytes, digest: Str)
    requires Scanned(h, src, code, view, digests) && view != []
    requires LineVerdict(src.prefixes, view) == Tracked(name) && IsFileDigest(h, src, name, digest)
    ensures Scanned(h, src, code, LineRest(view), digests + [digest])
  {
    var all := Directives(src.prefixes, code);
    DirectivesStep(src.prefixes, view);
    DropStep(all, |digests|, Tracked(name), Directives(src.prefixes, LineRest(view)));
    DigestedMore(h, src, all[..|digests|], digests, name, digest);
  }

  lemma ScanDone(h: Hash, src: Sources, code: Str, digests: seq<Str>)
    requires Scanned(h, src, code, [], digests)
    ensures IsDigest(h, src, code, h([code] + digests))
  {
    var all := Directives(src.prefixes, code);
    assert all[|digests|..] == [];
    assert all[..|digests|] == all;
    ChainIsDigest(h, src, code, digests);
  }

  lemma DigestUnique(h: Hash, src: Sources, code: Str, d: Str, e: Str)
    requires IsDigest(h, src, code, d) && IsDigest(h, src, code, e)
    ensures d == e
  {
    var t: Tree :| Unfolds(src, code, t) && d == TreeDigest(h, t);
    var u: Tree :| Unfolds(src, code, u) && e == TreeDigest(h, u);
    UnfoldingUnique(src, code, t, u);
  }

  lemma FaultPreventsDigest(h: Hash, src: Sources, code: Str, f: Fault, d: Str)
    requires HasFault(src, code, f)
    ensures !IsDigest(h, src, code, d)
  {
    var path :| FaultAt(src, code, path, f);
    forall t: Tree ensures !Unfolds(src, code, t) {
      FaultPreventsUnfolding(src, code, path, f, t);
    }
  }

  class Parser {
    const src: Sources
    ghost const h: Hash
    var cache: map<bytes, Str>
    var visiting: set<bytes>

    constructor (src: Sources, ghost h: Hash)
      requires Fnv.IsHash(h)
      ensures this.src == src && this.h == h && Valid() && visiting == {}
    {
      this.src := src;
      this.h := h;
      cache := map[];
      visiting := {};
    }

    /** Every memo entry is the digest of a file without faults below it. */
    ghost predicate Valid()
      reads this
    {
      && Fnv.IsHash(h)
      && forall k :: k in cache ==> IsFileDigest(h, src, k, cache[k])
    }

    /** `visiting` holds the files on the path from the root to the source being parsed. */
    ghost predicate OnTrail(root: Str, trail: seq<bytes>, code: Str)
      reads this
    {
      visiting == (set n | n in trail) && Follow(src, root, trail) == Some(code)
    }

    /** What a parse call keeps, on success and on failure. */
    twostate predicate Kept()
      reads this
    {
      && Valid() && visiting == old(visiting)
      && forall k :: k in old(cache) ==> k in cache && cache[k] == old(cache[k])
    }

    method FindFile(name: bytes) returns (code: Option<Str>)
      ensures code == src.Lookup(name)
    {
      for i := 0 to |src.dirs|
        invariant src.Lookup(name) == src.LookupIn(src.dirs[i..], name)
      {
        if (src.dirs[i], name) in src.files {
          return Some(src.files[(src.dirs[i], name)]);
        }
      }
      return None;
    }

    method ParseIncludesIntoHash(name: bytes, ghost root: Str, ghost trail: seq<bytes>, ghost above: Str)
      returns (r: Result)
      requires Valid() && OnTrail(root, trail, above) && src.Edge(above, name)
      modifies this
      ensures Kept()
      ensures r.Ok? ==> IsFileDigest(h, src, name, r.digest)
      ensures r.Err? ==> HasFault(src, root, r.fault)
      decreases src.Names() - visiting, 0
    {
      if name in cache {
        return Ok(cache[name]);
      }
      if name in visiting {
        assert FaultAt(src, root, trail, CircularInclude(name));
        return Err(CircularInclude(name));
      }
      ghost var before := visiting;
      visiting := visiting + {name};
      var code := FindFile(name);
      if code == None {
        visiting := visiting - {name};
        assert FaultAt(src, root, trail, MissingFile(name));
        return Err(MissingFile(name));
      }
      src.LookupNames(src.dirs, name);
      FollowConcat(src, root, trail, [name]);
      assert [name][1..] == [];
      r := ParseIntoHash(code.value, root, trail + [name]);
      visiting := visiting - {name};
      if r.Ok? {
        cache := cache[name := r.digest];
      }
    }

    /** The next line of the scan. */
    method NextLine(code: Str, view: bytes, ghost digests: seq<Str>) returns (d: Scan, rest: bytes)
      requires view != [] && Scanned(h, src, code, view, digests)
      ensures d == LineVerdict(src.prefixes, view) && rest == LineRest(view) && |rest| < |view|
      ensures d == Untracked ==> Scanned(h, src, code, rest, digests)
      ensures d == NonStandard ==> NonStandard in Directives(src.prefixes, code)
      ensures d.Tracked? ==> src.Edge(code, d.name)
    {
      var newline := FindNewline(view);
      d := ParseInclude(src.prefixes, view[..newline]);
      ScanLine(h, src, code, view, digests, d);
      rest := if newline == |view| then [] else view[newline + 1..];
    }

    /** The digest of a tracked file goes into the hash. */
    method HashTracked(code: Str, view: bytes, hash: Fnv.FNV1a, name: bytes, digest: Str, ghost digests: seq<Str>)
      returns (ghost more: seq<Str>)
      requires Scanned(h, src, code, view, digests) && Fnv.Chained(hash.Value(), [code] + digests)
      requires view != [] && LineVerdict(src.prefixes, view) == Tracked(name) && IsFileDigest(h, src, name, digest)
      modifies hash
      ensures Scanned(h, src, code, LineRest(view), more) && Fnv.Chained(hash.Value(), [code] + more)
    {
      ScanTracked(h, src, code, view, digests, name, digest);
      Fnv.ExtendChain(hash, digest, [code] + digests);
      more := digests + [digest];
      assert [code] + digests + [digest] == [code] + more;
    }

    /** One line of the scan: what it tracks is parsed and hashed. */
    method ParseLine(code: Str, view: bytes, hash: Fnv.FNV1a, ghost root: Str, ghost trail: seq<bytes>, ghost digests: seq<Str>)
      returns (fault: Option<Fault>, rest: bytes, ghost more: seq<Str>)
      requires Valid() && OnTrail(root, trail, code) && view != []
      requires Scanned(h, src, code, view, digests) && Fnv.Chained(hash.Value(), [code] + digests)
      modifies this, hash
      ensures Kept()
      ensures fault.Some? ==> HasFault(src, root, fault.value)
      ensures fault == None ==> |rest| < |view| && Scanned(h, src, code, rest, more) && Fnv.Chained(hash.Value(), [code] + more)
      decreases src.Names() - visiting, 1
    {
      var d;
      d, rest := NextLine(code, view, digests);
      fault, more := None, digests;
      if d == NonStandard {
        assert FaultAt(src, root, trail, NonStandardLine);
        fault := Some(NonStandardLine);
      } else if d.Tracked? {
        var r := ParseIncludesIntoHash(d.name, root, trail, code);
        if r.Err? {
          fault := Some(r.fault);
        } else {
          more := HashTracked(code, view, hash, d.name, r.digest, digests);
        }
      }
    }

    method ParseIntoHash(code: Str, ghost root: Str, ghost trail: seq<bytes>) returns (r: Result)
      requires Valid() && OnTrail(root, trail, code)
      modifies this
      ensures Kept()
      ensures r.Ok? ==> IsDigest(h, src, code, r.digest)
      ensures r.Err? ==> HasFault(src, root, r.fault)
      decreases src.Names() - visiting, 2
    {
      var hash := Fnv.StartChain();
      Fnv.ExtendChain(hash, code, []);
      ghost var digests: seq<Str> := [];
      var view: bytes := code;
      while |view| > 0
        invariant fresh(hash) && Kept()
        invariant Scanned(h, src, code, view, digests)
        invariant Fnv.Chained(hash.Value(), [code] + digests)
        decreases |view|
      {
        var fault;
        fault, view, digests := ParseLine(code, view, hash, root, trail, digests);
        if fault.Some? {
          return Err(fault.value);
        }
      }
      ScanDone(h, src, code, digests);
      var digest := Fnv.FinishChain(hash, [code] + digests, h);
      return Ok(digest);
    }

    /** A top-level call. Whatever earlier calls left in the memo, the result is the cache-free digest;
        it is an error exactly when the tracked graph has a reachable fault. */
    method Parse(code: Str) returns (r: Result)
      requires Valid() && visiting == {}
      modifies this
      ensures Kept()
      ensures forall d :: IsDigest(h, src, code, d) <==> r == Ok(d)
      ensures r.Err? <==> exists f :: HasFault(src, code, f)
    {
      r := ParseIntoHash(code, code, []);
      forall f, d | HasFault(src, code, f)
        ensures !IsDigest(h, src, code, d)
      {
        FaultPreventsDigest(h, src, code, f, d);
      }
      forall d, e | IsDigest(h, src, code, d) && IsDigest(h, src, code, e)
        ensures d == e
      {
        DigestUnique(h, src, code, d, e);
      }
    }
  }
}
