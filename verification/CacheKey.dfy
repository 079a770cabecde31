/** What a compile request hashes, in the order of `Runtime::cache_key` (include/deep_jit/runtime/runtime.hpp). */
module CacheKey {
  import opened Bytes
  import opened IncludeTree

  /** The keyed inputs: extra signature, compiler information, the strings that the options feed, the post
      hook's digest, and the source with its tracked include tree. */
  datatype Input = Input(signature: Str, compiler: Str, options: seq<Str>, hook: Str, source: Tree)

  /** The components of the key, in hashing order. */
  function Components(h: Hash, x: Input): seq<Str> {
    [x.signature, x.compiler] + x.options + [x.hook, TreeDigest(h, x.source)]
  }

  function Key(h: Hash, x: Input): Str { h(Components(h, x)) }

  /** Two component lists with one digest. */
  ghost predicate Collision(h: Hash, a: seq<Str>, b: seq<Str>) { a != b && h(a) == h(b) }

  /** The component lists that hashing x touches: its own, and those of the nodes of its include tree. */
  ghost predicate HashedBy(h: Hash, x: Input, parts: seq<Str>) {
    parts == Components(h, x) || exists t: Tree :: Within(t, x.source) && parts == Parts(h, t)
  }

  /** Different inputs with one key carry an explicit collision between component lists that computing
      the two keys hashed. */
  lemma EqualKeysCollide(h: Hash, x: Input, y: Input) returns (a: seq<Str>, b: seq<Str>)
    requires Key(h, x) == Key(h, y) && x != y
    ensures HashedBy(h, x, a) && HashedBy(h, y, b) && Collision(h, a, b)
  {
    a, b := Components(h, x), Components(h, y);
    if a == b {
      var n := |x.options|;
      assert |a| == n + 4 && |b| == |y.options| + 4;
      assert a[0] == x.signature && b[0] == y.signature && a[1] == x.compiler && b[1] == y.compiler;
      assert a[2..n + 2] == x.options && b[2..n + 2] == y.options;
      assert a[n + 2] == x.hook && b[n + 2] == y.hook;
      assert a[n + 3] == TreeDigest(h, x.source) && b[n + 3] == TreeDigest(h, y.source);
      var t, u := Merkle(h, x.source, y.source);
      a, b := Parts(h, t), Parts(h, u);
    }
  }

  // ---- What the disk cache builds ----

  /** What `build_loader` hashes (include/deep_jit/backend/ascend/aicpu/bootstrap.hpp). */
  datatype LoaderInput = LoaderInput(flags: Str, abi: Str, device: Str, version: Str)

  /** An entry is built for a kernel, or for the AICPU loader. */
  datatype Subject = Kernel(input: Input) | Loader(loader: LoaderInput)

  function SubjectParts(h: Hash, x: Subject): seq<Str> {
    match x
    case Kernel(input) => Components(h, input)
    case Loader(l) => [l.flags, l.abi, l.device, l.version]
  }

  function SubjectKey(h: Hash, x: Subject): Str { h(SubjectParts(h, x)) }

  ghost predicate HashedFor(h: Hash, x: Subject, parts: seq<Str>) {
    match x
    case Kernel(input) => HashedBy(h, input, parts)
    case Loader(_) => parts == SubjectParts(h, x)
  }

  /** A kernel without options and a loader for which the same four strings are hashed: the compiler's
      version text is the digest of the kernel's sources. */
  predicate Alike(h: Hash, x: Subject, y: Subject) { x.Kernel? != y.Kernel? && SubjectParts(h, x) == SubjectParts(h, y) }

  lemma EqualSubjectKeysCollide(h: Hash, x: Subject, y: Subject) returns (a: seq<Str>, b: seq<Str>)
    requires SubjectKey(h, x) == SubjectKey(h, y) && x != y && !Alike(h, x, y)
    ensures HashedFor(h, x, a) && HashedFor(h, y, b) && Collision(h, a, b)
  {
    if x.Kernel? && y.Kernel? {
      a, b := EqualKeysCollide(h, x.input, y.input);
    } else {
      a, b := SubjectParts(h, x), SubjectParts(h, y);
    }
  }
}
