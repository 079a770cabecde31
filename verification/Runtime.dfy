/** The key of a compile request and the memory cache over the disk cache, as one `Runtime` object.
    (include/deep_jit/runtime/runtime.hpp, include/deep_jit/cache/memory.hpp) */
module Runtime {
  import opened Bytes
  import opened IncludeTree
  import CacheKey
  import CacheControl
  import Fnv
  import IncludeParser

  /** The options as far as the key sees them: the strings they feed, and the post hook's digest. */
  datatype Options = Options(parts: seq<Str>, hook: Str)

  /** A loaded kernel: the root and entry it came from. */
  datatype Kernel = Kernel(root: nat, tag: bytes, key: Str)

  datatype KeyResult = Key(digest: Str) | BadSource(fault: Fault)

  datatype Compiled = Loaded(kernel: Kernel) | KeyError(fault: Fault) | AllRootsFailed

  class Runtime {
    const signature: Str
    const compiler: Str
    const hashBase: Fnv.FNV1a
    const parser: IncludeParser.Parser
    const disk: CacheControl.DiskCache
    var memCache: map<Str, Kernel>

    constructor (signature: Str, compiler: Str, src: Sources, n: nat, ghost h: Hash)
      requires n > 0 && Fnv.IsHash(h)
      ensures Valid() && this.signature == signature && this.compiler == compiler && parser.src == src && parser.h == h
      ensures memCache == map[] && disk.n == n && fresh(Repr())
    {
      var hash := Fnv.StartChain();
      Fnv.ExtendChain(hash, signature, []);
      Fnv.ExtendChain(hash, compiler, [signature]);
      assert [] + [signature] == [signature] && [signature] + [compiler] == [signature, compiler];
      this.signature, this.compiler, hashBase := signature, compiler, hash;
      parser := new IncludeParser.Parser(src, h);
      disk := new CacheControl.DiskCache(n);
      memCache := map[];
    }

    ghost function Repr(): set<object> { {this, hashBase, parser, disk} }

    /** `hash_base` stays what the constructor made it, and kernels sit under their own keys. */
    ghost predicate Valid()
      reads Repr()
    {
      && Fnv.Chained(hashBase.Value(), [signature, compiler])
      && parser.Valid() && parser.visiting == {} && disk.Valid()
      && forall k :: k in memCache ==> memCache[k].key == k && memCache[k].root < disk.n
    }

    /** The keyed input of a request whose source unfolds to t. */
    ghost function InputOf(options: Options, t: Tree): CacheKey.Input {
      CacheKey.Input(signature, compiler, options.parts, options.hook, t)
    }

    /** `cache_key`, on a copy of the base hash. It fails exactly when the tracked include graph has a fault. */
    method MakeKey(source: Str, options: Options) returns (r: KeyResult)
      requires Valid()
      modifies parser
      ensures Valid() && parser.Kept()
      ensures forall t :: Unfolds(parser.src, source, t) ==> r == Key(CacheKey.Key(parser.h, InputOf(options, t)))
      ensures r.BadSource? <==> exists f :: IncludeParser.HasFault(parser.src, source, f)
      ensures r.Key? ==> exists t :: Unfolds(parser.src, source, t)
    {
      var hash := new Fnv.FNV1a.Copy(hashBase);
      ghost var parts := [signature, compiler];
      for i := 0 to |options.parts|
        invariant fresh(hash) && Fnv.Chained(hash.Value(), parts)
        invariant parts == [signature, compiler] + options.parts[..i]
        invariant Valid() && parser.Kept() && unchanged(parser)
      {
        Fnv.ExtendChain(hash, options.parts[i], parts);
        parts := parts + [options.parts[i]];
      }
      Fnv.ExtendChain(hash, options.hook, parts);
      ghost var hooked := parts + [options.hook];
      var parsed := parser.Parse(source);
      if parsed.Err? {
        assert forall d :: !IncludeParser.IsDigest(parser.h, parser.src, source, d);
        forall t
          ensures !Unfolds(parser.src, source, t)
        {
          assert Unfolds(parser.src, source, t) ==> IncludeParser.IsDigest(parser.h, parser.src, source, TreeDigest(parser.h, t));
        }
        return BadSource(parsed.fault);
      }
      Fnv.ExtendChain(hash, parsed.digest, hooked);
      var digest := Fnv.FinishChain(hash, hooked + [parsed.digest], parser.h);
      assert IncludeParser.IsDigest(parser.h, parser.src, source, parsed.digest);
      forall t | Unfolds(parser.src, source, t)
        ensures digest == CacheKey.Key(parser.h, InputOf(options, t))
      {
        assert IncludeParser.IsDigest(parser.h, parser.src, source, TreeDigest(parser.h, t));
        assert hooked + [parsed.digest] == CacheKey.Components(parser.h, InputOf(options, t));
      }
      return Key(digest);
    }

    /** `compile` outside a dry run: the memory cache first, then the disk cache. A failed request leaves the
        memory cache as it was, and an entry never changes once it is there. */
    method Compile(tag: bytes, source: Str, options: Options) returns (r: Compiled, ghost attempts: seq<CacheControl.Attempt>)
      requires Valid()
      modifies this`memCache, parser, disk
      ensures Valid()
      ensures r.KeyError? <==> exists f :: IncludeParser.HasFault(parser.src, source, f)
      ensures r.Loaded? ==> forall t :: Unfolds(parser.src, source, t) ==> r.kernel.key == CacheKey.Key(parser.h, InputOf(options, t))
      ensures r.Loaded? ==> r.kernel.key in memCache && memCache == old(memCache)[r.kernel.key := r.kernel]
      ensures !r.Loaded? ==> memCache == old(memCache)
      ensures r.Loaded? && r.kernel.key in old(memCache) ==> attempts == [] && r.kernel == old(memCache)[r.kernel.key]
      ensures r.Loaded? && r.kernel.key !in old(memCache) ==>
                attempts != [] && attempts[|attempts| - 1].ending.Success? && attempts[|attempts| - 1].root == r.kernel.root && r.kernel.tag == tag
    {
      attempts := [];
      var key := MakeKey(source, options);
      if key.BadSource? {
        return KeyError(key.fault), attempts;
      }
      if key.digest in memCache {
        return Loaded(memCache[key.digest]), attempts;
      }
      var root;
      ghost var looks, places;
      root, attempts, looks, places := CacheControl.CompileImpl(disk, tag, true);
      if root == None {
        return AllRootsFailed, attempts;
      }
      var kernel := Kernel(root.value, tag, key.digest);
      memCache := memCache[key.digest := kernel];
      return Loaded(kernel), attempts;
    }
  }
}
