/** A cache hit is as good as a fresh build, unless two subjects that were really built and asked for exhibit
    a digest collision. */
module Transparency {
  import opened Bytes
  import opened ArtifactImage
  import opened CacheKey
  import opened IncludeTree
  import opened Publication
  import opened PublicationSafety
  import opened PublicationRuns
  import opened Origin
  import Fnv

  /** What loading a fresh build of x in temporary directory u reads. */
  function FreshBinary(c: Setup, x: Subject, u: nat): Option<bytes> {
    if Artifact(c, x, u).Some? && c.binary in Artifact(c, x, u).value && Artifact(c, x, u).value[c.binary].File? then
      Some(Artifact(c, x, u).value[c.binary].data)
    else None
  }

  /** The compiler writes the same binary for one subject wherever it runs. */
  ghost predicate Deterministic(c: Setup) {
    forall x: Subject, u: nat, v: nat :: Artifact(c, x, u).Some? && Artifact(c, x, v).Some? ==>
      FreshBinary(c, x, u) == FreshBinary(c, x, v)
  }

  /** What loading a marked entry reads is the output file of the build that it holds. */
  lemma MarkedDataIsGood(c: Setup, s: State, slot: Path, x: Subject, u: nat)
    requires slot.Slot? && IsMarked(s, slot) && c.binary != MARKER
    requires BuiltBy(c, s.images[s.names[slot]], slot.digest, x, u)
    ensures Loaded(c, s, slot) == FreshBinary(c, x, u)
  {
  }

  /** The entry returned for a request is complete, was built for a subject with the very same key by a
      request with the same name, or was there before the run; and what was loaded is that entry's file. */
  lemma ReturnedEntry(c: Setup, run: seq<State>, acts: seq<Action>, k: nat, r: nat, i: nat, loaded: Option<bytes>)
      returns (m: nat, author: nat)
    requires Run(c, run, acts) && k < |run| && r in run[k].reqs
    requires run[k].reqs[r].pc == Finished(Returned(i, loaded))
    ensures var q := run[k].reqs[r];
            && i < |q.roots| && IsMarked(run[k], SlotOf(c, q, i))
            && var slot, u := SlotOf(c, q, i), run[k].names[SlotOf(c, q, i)];
               && Complete(c, run[k].images[u], c.key(q.input))
               && (FromStart(run, k, slot, u) || WrittenBy(c, run, k, slot, u, m, author))
               && (loaded.Some? ==> Loaded(c, run[k], slot) == loaded)
  {
    RunInv(c, run, acts, k);
    assert ReqOk(c, run[k], r);
    m, author := AtomicPublication(c, run, acts, k, SlotOf(c, run[k].reqs[r], i));
  }

  /** The entry of this slot holds the build of `served` in directory u: in the very directory, by the request
      `author` of the run with the same name, or in one from before the run. */
  ghost predicate ServedBy(c: Setup, run: seq<State>, k: nat, slot: Path, served: Subject, u: nat, m: nat, author: nat)
    requires k < |run| && slot.Slot?
  {
    && slot in run[k].names && run[k].names[slot] in run[k].images
    && BuiltBy(c, run[k].images[run[k].names[slot]], slot.digest, served, u)
    && (FromStart(run, k, slot, run[k].names[slot]) ||
        (u == run[k].names[slot] && WrittenBy(c, run, k, slot, u, m, author) && run[m].reqs[author].input == served))
  }

  /** A loaded binary is the output of the build that the entry holds. */
  lemma ReturnedBinary(c: Setup, run: seq<State>, acts: seq<Action>, k: nat, r: nat, i: nat, d: bytes)
      returns (served: Subject, u: nat, m: nat, author: nat)
    requires Run(c, run, acts) && k < |run| && r in run[k].reqs
    requires run[k].reqs[r].pc == Finished(Returned(i, Some(d)))
    ensures i < |run[k].reqs[r].roots| && ServedBy(c, run, k, SlotOf(c, run[k].reqs[r], i), served, u, m, author)
    ensures FreshBinary(c, served, u) == Some(d)
  {
    m, author := ReturnedEntry(c, run, acts, k, r, i, Some(d));
    var slot := SlotOf(c, run[k].reqs[r], i);
    if FromStart(run, k, slot, run[k].names[slot]) {
      served, u :| BuiltBy(c, run[k].images[run[k].names[slot]], slot.digest, served, u);
    } else {
      served, u := run[m].reqs[author].input, run[k].names[slot];
    }
    MarkedDataIsGood(c, run[k], slot, served, u);
  }

  /** The loader is built under its own name. */
  lemma LoaderHasItsName(c: Setup, run: seq<State>, acts: seq<Action>, m: nat, r: nat)
    requires Run(c, run, acts) && m < |run| && r in run[m].reqs && run[m].reqs[r].input.Loader?
    ensures run[m].reqs[r].tag == LOADER_TAG
  {
    RunInv(c, run, acts, m);
    assert ReqOk(c, run[m], r);
  }

  /** In every run, with keys made by any hash h: the binary d that a request returns is the output of the
      build that its entry holds, by a request of the run (or before it) for the same entry. If that build was
      for the request's own subject, d is what a fresh build of it gives anywhere. If not, computing the keys
      of the two subjects hashed two different component lists to one digest; or one of the two is the AICPU
      loader, whose four components read the same as the kernel's, and the kernel goes by the loader's name. */
  lemma CacheTransparency(c: Setup, h: Hash, run: seq<State>, acts: seq<Action>, k: nat, r: nat, i: nat, d: bytes)
      returns (served: Subject, u: nat, m: nat, author: nat, a: seq<Str>, b: seq<Str>)
    requires Run(c, run, acts) && Deterministic(c) && forall x :: c.key(x) == SubjectKey(h, x)
    requires k < |run| && r in run[k].reqs && run[k].reqs[r].pc == Finished(Returned(i, Some(d)))
    ensures var q := run[k].reqs[r];
            && i < |q.roots| && ServedBy(c, run, k, SlotOf(c, q, i), served, u, m, author)
            && FreshBinary(c, served, u) == Some(d)
            && (served == q.input ==> forall v: nat :: Artifact(c, q.input, v).Some? ==> FreshBinary(c, q.input, v) == Some(d))
            && (served != q.input && !Alike(h, q.input, served) ==>
                  HashedFor(h, q.input, a) && HashedFor(h, served, b) && Collision(h, a, b))
            && (served.Loader? && !FromStart(run, k, SlotOf(c, q, i), run[k].names[SlotOf(c, q, i)]) ==> q.tag == LOADER_TAG)
  {
    served, u, m, author := ReturnedBinary(c, run, acts, k, r, i, d);
    a, b := [], [];
    var q := run[k].reqs[r];
    if served != q.input && !Alike(h, q.input, served) {
      a, b := EqualSubjectKeysCollide(h, q.input, served);
    }
    if served.Loader? && !FromStart(run, k, SlotOf(c, q, i), run[k].names[SlotOf(c, q, i)]) {
      LoaderHasItsName(c, run, acts, m, author);
    }
  }

  /** The same with the program's own hash, where a collision means that two different byte streams leave
      both 64-bit lanes equal. */
  lemma CacheTransparencyFnv(c: Setup, run: seq<State>, acts: seq<Action>, k: nat, r: nat, i: nat, d: bytes)
      returns (served: Subject, u: nat, m: nat, author: nat, a: seq<Str>, b: seq<Str>)
    requires Run(c, run, acts) && Deterministic(c) && forall x :: c.key(x) == SubjectKey(Fnv.Hash, x)
    requires k < |run| && r in run[k].reqs && run[k].reqs[r].pc == Finished(Returned(i, Some(d)))
    ensures var q := run[k].reqs[r];
            && i < |q.roots| && ServedBy(c, run, k, SlotOf(c, q, i), served, u, m, author)
            && FreshBinary(c, served, u) == Some(d)
            && (served == q.input ==> forall v: nat :: Artifact(c, q.input, v).Some? ==> FreshBinary(c, q.input, v) == Some(d))
            && (served != q.input && !Alike(Fnv.Hash, q.input, served) ==>
                  && HashedFor(Fnv.Hash, q.input, a) && HashedFor(Fnv.Hash, served, b)
                  && Fnv.Frames(a) != Fnv.Frames(b)
                  && Fnv.Absorb(Fnv.SEED, Fnv.Frames(a)) == Fnv.Absorb(Fnv.SEED, Fnv.Frames(b)))
            && (served.Loader? && !FromStart(run, k, SlotOf(c, q, i), run[k].names[SlotOf(c, q, i)]) ==> q.tag == LOADER_TAG)
  {
    served, u, m, author, a, b := CacheTransparency(c, Fnv.Hash, run, acts, k, r, i, d);
    if served != run[k].reqs[r].input && !Alike(Fnv.Hash, run[k].reqs[r].input, served) {
      assert Fnv.Collision(a, b);
      Fnv.CollisionIsInTheLanes(a, b);
    }
  }
}
