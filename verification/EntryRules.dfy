/** What `entry` must do with the roots of a cache, by the record of what it did.
    (include/deep_jit/cache/disk.hpp) */
module EntryRules {

  /** What the lookup loop did about a root: passed over it, or looked. */
  datatype Look = Skipped | Missed | Found | LookFailed(timedOut: bool)

  /** What the second loop did about a root: passed over it, or tried to make a directory. */
  datatype Placement = Passed | PlaceFailed(timedOut: bool) | Made

  datatype EntryResult = Rejected | AllFailed | Hit(root: nat) | Fresh(root: nat)

  /** Lookups of the roots in order, without a hit. */
  predicate NoHit(looks: seq<Look>) { Found !in looks }

  /** No root whose lookup failed is written to. */
  predicate FailedNotWritten(looks: seq<Look>, places: seq<Placement>) {
    forall k :: 0 <= k < |looks| && k < |places| && looks[k].LookFailed? ==> places[k] == Passed
  }

  /** An attempt gives the least root from `first` on where the marker was found, and writes nothing before
      all of them are looked up; or else it makes a directory on the least root where that works, but on
      none whose lookup failed. */
  predicate EntryOk(n: nat, first: nat, looks: seq<Look>, places: seq<Placement>, r: EntryResult) {
    match r
    case Rejected => looks == [] && places == []
    case Hit(i) =>
      first <= i < n && |looks| == i - first + 1 && looks[i - first] == Found && NoHit(looks[..i - first]) && places == []
    case Fresh(i) =>
      && first <= i < n && |looks| == n - first && NoHit(looks)
      && |places| == i - first + 1 && places[i - first] == Made && Made !in places[..i - first]
      && FailedNotWritten(looks, places)
    case AllFailed =>
      |looks| == |places| == (if first < n then n - first else 0) && NoHit(looks) && Made !in places && FailedNotWritten(looks, places)
  }

  lemma FoundFirst(n: nat, first: nat, looks: seq<Look>)
    requires NoHit(looks) && first + |looks| < n
    ensures EntryOk(n, first, looks + [Found], [], Hit(first + |looks|))
  {
    assert (looks + [Found])[..|looks|] == looks;
  }

  lemma MadeFirst(n: nat, first: nat, looks: seq<Look>, places: seq<Placement>)
    requires NoHit(looks) && first + |looks| == n && |places| < |looks| && Made !in places
    requires FailedNotWritten(looks, places) && !looks[|places|].LookFailed?
    ensures EntryOk(n, first, looks, places + [Made], Fresh(first + |places|))
  {
    assert (places + [Made])[..|places|] == places;
  }
}
