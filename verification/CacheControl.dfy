/** The retry loop of a compile request over the cache roots, as one caller runs it. The outcomes of I/O
    tasks and commands are arbitrary, and other threads may raise the timeout counters at any time.
    (include/deep_jit/cache/disk.hpp, include/deep_jit/runtime/runtime.hpp) */
module CacheControl {
  import opened Bytes
  import opened EntryRules
  import Publication

  /** How an I/O task ended for its caller. */
  datatype Io = Done | Broken | TimedOut

  /** How an attempt ended: it gave the entry, or failed; commandTimedOut means the compiler's timeout. */
  datatype Ending = Success | Failure(timedOut: bool, commandTimedOut: bool)

  /** What an attempt does on its entry, and how that went. */
  datatype Step = Compile(io: Io, commandTimedOut: bool) | Publish(io: Io) | Load(io: Io)

  /** `looks` and `places`: what `entry` did to find the root. */
  datatype Attempt = Attempt(first: nat, looks: seq<Look>, places: seq<Placement>, root: nat, hit: bool, steps: seq<Step>,
                             published: bool, ending: Ending, removed: bool)

  // ---- What the loops must do ----

  /** A root is passed over only when it is quarantined, and is used only when it is not. */
  predicate LooksFit(before: seq<nat>, after: seq<nat>, first: nat, looks: seq<Look>) {
    forall k :: 0 <= k < |looks| ==>
      first + k < |before| && first + k < |after| &&
      (if looks[k] == Skipped then after[first + k] >= 3 else before[first + k] < 3)
  }

  predicate PlacesFit(before: seq<nat>, after: seq<nat>, first: nat, looks: seq<Look>, places: seq<Placement>) {
    forall k :: 0 <= k < |places| ==>
      first + k < |before| && first + k < |after| && k < |looks| &&
      (if places[k] == Passed then after[first + k] >= 3 || looks[k].LookFailed? else before[first + k] < 3)
  }

  /** How often the lookups charged root i with a timeout, and the placements. */
  function LookCount(first: nat, looks: seq<Look>, i: nat): nat {
    if first <= i < first + |looks| && looks[i - first] == LookFailed(true) then 1 else 0
  }

  function PlaceCount(first: nat, places: seq<Placement>, i: nat): nat {
    if first <= i < first + |places| && places[i - first] == PlaceFailed(true) then 1 else 0
  }

  function One(p: bool): nat { if p then 1 else 0 }

  /** The charges grew by what is charged to root j, if anything is. */
  predicate ChargedOne(before: seq<nat>, after: seq<nat>, j: nat, p: bool) {
    |before| == |after| && forall i :: 0 <= i < |before| ==> after[i] == before[i] + One(p && i == j)
  }

  predicate ChargedBy(before: seq<nat>, after: seq<nat>, first: nat, looks: seq<Look>, places: seq<Placement>) {
    |before| == |after| && forall i :: 0 <= i < |before| ==> after[i] == before[i] + LookCount(first, looks, i) + PlaceCount(first, places, i)
  }

  predicate Grown(before: seq<nat>, after: seq<nat>) {
    |before| == |after| && forall i :: 0 <= i < |before| ==> before[i] <= after[i]
  }

  // ---- The disk cache ----

  class DiskCache {
    const n: nat
    var numTimeouts: seq<nat>
    /** How often this caller charged each root, and others did: other threads, and builds of the AICPU
        loader within a load. */
    ghost var charged: seq<nat>
    ghost var others: seq<nat>

    /** At least one root. */
    constructor (n: nat)
      requires n > 0
      ensures this.n == n && Valid() && forall i :: 0 <= i < n ==> numTimeouts[i] == 0
    {
      this.n := n;
      numTimeouts := seq(n, i => 0);
      charged, others := seq(n, i => 0), seq(n, i => 0);
    }

    ghost predicate Valid()
      reads this
    {
      n > 0 && |numTimeouts| == |others| == |charged| == n && forall i :: 0 <= i < n ==> numTimeouts[i] == others[i] + charged[i]
    }

    /** Others raise counters. */
    method Meanwhile()
      requires Valid()
      modifies this
      ensures Valid() && Grown(old(numTimeouts), numTimeouts) && charged == old(charged)
    {
      assert Grown(numTimeouts, numTimeouts);
      var now: seq<nat> :| |now| == n && Grown(numTimeouts, now);
      others := seq(n, i requires 0 <= i < n && Valid() && |now| == n && Grown(numTimeouts, now) reads this => now[i] - charged[i]);
      numTimeouts := now;
    }

    /** `run_in_iothread` with an arbitrary task. */
    method RunInIoThread() returns (io: Io)
      requires Valid()
      modifies this
      ensures Valid() && Grown(old(numTimeouts), numTimeouts) && charged == old(charged)
    {
      Meanwhile();
      io := *;
    }

    /** Only a timeout is charged, once, and to its root. */
    method ReportError(root: nat, timedOut: bool)
      requires Valid() && root < n
      modifies this
      ensures Valid() && Grown(old(numTimeouts), numTimeouts)
      ensures ChargedOne(old(charged), charged, root, timedOut)
    {
      Meanwhile();
      if timedOut {
        numTimeouts := numTimeouts[root := numTimeouts[root] + 1];
        charged := charged[root := charged[root] + 1];
      }
    }

    method Lookup(i: nat) returns (look: Look)
      requires Valid() && i < n && numTimeouts[i] < 3
      modifies this
      ensures Valid() && Grown(old(numTimeouts), numTimeouts) && look != Skipped
      ensures ChargedOne(old(charged), charged, i, look == LookFailed(true))
    {
      var io := RunInIoThread();
      if io.Done? {
        var present: bool := *;
        look := if present then Found else Missed;
      } else {
        look := LookFailed(io.TimedOut?);
        ReportError(i, io.TimedOut?);
      }
    }

    method MakeTemporary(i: nat) returns (place: Placement)
      requires Valid() && i < n && numTimeouts[i] < 3
      modifies this
      ensures Valid() && Grown(old(numTimeouts), numTimeouts) && place != Passed
      ensures ChargedOne(old(charged), charged, i, place == PlaceFailed(true))
    {
      var io := RunInIoThread();
      if io.Done? {
        place := Made;
      } else {
        place := PlaceFailed(io.TimedOut?);
        ReportError(i, io.TimedOut?);
      }
    }

    /** One round of the first loop. */
    method LookupRoot(i: nat) returns (look: Look)
      requires Valid() && i < n
      modifies this
      ensures Valid() && Grown(old(numTimeouts), numTimeouts)
      ensures if look == Skipped then numTimeouts[i] >= 3 else old(numTimeouts[i]) < 3
      ensures ChargedOne(old(charged), charged, i, look == LookFailed(true))
    {
      look := Skipped;
      if numTimeouts[i] < 3 {
        look := Lookup(i);
      }
    }

    /** The first loop of `entry`: it stops at the first hit, and collects the failed roots. */
    method LookupRoots(first: nat) returns (hit: Option<nat>, failed: seq<nat>, ghost looks: seq<Look>)
      requires Valid()
      modifies this
      ensures Valid() && Grown(old(numTimeouts), numTimeouts) && ChargedBy(old(charged), charged, first, looks, [])
      ensures hit.Some? ==> EntryOk(n, first, looks, [], Hit(hit.value))
      ensures hit == None ==> NoHit(looks) && |looks| == if first < n then n - first else 0
      ensures LooksFit(old(numTimeouts), numTimeouts, first, looks)
      ensures FailedOf(first, looks, failed)
    {
      looks, failed, hit := [], [], None;
      var i := first;
      ghost var before, start := numTimeouts, charged;
      while i < n
        invariant first <= i && (i <= n || i == first) && Valid() && |looks| == i - first && NoHit(looks)
        invariant Looking(before, numTimeouts, start, charged, first, looks, failed)
      {
        ghost var between, was := numTimeouts, charged;
        var look := LookupRoot(i);
        LookingOn(before, between, numTimeouts, start, was, charged, first, looks, failed, look);
        FoundFirst(n, first, looks);
        looks := looks + [look];
        if look == Found {
          return Some(i), failed, looks;
        }
        if look.LookFailed? {
          failed := failed + [i];
        }
        i := i + 1;
      }
    }

    /** One round of the second loop. */
    method PlaceRoot(i: nat, failed: bool) returns (place: Placement)
      requires Valid() && i < n
      modifies this
      ensures Valid() && Grown(old(numTimeouts), numTimeouts)
      ensures failed ==> place == Passed
      ensures if place == Passed then numTimeouts[i] >= 3 || failed else old(numTimeouts[i]) < 3
      ensures ChargedOne(old(charged), charged, i, place == PlaceFailed(true))
    {
      place := Passed;
      if numTimeouts[i] < 3 && !failed {
        place := MakeTemporary(i);
      }
    }

    /** The second loop of `entry`: it stops at the first root that takes a temporary directory. */
    method PlaceRoots(first: nat, failed: seq<nat>, ghost looks: seq<Look>) returns (made: Option<nat>, ghost places: seq<Placement>)
      requires Valid() && NoHit(looks) && |looks| == if first < n then n - first else 0
      requires FailedOf(first, looks, failed)
      modifies this
      ensures Valid() && Grown(old(numTimeouts), numTimeouts) && ChargedBy(old(charged), charged, first, [], places)
      ensures EntryOk(n, first, looks, places, if made.Some? then Fresh(made.value) else AllFailed)
      ensures PlacesFit(old(numTimeouts), numTimeouts, first, looks, places)
    {
      places, made := [], None;
      var i := first;
      ghost var before, start := numTimeouts, charged;
      while i < n
        invariant first <= i && (i <= n || i == first) && Valid() && |places| == i - first && Made !in places
        invariant Placing(before, numTimeouts, start, charged, first, looks, places)
      {
        ghost var between, was := numTimeouts, charged;
        var place := PlaceRoot(i, i in failed);
        PlacingOn(before, between, numTimeouts, start, was, charged, first, looks, places, place);
        places := places + [place];
        if place == Made {
          return Some(i), places;
        }
        i := i + 1;
      }
    }

    /** `entry`. */
    method Entry(tag: bytes, first: nat) returns (r: EntryResult, ghost looks: seq<Look>, ghost places: seq<Placement>)
      requires Valid()
      modifies this
      ensures Valid() && Grown(old(numTimeouts), numTimeouts)
      ensures r == Rejected <==> !Publication.ValidTag(tag)
      ensures EntryOk(n, first, looks, places, r)
      ensures LooksFit(old(numTimeouts), numTimeouts, first, looks)
      ensures PlacesFit(old(numTimeouts), numTimeouts, first, looks, places)
      ensures ChargedBy(old(charged), charged, first, looks, places)
    {
      if !Publication.ValidTag(tag) {
        return Rejected, [], [];
      }
      var hit, failed;
      hit, failed, looks := LookupRoots(first);
      if hit.Some? {
        return Hit(hit.value), looks, [];
      }
      var made;
      made, places := PlaceRoots(first, failed, looks);
      r := if made.Some? then Fresh(made.value) else AllFailed;
    }
  }

  /** The roots whose lookup failed. */
  ghost predicate FailedOf(first: nat, looks: seq<Look>, failed: seq<nat>) {
    forall k :: k in failed <==> first <= k < first + |looks| && looks[k - first].LookFailed?
  }

  /** What the first loop has done so far. */
  ghost predicate Looking(before: seq<nat>, now: seq<nat>, start: seq<nat>, charged: seq<nat>,
                          first: nat, looks: seq<Look>, failed: seq<nat>)
  {
    && Grown(before, now) && LooksFit(before, now, first, looks) && FailedOf(first, looks, failed)
    && ChargedBy(start, charged, first, looks, [])
  }

  lemma LookingOn(before: seq<nat>, between: seq<nat>, now: seq<nat>, start: seq<nat>, was: seq<nat>, charged: seq<nat>,
                  first: nat, looks: seq<Look>, failed: seq<nat>, look: Look)
    requires Looking(before, between, start, was, first, looks, failed) && Grown(between, now)
    requires first + |looks| < |now|
    requires if look == Skipped then now[first + |looks|] >= 3 else between[first + |looks|] < 3
    requires ChargedOne(was, charged, first + |looks|, look == LookFailed(true))
    ensures Looking(before, now, start, charged, first, looks + [look], if look.LookFailed? then failed + [first + |looks|] else failed)
    ensures (looks + [look])[..|looks|] == looks
  {
    assert (looks + [look])[..|looks|] == looks;
  }

  /** What the second loop has done so far. */
  ghost predicate Placing(before: seq<nat>, now: seq<nat>, start: seq<nat>, charged: seq<nat>,
                          first: nat, looks: seq<Look>, places: seq<Placement>)
  {
    && Grown(before, now) && PlacesFit(before, now, first, looks, places) && FailedNotWritten(looks, places)
    && ChargedBy(start, charged, first, [], places)
  }

  lemma PlacingOn(before: seq<nat>, between: seq<nat>, now: seq<nat>, start: seq<nat>, was: seq<nat>, charged: seq<nat>,
                  first: nat, looks: seq<Look>, places: seq<Placement>, place: Placement)
    requires Placing(before, between, start, was, first, looks, places) && Grown(between, now)
    requires first + |places| < |now| && |places| < |looks|
    requires looks[|places|].LookFailed? ==> place == Passed
    requires if place == Passed then now[first + |places|] >= 3 || looks[|places|].LookFailed? else between[first + |places|] < 3
    requires ChargedOne(was, charged, first + |places|, place == PlaceFailed(true))
    ensures Placing(before, now, start, charged, first, looks, places + [place])
    ensures (places + [place])[..|places|] == places
  {
    assert (places + [place])[..|places|] == places;
  }

  /** One cache slot, as a request holds it. `atSlot`: its path is the entry's, not the temporary one. */
  class DiskCacheEntry {
    const root: nat
    var hit: bool
    var committed: bool
    var abandoned: bool
    var atSlot: bool

    constructor (root: nat, hit: bool)
      ensures this.root == root && this.hit == hit && !committed && !abandoned && atSlot == hit
    {
      this.root, this.hit, committed, abandoned, atSlot := root, hit, false, false, hit;
    }

    /** `commit`: a no-op on a hit; a timeout abandons the directory, another failure leaves it to the
        destructor. */
    method Commit(cache: DiskCache) returns (io: Io)
      requires cache.Valid()
      modifies this, cache
      ensures cache.Valid() && Grown(old(cache.numTimeouts), cache.numTimeouts) && cache.charged == old(cache.charged)
      ensures old(hit || committed) ==> io.Done? && hit == old(hit) && committed == old(committed) && atSlot == old(atSlot) && abandoned == old(abandoned)
      ensures !old(hit || committed) ==>
                && (io.Done? ==> hit && committed && atSlot && abandoned == old(abandoned))
                && (!io.Done? ==> !hit && !committed && atSlot == old(atSlot) && abandoned == (old(abandoned) || io.TimedOut?))
    {
      if hit || committed {
        return Done;
      }
      io := cache.RunInIoThread();
      if io.TimedOut? {
        abandoned := true;
      }
      if io.Done? {
        atSlot, hit, committed := true, true, true;
      }
    }

    /** The destructor: it starts a removal exactly for an unpublished directory that is not abandoned, and
        ignores how the removal ends. */
    method Destroy(cache: DiskCache) returns (removed: bool)
      requires cache.Valid()
      modifies cache
      ensures cache.Valid() && Grown(old(cache.numTimeouts), cache.numTimeouts) && cache.charged == old(cache.charged)
      ensures removed <==> !hit && !committed && !abandoned
    {
      removed := !hit && !committed && !abandoned;
      if removed {
        var _ := cache.RunInIoThread();
      }
    }
  }

  // ---- The retry loop ----

  /** The attempts of one request: each starts right behind the root of the one before, and takes the root
      that `entry` must give it. */
  predicate AttemptsOk(n: nat, load: bool, attempts: seq<Attempt>) {
    && (forall k :: 0 <= k < |attempts| ==> attempts[k].first <= attempts[k].root < n && RemovedRight(attempts[k]))
    && (forall k :: 0 <= k < |attempts| ==> FoundBy(n, attempts[k]))
    && (forall k :: 0 <= k < |attempts| ==> StepsOk(attempts[k].hit, load, attempts[k].steps, attempts[k].ending))
    && (forall k :: 0 <= k < |attempts| ==> attempts[k].first == if k == 0 then 0 else attempts[k - 1].root + 1)
  }

  /** How far an attempt gets: it compiles and publishes on a miss, and loads if that is asked for. */
  function Length(hit: bool, load: bool): nat { (if hit then 0 else 2) + (if load then 1 else 0) }

  /** The steps are a beginning of what is to be done; all but the last went well, and all of them did in a
      success. A failure says whether its cause was an I/O timeout or a timed-out command. */
  predicate StepsOk(hit: bool, load: bool, steps: seq<Step>, ending: Ending) {
    && |steps| <= Length(hit, load)
    && (forall k :: 0 <= k < |steps| ==>
          if hit then steps[k].Load? else if k == 0 then steps[k].Compile? else if k == 1 then steps[k].Publish? else steps[k].Load?)
    && (forall k :: 0 <= k < |steps| - 1 ==> steps[k].io.Done?)
    && match ending
       case Success => |steps| == Length(hit, load) && forall k :: 0 <= k < |steps| ==> steps[k].io.Done?
       case Failure(timedOut, commandTimedOut) =>
         && steps != []
         && var last := steps[|steps| - 1];
            && !last.io.Done? && timedOut == last.io.TimedOut?
            && commandTimedOut == (last.Compile? && !timedOut && last.commandTimedOut)
  }

  predicate FoundBy(n: nat, a: Attempt) {
    EntryOk(n, a.first, a.looks, a.places, if a.hit then Hit(a.root) else Fresh(a.root))
  }

  /** A directory is removed unless it was published or something may still use it. */
  predicate RemovedRight(a: Attempt) {
    && (a.removed <==> a.ending.Failure? && !a.hit && !a.published && !a.ending.timedOut && !a.ending.commandTimedOut)
    && (a.hit ==> !a.published)
    && (a.ending.Success? ==> a.hit || a.published)
  }

  function NextFirst(attempts: seq<Attempt>): nat {
    if attempts == [] then 0 else attempts[|attempts| - 1].root + 1
  }

  /** How often an attempt charged root i: in its lookups and placements, and for its own I/O timeout. */
  function AttemptCount(a: Attempt, i: nat): nat {
    LookCount(a.first, a.looks, i) + PlaceCount(a.first, a.places, i) + One(a.ending.Failure? && a.ending.timedOut && i == a.root)
  }

  function AllCount(attempts: seq<Attempt>, i: nat): nat {
    if attempts == [] then 0 else AllCount(attempts[..|attempts| - 1], i) + AttemptCount(attempts[|attempts| - 1], i)
  }

  predicate ChargedByAll(before: seq<nat>, after: seq<nat>, attempts: seq<Attempt>) {
    |before| == |after| && forall i :: 0 <= i < |before| ==> after[i] == before[i] + AllCount(attempts, i)
  }

  /** Root indices increase strictly, so with n roots there are at most n attempts. */
  lemma {:induction false} RootsIncrease(n: nat, load: bool, attempts: seq<Attempt>, i: nat, j: nat)
    requires AttemptsOk(n, load, attempts) && i < j < |attempts|
    ensures attempts[i].root + (j - i) <= attempts[j].root
  {
    if i + 1 < j {
      RootsIncrease(n, load, attempts, i, j - 1);
    }
  }

  lemma AtMostNAttempts(n: nat, load: bool, attempts: seq<Attempt>)
    requires AttemptsOk(n, load, attempts)
    ensures |attempts| <= n
  {
    if |attempts| > 1 {
      RootsIncrease(n, load, attempts, 0, |attempts| - 1);
    } else if |attempts| == 1 {
      assert attempts[0].root < n;
    }
  }

  /** Compiling, committing and loading on one entry. The compile stages' I/O and commands are one outcome. */
  method Try(cache: DiskCache, entry: DiskCacheEntry, load: bool) returns (ending: Ending, ghost steps: seq<Step>)
    requires cache.Valid() && !entry.committed && !entry.abandoned && entry.atSlot == entry.hit
    modifies cache, entry
    ensures cache.Valid() && Grown(old(cache.numTimeouts), cache.numTimeouts) && cache.charged == old(cache.charged)
    ensures ending.Success? ==> entry.hit && entry.atSlot
    ensures entry.hit == (old(entry.hit) || entry.committed) && (old(entry.hit) ==> !entry.committed)
    ensures StepsOk(old(entry.hit), load, steps, ending)
    ensures entry.committed <==> |steps| > 1 && steps[1] == Publish(Done)
  {
    steps := [];
    if !entry.hit {
      var compile := cache.RunInIoThread();
      var commandTimedOut: bool := *;
      steps := steps + [Compile(compile, commandTimedOut)];
      if !compile.Done? {
        return Failure(compile.TimedOut?, !compile.TimedOut? && commandTimedOut), steps;
      }
      var io := entry.Commit(cache);
      steps := steps + [Publish(io)];
      if !io.Done? {
        return Failure(io.TimedOut?, false), steps;
      }
    }
    if load {
      var io := cache.RunInIoThread();
      steps := steps + [Load(io)];
      if !io.Done? {
        return Failure(io.TimedOut?, false), steps;
      }
    }
    return Success, steps;
  }

  lemma OneMoreAttempt(n: nat, load: bool, attempts: seq<Attempt>, a: Attempt)
    requires AttemptsOk(n, load, attempts) && a.first == NextFirst(attempts) && a.first <= a.root < n
    requires RemovedRight(a) && FoundBy(n, a) && StepsOk(a.hit, load, a.steps, a.ending)
    ensures AttemptsOk(n, load, attempts + [a]) && NextFirst(attempts + [a]) == a.root + 1 && |attempts + [a]| <= n
    ensures forall i: nat :: AllCount(attempts + [a], i) == AllCount(attempts, i) + AttemptCount(a, i)
    ensures (attempts + [a])[..|attempts|] == attempts
  {
    assert (attempts + [a])[..|attempts|] == attempts;
    AtMostNAttempts(n, load, attempts + [a]);
  }

  predicate AllFailedIn(attempts: seq<Attempt>) {
    forall k :: 0 <= k < |attempts| ==> attempts[k].ending.Failure?
  }

  /** One round of the loop on the entry that was found, up to the entry's destruction. */
  method TryRoot(cache: DiskCache, ghost first: nat, ghost looks: seq<Look>, ghost places: seq<Placement>, root: nat, hit: bool, load: bool)
      returns (ok: bool, ghost a: Attempt)
    requires cache.Valid() && root < cache.n
    modifies cache
    ensures cache.Valid() && Grown(old(cache.numTimeouts), cache.numTimeouts)
    ensures a.first == first && a.looks == looks && a.places == places && a.root == root && a.hit == hit && ok == a.ending.Success?
    ensures RemovedRight(a) && StepsOk(hit, load, a.steps, a.ending)
    ensures ChargedOne(old(cache.charged), cache.charged, root, a.ending.Failure? && a.ending.timedOut)
  {
    var entry := new DiskCacheEntry(root, hit);
    var ending;
    ghost var steps;
    ending, steps := Try(cache, entry, load);
    if ending.Failure? {
      entry.abandoned := ending.timedOut || ending.commandTimedOut;
      cache.ReportError(root, ending.timedOut);
    }
    var removed := entry.Destroy(cache);
    a := Attempt(first, looks, places, root, hit, steps, entry.committed, ending, removed);
    ok := ending.Success?;
  }

  predicate ChargedByAttempt(before: seq<nat>, after: seq<nat>, a: Attempt) {
    |before| == |after| && forall i :: 0 <= i < |before| ==> after[i] == before[i] + AttemptCount(a, i)
  }

  /** What the retry loop has done so far. */
  ghost predicate Retrying(n: nat, load: bool, before: seq<nat>, now: seq<nat>, start: seq<nat>, charged: seq<nat>,
                           attempts: seq<Attempt>)
  {
    && AttemptsOk(n, load, attempts) && |attempts| <= n && Grown(before, now)
    && ChargedByAll(start, charged, attempts)
  }

  lemma RetryingOn(n: nat, load: bool, before: seq<nat>, between: seq<nat>, now: seq<nat>,
                   start: seq<nat>, was: seq<nat>, charged: seq<nat>, attempts: seq<Attempt>, a: Attempt)
    requires Retrying(n, load, before, between, start, was, attempts) && Grown(between, now)
    requires a.first == NextFirst(attempts) && a.first <= a.root < n
    requires RemovedRight(a) && FoundBy(n, a) && StepsOk(a.hit, load, a.steps, a.ending)
    requires ChargedByAttempt(was, charged, a)
    ensures Retrying(n, load, before, now, start, charged, attempts + [a])
    ensures NextFirst(attempts + [a]) == a.root + 1 && (attempts + [a])[..|attempts|] == attempts
  {
    OneMoreAttempt(n, load, attempts, a);
  }

  /** `entry` and the attempt on what it finds; None when it finds no root. */
  method Round(cache: DiskCache, tag: bytes, load: bool, first: nat)
      returns (root: Option<nat>, ok: bool, ghost a: Attempt, ghost looks: seq<Look>, ghost places: seq<Placement>)
    requires cache.Valid()
    modifies cache
    ensures cache.Valid() && Grown(old(cache.numTimeouts), cache.numTimeouts)
    ensures root == None ==>
              && (if Publication.ValidTag(tag) then EntryOk(cache.n, first, looks, places, AllFailed) else looks == [] && places == [])
              && ChargedBy(old(cache.charged), cache.charged, first, looks, places)
    ensures root.Some? ==>
              && Publication.ValidTag(tag) && a.first == first <= a.root < cache.n && a.root == root.value && ok == a.ending.Success?
              && RemovedRight(a) && FoundBy(cache.n, a) && StepsOk(a.hit, load, a.steps, a.ending)
              && ChargedByAttempt(old(cache.charged), cache.charged, a)
  {
    var found;
    found, looks, places := cache.Entry(tag, first);
    ok, root, a := false, None, NO_ATTEMPT;
    if found.Hit? || found.Fresh? {
      ok, a := TryRoot(cache, first, looks, places, found.root, found.Hit?, load);
      root := Some(found.root);
    }
  }

  ghost const NO_ATTEMPT := Attempt(0, [], [], 0, false, [], false, Success, false)

  /** `compile_impl`: the attempts it makes, and the root whose entry it returns. It gives up when `entry`
      finds no usable root (`looks` and `places` are what that call did), or when the last root's attempt
      failed. It charges exactly the I/O timeouts that happened. */
  method CompileImpl(cache: DiskCache, tag: bytes, load: bool)
      returns (r: Option<nat>, ghost attempts: seq<Attempt>, ghost looks: seq<Look>, ghost places: seq<Placement>)
    requires cache.Valid()
    modifies cache
    ensures cache.Valid() && Grown(old(cache.numTimeouts), cache.numTimeouts)
    ensures AttemptsOk(cache.n, load, attempts) && |attempts| <= cache.n
    ensures r.Some? ==>
              && attempts != [] && AllFailedIn(attempts[..|attempts| - 1]) && looks == [] && places == []
              && attempts[|attempts| - 1].root == r.value && attempts[|attempts| - 1].ending.Success?
    ensures r == None ==> AllFailedIn(attempts)
    ensures r == None && Publication.ValidTag(tag) ==>
              (NextFirst(attempts) == cache.n && looks == [] && places == []) ||
              EntryOk(cache.n, NextFirst(attempts), looks, places, AllFailed)
    ensures !Publication.ValidTag(tag) ==> r == None && attempts == [] && looks == [] && places == []
    ensures |cache.charged| == |old(cache.charged)| == cache.n
    ensures forall i :: 0 <= i < cache.n ==>
              cache.charged[i] == old(cache.charged[i]) + AllCount(attempts, i) +
                LookCount(NextFirst(attempts), looks, i) + PlaceCount(NextFirst(attempts), places, i)
  {
    var first := 0;
    attempts, looks, places := [], [], [];
    ghost var before, start := cache.numTimeouts, cache.charged;
    while true
      invariant cache.Valid() && Retrying(cache.n, load, before, cache.numTimeouts, start, cache.charged, attempts)
      invariant AllFailedIn(attempts) && first == NextFirst(attempts) < cache.n
      invariant !Publication.ValidTag(tag) ==> attempts == []
      decreases cache.n - first
    {
      var root, ok;
      ghost var between, was := cache.numTimeouts, cache.charged;
      ghost var a;
      root, ok, a, looks, places := Round(cache, tag, load, first);
      if root == None {
        return None, attempts, looks, places;
      }
      RetryingOn(cache.n, load, before, between, cache.numTimeouts, start, was, cache.charged, attempts, a);
      attempts := attempts + [a];
      if ok {
        return root, attempts, [], [];
      }
      first := root.value + 1;
      if first == cache.n {
        return None, attempts, [], [];
      }
    }
  }
}
