/** The lifetime of AICPU kernel modules between host and device: launches are asynchronous, and a module is
    deleted by a request of its own. (include/deep_jit/backend/ascend/aicpu/bootstrap.hpp,
    include/deep_jit/backend/ascend/aicpu/bootstrap_device.hpp, include/deep_jit/backend/ascend/kernel.hpp) */
module AicpuModules {
  import opened Bytes

  /** Where a kernel object is: usable, in `unload` waiting for the device, asking for the deletion, or gone. */
  datatype Phase = Live | Syncing(upto: nat) | Unloading | Closed

  /** How a loader request ended: as it should, refused by the loader, or with an ACL failure that leaves open
      whether the device carried it out. */
  datatype Request = Fine | Refused | Lost(done: bool)

  /** A kernel and its module have one number. `modules`: the modules ever loaded, and whether they still
      exist. `queue`: the invocations not yet run, by the time of their launch. `failedSync`: the kernels whose
      own device synchronisation in `unload` failed. */
  datatype State = State(
    kernels: map<nat, Phase>, modules: map<nat, bool>, queue: map<nat, nat>, next: nat,
    healthy: bool, runtime: bool, released: bool, failedSync: set<nat>)

  const INITIAL := State(map[], map[], map[], 0, true, true, false, {})

  datatype Action =
    | Load(request: Request)
    | Launch(k: nat)
    | Invoke(t: nat)                        // the device runs a queued invocation
    | Drop(k: nat)                          // the last owner lets go: `unload` calls aclrtSynchronizeDevice
    | Synced(k: nat, ok: bool)              // it returns
    | Unload(k: nat, request: Request)
    | DropRuntime
    | Release                               // the last owner of the bootstrap lets go

  /** `execute`: a request on an unhealthy loader is refused; an ACL failure makes it unhealthy. */
  function Healthy(s: State, request: Request): bool { s.healthy && !request.Lost? }

  function Apply(s: State, a: Action): Option<State> {
    match a
    case Load(request) =>
      if !s.runtime then None
      else if !s.healthy || request.Refused? then Some(s)
      else
        var m := s.next;
        var s1 := s.(next := m + 1, healthy := Healthy(s, request));
        if request.Fine? then Some(s1.(modules := s.modules[m := true], kernels := s.kernels[m := Live]))
        else Some(s1.(modules := if request.done then s.modules[m := true] else s.modules))
    case Launch(k) =>
      if k in s.kernels && s.kernels[k].Live? then Some(s.(queue := s.queue[s.next := k], next := s.next + 1)) else None
    case Invoke(t) => if t in s.queue then Some(s.(queue := s.queue - {t})) else None
    case Drop(k) =>
      if k in s.kernels && s.kernels[k].Live? then Some(s.(kernels := s.kernels[k := Syncing(s.next)])) else None
    case Synced(k, ok) =>
      if k !in s.kernels || !s.kernels[k].Syncing? then None
      else if !ok then Some(s.(kernels := s.kernels[k := Closed], failedSync := s.failedSync + {k}))
      else if forall t :: t in s.queue ==> t >= s.kernels[k].upto then Some(s.(kernels := s.kernels[k := Unloading]))
      else None
    case Unload(k, request) =>
      if k !in s.kernels || !s.kernels[k].Unloading? then None
      else
        var deleted := s.healthy && (request.Fine? || (request.Lost? && request.done));
        Some(s.(kernels := s.kernels[k := Closed], healthy := Healthy(s, request),
                modules := if deleted then s.modules[k := false] else s.modules))
    case DropRuntime => Some(s.(runtime := false))
    case Release =>
      if !s.runtime && !s.released && forall k :: k in s.kernels ==> s.kernels[k].Closed? then Some(s.(released := true)) else None
  }

  /** The kernel of a queued invocation is alive to the device: it is still owned, or its `unload` waits for
      this very invocation, or its own synchronisation failed and its module stays. */
  ghost predicate QueuedOk(s: State, t: nat)
    requires t in s.queue
  {
    var k := s.queue[t];
    && t < s.next && k in s.kernels && k in s.modules && s.modules[k]
    && (s.kernels[k].Live? || (s.kernels[k].Syncing? && t < s.kernels[k].upto) || (s.kernels[k].Closed? && k in s.failedSync))
  }

  ghost predicate Inv(s: State) {
    && (forall t :: t in s.queue ==> QueuedOk(s, t))
    && (forall k :: k in s.kernels ==> k < s.next && (!s.kernels[k].Closed? ==> k in s.modules && s.modules[k]))
    && (forall m :: m in s.modules ==> m < s.next)
    && (s.released ==> !s.runtime && forall k :: k in s.kernels ==> s.kernels[k].Closed?)
  }

  /** Steps that start something: a load, a launch, a run. */
  lemma StartInv(s: State, a: Action, s': State)
    requires Inv(s) && Apply(s, a) == Some(s') && (a.Load? || a.Launch? || a.Invoke? || a.Drop?)
    ensures Inv(s')
  {
    forall t | t in s'.queue && t in s.queue
      ensures QueuedOk(s', t)
    {
      assert QueuedOk(s, t);
    }
  }

  /** Steps that end something. */
  lemma EndInv(s: State, a: Action, s': State)
    requires Inv(s) && Apply(s, a) == Some(s') && (a.Synced? || a.Unload? || a.DropRuntime? || a.Release?)
    ensures Inv(s')
  {
    forall t | t in s'.queue
      ensures QueuedOk(s', t)
    {
      assert QueuedOk(s, t);
    }
  }

  lemma StepInv(s: State, a: Action, s': State)
    requires Inv(s) && Apply(s, a) == Some(s')
    ensures Inv(s')
  {
    if a.Load? || a.Launch? || a.Invoke? || a.Drop? {
      StartInv(s, a, s');
    } else {
      EndInv(s, a, s');
    }
  }

  ghost predicate Run(run: seq<State>, acts: seq<Action>) {
    && |run| == |acts| + 1 && run[0] == INITIAL
    && forall i: nat :: i < |acts| ==> Apply(run[i], acts[i]) == Some(run[i + 1])
  }

  lemma {:induction false} RunInv(run: seq<State>, acts: seq<Action>, i: nat)
    requires Run(run, acts) && i < |run|
    ensures Inv(run[i])
  {
    if i > 0 {
      RunInv(run, acts, i - 1);
      assert Apply(run[i - 1], acts[i - 1]) == Some(run[i - 1 + 1]);
      StepInv(run[i - 1], acts[i - 1], run[i]);
    }
  }

  /** In every run an invocation runs only on a module that was loaded and is not deleted, and a deletion is
      only asked for a module that exists: none is deleted twice. */
  lemma InvokeOnLiveModule(run: seq<State>, acts: seq<Action>, i: nat)
    requires Run(run, acts) && i < |acts|
    ensures acts[i].Invoke? ==>
              acts[i].t in run[i].queue && var m := run[i].queue[acts[i].t]; m in run[i].modules && run[i].modules[m]
    ensures acts[i].Unload? ==> acts[i].k in run[i].modules && run[i].modules[acts[i].k]
  {
    RunInv(run, acts, i);
    assert Apply(run[i], acts[i]) == Some(run[i + 1]);
    if acts[i].Invoke? {
      assert QueuedOk(run[i], acts[i].t);
    }
  }

  /** The bootstrap's code outlives every queued invocation but those of kernels whose own synchronisation
      failed. */
  lemma BootstrapOutlivesQueue(run: seq<State>, acts: seq<Action>, i: nat, t: nat)
    requires Run(run, acts) && i < |run|
    requires run[i].released && t in run[i].queue
    ensures run[i].queue[t] in run[i].failedSync
  {
    RunInv(run, acts, i);
    assert QueuedOk(run[i], t);
  }

  /** A run that goes on from s. */
  ghost predicate Goes(s: State, run: seq<State>, acts: seq<Action>) {
    && |run| == |acts| + 1 && run[0] == s
    && forall i: nat :: i < |acts| ==> Apply(run[i], acts[i]) == Some(run[i + 1])
  }

  lemma GoesFirst(s: State, a: Action, run: seq<State>, acts: seq<Action>)
    requires |run| > 0 && Apply(s, a) == Some(run[0]) && Goes(run[0], run, acts)
    ensures Goes(s, [s] + run, [a] + acts)
  {
    forall i: nat | i < |[a] + acts|
      ensures Apply(([s] + run)[i], ([a] + acts)[i]) == Some(([s] + run)[i + 1])
    {
      if i > 0 {
        assert Apply(run[i - 1], acts[i - 1]) == Some(run[i - 1 + 1]);
      }
    }
  }

  function Open(s: State): set<nat> { set k | k in s.kernels && !s.kernels[k].Closed? }

  function Owned(s: State): set<nat> { set k | k in s.kernels && s.kernels[k].Live? }

  /** The last owner of an open kernel lets go, or its `unload` goes on; the queue stays as it is. */
  function Closing(s: State, k: nat): Action
    requires k in Open(s)
  {
    if s.kernels[k].Live? then Drop(k) else if s.kernels[k].Syncing? then Synced(k, false) else Unload(k, Fine)
  }

  lemma ClosingCloses(s: State, k: nat)
    requires k in Open(s)
    ensures Apply(s, Closing(s, k)).Some?
    ensures var s' := Apply(s, Closing(s, k)).value;
            && s'.queue == s.queue && s.failedSync <= s'.failedSync && s'.released == s.released
            && if s.kernels[k].Live? then Open(s') == Open(s) && Owned(s') == Owned(s) - {k} else Open(s') == Open(s) - {k}
  {
  }

  /** The exception is real, for every such invocation: wherever a kernel's own synchronisation has failed
      and an invocation of it is still queued, the run can go on to release the bootstrap with that invocation
      still queued. */
  lemma {:induction false} FailedSyncReleasesEarly(s: State, t: nat) returns (run: seq<State>, acts: seq<Action>)
    requires Inv(s) && t in s.queue && s.queue[t] in s.failedSync
    ensures Goes(s, run, acts)
    ensures run[|acts|].released && t in run[|acts|].queue && run[|acts|].queue[t] == s.queue[t]
    decreases |Open(s)|, |Owned(s)|
  {
    if s.released {
      run, acts := [s], [];
    } else if Open(s) == {} {
      assert forall k :: k in s.kernels && !s.kernels[k].Closed? ==> k in Open(s);
      var s1 := Apply(s, DropRuntime).value;
      run, acts := [s, s1, Apply(s1, Release).value], [DropRuntime, Release];
    } else {
      var k :| k in Open(s);
      ClosingCloses(s, k);
      StepInv(s, Closing(s, k), Apply(s, Closing(s, k)).value);
      assert s.kernels[k].Live? ==> k in Owned(s);
      var rest, more := FailedSyncReleasesEarly(Apply(s, Closing(s, k)).value, t);
      GoesFirst(s, Closing(s, k), rest, more);
      run, acts := [s] + rest, [Closing(s, k)] + more;
    }
  }

  /** Such a run from the start. */
  lemma EarlyRelease() returns (run: seq<State>, acts: seq<Action>)
    ensures Run(run, acts) && |run| == 7 && run[6].released && 1 in run[6].queue
  {
    acts := [Load(Fine), Launch(0), Drop(0), Synced(0, false), DropRuntime, Release];
    var s1 := Apply(INITIAL, acts[0]).value;
    var s2 := Apply(s1, acts[1]).value;
    var s3 := Apply(s2, acts[2]).value;
    var s4 := Apply(s3, acts[3]).value;
    var s5 := Apply(s4, acts[4]).value;
    var s6 := Apply(s5, acts[5]).value;
    run := [INITIAL, s1, s2, s3, s4, s5, s6];
  }

  // ---- Loading on the device ----

  /** What one `write` call returns. */
  datatype Write = Interrupted | Failed | Wrote(n: nat)

  /** The write loop of the device's `load`, against the results of the write calls: it ends in failure, or
      with the whole image in the file and nothing else. */
  method WriteImage(image: bytes, calls: seq<Write>) returns (done: bool, failed: bool, file: bytes)
    requires forall c :: c in calls && c.Wrote? ==> c.n <= |image|
    ensures done ==> file == image
    ensures file <= image && !(done && failed)
    ensures !done && !failed ==> forall c :: c in calls ==> !c.Failed?
  {
    var offset: nat, next: nat := 0, 0;
    done, file, failed := false, [], false;
    while offset < |image| && next < |calls|
      invariant next <= |calls| && offset <= |image| && file == image[..offset]
      invariant forall c :: c in calls[..next] ==> !c.Failed?
      decreases |calls| - next
    {
      var call := calls[next];
      assert calls[..next + 1] == calls[..next] + [call];
      next := next + 1;
      if call.Interrupted? {
        continue;
      }
      // A call writes at most what it is given.
      var written: nat := if call.Failed? then 0 else if call.n <= |image| - offset then call.n else |image| - offset;
      if written == 0 {
        return false, true, file;
      }
      assert image[..offset + written] == image[..offset] + image[offset..offset + written];
      file := file + image[offset..offset + written];
      offset := offset + written;
    }
    done := offset == |image|;
    assert image[..|image|] == image;
    assert next == |calls| ==> calls[..next] == calls;
  }

  // ---- The host's objects ----

  datatype Operation = LoadModule | UnloadModule(id: nat) | RemoveBootstrap

  datatype Reply = Unavailable | AclFailure | RefusedBy(status: nat) | Answered

  /** The bootstrap: `sent` are the requests that it launched. */
  class Bootstrap {
    var healthy: bool
    ghost var sent: seq<Operation>

    constructor ()
      ensures healthy && sent == []
    {
      healthy, sent := true, [];
    }

    /** `execute`: the loader counts as unhealthy from the launch until its result is back, so any ACL failure
        in between disables it for good; an error that the loader itself reports does not. */
    method Execute(operation: Operation) returns (reply: Reply)
      modifies this
      ensures old(healthy) ==> sent == old(sent) + [operation] && reply != Unavailable && (healthy <==> reply != AclFailure)
      ensures !old(healthy) ==> !healthy && sent == old(sent) && reply == Unavailable
    {
      if !healthy {
        return Unavailable;
      }
      healthy := false;
      sent := sent + [operation];
      var launched: bool, synchronised: bool, copied: bool := *, *, *;
      if !launched || !synchronised || !copied {
        return AclFailure;
      }
      healthy := true;
      var status: nat := *;
      reply := if status == 0 then Answered else RefusedBy(status);
    }

    /** `unload`: no deletion is asked for before the device has synchronised. */
    method Unload(id: nat) returns (synced: bool, reply: Reply)
      modifies this
      ensures sent == if synced && old(healthy) then old(sent) + [UnloadModule(id)] else old(sent)
      ensures !synced ==> healthy == old(healthy)
      ensures healthy ==> old(healthy)
    {
      synced, reply := *, AclFailure;
      if synced {
        reply := Execute(UnloadModule(id));
      }
    }
  }

  /** A kernel: 0 stands for a null handle. */
  class Kernel {
    var loaded: nat
    var binary: nat
    var handle: nat
    var bootstrap: Bootstrap?

    constructor (loaded: nat, binary: nat, handle: nat, bootstrap: Bootstrap?)
      requires loaded != 0 ==> bootstrap != null
      ensures this.loaded == loaded && this.binary == binary && this.handle == handle && this.bootstrap == bootstrap && Valid()
    {
      this.loaded, this.binary, this.handle, this.bootstrap := loaded, binary, handle, bootstrap;
    }

    /** A kernel with a module keeps its bootstrap alive. */
    predicate Valid()
      reads this
    {
      loaded != 0 ==> bootstrap != null
    }

    /** `unload`: whatever fails, the kernel holds nothing afterwards; its module's deletion is asked for at
        most once, and by nobody else's bootstrap. */
    method Unload() returns (ghost synced: bool)
      requires Valid()
      modifies this, bootstrap
      ensures Valid() && loaded == 0 && binary == 0 && handle == 0 && bootstrap == null
      ensures old(loaded) != 0 ==>
                old(bootstrap).sent == if synced && old(bootstrap.healthy) then old(bootstrap.sent) + [UnloadModule(old(loaded))]
                                       else old(bootstrap.sent)
      ensures old(loaded) == 0 && old(bootstrap) != null ==>
                old(bootstrap).sent == old(bootstrap.sent) && old(bootstrap).healthy == old(bootstrap.healthy)
    {
      synced := false;
      if loaded != 0 {
        var done, _ := bootstrap.Unload(loaded);
        synced := done;
      }
      loaded, binary, handle, bootstrap := 0, 0, 0, null;
    }
  }
}
