/** The build of the AICPU loader and the quarantine: exactly when a single request at a time can take a
    root's timeout count beyond 3. */
module LoaderBoot {
  import opened Bytes
  import opened ArtifactImage
  import opened CacheKey
  import opened EntryRules
  import opened Publication
  import opened PublicationSafety
  import opened PublicationRuns
  import opened PublicationOwnership
  import opened Quarantine
  import opened Finite

  /** The complete entry of an AICPU kernel. */
  ghost predicate AicpuEntry(c: Setup, x: Input, img: Image) {
    Complete(c, img, c.key(Kernel(x))) && c.aicpu in img.nodes && img.nodes[c.aicpu].File?
  }

  /** The process has an AICPU loader to build, and there can be kernels that need it. */
  ghost predicate CanBoot(c: Setup, h: nat) {
    c.loader(h).Some? && exists x: Input, img: Image :: AicpuEntry(c, x, img)
  }

  /** The build of the loader starts with an I/O task, which writes its sources. */
  ghost predicate LoaderWrites(c: Setup, h: nat) {
    c.loader(h).Some? ==>
      forall u: nat :: c.plan(Loader(c.loader(h).value), u) != [] && c.plan(Loader(c.loader(h).value), u)[0].kind == Io
  }

  /** At most k requests at a time. */
  ghost predicate AtMost(run: seq<State>, h: nat, k: nat) { forall m: nat :: m < |run| ==> |Top(run[m], h)| <= k }

  // ---- Without a loader ----

  ghost predicate NoLoader(s: State, h: nat) {
    forall r: nat :: r in s.reqs && s.reqs[r].host == h ==> s.reqs[r].input.Kernel?
  }

  lemma AicpuKernelHasEntry(c: Setup, s: State, r: nat)
    requires Inv(c, s) && r in s.reqs && s.reqs[r].pc.Aicpu? && c.loader(s.reqs[r].host).Some?
    ensures CanBoot(c, s.reqs[r].host)
  {
    var q := s.reqs[r];
    assert ReqOk(c, s, r);
    var slot := SlotOf(c, q, q.pc.i);
    assert (Slot(slot.root, slot.tag, slot.digest), s.names[slot]) in s.bound;
    assert AicpuEntry(c, q.input.input, s.images[s.names[slot]]);
  }

  lemma BootNoLoader(c: Setup, s: State, r: nat, s': State, h: nat)
    requires Inv(c, s) && r in s.reqs && BootStep(c, s, r) == Some(s') && NoLoader(s, h) && !CanBoot(c, h)
    ensures NoLoader(s', h)
  {
    assert ReqOk(c, s, r);
    BootTurns(c, s, r, s');
    AicpuKernelHasEntry(c, s, r);
  }

  lemma StepNoLoader(c: Setup, s: State, a: Action, s': State, h: nat)
    requires Inv(c, s) && Step(c, s, a, s') && NoLoader(s, h) && !CanBoot(c, h)
    ensures NoLoader(s', h)
  {
    match a {
      case Advance(r) => AdvanceTurns(c, s, r, s');
      case Expire(r) => ExpireTurns(s, r, s');
      case Deploy(r, ok) => DeployTurns(s, r, ok, s');
      case Boot(r) => BootNoLoader(c, s, r, s', h);
      case Work(j, choice) => JobTurns(c, s, j, choice, s');
      case _ =>
    }
  }

  lemma {:induction false} RunNoLoader(c: Setup, run: seq<State>, acts: seq<Action>, h: nat, n: nat)
    requires Run(c, run, acts) && n < |run| && !CanBoot(c, h)
    ensures NoLoader(run[n], h)
  {
    if n > 0 {
      RunInv(c, run, acts, n - 1);
      assert Step(c, run[n - 1], acts[n - 1], run[n - 1 + 1]);
      RunNoLoader(c, run, acts, h, n - 1);
      StepNoLoader(c, run[n - 1], acts[n - 1], run[n], h);
    }
  }

  lemma WithoutLoader(c: Setup, run: seq<State>, acts: seq<Action>, h: nat, k: nat, i: nat, n: nat)
    requires Run(c, run, acts) && n < |run| && !CanBoot(c, h) && AtMost(run, h, k)
    ensures Count(run[n], h, i) <= k + 2
  {
    forall m: nat | m < |run|
      ensures NoLoader(run[m], h)
    {
      RunNoLoader(c, run, acts, h, m);
    }
    BoundWithoutLoader(c, run, acts, k, h, i, n);
  }

  // ---- With a loader: runs that reach the bound ----

  const TAG: bytes := [0x61]

  function KernelSlot(c: Setup, x: Input): Path { Slot(0, TAG, c.key(Kernel(x))) }

  /** The fixed parts of such a run: the AICPU kernel with its entry, the process, and how many requests it may
      have under way. */
  datatype Scene = Scene(x: Input, img: Image, h: nat, k: nat)

  /** A request of h on the one root. */
  predicate Here(s: State, n: nat, h: nat) { n in s.reqs && s.reqs[n].host == h && s.reqs[n].roots == [0] && n < s.next }

  /** Request p waits for a loader request whose first I/O task is under way. */
  predicate Armed(s: State, h: nat, p: nat, child: nat) {
    && Here(s, p, h) && Here(s, child, h) && s.reqs[p].pc == Booting(0, child) && s.reqs[p].input.Kernel?
    && s.reqs[child].input.Loader?
    && s.reqs[child].pc.StageWait? && s.reqs[child].pc.i == 0 && s.reqs[child].pc.kind == Io
  }

  /** Neither an armed request nor one it waits for. */
  predicate Free(armed: map<nat, nat>, n: nat) { n !in armed && n !in armed.Values }

  predicate Apart(armed: map<nat, nat>) {
    && (forall p, p' :: p in armed && p' in armed && p != p' ==> armed[p] != armed[p'])
    && (forall p, p' :: p in armed && p' in armed ==> armed[p] != p')
  }

  /** A disk with one root, and on it the entry of an AICPU kernel alone; a process on which nothing is under
      way but the armed requests and request r; and its count for that root. */
  ghost predicate World(c: Setup, w: Scene, s: State, armed: map<nat, nat>, r: nat, count: nat) {
    && KernelSlot(c, w.x) in s.names && s.names[KernelSlot(c, w.x)] == 0 && 0 in s.images && s.images[0] == w.img
    && (forall p: Path :: p in s.names && p.Slot? ==> p == KernelSlot(c, w.x))
    && Count(s, w.h, 0) == count && s.booted == {} && s.next > 0
    && (forall n: nat :: n in s.reqs ==> n < s.next) && (forall j: nat :: j in s.jobs ==> j < s.next)
    && (forall n: nat :: n in s.reqs && IsTop(s.reqs[n], w.h) ==> n == r || n in armed)
    && Apart(armed) && forall p :: p in armed ==> Armed(s, w.h, p, armed[p])
  }

  datatype Trace = Trace(run: seq<State>, acts: seq<Action>)

  /** A run so far; it has come to state s. */
  ghost predicate Track(c: Setup, w: Scene, t: Trace, s: State) {
    Run(c, t.run, t.acts) && AtMost(t.run, w.h, w.k) && t.run[|t.acts|] == s
  }

  lemma RunGoesOn(c: Setup, run: seq<State>, acts: seq<Action>, a: Action, s': State)
    requires Run(c, run, acts) && Step(c, run[|acts|], a, s')
    ensures Run(c, run + [s'], acts + [a])
  {
    var run', acts' := run + [s'], acts + [a];
    forall k: nat | k < |acts'|
      ensures Step(c, run'[k], acts'[k], run'[k + 1])
    {
      if k < |acts| {
        assert Step(c, run[k], acts[k], run[k + 1]);
      }
    }
  }

  lemma AtMostGoesOn(run: seq<State>, h: nat, k: nat, s': State)
    requires AtMost(run, h, k) && |Top(s', h)| <= k
    ensures AtMost(run + [s'], h, k)
  {
    forall m: nat | m < |run + [s']|
      ensures |Top((run + [s'])[m], h)| <= k
    {
      assert m < |run| ==> (run + [s'])[m] == run[m];
    }
  }

  lemma FewTop(c: Setup, w: Scene, s: State, armed: map<nat, nat>, r: nat, count: nat)
    requires World(c, w, s, armed, r, count)
    ensures |Top(s, w.h)| <= |armed| + 1
  {
    SubsetSmaller(Top(s, w.h), armed.Keys + {r});
  }

  /** The run goes on. */
  lemma Go(c: Setup, w: Scene, t: Trace, s: State, a: Action, s': State, armed: map<nat, nat>, r: nat, count: nat) returns (t': Trace)
    requires Track(c, w, t, s) && Step(c, s, a, s') && World(c, w, s', armed, r, count) && |armed| < w.k
    ensures Track(c, w, t', s')
  {
    t' := Trace(t.run + [s'], t.acts + [a]);
    FewTop(c, w, s', armed, r, count);
    RunGoesOn(c, t.run, t.acts, a, s');
    AtMostGoesOn(t.run, w.h, w.k, s');
  }

  /** Request n becomes q, and at most one job starts. */
  ghost predicate Turned(s: State, s': State, n: nat, q: Req) {
    && s'.reqs == s.reqs[n := q] && s'.names == s.names && s'.images == s.images && s'.booted == s.booted
    && s.next <= s'.next && n < s'.next
    && forall j: nat :: j in s'.jobs ==> j in s.jobs || j < s'.next
  }

  lemma TurnedWorld(c: Setup, w: Scene, s: State, s': State, armed: map<nat, nat>, r: nat, count: nat, n: nat, q: Req, r': nat)
    requires World(c, w, s, armed, r, count) && Turned(s, s', n, q) && Free(armed, n)
    requires IsTop(q, w.h) ==> n == r'
    requires r' != r && r in s.reqs ==> n == r || !IsTop(s.reqs[r], w.h)
    ensures World(c, w, s', armed, r', Count(s', w.h, 0))
  {
    forall p | p in armed
      ensures Armed(s', w.h, p, armed[p])
    {
      assert Armed(s, w.h, p, armed[p]) && armed[p] in armed.Values;
    }
  }

  // ---- Single steps ----

  lemma TagsAreValid()
    ensures ValidTag(TAG) && ValidTag(LOADER_TAG) && TAG != LOADER_TAG
  {
    forall b | b in LOADER_TAG
      ensures TagChar(b)
    {
      var k :| 0 <= k < 15 && LOADER_TAG[k] == b;
    }
  }

  lemma SubmitStep(c: Setup, s: State, h: nat, x: Input)
    ensures var q := NewReq(h, [0], TAG, Kernel(x), true); var s' := AddReq(s, q);
            Step(c, s, Submit(h, [0], TAG, x, true), s') && Turned(s, s', s.next, q) && q.pc == Probing(0)
  {
    TagsAreValid();
  }

  lemma ProbeStep(c: Setup, s: State, h: nat, n: nat)
    requires Here(s, n, h) && s.reqs[n].pc == Probing(0) && Count(s, h, 0) < 3
    ensures var q, s' := s.reqs[n], Lookup(c, s, n, 0);
            && Step(c, s, Advance(n), s') && Turned(s, s', n, q.(pc := ProbeWait(0, s.next))) && s'.counts == s.counts
            && s.next in s'.jobs && s'.jobs[s.next] == Job(h, 0, Probe(SlotOf(c, q, 0)))
  {
  }

  lemma ProbedStep(c: Setup, s: State, h: nat, n: nat)
    requires Here(s, n, h) && s.reqs[n].pc == Probing(1) && s.reqs[n].first == 0
    ensures var s' := Lookup(c, s, n, 1);
            && Step(c, s, Advance(n), s') && Turned(s, s', n, s.reqs[n].(pc := Placing(0))) && s'.counts == s.counts
  {
  }

  lemma PassStep(c: Setup, s: State, h: nat, n: nat)
    requires Here(s, n, h) && s.reqs[n].pc == Placing(0) && 0 in s.reqs[n].failed
    ensures var s' := Place(s, n, 0);
            && Step(c, s, Advance(n), s') && Turned(s, s', n, Placed(s.reqs[n], Passed, Placing(1))) && s'.counts == s.counts
  {
  }

  lemma GiveUpStep(c: Setup, s: State, h: nat, n: nat)
    requires Here(s, n, h) && s.reqs[n].pc == Placing(1)
    ensures var s' := Place(s, n, 1);
            && Step(c, s, Advance(n), s') && Turned(s, s', n, s.reqs[n].(pc := Finished(Threw(false)))) && s'.counts == s.counts
  {
  }

  /** An I/O timeout of request n on the root. */
  lemma ExpireStep(c: Setup, s: State, h: nat, n: nat)
    requires Here(s, n, h) && Awaited(s.reqs[n].pc).Some? && ChargesRoot(s.reqs[n].pc) && s.reqs[n].pc.i == 0
    ensures var q := TimedOutReq(s.reqs[n]); var s' := Charge(SetReq(s, n, q), h, 0);
            && Step(c, s, Expire(n), s') && Turned(s, s', n, q) && Count(s', h, 0) == Count(s, h, 0) + 1
  {
  }

  /** The job that a request waits for ends, and the request goes on. */
  lemma AnswerStep(c: Setup, s: State, h: nat, n: nat, j: nat, result: Result)
    requires Here(s, n, h) && Awaited(s.reqs[n].pc) == Some(j) && j in s.jobs && s.jobs[j].work == Done(result)
    ensures var q := AnsweredReq(c, s.reqs[n], result); var s' := SetReq(s, n, q);
            && Step(c, s, Advance(n), s') && Turned(s, s', n, q) && s'.counts == s.counts
  {
  }

  /** A lookup or a check ends. */
  lemma ReadStep(c: Setup, s: State, h: nat, n: nat, j: nat)
    requires Here(s, n, h) && j in s.jobs && (s.jobs[j].work.Probe? || s.jobs[j].work.Check?)
    ensures var w := s.jobs[j].work;
            var result := if w.Check? then (if HasFile(s, w.slot, w.file) then Good else Miss) else if IsMarked(s, w.slot) then Result.Hit else Miss;
            var s' := SetWork(s, j, Done(result));
            && Step(c, s, Action.Work(j, Proceed), s') && Turned(s, s', n, s.reqs[n]) && s'.counts == s.counts
  {
    assert s.reqs[n := s.reqs[n]] == s.reqs;
  }

  lemma CheckStep(c: Setup, s: State, h: nat, n: nat)
    requires Here(s, n, h) && s.reqs[n].pc == Loading(0) && s.reqs[n].input.Kernel? && s.reqs[n].load && c.loader(h).Some?
    ensures var q, s' := s.reqs[n], StartLoad(c, s, n, 0);
            && Step(c, s, Advance(n), s') && Turned(s, s', n, q.(pc := CheckWait(0, s.next))) && s'.counts == s.counts
            && s.next in s'.jobs && s'.jobs[s.next] == Job(h, 0, Check(SlotOf(c, q, 0), c.aicpu))
  {
  }

  lemma StartBootStep(c: Setup, s: State, h: nat, n: nat)
    requires Here(s, n, h) && s.reqs[n].pc == Aicpu(0) && s.booted == {} && c.loader(h).Some?
    ensures var q := s.reqs[n]; var s1 := SetPc(s, n, Booting(0, s.next)); var s' := AddReq(s1, LoaderReq(c, q));
            && Step(c, s, Boot(n), s') && Turned(s, s1, n, q.(pc := Booting(0, s.next))) && Turned(s1, s', s.next, LoaderReq(c, q))
            && s1.counts == s.counts == s'.counts && LoaderReq(c, q).pc == Probing(0)
  {
    TagsAreValid();
  }

  lemma PlaceStep(c: Setup, s: State, h: nat, n: nat)
    requires Here(s, n, h) && s.reqs[n].pc == Placing(0) && Count(s, h, 0) < 3 && s.reqs[n].failed == {}
    ensures var s' := Place(s, n, 0);
            && Step(c, s, Advance(n), s') && Turned(s, s', n, s.reqs[n].(pc := PlaceWait(0, s.next, s.next + 1))) && s'.counts == s.counts
            && s.next + 1 in s'.jobs && s'.jobs[s.next + 1] == Job(h, 0, MakeTemp(s.next))
  {
  }

  lemma BuildStep(c: Setup, s: State, h: nat, n: nat, u: nat, rest: seq<Stage>)
    requires Here(s, n, h) && s.reqs[n].pc == Building(0, u, rest) && rest != []
    ensures var s' := Build(s, n, 0, u, rest);
            && Step(c, s, Advance(n), s') && s'.counts == s.counts
            && Turned(s, s', n, s.reqs[n].(pc := StageWait(0, u, rest[1..], rest[0].kind, s.next)))
  {
  }

  lemma BootFailedStep(c: Setup, s: State, h: nat, n: nat, child: nat)
    requires Here(s, n, h) && s.reqs[n].pc == Booting(0, child) && child in s.reqs && s.reqs[child].pc == Finished(Threw(true))
    ensures var q := Retried(s.reqs[n], 0, true); var s' := BootFailed(s, n, 0, true);
            && Step(c, s, Advance(n), s') && Turned(s, s', n, q) && Count(s', h, 0) == Count(s, h, 0) + 1
  {
  }

  lemma MakeStep(c: Setup, w: Scene, s: State, armed: map<nat, nat>, r: nat, count: nat, j: nat, u: nat)
    requires World(c, w, s, armed, r, count) && j in s.jobs && s.jobs[j].work == MakeTemp(u) && u != 0
    ensures var s' := MakeTempStep(s, j, u);
            && Step(c, s, Action.Work(j, Proceed), s') && World(c, w, s', armed, r, count)
            && s'.reqs == s.reqs && s'.next == s.next && s'.jobs == s.jobs[j := s.jobs[j].(work := Done(Good))]
  {
    forall p | p in armed
      ensures Armed(MakeTempStep(s, j, u), w.h, p, armed[p])
    {
      assert Armed(s, w.h, p, armed[p]);
    }
  }

  // ---- Arming one request ----

  ghost predicate At(c: Setup, w: Scene, t: Trace, s: State, armed: map<nat, nat>, r: nat, count: nat) {
    Track(c, w, t, s) && World(c, w, s, armed, r, count) && |armed| < w.k
  }

  predicate Ready(s: State, armed: map<nat, nat>, n: nat, h: nat) { Here(s, n, h) && Free(armed, n) }

  /** One step of request n, or of its job. */
  lemma Turn(c: Setup, w: Scene, t: Trace, s: State, a: Action, s': State, armed: map<nat, nat>, r: nat, count: nat, n: nat, q: Req)
      returns (t': Trace)
    requires At(c, w, t, s, armed, r, count) && Free(armed, n)
    requires Step(c, s, a, s') && Turned(s, s', n, q) && (IsTop(q, w.h) ==> n == r)
    ensures At(c, w, t', s', armed, r, Count(s', w.h, 0))
  {
    TurnedWorld(c, w, s, s', armed, r, count, n, q, r);
    t' := Go(c, w, t, s, a, s', armed, r, Count(s', w.h, 0));
  }

  /** Request r is over, not there, or not a caller's. */
  predicate Over(s: State, r: nat, h: nat) { r in s.reqs ==> !IsTop(s.reqs[r], h) }

  lemma NewIsFree(c: Setup, w: Scene, s: State, armed: map<nat, nat>, r: nat, count: nat)
    requires World(c, w, s, armed, r, count)
    ensures Free(armed, s.next)
  {
    forall p | p in armed
      ensures p < s.next && armed[p] < s.next
    {
      assert Armed(s, w.h, p, armed[p]);
    }
  }

  lemma Enter(c: Setup, w: Scene, t: Trace, s: State, armed: map<nat, nat>, r: nat, count: nat) returns (t': Trace, s': State, n: nat)
    requires At(c, w, t, s, armed, r, count) && Over(s, r, w.h)
    ensures At(c, w, t', s', armed, n, count) && Ready(s', armed, n, w.h)
    ensures s'.reqs[n] == NewReq(w.h, [0], TAG, Kernel(w.x), true) && s'.reqs[n].pc == Probing(0)
  {
    n := s.next;
    var q := NewReq(w.h, [0], TAG, Kernel(w.x), true);
    s' := AddReq(s, q);
    SubmitStep(c, s, w.h, w.x);
    NewIsFree(c, w, s, armed, r, count);
    TurnedWorld(c, w, s, s', armed, r, count, n, q, n);
    t' := Go(c, w, t, s, Submit(w.h, [0], TAG, w.x, true), s', armed, n, count);
  }

  /** A new request looks up the root. */
  lemma Begin(c: Setup, w: Scene, t: Trace, s: State, armed: map<nat, nat>, r: nat, count: nat)
      returns (t': Trace, s': State, n: nat, j: nat)
    requires At(c, w, t, s, armed, r, count) && Over(s, r, w.h) && count < 3
    ensures At(c, w, t', s', armed, n, count) && Ready(s', armed, n, w.h)
    ensures s'.reqs[n] == NewReq(w.h, [0], TAG, Kernel(w.x), true).(pc := ProbeWait(0, j))
    ensures j in s'.jobs && s'.jobs[j] == Job(w.h, 0, Probe(KernelSlot(c, w.x)))
  {
    var t1, s1;
    t1, s1, n := Enter(c, w, t, s, armed, r, count);
    ProbeStep(c, s1, w.h, n);
    j, s' := s1.next, Lookup(c, s1, n, 0);
    t' := Turn(c, w, t1, s1, Advance(n), s', armed, n, count, n, s1.reqs[n].(pc := ProbeWait(0, j)));
  }

  /** A request whose lookup fails finds no root. */
  lemma End(c: Setup, w: Scene, t: Trace, s: State, armed: map<nat, nat>, n: nat, count: nat) returns (t': Trace, s': State)
    requires At(c, w, t, s, armed, n, count) && Ready(s, armed, n, w.h)
    requires s.reqs[n].pc == Probing(1) && s.reqs[n].first == 0 && 0 in s.reqs[n].failed
    ensures At(c, w, t', s', armed, n, count) && Over(s', n, w.h)
  {
    ProbedStep(c, s, w.h, n);
    var s1 := Lookup(c, s, n, 1);
    var t1 := Turn(c, w, t, s, Advance(n), s1, armed, n, count, n, s.reqs[n].(pc := Placing(0)));
    PassStep(c, s1, w.h, n);
    var s2 := Place(s1, n, 0);
    var t2 := Turn(c, w, t1, s1, Advance(n), s2, armed, n, count, n, Placed(s1.reqs[n], Passed, Placing(1)));
    GiveUpStep(c, s2, w.h, n);
    s' := Place(s2, n, 1);
    t' := Turn(c, w, t2, s2, Advance(n), s', armed, n, count, n, s2.reqs[n].(pc := Finished(Threw(false))));
  }

  /** A lookup times out, which charges the root. */
  lemma ProbeTimesOut(c: Setup, w: Scene, t: Trace, s: State, armed: map<nat, nat>, n: nat, count: nat, j: nat)
      returns (t': Trace, s': State)
    requires At(c, w, t, s, armed, n, count) && Ready(s, armed, n, w.h) && s.reqs[n].pc == ProbeWait(0, j) && s.reqs[n].first == 0
    ensures At(c, w, t', s', armed, n, count + 1) && Ready(s', armed, n, w.h)
    ensures s'.reqs[n].pc == Probing(1) && s'.reqs[n].first == 0 && 0 in s'.reqs[n].failed
  {
    ExpireStep(c, s, w.h, n);
    var q := TimedOutReq(s.reqs[n]);
    s' := Charge(SetReq(s, n, q), w.h, 0);
    t' := Turn(c, w, t, s, Expire(n), s', armed, n, count, n, q);
  }

  /** A request whose lookup times out charges the root once. */
  lemma TimeOutOnce(c: Setup, w: Scene, t: Trace, s: State, armed: map<nat, nat>, r: nat, count: nat)
      returns (t': Trace, s': State, n: nat)
    requires At(c, w, t, s, armed, r, count) && Over(s, r, w.h) && count < 3
    ensures At(c, w, t', s', armed, n, count + 1) && Over(s', n, w.h)
  {
    var t1, s1, j;
    t1, s1, n, j := Begin(c, w, t, s, armed, r, count);
    var t2, s2 := ProbeTimesOut(c, w, t1, s1, armed, n, count, j);
    t', s' := End(c, w, t2, s2, armed, n, count + 1);
  }

  /** The job that request n waits for ends, and the request goes on. */
  lemma Answer(c: Setup, w: Scene, t: Trace, s: State, armed: map<nat, nat>, r: nat, count: nat, n: nat, j: nat, result: Result)
      returns (t': Trace, s': State)
    requires At(c, w, t, s, armed, r, count) && Ready(s, armed, n, w.h) && (IsTop(s.reqs[n], w.h) ==> n == r)
    requires Awaited(s.reqs[n].pc) == Some(j) && j in s.jobs
    requires var job := s.jobs[j].work;
             || (job.Check? && result == if HasFile(s, job.slot, job.file) then Good else Miss)
             || (job.Probe? && result == if IsMarked(s, job.slot) then Result.Hit else Miss)
    ensures At(c, w, t', s', armed, r, count) && Ready(s', armed, n, w.h)
    ensures s'.reqs == s.reqs[n := AnsweredReq(c, s.reqs[n], result)] && s'.next == s.next
  {
    ReadStep(c, s, w.h, n, j);
    var s1 := SetWork(s, j, Done(result));
    var t1 := Turn(c, w, t, s, Action.Work(j, Proceed), s1, armed, r, count, n, s.reqs[n]);
    AnswerStep(c, s1, w.h, n, j, result);
    var q := AnsweredReq(c, s1.reqs[n], result);
    AnsweredHolds(c, s1.reqs[n], result);
    s' := SetReq(s1, n, q);
    t' := Turn(c, w, t1, s1, Advance(n), s', armed, r, count, n, q);
  }

  lemma EntryIsSeen(c: Setup, w: Scene, s: State, armed: map<nat, nat>, r: nat, count: nat)
    requires World(c, w, s, armed, r, count) && AicpuEntry(c, w.x, w.img)
    ensures IsMarked(s, KernelSlot(c, w.x)) && HasFile(s, KernelSlot(c, w.x), c.aicpu)
  {
  }

  /** A new request hits the entry. */
  lemma HitEntry(c: Setup, w: Scene, t: Trace, s: State, armed: map<nat, nat>, r: nat, count: nat)
      returns (t': Trace, s': State, n: nat)
    requires At(c, w, t, s, armed, r, count) && Over(s, r, w.h) && count < 3 && AicpuEntry(c, w.x, w.img)
    ensures At(c, w, t', s', armed, n, count) && Ready(s', armed, n, w.h)
    ensures s'.reqs[n].pc == Loading(0) && s'.reqs[n].input == Kernel(w.x) && s'.reqs[n].load && s'.reqs[n].tag == TAG
  {
    var t1, s1, j;
    t1, s1, n, j := Begin(c, w, t, s, armed, r, count);
    EntryIsSeen(c, w, s1, armed, n, count);
    t', s' := Answer(c, w, t1, s1, armed, n, count, n, j, Result.Hit);
  }

  /** It looks whether that is an AICPU kernel's. */
  lemma StartCheck(c: Setup, w: Scene, t: Trace, s: State, armed: map<nat, nat>, n: nat, count: nat)
      returns (t': Trace, s': State, j: nat)
    requires At(c, w, t, s, armed, n, count) && Ready(s, armed, n, w.h) && c.loader(w.h).Some?
    requires s.reqs[n].pc == Loading(0) && s.reqs[n].input == Kernel(w.x) && s.reqs[n].load && s.reqs[n].tag == TAG
    ensures At(c, w, t', s', armed, n, count) && Ready(s', armed, n, w.h)
    ensures s'.reqs[n] == s.reqs[n].(pc := CheckWait(0, j))
    ensures j in s'.jobs && s'.jobs[j] == Job(w.h, 0, Check(KernelSlot(c, w.x), c.aicpu))
  {
    CheckStep(c, s, w.h, n);
    j, s' := s.next, StartLoad(c, s, n, 0);
    t' := Turn(c, w, t, s, Advance(n), s', armed, n, count, n, s.reqs[n].(pc := CheckWait(0, j)));
  }

  lemma CheckedIsAicpu(c: Setup, q: Req, j: nat)
    requires q.pc == CheckWait(0, j) && q.input.Kernel?
    ensures AnsweredReq(c, q, Good) == q.(pc := Aicpu(0))
  {
  }

  lemma CheckEnds(c: Setup, w: Scene, t: Trace, s: State, armed: map<nat, nat>, n: nat, count: nat, j: nat)
      returns (t': Trace, s': State)
    requires At(c, w, t, s, armed, n, count) && Ready(s, armed, n, w.h) && AicpuEntry(c, w.x, w.img)
    requires s.reqs[n].pc == CheckWait(0, j) && s.reqs[n].input == Kernel(w.x)
    requires j in s.jobs && s.jobs[j] == Job(w.h, 0, Check(KernelSlot(c, w.x), c.aicpu))
    ensures At(c, w, t', s', armed, n, count) && Ready(s', armed, n, w.h)
    ensures s'.reqs[n].pc == Aicpu(0) && s'.reqs[n].input == Kernel(w.x)
  {
    EntryIsSeen(c, w, s, armed, n, count);
    CheckedIsAicpu(c, s.reqs[n], j);
    t', s' := Answer(c, w, t, s, armed, n, count, n, j, Good);
  }

  lemma HitAicpu(c: Setup, w: Scene, t: Trace, s: State, armed: map<nat, nat>, r: nat, count: nat)
      returns (t': Trace, s': State, n: nat)
    requires At(c, w, t, s, armed, r, count) && Over(s, r, w.h) && count < 3 && AicpuEntry(c, w.x, w.img) && c.loader(w.h).Some?
    ensures At(c, w, t', s', armed, n, count) && Ready(s', armed, n, w.h)
    ensures s'.reqs[n].pc == Aicpu(0) && s'.reqs[n].input == Kernel(w.x)
  {
    var t1, s1;
    t1, s1, n := HitEntry(c, w, t, s, armed, r, count);
    var t2, s2, j := StartCheck(c, w, t1, s1, armed, n, count);
    t', s' := CheckEnds(c, w, t2, s2, armed, n, count, j);
  }

  /** Request n waits for the loader request `child` on the same root. */
  predicate Nests(s: State, armed: map<nat, nat>, n: nat, child: nat, h: nat, l: LoaderInput) {
    && Ready(s, armed, n, h) && Ready(s, armed, child, h) && n != child && s.reqs[n].pc == Booting(0, child) && s.reqs[n].input.Kernel?
    && s.reqs[child].input == Loader(l) && s.reqs[child].tag == LOADER_TAG && s.reqs[child].first == 0
  }

  ghost predicate Nesting(c: Setup, w: Scene, t: Trace, s: State, armed: map<nat, nat>, n: nat, count: nat, child: nat) {
    At(c, w, t, s, armed, n, count) && c.loader(w.h).Some? && Nests(s, armed, n, child, w.h, c.loader(w.h).value)
  }

  /** It asks for the loader. */
  lemma StartBoot(c: Setup, w: Scene, t: Trace, s: State, armed: map<nat, nat>, n: nat, count: nat)
      returns (t': Trace, s': State, child: nat)
    requires At(c, w, t, s, armed, n, count) && Ready(s, armed, n, w.h) && c.loader(w.h).Some?
    requires s.reqs[n].pc == Aicpu(0) && s.reqs[n].input == Kernel(w.x)
    ensures Nesting(c, w, t', s', armed, n, count, child)
    ensures s'.reqs[child].pc == Probing(0) && s'.reqs[child].failed == {}
  {
    child := s.next;
    StartBootStep(c, s, w.h, n);
    NewIsFree(c, w, s, armed, n, count);
    var s1 := SetPc(s, n, Booting(0, child));
    var q := LoaderReq(c, s.reqs[n]);
    s' := AddReq(s1, q);
    TurnedWorld(c, w, s, s1, armed, n, count, n, s.reqs[n].(pc := Booting(0, child)), n);
    TurnedWorld(c, w, s1, s', armed, n, count, child, q, n);
    t' := Go(c, w, t, s, Boot(n), s', armed, n, count);
  }

  /** A step of the loader request. */
  lemma NestedTurn(c: Setup, w: Scene, t: Trace, s: State, a: Action, s': State, armed: map<nat, nat>, n: nat, count: nat, child: nat, q: Req)
      returns (t': Trace)
    requires Nesting(c, w, t, s, armed, n, count, child)
    requires Step(c, s, a, s') && Turned(s, s', child, q) && SameReq(s.reqs[child], q) && q.first == 0
    ensures Nesting(c, w, t', s', armed, n, Count(s', w.h, 0), child) && s'.reqs[child] == q
  {
    t' := Turn(c, w, t, s, a, s', armed, n, count, child, q);
  }

  lemma LoaderIsNotThere(c: Setup, w: Scene, s: State, armed: map<nat, nat>, r: nat, count: nat, digest: bytes)
    requires World(c, w, s, armed, r, count)
    ensures !IsMarked(s, Slot(0, LOADER_TAG, digest))
  {
    TagsAreValid();
  }

  lemma ProbeLoader(c: Setup, w: Scene, t: Trace, s: State, armed: map<nat, nat>, n: nat, count: nat, child: nat)
      returns (t': Trace, s': State, j: nat)
    requires Nesting(c, w, t, s, armed, n, count, child) && count < 3 && s.reqs[child].pc == Probing(0)
    ensures Nesting(c, w, t', s', armed, n, count, child) && s'.reqs[child] == s.reqs[child].(pc := ProbeWait(0, j))
    ensures j in s'.jobs && s'.jobs[j] == Job(w.h, 0, Probe(SlotOf(c, s.reqs[child], 0)))
  {
    ProbeStep(c, s, w.h, child);
    j, s' := s.next, Lookup(c, s, child, 0);
    t' := NestedTurn(c, w, t, s, Advance(child), s', armed, n, count, child, s.reqs[child].(pc := ProbeWait(0, j)));
  }

  /** The loader is not in the cache. */
  lemma MissLoader(c: Setup, w: Scene, t: Trace, s: State, armed: map<nat, nat>, n: nat, count: nat, child: nat)
      returns (t': Trace, s': State)
    requires Nesting(c, w, t, s, armed, n, count, child) && count < 3 && s.reqs[child].pc == Probing(0) && s.reqs[child].failed == {}
    ensures Nesting(c, w, t', s', armed, n, count, child) && s'.reqs[child].pc == Probing(1) && s'.reqs[child].failed == {}
  {
    var t1, s1, j := ProbeLoader(c, w, t, s, armed, n, count, child);
    LoaderIsNotThere(c, w, s1, armed, n, count, c.key(s1.reqs[child].input));
    t', s' := Answer(c, w, t1, s1, armed, n, count, child, j, Miss);
  }

  lemma PlaceLoader(c: Setup, w: Scene, t: Trace, s: State, armed: map<nat, nat>, n: nat, count: nat, child: nat)
      returns (t': Trace, s': State, u: nat, j: nat)
    requires Nesting(c, w, t, s, armed, n, count, child) && count < 3 && s.reqs[child].pc == Placing(0) && s.reqs[child].failed == {}
    ensures Nesting(c, w, t', s', armed, n, count, child)
    ensures s'.reqs[child].pc == PlaceWait(0, u, j) && j in s'.jobs && s'.jobs[j].work == MakeTemp(u) && u != 0
  {
    PlaceStep(c, s, w.h, child);
    u, j := s.next, s.next + 1;
    s' := Place(s, child, 0);
    t' := NestedTurn(c, w, t, s, Advance(child), s', armed, n, count, child, s.reqs[child].(pc := PlaceWait(0, u, j)));
  }

  /** It makes a temporary directory. */
  lemma ChooseRoot(c: Setup, w: Scene, t: Trace, s: State, armed: map<nat, nat>, n: nat, count: nat, child: nat)
      returns (t': Trace, s': State, u: nat, j: nat)
    requires Nesting(c, w, t, s, armed, n, count, child) && count < 3 && s.reqs[child].pc == Probing(1) && s.reqs[child].failed == {}
    ensures Nesting(c, w, t', s', armed, n, count, child)
    ensures s'.reqs[child].pc == PlaceWait(0, u, j) && j in s'.jobs && s'.jobs[j].work == MakeTemp(u) && u != 0
  {
    ProbedStep(c, s, w.h, child);
    var s1 := Lookup(c, s, child, 1);
    var t1 := NestedTurn(c, w, t, s, Advance(child), s1, armed, n, count, child, s.reqs[child].(pc := Placing(0)));
    t', s', u, j := PlaceLoader(c, w, t1, s1, armed, n, count, child);
  }

  lemma MakeDirectory(c: Setup, w: Scene, t: Trace, s: State, armed: map<nat, nat>, n: nat, count: nat, child: nat, u: nat, j: nat)
      returns (t': Trace, s': State)
    requires Nesting(c, w, t, s, armed, n, count, child)
    requires s.reqs[child].pc == PlaceWait(0, u, j) && j in s.jobs && s.jobs[j].work == MakeTemp(u) && u != 0
    ensures Nesting(c, w, t', s', armed, n, count, child)
    ensures s'.reqs[child].pc == Building(0, u, c.plan(Loader(c.loader(w.h).value), u))
  {
    MakeStep(c, w, s, armed, n, count, j, u);
    var s1 := MakeTempStep(s, j, u);
    var t1 := Go(c, w, t, s, Action.Work(j, Proceed), s1, armed, n, count);
    AnswerStep(c, s1, w.h, child, j, Good);
    var q := AnsweredReq(c, s1.reqs[child], Good);
    s' := SetReq(s1, child, q);
    t' := NestedTurn(c, w, t1, s1, Advance(child), s', armed, n, count, child, q);
  }

  lemma BuildLoader(c: Setup, w: Scene, t: Trace, s: State, armed: map<nat, nat>, n: nat, count: nat, child: nat, u: nat)
      returns (t': Trace, s': State)
    requires Nesting(c, w, t, s, armed, n, count, child) && LoaderWrites(c, w.h)
    requires s.reqs[child].pc == Building(0, u, c.plan(Loader(c.loader(w.h).value), u))
    ensures Nesting(c, w, t', s', armed, n, count, child)
    ensures var pc := s'.reqs[child].pc; pc.StageWait? && pc.i == 0 && pc.kind == Io
  {
    var rest := c.plan(Loader(c.loader(w.h).value), u);
    BuildStep(c, s, w.h, child, u, rest);
    s' := Build(s, child, 0, u, rest);
    t' := NestedTurn(c, w, t, s, Advance(child), s', armed, n, count, child, s.reqs[child].(pc := StageWait(0, u, rest[1..], rest[0].kind, s.next)));
  }

  /** From a request for the loader to its first I/O task. */
  lemma ReachBuild(c: Setup, w: Scene, t: Trace, s: State, armed: map<nat, nat>, n: nat, count: nat, child: nat)
      returns (t': Trace, s': State)
    requires Nesting(c, w, t, s, armed, n, count, child) && LoaderWrites(c, w.h) && count < 3
    requires s.reqs[child].pc == Probing(0) && s.reqs[child].failed == {}
    ensures Nesting(c, w, t', s', armed, n, count, child)
    ensures var pc := s'.reqs[child].pc; pc.StageWait? && pc.i == 0 && pc.kind == Io
  {
    var t5, s5 := MissLoader(c, w, t, s, armed, n, count, child);
    var t6, s6, u, j := ChooseRoot(c, w, t5, s5, armed, n, count, child);
    var t7, s7 := MakeDirectory(c, w, t6, s6, armed, n, count, child, u, j);
    t', s' := BuildLoader(c, w, t7, s7, armed, n, count, child, u);
  }

  lemma JoinsApart(armed: map<nat, nat>, n: nat, child: nat)
    requires Apart(armed) && Free(armed, n) && Free(armed, child) && n != child
    ensures Apart(armed[n := child]) && |armed[n := child]| == |armed| + 1
  {
    var more := armed[n := child];
    forall p, p' | p in more && p' in more
      ensures p != p' ==> more[p] != more[p']
      ensures more[p] != p'
    {
      assert p != n ==> more[p] in armed.Values;
      assert p' != n ==> more[p'] in armed.Values;
    }
    assert more.Keys == armed.Keys + {n};
  }

  /** The request joins those that are armed. */
  lemma Joins(c: Setup, w: Scene, s: State, armed: map<nat, nat>, n: nat, count: nat, child: nat)
    requires World(c, w, s, armed, n, count) && c.loader(w.h).Some? && Nests(s, armed, n, child, w.h, c.loader(w.h).value)
    requires var pc := s.reqs[child].pc; pc.StageWait? && pc.i == 0 && pc.kind == Io
    ensures World(c, w, s, armed[n := child], child, count) && Over(s, child, w.h) && |armed[n := child]| == |armed| + 1
  {
    JoinsApart(armed, n, child);
    var more := armed[n := child];
    forall p | p in more
      ensures Armed(s, w.h, p, more[p])
    {
      assert p != n ==> Armed(s, w.h, p, armed[p]);
    }
  }

  /** One more request waits for a loader whose first I/O task is under way. */
  lemma ArmOne(c: Setup, w: Scene, t: Trace, s: State, armed: map<nat, nat>, r: nat)
      returns (t': Trace, s': State, armed': map<nat, nat>, r': nat)
    requires At(c, w, t, s, armed, r, 2) && Over(s, r, w.h) && AicpuEntry(c, w.x, w.img) && c.loader(w.h).Some? && LoaderWrites(c, w.h)
    ensures Track(c, w, t', s') && World(c, w, s', armed', r', 2) && Over(s', r', w.h) && |armed'| == |armed| + 1
  {
    var t3, s3, n := HitAicpu(c, w, t, s, armed, r, 2);
    var t4, s4, child := StartBoot(c, w, t3, s3, armed, n, 2);
    t', s' := ReachBuild(c, w, t4, s4, armed, n, 2, child);
    Joins(c, w, s', armed, n, 2, child);
    armed', r' := armed[n := child], child;
  }

  lemma {:induction false} ArmAll(c: Setup, w: Scene, t: Trace, s: State, armed: map<nat, nat>, r: nat)
      returns (t': Trace, s': State, armed': map<nat, nat>, r': nat)
    requires Track(c, w, t, s) && World(c, w, s, armed, r, 2) && |armed| <= w.k
    requires Over(s, r, w.h) && AicpuEntry(c, w.x, w.img) && c.loader(w.h).Some? && LoaderWrites(c, w.h)
    ensures Track(c, w, t', s') && World(c, w, s', armed', r', 2) && Over(s', r', w.h) && |armed'| == w.k
    decreases w.k - |armed|
  {
    t', s', armed', r' := t, s, armed, r;
    if |armed| < w.k {
      t', s', armed', r' := ArmOne(c, w, t, s, armed, r);
      t', s', armed', r' := ArmAll(c, w, t', s', armed', r');
    }
  }

  // ---- Their timeouts ----

  lemma LeavesApart(armed: map<nat, nat>, n: nat)
    requires Apart(armed) && n in armed
    ensures var rest := armed - {n}; Apart(rest) && Free(rest, n) && Free(rest, armed[n]) && |rest| + 1 == |armed|
  {
    var rest := armed - {n};
    assert armed.Keys == rest.Keys + {n};
    forall p | p in rest
      ensures rest[p] != armed[n] && rest[p] != n
    {
    }
  }

  /** An armed request leaves the others. */
  lemma Leaves(c: Setup, w: Scene, s: State, armed: map<nat, nat>, r: nat, count: nat, n: nat)
    requires World(c, w, s, armed, r, count) && Over(s, r, w.h) && n in armed
    ensures World(c, w, s, armed - {n}, n, count) && Armed(s, w.h, n, armed[n])
  {
    LeavesApart(armed, n);
    var rest := armed - {n};
    forall p | p in rest
      ensures Armed(s, w.h, p, rest[p])
    {
      assert Armed(s, w.h, p, armed[p]);
    }
  }

  /** The loader's I/O task times out, which is charged to the root. */
  lemma LoaderTimesOut(c: Setup, w: Scene, t: Trace, s: State, rest: map<nat, nat>, n: nat, count: nat, child: nat)
      returns (t': Trace, s': State)
    requires At(c, w, t, s, rest, n, count) && Free(rest, child) && Armed(s, w.h, n, child)
    ensures At(c, w, t', s', rest, n, count + 1) && Here(s', n, w.h) && s'.reqs[n] == s.reqs[n]
    ensures child in s'.reqs && s'.reqs[child].pc == Finished(Threw(true))
  {
    ExpireStep(c, s, w.h, child);
    var q := TimedOutReq(s.reqs[child]);
    s' := Charge(SetReq(s, child, q), w.h, 0);
    t' := Turn(c, w, t, s, Expire(child), s', rest, n, count, child, q);
  }

  /** The attempt that waits for it charges the root again. */
  lemma ChargedAgain(c: Setup, w: Scene, t: Trace, s: State, rest: map<nat, nat>, n: nat, count: nat, child: nat)
      returns (t': Trace, s': State)
    requires At(c, w, t, s, rest, n, count) && Free(rest, n) && Here(s, n, w.h) && s.reqs[n].pc == Booting(0, child)
    requires child in s.reqs && s.reqs[child].pc == Finished(Threw(true))
    ensures At(c, w, t', s', rest, n, count + 1) && Over(s', n, w.h)
  {
    BootFailedStep(c, s, w.h, n, child);
    s' := BootFailed(s, n, 0, true);
    t' := Turn(c, w, t, s, Advance(n), s', rest, n, count, n, Retried(s.reqs[n], 0, true));
  }

  lemma {:induction false} FireAll(c: Setup, w: Scene, t: Trace, s: State, armed: map<nat, nat>, r: nat, count: nat)
      returns (t': Trace, s': State)
    requires Track(c, w, t, s) && World(c, w, s, armed, r, count) && Over(s, r, w.h) && |armed| <= w.k
    ensures Track(c, w, t', s') && Count(s', w.h, 0) == count + 2 * |armed|
    decreases |armed|
  {
    t', s' := t, s;
    if armed != map[] {
      var n :| n in armed;
      Leaves(c, w, s, armed, r, count, n);
      LeavesApart(armed, n);
      t', s' := LoaderTimesOut(c, w, t, s, armed - {n}, n, count, armed[n]);
      t', s' := ChargedAgain(c, w, t', s', armed - {n}, n, count + 1, armed[n]);
      t', s' := FireAll(c, w, t', s', armed - {n}, n, count + 2);
    }
  }

  // ---- The exact bound ----

  function StartOf(c: Setup, w: Scene): State {
    State(map[KernelSlot(c, w.x) := 0], map[0 := w.img], {(KernelSlot(c, w.x), 0)}, 1, map[], map[], map[], {})
  }

  lemma StartIsInit(c: Setup, w: Scene)
    requires AicpuEntry(c, w.x, w.img) && c.binary != MARKER && w.k > 0
    ensures Init(c, StartOf(c, w)) && Over(StartOf(c, w), 0, w.h)
    ensures At(c, w, Trace([StartOf(c, w)], []), StartOf(c, w), map[], 0, 0)
  {
    assert Top(StartOf(c, w), w.h) == {};
  }

  /** The bound is reached: with a loader to build, k requests at a time can take a root's count to 2k + 2,
      to 4 for a single one. Two lookups time out; then k first AICPU loads, whose own I/O goes well, are
      each charged twice for one timeout of their builds of the loader. */
  lemma BoundIsReached(c: Setup, h: nat, k: nat) returns (t: Trace)
    requires CanBoot(c, h) && LoaderWrites(c, h) && c.binary != MARKER && k > 0
    ensures Run(c, t.run, t.acts) && AtMost(t.run, h, k) && Count(t.run[|t.acts|], h, 0) == 2 * k + 2
  {
    var x, img :| AicpuEntry(c, x, img);
    var w := Scene(x, img, h, k);
    StartIsInit(c, w);
    var s := StartOf(c, w);
    var t1, s1, r1 := TimeOutOnce(c, w, Trace([s], []), s, map[], 0, 0);
    var t2, s2, r2 := TimeOutOnce(c, w, t1, s1, map[], r1, 1);
    var t3, s3, armed, r3 := ArmAll(c, w, t2, s2, map[], r2);
    var s4;
    t, s4 := FireAll(c, w, t3, s3, armed, r3, 2);
  }

  /** Whatever happens, k requests at a time keep every root's count within `bound`. */
  ghost predicate StaysWithin(c: Setup, h: nat, k: nat, bound: nat) {
    forall t: Trace, n: nat, i: nat :: Run(c, t.run, t.acts) && AtMost(t.run, h, k) && n < |t.run| ==> Count(t.run[n], h, i) <= bound
  }

  /** Exactly a process that cannot come to build the AICPU loader keeps every count within k + 2: within 3
      with one request at a time. For any other one the bound is 2k + 2, and not less. */
  lemma ExactBound(c: Setup, h: nat, k: nat)
    requires LoaderWrites(c, h) && c.binary != MARKER && k > 0
    ensures StaysWithin(c, h, k, k + 2) <==> !CanBoot(c, h)
    ensures StaysWithin(c, h, k, 2 * k + 2)
    ensures CanBoot(c, h) ==> !StaysWithin(c, h, k, 2 * k + 1)
  {
    if CanBoot(c, h) {
      var t := BoundIsReached(c, h, k);
      assert |t.acts| < |t.run|;
    }
    forall t: Trace, n: nat, i: nat | Run(c, t.run, t.acts) && AtMost(t.run, h, k) && n < |t.run|
      ensures Count(t.run[n], h, i) <= 2 * k + 2
      ensures !CanBoot(c, h) ==> Count(t.run[n], h, i) <= k + 2
    {
      QuarantineBound(c, t.run, t.acts, k, h, i, n);
      if !CanBoot(c, h) {
        WithoutLoader(c, t.run, t.acts, h, k, i, n);
      }
    }
  }
}
