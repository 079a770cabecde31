/** The disk cache as a protocol: any number of hosts (processes with their cache objects) run compile
    requests against shared cache roots. Requests start I/O tasks and compiler commands ("jobs"), may
    time out while a job runs on, and may be killed at any step; one machine or all of them may crash. One
    step of the protocol is one file operation or one decision of a request. The first load of an AICPU
    kernel builds the AICPU loader by a request of its own on the same cache.
    (include/deep_jit/cache/disk.hpp, include/deep_jit/runtime/runtime.hpp,
    include/deep_jit/backend/ascend/backend.hpp, include/deep_jit/backend/ascend/aicpu/bootstrap.hpp) */
module Publication {
  import opened Bytes
  import opened ArtifactImage
  import opened CacheKey
  import opened EntryRules

  type Root = nat

  /** A temporary directory `<root>/tmp/<uuid>`, or the entry `<root>/cache/<tag>.<digest>`. An entry is
      named by the pair: EntryNameInjective shows that the name determines it. */
  datatype Path =
    | Tmp(root: Root, uuid: nat)
    | Slot(root: Root, tag: bytes, digest: bytes)

  datatype Kind = Io | Command

  /** One unit of a compile: an I/O task or a compiler command with the file operations it performs. */
  datatype Stage = Stage(kind: Kind, ops: seq<Op>)

  /** The compiler: the stages for a subject in the temporary directory `uuid`, and its key; the file that
      loading reads, the one that tells an AICPU kernel, and the loader's library; and what each process
      builds as the AICPU loader, if its backend has any. */
  datatype Setup = Setup(plan: (Subject, nat) -> seq<Stage>, key: Subject -> bytes, binary: Rel,
                         aicpu: Rel, library: Rel, loader: nat -> Option<LoaderInput>)

  /** `loader_cache_tag`. */
  const LOADER_TAG: bytes := [0x61, 0x69, 0x63, 0x70, 0x75, 0x5f, 0x62, 0x6f, 0x6f, 0x74, 0x73, 0x74, 0x72, 0x61, 0x70]

  function AllOps(stages: seq<Stage>): seq<Op> {
    if stages == [] then [] else stages[0].ops + AllOps(stages[1..])
  }

  /** The complete file set that building x in temporary directory u gives. */
  function Artifact(c: Setup, x: Subject, u: nat): Option<map<Rel, Node>> {
    Outcome(map[], AllOps(c.plan(x, u)))
  }

  // ---- Cache entry names ----

  predicate TagChar(b: byte) {
    0x61 <= b <= 0x7a || 0x41 <= b <= 0x5a || 0x30 <= b <= 0x39 || b == 0x5f
  }

  predicate ValidTag(tag: bytes) { tag != [] && forall b :: b in tag ==> TagChar(b) }

  function EntryName(tag: bytes, digest: bytes): bytes { tag + [0x2e] + digest }

  lemma {:induction false} EntryNameInjective(tag: bytes, digest: bytes, tag': bytes, digest': bytes)
    requires ValidTag(tag) && ValidTag(tag') && EntryName(tag, digest) == EntryName(tag', digest')
    ensures tag == tag' && digest == digest'
  {
    var name := EntryName(tag, digest);
    assert forall k :: 0 <= k < |tag| ==> name[k] == tag[k] && TagChar(name[k]);
    assert forall k :: 0 <= k < |tag'| ==> name[k] == tag'[k] && TagChar(name[k]);
    assert name[|tag|] == 0x2e && name[|tag'|] == 0x2e;
    assert tag == name[..|tag|] && tag' == name[..|tag'|];
    assert digest == name[|tag| + 1..] && digest' == name[|tag'| + 1..];
  }

  // ---- State ----

  datatype Phase = WriteMarker | SyncMarker | SyncTree(todo: set<Rel>) | Rename | CleanUp

  datatype Work =
    | Probe(slot: Path)
    | MakeTemp(u: nat)
    | Perform(u: nat, kind: Kind, ops: seq<Op>)
    | Commit(u: nat, tag: bytes, input: Subject, phase: Phase)
    | Remove(u: nat)
    | Check(slot: Path, file: Rel)
    | Load(slot: Path)
    | Done(result: Result)

  datatype Result = Good | Hit | Miss | Failed | Read(data: bytes)

  datatype Job = Job(host: nat, root: Root, work: Work)

  /** `timedOut`: the error is an I/O timeout. */
  datatype Answer = Returned(i: nat, loaded: Option<bytes>) | Threw(timedOut: bool)

  datatype Pc =
    | Probing(i: nat)
    | ProbeWait(i: nat, job: nat)
    | Placing(i: nat)
    | PlaceWait(i: nat, u: nat, job: nat)
    | Building(i: nat, u: nat, rest: seq<Stage>)
    | StageWait(i: nat, u: nat, rest: seq<Stage>, kind: Kind, job: nat)
    | CommitWait(i: nat, u: nat, job: nat)
    | Loading(i: nat)
    | CheckWait(i: nat, job: nat)
    | Aicpu(i: nat)
    | Booting(i: nat, child: nat)
    | Opening(i: nat)
    | LoadWait(i: nat, job: nat)
    | Dropping(i: nat, u: nat)
    | DropWait(i: nat, u: nat, job: nat)
    | Finished(answer: Answer)

  /** `first` and `failed` are the locals of the retry loop and of one `entry` call; `looks` and `places`
      record what that call did. A request for the AICPU loader is one that another request waits for. */
  datatype Req = Req(host: nat, roots: seq<Root>, tag: bytes, input: Subject, load: bool, first: nat,
                     failed: set<nat>, looks: seq<Look>, places: seq<Placement>, pc: Pc)

  datatype State = State(
    names: map<Path, nat>,        // what each path shows
    images: map<nat, Image>,      // the directories
    bound: set<(Path, nat)>,      // every binding there ever was
    next: nat,                    // fresh names
    jobs: map<nat, Job>,
    reqs: map<nat, Req>,
    counts: map<(nat, nat), nat>, // I/O timeouts per host and root index
    booted: set<nat>)             // the hosts that have an AICPU bootstrap

  function SlotOf(c: Setup, q: Req, i: nat): Path
    requires i < |q.roots|
  {
    Slot(q.roots[i], q.tag, c.key(q.input))
  }

  function Count(s: State, h: nat, i: nat): nat { if (h, i) in s.counts then s.counts[(h, i)] else 0 }

  predicate IsMarked(s: State, p: Path) {
    p in s.names && s.names[p] in s.images && s.images[s.names[p]].Marked()
  }

  /** The directory, if any, that a job may still change. */
  function Touches(w: Work): Option<nat> {
    match w
    case MakeTemp(u) => Some(u)
    case Perform(u, _, _) => Some(u)
    case Commit(u, _, _, _) => Some(u)
    case Remove(u) => Some(u)
    case _ => None
  }

  // ---- Steps of a job ----

  /** Which file operation of a job is next, where the order is not fixed; or that it fails. */
  datatype Choice = Proceed | Visit(target: Rel) | GiveUp

  function Put1(s: State, p: Path, u: nat): State {
    s.(names := s.names[p := u], bound := s.bound + {(p, u)})
  }

  function SetWork(s: State, j: nat, w: Work): State
    requires j in s.jobs
  {
    s.(jobs := s.jobs[j := s.jobs[j].(work := w)])
  }

  function SetImage(s: State, u: nat, img: Image): State {
    s.(images := s.images[u := img])
  }

  /** The temporary directory that a job writes to, by its path. */
  predicate TmpBound(s: State, root: Root, u: nat) {
    Tmp(root, u) in s.names && s.names[Tmp(root, u)] in s.images
  }

  /** The file contents that loading an entry reads. */
  function Loaded(c: Setup, s: State, slot: Path): Option<bytes> {
    if slot in s.names && s.names[slot] in s.images then
      var nodes := s.images[s.names[slot]].nodes;
      if c.binary in nodes && nodes[c.binary].File? then Some(nodes[c.binary].data) else None
    else None
  }

  predicate HasFile(s: State, slot: Path, file: Rel) {
    slot in s.names && s.names[slot] in s.images &&
    var nodes := s.images[s.names[slot]].nodes; file in nodes && nodes[file].File?
  }

  function MakeTempStep(s: State, j: nat, u: nat): State
    requires j in s.jobs
  {
    SetWork(SetImage(Put1(s, Tmp(s.jobs[j].root, u), u), u, EMPTY), j, Done(Good))
  }

  /** One file operation of a compile stage. */
  function PerformStep(s: State, j: nat, u: nat, kind: Kind, ops: seq<Op>): State
    requires j in s.jobs && TmpBound(s, s.jobs[j].root, u)
  {
    var d := s.names[Tmp(s.jobs[j].root, u)];
    if ops == [] then SetWork(s, j, Done(Good))
    else if Fits(s.images[d], ops[0]) then
      SetWork(SetImage(s, d, ArtifactImage.Perform(s.images[d], ops[0])), j, Perform(u, kind, ops[1..]))
    else SetWork(s, j, Done(Failed))
  }

  /** Unlinking one node; a folder goes only when nothing is below it. */
  function Removed(img: Image, n: Rel): Image {
    if n in img.nodes && forall m :: m in img.nodes ==> !StrictlyBelow(m, n) then
      img.(nodes := img.nodes - {n}, synced := img.synced - {n}, linked := img.linked - {n}, ghosts := img.ghosts + {n})
    else img
  }

  /** One step of `safe_remove_all` on the temporary directory u: one node, or the emptied directory.
      It is best effort: it may stop anywhere, and reports nothing. */
  function RemoveStep(s: State, j: nat, u: nat, choice: Choice): State
    requires j in s.jobs
  {
    var root := s.jobs[j].root;
    if choice.Visit? && TmpBound(s, root, u) then
      var d := s.names[Tmp(root, u)];
      if choice.target == [] && s.images[d].nodes == map[] then
        SetWork(s.(names := s.names - {Tmp(root, u)}), j, Done(Good))
      else SetImage(s, d, Removed(s.images[d], choice.target))
    else SetWork(s, j, Done(Good))
  }

  /** `rename` of the temporary directory to the entry: it replaces an absent or empty target; a
      non-empty target is somebody else's complete entry, or an error. */
  function RenameStep(c: Setup, s: State, j: nat, u: nat, tag: bytes, x: Subject): State
    requires j in s.jobs && TmpBound(s, s.jobs[j].root, u)
  {
    var root := s.jobs[j].root;
    var slot := Slot(root, tag, c.key(x));
    if slot !in s.names || (s.names[slot] in s.images && s.images[s.names[slot]].nodes == map[]) then
      SetWork(Put1(s.(names := s.names - {Tmp(root, u)}), slot, s.names[Tmp(root, u)]), j, Done(Good))
    else if IsMarked(s, slot) then SetWork(s, j, Commit(u, tag, x, CleanUp))
    else SetWork(s, j, Done(Failed))
  }

  /** The steps of `commit` before the rename: write the marker, sync it, then sync the tree bottom-up. */
  function PrepareStep(s: State, j: nat, u: nat, tag: bytes, x: Subject, phase: Phase, choice: Choice): Option<State>
    requires j in s.jobs && TmpBound(s, s.jobs[j].root, u)
  {
    var d := s.names[Tmp(s.jobs[j].root, u)];
    var img := s.images[d];
    match phase
    case WriteMarker =>
      if Fits(img, Put(MARKER, [])) then
        Some(SetWork(SetImage(s, d, ArtifactImage.Perform(img, Put(MARKER, []))), j, Commit(u, tag, x, SyncMarker)))
      else Some(SetWork(s, j, Done(Failed)))
    case SyncMarker =>
      Some(SetWork(SetImage(s, d, img.Synced(MARKER)), j, Commit(u, tag, x, SyncTree(img.SyncTargets()))))
    case SyncTree(todo) =>
      if todo == {} then Some(SetWork(s, j, Commit(u, tag, x, Rename)))
      else if choice.Visit? && choice.target in todo &&
              (img.IsFolder(choice.target) ==> forall t :: t in todo ==> !StrictlyBelow(t, choice.target)) then
        Some(SetWork(SetImage(s, d, img.Synced(choice.target)), j, Commit(u, tag, x, SyncTree(todo - {choice.target}))))
      else None
    case _ => None
  }

  function CommitStep(c: Setup, s: State, j: nat, u: nat, tag: bytes, x: Subject, phase: Phase, choice: Choice): Option<State>
    requires j in s.jobs
  {
    if phase.CleanUp? then Some(RemoveStep(s, j, u, choice))
    else if choice.GiveUp? || !TmpBound(s, s.jobs[j].root, u) then Some(SetWork(s, j, Done(Failed)))
    else if phase.Rename? then Some(RenameStep(c, s, j, u, tag, x))
    else PrepareStep(s, j, u, tag, x, phase, choice)
  }

  /** One step of a running job. Any I/O may fail (GiveUp); the clean-up after a lost race cannot. */
  function JobStep(c: Setup, s: State, j: nat, choice: Choice): Option<State>
    requires j in s.jobs
  {
    match s.jobs[j].work
    case Done(_) => None
    case Probe(slot) =>
      Some(SetWork(s, j, Done(if choice.GiveUp? then Failed else if IsMarked(s, slot) then Result.Hit else Miss)))
    case Load(slot) =>
      var data := Loaded(c, s, slot);
      Some(SetWork(s, j, Done(if choice.GiveUp? || data == None then Failed else Read(data.value))))
    case Check(slot, file) =>
      Some(SetWork(s, j, Done(if choice.GiveUp? then Failed else if HasFile(s, slot, file) then Good else Miss)))
    case MakeTemp(u) =>
      Some(if choice.GiveUp? then SetWork(s, j, Done(Failed)) else MakeTempStep(s, j, u))
    case Perform(u, kind, ops) =>
      Some(if choice.GiveUp? || !TmpBound(s, s.jobs[j].root, u) then SetWork(s, j, Done(Failed))
           else PerformStep(s, j, u, kind, ops))
    case Remove(u) => Some(RemoveStep(s, j, u, choice))
    case Commit(u, tag, x, phase) => CommitStep(c, s, j, u, tag, x, phase, choice)
  }

  // ---- Steps of a request ----

  function SetReq(s: State, r: nat, q: Req): State {
    s.(reqs := s.reqs[r := q])
  }

  function SetPc(s: State, r: nat, pc: Pc): State
    requires r in s.reqs
  {
    SetReq(s, r, s.reqs[r].(pc := pc))
  }

  function StartJob(s: State, host: nat, root: Root, w: Work): State {
    s.(jobs := s.jobs[s.next := Job(host, root, w)], next := s.next + 1)
  }

  function Charge(s: State, h: nat, i: nat): State {
    s.(counts := s.counts[(h, i) := Count(s, h, i) + 1])
  }

  /** After the first loop did `look` about root i. */
  function Looked(q: Req, i: nat, look: Look): Req {
    q.(looks := q.looks + [look], failed := if look.LookFailed? then q.failed + {i} else q.failed,
       pc := if look == Found then Loading(i) else Probing(i + 1))
  }

  /** After the second loop did `place` about a root. */
  function Placed(q: Req, place: Placement, pc: Pc): Req {
    q.(places := q.places + [place], pc := pc)
  }

  /** The end of a failed attempt at root i: the next attempt, or the error. */
  function Retried(q: Req, i: nat, timedOut: bool): Req {
    if i + 1 >= |q.roots| then q.(pc := Finished(Threw(timedOut)))
    else q.(first := i + 1, failed := {}, looks := [], places := [], pc := Probing(i + 1))
  }

  function NextAttempt(s: State, r: nat, i: nat, timedOut: bool): State
    requires r in s.reqs
  {
    SetReq(s, r, Retried(s.reqs[r], i, timedOut))
  }

  /** `entry`, first loop: look up root i unless it is quarantined. */
  function Lookup(c: Setup, s: State, r: nat, i: nat): State
    requires r in s.reqs
  {
    var q := s.reqs[r];
    if i >= |q.roots| then SetPc(s, r, Placing(q.first))
    else if Count(s, q.host, i) >= 3 then SetReq(s, r, Looked(q, i, Skipped))
    else SetPc(StartJob(s, q.host, q.roots[i], Probe(SlotOf(c, q, i))), r, ProbeWait(i, s.next))
  }

  function LookOf(result: Result): Look {
    if result == Result.Hit then Found else if result == Miss then Missed else LookFailed(false)
  }

  /** `entry`, second loop: make a temporary directory on root i unless it is quarantined or its lookup failed. */
  function Place(s: State, r: nat, i: nat): State
    requires r in s.reqs
  {
    var q := s.reqs[r];
    if i >= |q.roots| then SetPc(s, r, Finished(Threw(false)))
    else if Count(s, q.host, i) >= 3 || i in q.failed then SetReq(s, r, Placed(q, Passed, Placing(i + 1)))
    else
      var u := s.next;
      SetPc(StartJob(s.(next := u + 1), q.host, q.roots[i], MakeTemp(u)), r, PlaceWait(i, u, u + 1))
  }

  /** The next compile stage, or the commit after the last one. */
  function Build(s: State, r: nat, i: nat, u: nat, rest: seq<Stage>): State
    requires r in s.reqs && i < |s.reqs[r].roots|
  {
    var q := s.reqs[r];
    if rest == [] then
      SetPc(StartJob(s, q.host, q.roots[i], Commit(u, q.tag, q.input, WriteMarker)), r, CommitWait(i, u, s.next))
    else
      SetPc(StartJob(s, q.host, q.roots[i], Perform(u, rest[0].kind, rest[0].ops)), r,
            StageWait(i, u, rest[1..], rest[0].kind, s.next))
  }

  /** With an entry at hand: return its path, check a file of it, or load it. A hit for the loader must have
      its library, and a backend with a loader asks first whether a kernel is for the AICPU. */
  function StartLoad(c: Setup, s: State, r: nat, i: nat): State
    requires r in s.reqs && i < |s.reqs[r].roots|
  {
    var q := s.reqs[r];
    if q.input.Kernel? && !q.load then SetPc(s, r, Finished(Returned(i, None)))
    else if q.input.Kernel? && c.loader(q.host) == None then Open(c, s, r, i)
    else
      SetPc(StartJob(s, q.host, q.roots[i], Check(SlotOf(c, q, i), FileFor(c, q))), r, CheckWait(i, s.next))
  }

  /** The file that an entry at hand is checked for. */
  function FileFor(c: Setup, q: Req): Rel { if q.input.Loader? then c.library else c.aicpu }

  function Open(c: Setup, s: State, r: nat, i: nat): State
    requires r in s.reqs && i < |s.reqs[r].roots|
  {
    var q := s.reqs[r];
    SetPc(StartJob(s, q.host, q.roots[i], Load(SlotOf(c, q, i))), r, LoadWait(i, s.next))
  }

  /** The destructor of an entry that was not published and is not abandoned. */
  function Drop(s: State, r: nat, i: nat, u: nat): State
    requires r in s.reqs && i < |s.reqs[r].roots|
  {
    var q := s.reqs[r];
    SetPc(StartJob(s, q.host, q.roots[i], Remove(u)), r, DropWait(i, u, s.next))
  }

  /** A loader's library, or an AICPU kernel, was looked for. */
  function Checked(q: Req, i: nat, result: Result): Req {
    if q.input.Loader? && result == Good then q.(pc := Finished(Returned(i, None)))
    else if q.input.Loader? || result == Failed then Retried(q, i, false)
    else q.(pc := if result == Good then Aicpu(i) else Opening(i))
  }

  /** What a request does with the result of the job it waited for. */
  function AnsweredReq(c: Setup, q: Req, result: Result): Req {
    match q.pc
    case ProbeWait(i, _) => Looked(q, i, LookOf(result))
    case PlaceWait(i, u, _) =>
      if result == Good then Placed(q, Made, Building(i, u, c.plan(q.input, u))) else Placed(q, PlaceFailed(false), Placing(i + 1))
    case StageWait(i, u, rest, _, _) => q.(pc := if result == Good then Building(i, u, rest) else Dropping(i, u))
    case CommitWait(i, u, _) =>
      q.(pc := if result != Good then Dropping(i, u) else if q.input.Loader? then Finished(Returned(i, None)) else Loading(i))
    case CheckWait(i, _) => Checked(q, i, result)
    case LoadWait(i, _) => if result.Read? then q.(pc := Finished(Returned(i, Some(result.data)))) else Retried(q, i, false)
    case DropWait(i, u, _) => Retried(q, i, false)
    case _ => q
  }

  function Awaited(pc: Pc): Option<nat> {
    match pc
    case ProbeWait(_, j) => Some(j)
    case PlaceWait(_, _, j) => Some(j)
    case StageWait(_, _, _, _, j) => Some(j)
    case CommitWait(_, _, j) => Some(j)
    case CheckWait(_, j) => Some(j)
    case LoadWait(_, j) => Some(j)
    case DropWait(_, _, j) => Some(j)
    case _ => None
  }

  /** The loader's build failed: its error ends the attempt that needed it, and an I/O timeout among them is
      charged to the root of that attempt. */
  function BootFailed(s: State, r: nat, i: nat, timedOut: bool): State
    requires r in s.reqs
  {
    var s' := NextAttempt(s, r, i, timedOut);
    if timedOut then Charge(s', s.reqs[r].host, i) else s'
  }

  predicate ChildThrew(s: State, child: nat) {
    child in s.reqs && s.reqs[child].pc.Finished? && s.reqs[child].pc.answer.Threw?
  }

  predicate ChildReturned(s: State, child: nat) {
    child in s.reqs && s.reqs[child].pc.Finished? && s.reqs[child].pc.answer.Returned?
  }

  /** A step of a request that waits for no job, outside `entry`. */
  function OwnStep(c: Setup, s: State, r: nat): Option<State>
    requires r in s.reqs && !s.reqs[r].pc.Finished? && s.reqs[r].pc.i < |s.reqs[r].roots|
  {
    var q := s.reqs[r];
    match q.pc
    case Building(i, u, rest) => Some(Build(s, r, i, u, rest))
    case Loading(i) => Some(StartLoad(c, s, r, i))
    case Aicpu(i) => if q.host in s.booted then Some(SetPc(s, r, Opening(i))) else None
    case Booting(i, child) => if ChildThrew(s, child) then Some(BootFailed(s, r, i, s.reqs[child].pc.answer.timedOut)) else None
    case Opening(i) => Some(Open(c, s, r, i))
    case Dropping(i, u) => Some(Drop(s, r, i, u))
    case _ => None
  }

  /** A request's own next step, when it does not time out. */
  function ReqStep(c: Setup, s: State, r: nat): Option<State>
    requires r in s.reqs
  {
    var pc := s.reqs[r].pc;
    if pc.Finished? then None
    else if Awaited(pc).Some? then
      var j := Awaited(pc).value;
      if j in s.jobs && s.jobs[j].work.Done? then Some(SetReq(s, r, AnsweredReq(c, s.reqs[r], s.jobs[j].work.result))) else None
    else if pc.Probing? then Some(Lookup(c, s, r, pc.i))
    else if pc.Placing? then Some(Place(s, r, pc.i))
    else if pc.i >= |s.reqs[r].roots| then None
    else OwnStep(c, s, r)
  }

  /** What a timeout makes of a request. The directory of a timed-out build or commit is left alone. */
  function TimedOutReq(q: Req): Req
    requires Awaited(q.pc).Some?
  {
    match q.pc
    case ProbeWait(i, _) => Looked(q, i, LookFailed(true))
    case PlaceWait(i, _, _) => Placed(q, PlaceFailed(true), Placing(i + 1))
    case StageWait(i, _, _, kind, _) => Retried(q, i, kind == Io)
    case CommitWait(i, _, _) => Retried(q, i, true)
    case CheckWait(i, _) => Retried(q, i, true)
    case LoadWait(i, _) => Retried(q, i, true)
    case DropWait(i, _, _) => Retried(q, i, false)
  }

  /** The waits whose timeout is an I/O error of the request's root: not a compiler command's, and not the
      one for the removal of its directory, whose outcome nobody looks at. */
  predicate ChargesRoot(pc: Pc) { !pc.DropWait? && !(pc.StageWait? && pc.kind == Command) }

  /** The request stops waiting, whatever its job does. */
  function TimeoutStep(s: State, r: nat): Option<State>
    requires r in s.reqs
  {
    var q := s.reqs[r];
    if Awaited(q.pc) == None then None
    else
      var s' := SetReq(s, r, TimedOutReq(q));
      Some(if ChargesRoot(q.pc) then Charge(s', q.host, q.pc.i) else s')
  }

  function NewReq(host: nat, roots: seq<Root>, tag: bytes, x: Subject, load: bool): Req {
    Req(host, roots, tag, x, load, 0, {}, [], [], if ValidTag(tag) then Probing(0) else Finished(Threw(false)))
  }

  function AddReq(s: State, q: Req): State {
    s.(reqs := s.reqs[s.next := q], next := s.next + 1)
  }

  /** The request for the AICPU loader that request q makes. */
  function LoaderReq(c: Setup, q: Req): Req
    requires c.loader(q.host).Some?
  {
    NewReq(q.host, q.roots, LOADER_TAG, Loader(c.loader(q.host).value), false)
  }

  /** The first AICPU load of a process builds the loader, by a request on the same roots. Threads do not wait
      for each other here: each that finds no bootstrap builds one. */
  function BootStep(c: Setup, s: State, r: nat): Option<State>
    requires r in s.reqs
  {
    var q := s.reqs[r];
    if q.pc.Aicpu? && q.host !in s.booted && c.loader(q.host).Some? then
      Some(AddReq(SetPc(s, r, Booting(q.pc.i, s.next)), LoaderReq(c, q)))
    else None
  }

  /** With the library built, the bootstrap is deployed to the device, or that fails; it may also fail before
      anything is built. */
  function DeployStep(s: State, r: nat, ok: bool): Option<State>
    requires r in s.reqs
  {
    var q := s.reqs[r];
    if q.pc.Booting? && ChildReturned(s, q.pc.child) then
      Some(if ok then SetPc(s.(booted := s.booted + {q.host}), r, Opening(q.pc.i)) else NextAttempt(s, r, q.pc.i, false))
    else if q.pc.Aicpu? && q.host !in s.booted && !ok then Some(NextAttempt(s, r, q.pc.i, false))
    else None
  }

  // ---- All steps ----

  datatype Action =
    | Submit(host: nat, roots: seq<Root>, tag: bytes, input: Input, load: bool)
    | Advance(r: nat)
    | Expire(r: nat)
    | Boot(r: nat)
    | Deploy(r: nat, ok: bool)
    | Work(j: nat, choice: Choice)
    | Kill(host: nat)
    | Reboot(hosts: set<nat>, images: map<nat, Image>)
    | Crash(names: map<Path, nat>, images: map<nat, Image>)

  /** A process dies with its requests and I/O tasks. Compiler commands it started may live on. */
  function Killed(s: State, h: nat): State {
    s.(reqs := map r | r in s.reqs && s.reqs[r].host != h :: s.reqs[r],
       jobs := map j | j in s.jobs && (s.jobs[j].host != h || (s.jobs[j].work.Perform? && s.jobs[j].work.kind == Command)) :: s.jobs[j])
  }

  /** One machine crashes with all its processes and commands, while others go on. */
  function Rebooted(s: State, hosts: set<nat>, images: map<nat, Image>): State {
    s.(reqs := map r | r in s.reqs && s.reqs[r].host !in hosts :: s.reqs[r],
       jobs := map j | j in s.jobs && s.jobs[j].host !in hosts :: s.jobs[j],
       images := images)
  }

  /** The directory that a request has in hand. */
  function Held(pc: Pc): Option<nat> {
    match pc
    case PlaceWait(_, u, _) => Some(u)
    case Building(_, u, _) => Some(u)
    case StageWait(_, u, _, _, _) => Some(u)
    case CommitWait(_, u, _) => Some(u)
    case Dropping(_, u) => Some(u)
    case DropWait(_, u, _) => Some(u)
    case _ => None
  }

  /** A request or a job of another machine has directory u in hand. */
  ghost predicate InUse(s: State, hosts: set<nat>, u: nat) {
    || (exists r :: r in s.reqs && s.reqs[r].host !in hosts && Held(s.reqs[r].pc) == Some(u))
    || (exists j :: j in s.jobs && s.jobs[j].host !in hosts && Touches(s.jobs[j].work) == Some(u))
  }

  /** What the crash of one machine leaves: what is not durable may be lost, in any directory that no other
      machine has in hand. */
  ghost predicate RebootLeaves(s: State, hosts: set<nat>, images: map<nat, Image>) {
    && images.Keys == s.images.Keys
    && forall u :: u in images ==> images[u] == s.images[u] || (!InUse(s, hosts, u) && Survives(s.images[u], images[u]))
  }

  /** A crash of all machines ends every process and command. Each binding there ever was may be there again
      or not, since directories above an entry are never synced. */
  ghost predicate CrashLeaves(s: State, names: map<Path, nat>, images: map<nat, Image>) {
    && (forall p :: p in names ==> (p, names[p]) in s.bound && names[p] in images)
    && images.Keys == s.images.Keys
    && forall u :: u in images ==> Survives(s.images[u], images[u])
  }

  ghost function Apply(c: Setup, s: State, a: Action): Option<State> {
    match a
    case Submit(h, roots, tag, x, load) =>
      if roots == [] then None else Some(AddReq(s, NewReq(h, roots, tag, Kernel(x), load)))
    case Advance(r) => if r in s.reqs then ReqStep(c, s, r) else None
    case Expire(r) => if r in s.reqs then TimeoutStep(s, r) else None
    case Boot(r) => if r in s.reqs then BootStep(c, s, r) else None
    case Deploy(r, ok) => if r in s.reqs then DeployStep(s, r, ok) else None
    case Work(j, choice) => if j in s.jobs then JobStep(c, s, j, choice) else None
    case Kill(h) => Some(Killed(s, h))
    case Reboot(hosts, images) => if RebootLeaves(s, hosts, images) then Some(Rebooted(s, hosts, images)) else None
    case Crash(names, images) =>
      if CrashLeaves(s, names, images) then Some(State(names, images, s.bound, s.next, map[], map[], map[], {})) else None
  }
}
