/** The order in which the requests of the disk-cache protocol go through the roots: each follows the rules of
    `entry` and of the retry loop, under any interleaving. */
module FallbackOrder {
  import opened Bytes
  import opened CacheKey
  import opened EntryRules
  import opened Publication
  import opened PublicationSafety
  import opened PublicationRuns
  import opened PublicationOwnership

  /** The root that a request works on. */
  function Index(pc: Pc): Option<nat> {
    match pc
    case Finished(Returned(i, _)) => Some(i)
    case Finished(Threw(_)) => None
    case _ => Some(pc.i)
  }

  /** The request has a directory on this root, or just had one. */
  predicate Writes(pc: Pc) {
    pc.Building? || pc.StageWait? || pc.CommitWait? || pc.Dropping? || pc.DropWait?
  }

  /** The roots whose lookup failed are those that the record shows. */
  ghost predicate FailedAre(q: Req) {
    forall n: nat :: n in q.failed <==> q.first <= n < q.first + |q.looks| && q.looks[n - q.first].LookFailed?
  }

  /** The first loop of `entry` has come to root i. */
  ghost predicate LookingAt(q: Req, i: nat) {
    q.first <= i <= |q.roots| && |q.looks| == i - q.first && NoHit(q.looks) && q.places == [] && FailedAre(q)
  }

  /** The second loop of `entry` has come to root i. */
  ghost predicate PlacingAt(q: Req, i: nat) {
    && q.first <= i <= |q.roots| && |q.looks| == |q.roots| - q.first && NoHit(q.looks) && FailedAre(q)
    && |q.places| == i - q.first && Made !in q.places && FailedNotWritten(q.looks, q.places)
  }

  /** `entry` gave r, and by its rules had to. */
  ghost predicate Gave(q: Req, r: EntryResult) { EntryOk(|q.roots|, q.first, q.looks, q.places, r) }

  ghost predicate GaveRoot(q: Req, i: nat) { Gave(q, EntryResult.Hit(i)) || Gave(q, Fresh(i)) }

  /** The record of a request is one that `entry` must produce: it works on the least root with a marker
      before anything is written, or else on a fresh directory on the least root that takes one; and it gives
      up only when `entry` finds no root, or the attempt on the last root has failed. */
  ghost predicate OrderOk(q: Req) {
    match q.pc
    case Probing(i) => LookingAt(q, i)
    case ProbeWait(i, _) => LookingAt(q, i) && i < |q.roots|
    case Placing(i) => PlacingAt(q, i)
    case PlaceWait(i, _, _) => PlacingAt(q, i) && i < |q.roots| && i !in q.failed
    case Finished(Returned(i, _)) => GaveRoot(q, i)
    case Finished(Threw(_)) => !ValidTag(q.tag) || Gave(q, AllFailed) || (|q.roots| > 0 && GaveRoot(q, |q.roots| - 1))
    case _ => if Writes(q.pc) then Gave(q, Fresh(q.pc.i)) else GaveRoot(q, q.pc.i)
  }

  /** The same attempt goes on, or it failed and the next one starts right behind its root. */
  ghost predicate Onward(q: Req, q': Req) {
    && q'.roots == q.roots && q'.input == q.input && q'.tag == q.tag
    && ((q'.first == q.first && q.looks <= q'.looks && q.places <= q'.places) ||
        (Index(q.pc).Some? && q'.first == Index(q.pc).value + 1 <= |q.roots| && q'.failed == {} && q'.pc == Probing(q'.first)))
  }

  ghost predicate Turn(q: Req, q': Req) { OrderOk(q') && Onward(q, q') }

  // ---- What one request does ----

  lemma LookedTurn(q: Req, i: nat, look: Look)
    requires LookingAt(q, i) && i < |q.roots| && (q.pc.Probing? || q.pc.ProbeWait?) && q.pc.i == i
    ensures Turn(q, Looked(q, i, look))
  {
    if look == Found {
      FoundFirst(|q.roots|, q.first, q.looks);
    }
  }

  lemma PassedTurn(q: Req, i: nat, place: Placement)
    requires PlacingAt(q, i) && i < |q.roots| && (q.pc.Placing? || q.pc.PlaceWait?) && q.pc.i == i
    requires place != Made && (i in q.failed ==> place == Passed)
    ensures Turn(q, Placed(q, place, Placing(i + 1)))
  {
  }

  lemma MadeTurn(q: Req, i: nat, pc: Pc)
    requires PlacingAt(q, i) && i < |q.roots| && i !in q.failed && q.pc.PlaceWait? && q.pc.i == i
    requires pc.Building? && pc.i == i
    ensures Turn(q, Placed(q, Made, pc))
  {
    MadeFirst(|q.roots|, q.first, q.looks, q.places);
  }

  lemma RetriedTurn(q: Req, i: nat, timedOut: bool)
    requires Index(q.pc) == Some(i) && i < |q.roots| && GaveRoot(q, i)
    ensures Turn(q, Retried(q, i, timedOut))
  {
  }

  /** With an entry at hand. */
  lemma GoOnTurn(q: Req, pc: Pc)
    requires OrderOk(q) && Index(pc) == Index(q.pc) && Index(q.pc).Some?
    requires pc.Loading? || pc.CheckWait? || pc.Aicpu? || pc.Booting? || pc.Opening? || pc.LoadWait? ||
             (pc.Finished? && pc.answer.Returned?) || (Writes(pc) && Writes(q.pc))
    requires !q.pc.Probing? && !q.pc.ProbeWait? && !q.pc.Placing? && !q.pc.PlaceWait?
    ensures Turn(q, q.(pc := pc))
  {
  }

  lemma BuiltTurn(c: Setup, q: Req, result: Result)
    requires OrderOk(q) && (q.pc.StageWait? || q.pc.CommitWait?)
    ensures Turn(q, AnsweredReq(c, q, result))
  {
    GoOnTurn(q, AnsweredReq(c, q, result).pc);
  }

  lemma PlaceAnsweredTurn(c: Setup, q: Req, result: Result)
    requires OrderOk(q) && q.pc.PlaceWait?
    ensures Turn(q, AnsweredReq(c, q, result))
  {
    if result == Good {
      MadeTurn(q, q.pc.i, Building(q.pc.i, q.pc.u, c.plan(q.input, q.pc.u)));
    } else {
      PassedTurn(q, q.pc.i, PlaceFailed(false));
    }
  }

  lemma LoadAnsweredTurn(c: Setup, q: Req, result: Result)
    requires OrderOk(q) && q.pc.LoadWait?
    ensures Turn(q, AnsweredReq(c, q, result))
  {
    if result.Read? {
      GoOnTurn(q, AnsweredReq(c, q, result).pc);
    } else {
      RetriedTurn(q, q.pc.i, false);
    }
  }

  lemma AnsweredTurn(c: Setup, q: Req, result: Result)
    requires OrderOk(q) && Awaited(q.pc).Some?
    ensures Turn(q, AnsweredReq(c, q, result))
  {
    match q.pc {
      case ProbeWait(i, _) => LookedTurn(q, i, LookOf(result));
      case PlaceWait(_, _, _) => PlaceAnsweredTurn(c, q, result);
      case StageWait(_, _, _, _, _) => BuiltTurn(c, q, result);
      case CommitWait(_, _, _) => BuiltTurn(c, q, result);
      case CheckWait(i, _) => CheckedTurn(q, i, result);
      case LoadWait(_, _) => LoadAnsweredTurn(c, q, result);
      case DropWait(i, _, _) => RetriedTurn(q, i, false);
      case _ =>
    }
  }

  lemma CheckedTurn(q: Req, i: nat, result: Result)
    requires OrderOk(q) && q.pc.CheckWait? && q.pc.i == i
    ensures Turn(q, Checked(q, i, result))
  {
    if q.input.Loader? && result == Good {
      GoOnTurn(q, Checked(q, i, result).pc);
    } else if q.input.Loader? || result == Failed {
      RetriedTurn(q, i, false);
    } else {
      GoOnTurn(q, Checked(q, i, result).pc);
    }
  }

  lemma TimedOutTurn(q: Req)
    requires OrderOk(q) && Awaited(q.pc).Some?
    ensures Turn(q, TimedOutReq(q))
  {
    match q.pc {
      case ProbeWait(i, _) => LookedTurn(q, i, LookFailed(true));
      case PlaceWait(i, _, _) => PassedTurn(q, i, PlaceFailed(true));
      case StageWait(i, _, _, kind, _) => RetriedTurn(q, i, kind == Io);
      case CommitWait(i, _, _) => RetriedTurn(q, i, true);
      case CheckWait(i, _) => RetriedTurn(q, i, true);
      case LoadWait(i, _) => RetriedTurn(q, i, true);
      case DropWait(i, _, _) => RetriedTurn(q, i, false);
      case _ =>
    }
  }

  // ---- Steps of the protocol ----

  lemma LookedAllTurn(q: Req)
    requires q.pc.Probing? && LookingAt(q, |q.roots|)
    ensures Turn(q, q.(pc := Placing(q.first)))
  {
  }

  lemma PlacedAllTurn(q: Req)
    requires q.pc.Placing? && PlacingAt(q, |q.roots|)
    ensures Turn(q, q.(pc := Finished(Threw(false))))
  {
  }

  lemma WaitTurn(q: Req, pc: Pc)
    requires OrderOk(q) && (q.pc.Probing? || q.pc.Placing?) && q.pc.i < |q.roots|
    requires if q.pc.Probing? then pc.ProbeWait? && pc.i == q.pc.i else pc.PlaceWait? && pc.i == q.pc.i && pc.i !in q.failed
    ensures Turn(q, q.(pc := pc))
  {
  }

  lemma LookupTurn(c: Setup, s: State, r: nat, i: nat)
    requires r in s.reqs && s.reqs[r].pc == Probing(i) && OrderOk(s.reqs[r])
    ensures r in Lookup(c, s, r, i).reqs && Turn(s.reqs[r], Lookup(c, s, r, i).reqs[r])
  {
    var q := s.reqs[r];
    if i >= |q.roots| {
      LookedAllTurn(q);
    } else if Count(s, q.host, i) >= 3 {
      LookedTurn(q, i, Skipped);
    } else {
      WaitTurn(q, ProbeWait(i, s.next));
    }
  }

  lemma PlaceGoes(s: State, r: nat, i: nat)
    requires r in s.reqs
    ensures r in Place(s, r, i).reqs
    ensures var q := s.reqs[r];
            Place(s, r, i).reqs[r] ==
              if i >= |q.roots| then q.(pc := Finished(Threw(false)))
              else if Count(s, q.host, i) >= 3 || i in q.failed then Placed(q, Passed, Placing(i + 1))
              else q.(pc := PlaceWait(i, s.next, s.next + 1))
  {
  }

  lemma PlaceTurn(s: State, r: nat, i: nat)
    requires r in s.reqs && s.reqs[r].pc == Placing(i) && OrderOk(s.reqs[r])
    ensures r in Place(s, r, i).reqs && Turn(s.reqs[r], Place(s, r, i).reqs[r])
  {
    var q := s.reqs[r];
    PlaceGoes(s, r, i);
    if i >= |q.roots| {
      PlacedAllTurn(q);
    } else if Count(s, q.host, i) >= 3 || i in q.failed {
      PassedTurn(q, i, Passed);
    } else {
      WaitTurn(q, PlaceWait(i, s.next, s.next + 1));
    }
  }

  /** Where a step with a directory in hand leads. */
  lemma WriteGoes(c: Setup, s: State, r: nat, s': State)
    requires r in s.reqs && !s.reqs[r].pc.Finished? && s.reqs[r].pc.i < |s.reqs[r].roots| && OwnStep(c, s, r) == Some(s')
    requires s.reqs[r].pc.Building? || s.reqs[r].pc.Dropping?
    ensures r in s'.reqs && s'.reqs[r] == s.reqs[r].(pc := s'.reqs[r].pc)
    ensures Index(s'.reqs[r].pc) == Some(s.reqs[r].pc.i) && Writes(s'.reqs[r].pc)
  {
  }

  /** Where a step with an entry at hand leads: it goes on with the entry on the same root. */
  ghost predicate ReadsOn(s: State, s': State, r: nat, i: nat) {
    && r in s.reqs && r in s'.reqs && s'.reqs[r] == s.reqs[r].(pc := s'.reqs[r].pc)
    && Index(s'.reqs[r].pc) == Some(i)
    && var pc := s'.reqs[r].pc; pc.CheckWait? || pc.Opening? || pc.LoadWait? || (pc.Finished? && pc.answer.Returned?)
  }

  lemma LoadReadsOn(c: Setup, s: State, r: nat, i: nat)
    requires r in s.reqs && i < |s.reqs[r].roots|
    ensures ReadsOn(s, StartLoad(c, s, r, i), r, i) && ReadsOn(s, Open(c, s, r, i), r, i)
  {
  }

  lemma ReadGoes(c: Setup, s: State, r: nat, s': State)
    requires r in s.reqs && !s.reqs[r].pc.Finished? && s.reqs[r].pc.i < |s.reqs[r].roots| && OwnStep(c, s, r) == Some(s')
    requires s.reqs[r].pc.Loading? || s.reqs[r].pc.Aicpu? || s.reqs[r].pc.Opening?
    ensures ReadsOn(s, s', r, s.reqs[r].pc.i)
  {
    LoadReadsOn(c, s, r, s.reqs[r].pc.i);
  }

  lemma OwnStepTurn(c: Setup, s: State, r: nat, s': State)
    requires r in s.reqs && !s.reqs[r].pc.Finished? && s.reqs[r].pc.i < |s.reqs[r].roots| && OwnStep(c, s, r) == Some(s')
    requires OrderOk(s.reqs[r])
    ensures r in s'.reqs && Turn(s.reqs[r], s'.reqs[r])
  {
    var q := s.reqs[r];
    if q.pc.Booting? {
      RetriedTurn(q, q.pc.i, s.reqs[q.pc.child].pc.answer.timedOut);
    } else {
      if q.pc.Building? || q.pc.Dropping? {
        WriteGoes(c, s, r, s');
      } else {
        ReadGoes(c, s, r, s');
      }
      GoOnTurn(q, s'.reqs[r].pc);
    }
  }

  lemma AdvanceTurn(c: Setup, s: State, r: nat, s': State)
    requires r in s.reqs && ReqStep(c, s, r) == Some(s') && OrderOk(s.reqs[r])
    ensures r in s'.reqs && Turn(s.reqs[r], s'.reqs[r])
  {
    var pc := s.reqs[r].pc;
    if Awaited(pc).Some? {
      AnsweredTurn(c, s.reqs[r], s.jobs[Awaited(pc).value].work.result);
    } else if pc.Probing? {
      LookupTurn(c, s, r, pc.i);
    } else if pc.Placing? {
      PlaceTurn(s, r, pc.i);
    } else {
      OwnStepTurn(c, s, r, s');
    }
  }

  lemma DeployTurn(s: State, r: nat, ok: bool, s': State)
    requires r in s.reqs && DeployStep(s, r, ok) == Some(s') && OrderOk(s.reqs[r])
    ensures r in s'.reqs && Turn(s.reqs[r], s'.reqs[r])
  {
    var q := s.reqs[r];
    if ok {
      GoOnTurn(q, Opening(q.pc.i));
    } else {
      RetriedTurn(q, q.pc.i, false);
    }
  }

  lemma NewReqOrder(host: nat, roots: seq<Root>, tag: bytes, x: Subject, load: bool)
    ensures OrderOk(NewReq(host, roots, tag, x, load))
  {
  }

  lemma BootTurn(c: Setup, s: State, s': State, r: nat, r': nat)
    requires Booted(c, s, s', r) && s.next !in s.reqs && r' in s'.reqs && (r' in s.reqs ==> OrderOk(s.reqs[r']))
    ensures OrderOk(s'.reqs[r'])
    ensures r' in s.reqs ==> Onward(s.reqs[r'], s'.reqs[r'])
  {
    var q := s.reqs[r];
    if r' == r {
      GoOnTurn(q, Booting(q.pc.i, s.next));
    } else if r' == s.next {
      NewReqOrder(q.host, q.roots, LOADER_TAG, Loader(c.loader(q.host).value), false);
    }
  }

  /** Request r, if it was there before, went onward, and it keeps to the rules. */
  ghost predicate Kept(s: State, s': State, r: nat) {
    r in s'.reqs ==> OrderOk(s'.reqs[r]) && (r in s.reqs ==> Onward(s.reqs[r], s'.reqs[r]))
  }

  lemma OneTurnKeeps(s: State, s': State, r': nat, r: nat)
    requires ReqTurned(s, s', r') && (r in s.reqs ==> OrderOk(s.reqs[r]))
    requires r == r' ==> Turn(s.reqs[r], s'.reqs[r])
    ensures Kept(s, s', r)
  {
  }

  lemma UnchangedKeeps(s: State, s': State, r: nat)
    requires r in s'.reqs ==> r in s.reqs && s'.reqs[r] == s.reqs[r]
    requires r in s.reqs ==> OrderOk(s.reqs[r])
    ensures Kept(s, s', r)
  {
  }

  lemma NewcomerKeeps(c: Setup, s: State, a: Action, s': State, r: nat)
    requires Inv(c, s) && Step(c, s, a, s') && (a.Submit? || a.Boot?) && (r in s.reqs ==> OrderOk(s.reqs[r]))
    ensures Kept(s, s', r)
  {
    NextIsFree(c, s);
    if a.Submit? {
      NewReqOrder(a.host, a.roots, a.tag, Kernel(a.input), a.load);
    } else {
      assert ReqOk(c, s, a.r);
      BootTurns(c, s, a.r, s');
      if r in s'.reqs {
        BootTurn(c, s, s', a.r, r);
      }
    }
  }

  lemma AdvanceKeeps(c: Setup, s: State, r': nat, s': State, r: nat)
    requires r' in s.reqs && ReqStep(c, s, r') == Some(s') && (r in s.reqs ==> OrderOk(s.reqs[r]))
    ensures Kept(s, s', r)
  {
    AdvanceTurns(c, s, r', s');
    if r == r' {
      AdvanceTurn(c, s, r, s');
    }
    OneTurnKeeps(s, s', r', r);
  }

  lemma ExpireKeeps(s: State, r': nat, s': State, r: nat)
    requires r' in s.reqs && TimeoutStep(s, r') == Some(s') && (r in s.reqs ==> OrderOk(s.reqs[r]))
    ensures Kept(s, s', r)
  {
    ExpireTurns(s, r', s');
    if r == r' {
      TimedOutTurn(s.reqs[r]);
    }
    OneTurnKeeps(s, s', r', r);
  }

  lemma DeployKeeps(s: State, r': nat, ok: bool, s': State, r: nat)
    requires r' in s.reqs && DeployStep(s, r', ok) == Some(s') && (r in s.reqs ==> OrderOk(s.reqs[r]))
    ensures Kept(s, s', r)
  {
    DeployTurns(s, r', ok, s');
    if r == r' {
      DeployTurn(s, r, ok, s');
    }
    OneTurnKeeps(s, s', r', r);
  }

  /** Each request keeps to the rules in every step; one that is there before and after went onward. */
  lemma StepKeepsOrder(c: Setup, s: State, a: Action, s': State, r: nat)
    requires Inv(c, s) && Step(c, s, a, s') && (r in s.reqs ==> OrderOk(s.reqs[r]))
    ensures Kept(s, s', r)
  {
    match a {
      case Advance(r') => AdvanceKeeps(c, s, r', s', r);
      case Expire(r') => ExpireKeeps(s, r', s', r);
      case Deploy(r', ok) => DeployKeeps(s, r', ok, s', r);
      case Boot(_) => NewcomerKeeps(c, s, a, s', r);
      case Submit(_, _, _, _, _) => NewcomerKeeps(c, s, a, s', r);
      case Work(j, choice) =>
        JobTurns(c, s, j, choice, s');
        UnchangedKeeps(s, s', r);
      case Kill(_) => UnchangedKeeps(s, s', r);
      case Reboot(_, _) => UnchangedKeeps(s, s', r);
      case Crash(_, _) => UnchangedKeeps(s, s', r);
    }
  }

  ghost predicate Orderly(s: State) { forall r :: r in s.reqs ==> OrderOk(s.reqs[r]) }

  lemma StepOrderly(c: Setup, s: State, a: Action, s': State)
    requires Inv(c, s) && Step(c, s, a, s') && Orderly(s)
    ensures Orderly(s')
  {
    forall r | r in s'.reqs
      ensures OrderOk(s'.reqs[r])
    {
      StepKeepsOrder(c, s, a, s', r);
    }
  }

  /** In every run every request's record is one that the rules of `entry` allow: the same rules that
      CacheControl proves of one caller's loops. */
  lemma {:induction false} OrderHolds(c: Setup, run: seq<State>, acts: seq<Action>, k: nat)
    requires Run(c, run, acts) && k < |run|
    ensures Orderly(run[k])
  {
    if k > 0 {
      RunInv(c, run, acts, k - 1);
      assert Step(c, run[k - 1], acts[k - 1], run[k - 1 + 1]);
      OrderHolds(c, run, acts, k - 1);
      StepOrderly(c, run[k - 1], acts[k - 1], run[k]);
    }
  }

  lemma OnwardInRun(c: Setup, run: seq<State>, acts: seq<Action>, k: nat, r: nat)
    requires Run(c, run, acts) && k < |acts| && r in run[k].reqs && r in run[k + 1].reqs
    ensures Onward(run[k].reqs[r], run[k + 1].reqs[r]) && OrderOk(run[k].reqs[r]) && OrderOk(run[k + 1].reqs[r])
  {
    RunInv(c, run, acts, k);
    assert Step(c, run[k], acts[k], run[k + 1]);
    OrderHolds(c, run, acts, k);
    StepKeepsOrder(c, run[k], acts[k], run[k + 1], r);
  }

  lemma OrderIndex(q: Req)
    requires OrderOk(q)
    ensures Index(q.pc).Some? ==> q.first <= Index(q.pc).value
  {
  }

  /** In every run a request goes through the roots in order and never comes back to a root whose attempt
      failed, whatever other processes do: the first root of its attempt never goes down, it works on no root
      before that one, and an attempt that fails on a root makes the next one start behind it. */
  lemma {:induction false} RootsInOrder(c: Setup, run: seq<State>, acts: seq<Action>, i: nat, k: nat, r: nat)
    requires Run(c, run, acts) && i <= k < |run| && forall m: nat :: i <= m <= k ==> r in run[m].reqs
    ensures run[k].reqs[r].roots == run[i].reqs[r].roots && OrderOk(run[k].reqs[r])
    ensures run[i].reqs[r].first <= run[k].reqs[r].first
    ensures run[i].reqs[r].first < run[k].reqs[r].first && Index(run[i].reqs[r].pc).Some? && i + 1 == k ==>
              run[k].reqs[r].first == Index(run[i].reqs[r].pc).value + 1
    ensures Index(run[k].reqs[r].pc).Some? ==> run[i].reqs[r].first <= Index(run[k].reqs[r].pc).value
  {
    if i < k {
      RootsInOrder(c, run, acts, i, k - 1, r);
      OnwardInRun(c, run, acts, k - 1, r);
      OrderIndex(run[k - 1].reqs[r]);
    } else {
      OrderHolds(c, run, acts, k);
    }
    OrderIndex(run[k].reqs[r]);
  }
}
