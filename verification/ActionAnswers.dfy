/**
 * Why a call was answered as it was, on every run and whatever clients submit: each refusal has its
 * own reason, a repeat is an exact repeat, and nothing is accepted that failed a check on the way.
 */
module ActionAnswers {
  import opened Options
  import opened ActionStores
  import opened ActionProtocol
  import opened ActionInvariant
  import opened ActionTheorems
  import opened ActionOutcomes

  /** The reason for an answer, in the state in which the call, about to do `call`, gets it. */
  ghost predicate GivenBecause(host: Host, w: World, cmd: Command, call: Call, ok: bool, a: Answer) {
    var key, id := (cmd.taskId, cmd.suspendId), (cmd.taskId, cmd.clientActionId);
    match a
    case NotFound => (call == Begun(cmd) && !ok) || key !in w.susp
    case ActionNotAllowed => key in w.susp && cmd.actionType !in w.susp[key].allowedActions
    case InvalidRequest => cmd.actionType == "a2ui_action" && (cmd.metadata == map[] || !host.hasValidationPolicy)
    case PolicyRefused => call == Validating(cmd) && host.hasValidationPolicy && !ok
    case NoResumeService => cmd.actionType == "a2ui_action" && !host.hasResumeService
    case Deduplicated => id in w.receipts && CommandOf(w.receipts[id]).(subject := cmd.subject) == cmd
    case IdempotencyConflict => id in w.receipts && CommandOf(w.receipts[id]).(subject := cmd.subject) != cmd
    case Accepted => (call == Announced(cmd) && !ok) || call == Resumed(cmd)
    case _ => call.HasSuspension? || call.Lost? || call.LostToSelf?
  }

  /** The call's own step `m` gave it the answer, for that reason. */
  ghost predicate AnsweredBy(host: Host, w: World, steps: seq<Step>, p: nat, cmd: Command, a: Answer, m: nat)
    requires m < |steps|
  {
    && steps[m].Next? && steps[m].p == p && p in Run(host, w, steps, m).calls
    && GivenBecause(host, Run(host, w, steps, m), cmd, Run(host, w, steps, m).calls[p], steps[m].ok, a)
  }

  lemma {:induction false} ReadGivesReason(host: Host, w: World, call: Call, ok: bool, cmd: Command, a: Answer)
    requires Filed(w.receipts) && OnlyReads(call) && AfterRead(host, w, call, ok) == Answered(cmd, a)
    ensures GivenBecause(host, w, cmd, call, ok, a)
  {
  }

  lemma {:induction false} MoveGivesReason(host: Host, w: World, p: nat, ok: bool, cmd: Command, a: Answer)
    requires Filed(w.receipts) && p in w.calls && !w.calls[p].Answered?
    requires p in Advance(host, w, p, ok).calls && Advance(host, w, p, ok).calls[p] == Answered(cmd, a)
    ensures GivenBecause(host, w, cmd, w.calls[p], ok, a)
  {
    if OnlyReads(w.calls[p]) {
      OwnRead(host, w, p, ok);
      ReadGivesReason(host, w, w.calls[p], ok, cmd, a);
    } else {
      OwnMove(host, w, p, ok);
      if Reconciles(w.calls[p]) || w.calls[p].Reconciled? || w.calls[p].ReconcileFailed? { ReconcilersAreNotAnswered(host, w, p, ok); }
    }
    hide Advance, AfterRead, GivenBecause, Filed;
  }

  lemma {:induction false} ReconcilersAreNotAnswered(host: Host, w: World, p: nat, ok: bool)
    requires p in w.calls && (Reconciles(w.calls[p]) || w.calls[p].Reconciled? || w.calls[p].ReconcileFailed?)
    ensures p in Advance(host, w, p, ok).calls && !Advance(host, w, p, ok).calls[p].Answered?
  {
    hide CheckSuspension, CheckReceipt, AfterValidation, CheckLost, CheckWinner, MarkDispatched;
  }

  /** A step changes a call only by the call's own next action, a crash, or the submission. */
  lemma {:induction false} CallChanges(host: Host, w: World, step: Step, p: nat)
    requires p in Exec(host, w, step).calls && !(p in w.calls && Exec(host, w, step).calls[p] == w.calls[p])
    ensures var call := Exec(host, w, step).calls[p];
      || (step.Next? && step.p == p && p in w.calls && Exec(host, w, step) == Advance(host, w, p, step.ok))
      || call.Crashed? || call.Reconciling? || (step.Submit? && call == Begun(step.cmd))
  {
    hide Advance;
    if p in w.calls && !(step.Next? && step.p == p) && !(step.Crash? && step.p == p) {
      OthersLeaveCallAlone(host, w, step, p);
    } else if p !in w.calls && step.Next? && step.p in w.calls {
      AdvanceLeavesOthers(host, w, step.p, step.ok, p);
    }
  }

  /**
   * Every answer has its reason. On every run a call is answered NOT_FOUND only if access was refused
   * or the suspension is missing, and likewise for each other refusal; DEDUPLICATED only if the saved
   * receipt is that of the same command, up to its sender, and a conflict only if it is not.
   */
  lemma {:induction false} AnswersHaveReasons(host: Host, w: World, steps: seq<Step>, p: nat, cmd: Command, a: Answer, j: nat)
    returns (m: nat)
    requires Base(w) && p !in w.calls && j <= |steps|
    requires p in Run(host, w, steps, j).calls && Run(host, w, steps, j).calls[p] == Answered(cmd, a)
    ensures m < j && AnsweredBy(host, w, steps, p, cmd, a, m)
  {
    hide Run, Exec, Advance, GivenBecause, Base;
    NothingRunYet(host, w, steps);
    RunStep(host, w, steps, j - 1);
    var before := Run(host, w, steps, j - 1);
    if p in before.calls && before.calls[p] == Answered(cmd, a) {
      m := AnswersHaveReasons(host, w, steps, p, cmd, a, j - 1);
    } else {
      m := j - 1;
      RunKeepsBase(host, w, steps, m, m);
      CallChanges(host, before, steps[m], p);
      if before.calls[p].Answered? { OwnMove(host, before, p, steps[m].ok); }
      BaseIsFiled(before);
      MoveGivesReason(host, before, p, steps[m].ok, cmd, a);
    }
  }

  lemma {:induction false} BaseIsFiled(w: World)
    requires Base(w)
    ensures Filed(w.receipts)
  {
  }

  lemma {:induction false} NothingRunYet(host: Host, w: World, steps: seq<Step>)
    ensures Run(host, w, steps, 0) == w
  {
  }

  // What an accepted call has behind it

  /** Step `m` answered the call's access check with yes. */
  ghost predicate AccessGrantedAt(host: Host, w: World, steps: seq<Step>, p: nat, cmd: Command, m: nat)
    requires m < |steps|
  {
    steps[m] == Next(p, true) && p in Run(host, w, steps, m).calls && Run(host, w, steps, m).calls[p] == Begun(cmd)
  }

  /** At step `m` the call found its suspension, which offers the action. */
  ghost predicate OfferedAt(host: Host, w: World, steps: seq<Step>, p: nat, cmd: Command, m: nat)
    requires m < |steps|
  {
    var now, key := Run(host, w, steps, m), (cmd.taskId, cmd.suspendId);
    && p in now.calls && now.calls[p] == Granted(cmd)
    && key in now.susp && cmd.actionType in now.susp[key].allowedActions
  }

  /** At step `m` the host's policy, if there is one, let the call pass. */
  ghost predicate ValidatedAt(host: Host, w: World, steps: seq<Step>, p: nat, cmd: Command, m: nat)
    requires m < |steps|
  {
    && steps[m].Next? && steps[m].p == p && (host.hasValidationPolicy ==> steps[m].ok)
    && p in Run(host, w, steps, m).calls && Run(host, w, steps, m).calls[p] == Validating(cmd)
  }

  ghost predicate WasGranted(host: Host, w: World, steps: seq<Step>, p: nat, cmd: Command, j: nat)
    requires j <= |steps|
  {
    exists m: nat :: m < j && AccessGrantedAt(host, w, steps, p, cmd, m)
  }

  ghost predicate WasOffered(host: Host, w: World, steps: seq<Step>, p: nat, cmd: Command, j: nat)
    requires j <= |steps|
  {
    exists m: nat :: m < j && OfferedAt(host, w, steps, p, cmd, m)
  }

  ghost predicate WasValidated(host: Host, w: World, steps: seq<Step>, p: nat, cmd: Command, j: nat)
    requires j <= |steps|
  {
    exists m: nat :: m < j && ValidatedAt(host, w, steps, p, cmd, m)
  }

  predicate CarriesMetadata(cmd: Command) { cmd.actionType == "a2ui_action" ==> cmd.metadata != map[] }

  predicate HostIsReady(host: Host, cmd: Command) {
    cmd.actionType == "a2ui_action" ==> host.hasValidationPolicy && host.hasResumeService
  }

  predicate PastAccess(call: Call) { call.Granted? || call.HasSuspension? || call.Validating? || PastValidation(call) }

  predicate PastOffer(call: Call) { call.HasSuspension? || call.Validating? || PastValidation(call) }

  predicate PastValidation(call: Call) { call.Accepting? || call.Lost? || call.LostToSelf? || Winning(call) }

  /** What a call at this point has behind it. */
  ghost predicate Checked(host: Host, w: World, steps: seq<Step>, p: nat, call: Call, j: nat)
    requires j <= |steps|
  {
    && (PastAccess(call) ==> WasGranted(host, w, steps, p, call.cmd, j))
    && (PastOffer(call) ==> WasOffered(host, w, steps, p, call.cmd, j) && CarriesMetadata(call.cmd))
    && (call.Validating? && call.cmd.actionType == "a2ui_action" ==> host.hasValidationPolicy)
    && (PastValidation(call) ==> WasValidated(host, w, steps, p, call.cmd, j) && HostIsReady(host, call.cmd))
  }

  lemma {:induction false} CheckedLater(host: Host, w: World, steps: seq<Step>, p: nat, call: Call, j: nat)
    requires j < |steps| && Checked(host, w, steps, p, call, j)
    ensures Checked(host, w, steps, p, call, j + 1)
  {
    hide AccessGrantedAt, OfferedAt, ValidatedAt, CarriesMetadata, HostIsReady;
  }

  /** The call's own step adds what it checks. */
  lemma {:induction false} OwnStepChecks(host: Host, w: World, steps: seq<Step>, p: nat, j: nat)
    requires j < |steps| && steps[j].Next? && steps[j].p == p && p in Run(host, w, steps, j).calls
    requires Checked(host, w, steps, p, Run(host, w, steps, j).calls[p], j)
    ensures var next := Advance(host, Run(host, w, steps, j), p, steps[j].ok);
      p in next.calls && Checked(host, w, steps, p, next.calls[p], j + 1)
  {
    hide Run, Advance;
    var now, ok := Run(host, w, steps, j), steps[j].ok;
    var call := now.calls[p];
    CheckedLater(host, w, steps, p, call, j);
    if OnlyReads(call) {
      OwnRead(host, now, p, ok);
      ReadChecks(host, w, steps, p, j);
    } else if Reconciles(call) || call.Reconciled? || call.ReconcileFailed? {
      ReconcilersAreNotAnswered(host, now, p, ok);
      ReconcilersStay(host, now, p, ok);
    } else {
      OwnMove(host, now, p, ok);
      hide WasGranted, WasOffered, WasValidated, CarriesMetadata, HostIsReady;
    }
  }

  lemma {:induction false} ReconcilersStay(host: Host, w: World, p: nat, ok: bool)
    requires p in w.calls && (Reconciles(w.calls[p]) || w.calls[p].Reconciled? || w.calls[p].ReconcileFailed?)
    ensures var call := Advance(host, w, p, ok).calls[p]; Reconciles(call) || call.Reconciled? || call.ReconcileFailed?
  {
    hide CheckSuspension, CheckReceipt, AfterValidation, CheckLost, CheckWinner, MarkDispatched;
  }

  lemma {:induction false} ReadChecks(host: Host, w: World, steps: seq<Step>, p: nat, j: nat)
    requires j < |steps| && steps[j].Next? && steps[j].p == p && p in Run(host, w, steps, j).calls
    requires OnlyReads(Run(host, w, steps, j).calls[p]) && Checked(host, w, steps, p, Run(host, w, steps, j).calls[p], j + 1)
    ensures Checked(host, w, steps, p, AfterRead(host, Run(host, w, steps, j), Run(host, w, steps, j).calls[p], steps[j].ok), j + 1)
  {
    hide Run, WasGranted, WasOffered, WasValidated;
    var now, ok := Run(host, w, steps, j), steps[j].ok;
    var call := now.calls[p];
    if call.Begun? || call.Granted? || call.Validating? { CheckedNow(host, w, steps, p, j); }
  }

  lemma {:induction false} CheckedNow(host: Host, w: World, steps: seq<Step>, p: nat, j: nat)
    requires j < |steps| && steps[j].Next? && steps[j].p == p && p in Run(host, w, steps, j).calls
    ensures var now, ok := Run(host, w, steps, j), steps[j].ok;
      match now.calls[p]
      case Begun(cmd) => ok ==> WasGranted(host, w, steps, p, cmd, j + 1)
      case Granted(cmd) =>
        SuspKey(cmd) in now.susp && cmd.actionType in now.susp[SuspKey(cmd)].allowedActions ==> WasOffered(host, w, steps, p, cmd, j + 1)
      case Validating(cmd) => (host.hasValidationPolicy ==> ok) ==> WasValidated(host, w, steps, p, cmd, j + 1)
      case _ => true
  {
    hide Run;
    var now, ok := Run(host, w, steps, j), steps[j].ok;
    match now.calls[p]
    case Begun(cmd) => assert ok ==> AccessGrantedAt(host, w, steps, p, cmd, j);
    case Granted(cmd) =>
      assert SuspKey(cmd) in now.susp && cmd.actionType in now.susp[SuspKey(cmd)].allowedActions ==> OfferedAt(host, w, steps, p, cmd, j);
    case Validating(cmd) => assert (host.hasValidationPolicy ==> ok) ==> ValidatedAt(host, w, steps, p, cmd, j);
    case _ =>
  }

  lemma {:induction false} CallsAreChecked(host: Host, w: World, steps: seq<Step>, p: nat, j: nat)
    requires p !in w.calls && j <= |steps| && p in Run(host, w, steps, j).calls
    ensures Checked(host, w, steps, p, Run(host, w, steps, j).calls[p], j)
  {
    hide Run, Exec, Advance, WasGranted, WasOffered, WasValidated, CarriesMetadata, HostIsReady;
    NothingRunYet(host, w, steps);
    var before, now := Run(host, w, steps, j - 1), Run(host, w, steps, j);
    RunStep(host, w, steps, j - 1);
    if p in before.calls {
      CallsAreChecked(host, w, steps, p, j - 1);
      CheckedLater(host, w, steps, p, before.calls[p], j - 1);
    }
    if !(p in before.calls && now.calls[p] == before.calls[p]) {
      CallChanges(host, before, steps[j - 1], p);
      if steps[j - 1].Next? && steps[j - 1].p == p && p in before.calls && now == Advance(host, before, p, steps[j - 1].ok) {
        OwnStepChecks(host, w, steps, p, j - 1);
      }
    }
  }

  /**
   * Nothing is accepted unchecked: whatever wins a suspension, on any run, was granted access, found
   * the suspension offering its action, and passed the host's policy if there is one; an A2UI action
   * carries metadata and has a host with a policy and a resume service.
   */
  lemma {:induction false} AcceptedWasChecked(host: Host, w: World, steps: seq<Step>, p: nat, j: nat)
    requires p !in w.calls && j <= |steps| && p in Run(host, w, steps, j).calls && Winning(Run(host, w, steps, j).calls[p])
    ensures var cmd := Run(host, w, steps, j).calls[p].cmd;
      && WasGranted(host, w, steps, p, cmd, j) && WasOffered(host, w, steps, p, cmd, j) && WasValidated(host, w, steps, p, cmd, j)
      && CarriesMetadata(cmd) && HostIsReady(host, cmd)
  {
    hide Run, WasGranted, WasOffered, WasValidated, CarriesMetadata, HostIsReady;
    CallsAreChecked(host, w, steps, p, j);
    var call := Run(host, w, steps, j).calls[p];
    assert PastOffer(call) && PastAccess(call);
  }

  // Clean-up and reconciliation

  /** Retention steps do to the stores what the stores promise, and nothing else happens in them. */
  lemma {:induction false} RetentionStepsAreExact(host: Host, w: World, now: int)
    ensures var w1 := Exec(host, w, ExpireSuspensions(now)); w1 == w.(susp := w1.susp) && ExpiredExactly(w.susp, w1.susp, now)
    ensures var w2 := Exec(host, w, PruneReceipts(now)); w2 == w.(receipts := w2.receipts) && DeletedExactly(w.receipts, w2.receipts, now)
  {
    ExpiresExactly(w.susp, now);
    DeletesExactly(w.receipts, now);
  }

  predicate IsReconciler(call: Call) { Reconciles(call) || call.Reconciled? || call.ReconcileFailed? }

  /** Step `m` of the reconciler is the mark of a record whose resume went through. */
  ghost predicate MarksAt(host: Host, w: World, steps: seq<Step>, p: nat, m: nat)
    requires m < |steps|
  {
    steps[m].Next? && steps[m].p == p && p in Run(host, w, steps, m).calls
    && Run(host, w, steps, m).calls[p].ReResumed? && Run(host, w, steps, m).calls[p].todo != []
  }

  ghost function Marks(host: Host, w: World, steps: seq<Step>, p: nat, j: nat): nat
    requires j <= |steps|
  {
    if j == 0 then 0 else Marks(host, w, steps, p, j - 1) + (if MarksAt(host, w, steps, p, j - 1) then 1 else 0)
  }

  /** Step `m` made the reconciler fail: its resume raised, or an A2UI action has no resume service. */
  ghost predicate FailsAt(host: Host, w: World, steps: seq<Step>, p: nat, m: nat)
    requires m < |steps|
  {
    && steps[m].Next? && steps[m].p == p && p in Run(host, w, steps, m).calls
    && match Run(host, w, steps, m).calls[p]
       case HasReceipt(_, _, _) => !steps[m].ok
       case Reconciling(todo, _) =>
         && !host.hasResumeService && todo != [] && todo[0].successfulActionId.Some?
         && var key := (todo[0].taskId, todo[0].successfulActionId.value);
            key in Run(host, w, steps, m).receipts && Run(host, w, steps, m).receipts[key].actionType == "a2ui_action"
       case _ => false
  }

  ghost predicate ReconcilerOk(host: Host, w: World, steps: seq<Step>, p: nat, call: Call, j: nat)
    requires j <= |steps|
  {
    && (Reconciles(call) || call.Reconciled? ==> call.processed == Marks(host, w, steps, p, j))
    && (call.ReconcileFailed? ==> exists m: nat :: m < j && FailsAt(host, w, steps, p, m))
    && (!IsReconciler(call) && !call.Crashed? ==> Marks(host, w, steps, p, j) == 0)
  }

  /** The reconciler's own step. */
  lemma {:induction false} ReconcilerStep(host: Host, w: World, p: nat, ok: bool)
    requires p in w.calls
    ensures p in Advance(host, w, p, ok).calls
    ensures var call, next := w.calls[p], Advance(host, w, p, ok).calls[p];
      && (IsReconciler(call) <==> IsReconciler(next))
      && (call.Crashed? <==> next.Crashed?)
      && (Reconciles(call) && !next.ReconcileFailed? ==>
            next.processed == call.processed + if call.ReResumed? && call.todo != [] then 1 else 0)
      && (call.Reconciled? || call.ReconcileFailed? ==> next == call)
      && (next.ReconcileFailed? && !call.ReconcileFailed? ==>
            || (call.HasReceipt? && !ok)
            || (call.Reconciling? && !host.hasResumeService && call.todo != [] && call.todo[0].successfulActionId.Some?
                && var key := (call.todo[0].taskId, call.todo[0].successfulActionId.value);
                   key in w.receipts && w.receipts[key].actionType == "a2ui_action"))
  {
    hide CheckSuspension, CheckReceipt, AfterValidation, CheckLost, CheckWinner, MarkDispatched, AcceptIfOpen;
    if !IsReconciler(w.calls[p]) { CallersStayCallers(host, w, p, ok); }
  }

  lemma {:induction false} CallersStayCallers(host: Host, w: World, p: nat, ok: bool)
    requires p in w.calls && !IsReconciler(w.calls[p])
    ensures p in Advance(host, w, p, ok).calls && !IsReconciler(Advance(host, w, p, ok).calls[p])
    ensures w.calls[p].Crashed? <==> Advance(host, w, p, ok).calls[p].Crashed?
  {
    hide Advance, CheckPending;
    if OnlyReads(w.calls[p]) { OwnRead(host, w, p, ok); } else { OwnMove(host, w, p, ok); }
  }

  lemma {:induction false} OwnStepOfReconciler(host: Host, w: World, steps: seq<Step>, p: nat, j: nat)
    requires j < |steps| && steps[j].Next? && steps[j].p == p && p in Run(host, w, steps, j).calls
    requires ReconcilerOk(host, w, steps, p, Run(host, w, steps, j).calls[p], j)
    ensures var next := Advance(host, Run(host, w, steps, j), p, steps[j].ok);
      p in next.calls && ReconcilerOk(host, w, steps, p, next.calls[p], j + 1)
  {
    hide Run, Advance;
    var now, ok := Run(host, w, steps, j), steps[j].ok;
    ReconcilerStep(host, now, p, ok);
    var call, next := now.calls[p], Advance(host, now, p, ok).calls[p];
    assert Marks(host, w, steps, p, j + 1) == Marks(host, w, steps, p, j) + if call.ReResumed? && call.todo != [] then 1 else 0;
    if next.ReconcileFailed? {
      if call.ReconcileFailed? {
        var m: nat :| m < j && FailsAt(host, w, steps, p, m);
      } else {
        assert FailsAt(host, w, steps, p, j);
      }
    }
  }

  /** Another's step. */
  lemma {:induction false} ReconcilerWaits(host: Host, w: World, steps: seq<Step>, p: nat, call: Call, j: nat)
    requires j < |steps| && !(steps[j].Next? && steps[j].p == p) && ReconcilerOk(host, w, steps, p, call, j)
    ensures ReconcilerOk(host, w, steps, p, call, j + 1) && ReconcilerOk(host, w, steps, p, Crashed, j + 1)
  {
    hide Run;
    if call.ReconcileFailed? { var m: nat :| m < j && FailsAt(host, w, steps, p, m); }
  }

  /** A call that does not exist yet has marked nothing. */
  lemma {:induction false} NothingMarkedYet(host: Host, w: World, steps: seq<Step>, p: nat, j: nat)
    requires j <= |steps| && p !in Run(host, w, steps, j).calls
    ensures Marks(host, w, steps, p, j) == 0
  {
    hide Exec;
    if j > 0 {
      CallsStay(host, Run(host, w, steps, j - 1), steps[j - 1], p);
      NothingMarkedYet(host, w, steps, p, j - 1);
    }
  }

  lemma {:induction false} CallsStay(host: Host, w: World, step: Step, p: nat)
    ensures p in w.calls ==> p in Exec(host, w, step).calls
  {
    if step.Next? && step.p in w.calls && step.p != p { AdvanceLeavesOthers(host, w, step.p, step.ok, p); }
    if step.Next? && step.p in w.calls && step.p == p { ReconcilerStep(host, w, p, step.ok); }
    hide Advance;
  }

  /**
   * On every run a reconciler's count is the number of records it marked after their resume went
   * through, and it fails only because a resume raised or an A2UI action has no resume service; a
   * record without a usable receipt never stops it.
   */
  lemma {:induction false} ReconcilersCountAndFail(host: Host, w: World, steps: seq<Step>, p: nat, j: nat)
    requires p !in w.calls && j <= |steps| && p in Run(host, w, steps, j).calls
    ensures ReconcilerOk(host, w, steps, p, Run(host, w, steps, j).calls[p], j)
  {
    hide Run, Exec, Advance, FailsAt, MarksAt;
    NothingRunYet(host, w, steps);
    RunStep(host, w, steps, j - 1);
    var before, now, step := Run(host, w, steps, j - 1), Run(host, w, steps, j), steps[j - 1];
    if p in before.calls {
      ReconcilersCountAndFail(host, w, steps, p, j - 1);
      if step.Next? && step.p == p {
        OwnStepOfReconciler(host, w, steps, p, j - 1);
        OwnExec(host, before, step);
      } else {
        ReconcilerWaits(host, w, steps, p, before.calls[p], j - 1);
        OthersOrCrash(host, before, step, p);
      }
    } else {
      NothingMarkedYet(host, w, steps, p, j - 1);
      NewCall(host, before, step, p);
      assert !MarksAt(host, w, steps, p, j - 1) by { NotThere(host, w, steps, p, j - 1); }
    }
  }

  lemma {:induction false} NotThere(host: Host, w: World, steps: seq<Step>, p: nat, m: nat)
    requires m < |steps| && p !in Run(host, w, steps, m).calls
    ensures !MarksAt(host, w, steps, p, m)
  {
  }

  lemma {:induction false} OwnExec(host: Host, w: World, step: Step)
    requires step.Next? && step.p in w.calls
    ensures Exec(host, w, step) == Advance(host, w, step.p, step.ok)
  {
    hide Advance;
  }

  lemma {:induction false} OthersOrCrash(host: Host, w: World, step: Step, p: nat)
    requires p in w.calls && !(step.Next? && step.p == p)
    ensures p in Exec(host, w, step).calls && (Exec(host, w, step).calls[p] == w.calls[p] || Exec(host, w, step).calls[p] == Crashed)
  {
    if !(step.Crash? && step.p == p) { OthersLeaveCallAlone(host, w, step, p); }
    hide Advance;
  }

  lemma {:induction false} NewCall(host: Host, w: World, step: Step, p: nat)
    requires p !in w.calls && p in Exec(host, w, step).calls
    ensures var call := Exec(host, w, step).calls[p]; call.Begun? || (call.Reconciling? && call.processed == 0)
  {
    if step.Next? && step.p in w.calls { AdvanceLeavesOthers(host, w, step.p, step.ok, p); }
    hide Advance;
  }
}
