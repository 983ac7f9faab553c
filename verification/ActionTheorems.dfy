/** What the invariant means for callers: linearizability, permanence, and who can be dispatched. */
module ActionTheorems {
  import opened Options
  import opened ActionStores
  import opened ActionProtocol
  import opened ActionInvariant

  /**
   * The command repeats the action that the receipt was saved for: the two agree in everything but
   * who sent them. The task and the action id are those the receipt is looked up by.
   */
  predicate Repeats(r: Receipt, cmd: Command) {
    CommandOf(r).(taskId := cmd.taskId, clientActionId := cmd.clientActionId, subject := cmd.subject) == cmd
  }

  /** What a one-step accept would answer in this state. */
  function AtomicAnswer(w: World, cmd: Command): Answer {
    if SuspKey(cmd) !in w.susp then NotFound
    else if ReceiptKey(cmd) in w.receipts then
      (if Repeats(w.receipts[ReceiptKey(cmd)], cmd) then Deduplicated else IdempotencyConflict)
    else match w.susp[SuspKey(cmd)].status
      case Open => Accepted
      case Expired => RejectedExpired
      case _ =>
        if w.susp[SuspKey(cmd)].successfulActionId == Some(cmd.clientActionId) then TaskConflict else RejectedAlreadyResolved
  }

  /** The answers decided by the stores, as opposed to access, allowed actions and host hooks. */
  predicate DecidedByStores(a: Answer) {
    a.Accepted? || a.Deduplicated? || a.RejectedAlreadyResolved? || a.RejectedExpired? || a.IdempotencyConflict? || a.TaskConflict?
  }

  /** The `m`-th state gives this answer; for an accept, the next step resolves the suspension. */
  ghost predicate AnswersAt(host: Host, w: World, steps: seq<Step>, cmd: Command, a: Answer, m: nat)
    requires m <= |steps|
  {
    && AtomicAnswer(Run(host, w, steps, m), cmd) == a
    && (a.Accepted? ==>
          m < |steps| && Run(host, w, steps, m + 1).susp == AcceptIfOpen(Run(host, w, steps, m).susp, SuspKey(cmd), cmd.clientActionId))
  }

  ghost predicate AnswersWithin(host: Host, w: World, steps: seq<Step>, cmd: Command, a: Answer, i: nat, j: nat)
    requires j <= |steps|
  {
    exists m: nat :: i < m <= j && AnswersAt(host, w, steps, cmd, a, m)
  }

  ghost predicate SeenAt(host: Host, w: World, steps: seq<Step>, cmd: Command, seen: Suspension, m: nat)
    requires m <= |steps|
  {
    SuspKey(cmd) in Run(host, w, steps, m).susp && Run(host, w, steps, m).susp[SuspKey(cmd)] == seen
  }

  ghost predicate SeenWithin(host: Host, w: World, steps: seq<Step>, cmd: Command, seen: Suspension, i: nat, j: nat)
    requires j <= |steps|
  {
    exists m: nat :: i < m <= j && SeenAt(host, w, steps, cmd, seen, m)
  }

  /** How what a call holds is explained by states inside the call. */
  ghost predicate Justified(host: Host, w: World, steps: seq<Step>, cmd: Command, i: nat, j: nat, call: Call)
    requires j <= |steps|
  {
    match call
    case HasSuspension(c, seen) => c == cmd && SeenWithin(host, w, steps, cmd, seen, i, j)
    case Won(c) => c == cmd && AnswersWithin(host, w, steps, cmd, Accepted, i, j)
    case Saved(c) => c == cmd && AnswersWithin(host, w, steps, cmd, Accepted, i, j)
    case Announced(c) => c == cmd && AnswersWithin(host, w, steps, cmd, Accepted, i, j)
    case Resumed(c) => c == cmd && AnswersWithin(host, w, steps, cmd, Accepted, i, j)
    case Answered(c, a) => c == cmd && (DecidedByStores(a) ==> AnswersWithin(host, w, steps, cmd, a, i, j))
    case Crashed => true
    case Reconciling(_, _) => false
    case HasReceipt(_, _, _) => false
    case ReResumed(_, _) => false
    case Reconciled(_) => false
    case ReconcileFailed => false
    case _ => call.cmd == cmd
  }

  lemma {:induction false} JustifiedLater(host: Host, w: World, steps: seq<Step>, cmd: Command, i: nat, j: nat, call: Call)
    requires j < |steps| && Justified(host, w, steps, cmd, i, j, call)
    ensures Justified(host, w, steps, cmd, i, j + 1, call)
  {
    hide Run, AnswersAt, SeenAt;
    match call
    case HasSuspension(c, seen) => var m: nat :| i < m <= j && SeenAt(host, w, steps, cmd, seen, m);
    case Won(c) => var m: nat :| i < m <= j && AnswersAt(host, w, steps, cmd, Accepted, m);
    case Saved(c) => var m: nat :| i < m <= j && AnswersAt(host, w, steps, cmd, Accepted, m);
    case Announced(c) => var m: nat :| i < m <= j && AnswersAt(host, w, steps, cmd, Accepted, m);
    case Resumed(c) => var m: nat :| i < m <= j && AnswersAt(host, w, steps, cmd, Accepted, m);
    case Answered(c, a) =>
      if DecidedByStores(a) { var m: nat :| i < m <= j && AnswersAt(host, w, steps, cmd, a, m); }
    case _ =>
  }

  /** A snapshot read earlier in the call still explains a rejection, because no receipt can have existed then. */
  lemma {:induction false} SnapshotExplains(host: Host, home: Key -> string, w: World, now: World, cmd: Command, ok: bool)
    requires Inv(host, home, w) && Inv(host, home, now) && Later(w, now) && SuspKey(cmd) in w.susp
    ensures var next := CheckReceipt(host, now.receipts, cmd, w.susp[SuspKey(cmd)]);
            next.Answered? && DecidedByStores(next.answer) ==>
              AtomicAnswer(now, cmd) == next.answer || (AtomicAnswer(w, cmd) == next.answer && !next.answer.Accepted?)
  {
    var s := w.susp[SuspKey(cmd)];
    assert RecordLater(s, now.susp[SuspKey(cmd)]);
    assert SuspensionOk(home, s) && SuspensionOk(home, now.susp[SuspKey(cmd)]);
  }

  /** A lost compare-and-set is explained by the state in which the suspension is read again. */
  lemma {:induction false} LossExplains(host: Host, home: Key -> string, w: World, cmd: Command)
    requires Inv(host, home, w)
    requires CallOk(host, home, w, Lost(cmd)) || CallOk(host, home, w, LostToSelf(cmd))
    ensures CallOk(host, home, w, Lost(cmd)) ==>
      var next := CheckLost(w.susp, cmd);
      next.Answered? ==> AtomicAnswer(w, cmd) == next.answer && !next.answer.Accepted?
    ensures CallOk(host, home, w, LostToSelf(cmd)) ==>
      AtomicAnswer(w, cmd) == CheckWinner(w.receipts, cmd).answer && !AtomicAnswer(w, cmd).Accepted?
  {
    assert SuspensionOk(home, w.susp[SuspKey(cmd)]);
    if ReceiptKey(cmd) in w.receipts {
      assert ReceiptOk(host, home, w.susp, ReceiptKey(cmd), w.receipts[ReceiptKey(cmd)]);
    }
  }

  /** The receipt lookup: explained by the state it reads, or by the one the snapshot was taken in. */
  lemma {:induction false} JustifyReceiptLookup(host: Host, home: Key -> string, w: World, steps: seq<Step>, cmd: Command, seen: Suspension,
                                                i: nat, j: nat)
    requires Inv(host, home, w) && Disciplined(host, home, steps) && i < j < |steps|
    requires SeenWithin(host, w, steps, cmd, seen, i, j)
    ensures Justified(host, w, steps, cmd, i, j + 1, CheckReceipt(host, Run(host, w, steps, j).receipts, cmd, seen))
  {
    hide Run;
    var now := Run(host, w, steps, j);
    var m: nat :| i < m <= j && SeenAt(host, w, steps, cmd, seen, m);
    RunKeepsInv(host, home, w, steps, m, j);
    RunKeepsInv(host, home, w, steps, m, m);
    SnapshotExplains(host, home, Run(host, w, steps, m), now, cmd, true);
    var next := CheckReceipt(host, now.receipts, cmd, seen);
    if next.Answered? && DecidedByStores(next.answer) {
      assert AnswersAt(host, w, steps, cmd, next.answer, j) || AnswersAt(host, w, steps, cmd, next.answer, m);
    }
  }

  lemma {:induction false} JustifyLoss(host: Host, home: Key -> string, w: World, steps: seq<Step>, call: Call, i: nat, j: nat)
    requires Inv(host, home, w) && Disciplined(host, home, steps) && i < j < |steps|
    requires (call.Lost? || call.LostToSelf?) && CallOk(host, home, Run(host, w, steps, j), call)
    ensures var now := Run(host, w, steps, j);
            Justified(host, w, steps, call.cmd, i, j + 1,
                      if call.Lost? then CheckLost(now.susp, call.cmd) else CheckWinner(now.receipts, call.cmd))
  {
    hide Run, CallOk;
    var now := Run(host, w, steps, j);
    RunKeepsInv(host, home, w, steps, j, j);
    LossExplains(host, home, now, call.cmd);
    var next := if call.Lost? then CheckLost(now.susp, call.cmd) else CheckWinner(now.receipts, call.cmd);
    if next.Answered? {
      assert AnswersAt(host, w, steps, call.cmd, next.answer, j);
    }
  }

  lemma {:induction false} JustifyRead(host: Host, home: Key -> string, w: World, steps: seq<Step>, call: Call, ok: bool, cmd: Command, i: nat, j: nat)
    requires Inv(host, home, w) && Disciplined(host, home, steps) && i < j < |steps|
    requires OnlyReads(call) && CallOk(host, home, Run(host, w, steps, j), call)
    requires Justified(host, w, steps, cmd, i, j, call)
    ensures Justified(host, w, steps, cmd, i, j + 1, AfterRead(host, Run(host, w, steps, j), call, ok))
  {
    hide Run, AnswersWithin, AnswersAt, SeenWithin;
    var now := Run(host, w, steps, j);
    match call
    case Granted(c) =>
      if SuspKey(c) in now.susp { SeenNow(host, w, steps, cmd, i, j); }
    case HasSuspension(c, seen) => JustifyReceiptLookup(host, home, w, steps, cmd, seen, i, j);
    case Lost(c) => JustifyLoss(host, home, w, steps, call, i, j);
    case LostToSelf(c) => JustifyLoss(host, home, w, steps, call, i, j);
    case _ =>
  }

  lemma {:induction false} SeenNow(host: Host, w: World, steps: seq<Step>, cmd: Command, i: nat, j: nat)
    requires i < j < |steps| && SuspKey(cmd) in Run(host, w, steps, j).susp
    ensures SeenWithin(host, w, steps, cmd, Run(host, w, steps, j).susp[SuspKey(cmd)], i, j + 1)
  {
    assert SeenAt(host, w, steps, cmd, Run(host, w, steps, j).susp[SuspKey(cmd)], j);
  }

  /** Winning the compare-and-set is the instant of the accept. */
  lemma {:induction false} JustifyAccept(host: Host, home: Key -> string, w: World, steps: seq<Step>, p: nat, ok: bool, cmd: Command, i: nat, j: nat)
    requires Inv(host, home, w) && Disciplined(host, home, steps) && i < j < |steps| && steps[j] == Next(p, ok)
    requires p in Run(host, w, steps, j).calls && Run(host, w, steps, j).calls[p] == Accepting(cmd)
    requires CanAccept(Run(host, w, steps, j).susp, SuspKey(cmd))
    ensures AnswersWithin(host, w, steps, cmd, Accepted, i, j + 1)
  {
    var now := Run(host, w, steps, j);
    RunKeepsInv(host, home, w, steps, j, j);
    assert CallOk(host, home, now, now.calls[p]);
    NothingExistsForOpen(host, home, now, cmd);
    assert Run(host, w, steps, j + 1) == Advance(host, now, p, ok);
    assert AnswersAt(host, w, steps, cmd, Accepted, j);
  }

  lemma {:induction false} AdvanceLeavesOthers(host: Host, w: World, p: nat, ok: bool, q: nat)
    requires p in w.calls && p != q
    ensures q in Advance(host, w, p, ok).calls <==> q in w.calls
    ensures q in w.calls ==> Advance(host, w, p, ok).calls[q] == w.calls[q]
  {
    hide CheckSuspension, CheckReceipt, AfterValidation, CheckLost, CheckWinner, CheckPending, AcceptIfOpen, MarkDispatched, ReceiptOf, EventOf,
         CommandOf, CanAccept, SuspKey, ReceiptKey, RecordKey;
  }

  /** Only the call's own next action or a crash moves it. */
  lemma {:induction false} OthersLeaveCallAlone(host: Host, w: World, step: Step, p: nat)
    requires p in w.calls && !(step.Next? && step.p == p) && !(step.Crash? && step.p == p)
    ensures p in Exec(host, w, step).calls && Exec(host, w, step).calls[p] == w.calls[p]
  {
    hide Advance;
    if step.Next? && step.p in w.calls {
      AdvanceLeavesOthers(host, w, step.p, step.ok, p);
    }
  }

  lemma {:induction false} OwnRead(host: Host, w: World, p: nat, ok: bool)
    requires p in w.calls && OnlyReads(w.calls[p])
    ensures Advance(host, w, p, ok) == Goto(w, p, AfterRead(host, w, w.calls[p], ok))
  {
    hide CheckSuspension, CheckReceipt, AfterValidation, CheckLost, CheckWinner, CheckPending;
  }

  /** The call after its own next action, as far as it matters to its caller. */
  lemma {:induction false} OwnMove(host: Host, w: World, p: nat, ok: bool)
    requires p in w.calls && !OnlyReads(w.calls[p])
    ensures var call, next := w.calls[p], Advance(host, w, p, ok).calls;
            && p in next
            && (call.Accepting? ==> next[p] == if CanAccept(w.susp, SuspKey(call.cmd)) then Won(call.cmd) else Lost(call.cmd))
            && (call.Won? ==> next[p] == Saved(call.cmd))
            && (call.Saved? ==> next[p] == Announced(call.cmd))
            && (call.Announced? ==> next[p] == if ok then Resumed(call.cmd) else Answered(call.cmd, Accepted))
            && (call.Resumed? ==> next[p] == Answered(call.cmd, Accepted))
            && (call.Answered? || call.Crashed? ==> next[p] == call)
  {
    hide AcceptIfOpen, MarkDispatched, ReceiptOf, EventOf;
  }

  lemma {:induction false} JustifyStep(host: Host, home: Key -> string, w: World, steps: seq<Step>, p: nat, cmd: Command, i: nat, j: nat)
    requires Inv(host, home, w) && Disciplined(host, home, steps) && i < j < |steps|
    requires p in Run(host, w, steps, j).calls && Justified(host, w, steps, cmd, i, j, Run(host, w, steps, j).calls[p])
    ensures p in Run(host, w, steps, j + 1).calls && Justified(host, w, steps, cmd, i, j + 1, Run(host, w, steps, j + 1).calls[p])
  {
    var now, step := Run(host, w, steps, j), steps[j];
    var call := now.calls[p];
    assert Run(host, w, steps, j + 1) == Exec(host, now, step);
    hide Run, AnswersWithin, SeenWithin, Advance, AfterRead;
    JustifiedLater(host, w, steps, cmd, i, j, call);
    if step.Next? && step.p == p {
      RunKeepsInv(host, home, w, steps, j, j);
      assert CallOk(host, home, now, call);
      if OnlyReads(call) { OwnRead(host, now, p, step.ok); } else { OwnMove(host, now, p, step.ok); }
      if OnlyReads(call) {
        JustifyRead(host, home, w, steps, call, step.ok, cmd, i, j);
      } else if call.Accepting? && CanAccept(now.susp, SuspKey(cmd)) {
        JustifyAccept(host, home, w, steps, p, step.ok, cmd, i, j);
      }
    } else if !(step.Crash? && step.p == p) {
      OthersLeaveCallAlone(host, now, step, p);
    }
  }

  lemma {:induction false} SubmissionIsJustified(host: Host, w: World, steps: seq<Step>, p: nat, cmd: Command, i: nat)
    requires i < |steps| && steps[i] == Submit(p, cmd) && p !in Run(host, w, steps, i).calls
    ensures p in Run(host, w, steps, i + 1).calls && Justified(host, w, steps, cmd, i, i + 1, Run(host, w, steps, i + 1).calls[p])
  {
    RunStep(host, w, steps, i);
    hide Run;
  }

  /** Everything a submitted call holds or answers is explained by a state between its start and now. */
  lemma {:induction false} CallIsJustified(host: Host, home: Key -> string, w: World, steps: seq<Step>, p: nat, cmd: Command, i: nat, j: nat)
    requires Inv(host, home, w) && Disciplined(host, home, steps) && i < j <= |steps|
    requires steps[i] == Submit(p, cmd) && p !in Run(host, w, steps, i).calls
    ensures p in Run(host, w, steps, j).calls && Justified(host, w, steps, cmd, i, j, Run(host, w, steps, j).calls[p])
  {
    hide *;
    if j == i + 1 {
      SubmissionIsJustified(host, w, steps, p, cmd, i);
    } else {
      CallIsJustified(host, home, w, steps, p, cmd, i, j - 1);
      JustifyStep(host, home, w, steps, p, cmd, i, j - 1);
    }
  }

  /**
   * `submit_action` is linearizable: under any interleaving with other calls, reconcilers, expiry,
   * retention and crashes, every answer decided by the stores is what a one-step accept would have
   * answered in some state inside the call. TASK_CONFLICT is the answer of a state in which the
   * suspension is resolved by this very action id and its receipt is not saved.
   */
  lemma {:induction false} SubmitIsLinearizable(host: Host, home: Key -> string, w: World, steps: seq<Step>, p: nat, cmd: Command, a: Answer,
                                                i: nat, j: nat) returns (m: nat)
    requires Inv(host, home, w) && Disciplined(host, home, steps) && i < j <= |steps|
    requires steps[i] == Submit(p, cmd) && p !in Run(host, w, steps, i).calls
    requires p in Run(host, w, steps, j).calls && Run(host, w, steps, j).calls[p] == Answered(cmd, a) && DecidedByStores(a)
    ensures i < m <= j && AnswersAt(host, w, steps, cmd, a, m)
    ensures a.TaskConflict? ==>
      ResolvedBy(Run(host, w, steps, m).susp, SuspKey(cmd), cmd.clientActionId) && ReceiptKey(cmd) !in Run(host, w, steps, m).receipts
  {
    hide Run;
    CallIsJustified(host, home, w, steps, p, cmd, i, j);
    m :| i < m <= j && AnswersAt(host, w, steps, cmd, a, m);
  }

  /** What a call can be doing once its action id has a saved receipt. */
  ghost predicate SettledByReceipt(r: Receipt, cmd: Command, call: Call) {
    match call
    case Granted(c) => c == cmd
    case HasSuspension(c, _) => c == cmd
    case Crashed => true
    case Answered(c, a) =>
      && c == cmd
      && if CommandOf(r).(subject := cmd.subject) == cmd then a.Deduplicated?
         else a.IdempotencyConflict? || a.ActionNotAllowed? || a.InvalidRequest? || (a.NotFound? && r.suspendId != cmd.suspendId)
    case _ => false
  }

  lemma {:induction false} ReceiptSettlesRead(host: Host, home: Key -> string, w: World, call: Call, ok: bool, r: Receipt, cmd: Command)
    requires Inv(host, home, w) && OnlyReads(call)
    requires ReceiptKey(cmd) in w.receipts && w.receipts[ReceiptKey(cmd)] == r && SettledByReceipt(r, cmd, call)
    ensures SettledByReceipt(r, cmd, AfterRead(host, w, call, ok))
  {
    hide Inv, CheckLost, CheckWinner, CheckPending, AfterValidation;
    ReceiptOfCommand(host, home, w, cmd);
  }

  lemma {:induction false} ReceiptOfCommand(host: Host, home: Key -> string, w: World, cmd: Command)
    requires Inv(host, home, w) && ReceiptKey(cmd) in w.receipts
    ensures var r := w.receipts[ReceiptKey(cmd)];
      && r.taskId == cmd.taskId && r.clientActionId == cmd.clientActionId
      && Admitted(host, w.susp, (r.taskId, r.suspendId), r.actionType, r.metadata)
  {
    hide CallsOk, OneWinner;
    assert ReceiptOk(host, home, w.susp, ReceiptKey(cmd), w.receipts[ReceiptKey(cmd)]);
  }

  /**
   * Idempotency is permanent: once the receipt of an action id is saved, every call with that id that
   * passes the access check afterwards can only be answered DEDUPLICATED if it equals the command the
   * receipt was saved for, up to the sender, and only be refused if it differs in the suspension, the
   * action type, the payload or the metadata, through any number of retention passes.
   */
  lemma {:induction false} IdempotencyIsPermanent(host: Host, home: Key -> string, w: World, steps: seq<Step>, p: nat, cmd: Command, r: Receipt,
                                                  i: nat, j: nat)
    requires Inv(host, home, w) && Disciplined(host, home, steps) && i <= j <= |steps|
    requires ReceiptKey(cmd) in Run(host, w, steps, i).receipts && Run(host, w, steps, i).receipts[ReceiptKey(cmd)] == r
    requires p in Run(host, w, steps, i).calls && Run(host, w, steps, i).calls[p] == Granted(cmd)
    ensures p in Run(host, w, steps, j).calls && SettledByReceipt(r, cmd, Run(host, w, steps, j).calls[p])
    ensures ReceiptKey(cmd) in Run(host, w, steps, j).receipts && Run(host, w, steps, j).receipts[ReceiptKey(cmd)] == r
  {
    hide *;
    RunKeepsInv(host, home, w, steps, i, j);
    LaterKeepsReceipt(Run(host, w, steps, i), Run(host, w, steps, j), ReceiptKey(cmd));
    if i == j {
      GrantedIsSettled(r, cmd);
    } else {
      IdempotencyIsPermanent(host, home, w, steps, p, cmd, r, i, j - 1);
      var now, step := Run(host, w, steps, j - 1), steps[j - 1];
      RunKeepsInv(host, home, w, steps, j - 1, j - 1);
      SettledStep(host, home, now, step, p, cmd, r);
      RunStep(host, w, steps, j - 1);
    }
  }

  lemma {:induction false} LaterKeepsReceipt(w: World, w': World, key: Key)
    requires Later(w, w') && key in w.receipts
    ensures key in w'.receipts && w'.receipts[key] == w.receipts[key]
  {
  }

  lemma {:induction false} GrantedIsSettled(r: Receipt, cmd: Command)
    ensures SettledByReceipt(r, cmd, Granted(cmd))
  {
  }

  lemma {:induction false} SettledStep(host: Host, home: Key -> string, w: World, step: Step, p: nat, cmd: Command, r: Receipt)
    requires Inv(host, home, w) && p in w.calls
    requires ReceiptKey(cmd) in w.receipts && w.receipts[ReceiptKey(cmd)] == r && SettledByReceipt(r, cmd, w.calls[p])
    ensures p in Exec(host, w, step).calls && SettledByReceipt(r, cmd, Exec(host, w, step).calls[p])
  {
    if step.Next? && step.p == p {
      if OnlyReads(w.calls[p]) {
        OwnRead(host, w, p, step.ok);
        ReceiptSettlesRead(host, home, w, w.calls[p], step.ok, r, cmd);
      } else {
        OwnMove(host, w, p, step.ok);
      }
    } else if !(step.Crash? && step.p == p) {
      OthersLeaveCallAlone(host, w, step, p);
    }
  }

  /**
   * In every reachable state a saved receipt means the suspension it names is resolved by its action
   * and is either waiting to be handed off or handed off; and all resumes of one suspension, by the
   * winner or by a reconciler, carry the same command, the one in the receipt.
   */
  lemma {:induction false} HandoffIsNeverLost(host: Host, home: Key -> string, w: World, steps: seq<Step>, k: nat)
    requires Inv(host, home, w) && Disciplined(host, home, steps) && k <= |steps|
    ensures var now := Run(host, w, steps, k);
            && (forall key :: key in now.receipts ==>
                  var r := now.receipts[key];
                  && ResolvedBy(now.susp, (r.taskId, r.suspendId), r.clientActionId)
                  && !now.susp[(r.taskId, r.suspendId)].handoff.NoHandoff?)
            && (forall c, d :: c in now.resumes && d in now.resumes && SuspKey(c) == SuspKey(d) ==> c == d)
            && (forall key :: key in now.susp && now.susp[key].handoff.Dispatched? ==>
                  exists c :: c in now.resumes && SuspKey(c) == key && HasReceiptOf(now.receipts, c))
  {
    RunKeepsInv(host, home, w, steps, k, k);
    var now := Run(host, w, steps, k);
    hide Run;
    forall key | key in now.receipts
      ensures ResolvedBy(now.susp, (now.receipts[key].taskId, now.receipts[key].suspendId), now.receipts[key].clientActionId)
      ensures !now.susp[(now.receipts[key].taskId, now.receipts[key].suspendId)].handoff.NoHandoff?
    {
      var r := now.receipts[key];
      assert ReceiptOk(host, home, now.susp, key, r);
      assert SuspensionOk(home, now.susp[(r.taskId, r.suspendId)]);
    }
    forall c, d | c in now.resumes && d in now.resumes && SuspKey(c) == SuspKey(d) ensures c == d {
      ResumeIsTheReceipt(host, home, now, c);
      ResumeIsTheReceipt(host, home, now, d);
    }
    forall key | key in now.susp && now.susp[key].handoff.Dispatched?
      ensures exists c :: c in now.resumes && SuspKey(c) == key && HasReceiptOf(now.receipts, c)
    {
      assert DispatchOk(now, key);
      var c :| c in now.resumes && SuspKey(c) == key;
      ResumeIsTheReceipt(host, home, now, c);
    }
  }

  lemma {:induction false} ResumeIsTheReceipt(host: Host, home: Key -> string, w: World, c: Command)
    requires Inv(host, home, w) && c in w.resumes
    ensures HasReceiptOf(w.receipts, c) && ResolvedBy(w.susp, SuspKey(c), c.clientActionId)
  {
    var i :| 0 <= i < |w.resumes| && w.resumes[i] == c;
    assert HasReceiptOf(w.receipts, w.resumes[i]);
    assert ReceiptOk(host, home, w.susp, ReceiptKey(c), w.receipts[ReceiptKey(c)]);
  }

  /** As long as no action id is used on two suspensions, the receipt an event was announced with is there to stay. */
  lemma {:induction false} AnnouncedReceiptsStay(host: Host, home: Key -> string, w: World, steps: seq<Step>, j: nat, k: nat, e: AcceptedEvent)
    requires Inv(host, home, w) && Disciplined(host, home, steps) && j <= k <= |steps|
    requires e in Run(host, w, steps, j).events
    ensures EventOk(Run(host, w, steps, j).receipts, e)
    ensures var key := (e.taskId, e.clientActionId);
      key in Run(host, w, steps, k).receipts && Run(host, w, steps, k).receipts[key] == Run(host, w, steps, j).receipts[key]
  {
    RunKeepsInv(host, home, w, steps, j, k);
    RunKeepsInv(host, home, w, steps, j, j);
    var before := Run(host, w, steps, j);
    var i :| 0 <= i < |before.events| && before.events[i] == e;
    assert EventOk(before.receipts, before.events[i]);
  }
}
