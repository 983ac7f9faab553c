/**
 * Accepting client actions, as small steps of many concurrent calls over durable stores. Each
 * `await` of the service is one step; a call may crash between any two of them.
 */
module ActionProtocol {
  import opened Options
  import opened ActionStores

  datatype Command = Command(
    taskId: string,
    clientActionId: string,
    suspendId: string,
    actionType: string,
    payload: Json,
    metadata: Json,
    subject: string)

  const A2UI_ACTION := "a2ui_action"

  /** What the host plugged in. */
  datatype Host = Host(hasValidationPolicy: bool, hasResumeService: bool)

  datatype Answer =
    | Accepted
    | Deduplicated
    | RejectedAlreadyResolved
    | RejectedExpired
    | IdempotencyConflict
    | TaskConflict
    | ActionNotAllowed
    | InvalidRequest
    | NotFound
    | PolicyRefused
    | NoResumeService

  /** A call at the point before its next atomic action. */
  datatype Call =
    | Begun(cmd: Command)
    | Granted(cmd: Command)
    | HasSuspension(cmd: Command, seen: Suspension)
    | Validating(cmd: Command)
    | Accepting(cmd: Command)
    | Lost(cmd: Command)
    | LostToSelf(cmd: Command)
    | Won(cmd: Command)
    | Saved(cmd: Command)
    | Announced(cmd: Command)
    | Resumed(cmd: Command)
    | Answered(cmd: Command, answer: Answer)
    | Crashed
    | Reconciling(todo: seq<Suspension>, processed: nat)
    | HasReceipt(todo: seq<Suspension>, receipt: Receipt, processed: nat)
    | ReResumed(todo: seq<Suspension>, processed: nat)
    | Reconciled(processed: nat)
    | ReconcileFailed

  /** The TASK_ACTION_ACCEPTED event. */
  datatype AcceptedEvent = AcceptedEvent(taskId: string, suspendId: string, clientActionId: string, actionType: string)

  datatype World = World(
    susp: Suspensions,
    receipts: Receipts,
    events: seq<AcceptedEvent>,
    resumes: seq<Command>,
    calls: map<nat, Call>)

  /** One atomic step; `ok` is the environment's answer to access checks and host hooks. */
  datatype Step =
    | Submit(p: nat, cmd: Command)
    | Next(p: nat, ok: bool)
    | Crash(p: nat)
    | Reconcile(p: nat, listing: seq<Suspension>)
    | OpenSuspension(record: Suspension)
    | PruneReceipts(now: int)
    | ExpireSuspensions(now: int)

  function SuspKey(cmd: Command): Key { (cmd.taskId, cmd.suspendId) }

  function ReceiptKey(cmd: Command): Key { (cmd.taskId, cmd.clientActionId) }

  function ReceiptOf(cmd: Command): Receipt {
    Receipt(cmd.taskId, cmd.suspendId, cmd.clientActionId, cmd.actionType, cmd.payload, cmd.metadata, cmd.subject, None)
  }

  /** The command a reconciler rebuilds from a receipt. */
  function CommandOf(r: Receipt): Command {
    Command(r.taskId, r.clientActionId, r.suspendId, r.actionType, r.payload, r.metadata, r.actorId)
  }

  predicate SameAction(r: Receipt, cmd: Command) {
    r.suspendId == cmd.suspendId && r.actionType == cmd.actionType && r.payload == cmd.payload && r.metadata == cmd.metadata
  }

  function EventOf(cmd: Command): AcceptedEvent {
    AcceptedEvent(cmd.taskId, cmd.suspendId, cmd.clientActionId, cmd.actionType)
  }

  predicate NeedsHost(cmd: Command) { cmd.actionType == A2UI_ACTION }

  /** The checks on the suspension just read. */
  function CheckSuspension(cmd: Command, s: Suspension): Call {
    if cmd.actionType !in s.allowedActions then Answered(cmd, ActionNotAllowed)
    else if NeedsHost(cmd) && cmd.metadata == map[] then Answered(cmd, InvalidRequest)
    else HasSuspension(cmd, s)
  }

  /** What the call does with the receipt it found, or with the earlier snapshot if there is none. */
  function CheckReceipt(host: Host, receipts: Receipts, cmd: Command, seen: Suspension): Call {
    if ReceiptKey(cmd) in receipts then
      Answered(cmd, if SameAction(receipts[ReceiptKey(cmd)], cmd) then Deduplicated else IdempotencyConflict)
    else if seen.status.Expired? then Answered(cmd, RejectedExpired)
    else if !seen.status.Open? then
      Answered(cmd, if seen.successfulActionId == Some(cmd.clientActionId) then TaskConflict else RejectedAlreadyResolved)
    else if NeedsHost(cmd) && !host.hasValidationPolicy then Answered(cmd, InvalidRequest)
    else Validating(cmd)
  }

  function AfterValidation(host: Host, cmd: Command, ok: bool): Call {
    if host.hasValidationPolicy && !ok then Answered(cmd, PolicyRefused)
    else if NeedsHost(cmd) && !host.hasResumeService then Answered(cmd, NoResumeService)
    else Accepting(cmd)
  }

  /** After a lost compare-and-set: what the fresh suspension record says. */
  function CheckLost(susp: Suspensions, cmd: Command): Call {
    if SuspKey(cmd) !in susp then Answered(cmd, NotFound)
    else
      var current := susp[SuspKey(cmd)];
      if current.successfulActionId == Some(cmd.clientActionId) then LostToSelf(cmd)
      else Answered(cmd, if current.status.Expired? then RejectedExpired else RejectedAlreadyResolved)
  }

  function CheckWinner(receipts: Receipts, cmd: Command): Call {
    if ReceiptKey(cmd) !in receipts then Answered(cmd, TaskConflict)
    else Answered(cmd, if SameAction(receipts[ReceiptKey(cmd)], cmd) then Deduplicated else IdempotencyConflict)
  }

  /** A reconciler looks at the first record still to do: skip it, give up, or go on with its receipt. */
  function CheckPending(host: Host, receipts: Receipts, todo: seq<Suspension>, processed: nat): Call
    requires todo != []
  {
    var s, rest := todo[0], todo[1..];
    if s.successfulActionId.None? then Reconciling(rest, processed)
    else
      var key := (s.taskId, s.successfulActionId.value);
      if key !in receipts then Reconciling(rest, processed)
      else
        var r := receipts[key];
        if r.actionType == A2UI_ACTION && r.metadata == map[] then Reconciling(rest, processed)
        else if r.actionType == A2UI_ACTION && !host.hasResumeService then ReconcileFailed
        else HasReceipt(todo, r, processed)
  }

  function Goto(w: World, p: nat, call: Call): World {
    w.(calls := w.calls[p := call])
  }

  /** The next atomic action of call `p`. */
  function Advance(host: Host, w: World, p: nat, ok: bool): World
    requires p in w.calls
  {
    match w.calls[p]
    case Begun(cmd) => Goto(w, p, if ok then Granted(cmd) else Answered(cmd, NotFound))
    case Granted(cmd) =>
      Goto(w, p, if SuspKey(cmd) in w.susp then CheckSuspension(cmd, w.susp[SuspKey(cmd)]) else Answered(cmd, NotFound))
    case HasSuspension(cmd, seen) => Goto(w, p, CheckReceipt(host, w.receipts, cmd, seen))
    case Validating(cmd) => Goto(w, p, AfterValidation(host, cmd, ok))
    case Accepting(cmd) =>
      Goto(w.(susp := AcceptIfOpen(w.susp, SuspKey(cmd), cmd.clientActionId)), p,
           if CanAccept(w.susp, SuspKey(cmd)) then Won(cmd) else Lost(cmd))
    case Lost(cmd) => Goto(w, p, CheckLost(w.susp, cmd))
    case LostToSelf(cmd) => Goto(w, p, CheckWinner(w.receipts, cmd))
    case Won(cmd) => Goto(w.(receipts := w.receipts[ReceiptKey(cmd) := ReceiptOf(cmd)]), p, Saved(cmd))
    case Saved(cmd) => Goto(w.(events := w.events + [EventOf(cmd)]), p, Announced(cmd))
    case Announced(cmd) =>
      Goto(w.(resumes := w.resumes + [cmd]), p, if ok then Resumed(cmd) else Answered(cmd, Accepted))
    case Resumed(cmd) => Goto(w.(susp := MarkDispatched(w.susp, SuspKey(cmd))), p, Answered(cmd, Accepted))
    case Reconciling(todo, n) =>
      Goto(w, p, if todo == [] then Reconciled(n) else CheckPending(host, w.receipts, todo, n))
    case HasReceipt(todo, r, n) =>
      Goto(w.(resumes := w.resumes + [CommandOf(r)]), p, if ok then ReResumed(todo, n) else ReconcileFailed)
    case ReResumed(todo, n) =>
      if todo == [] then w
      else Goto(w.(susp := MarkDispatched(w.susp, RecordKey(todo[0]))), p, Reconciling(todo[1..], n + 1))
    case _ => w
  }

  /** A step that is not enabled leaves the world alone. */
  ghost function Exec(host: Host, w: World, step: Step): World {
    match step
    case Submit(p, cmd) => if p in w.calls then w else Goto(w, p, Begun(cmd))
    case Next(p, ok) => if p in w.calls then Advance(host, w, p, ok) else w
    case Crash(p) => if p in w.calls then Goto(w, p, Crashed) else w
    case Reconcile(p, listing) => if p in w.calls || !IsListing(w.susp, listing) then w else Goto(w, p, Reconciling(listing, 0))
    case OpenSuspension(record) =>
      if RecordKey(record) in w.susp || !IsUntouched(record) then w else w.(susp := w.susp[RecordKey(record) := record])
    case PruneReceipts(now) => w.(receipts := DeleteExpired(w.receipts, now))
    case ExpireSuspensions(now) => w.(susp := ExpireOpen(w.susp, now))
  }

  /** The world after the first `k` steps. */
  ghost function Run(host: Host, w: World, steps: seq<Step>, k: nat): World
    requires k <= |steps|
  {
    if k == 0 then w else Exec(host, Run(host, w, steps, k - 1), steps[k - 1])
  }

  lemma {:induction false} RunStep(host: Host, w: World, steps: seq<Step>, k: nat)
    requires k < |steps|
    ensures Run(host, w, steps, k + 1) == Exec(host, Run(host, w, steps, k), steps[k])
  {
  }

  /** Nothing about the command or the host rules an accept out. */
  predicate CanBeAccepted(host: Host, cmd: Command) {
    NeedsHost(cmd) ==> cmd.metadata != map[] && host.hasValidationPolicy && host.hasResumeService
  }

  /** Each action id of a task is only ever used, as far as it could be accepted, on one suspension: `home` says which. */
  ghost predicate Disciplined(host: Host, home: Key -> string, steps: seq<Step>) {
    forall k :: 0 <= k < |steps| ==> (steps[k].Submit? ==> Homely(host, home, steps[k].cmd))
  }

  ghost predicate Homely(host: Host, home: Key -> string, cmd: Command) {
    CanBeAccepted(host, cmd) ==> AtHome(home, cmd)
  }

  ghost predicate AtHome(home: Key -> string, cmd: Command) {
    home(ReceiptKey(cmd)) == cmd.suspendId
  }

  /** No action has been accepted for the suspension. */
  ghost predicate IsUntouched(s: Suspension) {
    !s.status.Resolved? && s.successfulActionId == None && s.handoff.NoHandoff?
  }

  /** A start with no calls, no receipts and nothing resolved. */
  ghost predicate Initial(w: World) {
    && WellKeyed(w.susp)
    && (forall key :: key in w.susp ==> IsUntouched(w.susp[key]))
    && w.receipts == map[] && w.events == [] && w.resumes == [] && w.calls == map[]
  }
}
