/** What every reachable state of the action protocol keeps, under any interleaving and crashes. */
module ActionInvariant {
  import opened Options
  import opened ActionStores
  import opened ActionProtocol

  ghost predicate SuspensionOk(home: Key -> string, s: Suspension) {
    && (s.status.Resolved? <==> s.successfulActionId.Some?)
    && (s.successfulActionId.Some? <==> !s.handoff.NoHandoff?)
    && (s.successfulActionId.Some? ==> home((s.taskId, s.successfulActionId.value)) == s.suspendId)
  }

  ghost predicate SuspensionsOk(home: Key -> string, susp: Suspensions) {
    WellKeyed(susp) && forall key :: key in susp ==> SuspensionOk(home, susp[key])
  }

  /** The suspension was resolved by this action. */
  ghost predicate ResolvedBy(susp: Suspensions, key: Key, clientActionId: string) {
    key in susp && susp[key].successfulActionId == Some(clientActionId)
  }

  /** An action that passed the checks made before the compare-and-set. */
  ghost predicate Admitted(host: Host, susp: Suspensions, key: Key, actionType: string, metadata: Json) {
    && key in susp && actionType in susp[key].allowedActions
    && (actionType == A2UI_ACTION ==> metadata != map[] && host.hasResumeService)
  }

  ghost predicate ReceiptOk(host: Host, home: Key -> string, susp: Suspensions, key: Key, r: Receipt) {
    && key == (r.taskId, r.clientActionId) && r.expiresAt.None? && home(key) == r.suspendId
    && ResolvedBy(susp, (r.taskId, r.suspendId), r.clientActionId)
    && Admitted(host, susp, (r.taskId, r.suspendId), r.actionType, r.metadata)
  }

  ghost predicate ReceiptsOk(host: Host, home: Key -> string, w: World) {
    forall key :: key in w.receipts ==> ReceiptOk(host, home, w.susp, key, w.receipts[key])
  }

  ghost predicate HasReceiptOf(receipts: Receipts, cmd: Command) {
    ReceiptKey(cmd) in receipts && receipts[ReceiptKey(cmd)] == ReceiptOf(cmd)
  }

  /** The event's receipt was saved before it. */
  ghost predicate EventOk(receipts: Receipts, e: AcceptedEvent) {
    var key := (e.taskId, e.clientActionId);
    key in receipts && receipts[key].suspendId == e.suspendId && receipts[key].actionType == e.actionType
  }

  function EventKey(e: AcceptedEvent): Key { (e.taskId, e.suspendId) }

  ghost predicate EventsOk(w: World) {
    && (forall i :: 0 <= i < |w.events| ==> EventOk(w.receipts, w.events[i]))
    && (forall i, j :: 0 <= i < j < |w.events| ==> EventKey(w.events[i]) != EventKey(w.events[j]))
  }

  ghost predicate ResumesOk(w: World) {
    forall i :: 0 <= i < |w.resumes| ==> HasReceiptOf(w.receipts, w.resumes[i])
  }

  /** A dispatched suspension has its receipt, and a resume was made from it. */
  ghost predicate DispatchOk(w: World, key: Key) {
    key in w.susp && w.susp[key].handoff.Dispatched? ==>
      exists cmd :: cmd in w.resumes && SuspKey(cmd) == key
  }

  ghost predicate DispatchesOk(w: World) {
    forall key :: key in w.susp ==> DispatchOk(w, key)
  }

  ghost predicate StoresOk(host: Host, home: Key -> string, w: World) {
    SuspensionsOk(home, w.susp) && ReceiptsOk(host, home, w) && EventsOk(w) && ResumesOk(w) && DispatchesOk(w)
  }

  /** The call that won the compare-and-set of its suspension, until it crashes. */
  predicate Winning(call: Call) {
    call.Won? || call.Saved? || call.Announced? || call.Resumed? || (call.Answered? && call.answer.Accepted?)
  }

  ghost predicate TodoOk(susp: Suspensions, todo: seq<Suspension>) {
    forall i :: 0 <= i < |todo| ==>
      todo[i].successfulActionId.Some? && ResolvedBy(susp, RecordKey(todo[i]), todo[i].successfulActionId.value)
  }

  /** What a call knows; stable under every step of the others. */
  ghost predicate CallOk(host: Host, home: Key -> string, w: World, call: Call) {
    match call
    case Begun(cmd) => Homely(host, home, cmd)
    case Granted(cmd) => Homely(host, home, cmd)
    case HasSuspension(cmd, seen) =>
      && Homely(host, home, cmd) && SuspKey(cmd) in w.susp
      && cmd.actionType in w.susp[SuspKey(cmd)].allowedActions && (NeedsHost(cmd) ==> cmd.metadata != map[])
    case Validating(cmd) =>
      && Homely(host, home, cmd) && SuspKey(cmd) in w.susp
      && cmd.actionType in w.susp[SuspKey(cmd)].allowedActions && (NeedsHost(cmd) ==> cmd.metadata != map[] && host.hasValidationPolicy)
    case Accepting(cmd) => AtHome(home, cmd) && Admitted(host, w.susp, SuspKey(cmd), cmd.actionType, cmd.metadata)
    case Lost(cmd) =>
      && AtHome(home, cmd) && Admitted(host, w.susp, SuspKey(cmd), cmd.actionType, cmd.metadata)
      && !w.susp[SuspKey(cmd)].status.Open?
    case LostToSelf(cmd) => AtHome(home, cmd) && ResolvedBy(w.susp, SuspKey(cmd), cmd.clientActionId)
    case Won(cmd) =>
      && AtHome(home, cmd) && ResolvedBy(w.susp, SuspKey(cmd), cmd.clientActionId)
      && Admitted(host, w.susp, SuspKey(cmd), cmd.actionType, cmd.metadata)
    case Saved(cmd) => AtHome(home, cmd) && HasReceiptOf(w.receipts, cmd)
    case Announced(cmd) => AtHome(home, cmd) && HasReceiptOf(w.receipts, cmd)
    case Resumed(cmd) => AtHome(home, cmd) && HasReceiptOf(w.receipts, cmd) && cmd in w.resumes
    case Answered(cmd, answer) => answer.Accepted? ==> AtHome(home, cmd) && HasReceiptOf(w.receipts, cmd)
    case Reconciling(todo, n) => TodoOk(w.susp, todo)
    case HasReceipt(todo, r, n) =>
      && TodoOk(w.susp, todo) && todo != [] && RecordKey(todo[0]) == (r.taskId, r.suspendId)
      && HasReceiptOf(w.receipts, CommandOf(r))
    case ReResumed(todo, n) =>
      && TodoOk(w.susp, todo) && todo != []
      && exists cmd :: cmd in w.resumes && SuspKey(cmd) == RecordKey(todo[0])
    case _ => true
  }

  /** What a winner is about to create does not exist yet. */
  ghost predicate NotYetDone(w: World, call: Call) {
    && (call.Won? ==> ReceiptKey(call.cmd) !in w.receipts)
    && (call.Won? || call.Saved? ==> forall i :: 0 <= i < |w.events| ==> EventKey(w.events[i]) != SuspKey(call.cmd))
  }

  ghost predicate CallsOk(host: Host, home: Key -> string, w: World) {
    forall p :: p in w.calls ==> CallOk(host, home, w, w.calls[p]) && NotYetDone(w, w.calls[p])
  }

  /** At most one call ever wins a suspension. */
  ghost predicate OneWinner(w: World) {
    forall p, q :: p in w.calls && q in w.calls && p != q && Winning(w.calls[p]) && Winning(w.calls[q]) ==>
      SuspKey(w.calls[p].cmd) != SuspKey(w.calls[q].cmd)
  }

  ghost predicate Inv(host: Host, home: Key -> string, w: World) {
    StoresOk(host, home, w) && CallsOk(host, home, w) && OneWinner(w)
  }

  function Rank(h: HandoffStatus): nat {
    match h case NoHandoff => 0 case Pending => 1 case Dispatched => 2
  }

  /** A suspension record only moves forward; a closed status and its winner are permanent. */
  ghost predicate RecordLater(s: Suspension, s': Suspension) {
    && RecordKey(s') == RecordKey(s) && s'.allowedActions == s.allowedActions
    && (!s.status.Open? ==> s'.status == s.status && s'.successfulActionId == s.successfulActionId)
    && Rank(s.handoff) <= Rank(s'.handoff)
    && (s.successfulActionId.Some? ==> s'.successfulActionId == s.successfulActionId)
  }

  ghost predicate SuspLater(susp: Suspensions, susp': Suspensions) {
    susp.Keys <= susp'.Keys && forall key :: key in susp ==> RecordLater(susp[key], susp'[key])
  }

  /** Nothing durable is ever undone. */
  ghost predicate Later(w: World, w': World) {
    && SuspLater(w.susp, w'.susp)
    && (forall key :: key in w.receipts ==> key in w'.receipts && w'.receipts[key] == w.receipts[key])
    && w.events <= w'.events && w.resumes <= w'.resumes
  }

  lemma {:induction false} LaterTransitive(a: World, b: World, c: World)
    requires Later(a, b) && Later(b, c)
    ensures Later(a, c)
  {
    forall key | key in a.susp ensures RecordLater(a.susp[key], c.susp[key]) {
      assert RecordLater(a.susp[key], b.susp[key]) && RecordLater(b.susp[key], c.susp[key]);
    }
  }

  lemma {:induction false} CallOkIsStable(host: Host, home: Key -> string, w: World, w': World, call: Call)
    requires Later(w, w') && CallOk(host, home, w, call)
    ensures CallOk(host, home, w', call)
  {
    match call
    case HasSuspension(cmd, seen) => assert RecordLater(w.susp[SuspKey(cmd)], w'.susp[SuspKey(cmd)]);
    case Validating(cmd) => assert RecordLater(w.susp[SuspKey(cmd)], w'.susp[SuspKey(cmd)]);
    case Accepting(cmd) => assert RecordLater(w.susp[SuspKey(cmd)], w'.susp[SuspKey(cmd)]);
    case Lost(cmd) => assert RecordLater(w.susp[SuspKey(cmd)], w'.susp[SuspKey(cmd)]);
    case LostToSelf(cmd) => assert RecordLater(w.susp[SuspKey(cmd)], w'.susp[SuspKey(cmd)]);
    case Won(cmd) => assert RecordLater(w.susp[SuspKey(cmd)], w'.susp[SuspKey(cmd)]);
    case Reconciling(todo, _) => TodoIsStable(w.susp, w'.susp, todo);
    case HasReceipt(todo, _, _) => TodoIsStable(w.susp, w'.susp, todo);
    case ReResumed(todo, _) => TodoIsStable(w.susp, w'.susp, todo);
    case _ =>
  }

  lemma {:induction false} TodoIsStable(susp: Suspensions, susp': Suspensions, todo: seq<Suspension>)
    requires SuspLater(susp, susp') && TodoOk(susp, todo)
    ensures TodoOk(susp', todo)
  {
    forall i | 0 <= i < |todo|
      ensures todo[i].successfulActionId.Some? && ResolvedBy(susp', RecordKey(todo[i]), todo[i].successfulActionId.value)
    {
      assert RecordLater(susp[RecordKey(todo[i])], susp'[RecordKey(todo[i])]);
    }
  }

  lemma {:induction false} ReceiptsAreStable(host: Host, home: Key -> string, w: World, susp': Suspensions)
    requires ReceiptsOk(host, home, w) && SuspLater(w.susp, susp')
    ensures ReceiptsOk(host, home, w.(susp := susp'))
  {
    forall key | key in w.receipts ensures ReceiptOk(host, home, susp', key, w.receipts[key]) {
      var r := w.receipts[key];
      assert ReceiptOk(host, home, w.susp, key, r);
      assert RecordLater(w.susp[(r.taskId, r.suspendId)], susp'[(r.taskId, r.suspendId)]);
    }
  }

  lemma {:induction false} InitialIsOk(host: Host, home: Key -> string, w: World)
    requires Initial(w)
    ensures Inv(host, home, w)
  {
  }

  /** A move of one call keeps the invariant if the stores stay in order and the call knows its part. */
  lemma {:induction false} MoveKeepsInv(host: Host, home: Key -> string, w: World, w': World, p: nat)
    requires Inv(host, home, w) && Later(w, w') && StoresOk(host, home, w')
    requires p in w'.calls && w'.calls.Keys == w.calls.Keys + {p}
    requires forall q :: q in w.calls && q != p ==> w'.calls[q] == w.calls[q] && NotYetDone(w', w.calls[q])
    requires CallOk(host, home, w', w'.calls[p]) && NotYetDone(w', w'.calls[p])
    requires Winning(w'.calls[p]) ==>
      forall q :: q in w.calls && q != p && Winning(w.calls[q]) ==> SuspKey(w.calls[q].cmd) != SuspKey(w'.calls[p].cmd)
    ensures Inv(host, home, w')
  {
    forall q | q in w'.calls ensures CallOk(host, home, w', w'.calls[q]) && NotYetDone(w', w'.calls[q]) {
      if q != p {
        CallOkIsStable(host, home, w, w', w.calls[q]);
      }
    }
  }

  /** A step that leaves the calls alone keeps the invariant if it keeps the stores in order. */
  lemma {:induction false} StoreChangeKeepsInv(host: Host, home: Key -> string, w: World, w': World)
    requires Inv(host, home, w) && Later(w, w') && StoresOk(host, home, w')
    requires w'.calls == w.calls && w'.events == w.events && w'.receipts == w.receipts
    ensures Inv(host, home, w')
  {
    forall q | q in w'.calls ensures CallOk(host, home, w', w'.calls[q]) && NotYetDone(w', w'.calls[q]) {
      CallOkIsStable(host, home, w, w', w.calls[q]);
    }
  }

  lemma {:induction false} LaterReflexive(w: World)
    ensures Later(w, w)
  {
  }

  /** Steps that only read. */
  predicate OnlyReads(call: Call) {
    call.Begun? || call.Granted? || call.HasSuspension? || call.Validating? || call.Lost? || call.LostToSelf? || call.Reconciling?
  }

  /** The call after a step that only reads. */
  function AfterRead(host: Host, w: World, call: Call, ok: bool): Call
    requires OnlyReads(call)
  {
    match call
    case Begun(cmd) => if ok then Granted(cmd) else Answered(cmd, NotFound)
    case Granted(cmd) => if SuspKey(cmd) in w.susp then CheckSuspension(cmd, w.susp[SuspKey(cmd)]) else Answered(cmd, NotFound)
    case HasSuspension(cmd, seen) => CheckReceipt(host, w.receipts, cmd, seen)
    case Validating(cmd) => AfterValidation(host, cmd, ok)
    case Lost(cmd) => CheckLost(w.susp, cmd)
    case LostToSelf(cmd) => CheckWinner(w.receipts, cmd)
    case Reconciling(todo, n) => if todo == [] then Reconciled(n) else CheckPending(host, w.receipts, todo, n)
  }

  lemma {:induction false} ReconcilerReads(host: Host, home: Key -> string, w: World, todo: seq<Suspension>, n: nat)
    requires SuspensionsOk(home, w.susp) && ReceiptsOk(host, home, w) && TodoOk(w.susp, todo) && todo != []
    ensures CallOk(host, home, w, CheckPending(host, w.receipts, todo, n))
  {
    var s := todo[0];
    var key := (s.taskId, s.successfulActionId.value);
    if key in w.receipts {
      assert ReceiptOk(host, home, w.susp, key, w.receipts[key]);
      assert SuspensionOk(home, w.susp[RecordKey(s)]);
    }
  }

  lemma {:induction false} ReadKnowsItsPart(host: Host, home: Key -> string, w: World, call: Call, ok: bool)
    requires SuspensionsOk(home, w.susp) && ReceiptsOk(host, home, w) && CallOk(host, home, w, call) && OnlyReads(call)
    ensures var next := AfterRead(host, w, call, ok);
            CallOk(host, home, w, next) && !Winning(next)
  {
    if call.Lost? || call.LostToSelf? {
      LoserReads(host, home, w, call, ok);
    } else if call.Reconciling? {
      if call.todo != [] { ReconcilerReads(host, home, w, call.todo, call.processed); }
    } else {
      EarlyReads(host, home, w, call, ok);
    }
    hide CallOk, CheckSuspension, CheckReceipt, AfterValidation, CheckLost, CheckWinner, CheckPending;
  }

  /** The reads before the compare-and-set. */
  lemma {:induction false} EarlyReads(host: Host, home: Key -> string, w: World, call: Call, ok: bool)
    requires CallOk(host, home, w, call) && (call.Begun? || call.Granted? || call.HasSuspension? || call.Validating?)
    ensures CallOk(host, home, w, AfterRead(host, w, call, ok)) && !Winning(AfterRead(host, w, call, ok))
  {
    hide CheckLost, CheckWinner, CheckPending, AtHome, SuspKey, ReceiptKey;
  }

  /** The reads after losing it. */
  lemma {:induction false} LoserReads(host: Host, home: Key -> string, w: World, call: Call, ok: bool)
    requires SuspensionsOk(home, w.susp) && ReceiptsOk(host, home, w) && CallOk(host, home, w, call) && (call.Lost? || call.LostToSelf?)
    ensures CallOk(host, home, w, AfterRead(host, w, call, ok)) && !Winning(AfterRead(host, w, call, ok))
  {
    hide CheckSuspension, CheckReceipt, AfterValidation, CheckPending;
  }

  lemma {:induction false} QuietMoveKeepsInv(host: Host, home: Key -> string, w: World, p: nat, call: Call)
    requires Inv(host, home, w) && CallOk(host, home, w, call) && !Winning(call)
    ensures Inv(host, home, Goto(w, p, call)) && Later(w, Goto(w, p, call))
  {
    LaterReflexive(w);
    MoveKeepsInv(host, home, w, Goto(w, p, call), p);
  }

  lemma {:induction false} ReadKeepsInv(host: Host, home: Key -> string, w: World, p: nat, ok: bool)
    requires Inv(host, home, w) && p in w.calls && OnlyReads(w.calls[p])
    ensures Inv(host, home, Advance(host, w, p, ok)) && Later(w, Advance(host, w, p, ok))
  {
    ReadKnowsItsPart(host, home, w, w.calls[p], ok);
    QuietMoveKeepsInv(host, home, w, p, AfterRead(host, w, w.calls[p], ok));
  }

  /** Replacing one suspension by a later version of it. */
  lemma {:induction false} RecordMovesForward(host: Host, home: Key -> string, w: World, key: Key, s: Suspension)
    requires StoresOk(host, home, w) && key in w.susp
    requires RecordLater(w.susp[key], s) && SuspensionOk(home, s)
    requires s.handoff.Dispatched? ==> exists cmd :: cmd in w.resumes && SuspKey(cmd) == key
    ensures StoresOk(host, home, w.(susp := w.susp[key := s])) && Later(w, w.(susp := w.susp[key := s]))
  {
    ReceiptsAreStable(host, home, w, w.susp[key := s]);
    forall k | k in w.susp ensures DispatchOk(w.(susp := w.susp[key := s]), k) {
      assert DispatchOk(w, k);
    }
  }

  lemma {:induction false} InvParts(host: Host, home: Key -> string, w: World, p: nat)
    requires Inv(host, home, w) && p in w.calls
    ensures StoresOk(host, home, w) && CallOk(host, home, w, w.calls[p])
    ensures forall q :: q in w.calls ==> NotYetDone(w, w.calls[q])
  {
    hide StoresOk, CallOk, NotYetDone;
  }

  lemma {:induction false} InvRecord(host: Host, home: Key -> string, w: World, key: Key)
    requires Inv(host, home, w) && key in w.susp
    ensures SuspensionOk(home, w.susp[key]) && RecordKey(w.susp[key]) == key
  {
    hide CallsOk, OneWinner;
  }

  /** The moves that change a store, call by call. */
  lemma {:induction false} StoreMoves(host: Host, w: World, p: nat, ok: bool)
    requires p in w.calls
    ensures match w.calls[p]
            case Accepting(cmd) =>
              Advance(host, w, p, ok) == Goto(w.(susp := AcceptIfOpen(w.susp, SuspKey(cmd), cmd.clientActionId)), p,
                                              if CanAccept(w.susp, SuspKey(cmd)) then Won(cmd) else Lost(cmd))
            case Won(cmd) => Advance(host, w, p, ok) == Goto(w.(receipts := w.receipts[ReceiptKey(cmd) := ReceiptOf(cmd)]), p, Saved(cmd))
            case Saved(cmd) => Advance(host, w, p, ok) == Goto(w.(events := w.events + [EventOf(cmd)]), p, Announced(cmd))
            case HasReceipt(todo, r, n) =>
              Advance(host, w, p, ok) == Goto(w.(resumes := w.resumes + [CommandOf(r)]), p, if ok then ReResumed(todo, n) else ReconcileFailed)
            case _ => true
  {
    hide CheckSuspension, CheckReceipt, AfterValidation, CheckLost, CheckWinner, CheckPending, AcceptIfOpen, MarkDispatched, ReceiptOf, EventOf,
         CommandOf, CanAccept, SuspKey, ReceiptKey, Goto;
  }

  /** Winning the compare-and-set: nobody else holds, and nothing exists yet for, this suspension. */
  lemma {:induction false} AcceptKeepsInv(host: Host, home: Key -> string, w: World, p: nat, ok: bool)
    requires Inv(host, home, w) && p in w.calls && w.calls[p].Accepting?
    ensures Inv(host, home, Advance(host, w, p, ok)) && Later(w, Advance(host, w, p, ok))
  {
    hide Inv, Advance, StoresOk, Later, CallsOk, OneWinner;
    var cmd := w.calls[p].cmd;
    var key := SuspKey(cmd);
    StoreMoves(host, w, p, ok);
    InvParts(host, home, w, p);
    if CanAccept(w.susp, key) {
      InvRecord(host, home, w, key);
      var s := AcceptedRecord(w.susp[key], cmd.clientActionId);
      var w1 := w.(susp := w.susp[key := s]);
      RecordMovesForward(host, home, w, key, s);
      StoresIgnoreCalls(host, home, w, w1, p, Won(cmd));
      NothingExistsForOpen(host, home, w, cmd);
      MoveKeepsInv(host, home, w, Goto(w1, p, Won(cmd)), p);
    } else {
      QuietMoveKeepsInv(host, home, w, p, Lost(cmd));
    }
  }

  /** An open suspension has no receipt, no event and no winner. */
  lemma {:induction false} NothingExistsForOpen(host: Host, home: Key -> string, w: World, cmd: Command)
    requires Inv(host, home, w) && CanAccept(w.susp, SuspKey(cmd)) && AtHome(home, cmd)
    ensures ReceiptKey(cmd) !in w.receipts
    ensures forall i :: 0 <= i < |w.events| ==> EventKey(w.events[i]) != SuspKey(cmd)
    ensures forall q :: q in w.calls && Winning(w.calls[q]) ==> SuspKey(w.calls[q].cmd) != SuspKey(cmd)
  {
    assert SuspensionOk(home, w.susp[SuspKey(cmd)]);
    forall i | 0 <= i < |w.events| ensures EventKey(w.events[i]) != SuspKey(cmd) {
      var e := w.events[i];
      assert EventOk(w.receipts, e);
      assert ReceiptOk(host, home, w.susp, (e.taskId, e.clientActionId), w.receipts[(e.taskId, e.clientActionId)]);
    }
    forall q | q in w.calls && Winning(w.calls[q]) ensures SuspKey(w.calls[q].cmd) != SuspKey(cmd) {
      WinnerResolved(host, home, w, q);
    }
  }

  lemma {:induction false} WinnerResolved(host: Host, home: Key -> string, w: World, q: nat)
    requires Inv(host, home, w) && q in w.calls && Winning(w.calls[q])
    ensures ResolvedBy(w.susp, SuspKey(w.calls[q].cmd), w.calls[q].cmd.clientActionId)
  {
    var cmd := w.calls[q].cmd;
    assert CallOk(host, home, w, w.calls[q]);
    if !w.calls[q].Won? {
      assert ReceiptOk(host, home, w.susp, ReceiptKey(cmd), w.receipts[ReceiptKey(cmd)]);
    }
  }

  lemma {:induction false} SaveKeepsStores(host: Host, home: Key -> string, w: World, cmd: Command)
    requires StoresOk(host, home, w) && CallOk(host, home, w, Won(cmd)) && ReceiptKey(cmd) !in w.receipts
    ensures var w1 := w.(receipts := w.receipts[ReceiptKey(cmd) := ReceiptOf(cmd)]); StoresOk(host, home, w1) && Later(w, w1)
  {
    var w1 := w.(receipts := w.receipts[ReceiptKey(cmd) := ReceiptOf(cmd)]);
    forall key | key in w1.receipts ensures ReceiptOk(host, home, w1.susp, key, w1.receipts[key]) {
      if key != ReceiptKey(cmd) { assert ReceiptOk(host, home, w.susp, key, w.receipts[key]); }
    }
    forall i | 0 <= i < |w.events| ensures EventOk(w1.receipts, w.events[i]) { assert EventOk(w.receipts, w.events[i]); }
    forall i | 0 <= i < |w.resumes| ensures HasReceiptOf(w1.receipts, w.resumes[i]) { assert HasReceiptOf(w.receipts, w.resumes[i]); }
    forall key | key in w.susp ensures DispatchOk(w1, key) { assert DispatchOk(w, key); }
  }

  /** Two winners of different suspensions never share a receipt. */
  lemma {:induction false} SaveKeepsInv(host: Host, home: Key -> string, w: World, p: nat, ok: bool)
    requires Inv(host, home, w) && p in w.calls && w.calls[p].Won?
    ensures Inv(host, home, Advance(host, w, p, ok)) && Later(w, Advance(host, w, p, ok))
  {
    hide *;
    var cmd := w.calls[p].cmd;
    var w1 := w.(receipts := w.receipts[ReceiptKey(cmd) := ReceiptOf(cmd)]);
    StoreMoves(host, w, p, ok);
    InvParts(host, home, w, p);
    WonKnows(host, home, w, cmd);
    SaveKeepsStores(host, home, w, cmd);
    SavedIsOk(host, home, Goto(w1, p, Saved(cmd)), cmd);
    OthersNotDone(host, home, w, p);
    WinnerMoves(host, home, w, w1, p, Saved(cmd));
  }

  lemma {:induction false} WonKnows(host: Host, home: Key -> string, w: World, cmd: Command)
    requires CallOk(host, home, w, Won(cmd)) && NotYetDone(w, Won(cmd))
    ensures AtHome(home, cmd) && ReceiptKey(cmd) !in w.receipts
    ensures forall p, v: World :: v.receipts == w.receipts[ReceiptKey(cmd) := ReceiptOf(cmd)] ==>
      HasReceiptOf(Goto(v, p, Saved(cmd)).receipts, cmd)
  {
  }

  /** A winner that moves on, with its stores in order, keeps the invariant. */
  lemma {:induction false} WinnerMoves(host: Host, home: Key -> string, w: World, w1: World, p: nat, call: Call)
    requires Inv(host, home, w) && p in w.calls && (w.calls[p].Won? || w.calls[p].Saved?)
    requires (call.Saved? || call.Announced?) && call.cmd == w.calls[p].cmd
    requires w1.calls == w.calls && Later(w, w1) && StoresOk(host, home, w1)
    requires CallOk(host, home, Goto(w1, p, call), call) && NotYetDone(Goto(w1, p, call), call)
    requires forall q :: q in w.calls && q != p ==> NotYetDone(Goto(w1, p, call), w.calls[q])
    ensures Inv(host, home, Goto(w1, p, call)) && Later(w, Goto(w1, p, call))
  {
    hide Inv, StoresOk, Later, CallsOk, CallOk, NotYetDone, OneWinner;
    StoresIgnoreCalls(host, home, w, w1, p, call);
    OthersWin(host, home, w, p);
    MoveKeepsInv(host, home, w, Goto(w1, p, call), p);
  }

  /** Neither the stores nor what is later look at the calls. */
  lemma {:induction false} StoresIgnoreCalls(host: Host, home: Key -> string, w: World, w1: World, p: nat, call: Call)
    requires StoresOk(host, home, w1) && Later(w, w1)
    ensures StoresOk(host, home, Goto(w1, p, call)) && Later(w, Goto(w1, p, call))
  {
    forall key | key in w1.susp ensures DispatchOk(Goto(w1, p, call), key) { assert DispatchOk(w1, key); }
  }

  /** A winner's receipt is nobody else's. */
  lemma {:induction false} OthersNotDone(host: Host, home: Key -> string, w: World, p: nat)
    requires Inv(host, home, w) && p in w.calls && w.calls[p].Won?
    ensures var cmd := w.calls[p].cmd;
      var w1 := w.(receipts := w.receipts[ReceiptKey(cmd) := ReceiptOf(cmd)]);
      && (forall q :: q in w.calls && q != p ==> NotYetDone(Goto(w1, p, Saved(cmd)), w.calls[q]))
      && NotYetDone(Goto(w1, p, Saved(cmd)), Saved(cmd))
      && (forall q :: q in w.calls && q != p && Winning(w.calls[q]) ==> SuspKey(w.calls[q].cmd) != SuspKey(cmd))
  {
    var cmd := w.calls[p].cmd;
    var w1 := Goto(w.(receipts := w.receipts[ReceiptKey(cmd) := ReceiptOf(cmd)]), p, Saved(cmd));
    hide StoresOk;
    InvParts(host, home, w, p);
    forall q | q in w.calls && q != p ensures NotYetDone(w1, w.calls[q]) {
      assert NotYetDone(w, w.calls[q]) && CallOk(host, home, w, w.calls[q]);
    }
  }

  lemma {:induction false} SavedIsOk(host: Host, home: Key -> string, w: World, cmd: Command)
    requires AtHome(home, cmd) && HasReceiptOf(w.receipts, cmd)
    ensures CallOk(host, home, w, Saved(cmd))
  {
  }

  lemma {:induction false} AppendKeepsStores(host: Host, home: Key -> string, w: World, cmd: Command)
    requires StoresOk(host, home, w) && HasReceiptOf(w.receipts, cmd)
    requires forall i :: 0 <= i < |w.events| ==> EventKey(w.events[i]) != SuspKey(cmd)
    ensures StoresOk(host, home, w.(events := w.events + [EventOf(cmd)])) && Later(w, w.(events := w.events + [EventOf(cmd)]))
  {
    var w1 := w.(events := w.events + [EventOf(cmd)]);
    forall key | key in w.susp ensures DispatchOk(w1, key) { assert DispatchOk(w, key); }
  }

  lemma {:induction false} AnnouncedIsOk(host: Host, home: Key -> string, w: World, cmd: Command)
    requires AtHome(home, cmd) && HasReceiptOf(w.receipts, cmd)
    ensures CallOk(host, home, w, Announced(cmd)) && NotYetDone(w, Announced(cmd))
  {
  }

  lemma {:induction false} SavedKnows(host: Host, home: Key -> string, w: World, cmd: Command)
    requires CallOk(host, home, w, Saved(cmd)) && NotYetDone(w, Saved(cmd))
    ensures AtHome(home, cmd) && HasReceiptOf(w.receipts, cmd)
    ensures forall i :: 0 <= i < |w.events| ==> EventKey(w.events[i]) != SuspKey(cmd)
    ensures forall p, v: World :: v.receipts == w.receipts ==> HasReceiptOf(Goto(v, p, Announced(cmd)).receipts, cmd)
  {
  }

  /** The event of one winner is not that of another. */
  lemma {:induction false} OthersNotAnnounced(host: Host, home: Key -> string, w: World, p: nat)
    requires Inv(host, home, w) && p in w.calls && w.calls[p].Saved?
    ensures var cmd := w.calls[p].cmd;
      var w1 := Goto(w.(events := w.events + [EventOf(cmd)]), p, Announced(cmd));
      && (forall q :: q in w.calls && q != p ==> NotYetDone(w1, w.calls[q]))
      && NotYetDone(w1, Announced(cmd))
  {
    var cmd := w.calls[p].cmd;
    var w1 := Goto(w.(events := w.events + [EventOf(cmd)]), p, Announced(cmd));
    hide Inv, StoresOk, CallOk, CallsOk, OneWinner;
    InvParts(host, home, w, p);
    OthersWin(host, home, w, p);
    forall q | q in w.calls && q != p ensures NotYetDone(w1, w.calls[q]) {
      assert NotYetDone(w, w.calls[q]);
    }
  }

  lemma {:induction false} OthersWin(host: Host, home: Key -> string, w: World, p: nat)
    requires Inv(host, home, w) && p in w.calls && Winning(w.calls[p])
    ensures forall q :: q in w.calls && q != p && Winning(w.calls[q]) ==> SuspKey(w.calls[q].cmd) != SuspKey(w.calls[p].cmd)
  {
    hide StoresOk, CallsOk;
  }

  lemma {:induction false} AppendKeepsInv(host: Host, home: Key -> string, w: World, p: nat, ok: bool)
    requires Inv(host, home, w) && p in w.calls && w.calls[p].Saved?
    ensures Inv(host, home, Advance(host, w, p, ok)) && Later(w, Advance(host, w, p, ok))
  {
    hide *;
    var cmd := w.calls[p].cmd;
    var w1 := w.(events := w.events + [EventOf(cmd)]);
    StoreMoves(host, w, p, ok);
    InvParts(host, home, w, p);
    SavedKnows(host, home, w, cmd);
    AppendKeepsStores(host, home, w, cmd);
    AnnouncedIsOk(host, home, Goto(w1, p, Announced(cmd)), cmd);
    OthersNotAnnounced(host, home, w, p);
    WinnerMoves(host, home, w, w1, p, Announced(cmd));
  }

  lemma {:induction false} ResumeKeepsStores(host: Host, home: Key -> string, w: World, cmd: Command)
    requires StoresOk(host, home, w) && HasReceiptOf(w.receipts, cmd)
    ensures StoresOk(host, home, w.(resumes := w.resumes + [cmd])) && Later(w, w.(resumes := w.resumes + [cmd]))
  {
    var w1 := w.(resumes := w.resumes + [cmd]);
    forall key | key in w.susp ensures DispatchOk(w1, key) {
      assert DispatchOk(w, key);
      if w.susp[key].handoff.Dispatched? {
        var c :| c in w.resumes && SuspKey(c) == key;
        assert c in w1.resumes;
      }
    }
  }

  lemma {:induction false} WinnerResumes(host: Host, home: Key -> string, w: World, p: nat, ok: bool)
    requires Inv(host, home, w) && p in w.calls && w.calls[p].Announced?
    ensures Inv(host, home, Advance(host, w, p, ok)) && Later(w, Advance(host, w, p, ok))
  {
    var cmd := w.calls[p].cmd;
    assert CallOk(host, home, w, w.calls[p]);
    ResumeKeepsStores(host, home, w, cmd);
    var w1 := w.(resumes := w.resumes + [cmd]);
    assert cmd in w1.resumes;
    hide StoresOk, Later, CallsOk, OneWinner;
    StoreMoveKeepsInv(host, home, w, w1, p, if ok then Resumed(cmd) else Answered(cmd, Accepted));
  }

  lemma {:induction false} ReResumedIsOk(host: Host, home: Key -> string, w: World, call: Call)
    requires call.HasReceipt? && CallOk(host, home, w, call)
    ensures HasReceiptOf(w.receipts, CommandOf(call.receipt))
    ensures var w1 := w.(resumes := w.resumes + [CommandOf(call.receipt)]);
      CallOk(host, home, w1, ReResumed(call.todo, call.processed)) && CallOk(host, home, w1, ReconcileFailed)
  {
    var w1 := w.(resumes := w.resumes + [CommandOf(call.receipt)]);
    assert CommandOf(call.receipt) in w1.resumes;
    hide TodoOk, HasReceiptOf;
  }

  lemma {:induction false} ReconcilerResumes(host: Host, home: Key -> string, w: World, p: nat, ok: bool)
    requires Inv(host, home, w) && p in w.calls && w.calls[p].HasReceipt?
    ensures Inv(host, home, Advance(host, w, p, ok)) && Later(w, Advance(host, w, p, ok))
  {
    var call := w.calls[p];
    var cmd := CommandOf(call.receipt);
    hide Inv, Advance, StoresOk, Later, CallsOk, OneWinner, CallOk, HasReceiptOf;
    StoreMoves(host, w, p, ok);
    InvParts(host, home, w, p);
    ReResumedIsOk(host, home, w, call);
    ResumeKeepsStores(host, home, w, cmd);
    var w1 := w.(resumes := w.resumes + [cmd]);
    StoreMoveKeepsInv(host, home, w, w1, p, if ok then ReResumed(call.todo, call.processed) else ReconcileFailed);
  }

  /** Which suspension a call about to mark marks: a resolved one, with a resume made for it. */
  lemma {:induction false} MarksAResumed(host: Host, home: Key -> string, w: World, p: nat)
    requires Inv(host, home, w) && p in w.calls && (w.calls[p].Resumed? || w.calls[p].ReResumed?)
    ensures w.calls[p].ReResumed? ==> w.calls[p].todo != []
    ensures var key := if w.calls[p].Resumed? then SuspKey(w.calls[p].cmd) else RecordKey(w.calls[p].todo[0]);
            && key in w.susp && w.susp[key].status.Resolved? && w.susp[key].successfulActionId.Some?
            && exists cmd :: cmd in w.resumes && SuspKey(cmd) == key
  {
    var call := w.calls[p];
    assert CallOk(host, home, w, call);
    if call.Resumed? {
      WinnerResolved(host, home, w, p);
      assert SuspensionOk(home, w.susp[SuspKey(call.cmd)]);
    } else {
      assert ResolvedBy(w.susp, RecordKey(call.todo[0]), call.todo[0].successfulActionId.value);
      assert SuspensionOk(home, w.susp[RecordKey(call.todo[0])]);
    }
  }

  lemma {:induction false} MarkKeepsStores(host: Host, home: Key -> string, w: World, key: Key)
    requires StoresOk(host, home, w) && key in w.susp && w.susp[key].status.Resolved?
    requires exists cmd :: cmd in w.resumes && SuspKey(cmd) == key
    ensures var w1 := w.(susp := MarkDispatched(w.susp, key)); StoresOk(host, home, w1) && Later(w, w1)
  {
    assert SuspensionOk(home, w.susp[key]);
    RecordMovesForward(host, home, w, key, w.susp[key].(handoff := Dispatched));
  }

  /** A move that changes suspensions or resumes only, by a call that stays or is no winner. */
  lemma {:induction false} StoreMoveKeepsInv(host: Host, home: Key -> string, w: World, w1: World, p: nat, call: Call)
    requires Inv(host, home, w) && Later(w, w1) && StoresOk(host, home, w1) && p in w.calls
    requires w1.calls == w.calls && w1.events == w.events && w1.receipts == w.receipts
    requires CallOk(host, home, w1, call) && !call.Won? && !call.Saved?
    requires Winning(call) ==> Winning(w.calls[p]) && w.calls[p].cmd == call.cmd
    ensures Inv(host, home, Goto(w1, p, call)) && Later(w, Goto(w1, p, call))
  {
    hide StoresOk, Later, CallOk;
    var w' := Goto(w1, p, call);
    GotoIsNoStoreChange(host, home, w, w1, p, call);
    forall q | q in w.calls && q != p ensures NotYetDone(w', w.calls[q]) {
      assert NotYetDone(w, w.calls[q]);
    }
    MoveKeepsInv(host, home, w, w', p);
  }

  lemma {:induction false} GotoIsNoStoreChange(host: Host, home: Key -> string, w: World, w1: World, p: nat, call: Call)
    requires Later(w, w1) && StoresOk(host, home, w1) && CallOk(host, home, w1, call)
    ensures var w' := Goto(w1, p, call); Later(w, w') && StoresOk(host, home, w') && CallOk(host, home, w', call)
  {
    var w' := Goto(w1, p, call);
    LaterReflexive(w1);
    CallOkIsStable(host, home, w1, w', call);
    forall key | key in w'.susp ensures DispatchOk(w', key) { assert DispatchOk(w1, key); }
  }

  lemma {:induction false} WinnerMarks(host: Host, home: Key -> string, w: World, p: nat, ok: bool)
    requires Inv(host, home, w) && p in w.calls && w.calls[p].Resumed?
    ensures Inv(host, home, Advance(host, w, p, ok)) && Later(w, Advance(host, w, p, ok))
  {
    var cmd := w.calls[p].cmd;
    MarksAResumed(host, home, w, p);
    MarkKeepsStores(host, home, w, SuspKey(cmd));
    assert CallOk(host, home, w, w.calls[p]);
    hide StoresOk, Later, CallsOk, OneWinner, MarkDispatched;
    StoreMoveKeepsInv(host, home, w, w.(susp := MarkDispatched(w.susp, SuspKey(cmd))), p, Answered(cmd, Accepted));
  }

  lemma {:induction false} RestIsOk(host: Host, home: Key -> string, w: World, w1: World, call: Call)
    requires call.ReResumed? && CallOk(host, home, w, call) && Later(w, w1)
    ensures call.todo != [] && CallOk(host, home, w1, Reconciling(call.todo[1..], call.processed + 1))
  {
    TodoIsStable(w.susp, w1.susp, call.todo);
  }

  lemma {:induction false} MarkingMove(host: Host, w: World, p: nat, ok: bool)
    requires p in w.calls && w.calls[p].ReResumed? && w.calls[p].todo != []
    ensures Advance(host, w, p, ok)
         == Goto(w.(susp := MarkDispatched(w.susp, RecordKey(w.calls[p].todo[0]))), p,
                 Reconciling(w.calls[p].todo[1..], w.calls[p].processed + 1))
  {
  }

  lemma {:induction false} ReconcilerMarks(host: Host, home: Key -> string, w: World, p: nat, ok: bool)
    requires Inv(host, home, w) && p in w.calls && w.calls[p].ReResumed?
    ensures Inv(host, home, Advance(host, w, p, ok)) && Later(w, Advance(host, w, p, ok))
  {
    hide Inv, StoresOk, CallsOk, Advance, Later, CallOk, OneWinner, MarkDispatched, TodoOk, NotYetDone;
    InvParts(host, home, w, p);
    MarksAResumed(host, home, w, p);
    var call := w.calls[p];
    var key := RecordKey(call.todo[0]);
    var w1 := w.(susp := MarkDispatched(w.susp, key));
    MarkKeepsStores(host, home, w, key);
    RestIsOk(host, home, w, w1, call);
    StoreMoveKeepsInv(host, home, w, w1, p, Reconciling(call.todo[1..], call.processed + 1));
    MarkingMove(host, w, p, ok);
  }

  /** Expiry only closes open suspensions, and retention deletes no receipt because none has an expiry. */
  lemma {:induction false} RetentionKeepsInv(host: Host, home: Key -> string, w: World, now: int)
    requires Inv(host, home, w)
    ensures DeleteExpired(w.receipts, now) == w.receipts
    ensures Inv(host, home, w.(susp := ExpireOpen(w.susp, now))) && Later(w, w.(susp := ExpireOpen(w.susp, now)))
  {
    forall key | key in w.receipts ensures !IsStale(w.receipts[key], now) {
      assert ReceiptOk(host, home, w.susp, key, w.receipts[key]);
    }
    var w1 := w.(susp := ExpireOpen(w.susp, now));
    forall key | key in w.susp ensures SuspensionOk(home, w1.susp[key]) && RecordLater(w.susp[key], w1.susp[key]) && DispatchOk(w1, key) {
      assert SuspensionOk(home, w.susp[key]) && DispatchOk(w, key);
    }
    ReceiptsAreStable(host, home, w, w1.susp);
    StoreChangeKeepsInv(host, home, w, w1);
  }

  lemma {:induction false} OpeningKeepsInv(host: Host, home: Key -> string, w: World, s: Suspension)
    requires Inv(host, home, w) && RecordKey(s) !in w.susp && IsUntouched(s)
    ensures var w1 := w.(susp := w.susp[RecordKey(s) := s]); Inv(host, home, w1) && Later(w, w1)
  {
    var w1 := w.(susp := w.susp[RecordKey(s) := s]);
    ReceiptsAreStable(host, home, w, w1.susp);
    forall key | key in w1.susp ensures DispatchOk(w1, key) {
      if key in w.susp { assert DispatchOk(w, key); }
    }
    StoreChangeKeepsInv(host, home, w, w1);
  }

  lemma {:induction false} AdvanceKeepsInv(host: Host, home: Key -> string, w: World, p: nat, ok: bool)
    requires Inv(host, home, w) && p in w.calls
    ensures Inv(host, home, Advance(host, w, p, ok)) && Later(w, Advance(host, w, p, ok))
  {
    hide *;
    var call := w.calls[p];
    if OnlyReads(call) { ReadKeepsInv(host, home, w, p, ok); }
    else if call.Accepting? { AcceptKeepsInv(host, home, w, p, ok); }
    else if call.Won? { SaveKeepsInv(host, home, w, p, ok); }
    else if call.Saved? { AppendKeepsInv(host, home, w, p, ok); }
    else if call.Announced? { WinnerResumes(host, home, w, p, ok); }
    else if call.Resumed? { WinnerMarks(host, home, w, p, ok); }
    else if call.HasReceipt? { ReconcilerResumes(host, home, w, p, ok); }
    else if call.ReResumed? { ReconcilerMarks(host, home, w, p, ok); }
    else { FinishedStays(host, w, p, ok); LaterReflexive(w); }
  }

  lemma {:induction false} FinishedStays(host: Host, w: World, p: nat, ok: bool)
    requires p in w.calls && !OnlyReads(w.calls[p]) && !w.calls[p].Accepting? && !w.calls[p].Won? && !w.calls[p].Saved?
    requires !w.calls[p].Announced? && !w.calls[p].HasReceipt? && !w.calls[p].Resumed? && !w.calls[p].ReResumed?
    ensures Advance(host, w, p, ok) == w
  {
  }

  lemma {:induction false} ListingIsOk(home: Key -> string, susp: Suspensions, listing: seq<Suspension>)
    requires SuspensionsOk(home, susp) && IsListing(susp, listing)
    ensures TodoOk(susp, listing)
  {
    forall i | 0 <= i < |listing|
      ensures listing[i].successfulActionId.Some? && ResolvedBy(susp, RecordKey(listing[i]), listing[i].successfulActionId.value)
    {
      assert listing[i] in listing;
      assert SuspensionOk(home, susp[RecordKey(listing[i])]);
    }
  }

  /** Every step of any call, reconciler, host or clean-up job keeps the invariant and undoes nothing. */
  lemma {:induction false} StepKeepsInv(host: Host, home: Key -> string, w: World, step: Step)
    requires Inv(host, home, w) && (step.Submit? ==> Homely(host, home, step.cmd))
    ensures Inv(host, home, Exec(host, w, step)) && Later(w, Exec(host, w, step))
  {
    LaterReflexive(w);
    match step
    case Submit(p, cmd) => if p !in w.calls { QuietMoveKeepsInv(host, home, w, p, Begun(cmd)); }
    case Next(p, ok) => if p in w.calls { AdvanceKeepsInv(host, home, w, p, ok); }
    case Crash(p) => if p in w.calls { QuietMoveKeepsInv(host, home, w, p, Crashed); }
    case Reconcile(p, listing) =>
      if p !in w.calls && IsListing(w.susp, listing) {
        ListingIsOk(home, w.susp, listing);
        QuietMoveKeepsInv(host, home, w, p, Reconciling(listing, 0));
      }
    case OpenSuspension(s) => if RecordKey(s) !in w.susp && IsUntouched(s) { OpeningKeepsInv(host, home, w, s); }
    case PruneReceipts(now) => RetentionKeepsInv(host, home, w, now);
    case ExpireSuspensions(now) => RetentionKeepsInv(host, home, w, now);
  }

  /** Every reachable state keeps the invariant, and later states undo nothing. */
  lemma {:induction false} RunKeepsInv(host: Host, home: Key -> string, w: World, steps: seq<Step>, j: nat, k: nat)
    requires Inv(host, home, w) && Disciplined(host, home, steps) && j <= k <= |steps|
    ensures Inv(host, home, Run(host, w, steps, k))
    ensures Later(Run(host, w, steps, j), Run(host, w, steps, k))
  {
    if k == 0 {
      LaterReflexive(w);
    } else {
      RunKeepsInv(host, home, w, steps, if j < k then j else k - 1, k - 1);
      StepKeepsInv(host, home, Run(host, w, steps, k - 1), steps[k - 1]);
      if j < k {
        LaterTransitive(Run(host, w, steps, j), Run(host, w, steps, k - 1), Run(host, w, steps, k));
      } else {
        LaterReflexive(Run(host, w, steps, k));
      }
    }
  }
}
