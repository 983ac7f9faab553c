/**
 * The action, reconciliation and retention services in their own form, each run without
 * interference: the host's answers to access checks and hooks are parameters.
 */
module ActionServices {
  import opened Options
  import opened ActionStores
  import opened ActionProtocol
  import opened ActionTheorems

  /** A pending record that a reconciler passes over. */
  predicate IsSkipped(receipts: Receipts, s: Suspension) {
    || s.successfulActionId.None?
    || (s.taskId, s.successfulActionId.value) !in receipts
    || (var r := receipts[(s.taskId, s.successfulActionId.value)]; r.actionType == A2UI_ACTION && r.metadata == map[])
  }

  /** The command a reconciler resumes a record with. */
  function ResumeCommand(receipts: Receipts, s: Suspension): Command
    requires !IsSkipped(receipts, s)
  {
    CommandOf(receipts[(s.taskId, s.successfulActionId.value)])
  }

  function MarkAmong(susp: Suspensions, keys: set<Key>): Suspensions {
    map key | key in susp :: if key in keys then susp[key].(handoff := Dispatched) else susp[key]
  }

  /** The records a complete reconcile pass hands off. */
  function Reconcilable(susp: Suspensions, receipts: Receipts): set<Key> {
    set key | key in susp && susp[key].handoff.Pending? && !IsSkipped(receipts, susp[key])
  }

  datatype ReconcileOutcome = PassedOver | HandedOff | RaisedError

  /** The reconcilable records among the first ones listed. */
  function HandedOffOf(listing: seq<Suspension>, receipts: Receipts): set<Key> {
    set s | s in listing && !IsSkipped(receipts, s) :: RecordKey(s)
  }

  ghost predicate ResumedFromReceipts(susp: Suspensions, receipts: Receipts, resumes: seq<Command>) {
    forall i :: 0 <= i < |resumes| ==>
      exists key :: key in Reconcilable(susp, receipts) && resumes[i] == ResumeCommand(receipts, susp[key])
  }

  /** Handing off the record raises: its resume does, or the host has none for its A2UI action. */
  predicate Raises(host: Host, receipts: Receipts, failing: set<Key>, s: Suspension)
    requires !IsSkipped(receipts, s)
  {
    RecordKey(s) in failing || (ResumeCommand(receipts, s).actionType == "a2ui_action" && !host.hasResumeService)
  }

  ghost predicate SomeRaises(host: Host, receipts: Receipts, failing: set<Key>, susp: Suspensions) {
    exists key :: key in Reconcilable(susp, receipts) && Raises(host, receipts, failing, susp[key])
  }

  /**
   * How a pass ends: it raises exactly if some reconcilable record does; `done` were handed off, none
   * of them raising and all of the reconcilable ones if it returned.
   */
  ghost predicate PassEnds(host: Host, before: Suspensions, after: Suspensions, receipts: Receipts, failing: set<Key>, done: set<Key>,
                           processed: Option<nat>) {
    && done <= Reconcilable(before, receipts)
    && (forall key :: key in done ==> !Raises(host, receipts, failing, before[key]))
    && after == MarkAmong(before, done)
    && (processed.None? <==> SomeRaises(host, receipts, failing, before))
    && (processed.Some? ==> done == Reconcilable(before, receipts) && processed.value == |done|)
  }

  /** Every record handed off was resumed; a pass that raises made at most one resume more. */
  ghost predicate EachResumed(before: Suspensions, receipts: Receipts, done: set<Key>, resumes: seq<Command>, processed: Option<nat>) {
    && (forall key :: key in done && key in Reconcilable(before, receipts) ==> ResumeCommand(receipts, before[key]) in resumes)
    && |done| <= |resumes| <= |done| + (if processed.Some? then 0 else 1)
  }

  lemma {:induction false} AllListed(susp: Suspensions, listing: seq<Suspension>, receipts: Receipts)
    requires WellKeyed(susp) && IsListing(susp, listing)
    ensures HandedOffOf(listing, receipts) == Reconcilable(susp, receipts)
    ensures forall i :: 0 <= i <= |listing| ==> HandedOffOf(listing[..i], receipts) <= Reconcilable(susp, receipts)
  {
    forall key | key in Reconcilable(susp, receipts) ensures key in HandedOffOf(listing, receipts) {
      assert susp[key] in listing && RecordKey(susp[key]) == key;
    }
    forall i, key | 0 <= i <= |listing| && key in HandedOffOf(listing[..i], receipts) ensures key in Reconcilable(susp, receipts) {
      var s :| s in listing[..i] && !IsSkipped(receipts, s) && RecordKey(s) == key;
      assert s in listing;
    }
  }

  lemma {:induction false} NothingHandedOffYet(susp: Suspensions, receipts: Receipts)
    ensures HandedOffOf([], receipts) == {} && MarkAmong(susp, {}) == susp && EachResumed(susp, receipts, {}, [], Some(0))
  {
  }

  lemma {:induction false} MarkOneMore(susp: Suspensions, keys: set<Key>, key: Key)
    requires key in susp
    ensures key in MarkAmong(susp, keys) && MarkDispatched(MarkAmong(susp, keys), key) == MarkAmong(susp, keys + {key})
  {
  }

  /** The next listed record has not been handed off yet. */
  lemma {:induction false} ListedOnce(susp: Suspensions, listing: seq<Suspension>, receipts: Receipts, i: nat)
    requires IsListing(susp, listing) && i < |listing|
    ensures var s := listing[i];
            && RecordKey(s) in susp && susp[RecordKey(s)] == s && s.handoff.Pending?
            && RecordKey(s) !in HandedOffOf(listing[..i], receipts)
            && HandedOffOf(listing[..i + 1], receipts)
               == HandedOffOf(listing[..i], receipts) + (if IsSkipped(receipts, s) then {} else {RecordKey(s)})
  {
    assert listing[i] in listing;
    assert listing[..i + 1] == listing[..i] + [listing[i]];
  }

  lemma {:induction false} ResumedOneMore(susp: Suspensions, receipts: Receipts, before: seq<Command>, after: seq<Command>, s: Suspension)
    requires ResumedFromReceipts(susp, receipts, before)
    requires RecordKey(s) in susp && susp[RecordKey(s)] == s && s.handoff.Pending?
    requires after == before || (!IsSkipped(receipts, s) && after == before + [ResumeCommand(receipts, s)])
    ensures ResumedFromReceipts(susp, receipts, after)
  {
    if after != before {
      assert RecordKey(s) in Reconcilable(susp, receipts);
    }
  }

  lemma {:induction false} EachResumedOneMore(susp: Suspensions, receipts: Receipts, done: set<Key>, before: seq<Command>, after: seq<Command>, s: Suspension)
    requires EachResumed(susp, receipts, done, before, Some(0)) && RecordKey(s) !in done
    requires RecordKey(s) in susp && susp[RecordKey(s)] == s
    requires after == before || (!IsSkipped(receipts, s) && after == before + [ResumeCommand(receipts, s)])
    ensures EachResumed(susp, receipts, done, after, None)
    ensures after == before ==> EachResumed(susp, receipts, done, after, Some(0))
    ensures after != before ==> EachResumed(susp, receipts, done + {RecordKey(s)}, after, Some(0))
  {
    hide Reconcilable, IsSkipped;
    if after != before { assert after[|before|] == ResumeCommand(receipts, s); }
    assert forall c :: c in before ==> c in after;
  }

  lemma {:induction false} EachResumedIs(susp: Suspensions, receipts: Receipts, done: set<Key>, resumes: seq<Command>, n: nat)
    ensures EachResumed(susp, receipts, done, resumes, Some(0)) <==> EachResumed(susp, receipts, done, resumes, Some(n))
  {
  }

  lemma {:induction false} RaisesIs(host: Host, receipts: Receipts, failing: set<Key>, s: Suspension)
    ensures !IsSkipped(receipts, s) ==>
      (Raises(host, receipts, failing, s)
       <==> RecordKey(s) in failing || (ResumeCommand(receipts, s).actionType == "a2ui_action" && !host.hasResumeService))
  {
  }

  lemma {:induction false} RecordRaises(host: Host, susp: Suspensions, receipts: Receipts, failing: set<Key>, s: Suspension)
    requires RecordKey(s) in susp && susp[RecordKey(s)] == s && s.handoff.Pending?
    requires !IsSkipped(receipts, s) && Raises(host, receipts, failing, s)
    ensures SomeRaises(host, receipts, failing, susp)
  {
    assert RecordKey(s) in Reconcilable(susp, receipts);
  }

  /** A pass that has come to the `i`-th record listed without raising. */
  ghost predicate Passing(host: Host, before: Suspensions, now: Suspensions, receipts: Receipts, failing: set<Key>, listing: seq<Suspension>, i: nat,
                          done: set<Key>, made: seq<Command>)
    requires i <= |listing|
  {
    && WellKeyed(before) && IsListing(before, listing)
    && now == MarkAmong(before, done) && done == HandedOffOf(listing[..i], receipts)
    && (forall key :: key in done ==> key in before && !IsSkipped(receipts, before[key]) && !Raises(host, receipts, failing, before[key]))
    && ResumedFromReceipts(before, receipts, made) && EachResumed(before, receipts, done, made, Some(0))
  }

  lemma {:induction false} PassStarts(host: Host, susp: Suspensions, receipts: Receipts, failing: set<Key>, listing: seq<Suspension>)
    requires WellKeyed(susp) && IsListing(susp, listing)
    ensures Passing(host, susp, susp, receipts, failing, listing, 0, {}, [])
  {
    hide MarkAmong, IsListing, IsSkipped, HandedOffOf, EachResumed, Reconcilable;
    NothingHandedOffYet(susp, receipts);
    assert listing[..0] == [];
  }

  lemma {:induction false} RecordIsThere(host: Host, before: Suspensions, now: Suspensions, receipts: Receipts, failing: set<Key>,
                                         listing: seq<Suspension>, i: nat, done: set<Key>, made: seq<Command>)
    requires i < |listing| && Passing(host, before, now, receipts, failing, listing, i, done, made)
    ensures RecordKey(listing[i]) in now && RecordKey(listing[i]) !in done
  {
    hide IsSkipped, HandedOffOf, EachResumed, Raises, ResumedFromReceipts;
    ListedOnce(before, listing, receipts, i);
  }

  /** One record more, given what `ReconcileOne` did with it. */
  lemma {:induction false} PassGoesOn(host: Host, before: Suspensions, now: Suspensions, later: Suspensions, receipts: Receipts, failing: set<Key>,
                                      listing: seq<Suspension>, i: nat, done: set<Key>, made: seq<Command>, more: seq<Command>,
                                      outcome: ReconcileOutcome)
    requires i < |listing| && Passing(host, before, now, receipts, failing, listing, i, done, made)
    requires outcome.PassedOver? <==> IsSkipped(receipts, listing[i])
    requires outcome.RaisedError? <==>
      && !IsSkipped(receipts, listing[i])
      && (RecordKey(listing[i]) in failing || (ResumeCommand(receipts, listing[i]).actionType == "a2ui_action" && !host.hasResumeService))
    requires later == if outcome.HandedOff? then MarkDispatched(now, RecordKey(listing[i])) else now
    requires more
          == if outcome.PassedOver? || (ResumeCommand(receipts, listing[i]).actionType == "a2ui_action" && !host.hasResumeService) then made
             else made + [ResumeCommand(receipts, listing[i])]
    ensures outcome.PassedOver? ==> Passing(host, before, later, receipts, failing, listing, i + 1, done, more)
    ensures outcome.HandedOff? ==> Passing(host, before, later, receipts, failing, listing, i + 1, done + {RecordKey(listing[i])}, more)
    ensures outcome.RaisedError? ==>
      && PassEnds(host, before, later, receipts, failing, done, None) && EachResumed(before, receipts, done, more, None)
      && ResumedFromReceipts(before, receipts, more)
  {
    hide MarkAmong, MarkDispatched, IsListing, Reconcilable, IsSkipped, HandedOffOf, EachResumed, Raises, ResumedFromReceipts, SomeRaises, WellKeyed;
    var s := listing[i];
    ListedOnce(before, listing, receipts, i);
    MarkOneMore(before, done, RecordKey(s));
    ResumedOneMore(before, receipts, made, more, s);
    EachResumedOneMore(before, receipts, done, made, more, s);
    RaisesIs(host, receipts, failing, s);
    if outcome.RaisedError? {
      AllListed(before, listing, receipts);
      RecordRaises(host, before, receipts, failing, s);
    }
  }

  lemma {:induction false} PassReturns(host: Host, before: Suspensions, after: Suspensions, receipts: Receipts, failing: set<Key>,
                                       listing: seq<Suspension>, done: set<Key>, made: seq<Command>)
    requires Passing(host, before, after, receipts, failing, listing, |listing|, done, made)
    ensures PassEnds(host, before, after, receipts, failing, done, Some(|done|)) && EachResumed(before, receipts, done, made, Some(|done|))
    ensures ResumedFromReceipts(before, receipts, made)
  {
    hide MarkAmong, IsListing, Reconcilable, IsSkipped, HandedOffOf, EachResumed, Raises, ResumedFromReceipts, WellKeyed;
    assert listing[..|listing|] == listing;
    AllListed(before, listing, receipts);
    EachResumedIs(before, receipts, done, made, |done|);
  }

  lemma {:induction false} ReceiptIsKeyed(cmd: Command)
    ensures ReceiptKey(cmd) == (ReceiptOf(cmd).taskId, ReceiptOf(cmd).clientActionId)
  {
  }

  lemma {:induction false} AcceptedAndMarked(susp: Suspensions, key: Key, clientActionId: string)
    requires CanAccept(susp, key)
    ensures var accepted := AcceptIfOpen(susp, key, clientActionId); var marked := MarkDispatched(accepted, key);
      && key in accepted && accepted[key] == AcceptedRecord(susp[key], clientActionId).(handoff := Pending) && accepted - {key} == susp - {key}
      && key in marked && marked[key] == AcceptedRecord(susp[key], clientActionId).(handoff := Dispatched) && marked - {key} == susp - {key}
  {
  }

  lemma {:induction false} RepeatsIs(r: Receipt, cmd: Command)
    ensures SameAction(r, cmd) <==> Repeats(r, cmd)
  {
  }

  /** The suspension exists and offers the action, and an A2UI action carries metadata. */
  predicate Presentable(susp: Suspensions, cmd: Command) {
    && (cmd.taskId, cmd.suspendId) in susp && cmd.actionType in susp[(cmd.taskId, cmd.suspendId)].allowedActions
    && (cmd.actionType == "a2ui_action" ==> cmd.metadata != map[])
  }

  /** And the suspension is open and the action id unused. */
  predicate Fresh(susp: Suspensions, receipts: Receipts, cmd: Command) {
    Presentable(susp, cmd) && (cmd.taskId, cmd.clientActionId) !in receipts && susp[(cmd.taskId, cmd.suspendId)].status.Open?
  }

  class ActionService {
    const host: Host
    const suspensionStore: InMemorySuspensionStore
    const receiptStore: InMemoryActionReceiptStore
    var events: seq<AcceptedEvent>
    var resumes: seq<Command>

    constructor (host: Host, suspensionStore: InMemorySuspensionStore, receiptStore: InMemoryActionReceiptStore)
      ensures this.host == host && this.suspensionStore == suspensionStore && this.receiptStore == receiptStore
      ensures events == [] && resumes == []
    {
      this.host, this.suspensionStore, this.receiptStore := host, suspensionStore, receiptStore;
      events, resumes := [], [];
    }

    ghost function Now(): World
      reads this, suspensionStore, receiptStore
    {
      World(suspensionStore.suspensions, receiptStore.receipts, events, resumes, map[])
    }

    /**
     * One undisturbed submit. Each refusal and the accept are given exactly when they are due, and the
     * remaining answers are those of a one-step accept; only an accept changes anything, and it leaves
     * the receipt, the event and the resume of this action.
     */
    method SubmitAction(cmd: Command, accessOk: bool, validationOk: bool, resumeOk: bool) returns (answer: Answer)
      modifies this, suspensionStore, receiptStore
      ensures DecidedByStores(answer) ==> answer == AtomicAnswer(old(Now()), cmd)
      ensures answer.NotFound? <==> !accessOk || (cmd.taskId, cmd.suspendId) !in old(suspensionStore.suspensions)
      ensures answer.ActionNotAllowed? <==>
        && accessOk && (cmd.taskId, cmd.suspendId) in old(suspensionStore.suspensions)
        && cmd.actionType !in old(suspensionStore.suspensions)[(cmd.taskId, cmd.suspendId)].allowedActions
      ensures answer.InvalidRequest? <==>
        && accessOk && cmd.actionType == "a2ui_action" && (cmd.taskId, cmd.suspendId) in old(suspensionStore.suspensions)
        && cmd.actionType in old(suspensionStore.suspensions)[(cmd.taskId, cmd.suspendId)].allowedActions
        && (cmd.metadata == map[]
            || (Fresh(old(suspensionStore.suspensions), old(receiptStore.receipts), cmd) && !host.hasValidationPolicy))
      ensures answer.PolicyRefused? <==>
        accessOk && Fresh(old(suspensionStore.suspensions), old(receiptStore.receipts), cmd) && host.hasValidationPolicy && !validationOk
      ensures answer.NoResumeService? <==>
        && accessOk && Fresh(old(suspensionStore.suspensions), old(receiptStore.receipts), cmd) && cmd.actionType == "a2ui_action"
        && host.hasValidationPolicy && validationOk && !host.hasResumeService
      ensures answer.Accepted? <==>
        && accessOk && Fresh(old(suspensionStore.suspensions), old(receiptStore.receipts), cmd)
        && (host.hasValidationPolicy ==> validationOk)
        && (cmd.actionType == "a2ui_action" ==> host.hasValidationPolicy && host.hasResumeService)
      ensures !answer.Accepted? ==> Now() == old(Now())
      ensures answer.Accepted? ==>
        && SuspKey(cmd) in suspensionStore.suspensions
        && suspensionStore.suspensions[SuspKey(cmd)]
           == AcceptedRecord(old(suspensionStore.suspensions)[SuspKey(cmd)], cmd.clientActionId).(handoff := if resumeOk then Dispatched else Pending)
        && suspensionStore.suspensions - {SuspKey(cmd)} == old(suspensionStore.suspensions) - {SuspKey(cmd)}
        && receiptStore.receipts == old(receiptStore.receipts)[ReceiptKey(cmd) := ReceiptOf(cmd)]
        && events == old(events) + [EventOf(cmd)] && resumes == old(resumes) + [cmd]
    {
      hide SameAction, Repeats, ReceiptOf, EventOf, AcceptIfOpen, AcceptedRecord, MarkDispatched;
      if !accessOk { return NotFound; }
      var found := suspensionStore.GetSuspension(cmd.taskId, cmd.suspendId);
      if found.None? { return NotFound; }
      var suspension := found.value;
      if cmd.actionType !in suspension.allowedActions { return ActionNotAllowed; }
      if NeedsHost(cmd) && cmd.metadata == map[] { return InvalidRequest; }

      var existing := receiptStore.GetReceipt(cmd.taskId, cmd.clientActionId);
      if existing.Some? {
        RepeatsIs(existing.value, cmd);
        return if SameAction(existing.value, cmd) then Deduplicated else IdempotencyConflict;
      }
      if suspension.status.Expired? { return RejectedExpired; }
      if !suspension.status.Open? {
        return if suspension.successfulActionId == Some(cmd.clientActionId) then TaskConflict else RejectedAlreadyResolved;
      }
      if NeedsHost(cmd) && !host.hasValidationPolicy { return InvalidRequest; }
      if host.hasValidationPolicy && !validationOk { return PolicyRefused; }
      if NeedsHost(cmd) && !host.hasResumeService { return NoResumeService; }

      var accepted := suspensionStore.AcceptActionIfOpen(cmd.taskId, cmd.suspendId, cmd.clientActionId);
      // Undisturbed, the suspension read above is still open, so the compare-and-set cannot be lost.
      AcceptedAndMarked(old(suspensionStore.suspensions), SuspKey(cmd), cmd.clientActionId);
      ReceiptIsKeyed(cmd);
      receiptStore.SaveReceipt(ReceiptOf(cmd));
      events := events + [EventOf(cmd)];
      resumes := resumes + [cmd];
      if resumeOk {
        var marked := suspensionStore.MarkResumeDispatched(cmd.taskId, cmd.suspendId);
      }
      return Accepted;
    }

    /** One pending record: pass over it, hand it off, or raise. */
    method ReconcileOne(s: Suspension, resumeRaises: bool) returns (outcome: ReconcileOutcome)
      requires RecordKey(s) in suspensionStore.suspensions
      modifies this`resumes, suspensionStore
      ensures outcome.PassedOver? <==> IsSkipped(receiptStore.receipts, s)
      ensures outcome.RaisedError? <==>
        && !IsSkipped(receiptStore.receipts, s)
        && (resumeRaises || (ResumeCommand(receiptStore.receipts, s).actionType == "a2ui_action" && !host.hasResumeService))
      ensures suspensionStore.suspensions
           == if outcome.HandedOff? then MarkDispatched(old(suspensionStore.suspensions), RecordKey(s)) else old(suspensionStore.suspensions)
      ensures resumes
           == if outcome.PassedOver? || (ResumeCommand(receiptStore.receipts, s).actionType == "a2ui_action" && !host.hasResumeService) then old(resumes)
              else old(resumes) + [ResumeCommand(receiptStore.receipts, s)]
    {
      if s.successfulActionId.None? { return PassedOver; }
      var found := receiptStore.GetReceipt(s.taskId, s.successfulActionId.value);
      if found.None? { return PassedOver; }
      var receipt := found.value;
      if receipt.actionType == A2UI_ACTION && receipt.metadata == map[] { return PassedOver; }
      if receipt.actionType == A2UI_ACTION && !host.hasResumeService { return RaisedError; }
      resumes := resumes + [CommandOf(receipt)];
      if resumeRaises { return RaisedError; }
      var marked := suspensionStore.MarkResumeDispatched(s.taskId, s.suspendId);
      return HandedOff;
    }

    /**
     * One reconcile pass; the resumes of `failing` suspensions raise. `None` is the raised error, and
     * a pass ends with it exactly if some reconcilable record raises. A pass that returns has handed
     * off every pending record except the skipped ones, and counts them; a pass that raises has
     * handed off some of them, each resumed from its own receipt.
     */
    method ReconcilePendingResumes(failing: set<Key>) returns (processed: Option<nat>)
      requires WellKeyed(suspensionStore.suspensions)
      modifies this`resumes, suspensionStore
      ensures old(resumes) <= resumes
      ensures exists done ::
        && PassEnds(host, old(suspensionStore.suspensions), suspensionStore.suspensions, receiptStore.receipts, failing, done, processed)
        && EachResumed(old(suspensionStore.suspensions), receiptStore.receipts, done, resumes[|old(resumes)|..], processed)
      ensures ResumedFromReceipts(old(suspensionStore.suspensions), receiptStore.receipts, resumes[|old(resumes)|..])
    {
      hide *;
      ghost var before, receipts := suspensionStore.suspensions, receiptStore.receipts;
      var listing := suspensionStore.ListPendingResumeHandoffs();
      var count := 0;
      ghost var done: set<Key>, made: seq<Command> := {}, [];
      PassStarts(host, before, receipts, failing, listing);
      for i := 0 to |listing|
        invariant Passing(host, before, suspensionStore.suspensions, receipts, failing, listing, i, done, made)
        invariant resumes == old(resumes) + made && count == |done|
      {
        var s := listing[i];
        ghost var now := suspensionStore.suspensions;
        RecordIsThere(host, before, now, receipts, failing, listing, i, done, made);
        var outcome := ReconcileOne(s, RecordKey(s) in failing);
        ghost var more := resumes[|old(resumes)|..];
        assert resumes == old(resumes) + more;
        PassGoesOn(host, before, now, suspensionStore.suspensions, receipts, failing, listing, i, done, made, more, outcome);
        made := more;
        match outcome {
          case PassedOver =>
          case RaisedError => return None;
          case HandedOff =>
            done := done + {RecordKey(s)};
            count := count + 1;
        }
      }
      PassReturns(host, before, suspensionStore.suspensions, receipts, failing, listing, done, made);
      return Some(count);
    }

    /** One retention pass: receipts first, then open suspensions, with the numbers removed and expired. */
    method PruneExpiredState(now: int) returns (expiredReceipts: nat, expiredSuspensions: nat)
      modifies suspensionStore, receiptStore
      ensures receiptStore.receipts == DeleteExpired(old(receiptStore.receipts), now)
      ensures suspensionStore.suspensions == ExpireOpen(old(suspensionStore.suspensions), now)
      ensures expiredReceipts == |old(receiptStore.receipts)| - |receiptStore.receipts|
      ensures expiredSuspensions == |OverdueAmong(old(suspensionStore.suspensions), old(suspensionStore.suspensions).Keys, now)|
    {
      expiredReceipts := receiptStore.DeleteExpiredReceipts(now);
      expiredSuspensions := suspensionStore.ExpireOpenSuspensions(now);
    }
  }

  /** After a complete pass exactly the skipped records are still pending. */
  lemma {:induction false} OnlySkippedStayPending(susp: Suspensions, receipts: Receipts, key: Key)
    requires key in susp
    ensures MarkAmong(susp, Reconcilable(susp, receipts))[key].handoff.Pending?
       <==> susp[key].handoff.Pending? && IsSkipped(receipts, susp[key])
  {
  }
}
