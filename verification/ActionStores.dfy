/** Suspensions and action receipts, and the two in-memory stores that update them in place. */
module ActionStores {
  import opened Options

  type Json = map<string, string>

  datatype SuspensionStatus = Open | Resolved | Expired | Cancelled

  datatype HandoffStatus = NoHandoff | Pending | Dispatched

  datatype Suspension = Suspension(
    taskId: string,
    suspendId: string,
    status: SuspensionStatus,
    allowedActions: set<string>,
    expiresAt: Option<int>,
    successfulActionId: Option<string>,
    handoff: HandoffStatus)

  datatype Receipt = Receipt(
    taskId: string,
    suspendId: string,
    clientActionId: string,
    actionType: string,
    payload: Json,
    metadata: Json,
    actorId: string,
    expiresAt: Option<int>)

  /** `(task, suspension)` or `(task, client action)`. */
  type Key = (string, string)

  type Suspensions = map<Key, Suspension>

  type Receipts = map<Key, Receipt>

  predicate CanAccept(susp: Suspensions, key: Key) {
    key in susp && susp[key].status.Open?
  }

  function AcceptedRecord(s: Suspension, clientActionId: string): Suspension {
    s.(status := Resolved, successfulActionId := Some(clientActionId), handoff := Pending)
  }

  /** The compare-and-set: resolve the suspension if it is open, otherwise leave everything alone. */
  function AcceptIfOpen(susp: Suspensions, key: Key, clientActionId: string): Suspensions {
    if CanAccept(susp, key) then susp[key := AcceptedRecord(susp[key], clientActionId)] else susp
  }

  function MarkDispatched(susp: Suspensions, key: Key): Suspensions {
    if key in susp then susp[key := susp[key].(handoff := Dispatched)] else susp
  }

  predicate IsOverdue(s: Suspension, now: int) {
    s.status.Open? && s.expiresAt.Some? && s.expiresAt.value < now
  }

  /** Expire the overdue suspensions among `keys`. */
  function ExpireAmong(susp: Suspensions, keys: set<Key>, now: int): Suspensions {
    map key | key in susp :: if key in keys && IsOverdue(susp[key], now) then susp[key].(status := Expired) else susp[key]
  }

  function ExpireOpen(susp: Suspensions, now: int): Suspensions {
    ExpireAmong(susp, susp.Keys, now)
  }

  function OverdueAmong(susp: Suspensions, keys: set<Key>, now: int): set<Key> {
    set key | key in keys && key in susp && IsOverdue(susp[key], now)
  }

  lemma {:induction false} ExpireOneMore(susp: Suspensions, keys: set<Key>, key: Key, now: int)
    requires key in susp && key !in keys
    ensures if IsOverdue(susp[key], now)
            then ExpireAmong(susp, keys + {key}, now) == ExpireAmong(susp, keys, now)[key := susp[key].(status := Expired)]
                 && OverdueAmong(susp, keys + {key}, now) == OverdueAmong(susp, keys, now) + {key}
            else ExpireAmong(susp, keys + {key}, now) == ExpireAmong(susp, keys, now)
                 && OverdueAmong(susp, keys + {key}, now) == OverdueAmong(susp, keys, now)
  {
  }

  function RecordKey(s: Suspension): Key { (s.taskId, s.suspendId) }

  /** Every record is filed under its own ids. */
  ghost predicate WellKeyed(susp: Suspensions) {
    forall key :: key in susp ==> RecordKey(susp[key]) == key
  }

  /** A listing of exactly the records whose hand-off is pending, each once. */
  ghost predicate IsListing(susp: Suspensions, listing: seq<Suspension>) {
    && (forall s :: s in listing ==> RecordKey(s) in susp && susp[RecordKey(s)] == s && s.handoff.Pending?)
    && (forall key :: key in susp && susp[key].handoff.Pending? ==> susp[key] in listing)
    && (forall i, j :: 0 <= i < j < |listing| ==> RecordKey(listing[i]) != RecordKey(listing[j]))
  }

  predicate IsStale(r: Receipt, now: int) {
    r.expiresAt.Some? && r.expiresAt.value < now
  }

  function DeleteExpired(receipts: Receipts, now: int): Receipts {
    map key | key in receipts && !IsStale(receipts[key], now) :: receipts[key]
  }

  /** Expiry said record by record: open and past its time, strictly, and nothing else. */
  ghost predicate ExpiredExactly(before: Suspensions, after: Suspensions, now: int) {
    && after.Keys == before.Keys
    && forall key :: key in before ==>
         after[key] == match before[key]
                       case Suspension(t, s, Open, actions, Some(time), id, handoff) =>
                         if time < now then Suspension(t, s, Expired, actions, Some(time), id, handoff) else before[key]
                       case _ => before[key]
  }

  lemma {:induction false} ExpiresExactly(susp: Suspensions, now: int)
    ensures ExpiredExactly(susp, ExpireOpen(susp, now), now)
  {
  }

  /** Deletion said record by record: a receipt stays unless it has an expiry and is past it, strictly. */
  ghost predicate DeletedExactly(before: Receipts, after: Receipts, now: int) {
    && after.Keys <= before.Keys
    && forall key :: key in before ==>
         && (key in after <==> before[key].expiresAt.None? || before[key].expiresAt.value >= now)
         && (key in after ==> after[key] == before[key])
  }

  lemma {:induction false} DeletesExactly(receipts: Receipts, now: int)
    ensures DeletedExactly(receipts, DeleteExpired(receipts, now), now)
  {
  }

  class InMemorySuspensionStore {
    var suspensions: Suspensions

    constructor ()
      ensures suspensions == map[]
    {
      suspensions := map[];
    }

    /** `None` is the missing-key error. */
    method GetSuspension(taskId: string, suspendId: string) returns (r: Option<Suspension>)
      ensures r == if (taskId, suspendId) in suspensions then Some(suspensions[(taskId, suspendId)]) else None
    {
      var key := (taskId, suspendId);
      r := if key in suspensions then Some(suspensions[key]) else None;
    }

    method AcceptActionIfOpen(taskId: string, suspendId: string, clientActionId: string) returns (r: Option<Suspension>)
      modifies this
      ensures suspensions == AcceptIfOpen(old(suspensions), (taskId, suspendId), clientActionId)
      ensures r == if CanAccept(old(suspensions), (taskId, suspendId)) then Some(suspensions[(taskId, suspendId)]) else None
    {
      var key := (taskId, suspendId);
      if key !in suspensions || !suspensions[key].status.Open? {
        return None;
      }
      var updated := suspensions[key].(status := Resolved, successfulActionId := Some(clientActionId), handoff := Pending);
      suspensions := suspensions[key := updated];
      return Some(updated);
    }

    /** `None` is the missing-key error. */
    method MarkResumeDispatched(taskId: string, suspendId: string) returns (r: Option<Suspension>)
      modifies this
      ensures suspensions == MarkDispatched(old(suspensions), (taskId, suspendId))
      ensures r == if (taskId, suspendId) in suspensions then Some(suspensions[(taskId, suspendId)]) else None
    {
      var key := (taskId, suspendId);
      if key !in suspensions { return None; }
      suspensions := suspensions[key := suspensions[key].(handoff := Dispatched)];
      return Some(suspensions[key]);
    }

    /** Every pending record once; the dictionary's order is left open. */
    method ListPendingResumeHandoffs() returns (listing: seq<Suspension>)
      requires WellKeyed(suspensions)
      ensures IsListing(suspensions, listing)
    {
      listing := [];
      var keys := suspensions.Keys;
      while keys != {}
        invariant keys <= suspensions.Keys
        invariant forall s :: s in listing ==>
          RecordKey(s) in suspensions.Keys - keys && suspensions[RecordKey(s)] == s && s.handoff.Pending?
        invariant forall key :: key in suspensions.Keys - keys && suspensions[key].handoff.Pending? ==> suspensions[key] in listing
        invariant forall i, j :: 0 <= i < j < |listing| ==> RecordKey(listing[i]) != RecordKey(listing[j])
        decreases keys
      {
        var key :| key in keys;
        if suspensions[key].handoff.Pending? {
          assert forall s :: s in listing ==> RecordKey(s) != key;
          listing := listing + [suspensions[key]];
        }
        keys := keys - {key};
      }
    }

    method ExpireOpenSuspensions(expiresBefore: int) returns (count: nat)
      modifies this
      ensures suspensions == ExpireOpen(old(suspensions), expiresBefore)
      ensures count == |OverdueAmong(old(suspensions), old(suspensions).Keys, expiresBefore)|
      ensures ExpiredExactly(old(suspensions), suspensions, expiresBefore)
    {
      count := 0;
      var keys := suspensions.Keys;
      ghost var before, done := suspensions, {};
      while keys != {}
        invariant keys + done == before.Keys && keys !! done
        invariant suspensions == ExpireAmong(before, done, expiresBefore)
        invariant count == |OverdueAmong(before, done, expiresBefore)|
        decreases keys
      {
        var key :| key in keys;
        ExpireOneMore(before, done, key, expiresBefore);
        var s := suspensions[key];
        if s.status.Open? && s.expiresAt.Some? && s.expiresAt.value < expiresBefore {
          suspensions := suspensions[key := s.(status := Expired)];
          count := count + 1;
        }
        keys, done := keys - {key}, done + {key};
      }
      assert done == before.Keys;
      ExpiresExactly(before, expiresBefore);
    }
  }

  class InMemoryActionReceiptStore {
    var receipts: Receipts

    constructor ()
      ensures receipts == map[]
    {
      receipts := map[];
    }

    method SaveReceipt(receipt: Receipt)
      modifies this
      ensures receipts == old(receipts)[(receipt.taskId, receipt.clientActionId) := receipt]
    {
      receipts := receipts[(receipt.taskId, receipt.clientActionId) := receipt];
    }

    method GetReceipt(taskId: string, clientActionId: string) returns (r: Option<Receipt>)
      ensures r == if (taskId, clientActionId) in receipts then Some(receipts[(taskId, clientActionId)]) else None
    {
      var key := (taskId, clientActionId);
      r := if key in receipts then Some(receipts[key]) else None;
    }

    method DeleteExpiredReceipts(expiresBefore: int) returns (count: nat)
      modifies this
      ensures receipts == DeleteExpired(old(receipts), expiresBefore)
      ensures count == |old(receipts)| - |receipts|
      ensures DeletedExactly(old(receipts), receipts, expiresBefore)
    {
      var toDelete := set key | key in receipts && IsStale(receipts[key], expiresBefore);
      assert receipts.Keys == (receipts.Keys - toDelete) + toDelete;
      receipts := receipts - toDelete;
      assert receipts.Keys == old(receipts).Keys - toDelete;
      count := |toDelete|;
    }
  }
}
