/** Which pending hand-offs can still be dispatched. */
module ActionDispatch {
  import opened Options
  import opened ActionStores
  import opened ActionProtocol
  import opened ActionInvariant
  import opened ActionTheorems

  /** The suspension is resolved and waiting, and the receipt of its action is saved. */
  ghost predicate HasItsReceipt(w: World, key: Key) {
    key in w.susp && w.susp[key].successfulActionId.Some? && (key.0, w.susp[key].successfulActionId.value) in w.receipts
  }

  /** The winner of the suspension is alive and about to save its receipt. */
  ghost predicate WinnerAlive(w: World, key: Key) {
    exists p :: p in w.calls && w.calls[p].Won? && SuspKey(w.calls[p].cmd) == key
  }

  ghost predicate IsPending(w: World, key: Key) {
    key in w.susp && w.susp[key].handoff.Pending?
  }

  /** A crash between the compare-and-set and the receipt leaves this. */
  ghost predicate Stranded(w: World, key: Key) {
    IsPending(w, key) && !HasItsReceipt(w, key) && !WinnerAlive(w, key)
  }

  /** Nobody who would save the receipt, or mark the suspension, exists in a stranded state. */
  lemma {:induction false} NobodyServesStranded(host: Host, home: Key -> string, w: World, key: Key, p: nat)
    requires Inv(host, home, w) && Stranded(w, key) && p in w.calls
    ensures w.calls[p].Won? ==> SuspKey(w.calls[p].cmd) != key && ReceiptKey(w.calls[p].cmd) != (key.0, w.susp[key].successfulActionId.value)
    ensures w.calls[p].Resumed? ==> SuspKey(w.calls[p].cmd) != key
    ensures w.calls[p].ReResumed? ==> w.calls[p].todo != [] && RecordKey(w.calls[p].todo[0]) != key
  {
    var call := w.calls[p];
    assert CallOk(host, home, w, call);
    assert SuspensionOk(home, w.susp[key]);
    if call.Resumed? {
      ResumeIsTheReceipt(host, home, w, call.cmd);
    }
    if call.ReResumed? {
      var c :| c in w.resumes && SuspKey(c) == RecordKey(call.todo[0]);
      ResumeIsTheReceipt(host, home, w, c);
    }
  }

  lemma {:induction false} StrandedStaysByAdvance(host: Host, home: Key -> string, w: World, key: Key, p: nat, ok: bool)
    requires Inv(host, home, w) && Stranded(w, key) && p in w.calls
    ensures Stranded(Advance(host, w, p, ok), key)
  {
    NobodyServesStranded(host, home, w, key, p);
    assert SuspensionOk(home, w.susp[key]);
    var w' := Advance(host, w, p, ok);
    assert key in w'.susp && w'.susp[key] == w.susp[key] by { AdvanceSparesStranded(host, w, key, p, ok); }
    ReceiptsOfAdvance(host, w, p, ok);
    hide Advance;
    forall q | q in w'.calls && w'.calls[q].Won? ensures SuspKey(w'.calls[q].cmd) != key {
      WinnersOfAdvance(host, w, p, ok, q);
    }
  }

  lemma {:induction false} AdvanceSparesStranded(host: Host, w: World, key: Key, p: nat, ok: bool)
    requires p in w.calls && key in w.susp && !w.susp[key].status.Open?
    requires w.calls[p].Resumed? ==> SuspKey(w.calls[p].cmd) != key
    requires w.calls[p].ReResumed? ==> w.calls[p].todo != [] && RecordKey(w.calls[p].todo[0]) != key
    ensures var w' := Advance(host, w, p, ok); key in w'.susp && w'.susp[key] == w.susp[key]
  {
    hide CheckSuspension, CheckReceipt, AfterValidation, CheckLost, CheckWinner, CheckPending;
  }

  /** Receipts change only when a winner saves. */
  lemma {:induction false} ReceiptsOfAdvance(host: Host, w: World, p: nat, ok: bool)
    requires p in w.calls
    ensures Advance(host, w, p, ok).receipts
         == if w.calls[p].Won? then w.receipts[ReceiptKey(w.calls[p].cmd) := ReceiptOf(w.calls[p].cmd)] else w.receipts
  {
    hide CheckSuspension, CheckReceipt, AfterValidation, CheckLost, CheckWinner, CheckPending, AcceptIfOpen, MarkDispatched;
  }

  /** A winner after the step was one before, or has just resolved an open suspension. */
  lemma {:induction false} WinnersOfAdvance(host: Host, w: World, p: nat, ok: bool, q: nat)
    requires p in w.calls && q in Advance(host, w, p, ok).calls && Advance(host, w, p, ok).calls[q].Won?
    ensures q in w.calls && ((w.calls[q] == Advance(host, w, p, ok).calls[q])
                          || (w.calls[q].Accepting? && w.calls[q].cmd == Advance(host, w, p, ok).calls[q].cmd && CanAccept(w.susp, SuspKey(w.calls[q].cmd))))
  {
    if q == p {
      if OnlyReads(w.calls[p]) { OwnRead(host, w, p, ok); } else { OwnMove(host, w, p, ok); }
    } else {
      AdvanceLeavesOthers(host, w, p, ok, q);
    }
  }

  lemma {:induction false} StrandedStays(host: Host, home: Key -> string, w: World, key: Key, step: Step)
    requires Inv(host, home, w) && Stranded(w, key) && (step.Submit? ==> Homely(host, home, step.cmd))
    ensures Stranded(Exec(host, w, step), key)
  {
    assert SuspensionOk(home, w.susp[key]);
    match step
    case Next(p, ok) => if p in w.calls { StrandedStaysByAdvance(host, home, w, key, p, ok); }
    case PruneReceipts(now) => RetentionKeepsInv(host, home, w, now);
    case _ =>
  }

  lemma {:induction false} NoResumeOfStranded(host: Host, home: Key -> string, w: World, key: Key, c: Command)
    requires Inv(host, home, w) && Stranded(w, key) && c in w.resumes
    ensures SuspKey(c) != key
  {
    ResumeIsTheReceipt(host, home, w, c);
  }

  /** A stranded suspension is never dispatched, resumed or given a receipt, whatever happens next. */
  lemma {:induction false} StrandedForever(host: Host, home: Key -> string, w: World, key: Key, steps: seq<Step>, k: nat)
    requires Inv(host, home, w) && Stranded(w, key) && Disciplined(host, home, steps) && k <= |steps|
    ensures Stranded(Run(host, w, steps, k), key)
    ensures forall c :: c in Run(host, w, steps, k).resumes ==> SuspKey(c) != key
  {
    hide Inv, Stranded, Exec;
    if k > 0 {
      StrandedForever(host, home, w, key, steps, k - 1);
      RunKeepsInv(host, home, w, steps, k - 1, k - 1);
      StrandedStays(host, home, Run(host, w, steps, k - 1), key, steps[k - 1]);
      RunStep(host, w, steps, k - 1);
    }
    RunKeepsInv(host, home, w, steps, k, k);
    forall c | c in Run(host, w, steps, k).resumes ensures SuspKey(c) != key {
      NoResumeOfStranded(host, home, Run(host, w, steps, k), key, c);
    }
  }

  // The other direction: with a receipt, or a live winner, a hand-off can be completed.

  function NextFour(p: nat): seq<Step> { [Next(p, true), Next(p, true), Next(p, true), Next(p, true)] }

  lemma {:induction false} RunFour(host: Host, w: World, p: nat)
    requires p in w.calls
    ensures var w1 := Exec(host, w, Next(p, true)); var w2 := Exec(host, w1, Next(p, true)); var w3 := Exec(host, w2, Next(p, true));
            Run(host, w, NextFour(p), 4) == Exec(host, w3, Next(p, true))
  {
    hide Exec;
    var steps := NextFour(p);
    RunStep(host, w, steps, 0);
    RunStep(host, w, steps, 1);
    RunStep(host, w, steps, 2);
    RunStep(host, w, steps, 3);
    assert Run(host, w, steps, 0) == w;
  }

  /** Left alone, a live winner saves, announces, resumes and marks. */
  lemma {:induction false} WinnerFinishes(host: Host, home: Key -> string, w: World, p: nat)
    requires Inv(host, home, w) && p in w.calls && w.calls[p].Won?
    ensures var key := SuspKey(w.calls[p].cmd);
            key in Run(host, w, NextFour(p), 4).susp && Run(host, w, NextFour(p), 4).susp[key].handoff.Dispatched?
  {
    hide Run, Inv, Exec, Advance, MarkDispatched, NextFour;
    var cmd := w.calls[p].cmd;
    WinnerResolved(host, home, w, p) by { WonWins(w.calls[p]); }
    RunFour(host, w, p);
    WinnerStep(host, w, p);
    var w1 := Exec(host, w, Next(p, true));
    WinnerStep(host, w1, p);
    var w2 := Exec(host, w1, Next(p, true));
    WinnerStep(host, w2, p);
    var w3 := Exec(host, w2, Next(p, true));
    WinnerStep(host, w3, p);
    Marked(w.susp, SuspKey(cmd));
  }

  lemma {:induction false} WonWins(call: Call)
    ensures call.Won? ==> Winning(call)
  {
  }

  lemma {:induction false} Marked(susp: Suspensions, key: Key)
    requires key in susp
    ensures key in MarkDispatched(susp, key) && MarkDispatched(susp, key)[key].handoff.Dispatched?
  {
  }

  /** The winner's next action when nothing fails; only the last one touches the suspension. */
  lemma {:induction false} WinnerStep(host: Host, w: World, p: nat)
    requires p in w.calls
    ensures var w1 := Exec(host, w, Next(p, true));
      match w.calls[p]
      case Won(cmd) => p in w1.calls && w1.calls[p] == Saved(cmd) && w1.susp == w.susp
      case Saved(cmd) => p in w1.calls && w1.calls[p] == Announced(cmd) && w1.susp == w.susp
      case Announced(cmd) => p in w1.calls && w1.calls[p] == Resumed(cmd) && w1.susp == w.susp
      case Resumed(cmd) => w1.susp == MarkDispatched(w.susp, SuspKey(cmd))
      case _ => true
  {
    hide CheckSuspension, CheckReceipt, AfterValidation, CheckLost, CheckWinner, CheckPending, AcceptIfOpen, MarkDispatched, ReceiptOf, EventOf,
         CommandOf, CanAccept, SuspKey, ReceiptKey, RecordKey;
  }

  /** The pending records in some order, the wanted one first. */
  lemma {:induction false} ListingFrom(susp: Suspensions, key: Key) returns (listing: seq<Suspension>)
    requires WellKeyed(susp) && key in susp && susp[key].handoff.Pending?
    ensures IsListing(susp, listing) && listing != [] && listing[0] == susp[key]
  {
    listing := [susp[key]];
    var keys := susp.Keys - {key};
    while keys != {}
      invariant keys <= susp.Keys && key !in keys
      invariant listing != [] && listing[0] == susp[key]
      invariant forall s :: s in listing ==> RecordKey(s) in susp.Keys - keys && susp[RecordKey(s)] == s && s.handoff.Pending?
      invariant forall k :: k in susp.Keys - keys && susp[k].handoff.Pending? ==> susp[k] in listing
      invariant forall i, j :: 0 <= i < j < |listing| ==> RecordKey(listing[i]) != RecordKey(listing[j])
      decreases keys
    {
      var k :| k in keys;
      if susp[k].handoff.Pending? {
        assert forall s :: s in listing ==> RecordKey(s) != k;
        listing := listing + [susp[k]];
      }
      keys := keys - {k};
    }
  }

  lemma {:induction false} FreshCall(w: World) returns (p: nat)
    ensures p !in w.calls
  {
    p := 0;
    var keys := w.calls.Keys;
    while keys != {}
      invariant keys <= w.calls.Keys
      invariant forall q :: q in w.calls && q !in keys ==> q < p
      decreases keys
    {
      var q :| q in keys;
      if p <= q { p := q + 1; }
      keys := keys - {q};
    }
  }

  /** The record's receipt is never skipped by a reconciler, and names the suspension. */
  lemma {:induction false} PendingIsPickedUp(host: Host, home: Key -> string, w: World, key: Key, listing: seq<Suspension>)
    requires Inv(host, home, w) && HasItsReceipt(w, key) && listing != [] && listing[0] == w.susp[key]
    ensures RecordKey(listing[0]) == key
    ensures CheckPending(host, w.receipts, listing, 0).HasReceipt? && CheckPending(host, w.receipts, listing, 0).todo == listing
  {
    var rk := (key.0, w.susp[key].successfulActionId.value);
    assert ReceiptOk(host, home, w.susp, rk, w.receipts[rk]);
  }

  lemma {:induction false} ReconcilerMoves(host: Host, w: World, p: nat)
    requires p in w.calls
    ensures w.calls[p].Reconciling? && w.calls[p].todo != [] ==>
      Exec(host, w, Next(p, true)) == Goto(w, p, CheckPending(host, w.receipts, w.calls[p].todo, w.calls[p].processed))
    ensures w.calls[p].HasReceipt? ==>
      Exec(host, w, Next(p, true)).susp == w.susp
      && Exec(host, w, Next(p, true)).calls == w.calls[p := ReResumed(w.calls[p].todo, w.calls[p].processed)]
    ensures w.calls[p].ReResumed? && w.calls[p].todo != [] ==>
      Exec(host, w, Next(p, true)).susp == MarkDispatched(w.susp, RecordKey(w.calls[p].todo[0]))
  {
    hide CheckPending, MarkDispatched;
  }

  /** A reconciler that starts with the record finds its receipt, resumes and marks it. */
  lemma {:induction false} ReconcilerFinishes(host: Host, home: Key -> string, w: World, key: Key, p: nat, listing: seq<Suspension>)
    requires Inv(host, home, w) && IsPending(w, key) && HasItsReceipt(w, key) && p !in w.calls
    requires IsListing(w.susp, listing) && listing != [] && listing[0] == w.susp[key]
    ensures var now := Run(host, w, [Reconcile(p, listing)] + NextFour(p), 4); key in now.susp && now.susp[key].handoff.Dispatched?
  {
    hide Run, Inv, Advance;
    PendingIsPickedUp(host, home, w, key, listing);
    var w1 := Exec(host, w, Reconcile(p, listing));
    assert w1 == Goto(w, p, Reconciling(listing, 0));
    hide CheckPending;
    ReconcilerMoves(host, w1, p);
    var w2 := Exec(host, w1, Next(p, true));
    ReconcilerMoves(host, w2, p);
    var w3 := Exec(host, w2, Next(p, true));
    ReconcilerMoves(host, w3, p);
    RunReconciler(host, w, p, listing);
  }

  lemma {:induction false} RunReconciler(host: Host, w: World, p: nat, listing: seq<Suspension>)
    ensures var w1 := Exec(host, w, Reconcile(p, listing)); var w2 := Exec(host, w1, Next(p, true)); var w3 := Exec(host, w2, Next(p, true));
            Run(host, w, [Reconcile(p, listing)] + NextFour(p), 4) == Exec(host, w3, Next(p, true))
  {
    hide Exec;
    var steps := [Reconcile(p, listing)] + NextFour(p);
    RunStep(host, w, steps, 0);
    RunStep(host, w, steps, 1);
    RunStep(host, w, steps, 2);
    RunStep(host, w, steps, 3);
    assert Run(host, w, steps, 0) == w;
  }

  ghost predicate CanBeDispatched(host: Host, home: Key -> string, w: World, key: Key) {
    exists steps: seq<Step>, k: nat :: k <= |steps| && Disciplined(host, home, steps)
      && key in Run(host, w, steps, k).susp && Run(host, w, steps, k).susp[key].handoff.Dispatched?
  }

  lemma {:induction false} NoSubmits(host: Host, home: Key -> string, p: nat, listing: seq<Suspension>)
    ensures |NextFour(p)| == 4 && Disciplined(host, home, NextFour(p)) && Disciplined(host, home, [Reconcile(p, listing)] + NextFour(p))
  {
  }

  lemma {:induction false} InvIsWellKeyed(host: Host, home: Key -> string, w: World)
    requires Inv(host, home, w)
    ensures WellKeyed(w.susp)
  {
  }

  /**
   * Exactly when a pending hand-off can still be completed: its receipt is saved, or the call that
   * won it is alive and about to save it. A crash in between strands the suspension for good.
   */
  lemma {:induction false} DispatchableIff(host: Host, home: Key -> string, w: World, key: Key)
    requires Inv(host, home, w) && IsPending(w, key)
    ensures CanBeDispatched(host, home, w, key) <==> HasItsReceipt(w, key) || WinnerAlive(w, key)
  {
    hide Run, Inv, HasItsReceipt, IsListing, WellKeyed, NextFour, Disciplined;
    if HasItsReceipt(w, key) {
      var p := FreshCall(w);
      InvIsWellKeyed(host, home, w);
      var listing := ListingFrom(w.susp, key);
      ReconcilerFinishes(host, home, w, key, p, listing);
      NoSubmits(host, home, p, listing);
    } else if WinnerAlive(w, key) {
      var p :| p in w.calls && w.calls[p].Won? && SuspKey(w.calls[p].cmd) == key;
      WinnerFinishes(host, home, w, p);
      NoSubmits(host, home, p, []);
    } else {
      forall steps: seq<Step>, k: nat | k <= |steps| && Disciplined(host, home, steps)
        ensures key in Run(host, w, steps, k).susp && !Run(host, w, steps, k).susp[key].handoff.Dispatched?
      {
        StrandedForever(host, home, w, key, steps, k);
      }
    }
  }
}
