/**
 * What holds of accepting actions on every run, however clients reuse action ids: one accept, one
 * receipt, one event and one resumed command per suspension, and outcomes that never change.
 */
module ActionOutcomes {
  import opened Options
  import opened ActionStores
  import opened ActionProtocol
  import opened ActionInvariant
  import opened ActionTheorems

  ghost predicate RecordOk(s: Suspension) {
    && (s.status.Resolved? <==> s.successfulActionId.Some?)
    && (s.successfulActionId.Some? <==> !s.handoff.NoHandoff?)
  }

  ghost predicate RecordsOk(susp: Suspensions) {
    WellKeyed(susp) && forall key :: key in susp ==> RecordOk(susp[key])
  }

  /** Every receipt is filed under its own action id and never expires. */
  ghost predicate Filed(receipts: Receipts) {
    forall key :: key in receipts ==> key == (receipts[key].taskId, receipts[key].clientActionId) && receipts[key].expiresAt.None?
  }

  ghost predicate AnnouncementOk(w: World, e: AcceptedEvent) {
    ResolvedBy(w.susp, EventKey(e), e.clientActionId) && (e.taskId, e.clientActionId) in w.receipts
  }

  ghost predicate AnnouncementsOk(w: World) {
    && (forall i :: 0 <= i < |w.events| ==> AnnouncementOk(w, w.events[i]))
    && (forall i, j :: 0 <= i < j < |w.events| ==> EventKey(w.events[i]) != EventKey(w.events[j]))
  }

  /** The call acts, or acted, for the accepted command. */
  ghost predicate Carries(call: Call, c: Command) {
    (Winning(call) && call.cmd == c) || (call.HasReceipt? && CommandOf(call.receipt) == c)
  }

  ghost predicate CarriedBy(w: World, p: nat, c: Command) {
    p in w.calls && Carries(w.calls[p], c)
  }

  ghost predicate FiledFor(w: World, key: Key, c: Command) {
    key in w.receipts && CommandOf(w.receipts[key]) == c
  }

  /** Something in the world says that the command was accepted. */
  ghost predicate Claimed(w: World, c: Command) {
    c in w.resumes || (exists key :: FiledFor(w, key, c)) || (exists p :: CarriedBy(w, p, c))
  }

  /** Whatever claims a suspension names the one command that resolved it. */
  ghost predicate ClaimsOk(w: World) {
    && (forall c :: Claimed(w, c) ==> ResolvedBy(w.susp, SuspKey(c), c.clientActionId))
    && (forall c, d :: Claimed(w, c) && Claimed(w, d) && SuspKey(c) == SuspKey(d) ==> c == d)
  }

  ghost predicate NotAnnounced(w: World, key: Key) {
    forall i :: 0 <= i < |w.events| ==> EventKey(w.events[i]) != key
  }

  predicate Reconciles(call: Call) { call.Reconciling? || call.HasReceipt? || call.ReResumed? }

  ghost predicate Knows(w: World, call: Call) {
    && (Winning(call) && !call.Won? ==> ReceiptKey(call.cmd) in w.receipts)
    && (call.Won? || call.Saved? ==> NotAnnounced(w, SuspKey(call.cmd)))
    && (Reconciles(call) ==> TodoOk(w.susp, call.todo))
    && (call.HasReceipt? || call.ReResumed? ==> call.todo != [])
  }

  ghost predicate AllKnow(w: World) {
    forall p :: p in w.calls ==> Knows(w, w.calls[p])
  }

  /** The invariant of every run, with no assumption on what clients submit. */
  ghost predicate Base(w: World) {
    RecordsOk(w.susp) && Filed(w.receipts) && AnnouncementsOk(w) && ClaimsOk(w) && AllKnow(w) && OneWinner(w)
  }

  /** Nothing durable is undone; a receipt may be replaced by one under the same action id. */
  ghost predicate Onward(w: World, w': World) {
    SuspLater(w.susp, w'.susp) && w.receipts.Keys <= w'.receipts.Keys && w.events <= w'.events && w.resumes <= w'.resumes
  }

  lemma {:induction false} InitialIsBase(w: World)
    requires Initial(w)
    ensures Base(w)
  {
  }

  lemma {:induction false} OnwardReflexive(w: World)
    ensures Onward(w, w)
  {
  }

  lemma {:induction false} OnwardTransitive(a: World, b: World, c: World)
    requires Onward(a, b) && Onward(b, c)
    ensures Onward(a, c)
  {
    forall key | key in a.susp ensures RecordLater(a.susp[key], c.susp[key]) {
      assert RecordLater(a.susp[key], b.susp[key]) && RecordLater(b.susp[key], c.susp[key]);
    }
  }

  // Parts of the invariant, carried over a step

  lemma {:induction false} StaysResolved(susp: Suspensions, susp': Suspensions, key: Key, id: string)
    requires SuspLater(susp, susp') && ResolvedBy(susp, key, id)
    ensures ResolvedBy(susp', key, id)
  {
    assert RecordLater(susp[key], susp'[key]);
  }

  ghost predicate NoNewClaims(w: World, w': World) {
    forall c :: Claimed(w', c) ==> Claimed(w, c)
  }

  lemma {:induction false} ClaimsCarryOver(w: World, w': World)
    requires ClaimsOk(w) && SuspLater(w.susp, w'.susp) && NoNewClaims(w, w')
    ensures ClaimsOk(w')
  {
    hide Claimed, SuspLater, ResolvedBy;
    forall c | Claimed(w', c) ensures ResolvedBy(w'.susp, SuspKey(c), c.clientActionId) {
      assert Claimed(w, c);
      StaysResolved(w.susp, w'.susp, SuspKey(c), c.clientActionId);
    }
  }

  /** A step whose new resumes, receipts and call all act for commands that were claimed before. */
  lemma {:induction false} SameClaims(w: World, w': World, p: nat, call: Call)
    requires w'.calls == w.calls[p := call]
    requires forall c :: c in w'.resumes || Carries(call, c) || (exists key :: FiledFor(w', key, c)) ==> Claimed(w, c)
    ensures NoNewClaims(w, w')
  {
    hide FiledFor, Carries;
    forall c | Claimed(w', c) ensures Claimed(w, c) {
      if !(c in w'.resumes) && !(exists key :: FiledFor(w', key, c)) {
        var q :| CarriedBy(w', q, c);
        if q != p { assert CarriedBy(w, q, c); }
      }
    }
  }

  /** The usual case: receipts as they were. */
  lemma {:induction false} SameReceiptsSameClaims(w: World, w': World, p: nat, call: Call)
    requires w'.calls == w.calls[p := call] && w'.receipts == w.receipts
    requires forall c :: c in w'.resumes || Carries(call, c) ==> Claimed(w, c)
    ensures NoNewClaims(w, w')
  {
    forall c | exists key :: FiledFor(w', key, c) ensures Claimed(w, c) {
      var key :| FiledFor(w', key, c);
      assert FiledFor(w, key, c);
    }
    hide Claimed;
    SameClaims(w, w', p, call);
  }

  lemma {:induction false} AnnouncementsCarryOver(w: World, w': World)
    requires AnnouncementsOk(w) && Onward(w, w') && w'.events == w.events
    ensures AnnouncementsOk(w')
  {
    forall i | 0 <= i < |w'.events| ensures AnnouncementOk(w', w'.events[i]) {
      var e := w.events[i];
      assert AnnouncementOk(w, e);
      StaysResolved(w.susp, w'.susp, EventKey(e), e.clientActionId);
    }
  }

  lemma {:induction false} KnowsIsStable(w: World, w': World, call: Call)
    requires Knows(w, call) && Onward(w, w')
    requires w'.events == w.events || ((call.Won? || call.Saved?) ==> NotAnnounced(w', SuspKey(call.cmd)))
    ensures Knows(w', call)
  {
    if Reconciles(call) { TodoIsStable(w.susp, w'.susp, call.todo); }
    hide TodoOk, SuspLater;
  }

  /** A move of one call keeps the invariant if its stores do, and no other call wins the same suspension. */
  lemma {:induction false} MoveKeepsBase(w: World, w': World, p: nat, call: Call)
    requires Base(w) && Onward(w, w') && w'.calls == w.calls[p := call]
    requires RecordsOk(w'.susp) && Filed(w'.receipts) && AnnouncementsOk(w') && ClaimsOk(w') && Knows(w', call)
    requires w'.events == w.events
          || forall q :: q in w.calls && q != p && (w.calls[q].Won? || w.calls[q].Saved?) ==> NotAnnounced(w', SuspKey(w.calls[q].cmd))
    requires Winning(call) ==> WinsAlone(w, p, SuspKey(call.cmd))
    ensures Base(w')
  {
    hide RecordsOk, Filed, AnnouncementsOk, ClaimsOk, Knows, Onward, NotAnnounced;
    forall q | q in w'.calls ensures Knows(w', w'.calls[q]) {
      if q != p { KnowsIsStable(w, w', w.calls[q]); }
    }
  }

  ghost predicate WinsAlone(w: World, p: nat, key: Key) {
    forall q :: q in w.calls && q != p && Winning(w.calls[q]) ==> SuspKey(w.calls[q].cmd) != key
  }

  lemma {:induction false} WinnerWinsAlone(w: World, p: nat)
    requires OneWinner(w) && p in w.calls && Winning(w.calls[p])
    ensures WinsAlone(w, p, SuspKey(w.calls[p].cmd))
  {
  }

  lemma {:induction false} BaseParts(w: World, p: nat)
    requires Base(w) && p in w.calls
    ensures RecordsOk(w.susp) && Filed(w.receipts) && AnnouncementsOk(w) && ClaimsOk(w) && OneWinner(w) && Knows(w, w.calls[p])
    ensures Winning(w.calls[p]) ==> Claimed(w, w.calls[p].cmd) && ResolvedBy(w.susp, SuspKey(w.calls[p].cmd), w.calls[p].cmd.clientActionId)
    ensures w.calls[p].HasReceipt? ==> Claimed(w, CommandOf(w.calls[p].receipt))
  {
    hide RecordsOk, Filed, AnnouncementsOk, OneWinner, Knows, ResolvedBy;
    if Winning(w.calls[p]) { assert CarriedBy(w, p, w.calls[p].cmd); }
    if w.calls[p].HasReceipt? { assert CarriedBy(w, p, CommandOf(w.calls[p].receipt)); }
  }

  // Call by call

  /** A call moves on without touching the stores, and claims nothing new. */
  lemma {:induction false} QuietMoveKeepsBase(w: World, p: nat, call: Call)
    requires Base(w) && Knows(w, call) && !Winning(call)
    requires forall c :: Carries(call, c) ==> Claimed(w, c)
    ensures Base(Goto(w, p, call)) && Onward(w, Goto(w, p, call))
  {
    var w' := Goto(w, p, call);
    StoresAsTheyWere(w, p, call);
    hide RecordsOk, Filed, AnnouncementsOk, ClaimsOk, Claimed, Carries, Onward, Knows, AllKnow, OneWinner;
    assert forall c :: c in w'.resumes ==> Claimed(w, c) by { ResumedIsClaimed(w); }
    SameReceiptsSameClaims(w, w', p, call);
    OnwardReflexive(w);
    ClaimsCarryOver(w, w') by { assert Onward(w, w); LaterThanItself(w); }
    MoveKeepsBase(w, w', p, call);
  }

  lemma {:induction false} LaterThanItself(w: World)
    ensures SuspLater(w.susp, w.susp)
  {
  }

  lemma {:induction false} ResumedIsClaimed(w: World)
    ensures forall c :: c in w.resumes ==> Claimed(w, c)
  {
  }

  lemma {:induction false} StoresAsTheyWere(w: World, p: nat, call: Call)
    requires Base(w)
    ensures var w' := Goto(w, p, call);
      RecordsOk(w'.susp) && Filed(w'.receipts) && AnnouncementsOk(w') && ClaimsOk(w) && Onward(w, w')
      && (Knows(w, call) ==> Knows(w', call))
  {
    assert forall i :: 0 <= i < |w.events| ==> AnnouncementOk(w, w.events[i]);
    hide ClaimsOk, AllKnow, OneWinner;
  }

  /** A reconciler goes on with a receipt that is in the store. */
  lemma {:induction false} ReadClaimsNothingNew(host: Host, w: World, call: Call, ok: bool)
    requires OnlyReads(call) && Knows(w, call)
    ensures var next := AfterRead(host, w, call, ok);
      Knows(w, next) && !Winning(next) && forall c :: Carries(next, c) ==> Claimed(w, c)
  {
    var next := AfterRead(host, w, call, ok);
    if call.Reconciling? && next.HasReceipt? {
      var key := (call.todo[0].taskId, call.todo[0].successfulActionId.value);
      assert FiledFor(w, key, CommandOf(next.receipt));
    }
    hide ResolvedBy, Claimed, CheckSuspension, CheckReceipt, AfterValidation, CheckLost, CheckWinner;
    OnlyReadsEndsQuietly(host, w, call, ok);
  }

  lemma {:induction false} OnlyReadsEndsQuietly(host: Host, w: World, call: Call, ok: bool)
    requires OnlyReads(call)
    ensures var next := AfterRead(host, w, call, ok);
      && !Winning(next) && (next.HasReceipt? || Reconciles(next) ==> call.Reconciling?) && !next.ReResumed? && !next.Won? && !next.Saved?
  {
  }

  lemma {:induction false} ReadKeepsBase(host: Host, w: World, p: nat, ok: bool)
    requires Base(w) && p in w.calls && OnlyReads(w.calls[p])
    ensures Base(Advance(host, w, p, ok)) && Onward(w, Advance(host, w, p, ok))
  {
    hide *;
    BaseParts(w, p);
    OwnRead(host, w, p, ok);
    ReadClaimsNothingNew(host, w, w.calls[p], ok);
    QuietMoveKeepsBase(w, p, AfterRead(host, w, w.calls[p], ok));
  }

  /** Nothing claims, announces or wins an open suspension. */
  lemma {:induction false} NothingForOpen(w: World, p: nat, key: Key)
    requires Base(w) && CanAccept(w.susp, key)
    ensures forall c :: Claimed(w, c) ==> SuspKey(c) != key
    ensures NotAnnounced(w, key) && WinsAlone(w, p, key)
  {
    assert RecordOk(w.susp[key]);
    forall q | q in w.calls && Winning(w.calls[q]) ensures SuspKey(w.calls[q].cmd) != key {
      BaseParts(w, q);
    }
    forall i | 0 <= i < |w.events| ensures EventKey(w.events[i]) != key { assert AnnouncementOk(w, w.events[i]); }
    hide AllKnow, OneWinner, Claimed;
  }

  lemma {:induction false} AcceptedRecordsOk(w: World, cmd: Command)
    requires RecordsOk(w.susp) && CanAccept(w.susp, SuspKey(cmd))
    ensures var susp' := AcceptIfOpen(w.susp, SuspKey(cmd), cmd.clientActionId);
      RecordsOk(susp') && SuspLater(w.susp, susp') && ResolvedBy(susp', SuspKey(cmd), cmd.clientActionId)
  {
    assert RecordOk(w.susp[SuspKey(cmd)]);
  }

  lemma {:induction false} AcceptClaims(w: World, p: nat, cmd: Command)
    requires Base(w) && p in w.calls && CanAccept(w.susp, SuspKey(cmd))
    ensures ClaimsOk(Goto(w.(susp := AcceptIfOpen(w.susp, SuspKey(cmd), cmd.clientActionId)), p, Won(cmd)))
  {
    var w' := Goto(w.(susp := AcceptIfOpen(w.susp, SuspKey(cmd), cmd.clientActionId)), p, Won(cmd));
    NothingForOpen(w, p, SuspKey(cmd));
    AcceptedRecordsOk(w, cmd);
    forall c | Claimed(w', c) ensures c == cmd || Claimed(w, c) {
      if exists key :: FiledFor(w', key, c) {
        var key :| FiledFor(w', key, c);
        assert FiledFor(w, key, c);
      } else if c !in w'.resumes {
        var q :| CarriedBy(w', q, c);
        assert c == cmd || CarriedBy(w, q, c);
      }
    }
    hide Claimed, AllKnow, OneWinner, AnnouncementsOk, Filed, RecordsOk, AcceptIfOpen, SuspLater, ResolvedBy;
    forall c | Claimed(w', c) ensures ResolvedBy(w'.susp, SuspKey(c), c.clientActionId) {
      if c != cmd { StaysResolved(w.susp, w'.susp, SuspKey(c), c.clientActionId); }
    }
  }

  lemma {:induction false} AcceptKeepsBase(host: Host, w: World, p: nat, ok: bool)
    requires Base(w) && p in w.calls && w.calls[p].Accepting?
    ensures Base(Advance(host, w, p, ok)) && Onward(w, Advance(host, w, p, ok))
  {
    hide Base, Advance, RecordsOk, Filed, AnnouncementsOk, ClaimsOk, Claimed, SuspLater, NotAnnounced, WinsAlone, ResolvedBy;
    var cmd := w.calls[p].cmd;
    StoreMoves(host, w, p, ok);
    BaseParts(w, p);
    if CanAccept(w.susp, SuspKey(cmd)) {
      var w' := Goto(w.(susp := AcceptIfOpen(w.susp, SuspKey(cmd), cmd.clientActionId)), p, Won(cmd));
      AcceptedRecordsOk(w, cmd);
      NothingForOpen(w, p, SuspKey(cmd));
      AcceptClaims(w, p, cmd);
      StillNotAnnounced(w, w', SuspKey(cmd));
      assert Onward(w, w');
      AnnouncementsCarryOver(w, w');
      MoveKeepsBase(w, w', p, Won(cmd));
    } else {
      QuietMoveKeepsBase(w, p, Lost(cmd));
    }
  }

  lemma {:induction false} StillNotAnnounced(w: World, w': World, key: Key)
    requires NotAnnounced(w, key) && w'.events == w.events
    ensures NotAnnounced(w', key)
  {
  }

  lemma {:induction false} SavedReceipt(w: World, cmd: Command)
    ensures CommandOf(ReceiptOf(cmd)) == cmd
    ensures Filed(w.receipts) ==> Filed(w.receipts[ReceiptKey(cmd) := ReceiptOf(cmd)])
  {
  }

  lemma {:induction false} SaveClaims(w: World, p: nat)
    requires p in w.calls && w.calls[p].Won?
    ensures var cmd := w.calls[p].cmd;
      NoNewClaims(w, Goto(w.(receipts := w.receipts[ReceiptKey(cmd) := ReceiptOf(cmd)]), p, Saved(cmd)))
  {
    var cmd := w.calls[p].cmd;
    var w' := Goto(w.(receipts := w.receipts[ReceiptKey(cmd) := ReceiptOf(cmd)]), p, Saved(cmd));
    SavedReceipt(w, cmd);
    assert CarriedBy(w, p, cmd);
    forall c | exists key :: FiledFor(w', key, c) ensures Claimed(w, c) {
      var key :| FiledFor(w', key, c);
      if key != ReceiptKey(cmd) { assert FiledFor(w, key, c); }
    }
    SameClaims(w, w', p, Saved(cmd));
  }

  lemma {:induction false} SaveKeepsBase(host: Host, w: World, p: nat, ok: bool)
    requires Base(w) && p in w.calls && w.calls[p].Won?
    ensures Base(Advance(host, w, p, ok)) && Onward(w, Advance(host, w, p, ok))
  {
    hide Base, Advance, RecordsOk, Filed, AnnouncementsOk, ClaimsOk, Claimed, SuspLater, NotAnnounced, WinsAlone, ResolvedBy, NoNewClaims;
    var cmd := w.calls[p].cmd;
    var w' := Goto(w.(receipts := w.receipts[ReceiptKey(cmd) := ReceiptOf(cmd)]), p, Saved(cmd));
    StoreMoves(host, w, p, ok);
    BaseParts(w, p);
    SavedReceipt(w, cmd);
    SaveClaims(w, p);
    LaterThanItself(w);
    ClaimsCarryOver(w, w');
    StillNotAnnounced(w, w', SuspKey(cmd));
    AnnouncementsCarryOver(w, w');
    WinnerWinsAlone(w, p);
    MoveKeepsBase(w, w', p, Saved(cmd));
  }

  lemma {:induction false} AppendAnnounces(w: World, cmd: Command)
    requires AnnouncementsOk(w) && NotAnnounced(w, SuspKey(cmd)) && ReceiptKey(cmd) in w.receipts
    requires ResolvedBy(w.susp, SuspKey(cmd), cmd.clientActionId)
    ensures forall p, call :: AnnouncementsOk(Goto(w.(events := w.events + [EventOf(cmd)]), p, call))
    ensures forall p, call, key :: key != SuspKey(cmd) && NotAnnounced(w, key) ==>
      NotAnnounced(Goto(w.(events := w.events + [EventOf(cmd)]), p, call), key)
  {
    hide ResolvedBy;
    var events := w.events + [EventOf(cmd)];
    forall p, call ensures AnnouncementsOk(Goto(w.(events := events), p, call)) {
      forall i | 0 <= i < |events| ensures AnnouncementOk(Goto(w.(events := events), p, call), events[i]) {
        if i < |w.events| { assert AnnouncementOk(w, w.events[i]); }
      }
    }
  }

  lemma {:induction false} AppendKeepsBase(host: Host, w: World, p: nat, ok: bool)
    requires Base(w) && p in w.calls && w.calls[p].Saved?
    ensures Base(Advance(host, w, p, ok)) && Onward(w, Advance(host, w, p, ok))
  {
    hide Advance, RecordsOk, Filed, AnnouncementsOk, ClaimsOk, Claimed, SuspLater, NotAnnounced, OneWinner, ResolvedBy, NoNewClaims;
    var cmd := w.calls[p].cmd;
    var w' := Goto(w.(events := w.events + [EventOf(cmd)]), p, Announced(cmd));
    StoreMoves(host, w, p, ok);
    BaseParts(w, p);
    AppendAnnounces(w, cmd);
    ResumedIsClaimed(w);
    SameReceiptsSameClaims(w, w', p, Announced(cmd));
    LaterThanItself(w);
    ClaimsCarryOver(w, w');
    WinnerWinsAlone(w, p);
    assert forall q :: q in w.calls ==> Knows(w, w.calls[q]);
    MoveKeepsBase(w, w', p, Announced(cmd));
  }

  lemma {:induction false} ResumeMove(host: Host, w: World, p: nat, ok: bool)
    requires p in w.calls && (w.calls[p].Announced? || w.calls[p].Resumed?)
    ensures var cmd := w.calls[p].cmd;
      Advance(host, w, p, ok) == if w.calls[p].Announced?
        then Goto(w.(resumes := w.resumes + [cmd]), p, if ok then Resumed(cmd) else Answered(cmd, Accepted))
        else Goto(w.(susp := MarkDispatched(w.susp, SuspKey(cmd))), p, Answered(cmd, Accepted))
  {
    hide MarkDispatched;
  }

  /** A resume of a command that is claimed already. */
  lemma {:induction false} ResumeKeepsBase(w: World, p: nat, cmd: Command, call: Call)
    requires Base(w) && p in w.calls && Claimed(w, cmd) && Knows(w, call)
    requires forall c :: Carries(call, c) ==> Claimed(w, c)
    requires Winning(call) ==> Winning(w.calls[p]) && call.cmd == w.calls[p].cmd
    ensures var w' := Goto(w.(resumes := w.resumes + [cmd]), p, call); Base(w') && Onward(w, w')
  {
    hide RecordsOk, Filed, AnnouncementsOk, ClaimsOk, Claimed, SuspLater, OneWinner, NoNewClaims, Carries, TodoOk, WinsAlone;
    var w' := Goto(w.(resumes := w.resumes + [cmd]), p, call);
    ResumedIsClaimed(w);
    SameReceiptsSameClaims(w, w', p, call);
    LaterThanItself(w);
    ClaimsCarryOver(w, w');
    AnnouncementsCarryOver(w, w');
    if Winning(call) { WinnerWinsAlone(w, p); }
    KnowsIsStable(w, w', call);
    MoveKeepsBase(w, w', p, call);
  }

  lemma {:induction false} MarkedRecordsOk(susp: Suspensions, key: Key, id: string)
    requires RecordsOk(susp) && ResolvedBy(susp, key, id)
    ensures RecordsOk(MarkDispatched(susp, key)) && SuspLater(susp, MarkDispatched(susp, key))
  {
    assert RecordOk(susp[key]);
  }

  /** A resolved suspension is marked by a call that then is no winner, or the same one. */
  lemma {:induction false} MarkKeepsBase(w: World, p: nat, key: Key, id: string, call: Call)
    requires Base(w) && p in w.calls && ResolvedBy(w.susp, key, id) && Knows(w, call)
    requires forall c :: Carries(call, c) ==> Claimed(w, c)
    requires Winning(call) ==> Winning(w.calls[p]) && call.cmd == w.calls[p].cmd
    ensures var w' := Goto(w.(susp := MarkDispatched(w.susp, key)), p, call); Base(w') && Onward(w, w')
  {
    hide RecordsOk, Filed, AnnouncementsOk, ClaimsOk, Claimed, SuspLater, OneWinner, NoNewClaims, Carries, TodoOk, WinsAlone, MarkDispatched;
    var w' := Goto(w.(susp := MarkDispatched(w.susp, key)), p, call);
    MarkedRecordsOk(w.susp, key, id);
    ResumedIsClaimed(w);
    SameReceiptsSameClaims(w, w', p, call);
    ClaimsCarryOver(w, w');
    AnnouncementsCarryOver(w, w');
    if Winning(call) { WinnerWinsAlone(w, p); }
    KnowsIsStable(w, w', call);
    MoveKeepsBase(w, w', p, call);
  }

  lemma {:induction false} WinnerGoesOn(host: Host, w: World, p: nat, ok: bool)
    requires Base(w) && p in w.calls && (w.calls[p].Announced? || w.calls[p].Resumed?)
    ensures Base(Advance(host, w, p, ok)) && Onward(w, Advance(host, w, p, ok))
  {
    hide Base, Advance, Claimed, ResolvedBy, Onward, ClaimsOk;
    var cmd := w.calls[p].cmd;
    ResumeMove(host, w, p, ok);
    BaseParts(w, p);
    if w.calls[p].Announced? {
      ResumeKeepsBase(w, p, cmd, if ok then Resumed(cmd) else Answered(cmd, Accepted));
    } else {
      MarkKeepsBase(w, p, SuspKey(cmd), cmd.clientActionId, Answered(cmd, Accepted));
    }
  }

  lemma {:induction false} RestOfTodo(w: World, call: Call)
    requires call.ReResumed? && Knows(w, call)
    ensures call.todo != [] && Knows(w, Reconciling(call.todo[1..], call.processed + 1))
    ensures call.todo[0].successfulActionId.Some? && ResolvedBy(w.susp, RecordKey(call.todo[0]), call.todo[0].successfulActionId.value)
  {
  }

  lemma {:induction false} ReconcilerGoesOn(host: Host, w: World, p: nat, ok: bool)
    requires Base(w) && p in w.calls && (w.calls[p].HasReceipt? || w.calls[p].ReResumed?)
    ensures Base(Advance(host, w, p, ok)) && Onward(w, Advance(host, w, p, ok))
  {
    hide Base, Advance, Claimed, ResolvedBy, Onward, ClaimsOk, TodoOk, MarkDispatched;
    var call := w.calls[p];
    BaseParts(w, p);
    if call.HasReceipt? {
      StoreMoves(host, w, p, ok);
      ResumeKeepsBase(w, p, CommandOf(call.receipt), if ok then ReResumed(call.todo, call.processed) else ReconcileFailed);
    } else {
      RestOfTodo(w, call);
      MarkingMove(host, w, p, ok);
      MarkKeepsBase(w, p, RecordKey(call.todo[0]), call.todo[0].successfulActionId.value, Reconciling(call.todo[1..], call.processed + 1));
    }
  }

  lemma {:induction false} AdvanceKeepsBase(host: Host, w: World, p: nat, ok: bool)
    requires Base(w) && p in w.calls
    ensures Base(Advance(host, w, p, ok)) && Onward(w, Advance(host, w, p, ok))
  {
    hide *;
    var call := w.calls[p];
    if OnlyReads(call) { ReadKeepsBase(host, w, p, ok); }
    else if call.Accepting? { AcceptKeepsBase(host, w, p, ok); }
    else if call.Won? { SaveKeepsBase(host, w, p, ok); }
    else if call.Saved? { AppendKeepsBase(host, w, p, ok); }
    else if call.Announced? || call.Resumed? { WinnerGoesOn(host, w, p, ok); }
    else if call.HasReceipt? || call.ReResumed? { ReconcilerGoesOn(host, w, p, ok); }
    else { FinishedStays(host, w, p, ok); OnwardReflexive(w); }
  }

  lemma {:induction false} ListingKnows(w: World, listing: seq<Suspension>)
    requires RecordsOk(w.susp) && IsListing(w.susp, listing)
    ensures Knows(w, Reconciling(listing, 0))
  {
    forall i | 0 <= i < |listing|
      ensures listing[i].successfulActionId.Some? && ResolvedBy(w.susp, RecordKey(listing[i]), listing[i].successfulActionId.value)
    {
      assert listing[i] in listing && RecordOk(w.susp[RecordKey(listing[i])]);
    }
  }

  /** A step that only moves suspensions forward. */
  lemma {:induction false} SuspensionsMoveOn(w: World, susp': Suspensions)
    requires Base(w) && RecordsOk(susp') && SuspLater(w.susp, susp')
    ensures var w' := w.(susp := susp'); Base(w') && Onward(w, w')
  {
    hide RecordsOk, Filed, AnnouncementsOk, ClaimsOk, SuspLater, OneWinner, Knows;
    var w' := w.(susp := susp');
    forall c | Claimed(w', c) ensures Claimed(w, c) {
      if exists key :: FiledFor(w', key, c) {
        var key :| FiledFor(w', key, c);
        assert FiledFor(w, key, c);
      } else if c !in w'.resumes {
        var q :| CarriedBy(w', q, c);
        assert CarriedBy(w, q, c);
      }
    }
    ClaimsCarryOver(w, w');
    AnnouncementsCarryOver(w, w');
    forall q | q in w'.calls ensures Knows(w', w'.calls[q]) { KnowsIsStable(w, w', w.calls[q]); }
    SameWinners(w, w');
  }

  lemma {:induction false} SameWinners(w: World, w': World)
    requires OneWinner(w) && w'.calls == w.calls
    ensures OneWinner(w')
  {
  }

  lemma {:induction false} RetentionMovesOn(w: World, now: int)
    requires RecordsOk(w.susp) && Filed(w.receipts)
    ensures DeleteExpired(w.receipts, now) == w.receipts
    ensures RecordsOk(ExpireOpen(w.susp, now)) && SuspLater(w.susp, ExpireOpen(w.susp, now))
  {
    var susp' := ExpireOpen(w.susp, now);
    forall key | key in w.susp ensures RecordOk(susp'[key]) && RecordLater(w.susp[key], susp'[key]) {
      assert RecordOk(w.susp[key]);
    }
  }

  lemma {:induction false} OpeningMovesOn(w: World, s: Suspension)
    requires RecordsOk(w.susp) && RecordKey(s) !in w.susp && IsUntouched(s)
    ensures RecordsOk(w.susp[RecordKey(s) := s]) && SuspLater(w.susp, w.susp[RecordKey(s) := s])
  {
  }

  /** Every step of any call, reconciler, host or clean-up job keeps the invariant, whatever was submitted. */
  lemma {:induction false} StepKeepsBase(host: Host, w: World, step: Step)
    requires Base(w)
    ensures Base(Exec(host, w, step)) && Onward(w, Exec(host, w, step))
  {
    hide RecordsOk, Filed, AnnouncementsOk, ClaimsOk, Claimed, SuspLater, OneWinner, AllKnow, Onward, Advance, IsListing, TodoOk, DeleteExpired, ExpireOpen;
    OnwardReflexive(w);
    match step
    case Submit(p, cmd) => if p !in w.calls { QuietMoveKeepsBase(w, p, Begun(cmd)); }
    case Next(p, ok) => if p in w.calls { AdvanceKeepsBase(host, w, p, ok); }
    case Crash(p) => if p in w.calls { QuietMoveKeepsBase(w, p, Crashed); }
    case Reconcile(p, listing) =>
      if p !in w.calls && IsListing(w.susp, listing) {
        ListingKnows(w, listing);
        QuietMoveKeepsBase(w, p, Reconciling(listing, 0));
      }
    case OpenSuspension(s) =>
      if RecordKey(s) !in w.susp && IsUntouched(s) {
        OpeningMovesOn(w, s);
        SuspensionsMoveOn(w, w.susp[RecordKey(s) := s]);
      }
    case PruneReceipts(now) => RetentionMovesOn(w, now);
    case ExpireSuspensions(now) =>
      RetentionMovesOn(w, now);
      SuspensionsMoveOn(w, ExpireOpen(w.susp, now));
  }

  lemma {:induction false} RunKeepsBase(host: Host, w: World, steps: seq<Step>, j: nat, k: nat)
    requires Base(w) && j <= k <= |steps|
    ensures Base(Run(host, w, steps, k)) && Onward(Run(host, w, steps, j), Run(host, w, steps, k))
  {
    hide Base, Onward, Exec;
    if k == 0 {
      OnwardReflexive(w);
    } else {
      RunKeepsBase(host, w, steps, if j < k then j else k - 1, k - 1);
      StepKeepsBase(host, Run(host, w, steps, k - 1), steps[k - 1]);
      if j < k {
        OnwardTransitive(Run(host, w, steps, j), Run(host, w, steps, k - 1), Run(host, w, steps, k));
      } else {
        OnwardReflexive(Run(host, w, steps, k));
      }
    }
  }

  // What callers can rely on

  ghost predicate WasAccepted(w: World, p: nat) {
    p in w.calls && w.calls[p].Answered? && w.calls[p].answer.Accepted?
  }

  function ReceiptSuspension(w: World, key: Key): Key
    requires key in w.receipts
  {
    (w.receipts[key].taskId, w.receipts[key].suspendId)
  }

  /**
   * Whatever clients submit, over all interleavings and crashes each suspension has at most one
   * ACCEPTED call, at most one receipt and at most one TASK_ACTION_ACCEPTED event, all for the action
   * that resolved it, and a receipt is saved under that action's id before the event and the answer.
   */
  lemma {:induction false} AcceptedOnce(host: Host, w: World, steps: seq<Step>, k: nat)
    requires Base(w) && k <= |steps|
    ensures var now := Run(host, w, steps, k);
      && (forall p, q :: WasAccepted(now, p) && WasAccepted(now, q) && SuspKey(now.calls[p].cmd) == SuspKey(now.calls[q].cmd) ==> p == q)
      && (forall p :: WasAccepted(now, p) ==>
            && ResolvedBy(now.susp, SuspKey(now.calls[p].cmd), now.calls[p].cmd.clientActionId)
            && ReceiptKey(now.calls[p].cmd) in now.receipts)
      && (forall x, y :: x in now.receipts && y in now.receipts && ReceiptSuspension(now, x) == ReceiptSuspension(now, y) ==> x == y)
      && (forall a, b :: 0 <= a < b < |now.events| ==> EventKey(now.events[a]) != EventKey(now.events[b]))
      && (forall a :: 0 <= a < |now.events| ==> AnnouncementOk(now, now.events[a]))
  {
    RunKeepsBase(host, w, steps, k, k);
    var now := Run(host, w, steps, k);
    hide Run, Claimed, RecordsOk;
    forall p | WasAccepted(now, p)
      ensures ResolvedBy(now.susp, SuspKey(now.calls[p].cmd), now.calls[p].cmd.clientActionId) && ReceiptKey(now.calls[p].cmd) in now.receipts
    {
      BaseParts(now, p);
    }
    forall x, y | x in now.receipts && y in now.receipts && ReceiptSuspension(now, x) == ReceiptSuspension(now, y) ensures x == y {
      ReceiptIsClaimed(now, x);
      ReceiptIsClaimed(now, y);
    }
  }

  lemma {:induction false} ReceiptIsClaimed(w: World, key: Key)
    requires key in w.receipts
    ensures Claimed(w, CommandOf(w.receipts[key]))
    ensures SuspKey(CommandOf(w.receipts[key])) == ReceiptSuspension(w, key)
  {
    assert FiledFor(w, key, CommandOf(w.receipts[key]));
  }

  /**
   * Whatever clients submit, everything that is ever resumed for a suspension, by its winner or by a
   * reconciler, is the one command that resolved it; a saved receipt names a resolved suspension that
   * is waiting to be handed off or handed off.
   */
  lemma {:induction false} OneCommandPerSuspension(host: Host, w: World, steps: seq<Step>, k: nat)
    requires Base(w) && k <= |steps|
    ensures var now := Run(host, w, steps, k);
      && (forall c, d :: c in now.resumes && d in now.resumes && SuspKey(c) == SuspKey(d) ==> c == d)
      && (forall c :: c in now.resumes ==> ResolvedBy(now.susp, SuspKey(c), c.clientActionId))
      && (forall c, key :: c in now.resumes && key in now.receipts && SuspKey(c) == ReceiptSuspension(now, key) ==>
            c == CommandOf(now.receipts[key]))
      && (forall key :: key in now.receipts ==>
            && ResolvedBy(now.susp, ReceiptSuspension(now, key), now.receipts[key].clientActionId)
            && !now.susp[ReceiptSuspension(now, key)].handoff.NoHandoff?)
  {
    RunKeepsBase(host, w, steps, k, k);
    var now := Run(host, w, steps, k);
    hide Run, Filed, AnnouncementsOk, AllKnow, OneWinner, Claimed;
    ResumedIsClaimed(now);
    forall key | key in now.receipts
      ensures Claimed(now, CommandOf(now.receipts[key])) && SuspKey(CommandOf(now.receipts[key])) == ReceiptSuspension(now, key)
      ensures ResolvedBy(now.susp, ReceiptSuspension(now, key), now.receipts[key].clientActionId)
      ensures !now.susp[ReceiptSuspension(now, key)].handoff.NoHandoff?
    {
      ReceiptIsClaimed(now, key);
      assert RecordOk(now.susp[ReceiptSuspension(now, key)]);
    }
  }

  /**
   * RESOLVED, EXPIRED and CANCELLED are permanent, and so is the action that resolved a suspension;
   * the hand-off only moves forward.
   */
  lemma {:induction false} OutcomesArePermanent(host: Host, w: World, steps: seq<Step>, j: nat, k: nat, key: Key)
    requires Base(w) && j <= k <= |steps|
    requires key in Run(host, w, steps, j).susp
    ensures key in Run(host, w, steps, k).susp
    ensures var before, after := Run(host, w, steps, j).susp[key], Run(host, w, steps, k).susp[key];
            && (!before.status.Open? ==> after.status == before.status && after.successfulActionId == before.successfulActionId)
            && Rank(before.handoff) <= Rank(after.handoff)
            && (after.handoff.NoHandoff? <==> !after.status.Resolved?)
  {
    RunKeepsBase(host, w, steps, j, k);
    var after := Run(host, w, steps, k);
    assert RecordLater(Run(host, w, steps, j).susp[key], after.susp[key]);
    assert RecordOk(after.susp[key]);
  }
}
