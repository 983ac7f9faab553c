/**
 * What else breaks when clients use an action id on two suspensions: receipts change, a suspension
 * is marked as handed off with the other one's command, and calls are no longer linearizable.
 * Each of the three guarantees holds of a set of commands exactly when no two of them clash.
 */
module ActionClashes {
  import opened Options
  import opened ActionStores
  import opened ActionProtocol
  import opened ActionInvariant
  import opened ActionTheorems
  import opened ActionOutcomes
  import opened ActionDispatch
  import opened ActionReuse

  // Receipts

  ghost predicate ReceiptsStay(before: World, after: World) {
    forall key :: key in before.receipts ==> key in after.receipts && after.receipts[key] == before.receipts[key]
  }

  ghost predicate KeepsReceipts(host: Host, commands: iset<Command>, w: World, steps: seq<Step>, j: nat, k: nat)
    requires j <= k <= |steps|
  {
    Initial(w) && SubmitsOnly(commands, steps) ==> ReceiptsStay(Run(host, w, steps, j), Run(host, w, steps, k))
  }

  /** The second save of the race replaces the first. */
  lemma {:induction false} RaceReplacesReceipt(host: Host, c1: Command, c2: Command)
    requires Clash(host, c1, c2)
    ensures |Race(c1, c2)| == 14
    ensures !ReceiptsStay(Run(host, TwoOpen(c1, c2), Race(c1, c2), 13), Run(host, TwoOpen(c1, c2), Race(c1, c2), 14))
  {
    hide Run, Race, TwoOpen, IsPending, ResolvedBy;
    RaceEnds(host, c1, c2);
    SameIdOtherSuspension(host, c1, c2);
    assert ReceiptKey(c1) in Run(host, TwoOpen(c1, c2), Race(c1, c2), 13).receipts;
  }

  lemma {:induction false} SameIdOtherSuspension(host: Host, c1: Command, c2: Command)
    requires Clash(host, c1, c2)
    ensures c1.taskId == c2.taskId && c1.clientActionId == c2.clientActionId && c1.suspendId != c2.suspendId
  {
  }

  /** Saved receipts are permanent exactly for commands that do not clash. */
  lemma {:induction false} ReceiptsArePermanentIff(host: Host, commands: iset<Command>)
    ensures (forall w, steps, j: nat, k: nat :: j <= k <= |steps| ==> KeepsReceipts(host, commands, w, steps, j, k))
       <==> OneSuspensionPerId(host, commands)
  {
    hide Initial, Inv, Run, SubmitsOnly, Clash;
    if OneSuspensionPerId(host, commands) {
      forall w, steps, j: nat, k: nat | j <= k <= |steps| ensures KeepsReceipts(host, commands, w, steps, j, k) {
        if Initial(w) && SubmitsOnly(commands, steps) {
          var home := WithoutClashes(host, commands, w, steps, j, k);
        }
      }
    } else {
      var c1, c2 :| c1 in commands && c2 in commands && Clash(host, c1, c2);
      RaceReplacesReceipt(host, c1, c2);
      RaceIsOfCommands(host, commands, c1, c2);
      assert !KeepsReceipts(host, commands, TwoOpen(c1, c2), Race(c1, c2), 13, 14);
    }
  }

  lemma {:induction false} RaceIsOfCommands(host: Host, commands: iset<Command>, c1: Command, c2: Command)
    requires c1 in commands && c2 in commands && Clash(host, c1, c2)
    ensures Initial(TwoOpen(c1, c2)) && SubmitsOnly(commands, Race(c1, c2))
  {
    TwoOpenIsInitial(c1, c2);
    RaceSubmits(c1, c2);
  }

  // Hand-offs

  /** A suspension counts as handed off although no command that names it was ever resumed. */
  ghost predicate MarkedInVain(w: World) {
    exists key :: key in w.susp && w.susp[key].handoff.Dispatched? && forall c :: c in w.resumes ==> SuspKey(c) != key
  }

  ghost predicate MarksWhatWasResumed(host: Host, commands: iset<Command>, w: World, steps: seq<Step>, k: nat)
    requires k <= |steps|
  {
    Initial(w) && SubmitsOnly(commands, steps) ==> !MarkedInVain(Run(host, w, steps, k))
  }

  /** A reconciler that finds another suspension's receipt under the action id resumes with that one's command and marks this one. */
  lemma {:induction false} ReconcilerMarksInVain(host: Host, w: World, key: Key, p: nat, listing: seq<Suspension>)
    requires w.resumes == [] && p !in w.calls && IsPending(w, key) && HasItsReceipt(w, key)
    requires IsListing(w.susp, listing) && listing != [] && listing[0] == w.susp[key] && RecordKey(w.susp[key]) == key
    requires var r := w.receipts[(key.0, w.susp[key].successfulActionId.value)];
      SuspKey(CommandOf(r)) != key && CanBeAccepted(host, CommandOf(r))
    ensures MarkedInVain(Run(host, w, [Reconcile(p, listing)] + NextFour(p), 4))
  {
    hide Run, NextFour, IsListing, MarkDispatched;
    var r := w.receipts[(key.0, w.susp[key].successfulActionId.value)];
    var w1 := Exec(host, w, Reconcile(p, listing));
    assert w1 == Goto(w, p, Reconciling(listing, 0)) by { hide Advance; }
    assert CheckPending(host, w.receipts, listing, 0) == HasReceipt(listing, r, 0);
    hide CheckPending;
    ReconcilerMoves(host, w1, p);
    var w2 := Exec(host, w1, Next(p, true));
    ReconcilerMoves(host, w2, p);
    var w3 := Exec(host, w2, Next(p, true));
    assert w3.resumes == [CommandOf(r)] by { StoreMoves(host, w2, p, true); }
    ReconcilerMoves(host, w3, p);
    var w4 := Exec(host, w3, Next(p, true));
    RunReconciler(host, w, p, listing);
    Marked(w3.susp, key);
    assert w4.resumes == w3.resumes by { MarkingMove(host, w3, p, true); }
  }

  lemma {:induction false} RaceLeavesTheOther(host: Host, w: World, c1: Command, c2: Command)
    requires Clash(host, c1, c2) && IsPending(w, SuspKey(c1)) && ResolvedBy(w.susp, SuspKey(c1), c1.clientActionId) && HasReceiptOf(w.receipts, c2)
    ensures var key := SuspKey(c1);
      && HasItsReceipt(w, key)
      && CommandOf(w.receipts[(key.0, w.susp[key].successfulActionId.value)]) == c2
      && SuspKey(c2) != key && CanBeAccepted(host, c2)
  {
  }

  lemma {:induction false} RaceThenReconcile(host: Host, c1: Command, c2: Command) returns (steps: seq<Step>)
    requires Clash(host, c1, c2)
    ensures |steps| == 19 && MarkedInVain(Run(host, TwoOpen(c1, c2), steps, 18))
    ensures forall k :: 0 <= k < |steps| && steps[k].Submit? ==> steps[k].cmd in {c1, c2}
  {
    hide Run, Race, TwoOpen, MarkedInVain, Base, IsListing, Initial, ResolvedBy, HasReceiptOf, HasItsReceipt, SuspKey, ReceiptKey, CanBeAccepted, WellKeyed;
    var w, race := TwoOpen(c1, c2), Race(c1, c2);
    RaceEnds(host, c1, c2);
    RaceSubmits(c1, c2);
    TwoOpenIsInitial(c1, c2);
    InitialIsBase(w);
    RunKeepsBase(host, w, race, 14, 14);
    var w14 := Run(host, w, race, 14);
    RaceLeavesTheOther(host, w14, c1, c2);
    var key := SuspKey(c1);
    BaseIsWellKeyed(w14, key);
    var listing := ListingFrom(w14.susp, key);
    ReconcilerMarksInVain(host, w14, key, 2, listing);
    var more := [Reconcile(2, listing)] + NextFour(2);
    RunAppend(host, w, race, more, 4);
    steps := race + more;
    forall k | 0 <= k < |steps| && steps[k].Submit? ensures steps[k].cmd in {c1, c2} {
      assert k < 14 && steps[k] == race[k];
    }
  }

  lemma {:induction false} BaseIsWellKeyed(w: World, key: Key)
    requires Base(w) && key in w.susp
    ensures WellKeyed(w.susp) && RecordKey(w.susp[key]) == key
  {
  }

  lemma {:induction false} InvMarksNothingInVain(host: Host, home: Key -> string, w: World)
    requires Inv(host, home, w)
    ensures !MarkedInVain(w)
  {
    hide CallsOk, OneWinner;
    forall key | key in w.susp && w.susp[key].handoff.Dispatched? ensures exists c :: c in w.resumes && SuspKey(c) == key {
      assert DispatchOk(w, key);
    }
  }

  /** Whatever is marked as handed off was resumed with a command that names it, exactly for commands that do not clash. */
  lemma {:induction false} MarkedWasResumedIff(host: Host, commands: iset<Command>)
    ensures (forall w, steps, k: nat :: k <= |steps| ==> MarksWhatWasResumed(host, commands, w, steps, k))
       <==> OneSuspensionPerId(host, commands)
  {
    hide Initial, Inv, Run, Clash, MarkedInVain;
    if OneSuspensionPerId(host, commands) {
      forall w, steps, k: nat | k <= |steps| ensures MarksWhatWasResumed(host, commands, w, steps, k) {
        if Initial(w) && SubmitsOnly(commands, steps) {
          var home := WithoutClashes(host, commands, w, steps, k, k);
          InvMarksNothingInVain(host, home, Run(host, w, steps, k));
        }
      }
    } else {
      var c1, c2 :| c1 in commands && c2 in commands && Clash(host, c1, c2);
      var steps := RaceThenReconcile(host, c1, c2);
      RaceIsOfCommands(host, commands, c1, c2);
      assert SubmitsOnly(commands, steps);
      assert !MarksWhatWasResumed(host, commands, TwoOpen(c1, c2), steps, 18);
    }
  }

  // Linearizability

  /** If the call was submitted at step `i` and has been answered by the stores, a one-step accept answers that in between. */
  ghost predicate AnswersLikeOneStep(host: Host, commands: iset<Command>, w: World, steps: seq<Step>, p: nat, cmd: Command, a: Answer, i: nat, j: nat)
    requires i < j <= |steps|
  {
    && Initial(w) && SubmitsOnly(commands, steps)
    && steps[i] == Submit(p, cmd) && p !in Run(host, w, steps, i).calls
    && p in Run(host, w, steps, j).calls && Run(host, w, steps, j).calls[p] == Answered(cmd, a) && DecidedByStores(a)
    ==> AnswersWithin(host, w, steps, cmd, a, i, j)
  }

  /**
   * If at some instant the suspension is open and the action id has a receipt, no state of the run
   * answers ACCEPTED: before it the suspension stays open, after it the receipt is there.
   */
  lemma {:induction false} NothingAnswersAccepted(host: Host, w: World, steps: seq<Step>, cmd: Command, n: nat, m: nat)
    requires Base(w) && n <= |steps| && m <= |steps|
    requires CanAccept(Run(host, w, steps, n).susp, SuspKey(cmd)) && ReceiptKey(cmd) in Run(host, w, steps, n).receipts
    ensures !AnswersAt(host, w, steps, cmd, Accepted, m)
  {
    hide Run, Base;
    if m >= n {
      RunKeepsBase(host, w, steps, n, m);
    } else {
      RunKeepsBase(host, w, steps, m + 1, n);
      var later, now := Run(host, w, steps, m + 1), Run(host, w, steps, n);
      assert SuspKey(cmd) in later.susp ==> RecordLater(later.susp[SuspKey(cmd)], now.susp[SuspKey(cmd)]);
    }
  }

  /** The second client comes to its compare-and-set, the first wins and saves, then the second goes on. */
  function Overtake(c1: Command, c2: Command): seq<Step> {
    [Submit(1, c2)] + NextFour(1) + SubmitAndWin(0, c1) + [Next(0, true)]
  }

  const GO_ON := [Next(1, true), Next(1, true), Next(1, true), Next(1, false)]

  lemma {:induction false} LateAccept(host: Host, w: World, cmd: Command)
    requires 1 in w.calls && w.calls[1] == Accepting(cmd) && CanAccept(w.susp, SuspKey(cmd))
    ensures var now := Run(host, w, GO_ON, 4); 1 in now.calls && now.calls[1] == Answered(cmd, Accepted)
  {
    hide Run, Advance;
    NoStepsYet(host, w, GO_ON);
    RunStep(host, w, GO_ON, 0);
    RunStep(host, w, GO_ON, 1);
    RunStep(host, w, GO_ON, 2);
    RunStep(host, w, GO_ON, 3);
    OwnMove(host, w, 1, true);
    var w1 := Run(host, w, GO_ON, 1);
    OwnMove(host, w1, 1, true);
    var w2 := Run(host, w, GO_ON, 2);
    OwnMove(host, w2, 1, true);
    var w3 := Run(host, w, GO_ON, 3);
    OwnMove(host, w3, 1, false);
  }

  lemma {:induction false} Overtaken(host: Host, c1: Command, c2: Command)
    requires Clash(host, c1, c2)
    ensures |Overtake(c1, c2)| == 12
    ensures var now := Run(host, TwoOpen(c1, c2), Overtake(c1, c2), 12);
      && 1 in now.calls && now.calls[1] == Accepting(c2) && CanAccept(now.susp, SuspKey(c2)) && ReceiptKey(c2) in now.receipts
  {
    hide Run, SubmitAndWin, AcceptIfOpen, CanAccept, CanBeAccepted, OpenFor;
    var w := TwoOpen(c1, c2);
    var first := [Submit(1, c2)] + NextFour(1);
    TwoOpenAccepts(c1, c2);
    UndisturbedSubmitAccepts(host, w, 1, c2);
    SubmitIsTheStart(host, w, 1, c2);
    var w5 := Goto(w, 1, Accepting(c2));
    UndisturbedSubmitWins(host, w5, 0, c1);
    RunAppend(host, w, first, SubmitAndWin(0, c1), 6);
    var w11 := Run(host, w5, SubmitAndWin(0, c1), 6);
    RunAppend(host, w, first + SubmitAndWin(0, c1), [Next(0, true)], 1);
    NoStepsYet(host, w11, [Next(0, true)]);
    RunStep(host, w11, [Next(0, true)], 0);
    StoreMoves(host, w11, 0, true);
    hide Advance;
  }

  lemma {:induction false} SubmitIsTheStart(host: Host, w: World, p: nat, cmd: Command)
    ensures |SubmitAndWin(p, cmd)| == 6 && |[Submit(p, cmd)] + NextFour(p)| == 5
    ensures Run(host, w, SubmitAndWin(p, cmd), 5) == Run(host, w, [Submit(p, cmd)] + NextFour(p), 5)
  {
    hide Run;
    RunPrefix(host, w, [Submit(p, cmd)] + NextFour(p), [Next(p, true)], 5);
  }

  /** Resolving one of the two suspensions leaves the other open. */
  lemma {:induction false} TwoOpenAccepts(c1: Command, c2: Command)
    requires SuspKey(c1) != SuspKey(c2)
    ensures var s0 := TwoOpen(c1, c2).susp;
      && CanAccept(s0, SuspKey(c1)) && c1.actionType in s0[SuspKey(c1)].allowedActions
      && CanAccept(s0, SuspKey(c2)) && c2.actionType in s0[SuspKey(c2)].allowedActions
      && CanAccept(AcceptIfOpen(s0, SuspKey(c1), c1.clientActionId), SuspKey(c2))
  {
  }

  /** Two clashing calls: the second is answered ACCEPTED, which no state inside the call would answer. */
  lemma {:induction false} OvertakenIsNotLinearizable(host: Host, c1: Command, c2: Command)
    requires Clash(host, c1, c2)
    ensures var w, steps := TwoOpen(c1, c2), Overtake(c1, c2) + GO_ON;
      && |steps| == 16 && Initial(w) && steps[0] == Submit(1, c2)
      && (forall k :: 0 <= k < 16 && steps[k].Submit? ==> steps[k].cmd in {c1, c2})
      && 1 !in Run(host, w, steps, 0).calls
      && 1 in Run(host, w, steps, 16).calls && Run(host, w, steps, 16).calls[1] == Answered(c2, Accepted)
      && forall m: nat :: m <= 16 ==> !AnswersAt(host, w, steps, c2, Accepted, m)
  {
    hide Run, AnswersAt, Base, Clash, CanAccept, ReceiptKey, SuspKey;
    var w, steps := TwoOpen(c1, c2), Overtake(c1, c2) + GO_ON;
    Overtaken(host, c1, c2);
    TwoOpenIsInitial(c1, c2) by { ClashMeans(host, c1, c2); }
    InitialIsBase(w);
    NoStepsYet(host, w, steps);
    var w12 := Run(host, w, Overtake(c1, c2), 12);
    LateAccept(host, w12, c2);
    RunPrefix(host, w, Overtake(c1, c2), GO_ON, 12);
    RunAppend(host, w, Overtake(c1, c2), GO_ON, 4);
    forall m: nat | m <= 16 ensures !AnswersAt(host, w, steps, c2, Accepted, m) {
      NothingAnswersAccepted(host, w, steps, c2, 12, m);
    }
    assert forall k :: 0 <= k < 16 && steps[k].Submit? ==> k == 0 || k == 5;
  }

  lemma {:induction false} ClashMeans(host: Host, c1: Command, c2: Command)
    requires Clash(host, c1, c2)
    ensures SuspKey(c1) != SuspKey(c2)
  {
  }

  lemma {:induction false} AcceptedIsDecided()
    ensures DecidedByStores(Accepted)
  {
  }

  /**
   * `submit_action` is linearizable on every run over a set of commands exactly when no two of them
   * use one action id of a task on two suspensions.
   */
  lemma {:induction false} LinearizableIff(host: Host, commands: iset<Command>)
    ensures (forall w, steps, p, cmd, a, i: nat, j: nat :: i < j <= |steps| ==> AnswersLikeOneStep(host, commands, w, steps, p, cmd, a, i, j))
       <==> OneSuspensionPerId(host, commands)
  {
    hide Initial, Inv, Run, Clash, AnswersAt, DecidedByStores;
    if OneSuspensionPerId(host, commands) {
      forall w, steps, p, cmd, a, i: nat, j: nat | i < j <= |steps| ensures AnswersLikeOneStep(host, commands, w, steps, p, cmd, a, i, j) {
        if && Initial(w) && SubmitsOnly(commands, steps) && steps[i] == Submit(p, cmd) && p !in Run(host, w, steps, i).calls
           && p in Run(host, w, steps, j).calls && Run(host, w, steps, j).calls[p] == Answered(cmd, a) && DecidedByStores(a) {
          var home := WithoutClashes(host, commands, w, steps, j, j);
          var m := SubmitIsLinearizable(host, home, w, steps, p, cmd, a, i, j);
        }
      }
    } else {
      var c1, c2 :| c1 in commands && c2 in commands && Clash(host, c1, c2);
      OvertakenIsNotLinearizable(host, c1, c2);
      var w, steps := TwoOpen(c1, c2), Overtake(c1, c2) + GO_ON;
      AcceptedIsDecided();
      assert SubmitsOnly(commands, steps);
      assert !AnswersLikeOneStep(host, commands, w, steps, 1, c2, Accepted, 0, 16);
    }
  }
}
