/** When a client may reuse action ids: exactly as long as no id is used on two suspensions of a task. */
module ActionReuse {
  import opened Options
  import opened ActionStores
  import opened ActionProtocol
  import opened ActionInvariant
  import opened ActionTheorems
  import opened ActionDispatch

  lemma {:induction false} RunPrefix(host: Host, w: World, first: seq<Step>, second: seq<Step>, k: nat)
    requires k <= |first|
    ensures Run(host, w, first + second, k) == Run(host, w, first, k)
  {
    if k > 0 { RunPrefix(host, w, first, second, k - 1); }
  }

  lemma {:induction false} RunAppend(host: Host, w: World, first: seq<Step>, second: seq<Step>, k: nat)
    requires k <= |second|
    ensures Run(host, w, first + second, |first| + k) == Run(host, Run(host, w, first, |first|), second, k)
  {
    if k == 0 {
      RunPrefix(host, w, first, second, |first|);
    } else {
      RunAppend(host, w, first, second, k - 1);
    }
  }

  function SubmitAndWin(p: nat, cmd: Command): seq<Step> { [Submit(p, cmd)] + NextFour(p) + [Next(p, true)] }

  /** An undisturbed submit that can be accepted comes to the compare-and-set. */
  lemma {:induction false} UndisturbedSubmitAccepts(host: Host, w: World, p: nat, cmd: Command)
    requires p !in w.calls && CanAccept(w.susp, SuspKey(cmd)) && cmd.actionType in w.susp[SuspKey(cmd)].allowedActions
    requires CanBeAccepted(host, cmd) && ReceiptKey(cmd) !in w.receipts
    ensures |SubmitAndWin(p, cmd)| == 6
    ensures Run(host, w, SubmitAndWin(p, cmd), 5) == Goto(w, p, Accepting(cmd))
  {
    hide Run, SubmitAndWin, AcceptIfOpen;
    FiveSteps(host, w, p, cmd);
    assert Exec(host, w, Submit(p, cmd)) == Goto(w, p, Begun(cmd));
    assert Exec(host, Goto(w, p, Begun(cmd)), Next(p, true)) == Goto(w, p, Granted(cmd));
    assert Exec(host, Goto(w, p, Granted(cmd)), Next(p, true)) == Goto(w, p, HasSuspension(cmd, w.susp[SuspKey(cmd)]));
    assert Exec(host, Goto(w, p, HasSuspension(cmd, w.susp[SuspKey(cmd)])), Next(p, true)) == Goto(w, p, Validating(cmd));
    assert Exec(host, Goto(w, p, Validating(cmd)), Next(p, true)) == Goto(w, p, Accepting(cmd));
  }

  /** And it wins an open suspension. */
  lemma {:induction false} UndisturbedSubmitWins(host: Host, w: World, p: nat, cmd: Command)
    requires p !in w.calls && CanAccept(w.susp, SuspKey(cmd)) && cmd.actionType in w.susp[SuspKey(cmd)].allowedActions
    requires CanBeAccepted(host, cmd) && ReceiptKey(cmd) !in w.receipts
    ensures |SubmitAndWin(p, cmd)| == 6
    ensures Run(host, w, SubmitAndWin(p, cmd), 6)
         == Goto(w.(susp := AcceptIfOpen(w.susp, SuspKey(cmd), cmd.clientActionId)), p, Won(cmd))
  {
    hide Run, AcceptIfOpen, NextFour;
    UndisturbedSubmitAccepts(host, w, p, cmd);
    RunStep(host, w, SubmitAndWin(p, cmd), 5);
    StoreMoves(host, Goto(w, p, Accepting(cmd)), p, true);
    hide Advance, CanAccept;
    assert SubmitAndWin(p, cmd)[5] == Next(p, true);
  }

  lemma {:induction false} FiveSteps(host: Host, w: World, p: nat, cmd: Command)
    ensures |SubmitAndWin(p, cmd)| == 6
    ensures var next := Next(p, true);
      Run(host, w, SubmitAndWin(p, cmd), 5)
      == Exec(host, Exec(host, Exec(host, Exec(host, Exec(host, w, Submit(p, cmd)), next), next), next), next)
  {
    hide Run, Exec;
    var steps := SubmitAndWin(p, cmd);
    RunStep(host, w, steps, 0);
    RunStep(host, w, steps, 1);
    RunStep(host, w, steps, 2);
    RunStep(host, w, steps, 3);
    RunStep(host, w, steps, 4);
    NoStepsYet(host, w, steps);
  }

  lemma {:induction false} NoStepsYet(host: Host, w: World, steps: seq<Step>)
    ensures Run(host, w, steps, 0) == w
  {
  }

  lemma {:induction false} SecondSaveOverwrites(host: Host, w: World, p: nat, q: nat)
    requires p in w.calls && q in w.calls && p != q && w.calls[p].Won? && w.calls[q].Won?
    requires ReceiptKey(w.calls[p].cmd) == ReceiptKey(w.calls[q].cmd) && SuspKey(w.calls[p].cmd) != SuspKey(w.calls[q].cmd)
    ensures HasReceiptOf(Run(host, w, [Next(p, true), Next(q, true)], 1).receipts, w.calls[p].cmd)
    ensures var now := Run(host, w, [Next(p, true), Next(q, true)], 2);
      && now.susp == w.susp && !HasReceiptOf(now.receipts, w.calls[p].cmd) && HasReceiptOf(now.receipts, w.calls[q].cmd)
      && now.resumes == w.resumes && now.calls.Keys == w.calls.Keys
  {
    var steps := [Next(p, true), Next(q, true)];
    RunStep(host, w, steps, 0);
    RunStep(host, w, steps, 1);
    assert Run(host, w, steps, 0) == w;
    hide Run;
  }

  // Two suspensions, one action id

  function OpenFor(cmd: Command): Suspension {
    Suspension(cmd.taskId, cmd.suspendId, Open, {cmd.actionType}, None, None, NoHandoff)
  }

  function TwoOpen(c1: Command, c2: Command): World {
    World(map[SuspKey(c1) := OpenFor(c1), SuspKey(c2) := OpenFor(c2)], map[], [], [], map[])
  }

  /** Both win, then both save. */
  function Race(c1: Command, c2: Command): seq<Step> {
    SubmitAndWin(0, c1) + SubmitAndWin(1, c2) + [Next(0, true), Next(1, true)]
  }

  predicate Clash(host: Host, c1: Command, c2: Command) {
    CanBeAccepted(host, c1) && CanBeAccepted(host, c2) && ReceiptKey(c1) == ReceiptKey(c2) && SuspKey(c1) != SuspKey(c2)
  }

  lemma {:induction false} TwoOpenIsInitial(c1: Command, c2: Command)
    requires SuspKey(c1) != SuspKey(c2)
    ensures Initial(TwoOpen(c1, c2))
  {
  }

  lemma {:induction false} TwoAccepts(c1: Command, c2: Command)
    requires SuspKey(c1) != SuspKey(c2)
    ensures var s0 := TwoOpen(c1, c2).susp;
      var s1 := AcceptIfOpen(s0, SuspKey(c1), c1.clientActionId);
      var s2 := AcceptIfOpen(s1, SuspKey(c2), c2.clientActionId);
      && CanAccept(s0, SuspKey(c1)) && c1.actionType in s0[SuspKey(c1)].allowedActions
      && CanAccept(s1, SuspKey(c2)) && c2.actionType in s1[SuspKey(c2)].allowedActions
      && SuspKey(c1) in s2 && s2[SuspKey(c1)].handoff.Pending? && s2[SuspKey(c1)].successfulActionId == Some(c1.clientActionId)
  {
  }

  lemma {:induction false} RaceHasTwoWinners(host: Host, c1: Command, c2: Command)
    requires Clash(host, c1, c2)
    ensures |SubmitAndWin(0, c1) + SubmitAndWin(1, c2)| == 12
    ensures var now := Run(host, TwoOpen(c1, c2), SubmitAndWin(0, c1) + SubmitAndWin(1, c2), 12);
      && 0 in now.calls && now.calls[0] == Won(c1) && 1 in now.calls && now.calls[1] == Won(c2)
      && IsPending(now, SuspKey(c1)) && ResolvedBy(now.susp, SuspKey(c1), c1.clientActionId)
      && now.resumes == [] && now.calls.Keys == {0, 1}
  {
    hide Run, SubmitAndWin, AcceptIfOpen, CanAccept, CanBeAccepted, SuspKey, ReceiptKey, OpenFor;
    var w := TwoOpen(c1, c2);
    TwoAccepts(c1, c2);
    UndisturbedSubmitWins(host, w, 0, c1);
    var w1 := Run(host, w, SubmitAndWin(0, c1), 6);
    UndisturbedSubmitWins(host, w1, 1, c2);
    RunAppend(host, w, SubmitAndWin(0, c1), SubmitAndWin(1, c2), 6);
  }

  lemma {:induction false} RaceSubmits(c1: Command, c2: Command)
    ensures |Race(c1, c2)| == 14 && forall k :: 0 <= k < 14 && Race(c1, c2)[k].Submit? ==> Race(c1, c2)[k].cmd in {c1, c2}
  {
    assert forall k :: 0 <= k < 14 && Race(c1, c2)[k].Submit? ==> k == 0 || k == 6;
  }

  /** The race around the two saves. */
  lemma {:induction false} RaceEnds(host: Host, c1: Command, c2: Command)
    requires Clash(host, c1, c2)
    ensures |Race(c1, c2)| == 14 && HasReceiptOf(Run(host, TwoOpen(c1, c2), Race(c1, c2), 13).receipts, c1)
    ensures var now := Run(host, TwoOpen(c1, c2), Race(c1, c2), 14);
      && IsPending(now, SuspKey(c1)) && ResolvedBy(now.susp, SuspKey(c1), c1.clientActionId)
      && HasReceiptOf(now.receipts, c2) && now.resumes == [] && now.calls.Keys == {0, 1}
  {
    hide Run, SubmitAndWin, TwoOpen, ResolvedBy, HasReceiptOf, SuspKey, ReceiptKey, CanBeAccepted;
    var wins, saves := SubmitAndWin(0, c1) + SubmitAndWin(1, c2), [Next(0, true), Next(1, true)];
    RaceHasTwoWinners(host, c1, c2);
    var w12 := Run(host, TwoOpen(c1, c2), wins, 12);
    SecondSaveOverwrites(host, w12, 0, 1);
    RunAppend(host, TwoOpen(c1, c2), wins, saves, 1);
    RunAppend(host, TwoOpen(c1, c2), wins, saves, 2);
  }

  /**
   * Every reuse of an action id fails like this: from a fresh start both clients win, the second
   * saved receipt overwrites the first, and the first suspension stays pending with a receipt that
   * names the other one.
   */
  lemma {:induction false} ReusedActionIdLosesReceipt(host: Host, c1: Command, c2: Command)
    requires Clash(host, c1, c2)
    ensures Initial(TwoOpen(c1, c2))
    ensures |Race(c1, c2)| == 14 && forall k :: 0 <= k < 14 && Race(c1, c2)[k].Submit? ==> Race(c1, c2)[k].cmd in {c1, c2}
    ensures var now := Run(host, TwoOpen(c1, c2), Race(c1, c2), 14);
      && IsPending(now, SuspKey(c1)) && ResolvedBy(now.susp, SuspKey(c1), c1.clientActionId)
      && ReceiptKey(c1) in now.receipts && now.receipts[ReceiptKey(c1)].suspendId == c2.suspendId
  {
    hide Run, Race, TwoOpen, Initial, IsPending, ResolvedBy, CanBeAccepted;
    TwoOpenIsInitial(c1, c2);
    RaceSubmits(c1, c2);
    RaceEnds(host, c1, c2);
  }

  // The exact condition

  /** Some resolved suspension's receipt names another one. */
  ghost predicate LosesReceipt(w: World) {
    exists key :: key in w.susp && MisnamedReceipt(w, key)
  }

  ghost predicate MisnamedReceipt(w: World, key: Key)
    requires key in w.susp
  {
    var s := w.susp[key];
    s.successfulActionId.Some? && (key.0, s.successfulActionId.value) in w.receipts
    && w.receipts[(key.0, s.successfulActionId.value)].suspendId != key.1
  }

  ghost predicate SubmitsOnly(commands: iset<Command>, steps: seq<Step>) {
    forall k :: 0 <= k < |steps| && steps[k].Submit? ==> steps[k].cmd in commands
  }

  /** No two commands that this host may accept use one action id on two suspensions of a task. */
  ghost predicate OneSuspensionPerId(host: Host, commands: iset<Command>) {
    forall c1, c2 :: c1 in commands && c2 in commands ==> !Clash(host, c1, c2)
  }

  /** The suspension an action id is used on, if any command that may be accepted uses it. */
  ghost function HomeOf(host: Host, commands: iset<Command>, key: Key): string {
    if c :| c in commands && CanBeAccepted(host, c) && ReceiptKey(c) == key then c.suspendId else ""
  }

  lemma {:induction false} HomesExist(host: Host, commands: iset<Command>, steps: seq<Step>)
    requires OneSuspensionPerId(host, commands) && SubmitsOnly(commands, steps)
    ensures Disciplined(host, key => HomeOf(host, commands, key), steps)
  {
    forall k | 0 <= k < |steps| && steps[k].Submit? ensures Homely(host, key => HomeOf(host, commands, key), steps[k].cmd) {
      var c := steps[k].cmd;
      if CanBeAccepted(host, c) {
        var d :| d in commands && CanBeAccepted(host, d) && ReceiptKey(d) == ReceiptKey(c)
          && HomeOf(host, commands, ReceiptKey(c)) == d.suspendId;
        assert !Clash(host, c, d);
      }
    }
  }

  /** Commands that do not clash lead from a fresh start to states that meet the full invariant only. */
  lemma {:induction false} WithoutClashes(host: Host, commands: iset<Command>, w: World, steps: seq<Step>, j: nat, k: nat) returns (home: Key -> string)
    requires OneSuspensionPerId(host, commands) && Initial(w) && SubmitsOnly(commands, steps) && j <= k <= |steps|
    ensures Inv(host, home, w) && Disciplined(host, home, steps)
    ensures Inv(host, home, Run(host, w, steps, k)) && Later(Run(host, w, steps, j), Run(host, w, steps, k))
  {
    hide Run, Inv, Initial, Later;
    home := key => HomeOf(host, commands, key);
    HomesExist(host, commands, steps);
    InitialIsOk(host, home, w);
    RunKeepsInv(host, home, w, steps, j, k);
  }

  lemma {:induction false} InvLosesNoReceipt(host: Host, home: Key -> string, w: World)
    requires Inv(host, home, w)
    ensures !LosesReceipt(w)
  {
    forall key | key in w.susp ensures !MisnamedReceipt(w, key) {
      var s := w.susp[key];
      assert SuspensionOk(home, s) && RecordKey(s) == key;
      if s.successfulActionId.Some? && (key.0, s.successfulActionId.value) in w.receipts {
        var id := (key.0, s.successfulActionId.value);
        assert ReceiptOk(host, home, w.susp, id, w.receipts[id]);
      }
    }
  }

  ghost predicate SafeRun(host: Host, commands: iset<Command>, w: World, steps: seq<Step>, k: nat)
    requires k <= |steps|
  {
    Initial(w) && SubmitsOnly(commands, steps) ==> !LosesReceipt(Run(host, w, steps, k))
  }

  /**
   * Exactly which commands clients may submit, in any interleaving with crashes, reconcilers and
   * retention, without a receipt ever being lost: those that use each action id on one suspension
   * of a task only, as far as the host may accept them.
   */
  lemma {:induction false} NoReceiptLostIff(host: Host, commands: iset<Command>)
    ensures (forall w, steps, k: nat :: k <= |steps| ==> SafeRun(host, commands, w, steps, k)) <==> OneSuspensionPerId(host, commands)
  {
    if OneSuspensionPerId(host, commands) {
      forall w, steps, k: nat | k <= |steps| ensures SafeRun(host, commands, w, steps, k) {
        if Initial(w) && SubmitsOnly(commands, steps) {
          var home := WithoutClashes(host, commands, w, steps, k, k);
          InvLosesNoReceipt(host, home, Run(host, w, steps, k));
        }
      }
    } else {
      var c1, c2 :| c1 in commands && c2 in commands && Clash(host, c1, c2);
      var w, steps := TwoOpen(c1, c2), Race(c1, c2);
      ReusedActionIdLosesReceipt(host, c1, c2);
      assert SubmitsOnly(commands, steps);
      RaceLoses(host, c1, c2);
      assert !SafeRun(host, commands, w, steps, 14);
    }
  }

  lemma {:induction false} RaceLoses(host: Host, c1: Command, c2: Command)
    requires Clash(host, c1, c2)
    ensures |Race(c1, c2)| == 14 && LosesReceipt(Run(host, TwoOpen(c1, c2), Race(c1, c2), 14))
  {
    hide Run, Race, TwoOpen;
    ReusedActionIdLosesReceipt(host, c1, c2);
    assert MisnamedReceipt(Run(host, TwoOpen(c1, c2), Race(c1, c2), 14), SuspKey(c1));
  }
}
