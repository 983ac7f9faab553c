/** When a run ends, how many sessions and backoffs it takes, and when polling makes progress. */
module ClientLimits {
  import opened Options
  import opened EventLog
  import opened RecentIds
  import opened ClientModel
  import opened ClientDelivery

  /** What no transport survives: 401, a policy close, an auth error, an illegal argument, a failure to hand an event over. */
  predicate IsListedFatal(e: Throwable) {
    match e
    case HttpStatus(code) => code == 401
    case PolicyClose(_) => true
    case Auth(_) => true
    case IllegalArgument => true
    case Serialization => true
    case Processing(_) => true
    case _ => false
  }

  /**
   * The error of a session that ends the flow. In polling it is all but the HTTP errors other than
   * 401, the I/O errors and the serialization errors that the classifier retries; in streaming a
   * fatal error, unless the classifier retries it where there is another attempt or, for a
   * serialization error, a backoff to be had.
   */
  predicate EndsFlow(cfg: Config, control: Control, e: Throwable) {
    if control.Poll? then !(((e.HttpStatus? && e.code != 401) || e.Io? || e.Serialization?) && cfg.isRetryable(e))
    else e.Cancellation? || (IsListedFatal(e) && !(cfg.isRetryable(e) && (AttemptsLeft(cfg, control) || e.Serialization?)))
  }

  /** The sticky strategy has not used up its attempts at this streaming transport. */
  predicate AttemptsLeft(cfg: Config, control: Control) {
    cfg.strategy.ProgressiveSticky?
    && ((control.Ws? && control.failures + 1 < cfg.wsMaxAttempts) || (control.Sse? && control.failures + 1 < cfg.sseMaxAttempts))
  }

  /**
   * With the default classifier: in any transport cancellation, 401, a policy close, an auth error,
   * an illegal argument, a serialization error and a failure to hand an event over; in polling also
   * every other error but I/O errors, 429 and the statuses from 500 on.
   */
  lemma {:induction false} DefaultEndsFlowIff(cfg: Config, control: Control, e: Throwable)
    requires HasDefaultClassifier(cfg)
    ensures EndsFlow(cfg, control, e) <==>
      match e
      case Cancellation => true
      case HttpStatus(code) => code == 401 || (control.Poll? && code != 429 && code < 500)
      case PolicyClose(_) => true
      case Auth(_) => true
      case IllegalArgument => true
      case Serialization => true
      case Processing(_) => true
      case Io => false
      case OtherException => control.Poll?
  {
    assert cfg.isRetryable(e) == DefaultIsRetryable(e);
  }

  /** What the collector is told: an unwrapped cause, the auth exception for a 401, or the error itself. */
  function ReasonOf(outcome: Outcome): EndReason {
    match outcome
    case Terminal => TerminalEvent
    case Clean => Inactive
    case Failure(e) =>
      match e
      case Cancellation => Cancelled
      case Processing(cause) => if cause.Cancellation? then Cancelled else ClosedWith(cause)
      case HttpStatus(401) => ClosedWith(Auth(e))
      case _ => ClosedWith(e)
  }

  /** An active session ends the flow exactly by a terminal event or by such an error, whatever the classifier. */
  lemma {:induction false} SessionEndsIff(cfg: Config, log: seq<LogEntry>, s: ClientState, session: Session)
    requires !s.control.Ended?
    ensures var outcome := OutcomeOf(Observe(cfg, log, s, session), session.end);
            var next := Step(cfg, log, s, session, true).control;
            && (next.Ended? <==> outcome.Terminal? || (outcome.Failure? && EndsFlow(cfg, s.control, outcome.error)))
            && (next.Ended? ==> next.reason == ReasonOf(outcome))
  {
    hide Observe;
  }

  /** What the `j`-th session of a run came to. */
  function OutcomeAt(cfg: Config, log: seq<LogEntry>, s: ClientState, script: seq<Session>, j: nat): Outcome
    requires j < |script|
  {
    OutcomeOf(Observe(cfg, log, Run(cfg, log, s, script, j), script[j]), script[j].end)
  }

  /** The `j`-th session is opened and sees a terminal event or an error that ends the flow. */
  predicate EndsAt(cfg: Config, log: seq<LogEntry>, s: ClientState, script: seq<Session>, j: nat)
    requires j < |script|
  {
    var control, outcome := Run(cfg, log, s, script, j).control, OutcomeAt(cfg, log, s, script, j);
    !control.Ended? && (outcome.Terminal? || (outcome.Failure? && EndsFlow(cfg, control, outcome.error)))
  }

  /**
   * Under any classifier, a run that is not cancelled from outside has ended exactly when one of its
   * sessions saw a terminal event or failed with an error that ends the flow. It ends for that
   * session's reason, and nothing is opened after it.
   */
  lemma {:induction false} FlowEndsIff(cfg: Config, log: seq<LogEntry>, s: ClientState, script: seq<Session>, k: nat)
    requires !s.control.Ended? && k < |script|
    ensures Run(cfg, log, s, script, k).control.Ended? <==> exists j :: 0 <= j < k && EndsAt(cfg, log, s, script, j)
    ensures forall j :: 0 <= j < k && EndsAt(cfg, log, s, script, j) ==>
      && Run(cfg, log, s, script, k).control == Ended(ReasonOf(OutcomeAt(cfg, log, s, script, j)))
      && Run(cfg, log, s, script, k) == Run(cfg, log, s, script, j + 1)
  {
    hide Observe, Step, ReasonOf, EndsFlow, OutcomeOf;
    if k > 0 {
      var before := Run(cfg, log, s, script, k - 1);
      FlowEndsIff(cfg, log, s, script, k - 1);
      if before.control.Ended? {
        EndedIsFinal(cfg, log, s, script, k - 1, k);
      } else {
        SessionEndsIff(cfg, log, before, script[k - 1]);
        assert Run(cfg, log, s, script, k) == Step(cfg, log, before, script[k - 1], true);
        if Run(cfg, log, s, script, k).control.Ended? { assert EndsAt(cfg, log, s, script, k - 1); }
      }
    }
  }

  lemma {:induction false} ReceiveConcat(cfg: Config, log: seq<LogEntry>, polling: bool, t: Track, a: seq<Arrival>, b: seq<Arrival>)
    ensures Receive(cfg, log, polling, t, a + b) == Receive(cfg, log, polling, Receive(cfg, log, polling, t, a), b)
    decreases |a|
  {
    hide Arrive;
    if a == [] {
      assert a + b == b;
    } else if t.halt == Going {
      assert (a + b)[0] == a[0] && (a + b)[1..] == a[1..] + b;
      ReceiveConcat(cfg, log, polling, Arrive(cfg, log, polling, t, a[0]), a[1..], b);
    }
  }

  /** What a collector is told whose own code, or whose checkpoint store, threw `e`. */
  function HandoverReason(e: Throwable): EndReason {
    match e
    case Cancellation => Cancelled
    case Processing(cause) => if cause.Cancellation? then Cancelled else ClosedWith(cause)
    case _ => ClosedWith(e)
  }

  /** The error with which sending a new event, saving its checkpoint, or clearing it after a terminal one, fails. */
  predicate FailsWith(fault: Fault, terminal: bool, e: Throwable) {
    fault == SendFails(e) || fault == SaveFails(e) || (terminal && fault == ClearFails(e))
  }

  /**
   * In every transport, wherever in the session it happens: a failure to send a new event, or to save
   * or clear its checkpoint, ends the flow, and the collector sees its own error; a cancellation ends
   * the flow as cancelled whatever the classifier says.
   */
  lemma {:induction false} HandoverFailureSurfaces(cfg: Config, log: seq<LogEntry>, s: ClientState, rewind: nat, arrivals: seq<Arrival>,
                                                   fault: Fault, e: Throwable, rest: seq<Arrival>, end: SessionEnd)
    requires !s.control.Ended? && (ProcessingIsFinal(cfg) || e.Cancellation?)
    requires var t := Observe(cfg, log, s, Session(rewind, arrivals, end));
      t.halt == Going && t.at < |log| && log[t.at].readable && log[t.at].id !in t.state.window && FailsWith(fault, log[t.at].terminal, e)
    ensures Step(cfg, log, s, Session(rewind, arrivals + ([NextEntry(fault)] + rest), end), true).control == Ended(HandoverReason(e))
  {
    hide Receive, StartOf, ProcessingIsFinal;
    var session := Session(rewind, arrivals + ([NextEntry(fault)] + rest), end);
    var polling, start := s.control.Poll?, Track(s, StartOf(log, s.watermark, rewind), Going);
    var t := Receive(cfg, log, polling, start, arrivals);
    ReceiveConcat(cfg, log, polling, start, arrivals, [NextEntry(fault)] + rest);
    FailedArrival(cfg, log, polling, t, fault, e, rest);
    var halt := Observe(cfg, log, s, session).halt;
    if !e.Cancellation? { FinalHandover(cfg, if e.Processing? then e else Processing(e)); }
  }

  lemma {:induction false} FinalHandover(cfg: Config, e: Throwable)
    requires ProcessingIsFinal(cfg) && e.Processing?
    ensures IsFinalError(cfg, e)
  {
    assert e == Processing(e.cause);
  }

  lemma {:induction false} FailedArrival(cfg: Config, log: seq<LogEntry>, polling: bool, t: Track, fault: Fault, e: Throwable, rest: seq<Arrival>)
    requires t.halt == Going && t.at < |log| && log[t.at].readable && log[t.at].id !in t.state.window && FailsWith(fault, log[t.at].terminal, e)
    ensures Receive(cfg, log, polling, t, [NextEntry(fault)] + rest).halt == Threw(if e.Cancellation? || e.Processing? then e else Processing(e))
  {
    assert ([NextEntry(fault)] + rest)[1..] == rest;
    var next := Arrive(cfg, log, polling, t, NextEntry(fault));
    assert Receive(cfg, log, polling, next, rest) == next;
  }

  /** The number of backoffs among the first `k` sessions. */
  function Backoffs(cfg: Config, log: seq<LogEntry>, s: ClientState, script: seq<Session>, k: nat): nat
    requires k <= |script|
  {
    if k == 0 then 0
    else
      var before := Run(cfg, log, s, script, k - 1);
      var outcome := OutcomeOf(Observe(cfg, log, before, script[k - 1]), script[k - 1].end);
      Backoffs(cfg, log, s, script, k - 1)
      + (if BacksOff(cfg, before.control, outcome, k < |script|) then 1 else 0)
  }

  lemma {:induction false} ReceiveKeepsAttempt(cfg: Config, log: seq<LogEntry>, polling: bool, t: Track, arrivals: seq<Arrival>)
    ensures Receive(cfg, log, polling, t, arrivals).state.attempt == t.state.attempt
    decreases |arrivals|
  {
    if t.halt == Going && arrivals != [] {
      ReceiveKeepsAttempt(cfg, log, polling, Arrive(cfg, log, polling, t, arrivals[0]), arrivals[1..]);
    }
  }

  /** The attempt counter that drives the delays is the number of backoffs: it never goes back to zero. */
  lemma {:induction false} AttemptCountsBackoffs(cfg: Config, log: seq<LogEntry>, s: ClientState, script: seq<Session>, k: nat)
    requires k <= |script|
    ensures Run(cfg, log, s, script, k).attempt == s.attempt + Backoffs(cfg, log, s, script, k)
  {
    if k > 0 {
      AttemptCountsBackoffs(cfg, log, s, script, k - 1);
      var before := Run(cfg, log, s, script, k - 1);
      ReceiveKeepsAttempt(cfg, log, before.control.Poll?,
                          Track(before, StartOf(log, before.watermark, script[k - 1].rewind), Going), script[k - 1].arrivals);
    }
  }

  function NonNegative(n: int): nat { if n > 0 then n else 0 }

  /** How many more streaming sessions the cycle may open. */
  function SessionsLeft(cfg: Config, control: Control): nat {
    if cfg.strategy.FastCycle? then (match control case Ws(_) => 2 case Sse(_) => 1 case _ => 0)
    else match control
      case Ws(n) => 1 + NonNegative(cfg.wsMaxAttempts - n - 1) + NonNegative(cfg.sseMaxAttempts)
      case Sse(n) => 1 + NonNegative(cfg.sseMaxAttempts - n - 1)
      case _ => 0
  }

  ghost predicate Streaming(control: Control) { control.Ws? || control.Sse? }

  /** A streaming session uses one up, unless it throws out of the cycle and the next cycle starts. */
  lemma {:induction false} StreamingStepUsesOne(cfg: Config, log: seq<LogEntry>, s: ClientState, session: Session, active: bool)
    requires Streaming(s.control)
    ensures var next := Step(cfg, log, s, session, active);
      1 + (if next.attempt == s.attempt then SessionsLeft(cfg, next.control) else 0) <= SessionsLeft(cfg, s.control)
  {
    var t := Observe(cfg, log, s, session);
    var outcome := OutcomeOf(t, session.end);
    ReceiveKeepsAttempt(cfg, log, false, Track(s, StartOf(log, s.watermark, session.rewind), Going), session.arrivals);
    if !BacksOff(cfg, s.control, outcome, active) {
      assert Step(cfg, log, s, session, active).control == NextControl(cfg, s.control, outcome, active);
    }
    hide Observe, Receive;
  }

  /** The sessions from `j` up to `k` are streaming sessions of one cycle. */
  ghost predicate StreamingCycle(cfg: Config, log: seq<LogEntry>, s: ClientState, script: seq<Session>, j: nat, k: nat)
    requires j <= k <= |script|
  {
    forall i :: j <= i < k ==>
      Streaming(Run(cfg, log, s, script, i).control) && Run(cfg, log, s, script, i).attempt == Run(cfg, log, s, script, j).attempt
  }

  /**
   * A cycle opens a bounded number of streaming sessions: from any point, the streaming sessions that
   * follow each other without a backoff are at most as many as the attempt limits leave.
   */
  lemma {:induction false} StreamingSessionsAreBounded(cfg: Config, log: seq<LogEntry>, s: ClientState, script: seq<Session>, j: nat, k: nat)
    requires j <= k <= |script| && StreamingCycle(cfg, log, s, script, j, k)
    ensures var first, last := Run(cfg, log, s, script, j), Run(cfg, log, s, script, k);
      k - j + (if last.attempt == first.attempt then SessionsLeft(cfg, last.control) else 0) <= SessionsLeft(cfg, first.control)
    ensures Run(cfg, log, s, script, j).control == Enter(cfg) ==>
      k - j <= if cfg.strategy.FastCycle? then 2 else NonNegative(cfg.wsMaxAttempts) + NonNegative(cfg.sseMaxAttempts)
  {
    hide Step;
    if j < k {
      StreamingSessionsAreBounded(cfg, log, s, script, j, k - 1);
      StreamingStepUsesOne(cfg, log, Run(cfg, log, s, script, k - 1), script[k - 1], k < |script|);
    }
  }

  ghost predicate WithinBudget(cfg: Config, s: ClientState) {
    s.malformed <= cfg.maxMalformed || (s.control.Ended? && s.malformed == cfg.maxMalformed + 1)
  }

  lemma {:induction false} ReceiveWithinBudget(cfg: Config, log: seq<LogEntry>, polling: bool, t: Track, arrivals: seq<Arrival>)
    requires t.state.malformed <= cfg.maxMalformed || (t.state.malformed == cfg.maxMalformed + 1 && t.halt == Threw(Processing(Io)))
    ensures var r := Receive(cfg, log, polling, t, arrivals);
            r.state.malformed <= cfg.maxMalformed || (r.state.malformed == cfg.maxMalformed + 1 && r.halt == Threw(Processing(Io)))
    decreases |arrivals|
  {
    if t.halt == Going && arrivals != [] {
      ReceiveWithinBudget(cfg, log, polling, Arrive(cfg, log, polling, t, arrivals[0]), arrivals[1..]);
    }
  }

  /**
   * Over any run, a cycle reports at most `maxMalformed + 1` undecodable streamed payloads, and the
   * one over the budget ends the flow.
   */
  lemma {:induction false} MalformedBudgetHolds(cfg: Config, log: seq<LogEntry>, s: ClientState, script: seq<Session>, k: nat)
    requires k <= |script| && IsFinalError(cfg, Processing(Io)) && WithinBudget(cfg, s)
    ensures WithinBudget(cfg, Run(cfg, log, s, script, k))
  {
    if k > 0 {
      MalformedBudgetHolds(cfg, log, s, script, k - 1);
      var before := Run(cfg, log, s, script, k - 1);
      if !before.control.Ended? {
        var t0 := Track(before, StartOf(log, before.watermark, script[k - 1].rewind), Going);
        ReceiveWithinBudget(cfg, log, before.control.Poll?, t0, script[k - 1].arrivals);
        var t := Observe(cfg, log, before, script[k - 1]);
        if t.halt == Threw(Processing(Io)) {
          ThrownEndsTheRun(cfg, before.control, t.halt.error, k < |script|);
        }
      }
    }
  }

  ghost predicate FaultFree(arrivals: seq<Arrival>) {
    forall a :: a in arrivals ==> a == NextEntry(NoFault)
  }

  /** A faultless page of nonterminal log entries that the client has not emitted before. */
  ghost predicate PageReady(log: seq<LogEntry>, t: Track, arrivals: seq<Arrival>) {
    && t.halt == Going && FaultFree(arrivals) && t.at + |arrivals| <= |log|
    && forall i :: t.at <= i < t.at + |arrivals| ==> !log[i].terminal && log[i].id !in t.state.window
  }

  lemma {:induction false} PageStaysReady(cfg: Config, log: seq<LogEntry>, t: Track, arrivals: seq<Arrival>)
    requires Increasing(log) && arrivals != [] && PageReady(log, t, arrivals)
    ensures arrivals[0] == NextEntry(NoFault)
    ensures var r := Arrive(cfg, log, true, t, NextEntry(NoFault));
            && PageReady(log, r, arrivals[1..]) && r.at == t.at + 1
            && r.state.sent == t.state.sent + (if log[t.at].readable then [log[t.at]] else [])
            && r.state.watermark == if log[t.at].readable then Some(log[t.at].id) else t.state.watermark
  {
    assert arrivals[0] in arrivals;
    assert forall a :: a in arrivals[1..] ==> a in arrivals;
    assert forall i :: t.at < i < |log| ==> IsNewer(log[i].id, Some(log[t.at].id));
  }

  /** Exactly the readable entries of the page are sent, and the watermark follows the last of them. */
  lemma {:induction false} PageYields(cfg: Config, log: seq<LogEntry>, t: Track, arrivals: seq<Arrival>)
    requires Increasing(log) && PageReady(log, t, arrivals)
    ensures var r := Receive(cfg, log, true, t, arrivals);
            var page := Readable(log[t.at..t.at + |arrivals|]);
            && r.halt == Going
            && r.state.sent == t.state.sent + page
            && r.state.watermark == if page == [] then t.state.watermark else Some(page[|page| - 1].id)
    decreases |arrivals|
  {
    hide Arrive, Readable;
    if arrivals == [] {
      ReadableNothing(log, t.at);
    } else {
      var t1 := Arrive(cfg, log, true, t, NextEntry(NoFault));
      PageStaysReady(cfg, log, t, arrivals);
      PageYields(cfg, log, t1, arrivals[1..]);
      var n := t.at + |arrivals|;
      var rest := Readable(log[t1.at..n]);
      assert Readable(log[t.at..n]) == (if log[t.at].readable then [log[t.at]] else []) + rest by {
        ReadableCons(log, t.at, n);
      }
    }
  }

  /** Nothing beyond the furthest emitted event has been emitted. */
  lemma {:induction false} NothingSeenAhead(log: seq<LogEntry>, o: Origin, s: ClientState, i: nat)
    requires Increasing(log) && Live(log, o, s) && High(log, o.p0, s.sent) <= i < |log|
    ensures log[i].id !in s.window
  {
    if log[i].id in s.window {
      SeenBefore(log, o, s, i);
    }
  }

  lemma {:induction false} ReadableNothing(log: seq<LogEntry>, i: nat)
    requires i <= |log|
    ensures Readable(log[i..i]) == []
  {
  }

  lemma {:induction false} ReadableCons(log: seq<LogEntry>, from: nat, to: nat)
    requires from < to <= |log|
    ensures Readable(log[from..to]) == (if log[from].readable then [log[from]] else []) + Readable(log[from + 1..to])
  {
    assert log[from..to] == [log[from]] + log[from + 1..to];
    ReadableConcat([log[from]], log[from + 1..to]);
    assert [log[from]][..0] == [];
  }

  /** In a run against a strict server every faultless page of nonterminal entries is ready in this sense. */
  lemma {:induction false} LivePageIsReady(log: seq<LogEntry>, o: Origin, s: ClientState, arrivals: seq<Arrival>)
    requires Increasing(log) && o.p0 == Pos(log, o.start) && Live(log, o, s) && UpToDate(s)
    requires FaultFree(arrivals) && Pos(log, s.watermark) + |arrivals| <= |log|
    requires forall i :: Pos(log, s.watermark) <= i < Pos(log, s.watermark) + |arrivals| ==> !log[i].terminal
    ensures PageReady(log, Track(s, Pos(log, s.watermark), Going), arrivals)
  {
    ResumesAtHigh(log, o, s);
    forall i | Pos(log, s.watermark) <= i < |log| ensures log[i].id !in s.window {
      NothingSeenAhead(log, o, s, i);
    }
  }

  /**
   * Polling makes progress exactly on pages that hold something readable: a page of undecodable
   * events leaves the watermark where it was, so the next poll asks for the same page again.
   */
  lemma {:induction false} PollingProgressIff(cfg: Config, log: seq<LogEntry>, s: ClientState, arrivals: seq<Arrival>)
    requires Increasing(log) && s.control == Poll
    requires PageReady(log, Track(s, Pos(log, s.watermark), Going), arrivals)
    ensures var next := Step(cfg, log, s, Session(0, arrivals, Closed), true);
            var page := log[Pos(log, s.watermark)..Pos(log, s.watermark) + |arrivals|];
            && next.control == Poll
            && next.sent == s.sent + Readable(page)
            && (Readable(page) == [] ==> next.watermark == s.watermark)
            && (Readable(page) != [] ==> Pos(log, next.watermark) > Pos(log, s.watermark))
  {
    hide Receive, Step, Pos, Readable;
    var at := Pos(log, s.watermark);
    PageYields(cfg, log, Track(s, at, Going), arrivals);
    PolledPageKeepsPolling(cfg, log, s, arrivals);
    if Readable(log[at..at + |arrivals|]) != [] {
      LastReadableIsBeyond(log, at, at + |arrivals|);
    }
  }

  lemma {:induction false} PolledPageKeepsPolling(cfg: Config, log: seq<LogEntry>, s: ClientState, arrivals: seq<Arrival>)
    requires s.control == Poll
    requires Receive(cfg, log, true, Track(s, Pos(log, s.watermark), Going), arrivals).halt == Going
    ensures Step(cfg, log, s, Session(0, arrivals, Closed), true)
         == Receive(cfg, log, true, Track(s, Pos(log, s.watermark), Going), arrivals).state.(control := Poll)
  {
  }

  lemma {:induction false} LastReadableIsBeyond(log: seq<LogEntry>, from: nat, to: nat)
    requires Increasing(log) && from <= to <= |log| && Readable(log[from..to]) != []
    ensures var page := Readable(log[from..to]); Pos(log, Some(page[|page| - 1].id)) > from
  {
    var page := Readable(log[from..to]);
    ReadableMember(log[from..to], |page| - 1);
    var i :| 0 <= i < to - from && log[from..to][i].readable && log[from..to][i] == page[|page| - 1];
    PosOfEntry(log, from + i);
  }
}
