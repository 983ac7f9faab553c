/** What a run emits: a contiguous stretch of the log, whatever the network does. */
module ClientDelivery {
  import opened Options
  import opened EventLog
  import opened RecentIds
  import opened ClientModel

  function Ids(sent: seq<LogEntry>): seq<EventId> {
    seq(|sent|, i requires 0 <= i < |sent| => sent[i].id)
  }

  /** The log position just after the furthest emitted event. */
  function High(log: seq<LogEntry>, p0: nat, sent: seq<LogEntry>): nat {
    if sent == [] then p0 else Pos(log, Some(sent[|sent| - 1].id))
  }

  /** The readable entries from `p0` on, with nothing missing, repeated or out of order. */
  ghost predicate Contiguous(log: seq<LogEntry>, p0: nat, sent: seq<LogEntry>) {
    p0 <= High(log, p0, sent) <= |log| && sent == Readable(log[p0..High(log, p0, sent)])
  }

  /** The checkpoint that names the first `n` sent events. */
  function CheckpointAfter(sent: seq<LogEntry>, stored: Option<EventId>, n: nat): Option<EventId>
    requires n <= |sent|
  {
    if n == 0 then stored else Some(sent[n - 1].id)
  }

  /** The run's fixed facts: where it started and what the store held. */
  datatype Origin = Origin(p0: nat, start: Option<EventId>, stored: Option<EventId>)

  function OriginOf(log: seq<LogEntry>, afterEventId: Option<EventId>, stored: Option<EventId>): Origin {
    var start := if afterEventId.Some? then afterEventId else stored;
    Origin(Pos(log, start), start, stored)
  }

  /** A live run between two sessions. */
  ghost predicate Live(log: seq<LogEntry>, o: Origin, s: ClientState) {
    && Contiguous(log, o.p0, s.sent)
    && (forall e :: e in s.sent ==> !e.terminal)
    && s.window == LastN(Ids(s.sent), 256)
    && s.checkpoint == CheckpointAfter(s.sent, o.stored, |s.sent|)
    && (s.sent == [] ==> s.watermark == o.start && s.cycle == o.start)
    && o.p0 <= Pos(log, s.watermark) <= High(log, o.p0, s.sent)
  }

  /** A run that is over: the events are still contiguous, and the checkpoint lags by at most one. */
  ghost predicate Settled(log: seq<LogEntry>, o: Origin, s: ClientState) {
    && Contiguous(log, o.p0, s.sent)
    && (forall i :: 0 <= i < |s.sent| - 1 ==> !s.sent[i].terminal)
    && (|| s.checkpoint == CheckpointAfter(s.sent, o.stored, |s.sent|)
        || (|s.sent| > 0 && s.checkpoint == CheckpointAfter(s.sent, o.stored, |s.sent| - 1))
        || (|s.sent| > 0 && s.sent[|s.sent| - 1].terminal && s.checkpoint == None))
  }

  ghost predicate Finished(s: ClientState) {
    |s.sent| > 0 && s.sent[|s.sent| - 1].terminal && s.checkpoint == None
  }

  ghost predicate UpToDate(s: ClientState) {
    s.sent != [] ==> s.watermark == Some(s.sent[|s.sent| - 1].id)
  }

  function Entries(arrivals: seq<Arrival>): nat {
    if arrivals == [] then 0 else (if arrivals[0].NextEntry? then 1 else 0) + Entries(arrivals[1..])
  }

  /** Every readable entry the server sends again is in the window of recent ids. */
  ghost predicate ReplaysRecent(log: seq<LogEntry>, o: Origin, s: ClientState, at: nat, count: nat) {
    && o.p0 <= at
    && forall i :: at <= i < at + count && i < High(log, o.p0, s.sent) && i < |log| && log[i].readable ==> log[i].id in s.window
  }

  /** The network assumption for one session of a server that may replay older events. */
  ghost predicate Admissible(log: seq<LogEntry>, o: Origin, s: ClientState, session: Session) {
    ReplaysRecent(log, o, s, StartOf(log, s.watermark, session.rewind), Entries(session.arrivals))
  }

  ghost predicate Skipped(log: seq<LogEntry>, from: nat, to: nat) {
    forall i :: from <= i < to && i < |log| ==> !log[i].readable
  }

  /** The invariant inside a session. */
  ghost predicate Tracked(log: seq<LogEntry>, o: Origin, t: Track, arrivals: seq<Arrival>) {
    match t.halt
    case Going =>
      && Live(log, o, t.state)
      && t.at <= |log|
      && ReplaysRecent(log, o, t.state, t.at, Entries(arrivals))
      && Skipped(log, High(log, o.p0, t.state.sent), t.at)
    case SawTerminal => Settled(log, o, t.state) && Finished(t.state)
    case Threw(e) => Settled(log, o, t.state) && (e.Cancellation? || e.Processing?)
  }

  lemma {:induction false} ReadableSkip(log: seq<LogEntry>, p: nat, from: nat, to: nat)
    requires p <= from <= to <= |log| && Skipped(log, from, to)
    ensures Readable(log[p..to]) == Readable(log[p..from])
  {
    if from < to {
      ReadableSkip(log, p, from, to - 1);
      ReadableSnoc(log, p, to - 1);
    }
  }

  lemma {:induction false} EmptyAtOrigin(log: seq<LogEntry>, p0: nat)
    requires p0 <= |log|
    ensures Contiguous(log, p0, [])
  {
    assert log[p0..p0] == [];
  }

  /** Emitting the next readable entry extends the stretch by exactly that entry. */
  lemma {:induction false} ContiguousSnoc(log: seq<LogEntry>, p0: nat, sent: seq<LogEntry>, at: nat)
    requires Increasing(log) && Contiguous(log, p0, sent)
    requires High(log, p0, sent) <= at < |log| && log[at].readable
    requires Skipped(log, High(log, p0, sent), at)
    ensures Contiguous(log, p0, sent + [log[at]])
    ensures High(log, p0, sent + [log[at]]) == at + 1
  {
    PosOfEntry(log, at);
    ReadableSkip(log, p0, High(log, p0, sent), at);
    ReadableSnoc(log, p0, at);
  }

  lemma {:induction false} WindowSnoc(sent: seq<LogEntry>, e: LogEntry)
    requires e.id !in LastN(Ids(sent), 256)
    ensures Push(LastN(Ids(sent), 256), DEFAULT_CAPACITY, e.id) == LastN(Ids(sent + [e]), 256)
  {
    LastNSnoc(Ids(sent), e.id, 256);
    assert Ids(sent + [e]) == Ids(sent) + [e.id];
  }

  /** Every sent event is a log entry between the origin and the furthest emitted position. */
  lemma {:induction false} SentIsBelow(log: seq<LogEntry>, p0: nat, sent: seq<LogEntry>, k: nat) returns (i: nat)
    requires Contiguous(log, p0, sent) && k < |sent|
    ensures p0 <= i < High(log, p0, sent) && log[i] == sent[k]
  {
    var part := log[p0..High(log, p0, sent)];
    ReadableMember(part, k);
    var j :| 0 <= j < |part| && part[j] == sent[k];
    i := p0 + j;
  }

  /** A window hit is a sent event, so it is not terminal and lies below the furthest one. */
  lemma {:induction false} SeenBefore(log: seq<LogEntry>, o: Origin, s: ClientState, at: nat)
    requires Increasing(log) && Live(log, o, s) && at < |log| && log[at].id in s.window
    ensures !log[at].terminal && at < High(log, o.p0, s.sent) && s.sent != []
  {
    var k :| 0 <= k < |s.sent| && Ids(s.sent)[k] == log[at].id;
    var i := SentIsBelow(log, o.p0, s.sent, k);
    PosOfEntry(log, at);
    PosOfEntry(log, i);
  }

  /** A redelivered event that is still in the window changes nothing but the watermark. */
  lemma {:induction false} SeenEventKeepsTracked(log: seq<LogEntry>, o: Origin, t: Track, fault: Fault)
    requires Increasing(log) && t.halt == Going && t.at < |log|
    requires Live(log, o, t.state) && o.p0 <= t.at && log[t.at].id in t.state.window
    ensures var r := Emit(t, log[t.at], fault);
            Live(log, o, r.state) && r.halt == Going && r.at == t.at
            && r.state.sent == t.state.sent && r.state.window == t.state.window
            && t.at < High(log, o.p0, t.state.sent)
  {
    SeenBefore(log, o, t.state, t.at);
    PosOfEntry(log, t.at);
  }

  /** A new event is sent, and the run stays contiguous whatever fault strikes. */
  lemma {:induction false} NewEventKeepsTracked(log: seq<LogEntry>, o: Origin, t: Track, fault: Fault)
    requires Increasing(log) && t.halt == Going && t.at < |log| && log[t.at].readable
    requires Live(log, o, t.state) && log[t.at].id !in t.state.window
    requires High(log, o.p0, t.state.sent) <= t.at
    requires Skipped(log, High(log, o.p0, t.state.sent), t.at)
    ensures var r := Emit(t, log[t.at], fault);
            match r.halt
            case Going => Live(log, o, r.state) && r.at == t.at && High(log, o.p0, r.state.sent) == t.at + 1
            case SawTerminal => Settled(log, o, r.state) && Finished(r.state)
            case Threw(e) => Settled(log, o, r.state) && (e.Cancellation? || e.Processing?)
  {
    hide Readable;
    var event, s := log[t.at], t.state;
    PosOfEntry(log, t.at);
    ContiguousSnoc(log, o.p0, s.sent, t.at);
    WindowSnoc(s.sent, event);
    var sent := s.sent + [event];
    assert forall i :: 0 <= i < |s.sent| ==> sent[i] in s.sent;
    assert CheckpointAfter(sent, o.stored, |sent| - 1) == CheckpointAfter(s.sent, o.stored, |s.sent|);
  }

  lemma {:induction false} EmitKeepsTracked(log: seq<LogEntry>, o: Origin, t: Track, fault: Fault, rest: seq<Arrival>)
    requires Increasing(log) && t.halt == Going && t.at < |log| && log[t.at].readable
    requires Tracked(log, o, t, [NextEntry(fault)] + rest)
    ensures Tracked(log, o, Emit(t.(at := t.at + 1), log[t.at], fault), rest)
  {
    var arrivals := [NextEntry(fault)] + rest;
    assert arrivals[1..] == rest;
    if log[t.at].id in t.state.window {
      SeenEventKeepsTracked(log, o, t, fault);
    } else {
      NewEventKeepsTracked(log, o, t, fault);
    }
  }

  lemma {:induction false} SkipKeepsTracked(cfg: Config, log: seq<LogEntry>, o: Origin, polling: bool, t: Track, fault: Fault, rest: seq<Arrival>)
    requires t.halt == Going && t.at < |log| && !log[t.at].readable
    requires Tracked(log, o, t, [NextEntry(fault)] + rest)
    ensures Tracked(log, o, Malformed(cfg, polling, t.(at := t.at + 1)), rest)
  {
    var arrivals := [NextEntry(fault)] + rest;
    assert arrivals[1..] == rest;
  }

  lemma {:induction false} MalformedKeepsTracked(cfg: Config, log: seq<LogEntry>, o: Origin, polling: bool, t: Track, rest: seq<Arrival>)
    requires t.halt == Going && Tracked(log, o, t, rest)
    ensures Tracked(log, o, Malformed(cfg, polling, t), rest)
  {
  }

  lemma {:induction false} NothingDelivered(log: seq<LogEntry>, o: Origin, t: Track, arrivals: seq<Arrival>)
    requires arrivals != [] && Tracked(log, o, t, arrivals)
    ensures Tracked(log, o, t, arrivals[1..])
  {
    assert Entries(arrivals[1..]) <= Entries(arrivals);
  }

  lemma {:induction false} ArriveKeepsTracked(cfg: Config, log: seq<LogEntry>, o: Origin, polling: bool, t: Track, arrivals: seq<Arrival>)
    requires Increasing(log) && t.halt == Going && arrivals != [] && Tracked(log, o, t, arrivals)
    ensures Tracked(log, o, Arrive(cfg, log, polling, t, arrivals[0]), arrivals[1..])
  {
    hide Emit, Malformed;
    var first, rest := arrivals[0], arrivals[1..];
    assert arrivals == [first] + rest;
    if first.NextEntry? && t.at < |log| {
      if log[t.at].readable {
        EmitKeepsTracked(log, o, t, first.fault, rest);
      } else {
        SkipKeepsTracked(cfg, log, o, polling, t, first.fault, rest);
      }
    } else {
      NothingDelivered(log, o, t, arrivals);
      MalformedKeepsTracked(cfg, log, o, polling, t, rest);
    }
  }

  lemma {:induction false} ReceiveKeepsTracked(cfg: Config, log: seq<LogEntry>, o: Origin, polling: bool, t: Track, arrivals: seq<Arrival>)
    requires Increasing(log) && Tracked(log, o, t, arrivals)
    ensures Tracked(log, o, Receive(cfg, log, polling, t, arrivals), [])
    decreases |arrivals|
  {
    if t.halt == Going && arrivals != [] {
      ArriveKeepsTracked(cfg, log, o, polling, t, arrivals);
      ReceiveKeepsTracked(cfg, log, o, polling, Arrive(cfg, log, polling, t, arrivals[0]), arrivals[1..]);
    }
  }

  /** No streaming transport is retried after this error: the strategy or the limits allow one attempt, or the classifier refuses. */
  predicate IsFinalError(cfg: Config, e: Throwable) {
    cfg.strategy.FastCycle? || (cfg.wsMaxAttempts <= 1 && cfg.sseMaxAttempts <= 1) || !cfg.isRetryable(e)
  }

  /** A failure to send an event or to save its checkpoint is never retried within a cycle. */
  ghost predicate ProcessingIsFinal(cfg: Config) {
    forall e :: IsFinalError(cfg, Processing(e))
  }

  /** A backoff that reloads the store cannot move the run away from where it started. */
  ghost predicate SafeOrigin(o: Origin) {
    o.stored.None? || o.stored == o.start
  }

  /** Some error of a poll, or of a streaming transport, leads to a backoff. */
  ghost predicate MayBackOff(cfg: Config) {
    exists e :: Escape(cfg, Public(e), true).None?
  }

  /** The store agrees with where the run starts, or is never reloaded. */
  ghost predicate SafeStart(cfg: Config, o: Origin) {
    SafeOrigin(o) || !MayBackOff(cfg)
  }

  lemma {:induction false} BackingOffIsPossible(cfg: Config, control: Control, outcome: Outcome, active: bool)
    requires BacksOff(cfg, control, outcome, active)
    ensures MayBackOff(cfg)
  {
    assert Escape(cfg, Public(outcome.error), true).None?;
  }

  ghost predicate Sound(log: seq<LogEntry>, o: Origin, s: ClientState) {
    if s.control.Ended? then Settled(log, o, s) && (s.control.reason.TerminalEvent? ==> Finished(s))
    else Live(log, o, s)
  }

  lemma {:induction false} InitIsLive(cfg: Config, log: seq<LogEntry>, afterEventId: Option<EventId>, stored: Option<EventId>)
    ensures Sound(log, OriginOf(log, afterEventId, stored), Init(cfg, afterEventId, stored))
  {
    EmptyAtOrigin(log, OriginOf(log, afterEventId, stored).p0);
  }

  /** Both kinds of backoff: without a checkpoint nothing was sent, so the cycle's watermark is where the run started. */
  lemma {:induction false} BackoffKeepsLive(cfg: Config, log: seq<LogEntry>, o: Origin, s: ClientState)
    requires Increasing(log) && Live(log, o, s) && SafeOrigin(o) && o.p0 == Pos(log, o.start)
    ensures Live(log, o, Backoff(cfg, s)) && Live(log, o, Backoff(cfg, s.(watermark := s.cycle)))
    ensures !Backoff(cfg, s).control.Ended? && !Backoff(cfg, s.(watermark := s.cycle)).control.Ended?
  {
  }

  /** An error raised while handing an event on ends the run. */
  lemma {:induction false} ThrownEndsTheRun(cfg: Config, control: Control, e: Throwable, active: bool)
    requires !control.Ended? && (e.Cancellation? || (e.Processing? && IsFinalError(cfg, e)))
    ensures NextControl(cfg, control, Failure(e), active).Ended?
    ensures NextControl(cfg, control, Failure(e), active).reason != TerminalEvent
  {
  }

  lemma {:induction false} ProcessingErrorIsFinal(cfg: Config, e: Throwable)
    requires ProcessingIsFinal(cfg)
    ensures e.Processing? ==> IsFinalError(cfg, e)
  {
    assert e.Processing? ==> IsFinalError(cfg, Processing(e.cause));
  }

  lemma {:induction false} ConcludeKeepsSound(cfg: Config, log: seq<LogEntry>, o: Origin, control: Control, t: Track, end: SessionEnd, active: bool)
    requires Increasing(log) && ProcessingIsFinal(cfg) && SafeStart(cfg, o) && o.p0 == Pos(log, o.start)
    requires !control.Ended? && Tracked(log, o, t, [])
    ensures Sound(log, o, Conclude(cfg, control, t, end, active))
  {
    hide Contiguous, CheckpointAfter, LastN, Ids, Pos, High, IsNewer, IsFinalError, Increasing;
    match t.halt
    case SawTerminal =>
    case Threw(e) =>
      ProcessingErrorIsFinal(cfg, e);
      ThrownEndsTheRun(cfg, control, e, active);
    case Going =>
      if BacksOff(cfg, control, OutcomeOf(t, end), active) {
        BackingOffIsPossible(cfg, control, OutcomeOf(t, end), active);
        BackoffKeepsLive(cfg, log, o, t.state);
      }
  }

  lemma {:induction false} StepKeepsSound(cfg: Config, log: seq<LogEntry>, o: Origin, s: ClientState, session: Session, active: bool)
    requires Increasing(log) && ProcessingIsFinal(cfg) && SafeStart(cfg, o) && o.p0 == Pos(log, o.start)
    requires Sound(log, o, s)
    requires !s.control.Ended? ==> Admissible(log, o, s, session)
    ensures Sound(log, o, Step(cfg, log, s, session, active))
  {
    if !s.control.Ended? {
      var t0 := Track(s, StartOf(log, s.watermark, session.rewind), Going);
      ReceiveKeepsTracked(cfg, log, o, s.control.Poll?, t0, session.arrivals);
      ConcludeKeepsSound(cfg, log, o, s.control, Observe(cfg, log, s, session), session.end, active);
    }
  }

  /** Session `j` of the run only replays events that the window still remembers. */
  ghost predicate AdmissibleAt(cfg: Config, log: seq<LogEntry>, o: Origin, s0: ClientState, script: seq<Session>, j: nat)
    requires j < |script|
  {
    var s := Run(cfg, log, s0, script, j);
    s.control.Ended? || Admissible(log, o, s, script[j])
  }

  lemma {:induction false} RunKeepsSound(cfg: Config, log: seq<LogEntry>, o: Origin, s0: ClientState, script: seq<Session>, k: nat)
    requires Increasing(log) && ProcessingIsFinal(cfg) && SafeStart(cfg, o) && o.p0 == Pos(log, o.start)
    requires k <= |script| && Sound(log, o, s0)
    requires forall j :: 0 <= j < k ==> AdmissibleAt(cfg, log, o, s0, script, j)
    ensures Sound(log, o, Run(cfg, log, s0, script, k))
  {
    if k > 0 {
      RunKeepsSound(cfg, log, o, s0, script, k - 1);
      assert AdmissibleAt(cfg, log, o, s0, script, k - 1);
      StepKeepsSound(cfg, log, o, Run(cfg, log, s0, script, k - 1), script[k - 1], k < |script|);
    }
  }

  /**
   * Delivery against a server that may replay: as long as each redelivered event is among the last
   * 256 emitted and none lies before the start, the run emits a contiguous stretch of the log.
   */
  lemma {:induction false} ReplaysAreAbsorbed(cfg: Config, log: seq<LogEntry>, afterEventId: Option<EventId>, stored: Option<EventId>,
                           script: seq<Session>, k: nat)
    requires Increasing(log) && ProcessingIsFinal(cfg) && k <= |script|
    requires SafeStart(cfg, OriginOf(log, afterEventId, stored))
    requires forall j :: 0 <= j < k ==>
      AdmissibleAt(cfg, log, OriginOf(log, afterEventId, stored), Init(cfg, afterEventId, stored), script, j)
    ensures Sound(log, OriginOf(log, afterEventId, stored), Run(cfg, log, Init(cfg, afterEventId, stored), script, k))
  {
    InitIsLive(cfg, log, afterEventId, stored);
    RunKeepsSound(cfg, log, OriginOf(log, afterEventId, stored), Init(cfg, afterEventId, stored), script, k);
  }

  /** A server that sends only entries newer than the resume id. */
  ghost predicate Strict(script: seq<Session>) {
    forall j :: 0 <= j < |script| ==> script[j].rewind == 0
  }

  ghost predicate Ahead(log: seq<LogEntry>, o: Origin, t: Track) {
    t.halt == Going ==> UpToDate(t.state) && High(log, o.p0, t.state.sent) <= t.at
  }

  lemma {:induction false} ArriveStaysAhead(cfg: Config, log: seq<LogEntry>, o: Origin, polling: bool, t: Track, arrivals: seq<Arrival>)
    requires Increasing(log) && t.halt == Going && arrivals != [] && Tracked(log, o, t, arrivals) && Ahead(log, o, t)
    ensures Ahead(log, o, Arrive(cfg, log, polling, t, arrivals[0]))
  {
    if arrivals[0].NextEntry? && t.at < |log| && log[t.at].readable {
      PosOfEntry(log, t.at);
      if log[t.at].id in t.state.window {
        SeenBefore(log, o, t.state, t.at);
      }
    }
  }

  lemma {:induction false} ReceiveStaysAhead(cfg: Config, log: seq<LogEntry>, o: Origin, polling: bool, t: Track, arrivals: seq<Arrival>)
    requires Increasing(log) && Tracked(log, o, t, arrivals) && Ahead(log, o, t)
    ensures Ahead(log, o, Receive(cfg, log, polling, t, arrivals))
    decreases |arrivals|
  {
    if t.halt == Going && arrivals != [] {
      ArriveStaysAhead(cfg, log, o, polling, t, arrivals);
      ArriveKeepsTracked(cfg, log, o, polling, t, arrivals);
      ReceiveStaysAhead(cfg, log, o, polling, Arrive(cfg, log, polling, t, arrivals[0]), arrivals[1..]);
    }
  }

  lemma {:induction false} ResumesAtHigh(log: seq<LogEntry>, o: Origin, s: ClientState)
    requires Increasing(log) && Live(log, o, s) && UpToDate(s) && o.p0 == Pos(log, o.start)
    ensures Pos(log, s.watermark) == High(log, o.p0, s.sent)
  {
  }

  lemma {:induction false} StrictStep(cfg: Config, log: seq<LogEntry>, o: Origin, s: ClientState, session: Session, active: bool)
    requires Increasing(log) && ProcessingIsFinal(cfg) && SafeStart(cfg, o) && o.p0 == Pos(log, o.start)
    requires !s.control.Ended? && Live(log, o, s) && UpToDate(s) && session.rewind == 0
    ensures Sound(log, o, Step(cfg, log, s, session, active))
    ensures !Step(cfg, log, s, session, active).control.Ended? ==> UpToDate(Step(cfg, log, s, session, active))
  {
    ResumesAtHigh(log, o, s);
    var t0 := Track(s, StartOf(log, s.watermark, 0), Going);
    var t := Observe(cfg, log, s, session);
    ReceiveStaysAhead(cfg, log, o, s.control.Poll?, t0, session.arrivals);
    ReceiveKeepsTracked(cfg, log, o, s.control.Poll?, t0, session.arrivals);
    ConcludeKeepsSound(cfg, log, o, s.control, t, session.end, active);
    if t.halt.Threw? {
      ThrownEndsTheRun(cfg, s.control, t.halt.error, active);
    }
  }

  lemma {:induction false} StrictRun(cfg: Config, log: seq<LogEntry>, o: Origin, s0: ClientState, script: seq<Session>, k: nat)
    requires Increasing(log) && ProcessingIsFinal(cfg) && SafeStart(cfg, o) && o.p0 == Pos(log, o.start)
    requires k <= |script| && Strict(script) && !s0.control.Ended? && Live(log, o, s0) && UpToDate(s0)
    ensures Sound(log, o, Run(cfg, log, s0, script, k))
    ensures !Run(cfg, log, s0, script, k).control.Ended? ==> UpToDate(Run(cfg, log, s0, script, k))
  {
    if k > 0 {
      StrictRun(cfg, log, o, s0, script, k - 1);
      var s := Run(cfg, log, s0, script, k - 1);
      if !s.control.Ended? {
        StrictStep(cfg, log, o, s, script[k - 1], k < |script|);
      }
    }
  }

  /**
   * Delivery against a strict server, for every pattern of failures, retries, fallbacks and backoffs:
   * the emitted events are the readable log entries after the start, contiguous, in order, without
   * repeats, with at most the last one terminal; and whenever a session opens, watermark and
   * checkpoint both name the last emitted event.
   */
  lemma {:induction false} StrictServerDeliversTheLog(cfg: Config, log: seq<LogEntry>, afterEventId: Option<EventId>, stored: Option<EventId>,
                                   script: seq<Session>, k: nat)
    requires Increasing(log) && ProcessingIsFinal(cfg) && k <= |script| && Strict(script)
    requires SafeStart(cfg, OriginOf(log, afterEventId, stored))
    ensures var s := Run(cfg, log, Init(cfg, afterEventId, stored), script, k);
            && Sound(log, OriginOf(log, afterEventId, stored), s)
            && (!s.control.Ended? && s.sent != [] ==> s.watermark == s.checkpoint == Some(s.sent[|s.sent| - 1].id))
  {
    InitIsLive(cfg, log, afterEventId, stored);
    StrictRun(cfg, log, OriginOf(log, afterEventId, stored), Init(cfg, afterEventId, stored), script, k);
  }

  /** Contiguity spelled out: emitted ids strictly increase, and no readable entry in between is missing. */
  lemma {:induction false} ContiguousMeans(log: seq<LogEntry>, p0: nat, sent: seq<LogEntry>)
    requires Increasing(log) && Contiguous(log, p0, sent)
    ensures forall i, j :: 0 <= i < j < |sent| ==> IsNewer(sent[j].id, Some(sent[i].id))
    ensures forall i :: p0 <= i < High(log, p0, sent) && log[i].readable ==> log[i] in sent
  {
    var part := log[p0..High(log, p0, sent)];
    ReadableIncreasing(part);
    forall i | p0 <= i < High(log, p0, sent) && log[i].readable ensures log[i] in sent {
      assert part[i - p0] == log[i];
      ReadableComplete(part, i - p0);
    }
  }

  lemma {:induction false} ReadableComplete(log: seq<LogEntry>, i: nat)
    requires i < |log| && log[i].readable
    ensures log[i] in Readable(log)
  {
    if i < |log| - 1 {
      ReadableComplete(log[..|log| - 1], i);
    }
  }

  lemma {:induction false} ReadableIncreasing(log: seq<LogEntry>)
    requires Increasing(log)
    ensures Increasing(Readable(log))
  {
    if log != [] {
      var n := |log| - 1;
      ReadableIncreasing(log[..n]);
      var r := Readable(log[..n]);
      forall k | 0 <= k < |r| ensures IsNewer(log[n].id, Some(r[k].id)) {
        ReadableMember(log[..n], k);
        var i :| 0 <= i < n && log[..n][i] == r[k];
        assert log[i] == r[k];
      }
    }
  }

  /** The window's limit is sharp: an event redelivered from behind it is emitted a second time. */
  lemma {:induction false} ReplayBeyondWindowRepeats(log: seq<LogEntry>, o: Origin, t: Track)
    requires Increasing(log) && t.halt == Going && Live(log, o, t.state)
    requires t.at < High(log, o.p0, t.state.sent) && log[t.at].readable && log[t.at].id !in t.state.window
    ensures var r := Emit(t, log[t.at], NoFault);
            r.state.sent == t.state.sent + [log[t.at]] && !Contiguous(log, o.p0, r.state.sent)
  {
    var before := t.state.sent;
    var sent := before + [log[t.at]];
    PosOfEntry(log, t.at);
    if Contiguous(log, o.p0, sent) && before != [] {
      ContiguousMeans(log, o.p0, sent);
      var last := Some(before[|before| - 1].id);
      assert sent[|before| - 1] == before[|before| - 1];
      EntryNewerIffBeyond(log, last, t.at);
      assert false;
    }
  }

  /** What the run sends is the beginning of the readable log after its starting id. */
  ghost predicate Faithful(cfg: Config, log: seq<LogEntry>, afterEventId: Option<EventId>, stored: Option<EventId>, script: seq<Session>) {
    Final(cfg, log, Init(cfg, afterEventId, stored), script).sent <= Readable(log[OriginOf(log, afterEventId, stored).p0..])
  }

  ghost predicate HasDefaultClassifier(cfg: Config) {
    forall e :: cfg.isRetryable(e) == DefaultIsRetryable(e)
  }

  lemma {:induction false} DefaultIsFinal(cfg: Config)
    requires HasDefaultClassifier(cfg)
    ensures ProcessingIsFinal(cfg)
  {
    forall e ensures IsFinalError(cfg, Processing(e)) {
      assert cfg.isRetryable(Processing(e)) == DefaultIsRetryable(Processing(e));
    }
  }

  const DELIVER_ONE := Session(0, [NextEntry(NoFault)], Closed)

  lemma {:induction false} DeliverOne(cfg: Config, log: seq<LogEntry>, s: ClientState)
    requires !s.control.Ended? && s.sent == []
    requires Pos(log, s.watermark) < |log| && log[Pos(log, s.watermark)].readable && log[Pos(log, s.watermark)].id !in s.window
    ensures Step(cfg, log, s, DELIVER_ONE, false).sent == [log[Pos(log, s.watermark)]]
  {
    var at := Pos(log, s.watermark);
    var t0 := Track(s, at, Going);
    var arrivals := DELIVER_ONE.arrivals;
    assert arrivals[1..] == [];
    var t1 := Arrive(cfg, log, s.control.Poll?, t0, arrivals[0]);
    assert t1 == Emit(t0.(at := at + 1), log[at], NoFault);
    assert Receive(cfg, log, s.control.Poll?, t0, arrivals) == t1;
  }

  lemma {:induction false} ContiguousIsPrefix(log: seq<LogEntry>, p0: nat, sent: seq<LogEntry>)
    requires Contiguous(log, p0, sent) && p0 <= |log|
    ensures sent <= Readable(log[p0..])
  {
    var hw := High(log, p0, sent);
    assert log[p0..] == log[p0..hw] + log[hw..];
    ReadableConcat(log[p0..hw], log[hw..]);
  }
}
