/**
 * One observation run of the Android client as a flat machine: one step per transport session.
 * A session is whatever the network does: some arrivals, then a close or an error. The log is
 * the final log of the task; since it only grows, a session that sees part of it covers every
 * interleaving with the server's appends.
 */
module ClientModel {
  import opened Options
  import opened EventLog
  import opened RecentIds

  datatype Throwable =
    | Cancellation
    | Processing(cause: Throwable)
    | Auth(cause: Throwable)
    | HttpStatus(code: int)
    | PolicyClose(code: int)
    | Io
    | Serialization
    | IllegalArgument
    | OtherException

  const HTTP_UNAUTHORIZED := 401
  const TOO_MANY_REQUESTS := 429
  const SERVER_ERROR_START := 500

  /** A serialization error is an illegal argument in the library's hierarchy. */
  predicate IsFatal(e: Throwable) {
    e == HttpStatus(HTTP_UNAUTHORIZED) || e.PolicyClose? || e.Auth? || e.IllegalArgument? || e.Serialization? || e.Processing?
  }

  /** The default failure classifier. */
  function DefaultIsRetryable(e: Throwable): bool {
    match e
    case HttpStatus(code) => code == TOO_MANY_REQUESTS || code >= SERVER_ERROR_START
    case Io => true
    case _ => false
  }

  datatype Strategy = FastCycle | ProgressiveSticky

  datatype Config = Config(
    strategy: Strategy,
    wsMaxAttempts: int,
    sseMaxAttempts: int,
    maxMalformed: nat,
    isRetryable: Throwable -> bool)

  /** What goes wrong while one event is handed on: before the send, in the save, or in the clear. */
  datatype Fault = NoFault | SendFails(error: Throwable) | SaveFails(error: Throwable) | ClearFails(error: Throwable)

  /** One inbound item: a heartbeat, an undecodable payload, or the next log entry. */
  datatype Arrival = Heartbeat | Junk | NextEntry(fault: Fault)

  datatype SessionEnd = Closed | Failed(error: Throwable)

  /**
   * One session, or one poll: the server starts `rewind` entries before the resume point, delivers
   * the arrivals, and the session ends. For a poll, `Failed` is the failure of the poll after the page.
   */
  datatype Session = Session(rewind: nat, arrivals: seq<Arrival>, end: SessionEnd)

  datatype EndReason = TerminalEvent | Cancelled | Inactive | ClosedWith(error: Throwable)

  datatype Control = Ws(failures: nat) | Sse(failures: nat) | Poll | Ended(reason: EndReason)

  /** `cycle` is the watermark the current cycle of transports began with. */
  datatype ClientState = ClientState(
    control: Control,
    watermark: Option<EventId>,
    cycle: Option<EventId>,
    attempt: nat,
    malformed: nat,
    window: seq<EventId>,
    sent: seq<LogEntry>,
    checkpoint: Option<EventId>)

  datatype Halt = Going | SawTerminal | Threw(error: Throwable)

  /** A session under way: `at` is the next log entry the server will deliver. */
  datatype Track = Track(state: ClientState, at: nat, halt: Halt)

  function WrapProcessingError(e: Throwable): Throwable {
    if e.Cancellation? || e.Processing? then e else Processing(e)
  }

  /** An undecodable payload; only the streaming transports count it against the budget. */
  function Malformed(cfg: Config, polling: bool, t: Track): Track {
    if polling then t
    else
      var n := t.state.malformed + 1;
      t.(state := t.state.(malformed := n),
         halt := if n > cfg.maxMalformed then Threw(Processing(Io)) else t.halt)
  }

  /** Deduplicate, send, save the checkpoint, and clear it after a terminal event. */
  function Emit(t: Track, event: LogEntry, fault: Fault): Track {
    var s := t.state.(watermark := Some(event.id));
    var done := if event.terminal then SawTerminal else Going;
    if event.id in s.window then t.(state := s, halt := done)
    else
      var marked := s.(window := Push(s.window, DEFAULT_CAPACITY, event.id));
      var sent := marked.(sent := s.sent + [event]);
      match fault
      case SendFails(e) => t.(state := marked, halt := Threw(WrapProcessingError(e)))
      case SaveFails(e) => t.(state := sent, halt := Threw(WrapProcessingError(e)))
      case ClearFails(e) =>
        var saved := sent.(checkpoint := Some(event.id));
        t.(state := saved, halt := if event.terminal then Threw(WrapProcessingError(e)) else Going)
      case NoFault =>
        t.(state := sent.(checkpoint := if event.terminal then None else Some(event.id)), halt := done)
  }

  function Arrive(cfg: Config, log: seq<LogEntry>, polling: bool, t: Track, arrival: Arrival): Track {
    match arrival
    case Heartbeat => t
    case Junk => Malformed(cfg, polling, t)
    case NextEntry(fault) =>
      if t.at >= |log| then t
      else
        var next := t.(at := t.at + 1);
        if log[t.at].readable then Emit(next, log[t.at], fault) else Malformed(cfg, polling, next)
  }

  function Receive(cfg: Config, log: seq<LogEntry>, polling: bool, t: Track, arrivals: seq<Arrival>): Track
    decreases |arrivals|
  {
    if t.halt != Going || arrivals == [] then t
    else Receive(cfg, log, polling, Arrive(cfg, log, polling, t, arrivals[0]), arrivals[1..])
  }

  /** Where the server starts: at the resume point, or `rewind` entries before it. */
  function StartOf(log: seq<LogEntry>, watermark: Option<EventId>, rewind: nat): (p: nat)
    ensures p <= Pos(log, watermark)
  {
    if rewind <= Pos(log, watermark) then Pos(log, watermark) - rewind else 0
  }

  function Observe(cfg: Config, log: seq<LogEntry>, s: ClientState, session: Session): Track {
    Receive(cfg, log, s.control.Poll?, Track(s, StartOf(log, s.watermark, session.rewind), Going), session.arrivals)
  }

  datatype Outcome = Terminal | Clean | Failure(error: Throwable)

  function OutcomeOf(t: Track, end: SessionEnd): Outcome {
    match t.halt
    case SawTerminal => Terminal
    case Threw(e) => Failure(e)
    case Going => if end.Failed? then Failure(end.error) else Clean
  }

  function AfterWs(cfg: Config): Control {
    if cfg.strategy.FastCycle? || cfg.sseMaxAttempts > 0 then Sse(0) else Poll
  }

  /** The first transport of a cycle. */
  function Enter(cfg: Config): Control {
    if cfg.strategy.FastCycle? || cfg.wsMaxAttempts > 0 then Ws(0) else AfterWs(cfg)
  }

  function Public(e: Throwable): Throwable {
    if e == HttpStatus(HTTP_UNAUTHORIZED) then Auth(e) else e
  }

  /** How a fatal error is reported: 401 as an auth failure, a processing failure by its cause. */
  function FatalEnd(e: Throwable): EndReason {
    match e
    case HttpStatus(_) => ClosedWith(Auth(e))
    case Processing(cause) => if cause.Cancellation? then Cancelled else ClosedWith(cause)
    case _ => ClosedWith(e)
  }

  /** How an exception leaves the outer loop; `None` means back off and start another cycle. */
  function Escape(cfg: Config, e: Throwable, active: bool): Option<EndReason> {
    if e.Cancellation? then Some(Cancelled)
    else if ((e.HttpStatus? && e.code != HTTP_UNAUTHORIZED) || e.Io? || e.Serialization?) && active && cfg.isRetryable(e) then None
    else if IsFatal(e) then Some(FatalEnd(e))
    else Some(ClosedWith(e))
  }

  /** Control after a failed streaming session: retry, give up with a fatal error, or fall back. */
  function AfterFailure(cfg: Config, e: Throwable, retry: Control, mayRetry: bool, fallback: Control, active: bool): Control {
    if cfg.strategy.ProgressiveSticky? && active && mayRetry && cfg.isRetryable(e) then retry
    else if IsFatal(e) then Ended(FatalEnd(e))
    else if active then fallback else Ended(Inactive)
  }

  /** `active` is false when the collector's coroutine has been cancelled by the end of the session. */
  function NextControl(cfg: Config, control: Control, outcome: Outcome, active: bool): Control
    requires !control.Ended?
  {
    match outcome
    case Terminal => Ended(TerminalEvent)
    case Clean =>
      if !active then Ended(Inactive)
      else (match control case Ws(_) => AfterWs(cfg) case _ => Poll)
    case Failure(e) =>
      if e.Cancellation? then Ended(Cancelled)
      else match control
        case Ws(n) => AfterFailure(cfg, e, Ws(n + 1), n + 1 < cfg.wsMaxAttempts, AfterWs(cfg), active)
        case Sse(n) => AfterFailure(cfg, e, Sse(n + 1), n + 1 < cfg.sseMaxAttempts, Poll, active)
        case Poll =>
          if !active then Ended(Inactive)
          else (match Escape(cfg, Public(e), true) case Some(reason) => Ended(reason) case None => Enter(cfg))
  }

  /** The sticky strategy has another attempt at this streaming transport. */
  predicate MayRetry(cfg: Config, control: Control) {
    cfg.strategy.ProgressiveSticky?
    && match control
       case Ws(n) => n + 1 < cfg.wsMaxAttempts
       case Sse(n) => n + 1 < cfg.sseMaxAttempts
       case _ => false
  }

  /**
   * True when the session ends the cycle with a backoff: a failed poll that may be retried, or a
   * streaming transport whose last attempt throws a retryable serialization error out of the cycle.
   */
  predicate BacksOff(cfg: Config, control: Control, outcome: Outcome, active: bool) {
    active && outcome.Failure?
    && match control
       case Ended(_) => false
       case Poll => Escape(cfg, Public(outcome.error), true).None?
       case _ => outcome.error.Serialization? && cfg.isRetryable(outcome.error) && !MayRetry(cfg, control)
  }

  /** A backoff counts an attempt, resets the malformed budget and reloads the stored checkpoint. */
  function Backoff(cfg: Config, s: ClientState): ClientState {
    var watermark := if s.checkpoint.Some? then s.checkpoint else s.watermark;
    s.(control := Enter(cfg), attempt := s.attempt + 1, malformed := 0, watermark := watermark, cycle := watermark)
  }

  /**
   * What follows a session: another transport, a backoff and a new cycle, or the end of the flow. An
   * error thrown out of a streaming transport leaves the watermark the cycle began with.
   */
  function Conclude(cfg: Config, control: Control, t: Track, end: SessionEnd, active: bool): ClientState
    requires !control.Ended?
  {
    var outcome := OutcomeOf(t, end);
    if BacksOff(cfg, control, outcome, active) then
      Backoff(cfg, if control.Poll? then t.state else t.state.(watermark := t.state.cycle))
    else t.state.(control := NextControl(cfg, control, outcome, active))
  }

  function Step(cfg: Config, log: seq<LogEntry>, s: ClientState, session: Session, active: bool): ClientState {
    if s.control.Ended? then s
    else Conclude(cfg, s.control, Observe(cfg, log, s, session), session.end, active)
  }

  function Init(cfg: Config, afterEventId: Option<EventId>, stored: Option<EventId>): ClientState {
    var watermark := if afterEventId.Some? then afterEventId else stored;
    ClientState(Enter(cfg), watermark, watermark, 0, 0, [], [], stored)
  }

  /** The state after the first `k` sessions; the coroutine is cancelled once the script is used up. */
  function Run(cfg: Config, log: seq<LogEntry>, s: ClientState, script: seq<Session>, k: nat): ClientState
    requires k <= |script|
  {
    if k == 0 then s
    else Step(cfg, log, Run(cfg, log, s, script, k - 1), script[k - 1], k < |script|)
  }

  function Final(cfg: Config, log: seq<LogEntry>, s: ClientState, script: seq<Session>): ClientState {
    Run(cfg, log, s, script, |script|)
  }

  lemma {:induction false} EndedIsFinal(cfg: Config, log: seq<LogEntry>, s: ClientState, script: seq<Session>, k: nat, n: nat)
    requires k <= n <= |script|
    requires Run(cfg, log, s, script, k).control.Ended?
    ensures Run(cfg, log, s, script, n) == Run(cfg, log, s, script, k)
  {
    if k < n {
      EndedIsFinal(cfg, log, s, script, k, n - 1);
    }
  }
}
