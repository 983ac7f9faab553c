/**
 * The client's stream orchestrator in its own form: nested loops, exceptions as results, and
 * fields updated in place. Every method is proved against the flat machine of `ClientModel`.
 */
module StreamTransport {
  import opened Options
  import opened EventLog
  import opened RecentIds
  import opened CheckpointStore
  import opened ClientModel

  datatype Source = WebSocket | Sse

  datatype Attempt<+T> = Returned(value: T) | Raised(error: Throwable)

  datatype ObservationState = ObservationState(
    watermark: Option<EventId>,
    terminal: bool,
    failed: bool,
    lastThrowable: Option<Throwable>)

  predicate IsFatalError(s: ObservationState) {
    s.lastThrowable.Some? && IsFatal(s.lastThrowable.value)
  }

  function Start(source: Source, failures: nat): Control {
    match source case WebSocket => Control.Ws(failures) case Sse => Control.Sse(failures)
  }

  function Fallback(cfg: Config, source: Source): Control {
    match source case WebSocket => AfterWs(cfg) case Sse => Poll
  }

  function MaxAttempts(cfg: Config, source: Source): int {
    match source case WebSocket => cfg.wsMaxAttempts case Sse => cfg.sseMaxAttempts
  }

  /** How a handled item leaves the session: going on, at a terminal event, or with an error. */
  function HaltOf(r: Attempt<bool>): Halt {
    match r
    case Returned(terminal) => if terminal then SawTerminal else Going
    case Raised(e) => Threw(e)
  }

  /** The result a phase reports for a session outcome. */
  function PhaseResult(watermark: Option<EventId>, outcome: Outcome): Attempt<ObservationState> {
    match outcome
    case Terminal => Returned(ObservationState(watermark, true, false, None))
    case Clean => Returned(ObservationState(watermark, false, false, None))
    case Failure(e) =>
      if e.Cancellation? then Raised(e) else Returned(ObservationState(watermark, false, true, Some(e)))
  }

  /** The machine is about to open a transport, or has stopped because the coroutine was cancelled. */
  ghost predicate AtTransport(s: ClientState, control: Control, wm: Option<EventId>, active: bool) {
    if active then s.control == control && s.watermark == wm else s.control == Ended(Inactive)
  }

  /** Where the machine stands after the attempts of one streaming transport, given their result. */
  ghost predicate AfterAttempts(cfg: Config, source: Source, r: Attempt<ObservationState>, s: ClientState, active: bool) {
    match r
    case Raised(e) => e.Cancellation? && s.control == Ended(Cancelled)
    case Returned(o) =>
      if o.terminal then s.control == Ended(TerminalEvent)
      else if IsFatalError(o) then s.control == Ended(FatalEnd(o.lastThrowable.value))
      else AtTransport(s, Fallback(cfg, source), o.watermark, active)
  }

  /** A streaming transport that throws a retryable serialization error out of the cycle. */
  predicate ThrowsOut(cfg: Config, r: Attempt<ObservationState>, active: bool) {
    r.Returned? && !r.value.terminal && r.value.lastThrowable.Some? && r.value.lastThrowable.value.Serialization?
    && active && cfg.isRetryable(r.value.lastThrowable.value)
  }

  /** A failed poll ends the flow or backs off into a new cycle. */
  function AfterPollFailure(cfg: Config, s: ClientState, e: Throwable): ClientState {
    match Escape(cfg, Public(e), true)
    case Some(reason) => s.(control := Ended(reason))
    case None => Backoff(cfg, s)
  }

  lemma {:induction false} PollConcludes(cfg: Config, t: Track, end: SessionEnd, active: bool)
    requires t.state.control == Poll
    ensures var s, s' := t.state, Conclude(cfg, Poll, t, end, active);
            match OutcomeOf(t, end)
            case Terminal => s' == s.(control := Ended(TerminalEvent))
            case Clean => s' == if active then s else s.(control := Ended(Inactive))
            case Failure(e) =>
              s' == if e.Cancellation? then s.(control := Ended(Cancelled))
                    else if active then AfterPollFailure(cfg, s, e) else s.(control := Ended(Inactive))
  {
  }

  lemma {:induction false} ReceiveKeepsControl(cfg: Config, log: seq<LogEntry>, polling: bool, t: Track, arrivals: seq<Arrival>)
    ensures Receive(cfg, log, polling, t, arrivals).state.control == t.state.control
    decreases |arrivals|
  {
    if t.halt == Going && arrivals != [] {
      ReceiveKeepsControl(cfg, log, polling, Arrive(cfg, log, polling, t, arrivals[0]), arrivals[1..]);
    }
  }

  /** What follows a streaming session, in terms of the state it ended in. */
  lemma {:induction false} StreamConcludes(cfg: Config, control: Control, t: Track, end: SessionEnd, active: bool)
    requires control.Ws? || control.Sse?
    ensures Conclude(cfg, control, t, end, active)
         == if BacksOff(cfg, control, OutcomeOf(t, end), active) then Backoff(cfg, t.state.(control := Poll, watermark := t.state.cycle))
            else t.state.(control := NextControl(cfg, control, OutcomeOf(t, end), active))
  {
    hide BacksOff, NextControl;
  }

  /** One poll is one step of the machine. */
  lemma {:induction false} PollStep(cfg: Config, log: seq<LogEntry>, s0: ClientState, script: seq<Session>, k: nat)
    requires k < |script| && Run(cfg, log, s0, script, k).control == Poll
    ensures var s := Run(cfg, log, s0, script, k);
      var t := Observe(cfg, log, s, script[k]);
      t.state.control == Poll && Run(cfg, log, s0, script, k + 1) == Conclude(cfg, Poll, t, script[k].end, k + 1 < |script|)
  {
    hide Receive, Conclude;
    var s := Run(cfg, log, s0, script, k);
    ReceiveKeepsControl(cfg, log, true, Track(s, StartOf(log, s.watermark, script[k].rewind), Going), script[k].arrivals);
  }

  /** One streaming session is one step of the machine. */
  lemma {:induction false} StreamStep(cfg: Config, log: seq<LogEntry>, s0: ClientState, script: seq<Session>, k: nat)
    requires k < |script| && !Run(cfg, log, s0, script, k).control.Ended?
    ensures var s := Run(cfg, log, s0, script, k);
      var t := Observe(cfg, log, s, script[k]);
      t.state.control == s.control && Run(cfg, log, s0, script, k + 1) == Conclude(cfg, s.control, t, script[k].end, k + 1 < |script|)
  {
    hide Receive, Conclude;
    var s := Run(cfg, log, s0, script, k);
    ReceiveKeepsControl(cfg, log, s.control.Poll?, Track(s, StartOf(log, s.watermark, script[k].rewind), Going), script[k].arrivals);
  }

  /** Before the first attempt: it is due, or there is none and the fallback is. */
  lemma {:induction false} NoAttemptYet(cfg: Config, source: Source, wm: Option<EventId>, s: ClientState, active: bool)
    requires AtTransport(s, if MaxAttempts(cfg, source) > 0 then Start(source, 0) else Fallback(cfg, source), wm, active)
    ensures if active && MaxAttempts(cfg, source) > 0 then AtTransport(s, Start(source, 0), wm, true)
            else AfterAttempts(cfg, source, Returned(ObservationState(wm, false, true, None)), s, active)
    ensures !ThrowsOut(cfg, Returned(ObservationState(wm, false, true, None)), active)
  {
  }

  /** The transports of a fast cycle, in order. */
  lemma {:induction false} FastOrder(cfg: Config)
    requires cfg.strategy.FastCycle?
    ensures Enter(cfg) == Start(WebSocket, 0) && Fallback(cfg, WebSocket) == Start(Source.Sse, 0) && Fallback(cfg, Source.Sse) == Poll
  {
  }

  lemma {:induction false} NothingDone(cfg: Config, source: Source, wm: Option<EventId>, s: ClientState, here: ClientState, active: bool)
    requires MatchesAt(s, here) && AfterAttempts(cfg, source, Returned(ObservationState(wm, false, true, None)), s, active)
    ensures AttemptsDone(cfg, source, Returned(ObservationState(wm, false, true, None)), s, here, active)
  {
    hide MatchesAt, AfterAttempts;
  }

  /** The two agree but for where they stand. */
  predicate MatchesAt(s: ClientState, here: ClientState) {
    s == here.(control := s.control, watermark := s.watermark)
  }

  /** After one streaming session: `here` are the fields, `s` is the machine, which may have backed off already. */
  ghost predicate SessionDone(cfg: Config, source: Source, failures: nat, outcome: Outcome, next: Option<EventId>,
                              s: ClientState, here: ClientState, active: bool) {
    if BacksOff(cfg, Start(source, failures), outcome, active) then s == Backoff(cfg, here)
    else MatchesAt(s, here) && s.watermark == next && s.control == NextControl(cfg, Start(source, failures), outcome, active)
  }

  /** After all attempts at one streaming transport. */
  ghost predicate AttemptsDone(cfg: Config, source: Source, r: Attempt<ObservationState>, s: ClientState, here: ClientState, active: bool) {
    if ThrowsOut(cfg, r, active) then s == Backoff(cfg, here)
    else MatchesAt(s, here) && AfterAttempts(cfg, source, r, s, active)
  }

  /** One attempt of the sticky strategy is retried if its error may be and an attempt is left, and else the last. */
  lemma {:induction false} AttemptEnds(cfg: Config, source: Source, failures: nat, outcome: Outcome, next: Option<EventId>,
                     s: ClientState, here: ClientState, active: bool)
    requires cfg.strategy.ProgressiveSticky? && SessionDone(cfg, source, failures, outcome, next, s, here, active)
    ensures if outcome.Failure? && !outcome.error.Cancellation? && active && failures + 1 < MaxAttempts(cfg, source) && cfg.isRetryable(outcome.error)
            then MatchesAt(s, here) && AtTransport(s, Start(source, failures + 1), next, true)
            else AttemptsDone(cfg, source, PhaseResult(next, outcome), s, here, active)
  {
    hide MatchesAt, Backoff;
  }

  /** The only attempt of a fast cycle is the last. */
  lemma {:induction false} FastSessionEnds(cfg: Config, source: Source, outcome: Outcome, next: Option<EventId>,
                         s: ClientState, here: ClientState, active: bool)
    requires cfg.strategy.FastCycle? && SessionDone(cfg, source, 0, outcome, next, s, here, active)
    ensures AttemptsDone(cfg, source, PhaseResult(next, outcome), s, here, active)
  {
    hide MatchesAt, Backoff;
  }

  /** What one whole cycle leaves behind. */
  ghost predicate CycleEnds(cfg: Config, r: Attempt<ObservationState>, s: ClientState, here: ClientState, active: bool) {
    match r
    case Raised(e) =>
      if e.Serialization? && active && cfg.isRetryable(e) then s == Backoff(cfg, here)
      else MatchesAt(s, here) && ((e.Cancellation? && s.control == Ended(Cancelled)) || (IsFatal(e) && s.control == Ended(FatalEnd(e))))
    case Returned(o) =>
      if o.terminal then MatchesAt(s, here) && s.control == Ended(TerminalEvent)
      else if !active then MatchesAt(s, here) && s.control == Ended(Inactive)
      else o.failed && o.lastThrowable.Some? && !o.lastThrowable.value.Cancellation?
           && s == AfterPollFailure(cfg, here.(watermark := o.watermark), o.lastThrowable.value)
  }

  /** Agreement on what outlives the run. */
  predicate Agree(s: ClientState, here: ClientState) {
    s.sent == here.sent && s.checkpoint == here.checkpoint && s.window == here.window && s.attempt == here.attempt
  }

  /** An exception has left the cycle: the machine ended for its reason, or is where a backoff leads. */
  ghost predicate CycleRaises(cfg: Config, e: Throwable, s: ClientState, here: ClientState, active: bool) {
    match Escape(cfg, e, active)
    case Some(reason) => Agree(s, here) && s.control == Ended(reason)
    case None => active && s == Backoff(cfg, here)
  }

  lemma {:induction false} RaisedOut(cfg: Config, e: Throwable, s: ClientState, here: ClientState, active: bool)
    requires CycleEnds(cfg, Raised(e), s, here, active)
    ensures CycleRaises(cfg, e, s, here, active)
  {
    hide Backoff;
  }

  /** A cycle that returned is over, or its polling error is raised, with the watermark it reached. */
  lemma {:induction false} ReturnedOut(cfg: Config, o: ObservationState, s: ClientState, here: ClientState, active: bool)
    requires CycleEnds(cfg, Returned(o), s, here, active)
    ensures var now := here.(watermark := o.watermark, cycle := o.watermark);
      if o.terminal then Agree(s, now) && s.control == Ended(TerminalEvent)
      else if !active then Agree(s, now) && s.control == Ended(Inactive)
      else
        && o.failed && o.lastThrowable.Some?
        && CycleRaises(cfg, if IsFatalError(o) then Public(o.lastThrowable.value) else o.lastThrowable.value, s, now, active)
  {
    if !o.terminal && active {
      var before, now := here.(watermark := o.watermark), here.(watermark := o.watermark, cycle := o.watermark);
      assert Backoff(cfg, before) == Backoff(cfg, now);
      hide Backoff;
    }
  }

  /** One observation of one task. The script is the network; the coroutine is cancelled at its end. */
  class Observation {
    const cfg: Config
    const log: seq<LogEntry>
    const script: seq<Session>
    const store: InMemoryCheckpointStore<EventId>
    const checkpointKey: string
    const seen: RecentEventIds
    var cursor: nat
    var sent: seq<LogEntry>
    var attempt: nat
    var watermark: Option<EventId>
    var malformedPayloadCount: nat

    ghost predicate Valid()
      reads this, seen
    {
      seen.Valid() && seen.capacity == DEFAULT_CAPACITY && cursor <= |script|
    }

    predicate IsActive()
      reads this
    {
      cursor < |script|
    }

    /** The abstract state at a given place, with the watermark local to the running phase. */
    ghost function At(control: Control, wm: Option<EventId>): ClientState
      reads this, seen, store
    {
      ClientState(control, wm, watermark, attempt, malformedPayloadCount, seen.order, sent, Lookup(store.values, checkpointKey))
    }

    ghost predicate Matches(s: ClientState)
      reads this, seen, store
    {
      s == At(s.control, s.watermark)
    }

    /** The fields as a state of the machine, wherever it stands. */
    ghost function Here(): ClientState
      reads this, seen, store
    {
      At(Poll, watermark)
    }

    ghost function SpecAt(s0: ClientState): ClientState
      requires cursor <= |script|
      reads this
    {
      Run(cfg, log, s0, script, cursor)
    }

    constructor (cfg: Config, log: seq<LogEntry>, script: seq<Session>, store: InMemoryCheckpointStore<EventId>, checkpointKey: string,
                 afterEventId: Option<EventId>)
      ensures Valid() && fresh(seen) && cursor == 0
      ensures this.cfg == cfg && this.log == log && this.script == script
      ensures this.store == store && this.checkpointKey == checkpointKey
      ensures At(Enter(cfg), watermark) == Init(cfg, afterEventId, Lookup(store.values, checkpointKey))
    {
      this.cfg, this.log, this.script := cfg, log, script;
      this.store, this.checkpointKey := store, checkpointKey;
      seen := new RecentEventIds();
      cursor, sent, attempt, malformedPayloadCount := 0, [], 0, 0;
      new;
      var stored := store.Load(checkpointKey);
      watermark := if afterEventId.Some? then afterEventId else stored;
    }

    /** Deduplicate, send, save, clear; a fault at any of these points is raised as a processing error. */
    method EmitObservedEvent(event: LogEntry, fault: Fault, ghost t: Track) returns (r: Attempt<bool>)
      requires Valid() && t.halt == Going && Matches(t.state)
      modifies this`sent, seen, store
      ensures Valid() && Emit(t, event, fault) == Track(At(t.state.control, Some(event.id)), t.at, HaltOf(r))
    {
      var terminal := event.terminal;
      var isNew := seen.MarkSeen(event.id);
      if !isNew { return Returned(terminal); }
      if fault.SendFails? { return Raised(WrapProcessingError(fault.error)); }
      sent := sent + [event];
      if fault.SaveFails? { return Raised(WrapProcessingError(fault.error)); }
      store.Save(checkpointKey, event.id);
      if terminal {
        if fault.ClearFails? { return Raised(WrapProcessingError(fault.error)); }
        store.Clear(checkpointKey);
      }
      return Returned(terminal);
    }

    /** Counts an undecodable streamed payload; over the budget it raises a processing error. */
    method OnMalformedPayload(ghost t: Track) returns (error: Option<Throwable>)
      requires Valid() && t.halt == Going && Matches(t.state)
      modifies this`malformedPayloadCount
      ensures Valid()
      ensures Malformed(cfg, false, t)
           == Track(At(t.state.control, t.state.watermark), t.at, match error case Some(e) => Threw(e) case None => Going)
    {
      malformedPayloadCount := malformedPayloadCount + 1;
      error := if malformedPayloadCount > cfg.maxMalformed then Some(Processing(Io)) else None;
    }

    /** Handles one inbound item of a session or page; `at` is the server's next log entry. */
    method OnInbound(arrival: Arrival, at: nat, fromWatermark: Option<EventId>, polling: bool, ghost t: Track)
      returns (at': nat, nextWatermark: Option<EventId>, r: Attempt<bool>)
      requires Valid() && t.halt == Going && Matches(t.state) && t.at == at && t.state.watermark == fromWatermark
      modifies this`sent, this`malformedPayloadCount, seen, store
      ensures Valid() && Arrive(cfg, log, polling, t, arrival) == Track(At(t.state.control, nextWatermark), at', HaltOf(r))
    {
      at', nextWatermark, r := at, fromWatermark, Returned(false);
      match arrival {
        case Heartbeat =>
        case Junk =>
          if !polling {
            var error := OnMalformedPayload(t);
            if error.Some? { r := Raised(error.value); }
          }
        case NextEntry(fault) =>
          if at < |log| {
            at' := at + 1;
            if log[at].readable {
              nextWatermark := Some(log[at].id);
              r := EmitObservedEvent(log[at], fault, t.(at := at'));
            } else if !polling {
              var error := OnMalformedPayload(t.(at := at'));
              if error.Some? { r := Raised(error.value); }
            }
          }
      }
    }

    /** Hands over the items of one session or page until a terminal event or an error. */
    method Collect(session: Session, fromWatermark: Option<EventId>, polling: bool, ghost s: ClientState)
      returns (nextWatermark: Option<EventId>, r: Attempt<bool>)
      requires Valid() && Matches(s) && s.watermark == fromWatermark && s.control.Poll? == polling
      modifies this`sent, this`malformedPayloadCount, seen, store
      ensures Valid() && var t := Observe(cfg, log, s, session);
                t.state == At(s.control, nextWatermark) && t.halt == HaltOf(r)
    {
      var at := StartOf(log, fromWatermark, session.rewind);
      nextWatermark, r := fromWatermark, Returned(false);
      ghost var t := Track(s, at, Going);
      var k := 0;
      while k < |session.arrivals| && r == Returned(false)
        invariant 0 <= k <= |session.arrivals| && Valid()
        invariant Observe(cfg, log, s, session) == Receive(cfg, log, polling, t, session.arrivals[k..])
        invariant t == Track(At(s.control, nextWatermark), at, HaltOf(r))
      {
        ghost var rest := session.arrivals[k..];
        assert rest[0] == session.arrivals[k] && rest[1..] == session.arrivals[k + 1..];
        ghost var next := Arrive(cfg, log, polling, t, session.arrivals[k]);
        at, nextWatermark, r := OnInbound(session.arrivals[k], at, nextWatermark, polling, t);
        t := next;
        k := k + 1;
      }
    }

    /** One WebSocket or SSE session: collect until a terminal event, an error or the close. */
    method ObserveStreamingPhase(fromWatermark: Option<EventId>, ghost s: ClientState) returns (r: Attempt<ObservationState>)
      requires Valid() && IsActive()
      requires Matches(s) && s.watermark == fromWatermark && (s.control.Ws? || s.control.Sse?)
      modifies this`cursor, this`sent, this`malformedPayloadCount, seen, store
      ensures Valid() && cursor == old(cursor) + 1
      ensures var t := Observe(cfg, log, s, script[old(cursor)]);
              Matches(t.state) && r == PhaseResult(t.state.watermark, OutcomeOf(t, script[old(cursor)].end))
    {
      var session := script[cursor];
      cursor := cursor + 1;
      var nextWatermark, collected := Collect(session, fromWatermark, false, s);
      if collected == Returned(false) && session.end.Failed? {
        collected := Raised(session.end.error);
      }
      match collected {
        case Returned(terminal) => return Returned(ObservationState(nextWatermark, terminal, false, None));
        case Raised(e) =>
          if e.Cancellation? { return Raised(e); }
          return Returned(ObservationState(nextWatermark, false, true, Some(e)));
      }
    }

    /** The fields agree with the machine after the sessions used so far. */
    ghost predicate Synced(s0: ClientState)
      requires cursor <= |script|
      reads this, seen, store
    {
      Matches(SpecAt(s0))
    }

    lemma {:induction false} SyncedMatches(s0: ClientState)
      requires cursor <= |script| && Synced(s0)
      ensures MatchesAt(SpecAt(s0), Here())
    {
      hide Run;
    }

    lemma {:induction false} MatchesSynced(s0: ClientState)
      requires cursor <= |script| && MatchesAt(SpecAt(s0), Here())
      ensures Synced(s0)
    {
      hide Run;
    }

    /** One attempt at one streaming transport, with the step the machine takes for it. */
    method OpenOnce(source: Source, failures: nat, fromWatermark: Option<EventId>, ghost s0: ClientState)
      returns (r: Attempt<ObservationState>, ghost nextWatermark: Option<EventId>, ghost outcome: Outcome)
      requires Valid() && IsActive() && Synced(s0)
      requires AtTransport(SpecAt(s0), Start(source, failures), fromWatermark, true)
      modifies this`cursor, this`sent, this`malformedPayloadCount, seen, store
      ensures Valid() && cursor == old(cursor) + 1 && r == PhaseResult(nextWatermark, outcome)
      ensures SessionDone(cfg, source, failures, outcome, nextWatermark, SpecAt(s0), Here(), IsActive())
    {
      hide Run, Observe, NextControl, BacksOff, PhaseResult, Conclude, Backoff, OutcomeOf;
      ghost var before := SpecAt(s0);
      ghost var session := script[cursor];
      StreamStep(cfg, log, s0, script, cursor);
      StreamConcludes(cfg, before.control, Observe(cfg, log, before, session), session.end, cursor + 1 < |script|);
      r := ObserveStreamingPhase(fromWatermark, before);
      ghost var t := Observe(cfg, log, before, session);
      outcome := OutcomeOf(t, session.end);
      nextWatermark := t.state.watermark;
    }

    /** Retries one streaming transport while its errors are retryable and attempts remain. */
    method ObserveWithTransportRetries(source: Source, maxAttempts: int, startWatermark: Option<EventId>, ghost s0: ClientState)
      returns (r: Attempt<ObservationState>)
      requires Valid() && cfg.strategy.ProgressiveSticky? && maxAttempts == MaxAttempts(cfg, source) && Synced(s0)
      requires AtTransport(SpecAt(s0), if maxAttempts > 0 then Start(source, 0) else Fallback(cfg, source), startWatermark, IsActive())
      modifies this`cursor, this`sent, this`malformedPayloadCount, seen, store
      ensures Valid() && old(cursor) <= cursor && (old(IsActive()) && maxAttempts > 0 ==> old(cursor) < cursor)
      ensures AttemptsDone(cfg, source, r, SpecAt(s0), Here(), IsActive())
      ensures old(cursor) == cursor ==> r.Returned? && r.value.lastThrowable.None?
    {
      hide Run, At, SpecAt, Fallback, FatalEnd, IsFatal, AtTransport, AfterAttempts, MaxAttempts, SessionDone, AttemptsDone, MatchesAt;
      SyncedMatches(s0);
      NoAttemptYet(cfg, source, startWatermark, SpecAt(s0), IsActive());
      if !IsActive() || maxAttempts <= 0 { NothingDone(cfg, source, startWatermark, SpecAt(s0), Here(), IsActive()); }
      var wm := startWatermark;
      var attempts := 0;
      var lastError: Option<Throwable> := None;
      while IsActive() && attempts < maxAttempts
        invariant Valid() && 0 <= attempts && old(cursor) <= cursor && (attempts > 0 ==> old(cursor) < cursor) && (old(cursor) == cursor ==> lastError.None?)
        invariant if IsActive() && attempts < maxAttempts then MatchesAt(SpecAt(s0), Here()) && AtTransport(SpecAt(s0), Start(source, attempts), wm, true)
                  else AttemptsDone(cfg, source, Returned(ObservationState(wm, false, true, lastError)), SpecAt(s0), Here(), IsActive())
        decreases |script| - cursor
      {
        ghost var next, outcome;
        var phase;
        MatchesSynced(s0);
        phase, next, outcome := OpenOnce(source, attempts, wm, s0);
        AttemptEnds(cfg, source, attempts, outcome, next, SpecAt(s0), Here(), IsActive());
        if phase.Raised? { return phase; }
        var state := phase.value;
        wm := state.watermark;
        if state.terminal || !IsActive() { return Returned(state); }
        if !state.failed { return Returned(ObservationState(wm, false, false, None)); }
        lastError := state.lastThrowable;
        if lastError.Some? && !cfg.isRetryable(lastError.value) { break; }
        attempts := attempts + 1;
      }
      return Returned(ObservationState(wm, false, true, lastError));
    }

    /** One poll: a page, and perhaps the failure of the next request. */
    method PollOnce(fromWatermark: Option<EventId>, ghost s0: ClientState)
      returns (nextWatermark: Option<EventId>, r: Attempt<bool>)
      requires Valid() && IsActive() && Synced(s0) && AtTransport(SpecAt(s0), Poll, fromWatermark, true)
      modifies this`cursor, this`sent, this`malformedPayloadCount, seen, store
      ensures Valid() && cursor == old(cursor) + 1
      ensures match r
              case Returned(true) => Synced(s0) && SpecAt(s0).control == Ended(TerminalEvent)
              case Returned(false) => Synced(s0) && AtTransport(SpecAt(s0), Poll, nextWatermark, IsActive())
              case Raised(e) =>
                if e.Cancellation? then Synced(s0) && SpecAt(s0).control == Ended(Cancelled)
                else if !IsActive() then Synced(s0) && SpecAt(s0).control == Ended(Inactive)
                else SpecAt(s0) == AfterPollFailure(cfg, At(Poll, nextWatermark), e)
    {
      hide Run, Observe, Conclude, AfterPollFailure;
      ghost var before := SpecAt(s0);
      var session := script[cursor];
      ghost var t := Observe(cfg, log, before, session);
      PollStep(cfg, log, s0, script, cursor);
      PollConcludes(cfg, t, session.end, cursor + 1 < |script|);
      cursor := cursor + 1;
      nextWatermark, r := Collect(session, fromWatermark, true, before);
      if r == Returned(false) && session.end.Failed? {
        r := Raised(session.end.error);
      }
    }

    /** Long-polls until a terminal event, an error or cancellation. */
    method ObservePollingPhase(fromWatermark: Option<EventId>, ghost s0: ClientState) returns (r: Attempt<ObservationState>)
      requires Valid() && Synced(s0) && AtTransport(SpecAt(s0), Poll, fromWatermark, IsActive())
      modifies this`cursor, this`sent, this`malformedPayloadCount, seen, store
      ensures Valid() && old(cursor) <= cursor && (old(IsActive()) ==> old(cursor) < cursor)
      ensures CycleEnds(cfg, r, SpecAt(s0), Here(), IsActive())
    {
      hide Run;
      var nextWatermark := fromWatermark;
      while IsActive()
        invariant Valid() && Synced(s0) && AtTransport(SpecAt(s0), Poll, nextWatermark, IsActive())
        invariant old(cursor) <= cursor && (old(IsActive()) && !IsActive() ==> old(cursor) < cursor)
        decreases |script| - cursor
      {
        var page;
        nextWatermark, page := PollOnce(nextWatermark, s0);
        match page {
          case Raised(e) =>
            if e.Cancellation? { return Raised(e); }
            return Returned(ObservationState(nextWatermark, false, true, Some(e)));
          case Returned(terminal) =>
            if terminal { return Returned(ObservationState(nextWatermark, true, false, None)); }
        }
      }
      return Returned(ObservationState(nextWatermark, false, false, None));
    }

    /** The only attempt at a streaming transport of a fast cycle. */
    method ObserveOnce(source: Source, fromWatermark: Option<EventId>, ghost s0: ClientState) returns (r: Attempt<ObservationState>)
      requires Valid() && cfg.strategy.FastCycle? && IsActive() && Synced(s0)
      requires AtTransport(SpecAt(s0), Start(source, 0), fromWatermark, true)
      modifies this`cursor, this`sent, this`malformedPayloadCount, seen, store
      ensures Valid() && cursor == old(cursor) + 1
      ensures AttemptsDone(cfg, source, r, SpecAt(s0), Here(), IsActive())
      ensures r.Returned? && r.value.terminal ==> r.value.lastThrowable.None?
    {
      hide Run, At, SpecAt, SessionDone, AttemptsDone;
      ghost var next, outcome;
      r, next, outcome := OpenOnce(source, 0, fromWatermark, s0);
      FastSessionEnds(cfg, source, outcome, next, SpecAt(s0), Here(), IsActive());
    }

    method RunFastCycle(fromWatermark: Option<EventId>, ghost s0: ClientState) returns (r: Attempt<ObservationState>)
      requires Valid() && cfg.strategy.FastCycle? && IsActive() && Synced(s0)
      requires AtTransport(SpecAt(s0), Enter(cfg), fromWatermark, true)
      modifies this`cursor, this`sent, this`malformedPayloadCount, seen, store
      ensures Valid() && old(cursor) < cursor
      ensures CycleEnds(cfg, r, SpecAt(s0), Here(), IsActive())
    {
      hide Run, At;
      FastOrder(cfg);
      r := ObserveOnce(WebSocket, fromWatermark, s0);
      if r.Raised? { return; }
      if IsFatalError(r.value) { return Raised(r.value.lastThrowable.value); }
      if !r.value.terminal && IsActive() {
        MatchesSynced(s0);
        r := ObserveOnce(Source.Sse, r.value.watermark, s0);
        if r.Raised? { return; }
        if IsFatalError(r.value) { return Raised(r.value.lastThrowable.value); }
      }
      if !r.value.terminal && IsActive() {
        MatchesSynced(s0);
        r := ObservePollingPhase(r.value.watermark, s0);
      }
    }

    method RunProgressiveSticky(fromWatermark: Option<EventId>, ghost s0: ClientState) returns (r: Attempt<ObservationState>)
      requires Valid() && cfg.strategy.ProgressiveSticky? && IsActive() && Synced(s0)
      requires AtTransport(SpecAt(s0), Enter(cfg), fromWatermark, true)
      modifies this`cursor, this`sent, this`malformedPayloadCount, seen, store
      ensures Valid() && old(cursor) < cursor
      ensures CycleEnds(cfg, r, SpecAt(s0), Here(), IsActive())
    {
      hide Run, At;
      r := ObserveWithTransportRetries(WebSocket, cfg.wsMaxAttempts, fromWatermark, s0);
      if r.Raised? || r.value.terminal { return; }
      if IsFatalError(r.value) { return Raised(r.value.lastThrowable.value); }
      MatchesSynced(s0);
      r := ObserveWithTransportRetries(Source.Sse, cfg.sseMaxAttempts, r.value.watermark, s0);
      if r.Raised? || r.value.terminal { return; }
      if IsFatalError(r.value) { return Raised(r.value.lastThrowable.value); }
      MatchesSynced(s0);
      r := ObservePollingPhase(r.value.watermark, s0);
    }

    /**
     * One cycle through the transports. It never returns false: a cycle that neither ends nor is
     * cancelled ends in a polling error, so the reset of the attempt counter is never reached.
     */
    method RunTransportCycleOnce(ghost s0: ClientState) returns (r: Attempt<bool>)
      requires Valid() && IsActive() && Synced(s0) && AtTransport(SpecAt(s0), Enter(cfg), watermark, true)
      modifies this`cursor, this`sent, this`malformedPayloadCount, this`watermark, this`attempt, seen, store
      ensures Valid() && old(cursor) < cursor && r != Returned(false)
      ensures match r
              case Returned(_) =>
                Agree(SpecAt(s0), Here()) && (SpecAt(s0).control == Ended(TerminalEvent) || SpecAt(s0).control == Ended(Inactive))
              case Raised(e) => CycleRaises(cfg, e, SpecAt(s0), Here(), IsActive())
    {
      hide Run, Public, IsFatal, CycleEnds, CycleRaises, Agree;
      var cycle;
      match cfg.strategy {
        case FastCycle => cycle := RunFastCycle(watermark, s0);
        case ProgressiveSticky => cycle := RunProgressiveSticky(watermark, s0);
      }
      if cycle.Raised? {
        RaisedOut(cfg, cycle.error, SpecAt(s0), Here(), IsActive());
        return Raised(cycle.error);
      }
      ReturnedOut(cfg, cycle.value, SpecAt(s0), Here(), IsActive());
      watermark := cycle.value.watermark;
      if cycle.value.terminal || !IsActive() { return Returned(true); }
      if cycle.value.failed && cycle.value.lastThrowable.Some? {
        return Raised(if IsFatalError(cycle.value) then Public(cycle.value.lastThrowable.value) else cycle.value.lastThrowable.value);
      }
      // The source resets the attempt counter here; no cycle gets this far.
      assert false;
    }

    /** Waits, counts the attempt and reloads the stored checkpoint; an error that may not be retried is rethrown. */
    method ApplyTransportBackoff(e: Throwable) returns (rethrown: bool)
      requires Valid()
      modifies this`attempt, this`watermark
      ensures Valid() && (rethrown <==> !IsActive() || !cfg.isRetryable(e))
      ensures rethrown ==> attempt == old(attempt)
      ensures !rethrown ==>
        && watermark == (if old(Lookup(store.values, checkpointKey)).Some? then old(Lookup(store.values, checkpointKey)) else old(watermark))
        && At(Poll, watermark) == old(At(Poll, watermark)).(attempt := old(attempt) + 1, watermark := watermark, cycle := watermark)
    {
      if !IsActive() || !cfg.isRetryable(e) { return true; }
      attempt := attempt + 1;
      var stored := store.Load(checkpointKey);
      if stored.Some? { watermark := stored; }
      return false;
    }

    /** How one caught exception is handled: `None` when the loop goes on after a backoff. */
    method HandleCycleError(e: Throwable, ghost s0: ClientState) returns (end: Option<EndReason>)
      requires Valid()
      requires CycleRaises(cfg, e, SpecAt(s0), Here(), IsActive())
      modifies this`attempt, this`watermark, this`malformedPayloadCount
      ensures Valid()
      ensures match end
              case Some(reason) => Agree(SpecAt(s0), Here()) && SpecAt(s0).control == Ended(reason)
              case None => IsActive() && Synced(s0) && AtTransport(SpecAt(s0), Enter(cfg), watermark, true)
    {
      hide Run;
      if e.Cancellation? {
        end := Some(Cancelled);
      } else if e.Processing? {
        end := Some(if e.cause.Cancellation? then Cancelled else ClosedWith(e.cause));
      } else if e.HttpStatus? && e.code == HTTP_UNAUTHORIZED {
        end := Some(ClosedWith(Auth(e)));
      } else if e.HttpStatus? && !cfg.isRetryable(e) {
        end := Some(ClosedWith(e));
      } else if e.HttpStatus? || e.Io? || e.Serialization? {
        var rethrown := ApplyTransportBackoff(e);
        end := if rethrown then Some(ClosedWith(e)) else None;
      } else {
        end := Some(ClosedWith(e));
      }
      malformedPayloadCount := 0;
    }

    /**
     * The observation loop. For every script of network behaviour it sends, stores and reports
     * exactly what the flat machine does; `None` is a flow closed normally.
     */
    method RunObservationLoop(ghost s0: ClientState) returns (end: Option<EndReason>)
      requires Valid() && cursor == 0 && s0 == At(Enter(cfg), watermark)
      modifies this`cursor, this`sent, this`malformedPayloadCount, this`watermark, this`attempt, seen, store
      ensures Valid() && Agree(Final(cfg, log, s0, script), Here())
      ensures var control := Final(cfg, log, s0, script).control;
              match end
              case Some(reason) => control == Ended(reason)
              case None => control == Ended(TerminalEvent) || control == Ended(Inactive) || (script == [] && control == Enter(cfg))
    {
      while IsActive()
        invariant Valid() && Synced(s0)
        invariant cursor == 0 || IsActive()
        invariant AtTransport(SpecAt(s0), Enter(cfg), watermark, true)
        decreases |script| - cursor
      {
        var cycle := RunTransportCycleOnce(s0);
        match cycle {
          case Returned(_) =>
            EndedIsFinal(cfg, log, s0, script, cursor, |script|);
            return None;
          case Raised(e) =>
            var handled := HandleCycleError(e, s0);
            if handled.Some? {
              EndedIsFinal(cfg, log, s0, script, cursor, |script|);
              return handled;
            }
        }
      }
      return None;
    }
  }
}
