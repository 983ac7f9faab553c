/**
 * The client's WebSocket and event-stream collectors: listener callbacks put items on a channel,
 * a consumer coroutine takes them off, and the collecting scope waits for the transport to open and
 * then for the consumer. Any thread may take the next step.
 */
module Collector {
  import opened Options
  import opened EventLog
  import opened ClientModel

  const WS_CLOSE_POLICY_VIOLATION := 1008
  const WS_CLOSE_AUTH_POLICY_START := 4400
  const WS_CLOSE_AUTH_POLICY_END := 4499

  datatype Item = Inbound(event: LogEntry) | Ignored | StreamEnd(error: Option<Throwable>)

  datatype Cause = InStream | InHandler | Liveness

  datatype Consumer = Running | Returned | Raised(error: Throwable, cause: Cause) | Aborted

  datatype OpenState = Pending | Open | OpenFailed(error: Throwable)

  /** `result` is the exception the scope ends with, if any. */
  datatype Scope = AwaitingOpen | AwaitingConsumer | Closing(result: Option<Throwable>) | Over(result: Option<Throwable>)

  /**
   * `line` holds the buffered items and then the blocked senders, in order; the callbacks of blocked
   * senders have not returned. `signal` is a stream end that is marked but not sent yet. `offered`
   * and `handed` are the histories of what was put on the channel and what the handler was given.
   */
  datatype State = State(
    line: seq<Item>,
    closed: bool,
    ended: bool,
    signal: Option<Item>,
    openState: OpenState,
    consumer: Consumer,
    scope: Scope,
    wasOpen: bool,
    cancelled: bool,
    offered: seq<Item>,
    handed: seq<LogEntry>)

  const Start := State([], false, false, None, Pending, Running, AwaitingOpen, false, false, [], [])

  datatype Move =
    | OnOpen(subscribeError: Option<Throwable>)
    | OnMessage(message: Item)
    | OnClosing(code: int)
    | OnFailure(failure: Throwable)
    | SendStreamEnd
    | Receive(handlerError: Option<Throwable>)
    | LivenessTimeout
    | OpenThrows(openError: Throwable)
    | OpenTimeout
    | ResumeAfterOpen
    | ResumeAfterConsumer
    | CancelScope
    | CancelConsumer

  /** A channel that is closed refuses items; one that is full makes the sender wait in line. */
  function Offer(s: State, item: Item): State {
    if s.closed then s else s.(line := s.line + [item], offered := s.offered + [item])
  }

  function SignalStreamEnd(s: State, error: Option<Throwable>): State {
    if s.ended then s else s.(ended := true, signal := Some(StreamEnd(error)))
  }

  predicate IsPolicyClose(code: int) {
    code == WS_CLOSE_POLICY_VIOLATION || WS_CLOSE_AUTH_POLICY_START <= code <= WS_CLOSE_AUTH_POLICY_END
  }

  /** The consumer takes the next item. */
  function Take(s: State, item: Item, handlerError: Option<Throwable>): State {
    match item
    case Ignored => s
    case Inbound(event) =>
      s.(handed := s.handed + [event],
         consumer := if handlerError.Some? then Raised(handlerError.value, InHandler)
                     else if event.readable && event.terminal then Returned else Running)
    case StreamEnd(error) => s.(consumer := if error.Some? then Raised(error.value, InStream) else Returned)
  }

  function Fail(s: State, error: Throwable): State {
    s.(closed := true, scope := Closing(Some(error)))
  }

  function Next(s: State, m: Move): State {
    match m
    case OnOpen(error) =>
      var t := s.(openState := if s.openState.Pending? then Open else s.openState);
      if error.Some? then SignalStreamEnd(t, error) else t
    case OnMessage(item) => if item.StreamEnd? then s else Offer(s, item)
    case OnClosing(code) => SignalStreamEnd(s, if IsPolicyClose(code) then Some(PolicyClose(code)) else None)
    case OnFailure(e) =>
      SignalStreamEnd(s.(openState := if s.openState.Pending? then OpenFailed(e) else s.openState), Some(e))
    case SendStreamEnd => if s.signal.None? then s else Offer(s, s.signal.value).(signal := None)
    case Receive(handlerError) =>
      if !s.consumer.Running? then s
      else if s.line == [] then (if s.closed then s.(consumer := Returned) else s)
      else Take(s.(line := s.line[1..]), s.line[0], handlerError)
    case LivenessTimeout =>
      if s.consumer.Running? && s.line == [] && !s.closed then s.(consumer := Raised(Io, Liveness)) else s
    case OpenThrows(e) => if s.scope.AwaitingOpen? then Fail(s, e) else s
    case OpenTimeout => if s.scope.AwaitingOpen? && s.openState.Pending? then Fail(s, Io) else s
    case ResumeAfterOpen =>
      if !s.scope.AwaitingOpen? then s
      else (match s.openState
            case Pending => s
            case Open => s.(scope := AwaitingConsumer, wasOpen := true)
            case OpenFailed(e) => Fail(s, e))
    case ResumeAfterConsumer =>
      if s.consumer.Raised? && (s.scope.AwaitingOpen? || s.scope.AwaitingConsumer?) then Fail(s, s.consumer.error)
      else if s.consumer.Returned? && s.scope.AwaitingConsumer? then s.(closed := true, scope := Closing(None))
      else s
    case CancelScope =>
      if s.scope.AwaitingOpen? || s.scope.AwaitingConsumer? then Fail(s.(cancelled := true), Cancellation) else s
    case CancelConsumer =>
      if s.scope.Closing? then
        s.(consumer := if s.consumer.Running? then Aborted else s.consumer, scope := Over(s.scope.result))
      else s
  }

  function Run(moves: seq<Move>): State {
    if moves == [] then Start else Next(Run(moves[..|moves| - 1]), moves[|moves| - 1])
  }

  // What should be handed over, said without the machine

  predicate Stops(item: Item) {
    item.StreamEnd? || (item.Inbound? && item.event.readable && item.event.terminal)
  }

  /** The events and malformed payloads before the first stream end, up to the first terminal event. */
  function Expected(items: seq<Item>): seq<LogEntry> {
    if items == [] || items[0].StreamEnd? then []
    else if items[0].Ignored? then Expected(items[1..])
    else [items[0].event] + (if Stops(items[0]) then [] else Expected(items[1..]))
  }

  function StreamEnds(items: seq<Item>): nat {
    if items == [] then 0 else StreamEnds(items[..|items| - 1]) + (if items[|items| - 1].StreamEnd? then 1 else 0)
  }

  function Taken(s: State): int {
    |s.offered| - |s.line|
  }

  ghost predicate NoStop(items: seq<Item>) {
    forall i :: 0 <= i < |items| ==> !Stops(items[i])
  }

  /** Items taken without a stop are all handed over, and the rest decides what else is expected. */
  lemma {:induction false} ExpectedSplits(items: seq<Item>, n: nat)
    requires n <= |items| && NoStop(items[..n])
    ensures Expected(items) == Expected(items[..n]) + Expected(items[n..])
    ensures Expected(items[..n]) <= Expected(items)
  {
    if n > 0 {
      assert !Stops(items[..n][0]);
      assert items[..n][1..] == items[1..][..n - 1] && items[1..][n - 1..] == items[n..];
      ExpectedSplits(items[1..], n - 1);
    } else {
      assert items[0..] == items;
    }
  }

  /** What one more item adds to what is expected. */
  lemma {:induction false} ExpectedOfOneMore(items: seq<Item>, n: nat)
    requires n < |items| && NoStop(items[..n])
    ensures items[n].Inbound? ==> Expected(items[..n + 1]) == Expected(items[..n]) + [items[n].event]
    ensures !items[n].Inbound? ==> Expected(items[..n + 1]) == Expected(items[..n])
    ensures Stops(items[n]) ==> Expected(items) == Expected(items[..n + 1])
    ensures !Stops(items[n]) ==> NoStop(items[..n + 1])
  {
    hide Expected, Stops, NoStop;
    var head, x := items[..n + 1], items[n];
    assert head[..n] == items[..n] && head[n..] == [x] && items[n..][0] == x;
    ExpectedSplits(head, n);
    ExpectedSplits(items, n);
    ExpectedOfFirst(items[n..]);
    ExpectedOfFirst([x]);
    assert [x][1..] == [];
    if !Stops(x) { NoStopOneMore(items, n); }
  }

  lemma {:induction false} ExpectedOfFirst(items: seq<Item>)
    requires items != []
    ensures Expected([]) == []
    ensures items[0].StreamEnd? ==> Stops(items[0]) && Expected(items) == []
    ensures items[0].Ignored? ==> !Stops(items[0]) && Expected(items) == Expected(items[1..])
    ensures items[0].Inbound? ==> Expected(items) == [items[0].event] + (if Stops(items[0]) then [] else Expected(items[1..]))
  {
  }

  lemma {:induction false} NoStopOneMore(items: seq<Item>, n: nat)
    requires n < |items| && NoStop(items[..n]) && !Stops(items[n])
    ensures NoStop(items[..n + 1])
  {
    hide Stops;
    var head := items[..n + 1];
    forall i | 0 <= i < |head| ensures !Stops(head[i]) {
      if i < n { assert head[i] == items[..n][i]; }
    }
  }

  /** The last item taken is the first that stops the consumer. */
  ghost predicate Stopped(s: State) {
    var n := Taken(s);
    0 < n <= |s.offered| && NoStop(s.offered[..n - 1]) && Stops(s.offered[n - 1])
  }

  ghost predicate StoppedCleanly(s: State) {
    Stopped(s) && (s.offered[Taken(s) - 1].StreamEnd? ==> s.offered[Taken(s) - 1] == StreamEnd(None))
  }

  /** What the consumer has done with the items it took. */
  ghost predicate Faithful(s: State) {
    var n := Taken(s);
    && 0 <= n <= |s.offered|
    && s.line == s.offered[n..]
    && s.handed == Expected(s.offered[..n])
    && (match s.consumer
        case Running => NoStop(s.offered[..n])
        case Aborted => NoStop(s.offered[..n])
        case Returned =>
          || StoppedCleanly(s)
          || (s.closed && n == |s.offered| && NoStop(s.offered))
        case Raised(e, InStream) => Stopped(s) && s.offered[n - 1] == StreamEnd(Some(e))
        case Raised(_, InHandler) => 0 < n && NoStop(s.offered[..n - 1]) && s.offered[n - 1].Inbound?
        case Raised(e, Liveness) => e == Io && NoStop(s.offered[..n]))
  }

  ghost predicate SignalledOnce(s: State) {
    && StreamEnds(s.offered) + (if s.signal.Some? then 1 else 0) <= (if s.ended then 1 else 0)
    && (s.signal.Some? ==> s.signal.value.StreamEnd?)
  }

  /** How the collecting scope ends once the transport was open. */
  ghost predicate ScopeFollows(s: State) {
    && (s.closed <==> s.scope.Closing? || s.scope.Over?)
    && (s.scope.AwaitingConsumer? ==> s.wasOpen)
    && (s.scope.AwaitingOpen? ==> !s.wasOpen)
    && (s.cancelled ==> s.closed)
    && (s.closed && s.wasOpen ==>
          if s.cancelled then s.scope.result == Some(Cancellation)
          else if s.scope.result.None? then s.consumer.Returned? && StoppedCleanly(s)
          else s.consumer.Raised? && s.consumer.error == s.scope.result.value)
  }

  lemma {:induction false} OfferKeeps(s: State, item: Item)
    requires Faithful(s)
    ensures Faithful(Offer(s, item))
    ensures StoppedCleanly(s) ==> StoppedCleanly(Offer(s, item))
    ensures StreamEnds(Offer(s, item).offered) <= StreamEnds(s.offered) + (if item.StreamEnd? then 1 else 0)
  {
    if !s.closed {
      var n, t := Taken(s), Offer(s, item);
      assert t.offered[n..] == s.offered[n..] + [item];
      assert t.offered[..n] == s.offered[..n];
      assert n > 0 ==> t.offered[..n - 1] == s.offered[..n - 1];
      assert t.offered[..|t.offered| - 1] == s.offered;
      hide Expected, NoStop;
    }
  }

  lemma {:induction false} ReceiveKeeps(s: State, handlerError: Option<Throwable>)
    requires Faithful(s)
    ensures Faithful(Next(s, Receive(handlerError)))
  {
    hide Expected, NoStop;
    if s.consumer.Running? {
      var n := Taken(s);
      if s.line == [] {
        assert s.offered[..n] == s.offered;
      } else {
        TakeKeeps(s, n, handlerError);
      }
    }
  }

  lemma {:induction false} TakeKeeps(s: State, n: nat, handlerError: Option<Throwable>)
    requires Faithful(s) && s.consumer.Running? && n == Taken(s) && s.line != []
    ensures Faithful(Take(s.(line := s.line[1..]), s.line[0], handlerError))
  {
    hide Expected, NoStop;
    assert s.line[0] == s.offered[n] && s.line[1..] == s.offered[n + 1..];
    ExpectedOfOneMore(s.offered, n);
    var t := Take(s.(line := s.line[1..]), s.line[0], handlerError);
    assert Taken(t) == n + 1 && t.offered == s.offered;
    hide Taken;
  }

  /** A move that leaves the channel and the consumer alone. */
  lemma {:induction false} OthersKeep(s: State, t: State)
    requires Faithful(s) && t.line == s.line && t.offered == s.offered && t.handed == s.handed && t.consumer == s.consumer
    requires s.closed ==> t.closed
    ensures Faithful(t)
  {
    hide Expected, NoStop, Stops;
  }

  lemma {:induction false} TimeoutKeeps(s: State)
    requires Faithful(s) && s.consumer.Running?
    ensures Faithful(s.(consumer := Raised(Io, Liveness))) && Faithful(s.(consumer := Aborted))
  {
    hide Expected, NoStop, Stops;
  }

  lemma {:induction false} NextKeepsFaithful(s: State, m: Move)
    requires Faithful(s)
    ensures Faithful(Next(s, m))
  {
    hide Faithful, IsPolicyClose, Take, Offer;
    var t := Next(s, m);
    match m
    case OnMessage(item) => OfferKeeps(s, item);
    case SendStreamEnd =>
      if s.signal.Some? {
        OfferKeeps(s, s.signal.value);
        OthersKeep(Offer(s, s.signal.value), t);
      }
    case Receive(handlerError) => ReceiveKeeps(s, handlerError);
    case LivenessTimeout => if s.consumer.Running? { TimeoutKeeps(s); }
    case CancelConsumer =>
      if s.consumer.Running? {
        TimeoutKeeps(s);
        if s.scope.Closing? { OthersKeep(s.(consumer := Aborted), t); }
      } else {
        OthersKeep(s, t);
      }
    case _ => OthersKeep(s, t);
  }

  lemma {:induction false} NextKeepsSignals(s: State, m: Move)
    requires Faithful(s) && SignalledOnce(s)
    ensures SignalledOnce(Next(s, m))
  {
    hide Faithful, IsPolicyClose, StreamEnds;
    match m
    case OnMessage(item) => OfferKeeps(s, item);
    case SendStreamEnd => if s.signal.Some? { OfferKeeps(s, s.signal.value); }
    case _ =>
  }

  /** A consumer that returned while the channel was still open had a clean stop. */
  lemma {:induction false} ReturnedCleanly(s: State)
    requires Faithful(s) && s.consumer.Returned? && !s.closed
    ensures StoppedCleanly(s)
  {
    hide Expected, NoStop, Stops;
  }

  lemma {:induction false} CleanStays(s: State, t: State)
    requires StoppedCleanly(s) && t.line == s.line && t.offered == s.offered
    ensures StoppedCleanly(t)
  {
    hide Expected, NoStop, Stops;
  }

  lemma {:induction false} NextKeepsScope(s: State, m: Move)
    requires Faithful(s) && ScopeFollows(s)
    ensures ScopeFollows(Next(s, m))
  {
    hide Faithful, IsPolicyClose, StoppedCleanly;
    var t := Next(s, m);
    if t.line == s.line && t.offered == s.offered {
      if s.consumer.Returned? && !s.closed { ReturnedCleanly(s); }
      if StoppedCleanly(s) { CleanStays(s, t); }
    }
  }

  lemma {:induction false} StartIsFine()
    ensures Faithful(Start) && SignalledOnce(Start) && ScopeFollows(Start)
  {
    assert Start.offered[0..] == [] && Start.offered[..0] == [];
  }

  lemma {:induction false} RunStep(moves: seq<Move>)
    ensures Run([]) == Start
    ensures moves != [] ==> Run(moves) == Next(Run(moves[..|moves| - 1]), moves[|moves| - 1])
  {
    hide Next;
  }

  lemma {:induction false} RunKeeps(moves: seq<Move>)
    ensures Faithful(Run(moves)) && SignalledOnce(Run(moves)) && ScopeFollows(Run(moves))
  {
    hide *;
    RunStep(moves);
    if moves == [] {
      StartIsFine();
    } else {
      RunKeeps(moves[..|moves| - 1]);
      var s, m := Run(moves[..|moves| - 1]), moves[|moves| - 1];
      NextKeepsFaithful(s, m);
      NextKeepsSignals(s, m);
      NextKeepsScope(s, m);
    }
  }

  /**
   * For any interleaving: the handler gets, in order, the items put on the channel before the stream
   * end, up to the first terminal event; all of them once the consumer has returned or thrown the
   * stream's error. At most one stream end is ever put on the channel.
   */
  lemma {:induction false} HandsOverInOrder(moves: seq<Move>)
    ensures var s := Run(moves);
      && s.handed <= Expected(s.offered)
      && (s.consumer.Returned? || (s.consumer.Raised? && s.consumer.cause.InStream?) ==> s.handed == Expected(s.offered))
      && StreamEnds(s.offered) <= 1
  {
    var s := Run(moves);
    RunKeeps(moves);
    var n := Taken(s);
    if Stopped(s) {
      ExpectedOfOneMore(s.offered, n - 1);
    } else {
      NothingStopped(s);
      if n == |s.offered| { assert s.offered[..n] == s.offered; }
    }
    hide Run, Expected, NoStop;
  }

  lemma {:induction false} NothingStopped(s: State)
    requires Faithful(s) && !Stopped(s)
    ensures s.handed <= Expected(s.offered)
  {
    var n := Taken(s);
    if NoStop(s.offered[..n]) {
      ExpectedSplits(s.offered, n);
    } else {
      ExpectedOfOneMore(s.offered, n - 1);
    }
  }

  // What the callbacks must put on the channel, said without the machine

  /** The stream end a callback asks for: none at all, a clean one, or one with an error. */
  datatype Asked = Nothing | CleanEnd | EndWith(error: Throwable)

  function Ending(m: Move): Asked {
    match m
    case OnOpen(subscribeError) => if subscribeError.Some? then EndWith(subscribeError.value) else Nothing
    case OnClosing(code) => if code == 1008 || 4400 <= code <= 4499 then EndWith(PolicyClose(code)) else CleanEnd
    case OnFailure(failure) => EndWith(failure)
    case _ => Nothing
  }

  /** What the first of these callbacks asked for. */
  function FirstEnding(moves: seq<Move>): Asked {
    if moves == [] then Nothing
    else
      var before := FirstEnding(moves[..|moves| - 1]);
      if before != Nothing then before else Ending(moves[|moves| - 1])
  }

  /** The item that reports it. */
  function ItemFor(asked: Asked): Item {
    StreamEnd(if asked.EndWith? then Some(asked.error) else None)
  }

  /** The messages the callbacks were given, in order. */
  function Messages(moves: seq<Move>): seq<Item> {
    if moves == [] then []
    else
      var last := moves[|moves| - 1];
      Messages(moves[..|moves| - 1]) + (if last.OnMessage? && !last.message.StreamEnd? then [last.message] else [])
  }

  function WithoutEnds(items: seq<Item>): seq<Item> {
    if items == [] then []
    else
      var last := items[|items| - 1];
      WithoutEnds(items[..|items| - 1]) + (if last.StreamEnd? then [] else [last])
  }

  ghost predicate EndsAsAsked(items: seq<Item>, asked: Asked) {
    forall i :: 0 <= i < |items| && items[i].StreamEnd? ==> asked != Nothing && items[i] == ItemFor(asked)
  }

  /** What was signalled, and what is on the channel, is what the callbacks asked for. */
  ghost predicate Reported(s: State, moves: seq<Move>) {
    && (s.ended <==> FirstEnding(moves) != Nothing)
    && (s.signal.Some? ==> FirstEnding(moves) != Nothing && s.signal.value == ItemFor(FirstEnding(moves)))
    && EndsAsAsked(s.offered, FirstEnding(moves))
    && WithoutEnds(s.offered) <= Messages(moves)
    && (!s.closed ==> WithoutEnds(s.offered) == Messages(moves))
    && (FirstEnding(moves) != Nothing && !s.closed && s.signal.None? ==> ItemFor(FirstEnding(moves)) in s.offered)
  }

  lemma {:induction false} OfferReports(s: State, item: Item)
    ensures WithoutEnds(Offer(s, item).offered) == if s.closed || item.StreamEnd? then WithoutEnds(s.offered) else WithoutEnds(s.offered) + [item]
    ensures !s.closed ==> item in Offer(s, item).offered
  {
    if !s.closed {
      assert (s.offered + [item])[..|s.offered|] == s.offered;
      assert (s.offered + [item])[|s.offered|] == item;
    }
  }

  lemma {:induction false} OfferKeepsEnds(s: State, item: Item, asked: Asked)
    requires EndsAsAsked(s.offered, asked) && (item.StreamEnd? ==> asked != Nothing && item == ItemFor(asked))
    ensures EndsAsAsked(Offer(s, item).offered, asked)
    ensures ItemFor(asked) in s.offered ==> ItemFor(asked) in Offer(s, item).offered
  {
  }

  /** How one more move changes what was asked for. */
  lemma {:induction false} OneMoreMove(moves: seq<Move>, m: Move)
    ensures FirstEnding(moves + [m]) == if FirstEnding(moves) != Nothing then FirstEnding(moves) else Ending(m)
    ensures Messages(moves + [m]) == Messages(moves) + (if m.OnMessage? && !m.message.StreamEnd? then [m.message] else [])
  {
    assert (moves + [m])[..|moves|] == moves;
    hide Ending;
  }

  /** A move that puts nothing on the channel at most signals the stream end its callback asks for. */
  lemma {:induction false} QuietMoves(s: State, m: Move)
    requires !m.OnMessage? && !m.SendStreamEnd?
    ensures var t := Next(s, m);
      && t.offered == s.offered && (s.closed ==> t.closed)
      && t.ended == (s.ended || Ending(m) != Nothing)
      && t.signal == (if s.ended || Ending(m) == Nothing then s.signal else Some(ItemFor(Ending(m))))
  {
    hide Offer, Next, Ending, SignalStreamEnd;
    if m.OnOpen? || m.OnClosing? || m.OnFailure? { EndingMoves(s, m); } else { OtherMoves(s, m); }
  }

  lemma {:induction false} EndingMoves(s: State, m: Move)
    requires m.OnOpen? || m.OnClosing? || m.OnFailure?
    ensures var t := Next(s, m);
      && t.offered == s.offered && t.closed == s.closed && t.ended == (s.ended || Ending(m) != Nothing)
      && t.signal == (if s.ended || Ending(m) == Nothing then s.signal else Some(ItemFor(Ending(m))))
  {
    hide Offer, Take, Fail;
  }

  lemma {:induction false} OtherMoves(s: State, m: Move)
    requires !m.OnMessage? && !m.SendStreamEnd? && !m.OnOpen? && !m.OnClosing? && !m.OnFailure?
    ensures Ending(m) == Nothing
    ensures var t := Next(s, m); t.offered == s.offered && (s.closed ==> t.closed) && t.ended == s.ended && t.signal == s.signal
  {
    hide Offer, SignalStreamEnd, IsPolicyClose;
  }

  lemma {:induction false} NextReports(s: State, moves: seq<Move>, m: Move)
    requires Reported(s, moves)
    ensures Reported(Next(s, m), moves + [m])
  {
    hide WithoutEnds, FirstEnding, Messages, Offer, Ending, Next, EndsAsAsked;
    OneMoreMove(moves, m);
    if m.OnMessage? || m.SendStreamEnd? {
      NoEnding(m);
      OfferingMoves(s, m);
      if m.OnMessage? && !m.message.StreamEnd? {
        OfferReports(s, m.message);
        OfferKeepsEnds(s, m.message, FirstEnding(moves));
      }
      if s.signal.Some? {
        OfferReports(s, s.signal.value);
        OfferKeepsEnds(s, s.signal.value, FirstEnding(moves));
      }
    } else {
      QuietMoves(s, m);
      if FirstEnding(moves) == Nothing { NoEndsYet(s.offered, Ending(m)); }
    }
  }

  lemma {:induction false} NoEndsYet(items: seq<Item>, asked: Asked)
    requires EndsAsAsked(items, Nothing)
    ensures EndsAsAsked(items, asked)
  {
  }

  lemma {:induction false} NoEnding(m: Move)
    ensures m.OnMessage? || m.SendStreamEnd? ==> Ending(m) == Nothing
  {
  }

  lemma {:induction false} OfferingMoves(s: State, m: Move)
    ensures m.OnMessage? ==> Next(s, m) == if m.message.StreamEnd? then s else Offer(s, m.message)
    ensures m.OnMessage? ==> Offer(s, m.message).(line := s.line, offered := s.offered) == s
    ensures m.SendStreamEnd? ==> Next(s, m) == if s.signal.None? then s else Offer(s, s.signal.value).(signal := None)
    ensures s.signal.Some? ==> Offer(s, s.signal.value).(line := s.line, offered := s.offered) == s
  {
  }

  /**
   * Whatever happens, the messages on the channel are those the callbacks were given, in order and
   * none missing while it is open, and the only stream end ever signalled or put on it is the one
   * that the first ending callback asked for.
   */
  lemma {:induction false} ReportsTheFirstEnding(moves: seq<Move>)
    ensures Reported(Run(moves), moves)
  {
    hide Next;
    if moves != [] {
      ReportsTheFirstEnding(moves[..|moves| - 1]);
      NextReports(Run(moves[..|moves| - 1]), moves[..|moves| - 1], moves[|moves| - 1]);
      assert moves[..|moves| - 1] + [moves[|moves| - 1]] == moves;
    }
  }

  /** Some event handed over is terminal. */
  ghost predicate SawTerminalEvent(handed: seq<LogEntry>) {
    exists e :: e in handed && e.readable && e.terminal
  }

  /**
   * Once the transport was open the scope ends without an exception only after a terminal event or
   * because the first ending callback was a clean close, with every item before that handed over; an
   * exception of the stream is the one that the first ending callback asked for, and surfaces only
   * after every item before it was handed over. A scope cancelled from outside ends with the
   * cancellation.
   */
  lemma {:induction false} OpenedScopeEnds(moves: seq<Move>)
    requires Run(moves).scope.Over? && Run(moves).wasOpen
    ensures var s := Run(moves);
      match s.scope.result
      case None =>
        && !s.cancelled && StoppedCleanly(s) && s.handed == Expected(s.offered)
        && (SawTerminalEvent(s.handed) || FirstEnding(moves) == CleanEnd)
      case Some(e) =>
        if s.cancelled then e == Cancellation
        else
          && s.consumer.Raised? && s.consumer.error == e
          && (s.consumer.cause.InStream? ==> FirstEnding(moves) == EndWith(e) && StreamEnd(Some(e)) in s.offered && s.handed == Expected(s.offered))
          && (s.consumer.cause.Liveness? ==> e == Io)
  {
    RunKeeps(moves);
    HandsOverInOrder(moves);
    ReportsTheFirstEnding(moves);
    var s := Run(moves);
    if s.scope.result.None? && s.offered[Taken(s) - 1].Inbound? { StoppedByTerminal(s); }
    hide Run, Expected, NoStop, FirstEnding, Messages, WithoutEnds;
  }

  lemma {:induction false} StoppedByTerminal(s: State)
    requires Faithful(s) && Stopped(s) && s.offered[Taken(s) - 1].Inbound?
    ensures SawTerminalEvent(s.handed)
  {
    var n := Taken(s);
    ExpectedOfOneMore(s.offered, n - 1);
    assert s.handed[|s.handed| - 1] == s.offered[n - 1].event;
  }

  // How a scope ends whose transport never opened

  /** The transport opened, or failed to: whichever a callback reported first. */
  function FirstOpening(moves: seq<Move>): OpenState {
    if moves == [] then Pending
    else
      var before, last := FirstOpening(moves[..|moves| - 1]), moves[|moves| - 1];
      if before != Pending then before
      else if last.OnOpen? then Open
      else if last.OnFailure? then OpenFailed(last.failure)
      else Pending
  }

  /** The errors with which waiting for the transport can fail. */
  ghost predicate OpeningFails(s: State, moves: seq<Move>, e: Throwable) {
    || OpenThrows(e) in moves
    || (OpenTimeout in moves && e == Io)
    || OnFailure(e) in moves
    || (s.consumer.Raised? && s.consumer.error == e)
  }

  ghost predicate OpensOrFails(s: State, moves: seq<Move>) {
    && s.openState == FirstOpening(moves)
    && (s.openState.OpenFailed? ==> OnFailure(s.openState.error) in moves)
    && (s.wasOpen ==> s.openState.Open?)
    && ((s.scope.Closing? || s.scope.Over?) && !s.wasOpen ==>
          s.scope.result.Some? && if s.cancelled then s.scope.result.value == Cancellation else OpeningFails(s, moves, s.scope.result.value))
  }

  lemma {:induction false} StartOpensOrFails()
    ensures OpensOrFails(Start, [])
  {
  }

  lemma {:induction false} NextOpensOrFails(s: State, moves: seq<Move>, m: Move)
    requires OpensOrFails(s, moves) && ScopeFollows(s)
    ensures OpensOrFails(Next(s, m), moves + [m])
  {
    hide StoppedCleanly, IsPolicyClose, Offer, Take, Next;
    var all := moves + [m];
    assert all[..|moves|] == moves;
    assert forall x: Move :: x in moves ==> x in all;
    assert m == all[|moves|];
    OthersUntouched(s, m);
    ScopeMoves(s, m);
  }

  /** What each move does to opening and scope. */
  lemma {:induction false} ScopeMoves(s: State, m: Move)
    requires ScopeFollows(s)
    ensures var t := Next(s, m);
      && t.openState == (if s.openState != Pending then s.openState
                         else if m.OnOpen? then Open else if m.OnFailure? then OpenFailed(m.failure) else Pending)
      && (t.wasOpen ==> s.wasOpen || s.openState.Open?)
      && ((t.scope.Closing? || t.scope.Over?) && !t.wasOpen ==>
            || ((s.scope.Closing? || s.scope.Over?) && !s.wasOpen && t.scope.result == s.scope.result && t.cancelled == s.cancelled
                && (s.consumer.Raised? ==> t.consumer == s.consumer))
            || (t.cancelled && t.scope.result == Some(Cancellation))
            || (!t.cancelled && t.scope.result.Some?
                && var e := t.scope.result.value;
                   || m == OpenThrows(e) || (m == OpenTimeout && e == Io) || s.openState == OpenFailed(e)
                   || (t.consumer == s.consumer && s.consumer.Raised? && s.consumer.error == e)))
  {
    hide StoppedCleanly, IsPolicyClose, Offer, Take;
    OthersUntouched(s, m);
  }

  lemma {:induction false} OthersUntouched(s: State, m: Move)
    ensures m.Receive? || m.SendStreamEnd? || m.OnMessage? || m.LivenessTimeout? ==>
      var t := Next(s, m);
      t.openState == s.openState && t.scope == s.scope && t.closed == s.closed && t.wasOpen == s.wasOpen && t.cancelled == s.cancelled
      && (s.consumer.Raised? ==> t.consumer == s.consumer)
  {
  }

  /**
   * A scope whose transport never opened always ends with an exception: the cancellation, or what
   * opening threw, the open timeout, the failure reported, or the consumer's own error. It has seen
   * the transport open only if that was what a callback reported first.
   */
  lemma {:induction false} UnopenedScopeFails(moves: seq<Move>)
    ensures OpensOrFails(Run(moves), moves)
  {
    hide *;
    RunStep(moves);
    if moves == [] {
      StartOpensOrFails();
    } else {
      var init := moves[..|moves| - 1];
      UnopenedScopeFails(init);
      RunKeeps(init);
      NextOpensOrFails(Run(init), init, moves[|moves| - 1]);
      assert init + [moves[|moves| - 1]] == moves;
    }
  }

  // What ends the waiting, and what cannot

  /**
   * In every reachable state: the wait for the transport ends with what opening throws, by the open
   * timeout exactly while no callback has reported anything, and goes on exactly when one has; an
   * error of the consumer ends either wait with that error.
   */
  lemma {:induction false} WaitsEndWhenDue(moves: seq<Move>, e: Throwable)
    ensures var s, opening := Run(moves), FirstOpening(moves);
      && (s.scope.AwaitingOpen? ==>
            && Next(s, OpenThrows(e)).scope == Closing(Some(e))
            && (Next(s, OpenTimeout).scope == Closing(Some(Io)) <==> opening == Pending)
            && (Next(s, ResumeAfterOpen).scope == AwaitingConsumer <==> opening == Open)
            && (opening == OpenFailed(e) ==> Next(s, ResumeAfterOpen).scope == Closing(Some(e))))
      && (!s.scope.AwaitingOpen? ==> Next(s, OpenThrows(e)) == s && Next(s, OpenTimeout) == s)
      && ((s.scope.AwaitingOpen? || s.scope.AwaitingConsumer?) && s.consumer.Raised? ==>
            Next(s, ResumeAfterConsumer).scope == Closing(Some(s.consumer.error)))
  {
    UnopenedScopeFails(moves);
    hide Run, FirstOpening, OpeningFails;
  }

  /**
   * The liveness timeout fires exactly while the consumer waits on an open channel with everything on
   * it handed over; on a closed one the consumer returns instead.
   */
  lemma {:induction false} TimesOutOnlyWhenIdle(moves: seq<Move>, handlerError: Option<Throwable>)
    ensures var s := Run(moves);
      s.consumer.Running? ==>
        && (Next(s, LivenessTimeout).consumer == Raised(Io, Liveness) <==> s.handed == Expected(s.offered) && !s.closed && Taken(s) == |s.offered|)
        && (s.closed && Taken(s) == |s.offered| ==> Next(s, Receive(handlerError)).consumer == Returned)
  {
    RunKeeps(moves);
    var s := Run(moves);
    hide Run, Expected, NoStop;
    if s.line == [] { assert s.offered[..|s.offered|] == s.offered; }
  }

  lemma {:induction false} RaisedIsFinal(s: State, m: Move)
    requires s.consumer.Raised?
    ensures Next(s, m).consumer == s.consumer && Next(s, m).handed == s.handed
  {
    hide IsPolicyClose, Take;
  }

  lemma {:induction false} RaisedStays(first: seq<Move>, later: seq<Move>)
    requires Run(first).consumer.Raised?
    ensures Run(first + later).consumer == Run(first).consumer && Run(first + later).handed == Run(first).handed
  {
    hide Next;
    if later == [] {
      assert first + later == first;
    } else {
      var init, last := later[..|later| - 1], later[|later| - 1];
      RaisedStays(first, init);
      RaisedIsFinal(Run(first + init), last);
      assert (first + later)[..|first + later| - 1] == first + init;
    }
  }

  /**
   * An error of the handler is final: no event is handed over after the one it threw on, and the
   * scope, once the transport was open and unless it is cancelled, ends with that error.
   */
  lemma {:induction false} HandlerErrorEndsTheScope(moves: seq<Move>, e: Throwable, later: seq<Move>)
    requires Run(moves + [Receive(Some(e))]).handed != Run(moves).handed
    ensures var s := Run(moves + [Receive(Some(e))] + later);
      && s.handed == Run(moves + [Receive(Some(e))]).handed
      && (s.scope.Over? && s.wasOpen && !s.cancelled ==> s.scope.result == Some(e))
  {
    hide Run, Next, Faithful, SignalledOnce, StoppedCleanly;
    var all := moves + [Receive(Some(e))];
    assert all[..|all| - 1] == moves && all[|all| - 1] == Receive(Some(e));
    RunStep(all);
    HandlerRaises(Run(moves), e);
    RaisedStays(all, later);
    var s := Run(all + later);
    RunKeeps(all + later);
  }

  lemma {:induction false} HandlerRaises(s: State, e: Throwable)
    requires Next(s, Receive(Some(e))).handed != s.handed
    ensures Next(s, Receive(Some(e))).consumer == Raised(e, InHandler)
  {
  }
}
