/**
 * The server loops that serve one subscriber: WebSocket, server-sent events and polling. Other
 * writers append to the stream before any read; the connection may go away at any frame.
 */
module ServerLoops {
  import opened Options
  import opened EventLog
  import opened EventStream

  const TERMINAL_CLOSE := 1000
  const INVALID_FRAME_CLOSE := 1008

  /** What has reached a subscriber: newer events in order, and `whole` when none is missing. */
  ghost predicate Delivered(log: seq<LogEntry>, start: Option<EventId>, sent: seq<LogEntry>, whole: bool) {
    InOrder(log, start, sent) && (whole ==> Served(log, start, sent))
  }

  ghost predicate HasTerminal(events: seq<LogEntry>) {
    exists i :: 0 <= i < |events| && events[i].terminal
  }

  lemma {:induction false} NothingDelivered(log: seq<LogEntry>, start: Option<EventId>)
    ensures Delivered(log, start, [], true) && Cursor(start, []) == start && !HasTerminal([])
  {
  }

  lemma {:induction false} DeliveredGrows(log: seq<LogEntry>, grown: seq<LogEntry>, start: Option<EventId>, sent: seq<LogEntry>, whole: bool)
    requires Increasing(grown) && log <= grown && Delivered(log, start, sent, whole)
    ensures Delivered(grown, start, sent, whole)
  {
    assert grown == log + grown[|log|..];
    if whole { ServedGrows(log, grown[|log|..], start, sent); }
  }

  lemma {:induction false} PrefixDelivered(log: seq<LogEntry>, start: Option<EventId>, batch: seq<LogEntry>, whole: bool, n: nat)
    requires Delivered(log, start, batch, whole) && n <= |batch|
    ensures Delivered(log, start, batch[..n], whole)
  {
    assert forall e :: e in batch[..n] ==> e in batch;
    var p := Pos(log, start);
    if whole { assert log[p..p + |batch|][..n] == log[p..p + n]; }
  }

  /** However much of the next batch gets through, what was delivered stays in order, and whole if every read was. */
  lemma {:induction false} DeliverMore(log: seq<LogEntry>, grown: seq<LogEntry>, start: Option<EventId>, sent: seq<LogEntry>, whole: bool,
                     batch: seq<LogEntry>, batchWhole: bool, n: nat)
    requires Increasing(grown) && log <= grown && n <= |batch|
    requires Delivered(log, start, sent, whole) && Delivered(grown, Cursor(start, sent), batch, batchWhole)
    ensures Delivered(grown, start, sent + batch[..n], whole && batchWhole)
  {
    DeliveredGrows(log, grown, start, sent, whole);
    PrefixDelivered(grown, Cursor(start, sent), batch, batchWhole, n);
    OrderedBatchesJoin(grown, start, sent, batch[..n]);
    if whole && batchWhole { BatchesJoin(log, grown, start, sent, batch[..n]); }
    hide InOrder, Served, Increasing, Cursor;
  }

  /** Appends by other writers, then one read: the wait for live events. */
  method WaitForLiveEvents(stream: RedisStream, after: Option<EventId>, limit: int, appends: seq<Append>) returns (events: seq<LogEntry>)
    requires stream.Valid()
    modifies stream
    ensures stream.Valid() && Increasing(stream.full) && old(stream.full) <= stream.full
    ensures |stream.full| == |old(stream.full)| + |appends|
    ensures old(stream.overruns) <= stream.overruns
    ensures Delivered(stream.full, after, events, stream.overruns == old(stream.overruns))
    ensures |events| < limit ==> Pos(stream.entries, Cursor(after, events)) == |stream.entries|
    ensures |events| < limit && stream.overruns == old(stream.overruns) ==> Pos(stream.full, Cursor(after, events)) == |stream.full|
    ensures |events| <= limit || events == []
  {
    hide InOrder, Served, Holds, Increasing, Pos, Cursor;
    stream.AppendAll(appends);
    events := stream.ReadEventsAfter(after, limit);
    HeldEntries(stream.entries, stream.full, stream.lastId, stream.maxLength);
  }

  /** The reader has everything the stream retains; if no read overran, everything ever appended. */
  ghost predicate CaughtUp(stream: RedisStream, start: Option<EventId>, sent: seq<LogEntry>, overrunsBefore: nat)
    reads stream
  {
    && Pos(stream.entries, Cursor(start, sent)) == |stream.entries|
    && (stream.overruns == overrunsBefore ==> Pos(stream.full, Cursor(start, sent)) == |stream.full|)
  }

  /** `DeliverMore` for every prefix of a batch, with the cursor and the terminal events after it. */
  lemma {:induction false} Batch(log: seq<LogEntry>, grown: seq<LogEntry>, start: Option<EventId>, sent: seq<LogEntry>, whole: bool,
               batch: seq<LogEntry>, batchWhole: bool)
    requires Increasing(grown) && log <= grown
    requires Delivered(log, start, sent, whole) && Delivered(grown, Cursor(start, sent), batch, batchWhole)
    ensures forall n :: 0 <= n <= |batch| ==> Delivered(grown, start, sent + batch[..n], whole && batchWhole)
    ensures Cursor(start, sent + batch[..|batch|]) == Cursor(Cursor(start, sent), batch)
    ensures Cursor(start, sent + batch) == if batch == [] then Cursor(start, sent) else Some(batch[|batch| - 1].id)
    ensures HasTerminal(sent + batch) <==> HasTerminal(sent) || HasTerminal(batch)
    ensures batch[..|batch|] == batch && batch[..0] == [] && sent + [] == sent
  {
    hide Delivered, Increasing;
    forall n | 0 <= n <= |batch| ensures Delivered(grown, start, sent + batch[..n], whole && batchWhole) {
      DeliverMore(log, grown, start, sent, whole, batch, batchWhole, n);
    }
    assert forall i :: 0 <= i < |batch| ==> (sent + batch)[|sent| + i] == batch[i];
    assert forall i :: 0 <= i < |sent| ==> (sent + batch)[i] == sent[i];
  }

  /** The state of a loop that has sent `sent` since the stream was at `fullBefore`. */
  ghost predicate Serving(stream: RedisStream, start: Option<EventId>, sent: seq<LogEntry>, after: Option<EventId>,
                          fullBefore: seq<LogEntry>, overrunsBefore: nat)
    reads stream
  {
    && stream.Valid() && fullBefore <= stream.full && overrunsBefore <= stream.overruns
    && Delivered(stream.full, start, sent, stream.overruns == overrunsBefore)
    && after == Cursor(start, sent)
  }

  lemma {:induction false} StartServing(stream: RedisStream, start: Option<EventId>)
    requires stream.Valid()
    ensures Serving(stream, start, [], start, stream.full, stream.overruns)
  {
  }

  lemma {:induction false} ServingMeans(stream: RedisStream, start: Option<EventId>, sent: seq<LogEntry>, after: Option<EventId>,
                      fullBefore: seq<LogEntry>, overrunsBefore: nat)
    requires Serving(stream, start, sent, after, fullBefore, overrunsBefore)
    ensures stream.Valid() && fullBefore <= stream.full && after == Cursor(start, sent) && overrunsBefore <= stream.overruns
    ensures Delivered(stream.full, start, sent, stream.overruns == overrunsBefore)
  {
    hide Delivered;
  }

  /** One wait of a serving loop: it stays in order however many events of the batch get through. */
  method NextBatch(stream: RedisStream, after: Option<EventId>, limit: int, appends: seq<Append>,
                   ghost start: Option<EventId>, ghost sent: seq<LogEntry>, ghost fullBefore: seq<LogEntry>, ghost overrunsBefore: nat)
    returns (live: seq<LogEntry>)
    requires Serving(stream, start, sent, after, fullBefore, overrunsBefore)
    modifies stream
    ensures |stream.full| == |old(stream.full)| + |appends|
    ensures forall n :: 0 <= n <= |live| ==>
      Serving(stream, start, sent + live[..n], Cursor(start, sent + live[..n]), fullBefore, overrunsBefore)
    ensures Serving(stream, start, sent + live, Cursor(start, sent + live), fullBefore, overrunsBefore)
    ensures Cursor(start, sent + live) == if live == [] then after else Some(live[|live| - 1].id)
    ensures |live| >= limit || CaughtUp(stream, start, sent + live, overrunsBefore)
    ensures live[..|live|] == live && live[..0] == [] && sent + [] == sent
    ensures HasTerminal(sent + live) <==> HasTerminal(sent) || HasTerminal(live)
  {
    hide Delivered, Cursor, Pos, HasTerminal;
    ghost var log, whole, before := stream.full, stream.overruns == overrunsBefore, stream.overruns;
    live := WaitForLiveEvents(stream, after, limit, appends);
    Batch(log, stream.full, start, sent, whole, live, stream.overruns == before);
  }

  // WebSocket

  datatype Frame = Confirmed(startedAfter: Option<EventId>) | Beat | Comment | TaskFrame(event: LogEntry)

  datatype SocketEnd = ClosedBy(code: int) | Disconnected | StillServing

  /** The number of events the other writers append. */
  function Total(ticks: seq<seq<Append>>): nat {
    if ticks == [] then 0 else Total(ticks[..|ticks| - 1]) + |ticks[|ticks| - 1]|
  }

  lemma {:induction false} NoTicks(ticks: seq<seq<Append>>)
    ensures Total(ticks[..0]) == 0
  {
  }

  lemma {:induction false} TotalOfOneMore(ticks: seq<seq<Append>>, i: nat)
    requires i < |ticks|
    ensures Total(ticks[..i + 1]) == Total(ticks[..i]) + |ticks[i]|
  {
    assert ticks[..i + 1][..i] == ticks[..i];
  }

  /** The events among the frames, in order. */
  function Events(frames: seq<Frame>): seq<LogEntry> {
    if frames == [] then []
    else Events(frames[..|frames| - 1]) + (if frames[|frames| - 1].TaskFrame? then [frames[|frames| - 1].event] else [])
  }

  lemma {:induction false} NothingSent()
    ensures Events([]) == [] && !HasTerminal([]) && [][..0] == Events([])
  {
  }

  lemma {:induction false} EventsOfOneMore(frames: seq<Frame>, f: Frame)
    ensures Events(frames + [f]) == if f.TaskFrame? then Events(frames) + [f.event] else Events(frames)
  {
    assert (frames + [f])[..|frames|] == frames;
  }

  /** Sends a whole batch unless the socket goes away: only `capacity` frames get through. */
  method SendEventsAndCheckTerminal(frames: seq<Frame>, events: seq<LogEntry>, capacity: nat)
    returns (out: seq<Frame>, terminalSeen: bool, up: bool)
    requires 0 < |frames| <= capacity
    ensures |frames| <= |out| <= capacity && |out| - |frames| <= |events| && out[0] == frames[0]
    ensures Events(out) == Events(frames) + events[..|out| - |frames|]
    ensures up <==> |out| - |frames| == |events|
    ensures !up ==> |out| == capacity
    ensures up ==> (terminalSeen <==> HasTerminal(events))
    ensures Beat in out ==> Beat in frames
  {
    out, terminalSeen := frames, false;
    for i := 0 to |events|
      invariant |out| == |frames| + i <= capacity && out[0] == frames[0] && (Beat in out ==> Beat in frames)
      invariant Events(out) == Events(frames) + events[..i]
      invariant terminalSeen <==> exists j :: 0 <= j < i && events[j].terminal
    {
      if |out| == capacity { return out, terminalSeen, false; }
      EventsOfOneMore(out, TaskFrame(events[i]));
      out := out + [TaskFrame(events[i])];
      terminalSeen := terminalSeen || events[i].terminal;
      assert events[..i + 1] == events[..i] + [events[i]];
    }
    assert events[..|events|] == events;
    up := true;
  }

  lemma {:induction false} Prefixes(events: seq<LogEntry>, n: nat)
    requires n <= |events|
    ensures !HasTerminal(events) ==> !HasTerminal(events[..n])
  {
  }

  lemma {:induction false} Split(sent: seq<LogEntry>, more: seq<LogEntry>)
    ensures (sent + more)[..|sent|] == sent && (sent + more)[|sent|..] == more
  {
  }

  /** One round of the live loop: wait, then a heartbeat or the whole batch, unless the socket goes away. */
  method ServeLiveBatch(stream: RedisStream, sentFrames: seq<Frame>, afterEventId: Option<EventId>, limit: int, appends: seq<Append>,
                        heartbeats: bool, capacity: nat,
                        ghost last: Option<EventId>, ghost fullBefore: seq<LogEntry>, ghost overrunsBefore: nat)
    returns (frames: seq<Frame>, after: Option<EventId>, end: SocketEnd)
    requires 0 < |sentFrames| <= capacity && !HasTerminal(Events(sentFrames))
    requires Serving(stream, last, Events(sentFrames), afterEventId, fullBefore, overrunsBefore)
    modifies stream
    ensures |stream.full| == |old(stream.full)| + |appends|
    ensures 0 < |frames| <= capacity && frames[0] == sentFrames[0]
    ensures !heartbeats && Beat in frames ==> Beat in sentFrames
    ensures frames == sentFrames + [Beat] || |frames| - |sentFrames| == |Events(frames)| - |Events(sentFrames)|
    ensures |Events(sentFrames)| <= |Events(frames)| && Events(frames)[..|Events(sentFrames)|] == Events(sentFrames)
    ensures Serving(stream, last, Events(frames), Cursor(last, Events(frames)), fullBefore, overrunsBefore)
    ensures match end
            case StillServing => !HasTerminal(Events(frames)) && after == Cursor(last, Events(frames))
            case ClosedBy(code) => code == TERMINAL_CLOSE && HasTerminal(Events(frames)[|Events(sentFrames)|..])
            case Disconnected => |frames| == capacity
    ensures heartbeats && end.StillServing? ==> |frames| > |sentFrames|
    ensures !end.Disconnected? ==> |Events(frames)| - |Events(sentFrames)| >= limit || CaughtUp(stream, last, Events(frames), overrunsBefore)
  {
    hide Delivered, Cursor, Pos, Events, HasTerminal, CaughtUp, Serving, Holds;
    ghost var sent := Events(sentFrames);
    ServingMeans(stream, last, sent, afterEventId, fullBefore, overrunsBefore);
    var live := NextBatch(stream, afterEventId, limit, appends, last, sent, fullBefore, overrunsBefore);
    frames, after, end := sentFrames, afterEventId, StillServing;
    if live == [] {
      Split(sent, []);
      if heartbeats {
        if |frames| == capacity { return frames, after, Disconnected; }
        EventsOfOneMore(frames, Beat);
        frames := frames + [Beat];
      }
      return;
    }
    var terminal, up;
    after := Some(live[|live| - 1].id);
    frames, terminal, up := SendEventsAndCheckTerminal(frames, live, capacity);
    Split(sent, live[..|Events(frames)| - |sent|]);
    end := if !up then Disconnected else if terminal then ClosedBy(TERMINAL_CLOSE) else StillServing;
  }

  datatype Subscribe = Invalid | Request(lastEventId: Option<EventId>)

  /**
   * `batch` is where the last batch starts among the events sent. Unless the socket goes away every
   * batch is sent whole: it is a full one, or it catches up. A normal close comes only after the
   * first batch that holds a terminal event.
   */
  method HandleWebSocketSubscription(stream: RedisStream, request: Subscribe, mayAccess: bool, heartbeats: bool,
                                     replayBatchSize: int, liveBatchSize: int, ticks: seq<seq<Append>>, capacity: nat)
    returns (frames: seq<Frame>, end: SocketEnd, ghost batch: nat)
    requires stream.Valid()
    modifies stream
    ensures stream.Valid() && old(stream.full) <= stream.full && old(stream.overruns) <= stream.overruns
    ensures frames == [] <==> request.Invalid? || !mayAccess || capacity == 0
    ensures request.Invalid? || !mayAccess <==> end == ClosedBy(1008)
    ensures frames != [] ==>
      frames[0] == Confirmed(request.lastEventId)
      && Delivered(stream.full, request.lastEventId, Events(frames), stream.overruns == old(stream.overruns))
    ensures batch <= |Events(frames)| && !HasTerminal(Events(frames)[..batch])
    ensures end == StillServing ==> !HasTerminal(Events(frames)) && |stream.full| == |old(stream.full)| + Total(ticks)
    ensures !heartbeats ==> Beat !in frames
    ensures heartbeats && end == StillServing ==> |frames| > |ticks|
    ensures end == Disconnected ==> |frames| == capacity
    ensures end.ClosedBy? ==> end.code == 1000 || end.code == 1008
    ensures end == ClosedBy(1000) ==> HasTerminal(Events(frames)[batch..])
    ensures end == ClosedBy(1000) || end == StillServing ==>
      |Events(frames)| - batch >= (if ticks == [] || replayBatchSize < liveBatchSize then replayBatchSize else liveBatchSize)
      || CaughtUp(stream, request.lastEventId, Events(frames), old(stream.overruns))
  {
    ghost var fullBatch := if ticks == [] || replayBatchSize < liveBatchSize then replayBatchSize else liveBatchSize;
    hide Delivered, Cursor, Pos, Events, HasTerminal, CaughtUp, Serving, Holds, Total;
    ghost var full0, overruns0 := stream.full, stream.overruns;
    batch := 0;
    NoTicks(ticks);
    NothingSent();
    if request.Invalid? || !mayAccess { return [], ClosedBy(INVALID_FRAME_CLOSE), 0; }
    var last := request.lastEventId;
    StartServing(stream, last);
    var replay := NextBatch(stream, last, replayBatchSize, [], last, [], full0, overruns0);
    if capacity == 0 {
      ServingMeans(stream, last, [], last, full0, overruns0);
      return [], Disconnected, 0;
    }
    frames := [Confirmed(last)];
    EventsOfOneMore([], Confirmed(last));
    assert [] + [Confirmed(last)] == frames;
    var after := if replay != [] then Some(replay[|replay| - 1].id) else last;
    var terminal, up;
    frames, terminal, up := SendEventsAndCheckTerminal(frames, replay, capacity);
    ServingMeans(stream, last, Events(frames), Cursor(last, Events(frames)), full0, overruns0);
    if !up { return frames, Disconnected, 0; }
    if terminal { return frames, ClosedBy(TERMINAL_CLOSE), 0; }
    end := StillServing;
    for i := 0 to |ticks|
      invariant 0 < |frames| <= capacity && frames[0] == Confirmed(last) && (!heartbeats ==> Beat !in frames)
      invariant |stream.full| == |full0| + Total(ticks[..i])
      invariant Serving(stream, last, Events(frames), after, full0, overruns0)
      invariant end == StillServing && batch <= |Events(frames)| && !HasTerminal(Events(frames))
      invariant |Events(frames)| - batch >= fullBatch || CaughtUp(stream, last, Events(frames), overruns0)
      invariant heartbeats ==> |frames| > i
    {
      batch := |Events(frames)|;
      TotalOfOneMore(ticks, i);
      frames, after, end := ServeLiveBatch(stream, frames, after, liveBatchSize, ticks[i], heartbeats, capacity, last, full0, overruns0);
      if end != StillServing {
        ServingMeans(stream, last, Events(frames), Cursor(last, Events(frames)), full0, overruns0);
        return;
      }
    }
    ServingMeans(stream, last, Events(frames), after, full0, overruns0);
    Prefixes(Events(frames), batch);
    assert ticks[..|ticks|] == ticks;
  }

  // Server-sent events

  datatype SseSettings = SseSettings(preamble: bool, commentPing: bool, jsonHeartbeat: bool, replayBatchSize: int, liveBatchSize: int)

  datatype SseTick = Wait(appends: seq<Append>) | CancelledWait

  function TotalWaits(ticks: seq<SseTick>): nat {
    if ticks == [] then 0
    else TotalWaits(ticks[..|ticks| - 1]) + (if ticks[|ticks| - 1].Wait? then |ticks[|ticks| - 1].appends| else 0)
  }

  lemma {:induction false} NoWaits(ticks: seq<SseTick>)
    ensures TotalWaits(ticks[..0]) == 0 && ticks[..|ticks|] == ticks
  {
  }

  lemma {:induction false} TotalWaitsOfOneMore(ticks: seq<SseTick>, i: nat)
    requires i < |ticks|
    ensures TotalWaits(ticks[..i + 1]) == TotalWaits(ticks[..i]) + (if ticks[i].Wait? then |ticks[i].appends| else 0)
  {
    assert ticks[..i + 1][..i] == ticks[..i];
  }

  /** How often a frame was sent. */
  function Count(frames: seq<Frame>, f: Frame): nat {
    if frames == [] then 0 else Count(frames[..|frames| - 1], f) + (if frames[|frames| - 1] == f then 1 else 0)
  }

  lemma {:induction false} CountOfOneMore(frames: seq<Frame>, f: Frame)
    ensures forall g: Frame :: Count(frames + [f], g) == Count(frames, g) + if f == g then 1 else 0
  {
    assert (frames + [f])[..|frames|] == frames;
  }

  /**
   * The preamble comes first if there is one, and nothing is sent that is switched off; if the
   * subscriber stays (`steady`) there was a comment in each of the first rounds, and with heartbeats
   * a heartbeat or an event.
   */
  ghost predicate AsConfigured(frames: seq<Frame>, settings: SseSettings, comments: nat, rounds: nat, steady: bool) {
    var preambles := if settings.preamble then 1 else 0;
    && (settings.preamble ==> frames != [] && frames[0] == Comment)
    && (!settings.commentPing ==> Count(frames, Comment) == preambles)
    && (!settings.jsonHeartbeat ==> Count(frames, Beat) == 0)
    && (steady && settings.commentPing ==> Count(frames, Comment) == preambles + comments)
    && (steady && settings.jsonHeartbeat ==> Count(frames, Beat) + |Events(frames)| >= rounds)
  }

  lemma {:induction false} ConfiguredAtFirst(signs: seq<Frame>, frames: seq<Frame>, settings: SseSettings)
    requires signs == (if settings.preamble then [Comment] else []) && signs <= frames
    requires Count(frames, Beat) == Count(signs, Beat) && Count(frames, Comment) == Count(signs, Comment)
    ensures forall steady :: AsConfigured(frames, settings, 0, 0, steady)
  {
    hide Events;
    assert [Comment][..0] == [];
  }

  lemma {:induction false} ConfiguredAnyway(frames: seq<Frame>, settings: SseSettings, comments: nat, rounds: nat, c: nat, r: nat, steady: bool)
    requires AsConfigured(frames, settings, comments, rounds, steady)
    ensures AsConfigured(frames, settings, c, r, false)
    ensures comments == c && rounds == r ==> AsConfigured(frames, settings, c, r, steady)
  {
    hide Count, Events;
  }

  lemma {:induction false} ConfiguredAfterPing(before: seq<Frame>, frames: seq<Frame>, settings: SseSettings, i: nat, steady: bool)
    requires AsConfigured(before, settings, i, i, steady) && Events(frames) == Events(before)
    requires frames == if settings.commentPing then before + [Comment] else before
    ensures AsConfigured(frames, settings, i + 1, i, steady)
  {
    CountOfOneMore(before, Comment);
    hide Count, Events;
  }

  lemma {:induction false} ConfiguredAfterBeat(before: seq<Frame>, frames: seq<Frame>, settings: SseSettings, i: nat, steady: bool)
    requires AsConfigured(before, settings, i + 1, i, steady) && Events(frames) == Events(before)
    requires frames == if settings.jsonHeartbeat then before + [Beat] else before
    ensures AsConfigured(frames, settings, i + 1, i + 1, steady)
  {
    CountOfOneMore(before, Beat);
    hide Count, Events;
  }

  lemma {:induction false} ConfiguredAfterEvents(before: seq<Frame>, frames: seq<Frame>, settings: SseSettings, i: nat, steady: bool)
    requires AsConfigured(before, settings, i + 1, i, steady) && before <= frames
    requires Count(frames, Beat) == Count(before, Beat) && Count(frames, Comment) == Count(before, Comment)
    requires steady ==> |Events(frames)| > |Events(before)|
    ensures AsConfigured(frames, settings, i + 1, i + 1, steady)
  {
    hide Count, Events;
  }

  /** Yields one event at a time, as long as the subscriber is there; `gone` answers each check. */
  method YieldEvents(frames: seq<Frame>, events: seq<LogEntry>, after: Option<EventId>, gone: nat -> bool, check: nat)
    returns (out: seq<Frame>, cursor: Option<EventId>, checks: nat)
    ensures |frames| <= |out| <= |frames| + |events|
    ensures Events(out) == Events(frames) + events[..|out| - |frames|]
    ensures cursor == Cursor(after, events[..|out| - |frames|])
    ensures (forall k: nat :: !gone(k)) ==> |out| - |frames| == |events|
    ensures frames <= out && Count(out, Beat) == Count(frames, Beat) && Count(out, Comment) == Count(frames, Comment)
  {
    hide Count, Events;
    out, cursor, checks := frames, after, check;
    for i := 0 to |events|
      invariant |out| == |frames| + i
      invariant frames <= out && Count(out, Beat) == Count(frames, Beat) && Count(out, Comment) == Count(frames, Comment)
      invariant Events(out) == Events(frames) + events[..i]
      invariant cursor == Cursor(after, events[..i])
    {
      checks := checks + 1;
      if gone(checks) { return; }
      EventsOfOneMore(out, TaskFrame(events[i]));
      CountOfOneMore(out, TaskFrame(events[i]));
      out := out + [TaskFrame(events[i])];
      cursor := Some(events[i].id);
      assert events[..i + 1] == events[..i] + [events[i]];
    }
  }

  method YieldReplay(frames: seq<Frame>, replay: seq<LogEntry>, after: Option<EventId>) returns (out: seq<Frame>, cursor: Option<EventId>)
    ensures Events(out) == Events(frames) + replay && cursor == Cursor(after, replay)
    ensures frames <= out && Count(out, Beat) == Count(frames, Beat) && Count(out, Comment) == Count(frames, Comment)
  {
    hide Count, Events;
    out, cursor := frames, after;
    for i := 0 to |replay|
      invariant frames <= out && Count(out, Beat) == Count(frames, Beat) && Count(out, Comment) == Count(frames, Comment)
      invariant Events(out) == Events(frames) + replay[..i]
      invariant cursor == Cursor(after, replay[..i])
    {
      EventsOfOneMore(out, TaskFrame(replay[i]));
      CountOfOneMore(out, TaskFrame(replay[i]));
      out := out + [TaskFrame(replay[i])];
      cursor := Some(replay[i].id);
      assert replay[..i + 1] == replay[..i] + [replay[i]];
    }
    assert replay[..|replay|] == replay;
  }

  /**
   * The stream does not end on a terminal event; only the subscriber ends it, and then no further wait
   * is made: `waits` is how many were. Comments and heartbeats are sent as configured; with heartbeats
   * a subscriber that stays hears something in every round.
   */
  method SseEventGenerator(stream: RedisStream, lastEventId: Option<EventId>, settings: SseSettings, ticks: seq<SseTick>, gone: nat -> bool)
    returns (frames: seq<Frame>, ghost batch: nat, ghost waits: nat)
    requires stream.Valid()
    modifies stream
    ensures stream.Valid() && old(stream.full) <= stream.full && old(stream.overruns) <= stream.overruns
    ensures Delivered(stream.full, lastEventId, Events(frames), stream.overruns == old(stream.overruns))
    ensures batch <= |Events(frames)|
    ensures (forall k: nat :: !gone(k)) && ticks != [] && CancelledWait !in ticks ==>
      (|Events(frames)| - batch >= settings.liveBatchSize || CaughtUp(stream, lastEventId, Events(frames), old(stream.overruns)))
    ensures waits <= |ticks| && CancelledWait !in ticks[..waits] && |stream.full| == |old(stream.full)| + TotalWaits(ticks[..waits])
    ensures gone(1) ==> waits == 0
    ensures (forall k: nat :: !gone(k)) ==> waits == |ticks| || ticks[waits].CancelledWait?
    ensures AsConfigured(frames, settings, |ticks|, |ticks|, (forall k: nat :: !gone(k)) && CancelledWait !in ticks)
  {
    hide Delivered, Cursor, Pos, Events, HasTerminal, CaughtUp, Serving, Holds, TotalWaits, Count, AsConfigured;
    ghost var stays := (forall k: nat :: !gone(k)) && CancelledWait !in ticks;
    ghost var full0, overruns0 := stream.full, stream.overruns;
    frames, batch, waits := [], 0, 0;
    NothingSent();
    StartServing(stream, lastEventId);
    var replay := NextBatch(stream, lastEventId, settings.replayBatchSize, [], lastEventId, [], full0, overruns0);
    if settings.preamble {
      EventsOfOneMore(frames, Comment);
      frames := frames + [Comment];
    }
    var after, checks := lastEventId, 0;
    ghost var signs := frames;
    frames, after := YieldReplay(frames, replay, after);
    ConfiguredAtFirst(signs, frames, settings);
    NoWaits(ticks);
    CursorAfter(lastEventId, [], replay);
    NoCursor(lastEventId);
    for i := 0 to |ticks|
      invariant Serving(stream, lastEventId, Events(frames), after, full0, overruns0)
      invariant batch <= |Events(frames)|
      invariant (forall k: nat :: !gone(k)) && i > 0 && CancelledWait !in ticks ==>
        |Events(frames)| - batch >= settings.liveBatchSize || CaughtUp(stream, lastEventId, Events(frames), overruns0)
      invariant waits == i && CancelledWait !in ticks[..i] && |stream.full| == |full0| + TotalWaits(ticks[..i])
      invariant (gone(1) ==> i == 0) && (i == 0 ==> checks == 0)
      invariant AsConfigured(frames, settings, i, i, stays)
    {
      TotalWaitsOfOneMore(ticks, i);
      signs := frames;
      ConfiguredAnyway(frames, settings, i, i, |ticks|, |ticks|, stays);
      checks := checks + 1;
      if gone(checks) { break; }
      if settings.commentPing {
        EventsOfOneMore(frames, Comment);
        frames := frames + [Comment];
      }
      ConfiguredAfterPing(signs, frames, settings, i, stays);
      ConfiguredAnyway(frames, settings, i + 1, i, |ticks|, |ticks|, stays);
      signs := frames;
      if ticks[i].CancelledWait? { break; }
      ghost var sent := Events(frames);
      ServingMeans(stream, lastEventId, sent, after, full0, overruns0);
      var live := NextBatch(stream, after, settings.liveBatchSize, ticks[i].appends, lastEventId, sent, full0, overruns0);
      batch, waits := |sent|, i + 1;
      checks := checks + 1;
      if gone(checks) { break; }
      if live == [] {
        if settings.jsonHeartbeat {
          EventsOfOneMore(frames, Beat);
          frames := frames + [Beat];
        }
        ConfiguredAfterBeat(signs, frames, settings, i, stays);
        continue;
      }
      frames, after, checks := YieldEvents(frames, live, after, gone, checks);
      ConfiguredAfterEvents(signs, frames, settings, i, stays);
      CursorAfter(lastEventId, sent, live[..|Events(frames)| - |sent|]);
    }
    ServingMeans(stream, lastEventId, Events(frames), after, full0, overruns0);
  }

  lemma {:induction false} NoCursor(start: Option<EventId>)
    ensures Cursor(start, []) == start
  {
  }

  lemma {:induction false} CursorAfter(start: Option<EventId>, sent: seq<LogEntry>, more: seq<LogEntry>)
    ensures Cursor(start, sent + more) == Cursor(Cursor(start, sent), more)
  {
  }

  // Polling

  /**
   * `hasMore` compares the batch with the limit. When it is false after a poll for at least one
   * event, nothing that the stream retains is newer than the returned marker.
   */
  method PollEvents(stream: RedisStream, afterEventId: Option<EventId>, limit: int, appends: seq<Append>)
    returns (events: seq<LogEntry>, nextAfterEventId: Option<EventId>, hasMore: bool)
    requires stream.Valid()
    modifies stream
    ensures stream.Valid() && old(stream.full) <= stream.full && old(stream.overruns) <= stream.overruns
    ensures Delivered(stream.full, afterEventId, events, stream.overruns == old(stream.overruns))
    ensures nextAfterEventId == Cursor(afterEventId, events)
    ensures limit >= 0 && !hasMore ==> CaughtUp(stream, afterEventId, events, old(stream.overruns))
    ensures limit > 0 && hasMore ==> |events| == limit
    ensures limit <= 0 ==> events == [] && (hasMore <==> limit == 0)
  {
    events := WaitForLiveEvents(stream, afterEventId, limit, appends);
    nextAfterEventId := if events != [] then Some(events[|events| - 1].id) else afterEventId;
    hasMore := |events| == limit;
  }
}
