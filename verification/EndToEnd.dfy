/**
 * The client against the server's own loops. What a session hands the client is a part of what the
 * server sent for the resume id the client gave; that makes every run a run against a strict server.
 */
module EndToEnd {
  import opened Options
  import opened EventLog
  import opened ClientModel
  import opened ClientDelivery
  import opened EventStream
  import opened ServerLoops

  /** What arrives at the client: a heartbeat, or an event, and what goes wrong while it is handed on. */
  datatype Incoming = HeartbeatFrame | EventFrame(event: LogEntry, fault: Fault)

  datatype Received = Received(frames: seq<Incoming>, end: SessionEnd)

  /** The events among the frames, in order. */
  function EventsOf(frames: seq<Incoming>): seq<LogEntry> {
    if frames == [] then []
    else (if frames[0].EventFrame? then [frames[0].event] else []) + EventsOf(frames[1..])
  }

  /** The client takes each frame as it comes; it never sees the log. */
  function TakeFrame(cfg: Config, polling: bool, t: Track, frame: Incoming): Track {
    match frame
    case HeartbeatFrame => t
    case EventFrame(event, fault) => if event.readable then Emit(t, event, fault) else Malformed(cfg, polling, t)
  }

  function TakeFrames(cfg: Config, polling: bool, t: Track, frames: seq<Incoming>): Track
    decreases |frames|
  {
    if t.halt != Going || frames == [] then t
    else TakeFrames(cfg, polling, TakeFrame(cfg, polling, t, frames[0]), frames[1..])
  }

  function StepOn(cfg: Config, s: ClientState, r: Received, active: bool): ClientState {
    if s.control.Ended? then s
    else Conclude(cfg, s.control, TakeFrames(cfg, s.control.Poll?, Track(s, 0, Going), r.frames), r.end, active)
  }

  function RunOn(cfg: Config, s: ClientState, received: seq<Received>, k: nat): ClientState
    requires k <= |received|
  {
    if k == 0 then s
    else StepOn(cfg, RunOn(cfg, s, received, k - 1), received[k - 1], k < |received|)
  }

  function ArrivalsOf(frames: seq<Incoming>): (arrivals: seq<Arrival>)
    ensures |arrivals| == |frames|
  {
    if frames == [] then []
    else [if frames[0].EventFrame? then NextEntry(frames[0].fault) else Heartbeat] + ArrivalsOf(frames[1..])
  }

  /** The strict session that the log would give. */
  function SessionOf(r: Received): Session {
    Session(0, ArrivalsOf(r.frames), r.end)
  }

  function ScriptOf(received: seq<Received>): seq<Session> {
    seq(|received|, i requires 0 <= i < |received| => SessionOf(received[i]))
  }

  /** The events of each of the first `k` sessions were served from the id the client resumed with. */
  ghost predicate FromServer(cfg: Config, log: seq<LogEntry>, s: ClientState, received: seq<Received>, k: nat)
    requires k <= |received|
  {
    forall j :: 0 <= j < k ==> Served(log, RunOn(cfg, s, received, j).watermark, EventsOf(received[j].frames))
  }

  lemma {:induction false} FramesAreLogEntries(cfg: Config, log: seq<LogEntry>, polling: bool, t: Track, at: nat, frames: seq<Incoming>)
    requires at + |EventsOf(frames)| <= |log| && EventsOf(frames) == log[at..at + |EventsOf(frames)|]
    ensures var a, b := TakeFrames(cfg, polling, t, frames), Receive(cfg, log, polling, t.(at := at), ArrivalsOf(frames));
      a.state == b.state && a.halt == b.halt
    decreases |frames|
  {
    hide Emit, Malformed;
    if t.halt == Going && frames != [] {
      assert ArrivalsOf(frames)[1..] == ArrivalsOf(frames[1..]);
      if frames[0].HeartbeatFrame? {
        assert EventsOf(frames) == EventsOf(frames[1..]);
        FramesAreLogEntries(cfg, log, polling, t, at, frames[1..]);
      } else {
        var next := TakeFrame(cfg, polling, t, frames[0]);
        assert frames[0].event == EventsOf(frames)[0] == log[at];
        assert EventsOf(frames[1..]) == EventsOf(frames)[1..] == log[at + 1..at + 1 + |EventsOf(frames[1..])|];
        AtIsCarried(cfg, polling, t, at + 1, log[at], frames[0].fault);
        FramesAreLogEntries(cfg, log, polling, next, at + 1, frames[1..]);
      }
    }
  }

  /** Handling an event never looks at the server's position. */
  lemma {:induction false} AtIsCarried(cfg: Config, polling: bool, t: Track, at: nat, event: LogEntry, fault: Fault)
    ensures Emit(t.(at := at), event, fault) == Emit(t, event, fault).(at := at)
    ensures Malformed(cfg, polling, t.(at := at)) == Malformed(cfg, polling, t).(at := at)
  {
  }

  lemma {:induction false} SessionIsStrict(cfg: Config, log: seq<LogEntry>, s: ClientState, r: Received, active: bool)
    requires Served(log, s.watermark, EventsOf(r.frames))
    ensures StepOn(cfg, s, r, active) == Step(cfg, log, s, SessionOf(r), active)
  {
    if !s.control.Ended? {
      FramesAreLogEntries(cfg, log, s.control.Poll?, Track(s, 0, Going), Pos(log, s.watermark), r.frames);
      hide Pos, TakeFrames, Receive, ArrivalsOf, EventsOf;
    }
  }

  lemma {:induction false} RunIsStrict(cfg: Config, log: seq<LogEntry>, s: ClientState, received: seq<Received>, k: nat)
    requires k <= |received| && FromServer(cfg, log, s, received, k)
    ensures RunOn(cfg, s, received, k) == Run(cfg, log, s, ScriptOf(received), k)
  {
    hide Served, Step, StepOn, SessionOf, EventsOf, Increasing;
    if k > 0 {
      RunIsStrict(cfg, log, s, received, k - 1);
      SessionIsStrict(cfg, log, RunOn(cfg, s, received, k - 1), received[k - 1], k < |received|);
    }
  }

  /** A session that is cut short, seen against the final log, is still what the server served. */
  lemma {:induction false} CutShort(full: seq<LogEntry>, log: seq<LogEntry>, resume: Option<EventId>, sent: seq<LogEntry>, n: nat)
    requires Increasing(log) && full <= log && n <= |sent| && Served(full, resume, sent)
    ensures Served(log, resume, sent[..n])
  {
    var p := Pos(full, resume);
    assert log == full + log[|full|..] && full[p..p + |sent|][..n] == full[p..p + n];
    ServedGrows(full, log[|full|..], resume, sent[..n]);
  }

  /**
   * Whatever each session lost at its end, whatever failed, and however often the client fell back
   * or backed off: against the server's own loops, what it has emitted is the readable events after
   * its start, contiguous and in order, up to at most the first terminal event.
   */
  lemma {:induction false} ServerAndClientDeliverTheLog(cfg: Config, log: seq<LogEntry>, afterEventId: Option<EventId>, stored: Option<EventId>,
                                      received: seq<Received>, k: nat)
    requires Increasing(log) && ProcessingIsFinal(cfg) && k <= |received|
    requires SafeStart(cfg, OriginOf(log, afterEventId, stored))
    requires FromServer(cfg, log, Init(cfg, afterEventId, stored), received, k)
    ensures var s := RunOn(cfg, Init(cfg, afterEventId, stored), received, k);
      && Sound(log, OriginOf(log, afterEventId, stored), s)
      && (!s.control.Ended? && s.sent != [] ==> s.watermark == s.checkpoint == Some(s.sent[|s.sent| - 1].id))
  {
    var init := Init(cfg, afterEventId, stored);
    RunIsStrict(cfg, log, init, received, k);
    StrictServerDeliversTheLog(cfg, log, afterEventId, stored, ScriptOf(received), k);
    hide Sound, RunOn, Run, FromServer, Increasing;
  }

  // The client against the server's loops

  /**
   * What the world does around one session: what other writers append and when, how large the
   * batches are, how much of what the server sends gets `through`, what fails on the client's side,
   * and how the client sees the session end.
   */
  datatype Conditions = Conditions(
    mayAccess: bool,
    heartbeats: bool,
    replayBatchSize: int,
    liveBatchSize: int,
    sse: SseSettings,
    limit: int,
    ticks: seq<seq<Append>>,
    waits: seq<SseTick>,
    polled: seq<Append>,
    capacity: nat,
    gone: nat -> bool,
    through: nat,
    fault: nat -> Fault,
    end: SessionEnd)

  function PageFrames(events: seq<LogEntry>): seq<Frame> {
    if events == [] then [] else PageFrames(events[..|events| - 1]) + [TaskFrame(events[|events| - 1])]
  }

  lemma {:induction false} EventsOfPage(events: seq<LogEntry>)
    ensures Events(PageFrames(events)) == events
  {
    if events != [] {
      var init := events[..|events| - 1];
      EventsOfPage(init);
      EventsOfOneMore(PageFrames(init), TaskFrame(events[|events| - 1]));
      assert init + [events[|events| - 1]] == events;
    }
  }

  /** What the server's loop sent in one session, and the stream as it was when the loop stopped. */
  datatype Reply = Reply(frames: seq<Frame>, closed: bool, overran: bool, full: seq<LogEntry>, retained: seq<LogEntry>)

  /** Nothing on the way cut the server's loop short. */
  ghost predicate Undisturbed(control: Control, c: Conditions, frames: seq<Frame>) {
    match control
    case Ws(_) => c.mayAccess && |frames| < c.capacity
    case Sse(_) => (forall k: nat :: !c.gone(k)) && c.waits != [] && CancelledWait !in c.waits
    case _ => true
  }

  /** A reply with this many events may have left some for the next session. */
  function FullBatch(control: Control, c: Conditions): int {
    match control
    case Ws(_) => if c.ticks == [] || c.replayBatchSize < c.liveBatchSize then c.replayBatchSize else c.liveBatchSize
    case Sse(_) => c.sse.liveBatchSize
    case _ => c.limit
  }

  ghost predicate UpToTheEnd(log: seq<LogEntry>, resume: Option<EventId>, events: seq<LogEntry>) {
    Pos(log, Cursor(resume, events)) == |log|
  }

  /**
   * What a transport's loop guarantees for the id the client resumes with: newer events in order,
   * none missing unless a read overran; if undisturbed, a full batch or everything there is; and a
   * normal close of the WebSocket exactly after a terminal event.
   */
  ghost predicate ReplyOk(control: Control, resume: Option<EventId>, c: Conditions, a: Reply) {
    var events := Events(a.frames);
    && InOrder(a.full, resume, events)
    && (!a.overran ==> Served(a.full, resume, events))
    && (Undisturbed(control, c, a.frames) ==>
          || |events| >= FullBatch(control, c)
          || (UpToTheEnd(a.retained, resume, events) && (!a.overran ==> UpToTheEnd(a.full, resume, events))))
    && (control.Ws? && (!c.mayAccess || c.capacity == 0) ==> a.frames == [])
    && (a.closed ==> control.Ws? && HasTerminal(events))
    && (control.Ws? && Undisturbed(control, c, a.frames) && !a.closed ==> !HasTerminal(events))
  }

  lemma {:induction false} TerminalInTail(events: seq<LogEntry>, from: nat)
    requires from <= |events| && HasTerminal(events[from..])
    ensures HasTerminal(events)
  {
    var i :| 0 <= i < |events[from..]| && events[from..][i].terminal;
    assert events[from + i].terminal;
  }

  /** The server side of one session: the loop of the transport, for the id the client resumes with. */
  method ServeSession(stream: RedisStream, control: Control, resume: Option<EventId>, c: Conditions)
    returns (frames: seq<Frame>, ghost reply: Reply)
    requires stream.Valid() && !control.Ended?
    modifies stream
    ensures stream.Valid() && Increasing(stream.full) && old(stream.full) <= stream.full && old(stream.overruns) <= stream.overruns
    ensures reply.frames == frames && reply.full == stream.full && reply.retained == stream.entries
    ensures reply.overran <==> stream.overruns != old(stream.overruns)
    ensures ReplyOk(control, resume, c, reply)
  {
    hide Holds, Served, InOrder, Increasing, Events, HasTerminal, Pos, Cursor, Total, TotalWaits;
    var closed := false;
    NothingSent();
    match control {
      case Ws(_) =>
        var end; ghost var batch;
        frames, end, batch := HandleWebSocketSubscription(stream, Request(resume), c.mayAccess, c.heartbeats, c.replayBatchSize, c.liveBatchSize,
                                                         c.ticks, c.capacity);
        closed := end == ClosedBy(TERMINAL_CLOSE);
        if closed { TerminalInTail(Events(frames), batch); }
      case Sse(_) =>
        ghost var batch, waits;
        frames, batch, waits := SseEventGenerator(stream, resume, c.sse, c.waits, c.gone);
      case Poll =>
        var page, next, more := PollEvents(stream, resume, c.limit, c.polled);
        EventsOfPage(page);
        frames := PageFrames(page);
    }
    ServerLoops.NothingDelivered(stream.full, resume);
    HeldEntries(stream.entries, stream.full, stream.lastId, stream.maxLength);
    reply := Reply(frames, closed, stream.overruns != old(stream.overruns), stream.full, stream.entries);
  }

  lemma {:induction false} NothingServed(log: seq<LogEntry>, resume: Option<EventId>)
    ensures Served(log, resume, [])
  {
  }

  /** The frames as they arrive, each event with what goes wrong while it is handed on. */
  function Arriving(frames: seq<Frame>, fault: nat -> Fault, from: nat): (incoming: seq<Incoming>)
    ensures |incoming| == |frames|
    ensures forall i :: 0 <= i < |frames| ==>
      incoming[i] == match frames[i] case TaskFrame(event) => EventFrame(event, fault(from + i)) case _ => HeartbeatFrame
    decreases |frames|
  {
    if frames == [] then []
    else [if frames[0].TaskFrame? then EventFrame(frames[0].event, fault(from)) else HeartbeatFrame] + Arriving(frames[1..], fault, from + 1)
  }

  lemma {:induction false} EventsFromFront(f: Frame, frames: seq<Frame>)
    ensures Events([f] + frames) == (if f.TaskFrame? then [f.event] else []) + Events(frames)
  {
    if frames == [] {
      assert [f] + frames == [] + [f];
      EventsOfOneMore([], f);
    } else {
      var init, last := frames[..|frames| - 1], frames[|frames| - 1];
      EventsFromFront(f, init);
      EventsOfOneMore([f] + init, last);
      EventsOfOneMore(init, last);
      assert [f] + frames == ([f] + init) + [last] && frames == init + [last];
    }
  }

  lemma {:induction false} ArrivingEvents(frames: seq<Frame>, fault: nat -> Fault, from: nat)
    ensures EventsOf(Arriving(frames, fault, from)) == Events(frames)
    decreases |frames|
  {
    if frames != [] {
      ArrivingEvents(frames[1..], fault, from + 1);
      assert frames == [frames[0]] + frames[1..];
      EventsFromFront(frames[0], frames[1..]);
      var incoming := Arriving(frames, fault, from);
      assert incoming[1..] == Arriving(frames[1..], fault, from + 1);
    }
  }

  lemma {:induction false} EventsOfPrefix(frames: seq<Frame>, m: nat)
    requires m <= |frames|
    ensures Events(frames[..m]) <= Events(frames)
    decreases |frames|
  {
    if m < |frames| {
      var init := frames[..|frames| - 1];
      EventsOfPrefix(init, m);
      assert frames[..m] == init[..m];
    } else {
      assert frames[..m] == frames;
    }
  }

  /** What gets through of a served session is served, also against everything appended later. */
  lemma {:induction false} ThroughIsServed(log: seq<LogEntry>, resume: Option<EventId>, frames: seq<Frame>, through: nat, fault: nat -> Fault)
    requires Increasing(log) && Served(log, resume, Events(frames))
    ensures Served(log, resume, EventsOf(Arriving(Take(frames, through), fault, 0)))
  {
    hide Served, Increasing, Events;
    var m := if through <= |frames| then through else |frames|;
    assert Take(frames, through) == frames[..m];
    ArrivingEvents(frames[..m], fault, 0);
    EventsOfPrefix(frames, m);
    var all, part := Events(frames), Events(frames[..m]);
    assert all[..|part|] == part;
    CutShort(log, log, resume, all, |part|);
  }

  /** The state after `k` sessions depends on these sessions only. */
  lemma {:induction false} RunOnAgrees(cfg: Config, s: ClientState, a: seq<Received>, b: seq<Received>, k: nat)
    requires |a| == |b| && k <= |a| && a[..k] == b[..k]
    ensures RunOn(cfg, s, a, k) == RunOn(cfg, s, b, k)
  {
    hide StepOn;
    if k > 0 {
      assert a[..k][..k - 1] == a[..k - 1] && b[..k][..k - 1] == b[..k - 1];
      assert a[k - 1] == a[..k][k - 1] == b[..k][k - 1] == b[k - 1];
      RunOnAgrees(cfg, s, a, b, k - 1);
    }
  }

  lemma {:induction false} RunOnOneMore(cfg: Config, s: ClientState, received: seq<Received>, k: nat, r: Received)
    requires k < |received|
    ensures forall j :: 0 <= j <= k ==> RunOn(cfg, s, received[k := r], j) == RunOn(cfg, s, received, j)
    ensures RunOn(cfg, s, received[k := r], k + 1) == StepOn(cfg, RunOn(cfg, s, received, k), r, k + 1 < |received|)
  {
    var later := received[k := r];
    forall j | 0 <= j <= k ensures RunOn(cfg, s, later, j) == RunOn(cfg, s, received, j) {
      assert later[..j] == received[..j];
      RunOnAgrees(cfg, s, later, received, j);
    }
    hide StepOn;
  }

  /** One more session, against the grown log. */
  lemma {:induction false} ServedOneMore(cfg: Config, full: seq<LogEntry>, log: seq<LogEntry>, s: ClientState, received: seq<Received>, k: nat, r: Received)
    requires k < |received| && Increasing(log) && full <= log && FromServer(cfg, full, s, received, k)
    requires Served(log, RunOn(cfg, s, received, k).watermark, EventsOf(r.frames))
    ensures FromServer(cfg, log, s, received[k := r], k + 1)
  {
    hide Served, Increasing, RunOn, EventsOf;
    var later := received[k := r];
    RunOnOneMore(cfg, s, received, k, r);
    forall j | 0 <= j < k + 1 ensures Served(log, RunOn(cfg, s, later, j).watermark, EventsOf(later[j].frames)) {
      if j < k {
        var events := EventsOf(received[j].frames);
        assert events[..|events|] == events;
        CutShort(full, log, RunOn(cfg, s, received, j).watermark, events, |events|);
      }
    }
  }

  /** What gets through of the server's frames, and how the client sees the session end. */
  function GotThrough(c: Conditions, frames: seq<Frame>): Received {
    Received(Arriving(Take(frames, c.through), c.fault, 0), c.end)
  }

  /** Until it ended, the client asked for everything after its watermark, and took what got through of the reply. */
  ghost predicate Follows(cfg: Config, s: ClientState, received: seq<Received>, replies: seq<Reply>, script: seq<Conditions>, k: nat)
    requires |received| == |replies| == |script| && k <= |script|
  {
    forall j :: 0 <= j < k ==> TookReply(cfg, RunOn(cfg, s, received, j), received[j], replies[j], script[j])
  }

  ghost predicate TookReply(cfg: Config, s: ClientState, r: Received, a: Reply, c: Conditions) {
    s.control.Ended? || (r == GotThrough(c, a.frames) && ReplyOk(s.control, s.watermark, c, a))
  }

  /** The log the replies came from only grew. */
  ghost predicate LogGrew(before: seq<LogEntry>, replies: seq<Reply>, k: nat, after: seq<LogEntry>)
    requires k <= |replies|
  {
    && before <= after
    && (forall j :: 0 <= j < k ==> before <= replies[j].full <= after)
    && (forall i, j :: 0 <= i < j < k ==> replies[i].full <= replies[j].full)
  }

  lemma {:induction false} FollowsOneMore(cfg: Config, s: ClientState, received: seq<Received>, replies: seq<Reply>, script: seq<Conditions>, k: nat,
                                          r: Received, a: Reply)
    requires |received| == |replies| == |script| && k < |script| && Follows(cfg, s, received, replies, script, k)
    requires TookReply(cfg, RunOn(cfg, s, received, k), r, a, script[k])
    ensures Follows(cfg, s, received[k := r], replies[k := a], script, k + 1)
  {
    hide RunOn, TookReply;
    RunOnOneMore(cfg, s, received, k, r);
  }

  lemma {:induction false} LogGrowsOn(before: seq<LogEntry>, replies: seq<Reply>, k: nat, after: seq<LogEntry>, a: Reply)
    requires k < |replies| && LogGrew(before, replies, k, after) && after <= a.full
    ensures LogGrew(before, replies[k := a], k + 1, a.full)
  {
  }

  /**
   * One observation of one task, server and client together. Session by session the client asks the
   * server's own loop for everything after its watermark, and takes what gets through of the reply.
   * If no read overran the trimmed stream, what the client has emitted in the end is the readable
   * events of the server's log after the start, contiguous and in order, up to at most the first
   * terminal one.
   */
  method ObserveThroughServer(cfg: Config, stream: RedisStream, afterEventId: Option<EventId>, stored: Option<EventId>, script: seq<Conditions>)
    returns (s: ClientState, ghost received: seq<Received>, ghost replies: seq<Reply>)
    requires stream.Valid()
    modifies stream
    ensures stream.Valid() && Increasing(stream.full) && old(stream.overruns) <= stream.overruns
    ensures |received| == |replies| == |script| && s == RunOn(cfg, Init(cfg, afterEventId, stored), received, |script|)
    ensures Follows(cfg, Init(cfg, afterEventId, stored), received, replies, script, |script|)
    ensures LogGrew(old(stream.full), replies, |script|, stream.full)
    ensures stream.overruns == old(stream.overruns) ==>
      && (forall j :: 0 <= j < |script| ==> !replies[j].overran)
      && FromServer(cfg, stream.full, Init(cfg, afterEventId, stored), received, |script|)
    ensures ProcessingIsFinal(cfg) && stream.overruns == old(stream.overruns) && SafeStart(cfg, OriginOf(stream.full, afterEventId, stored)) ==>
      && Sound(stream.full, OriginOf(stream.full, afterEventId, stored), s)
      && (!s.control.Ended? && s.sent != [] ==> s.watermark == s.checkpoint == Some(s.sent[|s.sent| - 1].id))
  {
    hide Holds, Served, Increasing, RunOn, StepOn, FromServer, Follows, Sound, Events, EventsOf, Arriving, ProcessingIsFinal, LogGrew, InOrder,
         Undisturbed, UpToTheEnd, HasTerminal;
    s := Init(cfg, afterEventId, stored);
    ghost var init, overruns0 := s, stream.overruns;
    received, replies := seq(|script|, i => Received([], Closed)), seq(|script|, i => Reply([], false, false, [], []));
    NoSessionYet(cfg, stream.full, init, received, replies, script);
    for k := 0 to |script|
      invariant stream.Valid() && overruns0 <= stream.overruns
      invariant |received| == |replies| == |script| && s == RunOn(cfg, init, received, k) && Follows(cfg, init, received, replies, script, k)
      invariant LogGrew(old(stream.full), replies, k, stream.full)
      invariant stream.overruns == overruns0 ==>
        (forall j :: 0 <= j < k ==> !replies[j].overran) && FromServer(cfg, stream.full, init, received, k)
    {
      var c := script[k];
      ghost var full := stream.full;
      var r := Received([], Closed);
      ghost var a := Reply([], false, false, stream.full, stream.entries);
      if s.control.Ended? {
        HeldEntries(stream.entries, stream.full, stream.lastId, stream.maxLength);
        EndedTakesNothing(cfg, s, r, k + 1 < |script|);
        NothingServed(stream.full, s.watermark);
      } else {
        var frames;
        frames, a := ServeSession(stream, s.control, s.watermark, c);
        r := GotThrough(c, frames);
        if stream.overruns == overruns0 { ThroughIsServed(stream.full, s.watermark, frames, c.through, c.fault); }
      }
      if stream.overruns == overruns0 { ServedOneMore(cfg, full, stream.full, init, received, k, r); }
      RunOnOneMore(cfg, init, received, k, r);
      FollowsOneMore(cfg, init, received, replies, script, k, r, a);
      LogGrowsOn(old(stream.full), replies, k, full, a);
      received, replies := received[k := r], replies[k := a];
      s := StepOn(cfg, s, r, k + 1 < |script|);
    }
    HeldEntries(stream.entries, stream.full, stream.lastId, stream.maxLength);
    if ProcessingIsFinal(cfg) && stream.overruns == overruns0 && SafeStart(cfg, OriginOf(stream.full, afterEventId, stored)) {
      ServerAndClientDeliverTheLog(cfg, stream.full, afterEventId, stored, received, |script|);
    }
  }

  lemma {:induction false} NoSessionYet(cfg: Config, log: seq<LogEntry>, s: ClientState, received: seq<Received>, replies: seq<Reply>,
                                        script: seq<Conditions>)
    requires |received| == |replies| == |script|
    ensures RunOn(cfg, s, received, 0) == s && FromServer(cfg, log, s, received, 0)
    ensures Follows(cfg, s, received, replies, script, 0) && LogGrew(log, replies, 0, log)
  {
  }

  lemma {:induction false} EndedTakesNothing(cfg: Config, s: ClientState, r: Received, active: bool)
    requires s.control.Ended?
    ensures StepOn(cfg, s, r, active) == s
    ensures EventsOf([]) == []
  {
  }
}
