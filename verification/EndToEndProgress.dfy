/** What a session brings in which nothing goes wrong: the whole reply, and with it the whole log so far. */
module EndToEndProgress {
  import opened Options
  import opened EventLog
  import opened ClientModel
  import opened ClientDelivery
  import opened EventStream
  import opened ServerLoops
  import opened EndToEnd

  function Unreadable(events: seq<LogEntry>): nat {
    if events == [] then 0 else (if events[0].readable then 0 else 1) + Unreadable(events[1..])
  }

  ghost predicate HasReadableTerminal(events: seq<LogEntry>) {
    exists e :: e in events && e.readable && e.terminal
  }

  ghost predicate NoFaults(frames: seq<Incoming>) {
    forall i :: 0 <= i < |frames| && frames[i].EventFrame? ==> frames[i].fault == NoFault
  }

  /** Only the streaming transports count undecodable payloads. */
  predicate WithinBudget(cfg: Config, polling: bool, s: ClientState, events: seq<LogEntry>) {
    polling || s.malformed + Unreadable(events) <= cfg.maxMalformed
  }

  /** Everything arrives, nothing fails on the client's side, and the server is not cut short. */
  ghost predicate Smooth(cfg: Config, s: ClientState, c: Conditions, a: Reply) {
    && c.end == Closed && |a.frames| <= c.through && (forall n: nat :: c.fault(n) == NoFault)
    && Undisturbed(s.control, c, a.frames) && WithinBudget(cfg, s.control.Poll?, s, Events(a.frames))
  }

  lemma {:induction false} TakeOne(cfg: Config, polling: bool, t: Track, e: LogEntry, rest: seq<LogEntry>)
    requires t.halt == Going && WithinBudget(cfg, polling, t.state, [e] + rest)
    ensures var next := TakeFrame(cfg, polling, t, EventFrame(e, NoFault));
      && (next.halt == SawTerminal <==> e.readable && e.terminal)
      && (next.halt != SawTerminal ==>
            next.halt == Going && WithinBudget(cfg, polling, next.state, rest) && next.state.watermark == if e.readable then Some(e.id) else t.state.watermark)
  {
    assert ([e] + rest)[1..] == rest;
  }

  lemma {:induction false} CursorOfReadable(after: Option<EventId>, e: LogEntry, rest: seq<LogEntry>)
    ensures Cursor(after, Readable([e] + rest)) == Cursor(if e.readable then Some(e.id) else after, Readable(rest))
  {
    ReadableConcat([e], rest);
    assert Readable([e]) == if e.readable then [e] else [] by { assert [e][..0] == []; }
    hide Readable;
  }

  /** The client takes every event up to a terminal one, and stands at the last readable one. */
  lemma {:induction false} TakesEverything(cfg: Config, polling: bool, t: Track, frames: seq<Incoming>)
    requires t.halt == Going && NoFaults(frames) && WithinBudget(cfg, polling, t.state, EventsOf(frames))
    ensures var r, events := TakeFrames(cfg, polling, t, frames), EventsOf(frames);
      && (r.halt == SawTerminal <==> HasReadableTerminal(events))
      && (!HasReadableTerminal(events) ==> r.halt == Going && r.state.watermark == Cursor(t.state.watermark, Readable(events)))
    decreases |frames|
  {
    hide TakeFrame, WithinBudget, Readable;
    if frames == [] {
      NothingReadable();
    } else if frames[0].HeartbeatFrame? {
      assert EventsOf(frames) == EventsOf(frames[1..]);
      TakesEverything(cfg, polling, t, frames[1..]) by { assert NoFaults(frames[1..]); }
      assert TakeFrame(cfg, polling, t, frames[0]) == t by { BeatsChangeNothing(cfg, polling, t); }
    } else {
      var e, rest := frames[0].event, EventsOf(frames[1..]);
      assert EventsOf(frames) == [e] + rest;
      var next := TakeFrame(cfg, polling, t, frames[0]);
      TakeOne(cfg, polling, t, e, rest);
      CursorOfReadable(t.state.watermark, e, rest);
      OneMoreTerminal(e, rest);
      if next.halt == Going {
        TakesEverything(cfg, polling, next, frames[1..]) by { assert NoFaults(frames[1..]); }
      }
    }
  }

  lemma {:induction false} BeatsChangeNothing(cfg: Config, polling: bool, t: Track)
    ensures TakeFrame(cfg, polling, t, HeartbeatFrame) == t
  {
  }

  lemma {:induction false} NothingReadable()
    ensures Readable([]) == [] && !HasReadableTerminal([])
  {
  }

  lemma {:induction false} OneMoreTerminal(e: LogEntry, rest: seq<LogEntry>)
    ensures HasReadableTerminal([e] + rest) <==> (e.readable && e.terminal) || HasReadableTerminal(rest)
  {
  }

  lemma {:induction false} ArrivesWithoutFaults(frames: seq<Frame>, fault: nat -> Fault, from: nat)
    requires forall n: nat :: fault(n) == NoFault
    ensures NoFaults(Arriving(frames, fault, from))
    decreases |frames|
  {
    if frames != [] { ArrivesWithoutFaults(frames[1..], fault, from + 1); }
  }

  /** A smooth session ends the run exactly by a terminal event in the reply, and otherwise leaves the client at the reply's last readable event. */
  lemma {:induction false} SmoothSessionTakesTheReply(cfg: Config, s: ClientState, c: Conditions, a: Reply)
    requires !s.control.Ended? && Smooth(cfg, s, c, a)
    ensures var next, events := StepOn(cfg, s, GotThrough(c, a.frames), true), Events(a.frames);
      && (next.control == Ended(TerminalEvent) <==> HasReadableTerminal(events))
      && (!HasReadableTerminal(events) ==> !next.control.Ended? && next.watermark == Cursor(s.watermark, Readable(events)))
  {
    hide Events, Arriving, EventsOf, TakeFrames, Readable, HasReadableTerminal, WithinBudget, Undisturbed, NoFaults;
    assert Take(a.frames, c.through) == a.frames;
    var frames := Arriving(a.frames, c.fault, 0);
    ArrivingEvents(a.frames, c.fault, 0);
    ArrivesWithoutFaults(a.frames, c.fault, 0);
    TakesEverything(cfg, s.control.Poll?, Track(s, 0, Going), frames);
  }

  /** Every readable entry from `from` on has been emitted. */
  ghost predicate HasAll(log: seq<LogEntry>, from: nat, sent: seq<LogEntry>) {
    forall i :: from <= i < |log| && log[i].readable ==> log[i] in sent
  }

  lemma {:induction false} LastReadable(events: seq<LogEntry>, e: LogEntry)
    requires Increasing(events) && e in events && e.readable
    ensures Readable(events) != [] && !IsNewer(e.id, Some(Readable(events)[|Readable(events)| - 1].id))
    decreases |events|
  {
    var n := |events| - 1;
    if e != events[n] {
      assert e in events[..n];
      LastReadable(events[..n], e);
      var i :| 0 <= i < n && events[i] == e;
      assert IsNewer(events[n].id, Some(events[i].id));
    }
  }

  /** A reader at the last readable event of everything newer has no readable entry ahead. */
  lemma {:induction false} NothingAhead(full: seq<LogEntry>, resume: Option<EventId>, events: seq<LogEntry>, i: nat)
    requires Increasing(full) && Served(full, resume, events) && UpToTheEnd(full, resume, events)
    requires i < |full| && full[i].readable
    ensures !IsNewer(full[i].id, Cursor(resume, Readable(events)))
  {
    hide Readable, Pos;
    var p := Pos(full, resume);
    ServedCursor(full, resume, events);
    PosSplits(full, resume);
    SliceIncreasing(full, p, |full|);
    assert events == full[p..];
    if i >= p {
      assert full[i] == events[i - p];
      LastReadable(events, full[i]);
    } else if Readable(events) != [] {
      ReadableMember(events, |Readable(events)| - 1);
      var j :| 0 <= j < |events| && events[j].readable && events[j] == Readable(events)[|Readable(events)| - 1];
      assert IsNewer(full[p + j].id, Some(full[i].id));
    }
  }

  lemma {:induction false} SliceIncreasing(log: seq<LogEntry>, from: nat, to: nat)
    requires Increasing(log) && from <= to <= |log|
    ensures Increasing(log[from..to])
  {
  }

  lemma {:induction false} LiveHasAll(log: seq<LogEntry>, o: Origin, s: ClientState, full: seq<LogEntry>)
    requires Increasing(log) && Live(log, o, s) && full <= log
    requires forall i :: 0 <= i < |full| && full[i].readable ==> !IsNewer(full[i].id, s.watermark)
    ensures HasAll(full, o.p0, s.sent)
  {
    ContiguousMeans(log, o.p0, s.sent);
    hide Contiguous, High, Pos, Increasing, IsNewer;
    forall i | o.p0 <= i < |full| && full[i].readable ensures full[i] in s.sent {
      EntryNewerIffBeyond(log, s.watermark, i);
    }
  }

  /**
   * Progress, end to end. A session in which nothing goes wrong ends the run exactly if the reply
   * holds a terminal event; otherwise, if the reply was no full batch and no read overran, the client
   * has by then emitted every readable event after its start that the server's log held.
   */
  lemma {:induction false} SmoothSessionCatchesUp(cfg: Config, log: seq<LogEntry>, afterEventId: Option<EventId>, stored: Option<EventId>,
                                                  received: seq<Received>, k: nat, c: Conditions, a: Reply)
    requires Increasing(log) && a.full <= log && !a.overran && k + 1 < |received|
    requires ProcessingIsFinal(cfg) && SafeStart(cfg, OriginOf(log, afterEventId, stored))
    requires FromServer(cfg, log, Init(cfg, afterEventId, stored), received, k + 1)
    requires var s := RunOn(cfg, Init(cfg, afterEventId, stored), received, k);
      TookReply(cfg, s, received[k], a, c) && !s.control.Ended? && Smooth(cfg, s, c, a)
    ensures var init, events := Init(cfg, afterEventId, stored), Events(a.frames);
      var s, next := RunOn(cfg, init, received, k), RunOn(cfg, init, received, k + 1);
      && (next.control == Ended(TerminalEvent) <==> HasReadableTerminal(events))
      && (!HasReadableTerminal(events) ==> !next.control.Ended? && next.watermark == Cursor(s.watermark, Readable(events)))
      && (!HasReadableTerminal(events) && |events| < FullBatch(s.control, c) ==>
            HasAll(a.full, OriginOf(log, afterEventId, stored).p0, next.sent))
  {
    hide Events, Readable, HasReadableTerminal, Served, UpToTheEnd, InOrder, HasAll, Cursor, ProcessingIsFinal, Increasing, StepOn, IsNewer,
         SafeStart, FromServer, HasTerminal, Live;
    var init, o := Init(cfg, afterEventId, stored), OriginOf(log, afterEventId, stored);
    var s, next := RunOn(cfg, init, received, k), RunOn(cfg, init, received, k + 1);
    var events := Events(a.frames);
    assert next == StepOn(cfg, s, GotThrough(c, a.frames), true);
    SmoothSessionTakesTheReply(cfg, s, c, a);
    if !HasReadableTerminal(events) && |events| < FullBatch(s.control, c) {
      ServerAndClientDeliverTheLog(cfg, log, afterEventId, stored, received, k + 1);
      assert Live(log, o, next);
      PrefixIncreasing(a.full, log);
      forall i | 0 <= i < |a.full| && a.full[i].readable ensures !IsNewer(a.full[i].id, next.watermark) {
        NothingAhead(a.full, s.watermark, events, i);
      }
      LiveHasAll(log, o, next, a.full);
    }
  }

  lemma {:induction false} PrefixIncreasing(prefix: seq<LogEntry>, log: seq<LogEntry>)
    requires Increasing(log) && prefix <= log
    ensures Increasing(prefix)
  {
    assert forall i :: 0 <= i < |prefix| ==> prefix[i] == log[i];
  }
}
