/**
 * Which failure classifiers keep the promises. The error classification is an interface the host may
 * implement; a streaming transport that is retried after a failed send or save loses an event.
 */
module ClientClassifier {
  import opened Options
  import opened EventLog
  import opened RecentIds
  import opened ClientModel
  import opened ClientDelivery
  import opened ClientLimits
  import opened ClientRestart

  const CLOSE := Session(0, [], Closed)

  /** The send of one event fails. */
  function LoseOne(e: Throwable): Session {
    Session(0, [NextEntry(SendFails(Processing(e)))], Closed)
  }

  /** Reaches a streaming transport that has an attempt to spare, fails it there, and goes on. */
  function FailThenGoOn(cfg: Config, failing: Session, next: Session): seq<Session> {
    if cfg.wsMaxAttempts == 1 then [CLOSE, failing, next] else [failing, next]
  }

  /** Where that transport is. */
  function SpareTransport(cfg: Config, failures: nat): Control {
    if cfg.wsMaxAttempts >= 2 then Ws(failures) else Sse(failures)
  }

  ghost predicate HasSpareAttempt(cfg: Config, e: Throwable) {
    !IsFinalError(cfg, Processing(e))
  }

  lemma {:induction false} ReachesTheSpare(cfg: Config, log: seq<LogEntry>, s: ClientState, failing: Session, next: Session, e: Throwable)
    requires HasSpareAttempt(cfg, e) && s.control == Enter(cfg)
    ensures var script := FailThenGoOn(cfg, failing, next);
      Run(cfg, log, s, script, |script| - 2) == s.(control := SpareTransport(cfg, 0))
  {
    if cfg.wsMaxAttempts == 1 {
      assert Observe(cfg, log, s, CLOSE).state == s;
      assert Run(cfg, log, s, FailThenGoOn(cfg, failing, next), 1) == Step(cfg, log, s, CLOSE, true);
    }
  }

  /** A retryable processing error on the first attempt leads to a second one. */
  lemma {:induction false} SpareIsUsed(cfg: Config, log: seq<LogEntry>, s: ClientState, failing: Session, e: Throwable)
    requires HasSpareAttempt(cfg, e) && s.control == SpareTransport(cfg, 0)
    requires Observe(cfg, log, s, failing).halt == Threw(Processing(e))
    ensures Step(cfg, log, s, failing, true) == Observe(cfg, log, s, failing).state.(control := SpareTransport(cfg, 1))
  {
    hide Observe;
  }

  lemma {:induction false} SendIsLost(cfg: Config, log: seq<LogEntry>, s: ClientState, e: Throwable)
    requires !s.control.Ended? && Pos(log, s.watermark) < |log|
    requires log[Pos(log, s.watermark)].readable && log[Pos(log, s.watermark)].id !in s.window
    ensures var t, event := Observe(cfg, log, s, LoseOne(e)), log[Pos(log, s.watermark)];
      && t.halt == Threw(Processing(e))
      && t.state == s.(watermark := Some(event.id), window := Push(s.window, DEFAULT_CAPACITY, event.id))
  {
    var at := Pos(log, s.watermark);
    var t0 := Track(s, at, Going);
    var arrivals := LoseOne(e).arrivals;
    assert arrivals[1..] == [];
    var t1 := Arrive(cfg, log, s.control.Poll?, t0, arrivals[0]);
    assert Receive(cfg, log, s.control.Poll?, t0, arrivals) == t1;
  }

  /**
   * The failed send has already marked the id and moved the watermark, so the retry never asks for
   * the event again, wherever the run starts.
   */
  lemma {:induction false} RetriedSendIsLost(cfg: Config, log: seq<LogEntry>, afterEventId: Option<EventId>, stored: Option<EventId>, e: Throwable)
    requires HasSpareAttempt(cfg, e) && Increasing(log)
    requires var p := OriginOf(log, afterEventId, stored).p0; p + 2 <= |log| && log[p].readable && log[p + 1].readable
    ensures Strict(FailThenGoOn(cfg, LoseOne(e), DELIVER_ONE))
    ensures Final(cfg, log, Init(cfg, afterEventId, stored), FailThenGoOn(cfg, LoseOne(e), DELIVER_ONE)).sent
         == [log[OriginOf(log, afterEventId, stored).p0 + 1]]
  {
    hide Receive, Emit, Pos;
    var script, s0 := FailThenGoOn(cfg, LoseOne(e), DELIVER_ONE), Init(cfg, afterEventId, stored);
    var n, p := |script|, OriginOf(log, afterEventId, stored).p0;
    ReachesTheSpare(cfg, log, s0, LoseOne(e), DELIVER_ONE, e);
    var s1 := Run(cfg, log, s0, script, n - 2);
    SendIsLost(cfg, log, s1, e);
    SpareIsUsed(cfg, log, s1, LoseOne(e), e);
    var s2 := Run(cfg, log, s0, script, n - 1);
    assert s2 == Step(cfg, log, s1, LoseOne(e), true);
    PosOfEntry(log, p);
    assert IsNewer(log[p + 1].id, Some(log[p].id));
    assert [] + [log[p].id] == [log[p].id] == s2.window;
    DeliverOne(cfg, log, s2);
    assert Final(cfg, log, s0, script) == Step(cfg, log, s2, DELIVER_ONE, false);
  }

  const TWO_EVENTS := [LogEntry(EventId(0, 1), true, false, "lost"), LogEntry(EventId(0, 2), true, false, "sent")]

  /** Beginning with the second event is no contiguous delivery. */
  lemma {:induction false} SecondIsNoBeginning()
    ensures Increasing(TWO_EVENTS) && Pos(TWO_EVENTS, None) == 0
    ensures !Contiguous(TWO_EVENTS, 0, [TWO_EVENTS[1]])
  {
    assert TWO_EVENTS[0..] == TWO_EVENTS && TWO_EVENTS[..1] == [TWO_EVENTS[0]] && [TWO_EVENTS[0]][..0] == [];
    assert Readable(TWO_EVENTS)[0] == TWO_EVENTS[0];
    if Contiguous(TWO_EVENTS, 0, [TWO_EVENTS[1]]) {
      ContiguousIsPrefix(TWO_EVENTS, 0, [TWO_EVENTS[1]]);
    }
  }

  ghost predicate Delivers(cfg: Config, log: seq<LogEntry>, afterEventId: Option<EventId>, stored: Option<EventId>, script: seq<Session>, k: nat)
    requires k <= |script|
  {
    Sound(log, OriginOf(log, afterEventId, stored), Run(cfg, log, Init(cfg, afterEventId, stored), script, k))
  }

  /**
   * Exactly which configurations deliver the log against every strict server and under every network
   * behaviour: a processing error is never retried, or there is never a second attempt.
   */
  lemma {:induction false} DeliversIff(cfg: Config)
    ensures (forall log, afterEventId, stored, script, k: nat ::
               Increasing(log) && Strict(script) && k <= |script| && SafeStart(cfg, OriginOf(log, afterEventId, stored)) ==>
                 Delivers(cfg, log, afterEventId, stored, script, k))
       <==> ProcessingIsFinal(cfg)
  {
    if ProcessingIsFinal(cfg) {
      forall log, afterEventId, stored, script, k: nat
        | Increasing(log) && Strict(script) && k <= |script| && SafeStart(cfg, OriginOf(log, afterEventId, stored))
        ensures Delivers(cfg, log, afterEventId, stored, script, k)
      {
        StrictServerDeliversTheLog(cfg, log, afterEventId, stored, script, k);
      }
    } else {
      var e :| !IsFinalError(cfg, Processing(e));
      var script := FailThenGoOn(cfg, LoseOne(e), DELIVER_ONE);
      SecondIsNoBeginning();
      RetriedSendIsLost(cfg, TWO_EVENTS, None, None, e);
      assert !Delivers(cfg, TWO_EVENTS, None, None, script, |script|);
    }
  }

  ghost predicate Restartable(cfg: Config, log: seq<LogEntry>, stored: Option<EventId>, scripts: seq<seq<Session>>) {
    && AllStrict(scripts)
    && forall r :: 0 <= r < |scripts| ==>
         NonTerminal(RunOnce(cfg, log, Restarts(cfg, log, stored, scripts[..r]).checkpoint, scripts[r]).sent)
  }

  /** The same condition decides whether killed and restarted runs lose nothing. */
  lemma {:induction false} RestartsLoseNothingIff(cfg: Config)
    ensures (forall log, stored, scripts :: Increasing(log) && Restartable(cfg, log, stored, scripts) ==>
               Complete(log, Pos(log, stored), stored, Restarts(cfg, log, stored, scripts)))
       <==> ProcessingIsFinal(cfg)
  {
    if ProcessingIsFinal(cfg) {
      forall log, stored, scripts | Increasing(log) && Restartable(cfg, log, stored, scripts)
        ensures Complete(log, Pos(log, stored), stored, Restarts(cfg, log, stored, scripts))
      {
        RestartsLoseNothing(cfg, log, stored, scripts);
      }
    } else {
      var e :| !IsFinalError(cfg, Processing(e));
      var script := FailThenGoOn(cfg, LoseOne(e), DELIVER_ONE);
      SecondIsNoBeginning();
      RetriedSendIsLost(cfg, TWO_EVENTS, None, None, e);
      OneRun(cfg, TWO_EVENTS, script);
      assert Restartable(cfg, TWO_EVENTS, None, [script]);
    }
  }

  lemma {:induction false} OneRun(cfg: Config, log: seq<LogEntry>, script: seq<Session>)
    ensures [script][..0] == []
    ensures Restarts(cfg, log, None, []).checkpoint == None
    ensures Restarts(cfg, log, None, [script]).stitched == RunOnce(cfg, log, None, script).sent
  {
    assert [script][..0] == [];
    assert [] + RunOnce(cfg, log, None, script).sent == RunOnce(cfg, log, None, script).sent;
  }

  // The malformed budget

  function Junks(n: nat): seq<Arrival> {
    if n == 0 then [] else [Junk] + Junks(n - 1)
  }

  lemma {:induction false} JunksAreCounted(cfg: Config, log: seq<LogEntry>, t: Track, n: nat)
    requires t.halt == Going && n > 0 && t.state.malformed + n == cfg.maxMalformed + 1
    ensures var r := Receive(cfg, log, false, t, Junks(n));
      r.halt == Threw(Processing(Io)) && r.state == t.state.(malformed := cfg.maxMalformed + 1)
    decreases n
  {
    var t1 := Arrive(cfg, log, false, t, Junk);
    assert Junks(n)[0] == Junk && Junks(n)[1..] == Junks(n - 1);
    if n > 1 {
      JunksAreCounted(cfg, log, t1, n - 1);
    }
  }

  ghost predicate KeepsBudget(cfg: Config, log: seq<LogEntry>, afterEventId: Option<EventId>, stored: Option<EventId>, script: seq<Session>, k: nat)
    requires k <= |script|
  {
    WithinBudget(cfg, Run(cfg, log, Init(cfg, afterEventId, stored), script, k))
  }

  /** Exactly which configurations keep the budget: the error of an exceeded budget is never retried. */
  lemma {:induction false} MalformedBudgetIff(cfg: Config)
    ensures (forall log, afterEventId, stored, script, k: nat :: k <= |script| ==> KeepsBudget(cfg, log, afterEventId, stored, script, k))
       <==> IsFinalError(cfg, Processing(Io))
  {
    if IsFinalError(cfg, Processing(Io)) {
      forall log, afterEventId, stored, script, k: nat | k <= |script| ensures KeepsBudget(cfg, log, afterEventId, stored, script, k) {
        MalformedBudgetHolds(cfg, log, Init(cfg, afterEventId, stored), script, k);
      }
    } else {
      var flood := Session(0, Junks(cfg.maxMalformed + 1), Closed);
      var script, s0 := FailThenGoOn(cfg, flood, CLOSE), Init(cfg, None, None);
      var n := |script|;
      ReachesTheSpare(cfg, [], s0, flood, CLOSE, Io);
      var s1 := Run(cfg, [], s0, script, n - 2);
      JunksAreCounted(cfg, [], Track(s1, StartOf([], s1.watermark, 0), Going), cfg.maxMalformed + 1);
      SpareIsUsed(cfg, [], s1, flood, Io);
      assert Run(cfg, [], s0, script, n - 1) == Step(cfg, [], s1, flood, true);
      assert !KeepsBudget(cfg, [], None, None, script, n - 1);
    }
  }
}
