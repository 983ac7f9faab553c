/**
 * When an explicit `afterEventId` is honoured. Every backoff reloads the stored checkpoint, so an
 * explicit id that disagrees with the store is forgotten by the first backoff before an emission.
 */
module ClientExplicitId {
  import opened Options
  import opened EventLog
  import opened RecentIds
  import opened ClientModel
  import opened ClientDelivery
  import opened ClientClassifier

  /** A poll fails with an error that is backed off. */
  function Drop(e: Throwable): Session {
    Session(0, [], Failed(e))
  }

  /** The streaming transports close without a word, the poll fails; then one event gets through. */
  function BackoffThenDeliver(cfg: Config, e: Throwable): seq<Session> {
    match Enter(cfg)
    case Ws(_) => if AfterWs(cfg).Sse? then [CLOSE, CLOSE, Drop(e), DELIVER_ONE] else [CLOSE, Drop(e), DELIVER_ONE]
    case Sse(_) => [CLOSE, Drop(e), DELIVER_ONE]
    case _ => [Drop(e), DELIVER_ONE]
  }

  lemma {:induction false} CloseFallsBack(cfg: Config, log: seq<LogEntry>, s: ClientState)
    requires s.control.Ws? || s.control.Sse?
    ensures Step(cfg, log, s, CLOSE, true) == s.(control := if s.control.Ws? then AfterWs(cfg) else Poll)
  {
  }

  lemma {:induction false} DropReloadsTheStore(cfg: Config, log: seq<LogEntry>, s: ClientState, e: Throwable)
    requires Escape(cfg, Public(e), true).None? && s.control.Poll? && s.checkpoint.Some?
    ensures Step(cfg, log, s, Drop(e), true)
         == s.(control := Enter(cfg), attempt := s.attempt + 1, malformed := 0, watermark := s.checkpoint, cycle := s.checkpoint)
  {
  }

  /** After the backoff the run continues from the store, not from the explicit id. */
  lemma {:induction false} BackoffForgetsTheExplicitId(cfg: Config, log: seq<LogEntry>, afterEventId: Option<EventId>, c: EventId, e: Throwable)
    requires Escape(cfg, Public(e), true).None?
    requires Pos(log, Some(c)) < |log| && log[Pos(log, Some(c))].readable
    ensures Strict(BackoffThenDeliver(cfg, e))
    ensures Final(cfg, log, Init(cfg, afterEventId, Some(c)), BackoffThenDeliver(cfg, e)).sent == [log[Pos(log, Some(c))]]
  {
    hide Step;
    var s0 := Init(cfg, afterEventId, Some(c));
    var script := BackoffThenDeliver(cfg, e);
    var n := |script| - 2;
    assert Run(cfg, log, s0, script, n) == s0.(control := Poll) by {
      if n >= 1 {
        CloseFallsBack(cfg, log, s0);
        assert Run(cfg, log, s0, script, 1) == Step(cfg, log, s0, script[0], true);
      }
      if n == 2 {
        var s1 := Run(cfg, log, s0, script, 1);
        CloseFallsBack(cfg, log, s1);
        assert Run(cfg, log, s0, script, 2) == Step(cfg, log, s1, script[1], true);
      }
    }
    var sn := Run(cfg, log, s0, script, n);
    DropReloadsTheStore(cfg, log, sn, e);
    var sb := Run(cfg, log, s0, script, n + 1);
    assert sb == Step(cfg, log, sn, Drop(e), true);
    DeliverOne(cfg, log, sb);
    assert Final(cfg, log, s0, script) == Step(cfg, log, sb, DELIVER_ONE, false);
  }

  lemma {:induction false} DisagreementIsUnfaithful(cfg: Config, a: EventId, c: EventId, e: Throwable) returns (log: seq<LogEntry>)
    requires Escape(cfg, Public(e), true).None? && a != c
    ensures Increasing(log) && Strict(BackoffThenDeliver(cfg, e))
    ensures !Faithful(cfg, log, Some(a), Some(c), BackoffThenDeliver(cfg, e))
  {
    hide Run, BackoffThenDeliver;
    if IsNewer(c, Some(a)) {
      // The store is ahead of the explicit id: the event `c` itself is skipped.
      log := [LogEntry(c, true, false, "skipped"), LogEntry(EventId(c.ms, c.num + 1), true, false, "sent")];
      PosUnique(log, Some(a), 0);
      PosUnique(log, Some(c), 1);
      BackoffForgetsTheExplicitId(cfg, log, Some(a), c, e);
      assert log[0..] == log;
      assert Readable(log)[0] == log[0] by {
        assert Readable(log[..1]) == [log[0]] by { assert log[..1][..0] == []; }
      }
    } else {
      // The store is behind the explicit id: the event `a` is sent although the caller has it.
      log := [LogEntry(a, true, false, "repeated")];
      PosUnique(log, Some(a), 1);
      PosUnique(log, Some(c), 0);
      BackoffForgetsTheExplicitId(cfg, log, Some(a), c, e);
      assert log[1..] == [];
    }
  }

  lemma {:induction false} AgreementIsFaithful(cfg: Config, log: seq<LogEntry>, afterEventId: Option<EventId>, stored: Option<EventId>, script: seq<Session>)
    requires ProcessingIsFinal(cfg) && Increasing(log) && Strict(script)
    requires afterEventId.None? || stored.None? || afterEventId == stored || !MayBackOff(cfg)
    ensures Faithful(cfg, log, afterEventId, stored, script)
  {
    var o := OriginOf(log, afterEventId, stored);
    StrictServerDeliversTheLog(cfg, log, afterEventId, stored, script, |script|);
    ContiguousIsPrefix(log, o.p0, Final(cfg, log, Init(cfg, afterEventId, stored), script).sent);
    hide Contiguous, Readable, Run;
  }

  /** A retried send loses the first event after any start. */
  lemma {:induction false} LossIsUnfaithful(cfg: Config, afterEventId: Option<EventId>, stored: Option<EventId>, e: Throwable)
    returns (log: seq<LogEntry>)
    requires HasSpareAttempt(cfg, e)
    ensures Increasing(log) && Strict(FailThenGoOn(cfg, LoseOne(e), DELIVER_ONE))
    ensures !Faithful(cfg, log, afterEventId, stored, FailThenGoOn(cfg, LoseOne(e), DELIVER_ONE))
  {
    hide Run, FailThenGoOn;
    var start := OriginOf([], afterEventId, stored).start;
    var ms := if start.Some? then start.value.ms + 1 else 0;
    log := [LogEntry(EventId(ms, 1), true, false, "lost"), LogEntry(EventId(ms, 2), true, false, "sent")];
    PosUnique(log, start, 0);
    RetriedSendIsLost(cfg, log, afterEventId, stored, e);
    assert log[0..] == log;
    assert Readable(log)[0] == log[0] by {
      assert Readable(log[..1]) == [log[0]] by { assert log[..1][..0] == []; }
    }
  }

  /**
   * Exactly when an explicit id, or the stored one, is honoured on every log and under every network
   * behaviour: no processing error is retried, and there is no explicit id, the store holds nothing
   * for the task, the two agree, or the configuration never backs off.
   */
  lemma {:induction false} ExplicitIdHonouredIff(cfg: Config, afterEventId: Option<EventId>, stored: Option<EventId>)
    ensures (forall log, script :: Increasing(log) && Strict(script) ==> Faithful(cfg, log, afterEventId, stored, script))
       <==> ProcessingIsFinal(cfg) && (afterEventId.None? || stored.None? || afterEventId == stored || !MayBackOff(cfg))
  {
    hide Faithful, Strict, Increasing, IsFinalError;
    if !ProcessingIsFinal(cfg) {
      var e :| !IsFinalError(cfg, Processing(e));
      var log := LossIsUnfaithful(cfg, afterEventId, stored, e);
    } else if afterEventId.None? || stored.None? || afterEventId == stored || !MayBackOff(cfg) {
      forall log, script | Increasing(log) && Strict(script) ensures Faithful(cfg, log, afterEventId, stored, script) {
        AgreementIsFaithful(cfg, log, afterEventId, stored, script);
      }
    } else {
      var e :| Escape(cfg, Public(e), true).None?;
      var log := DisagreementIsUnfaithful(cfg, afterEventId.value, stored.value, e);
    }
  }

  /** The default classifier backs off, and never retries a processing error: only agreement is left. */
  lemma {:induction false} DefaultBacksOff(cfg: Config)
    requires HasDefaultClassifier(cfg)
    ensures ProcessingIsFinal(cfg) && MayBackOff(cfg)
  {
    DefaultIsFinal(cfg);
    assert Escape(cfg, Public(Io), true).None?;
  }
}
