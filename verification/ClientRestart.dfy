/**
 * Crash and restart: each run is killed at any point and the next one starts from the stored
 * checkpoint with an empty window. The checkpoint is saved after the send, so a restart can
 * repeat the last event but can never lose one.
 */
module ClientRestart {
  import opened Options
  import opened EventLog
  import opened RecentIds
  import opened ClientModel
  import opened ClientDelivery

  /** What a collector that drops an immediately repeated event has after a further run. */
  function Stitch(sofar: seq<LogEntry>, run: seq<LogEntry>): seq<LogEntry> {
    if sofar != [] && run != [] && run[0] == sofar[|sofar| - 1] then sofar + run[1..] else sofar + run
  }

  datatype Journal = Journal(stitched: seq<LogEntry>, checkpoint: Option<EventId>)

  function RunOnce(cfg: Config, log: seq<LogEntry>, stored: Option<EventId>, script: seq<Session>): ClientState {
    Final(cfg, log, Init(cfg, None, stored), script)
  }

  /** The events of a sequence of runs and the checkpoint they leave behind. */
  function Restarts(cfg: Config, log: seq<LogEntry>, stored: Option<EventId>, scripts: seq<seq<Session>>): Journal {
    if scripts == [] then Journal([], stored)
    else
      var before := Restarts(cfg, log, stored, scripts[..|scripts| - 1]);
      var run := RunOnce(cfg, log, before.checkpoint, scripts[|scripts| - 1]);
      Journal(Stitch(before.stitched, run.sent), run.checkpoint)
  }

  ghost predicate NonTerminal(events: seq<LogEntry>) {
    forall e :: e in events ==> !e.terminal
  }

  ghost predicate AllStrict(scripts: seq<seq<Session>>) {
    forall r :: 0 <= r < |scripts| ==> Strict(scripts[r])
  }

  /** Nothing is missing, and the checkpoint names the last event or the one before it. */
  ghost predicate Complete(log: seq<LogEntry>, p0: nat, stored: Option<EventId>, j: Journal) {
    && Contiguous(log, p0, j.stitched)
    && (|| j.checkpoint == CheckpointAfter(j.stitched, stored, |j.stitched|)
        || (|j.stitched| > 0 && j.checkpoint == CheckpointAfter(j.stitched, stored, |j.stitched| - 1)))
  }

  lemma {:induction false} NothingReadable()
    ensures Readable([]) == []
  {
  }

  /** The stretch up to the `n`-th event, and what a reader at its checkpoint still has to read. */
  lemma {:induction false} SplitAtCheckpoint(log: seq<LogEntry>, p0: nat, stored: Option<EventId>, events: seq<LogEntry>, n: nat)
    requires Increasing(log) && Contiguous(log, p0, events) && p0 == Pos(log, stored)
    requires |events| - 1 <= n <= |events|
    ensures var p := Pos(log, CheckpointAfter(events, stored, n));
            p0 <= p <= High(log, p0, events) && Readable(log[p..High(log, p0, events)]) == events[n..]
  {
    hide Readable, IsNewer;
    NothingReadable();
    var hw := High(log, p0, events);
    if n == |events| {
      assert log[hw..hw] == [];
    } else {
      ReadableUpTo(log, p0, stored, events, n);
      var p := Pos(log, CheckpointAfter(events, stored, n));
      assert log[p0..hw] == log[p0..p] + log[p..hw];
      ReadableConcat(log[p0..p], log[p..hw]);
      assert events == events[..n] + events[n..];
    }
  }

  /** The readable entries up to the checkpoint after `n` events are exactly those `n` events. */
  lemma {:induction false} ReadableUpTo(log: seq<LogEntry>, p0: nat, stored: Option<EventId>, events: seq<LogEntry>, n: nat)
    requires Increasing(log) && Contiguous(log, p0, events) && p0 == Pos(log, stored) && n < |events|
    ensures p0 <= Pos(log, CheckpointAfter(events, stored, n)) <= High(log, p0, events)
    ensures Readable(log[p0..Pos(log, CheckpointAfter(events, stored, n))]) == events[..n]
  {
    hide Pos, Readable, IsNewer;
    NothingReadable();
    var hw := High(log, p0, events);
    if n == 0 {
      assert log[p0..p0] == [];
    } else {
      var i := SentIsBelow(log, p0, events, n - 1);
      PosOfEntry(log, i);
      PrefixUpTo(log[p0..hw], i - p0, n - 1);
      assert log[p0..hw][..i - p0 + 1] == log[p0..i + 1];
    }
  }

  /** In an increasing log, cutting just after the `k`-th readable entry keeps the first `k + 1`. */
  lemma {:induction false} PrefixUpTo(log: seq<LogEntry>, i: nat, k: nat)
    requires Increasing(log) && k < |Readable(log)| && i < |log| && log[i] == Readable(log)[k]
    ensures Readable(log[..i + 1]) == Readable(log)[..k + 1]
  {
    var left, right := log[..i + 1], log[i + 1..];
    assert log == left + right;
    ReadableConcat(left, right);
    ReadableIncreasing(log);
    ReadableMember(log, k);
    var m :| 0 <= m < |log| && log[m].readable && log[m] == Readable(log)[k];
    PosOfEntry(log, m);
    PosOfEntry(log, i);
    assert left[..|left| - 1] == log[..i];
    var r := Readable(left);
    assert r[|r| - 1] == log[i] && Readable(log)[|r| - 1] == log[i];
    PosOfEntry(Readable(log), k);
    PosOfEntry(Readable(log), |r| - 1);
  }

  /** A run that starts where the earlier events end continues them. */
  lemma {:induction false} StitchAdjacent(log: seq<LogEntry>, p0: nat, events: seq<LogEntry>, run: seq<LogEntry>)
    requires Increasing(log) && Contiguous(log, p0, events)
    requires Contiguous(log, High(log, p0, events), run)
    ensures Contiguous(log, p0, events + run)
    ensures Stitch(events, run) == events + run
  {
    hide Readable;
    var hw := High(log, p0, events);
    var end := High(log, hw, run);
    assert log[p0..end] == log[p0..hw] + log[hw..end];
    ReadableConcat(log[p0..hw], log[hw..end]);
    if run == [] {
      assert events + run == events;
    } else if events != [] {
      var first := SentIsBelow(log, hw, run, 0);
      var before := SentIsBelow(log, p0, events, |events| - 1);
      PosOfEntry(log, first);
      PosOfEntry(log, before);
    }
  }

  /** A run that starts one event early sends that event again and then continues. */
  lemma {:induction false} StitchOverlapping(log: seq<LogEntry>, p0: nat, events: seq<LogEntry>, p: nat, run: seq<LogEntry>)
    requires Increasing(log) && Contiguous(log, p0, events) && events != []
    requires p0 <= p <= High(log, p0, events) && Readable(log[p..High(log, p0, events)]) == [events[|events| - 1]]
    requires Contiguous(log, p, run) && run != []
    ensures run[0] == events[|events| - 1]
    ensures Contiguous(log, p0, events + run[1..])
  {
    hide Readable;
    var hw, end := High(log, p0, events), High(log, p, run);
    OverlapReachesHigh(log, p0, events, p, run);
    assert log[p..end] == log[p..hw] + log[hw..end];
    ReadableConcat(log[p..hw], log[hw..end]);
    assert run[1..] == Readable(log[hw..end]);
    assert log[p0..end] == log[p0..hw] + log[hw..end];
    ReadableConcat(log[p0..hw], log[hw..end]);
    var all := events + run[1..];
    assert all[|all| - 1] == run[|run| - 1];
  }

  /** A stretch with a readable entry reaches past one without. */
  lemma {:induction false} ReachesPast(log: seq<LogEntry>, p: nat, mid: nat, end: nat)
    requires p <= mid <= |log| && p <= end <= |log|
    requires Readable(log[p..mid]) == [] && Readable(log[p..end]) != []
    ensures mid < end
  {
    if end <= mid {
      assert log[p..mid] == log[p..end] + log[end..mid];
      ReadableConcat(log[p..end], log[end..mid]);
    }
  }

  lemma {:induction false} LastIsAtHigh(log: seq<LogEntry>, p0: nat, events: seq<LogEntry>)
    requires Increasing(log) && Contiguous(log, p0, events) && events != []
    ensures p0 < High(log, p0, events) && log[High(log, p0, events) - 1] == events[|events| - 1]
    ensures log[High(log, p0, events) - 1].readable
  {
    var last := SentIsBelow(log, p0, events, |events| - 1);
    PosOfEntry(log, last);
    ReadableIsReadable(log[p0..High(log, p0, events)], events[|events| - 1]);
  }

  lemma {:induction false} ReadableIsReadable(log: seq<LogEntry>, e: LogEntry)
    requires e in Readable(log)
    ensures e.readable
  {
    if log != [] && e in Readable(log[..|log| - 1]) {
      ReadableIsReadable(log[..|log| - 1], e);
    }
  }

  /** A nonempty run that starts before the last event goes at least as far as that event. */
  lemma {:induction false} OverlapReachesHigh(log: seq<LogEntry>, p0: nat, events: seq<LogEntry>, p: nat, run: seq<LogEntry>)
    requires Increasing(log) && Contiguous(log, p0, events) && events != []
    requires p <= High(log, p0, events) && Readable(log[p..High(log, p0, events)]) == [events[|events| - 1]]
    requires Contiguous(log, p, run) && run != []
    ensures High(log, p0, events) <= High(log, p, run)
  {
    var hw := High(log, p0, events);
    LastIsAtHigh(log, p0, events);
    assert log[hw..hw] == [];
    ReadableSnoc(log, p, hw - 1);
    ReachesPast(log, p, hw - 1, High(log, p, run));
  }

  lemma {:induction false} StitchIsContiguous(log: seq<LogEntry>, p0: nat, stored: Option<EventId>, events: seq<LogEntry>, n: nat, run: seq<LogEntry>)
    requires Increasing(log) && Contiguous(log, p0, events) && p0 == Pos(log, stored)
    requires |events| - 1 <= n <= |events|
    requires Contiguous(log, Pos(log, CheckpointAfter(events, stored, n)), run)
    ensures Contiguous(log, p0, Stitch(events, run))
    ensures Stitch(events, run) == if n < |events| && run != [] then events + run[1..] else events + run
    ensures n < |events| && run != [] ==> run[0] == events[|events| - 1]
  {
    if n == |events| {
      StitchAdjacent(log, p0, events, run);
    } else if run != [] {
      SplitAtCheckpoint(log, p0, stored, events, n);
      assert events[n..] == [events[|events| - 1]];
      StitchOverlapping(log, p0, events, Pos(log, CheckpointAfter(events, stored, n)), run);
    } else {
      assert events + run == events;
    }
  }

  /** The checkpoint still names the last event or the one before it after stitching. */
  lemma {:induction false} CheckpointOfStitch(stored: Option<EventId>, events: seq<LogEntry>, n: nat, run: seq<LogEntry>, m: nat)
    requires |events| - 1 <= n <= |events| && |run| - 1 <= m <= |run|
    requires n < |events| && run != [] ==> run[0] == events[|events| - 1]
    ensures var all := if n < |events| && run != [] then events + run[1..] else events + run;
            var checkpoint := CheckpointAfter(run, CheckpointAfter(events, stored, n), m);
            || checkpoint == CheckpointAfter(all, stored, |all|)
            || (|all| > 0 && checkpoint == CheckpointAfter(all, stored, |all| - 1))
  {
    if run == [] {
      assert events + run == events;
    }
  }

  lemma {:induction false} RunOnceIsContiguous(cfg: Config, log: seq<LogEntry>, stored: Option<EventId>, script: seq<Session>) returns (m: nat)
    requires Increasing(log) && ProcessingIsFinal(cfg) && Strict(script)
    requires NonTerminal(RunOnce(cfg, log, stored, script).sent)
    ensures Contiguous(log, Pos(log, stored), RunOnce(cfg, log, stored, script).sent)
    ensures var run := RunOnce(cfg, log, stored, script);
            |run.sent| - 1 <= m <= |run.sent| && run.checkpoint == CheckpointAfter(run.sent, stored, m)
  {
    StrictServerDeliversTheLog(cfg, log, None, stored, script, |script|);
    var run := RunOnce(cfg, log, stored, script);
    assert run.sent != [] ==> run.sent[|run.sent| - 1] in run.sent;
    m := if run.checkpoint == CheckpointAfter(run.sent, stored, |run.sent|) then |run.sent| else |run.sent| - 1;
  }

  /** One more contiguous run keeps the journal complete. */
  lemma {:induction false} RunKeepsComplete(log: seq<LogEntry>, p0: nat, stored: Option<EventId>, before: Journal, run: seq<LogEntry>, m: nat)
    requires Increasing(log) && p0 == Pos(log, stored)
    requires Complete(log, p0, stored, before)
    requires Contiguous(log, Pos(log, before.checkpoint), run) && |run| - 1 <= m <= |run|
    ensures Complete(log, p0, stored, Journal(Stitch(before.stitched, run), CheckpointAfter(run, before.checkpoint, m)))
  {
    var events := before.stitched;
    var n := if before.checkpoint == CheckpointAfter(events, stored, |events|) then |events| else |events| - 1;
    StitchIsContiguous(log, p0, stored, events, n, run);
    CheckpointOfStitch(stored, events, n, run, m);
  }

  /**
   * Over any sequence of killed and restarted runs that reach no terminal event, the sends stitched
   * together are a contiguous stretch of the log: no gap, and each restart repeats at most one event.
   */
  lemma {:induction false} RestartsLoseNothing(cfg: Config, log: seq<LogEntry>, stored: Option<EventId>, scripts: seq<seq<Session>>)
    requires Increasing(log) && ProcessingIsFinal(cfg) && AllStrict(scripts)
    requires forall r :: 0 <= r < |scripts| ==>
      NonTerminal(RunOnce(cfg, log, Restarts(cfg, log, stored, scripts[..r]).checkpoint, scripts[r]).sent)
    ensures Complete(log, Pos(log, stored), stored, Restarts(cfg, log, stored, scripts))
  {
    if scripts == [] {
      EmptyAtOrigin(log, Pos(log, stored));
    } else {
      var last := |scripts| - 1;
      var earlier := scripts[..last];
      forall r | 0 <= r < last
        ensures NonTerminal(RunOnce(cfg, log, Restarts(cfg, log, stored, earlier[..r]).checkpoint, earlier[r]).sent)
      {
        assert earlier[..r] == scripts[..r];
      }
      assert AllStrict(earlier);
      RestartsLoseNothing(cfg, log, stored, earlier);
      var before := Restarts(cfg, log, stored, earlier);
      var m := RunOnceIsContiguous(cfg, log, before.checkpoint, scripts[last]);
      RunKeepsComplete(log, Pos(log, stored), stored, before, RunOnce(cfg, log, before.checkpoint, scripts[last]).sent, m);
    }
  }
}
