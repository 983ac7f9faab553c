/**
 * The event log of one task: numeric event ids, the order on them, and the reads that every
 * transport is built from. An entry is `readable` when the client can decode it into an event.
 */
module EventLog {
  import opened Options

  /** A stream id `ms-num`; both parts are compared as numbers. */
  datatype EventId = EventId(ms: nat, num: nat)

  datatype LogEntry = LogEntry(id: EventId, readable: bool, terminal: bool, data: string)

  /** Tuple comparison of two ids; an absent checkpoint is older than everything. */
  predicate IsNewer(candidate: EventId, checkpoint: Option<EventId>) {
    match checkpoint
    case None => true
    case Some(c) => candidate.ms > c.ms || (candidate.ms == c.ms && candidate.num > c.num)
  }

  ghost predicate Increasing(log: seq<LogEntry>) {
    forall i, j :: 0 <= i < j < |log| ==> IsNewer(log[j].id, Some(log[i].id))
  }

  /** The place in the log where a reader holding `after` continues. */
  function Pos(log: seq<LogEntry>, after: Option<EventId>): (p: nat)
    ensures p <= |log|
  {
    if log == [] || IsNewer(log[0].id, after) then 0 else 1 + Pos(log[1..], after)
  }

  /** The comprehension `[e for e in events if newer(e, after)]`. */
  function NewerThan(log: seq<LogEntry>, after: Option<EventId>): seq<LogEntry> {
    if log == [] then []
    else (if IsNewer(log[0].id, after) then [log[0]] else []) + NewerThan(log[1..], after)
  }

  function Take<T>(s: seq<T>, n: nat): seq<T> {
    if n <= |s| then s[..n] else s
  }

  /** A read: everything newer than `after`, cut to `limit` entries. */
  function ReadAfter(log: seq<LogEntry>, after: Option<EventId>, limit: nat): seq<LogEntry> {
    Take(NewerThan(log, after), limit)
  }

  /** Where a reader stands after receiving `batch`: at its last entry, or where it was. */
  function Cursor(after: Option<EventId>, batch: seq<LogEntry>): Option<EventId> {
    if batch == [] then after else Some(batch[|batch| - 1].id)
  }

  /** `sent` is the contiguous slice of the log that starts just after the reader's id. */
  ghost predicate Served(log: seq<LogEntry>, start: Option<EventId>, sent: seq<LogEntry>) {
    var p := Pos(log, start);
    p + |sent| <= |log| && sent == log[p..p + |sent|]
  }

  ghost predicate InOrder(log: seq<LogEntry>, start: Option<EventId>, sent: seq<LogEntry>) {
    && Increasing(sent)
    && forall e :: e in sent ==> e in log && IsNewer(e.id, start)
  }

  /** The entries a client can decode, in order. */
  function Readable(log: seq<LogEntry>): seq<LogEntry> {
    if log == [] then []
    else Readable(log[..|log| - 1]) + (if log[|log| - 1].readable then [log[|log| - 1]] else [])
  }

  lemma {:induction false} PosSplits(log: seq<LogEntry>, after: Option<EventId>)
    ensures var p := Pos(log, after);
            && (p < |log| ==> IsNewer(log[p].id, after))
            && (forall i :: 0 <= i < p ==> !IsNewer(log[i].id, after))
  {
    if log != [] && !IsNewer(log[0].id, after) {
      PosSplits(log[1..], after);
      forall i | 0 <= i < Pos(log, after) ensures !IsNewer(log[i].id, after) {
        if i > 0 { assert log[i] == log[1..][i - 1]; }
      }
    }
  }

  lemma {:induction false} PosUnique(log: seq<LogEntry>, after: Option<EventId>, p: nat)
    requires Increasing(log) && p <= |log|
    requires p < |log| ==> IsNewer(log[p].id, after)
    requires p > 0 ==> !IsNewer(log[p - 1].id, after)
    ensures Pos(log, after) == p
  {
    PosSplits(log, after);
    forall i | 0 <= i < p ensures !IsNewer(log[i].id, after) {
      if i < p - 1 { assert IsNewer(log[p - 1].id, Some(log[i].id)); }
    }
  }

  lemma {:induction false} PosOfEntry(log: seq<LogEntry>, i: nat)
    requires Increasing(log) && i < |log|
    ensures Pos(log, Some(log[i].id)) == i + 1
  {
    PosUnique(log, Some(log[i].id), i + 1);
  }

  lemma {:induction false} EntryNewerIffBeyond(log: seq<LogEntry>, after: Option<EventId>, i: nat)
    requires Increasing(log) && i < |log|
    ensures IsNewer(log[i].id, after) <==> Pos(log, after) <= i
  {
    var p := Pos(log, after);
    PosSplits(log, after);
    if p < i {
      assert IsNewer(log[i].id, Some(log[p].id));
    }
  }

  /** Appending never moves a reader: the position depends only on the entries before it. */
  lemma {:induction false} PosStable(log: seq<LogEntry>, more: seq<LogEntry>, after: Option<EventId>)
    requires Increasing(log + more)
    ensures Increasing(log)
    ensures Pos(log, after) < |log| ==> Pos(log + more, after) == Pos(log, after)
    ensures Pos(log + more, after) >= Pos(log, after)
  {
    hide IsNewer, Pos;
    forall i, j | 0 <= i < j < |log| ensures IsNewer(log[j].id, Some(log[i].id)) {
      assert (log + more)[i] == log[i] && (log + more)[j] == log[j];
    }
    var p := Pos(log, after);
    PosSplits(log, after);
    PosSplits(log + more, after);
    if p < |log| {
      assert (log + more)[p] == log[p];
      if p > 0 { assert (log + more)[p - 1] == log[p - 1]; }
      PosUnique(log + more, after, p);
    } else {
      assert forall i :: 0 <= i < p ==> (log + more)[i] == log[i];
    }
  }

  lemma {:induction false} NewerThanIsSuffix(log: seq<LogEntry>, after: Option<EventId>)
    requires Increasing(log)
    ensures NewerThan(log, after) == log[Pos(log, after)..]
  {
    if log != [] {
      assert Increasing(log[1..]);
      NewerThanIsSuffix(log[1..], after);
      if IsNewer(log[0].id, after) {
        forall i | 0 < i < |log| ensures IsNewer(log[i].id, after) {
          assert IsNewer(log[i].id, Some(log[0].id));
        }
        assert Pos(log[1..], after) == 0;
      }
    }
  }

  /** A read is the contiguous slice that starts just after the cursor. */
  lemma {:induction false} ReadAfterIsSlice(log: seq<LogEntry>, after: Option<EventId>, limit: nat)
    requires Increasing(log)
    ensures var p := Pos(log, after);
            var n := if |log| - p <= limit then |log| else p + limit;
            ReadAfter(log, after, limit) == log[p..n]
  {
    NewerThanIsSuffix(log, after);
  }

  lemma {:induction false} ReadableSnoc(log: seq<LogEntry>, a: nat, b: nat)
    requires a <= b < |log|
    ensures Readable(log[a..b + 1]) == Readable(log[a..b]) + (if log[b].readable then [log[b]] else [])
  {
    var s := log[a..b + 1];
    assert s[..|s| - 1] == log[a..b];
  }

  lemma {:induction false} ReadableConcat(a: seq<LogEntry>, b: seq<LogEntry>)
    ensures Readable(a + b) == Readable(a) + Readable(b)
  {
    if b == [] {
      assert a + b == a;
    } else {
      ReadableConcat(a, b[..|b| - 1]);
      assert (a + b)[..|a + b| - 1] == a + b[..|b| - 1];
    }
  }

  lemma {:induction false} ReadableMember(log: seq<LogEntry>, k: nat)
    requires k < |Readable(log)|
    ensures exists i :: 0 <= i < |log| && log[i].readable && log[i] == Readable(log)[k]
  {
    var n := |log| - 1;
    if k < |Readable(log[..n])| {
      ReadableMember(log[..n], k);
      var i :| 0 <= i < n && log[..n][i].readable && log[..n][i] == Readable(log[..n])[k];
      assert log[i] == log[..n][i];
    } else {
      assert log[n] == Readable(log)[k];
    }
  }

  lemma {:induction false} NewerIsTransitive(a: EventId, b: EventId, c: Option<EventId>)
    requires IsNewer(a, Some(b)) && IsNewer(b, c)
    ensures IsNewer(a, c)
  {
  }

  /** Slices of the log are in order. */
  lemma {:induction false} SliceInOrder(log: seq<LogEntry>, start: Option<EventId>, from: nat, to: nat)
    requires Increasing(log) && Pos(log, start) <= from <= to <= |log|
    ensures InOrder(log, start, log[from..to])
  {
    forall e | e in log[from..to] ensures e in log && IsNewer(e.id, start) {
      var i :| from <= i < to && log[i] == e;
      EntryNewerIffBeyond(log, start, i);
    }
  }

  /** The reader's next position is just after what it was served. */
  lemma {:induction false} ServedCursor(log: seq<LogEntry>, start: Option<EventId>, sent: seq<LogEntry>)
    requires Increasing(log) && Served(log, start, sent)
    ensures Pos(log, Cursor(start, sent)) == Pos(log, start) + |sent|
  {
    if sent != [] {
      PosOfEntry(log, Pos(log, start) + |sent| - 1);
    }
  }

  /** Appends never undo what was served, even for a reader whose id is beyond the log's end. */
  lemma {:induction false} ServedGrows(log: seq<LogEntry>, more: seq<LogEntry>, start: Option<EventId>, sent: seq<LogEntry>)
    requires Increasing(log + more) && Served(log, start, sent)
    ensures Served(log + more, start, sent)
  {
    PosStable(log, more, start);
    var p := Pos(log, start);
    if sent != [] {
      assert (log + more)[p..p + |sent|] == log[p..p + |sent|];
    }
  }

  /** A read of the log and a later read of the grown log, from where the first ended, join into one contiguous slice. */
  lemma {:induction false} BatchesJoin(log: seq<LogEntry>, grown: seq<LogEntry>, start: Option<EventId>, sent: seq<LogEntry>, batch: seq<LogEntry>)
    requires Increasing(grown) && log <= grown
    requires Served(log, start, sent) && Served(grown, Cursor(start, sent), batch)
    ensures Served(grown, start, sent + batch)
  {
    hide Cursor, Pos, Increasing;
    assert grown == log + grown[|log|..];
    ServedGrows(log, grown[|log|..], start, sent);
    ServedCursor(grown, start, sent);
    SlicesJoin(grown, Pos(grown, start), |sent|, |batch|);
  }

  lemma {:induction false} SlicesJoin(log: seq<LogEntry>, p: nat, m: nat, n: nat)
    requires p + m + n <= |log|
    ensures log[p..p + (m + n)] == log[p..p + m] + log[p + m..p + m + n]
  {
  }

  lemma {:induction false} OrderedBatchesJoin(log: seq<LogEntry>, start: Option<EventId>, sent: seq<LogEntry>, batch: seq<LogEntry>)
    requires InOrder(log, start, sent) && InOrder(log, Cursor(start, sent), batch)
    ensures InOrder(log, start, sent + batch)
  {
    var all, n := sent + batch, |sent|;
    forall i, j | 0 <= i < j < |all| ensures IsNewer(all[j].id, Some(all[i].id)) {
      if i < n <= j {
        assert batch[j - n] in batch && IsNewer(all[j].id, Some(sent[n - 1].id));
        if i < n - 1 { NewerIsTransitive(all[j].id, sent[n - 1].id, Some(sent[i].id)); }
      } else if n <= i {
        assert all[i] == batch[i - n] && all[j] == batch[j - n];
      }
    }
    forall e | e in all ensures e in log && IsNewer(e.id, start) {
      if e in batch && sent != [] {
        assert sent[n - 1] in sent;
        NewerIsTransitive(e.id, sent[n - 1].id, start);
      }
    }
  }
}
