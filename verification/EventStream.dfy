/** The server's event stream: ids assigned on append, the oldest entries trimmed away. */
module EventStream {
  import opened Options
  import opened EventLog

  const ZERO_ID := EventId(0, 0)

  /** The id the stream assigns: the clock if it has moved on, else the next number at the last time. */
  function NextId(last: EventId, now: nat): (id: EventId)
    ensures IsNewer(id, Some(last))
  {
    if now > last.ms then EventId(now, 0) else EventId(last.ms, last.num + 1)
  }

  /** It is the least id that is newer than the last one and not before the clock. */
  lemma {:induction false} NextIdIsLeast(last: EventId, now: nat, other: EventId)
    requires IsNewer(other, Some(last)) && other.ms >= now
    ensures NextId(last, now).ms >= now && !IsNewer(NextId(last, now), Some(other))
  {
  }

  /** An event to append, the server's clock, and how many entries above the limit trimming spares. */
  datatype Append = Append(readable: bool, terminal: bool, data: string, now: nat, slack: nat)

  lemma {:induction false} NewestGoesLast(log: seq<LogEntry>, e: LogEntry)
    requires Increasing(log)
    requires log == [] || IsNewer(e.id, Some(log[|log| - 1].id))
    ensures Increasing(log + [e])
  {
    forall i | 0 <= i < |log| ensures IsNewer(e.id, Some(log[i].id)) {
      if i < |log| - 1 { assert IsNewer(log[|log| - 1].id, Some(log[i].id)); }
    }
  }

  lemma {:induction false} SuffixIncreasing(log: seq<LogEntry>, from: nat)
    requires Increasing(log) && from <= |log|
    ensures Increasing(log[from..])
  {
  }

  ghost predicate Assigned(log: seq<LogEntry>) {
    Increasing(log) && BeyondZero(log)
  }

  ghost predicate BeyondZero(log: seq<LogEntry>) {
    forall e :: e in log ==> IsNewer(e.id, Some(ZERO_ID))
  }

  /** The id the stream assigned last. */
  ghost function LastId(log: seq<LogEntry>): EventId {
    if log == [] then ZERO_ID else log[|log| - 1].id
  }

  lemma {:induction false} AssignedGrows(log: seq<LogEntry>, e: LogEntry)
    requires Assigned(log) && IsNewer(e.id, Some(LastId(log)))
    ensures Assigned(log + [e]) && LastId(log + [e]) == e.id
  {
    NewestGoesLast(log, e);
    if log != [] { assert log[|log| - 1] in log; }
  }

  ghost predicate IsTail(tail: seq<LogEntry>, log: seq<LogEntry>) {
    |tail| <= |log| && tail == log[|log| - |tail|..]
  }

  lemma {:induction false} TailGrows(tail: seq<LogEntry>, log: seq<LogEntry>, e: LogEntry, trimmed: nat)
    requires IsTail(tail, log) && trimmed <= |tail| + 1
    ensures IsTail((tail + [e])[trimmed..], log + [e])
  {
    assert tail + [e] == (log + [e])[|log| - |tail|..];
  }

  /** Where a reader stands in the retained suffix. */
  lemma {:induction false} PosInSuffix(log: seq<LogEntry>, from: nat, after: Option<EventId>)
    requires Increasing(log) && from <= |log|
    ensures Increasing(log[from..])
    ensures Pos(log[from..], after) == if Pos(log, after) <= from then 0 else Pos(log, after) - from
  {
    var p, tail := Pos(log, after), log[from..];
    SuffixIncreasing(log, from);
    PosSplits(log, after);
    if p <= from {
      if from < |log| { EntryNewerIffBeyond(log, after, from); }
      PosUnique(tail, after, 0);
    } else {
      assert tail[p - from - 1] == log[p - 1];
      PosUnique(tail, after, p - from);
    }
  }

  /**
   * Reading the trimmed stream gives what the whole stream would give exactly when nothing the
   * reader still needs has been trimmed; a reader further behind gets the retained suffix.
   */
  lemma {:induction false} TrimmedReadIff(full: seq<LogEntry>, dropped: nat, after: Option<EventId>, limit: nat)
    requires Increasing(full) && dropped <= |full| && limit > 0
    ensures ReadAfter(full[dropped..], after, limit) == ReadAfter(full, after, limit) <==> dropped <= Pos(full, after)
    ensures Pos(full, after) < dropped ==> ReadAfter(full[dropped..], after, limit) == Take(full[dropped..], limit)
  {
    var p := Pos(full, after);
    PosInSuffix(full, dropped, after);
    NewerThanIsSuffix(full, after);
    NewerThanIsSuffix(full[dropped..], after);
    if dropped <= p {
      assert full[dropped..][p - dropped..] == full[p..];
    } else {
      assert full[dropped..][0..] == full[dropped..];
      assert ReadAfter(full, after, limit)[0] == full[p];
      if dropped < |full| {
        assert ReadAfter(full[dropped..], after, limit)[0] == full[dropped];
        PosOfEntry(full, p);
        PosOfEntry(full, dropped);
      }
    }
  }

  function Min(a: nat, b: nat): nat {
    if a <= b then a else b
  }

  /** Where a read of the retained suffix starts in the whole stream. */
  function From(full: seq<LogEntry>, dropped: nat, after: Option<EventId>): nat {
    if Pos(full, after) <= dropped then dropped else Pos(full, after)
  }

  lemma {:induction false} ReadFrom(full: seq<LogEntry>, dropped: nat, after: Option<EventId>, limit: nat)
    requires Increasing(full) && dropped <= |full|
    ensures From(full, dropped, after) <= |full|
    ensures Pos(full[dropped..], after) == From(full, dropped, after) - dropped
    ensures var events := ReadAfter(full[dropped..], after, limit);
      && |events| == Min(limit, |full| - From(full, dropped, after))
      && events == full[From(full, dropped, after)..From(full, dropped, after) + |events|]
  {
    hide Increasing, Pos, NewerThan, IsNewer;
    PosInSuffix(full, dropped, after);
    NewerThanIsSuffix(full[dropped..], after);
    var from, tail := From(full, dropped, after), full[dropped..];
    assert tail[from - dropped..] == full[from..];
  }

  /** What one read of the retained suffix gives, in terms of the whole stream. */
  lemma {:induction false} ReadIsASlice(full: seq<LogEntry>, dropped: nat, after: Option<EventId>, limit: nat)
    requires Increasing(full) && dropped <= |full|
    ensures var events := ReadAfter(full[dropped..], after, limit);
      && InOrder(full, after, events)
      && (dropped <= Pos(full, after) ==> Served(full, after, events))
      && (|events| < limit ==> Pos(full[dropped..], Cursor(after, events)) == |full| - dropped)
      && (|events| < limit && dropped <= Pos(full, after) ==> Pos(full, Cursor(after, events)) == |full|)
      && |events| == Min(limit, |full| - dropped - Pos(full[dropped..], after))
  {
    hide Increasing, InOrder, Served, Pos, NewerThan, ReadAfter, IsNewer, Cursor;
    var from, events := From(full, dropped, after), ReadAfter(full[dropped..], after, limit);
    ReadFrom(full, dropped, after, limit);
    SliceInOrder(full, after, from, from + |events|);
    if dropped <= Pos(full, after) {
      SliceIsServed(full, after, events);
      ServedCursor(full, after, events);
    }
    if |events| < limit { ReadsToTheEnd(full, dropped, after, from, events); }
  }

  lemma {:induction false} SliceIsServed(full: seq<LogEntry>, after: Option<EventId>, events: seq<LogEntry>)
    requires Pos(full, after) + |events| <= |full| && events == full[Pos(full, after)..Pos(full, after) + |events|]
    ensures Served(full, after, events)
  {
    hide Pos;
  }

  lemma {:induction false} ReadsToTheEnd(full: seq<LogEntry>, dropped: nat, after: Option<EventId>, from: nat, events: seq<LogEntry>)
    requires Increasing(full) && dropped <= from <= |full| && from + |events| == |full| && events == full[from..|full|]
    requires Pos(full[dropped..], after) == from - dropped
    ensures Pos(full[dropped..], Cursor(after, events)) == |full| - dropped
  {
    hide Pos, Increasing, IsNewer;
    var tail := full[dropped..];
    if events != [] {
      SuffixIncreasing(full, dropped);
      assert tail[|tail| - 1] == full[|full| - 1] == events[|events| - 1];
      PosOfEntry(tail, |tail| - 1);
    }
  }

  /** The entries a stream limited to `maxLength` may hold after `full` was appended to it. */
  ghost predicate Holds(entries: seq<LogEntry>, full: seq<LogEntry>, lastId: EventId, maxLength: Option<nat>) {
    && Assigned(full) && lastId == LastId(full)
    && IsTail(entries, full)
    && (match maxLength case None => entries == full case Some(n) => |entries| >= n || entries == full)
  }

  /** What trimming leaves: the newest `maxLength` entries, and at most `slack` more. */
  function Trim(entries: seq<LogEntry>, maxLength: Option<nat>, slack: nat): seq<LogEntry> {
    if maxLength.Some? && |entries| > maxLength.value + slack then entries[|entries| - (maxLength.value + slack)..] else entries
  }

  lemma {:induction false} TrimIsTail(entries: seq<LogEntry>, full: seq<LogEntry>, maxLength: Option<nat>, e: LogEntry, slack: nat)
    requires IsTail(entries, full)
    ensures var kept := Trim(entries + [e], maxLength, slack);
      && IsTail(kept, full + [e])
      && (maxLength.None? || |entries| + 1 <= maxLength.value + slack ==> kept == entries + [e])
      && (maxLength.Some? && |entries| + 1 > maxLength.value + slack ==> |kept| == maxLength.value + slack)
  {
    TailGrows(entries, full, e, |entries| + 1 - |Trim(entries + [e], maxLength, slack)|);
    assert (entries + [e])[0..] == entries + [e];
    hide IsTail;
  }

  lemma {:induction false} HoldsAfterAppend(entries: seq<LogEntry>, full: seq<LogEntry>, lastId: EventId, maxLength: Option<nat>,
                          e: LogEntry, slack: nat)
    requires Holds(entries, full, lastId, maxLength) && IsNewer(e.id, Some(lastId))
    ensures Holds(Trim(entries + [e], maxLength, slack), full + [e], e.id, maxLength)
  {
    hide Assigned, LastId, IsNewer, IsTail;
    AssignedGrows(full, e);
    TrimIsTail(entries, full, maxLength, e, slack);
  }

  lemma {:induction false} HeldEntries(entries: seq<LogEntry>, full: seq<LogEntry>, lastId: EventId, maxLength: Option<nat>)
    requires Holds(entries, full, lastId, maxLength)
    ensures Increasing(full) && |entries| <= |full| && entries == full[|full| - |entries|..]
    ensures |entries| < |full| ==> maxLength.Some? && |entries| >= maxLength.value
    ensures BeyondZero(entries)
  {
  }

  lemma {:induction false} HeldIsTail(entries: seq<LogEntry>, full: seq<LogEntry>, lastId: EventId, maxLength: Option<nat>)
    requires Holds(entries, full, lastId, maxLength)
    ensures IsTail(entries, full)
  {
  }

  lemma {:induction false} NoneRead(entries: seq<LogEntry>, after: Option<EventId>)
    ensures ReadAfter(entries, after, 0) == []
  {
  }

  lemma {:induction false} ReadHeld(entries: seq<LogEntry>, full: seq<LogEntry>, lastId: EventId, maxLength: Option<nat>,
                  after: Option<EventId>, limit: nat)
    requires Holds(entries, full, lastId, maxLength)
    ensures |entries| <= |full|
    ensures Pos(full, after) < |full| - |entries| ==> maxLength.Some? && |full| - Pos(full, after) > maxLength.value
    ensures var events := ReadAfter(entries, Some(if after.Some? then after.value else ZERO_ID), limit);
      && InOrder(full, after, events)
      && (|full| - |entries| <= Pos(full, after) ==> Served(full, after, events))
      && (|events| < limit ==> Pos(entries, Cursor(after, events)) == |entries|)
      && (|events| < limit && |full| - |entries| <= Pos(full, after) ==> Pos(full, Cursor(after, events)) == |full|)
      && |events| == Min(limit, |entries| - Pos(entries, after))
      && (limit == 0 ==> events == [])
  {
    hide Holds, InOrder, Served, Pos, IsNewer, Increasing, ReadAfter, BeyondZero, Cursor, Min;
    HeldEntries(entries, full, lastId, maxLength);
    AtZero(entries, after, limit);
    ReadIsASlice(full, |full| - |entries|, after, limit);
    NoneRead(entries, after);
  }

  class RedisStream {
    var entries: seq<LogEntry>
    var lastId: EventId
    const maxLength: Option<nat>
    ghost var full: seq<LogEntry>
    ghost var overruns: nat

    ghost predicate Valid()
      reads this
    {
      Holds(entries, full, lastId, maxLength)
    }

    /** How many entries have been trimmed. */
    ghost function Dropped(): nat
      reads this
    {
      if |entries| <= |full| then |full| - |entries| else 0
    }

    constructor (maxLength: Option<nat>)
      ensures Valid() && full == [] && overruns == 0 && this.maxLength == maxLength
    {
      this.maxLength := maxLength;
      entries, full, lastId, overruns := [], [], ZERO_ID, 0;
    }

    method AppendEvent(a: Append) returns (e: LogEntry)
      requires Valid()
      modifies this
      ensures Valid() && full == old(full) + [e] && overruns == old(overruns)
      ensures e == LogEntry(NextId(old(lastId), a.now), a.readable, a.terminal, a.data)
      ensures match maxLength
              case None => entries == old(entries) + [e]
              case Some(n) => if |old(entries)| + 1 <= n + a.slack then entries == old(entries) + [e] else |entries| == n + a.slack
    {
      hide Holds, NextId, IsNewer, Trim, IsTail;
      e := LogEntry(NextId(lastId, a.now), a.readable, a.terminal, a.data);
      HoldsAfterAppend(entries, full, lastId, maxLength, e, a.slack);
      HeldIsTail(entries, full, lastId, maxLength);
      TrimIsTail(entries, full, maxLength, e, a.slack);
      entries, full, lastId := Trim(entries + [e], maxLength, a.slack), full + [e], e.id;
    }

    method AppendAll(appends: seq<Append>)
      requires Valid()
      modifies this
      ensures Valid() && old(full) <= full && |full| == |old(full)| + |appends| && overruns == old(overruns)
    {
      for i := 0 to |appends|
        invariant Valid() && old(full) <= full && |full| == |old(full)| + i && overruns == old(overruns)
      {
        var e := AppendEvent(appends[i]);
      }
    }

    /**
     * Reads from the retained entries. The read overruns when entries the reader has not seen are
     * already trimmed, which takes more than `maxLength` entries newer than its cursor.
     */
    method ReadEventsAfter(after: Option<EventId>, limit: int) returns (events: seq<LogEntry>)
      requires Valid()
      modifies this`overruns
      ensures Valid()
      ensures overruns == old(overruns) + (if Pos(full, after) < Dropped() then 1 else 0)
      ensures overruns != old(overruns) ==> maxLength.Some? && |full| - Pos(full, after) > maxLength.value
      ensures limit <= 0 ==> events == []
      ensures InOrder(full, after, events)
      ensures overruns == old(overruns) ==> Served(full, after, events)
      ensures |events| < limit ==> Pos(entries, Cursor(after, events)) == |entries|
      ensures |events| < limit && overruns == old(overruns) ==> Pos(full, Cursor(after, events)) == |full|
      ensures limit > 0 ==> |events| == Min(limit, |entries| - Pos(entries, after))
    {
      hide Holds, InOrder, Served, Pos, IsNewer, Cursor, ReadAfter, Min;
      ReadHeld(entries, full, lastId, maxLength, after, if limit <= 0 then 0 else limit);
      if Pos(full, after) < Dropped() { overruns := overruns + 1; }
      if limit <= 0 {
        events := [];
      } else {
        var checkpoint := if after.Some? then after.value else ZERO_ID;
        events := ReadAfter(entries, Some(checkpoint), limit);
      }
    }
  }

  /** Every assigned id is newer than `0-0`, so an absent cursor and `0-0` read the same. */
  lemma {:induction false} AtZero(entries: seq<LogEntry>, after: Option<EventId>, limit: nat)
    requires BeyondZero(entries)
    ensures ReadAfter(entries, Some(if after.Some? then after.value else ZERO_ID), limit) == ReadAfter(entries, after, limit)
  {
    if after.None? { FromTheStart(entries); }
  }

  lemma {:induction false} FromTheStart(entries: seq<LogEntry>)
    requires BeyondZero(entries)
    ensures NewerThan(entries, Some(ZERO_ID)) == NewerThan(entries, None)
  {
    if entries != [] {
      assert entries[0] in entries;
      assert forall e :: e in entries[1..] ==> e in entries;
      FromTheStart(entries[1..]);
    }
  }
}
