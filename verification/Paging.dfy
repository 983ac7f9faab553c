/** Reading a growing stream page by page, with and without the trimming of old entries. */
module Paging {
  import opened Options
  import opened EventLog
  import opened EventStream
  import opened ServerLoops

  /** The stream at the moment of a read: everything ever appended, and how much of it is trimmed. */
  datatype View = View(full: seq<LogEntry>, dropped: nat)

  ghost predicate Grows(before: View, later: View) {
    before.full <= later.full && before.dropped <= later.dropped
  }

  ghost predicate IsView(v: View) {
    Increasing(v.full) && v.dropped <= |v.full|
  }

  ghost predicate History(views: seq<View>) {
    && (forall i :: 0 <= i < |views| ==> IsView(views[i]))
    && (forall i, j :: 0 <= i < j < |views| ==> Grows(views[i], views[j]))
  }

  function Page(v: View, trimmed: bool, after: Option<EventId>, limit: nat): seq<LogEntry>
    requires v.dropped <= |v.full|
  {
    ReadAfter(if trimmed then v.full[v.dropped..] else v.full, after, limit)
  }

  /** Successive reads, each from where the last one ended. */
  ghost function Pages(views: seq<View>, trimmed: bool, after: Option<EventId>, limit: nat): seq<LogEntry>
    requires History(views)
  {
    if views == [] then []
    else
      var page := Page(views[0], trimmed, after, limit);
      page + Pages(views[1..], trimmed, Cursor(after, page), limit)
  }

  /** No read finds that an entry it still needs is gone. */
  ghost predicate KeepsUp(views: seq<View>, after: Option<EventId>, limit: nat)
    requires History(views)
  {
    views == []
    || (views[0].dropped <= Pos(views[0].full, after)
        && KeepsUp(views[1..], Cursor(after, Page(views[0], false, after, limit)), limit))
  }

  /** Pages of the untrimmed stream join into one contiguous slice of it. */
  lemma {:induction false} PagesAreServed(views: seq<View>, after: Option<EventId>, limit: nat)
    requires History(views) && views != []
    ensures Served(views[|views| - 1].full, after, Pages(views, false, after, limit))
  {
    hide Served, Increasing, Cursor, ReadAfter, Grows;
    var v, page, last := views[0], Page(views[0], false, after, limit), views[|views| - 1].full;
    assert IsView(v) && IsView(views[|views| - 1]);
    PageIsServed(v, after, limit);
    if |views| == 1 {
      assert views[1..] == [] && page + [] == page;
    } else {
      assert views[1..][|views| - 2] == views[|views| - 1];
      PagesAreServed(views[1..], Cursor(after, page), limit);
      assert Grows(v, views[|views| - 1]);
      JoinPages(v, views[|views| - 1], after, page, Pages(views[1..], false, Cursor(after, page), limit));
    }
  }

  lemma {:induction false} JoinPages(v: View, w: View, after: Option<EventId>, page: seq<LogEntry>, rest: seq<LogEntry>)
    requires IsView(w) && Grows(v, w) && Served(v.full, after, page) && Served(w.full, Cursor(after, page), rest)
    ensures Served(w.full, after, page + rest)
  {
    hide Served, Increasing, Cursor;
    BatchesJoin(v.full, w.full, after, page, rest);
  }

  lemma {:induction false} PageIsServed(v: View, after: Option<EventId>, limit: nat)
    requires IsView(v)
    ensures Served(v.full, after, Page(v, false, after, limit))
  {
    ReadAfterIsSlice(v.full, after, limit);
  }

  ghost predicate AllBeyond(events: seq<LogEntry>, id: EventId) {
    forall e :: e in events ==> IsNewer(e.id, Some(id))
  }

  ghost predicate Lost(views: seq<View>, id: EventId)
    requires History(views)
  {
    forall i :: 0 <= i < |views| ==> AllBeyond(views[i].full[views[i].dropped..], id)
  }

  /** Once an entry is trimmed, no later page has it. */
  lemma {:induction false} LostStaysLost(views: seq<View>, after: Option<EventId>, limit: nat, id: EventId)
    requires History(views) && Lost(views, id)
    ensures AllBeyond(Pages(views, true, after, limit), id)
  {
    if views != [] {
      var v, page := views[0], Page(views[0], true, after, limit);
      assert IsView(v) && AllBeyond(v.full[v.dropped..], id);
      SuffixIncreasing(v.full, v.dropped);
      ReadAfterIsSlice(v.full[v.dropped..], after, limit);
      LostStaysLost(views[1..], Cursor(after, page), limit, id);
      hide Increasing, Cursor, ReadAfter, Grows, IsNewer;
      assert forall e :: e in page ==> e in v.full[v.dropped..];
    }
  }

  lemma {:induction false} DroppedIsLost(views: seq<View>, i: nat)
    requires History(views) && views != [] && i < views[0].dropped
    ensures Lost(views, views[0].full[i].id)
  {
    forall k | 0 <= k < |views| ensures AllBeyond(views[k].full[views[k].dropped..], views[0].full[i].id) {
      var v := views[k];
      assert IsView(v) && (k > 0 ==> Grows(views[0], v));
      assert v.full[i] == views[0].full[i];
      forall e | e in v.full[v.dropped..] ensures IsNewer(e.id, Some(views[0].full[i].id)) {
        var j :| v.dropped <= j < |v.full| && v.full[j] == e;
      }
    }
  }

  /**
   * Paging over the trimmed stream returns what paging over the whole stream returns exactly when
   * at every read nothing newer than the reader's cursor has been trimmed.
   */
  lemma {:induction false} TrimmedPagingIff(views: seq<View>, after: Option<EventId>, limit: nat)
    requires History(views) && limit > 0
    ensures Pages(views, true, after, limit) == Pages(views, false, after, limit) <==> KeepsUp(views, after, limit)
  {
    hide Lost, Served, Increasing, Cursor, ReadAfter, Pos, Grows;
    if views != [] {
      var v, p := views[0], Pos(views[0].full, after);
      var page := Page(v, false, after, limit);
      assert IsView(v);
      TrimmedReadIff(v.full, v.dropped, after, limit);
      if v.dropped <= p {
        TrimmedPagingIff(views[1..], Cursor(after, page), limit);
        SameTail(page, Pages(views[1..], true, Cursor(after, page), limit), Pages(views[1..], false, Cursor(after, page), limit));
      } else {
        FirstOfPage(v, after, limit);
        DroppedIsLost(views, p);
        LostStaysLost(views, after, limit, v.full[p].id);
        NotBeyondItself(Pages(views, true, after, limit), v.full[p]);
      }
    }
  }

  lemma {:induction false} SameTail(a: seq<LogEntry>, b: seq<LogEntry>, c: seq<LogEntry>)
    ensures a + b == a + c <==> b == c
  {
    assert (a + b)[|a|..] == b && (a + c)[|a|..] == c;
  }

  lemma {:induction false} FirstOfPage(v: View, after: Option<EventId>, limit: nat)
    requires IsView(v) && Pos(v.full, after) < v.dropped && limit > 0
    ensures Page(v, false, after, limit) != [] && Page(v, false, after, limit)[0] == v.full[Pos(v.full, after)]
  {
    ReadAfterIsSlice(v.full, after, limit);
  }

  lemma {:induction false} NotBeyondItself(events: seq<LogEntry>, e: LogEntry)
    requires AllBeyond(events, e.id)
    ensures e !in events
  {
  }

  /** A retention limit no smaller than any reader's backlog is enough. */
  lemma {:induction false} ShortBacklogKeepsUp(views: seq<View>, after: Option<EventId>, limit: nat, maxLength: nat)
    requires History(views) && limit > 0
    requires forall i :: 0 <= i < |views| ==> |views[i].full| - views[i].dropped >= maxLength || views[i].dropped == 0
    requires ShortBacklog(views, after, limit, maxLength)
    ensures Pages(views, true, after, limit) == Pages(views, false, after, limit)
  {
    BacklogFits(views, after, limit, maxLength);
    TrimmedPagingIff(views, after, limit);
  }

  /** At each read at most `maxLength` events are newer than the reader's cursor. */
  ghost predicate ShortBacklog(views: seq<View>, after: Option<EventId>, limit: nat, maxLength: nat)
    requires History(views)
  {
    views == []
    || (|views[0].full| - Pos(views[0].full, after) <= maxLength
        && ShortBacklog(views[1..], Cursor(after, Page(views[0], false, after, limit)), limit, maxLength))
  }

  lemma {:induction false} BacklogFits(views: seq<View>, after: Option<EventId>, limit: nat, maxLength: nat)
    requires History(views)
    requires forall i :: 0 <= i < |views| ==> |views[i].full| - views[i].dropped >= maxLength || views[i].dropped == 0
    requires ShortBacklog(views, after, limit, maxLength)
    ensures KeepsUp(views, after, limit)
  {
    hide Increasing, Cursor, ReadAfter, Pos, Grows, Page;
    if views != [] {
      BacklogFits(views[1..], Cursor(after, Page(views[0], false, after, limit)), limit, maxLength);
    }
  }
}
