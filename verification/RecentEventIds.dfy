/** The bounded window of recently accepted event ids that drops replayed events. */
module RecentIds {
  import opened EventLog

  const DEFAULT_CAPACITY: nat := 256

  function LastN<T>(s: seq<T>, n: nat): seq<T> {
    if |s| <= n then s else s[|s| - n..]
  }

  /** What one call does to the window. */
  function Push(window: seq<EventId>, capacity: nat, id: EventId): seq<EventId> {
    if id in window then window else LastN(window + [id], capacity)
  }

  /** The ids accepted so far: an id is accepted unless it is among the last `capacity` accepted. */
  function Accepted(history: seq<EventId>, capacity: nat): seq<EventId> {
    if history == [] then []
    else
      var before := Accepted(history[..|history| - 1], capacity);
      var id := history[|history| - 1];
      if id in LastN(before, capacity) then before else before + [id]
  }

  lemma {:induction false} LastNSnoc<T>(s: seq<T>, x: T, n: nat)
    requires n > 0
    ensures LastN(LastN(s, n) + [x], n) == LastN(s + [x], n)
  {
  }

  ghost predicate Distinct(window: seq<EventId>) {
    forall i, j :: 0 <= i < j < |window| ==> window[i] != window[j]
  }

  /** Pushing keeps the window the tail of the accepted ids. */
  lemma {:induction false} PushExtendsAccepted(history: seq<EventId>, capacity: nat, id: EventId)
    requires capacity > 0
    ensures LastN(Accepted(history + [id], capacity), capacity) == Push(LastN(Accepted(history, capacity), capacity), capacity, id)
  {
    assert (history + [id])[..|history|] == history;
    LastNSnoc(Accepted(history, capacity), id, capacity);
  }

  lemma {:induction false} PushStaysDistinct(window: seq<EventId>, capacity: nat, id: EventId)
    requires Distinct(window)
    ensures Distinct(Push(window, capacity, id))
  {
  }

  lemma {:induction false} DropOldest(order: seq<EventId>)
    requires order != [] && Distinct(order)
    ensures (set id | id in order) - {order[0]} == set id | id in order[1..]
  {
    var rest := order[1..];
    forall id | id in order && id != order[0] ensures id in rest {
      var k :| 0 <= k < |order| && order[k] == id;
      assert rest[k - 1] == id;
    }
  }

  class RecentEventIds {
    const capacity: nat
    var order: seq<EventId>
    var seen: set<EventId>
    ghost var history: seq<EventId>

    /** The deque is the tail of the accepted ids, has no repeats, and the set is its contents. */
    ghost predicate Valid()
      reads this
    {
      && capacity > 0
      && order == LastN(Accepted(history, capacity), capacity)
      && Distinct(order)
      && seen == set id | id in order
    }

    constructor (capacity: nat := DEFAULT_CAPACITY)
      requires capacity > 0
      ensures Valid() && this.capacity == capacity && history == [] && order == []
    {
      this.capacity := capacity;
      order, seen, history := [], {}, [];
    }

    method MarkSeen(eventId: EventId) returns (isNew: bool)
      requires Valid()
      modifies this
      ensures Valid() && history == old(history) + [eventId]
      ensures isNew <==> eventId !in LastN(Accepted(old(history), capacity), capacity)
      ensures isNew <==> eventId !in old(order)
      ensures order == Push(old(order), capacity, eventId)
    {
      hide Accepted;
      PushExtendsAccepted(history, capacity, eventId);
      PushStaysDistinct(order, capacity, eventId);
      PushStaysDistinct(order, |order| + 1, eventId);
      history := history + [eventId];
      if eventId in seen {
        return false;
      }
      seen := seen + {eventId};
      order := order + [eventId];
      if |order| > capacity {
        DropOldest(order);
        seen := seen - {order[0]};
        order := order[1..];
      }
      return true;
    }
  }
}
