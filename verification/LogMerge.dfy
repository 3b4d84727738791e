/**
  Merging the result sets of several OR'd filter patterns into one timeline:
  dedupe by event id, stable sort by timestamp, keep the newest `limit`.
*/
module LogMerge {
  import opened Ordering
  import opened Sequences

  datatype Event = Event(id: string, ts: int, message: string)

  // ---- dedupe ----------------------------------------------------------------

  function Remember(seen: set<string>, id: string): set<string> {
    if id == "" then seen else seen + {id}
  }

  function SeenAfter(seen: set<string>, events: seq<Event>): set<string>
    decreases events
  {
    if events == [] then seen else SeenAfter(Remember(seen, events[0].id), events[1..])
  }

  /** The events whose id was not met before; an event without an id always passes. */
  function Unseen(seen: set<string>, events: seq<Event>): seq<Event>
    decreases events
  {
    if events == [] then []
    else if events[0].id != "" && events[0].id in seen then Unseen(seen, events[1..])
    else [events[0]] + Unseen(Remember(seen, events[0].id), events[1..])
  }

  lemma {:induction false} UnseenConcat(seen: set<string>, a: seq<Event>, b: seq<Event>)
    ensures SeenAfter(seen, a + b) == SeenAfter(SeenAfter(seen, a), b)
    ensures Unseen(seen, a + b) == Unseen(seen, a) + Unseen(SeenAfter(seen, a), b)
    decreases a
  {
    if a == [] {
      assert a + b == b;
    } else {
      assert (a + b)[1..] == a[1..] + b;
      if a[0].id != "" && a[0].id in seen {
        assert Remember(seen, a[0].id) == seen;
      }
      UnseenConcat(Remember(seen, a[0].id), a[1..], b);
    }
  }

  lemma {:induction false} UnseenSnoc(seen: set<string>, events: seq<Event>, e: Event)
    ensures SeenAfter(seen, events + [e]) == Remember(SeenAfter(seen, events), e.id)
    ensures Unseen(seen, events + [e]) ==
            if e.id != "" && e.id in SeenAfter(seen, events) then Unseen(seen, events)
            else Unseen(seen, events) + [e]
  {
    UnseenConcat(seen, events, [e]);
    assert SeenAfter(SeenAfter(seen, events), [e]) == Remember(SeenAfter(seen, events), e.id);
  }

  ghost predicate Identified(events: seq<Event>) {
    forall i :: 0 <= i < |events| ==> events[i].id != ""
  }

  ghost predicate UniqueIds(events: seq<Event>) {
    forall i, j :: 0 <= i < j < |events| ==> events[i].id != events[j].id
  }

  /** The same id always names the same event. */
  ghost predicate Consistent(events: seq<Event>) {
    forall e, f :: e in events && f in events && e.id == f.id ==> e == f
  }

  lemma {:induction false} SeenAfterMembers(seen: set<string>, events: seq<Event>)
    requires Identified(events)
    ensures forall id :: id in SeenAfter(seen, events) <==> id in seen || exists e :: e in events && e.id == id
    decreases events
  {
    if events != [] {
      SeenAfterMembers(Remember(seen, events[0].id), events[1..]);
    }
  }

  lemma {:induction false} UnseenMembers(seen: set<string>, events: seq<Event>)
    requires Identified(events) && Consistent(events)
    ensures forall e :: e in Unseen(seen, events) <==> e in events && e.id !in seen
    ensures UniqueIds(Unseen(seen, events))
    decreases events
  {
    if events != [] {
      UnseenMembers(Remember(seen, events[0].id), events[1..]);
      UnseenMembers(seen, events[1..]);
    }
  }

  // ---- stable sort by timestamp ------------------------------------------------

  ghost predicate TimeSorted(events: seq<Event>) {
    forall i, j :: 0 <= i < j < |events| ==> events[i].ts <= events[j].ts
  }

  /** The less function given to sort.SliceStable. */
  predicate Older(a: Event, b: Event) {
    a.ts < b.ts
  }

  function SortByTime(events: seq<Event>): seq<Event> {
    SortBy(Older, events)
  }

  lemma {:induction false} InsertFrom(e: Event, sorted: seq<Event>, t: int)
    requires e.ts >= t && forall i :: 0 <= i < |sorted| ==> sorted[i].ts >= t
    ensures forall i :: 0 <= i < |InsertBy(Older, e, sorted)| ==> InsertBy(Older, e, sorted)[i].ts >= t
  {
    if sorted != [] {
      InsertFrom(e, sorted[1..], t);
    }
  }

  lemma {:induction false} InsertSorted(e: Event, sorted: seq<Event>)
    requires TimeSorted(sorted)
    ensures TimeSorted(InsertBy(Older, e, sorted))
  {
    if sorted != [] && e.ts > sorted[0].ts {
      InsertSorted(e, sorted[1..]);
      InsertFrom(e, sorted[1..], sorted[0].ts);
    }
  }

  lemma {:induction false} SortSorts(events: seq<Event>)
    ensures TimeSorted(SortByTime(events))
    ensures multiset(SortByTime(events)) == multiset(events)
  {
    if events != [] {
      SortSorts(events[1..]);
      InsertSorted(events[0], SortByTime(events[1..]));
      InsertPermutes(Older, events[0], SortByTime(events[1..]));
      assert events == [events[0]] + events[1..];
    }
  }

  function At(events: seq<Event>, t: int): seq<Event> {
    if events == [] then []
    else if events[0].ts == t then [events[0]] + At(events[1..], t)
    else At(events[1..], t)
  }

  lemma {:induction false} InsertAt(e: Event, sorted: seq<Event>, t: int)
    requires TimeSorted(sorted)
    ensures At(InsertBy(Older, e, sorted), t) == At([e], t) + At(sorted, t)
  {
    if sorted != [] && e.ts > sorted[0].ts {
      InsertAt(e, sorted[1..], t);
      var r := InsertBy(Older, e, sorted);
      assert r[1..] == InsertBy(Older, e, sorted[1..]);
    }
  }

  /** Events with equal timestamps keep their order. */
  lemma {:induction false} SortIsStable(events: seq<Event>, t: int)
    ensures At(SortByTime(events), t) == At(events, t)
  {
    if events != [] {
      SortIsStable(events[1..], t);
      SortSorts(events[1..]);
      InsertAt(events[0], SortByTime(events[1..]), t);
    }
  }

  // ---- merge -----------------------------------------------------------------

  function Capped(events: seq<Event>, limit: int): seq<Event> {
    if limit > 0 then Last(events, limit) else events
  }

  function Merge(batches: seq<seq<Event>>, limit: int): seq<Event> {
    Capped(SortByTime(Unseen({}, Flatten(batches))), limit)
  }

  /** The inner loop's body: an event joins unless its id was met before. */
  method AddEvent(merged: seq<Event>, seen: set<string>, ghost before: seq<Event>, ev: Event)
    returns (merged': seq<Event>, seen': set<string>)
    requires seen == SeenAfter({}, before) && merged == Unseen({}, before)
    ensures seen' == SeenAfter({}, before + [ev]) && merged' == Unseen({}, before + [ev])
  {
    UnseenSnoc({}, before, ev);
    if ev.id != "" && ev.id in seen {
      return merged, seen;
    }
    seen' := seen;
    if ev.id != "" {
      seen' := seen' + {ev.id};
    }
    merged' := merged + [ev];
  }

  method AddBatch(merged: seq<Event>, seen: set<string>, ghost before: seq<Event>, batch: seq<Event>)
    returns (merged': seq<Event>, seen': set<string>)
    requires seen == SeenAfter({}, before) && merged == Unseen({}, before)
    ensures seen' == SeenAfter({}, before + batch) && merged' == Unseen({}, before + batch)
  {
    merged', seen' := merged, seen;
    ghost var done := before;
    for j := 0 to |batch|
      invariant done == before + batch[..j]
      invariant seen' == SeenAfter({}, done) && merged' == Unseen({}, done)
    {
      merged', seen' := AddEvent(merged', seen', done, batch[j]);
      done := done + [batch[j]];
    }
    assert done == before + batch;
  }

  method MergeDedupeSort(batches: seq<seq<Event>>, limit: int) returns (merged: seq<Event>)
    ensures merged == Merge(batches, limit)
  {
    var seen: set<string> := {};
    merged := [];
    for b := 0 to |batches|
      invariant seen == SeenAfter({}, Flatten(batches[..b]))
      invariant merged == Unseen({}, Flatten(batches[..b]))
    {
      merged, seen := AddBatch(merged, seen, Flatten(batches[..b]), batches[b]);
      FlattenSnoc(batches, b);
    }
    assert batches[..|batches|] == batches;
    merged := SortByTime(merged);
    if limit > 0 && |merged| > limit {
      merged := merged[|merged| - limit..];
    }
  }
}
