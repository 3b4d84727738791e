/** The full-screen log viewer: what it keeps of the batches its polls bring back. */
module LogViewer {
  import opened Sequences
  import opened LogMerge

  const VIEWER_BACKFILL_LIMIT := 2000
  const VIEWER_MAX_EVENTS := 10000

  /** Identifies what the viewer shows; an empty stream means the whole group. */
  datatype ViewerKey = ViewerKey(region: string, group: string, stream: string, pattern: string)

  datatype View = View(events: seq<Event>, seen: set<string>, lastTS: int)

  const EMPTY_VIEW := View([], {}, 0)

  function NewestTime(t: int, events: seq<Event>): int
    decreases events
  {
    if events == [] then t else NewestTime(if events[0].ts > t then events[0].ts else t, events[1..])
  }

  /** The view after one batch: unseen events join at the end, the oldest fall off past the cap. */
  function Absorb(v: View, batch: seq<Event>): View {
    var added := Unseen(v.seen, batch);
    View(Last(v.events + added, VIEWER_MAX_EVENTS), SeenAfter(v.seen, batch), NewestTime(v.lastTS, added))
  }

  /** Where a later poll starts: at the newest event seen, or at the lookback window while there is none. */
  function PollSince(v: View, now: int, lookback: int): int {
    if v.lastTS == 0 then now - lookback else v.lastTS
  }

  lemma {:induction false} NewestTimeSnoc(t: int, events: seq<Event>, e: Event)
    ensures NewestTime(t, events + [e]) == if e.ts > NewestTime(t, events) then e.ts else NewestTime(t, events)
    decreases events
  {
    if events != [] {
      assert (events + [e])[1..] == events[1..] + [e];
      NewestTimeSnoc(if events[0].ts > t then events[0].ts else t, events[1..], e);
    } else {
      assert [] + [e] == [e];
    }
  }

  /** The newest timestamp is the largest there is. */
  lemma {:induction false} NewestIsLargest(t: int, events: seq<Event>)
    ensures t <= NewestTime(t, events)
    ensures forall i :: 0 <= i < |events| ==> events[i].ts <= NewestTime(t, events)
    ensures NewestTime(t, events) == t || exists i :: 0 <= i < |events| && events[i].ts == NewestTime(t, events)
    decreases events
  {
    if events != [] {
      var t' := if events[0].ts > t then events[0].ts else t;
      NewestIsLargest(t', events[1..]);
      if i :| 0 <= i < |events[1..]| && events[1..][i].ts == NewestTime(t', events[1..]) {
        assert events[i + 1].ts == NewestTime(t, events);
      }
    }
  }

  class Viewer {
    var active: bool
    var key: ViewerKey
    var events: seq<Event>
    var seen: set<string>
    var lastTS: int
    var follow: bool
    var loading: bool

    function Contents(): View
      reads this
    {
      View(events, seen, lastTS)
    }

    constructor (key: ViewerKey)
      ensures !active && Contents() == EMPTY_VIEW
    {
      active, follow, loading := false, false, false;
      this.key := key;
      events, seen, lastTS := [], {}, 0;
    }

    method Open(key: ViewerKey)
      modifies this
      ensures active && this.key == key && follow && loading
      ensures Contents() == EMPTY_VIEW
    {
      active := true;
      this.key := key;
      events := [];
      seen := {};
      lastTS := 0;
      follow := true;
      loading := true;
    }

    method Append(batch: seq<Event>)
      modifies `events, `seen, `lastTS
      ensures Contents() == Absorb(old(Contents()), batch)
      ensures events == Last(old(events) + Unseen(old(seen), batch), 10000)
    {
      ghost var v := Contents();
      for i := 0 to |batch|
        invariant seen == SeenAfter(v.seen, batch[..i])
        invariant events == v.events + Unseen(v.seen, batch[..i])
        invariant lastTS == NewestTime(v.lastTS, Unseen(v.seen, batch[..i]))
      {
        var ev := batch[i];
        UnseenSnoc(v.seen, batch[..i], ev);
        NewestTimeSnoc(v.lastTS, Unseen(v.seen, batch[..i]), ev);
        assert batch[..i + 1] == batch[..i] + [ev];
        if ev.id != "" && ev.id in seen {
          continue;
        }
        if ev.id != "" {
          seen := seen + {ev.id};
        }
        events := events + [ev];
        if ev.ts > lastTS {
          lastTS := ev.ts;
        }
      }
      assert batch[..|batch|] == batch;
      if |events| > VIEWER_MAX_EVENTS {
        events := events[|events| - VIEWER_MAX_EVENTS..];
      }
    }

    /** Replies for a viewer that was closed or points elsewhere by now are dropped. */
    method HandleEvents(replyKey: ViewerKey, initial: bool, batch: seq<Event>)
      modifies this
      ensures active == old(active) && key == old(key) && follow == old(follow)
      ensures loading == (old(loading) && !(active && replyKey == key && initial))
      ensures Contents() == if active && replyKey == key then Absorb(old(Contents()), batch) else old(Contents())
    {
      if !active || replyKey != key {
        return;
      }
      if initial {
        loading := false;
      }
      Append(batch);
    }

    /** Where the next poll starts; the first one always covers the lookback window. */
    method PollStart(initial: bool, now: int, lookback: int) returns (since: int)
      ensures since == if initial || lastTS == 0 then now - lookback else lastTS
    {
      since := lastTS;
      if initial || since == 0 {
        since := now - lookback;
      }
    }
  }
}
