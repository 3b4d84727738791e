/**
  What trimming can change in the merged timeline: nothing while the cap splits
  no group of equal timestamps, and otherwise only which events of the oldest
  kept instant survive.
*/
module MergeTies {
  import opened Ordering
  import opened Sequences
  import opened LogMerge
  import opened MergeTails

  ghost predicate DistinctTimes(events: seq<Event>) {
    forall e, f :: e in events && f in events && e.ts == f.ts ==> e == f
  }

  function After(events: seq<Event>, t: int): seq<Event> {
    if events == [] then []
    else if events[0].ts > t then [events[0]] + After(events[1..], t)
    else After(events[1..], t)
  }

  lemma {:induction false} AfterConcat(a: seq<Event>, b: seq<Event>, t: int)
    ensures After(a + b, t) == After(a, t) + After(b, t)
  {
    if a == [] {
      assert a + b == b;
    } else {
      assert (a + b)[1..] == a[1..] + b;
      AfterConcat(a[1..], b, t);
    }
  }

  lemma AfterNone(events: seq<Event>, t: int)
    requires forall e :: e in events ==> e.ts <= t
    ensures After(events, t) == []
  {
  }

  lemma {:induction false} AfterInsert(e: Event, sorted: seq<Event>, t: int)
    requires TimeSorted(sorted)
    ensures After(InsertBy(Older, e, sorted), t) ==
            if e.ts > t then InsertBy(Older, e, After(sorted, t)) else After(sorted, t)
  {
    if sorted != [] {
      var kept := After(sorted, t);
      if sorted[0].ts > t {
        assert kept[0] == sorted[0] && kept[1..] == After(sorted[1..], t);
      }
      if e.ts > sorted[0].ts {
        AfterInsert(e, sorted[1..], t);
        assert InsertBy(Older, e, sorted)[1..] == InsertBy(Older, e, sorted[1..]);
      } else {
        assert InsertBy(Older, e, sorted)[1..] == sorted;
      }
    }
  }

  lemma {:induction false} AfterSort(events: seq<Event>, t: int)
    ensures After(SortByTime(events), t) == SortByTime(After(events, t))
  {
    if events != [] {
      AfterSort(events[1..], t);
      SortSorts(events[1..]);
      AfterInsert(events[0], SortByTime(events[1..]), t);
      var newer := After(events, t);
      if events[0].ts > t {
        assert newer[0] == events[0] && newer[1..] == After(events[1..], t);
      }
    }
  }

  /** Ids seen below the instant t are never the ids of events above it. */
  lemma {:induction false} AfterUnseen(seen: set<string>, newer: set<string>, events: seq<Event>, t: int)
    requires Identified(events) && Consistent(events)
    requires newer <= seen
    requires forall e :: e in events && e.ts > t && e.id in seen ==> e.id in newer
    ensures After(Unseen(seen, events), t) == Unseen(newer, After(events, t))
    decreases events
  {
    if events != [] {
      var e, rest, kept := events[0], events[1..], After(events, t);
      if e.ts > t {
        assert kept[0] == e && kept[1..] == After(rest, t);
      } else {
        assert kept == After(rest, t);
      }
      if e.id in seen {
        AfterUnseen(seen, newer, rest, t);
      } else {
        AfterUnseen(Remember(seen, e.id), if e.ts > t then Remember(newer, e.id) else newer, rest, t);
        assert Unseen(seen, events)[1..] == Unseen(Remember(seen, e.id), rest);
      }
    }
  }

  lemma {:induction false} AfterFlatten(batches: seq<seq<Event>>, k: nat, t: int)
    requires forall i :: 0 <= i < |batches| ==> After(Last(batches[i], k), t) == After(batches[i], t)
    ensures After(Flatten(Tails(batches, k)), t) == After(Flatten(batches), t)
  {
    if batches != [] {
      var rest := batches[1..];
      forall i | 0 <= i < |rest|
        ensures After(Last(rest[i], k), t) == After(rest[i], t)
      {
        assert rest[i] == batches[i + 1];
      }
      AfterFlatten(rest, k, t);
      assert Tails(batches, k)[1..] == Tails(rest, k);
      AfterConcat(batches[0], Flatten(rest), t);
      AfterConcat(Last(batches[0], k), Flatten(Tails(rest, k)), t);
    }
  }

  lemma {:induction false} AfterLast(events: seq<Event>, k: nat, t: int)
    requires |events| > k ==> forall i :: 0 <= i < |events| - k ==> events[i].ts <= t
    ensures After(Last(events, k), t) == After(events, t)
  {
    if |events| > k {
      var cut := |events| - k;
      assert events == events[..cut] + events[cut..];
      AfterConcat(events[..cut], events[cut..], t);
      forall e | e in events[..cut]
        ensures e.ts <= t
      {
        var i :| 0 <= i < cut && events[i] == e;
      }
      AfterNone(events[..cut], t);
    }
  }

  /** What follows an event in its batch is at least as new, and all of it is among the merged events. */
  lemma {:induction false} EnoughNewer(batches: seq<seq<Event>>, i: nat, j: nat)
    requires GoodBatches(batches) && i < |batches| && j < |batches[i]|
    ensures |SetFrom(Flatten(batches), batches[i][j].ts)| >= |batches[i]| - j
  {
    var t, upper := batches[i][j].ts, batches[i][j..];
    CountIsCardinality(upper, t);
    CountBounds(upper, t);
    assert forall x :: x in upper ==> x in batches[i];
    SubsetSize(SetFrom(upper, t), SetFrom(batches[i], t));
    PartOfFlatten(batches, i, t);
  }

  /** A batch drops nothing newer than the oldest instant the merged tail keeps. */
  lemma {:induction false} DropsAreOld(batches: seq<seq<Event>>, k: nat, i: nat, j: nat)
    requires GoodBatches(batches) && k > 0
    requires i < |batches| && j < |batches[i]| - k
    ensures Merge(batches, k) != [] && batches[i][j].ts <= Merge(batches, k)[0].ts
  {
    var all, t := Merge(batches, 0), batches[i][j].ts;
    GoodBatchesFlat(batches);
    MergedSet(batches, t);
    EnoughNewer(batches, i, j);
    CountLast(all, k, t);
    CountBounds(all, t);
    AllFrom(Last(all, k), t);
  }

  lemma {:induction false} AllFrom(events: seq<Event>, t: int)
    requires CountFrom(events, t) == |events|
    ensures forall i :: 0 <= i < |events| ==> events[i].ts >= t
  {
    if events != [] {
      CountBounds(events[1..], t);
      AllFrom(events[1..], t);
    }
  }

  lemma {:induction false} AfterMerge(batches: seq<seq<Event>>, t: int)
    requires GoodBatches(batches)
    ensures After(Merge(batches, 0), t) == SortByTime(Unseen({}, After(Flatten(batches), t)))
  {
    GoodBatchesFlat(batches);
    AfterUnseen({}, {}, Flatten(batches), t);
    AfterSort(Unseen({}, Flatten(batches)), t);
  }

  /** If no batch drops anything newer than an instant, trimming does not show after it. */
  lemma {:induction false} SameAfter(batches: seq<seq<Event>>, k: nat, t: int)
    requires GoodBatches(batches)
    requires forall i, j :: 0 <= i < |batches| && 0 <= j < |batches[i]| - k ==> batches[i][j].ts <= t
    ensures After(Merge(Tails(batches, k), 0), t) == After(Merge(batches, 0), t)
  {
    TailsAreGood(batches, k);
    forall i | 0 <= i < |batches|
      ensures After(Last(batches[i], k), t) == After(batches[i], t)
    {
      AfterLast(batches[i], k, t);
    }
    AfterFlatten(batches, k, t);
    AfterMerge(batches, t);
    AfterMerge(Tails(batches, k), t);
  }

  lemma {:induction false} SameAfterCut(batches: seq<seq<Event>>, k: nat, cut: int)
    requires GoodBatches(batches) && k > 0
    requires Merge(batches, k) != [] && cut == Merge(batches, k)[0].ts
    ensures After(Merge(Tails(batches, k), 0), cut) == After(Merge(batches, 0), cut)
  {
    forall i, j | 0 <= i < |batches| && 0 <= j < |batches[i]| - k
      ensures batches[i][j].ts <= cut
    {
      DropsAreOld(batches, k, i, j);
    }
    SameAfter(batches, k, cut);
  }

  /** The newest k keep everything after their oldest instant. */
  lemma {:induction false} AfterOldestKept(events: seq<Event>, k: nat)
    requires TimeSorted(events) && events != [] && k > 0
    ensures After(Last(events, k), Last(events, k)[0].ts) == After(events, Last(events, k)[0].ts)
  {
    AfterLast(events, k, Last(events, k)[0].ts);
  }

  /** With ties, every event newer than the oldest kept instant is shown identically. */
  lemma {:induction false} TailOfMergeWithTies(batches: seq<seq<Event>>, k: nat)
    requires GoodBatches(batches) && k > 0
    requires Merge(batches, k) != []
    ensures var cut := Merge(batches, k)[0].ts;
            After(Merge(Tails(batches, k), k), cut) == After(Merge(batches, k), cut)
  {
    var cut := Merge(batches, k)[0].ts;
    SameAfterCut(batches, k, cut);
    TailsAreGood(batches, k);
    MergedSet(batches, 0);
    MergedSet(Tails(batches, k), 0);
    TailOfMergeTimes(batches, k);
    AfterOldestKept(Merge(batches, 0), k);
    AfterOldestKept(Merge(Tails(batches, k), 0), k);
  }

  /** When no more than k events are at an instant or after it, and the newest k are all among them, they are these. */
  lemma {:induction false} NewestAreFrom(events: seq<Event>, k: nat, t: int)
    requires TimeSorted(events) && CountFrom(events, t) <= k
    requires forall i :: 0 <= i < |Last(events, k)| ==> Last(events, k)[i].ts >= t
    ensures Last(events, k) == After(events, t - 1)
  {
    CountLast(events, k, t);
    CountBounds(Last(events, k), t);
    if |events| > k {
      var cut := |events| - k;
      assert events == events[..cut] + events[cut..];
      CountConcat(events[..cut], events[cut..], t);
      NoneFrom(events[..cut], t);
    }
    AfterLast(events, k, t - 1);
    AfterEverything(Last(events, k), t - 1);
  }

  lemma {:induction false} NoneFrom(events: seq<Event>, t: int)
    requires CountFrom(events, t) == 0
    ensures forall i :: 0 <= i < |events| ==> events[i].ts < t
  {
    if events != [] {
      NoneFrom(events[1..], t);
    }
  }

  lemma {:induction false} AfterEverything(events: seq<Event>, t: int)
    requires forall i :: 0 <= i < |events| ==> events[i].ts > t
    ensures After(events, t) == events
  {
    if events != [] {
      AfterEverything(events[1..], t);
    }
  }

  /** A batch drops nothing as new as the oldest kept instant, if the tail keeps all of that instant. */
  lemma {:induction false} DropsAreOlder(batches: seq<seq<Event>>, k: nat, cut: int, i: nat, j: nat)
    requires GoodBatches(batches) && k > 0 && Merge(batches, k) != [] && cut == Merge(batches, k)[0].ts
    requires CountFrom(Merge(batches, 0), cut) <= k
    requires i < |batches| && j < |batches[i]| - k
    ensures batches[i][j].ts < cut
  {
    DropsAreOld(batches, k, i, j);
    GoodBatchesFlat(batches);
    MergedSet(batches, cut);
    EnoughNewer(batches, i, j);
  }

  /** Cutting the merged timeline to its newest k events takes all events of an instant or none. */
  ghost predicate KeepsTiesWhole(batches: seq<seq<Event>>, k: nat) {
    Merge(batches, k) != [] ==> CountFrom(Merge(batches, 0), Merge(batches, k)[0].ts) <= k
  }

  /** A merged tail that starts at an instant and keeps its ties is all there is from that instant on. */
  lemma {:induction false} TailIsFrom(batches: seq<seq<Event>>, k: nat, cut: int)
    requires Mergeable(batches) && CountFrom(Merge(batches, 0), cut) <= k
    requires Last(Merge(batches, 0), k) != [] && Last(Merge(batches, 0), k)[0].ts == cut
    ensures Last(Merge(batches, 0), k) == After(Merge(batches, 0), cut - 1)
  {
    MergedSet(batches, cut);
    NewestAreFrom(Merge(batches, 0), k, cut);
  }

  lemma {:induction false} SameFromCut(batches: seq<seq<Event>>, k: nat, cut: int)
    requires GoodBatches(batches) && k > 0
    requires Merge(batches, k) != [] && cut == Merge(batches, k)[0].ts && CountFrom(Merge(batches, 0), cut) <= k
    ensures After(Merge(Tails(batches, k), 0), cut - 1) == After(Merge(batches, 0), cut - 1)
  {
    forall i, j | 0 <= i < |batches| && 0 <= j < |batches[i]| - k
      ensures batches[i][j].ts <= cut - 1
    {
      DropsAreOlder(batches, k, cut, i, j);
    }
    SameAfter(batches, k, cut - 1);
  }

  /** As long as the cap does not split a group of ties, the two timelines are the same events in the same order. */
  lemma {:induction false} TailOfMergeWhole(batches: seq<seq<Event>>, k: nat)
    requires GoodBatches(batches) && k > 0 && KeepsTiesWhole(batches, k)
    ensures Merge(Tails(batches, k), k) == Merge(batches, k)
  {
    TailOfMergeTimes(batches, k);
    if Merge(batches, k) != [] {
      var cut := Merge(batches, k)[0].ts;
      TailsAreGood(batches, k);
      SameFromCut(batches, k, cut);
      CappedCountsAgree(batches, k, cut);
      TailIsFrom(batches, k, cut);
      TailIsFrom(Tails(batches, k), k, cut);
    }
  }

  // ---- exactly when trimming does not show -------------------------------------------

  lemma {:induction false} AtConcat(a: seq<Event>, b: seq<Event>, t: int)
    ensures At(a + b, t) == At(a, t) + At(b, t)
  {
    if a == [] {
      assert a + b == b;
    } else {
      assert (a + b)[1..] == a[1..] + b;
      AtConcat(a[1..], b, t);
    }
  }

  /** Among the newest k, those of one instant are the last of all of that instant. */
  lemma {:induction false} AtLast(events: seq<Event>, k: nat, t: int)
    ensures |At(Last(events, k), t)| <= |At(events, t)|
    ensures At(Last(events, k), t) == Last(At(events, t), |At(Last(events, k), t)|)
  {
    if |events| > k {
      var cut := |events| - k;
      assert events == events[..cut] + events[cut..];
      AtConcat(events[..cut], events[cut..], t);
    }
  }

  /** A timeline is its oldest instant followed by the rest. */
  lemma {:induction false} OldestThenAfter(events: seq<Event>, t: int)
    requires TimeSorted(events) && forall i :: 0 <= i < |events| ==> events[i].ts >= t
    ensures events == At(events, t) + After(events, t)
  {
    if events != [] {
      OldestThenAfter(events[1..], t);
      if events[0].ts > t {
        NoneAt(events, t);
      }
    }
  }

  lemma {:induction false} NoneAt(events: seq<Event>, t: int)
    requires forall i :: 0 <= i < |events| ==> events[i].ts > t
    ensures At(events, t) == []
  {
    if events != [] {
      NoneAt(events[1..], t);
    }
  }

  lemma {:induction false} SameTimesSameAt(a: seq<Event>, b: seq<Event>, t: int)
    requires SameTimes(a, b)
    ensures |At(a, t)| == |At(b, t)|
  {
    if a != [] {
      SameTimesSameAt(a[1..], b[1..], t);
    }
  }

  /** The events of an instant that a merged tail of `kept` keeps, in terms of what was merged. */
  lemma {:induction false} KeptAt(batches: seq<seq<Event>>, k: nat, t: int)
    requires k > 0
    ensures At(Merge(batches, k), t) == Last(At(Unseen({}, Flatten(batches)), t), |At(Merge(batches, k), t)|)
  {
    SortIsStable(Unseen({}, Flatten(batches)), t);
    AtLast(Merge(batches, 0), k, t);
  }

  /**
    Trimming first gives the same timeline if and only if the oldest instant
    kept, of which m events are kept, has the same last m events among the merged
    batches as among the merged tails.
  */
  lemma {:induction false} TailOfMergeIff(batches: seq<seq<Event>>, k: nat, cut: int, m: nat)
    requires GoodBatches(batches) && k > 0
    requires Merge(batches, k) != [] && cut == Merge(batches, k)[0].ts && m == |At(Merge(batches, k), cut)|
    ensures Merge(Tails(batches, k), k) == Merge(batches, k) <==>
            Last(At(Unseen({}, Flatten(batches)), cut), m) == Last(At(Unseen({}, Flatten(Tails(batches, k))), cut), m)
  {
    var a, b := Merge(batches, k), Merge(Tails(batches, k), k);
    TailOfMergeTimes(batches, k);
    SameTimesSameAt(b, a, cut);
    KeptAt(batches, k, cut);
    KeptAt(Tails(batches, k), k, cut);
    TailOfMergeWithTies(batches, k);
    TailsAreGood(batches, k);
    MergedIsSorted(batches, k);
    MergedIsSorted(Tails(batches, k), k);
    OldestThenAfter(a, cut);
    OldestThenAfter(b, cut);
  }

  lemma {:induction false} MergedIsSorted(batches: seq<seq<Event>>, k: nat)
    requires Mergeable(batches) && k > 0
    ensures var tail := Merge(batches, k); TimeSorted(tail) && forall i :: 0 <= i < |tail| ==> tail[i].ts >= tail[0].ts
  {
    MergedSet(batches, 0);
  }

  lemma {:induction false} OneMoreInstant(events: seq<Event>, t: int)
    requires DistinctTimes(events)
    ensures |SetFrom(events, t)| <= |SetFrom(events, t + 1)| + 1
  {
    if e :| e in events && e.ts == t {
      SubsetSize(SetFrom(events, t), SetFrom(events, t + 1) + {e});
    } else {
      SubsetSize(SetFrom(events, t), SetFrom(events, t + 1));
    }
  }

  /** Where there are no ties none is split. */
  lemma {:induction false} DistinctTimesStayWhole(batches: seq<seq<Event>>, k: nat)
    requires Mergeable(batches) && k > 0 && DistinctTimes(Flatten(batches))
    ensures KeepsTiesWhole(batches, k)
  {
    if Merge(batches, k) != [] {
      var all, tail := Merge(batches, 0), Merge(batches, k);
      var cut := tail[0].ts;
      MergedSet(batches, cut);
      MergedSet(batches, cut + 1);
      OneMoreInstant(Flatten(batches), cut);
      CountLast(all, k, cut + 1);
      CountBounds(tail[1..], cut + 1);
      assert tail == Last(all, k);
    }
  }

  /** In particular without ties. */
  lemma {:induction false} TailOfMerge(batches: seq<seq<Event>>, k: nat)
    requires GoodBatches(batches) && k > 0
    requires DistinctTimes(Flatten(batches))
    ensures Merge(Tails(batches, k), k) == Merge(batches, k)
  {
    GoodBatchesFlat(batches);
    DistinctTimesStayWhole(batches, k);
    TailOfMergeWhole(batches, k);
  }

  lemma {:induction false} FlattenPair<T>(a: seq<T>, b: seq<T>)
    ensures Flatten([a, b]) == a + b
  {
    FlattenConcat([a], [b]);
    assert Flatten([a]) == a && Flatten([b]) == b;
    assert [a] + [b] == [a, b];
  }

  lemma {:induction false} SortPair(a: Event, b: Event)
    requires a.ts == b.ts
    ensures SortByTime([a, b]) == [a, b]
  {
    assert [a, b][1..] == [b];
    assert SortBy(Older, [b]) == InsertBy(Older, b, SortBy(Older, [])) == [b];
  }

  lemma {:induction false} UnseenPair(a: Event, b: Event, rest: seq<Event>)
    requires a.id != "" && b.id != "" && a.id != b.id
    requires rest == [] || rest == [a]
    ensures Unseen({}, [a, b] + rest) == [a, b]
  {
    assert ([a, b] + rest)[1..] == [b] + rest;
    assert ([b] + rest)[1..] == rest;
    assert Remember({}, a.id) == {a.id};
    assert Unseen({a.id} + {b.id}, rest) == [];
    assert Unseen({a.id}, [b] + rest) == [b];
  }

  /** The merge of two batches, the second a repetition from the first or empty of news. */
  lemma {:induction false} MergePair(a: Event, b: Event, first: seq<Event>, second: seq<Event>)
    requires a.id != "" && b.id != "" && a.id != b.id && a.ts == b.ts
    requires (first == [a, b] && second == [a]) || (first == [a] && second == [b])
    ensures Merge([first, second], 1) == [b]
  {
    FlattenPair(first, second);
    var rest := if first == [a] then [] else [a];
    assert first + second == [a, b] + rest;
    UnseenPair(a, b, rest);
    SortPair(a, b);
  }

  /** Ties make the identity of the oldest kept event depend on the trimming. */
  lemma {:induction false} TiesCanDiffer()
    ensures exists batches, k: nat :: GoodBatches(batches) && k > 0 && Merge(Tails(batches, k), k) != Merge(batches, k)
  {
    var a, b := Event("a", 1, ""), Event("b", 1, "");
    TiesAt(a, b);
  }

  lemma {:induction false} TiesAt(a: Event, b: Event)
    requires a.id != "" && b.id != "" && a.id != b.id && a.ts == b.ts
    ensures GoodBatches([[a, b], [a]]) && Merge(Tails([[a, b], [a]], 1), 1) != Merge([[a, b], [a]], 1)
  {
    MergePair(a, b, [a, b], [a]);
    MergePair(b, a, [b], [a]);
    assert Tails([[a, b], [a]], 1) == [[b], [a]];
    GoodPair(a, b);
  }

  lemma {:induction false} GoodPair(a: Event, b: Event)
    requires a.id != "" && b.id != "" && a.id != b.id && a.ts == b.ts
    ensures GoodBatches([[a, b], [a]])
  {
    FlattenPair([a, b], [a]);
    assert GoodBatch([a, b]) && GoodBatch([a]);
    assert Consistent([a, b] + [a]);
  }
}
