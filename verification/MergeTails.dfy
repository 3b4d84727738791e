/**
  Trimming every pattern's batch to its newest `limit` events before merging:
  counted by age, the trimmed timeline shows the same instants as the whole one.
*/
module MergeTails {
  import opened Ordering
  import opened Sequences
  import opened LogMerge

  /** What one pattern's query returns: identified events, oldest first, none twice. */
  ghost predicate GoodBatch(batch: seq<Event>) {
    Identified(batch) && TimeSorted(batch) && UniqueIds(batch)
  }

  ghost predicate GoodBatches(batches: seq<seq<Event>>) {
    && (forall i :: 0 <= i < |batches| ==> GoodBatch(batches[i]))
    && Consistent(Flatten(batches))
  }

  /** All that merging needs: identified events, the same id always naming the same event. */
  ghost predicate Mergeable(batches: seq<seq<Event>>) {
    Identified(Flatten(batches)) && Consistent(Flatten(batches))
  }

  function Tails(batches: seq<seq<Event>>, k: nat): (r: seq<seq<Event>>)
    ensures |r| == |batches|
    ensures forall i :: 0 <= i < |batches| ==> r[i] == Last(batches[i], k)
  {
    seq(|batches|, i requires 0 <= i < |batches| => Last(batches[i], k))
  }

  // ---- counting by age ---------------------------------------------------------

  function CountFrom(events: seq<Event>, t: int): nat {
    if events == [] then 0 else (if events[0].ts >= t then 1 else 0) + CountFrom(events[1..], t)
  }

  ghost function SetFrom(events: seq<Event>, t: int): set<Event> {
    set e | e in events && e.ts >= t
  }

  lemma {:induction false} CountConcat(a: seq<Event>, b: seq<Event>, t: int)
    ensures CountFrom(a + b, t) == CountFrom(a, t) + CountFrom(b, t)
  {
    if a == [] {
      assert a + b == b;
    } else {
      assert (a + b)[1..] == a[1..] + b;
      CountConcat(a[1..], b, t);
    }
  }

  lemma {:induction false} CountIsCardinality(events: seq<Event>, t: int)
    requires UniqueIds(events)
    ensures CountFrom(events, t) == |SetFrom(events, t)|
  {
    if events == [] {
      assert SetFrom(events, t) == {};
    } else {
      CountIsCardinality(events[1..], t);
      assert events == [events[0]] + events[1..];
      assert events[0] !in events[1..];
      if events[0].ts >= t {
        assert SetFrom(events, t) == {events[0]} + SetFrom(events[1..], t);
      } else {
        assert SetFrom(events, t) == SetFrom(events[1..], t);
      }
    }
  }

  lemma CountInsert(e: Event, sorted: seq<Event>, t: int)
    ensures CountFrom(InsertBy(Older, e, sorted), t) == CountFrom([e], t) + CountFrom(sorted, t)
  {
  }

  lemma {:induction false} CountSort(events: seq<Event>, t: int)
    ensures CountFrom(SortByTime(events), t) == CountFrom(events, t)
  {
    if events != [] {
      CountSort(events[1..], t);
      CountInsert(events[0], SortByTime(events[1..]), t);
    }
  }

  lemma {:induction false} CountBounds(events: seq<Event>, t: int)
    ensures CountFrom(events, t) <= |events|
    ensures (forall i :: 0 <= i < |events| ==> events[i].ts >= t) ==> CountFrom(events, t) == |events|
    ensures (forall i :: 0 <= i < |events| ==> events[i].ts < t) ==> CountFrom(events, t) == 0
  {
    if events != [] {
      CountBounds(events[1..], t);
    }
  }

  /** In a sorted sequence the newest k events at or after t number min(k, all of them). */
  lemma {:induction false} CountLast(events: seq<Event>, k: nat, t: int)
    requires TimeSorted(events)
    ensures CountFrom(Last(events, k), t) == if CountFrom(events, t) <= k then CountFrom(events, t) else k
  {
    if |events| > k {
      var cut := |events| - k;
      assert events == events[..cut] + events[cut..];
      CountConcat(events[..cut], events[cut..], t);
      CountBounds(events[..cut], t);
      CountBounds(events[cut..], t);
      if k > 0 && events[cut].ts < t {
        assert forall i :: 0 <= i < cut ==> events[i].ts <= events[cut].ts;
      }
    } else {
      CountBounds(events, t);
    }
  }

  ghost predicate SameTimes(a: seq<Event>, b: seq<Event>) {
    |a| == |b| && forall i :: 0 <= i < |a| ==> a[i].ts == b[i].ts
  }

  lemma {:induction false} NewestAgree(a: seq<Event>, b: seq<Event>)
    requires TimeSorted(a) && a != [] && b != []
    requires CountFrom(a, b[|b| - 1].ts) == CountFrom(b, b[|b| - 1].ts)
    ensures a[|a| - 1].ts >= b[|b| - 1].ts
  {
    var t := b[|b| - 1].ts;
    SplitLast(b, t);
    if a[|a| - 1].ts < t {
      assert forall i :: 0 <= i < |a| ==> a[i].ts <= a[|a| - 1].ts;
      CountBounds(a, t);
    }
  }

  lemma {:induction false} CountsOfFront(a: seq<Event>, b: seq<Event>, a': seq<Event>, b': seq<Event>)
    requires a != [] && b != [] && a[|a| - 1].ts == b[|b| - 1].ts
    requires a' == a[..|a| - 1] && b' == b[..|b| - 1]
    requires forall t :: CountFrom(a, t) == CountFrom(b, t)
    ensures forall t :: CountFrom(a', t) == CountFrom(b', t)
  {
    forall t
      ensures CountFrom(a', t) == CountFrom(b', t)
    {
      SplitLast(a, t);
      SplitLast(b, t);
      assert CountFrom(a, t) == CountFrom(b, t);
    }
  }

  /** Sorted timelines with equal counts from every instant have equal timestamps. */
  lemma {:induction false} CountsFixTimes(a: seq<Event>, b: seq<Event>)
    requires TimeSorted(a) && TimeSorted(b)
    requires forall t :: CountFrom(a, t) == CountFrom(b, t)
    ensures SameTimes(a, b)
  {
    if a == [] || b == [] {
      var t := if a != [] then a[0].ts else if b != [] then b[0].ts else 0;
      assert CountFrom(a, t) == CountFrom(b, t);
    } else {
      assert CountFrom(a, a[|a| - 1].ts) == CountFrom(b, a[|a| - 1].ts);
      assert CountFrom(a, b[|b| - 1].ts) == CountFrom(b, b[|b| - 1].ts);
      NewestAgree(a, b);
      NewestAgree(b, a);
      var a', b' := a[..|a| - 1], b[..|b| - 1];
      CountsOfFront(a, b, a', b');
      CountsFixTimes(a', b');
    }
  }

  lemma {:induction false} SplitLast(a: seq<Event>, t: int)
    requires a != []
    ensures CountFrom(a, t) == CountFrom(a[..|a| - 1], t) + (if a[|a| - 1].ts >= t then 1 else 0)
  {
    assert a == a[..|a| - 1] + [a[|a| - 1]];
    CountConcat(a[..|a| - 1], [a[|a| - 1]], t);
  }

  // ---- what trimming drops -----------------------------------------------------

  lemma {:induction false} GoodBatchesFlat(batches: seq<seq<Event>>)
    requires GoodBatches(batches)
    ensures Mergeable(batches)
  {
    forall i | 0 <= i < |Flatten(batches)|
      ensures Flatten(batches)[i].id != ""
    {
      InFlatten(batches, Flatten(batches)[i]);
    }
  }

  lemma {:induction false} LastIsGood(batch: seq<Event>, k: nat)
    requires GoodBatch(batch)
    ensures GoodBatch(Last(batch, k))
  {
  }

  lemma {:induction false} TailsHoldNoOthers(batches: seq<seq<Event>>, k: nat, e: Event)
    requires e in Flatten(Tails(batches, k))
    ensures e in Flatten(batches)
  {
    InFlatten(Tails(batches, k), e);
    var i :| 0 <= i < |batches| && e in Last(batches[i], k);
    assert e in batches[i];
    InFlatten(batches, e);
  }

  lemma {:induction false} TailsAreGood(batches: seq<seq<Event>>, k: nat)
    requires GoodBatches(batches)
    ensures GoodBatches(Tails(batches, k)) && Mergeable(batches) && Mergeable(Tails(batches, k))
    ensures forall e :: e in Flatten(Tails(batches, k)) ==> e in Flatten(batches)
  {
    forall e | e in Flatten(Tails(batches, k))
      ensures e in Flatten(batches)
    {
      TailsHoldNoOthers(batches, k, e);
    }
    forall i | 0 <= i < |batches|
      ensures GoodBatch(Tails(batches, k)[i])
    {
      LastIsGood(batches[i], k);
    }
    assert Consistent(Flatten(Tails(batches, k)));
    GoodBatchesFlat(batches);
    GoodBatchesFlat(Tails(batches, k));
  }

  /** A dropped event was outranked by k kept events of its own batch. */
  lemma {:induction false} DroppedIsOutranked(batches: seq<seq<Event>>, k: nat, e: Event)
    requires GoodBatches(batches)
    requires e in Flatten(batches) && e !in Flatten(Tails(batches, k))
    ensures |SetFrom(Flatten(Tails(batches, k)), e.ts)| >= k
  {
    InFlatten(batches, e);
    var i :| 0 <= i < |batches| && e in batches[i];
    var tails := Tails(batches, k);
    InFlatten(tails, e);
    OutrankedInBatch(batches[i], k, e);
    PartOfFlatten(tails, i, e.ts);
  }

  lemma {:induction false} OutrankedInBatch(batch: seq<Event>, k: nat, e: Event)
    requires GoodBatch(batch) && e in batch && e !in Last(batch, k)
    ensures |SetFrom(Last(batch, k), e.ts)| == k
  {
    CountIsCardinality(Last(batch, k), e.ts);
    CountBounds(Last(batch, k), e.ts);
  }

  lemma {:induction false} PartOfFlatten(batches: seq<seq<Event>>, i: nat, t: int)
    requires i < |batches|
    ensures |SetFrom(batches[i], t)| <= |SetFrom(Flatten(batches), t)|
  {
    forall x | x in SetFrom(batches[i], t)
      ensures x in SetFrom(Flatten(batches), t)
    {
      InFlatten(batches, x);
    }
    SubsetSize(SetFrom(batches[i], t), SetFrom(Flatten(batches), t));
  }

  lemma {:induction false} SubsetSize<T>(a: set<T>, b: set<T>)
    requires a <= b
    ensures |a| <= |b|
  {
    assert b == a + (b - a);
  }

  /** The merged timeline before the cap, and the set it enumerates. */
  lemma {:induction false} MergedSet(batches: seq<seq<Event>>, t: int)
    requires Mergeable(batches)
    ensures TimeSorted(Merge(batches, 0)) && UniqueIds(Unseen({}, Flatten(batches)))
    ensures CountFrom(Merge(batches, 0), t) == |SetFrom(Flatten(batches), t)|
  {
    var distinct := Unseen({}, Flatten(batches));
    UnseenMembers({}, Flatten(batches));
    SortSorts(distinct);
    CountSort(distinct, t);
    CountIsCardinality(distinct, t);
    assert SetFrom(distinct, t) == SetFrom(Flatten(batches), t);
  }

  lemma {:induction false} CappedCountsAgree(batches: seq<seq<Event>>, k: nat, t: int)
    requires GoodBatches(batches)
    ensures var all, kept := CountFrom(Merge(batches, 0), t), CountFrom(Merge(Tails(batches, k), 0), t);
            kept <= all && (kept < all ==> k <= kept)
  {
    TailsAreGood(batches, k);
    MergedSet(batches, t);
    MergedSet(Tails(batches, k), t);
    var all, kept := SetFrom(Flatten(batches), t), SetFrom(Flatten(Tails(batches, k)), t);
    SubsetSize(kept, all);
    if kept != all {
      var e :| e in all && e !in kept;
      DroppedIsOutranked(batches, k, e);
      SubsetSize(SetFrom(Flatten(Tails(batches, k)), e.ts), kept);
    }
  }

  /** Whatever the ties, both timelines show the same instants. */
  lemma {:induction false} TailOfMergeTimes(batches: seq<seq<Event>>, k: nat)
    requires GoodBatches(batches) && k > 0
    ensures SameTimes(Merge(Tails(batches, k), k), Merge(batches, k))
  {
    var all, kept := Merge(batches, 0), Merge(Tails(batches, k), 0);
    TailsAreGood(batches, k);
    MergedSet(batches, 0);
    MergedSet(Tails(batches, k), 0);
    forall t
      ensures CountFrom(Last(kept, k), t) == CountFrom(Last(all, k), t)
    {
      CappedCountsAgree(batches, k, t);
      CountLast(all, k, t);
      CountLast(kept, k, t);
    }
    CountsFixTimes(Last(kept, k), Last(all, k));
  }

  lemma {:induction false} MergedMembers(batches: seq<seq<Event>>, limit: int)
    requires Mergeable(batches)
    ensures forall e :: e in Merge(batches, 0) <==> e in Flatten(batches)
    ensures forall e :: e in Merge(batches, limit) ==> e in Flatten(batches)
  {
    var distinct := Unseen({}, Flatten(batches));
    UnseenMembers({}, Flatten(batches));
    SortSorts(distinct);
    forall e
      ensures e in SortByTime(distinct) <==> e in distinct
    {
      assert e in SortByTime(distinct) <==> e in multiset(SortByTime(distinct));
    }
  }
}
