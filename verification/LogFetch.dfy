/**
  Paging queries: the newest events of a window per pattern, several patterns
  at once, and the complete-or-flagged download. A feed stands for one query's
  server: the reply it gives to the request for page p.
*/
module LogFetch {
  import opened Ordering
  import opened Sequences
  import opened LogMerge
  import opened MergeTails
  import opened MergeTies

  datatype PageReply = Page(events: seq<Event>, more: bool) | PageFailed

  type Feed = nat -> PageReply

  datatype Fetch = Fetched(events: seq<Event>) | FetchFailed {
    function Prepend(earlier: seq<Event>): Fetch {
      if Fetched? then Fetched(earlier + events) else this
    }

    function Newest(limit: nat): Fetch {
      if Fetched? then Fetched(Last(events, limit)) else this
    }
  }

  datatype Download = Downloaded(events: seq<Event>, truncated: bool) | DownloadFailed

  const MAX_PAGES := 20
  const DOWNLOAD_MAX_EVENTS := 50000

  /** Everything from page p on, if the feed ends within `budget` pages; otherwise `cutOff` stands for the rest. */
  function Window(feed: Feed, p: nat, budget: nat, cutOff: Fetch): Fetch
    decreases budget
  {
    if budget == 0 then cutOff
    else
      match feed(p)
      case PageFailed => FetchFailed
      case Page(events, more) =>
        if more then Window(feed, p + 1, budget - 1, cutOff).Prepend(events) else Fetched(events)
  }

  /** What one page makes of a window behind the events read before it. */
  lemma {:induction false} OnePage(got: seq<Event>, feed: Feed, p: nat, budget: nat, cutOff: Fetch)
    requires budget > 0
    ensures Window(feed, p, budget, cutOff).Prepend(got) ==
            match feed(p)
            case PageFailed => FetchFailed
            case Page(events, more) =>
              if more then Window(feed, p + 1, budget - 1, cutOff).Prepend(got + events) else Fetched(got + events)
  {
    match feed(p)
    case PageFailed =>
    case Page(events, more) =>
      var rest := Window(feed, p + 1, budget - 1, cutOff);
      if more && rest.Fetched? {
        Assoc(got, events, rest.events);
      }
  }

  /** Keep at most the newest `limit` events. */
  method Trim(events: seq<Event>, limit: nat) returns (kept: seq<Event>)
    ensures kept == Last(events, limit)
  {
    kept := events;
    if |kept| > limit {
      kept := kept[|kept| - limit..];
    }
  }

  /** The page loop: the newest `limit` events of the first `maxPages` pages, trimmed as the pages arrive. */
  method FetchPages(feed: Feed, limit: nat, maxPages: nat) returns (r: Fetch)
    ensures r == Window(feed, 0, maxPages, Fetched([])).Newest(limit)
  {
    var events: seq<Event> := [];
    ghost var got: seq<Event> := [];
    ghost var whole := Window(feed, 0, maxPages, Fetched([]));
    var page := 0;
    assert whole.Prepend([]) == whole;
    while page < maxPages
      invariant 0 <= page <= maxPages
      invariant events == Last(got, limit)
      invariant whole == Window(feed, page, maxPages - page, Fetched([])).Prepend(got)
    {
      var resp := feed(page);
      OnePage(got, feed, page, maxPages - page, Fetched([]));
      if resp.PageFailed? {
        return FetchFailed;
      }
      LastOfLast(got, resp.events, limit);
      events := Trim(events + resp.events, limit);
      if !resp.more {
        return Fetched(events);
      }
      got := got + resp.events;
      page := page + 1;
    }
    assert got + [] == got;
    return Fetched(events);
  }

  method GetLogEventsSince(feed: Feed, limit: nat) returns (r: Fetch)
    ensures r == Window(feed, 0, MAX_PAGES, Fetched([])).Newest(limit)
  {
    r := FetchPages(feed, limit, MAX_PAGES);
  }

  lemma {:induction false} BudgetKeepsPrefix(feed: Feed, p: nat, budget: nat, deadline: nat)
    requires budget <= deadline && Window(feed, p, deadline, FetchFailed).Fetched?
    ensures var early := Window(feed, p, budget, Fetched([]));
            early.Fetched? && early.events <= Window(feed, p, deadline, FetchFailed).events
    decreases budget
  {
    if budget > 0 && feed(p).more {
      BudgetKeepsPrefix(feed, p + 1, budget - 1, deadline - 1);
    }
  }

  /**
    Pages come oldest first, so the newest events of a window are returned
    exactly when nothing lies beyond the twentieth page.
  */
  lemma {:induction false} NewestIffPagesSuffice(feed: Feed, deadline: nat, limit: nat)
    requires limit > 0 && MAX_PAGES <= deadline
    requires Window(feed, 0, deadline, FetchFailed).Fetched?
    requires UniqueIds(Window(feed, 0, deadline, FetchFailed).events)
    ensures var whole, early := Window(feed, 0, deadline, FetchFailed), Window(feed, 0, MAX_PAGES, Fetched([]));
            early.Fetched? && (early.Newest(limit) == whole.Newest(limit) <==> |early.events| == |whole.events|)
  {
    BudgetKeepsPrefix(feed, 0, MAX_PAGES, deadline);
    var whole := Window(feed, 0, deadline, FetchFailed).events;
    var early := Window(feed, 0, MAX_PAGES, Fetched([])).events;
    var a, b := Last(early, limit), Last(whole, limit);
    if |early| < |whole| {
      assert b[|b| - 1] == whole[|whole| - 1];
      if early != [] {
        assert a[|a| - 1] == whole[|early| - 1];
        assert a[|a| - 1].id != b[|b| - 1].id;
      }
    }
  }

  /** A feed of so many pages, one event on each. */
  function Paged(n: nat): Feed {
    (p: nat) => Page([Numbered(p)], p + 1 < n)
  }

  function Numbered(p: nat): Event {
    Event(seq(p + 1, _ => 'e'), p, "")
  }

  function NumberedFrom(p: nat, n: nat): (r: seq<Event>)
    ensures |r| == n
    ensures forall i :: 0 <= i < n ==> r[i] == Numbered(p + i)
  {
    seq(n, i requires 0 <= i < n => Numbered(p + i))
  }

  lemma {:induction false} PagedWindow(n: nat, p: nat, budget: nat, cutOff: Fetch)
    requires p < n
    ensures Window(Paged(n), p, budget, cutOff) ==
            if budget < n - p then cutOff.Prepend(NumberedFrom(p, budget)) else Fetched(NumberedFrom(p, n - p))
    decreases budget
  {
    if budget == 0 {
      assert NumberedFrom(p, 0) == [];
      assert cutOff.Fetched? ==> [] + cutOff.events == cutOff.events;
    } else if p + 1 == n {
      assert NumberedFrom(p, 1) == [Numbered(p)];
    } else {
      PagedWindow(n, p + 1, budget - 1, cutOff);
      var shown := if budget < n - p then budget else n - p;
      assert NumberedFrom(p, shown) == [Numbered(p)] + NumberedFrom(p + 1, shown - 1);
      if budget < n - p && cutOff.Fetched? {
        Assoc([Numbered(p)], NumberedFrom(p + 1, budget - 1), cutOff.events);
      }
    }
  }

  /** It happens: of any feed of more than twenty pages the newest event is missed. */
  lemma {:induction false} LongFeedMissesNewest(n: nat, deadline: nat, limit: nat)
    requires MAX_PAGES < n <= deadline && limit > 0
    ensures var whole, early := Window(Paged(n), 0, deadline, FetchFailed), Window(Paged(n), 0, MAX_PAGES, Fetched([]));
            && whole.Fetched? && early.Fetched? && UniqueIds(whole.events)
            && early.Newest(limit) != whole.Newest(limit)
  {
    PagedWindow(n, 0, deadline, FetchFailed);
    PagedWindow(n, 0, MAX_PAGES, Fetched([]));
    var whole := Window(Paged(n), 0, deadline, FetchFailed).events;
    assert NumberedFrom(0, MAX_PAGES) + [] == NumberedFrom(0, MAX_PAGES);
    forall i, j | 0 <= i < j < |whole|
      ensures whole[i].id != whole[j].id
    {
      assert |whole[i].id| == i + 1 && |whole[j].id| == j + 1;
    }
    NewestIffPagesSuffice(Paged(n), deadline, limit);
  }

  /** The events of a fetch, none when it failed: a failed pattern degrades the result. */
  function Shown(f: Fetch): seq<Event> {
    if f.Fetched? then f.events else []
  }

  // ---- which pages a window holds ------------------------------------------------

  /** The pages before page n are all served, and each names a next one. */
  ghost predicate Served(feed: Feed, n: nat) {
    forall k :: 0 <= k < n ==> feed(k).Page? && feed(k).more
  }

  function EventsOf(reply: PageReply): seq<Event> {
    if reply.Page? then reply.events else []
  }

  /** Everything on the first n pages, in the order of the pages. */
  function PagesTo(feed: Feed, n: nat): seq<Event> {
    if n == 0 then [] else PagesTo(feed, n - 1) + EventsOf(feed(n - 1))
  }

  /** Reading up to `max` pages comes to page k, and finds e on it. */
  ghost predicate OnPage(feed: Feed, max: nat, k: nat, e: Event) {
    k < max && Served(feed, k) && feed(k).Page? && e in feed(k).events
  }

  /** Reading up to `max` pages meets one that fails. */
  ghost predicate BreaksOff(feed: Feed, max: nat) {
    exists k :: 0 <= k < max && Served(feed, k) && feed(k).PageFailed?
  }

  /** Reading up to `max` pages meets the last one. */
  ghost predicate Ends(feed: Feed, max: nat) {
    exists k :: 0 <= k < max && Served(feed, k) && feed(k).Page? && !feed(k).more
  }

  /** Reading up to `max` pages succeeds and finds e. */
  ghost predicate Delivers(feed: Feed, max: nat, e: Event) {
    !BreaksOff(feed, max) && exists k :: OnPage(feed, max, k, e)
  }

  /** Reading up to `max` pages reads n of them, and none fails. */
  ghost predicate Reads(feed: Feed, max: nat, n: nat) {
    0 < n <= max && Served(feed, n - 1) && feed(n - 1).Page? && (feed(n - 1).more ==> n == max)
  }

  lemma {:induction false} InPages(feed: Feed, n: nat, e: Event)
    ensures e in PagesTo(feed, n) <==> exists k :: 0 <= k < n && e in EventsOf(feed(k))
  {
    if n > 0 {
      InPages(feed, n - 1, e);
    }
  }

  lemma {:induction false} ReadOn(feed: Feed, n: nat, budget: nat, cutOff: Fetch)
    requires Served(feed, n) && n <= budget
    ensures Window(feed, 0, budget, cutOff) == Window(feed, n, budget - n, cutOff).Prepend(PagesTo(feed, n))
  {
    if n == 0 {
      var w := Window(feed, 0, budget, cutOff);
      assert w.Fetched? ==> [] + w.events == w.events;
    } else {
      ReadOn(feed, n - 1, budget, cutOff);
      OnePage(PagesTo(feed, n - 1), feed, n - 1, budget - n + 1, cutOff);
    }
  }

  /** Where reading up to `max` pages stops: at the budget, a failure, or the last page. */
  lemma {:induction false} StopsAt(feed: Feed, max: nat) returns (n: nat)
    ensures n <= max && Served(feed, n) && (n == max || feed(n).PageFailed? || !feed(n).more)
  {
    if max == 0 {
      n := 0;
    } else {
      n := StopsAt(feed, max - 1);
      if n == max - 1 && feed(n).Page? && feed(n).more {
        n := max;
      }
    }
  }

  /** Reading comes to no page behind the one it stops at. */
  lemma {:induction false} NoneBehind(feed: Feed, n: nat, k: nat)
    requires feed(n).PageFailed? || !feed(n).more
    ensures Served(feed, k) ==> k <= n
  {
  }

  /** A window is the pages read, joined. */
  lemma {:induction false} WindowIsPages(feed: Feed, max: nat, n: nat, cutOff: Fetch)
    requires n <= max && Served(feed, n) && (n == max || feed(n).PageFailed? || !feed(n).more)
    ensures Window(feed, 0, max, cutOff) ==
            if n == max then cutOff.Prepend(PagesTo(feed, n))
            else if feed(n).PageFailed? then FetchFailed
            else Fetched(PagesTo(feed, n + 1))
  {
    ReadOn(feed, n, max, cutOff);
    if n < max {
      OnePage(PagesTo(feed, n), feed, n, max - n, cutOff);
    }
  }

  lemma {:induction false} BreaksOffAt(feed: Feed, max: nat, n: nat)
    requires n <= max && Served(feed, n) && (n == max || feed(n).PageFailed? || !feed(n).more)
    ensures BreaksOff(feed, max) <==> n < max && feed(n).PageFailed?
    ensures Ends(feed, max) <==> n < max && feed(n).Page?
  {
    if n < max {
      assert Served(feed, n);
      forall k | 0 <= k < max && Served(feed, k) && (feed(k).PageFailed? || !feed(k).more)
        ensures k == n
      {
        NoneBehind(feed, n, k);
        NoneBehind(feed, k, n);
      }
    }
  }

  lemma {:induction false} OnPageIff(feed: Feed, max: nat, n: nat, e: Event)
    requires n <= max && Served(feed, n) && (n == max || (feed(n).Page? && !feed(n).more))
    ensures (exists k :: OnPage(feed, max, k, e)) <==> e in PagesTo(feed, if n == max then n else n + 1)
  {
    var count := if n == max then n else n + 1;
    InPages(feed, count, e);
    if k :| OnPage(feed, max, k, e) {
      if n < max {
        NoneBehind(feed, n, k);
      }
      assert e in EventsOf(feed(k));
    }
    if k :| 0 <= k < count && e in EventsOf(feed(k)) {
      assert OnPage(feed, max, k, e);
    }
  }

  /** A fetch fails exactly when a page does, and otherwise holds exactly what is on the pages it comes to. */
  lemma {:induction false} WindowMeansPages(feed: Feed, max: nat)
    ensures Window(feed, 0, max, Fetched([])).FetchFailed? <==> BreaksOff(feed, max)
    ensures forall e :: e in Shown(Window(feed, 0, max, Fetched([]))) <==> Delivers(feed, max, e)
  {
    var n := StopsAt(feed, max);
    BreaksOffAt(feed, max, n);
    WindowIsPages(feed, max, n, Fetched([]));
    assert PagesTo(feed, n) + [] == PagesTo(feed, n);
    if !BreaksOff(feed, max) {
      forall e
        ensures e in Shown(Window(feed, 0, max, Fetched([]))) <==> Delivers(feed, max, e)
      {
        OnPageIff(feed, max, n, e);
      }
    }
  }

  /** And it holds them page after page. */
  lemma {:induction false} WindowJoinsPages(feed: Feed, max: nat, n: nat)
    requires Reads(feed, max, n)
    ensures Window(feed, 0, max, Fetched([])) == Fetched(PagesTo(feed, n))
  {
    WindowIsPages(feed, max, if feed(n - 1).more then n else n - 1, Fetched([]));
    assert PagesTo(feed, n) + [] == PagesTo(feed, n);
  }

  // ---- several patterns ----------------------------------------------------------

  function OrEverything(patterns: seq<string>): seq<string> {
    if patterns == [] then [""] else patterns
  }

  function PatternWindow(query: string -> Feed, pattern: string): Fetch {
    Window(query(pattern), 0, MAX_PAGES, Fetched([]))
  }

  function Windows(query: string -> Feed, patterns: seq<string>): (r: seq<seq<Event>>)
    ensures |r| == |patterns|
  {
    seq(|patterns|, i requires 0 <= i < |patterns| => Shown(PatternWindow(query, patterns[i])))
  }

  /** Which patterns' queries fail. */
  function Failures(query: string -> Feed, patterns: seq<string>): (r: seq<bool>)
    ensures |r| == |patterns|
  {
    seq(|patterns|, i requires 0 <= i < |patterns| => PatternWindow(query, patterns[i]).FetchFailed?)
  }

  lemma {:induction false} OneMoreFetch(query: string -> Feed, done: seq<string>, p: string, limit: nat)
    ensures Tails(Windows(query, done + [p]), limit)
         == Tails(Windows(query, done), limit) + [Shown(PatternWindow(query, p).Newest(limit))]
    ensures Failures(query, done + [p]) == Failures(query, done) + [PatternWindow(query, p).Newest(limit).FetchFailed?]
  {
  }

  /** One fetch per pattern; each goroutine writes its own slot, so their order does not show. */
  method FetchEach(query: string -> Feed, patterns: seq<string>, limit: nat)
    returns (batches: seq<seq<Event>>, failed: seq<bool>)
    ensures batches == Tails(Windows(query, patterns), limit)
    ensures failed == Failures(query, patterns)
  {
    batches, failed := [], [];
    ghost var done: seq<string> := [];
    for i := 0 to |patterns|
      invariant done == patterns[..i]
      invariant batches == Tails(Windows(query, done), limit)
      invariant failed == Failures(query, done)
    {
      var r := GetLogEventsSince(query(patterns[i]), limit);
      OneMoreFetch(query, done, patterns[i], limit);
      batches := batches + [Shown(r)];
      failed := failed + [r.FetchFailed?];
      done := done + [patterns[i]];
    }
    assert done == patterns;
  }

  /** A pattern that was asked for; without any, the empty one that matches everything. */
  predicate Asked(patterns: seq<string>, p: string) {
    p in patterns || (patterns == [] && p == "")
  }

  lemma {:induction false} AskedMeans(patterns: seq<string>, p: string)
    ensures p in OrEverything(patterns) <==> Asked(patterns, p)
  {
  }

  lemma {:induction false} InMerge(batches: seq<seq<Event>>, limit: int, e: Event)
    ensures e in Merge(batches, limit) ==> e in Flatten(batches)
  {
    var distinct := Unseen({}, Flatten(batches));
    SortSorts(distinct);
    SameMembers(SortByTime(distinct), distinct);
    UnseenAreGiven({}, Flatten(batches), e);
    assert e in Merge(batches, limit) ==> e in SortByTime(distinct);
  }

  lemma {:induction false} UnseenAreGiven(seen: set<string>, events: seq<Event>, e: Event)
    ensures e in Unseen(seen, events) ==> e in events
    decreases events
  {
    if events != [] {
      UnseenAreGiven(seen, events[1..], e);
      UnseenAreGiven(Remember(seen, events[0].id), events[1..], e);
    }
  }

  /** What the patterns' windows hold between them. */
  lemma {:induction false} WindowsMeanPages(query: string -> Feed, patterns: seq<string>, e: Event)
    ensures e in Flatten(Windows(query, patterns)) <==> exists p :: p in patterns && Delivers(query(p), 20, e)
  {
    InFlatten(Windows(query, patterns), e);
    forall i | 0 <= i < |patterns|
      ensures e in Windows(query, patterns)[i] <==> Delivers(query(patterns[i]), 20, e)
    {
      WindowMeansPages(query(patterns[i]), 20);
    }
    if p :| p in patterns && Delivers(query(p), 20, e) {
      var i :| 0 <= i < |patterns| && patterns[i] == p;
      assert e in Windows(query, patterns)[i];
    }
  }

  /** Nothing comes back but what is on a page of a pattern asked for. */
  lemma {:induction false} NothingInvented(query: string -> Feed, patterns: seq<string>, limit: nat, e: Event)
    requires e in Merge(Tails(Windows(query, OrEverything(patterns)), limit), limit)
    ensures AnyDelivers(query, patterns, 20, e)
  {
    var windows := Windows(query, OrEverything(patterns));
    InMerge(Tails(windows, limit), limit, e);
    TailsHoldNoOthers(windows, limit, e);
    WindowsMeanPages(query, OrEverything(patterns), e);
    var p :| p in OrEverything(patterns) && Delivers(query(p), 20, e);
    AskedMeans(patterns, p);
  }

  method GetLogEventsSinceMulti(query: string -> Feed, patterns: seq<string>, limit: nat)
    returns (events: seq<Event>, failed: seq<bool>)
    ensures events == Merge(Tails(Windows(query, OrEverything(patterns)), limit), limit)
    ensures forall e :: e in events ==> AnyDelivers(query, patterns, 20, e)
    ensures patterns == [] ==> failed == [BreaksOff(query(""), 20)]
    ensures patterns != [] ==> |failed| == |patterns| && forall i :: 0 <= i < |patterns| ==> (failed[i] <==> BreaksOff(query(patterns[i]), 20))
  {
    var batches: seq<seq<Event>>;
    batches, failed := FetchEach(query, OrEverything(patterns), limit);
    events := MergeDedupeSort(batches, limit);
    forall e | e in events
      ensures AnyDelivers(query, patterns, 20, e)
    {
      NothingInvented(query, patterns, limit, e);
    }
    forall i | 0 <= i < |OrEverything(patterns)|
      ensures Failures(query, OrEverything(patterns))[i] <==> BreaksOff(query(OrEverything(patterns)[i]), 20)
    {
      WindowMeansPages(query(OrEverything(patterns)[i]), 20);
    }
  }

  /** The events on the pages of the patterns asked for have ids, and one id names one event. */
  ghost predicate Coherent(query: string -> Feed, patterns: seq<string>, max: nat) {
    && (forall e :: AnyDelivers(query, patterns, max, e) ==> e.id != "")
    && (forall e, f :: AnyDelivers(query, patterns, max, e) && AnyDelivers(query, patterns, max, f) && e.id == f.id ==> e == f)
  }

  /** A pattern that was asked for finds e on its pages. */
  ghost predicate AnyDelivers(query: string -> Feed, patterns: seq<string>, max: nat, e: Event) {
    exists p :: Asked(patterns, p) && Delivers(query(p), max, e)
  }

  lemma {:induction false} HeldAreMergeable(query: string -> Feed, patterns: seq<string>, max: nat, batches: seq<seq<Event>>)
    requires Coherent(query, patterns, max)
    requires forall e :: e in Flatten(batches) ==> AnyDelivers(query, patterns, max, e)
    ensures Mergeable(batches)
  {
    var all := Flatten(batches);
    forall i | 0 <= i < |all|
      ensures all[i].id != ""
    {
      assert all[i] in all;
    }
  }

  lemma {:induction false} CoherentIsMergeable(query: string -> Feed, patterns: seq<string>)
    requires Coherent(query, patterns, 20)
    ensures Mergeable(Windows(query, OrEverything(patterns)))
  {
    var batches := Windows(query, OrEverything(patterns));
    forall e | e in Flatten(batches)
      ensures AnyDelivers(query, patterns, 20, e)
    {
      WindowsMeanPages(query, OrEverything(patterns), e);
      var p :| p in OrEverything(patterns) && Delivers(query(p), 20, e);
      AskedMeans(patterns, p);
    }
    HeldAreMergeable(query, patterns, 20, batches);
  }

  lemma {:induction false} LowerBound(events: seq<Event>) returns (t: int)
    ensures forall i :: 0 <= i < |events| ==> events[i].ts >= t
  {
    t := 0;
    for i := 0 to |events|
      invariant forall j :: 0 <= j < i ==> events[j].ts >= t
    {
      if events[i].ts < t {
        t := events[i].ts;
      }
    }
  }

  /** A batch without repeats fits into the merge whole. */
  lemma {:induction false} MergeHoldsBatch(batches: seq<seq<Event>>, i: nat)
    requires Mergeable(batches) && i < |batches| && UniqueIds(batches[i])
    ensures |Merge(batches, 0)| >= |batches[i]|
  {
    var t := LowerBound(batches[i]);
    CountBounds(batches[i], t);
    CountIsCardinality(batches[i], t);
    PartOfFlatten(batches, i, t);
    MergedSet(batches, t);
    CountBounds(Merge(batches, 0), t);
  }

  lemma {:induction false} TailsAreMergeable(batches: seq<seq<Event>>, k: nat)
    requires Mergeable(batches)
    ensures Mergeable(Tails(batches, k))
  {
    var all, kept := Flatten(batches), Flatten(Tails(batches, k));
    forall e | e in kept
      ensures e in all
    {
      TailsHoldNoOthers(batches, k, e);
    }
    forall i | 0 <= i < |kept|
      ensures kept[i].id != ""
    {
      assert kept[i] in kept;
    }
  }

  /** When fewer than `limit` events come back, nothing of a batch without repeats was cut. */
  lemma {:induction false} ShortMergeIsWhole(batches: seq<seq<Event>>, limit: nat, i: nat, e: Event)
    requires Mergeable(batches) && i < |batches| && UniqueIds(batches[i]) && e in batches[i]
    requires |Merge(Tails(batches, limit), limit)| < limit
    ensures e in Merge(Tails(batches, limit), limit)
  {
    var tails := Tails(batches, limit);
    TailsAreMergeable(batches, limit);
    MergeHoldsBatch(tails, i);
    assert Merge(tails, limit) == Last(Merge(tails, 0), limit) == Merge(tails, 0);
    assert tails[i] == batches[i];
    InFlatten(tails, e);
    MergedMembers(tails, limit);
  }

  /** A result shorter than the limit has every event of the pages that were read. */
  lemma {:induction false} ShortResultIsComplete(query: string -> Feed, patterns: seq<string>, limit: nat, events: seq<Event>,
                                                p: string, n: nat, e: Event)
    requires events == Merge(Tails(Windows(query, OrEverything(patterns)), limit), limit) && |events| < limit
    requires Coherent(query, patterns, 20)
    requires Asked(patterns, p) && Reads(query(p), 20, n) && UniqueIds(PagesTo(query(p), n)) && Delivers(query(p), 20, e)
    ensures e in events
  {
    var windows := Windows(query, OrEverything(patterns));
    CoherentIsMergeable(query, patterns);
    AskedMeans(patterns, p);
    var i :| 0 <= i < |OrEverything(patterns)| && OrEverything(patterns)[i] == p;
    WindowJoinsPages(query(p), 20, n);
    WindowMeansPages(query(p), 20);
    ShortMergeIsWhole(windows, limit, i, e);
  }

  lemma {:induction false} SortKeepsUniqueIds(events: seq<Event>)
    requires UniqueIds(events)
    ensures UniqueIds(SortByTime(events))
  {
    if events != [] {
      SortKeepsUniqueIds(events[1..]);
      SortSorts(events[1..]);
      forall e | e in SortByTime(events[1..])
        ensures e.id != events[0].id
      {
        assert e in multiset(SortByTime(events[1..]));
        var i :| 0 <= i < |events[1..]| && events[1..][i] == e;
        assert events[i + 1] == e;
      }
      InsertKeepsUniqueIds(events[0], SortByTime(events[1..]));
    }
  }

  lemma {:induction false} InsertKeepsUniqueIds(e: Event, sorted: seq<Event>)
    requires UniqueIds(sorted) && forall f :: f in sorted ==> f.id != e.id
    ensures UniqueIds(InsertBy(Older, e, sorted))
  {
    if sorted != [] && e.ts > sorted[0].ts {
      InsertKeepsUniqueIds(e, sorted[1..]);
      InsertPermutes(Older, e, sorted[1..]);
      var r := InsertBy(Older, e, sorted[1..]);
      forall i | 0 <= i < |r|
        ensures r[i].id != sorted[0].id
      {
        assert r[i] in multiset(r);
        if r[i] != e {
          var j :| 0 <= j < |sorted[1..]| && sorted[1..][j] == r[i];
          assert sorted[j + 1] == r[i];
        }
      }
    }
  }

  /** All patterns' windows merged: what is on any of their pages, in time order, each event once. */
  lemma {:induction false} UnionInOrder(query: string -> Feed, patterns: seq<string>)
    requires Mergeable(Windows(query, patterns))
    ensures TimeSorted(Merge(Windows(query, patterns), 0)) && UniqueIds(Merge(Windows(query, patterns), 0))
    ensures forall e :: e in Merge(Windows(query, patterns), 0) <==> exists p :: p in patterns && Delivers(query(p), 20, e)
  {
    var windows := Windows(query, patterns);
    MergedSet(windows, 0);
    MergedMembers(windows, 0);
    SortKeepsUniqueIds(Unseen({}, Flatten(windows)));
    forall e
      ensures e in Flatten(windows) <==> exists p :: p in patterns && Delivers(query(p), 20, e)
    {
      WindowsMeanPages(query, patterns, e);
    }
  }

  /** A poll shows the newest `limit` of these, as if nothing had been trimmed on the way. */
  lemma {:induction false} MultiFetchIsTailOfAll(query: string -> Feed, patterns: seq<string>, limit: nat)
    requires limit > 0
    requires GoodBatches(Windows(query, patterns)) && KeepsTiesWhole(Windows(query, patterns), limit)
    ensures Merge(Tails(Windows(query, patterns), limit), limit) == Last(Merge(Windows(query, patterns), 0), limit)
  {
    TailOfMergeWhole(Windows(query, patterns), limit);
  }

  /** One good pattern needs no merging: its window comes back as it is. */
  lemma {:induction false} MergeOfOne(batch: seq<Event>, limit: nat)
    requires GoodBatch(batch) && limit > 0
    ensures Merge([Last(batch, limit)], limit) == Last(batch, limit)
  {
    var tail := Last(batch, limit);
    assert Flatten([tail]) == tail + Flatten([]) == tail;
    NothingSeenTwice({}, tail);
    SortOfSorted(tail);
  }

  lemma {:induction false} NothingSeenTwice(seen: set<string>, events: seq<Event>)
    requires UniqueIds(events) && forall e :: e in events ==> e.id !in seen
    ensures Unseen(seen, events) == events
    decreases events
  {
    if events != [] {
      assert forall i :: 0 <= i < |events[1..]| ==> events[1..][i] == events[i + 1];
      NothingSeenTwice(Remember(seen, events[0].id), events[1..]);
    }
  }

  lemma {:induction false} SortOfSorted(events: seq<Event>)
    requires TimeSorted(events)
    ensures SortByTime(events) == events
  {
    if events != [] {
      SortOfSorted(events[1..]);
    }
  }

  // ---- download --------------------------------------------------------------------

  /** The pages before page n are served, name a next one, and stay below the cap. */
  ghost predicate Below(feed: Feed, n: nat) {
    Served(feed, n) && |PagesTo(feed, n)| < 50000
  }

  /** A download fails: a page it comes to does, or the deadline is over. */
  ghost predicate Fails(feed: Feed, deadline: nat) {
    exists k :: 0 <= k <= deadline && Below(feed, k) && (k == deadline || feed(k).PageFailed?)
  }

  /** A download is cut: a page reaches the cap with events to spare or pages to come. */
  ghost predicate IsCut(feed: Feed, deadline: nat) {
    exists k :: 0 <= k < deadline && CutsOn(feed, k)
  }

  ghost predicate CutsOn(feed: Feed, k: nat) {
    && Below(feed, k) && feed(k).Page?
    && (|PagesTo(feed, k + 1)| > 50000 || (|PagesTo(feed, k + 1)| == 50000 && feed(k).more))
  }

  /** The pages of one pattern, collected until the feed ends, the cap is reached or the deadline makes requests fail. */
  function Collect(feed: Feed, p: nat, deadline: nat, got: seq<Event>): Download
    decreases deadline - p
  {
    if p >= deadline || feed(p).PageFailed? then DownloadFailed
    else
      var all := got + feed(p).events;
      if |all| >= DOWNLOAD_MAX_EVENTS then
        Downloaded(all[..DOWNLOAD_MAX_EVENTS], |all| > DOWNLOAD_MAX_EVENTS || feed(p).more)
      else if feed(p).more then Collect(feed, p + 1, deadline, all)
      else Downloaded(all, false)
  }

  method DownloadPattern(feed: Feed, deadline: nat) returns (r: Download)
    ensures r == Collect(feed, 0, deadline, [])
  {
    var events: seq<Event> := [];
    var page := 0;
    while page < deadline
      invariant Collect(feed, 0, deadline, []) == Collect(feed, page, deadline, events)
    {
      var resp := feed(page);
      if resp.PageFailed? {
        return DownloadFailed;
      }
      events := events + resp.events;
      if |events| >= DOWNLOAD_MAX_EVENTS {
        return Downloaded(events[..DOWNLOAD_MAX_EVENTS], |events| > DOWNLOAD_MAX_EVENTS || resp.more);
      }
      if !resp.more {
        return Downloaded(events, false);
      }
      page := page + 1;
    }
    return DownloadFailed;
  }

  /** What one pattern's download says about the whole window, known or not. */
  lemma {:induction false} CollectMeans(feed: Feed, p: nat, deadline: nat, got: seq<Event>)
    requires p <= deadline && |got| < DOWNLOAD_MAX_EVENTS
    ensures var r, w := Collect(feed, p, deadline, got), Window(feed, p, deadline - p, FetchFailed).Prepend(got);
            && (w.Fetched? && |w.events| < DOWNLOAD_MAX_EVENTS ==> r == Downloaded(w.events, false))
            && (w.Fetched? && |w.events| >= DOWNLOAD_MAX_EVENTS ==> r.Downloaded? && r.events == w.events[..DOWNLOAD_MAX_EVENTS])
            && (w.Fetched? && |w.events| > DOWNLOAD_MAX_EVENTS ==> r.truncated)
            && (w.FetchFailed? && r.Downloaded? ==> r.truncated)
            && (r.Downloaded? ==> |r.events| <= DOWNLOAD_MAX_EVENTS)
            && (r.Downloaded? && !r.truncated ==> w == Fetched(r.events))
    decreases deadline - p
  {
    if p < deadline && feed(p).Page? {
      var all := got + feed(p).events;
      if feed(p).more {
        if |all| < DOWNLOAD_MAX_EVENTS {
          CollectMeans(feed, p + 1, deadline, all);
        } else {
          var rest := Window(feed, p + 1, deadline - p - 1, FetchFailed);
          if rest.Fetched? {
            assert (all + rest.events)[..DOWNLOAD_MAX_EVENTS] == all[..DOWNLOAD_MAX_EVENTS];
          }
        }
      }
    }
  }

  /** What one pattern's download brought, nothing when it failed. */
  function Brought(d: Download): seq<Event> {
    if d.Downloaded? then d.events else []
  }

  lemma {:induction false} PagesGrow(feed: Feed, m: nat, n: nat)
    requires m <= n
    ensures |PagesTo(feed, m)| <= |PagesTo(feed, n)|
  {
    if m < n {
      PagesGrow(feed, m, n - 1);
    }
  }

  lemma {:induction false} CollectOn(feed: Feed, n: nat, deadline: nat)
    requires n <= deadline && Below(feed, n)
    ensures Collect(feed, 0, deadline, []) == Collect(feed, n, deadline, PagesTo(feed, n))
  {
    if n > 0 {
      PagesGrow(feed, n - 1, n);
      CollectOn(feed, n - 1, deadline);
    }
  }

  /** A download stops on page n: there is no time for it, it fails, it reaches the cap, or it is the last. */
  ghost predicate StopsOn(feed: Feed, deadline: nat, n: nat) {
    && n <= deadline && Below(feed, n)
    && (n == deadline || feed(n).PageFailed? || |PagesTo(feed, n + 1)| >= 50000 || !feed(n).more)
  }

  lemma {:induction false} DownloadStops(feed: Feed, deadline: nat, from: nat) returns (n: nat)
    requires from <= deadline && Below(feed, from)
    ensures StopsOn(feed, deadline, n)
    decreases deadline - from
  {
    n := from;
    if !StopsOn(feed, deadline, from) {
      n := DownloadStops(feed, deadline, from + 1);
    }
  }

  lemma {:induction false} NoneBelowBehind(feed: Feed, deadline: nat, n: nat, k: nat)
    requires StopsOn(feed, deadline, n) && k <= deadline && Below(feed, k)
    ensures k <= n
  {
    if k > n {
      PagesGrow(feed, n + 1, k);
    }
  }

  lemma {:induction false} BeforeTheStop(feed: Feed, deadline: nat, n: nat, k: nat)
    requires StopsOn(feed, deadline, n) && k <= deadline && Below(feed, k)
    ensures k <= n && (k < n ==> feed(k).Page? && feed(k).more && |PagesTo(feed, k + 1)| < 50000)
  {
    NoneBelowBehind(feed, deadline, n, k);
    if k < n {
      PagesGrow(feed, k + 1, n);
    }
  }

  lemma {:induction false} FailsIff(feed: Feed, deadline: nat, n: nat)
    requires StopsOn(feed, deadline, n)
    ensures Fails(feed, deadline) <==> n == deadline || feed(n).PageFailed?
  {
    if k :| 0 <= k <= deadline && Below(feed, k) && (k == deadline || feed(k).PageFailed?) {
      BeforeTheStop(feed, deadline, n, k);
    }
  }

  lemma {:induction false} CutIff(feed: Feed, deadline: nat, n: nat)
    requires StopsOn(feed, deadline, n)
    ensures IsCut(feed, deadline) <==> n < deadline && CutsOn(feed, n)
  {
    if k :| 0 <= k < deadline && CutsOn(feed, k) {
      BeforeTheStop(feed, deadline, n, k);
    }
  }

  lemma {:induction false} CollectAt(feed: Feed, deadline: nat, n: nat)
    requires StopsOn(feed, deadline, n)
    ensures var all := PagesTo(feed, n + 1);
            Collect(feed, 0, deadline, []) ==
            if n == deadline || feed(n).PageFailed? then DownloadFailed
            else if |all| >= 50000 then Downloaded(all[..50000], |all| > 50000 || feed(n).more)
            else Downloaded(all, false)
  {
    CollectOn(feed, n, deadline);
    if n < deadline && feed(n).Page? {
      assert PagesTo(feed, n + 1) == PagesTo(feed, n) + feed(n).events;
    }
  }

  lemma {:induction false} PagesAreReached(feed: Feed, max: nat, n: nat, e: Event)
    requires 0 < n <= max && Served(feed, n - 1) && e in PagesTo(feed, n)
    ensures exists k :: OnPage(feed, max, k, e)
  {
    InPages(feed, n, e);
    var k :| 0 <= k < n && e in EventsOf(feed(k));
    assert OnPage(feed, max, k, e);
  }

  /** One pattern's download, told by its pages: when it fails and when it is cut. */
  lemma {:induction false} CollectMeansPages(feed: Feed, deadline: nat)
    ensures var r := Collect(feed, 0, deadline, []);
            (r.DownloadFailed? <==> Fails(feed, deadline)) && (r.Downloaded? ==> (r.truncated <==> IsCut(feed, deadline)))
  {
    var n := DownloadStops(feed, deadline, 0);
    CollectAt(feed, deadline, n);
    FailsIff(feed, deadline, n);
    CutIff(feed, deadline, n);
  }

  /** And what it holds: nothing but what is on its pages, and all of that unless it says otherwise. */
  lemma {:induction false} CollectHoldsPages(feed: Feed, deadline: nat)
    ensures forall e :: e in Brought(Collect(feed, 0, deadline, [])) ==> exists k :: OnPage(feed, deadline, k, e)
    ensures var r := Collect(feed, 0, deadline, []);
            r.Downloaded? && !r.truncated ==> Ends(feed, deadline) && forall e :: e in r.events <==> Delivers(feed, deadline, e)
  {
    var r := Collect(feed, 0, deadline, []);
    var n := DownloadStops(feed, deadline, 0);
    CollectAt(feed, deadline, n);
    if r.Downloaded? {
      HeldIsFront(feed, deadline, n);
      forall e | e in r.events
        ensures exists k :: OnPage(feed, deadline, k, e)
      {
        PagesAreReached(feed, deadline, n + 1, e);
      }
      if !r.truncated {
        WholeAt(feed, deadline, n);
      }
    }
  }

  lemma {:induction false} HeldIsFront(feed: Feed, deadline: nat, n: nat)
    requires StopsOn(feed, deadline, n) && Collect(feed, 0, deadline, []).Downloaded?
    ensures n < deadline && feed(n).Page?
    ensures var r := Collect(feed, 0, deadline, []);
            && (forall e :: e in r.events ==> e in PagesTo(feed, n + 1))
            && (!r.truncated ==> r.events == PagesTo(feed, n + 1) && !feed(n).more)
  {
    CollectAt(feed, deadline, n);
  }

  lemma {:induction false} WholeAt(feed: Feed, max: nat, n: nat)
    requires n < max && Served(feed, n) && feed(n).Page? && !feed(n).more
    ensures Ends(feed, max) && forall e :: e in PagesTo(feed, n + 1) <==> Delivers(feed, max, e)
  {
    BreaksOffAt(feed, max, n);
    forall e
      ensures e in PagesTo(feed, n + 1) <==> Delivers(feed, max, e)
    {
      OnPageIff(feed, max, n, e);
    }
  }

  function WholeWindow(query: string -> Feed, pattern: string, deadline: nat): Fetch {
    Window(query(pattern), 0, deadline, FetchFailed)
  }

  function WholeWindows(query: string -> Feed, patterns: seq<string>, deadline: nat): (r: seq<seq<Event>>)
    ensures |r| == |patterns|
  {
    seq(|patterns|, i requires 0 <= i < |patterns| => Shown(WholeWindow(query, patterns[i], deadline)))
  }

  function OneDownload(query: string -> Feed, pattern: string, deadline: nat): Download {
    Collect(query(pattern), 0, deadline, [])
  }

  function Downloads(query: string -> Feed, patterns: seq<string>, deadline: nat): (r: seq<seq<Event>>)
    ensures |r| == |patterns|
  {
    seq(|patterns|, i requires 0 <= i < |patterns| => Brought(OneDownload(query, patterns[i], deadline)))
  }

  predicate AnyCut(query: string -> Feed, patterns: seq<string>, deadline: nat) {
    exists p :: p in patterns && OneDownload(query, p, deadline).Downloaded? && OneDownload(query, p, deadline).truncated
  }

  predicate AnyFailed(query: string -> Feed, patterns: seq<string>, deadline: nat) {
    exists p :: p in patterns && OneDownload(query, p, deadline).DownloadFailed?
  }

  lemma {:induction false} OneMorePattern(query: string -> Feed, done: seq<string>, p: string, deadline: nat)
    ensures var d := OneDownload(query, p, deadline);
            && (AnyCut(query, done + [p], deadline) <==> AnyCut(query, done, deadline) || (d.Downloaded? && d.truncated))
            && (AnyFailed(query, done + [p], deadline) <==> AnyFailed(query, done, deadline) || d.DownloadFailed?)
            && Downloads(query, done + [p], deadline) == Downloads(query, done, deadline) + [Brought(d)]
  {
    assert forall q :: q in done + [p] <==> q in done || q == p;
  }

  /** What one goroutine writes to its slots. */
  method DownloadSlot(query: string -> Feed, pattern: string, deadline: nat) returns (batch: seq<Event>, cut: bool, bad: bool)
    ensures batch == Brought(OneDownload(query, pattern, deadline))
    ensures cut <==> OneDownload(query, pattern, deadline).Downloaded? && OneDownload(query, pattern, deadline).truncated
    ensures bad <==> OneDownload(query, pattern, deadline).DownloadFailed?
  {
    var one := DownloadPattern(query(pattern), deadline);
    match one
    case DownloadFailed => return [], false, true;
    case Downloaded(events, truncated) => return events, truncated, false;
  }

  /** One download per pattern; the order the goroutines finish in does not show, each writes its own slot. */
  method DownloadEach(query: string -> Feed, patterns: seq<string>, deadline: nat)
    returns (batches: seq<seq<Event>>, truncated: bool, failed: bool)
    ensures batches == Downloads(query, patterns, deadline)
    ensures truncated <==> AnyCut(query, patterns, deadline)
    ensures failed <==> AnyFailed(query, patterns, deadline)
  {
    batches, truncated, failed := [], false, false;
    ghost var done: seq<string> := [];
    for i := 0 to |patterns|
      invariant done == patterns[..i]
      invariant batches == Downloads(query, done, deadline)
      invariant truncated <==> AnyCut(query, done, deadline)
      invariant failed <==> AnyFailed(query, done, deadline)
    {
      var batch, cut, bad := DownloadSlot(query, patterns[i], deadline);
      OneMorePattern(query, done, patterns[i], deadline);
      batches := batches + [batch];
      truncated := truncated || cut;
      failed := failed || bad;
      done := done + [patterns[i]];
    }
    assert done == patterns;
  }

  /** What a download of several patterns is to bring back. */
  ghost predicate IsDownload(query: string -> Feed, patterns: seq<string>, deadline: nat, r: Download) {
    var merged := Merge(Downloads(query, OrEverything(patterns), deadline), 0);
    && (r.DownloadFailed? <==> AnyFailed(query, OrEverything(patterns), deadline))
    && (r.Downloaded? ==>
          && r.events == Last(merged, DOWNLOAD_MAX_EVENTS)
          && (r.truncated <==> |merged| > DOWNLOAD_MAX_EVENTS || AnyCut(query, OrEverything(patterns), deadline)))
  }

  ghost predicate SomeFails(query: string -> Feed, patterns: seq<string>, deadline: nat) {
    exists p :: Asked(patterns, p) && Fails(query(p), deadline)
  }

  ghost predicate SomeIsCut(query: string -> Feed, patterns: seq<string>, deadline: nat) {
    exists p :: Asked(patterns, p) && IsCut(query(p), deadline)
  }

  lemma {:induction false} DownloadsMeanPages(query: string -> Feed, patterns: seq<string>, deadline: nat)
    ensures AnyFailed(query, OrEverything(patterns), deadline) <==> SomeFails(query, patterns, deadline)
    ensures !AnyFailed(query, OrEverything(patterns), deadline) ==>
              (AnyCut(query, OrEverything(patterns), deadline) <==> SomeIsCut(query, patterns, deadline))
  {
    forall p
      ensures p in OrEverything(patterns) <==> Asked(patterns, p)
      ensures OneDownload(query, p, deadline).DownloadFailed? <==> Fails(query(p), deadline)
      ensures OneDownload(query, p, deadline).Downloaded? ==>
                (OneDownload(query, p, deadline).truncated <==> IsCut(query(p), deadline))
    {
      AskedMeans(patterns, p);
      CollectMeansPages(query(p), deadline);
    }
  }

  /** Some page of a pattern asked for, of those a download comes to, holds e. */
  ghost predicate OnSomePage(query: string -> Feed, patterns: seq<string>, deadline: nat, e: Event) {
    exists p, k :: Asked(patterns, p) && OnPage(query(p), deadline, k, e)
  }

  lemma {:induction false} DownloadsHold(query: string -> Feed, patterns: seq<string>, deadline: nat, e: Event)
    requires e in Flatten(Downloads(query, OrEverything(patterns), deadline))
    ensures OnSomePage(query, patterns, deadline, e)
  {
    var asked := OrEverything(patterns);
    InFlatten(Downloads(query, asked, deadline), e);
    var i :| 0 <= i < |asked| && e in Downloads(query, asked, deadline)[i];
    AskedMeans(patterns, asked[i]);
    CollectHoldsPages(query(asked[i]), deadline);
    var k :| OnPage(query(asked[i]), deadline, k, e);
    assert Asked(patterns, asked[i]) && OnPage(query(asked[i]), deadline, k, e);
  }

  /** Failed if any pattern failed; flagged if any pattern was cut or the merge had to be. */
  method DownloadLogEvents(query: string -> Feed, patterns: seq<string>, deadline: nat) returns (r: Download)
    ensures IsDownload(query, patterns, deadline, r)
    ensures r.DownloadFailed? <==> SomeFails(query, patterns, deadline)
    ensures r.Downloaded? ==> forall e :: e in r.events ==> OnSomePage(query, patterns, deadline, e)
    ensures r.Downloaded? && SomeIsCut(query, patterns, deadline) ==> r.truncated
    ensures r.Downloaded? && r.truncated ==> SomeIsCut(query, patterns, deadline) || |r.events| == 50000
    ensures r.Downloaded? && !r.truncated ==>
            && (forall p :: p in OrEverything(patterns) ==> WholeWindow(query, p, deadline).Fetched?)
            && r.events == Merge(WholeWindows(query, OrEverything(patterns), deadline), 0)
  {
    var asked := OrEverything(patterns);
    var batches, truncated, failed := DownloadEach(query, asked, deadline);
    DownloadsMeanPages(query, patterns, deadline);
    if failed {
      return DownloadFailed;
    }
    var merged := MergeDedupeSort(batches, 0);
    if !truncated {
      UncutIsWhole(query, asked, deadline);
    }
    forall e | e in merged
      ensures OnSomePage(query, patterns, deadline, e)
    {
      InMerge(batches, 0, e);
      DownloadsHold(query, patterns, deadline, e);
    }
    if |merged| > DOWNLOAD_MAX_EVENTS {
      merged := merged[|merged| - DOWNLOAD_MAX_EVENTS..];
      truncated := true;
    }
    return Downloaded(merged, truncated);
  }

  lemma {:induction false} UncutIsWhole(query: string -> Feed, patterns: seq<string>, deadline: nat)
    requires !AnyCut(query, patterns, deadline) && !AnyFailed(query, patterns, deadline)
    ensures forall p :: p in patterns ==> WholeWindow(query, p, deadline).Fetched?
    ensures Downloads(query, patterns, deadline) == WholeWindows(query, patterns, deadline)
  {
    forall j | 0 <= j < |patterns|
      ensures OneDownload(query, patterns[j], deadline).Downloaded?
      ensures WholeWindow(query, patterns[j], deadline) == Fetched(OneDownload(query, patterns[j], deadline).events)
    {
      assert patterns[j] in patterns;
      CollectMeans(query(patterns[j]), 0, deadline, []);
      assert WholeWindow(query, patterns[j], deadline).Prepend([]) == WholeWindow(query, patterns[j], deadline);
    }
  }

  lemma {:induction false} UncutHoldsPages(query: string -> Feed, patterns: seq<string>, deadline: nat, e: Event)
    requires !AnyCut(query, OrEverything(patterns), deadline) && !AnyFailed(query, OrEverything(patterns), deadline)
    ensures e in Flatten(Downloads(query, OrEverything(patterns), deadline)) <==> AnyDelivers(query, patterns, deadline, e)
  {
    var asked := OrEverything(patterns);
    InFlatten(Downloads(query, asked, deadline), e);
    forall i | 0 <= i < |asked|
      ensures e in Downloads(query, asked, deadline)[i] <==> Delivers(query(asked[i]), deadline, e)
    {
      assert asked[i] in asked;
      CollectHoldsPages(query(asked[i]), deadline);
    }
    forall p
      ensures p in asked <==> Asked(patterns, p)
    {
      AskedMeans(patterns, p);
    }
    if p :| p in asked && Delivers(query(p), deadline, e) {
      var i :| 0 <= i < |asked| && asked[i] == p;
      assert e in Downloads(query, asked, deadline)[i];
    }
  }

  /**
    A file written without the truncation note comes from feeds read to their
    last page, and holds each event of their pages once, oldest first, and
    nothing else.
  */
  lemma {:induction false} UntruncatedDownloadIsComplete(query: string -> Feed, patterns: seq<string>, deadline: nat, r: Download)
    requires IsDownload(query, patterns, deadline, r) && r.Downloaded? && !r.truncated
    requires Coherent(query, patterns, deadline)
    ensures forall p :: Asked(patterns, p) ==> Ends(query(p), deadline)
    ensures TimeSorted(r.events) && UniqueIds(r.events)
    ensures forall e :: e in r.events <==> AnyDelivers(query, patterns, deadline, e)
  {
    var batches := Downloads(query, OrEverything(patterns), deadline);
    forall e
      ensures e in Flatten(batches) <==> AnyDelivers(query, patterns, deadline, e)
    {
      UncutHoldsPages(query, patterns, deadline, e);
    }
    forall p | Asked(patterns, p)
      ensures Ends(query(p), deadline)
    {
      AskedMeans(patterns, p);
      CollectHoldsPages(query(p), deadline);
    }
    HeldAreMergeable(query, patterns, deadline, batches);
    assert r.events == Merge(batches, 0);
    MergedSet(batches, 0);
    MergedMembers(batches, 0);
    SortKeepsUniqueIds(Unseen({}, Flatten(batches)));
  }
}
