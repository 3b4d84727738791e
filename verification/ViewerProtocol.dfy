/**
  Streaming into the log viewer: polls overlap, several replies can be in
  flight, and replies arrive in any order. The log only grows, in time order;
  a reply carries what the pages read held when the server answered.
*/
module ViewerProtocol {
  import opened Sequences
  import opened LogMerge
  import opened LogFetch
  import opened LogViewer
  import opened MergeTails

  /** One outstanding poll. `early` records that nothing was shown when it was issued. */
  datatype Poll =
    | Waiting(since: int, early: bool)
    | Answered(since: int, early: bool, reply: seq<Event>)

  datatype State = State(log: seq<Event>, now: int, lookback: int, view: View, polls: seq<Poll>)

  /** An answer comes from pages that held the first `held` of the matches: all of them, unless the pages ran out. */
  datatype Step =
    | Publish(e: Event)
    | Pass(ms: nat)
    | Issue
    | Answer(i: nat, held: nat)
    | Fail(i: nat)
    | Deliver(i: nat)

  ghost predicate GoodLog(log: seq<Event>) {
    && Identified(log) && UniqueIds(log) && TimeSorted(log)
    && forall i :: 0 <= i < |log| ==> log[i].ts > 0
  }

  function Matching(log: seq<Event>, since: int): seq<Event> {
    if log == [] then []
    else if log[0].ts >= since then [log[0]] + Matching(log[1..], since)
    else Matching(log[1..], since)
  }

  /** The answer to a poll whose pages held so many of the matches: the newest of these. */
  ghost function AnswerTo(log: seq<Event>, poll: Poll, held: nat): Poll
    requires held <= |Matching(log, poll.since)|
  {
    Answered(poll.since, poll.early, Last(Matching(log, poll.since)[..held], VIEWER_BACKFILL_LIMIT))
  }

  function Without<T>(s: seq<T>, i: nat): seq<T>
    requires i < |s|
  {
    s[..i] + s[i + 1..]
  }

  ghost predicate Enabled(s: State, step: Step) {
    match step
    case Publish(e) => GoodLog(s.log + [e])
    case Pass(_) => true
    case Issue => true
    case Answer(i, held) => i < |s.polls| && s.polls[i].Waiting? && held <= |Matching(s.log, s.polls[i].since)|
    case Fail(i) => i < |s.polls| && s.polls[i].Waiting?
    case Deliver(i) => i < |s.polls| && s.polls[i].Answered?
  }

  ghost function Next(s: State, step: Step): State
    requires Enabled(s, step)
  {
    match step
    case Publish(e) => s.(log := s.log + [e])
    case Pass(ms) => s.(now := s.now + ms)
    case Issue =>
      s.(polls := s.polls + [Waiting(PollSince(s.view, s.now, s.lookback), s.view.lastTS == 0)])
    case Answer(i, held) =>
      s.(polls := s.polls[i := AnswerTo(s.log, s.polls[i], held)])
    case Fail(i) =>
      s.(polls := s.polls[i := Answered(s.polls[i].since, s.polls[i].early, [])])
    case Deliver(i) =>
      s.(polls := Without(s.polls, i), view := Absorb(s.view, s.polls[i].reply))
  }

  // ---- what the viewer should show -----------------------------------------------

  ghost function Ids(events: seq<Event>): set<string> {
    set e | e in events :: e.id
  }

  /** The view of a viewer that was given exactly these consecutive log events. */
  ghost function ViewOf(run: seq<Event>): View {
    View(Last(run, VIEWER_MAX_EVENTS), Ids(run), if run == [] then 0 else run[|run| - 1].ts)
  }

  ghost predicate Shows(s: State, lo: nat, hi: nat) {
    lo <= hi <= |s.log| && s.view == ViewOf(s.log[lo..hi])
  }

  /** The first event of a reply is already on screen: the reply overlaps what is shown. */
  ghost predicate Joins(v: View, reply: seq<Event>) {
    v.events == [] || reply == [] || reply[0].id in v.seen
  }

  // ---- matching is a suffix ---------------------------------------------------------

  function Start(log: seq<Event>, since: int): (n: nat)
    ensures n <= |log|
  {
    if log == [] || log[0].ts >= since then 0 else 1 + Start(log[1..], since)
  }

  lemma MatchingAll(log: seq<Event>, since: int)
    requires forall i :: 0 <= i < |log| ==> log[i].ts >= since
    ensures Matching(log, since) == log
  {
  }

  lemma {:induction false} MatchingIsSuffix(log: seq<Event>, since: int)
    requires TimeSorted(log)
    ensures Matching(log, since) == log[Start(log, since)..]
    ensures forall i :: 0 <= i < |log| ==> (log[i].ts >= since <==> Start(log, since) <= i)
  {
    if log != [] {
      if log[0].ts >= since {
        MatchingAll(log, since);
      } else {
        MatchingIsSuffix(log[1..], since);
        forall i | 0 < i < |log|
          ensures log[i].ts >= since <==> Start(log, since) <= i
        {
          assert log[i] == log[1..][i - 1];
        }
      }
    }
  }

  lemma {:induction false} LastOfSegment(log: seq<Event>, lo: nat, hi: nat, k: nat)
    requires lo <= hi <= |log|
    ensures var from := if hi - lo <= k then lo else hi - k;
            Last(log[lo..hi], k) == log[from..hi]
  {
    if hi - lo > k {
      assert log[lo..hi][hi - lo - k..] == log[hi - k..hi];
    }
  }

  /** Pages that hold so many of the matches hold this stretch of the log. */
  lemma {:induction false} HeldIsSegment(log: seq<Event>, since: int, held: nat)
    requires TimeSorted(log) && held <= |Matching(log, since)|
    ensures Start(log, since) + held <= |log|
    ensures Matching(log, since)[..held] == log[Start(log, since)..Start(log, since) + held]
  {
    MatchingIsSuffix(log, since);
    var a := Start(log, since);
    assert log[a..][..held] == log[a..a + held];
  }

  /** The answer is what fetching a single pattern returns when the n pages read hold the first `held` matches. */
  lemma {:induction false} AnswerIsFetched(log: seq<Event>, poll: Poll, held: nat, query: string -> Feed, pattern: string, n: nat)
    requires GoodLog(log) && held <= |Matching(log, poll.since)|
    requires Reads(query(pattern), 20, n) && PagesTo(query(pattern), n) == Matching(log, poll.since)[..held]
    ensures Merge(Tails(Windows(query, [pattern]), 2000), 2000) == AnswerTo(log, poll, held).reply
  {
    var found, a := Matching(log, poll.since)[..held], Start(log, poll.since);
    WindowJoinsPages(query(pattern), 20, n);
    HeldIsSegment(log, poll.since, held);
    GoodSegment(log, a, a + held);
    assert Tails(Windows(query, [pattern]), VIEWER_BACKFILL_LIMIT) == [Last(found, VIEWER_BACKFILL_LIMIT)];
    MergeOfOne(found, VIEWER_BACKFILL_LIMIT);
  }

  // ---- one delivery -------------------------------------------------------------------

  lemma {:induction false} AllSeen(seen: set<string>, events: seq<Event>)
    requires forall e :: e in events ==> e.id != "" && e.id in seen
    ensures Unseen(seen, events) == [] && SeenAfter(seen, events) == seen
    decreases events
  {
    if events != [] {
      assert Remember(seen, events[0].id) == seen;
      AllSeen(seen, events[1..]);
    }
  }

  lemma {:induction false} SeenAfterIds(seen: set<string>, events: seq<Event>)
    requires Identified(events)
    ensures SeenAfter(seen, events) == seen + Ids(events)
  {
    SeenAfterMembers(seen, events);
  }

  lemma {:induction false} NewestOfSorted(t: int, events: seq<Event>)
    requires TimeSorted(events)
    requires forall i :: 0 <= i < |events| ==> events[i].ts >= t
    ensures NewestTime(t, events) == if events == [] then t else events[|events| - 1].ts
    decreases events
  {
    if events != [] {
      NewestOfSorted(events[0].ts, events[1..]);
    }
  }

  lemma {:induction false} InRange(log: seq<Event>, lo: nat, hi: nat, i: nat)
    requires UniqueIds(log) && lo <= hi <= |log| && i < |log|
    ensures log[i].id in Ids(log[lo..hi]) <==> lo <= i < hi
  {
    if log[i].id in Ids(log[lo..hi]) {
      var e :| e in log[lo..hi] && e.id == log[i].id;
      var j :| 0 <= j < hi - lo && log[lo..hi][j] == e;
      assert log[lo + j] == e;
    }
    if lo <= i < hi {
      assert log[lo..hi][i - lo] == log[i];
    }
  }

  lemma {:induction false} SegmentSeen(log: seq<Event>, lo: nat, hi: nat, a: nat, mid: nat)
    requires GoodLog(log) && lo <= a <= mid <= hi <= |log|
    ensures forall e :: e in log[a..mid] ==> e.id != "" && e.id in Ids(log[lo..hi])
  {
    forall e | e in log[a..mid]
      ensures e.id != "" && e.id in Ids(log[lo..hi])
    {
      var j :| 0 <= j < mid - a && log[a..mid][j] == e;
      InRange(log, lo, hi, a + j);
    }
  }

  lemma {:induction false} SegmentUnseen(log: seq<Event>, lo: nat, hi: nat, a: nat, b: nat)
    requires GoodLog(log) && lo <= hi <= |log| && a <= b <= |log| && (a < b ==> hi <= a)
    ensures forall e :: e in log[a..b] ==> e.id !in Ids(log[lo..hi])
  {
    forall e | e in log[a..b]
      ensures e.id !in Ids(log[lo..hi])
    {
      var j :| 0 <= j < b - a && log[a..b][j] == e;
      InRange(log, lo, hi, a + j);
    }
  }

  lemma {:induction false} GoodSegment(log: seq<Event>, a: nat, b: nat)
    requires GoodLog(log) && a <= b <= |log|
    ensures GoodLog(log[a..b])
  {
    forall i, j | 0 <= i < j < b - a
      ensures log[a..b][i].id != log[a..b][j].id && log[a..b][i].ts <= log[a..b][j].ts
    {
      assert log[a..b][i] == log[a + i] && log[a..b][j] == log[a + j];
    }
  }

  lemma {:induction false} UnseenOfOverlap(log: seq<Event>, lo: nat, hi: nat, a: nat, b: nat, mid: nat)
    requires GoodLog(log) && lo <= a <= hi <= |log| && a <= mid <= b <= |log|
    requires mid == if b > hi then hi else b
    ensures Unseen(Ids(log[lo..hi]), log[a..b]) == log[mid..b]
    ensures SeenAfter(Ids(log[lo..hi]), log[a..b]) == Ids(log[lo..hi]) + Ids(log[mid..b])
  {
    var seen, known, added := Ids(log[lo..hi]), log[a..mid], log[mid..b];
    assert log[a..b] == known + added;
    SegmentSeen(log, lo, hi, a, mid);
    AllSeen(seen, known);
    SegmentUnseen(log, lo, hi, mid, b);
    GoodSegment(log, mid, b);
    NothingSeenTwice(seen, added);
    UnseenConcat(seen, known, added);
    SeenAfterIds(seen, added);
  }

  /** A reply that starts inside or right after the shown run extends it to the reply's end. */
  lemma {:induction false} DeliverInside(log: seq<Event>, lo: nat, hi: nat, a: nat, b: nat)
    requires GoodLog(log) && lo <= a <= hi <= |log| && a < b <= |log|
    ensures Absorb(ViewOf(log[lo..hi]), log[a..b]) == ViewOf(log[lo..if b > hi then b else hi])
  {
    var v, mid := ViewOf(log[lo..hi]), if b > hi then hi else b;
    var added := log[mid..b];
    UnseenOfOverlap(log, lo, hi, a, b, mid);
    if b > hi {
      ExtendRun(log, lo, hi, b);
    } else {
      assert v.events + added == v.events;
      assert v.seen + Ids(added) == v.seen;
    }
  }

  lemma {:induction false} IdsConcat(a: seq<Event>, b: seq<Event>)
    ensures Ids(a + b) == Ids(a) + Ids(b)
  {
    forall id
      ensures id in Ids(a + b) <==> id in Ids(a) + Ids(b)
    {
      if id in Ids(a) {
        var e :| e in a && e.id == id;
        assert e in a + b;
      }
      if id in Ids(b) {
        var e :| e in b && e.id == id;
        assert e in a + b;
      }
    }
  }

  lemma {:induction false} NewestOfNext(log: seq<Event>, lo: nat, hi: nat, b: nat)
    requires GoodLog(log) && lo <= hi < b <= |log|
    ensures NewestTime(ViewOf(log[lo..hi]).lastTS, log[hi..b]) == log[b - 1].ts
  {
    var t, added := ViewOf(log[lo..hi]).lastTS, log[hi..b];
    GoodSegment(log, hi, b);
    assert t == if lo == hi then 0 else log[hi - 1].ts;
    assert forall i :: 0 <= i < |added| ==> added[i] == log[hi + i];
    NewestOfSorted(t, added);
  }

  lemma {:induction false} ExtendRun(log: seq<Event>, lo: nat, hi: nat, b: nat)
    requires GoodLog(log) && lo <= hi < b <= |log|
    ensures var v, added := ViewOf(log[lo..hi]), log[hi..b];
            View(Last(v.events + added, VIEWER_MAX_EVENTS), v.seen + Ids(added), NewestTime(v.lastTS, added))
            == ViewOf(log[lo..b])
  {
    assert log[lo..b] == log[lo..hi] + log[hi..b];
    LastOfLast(log[lo..hi], log[hi..b], VIEWER_MAX_EVENTS);
    NewestOfNext(log, lo, hi, b);
    IdsConcat(log[lo..hi], log[hi..b]);
  }

  /** A reply that starts anywhere else leaves neighbours on screen that are not neighbours in the log. */
  lemma {:induction false} DeliverOutside(log: seq<Event>, lo: nat, hi: nat, a: nat, b: nat, p: nat, q: nat)
    requires GoodLog(log) && lo < hi <= |log| && a < b <= |log|
    requires b - a <= VIEWER_BACKFILL_LIMIT
    requires a < lo || hi < a
    requires p <= q <= |log|
    ensures Absorb(ViewOf(log[lo..hi]), log[a..b]).events != log[p..q]
  {
    var v := ViewOf(log[lo..hi]);
    var added := Unseen(v.seen, log[a..b]);
    InRange(log, lo, hi, a);
    assert log[a..b][0] == log[a];
    assert added[0] == log[a];
    UnseenLength(v.seen, log[a..b]);
    var shown := Absorb(v, log[a..b]).events;
    var at := |shown| - |added|;
    assert at >= 1;
    assert shown[at] == added[0];
    assert shown[at - 1] == v.events[|v.events| - 1] == log[hi - 1];
    Neighbours(log, shown, at, hi - 1, a, p, q);
  }

  /** Neighbours on a stretch of the log are neighbours in the log. */
  lemma {:induction false} Neighbours(log: seq<Event>, shown: seq<Event>, at: nat, i: nat, j: nat, p: nat, q: nat)
    requires UniqueIds(log) && 1 <= at < |shown| && i < |log| && j < |log| && p <= q <= |log|
    requires shown[at - 1] == log[i] && shown[at] == log[j]
    ensures shown == log[p..q] ==> j == i + 1
  {
    if shown == log[p..q] {
      assert log[p + at - 1] == log[p..q][at - 1];
      assert log[p + at] == log[p..q][at];
      assert p + at - 1 == i;
    }
  }

  lemma UnseenLength(seen: set<string>, events: seq<Event>)
    ensures |Unseen(seen, events)| <= |events|
    decreases events
  {
  }

  /**
    Exactly when a reply may be appended: with events on screen, the viewer
    goes on showing consecutive log events if and only if the reply starts
    within the shown run or right behind it.
  */
  lemma {:induction false} DeliveryKeepsRunIff(log: seq<Event>, lo: nat, hi: nat, a: nat, b: nat)
    requires GoodLog(log) && lo < hi <= |log| && a < b <= |log|
    requires b - a <= VIEWER_BACKFILL_LIMIT
    ensures (exists p, q :: 0 <= p <= q <= |log| && Absorb(ViewOf(log[lo..hi]), log[a..b]).events == log[p..q])
            <==> lo <= a <= hi
    ensures Joins(ViewOf(log[lo..hi]), log[a..b]) <==> lo <= a < hi
  {
    InRange(log, lo, hi, a);
    assert log[a..b][0] == log[a];
    if lo <= a <= hi {
      DeliverInside(log, lo, hi, a, b);
      var top := if b > hi then b else hi;
      var run := log[lo..top];
      var from := top - |Last(run, VIEWER_MAX_EVENTS)|;
      assert Last(run, VIEWER_MAX_EVENTS) == log[from..top];
    } else {
      forall p, q | 0 <= p <= q <= |log|
        ensures Absorb(ViewOf(log[lo..hi]), log[a..b]).events != log[p..q]
      {
        DeliverOutside(log, lo, hi, a, b, p, q);
      }
    }
  }

  // ---- runs ------------------------------------------------------------------------------

  ghost predicate EnabledRun(s: State, steps: seq<Step>)
    decreases steps
  {
    steps != [] ==> Enabled(s, steps[0]) && EnabledRun(Next(s, steps[0]), steps[1..])
  }

  ghost function Final(s: State, steps: seq<Step>): State
    requires EnabledRun(s, steps)
    decreases steps
  {
    if steps == [] then s else Final(Next(s, steps[0]), steps[1..])
  }

  /** The events that arrived along a run, reply after reply. */
  ghost function Delivered(s: State, steps: seq<Step>): seq<Event>
    requires EnabledRun(s, steps)
    decreases steps
  {
    if steps == [] then []
    else Arriving(s, steps[0]) + Delivered(Next(s, steps[0]), steps[1..])
  }

  ghost function Arriving(s: State, step: Step): seq<Event>
    requires Enabled(s, step)
  {
    if step.Deliver? then s.polls[step.i].reply else []
  }

  lemma {:induction false} RunStep(s: State, step: Step, rest: seq<Step>)
    requires Enabled(s, step) && EnabledRun(Next(s, step), rest)
    ensures EnabledRun(s, [step] + rest)
    ensures Final(s, [step] + rest) == Final(Next(s, step), rest)
  {
    assert ([step] + rest)[1..] == rest;
  }

  /** A viewer just opened on a log, nothing polled yet. */
  ghost predicate Opened(s: State) {
    GoodLog(s.log) && s.view == EMPTY_VIEW && s.polls == []
  }

  /** The run log[lo..hi] holds these events and no others. */
  ghost predicate Covers(got: seq<Event>, log: seq<Event>, lo: nat, hi: nat)
    requires lo <= hi <= |log|
  {
    forall e :: e in got <==> e in log[lo..hi]
  }

  /** The view is that of a run of the log from lo on, holding exactly these events. */
  ghost predicate ShowsFrom(s: State, lo: nat, got: seq<Event>) {
    exists hi: nat :: Shows(s, lo, hi) && Covers(got, s.log, lo, hi)
  }

  /** The view is that of a run of the log holding exactly these events. */
  ghost predicate ShowsAll(s: State, got: seq<Event>) {
    exists lo: nat :: ShowsFrom(s, lo, got)
  }

  lemma {:induction false} CoversMore(got: seq<Event>, log: seq<Event>, lo: nat, hi: nat, a: nat, b: nat)
    requires lo <= a <= hi <= |log| && a <= b <= |log| && Covers(got, log, lo, hi)
    ensures Covers(got + log[a..b], log, lo, if b > hi then b else hi)
  {
    var top := if b > hi then b else hi;
    forall e
      ensures e in got + log[a..b] <==> e in log[lo..top]
    {
      InSegment(log, lo, hi, e);
      InSegment(log, a, b, e);
      InSegment(log, lo, top, e);
    }
  }

  lemma {:induction false} InSegment(log: seq<Event>, lo: nat, hi: nat, e: Event)
    requires lo <= hi <= |log|
    ensures e in log[lo..hi] <==> exists i :: lo <= i < hi && log[i] == e
  {
    if i :| lo <= i < hi && log[i] == e {
      assert log[lo..hi][i - lo] == e;
    }
    if e in log[lo..hi] {
      var j :| 0 <= j < hi - lo && log[lo..hi][j] == e;
      assert log[lo + j] == e;
    }
  }

  lemma {:induction false} ShownSegment(s: State, lo: nat, hi: nat)
    requires GoodLog(s.log) && Shows(s, lo, hi)
    ensures s.view.events == Last(s.log[lo..hi], VIEWER_MAX_EVENTS)
    ensures UniqueIds(s.view.events) && TimeSorted(s.view.events)
  {
    LastOfSegment(s.log, lo, hi, VIEWER_MAX_EVENTS);
    GoodSegment(s.log, if hi - lo <= VIEWER_MAX_EVENTS then lo else hi - VIEWER_MAX_EVENTS, hi);
  }

  // ---- exactly which runs stay consecutive ---------------------------------------------------

  /** What is on screen is a stretch of the log with nothing missing. */
  ghost predicate Consecutive(s: State) {
    exists p, q :: 0 <= p <= q <= |s.log| && s.view.events == s.log[p..q]
  }

  ghost predicate AlwaysConsecutive(s: State, steps: seq<Step>)
    requires EnabledRun(s, steps)
    decreases steps
  {
    Consecutive(s) && (steps != [] ==> AlwaysConsecutive(Next(s, steps[0]), steps[1..]))
  }

  ghost predicate Follows(log: seq<Event>, e: Event, f: Event) {
    exists k :: 0 < k < |log| && log[k - 1] == e && log[k] == f
  }

  /** A reply delivered onto a non-empty screen starts with an event seen before or the one behind the last shown. */
  ghost predicate Adjoining(s: State, step: Step)
    requires Enabled(s, step)
  {
    Arriving(s, step) != [] && s.view.events != [] ==>
      || Arriving(s, step)[0].id in s.view.seen
      || Follows(s.log, s.view.events[|s.view.events| - 1], Arriving(s, step)[0])
  }

  ghost predicate AdjoiningRun(s: State, steps: seq<Step>)
    requires EnabledRun(s, steps)
    decreases steps
  {
    steps != [] ==> Adjoining(s, steps[0]) && AdjoiningRun(Next(s, steps[0]), steps[1..])
  }

  ghost predicate Segment(log: seq<Event>, reply: seq<Event>) {
    exists a: nat, b: nat :: a <= b <= |log| && reply == log[a..b]
  }

  ghost predicate ReplyOk(log: seq<Event>, poll: Poll) {
    poll.Answered? ==> Segment(log, poll.reply) && |poll.reply| <= VIEWER_BACKFILL_LIMIT
  }

  /** The screen shows a run of the log, and so does every reply in flight. */
  ghost predicate Tracks(s: State, lo: nat, hi: nat) {
    && GoodLog(s.log) && Shows(s, lo, hi)
    && forall i :: 0 <= i < |s.polls| ==> ReplyOk(s.log, s.polls[i])
  }

  lemma {:induction false} OpenedTracks(s: State)
    requires Opened(s)
    ensures Tracks(s, 0, 0) && Covers([], s.log, 0, 0)
  {
    assert s.log[0..0] == [];
  }

  lemma {:induction false} SegmentGrows(log: seq<Event>, e: Event, reply: seq<Event>)
    requires Segment(log, reply)
    ensures Segment(log + [e], reply)
  {
    var a: nat, b: nat :| a <= b <= |log| && reply == log[a..b];
    assert (log + [e])[a..b] == log[a..b];
  }

  lemma {:induction false} AnswerIsSegment(log: seq<Event>, poll: Poll, held: nat)
    requires GoodLog(log) && held <= |Matching(log, poll.since)|
    ensures ReplyOk(log, AnswerTo(log, poll, held))
  {
    var a := Start(log, poll.since);
    HeldIsSegment(log, poll.since, held);
    LastOfSegment(log, a, a + held, VIEWER_BACKFILL_LIMIT);
  }

  lemma {:induction false} AbsorbNothing(v: View)
    requires |v.events| <= VIEWER_MAX_EVENTS
    ensures Absorb(v, []) == v
  {
    assert v.events + [] == v.events;
  }

  /** A step that brings no event leaves the screen showing what it showed. */
  lemma {:induction false} QuietStep(s: State, step: Step, lo: nat, hi: nat)
    requires Tracks(s, lo, hi) && Enabled(s, step) && Arriving(s, step) == []
    ensures Tracks(Next(s, step), lo, hi)
  {
    var s' := Next(s, step);
    assert s'.log[lo..hi] == s.log[lo..hi];
    AbsorbNothing(s.view);
    forall i | 0 <= i < |s'.polls|
      ensures ReplyOk(s'.log, s'.polls[i])
    {
      QuietPoll(s, step, i);
    }
  }

  lemma {:induction false} QuietPoll(s: State, step: Step, i: nat)
    requires GoodLog(s.log) && Enabled(s, step) && i < |Next(s, step).polls|
    requires forall j :: 0 <= j < |s.polls| ==> ReplyOk(s.log, s.polls[j])
    ensures ReplyOk(Next(s, step).log, Next(s, step).polls[i])
  {
    match step
    case Publish(e) =>
      if s.polls[i].Answered? {
        SegmentGrows(s.log, e, s.polls[i].reply);
      }
    case Answer(j, held) => AnswerIsSegment(s.log, s.polls[j], held);
    case Fail(j) => assert s.log[0..0] == [];
    case _ =>
  }

  lemma {:induction false} ArrivalTracks(s: State, i: nat, lo: nat, hi: nat, a: nat, b: nat)
    requires Tracks(s, lo, hi) && Enabled(s, Deliver(i))
    requires a < b <= |s.log| && s.polls[i].reply == s.log[a..b]
    requires lo < hi ==> lo <= a <= hi
    ensures var from, to := if lo < hi then lo else a, if lo < hi && b <= hi then hi else b;
            Tracks(Next(s, Deliver(i)), from, to)
  {
    forall j | 0 <= j < |Next(s, Deliver(i)).polls|
      ensures ReplyOk(s.log, Next(s, Deliver(i)).polls[j])
    {
      QuietPoll(s, Deliver(i), j);
    }
    if lo == hi {
      assert ViewOf(s.log[lo..hi]) == ViewOf(s.log[a..a]);
      DeliverInside(s.log, a, a, a, b);
    } else {
      DeliverInside(s.log, lo, hi, a, b);
    }
  }

  lemma {:induction false} FollowsIff(log: seq<Event>, i: nat, j: nat)
    requires UniqueIds(log) && i < |log| && j < |log|
    ensures Follows(log, log[i], log[j]) <==> j == i + 1
  {
    if j == i + 1 {
      assert log[j - 1] == log[i];
    }
  }

  lemma {:induction false} AdjoiningIff(s: State, i: nat, lo: nat, hi: nat, a: nat, b: nat)
    requires Tracks(s, lo, hi) && lo < hi && Enabled(s, Deliver(i))
    requires a < b <= |s.log| && s.polls[i].reply == s.log[a..b]
    ensures Adjoining(s, Deliver(i)) <==> lo <= a <= hi
  {
    InRange(s.log, lo, hi, a);
    assert s.log[a..b][0] == s.log[a];
    assert s.view.events[|s.view.events| - 1] == s.log[hi - 1];
    FollowsIff(s.log, hi - 1, a);
  }

  lemma {:induction false} ShownConsecutive(s: State, lo: nat, hi: nat)
    requires Shows(s, lo, hi)
    ensures Consecutive(s)
  {
    LastOfSegment(s.log, lo, hi, VIEWER_MAX_EVENTS);
  }

  /** A delivery either adjoins and keeps the run, or leaves a gap or a disorder on screen at once. */
  lemma {:induction false} ArrivalIff(s: State, i: nat, lo: nat, hi: nat)
    requires Tracks(s, lo, hi) && Enabled(s, Deliver(i)) && s.polls[i].reply != []
    ensures if Adjoining(s, Deliver(i))
            then exists lo': nat, hi': nat :: Tracks(Next(s, Deliver(i)), lo', hi')
            else !Consecutive(Next(s, Deliver(i)))
  {
    assert ReplyOk(s.log, s.polls[i]);
    var a: nat, b: nat :| a <= b <= |s.log| && s.polls[i].reply == s.log[a..b];
    if lo < hi {
      AdjoiningIff(s, i, lo, hi, a, b);
    }
    if Adjoining(s, Deliver(i)) {
      ArrivalTracks(s, i, lo, hi, a, b);
    } else {
      forall p, q | 0 <= p <= q <= |s.log|
        ensures Next(s, Deliver(i)).view.events != s.log[p..q]
      {
        DeliverOutside(s.log, lo, hi, a, b, p, q);
      }
    }
  }

  lemma {:induction false} RunConsecutiveIff(s: State, steps: seq<Step>, lo: nat, hi: nat)
    requires Tracks(s, lo, hi) && EnabledRun(s, steps)
    ensures AlwaysConsecutive(s, steps) <==> AdjoiningRun(s, steps)
    decreases steps
  {
    ShownConsecutive(s, lo, hi);
    if steps != [] {
      var s' := Next(s, steps[0]);
      if Arriving(s, steps[0]) == [] {
        QuietStep(s, steps[0], lo, hi);
        RunConsecutiveIff(s', steps[1..], lo, hi);
      } else {
        ArrivalIff(s, steps[0].i, lo, hi);
        if Adjoining(s, steps[0]) {
          var l: nat, h: nat :| Tracks(s', l, h);
          RunConsecutiveIff(s', steps[1..], l, h);
        }
      }
    }
  }

  /**
    From opening on, and whatever polls overlap, fail or are cut: the screen
    shows consecutive log events throughout if and only if every reply with
    events starts within what was shown or right behind it.
  */
  lemma {:induction false} SessionConsecutiveIff(s: State, steps: seq<Step>)
    requires Opened(s) && EnabledRun(s, steps)
    ensures AlwaysConsecutive(s, steps) <==> AdjoiningRun(s, steps)
  {
    OpenedTracks(s);
    RunConsecutiveIff(s, steps, 0, 0);
  }

  lemma {:induction false} QuietCovers(got: seq<Event>, log: seq<Event>, grown: seq<Event>, lo: nat, hi: nat)
    requires lo <= hi <= |log| && log <= grown && Covers(got, log, lo, hi)
    ensures Covers(got + [], grown, lo, hi)
  {
    assert grown[lo..hi] == log[lo..hi];
    assert got + [] == got;
  }

  /** A step of an adjoining run: the run keeps its start and takes in exactly what arrives. */
  lemma {:induction false} AdjoiningStep(s: State, step: Step, lo: nat, hi: nat, got: seq<Event>)
    returns (lo': nat, hi': nat)
    requires Tracks(s, lo, hi) && Enabled(s, step) && Adjoining(s, step) && Covers(got, s.log, lo, hi)
    ensures Tracks(Next(s, step), lo', hi') && Covers(got + Arriving(s, step), Next(s, step).log, lo', hi')
    ensures lo < hi ==> lo' == lo && hi <= hi'
  {
    var s' := Next(s, step);
    lo', hi' := lo, hi;
    if Arriving(s, step) == [] {
      QuietStep(s, step, lo, hi);
      QuietCovers(got, s.log, s'.log, lo, hi);
    } else {
      assert ReplyOk(s.log, s.polls[step.i]);
      var a: nat, b: nat :| a <= b <= |s.log| && s.polls[step.i].reply == s.log[a..b];
      if lo < hi {
        AdjoiningIff(s, step.i, lo, hi, a, b);
        CoversMore(got, s.log, lo, hi, a, b);
        hi' := if b > hi then b else hi;
      } else {
        assert s.log[lo..hi] == s.log[a..a] == [];
        CoversMore(got, s.log, a, a, a, b);
        lo', hi' := a, b;
      }
      ArrivalTracks(s, step.i, lo, hi, a, b);
    }
  }

  lemma {:induction false} AdjoiningRunShows(s: State, steps: seq<Step>, lo: nat, hi: nat, got: seq<Event>)
    returns (lo': nat, hi': nat)
    requires Tracks(s, lo, hi) && EnabledRun(s, steps) && AdjoiningRun(s, steps) && Covers(got, s.log, lo, hi)
    ensures Tracks(Final(s, steps), lo', hi')
    ensures Covers(got + Delivered(s, steps), Final(s, steps).log, lo', hi')
    ensures lo < hi ==> lo' == lo && hi <= hi'
    decreases steps
  {
    if steps == [] {
      assert got + [] == got;
      lo', hi' := lo, hi;
    } else {
      var l, h := AdjoiningStep(s, steps[0], lo, hi, got);
      var s', more := Next(s, steps[0]), Arriving(s, steps[0]);
      lo', hi' := AdjoiningRunShows(s', steps[1..], l, h, got + more);
      Assoc(got, more, Delivered(s', steps[1..]));
    }
  }

  // ---- runs within the fetch limit ----------------------------------------------------------

  /** No log event falls between the two instants. */
  ghost predicate SameWindow(log: seq<Event>, a: int, b: int) {
    forall e :: e in log ==> (e.ts >= a <==> e.ts >= b)
  }

  /**
    What is asked of the surroundings: no pages hold more than the fetch limit
    returns, and polls issued while nothing is shown look back over the window from w as far
    as the events of the whole log can tell.
  */
  ghost predicate WithinLimits(s: State, step: Step, whole: seq<Event>, w: int)
    requires Enabled(s, step)
  {
    match step
    case Answer(_, held) => held <= VIEWER_BACKFILL_LIMIT
    case Issue => s.view.lastTS == 0 ==> SameWindow(whole, s.now - s.lookback, w)
    case _ => true
  }

  ghost predicate RunWithinLimits(s: State, steps: seq<Step>, whole: seq<Event>, w: int)
    requires EnabledRun(s, steps)
    decreases steps
  {
    steps != [] ==> WithinLimits(s, steps[0], whole, w) && RunWithinLimits(Next(s, steps[0]), steps[1..], whole, w)
  }

  /** An uncut reply runs from the first event its poll asked for. */
  ghost predicate FromStart(log: seq<Event>, poll: Poll) {
    poll.Answered? && poll.reply != [] ==>
      && Start(log, poll.since) + |poll.reply| <= |log|
      && poll.reply == log[Start(log, poll.since)..Start(log, poll.since) + |poll.reply|]
  }

  ghost predicate PollFits(log: seq<Event>, poll: Poll, whole: seq<Event>, w: int, lo: nat, hi: nat)
    requires lo <= hi <= |log|
  {
    && FromStart(log, poll)
    && if poll.early then SameWindow(whole, poll.since, w)
       else lo < hi && log[lo].ts <= poll.since <= log[hi - 1].ts
  }

  /** The screen shows the window from w up to hi. */
  ghost predicate ShowsWindow(s: State, whole: seq<Event>, w: int, hi: nat) {
    && GoodLog(s.log) && s.log <= whole
    && Shows(s, Start(s.log, w), hi)
    && forall i :: 0 <= i < |s.polls| ==> PollFits(s.log, s.polls[i], whole, w, Start(s.log, w), hi)
  }

  lemma {:induction false} SameStart(log: seq<Event>, whole: seq<Event>, a: int, b: int)
    requires log <= whole && SameWindow(whole, a, b)
    ensures Start(log, a) == Start(log, b)
  {
    if log != [] {
      assert log[0] == whole[0] && log[1..] <= whole[1..];
      assert log[0] in whole;
      forall e | e in whole[1..]
        ensures e in whole
      {
      }
      SameStart(log[1..], whole[1..], a, b);
    }
  }

  /** Where the reply to a fitting poll starts: within the shown run, or where the window does. */
  lemma {:induction false} FittingStart(s: State, poll: Poll, whole: seq<Event>, w: int, hi: nat)
    requires ShowsWindow(s, whole, w, hi) && PollFits(s.log, poll, whole, w, Start(s.log, w), hi)
    ensures Start(s.log, w) <= Start(s.log, poll.since) <= hi
  {
    if poll.early {
      SameStart(s.log, whole, poll.since, w);
    } else {
      MatchingIsSuffix(s.log, w);
      MatchingIsSuffix(s.log, poll.since);
      var lo, a := Start(s.log, w), Start(s.log, poll.since);
      assert s.log[hi - 1].ts >= poll.since && s.log[lo].ts >= w;
      assert lo > 0 ==> s.log[lo - 1].ts < w;
    }
  }

  lemma {:induction false} StartGrows(log: seq<Event>, e: Event, since: int)
    requires TimeSorted(log) && Start(log, since) < |log|
    ensures Start(log + [e], since) == Start(log, since)
  {
    if log[0].ts < since {
      assert (log + [e])[1..] == log[1..] + [e];
      StartGrows(log[1..], e, since);
    }
  }

  lemma {:induction false} WindowPublish(s: State, e: Event, whole: seq<Event>, w: int, hi: nat)
    requires ShowsWindow(s, whole, w, hi) && Enabled(s, Publish(e)) && s.log + [e] <= whole
    ensures var hi' := if hi == Start(s.log, w) then Start(s.log + [e], w) else hi;
            ShowsWindow(Next(s, Publish(e)), whole, w, hi')
  {
    var s', lo, lo' := Next(s, Publish(e)), Start(s.log, w), Start(s.log + [e], w);
    var hi' := if hi == lo then lo' else hi;
    if lo < |s.log| {
      StartGrows(s.log, e, w);
    }
    if hi == lo {
      assert s.log[lo..hi] == s'.log[lo'..hi'] == [];
    } else {
      assert s'.log[lo..hi] == s.log[lo..hi];
    }
    forall i | 0 <= i < |s'.polls|
      ensures PollFits(s'.log, s'.polls[i], whole, w, lo', hi')
    {
      assert PollFits(s.log, s.polls[i], whole, w, lo, hi);
      ReplyStays(s.log, e, s.polls[i]);
    }
  }

  lemma {:induction false} ReplyStays(log: seq<Event>, e: Event, poll: Poll)
    requires TimeSorted(log) && FromStart(log, poll)
    ensures FromStart(log + [e], poll)
  {
    if poll.Answered? && poll.reply != [] {
      var a := Start(log, poll.since);
      StartGrows(log, e, poll.since);
      assert (log + [e])[a..a + |poll.reply|] == log[a..a + |poll.reply|];
    }
  }

  lemma {:induction false} UncutAnswer(log: seq<Event>, poll: Poll, held: nat)
    requires GoodLog(log) && held <= |Matching(log, poll.since)| && held <= VIEWER_BACKFILL_LIMIT
    ensures FromStart(log, AnswerTo(log, poll, held))
  {
    HeldIsSegment(log, poll.since, held);
  }

  lemma {:induction false} WindowIssue(s: State, whole: seq<Event>, w: int, hi: nat)
    requires ShowsWindow(s, whole, w, hi) && WithinLimits(s, Issue, whole, w)
    ensures ShowsWindow(Next(s, Issue), whole, w, hi)
  {
    var lo, v := Start(s.log, w), s.log[Start(s.log, w)..hi];
    if v != [] {
      assert v[|v| - 1] == s.log[hi - 1];
    }
  }

  lemma {:induction false} WindowQuiet(s: State, step: Step, whole: seq<Event>, w: int, hi: nat)
    requires ShowsWindow(s, whole, w, hi) && Enabled(s, step) && WithinLimits(s, step, whole, w)
    requires step.Pass? || step.Answer? || step.Fail?
    ensures ShowsWindow(Next(s, step), whole, w, hi)
  {
    if step.Answer? {
      UncutAnswer(s.log, s.polls[step.i], step.held);
    }
    var s', lo := Next(s, step), Start(s.log, w);
    forall j | 0 <= j < |s'.polls|
      ensures PollFits(s'.log, s'.polls[j], whole, w, lo, hi)
    {
      assert PollFits(s.log, s.polls[j], whole, w, lo, hi);
    }
  }

  /** The polls left after a delivery, the run having grown at its end at most. */
  lemma {:induction false} PollsLeftFit(s: State, i: nat, whole: seq<Event>, w: int, hi: nat, hi': nat)
    requires ShowsWindow(s, whole, w, hi) && Enabled(s, Deliver(i)) && hi <= hi' <= |s.log|
    ensures forall j :: 0 <= j < |s.polls| - 1 ==>
              PollFits(s.log, Next(s, Deliver(i)).polls[j], whole, w, Start(s.log, w), hi')
  {
    var left, lo := Next(s, Deliver(i)).polls, Start(s.log, w);
    forall j | 0 <= j < |left|
      ensures PollFits(s.log, left[j], whole, w, lo, hi')
    {
      assert left[j] == s.polls[if j < i then j else j + 1];
      assert PollFits(s.log, left[j], whole, w, lo, hi);
      LaterEnd(s.log, left[j], whole, w, lo, hi, hi');
    }
  }

  lemma {:induction false} LaterEnd(log: seq<Event>, poll: Poll, whole: seq<Event>, w: int, lo: nat, hi: nat, hi': nat)
    requires TimeSorted(log) && lo <= hi <= hi' <= |log| && PollFits(log, poll, whole, w, lo, hi)
    ensures PollFits(log, poll, whole, w, lo, hi')
  {
  }

  lemma {:induction false} TakeIn(log: seq<Event>, lo: nat, hi: nat, a: nat, b: nat, got: seq<Event>)
    requires GoodLog(log) && lo <= a <= hi <= |log| && a < b <= |log| && Covers(got, log, lo, hi)
    ensures var hi' := if b > hi then b else hi;
            && Absorb(ViewOf(log[lo..hi]), log[a..b]) == ViewOf(log[lo..hi'])
            && Covers(got + log[a..b], log, lo, hi')
  {
    DeliverInside(log, lo, hi, a, b);
    CoversMore(got, log, lo, hi, a, b);
  }

  lemma {:induction false} WindowArrival(s: State, i: nat, whole: seq<Event>, w: int, hi: nat, a: nat, b: nat)
    requires ShowsWindow(s, whole, w, hi) && Enabled(s, Deliver(i)) && s.polls[i].reply != []
    requires a == Start(s.log, s.polls[i].since) && b == a + |s.polls[i].reply|
    ensures Start(s.log, w) <= a <= hi && a < b <= |s.log| && s.polls[i].reply == s.log[a..b]
  {
    assert PollFits(s.log, s.polls[i], whole, w, Start(s.log, w), hi);
    FittingStart(s, s.polls[i], whole, w, hi);
  }

  lemma {:induction false} WindowAfter(s: State, i: nat, whole: seq<Event>, w: int, hi: nat, hi': nat)
    requires ShowsWindow(s, whole, w, hi) && Enabled(s, Deliver(i)) && hi <= hi' <= |s.log|
    requires Absorb(s.view, s.polls[i].reply) == ViewOf(s.log[Start(s.log, w)..hi'])
    ensures ShowsWindow(Next(s, Deliver(i)), whole, w, hi')
  {
    PollsLeftFit(s, i, whole, w, hi, hi');
  }

  lemma {:induction false} WindowStep(s: State, step: Step, whole: seq<Event>, w: int, hi: nat, got: seq<Event>)
    returns (hi': nat)
    requires ShowsWindow(s, whole, w, hi) && Enabled(s, step) && WithinLimits(s, step, whole, w)
    requires Next(s, step).log <= whole && Covers(got, s.log, Start(s.log, w), hi)
    ensures ShowsWindow(Next(s, step), whole, w, hi') && hi <= hi'
    ensures Covers(got + Arriving(s, step), Next(s, step).log, Start(Next(s, step).log, w), hi')
  {
    hi' := hi;
    assert got + [] == got;
    if step.Deliver? {
      var poll := s.polls[step.i];
      AbsorbNothing(s.view);
      if poll.reply != [] {
        var a := Start(s.log, poll.since);
        var b := a + |poll.reply|;
        WindowArrival(s, step.i, whole, w, hi, a, b);
        TakeIn(s.log, Start(s.log, w), hi, a, b, got);
        hi' := if b > hi then b else hi;
      }
      WindowAfter(s, step.i, whole, w, hi, hi');
    } else {
      if step.Publish? {
        WindowPublish(s, step.e, whole, w, hi);
        PublishCovers(s.log, step.e, w, hi, got);
        if hi == Start(s.log, w) {
          hi' := Start(s.log + [step.e], w);
        }
      } else if step.Issue? {
        WindowIssue(s, whole, w, hi);
      } else {
        WindowQuiet(s, step, whole, w, hi);
      }
    }
  }

  lemma {:induction false} PublishCovers(log: seq<Event>, e: Event, w: int, hi: nat, got: seq<Event>)
    requires TimeSorted(log) && Start(log, w) <= hi <= |log| && Covers(got, log, Start(log, w), hi)
    ensures var lo' := Start(log + [e], w);
            var hi' := if hi == Start(log, w) then lo' else hi;
            hi <= hi' && lo' <= hi' && Covers(got, log + [e], lo', hi')
  {
    var lo, lo' := Start(log, w), Start(log + [e], w);
    if lo < |log| {
      StartGrows(log, e, w);
    } else {
      StartOfLast(log, e, w);
    }
    if hi == lo {
      assert log[lo..hi] == (log + [e])[lo'..lo'] == [];
    } else {
      assert (log + [e])[lo..hi] == log[lo..hi];
    }
  }

  lemma {:induction false} StartOfLast(log: seq<Event>, e: Event, w: int)
    requires Start(log, w) == |log|
    ensures Start(log + [e], w) >= |log|
  {
    if log != [] {
      assert (log + [e])[1..] == log[1..] + [e];
      StartOfLast(log[1..], e, w);
    }
  }

  lemma {:induction false} LogGrows(s: State, steps: seq<Step>)
    requires EnabledRun(s, steps)
    ensures s.log <= Final(s, steps).log
    decreases steps
  {
    if steps != [] {
      LogGrows(Next(s, steps[0]), steps[1..]);
    }
  }

  lemma {:induction false} WindowRun(s: State, steps: seq<Step>, whole: seq<Event>, w: int, hi: nat, got: seq<Event>)
    returns (hi': nat)
    requires EnabledRun(s, steps) && RunWithinLimits(s, steps, whole, w) && Final(s, steps).log <= whole
    requires ShowsWindow(s, whole, w, hi) && Covers(got, s.log, Start(s.log, w), hi)
    ensures ShowsWindow(Final(s, steps), whole, w, hi') && hi <= hi'
    ensures Covers(got + Delivered(s, steps), Final(s, steps).log, Start(Final(s, steps).log, w), hi')
    decreases steps
  {
    if steps == [] {
      assert got + [] == got;
      hi' := hi;
    } else {
      var s', more := Next(s, steps[0]), Arriving(s, steps[0]);
      LogGrows(s', steps[1..]);
      var h := WindowStep(s, steps[0], whole, w, hi, got);
      hi' := WindowRun(s', steps[1..], whole, w, h, got + more);
      Assoc(got, more, Delivered(s', steps[1..]));
    }
  }

  /** The shown window never gives anything up: from any point of a run its end only moves on. */
  lemma {:induction false} WindowOnlyGrows(s: State, steps: seq<Step>, w: int, hi: nat)
    requires EnabledRun(s, steps) && RunWithinLimits(s, steps, Final(s, steps).log, w)
    requires ShowsWindow(s, Final(s, steps).log, w, hi)
    ensures exists hi': nat :: ShowsWindow(Final(s, steps), Final(s, steps).log, w, hi') && hi <= hi'
  {
    var hi' := WindowRun(s, steps, Final(s, steps).log, w, hi, s.log[Start(s.log, w)..hi]);
  }

  /**
    For every interleaving of overlapping polls, failures, lost time and growth
    of the log, while answers stay within the fetch limit and the polls issued
    before anything is shown look back over one window: the view is that of the
    log from the start of the window on, up to the last event any reply brought,
    each event once and in log order.
  */
  lemma {:induction false} ExactlyOnce(s: State, steps: seq<Step>, w: int)
    requires Opened(s) && EnabledRun(s, steps) && RunWithinLimits(s, steps, Final(s, steps).log, w)
    ensures var end := Final(s, steps);
            && ShowsFrom(end, Start(end.log, w), Delivered(s, steps))
            && UniqueIds(end.view.events) && TimeSorted(end.view.events)
  {
    var end, lo := Final(s, steps), Start(s.log, w);
    LogGrows(s, steps);
    assert s.log[lo..lo] == [];
    var hi := WindowRun(s, steps, end.log, w, lo, []);
    assert [] + Delivered(s, steps) == Delivered(s, steps);
    ShownSegment(end, Start(end.log, w), hi);
  }

  // ---- runs beyond the fetch limit ----------------------------------------------------------

  /**
    Also when answers are cut and windows move: an adjoining run shows what was
    delivered - consecutive log events, each once, in log order - and no event
    less.
  */
  lemma {:induction false} SessionShowsLogRun(s: State, steps: seq<Step>)
    requires Opened(s) && EnabledRun(s, steps) && AdjoiningRun(s, steps)
    ensures var end := Final(s, steps);
            && AlwaysConsecutive(s, steps)
            && ShowsAll(end, Delivered(s, steps))
            && UniqueIds(end.view.events) && TimeSorted(end.view.events)
  {
    var end := Final(s, steps);
    OpenedTracks(s);
    SessionConsecutiveIff(s, steps);
    var lo, hi := AdjoiningRunShows(s, steps, 0, 0, []);
    assert [] + Delivered(s, steps) == Delivered(s, steps);
    assert ShowsFrom(end, lo, Delivered(s, steps));
    ShownSegment(end, lo, hi);
  }

  /**
    Where the matches of a poll start that was issued at an instant shown: never
    behind the run, and within it exactly when the event before the run is older.
  */
  lemma {:induction false} TimelyReplyJoins(log: seq<Event>, lo: nat, hi: nat, since: int)
    requires GoodLog(log) && lo < hi <= |log| && log[lo].ts <= since <= log[hi - 1].ts
    ensures Start(log, since) < hi
    ensures lo <= Start(log, since) <==> lo == 0 || log[lo - 1].ts < since
  {
    MatchingIsSuffix(log, since);
    assert log[hi - 1].ts >= since;
    assert lo > 0 ==> (log[lo - 1].ts >= since <==> Start(log, since) <= lo - 1);
  }

  /** From here on the log has what a poll sent now matches. */
  function Asked(s: State): nat {
    Start(s.log, s.view.lastTS)
  }

  /** Where the reply starts of pages that held so many matches: the fetch limit keeps the newest. */
  function ReplyStart(s: State, held: nat): nat {
    Asked(s) + if held <= VIEWER_BACKFILL_LIMIT then 0 else held - VIEWER_BACKFILL_LIMIT
  }

  /** The state once a poll was issued, answered and delivered with nothing in between. */
  ghost function Polled(s: State, held: nat): State
    requires Asked(s) + held <= |s.log|
  {
    s.(view := Absorb(s.view, s.log[ReplyStart(s, held)..Asked(s) + held]))
  }

  lemma {:induction false} ReplyOfPages(log: seq<Event>, poll: Poll, held: nat, a: nat)
    requires TimeSorted(log) && a == Start(log, poll.since) && a + held <= |log|
    ensures held <= |Matching(log, poll.since)|
    ensures AnswerTo(log, poll, held).reply
         == log[a + (if held <= VIEWER_BACKFILL_LIMIT then 0 else held - VIEWER_BACKFILL_LIMIT)..a + held]
  {
    MatchingIsSuffix(log, poll.since);
    HeldIsSegment(log, poll.since, held);
    LastOfSegment(log, a, a + held, VIEWER_BACKFILL_LIMIT);
  }

  lemma {:induction false} PollInThreeSteps(s: State, held: nat)
    requires TimeSorted(s.log) && s.view.lastTS != 0 && Asked(s) + held <= |s.log|
    ensures var steps := [Issue, Answer(|s.polls|, held), Deliver(|s.polls|)];
            EnabledRun(s, steps) && Final(s, steps) == Polled(s, held)
  {
    var n, poll := |s.polls|, Waiting(s.view.lastTS, false);
    ReplyOfPages(s.log, poll, held, Asked(s));
    var asked := s.(polls := s.polls + [poll]);
    var answered := s.(polls := s.polls + [AnswerTo(s.log, poll, held)]);
    assert Next(s, Issue) == asked;
    assert Next(asked, Answer(n, held)).polls == answered.polls;
    assert Without(answered.polls, n) == s.polls;
    RunStep(answered, Deliver(n), []);
    RunStep(asked, Answer(n, held), [Deliver(n)] + []);
    RunStep(s, Issue, [Answer(n, held)] + ([Deliver(n)] + []));
    assert [Issue, Answer(n, held), Deliver(n)] == [Issue] + ([Answer(n, held)] + ([Deliver(n)] + []));
  }

  lemma {:induction false} LastShown(s: State, lo: nat, hi: nat)
    requires GoodLog(s.log) && Shows(s, lo, hi) && lo < hi
    ensures s.view.lastTS == s.log[hi - 1].ts > 0 && s.log[lo].ts <= s.view.lastTS
    ensures Asked(s) < hi && (lo <= Asked(s) <==> lo == 0 || s.log[lo - 1].ts < s.view.lastTS)
  {
    assert s.log[lo..hi][hi - lo - 1] == s.log[hi - 1];
    TimelyReplyJoins(s.log, lo, hi, s.log[hi - 1].ts);
  }

  /** One reply delivered: the shown run goes on, or no run is shown any more. */
  lemma {:induction false} OneReply(s: State, after: State, lo: nat, hi: nat, a: nat, b: nat)
    requires GoodLog(s.log) && Shows(s, lo, hi) && lo < hi && a < b <= |s.log|
    requires b - a <= VIEWER_BACKFILL_LIMIT
    requires after.log == s.log && after.view == Absorb(s.view, s.log[a..b])
    ensures if lo <= a <= hi then Shows(after, lo, if b > hi then b else hi) else !Consecutive(after)
  {
    if lo <= a <= hi {
      DeliverInside(s.log, lo, hi, a, b);
    } else {
      DeliveryKeepsRunIff(s.log, lo, hi, a, b);
    }
  }

  /**
    What one poll does whose pages held some event: when the reply starts within
    the run or right behind it the view shows the run up to where the pages
    ended, and otherwise no run of the log at all.
  */
  lemma {:induction false} PollReaches(s: State, lo: nat, hi: nat, held: nat)
    requires GoodLog(s.log) && Shows(s, lo, hi) && lo < hi && 0 < held && Asked(s) + held <= |s.log|
    ensures if lo <= ReplyStart(s, held) <= hi
            then Shows(Polled(s, held), lo, if Asked(s) + held > hi then Asked(s) + held else hi)
            else !Consecutive(Polled(s, held))
  {
    OneReply(s, Polled(s, held), lo, hi, ReplyStart(s, held), Asked(s) + held);
  }

  lemma {:induction false} StartOfAll(s: State, lo: nat, hi: nat, held: nat)
    requires GoodLog(s.log) && Shows(s, lo, hi) && lo < hi
    requires held <= VIEWER_BACKFILL_LIMIT && Asked(s) + held == |s.log|
    ensures 0 < held && ReplyStart(s, held) < hi
    ensures lo <= ReplyStart(s, held) <==> lo == 0 || s.log[lo - 1].ts < s.view.lastTS
  {
    LastShown(s, lo, hi);
  }

  /**
    A poll within the fetch limit whose pages hold all that matches brings the
    view up to the end of the log, unless the event before the run shares the
    newest shown timestamp: then the order is lost.
  */
  lemma {:induction false} PollCatchesUp(s: State, lo: nat, hi: nat, held: nat)
    requires GoodLog(s.log) && Shows(s, lo, hi) && lo < hi
    requires held <= VIEWER_BACKFILL_LIMIT && Asked(s) + held == |s.log|
    ensures if lo == 0 || s.log[lo - 1].ts < s.view.lastTS then Shows(Polled(s, held), lo, |s.log|)
            else !Consecutive(Polled(s, held))
  {
    StartOfAll(s, lo, hi, held);
    OneReply(s, Polled(s, held), lo, hi, ReplyStart(s, held), |s.log|);
  }

  lemma {:induction false} SeenAlready(log: seq<Event>, lo: nat, hi: nat, a: nat, b: nat)
    requires GoodLog(log) && lo <= a <= b <= hi <= |log|
    ensures Absorb(ViewOf(log[lo..hi]), log[a..b]) == ViewOf(log[lo..hi])
  {
    if a == b {
      AbsorbNothing(ViewOf(log[lo..hi]));
      assert log[a..b] == [];
    } else {
      DeliverInside(log, lo, hi, a, b);
    }
  }

  lemma {:induction false} StaysPolled(s: State, held: nat, a: nat)
    requires a == Asked(s) && a + held <= |s.log| && held <= VIEWER_BACKFILL_LIMIT
    requires Absorb(s.view, s.log[a..a + held]) == s.view
    ensures Polled(s, held) == s
  {
    assert ReplyStart(s, held) == a;
  }

  /** So many of the matches, from the first one on, are shown: the events of the newest instant. */
  function Known(s: State, lo: nat, hi: nat): nat {
    if lo <= Asked(s) <= hi then hi - Asked(s) else 0
  }

  /** Pages of shown events only leave the state as it is. */
  lemma {:induction false} NothingNew(s: State, lo: nat, hi: nat, held: nat, a: nat)
    requires GoodLog(s.log) && Shows(s, lo, hi) && held <= VIEWER_BACKFILL_LIMIT
    requires a == Asked(s) && a + held <= hi && (held > 0 ==> lo <= a)
    ensures Polled(s, held) == s
  {
    if held > 0 {
      SeenAlready(s.log, lo, hi, a, a + held);
    } else {
      assert s.log[a..a + held] == [];
      AbsorbNothing(s.view);
    }
    StaysPolled(s, held, a);
  }

  /**
    However the log grows meanwhile: a poll whose pages hold shown events only
    brings nothing, and so the next one asks for the same again.
  */
  lemma {:induction false} ViewerStalls(s: State, lo: nat, hi: nat, held: nat, later: State)
    requires GoodLog(s.log) && Shows(s, lo, hi) && lo < hi
    requires held <= VIEWER_BACKFILL_LIMIT && held <= Known(s, lo, hi)
    requires GoodLog(later.log) && s.log <= later.log && later.view == s.view
    ensures Asked(later) == Asked(s) && Polled(later, held) == later
  {
    LastShown(s, lo, hi);
    StartStays(s.log, later.log, s.view.lastTS);
    assert later.log[lo..hi] == s.log[lo..hi];
    NothingNew(later, lo, hi, held, Asked(s));
  }

  lemma {:induction false} StartStays(log: seq<Event>, grown: seq<Event>, since: int)
    requires log <= grown && Start(log, since) < |log|
    ensures Start(grown, since) == Start(log, since)
  {
    if log[0].ts < since {
      StartStays(log[1..], grown[1..], since);
    }
  }

  lemma {:induction false} ReachesOn(s: State, lo: nat, hi: nat, b: nat)
    requires GoodLog(s.log) && Shows(s, lo, hi) && lo <= hi < b <= |s.log|
    ensures !Shows(s, lo, b)
  {
    InRange(s.log, lo, hi, hi);
    InRange(s.log, lo, b, hi);
  }

  /** A poll within the fetch limit changes the view exactly when its pages get past what is known. */
  lemma {:induction false} PollAdvancesIff(s: State, lo: nat, hi: nat, held: nat)
    requires GoodLog(s.log) && Shows(s, lo, hi) && lo < hi
    requires held <= VIEWER_BACKFILL_LIMIT && Asked(s) + held <= |s.log|
    ensures Polled(s, held) != s <==> held > Known(s, lo, hi)
  {
    LastShown(s, lo, hi);
    if held <= Known(s, lo, hi) {
      NothingNew(s, lo, hi, held, Asked(s));
    } else {
      PollReaches(s, lo, hi, held);
      if lo <= Asked(s) {
        ReachesOn(s, lo, hi, Asked(s) + held);
      } else {
        ShownConsecutive(s, lo, hi);
      }
    }
  }

  // ---- what goes wrong otherwise ----------------------------------------------------------

  lemma {:induction false} MatchingPair(e: Event, f: Event)
    requires e.ts == 5 && f.ts == 6
    ensures Matching([e, f], 5) == [e, f] && Matching([e, f], 6) == [f]
  {
    assert [e, f][1..] == [f] && [f][1..] == [];
    assert Matching([f], 5) == [f] + Matching([], 5) == [f];
    assert Matching([f], 6) == [f] + Matching([], 6) == [f];
  }

  lemma {:induction false} AbsorbPair(e: Event, f: Event)
    requires e.ts == 5 && f.ts == 6 && e.id != "" && f.id != "" && e.id != f.id
    ensures Absorb(EMPTY_VIEW, [f]) == View([f], {f.id}, 6)
    ensures Absorb(View([f], {f.id}, 6), [e, f]).events == [f, e]
  {
    assert Remember({}, f.id) == {f.id};
    assert Unseen({}, [f]) == [f];
    assert SeenAfter({}, [f]) == SeenAfter({f.id}, []) == {f.id};
    assert NewestTime(0, [f]) == 6;
    assert [e, f][1..] == [f];
    assert Unseen(Remember({f.id}, e.id), [f]) == [];
    assert Unseen({f.id}, [e, f]) == [e] + [] == [e];
    assert [] + [f] == [f] && [f] + [e] == [f, e];
  }

  lemma {:induction false} TwoEventLog(e: Event, f: Event)
    requires 0 < e.ts <= f.ts && e.id != "" && f.id != "" && e.id != f.id
    ensures GoodLog([e, f])
  {
  }

  /** Both replies are answered, then delivered in the wrong order. */
  lemma {:induction false} Overtake(e: Event, f: Event)
    requires GoodLog([e, f]) && e.ts == 5 && f.ts == 6
    ensures var s := State([e, f], 16, 10, EMPTY_VIEW, [Waiting(5, true), Waiting(6, true)]);
            var steps := [Answer(0, 2)] + ([Answer(1, 1)] + ([Deliver(1)] + ([Deliver(0)] + [])));
            EnabledRun(s, steps) && Final(s, steps).view.events == [f, e]
  {
    var p, q := Answered(5, true, [e, f]), Answered(6, true, [f]);
    var s0 := State([e, f], 16, 10, EMPTY_VIEW, [Waiting(5, true), Waiting(6, true)]);
    var s1 := s0.(polls := [p, Waiting(6, true)]);
    var s2 := s0.(polls := [p, q]);
    var s3 := s0.(polls := [p], view := View([f], {f.id}, 6));
    MatchingPair(e, f);
    AbsorbPair(e, f);
    assert [e, f][0].id != [e, f][1].id && [e, f][0].id != "" && [e, f][1].id != "";
    assert [e, f][..2] == [e, f] && [f][..1] == [f];
    assert AnswerTo([e, f], Waiting(5, true), 2) == p && AnswerTo([e, f], Waiting(6, true), 1) == q;
    assert Next(s0, Answer(0, 2)).polls == s1.polls;
    assert Next(s1, Answer(1, 1)).polls == s2.polls;
    assert Without([p, q], 1) == [p];
    RunStep(s3, Deliver(0), []);
    RunStep(s2, Deliver(1), [Deliver(0)] + []);
    RunStep(s1, Answer(1, 1), [Deliver(1)] + ([Deliver(0)] + []));
    RunStep(s0, Answer(0, 2), [Answer(1, 1)] + ([Deliver(1)] + ([Deliver(0)] + [])));
  }

  /** The second poll is issued one tick after the first, nothing shown yet. */
  lemma {:induction false} PollTwice(log: seq<Event>, rest: seq<Step>)
    requires EnabledRun(State(log, 16, 10, EMPTY_VIEW, [Waiting(5, true), Waiting(6, true)]), rest)
    ensures var s := State(log, 15, 10, EMPTY_VIEW, []);
            var steps := [Issue] + ([Pass(1)] + ([Issue] + rest));
            && EnabledRun(s, steps)
            && Final(s, steps) == Final(State(log, 16, 10, EMPTY_VIEW, [Waiting(5, true), Waiting(6, true)]), rest)
  {
    var s := State(log, 15, 10, EMPTY_VIEW, []);
    var s1 := s.(polls := [Waiting(5, true)]);
    var s2 := s1.(now := 16);
    var s3 := s2.(polls := [Waiting(5, true), Waiting(6, true)]);
    assert Next(s, Issue).polls == s1.polls;
    assert Next(s2, Issue).polls == s3.polls;
    RunStep(s2, Issue, rest);
    RunStep(s1, Pass(1), [Issue] + rest);
    RunStep(s, Issue, [Pass(1)] + ([Issue] + rest));
  }

  /** The run of Overtake, begun from a viewer that was just opened. */
  lemma {:induction false} OvertakenRun(e: Event, f: Event, s: State, steps: seq<Step>)
    requires e.ts == 5 && f.ts == 6 && GoodLog([e, f])
    requires s == State([e, f], 15, 10, EMPTY_VIEW, [])
    requires steps == [Issue] + ([Pass(1)] + ([Issue]
      + ([Answer(0, 2)] + ([Answer(1, 1)] + ([Deliver(1)] + ([Deliver(0)] + []))))))
    ensures Opened(s) && EnabledRun(s, steps) && !TimeSorted(Final(s, steps).view.events)
  {
    Overtake(e, f);
    PollTwice([e, f], [Answer(0, 2)] + ([Answer(1, 1)] + ([Deliver(1)] + ([Deliver(0)] + []))));
    assert [f, e][0].ts > [f, e][1].ts;
  }

  /**
    Two backfill polls, the second one issued before the first was answered
    and so over a window that has moved on: when its reply overtakes, the older
    event is appended below the newer one.
  */
  lemma {:induction false} OvertakenBackfillBreaksOrder()
    ensures exists s, steps :: Opened(s) && EnabledRun(s, steps) && !TimeSorted(Final(s, steps).view.events)
  {
    var e, f := Event("e", 5, ""), Event("f", 6, "");
    TwoEventLog(e, f);
    var s := State([e, f], 15, 10, EMPTY_VIEW, []);
    var steps := [Issue] + ([Pass(1)] + ([Issue]
      + ([Answer(0, 2)] + ([Answer(1, 1)] + ([Deliver(1)] + ([Deliver(0)] + []))))));
    OvertakenRun(e, f, s, steps);
  }
}
