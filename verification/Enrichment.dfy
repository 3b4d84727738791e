/**
  Filling in cluster details with bounded concurrency, region by region, and
  merging the regions under a lock. Every interleaving of the goroutines' steps
  is a run.
*/
module Enrichment {

  const DESCRIBE_CONCURRENCY := 8

  datatype Cluster = Cluster(id: string, name: string, region: string, detailKnown: bool, detail: string)

  /** What DescribeCluster answers: the detail, or an error (or no cluster). */
  datatype Reply = Described(detail: string) | NotDescribed

  type Replies = nat -> Reply

  function ApplyDetail(c: Cluster, reply: Reply): Cluster {
    if reply.Described? then c.(detailKnown := true, detail := reply.detail) else c
  }

  // ---- one region -----------------------------------------------------------------------

  /**
    A worker goroutine: in DescribeCluster with a semaphore slot, result
    recorded, slot given back, gone. Idle ones were not started.
  */
  datatype Phase = Idle | Calling | Recorded | Released | Gone

  /**
    The main goroutine is at cluster `next`; `acquiring` means it has counted
    the worker in and waits for a slot. `calls` counts requests per cluster.
  */
  datatype Run = Run(clusters: seq<Cluster>, phases: seq<Phase>, calls: seq<nat>,
                     next: nat, acquiring: bool, slots: int, awaited: int, fails: nat, returned: bool)

  datatype Step = Skip | CountIn | Spawn | Record(i: nat) | Release(i: nat) | Leave(i: nat) | Return

  function Started(skeleton: seq<Cluster>): Run {
    Run(skeleton, seq(|skeleton|, i => Idle), seq(|skeleton|, i => 0), 0, false, 0, 0, 0, false)
  }

  predicate Enabled(r: Run, step: Step) {
    && !r.returned && |r.phases| == |r.clusters| == |r.calls|
    && match step
       case Skip => r.next < |r.clusters| && r.clusters[r.next].id == ""
       case CountIn => r.next < |r.clusters| && r.clusters[r.next].id != "" && !r.acquiring
       case Spawn => r.next < |r.clusters| && r.acquiring && r.slots < DESCRIBE_CONCURRENCY
       case Record(i) => i < |r.phases| && r.phases[i] == Calling
       case Release(i) => i < |r.phases| && r.phases[i] == Recorded
       case Leave(i) => i < |r.phases| && r.phases[i] == Released
       case Return => r.next == |r.clusters| && r.awaited == 0
  }

  function Next(r: Run, replies: Replies, step: Step): Run
    requires Enabled(r, step)
  {
    match step
    case Skip => r.(next := r.next + 1)
    case CountIn => r.(acquiring := true, awaited := r.awaited + 1)
    case Spawn =>
      r.(acquiring := false, slots := r.slots + 1, next := r.next + 1,
         phases := r.phases[r.next := Calling], calls := r.calls[r.next := r.calls[r.next] + 1])
    case Record(i) =>
      r.(phases := r.phases[i := Recorded], clusters := r.clusters[i := ApplyDetail(r.clusters[i], replies(i))],
         fails := if replies(i).Described? then r.fails else r.fails + 1)
    case Release(i) => r.(phases := r.phases[i := Released], slots := r.slots - 1)
    case Leave(i) => r.(phases := r.phases[i := Gone], awaited := r.awaited - 1)
    case Return => r.(returned := true)
  }

  predicate EnabledRun(r: Run, replies: Replies, steps: seq<Step>)
    decreases steps
  {
    steps != [] ==> Enabled(r, steps[0]) && EnabledRun(Next(r, replies, steps[0]), replies, steps[1..])
  }

  function After(r: Run, replies: Replies, steps: seq<Step>): Run
    requires EnabledRun(r, replies, steps)
    decreases steps
  {
    if steps == [] then r else After(Next(r, replies, steps[0]), replies, steps[1..])
  }

  // ---- the sequential reference ------------------------------------------------------------

  function EnrichAll(skeleton: seq<Cluster>, replies: Replies): (out: seq<Cluster>)
    ensures |out| == |skeleton|
  {
    seq(|skeleton|, i requires 0 <= i < |skeleton| =>
      if skeleton[i].id == "" then skeleton[i] else ApplyDetail(skeleton[i], replies(i)))
  }

  /** Clusters with an id whose detail is not known. */
  function Unknown(clusters: seq<Cluster>): nat {
    if clusters == [] then 0
    else
      var n := |clusters| - 1;
      Unknown(clusters[..n]) + (if clusters[n].id != "" && !clusters[n].detailKnown then 1 else 0)
  }

  // ---- counting workers ----------------------------------------------------------------------

  function Weigh(phases: seq<Phase>, w: Phase -> nat): nat {
    if phases == [] then 0 else w(phases[0]) + Weigh(phases[1..], w)
  }

  function HoldsSlot(p: Phase): nat {
    if p == Calling || p == Recorded then 1 else 0
  }

  function Awaited(p: Phase): nat {
    if p == Calling || p == Recorded || p == Released then 1 else 0
  }

  lemma {:induction false} WeighUpdate(phases: seq<Phase>, i: nat, p: Phase, w: Phase -> nat)
    requires i < |phases|
    ensures Weigh(phases[i := p], w) == Weigh(phases, w) - w(phases[i]) + w(p)
  {
    if i > 0 {
      WeighUpdate(phases[1..], i - 1, p, w);
      assert phases[i := p][1..] == phases[1..][i - 1 := p];
    }
  }

  lemma {:induction false} WeighZeroIff(phases: seq<Phase>, w: Phase -> nat)
    ensures Weigh(phases, w) == 0 <==> forall i :: 0 <= i < |phases| ==> w(phases[i]) == 0
  {
    if phases != [] {
      WeighZeroIff(phases[1..], w);
      assert forall i :: 0 < i < |phases| ==> phases[i] == phases[1..][i - 1];
    }
  }

  predicate Settled(p: Phase) {
    p == Recorded || p == Released || p == Gone
  }

  function FailedSoFar(phases: seq<Phase>, replies: Replies): nat {
    if phases == [] then 0
    else
      var n := |phases| - 1;
      FailedSoFar(phases[..n], replies) + (if Settled(phases[n]) && replies(n).NotDescribed? then 1 else 0)
  }

  lemma {:induction false} FailedUpdate(phases: seq<Phase>, replies: Replies, i: nat, p: Phase)
    requires i < |phases|
    ensures FailedSoFar(phases[i := p], replies) == FailedSoFar(phases, replies)
      - (if Settled(phases[i]) && replies(i).NotDescribed? then 1 else 0)
      + (if Settled(p) && replies(i).NotDescribed? then 1 else 0)
  {
    var n := |phases| - 1;
    if i < n {
      FailedUpdate(phases[..n], replies, i, p);
      assert phases[i := p][..n] == phases[..n][i := p];
    } else {
      assert phases[i := p][..n] == phases[..n];
    }
  }

  // ---- what every step keeps -------------------------------------------------------------------

  ghost predicate Inv(r: Run, skeleton: seq<Cluster>, replies: Replies) {
    && |r.clusters| == |r.phases| == |r.calls| == |skeleton|
    && r.next <= |skeleton|
    && r.slots == Weigh(r.phases, HoldsSlot)
    && r.slots <= DESCRIBE_CONCURRENCY
    && r.awaited == Weigh(r.phases, Awaited) + (if r.acquiring then 1 else 0)
    && r.fails == FailedSoFar(r.phases, replies)
    && (r.acquiring ==> r.next < |skeleton| && skeleton[r.next].id != "")
    && (forall i :: 0 <= i < |skeleton| ==> CellOk(r, skeleton, replies, i))
    && (r.returned ==> r.next == |skeleton| && r.awaited == 0)
  }

  ghost predicate CellOk(r: Run, skeleton: seq<Cluster>, replies: Replies, i: nat)
    requires |r.clusters| == |r.phases| == |r.calls| == |skeleton| && i < |skeleton|
  {
    && (r.phases[i] == Idle <==> i >= r.next || skeleton[i].id == "")
    && r.calls[i] == (if r.phases[i] == Idle then 0 else 1)
    && r.clusters[i] == (if Settled(r.phases[i]) then ApplyDetail(skeleton[i], replies(i)) else skeleton[i])
  }

  lemma {:induction false} StartedOk(skeleton: seq<Cluster>, replies: Replies)
    ensures Inv(Started(skeleton), skeleton, replies)
  {
    var r := Started(skeleton);
    WeighZeroIff(r.phases, HoldsSlot);
    WeighZeroIff(r.phases, Awaited);
    NoneFailed(r.phases, replies);
  }

  lemma {:induction false} NoneFailed(phases: seq<Phase>, replies: Replies)
    requires forall i :: 0 <= i < |phases| ==> phases[i] == Idle
    ensures FailedSoFar(phases, replies) == 0
  {
    if phases != [] {
      NoneFailed(phases[..|phases| - 1], replies);
    }
  }

  lemma {:induction false} MainKeeps(r: Run, skeleton: seq<Cluster>, replies: Replies, step: Step)
    requires Inv(r, skeleton, replies) && Enabled(r, step) && (step == Skip || step == CountIn || step == Return)
    ensures Inv(Next(r, replies, step), skeleton, replies)
  {
    if r.next < |skeleton| {
      assert CellOk(r, skeleton, replies, r.next);
    }
    OthersOk(r, Next(r, replies, step), skeleton, replies, |skeleton|);
  }

  lemma {:induction false} SpawnKeeps(r: Run, skeleton: seq<Cluster>, replies: Replies)
    requires Inv(r, skeleton, replies) && Enabled(r, Spawn)
    ensures Inv(Next(r, replies, Spawn), skeleton, replies)
  {
    Moves(r, Next(r, replies, Spawn), skeleton, replies, r.next, Calling);
  }

  lemma {:induction false} WorkerKeeps(r: Run, skeleton: seq<Cluster>, replies: Replies, step: Step)
    requires Inv(r, skeleton, replies) && Enabled(r, step) && (step.Record? || step.Release? || step.Leave?)
    ensures Inv(Next(r, replies, step), skeleton, replies)
  {
    Moves(r, Next(r, replies, step), skeleton, replies, step.i, Next(r, replies, step).phases[step.i]);
  }

  lemma {:induction false} StepKeeps(r: Run, skeleton: seq<Cluster>, replies: Replies, step: Step)
    requires Inv(r, skeleton, replies) && Enabled(r, step)
    ensures Inv(Next(r, replies, step), skeleton, replies)
  {
    if step == Spawn {
      SpawnKeeps(r, skeleton, replies);
    } else if step.Record? || step.Release? || step.Leave? {
      WorkerKeeps(r, skeleton, replies, step);
    } else {
      MainKeeps(r, skeleton, replies, step);
    }
  }

  /** Cells whose parts did not change stay right. */
  lemma {:induction false} OthersOk(r: Run, r': Run, skeleton: seq<Cluster>, replies: Replies, moved: nat)
    requires Inv(r, skeleton, replies)
    requires |r'.clusters| == |r'.phases| == |r'.calls| == |skeleton|
    requires forall i :: 0 <= i < |skeleton| && i != moved ==>
               r'.clusters[i] == r.clusters[i] && r'.phases[i] == r.phases[i] && r'.calls[i] == r.calls[i]
    requires r'.next == r.next || (r'.next == r.next + 1 && (r.next == moved || (r.next < |skeleton| && skeleton[r.next].id == "")))
    ensures forall i :: 0 <= i < |skeleton| && i != moved ==> CellOk(r', skeleton, replies, i)
  {
    forall i | 0 <= i < |skeleton| && i != moved
      ensures CellOk(r', skeleton, replies, i)
    {
      assert CellOk(r, skeleton, replies, i);
    }
  }

  /** A worker moving one phase on changes the counts by its own weight. */
  lemma {:induction false} Moves(r: Run, r': Run, skeleton: seq<Cluster>, replies: Replies, i: nat, p: Phase)
    requires Inv(r, skeleton, replies) && i < |skeleton|
    requires r'.phases == r.phases[i := p]
    requires |r'.clusters| == |r'.calls| == |skeleton|
    requires forall j :: 0 <= j < |skeleton| && j != i ==> r'.clusters[j] == r.clusters[j] && r'.calls[j] == r.calls[j]
    requires r'.next == r.next || (r'.next == r.next + 1 && r.next == i)
    ensures CellOk(r, skeleton, replies, i)
    ensures forall j :: 0 <= j < |skeleton| && j != i ==> CellOk(r', skeleton, replies, j)
    ensures Weigh(r'.phases, HoldsSlot) == Weigh(r.phases, HoldsSlot) - HoldsSlot(r.phases[i]) + HoldsSlot(p)
    ensures Weigh(r'.phases, Awaited) == Weigh(r.phases, Awaited) - Awaited(r.phases[i]) + Awaited(p)
    ensures FailedSoFar(r'.phases, replies) == FailedSoFar(r.phases, replies)
      - (if Settled(r.phases[i]) && replies(i).NotDescribed? then 1 else 0)
      + (if Settled(p) && replies(i).NotDescribed? then 1 else 0)
  {
    WeighUpdate(r.phases, i, p, HoldsSlot);
    WeighUpdate(r.phases, i, p, Awaited);
    FailedUpdate(r.phases, replies, i, p);
    OthersOk(r, r', skeleton, replies, i);
  }

  lemma {:induction false} RunKeeps(r: Run, skeleton: seq<Cluster>, replies: Replies, steps: seq<Step>)
    requires Inv(r, skeleton, replies) && EnabledRun(r, replies, steps)
    ensures Inv(After(r, replies, steps), skeleton, replies)
    decreases steps
  {
    if steps != [] {
      StepKeeps(r, skeleton, replies, steps[0]);
      RunKeeps(Next(r, replies, steps[0]), skeleton, replies, steps[1..]);
    }
  }

  // ---- what it comes to ----------------------------------------------------------------------------

  lemma {:induction false} FailsAreUnknown(phases: seq<Phase>, clusters: seq<Cluster>, skeleton: seq<Cluster>, replies: Replies)
    requires |phases| == |clusters| == |skeleton|
    requires forall i :: 0 <= i < |skeleton| ==> !skeleton[i].detailKnown
    requires forall i :: 0 <= i < |skeleton| ==>
               (phases[i] == Gone <==> skeleton[i].id != "") && (phases[i] == Gone || phases[i] == Idle)
    requires forall i :: 0 <= i < |skeleton| ==>
               clusters[i] == if phases[i] == Gone then ApplyDetail(skeleton[i], replies(i)) else skeleton[i]
    ensures FailedSoFar(phases, replies) == Unknown(clusters)
  {
    if phases != [] {
      var n := |phases| - 1;
      FailsAreUnknown(phases[..n], clusters[..n], skeleton[..n], replies);
    }
  }

  /** A region that has returned holds what a sequential pass would. */
  lemma {:induction false} ReturnedIsSequential(r: Run, skeleton: seq<Cluster>, replies: Replies)
    requires Inv(r, skeleton, replies) && r.returned
    requires forall i :: 0 <= i < |skeleton| ==> !skeleton[i].detailKnown
    ensures r.clusters == EnrichAll(skeleton, replies) && r.fails == Unknown(r.clusters)
    ensures forall i :: 0 <= i < |skeleton| ==> r.calls[i] == if skeleton[i].id == "" then 0 else 1
  {
    WeighZeroIff(r.phases, Awaited);
    forall i | 0 <= i < |skeleton|
      ensures r.phases[i] == if skeleton[i].id == "" then Idle else Gone
      ensures r.clusters[i] == if skeleton[i].id == "" then skeleton[i] else ApplyDetail(skeleton[i], replies(i))
      ensures r.calls[i] == if skeleton[i].id == "" then 0 else 1
    {
      assert CellOk(r, skeleton, replies, i) && Awaited(r.phases[i]) == 0;
    }
    FailsAreUnknown(r.phases, r.clusters, skeleton, replies);
  }

  /** The clusters being described at this moment. */
  function Busy(phases: seq<Phase>): set<nat> {
    set i: nat | i < |phases| && phases[i] == Calling
  }

  lemma {:induction false} WeighSnoc(phases: seq<Phase>, p: Phase, w: Phase -> nat)
    ensures Weigh(phases + [p], w) == Weigh(phases, w) + w(p)
  {
    if phases == [] {
      assert [p][1..] == [] && [] + [p] == [p];
    } else {
      WeighSnoc(phases[1..], p, w);
      assert (phases + [p])[1..] == phases[1..] + [p];
    }
  }

  lemma {:induction false} BusyHoldSlots(phases: seq<Phase>)
    ensures |Busy(phases)| <= Weigh(phases, HoldsSlot)
    decreases |phases|
  {
    if phases == [] {
      assert Busy(phases) == {};
    } else {
      var n := |phases| - 1;
      var init := phases[..n];
      BusyHoldSlots(init);
      WeighSnoc(init, phases[n], HoldsSlot);
      assert phases == init + [phases[n]];
      if phases[n] == Calling {
        assert Busy(phases) == Busy(init) + {n};
      } else {
        assert Busy(phases) == Busy(init);
      }
    }
  }

  /** What a sequential pass leaves: the answered details filled in, and nothing else touched. */
  lemma {:induction false} SequentialFillsIn(skeleton: seq<Cluster>, replies: Replies, i: nat)
    requires i < |skeleton|
    ensures EnrichAll(skeleton, replies)[i] ==
            if skeleton[i].id != "" && replies(i).Described?
            then Cluster(skeleton[i].id, skeleton[i].name, skeleton[i].region, true, replies(i).detail)
            else skeleton[i]
  {
  }

  /**
    Whatever the schedule: never more than eight calls at once, each cluster
    described at most once, and on return each one with an id exactly once, the
    clusters as a sequential pass leaves them, the failure count being the number
    of clusters whose detail stayed unknown.
  */
  lemma {:induction false} EverySchedule(skeleton: seq<Cluster>, replies: Replies, steps: seq<Step>)
    requires EnabledRun(Started(skeleton), replies, steps)
    requires forall i :: 0 <= i < |skeleton| ==> !skeleton[i].detailKnown
    ensures var r := After(Started(skeleton), replies, steps);
            && |Busy(r.phases)| <= 8
            && |r.calls| == |skeleton| && (forall i :: 0 <= i < |skeleton| ==> r.calls[i] <= 1)
            && (r.returned ==>
                  && (forall i :: 0 <= i < |skeleton| ==> r.calls[i] == if skeleton[i].id == "" then 0 else 1)
                  && r.clusters == EnrichAll(skeleton, replies)
                  && r.fails == Unknown(r.clusters))
  {
    StartedOk(skeleton, replies);
    RunKeeps(Started(skeleton), skeleton, replies, steps);
    var r := After(Started(skeleton), replies, steps);
    BusyHoldSlots(r.phases);
    forall i | 0 <= i < |skeleton|
      ensures r.calls[i] <= 1
    {
      assert CellOk(r, skeleton, replies, i);
    }
    if r.returned {
      ReturnedIsSequential(r, skeleton, replies);
    }
  }

  /** The semaphore cannot deadlock: until it returns, some goroutine can move. */
  lemma {:induction false} NoDeadlock(r: Run, skeleton: seq<Cluster>, replies: Replies)
    requires Inv(r, skeleton, replies) && !r.returned
    ensures exists step :: Enabled(r, step)
  {
    WeighZeroIff(r.phases, Awaited);
    if r.awaited - (if r.acquiring then 1 else 0) > 0 {
      var i :| 0 <= i < |r.phases| && Awaited(r.phases[i]) != 0;
      var step := if r.phases[i] == Calling then Record(i) else if r.phases[i] == Recorded then Release(i) else Leave(i);
      assert Enabled(r, step);
    } else {
      WeighZeroIff(r.phases, HoldsSlot);
      assert r.slots == 0;
      if r.next == |skeleton| {
        assert Enabled(r, Return);
      } else {
        assert CellOk(r, skeleton, replies, r.next);
        assert Enabled(r, if r.clusters[r.next].id == "" then Skip else if r.acquiring then Spawn else CountIn);
      }
    }
  }

  /** Steps a worker has left. */
  function Left(p: Phase): nat {
    match p
    case Calling => 3
    case Recorded => 2
    case Released => 1
    case _ => 0
  }

  /** Steps a region has left at most: five per cluster not reached yet, what the workers still do, and the return. */
  function StepsLeft(r: Run): int {
    5 * (|r.clusters| - r.next) + Weigh(r.phases, Left)
    + (if r.acquiring then 0 else 1) + (if r.returned then 0 else 1)
  }

  lemma {:induction false} StepsRunOut(r: Run, skeleton: seq<Cluster>, replies: Replies, step: Step)
    requires Inv(r, skeleton, replies) && Enabled(r, step)
    ensures StepsLeft(Next(r, replies, step)) < StepsLeft(r)
  {
    if step == Spawn {
      assert CellOk(r, skeleton, replies, r.next);
      WeighUpdate(r.phases, r.next, Calling, Left);
    } else if step.Record? || step.Release? || step.Leave? {
      WeighUpdate(r.phases, step.i, Next(r, replies, step).phases[step.i], Left);
    }
  }

  lemma {:induction false} RunIsBounded(r: Run, skeleton: seq<Cluster>, replies: Replies, steps: seq<Step>)
    requires Inv(r, skeleton, replies) && EnabledRun(r, replies, steps)
    ensures |steps| <= StepsLeft(r)
    decreases steps
  {
    if steps != [] {
      StepKeeps(r, skeleton, replies, steps[0]);
      StepsRunOut(r, skeleton, replies, steps[0]);
      RunIsBounded(Next(r, replies, steps[0]), skeleton, replies, steps[1..]);
    }
  }

  /** No schedule goes on for ever, and one that cannot go on has returned. */
  lemma {:induction false} EveryScheduleReturns(skeleton: seq<Cluster>, replies: Replies, steps: seq<Step>)
    requires EnabledRun(Started(skeleton), replies, steps)
    ensures |steps| <= 5 * |skeleton| + 2
    ensures (forall step :: !Enabled(After(Started(skeleton), replies, steps), step)) <==>
            After(Started(skeleton), replies, steps).returned
  {
    StartedOk(skeleton, replies);
    WeighZeroIff(Started(skeleton).phases, Left);
    RunIsBounded(Started(skeleton), skeleton, replies, steps);
    RunKeeps(Started(skeleton), skeleton, replies, steps);
    if !After(Started(skeleton), replies, steps).returned {
      NoDeadlock(After(Started(skeleton), replies, steps), skeleton, replies);
    }
  }

  // ---- all regions ------------------------------------------------------------------------------------

  /** What listing a region gave. */
  datatype Listing = Listed(skeleton: seq<Cluster>) | ListFailed

  /** The inventory being merged; `done[r]` says region r's goroutine has merged its result. */
  datatype Load = Load(runs: seq<Run>, done: seq<bool>, clusters: multiset<Cluster>, enrichFails: int,
                       failures: int, firstError: int)

  datatype LoadStep = Work(r: nat, step: Step) | MergeIn(r: nat)

  const NO_ERROR := -1

  function Skeleton(l: Listing): seq<Cluster> {
    if l.Listed? then l.skeleton else []
  }

  function LoadStarted(listings: seq<Listing>): Load {
    Load(seq(|listings|, r requires 0 <= r < |listings| => Started(Skeleton(listings[r]))),
         seq(|listings|, r => false), multiset{}, 0, 0, NO_ERROR)
  }

  predicate LoadEnabled(l: Load, listings: seq<Listing>, step: LoadStep) {
    && |l.runs| == |l.done| == |listings|
    && step.r < |listings| && !l.done[step.r]
    && match step
       case Work(r, s) => listings[r].Listed? && Enabled(l.runs[r], s)
       case MergeIn(r) => listings[r].ListFailed? || l.runs[r].returned
  }

  function LoadNext(l: Load, listings: seq<Listing>, replies: nat -> Replies, step: LoadStep): Load
    requires LoadEnabled(l, listings, step)
  {
    match step
    case Work(r, s) => l.(runs := l.runs[r := Next(l.runs[r], replies(r), s)])
    case MergeIn(r) =>
      if listings[r].ListFailed? then
        l.(done := l.done[r := true], failures := l.failures + 1,
           firstError := if l.firstError == NO_ERROR then r else l.firstError)
      else
        l.(done := l.done[r := true], clusters := l.clusters + multiset(l.runs[r].clusters),
           enrichFails := l.enrichFails + l.runs[r].fails)
  }

  predicate LoadEnabledRun(l: Load, listings: seq<Listing>, replies: nat -> Replies, steps: seq<LoadStep>)
    decreases steps
  {
    steps != [] ==> LoadEnabled(l, listings, steps[0])
                    && LoadEnabledRun(LoadNext(l, listings, replies, steps[0]), listings, replies, steps[1..])
  }

  function LoadAfter(l: Load, listings: seq<Listing>, replies: nat -> Replies, steps: seq<LoadStep>): Load
    requires LoadEnabledRun(l, listings, replies, steps)
    decreases steps
  {
    if steps == [] then l else LoadAfter(LoadNext(l, listings, replies, steps[0]), listings, replies, steps[1..])
  }

  /** What the regions marked in `done` add up to when each is enriched one cluster at a time. */
  function Total(listings: seq<Listing>, replies: nat -> Replies, done: seq<bool>): multiset<Cluster>
    requires |done| == |listings|
  {
    if listings == [] then multiset{}
    else
      var n := |listings| - 1;
      Total(listings[..n], replies, done[..n])
      + (if done[n] then Part(listings, replies, n) else multiset{})
  }

  /** What one region brings when enriched one cluster at a time. */
  function Part(listings: seq<Listing>, replies: nat -> Replies, r: nat): multiset<Cluster>
    requires r < |listings|
  {
    if listings[r].Listed? then multiset(EnrichAll(listings[r].skeleton, replies(r))) else multiset{}
  }

  lemma {:induction false} SwapParts(a: multiset<Cluster>, b: multiset<Cluster>, c: multiset<Cluster>)
    ensures a + b + c == a + c + b
  {
  }

  function TotalUnknown(listings: seq<Listing>, replies: nat -> Replies, done: seq<bool>): int
    requires |done| == |listings|
  {
    if listings == [] then 0
    else
      var n := |listings| - 1;
      TotalUnknown(listings[..n], replies, done[..n])
      + (if done[n] && listings[n].Listed? then Unknown(EnrichAll(listings[n].skeleton, replies(n))) else 0)
  }

  function FailedIn(listings: seq<Listing>, done: seq<bool>): int
    requires |done| == |listings|
  {
    if listings == [] then 0
    else
      var n := |listings| - 1;
      FailedIn(listings[..n], done[..n]) + (if done[n] && listings[n].ListFailed? then 1 else 0)
  }

  lemma {:induction false} TotalMark(listings: seq<Listing>, replies: nat -> Replies, done: seq<bool>, r: nat)
    requires |done| == |listings| && r < |listings| && !done[r]
    ensures Total(listings, replies, done[r := true]) == Total(listings, replies, done) + Part(listings, replies, r)
  {
    var n := |listings| - 1;
    if r < n {
      TotalMark(listings[..n], replies, done[..n], r);
      assert done[r := true][..n] == done[..n][r := true];
      SwapParts(Total(listings[..n], replies, done[..n]), Part(listings, replies, r),
                if done[n] then Part(listings, replies, n) else multiset{});
    } else {
      assert done[r := true][..n] == done[..n];
    }
  }

  lemma {:induction false} UnknownMark(listings: seq<Listing>, replies: nat -> Replies, done: seq<bool>, r: nat)
    requires |done| == |listings| && r < |listings| && !done[r]
    ensures TotalUnknown(listings, replies, done[r := true]) == TotalUnknown(listings, replies, done)
      + (if listings[r].Listed? then Unknown(EnrichAll(listings[r].skeleton, replies(r))) else 0)
  {
    var n := |listings| - 1;
    if r < n {
      UnknownMark(listings[..n], replies, done[..n], r);
      assert done[r := true][..n] == done[..n][r := true];
    } else {
      assert done[r := true][..n] == done[..n];
    }
  }

  lemma {:induction false} FailedMark(listings: seq<Listing>, done: seq<bool>, r: nat)
    requires |done| == |listings| && r < |listings| && !done[r]
    ensures FailedIn(listings, done[r := true]) == FailedIn(listings, done) + (if listings[r].ListFailed? then 1 else 0)
  {
    var n := |listings| - 1;
    if r < n {
      FailedMark(listings[..n], done[..n], r);
      assert done[r := true][..n] == done[..n][r := true];
    } else {
      assert done[r := true][..n] == done[..n];
    }
  }

  ghost predicate Skeletons(listings: seq<Listing>) {
    forall r :: 0 <= r < |listings| && listings[r].Listed? ==>
      forall i :: 0 <= i < |listings[r].skeleton| ==> !listings[r].skeleton[i].detailKnown
  }

  ghost predicate RunsOk(runs: seq<Run>, listings: seq<Listing>, replies: nat -> Replies) {
    && |runs| == |listings|
    && forall r :: 0 <= r < |listings| ==> Inv(runs[r], Skeleton(listings[r]), replies(r))
  }

  ghost predicate TallyOk(l: Load, listings: seq<Listing>, replies: nat -> Replies) {
    && |l.done| == |listings|
    && l.clusters == Total(listings, replies, l.done)
    && l.enrichFails == TotalUnknown(listings, replies, l.done)
    && l.failures == FailedIn(listings, l.done)
    && (l.firstError == NO_ERROR <==> l.failures == 0)
  }

  ghost predicate LoadInv(l: Load, listings: seq<Listing>, replies: nat -> Replies) {
    RunsOk(l.runs, listings, replies) && TallyOk(l, listings, replies)
  }

  lemma {:induction false} FailedNonNegative(listings: seq<Listing>, done: seq<bool>)
    requires |done| == |listings|
    ensures 0 <= FailedIn(listings, done) <= |listings|
    ensures FailedIn(listings, done) == |listings| ==> forall r :: 0 <= r < |listings| ==> listings[r].ListFailed?
    ensures (forall r :: 0 <= r < |listings| ==> done[r] && listings[r].ListFailed?) ==> FailedIn(listings, done) == |listings|
  {
    if listings != [] {
      var n := |listings| - 1;
      FailedNonNegative(listings[..n], done[..n]);
      if FailedIn(listings, done) == |listings| {
        forall r | 0 <= r < |listings|
          ensures listings[r].ListFailed?
        {
          if r < n { assert listings[..n][r] == listings[r]; }
        }
      }
    }
  }

  lemma {:induction false} WorkKeeps(l: Load, listings: seq<Listing>, replies: nat -> Replies, r: nat, s: Step)
    requires LoadInv(l, listings, replies) && LoadEnabled(l, listings, Work(r, s))
    ensures LoadInv(LoadNext(l, listings, replies, Work(r, s)), listings, replies)
  {
    StepKeeps(l.runs[r], Skeleton(listings[r]), replies(r), s);
    var l' := LoadNext(l, listings, replies, Work(r, s));
    forall q | 0 <= q < |listings|
      ensures Inv(l'.runs[q], Skeleton(listings[q]), replies(q))
    {
      if q != r {
        assert l'.runs[q] == l.runs[q];
      }
    }
  }

  lemma {:induction false} MergeKeeps(l: Load, listings: seq<Listing>, replies: nat -> Replies, r: nat)
    requires LoadInv(l, listings, replies) && Skeletons(listings) && LoadEnabled(l, listings, MergeIn(r))
    ensures LoadInv(LoadNext(l, listings, replies, MergeIn(r)), listings, replies)
  {
    if listings[r].Listed? {
      assert Inv(l.runs[r], Skeleton(listings[r]), replies(r));
      ReturnedIsSequential(l.runs[r], listings[r].skeleton, replies(r));
    }
    Tally(l, listings, replies, r);
  }

  lemma {:induction false} Tally(l: Load, listings: seq<Listing>, replies: nat -> Replies, r: nat)
    requires TallyOk(l, listings, replies) && LoadEnabled(l, listings, MergeIn(r))
    requires listings[r].Listed? ==>
               l.runs[r].clusters == EnrichAll(listings[r].skeleton, replies(r)) && l.runs[r].fails == Unknown(l.runs[r].clusters)
    ensures TallyOk(LoadNext(l, listings, replies, MergeIn(r)), listings, replies)
  {
    TotalMark(listings, replies, l.done, r);
    UnknownMark(listings, replies, l.done, r);
    FailedMark(listings, l.done, r);
    FailedNonNegative(listings, l.done);
    var l' := LoadNext(l, listings, replies, MergeIn(r));
    assert l'.done == l.done[r := true];
    assert l'.firstError != NO_ERROR <==> listings[r].ListFailed? || l.firstError != NO_ERROR;
  }

  lemma {:induction false} LoadStepKeeps(l: Load, listings: seq<Listing>, replies: nat -> Replies, step: LoadStep)
    requires LoadInv(l, listings, replies) && Skeletons(listings) && LoadEnabled(l, listings, step)
    ensures LoadInv(LoadNext(l, listings, replies, step), listings, replies)
  {
    match step
    case Work(r, s) => WorkKeeps(l, listings, replies, r, s);
    case MergeIn(r) => MergeKeeps(l, listings, replies, r);
  }

  lemma {:induction false} LoadRunKeeps(l: Load, listings: seq<Listing>, replies: nat -> Replies, steps: seq<LoadStep>)
    requires LoadInv(l, listings, replies) && Skeletons(listings) && LoadEnabledRun(l, listings, replies, steps)
    ensures LoadInv(LoadAfter(l, listings, replies, steps), listings, replies)
    decreases steps
  {
    if steps != [] {
      LoadStepKeeps(l, listings, replies, steps[0]);
      LoadRunKeeps(LoadNext(l, listings, replies, steps[0]), listings, replies, steps[1..]);
    }
  }

  lemma {:induction false} LoadStartedOk(listings: seq<Listing>, replies: nat -> Replies)
    ensures LoadInv(LoadStarted(listings), listings, replies)
  {
    forall r | 0 <= r < |listings|
      ensures Inv(LoadStarted(listings).runs[r], Skeleton(listings[r]), replies(r))
    {
      StartedOk(Skeleton(listings[r]), replies(r));
    }
    NothingDone(listings, replies, LoadStarted(listings).done);
  }

  lemma {:induction false} NothingDone(listings: seq<Listing>, replies: nat -> Replies, done: seq<bool>)
    requires |done| == |listings| && forall r :: 0 <= r < |done| ==> !done[r]
    ensures Total(listings, replies, done) == multiset{} && TotalUnknown(listings, replies, done) == 0 && FailedIn(listings, done) == 0
  {
    if listings != [] {
      var n := |listings| - 1;
      NothingDone(listings[..n], replies, done[..n]);
    }
  }

  /** The outcome once every region's goroutine is done. */
  predicate LoadFails(l: Load) {
    l.failures == |l.done| && l.firstError != NO_ERROR
  }

  /** Every region's goroutine has merged its result. */
  ghost predicate AllDone(l: Load, listings: seq<Listing>) {
    l.done == seq(|listings|, r => true)
  }

  lemma {:induction false} DoneMeansTotal(l: Load, listings: seq<Listing>, replies: nat -> Replies)
    requires LoadInv(l, listings, replies) && AllDone(l, listings)
    ensures LoadFails(l) <==> listings != [] && forall r :: 0 <= r < |listings| ==> listings[r].ListFailed?
    ensures l.clusters == Total(listings, replies, seq(|listings|, r => true))
    ensures l.enrichFails == TotalUnknown(listings, replies, seq(|listings|, r => true))
  {
    FailedNonNegative(listings, l.done);
  }

  /**
    Whatever the schedule, the load fails exactly when there are regions and
    each failed to list; otherwise it holds the clusters, as a multiset, and the
    failure count of a sequential run over the regions that did list.
  */
  lemma {:induction false} LoadMatchesSequential(listings: seq<Listing>, replies: nat -> Replies, steps: seq<LoadStep>)
    requires Skeletons(listings) && LoadEnabledRun(LoadStarted(listings), listings, replies, steps)
    ensures var l := LoadAfter(LoadStarted(listings), listings, replies, steps);
            AllDone(l, listings) ==>
              && (LoadFails(l) <==> listings != [] && forall r :: 0 <= r < |listings| ==> listings[r].ListFailed?)
              && l.clusters == multiset(AllEnriched(listings, replies))
              && l.enrichFails == Unknown(AllEnriched(listings, replies))
  {
    LoadStartedOk(listings, replies);
    LoadRunKeeps(LoadStarted(listings), listings, replies, steps);
    var l := LoadAfter(LoadStarted(listings), listings, replies, steps);
    if AllDone(l, listings) {
      DoneMeansTotal(l, listings, replies);
      TotalsOfAll(listings, replies, seq(|listings|, r => true));
    }
  }

  /** The clusters of all regions, region after region, each enriched one at a time. */
  function AllEnriched(listings: seq<Listing>, replies: nat -> Replies): seq<Cluster> {
    if listings == [] then []
    else
      var n := |listings| - 1;
      AllEnriched(listings[..n], replies) + EnrichAll(Skeleton(listings[n]), replies(n))
  }

  lemma {:induction false} UnknownConcat(a: seq<Cluster>, b: seq<Cluster>)
    ensures Unknown(a + b) == Unknown(a) + Unknown(b)
    decreases |b|
  {
    if b == [] {
      assert a + b == a;
    } else {
      var init := b[..|b| - 1];
      UnknownConcat(a, init);
      assert (a + b)[..|a + b| - 1] == a + init;
    }
  }

  lemma {:induction false} TotalsOfAll(listings: seq<Listing>, replies: nat -> Replies, done: seq<bool>)
    requires |done| == |listings| && forall r :: 0 <= r < |done| ==> done[r]
    ensures Total(listings, replies, done) == multiset(AllEnriched(listings, replies))
    ensures TotalUnknown(listings, replies, done) == Unknown(AllEnriched(listings, replies))
  {
    if listings != [] {
      var n := |listings| - 1;
      TotalsOfAll(listings[..n], replies, done[..n]);
      UnknownConcat(AllEnriched(listings[..n], replies), EnrichAll(Skeleton(listings[n]), replies(n)));
    }
  }

  /** The failing region a schedule merges first. */
  function FirstFailure(listings: seq<Listing>, steps: seq<LoadStep>): int {
    if steps == [] then NO_ERROR
    else if steps[0].MergeIn? && steps[0].r < |listings| && listings[steps[0].r].ListFailed? then steps[0].r
    else FirstFailure(listings, steps[1..])
  }

  lemma {:induction false} ErrorStays(l: Load, listings: seq<Listing>, replies: nat -> Replies, steps: seq<LoadStep>)
    requires LoadEnabledRun(l, listings, replies, steps)
    ensures LoadAfter(l, listings, replies, steps).firstError ==
            if l.firstError != NO_ERROR then l.firstError else FirstFailure(listings, steps)
    decreases steps
  {
    if steps != [] {
      ErrorStays(LoadNext(l, listings, replies, steps[0]), listings, replies, steps[1..]);
    }
  }

  /** A load that fails reports the error of the region that was merged first of those that failed. */
  lemma {:induction false} FirstErrorIsKept(listings: seq<Listing>, replies: nat -> Replies, steps: seq<LoadStep>)
    requires LoadEnabledRun(LoadStarted(listings), listings, replies, steps)
    ensures LoadAfter(LoadStarted(listings), listings, replies, steps).firstError == FirstFailure(listings, steps)
  {
    ErrorStays(LoadStarted(listings), listings, replies, steps);
  }

  /** Until every region is merged, some goroutine can move. */
  lemma {:induction false} LoadNeverBlocks(listings: seq<Listing>, replies: nat -> Replies, steps: seq<LoadStep>)
    requires Skeletons(listings) && LoadEnabledRun(LoadStarted(listings), listings, replies, steps)
    ensures var l := LoadAfter(LoadStarted(listings), listings, replies, steps);
            AllDone(l, listings) <==> forall step :: !LoadEnabled(l, listings, step)
  {
    LoadStartedOk(listings, replies);
    LoadRunKeeps(LoadStarted(listings), listings, replies, steps);
    var l := LoadAfter(LoadStarted(listings), listings, replies, steps);
    if !AllDone(l, listings) {
      var r :| 0 <= r < |listings| && !l.done[r];
      if listings[r].Listed? && !l.runs[r].returned {
        NoDeadlock(l.runs[r], Skeleton(listings[r]), replies(r));
        var step :| Enabled(l.runs[r], step);
        assert LoadEnabled(l, listings, Work(r, step));
      } else {
        assert LoadEnabled(l, listings, MergeIn(r));
      }
    }
  }

  /** Steps the load has left at most: those of each region not merged yet, and its merge. */
  function LoadLeft(runs: seq<Run>, done: seq<bool>): int
    requires |runs| == |done|
  {
    if runs == [] then 0
    else
      var n := |runs| - 1;
      LoadLeft(runs[..n], done[..n]) + (if done[n] then 0 else 1 + StepsLeft(runs[n]))
  }

  /** Five steps a cluster, three a region. */
  function LoadSteps(listings: seq<Listing>): nat {
    if listings == [] then 0
    else
      var n := |listings| - 1;
      LoadSteps(listings[..n]) + 5 * |Skeleton(listings[n])| + 3
  }

  lemma {:induction false} LeftUpdate(runs: seq<Run>, done: seq<bool>, r: nat, run: Run, d: bool)
    requires |runs| == |done| && r < |runs|
    ensures LoadLeft(runs[r := run], done[r := d]) == LoadLeft(runs, done)
      - (if done[r] then 0 else 1 + StepsLeft(runs[r])) + (if d then 0 else 1 + StepsLeft(run))
  {
    var n := |runs| - 1;
    if r < n {
      LeftUpdate(runs[..n], done[..n], r, run, d);
      assert runs[r := run][..n] == runs[..n][r := run] && done[r := d][..n] == done[..n][r := d];
    } else {
      assert runs[r := run][..n] == runs[..n] && done[r := d][..n] == done[..n];
    }
  }

  lemma {:induction false} LeftIsNatural(runs: seq<Run>, done: seq<bool>)
    requires |runs| == |done| && forall r :: 0 <= r < |runs| ==> StepsLeft(runs[r]) >= 0
    ensures LoadLeft(runs, done) >= 0
  {
    if runs != [] {
      LeftIsNatural(runs[..|runs| - 1], done[..|runs| - 1]);
    }
  }

  lemma {:induction false} LoadStepsRunOut(l: Load, listings: seq<Listing>, replies: nat -> Replies, step: LoadStep)
    requires LoadInv(l, listings, replies) && LoadEnabled(l, listings, step)
    ensures |LoadNext(l, listings, replies, step).runs| == |LoadNext(l, listings, replies, step).done|
    ensures LoadLeft(LoadNext(l, listings, replies, step).runs, LoadNext(l, listings, replies, step).done)
            < LoadLeft(l.runs, l.done)
  {
    var r := step.r;
    assert Inv(l.runs[r], Skeleton(listings[r]), replies(r));
    match step
    case Work(_, s) =>
      StepsRunOut(l.runs[r], Skeleton(listings[r]), replies(r), s);
      LeftUpdate(l.runs, l.done, r, Next(l.runs[r], replies(r), s), false);
      assert l.done[r := false] == l.done;
    case MergeIn(_) =>
      LeftUpdate(l.runs, l.done, r, l.runs[r], true);
      assert l.runs[r := l.runs[r]] == l.runs;
  }

  lemma {:induction false} LoadIsBounded(l: Load, listings: seq<Listing>, replies: nat -> Replies, steps: seq<LoadStep>)
    requires LoadInv(l, listings, replies) && Skeletons(listings) && LoadEnabledRun(l, listings, replies, steps)
    ensures |steps| <= LoadLeft(l.runs, l.done)
    decreases steps
  {
    if steps == [] {
      forall r | 0 <= r < |l.runs|
        ensures StepsLeft(l.runs[r]) >= 0
      {
        assert Inv(l.runs[r], Skeleton(listings[r]), replies(r));
      }
      LeftIsNatural(l.runs, l.done);
    } else {
      LoadStepKeeps(l, listings, replies, steps[0]);
      LoadStepsRunOut(l, listings, replies, steps[0]);
      LoadIsBounded(LoadNext(l, listings, replies, steps[0]), listings, replies, steps[1..]);
    }
  }

  lemma {:induction false} StartedLeft(listings: seq<Listing>)
    ensures LoadLeft(LoadStarted(listings).runs, LoadStarted(listings).done) == LoadSteps(listings)
  {
    if listings != [] {
      var n := |listings| - 1;
      StartedLeft(listings[..n]);
      var all, init := LoadStarted(listings), LoadStarted(listings[..n]);
      assert all.runs[..n] == init.runs && all.done[..n] == init.done;
      WeighZeroIff(all.runs[n].phases, Left);
    }
  }

  /** Loading all regions takes at most five steps a cluster and three a region, and stops only when every region is merged. */
  lemma {:induction false} EveryLoadFinishes(listings: seq<Listing>, replies: nat -> Replies, steps: seq<LoadStep>)
    requires Skeletons(listings) && LoadEnabledRun(LoadStarted(listings), listings, replies, steps)
    ensures |steps| <= LoadSteps(listings)
    ensures var l := LoadAfter(LoadStarted(listings), listings, replies, steps);
            AllDone(l, listings) <==> forall step :: !LoadEnabled(l, listings, step)
  {
    LoadStartedOk(listings, replies);
    StartedLeft(listings);
    LoadIsBounded(LoadStarted(listings), listings, replies, steps);
    LoadNeverBlocks(listings, replies, steps);
  }
}
