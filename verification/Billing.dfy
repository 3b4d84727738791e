/**
  The bill: cost groups aggregated over pages into lines, and what moved
  between two bills. Amounts are exact numbers.
*/
module Billing {
  import opened Options
  import opened Ordering
  import opened Sequences

  datatype Line = Line(service: string, usageType: string, quantity: real, unit: string, amount: real)

  datatype Bill = Bill(currency: string, estimated: bool, lines: seq<Line>, total: real)

  /** One group of a reply with its two metrics read: 0 and "" where one is missing. */
  datatype Group = Group(keys: seq<string>, amount: real, currency: string, quantity: real, unit: string)

  datatype Period = Period(estimated: bool, groups: seq<Group>)

  datatype CostReply = CostPage(periods: seq<Period>, more: bool) | CostFailed

  const SEPARATOR := "\0"

  function KeyOf(service: string, usageType: string): string {
    service + SEPARATOR + usageType
  }

  function Key(l: Line): string {
    KeyOf(l.service, l.usageType)
  }

  // ---- what the groups amount to -------------------------------------------------------

  predicate Billable(g: Group) {
    |g.keys| >= 2
  }

  function GroupKey(g: Group): string
    requires Billable(g)
  {
    KeyOf(g.keys[0], g.keys[1])
  }

  predicate Under(g: Group, keys: set<string>) {
    Billable(g) && GroupKey(g) in keys
  }

  /** Cost of the groups filed under some keys. */
  function CostUnder(groups: seq<Group>, keys: set<string>): real {
    if groups == [] then 0.0
    else (if Under(groups[0], keys) then groups[0].amount else 0.0) + CostUnder(groups[1..], keys)
  }

  function UsageUnder(groups: seq<Group>, keys: set<string>): real {
    if groups == [] then 0.0
    else (if Under(groups[0], keys) then groups[0].quantity else 0.0) + UsageUnder(groups[1..], keys)
  }

  /** Cost of every group that names a service and a usage type. */
  function CostOfAll(groups: seq<Group>): real {
    if groups == [] then 0.0 else (if Billable(groups[0]) then groups[0].amount else 0.0) + CostOfAll(groups[1..])
  }

  function KeysIn(groups: seq<Group>): set<string> {
    if groups == [] then {}
    else (if Billable(groups[0]) then {GroupKey(groups[0])} else {}) + KeysIn(groups[1..])
  }

  /** The first non-empty usage unit among the groups of a key. */
  function UnitOf(groups: seq<Group>, key: string): string {
    if groups == [] then ""
    else if Under(groups[0], {key}) && groups[0].unit != "" then groups[0].unit
    else UnitOf(groups[1..], key)
  }

  /** The currency last named by a billable group, "USD" until one is. */
  function CurrencyOf(groups: seq<Group>, fallback: string): string
    decreases groups
  {
    if groups == [] then fallback
    else CurrencyOf(groups[1..], if Billable(groups[0]) && groups[0].currency != "" then groups[0].currency else fallback)
  }

  /** The first group filed under a key: it names the line. */
  function Owner(groups: seq<Group>, key: string): Option<Group> {
    if groups == [] then None
    else if Under(groups[0], {key}) then Some(groups[0])
    else Owner(groups[1..], key)
  }

  /** The line of a key says what the groups of that key add up to. */
  ghost predicate LineFor(groups: seq<Group>, key: string, l: Line) {
    && Key(l) == key
    && l.amount == CostUnder(groups, {key})
    && l.quantity == UsageUnder(groups, {key})
    && l.unit == UnitOf(groups, key)
    && Owner(groups, key).Some?
    && Under(Owner(groups, key).value, {key})
    && l.service == Owner(groups, key).value.keys[0]
    && l.usageType == Owner(groups, key).value.keys[1]
  }

  lemma {:induction false} UnderConcat(a: seq<Group>, b: seq<Group>, keys: set<string>)
    ensures CostUnder(a + b, keys) == CostUnder(a, keys) + CostUnder(b, keys)
    ensures UsageUnder(a + b, keys) == UsageUnder(a, keys) + UsageUnder(b, keys)
  {
    if a == [] {
      assert a + b == b;
    } else {
      assert (a + b)[1..] == a[1..] + b;
      UnderConcat(a[1..], b, keys);
    }
  }

  lemma {:induction false} NamesConcat(a: seq<Group>, b: seq<Group>, key: string, fallback: string)
    ensures KeysIn(a + b) == KeysIn(a) + KeysIn(b)
    ensures Owner(a + b, key) == if Owner(a, key).Some? then Owner(a, key) else Owner(b, key)
    ensures UnitOf(a + b, key) == if UnitOf(a, key) != "" then UnitOf(a, key) else UnitOf(b, key)
    ensures CurrencyOf(a + b, fallback) == CurrencyOf(b, CurrencyOf(a, fallback))
    decreases a
  {
    if a == [] {
      assert a + b == b;
    } else {
      assert (a + b)[1..] == a[1..] + b;
      NamesConcat(a[1..], b, key, if Billable(a[0]) && a[0].currency != "" then a[0].currency else fallback);
    }
  }

  // ---- one group joins the aggregate ---------------------------------------------------

  function NewLine(g: Group): Line
    requires Billable(g)
  {
    Line(g.keys[0], g.keys[1], 0.0, "", 0.0)
  }

  function AddGroup(agg: map<string, Line>, g: Group): map<string, Line> {
    if !Billable(g) then agg
    else
      var key := GroupKey(g);
      var l := if key in agg then agg[key] else NewLine(g);
      agg[key := l.(amount := l.amount + g.amount, quantity := l.quantity + g.quantity,
                    unit := if l.unit == "" then g.unit else l.unit)]
  }

  ghost predicate Aggregates(agg: map<string, Line>, groups: seq<Group>) {
    && agg.Keys == KeysIn(groups)
    && forall key :: key in agg ==> LineFor(groups, key, agg[key])
  }

  lemma KeysAbsent(groups: seq<Group>, key: string)
    requires key !in KeysIn(groups)
    ensures CostUnder(groups, {key}) == 0.0 && UsageUnder(groups, {key}) == 0.0
    ensures UnitOf(groups, key) == "" && Owner(groups, key) == None
  {
  }

  lemma {:induction false} AddGroupKeeps(agg: map<string, Line>, groups: seq<Group>, g: Group)
    requires Aggregates(agg, groups)
    ensures Aggregates(AddGroup(agg, g), groups + [g])
  {
    var agg', all := AddGroup(agg, g), groups + [g];
    NamesConcat(groups, [g], "", "");
    assert KeysIn([g]) == if Billable(g) then {GroupKey(g)} else {};
    assert agg'.Keys == KeysIn(all);
    forall key | key in agg'
      ensures LineFor(all, key, agg'[key])
    {
      UnderConcat(groups, [g], {key});
      NamesConcat(groups, [g], key, "");
      if key in agg {
        assert LineFor(groups, key, agg[key]);
      } else {
        KeysAbsent(groups, key);
      }
    }
  }

  // ---- lines in display order ------------------------------------------------------------

  predicate LineBefore(a: Line, b: Line) {
    if a.amount != b.amount then a.amount > b.amount
    else if a.service != b.service then Before(a.service, b.service)
    else Before(a.usageType, b.usageType)
  }

  lemma {:induction false} LineOrderLawful()
    ensures Lawful(LineBefore)
  {
    BeforeLawful();
  }

  /** Dearest first; of equal cost by service; of one service by usage type. */
  ghost predicate Ranked(lines: seq<Line>) {
    forall i, j :: 0 <= i < j < |lines| ==>
      && lines[i].amount >= lines[j].amount
      && (lines[i].amount == lines[j].amount ==>
            && (lines[i].service == lines[j].service || ComesFirst(lines[i].service, lines[j].service))
            && (lines[i].service == lines[j].service ==> ComesFirst(lines[i].usageType, lines[j].usageType)))
  }

  lemma {:induction false} AscendingIsRanked(lines: seq<Line>)
    requires Ascending(LineBefore, lines)
    ensures Ranked(lines)
  {
    forall i, j | 0 <= i < j < |lines|
      ensures LineBefore(lines[i], lines[j])
      ensures Before(lines[i].service, lines[j].service) <==> ComesFirst(lines[i].service, lines[j].service)
      ensures Before(lines[i].usageType, lines[j].usageType) <==> ComesFirst(lines[i].usageType, lines[j].usageType)
    {
      BeforeMeans(lines[i].service, lines[j].service);
      BeforeMeans(lines[i].usageType, lines[j].usageType);
    }
  }

  ghost predicate UniqueKeys(lines: seq<Line>) {
    forall i, j :: 0 <= i < j < |lines| ==> Key(lines[i]) != Key(lines[j])
  }

  lemma {:induction false} DistinctLinesCompare(lines: seq<Line>)
    requires UniqueKeys(lines)
    ensures Comparable(LineBefore, lines)
  {
    forall i, j | 0 <= i < j < |lines|
      ensures LineBefore(lines[i], lines[j]) || LineBefore(lines[j], lines[i])
    {
      BeforeTotal(lines[i].service, lines[j].service);
      BeforeTotal(lines[i].usageType, lines[j].usageType);
    }
  }

  function SumOf(lines: seq<Line>): real {
    if lines == [] then 0.0 else lines[0].amount + SumOf(lines[1..])
  }

  lemma {:induction false} SumConcat(a: seq<Line>, b: seq<Line>)
    ensures SumOf(a + b) == SumOf(a) + SumOf(b)
  {
    if a == [] {
      assert a + b == b;
    } else {
      assert (a + b)[1..] == a[1..] + b;
      SumConcat(a[1..], b);
    }
  }

  lemma SumInsert(l: Line, sorted: seq<Line>)
    ensures SumOf(InsertBy(LineBefore, l, sorted)) == l.amount + SumOf(sorted)
  {
  }

  lemma {:induction false} SumSort(lines: seq<Line>)
    ensures SumOf(SortBy(LineBefore, lines)) == SumOf(lines)
  {
    if lines != [] {
      SumSort(lines[1..]);
      SumInsert(lines[0], SortBy(LineBefore, lines[1..]));
    }
  }

  /** Sorted for display: the same lines, strictly ordered - dearest first, then by service and usage type. */
  lemma {:induction false} SortedForDisplay(lines: seq<Line>)
    requires UniqueKeys(lines)
    ensures var sorted := SortBy(LineBefore, lines);
            && Ascending(LineBefore, sorted) && Ranked(sorted) && UniqueKeys(sorted)
            && multiset(sorted) == multiset(lines) && (forall l :: l in sorted <==> l in lines)
            && SumOf(sorted) == SumOf(lines)
  {
    var sorted := SortBy(LineBefore, lines);
    LineOrderLawful();
    DistinctLinesCompare(lines);
    SortAscends(LineBefore, lines);
    AscendingIsRanked(sorted);
    SortPermutes(LineBefore, lines);
    SumSort(lines);
    forall i, j | 0 <= i < j < |sorted|
      ensures Key(sorted[i]) != Key(sorted[j])
    {
      assert sorted[i] in lines && sorted[j] in lines && LineBefore(sorted[i], sorted[j]);
    }
  }

  // ---- the whole fetch ------------------------------------------------------------------

  function GroupsOf(periods: seq<Period>): seq<Group> {
    if periods == [] then [] else GroupsOf(periods[..|periods| - 1]) + periods[|periods| - 1].groups
  }

  predicate AnyEstimated(periods: seq<Period>) {
    periods != [] && (periods[|periods| - 1].estimated || AnyEstimated(periods[..|periods| - 1]))
  }

  predicate Counts(l: Line) {
    l.amount != 0.0 || l.quantity != 0.0
  }

  /** A bill that states exactly what the fetched periods add up to. */
  ghost predicate BillFor(periods: seq<Period>, bill: Bill) {
    var groups := GroupsOf(periods);
    && (forall l :: l in bill.lines <==> Counts(l) && exists key :: key in KeysIn(groups) && LineFor(groups, key, l))
    && UniqueKeys(bill.lines) && Ascending(LineBefore, bill.lines)
    && bill.total == CostOfAll(groups) == SumOf(bill.lines)
    && bill.currency == CurrencyOf(groups, "USD")
    && (bill.estimated <==> AnyEstimated(periods))
  }

  function PeriodsOf(reply: CostReply): seq<Period> {
    if reply.CostPage? then reply.periods else []
  }

  /** All periods a feed delivers from page p up to its last page. */
  function PeriodsFrom(feed: nat -> CostReply, p: nat, last: nat): seq<Period>
    decreases last - p
  {
    if p >= last then PeriodsOf(feed(p)) else PeriodsOf(feed(p)) + PeriodsFrom(feed, p + 1, last)
  }

  /** The page that ends the fetch: the first to fail or to carry no token. */
  ghost predicate EndsAt(feed: nat -> CostReply, last: nat) {
    && (forall i :: 0 <= i < last ==> feed(i).CostPage? && feed(i).more)
    && (feed(last).CostFailed? || !feed(last).more)
  }

  method Fetch(feed: nat -> CostReply, ghost last: nat) returns (r: Option<Bill>)
    requires EndsAt(feed, last)
    ensures r.None? <==> feed(last).CostFailed?
    ensures r.Some? ==> BillFor(PeriodsFrom(feed, 0, last), r.value) && Ranked(r.value.lines)
  {
    var agg: map<string, Line> := map[];
    var currency, estimated := "USD", false;
    ghost var periods: seq<Period> := [];
    var page := 0;
    while true
      invariant page <= last
      invariant Reads(agg, currency, estimated, periods)
      invariant periods + PeriodsFrom(feed, page, last) == PeriodsFrom(feed, 0, last)
      decreases last - page
    {
      var out := feed(page);
      if out.CostFailed? {
        return None;
      }
      agg, currency, estimated := AddPeriods(agg, currency, estimated, periods, out.periods);
      PeriodsStep(feed, page, last, periods);
      periods := periods + out.periods;
      if !out.more {
        break;
      }
      page := page + 1;
    }
    var lines, total := Collect(agg, GroupsOf(periods));
    FinishBill(agg, currency, estimated, periods, lines, total);
    AscendingIsRanked(SortBy(LineBefore, lines));
    return Some(Bill(currency, estimated, SortBy(LineBefore, lines), total));
  }

  lemma {:induction false} PeriodsStep(feed: nat -> CostReply, p: nat, last: nat, earlier: seq<Period>)
    ensures earlier + PeriodsFrom(feed, p, last) ==
            earlier + PeriodsOf(feed(p)) + if p >= last then [] else PeriodsFrom(feed, p + 1, last)
  {
    if p < last {
      assert earlier + (PeriodsOf(feed(p)) + PeriodsFrom(feed, p + 1, last))
          == earlier + PeriodsOf(feed(p)) + PeriodsFrom(feed, p + 1, last);
    }
  }

  /** What the fetch has read of the periods so far. */
  ghost predicate Reads(agg: map<string, Line>, currency: string, estimated: bool, periods: seq<Period>) {
    && Aggregates(agg, GroupsOf(periods))
    && currency == CurrencyOf(GroupsOf(periods), "USD")
    && (estimated <==> AnyEstimated(periods))
  }

  lemma {:induction false} FinishBill(agg: map<string, Line>, currency: string, estimated: bool, periods: seq<Period>, lines: seq<Line>, total: real)
    requires Reads(agg, currency, estimated, periods)
    requires total == CostOfAll(GroupsOf(periods)) == SumOf(lines) && UniqueKeys(lines)
    requires forall l :: l in lines <==> Counts(l) && exists key :: key in agg && agg[key] == l
    ensures BillFor(periods, Bill(currency, estimated, SortBy(LineBefore, lines), total))
  {
    var groups, sorted := GroupsOf(periods), SortBy(LineBefore, lines);
    SortedForDisplay(lines);
    forall l
      ensures l in sorted <==> Counts(l) && exists key :: key in KeysIn(groups) && LineFor(groups, key, l)
    {
      if l in sorted {
        var key :| key in agg && agg[key] == l;
        assert LineFor(groups, key, l);
      }
      if Counts(l) && exists key :: key in KeysIn(groups) && LineFor(groups, key, l) {
        var key :| key in KeysIn(groups) && LineFor(groups, key, l);
        assert LineFor(groups, key, agg[key]);
      }
    }
  }

  method AddPeriods(agg: map<string, Line>, currency: string, estimated: bool, ghost before: seq<Period>, periods: seq<Period>)
    returns (agg': map<string, Line>, currency': string, estimated': bool)
    requires Reads(agg, currency, estimated, before)
    ensures Reads(agg', currency', estimated', before + periods)
  {
    agg', currency', estimated' := agg, currency, estimated;
    assert before + periods[..0] == before;
    for i := 0 to |periods|
      invariant Reads(agg', currency', estimated', before + periods[..i])
    {
      ghost var done := before + periods[..i];
      var period := periods[i];
      assert before + periods[..i + 1] == done + [period];
      if period.estimated {
        estimated' := true;
      }
      agg', currency' := AddGroups(agg', currency', GroupsOf(done), period.groups);
    }
    assert periods[..|periods|] == periods;
  }

  method AddGroups(agg: map<string, Line>, currency: string, ghost before: seq<Group>, groups: seq<Group>)
    returns (agg': map<string, Line>, currency': string)
    requires Aggregates(agg, before) && currency == CurrencyOf(before, "USD")
    ensures Aggregates(agg', before + groups) && currency' == CurrencyOf(before + groups, "USD")
  {
    agg', currency' := agg, currency;
    assert before + groups[..0] == before;
    for i := 0 to |groups|
      invariant Aggregates(agg', before + groups[..i])
      invariant currency' == CurrencyOf(before + groups[..i], "USD")
    {
      var g := groups[i];
      ghost var done := before + groups[..i];
      assert before + groups[..i + 1] == done + [g];
      AddGroupKeeps(agg', done, g);
      NamesConcat(done, [g], "", "USD");
      agg', currency' := AddOne(agg', currency', g);
    }
    assert groups[..|groups|] == groups;
  }

  /** The loop body for one group; a group with fewer than two keys is skipped. */
  method AddOne(agg: map<string, Line>, currency: string, g: Group) returns (agg': map<string, Line>, currency': string)
    ensures agg' == AddGroup(agg, g) && currency' == CurrencyOf([g], currency)
  {
    assert [g][1..] == [];
    agg', currency' := agg, currency;
    if |g.keys| < 2 {
      return;
    }
    var key := GroupKey(g);
    var l := if key in agg then agg[key] else NewLine(g);
    l := l.(amount := l.amount + g.amount, quantity := l.quantity + g.quantity);
    if l.unit == "" {
      l := l.(unit := g.unit);
    }
    agg' := agg[key := l];
    if g.currency != "" {
      currency' := g.currency;
    }
  }

  lemma CostSplit(groups: seq<Group>, keys: set<string>, key: string)
    requires key !in keys
    ensures CostUnder(groups, keys + {key}) == CostUnder(groups, keys) + CostUnder(groups, {key})
  {
  }

  lemma CostUnderAll(groups: seq<Group>, keys: set<string>)
    requires KeysIn(groups) <= keys
    ensures CostUnder(groups, keys) == CostOfAll(groups)
  {
  }

  lemma CostUnderNone(groups: seq<Group>)
    ensures CostUnder(groups, {}) == 0.0
  {
  }

  /** Lines that accrued nothing are dropped; the map is walked in any order. */
  method Collect(agg: map<string, Line>, ghost groups: seq<Group>) returns (lines: seq<Line>, total: real)
    requires Aggregates(agg, groups)
    ensures total == CostOfAll(groups) == SumOf(lines)
    ensures UniqueKeys(lines)
    ensures forall l :: l in lines <==> Counts(l) && exists key :: key in agg && agg[key] == l
  {
    lines, total := [], 0.0;
    var todo := agg.Keys;
    CostUnderNone(groups);
    assert agg.Keys - todo == {};
    while todo != {}
      invariant todo <= agg.Keys
      invariant total == CostUnder(groups, agg.Keys - todo) == SumOf(lines)
      invariant UniqueKeys(lines)
      invariant forall l :: l in lines <==> Counts(l) && exists key :: key in agg.Keys - todo && agg[key] == l
      decreases todo
    {
      var key :| key in todo;
      var l := agg[key];
      assert LineFor(groups, key, l);
      CostSplit(groups, agg.Keys - todo, key);
      assert agg.Keys - (todo - {key}) == agg.Keys - todo + {key};
      todo := todo - {key};
      if l.amount == 0.0 && l.quantity == 0.0 {
        continue;
      }
      assert forall m :: m in lines ==> Key(m) != key;
      SumConcat(lines, [l]);
      lines := lines + [l];
      total := total + l.amount;
    }
    CostUnderAll(groups, agg.Keys);
    assert agg.Keys - todo == agg.Keys;
  }

  // ---- what a bill says ------------------------------------------------------------------

  /** The bill follows from the groups alone: neither the paging nor the map's order shows in it. */
  lemma {:induction false} BillIsDetermined(p: seq<Period>, q: seq<Period>, a: Bill, b: Bill)
    requires BillFor(p, a) && BillFor(q, b)
    requires GroupsOf(p) == GroupsOf(q) && (AnyEstimated(p) <==> AnyEstimated(q))
    ensures a == b
  {
    LineOrderLawful();
    forall l
      ensures l in a.lines <==> l in b.lines
    {
    }
    AscendingIsUnique(LineBefore, a.lines, b.lines);
  }

  /** Cost Explorer's names hold no NUL, so a joined key names one pair. */
  ghost predicate NulFree(groups: seq<Group>) {
    forall g :: g in groups && Billable(g) ==> '\0' !in g.keys[0] && '\0' !in g.keys[1]
  }

  function AmountOf(g: Group): real {
    g.amount
  }

  function QuantityOf(g: Group): real {
    g.quantity
  }

  /** What the groups of one service and usage type add up to. */
  function PairSum(groups: seq<Group>, service: string, usageType: string, of: Group -> real): real {
    if groups == [] then 0.0
    else (if OfPair(groups[0], service, usageType) then of(groups[0]) else 0.0) + PairSum(groups[1..], service, usageType, of)
  }

  predicate OfPair(g: Group, service: string, usageType: string) {
    |g.keys| >= 2 && g.keys[0] == service && g.keys[1] == usageType
  }

  lemma {:induction false} KeyNamesPair(s: string, u: string, s': string, u': string)
    requires '\0' !in s && '\0' !in s' && KeyOf(s, u) == KeyOf(s', u')
    ensures s == s' && u == u'
  {
    var k := KeyOf(s, u);
    assert k[|s|] == '\0' && k[|s'|] == '\0';
    assert forall i :: 0 <= i < |s| ==> k[i] == s[i] && s[i] in s;
    assert forall i :: 0 <= i < |s'| ==> k[i] == s'[i] && s'[i] in s';
    assert |s| == |s'|;
    assert s == k[..|s|] && u == k[|s| + 1..];
    assert s' == k[..|s'|] && u' == k[|s'| + 1..];
  }

  lemma {:induction false} KeyIsPair(groups: seq<Group>, g: Group, service: string, usageType: string)
    requires NulFree(groups) && g in groups && '\0' !in service
    ensures Under(g, {KeyOf(service, usageType)}) <==> OfPair(g, service, usageType)
  {
    if Billable(g) && GroupKey(g) == KeyOf(service, usageType) {
      KeyNamesPair(g.keys[0], g.keys[1], service, usageType);
    }
  }

  lemma {:induction false} PairSumIsKeySum(groups: seq<Group>, service: string, usageType: string)
    requires NulFree(groups) && '\0' !in service
    ensures CostUnder(groups, {KeyOf(service, usageType)}) == PairSum(groups, service, usageType, AmountOf)
    ensures UsageUnder(groups, {KeyOf(service, usageType)}) == PairSum(groups, service, usageType, QuantityOf)
  {
    if groups != [] {
      KeyIsPair(groups, groups[0], service, usageType);
      PairSumIsKeySum(groups[1..], service, usageType);
    }
  }

  lemma {:induction false} OwnerIsMember(groups: seq<Group>, key: string)
    ensures Owner(groups, key).Some? ==> Owner(groups, key).value in groups && Under(Owner(groups, key).value, {key})
  {
    if groups != [] {
      OwnerIsMember(groups[1..], key);
    }
  }

  /** Among the groups of the pair the first with a unit names it; a pair none of whose groups has one goes without. */
  ghost predicate FirstUnit(groups: seq<Group>, service: string, usageType: string, unit: string) {
    if unit == "" then forall g :: g in groups && OfPair(g, service, usageType) ==> g.unit == ""
    else exists i :: 0 <= i < |groups| && OfPair(groups[i], service, usageType) && groups[i].unit == unit
           && forall j :: 0 <= j < i && OfPair(groups[j], service, usageType) ==> groups[j].unit == ""
  }

  lemma {:induction false} UnitIsFirst(groups: seq<Group>, service: string, usageType: string)
    requires NulFree(groups) && '\0' !in service
    ensures FirstUnit(groups, service, usageType, UnitOf(groups, KeyOf(service, usageType)))
  {
    if groups != [] {
      var g, rest, unit := groups[0], groups[1..], UnitOf(groups, KeyOf(service, usageType));
      KeyIsPair(groups, g, service, usageType);
      UnitIsFirst(rest, service, usageType);
      if OfPair(g, service, usageType) && g.unit != "" {
        assert groups[0].unit == unit;
      } else if unit != "" {
        var i :| 0 <= i < |rest| && OfPair(rest[i], service, usageType) && rest[i].unit == unit
                 && forall j :: 0 <= j < i && OfPair(rest[j], service, usageType) ==> rest[j].unit == "";
        assert groups[i + 1] == rest[i];
        forall j | 0 <= j < i + 1 && OfPair(groups[j], service, usageType)
          ensures groups[j].unit == ""
        {
          assert j > 0 ==> groups[j] == rest[j - 1];
        }
      }
    }
  }

  lemma {:induction false} LineNames(periods: seq<Period>, bill: Bill, l: Line) returns (key: string)
    requires BillFor(periods, bill) && NulFree(GroupsOf(periods)) && l in bill.lines
    ensures LineFor(GroupsOf(periods), key, l) && key == KeyOf(l.service, l.usageType) && '\0' !in l.service
  {
    var groups := GroupsOf(periods);
    key :| key in KeysIn(groups) && LineFor(groups, key, l);
    OwnerIsMember(groups, key);
  }

  /** With NUL-free names each line is one service and usage type and carries exactly its groups' cost, usage and unit. */
  lemma {:induction false} LinesArePairTotals(periods: seq<Period>, bill: Bill, l: Line)
    requires BillFor(periods, bill) && NulFree(GroupsOf(periods)) && l in bill.lines
    ensures l.amount == PairSum(GroupsOf(periods), l.service, l.usageType, AmountOf)
    ensures l.quantity == PairSum(GroupsOf(periods), l.service, l.usageType, QuantityOf)
    ensures FirstUnit(GroupsOf(periods), l.service, l.usageType, l.unit)
    ensures forall m :: m in bill.lines && m.service == l.service && m.usageType == l.usageType ==> m == l
  {
    var key := LineNames(periods, bill, l);
    PairSumIsKeySum(GroupsOf(periods), l.service, l.usageType);
    UnitIsFirst(GroupsOf(periods), l.service, l.usageType);
  }

  lemma {:induction false} SumOfNone(groups: seq<Group>, service: string, usageType: string, of: Group -> real)
    requires forall g :: g in groups ==> !OfPair(g, service, usageType)
    ensures PairSum(groups, service, usageType, of) == 0.0
  {
    if groups != [] {
      assert groups[0] in groups;
      SumOfNone(groups[1..], service, usageType, of);
    }
  }

  lemma {:induction false} KeyHasOwner(groups: seq<Group>, g: Group, key: string)
    requires g in groups && Under(g, {key})
    ensures key in KeysIn(groups) && Owner(groups, key).Some?
  {
    if groups[0] != g {
      KeyHasOwner(groups[1..], g, key);
    }
  }

  /** A service and usage type is listed exactly when its groups' cost or usage does not add up to nothing. */
  lemma {:induction false} ListedIffAccrued(periods: seq<Period>, bill: Bill, service: string, usageType: string)
    requires BillFor(periods, bill) && NulFree(GroupsOf(periods)) && '\0' !in service
    ensures (exists l :: l in bill.lines && l.service == service && l.usageType == usageType) <==>
              || PairSum(GroupsOf(periods), service, usageType, AmountOf) != 0.0
              || PairSum(GroupsOf(periods), service, usageType, QuantityOf) != 0.0
  {
    var groups, key := GroupsOf(periods), KeyOf(service, usageType);
    PairSumIsKeySum(groups, service, usageType);
    if l :| l in bill.lines && l.service == service && l.usageType == usageType {
      LinesArePairTotals(periods, bill, l);
    } else if g :| g in groups && OfPair(g, service, usageType) {
      KeyHasOwner(groups, g, key);
      OwnerIsMember(groups, key);
      KeyIsPair(groups, Owner(groups, key).value, service, usageType);
      var l := Line(service, usageType, UsageUnder(groups, {key}), UnitOf(groups, key), CostUnder(groups, {key}));
      assert LineFor(groups, key, l);
    } else {
      SumOfNone(groups, service, usageType, AmountOf);
      SumOfNone(groups, service, usageType, QuantityOf);
    }
  }

  // ---- what a bill says of the pages -----------------------------------------------------

  /** The last of the groups to name a currency decides it. */
  ghost predicate LastCurrency(groups: seq<Group>, currency: string) {
    (exists i :: 0 <= i < |groups| && Names(groups[i]) && groups[i].currency == currency
                 && forall j :: i < j < |groups| ==> !Names(groups[j]))
    || (currency == "USD" && forall i :: 0 <= i < |groups| ==> !Names(groups[i]))
  }

  predicate Names(g: Group) {
    |g.keys| >= 2 && g.currency != ""
  }

  lemma {:induction false} CurrencyIsLast(groups: seq<Group>)
    ensures LastCurrency(groups, CurrencyOf(groups, "USD"))
  {
    if groups != [] {
      var n := |groups| - 1;
      var init, g := groups[..n], groups[n];
      assert groups == init + [g] && [g][1..] == [];
      NamesConcat(init, [g], "", "USD");
      CurrencyIsLast(init);
      if Names(g) {
        assert groups[n].currency == CurrencyOf(groups, "USD");
      } else if i :| 0 <= i < |init| && Names(init[i]) && init[i].currency == CurrencyOf(init, "USD")
                     && forall j :: i < j < |init| ==> !Names(init[j]) {
        assert groups[i] == init[i];
        assert forall j :: i < j < |groups| ==> !Names(groups[j]);
      }
    }
  }

  lemma {:induction false} PeriodsOfPages(feed: nat -> CostReply, p: nat, last: nat, period: Period)
    requires p <= last
    ensures period in PeriodsFrom(feed, p, last) <==> exists k :: p <= k <= last && period in PeriodsOf(feed(k))
    decreases last - p
  {
    var rest := PeriodsFrom(feed, p + 1, last);
    if p < last {
      PeriodsOfPages(feed, p + 1, last, period);
      assert PeriodsFrom(feed, p, last) == PeriodsOf(feed(p)) + rest;
      assert period in PeriodsFrom(feed, p, last) <==> period in PeriodsOf(feed(p)) || period in rest;
    } else {
      assert PeriodsFrom(feed, p, last) == PeriodsOf(feed(p));
    }
  }

  lemma {:induction false} GroupsOfPeriods(periods: seq<Period>, g: Group)
    ensures g in GroupsOf(periods) <==> exists period :: period in periods && g in period.groups
  {
    if periods != [] {
      var n := |periods| - 1;
      GroupsOfPeriods(periods[..n], g);
      assert periods == periods[..n] + [periods[n]];
    }
  }

  lemma {:induction false} EstimatedIff(periods: seq<Period>)
    ensures AnyEstimated(periods) <==> exists period :: period in periods && period.estimated
  {
    if periods != [] {
      var n := |periods| - 1;
      EstimatedIff(periods[..n]);
      assert periods == periods[..n] + [periods[n]];
    }
  }

  /** A fetched bill is estimated exactly when a period of some page is, and its lines come from groups on the pages. */
  lemma {:induction false} BillReadsPages(feed: nat -> CostReply, last: nat, bill: Bill)
    requires BillFor(PeriodsFrom(feed, 0, last), bill)
    ensures bill.estimated <==> exists k, period :: 0 <= k <= last && period in PeriodsOf(feed(k)) && period.estimated
    ensures LastCurrency(GroupsOf(PeriodsFrom(feed, 0, last)), bill.currency)
    ensures forall g :: g in GroupsOf(PeriodsFrom(feed, 0, last)) <==>
              exists k, period :: 0 <= k <= last && period in PeriodsOf(feed(k)) && g in period.groups
  {
    var periods := PeriodsFrom(feed, 0, last);
    EstimatedIff(periods);
    CurrencyIsLast(GroupsOf(periods));
    forall period
      ensures period in periods <==> exists k :: 0 <= k <= last && period in PeriodsOf(feed(k))
    {
      PeriodsOfPages(feed, 0, last, period);
    }
    forall g
      ensures g in GroupsOf(periods) <==> exists k, period :: 0 <= k <= last && period in PeriodsOf(feed(k)) && g in period.groups
    {
      GroupsOfPeriods(periods, g);
    }
  }

  // ---- deltas ------------------------------------------------------------------------------

  /** The amount of the last line filed under a key, zero when there is none. */
  function AmountAt(lines: seq<Line>, key: string): real {
    if lines == [] then 0.0
    else if Key(lines[|lines| - 1]) == key then lines[|lines| - 1].amount
    else AmountAt(lines[..|lines| - 1], key)
  }

  function Changes(prev: seq<Line>, next: seq<Line>): map<string, real> {
    if next == [] then map[]
    else
      var l, earlier := next[|next| - 1], Changes(prev, next[..|next| - 1]);
      var d := l.amount - AmountAt(prev, Key(l));
      if d != 0.0 then earlier[Key(l) := d] else earlier
  }

  /** No deltas until there are two bills to compare. */
  function Deltas(prev: Option<Bill>, next: Bill): map<string, real> {
    if prev.None? then map[] else Changes(prev.value.lines, next.lines)
  }

  method DiffBills(prev: Option<Bill>, next: Bill) returns (deltas: map<string, real>)
    ensures deltas == Deltas(prev, next)
  {
    if prev.None? {
      return map[];
    }
    var before: map<string, real> := map[];
    var lines := prev.value.lines;
    for i := 0 to |lines|
      invariant forall key :: (if key in before then before[key] else 0.0) == AmountAt(lines[..i], key)
    {
      assert lines[..i + 1][..i] == lines[..i];
      before := before[Key(lines[i]) := lines[i].amount];
    }
    assert lines[..|lines|] == lines;
    deltas := map[];
    for i := 0 to |next.lines|
      invariant deltas == Changes(lines, next.lines[..i])
    {
      var l := next.lines[i];
      assert next.lines[..i + 1][..i] == next.lines[..i];
      var d := l.amount - (if Key(l) in before then before[Key(l)] else 0.0);
      if d != 0.0 {
        deltas := deltas[Key(l) := d];
      }
    }
    assert next.lines[..|next.lines|] == next.lines;
  }

  ghost predicate HasKey(lines: seq<Line>, key: string) {
    exists l :: l in lines && Key(l) == key
  }

  /** A key shows a change exactly when the next bill has it at another amount, newcomers at their full amount. */
  lemma {:induction false} ChangesPerKey(prev: seq<Line>, next: seq<Line>, key: string)
    requires UniqueKeys(next)
    ensures key in Changes(prev, next) <==> HasKey(next, key) && AmountAt(next, key) != AmountAt(prev, key)
    ensures key in Changes(prev, next) ==> Changes(prev, next)[key] == AmountAt(next, key) - AmountAt(prev, key)
  {
    if next != [] {
      var n := |next| - 1;
      ChangesPerKey(prev, next[..n], key);
      assert next == next[..n] + [next[n]];
      if Key(next[n]) == key {
        assert next[n] in next;
        forall l | l in next[..n]
          ensures Key(l) != key
        {
          var i :| 0 <= i < n && next[i] == l;
        }
      } else {
        assert HasKey(next, key) <==> HasKey(next[..n], key);
      }
    }
  }

  lemma {:induction false} AmountOfLine(lines: seq<Line>, key: string)
    requires UniqueKeys(lines)
    ensures forall l :: l in lines && Key(l) == key ==> AmountAt(lines, key) == l.amount
    ensures !HasKey(lines, key) ==> AmountAt(lines, key) == 0.0
  {
    if lines != [] {
      var n := |lines| - 1;
      AmountOfLine(lines[..n], key);
      assert lines == lines[..n] + [lines[n]];
      forall l | l in lines && Key(l) == key
        ensures AmountAt(lines, key) == l.amount
      {
        var i :| 0 <= i <= n && lines[i] == l;
        assert i < n ==> Key(lines[n]) != key && l in lines[..n];
      }
    }
  }

  /** Line by line: a line of the next bill shows what it costs more than the line of that key before, or all of it when there was none. */
  lemma {:induction false} DeltasPerLine(prev: Bill, next: Bill, l: Line)
    requires UniqueKeys(prev.lines) && UniqueKeys(next.lines) && l in next.lines
    ensures var deltas := Deltas(Some(prev), next);
            && (forall m :: m in prev.lines && Key(m) == Key(l) ==>
                  if l.amount == m.amount then Key(l) !in deltas
                  else Key(l) in deltas && deltas[Key(l)] == l.amount - m.amount)
            && ((forall m :: m in prev.lines ==> Key(m) != Key(l)) ==>
                  if l.amount == 0.0 then Key(l) !in deltas else Key(l) in deltas && deltas[Key(l)] == l.amount)
  {
    ChangesPerKey(prev.lines, next.lines, Key(l));
    AmountOfLine(prev.lines, Key(l));
    AmountOfLine(next.lines, Key(l));
  }

  /** Sum of the changes along the lines of the next bill. */
  function SumOfChanges(next: seq<Line>, changes: map<string, real>): real {
    if next == [] then 0.0
    else
      var key := Key(next[|next| - 1]);
      SumOfChanges(next[..|next| - 1], changes) + (if key in changes then changes[key] else 0.0)
  }

  /** Previous amounts of the keys the next bill still has. */
  function SumOfSurvivors(prev: seq<Line>, next: seq<Line>): real {
    if next == [] then 0.0
    else SumOfSurvivors(prev, next[..|next| - 1]) + AmountAt(prev, Key(next[|next| - 1]))
  }

  lemma SumOfChangesSame(next: seq<Line>, a: map<string, real>, b: map<string, real>)
    requires forall l :: l in next ==> (Key(l) in a <==> Key(l) in b) && (Key(l) in a ==> a[Key(l)] == b[Key(l)])
    ensures SumOfChanges(next, a) == SumOfChanges(next, b)
  {
  }

  /** Money is conserved: the changes plus what the surviving lines cost before make up the next bill. */
  lemma {:induction false} ChangesConserveMoney(prev: seq<Line>, next: seq<Line>)
    requires UniqueKeys(next)
    ensures SumOfChanges(next, Changes(prev, next)) + SumOfSurvivors(prev, next) == SumOf(next)
  {
    if next != [] {
      var n := |next| - 1;
      var init, l := next[..n], next[n];
      ChangesConserveMoney(prev, init);
      SumConcat(init, [l]);
      assert next == init + [l];
      assert SumOf([l]) == l.amount + SumOf([l][1..]);
      forall m | m in init
        ensures Key(m) != Key(l)
      {
        var i :| 0 <= i < n && next[i] == m;
      }
      SumOfChangesSame(init, Changes(prev, next), Changes(prev, init));
      ChangesPerKey(prev, init, Key(l));
    }
  }

  /** Between two fetched bills the changes account for the whole of the next total. */
  lemma {:induction false} DeltasExplainTotal(prev: Bill, periods: seq<Period>, next: Bill)
    requires BillFor(periods, next)
    ensures SumOfChanges(next.lines, Deltas(Some(prev), next)) + SumOfSurvivors(prev.lines, next.lines) == next.total
    ensures forall key :: key in Deltas(Some(prev), next) <==>
              HasKey(next.lines, key) && AmountAt(next.lines, key) != AmountAt(prev.lines, key)
  {
    ChangesConserveMoney(prev.lines, next.lines);
    forall key
      ensures key in Deltas(Some(prev), next) <==>
              HasKey(next.lines, key) && AmountAt(next.lines, key) != AmountAt(prev.lines, key)
    {
      ChangesPerKey(prev.lines, next.lines, key);
    }
  }
}
