/** Navigating log groups, streams and events: selections, filters, view and focus. */
module Explorer {
  import opened Arithmetic
  import opened Options

  datatype Focus = OnGroups | OnStreams | OnEvents
  datatype View = StreamsView | EventsView
  datatype Group = Group(name: string, region: string)

  /** A filtered list: everything loaded, what the filter lets through, the selection and the search input. */
  datatype Panel<T> = Panel(all: seq<T>, shown: seq<T>, idx: int, term: string, searching: bool)

  datatype EventPanel = EventPanel(events: seq<string>, idx: int, term: string, searching: bool, loading: bool)

  /** `streamsOf` is the group the listed streams were loaded for; `err` puts the error screen over everything. */
  datatype State = State(focus: Focus, view: View, groups: Panel<Group>, streams: Panel<string>, events: EventPanel,
                         wholeGroup: bool, err: bool, streamsOf: Option<Group>)

  /** Keys reach the browser when nothing covers it; `text` is the search input's value after the key. */
  datatype KeyName = Tab | BackTab | Up | Down | Slash | Enter | Esc | GroupSearch | ClearFilters | Period | OtherKey

  datatype Msg =
    | GroupsLoaded(groups: seq<Group>, failed: bool)
    | StreamsLoaded(name: string, region: string, streams: seq<string>, failed: bool)
    | EventsLoaded(events: seq<string>, failed: bool)
    | Key(key: KeyName, text: string)

  // ---- filters -----------------------------------------------------------------------

  function Lower(s: string): string {
    if s == [] then []
    else [if 'A' <= s[0] <= 'Z' then (s[0] as int + 32) as char else s[0]] + Lower(s[1..])
  }

  predicate Contains(s: string, sub: string) {
    sub <= s || (s != [] && Contains(s[1..], sub))
  }

  predicate GroupMatches(g: Group, term: string) {
    Contains(Lower(g.name), Lower(term)) || Contains(g.region, Lower(term))
  }

  predicate StreamMatches(s: string, term: string) {
    Contains(Lower(s), Lower(term))
  }

  /** The entries a term lets through; an empty term lets all of them. */
  function Filter<T>(matches: (T, string) -> bool, all: seq<T>, term: string): (shown: seq<T>)
    ensures forall x :: x in shown ==> x in all
    ensures term == "" ==> shown == all
  {
    if term == "" then all
    else if all == [] then []
    else
      var last := all[|all| - 1];
      Filter(matches, all[..|all| - 1], term) + (if matches(last, term) then [last] else [])
  }

  lemma {:induction false} FilterSnoc<T>(matches: (T, string) -> bool, all: seq<T>, i: nat, term: string)
    requires i < |all| && term != ""
    ensures Filter(matches, all[..i + 1], term) ==
            Filter(matches, all[..i], term) + if matches(all[i], term) then [all[i]] else []
  {
    assert all[..i + 1][..i] == all[..i];
  }

  /** A selection past the end of its list moves to the last entry. */
  function Clamp(idx: int, len: nat): int {
    if idx < len then idx else if len == 0 then 0 else len - 1
  }

  function Refilter<T>(matches: (T, string) -> bool, p: Panel<T>): Panel<T> {
    var shown := Filter(matches, p.all, p.term);
    p.(shown := shown, idx := Clamp(p.idx, |shown|))
  }

  // ---- keys ----------------------------------------------------------------------------

  function Cycled(s: State, forward: bool): State {
    var other := if s.view == StreamsView then OnStreams else OnEvents;
    if forward then s.(focus := if s.focus == OnGroups then other else OnGroups)
    else s.(focus := if s.focus == other then OnGroups else other)
  }

  /** Stepping through a list of n entries wraps around at both ends. */
  function Stepped(idx: int, dir: int, n: nat): int
    requires n > 0
  {
    (idx + dir + n) % n
  }

  function Navigated(s: State, dir: int): State {
    match s.focus
    case OnGroups =>
      if |s.groups.shown| == 0 then s
      else s.(groups := s.groups.(idx := Stepped(s.groups.idx, dir, |s.groups.shown|)),
              streams := s.streams.(all := [], shown := [], idx := 0), streamsOf := None,
              events := s.events.(events := [], idx := 0), view := StreamsView)
    case OnStreams =>
      if |s.streams.shown| == 0 then s
      else s.(streams := s.streams.(idx := Stepped(s.streams.idx, dir, |s.streams.shown|)))
    case OnEvents =>
      if |s.events.events| == 0 then s
      else s.(events := s.events.(idx := Stepped(s.events.idx, dir, |s.events.events|)))
  }

  function Selected(s: State): State {
    match s.focus
    case OnGroups => if |s.groups.shown| == 0 then s else s.(view := StreamsView, focus := OnStreams)
    case OnStreams =>
      if |s.streams.shown| == 0 then s
      else s.(events := s.events.(loading := true), view := EventsView, focus := OnEvents, wholeGroup := false)
    case OnEvents => s
  }

  function Backed(s: State): State {
    match s.focus
    case OnEvents =>
      if s.wholeGroup then s.(wholeGroup := false, view := StreamsView, focus := OnGroups)
      else s.(view := StreamsView, focus := OnStreams)
    case OnStreams => s.(view := StreamsView, focus := OnGroups)
    case OnGroups => s
  }

  /** First index holding x, or the given one when there is none. */
  function IndexOr<T(==)>(s: seq<T>, x: T, other: int): (i: int)
    ensures if x in s then 0 <= i < |s| && s[i] == x else i == other
    ensures x in s ==> x !in s[..i]
    decreases |s|
  {
    if x !in s then other
    else if s[0] == x then 0
    else
      assert x in s[1..];
      var i := 1 + IndexOr(s[1..], x, other);
      assert s[..i] == [s[0]] + s[1..][..i - 1];
      i
  }

  /** Drop the filter of a panel and select the wanted entry again if it is there. */
  function Widened<T(==)>(matches: (T, string) -> bool, p: Panel<T>, wanted: seq<T>): Panel<T> {
    var wide := Refilter(matches, p.(term := ""));
    if wanted == [] then wide else wide.(idx := IndexOr(wide.shown, wanted[0], wide.idx))
  }

  /** The entry under the cursor, if there is one. */
  function Current<T>(p: Panel<T>): seq<T> {
    if 0 <= p.idx < |p.shown| then [p.shown[p.idx]] else []
  }

  function Named(names: seq<string>): seq<string> {
    if names == [""] then [] else names
  }

  function Cleared(s: State): State {
    if s.groups.term == "" && s.streams.term == "" && s.events.term == "" then s
    else s.(groups := Widened(GroupMatches, s.groups, Current(s.groups)),
            streams := Widened(StreamMatches, s.streams, Named(Current(s.streams))),
            events := s.events.(term := "", loading := s.events.loading || s.view == EventsView))
  }

  function SearchedGroup(s: State): State {
    if |s.groups.shown| == 0 then s
    else
      var prompt := !s.wholeGroup && s.events.term == "";
      s.(wholeGroup := !s.wholeGroup, view := EventsView, focus := OnEvents,
         events := if prompt then s.events.(events := [], idx := 0, loading := false, searching := true)
                   else s.events.(loading := true))
  }

  function Searching(s: State): State {
    match s.focus
    case OnGroups => s.(groups := s.groups.(searching := true))
    case OnStreams => s.(streams := s.streams.(searching := true))
    case OnEvents => s.(events := s.events.(searching := true))
  }

  /** A key typed into a list's search input. */
  function Typed<T>(matches: (T, string) -> bool, p: Panel<T>, key: KeyName, text: string): Panel<T> {
    match key
    case Enter => Refilter(matches, p.(searching := false))
    case Esc => Refilter(matches, p.(searching := false, term := ""))
    case _ => Refilter(matches, p.(term := text))
  }

  function TypedEvent(s: State, key: KeyName, text: string): State {
    match key
    case Enter => s.(events := s.events.(searching := false, loading := true))
    case Esc =>
      if s.events.term == "" && |s.events.events| == 0 && !s.events.loading then
        Backed(s.(events := s.events.(searching := false)))
      else s.(events := s.events.(searching := false, term := "", loading := true))
    case _ => s.(events := s.events.(term := text))
  }

  function Pressed(s: State, key: KeyName, text: string): State {
    if s.err then (if key.Enter? || key.Esc? then s.(err := false) else s)
    else if s.groups.searching && s.focus == OnGroups then s.(groups := Typed(GroupMatches, s.groups, key, text))
    else if s.streams.searching && s.focus == OnStreams then s.(streams := Typed(StreamMatches, s.streams, key, text))
    else if s.events.searching && s.focus == OnEvents then TypedEvent(s, key, text)
    else
      match key
      case Tab => Cycled(s, true)
      case BackTab => Cycled(s, false)
      case Up => Navigated(s, -1)
      case Down => Navigated(s, 1)
      case Slash => Searching(s)
      case Enter => Selected(s)
      case Esc => Backed(s)
      case GroupSearch => SearchedGroup(s)
      case ClearFilters => Cleared(s)
      case Period => if s.view == EventsView then s.(events := s.events.(loading := true)) else s
      case OtherKey => s
  }

  function Next(s: State, msg: Msg): State {
    match msg
    case GroupsLoaded(groups, failed) =>
      if failed then s.(err := true) else s.(groups := Refilter(GroupMatches, s.groups.(all := groups)))
    case StreamsLoaded(name, region, streams, failed) =>
      if Current(s.groups) != [Group(name, region)] then s
      else if failed then s.(err := true)
      else s.(streams := Refilter(StreamMatches, s.streams.(all := streams)), streamsOf := Some(Group(name, region)))
    case EventsLoaded(events, failed) =>
      if failed && events == [] then s.(events := s.events.(loading := false), err := true)
      else s.(events := s.events.(loading := false, events := events, idx := Clamp(s.events.idx, |events|)))
    case Key(key, text) => Pressed(s, key, text)
  }

  /** The explorer as opened, possibly with filters given up front. */
  function Opened(groupTerm: string, streamTerm: string, eventTerm: string): State {
    State(OnGroups, StreamsView, Panel([], [], 0, groupTerm, false), Panel([], [], 0, streamTerm, false),
          EventPanel([], 0, eventTerm, false, false), false, false, None)
  }

  // ---- the model with its fields -----------------------------------------------------------

  class Model {
    var focus: Focus
    var view: View
    var groups: Panel<Group>
    var streams: Panel<string>
    var events: EventPanel
    var wholeGroup: bool
    var err: bool
    ghost var streamsOf: Option<Group>

    ghost function Contents(): State
      reads this
    {
      State(focus, view, groups, streams, events, wholeGroup, err, streamsOf)
    }

    constructor (groupTerm: string, streamTerm: string, eventTerm: string)
      ensures Contents() == Opened(groupTerm, streamTerm, eventTerm)
    {
      focus, view, wholeGroup := OnGroups, StreamsView, false;
      groups := Panel([], [], 0, groupTerm, false);
      streams := Panel([], [], 0, streamTerm, false);
      events := EventPanel([], 0, eventTerm, false, false);
      err, streamsOf := false, None;
    }

    method FilterGroups()
      modifies `groups
      ensures groups == Refilter(GroupMatches, old(groups))
    {
      var list := FilterList(GroupMatches, groups.all, groups.term);
      groups := groups.(shown := list);
      if groups.idx >= |list| {
        groups := groups.(idx := if |list| == 0 then 0 else |list| - 1);
      }
    }

    method FilterStreams()
      modifies `streams
      ensures streams == Refilter(StreamMatches, old(streams))
    {
      var list := FilterList(StreamMatches, streams.all, streams.term);
      streams := streams.(shown := list);
      if streams.idx >= |list| {
        streams := streams.(idx := if |list| == 0 then 0 else |list| - 1);
      }
    }

    method CycleFocus(forward: bool)
      modifies `focus
      ensures Contents() == Cycled(old(Contents()), forward)
    {
      var other := if view == StreamsView then OnStreams else OnEvents;
      if forward {
        focus := if focus == OnGroups then other else OnGroups;
      } else {
        focus := if focus == other then OnGroups else other;
      }
    }

    method NavigateList(dir: int)
      modifies this
      ensures Contents() == Navigated(old(Contents()), dir)
    {
      match focus
      case OnGroups =>
        if |groups.shown| > 0 {
          groups := groups.(idx := (groups.idx + dir + |groups.shown|) % |groups.shown|);
          streams := streams.(all := [], shown := [], idx := 0);
          streamsOf := None;
          events := events.(events := [], idx := 0);
          view := StreamsView;
        }
      case OnStreams =>
        if |streams.shown| > 0 {
          streams := streams.(idx := (streams.idx + dir + |streams.shown|) % |streams.shown|);
        }
      case OnEvents =>
        if |events.events| > 0 {
          events := events.(idx := (events.idx + dir + |events.events|) % |events.events|);
        }
    }

    method HandleSelection()
      modifies this
      ensures Contents() == Selected(old(Contents()))
    {
      match focus
      case OnGroups =>
        if |groups.shown| > 0 {
          view := StreamsView;
          focus := OnStreams;
        }
      case OnStreams =>
        if |streams.shown| > 0 {
          events := events.(loading := true);
          view := EventsView;
          focus := OnEvents;
          wholeGroup := false;
        }
      case OnEvents =>
    }

    method HandleBack()
      modifies this
      ensures Contents() == Backed(old(Contents()))
    {
      if focus == OnEvents {
        view := StreamsView;
        if wholeGroup {
          wholeGroup := false;
          focus := OnGroups;
        } else {
          focus := OnStreams;
        }
      } else if focus == OnStreams {
        view := StreamsView;
        focus := OnGroups;
      }
    }

    /** Drop the group filter and point the selection at the same group again. */
    method WidenGroups()
      modifies `groups
      ensures groups == Widened(GroupMatches, old(groups), Current(old(groups)))
    {
      var group := Current(groups);
      groups := groups.(term := "");
      FilterGroups();
      if group != [] {
        var i := FirstIndex(groups.shown, group[0], groups.idx);
        groups := groups.(idx := i);
      }
    }

    method WidenStreams()
      modifies `streams
      ensures streams == Widened(StreamMatches, old(streams), Named(Current(old(streams))))
    {
      var stream := Named(Current(streams));
      streams := streams.(term := "");
      FilterStreams();
      if stream != [] {
        var i := FirstIndex(streams.shown, stream[0], streams.idx);
        streams := streams.(idx := i);
      }
    }

    method ClearAllFilters()
      modifies this
      ensures Contents() == Cleared(old(Contents()))
    {
      if groups.term == "" && streams.term == "" && events.term == "" {
        return;
      }
      WidenGroups();
      WidenStreams();
      events := events.(term := "");
      if view == EventsView {
        events := events.(loading := true);
      }
    }

    method Update(msg: Msg)
      modifies this
      ensures Contents() == Next(old(Contents()), msg)
    {
      match msg
      case GroupsLoaded(loaded, failed) =>
        if failed {
          err := true;
        } else {
          groups := groups.(all := loaded);
          FilterGroups();
        }
      case StreamsLoaded(name, region, loaded, failed) =>
        if Current(groups) != [Group(name, region)] {
          return;
        }
        if failed {
          err := true;
        } else {
          streams := streams.(all := loaded);
          streamsOf := Some(Group(name, region));
          FilterStreams();
        }
      case EventsLoaded(loaded, failed) =>
        events := events.(loading := false);
        if failed && |loaded| == 0 {
          err := true;
        } else {
          events := events.(events := loaded);
          if events.idx >= |events.events| {
            events := events.(idx := if |events.events| == 0 then 0 else |events.events| - 1);
          }
        }
      case Key(key, text) =>
        HandleKey(key, text);
    }

    method HandleKey(key: KeyName, text: string)
      modifies this
      ensures Contents() == Pressed(old(Contents()), key, text)
    {
      if err {
        if key.Enter? || key.Esc? {
          err := false;
        }
      } else if groups.searching && focus == OnGroups {
        if key.Enter? {
          groups := groups.(searching := false);
        } else if key.Esc? {
          groups := groups.(searching := false, term := "");
        } else {
          groups := groups.(term := text);
        }
        FilterGroups();
      } else if streams.searching && focus == OnStreams {
        if key.Enter? {
          streams := streams.(searching := false);
        } else if key.Esc? {
          streams := streams.(searching := false, term := "");
        } else {
          streams := streams.(term := text);
        }
        FilterStreams();
      } else if events.searching && focus == OnEvents {
        if key.Enter? {
          events := events.(searching := false, loading := true);
        } else if key.Esc? {
          events := events.(searching := false);
          if events.term == "" && |events.events| == 0 && !events.loading {
            HandleBack();
          } else {
            events := events.(term := "", loading := true);
          }
        } else {
          events := events.(term := text);
        }
      } else {
        Command(key);
      }
    }

    method Command(key: KeyName)
      requires !err && !(groups.searching && focus == OnGroups) && !(streams.searching && focus == OnStreams)
      requires !(events.searching && focus == OnEvents)
      modifies this
      ensures forall text :: Contents() == Pressed(old(Contents()), key, text)
    {
      match key
      case Tab => CycleFocus(true);
      case BackTab => CycleFocus(false);
      case Up => NavigateList(-1);
      case Down => NavigateList(1);
      case Slash =>
        match focus {
          case OnGroups => groups := groups.(searching := true);
          case OnStreams => streams := streams.(searching := true);
          case OnEvents => events := events.(searching := true);
        }
      case Enter => HandleSelection();
      case Esc => HandleBack();
      case GroupSearch =>
        if |groups.shown| > 0 {
          wholeGroup := !wholeGroup;
          view := EventsView;
          focus := OnEvents;
          if wholeGroup && events.term == "" {
            events := events.(events := [], idx := 0, loading := false, searching := true);
          } else {
            events := events.(loading := true);
          }
        }
      case ClearFilters => ClearAllFilters();
      case Period =>
        if view == EventsView {
          events := events.(loading := true);
        }
      case OtherKey =>
    }
  }

  method FilterList<T>(matches: (T, string) -> bool, all: seq<T>, term: string) returns (list: seq<T>)
    ensures list == Filter(matches, all, term)
  {
    if term == "" {
      return all;
    }
    list := [];
    for i := 0 to |all|
      invariant list == Filter(matches, all[..i], term)
    {
      FilterSnoc(matches, all, i, term);
      if matches(all[i], term) {
        list := list + [all[i]];
      }
    }
    assert all[..|all|] == all;
  }

  method FirstIndex<T(==)>(s: seq<T>, x: T, other: int) returns (i: int)
    ensures i == IndexOr(s, x, other)
  {
    for j := 0 to |s|
      invariant x !in s[..j]
    {
      if s[j] == x {
        FirstIsUnique(s, x, other, j);
        return j;
      }
    }
    assert s[..|s|] == s;
    return other;
  }

  lemma {:induction false} FirstIsUnique<T>(s: seq<T>, x: T, other: int, j: nat)
    requires j < |s| && s[j] == x && x !in s[..j]
    ensures IndexOr(s, x, other) == j
  {
    if j > 0 {
      assert s[..j][0] == s[0];
      assert s[1..][..j - 1] == s[..j][1..];
      FirstIsUnique(s[1..], x, other, j - 1);
    }
  }

  // ---- the invariant ----------------------------------------------------------------------

  predicate InList(idx: int, len: nat) {
    0 <= idx && if len == 0 then idx == 0 else idx < len
  }

  predicate Paired(view: View, focus: Focus) {
    focus == OnGroups || (view == StreamsView && focus == OnStreams) || (view == EventsView && focus == OnEvents)
  }

  ghost predicate PanelOk<T>(matches: (T, string) -> bool, p: Panel<T>) {
    InList(p.idx, |p.shown|) && p.shown == Filter(matches, p.all, p.term)
  }

  /** Each selection is in its list, each list is the filter of what is loaded, and the focus is on a visible panel. */
  ghost predicate Sound(s: State) {
    && PanelOk(GroupMatches, s.groups) && PanelOk(StreamMatches, s.streams)
    && InList(s.events.idx, |s.events.events|)
    && Paired(s.view, s.focus)
  }

  lemma {:induction false} SteppedInList(idx: int, dir: int, n: nat)
    requires n > 0 && 0 <= idx < n && (dir == 1 || dir == -1)
    ensures 0 <= Stepped(idx, dir, n) < n
    ensures Stepped(idx, dir, n) == if 0 <= idx + dir < n then idx + dir else if dir == 1 then 0 else n - 1
  {
    WrapOnce(idx + dir + n, n);
  }

  lemma {:induction false} NavigateKeeps(s: State, dir: int)
    requires Sound(s) && (dir == 1 || dir == -1)
    ensures Sound(Navigated(s, dir))
  {
    if s.focus == OnGroups && |s.groups.shown| > 0 {
      SteppedInList(s.groups.idx, dir, |s.groups.shown|);
    }
    if s.focus == OnStreams && |s.streams.shown| > 0 {
      SteppedInList(s.streams.idx, dir, |s.streams.shown|);
    }
    if s.focus == OnEvents && |s.events.events| > 0 {
      SteppedInList(s.events.idx, dir, |s.events.events|);
    }
  }

  lemma {:induction false} RefilterOk<T>(matches: (T, string) -> bool, p: Panel<T>)
    requires p.idx >= 0
    ensures PanelOk(matches, Refilter(matches, p))
  {
  }

  lemma {:induction false} WidenedOk<T>(matches: (T, string) -> bool, p: Panel<T>)
    requires PanelOk(matches, p)
    ensures forall wanted :: PanelOk(matches, Widened(matches, p, wanted))
    ensures forall wanted :: |wanted| == 1 && wanted[0] in p.all ==>
              Current(Widened(matches, p, wanted)) == wanted
  {
    RefilterOk(matches, p.(term := ""));
  }

  lemma {:induction false} TypedOk<T>(matches: (T, string) -> bool, p: Panel<T>, key: KeyName, text: string)
    requires PanelOk(matches, p)
    ensures PanelOk(matches, Typed(matches, p, key, text))
  {
    RefilterOk(matches, p.(searching := false));
    RefilterOk(matches, p.(searching := false, term := ""));
    RefilterOk(matches, p.(term := text));
  }

  lemma {:induction false} ClearKeeps(s: State)
    requires Sound(s)
    ensures Sound(Cleared(s))
  {
    WidenedOk(GroupMatches, s.groups);
    WidenedOk(StreamMatches, s.streams);
  }

  lemma {:induction false} FocusKeeps(s: State)
    requires Sound(s)
    ensures Sound(Cycled(s, true)) && Sound(Cycled(s, false)) && Sound(Selected(s)) && Sound(Backed(s))
  {
  }

  lemma {:induction false} SearchKeeps(s: State)
    requires Sound(s)
    ensures Sound(Searching(s)) && Sound(SearchedGroup(s))
  {
    PanelSame(GroupMatches, s.groups, Searching(s).groups);
    PanelSame(StreamMatches, s.streams, Searching(s).streams);
  }

  lemma {:induction false} CommandKeeps(s: State, key: KeyName, text: string)
    requires Sound(s) && key != ClearFilters && key != Up && key != Down
    requires !s.err && !(s.groups.searching && s.focus == OnGroups) && !(s.streams.searching && s.focus == OnStreams)
    requires !(s.events.searching && s.focus == OnEvents)
    ensures Sound(Pressed(s, key, text))
  {
    if key == Slash || key == GroupSearch {
      SearchKeeps(s);
    } else {
      FocusKeeps(s);
    }
  }

  /** The search flag is not part of what makes a panel right. */
  lemma {:induction false} PanelSame<T>(matches: (T, string) -> bool, p: Panel<T>, q: Panel<T>)
    requires PanelOk(matches, p) && q.(searching := p.searching) == p
    ensures PanelOk(matches, q)
  {
  }

  lemma {:induction false} PressedKeeps(s: State, key: KeyName, text: string)
    requires Sound(s)
    ensures Sound(Pressed(s, key, text))
  {
    if s.err {
    } else if s.groups.searching && s.focus == OnGroups {
      TypedOk(GroupMatches, s.groups, key, text);
    } else if s.streams.searching && s.focus == OnStreams {
      TypedOk(StreamMatches, s.streams, key, text);
    } else if s.events.searching && s.focus == OnEvents {
      TypedEventKeeps(s, key, text);
    } else if key == ClearFilters {
      ClearKeeps(s);
    } else if key == Up {
      NavigateKeeps(s, -1);
    } else if key == Down {
      NavigateKeeps(s, 1);
    } else {
      CommandKeeps(s, key, text);
    }
  }

  lemma {:induction false} TypedEventKeeps(s: State, key: KeyName, text: string)
    requires Sound(s)
    ensures Sound(TypedEvent(s, key, text))
  {
  }

  lemma {:induction false} NextKeeps(s: State, msg: Msg)
    requires Sound(s)
    ensures Sound(Next(s, msg))
  {
    match msg
    case GroupsLoaded(groups, _) => RefilterOk(GroupMatches, s.groups.(all := groups));
    case StreamsLoaded(_, _, streams, _) => RefilterOk(StreamMatches, s.streams.(all := streams));
    case EventsLoaded(_, _) =>
    case Key(key, text) => PressedKeeps(s, key, text);
  }

  function After(s: State, msgs: seq<Msg>): State
    decreases msgs
  {
    if msgs == [] then s else After(Next(s, msgs[0]), msgs[1..])
  }

  lemma {:induction false} AlwaysSound(s: State, msgs: seq<Msg>)
    requires Sound(s)
    ensures Sound(After(s, msgs))
    decreases msgs
  {
    if msgs != [] {
      NextKeeps(s, msgs[0]);
      AlwaysSound(Next(s, msgs[0]), msgs[1..]);
    }
  }

  /** Whatever is loaded, filtered and pressed: no selection leaves its list, and the focus is on a panel the view shows. */
  lemma {:induction false} ExplorerIsSound(groupTerm: string, streamTerm: string, eventTerm: string, msgs: seq<Msg>)
    ensures Sound(After(Opened(groupTerm, streamTerm, eventTerm), msgs))
  {
    AlwaysSound(Opened(groupTerm, streamTerm, eventTerm), msgs);
  }

  // ---- what the filter lets through --------------------------------------------------------

  predicate ReadsAt(s: string, sub: string, i: nat) {
    i + |sub| <= |s| && s[i..i + |sub|] == sub
  }

  /** Some stretch of s reads like sub. */
  ghost predicate HasStretch(s: string, sub: string) {
    exists i: nat :: ReadsAt(s, sub, i)
  }

  lemma {:induction false} ReadsBehind(s: string, sub: string, i: nat)
    requires s != []
    ensures ReadsAt(s, sub, i + 1) <==> ReadsAt(s[1..], sub, i)
  {
    if i + 1 + |sub| <= |s| {
      assert s[i + 1..i + 1 + |sub|] == s[1..][i..i + |sub|];
    }
  }

  lemma {:induction false} StretchBehind(s: string, sub: string)
    requires s != []
    ensures HasStretch(s, sub) <==> ReadsAt(s, sub, 0) || HasStretch(s[1..], sub)
  {
    if i: nat :| ReadsAt(s[1..], sub, i) {
      ReadsBehind(s, sub, i);
    }
    if i: nat :| i > 0 && ReadsAt(s, sub, i) {
      ReadsBehind(s, sub, i - 1);
    }
  }

  lemma {:induction false} ContainsMeans(s: string, sub: string)
    ensures Contains(s, sub) <==> HasStretch(s, sub)
  {
    assert sub <= s <==> ReadsAt(s, sub, 0);
    if s != [] {
      ContainsMeans(s[1..], sub);
      StretchBehind(s, sub);
    }
  }

  lemma {:induction false} LowerMeans(s: string)
    ensures |Lower(s)| == |s|
    ensures forall i :: 0 <= i < |s| ==> Lower(s)[i] == if 'A' <= s[i] <= 'Z' then (s[i] as int + 32) as char else s[i]
  {
    if s != [] {
      LowerMeans(s[1..]);
    }
  }

  /** A group matches by a stretch of its name in whatever case, or of its region; a stream by one of its name. */
  lemma {:induction false} MatchesMean(g: Group, s: string, term: string)
    ensures GroupMatches(g, term) <==> HasStretch(Lower(g.name), Lower(term)) || HasStretch(g.region, Lower(term))
    ensures StreamMatches(s, term) <==> HasStretch(Lower(s), Lower(term))
  {
    ContainsMeans(Lower(g.name), Lower(term));
    ContainsMeans(g.region, Lower(term));
    ContainsMeans(Lower(s), Lower(term));
  }

  lemma {:induction false} FilterMembers<T>(matches: (T, string) -> bool, all: seq<T>, term: string, x: T)
    ensures x in Filter(matches, all, term) <==> x in all && (term == "" || matches(x, term))
  {
    if term != "" && all != [] {
      var n := |all| - 1;
      FilterMembers(matches, all[..n], term, x);
      assert all == all[..n] + [all[n]];
    }
  }

  /** Filtering keeps the order: what comes of a list is what comes of its front and then of the rest. */
  lemma {:induction false} FilterInOrder<T>(matches: (T, string) -> bool, a: seq<T>, b: seq<T>, term: string)
    ensures Filter(matches, a + b, term) == Filter(matches, a, term) + Filter(matches, b, term)
    decreases |b|
  {
    if b == [] {
      assert a + b == a;
    } else {
      var n := |b| - 1;
      FilterInOrder(matches, a, b[..n], term);
      assert (a + b)[..|a + b| - 1] == a + b[..n];
    }
  }

  // ---- what keys do, undo and keep --------------------------------------------------------------

  /** Some run from opening leads here. */
  ghost predicate Reachable(s: State) {
    exists groupTerm, streamTerm, eventTerm, msgs :: s == After(Opened(groupTerm, streamTerm, eventTerm), msgs)
  }

  /** Only the focused panel's search input is ever active. */
  predicate SearchesInFocus(s: State) {
    && (s.groups.searching ==> s.focus == OnGroups) && (s.streams.searching ==> s.focus == OnStreams)
    && (s.events.searching ==> s.focus == OnEvents)
  }

  /** No error screen, and no search input takes the keys. */
  predicate Free(s: State) {
    !s.err && !s.groups.searching && !s.streams.searching && !s.events.searching
  }

  lemma {:induction false} CommandInFocus(s: State, key: KeyName, text: string)
    requires Free(s)
    ensures SearchesInFocus(Pressed(s, key, text))
  {
    if key == Up || key == Down {
      assert Pressed(s, key, text) == Navigated(s, if key == Up then -1 else 1);
    } else if key == ClearFilters {
      assert Pressed(s, key, text) == Cleared(s);
    }
  }

  lemma {:induction false} NextInFocus(s: State, msg: Msg)
    requires SearchesInFocus(s)
    ensures SearchesInFocus(Next(s, msg))
  {
    if msg.Key? && Free(s) {
      CommandInFocus(s, msg.key, msg.text);
    }
  }

  lemma {:induction false} AlwaysInFocus(s: State, msgs: seq<Msg>)
    requires SearchesInFocus(s)
    ensures SearchesInFocus(After(s, msgs))
    decreases msgs
  {
    if msgs != [] {
      NextInFocus(s, msgs[0]);
      AlwaysInFocus(Next(s, msgs[0]), msgs[1..]);
    }
  }

  lemma {:induction false} ReachableSound(s: State)
    requires Reachable(s)
    ensures Sound(s) && SearchesInFocus(s)
  {
    var groupTerm, streamTerm, eventTerm, msgs :| s == After(Opened(groupTerm, streamTerm, eventTerm), msgs);
    ExplorerIsSound(groupTerm, streamTerm, eventTerm, msgs);
    AlwaysInFocus(Opened(groupTerm, streamTerm, eventTerm), msgs);
  }

  function Below(idx: int, n: nat): int {
    if idx == n - 1 then 0 else idx + 1
  }

  function Above(idx: int, n: nat): int {
    if idx == 0 then n - 1 else idx - 1
  }

  /** Another group under the cursor: its streams and events are yet to be loaded. */
  function OnGroup(s: State, idx: int): State {
    s.(groups := s.groups.(idx := idx), streams := s.streams.(all := [], shown := [], idx := 0), streamsOf := None,
       events := s.events.(events := [], idx := 0), view := StreamsView)
  }

  /** In the groups panel Down goes to the next entry and from the last to the first, Up the other way; streams and events go. */
  lemma {:induction false} ArrowsInGroups(s: State, text: string)
    requires Reachable(s) && Free(s) && s.focus == OnGroups
    ensures s.groups.shown == [] ==> Next(s, Key(Down, text)) == s && Next(s, Key(Up, text)) == s
    ensures s.groups.shown != [] ==>
              && Next(s, Key(Down, text)) == OnGroup(s, Below(s.groups.idx, |s.groups.shown|))
              && Next(s, Key(Up, text)) == OnGroup(s, Above(s.groups.idx, |s.groups.shown|))
  {
    ReachableSound(s);
    if s.groups.shown != [] {
      SteppedInList(s.groups.idx, 1, |s.groups.shown|);
      SteppedInList(s.groups.idx, -1, |s.groups.shown|);
    }
  }

  lemma {:induction false} ArrowsInStreams(s: State, text: string)
    requires Reachable(s) && Free(s) && s.focus == OnStreams
    ensures s.streams.shown == [] ==> Next(s, Key(Down, text)) == s && Next(s, Key(Up, text)) == s
    ensures s.streams.shown != [] ==>
              && Next(s, Key(Down, text)) == s.(streams := s.streams.(idx := Below(s.streams.idx, |s.streams.shown|)))
              && Next(s, Key(Up, text)) == s.(streams := s.streams.(idx := Above(s.streams.idx, |s.streams.shown|)))
  {
    ReachableSound(s);
    if s.streams.shown != [] {
      SteppedInList(s.streams.idx, 1, |s.streams.shown|);
      SteppedInList(s.streams.idx, -1, |s.streams.shown|);
    }
  }

  lemma {:induction false} ArrowsInEvents(s: State, text: string)
    requires Reachable(s) && Free(s) && s.focus == OnEvents
    ensures s.events.events == [] ==> Next(s, Key(Down, text)) == s && Next(s, Key(Up, text)) == s
    ensures s.events.events != [] ==>
              && Next(s, Key(Down, text)) == s.(events := s.events.(idx := Below(s.events.idx, |s.events.events|)))
              && Next(s, Key(Up, text)) == s.(events := s.events.(idx := Above(s.events.idx, |s.events.events|)))
  {
    ReachableSound(s);
    if s.events.events != [] {
      SteppedInList(s.events.idx, 1, |s.events.events|);
      SteppedInList(s.events.idx, -1, |s.events.events|);
    }
  }

  lemma {:induction false} StepsCancel(s: State, dir: int)
    requires Sound(s) && s.focus != OnGroups && (dir == 1 || dir == -1)
    ensures Navigated(Navigated(s, dir), -dir) == s
  {
    if s.focus == OnStreams && |s.streams.shown| > 0 {
      SteppedInList(s.streams.idx, dir, |s.streams.shown|);
      SteppedInList(Stepped(s.streams.idx, dir, |s.streams.shown|), -dir, |s.streams.shown|);
    }
    if s.focus == OnEvents && |s.events.events| > 0 {
      SteppedInList(s.events.idx, dir, |s.events.events|);
      SteppedInList(Stepped(s.events.idx, dir, |s.events.events|), -dir, |s.events.events|);
    }
  }

  /** In the streams and events panels Up undoes Down and the other way round, wrap-around included. */
  lemma {:induction false} UpUndoesDown(s: State, text: string)
    requires Reachable(s) && Free(s) && s.focus != OnGroups
    ensures Next(Next(s, Key(Down, text)), Key(Up, text)) == s
    ensures Next(Next(s, Key(Up, text)), Key(Down, text)) == s
  {
    ReachableSound(s);
    StepsCancel(s, 1);
    StepsCancel(s, -1);
  }

  /** Tab and Shift-Tab go between the groups and the panel beside them, and so undo themselves and each other. */
  lemma {:induction false} TabKeys(s: State, text: string)
    requires Reachable(s) && Free(s)
    ensures Next(s, Key(Tab, text)) == Next(s, Key(BackTab, text))
         == s.(focus := if s.focus != OnGroups then OnGroups else if s.view == StreamsView then OnStreams else OnEvents)
    ensures Next(Next(s, Key(Tab, text)), Key(BackTab, text)) == s
  {
    ReachableSound(s);
  }

  /** Enter goes from a group to its streams and from a stream to its events, which it loads; Esc leads back. */
  lemma {:induction false} EnterAndEsc(s: State, text: string)
    requires Reachable(s) && Free(s)
    ensures s.focus == OnGroups && s.groups.shown != [] ==>
              var inside := Next(s, Key(Enter, text));
              && inside == s.(view := StreamsView, focus := OnStreams)
              && Next(inside, Key(Esc, text)) == s.(view := StreamsView)
    ensures s.focus == OnStreams && s.streams.shown != [] ==>
              var inside := Next(s, Key(Enter, text));
              && inside == s.(view := EventsView, focus := OnEvents, wholeGroup := false, events := s.events.(loading := true))
              && Next(inside, Key(Esc, text)) == inside.(view := StreamsView, focus := OnStreams)
    ensures s.focus == OnEvents || (s.focus == OnGroups && s.groups.shown == []) || (s.focus == OnStreams && s.streams.shown == []) ==>
              Next(s, Key(Enter, text)) == s
  {
  }

  /** From anywhere at most two Escs lead to the groups. */
  lemma {:induction false} EscLeadsToGroups(s: State, text: string)
    requires Reachable(s) && Free(s)
    ensures var once := Next(s, Key(Esc, text));
            && Next(once, Key(Esc, text)).focus == OnGroups
            && (s.focus == OnGroups ==> once == s)
            && (s.focus == OnStreams ==> once == s.(focus := OnGroups, view := StreamsView))
            && (s.focus == OnEvents ==>
                  once == if s.wholeGroup then s.(wholeGroup := false, view := StreamsView, focus := OnGroups)
                          else s.(view := StreamsView, focus := OnStreams))
  {
  }

  /** A search in the groups: what is typed filters at once, Enter leaves it so, Esc shows everything again. */
  lemma {:induction false} SearchInGroups(s: State, term: string, text: string)
    requires Reachable(s) && Free(s) && s.focus == OnGroups
    ensures var typed := Next(Next(s, Key(Slash, text)), Key(OtherKey, term));
            var kept, dropped := Next(typed, Key(Enter, text)), Next(typed, Key(Esc, text));
            && (forall g :: g in typed.groups.shown <==> g in s.groups.all && (term == "" || GroupMatches(g, term)))
            && kept.groups == typed.groups.(searching := false) && kept.groups.term == term && Free(kept)
            && dropped.groups.shown == s.groups.all == kept.groups.all && dropped.groups.term == "" && Free(dropped)
  {
    forall g
      ensures g in Filter(GroupMatches, s.groups.all, term) <==> g in s.groups.all && (term == "" || GroupMatches(g, term))
    {
      FilterMembers(GroupMatches, s.groups.all, term, g);
    }
  }

  lemma {:induction false} SearchInStreams(s: State, term: string, text: string)
    requires Reachable(s) && Free(s) && s.focus == OnStreams
    ensures var typed := Next(Next(s, Key(Slash, text)), Key(OtherKey, term));
            var kept, dropped := Next(typed, Key(Enter, text)), Next(typed, Key(Esc, text));
            && (forall n :: n in typed.streams.shown <==> n in s.streams.all && (term == "" || StreamMatches(n, term)))
            && kept.streams == typed.streams.(searching := false) && kept.streams.term == term && Free(kept)
            && dropped.streams.shown == s.streams.all == kept.streams.all && dropped.streams.term == "" && Free(dropped)
  {
    forall n
      ensures n in Filter(StreamMatches, s.streams.all, term) <==> n in s.streams.all && (term == "" || StreamMatches(n, term))
    {
      FilterMembers(StreamMatches, s.streams.all, term, n);
    }
  }

  /** A search in the events filters on the server: Enter loads for the term, Esc for none, or backs out before any query ran. */
  lemma {:induction false} SearchInEvents(s: State, term: string, text: string)
    requires Reachable(s) && Free(s) && s.focus == OnEvents
    ensures var typed := Next(Next(s, Key(Slash, text)), Key(OtherKey, term));
            && typed == s.(events := s.events.(searching := true, term := term))
            && Next(typed, Key(Enter, text)) == s.(events := s.events.(term := term, loading := true))
            && Next(typed, Key(Esc, text)) ==
               if term == "" && s.events.events == [] && !s.events.loading
               then Next(s.(events := s.events.(term := "")), Key(Esc, text))
               else s.(events := s.events.(term := "", loading := true))
  {
  }

  /** Searching the whole group: without a term it asks for one over an empty list, with one it loads; again, it goes back to one stream. */
  lemma {:induction false} GroupSearchKey(s: State, text: string)
    requires Reachable(s) && Free(s)
    ensures var g := Next(s, Key(GroupSearch, text));
            if s.groups.shown == [] then g == s
            else
              && g.wholeGroup == !s.wholeGroup && g.view == EventsView && g.focus == OnEvents
              && g.groups == s.groups && g.streams == s.streams && g.streamsOf == s.streamsOf && !g.err
              && g.events == if s.events.term == "" && !s.wholeGroup then EventPanel([], 0, "", true, false)
                             else s.events.(loading := true)
  {
  }

  /** The error screen takes all keys, and Enter and Esc put it away; another period reloads the events in view. */
  lemma {:induction false} ErrorAndPeriodKeys(s: State, key: KeyName, text: string)
    ensures s.err ==> Next(s, Key(key, text)) == if key in {Enter, Esc} then s.(err := false) else s
    ensures Free(s) ==>
              Next(s, Key(Period, text)) == if s.view == EventsView then s.(events := s.events.(loading := true)) else s
    ensures Free(s) ==> Next(s, Key(OtherKey, text)) == s
  {
  }

  /** Clearing the filters widens the lists around the same group and the same named stream. */
  lemma {:induction false} ClearKeepsSelection(s: State, text: string)
    requires Reachable(s) && Free(s)
    ensures var c := Next(s, Key(ClearFilters, text));
            && c.groups.shown == c.groups.all == s.groups.all && c.streams.shown == c.streams.all == s.streams.all
            && c.groups.term == c.streams.term == c.events.term == ""
            && (s.groups.shown != [] ==> Current(c.groups) == Current(s.groups))
            && (Named(Current(s.streams)) != [] ==> Current(c.streams) == Current(s.streams))
            && c.focus == s.focus && c.view == s.view && c.events.events == s.events.events
  {
    ReachableSound(s);
    assert Next(s, Key(ClearFilters, text)) == Cleared(s);
    ClearedKeepsSelection(s);
    ClearedIs(s);
  }

  lemma {:induction false} ClearedIs(s: State)
    requires Sound(s)
    ensures var c := Cleared(s);
            && c.groups.all == s.groups.all && c.streams.all == s.streams.all
            && c.groups.term == c.streams.term == c.events.term == ""
            && c.focus == s.focus && c.view == s.view && c.events.events == s.events.events
  {
  }

  lemma {:induction false} ClearedKeepsSelection(s: State)
    requires Sound(s)
    ensures var c := Cleared(s);
            && c.groups.shown == s.groups.all && c.streams.shown == s.streams.all
            && (s.groups.shown != [] ==> Current(c.groups) == Current(s.groups))
    ensures Named(Current(s.streams)) != [] ==> Current(Cleared(s).streams) == Current(s.streams)
  {
    WidenedOk(GroupMatches, s.groups);
    WidenedOk(StreamMatches, s.streams);
    assert Current(s.groups) != [] ==> Current(s.groups)[0] in s.groups.shown;
    assert Current(s.streams) != [] ==> Current(s.streams)[0] in s.streams.shown;
  }

  /** A selection stays where it is while its list reaches that far, and else moves to the last entry. */
  predicate Kept(before: int, after: int, n: nat) {
    after == if before < n then before else if n == 0 then 0 else n - 1
  }

  /** What is loaded is what is listed, filtered as before; failures keep the lists, and streams of another group change nothing. */
  lemma {:induction false} LoadsAreShown(s: State, groups: seq<Group>, streams: seq<string>, events: seq<string>, of: Group)
    ensures var g := Next(s, GroupsLoaded(groups, false));
            && g.groups.all == groups && Kept(s.groups.idx, g.groups.idx, |g.groups.shown|)
            && (forall x :: x in g.groups.shown <==> x in groups && (s.groups.term == "" || GroupMatches(x, s.groups.term)))
            && g == s.(groups := s.groups.(all := groups, shown := g.groups.shown, idx := g.groups.idx))
    ensures var t := Next(s, StreamsLoaded(of.name, of.region, streams, false));
            if Current(s.groups) != [of] then t == s
            else
              && t.streams.all == streams && t.streamsOf == Some(of) && Kept(s.streams.idx, t.streams.idx, |t.streams.shown|)
              && (forall x :: x in t.streams.shown <==> x in streams && (s.streams.term == "" || StreamMatches(x, s.streams.term)))
              && t == s.(streams := s.streams.(all := streams, shown := t.streams.shown, idx := t.streams.idx), streamsOf := Some(of))
    ensures var e := Next(s, EventsLoaded(events, false));
            && Kept(s.events.idx, e.events.idx, |events|)
            && e == s.(events := s.events.(events := events, idx := e.events.idx, loading := false))
    ensures Next(s, GroupsLoaded(groups, true)) == s.(err := true)
    ensures Next(s, StreamsLoaded(of.name, of.region, streams, true)) == if Current(s.groups) != [of] then s else s.(err := true)
    ensures Next(s, EventsLoaded([], true)) == s.(err := true, events := s.events.(loading := false))
  {
    forall x
      ensures x in Filter(GroupMatches, groups, s.groups.term) <==>
                x in groups && (s.groups.term == "" || GroupMatches(x, s.groups.term))
    {
      FilterMembers(GroupMatches, groups, s.groups.term, x);
    }
    forall x
      ensures x in Filter(StreamMatches, streams, s.streams.term) <==>
                x in streams && (s.streams.term == "" || StreamMatches(x, s.streams.term))
    {
      FilterMembers(StreamMatches, streams, s.streams.term, x);
    }
  }

  // ---- whose streams are listed ------------------------------------------------------------------

  /** The streams listed, if any, were loaded for the group under the cursor. */
  ghost predicate Matched(s: State) {
    s.streams.all != [] ==> s.streamsOf.Some? && Current(s.groups) == [s.streamsOf.value]
  }

  /** The group list after a message that filters it anew. */
  function Regrouped(s: State, msg: Msg): Panel<Group> {
    match msg
    case GroupsLoaded(groups, false) => Refilter(GroupMatches, s.groups.(all := groups))
    case Key(key, text) =>
      if !s.err && s.groups.searching && s.focus == OnGroups then Typed(GroupMatches, s.groups, key, text) else s.groups
    case _ => s.groups
  }

  /** With streams listed, filtering leaves the cursor on the same group. */
  predicate Steady(s: State, msg: Msg) {
    s.streams.all != [] ==> Current(Regrouped(s, msg)) == Current(s.groups)
  }

  /** Only filtering can leave one group's streams beside another group, and exactly when it moves the cursor to it. */
  lemma {:induction false} MatchedIff(s: State, msg: Msg)
    requires Sound(s) && Matched(s)
    ensures Matched(Next(s, msg)) <==> Steady(s, msg)
  {
    match msg
    case Key(key, text) =>
      if key == ClearFilters && s.streams.all != [] {
        ClearedKeepsSelection(s);
        assert Current(s.groups) != [];
      }
      PressedMatched(s, key, text);
    case _ =>
  }

  lemma {:induction false} PressedMatched(s: State, key: KeyName, text: string)
    requires Sound(s) && Matched(s)
    requires key == ClearFilters && s.streams.all != [] ==> Current(Cleared(s).groups) == Current(s.groups)
    ensures Matched(Pressed(s, key, text)) <==> Steady(s, Key(key, text))
  {
    var s' := Pressed(s, key, text);
    if !s.err && s.groups.searching && s.focus == OnGroups {
      assert s'.groups == Regrouped(s, Key(key, text));
    } else {
      assert Regrouped(s, Key(key, text)) == s.groups;
      assert s'.streams.all == [] || (s'.streams.all == s.streams.all && s'.streamsOf == s.streamsOf
                                      && Current(s'.groups) == Current(s.groups)) by {
        OtherKeysKeepGroup(s, key, text);
      }
    }
  }

  lemma {:induction false} OtherKeysKeepGroup(s: State, key: KeyName, text: string)
    requires s.err || !(s.groups.searching && s.focus == OnGroups)
    requires key == ClearFilters && s.streams.all != [] ==> Current(Cleared(s).groups) == Current(s.groups)
    ensures var s' := Pressed(s, key, text);
            s'.streams.all == [] || (s'.streams.all == s.streams.all && s'.streamsOf == s.streamsOf
                                     && Current(s'.groups) == Current(s.groups))
  {
    if Free(s) {
      if key == Up || key == Down {
        assert Pressed(s, key, text) == Navigated(s, if key == Up then -1 else 1);
      } else if key == ClearFilters {
        assert Pressed(s, key, text) == Cleared(s);
      } else {
        assert Pressed(s, key, text).streams.all == s.streams.all;
      }
    }
  }

  ghost predicate AlwaysMatched(s: State, msgs: seq<Msg>)
    decreases msgs
  {
    Matched(s) && (msgs != [] ==> AlwaysMatched(Next(s, msgs[0]), msgs[1..]))
  }

  ghost predicate SteadyRun(s: State, msgs: seq<Msg>)
    decreases msgs
  {
    msgs != [] ==> Steady(s, msgs[0]) && SteadyRun(Next(s, msgs[0]), msgs[1..])
  }

  lemma {:induction false} RunMatchedIff(s: State, msgs: seq<Msg>)
    requires Sound(s) && Matched(s)
    ensures AlwaysMatched(s, msgs) <==> SteadyRun(s, msgs)
    decreases msgs
  {
    if msgs != [] {
      MatchedIff(s, msgs[0]);
      NextKeeps(s, msgs[0]);
      if Steady(s, msgs[0]) {
        RunMatchedIff(Next(s, msgs[0]), msgs[1..]);
      }
    }
  }

  /**
    Dropping stale replies keeps the listed streams those of the selected group,
    in every run from opening, exactly as long as no filtering of the groups
    moves the cursor while streams are listed.
  */
  lemma {:induction false} StreamsMatchGroupIff(groupTerm: string, streamTerm: string, eventTerm: string, msgs: seq<Msg>)
    ensures AlwaysMatched(Opened(groupTerm, streamTerm, eventTerm), msgs)
            <==> SteadyRun(Opened(groupTerm, streamTerm, eventTerm), msgs)
  {
    RunMatchedIff(Opened(groupTerm, streamTerm, eventTerm), msgs);
  }

  lemma {:induction false} ListsLoaded(a: Group, b: Group, stream: string)
    ensures var listed := Next(Opened("", "", ""), GroupsLoaded([a, b], false));
            var loaded := Next(listed, StreamsLoaded(a.name, a.region, [stream], false));
            && loaded.groups == Panel([a, b], [a, b], 0, "", false) && loaded.focus == OnGroups && !loaded.err
            && loaded.streams == Panel([stream], [stream], 0, "", false) && loaded.streamsOf == Some(a)
  {
    var listed := Next(Opened("", "", ""), GroupsLoaded([a, b], false));
    assert listed.groups == Panel([a, b], [a, b], 0, "", false);
    assert Current(listed.groups) == [a] == [Group(a.name, a.region)];
  }

  lemma {:induction false} TermTyped(s: State, a: Group, b: Group, stream: string, term: string)
    requires term != "" && GroupMatches(b, term) && !GroupMatches(a, term)
    requires s.groups == Panel([a, b], [a, b], 0, "", false) && s.focus == OnGroups && !s.err
    requires s.streams == Panel([stream], [stream], 0, "", false) && s.streamsOf == Some(a)
    ensures var typed := Next(Next(s, Key(Slash, "")), Key(OtherKey, term));
            && Current(typed.groups) == [b] && Current(typed.streams) == [stream]
            && typed.streamsOf == Some(a) && !Matched(typed)
  {
    FilterPair(a, b, term);
    var asking := Next(s, Key(Slash, ""));
    assert asking.groups == Panel([a, b], [a, b], 0, "", true) && asking.streams == s.streams;
  }

  /** It happens: a group's streams are listed, and a filter is typed that only another group passes. */
  lemma {:induction false} FilteringMisleads(a: Group, b: Group, stream: string, term: string)
    requires term != "" && GroupMatches(b, term) && !GroupMatches(a, term)
    ensures var msgs := [GroupsLoaded([a, b], false)] + ([StreamsLoaded(a.name, a.region, [stream], false)]
                        + ([Key(Slash, "")] + ([Key(OtherKey, term)] + [])));
            var s := After(Opened("", "", ""), msgs);
            Current(s.groups) == [b] && Current(s.streams) == [stream] && s.streamsOf == Some(a) && !Matched(s)
  {
    var start, groups := Opened("", "", ""), GroupsLoaded([a, b], false);
    var streams := StreamsLoaded(a.name, a.region, [stream], false);
    ListsLoaded(a, b, stream);
    var loaded := Next(Next(start, groups), streams);
    TermTyped(loaded, a, b, stream, term);
    FourSteps(start, groups, streams, Key(Slash, ""), Key(OtherKey, term));
  }

  lemma {:induction false} FourSteps(s: State, m1: Msg, m2: Msg, m3: Msg, m4: Msg)
    ensures After(s, [m1] + ([m2] + ([m3] + ([m4] + [])))) == Next(Next(Next(Next(s, m1), m2), m3), m4)
  {
    AfterStep(Next(Next(Next(s, m1), m2), m3), m4, []);
    AfterStep(Next(Next(s, m1), m2), m3, [m4] + []);
    AfterStep(Next(s, m1), m2, [m3] + ([m4] + []));
    AfterStep(s, m1, [m2] + ([m3] + ([m4] + [])));
  }

  lemma {:induction false} AfterStep(s: State, msg: Msg, rest: seq<Msg>)
    ensures After(s, [msg] + rest) == After(Next(s, msg), rest)
  {
    assert ([msg] + rest)[1..] == rest;
  }

  lemma {:induction false} FilterPair(a: Group, b: Group, term: string)
    requires term != "" && GroupMatches(b, term) && !GroupMatches(a, term)
    ensures Filter(GroupMatches, [a, b], term) == [b]
  {
    assert [a, b][..1] == [a] && [a][..0] == [];
    assert Filter(GroupMatches, [], term) == [];
    assert Filter(GroupMatches, [a], term) == [] + [];
  }

  // ---- the visible window -------------------------------------------------------------------------

  function VisibleRange(current: int, total: int, maxVisible: int): (int, int) {
    if total <= maxVisible then (0, total)
    else
      var start := if current - maxVisible / 2 < 0 then 0 else current - maxVisible / 2;
      if start + maxVisible > total then (total - maxVisible, total) else (start, start + maxVisible)
  }

  predicate WindowOk(current: int, total: nat, maxVisible: int) {
    var (start, end) := VisibleRange(current, total, maxVisible);
    && 0 <= start <= end <= total
    && end - start == (if total < maxVisible then total else maxVisible)
    && (total > 0 ==> start <= current < end)
  }

  /** The window lies in the list, is as large as it can be, and shows the selection of any reachable state. */
  lemma {:induction false} WindowShowsSelection(groupTerm: string, streamTerm: string, eventTerm: string, msgs: seq<Msg>, maxVisible: int)
    requires maxVisible > 0
    ensures var s := After(Opened(groupTerm, streamTerm, eventTerm), msgs);
            && WindowOk(s.groups.idx, |s.groups.shown|, maxVisible)
            && WindowOk(s.streams.idx, |s.streams.shown|, maxVisible)
            && WindowOk(s.events.idx, |s.events.events|, maxVisible)
  {
    ExplorerIsSound(groupTerm, streamTerm, eventTerm, msgs);
    var s := After(Opened(groupTerm, streamTerm, eventTerm), msgs);
    SelectionInWindow(s.groups.idx, |s.groups.shown|, maxVisible);
    SelectionInWindow(s.streams.idx, |s.streams.shown|, maxVisible);
    SelectionInWindow(s.events.idx, |s.events.events|, maxVisible);
  }

  /** The selection has half a window of entries above it, less only at the top of the list and more only at its end. */
  lemma {:induction false} WindowIsCentred(current: int, total: nat, maxVisible: int)
    requires 0 < maxVisible < total && InList(current, total)
    ensures var (start, end) := VisibleRange(current, total, maxVisible);
            && (start == 0 <==> current <= maxVisible / 2)
            && (start > 0 && end < total ==> current - start == maxVisible / 2)
            && (current - start > maxVisible / 2 ==> end == total)
  {
  }

  lemma {:induction false} SelectionInWindow(current: int, total: nat, maxVisible: int)
    requires maxVisible > 0 && InList(current, total)
    ensures WindowOk(current, total, maxVisible)
  {
  }
}
