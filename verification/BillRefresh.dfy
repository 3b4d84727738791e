/**
  The live bill screen: one fetch at a time, a timer per reply, manual refresh
  in between, and the per-service drill-down.
*/
module BillRefresh {
  import opened Billing
  import opened Options

  datatype Overlay = NoOverlay | Detail | Resources | Help | About

  /** The part of the screen's state that its messages and refreshing depend on. */
  datatype Screen = Screen(
    bill: Option<Bill>, deltas: map<string, real>, fetching: bool, timerID: int,
    filtering: bool, overlay: Overlay, resService: string, resFetching: bool, debugOpen: bool)

  /** The keys that matter here; every other key is OtherKey. */
  datatype KeyName = Esc | Enter | CtrlC | Q | U | X | I | Slash | Question | Tilde | OtherKey

  datatype Msg =
    | BillOk(bill: Bill)
    | BillError
    | Tick(id: int)
    | ResourcesDone(service: string)
    | Key(key: KeyName, selected: Option<string>)

  datatype Cmd = FetchBill | ArmTimer(id: int) | FetchResources(service: string) | Quit

  function NewScreen(): Screen {
    Screen(None, map[], true, 0, false, NoOverlay, "", false, false)
  }

  predicate ClosesOverlay(key: KeyName) {
    key.Esc? || key.Q? || key.Enter? || key.Question? || key.X? || key.I?
  }

  /** The screen after a message. */
  function Moved(s: Screen, msg: Msg): Screen {
    match msg
    case BillOk(bill) => s.(fetching := false, deltas := Deltas(s.bill, bill), bill := Some(bill), timerID := s.timerID + 1)
    case BillError => s.(fetching := false, timerID := s.timerID + 1)
    case Tick(id) => if id != s.timerID then s else s.(fetching := true)
    case ResourcesDone(service) => if service != s.resService then s else s.(resFetching := false)
    case Key(key, selected) =>
      if s.debugOpen then s.(debugOpen := !(key.Esc? || key.Tilde? || key.Q?))
      else if s.filtering then s.(filtering := !(key.Esc? || key.Enter?))
      else if s.overlay != NoOverlay then (if ClosesOverlay(key) then s.(overlay := NoOverlay, resService := "") else s)
      else Browsed(s, key, selected)
  }

  /** Keys on the bare table; `selected` is the service of the line under the cursor. */
  function Browsed(s: Screen, key: KeyName, selected: Option<string>): Screen {
    match key
    case Slash => s.(filtering := true)
    case Enter => if selected.Some? then s.(overlay := Detail) else s
    case U => s.(fetching := true)
    case X =>
      if selected.Some? && !s.resFetching then s.(overlay := Resources, resService := selected.value, resFetching := true)
      else s
    case Question => s.(overlay := Help)
    case I => s.(overlay := About)
    case Tilde => s.(debugOpen := true)
    case _ => s
  }

  /** What a message sets going besides the spinner: at most one command. */
  function Started(s: Screen, msg: Msg): Option<Cmd> {
    match msg
    case BillOk(_) => Some(ArmTimer(s.timerID + 1))
    case BillError => Some(ArmTimer(s.timerID + 1))
    case Tick(id) => if id != s.timerID || s.fetching then None else Some(FetchBill)
    case ResourcesDone(_) => None
    case Key(key, selected) =>
      if s.debugOpen || s.filtering || s.overlay != NoOverlay then None
      else if key.Q? || key.CtrlC? then Some(Quit)
      else if key.U? && !s.fetching then Some(FetchBill)
      else if key.X? && selected.Some? && !s.resFetching then Some(FetchResources(selected.value))
      else None
  }

  class Model {
    var bill: Option<Bill>
    var deltas: map<string, real>
    var fetching: bool
    var timerID: int
    var filtering: bool
    var overlay: Overlay
    var resService: string
    var resFetching: bool
    var debugOpen: bool

    function Contents(): Screen
      reads this
    {
      Screen(bill, deltas, fetching, timerID, filtering, overlay, resService, resFetching, debugOpen)
    }

    constructor ()
      ensures Contents() == NewScreen()
    {
      bill, deltas, fetching, timerID := None, map[], true, 0;
      filtering, overlay, resService, resFetching, debugOpen := false, NoOverlay, "", false, false;
    }

    method ScheduleTick() returns (cmd: Cmd)
      modifies `timerID
      ensures timerID == old(timerID) + 1 && cmd == ArmTimer(timerID)
    {
      timerID := timerID + 1;
      return ArmTimer(timerID);
    }

    method Update(msg: Msg) returns (cmd: Option<Cmd>)
      modifies this
      ensures Contents() == Moved(old(Contents()), msg) && cmd == Started(old(Contents()), msg)
    {
      cmd := None;
      match msg
      case BillOk(b) =>
        fetching := false;
        deltas := DiffBills(bill, b);
        bill := Some(b);
        var tick := ScheduleTick();
        cmd := Some(tick);
      case BillError =>
        fetching := false;
        var tick := ScheduleTick();
        cmd := Some(tick);
      case Tick(id) =>
        if id != timerID || fetching {
          return;
        }
        fetching := true;
        cmd := Some(FetchBill);
      case ResourcesDone(service) =>
        if service != resService {
          return;
        }
        resFetching := false;
      case Key(key, selected) =>
        cmd := HandleKey(key, selected);
    }

    method HandleKey(key: KeyName, selected: Option<string>) returns (cmd: Option<Cmd>)
      modifies this
      ensures Contents() == Moved(old(Contents()), Key(key, selected)) && cmd == Started(old(Contents()), Key(key, selected))
    {
      cmd := None;
      if debugOpen {
        debugOpen := !(key.Esc? || key.Tilde? || key.Q?);
      } else if filtering {
        filtering := !(key.Esc? || key.Enter?);
      } else if overlay != NoOverlay {
        if ClosesOverlay(key) {
          overlay := NoOverlay;
          resService := "";
        }
      } else if key.Q? || key.CtrlC? {
        cmd := Some(Quit);
      } else if key.Slash? {
        filtering := true;
      } else if key.Enter? {
        if selected.Some? {
          overlay := Detail;
        }
      } else if key.U? {
        if !fetching {
          fetching := true;
          cmd := Some(FetchBill);
        }
      } else if key.X? {
        if selected.Some? && !resFetching {
          overlay := Resources;
          resService := selected.value;
          resFetching := true;
          cmd := Some(FetchResources(selected.value));
        }
      } else if key.Question? {
        overlay := Help;
      } else if key.I? {
        overlay := About;
      } else if key.Tilde? {
        debugOpen := true;
      }
    }
  }

  // ---- the loop around it -------------------------------------------------------------

  /**
    The screen with what it has set going: bill fetches out, armed timers, and
    drill-down fetches out. `started` and `answered` count bill fetches; `quit`
    says that the program was asked to end.
  */
  datatype Loop = Loop(screen: Screen, fetches: int, timers: set<int>, lookups: set<string>,
                       started: int, answered: int, quit: bool)

  function Launch(l: Loop, cmd: Option<Cmd>): Loop {
    match cmd
    case None => l
    case Some(FetchBill) => l.(fetches := l.fetches + 1, started := l.started + 1)
    case Some(ArmTimer(id)) => l.(timers := l.timers + {id})
    case Some(FetchResources(service)) => l.(lookups := l.lookups + {service})
    case Some(Quit) => l.(quit := true)
  }

  /** Init starts the first fetch. */
  function StartUp(): Loop {
    Launch(Loop(NewScreen(), 0, {}, {}, 0, 0, false), Some(FetchBill))
  }

  /** Replies and timers come from what is out; keys come whenever the user likes. */
  predicate Possible(l: Loop, msg: Msg) {
    match msg
    case BillOk(_) => l.fetches > 0
    case BillError => l.fetches > 0
    case Tick(id) => id in l.timers
    case ResourcesDone(service) => service in l.lookups
    case Key(_, _) => true
  }

  function Consume(l: Loop, msg: Msg): Loop {
    match msg
    case BillOk(_) => l.(fetches := l.fetches - 1, answered := l.answered + 1)
    case BillError => l.(fetches := l.fetches - 1, answered := l.answered + 1)
    case Tick(id) => l.(timers := l.timers - {id})
    case ResourcesDone(service) => l.(lookups := l.lookups - {service})
    case Key(_, _) => l
  }

  function Next(l: Loop, msg: Msg): Loop {
    Launch(Consume(l, msg).(screen := Moved(l.screen, msg)), Started(l.screen, msg))
  }

  predicate PossibleRun(l: Loop, msgs: seq<Msg>)
    decreases msgs
  {
    msgs != [] ==> Possible(l, msgs[0]) && PossibleRun(Next(l, msgs[0]), msgs[1..])
  }

  function After(l: Loop, msgs: seq<Msg>): Loop
    decreases msgs
  {
    if msgs == [] then l else After(Next(l, msgs[0]), msgs[1..])
  }

  // ---- refreshing ------------------------------------------------------------------------

  ghost predicate Healthy(l: Loop) {
    && l.fetches == (if l.screen.fetching then 1 else 0)
    && l.started == l.answered + l.fetches
    && l.screen.timerID == l.answered >= 0
    && (forall id :: id in l.timers ==> 1 <= id <= l.screen.timerID)
    && (!l.screen.fetching ==> l.screen.timerID in l.timers)
  }

  lemma {:induction false} HealthyStep(l: Loop, msg: Msg)
    requires Healthy(l) && Possible(l, msg)
    ensures Healthy(Next(l, msg))
  {
  }

  /** In every run exactly one bill fetch is out while `fetching`, none otherwise, and then the current timer is armed. */
  lemma {:induction false} AlwaysHealthy(l: Loop, msgs: seq<Msg>)
    requires Healthy(l) && PossibleRun(l, msgs)
    ensures Healthy(After(l, msgs))
    decreases msgs
  {
    if msgs != [] {
      HealthyStep(l, msgs[0]);
      AlwaysHealthy(Next(l, msgs[0]), msgs[1..]);
    }
  }

  lemma {:induction false} StartUpIsHealthy()
    ensures Healthy(StartUp())
  {
  }

  /** Only the newest timer, and only with nothing out, starts a fetch. */
  lemma {:induction false} TickStarts(l: Loop, id: int)
    requires Healthy(l) && id in l.timers
    ensures if id == l.screen.timerID && l.fetches == 0
            then Next(l, Tick(id)).fetches == 1 && Next(l, Tick(id)).screen.fetching
            else Next(l, Tick(id)) == l.(timers := l.timers - {id})
  {
  }

  lemma {:induction false} ReplyArms(l: Loop, msg: Msg)
    requires Healthy(l) && l.fetches == 1 && (msg.BillOk? || msg.BillError?)
    ensures Possible(l, msg)
    ensures var l' := Next(l, msg); l'.fetches == 0 && !l'.screen.fetching && l'.screen.timerID in l'.timers
  {
  }

  /**
    Whatever happened since start-up: no second fetch is ever out, every timer
    but the newest is ignored, and the refresh cycle goes on - either a reply is
    due, which will arm a timer, or the newest timer is armed and will fetch.
  */
  lemma {:induction false} RefreshNeverDies(msgs: seq<Msg>)
    requires PossibleRun(StartUp(), msgs)
    ensures var l := After(StartUp(), msgs);
            && 0 <= l.fetches <= 1 && l.started == l.answered + l.fetches
            && (l.fetches == 1 <==> l.screen.fetching)
            && (forall id :: id in l.timers && (id != l.screen.timerID || l.fetches == 1) ==>
                  Next(l, Tick(id)) == l.(timers := l.timers - {id}))
            && (l.fetches == 1 ==> forall msg: Msg :: msg.BillOk? || msg.BillError? ==>
                  Possible(l, msg) && Next(l, msg).fetches == 0 && Next(l, msg).screen.timerID in Next(l, msg).timers)
            && (l.fetches == 0 ==> Possible(l, Tick(l.screen.timerID)) && Next(l, Tick(l.screen.timerID)).fetches == 1)
  {
    StartUpIsHealthy();
    AlwaysHealthy(StartUp(), msgs);
    var l := After(StartUp(), msgs);
    forall id | id in l.timers
      ensures id != l.screen.timerID || l.fetches == 1 ==> Next(l, Tick(id)) == l.(timers := l.timers - {id})
      ensures id == l.screen.timerID && l.fetches == 0 ==> Next(l, Tick(id)).fetches == 1
    {
      TickStarts(l, id);
    }
    if l.fetches == 1 {
      forall msg: Msg | msg.BillOk? || msg.BillError?
        ensures Possible(l, msg) && Next(l, msg).fetches == 0 && Next(l, msg).screen.timerID in Next(l, msg).timers
      {
        ReplyArms(l, msg);
      }
    }
  }

  function Delivered(msgs: seq<Msg>): seq<Bill> {
    if msgs == [] then []
    else if msgs[0].BillOk? then [msgs[0].bill] + Delivered(msgs[1..])
    else Delivered(msgs[1..])
  }

  /** The screen shows the last of the bills delivered, compared with the one before it. */
  ghost predicate ShowsLast(s: Screen, bills: seq<Bill>) {
    match |bills|
    case 0 => s.bill == None
    case 1 => s.bill == Some(bills[0]) && s.deltas == map[]
    case n => s.bill == Some(bills[n - 1]) && s.deltas == Deltas(Some(bills[n - 2]), bills[n - 1])
  }

  lemma {:induction false} ShowsLastStep(s: Screen, msg: Msg, bills: seq<Bill>)
    requires ShowsLast(s, bills)
    ensures ShowsLast(Moved(s, msg), if msg.BillOk? then bills + [msg.bill] else bills)
  {
  }

  lemma {:induction false} NextScreen(l: Loop, msg: Msg)
    ensures Next(l, msg).screen == Moved(l.screen, msg)
  {
  }

  lemma {:induction false} DeliveredStep(msgs: seq<Msg>, earlier: seq<Bill>)
    requires msgs != []
    ensures earlier + Delivered(msgs) ==
            (if msgs[0].BillOk? then earlier + [msgs[0].bill] else earlier) + Delivered(msgs[1..])
  {
  }

  lemma {:induction false} ScreenShowsLastBill(l: Loop, msgs: seq<Msg>, earlier: seq<Bill>)
    requires ShowsLast(l.screen, earlier)
    ensures ShowsLast(After(l, msgs).screen, earlier + Delivered(msgs))
    decreases msgs
  {
    if msgs == [] {
      assert earlier + [] == earlier;
    } else {
      var msg := msgs[0];
      var now := if msg.BillOk? then earlier + [msg.bill] else earlier;
      ShowsLastStep(l.screen, msg, earlier);
      NextScreen(l, msg);
      DeliveredStep(msgs, earlier);
      ScreenShowsLastBill(Next(l, msg), msgs[1..], now);
    }
  }

  // ---- the drill-down -----------------------------------------------------------------------

  /**
    At most one lookup is out, and only while `resFetching`; the service on
    screen is its own exactly as long as the overlay that asked stays open.
  */
  ghost predicate LookupOk(l: Loop) {
    && (forall s, t :: s in l.lookups && t in l.lookups ==> s == t)
    && (l.lookups != {} ==> l.screen.resFetching)
    && (l.screen.overlay == Resources && l.lookups != {} ==> l.screen.resService in l.lookups)
    && (l.screen.overlay != Resources ==> l.screen.resService == "")
    && (l.screen.resFetching && l.lookups == {} ==> l.screen.overlay != Resources)
  }

  /** Nothing will ever clear `resFetching`: its reply is gone, or will not be recognised. */
  ghost predicate Stuck(l: Loop) {
    && l.screen.resFetching && l.screen.resService == "" && l.screen.overlay != Resources
    && forall s :: s in l.lookups ==> s != ""
  }

  lemma {:induction false} LookupStep(l: Loop, msg: Msg)
    requires LookupOk(l) && Possible(l, msg)
    ensures LookupOk(Next(l, msg))
  {
  }

  lemma {:induction false} AlwaysLookupOk(l: Loop, msgs: seq<Msg>)
    requires LookupOk(l) && PossibleRun(l, msgs)
    ensures LookupOk(After(l, msgs))
    decreases msgs
  {
    if msgs != [] {
      LookupStep(l, msgs[0]);
      AlwaysLookupOk(Next(l, msgs[0]), msgs[1..]);
    }
  }

  lemma {:induction false} StartUpLooksUpNothing()
    ensures LookupOk(StartUp())
  {
  }

  lemma {:induction false} StuckForever(l: Loop, msgs: seq<Msg>)
    requires Stuck(l) && PossibleRun(l, msgs)
    ensures Stuck(After(l, msgs)) && After(l, msgs).lookups <= l.lookups
    decreases msgs
  {
    if msgs != [] {
      StuckForever(Next(l, msgs[0]), msgs[1..]);
    }
  }

  /** Some run from start-up leads here. */
  ghost predicate Reachable(l: Loop) {
    exists msgs :: PossibleRun(StartUp(), msgs) && After(StartUp(), msgs) == l
  }

  lemma {:induction false} ReachableLookupOk(l: Loop)
    requires Reachable(l)
    ensures LookupOk(l)
  {
    var msgs :| PossibleRun(StartUp(), msgs) && After(StartUp(), msgs) == l;
    StartUpLooksUpNothing();
    AlwaysLookupOk(StartUp(), msgs);
  }

  lemma {:induction false} ReachableHealthy(l: Loop)
    requires Reachable(l)
    ensures Healthy(l)
  {
    var msgs :| PossibleRun(StartUp(), msgs) && After(StartUp(), msgs) == l;
    StartUpIsHealthy();
    AlwaysHealthy(StartUp(), msgs);
  }

  // ---- what the keys do ------------------------------------------------------------------------

  /** Nothing covers the table. */
  predicate Bare(l: Loop) {
    !l.screen.debugOpen && !l.screen.filtering && l.screen.overlay == NoOverlay
  }

  /** Pressing u on the bare table: a fetch is started exactly when none is out. */
  lemma {:induction false} RefreshPressed(l: Loop, selected: Option<string>)
    requires Bare(l) && l.fetches == (if l.screen.fetching then 1 else 0)
    ensures Next(l, Key(U, selected)) ==
            if l.screen.fetching then l
            else l.(fetches := 1, started := l.started + 1, screen := l.screen.(fetching := true))
  {
    assert l.screen.fetching ==> Started(l.screen, Key(U, selected)) == None;
    assert !l.screen.fetching ==> Started(l.screen, Key(U, selected)) == Some(FetchBill);
    assert Moved(l.screen, Key(U, selected)) == l.screen.(fetching := true);
  }

  /**
    Manual refresh, wherever a run from start-up may lead: on the bare table it
    starts a fetch exactly when none is out, and otherwise does nothing.
  */
  lemma {:induction false} RefreshKeyWorks(l: Loop, selected: Option<string>)
    requires Reachable(l) && Bare(l)
    ensures 0 <= l.fetches <= 1
    ensures l.fetches == 0 ==>
              Next(l, Key(U, selected)) == l.(fetches := 1, started := l.started + 1, screen := l.screen.(fetching := true))
    ensures l.fetches == 1 ==> Next(l, Key(U, selected)) == l && l.screen.fetching
  {
    ReachableHealthy(l);
    RefreshPressed(l, selected);
  }

  /** With a service under the cursor x looks it up, unless a lookup is thought to be out. */
  lemma {:induction false} LookupKeyWorks(l: Loop, service: string)
    requires Reachable(l) && Bare(l)
    ensures var l' := Next(l, Key(X, Some(service)));
            if l.screen.resFetching then l' == l
            else l.lookups == {} && l'.lookups == {service}
                 && l'.screen == l.screen.(overlay := Resources, resService := service, resFetching := true)
                 && l' == l.(lookups := {service}, screen := l'.screen)
    ensures Next(l, Key(X, None)) == l
  {
    ReachableLookupOk(l);
  }

  /** Which keys cover the bare table with what; all others but u and x leave the screen alone. */
  lemma {:induction false} KeysCover(l: Loop, selected: Option<string>)
    requires Bare(l)
    ensures Next(l, Key(Slash, selected)) == l.(screen := l.screen.(filtering := true))
    ensures Next(l, Key(Tilde, selected)) == l.(screen := l.screen.(debugOpen := true))
    ensures Next(l, Key(Question, selected)) == l.(screen := l.screen.(overlay := Help))
    ensures Next(l, Key(I, selected)) == l.(screen := l.screen.(overlay := About))
    ensures Next(l, Key(Enter, selected)) == if selected.None? then l else l.(screen := l.screen.(overlay := Detail))
    ensures forall key :: key in {Q, CtrlC} ==> Next(l, Key(key, selected)) == l.(quit := true)
    ensures forall key :: key in {Esc, OtherKey} ==> Next(l, Key(key, selected)) == l
  {
  }

  /** While something covers the table no key starts anything, and these keys take the cover away. */
  lemma {:induction false} CoveredKeysOnlyUncover(l: Loop, key: KeyName, selected: Option<string>)
    requires Reachable(l) && !Bare(l)
    ensures var l' := Next(l, Key(key, selected));
            && l' == l.(screen := l'.screen)
            && l'.screen.fetching == l.screen.fetching && l'.screen.resFetching == l.screen.resFetching
            && l'.screen.bill == l.screen.bill && l'.screen.deltas == l.screen.deltas && l'.screen.timerID == l.screen.timerID
            && (if Bare(l') then l'.screen.resService == "" || l.screen.debugOpen else l' == l)
            && (Bare(l') <==> key in (if l.screen.debugOpen then {Esc, Tilde, Q}
                                      else if l.screen.filtering then {Esc, Enter}
                                      else {Esc, Q, Enter, Question, X, I}))
  {
    ReachableOneCover(l);
    ReachableLookupOk(l);
  }

  /** At most one thing covers the table. */
  predicate OneCover(l: Loop) {
    && (l.screen.debugOpen ==> !l.screen.filtering && l.screen.overlay == NoOverlay)
    && (l.screen.filtering ==> l.screen.overlay == NoOverlay)
  }

  lemma {:induction false} AlwaysOneCover(l: Loop, msgs: seq<Msg>)
    requires OneCover(l)
    ensures OneCover(After(l, msgs))
    decreases msgs
  {
    if msgs != [] {
      AlwaysOneCover(Next(l, msgs[0]), msgs[1..]);
    }
  }

  lemma {:induction false} ReachableOneCover(l: Loop)
    requires Reachable(l)
    ensures OneCover(l)
  {
    var msgs :| PossibleRun(StartUp(), msgs) && After(StartUp(), msgs) == l;
    AlwaysOneCover(StartUp(), msgs);
  }

  lemma {:induction false} ReachableNext(l: Loop, msg: Msg)
    requires Reachable(l) && Possible(l, msg)
    ensures Reachable(Next(l, msg))
  {
    var msgs :| PossibleRun(StartUp(), msgs) && After(StartUp(), msgs) == l;
    RunOneMore(StartUp(), msgs, msg);
    assert After(StartUp(), msgs + [msg]) == Next(l, msg);
  }

  lemma {:induction false} RunOneMore(l: Loop, msgs: seq<Msg>, msg: Msg)
    requires PossibleRun(l, msgs) && Possible(After(l, msgs), msg)
    ensures PossibleRun(l, msgs + [msg]) && After(l, msgs + [msg]) == Next(After(l, msgs), msg)
    decreases msgs
  {
    if msgs == [] {
      assert [] + [msg] == [msg] && [msg][1..] == [];
    } else {
      RunOneMore(Next(l, msgs[0]), msgs[1..], msg);
      assert (msgs + [msg])[1..] == msgs[1..] + [msg];
    }
  }

  /** From wherever a run may lead, Esc and u leave a fetch out: the user can always refresh. */
  lemma {:induction false} EscThenRefresh(l: Loop)
    requires Reachable(l)
    ensures Bare(Next(l, Key(Esc, None)))
    ensures var l' := Next(Next(l, Key(Esc, None)), Key(U, None));
            l'.fetches == 1 && l'.screen.fetching && l'.started == l.started + (1 - l.fetches)
  {
    ReachableNext(l, Key(Esc, None));
    if Bare(l) {
      KeysCover(l, None);
    } else {
      CoveredKeysOnlyUncover(l, Esc, None);
    }
    RefreshKeyWorks(Next(l, Key(Esc, None)), None);
  }

  /**
    Wherever a run from start-up may lead: the reply makes the drill-down usable
    again exactly when its overlay is still open (or the service has no name,
    which an overlay closed meanwhile cannot be told from).
  */
  lemma {:induction false} DrillDownRecoversIff(l: Loop, service: string)
    requires Reachable(l) && service in l.lookups
    ensures !Next(l, ResourcesDone(service)).screen.resFetching <==> l.screen.overlay == Resources || service == ""
  {
    ReachableLookupOk(l);
    AnswerFreesIff(l, service);
  }

  /** Otherwise no continuation ever frees it or starts another lookup. */
  lemma {:induction false} DrillDownStaysDead(l: Loop, service: string, later: seq<Msg>)
    requires Reachable(l) && service in l.lookups && l.screen.overlay != Resources && service != ""
    requires PossibleRun(Next(l, ResourcesDone(service)), later)
    ensures var end := After(Next(l, ResourcesDone(service)), later); end.screen.resFetching && end.lookups == {}
  {
    ReachableLookupOk(l);
    AnswerFreesIff(l, service);
    StuckForever(Next(l, ResourcesDone(service)), later);
  }

  lemma {:induction false} AnswerFreesIff(l: Loop, service: string)
    requires LookupOk(l) && service in l.lookups
    ensures var l' := Next(l, ResourcesDone(service));
            && l'.lookups == {}
            && (!l'.screen.resFetching <==> l.screen.overlay == Resources || service == "")
            && (l.screen.overlay != Resources && service != "" ==> Stuck(l'))
  {
  }

  lemma {:induction false} AfterStep(l: Loop, msg: Msg, rest: seq<Msg>)
    requires Possible(l, msg) && PossibleRun(Next(l, msg), rest)
    ensures PossibleRun(l, [msg] + rest) && After(l, [msg] + rest) == After(Next(l, msg), rest)
  {
    assert ([msg] + rest)[1..] == rest;
  }

  /** It happens: look a service up, close the overlay, and let the reply come. */
  lemma {:induction false} DrillDownCanDie(bill: Bill, service: string)
    requires service != ""
    ensures var msgs := [BillOk(bill)] + ([Key(X, Some(service))] + ([Key(Esc, None)] + ([ResourcesDone(service)] + [])));
            PossibleRun(StartUp(), msgs) && Stuck(After(StartUp(), msgs)) && After(StartUp(), msgs).lookups == {}
  {
    var shown := Next(StartUp(), BillOk(bill));
    var asked := Next(shown, Key(X, Some(service)));
    var closed := Next(asked, Key(Esc, None));
    assert shown.screen.overlay == NoOverlay && !shown.screen.resFetching && shown.lookups == {};
    assert asked.screen.overlay == Resources && asked.screen.resService == service && asked.lookups == {service};
    assert closed.screen.overlay == NoOverlay && closed.screen.resService == "" && closed.lookups == {service};
    AfterStep(closed, ResourcesDone(service), []);
    AfterStep(asked, Key(Esc, None), [ResourcesDone(service)] + []);
    AfterStep(shown, Key(X, Some(service)), [Key(Esc, None)] + ([ResourcesDone(service)] + []));
    AfterStep(StartUp(), BillOk(bill),
      [Key(X, Some(service))] + ([Key(Esc, None)] + ([ResourcesDone(service)] + [])));
  }
}
