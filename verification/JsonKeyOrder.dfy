/**
  Recovering a JSON object's key order from its token stream with two
  variables, and the column list built from many documents.
*/
module JsonKeyOrder {
  import opened Options
  import opened Sequences

  /** JSON values as RFC 8259 section 3 has them; member names may repeat. */
  datatype Json =
    | Null
    | Bool(b: bool)
    | Number(digits: string)
    | Str(s: string)
    | Arr(items: seq<Json>)
    | Obj(members: seq<Member>)

  datatype Member = Member(name: string, value: Json)

  /** What the decoder hands out: delimiters, strings, and everything else. */
  datatype Token = OpenObj | CloseObj | OpenArr | CloseArr | Text(s: string) | Scalar

  function Tokens(v: Json): seq<Token>
    decreases v, 0
  {
    match v
    case Str(s) => [Text(s)]
    case Arr(items) => [OpenArr] + ItemTokens(items) + [CloseArr]
    case Obj(members) => [OpenObj] + MemberTokens(members) + [CloseObj]
    case _ => [Scalar]
  }

  function ItemTokens(items: seq<Json>): seq<Token>
    decreases items, 1
  {
    if items == [] then [] else Tokens(items[0]) + ItemTokens(items[1..])
  }

  function MemberTokens(members: seq<Member>): seq<Token>
    decreases members, 1
  {
    if members == [] then []
    else
      assert members[0].value < members[0];
      [Text(members[0].name)] + Tokens(members[0].value) + MemberTokens(members[1..])
  }

  function Names(members: seq<Member>): seq<string> {
    if members == [] then [] else [members[0].name] + Names(members[1..])
  }

  // ---- the machine -----------------------------------------------------------------

  /** The keys found from a machine state on. */
  function Scan(tokens: seq<Token>, depth: int, expectKey: bool): seq<string>
    decreases |tokens|
  {
    if tokens == [] then []
    else
      var rest := tokens[1..];
      match tokens[0]
      case OpenObj => Scan(rest, depth + 1, depth + 1 == 1)
      case CloseObj => if depth - 1 == 0 then [] else Scan(rest, depth - 1, depth - 1 == 1)
      case OpenArr => Scan(rest, depth, false)
      case CloseArr => Scan(rest, depth, false)
      case Text(s) =>
        if depth == 1 && expectKey then [s] + Scan(rest, depth, false)
        else Scan(rest, depth, expectKey || depth == 1)
      case Scalar => Scan(rest, depth, expectKey || depth == 1)
  }

  method KeyOrder(tokens: seq<Token>) returns (keys: seq<string>)
    ensures keys == Scan(tokens, 0, false)
  {
    keys := [];
    var depth, expectKey := 0, false;
    for i := 0 to |tokens|
      invariant keys + Scan(tokens[i..], depth, expectKey) == Scan(tokens, 0, false)
    {
      ghost var found := keys;
      ghost var rest := Scan(tokens[i..], depth, expectKey);
      assert tokens[i..][1..] == tokens[i + 1..];
      match tokens[i]
      case OpenObj =>
        depth := depth + 1;
        expectKey := depth == 1;
      case CloseObj =>
        depth := depth - 1;
        if depth == 0 {
          return;
        }
        expectKey := depth == 1;
      case OpenArr =>
        expectKey := false;
      case CloseArr =>
        expectKey := false;
      case Text(s) =>
        if depth == 1 && expectKey {
          keys := keys + [s];
          expectKey := false;
          assert found + ([s] + Scan(tokens[i + 1..], depth, false)) == keys + Scan(tokens[i + 1..], depth, false);
          continue;
        }
        if depth == 1 {
          expectKey := true;
        }
      case Scalar =>
        if depth == 1 {
          expectKey := true;
        }
    }
  }

  /** One token of the scan. */
  lemma {:induction false} ScanToken(t: Token, rest: seq<Token>, depth: int, expectKey: bool)
    ensures Scan([t] + rest, depth, expectKey) ==
            match t
            case OpenObj => Scan(rest, depth + 1, depth == 0)
            case CloseObj => if depth == 1 then [] else Scan(rest, depth - 1, depth == 2)
            case OpenArr => Scan(rest, depth, false)
            case CloseArr => Scan(rest, depth, false)
            case Text(s) =>
              if depth == 1 && expectKey then [s] + Scan(rest, depth, false)
              else Scan(rest, depth, expectKey || depth == 1)
            case Scalar => Scan(rest, depth, expectKey || depth == 1)
  {
    assert ([t] + rest)[1..] == rest;
  }

  // ---- below the top level nothing is seen ------------------------------------------

  lemma {:induction false} Regroup(first: Token, inner: seq<Token>, last: Token, rest: seq<Token>)
    ensures [first] + inner + [last] + rest == [first] + (inner + ([last] + rest))
  {
  }

  lemma {:induction false} DeepValue(v: Json, depth: int, rest: seq<Token>)
    requires depth >= 2
    ensures Scan(Tokens(v) + rest, depth, false) == Scan(rest, depth, false)
    decreases v, 0
  {
    match v
    case Arr(items) =>
      Regroup(OpenArr, ItemTokens(items), CloseArr, rest);
      ScanToken(OpenArr, ItemTokens(items) + ([CloseArr] + rest), depth, false);
      DeepItems(items, depth, [CloseArr] + rest);
      ScanToken(CloseArr, rest, depth, false);
    case Obj(members) =>
      Regroup(OpenObj, MemberTokens(members), CloseObj, rest);
      ScanToken(OpenObj, MemberTokens(members) + ([CloseObj] + rest), depth, false);
      DeepMembers(members, depth + 1, [CloseObj] + rest);
      ScanToken(CloseObj, rest, depth + 1, false);
    case Str(s) =>
      ScanToken(Text(s), rest, depth, false);
    case _ =>
      ScanToken(Scalar, rest, depth, false);
  }

  lemma {:induction false} DeepItems(items: seq<Json>, depth: int, rest: seq<Token>)
    requires depth >= 2
    ensures Scan(ItemTokens(items) + rest, depth, false) == Scan(rest, depth, false)
    decreases items, 1
  {
    if items == [] {
      assert ItemTokens(items) + rest == rest;
    } else {
      var first, others := Tokens(items[0]), ItemTokens(items[1..]);
      DeepValue(items[0], depth, others + rest);
      DeepItems(items[1..], depth, rest);
      Assoc(first, others, rest);
    }
  }

  lemma {:induction false} DeepMembers(members: seq<Member>, depth: int, rest: seq<Token>)
    requires depth >= 2
    ensures Scan(MemberTokens(members) + rest, depth, false) == Scan(rest, depth, false)
    decreases members, 1
  {
    if members == [] {
      assert MemberTokens(members) + rest == rest;
    } else {
      var m, others := members[0], MemberTokens(members[1..]);
      assert m.value < m;
      DeepValue(m.value, depth, others + rest);
      DeepMembers(members[1..], depth, rest);
      MemberFirst(m, others, rest);
      ScanToken(Text(m.name), Tokens(m.value) + (others + rest), depth, false);
    }
  }

  lemma {:induction false} MemberFirst(m: Member, others: seq<Token>, rest: seq<Token>)
    ensures [Text(m.name)] + Tokens(m.value) + others + rest == [Text(m.name)] + (Tokens(m.value) + (others + rest))
  {
    Assoc([Text(m.name)] + Tokens(m.value), others, rest);
    Assoc([Text(m.name)], Tokens(m.value), others + rest);
  }

  // ---- what the top level yields ------------------------------------------------------

  /** Strings picked up while scanning array items at depth one. */
  function ItemKeys(items: seq<Json>, expectKey: bool): seq<string>
    decreases items, 1
  {
    if items == [] then []
    else ValueKeys(items[0], expectKey) + ItemKeys(items[1..], ValueExit(items[0], expectKey))
  }

  function ValueKeys(v: Json, expectKey: bool): seq<string>
    decreases v, 0
  {
    match v
    case Str(s) => if expectKey then [s] else []
    case Arr(items) => ItemKeys(items, false)
    case _ => []
  }

  /** Whether a key is expected after the value. */
  function ValueExit(v: Json, expectKey: bool): bool {
    match v
    case Str(_) => !expectKey
    case Arr(_) => false
    case _ => true
  }

  function ItemsExit(items: seq<Json>, expectKey: bool): bool
    decreases items
  {
    if items == [] then expectKey else ItemsExit(items[1..], ValueExit(items[0], expectKey))
  }

  function MemberKeys(members: seq<Member>, expectKey: bool): seq<string>
    decreases members
  {
    if members == [] then []
    else
      var m := members[0];
      (if expectKey then [m.name] else []) + ValueKeys(m.value, !expectKey)
      + MemberKeys(members[1..], ValueExit(m.value, !expectKey))
  }

  lemma {:induction false} ScanValue(v: Json, expectKey: bool, rest: seq<Token>)
    ensures Scan(Tokens(v) + rest, 1, expectKey) == ValueKeys(v, expectKey) + Scan(rest, 1, ValueExit(v, expectKey))
    decreases v, 0
  {
    match v
    case Arr(items) =>
      var tail := [CloseArr] + rest;
      Regroup(OpenArr, ItemTokens(items), CloseArr, rest);
      ScanToken(OpenArr, ItemTokens(items) + tail, 1, expectKey);
      ScanItems(items, false, tail);
      ScanToken(CloseArr, rest, 1, ItemsExit(items, false));
    case Obj(members) =>
      var tail := [CloseObj] + rest;
      Regroup(OpenObj, MemberTokens(members), CloseObj, rest);
      ScanToken(OpenObj, MemberTokens(members) + tail, 1, expectKey);
      DeepMembers(members, 2, tail);
      ScanToken(CloseObj, rest, 2, false);
    case Str(s) =>
      ScanToken(Text(s), rest, 1, expectKey);
    case _ =>
      ScanToken(Scalar, rest, 1, expectKey);
  }

  lemma {:induction false} ScanItems(items: seq<Json>, expectKey: bool, rest: seq<Token>)
    ensures Scan(ItemTokens(items) + rest, 1, expectKey) == ItemKeys(items, expectKey) + Scan(rest, 1, ItemsExit(items, expectKey))
    decreases items, 1
  {
    if items == [] {
      assert ItemTokens(items) + rest == rest;
    } else {
      var others := ItemTokens(items[1..]);
      ScanValue(items[0], expectKey, others + rest);
      var exit := ValueExit(items[0], expectKey);
      ScanItems(items[1..], exit, rest);
      Assoc(Tokens(items[0]), others, rest);
      Assoc(ValueKeys(items[0], expectKey), ItemKeys(items[1..], exit), Scan(rest, 1, ItemsExit(items[1..], exit)));
    }
  }

  lemma {:induction false} ScanMembers(members: seq<Member>, expectKey: bool, rest: seq<Token>)
    ensures Scan(MemberTokens(members) + ([CloseObj] + rest), 1, expectKey) == MemberKeys(members, expectKey)
    decreases members
  {
    var end := [CloseObj] + rest;
    if members == [] {
      assert MemberTokens(members) + end == end;
      ScanToken(CloseObj, rest, 1, expectKey);
    } else {
      var m, others := members[0], MemberTokens(members[1..]);
      ScanMember(m, expectKey, others, end);
      ScanMembers(members[1..], ValueExit(m.value, !expectKey), rest);
    }
  }

  lemma {:induction false} ScanMember(m: Member, expectKey: bool, others: seq<Token>, end: seq<Token>)
    ensures Scan([Text(m.name)] + Tokens(m.value) + others + end, 1, expectKey) ==
            (if expectKey then [m.name] else []) + ValueKeys(m.value, !expectKey)
            + Scan(others + end, 1, ValueExit(m.value, !expectKey))
  {
    MemberFirst(m, others, end);
    ScanToken(Text(m.name), Tokens(m.value) + (others + end), 1, expectKey);
    ScanValue(m.value, !expectKey, others + end);
    Assoc(if expectKey then [m.name] else [], ValueKeys(m.value, !expectKey), Scan(others + end, 1, ValueExit(m.value, !expectKey)));
  }

  /** The machine on a whole object, whatever follows it. */
  lemma {:induction false} ScanObject(members: seq<Member>, rest: seq<Token>)
    ensures Scan(Tokens(Obj(members)) + rest, 0, false) == MemberKeys(members, true)
  {
    Regroup(OpenObj, MemberTokens(members), CloseObj, rest);
    ScanToken(OpenObj, MemberTokens(members) + ([CloseObj] + rest), 0, false);
    ScanMembers(members, true, rest);
  }

  // ---- when the answer is the key order -------------------------------------------------

  /** No string item directly follows a sibling that is not an array, here or in nested arrays. */
  predicate Quiet(items: seq<Json>, afterPlain: bool)
    decreases items
  {
    items != [] ==>
      && (items[0].Str? ==> !afterPlain)
      && (items[0].Arr? ==> Quiet(items[0].items, false))
      && Quiet(items[1..], !items[0].Arr?)
  }

  /** Only the last member may be an array, and then only a quiet one. */
  predicate Recoverable(members: seq<Member>) {
    && (forall i :: 0 <= i < |members| - 1 ==> !members[i].value.Arr?)
    && (members != [] && members[|members| - 1].value.Arr? ==> Quiet(members[|members| - 1].value.items, false))
  }

  lemma {:induction false} QuietIff(items: seq<Json>, expectKey: bool)
    ensures Quiet(items, expectKey) <==> ItemKeys(items, expectKey) == []
    decreases items
  {
    if items != [] {
      if items[0].Arr? {
        QuietIff(items[0].items, false);
      }
      if !(items[0].Str? && expectKey) {
        QuietIff(items[1..], !items[0].Arr?);
      }
    }
  }

  lemma {:induction false} RecoverableSuffices(members: seq<Member>)
    requires Recoverable(members)
    ensures MemberKeys(members, true) == Names(members)
  {
    if members != [] {
      if members[0].value.Arr? {
        assert |members| == 1;
        QuietIff(members[0].value.items, false);
      } else {
        RecoverableSuffices(members[1..]);
      }
    }
  }

  /** The strings standing as top-level member values or inside top-level arrays. */
  function LooseStrings(v: Json): set<string>
    decreases v, 0
  {
    match v
    case Str(s) => {s}
    case Arr(items) => ItemStrings(items)
    case _ => {}
  }

  function ItemStrings(items: seq<Json>): set<string>
    decreases items, 1
  {
    if items == [] then {} else LooseStrings(items[0]) + ItemStrings(items[1..])
  }

  function Echoes(members: seq<Member>): set<string> {
    if members == [] then {} else LooseStrings(members[0].value) + Echoes(members[1..])
  }

  lemma {:induction false} ValueKeysAreLoose(v: Json, expectKey: bool)
    ensures forall k :: k in ValueKeys(v, expectKey) ==> k in LooseStrings(v)
    decreases v, 0
  {
    if v.Arr? {
      ItemKeysAreLoose(v.items, false);
    }
  }

  lemma {:induction false} ItemKeysAreLoose(items: seq<Json>, expectKey: bool)
    ensures forall k :: k in ItemKeys(items, expectKey) ==> k in ItemStrings(items)
    decreases items, 1
  {
    if items != [] {
      ValueKeysAreLoose(items[0], expectKey);
      ItemKeysAreLoose(items[1..], ValueExit(items[0], expectKey));
    }
  }

  lemma {:induction false} NoMembers(s: seq<string>, t: set<string>)
    requires forall k :: k in s ==> k in t
    ensures t == {} ==> s == []
  {
    if s != [] {
      assert s[0] in s;
    }
  }

  /** Fewer keys than members come out once a name is missed, unless strays make up for it. */
  lemma {:induction false} MissedNames(members: seq<Member>, expectKey: bool, names: set<string>)
    requires names !! Echoes(members)
    requires forall k :: k in MemberKeys(members, expectKey) ==> k in names
    ensures |MemberKeys(members, expectKey)| <= |members|
    ensures members != [] && !expectKey ==> |MemberKeys(members, expectKey)| < |members|
    ensures expectKey && |MemberKeys(members, expectKey)| == |members| ==> Recoverable(members)
    decreases members
  {
    if members != [] {
      var m, rest := members[0], members[1..];
      var stray, exit := ValueKeys(m.value, !expectKey), ValueExit(m.value, !expectKey);
      ValueKeysAreLoose(m.value, !expectKey);
      var keys := MemberKeys(members, expectKey);
      var own := if expectKey then [m.name] else [];
      assert keys == own + stray + MemberKeys(rest, exit);
      NoMembers(stray, names * Echoes(members));
      forall k | k in MemberKeys(rest, exit)
        ensures k in names
      {
        assert k in keys;
      }
      MissedNames(rest, exit, names);
      if expectKey && m.value.Arr? {
        QuietIff(m.value.items, false);
      }
    }
  }

  lemma NamesLength(members: seq<Member>)
    ensures |Names(members)| == |members|
  {
  }

  /** The members from the first one on whose value is an array. */
  function FromFirstArray(members: seq<Member>): seq<Member> {
    if members == [] || members[0].value.Arr? then members else FromFirstArray(members[1..])
  }

  /** Before the first array the scan is never wrong. */
  lemma {:induction false} FirstArrayDecides(members: seq<Member>)
    ensures Recoverable(members) <==> Recoverable(FromFirstArray(members))
    ensures MemberKeys(members, true) == Names(members)
            <==> MemberKeys(FromFirstArray(members), true) == Names(FromFirstArray(members))
  {
    if members != [] && !members[0].value.Arr? {
      FirstArrayDecides(members[1..]);
      assert MemberKeys(members, true) == [members[0].name] + MemberKeys(members[1..], true);
      assert MemberKeys(members, true)[1..] == MemberKeys(members[1..], true);
      assert Names(members)[1..] == Names(members[1..]);
    }
  }

  /**
    Arrays do not change the depth, so the key order is right exactly when no
    member but the last holds an array and that one is quiet. (Where, from the
    first array on, a string repeats a member name, a wrong scan can look right:
    see EchoHidesLoss and ValueHidesLoss.)
  */
  lemma {:induction false} KeyOrderIff(members: seq<Member>, rest: seq<Token>)
    ensures Recoverable(members) ==> Scan(Tokens(Obj(members)) + rest, 0, false) == Names(members)
    ensures var tail := FromFirstArray(members);
            (forall k :: k in Names(tail) ==> k !in Echoes(tail)) ==>
              (Scan(Tokens(Obj(members)) + rest, 0, false) == Names(members) <==> Recoverable(members))
  {
    ScanObject(members, rest);
    var tail := FromFirstArray(members);
    FirstArrayDecides(members);
    if Recoverable(members) {
      RecoverableSuffices(members);
    }
    if (forall k :: k in Names(tail) ==> k !in Echoes(tail)) && MemberKeys(tail, true) == Names(tail) {
      NamesLength(tail);
      MissedNames(tail, true, set k | k in Names(tail));
    }
  }

  /** In particular when the top-level values are scalars and objects, arrays allowed only below. */
  lemma {:induction false} FlatObjectsKeepKeyOrder(members: seq<Member>, rest: seq<Token>)
    requires forall i :: 0 <= i < |members| ==> !members[i].value.Arr?
    ensures Scan(Tokens(Obj(members)) + rest, 0, false) == Names(members)
  {
    KeyOrderIff(members, rest);
  }

  /** A two-string array in front of a number: the second string takes the place of the number's name. */
  lemma {:induction false} ArrayThenNumber(name: string, x: string, y: string, next: Member, doc: seq<Member>, rest: seq<Token>)
    requires next.value.Number? && doc == [Member(name, Arr([Str(x), Str(y)])), next]
    ensures Scan(Tokens(Obj(doc)) + rest, 0, false) == [name, y] && Names(doc) == [name, next.name]
    ensures !Recoverable(doc)
  {
    ScanObject(doc, rest);
    assert [Str(x), Str(y)][1..] == [Str(y)] && [Str(y)][1..] == [];
    assert ItemKeys([Str(y)], true) == [y] + ItemKeys([], false) == [y];
    assert ItemKeys([Str(x), Str(y)], false) == [] + ItemKeys([Str(y)], true) == [y];
    assert doc[1..] == [next] && [next][1..] == [];
    assert MemberKeys([next], false) == [] + [] + MemberKeys([], true) == [];
    assert Names([next]) == [next.name] + Names([]) == [next.name];
    assert doc[0].value.Arr?;
  }

  /** {"a":["x","y"],"b":1} comes out as a, y. */
  lemma {:induction false} ArrayBreaksKeyOrder(rest: seq<Token>)
    ensures var doc := [Member("a", Arr([Str("x"), Str("y")])), Member("b", Number("1"))];
            Scan(Tokens(Obj(doc)) + rest, 0, false) == ["a", "y"] && Names(doc) == ["a", "b"]
  {
    var next := Member("b", Number("1"));
    ArrayThenNumber("a", "x", "y", next, [Member("a", Arr([Str("x"), Str("y")])), next], rest);
  }

  /** {"a":["x","b"],"b":1} comes out as a, b, the second one from inside the array. */
  lemma {:induction false} EchoHidesLoss(rest: seq<Token>)
    ensures var doc := [Member("a", Arr([Str("x"), Str("b")])), Member("b", Number("1"))];
            !Recoverable(doc) && Scan(Tokens(Obj(doc)) + rest, 0, false) == Names(doc)
  {
    var next := Member("b", Number("1"));
    ArrayThenNumber("a", "x", "b", next, [Member("a", Arr([Str("x"), Str("b")])), next], rest);
  }

  /** {"a":[],"c":"c"} comes out as a, c, the second one being the value of c. */
  lemma {:induction false} ValueHidesLoss(rest: seq<Token>)
    ensures var doc := [Member("a", Arr([])), Member("c", Str("c"))];
            !Recoverable(doc) && Scan(Tokens(Obj(doc)) + rest, 0, false) == Names(doc)
  {
    var doc := [Member("a", Arr([])), Member("c", Str("c"))];
    ScanObject(doc, rest);
    assert ItemKeys([], false) == [];
    assert doc[1..] == [Member("c", Str("c"))];
    assert MemberKeys(doc[1..], false) == ["c"] + MemberKeys([], ValueExit(Str("c"), true));
    assert Names(doc[1..]) == ["c"];
    assert doc[0].value.Arr?;
  }

  // ---- the union of keys over many events --------------------------------------------------

  function FirstSeen(seen: set<string>, keys: seq<string>): seq<string>
    decreases keys
  {
    if keys == [] then []
    else if keys[0] in seen then FirstSeen(seen, keys[1..])
    else [keys[0]] + FirstSeen(seen + {keys[0]}, keys[1..])
  }

  lemma {:induction false} FirstSeenSnoc(seen: set<string>, keys: seq<string>, k: string)
    ensures FirstSeen(seen, keys + [k]) ==
            if k in seen || k in keys then FirstSeen(seen, keys) else FirstSeen(seen, keys) + [k]
    decreases keys
  {
    if keys == [] {
      assert keys + [k] == [k];
    } else {
      assert (keys + [k])[1..] == keys[1..] + [k];
      FirstSeenSnoc(if keys[0] in seen then seen else seen + {keys[0]}, keys[1..], k);
    }
  }

  lemma {:induction false} FirstSeenMembers(seen: set<string>, keys: seq<string>)
    ensures forall k :: k in FirstSeen(seen, keys) <==> k in keys && k !in seen
    decreases keys
  {
    if keys != [] {
      FirstSeenMembers(if keys[0] in seen then seen else seen + {keys[0]}, keys[1..]);
      assert forall k :: k in keys <==> k == keys[0] || k in keys[1..];
    }
  }

  /** Listed in the order in which they first occur among the keys. */
  ghost predicate InOrder(keys: seq<string>, u: seq<string>) {
    forall i, j :: 0 <= i < j < |u| ==> Find(keys, u[i]) < Find(keys, u[j])
  }

  lemma {:induction false} InOrderBehindHead(keys: seq<string>, v: seq<string>)
    requires keys != [] && InOrder(keys[1..], v) && forall i :: 0 <= i < |v| ==> v[i] != keys[0]
    ensures InOrder(keys, v) && InOrder(keys, [keys[0]] + v)
  {
    assert forall i :: 0 <= i < |v| ==> Find(keys, v[i]) == 1 + Find(keys[1..], v[i]);
    assert Find(keys, keys[0]) == 0;
  }

  /** The union holds every key once, in order of first appearance. */
  lemma {:induction false} UnionInFirstAppearanceOrder(seen: set<string>, keys: seq<string>)
    ensures forall k :: k in FirstSeen(seen, keys) <==> k in keys && k !in seen
    ensures InOrder(keys, FirstSeen(seen, keys))
    decreases keys
  {
    FirstSeenMembers(seen, keys);
    if keys != [] {
      var seen' := if keys[0] in seen then seen else seen + {keys[0]};
      var v := FirstSeen(seen', keys[1..]);
      UnionInFirstAppearanceOrder(seen', keys[1..]);
      assert forall i :: 0 <= i < |v| ==> v[i] in v;
      InOrderBehindHead(keys, v);
    }
  }

  /** What a message splits into: the fields of its JSON object if it held one, their keys, and the text around it. */
  datatype Split = Split(fields: Option<map<string, string>>, keys: seq<string>, raw: string)

  /** One event as the table shows it. */
  datatype EventView = EventView(fields: Option<map<string, string>>, raw: string)

  function JsonKeys(e: Split): seq<string> {
    if e.fields.Some? then e.keys else []
  }

  /** The keys of all events, in the order they were logged. */
  function AllKeys(events: seq<Split>): seq<string> {
    if events == [] then [] else AllKeys(events[..|events| - 1]) + JsonKeys(events[|events| - 1])
  }

  lemma {:induction false} AddKeyStep(seen: set<string>, known: seq<string>, k: string)
    requires forall x :: x in seen <==> x in known
    ensures FirstSeen({}, known + [k]) == if k in seen then FirstSeen({}, known) else FirstSeen({}, known) + [k]
    ensures forall x :: x in seen + {k} <==> x in known + [k]
  {
    FirstSeenSnoc({}, known, k);
  }

  /** The inner loop: one document's keys join the list unless they are on it. */
  method AddKeys(known: seq<string>, seen: set<string>, ghost before: seq<string>, evKeys: seq<string>)
    returns (keys: seq<string>, seen': set<string>)
    requires known == FirstSeen({}, before) && forall k :: k in seen <==> k in before
    ensures keys == FirstSeen({}, before + evKeys)
    ensures forall k :: k in seen' <==> k in before + evKeys
  {
    keys, seen' := known, seen;
    assert before + evKeys[..0] == before;
    for i := 0 to |evKeys|
      invariant keys == FirstSeen({}, before + evKeys[..i])
      invariant forall k :: k in seen' <==> k in before + evKeys[..i]
    {
      assert before + evKeys[..i + 1] == before + evKeys[..i] + [evKeys[i]];
      AddKeyStep(seen', before + evKeys[..i], evKeys[i]);
      if evKeys[i] !in seen' {
        seen' := seen' + {evKeys[i]};
        keys := keys + [evKeys[i]];
      }
    }
    assert evKeys[..|evKeys|] == evKeys;
  }

  predicate AnyJson(events: seq<Split>) {
    exists e :: e in events && e.fields.Some?
  }

  predicate AnyRaw(events: seq<Split>) {
    exists e :: e in events && e.raw != ""
  }

  lemma {:induction false} FlagsSnoc(events: seq<Split>, e: Split)
    ensures AnyJson(events + [e]) <==> AnyJson(events) || e.fields.Some?
    ensures AnyRaw(events + [e]) <==> AnyRaw(events) || e.raw != ""
  {
    assert forall x :: x in events + [e] <==> x in events || x == e;
  }

  /** What is known once some of the events have been gone through. */
  ghost predicate Analyzed(events: seq<Split>, views: seq<EventView>, keys: seq<string>, seen: set<string>, anyJson: bool, anyRaw: bool) {
    && |views| == |events| && (forall i :: 0 <= i < |events| ==> views[i] == EventView(events[i].fields, events[i].raw))
    && keys == FirstSeen({}, AllKeys(events)) && (forall k :: k in seen <==> k in AllKeys(events))
    && (anyJson <==> AnyJson(events)) && (anyRaw <==> AnyRaw(events))
  }

  lemma {:induction false} AnalyzedSnoc(events: seq<Split>, e: Split, views: seq<EventView>, keys: seq<string>, seen: set<string>, anyJson: bool, anyRaw: bool)
    requires |views| == |events| && forall i :: 0 <= i < |events| ==> views[i] == EventView(events[i].fields, events[i].raw)
    requires keys == FirstSeen({}, AllKeys(events) + JsonKeys(e)) && forall k :: k in seen <==> k in AllKeys(events) + JsonKeys(e)
    requires (anyJson <==> AnyJson(events) || e.fields.Some?) && (anyRaw <==> AnyRaw(events) || e.raw != "")
    ensures Analyzed(events + [e], views + [EventView(e.fields, e.raw)], keys, seen, anyJson, anyRaw)
  {
    assert (events + [e])[..|events|] == events;
    FlagsSnoc(events, e);
  }

  /** One event's share of the keys. */
  method AddEventKeys(known: seq<string>, seen: set<string>, ghost before: seq<Split>, ev: Split)
    returns (keys: seq<string>, seen': set<string>)
    requires known == FirstSeen({}, AllKeys(before)) && forall k :: k in seen <==> k in AllKeys(before)
    ensures keys == FirstSeen({}, AllKeys(before) + JsonKeys(ev))
    ensures forall k :: k in seen' <==> k in AllKeys(before) + JsonKeys(ev)
  {
    keys, seen' := known, seen;
    if ev.fields.Some? {
      keys, seen' := AddKeys(keys, seen', AllKeys(before), ev.keys);
    } else {
      assert AllKeys(before) + [] == AllKeys(before);
    }
  }

  /** The loop body for one event. */
  method AnalyzeOne(ghost before: seq<Split>, ev: Split, views: seq<EventView>, keys: seq<string>, seen: set<string>,
                    anyJson: bool, anyRaw: bool)
    returns (views': seq<EventView>, keys': seq<string>, seen': set<string>, anyJson': bool, anyRaw': bool)
    requires Analyzed(before, views, keys, seen, anyJson, anyRaw)
    ensures Analyzed(before + [ev], views', keys', seen', anyJson', anyRaw')
  {
    anyJson', anyRaw' := anyJson, anyRaw;
    keys', seen' := AddEventKeys(keys, seen, before, ev);
    if ev.fields.Some? {
      anyJson' := true;
    }
    if ev.raw != "" {
      anyRaw' := true;
    }
    AnalyzedSnoc(before, ev, views, keys', seen', anyJson', anyRaw');
    views' := views + [EventView(ev.fields, ev.raw)];
  }

  method AnalyzeEvents(events: seq<Split>) returns (views: seq<EventView>, keys: seq<string>, anyJson: bool, anyRaw: bool)
    ensures |views| == |events| && forall i :: 0 <= i < |events| ==> views[i] == EventView(events[i].fields, events[i].raw)
    ensures keys == FirstSeen({}, AllKeys(events))
    ensures anyJson <==> exists e :: e in events && e.fields.Some?
    ensures anyRaw <==> exists e :: e in events && e.raw != ""
  {
    views, keys, anyJson, anyRaw := [], [], false, false;
    var seen: set<string> := {};
    ghost var done: seq<Split> := [];
    for n := 0 to |events|
      invariant done == events[..n]
      invariant Analyzed(done, views, keys, seen, anyJson, anyRaw)
    {
      views, keys, seen, anyJson, anyRaw := AnalyzeOne(done, events[n], views, keys, seen, anyJson, anyRaw);
      done := done + [events[n]];
    }
    assert done == events;
  }

  /** The keys gathered are those of the events with an object, event after event. */
  lemma {:induction false} KeysFollowEvents(a: seq<Split>, b: seq<Split>, e: Split)
    ensures AllKeys(a + b) == AllKeys(a) + AllKeys(b)
    ensures AllKeys([e]) == if e.fields.Some? then e.keys else []
    decreases |b|
  {
    assert [e][..0] == [];
    assert AllKeys([e]) == AllKeys([]) + JsonKeys(e);
    if b == [] {
      assert a + b == a;
    } else {
      var n := |b| - 1;
      KeysFollowEvents(a, b[..n], e);
      assert (a + b)[..|a + b| - 1] == a + b[..n];
      Assoc(AllKeys(a), AllKeys(b[..n]), JsonKeys(b[n]));
    }
  }

  /** For events whose objects keep their key order, the columns are the members in order of first appearance. */
  lemma {:induction false} ColumnsFollowDocuments(docs: seq<seq<Member>>, events: seq<Split>)
    requires |docs| == |events|
    requires forall i :: 0 <= i < |docs| ==>
               Recoverable(docs[i]) && events[i].fields.Some? && events[i].keys == Scan(Tokens(Obj(docs[i])), 0, false)
    ensures AllKeys(events) == AllNames(docs)
  {
    if docs != [] {
      var n := |docs| - 1;
      DocumentKeys(docs[n]);
      ColumnsFollowDocuments(docs[..n], events[..n]);
    }
  }

  lemma {:induction false} DocumentKeys(doc: seq<Member>)
    requires Recoverable(doc)
    ensures Scan(Tokens(Obj(doc)), 0, false) == Names(doc)
  {
    KeyOrderIff(doc, []);
    assert Tokens(Obj(doc)) + [] == Tokens(Obj(doc));
  }

  function AllNames(docs: seq<seq<Member>>): seq<string> {
    if docs == [] then [] else AllNames(docs[..|docs| - 1]) + Names(docs[|docs| - 1])
  }
}
