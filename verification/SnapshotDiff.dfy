/** What changed between two inventory snapshots, as an ordered list. */
module SnapshotDiff {
  import opened Ordering
  import opened Sequences

  datatype Entry = Entry(key: string, id: string, name: string, kind: string, region: string, state: string,
                         tags: map<string, string>)

  /** Kinds carry the source's labels, which also order them. */
  datatype Kind = Added | Removed | Modified {
    function Label(): string {
      match this
      case Added => "added"
      case Removed => "removed"
      case Modified => "modified"
    }
  }

  datatype Change = Change(kind: Kind, entry: Entry, deltas: seq<string>)

  // ---- field-level differences -----------------------------------------------------

  function OrNone(s: string): string {
    if s == "" then "(none)" else s
  }

  function Arrow(field: string, before: string, after: string): string {
    field + ": " + OrNone(before) + " → " + OrNone(after)
  }

  function TagOr(tags: map<string, string>, k: string): string {
    if k in tags then tags[k] else ""
  }

  predicate TagDiffers(o: Entry, n: Entry, k: string) {
    !(k in o.tags && k in n.tags && o.tags[k] == n.tags[k])
  }

  /** A note on a tag, if it differs. */
  function NoteFor(o: Entry, n: Entry, k: string): seq<string> {
    if TagDiffers(o, n, k) then [TagNote(o, n, k)] else []
  }

  lemma {:induction false} NoteOrNone(o: Entry, n: Entry, k: string)
    ensures NoteFor(o, n, k) == [] <==> !TagDiffers(o, n, k)
  {
  }

  /** One note per differing tag, along the given keys. */
  function TagNotes(o: Entry, n: Entry, keys: seq<string>): seq<string> {
    if keys == [] then [] else TagNotes(o, n, keys[..|keys| - 1]) + NoteFor(o, n, keys[|keys| - 1])
  }

  function TagNote(o: Entry, n: Entry, k: string): string {
    Arrow("tag " + k, TagOr(o.tags, k), TagOr(n.tags, k))
  }

  function FieldNotes(o: Entry, n: Entry): seq<string> {
    (if o.name != n.name then [Arrow("name", o.name, n.name)] else [])
    + (if o.state != n.state then [Arrow("state", o.state, n.state)] else [])
  }

  /** A sorted listing of a set of strings: what collecting and sort.Strings leave. */
  ghost predicate Lists(keys: seq<string>, s: set<string>) {
    Ascending(Before, keys) && forall k :: k in keys <==> k in s
  }

  lemma {:induction false} ListingExists(s: set<string>)
    ensures exists keys :: Lists(keys, s)
  {
    if s == {} {
      assert Lists([], s);
    } else {
      var k :| k in s;
      ListingExists(s - {k});
      var keys :| Lists(keys, s - {k});
      BeforeLawful();
      forall i | 0 <= i < |keys|
        ensures Before(keys[i], k) || Before(k, keys[i])
      {
        assert keys[i] in s - {k};
        BeforeTotal(keys[i], k);
      }
      InsertAscends(Before, k, keys);
      InsertMembers(k, keys);
      assert Lists(InsertBy(Before, k, keys), s);
    }
  }

  lemma InsertMembers(k: string, keys: seq<string>)
    ensures forall x :: x in InsertBy(Before, k, keys) <==> x == k || x in keys
  {
  }

  ghost function Listing(s: set<string>): (keys: seq<string>)
    ensures Lists(keys, s)
  {
    ListingExists(s);
    var keys :| Lists(keys, s);
    keys
  }

  lemma {:induction false} ListingIsUnique(keys: seq<string>, s: set<string>)
    requires Lists(keys, s)
    ensures keys == Listing(s)
  {
    BeforeLawful();
    AscendingIsUnique(Before, keys, Listing(s));
  }

  /** Collect from a map in any order, then sort. */
  method SortedKeys(s: set<string>) returns (keys: seq<string>)
    ensures keys == Listing(s)
  {
    keys := [];
    var todo := s;
    while todo != {}
      invariant todo <= s
      invariant forall k :: k in keys <==> k in s - todo
      invariant forall i, j :: 0 <= i < j < |keys| ==> keys[i] != keys[j]
      decreases todo
    {
      var k :| k in todo;
      assert s - (todo - {k}) == (s - todo) + {k};
      keys := keys + [k];
      todo := todo - {k};
    }
    BeforeLawful();
    forall i, j | 0 <= i < j < |keys|
      ensures Before(keys[i], keys[j]) || Before(keys[j], keys[i])
    {
      BeforeTotal(keys[i], keys[j]);
    }
    SortAscends(Before, keys);
    SortPermutes(Before, keys);
    keys := SortBy(Before, keys);
    ListingIsUnique(keys, s);
  }

  ghost function Notes(o: Entry, n: Entry): seq<string> {
    FieldNotes(o, n) + TagNotes(o, n, Listing(o.tags.Keys + n.tags.Keys))
  }

  lemma {:induction false} TagNotesSnoc(o: Entry, n: Entry, keys: seq<string>, i: nat, fields: seq<string>)
    requires i < |keys|
    ensures fields + TagNotes(o, n, keys[..i + 1]) == fields + TagNotes(o, n, keys[..i]) + NoteFor(o, n, keys[i])
  {
    assert keys[..i + 1][..i] == keys[..i];
    Assoc(fields, TagNotes(o, n, keys[..i]), NoteFor(o, n, keys[i]));
  }

  /** The loop body for one tag key: at most one note is appended. */
  method AddTagNote(o: Entry, n: Entry, k: string, notes: seq<string>) returns (out: seq<string>)
    ensures out == notes + NoteFor(o, n, k)
  {
    if k in o.tags && k in n.tags && o.tags[k] == n.tags[k] {
      return notes;
    }
    return notes + [TagNote(o, n, k)];
  }

  method FieldDeltas(o: Entry, n: Entry) returns (out: seq<string>)
    ensures out == FieldNotes(o, n)
  {
    out := [];
    if o.name != n.name {
      out := out + [Arrow("name", o.name, n.name)];
    }
    if o.state != n.state {
      out := out + [Arrow("state", o.state, n.state)];
    }
  }

  method EntryDeltas(o: Entry, n: Entry) returns (out: seq<string>)
    ensures out == Notes(o, n)
  {
    out := FieldDeltas(o, n);
    ghost var fields := out;
    assert fields + [] == fields;
    var keys := SortedKeys(o.tags.Keys + n.tags.Keys);
    for i := 0 to |keys|
      invariant out == fields + TagNotes(o, n, keys[..i])
    {
      TagNotesSnoc(o, n, keys, i, fields);
      out := AddTagNote(o, n, keys[i], out);
    }
    assert keys[..|keys|] == keys;
  }

  /** Two matched entries agree on everything a diff compares. */
  predicate Alike(o: Entry, n: Entry) {
    o.name == n.name && o.state == n.state && o.tags == n.tags
  }

  lemma {:induction false} NoTagNotesIff(o: Entry, n: Entry, keys: seq<string>)
    ensures TagNotes(o, n, keys) == [] <==> forall k :: k in keys ==> !TagDiffers(o, n, k)
  {
    if keys != [] {
      var init, last := keys[..|keys| - 1], keys[|keys| - 1];
      NoTagNotesIff(o, n, init);
      NoteOrNone(o, n, last);
      assert forall k :: k in keys <==> k in init || k == last by {
        assert keys == init + [last];
      }
    }
  }

  /** There is nothing to note exactly when name, state and tags are equal. */
  lemma {:induction false} NoNotesIffAlike(o: Entry, n: Entry)
    ensures Notes(o, n) == [] <==> Alike(o, n)
  {
    var keys := Listing(o.tags.Keys + n.tags.Keys);
    NoTagNotesIff(o, n, keys);
    if forall k :: k in keys ==> !TagDiffers(o, n, k) {
      forall k
        ensures k in o.tags <==> k in n.tags
        ensures k in o.tags && k in n.tags ==> o.tags[k] == n.tags[k]
      {
        assert k in keys <==> k in o.tags.Keys + n.tags.Keys;
        assert k in keys ==> !TagDiffers(o, n, k);
      }
    }
  }

  /** A note reads: field, colon, what was there before, arrow, what is there now; nothing reads as (none). */
  predicate Tells(note: string, field: string, before: string, after: string) {
    note == field + ": " + (if before == "" then "(none)" else before) + " → " + (if after == "" then "(none)" else after)
  }

  /** A tag of either entry that the other lacks or has at another value. */
  predicate TagChanged(o: Entry, n: Entry, k: string) {
    (k in o.tags || k in n.tags) && !(k in o.tags && k in n.tags && o.tags[k] == n.tags[k])
  }

  predicate TellsTag(note: string, o: Entry, n: Entry, k: string) {
    Tells(note, "tag " + k, if k in o.tags then o.tags[k] else "", if k in n.tags then n.tags[k] else "")
  }

  lemma {:induction false} NoteTells(o: Entry, n: Entry, k: string, note: string)
    ensures note in NoteFor(o, n, k) <==> TagDiffers(o, n, k) && TellsTag(note, o, n, k)
  {
  }

  lemma {:induction false} TagNotesTell(o: Entry, n: Entry, keys: seq<string>, note: string)
    ensures note in TagNotes(o, n, keys) <==> exists k :: k in keys && TagDiffers(o, n, k) && TellsTag(note, o, n, k)
  {
    if keys != [] {
      var init, last := keys[..|keys| - 1], keys[|keys| - 1];
      TagNotesTell(o, n, init, note);
      assert keys == init + [last];
      NoteTells(o, n, last, note);
      assert note in TagNotes(o, n, keys) <==> note in TagNotes(o, n, init) || note in NoteFor(o, n, last);
    }
  }

  /** The notes tell each change of name, state and tags, old value first, and nothing else. */
  lemma {:induction false} NotesTell(o: Entry, n: Entry, note: string)
    ensures note in Notes(o, n) <==>
              || (o.name != n.name && Tells(note, "name", o.name, n.name))
              || (o.state != n.state && Tells(note, "state", o.state, n.state))
              || exists k :: TagChanged(o, n, k) && TellsTag(note, o, n, k)
  {
    var keys := Listing(o.tags.Keys + n.tags.Keys);
    TagNotesTell(o, n, keys, note);
    forall k
      ensures k in keys && TagDiffers(o, n, k) <==> TagChanged(o, n, k)
    {
      assert k in keys <==> k in o.tags.Keys + n.tags.Keys;
    }
  }

  /** Name comes before state, and both before the tags, which follow their keys. */
  lemma {:induction false} NotesInOrder(o: Entry, n: Entry, a: seq<string>, b: seq<string>)
    requires Lists(a + b, o.tags.Keys + n.tags.Keys)
    ensures Notes(o, n) == FieldNotes(o, n) + (TagNotes(o, n, a) + TagNotes(o, n, b))
    ensures o.name != n.name ==> Tells(Notes(o, n)[0], "name", o.name, n.name)
    ensures o.state != n.state ==> Tells(Notes(o, n)[if o.name != n.name then 1 else 0], "state", o.state, n.state)
  {
    ListingIsUnique(a + b, o.tags.Keys + n.tags.Keys);
    TagNotesConcat(o, n, a, b);
  }

  lemma {:induction false} TagNotesConcat(o: Entry, n: Entry, a: seq<string>, b: seq<string>)
    ensures TagNotes(o, n, a + b) == TagNotes(o, n, a) + TagNotes(o, n, b)
    decreases |b|
  {
    if b == [] {
      assert a + b == a;
    } else {
      var init, k := b[..|b| - 1], b[|b| - 1];
      TagNotesConcat(o, n, a, init);
      assert (a + b)[..|a + b| - 1] == a + init && (a + b)[|a + b| - 1] == k;
      Assoc(TagNotes(o, n, a), TagNotes(o, n, init), NoteFor(o, n, k));
    }
  }

  // ---- the diff ------------------------------------------------------------------------

  /** The entries kept per key: of several with one key, the last. */
  function ByKey(entries: seq<Entry>): map<string, Entry> {
    if entries == [] then map[] else ByKey(entries[..|entries| - 1])[entries[|entries| - 1].key := entries[|entries| - 1]]
  }

  /** What a key calls for: one change or none. */
  ghost function ChangeAt(before: map<string, Entry>, after: map<string, Entry>, key: string): seq<Change> {
    if key in after && key !in before then [Change(Added, after[key], [])]
    else if key in before && key !in after then [Change(Removed, before[key], [])]
    else if key in before && key in after && Notes(before[key], after[key]) != [] then
      [Change(Modified, after[key], Notes(before[key], after[key]))]
    else []
  }

  ghost function ChangesAt(before: map<string, Entry>, after: map<string, Entry>, keys: seq<string>): seq<Change> {
    if keys == [] then []
    else ChangesAt(before, after, keys[..|keys| - 1]) + ChangeAt(before, after, keys[|keys| - 1])
  }

  predicate ChangeBefore(a: Change, b: Change) {
    if a.entry.kind != b.entry.kind then Before(a.entry.kind, b.entry.kind)
    else if a.kind != b.kind then Before(a.kind.Label(), b.kind.Label())
    else Before(a.entry.key, b.entry.key)
  }

  lemma {:induction false} ChangeOrderLawful()
    ensures Lawful(ChangeBefore)
  {
    BeforeLawful();
    forall x, y, z | ChangeBefore(x, y) && ChangeBefore(y, z)
      ensures ChangeBefore(x, z)
    {
    }
  }

  ghost function DiffOf(before: map<string, Entry>, after: map<string, Entry>): seq<Change> {
    SortBy(ChangeBefore, ChangesAt(before, after, Listing(before.Keys + after.Keys)))
  }

  method Index(entries: seq<Entry>) returns (m: map<string, Entry>)
    ensures m == ByKey(entries)
  {
    m := map[];
    for i := 0 to |entries|
      invariant m == ByKey(entries[..i])
    {
      assert entries[..i + 1][..i] == entries[..i];
      m := m[entries[i].key := entries[i]];
    }
    assert entries[..|entries|] == entries;
  }

  lemma {:induction false} ChangesAtSnoc(before: map<string, Entry>, after: map<string, Entry>, keys: seq<string>, i: nat)
    requires i < |keys|
    ensures ChangesAt(before, after, keys[..i + 1]) == ChangesAt(before, after, keys[..i]) + ChangeAt(before, after, keys[i])
  {
    assert keys[..i + 1][..i] == keys[..i];
  }

  method Diff(older: seq<Entry>, newer: seq<Entry>) returns (out: seq<Change>)
    ensures out == DiffOf(ByKey(older), ByKey(newer))
  {
    var oldM := Index(older);
    var neuM := Index(newer);
    var keys := SortedKeys(oldM.Keys + neuM.Keys);
    out := [];
    for i := 0 to |keys|
      invariant out == ChangesAt(oldM, neuM, keys[..i])
    {
      var k := keys[i];
      ChangesAtSnoc(oldM, neuM, keys, i);
      assert k in oldM.Keys + neuM.Keys;
      if k in neuM && k !in oldM {
        out := out + [Change(Added, neuM[k], [])];
      } else if k in oldM && k !in neuM {
        out := out + [Change(Removed, oldM[k], [])];
      } else {
        var deltas := EntryDeltas(oldM[k], neuM[k]);
        if |deltas| > 0 {
          out := out + [Change(Modified, neuM[k], deltas)];
        } else {
          assert ChangeAt(oldM, neuM, k) == [];
        }
      }
    }
    assert keys[..|keys|] == keys;
    out := SortBy(ChangeBefore, out);
  }

  // ---- what the list says -------------------------------------------------------------------

  ghost predicate Keyed(m: map<string, Entry>) {
    forall k :: k in m ==> m[k].key == k
  }

  lemma ByKeyIsKeyed(entries: seq<Entry>)
    ensures Keyed(ByKey(entries))
  {
  }

  lemma {:induction false} ChangesAtMembers(before: map<string, Entry>, after: map<string, Entry>, keys: seq<string>)
    requires Keyed(before) && Keyed(after)
    requires forall i, j :: 0 <= i < j < |keys| ==> keys[i] != keys[j]
    ensures var cs := ChangesAt(before, after, keys);
            && (forall c :: c in cs <==> c.entry.key in keys && ChangeAt(before, after, c.entry.key) == [c])
            && (forall i, j :: 0 <= i < j < |cs| ==> cs[i].entry.key != cs[j].entry.key)
  {
    if keys != [] {
      var init, k := keys[..|keys| - 1], keys[|keys| - 1];
      ChangesAtMembers(before, after, init);
      assert keys == init + [k];
      assert k !in init;
      var cs, one := ChangesAt(before, after, init), ChangeAt(before, after, k);
      assert forall i :: 0 <= i < |cs| ==> cs[i] in cs;
      assert one != [] ==> one == [one[0]] && one[0].entry.key == k;
    }
  }

  lemma {:induction false} DistinctListing(s: set<string>)
    ensures var keys := Listing(s); forall i, j :: 0 <= i < j < |keys| ==> keys[i] != keys[j]
  {
    BeforeLawful();
  }

  ghost predicate OneChangePerKey(cs: seq<Change>) {
    forall i, j :: 0 <= i < j < |cs| ==> cs[i].entry.key != cs[j].entry.key
  }

  lemma {:induction false} DistinctChangesCompare(cs: seq<Change>)
    requires OneChangePerKey(cs)
    ensures Comparable(ChangeBefore, cs)
  {
    forall i, j | 0 <= i < j < |cs|
      ensures ChangeBefore(cs[i], cs[j]) || ChangeBefore(cs[j], cs[i])
    {
      BeforeTotal(cs[i].entry.kind, cs[j].entry.kind);
      BeforeTotal(cs[i].kind.Label(), cs[j].kind.Label());
      BeforeTotal(cs[i].entry.key, cs[j].entry.key);
    }
  }

  /**
    The list has exactly the change each key calls for, strictly ordered by
    type, kind and key; a key calls for one exactly when the snapshots differ
    in its presence, name, state or tags.
  */
  lemma {:induction false} DiffIsExact(older: seq<Entry>, newer: seq<Entry>)
    ensures var before, after := ByKey(older), ByKey(newer);
            var out := DiffOf(before, after);
            && Ascending(ChangeBefore, out)
            && (forall c :: c in out <==> ChangeAt(before, after, c.entry.key) == [c])
            && (forall c, d :: c in out && d in out && c.entry.key == d.entry.key ==> c == d)
            && (forall key :: ChangeAt(before, after, key) == [] <==>
                  (key !in before && key !in after) || (key in before && key in after && Alike(before[key], after[key])))
  {
    var before, after := ByKey(older), ByKey(newer);
    var keys := Listing(before.Keys + after.Keys);
    var cs := ChangesAt(before, after, keys);
    ByKeyIsKeyed(older);
    ByKeyIsKeyed(newer);
    DistinctListing(before.Keys + after.Keys);
    ChangesAtMembers(before, after, keys);
    DistinctChangesCompare(cs);
    ChangeOrderLawful();
    SortAscends(ChangeBefore, cs);
    SortPermutes(ChangeBefore, cs);
    forall key | key in before && key in after
      ensures Notes(before[key], after[key]) == [] <==> Alike(before[key], after[key])
    {
      NoNotesIffAlike(before[key], after[key]);
    }
  }

  function Mirror(kind: Kind): Kind {
    match kind
    case Added => Removed
    case Removed => Added
    case Modified => Modified
  }

  lemma {:induction false} SwapMirrorsChange(before: map<string, Entry>, after: map<string, Entry>, key: string)
    ensures var there, back := ChangeAt(before, after, key), ChangeAt(after, before, key);
            |there| == |back| && (there != [] ==> back[0].kind == Mirror(there[0].kind))
  {
    if key in before && key in after {
      NoNotesIffAlike(before[key], after[key]);
      NoNotesIffAlike(after[key], before[key]);
    }
  }

  /** The one change a key calls for is filed under that key. */
  lemma {:induction false} ChangeKeepsKey(before: map<string, Entry>, after: map<string, Entry>, key: string)
    requires Keyed(before) && Keyed(after) && ChangeAt(before, after, key) != []
    ensures |ChangeAt(before, after, key)| == 1 && ChangeAt(before, after, key)[0].entry.key == key
  {
  }

  /** Each change of one list has a change of the other with the same key and the mirrored kind. */
  ghost predicate MirroredIn(cs: seq<Change>, ds: seq<Change>) {
    forall c :: c in cs ==> exists d :: d in ds && d.entry.key == c.entry.key && d.kind == Mirror(c.kind)
  }

  lemma {:induction false} ListedIff(older: seq<Entry>, newer: seq<Entry>, c: Change)
    ensures c in DiffOf(ByKey(older), ByKey(newer)) <==> ChangeAt(ByKey(older), ByKey(newer), c.entry.key) == [c]
  {
    DiffIsExact(older, newer);
  }

  lemma {:induction false} MirrorOf(older: seq<Entry>, newer: seq<Entry>, c: Change) returns (d: Change)
    requires c in DiffOf(ByKey(older), ByKey(newer))
    ensures d in DiffOf(ByKey(newer), ByKey(older)) && d.entry.key == c.entry.key && d.kind == Mirror(c.kind)
  {
    var before, after, key := ByKey(older), ByKey(newer), c.entry.key;
    ListedIff(older, newer, c);
    SwapMirrorsChange(before, after, key);
    d := ChangeAt(after, before, key)[0];
    ByKeyIsKeyed(older);
    ByKeyIsKeyed(newer);
    ChangeKeepsKey(after, before, key);
    ListedIff(newer, older, d);
  }

  lemma {:induction false} SwapMirrorsOneWay(older: seq<Entry>, newer: seq<Entry>)
    ensures MirroredIn(DiffOf(ByKey(older), ByKey(newer)), DiffOf(ByKey(newer), ByKey(older)))
  {
    forall c | c in DiffOf(ByKey(older), ByKey(newer))
      ensures exists d :: d in DiffOf(ByKey(newer), ByKey(older)) && d.entry.key == c.entry.key && d.kind == Mirror(c.kind)
    {
      var d := MirrorOf(older, newer, c);
    }
  }

  /** Swapping the snapshots mirrors the kind of every change listed and invents or loses none. */
  lemma {:induction false} SwapMirrorsKinds(older: seq<Entry>, newer: seq<Entry>)
    ensures MirroredIn(DiffOf(ByKey(older), ByKey(newer)), DiffOf(ByKey(newer), ByKey(older)))
    ensures MirroredIn(DiffOf(ByKey(newer), ByKey(older)), DiffOf(ByKey(older), ByKey(newer)))
  {
    SwapMirrorsOneWay(older, newer);
    SwapMirrorsOneWay(newer, older);
  }

  ghost predicate UniqueKeys(entries: seq<Entry>) {
    forall i, j :: 0 <= i < j < |entries| ==> entries[i].key != entries[j].key
  }

  lemma {:induction false} ByKeyMembers(entries: seq<Entry>)
    ensures forall key :: key in ByKey(entries) ==> ByKey(entries)[key] in entries
  {
    if entries != [] {
      var init, last := entries[..|entries| - 1], entries[|entries| - 1];
      ByKeyMembers(init);
      assert entries == init + [last];
    }
  }

  lemma {:induction false} ByKeyOfUnique(entries: seq<Entry>)
    requires UniqueKeys(entries)
    ensures forall e :: e in entries ==> e.key in ByKey(entries) && ByKey(entries)[e.key] == e
    ensures |ByKey(entries)| == |entries|
  {
    if entries != [] {
      var init, last := entries[..|entries| - 1], entries[|entries| - 1];
      ByKeyOfUnique(init);
      KeyIsNew(init, last.key);
      assert entries == init + [last];
    }
  }

  lemma {:induction false} KeyIsNew(entries: seq<Entry>, key: string)
    requires forall e :: e in entries ==> e.key != key
    ensures key !in ByKey(entries)
  {
    ByKeyIsKeyed(entries);
    ByKeyMembers(entries);
  }

  /** Of several entries with one key the last counts. */
  lemma {:induction false} LastEntryCounts(entries: seq<Entry>, i: nat)
    requires i < |entries| && forall j :: i < j < |entries| ==> entries[j].key != entries[i].key
    ensures entries[i].key in ByKey(entries) && ByKey(entries)[entries[i].key] == entries[i]
  {
    if i < |entries| - 1 {
      LastEntryCounts(entries[..|entries| - 1], i);
    }
  }

  /** No entry has the key. */
  predicate Lacks(entries: seq<Entry>, key: string) {
    forall e :: e in entries ==> e.key != key
  }

  /** The entries of one key before and after differ in name, state or tags. */
  ghost predicate Changed(older: seq<Entry>, newer: seq<Entry>, c: Change) {
    exists o, n :: o in older && n in newer && o.key == n.key && !Alike(o, n) && c == Change(Modified, n, Notes(o, n))
  }

  lemma {:induction false} KeptEntry(entries: seq<Entry>, key: string)
    requires UniqueKeys(entries)
    ensures key in ByKey(entries) <==> !Lacks(entries, key)
    ensures key in ByKey(entries) ==> ByKey(entries)[key] in entries && ByKey(entries)[key].key == key
  {
    ByKeyIsKeyed(entries);
    ByKeyMembers(entries);
    ByKeyOfUnique(entries);
  }

  /**
    The diff lists exactly: as added, the new entries whose key the old ones
    lack; as removed, the old ones whose key the new ones lack; as modified, the
    new ones that differ from the old one of their key, with the notes on it.
  */
  lemma {:induction false} DiffSays(older: seq<Entry>, newer: seq<Entry>, c: Change)
    requires UniqueKeys(older) && UniqueKeys(newer)
    ensures c in DiffOf(ByKey(older), ByKey(newer)) <==>
              match c.kind
              case Added => c.entry in newer && Lacks(older, c.entry.key) && c.deltas == []
              case Removed => c.entry in older && Lacks(newer, c.entry.key) && c.deltas == []
              case Modified => Changed(older, newer, c)
  {
    var key := c.entry.key;
    ListedIff(older, newer, c);
    KeptEntry(older, key);
    KeptEntry(newer, key);
    ByKeyOfUnique(older);
    ByKeyOfUnique(newer);
    if key in ByKey(older) && key in ByKey(newer) {
      NoNotesIffAlike(ByKey(older)[key], ByKey(newer)[key]);
    }
  }

  function Rank(kind: Kind): nat {
    match kind
    case Added => 0
    case Modified => 1
    case Removed => 2
  }

  /** By type, in each type additions before modifications before removals, in each of these by key. */
  ghost predicate Ranked(cs: seq<Change>) {
    forall i, j :: 0 <= i < j < |cs| ==>
      && (cs[i].entry.kind == cs[j].entry.kind || ComesFirst(cs[i].entry.kind, cs[j].entry.kind))
      && (cs[i].entry.kind == cs[j].entry.kind ==> Rank(cs[i].kind) <= Rank(cs[j].kind))
      && (cs[i].entry.kind == cs[j].entry.kind && cs[i].kind == cs[j].kind ==> ComesFirst(cs[i].entry.key, cs[j].entry.key))
  }

  lemma {:induction false} LabelsRank(a: Kind, b: Kind)
    ensures Before(a.Label(), b.Label()) <==> Rank(a) < Rank(b)
  {
    assert Before("added", "modified") && Before("added", "removed") && Before("modified", "removed");
    assert !Before("modified", "added") && !Before("removed", "added") && !Before("removed", "modified");
    BeforeIrreflexive(a.Label());
  }

  lemma {:induction false} DiffIsRanked(older: seq<Entry>, newer: seq<Entry>)
    ensures Ranked(DiffOf(ByKey(older), ByKey(newer)))
  {
    var cs := DiffOf(ByKey(older), ByKey(newer));
    DiffIsExact(older, newer);
    forall i, j | 0 <= i < j < |cs|
      ensures ChangeBefore(cs[i], cs[j])
      ensures Before(cs[i].entry.kind, cs[j].entry.kind) <==> ComesFirst(cs[i].entry.kind, cs[j].entry.kind)
      ensures Before(cs[i].entry.key, cs[j].entry.key) <==> ComesFirst(cs[i].entry.key, cs[j].entry.key)
      ensures Before(cs[i].kind.Label(), cs[j].kind.Label()) <==> Rank(cs[i].kind) < Rank(cs[j].kind)
    {
      BeforeMeans(cs[i].entry.kind, cs[j].entry.kind);
      BeforeMeans(cs[i].entry.key, cs[j].entry.key);
      LabelsRank(cs[i].kind, cs[j].kind);
    }
  }

  /** The order the entries are listed in does not show in the diff. */
  lemma {:induction false} EntryOrderDoesNotMatter(older: seq<Entry>, newer: seq<Entry>, older': seq<Entry>, newer': seq<Entry>)
    requires UniqueKeys(older) && UniqueKeys(newer) && UniqueKeys(older') && UniqueKeys(newer')
    requires forall e :: e in older <==> e in older'
    requires forall e :: e in newer <==> e in newer'
    ensures DiffOf(ByKey(older), ByKey(newer)) == DiffOf(ByKey(older'), ByKey(newer'))
  {
    SameIndex(older, older');
    SameIndex(newer, newer');
  }

  lemma {:induction false} SameIndex(a: seq<Entry>, b: seq<Entry>)
    requires UniqueKeys(a) && UniqueKeys(b)
    requires forall e :: e in a <==> e in b
    ensures ByKey(a) == ByKey(b)
  {
    ByKeyOfUnique(a);
    ByKeyOfUnique(b);
    ByKeyIsKeyed(a);
    ByKeyIsKeyed(b);
    ByKeyMembers(a);
    ByKeyMembers(b);
    var m, n := ByKey(a), ByKey(b);
    forall key
      ensures key in m <==> key in n
      ensures key in m && key in n ==> m[key] == n[key]
    {
      if key in m { assert m[key] in b; }
      if key in n { assert n[key] in a; }
    }
  }

  // ---- counts ---------------------------------------------------------------------------------

  function CountOf(cs: seq<Change>, kind: Kind): nat {
    if cs == [] then 0 else (if cs[0].kind == kind then 1 else 0) + CountOf(cs[1..], kind)
  }

  method Counts(cs: seq<Change>) returns (added: nat, removed: nat, modified: nat)
    ensures added == CountOf(cs, Added) && removed == CountOf(cs, Removed) && modified == CountOf(cs, Modified)
    ensures added + removed + modified == |cs|
  {
    added, removed, modified := 0, 0, 0;
    for i := 0 to |cs|
      invariant added + CountOf(cs[i..], Added) == CountOf(cs, Added)
      invariant removed + CountOf(cs[i..], Removed) == CountOf(cs, Removed)
      invariant modified + CountOf(cs[i..], Modified) == CountOf(cs, Modified)
      invariant added + removed + modified == i
    {
      assert cs[i..][0] == cs[i] && cs[i..][1..] == cs[i + 1..];
      match cs[i].kind
      case Added => added := added + 1;
      case Removed => removed := removed + 1;
      case Modified => modified := modified + 1;
    }
  }

  lemma {:induction false} CountConcat(a: seq<Change>, b: seq<Change>, kind: Kind)
    ensures CountOf(a + b, kind) == CountOf(a, kind) + CountOf(b, kind)
  {
    if a == [] {
      assert a + b == b;
    } else {
      assert (a + b)[1..] == a[1..] + b;
      CountConcat(a[1..], b, kind);
    }
  }

  lemma CountInsert(c: Change, sorted: seq<Change>, kind: Kind)
    ensures CountOf(InsertBy(ChangeBefore, c, sorted), kind) == CountOf([c], kind) + CountOf(sorted, kind)
  {
  }

  lemma {:induction false} CountSort(cs: seq<Change>, kind: Kind)
    ensures CountOf(SortBy(ChangeBefore, cs), kind) == CountOf(cs, kind)
  {
    if cs != [] {
      CountSort(cs[1..], kind);
      CountInsert(cs[0], SortBy(ChangeBefore, cs[1..]), kind);
    }
  }

  ghost function Among(keys: seq<string>, m: map<string, Entry>): set<string> {
    set k | k in keys && k in m
  }

  lemma {:induction false} CountOne(before: map<string, Entry>, after: map<string, Entry>, key: string)
    ensures var one := ChangeAt(before, after, key);
            && CountOf(one, Added) == (if key in after && key !in before then 1 else 0)
            && CountOf(one, Removed) == (if key in before && key !in after then 1 else 0)
  {
    var one := ChangeAt(before, after, key);
    assert one != [] ==> one[1..] == [];
  }

  lemma {:induction false} CountBalance(before: map<string, Entry>, after: map<string, Entry>, keys: seq<string>)
    requires forall i, j :: 0 <= i < j < |keys| ==> keys[i] != keys[j]
    ensures var cs := ChangesAt(before, after, keys);
            |Among(keys, after)| - |Among(keys, before)| == CountOf(cs, Added) - CountOf(cs, Removed)
  {
    if keys == [] {
      assert Among(keys, after) == {} && Among(keys, before) == {};
    } else {
      var init, k := keys[..|keys| - 1], keys[|keys| - 1];
      CountBalance(before, after, init);
      assert keys == init + [k];
      AmongSnoc(init, k, before);
      AmongSnoc(init, k, after);
      CountOne(before, after, k);
      CountConcat(ChangesAt(before, after, init), ChangeAt(before, after, k), Added);
      CountConcat(ChangesAt(before, after, init), ChangeAt(before, after, k), Removed);
    }
  }

  lemma {:induction false} AmongSnoc(keys: seq<string>, k: string, m: map<string, Entry>)
    requires k !in keys
    ensures |Among(keys + [k], m)| == |Among(keys, m)| + if k in m then 1 else 0
  {
    if k in m {
      assert Among(keys + [k], m) == Among(keys, m) + {k};
    } else {
      assert Among(keys + [k], m) == Among(keys, m);
    }
  }

  /** Additions minus removals is how much the inventory grew. */
  lemma {:induction false} CountsBalanceSizes(older: seq<Entry>, newer: seq<Entry>)
    requires UniqueKeys(older) && UniqueKeys(newer)
    ensures var out := DiffOf(ByKey(older), ByKey(newer));
            |newer| - |older| == CountOf(out, Added) - CountOf(out, Removed)
  {
    var before, after := ByKey(older), ByKey(newer);
    var keys := Listing(before.Keys + after.Keys);
    DistinctListing(before.Keys + after.Keys);
    CountBalance(before, after, keys);
    CountSort(ChangesAt(before, after, keys), Added);
    CountSort(ChangesAt(before, after, keys), Removed);
    ByKeyOfUnique(older);
    ByKeyOfUnique(newer);
    assert Among(keys, before) == before.Keys && Among(keys, after) == after.Keys;
  }
}
