/** The in-memory sink behind the debug pane: a ring buffer of recent log entries. */
module DebugSink {
  import opened Arithmetic
  import opened Sequences

  datatype Entry = Entry(time: int, level: int, msg: string, attrs: string)

  /** The sink's fields as a value. */
  datatype Ring = Ring(buf: seq<Entry>, start: int, count: int, dropped: int)

  ghost predicate Sound(r: Ring) {
    && |r.buf| >= 1
    && 0 <= r.start < |r.buf|
    && 0 <= r.count <= |r.buf|
    && (r.count < |r.buf| ==> r.start == 0 && r.dropped == 0)
    && r.dropped >= 0
  }

  function Added(r: Ring, e: Entry): Ring
    requires Sound(r)
  {
    var cap := |r.buf|;
    if r.count < cap then r.(buf := r.buf[(r.start + r.count) % cap := e], count := r.count + 1)
    else r.(buf := r.buf[r.start := e], start := (r.start + 1) % cap, dropped := r.dropped + 1)
  }

  function Cleared(r: Ring): Ring {
    r.(start := 0, count := 0, dropped := 0)
  }

  /** The retained entries, oldest first. */
  function Retained(r: Ring): (s: seq<Entry>)
    requires Sound(r)
    ensures |s| == r.count
  {
    seq(r.count, i requires 0 <= i < r.count => r.buf[(r.start + i) % |r.buf|])
  }

  class Sink {
    var buf: array<Entry>
    var cap: int
    var start: int
    var count: int
    var dropped: int

    function Contents(): Ring
      reads this, buf
    {
      Ring(buf[..], start, count, dropped)
    }

    ghost predicate Valid()
      reads this, buf
    {
      cap == buf.Length && Sound(Contents())
    }

    constructor (capacity: int, blank: Entry)
      ensures Valid() && fresh(buf)
      ensures cap == (if capacity < 1 then 1 else capacity)
      ensures count == dropped == 0 && Retained(Contents()) == []
    {
      var n := if capacity < 1 then 1 else capacity;
      buf := new Entry[n](_ => blank);
      cap := n;
      start, count, dropped := 0, 0, 0;
    }

    method Add(e: Entry)
      requires Valid()
      modifies this`start, this`count, this`dropped, buf
      ensures Valid() && Contents() == Added(old(Contents()), e)
    {
      if count < cap {
        buf[(start + count) % cap] := e;
        count := count + 1;
        return;
      }
      buf[start] := e;
      start := (start + 1) % cap;
      dropped := dropped + 1;
    }

    method Entries() returns (out: seq<Entry>)
      requires Valid()
      ensures out == Retained(Contents())
    {
      out := [];
      for i := 0 to count
        invariant |out| == i
        invariant forall j :: 0 <= j < i ==> out[j] == buf[(start + j) % cap]
      {
        out := out + [buf[(start + i) % cap]];
      }
    }

    method Len() returns (n: int)
      requires Valid()
      ensures n == |Retained(Contents())|
    {
      return count;
    }

    method Dropped() returns (n: int)
      ensures n == dropped
    {
      return dropped;
    }

    method Reset()
      requires Valid()
      modifies this`start, this`count, this`dropped
      ensures Valid() && Contents() == Cleared(old(Contents()))
    {
      start := 0;
      count := 0;
      dropped := 0;
    }
  }

  // ---- against a plain history --------------------------------------------------------

  datatype Op = Log(e: Entry) | Clear

  /** The sink after a sequence of operations. */
  function Replay(r: Ring, ops: seq<Op>): (r': Ring)
    requires Sound(r)
    ensures Sound(r') && |r'.buf| == |r.buf|
    decreases ops
  {
    if ops == [] then r
    else Replay(match ops[0] case Log(e) => Added(r, e) case Clear => Cleared(r), ops[1..])
  }

  /** The history a sink without a bound would hold. */
  function History(past: seq<Entry>, ops: seq<Op>): seq<Entry>
    decreases ops
  {
    if ops == [] then past
    else History(match ops[0] case Log(e) => past + [e] case Clear => [], ops[1..])
  }

  /** The sink shows the newest entries of a history and has counted the ones it let go. */
  ghost predicate Mirrors(r: Ring, past: seq<Entry>) {
    && Sound(r)
    && Retained(r) == Last(past, |r.buf|)
    && r.dropped == if |past| <= |r.buf| then 0 else |past| - |r.buf|
  }

  lemma {:induction false} AddFilling(r: Ring, e: Entry)
    requires Sound(r) && r.count < |r.buf|
    ensures Retained(Added(r, e)) == Retained(r) + [e]
  {
    var r' := Added(r, e);
    forall i | 0 <= i <= r.count
      ensures Retained(r')[i] == (Retained(r) + [e])[i]
    {
      WrapOnce(i, |r.buf|);
      WrapOnce(r.count, |r.buf|);
    }
  }

  lemma {:induction false} AddFull(r: Ring, e: Entry)
    requires Sound(r) && r.count == |r.buf|
    ensures Retained(Added(r, e)) == Retained(r)[1..] + [e]
  {
    var r', cap := Added(r, e), |r.buf|;
    WrapOnce(r.start + 1, cap);
    forall i | 0 <= i < cap
      ensures Retained(r')[i] == (Retained(r)[1..] + [e])[i]
    {
      WrapOnce(r'.start + i, cap);
      if i + 1 < cap {
        WrapOnce(r.start + i + 1, cap);
      }
    }
  }

  lemma {:induction false} AddMirrors(r: Ring, past: seq<Entry>, e: Entry)
    requires Mirrors(r, past)
    ensures Mirrors(Added(r, e), past + [e])
  {
    if r.count < |r.buf| {
      AddFilling(r, e);
      assert |past| <= |r.buf| - 1;
    } else {
      AddFull(r, e);
      LastOfLast(past, [e], |r.buf|);
      assert Last(past, |r.buf|) + [e] == [Last(past, |r.buf|)[0]] + (Last(past, |r.buf|)[1..] + [e]);
    }
  }

  /** After any adds and resets the sink holds the newest of what was logged since the last reset, and counts the rest. */
  lemma {:induction false} RingIsTailOfHistory(r: Ring, past: seq<Entry>, ops: seq<Op>)
    requires Mirrors(r, past)
    ensures Mirrors(Replay(r, ops), History(past, ops))
    decreases ops
  {
    if ops != [] {
      match ops[0]
      case Log(e) =>
        AddMirrors(r, past, e);
        RingIsTailOfHistory(Added(r, e), past + [e], ops[1..]);
      case Clear =>
        RingIsTailOfHistory(Cleared(r), [], ops[1..]);
    }
  }
}
