/**
  Hard-wrapping a log line to a display width measured in terminal cells. Rune
  widths are a parameter; a string is as wide as its runes together.
*/
module LineWrap {
  import opened Sequences

  function Cells(rw: char -> nat, s: string): nat {
    if s == [] then 0 else rw(s[0]) + Cells(rw, s[1..])
  }

  ghost predicate RuneWidths(rw: char -> nat) {
    forall c :: rw(c) <= 2
  }

  lemma {:induction false} CellsConcat(rw: char -> nat, a: string, b: string)
    ensures Cells(rw, a + b) == Cells(rw, a) + Cells(rw, b)
  {
    if a == [] {
      assert a + b == b;
    } else {
      assert (a + b)[1..] == a[1..] + b;
      CellsConcat(rw, a[1..], b);
    }
  }

  /** Cells left for a continuation row beside the indent. */
  function ContinuationWidth(rw: char -> nat, width: int, indent: string): int {
    var w := width - Cells(rw, indent);
    if w < 10 then 10 else w
  }

  /** The segments still to come: `seg` is under construction, `limit` its width, `contW` that of later ones. */
  function Segments(rw: char -> nat, seg: string, rest: string, limit: int, contW: int): seq<string>
    decreases rest
  {
    var segW := Cells(rw, seg);
    if rest == [] then (if segW > 0 then [seg] else [])
    else if segW + rw(rest[0]) > limit && segW > 0 then
      [seg] + Segments(rw, [rest[0]], rest[1..], contW, contW)
    else Segments(rw, seg + [rest[0]], rest[1..], limit, contW)
  }

  function IndentedRow(segments: seq<string>, indent: string, i: nat): string
    requires i < |segments|
  {
    if i == 0 then segments[i] else indent + segments[i]
  }

  /** Every row after the first carries the indent. */
  function Indented(segments: seq<string>, indent: string): seq<string> {
    seq(|segments|, i requires 0 <= i < |segments| => IndentedRow(segments, indent, i))
  }

  function Rows(rw: char -> nat, line: string, width: int, indent: string): seq<string> {
    if Cells(rw, line) <= width then [line]
    else Indented(Segments(rw, "", line, width, ContinuationWidth(rw, width, indent)), indent)
  }

  method WrapLine(rw: char -> nat, line: string, width: int, indent: string) returns (out: seq<string>)
    ensures out == Rows(rw, line, width, indent)
  {
    if Cells(rw, line) <= width {
      return [line];
    }
    var contW := width - Cells(rw, indent);
    if contW < 10 {
      contW := 10;
    }
    out := [];
    ghost var done: seq<string> := [];
    ghost var all := Segments(rw, "", line, width, contW);
    var seg, segW, limit := "", 0, width;
    for i := 0 to |line|
      invariant segW == Cells(rw, seg)
      invariant out == Indented(done, indent)
      invariant all == done + Segments(rw, seg, line[i..], limit, contW)
    {
      var r := line[i];
      var w := rw(r);
      SegmentsStep(rw, seg, line, i, limit, contW, done);
      CellsSnoc(rw, seg, r);
      if segW + w > limit && segW > 0 {
        IndentedSnoc(done, seg, indent);
        out := out + [if |out| == 0 then seg else indent + seg];
        done := done + [seg];
        seg, segW, limit := [], 0, contW;
        CellsSnoc(rw, [], r);
      }
      seg := seg + [r];
      segW := segW + w;
    }
    if segW > 0 {
      IndentedSnoc(done, seg, indent);
      out := out + [if |out| == 0 then seg else indent + seg];
      done := done + [seg];
    }
    assert all == done;
  }

  lemma {:induction false} IndentedSnoc(done: seq<string>, seg: string, indent: string)
    ensures Indented(done + [seg], indent) == Indented(done, indent) + [if |done| == 0 then seg else indent + seg]
  {
  }

  lemma {:induction false} SegmentsStep(rw: char -> nat, seg: string, line: string, i: nat, limit: int, contW: int, done: seq<string>)
    requires i < |line|
    ensures done + Segments(rw, seg, line[i..], limit, contW) ==
            if Cells(rw, seg) + rw(line[i]) > limit && Cells(rw, seg) > 0
            then (done + [seg]) + Segments(rw, [] + [line[i]], line[i + 1..], contW, contW)
            else done + Segments(rw, seg + [line[i]], line[i + 1..], limit, contW)
  {
    assert line[i..][0] == line[i] && line[i..][1..] == line[i + 1..];
    assert [] + [line[i]] == [line[i]];
    if Cells(rw, seg) + rw(line[i]) > limit && Cells(rw, seg) > 0 {
      Assoc(done, [seg], Segments(rw, [line[i]], line[i + 1..], contW, contW));
    }
  }

  lemma {:induction false} CellsSnoc(rw: char -> nat, seg: string, r: char)
    ensures Cells(rw, seg + [r]) == Cells(rw, seg) + rw(r)
  {
    CellsConcat(rw, seg, [r]);
    assert [r][1..] == [];
  }

  // ---- nothing is lost -----------------------------------------------------------------

  function Concat(segments: seq<string>): string {
    if segments == [] then [] else segments[0] + Concat(segments[1..])
  }

  /** The text of the rows with the indent taken off the continuations. */
  function Unwrap(rows: seq<string>, indent: string): string {
    Concat(seq(|rows|, i requires 0 <= i < |rows| =>
      if i == 0 || |rows[i]| < |indent| then rows[i] else rows[i][|indent|..]))
  }

  lemma {:induction false} UnwrapIndented(segments: seq<string>, indent: string)
    ensures Unwrap(Indented(segments, indent), indent) == Concat(segments)
  {
    var rows := Indented(segments, indent);
    assert seq(|rows|, i requires 0 <= i < |rows| =>
      if i == 0 || |rows[i]| < |indent| then rows[i] else rows[i][|indent|..]) == segments;
  }

  /** Once a row can hold any rune, a break is caused by a rune that has a width, so no row ends up without one. */
  lemma {:induction false} SegmentsKeepText(rw: char -> nat, seg: string, rest: string, limit: int, contW: int)
    requires RuneWidths(rw) && limit >= 2 && contW >= 2
    requires Cells(rw, seg) <= limit && Cells(rw, seg + rest) > 0
    ensures Concat(Segments(rw, seg, rest, limit, contW)) == seg + rest
    decreases rest
  {
    if rest == [] {
      assert seg + rest == seg;
      assert Concat([seg]) == seg;
    } else {
      var r := rest[0];
      assert seg + rest == seg + [r] + rest[1..];
      CellsConcat(rw, seg, [r]);
      assert Cells(rw, [r]) == rw(r);
      if Cells(rw, seg) + rw(r) > limit && Cells(rw, seg) > 0 {
        var tail := Segments(rw, [r], rest[1..], contW, contW);
        CellsConcat(rw, [r], rest[1..]);
        SegmentsKeepText(rw, [r], rest[1..], contW, contW);
        assert ([seg] + tail)[1..] == tail;
        assert [r] + rest[1..] == rest;
      } else {
        SegmentsKeepText(rw, seg + [r], rest[1..], limit, contW);
      }
    }
  }

  /** The rows hold the whole line, for every line, exactly when the width is at least two cells. */
  lemma {:induction false} LosslessIffTwoCells(rw: char -> nat, width: int, indent: string, wide: char, zero: char)
    requires RuneWidths(rw) && rw(wide) == 2 && rw(zero) == 0
    ensures (forall line: string :: Unwrap(Rows(rw, line, width, indent), indent) == line) <==> width >= 2
  {
    if width >= 2 {
      forall line: string
        ensures Unwrap(Rows(rw, line, width, indent), indent) == line
      {
        WrapLineKeepsText(rw, line, width, indent);
      }
    } else {
      NarrowLosesText(rw, width, indent, wide, zero);
    }
  }

  lemma {:induction false} WrapLineKeepsText(rw: char -> nat, line: string, width: int, indent: string)
    requires RuneWidths(rw) && width >= 2
    ensures Unwrap(Rows(rw, line, width, indent), indent) == line
  {
    if Cells(rw, line) <= width {
      UnwrapIndented([line], indent);
      assert Indented([line], indent) == [line];
      assert Concat([line]) == line;
    } else {
      var contW := ContinuationWidth(rw, width, indent);
      assert "" + line == line;
      SegmentsKeepText(rw, "", line, width, contW);
      UnwrapIndented(Segments(rw, "", line, width, contW), indent);
    }
  }

  /** A wide rune overfills the row, the zero-width rune after it is flushed away with nothing. */
  lemma {:induction false} NarrowLosesText(rw: char -> nat, width: int, indent: string, wide: char, zero: char)
    requires rw(wide) == 2 && rw(zero) == 0 && width < 2
    ensures exists line: string :: Unwrap(Rows(rw, line, width, indent), indent) != line
  {
    var line := [wide, zero];
    var contW := ContinuationWidth(rw, width, indent);
    assert line[1..] == [zero];
    CellsConcat(rw, [wide], [zero]);
    assert line == [wide] + [zero];
    assert Cells(rw, [zero]) == 0 + Cells(rw, []);
    assert Cells(rw, [wide]) == 2 + Cells(rw, []);
    assert Cells(rw, line) == 2;
    assert [] + [wide] == [wide];
    assert Segments(rw, [zero], [], contW, contW) == [];
    assert Segments(rw, [wide], [zero], width, contW) == [[wide]];
    assert Segments(rw, "", line, width, contW) == [[wide]];
    UnwrapIndented([[wide]], indent);
    assert Concat([[wide]]) == [wide];
    assert Unwrap(Rows(rw, line, width, indent), indent) != line;
  }

  // ---- rows fit, and breaks are forced ----------------------------------------------------

  /** Segments are not empty, fit, and each break has a next rune that would not have fit. */
  ghost predicate Tight(rw: char -> nat, segments: seq<string>, limit: int, contW: int) {
    && (forall i :: 0 <= i < |segments| ==> segments[i] != [])
    && (forall i :: 0 <= i < |segments| ==> Cells(rw, segments[i]) <= if i == 0 then limit else contW)
    && (forall i :: 0 <= i < |segments| - 1 ==>
          Cells(rw, segments[i]) + rw(segments[i + 1][0]) > if i == 0 then limit else contW)
  }

  lemma {:induction false} SegmentsAreTight(rw: char -> nat, seg: string, rest: string, limit: int, contW: int)
    requires RuneWidths(rw) && limit >= 2 && contW >= 2
    requires Cells(rw, seg) <= limit
    ensures Tight(rw, Segments(rw, seg, rest, limit, contW), limit, contW)
    ensures var s := Segments(rw, seg, rest, limit, contW);
            s != [] ==> seg <= s[0] && (seg == [] && rest != [] ==> s[0][0] == rest[0])
    decreases rest
  {
    if rest != [] {
      var r := rest[0];
      CellsConcat(rw, seg, [r]);
      assert Cells(rw, [r]) == rw(r);
      if Cells(rw, seg) + rw(r) > limit && Cells(rw, seg) > 0 {
        var tail := Segments(rw, [r], rest[1..], contW, contW);
        SegmentsAreTight(rw, [r], rest[1..], contW, contW);
        var all := [seg] + tail;
        forall i | 0 <= i < |all| - 1
          ensures Cells(rw, all[i]) + rw(all[i + 1][0]) > if i == 0 then limit else contW
        {
          assert all[i + 1] == tail[i];
          if i > 0 {
            assert all[i] == tail[i - 1];
          }
        }
      } else {
        SegmentsAreTight(rw, seg + [r], rest[1..], limit, contW);
      }
    }
  }

  /** The rows carry these segments, each as long as it can be. */
  ghost predicate Carry(rows: seq<string>, indent: string, rw: char -> nat, segments: seq<string>, limit: int, contW: int) {
    rows == Indented(segments, indent) && Tight(rw, segments, limit, contW)
  }

  /** A line that does not fit is broken as late as possible, continuation rows having at least ten cells beside the indent. */
  lemma {:induction false} RowsAreTight(rw: char -> nat, line: string, width: int, indent: string)
    requires RuneWidths(rw) && width >= 2
    ensures Cells(rw, line) <= width ==> Rows(rw, line, width, indent) == [line]
    ensures Cells(rw, line) > width ==>
              var room := width - Cells(rw, indent);
              var contW := if room < 10 then 10 else room;
              exists segments :: Carry(Rows(rw, line, width, indent), indent, rw, segments, width, contW)
  {
    if Cells(rw, line) > width {
      var contW := ContinuationWidth(rw, width, indent);
      SegmentsAreTight(rw, "", line, width, contW);
      assert Carry(Rows(rw, line, width, indent), indent, rw, Segments(rw, "", line, width, contW), width, contW);
    }
  }

  /** In the widths the viewer uses, every row fits the screen and no row could have taken its next rune. */
  lemma {:induction false} RowsFit(rw: char -> nat, line: string, width: int, indent: string)
    requires RuneWidths(rw) && width >= Cells(rw, indent) + 10
    ensures var rows := Rows(rw, line, width, indent);
            && (forall i :: 0 <= i < |rows| ==> Cells(rw, rows[i]) <= width)
            && (forall i :: 0 <= i < |rows| ==> i > 0 ==> indent < rows[i])
            && (forall i :: 0 <= i < |rows| - 1 ==> Cells(rw, rows[i]) + rw(rows[i + 1][|indent|]) > width)
  {
    if Cells(rw, line) > width {
      var contW := ContinuationWidth(rw, width, indent);
      var segments := Segments(rw, "", line, width, contW);
      SegmentsAreTight(rw, "", line, width, contW);
      var rows := Rows(rw, line, width, indent);
      forall i | 0 < i < |rows|
        ensures Cells(rw, rows[i]) == Cells(rw, indent) + Cells(rw, segments[i])
        ensures indent < rows[i] && rows[i][|indent|] == segments[i][0]
      {
        CellsConcat(rw, indent, segments[i]);
      }
    }
  }
}
