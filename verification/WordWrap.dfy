/** Greedy word wrapping of hint text: word sequence kept, widths respected, fewest lines. */
module WordWrap {
  import opened Sequences

  /** A line's words joined by single spaces. */
  function Join(words: seq<string>): string {
    if words == [] then ""
    else if |words| == 1 then words[0]
    else Join(words[..|words| - 1]) + " " + words[|words| - 1]
  }

  function JoinAll(lines: seq<seq<string>>): seq<string> {
    seq(|lines|, i requires 0 <= i < |lines| => Join(lines[i]))
  }

  /** The split the greedy loop makes, the line under construction being `cur`. */
  function Greedy(cur: seq<string>, rest: seq<string>, width: int): seq<seq<string>>
    decreases rest
  {
    if rest == [] then [cur]
    else if |Join(cur)| + 1 + |rest[0]| > width then [cur] + Greedy([rest[0]], rest[1..], width)
    else Greedy(cur + [rest[0]], rest[1..], width)
  }

  function Wrapped(words: seq<string>, width: int): seq<seq<string>> {
    if words == [] then [] else Greedy([words[0]], words[1..], width)
  }

  lemma {:induction false} GreedyStep(cur: seq<string>, words: seq<string>, i: nat, width: int, done: seq<seq<string>>)
    requires i < |words|
    ensures done + Greedy(cur, words[i..], width) ==
            if |Join(cur)| + 1 + |words[i]| > width then (done + [cur]) + Greedy([words[i]], words[i + 1..], width)
            else done + Greedy(cur + [words[i]], words[i + 1..], width)
  {
    assert words[i..][0] == words[i] && words[i..][1..] == words[i + 1..];
  }

  // ---- reading the text back -----------------------------------------------------

  /** The pieces of a text between its blanks. */
  function Pieces(text: string): seq<string>
    ensures |Pieces(text)| > 0
  {
    if text == "" then [""]
    else if text[0] == ' ' then [""] + Pieces(text[1..])
    else
      var rest := Pieces(text[1..]);
      [[text[0]] + rest[0]] + rest[1..]
  }

  predicate BlankFree(words: seq<string>) {
    forall w :: w in words ==> ' ' !in w
  }

  lemma {:induction false} PiecesOfWord(w: string)
    requires ' ' !in w
    ensures Pieces(w) == [w]
  {
    if w != "" {
      PiecesOfWord(w[1..]);
      assert w == [w[0]] + w[1..];
    }
  }

  /** A blank ends a piece. */
  lemma {:induction false} PiecesSnoc(text: string, w: string)
    requires ' ' !in w
    ensures Pieces(text + " " + w) == Pieces(text) + [w]
  {
    var all := text + " " + w;
    if text == "" {
      PiecesOfWord(w);
      assert all[1..] == w;
    } else {
      assert all[1..] == text[1..] + " " + w;
      PiecesSnoc(text[1..], w);
    }
  }

  /** Splitting a line at its blanks gives its words back, in order. */
  lemma {:induction false} PiecesOfLine(words: seq<string>)
    requires words != [] && BlankFree(words)
    ensures Pieces(Join(words)) == words
  {
    if |words| == 1 {
      PiecesOfWord(words[0]);
    } else {
      var init, w := words[..|words| - 1], words[|words| - 1];
      PiecesOfLine(init);
      PiecesSnoc(Join(init), w);
      assert words == init + [w];
    }
  }

  /** Word j of a line stands behind the widths of the words before it and a blank for each. */
  lemma {:induction false} WordStandsAt(words: seq<string>, j: nat)
    requires j < |words|
    ensures var at := JoinWidth(words[..j]);
            && at + |words[j]| <= |Join(words)| && Join(words)[at..at + |words[j]|] == words[j]
            && (j > 0 ==> at > 0 && Join(words)[at - 1] == ' ')
            && (j == |words| - 1 ==> at + |words[j]| == |Join(words)|)
  {
    var n := |words| - 1;
    var init := words[..n];
    if n > 0 {
      JoinLength(init);
      if j < n {
        WordStandsAt(init, j);
        assert init[..j] == words[..j];
        assert Join(words) == Join(init) + " " + words[n];
      }
    }
  }

  function AllPieces(lines: seq<string>): seq<string> {
    if lines == [] then [] else AllPieces(lines[..|lines| - 1]) + Pieces(lines[|lines| - 1])
  }

  lemma {:induction false} PiecesOfLines(split: seq<seq<string>>)
    requires forall i :: 0 <= i < |split| ==> split[i] != [] && BlankFree(split[i])
    ensures AllPieces(JoinAll(split)) == Flatten(split)
  {
    if split != [] {
      var n := |split| - 1;
      PiecesOfLines(split[..n]);
      PiecesOfLine(split[n]);
      FlattenSnoc(split, n);
      assert split[..n + 1] == split;
      assert JoinAll(split)[..n] == JoinAll(split[..n]);
    }
  }

  /** The lines returned, split at their blanks, give the words back; each fits or is a single word. */
  lemma {:induction false} TextKeepsWords(words: seq<string>, width: int)
    requires BlankFree(words)
    ensures var lines := JoinAll(Wrapped(words, width));
            && AllPieces(lines) == words
            && forall i :: 0 <= i < |lines| ==> |lines[i]| <= width || ' ' !in lines[i]
  {
    var split := Wrapped(words, width);
    WrapIsOptimal(words, width, split);
    forall i | 0 <= i < |split|
      ensures split[i] != [] && BlankFree(split[i])
    {
      forall w | w in split[i]
        ensures w in words
      {
        InFlatten(split, w);
      }
    }
    PiecesOfLines(split);
    forall i | 0 <= i < |split|
      ensures |Join(split[i])| <= width || ' ' !in Join(split[i])
    {
      assert GoodLine(split[i], width);
      assert |split[i]| == 1 ==> split[i][0] in split[i];
    }
  }

  method WrapText(words: seq<string>, width: int) returns (lines: seq<string>)
    ensures lines == JoinAll(Wrapped(words, width))
    ensures BlankFree(words) ==>
              AllPieces(lines) == words && forall i :: 0 <= i < |lines| ==> |lines[i]| <= width || ' ' !in lines[i]
  {
    if BlankFree(words) {
      TextKeepsWords(words, width);
    }
    if |words| == 0 {
      return [];
    }
    lines := [];
    var cur := words[0];
    ghost var curWords, done := [words[0]], [];
    for i := 1 to |words|
      invariant cur == Join(curWords) && curWords != []
      invariant |lines| == |done| && forall j :: 0 <= j < |done| ==> lines[j] == Join(done[j])
      invariant done + Greedy(curWords, words[i..], width) == Wrapped(words, width)
    {
      var w := words[i];
      GreedyStep(curWords, words, i, width, done);
      if |cur| + 1 + |w| > width {
        lines := lines + [cur];
        done := done + [curWords];
        cur := w;
        curWords := [w];
        continue;
      }
      assert (curWords + [w])[..|curWords|] == curWords;
      cur := cur + " " + w;
      curWords := curWords + [w];
    }
    lines := lines + [cur];
    done := done + [curWords];
    assert done == Wrapped(words, width);
  }

  // ---- what a split may be --------------------------------------------------------

  /** A non-empty line that is one word or within the width. */
  predicate GoodLine(line: seq<string>, width: int) {
    line != [] && (|line| == 1 || |Join(line)| <= width)
  }

  /** An order-preserving split of the words into good lines. */
  ghost predicate GoodSplit(lines: seq<seq<string>>, words: seq<string>, width: int) {
    Flatten(lines) == words && forall i :: 0 <= i < |lines| ==> GoodLine(lines[i], width)
  }

  lemma {:induction false} GreedyIsGood(cur: seq<string>, rest: seq<string>, width: int)
    requires GoodLine(cur, width)
    ensures GoodSplit(Greedy(cur, rest, width), cur + rest, width)
    decreases rest
  {
    if rest == [] {
      assert Flatten([cur]) == cur + rest;
    } else if |Join(cur)| + 1 + |rest[0]| > width {
      GreedyIsGood([rest[0]], rest[1..], width);
      var tail := Greedy([rest[0]], rest[1..], width);
      assert [rest[0]] + rest[1..] == rest;
      assert ([cur] + tail)[1..] == tail;
    } else {
      assert (cur + [rest[0]])[..|cur|] == cur;
      GreedyIsGood(cur + [rest[0]], rest[1..], width);
      assert cur + [rest[0]] + rest[1..] == cur + rest;
    }
  }

  function JoinWidth(words: seq<string>): nat {
    if words == [] then 0 else |words[0]| + 1 + JoinWidth(words[1..])
  }

  lemma {:induction false} JoinWidthConcat(a: seq<string>, b: seq<string>)
    ensures JoinWidth(a + b) == JoinWidth(a) + JoinWidth(b)
  {
    if a == [] {
      assert a + b == b;
    } else {
      assert (a + b)[1..] == a[1..] + b;
      JoinWidthConcat(a[1..], b);
    }
  }

  lemma {:induction false} JoinLength(words: seq<string>)
    requires words != []
    ensures |Join(words)| == JoinWidth(words) - 1
  {
    if |words| > 1 {
      var init, last := words[..|words| - 1], words[|words| - 1];
      JoinLength(init);
      JoinWidthConcat(init, [last]);
      assert words == init + [last];
    }
  }

  /**
    No good split of the same words, even with more words put in front of the
    current line, has fewer lines than the greedy rest.
  */
  lemma {:induction false} GreedyStaysAhead(front: seq<string>, cur: seq<string>, rest: seq<string>, width: int, lines: seq<seq<string>>)
    requires cur != [] && GoodSplit(lines, front + cur + rest, width)
    ensures |Greedy(cur, rest, width)| <= |lines|
    decreases |rest|
  {
    var words := front + cur + rest;
    assert lines != [];
    if rest != [] {
      var w, rest' := rest[0], rest[1..];
      assert rest == [w] + rest';
      if |Join(cur)| + 1 + |w| <= width {
        Assoc(front, cur, [w]);
        Assoc(front + cur, [w], rest');
        GreedyStaysAhead(front, cur + [w], rest', width, lines);
      } else {
        var first, others := lines[0], lines[1..];
        FirstLineEnds(front, cur, w, rest', width, lines);
        var left := (front + cur)[|first|..];
        assert words == (front + cur) + [w] + rest';
        RestAfter(first, Flatten(others), front + cur, [w] + rest');
        Assoc(left, [w], rest');
        GreedyStaysAhead(left, [w], rest', width, others);
      }
    }
  }

  lemma {:induction false} RestAfter(first: seq<string>, others: seq<string>, head: seq<string>, tail: seq<string>)
    requires first + others == head + tail && |first| <= |head|
    ensures others == head[|first|..] + tail
  {
    assert others == (first + others)[|first|..];
    assert (head + tail)[|first|..] == head[|first|..] + tail;
  }

  /** Where the greedy line breaks, any other split's line from no later a start breaks too. */
  lemma {:induction false} FirstLineEnds(front: seq<string>, cur: seq<string>, w: string, rest: seq<string>, width: int, lines: seq<seq<string>>)
    requires cur != [] && lines != [] && GoodSplit(lines, front + cur + [w] + rest, width)
    requires |Join(cur)| + 1 + |w| > width
    ensures |lines[0]| <= |front + cur|
  {
    var first, head := lines[0], front + cur + [w];
    var words := head + rest;
    assert words == first + Flatten(lines[1..]);
    if |first| > |front + cur| {
      var more := first[|head|..];
      assert first == head + more by {
        assert first == words[..|first|];
        assert head == words[..|head|];
      }
      JoinLength(first);
      JoinLength(cur);
      JoinWidthConcat(head, more);
      JoinWidthConcat(front + cur, [w]);
      JoinWidthConcat(front, cur);
    }
  }

  /** The wrapped text has the same words, only good lines, and no good split has fewer. */
  lemma {:induction false} WrapIsOptimal(words: seq<string>, width: int, lines: seq<seq<string>>)
    ensures GoodSplit(Wrapped(words, width), words, width)
    ensures GoodSplit(lines, words, width) ==> |Wrapped(words, width)| <= |lines|
  {
    if words != [] {
      assert Join([words[0]]) == words[0];
      GreedyIsGood([words[0]], words[1..], width);
      assert [words[0]] + words[1..] == words;
      if GoodSplit(lines, words, width) {
        assert [] + [words[0]] + words[1..] == words;
        GreedyStaysAhead([], [words[0]], words[1..], width, lines);
      }
    }
  }
}
