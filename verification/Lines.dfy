/** Lines of a file: where they start, which one holds a byte, splitting and joining. */
module Lines {
  function Newlines(s: string): nat {
    if s == "" then 0
    else Newlines(s[..|s| - 1]) + if s[|s| - 1] == '\n' then 1 else 0
  }

  lemma {:induction false} NewlinesConcat(a: string, b: string)
    ensures Newlines(a + b) == Newlines(a) + Newlines(b)
  {
    if b == "" {
      assert a + b == a;
    } else {
      assert (a + b)[..|a + b| - 1] == a + b[..|b| - 1];
      NewlinesConcat(a, b[..|b| - 1]);
    }
  }

  /** The 0-based line of byte offset b: the newlines before it. */
  function LineOf(src: string, b: nat): nat
    requires b <= |src|
  {
    Newlines(src[..b])
  }

  /** The offset of each line's first byte. */
  function LineStarts(src: string): (starts: seq<nat>)
    ensures |starts| == Newlines(src) + 1
  {
    if src == "" then [0]
    else
      var n := |src| - 1;
      if src[n] == '\n' then LineStarts(src[..n]) + [n + 1] else LineStarts(src[..n])
  }

  /** Starts ascend from 0, and a line starts exactly at 0 or right after a newline. */
  lemma {:induction false} StartsAscend(src: string)
    ensures var starts := LineStarts(src);
      && starts[0] == 0
      && (forall i, j :: 0 <= i < j < |starts| ==> starts[i] < starts[j])
      && (forall i :: 0 <= i < |starts| ==> starts[i] <= |src|)
  {
    if src != "" {
      StartsAscend(src[..|src| - 1]);
    }
  }

  /** A prefix of the file has the starts of the whole that lie within it. */
  lemma {:induction false} StartsOfPrefix(src: string, b: nat)
    requires b <= |src|
    ensures LineOf(src, b) < |LineStarts(src)|
    ensures LineStarts(src[..b]) == LineStarts(src)[..LineOf(src, b) + 1]
    ensures forall i :: LineOf(src, b) < i < |LineStarts(src)| ==> b < LineStarts(src)[i]
  {
    var n := |src| - 1;
    if b == |src| {
      assert src[..b] == src;
    } else {
      StartsOfPrefix(src[..n], b);
      assert src[..n][..b] == src[..b];
    }
  }

  /** The line of b is the unique index whose start is at or before b and whose next is after. */
  lemma LineOfIsBetweenStarts(src: string, b: nat, i: nat)
    requires b <= |src| && i < |LineStarts(src)|
    requires LineStarts(src)[i] <= b
    requires i + 1 < |LineStarts(src)| ==> b < LineStarts(src)[i + 1]
    ensures i == LineOf(src, b)
  {
    StartsAscend(src);
    StartsOfPrefix(src, b);
    StartsAscend(src[..b]);
    var k := LineOf(src, b);
    assert LineStarts(src[..b])[k] == LineStarts(src)[k] <= b;
  }

  lemma LineStartBounds(src: string, b: nat)
    requires b <= |src|
    ensures var k, starts := LineOf(src, b), LineStarts(src);
      && k < |starts| && starts[k] <= b
      && (k + 1 < |starts| ==> b < starts[k + 1])
  {
    StartsOfPrefix(src, b);
    StartsAscend(src[..b]);
    assert LineStarts(src[..b])[LineOf(src, b)] == LineStarts(src)[LineOf(src, b)];
  }

  /** Where the line holding b begins, and where it ends (its newline not included). */
  function LineBegin(src: string, b: nat): nat
    requires b <= |src|
  {
    LineStartBounds(src, b);
    LineStarts(src)[LineOf(src, b)]
  }

  function LineFinish(src: string, b: nat): int
    requires b <= |src|
  {
    var k := LineOf(src, b);
    if k + 1 < |LineStarts(src)| then LineStarts(src)[k + 1] - 1 else |src|
  }

  lemma LineOfMonotone(src: string, a: nat, b: nat)
    requires a <= b <= |src|
    ensures LineOf(src, a) <= LineOf(src, b)
  {
    assert src[..b] == src[..a] + src[a..b];
    NewlinesConcat(src[..a], src[a..b]);
  }

  // ---------------------------------------------------------- split and join

  lemma LineOfNext(src: string, b: nat)
    requires 0 < b <= |src|
    ensures LineOf(src, b) <= LineOf(src, b - 1) + 1 && LineOf(src, b) < |LineStarts(src)|
    ensures LineOf(src, b - 1) < LineOf(src, b) ==> LineStarts(src)[LineOf(src, b)] == b
  {
    LineStartBounds(src, b);
    LineStartBounds(src, b - 1);
    LineOfMonotone(src, b - 1, b);
    StartsAscend(src);
    assert src[..b][..b - 1] == src[..b - 1];
  }

  /** The file cut at newlines: always at least one line, none containing a newline. */
  function Split(s: string): (lines: seq<string>)
    ensures |lines| == Newlines(s) + 1
  {
    if s == "" then [""]
    else
      var n := |s| - 1;
      var init := Split(s[..n]);
      if s[n] == '\n' then init + [""]
      else init[|init| - 1 := init[|init| - 1] + [s[n]]]
  }

  function JoinLines(lines: seq<string>): string
    requires lines != []
  {
    if |lines| == 1 then lines[0]
    else JoinLines(lines[..|lines| - 1]) + "\n" + lines[|lines| - 1]
  }

  lemma JoinSnoc(lines: seq<string>, line: string)
    requires lines != []
    ensures JoinLines(lines + [line]) == JoinLines(lines) + "\n" + line
  {
    assert (lines + [line])[..|lines|] == lines;
  }

  /** A byte more on the last line is a byte more at the end. */
  lemma JoinLonger(lines: seq<string>, ch: char)
    requires lines != []
    ensures var last := |lines| - 1;
      JoinLines(lines[last := lines[last] + [ch]]) == JoinLines(lines) + [ch]
  {
    var last := |lines| - 1;
    assert lines[last := lines[last] + [ch]][..last] == lines[..last];
    if last > 0 {
      assert JoinLines(lines[..last]) + "\n" + (lines[last] + [ch]) == JoinLines(lines) + [ch];
    }
  }

  lemma {:induction false} JoinSplit(s: string)
    ensures JoinLines(Split(s)) == s
    ensures forall i :: 0 <= i < |Split(s)| ==> '\n' !in Split(s)[i]
  {
    if s != "" {
      var n := |s| - 1;
      var init := Split(s[..n]);
      JoinSplit(s[..n]);
      if s[n] == '\n' {
        JoinSnoc(init, "");
        hide JoinLines;
      } else {
        JoinLonger(init, s[n]);
        hide JoinLines;
      }
      assert s == s[..n] + [s[n]];
    }
  }

  /** The text of line k, without its newline: the bytes from its start to the next line. */
  lemma {:induction false} SplitAtStarts(s: string, k: nat)
    requires k < |Split(s)|
    ensures var starts := LineStarts(s);
      && starts[k] + |Split(s)[k]| <= |s|
      && starts[k] + |Split(s)[k]| == (if k + 1 < |starts| then starts[k + 1] - 1 else |s|)
      && Split(s)[k] == s[starts[k]..starts[k] + |Split(s)[k]|]
  {
    StartsAscend(s);
    if s != "" {
      var n := |s| - 1;
      var starts, lines := LineStarts(s), Split(s);
      if k < |Split(s[..n])| {
        SplitAtStarts(s[..n], k);
      }
      if s[n] == '\n' && k == |lines| - 1 {
        assert s[n + 1..n + 1] == "";
      } else if s[n] == '\n' && k == |lines| - 2 {
      } else if s[n] != '\n' && k == |lines| - 1 {
        assert s[starts[k]..] == s[..n][starts[k]..] + [s[n]];
      }
    }
  }

  /** Lines i..j joined again are exactly the bytes from the start of i to the end of j. */
  lemma {:induction false} JoinRange(s: string, i: nat, j: nat)
    requires i <= j < |Split(s)|
    ensures LineStarts(s)[i] <= LineStarts(s)[j] + |Split(s)[j]| <= |s|
    ensures JoinLines(Split(s)[i..j + 1]) == s[LineStarts(s)[i]..LineStarts(s)[j] + |Split(s)[j]|]
    decreases j - i
  {
    var starts, lines := LineStarts(s), Split(s);
    StartsAscend(s);
    SplitAtStarts(s, j);
    if i == j {
      assert lines[i..j + 1] == [lines[i]];
    } else {
      JoinRange(s, i, j - 1);
      SplitAtStarts(s, j - 1);
      NewlineBeforeStart(s, j);
      hide Split, LineStarts, JoinLines;
      JoinNext(s, lines, i, j, starts[i], starts[j]);
    }
  }

  /** One more line joined is one more newline and its text. */
  lemma JoinNext(s: string, lines: seq<string>, i: nat, j: nat, a: nat, b: nat)
    requires i < j < |lines| && a < b <= b + |lines[j]| <= |s| && s[b - 1] == '\n'
    requires JoinLines(lines[i..j]) == s[a..b - 1] && lines[j] == s[b..b + |lines[j]|]
    ensures JoinLines(lines[i..j + 1]) == s[a..b + |lines[j]|]
  {
    hide JoinLines;
    assert lines[i..j + 1] == lines[i..j] + [lines[j]];
    JoinSnoc(lines[i..j], lines[j]);
    SliceAtNewline(s, a, b, b + |lines[j]|);
  }

  lemma SliceAtNewline(s: string, a: nat, b: nat, c: nat)
    requires a < b <= c <= |s| && s[b - 1] == '\n'
    ensures s[a..c] == s[a..b - 1] + "\n" + s[b..c]
  {
  }

  /** The lines holding bytes p to q, joined: from the start of p's line to the end of q's. */
  lemma LinesHolding(s: string, p: nat, q: nat)
    requires p <= q <= |s|
    ensures LineOf(s, p) <= LineOf(s, q) < |Split(s)|
    ensures LineBegin(s, p) <= LineFinish(s, q) <= |s|
    ensures JoinLines(Split(s)[LineOf(s, p)..LineOf(s, q) + 1]) == s[LineBegin(s, p)..LineFinish(s, q)]
  {
    LineOfMonotone(s, p, q);
    LineStartBounds(s, q);
    var i, j := LineOf(s, p), LineOf(s, q);
    JoinRange(s, i, j);
    SplitAtStarts(s, j);
  }

  lemma {:induction false} NewlineBeforeStart(s: string, k: nat)
    requires 0 < k < |LineStarts(s)|
    ensures 0 < LineStarts(s)[k] <= |s| && s[LineStarts(s)[k] - 1] == '\n'
  {
    var n := |s| - 1;
    if k < |LineStarts(s[..n])| {
      NewlineBeforeStart(s[..n], k);
    }
  }
}
