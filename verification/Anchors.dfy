/**
 * Skeletons and the way back: the placeholder left for an omitted body carries a line
 * anchor, and reading that anchor returns exactly the definition's lines.
 */
module Anchors {
  import opened Basics
  import opened Lines
  import opened Chunks
  import opened Chunker

  // ------------------------------------------------------------- skeletons

  /** A definition to be replaced by a stub: its span inside the chunk. */
  datatype Target = Target(start: nat, end: nat)

  predicate TargetsOrdered(ts: seq<Target>, from: nat, size: nat) {
    && from <= size
    && (forall i :: 0 <= i < |ts| ==> from <= ts[i].start <= ts[i].end <= size)
    && (forall i, j :: 0 <= i < j < |ts| ==> ts[i].end <= ts[j].start)
  }

  /** Gaps verbatim, targets rendered, from the cursor to the end. */
  function Rendered(src: string, ts: seq<Target>, cursor: nat, stub: Target -> string): string
    requires TargetsOrdered(ts, cursor, |src|)
  {
    if ts == [] then src[cursor..]
    else src[cursor..ts[0].start] + stub(ts[0]) + Rendered(src, ts[1..], ts[0].end, stub)
  }

  lemma RenderedUnfolds(src: string, ts: seq<Target>, i: nat, cursor: nat, stub: Target -> string, b: string)
    requires i < |ts| && TargetsOrdered(ts[i..], cursor, |src|)
    ensures cursor <= ts[i].start <= ts[i].end <= |src| && TargetsOrdered(ts[i + 1..], ts[i].end, |src|)
    ensures b + Rendered(src, ts[i..], cursor, stub)
         == b + src[cursor..ts[i].start] + stub(ts[i]) + Rendered(src, ts[i + 1..], ts[i].end, stub)
  {
    var t := ts[i];
    assert ts[i..][0] == t && ts[i..][1..] == ts[i + 1..];
    var rest := Rendered(src, ts[i + 1..], t.end, stub);
    assert b + (src[cursor..t.start] + stub(t) + rest) == b + src[cursor..t.start] + stub(t) + rest;
  }

  /** What re-parsing a chunk gives: a tree, and whether it contains an error. */
  datatype Parse = Parse(root: Node, hasError: bool)

  /** A top-level function, decorated or not, whose body has something to omit. */
  predicate HasBodyToOmit(n: Node) {
    && Resolve(n).Some? && Resolve(n).value.kind.FunctionDefinition?
    && Field(Resolve(n).value).Some? && Field(Resolve(n).value).value.children != []
  }

  function Targets(nodes: seq<Node>): seq<Target> {
    if nodes == [] then []
    else
      var last := nodes[|nodes| - 1];
      Targets(nodes[..|nodes| - 1]) + if HasBodyToOmit(last) then [Target(last.start, last.end)] else []
  }

  lemma OrderedSnoc(ts: seq<Target>, t: Target, from: nat, mid: nat, size: nat)
    requires TargetsOrdered(ts, from, mid) && mid <= t.start <= t.end <= size
    ensures TargetsOrdered(ts + [t], from, size) && TargetsOrdered(ts, from, size)
  {
  }

  /** The targets lie in order, disjoint and in range. */
  lemma {:induction false} TargetsAreOrdered(nodes: seq<Node>, lo: nat, hi: nat)
    requires Ordered(nodes, lo, hi) && lo <= hi
    ensures TargetsOrdered(Targets(nodes), lo, hi)
    decreases |nodes|
  {
    if nodes != [] {
      var n := |nodes| - 1;
      var last := Target(nodes[n].start, nodes[n].end);
      TargetsAreOrdered(nodes[..n], lo, last.start);
      hide HasBodyToOmit, TargetsOrdered;
      OrderedSnoc(Targets(nodes[..n]), last, lo, last.start, hi);
      assert Targets(nodes[..n]) + [] == Targets(nodes[..n]);
    }
  }

  predicate Omitted(nodes: seq<Node>, t: Target) {
    exists i :: 0 <= i < |nodes| && HasBodyToOmit(nodes[i]) && t == Target(nodes[i].start, nodes[i].end)
  }

  lemma OmittedSnoc(nodes: seq<Node>, n: Node, t: Target)
    ensures Omitted(nodes + [n], t) <==> Omitted(nodes, t) || (HasBodyToOmit(n) && t == Target(n.start, n.end))
  {
    hide HasBodyToOmit;
    var all := nodes + [n];
    if Omitted(nodes, t) {
      var i :| 0 <= i < |nodes| && HasBodyToOmit(nodes[i]) && t == Target(nodes[i].start, nodes[i].end);
      assert all[i] == nodes[i];
    }
    assert all[|nodes|] == n;
  }

  /** They are exactly the functions that have a body to omit. */
  lemma {:induction false} TargetsAreOmittable(nodes: seq<Node>, t: Target)
    ensures t in Targets(nodes) <==> Omitted(nodes, t)
    decreases |nodes|
  {
    if nodes != [] {
      var init, last := nodes[..|nodes| - 1], nodes[|nodes| - 1];
      hide HasBodyToOmit, Omitted;
      TargetsAreOmittable(init, t);
      OmittedSnoc(init, last, t);
      assert nodes == init + [last];
    }
  }

  predicate NothingToOmit(nodes: seq<Node>) {
    forall i :: 0 <= i < |nodes| ==> !HasBodyToOmit(nodes[i])
  }

  lemma TargetsAreExactly(nodes: seq<Node>, size: nat)
    requires Ordered(nodes, 0, size)
    ensures TargetsOrdered(Targets(nodes), 0, size)
    ensures forall t :: t in Targets(nodes) <==> Omitted(nodes, t)
    ensures Targets(nodes) == [] <==> NothingToOmit(nodes)
  {
    TargetsAreOrdered(nodes, 0, size);
    forall t
      ensures t in Targets(nodes) <==> Omitted(nodes, t)
    {
      TargetsAreOmittable(nodes, t);
    }
    hide HasBodyToOmit;
    forall i | 0 <= i < |nodes| && HasBodyToOmit(nodes[i])
      ensures Target(nodes[i].start, nodes[i].end) in Targets(nodes)
    {
      assert Omitted(nodes, Target(nodes[i].start, nodes[i].end));
    }
    if Targets(nodes) != [] {
      assert Omitted(nodes, Targets(nodes)[0]);
    }
  }

  /** A fragment with an error, or nothing to omit, stays as it is. */
  function SkeletonOf(content: string, kind: ChunkKind, parse: Parse, stub: Target -> string): string
    requires Ordered(parse.root.children, 0, |content|)
  {
    TargetsAreOrdered(parse.root.children, 0, |content|);
    if kind.ClassHeader? || parse.hasError || Targets(parse.root.children) == [] then content
    else Rendered(content, Targets(parse.root.children), 0, stub)
  }

  /** A class header or an unparsable fragment is passed through; only a parser failure is an error. */
  method Skeleton(content: string, kind: ChunkKind, parsed: Result<Parse, string>, stub: Target -> string)
    returns (r: Result<string, string>)
    requires parsed.Ok? ==> Ordered(parsed.value.root.children, 0, |content|)
    ensures r.Err? <==> !kind.ClassHeader? && parsed.Err?
    ensures r.Err? ==> r.error == parsed.error
    ensures r.Ok? ==> r.value == if kind.ClassHeader? then content else SkeletonOf(content, kind, parsed.value, stub)
    ensures kind.ClassHeader? ==> r == Ok(content)
    ensures parsed.Ok? && (parsed.value.hasError || NothingToOmit(parsed.value.root.children)) ==> r == Ok(content)
    ensures parsed.Ok? && !kind.ClassHeader? && !parsed.value.hasError && !NothingToOmit(parsed.value.root.children) ==>
      var ts := Targets(parsed.value.root.children);
      && r.Ok? && ts != [] && TargetsOrdered(ts, 0, |content|)
      && (forall t :: t in ts <==> Omitted(parsed.value.root.children, t))
      && r.value == Rendered(content, ts, 0, stub)
  {
    if parsed.Ok? {
      TargetsAreExactly(parsed.value.root.children, |content|);
      hide Targets, Omitted, NothingToOmit, Rendered;
    }
    if kind.ClassHeader? {
      return Ok(content);
    }
    if parsed.Err? {
      return Err(parsed.error);
    }
    var root := parsed.value.root;
    if parsed.value.hasError {
      return Ok(content);
    }
    var ts := FindTargets(root.children);
    if |ts| == 0 {
      return Ok(content);
    }
    TargetsAreOrdered(root.children, 0, |content|);
    var b := Render(content, ts, stub);
    return Ok(b);
  }

  method FindTargets(nodes: seq<Node>) returns (ts: seq<Target>)
    ensures ts == Targets(nodes)
  {
    ts := [];
    for i := 0 to |nodes|
      invariant ts == Targets(nodes[..i])
    {
      assert nodes[..i + 1][..i] == nodes[..i];
      var n := nodes[i];
      var def := n;
      if n.kind.DecoratedDefinition? {
        if Field(n).None? {
          continue;
        }
        def := Field(n).value;
      }
      if !def.kind.FunctionDefinition? {
        continue;
      }
      var body := Field(def);
      if body.None? || |body.value.children| == 0 {
        continue;
      }
      ts := ts + [Target(n.start, n.end)];
    }
    assert nodes[..|nodes|] == nodes;
  }

  method Render(src: string, ts: seq<Target>, stub: Target -> string) returns (b: string)
    requires TargetsOrdered(ts, 0, |src|)
    ensures b == Rendered(src, ts, 0, stub)
  {
    b := "";
    var cursor: nat := 0;
    for i := 0 to |ts|
      invariant TargetsOrdered(ts[i..], cursor, |src|)
      invariant Rendered(src, ts, 0, stub) == b + Rendered(src, ts[i..], cursor, stub)
    {
      var t := ts[i];
      RenderedUnfolds(src, ts, i, cursor, stub, b);
      hide Rendered, TargetsOrdered;
      b := b + src[cursor..t.start];
      b := b + stub(t);
      cursor := t.end;
    }
    b := b + src[cursor..];
  }

  /**
   * Nothing outside the targets is touched, repeated or lost: where a stub repeats its
   * definition the text is unchanged, so two skeletons differ only in their stubs.
   */
  lemma {:induction false} SkeletonTouchesTargetsOnly(src: string, ts: seq<Target>, cursor: nat, stub: Target -> string)
    requires TargetsOrdered(ts, cursor, |src|)
    requires forall t :: t in ts && t.start <= t.end <= |src| ==> stub(t) == src[t.start..t.end]
    ensures Rendered(src, ts, cursor, stub) == src[cursor..]
    decreases |ts|
  {
    if ts != [] {
      SkeletonTouchesTargetsOnly(src, ts[1..], ts[0].end, stub);
      assert ts[0] in ts;
      assert src[cursor..] == src[cursor..ts[0].start] + src[ts[0].start..ts[0].end] + src[ts[0].end..];
    }
  }

  // ---------------------------------------------------------------- anchors

  /** The first line a stub advertises: the chunk's first line plus the row of the start. */
  function AnchorStart(chunkLine: nat, content: string, t: Target): nat
    requires t.start <= t.end <= |content|
  {
    chunkLine + Newlines(content[..t.start])
  }

  /** The last line it advertises: the row of the end position, just past the last byte. */
  function AnchorEnd(chunkLine: nat, content: string, t: Target): nat
    requires t.start <= t.end <= |content|
  {
    chunkLine + Newlines(content[..t.end])
  }

  lemma NewlinesInSlice(src: string, a: nat, b: nat)
    requires a <= b <= |src|
    ensures Newlines(src[..b]) == Newlines(src[..a]) + Newlines(src[a..b])
  {
    assert src[..b] == src[..a] + src[a..b];
    NewlinesConcat(src[..a], src[a..b]);
  }

  /**
   * For a chunk cut from [cs, ce) of a file and a definition inside it, the advertised start
   * is the definition's true first line, and the advertised end is its true last line exactly
   * when its last byte is not a newline; otherwise it is one line too far.
   */
  lemma AnchorIsTrueRange(src: string, cs: nat, ce: nat, t: Target)
    requires cs <= ce <= |src| && t.start < t.end <= ce - cs
    ensures var content, line := src[cs..ce], LineOf(src, cs) + 1;
      && AnchorStart(line, content, t) == LineOf(src, cs + t.start) + 1
      && (AnchorEnd(line, content, t) == LineOf(src, cs + t.end - 1) + 1 <==> src[cs + t.end - 1] != '\n')
      && (src[cs + t.end - 1] == '\n' ==> AnchorEnd(line, content, t) == LineOf(src, cs + t.end - 1) + 2)
  {
    var content := src[cs..ce];
    NewlinesInSlice(src, cs, cs + t.start);
    NewlinesInSlice(src, cs, cs + t.end);
    assert content[..t.start] == src[cs..cs + t.start];
    assert content[..t.end] == src[cs..cs + t.end];
    assert src[..cs + t.end][..cs + t.end - 1] == src[..cs + t.end - 1];
  }

  // --------------------------------------------------------------- read_file

  datatype Window = Window(start: nat, end: nat, lines: seq<string>)

  function FirstPositiveOf(vals: seq<int>): int {
    if vals == [] then 0 else if vals[0] > 0 then vals[0] else FirstPositiveOf(vals[1..])
  }

  method FirstPositive(vals: seq<int>) returns (v: int)
    ensures v == FirstPositiveOf(vals)
    ensures v >= 0 && (v > 0 ==> v in vals) && (v == 0 ==> forall k :: 0 <= k < |vals| ==> vals[k] <= 0)
  {
    for i := 0 to |vals|
      invariant FirstPositiveOf(vals) == FirstPositiveOf(vals[i..])
      invariant forall k :: 0 <= k < i ==> vals[k] <= 0
    {
      assert vals[i..][0] == vals[i] && vals[i..][1..] == vals[i + 1..];
      if vals[i] > 0 {
        return vals[i];
      }
    }
    return 0;
  }

  /** A window is honest: inside the file, within the cap, and its lines are the file's. */
  predicate Honest(data: string, w: Window, maxLines: nat) {
    && 1 <= w.start <= w.end <= |Split(data)|
    && w.end - w.start < maxLines
    && w.lines == Split(data)[w.start - 1..w.end]
  }

  /** The latest end that exceeds neither what was asked for, nor the file, nor the cap. */
  predicate LargestEnd(w: Window, asked: int, total: nat, maxLines: nat) {
    var last := if asked <= 0 then w.start + maxLines - 1 else if asked < w.start then w.start else asked;
    && w.end <= last && w.end <= total && w.end <= w.start + maxLines - 1
    && (w.end == last || w.end == total || w.end == w.start + maxLines - 1)
  }

  /**
   * What reading a span of lines under a cap answers. It fails only for a start past the end
   * of the file; a range that exists and fits the cap is returned exactly; any other keeps
   * its start and ends as late as the request, the file and the cap allow.
   */
  predicate Answers(data: string, starts: seq<int>, ends: seq<int>, maxLines: nat, r: Result<Window, string>) {
    var s, e, n := FirstPositiveOf(starts), FirstPositiveOf(ends), |Split(data)|;
    && (r.Err? <==> s > n)
    && (r.Ok? ==>
          && Honest(data, r.value, maxLines)
          && r.value.start == (if s < 1 then 1 else s)
          && (1 <= s <= e <= n && e - s < maxLines ==> r.value.end == e)
          && LargestEnd(r.value, e, n, maxLines))
  }

  method ReadWindow(data: string, starts: seq<int>, ends: seq<int>, maxLines: nat) returns (r: Result<Window, string>)
    requires maxLines > 0
    ensures Answers(data, starts, ends, maxLines, r)
  {
    hide Split, FirstPositiveOf;
    var lines := Split(data);
    var start := FirstPositive(starts);
    if start < 1 {
      start := 1;
    }
    if start > |lines| {
      return Err("start is past EOF");
    }
    var end := FirstPositive(ends);
    if end <= 0 {
      end := start + maxLines - 1;
    }
    if end > |lines| {
      end := |lines|;
    }
    if end < start {
      end := start;
    }
    if end - start + 1 > maxLines {
      end := start + maxLines - 1;
    }
    var out := CopyLines(lines, start, end);
    return Ok(Window(start, end, out));
  }

  method CopyLines(lines: seq<string>, start: nat, end: nat) returns (out: seq<string>)
    requires 1 <= start <= end <= |lines|
    ensures out == lines[start - 1..end]
  {
    out := [];
    for i := start to end + 1
      invariant out == lines[start - 1..i - 1]
    {
      out := out + [lines[i - 1]];
    }
  }

  /**
   * The round trip: reading the advertised range of a definition that ends in a non-newline
   * byte returns exactly the lines it lies on, joined, no more and no less.
   */
  lemma AnchorRoundTrip(src: string, cs: nat, ce: nat, t: Target, w: Window, maxLines: nat)
    requires cs <= ce <= |src| && t.start < t.end <= ce - cs && src[cs + t.end - 1] != '\n'
    requires Honest(src, w, maxLines)
    requires w.start == AnchorStart(LineOf(src, cs) + 1, src[cs..ce], t)
    requires w.end == AnchorEnd(LineOf(src, cs) + 1, src[cs..ce], t)
    ensures var a, b := LineBegin(src, cs + t.start), LineFinish(src, cs + t.end - 1);
      && a <= cs + t.start && cs + t.end <= b <= |src|
      && JoinLines(w.lines) == src[a..b]
  {
    hide LineStarts, Split, AnchorStart, AnchorEnd, LineOf, LineFinish, JoinLines;
    var p, q := cs + t.start, cs + t.end - 1;
    assert w.start == LineOf(src, p) + 1 && w.end == LineOf(src, q) + 1 by {
      AnchorIsTrueRange(src, cs, ce, t);
    }
    assert LineBegin(src, p) <= p by {
      LineStartBounds(src, p);
    }
    hide LineBegin;
    ByteBeforeFinish(src, q);
    LinesHolding(src, p, q);
  }

  lemma ByteBeforeFinish(src: string, p: nat)
    requires p < |src| && src[p] != '\n'
    ensures p + 1 <= LineFinish(src, p) <= |src|
  {
    LineStartBounds(src, p);
    var k := LineOf(src, p);
    if k + 1 < |LineStarts(src)| {
      NewlineBeforeStart(src, k + 1);
    }
  }

  /** The advertised range is one read_file accepts: inside the file and in order. */
  lemma AnchorIsReadable(src: string, cs: nat, ce: nat, t: Target)
    requires cs <= ce <= |src| && t.start < t.end <= ce - cs && src[cs + t.end - 1] != '\n'
    ensures var content, line := src[cs..ce], LineOf(src, cs) + 1;
      var s, e := AnchorStart(line, content, t), AnchorEnd(line, content, t);
      1 <= s <= e <= |Split(src)|
  {
    AnchorIsTrueRange(src, cs, ce, t);
    LineOfMonotone(src, cs + t.start, cs + t.end - 1);
    LineOfMonotone(src, cs + t.end - 1, |src|);
    assert src[..|src|] == src;
  }

  /**
   * The whole way: a verbatim chunk as the chunker projects it, a definition inside it, the
   * range its skeleton advertises, and the window read_file answers that range with.
   */
  lemma ChunkRoundTrip(path: string, src: string, r: RawChunk, t: Target, w: Window, maxLines: nat)
    requires r.content == "" && r.start <= r.end <= |src|
    requires t.start < t.end <= r.end - r.start && src[r.start + t.end - 1] != '\n'
    requires Honest(src, w, maxLines)
    requires var chunk := Projected(path, src, r);
      && chunk.startLine >= 0 && t.end <= |chunk.content|
      && w.start == AnchorStart(chunk.startLine, chunk.content, t)
      && w.end == AnchorEnd(chunk.startLine, chunk.content, t)
    ensures var a, b := LineBegin(src, r.start + t.start), LineFinish(src, r.start + t.end - 1);
      && a <= r.start + t.start && r.start + t.end <= b <= |src|
      && JoinLines(w.lines) == src[a..b]
  {
    AnchorRoundTrip(src, r.start, r.end, t, w, maxLines);
  }

  /** A range that lies in the file and fits the cap is answered as asked. */
  lemma AnsweredExactly(data: string, s: nat, e: nat, maxLines: nat, answer: Result<Window, string>)
    requires 1 <= s <= e <= |Split(data)| && e - s < maxLines && Answers(data, [s], [e], maxLines, answer)
    ensures answer.Ok? && Honest(data, answer.value, maxLines) && answer.value.start == s && answer.value.end == e
  {
    hide Split, Honest, LargestEnd;
  }

  lemma ProjectedIsCut(path: string, src: string, r: RawChunk)
    requires r.content == "" && r.start <= r.end <= |src|
    ensures Projected(path, src, r).startLine == LineOf(src, r.start) + 1
    ensures Projected(path, src, r).content == src[r.start..r.end]
  {
    hide LineOf;
  }

  /**
   * And read_file, asked for exactly the advertised range, does answer with that window
   * whenever the range fits its cap.
   */
  lemma AnchorReadsBack(path: string, src: string, r: RawChunk, t: Target, maxLines: nat,
                        answer: Result<Window, string>)
    requires r.content == "" && r.start <= r.end <= |src|
    requires t.start < t.end <= r.end - r.start && src[r.start + t.end - 1] != '\n'
    requires var chunk := Projected(path, src, r);
      && chunk.startLine >= 0 && t.end <= |chunk.content|
      && var s, e := AnchorStart(chunk.startLine, chunk.content, t), AnchorEnd(chunk.startLine, chunk.content, t);
         e - s < maxLines && Answers(src, [s], [e], maxLines, answer)
    ensures var a, b := LineBegin(src, r.start + t.start), LineFinish(src, r.start + t.end - 1);
      && a <= r.start + t.start && r.start + t.end <= b <= |src|
      && answer.Ok? && JoinLines(answer.value.lines) == src[a..b]
  {
    hide Projected, AnchorStart, AnchorEnd, LineOf, LineBegin, LineFinish, Split, JoinLines, Answers, Honest;
    ProjectedIsCut(path, src, r);
    AnchorIsReadable(src, r.start, r.end, t);
    var line, content := LineOf(src, r.start) + 1, src[r.start..r.end];
    AnsweredExactly(src, AnchorStart(line, content, t), AnchorEnd(line, content, t), maxLines, answer);
    AnchorRoundTrip(src, r.start, r.end, t, answer.value, maxLines);
  }

  lemma OrderedTail(ts: seq<Target>, i: nat, cursor: nat, size: nat)
    requires TargetsOrdered(ts, cursor, size) && i < |ts|
    ensures cursor <= ts[i].start <= ts[i].end <= size
    ensures TargetsOrdered(ts[..i], cursor, ts[i].start) && TargetsOrdered(ts[i + 1..], ts[i].end, size)
  {
  }

  /**
   * Each target's stub stands exactly where its definition stood: what comes before is the
   * skeleton of the text before it, what comes after that of the text after it.
   */
  lemma {:induction false} StubStandsInPlace(src: string, ts: seq<Target>, i: nat, cursor: nat, stub: Target -> string)
    requires TargetsOrdered(ts, cursor, |src|) && i < |ts|
    ensures cursor <= ts[i].start <= ts[i].end <= |src|
    ensures TargetsOrdered(ts[..i], cursor, ts[i].start) && TargetsOrdered(ts[i + 1..], ts[i].end, |src|)
    ensures Rendered(src, ts, cursor, stub)
         == Rendered(src[..ts[i].start], ts[..i], cursor, stub) + stub(ts[i])
            + Rendered(src, ts[i + 1..], ts[i].end, stub)
    decreases i
  {
    OrderedTail(ts, i, cursor, |src|);
    var t := ts[i];
    var text, rest := src[..t.start], Rendered(src, ts[i + 1..], t.end, stub);
    if i == 0 {
      assert ts[..0] == [] && text[cursor..] == src[cursor..t.start];
      assert Rendered(src, ts, cursor, stub) == src[cursor..t.start] + stub(t) + rest;
    } else {
      var first, tail := ts[0], ts[1..];
      OrderedTail(ts, 0, cursor, |src|);
      OrderedTail(ts[..i], 0, cursor, t.start);
      assert tail[i - 1] == t && tail[..i - 1] == ts[..i][1..] && tail[i..] == ts[i + 1..];
      assert text[cursor..first.start] == src[cursor..first.start];
      RenderedHead(src, ts, cursor, stub);
      RenderedHead(text, ts[..i], cursor, stub);
      hide Rendered, TargetsOrdered;
      StubStandsInPlace(src, tail, i - 1, first.end, stub);
      var gap, middle := src[cursor..first.start] + stub(first), Rendered(text, tail[..i - 1], first.end, stub);
      Associate(gap, middle + stub(t), rest);
      Associate(gap, middle, stub(t));
    }
  }

  lemma RenderedHead(src: string, ts: seq<Target>, cursor: nat, stub: Target -> string)
    requires TargetsOrdered(ts, cursor, |src|) && ts != []
    ensures cursor <= ts[0].start <= ts[0].end <= |src| && TargetsOrdered(ts[1..], ts[0].end, |src|)
    ensures Rendered(src, ts, cursor, stub)
         == src[cursor..ts[0].start] + stub(ts[0]) + Rendered(src, ts[1..], ts[0].end, stub)
  {
  }
}
