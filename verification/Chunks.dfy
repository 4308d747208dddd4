/**
 * The structural chunker over an abstract syntax tree. The parser is replaced by a tree of
 * nodes with kind, byte span, named children and one distinguished child (a definition's
 * body, or the definition under its decorators).
 */
module Chunks {
  import opened Basics
  import opened Lines

  datatype Kind =
    | FunctionDefinition
    | ClassDefinition
    | DecoratedDefinition
    | ExpressionStatement
    | StringLiteral
    | Assignment
    | OtherKind

  datatype Node = Node(kind: Kind, start: nat, end: nat, children: seq<Node>, field: Option<nat>)

  /** The body of a definition, or the definition under decorators. */
  function Field(n: Node): (f: Option<Node>)
    ensures f.Some? ==> f.value in n.children
  {
    if n.field.Some? && n.field.value < |n.children| then Some(n.children[n.field.value]) else None
  }

  predicate IsDefinition(n: Node) {
    n.kind.FunctionDefinition? || n.kind.ClassDefinition?
  }

  /** Siblings in order, disjoint, inside [lo, hi]. */
  predicate Ordered(sts: seq<Node>, lo: nat, hi: nat) {
    && (forall i :: 0 <= i < |sts| ==> lo <= sts[i].start <= sts[i].end <= hi)
    && (forall i, j :: 0 <= i < j < |sts| ==> sts[i].end <= sts[j].start)
  }

  /** Well-formed trees: nested ordered spans; a definition is not empty and starts before its body. */
  predicate WellFormed(n: Node) {
    && Ordered(n.children, n.start, n.end) && n.start <= n.end
    && (IsDefinition(n) || n.kind.DecoratedDefinition? ==> n.start < n.end)
    && (IsDefinition(n) && Field(n).Some? ==> n.start < Field(n).value.start)
    && forall i :: 0 <= i < |n.children| ==> WellFormed(n.children[i])
  }

  /** What the chunker is given: the text, the tokenizer, the budget; collapse joins fields. */
  datatype Context = Context(src: string, tok: Tokenizer, max: nat, collapse: string -> string)

  function Text(c: Context, s: nat, e: nat): string
    requires s <= e <= |c.src|
  {
    c.src[s..e]
  }

  predicate Fits(c: Context, s: nat, e: nat)
    requires s <= e <= |c.src|
  {
    c.tok(Text(c, s, e)) <= c.max
  }

  datatype ChunkKind = FunctionChunk | MethodChunk | ClassHeader

  datatype RawChunk = RawChunk(kind: ChunkKind, start: nat, end: nat, content: string)

  /**
   * A chunk together with the offset from which it answers for the source. The two differ
   * only for the first window of a line split, which begins at the start of the line.
   */
  datatype Piece = Piece(raw: RawChunk, core: nat)

  function Raw(ps: seq<Piece>): seq<RawChunk> {
    Map((p: Piece) => p.raw, ps)
  }

  function Verbatim(s: nat, e: nat, kind: ChunkKind): RawChunk {
    RawChunk(kind, s, e, "")
  }

  function Exactly(s: nat, e: nat, kind: ChunkKind): Piece {
    Piece(Verbatim(s, e, kind), s)
  }

  // ------------------------------------------------------------- line splits

  datatype Span = Span(start: nat, end: nat)

  function LineEnd(src: string, li: nat, e: nat): nat
    requires li < |LineStarts(src)|
  {
    if li + 1 < |LineStarts(src)| && LineStarts(src)[li + 1] < e then LineStarts(src)[li + 1] else e
  }

  /** The boundary the window has reached when line li is next. */
  function Reached(src: string, li: nat, endIdx: nat, e: nat): nat
    requires li <= endIdx + 1 && endIdx < |LineStarts(src)|
  {
    if li <= endIdx then LineStarts(src)[li] else e
  }

  /** The window loop: line li is about to be appended to the window that began at win. */
  function Windows(c: Context, win: nat, li: nat, endIdx: nat, e: nat): seq<Span>
    requires li <= endIdx + 1 && endIdx < |LineStarts(c.src)| && LineStarts(c.src)[endIdx] < e <= |c.src|
    requires win <= Reached(c.src, li, endIdx, e)
    decreases endIdx + 1 - li
  {
    StartsAscend(c.src);
    if li > endIdx then (if win < e then [Span(win, e)] else [])
    else
      var lineStart := LineStarts(c.src)[li];
      var lineEnd := LineEnd(c.src, li, e);
      if win < lineStart && !Fits(c, win, lineEnd)
      then [Span(win, lineStart)] + Windows(c, lineStart, li + 1, endIdx, e)
      else Windows(c, win, li + 1, endIdx, e)
  }

  lemma LastLine(src: string, s: nat, e: nat)
    requires s <= e <= |src| && 0 < e
    ensures var k, n, starts := LineOf(src, s), LineOf(src, e - 1), LineStarts(src);
      && k < |starts| && n < |starts| && starts[k] <= s && starts[n] < e
      && k <= n + 1 && (n < k ==> starts[k] == s == e)
      && (n + 1 < |starts| ==> e <= starts[n + 1])
  {
    LineStartBounds(src, s);
    LineStartBounds(src, e - 1);
    if s < e {
      LineOfMonotone(src, s, e - 1);
    } else {
      LineOfNext(src, e);
    }
  }

  /** An empty range on a line of its own start has no window; elsewhere it has the line so far. */
  function LineWindows(c: Context, s: nat, e: nat): seq<Span>
    requires s <= e <= |c.src| && 0 < e
  {
    LastLine(c.src, s, e);
    Windows(c, LineStarts(c.src)[LineOf(c.src, s)], LineOf(c.src, s), LineOf(c.src, e - 1), e)
  }

  function LineSplit(c: Context, s: nat, e: nat, kind: ChunkKind): (ps: seq<Piece>)
    requires s <= e <= |c.src| && 0 < e
    ensures |ps| == |LineWindows(c, s, e)|
  {
    Map((w: Span) => Piece(Verbatim(w.start, w.end, kind), if w.start < s then s else w.start), LineWindows(c, s, e))
  }

  /** At most one physical line: from a line start, not past the next one. */
  predicate SingleLine(src: string, a: nat, b: nat) {
    exists k :: 0 <= k < |LineStarts(src)| && LineStarts(src)[k] == a
      && (k + 1 < |LineStarts(src)| ==> b <= LineStarts(src)[k + 1])
  }

  predicate GoodWindow(c: Context, w: Span) {
    && w.start < w.end <= |c.src|
    && w.start in LineStarts(c.src)
    && (Fits(c, w.start, w.end) || SingleLine(c.src, w.start, w.end))
  }

  /** Consecutive, gap-free windows from a to e. */
  predicate Tiles(ws: seq<Span>, a: nat, e: nat) {
    && ws != [] && ws[0].start == a && ws[|ws| - 1].end == e
    && forall i :: 0 < i < |ws| ==> ws[i - 1].end == ws[i].start
  }

  lemma {:induction false} WindowsTile(c: Context, win: nat, li: nat, endIdx: nat, e: nat)
    requires li <= endIdx + 1 && endIdx < |LineStarts(c.src)| && e <= |c.src|
    requires LineStarts(c.src)[endIdx] < e
    requires endIdx + 1 < |LineStarts(c.src)| ==> e <= LineStarts(c.src)[endIdx + 1]
    requires win in LineStarts(c.src)
    requires || (win == Reached(c.src, li, endIdx, e) && li <= endIdx)
             || (win < Reached(c.src, li, endIdx, e) && GoodWindow(c, Span(win, Reached(c.src, li, endIdx, e))))
    ensures var ws := Windows(c, win, li, endIdx, e);
      && Tiles(ws, win, e)
      && forall i :: 0 <= i < |ws| ==> GoodWindow(c, ws[i])
    decreases endIdx + 1 - li
  {
    StartsAscend(c.src);
    if li <= endIdx {
      var lineStart, lineEnd := LineStarts(c.src)[li], LineEnd(c.src, li, e);
      LineIsGood(c, win, li, endIdx, e);
      hide GoodWindow, SingleLine, Tiles;
      if win < lineStart && !Fits(c, win, lineEnd) {
        WindowsTile(c, lineStart, li + 1, endIdx, e);
        assert Windows(c, win, li, endIdx, e) == [Span(win, lineStart)] + Windows(c, lineStart, li + 1, endIdx, e);
        hide Windows;
        TilesCons(c, Span(win, lineStart), Windows(c, lineStart, li + 1, endIdx, e), e);
      } else {
        WindowsTile(c, win, li + 1, endIdx, e);
      }
    }
  }

  /** One line is a good window, and so is a window extended by it while it fits. */
  lemma LineIsGood(c: Context, win: nat, li: nat, endIdx: nat, e: nat)
    requires li <= endIdx < |LineStarts(c.src)| && LineStarts(c.src)[endIdx] < e <= |c.src|
    requires endIdx + 1 < |LineStarts(c.src)| ==> e <= LineStarts(c.src)[endIdx + 1]
    requires win in LineStarts(c.src) && win <= LineStarts(c.src)[li]
    ensures var lineStart, lineEnd := LineStarts(c.src)[li], LineEnd(c.src, li, e);
      && lineStart < lineEnd == Reached(c.src, li + 1, endIdx, e) <= e
      && GoodWindow(c, Span(lineStart, lineEnd))
      && (win == lineStart || Fits(c, win, lineEnd) ==> GoodWindow(c, Span(win, lineEnd)))
  {
    StartsAscend(c.src);
    assert SingleLine(c.src, LineStarts(c.src)[li], LineEnd(c.src, li, e));
  }

  lemma TilesCons(c: Context, w: Span, ws: seq<Span>, e: nat)
    requires Tiles(ws, w.end, e) && GoodWindow(c, w)
    requires forall i :: 0 <= i < |ws| ==> GoodWindow(c, ws[i])
    ensures Tiles([w] + ws, w.start, e)
    ensures forall i :: 0 <= i < |ws| + 1 ==> GoodWindow(c, ([w] + ws)[i])
  {
  }

  /**
   * A line split of [s, e) tiles exactly [start of s's line, e): consecutive, gap-free,
   * every window starts on a line, and each fits the budget or is a single line.
   */
  lemma LineSplitTiles(c: Context, s: nat, e: nat)
    requires s < e <= |c.src|
    ensures LineOf(c.src, s) < |LineStarts(c.src)|
    ensures var ws := LineWindows(c, s, e);
      && Tiles(ws, LineStarts(c.src)[LineOf(c.src, s)], e)
      && (forall i :: 0 <= i < |ws| ==> GoodWindow(c, ws[i]))
      && s < ws[0].end
  {
    LineStartBounds(c.src, s);
    LineStartBounds(c.src, e - 1);
    LineOfMonotone(c.src, s, e - 1);
    var k, n := LineOf(c.src, s), LineOf(c.src, e - 1);
    WindowsTile(c, LineStarts(c.src)[k], k, n, e);
    FirstWindowHoldsLine(c, LineStarts(c.src)[k], k + 1, n, e, s);
  }

  /** The windows of an empty range: none at the start of a line, otherwise the line so far. */
  lemma EmptyRangeWindows(c: Context, s: nat)
    requires 0 < s <= |c.src|
    ensures LineWindows(c, s, s) == if LineBegin(c.src, s) == s then [] else [Span(LineBegin(c.src, s), s)]
  {
    LastLine(c.src, s, s);
    LineStartBounds(c.src, s - 1);
    LineOfNext(c.src, s);
    var k, n := LineOf(c.src, s), LineOf(c.src, s - 1);
    var a := LineStarts(c.src)[k];
    if k == n {
      assert Windows(c, a, k, n, s) == Windows(c, a, k + 1, n, s) == [Span(a, s)];
    } else {
      LineOfMonotone(c.src, s - 1, s);
      assert Windows(c, a, k, n, s) == [];
    }
  }

  /** Once the window has reached past s it is only ever emitted past s. */
  lemma {:induction false} FirstWindowHoldsLine(c: Context, win: nat, li: nat, endIdx: nat, e: nat, s: nat)
    requires 0 < li <= endIdx + 1 && endIdx < |LineStarts(c.src)| && win <= s < e <= |c.src|
    requires li < |LineStarts(c.src)| ==> s < LineStarts(c.src)[li]
    requires LineStarts(c.src)[endIdx] < e
    ensures var ws := Windows(c, win, li, endIdx, e);
      ws != [] && s < ws[0].end
    decreases endIdx + 1 - li
  {
    StartsAscend(c.src);
    if li <= endIdx {
      FirstWindowHoldsLine(c, win, li + 1, endIdx, e, s);
    }
  }

  // -------------------------------------------------------- functions and blocks

  function Flushed(open: Option<Span>, kind: ChunkKind): seq<Piece> {
    match open case None => [] case Some(w) => [Exactly(w.start, w.end, kind)]
  }

  /** The statement loop: statements i.. remain, open is the group being built. */
  function Block(c: Context, sts: seq<Node>, i: nat, open: Option<Span>, kind: ChunkKind): seq<Piece>
    requires i <= |sts| && Ordered(sts, 1, |c.src|)
    requires open.Some? ==> open.value.start <= open.value.end && (i < |sts| ==> open.value.end <= sts[i].start)
    decreases |sts| - i
  {
    if i == |sts| then Flushed(open, kind)
    else
      var s, e := sts[i].start, sts[i].end;
      if !Fits(c, s, e) then
        Flushed(open, kind) + LineSplit(c, s, e, kind) + Block(c, sts, i + 1, None, kind)
      else if open.None? then Block(c, sts, i + 1, Some(Span(s, e)), kind)
      else if Fits(c, open.value.start, e) then Block(c, sts, i + 1, Some(Span(open.value.start, e)), kind)
      else Flushed(open, kind) + Block(c, sts, i + 1, Some(Span(s, e)), kind)
  }

  predicate InSource(c: Context, n: Node) {
    WellFormed(n) && n.end <= |c.src|
  }

  predicate AllInSource(c: Context, sts: seq<Node>) {
    forall i :: 0 <= i < |sts| ==> InSource(c, sts[i])
  }

  lemma FieldInside(c: Context, n: Node)
    requires InSource(c, n) && Field(n).Some?
    ensures var f := Field(n).value;
      && InSource(c, f) && n.start <= f.start && f.end <= n.end
      && AllInSource(c, f.children) && Ordered(f.children, f.start, f.end)
      && (IsDefinition(n) ==> Ordered(f.children, 1, |c.src|))
  {
  }

  function SplitFunction(c: Context, outer: Node, def: Node, kind: ChunkKind): seq<Piece>
    requires InSource(c, outer) && InSource(c, def) && outer.start <= def.start && outer.start < outer.end
    requires IsDefinition(def)
  {
    match Field(def)
    case None => LineSplit(c, outer.start, outer.end, kind)
    case Some(body) =>
      FieldInside(c, def);
      [Exactly(outer.start, body.start, kind)] + Block(c, body.children, 0, None, kind)
  }

  function EmitFunction(c: Context, outer: Node, def: Node, kind: ChunkKind): seq<Piece>
    requires InSource(c, outer) && InSource(c, def) && outer.start <= def.start && outer.start < outer.end
    requires IsDefinition(def)
  {
    if Fits(c, outer.start, outer.end) then [Exactly(outer.start, outer.end, kind)]
    else SplitFunction(c, outer, def, kind)
  }

  // ------------------------------------------------------------- class headers

  function TrimRight(s: string, cutset: string): string {
    if s != "" && s[|s| - 1] in cutset then TrimRight(s[..|s| - 1], cutset) else s
  }

  const BLANKS := " \t\n"
  const BLANKS_AND_COLON := " \t\n:"

  function DeclEnd(c: Context, def: Node): (e: nat)
    requires InSource(c, def)
    ensures def.start <= e <= |c.src|
  {
    match Field(def) case None => def.end case Some(body) => body.start
  }

  function Signature(c: Context, outer: Node, def: Node): string
    requires InSource(c, outer) && InSource(c, def) && outer.start <= def.start
  {
    TrimRight(Text(c, outer.start, DeclEnd(c, def)), BLANKS_AND_COLON) + " ..."
  }

  /** The definition a statement stands for, decorators removed; None if it is not one. */
  function Resolve(st: Node): (d: Option<Node>)
    ensures d.Some? ==> IsDefinition(d.value) && (d.value == st || d.value in st.children)
  {
    if IsDefinition(st) then Some(st)
    else if st.kind.DecoratedDefinition? && Field(st).Some? && IsDefinition(Field(st).value) then Field(st)
    else None
  }

  lemma ResolveInside(c: Context, st: Node)
    requires InSource(c, st) && Resolve(st).Some?
    ensures var d := Resolve(st).value;
      && InSource(c, d) && st.start <= d.start && d.end <= st.end && st.start < st.end
      && (Field(d).Some? ==>
            InSource(c, Field(d).value) && st.start < Field(d).value.start && Field(d).value.end <= st.end)
  {
  }

  /** The header line a class-body statement contributes, if any. */
  function HeaderLine(c: Context, st: Node): string
    requires InSource(c, st)
  {
    if st.kind.ExpressionStatement? then
      if st.children == [] then ""
      else if st.children[0].kind.StringLiteral? then "\n    " + c.collapse(Text(c, st.start, st.end))
      else if st.children[0].kind.Assignment? then "\n    " + Text(c, st.start, st.end)
      else ""
    else if Resolve(st).Some? then
      ResolveInside(c, st);
      "\n    " + Signature(c, st, Resolve(st).value)
    else ""
  }

  function HeaderLines(c: Context, sts: seq<Node>): string
    requires AllInSource(c, sts)
  {
    if sts == [] then ""
    else HeaderLines(c, sts[..|sts| - 1]) + HeaderLine(c, sts[|sts| - 1])
  }

  function HeaderText(c: Context, outer: Node, def: Node): string
    requires InSource(c, outer) && InSource(c, def) && outer.start <= def.start
  {
    TrimRight(Text(c, outer.start, DeclEnd(c, def)), BLANKS)
    + match Field(def) case None => "" case Some(body) => FieldInside(c, def); HeaderLines(c, body.children)
  }

  /** Keep adding lines until the next one would overflow; the first is always kept. */
  function CapFrom(c: Context, lines: seq<string>, k: nat): string
    requires 1 <= k <= |lines|
    decreases |lines| - k
  {
    if k == |lines| || c.tok(JoinLines(lines[..k]) + "\n" + lines[k]) > c.max then JoinLines(lines[..k])
    else CapFrom(c, lines, k + 1)
  }

  function CapToBudget(c: Context, s: string): string {
    if c.tok(s) <= c.max then s else CapFrom(c, Split(s), 1)
  }

  /** The synthesized chunk of a class. */
  function HeaderPiece(c: Context, outer: Node, def: Node): Piece
    requires InSource(c, outer) && InSource(c, def) && outer.start <= def.start
  {
    Piece(RawChunk(ClassHeader, outer.start, outer.end, CapToBudget(c, HeaderText(c, outer, def))), outer.start)
  }

  // ------------------------------------------------------------------ the walk

  function FunctionKind(inClass: bool): ChunkKind {
    if inClass then MethodChunk else FunctionChunk
  }

  function Definition(c: Context, st: Node, inClass: bool): seq<Piece>
    requires InSource(c, st)
    decreases st, 1, 0
  {
    match Resolve(st)
    case None => []
    case Some(def) =>
      ResolveInside(c, st);
      if def.kind.FunctionDefinition? then EmitFunction(c, st, def, FunctionKind(inClass))
      else EmitClass(c, st, def)
  }

  function Scope(c: Context, sts: seq<Node>, inClass: bool): seq<Piece>
    requires AllInSource(c, sts)
    decreases sts, 2, |sts|
  {
    if sts == [] then []
    else Scope(c, sts[..|sts| - 1], inClass) + Definition(c, sts[|sts| - 1], inClass)
  }

  /** Methods first, in order, then the header of the whole class. */
  function EmitClass(c: Context, outer: Node, def: Node): seq<Piece>
    requires InSource(c, outer) && InSource(c, def) && outer.start <= def.start
    decreases def, 0, 0
  {
    (match Field(def) case None => [] case Some(body) => FieldInside(c, def); Scope(c, body.children, true))
    + [HeaderPiece(c, outer, def)]
  }
}
