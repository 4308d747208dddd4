/** The chunker as it runs: an output buffer the walk appends to and a merge in place. */
module Chunker {
  import opened Basics
  import opened Lines
  import opened Chunks
  import opened ChunkTheorems
  import opened Merging

  datatype Chunk = Chunk(path: string, startLine: int, endLine: int, kind: ChunkKind, content: string)

  const MAX_UINT: nat := 0xFFFF_FFFF_FFFF_FFFF

  /** Unsigned predecessor: zero wraps around. */
  function Pred(b: nat): nat {
    if b == 0 then MAX_UINT else b - 1
  }

  /** Line of any offset; an offset past the end lies on the last line. */
  function LineAt(src: string, b: nat): nat {
    if b <= |src| then LineOf(src, b) else Newlines(src)
  }

  method ComputeLineStarts(src: string) returns (starts: seq<nat>)
    ensures starts == LineStarts(src)
  {
    starts := [0];
    for i := 0 to |src|
      invariant starts == LineStarts(src[..i])
    {
      assert src[..i + 1][..i] == src[..i];
      if src[i] == '\n' {
        starts := starts + [i + 1];
      }
    }
    assert src[..|src|] == src;
  }

  class FileChunker {
    const path: string
    const ctx: Context
    const lineStarts: seq<nat>
    var out: seq<RawChunk>

    constructor (path: string, ctx: Context, lineStarts: seq<nat>)
      ensures this.path == path && this.ctx == ctx && this.lineStarts == lineStarts && out == []
    {
      this.path, this.ctx, this.lineStarts, this.out := path, ctx, lineStarts, [];
    }

    predicate Valid() {
      lineStarts == LineStarts(ctx.src)
    }

    /** Binary search for the first start past b; its predecessor is b's line. */
    method LineIndex(b: nat) returns (idx: int)
      requires Valid()
      ensures idx == LineAt(ctx.src, b)
    {
      StartsAscend(ctx.src);
      var i, j := 0, |lineStarts|;
      while i < j
        invariant 0 <= i <= j <= |lineStarts|
        invariant forall k :: 0 <= k < i ==> lineStarts[k] <= b
        invariant forall k :: j <= k < |lineStarts| ==> b < lineStarts[k]
        invariant b > |ctx.src| ==> j == |lineStarts|
      {
        var h := (i + j) / 2;
        if lineStarts[h] <= b {
          i := h + 1;
        } else {
          j := h;
        }
      }
      idx := i - 1;
      assert idx >= 0;
      if b <= |ctx.src| {
        LineOfIsBetweenStarts(ctx.src, b, idx);
      }
    }

    method EmitBytes(s: nat, e: nat, kind: ChunkKind)
      modifies this`out
      ensures out == old(out) + [Verbatim(s, e, kind)]
    {
      out := out + [RawChunk(kind, s, e, "")];
    }

    method EmitLineSplit(s: nat, e: nat, kind: ChunkKind)
      requires Valid() && s <= e <= |ctx.src| && 0 < e
      modifies this`out
      ensures out == old(out) + Raw(LineSplit(ctx, s, e, kind))
    {
      LastLine(ctx.src, s, e);
      var startIdx := LineIndex(s);
      var endIdx := LineIndex(e - 1);
      var winStart: nat := lineStarts[startIdx];
      var li := startIdx;
      ghost var windows := LineWindows(ctx, s, e);
      ghost var done: seq<Span> := [];
      while li <= endIdx
        invariant li <= endIdx + 1
        invariant winStart <= Reached(ctx.src, li, endIdx, e)
        invariant out == old(out) + SpanChunks(done, kind)
        invariant windows == done + Windows(ctx, winStart, li, endIdx, e)
      {
        hide LineStarts, Fits, LineWindows, Windows, SpanChunks, Reached, LineOf;
        hide LineSplit, Raw, LineEnd, Newlines, LineAt;
        WindowsStep(ctx, windows, done, winStart, li, endIdx, e);
        var lineStart := lineStarts[li];
        var lineEnd := e;
        if li + 1 < |lineStarts| && lineStarts[li + 1] < e {
          lineEnd := lineStarts[li + 1];
        }
        if winStart < lineStart && !Fits(ctx, winStart, lineEnd) {
          ghost var flushed := Span(winStart, lineStart);
          SpanGrows(done, flushed, kind, old(out));
          EmitBytes(winStart, lineStart, kind);
          done := done + [flushed];
          winStart := lineStart;
        }
        li := li + 1;
      }
      if winStart < e {
        EmitBytes(winStart, e, kind);
        SpanGrows(done, Span(winStart, e), kind, old(out));
        done := done + [Span(winStart, e)];
      }
      assert windows == done;
      hide LineSplit, Raw, LineWindows, SpanChunks;
      SplitChunks(ctx, s, e, kind);
    }

    /** Groups statements greedily; an oversize statement is split by lines. */
    method SplitBlock(sts: seq<Node>, kind: ChunkKind)
      requires Valid() && Ordered(sts, 1, |ctx.src|)
      modifies this`out
      ensures out == old(out) + Raw(Block(ctx, sts, 0, None, kind))
    {
      var start: nat, end: nat, have := 0, 0, false;
      ghost var all := Block(ctx, sts, 0, None, kind);
      ghost var done: seq<Piece> := [];
      for i := 0 to |sts|
        invariant have ==> start <= end && (i < |sts| ==> end <= sts[i].start)
        invariant out == old(out) + Raw(done)
        invariant all == done + Block(ctx, sts, i, OpenSpan(have, start, end), kind)
      {
        var s, e := sts[i].start, sts[i].end;
        BlockStep(ctx, all, done, sts, i, OpenSpan(have, start, end), kind);
        assert i + 1 < |sts| ==> e <= sts[i + 1].start;
        hide Block, Raw, Fits, LineSplit, Ordered;
        if !Fits(ctx, s, e) {
          if have {
            EmitBytes(start, end, kind);
            have := false;
            OneGrows(done, start, end, kind, old(out));
            done := done + [Exactly(start, end, kind)];
          }
          EmitLineSplit(s, e, kind);
          RawConcat(done, LineSplit(ctx, s, e, kind), old(out));
          done := done + LineSplit(ctx, s, e, kind);
        } else if !have {
          start, end, have := s, e, true;
        } else if Fits(ctx, start, e) {
          end := e;
        } else {
          EmitBytes(start, end, kind);
          OneGrows(done, start, end, kind, old(out));
          done := done + [Exactly(start, end, kind)];
          start, end, have := s, e, true;
        }
      }
      if have {
        EmitBytes(start, end, kind);
        OneGrows(done, start, end, kind, old(out));
        done := done + [Exactly(start, end, kind)];
      }
      assert all == done;
    }

    method EmitFunc(outer: Node, def: Node, inClass: bool)
      requires Valid() && InSource(ctx, outer) && InSource(ctx, def)
      requires outer.start <= def.start && outer.start < outer.end && IsDefinition(def)
      modifies this`out
      ensures out == old(out) + Raw(EmitFunction(ctx, outer, def, FunctionKind(inClass)))
    {
      var kind := FunctionChunk;
      if inClass {
        kind := MethodChunk;
      }
      if Fits(ctx, outer.start, outer.end) {
        EmitBytes(outer.start, outer.end, kind);
        return;
      }
      SplitFunc(outer, def, kind);
    }

    method SplitFunc(outer: Node, def: Node, kind: ChunkKind)
      requires Valid() && InSource(ctx, outer) && InSource(ctx, def)
      requires outer.start <= def.start && outer.start < outer.end && IsDefinition(def)
      modifies this`out
      ensures out == old(out) + Raw(SplitFunction(ctx, outer, def, kind))
    {
      SplitFunctionChunks(ctx, outer, def, kind, out);
      hide SplitFunction, LineSplit, Block, Raw;
      match Field(def) {
        case None =>
          EmitLineSplit(outer.start, outer.end, kind);
        case Some(body) =>
          FieldInside(ctx, def);
          EmitBytes(outer.start, body.start, kind);
          SplitBlock(body.children, kind);
      }
    }

    /** Appends one chunk per method of the class, then the synthesized header. */
    method EmitClassChunks(outer: Node, def: Node)
      requires Valid() && InSource(ctx, outer) && InSource(ctx, def) && outer.start <= def.start
      modifies this`out
      ensures out == old(out) + Raw(EmitClass(ctx, outer, def))
      decreases def, 0
    {
      var body := Field(def);
      var header := TrimRight(Text(ctx, outer.start, DeclEnd(ctx, def)), BLANKS);
      ghost var members: seq<Piece> := [];
      if body.Some? {
        FieldInside(ctx, def);
        members := Scope(ctx, body.value.children, true);
        var lines := EmitMembers(body.value.children);
        header := header + lines;
      } else {
        assert header == header + "";
      }
      hide Scope, HeaderLines, CapToBudget, TrimRight;
      var content := CapHeader(header);
      ghost var last := Piece(RawChunk(ClassHeader, outer.start, outer.end, content), outer.start);
      assert Raw([last]) == [last.raw];
      RawConcat(members, [last], old(out));
      out := out + [RawChunk(ClassHeader, outer.start, outer.end, content)];
    }

    /** Walks a class body, emitting methods and collecting the header's lines. */
    method EmitMembers(sts: seq<Node>) returns (lines: string)
      requires Valid() && AllInSource(ctx, sts)
      modifies this`out
      ensures out == old(out) + Raw(Scope(ctx, sts, true)) && lines == HeaderLines(ctx, sts)
      decreases sts, 2
    {
      lines := "";
      for i := 0 to |sts|
        invariant out == old(out) + Raw(Scope(ctx, sts[..i], true))
        invariant lines == HeaderLines(ctx, sts[..i])
      {
        hide Definition, HeaderLine, Raw, Scope, HeaderLines, WellFormed;
        ScopeGrows(ctx, sts, i, true, old(out));
        HeaderGrows(ctx, sts, i);
        lines := lines + HeaderLine(ctx, sts[i]);
        EmitDefinition(sts[i], true);
      }
      assert sts[..|sts|] == sts;
    }

    /** The statement switch shared by module and class bodies. */
    method EmitDefinition(st: Node, inClass: bool)
      requires Valid() && InSource(ctx, st)
      modifies this`out
      ensures out == old(out) + Raw(Definition(ctx, st, inClass))
      decreases st, 1
    {
      if Resolve(st).Some? {
        ResolveInside(ctx, st);
      }
      match st.kind {
        case FunctionDefinition =>
          EmitFunc(st, st, inClass);
        case ClassDefinition =>
          EmitClassChunks(st, st);
        case DecoratedDefinition =>
          if Field(st).Some? {
            var def := Field(st).value;
            match def.kind {
              case FunctionDefinition => EmitFunc(st, def, inClass);
              case ClassDefinition => EmitClassChunks(st, def);
              case _ =>
            }
          }
        case _ =>
      }
    }

    method Walk(scope: Node, inClass: bool)
      requires Valid() && InSource(ctx, scope)
      modifies this`out
      ensures out == old(out) + Raw(Scope(ctx, scope.children, inClass))
    {
      var sts := scope.children;
      for i := 0 to |sts|
        invariant out == old(out) + Raw(Scope(ctx, sts[..i], inClass))
      {
        hide Definition, Scope, Raw, WellFormed;
        ScopeGrows(ctx, sts, i, inClass, old(out));
        EmitDefinition(sts[i], inClass);
      }
      assert sts[..|sts|] == sts;
    }

    method CapHeader(s: string) returns (r: string)
      ensures r == CapToBudget(ctx, s)
    {
      if ctx.tok(s) <= ctx.max {
        return s;
      }
      var lines := Split(s);
      r := lines[0];
      var k := 1;
      while k < |lines|
        invariant 1 <= k <= |lines| && r == JoinLines(lines[..k])
        invariant CapFrom(ctx, lines, k) == CapFrom(ctx, lines, 1)
      {
        if ctx.tok(r + "\n" + lines[k]) > ctx.max {
          break;
        }
        assert lines[..k + 1][..k] == lines[..k];
        r := r + "\n" + lines[k];
        k := k + 1;
      }
    }

    /** The merge works in the output's own buffer; the result is a prefix of it. */
    method MergeSameKind()
      modifies this`out
      ensures out == Merged(ctx, old(out))
    {
      if |out| < 2 {
        return;
      }
      var buffer := new RawChunk[|out|](i requires 0 <= i < |out| reads this => out[i]);
      assert buffer[..] == out;
      var n := MergeInPlace(ctx, buffer);
      out := buffer[..n];
    }

    /** Public chunks: verbatim text and 1-based inclusive lines. */
    method Project() returns (chunks: seq<Chunk>)
      requires Valid() && forall r :: r in out ==> r.content == "" ==> r.start <= r.end <= |ctx.src|
      ensures |chunks| == |out|
      ensures forall i :: 0 <= i < |out| ==> chunks[i] == Projected(path, ctx.src, out[i])
      ensures forall i :: 0 <= i < |out| ==> Shows(path, ctx.src, out[i], chunks[i])
    {
      chunks := [];
      for i := 0 to |out|
        invariant |chunks| == i
        invariant forall k :: 0 <= k < i ==> chunks[k] == Projected(path, ctx.src, out[k])
      {
        var r := out[i];
        assert r in out;
        var content := r.content;
        if content == "" {
          content := Text(ctx, r.start, r.end);
        }
        var first := LineIndex(r.start);
        var last := LineIndex(Pred(r.end));
        chunks := chunks + [Chunk(path, first + 1, last + 1, r.kind, content)];
      }
    }
  }

  /**
   * A public chunk carries its file and kind, its own text or its bytes of the source, and
   * the 1-based lines of its first and its last byte.
   */
  predicate Shows(path: string, src: string, r: RawChunk, chunk: Chunk) {
    && chunk.path == path && chunk.kind == r.kind
    && (r.content != "" ==> chunk.content == r.content)
    && (r.start < r.end <= |src| ==>
          && (r.content == "" ==> chunk.content == src[r.start..r.end])
          && chunk.startLine == Newlines(src[..r.start]) + 1
          && chunk.endLine == Newlines(src[..r.end - 1]) + 1)
  }

  function Projected(path: string, src: string, r: RawChunk): Chunk {
    var content := if r.content != "" then r.content
                   else if r.start <= r.end <= |src| then src[r.start..r.end] else "";
    Chunk(path, LineAt(src, r.start) + 1, LineAt(src, Pred(r.end)) + 1, r.kind, content)
  }

  lemma SplitFunctionChunks(c: Context, outer: Node, def: Node, kind: ChunkKind, out: seq<RawChunk>)
    requires InSource(c, outer) && InSource(c, def) && outer.start <= def.start && outer.start < outer.end
    requires IsDefinition(def)
    ensures Field(def).None? ==> SplitFunction(c, outer, def, kind) == LineSplit(c, outer.start, outer.end, kind)
    ensures Field(def).Some? ==>
      var body := Field(def).value;
      && Ordered(body.children, 1, |c.src|)
      && out + [Verbatim(outer.start, body.start, kind)] + Raw(Block(c, body.children, 0, None, kind))
         == out + Raw(SplitFunction(c, outer, def, kind))
  {
    if Field(def).Some? {
      FieldInside(c, def);
      var body := Field(def).value;
      var block := Block(c, body.children, 0, None, kind);
      assert SplitFunction(c, outer, def, kind) == [Exactly(outer.start, body.start, kind)] + block;
      hide Block, SplitFunction, Ordered, WellFormed;
      assert Raw([Exactly(outer.start, body.start, kind)]) == [Verbatim(outer.start, body.start, kind)];
      RawConcat([Exactly(outer.start, body.start, kind)], block, out);
    }
  }

  lemma SplitChunks(c: Context, s: nat, e: nat, kind: ChunkKind)
    requires s <= e <= |c.src| && 0 < e
    ensures Raw(LineSplit(c, s, e, kind)) == SpanChunks(LineWindows(c, s, e), kind)
  {
  }

  lemma SpanGrows(done: seq<Span>, w: Span, kind: ChunkKind, out: seq<RawChunk>)
    ensures out + SpanChunks(done, kind) + [Verbatim(w.start, w.end, kind)] == out + SpanChunks(done + [w], kind)
  {
    assert SpanChunks(done + [w], kind) == SpanChunks(done, kind) + [Verbatim(w.start, w.end, kind)];
  }

  lemma WindowsUnfold(c: Context, win: nat, li: nat, endIdx: nat, e: nat)
    requires li <= endIdx && endIdx < |LineStarts(c.src)| && LineStarts(c.src)[endIdx] < e <= |c.src|
    requires win <= Reached(c.src, li, endIdx, e)
    requires endIdx + 1 < |LineStarts(c.src)| ==> e <= LineStarts(c.src)[endIdx + 1]
    ensures var lineStart, lineEnd := LineStarts(c.src)[li], LineEnd(c.src, li, e);
      && win <= lineStart < lineEnd <= e && lineEnd == Reached(c.src, li + 1, endIdx, e)
      && lineStart <= Reached(c.src, li + 1, endIdx, e)
      && Windows(c, win, li, endIdx, e) ==
         if win < lineStart && !Fits(c, win, lineEnd)
         then [Span(win, lineStart)] + Windows(c, lineStart, li + 1, endIdx, e)
         else Windows(c, win, li + 1, endIdx, e)
  {
    StartsAscend(c.src);
  }

  /** One turn of the window loop, on the windows done so far. */
  lemma WindowsStep(c: Context, all: seq<Span>, done: seq<Span>, win: nat, li: nat, endIdx: nat, e: nat)
    requires li <= endIdx && endIdx < |LineStarts(c.src)| && LineStarts(c.src)[endIdx] < e <= |c.src|
    requires win <= Reached(c.src, li, endIdx, e)
    requires endIdx + 1 < |LineStarts(c.src)| ==> e <= LineStarts(c.src)[endIdx + 1]
    requires all == done + Windows(c, win, li, endIdx, e)
    ensures win <= LineStarts(c.src)[li] < LineEnd(c.src, li, e) <= e
    ensures LineStarts(c.src)[li] <= Reached(c.src, li + 1, endIdx, e)
    ensures var lineStart, lineEnd := LineStarts(c.src)[li], LineEnd(c.src, li, e);
      if win < lineStart && !Fits(c, win, lineEnd)
         then all == done + [Span(win, lineStart)] + Windows(c, lineStart, li + 1, endIdx, e)
         else all == done + Windows(c, win, li + 1, endIdx, e)
  {
    WindowsUnfold(c, win, li, endIdx, e);
  }

  /** One turn of the statement loop, on the pieces done so far. */
  lemma BlockStep(c: Context, all: seq<Piece>, done: seq<Piece>, sts: seq<Node>, i: nat, open: Option<Span>,
                  kind: ChunkKind)
    requires i < |sts| && Ordered(sts, 1, |c.src|)
    requires open.Some? ==> open.value.start <= open.value.end <= sts[i].start
    requires all == done + Block(c, sts, i, open, kind)
    ensures var s, e := sts[i].start, sts[i].end;
      var flushed := if open.Some? then done + [Exactly(open.value.start, open.value.end, kind)] else done;
      && s <= e <= |c.src|
      && if !Fits(c, s, e) then 0 < e && all == flushed + LineSplit(c, s, e, kind) + Block(c, sts, i + 1, None, kind)
         else if open.None? then all == done + Block(c, sts, i + 1, Some(Span(s, e)), kind)
         else if Fits(c, open.value.start, e)
         then all == done + Block(c, sts, i + 1, Some(Span(open.value.start, e)), kind)
         else all == flushed + Block(c, sts, i + 1, Some(Span(s, e)), kind)
  {
    BlockUnfolds(c, sts, i, open, kind);
    var s, e := sts[i].start, sts[i].end;
    hide Block, LineSplit;
    if !Fits(c, s, e) {
      var rest := Block(c, sts, i + 1, None, kind);
      Associate(done, LineSplit(c, s, e, kind), rest);
      if open.Some? {
        Associate(done, Flushed(open, kind), LineSplit(c, s, e, kind) + rest);
        Associate(done + Flushed(open, kind), LineSplit(c, s, e, kind), rest);
      }
    } else if open.Some? && !Fits(c, open.value.start, e) {
      Associate(done, Flushed(open, kind), Block(c, sts, i + 1, Some(Span(s, e)), kind));
    }
  }

  lemma OneGrows(done: seq<Piece>, s: nat, e: nat, kind: ChunkKind, out: seq<RawChunk>)
    ensures out + Raw(done) + [Verbatim(s, e, kind)] == out + Raw(done + [Exactly(s, e, kind)])
  {
    assert Raw([Exactly(s, e, kind)]) == [Verbatim(s, e, kind)];
    RawConcat(done, [Exactly(s, e, kind)], out);
  }

  lemma ScopeGrows(c: Context, sts: seq<Node>, i: nat, inClass: bool, out: seq<RawChunk>)
    requires i < |sts| && AllInSource(c, sts)
    ensures out + Raw(Scope(c, sts[..i], inClass)) + Raw(Definition(c, sts[i], inClass))
         == out + Raw(Scope(c, sts[..i + 1], inClass))
  {
    assert sts[..i + 1][..i] == sts[..i];
    RawConcat(Scope(c, sts[..i], inClass), Definition(c, sts[i], inClass), out);
    hide Definition, Scope;
  }

  lemma RawConcat(a: seq<Piece>, b: seq<Piece>, out: seq<RawChunk>)
    ensures out + Raw(a) + Raw(b) == out + Raw(a + b)
  {
    assert Raw(a + b) == Raw(a) + Raw(b);
  }

  lemma HeaderGrows(c: Context, sts: seq<Node>, i: nat)
    requires i < |sts| && AllInSource(c, sts)
    ensures HeaderLines(c, sts[..i + 1]) == HeaderLines(c, sts[..i]) + HeaderLine(c, sts[i])
  {
    assert sts[..i + 1][..i] == sts[..i];
  }

  function SpanChunks(ws: seq<Span>, kind: ChunkKind): seq<RawChunk> {
    Map((w: Span) => Verbatim(w.start, w.end, kind), ws)
  }

  function OpenSpan(have: bool, start: nat, end: nat): Option<Span> {
    if have then Some(Span(start, end)) else None
  }

  lemma MergedGrows(c: Context, chunks: seq<RawChunk>, r: nat)
    requires 1 <= r < |chunks|
    ensures Merged(c, chunks[..r]) != []
    ensures Merged(c, chunks[..r + 1]) == MergeStep(c, Merged(c, chunks[..r]), chunks[r])
  {
    assert chunks[..r + 1][..r] == chunks[..r];
  }

  lemma AheadOf(rest: seq<RawChunk>, was: seq<RawChunk>, r: nat)
    requires r < |was| && rest == was[r..]
    ensures rest[0] == was[r] && rest[1..] == was[r + 1..]
  {
  }

  /**
   * One buffer, a read position and a write position that never passes it: the prefix
   * written is the fold of the prefix read, and what lies ahead is untouched.
   */
  method MergeInPlace(c: Context, out: array<RawChunk>) returns (w: nat)
    requires out.Length >= 1
    modifies out
    ensures w <= out.Length && out[..w] == Merged(c, old(out[..]))
  {
    ghost var was := out[..];
    w := 1;
    assert was[..1] == [was[0]];
    for r := 1 to out.Length
      invariant 1 <= w <= r
      invariant out[..w] == Merged(c, was[..r])
      invariant out[r..] == was[r..]
    {
      var cur, prev := out[r], out[w - 1];
      ghost var acc, ahead := out[..w], out[r + 1..];
      AheadOf(out[r..], was, r);
      MergedGrows(c, was, r);
      hide Merged;
      if CanMerge(c, prev, cur) {
        out[w - 1] := prev.(end := cur.end);
        assert out[..w] == acc[w - 1 := prev.(end := cur.end)];
      } else {
        out[w] := cur;
        w := w + 1;
        assert out[..w] == acc + [cur];
      }
      assert out[r + 1..] == ahead;
    }
    assert was[..out.Length] == was;
  }

  lemma FileInRange(c: Context, root: Node, merge: bool)
    requires InSource(c, root)
    ensures forall r :: r in FileChunks(c, root, merge) ==> r.start <= r.end <= |c.src|
  {
    var chunks := FileChunks(c, root, merge);
    FileLosesNothing(c, root, merge);
    hide FileChunks, Units;
    forall r | r in chunks
      ensures r.start <= r.end <= |c.src|
    {
      var j :| 0 <= j < |chunks| && chunks[j] == r;
      assert Within(c, chunks[j], Units(root.children, false));
    }
  }

  /** What one file is chunked with: a budget that is not positive means the default one. */
  function ContextOf(src: string, tok: Tokenizer, collapse: string -> string, maxChunkTokens: int): Context {
    Context(src, tok, if maxChunkTokens <= 0 then DEFAULT_MAX_CHUNK_TOKENS else maxChunkTokens, collapse)
  }

  /** One file: parse, walk, optionally merge, project; only the parser can fail. */
  method File(path: string, src: string, parsed: Result<Node, string>, tok: Tokenizer, collapse: string -> string,
              maxChunkTokens: int, merge: bool) returns (r: Result<seq<Chunk>, string>)
    requires parsed.Ok? ==> InSource(ContextOf(src, tok, collapse, maxChunkTokens), parsed.value)
    ensures r.Err? <==> parsed.Err?
    ensures r.Err? ==> r.error == parsed.error
    ensures r.Ok? ==>
      var raw := FileChunks(ContextOf(src, tok, collapse, maxChunkTokens), parsed.value, merge);
      && |r.value| == |raw|
      && forall i :: 0 <= i < |raw| ==>
           r.value[i] == Projected(path, src, raw[i]) && Shows(path, src, raw[i], r.value[i])
  {
    var budget := maxChunkTokens;
    if budget <= 0 {
      budget := DEFAULT_MAX_CHUNK_TOKENS;
    }
    if parsed.Err? {
      return Err(parsed.error);
    }
    var c, root := Context(src, tok, budget, collapse), parsed.value;
    var lineStarts := ComputeLineStarts(src);
    var chunker := new FileChunker(path, c, lineStarts);
    chunker.Walk(root, false);
    assert chunker.out == Raw(FilePieces(c, root));
    if merge {
      chunker.MergeSameKind();
    }
    FileInRange(c, root, merge);
    hide FileChunks, InSource;
    var chunks := chunker.Project();
    return Ok(chunks);
  }

  const DEFAULT_MAX_CHUNK_TOKENS: nat := 800
}
