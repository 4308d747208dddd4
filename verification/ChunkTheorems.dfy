/**
 * The chunker loses nothing and respects its budget, with or without merging, for any
 * well-formed tree and any tokenizer.
 */
module ChunkTheorems {
  import opened Basics
  import opened Lines
  import opened Chunks

  // ------------------------------------------------------------- what is owed

  /** A function or method the chunker must represent: its span, its definition, its kind. */
  datatype Unit = Unit(outer: Node, def: Node, kind: ChunkKind)

  function UnitsOf(st: Node, inClass: bool): seq<Unit>
    decreases st, 0, 0
  {
    match Resolve(st)
    case None => []
    case Some(def) =>
      if def.kind.FunctionDefinition? then [Unit(st, def, FunctionKind(inClass))]
      else if Field(def).Some? then Units(Field(def).value.children, true)
      else []
  }

  /** Every function reachable through module and class bodies, decorators included. */
  function Units(sts: seq<Node>, inClass: bool): seq<Unit>
    decreases sts, 1, |sts|
  {
    if sts == [] then [] else Units(sts[..|sts| - 1], inClass) + UnitsOf(sts[|sts| - 1], inClass)
  }

  /** Byte p belongs to the unit's signature (decorators included) or to one of its body statements. */
  predicate Owed(u: Unit, p: nat) {
    match Field(u.def)
    case None => u.outer.start <= p < u.outer.end
    case Some(body) =>
      || u.outer.start <= p < body.start
      || exists i :: 0 <= i < |body.children| && body.children[i].start <= p < body.children[i].end
  }

  predicate Answers(q: Piece, kind: ChunkKind, p: nat) {
    q.raw.kind == kind && q.raw.content == "" && q.core <= p < q.raw.end
  }

  predicate Covers(ps: seq<Piece>, kind: ChunkKind, p: nat) {
    exists i :: 0 <= i < |ps| && Answers(ps[i], kind, p)
  }

  ghost predicate Pays(ps: seq<Piece>, us: seq<Unit>) {
    forall u, p: nat :: u in us && Owed(u, p) ==> Covers(ps, u.kind, p)
  }

  // ------------------------------------------------------------------- order

  predicate InBand(q: Piece, lo: nat, hi: nat) {
    q.raw.kind.ClassHeader? || (lo <= q.core <= q.raw.end <= hi && q.raw.start <= q.core && q.raw.content == "")
  }

  /** What a answers for ends before what b answers for begins. */
  predicate Apart(a: Piece, b: Piece) {
    a.raw.kind.ClassHeader? || b.raw.kind.ClassHeader? || a.raw.end <= b.core
  }

  /** Function and method pieces answer for parts of [lo, hi], in source order and disjoint. */
  predicate Banded(ps: seq<Piece>, lo: nat, hi: nat) {
    && (forall i :: 0 <= i < |ps| ==> InBand(ps[i], lo, hi))
    && (forall i, j :: 0 <= i < j < |ps| ==> Apart(ps[i], ps[j]))
  }

  lemma BandedConcat(a: seq<Piece>, b: seq<Piece>, lo: nat, mid: nat, hi: nat)
    requires Banded(a, lo, mid) && Banded(b, mid, hi) && lo <= mid <= hi
    ensures Banded(a + b, lo, hi)
  {
    var all := a + b;
    forall i, j | 0 <= i < j < |all|
      ensures Apart(all[i], all[j])
    {
      if j < |a| {
        assert Apart(a[i], a[j]);
      } else if i < |a| {
        assert InBand(a[i], lo, mid) && InBand(b[j - |a|], mid, hi);
      } else {
        assert Apart(b[i - |a|], b[j - |a|]);
      }
    }
    forall i | 0 <= i < |all|
      ensures InBand(all[i], lo, hi)
    {
      if i < |a| {
        assert InBand(a[i], lo, mid);
      } else {
        assert InBand(b[i - |a|], mid, hi);
      }
    }
  }

  lemma BandedWiden(ps: seq<Piece>, lo: nat, hi: nat, lo': nat, hi': nat)
    requires Banded(ps, lo, hi) && lo' <= lo && hi <= hi'
    ensures Banded(ps, lo', hi')
  {
    forall i | 0 <= i < |ps|
      ensures InBand(ps[i], lo', hi')
    {
      assert InBand(ps[i], lo, hi);
    }
  }

  lemma CoversConcat(a: seq<Piece>, b: seq<Piece>, kind: ChunkKind, p: nat)
    ensures Covers(a, kind, p) || Covers(b, kind, p) ==> Covers(a + b, kind, p)
  {
    if i :| 0 <= i < |a| && Answers(a[i], kind, p) {
      assert Answers((a + b)[i], kind, p);
    }
    if i :| 0 <= i < |b| && Answers(b[i], kind, p) {
      assert Answers((a + b)[|a| + i], kind, p);
    }
  }

  // ------------------------------------------------------------------ budget

  /** The signature of a function that had to be split. */
  predicate SplitSignature(c: Context, u: Unit, r: RawChunk) {
    && u.outer.start <= u.outer.end <= |c.src| && !Fits(c, u.outer.start, u.outer.end)
    && Field(u.def).Some? && r.start == u.outer.start && r.end == Field(u.def).value.start && r.kind == u.kind
  }

  predicate InRange(c: Context, r: RawChunk) {
    r.start <= r.end <= |c.src|
  }

  predicate Affordable(c: Context, r: RawChunk) {
    InRange(c, r) && r.content == "" && !r.kind.ClassHeader?
    && (Fits(c, r.start, r.end) || SingleLine(c.src, r.start, r.end))
  }

  /** A piece answers for its whole range, or for all of it but the start of a line. */
  predicate Rooted(c: Context, q: Piece) {
    q.raw.start == q.core || (q.core <= |c.src| && q.raw.start == LineBegin(c.src, q.core))
  }

  /** Within budget, or one of the three exceptions. */
  ghost predicate Within(c: Context, r: RawChunk, us: seq<Unit>) {
    && InRange(c, r)
    && if r.kind.ClassHeader? then c.tok(r.content) <= c.max || '\n' !in r.content
       else Affordable(c, r) || (r.content == "" && exists u :: u in us && SplitSignature(c, u, r))
  }

  ghost predicate AllWithin(c: Context, ps: seq<Piece>, us: seq<Unit>) {
    forall i :: 0 <= i < |ps| ==> Within(c, ps[i].raw, us) && Rooted(c, ps[i])
  }

  // ------------------------------------------------------- line splits as pieces

  predicate AllAffordable(c: Context, ps: seq<Piece>) {
    forall i :: 0 <= i < |ps| ==> Affordable(c, ps[i].raw) && Rooted(c, ps[i])
  }

  lemma {:induction false} TilesReach(ws: seq<Span>, a: nat, e: nat, p: nat) returns (i: nat)
    requires Tiles(ws, a, e) && a <= p < e
    requires forall k :: 0 <= k < |ws| ==> ws[k].start < ws[k].end
    ensures i < |ws| && ws[i].start <= p < ws[i].end
    decreases |ws|
  {
    i := |ws| - 1;
    if p < ws[i].start {
      assert i > 0 && ws[i - 1].end == ws[i].start;
      i := TilesReach(ws[..i], a, ws[i].start, p);
    }
  }

  lemma {:induction false} TilesAscend(ws: seq<Span>, a: nat, e: nat, i: nat, j: nat)
    requires Tiles(ws, a, e) && i < j < |ws|
    requires forall k :: 0 <= k < |ws| ==> ws[k].start < ws[k].end
    ensures ws[i].end <= ws[j].start
    decreases j - i
  {
    if i + 1 < j {
      TilesAscend(ws, a, e, i, j - 1);
    }
  }

  lemma {:induction false} TilesWithin(ws: seq<Span>, a: nat, e: nat, i: nat)
    requires Tiles(ws, a, e) && i < |ws|
    requires forall k :: 0 <= k < |ws| ==> ws[k].start < ws[k].end
    ensures a <= ws[i].start && ws[i].end <= e
  {
    if i > 0 {
      TilesAscend(ws, a, e, 0, i);
    }
    if i < |ws| - 1 {
      TilesAscend(ws, a, e, i, |ws| - 1);
    }
  }

  /** A line split answers for exactly [s, e), in order, one affordable chunk at a time. */
  lemma LineSplitSound(c: Context, s: nat, e: nat, kind: ChunkKind)
    requires s <= e <= |c.src| && 0 < e && !kind.ClassHeader?
    ensures var ps := LineSplit(c, s, e, kind);
      && Banded(ps, s, e) && AllAffordable(c, ps)
      && forall p :: s <= p < e ==> Covers(ps, kind, p)
  {
    if s < e {
      NonEmptySplitSound(c, s, e, kind);
    } else {
      EmptySplitSound(c, s, kind);
    }
  }

  lemma EmptySplitSound(c: Context, s: nat, kind: ChunkKind)
    requires 0 < s <= |c.src| && !kind.ClassHeader?
    ensures Banded(LineSplit(c, s, s, kind), s, s) && AllAffordable(c, LineSplit(c, s, s, kind))
  {
    EmptyRangeWindows(c, s);
    LineStartBounds(c.src, s);
    var a := LineBegin(c.src, s);
    assert SingleLine(c.src, a, s);
    hide LineWindows, SingleLine, LineStarts, LineBegin;
    assert a != s ==> LineSplit(c, s, s, kind) == [Piece(Verbatim(a, s, kind), s)];
  }

  lemma NonEmptySplitSound(c: Context, s: nat, e: nat, kind: ChunkKind)
    requires s < e <= |c.src| && !kind.ClassHeader?
    ensures var ps := LineSplit(c, s, e, kind);
      && Banded(ps, s, e) && AllAffordable(c, ps)
      && forall p :: s <= p < e ==> Covers(ps, kind, p)
  {
    var ws, ps := LineWindows(c, s, e), LineSplit(c, s, e, kind);
    LineStartBounds(c.src, s);
    var a := LineBegin(c.src, s);
    LineSplitTiles(c, s, e);
    assert forall k :: 0 <= k < |ws| ==> GoodWindow(c, ws[k]);
    hide LineWindows, GoodWindow, LineStarts, LineBegin;
    assert forall k :: 0 <= k < |ws| ==> ws[k].start < ws[k].end by {
      WindowsNotEmpty(c, s, e);
    }
    forall i | 0 <= i < |ps|
      ensures InBand(ps[i], s, e) && Affordable(c, ps[i].raw) && Rooted(c, ps[i])
    {
      TilesWithin(ws, a, e, i);
      if i > 0 {
        TilesAscend(ws, a, e, 0, i);
      }
      hide Affordable, Tiles, Fits, SingleLine;
      WindowAffordable(c, ws[i], kind);
    }
    hide Affordable, Rooted;
    forall i, j | 0 <= i < j < |ps|
      ensures Apart(ps[i], ps[j])
    {
      TilesAscend(ws, a, e, i, j);
      TilesAscend(ws, a, e, 0, j);
    }
    forall p | s <= p < e
      ensures Covers(ps, kind, p)
    {
      var i := TilesReach(ws, a, e, p);
      assert Answers(ps[i], kind, p);
    }
  }

  lemma WindowsNotEmpty(c: Context, s: nat, e: nat)
    requires s < e <= |c.src|
    ensures forall k :: 0 <= k < |LineWindows(c, s, e)| ==> LineWindows(c, s, e)[k].start < LineWindows(c, s, e)[k].end
  {
    LineSplitTiles(c, s, e);
    forall k | 0 <= k < |LineWindows(c, s, e)|
      ensures LineWindows(c, s, e)[k].start < LineWindows(c, s, e)[k].end
    {
      assert GoodWindow(c, LineWindows(c, s, e)[k]);
    }
  }

  lemma WindowAffordable(c: Context, w: Span, kind: ChunkKind)
    requires GoodWindow(c, w) && !kind.ClassHeader?
    ensures Affordable(c, Verbatim(w.start, w.end, kind))
  {
  }

  // -------------------------------------------------------------- blocks, functions

  /** ps answers, in order and affordably, for a span of the source. */
  predicate Sound(c: Context, ps: seq<Piece>, lo: nat, hi: nat) {
    Banded(ps, lo, hi) && AllAffordable(c, ps)
  }

  lemma SoundConcat(c: Context, a: seq<Piece>, b: seq<Piece>, lo: nat, mid: nat, mid': nat, hi: nat)
    requires Sound(c, a, lo, mid) && Sound(c, b, mid', hi) && lo <= mid <= mid' <= hi
    ensures Sound(c, a + b, lo, hi)
  {
    BandedWiden(b, mid', hi, mid, hi);
    BandedConcat(a, b, lo, mid, hi);
    assert forall i :: 0 <= i < |a + b| ==> (a + b)[i] in a || (a + b)[i] in b;
  }

  predicate InStatement(sts: seq<Node>, i: nat, p: nat) {
    exists k :: i <= k < |sts| && sts[k].start <= p < sts[k].end
  }

  predicate InOpen(open: Option<Span>, p: nat) {
    open.Some? && open.value.start <= p < open.value.end
  }

  lemma FlushedSound(c: Context, w: Span, kind: ChunkKind)
    requires w.start <= w.end <= |c.src| && Fits(c, w.start, w.end) && !kind.ClassHeader?
    ensures Sound(c, Flushed(Some(w), kind), w.start, w.end)
    ensures forall p :: w.start <= p < w.end ==> Covers(Flushed(Some(w), kind), kind, p)
  {
    var ps := Flushed(Some(w), kind);
    assert ps[0].raw == Verbatim(w.start, w.end, kind);
    forall p | w.start <= p < w.end
      ensures Covers(ps, kind, p)
    {
      assert Answers(ps[0], kind, p);
    }
  }

  /** From statement i with group open: in order from lo to hi, affordable, nothing lost. */
  predicate BlockKeeps(c: Context, sts: seq<Node>, i: nat, open: Option<Span>, kind: ChunkKind, lo: nat,
                       hi: nat, ps: seq<Piece>) {
    && Sound(c, ps, lo, hi)
    && forall p: nat :: p < hi && (InOpen(open, p) || InStatement(sts, i, p)) ==> Covers(ps, kind, p)
  }

  lemma FlushThenKeeps(c: Context, sts: seq<Node>, i: nat, w: Span, open': Option<Span>, kind: ChunkKind,
                       mid: nat, hi: nat, rest: seq<Piece>)
    requires w.start <= w.end <= |c.src| && Fits(c, w.start, w.end) && !kind.ClassHeader?
    requires w.end <= mid <= hi && BlockKeeps(c, sts, i, open', kind, mid, hi, rest)
    requires forall p: nat :: InStatement(sts, i, p) ==> p < hi
    ensures BlockKeeps(c, sts, i, Some(w), kind, w.start, hi, Flushed(Some(w), kind) + rest)
  {
    var f := Flushed(Some(w), kind);
    FlushedSound(c, w, kind);
    SoundConcat(c, f, rest, w.start, w.end, mid, hi);
    forall p: nat | p < hi && (InOpen(Some(w), p) || InStatement(sts, i, p))
      ensures Covers(f + rest, kind, p)
    {
      CoversConcat(f, rest, kind, p);
    }
  }

  lemma KeepsWiden(c: Context, sts: seq<Node>, i: nat, open: Option<Span>, kind: ChunkKind,
                   lo: nat, lo': nat, hi: nat, ps: seq<Piece>)
    requires BlockKeeps(c, sts, i, open, kind, lo, hi, ps) && lo' <= lo
    ensures BlockKeeps(c, sts, i, open, kind, lo', hi, ps)
  {
    BandedWiden(ps, lo, hi, lo', hi);
  }

  /** Statement i joined the group, so keeping the longer group keeps both. */
  lemma JoinedKeeps(c: Context, sts: seq<Node>, i: nat, open: Option<Span>, start: nat, kind: ChunkKind,
                    lo: nat, hi: nat, ps: seq<Piece>)
    requires i < |sts| && start <= sts[i].start
    requires open.Some? ==> start == open.value.start && open.value.end <= sts[i].end
    requires BlockKeeps(c, sts, i + 1, Some(Span(start, sts[i].end)), kind, lo, hi, ps)
    ensures BlockKeeps(c, sts, i, open, kind, lo, hi, ps)
  {
    StatementSplit(sts, i);
  }

  lemma StatementsEnd(sts: seq<Node>, i: nat, hi: nat)
    requires forall k :: i <= k < |sts| ==> sts[k].end <= hi
    ensures forall p: nat :: InStatement(sts, i, p) ==> p < hi
  {
  }

  predicate Upcoming(sts: seq<Node>, i: nat, at: nat) {
    i < |sts| ==> at <= sts[i].start
  }

  predicate GoodOpen(c: Context, open: Option<Span>, lo: nat, hi: nat) {
    open.Some? ==>
      && lo <= open.value.start <= open.value.end <= hi && hi <= |c.src|
      && Fits(c, open.value.start, open.value.end)
  }

  /** The step of the statement loop, as its definition has it. */
  lemma BlockTurn(c: Context, sts: seq<Node>, i: nat, open: Option<Span>, kind: ChunkKind)
    requires i < |sts| && Ordered(sts, 1, |c.src|)
    requires open.Some? ==> open.value.start <= open.value.end <= sts[i].start
    ensures var s, e := sts[i].start, sts[i].end;
      Block(c, sts, i, open, kind) ==
      if !Fits(c, s, e) then Flushed(open, kind) + LineSplit(c, s, e, kind) + Block(c, sts, i + 1, None, kind)
      else if open.None? then Block(c, sts, i + 1, Some(Span(s, e)), kind)
      else if Fits(c, open.value.start, e) then Block(c, sts, i + 1, Some(Span(open.value.start, e)), kind)
      else Flushed(open, kind) + Block(c, sts, i + 1, Some(Span(s, e)), kind)
  {
    hide LineSplit, Fits, Flushed;
  }

  lemma Regroup(open: Option<Span>, kind: ChunkKind, split: seq<Piece>, rest: seq<Piece>)
    ensures var more := split + rest;
      Flushed(open, kind) + split + rest == if open.None? then more else Flushed(open, kind) + more
  {
    assert Flushed(open, kind) + split + rest == Flushed(open, kind) + (split + rest);
    assert [] + (split + rest) == split + rest;
  }

  lemma BlockUnfolds(c: Context, sts: seq<Node>, i: nat, open: Option<Span>, kind: ChunkKind)
    requires i < |sts| && Ordered(sts, 1, |c.src|)
    requires open.Some? ==> open.value.start <= open.value.end <= sts[i].start
    ensures var s, e := sts[i].start, sts[i].end;
      Block(c, sts, i, open, kind) ==
      if !Fits(c, s, e) then
        var more := LineSplit(c, s, e, kind) + Block(c, sts, i + 1, None, kind);
        if open.None? then more else Flushed(open, kind) + more
      else if open.None? then Block(c, sts, i + 1, Some(Span(s, e)), kind)
      else if Fits(c, open.value.start, e) then Block(c, sts, i + 1, Some(Span(open.value.start, e)), kind)
      else Flushed(open, kind) + Block(c, sts, i + 1, Some(Span(s, e)), kind)
  {
    BlockTurn(c, sts, i, open, kind);
    var s, e := sts[i].start, sts[i].end;
    Regroup(open, kind, LineSplit(c, s, e, kind), Block(c, sts, i + 1, None, kind));
    hide Block, LineSplit, Fits, Flushed;
  }

  /** Where the statement loop may stand: statements i.. lie in [lo, hi], after the open group. */
  predicate AtStatement(c: Context, sts: seq<Node>, i: nat, open: Option<Span>, lo: nat, hi: nat) {
    && i <= |sts| && Ordered(sts, 1, |c.src|)
    && GoodOpen(c, open, lo, hi) && (open.Some? ==> Upcoming(sts, i, open.value.end))
    && lo <= hi <= |c.src| && Upcoming(sts, i, lo)
    && forall k :: i <= k < |sts| ==> sts[k].end <= hi
  }

  /** An oversize statement: the open group is flushed, then the statement's lines follow. */
  lemma SplitKeeps(c: Context, sts: seq<Node>, i: nat, open: Option<Span>, kind: ChunkKind, lo: nat, hi: nat,
                   rest: seq<Piece>)
    requires AtStatement(c, sts, i, open, lo, hi) && i < |sts| && !kind.ClassHeader?
    requires BlockKeeps(c, sts, i + 1, None, kind, sts[i].end, hi, rest)
    ensures var more := LineSplit(c, sts[i].start, sts[i].end, kind) + rest;
      BlockKeeps(c, sts, i, open, kind, lo, hi, if open.None? then more else Flushed(open, kind) + more)
  {
    var s := sts[i].start;
    StatementsEnd(sts, i, hi);
    SplitThenKeeps(c, sts, i, kind, hi, rest);
    hide BlockKeeps, InStatement, LineSplit, Fits, Flushed;
    var more := LineSplit(c, s, sts[i].end, kind) + rest;
    if open.Some? {
      FlushThenKeeps(c, sts, i, open.value, None, kind, s, hi, more);
      KeepsWiden(c, sts, i, open, kind, open.value.start, lo, hi, Flushed(open, kind) + more);
    } else {
      KeepsWiden(c, sts, i, open, kind, s, lo, hi, more);
    }
  }

  /** A statement that does not fit the open group: the group is flushed and a new one begun. */
  lemma RegroupKeeps(c: Context, sts: seq<Node>, i: nat, open: Option<Span>, kind: ChunkKind, lo: nat, hi: nat,
                     rest: seq<Piece>)
    requires AtStatement(c, sts, i, open, lo, hi) && i < |sts| && !kind.ClassHeader? && open.Some?
    requires BlockKeeps(c, sts, i + 1, Some(Span(sts[i].start, sts[i].end)), kind, sts[i].start, hi, rest)
    ensures BlockKeeps(c, sts, i, open, kind, lo, hi, Flushed(open, kind) + rest)
  {
    var s := sts[i].start;
    StatementsEnd(sts, i, hi);
    hide BlockKeeps, InStatement, Fits, Flushed;
    JoinedKeeps(c, sts, i, None, s, kind, s, hi, rest);
    FlushThenKeeps(c, sts, i, open.value, None, kind, s, hi, rest);
    KeepsWiden(c, sts, i, open, kind, open.value.start, lo, hi, Flushed(open, kind) + rest);
  }

  lemma NextStatement(c: Context, sts: seq<Node>, i: nat, open: Option<Span>, lo: nat, hi: nat)
    requires AtStatement(c, sts, i, open, lo, hi) && i < |sts|
    ensures var s, e := sts[i].start, sts[i].end;
      && Ordered(sts, 1, |c.src|) && (i + 1 < |sts| ==> e <= sts[i + 1].start)
      && lo <= s <= e <= hi <= |c.src| && 0 < e && (open.Some? ==> open.value.start <= open.value.end <= s)
      && AtStatement(c, sts, i + 1, None, e, hi)
      && (Fits(c, s, e) ==>
            && AtStatement(c, sts, i + 1, Some(Span(s, e)), s, hi)
            && AtStatement(c, sts, i + 1, Some(Span(s, e)), lo, hi))
      && (open.Some? && Fits(c, open.value.start, e) ==>
            AtStatement(c, sts, i + 1, Some(Span(open.value.start, e)), lo, hi))
  {
    assert Upcoming(sts, i + 1, sts[i].end);
  }

  lemma BlockEndSound(c: Context, sts: seq<Node>, open: Option<Span>, kind: ChunkKind, lo: nat, hi: nat)
    requires AtStatement(c, sts, |sts|, open, lo, hi) && !kind.ClassHeader?
    ensures BlockKeeps(c, sts, |sts|, open, kind, lo, hi, Block(c, sts, |sts|, open, kind))
  {
    assert Block(c, sts, |sts|, open, kind) == Flushed(open, kind);
    if open.Some? {
      FlushedSound(c, open.value, kind);
      BandedWiden(Flushed(open, kind), open.value.start, open.value.end, lo, hi);
    }
  }

  lemma {:induction false} BlockSound(c: Context, sts: seq<Node>, i: nat, open: Option<Span>, kind: ChunkKind,
                                      lo: nat, hi: nat)
    requires AtStatement(c, sts, i, open, lo, hi) && !kind.ClassHeader?
    ensures BlockKeeps(c, sts, i, open, kind, lo, hi, Block(c, sts, i, open, kind))
    decreases |sts| - i, 1
  {
    StandsWell(c, sts, i, open, lo, hi);
    hide Block, BlockKeeps, InStatement, LineSplit, Fits, Flushed, Upcoming, GoodOpen, AtStatement, Ordered;
    if i == |sts| {
      BlockEndSound(c, sts, open, kind, lo, hi);
    } else {
      BlockStepSound(c, sts, i, open, kind, lo, hi);
    }
  }

  lemma StandsWell(c: Context, sts: seq<Node>, i: nat, open: Option<Span>, lo: nat, hi: nat)
    requires AtStatement(c, sts, i, open, lo, hi)
    ensures i <= |sts| && Ordered(sts, 1, |c.src|)
    ensures open.Some? ==> open.value.start <= open.value.end && (i < |sts| ==> open.value.end <= sts[i].start)
  {
  }

  lemma {:induction false} BlockStepSound(c: Context, sts: seq<Node>, i: nat, open: Option<Span>, kind: ChunkKind,
                                          lo: nat, hi: nat)
    requires AtStatement(c, sts, i, open, lo, hi) && i < |sts| && !kind.ClassHeader?
    ensures BlockKeeps(c, sts, i, open, kind, lo, hi, Block(c, sts, i, open, kind))
    decreases |sts| - i, 0
  {
    hide Block, BlockKeeps, InStatement, LineSplit, Fits, Flushed, Upcoming, GoodOpen;
    NextStatement(c, sts, i, open, lo, hi);
    hide AtStatement, Ordered;
    BlockUnfolds(c, sts, i, open, kind);
    var ps := Block(c, sts, i, open, kind);
    var s, e := sts[i].start, sts[i].end;
    if !Fits(c, s, e) {
      BlockSound(c, sts, i + 1, None, kind, e, hi);
      SplitKeeps(c, sts, i, open, kind, lo, hi, Block(c, sts, i + 1, None, kind));
    } else if open.None? || Fits(c, open.value.start, e) {
      var start := if open.None? then s else open.value.start;
      BlockSound(c, sts, i + 1, Some(Span(start, e)), kind, lo, hi);
      JoinedKeeps(c, sts, i, open, start, kind, lo, hi, ps);
    } else {
      BlockSound(c, sts, i + 1, Some(Span(s, e)), kind, s, hi);
      RegroupKeeps(c, sts, i, open, kind, lo, hi, Block(c, sts, i + 1, Some(Span(s, e)), kind));
    }
  }

  lemma StatementSplit(sts: seq<Node>, i: nat)
    requires i < |sts|
    ensures forall p: nat :: InStatement(sts, i, p) <==> (sts[i].start <= p < sts[i].end || InStatement(sts, i + 1, p))
  {
  }

  lemma SplitThenKeeps(c: Context, sts: seq<Node>, i: nat, kind: ChunkKind, hi: nat, rest: seq<Piece>)
    requires i < |sts| && !kind.ClassHeader?
    requires sts[i].start <= sts[i].end <= hi <= |c.src| && 0 < sts[i].end
    requires BlockKeeps(c, sts, i + 1, None, kind, sts[i].end, hi, rest)
    ensures BlockKeeps(c, sts, i, None, kind, sts[i].start, hi, LineSplit(c, sts[i].start, sts[i].end, kind) + rest)
  {
    var s, e := sts[i].start, sts[i].end;
    var split := LineSplit(c, s, e, kind);
    LineSplitSound(c, s, e, kind);
    SoundConcat(c, split, rest, s, e, e, hi);
    StatementSplit(sts, i);
    forall p: nat | p < hi && InStatement(sts, i, p)
      ensures Covers(split + rest, kind, p)
    {
      CoversConcat(split, rest, kind, p);
    }
  }

  /** ps answers for [lo, hi] in order, within budget, and covers everything the units are owed. */
  ghost predicate Keeps(c: Context, ps: seq<Piece>, us: seq<Unit>, lo: nat, hi: nat) {
    Banded(ps, lo, hi) && AllWithin(c, ps, us) && Pays(ps, us)
  }

  lemma WithinMore(c: Context, r: RawChunk, us: seq<Unit>, all: seq<Unit>)
    requires Within(c, r, us) && forall u :: u in us ==> u in all
    ensures Within(c, r, all)
  {
  }

  lemma KeepsConcat(c: Context, a: seq<Piece>, b: seq<Piece>, us: seq<Unit>, vs: seq<Unit>, lo: nat, mid: nat, hi: nat)
    requires Keeps(c, a, us, lo, mid) && Keeps(c, b, vs, mid, hi) && lo <= mid <= hi
    ensures Keeps(c, a + b, us + vs, lo, hi)
  {
    BandedConcat(a, b, lo, mid, hi);
    forall i | 0 <= i < |a + b|
      ensures Within(c, (a + b)[i].raw, us + vs)
    {
      if i < |a| {
        WithinMore(c, a[i].raw, us, us + vs);
      } else {
        WithinMore(c, b[i - |a|].raw, vs, us + vs);
      }
    }
    forall u, p: nat | u in us + vs && Owed(u, p)
      ensures Covers(a + b, u.kind, p)
    {
      CoversConcat(a, b, u.kind, p);
    }
  }

  lemma OwedInside(c: Context, u: Unit, p: nat)
    requires InSource(c, u.outer) && InSource(c, u.def) && u.outer.start <= u.def.start && u.def.end <= u.outer.end
    requires Owed(u, p)
    ensures u.outer.start <= p < u.outer.end
    ensures Field(u.def).Some? && p >= Field(u.def).value.start ==> InStatement(Field(u.def).value.children, 0, p)
  {
    if Field(u.def).Some? {
      FieldInside(c, u.def);
      if p >= Field(u.def).value.start {
        var i :| 0 <= i < |Field(u.def).value.children|
          && Field(u.def).value.children[i].start <= p < Field(u.def).value.children[i].end;
      }
    }
  }

  lemma AffordableWithin(c: Context, ps: seq<Piece>, us: seq<Unit>)
    requires AllAffordable(c, ps)
    ensures AllWithin(c, ps, us)
  {
  }

  /** A function definition, whole or split. */
  lemma FunctionSound(c: Context, outer: Node, def: Node, kind: ChunkKind)
    requires InSource(c, outer) && InSource(c, def) && outer.start <= def.start && def.end <= outer.end
    requires outer.start < outer.end && !kind.ClassHeader? && IsDefinition(def)
    ensures Keeps(c, EmitFunction(c, outer, def, kind), [Unit(outer, def, kind)], outer.start, outer.end)
  {
    var u, ps := Unit(outer, def, kind), EmitFunction(c, outer, def, kind);
    var us := [u];
    if Fits(c, outer.start, outer.end) {
      assert Affordable(c, ps[0].raw);
      AffordableWithin(c, ps, us);
      forall p: nat | Owed(u, p)
        ensures Covers(ps, kind, p)
      {
        OwedInside(c, u, p);
        assert Answers(ps[0], kind, p);
      }
    } else if Field(def).None? {
      LineSplitSound(c, outer.start, outer.end, kind);
      AffordableWithin(c, ps, us);
      hide LineSplit;
    } else {
      SplitFunctionSound(c, outer, def, kind);
    }
  }

  lemma SplitFunctionSound(c: Context, outer: Node, def: Node, kind: ChunkKind)
    requires InSource(c, outer) && InSource(c, def) && outer.start <= def.start && def.end <= outer.end
    requires outer.start < outer.end && !kind.ClassHeader? && IsDefinition(def)
    requires Field(def).Some?
    requires !Fits(c, outer.start, outer.end)
    ensures Keeps(c, SplitFunction(c, outer, def, kind), [Unit(outer, def, kind)], outer.start, outer.end)
  {
    FieldInside(c, def);
    var u, body := Unit(outer, def, kind), Field(def).value;
    var us := [u];
    var sig, block := [Exactly(outer.start, body.start, kind)], Block(c, body.children, 0, None, kind);
    BlockSound(c, body.children, 0, None, kind, body.start, body.end);
    AffordableWithin(c, block, us);
    assert outer.start < body.start;
    assert u in us && SplitSignature(c, u, sig[0].raw);
    BandedWiden(block, body.start, body.end, body.start, outer.end);
    BandedConcat(sig, block, outer.start, body.start, outer.end);
    var ps := SplitFunction(c, outer, def, kind);
    forall p: nat | Owed(u, p)
      ensures Covers(ps, kind, p)
    {
      OwedInside(c, u, p);
      CoversConcat(sig, block, kind, p);
      if p < body.start {
        assert Answers(sig[0], kind, p);
      } else {
        InStatementBounded(body.children, p, body.end);
        assert Covers(block, kind, p);
      }
    }
    assert forall i :: 0 <= i < |ps| ==> ps[i] in sig || ps[i] in block;
  }

  lemma InStatementBounded(sts: seq<Node>, p: nat, hi: nat)
    requires InStatement(sts, 0, p) && forall k :: 0 <= k < |sts| ==> sts[k].end <= hi
    ensures p < hi
  {
  }

  // ----------------------------------------------------------------- class headers

  lemma {:induction false} CapFromFits(c: Context, lines: seq<string>, k: nat)
    requires 1 <= k <= |lines|
    requires k == 1 || c.tok(JoinLines(lines[..k])) <= c.max
    ensures var r := CapFrom(c, lines, k);
      && (c.tok(r) <= c.max || r == lines[0])
      && exists n :: k <= n <= |lines| && r == JoinLines(lines[..n])
          && (n == |lines| || c.tok(JoinLines(lines[..n]) + "\n" + lines[n]) > c.max)
    decreases |lines| - k
  {
    if k < |lines| && c.tok(JoinLines(lines[..k]) + "\n" + lines[k]) <= c.max {
      assert lines[..k + 1][..k] == lines[..k];
      CapFromFits(c, lines, k + 1);
    } else {
      assert CapFrom(c, lines, k) == JoinLines(lines[..k]);
    }
  }

  /**
   * A capped header fits the budget or is its first line alone; it always consists of whole
   * lines of the original, from the first on, and stops only at the end or at an overflow.
   */
  lemma CapKeepsWholeLines(c: Context, s: string)
    ensures var r, lines := CapToBudget(c, s), Split(s);
      && (c.tok(r) <= c.max || r == lines[0])
      && (c.tok(s) <= c.max ==> r == s)
      && exists n :: 1 <= n <= |lines| && r == JoinLines(lines[..n])
          && (n == |lines| || c.tok(s) <= c.max || c.tok(JoinLines(lines[..n]) + "\n" + lines[n]) > c.max)
  {
    var lines := Split(s);
    if c.tok(s) <= c.max {
      JoinSplit(s);
      assert lines[..|lines|] == lines;
    } else {
      CapFromFits(c, lines, 1);
    }
  }

  lemma HeaderWithin(c: Context, outer: Node, def: Node)
    requires InSource(c, outer) && InSource(c, def) && outer.start <= def.start
    ensures Within(c, HeaderPiece(c, outer, def).raw, [])
  {
    CapKeepsWholeLines(c, HeaderText(c, outer, def));
    JoinSplit(HeaderText(c, outer, def));
  }

  // ------------------------------------------------------------------- the walk

  lemma {:induction false} DefinitionSound(c: Context, st: Node, inClass: bool)
    requires InSource(c, st)
    ensures Keeps(c, Definition(c, st, inClass), UnitsOf(st, inClass), st.start, st.end)
    decreases st, 1, 0
  {
    if Resolve(st).Some? {
      ResolveInside(c, st);
      var def := Resolve(st).value;
      if def.kind.FunctionDefinition? {
        FunctionSound(c, st, def, FunctionKind(inClass));
      } else {
        ClassSound(c, st, def);
      }
    }
  }

  lemma HeaderKeeps(c: Context, outer: Node, def: Node, lo: nat, hi: nat)
    requires InSource(c, outer) && InSource(c, def) && outer.start <= def.start
    ensures Keeps(c, [HeaderPiece(c, outer, def)], [], lo, hi)
  {
    HeaderWithin(c, outer, def);
    hide CapToBudget, HeaderText;
  }

  lemma {:induction false} ClassSound(c: Context, outer: Node, def: Node)
    requires InSource(c, outer) && InSource(c, def) && outer.start <= def.start && def.end <= outer.end
    ensures Keeps(c, EmitClass(c, outer, def),
                  if Field(def).Some? then Units(Field(def).value.children, true) else [], outer.start, outer.end)
    decreases def, 0, 0
  {
    HeaderKeeps(c, outer, def, outer.end, outer.end);
    var header := [HeaderPiece(c, outer, def)];
    if Field(def).Some? {
      FieldInside(c, def);
      var sts := Field(def).value.children;
      ScopeSound(c, sts, true, outer.start, outer.end);
      hide Keeps, CapToBudget, HeaderText;
      KeepsConcat(c, Scope(c, sts, true), header, Units(sts, true), [], outer.start, outer.end, outer.end);
      assert Units(sts, true) + [] == Units(sts, true);
    } else {
      hide CapToBudget, HeaderText;
      assert [] + header == header;
      BandedWiden(header, outer.end, outer.end, outer.start, outer.end);
    }
  }

  lemma {:induction false} ScopeSound(c: Context, sts: seq<Node>, inClass: bool, lo: nat, hi: nat)
    requires AllInSource(c, sts) && Ordered(sts, lo, hi) && lo <= hi
    ensures Keeps(c, Scope(c, sts, inClass), Units(sts, inClass), lo, hi)
    decreases sts, 2, |sts|
  {
    if sts != [] {
      var n := |sts| - 1;
      var st := sts[n];
      ScopeSound(c, sts[..n], inClass, lo, st.start);
      DefinitionSound(c, st, inClass);
      hide Banded, AllWithin, Pays;
      KeepsWidenEnd(c, Definition(c, st, inClass), UnitsOf(st, inClass), st.start, st.end, hi);
      KeepsConcat(c, Scope(c, sts[..n], inClass), Definition(c, st, inClass),
        Units(sts[..n], inClass), UnitsOf(st, inClass), lo, st.start, hi);
    }
  }

  lemma KeepsWidenEnd(c: Context, ps: seq<Piece>, us: seq<Unit>, lo: nat, hi: nat, hi': nat)
    requires Keeps(c, ps, us, lo, hi) && hi <= hi'
    ensures Keeps(c, ps, us, lo, hi')
  {
    BandedWiden(ps, lo, hi, lo, hi');
  }
}
