/**
 * Which chunks a file gets, exactly: functions that fit stay whole, an oversize one becomes its
 * signature and greedily grown groups of statements, an oversize statement greedily grown
 * windows of lines, every class one header after its members, and nothing else is indexed.
 */
module ChunkShape {
  import opened Basics
  import opened Lines
  import opened Chunks
  import opened ChunkTheorems
  import opened Merging

  // ----------------------------------------------------- windows grow greedily

  /** The line that begins where the window ends would have overflowed it. */
  predicate Overflows(c: Context, w: Span, e: nat) {
    exists k :: 0 <= k < |LineStarts(c.src)| && LineStarts(c.src)[k] == w.end && OverflowsAt(c, w, k, e)
  }

  predicate OverflowsAt(c: Context, w: Span, k: nat, e: nat)
    requires k < |LineStarts(c.src)|
  {
    w.start <= LineEnd(c.src, k, e) <= |c.src| && !Fits(c, w.start, LineEnd(c.src, k, e))
  }

  predicate AllButLastOverflow(c: Context, ws: seq<Span>, e: nat) {
    forall i :: 0 <= i < |ws| - 1 ==> Overflows(c, ws[i], e)
  }

  lemma OverflowCons(c: Context, w: Span, ws: seq<Span>, e: nat)
    requires Overflows(c, w, e) && AllButLastOverflow(c, ws, e)
    ensures AllButLastOverflow(c, [w] + ws, e)
  {
    hide Overflows;
  }

  lemma {:induction false} WindowsAreGreedy(c: Context, win: nat, li: nat, endIdx: nat, e: nat)
    requires li <= endIdx + 1 && endIdx < |LineStarts(c.src)| && LineStarts(c.src)[endIdx] < e <= |c.src|
    requires win <= Reached(c.src, li, endIdx, e)
    ensures AllButLastOverflow(c, Windows(c, win, li, endIdx, e), e)
    decreases endIdx + 1 - li
  {
    StartsAscend(c.src);
    if li <= endIdx {
      var lineStart, lineEnd := LineStarts(c.src)[li], LineEnd(c.src, li, e);
      if win < lineStart && !Fits(c, win, lineEnd) {
        WindowsAreGreedy(c, lineStart, li + 1, endIdx, e);
        assert OverflowsAt(c, Span(win, lineStart), li, e);
        var rest := Windows(c, lineStart, li + 1, endIdx, e);
        assert Windows(c, win, li, endIdx, e) == [Span(win, lineStart)] + rest;
        hide Windows, AllButLastOverflow;
        OverflowCons(c, Span(win, lineStart), rest, e);
      } else {
        WindowsAreGreedy(c, win, li + 1, endIdx, e);
      }
    }
  }

  /** A line split ends a window only where one more line would have overflowed it. */
  lemma LineSplitIsGreedy(c: Context, s: nat, e: nat)
    requires s <= e <= |c.src| && 0 < e
    ensures AllButLastOverflow(c, LineWindows(c, s, e), e)
  {
    LastLine(c.src, s, e);
    WindowsAreGreedy(c, LineStarts(c.src)[LineOf(c.src, s)], LineOf(c.src, s), LineOf(c.src, e - 1), e);
  }

  // ------------------------------------------------------- groups grow greedily

  /** Statements from..to in one chunk, or one statement too large for any. */
  datatype Item = Group(from: nat, to: nat) | Oversize(k: nat)

  function From(it: Item): nat {
    match it case Group(a, _) => a case Oversize(k) => k
  }

  function To(it: Item): nat {
    match it case Group(_, b) => b case Oversize(k) => k + 1
  }

  /** A group's statements fit, and so does the group at each statement it grew by. */
  predicate GoodGroup(c: Context, sts: seq<Node>, a: nat, b: nat)
    requires Ordered(sts, 1, |c.src|) && a <= b <= |sts|
  {
    && a < b
    && (forall k :: a <= k < b ==> Fits(c, sts[k].start, sts[k].end))
    && (forall k :: a <= k < b ==> sts[a].start <= sts[k].end && Fits(c, sts[a].start, sts[k].end))
  }

  predicate GoodItem(c: Context, sts: seq<Node>, it: Item)
    requires Ordered(sts, 1, |c.src|)
  {
    match it
    case Group(a, b) => a <= b <= |sts| && GoodGroup(c, sts, a, b)
    case Oversize(k) => k < |sts| && !Fits(c, sts[k].start, sts[k].end)
  }

  /** q begins where p ends, and if both are groups p could not have taken q's first statement. */
  predicate Follows(c: Context, sts: seq<Node>, p: Item, q: Item)
    requires Ordered(sts, 1, |c.src|)
  {
    && To(p) == From(q) < |sts|
    && (p.Group? && q.Group? ==>
          && p.from < |sts| && sts[p.from].start <= sts[q.from].end
          && !Fits(c, sts[p.from].start, sts[q.from].end))
  }

  /** The items cover statements from..|sts| in order, each good, each group as long as it could be. */
  predicate Itemized(c: Context, sts: seq<Node>, from: nat, items: seq<Item>)
    requires Ordered(sts, 1, |c.src|) && from <= |sts|
  {
    && (items == [] ==> from == |sts|)
    && (items != [] ==> From(items[0]) == from && To(items[|items| - 1]) == |sts|)
    && (forall j :: 0 <= j < |items| ==> GoodItem(c, sts, items[j]))
    && (forall j :: 0 < j < |items| ==> Follows(c, sts, items[j - 1], items[j]))
  }

  /** A group is one chunk from its first statement's start to its last one's end. */
  function ItemPieces(c: Context, sts: seq<Node>, it: Item, kind: ChunkKind): seq<Piece>
    requires Ordered(sts, 1, |c.src|) && GoodItem(c, sts, it)
  {
    match it
    case Group(a, b) => [Exactly(sts[a].start, sts[b - 1].end, kind)]
    case Oversize(k) => LineSplit(c, sts[k].start, sts[k].end, kind)
  }

  /** ps is the pieces of the items, one after another. */
  predicate Emits(c: Context, sts: seq<Node>, items: seq<Item>, kind: ChunkKind, ps: seq<Piece>)
    requires Ordered(sts, 1, |c.src|)
    decreases |items|
  {
    if items == [] then ps == []
    else
      && GoodItem(c, sts, items[0])
      && ItemPieces(c, sts, items[0], kind) <= ps
      && Emits(c, sts, items[1..], kind, ps[|ItemPieces(c, sts, items[0], kind)|..])
  }

  lemma EmitsCons(c: Context, sts: seq<Node>, it: Item, items: seq<Item>, kind: ChunkKind, ps: seq<Piece>)
    requires Ordered(sts, 1, |c.src|) && GoodItem(c, sts, it) && Emits(c, sts, items, kind, ps)
    ensures Emits(c, sts, [it] + items, kind, ItemPieces(c, sts, it, kind) + ps)
  {
    var head := ItemPieces(c, sts, it, kind);
    hide ItemPieces, GoodItem;
    assert ([it] + items)[1..] == items && (head + ps)[|head|..] == ps;
  }

  lemma ItemizedCons(c: Context, sts: seq<Node>, it: Item, items: seq<Item>)
    requires Ordered(sts, 1, |c.src|) && GoodItem(c, sts, it) && From(it) <= To(it) <= |sts|
    requires Itemized(c, sts, To(it), items)
    requires items != [] ==> Follows(c, sts, it, items[0])
    ensures Itemized(c, sts, From(it), [it] + items)
  {
    hide GoodItem, Follows;
    var all := [it] + items;
    forall j | 0 < j < |all|
      ensures Follows(c, sts, all[j - 1], all[j])
    {
      if j > 1 {
        assert Follows(c, sts, items[j - 2], items[j - 1]);
      }
    }
  }

  /** The group that is open once statements a..i are in it; none if a == i. */
  function Opened(sts: seq<Node>, a: nat, i: nat): Option<Span>
    requires a <= i <= |sts|
  {
    if a == i then None else Some(Span(sts[a].start, sts[i - 1].end))
  }

  predicate MayOpen(c: Context, sts: seq<Node>, a: nat, i: nat)
    requires Ordered(sts, 1, |c.src|) && a <= i <= |sts|
  {
    a < i ==> GoodGroup(c, sts, a, i)
  }

  lemma OpenedFollows(c: Context, sts: seq<Node>, a: nat, i: nat)
    requires Ordered(sts, 1, |c.src|) && a < i < |sts|
    ensures Opened(sts, a, i).value.start <= Opened(sts, a, i).value.end <= sts[i].start
  {
    assert sts[a].start <= sts[i - 1].end;
  }

  lemma GroupGrows(c: Context, sts: seq<Node>, a: nat, i: nat)
    requires Ordered(sts, 1, |c.src|) && a <= i < |sts| && MayOpen(c, sts, a, i)
    requires Fits(c, sts[i].start, sts[i].end)
    requires sts[a].start <= sts[i].end && Fits(c, sts[a].start, sts[i].end)
    ensures MayOpen(c, sts, a, i + 1)
  {
  }

  /** Flushing the open group before statement i, if there is one, and going on from there. */
  lemma FlushItem(c: Context, sts: seq<Node>, a: nat, i: nat, items: seq<Item>, kind: ChunkKind, ps: seq<Piece>)
    returns (all: seq<Item>)
    requires Ordered(sts, 1, |c.src|) && a <= i <= |sts| && MayOpen(c, sts, a, i)
    requires Itemized(c, sts, i, items) && Emits(c, sts, items, kind, ps)
    requires a < i && items != [] ==> Follows(c, sts, Group(a, i), items[0])
    ensures Itemized(c, sts, a, all) && Emits(c, sts, all, kind, Flushed(Opened(sts, a, i), kind) + ps)
    ensures a < i ==> all == [Group(a, i)] + items
    ensures a == i ==> all == items
  {
    hide Itemized, Emits, GoodGroup, Follows;
    if a == i {
      all := items;
      assert [] + ps == ps;
    } else {
      all := [Group(a, i)] + items;
      ItemizedCons(c, sts, Group(a, i), items);
      EmitsCons(c, sts, Group(a, i), items, kind, ps);
    }
  }

  lemma {:induction false} BlockItems(c: Context, sts: seq<Node>, a: nat, i: nat, kind: ChunkKind)
    returns (items: seq<Item>)
    requires Ordered(sts, 1, |c.src|) && a <= i <= |sts| && MayOpen(c, sts, a, i)
    ensures (i < |sts| && a < i ==> Opened(sts, a, i).value.end <= sts[i].start)
    ensures (a < i ==> Opened(sts, a, i).value.start <= Opened(sts, a, i).value.end)
    ensures Itemized(c, sts, a, items)
    ensures Emits(c, sts, items, kind, Block(c, sts, i, Opened(sts, a, i), kind))
    ensures a < i ==> items != [] && items[0].Group?
    decreases |sts| - i, 2
  {
    assert a < i ==> sts[a].start <= sts[i - 1].end;
    if i == |sts| {
      items := FlushItem(c, sts, a, i, [], kind, []);
      assert Flushed(Opened(sts, a, i), kind) + [] == Block(c, sts, i, Opened(sts, a, i), kind);
    } else {
      if a < i {
        OpenedFollows(c, sts, a, i);
      }
      items := BlockItemsStep(c, sts, a, i, kind);
    }
  }

  lemma {:induction false} BlockItemsStep(c: Context, sts: seq<Node>, a: nat, i: nat, kind: ChunkKind)
    returns (items: seq<Item>)
    requires Ordered(sts, 1, |c.src|) && a <= i < |sts| && MayOpen(c, sts, a, i)
    requires a < i ==> Opened(sts, a, i).value.start <= Opened(sts, a, i).value.end <= sts[i].start
    ensures Itemized(c, sts, a, items)
    ensures Emits(c, sts, items, kind, Block(c, sts, i, Opened(sts, a, i), kind))
    ensures a < i ==> items != [] && items[0].Group?
    decreases |sts| - i, 1
  {
    hide Block, LineSplit, Itemized, Emits, Flushed, Fits, GoodGroup, Follows, Ordered, MayOpen;
    StatementFacts(c, sts, a, i);
    var s, e := sts[i].start, sts[i].end;
    var open := Opened(sts, a, i);
    BlockUnfolds(c, sts, i, open, kind);
    if !Fits(c, s, e) {
      items := OversizeItem(c, sts, a, i, kind);
    } else if a == i || Fits(c, open.value.start, e) {
      GroupGrows(c, sts, a, i);
      items := BlockItems(c, sts, a, i + 1, kind);
    } else {
      GroupGrows(c, sts, i, i);
      var rest := BlockItems(c, sts, i, i + 1, kind);
      NextGroupFollows(c, sts, a, i, rest);
      items := FlushItem(c, sts, a, i, rest, kind, Block(c, sts, i + 1, Some(Span(s, e)), kind));
    }
  }

  lemma NextGroupFollows(c: Context, sts: seq<Node>, a: nat, i: nat, rest: seq<Item>)
    requires Ordered(sts, 1, |c.src|) && a < i < |sts| && Itemized(c, sts, i, rest) && rest != []
    requires sts[a].start <= sts[i].end && !Fits(c, sts[a].start, sts[i].end)
    ensures Follows(c, sts, Group(a, i), rest[0])
  {
    ItemizedHead(c, sts, i, rest);
    hide Itemized, Fits;
  }

  lemma ItemizedHead(c: Context, sts: seq<Node>, from: nat, items: seq<Item>)
    requires Ordered(sts, 1, |c.src|) && from <= |sts| && Itemized(c, sts, from, items) && items != []
    ensures From(items[0]) == from
  {
  }

  /** A statement too large for any group: the open group is flushed, its lines follow. */
  lemma {:induction false} OversizeItem(c: Context, sts: seq<Node>, a: nat, i: nat, kind: ChunkKind)
    returns (items: seq<Item>)
    requires Ordered(sts, 1, |c.src|) && a <= i < |sts| && MayOpen(c, sts, a, i)
    requires a < i ==> Opened(sts, a, i).value.start <= Opened(sts, a, i).value.end <= sts[i].start
    requires !Fits(c, sts[i].start, sts[i].end)
    ensures Itemized(c, sts, a, items)
    ensures Emits(c, sts, items, kind, Block(c, sts, i, Opened(sts, a, i), kind))
    ensures a < i ==> items != [] && items[0].Group?
    decreases |sts| - i, 0
  {
    hide Block, LineSplit, Itemized, Emits, Fits, GoodGroup, Follows, Ordered, MayOpen, Flushed;
    StatementFacts(c, sts, a, i);
    BlockUnfolds(c, sts, i, Opened(sts, a, i), kind);
    NothingOpen(c, sts, i + 1);
    var rest := BlockItems(c, sts, i + 1, i + 1, kind);
    var ps := Block(c, sts, i + 1, None, kind);
    OversizeFirst(c, sts, a, i, rest, kind, ps);
    var more := LineSplit(c, sts[i].start, sts[i].end, kind) + ps;
    items := FlushItem(c, sts, a, i, [Oversize(i)] + rest, kind, more);
    NothingFlushed(sts, i, kind, more);
  }

  lemma StatementFacts(c: Context, sts: seq<Node>, a: nat, i: nat)
    requires Ordered(sts, 1, |c.src|) && a <= i < |sts|
    ensures sts[i].start <= sts[i].end <= |c.src| && 0 < sts[i].end && sts[a].start <= sts[i].end
  {
  }

  lemma NothingOpen(c: Context, sts: seq<Node>, i: nat)
    requires Ordered(sts, 1, |c.src|) && i <= |sts|
    ensures MayOpen(c, sts, i, i)
  {
  }

  lemma NothingFlushed(sts: seq<Node>, i: nat, kind: ChunkKind, ps: seq<Piece>)
    requires i <= |sts|
    ensures Flushed(Opened(sts, i, i), kind) + ps == ps
  {
  }

  lemma OversizeFirst(c: Context, sts: seq<Node>, a: nat, i: nat, rest: seq<Item>, kind: ChunkKind, ps: seq<Piece>)
    requires Ordered(sts, 1, |c.src|) && a <= i < |sts| && !Fits(c, sts[i].start, sts[i].end)
    requires Itemized(c, sts, i + 1, rest) && Emits(c, sts, rest, kind, ps)
    ensures Itemized(c, sts, i, [Oversize(i)] + rest)
    ensures Emits(c, sts, [Oversize(i)] + rest, kind, LineSplit(c, sts[i].start, sts[i].end, kind) + ps)
    ensures a < i ==> Follows(c, sts, Group(a, i), Oversize(i))
  {
    if rest != [] {
      ItemizedHead(c, sts, i + 1, rest);
      HeadInRange(c, sts, i + 1, rest);
    }
    hide Itemized, Emits, Fits, LineSplit;
    ItemizedCons(c, sts, Oversize(i), rest);
    EmitsCons(c, sts, Oversize(i), rest, kind, ps);
  }

  lemma HeadInRange(c: Context, sts: seq<Node>, from: nat, items: seq<Item>)
    requires Ordered(sts, 1, |c.src|) && from <= |sts| && Itemized(c, sts, from, items) && items != []
    ensures From(items[0]) < |sts|
  {
    assert GoodItem(c, sts, items[0]);
  }

  /**
   * A block's chunks: its statements in order, cut into groups that fit and oversize
   * statements, where no group could have taken the statement that begins the next.
   */
  lemma BlockIsGreedy(c: Context, sts: seq<Node>, kind: ChunkKind) returns (items: seq<Item>)
    requires Ordered(sts, 1, |c.src|)
    ensures Itemized(c, sts, 0, items) && Emits(c, sts, items, kind, Block(c, sts, 0, None, kind))
  {
    items := BlockItems(c, sts, 0, 0, kind);
  }

  // ------------------------------------------------------------ a file's parts

  /** What a file is cut into before any splitting: its functions, and a header per class. */
  datatype Part = Fn(u: Unit) | Header(outer: Node, def: Node)

  function PartsOf(st: Node, inClass: bool): seq<Part>
    decreases st, 0, 0
  {
    match Resolve(st)
    case None => []
    case Some(def) =>
      if def.kind.FunctionDefinition? then [Fn(Unit(st, def, FunctionKind(inClass)))]
      else (if Field(def).Some? then Parts(Field(def).value.children, true) else []) + [Header(st, def)]
  }

  /** In source order, a class's members before its header. */
  function Parts(sts: seq<Node>, inClass: bool): seq<Part>
    decreases sts, 1, |sts|
  {
    if sts == [] then [] else Parts(sts[..|sts| - 1], inClass) + PartsOf(sts[|sts| - 1], inClass)
  }

  predicate Placed(c: Context, outer: Node, def: Node) {
    && InSource(c, outer) && InSource(c, def) && IsDefinition(def)
    && outer.start <= def.start && def.end <= outer.end && outer.start < outer.end
  }

  /**
   * The chunks of a part. A function that fits is one chunk; otherwise its signature is one,
   * and its body greedy groups of statements; without a body its lines are split. A class is
   * one header over its whole span.
   */
  ghost predicate Shaped(c: Context, part: Part, qs: seq<Piece>) {
    match part
    case Header(outer, def) =>
      && Placed(c, outer, def) && |qs| == 1
      && qs[0].raw.kind.ClassHeader? && qs[0].raw.start == outer.start && qs[0].raw.end == outer.end
      && qs[0].raw.content == CapToBudget(c, HeaderText(c, outer, def)) && qs[0].core == outer.start
    case Fn(u) =>
      && Placed(c, u.outer, u.def)
      && if Fits(c, u.outer.start, u.outer.end) then qs == [Exactly(u.outer.start, u.outer.end, u.kind)]
         else if Field(u.def).None? then qs == LineSplit(c, u.outer.start, u.outer.end, u.kind)
         else SplitShape(c, u, Field(u.def).value, qs)
  }

  ghost predicate SplitShape(c: Context, u: Unit, body: Node, qs: seq<Piece>) {
    && Ordered(body.children, 1, |c.src|)
    && qs != [] && qs[0] == Exactly(u.outer.start, body.start, u.kind)
    && exists items ::
         Itemized(c, body.children, 0, items) && Emits(c, body.children, items, u.kind, qs[1..])
  }

  lemma FunctionIsShaped(c: Context, outer: Node, def: Node, kind: ChunkKind)
    requires Placed(c, outer, def)
    ensures Shaped(c, Fn(Unit(outer, def, kind)), EmitFunction(c, outer, def, kind))
  {
    var qs := EmitFunction(c, outer, def, kind);
    if !Fits(c, outer.start, outer.end) && Field(def).Some? {
      FieldInside(c, def);
      var body := Field(def).value;
      var items := BlockIsGreedy(c, body.children, kind);
      hide Block, Itemized, Emits, Ordered, WellFormed;
      assert qs[1..] == Block(c, body.children, 0, None, kind);
    }
  }

  /** qss[i] is the chunks of part i, and all of them in order are ps. */
  ghost predicate Composed(c: Context, parts: seq<Part>, qss: seq<seq<Piece>>, ps: seq<Piece>) {
    && |qss| == |parts| && Flatten(qss) == ps
    && forall i :: 0 <= i < |parts| ==> Shaped(c, parts[i], qss[i])
  }

  lemma ComposedConcat(c: Context, a: seq<Part>, b: seq<Part>, x: seq<seq<Piece>>, y: seq<seq<Piece>>,
                       ps: seq<Piece>, qs: seq<Piece>)
    requires Composed(c, a, x, ps) && Composed(c, b, y, qs)
    ensures Composed(c, a + b, x + y, ps + qs)
  {
    hide Shaped;
    FlattenConcat(x, y);
  }

  lemma ComposedOne(c: Context, part: Part, qs: seq<Piece>)
    requires Shaped(c, part, qs)
    ensures Composed(c, [part], [qs], qs)
  {
    hide Shaped;
    assert [qs][..0] == [];
    assert Flatten([qs]) == Flatten([]) + qs == qs;
  }

  lemma {:induction false} DefinitionParts(c: Context, st: Node, inClass: bool) returns (qss: seq<seq<Piece>>)
    requires InSource(c, st)
    ensures Composed(c, PartsOf(st, inClass), qss, Definition(c, st, inClass))
    decreases st, 1, 0
  {
    if Resolve(st).None? {
      qss := [];
    } else {
      ResolveInside(c, st);
      var def := Resolve(st).value;
      if def.kind.FunctionDefinition? {
        FunctionIsShaped(c, st, def, FunctionKind(inClass));
        hide Shaped;
        qss := [EmitFunction(c, st, def, FunctionKind(inClass))];
        ComposedOne(c, Fn(Unit(st, def, FunctionKind(inClass))), qss[0]);
      } else {
        qss := ClassParts(c, st, def);
      }
    }
  }

  lemma {:induction false} ClassParts(c: Context, outer: Node, def: Node) returns (qss: seq<seq<Piece>>)
    requires Placed(c, outer, def)
    ensures var members := if Field(def).Some? then Parts(Field(def).value.children, true) else [];
      Composed(c, members + [Header(outer, def)], qss, EmitClass(c, outer, def))
    decreases def, 0, 0
  {
    var header := [HeaderPiece(c, outer, def)];
    assert Shaped(c, Header(outer, def), header);
    hide Shaped;
    ComposedOne(c, Header(outer, def), header);
    if Field(def).Some? {
      FieldInside(c, def);
      var sts := Field(def).value.children;
      var xs := ScopeParts(c, sts, true);
      hide Composed, HeaderPiece;
      ComposedConcat(c, Parts(sts, true), [Header(outer, def)], xs, [header], Scope(c, sts, true), header);
      qss := xs + [header];
    } else {
      qss := [header];
      assert [] + [Header(outer, def)] == [Header(outer, def)] && [] + header == header;
    }
  }

  /** A scope's chunks are those of its parts, in order, and nothing else. */
  lemma {:induction false} ScopeParts(c: Context, sts: seq<Node>, inClass: bool) returns (qss: seq<seq<Piece>>)
    requires AllInSource(c, sts)
    ensures Composed(c, Parts(sts, inClass), qss, Scope(c, sts, inClass))
    decreases sts, 2, |sts|
  {
    if sts == [] {
      qss := [];
    } else {
      var n := |sts| - 1;
      var xs := ScopeParts(c, sts[..n], inClass);
      var ys := DefinitionParts(c, sts[n], inClass);
      hide Composed, Definition, PartsOf;
      ComposedConcat(c, Parts(sts[..n], inClass), PartsOf(sts[n], inClass), xs, ys,
                     Scope(c, sts[..n], inClass), Definition(c, sts[n], inClass));
      qss := xs + ys;
    }
  }

  /** An unmerged file is exactly its parts' chunks, in order, each part cut as it must be. */
  lemma FileIsItsParts(c: Context, root: Node) returns (qss: seq<seq<Piece>>)
    requires InSource(c, root)
    ensures Composed(c, Parts(root.children, false), qss, FilePieces(c, root))
  {
    qss := ScopeParts(c, root.children, false);
  }

  // ------------------------------------------------- functions that fit stay whole

  lemma {:induction false} UnitsArePartsOf(st: Node, inClass: bool, u: Unit)
    ensures u in UnitsOf(st, inClass) <==> Fn(u) in PartsOf(st, inClass)
    decreases st, 0, 0
  {
    if Resolve(st).Some? && !Resolve(st).value.kind.FunctionDefinition? && Field(Resolve(st).value).Some? {
      UnitsAreParts(Field(Resolve(st).value).value.children, true, u);
    }
  }

  lemma {:induction false} UnitsAreParts(sts: seq<Node>, inClass: bool, u: Unit)
    ensures u in Units(sts, inClass) <==> Fn(u) in Parts(sts, inClass)
    decreases sts, 1, |sts|
  {
    if sts != [] {
      UnitsAreParts(sts[..|sts| - 1], inClass, u);
      UnitsArePartsOf(sts[|sts| - 1], inClass, u);
    }
  }

  lemma {:induction false} InFlatten(qss: seq<seq<Piece>>, i: nat, q: Piece) returns (j: nat)
    requires i < |qss| && q in qss[i]
    ensures j < |Flatten(qss)| && Flatten(qss)[j] == q
    decreases |qss|
  {
    var n := |qss| - 1;
    if i < n {
      j := InFlatten(qss[..n], i, q);
    } else {
      var k :| 0 <= k < |qss[n]| && qss[n][k] == q;
      j := |Flatten(qss[..n])| + k;
    }
  }

  /** The chunk at j is the function's, whole, and no other chunk answers for any of it. */
  predicate WholeAt(ps: seq<Piece>, u: Unit, j: nat) {
    && j < |ps| && ps[j] == Exactly(u.outer.start, u.outer.end, u.kind)
    && forall i :: 0 <= i < |ps| && i != j && !ps[i].raw.kind.ClassHeader? ==>
         ps[i].raw.end <= u.outer.start || u.outer.end <= ps[i].core
  }

  /**
   * A function that fits the budget stays whole: exactly one chunk of an unmerged file is its
   * whole span, none other answers for a byte of it, and after merging one chunk spans it.
   */
  lemma FittingFunctionsStayWhole(c: Context, root: Node, u: Unit)
    requires InSource(c, root) && u in Units(root.children, false)
    requires u.outer.start <= u.outer.end <= |c.src| && Fits(c, u.outer.start, u.outer.end)
    ensures exists j :: WholeAt(FilePieces(c, root), u, j)
    ensures forall i, j :: WholeAt(FilePieces(c, root), u, i) && WholeAt(FilePieces(c, root), u, j) ==> i == j
    ensures exists r :: r in FileChunks(c, root, true) && r.kind == u.kind && r.content == ""
                        && r.start <= u.outer.start && u.outer.end <= r.end
  {
    var ps := FilePieces(c, root);
    var j := WholePiece(c, root, u);
    UnitKind(root.children, false, u);
    ScopeSound(c, root.children, false, root.start, root.end);
    BandedAscends(ps, root.start, root.end);
    MergeHouses(c, ps);
    hide FilePieces, Scope, Units, Owed, Within, Merged, Pays, AllWithin;
    forall i | 0 <= i < |ps| && i != j && !ps[i].raw.kind.ClassHeader?
      ensures ps[i].raw.end <= u.outer.start || u.outer.end <= ps[i].core
    {
      assert if i < j then Apart(ps[i], ps[j]) else Apart(ps[j], ps[i]);
    }
    assert WholeAt(ps, u, j);
    var acc := Merged(c, Raw(ps));
    assert Housed(acc, ps[j]);
    var k :| 0 <= k < |acc| && HomeOf(acc[k], ps[j]);
    assert acc[k] in FileChunks(c, root, true);
    forall a, b | WholeAt(ps, u, a) && WholeAt(ps, u, b)
      ensures a == b
    {
    }
  }

  lemma WholePiece(c: Context, root: Node, u: Unit) returns (j: nat)
    requires InSource(c, root) && u in Units(root.children, false)
    requires u.outer.start <= u.outer.end <= |c.src| && Fits(c, u.outer.start, u.outer.end)
    ensures j < |FilePieces(c, root)| && FilePieces(c, root)[j] == Exactly(u.outer.start, u.outer.end, u.kind)
    ensures u.outer.start < u.outer.end
  {
    var qss := FileIsItsParts(c, root);
    UnitsAreParts(root.children, false, u);
    hide FilePieces, Units, Parts;
    var i :| 0 <= i < |Parts(root.children, false)| && Parts(root.children, false)[i] == Fn(u);
    assert Shaped(c, Fn(u), qss[i]);
    hide Itemized, Emits;
    j := InFlatten(qss, i, Exactly(u.outer.start, u.outer.end, u.kind));
  }

  // ------------------------------------------------------------- class headers

  /** r is s without its trailing characters of the cut set, all of them and no others. */
  predicate Trimmed(s: string, cutset: string, r: string) {
    && r <= s && (r != "" ==> r[|r| - 1] !in cutset)
    && forall k :: |r| <= k < |s| ==> s[k] in cutset
  }

  lemma {:induction false} TrimRightTrims(s: string, cutset: string)
    ensures Trimmed(s, cutset, TrimRight(s, cutset))
  {
    if s != "" && s[|s| - 1] in cutset {
      TrimRightTrims(s[..|s| - 1], cutset);
    }
  }

  /** The lines before member i's are those of the members before it. */
  lemma {:induction false} LinesHoldLine(c: Context, sts: seq<Node>, i: nat) returns (after: string)
    requires AllInSource(c, sts) && i < |sts|
    ensures HeaderLines(c, sts) == HeaderLines(c, sts[..i]) + HeaderLine(c, sts[i]) + after
    decreases |sts|
  {
    var n := |sts| - 1;
    assert HeaderLines(c, sts) == HeaderLines(c, sts[..n]) + HeaderLine(c, sts[n]);
    hide HeaderLines, HeaderLine, InSource;
    if i == n {
      after := "";
      assert HeaderLines(c, sts) == HeaderLines(c, sts) + "";
    } else {
      var rest := LinesHoldLine(c, sts[..n], i);
      assert sts[..n][..i] == sts[..i];
      after := rest + HeaderLine(c, sts[n]);
      Associate(HeaderLines(c, sts[..i]) + HeaderLine(c, sts[i]), rest, HeaderLine(c, sts[n]));
    }
  }

  /** line is the four-space indented signature of a member, decorators included. */
  ghost predicate SignatureLine(c: Context, st: Node, def: Node, line: string) {
    exists sig: string :: line == "\n    " + sig + " ..." && SignatureText(c, st, def, sig)
  }

  predicate SignatureText(c: Context, st: Node, def: Node, sig: string) {
    var end := match Field(def) case None => def.end case Some(body) => body.start;
    st.start <= end <= |c.src| && Trimmed(c.src[st.start..end], " \t\n:", sig)
  }

  /**
   * A class header begins with the declaration, trimmed of blanks, and names every member
   * function and class, in order, by its signature.
   */
  lemma HeaderNamesItsMembers(c: Context, outer: Node, def: Node, i: nat)
    requires Placed(c, outer, def) && Field(def).Some? && i < |Field(def).value.children|
    ensures InSource(c, Field(def).value.children[i])
    ensures exists decl: string, before: string, after: string ::
      NamesMember(c, outer, def, Field(def).value.children[i], decl, before, after)
  {
    FieldInside(c, def);
    var decl := HeaderSplits(c, outer, def);
    var sts := Field(def).value.children;
    hide HeaderText, Trimmed, WellFormed, Ordered, HeaderLines, HeaderLine;
    var after := LinesHoldLine(c, sts, i);
    var before, line := HeaderLines(c, sts[..i]), HeaderLine(c, sts[i]);
    if Resolve(sts[i]).Some? {
      MemberLine(c, sts[i]);
    } else {
      OtherLine(c, sts[i]);
    }
    hide SignatureLine, AttributeLine, Resolve;
    Associate(decl, before + line, after);
    Associate(decl, before, line);
    assert NamesMember(c, outer, def, sts[i], decl, before, after);
  }

  lemma HeaderSplits(c: Context, outer: Node, def: Node) returns (decl: string)
    requires Placed(c, outer, def) && Field(def).Some?
    ensures var body := Field(def).value;
      && outer.start <= body.start <= |c.src| && AllInSource(c, body.children)
      && Trimmed(c.src[outer.start..body.start], BLANKS, decl)
      && HeaderText(c, outer, def) == decl + HeaderLines(c, body.children)
  {
    FieldInside(c, def);
    var body := Field(def).value;
    decl := TrimRight(c.src[outer.start..body.start], BLANKS);
    TrimRightTrims(c.src[outer.start..body.start], BLANKS);
    hide TrimRight, Trimmed, HeaderLines, WellFormed;
  }

  /** The header is the trimmed declaration, what precedes st's line, that line, and what follows. */
  ghost predicate NamesMember(c: Context, outer: Node, def: Node, st: Node, decl: string, before: string, after: string)
    requires InSource(c, st) && InSource(c, outer) && InSource(c, def) && outer.start <= def.start
  {
    && Field(def).Some? && outer.start <= Field(def).value.start <= |c.src|
    && Trimmed(c.src[outer.start..Field(def).value.start], BLANKS, decl)
    && HeaderText(c, outer, def) == decl + before + HeaderLine(c, st) + after
    && (Resolve(st).Some? ==> SignatureLine(c, st, Resolve(st).value, HeaderLine(c, st)))
    && (Resolve(st).None? ==> HeaderLine(c, st) == AttributeLine(c, st))
  }

  /** A docstring's line is its flattened text, an assignment's its own; anything else has none. */
  function AttributeLine(c: Context, st: Node): string
    requires InSource(c, st)
  {
    if !st.kind.ExpressionStatement? || st.children == [] then ""
    else
      match st.children[0].kind
      case StringLiteral => "\n    " + c.collapse(c.src[st.start..st.end])
      case Assignment => "\n    " + c.src[st.start..st.end]
      case _ => ""
  }

  lemma OtherLine(c: Context, st: Node)
    requires InSource(c, st) && Resolve(st).None?
    ensures HeaderLine(c, st) == AttributeLine(c, st)
  {
  }

  lemma MemberLine(c: Context, st: Node)
    requires InSource(c, st) && Resolve(st).Some?
    ensures SignatureLine(c, st, Resolve(st).value, HeaderLine(c, st))
  {
    ResolveInside(c, st);
    var def := Resolve(st).value;
    var sig := TrimRight(c.src[st.start..DeclEnd(c, def)], " \t\n:");
    TrimRightTrims(c.src[st.start..DeclEnd(c, def)], " \t\n:");
    assert SignatureText(c, st, def, sig);
    assert HeaderLine(c, st) == "\n    " + (sig + " ...") == "\n    " + sig + " ...";
  }

  // --------------------------------------------------------------------- kinds

  lemma {:induction false} ClassUnitsAreMethodsOf(st: Node, u: Unit)
    requires u in UnitsOf(st, true)
    ensures u.kind.MethodChunk?
    decreases st, 0, 0
  {
    if !Resolve(st).value.kind.FunctionDefinition? {
      ClassUnitsAreMethods(Field(Resolve(st).value).value.children, u);
    }
  }

  lemma {:induction false} ClassUnitsAreMethods(sts: seq<Node>, u: Unit)
    requires u in Units(sts, true)
    ensures u.kind.MethodChunk?
    decreases sts, 1, |sts|
  {
    if u in Units(sts[..|sts| - 1], true) {
      ClassUnitsAreMethods(sts[..|sts| - 1], u);
    } else {
      ClassUnitsAreMethodsOf(sts[|sts| - 1], u);
    }
  }

  /** A module's own functions are functions; every function of a class, at any depth, is a method. */
  lemma {:induction false} KindsSayWhere(sts: seq<Node>, u: Unit)
    requires u in Units(sts, false)
    ensures if exists i :: 0 <= i < |sts| && u.outer == sts[i] && Resolve(sts[i]) == Some(u.def)
                           && u.def.kind.FunctionDefinition? && u.kind.FunctionChunk?
            then true else u.kind.MethodChunk?
    decreases |sts|
  {
    var n := |sts| - 1;
    if u in Units(sts[..n], false) {
      KindsSayWhere(sts[..n], u);
      if i :| 0 <= i < n && u.outer == sts[..n][i] && Resolve(sts[..n][i]) == Some(u.def)
              && u.def.kind.FunctionDefinition? && u.kind.FunctionChunk? {
        assert u.outer == sts[i];
      }
    } else if !Resolve(sts[n]).value.kind.FunctionDefinition? {
      ClassUnitsAreMethods(Field(Resolve(sts[n]).value).value.children, u);
    }
  }
}
