/** Packing neighbours of the same kind, as a pure fold; then the file as a whole. */
module Merging {
  import opened Basics
  import opened Lines
  import opened Chunks
  import opened ChunkTheorems

  /**
   * Both verbatim, of one kind, and the union fits. The guard on the bounds never decides
   * anything in a file: MergeNeverSlicesBackwards.
   */
  predicate CanMerge(c: Context, prev: RawChunk, cur: RawChunk) {
    && cur.content == "" && prev.content == "" && cur.kind == prev.kind
    && prev.start <= cur.end <= |c.src| && Fits(c, prev.start, cur.end)
  }

  function MergeStep(c: Context, acc: seq<RawChunk>, cur: RawChunk): (r: seq<RawChunk>)
    requires acc != []
    ensures r != [] && |r| <= |acc| + 1
  {
    var last := |acc| - 1;
    if CanMerge(c, acc[last], cur) then acc[last := acc[last].(end := cur.end)] else acc + [cur]
  }

  function Merged(c: Context, chunks: seq<RawChunk>): (r: seq<RawChunk>)
    ensures |r| <= |chunks| && (chunks != [] ==> r != [])
  {
    if |chunks| < 2 then chunks
    else MergeStep(c, Merged(c, chunks[..|chunks| - 1]), chunks[|chunks| - 1])
  }

  /** The class headers of a chunk list, in order. */
  function Synthesized(chunks: seq<RawChunk>): seq<RawChunk> {
    if chunks == [] then []
    else
      var last := chunks[|chunks| - 1];
      Synthesized(chunks[..|chunks| - 1]) + if last.content != "" then [last] else []
  }

  lemma SynthesizedStep(c: Context, acc: seq<RawChunk>, cur: RawChunk)
    requires acc != []
    ensures Synthesized(MergeStep(c, acc, cur)) == Synthesized(acc + [cur])
  {
    var last := |acc| - 1;
    assert (acc + [cur])[..|acc|] == acc;
    if CanMerge(c, acc[last], cur) {
      assert MergeStep(c, acc, cur)[..last] == acc[..last];
    }
  }

  /** Merging leaves every synthesized chunk unchanged and in order, and drops none. */
  lemma {:induction false} MergeKeepsHeaders(c: Context, chunks: seq<RawChunk>)
    ensures Synthesized(Merged(c, chunks)) == Synthesized(chunks)
  {
    if |chunks| >= 2 {
      var n := |chunks| - 1;
      MergeKeepsHeaders(c, chunks[..n]);
      var acc := Merged(c, chunks[..n]);
      SynthesizedStep(c, acc, chunks[n]);
      assert (acc + [chunks[n]])[..|acc|] == acc;
    }
  }

  // ------------------------------------------------------------ coverage survives

  /** Chunk r answers for everything piece q answered for. */
  predicate HomeOf(r: RawChunk, q: Piece) {
    r.kind == q.raw.kind && r.content == "" && r.start <= q.core && q.raw.end <= r.end
  }

  predicate Housed(acc: seq<RawChunk>, q: Piece) {
    q.raw.kind.ClassHeader? || exists j :: 0 <= j < |acc| && HomeOf(acc[j], q)
  }

  /** The last chunk stands for the last piece and ends where it ends. */
  predicate LastIs(acc: seq<RawChunk>, q: Piece) {
    acc != [] && var r := acc[|acc| - 1];
    r.kind == q.raw.kind && (!q.raw.kind.ClassHeader? ==> HomeOf(r, q) && r.end == q.raw.end)
  }

  /** Verbatim ranges whose bounds both ascend, disjoint or not. */
  predicate Before(a: Piece, b: Piece) {
    a.raw.kind.ClassHeader? || b.raw.kind.ClassHeader? || (a.core <= b.core && a.raw.end <= b.raw.end)
  }

  predicate Verbatims(q: Piece) {
    q.raw.kind.ClassHeader? || (q.raw.start <= q.core <= q.raw.end && q.raw.content == "")
  }

  predicate Ascending(ps: seq<Piece>) {
    && (forall i :: 0 <= i < |ps| ==> Verbatims(ps[i]))
    && (forall i, j :: 0 <= i < j < |ps| ==> Before(ps[i], ps[j]))
  }

  lemma BandedAscends(ps: seq<Piece>, lo: nat, hi: nat)
    requires Banded(ps, lo, hi)
    ensures Ascending(ps)
  {
    forall i | 0 <= i < |ps|
      ensures Verbatims(ps[i])
    {
      assert InBand(ps[i], lo, hi);
    }
    forall i, j | 0 <= i < j < |ps|
      ensures Before(ps[i], ps[j])
    {
      assert Apart(ps[i], ps[j]) && InBand(ps[i], lo, hi) && InBand(ps[j], lo, hi);
    }
  }

  lemma StepHouses(c: Context, acc: seq<RawChunk>, prev: Piece, q: Piece, older: Piece)
    requires LastIs(acc, prev) && Before(prev, q) && Housed(acc, older)
    requires q.raw.kind.ClassHeader? || (q.raw.start <= q.core && q.raw.content == "")
    ensures Housed(MergeStep(c, acc, q.raw), older)
    ensures Housed(MergeStep(c, acc, q.raw), q) && LastIs(MergeStep(c, acc, q.raw), q)
  {
    var last, r := |acc| - 1, MergeStep(c, acc, q.raw);
    if !q.raw.kind.ClassHeader? {
      assert HomeOf(r[|r| - 1], q);
    }
    if !older.raw.kind.ClassHeader? {
      var j :| 0 <= j < |acc| && HomeOf(acc[j], older);
      assert HomeOf(r[j], older);
    }
  }

  lemma AscendingInit(ps: seq<Piece>)
    requires Ascending(ps) && |ps| >= 2
    ensures var n := |ps| - 1;
      && Ascending(ps[..n]) && Verbatims(ps[n]) && Before(ps[n - 1], ps[n])
  {
  }

  /** Every piece has a home after merging: a chunk of its kind that spans all it answers for. */
  lemma {:induction false} MergeHouses(c: Context, ps: seq<Piece>)
    requires Ascending(ps)
    ensures var acc := Merged(c, Raw(ps));
      && (forall i :: 0 <= i < |ps| ==> Housed(acc, ps[i]))
      && (ps != [] ==> LastIs(acc, ps[|ps| - 1]))
  {
    if ps == [] {
    } else if |ps| == 1 {
      assert Verbatims(ps[0]);
      assert Raw(ps)[0] == ps[0].raw;
      assert ps[0].raw.kind.ClassHeader? || HomeOf(Raw(ps)[0], ps[0]);
    } else {
      AscendingInit(ps);
      hide Merged, MergeStep, Ascending, LastIs, Housed, Raw, HomeOf;
      var n := |ps| - 1;
      MergeHouses(c, ps[..n]);
      MergedUnfolds(c, ps);
      HousesGrow(c, Merged(c, Raw(ps[..n])), ps[..n], ps[n]);
      forall i | 0 <= i < |ps|
        ensures Housed(Merged(c, Raw(ps)), ps[i])
      {
        assert i < n ==> ps[i] == ps[..n][i];
      }
    }
  }

  lemma HousesGrow(c: Context, acc: seq<RawChunk>, ps: seq<Piece>, q: Piece)
    requires ps != [] && acc != [] && Verbatims(q) && Before(ps[|ps| - 1], q)
    requires LastIs(acc, ps[|ps| - 1])
    requires forall i :: 0 <= i < |ps| ==> Housed(acc, ps[i])
    ensures var r := MergeStep(c, acc, q.raw);
      && (forall i :: 0 <= i < |ps| ==> Housed(r, ps[i]))
      && Housed(r, q) && LastIs(r, q)
  {
    hide MergeStep, LastIs, Housed, Before;
    forall i | 0 <= i < |ps|
      ensures Housed(MergeStep(c, acc, q.raw), ps[i])
    {
      StepHouses(c, acc, ps[|ps| - 1], q, ps[i]);
    }
    StepHouses(c, acc, ps[|ps| - 1], q, ps[|ps| - 1]);
  }

  lemma MergedUnfolds(c: Context, ps: seq<Piece>)
    requires |ps| >= 2
    ensures var n := |ps| - 1;
      Merged(c, Raw(ps[..n])) != [] && Merged(c, Raw(ps)) == MergeStep(c, Merged(c, Raw(ps[..n])), ps[n].raw)
  {
    assert Raw(ps)[..|ps| - 1] == Raw(ps[..|ps| - 1]);
  }

  lemma StepWithin(c: Context, acc: seq<RawChunk>, q: RawChunk, us: seq<Unit>)
    requires acc != [] && Within(c, q, us)
    requires forall j :: 0 <= j < |acc| ==> Within(c, acc[j], us)
    ensures forall j :: 0 <= j < |MergeStep(c, acc, q)| ==> Within(c, MergeStep(c, acc, q)[j], us)
  {
    if CanMerge(c, acc[|acc| - 1], q) {
      assert Within(c, acc[|acc| - 1], us);
      JoinedWithin(c, acc[|acc| - 1], q, us);
      hide Within, CanMerge;
    } else {
      hide Within, CanMerge;
    }
  }

  lemma JoinedWithin(c: Context, prev: RawChunk, q: RawChunk, us: seq<Unit>)
    requires Within(c, prev, us) && Within(c, q, us) && CanMerge(c, prev, q)
    ensures Within(c, prev.(end := q.end), us)
  {
    hide SingleLine;
  }

  lemma {:induction false} MergeWithin(c: Context, ps: seq<Piece>, us: seq<Unit>)
    requires AllWithin(c, ps, us)
    ensures forall j :: 0 <= j < |Merged(c, Raw(ps))| ==> Within(c, Merged(c, Raw(ps))[j], us)
  {
    hide Within, Rooted, MergeStep;
    if |ps| >= 2 {
      var n := |ps| - 1;
      MergeWithin(c, ps[..n], us);
      MergedUnfolds(c, ps);
      hide Merged;
      StepWithin(c, Merged(c, Raw(ps[..n])), ps[n].raw, us);
    } else {
      assert forall j :: 0 <= j < |ps| ==> Raw(ps)[j] == ps[j].raw;
    }
  }

  /** Ranges whose starts and ends both ascend: merging then uncovers no byte at all. */
  lemma OrderedMergeUncoversNothing(c: Context, chunks: seq<RawChunk>, kind: ChunkKind, p: nat)
    requires forall i :: 0 <= i < |chunks| ==>
      chunks[i].start <= chunks[i].end && (chunks[i].content == "" || chunks[i].kind.ClassHeader?)
    requires forall i, j :: 0 <= i < j < |chunks| ==>
      chunks[i].start <= chunks[j].start && chunks[i].end <= chunks[j].end
    requires CoversByte(chunks, kind, p) && !kind.ClassHeader?
    ensures CoversByte(Merged(c, chunks), kind, p)
  {
    var ps := Map((r: RawChunk) => Piece(r, r.start), chunks);
    assert Raw(ps) == chunks;
    MergeHouses(c, ps);
    hide Merged;
    var i :| 0 <= i < |chunks| && HoldsByte(chunks[i], kind, p);
    assert Housed(Merged(c, Raw(ps)), ps[i]);
  }

  predicate Holds(r: RawChunk, p: nat) {
    r.start <= p < r.end
  }

  /** For two mergeable non-empty ranges, nothing is lost exactly when both bounds ascend. */
  lemma PairKeepsBytesIffOrdered(prev: RawChunk, cur: RawChunk)
    requires prev.start < prev.end && cur.start < cur.end
    ensures (forall p: nat :: Holds(prev, p) || Holds(cur, p) ==> Holds(prev.(end := cur.end), p))
       <==> prev.start <= cur.start && prev.end <= cur.end
  {
    if forall p: nat :: Holds(prev, p) || Holds(cur, p) ==> Holds(prev.(end := cur.end), p) {
      assert Holds(cur, cur.start) && Holds(prev, prev.end - 1);
    }
  }

  // ----------------------------------------------------------------- whole files

  function FilePieces(c: Context, root: Node): seq<Piece>
    requires InSource(c, root)
  {
    Scope(c, root.children, false)
  }

  function FileChunks(c: Context, root: Node, merge: bool): seq<RawChunk>
    requires InSource(c, root)
  {
    var raw := Raw(FilePieces(c, root));
    if merge then Merged(c, raw) else raw
  }

  predicate CoversByte(chunks: seq<RawChunk>, kind: ChunkKind, p: nat) {
    exists j :: 0 <= j < |chunks| && HoldsByte(chunks[j], kind, p)
  }

  predicate HoldsByte(r: RawChunk, kind: ChunkKind, p: nat) {
    r.kind == kind && r.content == "" && r.start <= p < r.end
  }

  /**
   * The chunker loses nothing and respects the budget, merged or not: every byte of every
   * reachable function's signature and body statements lies in a chunk of its kind, and
   * every chunk fits unless it is a split signature, a single physical line, or a class
   * header cut to its first line.
   */
  lemma FileLosesNothing(c: Context, root: Node, merge: bool)
    requires InSource(c, root)
    ensures var us, chunks := Units(root.children, false), FileChunks(c, root, merge);
      && (forall u, p: nat :: u in us && Owed(u, p) ==> CoversByte(chunks, u.kind, p))
      && (forall j :: 0 <= j < |chunks| ==> Within(c, chunks[j], us))
  {
    var us, ps, chunks := Units(root.children, false), FilePieces(c, root), FileChunks(c, root, merge);
    ScopeSound(c, root.children, false, root.start, root.end);
    hide Scope, Units, Owed, Within;
    if merge {
      BandedAscends(ps, root.start, root.end);
      MergeHouses(c, ps);
      MergeWithin(c, ps, us);
    }
    hide Merged;
    forall u, p: nat | u in us && Owed(u, p)
      ensures CoversByte(chunks, u.kind, p)
    {
      UnitKind(root.children, false, u);
      PieceCovers(ps, chunks, u.kind, p, merge, root.start, root.end);
    }
    assert !merge ==> forall j :: 0 <= j < |chunks| ==> chunks[j] == ps[j].raw;
  }

  /**
   * In a file's own chunks the bounds a merge slices by are always in order, so the guard
   * CanMerge carries on them never decides anything there.
   */
  lemma MergeNeverSlicesBackwards(c: Context, root: Node, k: nat)
    requires InSource(c, root) && 0 < k < |FilePieces(c, root)|
    ensures var raw := Raw(FilePieces(c, root));
      var prev := Merged(c, raw[..k])[|Merged(c, raw[..k])| - 1];
      prev.kind == raw[k].kind && !prev.kind.ClassHeader? ==> prev.start <= raw[k].end <= |c.src|
  {
    var ps := FilePieces(c, root);
    ScopeSound(c, root.children, false, root.start, root.end);
    hide FilePieces, Scope, Units, Owed, Within;
    BandedAscends(ps, root.start, root.end);
    MergeHouses(c, ps[..k]);
    assert Raw(ps)[..k] == Raw(ps[..k]);
    assert Apart(ps[k - 1], ps[k]) && InBand(ps[k - 1], root.start, root.end) && InBand(ps[k], root.start, root.end);
  }

  /**
   * Two chunks of an unmerged file never answer for the same byte; the only bytes they can
   * share lie on a line before the line-split statement that the later one starts with. They
   * do share one if and only if that line begins before the earlier chunk ends.
   */
  lemma FileChunksDisjoint(c: Context, root: Node, i: nat, j: nat)
    requires InSource(c, root) && i < j < |FilePieces(c, root)|
    requires !FilePieces(c, root)[i].raw.kind.ClassHeader? && !FilePieces(c, root)[j].raw.kind.ClassHeader?
    ensures var a, b := FilePieces(c, root)[i], FilePieces(c, root)[j];
      && a.core <= a.raw.end <= b.core <= b.raw.end <= |c.src|
      && (forall p: nat :: Holds(a.raw, p) && Holds(b.raw, p) ==> LineBegin(c.src, b.core) <= p < b.core)
      && (b.raw.start == b.core || b.raw.start == LineBegin(c.src, b.core))
      && (a.raw.start < a.raw.end ==>
            ((exists p: nat :: Holds(a.raw, p) && Holds(b.raw, p)) <==> b.raw.start < a.raw.end))
  {
    var ps := FilePieces(c, root);
    ScopeSound(c, root.children, false, root.start, root.end);
    hide FilePieces, Scope, Units, Owed, Within;
    assert Apart(ps[i], ps[j]) && InBand(ps[i], root.start, root.end) && InBand(ps[j], root.start, root.end);
    assert Rooted(c, ps[j]);
    var a, b := ps[i].raw, ps[j].raw;
    if a.start < a.end && b.start < a.end {
      assert Holds(a, a.end - 1) && Holds(b, a.end - 1);
    }
  }

  lemma PieceCovers(ps: seq<Piece>, chunks: seq<RawChunk>, kind: ChunkKind, p: nat, merge: bool, lo: nat, hi: nat)
    requires Covers(ps, kind, p) && !kind.ClassHeader? && Banded(ps, lo, hi)
    requires if merge then forall i :: 0 <= i < |ps| ==> Housed(chunks, ps[i]) else chunks == Raw(ps)
    ensures CoversByte(chunks, kind, p)
  {
    var i :| 0 <= i < |ps| && Answers(ps[i], kind, p);
    assert InBand(ps[i], lo, hi);
    if merge {
      assert Housed(chunks, ps[i]);
      var j :| 0 <= j < |chunks| && HomeOf(chunks[j], ps[i]);
      assert chunks[j].start <= p < chunks[j].end;
    } else {
      assert chunks[i] == ps[i].raw;
    }
  }

  lemma {:induction false} UnitKindOf(st: Node, inClass: bool, u: Unit)
    requires u in UnitsOf(st, inClass)
    ensures !u.kind.ClassHeader?
    decreases st, 0, 0
  {
    if Resolve(st).Some? && !Resolve(st).value.kind.FunctionDefinition? {
      UnitKind(Field(Resolve(st).value).value.children, true, u);
    }
  }

  lemma {:induction false} UnitKind(sts: seq<Node>, inClass: bool, u: Unit)
    requires u in Units(sts, inClass)
    ensures !u.kind.ClassHeader?
    decreases sts, 1, |sts|
  {
    if u in Units(sts[..|sts| - 1], inClass) {
      UnitKind(sts[..|sts| - 1], inClass, u);
    } else {
      UnitKindOf(sts[|sts| - 1], inClass, u);
    }
  }

  // ------------------------------------------------------------------ greediness

  /** Where run j of the raw chunks ends. */
  function CutAfter(cuts: seq<nat>, j: nat, n: nat): nat
    requires j < |cuts|
  {
    if j + 1 < |cuts| then cuts[j + 1] else n
  }

  /**
   * r[j] is the run of raw chunks from cuts[j] on, joined one by one while they could be, and
   * the raw chunk that begins the next run could not be joined to it.
   */
  predicate Cut(c: Context, chunks: seq<RawChunk>, r: seq<RawChunk>, cuts: seq<nat>) {
    && |cuts| == |r| && (cuts != [] ==> cuts[0] == 0)
    && (forall j :: 0 <= j < |cuts| ==> cuts[j] < CutAfter(cuts, j, |chunks|) <= |chunks|)
    && (forall j :: 0 <= j < |cuts| ==> RunOf(c, chunks, cuts[j], CutAfter(cuts, j, |chunks|), r[j]))
    && (forall j :: 0 < j < |cuts| ==> cuts[j] < |chunks| && !CanMerge(c, r[j - 1], chunks[cuts[j]]))
  }

  /** x is chunks a..b joined: each could join what came before it, and nothing but the end moved. */
  predicate RunOf(c: Context, chunks: seq<RawChunk>, a: nat, b: nat, x: RawChunk) {
    && a < b <= |chunks| && x == chunks[a].(end := chunks[b - 1].end)
    && forall k :: a < k < b ==> CanMerge(c, chunks[a].(end := chunks[k - 1].end), chunks[k])
  }

  lemma RunInLonger(c: Context, chunks: seq<RawChunk>, q: RawChunk, a: nat, b: nat, x: RawChunk)
    requires RunOf(c, chunks, a, b, x)
    ensures RunOf(c, chunks + [q], a, b, x)
  {
    hide CanMerge;
  }

  lemma RunGrows(c: Context, chunks: seq<RawChunk>, q: RawChunk, a: nat, x: RawChunk)
    requires RunOf(c, chunks, a, |chunks|, x) && CanMerge(c, x, q)
    ensures RunOf(c, chunks + [q], a, |chunks| + 1, x.(end := q.end))
  {
    hide CanMerge;
  }

  lemma CutAt(c: Context, chunks: seq<RawChunk>, r: seq<RawChunk>, cuts: seq<nat>, j: nat)
    requires Cut(c, chunks, r, cuts) && j < |cuts|
    ensures |cuts| == |r| && cuts[j] < CutAfter(cuts, j, |chunks|) <= |chunks|
    ensures RunOf(c, chunks, cuts[j], CutAfter(cuts, j, |chunks|), r[j])
    ensures j > 0 ==> !CanMerge(c, r[j - 1], chunks[cuts[j]])
  {
    hide RunOf, CanMerge;
  }

  /** q joins the last run. */
  lemma JoinedCut(c: Context, chunks: seq<RawChunk>, q: RawChunk, r: seq<RawChunk>, cuts: seq<nat>)
    requires r != [] && Cut(c, chunks, r, cuts) && CanMerge(c, r[|r| - 1], q)
    ensures Cut(c, chunks + [q], r[|r| - 1 := r[|r| - 1].(end := q.end)], cuts)
  {
    var n, last, all := |chunks|, |r| - 1, chunks + [q];
    var out := r[last := r[last].(end := q.end)];
    assert |cuts| == |r| && cuts[0] == 0;
    forall j | 0 <= j < |cuts|
      ensures cuts[j] < CutAfter(cuts, j, |all|) <= |all|
      ensures RunOf(c, all, cuts[j], CutAfter(cuts, j, |all|), out[j])
      ensures j > 0 ==> !CanMerge(c, out[j - 1], all[cuts[j]])
    {
      hide Cut, RunOf, CanMerge;
      CutAt(c, chunks, r, cuts, j);
      if j < last {
        RunInLonger(c, chunks, q, cuts[j], cuts[j + 1], r[j]);
      } else {
        RunGrows(c, chunks, q, cuts[j], r[j]);
      }
    }
    hide RunOf, CanMerge;
  }

  lemma OpenedCutAt(c: Context, chunks: seq<RawChunk>, q: RawChunk, r: seq<RawChunk>, cuts: seq<nat>, j: nat)
    requires r != [] && Cut(c, chunks, r, cuts) && !CanMerge(c, r[|r| - 1], q) && j <= |cuts| == |r|
    ensures var next, out, all := cuts + [|chunks|], r + [q], chunks + [q];
      && next[j] < CutAfter(next, j, |all|) <= |all|
      && RunOf(c, all, next[j], CutAfter(next, j, |all|), out[j])
      && (j > 0 ==> !CanMerge(c, out[j - 1], all[next[j]]))
  {
    var next, n := cuts + [|chunks|], |chunks|;
    hide Cut, RunOf, CanMerge;
    if j < |cuts| {
      CutAt(c, chunks, r, cuts, j);
      assert CutAfter(next, j, n + 1) == CutAfter(cuts, j, n);
      RunInLonger(c, chunks, q, cuts[j], CutAfter(cuts, j, n), r[j]);
    } else {
      NewRun(c, chunks, q);
    }
  }

  lemma CutStarts(c: Context, chunks: seq<RawChunk>, r: seq<RawChunk>, cuts: seq<nat>)
    requires Cut(c, chunks, r, cuts)
    ensures |cuts| == |r| && (cuts != [] ==> cuts[0] == 0)
  {
    hide RunOf, CanMerge, CutAfter;
  }

  /** q begins a new run. */
  lemma OpenedCut(c: Context, chunks: seq<RawChunk>, q: RawChunk, r: seq<RawChunk>, cuts: seq<nat>)
    requires r != [] && Cut(c, chunks, r, cuts) && !CanMerge(c, r[|r| - 1], q)
    ensures Cut(c, chunks + [q], r + [q], cuts + [|chunks|])
  {
    var next, out, all := cuts + [|chunks|], r + [q], chunks + [q];
    CutStarts(c, chunks, r, cuts);
    forall j | 0 <= j < |next|
      ensures next[j] < CutAfter(next, j, |all|) <= |all|
      ensures RunOf(c, all, next[j], CutAfter(next, j, |all|), out[j])
      ensures j > 0 ==> !CanMerge(c, out[j - 1], all[next[j]])
    {
      hide Cut, RunOf, CanMerge, CutAfter;
      OpenedCutAt(c, chunks, q, r, cuts, j);
    }
    hide RunOf, CanMerge, CutAfter;
  }

  lemma NewRun(c: Context, chunks: seq<RawChunk>, q: RawChunk)
    ensures RunOf(c, chunks + [q], |chunks|, |chunks| + 1, q)
  {
  }

  lemma CutFew(c: Context, chunks: seq<RawChunk>) returns (cuts: seq<nat>)
    requires |chunks| < 2
    ensures Cut(c, chunks, Merged(c, chunks), cuts)
  {
    cuts := [];
    if |chunks| == 1 {
      cuts := [0];
      NewRun(c, [], chunks[0]);
      assert [] + [chunks[0]] == chunks;
      hide RunOf, CanMerge;
    }
  }

  lemma MergedSnoc(c: Context, chunks: seq<RawChunk>)
    requires |chunks| >= 2
    ensures var init, q := chunks[..|chunks| - 1], chunks[|chunks| - 1];
      var r := Merged(c, init);
      && r != [] && chunks == init + [q]
      && Merged(c, chunks) ==
         if CanMerge(c, r[|r| - 1], q) then r[|r| - 1 := r[|r| - 1].(end := q.end)] else r + [q]
  {
    hide CanMerge;
  }

  /** Merging is greedy: the raw chunks are cut into maximal runs of joinable neighbours. */
  lemma {:induction false} MergeIsGreedy(c: Context, chunks: seq<RawChunk>) returns (cuts: seq<nat>)
    ensures Cut(c, chunks, Merged(c, chunks), cuts)
    decreases |chunks|
  {
    hide Cut, Merged, MergeStep, CanMerge;
    if |chunks| < 2 {
      cuts := CutFew(c, chunks);
    } else {
      var init, q := chunks[..|chunks| - 1], chunks[|chunks| - 1];
      var before := MergeIsGreedy(c, init);
      var r := Merged(c, init);
      MergedSnoc(c, chunks);
      if CanMerge(c, r[|r| - 1], q) {
        JoinedCut(c, init, q, r, before);
        cuts := before;
      } else {
        OpenedCut(c, init, q, r, before);
        cuts := before + [|init|];
      }
    }
  }

  ghost predicate GrowsWithText(tok: Tokenizer) {
    forall s: string, t: string :: tok(s) <= tok(s + t)
  }

  /**
   * Where longer texts never count less and the ranges' ends ascend, no two neighbours of the
   * result can still be joined. (Where they may count less, a run can come to fit its
   * predecessor only once it has grown; then only its first chunk could not be joined.)
   */
  lemma NoNeighboursLeftToJoin(c: Context, chunks: seq<RawChunk>, j: nat)
    requires GrowsWithText(c.tok) && 0 < j < |Merged(c, chunks)|
    requires forall i, k :: 0 <= i <= k < |chunks| ==>
      chunks[i].end <= chunks[k].end && chunks[i].start <= chunks[k].end
    ensures !CanMerge(c, Merged(c, chunks)[j - 1], Merged(c, chunks)[j])
  {
    var cuts := MergeIsGreedy(c, chunks);
    var r := Merged(c, chunks);
    assert |cuts| == |r|;
    hide Merged, Cut;
    CutAt(c, chunks, r, cuts, j);
    CutAt(c, chunks, r, cuts, j - 1);
    RunEnds(c, chunks, cuts[j], CutAfter(cuts, j, |chunks|), r[j]);
    RunEnds(c, chunks, cuts[j - 1], CutAfter(cuts, j - 1, |chunks|), r[j - 1]);
    hide RunOf;
    FirstWouldJoin(c, r[j - 1], chunks[cuts[j]], r[j]);
  }

  lemma RunEnds(c: Context, chunks: seq<RawChunk>, a: nat, b: nat, x: RawChunk)
    requires RunOf(c, chunks, a, b, x)
    ensures a < b <= |chunks| && x == chunks[a].(end := chunks[b - 1].end)
  {
    hide CanMerge;
  }

  /** What can join a run can join the run's first chunk, where longer texts count no less. */
  lemma FirstWouldJoin(c: Context, prev: RawChunk, first: RawChunk, x: RawChunk)
    requires GrowsWithText(c.tok) && x == first.(end := x.end) && prev.start <= first.end <= x.end
    ensures CanMerge(c, prev, x) ==> CanMerge(c, prev, first)
  {
    if CanMerge(c, prev, x) {
      assert c.src[prev.start..x.end] == c.src[prev.start..first.end] + c.src[first.end..x.end];
    }
  }
}
