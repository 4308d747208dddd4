/**
 * One pass of the history compressor: summarize the oldest eligible observation
 * until the history fits, then drop the oldest observation until it fits.
 *
 * A Go string is a sequence of bytes; here each char stands for one byte. The
 * tokenizer is an arbitrary function: it need be neither additive nor monotone.
 */
module Compression {
  import opened Basics

  datatype Role = System | User | Assistant | Tool | Other(name: string)

  /** The meter bucket a message is billed to; Unset is the empty tag. */
  datatype Origin = Unset | RetrievedCode | History | SystemBucket | Output | Named(name: string)

  datatype Turn = Turn(role: Role, content: string, step: nat, kind: Origin, compressed: bool)

  const DROP_MARKER := "[earlier observation omitted]"

  datatype Config = Config(
    tok: Tokenizer,
    summarize: (string, string) -> Result<string, string>,
    guideline: string,
    minTokens: int)

  datatype Failure = Failure(step: nat, message: string)

  /** What a pass did: the texts handed to the summarizer, in order, are its call log. */
  datatype Pass = Pass(
    history: seq<Turn>,
    summarized: nat,
    dropped: nat,
    calls: seq<string>,
    error: Option<Failure>)

  function Done(turns: seq<Turn>): Pass {
    Pass(turns, 0, 0, [], None)
  }

  function Then(p: Pass, q: Pass): Pass {
    Pass(q.history, p.summarized + q.summarized, p.dropped + q.dropped, p.calls + q.calls, q.error)
  }

  // ---------------------------------------------------------------- measures

  function Total(turns: seq<Turn>, tok: Tokenizer): nat {
    Sum(Map((t: Turn) => tok(t.content), turns))
  }

  predicate Open(t: Turn) {
    t.role.Tool? && !t.compressed
  }

  predicate Unmarked(t: Turn) {
    t.role.Tool? && t.content != DROP_MARKER
  }

  function Flag(b: bool): nat {
    if b then 1 else 0
  }

  /** Observations never yet handed to the summarizer. */
  function OpenCount(turns: seq<Turn>): nat {
    Sum(Map((t: Turn) => Flag(Open(t)), turns))
  }

  /** Observations not (yet) replaced by the drop marker. */
  function UnmarkedCount(turns: seq<Turn>): nat {
    Sum(Map((t: Turn) => Flag(Unmarked(t)), turns))
  }

  lemma MeasuresAfterUpdate(turns: seq<Turn>, i: nat, t: Turn, tok: Tokenizer)
    requires i < |turns|
    ensures Total(turns[i := t], tok) + tok(turns[i].content) == Total(turns, tok) + tok(t.content)
    ensures OpenCount(turns[i := t]) + Flag(Open(turns[i])) == OpenCount(turns) + Flag(Open(t))
    ensures UnmarkedCount(turns[i := t]) + Flag(Unmarked(turns[i])) == UnmarkedCount(turns) + Flag(Unmarked(t))
  {
    var weigh := (t: Turn) => tok(t.content);
    SumUpdate(Map(weigh, turns), i, tok(t.content));
    assert Map(weigh, turns[i := t]) == Map(weigh, turns)[i := tok(t.content)];
    var open := (t: Turn) => Flag(Open(t));
    SumUpdate(Map(open, turns), i, Flag(Open(t)));
    assert Map(open, turns[i := t]) == Map(open, turns)[i := Flag(Open(t))];
    var unmarked := (t: Turn) => Flag(Unmarked(t));
    SumUpdate(Map(unmarked, turns), i, Flag(Unmarked(t)));
    assert Map(unmarked, turns[i := t]) == Map(unmarked, turns)[i := Flag(Unmarked(t))];
  }

  // --------------------------------------------------------- protected turns

  /** The goal (first user turn), or the last assistant turn and everything after it. */
  predicate Protected(turns: seq<Turn>, i: nat)
    requires i < |turns|
  {
    || (turns[i].role.User? && forall j :: 0 <= j < i ==> !turns[j].role.User?)
    || ((exists j :: 0 <= j <= i && turns[j].role.Assistant?) &&
        forall j :: i < j < |turns| ==> !turns[j].role.Assistant?)
  }

  function Mask(turns: seq<Turn>): (mask: seq<bool>)
    ensures |mask| == |turns|
    ensures forall i :: 0 <= i < |turns| ==> mask[i] == Protected(turns, i)
  {
    seq(|turns|, i requires 0 <= i < |turns| => Protected(turns, i))
  }

  lemma MaskReadsRolesOnly(a: seq<Turn>, b: seq<Turn>)
    requires |a| == |b|
    requires forall i :: 0 <= i < |a| ==> a[i].role == b[i].role
    ensures Mask(a) == Mask(b)
  {
    forall i | 0 <= i < |a|
      ensures Protected(a, i) == Protected(b, i)
    {
      if j :| 0 <= j <= i && a[j].role.Assistant? {
        assert b[j].role.Assistant?;
      }
      if j :| 0 <= j <= i && b[j].role.Assistant? {
        assert a[j].role.Assistant?;
      }
      if Protected(a, i) {
        assert forall j :: 0 <= j < |a| ==> a[j].role == b[j].role;
      }
    }
  }

  // ----------------------------------------------------------- single moves

  predicate Summarizable(t: Turn, isProtected: bool, cfg: Config) {
    && !isProtected && t.role.Tool? && !t.compressed && t.content != DROP_MARKER
    && !(cfg.minTokens > 0 && cfg.tok(t.content) <= cfg.minTokens)
  }

  predicate Droppable(t: Turn, isProtected: bool) {
    !isProtected && t.role.Tool? && t.content != DROP_MARKER
  }

  function OldestSummarizable(turns: seq<Turn>, mask: seq<bool>, cfg: Config): int
    requires |mask| == |turns|
  {
    First(seq(|turns|, i requires 0 <= i < |turns| => Summarizable(turns[i], mask[i], cfg)))
  }

  function OldestDroppable(turns: seq<Turn>, mask: seq<bool>): int
    requires |mask| == |turns|
  {
    First(seq(|turns|, i requires 0 <= i < |turns| => Droppable(turns[i], mask[i])))
  }

  lemma OldestMeansOldest(turns: seq<Turn>, mask: seq<bool>, cfg: Config)
    requires |mask| == |turns|
    ensures var i := OldestSummarizable(turns, mask, cfg);
      && -1 <= i < |turns|
      && (i == -1 <==> forall j :: 0 <= j < |turns| ==> !Summarizable(turns[j], mask[j], cfg))
      && (i >= 0 ==> Summarizable(turns[i], mask[i], cfg))
      && (i >= 0 ==> forall j :: 0 <= j < i ==> !Summarizable(turns[j], mask[j], cfg))
    ensures var d := OldestDroppable(turns, mask);
      && -1 <= d < |turns|
      && (d == -1 <==> forall j :: 0 <= j < |turns| ==> !Droppable(turns[j], mask[j]))
      && (d >= 0 ==> Droppable(turns[d], mask[d]))
      && (d >= 0 ==> forall j :: 0 <= j < d ==> !Droppable(turns[j], mask[j]))
  {
    var s := seq(|turns|, i requires 0 <= i < |turns| => Summarizable(turns[i], mask[i], cfg));
    assert forall j :: 0 <= j < |turns| ==> s[j] == Summarizable(turns[j], mask[j], cfg);
    var d := seq(|turns|, i requires 0 <= i < |turns| => Droppable(turns[i], mask[i]));
    assert forall j :: 0 <= j < |turns| ==> d[j] == Droppable(turns[j], mask[j]);
  }

  /** Hand turn i to the summarizer; keep the summary only when it is shorter. */
  function SummarizeAt(turns: seq<Turn>, i: nat, cfg: Config): Pass
    requires i < |turns|
  {
    var t := turns[i];
    match cfg.summarize(t.content, cfg.guideline)
    case Err(e) =>
      Pass(turns, 0, 0, [t.content], Some(Failure(t.step, e)))
    case Ok(summary) =>
      if cfg.tok(summary) < cfg.tok(t.content)
      then Pass(turns[i := t.(content := summary, compressed := true)], 1, 0, [t.content], None)
      else Pass(turns[i := t.(compressed := true)], 0, 0, [t.content], None)
  }

  function DropAt(turns: seq<Turn>, i: nat): Pass
    requires i < |turns|
  {
    Pass(turns[i := turns[i].(content := DROP_MARKER)], 0, 1, [], None)
  }

  // -------------------------------------------------- the two phases as coded

  lemma SummarizeAtMeasures(turns: seq<Turn>, mask: seq<bool>, i: nat, cfg: Config)
    requires |mask| == |turns| && i < |turns| && Summarizable(turns[i], mask[i], cfg)
    ensures var p := SummarizeAt(turns, i, cfg);
      && |p.history| == |turns|
      && (p.error.None? ==>
          && OpenCount(p.history) + 1 == OpenCount(turns)
          && UnmarkedCount(p.history) <= UnmarkedCount(turns)
          && Total(p.history, cfg.tok) <= Total(turns, cfg.tok))
    ensures 1 <= OpenCount(turns)
  {
    var p := SummarizeAt(turns, i, cfg);
    MeasuresAfterUpdate(turns, i, turns[i].(compressed := true), cfg.tok);
    if p.error.None? {
      MeasuresAfterUpdate(turns, i, p.history[i], cfg.tok);
      assert p.history == turns[i := p.history[i]];
    }
  }

  lemma DropAtMeasures(turns: seq<Turn>, mask: seq<bool>, i: nat, tok: Tokenizer)
    requires |mask| == |turns| && i < |turns| && Droppable(turns[i], mask[i])
    ensures var p := DropAt(turns, i);
      && |p.history| == |turns|
      && OpenCount(p.history) == OpenCount(turns)
      && UnmarkedCount(p.history) + 1 == UnmarkedCount(turns)
      && Total(p.history, tok) + tok(turns[i].content) == Total(turns, tok) + tok(DROP_MARKER)
  {
    MeasuresAfterUpdate(turns, i, turns[i].(content := DROP_MARKER), tok);
  }

  function SummarizePhase(turns: seq<Turn>, mask: seq<bool>, budget: int, cfg: Config): (p: Pass)
    requires |mask| == |turns|
    ensures |p.history| == |turns|
    decreases OpenCount(turns)
  {
    OldestMeansOldest(turns, mask, cfg);
    var i := OldestSummarizable(turns, mask, cfg);
    if Total(turns, cfg.tok) <= budget || i < 0 then Done(turns)
    else
      var p := SummarizeAt(turns, i, cfg);
      SummarizeAtMeasures(turns, mask, i, cfg);
      if p.error.Some? then p else Then(p, SummarizePhase(p.history, mask, budget, cfg))
  }

  function DropPhase(turns: seq<Turn>, mask: seq<bool>, budget: int, tok: Tokenizer): (p: Pass)
    requires |mask| == |turns|
    ensures |p.history| == |turns| && p.error.None?
    decreases UnmarkedCount(turns)
  {
    OldestMeansOldest(turns, mask, Config(tok, (t, g) => Err(""), "", 0));
    var i := OldestDroppable(turns, mask);
    if Total(turns, tok) <= budget || i < 0 then Done(turns)
    else
      var p := DropAt(turns, i);
      DropAtMeasures(turns, mask, i, tok);
      Then(p, DropPhase(p.history, mask, budget, tok))
  }

  function Phases(turns: seq<Turn>, mask: seq<bool>, budget: int, cfg: Config): (p: Pass)
    requires |mask| == |turns|
    ensures |p.history| == |turns|
  {
    var p := SummarizePhase(turns, mask, budget, cfg);
    if p.error.Some? then p else Then(p, DropPhase(p.history, mask, budget, cfg.tok))
  }

  /** The whole pass, in the shape of the source: guard, summarize phase, drop phase. */
  function Compressed(history: seq<Turn>, budget: int, cfg: Config): (p: Pass)
    ensures |p.history| == |history|
  {
    if history == [] || budget <= 0 || Total(history, cfg.tok) <= budget then Done(history)
    else Phases(history, Mask(history), budget, cfg)
  }
}
