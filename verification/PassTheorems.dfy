/** What one pass keeps, when it calls and engages, and in which order it works. */
module PassTheorems {
  import opened Basics
  import opened Compression
  import opened Confluence

  /** Bookkeeping of moves, stated once for a single move and for any sequence of them. */
  predicate Accounts(before: seq<Turn>, p: Pass, tok: Tokenizer) {
    && p.summarized <= |p.calls| <= OpenCount(before)
    && p.dropped + UnmarkedCount(p.history) <= UnmarkedCount(before)
    && Total(p.history, tok) <= Total(before, tok) + Times(p.dropped, tok(DROP_MARKER))
    && (p.error.None? ==> |p.calls| + OpenCount(p.history) == OpenCount(before))
  }

  lemma AccountsCompose(before: seq<Turn>, p: Pass, q: Pass, tok: Tokenizer)
    requires Accounts(before, p, tok) && p.error.None? && Accounts(p.history, q, tok)
    ensures Accounts(before, Then(p, q), tok)
  {
    TimesAdds(p.dropped, q.dropped, tok(DROP_MARKER));
    hide Times, Total, OpenCount, UnmarkedCount;
  }

  lemma {:induction false} DriveAccounts(turns: seq<Turn>, mask: seq<bool>, budget: int, cfg: Config)
    requires |mask| == |turns|
    ensures Accounts(turns, Drive(turns, mask, budget, cfg), cfg.tok)
    decreases OpenCount(turns) + UnmarkedCount(turns)
  {
    var m := Move(turns, mask, cfg);
    if Total(turns, cfg.tok) > budget && m.Some? {
      MoveMeasures(turns, mask, cfg);
      assert Accounts(turns, m.value, cfg.tok);
      if m.value.error.None? {
        DriveAccounts(m.value.history, mask, budget, cfg);
        AccountsCompose(turns, m.value, Drive(m.value.history, mask, budget, cfg), cfg.tok);
      }
    }
  }

  lemma {:induction false} DriveStops(turns: seq<Turn>, mask: seq<bool>, budget: int, cfg: Config)
    requires |mask| == |turns|
    requires Drive(turns, mask, budget, cfg).error.None?
    ensures var p := Drive(turns, mask, budget, cfg);
      || Total(p.history, cfg.tok) <= budget
      || forall i :: 0 <= i < |turns| ==> !Droppable(p.history[i], mask[i])
    decreases OpenCount(turns) + UnmarkedCount(turns)
  {
    var m := Move(turns, mask, cfg);
    OldestMeansOldest(turns, mask, cfg);
    if Total(turns, cfg.tok) > budget && m.Some? {
      MoveMeasures(turns, mask, cfg);
      if m.value.error.None? {
        DriveStops(m.value.history, mask, budget, cfg);
      }
    }
  }

  predicate ShapeKept(before: seq<Turn>, after: seq<Turn>, cfg: Config) {
    && |before| == |after|
    && forall i :: 0 <= i < |before| ==> Evolved(before[i], after[i], Protected(before, i), cfg)
  }

  /** Within the budget, or every unprotected observation is the marker. */
  predicate FitsOrCleared(before: seq<Turn>, after: seq<Turn>, budget: int, tok: Tokenizer)
    requires |before| == |after|
  {
    || Total(after, tok) <= budget
    || forall i :: 0 <= i < |before| && !Protected(before, i) && before[i].role.Tool? ==>
         after[i].content == DROP_MARKER
  }

  /**
   * One pass keeps length, order, role, step and kind; keeps the goal and everything
   * from the last assistant turn verbatim; and leaves each other observation as it was,
   * as its own strictly shorter summary, or as the marker.
   */
  lemma PassKeepsShape(history: seq<Turn>, budget: int, cfg: Config)
    ensures ShapeKept(history, Compressed(history, budget, cfg).history, cfg)
  {
    CompressedIsDrive(history, budget, cfg);
    if history != [] && budget > 0 {
      DriveEvolves(history, Mask(history), budget, cfg);
    }
  }

  /**
   * The calls of a pass are exactly the observations it newly marked compressed, and the
   * total grows by at most one marker per drop.
   */
  lemma PassAccounts(history: seq<Turn>, budget: int, cfg: Config)
    ensures Accounts(history, Compressed(history, budget, cfg), cfg.tok)
  {
    CompressedIsDrive(history, budget, cfg);
    if history != [] && budget > 0 {
      DriveAccounts(history, Mask(history), budget, cfg);
    }
  }

  /** A pass that was asked to fit a positive budget either fits or has nothing left to drop. */
  lemma PassMeetsBudget(history: seq<Turn>, budget: int, cfg: Config)
    requires Compressed(history, budget, cfg).error.None? && budget > 0
    ensures FitsOrCleared(history, Compressed(history, budget, cfg).history, budget, cfg.tok)
  {
    CompressedIsDrive(history, budget, cfg);
    if history != [] {
      var mask, p := Mask(history), Compressed(history, budget, cfg);
      PassKeepsShape(history, budget, cfg);
      DriveStops(history, mask, budget, cfg);
      forall i | 0 <= i < |history| && !Droppable(p.history[i], mask[i])
               && !Protected(history, i) && history[i].role.Tool?
        ensures p.history[i].content == DROP_MARKER
      {
        assert Evolved(history[i], p.history[i], Protected(history, i), cfg);
      }
    }
  }

  /** Only droppable turns changed, each into the marker, and no unprotected observation before one is anything else. */
  predicate DroppedInOrder(before: seq<Turn>, after: seq<Turn>, mask: seq<bool>) {
    && |before| == |after| == |mask|
    && (forall i, j :: 0 <= j < i < |before| && after[i] != before[i] && !mask[j] && before[j].role.Tool? ==>
          after[j].content == DROP_MARKER)
    && (forall i :: 0 <= i < |before| ==>
          || after[i] == before[i]
          || (Droppable(before[i], mask[i]) && after[i] == before[i].(content := DROP_MARKER)))
  }

  lemma DroppedNothing(turns: seq<Turn>, mask: seq<bool>)
    requires |mask| == |turns|
    ensures DroppedInOrder(turns, turns, mask)
  {
  }

  lemma DroppedInOrderStep(turns: seq<Turn>, d: nat, out: seq<Turn>, mask: seq<bool>)
    requires |mask| == |turns| && d < |turns| && Droppable(turns[d], mask[d])
    requires forall j :: 0 <= j < d ==> !Droppable(turns[j], mask[j])
    requires DroppedInOrder(DropAt(turns, d).history, out, mask)
    ensures DroppedInOrder(turns, out, mask)
  {
    var next := DropAt(turns, d).history;
    assert forall j :: 0 <= j < |turns| && j != d ==> next[j] == turns[j];
    assert out[d] == next[d];
  }

  /** Drops are oldest-first: everything droppable before a newly dropped turn is a marker. */
  lemma {:induction false} DropsOldestFirst(turns: seq<Turn>, mask: seq<bool>, budget: int, tok: Tokenizer)
    requires |mask| == |turns|
    ensures DroppedInOrder(turns, DropPhase(turns, mask, budget, tok).history, mask)
    decreases UnmarkedCount(turns)
  {
    OldestMeansOldest(turns, mask, Config(tok, (t, g) => Err(""), "", 0));
    DroppedNothing(turns, mask);
    hide OldestSummarizable, OldestDroppable, DroppedInOrder, Summarizable, Total, UnmarkedCount;
    var d := OldestDroppable(turns, mask);
    if Total(turns, tok) > budget && d >= 0 {
      DropAtMeasures(turns, mask, d, tok);
      DropsOldestFirst(DropAt(turns, d).history, mask, budget, tok);
      DroppedInOrderStep(turns, d, DropPhase(DropAt(turns, d).history, mask, budget, tok).history, mask);
    }
  }

  /** Only eligible observations changed, each is now marked compressed, and none before it is still eligible. */
  predicate SummarizedInOrder(turns: seq<Turn>, out: seq<Turn>, mask: seq<bool>, cfg: Config) {
    && |turns| == |out| == |mask|
    && (forall j :: 0 <= j < |turns| ==>
          out[j] == turns[j] || (Summarizable(turns[j], mask[j], cfg) && out[j].compressed && out[j].role.Tool?))
    && (forall i, j :: 0 <= j < i < |turns| && out[i] != turns[i] ==> !Summarizable(out[j], mask[j], cfg))
  }

  lemma SummarizedInOrderStep(turns: seq<Turn>, i: nat, t: Turn, out: seq<Turn>, mask: seq<bool>, cfg: Config)
    requires |mask| == |turns| && i < |turns| && Summarizable(turns[i], mask[i], cfg)
    requires t.compressed && t.role.Tool?
    requires forall j :: 0 <= j < i ==> !Summarizable(turns[j], mask[j], cfg)
    requires SummarizedInOrder(turns[i := t], out, mask, cfg)
    ensures SummarizedInOrder(turns, out, mask, cfg)
  {
    var next := turns[i := t];
    assert forall j :: 0 <= j < |turns| && j != i ==> next[j] == turns[j];
  }

  lemma SummarizedNothing(turns: seq<Turn>, mask: seq<bool>, cfg: Config)
    requires |mask| == |turns|
    ensures SummarizedInOrder(turns, turns, mask, cfg)
  {
  }

  lemma SummarizePhaseRests(turns: seq<Turn>, mask: seq<bool>, budget: int, cfg: Config)
    requires |mask| == |turns|
    requires Total(turns, cfg.tok) <= budget || OldestSummarizable(turns, mask, cfg) < 0
    ensures SummarizePhase(turns, mask, budget, cfg) == Done(turns)
  {
    hide Total, OldestSummarizable, SummarizeAt;
  }

  lemma SummarizePhaseTurns(turns: seq<Turn>, mask: seq<bool>, budget: int, cfg: Config)
    requires |mask| == |turns| && Total(turns, cfg.tok) > budget
    requires 0 <= OldestSummarizable(turns, mask, cfg) < |turns|
    ensures var p := SummarizeAt(turns, OldestSummarizable(turns, mask, cfg), cfg);
      && |p.history| == |turns|
      && SummarizePhase(turns, mask, budget, cfg) ==
         if p.error.Some? then p else Then(p, SummarizePhase(p.history, mask, budget, cfg))
  {
    OldestMeansOldest(turns, mask, cfg);
    SummarizeAtMeasures(turns, mask, OldestSummarizable(turns, mask, cfg), cfg);
    hide Total, OldestSummarizable, SummarizeAt, OpenCount;
  }

  /** The first phase drops nothing, goes oldest first, and gives up only when nothing eligible is left. */
  lemma {:induction false} SummariesOldestFirst(turns: seq<Turn>, mask: seq<bool>, budget: int, cfg: Config)
    requires |mask| == |turns|
    ensures var p := SummarizePhase(turns, mask, budget, cfg);
      && p.dropped == 0
      && (p.error.None? ==> Total(p.history, cfg.tok) <= budget
                            || forall j :: 0 <= j < |turns| ==> !Summarizable(p.history[j], mask[j], cfg))
      && SummarizedInOrder(turns, p.history, mask, cfg)
    decreases OpenCount(turns)
  {
    OldestMeansOldest(turns, mask, cfg);
    SummarizedNothing(turns, mask, cfg);
    hide OldestSummarizable, OldestDroppable, SummarizedInOrder, Droppable, Total, OpenCount, SummarizePhase;
    var i := OldestSummarizable(turns, mask, cfg);
    if Total(turns, cfg.tok) <= budget || i < 0 {
      SummarizePhaseRests(turns, mask, budget, cfg);
    } else {
      SummarizePhaseTurns(turns, mask, budget, cfg);
      SummarizeAtMeasures(turns, mask, i, cfg);
      var next := SummarizeAt(turns, i, cfg);
      if next.error.None? {
        SummariesOldestFirst(next.history, mask, budget, cfg);
        var t, rest := next.history[i], SummarizePhase(next.history, mask, budget, cfg);
        assert next.history == turns[i := t] && t.compressed && t.role == turns[i].role;
        SummarizedInOrderStep(turns, i, t, rest.history, mask, cfg);
      }
    }
  }

  /**
   * A pass drops only once every eligible observation has been summarized, and then oldest
   * first: whatever unprotected observation precedes a newly dropped one is a marker too.
   */
  lemma PassDropsOldestFirst(history: seq<Turn>, budget: int, cfg: Config)
    ensures var p := Compressed(history, budget, cfg);
      p.error.None? && p.dropped > 0 ==>
        var mask, summarized := Mask(history), SummarizePhase(history, Mask(history), budget, cfg).history;
        && SummarizedInOrder(history, summarized, mask, cfg)
        && (forall j :: 0 <= j < |history| ==> !Summarizable(summarized[j], mask[j], cfg))
        && DroppedInOrder(summarized, p.history, mask)
  {
    var mask := Mask(history);
    var first := SummarizePhase(history, mask, budget, cfg);
    SummariesOldestFirst(history, mask, budget, cfg);
    DropsOldestFirst(first.history, mask, budget, cfg.tok);
    PassKeepsShape(history, budget, cfg);
    hide SummarizePhase, Mask;
  }

  lemma {:induction false} DropPhaseCallsNobody(turns: seq<Turn>, mask: seq<bool>, budget: int, tok: Tokenizer)
    requires |mask| == |turns|
    ensures DropPhase(turns, mask, budget, tok).calls == []
    decreases UnmarkedCount(turns)
  {
    OldestMeansOldest(turns, mask, Config(tok, (t, g) => Err(""), "", 0));
    var d := OldestDroppable(turns, mask);
    if Total(turns, tok) > budget && d >= 0 {
      DropAtMeasures(turns, mask, d, tok);
      DropPhaseCallsNobody(DropAt(turns, d).history, mask, budget, tok);
    }
  }

  predicate OverBudget(history: seq<Turn>, budget: int, tok: Tokenizer) {
    history != [] && 0 < budget < Total(history, tok)
  }

  /** The summarizer is called exactly when the history is over budget and some turn is eligible. */
  lemma PassCallsIff(history: seq<Turn>, budget: int, cfg: Config)
    ensures Compressed(history, budget, cfg).calls != []
       <==> OverBudget(history, budget, cfg.tok)
            && exists i :: 0 <= i < |history| && Summarizable(history[i], Protected(history, i), cfg)
  {
    var mask := Mask(history);
    OldestMeansOldest(history, mask, cfg);
    if OverBudget(history, budget, cfg.tok) {
      var i := OldestSummarizable(history, mask, cfg);
      if i >= 0 {
        PhasesUnfold(history, mask, budget, cfg);
        assert Summarizable(history[i], Protected(history, i), cfg);
        assert Compressed(history, budget, cfg).calls[0] == history[i].content;
      } else {
        DropPhaseCallsNobody(history, mask, budget, cfg.tok);
        assert forall j :: 0 <= j < |history| ==> mask[j] == Protected(history, j);
      }
    }
  }

  /** Over budget with something droppable, a pass that does not fail changes some content. */
  lemma {:induction false} DriveEngages(turns: seq<Turn>, mask: seq<bool>, budget: int, cfg: Config)
    requires |mask| == |turns| && Total(turns, cfg.tok) > budget && OldestDroppable(turns, mask) >= 0
    requires Drive(turns, mask, budget, cfg).error.None?
    ensures Drive(turns, mask, budget, cfg).summarized + Drive(turns, mask, budget, cfg).dropped > 0
    decreases OpenCount(turns)
  {
    OldestMeansOldest(turns, mask, cfg);
    MoveMeasures(turns, mask, cfg);
    var m := Move(turns, mask, cfg).value;
    if m.error.None? && m.summarized + m.dropped == 0 {
      var i := OldestSummarizable(turns, mask, cfg);
      assert m.history == turns[i := turns[i].(compressed := true)];
      SameContents(turns, m.history, mask, cfg);
      DriveEngages(m.history, mask, budget, cfg);
    }
  }

  lemma SameContents(a: seq<Turn>, b: seq<Turn>, mask: seq<bool>, cfg: Config)
    requires |a| == |b| == |mask|
    requires forall i :: 0 <= i < |a| ==> b[i].role == a[i].role && b[i].content == a[i].content
    ensures Total(a, cfg.tok) == Total(b, cfg.tok)
    ensures OldestDroppable(a, mask) >= 0 ==> OldestDroppable(b, mask) >= 0
  {
    var weigh := (t: Turn) => cfg.tok(t.content);
    assert Map(weigh, a) == Map(weigh, b);
    OldestMeansOldest(a, mask, cfg);
    OldestMeansOldest(b, mask, cfg);
    if OldestDroppable(a, mask) >= 0 {
      assert Droppable(b[OldestDroppable(a, mask)], mask[OldestDroppable(a, mask)]);
    }
  }

  /** A pass that does not fail changes content exactly when over budget with something droppable. */
  lemma PassEngagesIff(history: seq<Turn>, budget: int, cfg: Config)
    requires Compressed(history, budget, cfg).error.None?
    ensures Compressed(history, budget, cfg).summarized + Compressed(history, budget, cfg).dropped > 0
       <==> OverBudget(history, budget, cfg.tok)
            && exists i :: 0 <= i < |history| && Droppable(history[i], Protected(history, i))
  {
    var mask := Mask(history);
    OldestMeansOldest(history, mask, cfg);
    CompressedIsDrive(history, budget, cfg);
    if OverBudget(history, budget, cfg.tok) {
      var d := OldestDroppable(history, mask);
      if d >= 0 {
        assert Droppable(history[d], Protected(history, d));
        DriveEngages(history, mask, budget, cfg);
      } else {
        assert forall j :: 0 <= j < |history| ==> mask[j] == Protected(history, j);
        assert Move(history, mask, cfg).None?;
      }
    }
  }

  /** A drop shrinks the history exactly when the observation outweighs the marker. */
  lemma DropShrinksIffLonger(turns: seq<Turn>, mask: seq<bool>, tok: Tokenizer)
    requires |mask| == |turns| && OldestDroppable(turns, mask) >= 0
    ensures var d := OldestDroppable(turns, mask);
      d < |turns| &&
      (Total(DropAt(turns, d).history, tok) < Total(turns, tok)
       <==> tok(DROP_MARKER) < tok(turns[d].content))
  {
    OldestMeansOldest(turns, mask, Config(tok, (t, g) => Err(""), "", 0));
    DropAtMeasures(turns, mask, OldestDroppable(turns, mask), tok);
  }

  /** A bound on one turn that the marker also meets is kept by any pass. */
  lemma PassKeepsBound(history: seq<Turn>, budget: int, cfg: Config, i: nat, bound: nat)
    requires i < |history|
    requires cfg.tok(history[i].content) <= bound
    requires history[i].role.Tool? ==> cfg.tok(DROP_MARKER) <= bound
    ensures cfg.tok(Compressed(history, budget, cfg).history[i].content) <= bound
  {
    PassKeepsShape(history, budget, cfg);
    assert Evolved(history[i], Compressed(history, budget, cfg).history[i], Protected(history, i), cfg);
  }

  ghost predicate NeverFails(cfg: Config) {
    forall text: string, guide: string :: cfg.summarize(text, guide).Ok?
  }

  lemma {:induction false} DriveNeverFails(turns: seq<Turn>, mask: seq<bool>, budget: int, cfg: Config)
    requires |mask| == |turns| && NeverFails(cfg)
    ensures Drive(turns, mask, budget, cfg).error.None?
    decreases OpenCount(turns) + UnmarkedCount(turns)
  {
    var m := Move(turns, mask, cfg);
    if Total(turns, cfg.tok) > budget && m.Some? {
      MoveMeasures(turns, mask, cfg);
      if m.value.error.None? {
        DriveNeverFails(m.value.history, mask, budget, cfg);
      }
    }
  }

  /** A pass fails only if the summarizer does. */
  lemma PassNeverFails(history: seq<Turn>, budget: int, cfg: Config)
    requires NeverFails(cfg)
    ensures Compressed(history, budget, cfg).error.None?
  {
    CompressedIsDrive(history, budget, cfg);
    if history != [] && budget > 0 {
      DriveNeverFails(history, Mask(history), budget, cfg);
    }
  }

  lemma ProtectedHasNoMove(turns: seq<Turn>, cfg: Config)
    requires forall i :: 0 <= i < |turns| ==> Protected(turns, i)
    ensures Move(turns, Mask(turns), cfg).None?
  {
    OldestMeansOldest(turns, Mask(turns), cfg);
    assert forall i :: 0 <= i < |turns| ==> Mask(turns)[i];
  }

  /** Where every turn is protected a pass does nothing at all. */
  lemma ProtectedIsUntouched(turns: seq<Turn>, budget: int, cfg: Config)
    requires forall i :: 0 <= i < |turns| ==> Protected(turns, i)
    ensures Compressed(turns, budget, cfg) == Done(turns)
  {
    CompressedIsDrive(turns, budget, cfg);
    ProtectedHasNoMove(turns, cfg);
    hide Compressed, Protected, Move, Mask;
  }

  // ------------------------------------------------------ what becomes of a summary

  /** b is a once handed to the summarizer: marked, and shortened if the summary is shorter. */
  predicate Condensed(a: Turn, b: Turn, cfg: Config) {
    && !a.compressed && b.compressed
    && match cfg.summarize(a.content, cfg.guideline)
       case Err(_) => false
       case Ok(s) => b.content == if cfg.tok(s) < cfg.tok(a.content) then s else a.content
  }

  /** The summarizer has a strictly shorter text for a, and b is marked as having been to it. */
  predicate Shortened(a: Turn, b: Turn, cfg: Config) {
    && !a.compressed && b.compressed
    && cfg.summarize(a.content, cfg.guideline).Ok?
    && cfg.tok(cfg.summarize(a.content, cfg.guideline).value) < cfg.tok(a.content)
  }

  function ShortenedFlags(before: seq<Turn>, after: seq<Turn>, cfg: Config): (flags: seq<nat>)
    requires |before| == |after|
    ensures |flags| == |before|
    ensures forall i :: 0 <= i < |flags| ==> flags[i] == Flag(Shortened(before[i], after[i], cfg))
  {
    seq(|before|, i requires 0 <= i < |before| => Flag(Shortened(before[i], after[i], cfg)))
  }

  /** How many turns were newly marked and have a strictly shorter summary. */
  function ShortenedCount(before: seq<Turn>, after: seq<Turn>, cfg: Config): nat
    requires |before| == |after|
  {
    Sum(ShortenedFlags(before, after, cfg))
  }

  lemma {:induction false} SumOfZeros(xs: seq<nat>)
    requires forall i :: 0 <= i < |xs| ==> xs[i] == 0
    ensures Sum(xs) == 0
    decreases |xs|
  {
    if xs != [] {
      SumOfZeros(xs[..|xs| - 1]);
    }
  }

  /** Marking one more turn first adds exactly that turn to the count. */
  lemma CountAfterMark(turns: seq<Turn>, i: nat, t: Turn, out: seq<Turn>, cfg: Config)
    requires i < |turns| == |out| && t.compressed && out[i].compressed && !turns[i].compressed
    ensures ShortenedCount(turns, out, cfg)
         == ShortenedCount(turns[i := t], out, cfg) + Flag(Shortened(turns[i], out[i], cfg))
  {
    var flags := ShortenedFlags(turns[i := t], out, cfg);
    SumUpdate(flags, i, Flag(Shortened(turns[i], out[i], cfg)));
    assert flags[i] == 0;
    assert ShortenedFlags(turns, out, cfg) == flags[i := Flag(Shortened(turns[i], out[i], cfg))];
  }

  /** Each turn is as it was or condensed, and the counter counts the shortened ones. */
  predicate CondensedOnly(before: seq<Turn>, p: Pass, cfg: Config) {
    && |p.history| == |before|
    && (forall i :: 0 <= i < |before| ==> p.history[i] == before[i] || Condensed(before[i], p.history[i], cfg))
    && p.summarized == ShortenedCount(before, p.history, cfg)
  }

  lemma NothingCondensed(turns: seq<Turn>, cfg: Config)
    ensures CondensedOnly(turns, Done(turns), cfg)
  {
    SumOfZeros(ShortenedFlags(turns, turns, cfg));
  }

  lemma CondensedStep(turns: seq<Turn>, i: nat, rest: Pass, cfg: Config)
    requires i < |turns| && !turns[i].compressed
    requires SummarizeAt(turns, i, cfg).error.None?
    requires CondensedOnly(SummarizeAt(turns, i, cfg).history, rest, cfg)
    ensures CondensedOnly(turns, Then(SummarizeAt(turns, i, cfg), rest), cfg)
  {
    var next := SummarizeAt(turns, i, cfg).history;
    var t, out := next[i], rest.history;
    assert next == turns[i := t];
    assert out[i] == next[i] by {
      assert out[i] == next[i] || Condensed(next[i], out[i], cfg);
    }
    assert Condensed(turns[i], t, cfg);
    assert forall j :: 0 <= j < |turns| && j != i ==> next[j] == turns[j];
    hide Condensed, ShortenedCount;
    CountAfterMark(turns, i, t, out, cfg);
  }

  lemma {:induction false} PhaseCondenses(turns: seq<Turn>, mask: seq<bool>, budget: int, cfg: Config)
    requires |mask| == |turns| && SummarizePhase(turns, mask, budget, cfg).error.None?
    ensures CondensedOnly(turns, SummarizePhase(turns, mask, budget, cfg), cfg)
    decreases OpenCount(turns)
  {
    OldestMeansOldest(turns, mask, cfg);
    NothingCondensed(turns, cfg);
    var i := OldestSummarizable(turns, mask, cfg);
    if Total(turns, cfg.tok) > budget && i >= 0 {
      SummarizePhaseTurns(turns, mask, budget, cfg);
      SummarizeAtMeasures(turns, mask, i, cfg);
      var next := SummarizeAt(turns, i, cfg);
      hide SummarizePhase, CondensedOnly, SummarizeAt, OldestSummarizable, OpenCount, Total;
      PhaseCondenses(next.history, mask, budget, cfg);
      CondensedStep(turns, i, SummarizePhase(next.history, mask, budget, cfg), cfg);
    } else {
      SummarizePhaseRests(turns, mask, budget, cfg);
    }
  }

  /** What a pass that did not fail made of a turn it newly marked compressed. */
  predicate SummaryKept(a: Turn, b: Turn, dropped: nat, cfg: Config) {
    match cfg.summarize(a.content, cfg.guideline)
    case Err(_) => false
    case Ok(s) =>
      var best := if cfg.tok(s) < cfg.tok(a.content) then s else a.content;
      b.content == best || (dropped > 0 && b.content == DROP_MARKER)
  }

  lemma SameMarksSameCount(a: seq<Turn>, b: seq<Turn>, c: seq<Turn>, cfg: Config)
    requires |a| == |b| == |c| && forall i :: 0 <= i < |a| ==> b[i].compressed == c[i].compressed
    ensures ShortenedCount(a, b, cfg) == ShortenedCount(a, c, cfg)
  {
    assert ShortenedFlags(a, b, cfg) == ShortenedFlags(a, c, cfg);
  }

  /**
   * A shorter summary is kept: every observation a pass newly marks compressed ends as its
   * own summary if that is strictly shorter, else as it was, unless the pass then dropped it;
   * and Summarized counts exactly those whose summary is strictly shorter.
   */
  lemma ShorterSummariesAreKept(history: seq<Turn>, budget: int, cfg: Config)
    requires Compressed(history, budget, cfg).error.None?
    ensures var p := Compressed(history, budget, cfg);
      && (forall i :: 0 <= i < |history| && !history[i].compressed && p.history[i].compressed ==>
            SummaryKept(history[i], p.history[i], p.dropped, cfg))
      && p.summarized == ShortenedCount(history, p.history, cfg)
  {
    if OverBudget(history, budget, cfg.tok) {
      var mask := Mask(history);
      var first := SummarizePhase(history, mask, budget, cfg);
      SummariesOldestFirst(history, mask, budget, cfg);
      PhaseCondenses(history, mask, budget, cfg);
      KeptThroughDrops(history, first, mask, budget, cfg);
    } else {
      NothingCondensed(history, cfg);
    }
  }

  lemma KeptThroughDrops(history: seq<Turn>, first: Pass, mask: seq<bool>, budget: int, cfg: Config)
    requires |mask| == |history| && CondensedOnly(history, first, cfg) && first.dropped == 0
    ensures var p := Then(first, DropPhase(first.history, mask, budget, cfg.tok));
      && (forall i :: 0 <= i < |history| && !history[i].compressed && p.history[i].compressed ==>
            SummaryKept(history[i], p.history[i], p.dropped, cfg))
      && p.summarized == ShortenedCount(history, p.history, cfg)
  {
    var q := DropPhase(first.history, mask, budget, cfg.tok);
    DropsOldestFirst(first.history, mask, budget, cfg.tok);
    DropsAreCounted(first.history, mask, budget, cfg.tok);
    hide DropPhase;
    SameMarksSameCount(history, first.history, q.history, cfg);
    forall i | 0 <= i < |history| && !history[i].compressed && q.history[i].compressed
      ensures SummaryKept(history[i], q.history[i], q.dropped, cfg)
    {
      assert Condensed(history[i], first.history[i], cfg);
    }
  }

  lemma {:induction false} DropsAreCounted(turns: seq<Turn>, mask: seq<bool>, budget: int, tok: Tokenizer)
    requires |mask| == |turns|
    ensures var p := DropPhase(turns, mask, budget, tok);
      p.summarized == 0 && (p.dropped == 0 ==> p.history == turns)
    decreases UnmarkedCount(turns)
  {
    OldestMeansOldest(turns, mask, Config(tok, (t, g) => Err(""), "", 0));
    var d := OldestDroppable(turns, mask);
    if Total(turns, tok) > budget && d >= 0 {
      DropAtMeasures(turns, mask, d, tok);
      DropsAreCounted(DropAt(turns, d).history, mask, budget, tok);
    }
  }

  /** The goal and everything from the last assistant turn on come out verbatim. */
  lemma PassKeepsGoalAndNewest(history: seq<Turn>, budget: int, cfg: Config)
    ensures var p := Compressed(history, budget, cfg);
      && |p.history| == |history|
      && (forall i :: 0 <= i < |history| && history[i].role.User?
                      && (forall j :: 0 <= j < i ==> !history[j].role.User?) ==>
            p.history[i] == history[i])
      && (forall a, i :: 0 <= a <= i < |history| && history[a].role.Assistant?
                         && (forall j :: a < j < |history| ==> !history[j].role.Assistant?) ==>
            p.history[i] == history[i])
  {
    PassKeepsShape(history, budget, cfg);
    var p := Compressed(history, budget, cfg);
    hide Compressed;
    forall i | 0 <= i < |history| && Protected(history, i)
      ensures p.history[i] == history[i]
    {
      assert Evolved(history[i], p.history[i], Protected(history, i), cfg);
    }
    forall a, i | 0 <= a <= i < |history| && history[a].role.Assistant?
                  && (forall j :: a < j < |history| ==> !history[j].role.Assistant?)
      ensures Protected(history, i)
    {
    }
  }

  /** A total is the tokens of each turn's content, one by one and of every turn. */
  lemma TotalAdds(turns: seq<Turn>, t: Turn, tok: Tokenizer)
    ensures Total([], tok) == 0
    ensures Total(turns + [t], tok) == Total(turns, tok) + tok(t.content)
  {
    MapSumSnoc((u: Turn) => tok(u.content), turns, t);
  }

  /** The failure is the summarizer's own, about an observation as it stood, and names its step. */
  predicate BlamesTurn(turns: seq<Turn>, f: Failure, cfg: Config) {
    exists i :: 0 <= i < |turns| && turns[i].role.Tool? && !turns[i].compressed && f.step == turns[i].step
                && cfg.summarize(turns[i].content, cfg.guideline) == Err(f.message)
  }

  lemma BlameCarries(turns: seq<Turn>, i: nat, t: Turn, f: Failure, cfg: Config)
    requires i < |turns| && t.compressed && BlamesTurn(turns[i := t], f, cfg)
    ensures BlamesTurn(turns, f, cfg)
  {
    var next := turns[i := t];
    var k :| 0 <= k < |next| && next[k].role.Tool? && !next[k].compressed && f.step == next[k].step
             && cfg.summarize(next[k].content, cfg.guideline) == Err(f.message);
    assert next[k] == turns[k];
  }

  lemma {:induction false} PhaseFailureIsTheSummarizers(turns: seq<Turn>, mask: seq<bool>, budget: int, cfg: Config)
    requires |mask| == |turns| && SummarizePhase(turns, mask, budget, cfg).error.Some?
    ensures BlamesTurn(turns, SummarizePhase(turns, mask, budget, cfg).error.value, cfg)
    decreases OpenCount(turns)
  {
    OldestMeansOldest(turns, mask, cfg);
    var i := OldestSummarizable(turns, mask, cfg);
    if Total(turns, cfg.tok) <= budget || i < 0 {
      SummarizePhaseRests(turns, mask, budget, cfg);
    } else {
      SummarizePhaseTurns(turns, mask, budget, cfg);
      SummarizeAtMeasures(turns, mask, i, cfg);
      var next := SummarizeAt(turns, i, cfg);
      hide SummarizePhase, OldestSummarizable, OpenCount, Total;
      if next.error.None? {
        PhaseFailureIsTheSummarizers(next.history, mask, budget, cfg);
        assert next.history == turns[i := next.history[i]] && next.history[i].compressed;
        hide BlamesTurn;
        BlameCarries(turns, i, next.history[i], SummarizePhase(next.history, mask, budget, cfg).error.value, cfg);
      }
    }
  }

  /** A pass that fails reports the summarizer's own error and the step it failed on. */
  lemma FailureIsTheSummarizers(history: seq<Turn>, budget: int, cfg: Config)
    requires Compressed(history, budget, cfg).error.Some?
    ensures BlamesTurn(history, Compressed(history, budget, cfg).error.value, cfg)
  {
    PhaseFailureIsTheSummarizers(history, Mask(history), budget, cfg);
  }
}
