/**
 * The pass as a machine that makes one move at a time while it is over budget: so staged
 * passes are one pass, a repeat does nothing, and each turn evolves in only a few ways.
 */
module Confluence {
  import opened Basics
  import opened Compression

  /** The single next move: summarize if anything is eligible, otherwise drop. */
  function Move(turns: seq<Turn>, mask: seq<bool>, cfg: Config): Option<Pass>
    requires |mask| == |turns|
  {
    OldestMeansOldest(turns, mask, cfg);
    var i := OldestSummarizable(turns, mask, cfg);
    var d := OldestDroppable(turns, mask);
    if i >= 0 then Some(SummarizeAt(turns, i, cfg))
    else if d >= 0 then Some(DropAt(turns, d))
    else None
  }

  /** The weight of n equal texts. */
  function Times(n: nat, weight: nat): nat {
    if n == 0 then 0 else Times(n - 1, weight) + weight
  }

  lemma {:induction false} TimesAdds(m: nat, n: nat, weight: nat)
    ensures Times(m + n, weight) == Times(m, weight) + Times(n, weight)
    decreases n
  {
    if n > 0 {
      TimesAdds(m, n - 1, weight);
    }
  }

  lemma MoveMeasures(turns: seq<Turn>, mask: seq<bool>, cfg: Config)
    requires |mask| == |turns| && Move(turns, mask, cfg).Some?
    ensures var p := Move(turns, mask, cfg).value;
      && |p.history| == |turns|
      && p.summarized <= |p.calls|
      && (p.error.Some? ==> |p.calls| <= OpenCount(turns) && p.history == turns && p.dropped == 0)
      && (p.error.None? ==>
          && |p.calls| + OpenCount(p.history) == OpenCount(turns)
          && p.dropped + UnmarkedCount(p.history) <= UnmarkedCount(turns)
          && |p.calls| + p.dropped == 1
          && Total(p.history, cfg.tok) <= Total(turns, cfg.tok) + Times(p.dropped, cfg.tok(DROP_MARKER)))
  {
    OldestMeansOldest(turns, mask, cfg);
    var i, p := OldestSummarizable(turns, mask, cfg), Move(turns, mask, cfg).value;
    if i >= 0 {
      assert p == SummarizeAt(turns, i, cfg) && p.dropped == 0;
      SummarizeAtMeasures(turns, mask, i, cfg);
    } else {
      assert p == DropAt(turns, OldestDroppable(turns, mask)) && p.dropped == 1;
      DropAtMeasures(turns, mask, OldestDroppable(turns, mask), cfg.tok);
    }
  }

  /** Make moves while the history is over budget and a move exists. */
  function Drive(turns: seq<Turn>, mask: seq<bool>, budget: int, cfg: Config): (p: Pass)
    requires |mask| == |turns|
    ensures |p.history| == |turns|
    decreases OpenCount(turns) + UnmarkedCount(turns)
  {
    var m := Move(turns, mask, cfg);
    if Total(turns, cfg.tok) <= budget || m.None? then Done(turns)
    else
      MoveMeasures(turns, mask, cfg);
      if m.value.error.Some? then m.value
      else Then(m.value, Drive(m.value.history, mask, budget, cfg))
  }

  lemma {:induction false} DropPhaseIsDrive(turns: seq<Turn>, mask: seq<bool>, budget: int, cfg: Config)
    requires |mask| == |turns|
    requires OldestSummarizable(turns, mask, cfg) < 0
    ensures DropPhase(turns, mask, budget, cfg.tok) == Drive(turns, mask, budget, cfg)
    decreases UnmarkedCount(turns)
  {
    OldestMeansOldest(turns, mask, cfg);
    var d := OldestDroppable(turns, mask);
    if Total(turns, cfg.tok) > budget && d >= 0 {
      var next := DropAt(turns, d).history;
      DropAtMeasures(turns, mask, d, cfg.tok);
      OldestMeansOldest(next, mask, cfg);
      DropPhaseIsDrive(next, mask, budget, cfg);
    }
  }

  lemma PhasesUnfold(turns: seq<Turn>, mask: seq<bool>, budget: int, cfg: Config)
    requires |mask| == |turns| && Total(turns, cfg.tok) > budget
    requires OldestSummarizable(turns, mask, cfg) >= 0
    ensures OldestSummarizable(turns, mask, cfg) < |turns|
    ensures var p := SummarizeAt(turns, OldestSummarizable(turns, mask, cfg), cfg);
      && |p.history| == |turns|
      && (p.error.None? ==> OpenCount(p.history) < OpenCount(turns))
      && Phases(turns, mask, budget, cfg) ==
         if p.error.Some? then p else Then(p, Phases(p.history, mask, budget, cfg))
  {
    OldestMeansOldest(turns, mask, cfg);
    var i := OldestSummarizable(turns, mask, cfg);
    var p := SummarizeAt(turns, i, cfg);
    SummarizeAtMeasures(turns, mask, i, cfg);
    if p.error.None? {
      var q := SummarizePhase(p.history, mask, budget, cfg);
      assert SummarizePhase(turns, mask, budget, cfg) == Then(p, q);
      ThenAssociates(p, q, DropPhase(q.history, mask, budget, cfg.tok));
    }
  }

  lemma {:induction false} PhasesAreDrive(turns: seq<Turn>, mask: seq<bool>, budget: int, cfg: Config)
    requires |mask| == |turns|
    ensures Phases(turns, mask, budget, cfg) == Drive(turns, mask, budget, cfg)
    decreases OpenCount(turns)
  {
    if Total(turns, cfg.tok) <= budget {
      DoneThen(turns, Done(turns));
    } else if OldestSummarizable(turns, mask, cfg) < 0 {
      DropPhaseIsDrive(turns, mask, budget, cfg);
      DoneThen(turns, DropPhase(turns, mask, budget, cfg.tok));
    } else {
      PhasesUnfold(turns, mask, budget, cfg);
      var p := SummarizeAt(turns, OldestSummarizable(turns, mask, cfg), cfg);
      if p.error.None? {
        PhasesAreDrive(p.history, mask, budget, cfg);
      }
    }
  }

  lemma ThenAssociates(p: Pass, q: Pass, r: Pass)
    ensures Then(Then(p, q), r) == Then(p, Then(q, r))
  {
    assert (p.calls + q.calls) + r.calls == p.calls + (q.calls + r.calls);
  }

  lemma DoneThen(turns: seq<Turn>, p: Pass)
    ensures Then(Done(turns), p) == p
  {
    assert [] + p.calls == p.calls;
  }

  /** The two coded loops and the one-move-at-a-time machine are the same function. */
  lemma CompressedIsDrive(history: seq<Turn>, budget: int, cfg: Config)
    ensures Compressed(history, budget, cfg) ==
      if history == [] || budget <= 0 then Done(history)
      else Drive(history, Mask(history), budget, cfg)
  {
    if history != [] && budget > 0 {
      PhasesAreDrive(history, Mask(history), budget, cfg);
    }
  }

  // ------------------------------------------------------ confluence over budgets

  lemma {:induction false} DriveStaged(turns: seq<Turn>, mask: seq<bool>, b1: int, b2: int, cfg: Config)
    requires |mask| == |turns| && b2 <= b1
    ensures var p := Drive(turns, mask, b1, cfg);
      Drive(turns, mask, b2, cfg) ==
      if p.error.Some? then p else Then(p, Drive(p.history, mask, b2, cfg))
    decreases OpenCount(turns) + UnmarkedCount(turns)
  {
    var m := Move(turns, mask, cfg);
    if Total(turns, cfg.tok) <= b1 || m.None? {
      var p := Drive(turns, mask, b2, cfg);
      assert [] + p.calls == p.calls;
    } else {
      MoveMeasures(turns, mask, cfg);
      if m.value.error.None? {
        DriveStaged(m.value.history, mask, b1, b2, cfg);
        var q := Drive(m.value.history, mask, b1, cfg);
        ThenAssociates(m.value, q, Drive(q.history, mask, b2, cfg));
      }
    }
  }

  lemma DriveKeepsMask(turns: seq<Turn>, budget: int, cfg: Config)
    ensures Mask(Drive(turns, Mask(turns), budget, cfg).history) == Mask(turns)
  {
    var p := Drive(turns, Mask(turns), budget, cfg);
    DriveEvolves(turns, Mask(turns), budget, cfg);
    assert forall i :: 0 <= i < |turns| ==> Evolved(turns[i], p.history[i], Mask(turns)[i], cfg);
    MaskReadsRolesOnly(turns, p.history);
  }

  /**
   * Compressing to b1 and then to b2 <= b1 is compressing to b2 at once: same history,
   * same counters, same summarizer calls in the same order, same failure if any.
   */
  lemma StagedEqualsDirect(history: seq<Turn>, b1: int, b2: int, cfg: Config)
    requires 0 < b2 <= b1
    ensures Compressed(history, b2, cfg) ==
      var first := Compressed(history, b1, cfg);
      if first.error.Some? then first else Then(first, Compressed(first.history, b2, cfg))
  {
    CompressedIsDrive(history, b1, cfg);
    CompressedIsDrive(history, b2, cfg);
    DoneThen(history, Done(history));
    if history != [] {
      var first := Drive(history, Mask(history), b1, cfg);
      DriveStaged(history, Mask(history), b1, b2, cfg);
      DriveKeepsMask(history, b1, cfg);
      CompressedIsDrive(first.history, b2, cfg);
    }
  }

  /** Running the pass again at the same budget changes nothing and calls nobody. */
  lemma RepeatIsNoOp(history: seq<Turn>, budget: int, cfg: Config)
    requires Compressed(history, budget, cfg).error.None?
    ensures var once := Compressed(history, budget, cfg).history;
      Compressed(once, budget, cfg) == Done(once)
  {
    if budget > 0 {
      StagedEqualsDirect(history, budget, budget, cfg);
      var first := Compressed(history, budget, cfg);
      var second := Compressed(first.history, budget, cfg);
      assert |first.calls + second.calls| == |first.calls|;
      assert second.calls == [];
    }
  }

  // ----------------------------------------------------- what happens to one turn

  /** How one turn may change over any number of moves. */
  predicate Evolved(a: Turn, b: Turn, isProtected: bool, cfg: Config) {
    && b.role == a.role && b.step == a.step && b.kind == a.kind
    && (isProtected || !a.role.Tool? || a.content == DROP_MARKER ==> b == a)
    && (a.compressed ==> b.compressed)
    && (|| b.content == a.content
        || b.content == DROP_MARKER
        || (&& !a.compressed && b.compressed
            && cfg.summarize(a.content, cfg.guideline) == Ok(b.content)
            && cfg.tok(b.content) < cfg.tok(a.content)))
  }

  lemma MoveEvolves(turns: seq<Turn>, mask: seq<bool>, cfg: Config)
    requires |mask| == |turns| && Move(turns, mask, cfg).Some?
    ensures var p := Move(turns, mask, cfg).value;
      && |p.history| == |turns|
      && forall i :: 0 <= i < |turns| ==> Evolved(turns[i], p.history[i], mask[i], cfg)
  {
    OldestMeansOldest(turns, mask, cfg);
    var p := Move(turns, mask, cfg).value;
    var s, d := OldestSummarizable(turns, mask, cfg), OldestDroppable(turns, mask);
    forall i | 0 <= i < |turns|
      ensures Evolved(turns[i], p.history[i], mask[i], cfg)
    {
      if i != (if s >= 0 then s else d) {
        assert p.history[i] == turns[i];
      }
    }
  }

  lemma EvolvedTransitive(a: Turn, b: Turn, c: Turn, isProtected: bool, cfg: Config)
    requires Evolved(a, b, isProtected, cfg) && Evolved(b, c, isProtected, cfg)
    ensures Evolved(a, c, isProtected, cfg)
  {
  }

  lemma {:induction false} DriveEvolves(turns: seq<Turn>, mask: seq<bool>, budget: int, cfg: Config)
    requires |mask| == |turns|
    ensures var p := Drive(turns, mask, budget, cfg);
      forall i :: 0 <= i < |turns| ==> Evolved(turns[i], p.history[i], mask[i], cfg)
    decreases OpenCount(turns) + UnmarkedCount(turns)
  {
    var m := Move(turns, mask, cfg);
    if Total(turns, cfg.tok) > budget && m.Some? {
      MoveEvolves(turns, mask, cfg);
      if m.value.error.None? {
        var next := m.value.history;
        MoveMeasures(turns, mask, cfg);
        DriveEvolves(next, mask, budget, cfg);
        var p := Drive(turns, mask, budget, cfg);
        assert p.history == Drive(next, mask, budget, cfg).history;
        forall i | 0 <= i < |turns|
          ensures Evolved(turns[i], p.history[i], mask[i], cfg)
        {
          EvolvedTransitive(turns[i], next[i], p.history[i], mask[i], cfg);
        }
      }
    }
  }
}
