/**
 * The compressor as it runs: a metering summarizer that counts every call, and the
 * two rewriting loops over a copy of the history, proved equal to Compressed.
 */
module Compressor {
  import opened Basics
  import opened Compression
  import opened Confluence

  type Summarizer = (string, string) -> Result<string, string>

  datatype Call = Call(text: string, instruction: string) {
    function Input(tok: Tokenizer): nat {
      tok(text) + tok(instruction)
    }

    function Output(tok: Tokenizer, inner: Summarizer): nat {
      match inner(text, instruction) case Ok(out) => tok(out) case Err(_) => 0
    }
  }

  function InputCost(log: seq<Call>, tok: Tokenizer): nat {
    Sum(Map((call: Call) => call.Input(tok), log))
  }

  function OutputCost(log: seq<Call>, tok: Tokenizer, inner: Summarizer): nat {
    Sum(Map((call: Call) => call.Output(tok, inner), log))
  }

  /** Tallies what the summarizer costs; log is the ghost list of calls. */
  class MeteringSummarizer {
    const inner: Summarizer
    const tok: Tokenizer
    var inputTokens: nat
    var outputTokens: nat
    var calls: nat
    ghost var log: seq<Call>

    constructor (inner: Summarizer, tok: Tokenizer)
      ensures Valid() && log == [] && this.inner == inner && this.tok == tok
    {
      this.inner, this.tok := inner, tok;
      inputTokens, outputTokens, calls, log := 0, 0, 0, [];
    }

    ghost predicate Valid()
      reads this
    {
      && calls == |log|
      && inputTokens == InputCost(log, tok)
      && outputTokens == OutputCost(log, tok, inner)
    }

    method Summarize(text: string, instruction: string) returns (r: Result<string, string>)
      requires Valid()
      modifies this
      ensures Valid() && r == inner(text, instruction)
      ensures log == old(log) + [Call(text, instruction)]
      ensures calls == old(calls) + 1
      ensures inputTokens == old(inputTokens) + tok(text) + tok(instruction)
      ensures outputTokens == old(outputTokens) + (match r case Ok(out) => tok(out) case Err(_) => 0)
    {
      r := inner(text, instruction);
      calls := calls + 1;
      inputTokens := inputTokens + tok(text) + tok(instruction);
      if r.Ok? {
        outputTokens := outputTokens + tok(r.value);
      }
      log := log + [Call(text, instruction)];
      assert log[..|log| - 1] == old(log);
      CostsGrow(old(log), Call(text, instruction), tok, inner);
    }
  }

  lemma CostsGrow(log: seq<Call>, call: Call, tok: Tokenizer, inner: Summarizer)
    ensures InputCost(log + [call], tok) == InputCost(log, tok) + call.Input(tok)
    ensures OutputCost(log + [call], tok, inner) == OutputCost(log, tok, inner) + call.Output(tok, inner)
  {
    MapSumSnoc((c: Call) => c.Input(tok), log, call);
    MapSumSnoc((c: Call) => c.Output(tok, inner), log, call);
  }

  function Calls(texts: seq<string>, guideline: string): seq<Call> {
    Map((text: string) => Call(text, guideline), texts)
  }

  lemma CallsConcat(a: seq<string>, b: seq<string>, guideline: string)
    ensures Calls(a + b, guideline) == Calls(a, guideline) + Calls(b, guideline)
  {
  }

  /** One turn of the first loop, as an equation between what is done and what remains. */
  lemma PhaseUnfolds(acc: Pass, turns: seq<Turn>, mask: seq<bool>, budget: int, cfg: Config)
    requires |mask| == |turns| && Total(turns, cfg.tok) > budget
    requires OldestSummarizable(turns, mask, cfg) >= 0
    ensures OldestSummarizable(turns, mask, cfg) < |turns|
    ensures var p := SummarizeAt(turns, OldestSummarizable(turns, mask, cfg), cfg);
      && |p.history| == |turns|
      && (p.error.None? ==> OpenCount(p.history) < OpenCount(turns))
      && Then(acc, SummarizePhase(turns, mask, budget, cfg)) ==
         if p.error.Some? then Then(acc, p)
         else Then(Then(acc, p), SummarizePhase(p.history, mask, budget, cfg))
  {
    OldestMeansOldest(turns, mask, cfg);
    var i := OldestSummarizable(turns, mask, cfg);
    SummarizeAtMeasures(turns, mask, i, cfg);
    var p := SummarizeAt(turns, i, cfg);
    ThenAssociates(acc, p, SummarizePhase(p.history, mask, budget, cfg));
  }

  datatype CompressResult = CompressResult(history: seq<Turn>, summarized: nat, dropped: nat)

  class GuidelineCompressor {
    const summarizer: MeteringSummarizer
    const tok: Option<Tokenizer>
    const guideline: string
    const minTokens: int

    constructor (summarizer: MeteringSummarizer, tok: Option<Tokenizer>, guideline: string, minTokens: int)
      ensures this.summarizer == summarizer && this.tok == tok
      ensures this.guideline == guideline && this.minTokens == minTokens
    {
      this.summarizer, this.tok, this.guideline, this.minTokens := summarizer, tok, guideline, minTokens;
    }

    function Settings(): Config
      requires tok.Some?
    {
      Config(tok.value, summarizer.inner, guideline, minTokens)
    }

    /** What one pass does, with the source's "no tokenizer" no-op. */
    function Outcome(history: seq<Turn>, budget: int): (p: Pass)
      ensures |p.history| == |history|
    {
      if tok.None? then Done(history) else Compressed(history, budget, Settings())
    }

    /**
     * Two loops over a private copy: the caller's history is untouched, the summarizer is
     * called on exactly the texts the specification lists, and a failing call aborts.
     */
    method Compress(history: seq<Turn>, budget: int) returns (r: Result<CompressResult, Failure>)
      requires summarizer.Valid()
      modifies summarizer
      ensures summarizer.Valid()
      ensures var p := Outcome(history, budget);
        && summarizer.log == old(summarizer.log) + Calls(p.calls, guideline)
        && r == if p.error.Some? then Err(p.error.value)
                else Ok(CompressResult(p.history, p.summarized, p.dropped))
    {
      var out := new Turn[|history|](i requires 0 <= i < |history| => history[i]);
      assert out[..] == history;
      if tok.Some? {
        var size := TotalOf(out, tok.value);
        if out.Length > 0 && budget > 0 && size > budget {
          r := CompressInPlace(out, budget);
          return;
        }
      }
      assert summarizer.log == summarizer.log + Calls([], guideline);
      return Ok(CompressResult(out[..], 0, 0));
    }

    method CompressInPlace(out: array<Turn>, budget: int) returns (r: Result<CompressResult, Failure>)
      requires summarizer.Valid() && tok.Some?
      requires out.Length > 0 && budget > 0 && Total(out[..], tok.value) > budget
      modifies summarizer, out
      ensures summarizer.Valid()
      ensures var p := Compressed(old(out[..]), budget, Settings());
        && summarizer.log == old(summarizer.log) + Calls(p.calls, guideline)
        && r == if p.error.Some? then Err(p.error.value)
                else Ok(CompressResult(p.history, p.summarized, p.dropped))
    {
      hide SummarizePhase, DropPhase, Mask, Total, Protected;
      var mask := ProtectedMask(out);
      ghost var p, pass := SummarizePhase(out[..], mask, budget, Settings()),
                           Phases(out[..], mask, budget, Settings());
      var summarized, error := SummarizeOldest(out, mask, budget);
      if error.Some? {
        return Err(error.value);
      }
      ghost var q := DropPhase(out[..], mask, budget, tok.value);
      var dropped := DropOldest(out, mask, budget, tok.value);
      assert pass == Then(p, q) && p.calls + q.calls == p.calls;
      return Ok(CompressResult(out[..], summarized, dropped));
    }

    /** The array, the counter and the call log are those of pass p begun at log0. */
    ghost predicate Mirrors(p: Pass, out: array<Turn>, summarized: nat, log0: seq<Call>)
      reads out, summarizer
    {
      && summarizer.Valid()
      && out[..] == p.history && summarized == p.summarized && p.dropped == 0
      && summarizer.log == log0 + Calls(p.calls, guideline)
    }

    method SummarizeOldest(out: array<Turn>, mask: seq<bool>, budget: int)
      returns (summarized: nat, error: Option<Failure>)
      requires |mask| == out.Length && tok.Some? && summarizer.Valid()
      modifies out, summarizer
      ensures var p := SummarizePhase(old(out[..]), mask, budget, Settings());
        Mirrors(p, out, summarized, old(summarizer.log)) && error == p.error
    {
      ghost var cfg, log0 := Settings(), summarizer.log;
      ghost var phase := SummarizePhase(out[..], mask, budget, cfg);
      ghost var acc := Done(out[..]);
      summarized, error := 0, None;
      DoneThen(out[..], phase);
      assert log0 == log0 + Calls([], guideline);
      var size := TotalOf(out, tok.value);
      while size > budget
        invariant size == Total(out[..], tok.value)
        invariant Mirrors(acc, out, summarized, log0) && acc.error.None? && error.None?
        invariant phase == Then(acc, SummarizePhase(acc.history, mask, budget, cfg))
        decreases OpenCount(acc.history)
      {
        ghost var before := acc.history;
        var i := FindSummarizable(out, mask);
        if i < 0 {
          break;
        }
        PhaseUnfolds(acc, before, mask, budget, cfg);
        summarized, error := SummarizeOne(out, i, summarized, acc, log0);
        acc := Then(acc, SummarizeAt(before, i, cfg));
        if error.Some? {
          return;
        }
        size := TotalOf(out, tok.value);
      }
      assert phase == acc by { assert acc.calls + [] == acc.calls; }
    }

    method SummarizeOne(out: array<Turn>, i: nat, summarized: nat, ghost acc: Pass, ghost log0: seq<Call>)
      returns (count: nat, error: Option<Failure>)
      requires i < out.Length && tok.Some? && Mirrors(acc, out, summarized, log0)
      modifies out, summarizer
      ensures var p := SummarizeAt(acc.history, i, Settings());
        Mirrors(Then(acc, p), out, count, log0) && error == p.error
    {
      ghost var p := SummarizeAt(acc.history, i, Settings());
      CallsConcat(acc.calls, p.calls, guideline);
      assert Calls(p.calls, guideline) == [Call(out[i].content, guideline)];
      var answer := summarizer.Summarize(out[i].content, guideline);
      assert summarizer.log == log0 + Calls(acc.calls + p.calls, guideline);
      if answer.Err? {
        return summarized, Some(Failure(out[i].step, answer.error));
      }
      count := Rewrite(out, i, answer.value, summarized);
      error := None;
    }

    /** Mark the observation compressed; keep the summary only if it is shorter. */
    method Rewrite(out: array<Turn>, i: nat, summary: string, summarized: nat) returns (count: nat)
      requires i < out.Length && tok.Some?
      requires summarizer.inner(out[i].content, guideline) == Ok(summary)
      modifies out
      ensures var p := SummarizeAt(old(out[..]), i, Settings());
        out[..] == p.history && count == summarized + p.summarized
    {
      count := summarized;
      if tok.value(summary) < tok.value(out[i].content) {
        out[i] := out[i].(content := summary, compressed := true);
        count := count + 1;
      } else {
        out[i] := out[i].(compressed := true);
      }
    }

    /** Unprotected, an observation, not yet summarized nor dropped, and above the size floor if there is one. */
    predicate MaySummarize(t: Turn, isProtected: bool)
      requires tok.Some?
    {
      && !isProtected && t.role.Tool? && !t.compressed && t.content != DROP_MARKER
      && (minTokens > 0 ==> tok.value(t.content) > minTokens)
    }

    method FindSummarizable(turns: array<Turn>, mask: seq<bool>) returns (i: int)
      requires |mask| == turns.Length && tok.Some?
      ensures i == OldestSummarizable(turns[..], mask, Settings())
      ensures -1 <= i < turns.Length
      ensures i >= 0 ==> MaySummarize(turns[i], mask[i])
      ensures forall j :: 0 <= j < (if i < 0 then turns.Length else i) ==> !MaySummarize(turns[j], mask[j])
    {
      OldestMeansOldest(turns[..], mask, Settings());
      i := 0;
      while i < turns.Length
        invariant 0 <= i <= turns.Length
        invariant forall j :: 0 <= j < i ==> !Summarizable(turns[j], mask[j], Settings())
      {
        if !(mask[i] || !turns[i].role.Tool? || turns[i].compressed || turns[i].content == DROP_MARKER)
           && !(minTokens > 0 && tok.value(turns[i].content) <= minTokens) {
          return;
        }
        i := i + 1;
      }
      i := -1;
    }
  }

  method DropOldest(out: array<Turn>, mask: seq<bool>, budget: int, tok: Tokenizer) returns (dropped: nat)
    requires |mask| == out.Length
    modifies out
    ensures var p := DropPhase(old(out[..]), mask, budget, tok);
      && out[..] == p.history && dropped == p.dropped
      && p.summarized == 0 && p.calls == []
  {
    ghost var phase := DropPhase(out[..], mask, budget, tok);
    dropped := 0;
    DoneThen(out[..], phase);
    var size := TotalOf(out, tok);
    while size > budget
      invariant size == Total(out[..], tok)
      invariant phase == Then(Pass(out[..], 0, dropped, [], None), DropPhase(out[..], mask, budget, tok))
      decreases UnmarkedCount(out[..])
    {
      ghost var before := out[..];
      var i := FindDroppable(out, mask);
      OldestMeansOldest(before, mask, Config(tok, (t, g) => Err(""), "", 0));
      if i < 0 {
        break;
      }
      DropAtMeasures(before, mask, i, tok);
      ghost var step := DropAt(before, i);
      out[i] := out[i].(content := DROP_MARKER);
      assert out[..] == step.history;
      ThenAssociates(Pass(before, 0, dropped, [], None), step, DropPhase(step.history, mask, budget, tok));
      dropped := dropped + 1;
      size := TotalOf(out, tok);
    }
    assert DropPhase(out[..], mask, budget, tok) == Done(out[..]);
  }

  method FindDroppable(turns: array<Turn>, mask: seq<bool>) returns (i: int)
    requires |mask| == turns.Length
    ensures i == OldestDroppable(turns[..], mask)
    ensures -1 <= i < turns.Length
    ensures i >= 0 ==> !mask[i] && turns[i].role.Tool? && turns[i].content != DROP_MARKER
    ensures forall j :: 0 <= j < (if i < 0 then turns.Length else i) ==>
      mask[j] || !turns[j].role.Tool? || turns[j].content == DROP_MARKER
  {
    OldestMeansOldest(turns[..], mask, Config(t => 0, (t, g) => Err(""), "", 0));
    i := 0;
    while i < turns.Length
      invariant 0 <= i <= turns.Length
      invariant forall j :: 0 <= j < i ==> !Droppable(turns[j], mask[j])
    {
      if !(mask[i] || !turns[i].role.Tool? || turns[i].content == DROP_MARKER) {
        return;
      }
      i := i + 1;
    }
    i := -1;
  }

  method TotalOf(turns: array<Turn>, tok: Tokenizer) returns (n: nat)
    ensures n == Total(turns[..], tok)
  {
    n := 0;
    ghost var weights := Map((t: Turn) => tok(t.content), turns[..]);
    for i := 0 to turns.Length
      invariant n == Sum(weights[..i])
    {
      n := n + tok(turns[i].content);
      assert weights[..i + 1][..i] == weights[..i];
    }
    assert weights[..turns.Length] == weights;
  }

  /** Marks the first user turn, then everything from the last assistant turn on. */
  method ProtectedMask(turns: array<Turn>) returns (mask: seq<bool>)
    ensures mask == Mask(turns[..])
  {
    var p := new bool[turns.Length](i => false);
    var goal := 0;
    while goal < turns.Length
      invariant 0 <= goal <= turns.Length
      invariant forall j :: 0 <= j < goal ==> !turns[j].role.User?
      invariant forall j :: 0 <= j < p.Length ==> !p[j]
    {
      if turns[goal].role.User? {
        p[goal] := true;
        break;
      }
      goal := goal + 1;
    }
    var lastAction := -1;
    for i := 0 to turns.Length
      invariant -1 <= lastAction < i
      invariant lastAction >= 0 ==> turns[lastAction].role.Assistant?
      invariant forall j :: lastAction < j < i ==> !turns[j].role.Assistant?
    {
      if turns[i].role.Assistant? {
        lastAction := i;
      }
    }
    if lastAction >= 0 {
      for i := lastAction to turns.Length
        invariant forall j :: 0 <= j < p.Length ==> p[j] == (j == goal || lastAction <= j < i)
      {
        p[i] := true;
      }
    }
    mask := p[..];
    var all := turns[..];
    assert forall j :: 0 <= j < |all| ==> all[j] == turns[j];
    forall i | 0 <= i < |all|
      ensures mask[i] == Protected(all, i)
    {
      if lastAction >= 0 && lastAction <= i {
        assert all[lastAction].role.Assistant?;
      }
      if i == goal {
        assert all[goal].role.User?;
      }
    }
  }
}
