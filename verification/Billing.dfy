/** What a replayed run costs: token totals, prefix-cache billing, and both arms compared. */
module Billing {
  import opened Basics
  import opened Compression
  import opened PassTheorems
  import opened Agent
  import opened Replay

  function TokSum(blocks: seq<PromptBlock>): nat {
    Sum(Map((b: PromptBlock) => b.tok, blocks))
  }

  /** The token replay's Input: every block of every prompt. */
  function Input(prompts: seq<Prompt>): nat {
    Sum(Map((p: Prompt) => TokSum(p), prompts))
  }

  /** How many leading blocks of p agree, by hash, with the previous prompt. */
  function Matched(prev: Prompt, p: Prompt): (m: nat)
    ensures m <= |prev| && m <= |p|
    ensures forall k :: 0 <= k < m ==> prev[k].hash == p[k].hash
    ensures m < |prev| && m < |p| ==> prev[m].hash != p[m].hash
  {
    if prev == [] || p == [] || prev[0].hash != p[0].hash then 0
    else 1 + Matched(prev[1..], p[1..])
  }

  /** What the token replay reports; the overhead is the summarizer's own count. */
  datatype TokenCost = TokenCost(input: nat, output: nat, engaged: bool)

  datatype CacheCost = CacheCost(cachedTok: nat, freshTok: nat, output: nat, engaged: bool)

  function Previous(prompts: seq<Prompt>, k: nat): Prompt
    requires k < |prompts|
  {
    if k == 0 then [] else prompts[k - 1]
  }

  function Hits(prompts: seq<Prompt>, k: nat): (m: nat)
    requires k < |prompts|
    ensures m <= |prompts[k]|
  {
    Matched(Previous(prompts, k), prompts[k])
  }

  /** Each turn's cached part is its longest common hash prefix with the previous prompt. */
  function Cached(prompts: seq<Prompt>): nat {
    if prompts == [] then 0
    else
      var n := |prompts| - 1;
      Cached(prompts[..n]) + TokSum(prompts[n][..Hits(prompts, n)])
  }

  function Fresh(prompts: seq<Prompt>): nat {
    if prompts == [] then 0
    else
      var n := |prompts| - 1;
      Fresh(prompts[..n]) + TokSum(prompts[n][Hits(prompts, n)..])
  }

  lemma TokSumSplits(p: Prompt, m: nat)
    requires m <= |p|
    ensures TokSum(p) == TokSum(p[..m]) + TokSum(p[m..])
  {
    assert p == p[..m] + p[m..];
    MapSumConcat((b: PromptBlock) => b.tok, p[..m], p[m..]);
  }

  /** Billing loses and invents nothing: cached plus fresh is the token replay's input. */
  lemma {:induction false} BillingIsExact(prompts: seq<Prompt>)
    ensures Cached(prompts) + Fresh(prompts) == Input(prompts)
  {
    hide TokSum, Hits;
    if prompts != [] {
      var n := |prompts| - 1;
      BillingIsExact(prompts[..n]);
      TokSumSplits(prompts[n], Hits(prompts, n));
      assert prompts == prompts[..n] + [prompts[n]];
      MapSumSnoc((p: Prompt) => TokSum(p), prompts[..n], prompts[n]);
    }
  }

  // ------------------------------------------------- the append-only baseline

  predicate AppendOnly(prompts: seq<Prompt>) {
    forall k :: 0 < k < |prompts| ==> prompts[k - 1] <= prompts[k]
  }

  lemma {:induction false} MatchedOnPrefix(prev: Prompt, p: Prompt)
    requires prev <= p
    ensures Matched(prev, p) == |prev|
  {
    if prev != [] {
      MatchedOnPrefix(prev[1..], p[1..]);
    }
  }

  /** When prompts only grow, everything fresh ever paid adds up to the last prompt. */
  lemma {:induction false} FreshTelescopes(prompts: seq<Prompt>)
    requires AppendOnly(prompts)
    ensures Fresh(prompts) == if prompts == [] then 0 else TokSum(prompts[|prompts| - 1])
  {
    if prompts != [] {
      var n := |prompts| - 1;
      FreshTelescopes(prompts[..n]);
      if n > 0 {
        var prev, p := prompts[n - 1], prompts[n];
        MatchedOnPrefix(prev, p);
        TokSumSplits(p, |prev|);
        assert p[..|prev|] == prev;
      } else {
        assert prompts[0][0..] == prompts[0];
      }
    }
  }

  lemma PromptGrows(a: seq<ChatMessage>, b: seq<ChatMessage>, pr: Pricing)
    requires a <= b
    ensures PromptOf(a, pr) <= PromptOf(b, pr)
  {
    assert forall k :: 0 <= k < |a| ==> a[k] == b[k];
  }

  lemma {:induction false} BaselineReplayAppendsOnly(log: seq<ChatMessage>, i: nat, rebuild: seq<ChatMessage>,
                                                     r: Replayed, budget: int, pr: Pricing)
    requires i <= |log| && AppendOnly(r.prompts)
    requires r.prompts != [] ==> r.prompts[|r.prompts| - 1] <= PromptOf(rebuild, pr)
    ensures var result := ReplayFrom(log, i, rebuild, r, None, budget, pr);
      result.Ok? && AppendOnly(result.value.prompts)
    decreases |log| - i
  {
    hide PromptOf, MsgTokens, Rewritten;
    if i == |log| {
    } else if !log[i].role.Assistant? {
      PromptGrows(rebuild, rebuild + [log[i]], pr);
      BaselineReplayAppendsOnly(log, i + 1, rebuild + [log[i]], r, budget, pr);
    } else {
      var j := ToolsEnd(log, i + 1);
      var grown := rebuild + log[i..j];
      RewrittenWithoutCompressor(grown, budget);
      PromptGrows(rebuild, grown, pr);
      var r' := AfterTurn(r, log[i], rebuild, PassOver(grown, None, budget), pr);
      BaselineReplayAppendsOnly(log, j, grown, r', budget, pr);
    }
  }

  /**
   * The uncompressed arm: over any log, all fresh input ever billed is exactly the last
   * prompt. The argument compares whole blocks, so hash collisions do not matter.
   */
  lemma BaselineFreshIsLastPrompt(log: seq<ChatMessage>, budget: int, pr: Pricing)
    ensures var replay := ReplayLog(log, None, budget, pr);
      && replay.Ok?
      && var prompts := replay.value.prompts;
         Fresh(prompts) == if prompts == [] then 0 else TokSum(prompts[|prompts| - 1])
  {
    BaselineReplayAppendsOnly(log, 0, [], Replayed([], 0, false), budget, pr);
    FreshTelescopes(ReplayLog(log, None, budget, pr).value.prompts);
  }

  // -------------------------------------------------- compression vs baseline

  /** The treated message list never outweighs the baseline one, message by message. */
  predicate Dominated(treated: seq<ChatMessage>, base: seq<ChatMessage>, tok: Tokenizer) {
    && |treated| == |base|
    && forall i :: 0 <= i < |base| ==>
         && treated[i].role == base[i].role && treated[i].toolCalls == base[i].toolCalls
         && tok(treated[i].content) <= tok(base[i].content)
         && (base[i].role.Tool? ==> tok(DROP_MARKER) <= tok(base[i].content))
  }

  predicate DominatedPrompts(treated: seq<Prompt>, base: seq<Prompt>) {
    && |treated| == |base|
    && forall k :: 0 <= k < |base| ==> DominatedPrompt(treated[k], base[k])
  }

  predicate DominatedPrompt(treated: Prompt, base: Prompt) {
    |treated| == |base| && forall i :: 0 <= i < |base| ==> treated[i].tok <= base[i].tok
  }

  lemma PassKeepsDominated(treated: seq<ChatMessage>, base: seq<ChatMessage>, cfg: Config, budget: int)
    requires Dominated(treated, base, cfg.tok)
    ensures Dominated(Rewritten(treated, Some(cfg), budget), base, cfg.tok)
  {
    var out, turns := Rewritten(treated, Some(cfg), budget), ToTurns(treated);
    RewrittenEvolves(treated, Some(cfg), budget);
    forall i | 0 <= i < |base|
      ensures out[i].role == base[i].role && out[i].toolCalls == base[i].toolCalls
      ensures cfg.tok(out[i].content) <= cfg.tok(base[i].content)
    {
      assert MessageEvolved(treated[i], out[i]);
      PassKeepsBound(turns, budget, cfg, i, cfg.tok(base[i].content));
    }
  }

  lemma DominatedGrows(treated: seq<ChatMessage>, base: seq<ChatMessage>, more: seq<ChatMessage>, tok: Tokenizer)
    requires Dominated(treated, base, tok)
    requires forall i :: 0 <= i < |more| && more[i].role.Tool? ==> tok(DROP_MARKER) <= tok(more[i].content)
    ensures Dominated(treated + more, base + more, tok)
  {
  }

  lemma PromptDominated(treated: seq<ChatMessage>, base: seq<ChatMessage>, pr: Pricing)
    requires Dominated(treated, base, pr.tok)
    ensures DominatedPrompt(PromptOf(treated, pr), PromptOf(base, pr))
  {
    var pt, pb := PromptOf(treated, pr), PromptOf(base, pr);
    assert pt[0] == pb[0];
    hide PromptOf, MsgBlock;
    forall i | 0 < i < |pb|
      ensures pt[i].tok <= pb[i].tok
    {
      BlockDominated(treated[i - 1], base[i - 1], pr);
    }
  }

  lemma BlockDominated(treated: ChatMessage, base: ChatMessage, pr: Pricing)
    requires treated.toolCalls == base.toolCalls && pr.tok(treated.content) <= pr.tok(base.content)
    ensures MsgBlock(treated, pr).tok <= MsgBlock(base, pr).tok
  {
  }

  ghost predicate ToolsOutweighMarker(log: seq<ChatMessage>, tok: Tokenizer) {
    forall i :: 0 <= i < |log| && log[i].role.Tool? ==> tok(DROP_MARKER) <= tok(log[i].content)
  }

  lemma {:induction false} ReplayDominated(log: seq<ChatMessage>, i: nat, treated: seq<ChatMessage>,
                                           base: seq<ChatMessage>,
                                           rt: Replayed, rb: Replayed, cfg: Config, budget: int, pr: Pricing)
    requires i <= |log| && pr.tok == cfg.tok && ToolsOutweighMarker(log, cfg.tok)
    requires Dominated(treated, base, cfg.tok) && DominatedPrompts(rt.prompts, rb.prompts)
    requires rt.output == rb.output
    requires ReplayFrom(log, i, treated, rt, Some(cfg), budget, pr).Ok?
    ensures var t := ReplayFrom(log, i, treated, rt, Some(cfg), budget, pr);
      var b := ReplayFrom(log, i, base, rb, None, budget, pr);
      && b.Ok? && t.value.output == b.value.output
      && DominatedPrompts(t.value.prompts, b.value.prompts)
    decreases |log| - i
  {
    hide PromptOf, MsgTokens, Rewritten, Dominated, DominatedPrompt, Compressed;
    if i == |log| {
    } else if !log[i].role.Assistant? {
      DominatedGrows(treated, base, [log[i]], cfg.tok);
      ReplayDominated(log, i + 1, treated + [log[i]], base + [log[i]], rt, rb, cfg, budget, pr);
    } else {
      var j := ToolsEnd(log, i + 1);
      var grownT, grownB := treated + log[i..j], base + log[i..j];
      var p := PassOver(grownT, Some(cfg), budget);
      DominatedGrows(treated, base, log[i..j], cfg.tok);
      PassKeepsDominated(grownT, grownB, cfg, budget);
      RewrittenWithoutCompressor(grownB, budget);
      PromptDominated(treated, base, pr);
      var rt' := AfterTurn(rt, log[i], treated, p, pr);
      var rb' := AfterTurn(rb, log[i], base, PassOver(grownB, None, budget), pr);
      ReplayDominated(log, j, Rewritten(grownT, Some(cfg), budget), grownB, rt', rb', cfg, budget, pr);
    }
  }

  /**
   * Compression never costs prompt tokens: over any log whose tool results are at least as
   * long as the drop marker, both arms send the same number of prompts with the same number
   * of blocks, no treated block is larger, output is identical, and treated input is no more.
   */
  lemma CompressionNeverCostsInput(log: seq<ChatMessage>, cfg: Config, budget: int, pr: Pricing)
    requires pr.tok == cfg.tok && ToolsOutweighMarker(log, cfg.tok)
    requires ReplayLog(log, Some(cfg), budget, pr).Ok?
    ensures var t, b := ReplayLog(log, Some(cfg), budget, pr), ReplayLog(log, None, budget, pr);
      && b.Ok? && t.value.output == b.value.output
      && DominatedPrompts(t.value.prompts, b.value.prompts)
      && Input(t.value.prompts) <= Input(b.value.prompts)
  {
    var r0 := Replayed([], 0, false);
    ReplayDominated(log, 0, [], [], r0, r0, cfg, budget, pr);
    InputMonotone(ReplayLog(log, Some(cfg), budget, pr).value.prompts, ReplayLog(log, None, budget, pr).value.prompts);
  }

  lemma InputMonotone(treated: seq<Prompt>, base: seq<Prompt>)
    requires DominatedPrompts(treated, base)
    ensures Input(treated) <= Input(base)
  {
    var weigh := (p: Prompt) => TokSum(p);
    forall k | 0 <= k < |base|
      ensures Map(weigh, treated)[k] <= Map(weigh, base)[k]
    {
      assert DominatedPrompt(treated[k], base[k]);
      SumMonotone(Map((b: PromptBlock) => b.tok, treated[k]), Map((b: PromptBlock) => b.tok, base[k]));
    }
    SumMonotone(Map(weigh, treated), Map(weigh, base));
  }

  // ------------------------------------- why the marker hypothesis is needed

  /** Goal, an action with its observation, another such pair, and a last action. */
  predicate TwoActions(log: seq<ChatMessage>) {
    && |log| == 6 && log[0].role.User?
    && log[1].role.Assistant? && log[2].role.Tool?
    && log[3].role.Assistant? && log[4].role.Tool?
    && log[5].role.Assistant?
  }

  lemma TotalOfFive(h: seq<Turn>, tok: Tokenizer)
    requires |h| == 5
    ensures Total(h, tok) == tok(h[0].content) + tok(h[1].content) + tok(h[2].content)
                             + tok(h[3].content) + tok(h[4].content)
  {
    var f := (t: Turn) => tok(t.content);
    assert h == h[..4] + [h[4]] && h[..4] == h[..3] + [h[3]] && h[..3] == h[..2] + [h[2]];
    assert h[..2] == h[..1] + [h[1]] && h[..1] == h[..0] + [h[0]];
    MapSumSnoc(f, h[..4], h[4]);
    MapSumSnoc(f, h[..3], h[3]);
    MapSumSnoc(f, h[..2], h[2]);
    MapSumSnoc(f, h[..1], h[1]);
    MapSumSnoc(f, h[..0], h[0]);
  }

  lemma SecondPassKeeps(turns: seq<Turn>, cfg: Config, budget: int)
    requires |turns| == 5 && turns[0].role.User? && turns[1].role.Assistant?
    requires turns[3].role.Assistant? && turns[4].role.Tool?
    ensures var h := Compressed(turns, budget, cfg).history;
      h[0] == turns[0] && h[1] == turns[1] && h[3] == turns[3] && h[4] == turns[4]
  {
    hide Compressed;
    assert Protected(turns, 0) && Protected(turns, 3) && Protected(turns, 4);
    hide Protected;
    PassKeepsShape(turns, budget, cfg);
  }

  lemma Unprotected(turns: seq<Turn>, i: nat, j: nat)
    requires i < j < |turns| && turns[i].role.Tool? && turns[j].role.Assistant?
    ensures !Protected(turns, i)
  {
  }

  lemma SecondPassTurns(turns: seq<Turn>, cfg: Config, budget: int)
    requires |turns| == 5 && turns[0].role.User? && turns[1].role.Assistant? && turns[2].role.Tool?
    requires turns[3].role.Assistant? && turns[4].role.Tool? && NeverFails(cfg)
    requires 0 < budget < cfg.tok(turns[0].content) + cfg.tok(turns[4].content)
    ensures var h := Compressed(turns, budget, cfg).history;
      && h[2].content == DROP_MARKER
      && forall i :: 0 <= i < 5 && i != 2 ==> h[i] == turns[i]
  {
    hide Compressed, Protected, Accounts, NeverFails;
    var h := Compressed(turns, budget, cfg).history;
    Unprotected(turns, 2, 3);
    SecondPassKeeps(turns, cfg, budget);
    PassNeverFails(turns, budget, cfg);
    assert Total(h, cfg.tok) > budget by {
      hide Total;
      TotalOfFive(h, cfg.tok);
    }
    hide Total;
    PassMeetsBudget(turns, budget, cfg);
  }

  /** One action later, if goal and newest observation overflow, the older one is dropped. */
  lemma SecondPass(log: seq<ChatMessage>, cfg: Config, budget: int)
    requires TwoActions(log) && NeverFails(cfg)
    requires 0 < budget < cfg.tok(log[0].content) + cfg.tok(log[4].content)
    ensures var out := Rewritten(log[..5], Some(cfg), budget);
      && PassOver(log[..5], Some(cfg), budget).error.None?
      && out[2].content == DROP_MARKER && out[2].toolCalls == log[2].toolCalls
      && forall i :: 0 <= i < 5 && i != 2 ==> out[i] == log[i]
  {
    var turns := ToTurns(log[..5]);
    assert PassOver(log[..5], Some(cfg), budget) == Compressed(turns, budget, cfg);
    hide Compressed;
    PassNeverFails(turns, budget, cfg);
    SecondPassTurns(turns, cfg, budget);
  }

  /** The prompts of such a log, given what each pass makes of the message list. */
  lemma TwoActionsReplay(log: seq<ChatMessage>, comp: Option<Config>, budget: int,
                         m3: seq<ChatMessage>, m5: seq<ChatMessage>, pr: Pricing)
    requires TwoActions(log)
    requires PassOver(log[..3], comp, budget).error.None? && Rewritten(log[..3], comp, budget) == m3
    requires PassOver(m3 + log[3..5], comp, budget).error.None? && Rewritten(m3 + log[3..5], comp, budget) == m5
    requires PassOver(m5 + log[5..6], comp, budget).error.None?
    ensures var r := ReplayLog(log, comp, budget, pr);
      r.Ok? && r.value.prompts == [PromptOf(log[..1], pr), PromptOf(m3, pr), PromptOf(m5, pr)]
  {
    ToolsEndAt(log, 2, 3);
    ToolsEndAt(log, 4, 5);
    ToolsEndAt(log, 6, 6);
    assert log[..1] == [] + [log[0]] && log[..1] + log[1..3] == log[..3];
    hide ReplayFrom, PassOver, Rewritten, PromptOf, MsgTokens, ToolsEnd;
    var r0 := Replayed([], 0, false);
    var p1, p2, p3 := PassOver(log[..3], comp, budget), PassOver(m3 + log[3..5], comp, budget),
                      PassOver(m5 + log[5..6], comp, budget);
    var r1 := AfterTurn(r0, log[1], log[..1], p1, pr);
    var r2 := AfterTurn(r1, log[3], m3, p2, pr);
    var r3 := AfterTurn(r2, log[5], m5, p3, pr);
    assert r3.prompts == [PromptOf(log[..1], pr), PromptOf(m3, pr), PromptOf(m5, pr)];
    hide AfterTurn;
    ReplayUnfolds(log, 0, [], r0, comp, budget, pr);
    ReplayUnfolds(log, 1, log[..1], r0, comp, budget, pr);
    ReplayUnfolds(log, 3, m3, r1, comp, budget, pr);
    ReplayUnfolds(log, 5, m5, r2, comp, budget, pr);
    ReplayUnfolds(log, 6, Rewritten(m5 + log[5..6], comp, budget), r3, comp, budget, pr);
  }

  lemma OneMessageHeavier(light: seq<ChatMessage>, heavy: seq<ChatMessage>, i: nat, pr: Pricing)
    requires |light| == |heavy| && i < |light|
    requires forall k :: 0 <= k < |light| && k != i ==> light[k] == heavy[k]
    requires light[i].toolCalls == heavy[i].toolCalls && pr.tok(light[i].content) < pr.tok(heavy[i].content)
    ensures TokSum(PromptOf(light, pr)) < TokSum(PromptOf(heavy, pr))
  {
    var pl, ph := PromptOf(light, pr), PromptOf(heavy, pr);
    assert pl[0] == ph[0];
    assert MsgBlock(light[i], pr).tok < MsgBlock(heavy[i], pr).tok;
    hide PromptOf, MsgBlock;
    var weigh := (b: PromptBlock) => b.tok;
    assert pl[i + 1].tok < ph[i + 1].tok;
    SumStrictlyMonotone(Map(weigh, pl), Map(weigh, ph), i + 1);
  }

  lemma InputOfThree(a: Prompt, b: Prompt, c: Prompt)
    ensures Input([a, b, c]) == TokSum(a) + TokSum(b) + TokSum(c)
  {
    var weigh := (p: Prompt) => TokSum(p);
    hide TokSum;
    assert [a, b, c] == [a, b] + [c] && [a, b] == [a] + [b] && [a] == [] + [a];
    MapSumSnoc(weigh, [a, b], c);
    MapSumSnoc(weigh, [a], b);
    MapSumSnoc(weigh, [], a);
  }

  /**
   * Without the marker hypothesis the claim fails on a whole family of logs: whenever the
   * goal and the newest observation overflow the budget and the older observation is
   * smaller than the marker, the treated arm is billed strictly more input.
   */
  lemma TinyObservationsCostInput(log: seq<ChatMessage>, cfg: Config, budget: int, pr: Pricing)
    requires TwoActions(log) && NeverFails(cfg) && pr.tok == cfg.tok
    requires 0 < budget < cfg.tok(log[0].content) + cfg.tok(log[4].content)
    requires cfg.tok(log[2].content) < cfg.tok(DROP_MARKER)
    ensures var t, b := ReplayLog(log, Some(cfg), budget, pr), ReplayLog(log, None, budget, pr);
      t.Ok? && b.Ok? && Input(t.value.prompts) > Input(b.value.prompts)
  {
    var m5 := Rewritten(log[..5], Some(cfg), budget);
    assert log[..3] + log[3..5] == log[..5];
    hide Compressed;
    NewestIsUntouched(log[..3], cfg, budget);
    SecondPass(log, cfg, budget);
    RewrittenWithoutCompressor(log[..3], budget);
    RewrittenWithoutCompressor(log[..5], budget);
    PassNeverFails(ToTurns(m5 + log[5..6]), budget, cfg);
    TwoActionsReplay(log, None, budget, log[..3], log[..5], pr);
    TwoActionsReplay(log, Some(cfg), budget, log[..3], m5, pr);
    hide ReplayLog, Rewritten, PassOver, PromptOf, MsgBlock, NeverFails, Input, TokSum, TwoActions;
    OneMessageHeavier(log[..5], m5, 2, pr);
    InputOfThree(PromptOf(log[..1], pr), PromptOf(log[..3], pr), PromptOf(log[..5], pr));
    InputOfThree(PromptOf(log[..1], pr), PromptOf(log[..3], pr), PromptOf(m5, pr));
  }

  /** Under this tokenizer no treated replay is ever billed more input than its baseline. */
  ghost predicate NeverCostsInput(tok: Tokenizer) {
    forall log: seq<ChatMessage>, cfg: Config, budget: int, pr: Pricing ::
      cfg.tok == tok && pr.tok == tok && ReplayLog(log, Some(cfg), budget, pr).Ok? ==>
        CostsNoInput(log, cfg, budget, pr)
  }

  predicate CostsNoInput(log: seq<ChatMessage>, cfg: Config, budget: int, pr: Pricing) {
    var t, b := ReplayLog(log, Some(cfg), budget, pr), ReplayLog(log, None, budget, pr);
    t.Ok? && b.Ok? && Input(t.value.prompts) <= Input(b.value.prompts)
  }

  /** Compression never costs input if and only if no text at all is lighter than the marker. */
  lemma NeverCostsInputIffMarkerLightest(tok: Tokenizer)
    ensures NeverCostsInput(tok) <==> forall s: string :: tok(DROP_MARKER) <= tok(s)
  {
    if forall s: string :: tok(DROP_MARKER) <= tok(s) {
      forall log: seq<ChatMessage>, cfg: Config, budget: int, pr: Pricing
        | cfg.tok == tok && pr.tok == tok && ReplayLog(log, Some(cfg), budget, pr).Ok?
        ensures CostsNoInput(log, cfg, budget, pr)
      {
        CompressionNeverCostsInput(log, cfg, budget, pr);
      }
    } else {
      var s: string :| tok(s) < tok(DROP_MARKER);
      LighterTextCostsInput(tok, s);
    }
  }

  /** Any lighter text gives a log whose replay compression makes dearer. */
  lemma LighterTextCostsInput(tok: Tokenizer, s: string)
    requires tok(s) < tok(DROP_MARKER)
    ensures !NeverCostsInput(tok)
  {
    var cfg := Config(tok, (text: string, guide: string) => Ok(text), "", 0);
    var pr := Pricing(tok, (parts: seq<string>) => 0, 0);
    var act := ChatMessage(Assistant, "", [], "", History, false);
    var light, heavy := ToolResult("", s, RetrievedCode), ToolResult("", DROP_MARKER, RetrievedCode);
    var log := [Goal(DROP_MARKER), act, light, act, heavy, act];
    assert TwoActions(log) && NeverFails(cfg);
    hide ReplayLog, TwoActions;
    TinyObservationsCostInput(log, cfg, 1, pr);
    assert !CostsNoInput(log, cfg, 1, pr);
  }
}
