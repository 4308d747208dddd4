/** The replay and billing loops as they run, proved against Replay and Billing. */
module ReplayLoop {
  import opened Basics
  import opened Compression
  import opened Compressor
  import opened Agent
  import opened Replay
  import opened Billing
  import opened AgentLoop

  method RenderPrompt(msgs: seq<ChatMessage>, pr: Pricing) returns (p: Prompt)
    ensures p == PromptOf(msgs, pr)
  {
    p := [PromptBlock(pr.perTurnSystem, pr.hash(["system+tools"]))];
    for i := 0 to |msgs|
      invariant p == PromptOf(msgs, pr)[..i + 1]
    {
      p := p + [MsgBlock(msgs[i], pr)];
    }
  }

  /** Appends the tool messages that answer the model turn at i. */
  method TakeTools(log: seq<ChatMessage>, i: nat, before: seq<ChatMessage>)
    returns (grown: seq<ChatMessage>, j: nat)
    requires i < |log|
    ensures j == ToolsEnd(log, i + 1) && grown == before + log[i + 1..j]
  {
    grown, j := before, i + 1;
    while j < |log| && log[j].role.Tool?
      invariant i < j <= |log| && ToolsEnd(log, j) == ToolsEnd(log, i + 1)
      invariant grown == before + log[i + 1..j]
    {
      assert log[i + 1..j + 1] == log[i + 1..j] + [log[j]];
      grown := grown + [log[j]];
      j := j + 1;
    }
  }

  /** Walks the log exactly as the live loop would, compressing after every model turn. */
  method ReplayPrompts(log: seq<ChatMessage>, comp: GuidelineCompressor?, budget: int, pr: Pricing)
    returns (r: Result<Replayed, Failure>)
    requires Ready(comp)
    modifies if comp == null then {} else {comp.summarizer}
    ensures Ready(comp) && r == ReplayLog(log, SettingsOf(comp), budget, pr)
    ensures Logged(comp, if comp == null then [] else old(comp.summarizer.log),
                   ReplayCalls(log, 0, [], SettingsOf(comp), budget))
  {
    hide PromptOf, MsgTokens, PassOver, Rewritten, SettingsOf, ReplayFrom, ReplayCalls, ToolsEnd, Ready, Logged;
    ghost var cfg, log0 := SettingsOf(comp), if comp == null then [] else comp.summarizer.log;
    ghost var calls: seq<string> := [];
    NothingLogged(comp, log0);
    var rebuild: seq<ChatMessage> := [];
    var prompts: seq<Prompt>, output: nat, engaged := [], 0, false;
    var i := 0;
    while i < |log|
      invariant i <= |log| && Ready(comp)
      invariant ReplayFrom(log, i, rebuild, Replayed(prompts, output, engaged), cfg, budget, pr)
        == ReplayLog(log, cfg, budget, pr)
      invariant Logged(comp, log0, calls)
      invariant calls + ReplayCalls(log, i, rebuild, cfg, budget) == ReplayCalls(log, 0, [], cfg, budget)
      decreases |log| - i
    {
      var m := log[i];
      ReplayUnfolds(log, i, rebuild, Replayed(prompts, output, engaged), cfg, budget, pr);
      CallsUnfold(calls, log, i, rebuild, cfg, budget);
      if !m.role.Assistant? {
        rebuild := rebuild + [m];
        i := i + 1;
        continue;
      }
      var p := RenderPrompt(rebuild, pr);
      var grown, j := TakeTools(log, i, rebuild + [m]);
      assert grown == rebuild + log[i..j];
      i := j;
      ghost var p' := PassOver(grown, cfg, budget);
      var summarized, dropped, failure;
      grown, summarized, dropped, failure := CompressTurn(comp, budget, grown, calls, log0);
      calls := calls + p'.calls;
      if failure.Some? {
        return Err(failure.value);
      }
      rebuild := grown;
      prompts, output := prompts + [p], output + MsgTokens(m, pr.tok);
      engaged := engaged || summarized > 0 || dropped > 0;
    }
    ReplayUnfolds(log, i, rebuild, Replayed(prompts, output, engaged), cfg, budget, pr);
    CallsUnfold(calls, log, i, rebuild, cfg, budget);
    return Ok(Replayed(prompts, output, engaged));
  }

  /** One turn of the replay loop, on the calls made so far. */
  lemma CallsUnfold(done: seq<string>, log: seq<ChatMessage>, i: nat, rebuild: seq<ChatMessage>,
                    comp: Option<Config>, budget: int)
    requires i <= |log|
    ensures done + ReplayCalls(log, i, rebuild, comp, budget) ==
      if i == |log| then done
      else if !log[i].role.Assistant? then done + ReplayCalls(log, i + 1, rebuild + [log[i]], comp, budget)
      else
        var j := ToolsEnd(log, i + 1);
        var grown := rebuild + log[i..j];
        var p := PassOver(grown, comp, budget);
        if p.error.Some? then done + p.calls
        else done + p.calls + ReplayCalls(log, j, Rewritten(grown, comp, budget), comp, budget)
  {
    hide PassOver, Rewritten, ToolsEnd;
  }

  method CompressTurn(comp: GuidelineCompressor?, budget: int, msgs: seq<ChatMessage>,
                      ghost calls: seq<string>, ghost log0: seq<Call>)
    returns (out: seq<ChatMessage>, summarized: nat, dropped: nat, error: Option<Failure>)
    requires Ready(comp) && Logged(comp, log0, calls)
    modifies if comp == null then {} else {comp.summarizer}
    ensures Ready(comp)
    ensures var p := PassOver(msgs, SettingsOf(comp), budget);
      && error == p.error && Logged(comp, log0, calls + p.calls)
      && (if p.error.Some? then out == msgs
          else out == Rewritten(msgs, SettingsOf(comp), budget)
               && summarized == p.summarized && dropped == p.dropped)
  {
    hide PassOver, Rewritten;
    ghost var p := PassOver(msgs, SettingsOf(comp), budget);
    if comp == null {
      RewrittenWithoutCompressor(msgs, budget);
      NoPass(msgs, budget);
      return msgs, 0, 0, None;
    }
    out, summarized, dropped, error := CompressMessages(comp, budget, msgs);
    LogGrows(log0, calls, p.calls, comp.guideline);
  }

  lemma NoPass(msgs: seq<ChatMessage>, budget: int)
    ensures PassOver(msgs, None, budget) == Done(ToTurns(msgs))
  {
  }

  /** Sums every block of every prompt. */
  method ReplayInput(prompts: seq<Prompt>) returns (input: nat)
    ensures input == Input(prompts)
  {
    input := 0;
    for i := 0 to |prompts|
      invariant input == Input(prompts[..i])
    {
      var p, sum := prompts[i], 0;
      for k := 0 to |p|
        invariant sum == TokSum(p[..k])
      {
        sum := sum + p[k].tok;
        assert p[..k + 1] == p[..k] + [p[k]];
        MapSumSnoc((b: PromptBlock) => b.tok, p[..k], p[k]);
      }
      assert p[..|p|] == p;
      input := input + sum;
      assert prompts[..i + 1] == prompts[..i] + [p];
      MapSumSnoc((q: Prompt) => TokSum(q), prompts[..i], p);
    }
    assert prompts[..|prompts|] == prompts;
  }

  /** One prompt against the previous one: blocks hit until the first divergence, then all miss. */
  method BillPrompt(prev: Prompt, p: Prompt) returns (cached: nat, fresh_: nat)
    ensures cached == TokSum(p[..Matched(prev, p)]) && fresh_ == TokSum(p[Matched(prev, p)..])
  {
    ghost var m := Matched(prev, p);
    var matched := true;
    cached, fresh_ := 0, 0;
    for k := 0 to |p|
      invariant matched == (k <= m) && m <= |p|
      invariant cached == TokSum(p[..if k <= m then k else m])
      invariant fresh_ == if k <= m then 0 else TokSum(p[m..k])
    {
      var b := p[k];
      if matched && k < |prev| && prev[k].hash == b.hash {
        assert p[..k + 1] == p[..k] + [b];
        MapSumSnoc((q: PromptBlock) => q.tok, p[..k], b);
        cached := cached + b.tok;
      } else {
        matched := false;
        assert p[m..k + 1] == p[m..k] + [b];
        MapSumSnoc((q: PromptBlock) => q.tok, p[m..k], b);
        fresh_ := fresh_ + b.tok;
      }
    }
    assert p[m..|p|] == p[m..];
  }

  lemma BillGrows(prompts: seq<Prompt>, i: nat)
    requires i < |prompts|
    ensures var m := Matched(Previous(prompts, i), prompts[i]);
      && Cached(prompts[..i + 1]) == Cached(prompts[..i]) + TokSum(prompts[i][..m])
      && Fresh(prompts[..i + 1]) == Fresh(prompts[..i]) + TokSum(prompts[i][m..])
  {
    hide TokSum, Matched;
    assert prompts[..i + 1][..i] == prompts[..i];
  }

  /** Replays under the compressor and bills the prompts; a failed replay has no bill. */
  method ReplayCacheCost(log: seq<ChatMessage>, comp: GuidelineCompressor?, budget: int, pr: Pricing)
    returns (r: Result<CacheCost, Failure>)
    requires Ready(comp)
    modifies if comp == null then {} else {comp.summarizer}
    ensures Ready(comp)
    ensures Logged(comp, if comp == null then [] else old(comp.summarizer.log),
                   ReplayCalls(log, 0, [], SettingsOf(comp), budget))
    ensures var replay := ReplayLog(log, SettingsOf(comp), budget, pr);
      r == match replay
           case Err(e) => Err(e)
           case Ok(p) => Ok(CacheCost(Cached(p.prompts), Fresh(p.prompts), p.output, p.engaged))
  {
    var replay := ReplayPrompts(log, comp, budget, pr);
    match replay {
      case Err(e) =>
        return Err(e);
      case Ok(p) =>
        var cached, miss := BillPrompts(p.prompts);
        return Ok(CacheCost(cached, miss, p.output, p.engaged));
    }
  }

  /** The same replay, charged by tokens alone. */
  method ReplayCost(log: seq<ChatMessage>, comp: GuidelineCompressor?, budget: int, pr: Pricing)
    returns (r: Result<TokenCost, Failure>)
    requires Ready(comp)
    modifies if comp == null then {} else {comp.summarizer}
    ensures Ready(comp)
    ensures Logged(comp, if comp == null then [] else old(comp.summarizer.log),
                   ReplayCalls(log, 0, [], SettingsOf(comp), budget))
    ensures var replay := ReplayLog(log, SettingsOf(comp), budget, pr);
      r == match replay
           case Err(e) => Err(e)
           case Ok(p) => Ok(TokenCost(Input(p.prompts), p.output, p.engaged))
  {
    var replay := ReplayPrompts(log, comp, budget, pr);
    match replay {
      case Err(e) =>
        return Err(e);
      case Ok(p) =>
        var input := ReplayInput(p.prompts);
        return Ok(TokenCost(input, p.output, p.engaged));
    }
  }

  method BillPrompts(prompts: seq<Prompt>) returns (cached: nat, miss: nat)
    ensures cached == Cached(prompts) && miss == Fresh(prompts)
  {
    cached, miss := 0, 0;
    var prev: Prompt := [];
    for i := 0 to |prompts|
      invariant cached == Cached(prompts[..i]) && miss == Fresh(prompts[..i])
      invariant i < |prompts| ==> prev == Previous(prompts, i)
    {
      hide TokSum, Matched, Cached, Fresh;
      var c, f := BillPrompt(prev, prompts[i]);
      BillGrows(prompts, i);
      cached, miss := cached + c, miss + f;
      prev := prompts[i];
    }
    assert prompts[..|prompts|] == prompts;
  }
}
