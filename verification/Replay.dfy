/**
 * Re-executing a recorded message log: the prompt each model turn is sent, what it
 * costs, and how it is billed under prefix caching. The block hash is an arbitrary
 * function: nothing here assumes it is injective.
 */
module Replay {
  import opened Basics
  import opened Compression
  import opened Agent

  datatype PromptBlock = PromptBlock(tok: nat, hash: nat)

  type Prompt = seq<PromptBlock>

  datatype Pricing = Pricing(tok: Tokenizer, hash: seq<string> -> nat, perTurnSystem: nat)

  function CallTokens(tc: ToolCall, tok: Tokenizer): nat {
    tok(tc.name) + tok(tc.args)
  }

  function MsgTokens(m: ChatMessage, tok: Tokenizer): nat {
    tok(m.content) + Sum(Map((tc: ToolCall) => CallTokens(tc, tok), m.toolCalls))
  }

  function RoleName(role: Role): string {
    match role
    case System => "system"
    case User => "user"
    case Assistant => "assistant"
    case Tool => "tool"
    case Other(name) => name
  }

  function CallParts(calls: seq<ToolCall>): seq<string> {
    if calls == [] then []
    else CallParts(calls[..|calls| - 1]) + [calls[|calls| - 1].name, calls[|calls| - 1].args]
  }

  function MsgBlock(m: ChatMessage, pr: Pricing): PromptBlock {
    PromptBlock(MsgTokens(m, pr.tok), pr.hash([RoleName(m.role), m.content] + CallParts(m.toolCalls)))
  }

  function PromptOf(msgs: seq<ChatMessage>, pr: Pricing): (p: Prompt)
    ensures |p| == |msgs| + 1
    ensures forall i :: 0 < i < |p| ==> p[i] == MsgBlock(msgs[i - 1], pr)
  {
    [PromptBlock(pr.perTurnSystem, pr.hash(["system+tools"]))] + Map((m: ChatMessage) => MsgBlock(m, pr), msgs)
  }

  // ----------------------------------------------------------------- replay

  datatype Replayed = Replayed(prompts: seq<Prompt>, output: nat, engaged: bool)

  /** The end of the run of tool messages that starts at i. */
  function ToolsEnd(log: seq<ChatMessage>, i: nat): (j: nat)
    requires i <= |log|
    ensures i <= j <= |log|
    decreases |log| - i
  {
    if i < |log| && log[i].role.Tool? then ToolsEnd(log, i + 1) else i
  }

  /** A model turn: its prompt, its output tokens, and whether compression engaged after it. */
  function AfterTurn(r: Replayed, m: ChatMessage, rebuild: seq<ChatMessage>, p: Pass, pr: Pricing): Replayed {
    Replayed(r.prompts + [PromptOf(rebuild, pr)],
             r.output + MsgTokens(m, pr.tok),
             r.engaged || p.summarized > 0 || p.dropped > 0)
  }

  function ReplayFrom(log: seq<ChatMessage>, i: nat, rebuild: seq<ChatMessage>, r: Replayed,
                      comp: Option<Config>, budget: int, pr: Pricing): Result<Replayed, Failure>
    requires i <= |log|
    decreases |log| - i
  {
    if i == |log| then Ok(r)
    else if !log[i].role.Assistant? then
      ReplayFrom(log, i + 1, rebuild + [log[i]], r, comp, budget, pr)
    else
      var j := ToolsEnd(log, i + 1);
      var grown := rebuild + log[i..j];
      var p := PassOver(grown, comp, budget);
      if p.error.Some? then Err(p.error.value)
      else
        ReplayFrom(log, j, Rewritten(grown, comp, budget),
          AfterTurn(r, log[i], rebuild, p, pr), comp, budget, pr)
  }

  function ReplayLog(log: seq<ChatMessage>, comp: Option<Config>, budget: int, pr: Pricing): Result<Replayed, Failure> {
    ReplayFrom(log, 0, [], Replayed([], 0, false), comp, budget, pr)
  }

  lemma ReplayUnfolds(log: seq<ChatMessage>, i: nat, rebuild: seq<ChatMessage>, r: Replayed,
                      comp: Option<Config>, budget: int, pr: Pricing)
    requires i <= |log|
    ensures ReplayFrom(log, i, rebuild, r, comp, budget, pr) ==
      if i == |log| then Ok(r)
      else if !log[i].role.Assistant? then
        ReplayFrom(log, i + 1, rebuild + [log[i]], r, comp, budget, pr)
      else
        var j := ToolsEnd(log, i + 1);
        var grown := rebuild + log[i..j];
        var p := PassOver(grown, comp, budget);
        if p.error.Some? then Err(p.error.value)
        else
          ReplayFrom(log, j, Rewritten(grown, comp, budget),
            AfterTurn(r, log[i], rebuild, p, pr), comp, budget, pr)
  {
  }

  /** The texts the replay hands to the summarizer, in order, whether or not it succeeds. */
  function ReplayCalls(log: seq<ChatMessage>, i: nat, rebuild: seq<ChatMessage>, comp: Option<Config>,
                       budget: int): seq<string>
    requires i <= |log|
    decreases |log| - i
  {
    if i == |log| then []
    else if !log[i].role.Assistant? then ReplayCalls(log, i + 1, rebuild + [log[i]], comp, budget)
    else
      var j := ToolsEnd(log, i + 1);
      var grown := rebuild + log[i..j];
      var p := PassOver(grown, comp, budget);
      p.calls + if p.error.Some? then [] else ReplayCalls(log, j, Rewritten(grown, comp, budget), comp, budget)
  }

  // ------------------------------------------- replay re-executes the live run

  /** The uncompressed transcript after t turns. */
  function Base(w: World, query: string, t: nat): seq<ChatMessage> {
    if t == 0 then [Goal(query)]
    else
      match w.generate(t - 1)
      case Err(_) => Base(w, query, t - 1)
      case Ok(resp) => Base(w, query, t - 1) + TurnMessages(w, t - 1, resp)
  }

  /** The history at the start of turn t when every turn is followed by a pass. */
  function Live(w: World, query: string, comp: Option<Config>, budget: int, t: nat): Result<seq<ChatMessage>, Failure> {
    if t == 0 then Ok([Goal(query)])
    else
      match Live(w, query, comp, budget, t - 1)
      case Err(e) => Err(e)
      case Ok(h) =>
        match w.generate(t - 1)
        case Err(_) => Ok(h)
        case Ok(resp) =>
          var grown := h + TurnMessages(w, t - 1, resp);
          var p := PassOver(grown, comp, budget);
          if p.error.Some? then Err(p.error.value) else Ok(Rewritten(grown, comp, budget))
  }

  predicate CompressionFailed(e: RunEnd) {
    e.error.Some? && e.error.value.CompressFailed?
  }

  /** The requests in s are the live histories of turns 0..turn, and s continues them. */
  predicate Follows(w: World, query: string, d: Deps, turn: nat, s: RunState) {
    && s.outcome.turns == turn == |s.sent|
    && Live(w, query, d.comp, d.historyBudget, turn) == Ok(s.msgs)
    && forall k :: 0 <= k < turn ==> Live(w, query, d.comp, d.historyBudget, k) == Ok(s.sent[k])
  }

  /** What a finished run says about the live histories. */
  predicate FollowedTo(w: World, query: string, d: Deps, e: RunEnd) {
    var n := e.state.outcome.turns;
    && n <= |e.state.sent|
    && (forall k :: 0 <= k < |e.state.sent| ==>
          Live(w, query, d.comp, d.historyBudget, k) == Ok(e.state.sent[k]))
    && if CompressionFailed(e) then
         Live(w, query, d.comp, d.historyBudget, n) == Err(e.error.value.failure)
       else
         Live(w, query, d.comp, d.historyBudget, n).Err? ==>
           e.error.None? && (e.state.outcome.stop.Submitted? || e.state.outcome.stop.NoToolCall?)
  }

  lemma LiveStep(w: World, query: string, comp: Option<Config>, budget: int, t: nat, h: seq<ChatMessage>)
    requires Live(w, query, comp, budget, t) == Ok(h) && w.generate(t).Ok?
    ensures var grown := h + TurnMessages(w, t, w.generate(t).value);
      var p := PassOver(grown, comp, budget);
      Live(w, query, comp, budget, t + 1) ==
      if p.error.Some? then Err(p.error.value) else Ok(Rewritten(grown, comp, budget))
  {
  }

  /** The requests after one more: still exactly the live histories. */
  predicate Recorded(w: World, query: string, d: Deps, turn: nat, s: RunState) {
    && |s.sent| == turn + 1
    && forall k :: 0 <= k <= turn ==> Live(w, query, d.comp, d.historyBudget, k) == Ok(s.sent[k])
  }

  lemma RequestRecorded(w: World, query: string, d: Deps, turn: nat, s: RunState, q: RunState)
    requires Follows(w, query, d, turn, s) && q.sent == s.sent + [s.msgs]
    ensures Recorded(w, query, d, turn, q)
  {
    hide Live;
  }

  lemma StoppedFollows(w: World, query: string, d: Deps, turn: nat, q: RunState)
    requires Recorded(w, query, d, turn, q) && q.outcome.turns == turn + 1
    requires q.outcome.stop.Submitted? || q.outcome.stop.NoToolCall?
    ensures FollowedTo(w, query, d, RunEnd(q, None))
  {
    hide Live;
  }

  lemma CompressStepFollows(w: World, query: string, d: Deps, turn: nat, h: seq<ChatMessage>, q: RunState)
    requires w.generate(turn).Ok? && Live(w, query, d.comp, d.historyBudget, turn) == Ok(h)
    requires Recorded(w, query, d, turn, q) && q.outcome.turns == turn + 1
    requires q.msgs == h + TurnMessages(w, turn, w.generate(turn).value)
    ensures var t := CompressStep(d, q);
      if t.done then FollowedTo(w, query, d, RunEnd(t.state, t.error))
      else Follows(w, query, d, turn + 1, t.state)
  {
    LiveStep(w, query, d.comp, d.historyBudget, turn, h);
    hide Live, TurnMessages, PassOver, Rewritten;
  }

  lemma OneTurnFollows(w: World, query: string, d: Deps, turn: nat, s: RunState)
    requires Follows(w, query, d, turn, s)
    ensures var t := OneTurn(w, d, turn, s);
      if t.done then FollowedTo(w, query, d, RunEnd(t.state, t.error))
      else Follows(w, query, d, turn + 1, t.state)
  {
    match w.generate(turn)
    case Err(_) =>
      RequestRecorded(w, query, d, turn, s, Requested(s));
      hide Live;
    case Ok(resp) =>
      var calls, t := resp.message.toolCalls, OneTurn(w, d, turn, s);
      var answered := Answered(w, turn, Replied(d, turn, s, resp), calls);
      ReplyShape(w, d, turn, s, resp);
      hide Live, TurnMessages, Replied, Answered, Submission, CompressStep, FollowedTo;
      if calls == [] || Submission(w, calls).Some? {
        RequestRecorded(w, query, d, turn, s, t.state);
        StoppedFollows(w, query, d, turn, t.state);
      } else {
        RequestRecorded(w, query, d, turn, s, answered);
        CompressStepFollows(w, query, d, turn, s.msgs, answered);
      }
  }

  predicate RepliesBefore(w: World, n: nat) {
    forall k :: 0 <= k < n ==> w.generate(k).Ok?
  }

  /** The baseline state at a turn boundary, whatever the other arm does. */
  predicate OnBaseline(w: World, query: string, s: RunState) {
    s.msgs == Base(w, query, s.outcome.turns) && RepliesBefore(w, s.outcome.turns)
  }

  predicate SameProgress(s0: RunState, s1: RunState) {
    s0.outcome.turns == s1.outcome.turns && s0.outcome.stop == s1.outcome.stop
  }

  lemma BaselineTurn(w: World, query: string, d: Deps, turn: nat, s: RunState)
    requires d.comp.None? && OnBaseline(w, query, s) && s.outcome.turns == turn
    ensures var t := OneTurn(w, d, turn, s);
      && OnBaseline(w, query, t.state) && !CompressionFailed(RunEnd(t.state, t.error))
      && turn <= t.state.outcome.turns && (!t.done ==> t.state.outcome.turns == turn + 1)
  {
    if w.generate(turn).Ok? {
      var resp := w.generate(turn).value;
      var answered := Answered(w, turn, Replied(d, turn, s, resp), resp.message.toolCalls);
      ReplyShape(w, d, turn, s, resp);
      RewrittenWithoutCompressor(answered.msgs, d.historyBudget);
      hide Replied, Answered, TurnMessages, Submission, Rewritten;
    }
  }

  /** The same turn ends the same way in both arms, unless the compressor fails. */
  lemma OneTurnArms(w: World, d: Deps, turn: nat, s0: RunState, s1: RunState)
    requires SameProgress(s0, s1)
    ensures var t0, t1 := OneTurn(w, d.(comp := None), turn, s0), OneTurn(w, d, turn, s1);
      && SameProgress(t0.state, t1.state)
      && (CompressionFailed(RunEnd(t1.state, t1.error)) ==> t1.done)
      && (!CompressionFailed(RunEnd(t1.state, t1.error)) ==> t0.done == t1.done && t0.error == t1.error)
  {
  }

  lemma {:induction false} BaselineRun(w: World, query: string, d: Deps, turn: nat, s: RunState)
    requires d.comp.None? && OnBaseline(w, query, s) && s.outcome.turns == turn
    ensures var e := RunFrom(w, d, turn, s);
      OnBaseline(w, query, e.state) && turn <= e.state.outcome.turns
    decreases TurnCap(d) - turn
  {
    hide OneTurn;
    if turn < TurnCap(d) {
      BaselineTurn(w, query, d, turn, s);
      var t := OneTurn(w, d, turn, s);
      if !t.done {
        BaselineRun(w, query, d, turn + 1, t.state);
      }
    }
  }

  lemma CapFollows(w: World, query: string, d: Deps, turn: nat, s: RunState)
    requires Follows(w, query, d, turn, s)
    ensures FollowedTo(w, query, d, RunEnd(Stopped(s, MaxTurns), None))
  {
    hide Live;
  }

  lemma {:induction false} LiveRun(w: World, query: string, d: Deps, turn: nat, s: RunState)
    requires Follows(w, query, d, turn, s)
    ensures FollowedTo(w, query, d, RunFrom(w, d, turn, s))
    decreases TurnCap(d) - turn
  {
    CapFollows(w, query, d, turn, s);
    hide Live, OneTurn, Follows, FollowedTo;
    if turn < TurnCap(d) {
      OneTurnFollows(w, query, d, turn, s);
      var t := OneTurn(w, d, turn, s);
      if !t.done {
        LiveRun(w, query, d, turn + 1, t.state);
      }
    }
  }

  /** The arms make the same progress, unless the live one stops early on a failed pass. */
  predicate Lockstep(e0: RunEnd, e1: RunEnd) {
    if CompressionFailed(e1) then e1.state.outcome.turns <= e0.state.outcome.turns
    else SameProgress(e0.state, e1.state) && e0.error == e1.error
  }

  lemma {:induction false} ArmsInLockstep(w: World, query: string, d: Deps, turn: nat, s0: RunState, s1: RunState)
    requires OnBaseline(w, query, s0) && s0.outcome.turns == turn && SameProgress(s0, s1)
    ensures Lockstep(RunFrom(w, d.(comp := None), turn, s0), RunFrom(w, d, turn, s1))
    decreases TurnCap(d) - turn
  {
    hide OneTurn;
    var d0 := d.(comp := None);
    if turn < TurnCap(d) {
      var t0, t1 := OneTurn(w, d0, turn, s0), OneTurn(w, d, turn, s1);
      BaselineTurn(w, query, d0, turn, s0);
      OneTurnArms(w, d, turn, s0, s1);
      if !t0.done {
        BaselineRun(w, query, d0, turn + 1, t0.state);
        if !t1.done {
          ArmsInLockstep(w, query, d, turn + 1, t0.state, t1.state);
        }
      }
    }
  }

  // --------------------------------------------- parsing the recorded transcript

  lemma {:induction false} ToolsEndAt(log: seq<ChatMessage>, i: nat, j: nat)
    requires i <= j <= |log|
    requires forall k :: i <= k < j ==> log[k].role.Tool?
    requires j < |log| ==> !log[j].role.Tool?
    ensures ToolsEnd(log, i) == j
    decreases j - i
  {
    if i < j {
      ToolsEndAt(log, i + 1, j);
    }
  }

  lemma ObservationsAreTools(w: World, turn: nat, calls: seq<ToolCall>)
    ensures forall k :: 0 <= k < |calls| ==> Observations(w, turn, calls)[k].role.Tool?
  {
  }

  lemma {:induction false} BaseGrows(w: World, query: string, t: nat, n: nat)
    requires t <= n && AssistantReplies(w)
    requires RepliesBefore(w, n)
    ensures Base(w, query, t) <= Base(w, query, n)
    ensures t < n ==> |Base(w, query, t)| < |Base(w, query, n)|
                      && Base(w, query, n)[|Base(w, query, t)|].role.Assistant?
    decreases n - t
  {
    if t < n {
      BaseGrows(w, query, t, n - 1);
    }
  }

  lemma BlockParses(pre: seq<ChatMessage>, block: seq<ChatMessage>, log: seq<ChatMessage>)
    requires block != [] && block[0].role.Assistant?
    requires forall k :: 1 <= k < |block| ==> block[k].role.Tool?
    requires pre + block <= log
    requires var j := |pre| + |block|; j < |log| ==> log[j].role.Assistant?
    ensures var i, j := |pre|, |pre| + |block|;
      && i < j <= |log| && log[i] == block[0]
      && ToolsEnd(log, i + 1) == j
      && log[i..j] == block
  {
    var i, j := |pre|, |pre| + |block|;
    assert log[..j] == pre + block;
    assert forall k :: i <= k < j ==> log[k] == log[..j][k] == block[k - i];
    ToolsEndAt(log, i + 1, j);
  }

  /** Where the replay loop finds turn t of the transcript, and what it reads there. */
  lemma TurnInLog(w: World, query: string, t: nat, n: nat)
    requires t < n && AssistantReplies(w) && RepliesBefore(w, n)
    ensures var log, i, j := Base(w, query, n), |Base(w, query, t)|, |Base(w, query, t + 1)|;
      && i < j <= |log| && log[i].role.Assistant?
      && ToolsEnd(log, i + 1) == j
      && log[i..j] == TurnMessages(w, t, w.generate(t).value)
  {
    hide ToolsEnd, Observation;
    assert Base(w, query, t + 1) == Base(w, query, t) + TurnMessages(w, t, w.generate(t).value);
    BaseGrows(w, query, t + 1, n);
    ObservationsAreTools(w, t, w.generate(t).value.message.toolCalls);
    BlockParses(Base(w, query, t), TurnMessages(w, t, w.generate(t).value), Base(w, query, n));
  }

  lemma {:induction false} LiveErrorsStick(w: World, query: string, comp: Option<Config>, budget: int, t: nat, n: nat)
    requires t <= n && Live(w, query, comp, budget, t).Err?
    ensures Live(w, query, comp, budget, n) == Live(w, query, comp, budget, t)
    decreases n - t
  {
    if t < n {
      LiveErrorsStick(w, query, comp, budget, t, n - 1);
    }
  }

  /** prompts are those of the live histories of turns 0..t. */
  predicate LivePrompts(w: World, query: string, comp: Option<Config>, budget: int, pr: Pricing, prompts: seq<Prompt>) {
    forall k :: 0 <= k < |prompts| ==>
      && Live(w, query, comp, budget, k).Ok?
      && prompts[k] == PromptOf(Live(w, query, comp, budget, k).value, pr)
  }

  lemma {:induction false} ReplayFollowsLive(w: World, query: string, comp: Option<Config>, budget: int, pr: Pricing,
                                             t: nat, n: nat, h: seq<ChatMessage>, r: Replayed)
    requires t <= n && AssistantReplies(w) && RepliesBefore(w, n)
    requires Live(w, query, comp, budget, t) == Ok(h)
    requires |r.prompts| == t && LivePrompts(w, query, comp, budget, pr, r.prompts)
    requires |Base(w, query, t)| <= |Base(w, query, n)|
    ensures var result := ReplayFrom(Base(w, query, n), |Base(w, query, t)|, h, r, comp, budget, pr);
      match Live(w, query, comp, budget, n)
      case Err(e) => result == Err(e)
      case Ok(_) => result.Ok? && |result.value.prompts| == n
                    && LivePrompts(w, query, comp, budget, pr, result.value.prompts)
    decreases n - t
  {
    hide ToolsEnd, TurnMessages, PassOver, Rewritten, PromptOf, MsgTokens, Base, Live;
    if t < n {
      TurnInLog(w, query, t, n);
      var log, i, j := Base(w, query, n), |Base(w, query, t)|, |Base(w, query, t + 1)|;
      var grown := h + TurnMessages(w, t, w.generate(t).value);
      var p := PassOver(grown, comp, budget);
      LiveStep(w, query, comp, budget, t, h);
      if p.error.Some? {
        LiveErrorsStick(w, query, comp, budget, t + 1, n);
      } else {
        var r' := AfterTurn(r, log[i], h, p, pr);
        ReplayFollowsLive(w, query, comp, budget, pr, t + 1, n, Rewritten(grown, comp, budget), r');
      }
    }
  }

  /**
   * Replaying the transcript of an uncompressed run through the compressor sends, at every
   * turn, exactly the prompt of the message list the compressed run with the same script
   * sends. A live compression failure is reproduced; a replay can fail where the live run
   * did not only in the extra pass after a run that submitted or called no tool.
   */
  lemma LiveAgreesWithReplay(w: World, d: Deps, query: string, pr: Pricing)
    requires AssistantReplies(w)
    ensures
      var base, live := Run(w, d.(comp := None), query), Run(w, d, query);
      var replay := ReplayLog(base.state.msgs, d.comp, d.historyBudget, pr);
      && (replay.Ok? ==>
          && live.error == base.error && live.state.outcome.stop == base.state.outcome.stop
          && live.state.outcome.turns == base.state.outcome.turns == |replay.value.prompts|
          && |replay.value.prompts| <= |live.state.sent|
          && forall k :: 0 <= k < |replay.value.prompts| ==>
               replay.value.prompts[k] == PromptOf(live.state.sent[k], pr))
      && (CompressionFailed(live) ==> replay == Err(live.error.value.failure))
      && (replay.Err? && !CompressionFailed(live) ==>
          live.error.None? && (live.state.outcome.stop.Submitted? || live.state.outcome.stop.NoToolCall?))
  {
    var d0 := d.(comp := None);
    ArmsInLockstep(w, query, d, 0, Start(query), Start(query));
    BaselineRun(w, query, d0, 0, Start(query));
    LiveRun(w, query, d, 0, Start(query));
    var base, live := Run(w, d0, query), Run(w, d, query);
    var n := base.state.outcome.turns;
    BaseGrows(w, query, 0, n);
    var log := Base(w, query, n);
    assert log[0] == Goal(query) && [] + [log[0]] == [Goal(query)];
    ReplayFollowsLive(w, query, d.comp, d.historyBudget, pr, 0, n, [Goal(query)], Replayed([], 0, false));
    if CompressionFailed(live) {
      LiveErrorsStick(w, query, d.comp, d.historyBudget, live.state.outcome.turns, n);
    }
  }
}
