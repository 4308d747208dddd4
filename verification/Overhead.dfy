/**
 * Where replay does more than the live loop. Replay compresses after the last recorded turn
 * even where the live loop has already returned, so what the two hand to the summarizer and
 * whether compression engaged can differ, and only by that one pass.
 */
module Overhead {
  import opened Basics
  import opened Compression
  import opened PassTheorems
  import opened Compressor
  import opened Agent
  import opened Replay

  /** The loop returned between a reply and its pass. */
  predicate StoppedEarly(s: RunState) {
    s.outcome.stop.Submitted? || s.outcome.stop.NoToolCall?
  }

  /** What passes have cost and changed so far. */
  datatype Tally = Tally(calls: seq<string>, edits: nat)

  function TallyOf(s: RunState): Tally {
    Tally(s.calls, Edits(s))
  }

  function Added(t: Tally, p: Pass): Tally {
    Tally(t.calls + p.calls, if p.error.Some? then t.edits else t.edits + p.summarized + p.dropped)
  }

  /** The tally of the passes after turns 0..t when every turn is followed by one. */
  function LiveTally(w: World, query: string, comp: Option<Config>, budget: int, t: nat): Tally {
    if t == 0 then Tally([], 0)
    else
      var before := LiveTally(w, query, comp, budget, t - 1);
      match Live(w, query, comp, budget, t - 1)
      case Err(_) => before
      case Ok(h) =>
        match w.generate(t - 1)
        case Err(_) => before
        case Ok(resp) => Added(before, PassOver(h + TurnMessages(w, t - 1, resp), comp, budget))
  }

  lemma TallyStep(w: World, query: string, comp: Option<Config>, budget: int, t: nat, h: seq<ChatMessage>)
    requires Live(w, query, comp, budget, t) == Ok(h) && w.generate(t).Ok?
    ensures LiveTally(w, query, comp, budget, t + 1) ==
      Added(LiveTally(w, query, comp, budget, t), PassOver(h + TurnMessages(w, t, w.generate(t).value), comp, budget))
  {
  }

  lemma TallyRests(w: World, query: string, comp: Option<Config>, budget: int, t: nat)
    requires Live(w, query, comp, budget, t).Err?
    ensures LiveTally(w, query, comp, budget, t + 1) == LiveTally(w, query, comp, budget, t)
  {
    hide Live, TurnMessages, PassOver, Added;
  }

  lemma {:induction false} TallySticks(w: World, query: string, comp: Option<Config>, budget: int, t: nat, n: nat)
    requires t <= n && Live(w, query, comp, budget, t).Err?
    ensures LiveTally(w, query, comp, budget, n) == LiveTally(w, query, comp, budget, t)
    decreases n - t
  {
    hide Live, LiveTally;
    if t < n {
      LiveErrorsStick(w, query, comp, budget, t, n - 1);
      TallyRests(w, query, comp, budget, n - 1);
      TallySticks(w, query, comp, budget, t, n - 1);
    }
  }

  // ----------------------------------------------------------- the live run

  /** A run state at a turn boundary carries the live history and its tally. */
  predicate Tallied(w: World, query: string, d: Deps, turn: nat, s: RunState) {
    && s.outcome.turns == turn && s.outcome.stop.Running?
    && Live(w, query, d.comp, d.historyBudget, turn) == Ok(s.msgs)
    && LiveTally(w, query, d.comp, d.historyBudget, turn) == TallyOf(s)
  }

  /** What an ended run leaves out of the tally: the pass after the turn it stopped in, if any. */
  predicate TalliedTo(w: World, query: string, d: Deps, e: RunEnd) {
    var last := PassOver(e.state.msgs, d.comp, d.historyBudget);
    var n := e.state.outcome.turns;
    var live, tally := Live(w, query, d.comp, d.historyBudget, n), LiveTally(w, query, d.comp, d.historyBudget, n);
    if CompressionFailed(e) then
      !StoppedEarly(e.state) && live == Err(e.error.value.failure) && tally == TallyOf(e.state)
    else if StoppedEarly(e.state) then
      tally == Added(TallyOf(e.state), last)
      && (if last.error.Some? then live == Err(last.error.value) else live.Ok?)
    else live.Ok? && tally == TallyOf(e.state)
  }

  /** A turn that got a reply, before its pass. */
  lemma ReplyTallied(w: World, query: string, d: Deps, turn: nat, s: RunState, q: RunState)
    requires Tallied(w, query, d, turn, s) && w.generate(turn).Ok?
    requires q.msgs == s.msgs + TurnMessages(w, turn, w.generate(turn).value)
    requires TallyOf(q) == TallyOf(s)
    ensures var p := PassOver(q.msgs, d.comp, d.historyBudget);
      && LiveTally(w, query, d.comp, d.historyBudget, turn + 1) == Added(TallyOf(q), p)
      && Live(w, query, d.comp, d.historyBudget, turn + 1) ==
         if p.error.Some? then Err(p.error.value) else Ok(Rewritten(q.msgs, d.comp, d.historyBudget))
  {
    LiveStep(w, query, d.comp, d.historyBudget, turn, s.msgs);
    TallyStep(w, query, d.comp, d.historyBudget, turn, s.msgs);
  }

  lemma CompressStepTallied(w: World, query: string, d: Deps, turn: nat, q: RunState)
    requires q.outcome.turns == turn + 1 && q.outcome.stop.Running?
    requires var p := PassOver(q.msgs, d.comp, d.historyBudget);
      && LiveTally(w, query, d.comp, d.historyBudget, turn + 1) == Added(TallyOf(q), p)
      && Live(w, query, d.comp, d.historyBudget, turn + 1) ==
         if p.error.Some? then Err(p.error.value) else Ok(Rewritten(q.msgs, d.comp, d.historyBudget))
    ensures var t := CompressStep(d, q);
      if t.done then TalliedTo(w, query, d, RunEnd(t.state, t.error)) && t.error.Some?
      else Tallied(w, query, d, turn + 1, t.state)
  {
    hide Live, LiveTally, PassOver, Rewritten;
  }

  lemma OneTurnTallied(w: World, query: string, d: Deps, turn: nat, s: RunState)
    requires Tallied(w, query, d, turn, s)
    ensures var t := OneTurn(w, d, turn, s);
      if t.done then TalliedTo(w, query, d, RunEnd(t.state, t.error))
      else Tallied(w, query, d, turn + 1, t.state)
  {
    hide Live, LiveTally;
    if w.generate(turn).Ok? {
      var resp := w.generate(turn).value;
      var calls, t := resp.message.toolCalls, OneTurn(w, d, turn, s);
      var asked := Replied(d, turn, s, resp);
      var answered := Answered(w, turn, asked, calls);
      ReplyShape(w, d, turn, s, resp);
      hide TurnMessages, Replied, Answered, Submission, CompressStep, PassOver, Rewritten;
      ReplyTallied(w, query, d, turn, s, answered);
      if calls == [] {
        assert t.state == Stopped(asked, NoToolCall) && t.error.None?;
      } else if Submission(w, calls).Some? {
        assert t.state == Stopped(answered, Submitted) && t.error.None?;
      } else {
        CompressStepTallied(w, query, d, turn, answered);
      }
    }
  }

  lemma {:induction false} RunTallied(w: World, query: string, d: Deps, turn: nat, s: RunState)
    requires Tallied(w, query, d, turn, s)
    ensures TalliedTo(w, query, d, RunFrom(w, d, turn, s))
    decreases TurnCap(d) - turn
  {
    hide OneTurn, Live, LiveTally;
    if turn < TurnCap(d) {
      OneTurnTallied(w, query, d, turn, s);
      var t := OneTurn(w, d, turn, s);
      if !t.done {
        RunTallied(w, query, d, turn + 1, t.state);
      }
    }
  }

  // ------------------------------------------------------------- the replay

  lemma RepliedAt(w: World, t: nat, n: nat)
    requires t < n && RepliesBefore(w, n)
    ensures w.generate(t).Ok?
  {
  }

  lemma {:induction false} ReplayTallied(w: World, query: string, comp: Option<Config>, budget: int, pr: Pricing,
                                         t: nat, n: nat, h: seq<ChatMessage>, r: Replayed)
    requires t <= n && AssistantReplies(w) && RepliesBefore(w, n)
    requires Live(w, query, comp, budget, t) == Ok(h)
    ensures |Base(w, query, t)| <= |Base(w, query, n)|
    ensures var log, i := Base(w, query, n), |Base(w, query, t)|;
      var result := ReplayFrom(log, i, h, r, comp, budget, pr);
      var before, after := LiveTally(w, query, comp, budget, t), LiveTally(w, query, comp, budget, n);
      && after.calls == before.calls + ReplayCalls(log, i, h, comp, budget)
      && (result.Ok? && (r.engaged <==> before.edits > 0) ==> (result.value.engaged <==> after.edits > 0))
    decreases n - t
  {
    hide ToolsEnd, TurnMessages, PassOver, Rewritten, PromptOf, MsgTokens, Base, Live, LiveTally;
    hide AssistantReplies, RepliesBefore;
    BaseGrows(w, query, t, n);
    var tally := LiveTally(w, query, comp, budget, t);
    if t == n {
      assert tally.calls + [] == tally.calls;
    } else {
      assert w.generate(t).Ok? by {
        RepliedAt(w, t, n);
      }
      TurnInLog(w, query, t, n);
      var log, i, j := Base(w, query, n), |Base(w, query, t)|, |Base(w, query, t + 1)|;
      var grown := h + TurnMessages(w, t, w.generate(t).value);
      var p := PassOver(grown, comp, budget);
      LiveStep(w, query, comp, budget, t, h);
      TallyStep(w, query, comp, budget, t, h);
      if p.error.Some? {
        TallySticks(w, query, comp, budget, t + 1, n);
        assert p.calls + [] == p.calls;
      } else {
        var next := Rewritten(grown, comp, budget);
        ReplayTallied(w, query, comp, budget, pr, t + 1, n, next, AfterTurn(r, log[i], h, p, pr));
        Associate(tally.calls, p.calls, ReplayCalls(log, j, next, comp, budget));
      }
    }
  }

  // ---------------------------------------------------- live against replay

  /** The pass only replay makes; nothing when the live loop made its last pass itself. */
  function ExtraPass(d: Deps, s: RunState): Pass {
    if StoppedEarly(s) then PassOver(s.msgs, d.comp, d.historyBudget) else Done(ToTurns(s.msgs))
  }

  /**
   * Replay's calls are the live run's and then those of the extra pass, whatever fails;
   * replay engages exactly when the live run or the extra pass changed some content; and it
   * fails exactly when the live run's compression or the extra pass does, with that failure.
   */
  lemma ReplayIsLivePlusExtraPass(w: World, d: Deps, query: string, pr: Pricing)
    requires AssistantReplies(w)
    ensures
      var base, live := Run(w, d.(comp := None), query), Run(w, d, query);
      var log, extra := base.state.msgs, ExtraPass(d, live.state);
      var replay := ReplayLog(log, d.comp, d.historyBudget, pr);
      && ReplayCalls(log, 0, [], d.comp, d.historyBudget) == live.state.calls + extra.calls
      && (replay.Ok? ==> (replay.value.engaged <==> Edits(live.state) > 0 || extra.summarized + extra.dropped > 0))
      && (replay.Err? <==> CompressionFailed(live) || extra.error.Some?)
      && (CompressionFailed(live) ==> replay == Err(live.error.value.failure))
      && (extra.error.Some? ==> replay == Err(extra.error.value))
  {
    var d0 := d.(comp := None);
    var base, live := Run(w, d0, query), Run(w, d, query);
    var n := base.state.outcome.turns;
    ArmsInLockstep(w, query, d, 0, Start(query), Start(query));
    BaselineRun(w, query, d0, 0, Start(query));
    RunTallied(w, query, d, 0, Start(query));
    BaseGrows(w, query, 0, n);
    hide OneTurn, RunFrom;
    FromTheGoal(w, d, query, pr, n);
    if CompressionFailed(live) {
      LiveErrorsStick(w, query, d.comp, d.historyBudget, live.state.outcome.turns, n);
      TallySticks(w, query, d.comp, d.historyBudget, live.state.outcome.turns, n);
    }
    hide Live, LiveTally, Base, ReplayLog, ReplayCalls;
    assert live.state.calls + [] == live.state.calls;
  }

  /** The whole transcript of n turns, replayed from its goal. */
  lemma FromTheGoal(w: World, d: Deps, query: string, pr: Pricing, n: nat)
    requires AssistantReplies(w) && RepliesBefore(w, n)
    ensures var log, budget := Base(w, query, n), d.historyBudget;
      var replay, live := ReplayLog(log, d.comp, budget, pr), Live(w, query, d.comp, budget, n);
      var tally := LiveTally(w, query, d.comp, budget, n);
      && ReplayCalls(log, 0, [], d.comp, budget) == tally.calls
      && (replay.Ok? ==> (replay.value.engaged <==> tally.edits > 0))
      && (if live.Err? then replay == Err(live.error) else replay.Ok?)
  {
    BaseGrows(w, query, 0, n);
    var log, r := Base(w, query, n), Replayed([], 0, false);
    assert log[0] == Goal(query) && [] + [log[0]] == [Goal(query)];
    ReplayUnfolds(log, 0, [], r, d.comp, d.historyBudget, pr);
    var calls := ReplayCalls(log, 1, [Goal(query)], d.comp, d.historyBudget);
    assert ReplayCalls(log, 0, [], d.comp, d.historyBudget) == calls;
    ReplayTallied(w, query, d.comp, d.historyBudget, pr, 0, n, [Goal(query)], r);
    ReplayFollowsLive(w, query, d.comp, d.historyBudget, pr, 0, n, [Goal(query)], r);
    hide ReplayCalls, ReplayFrom;
    assert [] + calls == calls;
  }

  // --------------------------------------------------- when the two agree

  /** The extra pass's own guards: it has something to summarize. */
  predicate WouldSummarize(d: Deps, s: RunState) {
    && StoppedEarly(s) && d.comp.Some? && OverBudget(ToTurns(s.msgs), d.historyBudget, d.comp.value.tok)
    && exists i :: 0 <= i < |s.msgs| && Summarizable(ToTurns(s.msgs)[i], Protected(ToTurns(s.msgs), i), d.comp.value)
  }

  /** It has something to drop, so unless it fails it changes some content. */
  predicate WouldDrop(d: Deps, s: RunState) {
    && StoppedEarly(s) && d.comp.Some? && OverBudget(ToTurns(s.msgs), d.historyBudget, d.comp.value.tok)
    && exists i :: 0 <= i < |s.msgs| && Droppable(ToTurns(s.msgs)[i], Protected(ToTurns(s.msgs), i))
  }

  /** What the metering summarizer's counters hold after being handed these texts. */
  function Charge(texts: seq<string>, cfg: Config): nat {
    var log := Calls(texts, cfg.guideline);
    InputCost(log, cfg.tok) + OutputCost(log, cfg.tok, cfg.summarize)
  }

  lemma ChargeConcat(a: seq<string>, b: seq<string>, cfg: Config)
    ensures Charge(a + b, cfg) == Charge(a, cfg) + Charge(b, cfg)
  {
    CallsConcat(a, b, cfg.guideline);
    MapSumConcat((call: Call) => call.Input(cfg.tok), Calls(a, cfg.guideline), Calls(b, cfg.guideline));
    MapSumConcat((call: Call) => call.Output(cfg.tok, cfg.summarize), Calls(a, cfg.guideline), Calls(b, cfg.guideline));
  }

  /**
   * Replay hands the summarizer what the live run does if and only if the run did not stop
   * early or the extra pass has nothing to summarize; its overhead is the live overhead and
   * the charge of that pass.
   */
  lemma OverheadAgreesIff(w: World, d: Deps, query: string)
    requires AssistantReplies(w)
    ensures
      var base, live := Run(w, d.(comp := None), query), Run(w, d, query);
      var calls := ReplayCalls(base.state.msgs, 0, [], d.comp, d.historyBudget);
      && (calls == live.state.calls <==> !WouldSummarize(d, live.state))
      && (d.comp.Some? ==>
            Charge(calls, d.comp.value)
            == Charge(live.state.calls, d.comp.value) + Charge(ExtraPass(d, live.state).calls, d.comp.value))
  {
    var live := Run(w, d, query);
    ReplayIsLivePlusExtraPass(w, d, query, Pricing((s: string) => 0, (parts: seq<string>) => 0, 0));
    hide Run, ReplayCalls, ReplayLog, Compressed;
    var extra := ExtraPass(d, live.state);
    if d.comp.Some? {
      PassCallsIff(ToTurns(live.state.msgs), d.historyBudget, d.comp.value);
      ChargeConcat(live.state.calls, extra.calls, d.comp.value);
    }
    assert extra.calls == [] ==> live.state.calls + extra.calls == live.state.calls;
    assert extra.calls != [] ==> |live.state.calls + extra.calls| > |live.state.calls|;
  }

  /**
   * Where replay succeeds, its Engaged says what the live run's counters say if and only if
   * they are already positive, or the run did not stop early, or nothing is left to drop.
   */
  lemma EngagedAgreesIff(w: World, d: Deps, query: string, pr: Pricing)
    requires AssistantReplies(w)
    ensures
      var base, live := Run(w, d.(comp := None), query), Run(w, d, query);
      var replay := ReplayLog(base.state.msgs, d.comp, d.historyBudget, pr);
      replay.Ok? ==>
        ((replay.value.engaged <==> Edits(live.state) > 0) <==> Edits(live.state) > 0 || !WouldDrop(d, live.state))
  {
    var live := Run(w, d, query);
    ReplayIsLivePlusExtraPass(w, d, query, pr);
    hide Run, ReplayCalls, ReplayLog, Compressed;
    if d.comp.Some? && ExtraPass(d, live.state).error.None? && StoppedEarly(live.state) {
      PassEngagesIff(ToTurns(live.state.msgs), d.historyBudget, d.comp.value);
    }
  }

  // ------------------------------------------------------ where they differ

  /** One tool call, then a submission that decodes. */
  predicate CallsThenSubmits(w: World) {
    && w.generate(0).Ok? && w.generate(1).Ok?
    && |Reply(w, 0).message.toolCalls| == 1 && Submission(w, Reply(w, 0).message.toolCalls).None?
    && Submission(w, Reply(w, 1).message.toolCalls).Some?
  }

  function Reply(w: World, t: nat): Response
    requires w.generate(t).Ok?
  {
    w.generate(t).value
  }

  lemma SubmittedRun(w: World, d: Deps, query: string)
    requires AssistantReplies(w) && CallsThenSubmits(w) && TurnCap(d) >= 2
    requires d.comp.Some? && NeverFails(d.comp.value)
    ensures var live := Run(w, d, query);
      && live.error.None? && live.state.outcome.stop.Submitted?
      && live.state.calls == [] && Edits(live.state) == 0
      && live.state.msgs == [Goal(query)] + TurnMessages(w, 0, Reply(w, 0)) + TurnMessages(w, 1, Reply(w, 1))
  {
    var s0, r0, r1 := Start(query), Reply(w, 0), Reply(w, 1);
    var q0 := Answered(w, 0, Replied(d, 0, s0, r0), r0.message.toolCalls);
    ReplyShape(w, d, 0, s0, r0);
    NewestIsUntouched(q0.msgs, d.comp.value, d.historyBudget);
    var s1 := CompressStep(d, q0).state;
    assert OneTurn(w, d, 0, s0) == CompressStep(d, q0) && CompressStep(d, q0).error.None?;
    var q1 := Answered(w, 1, Replied(d, 1, s1, r1), r1.message.toolCalls);
    ReplyShape(w, d, 1, s1, r1);
    assert OneTurn(w, d, 1, s1) == TurnEnd(Stopped(q1, Submitted), true, None);
    hide OneTurn, Replied, Answered, TurnMessages, PassOver, Rewritten;
    assert Run(w, d, query) == RunFrom(w, d, 1, s1) == RunEnd(Stopped(q1, Submitted), None);
  }

  /**
   * The comment's claim fails on a whole family: one observation, a submission, and a
   * transcript over budget. The live run never compressed; its replay says it engaged, and
   * if the observation is eligible it has also been charged for.
   */
  lemma ReplayCompressesAfterSubmission(w: World, d: Deps, query: string, pr: Pricing)
    requires AssistantReplies(w) && CallsThenSubmits(w) && TurnCap(d) >= 2
    requires d.comp.Some? && NeverFails(d.comp.value)
    requires Observation(w, 0, 0, Reply(w, 0).message.toolCalls[0]).content != DROP_MARKER
    requires OverBudget(ToTurns(Run(w, d, query).state.msgs), d.historyBudget, d.comp.value.tok)
    ensures var base, live := Run(w, d.(comp := None), query), Run(w, d, query);
      var replay := ReplayLog(base.state.msgs, d.comp, d.historyBudget, pr);
      && replay.Ok? && replay.value.engaged && Edits(live.state) == 0
      && (d.comp.value.minTokens <= 0 ==>
            ReplayCalls(base.state.msgs, 0, [], d.comp, d.historyBudget) != live.state.calls)
  {
    var live := Run(w, d, query);
    SubmittedRun(w, d, query);
    var turns := ToTurns(live.state.msgs);
    assert live.state.msgs[2] == Observation(w, 0, 0, Reply(w, 0).message.toolCalls[0]);
    assert live.state.msgs[3].role.Assistant? && live.state.msgs[1].role.Assistant?;
    assert !Protected(turns, 2) by {
      assert turns[3].role.Assistant? && turns[2].role.Tool?;
    }
    hide Run, Compressed, ReplayLog, ReplayCalls, Protected, OverBudget, TurnMessages;
    PassNeverFails(turns, d.historyBudget, d.comp.value);
    assert Droppable(turns[2], Protected(turns, 2));
    PassEngagesIff(turns, d.historyBudget, d.comp.value);
    ReplayIsLivePlusExtraPass(w, d, query, pr);
    if d.comp.value.minTokens <= 0 {
      assert Summarizable(turns[2], Protected(turns, 2), d.comp.value) by {
        assert !turns[2].compressed;
      }
      OverheadAgreesIff(w, d, query);
    }
  }

  /** A world that looks once and submits, under a tokenizer that counts one per text. */
  lemma LookThenSubmit() returns (w: World, d: Deps)
    ensures AssistantReplies(w) && CallsThenSubmits(w) && TurnCap(d) >= 2
    ensures d.comp.Some? && NeverFails(d.comp.value) && d.comp.value.minTokens <= 0
    ensures Observation(w, 0, 0, Reply(w, 0).message.toolCalls[0]).content != DROP_MARKER
    ensures d.historyBudget == 1 && forall s: string :: d.comp.value.tok(s) == 1
  {
    var search, submit := ToolCall("", "x", ""), ToolCall("", "submit_answer", "");
    var look := ChatMessage(Assistant, "", [search], "", History, false);
    var done := ChatMessage(Assistant, "", [submit], "", History, false);
    w := World((t: nat) => Ok(Response(if t == 0 then look else done, Usage(0, 0, 0))), {"x"},
               (t: nat, k: nat) => Ok(("o", RetrievedCode)), (args: string) => Ok([]));
    var cfg := Config((s: string) => 1, (text: string, guide: string) => Ok(text), "", 0);
    d := Deps("", "", 2, cfg.tok, Some(cfg), 1);
  }

  /** The run submitted, changed nothing and called nobody; its replay engaged and called. */
  ghost predicate ReplayExceeds(w: World, d: Deps, query: string, pr: Pricing) {
    var base, live := Run(w, d.(comp := None), query), Run(w, d, query);
    var replay := ReplayLog(base.state.msgs, d.comp, d.historyBudget, pr);
    && live.error.None? && live.state.outcome.stop.Submitted? && Edits(live.state) == 0 && live.state.calls == []
    && replay.Ok? && replay.value.engaged
    && ReplayCalls(base.state.msgs, 0, [], d.comp, d.historyBudget) != []
  }

  /** A member of that family, so the two really do differ. */
  lemma ReplayCanExceedLive(pr: Pricing)
    ensures exists w: World, d: Deps, query: string :: AssistantReplies(w) && ReplayExceeds(w, d, query, pr)
  {
    var w, d := LookThenSubmit();
    var query := "";
    SubmittedRun(w, d, query);
    var msgs := Run(w, d, query).state.msgs;
    hide Run, ReplayLog, ReplayCalls, Observation, CallsThenSubmits, NeverFails;
    assert |msgs| >= 3;
    OneEach(ToTurns(msgs), d.comp.value.tok);
    ReplayCompressesAfterSubmission(w, d, query, pr);
    assert ReplayExceeds(w, d, query, pr);
  }

  lemma {:induction false} OneEach(turns: seq<Turn>, tok: Tokenizer)
    requires forall s: string :: tok(s) == 1
    ensures Total(turns, tok) == |turns|
    decreases |turns|
  {
    if turns != [] {
      var n := |turns| - 1;
      OneEach(turns[..n], tok);
      assert tok(turns[n].content) == 1;
      assert turns == turns[..n] + [turns[n]];
      MapSumSnoc((t: Turn) => tok(t.content), turns[..n], turns[n]);
    }
  }
}
