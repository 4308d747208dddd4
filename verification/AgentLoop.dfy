/** The agent loop as it runs, proved against Agent. */
module AgentLoop {
  import opened Basics
  import opened Compression
  import opened Compressor
  import opened Agent

  /** A compressor without a tokenizer acts exactly like no compressor. */
  function SettingsOf(comp: GuidelineCompressor?): Option<Config> {
    if comp == null || comp.tok.None? then None else Some(comp.Settings())
  }

  method TurnsOf(msgs: seq<ChatMessage>) returns (turns: seq<Turn>)
    ensures turns == ToTurns(msgs)
  {
    turns := [];
    for i := 0 to |msgs|
      invariant turns == ToTurns(msgs)[..i]
    {
      var m := msgs[i];
      turns := turns + [Turn(m.role, m.content, i, m.origin, m.compressed)];
    }
  }

  method CopyBack(msgs: seq<ChatMessage>, history: seq<Turn>) returns (out: seq<ChatMessage>)
    requires |history| == |msgs|
    ensures out == WriteBack(msgs, history)
  {
    out := msgs;
    for i := 0 to |history|
      invariant |out| == |msgs|
      invariant forall k :: 0 <= k < i ==> out[k] == WriteBack(msgs, history)[k]
      invariant forall k :: i <= k < |msgs| ==> out[k] == msgs[k]
    {
      out := out[i := out[i].(content := history[i].content, compressed := history[i].compressed)];
    }
  }

  /** Maps messages to turns, runs the pass, and writes content and flag back by index. */
  method CompressMessages(comp: GuidelineCompressor, budget: int, msgs: seq<ChatMessage>)
    returns (out: seq<ChatMessage>, summarized: nat, dropped: nat, error: Option<Failure>)
    requires comp.summarizer.Valid()
    modifies comp.summarizer
    ensures comp.summarizer.Valid()
    ensures var p := PassOver(msgs, SettingsOf(comp), budget);
      && error == p.error
      && comp.summarizer.log == old(comp.summarizer.log) + Calls(p.calls, comp.guideline)
      && (if p.error.Some? then out == msgs && summarized == dropped == 0
          else out == Rewritten(msgs, SettingsOf(comp), budget)
               && summarized == p.summarized && dropped == p.dropped)
  {
    hide Compressed, Done;
    var turns := TurnsOf(msgs);
    assert comp.Outcome(turns, budget) == PassOver(msgs, SettingsOf(comp), budget);
    var r := comp.Compress(turns, budget);
    match r {
      case Err(e) =>
        return msgs, 0, 0, Some(e);
      case Ok(res) =>
        out := CopyBack(msgs, res.history);
        return out, res.summarized, res.dropped, None;
    }
  }

  method MeterOneCall(d: Deps, msgs: seq<ChatMessage>, resp: Response) returns (cu: CallUsage)
    ensures cu == MeterCall(d, msgs, resp)
  {
    var buckets := map[SystemBucket := d.tok(d.system) + d.tok(d.toolsText)];
    ghost var head := buckets;
    for i := 0 to |msgs|
      invariant buckets == CreditAll(head, msgs[..i], d.tok)
    {
      var m := msgs[i];
      assert msgs[..i + 1][..i] == msgs[..i];
      buckets := Credit(buckets, Bucket(m), MessageTokens(m, d.tok));
    }
    assert msgs[..|msgs|] == msgs;
    buckets := buckets[Output := MessageTokens(resp.message, d.tok)];
    return CallUsage(buckets, resp.usage);
  }

  /** Answers a turn's calls in order; the last decodable submission wins. */
  method AnswerCalls(w: World, turn: nat, calls: seq<ToolCall>, before: seq<ChatMessage>)
    returns (msgs: seq<ChatMessage>, submission: Option<seq<Location>>)
    ensures msgs == before + Observations(w, turn, calls) && AllTold(w, turn, calls, msgs[|before|..])
    ensures submission == Submission(w, calls) && LastSubmission(w, calls, submission)
  {
    msgs, submission := before, None;
    for k := 0 to |calls|
      invariant msgs == before + Observations(w, turn, calls[..k])
      invariant submission == Submission(w, calls[..k])
    {
      var tc := calls[k];
      assert calls[..k + 1][..k] == calls[..k];
      assert Observations(w, turn, calls[..k + 1]) == Observations(w, turn, calls[..k]) + [Observation(w, turn, k, tc)];
      if IsSubmitTool(tc.name) {
        match w.parseLocations(tc.args) {
          case Err(e) =>
            msgs := msgs + [ToolResult(tc.id, "error: " + e, History)];
          case Ok(locations) =>
            submission := Some(locations);
            msgs := msgs + [ToolResult(tc.id, "answer recorded", History)];
        }
      } else if tc.name !in w.toolNames {
        msgs := msgs + [ToolResult(tc.id, "error: unknown tool " + tc.name, History)];
      } else {
        var result, origin;
        match w.callTool(turn, k) {
          case Err(e) => result, origin := "error: " + e, History;
          case Ok(answer) => result, origin := answer.0, answer.1;
        }
        if origin.Unset? {
          origin := History;
        }
        msgs := msgs + [ToolResult(tc.id, result, origin)];
      }
    }
    assert calls[..|calls|] == calls;
    ObservationsTell(w, turn, calls);
    SubmissionIsLast(w, calls);
    assert msgs[|before|..] == Observations(w, turn, calls);
  }

  ghost predicate Ready(comp: GuidelineCompressor?)
    reads comp, if comp == null then {} else {comp.summarizer}
  {
    comp != null ==> comp.summarizer.Valid()
  }

  /** The calls logged since log0 are those the run state accounts for. */
  ghost predicate Logged(comp: GuidelineCompressor?, log0: seq<Call>, calls: seq<string>)
    reads comp, if comp == null then {} else {comp.summarizer}
  {
    comp != null ==> comp.summarizer.log == log0 + Calls(calls, comp.guideline)
  }

  /** Between turns: compress the messages in the treatment arm, do nothing in the baseline. */
  method Settle(d: Deps, comp: GuidelineCompressor?, before: seq<ChatMessage>, counted: Outcome,
                ghost s: RunState, ghost log0: seq<Call>)
    returns (msgs: seq<ChatMessage>, outcome: Outcome, error: Option<RunError>)
    requires d.comp == SettingsOf(comp) && Ready(comp) && Logged(comp, log0, s.calls)
    requires before == s.msgs && counted == s.outcome
    modifies if comp == null then {} else {comp.summarizer}
    ensures var c := CompressStep(d, s);
      && Ready(comp) && Logged(comp, log0, c.state.calls)
      && msgs == c.state.msgs && outcome == c.state.outcome && error == c.error
      && c.state.ledger == s.ledger && c.done == c.error.Some?
  {
    hide PassOver, Rewritten, SettingsOf;
    msgs, outcome, error := before, counted, None;
    if comp == null {
      NoCompressor(d, s, comp);
      return;
    }
    var summarized, dropped, failure;
    ghost var p := PassOver(msgs, d.comp, d.historyBudget);
    msgs, summarized, dropped, failure := CompressMessages(comp, d.historyBudget, msgs);
    LogGrows(log0, s.calls, p.calls, comp.guideline);
    assert Logged(comp, log0, s.calls + p.calls);
    hide Logged;
    if failure.Some? {
      error := Some(CompressFailed(failure.value));
    } else {
      outcome := outcome.(summarized := outcome.summarized + summarized, dropped := outcome.dropped + dropped);
    }
  }

  lemma NoCompressor(d: Deps, s: RunState, comp: GuidelineCompressor?)
    requires comp == null && d.comp == SettingsOf(comp)
    ensures CompressStep(d, s) == TurnEnd(s, false, None)
  {
    RewrittenWithoutCompressor(s.msgs, d.historyBudget);
    assert s.calls + [] == s.calls;
  }

  lemma LogGrows(log0: seq<Call>, a: seq<string>, b: seq<string>, guideline: string)
    ensures log0 + Calls(a, guideline) + Calls(b, guideline) == log0 + Calls(a + b, guideline)
  {
    CallsConcat(a, b, guideline);
  }

  lemma NothingLogged(comp: GuidelineCompressor?, log0: seq<Call>)
    requires comp != null ==> comp.summarizer.log == log0
    ensures Logged(comp, log0, [])
  {
  }

  /** The multi-turn loop, with its early returns. */
  method RunLoop(w: World, d: Deps, comp: GuidelineCompressor?, query: string)
    returns (outcome: Outcome, msgs: seq<ChatMessage>, ledger: seq<CallUsage>, error: Option<RunError>)
    requires d.comp == SettingsOf(comp) && Ready(comp)
    modifies if comp == null then {} else {comp.summarizer}
    ensures Ready(comp)
    ensures var e := Run(w, d, query);
      && outcome == e.state.outcome && msgs == e.state.msgs && ledger == e.state.ledger && error == e.error
      && Logged(comp, if comp == null then [] else old(comp.summarizer.log), e.state.calls)
  {
    hide OneTurn, MeterCall, Observations, Submission, CompressStep, SettingsOf, Logged, Ready;
    ghost var s, log0 := Start(query), if comp == null then [] else comp.summarizer.log;
    msgs, ledger := [Goal(query)], [];
    outcome := Outcome(false, [], 0, Running, 0, 0);
    error := None;
    NothingLogged(comp, log0);
    var turn := 0;
    while turn < TurnCap(d)
      invariant Ready(comp) && Logged(comp, log0, s.calls) && error.None?
      invariant msgs == s.msgs && ledger == s.ledger && outcome == s.outcome
      invariant turn <= TurnCap(d) && RunFrom(w, d, turn, s) == Run(w, d, query)
    {
      ghost var before := s;
      TurnUnfolds(w, d, turn, s);
      match w.generate(turn) {
        case Err(e) =>
          error := Some(ModelFailed(turn, e));
          return;
        case Ok(resp) =>
          var cu := MeterOneCall(d, msgs, resp);
          ledger := ledger + [cu];
          var assistant := resp.message.(origin := History);
          msgs := msgs + [assistant];
          outcome := outcome.(turns := turn + 1);
          if |assistant.toolCalls| == 0 {
            outcome := outcome.(stop := NoToolCall);
            return;
          }
          var submission;
          msgs, submission := AnswerCalls(w, turn, assistant.toolCalls, msgs);
          if submission.Some? {
            outcome := outcome.(answered := true, locations := submission.value, stop := Submitted);
            return;
          }
          s := Answered(w, turn, Replied(d, turn, s, resp), assistant.toolCalls);
          msgs, outcome, error := Settle(d, comp, msgs, outcome, s, log0);
          s := CompressStep(d, s).state;
          if error.Some? {
            return;
          }
          turn := turn + 1;
      }
    }
    outcome := outcome.(stop := MaxTurns);
  }

  lemma TurnUnfolds(w: World, d: Deps, turn: nat, s: RunState)
    requires turn < TurnCap(d)
    ensures RunFrom(w, d, turn, s) ==
      match w.generate(turn)
      case Err(e) => RunEnd(Requested(s), Some(ModelFailed(turn, e)))
      case Ok(resp) =>
        var calls := resp.message.toolCalls;
        var asked := Replied(d, turn, s, resp);
        var answered := Answered(w, turn, asked, calls);
        if calls == [] then RunEnd(Stopped(asked, NoToolCall), None)
        else if Submission(w, calls).Some? then RunEnd(Stopped(answered, Submitted), None)
        else
          var c := CompressStep(d, answered);
          if c.done then RunEnd(c.state, c.error) else RunFrom(w, d, turn + 1, c.state)
  {
  }
}
