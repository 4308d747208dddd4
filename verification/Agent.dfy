/**
 * The multi-turn agent loop as a function of its world: the model's replies and the
 * tools' answers are arbitrary, indexed by turn (and call position), so every single
 * run of any model over any tools is one such world.
 */
module Agent {
  import opened Basics
  import opened Compression
  import opened Confluence
  import opened PassTheorems

  datatype ToolCall = ToolCall(id: string, name: string, args: string)

  datatype ChatMessage = ChatMessage(
    role: Role,
    content: string,
    toolCalls: seq<ToolCall>,
    toolCallID: string,
    origin: Origin,
    compressed: bool)

  datatype Location = Location(path: string, start: int, end: int)
  datatype Usage = Usage(promptTokens: int, completionTokens: int, cachedTokens: int)
  datatype Response = Response(message: ChatMessage, usage: Usage)
  datatype CallUsage = CallUsage(buckets: map<Origin, nat>, usage: Usage)

  datatype World = World(
    generate: nat -> Result<Response, string>,
    toolNames: set<string>,
    callTool: (nat, nat) -> Result<(string, Origin), string>,
    parseLocations: string -> Result<seq<Location>, string>)

  /** comp is None for the uncompressed baseline arm. */
  datatype Deps = Deps(
    system: string,
    toolsText: string,
    maxTurns: int,
    tok: Tokenizer,
    comp: Option<Config>,
    historyBudget: int)

  const DEFAULT_MAX_TURNS: nat := 12

  function TurnCap(d: Deps): nat {
    if d.maxTurns <= 0 then DEFAULT_MAX_TURNS else d.maxTurns
  }

  datatype StopReason = Running | Submitted | NoToolCall | MaxTurns

  datatype Outcome = Outcome(
    answered: bool,
    locations: seq<Location>,
    turns: nat,
    stop: StopReason,
    summarized: nat,
    dropped: nat)

  /** sent is the message list of every request made; calls every text ever summarized. */
  datatype RunState = RunState(
    msgs: seq<ChatMessage>,
    outcome: Outcome,
    ledger: seq<CallUsage>,
    sent: seq<seq<ChatMessage>>,
    calls: seq<string>)

  datatype RunError = ModelFailed(turn: nat, message: string) | CompressFailed(failure: Failure)
  datatype RunEnd = RunEnd(state: RunState, error: Option<RunError>)

  // ------------------------------------------------------------- one turn

  predicate IsSubmitTool(name: string) {
    name == "submit_answer" || name == "commentary"
  }

  function ToolResult(id: string, content: string, origin: Origin): ChatMessage {
    ChatMessage(Tool, content, [], id, origin, false)
  }

  /** The tool message answering call number k of a turn. */
  function Observation(w: World, turn: nat, k: nat, tc: ToolCall): ChatMessage {
    if IsSubmitTool(tc.name) then
      match w.parseLocations(tc.args)
      case Err(e) => ToolResult(tc.id, "error: " + e, History)
      case Ok(_) => ToolResult(tc.id, "answer recorded", History)
    else if tc.name !in w.toolNames then
      ToolResult(tc.id, "error: unknown tool " + tc.name, History)
    else
      match w.callTool(turn, k)
      case Err(e) => ToolResult(tc.id, "error: " + e, History)
      case Ok(answer) => ToolResult(tc.id, answer.0, if answer.1.Unset? then History else answer.1)
  }

  function Observations(w: World, turn: nat, calls: seq<ToolCall>): (ms: seq<ChatMessage>)
    ensures |ms| == |calls|
    ensures forall k :: 0 <= k < |ms| ==> ms[k] == Observation(w, turn, k, calls[k])
  {
    seq(|calls|, k requires 0 <= k < |calls| => Observation(w, turn, k, calls[k]))
  }

  /** The last submit call whose arguments decode, if any: it decides the answer. */
  function Submission(w: World, calls: seq<ToolCall>): Option<seq<Location>> {
    if calls == [] then None
    else
      var last := calls[|calls| - 1];
      if IsSubmitTool(last.name) && w.parseLocations(last.args).Ok?
      then Some(w.parseLocations(last.args).value)
      else Submission(w, calls[..|calls| - 1])
  }

  /** What the loop tells the model about call k of a turn: role, id, text and bucket. */
  predicate Told(w: World, turn: nat, k: nat, tc: ToolCall, m: ChatMessage) {
    && m.role.Tool? && m.toolCallID == tc.id && m.toolCalls == [] && !m.compressed
    && if tc.name == "submit_answer" || tc.name == "commentary" then
         && m.origin.History?
         && match w.parseLocations(tc.args)
            case Ok(_) => m.content == "answer recorded"
            case Err(e) => m.content == "error: " + e
       else if tc.name !in w.toolNames then
         m.origin.History? && m.content == "error: unknown tool " + tc.name
       else
         match w.callTool(turn, k)
         case Err(e) => m.origin.History? && m.content == "error: " + e
         case Ok(answer) =>
           && m.content == answer.0
           && (if answer.1.Unset? then m.origin.History? else m.origin == answer.1)
  }

  /** One message per call, each telling what that call came to. */
  predicate AllTold(w: World, turn: nat, calls: seq<ToolCall>, ms: seq<ChatMessage>) {
    |ms| == |calls| && forall k :: 0 <= k < |ms| ==> Told(w, turn, k, calls[k], ms[k])
  }

  lemma ObservationsTell(w: World, turn: nat, calls: seq<ToolCall>)
    ensures AllTold(w, turn, calls, Observations(w, turn, calls))
  {
  }

  /** Call k submits locations that decode. */
  predicate Submits(w: World, tc: ToolCall) {
    (tc.name == "submit_answer" || tc.name == "commentary") && w.parseLocations(tc.args).Ok?
  }

  /** Call k submits and no later one does. */
  predicate LastToSubmit(w: World, calls: seq<ToolCall>, k: nat) {
    k < |calls| && Submits(w, calls[k]) && forall j :: k < j < |calls| ==> !Submits(w, calls[j])
  }

  /** The answer is that of the last call that submits, and there is none if none does. */
  predicate LastSubmission(w: World, calls: seq<ToolCall>, answer: Option<seq<Location>>) {
    match answer
    case None => forall k :: 0 <= k < |calls| ==> !Submits(w, calls[k])
    case Some(locations) =>
      exists k :: 0 <= k < |calls| && LastToSubmit(w, calls, k) && w.parseLocations(calls[k].args) == Ok(locations)
  }

  lemma LastSubmissionSnoc(w: World, init: seq<ToolCall>, last: ToolCall, answer: Option<seq<Location>>)
    requires LastSubmission(w, init, answer)
    ensures LastSubmission(w, init + [last],
                           if Submits(w, last) then Some(w.parseLocations(last.args).value) else answer)
  {
    var calls := init + [last];
    hide Submits;
    if Submits(w, last) {
      assert w.parseLocations(last.args).Ok? by {
        SubmitsDecodes(w, last);
      }
      assert LastToSubmit(w, calls, |init|);
      assert calls[|init|] == last;
    } else if answer.Some? {
      var k :| 0 <= k < |init| && LastToSubmit(w, init, k) && w.parseLocations(init[k].args) == Ok(answer.value);
      assert calls[k] == init[k] && LastToSubmit(w, calls, k);
    }
  }

  lemma SubmitsDecodes(w: World, tc: ToolCall)
    requires Submits(w, tc)
    ensures w.parseLocations(tc.args).Ok?
  {
  }

  lemma {:induction false} SubmissionIsLast(w: World, calls: seq<ToolCall>)
    ensures LastSubmission(w, calls, Submission(w, calls))
  {
    if calls != [] {
      var init, last := calls[..|calls| - 1], calls[|calls| - 1];
      hide LastSubmission;
      SubmissionIsLast(w, init);
      LastSubmissionSnoc(w, init, last, Submission(w, init));
      assert calls == init + [last];
    }
  }

  // ------------------------------------------------------------- metering

  function ToolCallsText(calls: seq<ToolCall>): string {
    if calls == [] then ""
    else
      var last := calls[|calls| - 1];
      ToolCallsText(calls[..|calls| - 1]) + last.name + " " + last.args + "\n"
  }

  function MessageTokens(m: ChatMessage, tok: Tokenizer): nat {
    tok(m.content) + tok(ToolCallsText(m.toolCalls))
  }

  function Bucket(m: ChatMessage): Origin {
    if m.origin.Unset? then History else m.origin
  }

  function Lookup(buckets: map<Origin, nat>, o: Origin): nat {
    if o in buckets then buckets[o] else 0
  }

  function Credit(buckets: map<Origin, nat>, o: Origin, n: nat): map<Origin, nat> {
    buckets[o := Lookup(buckets, o) + n]
  }

  function CreditAll(buckets: map<Origin, nat>, msgs: seq<ChatMessage>, tok: Tokenizer): map<Origin, nat> {
    if msgs == [] then buckets
    else
      var last := msgs[|msgs| - 1];
      Credit(CreditAll(buckets, msgs[..|msgs| - 1], tok), Bucket(last), MessageTokens(last, tok))
  }

  /** System first, then every message under its origin; the output entry is assigned, not added. */
  function MeterCall(d: Deps, msgs: seq<ChatMessage>, resp: Response): CallUsage {
    var head := map[SystemBucket := d.tok(d.system) + d.tok(d.toolsText)];
    CallUsage(CreditAll(head, msgs, d.tok)[Output := MessageTokens(resp.message, d.tok)], resp.usage)
  }

  ghost function Pick(m: map<Origin, nat>): Origin
    requires m != map[]
  {
    var k :| k in m;
    k
  }

  ghost function MapTotal(m: map<Origin, nat>): nat {
    if m == map[] then 0 else m[Pick(m)] + MapTotal(m - {Pick(m)})
  }

  lemma {:induction false} MapTotalSplits(m: map<Origin, nat>, k: Origin)
    requires k in m
    ensures MapTotal(m) == m[k] + MapTotal(m - {k})
    decreases |m|
  {
    var j := Pick(m);
    if j != k {
      var both := m - {j} - {k};
      assert m - {k} - {j} == both;
      assert MapTotal(m - {j}) == m[k] + MapTotal(both) by { MapTotalSplits(m - {j}, k); }
      assert MapTotal(m - {k}) == m[j] + MapTotal(both) by { MapTotalSplits(m - {k}, j); }
    }
  }

  lemma MapTotalUpdate(m: map<Origin, nat>, k: Origin, v: nat)
    ensures MapTotal(m[k := v]) + Lookup(m, k) == MapTotal(m) + v
  {
    MapTotalSplits(m[k := v], k);
    assert m[k := v] - {k} == m - {k};
    if k in m {
      MapTotalSplits(m, k);
    } else {
      assert m - {k} == m;
    }
  }

  function TokensOf(msgs: seq<ChatMessage>, tok: Tokenizer): nat {
    Sum(Map((m: ChatMessage) => MessageTokens(m, tok), msgs))
  }

  function TaggedTokens(m: ChatMessage, tok: Tokenizer): nat {
    if m.origin.Output? then MessageTokens(m, tok) else 0
  }

  function OutputTagged(msgs: seq<ChatMessage>, tok: Tokenizer): nat {
    Sum(Map((m: ChatMessage) => TaggedTokens(m, tok), msgs))
  }

  lemma CreditTotals(m: map<Origin, nat>, o: Origin, n: nat)
    ensures MapTotal(Credit(m, o, n)) == MapTotal(m) + n
    ensures forall p :: Lookup(Credit(m, o, n), p) == Lookup(m, p) + (if p == o then n else 0)
  {
    MapTotalUpdate(m, o, Lookup(m, o) + n);
  }

  lemma {:induction false} CreditAllTotals(buckets: map<Origin, nat>, msgs: seq<ChatMessage>, tok: Tokenizer)
    ensures var r := CreditAll(buckets, msgs, tok);
      && MapTotal(r) == MapTotal(buckets) + TokensOf(msgs, tok)
      && Lookup(r, Output) == Lookup(buckets, Output) + OutputTagged(msgs, tok)
  {
    if msgs != [] {
      var init, last := msgs[..|msgs| - 1], msgs[|msgs| - 1];
      assert msgs == init + [last];
      CreditAllTotals(buckets, init, tok);
      MapSumSnoc((m: ChatMessage) => MessageTokens(m, tok), init, last);
      MapSumSnoc((m: ChatMessage) => TaggedTokens(m, tok), init, last);
      var before := CreditAll(buckets, init, tok);
      CreditTotals(before, Bucket(last), MessageTokens(last, tok));
    }
  }

  /** A single bucket holds the total, and no output unless it is the output bucket. */
  lemma OneBucket(o: Origin, n: nat)
    ensures MapTotal(map[o := n]) == n && (!o.Output? ==> Lookup(map[o := n], Output) == 0)
  {
    MapTotalSplits(map[o := n], o);
    assert map[o := n] - {o} == map[];
  }

  /** A message weighs its content and the text of its calls: each name, a blank, its arguments, a newline. */
  lemma MessageWeighs(m: ChatMessage, tc: ToolCall, tok: Tokenizer)
    ensures MessageTokens(m, tok) == tok(m.content) + tok(ToolCallsText(m.toolCalls))
    ensures ToolCallsText([]) == ""
    ensures ToolCallsText(m.toolCalls + [tc]) == ToolCallsText(m.toolCalls) + tc.name + " " + tc.args + "\n"
  {
    assert (m.toolCalls + [tc])[..|m.toolCalls|] == m.toolCalls;
  }

  function TokensUnder(msgs: seq<ChatMessage>, o: Origin, tok: Tokenizer): nat {
    Sum(Map((m: ChatMessage) => ShareUnder(m, o, tok), msgs))
  }

  function ShareUnder(m: ChatMessage, o: Origin, tok: Tokenizer): nat {
    if Bucket(m) == o then MessageTokens(m, tok) else 0
  }

  lemma {:induction false} CreditAllByBucket(buckets: map<Origin, nat>, msgs: seq<ChatMessage>, o: Origin,
                                             tok: Tokenizer)
    ensures Lookup(CreditAll(buckets, msgs, tok), o) == Lookup(buckets, o) + TokensUnder(msgs, o, tok)
    decreases |msgs|
  {
    if msgs != [] {
      var init, last := msgs[..|msgs| - 1], msgs[|msgs| - 1];
      assert msgs == init + [last];
      CreditAllByBucket(buckets, init, o, tok);
      MapSumSnoc((m: ChatMessage) => ShareUnder(m, o, tok), init, last);
    }
  }

  /**
   * Each bucket on its own: the system bucket holds the prompt, the tools and what is tagged
   * so, the output bucket only the reply, and any other exactly the messages of that origin,
   * untagged ones counting as history.
   */
  lemma EachBucketIsItsMessages(d: Deps, msgs: seq<ChatMessage>, resp: Response, o: Origin)
    ensures Lookup(MeterCall(d, msgs, resp).buckets, o) ==
      if o.Output? then MessageTokens(resp.message, d.tok)
      else TokensUnder(msgs, o, d.tok) + if o.SystemBucket? then d.tok(d.system) + d.tok(d.toolsText) else 0
    ensures TokensUnder(msgs, Unset, d.tok) == 0
  {
    var head := map[SystemBucket := d.tok(d.system) + d.tok(d.toolsText)];
    CreditAllByBucket(head, msgs, o, d.tok);
    NothingUnset(msgs, d.tok);
  }

  lemma {:induction false} NothingUnset(msgs: seq<ChatMessage>, tok: Tokenizer)
    ensures TokensUnder(msgs, Unset, tok) == 0
    decreases |msgs|
  {
    if msgs != [] {
      var init, last := msgs[..|msgs| - 1], msgs[|msgs| - 1];
      assert msgs == init + [last];
      NothingUnset(init, tok);
      MapSumSnoc((m: ChatMessage) => ShareUnder(m, Unset, tok), init, last);
    }
  }

  /** Every token of a request and its reply. */
  function Counted(d: Deps, msgs: seq<ChatMessage>, resp: Response): nat {
    d.tok(d.system) + d.tok(d.toolsText) + TokensOf(msgs, d.tok) + MessageTokens(resp.message, d.tok)
  }

  /**
   * A call's buckets sum to every token counted, except that what was credited to
   * "output" by re-sent messages is overwritten: the sum is exact if and only if those
   * messages weigh nothing.
   */
  lemma MeterIsExactUpToOutputTags(d: Deps, msgs: seq<ChatMessage>, resp: Response)
    ensures
      var counted := Counted(d, msgs, resp);
      && MapTotal(MeterCall(d, msgs, resp).buckets) + OutputTagged(msgs, d.tok) == counted
      && (MapTotal(MeterCall(d, msgs, resp).buckets) == counted <==> OutputTagged(msgs, d.tok) == 0)
  {
    hide MapTotal, CreditAll, OutputTagged, TokensOf, MessageTokens, Lookup;
    var head := map[SystemBucket := d.tok(d.system) + d.tok(d.toolsText)];
    OneBucket(SystemBucket, head[SystemBucket]);
    CreditAllTotals(head, msgs, d.tok);
    MapTotalUpdate(CreditAll(head, msgs, d.tok), Output, MessageTokens(resp.message, d.tok));
  }

  // ---------------------------------------------------- compressing messages

  function ToTurns(msgs: seq<ChatMessage>): (turns: seq<Turn>)
    ensures |turns| == |msgs|
  {
    seq(|msgs|, i requires 0 <= i < |msgs| =>
      Turn(msgs[i].role, msgs[i].content, i, msgs[i].origin, msgs[i].compressed))
  }

  function WriteBack(msgs: seq<ChatMessage>, history: seq<Turn>): (out: seq<ChatMessage>)
    requires |history| == |msgs|
    ensures |out| == |msgs|
  {
    seq(|msgs|, i requires 0 <= i < |msgs| =>
      msgs[i].(content := history[i].content, compressed := history[i].compressed))
  }

  function PassOver(msgs: seq<ChatMessage>, comp: Option<Config>, budget: int): (p: Pass)
    ensures |p.history| == |msgs|
  {
    if comp.None? then Done(ToTurns(msgs)) else Compressed(ToTurns(msgs), budget, comp.value)
  }

  /** The message list after a pass that did not fail. */
  function Rewritten(msgs: seq<ChatMessage>, comp: Option<Config>, budget: int): (out: seq<ChatMessage>)
    ensures |out| == |msgs|
  {
    WriteBack(msgs, PassOver(msgs, comp, budget).history)
  }

  lemma RewrittenWithoutCompressor(msgs: seq<ChatMessage>, budget: int)
    ensures Rewritten(msgs, None, budget) == msgs
  {
  }

  /** With only the newest action and its observations present, a pass touches nothing. */
  lemma NewestIsUntouched(msgs: seq<ChatMessage>, cfg: Config, budget: int)
    requires |msgs| >= 2 && msgs[0].role.User? && msgs[1].role.Assistant?
    requires forall i :: 2 <= i < |msgs| ==> msgs[i].role.Tool?
    ensures var p := PassOver(msgs, Some(cfg), budget);
      p.error.None? && p.calls == [] && p.summarized == p.dropped == 0 && Rewritten(msgs, Some(cfg), budget) == msgs
  {
    var turns := ToTurns(msgs);
    assert forall i :: 0 <= i < |turns| ==> Protected(turns, i) by {
      assert turns[1].role.Assistant?;
    }
    hide Compressed, Protected;
    ProtectedIsUntouched(turns, budget, cfg);
    RewrittenWithoutCompressor(msgs, budget);
  }

  /** How one message may change under any pass. */
  predicate MessageEvolved(a: ChatMessage, b: ChatMessage) {
    && b == a.(content := b.content, compressed := b.compressed)
    && (!a.role.Tool? || a.content == DROP_MARKER ==> b == a)
    && (a.compressed ==> b.compressed)
    && (b.content == a.content || b.content == DROP_MARKER || (!a.compressed && b.compressed))
  }

  lemma RewrittenEvolves(msgs: seq<ChatMessage>, comp: Option<Config>, budget: int)
    ensures var out := Rewritten(msgs, comp, budget);
      forall i :: 0 <= i < |msgs| ==> MessageEvolved(msgs[i], out[i])
    ensures |msgs| > 0 && msgs[0].role.User? ==> Rewritten(msgs, comp, budget)[0] == msgs[0]
  {
    var out := Rewritten(msgs, comp, budget);
    if comp.None? {
      RewrittenWithoutCompressor(msgs, budget);
    } else {
      var turns, p := ToTurns(msgs), PassOver(msgs, comp, budget);
      PassKeepsShape(turns, budget, comp.value);
      forall i | 0 <= i < |msgs|
        ensures MessageEvolved(msgs[i], out[i])
      {
        assert Evolved(turns[i], p.history[i], Protected(turns, i), comp.value);
      }
    }
  }

  // ----------------------------------------------------------------- the run

  function Start(query: string): RunState {
    RunState([Goal(query)], Outcome(false, [], 0, Running, 0, 0), [], [], [])
  }

  function Goal(query: string): ChatMessage {
    ChatMessage(User, query, [], "", History, false)
  }

  function Requested(s: RunState): RunState {
    s.(sent := s.sent + [s.msgs])
  }

  /** After a reply: the call is metered, the assistant message appended, the turn counted. */
  function Replied(d: Deps, turn: nat, s: RunState, resp: Response): RunState {
    Requested(s).(
      msgs := s.msgs + [resp.message.(origin := History)],
      ledger := s.ledger + [MeterCall(d, s.msgs, resp)],
      outcome := s.outcome.(turns := turn + 1))
  }

  function Answered(w: World, turn: nat, s: RunState, calls: seq<ToolCall>): RunState {
    var submission := Submission(w, calls);
    s.(msgs := s.msgs + Observations(w, turn, calls),
       outcome := if submission.None? then s.outcome
                  else s.outcome.(answered := true, locations := submission.value))
  }

  function Stopped(s: RunState, why: StopReason): RunState {
    s.(outcome := s.outcome.(stop := why))
  }

  /** A turn either ends the run (done) or hands its state to the next turn. */
  datatype TurnEnd = TurnEnd(state: RunState, done: bool, error: Option<RunError>)

  function CompressStep(d: Deps, s: RunState): TurnEnd {
    var p := PassOver(s.msgs, d.comp, d.historyBudget);
    if p.error.Some? then
      TurnEnd(s.(calls := s.calls + p.calls), true, Some(CompressFailed(p.error.value)))
    else
      TurnEnd(s.(msgs := Rewritten(s.msgs, d.comp, d.historyBudget),
                 calls := s.calls + p.calls,
                 outcome := s.outcome.(summarized := s.outcome.summarized + p.summarized,
                                       dropped := s.outcome.dropped + p.dropped)),
              false, None)
  }

  function OneTurn(w: World, d: Deps, turn: nat, s: RunState): TurnEnd {
    match w.generate(turn)
    case Err(e) => TurnEnd(Requested(s), true, Some(ModelFailed(turn, e)))
    case Ok(resp) =>
      var calls := resp.message.toolCalls;
      var asked := Replied(d, turn, s, resp);
      if calls == [] then TurnEnd(Stopped(asked, NoToolCall), true, None)
      else
        var answered := Answered(w, turn, asked, calls);
        if Submission(w, calls).Some? then TurnEnd(Stopped(answered, Submitted), true, None)
        else CompressStep(d, answered)
  }

  function RunFrom(w: World, d: Deps, turn: nat, s: RunState): RunEnd
    decreases TurnCap(d) - turn
  {
    if turn >= TurnCap(d) then RunEnd(Stopped(s, MaxTurns), None)
    else
      var t := OneTurn(w, d, turn, s);
      if t.done then RunEnd(t.state, t.error) else RunFrom(w, d, turn + 1, t.state)
  }

  /** The whole run. */
  function Run(w: World, d: Deps, query: string): RunEnd {
    RunFrom(w, d, 0, Start(query))
  }

  /** How many contents the run's passes have replaced. */
  function Edits(s: RunState): nat {
    s.outcome.summarized + s.outcome.dropped
  }

  // ------------------------------------------------------ transcript protocol

  ghost predicate AssistantReplies(w: World) {
    forall t: nat :: w.generate(t).Ok? ==> w.generate(t).value.message.role.Assistant?
  }

  /** One tool message per call, in order, with matching ids. */
  predicate Answers(msgs: seq<ChatMessage>, calls: seq<ToolCall>) {
    && |msgs| == |calls|
    && forall k :: 0 <= k < |calls| ==> msgs[k].role.Tool? && msgs[k].toolCallID == calls[k].id
  }

  /** msgs is n turns: an assistant message, then exactly the answers to its calls. */
  predicate Turns(msgs: seq<ChatMessage>, n: nat) {
    if msgs == [] then n == 0
    else
      var k := |msgs[0].toolCalls|;
      && n > 0 && msgs[0].role.Assistant? && k < |msgs|
      && Answers(msgs[1..1 + k], msgs[0].toolCalls)
      && Turns(msgs[1 + k..], n - 1)
  }

  predicate Protocol(msgs: seq<ChatMessage>, query: string, turns: nat) {
    msgs != [] && msgs[0] == Goal(query) && Turns(msgs[1..], turns)
  }

  /** One turn, and then any turns. */
  lemma TurnsCons(m: ChatMessage, answers: seq<ChatMessage>, rest: seq<ChatMessage>, n: nat)
    requires m.role.Assistant? && Answers(answers, m.toolCalls) && Turns(rest, n)
    ensures Turns([m] + answers + rest, n + 1)
  {
    var all, k := [m] + answers + rest, |answers|;
    assert all[0] == m && all[1..1 + k] == answers && all[1 + k..] == rest;
  }

  lemma TurnsHead(msgs: seq<ChatMessage>, n: nat)
    requires Turns(msgs, n) && msgs != []
    ensures var k := |msgs[0].toolCalls|;
      && n > 0 && msgs[0].role.Assistant? && k < |msgs|
      && Answers(msgs[1..1 + k], msgs[0].toolCalls) && Turns(msgs[1 + k..], n - 1)
  {
  }

  lemma NoTurns(n: nat)
    ensures Turns([], n) <==> n == 0
  {
  }

  lemma {:induction false} TurnsAppend(msgs: seq<ChatMessage>, n: nat, m: ChatMessage, answers: seq<ChatMessage>)
    requires Turns(msgs, n) && m.role.Assistant? && Answers(answers, m.toolCalls)
    ensures Turns(msgs + [m] + answers, n + 1)
    decreases |msgs|
  {
    hide Turns, Answers;
    if msgs == [] {
      NoTurns(n);
      TurnsCons(m, answers, [], 0);
      assert msgs + [m] + answers == [m] + answers + [];
    } else {
      TurnsHead(msgs, n);
      var k := |msgs[0].toolCalls|;
      var first, rest := msgs[1..1 + k], msgs[1 + k..];
      TurnsAppend(rest, n - 1, m, answers);
      TurnsCons(msgs[0], first, rest + [m] + answers, n);
      assert msgs + [m] + answers == [msgs[0]] + first + (rest + [m] + answers);
    }
  }

  lemma AnswersKept(a: seq<ChatMessage>, b: seq<ChatMessage>, calls: seq<ToolCall>)
    requires Answers(a, calls) && |a| == |b|
    requires forall i :: 0 <= i < |a| ==> MessageEvolved(a[i], b[i])
    ensures Answers(b, calls)
  {
    forall k | 0 <= k < |calls|
      ensures b[k].role.Tool? && b[k].toolCallID == calls[k].id
    {
      assert MessageEvolved(a[k], b[k]);
    }
  }

  lemma {:induction false} TurnsKept(a: seq<ChatMessage>, b: seq<ChatMessage>, n: nat)
    requires Turns(a, n) && |a| == |b|
    requires forall i :: 0 <= i < |a| ==> MessageEvolved(a[i], b[i])
    ensures Turns(b, n)
    decreases |a|
  {
    if a != [] {
      var k := |a[0].toolCalls|;
      assert b[0] == a[0] by {
        assert MessageEvolved(a[0], b[0]);
      }
      hide MessageEvolved;
      AnswersKept(a[1..1 + k], b[1..1 + k], a[0].toolCalls);
      TurnsKept(a[1 + k..], b[1 + k..], n - 1);
    }
  }

  lemma ProtocolKeptByPass(msgs: seq<ChatMessage>, query: string, turns: nat, comp: Option<Config>, budget: int)
    requires Protocol(msgs, query, turns)
    ensures Protocol(Rewritten(msgs, comp, budget), query, turns)
  {
    var out := Rewritten(msgs, comp, budget);
    RewrittenEvolves(msgs, comp, budget);
    TurnsKept(msgs[1..], out[1..], turns);
  }

  /** The messages a successful reply adds: the reply itself, then its answers. */
  function TurnMessages(w: World, turn: nat, resp: Response): seq<ChatMessage> {
    [resp.message.(origin := History)] + Observations(w, turn, resp.message.toolCalls)
  }

  lemma TurnKeepsProtocol(w: World, turn: nat, resp: Response, msgs: seq<ChatMessage>, query: string, n: nat)
    requires Protocol(msgs, query, n) && resp.message.role.Assistant?
    ensures Protocol(msgs + TurnMessages(w, turn, resp), query, n + 1)
  {
    var m, answers := resp.message.(origin := History), Observations(w, turn, resp.message.toolCalls);
    assert Answers(answers, m.toolCalls);
    hide Answers, Turns;
    TurnsAppend(msgs[1..], n, m, answers);
    assert (msgs + TurnMessages(w, turn, resp))[1..] == msgs[1..] + [m] + answers;
  }

  predicate Lawful(s: RunState, query: string) {
    Protocol(s.msgs, query, s.outcome.turns) && |s.ledger| == s.outcome.turns
  }

  lemma CompressStepLawful(d: Deps, s: RunState, query: string)
    requires Lawful(s, query)
    ensures var t := CompressStep(d, s);
      Lawful(t.state, query) && t.state.outcome.turns == s.outcome.turns
  {
    ProtocolKeptByPass(s.msgs, query, s.outcome.turns, d.comp, d.historyBudget);
  }

  /** A turn that got a reply, up to the point where the loop decides how to go on. */
  lemma ReplyShape(w: World, d: Deps, turn: nat, s: RunState, resp: Response)
    ensures var calls := resp.message.toolCalls;
      var asked := Replied(d, turn, s, resp);
      var answered := Answered(w, turn, asked, calls);
      && answered.msgs == s.msgs + TurnMessages(w, turn, resp)
      && (calls == [] ==> asked.msgs == answered.msgs)
      && asked.sent == answered.sent == s.sent + [s.msgs]
      && asked.calls == answered.calls == s.calls
      && |asked.ledger| == |answered.ledger| == |s.ledger| + 1
      && asked.outcome.turns == answered.outcome.turns == turn + 1
      && asked.outcome.stop == answered.outcome.stop == s.outcome.stop
      && Edits(asked) == Edits(answered) == Edits(s)
  {
    hide Observations, MeterCall, Submission;
  }

  lemma OneTurnLawful(w: World, d: Deps, turn: nat, s: RunState, query: string)
    requires AssistantReplies(w) && Lawful(s, query) && s.outcome.turns == turn
    ensures var t := OneTurn(w, d, turn, s);
      Lawful(t.state, query) && (!t.done ==> t.state.outcome.turns == turn + 1)
  {
    if w.generate(turn).Ok? {
      var resp := w.generate(turn).value;
      var answered := Answered(w, turn, Replied(d, turn, s, resp), resp.message.toolCalls);
      ReplyShape(w, d, turn, s, resp);
      hide Replied, Answered, TurnMessages, CompressStep, Submission, Protocol;
      TurnKeepsProtocol(w, turn, resp, s.msgs, query, turn);
      CompressStepLawful(d, answered, query);
    }
  }

  lemma {:induction false} RunFromLawful(w: World, d: Deps, turn: nat, s: RunState, query: string)
    requires AssistantReplies(w) && Lawful(s, query) && s.outcome.turns == turn
    ensures Lawful(RunFrom(w, d, turn, s).state, query)
    decreases TurnCap(d) - turn
  {
    if turn < TurnCap(d) {
      OneTurnLawful(w, d, turn, s, query);
      var t := OneTurn(w, d, turn, s);
      if !t.done {
        RunFromLawful(w, d, turn + 1, t.state, query);
      }
    }
  }

  /**
   * On every exit the transcript is the untouched goal followed by exactly outcome.turns
   * turns, each with one tool message per call, and there is one ledger entry per turn.
   */
  lemma RunKeepsProtocol(w: World, d: Deps, query: string)
    requires AssistantReplies(w)
    ensures var end := Run(w, d, query).state;
      && Protocol(end.msgs, query, end.outcome.turns)
      && |end.ledger| == end.outcome.turns
  {
    RunFromLawful(w, d, 0, Start(query), query);
  }

  // ------------------------------------------------------- metering of a run

  /** No tool answers under the bucket that a call's own output is assigned to. */
  ghost predicate ToolsAvoidOutput(w: World) {
    forall t: nat, k: nat :: w.callTool(t, k).Ok? ==> !w.callTool(t, k).value.1.Output?
  }

  predicate AvoidsOutput(msgs: seq<ChatMessage>) {
    forall i :: 0 <= i < |msgs| ==> !msgs[i].origin.Output?
  }

  /** Entry k of the ledger is the metering of request k and its reply. */
  predicate Metered(w: World, d: Deps, s: RunState) {
    && |s.ledger| <= |s.sent|
    && forall k :: 0 <= k < |s.ledger| ==>
         w.generate(k).Ok? && s.ledger[k] == MeterCall(d, s.sent[k], w.generate(k).value)
  }

  predicate RequestsAvoidOutput(s: RunState) {
    AvoidsOutput(s.msgs) && forall k :: 0 <= k < |s.sent| ==> AvoidsOutput(s.sent[k])
  }

  lemma TurnAvoidsOutput(w: World, turn: nat, resp: Response, msgs: seq<ChatMessage>)
    requires ToolsAvoidOutput(w) && AvoidsOutput(msgs)
    ensures AvoidsOutput(msgs + TurnMessages(w, turn, resp))
  {
    var calls := resp.message.toolCalls;
    forall k | 0 <= k < |calls|
      ensures !Observations(w, turn, calls)[k].origin.Output?
    {
      assert Observations(w, turn, calls)[k] == Observation(w, turn, k, calls[k]);
    }
  }

  lemma PassAvoidsOutput(msgs: seq<ChatMessage>, comp: Option<Config>, budget: int)
    requires AvoidsOutput(msgs)
    ensures AvoidsOutput(Rewritten(msgs, comp, budget))
  {
    RewrittenEvolves(msgs, comp, budget);
    var out := Rewritten(msgs, comp, budget);
    hide Rewritten;
    forall i | 0 <= i < |out|
      ensures !out[i].origin.Output?
    {
      assert MessageEvolved(msgs[i], out[i]);
    }
  }

  predicate OneMeteredTurn(w: World, d: Deps, turn: nat, s: RunState) {
    |s.ledger| == |s.sent| == turn && Metered(w, d, s)
  }

  lemma OneTurnMetered(w: World, d: Deps, turn: nat, s: RunState)
    requires OneMeteredTurn(w, d, turn, s)
    ensures var t := OneTurn(w, d, turn, s);
      Metered(w, d, t.state) && (!t.done ==> OneMeteredTurn(w, d, turn + 1, t.state))
  {
    hide MeterCall, Observations, Submission, PassOver, Rewritten;
  }

  lemma OneTurnAvoidsOutput(w: World, d: Deps, turn: nat, s: RunState)
    requires ToolsAvoidOutput(w) && RequestsAvoidOutput(s)
    ensures RequestsAvoidOutput(OneTurn(w, d, turn, s).state)
  {
    hide AvoidsOutput;
    if w.generate(turn).Ok? {
      var resp := w.generate(turn).value;
      var calls := resp.message.toolCalls;
      var asked := Replied(d, turn, s, resp);
      var answered := Answered(w, turn, asked, calls);
      ReplyShape(w, d, turn, s, resp);
      TurnAvoidsOutput(w, turn, resp, s.msgs);
      PassAvoidsOutput(answered.msgs, d.comp, d.historyBudget);
      hide Replied, Answered, TurnMessages, Submission, PassOver, Rewritten;
    }
  }

  lemma {:induction false} RunFromMetered(w: World, d: Deps, turn: nat, s: RunState)
    requires OneMeteredTurn(w, d, turn, s)
    ensures Metered(w, d, RunFrom(w, d, turn, s).state)
    ensures ToolsAvoidOutput(w) && RequestsAvoidOutput(s) ==> RequestsAvoidOutput(RunFrom(w, d, turn, s).state)
    decreases TurnCap(d) - turn
  {
    hide OneTurn, ToolsAvoidOutput, AvoidsOutput;
    if turn < TurnCap(d) {
      OneTurnMetered(w, d, turn, s);
      var t := OneTurn(w, d, turn, s);
      if ToolsAvoidOutput(w) && RequestsAvoidOutput(s) {
        OneTurnAvoidsOutput(w, d, turn, s);
      }
      if !t.done {
        RunFromMetered(w, d, turn + 1, t.state);
      }
    }
  }

  lemma {:induction false} NothingTagged(msgs: seq<ChatMessage>, tok: Tokenizer)
    requires AvoidsOutput(msgs)
    ensures OutputTagged(msgs, tok) == 0
    decreases |msgs|
  {
    if msgs != [] {
      var init, last := msgs[..|msgs| - 1], msgs[|msgs| - 1];
      assert msgs == init + [last];
      NothingTagged(init, tok);
      MapSumSnoc((m: ChatMessage) => TaggedTokens(m, tok), init, last);
    }
  }

  /**
   * Over a whole run, ledger entry k meters exactly request k and its reply; and where no
   * tool answers under the output bucket, each entry's buckets sum to every token counted.
   */
  lemma LedgerIsExact(w: World, d: Deps, query: string)
    ensures var e := Run(w, d, query).state;
      && Metered(w, d, e)
      && (ToolsAvoidOutput(w) ==>
            forall k :: 0 <= k < |e.ledger| ==>
              MapTotal(e.ledger[k].buckets) == Counted(d, e.sent[k], w.generate(k).value))
  {
    RunFromMetered(w, d, 0, Start(query));
    var e := Run(w, d, query).state;
    assert AvoidsOutput(Start(query).msgs);
    hide Run, MeterCall;
    if ToolsAvoidOutput(w) {
      forall k | 0 <= k < |e.ledger|
        ensures MapTotal(e.ledger[k].buckets) == Counted(d, e.sent[k], w.generate(k).value)
      {
        NothingTagged(e.sent[k], d.tok);
        MeterIsExactUpToOutputTags(d, e.sent[k], w.generate(k).value);
      }
    }
  }
}
