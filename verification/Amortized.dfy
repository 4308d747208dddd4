/**
 * Bounds over a whole compressed run, however many turns it takes: summarizer calls,
 * rewrites of a single message, and prompts whose cached prefix breaks.
 */
module Amortized {
  import opened Basics
  import opened Compression
  import opened Confluence
  import opened PassTheorems
  import opened Agent
  import opened Replay
  import opened Billing

  predicate OpenMessage(m: ChatMessage) {
    m.role.Tool? && !m.compressed
  }

  /** How many rewrites a message can still suffer: one summary, one drop. */
  function Rank(m: ChatMessage): nat {
    Flag(OpenMessage(m)) + Flag(m.role.Tool? && m.content != DROP_MARKER)
  }

  function ToolCount(msgs: seq<ChatMessage>): nat {
    Sum(Map((m: ChatMessage) => Flag(m.role.Tool?), msgs))
  }

  function OpenMessages(msgs: seq<ChatMessage>): nat {
    Sum(Map((m: ChatMessage) => Flag(OpenMessage(m)), msgs))
  }

  function Ranks(msgs: seq<ChatMessage>): nat {
    Sum(Map((m: ChatMessage) => Rank(m), msgs))
  }

  lemma CountsConcat(a: seq<ChatMessage>, b: seq<ChatMessage>)
    ensures ToolCount(a + b) == ToolCount(a) + ToolCount(b)
    ensures OpenMessages(a + b) == OpenMessages(a) + OpenMessages(b)
    ensures Ranks(a + b) == Ranks(a) + Ranks(b)
  {
    MapSumConcat((m: ChatMessage) => Flag(m.role.Tool?), a, b);
    MapSumConcat((m: ChatMessage) => Flag(OpenMessage(m)), a, b);
    MapSumConcat((m: ChatMessage) => Rank(m), a, b);
  }

  lemma OpenMessagesAreOpenTurns(msgs: seq<ChatMessage>)
    ensures OpenMessages(msgs) == OpenCount(ToTurns(msgs))
  {
    assert Map((m: ChatMessage) => Flag(OpenMessage(m)), msgs) == Map((t: Turn) => Flag(Open(t)), ToTurns(msgs));
  }

  lemma OpenMessagesReadBack(msgs: seq<ChatMessage>, history: seq<Turn>)
    requires |history| == |msgs|
    requires forall i :: 0 <= i < |msgs| ==> history[i].role == msgs[i].role
    ensures OpenMessages(WriteBack(msgs, history)) == OpenCount(history)
  {
    assert Map((m: ChatMessage) => Flag(OpenMessage(m)), WriteBack(msgs, history))
        == Map((t: Turn) => Flag(Open(t)), history);
  }

  // --------------------------------------------------------- summarizer calls

  lemma PassCalls(msgs: seq<ChatMessage>, comp: Option<Config>, budget: int)
    ensures var p := PassOver(msgs, comp, budget);
      && |p.calls| <= OpenMessages(msgs)
      && (p.error.None? ==> |p.calls| + OpenMessages(Rewritten(msgs, comp, budget)) == OpenMessages(msgs))
    ensures ToolCount(Rewritten(msgs, comp, budget)) == ToolCount(msgs)
  {
    var p, out := PassOver(msgs, comp, budget), Rewritten(msgs, comp, budget);
    RewrittenEvolves(msgs, comp, budget);
    OpenMessagesAreOpenTurns(msgs);
    forall i | 0 <= i < |msgs|
      ensures Flag(out[i].role.Tool?) == Flag(msgs[i].role.Tool?)
    {
      assert MessageEvolved(msgs[i], out[i]);
    }
    assert Map((m: ChatMessage) => Flag(m.role.Tool?), out) == Map((m: ChatMessage) => Flag(m.role.Tool?), msgs);
    if comp.Some? {
      PassAccounts(ToTurns(msgs), budget, comp.value);
      PassKeepsShape(ToTurns(msgs), budget, comp.value);
      assert forall i :: 0 <= i < |msgs| ==>
        Evolved(ToTurns(msgs)[i], p.history[i], Protected(ToTurns(msgs), i), comp.value);
      OpenMessagesReadBack(msgs, p.history);
    } else {
      RewrittenWithoutCompressor(msgs, budget);
    }
  }

  lemma FreshObservationsCount(w: World, turn: nat, resp: Response)
    requires resp.message.role.Assistant?
    ensures var block := TurnMessages(w, turn, resp);
      && OpenMessages(block) == ToolCount(block)
      && Ranks(block) <= 2 * ToolCount(block)
      && forall i :: 0 <= i < |block| ==> Rank(block[i]) <= 2
  {
    var block := TurnMessages(w, turn, resp);
    assert Map((m: ChatMessage) => Flag(OpenMessage(m)), block) == Map((m: ChatMessage) => Flag(m.role.Tool?), block);
    RanksBounded(block);
  }

  lemma {:induction false} RanksBounded(msgs: seq<ChatMessage>)
    ensures Ranks(msgs) <= 2 * ToolCount(msgs)
  {
    if msgs != [] {
      var init, last := msgs[..|msgs| - 1], msgs[|msgs| - 1];
      RanksBounded(init);
      assert msgs == init + [last];
      MapSumSnoc((m: ChatMessage) => Rank(m), init, last);
      MapSumSnoc((m: ChatMessage) => Flag(m.role.Tool?), init, last);
    }
  }

  // ------------------------------------------------ rewrites and broken prefixes

  /** The cached prefix of the next prompt is shorter than the whole previous prompt. */
  predicate Breaks(a: seq<ChatMessage>, b: seq<ChatMessage>, pr: Pricing) {
    Matched(PromptOf(a, pr), PromptOf(b, pr)) < |PromptOf(a, pr)|
  }

  function Breakages(trail: seq<seq<ChatMessage>>, pr: Pricing): nat {
    var n := |trail|;
    if n < 2 then 0
    else Breakages(trail[..n - 1], pr) + Flag(Breaks(trail[n - 2], trail[n - 1], pr))
  }

  /** How often the content at position i differs between consecutive requests. */
  function Rewrites(trail: seq<seq<ChatMessage>>, i: nat): nat {
    var n := |trail|;
    if n < 2 then 0
    else Rewrites(trail[..n - 1], i) + Flag(RewrittenAt(trail[n - 2], trail[n - 1], i))
  }

  predicate RewrittenAt(a: seq<ChatMessage>, b: seq<ChatMessage>, i: nat) {
    i < |a| && (|b| <= i || a[i].content != b[i].content)
  }

  /** b is a with more messages appended and then a pass over the whole. */
  predicate Extends(a: seq<ChatMessage>, b: seq<ChatMessage>) {
    |a| <= |b| && forall i :: 0 <= i < |a| ==> MessageEvolved(a[i], b[i])
  }

  lemma RankFalls(a: ChatMessage, b: ChatMessage)
    requires MessageEvolved(a, b)
    ensures Rank(b) <= Rank(a)
    ensures a.content != b.content ==> Rank(b) < Rank(a)
  {
  }

  lemma RanksFall(a: seq<ChatMessage>, b: seq<ChatMessage>)
    requires |a| == |b| && Extends(a, b)
    ensures Ranks(b) <= Ranks(a)
    ensures (exists i :: 0 <= i < |a| && a[i].content != b[i].content) ==> Ranks(b) < Ranks(a)
  {
    var weigh := (m: ChatMessage) => Rank(m);
    forall i | 0 <= i < |a|
      ensures Map(weigh, b)[i] <= Map(weigh, a)[i]
      ensures a[i].content != b[i].content ==> Map(weigh, b)[i] < Map(weigh, a)[i]
    {
      RankFalls(a[i], b[i]);
    }
    SumMonotone(Map(weigh, b), Map(weigh, a));
    if k :| 0 <= k < |a| && a[k].content != b[k].content {
      SumStrictlyMonotone(Map(weigh, b), Map(weigh, a), k);
    }
  }

  /** The prefix only breaks where some content changed: equal messages hash alike. */
  lemma BreakNeedsRewrite(a: seq<ChatMessage>, b: seq<ChatMessage>, pr: Pricing)
    requires Extends(a, b)
    requires forall i :: 0 <= i < |a| ==> a[i].content == b[i].content
    ensures !Breaks(a, b, pr)
  {
    var p, q := PromptOf(a, pr), PromptOf(b, pr);
    forall k | 0 <= k < |p|
      ensures p[k] == q[k]
    {
      if k > 0 {
        assert MessageEvolved(a[k - 1], b[k - 1]);
        assert p[k] == MsgBlock(a[k - 1], pr) && q[k] == MsgBlock(b[k - 1], pr);
      }
    }
    assert p <= q;
    MatchedOnPrefix(p, q);
  }

  // ----------------------------------------------------------- over a whole run

  /** The requests made so far, then the message list the next request would carry. */
  function Trail(s: RunState): seq<seq<ChatMessage>> {
    s.sent + [s.msgs]
  }

  predicate CallsPaid(s: RunState) {
    |s.calls| + OpenMessages(s.msgs) == ToolCount(s.msgs)
  }

  ghost predicate RewritesPaid(s: RunState) {
    && (forall i :: 0 <= i < |s.msgs| ==> Rewrites(Trail(s), i) + Rank(s.msgs[i]) <= 2)
    && (forall i: nat :: i >= |s.msgs| ==> Rewrites(Trail(s), i) == 0)
  }

  predicate BreakagesPaid(s: RunState, pr: Pricing) {
    Breakages(Trail(s), pr) + Ranks(s.msgs) <= 2 * ToolCount(s.msgs)
  }

  /** A run state reached from s by one reply, its observations and possibly a pass. */
  predicate Advances(s: RunState, t: RunState, block: seq<ChatMessage>) {
    && t.sent == s.sent + [s.msgs]
    && |t.msgs| == |s.msgs + block| && Extends(s.msgs + block, t.msgs)
  }

  /** A broken prefix costs rank: some content of the old prefix was rewritten. */
  lemma BreakCostsRank(a: seq<ChatMessage>, grown: seq<ChatMessage>, b: seq<ChatMessage>, pr: Pricing)
    requires a <= grown && |grown| == |b| && Extends(grown, b)
    ensures Ranks(b) + Flag(Breaks(a, b, pr)) <= Ranks(grown)
  {
    RanksFall(grown, b);
    assert Extends(a, b) by {
      assert forall i :: 0 <= i < |a| ==> grown[i] == a[i];
    }
    hide Breaks, Extends, Ranks;
    if Breaks(a, b, pr) {
      if forall i :: 0 <= i < |a| ==> a[i].content == b[i].content {
        BreakNeedsRewrite(a, b, pr);
      }
      var k :| 0 <= k < |a| && a[k].content != b[k].content;
      assert grown[k].content != b[k].content;
    }
  }

  lemma BreakagesSnoc(trail: seq<seq<ChatMessage>>, a: seq<ChatMessage>, b: seq<ChatMessage>, pr: Pricing)
    ensures Breakages(trail + [a] + [b], pr) == Breakages(trail + [a], pr) + Flag(Breaks(a, b, pr))
  {
    hide Breaks;
    assert (trail + [a] + [b])[..|trail| + 1] == trail + [a];
  }

  lemma BreakagesAdvance(s: RunState, t: RunState, block: seq<ChatMessage>, pr: Pricing)
    requires BreakagesPaid(s, pr) && Advances(s, t, block) && Ranks(block) <= 2 * ToolCount(block)
    requires ToolCount(t.msgs) == ToolCount(s.msgs + block)
    ensures BreakagesPaid(t, pr)
  {
    hide Breaks, Extends, ToolCount, Ranks, Breakages;
    CountsConcat(s.msgs, block);
    BreakCostsRank(s.msgs, s.msgs + block, t.msgs, pr);
    BreakagesSnoc(s.sent, s.msgs, t.msgs, pr);
  }

  lemma RewritesAdvance(s: RunState, t: RunState, block: seq<ChatMessage>)
    requires RewritesPaid(s) && Advances(s, t, block)
    requires forall i :: 0 <= i < |block| ==> Rank(block[i]) <= 2
    ensures RewritesPaid(t)
  {
    var grown := s.msgs + block;
    assert Trail(t)[..|Trail(t)| - 1] == Trail(s);
    forall i | 0 <= i < |t.msgs|
      ensures Rewrites(Trail(t), i) + Rank(t.msgs[i]) <= 2
    {
      RankFalls(grown[i], t.msgs[i]);
      if i >= |s.msgs| {
        assert Rewrites(Trail(s), i) == 0;
      }
    }
    forall i: nat | i >= |t.msgs|
      ensures Rewrites(Trail(t), i) == 0
    {
      assert Rewrites(Trail(s), i) == 0;
    }
  }

  ghost predicate Paid(s: RunState, pr: Pricing) {
    CallsPaid(s) && RewritesPaid(s) && BreakagesPaid(s, pr)
  }

  /** What every ended run has paid: on a failed pass the last calls are only bounded. */
  ghost predicate PaidUp(e: RunEnd, pr: Pricing) {
    && RewritesPaid(e.state) && BreakagesPaid(e.state, pr)
    && (if CompressionFailed(e) then |e.state.calls| <= ToolCount(e.state.msgs) else CallsPaid(e.state))
  }

  lemma ExtendsSelf(a: seq<ChatMessage>)
    ensures Extends(a, a)
  {
  }

  /** A state one turn on whose messages are exactly the old ones and the new block. */
  lemma AppendPaid(s: RunState, t: RunState, block: seq<ChatMessage>, pr: Pricing)
    requires Paid(s, pr) && t.sent == s.sent + [s.msgs] && t.msgs == s.msgs + block && t.calls == s.calls
    requires OpenMessages(block) == ToolCount(block) && Ranks(block) <= 2 * ToolCount(block)
    requires forall i :: 0 <= i < |block| ==> Rank(block[i]) <= 2
    ensures Paid(t, pr)
  {
    ExtendsSelf(s.msgs + block);
    CountsConcat(s.msgs, block);
    BreakagesAdvance(s, t, block, pr);
    RewritesAdvance(s, t, block);
  }

  lemma RequestPaid(s: RunState, pr: Pricing)
    requires Paid(s, pr)
    ensures Paid(Requested(s), pr)
  {
    assert s.msgs + [] == s.msgs;
    AppendPaid(s, Requested(s), [], pr);
  }

  lemma CompressStepShape(d: Deps, t: RunState)
    ensures var c, p := CompressStep(d, t), PassOver(t.msgs, d.comp, d.historyBudget);
      && c.state.sent == t.sent && c.state.calls == t.calls + p.calls
      && c.done == c.error.Some? == p.error.Some? == CompressionFailed(RunEnd(c.state, c.error))
      && c.state.msgs == (if c.done then t.msgs else Rewritten(t.msgs, d.comp, d.historyBudget))
  {
  }

  lemma CompressStepCalls(d: Deps, t: RunState)
    requires CallsPaid(t)
    ensures var c := CompressStep(d, t);
      && ToolCount(c.state.msgs) == ToolCount(t.msgs)
      && if c.done then |c.state.calls| <= ToolCount(c.state.msgs) else CallsPaid(c.state)
  {
    CompressStepShape(d, t);
    PassCalls(t.msgs, d.comp, d.historyBudget);
    hide CompressStep, PassOver, Rewritten, ToolCount, OpenMessages;
  }

  /** The pass over a state whose last request is already recorded. */
  lemma CompressStepPaid(d: Deps, s: RunState, t: RunState, block: seq<ChatMessage>, pr: Pricing)
    requires Paid(s, pr) && t.sent == s.sent + [s.msgs] && t.msgs == s.msgs + block && t.calls == s.calls
    requires OpenMessages(block) == ToolCount(block) && Ranks(block) <= 2 * ToolCount(block)
    requires forall i :: 0 <= i < |block| ==> Rank(block[i]) <= 2
    ensures var c := CompressStep(d, t);
      PaidUp(RunEnd(c.state, c.error), pr) && (!c.done ==> Paid(c.state, pr))
  {
    hide CompressStep, PassOver, Rewritten, MessageEvolved, CallsPaid, RewritesPaid, BreakagesPaid, Rank, Ranks,
         ToolCount, OpenMessages, CompressionFailed;
    var c := CompressStep(d, t);
    AppendPaid(s, t, block, pr);
    CompressStepShape(d, t);
    CompressStepCalls(d, t);
    if c.done {
      SameTrailPaid(t, c.state, pr);
    } else {
      RewrittenEvolves(t.msgs, d.comp, d.historyBudget);
      BreakagesAdvance(s, c.state, block, pr);
      RewritesAdvance(s, c.state, block);
    }
  }

  lemma SameTrailPaid(s: RunState, t: RunState, pr: Pricing)
    requires s.sent == t.sent && s.msgs == t.msgs
    ensures RewritesPaid(s) ==> RewritesPaid(t)
    ensures BreakagesPaid(s, pr) ==> BreakagesPaid(t, pr)
  {
    assert Trail(s) == Trail(t);
  }

  lemma StoppedPaid(s: RunState, pr: Pricing)
    requires Paid(s, pr)
    ensures PaidUp(RunEnd(Stopped(s, MaxTurns), None), pr)
  {
    SameTrailPaid(s, Stopped(s, MaxTurns), pr);
  }

  lemma OneTurnPaid(w: World, d: Deps, turn: nat, s: RunState, pr: Pricing)
    requires AssistantReplies(w) && Paid(s, pr)
    ensures var t := OneTurn(w, d, turn, s);
      PaidUp(RunEnd(t.state, t.error), pr) && (!t.done ==> Paid(t.state, pr))
  {
    match w.generate(turn)
    case Err(_) =>
      RequestPaid(s, pr);
    case Ok(resp) =>
      var calls, block := resp.message.toolCalls, TurnMessages(w, turn, resp);
      FreshObservationsCount(w, turn, resp);
      var asked := Replied(d, turn, s, resp);
      var answered := Answered(w, turn, asked, calls);
      ReplyShape(w, d, turn, s, resp);
      hide Ranks, ToolCount, OpenMessages, Rank, CompressStep, TurnMessages, Replied, Answered, Submission;
      var t := OneTurn(w, d, turn, s);
      if calls == [] || Submission(w, calls).Some? {
        AppendPaid(s, t.state, block, pr);
      } else {
        CompressStepPaid(d, s, answered, block, pr);
      }
  }

  lemma {:induction false} RunFromPaid(w: World, d: Deps, turn: nat, s: RunState, pr: Pricing)
    requires AssistantReplies(w) && Paid(s, pr)
    ensures PaidUp(RunFrom(w, d, turn, s), pr)
    decreases TurnCap(d) - turn
  {
    hide OneTurn, CallsPaid, RewritesPaid, BreakagesPaid;
    if turn < TurnCap(d) {
      OneTurnPaid(w, d, turn, s, pr);
      var t := OneTurn(w, d, turn, s);
      if !t.done {
        RunFromPaid(w, d, turn + 1, t.state, pr);
      }
    } else {
      StoppedPaid(s, pr);
    }
  }

  lemma {:induction false} TrailOverstates(sent: seq<seq<ChatMessage>>, msgs: seq<ChatMessage>, i: nat, pr: Pricing)
    ensures Rewrites(sent, i) <= Rewrites(sent + [msgs], i)
    ensures Breakages(sent, pr) <= Breakages(sent + [msgs], pr)
  {
    assert (sent + [msgs])[..|sent|] == sent;
  }

  /**
   * However long the run: the summarizer is called at most once per tool message, and, if
   * no pass failed, exactly once per tool message now marked compressed; no message's
   * content changes more than twice between requests; and the number of requests whose
   * cached prefix falls short of the previous prompt is at most twice the tool messages.
   */
  lemma RunIsAmortized(w: World, d: Deps, query: string, pr: Pricing)
    requires AssistantReplies(w)
    ensures var e := Run(w, d, query);
      && |e.state.calls| <= ToolCount(e.state.msgs)
      && (!CompressionFailed(e) ==> |e.state.calls| + OpenMessages(e.state.msgs) == ToolCount(e.state.msgs))
      && (forall i: nat :: Rewrites(e.state.sent, i) <= 2)
      && Breakages(e.state.sent, pr) <= 2 * ToolCount(e.state.msgs)
  {
    var s, e := Start(query), Run(w, d, query);
    assert Trail(s) == [s.msgs];
    RanksBounded(s.msgs);
    assert Map((m: ChatMessage) => Flag(OpenMessage(m)), s.msgs) == Map((m: ChatMessage) => Flag(m.role.Tool?), s.msgs);
    assert Paid(s, pr);
    RunFromPaid(w, d, 0, s, pr);
    forall i: nat
      ensures Rewrites(e.state.sent, i) <= 2
    {
      TrailOverstates(e.state.sent, e.state.msgs, i, pr);
    }
    TrailOverstates(e.state.sent, e.state.msgs, 0, pr);
  }

  /** The replay's own count: turns whose longest common prefix falls short of the last prompt. */
  function ShortHits(prompts: seq<Prompt>): nat {
    if prompts == [] then 0
    else
      var n := |prompts| - 1;
      ShortHits(prompts[..n]) + Flag(Hits(prompts, n) < |Previous(prompts, n)|)
  }

  lemma {:induction false} ShortHitsAreBreakages(prompts: seq<Prompt>, sent: seq<seq<ChatMessage>>, pr: Pricing)
    requires |prompts| <= |sent|
    requires forall k :: 0 <= k < |prompts| ==> prompts[k] == PromptOf(sent[k], pr)
    ensures ShortHits(prompts) <= Breakages(sent, pr)
    decreases |sent|
  {
    hide PromptOf;
    if |prompts| < |sent| {
      assert sent == sent[..|sent| - 1] + [sent[|sent| - 1]];
      ShortHitsAreBreakages(prompts, sent[..|sent| - 1], pr);
      TrailOverstates(sent[..|sent| - 1], sent[|sent| - 1], 0, pr);
    } else if prompts != [] {
      var n := |prompts| - 1;
      ShortHitsAreBreakages(prompts[..n], sent[..n], pr);
      if n > 0 {
        assert prompts[n - 1] == PromptOf(sent[n - 1], pr) && prompts[n] == PromptOf(sent[n], pr);
      }
    }
  }

  /** The same bound on the bill: a replayed transcript breaks its cache that rarely too. */
  lemma ReplayBreaksRarely(w: World, d: Deps, query: string, pr: Pricing)
    requires AssistantReplies(w)
    ensures var base, live := Run(w, d.(comp := None), query), Run(w, d, query);
      var replay := ReplayLog(base.state.msgs, d.comp, d.historyBudget, pr);
      replay.Ok? ==> ShortHits(replay.value.prompts) <= 2 * ToolCount(live.state.msgs)
  {
    var base, live := Run(w, d.(comp := None), query), Run(w, d, query);
    var replay := ReplayLog(base.state.msgs, d.comp, d.historyBudget, pr);
    hide Run, ReplayLog;
    LiveAgreesWithReplay(w, d, query, pr);
    RunIsAmortized(w, d, query, pr);
    if replay.Ok? {
      ShortHitsAreBreakages(replay.value.prompts, live.state.sent, pr);
    }
  }
}
