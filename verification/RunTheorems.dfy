/** What a whole run tells the model, and how and when it ends. */
module RunTheorems {
  import opened Basics
  import opened Compression
  import opened Agent
  import opened Replay

  // ------------------------------------------------------ what the model is told

  /**
   * next is what the request after turn t carries: everything the request of turn t carried,
   * the reply, and one message telling what each of its calls came to, as the pass over all
   * of them may have rewritten it.
   */
  ghost predicate Carries(w: World, d: Deps, t: nat, request: seq<ChatMessage>, next: seq<ChatMessage>) {
    && w.generate(t).Ok?
    && exists answers: seq<ChatMessage> ::
         && AllTold(w, t, w.generate(t).value.message.toolCalls, answers)
         && next == Rewritten(request + [w.generate(t).value.message.(origin := History)] + answers,
                              d.comp, d.historyBudget)
  }

  lemma RepliesFewer(w: World, n: nat)
    requires RepliesBefore(w, n)
    ensures n > 0 ==> RepliesBefore(w, n - 1)
  {
  }

  lemma RepliesMore(w: World, n: nat)
    requires RepliesBefore(w, n) && w.generate(n).Ok?
    ensures RepliesBefore(w, n + 1)
  {
  }

  lemma CapEnds(w: World, d: Deps, turn: nat, s: RunState)
    requires turn >= TurnCap(d)
    ensures RunFrom(w, d, turn, s) == RunEnd(Stopped(s, MaxTurns), None)
  {
    hide OneTurn;
  }

  lemma {:induction false} LiveNeedsReplies(w: World, query: string, d: Deps, turn: nat, s: RunState)
    requires |s.sent| == turn && RepliesBefore(w, turn)
    ensures var e := RunFrom(w, d, turn, s);
      |e.state.sent| > 0 ==> RepliesBefore(w, |e.state.sent| - 1)
    decreases TurnCap(d) - turn
  {
    hide RepliesBefore, OneTurn;
    if turn < TurnCap(d) {
      OneTurnRequests(w, d, turn, s);
      var t := OneTurn(w, d, turn, s);
      if !t.done {
        RepliesMore(w, turn);
        LiveNeedsReplies(w, query, d, turn + 1, t.state);
      }
    } else {
      CapEnds(w, d, turn, s);
      RepliesFewer(w, turn);
    }
  }

  lemma OneTurnRequests(w: World, d: Deps, turn: nat, s: RunState)
    ensures var t := OneTurn(w, d, turn, s);
      t.state.sent == s.sent + [s.msgs] && (!t.done ==> w.generate(turn).Ok?)
  {
    hide MeterCall, Observations, Submission, PassOver, Rewritten;
  }

  /** Consecutive live histories are one turn apart. */
  lemma LiveCarries(w: World, d: Deps, query: string, t: nat, request: seq<ChatMessage>, next: seq<ChatMessage>)
    requires w.generate(t).Ok?
    requires Live(w, query, d.comp, d.historyBudget, t) == Ok(request)
    requires Live(w, query, d.comp, d.historyBudget, t + 1) == Ok(next)
    ensures Carries(w, d, t, request, next)
  {
    LiveStep(w, query, d.comp, d.historyBudget, t, request);
    hide Live, Rewritten, PassOver, AllTold;
    var resp := w.generate(t).value;
    var reply, answers := [resp.message.(origin := History)], Observations(w, t, resp.message.toolCalls);
    ObservationsTell(w, t, resp.message.toolCalls);
    assert request + TurnMessages(w, t, resp) == request + reply + answers;
  }

  ghost predicate AllLive(w: World, d: Deps, query: string, sent: seq<seq<ChatMessage>>) {
    forall k :: 0 <= k < |sent| ==> Live(w, query, d.comp, d.historyBudget, k) == Ok(sent[k])
  }

  lemma FollowedIsLive(w: World, d: Deps, query: string, e: RunEnd)
    requires FollowedTo(w, query, d, e)
    ensures AllLive(w, d, query, e.state.sent)
  {
    hide Live;
  }

  lemma StartFollows(w: World, d: Deps, query: string)
    ensures Follows(w, query, d, 0, Start(query)) && |Start(query).sent| == 0 && RepliesBefore(w, 0)
  {
    hide RunFrom, PassOver, Rewritten, TurnMessages;
  }

  /** The requests of a run are the live histories, and all but the last got a reply. */
  lemma SentAreLive(w: World, d: Deps, query: string)
    ensures var sent := Run(w, d, query).state.sent;
      AllLive(w, d, query, sent) && (sent != [] ==> RepliesBefore(w, |sent| - 1))
  {
    hide Live, RunFrom, Follows, FollowedTo, AllLive, RepliesBefore, Start;
    StartFollows(w, d, query);
    LiveRun(w, query, d, 0, Start(query));
    FollowedIsLive(w, d, query, Run(w, d, query));
    LiveNeedsReplies(w, query, d, 0, Start(query));
  }

  /** The first request is the goal; each later one carries the turn before it. */
  lemma RequestsCarryAnswers(w: World, d: Deps, query: string)
    ensures var sent := Run(w, d, query).state.sent;
      && (sent != [] ==> sent[0] == [Goal(query)])
      && forall t: nat :: t + 1 < |sent| ==> Carries(w, d, t, sent[t], sent[t + 1])
  {
    SentAreLive(w, d, query);
    hide Run, Carries, Goal;
    var sent := Run(w, d, query).state.sent;
    assert Live(w, query, d.comp, d.historyBudget, 0) == Ok([Goal(query)]);
    hide Live;
    forall t: nat | t + 1 < |sent|
      ensures Carries(w, d, t, sent[t], sent[t + 1])
    {
      LiveCarries(w, d, query, t, sent[t], sent[t + 1]);
    }
  }

  // ------------------------------------------------------------- how a run ends

  /** Turn t got a reply that called tools and did not submit. */
  predicate GoesOn(w: World, t: nat) {
    && w.generate(t).Ok? && w.generate(t).value.message.toolCalls != []
    && LastSubmission(w, w.generate(t).value.message.toolCalls, None)
  }

  /** Every turn before n went on. */
  predicate WentOn(w: World, n: nat) {
    forall t :: 0 <= t < n ==> GoesOn(w, t)
  }

  /** What the stop reason and the answer say about the last turn. */
  predicate EndsRightly(w: World, d: Deps, e: RunEnd) {
    var o := e.state.outcome;
    && o.turns <= TurnCap(d)
    && (o.answered <==> o.stop.Submitted?)
    && match e.error
       case Some(ModelFailed(t, message)) =>
         t == o.turns && o.stop.Running? && WentOn(w, t) && w.generate(t) == Err(message)
       case Some(CompressFailed(_)) =>
         o.stop.Running? && 0 < o.turns && WentOn(w, o.turns)
       case None =>
         match o.stop
         case Running => false
         case MaxTurns => o.turns == TurnCap(d) && WentOn(w, o.turns)
         case NoToolCall =>
           && 0 < o.turns && WentOn(w, o.turns - 1) && w.generate(o.turns - 1).Ok?
           && w.generate(o.turns - 1).value.message.toolCalls == []
         case Submitted =>
           && 0 < o.turns && WentOn(w, o.turns - 1) && w.generate(o.turns - 1).Ok?
           && LastSubmission(w, w.generate(o.turns - 1).value.message.toolCalls, Some(o.locations))
  }

  predicate StillRunning(w: World, turn: nat, s: RunState) {
    s.outcome.turns == turn && s.outcome.stop.Running? && !s.outcome.answered && WentOn(w, turn)
  }

  lemma OneTurnEndsRightly(w: World, d: Deps, turn: nat, s: RunState)
    requires StillRunning(w, turn, s) && turn < TurnCap(d)
    ensures var t := OneTurn(w, d, turn, s);
      if t.done then EndsRightly(w, d, RunEnd(t.state, t.error)) else StillRunning(w, turn + 1, t.state)
  {
    hide MeterCall, Observations, PassOver, Rewritten, LastSubmission;
    if w.generate(turn).Ok? {
      SubmissionIsLast(w, w.generate(turn).value.message.toolCalls);
    }
    hide Submission;
  }

  lemma {:induction false} RunFromEndsRightly(w: World, d: Deps, turn: nat, s: RunState)
    requires StillRunning(w, turn, s) && turn <= TurnCap(d)
    ensures EndsRightly(w, d, RunFrom(w, d, turn, s))
    decreases TurnCap(d) - turn
  {
    hide OneTurn, WentOn;
    if turn < TurnCap(d) {
      OneTurnEndsRightly(w, d, turn, s);
      var t := OneTurn(w, d, turn, s);
      if !t.done {
        RunFromEndsRightly(w, d, turn + 1, t.state);
      }
    }
  }

  /**
   * A run ends at its first turn without calls, at its first decodable submission, whose last
   * one is the answer, at its first failure, or at the cap, and says which; it has an answer
   * exactly when it submitted. The cap is the configured one if positive, otherwise twelve.
   */
  lemma RunEndsRightly(w: World, d: Deps, query: string)
    ensures EndsRightly(w, d, Run(w, d, query))
    ensures TurnCap(d) == if d.maxTurns > 0 then d.maxTurns else 12
  {
    RunFromEndsRightly(w, d, 0, Start(query));
  }
}
