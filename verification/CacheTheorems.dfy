/**
 * What a prompt block says about its message, for a block hash that separates its inputs, so
 * that the cached prefix of a prompt ends exactly where content was rewritten; and what a
 * replay sends and bills in terms of the log.
 */
module CacheTheorems {
  import opened Basics
  import opened Compression
  import opened Agent
  import opened Replay
  import opened Billing
  import opened Amortized

  ghost predicate Separates(hash: seq<string> -> nat) {
    forall a: seq<string>, b: seq<string> :: hash(a) == hash(b) ==> a == b
  }

  /** The same call to the cache: ids are not part of a block. */
  predicate SameCalls(a: seq<ToolCall>, b: seq<ToolCall>) {
    && |a| == |b|
    && forall i :: 0 <= i < |a| ==> a[i].name == b[i].name && a[i].args == b[i].args
  }

  lemma {:induction false} PartsTell(a: seq<ToolCall>, b: seq<ToolCall>)
    ensures |CallParts(a)| == 2 * |a|
    ensures CallParts(a) == CallParts(b) <==> SameCalls(a, b)
    decreases |a| + |b|
  {
    if a == [] {
      if b != [] {
        assert CallParts(b) != [];
      }
    } else if b == [] {
      PartsTell(a[..|a| - 1], []);
    } else {
      var x, y := a[|a| - 1], b[|b| - 1];
      PartsTell(a[..|a| - 1], b[..|b| - 1]);
      PairsSplit(CallParts(a[..|a| - 1]), x.name, x.args, CallParts(b[..|b| - 1]), y.name, y.args);
      assert a == a[..|a| - 1] + [x] && b == b[..|b| - 1] + [y];
    }
  }

  lemma PairsSplit(p: seq<string>, a: string, b: string, q: seq<string>, c: string, d: string)
    ensures p + [a, b] == q + [c, d] <==> p == q && a == c && b == d
  {
    var x, y := p + [a, b], q + [c, d];
    if x == y {
      assert |p| == |q| && p == x[..|p|] == y[..|q|] == q;
      assert a == x[|p|] && c == y[|q|] && b == x[|p| + 1] && d == y[|q| + 1];
    }
  }

  /** Blocks hash alike exactly when role, content and every call's name and arguments agree. */
  lemma BlocksHashApart(a: ChatMessage, b: ChatMessage, pr: Pricing)
    requires Separates(pr.hash)
    ensures MsgBlock(a, pr).hash == MsgBlock(b, pr).hash
       <==> RoleName(a.role) == RoleName(b.role) && a.content == b.content && SameCalls(a.toolCalls, b.toolCalls)
  {
    var x, y := [RoleName(a.role), a.content], [RoleName(b.role), b.content];
    PartsTell(a.toolCalls, b.toolCalls);
    if x + CallParts(a.toolCalls) == y + CallParts(b.toolCalls) {
      var p, q := x + CallParts(a.toolCalls), y + CallParts(b.toolCalls);
      assert p[0] == q[0] && p[1] == q[1];
      assert p[2..] == CallParts(a.toolCalls) && q[2..] == CallParts(b.toolCalls);
    }
  }

  /** A common hash prefix that cannot be longer is the matched one. */
  lemma MatchedIs(prev: Prompt, p: Prompt, m: nat)
    requires m <= |prev| && m <= |p|
    requires forall k :: 0 <= k < m ==> prev[k].hash == p[k].hash
    requires m < |prev| && m < |p| ==> prev[m].hash != p[m].hash
    ensures Matched(prev, p) == m
  {
    var n := Matched(prev, p);
  }

  /** Position i is the first whose content a pass rewrote. */
  predicate FirstRewrite(a: seq<ChatMessage>, b: seq<ChatMessage>, i: nat) {
    && i < |a| <= |b| && a[i].content != b[i].content
    && forall k :: 0 <= k < i ==> a[k].content == b[k].content
  }

  lemma EvolvedHashesApart(a: ChatMessage, b: ChatMessage, pr: Pricing)
    requires Separates(pr.hash) && MessageEvolved(a, b)
    ensures MsgBlock(a, pr).hash == MsgBlock(b, pr).hash <==> a.content == b.content
  {
    BlocksHashApart(a, b, pr);
  }

  /** The cached prefix ends with the block before the first rewritten message. */
  lemma PrefixEndsAtFirstRewrite(a: seq<ChatMessage>, b: seq<ChatMessage>, i: nat, pr: Pricing)
    requires Separates(pr.hash) && Extends(a, b) && FirstRewrite(a, b, i)
    ensures Matched(PromptOf(a, pr), PromptOf(b, pr)) == i + 1
  {
    var p, q := PromptOf(a, pr), PromptOf(b, pr);
    forall k | 0 <= k < i + 1
      ensures p[k].hash == q[k].hash
    {
      if k > 0 {
        assert MessageEvolved(a[k - 1], b[k - 1]);
        EvolvedHashesApart(a[k - 1], b[k - 1], pr);
      }
    }
    assert MessageEvolved(a[i], b[i]);
    EvolvedHashesApart(a[i], b[i], pr);
    assert p[i + 1] == MsgBlock(a[i], pr) && q[i + 1] == MsgBlock(b[i], pr);
    hide PromptOf, MsgBlock, Extends, FirstRewrite;
    MatchedIs(p, q, i + 1);
  }

  lemma {:induction false} FindFirstRewrite(a: seq<ChatMessage>, b: seq<ChatMessage>, n: nat) returns (i: nat)
    requires n < |a| <= |b| && a[n].content != b[n].content
    ensures FirstRewrite(a, b, i)
    decreases n
  {
    if k :| 0 <= k < n && a[k].content != b[k].content {
      i := FindFirstRewrite(a, b, k);
    } else {
      i := n;
    }
  }

  /**
   * Under a hash that separates its inputs, rewriting an observation breaks the cached
   * prefix, and nothing else does: it breaks if and only if some content changed, and then
   * exactly one block past the first change's predecessors is still cached.
   */
  lemma PrefixBreaksIffRewritten(a: seq<ChatMessage>, b: seq<ChatMessage>, pr: Pricing)
    requires Separates(pr.hash) && Extends(a, b)
    ensures Breaks(a, b, pr) <==> exists i :: 0 <= i < |a| && a[i].content != b[i].content
    ensures forall i: nat :: FirstRewrite(a, b, i) ==> Matched(PromptOf(a, pr), PromptOf(b, pr)) == i + 1
  {
    hide PromptOf, MessageEvolved;
    if n :| 0 <= n < |a| && a[n].content != b[n].content {
      var i := FindFirstRewrite(a, b, n);
      PrefixEndsAtFirstRewrite(a, b, i, pr);
      PromptLength(a, pr);
    } else {
      BreakNeedsRewrite(a, b, pr);
    }
    forall i: nat | FirstRewrite(a, b, i)
      ensures Matched(PromptOf(a, pr), PromptOf(b, pr)) == i + 1
    {
      PrefixEndsAtFirstRewrite(a, b, i, pr);
    }
  }

  lemma PromptLength(msgs: seq<ChatMessage>, pr: Pricing)
    ensures |PromptOf(msgs, pr)| == |msgs| + 1
  {
  }

  // -------------------------------------------------------- what a replay sends

  /** A prompt is the constant head at its own weight, then one block per message at its text's and calls' weight. */
  lemma PromptWeighs(msgs: seq<ChatMessage>, pr: Pricing)
    ensures var p := PromptOf(msgs, pr);
      && |p| == |msgs| + 1 && p[0].tok == pr.perTurnSystem && p[0].hash == pr.hash(["system+tools"])
      && (forall i :: 0 <= i < |msgs| && msgs[i].toolCalls == [] ==> p[i + 1].tok == pr.tok(msgs[i].content))
      && (forall i :: 0 <= i < |msgs| ==> p[i + 1].tok == MsgTokens(msgs[i], pr.tok))
  {
  }

  /** One more call adds the weight of its name and of its arguments, and no other text. */
  lemma CallWeighs(m: ChatMessage, tc: ToolCall, tok: Tokenizer)
    ensures MsgTokens(m.(toolCalls := m.toolCalls + [tc]), tok) == MsgTokens(m, tok) + tok(tc.name) + tok(tc.args)
    ensures MsgTokens(m.(toolCalls := []), tok) == tok(m.content)
  {
    MapSumSnoc((c: ToolCall) => CallTokens(c, tok), m.toolCalls, tc);
  }

  /** The assistant messages of a log from i on, and what they weigh. */
  function Generated(log: seq<ChatMessage>, i: nat, tok: Tokenizer): nat
    requires i <= |log|
    decreases |log| - i
  {
    if i == |log| then 0
    else Generated(log, i + 1, tok) + if log[i].role.Assistant? then MsgTokens(log[i], tok) else 0
  }

  function ModelTurns(log: seq<ChatMessage>, i: nat): nat
    requires i <= |log|
    decreases |log| - i
  {
    if i == |log| then 0 else ModelTurns(log, i + 1) + if log[i].role.Assistant? then 1 else 0
  }

  lemma {:induction false} ToolsGenerateNothing(log: seq<ChatMessage>, i: nat, tok: Tokenizer)
    requires i <= |log|
    ensures Generated(log, ToolsEnd(log, i), tok) == Generated(log, i, tok)
    ensures ModelTurns(log, ToolsEnd(log, i)) == ModelTurns(log, i)
    decreases |log| - i
  {
    if i < |log| && log[i].role.Tool? {
      ToolsGenerateNothing(log, i + 1, tok);
    }
  }

  lemma {:induction false} ReplayFromGenerates(log: seq<ChatMessage>, i: nat, rebuild: seq<ChatMessage>, r: Replayed,
                                               comp: Option<Config>, budget: int, pr: Pricing)
    requires i <= |log|
    ensures var result := ReplayFrom(log, i, rebuild, r, comp, budget, pr);
      result.Ok? ==>
        && result.value.output == r.output + Generated(log, i, pr.tok)
        && |result.value.prompts| == |r.prompts| + ModelTurns(log, i)
    decreases |log| - i
  {
    hide PassOver, Rewritten, PromptOf, MsgTokens, ToolsEnd;
    if i < |log| {
      if !log[i].role.Assistant? {
        ReplayFromGenerates(log, i + 1, rebuild + [log[i]], r, comp, budget, pr);
      } else {
        var j := ToolsEnd(log, i + 1);
        var grown := rebuild + log[i..j];
        var p := PassOver(grown, comp, budget);
        ToolsGenerateNothing(log, i + 1, pr.tok);
        if p.error.None? {
          ReplayFromGenerates(log, j, Rewritten(grown, comp, budget),
            AfterTurn(r, log[i], rebuild, p, pr), comp, budget, pr);
        }
      }
    }
  }

  /** Whatever the compressor, a replay bills every assistant message of the log as output, once. */
  lemma OutputIsGenerated(log: seq<ChatMessage>, comp: Option<Config>, budget: int, pr: Pricing)
    ensures var replay := ReplayLog(log, comp, budget, pr);
      replay.Ok? ==>
        && replay.value.output == Generated(log, 0, pr.tok)
        && |replay.value.prompts| == ModelTurns(log, 0)
  {
    ReplayFromGenerates(log, 0, [], Replayed([], 0, false), comp, budget, pr);
  }
}
