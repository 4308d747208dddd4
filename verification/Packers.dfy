/** Greedy packing under a budget: embedding batches and the assembled context. */
module Packers {
  import opened Basics
  import opened Vectors

  // ------------------------------------------------------- embedding batches

  /** About four bytes per token. */
  function EstTokens(s: string): (t: nat)
    ensures 4 * t - 4 <= |s| < 4 * t
  {
    |s| / 4 + 1
  }

  function TokensIn(texts: seq<string>): nat {
    Sum(Map((t: string) => EstTokens(t), texts))
  }

  /** A batch a provider accepts; a single text is always sent, however large. */
  predicate Legal(batch: seq<string>, maxItems: nat, maxTokens: int) {
    0 < |batch| <= maxItems && (maxTokens <= 0 || |batch| == 1 || TokensIn(batch) <= maxTokens)
  }

  predicate AllLegal(parts: seq<seq<string>>, maxItems: nat, maxTokens: int) {
    forall i :: 0 <= i < |parts| ==> Legal(parts[i], maxItems, maxTokens)
  }

  /** The end of the batch that starts at i when j texts have already been taken into it. */
  function BatchEnd(texts: seq<string>, i: nat, j: nat, maxItems: nat, maxTokens: int): (k: nat)
    requires i <= j <= |texts|
    ensures j <= k <= |texts|
    decreases |texts| - j
  {
    if j == |texts| || j - i >= maxItems then j
    else if maxTokens > 0 && j > i && TokensIn(texts[i..j]) + EstTokens(texts[j]) > maxTokens then j
    else BatchEnd(texts, i, j + 1, maxItems, maxTokens)
  }

  function Batches(texts: seq<string>, i: nat, maxItems: nat, maxTokens: int): seq<seq<string>>
    requires i <= |texts| && maxItems > 0
    decreases |texts| - i
  {
    if i == |texts| then []
    else
      var j := BatchEnd(texts, i, i + 1, maxItems, maxTokens);
      [texts[i..j]] + Batches(texts, j, maxItems, maxTokens)
  }

  lemma TokensSnoc(texts: seq<string>, i: nat, j: nat)
    requires i <= j < |texts|
    ensures TokensIn(texts[i..j + 1]) == TokensIn(texts[i..j]) + EstTokens(texts[j])
  {
    assert texts[i..j + 1] == texts[i..j] + [texts[j]];
    MapSumSnoc((t: string) => EstTokens(t), texts[i..j], texts[j]);
  }

  /** The greedy batch is legal, and no longer batch from the same start is. */
  lemma {:induction false} BatchIsLongestLegal(texts: seq<string>, i: nat, j: nat, maxItems: nat, maxTokens: int)
    requires i < j <= |texts| && Legal(texts[i..j], maxItems, maxTokens)
    ensures var k := BatchEnd(texts, i, j, maxItems, maxTokens);
      && Legal(texts[i..k], maxItems, maxTokens)
      && forall n :: k < n <= |texts| ==> !Legal(texts[i..n], maxItems, maxTokens)
    decreases |texts| - j
  {
    if j == |texts| || j - i >= maxItems {
    } else {
      TokensSnoc(texts, i, j);
      if maxTokens > 0 && TokensIn(texts[i..j]) + EstTokens(texts[j]) > maxTokens {
        forall n | j < n <= |texts|
          ensures !Legal(texts[i..n], maxItems, maxTokens)
        {
          assert texts[i..n] == texts[i..j + 1] + texts[j + 1..n];
          MapSumConcat((t: string) => EstTokens(t), texts[i..j + 1], texts[j + 1..n]);
        }
      } else {
        BatchIsLongestLegal(texts, i, j + 1, maxItems, maxTokens);
      }
    }
  }

  lemma FirstBatch(texts: seq<string>, i: nat, maxItems: nat, maxTokens: int)
    requires i < |texts| && maxItems > 0
    ensures var j := BatchEnd(texts, i, i + 1, maxItems, maxTokens);
      && i < j && Legal(texts[i..j], maxItems, maxTokens)
      && forall n :: j < n <= |texts| ==> !Legal(texts[i..n], maxItems, maxTokens)
  {
    BatchIsLongestLegal(texts, i, i + 1, maxItems, maxTokens);
  }

  /** The batches concatenate to the texts, in order, and each is legal. */
  lemma {:induction false} BatchesPartition(texts: seq<string>, i: nat, maxItems: nat, maxTokens: int)
    requires i <= |texts| && maxItems > 0
    ensures var parts := Batches(texts, i, maxItems, maxTokens);
      Flatten(parts) == texts[i..] && AllLegal(parts, maxItems, maxTokens)
    decreases |texts| - i
  {
    if i < |texts| {
      var j := BatchEnd(texts, i, i + 1, maxItems, maxTokens);
      FirstBatch(texts, i, maxItems, maxTokens);
      BatchesPartition(texts, j, maxItems, maxTokens);
      FlattenCons(texts[i..j], Batches(texts, j, maxItems, maxTokens));
      assert texts[i..j] + texts[j..] == texts[i..];
    }
  }

  /** A tail of a legal batch is legal. */
  lemma LegalTail(batch: seq<string>, k: nat, maxItems: nat, maxTokens: int)
    requires k < |batch| && Legal(batch, maxItems, maxTokens)
    ensures Legal(batch[k..], maxItems, maxTokens)
  {
    assert batch == batch[..k] + batch[k..];
    MapSumConcat((t: string) => EstTokens(t), batch[..k], batch[k..]);
  }

  /**
   * Greedy is optimal: no split of the same texts, or of any tail of them, into consecutive
   * legal batches uses fewer requests.
   */
  lemma {:induction false} BatchesAreFewest(texts: seq<string>, i: nat, k: nat, parts: seq<seq<string>>,
                                            maxItems: nat, maxTokens: int)
    requires i <= k <= |texts| && maxItems > 0
    requires AllLegal(parts, maxItems, maxTokens) && Flatten(parts) == texts[i..]
    ensures |Batches(texts, k, maxItems, maxTokens)| <= |parts|
    decreases |parts|
  {
    if k < |texts| {
      assert parts != [];
      var head, rest := parts[0], parts[1..];
      assert parts == [head] + rest;
      FlattenCons(head, rest);
      assert AllLegal(rest, maxItems, maxTokens);
      var n := i + |head|;
      assert head == texts[i..][..|head|] == texts[i..n];
      assert Flatten(rest) == texts[i..][|head|..] == texts[n..];
      if n <= k {
        BatchesAreFewest(texts, n, k, rest, maxItems, maxTokens);
      } else {
        var j := BatchEnd(texts, k, k + 1, maxItems, maxTokens);
        FirstBatch(texts, k, maxItems, maxTokens);
        LegalTail(head, k - i, maxItems, maxTokens);
        assert head[k - i..] == texts[k..n];
        BatchesAreFewest(texts, n, j, rest, maxItems, maxTokens);
      }
    }
  }

  const DEFAULT_BATCH_SIZE: nat := 128

  function Items(maxItems: int): nat {
    if maxItems <= 0 then DEFAULT_BATCH_SIZE else maxItems
  }

  predicate AllAnswered(embed: Embedder, parts: seq<seq<string>>) {
    forall b :: 0 <= b < |parts| ==> embed(parts[b]).Ok?
  }

  /** The error of the earliest batch that fails. */
  predicate FirstFailure(embed: Embedder, parts: seq<seq<string>>, error: string) {
    exists b :: 0 <= b < |parts| && embed(parts[b]) == Err(error) && AllAnswered(embed, parts[..b])
  }

  lemma OneMoreAnswered(embed: Embedder, sent: seq<seq<string>>, batch: seq<string>)
    requires AllAnswered(embed, sent) && embed(batch).Ok?
    ensures AllAnswered(embed, sent + [batch])
  {
  }

  lemma FailureFound(embed: Embedder, sent: seq<seq<string>>, batch: seq<string>, all: seq<seq<string>>, error: string)
    requires sent + [batch] <= all && AllAnswered(embed, sent) && embed(batch) == Err(error)
    ensures !AllAnswered(embed, all) && FirstFailure(embed, all, error)
  {
    assert all[|sent|] == (sent + [batch])[|sent|] == batch;
    assert all[..|sent|] == sent;
  }

  /**
   * The inner loop: where the batch that starts at i ends. It always takes a text, so the
   * source's fallback for an empty batch is never reached.
   */
  method TakeBatch(texts: seq<string>, i: nat, items: nat, maxTokens: int) returns (j: nat)
    requires i < |texts| && items > 0
    ensures i < j <= |texts| && j == BatchEnd(texts, i, i + 1, items, maxTokens)
  {
    j := i;
    var tokens := 0;
    while j < |texts| && j - i < items
      invariant i <= j <= |texts| && tokens == TokensIn(texts[i..j])
      invariant j == i || BatchEnd(texts, i, j, items, maxTokens) == BatchEnd(texts, i, i + 1, items, maxTokens)
    {
      hide TokensIn;
      var t := EstTokens(texts[j]);
      if maxTokens > 0 && j > i && tokens + t > maxTokens {
        break;
      }
      TokensSnoc(texts, i, j);
      tokens := tokens + t;
      j := j + 1;
    }
  }

  lemma MapSlices(e: string -> Vec, texts: seq<string>, i: nat, j: nat)
    requires i <= j <= |texts|
    ensures Map(e, texts)[..i] + Map(e, texts[i..j]) == Map(e, texts)[..j]
  {
  }

  lemma BatchesUnfold(texts: seq<string>, i: nat, items: nat, maxTokens: int, sent: seq<seq<string>>)
    requires i < |texts| && items > 0
    ensures var j := BatchEnd(texts, i, i + 1, items, maxTokens);
      sent + Batches(texts, i, items, maxTokens) == sent + [texts[i..j]] + Batches(texts, j, items, maxTokens)
  {
    var j := BatchEnd(texts, i, i + 1, items, maxTokens);
    var rest := Batches(texts, j, items, maxTokens);
    assert sent + ([texts[i..j]] + rest) == sent + [texts[i..j]] + rest;
  }

  /**
   * Sends the greedy batches in order. If every batch succeeds the result is the embedder
   * mapped text by text; it fails exactly when some batch does.
   */
  method Batched(texts: seq<string>, maxItems: int, maxTokens: int, embed: Embedder, ghost e: string -> Vec)
    returns (r: Result<seq<Vec>, string>, ghost sent: seq<seq<string>>)
    requires Pointwise(embed, e)
    ensures r.Ok? ==> r.value == Map(e, texts)
    ensures r.Ok? <==> AllAnswered(embed, Batches(texts, 0, Items(maxItems), maxTokens))
    ensures r.Err? ==> FirstFailure(embed, Batches(texts, 0, Items(maxItems), maxTokens), r.error)
    ensures sent <= Batches(texts, 0, Items(maxItems), maxTokens)
    ensures r.Ok? ==> sent == Batches(texts, 0, Items(maxItems), maxTokens)
    ensures r.Err? ==> sent != [] && embed(sent[|sent| - 1]) == Err(r.error) && AllAnswered(embed, sent[..|sent| - 1])
  {
    var items := maxItems;
    if items <= 0 {
      items := DEFAULT_BATCH_SIZE;
    }
    var out: seq<Vec> := [];
    sent := [];
    var i := 0;
    ghost var all := Batches(texts, 0, items, maxTokens);
    while i < |texts|
      invariant i <= |texts| && out == Map(e, texts)[..i]
      invariant all == sent + Batches(texts, i, items, maxTokens)
      invariant AllAnswered(embed, sent)
      decreases |texts| - i
    {
      BatchesUnfold(texts, i, items, maxTokens, sent);
      var j := TakeBatch(texts, i, items, maxTokens);
      var answer := embed(texts[i..j]);
      ghost var before := sent;
      sent := sent + [texts[i..j]];
      hide Batches, BatchEnd, AllAnswered, FirstFailure;
      if answer.Err? {
        assert sent[..|before|] == before;
        FailureFound(embed, before, texts[i..j], all, answer.error);
        return Err(answer.error), sent;
      }
      OneMoreAnswered(embed, before, texts[i..j]);
      MapSlices(e, texts, i, j);
      out := out + answer.value;
      i := j;
    }
    return Ok(out), sent;
  }

  // --------------------------------------------------------- context assembly

  const BLOCK_SEP := "\n\n"

  function Join(blocks: seq<string>): string {
    if |blocks| == 0 then ""
    else if |blocks| == 1 then blocks[0]
    else Join(blocks[..|blocks| - 1]) + BLOCK_SEP + blocks[|blocks| - 1]
  }

  /** A retrieved chunk as the packer sees it: its full block and its skeleton block, if it has one. */
  datatype Ranked = Ranked(full: string, skeleton: Result<string, string>) {
    function Skeleton(): string {
      if skeleton.Ok? then skeleton.value else ""
    }
  }

  datatype Assembly = Assembly(text: string, fullCount: nat, skeletonCount: nat, dropped: nat, keptFullTokens: nat)

  function FullBlocks(chunks: seq<Ranked>): seq<string> {
    Map((c: Ranked) => c.full, chunks)
  }

  function SkeletonBlocks(chunks: seq<Ranked>): seq<string> {
    Map((c: Ranked) => c.Skeleton(), chunks)
  }

  /** The first f chunks in full, then skeletons up to rank k; everything from k on dropped. */
  function Blocks(chunks: seq<Ranked>, f: nat, k: nat): seq<string>
    requires f <= k <= |chunks|
  {
    FullBlocks(chunks[..f]) + SkeletonBlocks(chunks[f..k])
  }

  /** Every rank prefix of up to f full bodies, beyond the top one, stays within the share. */
  predicate InShare(chunks: seq<Ranked>, fullBudget: int, tok: Tokenizer, f: nat)
    requires f <= |chunks|
  {
    forall n :: 1 < n <= f ==> tok(Join(FullBlocks(chunks[..n]))) <= fullBudget
  }

  lemma InShareNext(chunks: seq<Ranked>, fullBudget: int, tok: Tokenizer, f: nat)
    requires f < |chunks| && InShare(chunks, fullBudget, tok, f)
    requires f > 0 ==> tok(Join(FullBlocks(chunks[..f + 1]))) <= fullBudget
    ensures InShare(chunks, fullBudget, tok, f + 1)
  {
  }

  /** f is the longest rank prefix whose full bodies stay within their share; the top chunk always counts. */
  predicate LongestFull(chunks: seq<Ranked>, fullBudget: int, tok: Tokenizer, f: nat) {
    && 1 <= f <= |chunks|
    && InShare(chunks, fullBudget, tok, f)
    && (f < |chunks| ==> tok(Join(FullBlocks(chunks[..f + 1]))) > fullBudget)
  }

  /**
   * f chunks in full and k kept is what the packer must choose: the full ones are the longest
   * rank prefix within its share (the top chunk always), and k is the most that fits.
   */
  predicate Packed(chunks: seq<Ranked>, budget: int, fullBudget: int, tok: Tokenizer, f: nat, k: nat) {
    && LongestFull(chunks, fullBudget, tok, f) && f <= k <= |chunks|
    && (k > f ==> tok(Join(Blocks(chunks, f, k))) <= budget)
    && (forall n :: k < n <= |chunks| ==> tok(Join(Blocks(chunks, f, n))) > budget)
  }

  /** For a non-negative budget the text fits unless one full chunk is all that remains. */
  lemma PackedFits(chunks: seq<Ranked>, budget: int, fullBudget: int, tok: Tokenizer, f: nat, k: nat)
    requires Packed(chunks, budget, fullBudget, tok, f, k) && 0 <= fullBudget <= budget
    ensures tok(Join(Blocks(chunks, f, k))) <= budget || (f == 1 && k == 1)
  {
    BlocksFull(chunks, f);
    hide Join, Blocks, FullBlocks;
    if k == f && f > 1 {
      assert tok(Join(FullBlocks(chunks[..f]))) <= fullBudget;
    }
  }

  /** The first f blocks are the chunks' full ones, the rest up to k their skeletons. */
  predicate Renders(chunks: seq<Ranked>, f: nat, k: nat, blocks: seq<string>) {
    && f <= k <= |chunks| && |blocks| == k
    && forall n :: 0 <= n < k ==>
         if n < f then blocks[n] == chunks[n].full else chunks[n].skeleton == Ok(blocks[n])
  }

  /** text is those blocks, joined. */
  ghost predicate IsText(chunks: seq<Ranked>, f: nat, k: nat, text: string) {
    exists blocks :: Renders(chunks, f, k, blocks) && text == Join(blocks)
  }

  lemma BlocksRender(chunks: seq<Ranked>, f: nat, k: nat)
    requires f <= k <= |chunks| && AllSkeletal(chunks, f)
    ensures IsText(chunks, f, k, Join(Blocks(chunks, f, k)))
  {
    hide Join;
    assert Renders(chunks, f, k, Blocks(chunks, f, k));
  }

  /** Joined lists are joined with one blank line between them. */
  lemma {:induction false} JoinConcat(a: seq<string>, b: seq<string>)
    ensures Join([]) == ""
    ensures a == [] ==> Join(a + b) == Join(b)
    ensures b == [] ==> Join(a + b) == Join(a)
    ensures a != [] && b != [] ==> Join(a + b) == Join(a) + "\n\n" + Join(b)
    ensures |a| == 1 ==> Join(a) == a[0]
    decreases |b|
  {
    if a == [] {
      assert a + b == b;
    } else if b == [] {
      assert a + b == a;
    } else {
      var init, last := b[..|b| - 1], b[|b| - 1];
      JoinConcat(a, init);
      assert (a + b)[..|a + b| - 1] == a + init;
      if init == [] {
        assert a + init == a;
      } else {
        var tail := Join(init) + BLOCK_SEP + last;
        assert Join(a) + BLOCK_SEP + Join(init) + BLOCK_SEP + last == Join(a) + BLOCK_SEP + tail;
      }
    }
  }

  /** From rank f on, error is that of the first chunk that cannot be skeletonized. */
  predicate FirstUnskeletal(chunks: seq<Ranked>, f: nat, error: string) {
    exists i :: f <= i < |chunks| && chunks[i].skeleton == Err(error)
                && forall j :: f <= j < i ==> chunks[j].skeleton.Ok?
  }

  predicate AllSkeletal(chunks: seq<Ranked>, f: nat) {
    forall i :: f <= i < |chunks| ==> chunks[i].skeleton.Ok?
  }

  /** What a packing of all chunks with f in full and up to rank k kept looks like. */
  function Assembled(chunks: seq<Ranked>, tok: Tokenizer, f: nat, k: nat): Assembly
    requires f <= k <= |chunks|
  {
    Assembly(Join(Blocks(chunks, f, k)), f, k - f, |chunks| - k, tok(Join(FullBlocks(chunks[..k]))))
  }

  /**
   * Packs ranked chunks into a budget; fullBudget stands for the share of the budget reserved
   * for full bodies. Counts add up, the kept chunks are a rank prefix, full bodies never go
   * and no more is evicted than needed. It fails exactly when some chunk past the full ones
   * has no skeleton, with the first such error, even if that chunk would have been evicted.
   */
  method Assemble(chunks: seq<Ranked>, budget: int, fullBudget: int, tok: Tokenizer)
    returns (r: Result<Assembly, string>, ghost f: nat)
    ensures chunks == [] ==> r == Ok(Assembly("", 0, 0, 0, 0))
    ensures chunks != [] ==> LongestFull(chunks, fullBudget, tok, f)
    ensures r.Err? ==> FirstUnskeletal(chunks, f, r.error)
    ensures r.Ok? ==> r.value.fullCount + r.value.skeletonCount + r.value.dropped == |chunks|
    ensures r.Ok? && chunks != [] ==>
      var k := f + r.value.skeletonCount;
      && Packed(chunks, budget, fullBudget, tok, f, k)
      && r.value == Assembled(chunks, tok, f, k)
      && IsText(chunks, f, k, r.value.text)
      && AllSkeletal(chunks, f)
  {
    f := 0;
    if |chunks| == 0 {
      return Ok(Assembly("", 0, 0, 0, 0)), f;
    }
    hide Join, FullBlocks, SkeletonBlocks, FirstUnskeletal, LongestFull, AllSkeletal, Renders, IsText;
    var fulls := TakeFulls(chunks, fullBudget, tok);
    f := |fulls|;
    var rest := RenderRest(chunks, |fulls|);
    if rest.Err? {
      return Err(rest.error), f;
    }
    var k := Evict(chunks, fulls, rest.value, budget, tok);
    EvictedIsPacked(chunks, budget, fullBudget, tok, f, k);
    hide Blocks, Packed;
    var text := Join(fulls + rest.value[..k - |fulls|]);
    var a := Assembly(text, |fulls|, k - |fulls|, |chunks| - k, tok(Join(FullBlocks(chunks[..k]))));
    BlocksRender(chunks, f, k);
    assert a == Assembled(chunks, tok, f, k);
    return Ok(a), f;
  }

  lemma EvictedIsPacked(chunks: seq<Ranked>, budget: int, fullBudget: int, tok: Tokenizer, f: nat, k: nat)
    requires LongestFull(chunks, fullBudget, tok, f) && f <= k <= |chunks|
    requires k > f ==> tok(Join(Blocks(chunks, f, k))) <= budget
    requires forall n :: k < n <= |chunks| ==> tok(Join(Blocks(chunks, f, n))) > budget
    ensures Packed(chunks, budget, fullBudget, tok, f, k)
  {
    hide LongestFull, Join, Blocks;
  }

  lemma BlocksFull(chunks: seq<Ranked>, f: nat)
    requires f <= |chunks|
    ensures Blocks(chunks, f, f) == FullBlocks(chunks[..f])
  {
  }

  /** Full bodies while they fit their share; the top chunk always. */
  method TakeFulls(chunks: seq<Ranked>, fullBudget: int, tok: Tokenizer) returns (fulls: seq<string>)
    requires chunks != []
    ensures 1 <= |fulls| <= |chunks| && fulls == FullBlocks(chunks[..|fulls|])
    ensures LongestFull(chunks, fullBudget, tok, |fulls|)
  {
    fulls := [];
    for i := 0 to |chunks|
      invariant |fulls| == i && fulls == FullBlocks(chunks[..i])
      invariant InShare(chunks, fullBudget, tok, i)
    {
      hide Join, FullBlocks, InShare;
      var blk := chunks[i].full;
      FullGrows(chunks, i);
      if i > 0 && tok(Join(fulls) + BLOCK_SEP + blk) > fullBudget {
        return;
      }
      InShareNext(chunks, fullBudget, tok, i);
      fulls := fulls + [blk];
    }
  }

  method RenderRest(chunks: seq<Ranked>, f: nat) returns (r: Result<seq<string>, string>)
    requires f <= |chunks|
    ensures r.Err? ==> FirstUnskeletal(chunks, f, r.error)
    ensures r.Ok? ==> r.value == SkeletonBlocks(chunks[f..])
    ensures r.Ok? ==> AllSkeletal(chunks, f)
  {
    var skels: seq<string> := [];
    for i := f to |chunks|
      invariant skels == SkeletonBlocks(chunks[f..])[..i - f]
      invariant forall j :: f <= j < i ==> chunks[j].skeleton.Ok?
    {
      if chunks[i].skeleton.Err? {
        return Err(chunks[i].skeleton.error);
      }
      skels := skels + [chunks[i].skeleton.value];
    }
    return Ok(skels);
  }

  /** Drops skeletons from the tail until the text fits or none is left. */
  method Evict(chunks: seq<Ranked>, fulls: seq<string>, skels: seq<string>, budget: int,
               tok: Tokenizer) returns (k: nat)
    requires |fulls| <= |chunks| && fulls == FullBlocks(chunks[..|fulls|]) && skels == SkeletonBlocks(chunks[|fulls|..])
    ensures |fulls| <= k <= |chunks| && |skels| == |chunks| - |fulls|
    ensures fulls + skels[..k - |fulls|] == Blocks(chunks, |fulls|, k)
    ensures k > |fulls| ==> tok(Join(Blocks(chunks, |fulls|, k))) <= budget
    ensures forall n :: k < n <= |chunks| ==> tok(Join(Blocks(chunks, |fulls|, n))) > budget
  {
    hide Join, FullBlocks, SkeletonBlocks, Blocks;
    var f, left := |fulls|, skels;
    assert left == skels[..|left|];
    SkeletonCount(chunks, f);
    while |left| > 0 && tok(Join(fulls + left)) > budget
      invariant |left| <= |skels| == |chunks| - f && left == skels[..|left|]
      invariant forall n :: f + |left| < n <= |chunks| ==> tok(Join(Blocks(chunks, f, n))) > budget
    {
      BlocksAre(chunks, f, f + |left|);
      left := left[..|left| - 1];
    }
    k := f + |left|;
    BlocksAre(chunks, f, k);
  }

  lemma FullGrows(chunks: seq<Ranked>, i: nat)
    requires i < |chunks|
    ensures FullBlocks(chunks[..i + 1]) == FullBlocks(chunks[..i]) + [chunks[i].full]
    ensures i > 0 ==> Join(FullBlocks(chunks[..i + 1])) == Join(FullBlocks(chunks[..i])) + BLOCK_SEP + chunks[i].full
  {
    assert FullBlocks(chunks[..i + 1]) == FullBlocks(chunks[..i]) + [chunks[i].full];
    assert FullBlocks(chunks[..i + 1])[..i] == FullBlocks(chunks[..i]);
  }

  lemma SkeletonCount(chunks: seq<Ranked>, f: nat)
    requires f <= |chunks|
    ensures |SkeletonBlocks(chunks[f..])| == |chunks| - f
  {
  }

  lemma BlocksAre(chunks: seq<Ranked>, f: nat, k: nat)
    requires f <= k <= |chunks|
    ensures Blocks(chunks, f, k) == FullBlocks(chunks[..f]) + SkeletonBlocks(chunks[f..])[..k - f]
  {
    assert SkeletonBlocks(chunks[f..k]) == SkeletonBlocks(chunks[f..])[..k - f];
  }
}
