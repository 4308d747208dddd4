# A verified model of Cogni

Cogni trims what a coding agent sends to a language model: it chunks a repository along its
syntax tree, indexes and retrieves the chunks, packs them into a token budget, and compresses
the agent's own history between turns. This project models those mechanisms in Dafny and
proves what they promise, over every input, every run and every interleaving.

Four parts, each with the loops in the form the program has them (classes, arrays, `while`
loops) proved equal to a specification function, and the theorems proved of that function:

- **History compression** (`Compression`, `Confluence`, `PassTheorems`, `Compressor`, `Agent`,
  `AgentLoop`, `RunTheorems`, `Replay`, `Overhead`, `ReplayLoop`, `Billing`, `Amortized`,
  `CacheTheorems`). One pass of the compressor; the multi-turn agent loop that runs it after
  every turn; the replay that re-executes a recorded transcript; and the prefix-cache bill. The tokenizer is an arbitrary `string -> nat`, neither additive nor
  monotone; the summarizer is an arbitrary deterministic function that may fail; the block
  hash may collide.
- **The chunker** (`Lines`, `Chunks`, `ChunkTheorems`, `Merging`, `ChunkShape`, `Chunker`,
  `Anchors`). A tree of nodes with spans stands for the parse; splitting, line windows, class
  headers, the in-place merge, byte-to-line mapping, and the way from a skeleton's anchor back
  to the file.
- **The live index** (`Vectors`, `Store`, `CacheProtocol`, `LiveCache`, `Watcher`,
  `LiveIndex`). Stored vectors bit for bit, the upsert that re-embeds only what changed, the
  vector cache under concurrent writers and loaders, the debounced watcher, and the store
  under each.
- **Packing and retrieval** (`Packers`, `Retrieval`). Embedding batches, context assembly,
  stable top-k and recall.

A Go string is a sequence of bytes; here each `char` stands for one byte.

Where the code and its comments disagree, the model follows the code:

- `internal/compress/compress.go:74-77` says a drop always reduces tokens. It does so exactly
  when the observation outweighs the marker (`DropShrinksIffLonger`), and without that
  hypothesis compression can cost input tokens (`TinyObservationsCostInput`): it never does,
  under a given tokenizer, exactly when no text is lighter than the marker
  (`NeverCostsInputIffMarkerLightest`).
- `internal/index/retrieve.go:111-112` says the next full build reconciles any missed update.
  It does so exactly when no vanished file has rows left
  (`BuildReconcilesIffNothingVanished`), because a build never deletes; a removal whose delete
  is swallowed outlives it (`MissedRemovalOutlivesBuild`).
- `bench/cache.go:54-59` says replay walks a trajectory exactly as the live loop would, and
  `bench/replay.go:44-46` says the same of its overhead. The prompts agree
  (`LiveAgreesWithReplay`), but replay also runs a pass after the last recorded turn where the
  live loop has already returned (`internal/agent/run.go:153-156`), and differs by exactly that
  pass (`ReplayIsLivePlusExtraPass`). The summarizer is handed the same texts exactly when the
  run did not stop early or that pass has nothing to summarize (`OverheadAgreesIff`), and
  `Engaged` is right exactly when the live run changed something itself, did not stop early, or
  left nothing to drop (`EngagedAgreesIff`). One tool call and a submission over budget are
  enough to tell them apart (`ReplayCompressesAfterSubmission`, `ReplayCanExceedLive`).
- A line window begins at the start of its first line, which may lie before the statement
  (`internal/chunk/cast.go:122-124`). Coverage is therefore proved with each piece's own first
  byte kept beside its range, and needs no assumption on where statements sit on their lines.

## Model

| member | source | states |
|---|---|---|
| Confluence.StagedEqualsDirect | internal/compress/compress.go:101-141 | For `0 < b2 <= b1`, compressing to `b1` then `b2` is compressing to `b2` at once: same history, counters adding up, the same summarizer calls in the same order, the same failure |
| Confluence.RepeatIsNoOp | internal/compress/compress.go:101-141 | A second pass at the same budget changes nothing and calls the summarizer never |
| Confluence.CompressedIsDrive | internal/compress/compress.go:111-139 | The two coded loops and a machine that makes one move at a time while over budget are the same function |
| PassTheorems.PassKeepsShape | internal/compress/compress.go:101-141 | Order, role, step and kind are kept; the goal, everything from the last assistant turn, non-tool turns and markers are verbatim; anything else is unchanged, the marker, or its own strictly shorter summary taken at most once |
| PassTheorems.PassMeetsBudget | internal/compress/compress.go:111-139 | A pass with a positive budget fits it or leaves every unprotected observation a marker |
| PassTheorems.PassAccounts | internal/compress/compress.go:111-139 | Summaries kept are at most the calls, the calls are exactly the observations newly marked compressed, and the total grows by at most one marker per drop |
| PassTheorems.ShorterSummariesAreKept | internal/compress/compress.go:119-127 | After a pass that did not fail, an observation newly marked compressed holds its own summary if that is strictly shorter, else what it held, unless the pass then dropped it; Summarized counts exactly those with a strictly shorter summary |
| PassTheorems.FailureIsTheSummarizers | internal/compress/compress.go:119-122 | A failed pass reports the summarizer's own error about an uncompressed observation as it stood, and that observation's step |
| PassTheorems.PassKeepsGoalAndNewest | internal/compress/compress.go:168-192 | The first user turn and everything from the last assistant turn on come out verbatim |
| PassTheorems.TotalAdds | internal/compress/compress.go:160-166 | A total is each turn's own tokens, every turn once |
| PassTheorems.PassDropsOldestFirst | internal/compress/compress.go:111-139 | A drop happens only when nothing is left to summarize, and whatever unprotected observation precedes a newly dropped one is a marker |
| PassTheorems.SummariesOldestFirst | internal/compress/compress.go:114-128 | The first loop drops nothing, rewrites only eligible observations oldest first, and stops over budget only when none is eligible |
| Compression.OldestMeansOldest | internal/compress/compress.go:146-158 | The two scans return the least eligible index, or -1 exactly when there is none |
| PassTheorems.DropShrinksIffLonger | internal/compress/compress.go:74-77 | A drop reduces the total if and only if the observation outweighs the marker |
| PassTheorems.PassKeepsBound | internal/compress/compress.go:101-141 | A size bound on a turn that the marker also meets survives any pass |
| PassTheorems.PassNeverFails | internal/compress/compress.go:119-122 | A pass fails only if the summarizer does |
| PassTheorems.PassCallsIff | internal/compress/compress.go:105-119 | The summarizer is called if and only if the history is over a positive budget and some observation is eligible |
| PassTheorems.PassEngagesIff | internal/compress/compress.go:105-139 | A pass that does not fail changes content if and only if the history is over a positive budget and something is droppable |
| Compression.MaskReadsRolesOnly | internal/compress/compress.go:172-192 | Which turns are protected depends on roles alone, so rewriting content never moves the protected region |
| Compressor.GuidelineCompressor.Compress | internal/compress/compress.go:101-141 | The running loops return the specified history and counters or failure, call the summarizer on exactly the specified texts, and leave the caller's history alone |
| Compressor.GuidelineCompressor.SummarizeOldest | internal/compress/compress.go:114-128 | The first loop, rewriting the copy in place, is the specified phase with its call log |
| Compressor.DropOldest | internal/compress/compress.go:132-139 | The second loop in place is the specified phase and calls nobody |
| Compressor.GuidelineCompressor.FindSummarizable | internal/compress/compress.go:146-158 | The index found is the first unprotected, uncompressed, undropped observation above the size floor, or -1 when there is none |
| Compressor.FindDroppable | internal/compress/compress.go:197-205 | The index found is the first unprotected observation that is not a marker, or -1 when there is none |
| Compressor.TotalOf | internal/compress/compress.go:160-166 | The loop sums every turn's tokens |
| Compressor.ProtectedMask | internal/compress/compress.go:172-192 | The scans mark exactly the first user turn and everything from the last assistant turn on |
| Compressor.MeteringSummarizer.Summarize | internal/agent/run.go:248-256 | Forwards the call and logs it; one more call, the text's and the instruction's tokens in, the answer's out if there is one; the counters stay the cost of the whole log |
| Agent.RunKeepsProtocol | internal/agent/run.go:93-173 | On every exit the transcript is the untouched goal and then one assistant message and exactly one matching tool message per call for each counted turn, compressed or not; turns and ledger entries are equal in number |
| Agent.MeterIsExactUpToOutputTags | internal/agent/run.go:180-192 | A call's buckets and the overwritten part sum to every token counted; the buckets alone do if and only if messages tagged "output" weigh nothing |
| Agent.LedgerIsExact | internal/agent/run.go:110-115 | Over a whole run, ledger entry k meters exactly request k and its reply, and if no tool answers under "output" every entry's buckets sum to every token counted |
| Agent.EachBucketIsItsMessages | internal/agent/run.go:180-192 | Each bucket on its own: the prompt and tools under system, only the reply under output, and otherwise exactly the messages of that origin, untagged ones as history |
| Agent.MessageWeighs | internal/agent/run.go:189-206 | A message weighs its content and the text of its calls, a name, a blank, the arguments and a newline for each |
| Agent.NewestIsUntouched | internal/compress/compress.go:168-192 | While only the newest action and its observations follow the goal, a pass changes nothing and calls nobody |
| Agent.RewrittenEvolves | internal/agent/run.go:218-234 | Writing a pass back changes content and flag of tool messages only; ids, calls, roles and origins stay |
| AgentLoop.RunLoop | internal/agent/run.go:93-169 | The running loop with its early returns yields the specified outcome, transcript, ledger and error, and exactly the specified summarizer calls |
| AgentLoop.CompressMessages | internal/agent/run.go:218-234 | Maps to turns, compresses, writes back by index; a failure leaves the messages alone |
| AgentLoop.MeterOneCall | internal/agent/run.go:180-192 | The accumulating loop over messages is the specified attribution |
| AgentLoop.AnswerCalls | internal/agent/run.go:126-152 | One message per call in order, each with the tool's own text and bucket, its error, the unknown tool's name, or the fate of the submission; the last submission that decodes is the answer |
| Agent.ObservationsTell | internal/agent/run.go:127-151 | What each call's message holds: role, id, text and bucket, case by case |
| Agent.SubmissionIsLast | internal/agent/run.go:128-136 | The recorded answer is that of the last submission that decodes, and there is none if none does |
| RunTheorems.RequestsCarryAnswers | internal/agent/run.go:110-164 | The first request is the goal; each later one is the previous request, its reply and what each call came to, as one pass over them all may have rewritten it |
| RunTheorems.RunEndsRightly | internal/agent/run.go:93-169 | A run ends at its first reply without calls, its first decodable submission (whose last one is the answer), its first failure or the cap, says which, and has an answer exactly when it submitted |
| Replay.LiveAgreesWithReplay | bench/cache.go:60-110 | Replaying an uncompressed run's transcript through a compressor sends, turn for turn, exactly the prompts of the compressed run with the same script, over the same number of turns |
| Overhead.ReplayIsLivePlusExtraPass | bench/cache.go:90-107 | Replay hands the summarizer the live run's texts and then those of the one pass after an early stop, whatever fails; it engages exactly when the live run or that pass changed content, and fails exactly when either does, with that failure |
| Overhead.OverheadAgreesIff | bench/replay.go:41-59 | Replay's summarizer calls are the live run's if and only if the run did not stop early, or the history fits, or nothing is eligible; its token overhead is the live overhead plus the charge of the extra pass |
| Overhead.EngagedAgreesIff | bench/cache.go:105-107 | Where replay succeeds, Engaged agrees with the live counters if and only if they are positive, or the run did not stop early, or the history fits, or nothing is droppable |
| Overhead.ReplayCompressesAfterSubmission | internal/agent/run.go:153-156 | One observation, then a submission, over budget: the live run changed nothing, its replay says it engaged, and with no size floor also called the summarizer more often |
| Overhead.ReplayCanExceedLive | bench/cache.go:54-59 | A concrete world and budget where the live run submitted without a call and its replay called and engaged |
| Overhead.RunTallied | internal/agent/run.go:110-168 | At every exit a run's calls and counters are those of a pass after each turn, short of the one after the turn it stopped in |
| Overhead.ReplayTallied | bench/cache.go:66-110 | From any turn on, replay's calls and engagement are those of a pass after each turn, failures included |
| Replay.ArmsInLockstep | internal/agent/run.go:110-168 | With one script, the compressed and uncompressed runs take the same turns and stop the same way unless a pass fails |
| Replay.ReplayFollowsLive | bench/cache.go:66-110 | From any turn on, the replay loop's histories are the live ones, errors included |
| Replay.TurnInLog | bench/cache.go:68-89 | The replay loop cuts the transcript exactly where the run's turns are |
| ReplayLoop.ReplayPrompts | bench/cache.go:60-110 | The running replay loop yields the specified prompts, output, engagement or failure, and hands the summarizer exactly the specified texts, also when it fails |
| ReplayLoop.RenderPrompt | bench/cache.go:76-81 | One prompt is the constant head and a block per message |
| ReplayLoop.ReplayCacheCost | bench/cache.go:138-158 | Replays and bills: the cached and fresh sums of the longest-common-prefix rule, with replay's output, engagement, summarizer calls and failure |
| ReplayLoop.BillPrompt | bench/cache.go:144-156 | Block by block: hits up to the first divergence, misses after it |
| ReplayLoop.ReplayCost | bench/replay.go:47-59 | Replays and sums every block of every prompt, with replay's output, engagement, summarizer calls and failure |
| Billing.BillingIsExact | bench/cache.go:138-158 | Cached plus fresh equals the token replay's input on every trajectory, collisions or not |
| Billing.Matched | bench/cache.go:144-156 | The cached part of a turn is the longest common hash prefix with the previous prompt |
| Billing.FreshTelescopes | bench/cache.go:131-137 | For prompts that only grow, all fresh tokens ever billed add up to the last prompt |
| Billing.BaselineFreshIsLastPrompt | bench/cache.go:131-137 | The uncompressed replay never fails and its fresh tokens total the last prompt |
| Billing.CompressionNeverCostsInput | bench/replay.go:47-59 | If every tool result is at least as heavy as the marker: same prompts and block counts, same output, no treated block heavier than its baseline block, so treated input is no larger |
| Billing.TinyObservationsCostInput | internal/compress/compress.go:132-139 | Without that hypothesis the claim fails for a whole family of logs: treated input is strictly larger |
| Billing.NeverCostsInputIffMarkerLightest | bench/replay.go:47-59 | For any tokenizer: no log, compressor, budget or pricing ever costs input if and only if no text is lighter than the marker |
| Amortized.RunIsAmortized | internal/agent/run.go:110-168 | Over a whole run: one summarizer call at most per tool message (exactly the messages marked compressed if no pass failed), at most two rewrites per message, and at most twice as many broken cache prefixes as tool messages |
| Amortized.ReplayBreaksRarely | bench/cache.go:138-158 | The replayed bill has at most twice as many short cache hits as the run has tool messages |
| Amortized.BreakNeedsRewrite | bench/cache.go:43-53 | The cached prefix breaks only where some message's content changed |
| CacheTheorems.BlocksHashApart | bench/cache.go:34-53 | Under a hash that separates its inputs, blocks hash alike exactly when role, content and every call's name and arguments agree |
| CacheTheorems.PrefixBreaksIffRewritten | bench/cache.go:43-53 | Under such a hash a pass breaks the cached prefix if and only if it rewrote some content, and the prefix then ends with the block before the first rewritten message |
| CacheTheorems.PromptWeighs | bench/cache.go:75-81 | A prompt is the constant head at the per-turn weight and one block per message at that message's weight |
| CacheTheorems.CallWeighs | bench/replay.go:33-39 | A message weighs its content and each of its calls' names and arguments |
| CacheTheorems.OutputIsGenerated | bench/cache.go:66-89 | Whatever the compressor, a replay bills every assistant message of the log as output once and sends one prompt for each |
| Lines.StartsAscend | internal/chunk/chunk.go:76-84 | Line starts ascend from 0 and stay inside the file |
| Lines.LineOfIsBetweenStarts | internal/chunk/cast.go:292-297 | The line of a byte is the one index whose start is at or before it and whose next start is after |
| Lines.JoinSplit | internal/agent/tools.go:146 | Splitting at newlines and joining again gives the file back |
| Lines.LinesHolding | internal/agent/tools.go:170-172 | The lines holding bytes p to q, joined, are the bytes from the start of p's line to the end of q's |
| Chunks.LineSplitTiles | internal/chunk/cast.go:121-140 | For any tokenizer the windows are consecutive and gap-free from the start of s's line to e, each starts a line, and each fits the budget or is a single line |
| Chunks.EmptyRangeWindows | internal/chunk/cast.go:121-140 | An empty range at the start of a line yields no window, elsewhere the line so far |
| ChunkShape.LineSplitIsGreedy | internal/chunk/cast.go:131-136 | A window ends only where the next line would have overflowed it |
| ChunkTheorems.BlockSound | internal/chunk/cast.go:89-117 | Grouped statements keep source order, cover every statement byte, and each group fits or is a single line |
| ChunkShape.BlockIsGreedy | internal/chunk/cast.go:98-116 | A block's chunks are its statements in order, cut into groups that fit and oversize statements, and no group could have taken the statement that begins the next |
| ChunkTheorems.SplitFunctionSound | internal/chunk/cast.go:76-84 | An oversize function loses no byte of signature or statements; only its signature may exceed the budget |
| ChunkTheorems.FunctionSound | internal/chunk/cast.go:62-72 | The same for any function or method, whole or split |
| ChunkTheorems.ClassSound | internal/chunk/cast.go:145-199 | The same for every function nested in a class, at any depth; its header fits or is one line |
| ChunkTheorems.ScopeSound | internal/chunk/cast.go:33-57 | The same for every module or class body |
| ChunkTheorems.CapKeepsWholeLines | internal/chunk/cast.go:206-221 | A capped header is a run of whole lines from the first, fits or is the first line alone, and stops only at the end or an overflow |
| Merging.FileLosesNothing | internal/chunk/chunk.go:50-72 | For any tokenizer, merged or not: every byte of every reachable function's signature and body statements lies in a chunk of its kind, and every chunk fits unless it is a split signature, a single line, or a header cut to one line |
| ChunkShape.FileIsItsParts | internal/chunk/cast.go:33-84 | An unmerged file is exactly its functions' chunks and one header per class after its members, in order: a function that fits is one chunk, an oversize one its signature and greedy groups, and nothing else is indexed |
| ChunkShape.FittingFunctionsStayWhole | internal/chunk/cast.go:67-70 | A function or method that fits is exactly one chunk of the unmerged file, no other chunk answers for any of it, and after merging one chunk spans it |
| ChunkShape.KindsSayWhere | internal/chunk/cast.go:63-66 | A module's own functions are functions, every function of a class is a method |
| ChunkShape.HeaderNamesItsMembers | internal/chunk/cast.go:148-191 | A class header is its declaration, trimmed, and then one line per member in order: a function's or class's own trimmed signature, a flattened docstring, an assignment as written |
| Merging.FileChunksDisjoint | internal/chunk/cast.go:119-140 | Two chunks of an unmerged file answer for disjoint bytes; the ranges share a byte if and only if the later one, which may begin at the start of its statement's line, begins before the earlier one ends, and all they share is that line before the statement |
| Merging.MergeKeepsHeaders | internal/chunk/cast.go:234-253 | Merging leaves every synthesized chunk unchanged and in order |
| Merging.MergeIsGreedy | internal/chunk/cast.go:241-251 | The merged chunks are runs of raw neighbours that could each be joined to what preceded them, and the chunk that begins the next run could not |
| Merging.NoNeighboursLeftToJoin | internal/chunk/cast.go:241-251 | Where longer texts never count less, no two neighbours of the result could still be joined |
| Merging.MergeHouses | internal/chunk/cast.go:237-253 | After merging, every piece has a home chunk of its kind that spans all it answered for |
| Merging.MergeWithin | internal/chunk/cast.go:237-253 | Merging keeps every chunk within the budget or its exemption |
| Merging.OrderedMergeUncoversNothing | internal/chunk/cast.go:237-253 | For ranges in order, no byte covered before a merge is uncovered after |
| Merging.PairKeepsBytesIffOrdered | internal/chunk/cast.go:244-248 | Joining two ranges loses no byte if and only if both bounds ascend |
| Merging.MergeNeverSlicesBackwards | internal/chunk/cast.go:241-247 | In a file's own chunks the slice a merge measures always has its bounds in order |
| Chunker.ComputeLineStarts | internal/chunk/chunk.go:76-84 | The scan returns exactly the line starts |
| Chunker.FileChunker.LineIndex | internal/chunk/cast.go:292-297 | The binary search returns the line of any offset, past the end and wrapped below zero included |
| Chunker.FileChunker.EmitLineSplit | internal/chunk/cast.go:121-140 | The window loop appends exactly the windows that tile |
| Chunker.FileChunker.SplitBlock | internal/chunk/cast.go:89-117 | The statement loop appends exactly the specified groups |
| Chunker.FileChunker.EmitFunc | internal/chunk/cast.go:62-72 | Appends the function whole if it fits, otherwise its pieces |
| Chunker.FileChunker.SplitFunc | internal/chunk/cast.go:76-84 | Appends signature and statement groups, or line windows when there is no body |
| Chunker.FileChunker.EmitClassChunks | internal/chunk/cast.go:145-199 | Appends every member's chunks in order, then the capped header |
| Chunker.FileChunker.Walk | internal/chunk/cast.go:33-57 | Appends the chunks of every definition of a scope in order |
| Chunker.FileChunker.CapHeader | internal/chunk/cast.go:206-221 | The line loop computes the cap |
| Chunker.MergeInPlace | internal/chunk/cast.go:237-253 | In one shared buffer, with a write position that never passes the read position, the prefix written is the pure fold of what was there |
| Chunker.FileChunker.Project | internal/chunk/cast.go:257-273 | Each chunk gets its file, kind, verbatim or synthesized text, and the 1-based lines of its first and last byte |
| Chunker.File | internal/chunk/chunk.go:50-72 | One file's public chunks are the projection of the chunks the theorems are about, the default budget included; it fails exactly when the parser does |
| Anchors.Skeleton | internal/skeleton/skeleton.go:31-88 | Class headers, fragments with errors and chunks with nothing to omit pass through verbatim; otherwise the gaps are verbatim and stubs stand for exactly the omitted functions; only a parser failure is an error |
| Anchors.TargetsAreOmittable | internal/skeleton/skeleton.go:55-74 | What is replaced is exactly the top-level functions, decorated or not, whose body has something to omit |
| Anchors.TargetsAreOrdered | internal/skeleton/skeleton.go:79-87 | They lie in order and disjoint, so the cursor never moves back |
| Anchors.SkeletonTouchesTargetsOnly | internal/skeleton/skeleton.go:79-87 | With stubs that repeat their definitions the skeleton is the source: nothing else is touched, repeated or lost |
| Anchors.StubStandsInPlace | internal/skeleton/skeleton.go:81-86 | Each stub stands where its definition stood: before it is the skeleton of the text before, after it that of the text after |
| Anchors.AnchorIsTrueRange | internal/skeleton/skeleton.go:110-115 | The advertised start is the definition's first line; the advertised end is its last line if and only if its last byte is not a newline, otherwise one too far |
| Anchors.AnchorIsReadable | internal/skeleton/skeleton.go:110-115 | The advertised range lies inside the file and is in order |
| Anchors.FirstPositive | internal/agent/tools.go:255-262 | The first positive value, or zero exactly when there is none |
| Anchors.ReadWindow | internal/agent/tools.go:146-172 | Fails only for a start past the end; otherwise starts where asked and ends as late as the request, the file and the cap allow, so a range inside both is returned exactly, with the file's own lines |
| Anchors.AnchorRoundTrip | internal/agent/tools.go:146-172 | Reading an advertised range returns exactly the lines the definition lies on, joined |
| Anchors.ChunkRoundTrip | internal/chunk/cast.go:257-273 | The same from a projected chunk through its skeleton's anchor to the window read back |
| Anchors.AnchorReadsBack | internal/agent/tools.go:146-172 | Asked for the range a projected chunk's anchor advertises, read_file succeeds and answers exactly the definition's lines whenever the range fits its cap |
| Vectors.DecodeEncode | internal/index/store.go:227-241 | A stored vector loads back bit for bit |
| Vectors.EncodeDecode | internal/index/store.go:227-241 | Bytes survive load and store if and only if they are whole words |
| Vectors.EncodeVec | internal/index/store.go:227-233 | The loop writes each word's four bytes, the lowest first |
| Vectors.DecodeVec | internal/index/store.go:235-241 | The loop reads them back and ignores a partial word |
| Store.VectorStore.UpsertFile | internal/index/store.go:109-175 | On success exactly the path's rows are replaced, every stored vector is its content's embedding even when reused by hash, and the cache is empty; it fails exactly when a read, lookup, embedding of the missing contents or the transaction does, and then database and cache are as they were; only missing contents are ever embedded |
| Store.VectorStore.DeleteFile | internal/index/store.go:178-184 | The path has no rows, every other path its own, and the cache is empty; a failure changes nothing |
| Store.VectorStore.VectorsByPath | internal/index/store.go:195-212 | Returns, for exactly the hashes stored at the path, the decoded vector of such a row, or the query's error |
| Store.VectorStore.LoadAll | internal/index/retrieve.go:60-88 | Returns and caches every document with, in a coherent store, its own embedding; an empty result counts as no cache; a failing query is returned, leaves no cache, and cannot happen on a hit |
| Store.VectorStore.BuildAll | internal/index/store.go:94-104 | The files indexed before the first failure have their rows; every other path's rows are as before |
| Store.ReplaceTouchesOnePath | internal/index/store.go:153-170 | After a replace the path holds exactly the new rows in order and every other path its own |
| Store.LookupIsRight | internal/index/store.go:124-134 | A hash hit is the text's own embedding, and there is a hit if and only if the text is stored at the path |
| Store.UnchangedFileEmbedsNothing | internal/index/store.go:106-108 | Re-indexing a file whose chunks are stored embeds nothing |
| CacheProtocol.StepKeepsInv | internal/index/retrieve.go:60-88 | Every step of any writer or loader keeps the protocol's invariant |
| CacheProtocol.StaleOnlyMidWrite | internal/index/store.go:170-184 | A cache misses a commit only while that commit's writer has yet to invalidate, and always holds one whole committed version |
| CacheProtocol.LoadSeesReturnedWrites | internal/index/retrieve.go:60-88 | In every interleaving, a load that starts after a writer has returned sees a version that includes its commit, with exactly that version's rows |
| CacheProtocol.VersionsAreStable | internal/index/store.go:214-218 | Commits only ever add versions, so what a load saw never changes meaning |
| LiveCache.TransactionIsCommit | internal/index/store.go:153-169 | Whatever other threads are doing, the store's transaction is the protocol's commit and leaves the cache alone |
| LiveCache.DropIsInvalidate | internal/index/store.go:214-218 | Dropping the store's cache is the writer's invalidate |
| LiveCache.HitIsLockHit | internal/index/retrieve.go:61-65 | A load that finds the store's cache is the protocol's hit and returns it |
| LiveCache.MissIsQueryThenPublish | internal/index/retrieve.go:67-87 | A load that finds none is the protocol's locked query and publish, and returns and caches the decoded rows |
| LiveCache.StoreRefinesProtocol | internal/index/store.go:170-184 | Any sequence of store writes and loads is a run of the protocol ending in the store's own rows and cache, and between operations the cache is nil or exactly the decoded rows |
| Watcher.IndexConverges | internal/index/watcher.go:82-134 | In every reachable state each Python path agrees with its file or is queued, pending, in the batch, being handled or swallowed; something is pending if and only if the timer is armed; once drained only swallowed paths can differ |
| Watcher.WatcherMakesProgress | internal/index/watcher.go:82-134 | Each of the watcher's own steps consumes backlog |
| Watcher.WatcherNeverStuck | internal/index/watcher.go:82-134 | Until drained, some step that swallows nothing is possible |
| Watcher.QuietRunConverges | internal/index/watcher.go:82-134 | Once files stop changing the watcher takes at most its backlog in steps, and where it comes to rest it has drained and every path agrees or was swallowed |
| Watcher.EventLoop.OnEvent | internal/index/watcher.go:86-105 | A created directory, a bare chmod and an untracked path change nothing; any other event adds exactly its path and arms the timer |
| Watcher.EventLoop.OnTimer | internal/index/watcher.go:121-134 | Every pending path is handed over exactly once, in any order, and nothing stays pending or armed |
| LiveIndex.CommitRefines | internal/index/retrieve.go:113-130 | An upsert or delete of the row list is the watcher's abstract commit of that path, and keeps every vector true |
| LiveIndex.StoreConverges | internal/index/retrieve.go:113-130 | Over any run of files, watcher and store, once drained the database holds for each path exactly the current file's chunks, each with its own embedding, and nothing for a path without a file, swallowed paths excepted |
| LiveIndex.BuildReconcilesIffNothingVanished | internal/index/store.go:94-104 | After a full build database and files agree if and only if no vanished file had rows |
| LiveIndex.MissedRemovalOutlivesBuild | internal/index/retrieve.go:111-127 | A run in which a removal's delete is swallowed: the watcher has drained, and no full build afterwards makes database and files agree |
| Packers.BatchIsLongestLegal | internal/embed/embed.go:44-56 | A greedy batch respects both caps unless it is one text, and no longer batch from the same start does |
| Packers.BatchesPartition | internal/embed/embed.go:39-65 | The batches concatenate to the texts in order and each is legal |
| Packers.BatchesAreFewest | internal/embed/embed.go:39-65 | No split of the texts into consecutive legal batches uses fewer requests |
| Packers.TakeBatch | internal/embed/embed.go:45-56 | The inner loop ends where the greedy batch ends and has always taken a text |
| Packers.EstTokens | internal/embed/embed.go:69 | The estimate t brackets the length: 4 t - 4 <= length < 4 t |
| Packers.Batched | internal/embed/embed.go:39-65 | Succeeds exactly when every greedy request does, with the embedder mapped text by text; otherwise the error is the first failing request's and nothing is sent after it |
| Packers.Assemble | internal/skeleton/assemble.go:47-95 | The text is the first chunks in full and the next ones' skeletons, in rank order, joined; counts add up to the input, full bodies are the longest prefix within their share, no more is evicted than needed, and the comparator costs exactly the kept chunks; it fails exactly when a chunk past the full ones has no skeleton, with the first such error |
| Packers.JoinConcat | internal/skeleton/assemble.go:97 | Blocks are joined with one blank line between neighbours and nothing else |
| Packers.PackedFits | internal/skeleton/assemble.go:74-79 | For a non-negative budget the text fits unless one full chunk and no skeleton remain |
| Packers.TakeFulls | internal/skeleton/assemble.go:56-65 | Full bodies stop only before the one that would cross the share; the top chunk always goes in |
| Packers.Evict | internal/skeleton/assemble.go:76-79 | Stops at the longest prefix that fits, or when no skeleton is left |
| Retrieval.Retrieve | internal/index/retrieve.go:20-55 | A non-positive k returns nothing and cannot fail; otherwise it fails exactly when the query's embedding, its count or the load does, and else returns the k best of all rows: distinct rows with only the score filled in, best first, ties in row order, and no row left out precedes one returned |
| Retrieval.SortIsStable | internal/index/retrieve.go:49 | The order descends and keeps chunks of equal score in their original order, losing and adding none |
| Retrieval.SortRanks | internal/index/retrieve.go:49 | The sorted list is every row once, each pair a higher score first or an equal one in row order |
| Retrieval.StableSortIsUnique | internal/index/retrieve.go:49 | There is only one such order, so any stable sort returns this one |
| Retrieval.TopKIsBest | internal/index/retrieve.go:51-54 | No omitted chunk outscores a returned one, and the result for k is a prefix of that for any larger k |
| Retrieval.OverlapIsSharedLine | bench/metrics.go:20-29 | A hit means the ranges share a line of the same file |
| Retrieval.GoldHit | bench/metrics.go:22-29 | The scan finds a hit if and only if there is one |
| Retrieval.Recall | bench/metrics.go:33-44 | The hits as a fraction of the gold spans; zero without gold |
| Retrieval.RecallNeverFalls | bench/metrics.go:33-44 | Hits at k are at most the hits at any larger k, and at most the gold spans |

## Left out

- HTTP clients, providers, retry timing and header parsing; the embedder and the model are parameters.
- tree-sitter and `internal/parse`: a tree of nodes stands for the parse. Its children are ordered, disjoint and inside their parent; definitions are not empty and begin before their bodies.
- The tokenizer, the embedder, the summarizer and both hashes are uninterpreted. SHA-256 is assumed injective where stored vectors are looked up by it; the block hash is not.
- Chunker.FileChunker.EmitLineSplit: excludes the empty range at offset zero, where the program's unsigned predecessor wraps around and, in a file of three or more lines, it can slice backwards; no function body reaches it, because a definition begins before its body.
- Merging.CanMerge: carries a guard that the sliced bounds are in order, where the program would panic; `MergeNeverSlicesBackwards` shows that in a file's chunks it never decides.
- Chunks.HeaderLine: the flattening of a docstring's white space is a parameter.
- Agent.Run: the model's replies and the tools' answers are indexed by turn and call, which covers any single run but not a model that reads what compression changed; a request is recorded as sent, so later rewrites through a shared slice do not reach it.
- AgentLoop.CopyBack: messages are a sequence the method reassigns, so the sharing of one slice between transcript and run is not modelled.
- Store.VectorStore.UpsertFile: reading, chunking, looking up vectors and the transaction may fail by parameters; that a failed transaction rolls back is assumed, and the chunks of the file are a parameter.
- CacheProtocol.Step: Go's memory model is taken as sequential consistency of the listed steps.
- Watcher.IndexConverges: covers watched directories only. Whether a path is a directory is fixed; files in directories created later, watcher queue overflow, directories whose names end in `.py`, and the vendored and hidden path filters are not modelled; swallowed errors are tracked as exceptions. The handler deletes rows for an absent file only; the program does so on any error of `os.Stat`, such as a permission error (`internal/index/retrieve.go:123`).
- Packers.Assemble: the share reserved for full bodies is any integer (any value between zero and the budget in `PackedFits`) instead of a floating-point product, and a chunk's skeleton block, or its error, is a parameter.
- Anchors.Skeleton: the stub's text (signature, docstring, indentation) is a parameter; its anchor is modelled by AnchorStart and AnchorEnd.
- Anchors.ReadWindow: argument decoding, path checks, the file read and the numbered output lines.
- Retrieval.Retrieve: scores are reals, so NaN is excluded; the cosine loop is a parameter.
- Retrieval.Recall: a real fraction instead of a float; the macro averages over tasks are left out.
- HitRate, CacheNetCostUSD, the report tables, the size-based summarizer and meter aggregation: arithmetic and formatting that would only add easy members.
- YAML task loading, Markdown reports, scripts, the landing page and the gated evaluations.
