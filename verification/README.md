# Rescue: a verified model of its jobs, ingestion, agent and retrieval

The repository answers questions about a hosting provider's documentation. A question becomes a
durable job that a worker answers with a bounded agent; the documentation is parsed from MDX, cut into
chunks and stored in index versions; long conversations are summarized; retrieval fuses two rankings;
and requests are rate limited. This project models the parts where work could be lost, repeated or
left unbounded, in Dafny, and proves what they keep.

`dafny verify dfyconfig.toml` checks everything.

## How it is laid out

| files | what they model |
|---|---|
| `JobModel`, `JobProtocol`, `JobSafety` | the answering-job protocol as a transition system: API processes, any number of workers, commits and publishes that may raise, worker deaths, lease expiry; an invariant over every run |
| `JobLease`, `JobLapse` | the heartbeat behind the one timing assumption of the protocol, and what one lapse without it can do |
| `JobCarriers` | who still has an open job in hand: exactly which steps lose one, over which runs none is lost, and a run for each way to lose one |
| `JobStore`, `JobRecovery`, `JobAttempts` | the same operations as methods over one store, any of whose calls may raise, each shown to be a path of the protocol; a worker that starts after a crash, run to its end; and what attempts, commits and publishes write, entry by entry |
| `Relay`, `RelayView`, `JobDelivery` | serving a job's stream, resuming it, and the browser's fold over what arrives while the run goes on |
| `MdxScan`, `MdxTree`, `MdxTags`, `MdxLiteral`, `MdxRoundTrip`, `MdxItems` | the JSX scanners and parser, the one tree a source has, the JavaScript literal reader, and printing expressions, attributes and literals back |
| `Markdown`, `Flow`, `FlowFacts`, `Blocks`, `BlocksRoundTrip` | the Markdown writer, fences, the reflow of prose, and the block splitter that reads it all back |
| `Sections`, `SectionsFacts`, `Units`, `UnitsFacts`, `Packing`, `PackingFacts`, `PackingRuns`, `Merging`, `MergingFacts`, `MergingSteps`, `ChunkDocument` | the section-aware chunker, from headings to merged chunks |
| `Evidence`, `EvidenceFacts`, `Grounding`, `VerdictFacts`, `AgentLoop`, `AgentFacts`, `AgentCalls`, `AgentStory` | the bounded agent loop against arbitrary models and tools: what it keeps, which verdict it gives, and the story of a whole turn |
| `IndexVersions`, `IndexFacts`, `IndexRuns` | incremental index builds, activation, pruning and rollback |
| `Summarization`, `SummaryFacts` | the running summary, its marker and the verbatim window |
| `Ranking`, `RankingFacts`, `RankingScores` | rank fusion, boosts and deduplication, over reals |
| `RateLimit`, `RateDecisions` | fixed-window counters, their bounds, and what a caller is told |
| `Options`, `Strings` | a value that may be missing, and the string operations the rest leans on |

Methods with loops follow the source's loops and are proved equal to a recursive function; the lemmas
are about those functions, and the modules whose names end in `Facts`, `Runs`, `Steps`, `Scores`, `Story`
or the like say what the functions mean without naming them. Objects the source changes in place are classes here: the job store, the
browser's stream, the Markdown writer, the chunker's units, the shared line lists of the splitter, the
evidence dictionaries, the agent's turn, the index, the conversation row and the limiter. Where a proof
needs only what a function promises, `hide` keeps its body out of the way.

## Assumptions

* A lease disappears only by release, or when no live worker is between acquiring and releasing it
  (`Expire` in `JobProtocol.Enabled`). This is assumed. `JobLease` gives the reason for it, apart from
  the protocol: renewals that come within a gap the expiry outlives leave no moment without a lease,
  and the heartbeat's sleep is such a gap for leases of two seconds or more. Part of the assumption is
  that the heartbeat gets to run in time, and that no renewal raises: one that does ends the heartbeat
  for good (src/services/job_runner.py:146-155), and then a lease of any length lapses under a live
  worker. `JobLapse.LapseDoublesTheAnswer` shows that a single such lapse can give a job two answers.
* Commits and publishes are atomic; each may raise, a publish before or after it took effect.
* A queue is a sequence, a stream an append-only sequence, a table a map. One clock counts for one
  limiter.
* Token counting, Markdown block typing, the JSON parser, the query normaliser, near-duplicate
  comparison, document building and embedding are arbitrary functions; what a theorem needs of them is
  in its `requires`.
* A commit names one corpus, and content hashes tell texts apart (`IndexFacts.Sound`).

## Where the code and its documentation disagree

* `prune_old_versions` says it always leaves a superseded version. Failed builds count toward
  retention: `IndexFacts.RollbackTargetIff` says exactly after which histories one is left,
  `IndexFacts.FailedBuildEvicts` gives one after which the version that was serving is gone.
* `rollback_to` asks only for chunks, so a version that failed validation can be made to serve
  (`IndexFacts.RollbackCanServeAFailedBuild`). `IndexFacts.ServesUnfitIff` says over which histories one
  does.
* `build_conversation_context` says a short conversation is replayed in full. It slices from
  `len - window`, and a negative index counts from the end: between half a window and a window it
  takes too few turns. With the shipped settings the third question goes to the agent alone
  (`Summarization.ThirdQuestionAlone`). `Summarization.CoversIff` says exactly when a context covers its
  history, `Summarization.OrdinaryIff` for which settings every context of an ordinary conversation does,
  and `Summarization.JobsGivenAllIff` for which every job of one is given all of it.
* The merge pass is said to leave only a document too small to reach the floor below it. A chunk that
  no neighbour can absorb ends the pass for all that follow (`MergingFacts.StuckChunkLeavesTheRest`), and
  is itself left below the floor wherever it stands (`MergingFacts.WalledMissesFloor`). The floor is met
  when the whole text fits one chunk (`MergingFacts.WholeMeetsFloor`) and, with one chunk below it, exactly
  when a neighbour can take that one (`MergingFacts.OneSmallIff`).
* The chunker says a heading with no body is still content. It is dropped unless it is the last
  (`Sections.SectionsAreOutline`).
* A fence longer than any run of backticks in its code keeps the block together for CommonMark
  (section 4.5), but the splitter closes a fence at three backticks: `BlocksRoundTrip.FenceWholeIff` says
  exactly which code stays together.
* `reclaim_orphaned_jobs` is said to return every job a worker dropped. It runs only when a worker
  starts, and a retry is queued before its lease is released, so a second worker can drop it although
  nobody died (`JobCarriers.SlipLoses`). `JobCarriers.LostIff` says exactly over which runs a job stands
  open with nobody to get to it, `JobCarriers.NeverLosesIff` what it takes for that never to happen.
* `_hit` says its guard cannot leave a key immortal. A store that raises between counting and setting the
  expiry leaves one without an expiry, unless a later check of its window sets it
  (`RateLimit.LeftImmortal`, `RateLimit.ImmortalIff`).

## Model

| member | source | states |
|---|---|---|
| JobModel.HistoryIsGrammar | src/services/jobs.py:162-189 | the moves that transitions make describe exactly the histories of a grammar: queued, attempts, then completed, failed, or completed and failed |
| JobModel.AttemptsAccounted | src/services/job_runner.py:196-203 | every attempt but the last ended in a retry or was interrupted |
| JobModel.RetriesCloseAttempts | src/services/job_runner.py:328-353 | retries never outnumber attempts, and are fewer while an attempt is open |
| JobModel.CompletedOnce | src/services/job_runner.py:245-291 | completed occurs once at most, only last or before a final failed; nothing follows failed |
| JobModel.RelayedGrows | src/services/jobs.py:222-244 | the chunks relayed so far and the next one spell a longer prefix of the answer |
| JobLease.HeartbeatOutlives | src/services/job_runner.py:152 | the lease's expiry outlives the heartbeat's sleep if and only if the lease is of two seconds or more |
| JobLease.LeaseHolds | src/services/jobs.py:281-306 | while renewals come within a gap the expiry outlives, some renewal's lease is unexpired at every moment |
| JobLapse.LapseDoublesTheAnswer | src/services/job_runner.py:146-155 | from a reachable state, one lapse of a lease under its live holder and then nothing that raises or dies, and a conversation holds two answers to one question |
| JobSafety.StepKeeps | src/worker.py:78-130 | every step of every process keeps the protocol's invariant |
| JobSafety.ReachableOk | src/services/job_runner.py:183-380 | the invariant holds in every reachable state |
| JobSafety.OneHolder | src/worker.py:86-130 | at most one live worker is between acquiring and releasing any one job |
| JobSafety.OneAnswer | src/services/job_runner.py:98-123 | a job's question stands once in its conversation, its answer once exactly when completed is in its history, and no key has two jobs |
| JobSafety.HistoryOk | src/services/job_runner.py:196-203 | a reachable history is in the grammar, ends in the row's status, counts its attempts, and attempts exceed the maximum only by the interrupted ones |
| JobSafety.StreamReads | src/services/jobs.py:201-244 | a stream is commentary, then answer chunks, then the outcome; the chunks spell a prefix of the stored answer and all of it once final is there; answer and error meet only when an answer publish raised |
| JobSafety.HistoryAppendOnly | src/services/jobs.py:162-189 | no step rewrites a row's history or key, and only a finished job's row disappears |
| JobSafety.CommitAppends | src/services/job_runner.py:298-380 | a commit adds at most one entry to the history of the worker's own job and none to any other |
| JobSafety.DeleteKeeps | src/api/v1/chat.py:434-457 | deleting a conversation without active jobs keeps the invariant, whatever workers are in the middle of |
| JobCarriers.LossIff | src/services/job_runner.py:298-380 | a step loses an open job that somebody carried if and only if it lets go of it and neither the queue, the API nor another worker has it |
| JobCarriers.LostStays | src/services/jobs.py:313-338 | a lost job is found again by a worker that starts, and by nothing else |
| JobCarriers.LostIff | src/worker.py:133-169 | over every run, with any workers and failures: a job is open with nobody to get to it if and only if some step lost it and no worker has started since |
| JobCarriers.NoSlipNoLoss | src/worker.py:86-130 | with one worker, no death, and no raising call at the few places that matter, every open job is carried in every state, and no lease stands but the one the worker will give back |
| JobCarriers.SlipLoses | src/services/job_runner.py:328-353 | for each of the eight ways to slip, a run from the empty system that slips in that way only and loses a job |
| JobCarriers.NeverLosesIff | src/services/jobs.py:313-338 | runs that slip only in allowed ways never lose a job if and only if none is allowed |
| JobStore.Store.StartJob | src/api/v1/chat.py:216-281 | a known key gives its job back and a conversation at its limit refuses, both changing nothing; else question and job are stored together and then queued |
| JobStore.Store.RecordTransition | src/services/jobs.py:162-189 | status and error are set and the history grows by that entry |
| JobStore.Store.Enqueue | src/services/jobs.py:192-194 | the job goes to the end that is popped last |
| JobStore.Store.Publish | src/services/jobs.py:201-219 | the entry is appended to the job's stream |
| JobStore.Store.AcquireLease | src/services/jobs.py:281-296 | the lease is taken exactly when there was none |
| JobStore.Store.ReleaseLease | src/services/jobs.py:309-310 | the lease is gone, whoever held it |
| JobStore.Store.PersistTurn | src/services/job_runner.py:98-123 | the answer and the completed transition become visible together |
| JobStore.Store.PublishAnswer | src/services/jobs.py:222-244 | the chunk loop and the final entry relay the answer in order, up to the first publish that raises |
| JobStore.Store.HandleFailure | src/services/job_runner.py:298-380 | when the row can be written, the job goes to retrying if and only if the failure is transient and attempts are left, else to failed, with the error in its history; only a retry is queued, in front of what is popped last; and as far as the calls go through where they do not |
| JobStore.Store.TryAttempt | src/services/job_runner.py:196-257 | the commits and publishes of the attempt up to the first that raises, and the error that then goes to the handler |
| JobStore.Store.ProcessJob | src/services/job_runner.py:183-295 | one attempt, for every way it can go and wherever a commit or publish raises |
| JobStore.Store.RunOne | src/worker.py:78-130 | a leased job and a finished job are passed over, any other is attempted, and the lease is given back |
| JobStore.Store.ReclaimOrphanedJobs | src/services/jobs.py:313-338 | exactly the open jobs with neither lease nor queue entry are pushed, each once |
| JobRecovery.AttemptReaches | src/services/job_runner.py:183-295 | an attempt over the store, whatever raises in it, is a path of the protocol |
| JobRecovery.OneReaches | src/worker.py:78-130 | so is claiming an entry and running it, whatever raises |
| JobRecovery.StartReaches | src/services/jobs.py:313-338 | worker start with its reclaim is a path of the protocol |
| JobRecovery.AttemptAdvances | src/services/job_runner.py:298-380 | an attempt finishes its job or puts it back with one attempt fewer owed, and touches no other |
| JobRecovery.OneAdvances | src/worker.py:61-130 | running one queue entry lowers the attempts owed or, with those equal, the queue; duplicate entries are harmless |
| JobRecovery.RunWorker | src/worker.py:133-169 | a worker that starts once the leases of the dead have lapsed ends every open job, keeps every history, empties the queue, and stops in a state the protocol reaches from where it started, reachable if that was |
| JobRecovery.RetryCanBeDropped | src/worker.py:86-130 | whenever a retry is due while another worker is idle, its entry can be popped and dropped, leaving the job open with neither entry, lease nor worker |
| JobAttempts.AgentRaising | src/services/job_runner.py:183-353 | an attempt whose agent raises, when no store call does: retrying, queued again and told so if and only if the error is transient and the attempt was not the last; else failed, the queue as it was, and the stream ends with the error; every entry and event spelled out |
| JobAttempts.HistoryRaising | src/services/job_runner.py:183-353 | the same when the history cannot be read |
| JobAttempts.AgentAnswering | src/services/job_runner.py:183-257 | an attempt whose agent answers: the answer is stored once, the job completed, and the stream told the attempt, the steps, the chunks and the whole answer, entry by entry |
| JobAttempts.FailureWrites | src/services/job_runner.py:298-380 | what the failure handler writes, tells and queues, by the error and the attempts left |
| JobAttempts.CommitWrites | src/services/job_runner.py:196-203 | over every run, a commit that goes through writes the one entry that is due where its worker stands, and no other row changes |
| JobAttempts.RetryingIff | src/services/job_runner.py:328-353 | over every run, a step appends retrying to a history if and only if it commits the handling of a transient failure with attempts left |
| JobAttempts.WhatFails | src/services/job_runner.py:269-291 | an error at a failure handler is the one that was raised, as transient as it was, or an internal error, never transient, where a commit or publish raised |
| JobAttempts.PublishTells | src/services/jobs.py:201-244 | over every run, a publish that goes through tells the stream of its worker's job the event that is due, and no other stream |
| Relay.ReadRelay | src/services/jobs.py:247-278 | the readable among at most a batch of the entries after the offset, in order |
| Relay.NothingReadIff | src/services/jobs.py:264-277 | nothing is read from a stretch if and only if every entry of it is unreadable |
| Relay.StuckForGood | src/services/jobs.py:260-277 | a connection before a whole batch of unreadable entries never gets past them |
| Relay.StreamJob | src/api/v1/chat.py:533-559 | exactly what is sent: the readable entries each poll finds after the offset, cut at the outcome or where the client leaves; over any growth of the stream, nothing missing or twice |
| Relay.PolledCatchesUp | src/api/v1/chat.py:533-552 | with no more than a batch after the start, all there is has been sent |
| Relay.PolledProgress | src/api/v1/chat.py:533-552 | where every entry can be read, each poll brings a connection a batch further, until it has all there was at any poll |
| Relay.JobStream.Handle | web/src/api/useJobStream.ts:63-118 | replayed chunks and traces are ignored, the outcome sets answer, citations, clarification and message, and nothing is handled after it |
| Relay.ReconnectsAreInvisible | web/src/api/useJobStream.ts:51-124 | any number of reconnects that resume at or before the last offset leave the view of one uninterrupted pass |
| RelayView.ShownIs | web/src/api/useJobStream.ts:63-118 | before the outcome the view shows the chunks and steps in order and the last status told; at the outcome the stored reply in their place, or the error and its message; nothing after it |
| JobDelivery.OnlyTheStoredAnswer | web/src/api/useJobStream.ts:78-102 | in every reachable state and for every pattern of reconnects, the screen shows a prefix of the stored answer, and all of it with its citations when the job shows as completed |
| JobDelivery.StreamsGrow | src/services/jobs.py:201-219 | no step takes anything from a stream |
| JobDelivery.OnlyTheStoredReply | web/src/api/useJobStream.ts:51-124 | the same for connections each served at whatever state the run had come to |
| JobDelivery.FollowVisit | src/api/v1/chat.py:533-559 | what the server sends on one visit, handled by the hook frame by frame, is one connection of the fold, and it gets as far as its polls bring it |
| JobDelivery.FollowJob | web/src/api/useJobStream.ts:51-124 | a browser that comes back with the last offset it received, any number of times, to a stream that grows meanwhile, shows what one uninterrupted pass shows |
| MdxScan.SkipString | src/services/ingestion/mdx.py:60-76 | the scan ends past its start and inside the source, whatever the source |
| MdxScan.SkipExpression | src/services/ingestion/mdx.py:79-99 | the same for a balanced expression |
| MdxScan.ScanString | src/services/ingestion/mdx.py:60-76 | the index-advancing loop computes that end and stops on every source |
| MdxScan.ScanExpression | src/services/ingestion/mdx.py:79-99 | the same for the brace loop, mutually recursive with strings |
| MdxScan.ScanAttrs | src/services/ingestion/mdx.py:201-244 | the attribute loop gives the attributes, the closing form and the end of the tag |
| MdxScan.ScanNode | src/services/ingestion/mdx.py:256-304 | one turn of the child loop: the nodes it adds and where it goes on or returns, a closing tag of the element's own name or of none closing it; `MdxTree.ParsedIff` says what the turns come to |
| MdxScan.ScanChildren | src/services/ingestion/mdx.py:247-307 | the child loop stops on every source and gives the parsed nodes, which are those of the one tree the source has (`MdxTree.ParsedIff`) |
| MdxTree.ChildrenTiled | src/services/ingestion/mdx.py:247-307 | the nodes tile the stretch they were parsed from: text holds no markup and is never cut in two, tags and attributes are those at the node's start, only comments and closing tags of something else lie between nodes, and an element ends just past the first closing tag of its own name or of none, at the source's end if there is none, or with its opening tag when void or self-closing |
| MdxTree.ExactlyOneTile | src/services/ingestion/mdx.py:247-307 | every character is in exactly one text leaf, expression leaf or piece of markup |
| MdxTree.SiblingsAscend | src/services/ingestion/mdx.py:247-307 | siblings are disjoint, ascending and inside their parent |
| MdxTree.TreeIsUnique | src/services/ingestion/mdx.py:247-307 | a source has one such tiling: two that start at the same point and end for the same tag are equal, node for node |
| MdxTree.ParsedIff | src/services/ingestion/mdx.py:247-307 | so a list of nodes is what the parser returns, with its end, if and only if it tiles the source from there |
| MdxTags.TagNameIff | src/services/ingestion/mdx.py:41 | a tag's name is the longest run of name characters there |
| MdxTags.CloseTagEndIs | src/services/ingestion/mdx.py:275-277 | a closing tag ends at the first `>`, or with the source |
| MdxTags.CommentEndIs | src/services/ingestion/mdx.py:268-272 | a comment ends at the first `-->`, or with the source |
| MdxTags.OneOfIff | src/services/ingestion/mdx.py:171-197 | void elements are those of the list, in lower case |
| MdxTags.ExpressionEnds | src/services/ingestion/mdx.py:79-99 | an expression is skipped to its own closing brace, whatever its strings, templates with substitutions and inner braces hold, to any depth |
| MdxTags.StringEnds | src/services/ingestion/mdx.py:60-76 | a string or template, substitutions included, is skipped to the quote that closes it |
| MdxTags.ValueRead | src/services/ingestion/mdx.py:227-243 | the span stored for a quoted, braced or bare value is its inside, to the character, with its kind |
| MdxTags.AttrsRoundTrip | src/services/ingestion/mdx.py:201-244 | a printed attribute list, with flags, values of every kind and spreads, reads back: how the tag closes, where it ends, which names there are, and under each what its last bearer says |
| MdxLiteral.ScanList | src/services/ingestion/mdx.py:317-358 | the item loop gives the spans between outermost commas |
| MdxLiteral.ScanObject | src/services/ingestion/mdx.py:361-382 | the key loop gives each key's value span, a later key winning |
| MdxLiteral.ReadLiteral | src/services/ingestion/mdx.py:388-412 | the unescaped text of a span that is one literal and whitespace, else nothing |
| MdxItems.ElementIsOneItem | src/services/ingestion/mdx.py:338-347 | an element among the items, as the tree has it, is passed over whole with every comma and quote in it |
| MdxRoundTrip.CodesSkip | src/services/ingestion/mdx.py:60-76 | a printed string is skipped to its closing quote, escapes and template dollars included |
| MdxRoundTrip.BodySplit | src/services/ingestion/mdx.py:317-358 | splitting a printed list or object gives one span for each entry, nested literals and dangling commas included |
| MdxRoundTrip.KeysAdded | src/services/ingestion/mdx.py:361-382 | distinct printed keys, plain or quoted, each read back to their own value |
| MdxRoundTrip.RoundTrip | src/services/ingestion/mdx.py:317-412 | a printed literal, nested to any depth, reads back as itself wherever it stands in a source |
| MdxRoundTrip.Encode | src/services/ingestion/mdx.py:385-412 | every text has a printed form in every quote, and it decodes to the text |
| Markdown.Writer.Settle | src/services/ingestion/mdx.py:542-545 | a requested break becomes one blank line |
| Markdown.Writer.Text | src/services/ingestion/mdx.py:547-553 | text is appended, after a space unless it clings or follows whitespace |
| Markdown.Writer.RawBlock | src/services/ingestion/mdx.py:555-563 | a stripped value becomes a block of its own; a blank one changes nothing |
| Markdown.Writer.Newline | src/services/ingestion/mdx.py:565-567 | a newline is added where there is none |
| Markdown.TextIs | src/services/ingestion/mdx.py:547-553 | text follows what there is, after a due blank line, a space apart unless either side has whitespace or the text begins with punctuation that clings |
| Markdown.BlockIs | src/services/ingestion/mdx.py:555-563 | a block is the value without the whitespace around it, a blank line after what there is, with another due after it; whitespace alone changes nothing |
| Markdown.WriterKeepsInk | src/services/ingestion/mdx.py:522-573 | any sequence of writes adds and loses nothing but whitespace |
| Markdown.FenceOutlasts | src/services/ingestion/mdx.py:693-696 | no run of backticks in the code is longer than the longest run the fence is sized by |
| Flow.RenderLines | src/services/ingestion/mdx.py:673-688 | the line loop joins prose and keeps block lines apart |
| Flow.Reflow | src/services/ingestion/mdx.py:664-690 | the paragraph loop computes the reflowed text |
| Flow.FlowKeepsInk | src/services/ingestion/mdx.py:664-690 | reflowing keeps every character that is not whitespace, in order |
| Flow.FlowIdempotent | src/services/ingestion/mdx.py:664-690 | reflowing twice is reflowing once |
| FlowFacts.ParagraphsCut | src/services/ingestion/mdx.py:672 | a text is cut at its paragraph breaks, each as soon as it comes |
| FlowFacts.RenderGroups | src/services/ingestion/mdx.py:677-688 | prose lines are joined with exactly the prose next to them, a space apart; a block line stays alone |
| FlowFacts.FlowIs | src/services/ingestion/mdx.py:664-690 | reflowing cuts a text into paragraphs and renders of each its trimmed lines, so grouped, a line each, paragraphs without any dropped, a blank line between the others |
| Flow.JoiningCanMakeABlockLine | src/services/ingestion/mdx.py:53 | joined prose can come to look like a block line although none of its lines did |
| Blocks.Split | src/services/ingestion/chunking.py:98-130 | the loop over line numbers and offsets gives the blocks of the lines, fences respected |
| Blocks.MakeBlock | src/services/ingestion/chunking.py:133-138 | the text between the offsets is the block's lines |
| BlocksRoundTrip.WriteThenSplit | src/services/ingestion/chunking.py:98-138 | texts written as blocks and split again come back exactly, each where it was put |
| BlocksRoundTrip.ParagraphWhole | src/services/ingestion/chunking.py:110-128 | a text in which no line opens a fence stays one block if and only if no line is blank |
| BlocksRoundTrip.FenceWholeIff | src/services/ingestion/chunking.py:110-128 | fenced code stays one block if and only if its lines leave the backtick fence open at their end and some fence open at each blank one |
| BlocksRoundTrip.FenceWholeByParity | src/services/ingestion/chunking.py:118-121 | where no line starts with three tildes: an even number of lines start with three backticks, and an even number before each blank line |
| BlocksRoundTrip.FenceWhole | src/services/ingestion/mdx.py:693-696 | fenced code stays one block when no line of it starts with three backticks |
| BlocksRoundTrip.FenceSplits | src/services/ingestion/chunking.py:118-121 | code that starts with three backticks and a blank line comes apart, although its fence is longer |
| BlocksRoundTrip.ThisFenceSplits | src/services/ingestion/mdx.py:693-696 | one such code |
| BlocksRoundTrip.SplitKeepsLines | src/services/ingestion/chunking.py:98-130 | every line that is not blank is in exactly one block, in order |
| BlocksRoundTrip.SplitLies | src/services/ingestion/chunking.py:133-138 | each block is the stretch its offsets name, and blocks ascend |
| Sections.SplitSections | src/services/ingestion/chunking.py:362-396 | the heading loop with its stack gives the sections |
| Sections.SectionsAreOutline | src/services/ingestion/chunking.py:362-396 | the sections are one for each heading, each with the chain of headings above it as its trail, except that a bodyless heading is dropped unless it is last |
| Sections.PoppedIsAbove | src/services/ingestion/chunking.py:383-384 | popping the stack leaves exactly the headings above the new one |
| Sections.SectionsKeepBlocks | src/services/ingestion/chunking.py:362-396 | every block that is not a heading is in exactly one section, in order |
| SectionsFacts.AnchorIs | src/services/ingestion/chunking.py:375-381 | a heading takes the anchor recorded for it when the titles agree, else that of the first heading recorded under its title, else none |
| SectionsFacts.HeadingIs | src/services/ingestion/chunking.py:373-375 | the title of a heading line is what follows its marks, without the whitespace around |
| Units.BindUnits | src/services/ingestion/chunking.py:295-343 | the loop over unit objects, extended in place, gives the bound groups with their token counts up to date |
| Units.BindingKeeps | src/services/ingestion/chunking.py:295-343 | binding drops nothing but rules and keeps the order |
| Units.CodeIsNeverStranded | src/services/ingestion/chunking.py:324-342 | with more than one unit, every unit that is not a step holds a block that is neither code nor image |
| UnitsFacts.BindingIs | src/services/ingestion/chunking.py:295-343 | every block that is no rule lies in one stretch: those of a step, as long as it lasts, or a block with the code and images after it; a unit is a stretch with those after it that begin with code or an image, a step by itself is marked as one, and a first unit of only code and images joins the next |
| Packing.MoveOverlap | src/services/ingestion/chunking.py:411-414 | what moves off the end of the piece already added, which is the same list, is its shortest end that weighs at least the overlap, or all of it |
| Packing.SplitLines | src/services/ingestion/chunking.py:402-418 | the line loop over shared lists gives the pieces: each filled until the next line would be too much, cut there, and the next begun with the overlap moved over and that line |
| Packing.CutIs | src/services/ingestion/chunking.py:411-414 | at a cut the lines left and moved are the full piece, and those moved are the shortest end that makes the overlap, or all of it |
| Packing.PiecesAreWellCut | src/services/ingestion/chunking.py:402-418 | every piece is as long as the maximum allows when it is cut, what moves on is that shortest end, and the next piece begins with it and the line that was one too many |
| Packing.SplitOversized | src/services/ingestion/chunking.py:399-430 | the pieces that hold text become blocks of the unit's kind |
| Packing.Pack | src/services/ingestion/chunking.py:454-487 | the unit loop gives the packed candidates |
| Packing.PiecesKeepLines | src/services/ingestion/chunking.py:402-418 | each line is in exactly one piece, in order: the overlap moves and is not copied |
| Packing.PiecesFit | src/services/ingestion/chunking.py:407-416 | when no line weighs more than half of what the maximum leaves beside the overlap and two line breaks, no piece exceeds the maximum, for every weight that joins for no more than a line break costs |
| PackingFacts.OversizedLines | src/services/ingestion/chunking.py:399-430 | cutting a unit keeps every line that is not blank |
| PackingFacts.PackKeepsLines | src/services/ingestion/chunking.py:454-487 | packing keeps every line that is not blank, in order |
| PackingFacts.UnitStaysWhole | src/services/ingestion/chunking.py:470-485 | a unit within the maximum ends up whole in one candidate |
| PackingFacts.PackedFit | src/services/ingestion/chunking.py:454-487 | with a target below the maximum by what a blank line may cost and light lines, every packed candidate keeps to the maximum |
| PackingRuns.OversizedIs | src/services/ingestion/chunking.py:399-430 | the blocks of a unit that is cut up are its pieces that are not blank, in order, with the place, kind and language of its first block |
| PackingRuns.Starting | src/services/ingestion/chunking.py:454-487 | the units fall into consecutive runs, each filled to the target as it stands and closed only by a unit that would bring it past or is past the maximum alone; the candidates are one for each run, a step if any unit is, and one for each piece of a unit alone, saying on which side it was cut off |
| Merging.MergeUndersized | src/services/ingestion/chunking.py:490-535 | the loop that replaces and deletes ends and gives the merged chunks |
| Merging.Neighbours | src/services/ingestion/chunking.py:516-522 | the neighbours that fit, the one before first |
| Merging.MergeKeepsBlocks | src/services/ingestion/chunking.py:523-534 | merging keeps every block, in order |
| Merging.MergeNeverOversizes | src/services/ingestion/chunking.py:504-534 | every chunk that comes out went in or keeps to the maximum |
| Merging.MergeFinishes | src/services/ingestion/chunking.py:509-522 | it stops only with one chunk, none below the floor, or a first one below it that no neighbour can absorb |
| Merging.StuckChunkEndsThePass | src/services/ingestion/chunking.py:521-522 | such a chunk ends the pass with everything after it as it was |
| MergingSteps.MergeIsChain | src/services/ingestion/chunking.py:490-535 | the pass is a chain of folds that ends only where none is left: each joins the first chunk below the floor to a neighbour it fits with, the lighter of two and the one before it when they weigh the same, into a chunk with both texts under the section of the heavier |
| MergingSteps.WeighsIs | src/services/ingestion/chunking.py:444-452 | a chunk weighs its trimmed blocks under a line with the titles there are |
| MergingFacts.StuckChunkLeavesTheRest | src/services/ingestion/chunking.py:490-535 | a list of four: the first cannot be absorbed, and the last two, below the floor and fitting together, are left apart |
| MergingFacts.WholeMeetsFloor | src/services/ingestion/chunking.py:490-535 | for a count that insertion never lowers: when all the text fits the maximum under each section, one chunk is left or none below the floor |
| MergingFacts.WalledMissesFloor | src/services/ingestion/chunking.py:515-522 | one chunk below the floor whose text with either neighbour is too much, anywhere in the list, and the floor is not met |
| MergingFacts.OneSmallIff | src/services/ingestion/chunking.py:509-534 | with one chunk below the floor, the floor is met if and only if a neighbour can take it |
| ChunkDocument.Chunked | src/services/ingestion/chunking.py:570-676 | from sections to chunks every line of the kept blocks is there once and in order; it fails only for text that yields nothing |
| ChunkDocument.ChunkingKeepsBlocks | src/services/ingestion/chunking.py:570-676 | the kept blocks differ from the document's only in headings and rules |
| Evidence.EvidenceStore.Collect | src/services/agent.py:221-252 | the dictionaries take up every citable item of a tool's output, a later one replacing an earlier |
| Evidence.EvidenceIsSourced | src/services/agent.py:221-252 | every entry is exactly what an item returned by an executed tool says |
| EvidenceFacts.EvidenceIs | src/services/agent.py:221-252 | an id is in the evidence if and only if something returned files it, and the dictionaries hold of it what the last item to do so says, field by field |
| Grounding.CitedImages | src/services/agent.py:255-283 | the image loop gives the web images of the cited evidence, each address once |
| Grounding.Cite | src/services/agent.py:463-477 | the citation loop gives each cited id once, or nothing when one is not public |
| Grounding.Judge | src/services/agent.py:397-480 | the model's last word becomes an answer, a question or an abstention; `VerdictFacts.VerdictIff` says which and when |
| Grounding.VerdictIsGrounded | src/services/agent.py:286-309 | an answer has text, distinct public citations from the evidence and distinct images of cited evidence; a question's field has two different values in the evidence |
| VerdictFacts.VerdictIff | src/services/agent.py:397-480 | the verdict is an answer if and only if the object is typed so, its text is not blank and its citation ids are a nonempty list of ids in the evidence with an address on the site; then its text is that text, its citations are those of the ids where each is listed first, and its images the pictures of those ids that can be shown, each address once where it is first; it is a question if and only if one may be asked, the object asks one that is not blank and the evidence is divided over its field; else nothing is said |
| VerdictFacts.PublicIff | src/services/agent.py:464-470 | an address is on the site if and only if it is the site's without its last slashes, or goes on from there with a slash |
| VerdictFacts.DividedIff | src/services/agent.py:300-309 | a field bears on the answer if and only if two pieces of evidence give values for it that differ once normalised |
| VerdictFacts.WebIff | src/services/agent.py:268-274 | a picture can be shown if and only if its address begins with http:// or https://, in any case |
| AgentLoop.AgentTurn.HandleCall | src/services/agent.py:685-780 | one tool call: refused, rejected, or executed and answered, with counters and limits |
| AgentLoop.AgentTurn.HandleAnswer | src/services/agent.py:640-683 | a clarification the evidence does not bear out is sent back once |
| AgentLoop.AgentTurn.Finish | src/services/agent.py:397-514 | the result carries the verdict, the counters and the conversation |
| AgentLoop.AgentTurn.Run | src/services/agent.py:574-780 | the loop ends and gives the outcome of its rounds |
| AgentLoop.RunTurn | src/services/agent.py:516-573 | the turn starts from prompt, profile, history and question in that order |
| AgentLoop.RoundsDecrease | src/services/agent.py:574-582 | every round that goes on has executed a tool or reached a limit |
| AgentFacts.RoundKeeps | src/services/agent.py:574-780 | each round keeps the bounds and the reply protocol, or ends the turn within them |
| AgentFacts.OnCallsKeep | src/services/agent.py:685-780 | the calls of one message get one reply each, in order, within the limits |
| AgentFacts.EveryTurn | src/services/agent.py:516-780 | for every model and tools: at most one model call more than the tool limit, executed tools and rewrites within their limits, tokens within budget on return, every request with each earlier tool call answered once in order, and a result grounded in what the executed tools returned |
| AgentCalls.OneCall | src/services/agent.py:685-780 | one call, given all before it in the turn: it runs if and only if none was refused, fewer than the limit ran, and it is no rewrite of the question too many; then the model is shown what the tool returned, else which limit was reached, the same ever after |
| AgentCalls.CarriesIff | src/services/agent.py:120-124 | the calls of a message are none, or the objects of its list, or the message is malformed |
| AgentCalls.MakesIff | src/services/agent.py:127-138 | a call is its id, name and arguments, or is malformed |
| AgentStory.EveryTurnTold | src/services/agent.py:516-780 | for every model and tools, a whole turn: each request holds everything said before it, with tools offered while they are open; the tokens add up and the budget stops the turn where it is used up; and the turn ends as its last message makes it end, with every way to fail, and a result that says what the verdict is |
| AgentStory.OpeningIs | src/services/agent.py:525-549 | a turn starts from the system prompt, what is known of the setup, and the history, or the question when there is none |
| IndexVersions.Index.Build | src/services/ingestion/pipeline.py:579-612 | the source loop carries unchanged documents forward and builds the others, or raises |
| IndexVersions.Index.RunIngestion | src/services/ingestion/pipeline.py:521-679 | an unchanged commit changes nothing, a failed build nothing, a failed validation adds a failed version, and success activates and prunes |
| IndexVersions.Index.RollbackTo | src/services/ingestion/pipeline.py:483-518 | an existing version with chunks becomes the active one, else nothing changes |
| IndexFacts.ActivationKeeps | src/services/ingestion/pipeline.py:436-455 | activating a version that holds chunks leaves exactly that one active and every version faithful to its commit |
| IndexFacts.BuildIsFaithful | src/services/ingestion/pipeline.py:256-345 | an incremental build stores what a full rebuild of the same sources stores, wherever its faults fall |
| IndexFacts.FaithfulAgree | src/services/ingestion/pipeline.py:163-253 | the sources determine the stored hashes, chunks and vectors |
| IndexFacts.EveryHistory | src/services/ingestion/pipeline.py:436-679 | after any history every version is a full rebuild of its commit, at most one is active, and that one holds a chunk |
| IndexFacts.NeverLost | src/services/ingestion/pipeline.py:436-518 | once a version is active, one always is |
| IndexFacts.PruneKeepsExactly | src/services/ingestion/pipeline.py:458-480 | a version survives pruning exactly when it is active or fewer than the kept number of inactive ones are newer |
| IndexFacts.RollbackTargetRemains | src/services/ingestion/pipeline.py:458-480 | a superseded version remains if and only if fewer than the kept number of inactive versions are newer than the newest superseded |
| IndexFacts.RollbackTargetIff | src/services/ingestion/pipeline.py:458-480 | over every history: after an ingestion that activates, a superseded version remains if and only if the newest versions before it, as many as are kept, are not all failed builds |
| IndexFacts.StatusesSettle | src/services/ingestion/pipeline.py:436-455 | no history leaves a version active without that status, superseded while active, or half built |
| IndexFacts.FailedBuildEvicts | src/services/ingestion/pipeline.py:464-480 | a history of three ingestions, the second failing validation for a chunk over the maximum: with one version kept, the first, which was serving, is evicted |
| IndexFacts.ServesUnfitIff | src/services/ingestion/pipeline.py:483-518 | over every history, what is served fails validation if and only if the last activation was a rollback to a version that fails it |
| IndexFacts.RollbackCanServeAFailedBuild | src/services/ingestion/pipeline.py:483-518 | a history that ends with such a rollback, from a version that passes to a build that failed for a chunk over the maximum |
| IndexRuns.BuildIs | src/services/ingestion/pipeline.py:579-612 | a build raises exactly at the first source that stops it, with what is raised there; else it holds each unchanged document as it was, each other as building makes it at this commit, and nothing else |
| IndexRuns.FitIff | src/services/ingestion/pipeline.py:348-433 | a version is fit if and only if it has a chunk and every chunk has a vector of the right dimension, keeps to the maximum and can be cited |
| IndexRuns.EveryIngestion | src/services/ingestion/pipeline.py:521-679 | after any history, what an ingestion reports and leaves: nothing changed at the served commit, nothing at a fault, a failed version when unfit, and else the new version serving beside the newest of the others, as many as the retention setting says and at least one, the one that served superseded |
| IndexRuns.EveryRollback | src/services/ingestion/pipeline.py:483-518 | after any history, a rollback is refused if and only if there is no such version or it holds no chunk; else exactly that one serves |
| Summarization.Conversation.BuildContext | src/services/summarization.py:146-211 | the context, and the row after a summary that is new and commits, or unchanged |
| Summarization.PreparedKeeps | src/services/summarization.py:160-211 | one preparation folds exactly the turns between the marker and the window, or leaves the row; the marker stops short of the window |
| SummaryFacts.EveryPreparation | src/services/summarization.py:143-211 | one preparation, said of the turns: how many are replayed at each length, which have fallen out since the marker, when a summary is wanted, what text a reply yields, and what is given and stored of it |
| Summarization.LifeKeeps | src/services/summarization.py:160-211 | over every conversation, with any answers of the model and any failed writes: the stored summary covers exactly the turns up to the marker, each once, and both only grow |
| Summarization.CoversIff | src/services/summarization.py:160-211 | whatever the model answers and whether or not the write goes through, summary and verbatim turns cover the history exactly if and only if the marker is at the window's start, or before it in a conversation past the trigger and the answer is new text; the summary given is the one counted |
| Summarization.SmoothCoversExactly | src/services/summarization.py:160-211 | with a trigger no later than the window, a context prepared where the window is whole covers every message once if and only if nothing is left to fold or the answer is new text, whatever stale answers, failed writes and short slices came before |
| Summarization.OrdinaryIff | src/services/summarization.py:160-211 | in a conversation of alternating turns that outgrows its window, every context covers every message once if and only if one turn is replayed with a trigger of at most one, or none with a trigger of none |
| Summarization.JobsGivenAllIff | src/services/job_runner.py:60-82 | in the jobs of such a conversation, which prepare nothing when no turns are replayed, each is given every message once if and only if one turn is replayed with a trigger of at most one |
| Summarization.ShortSliceLoses | src/services/summarization.py:176-178 | at the other lengths, before the trigger, the turns the slice leaves out are nowhere |
| Summarization.ThirdQuestionAlone | src/services/summarization.py:176-184 | with three turns of history and a trigger of three, the third question's context is that question |
| Ranking.ReciprocalRankFusion | src/services/retrieval.py:191-244 | the candidate loop fuses and sorts, or raises for a candidate without a similarity; `RankingScores.FusionIs` gives the scores as fractions |
| Ranking.ApplyMetadataBoosts | src/services/retrieval.py:247-275 | every candidate is boosted by its matches and the list sorted again |
| Ranking.Deduplicate | src/services/retrieval.py:284-307 | the loop keeps what repeats nothing kept before |
| Ranking.OneOrder | src/services/retrieval.py:244 | there is one way to sort a collection by score and id |
| RankingFacts.FusionIsDeterministic | src/services/retrieval.py:206-244 | fusion gives the same list, or fails alike, whatever order the set yields its ids |
| RankingFacts.EachCandidateOnce | src/services/retrieval.py:191-244 | each candidate of either list is ranked exactly once |
| RankingFacts.DominantComesFirst | src/services/retrieval.py:219-224 | a chunk ranked no worse in both lists and better in one with weight comes before the other |
| RankingScores.FusionIs | src/services/retrieval.py:191-244 | fusion fails if and only if a chunk of the lexical list alone has no similarity; else each chunk's score times rrf_k plus its rank in each list is the weights crosswise, its text and similarity are those of its evidence, and the list goes down by score, then id |
| RankingScores.Crossing | src/services/retrieval.py:219-244 | a chunk in one list only comes before one in both if and only if its weight times both of the other's denominators exceeds the other's weights crosswise times its own |
| RankingScores.BothBeatOne | src/services/retrieval.py:219-244 | with equal weights a chunk in both lists comes before every chunk in one, as long as its ranks add up to less than twice rrf_k and four |
| RankingScores.FoundTwiceFirst | src/core/config.py:114-117 | so in every ranking with the settings the code comes with, up to ranks that add up to 123 |
| RankingFacts.BoostedOrder | src/services/retrieval.py:247-275 | boosting never moves a chunk below one it preceded that has no more matches |
| RankingScores.BoostingIs | src/services/retrieval.py:247-275 | boosting gives each chunk one boost weight for each hint its normalised metadata meets and sorts by score times multiplier, then id; none is lost |
| RankingFacts.DedupIsGreedy | src/services/retrieval.py:284-307 | exactly the results are kept that repeat none kept before them |
| RankingFacts.GreedyIsUnique | src/services/retrieval.py:284-307 | there is only one such choice |
| RankingFacts.DedupKeepsOrder | src/services/retrieval.py:284-307 | what is kept is a subsequence of the ranking |
| RankingFacts.DedupIdempotent | src/services/retrieval.py:284-307 | deduplicating twice is deduplicating once |
| Ranking.HybridRetrieve | src/services/retrieval.py:650-661 | fusion, boosts where the profile gives hints, deduplication and the limit, in that order |
| RankingFacts.DominantReturnedFirst | src/services/retrieval.py:650-661 | in what a search returns, a chunk is preceded by each that dominates it in both lists and in matches, or by one that the dominating chunk repeats |
| RankingFacts.HybridIsDeterministic | src/services/retrieval.py:650-661 | a search returns the same whatever order the candidate set yields its ids |
| RankingScores.SearchIs | src/services/retrieval.py:609-676 | a search returns, of the fused and where there are hints boosted ranking, the first results whose bodies are like none before them, as many as asked for |
| RateLimit.Limiter.HitKey | src/services/rate_limit.py:51-66 | the counter is incremented, given an expiry when it has none, and count and reset are reported, up to where the store raises |
| RateLimit.Limiter.Check | src/services/rate_limit.py:69-130 | both scopes are counted and the decision made; a store that raises before, between or after counting and setting the expiry lets the request through, what it did so far done |
| RateLimit.CountersCount | src/services/rate_limit.py:51-66 | over every history, faults included, a counter counts the checks that reached it, rejected or not, and does not expire before its window ends |
| RateLimit.ImmortalIff | src/services/rate_limit.py:54-64 | a counter stands without an expiry if and only if its key was counted in the window and every such check was cut off before the expiry was set |
| RateLimit.LeftImmortal | src/services/rate_limit.py:61-64 | one such check is enough |
| RateLimit.AllowedIff | src/services/rate_limit.py:106-130 | a request is let through exactly when none of its keys has had its limit in the window |
| RateLimit.WindowLimit | src/services/rate_limit.py:51-66 | in an aligned window a store that answers lets no key through more often than its limit |
| RateLimit.MinuteLimit | src/services/rate_limit.py:12-16 | nor, in any sixty seconds, more than twice its limit |
| RateDecisions.EveryDecision | src/services/rate_limit.py:69-130 | what a caller is told: nothing is limited when nobody is identified or the store raises; else the first scope over its limit refuses, or the scope with least left is told, with the whole seconds left of the minute, never none |

## Left out

- JobProtocol: its submission step does not check the conversation's limit of questions, which two submissions at once can both pass; `JobStore.Store.StartJob` has the check for one at a time.
- JobStore.Store.ProcessJob: a commit that raises is one that did not happen; the metrics and the wall-clock are not modelled.
- JobSafety.StreamReads: streams do not expire; a message is named by its code, which determines its text, and the counters and images of a final entry are left out.
- Relay.StreamJob: keep-alive frames and the stored delivery offset are not modelled.
- Stripping import and export statements (`_strip_statements`), rendering each tag, and reading a property that holds JSX.
- Typing blocks from the Markdown parser and finding step regions: kinds, levels and regions are given.
- A chunk's path metadata, content type, images and language.
- MdxRoundTrip.RoundTrip: keys are not unescaped by the reader, so quoted keys are printed without escapes.
- Flow.Reflow: which characters the regular expression engine calls digits is a parameter.
- AgentLoop.AgentTurn.HandleCall: a tool call that is not an object ends the turn; the source also accepts lists of pairs there.
- AgentLoop.AgentTurn.Run: trace events, telemetry rows and the wall-clock timeout are left out; the timeout only cuts a turn short.
- IndexVersions.Index.RunIngestion: fetching the corpus, image assets, reports, usage events, ids and timestamps are left out; creation order stands for creation time.
- Summarization.Conversation.BuildContext: prompts, roles other than user and assistant, and a missing conversation, which gives an empty context.
- Ranking.ReciprocalRankFusion: scores are exact reals, so rounding is not modelled; searching, filters and similarity queries are left out.
- RateLimit.WindowLimit: requests let through because the store raised are not bounded by anything.
- MergingFacts.WholeMeetsFloor: between a whole text that fits and a chunk walled in, which of several small chunks stays depends on the order of the merges; no condition on the input is given there.
- The synchronization lock, dashboards, feedback, evaluation, runtime configuration, health, tracing, the tool server and migrations: plumbing, or easier instances of what is here.
