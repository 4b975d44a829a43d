# WhyCode host: a verified model

WhyCode is a desktop application whose main process keeps many conversations running at
once. Its TypeScript runs on one thread, but every `await` lets other work in between, so
what it promises has to hold for every interleaving. This project models the parts where
that is hard and proves it for all inputs, all runs or all reachable states:

- **The event stream.** UTF-16 cuts (`Utf16`), the bounded tail of a tool's output
  (`ToolOutput`), merging of adjacent events (`CoreEvents`, `Runs`, `ProgressRuns`,
  `OutputParts`), the batcher in front of the renderer (`EventBatcher`), the three-channel
  step timeline (`ViewTimeline`, `StepTransactions`, `CopiedOutput`) and the seam at which a
  snapshot and the live stream meet (`ResumeSeam`).
- **Histories.** Incremental projection (`HistoryProjection`), pages cut at work boundaries
  and glued together again (`HistoryPaging`), and sections that respect those cuts
  (`Sections`, `Filters`).
- **Ownership of directories.** Serial mutations (`WorkspaceMutations`), manifests and
  managed workspaces (`WorkspaceManifests`, `ManagedWorkspaces`), overlap of paths
  (`WorkspacePaths`), cleanups against users (`WorkspaceLifecycle`) and Git worktrees with
  leases (`Worktrees`).
- **Protocols of the host.** Subagent slots (`Subagents`), the bracket around work
  (`WorkBrackets`), latest-click navigation (`Navigation`), the keyed scheduler
  (`OperationScheduler`), the routing gate with its two clients (`RoutingGate`) and the queue
  of wake-ups (`WakeQueue`).
- **Flow control and documents.** The remote helper's output window (`RemoteWindow`),
  terminal credit (`Terminals`) and the browser document machine (`BrowserDocument`).
- **Parsers.** Git's NUL-terminated records (`NulRecords`, `GitStatus`, `GitChanges`).

Code that updates objects step by step is modelled by classes with the same fields; their
methods are the stretches of code between two suspensions, and each is proved against a
function of the old state or an invariant that says what the fields mean. State machines on
values take the events of a whole run as a list; an event that is not possible changes
nothing, so theorems about runs quantify over all lists of events.

## Where the code does less than one might expect

Each of these is stated as a lemma with the exact condition:

- A chunk of 65523 units or more is shown as truncated even where the whole stream fits
  (`ToolOutput.SplitsAgreeIff`, `ToolOutput.SplitCanMatter`). That a stream may itself start
  with the omission marker, on the other hand, does no harm.
- Truncating a chunk before appending it differs from appending it exactly when the cut
  would split a surrogate pair (`ToolOutput.TruncateThenAppend`).
- A negative bound makes the safe prefix longer than its bound (`Utf16.CutsRespectBound`).
- `snapshotAt` does not look at the writes in flight a second time and then misses exactly
  those (`Timeline.ViewTimeline.SnapshotCopy`), as in the history of
  `Timeline.LateWriteIsMissed`; `conversationAt` does look.
- Chunks whose own truncation splits a surrogate pair leave a stray line feed behind the
  marker, and a first chunk of 65523 units or more is shown whole where appending would mark
  it as cut (`ToolOutput.PipelineAgreesIff`). Output that is merged on its way and then
  appended part to part can differ in the same two ways (`OutputParts.PartsAgreeIff`,
  `OutputParts.MergingCanMatter`).
- Pages add up to the whole state exactly when it is reloadable
  (`HistoryPaging.LoadedIffReloadable`): a pending turn that starts before the first window
  is lost (`HistoryPaging.PendingTurnLostIff`, `HistoryPaging.PendingTurnIsLost`).
- New and restored worktrees take their lease outside the mutation queue: it can lose its
  checkout if and only if it arrives while a removal is past its look at the leases with
  nothing left to refuse (`Worktrees.LeaseLostIff`, `Worktrees.LeaseRaceIsReachable`). Work is
  lost unasked if and only if it is a clean commit on a detached HEAD made after the status
  was read, or put where a detachment has just found the directory empty
  (`Worktrees.WorkLostIff`).
- A notification is lost if and only if the entry of its key is delivered or dropped while
  the newer one is pending (`WakeQueue.AllAccountedIff`); whatever is enqueued under the key
  at work goes that way (`WakeQueue.EnqueuedAgainIsLost`, `WakeQueue.LossIsReachable`). One
  whose session is discarded is delivered all the same if the running drain has it in its
  snapshot, and only then (`WakeQueue.LeftDeliveredIff`, `WakeQueue.DiscardedIsDelivered`).
- A late acknowledgement for a task whose name is in use again frees a slot of the new task
  (`RemoteWindow.StrayIff`). How many messages can then become unacknowledged is stated
  exactly (`RemoteWindow.PotentialIsExact`, `RemoteWindow.ExceedsIff`), and nine happens
  (`RemoteWindow.NineUnacknowledged`).
- A terminal whose renderer is ready before its pty comes stays paused for ever, and no other
  does, as long as a paused pty keeps still (`Terminals.StuckIff`). It takes a control for an
  id the renderer has not been told yet, since it learns the id when the creation returns.
- A stop that comes between the hand-over of an address and the start of its navigation marks
  the new document as interrupted: the tab then is ready with the navigation under way, and
  the page that comes never is (`BrowserDocument.UnderWayReadyIff`,
  `BrowserDocument.ReadyTooEarly`, `BrowserDocument.CommittedWithError`). An in-page
  navigation of the old page in that time ends the wait for the request at once, with nothing
  of it started (`BrowserDocument.HandedOverReadyIff`, `BrowserDocument.ReadyWithoutNavigation`).

## Verifying

`dafny verify dfyconfig.toml`

## Model

| member | source | states |
|---|---|---|
| Utf16.IsWellFormedUnicode | packages/core/src/text.ts:42-54 | The index loop accepts a string exactly when it is the UTF-16 encoding of a sequence of Unicode scalar values. |
| Utf16.WellFormedIffEncoding | packages/core/src/text.ts:42-54 | The pairing of surrogates a scan can see coincides with definition D91 (section 3.9 of the Unicode Standard), in both directions. |
| Utf16.CutWellFormed | packages/core/src/text.ts:19-39 | In well-formed text a cut leaves well-formed halves exactly when it separates no surrogate pair. |
| Utf16.SafePrefixIsLongest | packages/core/src/text.ts:19-28 | The safe prefix of well-formed text is well-formed, within the bound, and no longer prefix is both. |
| Utf16.SafeSuffixIsLongest | packages/core/src/text.ts:30-39 | The safe suffix of well-formed text is well-formed, within the bound, and no longer suffix is both. |
| Utf16.CutsRespectBound | packages/core/src/text.ts:19-39 | On arbitrary text the suffix stays within every bound; the prefix does exactly when the bound is not negative (a negative one counts from the end). |
| ToolOutput.Append | packages/core/src/events.ts:37-53 | Whatever is appended to whatever, the result has at most 65536 units. |
| ToolOutput.AppendKeepsClosedForm | packages/core/src/events.ts:37-53 | Appending a chunk to the shown form of a stream gives the shown form of the longer stream; a stream that itself starts with the omission marker is no exception. |
| ToolOutput.ChunkedStream | packages/core/src/events.ts:37-53 | Folding the append over any chunks gives the whole stream, or marker and bounded tail, with the exact condition for each. |
| ToolOutput.ChunkingInvariance | packages/core/src/events.ts:37-53 | However a well-formed stream is split, what is shown is the whole of it or the marker with its longest well-formed tail that fits; it is well-formed and bounded. |
| ToolOutput.SplitsAgreeIff | packages/core/src/events.ts:39-42 | Two splits of one stream show the same text exactly when they agree on whether to truncate (or the stream spells its own truncation). |
| ToolOutput.SplitCanMatter | packages/core/src/events.ts:39-42 | A concrete stream of 65523 units is shown whole when it comes in two pieces and truncated when it comes in one. |
| ToolOutput.TruncateThenAppend | packages/core/src/events.ts:29-53 | Truncating a chunk before appending it is harmless exactly when it fits or its cut splits no pair. |
| ToolOutput.PipelineStream | packages/core/src/events.ts:29-53 | The whole pipeline, each chunk truncated on its way in and then appended, in closed form for every stream whose chunks begin on character boundaries: the whole stream, or the marker and its tail, with one stray line feed between them in exactly described streams. |
| ToolOutput.PipelineAgreesIff | packages/core/src/events.ts:29-53 | The pipeline shows what appending the raw chunks would, if and only if no stray line feed is there and the two agree on whether to truncate (or the stream spells its own truncation); they disagree exactly when a first chunk alone reaches the body limit of a stream that fits. |
| CoreEvents.CoalesceIsPerStream | packages/core/src/events.ts:396-427 | Two events merge exactly inside one stream; the result stays in it and its text is the concatenation; events of streams are exactly those that may wait for a frame. |
| CoreEvents.CompactIsBounded | packages/core/src/events.ts:368-382 | What progress and results of tools show, a peer included, is all of a text that fits, and otherwise the marker and as much of its end as fits without splitting a pair; every other event and field is left alone; a second time changes nothing. |
| CoreEvents.ProgressIsAppended | packages/core/src/events.ts:396-427 | Compaction truncates the output of progress, merging appends it, and a stream holds the progress of one tool only. |
| ProgressRuns.GroupShowsOutput | packages/core/src/events.ts:392-427 | Grouping turns every maximal run of one tool into one event that shows what the chunk pipeline shows of the raw outputs, and makes no other progress. |
| OutputParts.PartsStream | packages/core/src/events.ts:37-53 | Output that arrives in parts, each merged and truncated on its own, and is appended part to part, in closed form. |
| OutputParts.PartsAgreeIff | packages/core/src/events.ts:37-53 | However raw output was cut into parts, what is shown in the end is what appending the raw chunks would show, if and only if the last part was not truncated inside a pair and parts and chunks agree on whether to truncate. |
| OutputParts.MergingCanMatter | packages/core/src/events.ts:39-42 | Two chunks that are shown whole one by one are shown as cut where they came merged. |
| OutputParts.SegmentedParts | packages/core/src/events.ts:392-427 | What segment after segment shows of a tool are parts of its raw output, however the segments were cut. |
| Runs.GroupMergesRuns | packages/core/src/events.ts:392-427 | Streaming equals batch: pushing element by element yields the merges of the maximal runs of the list. |
| Runs.MaximalRunsUnique | packages/core/src/events.ts:392-427 | There is one way only to cut a list into maximal runs. |
| Runs.GroupKeepsContent | packages/core/src/events.ts:392-427 | Grouping neither loses, repeats nor reorders content that merging concatenates. |
| EventBatcher.CombineIsLawful | apps/desktop/src/main/runtime-event-batcher.ts:65-79 | Envelopes merge exactly within one runtime, session and stream, and a merged one links onwards like its newest part. |
| EventBatcher.RuntimeEventBatcher.Push | apps/desktop/src/main/runtime-event-batcher.ts:46-57 | An event that may wait, below the input cap, is gathered: nothing is published, one more input is counted and a timer is live. Any other one is published at once, in one batch with all that was pending, and nothing is left pending. |
| EventBatcher.RuntimeEventBatcher.Flush | apps/desktop/src/main/runtime-event-batcher.ts:59-63 | Publishes what is pending as one batch, if anything, and leaves nothing pending and no timer behind. |
| EventBatcher.RuntimeEventBatcher.Append | apps/desktop/src/main/runtime-event-batcher.ts:65-79 | The input is merged into the last pending envelope where that is possible and put behind it otherwise; pending stays the grouped form of the inputs since the last publication. |
| EventBatcher.RuntimeEventBatcher.ScheduleFlush | apps/desktop/src/main/runtime-event-batcher.ts:81-89 | A timer that runs is kept; otherwise a new generation is scheduled. |
| EventBatcher.RuntimeEventBatcher.TimerFired | apps/desktop/src/main/runtime-event-batcher.ts:84-88 | The current timer publishes what is pending; a stale callback changes nothing at all. |
| EventBatcher.RuntimeEventBatcher.CancelFlush | apps/desktop/src/main/runtime-event-batcher.ts:91-97 | No timer is live afterwards. |
| EventBatcher.RuntimeEventBatcher.FlushPending | apps/desktop/src/main/runtime-event-batcher.ts:99-105 | Everything pending becomes one batch; nothing pending, nothing published. |
| EventBatcher.StreamKeepsContent | apps/desktop/src/main/runtime-event-batcher.ts:46-105 | Published batches followed by pending carry the text of every stream and every other event of the inputs, each once and in order; the bounded output of tools is accounted for by BatchesShowOutput. |
| EventBatcher.StreamKeepsText | apps/desktop/src/main/runtime-event-batcher.ts:46-105 | In every runtime, session and stream the envelopes have the text of the inputs. |
| EventBatcher.StreamCarries | apps/desktop/src/main/runtime-event-batcher.ts:65-79 | Every envelope has runtime, session, number and time of one of the inputs. |
| EventBatcher.BatchesShowOutput | apps/desktop/src/main/runtime-event-batcher.ts:65-79 | The tool output in a batch: for every maximal run of progress of one tool one envelope with the bounded tail of the raw outputs, and no other progress. |
| EventBatcher.StreamIncreases | apps/desktop/src/main/runtime-event-batcher.ts:65-79 | Sequence numbers of published and pending envelopes increase strictly, across batches. |
| EventBatcher.BatchesMergeRuns | apps/desktop/src/main/runtime-event-batcher.ts:65-79 | Every batch is the merge of its inputs cut into maximal runs of one stream. |
| EventBatcher.ProgressRunIsBoundedTail | packages/core/src/events.ts:406-412 | A run of progress events of one tool shows what the chunk pipeline shows of the raw outputs. |
| Timeline.ViewTimeline.Capture | apps/desktop/src/main/view-timeline.ts:48-77 | What each raw event does to the records and the writes: ends of steps, of the main agent and of either peer, empty their own channel and hand over all of it, its output text or nothing, to its own writer; what belongs to a step is drafted on its channel, merged or under a new capture number; idling empties all channels; other visible facts are written at once, and the rest leaves no trace. Without a journal nothing happens. |
| Timeline.ClassifiedDoes | apps/desktop/src/main/view-timeline.ts:48-77 | For every raw event by its kind: carrying out what it is classified as does to records and writes what is stated of that event. |
| Timeline.ViewTimeline.BufferEvent | apps/desktop/src/main/view-timeline.ts:153-174 | Drafts an event: merged with the last one of its channel or opened under a new capture number; another writer starts the draft afresh. |
| Timeline.ViewTimeline.WriteThrough | apps/desktop/src/main/view-timeline.ts:72-76 | An event outside a step is handed to the journal at once. |
| Timeline.ViewTimeline.CommitStep | apps/desktop/src/main/view-timeline.ts:176-184 | Hands the whole draft of the channel to its journal as one batch and ends the step. |
| Timeline.ViewTimeline.RetainOutput | apps/desktop/src/main/view-timeline.ts:186-196 | Hands over only the output text of the draft and ends the step. |
| Timeline.ViewTimeline.DiscardStep | apps/desktop/src/main/view-timeline.ts:198-200 | Ends the step without a write. |
| Timeline.ViewTimeline.DiscardAll | apps/desktop/src/main/view-timeline.ts:79-81 | Ends the steps of all three channels without a write. |
| Timeline.ViewTimeline.WriteSettled | apps/desktop/src/main/view-timeline.ts:202-208 | A settled write leaves the set of writes in flight; unless one was refused, journals plus writes in flight are all writes ever issued, per journal and in order. |
| Timeline.ViewTimeline.PendingSnapshot | apps/desktop/src/main/view-timeline.ts:135-151 | Returns the drafts of a writer, all channels merged by capture order, with their times. |
| Timeline.ViewTimeline.ConversationCopy | apps/desktop/src/main/view-timeline.ts:119-133 | Proceeds exactly with no write in flight and no fewer events projected than the journal holds; then the copy holds every committed batch and every draft. |
| Timeline.ViewTimeline.SnapshotCopy | apps/desktop/src/main/view-timeline.ts:99-117 | Lacks the second look at the writes in flight: the copy misses exactly the batches then in flight, and is complete if and only if there are none. |
| Timeline.LateWriteIsMissed | apps/desktop/src/main/view-timeline.ts:105-107 | A concrete history: the flush ends idle, an event is captured before the rest goes on, and the copy lacks its write. |
| Timeline.NumbersAligned | apps/desktop/src/main/view-timeline.ts:153-174 | Capture numbers, times and merged events of a channel are equally many after any history. |
| Timeline.OrdersFollowOrigins | apps/desktop/src/main/view-timeline.ts:166-173 | Capture numbers order merged events, across channels, by where in the history they began. |
| Timeline.OrdersDisjoint | apps/desktop/src/main/view-timeline.ts:166-173 | No two channels ever share a capture number. |
| Timeline.SnapshotMergesChannels | apps/desktop/src/main/view-timeline.ts:135-151 | A snapshot holds every merged draft event of its writer exactly once, strictly in capture order. |
| StepTransactions.DiscardedStepLeavesNoTrace | apps/desktop/src/main/view-timeline.ts:198-200 | Over whole histories with any interleaving of channels: a step that ends in a discard might never have been drafted, for all writes, all later drafts and all later snapshots. |
| StepTransactions.SnapshotsAgree | apps/desktop/src/main/view-timeline.ts:135-151 | Snapshots depend on drafts and the order of captures alone, not on the capture numbers given out. |
| StepTransactions.CommittedStepIsWhole | apps/desktop/src/main/view-timeline.ts:176-184 | A committed step adds exactly one batch holding all it drafted, merged by stream; an empty one adds none. |
| StepTransactions.CommittedContent | apps/desktop/src/main/view-timeline.ts:153-184 | The committed batch shows what was drafted: each fact once, the text of each stream in full, in order; the output of tools is accounted for by CommittedOutput. |
| StepTransactions.CommittedOutput | apps/desktop/src/main/view-timeline.ts:153-184 | The tool output of a draft and of its batch: for every maximal run of one tool one event with the bounded tail of the raw outputs, and no other progress. |
| StepTransactions.RetainedContent | apps/desktop/src/main/view-timeline.ts:186-196 | A retained step keeps output text only, and all of it. |
| ResumeSeam.Host.Emit | apps/desktop/src/main/index.ts:455-472 | Publishing and broadcasting an event is one step: it takes the next number; the timeline captures it exactly if it comes from the observed runtime, is to be shown and has a journal; and if delivered it goes to the batcher under its own runtime, session, time and number, compacted. |
| ResumeSeam.Host.TimerFired | apps/desktop/src/main/runtime-event-batcher.ts:84-88 | A timer amounts to a flush or to nothing. |
| ResumeSeam.Host.ReadRuntimeEventBoundary | apps/desktop/src/main/index.ts:2222-2226 | Flushes the batcher and returns the number of the last event. |
| ResumeSeam.Host.ConversationAt | apps/desktop/src/main/view-timeline.ts:119-133 | Proceeds under the condition of ConversationCopy, and then copy and boundary belong to one and the same state of the host. |
| ResumeSeam.BoundaryState | apps/desktop/src/main/index.ts:455-472 | At a boundary read the number read is the count of events, and all of them lie in closed batches numbered up to it. |
| ResumeSeam.DeliveredAre | apps/desktop/src/main/index.ts:455-472 | In every run each delivered step has its place among the inputs of the batcher, with its own runtime, session, time and compacted event and the number of emits up to it, and there are as many inputs as deliveries. |
| ResumeSeam.CapturedAre | apps/desktop/src/main/desktop-session-runtime.ts:310-314 | In every run each emit of the observed runtime that is to be shown and has a journal has its place among the captures, and there are no others. |
| ResumeSeam.BatchesEndInTime | apps/desktop/src/main/runtime-event-batcher.ts:46-57 | In every run a batch ends with an event that may not wait, at the input cap, or by a flush or timer, and not sooner; all its inputs but the last may wait, and so may everything pending, which is below the cap. |
| ResumeSeam.ExactSeam | apps/desktop/src/main/index.ts:2222-2226 | For every run before and after a boundary: the copy covers exactly the captures before it, the envelopes above it are those of a log whose inputs are exactly what was delivered after it, and nothing published merges both sides. On either side every envelope has runtime, session, time and number of one step of that side, and each runtime, session and stream has the text its steps emitted. |
| ResumeSeam.SeamShowsOutput | apps/desktop/src/main/index.ts:2222-2226 | Beyond the boundary every batch, and what is pending, shows for each maximal run of one tool the bounded tail of the raw outputs emitted after it. |
| CopiedOutput.CommittedOutputs | apps/desktop/src/main/view-timeline.ts:176-200 | The journal of a writer shows of a tool what the drafts committed to it show; retained and discarded steps and single writes add none. |
| CopiedOutput.SnapshotOutputs | apps/desktop/src/main/view-timeline.ts:135-151 | The snapshot of a writer shows of a tool what its draft of the main channel shows, however the channels are merged. |
| CopiedOutput.CopyParts | apps/desktop/src/main/view-timeline.ts:119-133 | What a copy shows of a tool are parts of the raw output of exactly the steps it holds. |
| ResumeSeam.SeamShowsTool | apps/desktop/src/shared/conversation-state.ts:363-367 | Across the boundary, the copy taken there and then everything numbered above it, each appended: what is shown of a tool is the closed form of the raw output of the steps copied and of what was delivered after, with the parts it came in, and equals appending the raw chunks under the exact condition. |
| HistoryProjection.ConversationHistoryProjection.Project | apps/desktop/src/main/conversation-history.ts:41-52 | However often projections are interrupted and interleaved, the state is the fold of exactly the events counted. |
| HistoryProjection.ConversationHistoryProjection.UpToDate | apps/desktop/src/main/conversation-history.ts:23-39 | With as many events counted as there are, the state is the projection of the whole list. |
| HistoryPaging.HistoryWorkStarts | apps/desktop/src/main/conversation-history.ts:100-114 | The loop computes the scan of the blocks it is specified by. |
| HistoryPaging.ScanIsGood | apps/desktop/src/main/conversation-history.ts:100-114 | Work starts begin with 0, ascend strictly, and each but the first directly follows the end of a work. |
| HistoryPaging.WorkStartsIff | apps/desktop/src/main/conversation-history.ts:100-114 | Exactly where works start: at the beginning, and behind every end of a work that is followed, before the next end, by a user message that does not just go on with the side conversation of the message before it. |
| HistoryPaging.WindowOpensAtWork | apps/desktop/src/main/conversation-history.ts:56-74 | Every page, with any target and restored position, opens at a work start, strictly before its end unless that is 0. |
| HistoryPaging.WindowOpens | apps/desktop/src/main/conversation-history.ts:56-74 | Where a page opens, for every request: with 20 works, 100 when a block is looked for, or all there are; then no later than at the work of the block to restore; and exactly at the work of the block looked for if that lies between this opening and the end. |
| HistoryPaging.RestoredPage | apps/desktop/src/main/conversation-history.ts:67-70 | Without a block to look for, a page contains the block to restore if that is before its end, opens at the latest work start neither after that block nor after the opening of the page without it, and is never shorter than that page. |
| HistoryPaging.FirstPage | apps/desktop/src/main/conversation-history.ts:56-98 | The latest window is the loaded state from its start on. |
| HistoryPaging.PrependPage | apps/desktop/src/shared/conversation-history.ts:36-54 | Prepending the page that ends where the loaded part begins loads exactly that much more: blocks, shifted turn indexes, expanded identities and pending step. |
| HistoryPaging.LoadMoreIsPrependedWindow | apps/desktop/src/shared/conversation-history.ts:36-54 | Each further page starts strictly earlier, so loading ends. |
| HistoryPaging.LoadedIffReloadable | apps/desktop/src/main/conversation-history.ts:75-97 | What has been loaded in the end is the full state exactly when that is reloadable: expanded identities belong to blocks, turn starts lie in range, the pending turn in the first window, and the pending step extends the blocks before it. |
| HistoryPaging.PagingRoundTrip | apps/desktop/src/main/conversation-history.ts:56-98 | The latest window with every earlier page prepended rebuilds the blocks always, and the whole state if and only if it is reloadable. |
| HistoryPaging.PendingTurnLostIff | apps/desktop/src/main/conversation-history.ts:90-94 | Of every conversation: the pages bring a pending turn back if and only if it begins in the works of the latest page; otherwise all blocks come back without it. |
| HistoryPaging.PendingTurnIsLost | apps/desktop/src/main/conversation-history.ts:90-94 | A family of conversations, one for each number of works above a page, with a turn pending since the first: not reloadable, and returned exactly without the turn. |
| HistoryPaging.WindowStartStable | apps/desktop/src/main/conversation-history.ts:56-74 | Where a page opens, with any target and restored position, depends on nothing after the page. |
| HistoryPaging.PagesAreStable | apps/desktop/src/main/conversation-history.ts:56-98 | A page that ended at a work boundary is the same whatever happened to the conversation after it: blocks and earlier mark always, the whole view where the two conversations say the same of what lies before that end. |
| Sections.ConversationSections | apps/desktop/src/shared/conversation-sections.ts:28-48 | The loop over durations computes the sections of the blocks. |
| Sections.AppendTail | apps/desktop/src/shared/conversation-sections.ts:43-47 | The tail becomes one active section, or single blocks when no work runs or no final text is there yet. |
| Sections.AppendCompletedWork | apps/desktop/src/shared/conversation-sections.ts:118-132 | Leading notices stay in front; the rest becomes one completed work. |
| Sections.AppendActiveWork | apps/desktop/src/shared/conversation-sections.ts:102-116 | Appends an active work exactly when the work has a terminal response. |
| Sections.AppendBlocks | apps/desktop/src/shared/conversation-sections.ts:161-165 | Every block becomes a section of its own, in order. |
| Sections.WorkSection | apps/desktop/src/shared/conversation-sections.ts:118-146 | A work that has ended is one section, known by the input of its first message, its first block or its boundary; the notices before its first user message stand in front of it, one section each. |
| Sections.TailSections | apps/desktop/src/shared/conversation-sections.ts:102-116 | What has not ended is shown block by block, unless a work runs and has come to a final text; then it is one active work behind the notices before its first user message. |
| Sections.SectionsDistribute | apps/desktop/src/shared/conversation-sections.ts:28-48 | Where a work has ended, the sections of a conversation are those of its parts. |
| Sections.PagesKeepSections | apps/desktop/src/main/conversation-history.ts:80-84 | Wherever a history page may open, the sections before it and of it together are those of the whole. |
| Sections.WorkKeepsKinds | apps/desktop/src/shared/conversation-sections.ts:148-159 | Splitting work into user, activity and final parts keeps each kind in its order. |
| Sections.SectionsAreTyped | apps/desktop/src/shared/conversation-sections.ts:148-159 | In every section users, activity and final answers are kept apart, an active work has a final answer, and a completed one carries the fork of its duration. |
| Sections.SectionsConserve | apps/desktop/src/shared/conversation-sections.ts:28-48 | Flattened again, the sections hold the blocks of each kind in their original order. |
| Sections.SectionsConserveAll | apps/desktop/src/shared/conversation-sections.ts:28-48 | Flattened again, the sections hold every block exactly once. |
| WorkspaceMutations.WorkspaceMutations.Run | apps/desktop/src/main/workspace-retention.ts:17-23 | Chains a mutation behind the latest one of its key. |
| WorkspaceMutations.WorkspaceMutations.Start | apps/desktop/src/main/workspace-retention.ts:18-18 | A mutation begins only when its predecessor has settled. |
| WorkspaceMutations.WorkspaceMutations.Settle | apps/desktop/src/main/workspace-retention.ts:19-19 | Success and failure both let the next mutation go on. |
| WorkspaceMutations.WorkspaceMutations.Forget | apps/desktop/src/main/workspace-retention.ts:21-21 | The key is forgotten only if no later mutation has taken it over, and that never breaks the chain. |
| WorkspaceMutations.WorkspaceMutations.EarlierSettled | apps/desktop/src/main/workspace-retention.ts:17-23 | A mutation that may run finds every earlier one of its key settled, however many keys were forgotten in between. |
| WorkspaceMutations.WorkspaceMutations.OneAtATime | apps/desktop/src/main/workspace-retention.ts:13-23 | Of one key at most one mutation is running. |
| WorkspaceMutations.WorkspaceMutations.Progress | apps/desktop/src/main/workspace-retention.ts:13-23 | A mutation waits for nothing but earlier ones of its own key. |
| ManagedWorkspaces.PlanValid | apps/desktop/src/main/workspace.ts:81-233 | What a mutation decides after reading a manifest never gives up a session but the one being detached and never makes an ill-formed manifest. |
| ManagedWorkspaces.StepKeepsInv | apps/desktop/src/main/workspace.ts:81-233 | Every atomic step of creation, mutations, user programs, failures and crashes keeps the invariant. |
| ManagedWorkspaces.RetentionMeansNoSessions | apps/desktop/src/main/managed-workspace-store.ts:157-174 | In every run a retained workspace has no session. |
| ManagedWorkspaces.MutationsAreSerial | apps/desktop/src/main/workspace.ts:81-136 | In every run each mutation works on the manifest that is stored: no update is lost. |
| ManagedWorkspaces.FilesGoOnlyByExplicitDelete | apps/desktop/src/main/managed-workspace-store.ts:62-75 | A file the user spares goes only through a deletion that was asked for and is unprotected, and then no other session refers to the workspace. |
| ManagedWorkspaces.DirectoryGoesOnlyUnreferenced | apps/desktop/src/main/workspace-retention.ts:45-57 | The manager takes a directory away, even an empty one, only when no session but the one being detached refers to it. |
| ManagedWorkspaces.SessionsLeaveOnlyByDetach | apps/desktop/src/main/workspace.ts:139-181 | Neither cleanup nor other mutations take a reference away. |
| ManagedWorkspaces.AttachedIsSafe | apps/desktop/src/main/workspace.ts:210-233 | Over every run: a session that has not asked to be detached keeps its reference, its directory, be it empty or not, and every file the user spares. |
| ManagedWorkspaces.NothingLostUnasked | apps/desktop/src/main/workspace.ts:220-233 | Over every run in which nobody asks for deletion no file is lost. |
| ManagedWorkspaces.AttachOutcome | apps/desktop/src/main/workspace.ts:81-89 | Undisturbed, attaching adds the reference and ends a retention, and changes nothing the second time. |
| ManagedWorkspaces.DetachOutcome | apps/desktop/src/main/workspace.ts:210-233 | Undisturbed, a detachment that does not delete: shared workspaces lose only the reference; the last one leaves nothing of an unprotected empty directory, and otherwise a retention record with all files; without an acceptable name, and with something else in place of the directory, all stays as it is. |
| ManagedWorkspaces.SharedDetachOutcome | apps/desktop/src/main/workspace.ts:210-219 | A shared workspace loses only the reference even where deletion was asked for, and who is not attached changes nothing. |
| ManagedWorkspaces.RemoveDraftOutcome | apps/desktop/src/main/workspace.ts:104-113 | A draft without files goes, one with files is retained, and anything but a draft is left as it is. |
| ManagedWorkspaces.CleanupOutcome | apps/desktop/src/main/workspace.ts:138-181 | Cleanup adds the references it is told of, lets go of what nobody refers to, and leaves retained workspaces and drafts alone. |
| ManagedWorkspaces.RenameOutcome | apps/desktop/src/main/workspace.ts:194-200 | Renames a retained workspace and nothing else. |
| ManagedWorkspaces.DeleteOutcome | apps/desktop/src/main/managed-workspace-store.ts:62-75 | A deletion asked for by the last session or of a retained workspace can be carried through to the end. |
| ManagedWorkspaces.DeleteRefused | apps/desktop/src/main/workspace.ts:202-208 | What is not retained is not deleted as such. |
| ManagedWorkspaces.CreateOutcome | apps/desktop/src/main/managed-workspace-store.ts:32-60 | A creation leaves an empty directory and a manifest without sessions; where something is in place already, or the directory cannot be made, it leaves everything as it was. |
| ManagedWorkspaces.RestoreOutcome | apps/desktop/src/main/workspace.ts:69-79 | A creation cut short by a crash is a draft again after the restart exactly if the directory is there. |
| ManagedWorkspaces.CrashOutcome | apps/desktop/src/main/workspace.ts:138-181 | After a crash, whatever was queued or running, the cleanup at the next start acts on the manifest as it is on disk. |
| WorkspacePaths.ContainsIsPrefix | apps/desktop/src/main/workspace-path.ts:16-19 | Containment is the prefix order of segments under one root. |
| WorkspacePaths.OverlapIsSharedPath | apps/desktop/src/main/workspace-path.ts:12-14 | Directories overlap exactly when some path lies in both. |
| WorkspacePaths.PlannedDirectoriesDisjoint | apps/desktop/src/main/managed-workspace-store.ts:27-30 | Planned directories of different workspaces never overlap. |
| WorkspaceLifecycle.WorkspaceLifecycle.TryBegin | apps/desktop/src/main/workspace-lifecycle.ts:49-58 | A cleanup begins exactly when no overlapping one runs, and never replaces the entry of another. |
| WorkspaceLifecycle.WorkspaceLifecycle.Inspect | apps/desktop/src/main/workspace-lifecycle.ts:178-182 | Shared exactly when the record has another session or a counted reference overlaps the directory. |
| WorkspaceLifecycle.WorkspaceLifecycle.Release | apps/desktop/src/main/workspace-lifecycle.ts:97-106 | The detachment asked for may delete files exactly when the user said so, no other session is on record and no counted reference overlaps; it goes into the queue of the workspace. |
| WorkspaceLifecycle.WorkspaceLifecycle.DeleteRetained | apps/desktop/src/main/workspace-lifecycle.ts:143-150 | The deletion of a retained workspace is asked for exactly when no session is on record and no reference overlaps. |
| WorkspaceLifecycle.WorkspaceLifecycle.Advance | apps/desktop/src/main/workspace-retention.ts:13-23 | Whatever a workspace does, and whatever others ask of it but deletions, leaves no deletion under way that its cleanup did not ask for. |
| WorkspaceLifecycle.WorkspaceLifecycle.Finish | apps/desktop/src/main/workspace-lifecycle.ts:59-62 | Removes exactly the cleanup that ends, after what it asked for is over. |
| WorkspaceLifecycle.WorkspaceLifecycle.Select | apps/desktop/src/main/workspace-lifecycle.ts:39-43 | A directory is selected exactly when it overlaps no running cleanup. |
| WorkspaceLifecycle.WorkspaceLifecycle.CleanupIsAlone | apps/desktop/src/main/workspace-lifecycle.ts:49-63 | While an unshared directory is cleaned, no path in it is used by a counted reference or another cleanup. |
| WorkspaceLifecycle.WorkspaceLifecycle.DeletionIsAlone | apps/desktop/src/main/workspace-lifecycle.ts:97-106 | In every state cleanups and managed workspaces can reach together: when a file the user spares goes, the running cleanup of its very directory asked for it, only the session given up refers to the workspace, and no counted reference or other cleanup has a path in that directory. |
| Worktrees.ActKeepsInv | apps/desktop/src/main/worktree-manager.ts:182-326 | Every operation of attaching, claiming, detaching, renaming, retaining and removing keeps the invariant. |
| Worktrees.StepKeepsInv | apps/desktop/src/main/worktree-manager.ts:145-346 | Every event, leases from outside the queue and crashes included, keeps it. |
| Worktrees.AttachedIsSafe | apps/desktop/src/main/managed-worktree-registry.ts:69-133 | Over every run: a session that has not asked to be detached keeps its reference and its worktree. |
| Worktrees.LeasedIsSafe | apps/desktop/src/main/worktree-manager.ts:263-333 | Over every run: a lease that was there when a removal looked protects the checkout until it is released. |
| Worktrees.RemovalUnderLease | apps/desktop/src/main/worktree-manager.ts:280-326 | Where a removal takes a checkout away every lease arrived from outside the queue after it had looked, and no session refers to the worktree. |
| Worktrees.LeaseLostIff | apps/desktop/src/main/worktree-manager.ts:145-154 | The exact condition: a lease that arrives from outside the queue can lose its checkout in some continuation, if and only if the running removal is past its look at the leases and its remaining guards have nothing to refuse. |
| Worktrees.NotDoomedIsSafe | apps/desktop/src/main/worktree-manager.ts:263-333 | Over every run: a lease taken while no removal is past all its guards keeps the checkout until it is released. |
| Worktrees.LeaseOfNothing | apps/desktop/src/main/worktree-manager.ts:145-154 | A lease that arrives when the directory is gone leases nothing from then on, and loses the manifest too. |
| Worktrees.ArrivalDuringRemoval | apps/desktop/src/main/worktree-manager.ts:292-326 | A lease that arrives after the look goes under within two steps, be it before or after the status is read and whatever the manifest says. |
| Worktrees.LeaseRaceIsReachable | apps/desktop/src/main/worktree-manager.ts:101-103 | A concrete run reaches that state: a cleanup runs between the manifest and the lease of a creation. |
| Worktrees.UnsavedWorkIsKept | apps/desktop/src/main/worktree-manager.ts:292-326 | Without a deletion asked for, a dirty checkout goes only where a detachment had found the directory empty, and a detached HEAD away from its base also if it was moved after the status was read. |
| Worktrees.WorkLostIff | apps/desktop/src/main/worktree-manager.ts:182-194 | The exact condition: with no deletion asked for, plain detachments included, what the user leaves in the worktree goes in some continuation, if and only if it is a clean commit away from the base made while the running removal has already read the status, or a detachment that found the directory empty is removing it by force. |
| Worktrees.WorkIsKept | apps/desktop/src/main/worktree-manager.ts:182-326 | Over every run without deletions asked for, plain detachments included: work that the running mutation does not endanger is kept. |
| Worktrees.AttachOutcome | apps/desktop/src/main/managed-worktree-registry.ts:69-77 | Undisturbed, attaching adds the reference and ends a retention, and changes nothing the second time. |
| Worktrees.AttachedFromThenOn | apps/desktop/src/main/worktree-manager.ts:156-158 | Once attached, over every run: the session keeps its reference and its worktree until it asks to be detached. |
| Worktrees.CreateOutcome | apps/desktop/src/main/worktree-manager.ts:99-154 | A creation ends with a clean checkout of its base, a manifest without sessions and a lease; a restored draft takes a lease exactly if nobody refers to it or retains it. |
| Worktrees.RenameOutcome | apps/desktop/src/main/managed-worktree-registry.ts:176-180 | Renames a retained worktree and nothing else. |
| Worktrees.RetainDraftOutcome | apps/desktop/src/main/managed-worktree-registry.ts:182-186 | Retains a draft nobody refers to under the name of unsent drafts, and leaves every other worktree as it is. |
| Worktrees.CrashOutcome | apps/desktop/src/main/worktree-manager.ts:267-326 | After a crash, whatever was leased, queued or running, a removal succeeds exactly by what is on disk. |
| Worktrees.ClaimOutcome | apps/desktop/src/main/managed-worktree-registry.ts:79-94 | Resuming repairs only a manifest without sessions, never joins those of others, and takes the lease exactly when the session owns the worktree. |
| Worktrees.RemoveOutcome | apps/desktop/src/main/worktree-manager.ts:267-326 | Undisturbed, a removal succeeds exactly without sessions and leases and, unless changes are dropped, with nothing to lose, whatever the directory holds. |
| Worktrees.DeleteRetainedOutcome | apps/desktop/src/main/worktree-manager.ts:204-210 | A retained worktree is deleted on demand unless it is leased; anything else is left as it is. |
| Worktrees.DetachOutcome | apps/desktop/src/main/worktree-manager.ts:182-194 | Undisturbed, every detachment: the last session takes the worktree along exactly when it asks to or there is no checkout, unprotected and unleased; otherwise it is retained as it is, other sessions keep theirs, and without an acceptable name nothing happens. |
| Subagents.SubagentService.Reserve | apps/desktop/src/main/subagent-service.ts:768-774 | Counts up exactly when not closing and below the limit. |
| Subagents.SubagentService.Release | apps/desktop/src/main/subagent-service.ts:776-780 | Counts down and keeps no zero. |
| Subagents.SubagentService.BeginLaunch | apps/desktop/src/main/subagent-service.ts:376-388 | A launch begins exactly when fewer than eight slots are really in use. |
| Subagents.SubagentService.BeginContinue | apps/desktop/src/main/subagent-service.ts:456-471 | Refused as still running exactly when an activation or a preparation has the identity, otherwise for the limit exactly when closing or eight slots are in use. |
| Subagents.SubagentService.Identify | apps/desktop/src/main/subagent-service.ts:400-406 | A fresh identity for a launch in preparation. |
| Subagents.SubagentService.HandOver | apps/desktop/src/main/subagent-service.ts:433-437 | The activation starts exactly when nothing was cancelled, closed, disposed or changed, and can neither exist already nor hit a disposed runtime. |
| Subagents.SubagentService.Abandon | apps/desktop/src/main/subagent-service.ts:444-453 | A failed preparation gives its slot back exactly once. |
| Subagents.SubagentService.FinishPreparation | apps/desktop/src/main/subagent-service.ts:758-761 | A preparation that became an activation leaves without touching the count. |
| Subagents.SubagentService.End | apps/desktop/src/main/subagent-service.ts:640-643 | Slot and claim on the runtime go together, and the claim was there to be given back. |
| Subagents.SubagentService.Forget | apps/desktop/src/main/subagent-service.ts:662-662 | The identity is free only after that. |
| Subagents.SubagentService.ReachEnd | apps/desktop/src/main/subagent-service.ts:612-616 | The run of an activation is over; its slot is still taken. |
| Subagents.SubagentService.AbortParent | apps/desktop/src/main/subagent-service.ts:321-348 | All settlements of the parent are suppressed, what has not reached its end is asked to stop, and nothing is freed. |
| Subagents.SubagentService.Close | apps/desktop/src/main/subagent-service.ts:357-374 | Everything is asked to stop and nothing starts any more. |
| Subagents.SubagentService.Dispose | apps/desktop/src/main/desktop-session-runtime.ts:421-424 | A runtime is disposed only without running subagents. |
| Subagents.SubagentService.WithinLimit | apps/desktop/src/main/subagent-service.ts:763-780 | In every reachable state preparations plus unreleased activations of a parent are at most eight, a count is kept exactly while there are any, and an identity has one preparation at most, beside an activation only the one that became it. |
| Subagents.SubagentService.NeverDisposedUnder | apps/desktop/src/main/desktop-session-runtime.ts:344-354 | No subagent runs on a disposed runtime. |
| WorkBrackets.DesktopSessionRuntime.BeginWork | apps/desktop/src/main/desktop-session-runtime.ts:239-250 | Starts work only when none is open; accepting what was being prepared is no second start. |
| WorkBrackets.DesktopSessionRuntime.FinishWork | apps/desktop/src/main/desktop-session-runtime.ts:263-279 | Closes open work by exactly one fact, or a discard when it was only prepared; outcome, error and fork are those of the current work. |
| WorkBrackets.DesktopSessionRuntime.Emit | apps/desktop/src/main/desktop-session-runtime.ts:196-227 | An event starts work only if it injects a message that starts a turn and none is open, and ends it, by one fact, exactly if it tells an idle or failed agent with no side conversation. |
| WorkBrackets.DesktopSessionRuntime.StopByUser | apps/desktop/src/main/desktop-session-runtime.ts:406-419 | A stop decides the outcome of open work. |
| WorkBrackets.DesktopSessionRuntime.BeginBtwWork | apps/desktop/src/main/desktop-session-runtime.ts:252-256 | A second side conversation is refused. |
| WorkBrackets.DesktopSessionRuntime.BeginQueuedTurn | apps/desktop/src/main/desktop-session-runtime.ts:258-261 | The work of a queued turn is bracketed apart: open work ends and new work starts. |
| WorkBrackets.DesktopSessionRuntime.FinishBtwWork | apps/desktop/src/main/desktop-session-runtime.ts:282-308 | Closes the side conversation once and offers no fork. |
| WorkBrackets.LogSnoc | apps/desktop/src/main/desktop-session-runtime.ts:239-308 | What keeps the history bracketed and its closing facts true. |
| WorkBrackets.DesktopSessionRuntime.FactsAreTrue | apps/desktop/src/main/desktop-session-runtime.ts:239-279 | Between any two starts lies an end. |
| WorkBrackets.OutcomeIff | apps/desktop/src/main/desktop-session-runtime.ts:202-222 | Open work counts as failed, or as stopped, exactly if a failed turn or state, or a stop by the user, is the latest of the two since it began. |
| WorkBrackets.ErrorIff | apps/desktop/src/main/desktop-session-runtime.ts:202-213 | The error of open work is the latest since it began, if no turn has completed after it. |
| WorkBrackets.DesktopSessionRuntime.OutcomesAreEarned | apps/desktop/src/main/desktop-session-runtime.ts:263-279 | Every closing fact tells of the work it closes exactly that: failed or stopped by what came last in it, and the latest error, of failed work alone, if no turn completed after it. |
| WorkBrackets.DesktopSessionRuntime.ForksAreEarned | apps/desktop/src/main/desktop-session-runtime.ts:202-216 | A fork is offered exactly of a turn that completed in the very work being closed, with no error and no other turn end since, when that work closes as completed and not for a side conversation. |
| Navigation.SessionNavigation.Resume | apps/desktop/src/main/session-navigation.ts:26-38 | A new click becomes the target at once; loaded already it goes on to its snapshot, and otherwise waits for the preparation that runs or starts one if none does. |
| Navigation.SessionNavigation.Wake | apps/desktop/src/main/session-navigation.ts:31-46 | A woken request goes on, like a new click, only while it is the target, and is superseded otherwise. |
| Navigation.SessionNavigation.Prepared | apps/desktop/src/main/session-navigation.ts:38-47 | After its preparation a request goes on, is superseded or fails; the slot is free again. |
| Navigation.SessionNavigation.Settle | apps/desktop/src/main/session-navigation.ts:38-41 | A preparation settles once. |
| Navigation.SessionNavigation.Snapshot | apps/desktop/src/main/session-navigation.ts:48-63 | Commits exactly when the snapshot succeeded and the request is still the target. |
| Navigation.SessionNavigation.LatestClickWins | apps/desktop/src/main/session-navigation.ts:26-64 | Commits are in click order, each by the then latest request; a superseded request never commits; the latest is never superseded; one preparation at a time. |
| Navigation.SessionNavigation.AllEnded | apps/desktop/src/main/session-navigation.ts:58-63 | When all requests have ended there is no target and nothing in preparation. |
| Navigation.SessionNavigation.WaitIsServed | apps/desktop/src/main/session-navigation.ts:34-45 | Whoever waits for an unsettled preparation waits for one that some request is awaiting. |
| OperationScheduler.HostOperationScheduler.Enqueue | apps/desktop/src/main/host-operation-scheduler.ts:34-66 | A call joins the queue of its key; one already aborted is rejected at once. |
| OperationScheduler.HostOperationScheduler.Abort | apps/desktop/src/main/host-operation-scheduler.ts:60-64 | A waiting call is rejected at once, a started one is left alone. |
| OperationScheduler.HostOperationScheduler.Start | apps/desktop/src/main/host-operation-scheduler.ts:42-46 | An aborted call is skipped, any other runs. |
| OperationScheduler.HostOperationScheduler.Finish | apps/desktop/src/main/host-operation-scheduler.ts:45-50 | The operation has ended, well or not. |
| OperationScheduler.HostOperationScheduler.Finalize | apps/desktop/src/main/host-operation-scheduler.ts:52-57 | The queue object leaves the map with its last counted call, and only then. |
| OperationScheduler.HostOperationScheduler.Report | apps/desktop/src/main/host-operation-scheduler.ts:67-74 | The caller learns the result unless it was rejected while waiting; nobody is told twice. |
| OperationScheduler.HostOperationScheduler.StartsInOrder | apps/desktop/src/main/host-operation-scheduler.ts:39-50 | What has started found every earlier call of its key over, across queue objects. |
| OperationScheduler.HostOperationScheduler.NoOverlap | apps/desktop/src/main/host-operation-scheduler.ts:9-12 | Operations of one key never overlap. |
| OperationScheduler.HostOperationScheduler.WaitsOnlyForItsKey | apps/desktop/src/main/host-operation-scheduler.ts:9-12 | A call waits for nothing but earlier calls of its key. |
| OperationScheduler.HostOperationScheduler.OneLiveQueue | apps/desktop/src/main/host-operation-scheduler.ts:39-57 | All unfinished calls of a key are in the one queue object of the map. |
| OperationScheduler.HostOperationScheduler.KeptForACall | apps/desktop/src/main/host-operation-scheduler.ts:52-57 | A queue object is kept only while one of its calls is unfinished. |
| RoutingGate.ReadyIff | apps/desktop/src/main/user-message-routing.ts:21-37 | A reservation is ready exactly when all earlier ones are released, in whatever order. |
| RoutingGate.UserMessageRoutingGate.Busy | apps/desktop/src/main/user-message-routing.ts:13-15 | Busy exactly while some reservation is unreleased. |
| RoutingGate.UserMessageRoutingGate.Reserve | apps/desktop/src/main/user-message-routing.ts:21-29 | Takes the next place in the line. |
| RoutingGate.UserMessageRoutingGate.Release | apps/desktop/src/main/user-message-routing.ts:30-35 | Releasing twice is releasing once. |
| RoutingGate.StepKeepsInv | apps/desktop/src/main/user-message-routing.ts:61-97 | Every step of routes and wake-ups, failures and closing included, keeps the invariant. |
| RoutingGate.TurnsSeparateAndRecorded | apps/desktop/src/main/user-message-routing.ts:56-60 | In every run no turn is started while another is outstanding, and every input is recorded right before its delivery. |
| RoutingGate.OneHolder | apps/desktop/src/main/user-message-routing.ts:8-37 | In every run at most one unreleased user of the gate is ready. |
| RoutingGate.NothingBetween | apps/desktop/src/main/user-message-routing.ts:71-87 | From the classification of an input to its delivery nobody else records or delivers. |
| RoutingGate.ClassifiedRightly | apps/desktop/src/main/user-message-routing.ts:56-60 | In every run an input that comes to its turn joins a turn that is outstanding, and starts one exactly when the agent is not busy. |
| RoutingGate.FailureLetsNextStart | apps/desktop/src/main/user-message-routing.ts:72-75 | In every run an input that cannot be recorded leaves no trace: the next in line is ready and starts the turn itself if the agent is still not busy. |
| RoutingGate.FirstWaiterIsReady | apps/desktop/src/main/user-message-routing.ts:21-37 | The first user that has not released is ready. |
| RoutingGate.WakeUpsHoldTheGate | apps/desktop/src/main/session-notification-wakeup.ts:87-98 | In every run a wake-up is delivered only by a queue that is not closed and with every earlier user of the gate released. |
| RoutingGate.JoinsAtTheEnd | apps/desktop/src/main/user-message-routing.ts:21-29 | Inputs and wake-ups of open queues join the line at its end, ready exactly when all before them are released. |
| RoutingGate.WakeUpOutcome | apps/desktop/src/main/session-notification-wakeup.ts:87-98 | A wake-up whose turn has come is delivered, as a turn of its own exactly if the agent is not busy, unless its queue is closed, it is blocked or it fails; in every case the next in line is ready. |
| RoutingGate.ClosedIsSilent | apps/desktop/src/main/session-notification-wakeup.ts:58-65 | Once a queue is closed it takes no more places and no wake-up of it is delivered, whatever happens afterwards. |
| WakeQueue.StepKeepsInv | apps/desktop/src/main/session-notification-wakeup.ts:38-99 | Every step of enqueuing, discarding, closing and serial drains over snapshots keeps the invariant. |
| WakeQueue.SettledOnce | apps/desktop/src/main/session-notification-wakeup.ts:78-93 | In every run a notification is delivered or dropped at most once and does not wait after that. |
| WakeQueue.DrainOutcome | apps/desktop/src/main/session-notification-wakeup.ts:67-99 | From a nudge to the answer, from every idle queue: the drain delivers the notification it takes if there is a place and nothing is in the way, drops what is to be dropped, and otherwise leaves it waiting; other entries are not touched. |
| WakeQueue.LostIff | apps/desktop/src/main/session-notification-wakeup.ts:78-93 | A step loses track of a notification, if and only if it delivers or drops the entry of a key that is pending for that newer notification. |
| WakeQueue.LostForever | apps/desktop/src/main/session-notification-wakeup.ts:38-43 | A notification once lost is never accounted for again. |
| WakeQueue.AllAccountedIff | apps/desktop/src/main/session-notification-wakeup.ts:67-99 | In every run each notification ever enqueued is pending, delivered, reported as dropped, replaced, discarded or closed, if and only if no entry was delivered or dropped while its key was pending for a newer one. |
| WakeQueue.NothingLost | apps/desktop/src/main/session-notification-wakeup.ts:67-70 | Where no key is enqueued again while a drain carries it nothing is lost. |
| WakeQueue.EnqueuedAgainIsLost | apps/desktop/src/main/session-notification-wakeup.ts:72-93 | In every state: what is enqueued under the key at work is lost with the delivery or drop that follows. |
| WakeQueue.LossIsReachable | apps/desktop/src/main/session-notification-wakeup.ts:78-93 | Runs that end in a delivery, and runs that end in a drop, lose a notification. |
| WakeQueue.DrainFinishes | apps/desktop/src/main/session-notification-wakeup.ts:67-99 | From every reachable state a running drain can come to its end by steps of its own, leaving what it does not deliver where it was. |
| WakeQueue.ClosedForGood | apps/desktop/src/main/session-notification-wakeup.ts:58-65 | Once closed a queue has nothing waiting and delivers and drops nothing, whatever happens afterwards; what was waiting has left. |
| WakeQueue.LeftDeliveredIff | apps/desktop/src/main/session-notification-wakeup.ts:45-49 | What was replaced, discarded or closed off and is not settled can still be delivered, if and only if the queue is open and the running drain has it in its snapshot. |
| WakeQueue.DiscardedIsDelivered | apps/desktop/src/main/session-notification-wakeup.ts:45-49 | A run in which a notification is delivered after its session was discarded. |
| RemoteWindow.StepKeepsInv | remote/main.go:131-318 | Every step of readers, writer, client, processes and shutdown keeps the invariant. |
| RemoteWindow.WindowHolds | remote/main.go:292-317 | In every run the table and the slots stay within their limits, and received minus acknowledged is at most eight, plus one for each stray acknowledgement. |
| RemoteWindow.NoStrays | remote/main.go:169-173 | Where no task name is used twice no acknowledgement goes astray. |
| RemoteWindow.ExactWindow | remote/main.go:169-173 | Then the slots are exactly the readers at the queue, the leaked ones and the unacknowledged messages. |
| RemoteWindow.NineUnacknowledged | remote/main.go:169-173 | A reachable state with nine unacknowledged messages, after a name was used again. |
| RemoteWindow.ExitComesLast | remote/main.go:280-287 | Nothing of a task follows its exit message. |
| RemoteWindow.ExitIsFinal | remote/main.go:267-288 | Once the exit message is queued the process is dead, all readers have returned and the task is no longer listed. |
| RemoteWindow.StartedIff | remote/main.go:179-189 | In every run a task is started exactly if the helper goes on, its name is not empty and no task in the table has it, and fewer than 32 are there; it has one reader as a terminal and two otherwise. |
| RemoteWindow.GivesUpIff | remote/main.go:292-317 | A reader that waits for a slot or for the queue gives up exactly after its task was stopped or at shutdown, and a slot it held stays taken. |
| RemoteWindow.StrayIff | remote/main.go:169-173 | An acknowledgement frees a slot of another task exactly when the name it carries is listed for that task by now and the task has a slot taken. |
| RemoteWindow.PotentialIsExact | remote/main.go:292-317 | From every state, without further stray acknowledgements, the potential of a task is the greatest number of its messages that can become unacknowledged, and it is reached. |
| RemoteWindow.ExceedsIff | remote/main.go:169-173 | More than eight can become unacknowledged if and only if the potential exceeds eight; while writer and a reader go on, exactly when more slots were freed than there were acknowledgements and leaks. |
| RemoteWindow.WriterDelivers | remote/main.go:110-129 | As long as the writer has not returned, its own steps bring everything queued to the client, whatever is unacknowledged. |
| RemoteWindow.WriterStays | remote/main.go:110-129 | In every run the writer returns only when the server is closing. |
| RemoteWindow.ReturnedIsSilent | remote/main.go:110-129 | Once the writer has returned at the shutdown nothing reaches the client any more. |
| BrowserDocument.BrowserNavigation.NewDocument | apps/desktop/src/main/browser-navigation.ts:108-114 | The state retained is that of the document the navigation chain left. |
| BrowserDocument.BrowserNavigation.Begin | apps/desktop/src/main/browser-navigation.ts:44-47 | Every earlier request is superseded. |
| BrowserDocument.BrowserNavigation.Fail | apps/desktop/src/main/browser-navigation.ts:54-56 | Only the current request can fail the document. |
| BrowserDocument.BrowserNavigation.BeginLoad | apps/desktop/src/main/browser-navigation.ts:58-65 | Loads only for the current request. |
| BrowserDocument.BrowserNavigation.LoadRejected | apps/desktop/src/main/browser-navigation.ts:65-77 | A load that is superseded, belongs to another document or comes after another error changes nothing. |
| BrowserDocument.BrowserNavigation.Started | apps/desktop/src/main/browser-navigation.ts:116-121 | An unrequested navigation supersedes a request in preparation and replaces any document but a requested one. |
| BrowserDocument.BrowserNavigation.DidNavigate | apps/desktop/src/main/browser-navigation.ts:122-126 | Only a loading document commits, and forgets what it retained. |
| BrowserDocument.BrowserNavigation.DomReady | apps/desktop/src/main/browser-navigation.ts:127-130 | Only a committed document without error becomes ready. |
| BrowserDocument.BrowserNavigation.InPage | apps/desktop/src/main/browser-navigation.ts:131-135 | Restores the document left, if it was ready. |
| BrowserDocument.BrowserNavigation.DidFailLoad | apps/desktop/src/main/browser-navigation.ts:136-138 | A failure of the main frame that is not an abort is recorded. |
| BrowserDocument.BrowserNavigation.Stopped | apps/desktop/src/main/browser-navigation.ts:139-143 | What was not committed by then is interrupted: no requested or loading document stays in progress. |
| BrowserDocument.BrowserNavigation.Check | apps/desktop/src/main/browser-navigation.ts:85-96 | Waiting for a request ends well only while that is the current one and the document is ready without error, in the first two cases of ReadyMeans; waiting for whatever is shown also in the third. Closing, superseding and errors are told in this order. |
| BrowserDocument.LoadingIff | apps/desktop/src/main/browser-navigation.ts:116-126 | Over every list of calls and guest events: the document is loading exactly when a navigation has started and neither another move nor a did-navigate has come since. |
| BrowserDocument.ReadyMeans | apps/desktop/src/main/browser-navigation.ts:34-42 | Over every list of events: ready means that the dom-ready of the last commit came with nothing moving in between; and since then nothing has moved, or the last that moved was a hand-over and an in-page navigation of the main frame came after it, or what moved was interrupted and left a ready document without error. |
| BrowserDocument.HandedOverReadyIff | apps/desktop/src/main/browser-navigation.ts:131-135 | The exact condition for ready with an address handed over whose navigation has not started, nothing being reported: interrupted at the hand-over, or an in-page navigation of the main frame came and the document left was ready and without error. |
| BrowserDocument.BegunIsNotReady | apps/desktop/src/main/browser-navigation.ts:44-47 | With a request that has handed nothing over yet, nothing being reported, the tab is never ready. |
| BrowserDocument.UnderWayReadyIff | apps/desktop/src/main/browser-navigation.ts:116-121 | The exact condition for ready with a navigation under way of which nothing has been reported: its address had been handed over and interrupted, for a ready document left, before it started. |
| BrowserDocument.ReadyWithoutNavigation | apps/desktop/src/main/browser-navigation.ts:131-135 | From every ready tab: an in-page navigation between the hand-over and the start makes the tab ready for the new request, of which nothing has started. |
| BrowserDocument.ReadyTooEarly | apps/desktop/src/main/browser-navigation.ts:139-143 | From every ready tab: a stop between hand-over and start leaves it ready while the new navigation is under way. |
| BrowserDocument.CommittedWithError | apps/desktop/src/main/browser-navigation.ts:127-130 | What is then committed with that error never becomes ready, whatever comes, until something moves. |
| NulRecords.SplitTerminated | apps/desktop/src/main/git-status.ts:5-5 | Splitting terminated records gives them back with one empty record at the end. |
| GitStatus.ParsePorcelainStatus | apps/desktop/src/main/git-status.ts:4-16 | The index loop, which takes one or two records a turn, computes the entries of the records. |
| GitStatus.StatusRoundTrip | apps/desktop/src/main/git-status.ts:4-16 | Parsing undoes printing for every list of valid entries, sources of renames and copies included. |
| GitStatus.EntriesAreRead | apps/desktop/src/main/git-status.ts:4-16 | Whatever the records are, each entry is read from a record of at least four characters, with the record after it as source exactly where its code says so and that is not empty. |
| GitChanges.ParseDiffEntries | apps/desktop/src/main/git-changes.ts:68-93 | The loop over raw and count records computes the specified insertion-ordered map. |
| GitChanges.DiffRoundTrip | apps/desktop/src/main/git-changes.ts:68-93 | Parsing undoes printing for every list of changes without conflict to distinct paths: renames, copies and binaries, in order. |
| GitChanges.RawAgain | apps/desktop/src/main/git-changes.ts:73-81 | A path reported again: the later record takes the place of the earlier one, unless the path is in conflict, which stands. |
| GitChanges.ParseExtends | apps/desktop/src/main/git-changes.ts:68-93 | Whatever the records are: a path has one entry, in the place of its first mention and with nothing missing, and a conflict stands whatever follows. |
| GitChanges.RawPass | apps/desktop/src/main/git-changes.ts:73-81 | The raw records add one file each, in order. |
| GitChanges.StatPass | apps/desktop/src/main/git-changes.ts:82-90 | The count records complete the files, each its own. |
| GitChanges.DigitsRead | apps/desktop/src/main/git-changes.ts:89-89 | Reading a printed number gives it back. |
| Terminals.NextNumber | apps/desktop/src/main/terminal-sessions.ts:57-59 | The smallest number no open terminal has. |
| Terminals.TerminalSessions.Reserve | apps/desktop/src/main/terminal-sessions.ts:54-67 | At most eight terminals, starting ones included, all with different titles; a new one gets the smallest number not in use. |
| Terminals.TerminalSessions.CloseEntry | apps/desktop/src/main/terminal-sessions.ts:172-174 | Removes exactly one terminal. |
| Terminals.TerminalEntry.Spawn | apps/desktop/src/main/terminal-sessions.ts:76-77 | The pty is paused when it comes, whether or not the renderer is ready. |
| Terminals.TerminalEntry.OnData | apps/desktop/src/main/terminal-sessions.ts:79-83 | Output is owed, and pauses the terminal from the high-water mark on. |
| Terminals.TerminalEntry.OnExit | apps/desktop/src/main/terminal-sessions.ts:84-89 | The exit is told at once if the renderer is ready. |
| Terminals.TerminalEntry.Ready | apps/desktop/src/main/terminal-sessions.ts:106-112 | A pending exit is told now, otherwise output starts. |
| Terminals.TerminalEntry.Ack | apps/desktop/src/main/terminal-sessions.ts:124-134 | Only an acknowledgement of what is owed counts; crossing the low-water mark resumes. |
| Terminals.TerminalEntry.NeverStuck | apps/desktop/src/main/terminal-sessions.ts:124-134 | A live, ready terminal with everything acknowledged is paused exactly when the renderer was ready before the pty came and nothing has resumed it since. |
| Terminals.OwedIsBounded | apps/desktop/src/main/terminal-sessions.ts:79-83 | Over the credit of a terminal, which its methods move as stated there: where a paused terminal keeps still, never more than the high-water mark and one chunk is owed in any run, and a paused ready one owes more than the low-water mark, but for a renderer that was ready first. |
| Terminals.StuckIff | apps/desktop/src/main/terminal-sessions.ts:106-112 | In every run a ready terminal is held back with nothing owed exactly when the renderer was ready before the pty came, and then for ever. |

## Left out

- Timeline.ViewTimeline.Capture: a tool's result value and the fields no stage reads are opaque payloads, and recorded events are not validated against their schema.
- Timeline.ViewTimeline.ConversationCopy: the projection of the journal to a state is the module HistoryProjection; the copy here speaks of events, and the count of projected events is a parameter.
- Timeline.ViewTimeline.WriteSettled: a refused write is only noted; the error event it raises, and so its reentry into the timeline, is not modelled.
- EventBatcher.RuntimeEventBatcher.FlushPending: the publisher is recorded, not run; a publisher that pushes or throws is not modelled.
- HistoryPaging.PagingRoundTrip: the arrays a state travels in are sets and maps here, the navigation entries beside a page are left out, and positions are integers.
- Sections.ConversationSections: when work started is an opaque identity; user blocks count as non-terminal.
- ManagedWorkspaces.StepKeepsInv: file system operations are atomic steps, a recursive removal one step per file. The canonical-path check after `mkdir` and a directory swapped for a link between the check and the removal are not modelled; identities are used for one creation each, as random ones are.
- ManagedWorkspaces.DetachOutcome: names are given already trimmed and checked, and retention records carry no time.
- WorkspacePaths.ContainsIsPrefix: paths are roots and segments; case folding and symbolic links are left to the normalisation before.
- WorkspaceLifecycle.WorkspaceLifecycle.Inspect: reading the references is one step, and a selection is the guarded registration of a runtime.
- WorkspaceLifecycle.WorkspaceLifecycle.Release: names are given trimmed and cut, and requests to Git worktrees are not followed further.
- Worktrees.StepKeepsInv: Git is a directory that is missing, empty or a checkout with dirty flag, branch and head; an unusable repository is a failure unless changes are discarded, removal is one step, and the rollback of a failed creation is left out.
- Subagents.SubagentService.End: callbacks into the host are assumed not to throw; manifests, settlement marks and continuations are left out, since the code does not serialise them against each other.
- WorkBrackets.DesktopSessionRuntime.Emit: durations are left out, and the event itself is noted before the facts it causes, which the code publishes first.
- Navigation.SessionNavigation.Snapshot: a commit callback that throws is not modelled.
- OperationScheduler.HostOperationScheduler.Enqueue: the key is given; path normalisation is left out, and so is removing the abort listener.
- RoutingGate.StepKeepsInv: delivery marks the agent busy, as the code demands of its callers; resolving the runtime of a wake-up and other holders of the gate are reservations that may be released at any time.
- RemoteWindow.StepKeepsInv: input, resizing, heartbeats and the control channel's priority are left out; a reader that gets data together with the end of file takes two steps.
- RemoteWindow.StartedIff: working directory, executable and the start of the process are taken to be in order.
- BrowserDocument.BrowserNavigation.Check: the deadline and the polling interval are left out; errors keep their kind and message.
- GitChanges.DiffRoundTrip: numbers are unbounded where the original reads doubles, and absolute paths are left out. Conflicts are not part of the round trip, because their paths are reported more than once; what becomes of them is stated by RawAgain and ParseExtends.
- WakeQueue.StepKeepsInv: a drain takes the entries of its snapshot in any order, which includes that of the original; cloning and the reports of errors are left out.
- Terminals.OwedIsBounded: the bound is stated for a terminal that sends nothing while paused; output in spite of a pause is covered by `OnData`.
- Objects that suspended calls share are named by numbers, and each method is one stretch between two suspensions; wall-clock time, random identities and the scheduling of callbacks are nondeterministic. Protocols whose state is spread over files, processes or goroutines (workspaces, worktrees, gate users, the remote helper) are state machines on values instead of classes.
- Electron, IPC, windows, menus, native calls and DOM scripts; SSH, OAuth, HTTP and encryption: foreign calls.
- Model providers, agent sessions, consensus and the journal's file format: not needed by any property here.
- Settings, caches, key tables, name normalisation and layout.
