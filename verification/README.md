# A verified model of OpenMate's core logic

OpenMate is a Python service: FastAPI endpoints over small in-memory or SQLite cores, and a few sorting
modules. This project models those cores in Dafny and proves what they promise, or the exact condition
under which they keep a promise. `dafny verify dfyconfig.toml` checks all of it.

| file | source | subject |
|---|---|---|
| `MergeSorting.dfy` | `merge_sort.py` | the stable sort, both merge sorts, comparison bounds |
| `QuickSorting.dfy` | `quicksort.py`, `quick_sort.py` | both quicksorts against merge sort |
| `TaskBoard.dfy`, `TaskLifecycle.dfy`, `TaskMatching.dfy`, `TaskEndpoints.dfy` | `src/api/ai_groups.py` | the AI-group task engine |
| `Scoring.dfy`, `ScoreOrder.dfy`, `ScoreSettling.dfy`, `ScoreBook.dfy` | `src/api/ai_groups.py` | trimmed task averages and running capability averages |
| `AcpReaders.dfy`, `AcpMessages.dfy`, `AcpClient.dfy` | `src/acp/proxy.py` | the JSON-RPC client over one pipe |
| `EventStream.dfy`, `EventDelivery.dfy` | `src/api/event_stream.py` | event buffer and fan-out to server-sent-event clients |
| `A2aTasks.dfy` | `src/a2a/task_manager.py` | task manager with interleaved processing and cancelling |
| `Installs.dfy` | `src/api/agents.py` | background installs |
| `ConfigDiff.dfy` | `src/api/diagnostics.py` | the recursive configuration diff |
| `GeneStore.dfy` | `src/api/gene_templates.py` | templates, instances, capabilities and their file |
| `Downloads.dfy` | `src/api/download_plugins.py` | plugin registry and fallback chain |
| `LoopGuards.dfy` | `src/api/chat.py` | the bounded guard cache |
| `Options.dfy`, `Numerals.dfy` | | optional values, and integers as text |

## How the model is built

Pure code is functions. Code that changes things step by step is methods and classes, each proved against
a function on values. Code that interleaves is a state machine: a `State`, a `Step` for every stretch between
two `await`s or `yield`s, a function `Next` (or `Apply`) that says what a step does, and lemmas by induction
over every finite run, in any order of steps. A step that is not possible in a state leaves it unchanged, so a
run is an arbitrary list of steps. The class beside a state machine holds the source's fields, and each of its
methods is proved to take exactly one such step (or a stated sequence of them), and states the new fields besides.
A lemma called `...OnFields` says what a definition that others rest on means in terms of the data alone.

Assumptions, everywhere: identifiers made from a uuid do not collide, a handler runs undisturbed between two
awaits, and a coroutine is not cancelled from outside. Parameters stand for what lies outside: the rounding
function, the reads from a pipe, a plugin's outcome, a command's output, the text a handler returns.

## What turned out not to hold

The code is kept as it is in these places, and the exact condition is proved, with an input that shows the failure.

- The endpoints do not check the status they find, so a call in the wrong order can leave a parent completed with
  an unfinished child, or open although its children are completed. `TaskMatching.MatchedIff` says exactly which
  call on which rows does; following the lifecycle is enough (`TaskMatching.FollowingKeeps`) but not needed. One
  way to fail is a second level of subtasks, above which the cascade does not climb
  (`TaskLifecycle.NestedDelegationStaysOpen`); another is to assign or score a completed child of a completed parent.
- The stored running average depends on the order of the scores as soon as there are seven
  (`ScoreOrder.OrderIgnoredIff`, `Scoring.ProfileDependsOnOrder`), and from 1799 scores on nothing moves it any more
  (`ScoreSettling.SettlesIff`, `ScoreSettling.TenMovesOnes`).
- The streaming reader yields less than the batch reader collects exactly when a chunk lies between the two
  stops (`AcpReaders.StreamIsPrefixOfBatch`), and stops earlier exactly when the last answer is falsy at a quiet pipe,
  or that or no chunk yet at a usage update (`AcpReaders.SameEndIff`, `AcpReaders.EmptyResultLosesChunk`).
- A request of the agent's own is taken for the answer to a call whose message id it prints like, if that call has not
  begun, or will read the pipe and has no answer in it yet (`AcpClient.AcceptsOwnIff`,
  `AcpClient.AgentRequestTakenForAnswer`). A late response is never accepted by another call
  (`AcpClient.NoForeignAnswer`).
- A notification of another call that reaches a prompt after its drain is read as its own
  (`AcpClient.PromptHearsOwnIff`, `AcpClient.LateChunkHeard`).
- The streamed text is not always the message: a failed run may have yielded chunks already, the two readers may stop
  at different reads, and only the batch reader raises on a result that is not a dict or a stale frame that is not an
  object (`AcpMessages.StreamedTextIsMessage`, `AcpMessages.LateChunkLost`, `AcpMessages.OddResultAsksCli`).
- A subscriber can be sent a push twice, if it read it in the buffer and was subscribed before its broadcast
  (`EventDelivery.SentTwiceIff`, `EventDelivery.EventSentTwice`).
- A poll that overfills the buffer evicts the newest events instead of the oldest (`EventDelivery.PollEvictsNewest`,
  `EventDelivery.PollLosesLastPush`).
- Cancelling a task that is being processed does not last (`A2aTasks.CancelIsFinalIffSubmitted`,
  `A2aTasks.CanceledThenCompleted`).
- Install progress can go back (`Installs.ProgressDropsIff`, `Installs.ProgressDrops`).
- The dotted names of the configuration diff can be ambiguous when a key holds a dot
  (`ConfigDiff.DottedInjective`, `ConfigDiff.DottedAmbiguous`).

## Model

| member | source | states |
|---|---|---|
| MergeSorting.MergeIsStableSort | merge_sort.py:25-41 | merging two sorted lists is the stable sort of their concatenation |
| MergeSorting.StableSortIsPermutation | merge_sort.py:7-41 | a stable sort keeps every element exactly as often as the input has it |
| MergeSorting.StableSortUnique | merge_sort.py:7-88 | there is at most one stable sort of a list of keyed elements |
| MergeSorting.MergeSortIsStableSort | merge_sort.py:7-22 | merge_sort returns the stable sort of its argument |
| MergeSorting.SplitAnywhere | merge_sort.py:17-22 | merging stable sorts of any two parts is a stable sort of the whole |
| MergeSorting.MergeSortSplitsAnywhere | merge_sort.py:16-22 | cutting at floor(n/2), at ceil(n/2) or anywhere else gives the same result |
| MergeSorting.StableSortIffMergeSort | merge_sort.py:7-88 | a list is a stable sort of another if and only if it is what merge_sort returns |
| MergeSorting.CeilLog2Exact | merge_sort.py:7-12 | CeilLog2(n) is the least c with n <= 2^c |
| MergeSorting.SortBoundStep | merge_sort.py:16-22 | n*ceil(log2 n) - 2^ceil(log2 n) + 1 solves the recurrence of the two halves and a merge |
| MergeSorting.SortBoundBelowNLogN | merge_sort.py:7-12 | that number is at most n*ceil(log2 n) |
| MergeSorting.SortComparisonsBound | merge_sort.py:7-41 | merge_sort never makes more comparisons than that |
| MergeSorting.MergeInterleaved | merge_sort.py:25-41 | merging every other element of an increasing list with the rest takes all but one comparison |
| MergeSorting.WorstCaseAttained | merge_sort.py:7-41 | the bound is reached: any list of distinct keys has an arrangement that takes exactly that many comparisons |
| MergeSorting.MergeLists | merge_sort.py:25-41 | the two index loops return Merge with exactly MergeComparisons comparisons, at most len(left)+len(right)-1 |
| MergeSorting.MergeSortList | merge_sort.py:7-22 | returns the stable sort with at most n*ceil(log2 n) comparisons |
| MergeSorting.CopyCells | merge_sort.py:66-68 | the first loop of merge_inplace copies the cells to temp |
| MergeSorting.MergeHeads | merge_sort.py:70-78 | the merging loop leaves one run used up, the merged part in place and the rest of the result in temp |
| MergeSorting.MoveRest | merge_sort.py:80-88 | the trailing loops move what is left and touch no other cell |
| MergeSorting.MergeInPlace | merge_sort.py:63-88 | arr[start..end] becomes the merge of its two runs, whatever temp held, no other cell changes, and exactly the comparisons of that merge are made |
| MergeSorting.MergeSortInPlace | merge_sort.py:44-60 | arr[start..end] becomes its stable sort, whatever temp held, no other cell changes, and the comparisons are within the same bound; an empty range changes nothing |
| MergeSorting.MergeSortWholeArray | merge_sort.py:44-60 | with default arguments the array ends up as merge_sort of its old contents |
| QuickSorting.SortedPermutationIsMergeSort | quicksort.py:26-60 | on integers every sorted permutation is what merge_sort returns |
| QuickSorting.BlocksSort | quicksort.py:47-60 | sorting three blocks that are in order among themselves is sorting the outer two |
| QuickSorting.QuicksortIsMergeSort | quicksort.py:26-60 | the list-building quicksort and merge_sort return the same list |
| QuickSorting.Partition | quicksort.py:100-134 | Lomuto partition: pivot in place, at most it on the left, more than it on the right, a rearrangement of arr[low..high] only, high-low comparisons |
| QuickSorting.PartitionedSort | quicksort.py:87-97 | sorting the two sides of a partition sorts the whole |
| QuickSorting.PairsClosedForm | quicksort.py:12-17 | the number of pairs is n(n-1)/2 |
| QuickSorting.QuicksortInPlace | quicksort.py:63-97 | arr[low..high] is sorted as by merge_sort, nothing else changes, with at most n(n-1)/2 comparisons |
| QuickSorting.QuicksortWholeArray | quick_sort.py:13-36 | in place and functional quicksort and merge_sort agree; n(n-1)/2 comparisons, reached on sorted input |
| Scoring.HalfEvenIsRounding | src/api/ai_groups.py:323-327 | rounding half to even is monotone, fixes multiples of 1/100 and moves a value by at most 1/200 |
| Scoring.KthByCount | src/api/ai_groups.py:325-326 | the k-th smallest score is at most b exactly when more than k scores are |
| Scoring.SortMonotone | src/api/ai_groups.py:325-326 | sorting is pointwise monotone |
| Scoring.AverageIgnoresOrder | src/api/ai_groups.py:313-327 | the task average does not depend on the order in which scores arrived |
| Scoring.AverageMonotone | src/api/ai_groups.py:313-327 | raising any scores never lowers the rounded task average |
| Scoring.TrimmedBetween | src/api/ai_groups.py:325-327 | with three or more scores the average lies between the second lowest and the second highest |
| Scoring.AverageWithinOthers | src/api/ai_groups.py:325-327 | with three or more scores, the average stays within the least and the greatest of the scores left after striking out any one |
| Scoring.AverageOfFew | src/api/ai_groups.py:323-324 | one or two scores have their rounded mean as average, none has none |
| Scoring.AverageOfMany | src/api/ai_groups.py:325-327 | three or more have the rounded mean of all but one lowest and one highest |
| Scoring.ProfileError | src/api/ai_groups.py:288-300 | over n updates the rounding errors add up to at most (n-1)(n+2)/400 on the sum |
| Scoring.ProfileNearMean | src/api/ai_groups.py:277-307 | the stored average is within (n+1)/400 - 1/(200n) of the true mean, and task_count is n |
| Scoring.ProfileInRange | src/api/ai_groups.py:277-307 | the stored average stays within any integer range that holds all scores |
| Scoring.ProfileDependsOnOrder | src/api/ai_groups.py:288-300 | the same seven scores end at 1.15 or 1.14 depending on their order |
| ScoreOrder.StoredIsRoundedMean | src/api/ai_groups.py:288-300 | up to six scores the stored average is the rounded mean |
| ScoreOrder.TwoInSixthPlace | src/api/ai_groups.py:288-300 | what a single 2 in sixth place among n-1 ones leaves stored, for every n |
| ScoreOrder.TwoInSeventhPlace | src/api/ai_groups.py:288-300 | and a single 2 in seventh place |
| ScoreOrder.OrderIgnoredIff | src/api/ai_groups.py:277-307 | the stored average of n scores ignores their order if and only if n <= 6 |
| ScoreSettling.RoundsToIff | src/api/ai_groups.py:296-300 | a value is rounded to c hundredths exactly when it is less than half of one away, or half of one and c even |
| ScoreSettling.UnmovedIff | src/api/ai_groups.py:288-300 | one more score leaves the average of n stored as it is if and only if it is less than (n+1)/200 away, or exactly that and the average an even number of hundredths |
| ScoreSettling.SettlesIff | src/api/ai_groups.py:277-307 | the average stored after n scores is final, whatever valid scores follow, if and only if n >= 1799 |
| ScoreSettling.TenMovesOnes | src/api/ai_groups.py:288-300 | before that a 10 after nothing but ones still moves it |
| ScoreBooks.AcceptKeepsMatch | src/api/ai_groups.py:1051-1093 | an accepted score keeps the capability table equal to the running averages of the score log |
| ScoreBooks.RunMatches | src/api/ai_groups.py:1038-1117 | so after every run of accepted scores, key by key |
| ScoreBooks.ScoresOnFields | src/api/ai_groups.py:313-322 | which task and which profile a row of the log counts for |
| ScoreBooks.RunProfiles | src/api/ai_groups.py:1038-1117 | after every run a profile exists exactly when rows score its agent in its group for its capability, both named; it counts those rows, lies in [1,10] and near their mean |
| ScoreBooks.CalculateTaskAvgScore | src/api/ai_groups.py:313-327 | the code that selects, sorts and trims computes the task average |
| ScoreBooks.ScoreBook.UpdateAgentCapability | src/api/ai_groups.py:277-310 | one row is inserted or updated with the rounded running average, the count and the trend |
| ScoreBooks.ScoreBook.ScoreTask | src/api/ai_groups.py:1038-1117 | refuses a missing task and a score outside 1..10 without a change; otherwise logs the score, adds it to the profile of the assigned agent and to no other, and the task becomes scored at the average exactly when enough scorers have scored |
| TaskBoards.ApplyKeepsInv | src/api/ai_groups.py:404-735 | every endpoint keeps: parents exist in the same group and are older, failed rows have used up their iterations |
| TaskBoards.RunInv | src/api/ai_groups.py:404-735 | so after any run of endpoint calls in any order |
| TaskBoards.ChildrenAsGiven | src/api/ai_groups.py:433-450 | each subtask becomes a pending row of the group with its own agent and parent, no result, iteration 0, in the order of the list |
| TaskBoards.RootAsGiven | src/api/ai_groups.py:404-452 | submit_task inserts a root being planned with its children, start_discussion one under discussion; neither has an agent |
| TaskBoards.OthersStay | src/api/ai_groups.py:433-450 | inserting children changes no other row |
| TaskBoards.ScoredAsGiven | src/api/ai_groups.py:1038-1117 | score_task marks the task scored when all have scored, auto-evaluation when it has an agent, and nothing else changes |
| TaskBoards.LineageEndsAtRoot | src/api/ai_groups.py:437-450 | parent links form a forest inside each group: no cycle, one group, ending at a task without a parent |
| TaskBoards.DeleteRemovesWholeTrees | src/api/ai_groups.py:725-735 | delete_group removes whole trees, and exactly those of the group |
| TaskBoards.ApplyIteration | src/api/ai_groups.py:698-722 | an iteration changes only by a failed verification, and rows are born at 0 |
| TaskBoards.IterationCountsRejections | src/api/ai_groups.py:671-722 | in any order of calls iteration counts the rejections, at most max_iterations-1 of which are retries in the whole run, and failed rows have iteration at least max_iterations |
| TaskBoards.IterationNeverDecreases | src/api/ai_groups.py:671-722 | a task's iteration never decreases |
| TaskLifecycle.ApplyKeepsLife | src/api/ai_groups.py:404-722 | a call that follows the lifecycle keeps the shape of roots and children |
| TaskLifecycle.FollowedRunInv | src/api/ai_groups.py:404-722 | after every run that follows it, each child's iteration fits its status, a child worked on has an agent and no result of an earlier attempt, and roots match their children |
| TaskLifecycle.ParentCompletedIffChildrenAre | src/api/ai_groups.py:682-696 | in every such run a parent with children is completed exactly when all its children are |
| TaskLifecycle.TerminalForever | src/api/ai_groups.py:671-722 | a completed or failed child never changes again |
| TaskLifecycle.FailedChildBlocks | src/api/ai_groups.py:671-722 | a failed child keeps its parent from completing, whatever follows |
| TaskLifecycle.ChildRowStep | src/api/ai_groups.py:478-722 | each lifecycle step of a child decreases a measure, and nothing else changes its row |
| TaskLifecycle.ChildStepsBounded | src/api/ai_groups.py:478-722 | each task takes at most 1 + 2*max_iterations lifecycle steps |
| TaskLifecycle.CascadeClimbsOneLevel | src/api/ai_groups.py:687-696 | a passed verification touches the task and its parent only |
| TaskLifecycle.NestedDelegationStaysOpen | src/api/ai_groups.py:923-975 | decide_discussion on a pending subtask leaves a task open although its only child is completed |
| TaskMatching.ReopenIff | src/api/ai_groups.py:478-722 | giving a row a status other than completed keeps parents and children matched if and only if it was not completed, or has no child and no completed parent |
| TaskMatching.PassIff | src/api/ai_groups.py:682-696 | a passed verification keeps them matched exactly when the cascade ends where it should |
| TaskMatching.DecideIff | src/api/ai_groups.py:923-975 | decide_discussion keeps them matched exactly when it does not reopen a completed row whose parent or children say otherwise |
| TaskMatching.MatchedIff | src/api/ai_groups.py:404-735 | for every call in any matched state: the next state is matched if and only if the guard on the rows found holds |
| TaskMatching.AlwaysMatchedIff | src/api/ai_groups.py:404-735 | a run is matched all the way if and only if every call met the guard |
| TaskMatching.FollowingKeeps | src/api/ai_groups.py:404-722 | callers that follow the lifecycle always meet it |
| TaskEndpoints.TaskEngine.InsertSubtasks | src/api/ai_groups.py:433-450 | the loop inserts one pending child per subtask |
| TaskEndpoints.TaskEngine.SubmitTask | src/api/ai_groups.py:404-452 | refuses a missing group, otherwise inserts the root and its subtasks |
| TaskEndpoints.TaskEngine.StartDiscussion | src/api/ai_groups.py:834-880 | inserts a task under discussion |
| TaskEndpoints.TaskEngine.DecideDiscussion | src/api/ai_groups.py:923-975 | inserts the assigned subtasks and marks the task, whatever status it had |
| TaskEndpoints.TaskEngine.AssignTask | src/api/ai_groups.py:478-490 | sets agent and status of the row, if there is one |
| TaskEndpoints.TaskEngine.CompleteTask | src/api/ai_groups.py:656-668 | sets result and status of the row, if there is one |
| TaskEndpoints.TaskEngine.VerifyTask | src/api/ai_groups.py:671-722 | completes with the parent cascade, or rejects with a retry or failure; the reply says which |
| TaskEndpoints.TaskEngine.StartExecution | src/api/ai_groups.py:554-584 | execute_task up to its await |
| TaskEndpoints.TaskEngine.FinishExecution | src/api/ai_groups.py:586-624 | execute_task after it, when the row may be gone |
| TaskEndpoints.TaskEngine.ReviewTask | src/api/ai_groups.py:1000-1035 | sets result and status of an existing row |
| Numerals.DecimalInjective | src/acp/proxy.py:189-190 | different message ids have different texts |
| Numerals.DecimalDigits | src/acp/proxy.py:189-190 | str(n) is the decimal digits of n, the most significant first |
| AcpReaders.MatchesStringOrNumber | src/acp/proxy.py:200 | the id test accepts the request's id as a string or as a number, and nothing else (section 5 of the JSON-RPC 2.0 specification asks for the string) |
| AcpReaders.StopsOnFields | src/acp/proxy.py:239-352 | neither reader gets past the end of time or input, a JSON value that is not an object, an error in the answer or a broken update of another id, and each stops it as the source says; nothing else does but a quiet pipe and a usage update |
| AcpReaders.LastAnswerOnFields | src/acp/proxy.py:258-264 | the answer in hand is that of the last message with the request's id, as a text or a number, and the empty dict before any |
| AcpReaders.BatchWaits | src/acp/proxy.py:243-282 | the batch reader waits at a quiet pipe while its answer is falsy, and reads past a usage update while it is falsy or no chunk has come |
| AcpReaders.StreamWaits | src/acp/proxy.py:318-352 | the streaming reader does both before the first answer, whatever that is |
| AcpReaders.ChunksOnFields | src/acp/proxy.py:268-282 | the chunks are the texts of the chunk updates among the messages of other ids, in order |
| AcpReaders.StreamStopsFirst | src/acp/proxy.py:243-286 | wherever the batch reader stops, the streaming reader stops too, for the same reason |
| AcpReaders.StreamIsPrefixOfBatch | src/acp/proxy.py:210-352 | on any one trace the streamed chunks are a prefix of the collected ones, equal exactly when no chunk lies between the two stops |
| AcpReaders.ReadersAgree | src/acp/proxy.py:210-352 | both readers end alike when every matched result is non-empty and a usage update that ends the stream has a chunk before it |
| AcpReaders.SameEndIff | src/acp/proxy.py:239-352 | on any trace both end at the same read, and so alike, if and only if the stream stopped on the clock, the end of input or an exception, or the last answer is truthy and, at a usage update, a chunk came before |
| AcpReaders.WellPacedReadersAgree | src/acp/proxy.py:210-352 | on a trace whose answers are non-empty results and whose usage updates after an answer have a chunk before them, both end alike |
| AcpReaders.EmptyResultLosesChunk | src/acp/proxy.py:339-352 | an empty result and an early usage update lose a chunk in the stream |
| AcpReaders.OddResultRaises | src/acp/proxy.py:258-286 | with a result that is not a dict the batch reader raises where the streaming reader has yielded its chunk |
| AcpReaders.ReadBatch | src/acp/proxy.py:239-282 | the batch read loop ends as BatchReads says and leaves the last answer |
| AcpReaders.PromptParts | src/acp/proxy.py:210-286 | returns exactly when the loop did not raise and the last answer is a dict |
| AcpReaders.PromptPartsStream | src/acp/proxy.py:314-352 | the streaming read loop ends as StreamReads says |
| AcpMessages.RpcLoop | src/acp/proxy.py:187-205 | _rpc reads past what is not JSON and past other ids, returns the result of the first answer, raises its error, raises on a value that is not an object, and times out otherwise |
| AcpMessages.OutcomesCompared | src/acp/proxy.py:210-352 | on one run the stream takes in no more reads, and when it fails the batch reader fails the same way, unless a stale frame stopped it before |
| AcpMessages.SamePiecesIff | src/acp/proxy.py:74-116 | both texts are put together from the same chunks of the same runs, or the same command-line answer, if and only if the runs are aligned |
| AcpMessages.StreamedTextIsMessage | src/acp/proxy.py:74-116 | on the same one or two runs the streamed text is the text send_message returns, whatever the chunks and the command line say, if and only if the runs are aligned: no run the stream failed in yielded a chunk, and the run that decides ends well for both, with a chunk and none between the two stops, or fails for both |
| AcpMessages.AlignedTexts | src/acp/proxy.py:74-116 | on aligned runs the text yielded and the text returned are equal |
| AcpMessages.LateChunkLost | src/acp/proxy.py:74-116 | an input on which send_message returns a chunk and the stream yields nothing |
| AcpMessages.OddResultAsksCli | src/acp/proxy.py:74-116 | an input on which the stream yields a chunk and send_message returns the command line's answer |
| AcpMessages.RaisingAsksCli | src/acp/proxy.py:74-93 | when the run that decides stops at an error in the answer, a value that is not an object or a broken update, send_message returns the command line's answer, whatever was collected |
| AcpMessages.RaisingEndsStream | src/acp/proxy.py:95-116 | and the stream ends with it after the chunks before |
| AcpMessages.RunPrompt | src/acp/proxy.py:210-286 | draining raises on a stale frame that is not an object; otherwise the read loop decides, or the exception that comes after the reads |
| AcpMessages.RunPromptStream | src/acp/proxy.py:288-352 | the same for the stream, whose drain never raises |
| AcpMessages.SendMessage | src/acp/proxy.py:74-93 | over one or two runs of _prompt_parts: a second one, after a restart, only when the first meets a pipe error; the command line when the last run is empty or fails |
| AcpMessages.SendMessageStream | src/acp/proxy.py:95-116 | what is yielded over one or two runs of _prompt_parts_stream: the chunks of each, and the command line's answer after a last run that failed |
| AcpClient.RunKeepsLock | src/acp/proxy.py:187-286 | over any interleaving the call between acquiring and releasing is the lock's holder, and ids count the calls |
| AcpClient.IdsDistinctOneReader | src/acp/proxy.py:187-286 | over any interleaving request ids are pairwise distinct and at most one call reads |
| AcpClient.FramesTakenOnce | src/acp/proxy.py:187-352 | every frame written is taken off the pipe at most once, in order, by the call that holds the lock, or thrown away with its process |
| AcpClient.NoForeignAnswer | src/acp/proxy.py:187-352 | over any interleaving no call accepts a response to another call's request, however late it comes |
| AcpClient.AgentSteps | src/acp/proxy.py:187-352 | what the agent writes: an answer carries the id of its request as a text, a notification none; a new process has an empty pipe |
| AcpClient.AgentTouchesNoCall | src/acp/proxy.py:187-352 | no step of the agent changes a call, the lock or the message ids |
| AcpClient.AnswerReachesCall | src/acp/proxy.py:187-282 | a call that listens takes the response to its request, unless a frame that looks like one is ahead in the pipe, and _rpc then gives the lock back |
| AcpClient.ClashAccepted | src/acp/proxy.py:187-282 | from any state: a request of the agent whose id prints like that of a call that can still accept it is accepted, by the client's own steps alone |
| AcpClient.AcceptsOwnIff | src/acp/proxy.py:187-282 | over any run calls accept, throughout and whatever the client does next, only answers to their own requests, if and only if the agent sends no such request; one for a call that has ended, has yet to drain the pipe or has its answer in it does no harm |
| AcpClient.AgentRequestTakenForAnswer | src/acp/proxy.py:200 | for every id that prints like a message id there is a run in which a request with it is taken for the answer |
| AcpClient.IntrusionHeard | src/acp/proxy.py:247-282 | from any state: a notification of another call sent to a prompt that has drained the pipe is read as its own, by the client's next reads alone |
| AcpClient.PromptHearsOwnIff | src/acp/proxy.py:221-282 | over any run prompts read, throughout, only notifications of their own request or of none, if and only if no such notification is sent; late responses and what comes before the drain do no harm |
| AcpClient.LateChunkHeard | src/acp/proxy.py:268-282 | such a run exists: a late chunk of the first prompt is read by the second |
| AcpClient.AcpProcess.BeginCall | src/acp/proxy.py:189-191 | a call takes the next message id |
| AcpClient.AcpProcess.DropStale | src/acp/proxy.py:223-234 | one turn of the drain loop drops one frame |
| AcpClient.AcpProcess.ReadFrame | src/acp/proxy.py:196-204 | one turn of a read loop takes one frame, and the call ends where _rpc or an error ends it |
| EventStream.RunKeepsInv | src/api/event_stream.py:33-63 | in every reachable state each client's delivered and queued events are a gap-free prefix of the broadcasts since it subscribed, all of them while it is subscribed; queues hold at most 200; live output is that prefix filtered |
| EventStream.KeptOnFields | src/api/event_stream.py:854-864 | an event passes when no organ is asked for or its own is |
| EventStream.SentByOrgan | src/api/event_stream.py:843-872 | in every reachable state a client that asked for an organ has been sent events of that organ only, and of the live ones it took every such event as often as it came; one that asked for none has been sent all it took |
| EventStream.OfferedOnFields | src/api/event_stream.py:33-42 | a broadcast gives its event to exactly the subscribers with fewer than 200 queued |
| EventStream.PollOnFields | src/api/event_stream.py:770-773 | a poll puts what it collected in front, last first, and keeps a thousand; a refresh keeps nothing else |
| EventStream.DroppedWhenFull | src/api/event_stream.py:33-42 | a subscriber leaves exactly by closing or by a full queue |
| EventStream.DroppedGetsNoMore | src/api/event_stream.py:33-42 | and then receives nothing more, whatever happens |
| EventDelivery.RunKeepsRecent | src/api/event_stream.py:45-55 | while nobody polls, the buffer is the last 1000 events appended, by push_event or by the event bridge, and recent events are the last 20 |
| EventDelivery.ClientSeesEveryPush | src/api/event_stream.py:843-872 | recent and live events together miss no push: the live ones begin no later than the recent ones end |
| EventDelivery.EachPushSent | src/api/event_stream.py:843-872 | how often each push is sent: twice exactly for the pushes in both stretches that pass the filter, never more |
| EventDelivery.NothingTwiceIff | src/api/event_stream.py:843-872 | nothing has been sent twice exactly when the filter lets no push of both stretches through |
| EventDelivery.SentTwiceIff | src/api/event_stream.py:33-55 | for a client that has read the buffer, in any run without polls: a push is sent to it twice in some continuation if and only if it is among the recent events, was not broadcast before the subscription, passes the filter, and is in the client's hands or the client is still subscribed |
| EventDelivery.LiveBeginsBehind | src/api/event_stream.py:843-857 | the live events begin before the end of the recent ones by the pushes waiting at subscription and those made before the buffer was read |
| EventDelivery.EventSentTwice | src/api/event_stream.py:843-872 | an event scheduled when a client subscribes is sent to it twice |
| EventDelivery.PollEvictsNewest | src/api/event_stream.py:770-773 | a poll keeps every event if and only if they fit, and otherwise loses exactly those on the right of the buffer, the newest |
| EventDelivery.PollLosesLastPush | src/api/event_stream.py:770-773 | after a thousand pushes a poll that finds one event loses the last push |
| EventStream.EventHub.Append | src/api/event_stream.py:25-55 | deque.append with maxlen 1000 |
| EventStream.EventHub.PushEvent | src/api/event_stream.py:45-63 | buffers the event and schedules its broadcast |
| EventStream.EventHub.BridgeEvent | src/nerve/event_bridge.py:166-177 | buffers the event without a broadcast |
| EventStream.EventHub.OfferToAll | src/api/event_stream.py:35-40 | in any order of subscribers, each queue with room gets the event, and dead lists the others |
| EventStream.EventHub.BroadcastEvent | src/api/event_stream.py:33-42 | one broadcast step |
| EventStream.EventHub.Subscribe | src/api/event_stream.py:843-850 | a client subscribes with an empty queue |
| EventStream.EventHub.SendRecent | src/api/event_stream.py:853-857 | the last 20 events, filtered by organ |
| EventStream.EventHub.SendLive | src/api/event_stream.py:860-866 | one event is taken from the queue and sent if it passes the filter |
| EventStream.EventHub.PollInto | src/api/event_stream.py:772-773 | the loop of appendleft puts the events in front, in reverse, cut at 1000 |
| EventStream.EventHub.RefreshWith | src/api/event_stream.py:809-815 | the buffer is replaced |
| A2aTasks.TasksOk | src/a2a/task_manager.py:45-118 | over every interleaving history has 1 + starts + successes entries, completed means the last entry is the status message, working means a process is in flight, every start has one end or is in flight |
| A2aTasks.HistoryIsTranscript | src/a2a/task_manager.py:45-106 | history is the first message, then the messages processed and the replies, in order |
| A2aTasks.HistoryGrows | src/a2a/task_manager.py:45-118 | history only grows |
| A2aTasks.NextLeavesOthers | src/a2a/task_manager.py:45-118 | no call touches another task |
| A2aTasks.CanceledStaysIff | src/a2a/task_manager.py:111-118 | a canceled task stays canceled until processed again if and only if nothing of it is in flight |
| A2aTasks.CancelIsFinalIffSubmitted | src/a2a/task_manager.py:111-118 | a cancel lasts exactly when the task had never been processed |
| A2aTasks.CancelOverwritten | src/a2a/task_manager.py:56-118 | the first process to end after a cancel overwrites it |
| A2aTasks.CanceledThenCompleted | src/a2a/task_manager.py:56-118 | a run in which a task canceled while it is processed is completed by the reply |
| A2aTasks.TaskManager.CreateTask | src/a2a/task_manager.py:45-54 | adds a submitted task with its message |
| A2aTasks.TaskManager.BeginProcess | src/a2a/task_manager.py:56-69 | process_task up to its await |
| A2aTasks.TaskManager.EndProcess | src/a2a/task_manager.py:71-106 | process_task after it, with a reply or a failure |
| A2aTasks.TaskManager.CancelTask | src/a2a/task_manager.py:111-118 | refuses missing and ended tasks, cancels others |
| Installs.SingleFlight | src/api/agents.py:843-998 | over any interleaving a record is running exactly while one installer for its agent is in flight, never two; progress stays in 0..100; done exactly when the exit code was 0, at 100 |
| Installs.ReplacedOnlyWhenIdle | src/api/agents.py:853-857 | a record is replaced only by a request and only while nothing is in flight |
| Installs.EndedRecordIsFinal | src/api/agents.py:951-998 | the record of an ended run never changes again |
| Installs.OutputOnlyGrows | src/api/agents.py:970-973 | the output of a record only grows, by the lines printed |
| Installs.ProgressOnFields | src/api/agents.py:974-989 | a success line takes progress to 100, other lines by 15, 10 or 5 up to 60, 80 or 40 |
| Installs.ProgressDropsIff | src/api/agents.py:974-989 | an output line takes progress back exactly when it is past that line's cap |
| Installs.ProgressDrops | src/api/agents.py:974-989 | a run in which a success line and then a download line take it from 100 to 60 |
| Installs.InstallTasks.StartInstall | src/api/agents.py:843-857 | a request is refused, joins the running install, or starts a new one |
| Installs.InstallTasks.BeginInstall | src/api/agents.py:951-954 | an installer takes hold of its agent's record |
| Installs.InstallTasks.ReadLine | src/api/agents.py:968-989 | one line is printed and moves the progress as its words say; other calls may come between two lines |
| Installs.InstallTasks.EndInstall | src/api/agents.py:990-998 | the record ends as the exit code or the exception says |
| Installs.InstallTasks.RunInstall | src/api/agents.py:951-998 | one installer's whole run is its steps in sequence |
| ConfigDiff.ReportedReads | src/api/diagnostics.py:265-281 | the two trees read differently at every reported path |
| ConfigDiff.AtOnFields | src/api/diagnostics.py:265-270 | reading follows the entries key by key, and what is missing reads as None |
| ConfigDiff.ReportsOnFields | src/api/diagnostics.py:265-281 | a path is reported exactly when both trees have dicts above it and differ at it without both having a dict there |
| ConfigDiff.NothingReportedIffAgree | src/api/diagnostics.py:265-281 | nothing is reported exactly when no path tells the trees apart |
| ConfigDiff.EmptyDiffIffAgree | src/api/diagnostics.py:283-286 | has_customization is false exactly when the trees read alike |
| ConfigDiff.NoReportedPrefix | src/api/diagnostics.py:271-272 | no reported path is a prefix of another |
| ConfigDiff.PutSettles | src/api/diagnostics.py:273-280 | writing one reported value removes that path from the report and changes nothing else in it |
| ConfigDiff.PatchYieldsCurrent | src/api/diagnostics.py:265-281 | patching the default with the reported values, in whatever order, reads like the current tree |
| ConfigDiff.DottedInjective | src/api/diagnostics.py:268 | with keys that are not empty and hold no dot, a name determines its path |
| ConfigDiff.DottedOnFields | src/api/diagnostics.py:268 | a name is the keys joined by dots |
| ConfigDiff.DottedAmbiguous | src/api/diagnostics.py:268 | with a dot in a key two reported paths can share a name |
| ConfigDiff.Diff | src/api/diagnostics.py:265-281 | the recursive loop, over keys in any order, lists every reported path exactly once with both values |
| GeneStores.RunKeepsInv | src/api/gene_templates.py:572-922 | in every reachable state, restarts included, an instance lists exactly the capabilities that point back at it, none points at a missing instance, built-ins are the presets, the file is the state saved |
| GeneStores.LoadRestores | src/api/gene_templates.py:41-62 | saving then loading restores the state up to the time stamps of presets |
| GeneStores.RestartRestores | src/api/gene_templates.py:572-584 | so a restart at any point of any run is invisible but for those and for calls cut off |
| GeneStores.RegisteredEntry | src/api/gene_templates.py:707-720 | each capability id points at its instance, with the instance's name, the adapter type and its own description, and the other capabilities stay |
| GeneStores.NameOnFields | src/api/gene_templates.py:842-850 | an instance has the name given, or the template's with the last four characters of its id |
| GeneStores.EndKeepsIndex | src/api/gene_templates.py:840-875 | a new instance keeps the two-way index |
| GeneStores.GeneStore.CreateCustomTemplate | src/api/gene_templates.py:767-799 | refuses an id in use, otherwise adds and saves |
| GeneStores.GeneStore.DeleteCustomTemplate | src/api/gene_templates.py:801-813 | refuses missing and built-in templates, otherwise deletes and saves |
| GeneStores.GeneStore.BeginInstantiate | src/api/gene_templates.py:816-840 | refuses a missing template and a missing required parameter |
| GeneStores.GeneStore.RegisterCapabilities | src/api/gene_templates.py:697-722 | the loop registers one capability per description |
| GeneStores.GeneStore.EndInstantiate | src/api/gene_templates.py:842-875 | the instance and its capabilities appear and are saved together |
| GeneStores.GeneStore.RemoveInstance | src/api/gene_templates.py:901-922 | removes the instance and its capabilities, and reports as many as it listed |
| Downloads.RegisteredIs | src/api/download_plugins.py:683-689 | a plugin of a known id takes the place of the old one; ids stay distinct and in place |
| Downloads.UnregisteredIs | src/api/download_plugins.py:691-693 | only the plugin of that id goes, and the others keep their order |
| Downloads.TiesKeepOrder | src/api/download_plugins.py:757 | equal priorities keep registration order |
| Downloads.OrdersOnFields | src/api/download_plugins.py:756-761 | the order of the chain, on the fields of the plugins and their places in the registry |
| Downloads.ChainIsPermutation | src/api/download_plugins.py:756-761 | the chain holds each registered plugin once |
| Downloads.ChainOrder | src/api/download_plugins.py:756-761 | resume-capable first when asked for, then by priority, ties in registration order |
| Downloads.DownloadPicksFirst | src/api/download_plugins.py:763-783 | download succeeds if any registered plugin would, with the first of those in the chain's order |
| Downloads.TryEach | src/api/download_plugins.py:763-783 | the loop returns the first finished result, has started exactly the available plugins up to it, and otherwise reports the last error |
| Downloads.DownloadWalks | src/api/download_plugins.py:756-783 | the plugins started are available, in the order of the chain, and before every available one that is not; one finishes exactly when some registered plugin would |
| Downloads.DownloadManager.DownloadNamed | src/api/download_plugins.py:747-783 | with a plugin_id only the plugin of that id is started, and its outcome is the result; not found exactly when there is none |
| Downloads.DownloadManager.DownloadAny | src/api/download_plugins.py:754-783 | without one, the available plugins are started in order until one finishes, whose progress is the result; if none does all have been started and the last error is reported |
| Downloads.DownloadManager.Download | src/api/download_plugins.py:737-783 | both, told apart by the plugin_id |
| Downloads.DownloadManager.GetBestPlugin | src/api/download_plugins.py:699-726 | the best available plugin that fits, or else the best that fits, or none exactly when none fits |
| Downloads.DownloadManager.Register | src/api/download_plugins.py:683-689 | keeps ids distinct |
| Downloads.DownloadManager.Unregister | src/api/download_plugins.py:691-693 | keeps ids distinct |
| LoopGuards.LookupOnFields | src/api/chat.py:150-158 | a key in the cache is found and nothing changes; another gets a new guard behind the last 255 entries |
| LoopGuards.CacheHoldsLastMisses | src/api/chat.py:146-158 | the cache holds exactly the most recently inserted keys in order, never more than 256 |
| LoopGuards.GuardStaysIff | src/api/chat.py:150-158 | a guard is found exactly while fewer than 256 misses have come after the one that made it |
| LoopGuards.SameInstanceIff | src/api/chat.py:150-158 | two lookups of a key get the same instance exactly under that condition, whatever hits come between |
| LoopGuards.ChatLoopGuards.GetChatLoopGuard | src/api/chat.py:150-158 | evicts in a loop, inserts, and returns the guard |

## Left out

- Floating point: averages are reals, and `round(x, 2)` is any function with the properties of `Scoring.IsRounding`; that binary floats round some values otherwise is not modelled.
- SQLite and its locks, JSON and byte decoding, sockets, subprocesses and the wall clock: rows are maps, reads are traces, time is a step that may come.
- `src/api/ai_groups.py`: the `quality_score` column other than what `score_task` writes, discussion messages, the agents table and `auto_decompose_task` (subtasks are given; at least two, as its branches always yield); `max_iterations` is the column's default in every row, since no INSERT names it, and the model leaves open which positive number that is. The profile updates made by `execute_task` and `auto_evaluate_task` happen while another connection holds an open write and are not in the score book. `_resolve_agent_binary` and `_auto_score_from_result` are single case splits.
- `quick_sort.py` repeats `quicksort.py`; both are modelled once.
- MergeSortInPlace: negative indices are not modelled, nor is `temp` being the same list as `arr`; its result is stated as a stable sort, which `MergeSorting.StableSortIffMergeSort` makes equal to `merge_sort`.
- QuicksortInPlace: negative indices are not modelled.
- CalculateTaskAvgScore: `list.sort` is the in-place merge sort here; any sort would do, by `QuickSorting.SortedPermutationIsMergeSort`.
- `src/acp/proxy.py`: ids that are fractions, lists or objects; chunk texts that are not strings; what `start`, `stop` and a restart do to the process beyond replacing the pipe; `send_message_with_image`, which retries like `send_message`; exceptions raised by a restart itself.
- `src/api/event_stream.py`: the organ probes and the de-duplication in `GET /stream`; counting how often a push is sent (`EventDelivery.EachPushSent`) needs each push to differ from every other event appended, as its id makes it; a client that leaves while its recent events are being sent.
- `src/a2a/task_manager.py`: skill routing and handlers return a text or fail; time stamps.
- `src/api/agents.py`: keyword matching on output lines is a parameter, and requests are for agents that are registered.
- GeneStore: adapter configuration, instance configs and descriptive fields; a failing write of the file; custom templates whose parameters have no name.
- Download: a plugin's availability and outcome are fixed for one call.
- ConfigDiff: leaves that Python's `==` identifies are one leaf.
- LoopGuards: what a guard does with the text it checks.
- The other endpoints of `src/api`, which are thin layers over modules that are not part of this model, and the user interface.
