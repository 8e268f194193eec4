# Ancalagon: a verified model of the agent bus, the session loop and three small kernels

Ancalagon runs language-model agents as worker processes that share one append-only event log. This
project models that system in Dafny and proves what its parts promise each other.

**The bus, the scheduler and the supervisor.** `attempts.dfy` holds the transition table and the fold of
an agent's rows through it; `bus.dfy` the store's rows, the folded snapshot and the store itself as a
class whose transactions append to it; `schedule.dfy` the scheduling rules as functions of one snapshot.
`children.dfy` says those about a task's children over again, in terms of the agents' own rows. `protocol.dfy`
turns them into a transition system: a `World` is the rows, the outcome files, what each attempt measured when
it idled, and the worker processes still alive; `Act` is everything a worker or a person can do to it (delegate,
watch, answer, collect, idle, halt, finish, exit). `Inv` is the invariant; `keeps.dfy` and `runs.dfy` prove that
every step keeps it. `wakes.dfy` proves what waking promises, `turns.dfy` the claim order, `depth.dfy` the
delegation depth and `collect.dfy` what a collection reads and records. `journeys.dfy` states whole runs, any
interleaving of the others' actions with the supervisor's steps; `sleepers.dfy` says over them who stays asleep,
`races.dfy` that a parent's idling and its child's end may be recorded in either order, and `example.dfy` gives
three concrete runs. `effects.dfy`, `oversight.dfy` and `supervisor.dfy` are the supervisor: the class with its
two maps and its methods, each proved against a function of what it sees, with workers and people acting between
any two of its steps (`Machine.script` is an arbitrary finite list of batches of their actions, so the theorems
hold for every interleaving at that grain).

**The session.** `transcript.dfy` holds messages, the pairing of tool uses and results, `repair`, compaction
and the wire; `fork.dfy` forks; `budget.dfy` allowances; `session.dfy` assembly, the answering profile and the
charging of one batch of calls; `conversation.dfy` the session object and its loop. What comes from outside
(replies, tool results, readings of the children, notes) is an environment of arbitrary functions of the pass.

**Kernels.** `inlined.dfy` inlines schema references, `pointer.dfy` reads JSON Pointers, `paging.dfy` pages files.

Proofs use `hide` inside bodies to keep the solver to the facts a step needs; it removes facts, never adds any.

## What turned out to need a condition

- No lost wake-up is not unconditional. A task can sleep for good if it idled when nothing of its was at
  work any more, or if a child of it was collected by someone other than an attempt of it that had not
  idled. `Wakes.Blame` proves these are the only two ways. `Sleepers.LateIdleSleeps` proves that after the
  first the task has no news until someone queues it, a child of it or a new child, and
  `Sleepers.StrayCollectionSleeps` the same after the second, when no other child can still wake it.
  `Examples.AWakeIsLost` and `Examples.AWakeIsStolen` are concrete runs in which they happen.
- A delegate tool does not always stay within max_depth: the cap is asked of the agent that delegates, and
  only of delegate tools. An agent at the cap can make a task below it with a watch, and a delegate tool
  can queue that task again. `Depth.DelegatedDepthExactly` and `Depth.ActKeepsShallowExactly` give the exact
  conditions, `Examples.AWatchBelowTheCap` and `Examples.ADelegateBelowTheCap` a concrete run.
- An answer is appended to the log whatever the log ends with. `Transcripts.AnswerKeepsLogExactly` proves that
  the log stays paired exactly when nothing was pending in it, as it can be when the attempt that asked was
  followed by one that crashed in the middle of its calls.
- `repair` is kept in memory. `Transcripts.ResumedLogPairedExactly` proves that the log on disk stays paired
  over a resume exactly when the log resumed had nothing pending.
- `run` enqueues its root without the guard. `Runs.GuardIsExact` proves that an enqueue keeps one active
  attempt per task exactly when the guard would have let it through.
- `_close` on a claimed attempt that left an outcome would be rejected, and no other close;
  `Oversight.CloseIsRejectedExactly`, `Oversight.EarlyOutcomeIsRejected`.
- A JSON Pointer key made of digits only comes back as an index; `Pointers.PathRoundTrip`.
- The repository's README says that spending the tool-call budget makes a turn final. The code makes a turn
  final when the turn allowance is spent and looks at nothing else (ancalagon/profiles/turn.py:28-29); the
  model follows the code.

## Model

| member | source | states |
|---|---|---|
| Attempts.FoldIsGrammar | ancalagon/attempt/attempt_of.py:11-16 | the fold accepts exactly the histories of one grammar (queued, claimed, then running and an ending or a close, then at most one collection), and ends in the state the grammar reads off |
| Attempts.RankRises | ancalagon/attempt/next_state.py:28-49 | every accepted row strictly raises a rank bounded by five |
| Attempts.LegalHistoryShape | ancalagon/attempt/next_state.py:28-49 | at most five rows, no status twice, at most one ending row |
| Attempts.EndingRow | ancalagon/attempt/attempt_of.py:11-16 | where a settled attempt's ending row sits; an active attempt has none |
| Bus.LifecycleStore.Record | ancalagon/bus/lifecycle_store.py:143-183 | appends the row exactly when the table accepts it; a rejected record leaves the store as it was |
| Bus.LifecycleStore.Enqueue | ancalagon/bus/lifecycle_store.py:185-198 | adds the task unless its directory is taken, one agent and its queued row, and keeps the store legal |
| Bus.LifecycleStore.WaitingAgents | ancalagon/bus/lifecycle_store.py:200-208 | the latest-row query followed by the fold check, lowest id first |
| Bus.LifecycleStore.Claim | ancalagon/bus/lifecycle_store.py:210-218 | claims the first `limit` queued agents, each once, and nothing else |
| Bus.LifecycleStore.QueuedCount | ancalagon/bus/lifecycle_store.py:230-231 | zero exactly when no agent folds to Queued |
| Bus.LatestRowFilterIsExact | ancalagon/bus/lifecycle_store.py:200-208 | the SQL filter on the latest row selects exactly the agents whose fold is Queued |
| Bus.QueuedAgentsExact | ancalagon/bus/lifecycle_store.py:200-208 | the query lists every queued agent, only those, in rising order |
| Bus.RecordSnapshot | ancalagon/bus/lifecycle_store.py:244-273 | a recorded row changes one agent's history and state in the snapshot and nothing else |
| Bus.EnqueueSnapshot | ancalagon/bus/lifecycle_store.py:185-198 | an enqueue adds one queued agent at the end of its task's attempts, and its task if new |
| Bus.ClaimSnapshot | ancalagon/bus/lifecycle_store.py:210-218 | a claim moves exactly the listed agents to Claimed |
| Bus.HistoryIsOrdered | ancalagon/bus/lifecycle_store.py:233-235 | a history is all of an agent's own rows, in the order of their ids |
| Schedule.SnapshotsAreSound | ancalagon/bus/lifecycle_store.py:244-273 | in every snapshot of a legal store the four indexes agree with each other and with the fold |
| Schedule.WatermarkIsLargestId | ancalagon/tools/idle/idle.py:28-33 | the largest event id in a snapshot is the length of the log |
| Schedule.NewestIsLargest | ancalagon/schedule/newest_agent.py:5-6 | the newest agent of a task is one of its agents and the largest |
| Schedule.TaskOfIsOwner | ancalagon/schedule/task_of.py:6-8 | the task found for an agent is the one its row names |
| Schedule.DepthCountsAncestors | ancalagon/schedule/depth_of.py:8-17 | an agent's depth is its task's number of ancestors, and the lookup raises exactly past 64 of them |
| Children.UncollectedExactly | ancalagon/schedule/uncollected.py:8-14 | the uncollected ones are exactly those that closed or were lost |
| Children.LiveChildrenExactly | ancalagon/schedule/live_children.py:8-14 | the live children of an attempt are exactly the newest agents of its task's children that are queued, claimed, running or idling |
| Children.HasNewsExactly | ancalagon/schedule/has_news.py:8-20 | a task has news exactly when its newest attempt has an idling row and the newest agent of some child ended, otherwise than by idling, with its last row after that watermark |
| Protocol.FreshInv | ancalagon/run.py:143 | the empty store satisfies the invariant |
| Keeps.LogKeeps | ancalagon/bus/lifecycle_store.py:143-183 | recording a row that the table accepts and the files agree with keeps the invariant |
| Keeps.QueueKeeps | ancalagon/schedule/active_for.py:9-14 | enqueueing where nothing is active keeps the invariant |
| Runs.ActKeeps | ancalagon/tools/delegate/delegate_to.py:46-62 | every action of every worker and person keeps the invariant: one active attempt per task and it is the newest, outcome files that fit the states, measures, reasons to wake |
| Runs.CollectKeeps | ancalagon/tools/delegate/collect_task.py:79-113 | so does collecting, by the parent's own attempt or by a stranger |
| Runs.AnswerableAsked | ancalagon/answer.py:24-44 | only an attempt whose verdict was a question can be answered |
| Children.QueuesExactly | ancalagon/tools/delegate/delegate_to.py:46-62 | a delegate tool and a watch queue one attempt at their directory, as a child of the caller when it is new, an answer queues one at the very task that asked, and nothing else changes |
| Children.AnsweredTask | ancalagon/answer.py:24-44 | where the task that asked is found again by its directory |
| Runs.GuardIsExact | ancalagon/answer.py:33-44 | an enqueue leaves one active attempt per task exactly when nothing at its directory was active |
| Runs.FirstEnqueueKeeps | ancalagon/run.py:143 | the root's enqueue on a fresh store satisfies the invariant |
| Wakes.Blame | ancalagon/schedule/has_news.py:8-20 | when nothing is active and nobody is wakeable, every idling task is, or has below it in the task tree, one that idled seeing nothing live or whose child a stranger collected |
| Wakes.NoLostWake | ancalagon/supervisor/supervisor.py:112-123 | if every idle saw a live child and only parents that had not idled collected, such a state has nobody idling |
| Wakes.QuietRunForgetsOnlyTheAbandoned | ancalagon/schedule/has_news.py:8-20 | in a quiet state with nobody wakeable somebody idles exactly when some newest attempt left an idle outcome and saw no live child, or has a child a stranger collected |
| Sleepers.DormantBelow | ancalagon/schedule/has_news.py:8-20 | at or below every sleeper of such a state is one whose children are all settled and hold nothing after its watermark |
| Sleepers.StaysAsleep | ancalagon/schedule/has_news.py:8-20 | such a sleeper stays idling without news over any run that queues neither the task, nor a child of it, nor a new child |
| Sleepers.LateIdleSleeps | ancalagon/tools/idle/idle.py:28-33 | an attempt that idles with no child at work leaves its task without news from then on, through its exit, its reaping and any such run around them |
| Sleepers.StrayCollectionSleeps | ancalagon/tools/delegate/collect_task.py:79-113 | collecting the one child that could still wake an idling task takes its news away and leaves it asleep over any such run |
| Wakes.NothingComingIsNoNews | ancalagon/schedule/has_news.py:8-20 | children settled by the watermark or collected are no news |
| Wakes.NothingComingSurvivesRows | ancalagon/schedule/is_news.py:8-15 | no recorded row can make them news |
| Wakes.NothingComingSurvivesQueue | ancalagon/schedule/has_news.py:8-20 | nor can an enqueue that touches none of them |
| Wakes.IdlingWasMeasured | ancalagon/tools/idle/idle.py:28-33 | an idling task's newest attempt measured the log, and its one idling row carries that watermark |
| Wakes.WakesAreIndependent | ancalagon/supervisor/supervisor.py:112-117 | waking one task changes no other task's news and leaves the woken one without |
| Journeys.WakesInject | ancalagon/supervisor/supervisor.py:112-117 | over any run from the invariant, the wakes map one to one into the log's idling rows: each answers the one idling row of an attempt of its own task, and no two the same row |
| Races.EitherReapOrderWakes | ancalagon/supervisor/supervisor.py:81-110 | a child that answered, crashed or timed out wakes a parent that had idled, whichever of the two rows comes first, with any run in between that spares the two |
| Races.ParentFirst | ancalagon/supervisor/supervisor.py:81-110 | the parent's row first: in between the child may still run, be killed or be queued anew |
| Races.ChildFirst | ancalagon/supervisor/supervisor.py:81-110 | the child's row first: the parent, which had measured the log, may still run in between |
| Wakes.NoWatermarkSeesEveryUnread | ancalagon/profiles/answering.py:67-70 | without a watermark, news is exactly an unread settled child |
| Races.HaltSeesEveryUnread | ancalagon/profiles/answering.py:67-70 | an attempt halts only over a child at work, and over any run from then on, while its halt idles, its task has news exactly when an answer is unread |
| Wakes.WakeableExact | ancalagon/schedule/wakeable.py:7-8 | the wakeable tasks are exactly those with news |
| Examples.AWakeIsLost | ancalagon/tools/idle/idle.py:28-33 | a concrete run that ends quiet, nobody wakeable, the root asleep and its child's answer unread |
| Examples.AWakeIsStolen | ancalagon/tools/delegate/collect_task.py:79-113 | a concrete run that ends the same way although the root saw its child at work: a grandchild collected the answer |
| Examples.AWatchBelowTheCap | ancalagon/session_for.py:190-198 | a concrete run in which a watch asked for at the depth cap makes a task below it |
| Examples.ADelegateBelowTheCap | ancalagon/tools/delegate/delegate_to.py:46-62 | and a delegate tool of the root then queues an attempt at that task |
| Examples.RootDelegates | ancalagon/tools/delegate/delegate_to.py:46-62 | the part of that run in which the root delegates under a depth cap of one and both attempts run |
| Effects.ActAllKeeps | ancalagon/answer.py:47-75 | any sequence of others' actions keeps the invariant and moves no attempt that is queued, claimed or running |
| Effects.RecordingDropsWork | ancalagon/supervisor/supervisor.py:74-79 | every row the supervisor records about an active attempt lowers the work that is left |
| Effects.WakingDropsWork | ancalagon/supervisor/supervisor.py:112-117 | so does every wake |
| Oversight.CloseIsRecordable | ancalagon/supervisor/supervisor.py:81-92 | the table accepts every close of a claimed or running attempt: the outcome's verdict if there is one, else the close |
| Oversight.CloseIsRejectedExactly | ancalagon/supervisor/supervisor.py:81-92 | in any legal store the one close the table rejects is a verdict for an attempt never recorded as running |
| Oversight.EarlyOutcomeIsRejected | ancalagon/supervisor/supervisor.py:62-72 | and an outcome written between a process's start and its running row would be such a verdict |
| Oversight.ReapIsOverseen | ancalagon/supervisor/supervisor.py:101-110 | one reap keeps live, started and Running the same set, nobody left Claimed |
| Oversight.ReapOnlyEnds | ancalagon/supervisor/supervisor.py:94-110 | it ends that agent or nobody; the agent stays exactly when its process is alive and its time is not up |
| Oversight.SpawnIsOverseen | ancalagon/supervisor/supervisor.py:62-72 | a claimed attempt is running and tracked, or crashed; either way no longer claimed |
| Oversight.ClaimKeeps | ancalagon/supervisor/supervisor.py:55-60 | a claim keeps the invariant and, unless empty, lowers the work left |
| Oversight.WakeableAreNotLive | ancalagon/supervisor/supervisor.py:112-115 | the filter on live agents never drops a wakeable task |
| Oversight.WakeStep | ancalagon/supervisor/supervisor.py:112-117 | each wake of a pass is guarded, ends exactly that task's news and lowers the work left |
| Oversight.AdoptedExactly | ancalagon/supervisor/supervisor.py:130-145 | a restart keeps exactly the attempts whose process is alive and whose time is not up |
| Oversight.ResolveStep | ancalagon/supervisor/supervisor.py:125-145 | one agent of a restart is adopted in time or closed |
| Oversight.OneRowOfEach | ancalagon/supervisor/supervisor.py:130-142 | an attempt has at most one running row and at most one ending row in the log |
| Oversight.RestartKeepsStarts | ancalagon/supervisor/supervisor.py:137-142 | a start survives a restart: a live attempt in time is adopted with the process and the very start it had |
| Oversight.OnlyAnswersWithoutProcesses | ancalagon/supervisor/supervisor.py:147-155 | with no process alive the others change nothing unless they leave something queued |
| Oversight.RunningRowExact | ancalagon/supervisor/supervisor.py:130-135 | the last running row a restart looks for is there, with the process id, exactly for a running attempt |
| Supervision.Supervisor.Finish | ancalagon/supervisor/supervisor.py:74-79 | appends one row that is never rejected and drops the agent from both maps |
| Supervision.Supervisor.Close | ancalagon/supervisor/supervisor.py:81-92 | appends the row of the outcome the attempt left, with its watermark, or else of the given close; settles the attempt and keeps the invariant |
| Supervision.Supervisor.ReapTimeout | ancalagon/supervisor/supervisor.py:94-99 | keeps the agent live exactly while it is young; else kills it and settles it, by the outcome it may still have written |
| Supervision.Supervisor.ReapOne | ancalagon/supervisor/supervisor.py:105-110 | polls with workers acting before the poll and before the kill: without a process the attempt is closed as crashed, with one as timed out exactly when its time is up, each unless it left an outcome; else it stays live |
| Supervision.Supervisor.Reap | ancalagon/supervisor/supervisor.py:101-103 | whoever is live afterwards had not ended before and has time left; whoever is not left with an ending row, timed out only if it was alive and its time was up |
| Supervision.Supervisor.Spawn | ancalagon/supervisor/supervisor.py:62-72 | the claimed attempt runs as the new process, live from now, and its running row carries that process and the clock; or it is lost as crashed |
| Supervision.Supervisor.StartQueued | ancalagon/supervisor/supervisor.py:55-60 | takes the front of the queue, as long as the free slots or all of it; each then runs from now or is over; at most max_concurrent spawned; nobody left claimed |
| Supervision.Supervisor.WakeIdling | ancalagon/supervisor/supervisor.py:112-117 | enqueues every wakeable task of the snapshot and leaves nobody wakeable |
| Supervision.Supervisor.Tick | ancalagon/supervisor/supervisor.py:119-123 | live, started and Running the same set, none claimed, slots respected, everyone live younger than the timeout, nobody wakeable; every start still that of a running row |
| Supervision.Supervisor.ResolveOne | ancalagon/supervisor/supervisor.py:130-145 | by the running row of an attempt that has a process: taken over with its process and its start, or killed and timed out when its time is up; crashed without a process |
| Supervision.Supervisor.ResolveStale | ancalagon/supervisor/supervisor.py:125-145 | from any state of the invariant, establishes the same; everything live is adopted, at most timeout_s old, with the process and the start its one running row names |
| Supervision.Supervisor.IdleStep | ancalagon/supervisor/supervisor.py:147-155 | stops only at quiescence; goes on only with less left to do or while somebody's time runs |
| Supervision.Supervisor.RunUntilIdle | ancalagon/supervisor/supervisor.py:157-160 | returns once the others fall silent, at quiescence, and under the conditions of NoLostWake with nobody idling; all of it is one run of steps, and claims stay first in, first out |
| Journeys.RunKeeps | ancalagon/supervisor/supervisor.py:119-160 | every run, any interleaving of the others' actions with claims, launches, closes, kills and wakes, keeps the invariant |
| Journeys.RunKeepsTurn | ancalagon/bus/lifecycle_store.py:185-218 | and the order of claims |
| Journeys.RunAppends | ancalagon/supervisor/supervisor.py:119-160 | and only ever adds rows at the end of the log |
| Turns.RecordKeepsTurn | ancalagon/bus/lifecycle_store.py:143-165 | whoever has left the queue has a lower id than whoever is in it, and claimed rows name rising agents: kept by every row |
| Turns.EnqueueKeepsTurn | ancalagon/bus/lifecycle_store.py:185-198 | kept by every enqueue |
| Turns.ClaimKeepsTurn | ancalagon/bus/lifecycle_store.py:210-218 | kept by every claim, of any size |
| Turns.ActKeepsTurn | ancalagon/bus/lifecycle_store.py:185-218 | kept by everything workers and people do |
| Turns.ClaimsAreFirstInFirstOut | ancalagon/bus/lifecycle_store.py:185-218 | so over any run of enqueues, claims and records by any number of stores, from the empty log |
| Turns.ClaimedIsBelow | ancalagon/bus/lifecycle_store.py:210-218 | every agent ever claimed has a lower id than every agent still queued |
| Depth.DepthsStay | ancalagon/schedule/depth_of.py:8-17 | no action changes the depth of a task that is there |
| Depth.DelegatedDepthExactly | ancalagon/session_for.py:190-198 | the task a delegate tool queues is within max_depth exactly when it is new or was within it already |
| Depth.ActKeepsShallowExactly | ancalagon/session_for.py:190-198 | all depths stay within max_depth exactly when the action is not a watch, by an attempt at the cap, that makes a task |
| Collecting.CollectTask | ancalagon/tools/delegate/collect_task.py:62-113 | what is read, and that COLLECTED is recorded exactly when nothing is in flight and there is an unread answer |
| Collecting.CollectNeverFails | ancalagon/tools/delegate/collect_task.py:79-113 | the outcome file and the closing row are always there, and agree with the attempt |
| Collecting.CollectRecordsExactly | ancalagon/tools/delegate/collect_task.py:79-113 | a collection is recorded exactly for an answer that is not an idle one, or a lost attempt |
| Collecting.CollectTakesOne | ancalagon/tools/delegate/collect_task.py:79-113 | it takes that child's answer, and no other's, out of what is unread and what is news |
| Collecting.CollectShrinksUncollected | ancalagon/schedule/uncollected.py:8-15 | the list of uncollected children loses exactly that attempt |
| Collecting.CollectedSpokeOrWasLost | ancalagon/schedule/outstanding.py:10-20 | no attempt is ever collected as having idled |
| Transcripts.RepairPairs | ancalagon/transcript/history.py:19-43 | repair leaves nothing pending, keeps pairing and numbering, adds at most one message, and changes nothing exactly when nothing was pending |
| Transcripts.CrashPrefixIsRepaired | ancalagon/transcript/history.py:37-43 | so for whatever prefix of a transcript a crash leaves |
| Transcripts.ResumedLogPairedExactly | ancalagon/session_for.py:220-222 | the log on disk stays paired over a resume exactly when it had nothing pending |
| Transcripts.AnswerKeepsLogExactly | ancalagon/answer.py:57-69 | the log an answer is appended to stays paired, before and after a repair, exactly when it had nothing pending |
| Transcripts.ForWireKeeps | ancalagon/transcript/demote.py:12-39 | compaction keeps every message, role and number, the recent ones whole, and changes only long filed results |
| Transcripts.ForWireCompactsExactly | ancalagon/transcript/demote.py:12-39 | compaction happens exactly when a positive threshold is met by a quarter of the size, and then to exactly the long filed results that are not recent |
| Transcripts.SizesAdd | ancalagon/transcript/demote.py:36 | where the size of a transcript is the sum of its messages' sizes |
| Transcripts.ForWirePairs | ancalagon/transcript/demote.py:31-39 | compaction keeps the pairing |
| Transcripts.DemotionIsIdempotent | ancalagon/transcript/demote.py:12-28 | demoting twice is demoting once |
| Transcripts.PairedReads | ancalagon/llm/adapters/litellm_client.py:39-57 | a provider that insists that only the assistant calls, and that each call be answered next, once and in order, reads the wire without objecting |
| Transcripts.WireLosesNothing | ancalagon/llm/adapters/litellm_client.py:39-57 | all text, calls and results of a paired transcript reach the wire in order, and nothing else does |
| Transcripts.ChatsAreTheSpeaking | ancalagon/llm/adapters/litellm_client.py:39-57 | the chat messages on the wire are those of exactly the messages without results that have text or calls, one each and in order, with their role, text and calls |
| Transcripts.PartsInOrder | ancalagon/llm/adapters/litellm_client.py:39-57 | where a message's text, calls and results are its blocks', one by one and in order |
| Transcripts.WireIsAccepted | ancalagon/llm/adapters/litellm_client.py:39-57 | the same for a compacted transcript |
| Forks.CutIsRefusedExactly | ancalagon/fork.py:41-52 | a cut is refused exactly when it names no message; a fork fails otherwise only over an empty transcript or a delegation without a task |
| Forks.ForkKeepsPrefix | ancalagon/fork.py:41-63 | a fork keeps exactly the messages before the cut in front, numbers and pairs what it adds, adds a notice after an assistant message exactly when tasks are orphaned, and has nothing pending once repaired |
| Forks.OrphanedExactly | ancalagon/fork.py:20-28 | the tasks named are those of exactly the calls of delegate tools, one for each and in order, or none when one of these names no task |
| Forks.OrphanedGrowWithTheCut | ancalagon/fork.py:20-28 | a later cut orphans everything an earlier one does, first and in order |
| Budgets.PermittedKeepsAccount | ancalagon/contracts/finite.py:8-16 | a positive cost is permitted exactly when spending it keeps the account and overdraws nothing |
| Sessions.AssembledTools | ancalagon/session_for.py:151-199 | a brought terminal tool is always held, a capped agent holds no delegate tool, a submit tool only if brought |
| Sessions.AssembledExactly | ancalagon/session_for.py:183-199 | exactly the available tools the role names or its profile brings are held, less delegate tools at the cap and submit tools not brought; an unknown name fails |
| Conversations.AssembledAnswers | ancalagon/session_for.py:151-199 | so a role with an answering profile can answer at any depth, as the bound on its model calls needs |
| Sessions.OneWayToEnd | ancalagon/profiles/answering.py:72-81 | a turn offers idling exactly while children work and answering exactly when none works or is unread; a final turn offers the one forced tool |
| Sessions.BatchAnswersEveryCall | ancalagon/session.py:185-225 | every call of a batch is answered once and in order, and what is spent is the cost of exactly the calls that fitted |
| Sessions.ChargedFits | ancalagon/session.py:199-212 | the charges of a batch keep the account: left plus spent is what was given, never overdrawn |
| Sessions.ChargedForFitting | ancalagon/session.py:199-212 | what a batch is charged is the cost of exactly the calls that name a held tool and fit what is left |
| Sessions.BatchAnswersAsDeserved | ancalagon/session.py:192-225 | a call that fits is answered with its tool's result, an error exactly when that failed; any other with an error; and exactly the fitting ones ran |
| Conversations.OnlyCollectingGoesOn | ancalagon/session.py:298-325 | on a final turn only a forced collection can leave the session unfinished |
| Conversations.SettledConcludes | ancalagon/session.py:238-272 | the first result that says anything settles a session: a question, an idling with its watermark, or an answer, which is exhausted on a final turn and completed on any other |
| Conversations.ReplyIds | ancalagon/tools/registry/resolved.py:10-21 | a reply's calls keep their ids and order, and answer nothing |
| Conversations.ReplyIsSentBack | ancalagon/session.py:371-372 | a reply is recorded whole: its text first, if any, and then its calls, in order |
| Conversations.AsksForWhatItForces | ancalagon/profiles/answering.py:72-102 | a final turn asks for a collection exactly when it forces one, and for the answer otherwise |
| Conversations.Session.constructor | ancalagon/session.py:119-125 | resumes from the repaired log, or starts with the goal; paired, numbered, nothing pending, nothing spent |
| Conversations.Session.Record | ancalagon/session.py:167-177 | the one place a message is made: it answers exactly what is pending |
| Conversations.Session.RunTools | ancalagon/session.py:185-225 | answers every call in order, by its tool's result if it fits the allowance and by an error if not, and runs exactly those that fit |
| Conversations.Session.EvaluateTurn | ancalagon/session.py:298-325 | the outcome, by the first result that says anything and whether the turn is final; nothing left pending, a nudge where nothing was called, and the charge of the calls that fitted |
| Conversations.Session.Pass | ancalagon/session.py:359-379 | one pass: the notes, then a halt exactly when the turn is final and children work, or else the prompt of a final turn, one model call with the tools offered and the one forced, its reply and what it comes to; one turn spent unless final, the tries left |
| Conversations.Session.Ask | ancalagon/session.py:361-372 | the messages of a pass up to the reply, exactly, and the request the model gets |
| Conversations.Session.Loop | ancalagon/session.py:357-379 | every model call is offered and made to use what the readings of the children ask for: on a final turn, with the collect tool held, the answer only if nothing is uncollected or the two passes before were forced collections that changed nothing. Completed comes within the turns given, exhausted and failed only after. It ends after at most B turns, two tries for each child uncollected at the first final turn, and one answer; turns and tool calls spent add up and what is left balances |
| Conversations.EveryAnswerIsRead | ancalagon/session.py:376-379 | so when every forced collection changes what is uncollected, the session is made to answer exactly when nothing is left to collect |
| Conversations.BooksBalance | ancalagon/session.py:199-212 | over any number of passes, with finite or infinite allowances, left plus spent is the budget and spent is the sum of what each pass permitted |
| Conversations.StepsInTime | ancalagon/session.py:376-379 | the measure behind that bound falls with every pass that goes on |
| Conversations.SentIsAccepted | ancalagon/session.py:127-128 | what the model is sent is always read without objection, nothing open |
| Conversations.LogIsPairedExactly | ancalagon/session.py:167-177 | a resumed session's log is paired exactly when the log it resumed had nothing pending |
| Inlining.InlineIsSubstitution | ancalagon/llm/inlined.py:12-45 | a schema is inlined exactly when finitely many substitutions resolve it, and to their result |
| Inlining.InlineResolves | ancalagon/llm/inlined.py:32-37 | no reference is left reachable through objects and one level of lists |
| Inlining.LastSegmentExactly | ancalagon/llm/inlined.py:36 | a definition is named by what follows the last slash of the reference |
| Inlining.ResolvedStays | ancalagon/llm/inlined.py:12-37 | a schema without references is left as it is, every key and value in order |
| Inlining.SeenChangesNothing | ancalagon/llm/inlined.py:26-29 | the path of definitions being inlined can only make it fail, never change its result |
| Inlining.InlinesExactlyWhenSane | ancalagon/llm/inlined.py:26-37 | a schema is inlined exactly when no chain of references it leads along comes back on itself or ends at an undefined name |
| Inlining.RecursiveMeansCycle | ancalagon/llm/inlined.py:26-29 | the names a recursive schema is refused with lead along a true cycle |
| Inlining.MissingMeansUndefined | ancalagon/llm/inlined.py:26-29 | the missing name reported is one the schema leads to, and has no definition |
| Pointers.UnescapeIsDecode | ancalagon/tools/artifacts/json_path.py:9-15 | the two replacements in that order are one left-to-right decoding, for every string |
| Pointers.OtherOrderDecodesTwice | ancalagon/tools/artifacts/json_path.py:9-15 | the other order is not |
| Pointers.PathRoundTrip | ancalagon/tools/artifacts/json_path.py:9-15 | a path escaped as sections 3 and 4 of RFC 6901 prescribe reads back exactly when no key is all digits |
| Pointers.LeadingTextIsDropped | ancalagon/tools/artifacts/json_path.py:9-15 | text in front of the first slash is ignored |
| Paging.PageShows | ancalagon/tools/registry/tool_context.py:78-96 | a page inside the file is never empty, stays within the file and the limit, and shows whole numbered lines; only a line longer than the reply may be is cut, alone |
| Paging.PageFits | ancalagon/tools/registry/tool_context.py:85-94 | the body fits summary_chars |
| Paging.PageIsFull | ancalagon/tools/registry/tool_context.py:85-94 | a page stops only at the limit, at the end of the file, or where the next line would not fit |
| Paging.FollowTiles | ancalagon/tools/files/read_file.py:36-39 | following the hint reaches the end in at most one call a line, and the pages tile the file once and in order |
| Paging.FollowShowsEverything | ancalagon/tools/files/read_file.py:36-39 | with no line too long for a reply the pages together are the numbered file |

## Left out

- SQLite, its transactions and its migrations: each BEGIN IMMEDIATE block is one step, an id is the row's position, rows are never deleted.
- Recording a row for an agent without a row in the agents table, and enqueueing for a parent that does not exist: no caller does either.
- Real processes and pids: a process is the agent's membership in the set of live ones, and pid reuse is not modelled; a killed or exited worker writes nothing more.
- Spawning a process and recording its running row are one step; a worker acting in between is not modelled.
- A guard and the enqueue or the collection it guards are one step, and so is one wake pass over its snapshot; two writers passing the same guard at once are not modelled.
- The wall clock: one reading, constant within a tick and advanced by each sleep.
- Deterministic workers, which may report any idling watermark they like; an idle here reports what it measured or no watermark.
- The second and later idles of one attempt: the first one settles the outcome.
- The order in which the supervisor visits its live agents and the unreaped ones: any order.
- Conversations.Session.Loop: stated for a finite turn allowance and the answering profile; an infinite allowance and the standing profile have no such bound.
- Exceptions raised inside a tool, by the model's client or by a child reading, which end a session as failed.
- Wording: prompts, summaries, notices, nudges, the JSON of outcomes, and the length at which summaries are cut; the size of a message is a parameter.
- The file-backed answering profile, which differs in the tool it forces.
- Python's isdecimal is taken over ASCII digits; other decimal digits are not modelled.
- A $ref whose value is an object or a list is taken to name no definition.
- Schema generation itself: inlining starts from the built schema and its definitions.
- Workspace scoping, provider calls, web tools, sinks, tracing, the watch display and the other thin tool wrappers: they would add easy members or rest on code outside the repository.
