# Bee Agent, verified

A Dafny model of the parts of Bee Agent where live state must agree with a durable log, or where a graph
algorithm or a protocol decides what may run. `dafny verify dfyconfig.toml` checks all of it.

- **The agent turn.** `AgentLoop` is the step loop as an object over the event log of one thread: it generates,
  runs tool calls alone or in parallel batches, checkpoints, suspends, resumes, and rebuilds from the log. What
  the model, the tools, the hooks and the abort signal do is open at every step, so a statement about a method is
  one about all of its runs. `ThreadLog` has the events and the histories folded from them, `LoopBooks` what ties
  a live history to the log, `ParallelBatch` the orders in which a batch may finish, `LoopSteps` the parts of the
  loop as facts about values, `LoopTrace` what happened around the loop and what it must have made of it,
  `TurnRecords` what a rebuild reads besides messages, `ThreadRuns` what whole calls leave behind and what holds
  over every run of them, `TurnEndings` when a suspended turn can be resumed, `OutputCap` the escalation bound,
  and `ContextPolicy` the elision of old tool results. A crash keeps a prefix of the log, and what is proved of a
  thread holds of every prefix. A call of a tool is passed over when a later message calls tools and it has no
  answer: no step takes it up again.
- **Effects.** `ExecutionWorld` is the authorize, run, record protocol of one idempotency key as small steps, with
  failures at every call out of the process, appends that land and still fail, and a crash that forgets everything
  but the stream. `ExecutionRuns` traces what is recorded and told back to the steps it came from, and
  `ExecutionEndings` says how calls end.
- **The kernel.** `PluginOrder` sorts plugins by their services, in the order of `DepthFirst`, `Reconcile` plans
  changes and updates a running graph in place, `Generations` counts leases and tracks what is mounted over every
  run, `LeaseHolders` says who holds the leases, `TurnPinning` that a turn stays on its generation, and
  `KernelRuntime` has the two objects that refine them. `Structure` resolves bundles and their includes.
- **Kanban.** `Chronicle` is the event log; `KanbanTask` the status machine, the card and its fold; `KanbanStore`
  any number of stores over one log, step by step; `KanbanStoreObject` the store as an object and the walk along
  the shortest path found by `TransitionPath`; `DispatchSteps` and `KanbanDispatcher` the claims and leases.
- **The world model.** `World` records entities and relations, `WorldContents` tells the projection from the
  inputs, `WorldRebuild` replays it strictly or by rebasing, `WorldRebases` says what a rebase comes to, and
  `WorldRuns` has the runs that do all of it.
- **The rest.** `Sse` is the incremental event-stream reader (WHATWG HTML Standard, sections 9.2.5 and 9.2.6),
  `Delegation` the bounded worker pool, `ModelRequest` the recorded request and its rebuild.

Digests are taken to be injective and stand for what they digest, fresh ids come from the caller or a counter, and
times are integers.

Where the code does not do what its comments promise, the model follows the code and proves exactly when the promise
holds: checkpoints of a turn replay exactly when nothing of it was orphaned by a crash and history is carried on
(`agent-loop.ts:1432-1435` promises it always), and after a parallel batch exactly when it arrived in model order
(`agent-loop.ts:678-679` promises it always); unanswered calls are finished before the model is called
(`agent-loop.ts:530-532` promises it of a crash) exactly when what a rebuild does not take up is answered by then,
which a crash between an asking message and its checkpoint undoes; a turn suspended in a batch resumes with the
approval it returned exactly when its earlier batches agree in log and history, the first call to ask in model order
arrived first and no sibling's result came before the last suspension; a turn suspended on a call carried over from
another turn cannot be resumed; a result whose append lands and rejects is contradicted by a recorded failure; a
failed live update leaves no trace exactly when every plugin that moved rolls back; the references of a generation
are its calls and waiting turns exactly as long as no step of four kinds is taken, all of which need calls on one
turn to overlap; a zero window protects every result; a comment folds exactly when it bears the time of the last
update; a world replay is exact only for steady calls, and a rebase repairs one that was not if nothing was recorded
in between; the include chain is complete exactly when no two bundles reached share a text key, which ids that
contain an `@` can bring about; one idempotency key makes two tasks when creations overlap or ask different stores;
and a concurrency limit below one executes nothing.

## Model

| member | source | states |
|---|---|---|
| ThreadRuns.EveryRunIsTidy | packages/runtime/src/agent-loop.ts:304-624 | over every run of calls of one writer, each on what a crash may have left of the log: at no point of any log is a call passed over by a later message that calls tools, exactly when each call finds the calls it did not take up answered by the time it asks again |
| ThreadRuns.EveryRunReplays | packages/runtime/src/agent-loop.ts:304-624 | over every such run: every checkpoint replays exactly when each call checkpoints only what is all of its turn and carried thread, with no order of arrival in it |
| ThreadRuns.EveryRunMissesOnlyLost | packages/runtime/src/agent-loop.ts:304-624 | over every such run, whatever is passed over was left without an answer when some call rebuilt without it, or took it up passed over |
| ThreadRuns.EveryRunIsSound | packages/runtime/src/agent-loop.ts:304-624 | over every such run in which each call finds what it did not take up answered, no call is ever passed over; and if each also took up the whole thread, as its last turn, and no order of arrival shows, every checkpoint replays and every summary describes the history |
| AgentLoop.AgentLoop.Session | packages/runtime/src/agent-loop.ts:304-504 | real calls make these runs: new turns, resumptions and recoveries of any turn that has started, in any order, each after a crash that cuts the log off anywhere |
| ThreadRuns.CallKeepsTidy | packages/runtime/src/agent-loop.ts:780-820 | one call leaves a thread with nothing passed over at any point exactly when it was so before and what the call did not take up is answered in time |
| ThreadRuns.CallKeepsReplay | packages/runtime/src/agent-loop.ts:1413-1482 | one call leaves every checkpoint replaying exactly when they all did and it adds only unspoiled ones |
| TurnEndings.CrashAfterAsking | packages/runtime/src/agent-loop.ts:596-610 | a crash between an asking message and its checkpoint: the turn is recovered, asks again, and the first call is passed over, in a thread that was sound |
| TurnEndings.PassedOverStays | packages/runtime/src/agent-loop.ts:780-820 | a call once passed over stays so, whatever is logged later, until it is answered |
| AgentLoop.AgentLoop.Conversation | packages/runtime/src/agent-loop.ts:304-504 | real calls make such a run: turn after turn, each resumed while it is suspended, the log is sound, and with exclusive tools always steady |
| AgentLoop.AgentLoop.Converse | packages/runtime/src/agent-loop.ts:304-504 | one turn and its resumptions keep the log of the thread sound |
| AgentLoop.AgentLoop.CrashAndRecover | packages/runtime/src/agent-loop.ts:427-442 | recovering a turn from what a crash left: nothing is passed over exactly when nothing was in what was left and the calls not taken up are answered in time; every checkpoint replays exactly when those left do and the new ones are unspoiled, with exclusive tools exactly when nothing was orphaned or nothing is checkpointed |
| ThreadRuns.CallKeepsSound | packages/runtime/src/agent-loop.ts:304-504 | one call that finds what it did not take up answered keeps the thread sound, whatever it does inside |
| ThreadRuns.CrashKeepsSound | packages/runtime/src/agent-loop.ts:1413-1482 | every prefix of a sound log is sound, so a crash at any point leaves a thread that can be carried on |
| ThreadRuns.NewestIsLoaded | packages/runtime/src/agent-loop.ts:401-416 | in a steady log a load finds the newest recorded summary |
| ThreadRuns.DigestCheckPasses | packages/runtime/src/agent-loop.ts:1413-1482 | in a steady log the digest check of a rebuild never fails |
| ThreadLog.ReplayedIsCommitted | packages/runtime/src/agent-loop.ts:1446-1471 | a checkpoint replays exactly when the rebuilt history of its turn has the recorded digest |
| ThreadLog.LiveIsCommittedAndOrphans | packages/runtime/src/agent-loop.ts:1424-1449 | the messages of a turn in the log are those a rebuild returns followed by those logged after the last checkpoint |
| ThreadLog.LiveIsThread | packages/runtime/src/agent-loop.ts:317-323 | with no other turn after its start, the live history is the fold of the whole thread |
| ThreadRuns.NoOrphans | packages/runtime/src/agent-loop.ts:1312-1345 | a turn whose last event is its checkpoint leaves no message behind it |
| AgentLoop.AgentLoop.RunTurn | packages/runtime/src/agent-loop.ts:304-344 | a new turn on any thread opens with its own events, and ends as what the model said, the tools did and the signal showed since then say: cancelled exactly when the abort was noticed, suspended exactly when a tool asked for an approval, which is the one returned, completed exactly when the last reply ends the turn, with its output, and failed otherwise, for a reason; it passes over only what the thread passed over, or all it forgets when nothing is carried on; a checkpoint in it replays exactly when history is carried on, or there was none, and no order of arrival shows before it, and then a summary in it describes the thread exactly when none shows in what it covers; rounds are bounded |
| AgentLoop.AgentLoop.ResumeTurn | packages/runtime/src/agent-loop.ts:444-504 | records the decision exactly when the history rebuilds and the approval is the waiting one; then runs the waiting call, records what the tool answered, and ends as the trace says, as a new turn does, unless the call asks again; otherwise nothing happens; once it asks again the thread misses exactly what the rebuilt history misses or does not know of; new checkpoints replay exactly when no message was orphaned and no order of arrival shows |
| AgentLoop.AgentLoop.RecoverTurn | packages/runtime/src/agent-loop.ts:427-442 | drives a turn exactly when it is active, waits for nothing and its history rebuilds, and ends as the trace says, as a new turn does; once it asks again the thread misses exactly what the rebuilt history misses or does not know of; new checkpoints replay exactly when the crash orphaned no message and no order of arrival shows |
| AgentLoop.AgentLoop.Rebuild | packages/runtime/src/agent-loop.ts:1413-1482 | carried prefix plus the messages up to the last checkpoint; fails exactly on another digest, and records that |
| LoopSteps.BegunMeans | packages/runtime/src/agent-loop.ts:1413-1482 | a rebuilt turn goes on from the step of its last checkpoint, and from the first without one |
| AgentLoop.AgentLoop.Drive | packages/runtime/src/agent-loop.ts:510-624 | ends as the trace says: cancelled, suspended, completed or failed exactly when it should be; a turn whose last reply called tools fails only out of steps, and one that ran into the output cap only out of steps or doublings; every message the history gains was said by the model or answers a call truly; at most steps left plus cap doublings rounds, model calls bounded by rounds times attempts plus summaries, one checkpoint a step, a completed turn ends on a checkpoint with every call answered but those passed over before, history only grows |
| AgentLoop.AgentLoop.Round | packages/runtime/src/agent-loop.ts:522-622 | one pass, told from its trace: it completes the turn exactly on a reply that ends it, with all calls settled and that output; goes on to the next step exactly on a reply that called tools which all settled; raises the cap for the same step exactly on a truncated reply when there is room; is cancelled exactly when aborted, and suspended exactly when a tool asked; the history gains the open answers, the reply and its answers, and the log has the reply, or the failure of a truncated one, and the checkpoint |
| AgentLoop.AgentLoop.Conclude | packages/runtime/src/agent-loop.ts:551-622 | what a pass makes of the outcome of a generation: nothing, a truncated reply, or a reply to act on |
| AgentLoop.AgentLoop.FinishStep | packages/runtime/src/agent-loop.ts:594-622 | the reply is acted on, the step checkpointed, and the turn completed exactly on a reply that ends it |
| LoopTrace.LastPass | packages/runtime/src/agent-loop.ts:510-624 | a pass that ends the turn ends it as the trace of the whole drive says |
| LoopTrace.TopOfLoop | packages/runtime/src/agent-loop.ts:522-530 | at the top of the loop an abort cancels, and no step left fails |
| LoopTrace.ActingIsPass | packages/runtime/src/agent-loop.ts:594-622 | acting on a reply: the end or the next step, told from the reply and the tools |
| LoopTrace.ActingIsLogged | packages/runtime/src/agent-loop.ts:594-611 | and the reply stands in the log under the item it opened |
| AgentLoop.AgentLoop.Settle | packages/runtime/src/agent-loop.ts:533-549 | answers exactly the calls left open, in order, with what their tools did, before the model is called; goes on exactly when nothing aborted it and no tool asked; that counts as a step, with its checkpoint |
| AgentLoop.AgentLoop.Act | packages/runtime/src/agent-loop.ts:595-611 | the assistant message enters log and history under the id it was opened with, then one true answer for each intent in model order unless an abort or an approval ends the turn |
| AgentLoop.AgentLoop.Generate | packages/runtime/src/agent-loop.ts:980-1056 | called only with every call answered but those passed over in the history that was taken up; all attempts show the same projection of the folded history between what the hooks gave, there are at most `maxRetries + 1` of them, each but the last failed in a way worth another try, and the outcome is what the last one said |
| AgentLoop.AgentLoop.Attempt | packages/runtime/src/agent-loop.ts:1099-1262 | what one model call comes to, for every way it may end, and exactly what it leaves in the log: its item, the request, the calls that streamed in, and its failure if it was aborted, cancelled or broken; no message |
| LoopTrace.GotIsRound | packages/runtime/src/agent-loop.ts:1011-1029 | an attempt that gets something after failures worth another try is the outcome of the round |
| LoopTrace.LoggedIsInLog | packages/runtime/src/agent-loop.ts:1099-1262 | what was generated is in the log as it began: its message and all its calls |
| AgentLoop.AgentLoop.MaybeCompact | packages/runtime/src/agent-loop.ts:850-909 | asks for a summary exactly when it is time to, attempts are left, and enough is newly covered; covers all but the recent window; what the summarizer says is the new summary, which describes the history; logs exactly the request and the summary |
| LoopSteps.FoldsExactlyAPrefix | packages/runtime/src/agent-loop.ts:956-971 | a summary goes on describing a growing history; the view is the summary and then the exact uncovered rest |
| LoopSteps.ViewOfAll | packages/runtime/src/agent-loop.ts:956-971 | without a summary, or with one of another history, the model sees all of it |
| ThreadLog.LoadedIsNewest | packages/runtime/src/agent-loop.ts:401-416 | when every recorded summary describes the history, loading picks the newest recorded one |
| ThreadLog.AppliesLonger | packages/runtime/src/agent-loop.ts:418-425 | a summary that describes a history describes every longer one |
| AgentLoop.AgentLoop.LoadCompaction | packages/runtime/src/agent-loop.ts:401-416 | the newest recorded summary whose digest matches the beginning of the history |
| ThreadLog.LoadedMeans | packages/runtime/src/agent-loop.ts:401-416 | by index: the last recorded summary that describes the history, or none exactly when none does |
| AgentLoop.AgentLoop.MessagesFromEvents | packages/runtime/src/agent-loop.ts:357-393 | folds completed items to messages in event order |
| AgentLoop.AgentLoop.RunIntents | packages/runtime/src/agent-loop.ts:638-692 | results enter history in model order, each the true answer of its call, one for each intent when the turn goes on, which is exactly when nothing aborted it and no tool asked; what ties log and history is kept |
| AgentLoop.AgentLoop.RunExclusive | packages/runtime/src/agent-loop.ts:646-653 | one call at a time, each recorded and pushed before the next, with what the tool did; stopped exactly by an abort or an approval |
| AgentLoop.AgentLoop.RunBatch | packages/runtime/src/agent-loop.ts:655-690 | the log gains, arrival by arrival, a permutation of what the history gains, and with distinct call ids the same sequence exactly when the batch finished in model order; every result is what its tool did; a checkpoint taken in it records the history from before it |
| LoopSteps.BatchesEnd | packages/runtime/src/agent-loop.ts:655-660 | the batches of a segment come to its end exactly when there is room for one call, or no call |
| ThreadRuns.CheckpointReplays | packages/runtime/src/agent-loop.ts:678-690 | a checkpoint outside of batches replays exactly when every batch before it arrived in model order |
| ThreadRuns.SummaryDescribes | packages/runtime/src/agent-loop.ts:401-425 | a summary describes its thread exactly when every result it covers arrived in model order |
| LoopBooks.BatchKeeps | packages/runtime/src/agent-loop.ts:655-690 | after a batch, logged and live history have the same beginnings exactly where no order of arrival shows |
| ParallelBatch.OrderMatters | packages/runtime/src/agent-loop.ts:678-690 | results in arrival order equal results in model order exactly for arrival in model order |
| ParallelBatch.PickedPermutes | packages/runtime/src/agent-loop.ts:663-690 | every arrival order gives the same results, as a multiset |
| ParallelBatch.EarlierHistory | packages/runtime/src/agent-loop.ts:1312-1345 | a checkpoint that records the history from before a batch replays exactly when that was the logged one and no sibling result was logged before it |
| AgentLoop.AgentLoop.SegmentIntents | packages/runtime/src/agent-loop.ts:697-719 | segments concatenate to the intents, are uniform and not empty, and alternate; a call with an input error runs alone |
| AgentLoop.AgentLoop.Dispatch | packages/runtime/src/agent-loop.ts:722-773 | uses the tool once, or not at all for an input error, and records what it did under the item of this call, or the approval it asked for with a checkpoint; errors become error results |
| AgentLoop.AgentLoop.UnansweredIntents | packages/runtime/src/agent-loop.ts:780-820 | exactly the calls of the last asking message that have no result in history |
| ThreadLog.WithoutMeans | packages/runtime/src/agent-loop.ts:780-820 | what is left open keeps its order and its repetitions |
| ThreadLog.NoneUnanswered | packages/runtime/src/agent-loop.ts:533-535 | with nothing left of the last asking message, only what was passed over is open |
| ThreadLog.AnsweringSettles | packages/runtime/src/agent-loop.ts:533-549 | answering what was left of the last asking message leaves open only what was passed over |
| TurnRecords.FindTurn | packages/runtime/src/agent-loop.ts:1493-1508 | a terminal state wins over the started turn |
| TurnRecords.FoundMeans | packages/runtime/src/agent-loop.ts:1493-1508 | the last recorded end of a turn says how it is; without one it is active if it started |
| TurnRecords.FindPendingApproval | packages/runtime/src/agent-loop.ts:1510-1551 | the first undecided approval whose call has an open tool item of this turn |
| TurnRecords.WaitingMeans | packages/runtime/src/agent-loop.ts:1510-1551 | by index: the first undecided approval with an open tool item, with the last item started for its call, whose input error is dropped |
| TurnRecords.NobodyWaits | packages/runtime/src/agent-loop.ts:1510-1551 | and none if there is no such approval |
| TurnRecords.SuspendedIsResumable | packages/runtime/src/agent-loop.ts:1510-1551 | a call that suspends its turn alone is what a rebuild waits for exactly when no approval waited before and the turn itself started its tool item |
| TurnEndings.AloneSuspensionResumes | packages/runtime/src/agent-loop.ts:646-653 | with nothing else waiting, a new turn suspended so resumes with the approval it returned exactly when it took up its thread, its batches agree in log and history, and it started that tool item |
| TurnRecords.BatchIsResumable | packages/runtime/src/agent-loop.ts:655-690 | a turn suspended in a batch, with new and distinct approvals, nothing waiting before and all tool items its own, resumes with the approval it returned exactly when its history was whole, every earlier batch agrees in log and history, the first call to ask in model order was the first to ask, and no sibling result was logged before the last suspension |
| TurnEndings.BatchSuspensionResumes | packages/runtime/src/agent-loop.ts:304-344 | the same of what a new turn leaves behind, whole when history is carried on or there was none |
| TurnRecords.ReturnedIsWaiting | packages/runtime/src/agent-loop.ts:1524-1549 | a rebuild waits for the first arrival that asked, which is the approval returned exactly when the first in model order arrived first |
| TurnRecords.LastSuspensionReplays | packages/runtime/src/agent-loop.ts:680-690 | the last suspension of a batch replays exactly when the history was whole, every earlier batch agrees in log and history, and no sibling result was logged before it |
| TurnRecords.SecondAsksFirst | packages/runtime/src/agent-loop.ts:680-690 | two calls ask and the second arrives first: the approval returned is refused by a resumption |
| TurnRecords.CarriedCallCannotResume | packages/runtime/src/agent-loop.ts:780-820 | a turn that suspends on a call left open by an earlier turn has nothing to resume: a concrete log |
| LoopBooks.BooksStep | packages/runtime/src/agent-loop.ts:1268-1281 | every event keeps the relation between log and live history, checkpoints and summaries included |
| OutputCap.EscalationsAreLog | packages/runtime/src/agent-loop.ts:565-583 | the cap can be raised as often as the binary logarithm of maximum over cap, rounded up |
| ContextPolicy.ProjectHistory | packages/runtime/src/context-policy.ts:79-125 | elides the shortest oldest-first prefix of the unprotected results that brings the rest within budget, or all, each in place, and lists them in order |
| ContextPolicy.ViewKeeps | packages/runtime/src/context-policy.ts:79-125 | length, roles, ids, all other messages, errors and the recent window are kept |
| ContextPolicy.EligibleMeans | packages/runtime/src/context-policy.ts:79-125 | by position: exactly the results that are no error and not in the window may be elided |
| ContextPolicy.ElisionsTell | packages/runtime/src/context-policy.ts:100-125 | each elision names its result, tool, tokens and content, oldest first, and its result is replaced |
| ContextPolicy.WindowSize | packages/runtime/src/context-policy.ts:89 | the window is the last `keepRecent` results exactly when that number is positive or leaves nothing |
| ContextPolicy.ZeroWindowElidesNothing | packages/runtime/src/context-policy.ts:89 | a window of zero protects every result |
| ExecutionWorld.AtMostOnce | packages/execution/src/execution-world.ts:471-725 | over every run of concurrent calls, failures, lost appends, crashes and restarts the sandbox is entered at most once, after `started` is durable, by a call that was allowed or asked and approved |
| ExecutionWorld.StreamShape | packages/execution/src/execution-world.ts:492-725 | the stream is always a prefix of requested, snapshot, approval request if any, then one verdict; a failure follows a result only if the append of a result landed and rejected |
| ExecutionWorld.LostResultIsContradicted | packages/execution/src/execution-world.ts:685-712 | in every such state: the failure is recorded after the result and told to the caller, while every later call is answered with the result |
| ExecutionWorld.StepKeepsInv | packages/execution/src/execution-world.ts:471-725 | every step of every interleaving keeps the protocol invariant |
| ExecutionRuns.ResultsComeFromTheSandbox | packages/execution/src/execution-world.ts:676-699 | over every run: a recorded result is what the sandbox answered to a call that had entered it |
| ExecutionRuns.TellsComeFromTheSandbox | packages/execution/src/execution-world.ts:676-717 | over every run: the result or failure a caller is told without replay is what the sandbox answered it, or what failed it |
| ExecutionRuns.EntriesAreCleared | packages/execution/src/execution-world.ts:611-668 | over every run: a sandbox entry had arrived, was allowed or asked and approved, what was reported can enforce all its requirements, and a broker was there if it needs secrets |
| ExecutionRuns.AnswerIsKept | packages/execution/src/execution-world.ts:676-699 | once the sandbox has answered, in any run without failure of the call or crash, the call is on its way to record and return that answer, and has done so after six steps of its own |
| ExecutionRuns.SixStepsRecord | packages/execution/src/execution-world.ts:676-699 | six steps of its own record the answer last and return it |
| ExecutionRuns.AnswersAreToTheRequest | packages/execution/src/execution-world.ts:499-504 | over every run, whoever is given an answer asked for just what the stream records |
| ExecutionRuns.DecisionLeads | packages/execution/src/execution-world.ts:579-668 | what a decision leads to, and with which reason: the sandbox, a request for approval, or a denial, each exactly when it should |
| ExecutionRuns.ReportLeads | packages/execution/src/execution-world.ts:545-578 | the first answer of the policy is recorded, unless one already is |
| ExecutionEndings.FailureIsTold | packages/execution/src/execution-world.ts:700-718 | a failure in the effect is recorded with its message, or a stand-in for none, and told to the caller |
| ExecutionEndings.FailureRejects | packages/execution/src/execution-world.ts:492-725 | any other failure rejects the call, and leaves stream and sandbox as they are |
| ExecutionEndings.UnrecordedFailureRejects | packages/execution/src/execution-world.ts:700-724 | a failure that cannot be recorded rejects the call |
| ExecutionEndings.InvalidRequestRejects | packages/execution/src/execution-world.ts:475 | a request that is not valid rejects before anything is read |
| ExecutionEndings.WaitersShare | packages/execution/src/execution-world.ts:476-480 | who waits for a call is rejected with it, or starts over once it is done, and not before |
| ExecutionEndings.NobodyIsStuck | packages/execution/src/execution-world.ts:471-490 | in every reachable state every call can come to its end: no key is held for good |
| ExecutionWorld.AppendNeverConflicts | packages/execution/src/execution-world.ts:745-752 | inside one process the tail read and the append always fit |
| ExecutionWorld.AnswersAreDurable | packages/execution/src/execution-world.ts:471-725 | what a caller was told stays what the stream says, an approval to give included |
| ExecutionWorld.DenialIsFinal | packages/execution/src/execution-world.ts:524-532 | a denied key never enters the sandbox |
| ExecutionWorld.StoredVerdictAnswers | packages/execution/src/execution-world.ts:492-541 | how a stored request answers the next call: collision, result, denial, reconciliation, or a fresh decision |
| ExecutionWorld.OneVerdict | packages/execution/src/execution-world.ts:492-725 | a stream holds one verdict, completed, failed or denied, but for a result that a failure contradicts |
| ExecutionWorld.NoReplayAfterCrash | packages/execution/src/execution-world.ts:517-523 | once started, no run after a crash enters the sandbox again |
| ExecutionWorld.LayerMeans | packages/execution/src/execution-world.ts:235-253 | within a layer deny beats ask beats allow, and no match denies |
| ExecutionWorld.IntersectionMeans | packages/execution/src/execution-world.ts:235-271 | all layers together: allow exactly when every layer does, deny exactly when some layer denies or grants nothing |
| ExecutionWorld.LayersOnlyTighten | packages/execution/src/execution-world.ts:211-271 | adding layers anywhere never relaxes a decision |
| PluginOrder.ValidateAndOrder | packages/kernel/src/kernel.ts:248-301 | orders exactly the well-formed acyclic graphs, as a permutation with providers first, in the one order of a depth-first search over the plugins as given; otherwise reports a real duplicate, missing service or cycle |
| PluginOrder.Sorter.Visit | packages/kernel/src/kernel.ts:285-298 | depth-first visit: finishes a plugin after all it depends on, or closes a real cycle |
| PluginOrder.Register | packages/kernel/src/kernel.ts:255-267 | ids and providers are unique, or the first repetition is reported |
| PluginOrder.Connect | packages/kernel/src/kernel.ts:269-280 | the edges are the dependencies, or a service nobody provides is reported |
| PluginOrder.NoCycle | packages/kernel/src/kernel.ts:282-300 | an order with providers first excludes every cycle |
| DepthFirst.AllVisitedOnce | packages/kernel/src/kernel.ts:282-300 | the search order is determined by the order of the nodes and of their edges |
| PluginOrder.EdgesInOrder | packages/kernel/src/kernel.ts:271-279 | providers are visited in the order in which they are first needed, each once |
| Reconcile.CreateReconcilePlan | packages/kernel/src/kernel.ts:888-932 | the plan kind, told by the two graphs alone, and exactly the changed plugins with their tiers, each once, in the order of the two tables |
| Reconcile.ChangesMean | packages/kernel/src/kernel.ts:888-932 | no change exactly for equal graphs; live update and restart exactly when the changed plugins say so |
| Reconcile.ChangeMeans | packages/kernel/src/kernel.ts:869-920 | kind and tier of a change, told by the two plugins: configured keeps all but settings, tier A needs that and both sides to say so, tier C either side |
| Reconcile.MentionedBefore | packages/kernel/src/kernel.ts:892-894 | the ids come in the order of their first mention |
| Reconcile.UpdateInPlace | packages/kernel/src/kernel.ts:459-521 | every plugin moves, or every plugin is what it was but for those that moved and would not roll back, which are reported |
| Reconcile.AllWellMeans | packages/kernel/src/kernel.ts:471-492 | an update goes well exactly when no fiber that changes refuses and none is unhealthy |
| Reconcile.MountsMean | packages/kernel/src/kernel.ts:471-502 | what each fiber runs after it: the new plugin if all went well, else the old one, but for one that moved before the first refusal and refuses to go back |
| Reconcile.FailedUpdateIsUndone | packages/kernel/src/kernel.ts:490-517 | a failed update leaves everything mounted as it was exactly when every plugin that moved rolls back |
| Reconcile.ApplyUpdates | packages/kernel/src/kernel.ts:471-483 | updates fibers in order up to the first that refuses |
| Reconcile.Rollback | packages/kernel/src/kernel.ts:494-502 | restores what was touched in reverse, and reports what stays stuck |
| Generations.LeasesAreCounted | packages/kernel/src/kernel.ts:397-424 | in every run, overlapping calls included, the references of a generation are the unreleased leases on it; at most one generation is active |
| LeaseHolders.ReferencesAreCounted | apps/bee/src/kernel-runtime.ts:105-176 | the references are the calls in flight plus the waiting suspended turns throughout a run exactly when every step of it fits |
| LeaseHolders.StepCounts | apps/bee/src/kernel-runtime.ts:113-176 | which step fits: a call begins on a suspended turn nobody goes on with; a suspension replaces a lease nobody else holds; an ending turn gives up only a lease another call has; a call that keeps its lease after an error leaves it to its turn |
| LeaseHolders.AloneCounts | apps/bee/src/kernel-runtime.ts:105-176 | when calls on one turn never overlap, every step fits |
| Generations.StepKeepsState | packages/kernel/src/kernel.ts:661-773 | every step keeps states and lease counts in order |
| Generations.ReferencedIsUntouched | packages/kernel/src/kernel.ts:661-766 | a referenced generation is neither disposed nor updated in place by a reconcile |
| Generations.FailureChangesNothing | packages/kernel/src/kernel.ts:661-766 | a reconcile that neither activates nor updates leaves every generation as it was exactly when no plugin of a failed update is stuck where it moved to |
| Generations.ReconcileAnswers | packages/kernel/src/kernel.ts:661-766 | every answer of a reconcile, exactly when it is given: activated exactly when the version is another, nothing that changes needs a restart, the graph can be ordered, no update in place applies, and the candidate prepared |
| Generations.ReconcileChanges | packages/kernel/src/kernel.ts:661-766 | what each answer changes: the new generation active with its graph and version, the one before draining exactly when it is held, or the same generation updated; nothing else |
| Generations.ReconcileTwice | packages/kernel/src/kernel.ts:661-668 | reconciling again to what became active changes nothing and says so |
| Generations.GenerationsRunTheirGraphs | packages/kernel/src/kernel.ts:459-521 | throughout a run every generation runs the graph it was given last exactly when no failed update leaves a plugin stuck |
| Generations.ReconcileRunsGraphs | packages/kernel/src/kernel.ts:661-766 | the same of one reconcile, the new and the updated generation included |
| TurnPinning.SuspendedTurnStaysPinned | apps/bee/src/kernel-runtime.ts:105-176 | no step moves a suspended turn, or a call that goes on with it, to another generation, and its generation is kept as long as its lease is held once |
| TurnPinning.ResumesWhereItStarted | apps/bee/src/kernel-runtime.ts:113-159 | over any run from where a turn started, until it ends, the turn and every call that goes on with it stay on the generation that was active then |
| LeaseHolders.OverlapLeaksALease | apps/bee/src/kernel-runtime.ts:130-176 | two overlapping recoveries of one turn leave a reference nobody holds |
| LeaseHolders.OverlapRevivesALease | apps/bee/src/kernel-runtime.ts:146-176 | two overlapping resumptions pin a turn to a released lease |
| LeaseHolders.Finishing | apps/bee/src/kernel-runtime.ts:113-176 | settling or cleaning up after a call keeps every open lease with its one holder, or else the count is off |
| KernelRuntime.Kernel.BeginTurn | packages/kernel/src/kernel.ts:768-782 | pins the active generation, if there is one |
| KernelRuntime.Kernel.ReleaseLease | packages/kernel/src/kernel.ts:572-576 | releases once; the last release of a draining generation disposes it |
| KernelRuntime.Kernel.ReconcileGraph | packages/kernel/src/kernel.ts:661-766 | refines the reconcile step of the model, the update in place of the mounted plugins included, with the order of the search |
| KernelRuntime.Kernel.UpdateRunning | packages/kernel/src/kernel.ts:459-521 | moves the fibers of the active generation to the ordered graph, or back |
| KernelRuntime.PinnedAgentLoop.BeginRunTurn | apps/bee/src/kernel-runtime.ts:113-128 | first half of running a turn: a new lease on the active generation |
| KernelRuntime.PinnedAgentLoop.BeginOnTurn | apps/bee/src/kernel-runtime.ts:130-159 | first half of recovering or resuming: the lease of the suspended turn, or a new one; the count stays right exactly when no call goes on with the turn already |
| KernelRuntime.PinnedAgentLoop.FinishCall | apps/bee/src/kernel-runtime.ts:113-176 | second half: keep, hand over or release the lease by the result; the count stays right exactly when the step fits |
| TransitionPath.ShortestTransitionPath | packages/kanban/src/state-machine.ts:85-113 | for every table: a legal path that stands on no barred status and that no permitted path undercuts, or none exactly when none exists |
| TransitionPath.Explore | packages/kanban/src/state-machine.ts:103-110 | the inner loop keeps the queue sorted by length and every finished status covered |
| TransitionPath.FirstArrival | packages/kanban/src/state-machine.ts:85-113 | every permitted path passes through an open walk that is no longer |
| KanbanTask.TableIsTotal | packages/kanban/src/state-machine.ts:16-66 | the Kanban table has an entry for each status and stays within itself |
| KanbanTask.EnteredFrom | packages/kanban/src/state-machine.ts:16-37 | the table read by its targets: from where each status can be entered |
| KanbanTask.PathsMean | packages/kanban/src/state-machine.ts:85-113 | a task is walked along legal moves, never through failed, cancelled or archived unless it starts there |
| KanbanTask.PreparedIsLegal | packages/kanban/src/store.ts:281-393 | a write prepared from a card that agrees with its stream is legal there, which says field by field what each kind of event keeps of a card, and folds to the card shown next |
| KanbanTask.VersionIsLength | packages/kanban/src/store.ts:163-213 | the version of a folded card is the length of its stream, and only a running card holds a claim |
| KanbanTask.RecordedEdgesAreLegal | packages/kanban/src/state-machine.ts:55-66 | every recorded status change is a legal edge from the folded status before it |
| KanbanTask.CommentTime | packages/kanban/src/store.ts:368-393 | a comment folds to the shown card exactly when it bears the time of the last update |
| KanbanTask.OtherWritesFoldExactly | packages/kanban/src/store.ts:281-366 | every other write folds to exactly the shown card |
| KanbanTask.FoldTells | packages/kanban/src/store.ts:163-213 | over every legal stream: id, key, creation time and dependencies are those of the creation, details those of the last update, status that of the last move, the end that of the last terminal move, and the comments all of them in order |
| KanbanTask.WrittenCard | packages/kanban/src/store.ts:281-393 | what each write makes of the card, field by field; a move changes status, version, times and claim alone, an update what its patch gives |
| KanbanTask.RefusedWhen | packages/kanban/src/store.ts:281-393 | when each write is refused, and with which error |
| KanbanTask.CreatedCard | packages/kanban/src/store.ts:269-279 | what a creation starts with |
| KanbanStore.CardsShowTheLog | packages/kanban/src/store.ts:269-438 | for any number of stores and any interleaving, each card is the fold of the first `version` events of its stream, the time of the last update aside |
| KanbanStore.StepKeepsInv | packages/kanban/src/store.ts:269-438 | every step of every interleaving keeps boards, pending writes and log together |
| KanbanStore.AppendTouchesOne | packages/kanban/src/store.ts:420-438 | a write that lands changes the stream of its own task and no other |
| KanbanStore.RebuildSteps | packages/kanban/src/store.ts:395-406 | a rebuild empties one board and shows one more folded card at a time, and touches nothing else |
| KanbanStore.IndexingShows | packages/kanban/src/store.ts:420-438 | the last step of a write shows its card on its own board, under its key, and nothing else changes |
| KanbanStore.WriteLandsIfCurrent | packages/kanban/src/store.ts:420-430 | a write lands exactly when the stream is still as long as the version it started from |
| KanbanStore.OneWriterWins | packages/kanban/src/store.ts:420-430 | of two writes from one version, once one has landed the other never does |
| KanbanStoreObject.ChronicleKanbanStore.Commit | packages/kanban/src/store.ts:420-438 | appends one event and shows the card, or changes nothing |
| KanbanStoreObject.ChronicleKanbanStore.Create | packages/kanban/src/store.ts:269-279 | an uninterrupted call: creates the task unless the board knows the idempotency key, which is then the answer |
| KanbanStore.CreationLands | packages/kanban/src/store.ts:269-279 | a creation lands exactly when its store shows no card under its key as it begins and its task has no events |
| KanbanStore.OverlappingCreations | packages/kanban/src/store.ts:269-279 | two creations with one key that begin before either is shown both land exactly when neither store shows a card under the key |
| KanbanStore.SuccessiveCreations | packages/kanban/src/store.ts:269-279 | once the first is shown, a second one lands exactly when it is asked of another store that shows none |
| KanbanStoreObject.ChronicleKanbanStore.Perform | packages/kanban/src/store.ts:281-393 | transitions, renewals, updates and comments: what each write does to log and board, the kept fields of the card included, and when it is refused |
| KanbanStoreObject.ChronicleKanbanStore.Rebuild | packages/kanban/src/store.ts:395-406 | every task stream becomes a card, and nothing else does |
| KanbanStoreObject.ChronicleKanbanStore.TransitionAlongPath | packages/kanban/src/tools.ts:222-247 | ends at the target with one event a hop and the version raised by the length of a shortest path, exactly when there is a path and the card is current |
| Chronicle.MemoryChronicleStore.AppendEvents | packages/knowledge/src/testing.ts:265-314 | refines the append function; sequences stay gapless and streams only grow |
| Chronicle.RetryIsIdempotent | packages/knowledge/src/testing.ts:283-299 | repeating a batch at any later time changes nothing and answers with the stored events |
| Chronicle.SecondWriterConflicts | packages/knowledge/src/testing.ts:283-299 | of two batches for one place the second never lands |
| Chronicle.AppendKeeps | packages/knowledge/src/testing.ts:265-314 | an append touches one stream and only its end |
| Chronicle.AppendMeans | packages/knowledge/src/testing.ts:265-314 | a batch is taken exactly when it is empty, asks for the next place, or stands there already event by event; what is answered for each event |
| DispatchSteps.NeverOverLimit | packages/kanban/src/dispatcher.ts:48-69 | over every run no worker claims more than `maxConcurrent` tasks, and only running tasks hold claims |
| DispatchSteps.StepKeepsInv | packages/kanban/src/dispatcher.ts:31-190 | every dispatcher and store step keeps claims in order, leases distinct and workers within their limit |
| DispatchSteps.EndedLeaseStaysEnded | packages/kanban/src/dispatcher.ts:71-155 | a lease that once ended is never held again |
| DispatchSteps.EndedLeaseIsFenced | packages/kanban/src/dispatcher.ts:71-142 | with an ended lease no heartbeat, completion, failure or block does anything |
| DispatchSteps.ReleaseEndsLease | packages/kanban/src/dispatcher.ts:83-155 | finishing, reclaiming and cancelling end the lease of the task |
| DispatchSteps.ClaimMeans | packages/kanban/src/dispatcher.ts:48-69 | a claimed task was ready, due and had its blocking dependencies satisfied; nothing else changes |
| DispatchSteps.ClaimsTheNext | packages/kanban/src/dispatcher.ts:31-69 | what is claimed is ready, its schedule has come, every blocking dependency is on the board in the status it waits for, and no such task is sooner in the queue |
| DispatchSteps.QueueMeans | packages/kanban/src/store.ts:144-161 | the queue goes by priority, deadline, schedule and creation, no date last, and only equals are a tie |
| DispatchSteps.ClaimLasts | packages/kanban/src/dispatcher.ts:48-99 | a claimed task can be taken back exactly when a lease duration has gone by since the claim |
| DispatchSteps.RenewalLasts | packages/kanban/src/dispatcher.ts:71-99 | and a renewed one since the renewal |
| DispatchSteps.ReleaseMoves | packages/kanban/src/dispatcher.ts:101-155 | the holder of a lease moves its task to done, failed or blocked, anyone cancels one that is not at its end, and nothing else changes |
| DispatchSteps.RoomMeans | packages/kanban/src/dispatcher.ts:161-166 | a worker has room as long as it runs fewer tasks than its limit, and always without a limit |
| DispatchSteps.CreationAdds | packages/kanban/src/store.ts:269-279 | a creation adds one card to the inbox and touches no other |
| KanbanDispatcher.KanbanDispatcher.ReadyTasks | packages/kanban/src/dispatcher.ts:31-41 | exactly the runnable tasks, in queue order |
| KanbanDispatcher.KanbanDispatcher.ClaimNext | packages/kanban/src/dispatcher.ts:48-69 | claims a runnable task that no other comes before; none exactly when the worker is full or nothing is runnable |
| KanbanDispatcher.KanbanDispatcher.CheckCapacity | packages/kanban/src/dispatcher.ts:161-166 | whether the worker runs fewer tasks than its limit |
| KanbanDispatcher.KanbanDispatcher.Heartbeat | packages/kanban/src/dispatcher.ts:71-80 | renews exactly a lease that is held |
| KanbanDispatcher.KanbanDispatcher.Finish | packages/kanban/src/dispatcher.ts:101-142 | completes, fails or blocks exactly under the lease that is held, and drops the claim |
| KanbanDispatcher.KanbanDispatcher.ReclaimExpired | packages/kanban/src/dispatcher.ts:83-99 | exactly the expired running tasks go back to ready; all others stay |
| KanbanDispatcher.KanbanDispatcher.List | packages/kanban/src/store.ts:234-267 | the tasks of a status, each once, sorted |
| Sse.ParseSseStream | packages/client/src/sse.ts:14-39 | any chunking of any text yields the frames of the whole text, tail included |
| Sse.FindFrameBoundary | packages/client/src/sse.ts:42-52 | the first boundary of either style, or none exactly when there is none |
| Sse.BoundaryIsStable | packages/client/src/sse.ts:42-52 | text that arrives later never moves a boundary already found |
| Sse.ParseFrame | packages/client/src/sse.ts:54-72 | refines the frame assembled from the last id, the last event and all data lines |
| Sse.FrameMeans | packages/client/src/sse.ts:54-72 | a frame is one exactly when a line sets one of its fields; it has the last id and event, and all data |
| Sse.LastLineCounts | packages/client/src/sse.ts:54-72 | the last line of a field is what counts |
| Sse.LinesMean | packages/client/src/sse.ts:58 | lines end with a line feed, and a carriage return before it is no part of them |
| Sse.LineMeans | packages/client/src/sse.ts:59-63 | field and value of a line, with at most one space dropped, and which lines are ignored |
| Sse.WireRoundTrip | apps/bee/src/routes/threads.ts:234-239 | every event the host writes is read back once, in order and unchanged, and heartbeats leave no trace |
| Sse.Receive | packages/client/src/sse.ts:14-39 | the same through any network chunking |
| WorldRebuild.StrictRecovers | packages/knowledge/src/world.ts:125-219 | after any run of `record` a strict rebuild recovers entities, relations, version and digest exactly when no call gave a new entity two seen times; otherwise it fails |
| WorldRuns.StrictRecoversAny | packages/knowledge/src/world.ts:125-303 | after any run of `record` and rebasing rebuilds a strict rebuild recovers entities, relations, version and digest exactly when each unsteady call was followed by a rebase before anything else was recorded, and otherwise fails |
| WorldRuns.OpKeepsFit | packages/knowledge/src/world.ts:125-303 | what each operation makes of a store that holds what its stream says, that ends in one bad bump, or that is past repair |
| WorldRebuild.StrictMeans | packages/knowledge/src/world.ts:140-199 | a strict rebuild succeeds exactly when no two bumps in a row mismatch and the last one matches |
| WorldRebuild.RebaseIsIdempotent | packages/knowledge/src/world.ts:188-219 | a rebase never fails; a second one appends nothing and leaves the same state |
| WorldRebuild.CorrectiveExceeds | packages/knowledge/src/world.ts:195-212 | with increasing bump versions the corrective version exceeds every earlier one |
| WorldRebases.RebaseMeans | packages/knowledge/src/world.ts:125-219 | a rebase agrees with a strict rebuild wherever that succeeds; elsewhere it keeps the folded world and appends one corrective bump unless the last one says so already; its version exactly, one above the last or two after an odd run of bad bumps |
| World.CallReplays | packages/knowledge/src/world.ts:350-398 | the facts of one call replay to its state exactly when the call is steady |
| World.SteadyRun | packages/knowledge/src/world.ts:236-303 | in a steady run every bump matches the fold of the stream |
| World.UnsteadyRun | packages/knowledge/src/world.ts:236-303 | one unsteady call spoils every later bump |
| World.FactsMean | packages/knowledge/src/world.ts:39-59 | what a replay makes of the recorded facts, entity by entity |
| WorldContents.CallIsTold | packages/knowledge/src/world.ts:39-59 | after a call, told from its inputs by index: which entities are there and what they are, each attribute the value of the last input that gives it or else the one before, relations likewise |
| WorldContents.RunIsTold | packages/knowledge/src/world.ts:236-303 | the same of a whole run, whose version counts its recordings |
| WorldRebuild.WorldModelStore.RecordNow | packages/knowledge/src/world.ts:236-303 | refines one recorded call, and leaves each entity, attribute and relation as the inputs tell by index: the last value given, or else the one before |
| WorldRebuild.WorldModelStore.Rebuild | packages/knowledge/src/world.ts:125-219 | refines the replay under both policies |
| Structure.ResolveEffectiveStructure | packages/kernel/src/structure.ts:191-318 | the chain lists bundles reached from the root, each key once, includes before includers, the root last, in the one order of a depth-first visit; each slot is the last-wins fold of the chain; an error names a path that comes back to a key, a missing or mismatched include, or the first open slot |
| Structure.Resolver.Visit | packages/kernel/src/structure.ts:199-232 | depth-first includes: adds, include by include in their order, what each one brings, and the bundle last; or reports a path that comes back to a key, or an include that does not load |
| Structure.ResolvedChain | packages/kernel/src/structure.ts:199-234 | the chain of a successful resolution has every bundle reached from the root exactly when no two of those share a text key |
| Structure.ResolvedIsAcyclic | packages/kernel/src/structure.ts:199-234 | then no include path comes back to a bundle |
| Structure.VisitedOnce | packages/kernel/src/structure.ts:199-234 | the order of the chain is determined by the order of the includes |
| Structure.ReportedCycleIsReal | packages/kernel/src/structure.ts:202-204 | a reported cycle is a cycle of bundles, unless two of the bundles reached share the key it names |
| Structure.CollisionFakesACycle | packages/kernel/src/structure.ts:178-180 | with a shared key a cycle may be reported that is none |
| Structure.ResolvesToAFakeCycle | packages/kernel/src/structure.ts:191-234 | on such an input resolution does fail with that cycle |
| Structure.CollisionDropsABundle | packages/kernel/src/structure.ts:178-180 | two references with one text key: the second bundle is dropped though it is included |
| Structure.LastBundleWins | packages/kernel/src/structure.ts:246-276 | a key ends with the value and source of the last bundle that sets it |
| Structure.LastMention | packages/kernel/src/structure.ts:246-276 | and within one bundle the last mention of a key gives its value |
| Structure.UnsetStays | packages/kernel/src/structure.ts:278-286 | a key that no bundle sets is not set |
| Structure.OrderOnce | packages/kernel/src/structure.ts:246-276 | merged lists hold each id once, in the order of first mention |
| Structure.OrderMeans | packages/kernel/src/structure.ts:246-276 | what is mentioned first stands first |
| Structure.LastToolWins | packages/kernel/src/structure.ts:246-276 | a tool is the one the chain names last, with the bundle that names it |
| Structure.LastSkillWins | packages/kernel/src/structure.ts:246-276 | and so is a skill |
| Structure.LastPluginWins | packages/kernel/src/structure.ts:246-276 | and a plugin |
| Structure.LastSlotWins | packages/kernel/src/structure.ts:246-276 | and a scalar slot |
| Structure.LastBudgetWins | packages/kernel/src/structure.ts:246-276 | and a budget |
| Structure.LastPermissionWins | packages/kernel/src/structure.ts:246-276 | and a permission has the bundle that grants it last |
| Structure.Merge | packages/kernel/src/structure.ts:246-276 | the merge loop is the last-wins fold |
| Delegation.AtMostOnceAndBounded | packages/runtime/src/delegation-supervisor.ts:82-117 | in every interleaving each request is handed out at most once and no more than `maxConcurrency` are in flight |
| Delegation.NormalReturn | packages/runtime/src/delegation-supervisor.ts:82-118 | on a normal return every request has the outcome it was answered with, and their summed usage is within the limits |
| Delegation.NoWorkerNoResult | packages/runtime/src/delegation-supervisor.ts:111-118 | a normal return has all results exactly when there is nothing to do or `maxConcurrency` is at least one |
| Delegation.StepKeepsInv | packages/runtime/src/delegation-supervisor.ts:85-109 | every worker step keeps cursor, usage and results accounted for |
| Delegation.AbortStops | packages/runtime/src/delegation-supervisor.ts:86-89 | after an abort nothing more is handed out |
| Delegation.AnswerCounts | packages/runtime/src/delegation-supervisor.ts:90-109 | an answer adds to the usage and is kept exactly when no limit is passed; otherwise it is dropped, its worker fails, and everything is aborted |
| Delegation.OverLimitStops | packages/runtime/src/delegation-supervisor.ts:86-109 | once an answer has passed a limit nothing more is handed out, whatever happens then |
| Delegation.AbortEnds | packages/runtime/src/delegation-supervisor.ts:85-112 | after an abort a worker fails instead of taking another request |
| Delegation.WorkersMean | packages/runtime/src/delegation-supervisor.ts:114-117 | as many workers as requests, but no more than the whole part of the limit |
| ModelRequest.RequestRoundTrip | packages/runtime/src/model-request-service.ts:357-402 | from the recorded sections in any order and the recorded sources, the rebuild returns exactly the bundle that was sent |
| ModelRequest.DescribeBundle | packages/runtime/src/model-request-service.ts:155-199 | one section and one source for each message, tool and decision schema, under distinct source ids |
| ModelRequest.ManifestMeans | packages/runtime/src/model-request-service.ts:155-199 | the manifest of a bundle, section by section: kind, source id, renderer, content and growing priority; a system message is an instruction |
| ModelRequest.IdsDiffer | packages/runtime/src/model-request-service.ts:161-190 | source ids never collide |
| ModelRequest.RecordRequest | packages/runtime/src/model-request-service.ts:232-275 | manifest first, then the request with digest and sources |
| ModelRequest.RebuildModelRequest | packages/runtime/src/model-request-service.ts:357-402 | incomplete without manifest or request; otherwise the sorted sections read back, and a bundle only if it is the one recorded by digest |
| ModelRequest.RecordIsFound | packages/runtime/src/model-request-service.ts:361-373 | neither earlier requests nor later events hide what the request recorded |
| ModelRequest.SendAndRebuild | packages/runtime/src/model-request-service.ts:232-402 | recording a request after others and then rebuilding it returns the bundle that was sent |
| ModelRequest.RebuildContextInput | packages/context/src/context-manifest.ts:159-185 | sorted by priority, equals in their order, each section rendered and digest-checked, or the first that fails |
| ModelRequest.SortedIsUnique | packages/context/src/context-manifest.ts:164-165 | sections with increasing priorities come back from any order |
| ModelRequest.SectionReadsOnlyItself | packages/context/src/context-manifest.ts:89-105 | a section reads only as the content it was sealed with |
| ModelRequest.FirstFailure | packages/context/src/context-manifest.ts:164-184 | reading stops at the first section, by priority, that cannot be read |
| ModelRequest.FailureMeans | packages/context/src/context-manifest.ts:166-182 | why a section cannot be read, whatever was recorded |

## Left out

- AgentLoop: a turn whose tools run in parallel with `maxParallelToolCalls` at 0 repeats an empty batch for ever, so its entry points ask for room for one call or for exclusive tools.
- EveryRunIsSound: whether a summary describes the thread is stated for calls that took up all of it; of other calls nothing is said about summaries.
- AgentLoop: one writer and no failing log writes; a rejected dispatch that aborts the turn is not modelled.
- AgentLoop: the approval item and the checkpoint of a suspension are written next to each other; a sibling result logged between them is one logged before both.
- MaybeCompact: whether the history is over the threshold is left open, since token estimates are not modelled.
- AgentLoop: message deltas, token estimates, retry delays and the text of prompts and summaries.
- ResumeTurn: a log that ends a turn it never started is not modelled, and the same goes for RecoverTurn.
- ThreadLog: legacy tool items without a recorded content, which fall back to the JSON of their output.
- ExecutionWorld: modelled as a state machine on values, since concurrent calls are the point; several processes on one stream are not modelled.
- ExecutionWorld: path canonicalization, the redaction of secrets, and the contents of world snapshots.
- Generations: a reconcile is one step, so a turn that begins in the middle of an update in place is not modelled; neither are `stop` and lifecycle callbacks that throw. A fiber that fails to settle after a rollback only adds to the error.
- LeaseHolders: a recovery and a resumption end on the turn they were given, as the loop under them does.
- PluginOrder: an absent `inject` list is an empty one; plugin code and configuration schemas.
- KanbanStore: queries other than by status, schema checks of fields, and reasons given with a transition.
- DispatchSteps: dispatcher operations are atomic; two dispatchers that race between their capacity check and their claim are not modelled.
- KanbanDispatcher: the store under the dispatcher is its table of cards, without the log.
- Delegation: modelled as a state machine on values, since the interleaving of workers is the point; the duration timer is an abort like any other, and the checks on the request list before it starts are left out.
- WorldRuns: a store is not used further once its strict rebuild has failed.
- World: two ids that a locale compares as equal, and schema checks; concurrent writers on the world stream.
- Structure: the loader is a finite table; schema parsing, the digest of the result, and the order in which permissions and budgets are listed.
- ModelRequest: token counts, omissions, and JSON text itself: a canonical text is represented by the value it denotes.
- Sse: the decoding of bytes to text.
- Host, CLI and web plumbing, sandboxes, SQLite stores, the scheduler and the memory provider are I/O or foreign calls.
- The learning loop, grants, skills and context budgets repeat the log-and-fold pattern or are simple greedy loops.
