# MaxKB workflow verification

A Dafny model of the parts of MaxKB whose correctness is hardest to see by reading: the workflow engine that
executes a graph of nodes on a thread pool without locks, the streaming parsers between a model provider and the
answer, the transformations of nested workflow trees, and three smaller cores (address and path rules of the
sandbox, image layers, paragraph positions).

`dafny verify dfyconfig.toml` checks everything.

## The modules

| file | content |
|---|---|
| `Workflow.dfy` | the graph, the firing rule of AND and OR nodes, its least fixed point, joins whose firing depends on no schedule, walks |
| `Engine.dfy` | one workflow run as a state machine: every pool thread, the poller, the reader; a step is one access to shared state, so a run is an arbitrary interleaving; every execution of a node ends with an outcome of its own |
| `EngineTyping.dfy` | the shape of every reachable state |
| `EngineQuiescence.dfy` | the poll of `future_list` never answers "over" too early; the post handler comes last |
| `EngineStream.dfy` | what the reader yields, exactly when it loses nothing, separators, and `pop` as one call |
| `EngineEnding.dfy` | how a stream ends, left alone or closed by the client |
| `EngineSchedule.dfy` | a run stays inside every closed set; a satisfied join never fails its context lookup |
| `EngineFiring.dfy` | what every run needs to execute a node, and what makes every finished run do so, in terms of anchors, branches and forms |
| `EngineWakeups.dfy` | no wake-up is lost, although joins are checked without a lock, entry by entry |
| `EngineOrder.dfy` | when every schedule executes every startable node |
| `EngineProgress.dfy` | no thread is stuck, and on an acyclic workflow none goes on for ever |
| `EngineConverse.dfy` | when a schedule can miss a node that another executes |
| `EngineLineage.dfy` | ancestor lists and recursions are walks of the workflow, joins keep one name, context entries are unique exactly when no append is stale |
| `EngineResults.dfy` | what follows for whole runs: exactly when all schedules execute everything, schedule independence, bounded recursion, confluent joins |
| `JoinExamples.dfy` | two shapes of workflow on either side of that line, and a form in front of a join |
| `EngineCost.dfy` | the number of node executions is bounded by the walks of the graph |
| `EngineRaces.dfy` | runs, for whole families of workflows, that reach what the unlocked engine does not exclude |
| `NodeStream.dfy`, `WorkflowState.dfy`, `Answers.dfy` | the sequential objects of the engine: node chunks and `pop`, context and resume, answer grouping |
| `Text.dfy`, `Reasoning.dfy`, `ReasoningProofs.dfy` | the reasoning tag splitter against the one-shot split |
| `Fragments.dfy` | the accumulator of streamed tool calls |
| `WorkflowTree.dfy`, `KnowledgeView.dfy`, `ToolClosure.dfy` | id collection, renaming, resource mapping, partly visible knowledge, closure over tool workflows |
| `Tokens.dfy`, `Words.dfy`, `Cidr.dfy`, `CidrRules.dfy` | rule lists, address words, prefixes and path boundaries, rules from their text |
| `Layers.dfy`, `LayerNames.dfy`, `LayerOrder.dfy`, `LayerFiles.dfy` | image layers on a file tree: actions, member names, any order, in place |
| `Positions.dfy` | paragraph positions |

## What the code does not give

Where a property one would expect is false of the code, the model keeps the code and states when it holds:

- **A chunk can be lost.** `pop` finds the queue empty and then reads the end flag. A node that emits and ends in
  between loses its last chunks (`PopCanLoseAChunk`). The drain loop yields everything if and only if no drop was of
  that kind (`DrainYieldsAllIff`), which an atomic `pop` guarantees (`UndisturbedPopsDropClean`).
- **A runtime id can appear twice in the context.** `append_node` searches and then appends: two parents that both start
  an AND join can both append it (`JoinAppendsCanRace`). Ids are unique if and only if no append was stale
  (`ContextUniqueIff`).
- **The executed nodes can depend on the schedule.** A failed or unselected source satisfies a join without
  starting it. On an acyclic workflow every schedule executes the whole least fixed point of the firing rule if and only
  if each such source precedes one that does start the join (`EveryScheduleExecutesAllIff`). Where it does not, a
  schedule misses the join (`UnorderedJoinCanBeMissed`), and another executes it if one of the sources that start it
  precedes none of the others (`ScheduleMatters`, `SchedulesAgreeIff`). Workflows without failures and with plain
  anchors are always safe (`PlainWorkflowsAreIndependent`).
- **Resuming can reorder ancestor lists.** Restored nodes keep the details they had, so a node that comes back with its
  ancestors in another order after a resume gets its old list back at the next, as on a workflow with a cycle
  (`OrderIsLost`). Any number of interruptions leave no trace if and only if each comes while no stored node has done so
  since the last (`LeavesNoTraceIff`); on an acyclic workflow none can (`AcyclicRunsAreUninterrupted`).
- **A tool call's text can lose its front.** Under a key whose last call is complete, what comes before the new id is
  dropped (`LateIdDropsWhatCameBefore`). Under a new key ids may come late or never (`FirstCallReassembles`).
- **Hidden knowledge ids survive a save** if and only if the form lists none of them as shown (`HiddenIdsStayIff`).
- **The reasoning splitter swallows text.** It agrees with the one-shot split for every chunking if and only if the
  text is safe (`SplitsAlikeIffSafe`). A text is unsafe when the first character of the end tag appears before the
  tag, or, with no tag, early enough and twice.
- **Renaming stops at the first loop.** Tool ids two loops deep are left alone (`ResetRenamesIff`), and so are
  knowledge ids, which are cleared everywhere else (`ResetForgetsKnowledge`).
- **The tool closure drops plain tools** of a level that uses no new workflow tool: there the `else` belongs to the
  outer test. A plain tool is listed if and only if some level that uses it also uses a workflow tool not listed before
  (`ToolClosure.Closure`, `LoneToolIsLost`), which the order of the database rows can decide (`RowOrderDecides`).
- **A whiteout also removes what its own layer has added before it.** A layer in any order is the overlay if and only if
  no entry is hidden by a later whiteout for good (`MixIsOverlayIff`).
- **A slash that no number follows** in an address rule reads as prefix length zero and covers the whole family
  (`CidrRules.SlashWithoutDigits`).

## Model

| member | source | states |
|---|---|---|
| EngineTyping.TypedRun | apps/application/flow/workflow_manage.py:355-376 | in every reachable state each thread's program counter fits the instance it holds, an unended instance has one holder, and an ended one left a context entry of its node |
| EngineQuiescence.ListedDoneMeansAllDone | apps/application/flow/workflow_manage.py:366-376 | if every listed future is done then every submitted thread is, because an unlisted future is owed by an older unfinished thread |
| EngineQuiescence.PollInvRun | apps/application/flow/workflow_manage.py:306-318 | the invariant behind the poll holds over every interleaving |
| EngineQuiescence.PollAnswersOverOnlyWhenOver | apps/application/flow/workflow_manage.py:306-318 | whenever `is_run` returns False, all submitted threads are done and all registered nodes have ended |
| EngineQuiescence.HandlerRunsLast | apps/application/flow/workflow_manage.py:335-342 | when the post handler has been called, all threads are done, all nodes have ended, and no further step is possible, in streaming, blocking and knowledge runs |
| EngineStream.StreamInvRun | apps/application/flow/workflow_manage.py:67-89 | the reader's output is the popped part of the registered nodes in registration order; nodes let go have ended |
| EngineStream.NoLossIffDropsClean | apps/application/flow/workflow_manage.py:74-79 | nothing is lost if and only if at each drop the queue seen empty was still empty |
| EngineStream.StreamIsPrefix | apps/application/flow/workflow_manage.py:320-333 | with clean drops the chunks yielded are at every moment a prefix of the nodes' chunk lists joined in registration order |
| EngineStream.DrainYieldsAllIff | apps/application/flow/workflow_manage.py:329-333 | when the drain loop ends every chunk has been yielded once, in order, if and only if all drops were clean |
| EngineStream.UndisturbedPopsDropClean | apps/application/flow/workflow_manage.py:67-89 | `pop` taken as one access makes every drop clean |
| EngineStream.ReaderStepsArePop | apps/application/flow/workflow_manage.py:67-89 | the reader's steps, as long as a queue seen empty stays so, are those of `pop` as one call |
| EngineStream.PopConserves | apps/application/flow/workflow_manage.py:67-89 | `pop` loses no chunk: what was queued is the chunk it returns, if any, followed by what is |
| EngineStream.PopPassesOver | apps/application/flow/workflow_manage.py:67-89 | `pop` passes over ended, empty nodes only; a separator stands for one of them; None means that nothing is left or that the first node is empty and unfinished |
| EngineStream.SeparatorIff | apps/application/flow/workflow_manage.py:79-86 | when the reader lets go of a node it yields a separator if and only if answer text has been written by then |
| EngineEnding.StreamEndsRead | apps/application/flow/workflow_manage.py:320-337 | a stream that the client does not close reaches its last loop only when the run is over and every node has been read; every chunk has then been yielded, once and in order, if and only if all drops were clean |
| EngineEnding.ClosingYieldsNothing | apps/application/flow/workflow_manage.py:334-337 | a blocking run yields nothing, and a stream nothing after the client has closed it |
| EngineFiring.NeedsAnchor | apps/application/flow/workflow_manage.py:655-702 | a node other than the start node is requested or executed only after an execution of a source that ended with a result whose anchor, plain or of its branch, is that of an edge to the node |
| EngineFiring.NeedsAllSources | apps/application/flow/workflow_manage.py:616-643 | an AND node is requested or executed only if along every in-edge an execution of the source has ended on the edge's branch, or without a branch and without a form still open |
| EngineFiring.OpenFormHoldsBack | apps/application/flow/workflow_manage.py:627-630 | while all executions of a source of an AND node are forms nobody has filled in, the node is neither requested nor executed |
| EngineFiring.OtherBranchHoldsBack | apps/application/flow/workflow_manage.py:622-626 | nor while all executions of a source took another branch |
| EngineFiring.SelectedOrNodesRun | apps/application/flow/workflow_manage.py:680-702 | a finished run has executed every OR node that an execution selected by its anchor |
| EngineFiring.SelectedAndNodesRun | apps/application/flow/workflow_manage.py:616-643 | and every AND node whose sources have all been executed, each time selecting it by the anchor and satisfying it |
| EngineFiring.LastSourceStarts | apps/application/flow/workflow_manage.py:616-643 | and every AND node whose sources satisfy it and are done with the end of an execution that selects it |
| EngineSchedule.JoinLookupSucceeds | apps/application/flow/workflow_manage.py:668-672 | the context lookup of a satisfied join's first source never finds an empty list |
| EngineSchedule.WithinRun | apps/application/flow/workflow_manage.py:645-703 | all nodes requested or executed stay inside every set closed under the firing rule |
| EngineResults.ExecutedIsStartable | apps/application/flow/workflow_manage.py:645-703 | at every moment only nodes of the least fixed point have been executed, failures included |
| EngineWakeups.EndedInstanceServes | apps/application/flow/workflow_manage.py:355-376 | from its end on, an instance's thread acts on each edge it selects until the target is known, its join checks reading entries that other threads replace |
| EngineWakeups.SettledSourcesServe | apps/application/flow/workflow_manage.py:616-643 | once all instances of a join's sources have ended, the one that ends last finds the join satisfied |
| EngineWakeups.WakeInvRun | apps/application/flow/workflow_manage.py:616-643 | no lost wake-up: in every reachable state a startable successor is known, or a thread that will still look at it is on its way |
| EngineOrder.JoinFollows | apps/application/flow/workflow_manage.py:616-643 | when a run stalls, a join whose other sources are each followed by one that starts it has run after every execution of every source |
| EngineOrder.EveryStartableRuns | apps/application/flow/workflow_manage.py:355-376 | whatever nodes are held back, a stalled run has executed every startable node that does not wait for them, if the joins above are ordered |
| EngineProgress.UnfinishedCanStep | apps/application/flow/workflow_manage.py:355-376 | no thread is ever stuck |
| EngineProgress.RunDown | apps/application/flow/workflow_manage.py:355-376 | on an acyclic workflow any run can be continued until every thread is done or about to run a node held back |
| EngineConverse.OnEveryPathPrecedes | apps/application/flow/workflow_manage.py:645-703 | a node on every path to another precedes it |
| EngineConverse.UnorderedJoinCanBeMissed | apps/application/flow/workflow_manage.py:616-631 | for every join with a source that only satisfies it and precedes none that starts it, some finished run misses the join |
| EngineConverse.FreeStarterCanStart | apps/application/flow/workflow_manage.py:616-631 | if the joins above are ordered and one source that starts the join precedes none of the others, some finished run executes it |
| EngineConverse.ScheduleMatters | apps/application/flow/workflow_manage.py:616-631 | so two finished runs of such a workflow execute different nodes |
| EngineResults.EveryScheduleExecutesAllIff | apps/application/flow/workflow_manage.py:355-376 | on an acyclic workflow every finished run has executed exactly the least fixed point of the firing rule if and only if every source that only satisfies a join precedes one that starts it |
| EngineResults.UniformJoinsExecuteAll | apps/application/flow/workflow_manage.py:355-376 | if all sources of each startable join start it, a finished run has executed exactly the least fixed point, on cyclic workflows too |
| EngineResults.ScheduleIndependence | apps/application/flow/workflow_manage.py:355-376 | two finished runs of one acyclic workflow with ordered joins executed the same nodes, whatever the interleavings |
| EngineResults.PlainWorkflowsAreIndependent | apps/application/flow/workflow_manage.py:645-703 | without failures and interrupts, and with plain anchors on nodes without branches, all schedules execute the same nodes, cycles or not |
| EngineResults.SchedulesAgreeIff | apps/application/flow/workflow_manage.py:355-376 | where every unordered join has a source that starts it and precedes none of the others, schedules agree if and only if no join is unordered |
| JoinExamples.ForkDependsOnSchedule | apps/application/flow/workflow_manage.py:616-631 | two nodes side by side into one join, one of them failing: the schedule decides |
| JoinExamples.GuardedIsOrdered | apps/application/flow/workflow_manage.py:616-631 | a node that leads to the join only by its exception branch and to the join's other source otherwise: no schedule matters, although the join is not uniform |
| JoinExamples.OpenFormMissesJoin | apps/application/flow/workflow_manage.py:627-630 | on two nodes side by side into one join, one of them a form nobody fills in, no run executes the join |
| JoinExamples.FilledFormRunsJoin | apps/application/flow/workflow_manage.py:627-631 | with the form filled in, every finished run executes it |
| EngineLineage.SuccessorAncestors | apps/application/flow/workflow_manage.py:664-679 | a new successor that does not join several sources has the ancestors of the instance that found it, and that instance |
| EngineLineage.NewRequests | apps/application/flow/workflow_manage.py:655-702 | a step adds a successor only by a selected OR edge or a satisfied AND join, with the ancestors the code gives it |
| EngineLineage.AncestorsArePath | apps/application/flow/workflow_manage.py:645-703 | the ancestors of an instance and the instance form a path of edges from the start node through nodes that have run |
| EngineLineage.TrailFitsRun | apps/application/flow/workflow_manage.py:362-376 | the nodes that one thread runs one inside the other form a walk of the workflow |
| EngineResults.RecursionIsBounded | apps/application/flow/workflow_manage.py:362-376 | on an acyclic workflow no thread's recursion is deeper than there are nodes, joins, failures and races included |
| Workflow.FirstSourceComesFirst | apps/application/flow/workflow_manage.py:668-669 | the first source of a join is the one whose id comes first, text by text, whatever the order of the edges |
| EngineResults.AncestryIsBounded | apps/application/flow/workflow_manage.py:645-703 | on an acyclic workflow ancestor lists stay below the node count |
| EngineLineage.JoinsNamedRun | apps/application/flow/workflow_manage.py:664-676 | the ancestors of a join are those of the first context entry of its first source, at every moment |
| EngineResults.JoinIdentityIsConfluent | apps/application/flow/i_step_node.py:293-300 | all instances of a join with several sources have one runtime id, whichever parents fired it and when |
| EngineLineage.UniqueContextNext | apps/application/flow/workflow_manage.py:407-413 | a step keeps context ids distinct if and only if it is not an append whose search went stale |
| EngineLineage.ContextUniqueIff | apps/application/flow/workflow_manage.py:407-413 | `node_context` never holds one runtime id twice if and only if no append was stale |
| EngineResults.AtomicAppendsKeepContextUnique | apps/application/flow/workflow_manage.py:407-413 | `append_node` taken as one access keeps context ids distinct in every run |
| EngineCost.ExecutionsAreBounded | apps/application/flow/workflow_manage.py:355-376 | on an acyclic workflow a run executes at most as many nodes as there are walks from the start node, failures and double joins included |
| EngineCost.MovedBudget | apps/application/flow/workflow_manage.py:355-376 | a step only moves remaining walks to the thread itself, to a thread it submits, or to one execution |
| EngineRaces.PopCanLoseAChunk | apps/application/flow/workflow_manage.py:74-79 | in any workflow, a state is reachable in which the reader has let go of the ended start node with a chunk still queued |
| EngineRaces.AppendsCanRace | apps/application/flow/workflow_manage.py:407-413 | with two edges from the start node to one OR node, a state with one runtime id twice in the context is reachable |
| EngineRaces.JoinAppendsCanRace | apps/application/flow/workflow_manage.py:407-413 | with two parents that both start an AND join, a state with the join's runtime id twice in the context is reachable |
| NodeStream.NodeChunk.AddChunk | apps/application/flow/common.py:51-52 | a chunk goes to the end of the list and the status stays |
| NodeStream.NodeChunk.End | apps/application/flow/common.py:54-60 | the last chunk, if any, is added and the node has ended |
| NodeStream.AnswerLog.Append | apps/application/flow/workflow_manage.py:178-183 | the answer and its last part grow by the same text |
| NodeStream.NodeChunkManage.AddNodeChunk | apps/application/flow/workflow_manage.py:61-62 | a registered node comes last in reading order |
| NodeStream.NodeChunkManage.Pop | apps/application/flow/workflow_manage.py:67-89 | returns and leaves what `pop` as one call does, which conserves chunks; the answer gains each separator; the recursion terminates |
| NodeStream.NodeChunkManage.PopEnded | apps/application/flow/workflow_manage.py:329-333 | once all nodes have ended, None means that no node is left |
| NodeStream.NodeChunkManage.Drain | apps/application/flow/workflow_manage.py:329-333 | the drain loop terminates, yields exactly the pending chunks in order and leaves no node behind |
| WorkflowState.AppendedIds | apps/application/flow/workflow_manage.py:407-413 | an append keeps the runtime ids in place and adds a new one at the end only |
| WorkflowState.WorkflowManage.AppendNode | apps/application/flow/workflow_manage.py:407-413 | the entry with the same runtime id is replaced in place, else the node comes last; ids stay distinct and stored details keep their positions |
| WorkflowState.WorkflowManage.GetRuntimeDetails | apps/application/flow/workflow_manage.py:571-585 | the details describe exactly the context, each index being the node's position; each node's details, ancestor list included, are its own, or those of the record if it is restored |
| WorkflowState.WorkflowManage.LoadNode | apps/application/flow/workflow_manage.py:185-224 | stored details give back the ids, ancestors and order of the context they were taken from; there is a start node if and only if details have its id |
| WorkflowState.WorkflowManage.StoreAndLoad | apps/application/flow/workflow_manage.py:185-224 | storing and loading keeps runtime ids and order, and gives every node the ancestor list that was stored for it |
| WorkflowState.WorkflowManage.Replay | apps/application/flow/workflow_manage.py:185-224 | over any number of interruptions the run is what its moves make of it; its order is that of the uninterrupted run and stored indexes are exactly the positions |
| WorkflowState.LeavesNoTraceIff | apps/application/flow/workflow_manage.py:571-585 | over any number of interruptions a run has at every moment the nodes of the uninterrupted run, ancestor lists included, if and only if between two interruptions no stored node other than the one resumed at comes back to stay with its ancestors in another order |
| WorkflowState.ListGoesBack | apps/application/flow/workflow_manage.py:571-585 | a stored node that comes back with its ancestors in another order has its older list again after the next interruption |
| WorkflowState.OrderIsLost | apps/application/flow/workflow_manage.py:571-585 | on every workflow in which two nodes lead to each other and both to a third, a run whose nodes lie on walks ends with an ancestor list that the uninterrupted run does not have |
| WorkflowState.AncestorsAreDetermined | apps/application/flow/i_step_node.py:293-300 | on an acyclic workflow the runtime id settles the order of the ancestors |
| WorkflowState.AcyclicRunsAreUninterrupted | apps/application/flow/workflow_manage.py:185-224 | on an acyclic workflow a run interrupted any number of times has the nodes of the uninterrupted run, with the same ancestor lists, in the same order |
| WorkflowState.SortedByIndex | apps/application/flow/workflow_manage.py:190-190 | lists every stored detail once with indexes ascending |
| WorkflowState.ListingIsContextOrder | apps/application/flow/workflow_manage.py:190-190 | sorting by index restores context order, whatever order the store keeps |
| Answers.ShownAreNonempty | apps/application/flow/workflow_manage.py:591-597 | what is grouped is every answer with content, once and in order |
| Answers.GetAnswerTextList | apps/application/flow/workflow_manage.py:591-614 | the groups, joined, are the non-empty answers in order; single-view answers stand alone and the rest form maximal runs; no answer gives one empty group |
| Answers.GroupingIsUnique | apps/application/flow/workflow_manage.py:591-614 | those two properties determine the groups |
| Reasoning.Reasoning.GetReasoningContent | apps/application/flow/tools.py:123-192 | one call is one step of the splitter, and the collected content and reasoning grow by what is returned |
| Reasoning.Reasoning.GetEndReasoningContent | apps/application/flow/tools.py:97-106 | the final flush gives the buffered text to the side it belongs to and empties the buffer unless the reasoning has ended |
| ReasoningProofs.SafeTextsSplitAlike | apps/application/flow/tools.py:123-192 | however a safe text is cut, outputs and flush add up to stripping the start tag and splitting at the first end tag |
| ReasoningProofs.FalseAlarmReleases | apps/application/flow/tools.py:171-176 | `replace` removes only the released prefix when its last character occurs nowhere else |
| ReasoningProofs.SwallowedAlarm | apps/application/flow/tools.py:171-176 | for every text without the tag but with an early and repeated first character, a chunking that loses text |
| ReasoningProofs.SwallowedTag | apps/application/flow/tools.py:171-176 | for every text whose tag comes after a false alarm, a chunking that misses the tag |
| ReasoningProofs.SplitsAlikeIffSafe | apps/application/flow/tools.py:123-192 | the splitter equals the one-shot split on every chunking of a text if and only if the text is safe |
| ReasoningProofs.ExtraPassesIff | apps/application/flow/tools.py:138-154 | reasoning that the provider sends beside a chunk is passed on if and only if the answer has begun |
| Fragments.KeyConcerns | apps/application/flow/tools.py:502-507 | a fragment belongs to the entry of its index, or without one to that of its id from the last `call_` on |
| Fragments.IndexesAreApart | apps/application/flow/tools.py:502-507 | a fragment never touches the entry of another index, and one with neither index nor id changes nothing |
| Fragments.ShareEntryIff | apps/application/flow/tools.py:505-506 | two fragments without an index share an entry if and only if their ids end alike from the last `call_` on |
| Fragments.WholeObjectsMerge | apps/application/flow/tools.py:488-493 | two whole objects under one key are merged |
| Fragments.ExtractIsIdempotent | apps/application/flow/tools.py:330-352 | the id taken from the last `call_` on is its own id |
| Fragments.Accumulator.UpsertFragment | apps/application/flow/tools.py:502-527 | the fragments become those of the accumulator function: only the fragment's key changes, and a fragment with neither index nor id changes nothing |
| Fragments.Accumulator.FinishMessage | apps/application/flow/tools.py:596-653 | exactly the entries with an id and arguments become complete |
| Fragments.Demultiplexes | apps/application/flow/tools.py:509-527 | an entry is what its own fragments make of it, however other keys' fragments are interleaved |
| Fragments.HasEntryIff | apps/application/flow/tools.py:509-514 | a key has an entry if and only if some fragment bore it |
| Fragments.PiecesReassemble | apps/application/flow/tools.py:472-500 | however a JSON object text is cut, at every moment exactly what has come is held |
| Fragments.PlaceholderIsReplacedIff | apps/application/flow/tools.py:482-486 | after a `{}` or `[]` placeholder every cut of the text comes out right if and only if the text starts with its brace |
| Fragments.FirstCallReassembles | apps/application/flow/tools.py:502-527 | under a key none of whose calls is complete, arbitrarily interleaved, with ids that come early, late, several or never, exactly what has come is held at every moment, under the last id |
| Fragments.FirstCallAfterPlaceholder | apps/application/flow/tools.py:482-486 | the same after a `{}` or `[]` placeholder |
| Fragments.CallReassembles | apps/application/flow/tools.py:516-522 | a new key, or one whose last call is complete under another id, takes the next call's text exactly |
| Fragments.StaysComplete | apps/application/flow/tools.py:516-527 | a complete entry takes up what comes without an id or with its own, and stays complete |
| Fragments.LateIdDropsWhatCameBefore | apps/application/flow/tools.py:516-522 | under a complete key only the parts from the new id on are put together |
| Fragments.TurnsReassemble | apps/application/flow/tools.py:516-522 | over any sequence of calls under one key each ends with its own id and text, and complete if it has an id |
| Fragments.CallsDemultiplex | apps/application/flow/tools.py:509-527 | arbitrarily interleaved with other keys, each key ends with exactly its last call's id and text |
| WorkflowTree.GetToolIdList | apps/application/flow/tools.py:929-959 | collects the tool ids at every depth, in order |
| WorkflowTree.CollectedAtAnyDepth | apps/application/flow/tools.py:929-959 | an id is collected if and only if a node at some loop depth uses it as a tool |
| WorkflowTree.ToolIdsAreToolReferences | apps/application/flow/tools.py:929-959 | the ids collected for an export are, in the same order, the tool references of the resource mapping |
| WorkflowTree.ResetWorkflow | apps/application/serializers/application.py:683-689 | nodes and the nodes directly in their loops are handed the rename, the others are left |
| WorkflowTree.ResetRenamesIff | apps/application/serializers/application.py:72-97 | collecting commutes with renaming, in order, if and only if every tool id two loops deep is left alone by the rename |
| WorkflowTree.ResetForgetsKnowledge | apps/application/serializers/application.py:77-78 | an import keeps exactly the knowledge ids two loops deep |
| WorkflowTree.ResetKeepsModelsAndApps | apps/application/serializers/application.py:72-97 | an import leaves the model and application references alone, in order |
| WorkflowTree.ResetKeepsShape | apps/application/serializers/application.py:683-689 | at every position a node of the same kind stands as before, and two loops deep the same node |
| WorkflowTree.KeysAreInjective | apps/application/flow/tools.py:877-877 | type name and id, concatenated, identify the pair |
| WorkflowTree.Unique | apps/application/flow/tools.py:877-877 | the dictionary of concatenated keys keeps the first appearance of each pair |
| WorkflowTree.GetWorkflowResource | apps/application/flow/tools.py:864-878 | the result is the first appearance of each reference at any depth, although each level removes repeats on its own |
| WorkflowTree.ReferencesAtAnyDepth | apps/application/flow/tools.py:864-878 | a reference is exactly one that a node at some position, at any loop depth, makes itself: its tools, model, knowledge or application |
| WorkflowTree.FirstsAreOnce | apps/application/flow/tools.py:877-877 | one entry for every pair referenced and no other |
| WorkflowTree.FirstsInOrder | apps/application/flow/tools.py:877-877 | they stand in the order in which they first appear |
| KnowledgeView.GetSearchNode | apps/application/serializers/application.py:1163-1177 | lists what stands at every position, at any loop depth, that holds a search node: each position once, in the order of positions |
| KnowledgeView.UpdateKnowledgeNode | apps/application/serializers/application.py:1179-1198 | the search node at every position keeps all its ids aside and shows the visible ones |
| KnowledgeView.UpdateWorkFlowModel | apps/application/serializers/application.py:968-980 | the search node at every position saves the ids not shown before the ids edited |
| KnowledgeView.SavedParts | apps/application/serializers/application.py:968-980 | whatever the form lists as shown and whatever it enters, what is saved is, in sight and out of sight alike, what is not listed followed by what is entered |
| KnowledgeView.HiddenIdsStayIff | apps/application/serializers/application.py:976-980 | every id out of sight is saved, in order, if and only if the form lists none of them as shown |
| KnowledgeView.ViewEditSave | apps/application/serializers/application.py:968-980 | when the form lists what was shown, the ids out of sight stay in order whatever the user enters, and viewing again shows the edit |
| KnowledgeView.ViewSaveIsPermutation | apps/application/serializers/application.py:968-980 | with no edit the saved ids are a permutation of the original, repeats included |
| KnowledgeView.RemovedIsGoneIff | apps/application/serializers/application.py:976-980 | an id the user took out is gone if and only if the submitted form still lists it as shown |
| KnowledgeView.OpenEditSave | apps/application/serializers/application.py:1179-1198 | opening, editing and saving a whole workflow, forms with any ids and any list included: the properties above for every search node at any depth |
| ToolClosure.GetChildToolIdList | apps/application/flow/tools.py:970-990 | terminates on cyclic tools; adds only reachable local tools; leaves no workflow tool unfollowed; a level lists all its local tools if it uses a workflow tool not listed before, and none otherwise |
| ToolClosure.Closure | apps/application/flow/tools.py:970-990 | the workflow tools listed are exactly those reachable through workflow tools that are not shared, and a tool is listed if and only if a level that uses it also uses a workflow tool not listed before |
| ToolClosure.ToolsBesideNoWorkflowToolAreLost | apps/application/flow/tools.py:977-989 | a tool used only on levels that use no workflow tool is never listed |
| ToolClosure.LoneToolIsLost | apps/application/flow/tools.py:977-989 | the smallest case: the plain tool of a workflow tool is reachable and not listed |
| ToolClosure.AlwaysListed | apps/application/flow/tools.py:970-990 | in every order of the rows all tools on a level are listed if some workflow tool is reachable, and only through that level |
| ToolClosure.RowOrderDecides | apps/application/flow/tools.py:979-986 | one workflow whose rows in one order list a plain tool and in the other do not |
| Tokens.StrTok | installer/sandbox.c:166-169 | hands out the non-empty pieces between separators one after the other, in order |
| Tokens.PiecesConcat | installer/sandbox.c:166-169 | the pieces of two lists joined by a separator are the pieces of each |
| Cidr.MaskTestIsExact | installer/sandbox.c:189-192 | the network-order mask test holds if and only if the first p bits agree, for every p from 0 to 32 |
| Cidr.FullPrefix4 | installer/sandbox.c:182-187 | length 32 is the test for a single address |
| Cidr.BytesTestIsExact | installer/sandbox.c:209-220 | full bytes and masked remainder agree if and only if the first p bits do, for every p from 0 to 128 |
| Cidr.FullPrefix6 | installer/sandbox.c:203-207 | length 128 is the test for a single address |
| Cidr.CheckRule | installer/sandbox.c:178-224 | a rule covers addresses of its own family that agree on its prefix; lengths out of range cover nothing |
| Cidr.MatchBannedIp | installer/sandbox.c:157-230 | an address is blocked if and only if some rule of the list covers it |
| Cidr.ListsBlockTogether | installer/sandbox.c:165-226 | rule lists block together what each blocks, so order never matters |
| Cidr.ShorterNeverUnblocks | installer/sandbox.c:182-224 | shortening lengths in a rule list, or giving a single address any length of its family, never unblocks an address |
| CidrRules.LengthBlocks4 | installer/sandbox.c:168-196 | a rule of a name, a slash and a decimal length blocks an IPv4 address if and only if the length is at most 32 and the first so many bits are those of the network |
| CidrRules.LengthBlocks6 | installer/sandbox.c:168-224 | the same for IPv6 and 128 bits |
| CidrRules.NegativeLengthBlocksOne | installer/sandbox.c:182-187 | a negative length blocks exactly the address itself |
| CidrRules.NoSlashBlocksOne | installer/sandbox.c:170-187 | so does a rule without a slash |
| CidrRules.LongNumberWraps | installer/sandbox.c:171-174 | a length beyond an `int` counts by what is left of it in 32 bits |
| CidrRules.BlankRuleBlocksNothing | installer/sandbox.c:168-169 | a blank rule blocks nothing |
| CidrRules.SlashWithoutDigits | installer/sandbox.c:171-176 | a slash that no number follows blocks every address of the family |
| Cidr.BelowComparesComponents | installer/sandbox.c:591-594 | the path-boundary test compares whole path components |
| Cidr.RootPermitsItself | installer/sandbox.c:591-594 | a listed root directory permits the root itself and nothing below it |
| Cidr.IsAllowDl | installer/sandbox.c:571-600 | a path may be loaded if and only if its canonical form is a listed path or below one, the root counting as nothing's parent; bare names may, and nothing may without a list |
| Layers.MkdirsFailsIff | scripts/import_registry_image.py:136-141 | making directories fails if and only if a file stands at the path or above it |
| Layers.MkdirsAdds | scripts/import_registry_image.py:136-141 | it adds the missing directories and nothing else |
| Layers.RunKeepsTree | scripts/import_registry_image.py:111-157 | after any members that succeed every entry stands below a directory |
| Layers.WhiteoutsCutOut | scripts/import_registry_image.py:127-134 | whiteouts in sequence remove exactly what they hide, and fail if and only if an opaque one names a file still there |
| Layers.EntriesOverlay | scripts/import_registry_image.py:136-150 | entries in sequence give their overlay, and fail if and only if a file stands where one needs a directory |
| LayerNames.WhiteoutRemoves | scripts/import_registry_image.py:133-135 | a member named `.wh.n` in a directory takes away `n` there and what is below it, and nothing else |
| LayerNames.OddWhiteoutsRemove | scripts/import_registry_image.py:133-135 | without a name, or for `.`, it takes the directory itself; for `..` its parent |
| LayerNames.OpaqueEmpties | scripts/import_registry_image.py:128-132 | a member named `.wh..wh..opq` empties its directory and keeps it, and fails on a file |
| LayerNames.UpwardNameIsSkipped | scripts/import_registry_image.py:119-120 | a name with `..` among its components changes nothing |
| LayerNames.EndsDoNotMatter | scripts/import_registry_image.py:116-118 | a leading `./` or slash and a trailing slash make no difference |
| LayerNames.RepeatsDoNotMatter | scripts/import_registry_image.py:116-118 | nor do repeated slashes or dots between components |
| LayerNames.LayerByNames | scripts/import_registry_image.py:111-157 | what a layer leaves at every path, and the two ways it fails, read off the names of its members |
| Layers.LayerIsOverlay | scripts/import_registry_image.py:111-157 | a layer of whiteouts and then a tree of entries is the overlay on the lower tree without what is hidden or replaced; it fails in exactly those two cases |
| LayerOrder.MixIsOverlayIff | scripts/import_registry_image.py:111-157 | a layer of whiteouts and a tree of entries in any order that succeeds is the overlay if and only if no entry is hidden by a later whiteout without a still later entry at or below its place |
| LayerFiles.RootFs.RemovePath | scripts/import_registry_image.py:104-108 | a path goes with everything below it and nothing else |
| LayerFiles.RootFs.RemoveChildren | scripts/import_registry_image.py:127-131 | removing every child empties the directory |
| LayerFiles.RootFs.ApplyMember | scripts/import_registry_image.py:114-157 | one member does what its action does, or fails with it |
| LayerFiles.RootFs.ApplyLayer | scripts/import_registry_image.py:111-157 | the members in order, up to the first that fails; the tree stays a tree |
| Positions.Document.PrependParagraphs | apps/application/serializers/application_chat_record.py:344-365 | the table becomes the numbering 1, 2, ... of the new paragraphs followed by the existing |
| Positions.Document.Append | apps/application/serializers/application_chat_record.py:438-448 | the new paragraph gets one more than the largest position, or 1 |
| Positions.MaxPosition | apps/application/serializers/application_chat_record.py:438-440 | the largest position, zero for an empty document |
| Positions.PrependMeans | apps/application/serializers/application_chat_record.py:344-365 | a prepend leaves positions 1 to n + m, new paragraphs first, even if positions were shared before |
| Positions.AppendMeans | apps/application/serializers/application_chat_record.py:438-448 | an append keeps the order and comes last |
| Positions.RepresentsOne | apps/application/serializers/application_chat_record.py:346-348 | with distinct positions there is one way to read a document in order |
| Positions.RunsRefineSequences | apps/application/serializers/application_chat_record.py:344-365 | over any run of prepends and appends the table stands for the sequence built by the same operations |

## Left out

- Steps of the engine: a step is one access to `future_list`, `node_context`, the node chunks or the answer. The search loop of `append_node` and the lookup of a join's first source are one step each, which is no loss because a slot of `node_context` never changes its runtime id. `_has_next_node` and events inside a node are not steps.
- The order in which several successors are submitted: any order is allowed, of which sorting by `y` is one.
- Node bodies: an execution ends with any verdict, branch and form state, and emits any chunks. What is said of schedules assumes that a node ends alike whenever it is executed.
- Runtime ids: a hash of the sorted ancestors and the node id, taken as injective; the concatenation without separators and the `salt` are not modelled.
- EngineQuiescence.HandlerRunsLast: in a knowledge run `run_chain` writes to the database before its `try` (apps/application/flow/knowledge_workflow_manage.py:71-73); if that raises, the future ends and the node's chunk is never ended, which is not modelled.
- The engine starts fresh: `load_node` and the resumed start node are modelled in `WorkflowState`, not as steps of the engine.
- EngineResults.SchedulesAgreeIff: an unordered join each of whose starting sources precedes one that does not start it is left open. There the join may be missed by every schedule, so that schedules can agree without executing the least fixed point; whether one executes it hangs on how often its sources run and on who starts the joins above, not on precedence alone.
- `_cleanup`, timeouts, the thread pool's size, and failures of `executor.submit` itself. A poll that times out is a step that may happen at any moment.
- KnowledgeView.OpenEditSave: `all_knowledge_id_list` comes back from the form as it was sent.
- WorkflowTree.ResetWorkflow: node dictionaries are overwritten in place; the model replaces them in a list, so sharing of one dictionary between two places is not covered.
- WorkflowTree.GetWorkflowResource: a loop without a body raises in the source and is an empty body here; the source type and id, the same in every row, are dropped.
- ToolClosure.GetChildToolIdList: the database gives rows in any order; a workflow tool without its workflow row raises in the source and does not occur here; `with_deep` is a call of the closure for each tool.
- Fragments.PiecesReassemble: JSON is an oracle that obeys RFC 8259 as far as `Lawful` says; arguments that are not text are serialised before; one fragment arrives through one of the four channels.
- Fragment ids are taken after `strip`; the table of finished calls and the messages built from it are not modelled.
- Reasoning.Reasoning.GetReasoningContent: chunk contents that are lists are joined to text before; reasoning sent beside the text is passed through as `extra`.
- Cidr.MatchBannedIp: `inet_pton` is an oracle; a little-endian machine; digits beyond an `int` wrap, where C leaves `atoi` undefined.
- Cidr.IsAllowDl: `realpath` is an oracle; the check that the caller is a Python import comes before and is a parameter of the caller.
- Banned domains are regular expressions of the C library.
- Paths above the root of an image: a whiteout of the root's parent takes the whole tree here, and what it does outside is not modelled.
- Symbolic and hard links, modes and owners in image layers, and with them `ensure_within`; other members than files and directories only create their parents.
- Positions.Document.Append: problem mappings, records and the paragraph's content.
- `Workflow.is_valid_work_flow`, node and field validation, `reset_prompt` and `generate_prompt`, language and database plumbing, and the loop and tool workflow managers, which repeat the engine's protocol.
