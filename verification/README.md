# Couchbase Eventing, verified

A Dafny model of the parts of Couchbase Eventing in which a mistake loses an event, runs a handler twice or lets functions
trigger one another for ever. `dafny verify dfyconfig.toml` checks the whole project.

## What is modelled

**Who streams a vbucket** (`Vbucket`, `Worker`, `VbucketSystem`, `Ownership`, `NoSkip`, `Hazards`, `Ledger`, `Passes`, `Consumer`,
`Fleet`). Every vbucket of the source bucket has a metadata document that names its owner and its checkpoint. Consumers on all nodes
read and write that document, ask the data service for a DCP stream, feed the stream to a C++ worker and hand the vbucket over when
the plan changes. `Vbucket` has one function for each routine of a consumer. `VbucketSystem` puts any number of consumers, their
connections and their workers into one transition system for a vbucket: each step is one call of a routine, and the steps interleave
freely. `Ownership` proves that no two live consumers ever stream at the same time, `NoSkip` that no event is skipped however often
the vbucket changes hands. `Hazards` shows that every rule that the runs have to obey is needed.
`Consumer` is the consumer with all its vbuckets and the sets, maps, channels and lists that its routines change in place; `Ledger` is
their content as a value, and `Passes` the routines that go over many vbuckets. `Fleet` puts any number of such consumers over one
metadata bucket and one plan: whatever they do is, for every vbucket, a step of the transition system or no step, so the results hold
for all vbuckets at once.

**Which functions may be deployed together** (`Reachability`, `AcyclicInsert`, `BucketIndices`, `DryRun`, `BucketGraph`). A directed
multigraph records which function reads from one keyspace and writes to others. The class keeps five maps in step, searches
depth-first, and tries an insertion before making it.

**Who is to own which vbucket** (`Sorting`, `Planner`, `Producer`). Nodes get even contiguous ranges, workers even contiguous shares.

**Queries embedded in handlers** (`Lexer`, `Rewriting`, `Transpiler`). The lexer blanks or deletes comments and quoted text; queries
are replaced by calls, line by line.

**Talking to the worker** (`Wire`, `Framing`, `SendBuffer`). Frames are cut from whatever the socket returns; messages are batched.

**Rebalance** (`RebalanceManager`, `Progress`). The status that a node reports, the clients that wait for it to change, the rebalancer
and its callbacks, and the number that says how much remains.

### Reading the results on hand-over

The runs of `VbucketSystem` start after bootstrap. A step is one call of a routine; the request routine counts as two, because the
server may answer between them. Takeovers may be tried and tried again at any time, also after the plan has moved on. A run obeys
these rules (`VbucketSystem.Obeys`).

- When the plan moves, a consumer other than the new one that has an entry in vbStreamRequested counts the stream as its own, has no
  request queued, and does not have the vbucket on its list of documents to clean up.
- When the plan moves, the consumer that gets the vbucket has no request queued and is not to stream the vbucket again.
- Every consumer knows all consumers that are alive; a consumer that the plan has engaged sees nobody come back.
- A connection is not lost between the call of DcpRequestStream and the bookkeeping that follows it, unless the server has already
  answered. Closing all feeds cannot fall between the two, because it takes the same mutex.

`Hazards.RulesAreExact` states that this is just what is needed: the runs that obey a set of these rules are all sound (one stream at
most, no answer taken up early) if and only if it is the set of all of them. For each rule there is a run from the start that obeys the
others and ends badly.

Beyond these rules the model assumes the following.

- Calls of routines are atomic, except the request routine; every consumer has its own view of the cluster, but all learn of a new plan
  at once.
- Nodes die as a whole and do not come back under the same name.
- There is no rollback, no debugger, no pause and no undeployment; no data node leaves; an answer that a stream is open carries a
  failover log; operations on documents succeed after retries.

An event is handled when a worker takes it up. Reports and acknowledgements of the worker travel over two sockets, and nothing is
assumed about their relative order.

Where the code and its comments differ, the model follows the code. The close path writes a checkpoint of zero; the control routine
opens a stream again without looking at the owner in the document; `util.VbsSliceDiff` is a symmetric difference; in
service_manager/rebalancer.go:139-145 the branch for an answer from no node is never taken, because one address is asked.

## Model

| member | source | states |
|---|---|---|
| Ownership.OwnershipSafety | consumer/vbucket_takeover.go:209-379 | in every reachable state of every orderly run, no two live consumers have a requested or open stream for the vbucket |
| Ownership.OneStreamPerConsumer | consumer/process_events.go:856-911 | in every orderly run a stream is requested only when none is requested or open and vbStreamRequested has no entry, and every requested or open stream has an entry |
| Ownership.AsksOnlyWhenIdle | consumer/process_events.go:1178-1265 | of all the steps of a consumer, only serving a queued request issues one, and then there is neither a stream nor an entry of vbStreamRequested |
| Ownership.DocumentNamesTheHolder | consumer/bucket_ops.go:480-630 | a consumer that counts a stream as its own is named by the document, and so is any streaming consumer that the plan does not name |
| Ownership.LiveOwnerRefuses | consumer/vbucket_takeover.go:237-326 | while the document names a consumer that is seen alive, the takeover rules of every other consumer refuse |
| Ownership.HolderIsAlone | consumer/process_events.go:856-867 | an entry of vbStreamRequested at one live consumer excludes one at any other |
| Ownership.ActKeeps | consumer/process_events.go:1178-1356 | every step of every consumer, its worker and the data service keeps the invariant of all consumers and the document |
| Ownership.ReplanKeeps | consumer/vbucket_takeover.go:329-346 | a plan change that obeys the rules keeps the invariant, although other consumers may have requests queued and lists to work off |
| Ownership.RunKeeps | consumer/vbucket_takeover.go:91-207 | the invariant holds in every state of every orderly run, with takeovers tried again at any time |
| NoSkip.NoEventSkipped | consumer/process_events.go:1267-1356 | in every reachable state, every handler event up to the checkpoint, and up to the start of any queued or requested stream, has been taken up by some worker |
| NoSkip.HandshakeHolds | consumer/process_events.go:133-148 | the answer to a request is taken up only after its counters are reset, and an item only once the stream counts as open |
| NoSkip.SentWithinRead | consumer/handle_messages.go:505-507 | in every reachable state, what was sent on an open stream does not exceed what was read |
| NoSkip.CountersHold | consumer/process_events.go:1171-1176 | when an item is read, the 64-bit difference does not wrap, and after a foreign, system or seqno-advanced event the lag is below 200 |
| NoSkip.RunIsSafe | consumer/process_events.go:1267-1356 | in every state of every run, everything that may be checkpointed, reported or started from lies within the handled events, and each event read but not handled waits in a part of the worker's queue that no filter covers |
| NoSkip.FilterActs | v8_consumer/src/client.cc:722-749 | one more filter acts on what the earlier filters leave of the worker's queue |
| NoSkip.FilterLast | consumer/process_events.go:284-297 | a filter for the last message sent leaves nothing to take up that lies beyond the handled events |
| NoSkip.WorkerTakesIsSafe | v8_consumer/src/v8worker.cc:684-770 | taking up or skipping the head of the worker's queue keeps the consumer safe with the events then handled |
| Hazards.RulesAreExact | consumer/process_events.go:1178-1265 | the runs that obey a set of rules are all sound if and only if it is the set of all rules |
| Hazards.WithoutHolderSettled | consumer/process_events.go:856-900 | a run from the start in which the plan moves while a request is under way that the document does not show, and two consumers stream |
| Hazards.WithoutHolderDrained | consumer/process_events.go:1195-1208 | the same if the plan moves while a holder has a request queued, for which it then frees the document |
| Hazards.WithoutHolderUnlisted | consumer/control_routine.go:131-149 | the same if the plan moves while a holder is to clean up the document |
| Hazards.WithoutHeirDrained | consumer/vbucket_takeover.go:359-376 | the same if the plan comes back to a consumer that has a request queued |
| Hazards.WithoutHeirUnlisted | consumer/control_routine.go:210-250 | the same if the plan comes back to a consumer that is to stream the vbucket again |
| Hazards.WithoutAllSeen | consumer/vbucket_takeover.go:243-248 | the same if a consumer takes a live holder for dead |
| Hazards.WithoutNoneReturns | consumer/bucket_ops.go:26-48 | the same if a consumer that takes over from a dead owner sees it come back, and drops the entry of its own request |
| Hazards.WithoutAnswered | consumer/process_events.go:873-930 | a run from the start in which the connection is lost between a request and its bookkeeping, and a later answer is taken up before its counters are reset |
| Consumer.Consumer.constructor | consumer/stats_updater.go:9-21 | every vbucket starts without owner, request or stream |
| Consumer.Consumer.StartDCPStream | consumer/vbucket_takeover.go:348-379 | a request at the checkpoint is queued unless the vbucket is owned or queued already; other vbuckets are untouched |
| Consumer.Consumer.VbTakeover | consumer/vbucket_takeover.go:209-327 | the takeover of one vbucket: start, leave, or refuse and purge; when it reports a refusal |
| Consumer.Consumer.CleanupVbMetadata | consumer/vbucket_takeover.go:607-633 | a document that names this consumer is released and its statistics with it; others stay |
| Consumer.Consumer.UpdateCheckpoint | consumer/vbucket_takeover.go:381-415 | document and statistics are released with the given checkpoint |
| Consumer.Consumer.ProcessReqStreamMessage | consumer/process_events.go:1178-1265 | the head of the request channel is served with the effect of each of its outcomes on statistics, marks, lists and document |
| Consumer.Consumer.RequestStream | consumer/process_events.go:852-900 | the part for a vbucket that is planned and not owned: put off, skipped, issued, or tried again later, once if the feeds are closed and twice if the call fails |
| Consumer.Consumer.FinishStreamRequest | consumer/process_events.go:902-938 | counters are reset and the vbucket is in flight before the document and the flag say that a stream was requested |
| Consumer.Consumer.HandleStreamOpened | consumer/process_events.go:150-244 | document and statistics name this consumer; a stream that is not planned is put on the close list and filtered |
| Consumer.Consumer.HandleStreamRejected | consumer/process_events.go:255-284 | the document loses the request and a retry is announced |
| Consumer.Consumer.HandleStreamEnd | consumer/process_events.go:1267-1356 | all marks go, document and statistics are released at the given position, and a planned vbucket is put on the restream list |
| Consumer.Consumer.HandleDcpEvent | consumer/process_events.go:1403-1418 | counters and the message to the worker for each kind of event, including the no-op rule and the filter that bookkeeping events do not consult |
| Consumer.Consumer.HandleFailoverLog | consumer/process_events.go:942-1113 | the head of the channel leaves the in-flight set; a failed request is purged and queued again at the checkpoint, or put on the restream list |
| Consumer.Consumer.RouteResponse | consumer/protocol.go:512-538 | the processed position only grows |
| Consumer.Consumer.CleanupPass | consumer/control_routine.go:126-161 | the pass over the list, which keeps what is not done with, is for every vbucket one tick of the protocol |
| Consumer.Consumer.ClosePass | consumer/control_routine.go:163-201 | the pass over the list is for every vbucket one tick: an owned vbucket that is not planned is released with a checkpoint of zero |
| Consumer.Consumer.RestreamPass | consumer/control_routine.go:203-259 | the pass over the list is for every vbucket one tick, and leaves the list empty |
| Consumer.Consumer.DoLastSeqNoCheckpoint | consumer/checkpoint.go:46-110 | the pass is for every vbucket that is not idle the checkpoint step, and no step for the others |
| Consumer.Consumer.CheckAndUpdateMetadata | consumer/vbucket_takeover.go:25-89 | the pass is for every vbucket the step that corrects its document |
| Consumer.Consumer.CloseAllRunningDcpFeeds | consumer/vbucket_takeover.go:635-673 | every open stream ends and every vbucket loses its request marks |
| Consumer.Consumer.Perform | consumer/process_events.go:128-297 | any action for one vbucket does to books and documents what the protocol's step says, and nothing to other vbuckets |
| Passes.PassCompletes | consumer/control_routine.go:126-259 | visiting what is on a list, with repetitions, and then rewriting the list amounts to one step of the protocol for every vbucket |
| Passes.VbsSliceDiff | util/util.go:1061-1093 | the result holds what only one of the lists has, counting repetitions |
| Fleet.TurnsAreSteps | consumer/process_events.go:1178-1356 | what a consumer does to its books and to documents is, for every vbucket, a step of the protocol or none |
| Fleet.StepsKeepSafe | consumer/vbucket_takeover.go:91-207 | an event of the fleet keeps the invariants of all vbuckets |
| Fleet.Cluster.Handle | consumer/process_events.go:1178-1356 | every call of any consumer and every event of the cluster is, for every vbucket, a step of the protocol or none |
| Fleet.Cluster.Serve | consumer/vbucket_takeover.go:91-207 | after any sequence of calls of any number of consumers, for every vbucket at once: one stream at most, no event skipped, every stream in vbStreamRequested |
| Fleet.Operate | consumer/vbucket_takeover.go:91-207 | the same for any documents, plan, consumers and calls after bootstrap |
| Reachability.AddEdgeAcyclic | service_manager/bucket_graph.go:275-284 | an edge added to an acyclic graph closes a cycle exactly if there was a way back |
| Reachability.SplitAtEdge | service_manager/bucket_graph.go:275-284 | a walk in the graph with one edge more avoids that edge or splits at it |
| AcyclicInsert.CheckIsExact | service_manager/bucket_graph.go:259-286 | for any order of the destinations, the check with edges inserted between searches answers whether all the new edges together keep the graph acyclic, if the source is no destination or has an edge |
| AcyclicInsert.CheckExactness | service_manager/bucket_graph.go:259-286 | the answer is right for every order of the destinations if and only if the source is no destination, or has an outgoing edge, or is reachable from another destination |
| AcyclicInsert.OverlooksSelfLoop | service_manager/bucket_graph.go:191-194 | otherwise there is an order for which the check overlooks a self-loop |
| BucketIndices.ExactLabels | service_manager/bucket_graph.go:91-162 | without stale labels, the label indices are those derived from labelState and every count is the size of the edge's label set |
| BucketIndices.IndicesAreDetermined | service_manager/bucket_graph.go:225-257 | without stale labels, labelState determines all four indices, whatever led to it |
| BucketIndices.GraphOfRegistry | service_manager/bucket_graph.go:225-257 | the adjacency list has exactly the edges that the registered functions ask for |
| BucketIndices.RemoveAgrees | service_manager/bucket_graph.go:126-162 | removing one edge of a label keeps the indices in agreement with the rest of its destinations |
| BucketIndices.InsertAgrees | service_manager/bucket_graph.go:91-124 | inserting one edge keeps the indices in agreement with the label's destinations so far |
| DryRun.Restored | service_manager/bucket_graph.go:267-271 | after the undo the adjacency list is the old one, the indices still agree up to the label, and all are the old ones if the label was not registered |
| DryRun.UndoRestores | service_manager/bucket_graph.go:267-271 | undoing insertions restores every index if and only if the label touched none of the edges before |
| DryRun.DryRunRestores | service_manager/bucket_graph.go:259-286 | for every order of the destinations the dry run restores every index, if and only if the label touches no edge to a destination without a way back |
| DryRun.RecheckForgets | service_manager/bucket_graph.go:143-159 | a deployed function that is checked again as it is fails that condition |
| BucketGraph.DryRunForgetsLabel | service_manager/bucket_graph.go:259-286 | a deployed function is checked again, and the indices are not as before |
| BucketGraph.BucketMultiDiGraph.constructor | service_manager/bucket_graph.go:31-39 | the empty graph, acyclic and in agreement |
| BucketGraph.BucketMultiDiGraph.InsertEdge | service_manager/bucket_graph.go:91-124 | one more of the count and the label in each index, and no empty entry |
| BucketGraph.BucketMultiDiGraph.RemoveEdge | service_manager/bucket_graph.go:126-162 | one less of the count and the label gone from each index, nothing if the edge is not there, and no empty entry |
| BucketGraph.BucketMultiDiGraph.GetPathFromParentMap | service_manager/bucket_graph.go:165-189 | the parent map yields a walk from source to destination, and one label for each of its edges |
| BucketGraph.BucketMultiDiGraph.PushChildren | service_manager/bucket_graph.go:212-219 | every child is visited or on the stack, and every pushed vertex has a parent found before it |
| BucketGraph.BucketMultiDiGraph.HasPath | service_manager/bucket_graph.go:191-223 | the search ends, and answers true exactly if the source has an edge and reaches the destination; the labels follow a real path |
| BucketGraph.BucketMultiDiGraph.RemoveEdges | service_manager/bucket_graph.go:241-257 | labelState loses the label and all five indices agree again |
| BucketGraph.BucketMultiDiGraph.InsertEdges | service_manager/bucket_graph.go:225-239 | labelState maps the label to the new dependency only, and all five indices agree |
| BucketGraph.BucketMultiDiGraph.TryInserts | service_manager/bucket_graph.go:275-285 | destinations are inserted up to the first with a way back; answer and reported labels |
| BucketGraph.BucketMultiDiGraph.CheckInOrder | service_manager/bucket_graph.go:259-286 | for a given order, the answer is that of the check on the old graph, a refusal comes with a labelled cycle, labelState and adjacency are unchanged, and exactly when every index is |
| BucketGraph.BucketMultiDiGraph.IsAcyclicInsertPossible | service_manager/bucket_graph.go:259-286 | the same for some order, and every index is unchanged if the label is not registered, or touches no edge to a destination without a way back |
| BucketGraph.BucketMultiDiGraph.Deploy | service_manager/validation.go:73-79 | a checked deployment keeps the graph acyclic, also under a label in use, and is allowed exactly if the new edges close no cycle |
| BucketGraph.BucketMultiDiGraph.Serve | service_manager/utils.go:483-485 | every sequence of checked deployments and undeployments keeps the graph acyclic and the indices in agreement |
| Planner.EvenShares | producer/vbucket_node_assignment.go:97-112 | every item falls to exactly one part, and no two parts differ by more than one |
| Planner.NodePlanCovers | producer/vbucket_node_assignment.go:118-134 | every vbucket lies in exactly one range and is assigned to its node |
| Planner.NodePlanIsEven | producer/vbucket_node_assignment.go:97-134 | the ranges are contiguous and ascending from 0 to the number of vbuckets, and differ by at most one in size |
| Planner.PlanIgnoresOrder | producer/vbucket_node_assignment.go:87-92 | keep lists with the same members in any order give the same plan |
| Planner.WorkerOf | producer/vbucket_node_assignment.go:148-211 | every planned vbucket has its planned node and exactly one of that node's workers |
| Planner.PlansAgree | producer/vbucket_node_assignment.go:148-291 | on every node, the global plan maps a vbucket to worker i exactly if the local plan lists it under worker i |
| Planner.WorkerNamesDiffer | producer/vbucket_node_assignment.go:201-201 | different workers of a function have different names |
| Sorting.SortIgnoresOrder | producer/vbucket_node_assignment.go:92-92 | sorting by a total order depends on the elements only |
| Producer.CountPerPart | producer/vbucket_node_assignment.go:97-112 | every part gets the quotient, the first ones one more |
| Producer.VbPlanner.VbEventingNodeAssign | producer/vbucket_node_assignment.go:73-146 | an empty keep list is an error that leaves no assignment; otherwise the plan over the sorted addresses |
| Producer.VbPlanner.AssignRanges | producer/vbucket_node_assignment.go:116-134 | every vbucket below the number of vbuckets is assigned, and the mappings give the ranges |
| Producer.VbPlanner.GroupByNode | producer/vbucket_node_assignment.go:151-170 | every node has the ascending list of its vbuckets |
| Producer.VbPlanner.DealToWorkers | producer/vbucket_node_assignment.go:177-210 | the vbuckets of a node are dealt to its workers in even contiguous shares and nothing else changes |
| Producer.VbPlanner.VbNodeWorkerMap | producer/vbucket_node_assignment.go:148-211 | the map is the global plan |
| Producer.VbPlanner.InitWorkerVbMap | producer/vbucket_node_assignment.go:227-306 | the map is the plan of the current node, and the old one is returned |
| Lexer.SpansAreLossless | parser/parser.go:73-151 | cutting a text into spans loses nothing |
| Lexer.ReachIsFirst | parser/parser.go:108-123 | without backslashes, a quoted or commented stretch ends with the first occurrence of its terminator |
| Lexer.Cleanse | parser/parser.go:73-151 | for all settings, the scanner writes the text span by span, each span kept, blanked or dropped as a whole |
| Lexer.Step | parser/parser.go:101-148 | one round of the loop writes the next bytes of what remains |
| Lexer.RestInside | parser/parser.go:108-123 | in the middle of a stretch the scanner washes it to its end and goes on at the top |
| Lexer.RestIsWash | parser/parser.go:100-149 | scanning byte by byte equals washing span by span |
| Lexer.StripCommentsDeletes | parser/parser.go:55-62 | stripComments deletes exactly the comment spans |
| Lexer.StripAllBlanks | parser/parser.go:64-71 | stripAll keeps the code and puts spaces in place of the same comments and of quoted, escaped and blank bytes |
| Lexer.StripAllAligned | parser/parser.go:64-71 | stripAll keeps the length, and every byte is the old one or a space |
| Lexer.StripAllIsBare | parser/parser.go:64-71 | no quote, comment opener, blank byte or escape survives |
| Lexer.StripAllTwice | parser/parser.go:64-71 | stripping twice is stripping once, and exactly the bare texts are left alone |
| Rewriting.GapKeepsLines | parser/parser.go:245-252 | if every replacement has as many lines as what it replaces, every byte in between is still there and on its line |
| Rewriting.DoneKeepsLines | parser/parser.go:245-252 | the text up to the end of any replacement has as many lines as before |
| Transpiler.JoinSplit | parser/parser.go:162-162 | the lines of a text joined again give the text |
| Transpiler.SplitJoin | parser/parser.go:178-195 | one-line pieces joined by newlines are the lines of the result |
| Transpiler.WrapQuery | parser/parser.go:161-196 | the call consists of the lines made from the lines of the query |
| Transpiler.CallKeepsLines | parser/parser.go:161-196 | with one-line parameters, a query of k lines becomes a call of k lines, line i made from line i |
| Transpiler.FindQueries | parser/parser.go:205-235 | positions found in the stripped text are positions of the input, and the matches are the stretches whose parameters can be read |
| Transpiler.QueriesAreOrdered | parser/parser.go:205-235 | the matches follow one another within the input |
| Transpiler.TranspileQueries | parser/parser.go:237-254 | the result is the input with every match replaced by its call |
| Transpiler.TranspiledKeepsLines | parser/parser.go:237-254 | every byte outside the queries is still there, on the line it was on |
| Wire.Uint32OfPut | consumer/handle_messages.go:688-700 | a size written in four bytes is read back modulo 2^32 |
| Wire.PutOfUint32 | consumer/handle_messages.go:871-871 | four bytes read as a size and written again are the same |
| Framing.FrameIsLossless | consumer/handle_messages.go:871-876 | the frame cut off, encoded again, and the rest are the bytes it was cut from |
| Framing.FrameReader.ParseMessages | consumer/handle_messages.go:865-888 | parsed frames and buffer account for all bytes, and no complete frame is left except an empty one |
| Framing.FrameReader.Read | consumer/handle_messages.go:845-893 | the same after any read, whether it enters the parsing branch or not, and when a slice is out of bounds |
| Framing.FrameReader.ReadAll | consumer/handle_messages.go:834-894 | for any split of a stream of short frames into reads, no slice is out of bounds and the frames come out in order, all of them once nothing complete is left |
| Framing.ParsedFurther | consumer/handle_messages.go:766-832 | of two ways to read the same bytes, one has merely parsed further |
| Framing.NothingLeft | consumer/handle_messages.go:766-832 | a reader with no complete frame in its buffer has parsed all that any other has |
| Framing.ChunksDoNotMatter | consumer/handle_messages.go:766-894 | readers of the same bytes with no complete frame left have the same frames and the same rest, whatever the reads were |
| Framing.ShortFramesNeverWrap | consumer/handle_messages.go:871-876 | as long as frames are short, the 32-bit sum never wraps |
| SendBuffer.Sender.WriteOut | consumer/handle_messages.go:724-726 | writing again after short writes neither loses nor reorders bytes |
| SendBuffer.Sender.SendMessage | consumer/handle_messages.go:667-764 | the bytes written and buffered grow by the encoding if and only if the message is kept back or goes to a connected worker; counts, refusals and failures |
| SendBuffer.Sender.Tick | consumer/handle_messages.go:614-657 | the ticker writes the buffer, resets the counter and conserves the count; without failures it conserves the stream |
| SendBuffer.Sender.Serve | consumer/handle_messages.go:597-764 | for any sequence of sends and ticks, the stream is the concatenation of the encodings in order, the count is the number of messages, and the pending count stays below the batch size |
| SendBuffer.StreamDeterminesMessages | consumer/handle_messages.go:683-714 | equal streams carry the same headers and payloads in the same order |
| RebalanceManager.ServiceMgr.UpdateStateLocked | service_manager/manager.go:858-874 | the revision grows by one, and every waiter, whose channel is empty, receives the new state |
| RebalanceManager.ServiceMgr.UpdateRebalanceProgressLocked | service_manager/manager.go:701-728 | the running task has the next revision of the context |
| RebalanceManager.ServiceMgr.OnRebalanceDoneLocked | service_manager/manager.go:912-950 | the end clears rebalancer, context and rebalance ID and leaves no task or a failed one; it blocks exactly if a read lock was never released |
| RebalanceManager.ServiceMgr.PrepareTopologyChange | service_manager/service_manager.go:102-166 | a change that is not ready only marks the node unbalanced; otherwise ID, servers and the next revision |
| RebalanceManager.ServiceMgr.StartTopologyChange | service_manager/service_manager.go:169-224 | exactly when it conflicts, blocks or is not supported; a conflict changes nothing but may keep a read lock, and a rebalance creates one rebalancer and a running task of revision 0 |
| RebalanceManager.ServiceMgr.CancelTask | service_manager/service_manager.go:49-82 | exactly when a task is not found, in conflict, or the call blocks; cancelling a running task cancels its rebalancer and leaves no task |
| RebalanceManager.ServiceMgr.RunRebalanceCallback | service_manager/manager.go:876-910 | a callback of a cancelled rebalancer changes nothing; any other comes from the one current rebalancer and moves task and state to the next revision |
| RebalanceManager.ServiceMgr.Wait | service_manager/manager.go:730-757 | a client with another revision gets the state at once, one with the current revision gets an empty channel |
| RebalanceManager.ServiceMgr.Receive | service_manager/manager.go:751-756 | what a waiter receives is newer than what it had |
| RebalanceManager.ServiceMgr.Handle | service_manager/service_manager.go:49-224 | a request does what a manager does that never blocks, and blocks exactly if it needs the write lock after a read lock was kept, or is a cancellation that meets a failure |
| RebalanceManager.ServiceMgr.Serve | service_manager/service_manager.go:32-99 | in every run, a running task belongs to the one live rebalancer and a live context, and a client that polls with its last revision sees strictly increasing revisions; the run gets stuck if and only if a launch, an end or a cancellation comes after a start that was refused for not being prepared, or a cancellation meets a failure; kept locks are counted |
| RebalanceManager.RefusalsCount | service_manager/service_manager.go:177-183 | a lock is kept exactly if some start was refused for not being prepared |
| RebalanceManager.RefusedStartBlocksTheEnd | service_manager/service_manager.go:177-183 | a run in which a refused second start keeps the end of the rebalance from being reported |
| Progress.ConsumerProgress | consumer/http_handlers.go:16-71 | planned ownership implies remaining work; nothing remains exactly if the requested streams are the planned ones, queues are drained and nothing is being updated, and only then the mark of a rebalance goes |
| Progress.NothingToDo | consumer/vbucket_takeover.go:516-548 | both lists are empty exactly if the requested streams are the planned ones |
| Progress.SumIsSound | producer/exported_functions.go:559-567 | sums keep that ownership implies work, and are zero only if every part is |
| Progress.Aggregate | util/util.go:607-660 | the sum over the parts, and one more while starting up |
| Progress.FunctionProgress | producer/exported_functions.go:550-575 | nothing remains for a function exactly if it is being undeployed or done on the node |
| Progress.NodeProgress | service_manager/http_handlers.go:888-921 | nothing remains on a node exactly if every function there is done |
| Progress.ClusterProgress | service_manager/http_handlers.go:995-1023 | nothing remains in the cluster exactly if every function on every node is done |
| Progress.ReportsAreWellDefined | service_manager/rebalancer.go:152-192 | what remains out of the most seen so far is a fraction below 1 of a total that is not zero and never shrinks |
| Progress.Tick | service_manager/rebalancer.go:137-217 | exactly when a tick completes, cannot store, is skipped, counts as stale or reports, and what it then reports and stores |
| Progress.OneIsLast | service_manager/rebalancer.go:152-199 | whatever ends the loop, every report is well defined, and 1 is reported last or not at all |
| Progress.GatherProgress | service_manager/rebalancer.go:130-221 | for any sequence of answers, the loop ends at the first tick that completes or fails and reports exactly what the ticks before it lead to; 1 is reported last and exactly if nothing remains, and staleness needs 399 flat reports |

## Left out

- Consumer.Consumer.ProcessReqStreamMessage: the clean-up of feeds whose data node has left, which frees documents of other vbuckets
  inside a request, is not part of this model, nor are the two branches of dcpRequestStreamHandle for a function that is terminating.
- Consumer.Consumer.HandleStreamOpened: an answer that a stream is open, but without a failover log, is not part of this model.
- Consumer.Consumer.HandleFailoverLog: the rollback answer is not part of this model, nor is KEY_EEXISTS, which OneStreamPerConsumer excludes.
- Consumer.Consumer.ClosePass: DcpCloseStream is a call of the data service; the stream ends in a later step.
- Consumer.Consumer.Perform: the streams of a consumer and the queue of its worker are kept per vbucket; that a worker takes messages of
  different vbuckets in the order in which they were sent is not used.
- Fleet.Cluster.Serve: the takeover routines of vbsStateUpdate, which share out the vbuckets, are steps in any order, one vbucket each.
- NoSkip.NoEventSkipped: says nothing about rollback, pause acknowledgements, bootstrap with from_now, or vbuckets on the filter list,
  for which bookkeeping events advance the position all the same.
- Vbucket: ownership history, timers, vbucket UUIDs, manifest IDs and statistics that no decision depends on are not in the document.
- Transpiler.TranspileQueries: the regular expression, the N1QL parser and the JavaScript escape are parameters; matches are taken to
  follow one another, so that the stable sort has nothing to do. That a query keeps its meaning is not claimed.
- Framing.FrameReader.Read: the slices that share memory with the buffer are values here.
- SendBuffer.Sender.SendMessage: the 64-bit message counters are unbounded here.
- RebalanceManager.ServiceMgr.CancelTask: what the rebalancer is doing when it is cancelled is a parameter; 64-bit revisions are unbounded.
- Progress.GatherProgress: fractions are real numbers, and the answers of the cluster are a parameter.
- Producer.VbPlanner.VbEventingNodeAssign: fetching addresses and the keep list is a parameter, and there are fewer than 65536 vbuckets.
- Network, metakv, N1QL execution, V8, timers, curl, statistics, settings, logging and the REST handlers other than the three named above.
