# Areamy: verified model of the runtime's protocols

Areamy runs graphs of streaming nodes. Its hard part is a set of small protocols: a lock-free
scheduler with a parker, a bounded edge among threads, a poll node whose three phases share one
state, a timer heap with recycled cells, suspended fan-outs, and nodes that must make the same
streams whatever their edges refuse. This project models them and proves what their comments argue.

`dafny verify dfyconfig.toml` checks everything.

## How it is modelled

Two forms are used, as the code suggests.

* Protocols among threads are step systems (`Scheduler`, `EdgeProtocol`, `WaitAny`), and so is the
  two-input poll node (`PollBiunion`). A step is one atomic operation, one critical section, one
  condvar or waker event, or one message of a phase's poll; any enabled step may come next. The
  theorems are about every run; a `Step` lemma is the one step behind them.
* Code that changes its own state in place is a class or a method (`Consumer`, `Parking`,
  `PollLoop`, `SyncEdge`, `PollNode`, `Deadlines`, `Fanout`, `PullLine`, `WorkNodes`, `MergeNode`,
  `FollowData`, `WorkRound`, `PollEdge`). Its methods are tied to functions, or to an invariant over the history
  of messages, and the theorems are about those.

What the code does not decide is arbitrary: how edges answer, when messages arrive, what a routine
produces within its contract, which thread runs, whether a compare-and-swap or a condvar wait fails
spuriously.

| file | models |
|---|---|
| `Scheduler.dfy`, `Consumer.dfy`, `Parking.dfy` | `src/poll/scheduler`, `src/wake/parker.rs` |
| `PollLoop.dfy` | `src/poll/scheduler/consumer.rs` with its timers and parker |
| `SyncEdge.dfy`, `EdgeProtocol.dfy` | `src/edge/sync` |
| `PollNode.dfy` | `src/node/poll`, `src/node/line/poll` |
| `PollBiunion.dfy` | `src/node/biunion/poll/node.rs` and `src/node/biunion/poll/node` |
| `Deadlines.dfy` | `src/poll/timer`, `src/poll/timer.rs` |
| `Fanout.dfy` | `src/edge/fanout.rs`, `src/edge/single.rs` |
| `Transducer.dfy`, `PullLine.dfy` | `src/node/line/pull`, `src/node/line/routine.rs` |
| `WorkNodes.dfy`, `MergeNode.dfy` | `src/node/bifurcation/work`, `src/node/biunion/work` |
| `FollowData.dfy` | `src/edge/policy.rs` |
| `WorkRound.dfy` | `src/work/work_each.rs` |
| `PollEdge.dfy` | `src/poll/edge/poll`, compared with `src/edge/sync` |
| `WaitAny.dfy` | `src/work/multiedge.rs`, `src/edge/waking.rs` |

Three findings.

* The sync edge and the same-thread edge agree for one producer until it binds another waker while a
  refusal stands. There the sync edge forgets the refusal and answers Full again; the same-thread
  edge answers Stuck and wakes the new waker. This is exact for every run
  (`PollEdge.BisimilarExactly`): its bindings are steady if and only if no push, offered at any
  point, tells the edges apart. `PollEdge.LateBindingShows` is a run that does; by
  `PollEdge.UnsteadyUnseen` the condition needs the push.
* A published id is among the next 2n-1 hand-outs for any pattern of re-wakes, because a batch lists
  each id once and a take lists everything published since the last.
* `src/node/biunion/poll/node.rs:25-28` says that a close from either input closes the node and drops
  what the other still has. The code (`src/node/poll/feed.rs:149-161`) does not, and the model follows
  the code. A node not yet closed is closing if and only if both inputs ended
  (`PollBiunion.EndsExactly`); an input's end starts that if and only if the other's came before
  (`PollBiunion.StepExactly`), and then nothing is dropped (`PollBiunion.EndsWithLast`).
  `PollBiunion.OneCloseLeavesOpen` is a run where one input closes and the node stays open.

## Model

| member | source | states |
|---|---|---|
| Scheduler.StructureStep | src/poll/scheduler/treiber.rs:98-167 | every atomic step, stale and spurious CAS failures and re-pushed ids included, keeps the two chains acyclic, duplicate-free and apart from the claimed ids, and all three together exactly the queued ids |
| Scheduler.AlwaysStructured | src/poll/scheduler/treiber.rs:5-18 | the same in every state any run reaches |
| Scheduler.ChainUnique | src/poll/scheduler/treiber.rs:143-167 | the links determine what a chain holds, so the structure is about the memory and not about a witness |
| Scheduler.StructureClaim | src/poll/scheduler/treiber.rs:98-114 | a claim past the graph, or of an id already queued, changes nothing but the pusher's step; any other makes the pusher the one owner of an id that was in neither chain |
| Scheduler.StructurePublish | src/poll/scheduler/treiber.rs:118-138 | a successful CAS puts exactly the claimed id on top, even if the head it saw was popped and pushed again in between |
| Scheduler.StructureRelease | src/poll/scheduler/treiber.rs:153-167 | releasing after the link was read keeps the rest of the batch reachable and frees exactly that id |
| Scheduler.InvStep | src/poll/scheduler/consumer.rs:66-89 | every step of pushers, poll thread and parker keeps structure, owed wakes and reachability of the sleeper |
| Scheduler.NoLostWake | src/wake/parker.rs:69-149 | poll thread parked or about to park with an id queued: the token is set or some pusher is between its claim and the end of its wake; asleep with the token set: a claimed notify is still to be delivered |
| Scheduler.AtRestNothingOwed | src/poll/scheduler/producer.rs:25-28 | once every pusher is at rest and the poll thread sleeps, every wake ever asked for, before or during init too, was followed by a poll, and nothing is queued |
| Scheduler.RefinesLifo | src/poll/scheduler/treiber.rs:118-152 | one step of the linked nodes is one step of the simple scheduler, or none: publish on top, take all, hand out the first |
| Scheduler.EveryRunIsLifo | src/poll/scheduler/treiber.rs:98-167 | every run from the start, read as publishes, takes and hand-outs, is a run of the simple scheduler, ends in its stack and batch, and polls the same ids in the same order |
| Scheduler.BatchesAreTakes | src/poll/scheduler/treiber.rs:133-152 | in such a run a batch is every id published between two takes, newest first, each once, handed out in that order to its end before the next take |
| Scheduler.RankStep | src/poll/scheduler/consumer.rs:66-89 | a published id's distance to its hand-out falls with each hand-out and never grows, however ids re-wake themselves |
| Scheduler.FairWithin | src/poll/scheduler/treiber.rs:133-152 | a published id of an n-id graph is among the next 2n-1 hand-outs |
| Scheduler.LossesPaid | src/poll/scheduler/treiber.rs:116-138 | lock-freedom: over any stretch of a run, every swap a pusher loses, spurious failures aside, is paid for by a push of another thread that landed or a take |
| Scheduler.RivalsWithin | src/poll/scheduler/treiber.rs:131-149 | those pushes and takes are at most n pushes a batch: n + 1 for each take, and n behind the last |
| Scheduler.RetriesBounded | src/poll/scheduler/treiber.rs:131-138 | hence, in every run, the retries of a push that has not yet read the head are within that bound |
| Consumer.Nodes.Push | src/poll/scheduler/treiber.rs:98-138 | the in-place claim, link write and CAS loop compute the simple push, for any number of spurious failures |
| Consumer.Nodes.Next | src/poll/scheduler/treiber.rs:153-167 | the cursor's id is released and the cursor moves below it |
| Consumer.Nodes.Take | src/poll/scheduler/treiber.rs:143-149 | the whole stack becomes the batch, newest first |
| Consumer.Nodes.Seed | src/poll/scheduler/consumer.rs:35-60 | init pushes last to first, so the first batch is in id order |
| Consumer.Nodes.Boundary | src/poll/scheduler/consumer.rs:81-89 | at the end of a batch the expired timers are pushed, and only then the stack is taken |
| Consumer.PushOntoKeeps | src/poll/scheduler/treiber.rs:98-114 | a push leaves each id queued at most once, its own id queued, and a new one on top |
| Consumer.LeadExactly | src/poll/scheduler/consumer.rs:81-89 | that lead is exactly the due ids of the graph not queued before, each once, in the order of their first expiry reversed |
| Consumer.TimersLead | src/poll/scheduler/consumer.rs:81-89 | the ids next handed out are the lead of the expired ids and then everything pushed earlier; every due id of the graph is among them |
| PollLoop.PollThread.TryNext | src/poll/scheduler/consumer.rs:81-89 | the batch first; at its end every timer due by then fires and no other, and its node is handed out or in the batch now walked, with all that was pushed; the id handed out was pushed or due |
| PollLoop.ServesDue | src/poll/timer.rs:35-50 | the nodes of the timers due, and no others beside what was pushed, are what the boundary serves |
| PollLoop.PollThread.Park | src/wake/parker.rs:57-111 | a bounded park ends no later than its deadline, timed out only at it and only if nothing was pushed; a push during it wakes it |
| PollLoop.PollThread.Pass | src/poll/scheduler/consumer.rs:66-89 | a park with a live timer ends no later than the least live deadline; however it ended, the next try fires exactly the timers then due and serves their nodes and everything pushed meanwhile; a timed-out park is followed by at least one due timer |
| Parking.Parker.WakeByRef | src/wake/parker.rs:135-149 | sets the token and claims the notify exactly when someone parks |
| Parking.Parker.Sleep | src/wake/parker.rs:69-82 | a token already set is consumed without asking for a notify |
| Parking.Parker.Turn | src/wake/parker.rs:82-111 | a wake beats a deadline and is consumed; a timeout withdraws the request for a notify |
| SyncEdge.Edge.TryPushBack | src/edge/sync/sender.rs:158-197 | closed beats full; Full once per epoch and binding, then Stuck; a landed message takes the consumer's flag |
| SyncEdge.Edge.PopFront | src/edge/sync/receiver.rs:154-161 | the first message, one epoch further, this epoch's refusals taken, blocked producers to be notified |
| SyncEdge.Edge.ReadAll | src/edge/sync/receiver.rs:166-172 | everything buffered in one epoch step |
| SyncEdge.Edge.Drain | src/edge/sync/receiver.rs:215-247 | the common end of every pop |
| SyncEdge.Edge.Close | src/edge/sync/shared.rs:81-95 | the one close path marks the edge closed and takes the refused wakers |
| EdgeProtocol.InvStep | src/edge/sync/sender.rs:111-207 | every critical section, atomic and condvar event keeps the seven invariants below |
| EdgeProtocol.Always | src/edge/sync/receiver.rs:139-258 | every reachable state of any number of threads and handles satisfies them |
| EdgeProtocol.BoundedFifo | src/edge/sync/receiver.rs:154-204 | accepted is popped followed by the buffer, per producer too, within the bound, and the producer count is the number of unreleased handles |
| EdgeProtocol.FreeSlotsCovered | src/edge/sync/sender.rs:130-153 | while a producer sleeps the edge is open, and the pending notify plus the woken and not rechecked producers cover the free slots (a pending notify-all covers all) |
| EdgeProtocol.NobodyStranded | src/edge/sync/receiver.rs:215-258 | at rest, sleeping producers face a full open edge, a sleeping reader an empty open one with a live producer, and they never sleep at once |
| EdgeProtocol.AttendedStep | src/edge/sync/receiver.rs:139-150 | a reader asleep or about to sleep with a message buffered or no producer left has a notify or close in flight |
| EdgeProtocol.StuckIsOwed | src/edge/sync/sender.rs:158-185 | a handle answered Stuck faces a full edge and, if bound, has its current waker listed |
| EdgeProtocol.OwedStep | src/edge/sync/sender.rs:48-84 | that debt survives scheduling, cloning, drains and closes |
| EdgeProtocol.ListedStep | src/edge/sync/shared.rs:42-46 | listed wakers belong to the current epoch, at most one per handle and binding |
| EdgeProtocol.ConservedStep | src/edge/sync/receiver.rs:233-247 | recorded wakers are exactly those woken, taken or listed |
| EdgeProtocol.RefusalKeepsContents | src/edge/sync/sender.rs:158-185 | refusals change no contents; a Full is followed by Stuck in the same epoch |
| EdgeProtocol.ClosesOnlyBy | src/edge/sync/shared.rs:65-95 | in every run: an edge that is closed was closed by the reader or had its last producer released, and after a close by the reader it is closed |
| EdgeProtocol.LastReleaseCloses | src/edge/sync/sender.rs:87-101 | in every run: once a release took the producer count from one to zero the edge is closed or a thread is closing it, and a thread closes it only after such a release |
| EdgeProtocol.ClosedStaysReadable | src/edge/sync/receiver.rs:177-204 | after a close nothing lands and what was accepted stays to be read, in order |
| EdgeProtocol.GivingUpLeavesNothing | src/edge/sync/receiver.rs:139-172 | a blocking read that gives up has read everything accepted, and nothing can wake it |
| PollNode.LineNode.PollInput | src/node/poll/feed.rs:42-64 | a poll of Input keeps the invariant, moves messages from the front of the edge in order, reads only in Running, and stops short of the budget only at an empty edge, the end, a signal or a refusal |
| PollNode.LineNode.RetryHeld | src/node/poll/feed.rs:65-80 | the held message goes first; refused again, a wake is owed |
| PollNode.LineNode.Recv | src/node/poll/feed.rs:81-112 | one message: offered data, a begun flush, a marker, a close, or an empty edge |
| PollNode.LineNode.TrySend | src/node/poll/feed.rs:119-133 | an accepted datum reaches the routine, a refused one is held with a wake owed |
| PollNode.LineNode.BeginFlush | src/node/poll/feed.rs:134-141 | the routine is told to flush and Work is woken |
| PollNode.LineNode.PollWork | src/node/poll/drive.rs:20-61 | a poll of Work keeps the invariant, polls the routine in Running, Flushing and MarkerReady alone, delivers nothing, and changes the state only from Flushing to FlushReady with Output woken |
| PollNode.LineNode.PollRoutine | src/node/poll/drive.rs:65-73 | Ready only ends a flush; pending in a flush owes Work a wake |
| PollNode.LineNode.Drain | src/node/poll/emit.rs:107-127 | the held message, then outputs up to the budget, one delivery per push taken and none past a refusal; parked, failed, yielded or done exactly as the edges answered |
| PollNode.LineNode.PullReady | src/node/poll/emit.rs:107-127 | the loop computes a row of taken pushes and how it ends: at an empty routine, at the first output not taken, or at the budget, where Output wakes itself |
| PollNode.LineNode.PollOutput | src/node/poll/emit.rs:60-106 | a poll of Output keeps the invariant, closes the node for a failure or a close alone, leaves a refused message held with a wake owed, pushes whenever there is something to deliver, and with every push taken within the budget leaves the node drained and Running or still Flushing |
| PollNode.LineNode.Settle | src/node/poll/emit.rs:83-88 | a held signal is retried; delivered it resumes the node, refused it stays, failed it closes the node |
| PollNode.LineNode.Finish | src/node/poll/emit.rs:72-104 | a drained node forwards the waiting signal at once |
| PollNode.LineNode.Close | src/node/poll/emit.rs:176-180 | a failing or finished node is Closed and wakes the other phases |
| PollNode.LineNode.Run | src/node/poll/emit.rs:47-180 | any interleaving of polls of woken phases and outside events leaves each phase that has something to do woken or owed its wake, never strands an open node, keeps its signals once and in order, lets no Flush out before the routine was Ready for it, and never takes back what was read or delivered |
| PollNode.NextPhaseOwed | src/node/poll/emit.rs:47-59 | the phase that must act next, in each state, is woken or owed its own wake by the routine or edge that stopped it; where Work's wake was swallowed Output is about to make it good |
| PollNode.NeverStranded | src/node/poll/drive.rs:20-61 | hence an open node with nothing woken and nothing owed has nothing to do |
| PollNode.SignalsOnceInOrder | src/node/poll/emit.rs:60-144 | signals read are signals delivered plus at most one on its way, in order, while the node is open; Forwarding exactly when the held message is a signal |
| PollNode.PrefixAlways | src/node/poll/emit.rs:137-180 | even closed or failed, what was delivered is a prefix of the owed stream, its signals of those read, and its Flushes of those the routine was Ready for |
| PollNode.FeedTakes | src/node/poll/feed.rs:81-112 | one message at most leaves the front of the edge; Input goes on only after accepted data |
| PollNode.ConcludedEmits | src/node/poll/emit.rs:60-104 | what follows a drain, close, forward or wait, is what the edges' answers and the state call for |
| PollNode.FlushedFlows | src/node/poll/drive.rs:23-35 | the routine's Ready, and it alone, lets the Flush join the owed stream, behind everything delivered, held and made by then |
| PollNode.ReceiveFlows | src/node/poll/feed.rs:81-147 | taking a message loses, doubles and reorders nothing |
| PollNode.ForwardFlows | src/node/poll/emit.rs:72-104 | delivering, holding or dropping the signal keeps the streams |
| PollNode.ResumeKeeps | src/node/poll/emit.rs:129-168 | the held signal's delivery takes the node to Running with Input and Work woken, so swallowed wakes are made good |
| PollNode.WorkControl | src/node/poll/drive.rs:20-61 | a poll of Work leaves the next phase woken or owed a wake, also where it swallows its own |
| PollBiunion.InvStep | src/node/biunion/poll/node/input.rs:34-134 | every message an Input hands over, every poll of Work and Output and every outside event keeps a two-input node's invariant |
| PollBiunion.Always | src/node/biunion/poll/node.rs:1-21 | the same in every state any run reaches |
| PollBiunion.NeverStranded | src/node/biunion/poll/node/input.rs:84-134 | in every run, each side with something to do in Running is woken or, holding a datum, owed its wake by the routine; while the other side's signal is on its way, Work or Output, who will end it, is woken or owed |
| PollBiunion.QuietlyDone | src/node/biunion/poll/node.rs:1-21 | an open node with nothing woken and nothing owed is Running, with nothing left on either side, in the routine or at the outlet |
| PollBiunion.Interleaves | src/node/biunion/poll/node.rs:20-23 | what the routine took interleaves what each side read, in order, but for one held datum a side; its signals leave once and in order, a Flush only after Ready |
| PollBiunion.EndsWithLast | src/node/poll/feed.rs:144-161 | a node starting to close has taken everything that arrived on either input |
| PollBiunion.EndsExactly | src/node/poll/feed.rs:144-161 | in every run, a node not yet closed is closing if and only if both inputs ended |
| PollBiunion.StepExactly | src/node/biunion/poll/node/input.rs:34-82 | in every run, an open node starts to close exactly by the poll, in Running, of an input that is open, holds nothing and shows its end, while the other has ended; otherwise only a failed edge closes it |
| PollBiunion.OneCloseLeavesOpen | src/node/poll/feed.rs:149-153 | a run in which one input closes and is read to its end, and the node stays Running with the other open |
| PollBiunion.HandKeeps | src/node/poll/feed.rs:81-147 | a message of either side moves the shared state as the line's own would |
| PollBiunion.OutputLineKeeps | src/node/poll/emit.rs:60-127 | one message of Output's poll, whatever the edge answers, keeps the shared state's invariant |
| Deadlines.DeadlineHeap.Register | src/poll/timer/deadline.rs:111-145 | adds the timer under a key never handed out before; cells grow only to the peak of live timers |
| Deadlines.DeadlineHeap.Cancel | src/poll/timer/deadline.rs:147-150 | removes exactly that timer; a stale key removes nothing, even once its cell is recycled |
| Deadlines.DeadlineHeap.Peek | src/poll/timer/deadline.rs:158-172 | the least live deadline, none exactly when no timer is live |
| Deadlines.DeadlineHeap.Pop | src/poll/timer/deadline.rs:176-194 | removes a minimal timer due by now, none exactly when none is due |
| Deadlines.DeadlineHeap.TakeLive | src/poll/timer/deadline.rs:207-218 | vacates a live cell under a new generation, and touches nothing for a dead key |
| Deadlines.DeadlineHeap.DiscardDead | src/poll/timer/deadline.rs:158-190 | drops dead entries off the top until a live one leads |
| Deadlines.DeadlineHeap.Expire | src/poll/timer.rs:41-50 | fires exactly the due timers, each once, in deadline order, and leaves the others |
| Deadlines.TopIsEarliest | src/poll/timer/deadline.rs:43-53 | the heap's live top is a live timer of least deadline |
| Deadlines.VacateKeeps | src/poll/timer/deadline.rs:196-218 | a bumped generation kills one key and no other |
| Deadlines.TakenSound | src/poll/timer/deadline.rs:147-218 | releasing any key, live or stale, keeps every cell free or live and the heap standing for the other timers; no key is ever issued anew |
| Deadlines.RegisterSound | src/poll/timer/deadline.rs:111-145 | a timer put in a recycled or new cell keeps every cell free or live and the heap standing for the timers, under a key never issued |
| Deadlines.Occupied | src/poll/timer/deadline.rs:111-135 | a recycled or new cell makes its own key live and no stale one |
| Deadlines.FiredAllDue | src/poll/timer.rs:41-50 | firing to the end is the set of due timers |
| Fanout.AlwaysBroadcasts | src/edge/fanout.rs:76-132 | every run of push, retry and resume is an exact broadcast: edges before the suspended one have all messages, the rest all but the held one, and the source for later edges is kept exactly when there are any; an edge's error ends the run with its last message stopped at that edge and nothing held |
| Fanout.RotateBroadcasts | src/edge/fanout.rs:203-228 | a rotation from any index delivers to the edges up to the first refusal or error and no further |
| Fanout.PushBroadcasts | src/edge/fanout.rs:76-112 | a push onto a fan-out that holds nothing broadcasts one message more, or is cut short by an error |
| Fanout.ResumeBroadcasts | src/edge/fanout.rs:180-280 | retry and resume finish, suspend again or drop the held message on an error, and never redo an edge |
| Fanout.RotateLands | src/edge/fanout.rs:203-228 | while every edge takes, a rotation suspends nowhere |
| Fanout.SingleIsFanoutOfOne | src/edge/single.rs:47-82 | the single edge delivers, holds and errors as a one-edge fan-out does, step by step |
| Fanout.FanoutEdges.Rotate | src/edge/fanout.rs:203-228 | the loop over edges computes the rotation |
| Fanout.FanoutEdges.PushNew | src/edge/fanout.rs:76-112 | a push is possible only with nothing held |
| Fanout.FanoutEdges.RetryHeld | src/edge/fanout.rs:180-202 | never blocks: Full and Stuck leave the suspension as it is, an error drops the held message |
| Fanout.FanoutEdges.ResumeHeld | src/edge/fanout.rs:264-280 | Full yields, Stuck waits until the message lands or the edge errors |
| Transducer.TransduceMore | src/node/line/routine.rs:12-45 | one more message adds its outputs and then the signal |
| Transducer.TransducePrefix | src/node/line/routine.rs:12-45 | a longer input only adds to the stream |
| Transducer.SignalsPass | src/node/line/pull/node.rs:65-102 | signals pass exactly once, in order and unchanged |
| Transducer.ChainComposes | src/node/line/pull/node.rs:65-139 | one routine fed by another makes the stream of their composition |
| PullLine.Line.NextOutput | src/node/line/pull/node.rs:127-139 | the routine's next output before the buffered message |
| PullLine.Line.Accept | src/node/line/pull/node.rs:65-102 | what was yielded and is held is the transduction of what was pulled; the buffer holds at most one Flush |
| PullLine.Pull | src/node/line/pull/node.rs:65-102 | each pull yields the next message of that stream, and the parent's close only once all is out |
| PullLine.PullAll | src/node/line/pull/node.rs:65-102 | pulling to the end yields exactly the transduction of the parent's stream |
| PullLine.PullChain | src/node/line/pull/node.rs:65-139 | two lines in a row yield exactly the composed routine's stream |
| WorkNodes.Side.Round | src/node/bifurcation/work/node.rs:218-245 | a side's round finishes its suspended push, else pushes its next output, else its signal; nothing owed is lost or reordered; an edge's error leaves every edge a prefix |
| WorkNodes.Bifurcation.Accept | src/node/bifurcation/work/node.rs:278-300 | only with both sides idle: each side then owes what its part of the routine makes and the signal behind it |
| WorkNodes.Bifurcation.Work | src/node/bifurcation/work/node.rs:148-186 | at most one message per side, input only when both sides were idle; each side goes on with its suspended push or starts one unless it has nothing to do, whatever the other does; closed only when all is out |
| WorkNodes.Bifurcation.Run | src/node/bifurcation/work/node.rs:148-186 | whatever either side's edges refuse or fail, each edge has a prefix of its side's transduction of the whole input, and all of it once closed |
| WorkNodes.Bifurcation.Finish | src/node/bifurcation/work/node.rs:148-186 | once every edge takes, the node closes within two calls more than the messages it owes |
| WorkNodes.SidesAgree | src/node/bifurcation/work/node.rs:278-300 | both sides see one routine state |
| MergeNode.Biunion.Poll | src/node/biunion/work/node.rs:234-257 | takes one message, left before right, and reports closed exactly when both sides show their end |
| MergeNode.Biunion.Accept | src/node/biunion/work/node.rs:276-296 | data feeds the routine, a signal waits behind what the routine made |
| MergeNode.Biunion.Work | src/node/biunion/work/node.rs:157-187 | at most one message out, input only while nothing is held; what is taken is a prefix of what the polls show, left before right, and all of it when the call ends waiting |
| MergeNode.Biunion.Run | src/node/biunion/work/node.rs:219-271 | the merge taken splits into prefixes of both inputs, and every edge has a prefix of its transduction; once closed, both inputs and all of it |
| FollowData.FilteredMore | src/edge/policy.rs:36-44 | a message passes by what came right before it alone |
| FollowData.Behaves | src/edge/policy.rs:14-25 | no leading signal, no two signals in a row, all data kept in order |
| FollowData.FixedExactly | src/edge/policy.rs:36-44 | the filter leaves a stream unchanged exactly when every signal is right behind data |
| FollowData.FilterTwice | src/edge/policy.rs:36-44 | filtering twice is filtering once |
| FollowData.FollowEdge.Push | src/edge/policy.rs:53-58 | the blocking push consumes the message under the same rule |
| FollowData.FollowEdge.TryPush | src/edge/policy.rs:75-97 | a refused message leaves no trace; a dropped signal counts as pushed, whatever the sink would say; an error loses the message and is the only way to lose one |
| FollowData.FollowEdge.OfferAll | src/edge/policy.rs:75-97 | under any refusals, re-offering delivers exactly the filter of the offered stream; an error ends the offering one message short of it |
| WorkRound.Workables.WorkEach | src/work/work_each.rs:11-29 | the index loop with swap-remove and the rotation compute the round |
| WorkRound.WorksEachOnce | src/work/work_each.rs:11-29 | without other failures each workable is worked exactly once, and exactly those that did not close are left, turned by one |
| WorkRound.FailureKeepsRest | src/work/work_each.rs:16-22 | another failure ends the round there: only what closed before it is gone |
| WorkRound.RestEnds | src/work/work_each.rs:15-23 | from any midpoint, nothing is worked twice or skipped despite the swaps |
| WorkRound.Workables.Rounds | src/work/work_each.rs:24-27 | with no closings, k rounds over k workables start with each of them once |
| PollEdge.Edge.TryPush | src/poll/edge/poll/sender.rs:57-77 | closed beats full; Full, then Stuck until a pop; the consumer is woken exactly for a landed message |
| PollEdge.Edge.CloseAndWake | src/poll/edge/poll/sender.rs:33-38 | wakes the consumer at the first close only |
| PollEdge.Edge.TryRecv | src/poll/edge/poll/receiver.rs:53-69 | a pop after a refusal wakes the producer once; closed only when empty |
| PollEdge.Edge.CloseReceiver | src/poll/edge/poll/receiver.rs:30-35 | a refused producer is woken by the close |
| PollEdge.StepAlike | src/edge/sync/receiver.rs:177-227 | one step of both edges answers, pops and wakes alike and keeps them alike |
| PollEdge.Bisimilar | src/poll/edge/poll/sender.rs:57-77 | a run from new edges whose bindings are steady is seen alike: every answer, pop and wake |
| PollEdge.BisimilarExactly | src/poll/edge/poll/sender.rs:57-77 | from new edges of one bound: a run's bindings are steady if and only if no push, offered at any point of the run, tells the two edges apart, answers and wakes included |
| PollEdge.AlikeExactly | src/edge/sync/sender.rs:48-61 | the same from any two edges in the same condition |
| PollEdge.UnsteadyDiffers | src/edge/sync/sender.rs:48-61 | a push right behind a binding is seen alike after a steady binding, and else answered Full by the sync edge and Stuck by the other |
| PollEdge.LateBindingShows | src/edge/sync/sender.rs:48-61 | a run from new edges that shows it: a waker first bound after a refusal |
| PollEdge.UnsteadyUnseen | src/poll/edge/poll/sender.rs:57-77 | without a push behind it an unsteady binding can go unseen: a run that is unsteady, yet seen alike at every step |
| PollEdge.SenderCloseParts | src/poll/edge/poll/sender.rs:33-38 | after a close by the sender the sync edge has woken a refused producer and the same-thread edge wakes it at the next pop |
| WaitAny.Turn | src/work/multiedge.rs:12-27 | one scan: found exactly if some edge shows ready, over exactly if all show exhausted, else park |
| WaitAny.InvStep | src/edge/waking.rs:85-144 | every step of senders, waiter and parker keeps the waiter informed, wakes that change no edge included |
| WaitAny.NoLostWake | src/work/multiedge.rs:12-27 | parked with the token clear while some edge is ready or all are exhausted: a sender is between its landing or close and its wake |
| WaitAny.RightlyAsleep | src/edge/waking.rs:15-29 | with every sender at rest, a sleeping waiter has no ready edge and some idle one |
| WaitAny.ReportsTruly | src/work/multiedge.rs:12-27 | in every run: Found means an edge is ready when the call returns; Over means every edge is exhausted then and in every later state |

## Left out

- Weak memory: every atomic operation is one sequentially consistent step; the release sequence
  behind the early pushes before the arena exists is not modelled.
- `src/poll/scheduler/treiber/node.rs` and `link.rs`: the queued flag and the link are modelled by
  what they do, not by the words that encode them.
- Wrap-around of `progress` and of cell generations at 2^64: both are unbounded here.
- Poisoned locks, panics, `fatal!` errors and borrow failures.
- Errors of routines and inlets other than Closed; kinds of edge errors are not told apart.
- Fanout.FanoutEdges.PushNew: `close`, which drops a held message and closes every edge, is not
  modelled, and a call past a held message, an internal error there, is a push not started here.
- Deadlines.DeadlineHeap.Register: the standard library's binary heap is taken by its contract, an
  ordered collection whose least entry is on top; ties are broken by insertion here, by nothing
  promised there.
- PollNode.LineNode.Run: payloads and signals are integers, the outlet is one rotation that takes,
  refuses or fails, and every poll's budget is a parameter.
- WorkNodes.Bifurcation.Work: the input is the stream it will yield; working the parents while it is
  empty, and blocking on it, change nothing the model observes; closing the output edges at the end
  is not modelled.
- MergeNode.Biunion.Work: likewise, with a given pattern of when each input shows what it has; where
  the code would block, the call ends as Waiting.
- PullLine.Pull: the parent is the stream it yields before it closes.
- PollEdge.BisimilarExactly: closes by the sender are outside it, because there the wakes differ
  (`PollEdge.SenderCloseParts`).
- PollLoop.PollThread.Pass: other threads push only while the poll thread is parked (`Scheduler` has
  every interleaving), and a wait ends at its deadline, not late.
- PollBiunion.InvStep: a step is one message of a poll and a poll that goes on is woken, so a poll's
  budget and the order inside one poll are not told apart from any other order; Work and Output are
  the line node's, with the inputs' wakes beside them.
- WaitAny.NoLostWake: message contents and refusals are left to `EdgeProtocol`.
- Threads, scopes, spawn options, builders, type-level wiring, tracing, error text: no protocol.
- `race`, `try_join`, `Waiters`, `Deadline`, `Trackable`, readers and IO bundles: shallow members.
