# Reowolf: a verified model of the runtime and of the evaluator

Reowolf lets connectors on a network agree, round by round, on one consistent set of message exchanges.
This project models its two cores in Dafny and proves what they are for.

**The distributed runtime.**

- *Setup* (`Network`, `Setup`, `Participants`, `Election`, `SetupInvariant`, `SetupSteps`, `SetupCases`,
  `SetupLeaving`, `SetupTheorems`, `SetupProgress`, `SessionFromSetup`). Connectors with distinct ids on any
  finite connected multigraph (self-loops and parallel links included) with FIFO links elect a leader by echo
  with extinction and build a consensus tree. `Participants` is `init_neighborhood` with its fields updated in
  place, proved against the step functions of `Setup`; the theorems are about every interleaving of those
  steps: nobody fails, there is one leader, the parent links span the network, every run ends, and it ends
  with everybody done.
- *Ports* (`Ports`, `Pairing`, `WorldFromSetup`). The port tables and the native's batches, updated in place; the
  exchange of port information over every link, in any interleaving, which succeeds exactly if every link joins a
  putter and a getter; and the proof that the tables of all connectors in all rounds are then those the rounds rely
  on, whatever channels components create and ports they pass on.
- *Rounds* (`Rounds`, `RoundsInvariant`, `RoundsSteps`, `RoundsTheorems`, `RoundsLedger`, `RoundsDuties`,
  `RoundsProgress`, `Endpoints`). Children suggest solutions or failure, payloads cross the links, the root decides,
  announcements go down the tree, early messages are kept and late ones discarded. The theorems hold for runs over any
  number of rounds of any valid session, and `SessionFromSetup` shows that every completed setup yields one. They say
  what connectors agree on, what each must have told its neighbours and how often, and that a round in which everybody
  takes part is decided as soon as it can be.
- *Speculation* (`Predicates`, `Solutions`, `Native`, `Proto`, `ProtoRuns`). Predicates and their unions, the
  incremental join of subtree solutions, and the branch maps of the native and of protocol components under forking
  and merging, in whatever order they are visited.
- *Programs* (`Programs`, `ProtoPaths`, `ProtoCommits`, `ProtoLoss`). A protocol component runs a program that learns
  about its branch only by asking: for a message, for whether a port fires, for a put. Every branch is then on the way
  the program takes if the branch's key comes true; from this follow what a component puts, which assertions hold, and
  when a decision finds a branch to commit.
- *The whole runtime* (`Components`, `System`, `SystemInvariant`, `SystemVoices`, `Atomicity`, `SystemProgress`).
  Connectors with their components: a component submits only solutions its branches found, sends only what its branches
  put, and is fed only what was put on a channel that leads to it, over a link or within the connector. The theorems say
  what a decision means for every channel in every run; and for a runtime that has nothing left to do, that every put
  has arrived, which solutions have been submitted, and which rounds are decided.

**The evaluator of the protocol language.**

- *Memory* (`Values`, `Stores`, `Frames`, `ValueGroups`, `Operators`, `Assignments`, `EvalStores`). A value denotes a
  tree over heap regions. The invariant `Values.Ok` accounts for every region: it is owned by exactly one tree, or is
  on the free list once. Cloning, dropping, writing, calling, returning, passing arguments to a new component,
  comparing, concatenating, slicing and assigning to variables and to parts of values all keep it and say which
  regions moved; so do the instructions of the evaluator that work on the value deque.
- *Expressions* (`Expressions`, `Evaluation`, `EvalFrames`). Serialization into an instruction deque, the value
  deque with its rotation of arguments, and the proof that running the instructions is recursive evaluation.
- *Expressions on the store* (`EvalRuns`). Both together: running a serialized expression on the store, with retries,
  leaves a value with the meaning that recursive evaluation gives, and every region accounted for.
- *What expressions mean* (`ExpressionLaws`, `MeaningLaws`). Kind by kind: which operand is serialized and evaluated
  when and which value comes first, and what joins, comparisons, elements, fields, slices, literals, conditionals and
  the built-in functions mean in terms of what their operands mean.

**Conventions.** Auxiliary history of the setup (`Election.History`) and of the rounds (`sent`, `handled`, `failed`, `skipped`), the
received messages (`log`) of branching components and the trees of stack slots (`slots`) are there for the proofs
only. `hide` statements only narrow what the solver sees. Where the modelled code can fail an assertion or panic,
the model has an explicit outcome for it (`Crashed`, `Misbehaved`, `Turn.panic`, a false `ok`, `Option`,
`Stopped`), and where the theorems show that it cannot happen no precondition rules it out. The maps that the
source visits in hash order are visited in any order.

**What the proofs found.**

- The native's branch variable never coincides with a port's variable, whatever number of ports components
  allocate before the round (`Ports.NativeVarIsFresh`). The stream skips 100 identifiers and is taken from the
  identifier manager as it was before the components ran, which suggests a limit of 100 new ports; but ports
  are allocated in pairs, putter first, variables are getter identifiers, and 100 is even.
- The same holds across connectors and rounds (`WorldFromSetup.NativeVarOutside`).
- A protocol component can submit a solution and be left without a branch to commit for it, and then `collapse_with`
  panics. `insert_branch_merging` keeps the older branch even if only the newer one has ended.
  `ProtoLoss.EndCanBeLost` is such a run of the program `get(g1); put(p0); put(p1); get(g2); put(p2);
  assert(fires(g0)); get(g0)`, fed the messages of three channels and draining in an order that hashing permits: its
  end under {g0, g1, g2, p0, p1, p2} is submitted, and afterwards no branch within it has ended.
  Exactly when: within one drain, `collapse_with` finds a branch for a decision afterwards if and only if it did before
  or some branch ended within the decision while no branch that had not ended was in its place
  (`ProtoRuns.CommitsExactlyWhenKept`). Over the life of a component, unless some branch within the decision has
  been overtaken (it waits for a message that merging has already given it), a branch is found if and only if the
  program ends when the decision comes true (`ProtoCommits.CommitsExactlyWhen`), in particular for every solution it
  submitted (`ProtoCommits.SubmittedCommits`) and, in every run of the runtime, for every successful decision
  (`Atomicity.ProtocolCommits`).
- That the end under one key is lost is a different matter, and need not hurt, as a branch within that key may have
  ended too: it happens exactly if a branch that has not ended came out under that key earlier in the same drain
  (`ProtoRuns.EndIsKeptExactlyWhen`, `ProtoRuns.LostWithinOneDrain`). The native loses nothing:
  `Native.OfferedExactlyWhen`, `Atomicity.NativeCommits`.
- The assertions on repeated payloads cannot fail, for natives and for components that run programs
  (`Atomicity.RepeatedPayloadsAgree`, `Atomicity.ArrivesWithoutContradiction`): every port speaks with one voice
  (`SystemVoices.RunVoices`).
- Assigning to a string variable, element or field loses the regions of the old string:
  `apply_assignment_operator` gives back the regions of messages, arrays, unions and structs, but not those of
  strings. Every region stays accounted for exactly if the old value was not a string
  (`Operators.AssignVariable`, `Assignments.AssignPart`).
- The comment at src/protocol/eval/executor.rs:147-150 says that fields of a struct literal are evaluated in the
  programmer's order. The code serializes them in the order of the type and evaluates them from the last to the
  first; the model follows the code.

## Model

| member | source | states |
|---|---|---|
| Participants.Participant.DoWave | src/runtime/setup.rs:688-702 | exactly one wave message on every link but the parent's, and exactly those links are awaited |
| Participants.Participant.Begin | src/runtime/setup.rs:717-735 | starting the election leads to the phase and the messages of the step function |
| Participants.Participant.ReceiveInElection | src/runtime/setup.rs:736-812 | each setup message is handled in place as the step function prescribes, including every failing branch |
| Participants.Participant.Echo | src/runtime/setup.rs:775-799 | an equal wave removes an awaited link; the last one makes the connector win or answer its parent |
| Participants.Participant.StartTree | src/runtime/setup.rs:814-829 | one tree message per link tells parent from non-parent, and every link but the parent's is awaited |
| Participants.Participant.ReceiveInTree | src/runtime/setup.rs:830-877 | tree answers are counted once per link and children collected; the phase ends when none is awaited |
| Participants.Participant.Receive | src/runtime/setup.rs:669-879 | handling one message equals the step function used in all theorems below |
| Election.MembersAreDone | src/runtime/setup.rs:760-799 | in a wave whose root awaits nothing, every member has heard the wave on all its links |
| Election.CompleteWaveReachesAll | src/runtime/setup.rs:775-799 | a wave that completes has been joined by every connector, so its root has the greatest id |
| SetupCases.EchoIsAwaited | src/runtime/setup.rs:775-776 | an equal wave always arrives on a link that is still awaited |
| SetupLeaving.AnnounceFacts | src/runtime/setup.rs:741-750 | an announced leader is the winner: not below the receiver's best wave and not the receiver |
| SetupLeaving.AnswerIsAwaited | src/runtime/setup.rs:834-872 | a tree answer always arrives on a link that is still awaited, once |
| SetupTheorems.NoChildYet | src/runtime/setup.rs:802-805 | nobody names a connector its parent while that connector is still in the election |
| SetupTheorems.StepGoes | src/runtime/setup.rs:703-879 | every step from an invariant state reaches an invariant state and adds a new event |
| SetupTheorems.RunInv | src/runtime/setup.rs:703-879 | the invariant holds at the end of every run of every interleaving |
| SetupTheorems.NobodyFails | src/runtime/setup.rs:741-872 | in every run no assertion of the setup fires and no connector reports misbehaviour |
| SetupTheorems.OneLeader | src/runtime/setup.rs:741-801 | as soon as one connector has left the election its leader has the greatest id and everybody supports that leader |
| SetupTheorems.ParentsFormTree | src/runtime/setup.rs:814-877 | from every connector that has left, parent links climb to the leader, which has no parent |
| SetupTheorems.ChildrenMirrorParents | src/runtime/setup.rs:834-877 | when both ends of a link are done, one end lists it as a child if and only if the other has it as its parent |
| SetupProgress.RunsEnd | src/runtime/setup.rs:703-879 | no run takes more turns than there are connectors, link ends times connectors, and link ends together |
| SetupProgress.AllHaveLeft | src/runtime/setup.rs:814-829 | when nothing can happen any more and one connector has left the election, all have |
| SetupProgress.SomebodyHasLeft | src/runtime/setup.rs:736-812 | the election cannot stall: when nothing can happen any more somebody has left it |
| SetupProgress.FinishedMeansDone | src/runtime/setup.rs:703-879 | a run that cannot continue has every connector done with its tree: no deadlock |
| SessionFromSetup.SetupYieldsSession | src/runtime/setup.rs:874-879 | the neighbourhoods left by any completed setup form a rooted tree on which the round theorems apply |
| Predicates.AssignmentUnion | src/runtime/mod.rs:733-797 | the ordered walk returns nonexistant iff a shared variable differs, the containment results iff the maps are equal or strictly contained, and otherwise the union |
| Predicates.Walk | src/runtime/mod.rs:736-781 | the walk over the sorted entries finds a clash or splits off what each side assigns beyond the other |
| Predicates.UnionWith | src/runtime/mod.rs:801-810 | the union if the predicates are consistent, nothing otherwise |
| Predicates.Items | src/runtime/mod.rs:736-737 | the entries of a predicate, each once and in ascending order of variable |
| Predicates.UnionOf | src/runtime/mod.rs:733-797 | the ordered walk applied to the entries of both predicates classifies them as the map union does |
| Predicates.UnionsAgree | src/runtime/mod.rs:733-810 | both union operations agree for all predicates |
| Predicates.UnionLaws | src/runtime/mod.rs:801-810 | union is commutative and associative wherever defined, and defined alike on both sides |
| Solutions.ElaboratesOne | src/runtime/communication.rs:1311-1339 | one level of the recursive elaboration picks a consistent predicate of the next set and goes on with the union, both directions |
| Solutions.NewSolutions | src/runtime/communication.rs:1285-1310 | adding a predicate to one subtree adds exactly the solutions that pick it there |
| Solutions.SolutionStorage.constructor | src/runtime/communication.rs:1251-1273 | an empty set per subtree, found by its identifier, and no solution yet |
| Solutions.SolutionStorage.SubmitAndDigest | src/runtime/communication.rs:1285-1310 | old and new solutions stay disjoint and together are exactly the consistent unions of one predicate per subtree |
| Solutions.SolutionStorage.Elaborate | src/runtime/communication.rs:1311-1339 | adds exactly the elaborations of the partial solution that are not old |
| Solutions.SolutionStorage.DrainNewLocal | src/runtime/communication.rs:1274-1284 | every new solution is handed out once, becomes old, and the insertion never finds it there already |
| RoundsTheorems.ActionKeepsInv | src/runtime/communication.rs:484-794 | every action of every connector keeps the round invariant |
| RoundsTheorems.RunInv | src/runtime/communication.rs:241-794 | the round invariant holds throughout every run over any number of rounds |
| RoundsTheorems.SameDecision | src/runtime/communication.rs:425-450 | any two connectors that have completed round r have the same decision, which is the root's |
| RoundsSteps.SolutionIsSupported | src/runtime/communication.rs:651-672 | a solution of the storage is supported by every local component and by the subtree of every child |
| RoundsTheorems.SupportReaches | src/runtime/communication.rs:651-727 | what the root's subtree supports is supported by every connector |
| RoundsTheorems.SuccessIsSupported | src/runtime/communication.rs:651-727 | a successful decision extends, at every connector, a solution submitted by each of its components in that round; that a solution of the root is the decision is `RoundsDuties.RootDecides` |
| RoundsTheorems.EarlyAnnouncementIsFailure | src/runtime/communication.rs:651-773 | an announcement waiting for a connector that has not entered the round is a failure |
| RoundsLedger.LedgerNext | src/runtime/endpoints.rs:190-254 | every action keeps the ledger: what was sent for the current or a later round waits or was acted upon |
| RoundsLedger.NothingIsDropped | src/runtime/endpoints.rs:190-254 | in every state of every run, every copy of every message (payloads included) sent for the recipient's current or a later round still waits or was acted upon in that very round; payloads acted upon are in the buffer as often as they came, children's solutions have been heard, failures passed on |
| RoundsLedger.EarlyMessagesAreKept | src/runtime/endpoints.rs:190-254 | over any stretch of a run, no copy of a message is lost whose recipient has not entered its round |
| RoundsDuties.AnnouncedToChildren | src/runtime/communication.rs:431-450 | in every state of every run, whoever has recorded a decision of a round has sent exactly that announcement to each child exactly once, and no announcement to anybody else or of another decision |
| RoundsDuties.SuggestedToParent | src/runtime/communication.rs:651-794 | in every state of every run, each solution a connector has forwarded in its round, and failure if it has asked for it, has been sent to its parent exactly once, nothing else has, nothing ever twice, and no suggestion to anybody but the parent |
| RoundsDuties.FailureNeedsRequest | src/runtime/communication.rs:714-794 | a recorded failure goes back to some connector that was in the round and requested it |
| RoundsDuties.RootDecides | src/runtime/communication.rs:665-670 | as soon as the root finds a solution or gives up, that is the decision of the round for good and for everybody |
| RoundsDuties.EveryRoundEnds | src/runtime/communication.rs:241-490 | every past round of a connector was either skipped or entered and decided, never both |
| RoundsDuties.RecordsStay | src/runtime/communication.rs:425-480 | over any stretch of a run submissions are kept and recorded decisions never change |
| RoundsDuties.SubmissionsStay | src/runtime/communication.rs:1285-1310 | what a component submitted is among its connector's solutions of the round ever after |
| RoundsDuties.SolvesExactlyWhen | src/runtime/communication.rs:1285-1339 | a connector has a solution within a predicate iff every component and every child has submitted one within it |
| RoundsProgress.QuietMeansDecided | src/runtime/communication.rs:490-794 | no deadlock: when nothing is left to receive or forward, a round that everybody entered is decided by everybody iff somebody requested failure or the components agree on a solution, and otherwise by nobody |
| Endpoints.SortingKeepsMessages | src/runtime/endpoints.rs:190-254 | sorting keeps every message of the current or a later round, with its multiplicity |
| Endpoints.SortingIsTimely | src/runtime/endpoints.rs:190-254 | what is handed out belongs to the current round, what is delayed to later ones |
| Endpoints.SortingTakesTheLast | src/runtime/endpoints.rs:244-254 | the control message handed out is the last undelayed one of the round, and everything before it stays where it was |
| Endpoints.SortMatchesHandle | src/runtime/endpoints.rs:190-242 | the buffers after sorting are those of the session model |
| Endpoints.EndpointManager.HandleMsg | src/runtime/endpoints.rs:190-242 | one message is discarded, delayed, stored or handed out as specified |
| Endpoints.EndpointManager.RecvUndelayed | src/runtime/endpoints.rs:244-254 | undelayed messages are sorted from the back until a control message of the round is found |
| Endpoints.EndpointManager.UndelayAll | src/runtime/endpoints.rs:373-381 | all delayed messages become available behind the undelayed ones |
| Endpoints.Coordinator.Decide | src/runtime/communication.rs:425-450 | the decision is recorded, the round advances, and exactly the children get the announcement of this decision for this round |
| Endpoints.Coordinator.RequestFailure | src/runtime/communication.rs:781-794 | the root decides failure; another connector suggests it to its parent, exactly if it has not done so in this round |
| Endpoints.Coordinator.HandleControl | src/runtime/communication.rs:714-774 | suggestions of children and announcements of the parent are acted upon, all others ignored |
| Native.BatchKey | src/runtime/communication.rs:354-383 | a batch has a key iff it does not use one end of a channel and leave out the other end it owns; the key assigns exactly the native's variables |
| Native.BranchingNative.constructor | src/runtime/communication.rs:345-419 | exactly the coherent batches have a branch with a distinct key; their puts, all of them and no others, are sent under it; those awaiting nothing are submitted |
| Native.FeedsOne | src/runtime/communication.rs:820-924 | feeding one branch keeps it or includes it, adds the branch under the union iff accepted, and submits it iff it awaits nothing more |
| Native.BranchingNative.FeedBranch | src/runtime/communication.rs:826-922 | the in-place case analysis is the specified one, and the assertion on repeated payloads fails iff an accepting branch has received something else |
| Native.BranchingNative.FeedMsg | src/runtime/communication.rs:805-924 | fails iff some accepting branch has received something else on the port; otherwise all branches are fed in some order, none is lost or un-ended, and the invariant below is kept |
| Native.NativeFeedsOk | src/runtime/communication.rs:805-955 | in whatever order branches are fed: every payload was sent under a predicate within its branch's key, every submitted solution stays the key of an ended branch, every accepting branch is fed, and submission stays complete |
| Native.MergedOk | src/runtime/communication.rs:926-955 | merging branches of one key keeps both branches' messages and ends if either ended |
| Native.InsertMerging | src/runtime/communication.rs:926-955 | the loop over payloads computes that merge |
| Native.CompleteNext | src/runtime/communication.rs:805-955 | feeding keeps completeness: for every predicate selecting a batch some branch within it has all messages sent within it |
| Native.OfferedExactlyWhen | src/runtime/communication.rs:805-955 | for every predicate selecting a batch, a solution within it has been submitted iff every awaited message was received under a predicate within it |
| Native.BranchingNative.CollapseWith | src/runtime/communication.rs:956-984 | a branch is committed iff an ended one lies within the decision; it is the batch the decision selects, with messages for exactly its get set |
| Native.ReceivedIsPut | src/runtime/communication.rs:387-401 | a message sent under a predicate within the decision is a put of the committed batch, with its payload |
| Native.BranchPutsSent | src/runtime/communication.rs:387-401 | whatever the batch of a branch puts has been sent, under a predicate within the branch's key |
| Proto.RunOneOk | src/runtime/communication.rs:1004-1103 | running a branch to any blocker gives branches under extended keys, binary variables, settled keys for ended branches, every getter it used in its inbox and every putter it used with a message under a predicate within its key, messages only under firing keys, and a lower rank for whatever runs again |
| Proto.FinishKey | src/runtime/communication.rs:1071-1086 | a branch at its end assigns every owned port, firing exactly for the ports used, or is inconsistent |
| Proto.MergeOk | src/runtime/communication.rs:1184-1206 | merging keeps soundness, settled keys and every branch already there |
| Proto.InsertMerging | src/runtime/communication.rs:1184-1206 | the loop over the newer branch's messages computes that merge |
| ProtoRuns.BranchingProto.constructor | src/runtime/communication.rs:988-996 | one branch that assumes nothing |
| ProtoRuns.BranchingProto.RunBranch | src/runtime/communication.rs:1005-1099 | blocked, forked, put and ended branches are inserted in place where the specification says; the method fails iff one of the four assertions does |
| ProtoRuns.BranchingProto.Start | src/runtime/communication.rs:523-556 | the first drain brings the component to its blockers and establishes the invariant |
| ProtoRuns.BranchingProto.Drain | src/runtime/communication.rs:997-1103 | draining terminates; it is a sequence of single turns and pass changes from the given branches to the output, or stops where an assertion fails |
| ProtoRuns.DrainOk | src/runtime/communication.rs:997-1103 | over any drain in any order: keys are binary, inboxes sound, ended branches settled and kept, used ports accounted for by messages received and put, solutions decide every owned port, messages are put under firing keys |
| ProtoRuns.BranchingProto.Partition | src/runtime/communication.rs:1123-1170 | fails iff a receiving branch has received something else on the port; otherwise the branches are parted in some order |
| ProtoRuns.FedWorkOk | src/runtime/communication.rs:1123-1170 | ended and contradicting branches are kept as they were; every other one yields a branch under the union that has the message and all it had; of those kept only ended ones assume what the message assumes |
| ProtoRuns.BranchingProto.FeedMsg | src/runtime/communication.rs:1107-1180 | partition and drain in some order; ended branches stay, with state, ports and flag; fails only by an assertion |
| ProtoRuns.ProtoFeedsOk | src/runtime/communication.rs:1107-1180 | in whatever order branches are visited, feeding keeps the invariant and every ended branch |
| ProtoRuns.EndIsKeptExactlyWhen | src/runtime/communication.rs:1087-1096 | a branch that ends in a drain is submitted, and is marked as ended afterwards iff no branch that has not ended was in its place |
| ProtoRuns.LostWithinOneDrain | src/runtime/communication.rs:1107-1206 | when a message is fed, what is in its place can only have come out earlier in the same drain |
| ProtoRuns.CommitsExactlyWhenKept | src/runtime/communication.rs:1184-1224 | over any drain, a decision finds a branch to commit afterwards iff it did before or a branch ended within it while no branch that had not ended was in its place |
| Programs.FollowsRecords | src/runtime/communication.rs:1411-1432 | a component that runs a program records a port as used only when it has read a message there, besides what the runtime recorded for its puts |
| Programs.StepsOneWay | src/runtime/communication.rs:1411-1432 | where messages are coherent a program has at most one next step, whatever branch it is in |
| Programs.ReachesOneWay | src/protocol/mod.rs:222-296 | of two ways of a program in one scenario the longer continues the shorter |
| ProtoPaths.RunOneOnWay | src/runtime/communication.rs:1004-1103 | what becomes of a branch in its turn, its puts and its solution are all on the way the program takes if the key comes true |
| ProtoPaths.AssertionsHold | src/runtime/communication.rs:1023-1063 | the drainer's four assertions fail iff the program asks about a port without a variable or puts on one that is no putter |
| ProtoPaths.AgentFeedsOk | src/runtime/communication.rs:1107-1180 | feeding keeps every branch, put and solution on the program's way, in whatever order branches are visited |
| ProtoPaths.SpeaksWithOneVoice | src/runtime/communication.rs:1048-1070 | fed coherent messages, a component puts the same payload on a port under any two predicates that can come true together |
| ProtoCommits.FeedsComplete | src/runtime/communication.rs:1107-1206 | no speculation is lost: for every decision under which the program can end there is a branch within it that has ended or has every message it may receive |
| ProtoCommits.CommitsExactlyWhen | src/runtime/communication.rs:1210-1224 | unless a branch within the decision was overtaken, a branch is committed iff the program ends when the decision comes true |
| ProtoCommits.SubmitsExactlyWhen | src/runtime/communication.rs:1087-1096 | unless a branch within a predicate was overtaken, a solution within it has been submitted iff the program ends when it comes true |
| ProtoCommits.SubmittedCommits | src/runtime/communication.rs:1210-1224 | every submitted solution finds a branch to commit, unless one within it was overtaken |
| ProtoLoss.EndCanBeLost | src/runtime/communication.rs:1196-1204 | a program that only asks, from its start and fed three coherent messages, submits a solution for which `collapse_with` finds no branch |
| ProtoRuns.BranchingProto.CollapseWith | src/runtime/communication.rs:1210-1224 | a branch is committed iff an ended one lies within the decision; it used exactly the owned ports that fire, and what it received was sent within the decision |
| Ports.SharedVariable | src/runtime/mod.rs:477-486 | two distinct ports share a speculative variable iff they are the two ends of one channel |
| Ports.RunNonsyncOk | src/runtime/communication.rs:1345-1409 | any sequence of channel creations and port transfers keeps peers symmetric with opposite polarity |
| Ports.NativeVarIsFresh | src/runtime/mod.rs:531-546 | the native's branch variable differs from the variable of every port of the round |
| Ports.PortBook.NewPortPair | src/runtime/mod.rs:606-637 | two fresh ports, each the other's peer, owned by the creator; the tables stay mutually inverse |
| Ports.PortBook.NewNetPort | src/runtime/setup.rs:145-185 | a fresh port of the native without a peer; the tables stay mutually inverse |
| Ports.PortBook.MovePorts | src/runtime/communication.rs:1345-1372 | exactly the moved ports change owner, to a fresh component; the tables stay mutually inverse |
| Ports.PortBook.AddComponent | src/runtime/mod.rs:655-706 | the ports pass to a fresh component iff they are distinct, the native's and of the expected number and polarities, and leave the native's batches; each error is justified and changes nothing |
| Ports.PortBook.LearnPeer | src/runtime/setup.rs:521-591 | equal polarities are an error; otherwise the local port learns its peer and an unknown peer is recorded; if the information is truthful, peers become symmetric and the tables stay mutually inverse |
| Ports.PortBook.NextBatch | src/runtime/communication.rs:137-145 | a new empty batch is selected iff the connector has connected |
| Ports.PortBook.PortOpAccess | src/runtime/communication.rs:147-168 | access to the last batch is granted iff the port is known, the native's and of the expected polarity, and the connector has connected; otherwise the first reason against it is reported |
| Ports.PortBook.Put | src/runtime/communication.rs:172-181 | the put is added to the last batch, with its payload, iff the port is a putter of the native without a put there; earlier batches stay as they are; each error says exactly why and changes nothing |
| Ports.PortBook.Get | src/runtime/communication.rs:186-194 | the get is added to the last batch iff the port is a getter of the native without a get there; earlier batches stay as they are; each error says exactly why and changes nothing |
| Ports.ContextValid | src/runtime/communication.rs:345-383 | the batches assembled through these operations suit the native component of the round |
| Pairing.BuiltPrepared | src/runtime/setup.rs:145-185 | whatever ports are created and passed on before connecting, all are local, known peers know each other, and exactly the ports of net endpoints have no peer |
| Pairing.InfoIsTruthful | src/runtime/setup.rs:521-591 | whatever a connector is told about a port in any run of the exchange is truthful, so its tables stay valid |
| Pairing.LearnedKnows | src/runtime/setup.rs:555-591 | learning a peer changes the table as one more link end told, at a self-loop too: the table depends on who has been told and not on the order |
| Pairing.RunInv | src/runtime/setup.rs:521-604 | the invariant holds in every interleaving of the exchange, and every run ends after at most two moves per link end |
| Pairing.Outcome | src/runtime/setup.rs:521-604 | an exchange that cannot go on has told every link end, or some connector reported a mismatch; the latter iff some link joins equal polarities |
| WorldFromSetup.KnowsJoined | src/runtime/setup.rs:555-591 | after the exchange every port has a peer that names it, of opposite polarity, and what is routed to a link is the port at its other end |
| WorldFromSetup.JoinedAgree | src/runtime/setup.rs:555-591 | any two connectors agree on the ports that both know |
| WorldFromSetup.ScriptExtends | src/runtime/communication.rs:1345-1409 | whatever is created and passed on later keeps all of this, and new ports come in pairs |
| WorldFromSetup.SetupYieldsWorld | src/runtime/setup.rs:254-312 | from any finished exchange without mismatch: the tables of all connectors in all rounds are as the runtime theorems require |
| WorldFromSetup.NativeVarOutside | src/runtime/mod.rs:531-546 | the native's branch variable is no channel's variable at any connector in any round |
| WorldFromSetup.NativeFits | src/runtime/communication.rs:345-383 | the native with its assembled batches is a component as the runtime theorems require |
| Components.FeedsOk | src/runtime/communication.rs:562-647 | feeding any component keeps its invariant, its puts and its solutions |
| Components.SendsOk | src/runtime/communication.rs:387-401 | components send on putters of their own only, under predicates that are binary on channels and in which the port fires |
| Components.UsedGetter | src/runtime/communication.rs:1424-1432 | a getter that a branch used has a message in its inbox |
| Components.UsedPutter | src/runtime/communication.rs:1048-1070 | a putter that a branch used has been put on under a predicate within its key |
| SystemInvariant.ActionKeepsInv | src/runtime/communication.rs:490-778 | every action of the runtime keeps: what reached the storage was submitted by a branch, what is on a link or in a component was put on a channel that leads there, and every component's own invariant |
| SystemInvariant.RunInv | src/runtime/communication.rs:241-778 | that invariant holds throughout every run of the runtime |
| SystemVoices.LogCoherent | src/runtime/communication.rs:562-647 | whatever a component was sent under predicates that can come true together is the same payload per port |
| SystemVoices.RunVoices | src/runtime/communication.rs:241-778 | in every run, every component speaks with one voice on every port |
| Atomicity.Atomic | src/runtime/communication.rs:457-478 | in every run, for every channel between components of any two connectors that completed the round with success, the committed owner of the putter put iff the committed owner of the getter got, and then the getter received a payload that the putter's branch put |
| Atomicity.NativeCommits | src/runtime/communication.rs:956-984 | in every run, a successful decision recorded anywhere finds an ended branch of every connector's native: collapsing it never panics |
| Atomicity.ProtocolCommits | src/runtime/communication.rs:1210-1224 | in every run, a successful decision recorded anywhere finds an ended branch of every protocol component of every connector in the round, unless one within the decision was overtaken |
| Atomicity.ReceivedWasPut | src/runtime/mod.rs:828-838 | in every run, whatever a branch received on a channel was put by the owner of its putter, in that round, under a predicate within the branch's key |
| Atomicity.ReceivedWhatWasPut | src/runtime/communication.rs:387-401 | what a committed branch that used a getter received there is the payload that the committed branch of the putter's owner put, whatever kinds of components they are |
| Atomicity.RepeatedPayloadsAgree | src/runtime/communication.rs:841-844 | in every run, a message on its way agrees with whatever a branch that may receive it has received on that port |
| Atomicity.ArrivesWithoutContradiction | src/runtime/communication.rs:1236-1246 | feeding what arrives, over a link or locally, never meets another payload: the assertion on repeated payloads holds in every run |
| SystemProgress.EveryPutArrives | src/runtime/communication.rs:562-647 | in every idle state of every run, whatever a component put on a channel has been fed to the component at the other end, locally or over a link, unless that is a protocol component which fails an assertion on it |
| SystemProgress.NativeHears | src/runtime/communication.rs:841-844 | a native can always be fed what was put on its channels |
| SystemProgress.NativeSubmitsExactlyWhen | src/runtime/communication.rs:805-955 | in every idle state of every run with everybody in the round, a native has submitted a solution within a predicate that selects a batch iff something was put within it on every channel the batch gets from |
| SystemProgress.ProtocolSubmitsExactlyWhen | src/runtime/communication.rs:997-1103 | in every run, unless a branch was overtaken, a protocol component has submitted a solution within a predicate iff its program ends when that comes true |
| SystemProgress.DecidedExactlyWhen | src/runtime/communication.rs:490-794 | in every idle state of every run, a round that everybody entered is decided by everybody iff somebody requested failure or there is a predicate within which every component of every connector has submitted a solution |
| Values.HoldsFrame | src/protocol/eval/store.rs:151-217 | a tree is untouched by changes outside its regions |
| Values.DropUndoesClone | src/protocol/eval/store.rs:151-206 | dropping a copy frees exactly what cloning took, and everything in use is as before |
| Stores.Store.constructor | src/protocol/eval/store.rs:27-38 | a stack with only the outermost boundary, and no regions |
| Stores.Store.AllocHeap | src/protocol/eval/store.rs:208-217 | an empty region that was free or is new, and nothing else changes |
| Stores.Store.CloneValue | src/protocol/eval/store.rs:151-188 | terminates with a value that denotes the same tree on regions that were free or are new, each taken once; no region in use changes |
| Stores.Store.DropHeapPos | src/protocol/eval/store.rs:196-206 | the tree's regions, all of them and no others, become free, once each |
| Stores.Store.DropValue | src/protocol/eval/store.rs:190-194 | the value's regions become free and every other owner keeps its tree |
| Stores.OkTook | src/protocol/eval/store.rs:151-217 | a copy joins the owners: still every region has exactly one owner or is free |
| Stores.OkGave | src/protocol/eval/store.rs:190-206 | a dropped tree leaves the owners: still every region has exactly one owner or is free |
| Stores.Store.ReserveStack | src/protocol/eval/store.rs:42-47 | the stack only grows, with unassigned slots, up to the frame's size |
| Stores.Store.ClearStack | src/protocol/eval/store.rs:52-58 | exactly the slots from the given one on become unassigned and what they owned becomes free |
| Stores.Store.Write | src/protocol/eval/store.rs:131-137 | the slot denotes the written tree, what it owned is freed, and nothing below the frame changes |
| Stores.Store.ReadTakeOwnership | src/protocol/eval/store.rs:63-77 | a copy of what a reference denotes, or the value itself, now owned by the caller |
| Stores.Store.PushFrame | src/protocol/eval/executor.rs:679-710 | the arguments denote the same trees in the new frame; everything below is as before |
| Stores.Store.PopFrame | src/protocol/eval/executor.rs:841-881 | the stack is as below the frame, the result denotes the same tree and shares no region with the stack |
| Frames.CallerUntouched | src/protocol/eval/executor.rs:679-710 | during nested calls to any depth the caller's part of the stack lies untouched below |
| Frames.WellBracketed | src/protocol/eval/executor.rs:841-881 | after a call and its return, to any nesting depth, the stack, the trees it denotes and the boundary are those before the call |
| ValueGroups.ValueGroup.FromStore | src/protocol/eval/value.rs:176-188 | the group's values denote the same trees, its regions are in post-order and each is used once |
| ValueGroups.ValueGroup.RetrieveValue | src/protocol/eval/value.rs:193-220 | one value moves into exactly the regions added, parts before wholes |
| ValueGroups.ValueGroup.ProvideValue | src/protocol/eval/value.rs:232-255 | terminates because regions refer to earlier ones, with a value that denotes the same tree on free or new regions |
| ValueGroups.ValueGroup.IntoStore | src/protocol/eval/value.rs:225-230 | the pushed slots denote the group's trees in order and every region keeps exactly one owner |
| ValueGroups.PassArguments | src/protocol/eval/executor.rs:887-915 | round trip: a new component's arguments denote the same trees in its own store, and the creator's regions for them are free |
| Operators.ApplyEquality | src/protocol/eval/value.rs:731-782 | compares what two values mean part by part, wherever their regions are, and panics iff it comes to parts of different types before a difference |
| Operators.ComparedIsEquality | src/protocol/eval/value.rs:731-782 | a comparison that does not panic decides equality of meanings, and between values of one type it does not panic |
| Operators.ApplyInequality | src/protocol/eval/value.rs:785-836 | the negation of equality, computed separately, panicking alike |
| Operators.Concatenate | src/protocol/eval/value.rs:395-446 | a new value whose parts mean those of both operands in order, even if both are one value; operands unchanged |
| Operators.Slice | src/protocol/eval/executor.rs:436-458 | a new value of the same kind that means the parts in the range in order; the subject is unchanged |
| Operators.AssignVariable | src/protocol/eval/value.rs:286-320 | the variable denotes the assigned tree and what it owned is given back; every region stays accounted for iff it did not hold a string |
| Assignments.ReplacePart | src/protocol/eval/value.rs:286-320 | overwriting one entry of a region replaces that part in the one tree that owns the region and frees the old part from it |
| Assignments.AssignPart | src/protocol/eval/value.rs:286-320 | assigning to an element or field replaces the part within its owner's tree and nowhere else; what the part owned is given back; every region stays accounted for iff the part was not a string; if the owner is a variable of the frame, nothing below the frame changes |
| Assignments.WritePart | src/protocol/eval/store.rs:138-143 | writing to a heap address replaces the part within its owner's tree and nowhere else, and gives back what it owned |
| EvalStores.SeesReadable | src/protocol/eval/store.rs:97-116 | what a reference on the value deque leads to is there, in use and owned by a variable |
| EvalStores.SeesOwnFrame | src/protocol/eval/store.rs:97-129 | a heap reference on the deque leads into a variable of the current frame |
| EvalStores.Evaluator.Variable | src/protocol/eval/executor.rs:712-720 | a reference to the variable's slot is pushed; every region keeps exactly one owner among variables and deque |
| EvalStores.Evaluator.Plain | src/protocol/eval/executor.rs:487-492 | a literal that owns nothing is pushed; every region keeps exactly one owner |
| EvalStores.Evaluator.Compose | src/protocol/eval/executor.rs:236-253 | the first values of the deque, copied if they are references, become the parts of a new compound value in order; every region keeps exactly one owner |
| EvalStores.Evaluator.Concat | src/protocol/eval/executor.rs:326-334 | the last two values give way to one that means both in order, iff they are sequences of one kind; what they owned is given back and every region keeps exactly one owner |
| EvalStores.Evaluator.Compare | src/protocol/eval/executor.rs:326-334 | the last two values give way to whether they mean the same, or not; fails iff the comparison panics; what they owned is given back |
| EvalStores.Evaluator.Element | src/protocol/eval/executor.rs:342-396 | a reference leads to the heap address of the part at exactly this index, an owned value to a copy of that part and is given back; fails iff it has no such part |
| EvalStores.Evaluator.SliceLast | src/protocol/eval/executor.rs:397-462 | the last value gives way to a copy of the slice; fails iff it is no sequence or an index is out of range |
| EvalStores.Evaluator.Row | src/protocol/mod.rs:337-358 | a received message, a string literal or a created message is pushed with its parts in order; every region keeps exactly one owner |
| EvalStores.Evaluator.Copy | src/protocol/eval/executor.rs:548-563 | a cast to a type that is no scalar leaves a copy and gives back the original |
| EvalStores.Evaluator.DropFront | src/protocol/eval/executor.rs:600-603 | what the first value owned is given back, and nothing if it is a reference |
| EvalStores.Evaluator.DropBack | src/protocol/eval/executor.rs:332-333 | what the last value owned is given back, and nothing if it is a reference |
| Expressions.SerializeWeight | src/protocol/eval/executor.rs:104-190 | the serialized instructions weigh no more than the expression, the measure by which execution ends |
| Expressions.StepLighter | src/protocol/eval/executor.rs:286-724 | every instruction that does not block brings the end nearer, although conditionals push more |
| Evaluation.Correct | src/protocol/eval/executor.rs:286-724 | from any value deque the serialized expression leaves that deque followed by the value of right-to-left recursive evaluation, stops with the same error and blocks iff the evaluation does |
| Evaluation.CorrectEach | src/protocol/eval/executor.rs:92-100 | argument lists end up in front in their own order, operands at the back in reverse |
| Evaluation.TakesArguments | src/protocol/eval/executor.rs:289-724 | an instruction finds exactly the values of its own subexpressions |
| Evaluation.PerformAgrees | src/protocol/eval/executor.rs:569-624 | a blocked `get`, `put` or `fires` holds back values that give the same answer when tried again |
| Evaluation.StepAgrees | src/protocol/eval/executor.rs:569-624 | a step with missing answers is the fully answered step, or leaves a state that takes the same step later |
| Evaluation.ExecKept | src/protocol/eval/executor.rs:286-724 | blocking and retrying do not change how the fully answered run ends |
| EvalFrames.Frame.SerializeExpression | src/protocol/eval/executor.rs:104-190 | appends exactly the instructions of the expression, which `ExpressionLaws.Serialized` gives kind by kind |
| Expressions.FieldsInPlace | src/protocol/eval/executor.rs:146-162 | if every field is given once, the declared order has as many entries as fields and each field's value in the field's own place |
| EvalFrames.Frame.SerializeFields | src/protocol/eval/executor.rs:146-162 | the fields of a struct literal in the order of the type |
| EvalFrames.Frame.PrepareSingleExpression | src/protocol/eval/executor.rs:80-85 | the machine starts with the expression's instructions and no values |
| EvalFrames.Frame.PrepareMultipleExpressions | src/protocol/eval/executor.rs:92-100 | the machine starts with the instructions of an argument list |
| EvalFrames.ArgumentsInOrder | src/protocol/eval/executor.rs:92-100 | running them leaves the values of the arguments, evaluated last to first, in their own order |
| EvalFrames.Frame.ExecuteOne | src/protocol/eval/executor.rs:286-724 | one instruction changes both deques and the store as specified, including blocking and failing |
| EvalFrames.Frame.Execute | src/protocol/eval/executor.rs:286-724 | the loop ends finished, waiting or failed, and the fully answered run from there ends as from the start |
| EvalFrames.Frame.EvaluateExpression | src/protocol/eval/executor.rs:233-724 | retried with any sequence of partial answers, an expression that finishes has the value of its recursive evaluation, and one that fails has its error |
| EvalRuns.PerformOne | src/protocol/eval/executor.rs:289-720 | each instruction on the store does to the meanings of the deque what the expression is worth, including panics, errors and blocking; every region keeps exactly one owner |
| EvalRuns.ExecuteInstr | src/protocol/eval/executor.rs:286-724 | one turn of the loop on the store is one step of the machine on meanings |
| EvalRuns.ExecuteOn | src/protocol/eval/executor.rs:286-724 | the loop on the store ends finished, waiting or failed as the machine on meanings does, and every region keeps exactly one owner |
| EvalRuns.EvaluateOn | src/protocol/eval/executor.rs:233-724 | refinement: an expression run on the store, retried with partial answers, leaves one value with the meaning that recursive evaluation gives on the meanings of the variables, or fails as it does; with all answers given it waits only if that evaluation blocks; what was taken on the way has been given back |
| ExpressionLaws.Serialized | src/protocol/eval/executor.rs:104-190 | the instructions of every kind of expression: its own, then those of its operands in the order of the source, elements, fields and arguments each behind its rotation |
| ExpressionLaws.EvalBinary | src/protocol/eval/executor.rs:326-334 | the right operand is evaluated first, then the left one; the operator is given left and right, errors and blocking of the first to stop win |
| ExpressionLaws.EvalUnary | src/protocol/eval/executor.rs:335-340 | the operand is evaluated and the operator applied to it |
| ExpressionLaws.EvalIndexing | src/protocol/eval/executor.rs:341-396 | the subject is evaluated before the index; the index comes first |
| ExpressionLaws.EvalSlicing | src/protocol/eval/executor.rs:397-462 | subject, end and start are evaluated in this order; the values are start, end and subject |
| ExpressionLaws.EvalSelect | src/protocol/eval/executor.rs:463-486 | the subject is evaluated and the field taken from it |
| ExpressionLaws.EvalAssignment | src/protocol/eval/executor.rs:296-305 | the right side is evaluated before the target, which comes first; no value is left |
| ExpressionLaws.EvalBinding | src/protocol/eval/executor.rs:306-316 | the source of a binding is evaluated before its target, which comes first |
| ExpressionLaws.EvalConditional | src/protocol/eval/executor.rs:317-325 | the test decides which branch is evaluated, and only that one is |
| ExpressionLaws.EvalStruct | src/protocol/eval/executor.rs:146-162 | the fields of a struct are evaluated from the last index to the first, each value in the place of its index, in whatever order they are written |
| ExpressionLaws.EvalParts | src/protocol/eval/executor.rs:163-175 | elements and union values are evaluated from the last to the first, their values in their own order |
| ExpressionLaws.EvalCall | src/protocol/eval/executor.rs:565-712 | arguments are evaluated from the last to the first, their values in their own order |
| MeaningLaws.JoinMeans | src/protocol/eval/executor.rs:326-334 | `l @ r` means the parts of `l` followed by those of `r`, and panics iff they are not sequences of one kind |
| MeaningLaws.EqualityMeans | src/protocol/eval/executor.rs:326-334 | `==` and `!=` on values of one type decide whether they mean the same |
| MeaningLaws.IndexMeans | src/protocol/eval/executor.rs:341-396 | an element is the part at the index, and indexing panics iff there is none |
| MeaningLaws.SelectMeans | src/protocol/eval/executor.rs:463-486 | a field is the part at the index of the field |
| MeaningLaws.SliceMeans | src/protocol/eval/executor.rs:397-462 | a slice means the parts from the start up to the end in a sequence of the same kind; a range that does not lie inside panics |
| MeaningLaws.SelectOfLiteral | src/protocol/eval/executor.rs:487-547 | round trip: selecting a field of a struct literal gives what was written for that field, in whatever order the fields are written |
| MeaningLaws.IndexOfLiteral | src/protocol/eval/executor.rs:487-547 | round trip: indexing an array literal gives what was written in that place |
| MeaningLaws.IndexOfJoin | src/protocol/eval/executor.rs:326-396 | element i of `l @ r` is element i of `l`, or else element i less the length of `l` of `r` |
| MeaningLaws.IndexOfSlice | src/protocol/eval/executor.rs:341-462 | element i of a slice is element i plus its start of the whole |
| MeaningLaws.LengthMeans | src/protocol/eval/executor.rs:649-665 | `length` is the number of parts |
| MeaningLaws.CreateMeans | src/protocol/eval/executor.rs:625-648 | `create` gives so many zeros, and panics for a negative length |
| MeaningLaws.GetMeans | src/protocol/eval/executor.rs:569-583 | `get` gives the bytes received on the port in order, and blocks while there are none |
| MeaningLaws.PutMeans | src/protocol/eval/executor.rs:584-610 | `put` blocks with port and message until the put has been done, and goes on then |
| MeaningLaws.FiresMeans | src/protocol/eval/executor.rs:611-624 | `fires` answers whether the port fires, and blocks while that is open |
| MeaningLaws.AssertMeans | src/protocol/eval/executor.rs:666-672 | `assert` goes on iff its argument holds, and otherwise stops the branch as inconsistent |
| MeaningLaws.CastMeans | src/protocol/eval/executor.rs:548-563 | a cast to a type that is no scalar keeps the meaning |
| MeaningLaws.ConditionalMeans | src/protocol/eval/executor.rs:317-325 | a conditional means its first branch if the test holds, and its second one otherwise |

## Left out

- Sockets, polling, bincode, timers and TCP retries: links are FIFO queues, and a timeout is a step that requests failure.
- UDP mediators: their ports' peers are not symmetric, so the channel and atomicity claims do not cover them.
- Round messages that arrive during setup: a connector enters the rounds after its setup is done, and what came early is in its buffers.
- The nonsync phase of a round: runs of the round model start after it; an inconsistent component there only skips the round (`Skipping`).
- SystemProgress.DecidedExactlyWhen: progress is claimed for rounds that everybody enters, since a skipped round announces nothing; that an idle state is reached is not claimed, as nothing bounds how often a program may ask or a connector fail.
- System.Enabled: protocol components are assumed to put on their own ports only. Rollback and the state carried to the next round are left out; what is in effect of the port operations is given for each round by itself.
- A getter whose owner has exited drops its messages in the source; here they stay in the buffer.
- `putter_push` panics for a putter without a peer; ports are paired before the first round.
- ProtoRuns.BranchingProto.CollapseWith: does not claim that an ended branch is always found, because it is not always so (`ProtoLoss.EndCanBeLost`); exactly when is `ProtoRuns.CommitsExactlyWhenKept`.
- ProtoCommits.CommitsExactlyWhen: whether a branch gets overtaken depends on the order in which a hash map is drained, and is not characterised by the program and its messages alone.
- Programs.FollowsRecords: programs that compute for ever without asking are outside the model, as is how a program of the protocol language becomes an automaton of questions.
- Ports.PortBook.LearnPeer: nothing is claimed about the tables when the neighbour's information is not truthful; that it is truthful in every run is `Pairing.InfoIsTruthful`.
- Ports.PortBook.AddComponent: the look-up of the component's signature is a parameter.
- Pairing.RunInv: a connector that reports a mismatch takes no further part; calling `connect` again is left out.
- Widths: spec values (16 bits) and round indices are unbounded; port identifiers stop at the 32-bit limit.
- Assignments.AssignPart: models `=`; `@=` and the arithmetic assignments are left out.
- EvalFrames.Frame.ExecuteOne: a call of a user function is one operation here; its frames are the subject of `Frames` and `Stores`.
- EvalRuns.EvaluateOn: assignments, bindings and calls of functions of the program are not covered, and the operators on scalars and scalar casts are a parameter. An index beyond 63 bits does not wrap.
- EvalRuns.PerformOne: a variable beyond the frame, or a field beyond a struct, stops with an error; the type checker rules both out. Conditionals on bare references stop with an error, as in the source.
- The first call of a program, which returns with an empty stack, keeps its boundary; the hack that pushes its result on the stack is left out.
- Integer arithmetic and its overflow, null values, binding of variables, statements other than call, return and new.
- Tokenizer, parser, type checker, AST printer, error display, logging, FFI, pseudo sockets.
