# ParLib in Dafny

ParLib searches a weighted graph for a heavy cut. One node, the elected leader, starts the search,
deals the unfinished paths out to all nodes, and from then on nodes that run dry are given parts of
other nodes' work. This project models the search, the division of work, the protocol between the
nodes, the leader election, the choice between duplicate connections and the wire form of the work
table, and proves what they are for.

`dafny verify dfyconfig.toml` checks everything.

## How the model is built

The idea that carries the search results is a multiset: `Paths.Pending(g, stack)` is the multiset of
all paths a stack still stands for. A pop takes exactly one path out of it, a split divides it, and a
message carries a part of it from one node to another. Exactly-once exploration, the number of pops,
the best value, the shape-independence of splitting and the conservation law of the whole cluster are
all statements about that multiset.

Where the program changes objects in place, the model has a class with those fields
(`ParallelStack`, `MaximumCut`, `StackAssignment`, `ByteOutputStream`, `ByteInputStream`,
`Computation`, `NetworkManager`), and each method is proved equal to a function of the old state.
The theorems about runs are about those same functions.

| file | content |
|---|---|
| `Basics.dfy`, `Multisets.dfy` | machine integers, sequences, counting; rearranging sums of multisets |
| `Matrix.dfy` | neighbours, the weight of a vertex list, cuts, the 32-bit result |
| `Paths.dfy` | paths, their extensions, what a stack stands for, how many paths there are |
| `ParallelStack.dfy` | the stack, the interleaved split, the division into any number of parts |
| `Splitting.dfy` | parts stand for exactly what the whole stood for |
| `MaximumCut.dfy` | the bounded-quantum search and its correctness |
| `TrueMaximumCut.dfy` | the search result against the maximum over all vertex sets |
| `Streams.dfy`, `StackAssignment.dfy` | the byte streams, the work table and its wire form |
| `Scheduling.dfy` | reading the table, termination test, re-homing, requests to divide |
| `Computation.dfy` | one node: its handlers as functions and as a class |
| `Cluster.dfy`, `ClusterInvariant.dfy`, `ClusterRuns.dfy` | all nodes and the messages between them; what steps and whole runs keep |
| `ClusterAnnouncements.dfy` | what nodes have found and been told; the result of any run |
| `ClusterResults.dfy`, `ClusterProgress.dfy` | the end-to-end result, the price of loss, the silent leader; coming to rest |
| `ClusterTermination.dfy`, `ClusterOrder.dfy` | what an empty log means, the condition under which the leader ends rightly, and the same for messages in order |
| `ClusterGuards.dfy`, `ClusterLog.dfy` | which divisions lose nothing, and when the leader's log leads to all work |
| `ClusterLoop.dfy` | the loop of the program around the steps of the cluster |
| `ClusterSnapshots.dfy`, `ClusterFailures.dfy` | following a run of the program; runs that end badly |
| `Election.dfy`, `Connections.dfy`, `NetworkManager.dfy` | leader election, duplicate connections, and the class that does both |

## What the code turns out to do

* The 32-bit sum of a cut is right for every byte matrix exactly up to 5803 vertices
  (`Matrices.FitsExactly`); the search, which compares unsigned values, is exact up to 8208
  (`Matrices.ComparesExactly`).
* The search explores vertex sets that can be lined up as a directed simple path. Its result is the
  true maximum cut exactly if some maximum cut is such a set; on two separate edges it reports 1
  although 2 is possible (`TrueMaximumCuts.NotAlwaysMaximum`). Every set can be lined up exactly if
  any two vertices are joined in one direction at least (`TrueMaximumCuts.AllTraceable`).
* What the leader finds in its five warm-up quanta (55 pops) is announced only when the leader
  computes afterwards. Without loss every node ends with the optimum if and only if the optimum is
  below 2^31 and the leader computes at some time or the warm-up has left an optimal path
  (`ClusterResults.EveryNodeFindsTheOptimum`); otherwise every node ends with the best of what the
  warm-up has left (`ClusterResults.IdleLeaderKeepsItsResult`). If the warm-up leaves nothing, which
  is so for every graph of at most three vertices, every result stays 0
  (`ClusterResults.NothingIsEverAnnounced`, `ClusterResults.TinyGraphsStaySilent`).
* A job that reaches a computing node is logged but not worked on. A leader that asks the same node
  twice on behalf of a node without work loses the optimum that way, in a run of the program's own
  loop with all messages in order (`ClusterFailures.HandingToABusyNodeLoses`). In any run a node ends
  with the optimum if and only if some optimal path was not dropped as often as it was brought in
  (`ClusterResults.FoundUnlessDropped`). Nothing is dropped if parts are given only to nodes that
  neither compute nor have a job coming, and no repeated job is taken (`ClusterGuards.NothingIsLost`).
* Terminate is decided by exactly an empty log (`Scheduling.TerminationTest`), and an announcement
  that arrives after its sender has been given a new job empties the sender's entry. So Terminate can
  go out while the only best path is still to be visited, again in a run of the program's loop with
  all messages in order (`ClusterFailures.JobComingMatters`, `ClusterFailures.ComputingMatters`).
* An empty log is right as long as no entry is emptied while its node computes, has a job coming, or
  has told of a division, and repeated jobs are taken only while they are logged
  (`ClusterTermination.TerminationIsSafe`); the first step that empties the log does so rightly if and
  only if it observes that (`ClusterTermination.EmptyLogIsRight`). Where messages between two nodes
  stay in order, "has told of a division" is implied by the other parts and "has another result to
  tell" (`ClusterOrder.InOrderEmptyLogIsSafe`). For each part there is a run of the program that
  observes all the others and ends wrongly (the lemmas of `ClusterFailures` whose names end in
  `Matters`); only `NewsComingMatters` needs a message to overtake another one.
* All of that is guaranteed, and the log leads to everything that is still to be done, if a node
  divides only in favour of one that has nothing, has told everything and is not named by news on its
  way, only the leader repeats its log, nobody takes a job from it, and messages between two nodes
  stay in order (`ClusterLogs.LogLeadsToAllWork`, `ClusterLogs.ConsiderateRunEndsRight`).
* A table whose client names contain a NUL byte is not read back as it was written
  (`StackAssignments.TableRoundTrip`).
* In the election, `_electionParticipant` is never set, `OnElectedMessage` does not forward, and the
  variable `least` of `GetNextId` holds the greatest smaller id. So the messages do not go around a
  ring but up a chain that reflects at the greatest id. The proofs follow the code. One timeout is
  enough to make the greatest id the leader, but only its predecessor is told of it
  (`Elections.OneTimeoutElects`); all others ask or are greeted.

## Assumptions

* Handlers are atomic and every node sees the same, fixed set of nodes.
* Cluster runs start with the leader's start-up and end before the first Terminate is handled.
  Messages may overtake each other but each is delivered once. In the election model messages may
  also be lost and duplicated.
* Requests to divide may reach any node at any time, and any node may send its log to any other
  node at any time; the program does both more rarely. `ClusterLoops.Loops` says when: each node
  computes between its own step and the messages it handles, the leader asks exactly as
  `CheckAssignments` decides, and requests are messages, too. It describes runs in which all nodes
  have left `Initial` and the leader is not itself asked to divide; results over all runs are stated
  for the cluster. The runs in `ClusterFailures` are such runs; their messages stay in order, but for
  `NewsComingMatters`.
* A table and an announced result reach a node as values; `StackAssignments.TableRoundTrip` is the
  reason why they may.
* Bytes are in little-endian memory order.
* Ids are only compared in the election and between connections; integers stand for them there.

## Model

| member | source | states |
|---|---|---|
| Matrices.GetNeigh | ParLib/Matrix.cpp:171-185 | exactly the vertices with a positive entry, in ascending order |
| Matrices.Mark | ParLib/Matrix.cpp:136-143 | afterwards exactly the listed vertices are marked 0 |
| Matrices.AddUnmarked | ParLib/Matrix.cpp:144-150 | adds, modulo 2^32, the row's weight to the vertices outside the list |
| Matrices.Sum | ParLib/Matrix.cpp:120-169 | the returned int32 has the bits of the list's outgoing weight modulo 2^32 |
| Matrices.SumIsCut | ParLib/Matrix.cpp:133-168 | on a duplicate-free list the sum is the weight of all edges from the vertex set to its complement |
| Matrices.SumIgnoresOrder | ParLib/Matrix.cpp:134-150 | two duplicate-free lists of the same vertices score the same |
| Matrices.EntryCounts | ParLib/Matrix.cpp:144-150 | changing one entry changes a cut by just that much if the entry leads from a vertex of the set to one outside, and else not at all |
| Matrices.CutBound | ParLib/Matrix.cpp:120-169 | k of n vertices cut at most 255 k (n - k) |
| Matrices.FitsExactly | ParLib/Matrix.cpp:120-169 | all lists of all n-vertex matrices score below 2^31 if and only if n <= 5803 |
| Matrices.ComparesExactly | ParLib/MaximumCut.cpp:85-89 | they score below 2^32, so that the compared `uint32_t` is the sum itself, if and only if n <= 8208 |
| Matrices.ScoreIsCut | ParLib/Matrix.cpp:120-169 | up to 8208 vertices the compared value is the cut itself, without wrap-around; up to 5803 it is below 2^31 |
| Matrices.ComplementCut | ParLib/Matrix.cpp:120-169 | on a symmetric matrix a set and its complement have the same cut |
| Paths.ExtensionsReach | ParLib/MaximumCut.cpp:74-83 | the pushed extensions stand for everything below the popped path except the path itself |
| Paths.ExtensionsAscend | ParLib/MaximumCut.cpp:74-83 | the extensions add one vertex each: exactly the vertices not on the path to which the row of its last vertex has a positive entry, in ascending order |
| Paths.ReachIsExtends | ParLib/MaximumCut.cpp:67-83 | the search tree below a path contains each path that extends it along edges to new vertices exactly once, and nothing else |
| Paths.PendingIsExtends | ParLib/MaximumCut.cpp:67-83 | a path is pending exactly if it extends some stack entry |
| Paths.OnceIffSeparated | ParLib/MaximumCut.cpp:67-83 | a stack covers no path twice if and only if no entry lies on the way to another |
| Paths.SimplePrefix | ParLib/MaximumCut.cpp:77-82 | among simple paths, lying on the way is being a prefix |
| Paths.PopulateCoversAll | ParLib/MaximumCut.cpp:28-38 | after populating, every simple path of the graph is pending exactly once and nothing else is |
| Paths.SingletonsAscend | ParLib/MaximumCut.cpp:28-38 | the one-vertex paths are pushed in ascending order, on whatever is there |
| Paths.PathCount | ParLib/MaximumCut.cpp:67-83 | there are at most n T(n-1) simple paths, with T(0) = 1 and T(k) = 1 + k T(k-1) |
| Paths.ExtendingLowers | ParLib/MaximumCut.cpp:74-83 | the worst cases of all extensions together are below the worst case of the path |
| ParallelStacks.ParallelStack.Push | ParLib/ParallelStack.h:35-38 | the item is the new last element |
| ParallelStacks.ParallelStack.Top | ParLib/ParallelStack.h:40-43 | the last element |
| ParallelStacks.ParallelStack.Pop | ParLib/ParallelStack.h:45-48 | exactly the last element goes |
| ParallelStacks.ParallelStack.AssignData | ParLib/ParallelStack.h:56-59 | the contents become the given list |
| ParallelStacks.ParallelStack.GiveInterleaved | ParLib/ParallelStack.h:108-131 | keeps the even positions, gives away the odd ones, both in order |
| ParallelStacks.EverySecond | ParLib/ParallelStack.h:113-125 | what the two index loops fill in is every second element from position 0 or 1 |
| ParallelStacks.StrideAt | ParLib/ParallelStack.h:117-125 | the k-th element of a stride is at position r + k d |
| ParallelStacks.StrideHalves | ParLib/ParallelStack.h:117-125 | splitting a residue class gives two residue classes of twice the modulus |
| ParallelStacks.GetParallelStacks | ParLib/Computation.cpp:45-68 | exactly `count` fresh, distinct stacks (one for 0), part i holding share i of the input |
| ParallelStacks.SplitNext | ParLib/Computation.cpp:56-64 | splitting the next stack of the round turns a division into c parts into one into c + 1 |
| ParallelStacks.NextShares | ParLib/Computation.cpp:54-66 | the same on values: only the split part changes and one part is added |
| ParallelStacks.FullRoundsIsPower | ParLib/Computation.cpp:54-66 | for 2^k <= count < 2^(k+1) there are 2^k parts after the last full round |
| ParallelStacks.ShareIsResidueClass | ParLib/Computation.cpp:54-67 | part i holds in order exactly the positions i, i + d, i + 2d, ... with d = 2^k, or 2^(k+1) for the parts split in the last round |
| ParallelStacks.ShareSize | ParLib/Computation.cpp:45-68 | every part has between floor(N / 2^(k+1)) and ceil(N / 2^k) entries; part i is non-empty exactly if i < N |
| ParallelStacks.InterleavedKeepsAll | ParLib/ParallelStack.h:117-128 | both halves of a split together are the multiset that was split |
| ParallelStacks.SharesKeepAll | ParLib/Computation.cpp:45-68 | all parts together are the input as a multiset |
| Splitting.PendingIgnoresOrder | ParLib/ParallelStack.h:108-131 | what a stack stands for does not depend on the order of its entries |
| Splitting.SharesPending | ParLib/Computation.cpp:45-68 | the parts stand together for exactly what the input stood for |
| Splitting.HalvesPending | ParLib/Computation.cpp:107-118 | the same for the two halves of a division |
| Splitting.PartsStaySeparated | ParLib/ParallelStack.h:117-128 | parts of a stack that covers no path twice jointly cover no path twice |
| MaximumCuts.MaximumCut.PopulateStates | ParLib/MaximumCut.cpp:28-38 | pushes every one-vertex path in order |
| MaximumCuts.MaximumCut.PushExtensions | ParLib/MaximumCut.cpp:72-83 | pushes exactly the extensions by a neighbour that is not on the path, in ascending order |
| MaximumCuts.MaximumCut.Round | ParLib/MaximumCut.cpp:69-89 | one loop round is one abstract pop |
| MaximumCuts.MaximumCut.Compute | ParLib/MaximumCut.cpp:40-96 | one call is 11 pops, or all there are; it returns true exactly if at most 10 paths were pending |
| MaximumCuts.PopTakesOne | ParLib/MaximumCut.cpp:69-83 | a pop takes exactly the popped path out of the pending ones |
| MaximumCuts.PoppedStack | ParLib/MaximumCut.cpp:69-83 | the entries below the popped one stay as they are; above them come its extensions, the largest new vertex on top |
| MaximumCuts.VisitedPlusPending | ParLib/MaximumCut.cpp:67-94 | after any number of pops, popped and pending paths are together what was pending |
| MaximumCuts.PopsLeft | ParLib/MaximumCut.cpp:67-95 | the stack is empty exactly after as many pops as paths were pending |
| MaximumCuts.PopLowersMeasure | ParLib/MaximumCut.cpp:67-83 | the sum of T(n - length) over the stack drops with every pop |
| MaximumCuts.BestOfVisited | ParLib/MaximumCut.cpp:85-89 | the best value is the maximum of the old one and the scores of the popped paths |
| MaximumCuts.SearchIsExact | ParLib/MaximumCut.cpp:40-96 | from any stack of valid paths, across any number of quanta, the final best value is the maximum of the old one and the scores of all extensions of the entries: nothing missed, nothing invented |
| MaximumCuts.EachPathPoppedOnce | ParLib/MaximumCut.cpp:28-96 | a search begun by populating pops every simple path exactly once and nothing else |
| MaximumCuts.StackStaysSimple | ParLib/MaximumCut.cpp:67-83 | at any time every entry is a simple path |
| MaximumCuts.StackStaysPrefixFree | ParLib/MaximumCut.cpp:67-83 | at any time no entry is a prefix of another |
| MaximumCuts.StackAvoidsVisited | ParLib/MaximumCut.cpp:67-83 | at any time no entry is a prefix of a popped path |
| MaximumCuts.SequentialSearch | ParLib/MaximumCut.cpp:28-96 | within n T(n-1) pops the search ends with the greatest score of a simple path |
| MaximumCuts.CallsNeeded | ParLib/MaximumCut.cpp:65-95 | the calls that return false are exactly the first P / 11 (rounded down) for P pending paths |
| TrueMaximumCuts.OptimumIsACut | ParLib/MaximumCut.cpp:85-89 | up to 8208 vertices the result is the weight of a real vertex cut |
| TrueMaximumCuts.OptimumVersusMaximum | ParLib/MaximumCut.cpp:67-94 | it never exceeds the maximum cut and equals it if and only if a maximum cut can be lined up as a simple path |
| TrueMaximumCuts.AllTraceable | ParLib/MaximumCut.cpp:74-83 | every set of vertices can be lined up as a path of the search if and only if any two vertices are joined by an edge in one direction at least |
| TrueMaximumCuts.JoinedGraph | ParLib/MaximumCut.cpp:74-89 | where any two vertices are joined, up to 8208 of them, the optimum is the maximum over all vertex sets |
| TrueMaximumCuts.SearchFindsMaximumCut | ParLib/MaximumCut.cpp:28-96 | the sequential search on such a matrix ends with the maximum cut |
| TrueMaximumCuts.NotAlwaysMaximum | ParLib/MaximumCut.cpp:67-94 | on two separate edges the optimum over paths is 1 while a vertex set cuts 2 |
| Streams.ByteOutputStream.PutInt32 | ParLib/ByteOutputStream.h:11-18 | appends the four bytes of the number |
| Streams.ByteOutputStream.PutString | ParLib/ByteOutputStream.h:27-35 | appends the length and the bytes |
| Streams.ByteOutputStream.PutIntArray | ParLib/ByteOutputStream.h:37-44 | appends the length and every element |
| Streams.ByteOutputStream.PutIntArrayArray | ParLib/ByteOutputStream.h:46-53 | appends the length and every array |
| Streams.ByteInputStream.NextInt32 | ParLib/ByteInputStream.h:25-35 | reads four bytes and moves the cursor behind them |
| Streams.ByteInputStream.NextString | ParLib/ByteInputStream.h:36-49 | reads a string up to its first NUL and moves the cursor behind all its bytes |
| Streams.ByteInputStream.NextIntArray | ParLib/ByteInputStream.h:50-59 | reads an array, an empty one for a negative length |
| Streams.ByteInputStream.NextIntArrayArray | ParLib/ByteInputStream.h:61-70 | reads an array of arrays likewise |
| Streams.Int32RoundTrip | ParLib/ByteInputStream.h:25-35 | reading a written number gives it back and leaves what follows |
| Streams.Int32BytesAre | ParLib/ByteOutputStream.h:11-18 | four bytes: the base-256 digits of the number or of its two's complement, least significant first |
| Streams.IntArrayBytesAt | ParLib/ByteOutputStream.h:37-44 | the length first, then number k in the four bytes from 4 + 4k on, and nothing else |
| Streams.ArraysBytesAt | ParLib/ByteOutputStream.h:49-52 | each array is written right after the ones before it |
| Streams.ReadIntsAt | ParLib/ByteInputStream.h:50-59 | numbers can be read exactly if there are four bytes for each; number k comes from the bytes from 4k on; a negative length reads nothing |
| Streams.ReadArraysLength | ParLib/ByteInputStream.h:61-70 | as many arrays as the length says, none for a negative one |
| Streams.UpToNulWhole | ParLib/ByteInputStream.h:45-46 | the string read is the longest part from the start that holds no NUL |
| Streams.StringRoundTrip | ParLib/ByteInputStream.h:36-49 | reading a written string gives its part before the first NUL and leaves what follows |
| Streams.IntArrayRoundTrip | ParLib/ByteInputStream.h:50-59 | reading a written array gives it back and leaves what follows |
| Streams.IntArrayArrayRoundTrip | ParLib/ByteInputStream.h:61-70 | the same for arrays of arrays |
| StackAssignments.StackAssignment.Serialize | ParLib/StackAssignment.h:21-30 | appends the table in the given iteration order |
| StackAssignments.StackAssignment.Deserialize | ParLib/StackAssignment.h:32-40 | enters every read pair into the table and moves the cursor behind them |
| StackAssignments.EntriesFrom | ParLib/StackAssignment.h:25-29 | on the wire each client's name comes right before its job, and the clients in the iteration order |
| StackAssignments.ReadTableCount | ParLib/StackAssignment.h:32-40 | a count that is not positive enters nothing; else the first pair is entered before all others |
| StackAssignments.StackAssignment.GetAssignment | ParLib/StackAssignment.h:42-45 | the client's job; an absent client is entered with an empty one |
| StackAssignments.StackAssignment.SetAssignment | ParLib/StackAssignment.h:42-45 | assigning through the returned reference changes that entry only |
| StackAssignments.StackAssignment.Update | ParLib/StackAssignment.h:64-70 | the other table's entries win, all others stay |
| StackAssignments.StackAssignment.Remove | ParLib/StackAssignment.h:72-75 | exactly that entry goes |
| StackAssignments.TableRoundTrip | ParLib/StackAssignment.h:21-40 | for every iteration order and whatever follows, reading a written table consumes exactly its bytes, and gives it back if and only if no name contains a NUL |
| Scheduling.CollectFinished | ParLib/Computation.cpp:166-171 | exactly the clients with an empty job |
| Scheduling.ClearDisconnected | ParLib/Computation.cpp:173-192 | removes exactly the disconnected clients without a job, from the table and from both sets; those left are the disconnected ones with a job |
| Scheduling.Classify | ParLib/Computation.cpp:143-192 | new and finished clients; the disconnected ones are those of the table that are not connected and have a job; the cleared table |
| Scheduling.ClearedJobs | ParLib/Computation.cpp:173-192 | clearing loses no job |
| Scheduling.ClearedKeeps | ParLib/Computation.cpp:173-187 | an entry stays exactly if its client is connected or has a job, and it stays as it is |
| Scheduling.TerminationTest | ParLib/Computation.cpp:246-251 | the size comparison holds with no disconnected client left if and only if every entry of the table, connected or not, is empty |
| Scheduling.PairJobs | ParLib/Computation.cpp:261-285 | moves min(disconnected, needy) jobs, each donor and each receiver once, and terminates |
| Scheduling.RehomingKeepsWork | ParLib/Computation.cpp:261-293 | clearing and re-homing keep the multiset of all logged states |
| Scheduling.RehomingMoves | ParLib/Computation.cpp:283-284 | each move takes a non-empty job of a client that is not connected to a connected one that had none; the donor's entry is empty afterwards |
| Scheduling.RehomingLeavesOthers | ParLib/Computation.cpp:263-293 | every other non-empty entry is untouched |
| Scheduling.ConnectedKeepTheirJobs | ParLib/Computation.cpp:160-164 | no connected client's job is touched |
| Scheduling.PairingMeans | ParLib/Computation.cpp:266-282 | the pairs of a pairing name distinct donors and distinct receivers, and that is all that is asked |
| Scheduling.PairRequests | ParLib/Computation.cpp:295-306 | asks min(working, still needy) clients, each once, for as many needy ones |
| Scheduling.RequestsAreProper | ParLib/Computation.cpp:194-202 | a request goes to a connected client with logged work in favour of another connected one without |
| Scheduling.NothingAfterTerminate | ParLib/Computation.cpp:246-313 | when Terminate goes out no job is moved and nobody is asked to divide |
| Computations.Computation.constructor | ParLib/Computation.cpp:489-492 | a new node is in Initial, has found nothing and has no table |
| Computations.Computation.OnAssignmentFinished | ParLib/Computation.cpp:441-451 | keeps the better result and clears the reporter's entry |
| Computations.Computation.ComputeStep | ParLib/Computation.cpp:391-409 | one quantum; a computing node whose search is done reports to itself and to all and waits |
| Computations.NodeAfterQuantum | ParLib/Computation.cpp:391-409 | the same said of stack, best value, phase, result and every entry of the log: with less than a quantum left a computing node waits, counts and announces its best value and empties its own entry; else only the search goes on |
| Computations.Computation.OnAssignment | ParLib/Computation.cpp:411-433 | merges the table into the log; a node that is not computing takes its job from it and computes exactly if that is non-empty; the looked-up entry is inserted into the message's table |
| Computations.LogAfterAssignment | ParLib/Computation.cpp:415-431 | every listed entry wins, even an empty one, and all others stay; what a node takes and whether it computes or waits then |
| Computations.EntriesAfterAssignment | ParLib/Computation.cpp:415-423 | which clients the log and the table that was received have entries for afterwards |
| Computations.LogAfterDivision | ParLib/Computation.cpp:113-122 | the log names what the node keeps, which is never empty, and what it gives away, together exactly its old stack; all other entries stay |
| Computations.DividedNode | ParLib/Computation.cpp:104-123 | a node without work does nothing; any other keeps the even positions, names the odd ones for the other client, mentions nobody else and computes |
| Computations.Computation.OnDivideWith | ParLib/Computation.cpp:104-123 | keeps the even positions, logs and announces both parts, does nothing on an empty stack |
| Computations.Computation.CheckAssignments | ParLib/Computation.cpp:125-314 | Terminate exactly if nothing is logged; new clients exactly those without an entry; the moves and requests are maximal pairings; the state after clearing, terminating, re-homing and dividing; every table that is sent or broadcast, those of the leader's own divisions included |
| Computations.Computation.Survey | ParLib/Computation.cpp:143-251 | the classification of the clients, the re-broadcast table and the termination decision |
| Computations.SurveyedNode | ParLib/Computation.cpp:173-258 | the leader is Finished exactly if nothing is logged; its search and all logged jobs stay; which entries are left |
| Computations.Computation.Rehome | ParLib/Computation.cpp:261-293 | the re-homing block including its effect on the leader itself and the table it broadcasts |
| Computations.RehomedTable | ParLib/Computation.cpp:261-293 | the leader's log is the cleared table with the moves carried out |
| Computations.RehomedNode | ParLib/Computation.cpp:283-291 | the broadcast table names each orphaned job for its new client, nothing for the old one, and nobody else but the leader; a leader that is not computing takes what that table names for it |
| Computations.Computation.AskToDivide | ParLib/Computation.cpp:308-312 | a request to itself is carried out at once, and the table of that division is broadcast |
| Computations.SelfDivisionNames | ParLib/Computation.cpp:308-312 | a leader with work that is asked itself broadcasts exactly one table: itself with the even positions of its stack, which are its new stack, and the other client with the odd ones |
| Computations.NoSelfDivision | ParLib/Computation.cpp:108-112 | a leader that is not asked itself, or has no work, changes nothing and broadcasts nothing |
| Computations.SelfDivisionsKeepAll | ParLib/Computation.cpp:104-123 | for any requests in favour of others: the stack that is left and what the broadcast tables name for others are together the old stack |
| Computations.OneSelfDivision | ParLib/Computation.cpp:295-312 | requests that name each client once make the leader divide and broadcast at most once, and only if it is asked itself |
| Computations.Computation.OnTerminate | ParLib/Computation.cpp:453-457 | only the phase changes |
| Computations.Computation.NonLeaderStep | ParLib/Computation.cpp:373-389 | leaves Initial and clears disconnected clients without jobs |
| Computations.RefreshedNode | ParLib/Computation.cpp:373-389 | Initial becomes Waiting and every other phase stays; the search and the result stay; which entries are left |
| Clusters.RefreshIsWake | ParLib/Computation.cpp:373-389 | but for cleared entries this is the wake-up step of the cluster for a node in Initial and no step for any other |
| Computations.RefreshedLog | ParLib/Computation.cpp:316-352 | no client's job changes by that |
| Computations.Computation.WarmUp | ParLib/Computation.cpp:82-83 | five quanta are 55 pops and none of them reports |
| Computations.WarmUpKeeps | ParLib/Computation.cpp:76-83 | what five quanta pop and what they leave are together what there was and all simple paths, each once |
| Computations.Computation.DealOut | ParLib/Computation.cpp:90-93 | part i is entered under client i |
| Computations.Computation.InitLeaderStep | ParLib/Computation.cpp:70-102 | populates, warms up, deals the rest out to all nodes with itself last, and installs its own part |
| Computations.DealtJob | ParLib/Computation.cpp:90-93 | client i of a duplicate-free order gets part i |
| Clusters.TickLaw | ParLib/Computation.cpp:391-409 | a quantum takes exactly the visited paths out of what is pending in the cluster |
| Clusters.DivideLaw | ParLib/Computation.cpp:104-123 | a division changes nothing about what is pending in the cluster |
| Clusters.DeliverLaw | ParLib/Computation.cpp:411-433 | a delivery exchanges the receiver's stack and the handed-over job for its new stack |
| Clusters.OneCopyEach | ParLib/Computation.cpp:120-121 | a broadcast sends exactly one copy to each other node |
| ClusterInvariants.QuantumOk | ParLib/Computation.cpp:391-409 | a node stays consistent over a quantum, also one that empties the stack but returns false |
| ClusterInvariants.AssignedOk | ParLib/Computation.cpp:411-433 | and over the arrival of a table: a node that is not computing has an empty stack |
| ClusterInvariants.DividedOk | ParLib/Computation.cpp:104-123 | and over a division, which only a computing node carries out |
| ClusterInvariants.SomethingToDivide | ParLib/Computation.cpp:107-112 | a division is refused exactly on an empty stack |
| ClusterInvariants.StepKeepsInv | ParLib/Computation.cpp:391-451 | no step, lossy or not, makes any stack, log, message or result lead beyond a bound that held before |
| ClusterInvariants.DeliveryTotals | ParLib/Computation.cpp:411-433 | a delivery to a computing node drops exactly the handed-over job, a repeated job that is taken adds exactly itself, and any other delivery leaves the pending paths as they are |
| ClusterInvariants.StepTotal | ParLib/Computation.cpp:391-451 | the exact balance of every step: pending before and repeated are pending after, popped and dropped |
| ClusterInvariants.StepKeepsBest | ParLib/MaximumCut.cpp:85-89 | a node's best value never falls and never passes the bound |
| ClusterInvariants.StepKeepsValue | ParLib/Computation.cpp:391-451 | the maximum of all best values and all pending scores is the same after every step that drops no job, repeated jobs included |
| ClusterRuns.LaunchTotal | ParLib/Computation.cpp:70-102 | the paths of the warm-up and of all dealt parts are together every simple path once |
| ClusterRuns.LaunchEstablishes | ParLib/Computation.cpp:70-102 | after the start the value of the cluster is the optimum over all simple paths |
| ClusterRuns.RunKeepsInv | ParLib/Computation.cpp:391-451 | the bound holds over every run |
| ClusterRuns.RunKeepsValue | ParLib/Computation.cpp:391-451 | the value is conserved over every run that drops no job |
| ClusterRuns.RunTotal | ParLib/Computation.cpp:391-451 | the same balance over any run |
| ClusterRuns.ClusterLedger | ParLib/Computation.cpp:70-123 | when no work is left, all simple paths once each and everything repeated are the warm-up's, the popped and the dropped paths |
| ClusterRuns.EachPathOnceInCluster | ParLib/Computation.cpp:70-123 | without loss and repetition, and when no work is left, all nodes together have popped every simple path exactly once and nothing else |
| ClusterAnnouncements.StepKeepsResults | ParLib/Computation.cpp:441-451 | best results only grow and an announcement disappears only by being counted |
| ClusterAnnouncements.StepKeepsAnnounced | ParLib/Computation.cpp:391-409 | what a node that is not computing has found is known to everyone or on its way |
| ClusterAnnouncements.OwnBestIsCounted | ParLib/Computation.cpp:391-433 | a node that never led and is not computing has an empty stack and has counted its own best value |
| ClusterAnnouncements.MutedRun | ParLib/Computation.cpp:391-433 | a leader that never computes does the same whatever it has found in the warm-up |
| ClusterAnnouncements.ResultOfAnyRun | ParLib/Computation.cpp:391-451 | in any run, lossy or not: when nobody computes and no result is on its way to a node, it reports the greatest score of all paths popped after the start, and of the warm-up's if the leader ever computed, exactly if that is below 2^31 |
| ClusterResults.CountedLedger | ParLib/Computation.cpp:70-123 | those paths and the dropped ones are together what was entrusted to the computing nodes and what was repeated |
| ClusterResults.FoundUnlessDropped | ParLib/Computation.cpp:411-433 | in any run, when no work is left: a node reports the optimum if and only if it is below 2^31 and some optimal path was dropped less often than it was entrusted and repeated |
| ClusterResults.IdleLeaderKeepsItsResult | ParLib/Computation.cpp:82-95 | without loss, and if the leader never computes, every node ends with the best of what the warm-up left, exactly if that is below 2^31 |
| ClusterResults.IdleLeaderIsSilent | ParLib/Computation.cpp:82-95 | at no time before the leader computes, in any run, does a node report more than that |
| ClusterResults.EveryNodeFindsTheOptimum | ParLib/Computation.cpp:70-123 | end to end: if no job is dropped, then at the end every node reports the optimum if and only if the optimum is below 2^31, and the leader computes at some time or the warm-up leaves an optimal path |
| ClusterResults.ClusterMatchesSequentialSearch | ParLib/Computation.cpp:70-123 | on the same conditions, and only on them, every node reports what one sequential search finds |
| ClusterResults.LeaderComputesAtOnce | ParLib/Computation.cpp:82-95 | the leader's own share is non-empty exactly if the warm-up leaves at least one path per node |
| ClusterResults.OptimumFits | ParLib/Matrix.cpp:120-169 | up to 5803 vertices the optimum is below 2^31 |
| ClusterResults.ClusterFindsMaximumCut | ParLib/Computation.cpp:70-123 | where any two vertices are joined every node ends up with the maximum cut if and only if the leader computes at some time or the warm-up leaves an optimal path |
| ClusterResults.NothingIsEverAnnounced | ParLib/Computation.cpp:82-83 | if the warm-up leaves nothing at all, no node ever computes and every result of every node stays 0 in every run |
| ClusterResults.TinyGraphsStaySilent | ParLib/Computation.cpp:82-83 | graphs of at most three vertices are of that kind |
| ClusterGuards.NothingIsLost | ParLib/Computation.cpp:104-123 | in every run in which parts are given only to nodes that neither compute nor have a job coming, and no repeated job is taken, no job is ever dropped |
| ClusterGuards.GuardedRunFindsTheOptimum | ParLib/Computation.cpp:70-123 | such a run ends with the optimum at every node, on the conditions above, and with every simple path popped exactly once |
| ClusterLoops.LoopsAreLegal | ParLib/Computation.cpp:22-43 | every run of the program's loop is a run of the cluster |
| ClusterLoops.OrderedLoops | ParLib/Computation.cpp:481-487 | and if messages do not overtake each other in it, they do not in the cluster either |
| ClusterFailures.HandingToABusyNodeLoses | ParLib/Computation.cpp:22-43 | a run of the program's loop, messages in order: up to its last act the optimum is still to be found; then a computing node handles a message with a job, and afterwards nobody has found it and no pending path has its score |
| ClusterProgress.StepKeepsStarted | ParLib/Computation.cpp:391-451 | after the leader's start every node has a log or a table on its way to it |
| ClusterProgress.NextStep | ParLib/Computation.cpp:22-43 | from every reachable state that is not at rest some step drops no job and lowers the measure (tables on their way, pending paths, nodes not waiting, messages) |
| ClusterProgress.RestIsReachable | ParLib/Computation.cpp:22-43 | from every reachable state some continuation without loss ends with all nodes waiting and all messages delivered |
| ClusterProgress.EveryNodeCanFinish | ParLib/Computation.cpp:22-123 | every run without loss can be continued to one that is at rest and in which every node reports the optimum, on the conditions above |
| ClusterTermination.StepKeepsCovered | ParLib/Computation.cpp:411-451 | every step that observes the condition keeps this: whoever computes, has a job coming or a result to tell is named by the leader's log or by news on its way, and news comes from a node that was named before |
| ClusterTermination.EmptyLogIsSafe | ParLib/Computation.cpp:246-251 | in every run that observes the condition: when the leader's log is empty, nobody computes, no job, division or (if that is asked for) result is on its way, and no work is left |
| ClusterTermination.TerminationIsSafe | ParLib/Computation.cpp:246-256 | in such a run the program's own test, for whatever clients are connected, holds only when no work is left anywhere |
| ClusterTermination.EmptyLogIsRight | ParLib/Computation.cpp:246-251 | as long as the condition has been observed, a step that empties the log leaves nothing to do or to tell if and only if it observes the condition |
| ClusterTermination.LeaderEndsWithTheOptimum | ParLib/Computation.cpp:246-258 | if moreover nothing is dropped, the leader reports the optimum when its log is empty, on the conditions of the end-to-end result |
| ClusterOrder.InOrderIsCareful | ParLib/Computation.cpp:391-451 | in a run with messages in order a node that neither computes nor has a result to tell has no division to tell of, so that part of the condition is observed by itself |
| ClusterOrder.InOrderEmptyLogIsSafe | ParLib/Computation.cpp:246-251 | in order, the condition without that part suffices for an empty log to be right |
| ClusterLoops.LoopEmptyLogIsSafe | ParLib/Computation.cpp:22-43 | the same for runs of the program's loop |
| ClusterLogs.StepKeepsTidy | ParLib/Computation.cpp:391-451 | every considerate step keeps this: at most one job is on its way to a node and none to a computing one; who has a result to tell has nothing to do; news, and the log for nodes that no news names, lead to everything their nodes have to do |
| ClusterLogs.RunIsCareful | ParLib/Computation.cpp:391-451 | no considerate run drops a job or violates any part of the condition |
| ClusterLogs.LogLeadsToAllWork | ParLib/Computation.cpp:113-122 | in every considerate run each path still to be visited, on a stack or in a message, extends an entry of the leader's log or of news on its way |
| ClusterLogs.RehomingRecoversWork | ParLib/Computation.cpp:263-285 | if a node disconnects that no news names, the job that re-homing moves leads to everything the node still had to do |
| ClusterLogs.ConsiderateRunEndsRight | ParLib/Computation.cpp:246-258 | a considerate run loses nothing, and when the leader's log is empty no work is left and the leader reports the optimum, on the conditions of the end-to-end result |
| ClusterSnapshots.SnapshotsTell | ParLib/Computation.cpp:22-43 | a chain of snapshots is a run of the program's loop that observes what is asked: parts of the condition, messages in order, no loss |
| ClusterFailures.ComputingMatters | ParLib/Computation.cpp:441-451 | a run of the program's loop, in order and without loss, that observes all of the condition but that the node whose entry is emptied does not compute: the test holds while the only best path is being computed and every result is 0 |
| ClusterFailures.JobComingMatters | ParLib/Computation.cpp:441-451 | the same for a job on its way to that node |
| ClusterFailures.NewsComingMatters | ParLib/Computation.cpp:441-451 | the same for a division it has told of, in a run of the loop in which a result overtakes the table: without the order of messages this part is needed |
| ClusterFailures.RepetitionMatters | ParLib/Computation.cpp:231-243 | the same for a repeated job that is not logged any more: a node does it again when the test holds |
| ClusterFailures.ReportComingMatters | ParLib/Computation.cpp:246-258 | the same for another result on its way: the test holds and the leader reports 0 although the optimum is 1 |
| Elections.NextFacts | ParLib/NetworkManager.cpp:386-406 | every node but the greatest has a larger successor; the greatest one's successor is smaller; there is none exactly if the node is alone |
| Elections.NextIdIs | ParLib/NetworkManager.cpp:386-406 | the successor is the next id above, or the greatest of all if nobody is above; there is none exactly if there is nobody else |
| Elections.RepliesAre | ParLib/NetworkManager.cpp:74-105 | at most one answer, to a connected node: a node that knows the leader tells the sender, any other passes the larger of both ids on to its successor, or announces itself if its own id came back; when there is no answer |
| Elections.TimeoutIs | ParLib/NetworkManager.cpp:147-165 | a timeout sends the own id to the successor, makes a node without peers the leader, and does nothing once a leader is known |
| Elections.Bounce | ParLib/NetworkManager.cpp:398-405 | the predecessor that the greatest id's token is sent to sends it straight back |
| Elections.StepKeepsSafe | ParLib/NetworkManager.cpp:74-177 | every timeout, handled message and greeting keeps the safety invariant |
| Elections.OnlyTheGreatestLeads | ParLib/NetworkManager.cpp:74-134 | in every reachable state, under loss, duplication and reordering, only the greatest id leads, every known or announced leader is the greatest id, and any other node's token is on its way to that node's larger successor |
| Elections.AgreementWithin | ParLib/NetworkManager.cpp:74-165 | from every safe state at most three steps per leaderless node lead to agreement |
| Elections.ElectionProgress | ParLib/NetworkManager.cpp:74-165 | every reachable state of n nodes is at most 3n steps away from agreement on the greatest id |
| Elections.GreetedLearns | ParLib/ClientConnection.cpp:29-33 | who is greeted on a new connection by a node that knows the leader learns it, and nobody forgets it |
| Elections.TokenClimbs | ParLib/NetworkManager.cpp:90-94 | a larger node without a leader puts its own token in the place of a smaller one that reaches it |
| Elections.OneTimeoutElects | ParLib/NetworkManager.cpp:74-121 | from the start a single timeout of any node is enough: messages alone, one for each larger id and three more, make the greatest id the leader and tell its predecessor, and so far nobody else |
| Elections.AgreementIsStable | ParLib/NetworkManager.cpp:74-134 | agreement is never given up |
| Elections.AgreementIsQuiet | ParLib/NetworkManager.cpp:147 | and no timeout does anything any more |
| Connections.StepKeepsInv | ParLib/NetworkManager.cpp:336-364 | only losing connections are ever closed, and every open one whose handshake is complete is represented in the table |
| Connections.LargerInitiatorStays | ParLib/NetworkManager.cpp:336-364 | once both ends of the larger id's connection are complete both nodes use it, whatever completes or is torn down later |
| Connections.BothEndsAgree | ParLib/NetworkManager.cpp:336-364 | when everything has settled both nodes use the same connection: the larger id's if it was opened, else the other one, if any |
| Connections.DiscardedIs | ParLib/NetworkManager.cpp:355-361 | exactly the entries that are this very end go, and all others stay |
| Connections.SettlingStep | ParLib/NetworkManager.cpp:336-364 | as long as a handshake is open on a connection that nobody closed, or a closed one has an entry, some event lowers twice the former plus the latter |
| Connections.EverythingCanSettle | ParLib/NetworkManager.cpp:336-364 | from every reachable state completing handshakes and cleaning up ends settles everything, and then all pairs of nodes agree on the surviving connection |
| NetworkManagers.NetworkManager.GetNextId | ParLib/NetworkManager.cpp:386-406 | the least larger id, else the greatest smaller one, for every iteration order |
| NetworkManagers.NetworkManager.OnElectionMessage | ParLib/NetworkManager.cpp:74-105 | new state and sent message are those of the election model; the node becomes leader exactly if it knows none and its own id came back, and else stays as it is |
| NetworkManagers.NetworkManager.OnElectedMessage | ParLib/NetworkManager.cpp:107-121 | the announced id becomes the leader, unless it is the node's own |
| NetworkManagers.NetworkManager.OnKnownLeaderMessage | ParLib/NetworkManager.cpp:123-134 | the same |
| NetworkManagers.NetworkManager.Step | ParLib/NetworkManager.cpp:144-177 | a due timeout sends the node's own token or, alone for ten seconds, makes it the leader; a lost leader that is not connected is forgotten |
| NetworkManagers.NetworkManager.AddOrDiscardClient | ParLib/NetworkManager.cpp:336-353 | accepts an end exactly if there is none for the peer or the larger id opened it, and never one to itself |
| NetworkManagers.NetworkManager.DiscardClient | ParLib/NetworkManager.cpp:355-364 | afterwards no entry is this end and every entry that is another end is still there; notes the loss of the leader |

## Left out

- Sockets, threads, mutexes, sleeps, clocks and signals: replaced by free choice of the next step, atomic handlers and boolean inputs for elapsed times.
- Logging, the job file and `Matrix::fromStream`: a well-formed matrix of bytes is given.
- Leaving and joining nodes in the cluster and election models: with them stale messages break agreement; the class methods cover `_lostLeader`, `ClearDisconnected` and re-homing.
- The handling of Terminate itself and what still arrives after it: runs end with the leader's decision.
- Recovery of results that a crashed node had found but not announced: after a division the log holds only the remaining paths.
- A null table in `CheckAssignments` and `OnAssignmentFinished`: the program dereferences a null pointer there, so the methods require a table and a result delivered before any table is no step.
- The 150 ms guard of `CheckAssignments` and `ClearDisconnected` and the random re-broadcast: the steps may happen at any time.
- `GetParallelStacks` with a negative count: the comparison with an unsigned size makes the program loop; callers pass at least 1.
- Streams.ByteInputStream.NextString: requires the bytes to be there and the length not to be negative, because the program reads or writes outside its buffers otherwise.
- `giveTopHalf` and `giveTopQuarter`: nothing calls them.
- `NextInt64`, `PutInt64`, `Equals`, `PrintAssignments`: nothing of the protocol uses them.
- `AddrIterator.h`, `BlockingQueue.h`, `MessageFactory.cpp`, `Message.cpp`, `TCPSocket.cpp`, `ServerConnection.cpp`: addresses, queues and message plumbing.
- More than one connection per ordered pair of nodes, and timeouts of open connections.
