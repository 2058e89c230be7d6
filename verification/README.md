# A verified model of the RaiBlocks ledger and of its OpenCL bindings

Two parts of the repository carry state, branching and loops that are worth a proof.

**The block-lattice ledger** (`rai/ledger.cpp`, `rai/common.cpp`). Every account has its own chain of
blocks; a send takes from one chain and waits until a block of another chain collects it. `process` judges
a block and appends it, `rollback` takes a block back together with whatever depends on it, recursively and
while the voting weights are temporarily wrong. The model is an object whose methods update five tables in
the order of the source. Proved: exactly which blocks are accepted, and for every other block exactly which code
it gets; what an accepted block changes, by its own fields; that a refused block is lost only if a growing ledger
would never take it; conservation of the supply and of every voting weight through every history; that the set of blocks determines all tables, so any two histories with
the same blocks converge; that a rollback removes exactly the dependents of its block and terminates, with the
stored successors and records it walks along kept right; that it undoes `process`; that forks are the only
conflicts, so that two ledgers can be brought together if and only if they hold no rivals; and exactly when a
node on the wrong side of a fork ends by accepting the winner.

**The two OpenCL C++ binding headers** (`CL/cl.hpp`, `CL/cl2.hpp`). The default context and queue are created
lazily under a hand-written compare-and-swap protocol (1.2) or under nested once-flags (2.0); both are step
functions over any number of threads, so "every run" is "every list of choices"; every fair run is shown to
finish, with every call returning what the runtime answered. Wrapper objects own
reference counts, for which a conservation law is proved over every sequence of operations on arbitrarily
aliased wrappers, and the query helpers and factories are proved against it. The small containers, the
version parser, the allocator bound and the build-information loop are methods proved against
specifications.

| file | subject |
|---|---|
| `Lattice`, `MapTotals`, `LedgerTables`, `LedgerSteps`, `LedgerWeights` | blocks, tables, invariant, the two elementary changes, modular weights |
| `LedgerProcess`, `LedgerVerdicts`, `LedgerRetries`, `LedgerEffects` | `process`, when each code is reported, what becomes of refused blocks, what a block changes |
| `LedgerUndo`, `LedgerObject` | `rollback`, and the object both update |
| `LedgerStore`, `LedgerVisitors` | stored successors and records; the loops that read blocks |
| `LedgerHashes` | what a hash names in a ledger, and how an arriving block is read |
| `LedgerForks`, `LedgerHistory`, `LedgerMeeting` | forks and order; whole histories, votes; ledgers that meet |
| `Fairness` | systems of threads, fair schedules |
| `CasDefaults`, `CasRuns`, `CasStart`, `CasAnswers` | the 1.2 protocol; its safety and progress; what its start value decides; what calls return |
| `OnceDefaults`, `OnceAnswers` | the 2.0 once-flags with `setDefault`; what calls return |
| `RefCounts`, `WrapperObjects`, `WrapperPools`, `Queries` | reference counts, wrapper objects, programs over them, queries and factories |
| `FixedVector`, `HeapString`, `Versions`, `SvmAllocator`, `BuildInfo` | containers, parsing, arithmetic |

Assumptions: steps of threads are sequentially consistent, so fences do nothing; exceptions are disabled;
the hash function has no collisions; a signature is represented by the account that made it. Answers of the
OpenCL runtime, the codes of retains and the success of allocations included, are parameters.

A hash is nevertheless not a block. What is hashed of a block does not say whether it is a receive or a change
block (`rai/lib/blocks.cpp:626-630`, `rai/lib/blocks.cpp:1496-1500`), so a receive block and a change block
with the same two fields have the same hash, and a signature for one is a signature for the other. All other
pairs of types are told apart by the sizes of their fields or by the preamble of state blocks. In the model a
reference is the block referred to, and `Lattice.Hash` gives the number it is stored under; whatever the code
compares by hash is compared by `Lattice.SameHash`. A block arrives as numbers, and those that refer to blocks
are resolved against the ledger (`LedgerHashes.ReadAs`): in a valid ledger a hash names at most one block
(`LedgerHashes.HashNamesOneBlock`), so there is one way to do that. Hashes alone do not determine a ledger:
`LedgerForks.HashesDetermineIff` says exactly when they do.

Where the code and its documentation disagree, the code is modelled. The note that all calls return the
context of the first call (`CL/cl.hpp:2644`) is false of the C++11 build, whose control word starts at 0
(`CL/cl.hpp:2821`): `CasStart.SafeIffLatched` and `CasStart.UsefulIffNotInitialized` say for which start values
it holds. The two overloads of `vector::back` differ: `FixedVector.BackAfter`. The 1.2 `createKernels` leaves
one count per kernel that nobody owns: `Queries.KernelCounts`. The allocator narrows device
limits and compares a number of elements with a limit in bytes: `SvmAllocator.TrueLeastIff` and
`SvmAllocator.BytesFitIff`. The 2.0 vector query reports success although a retain was refused:
`Queries.QueryVector20`. A string made from a null pointer is not empty as promised: `HeapString.Construct`.
A winner of a vote that has the hash of the block in its place does not replace it, and is not stored:
`LedgerHistory.TwinNeverReplaces`.

## Model

| member | source | states |
|---|---|---|
| `LedgerProcess.AcceptedIffExtends` | rai/ledger.cpp:178-483 | All checks of all five block types together, the test that no block with this hash is stored included, accept a block if and only if the owner of the account signed it and it extends the account: it follows the last block or opens an account, spends no more than there is, and what it collects is pending for this account and enters the balance in full. |
| `LedgerVerdicts.VerdictIff` | rai/ledger.cpp:178-483 | For every block and every code, exactly when it is reported: the code is one for the type of the block, its reason holds, and none that comes before it does; and progress exactly if there is no reason. Reasons are said by the fields of the block and what is stored: a missing source is that the source or link field names no stored block, a fork that the ledger holds a rival (or that a state block follows another account's block), unreceivable that what is to be collected was not sent to this account or has been collected, a balance mismatch that the balance is not the old one plus what the send took from its sender, and so on for all eleven codes. |
| `LedgerVerdicts.VerdictExplained` | rai/ledger.cpp:178-483 | The verdict of the nested checks is the first code in the order of the type of the block for which there is a reason; old exactly if a block with the hash is stored. |
| `LedgerVerdicts.PendingIff` | rai/ledger.cpp:458-460 | Something is pending for an account if and only if it was sent to it and nothing has collected it, and its amount is what the send took from the sender. |
| `LedgerRetries.OnlyGapsClose` | rai/node/node.cpp:1343-1363 | A ledger that holds at least the blocks of one that refused a block takes it only if it was refused with a gap; and what was refused for its signature, balance or position no ledger takes. |
| `LedgerRetries.FiledUnderWhatIsMissing` | rai/node/node.cpp:1343-1363 | If a block that arrived and was refused is taken after the ledger has grown, then it was filed under a hash that was not stored then and is now: under its predecessor or its source, whichever the code says. |
| `LedgerEffects.TakenHasEffect` | rai/ledger.cpp:178-483 | What a block that is taken changes, by its fields: the balance, last block and count of the account; for whom a send becomes pending, by its destination or link, and with what amount; what is no longer pending; and the exact weights: the whole amount an open block collects goes to the representative it names, a change moves the whole balance to the one it names, and after a state block its balance counts for the one it names, with no other weight changed. |
| `LedgerVerdicts.Successor` | rai/ledger.cpp:836-858 | Every block of an account but the last is followed by a block of the ledger, and every account has a first block; that the stored successor is that block is `LedgerStore.FollowPut` and `LedgerStore.FollowDel`. |
| `LedgerHashes.HashNamesOneBlock` | rai/blockstore.cpp:775-806 | In a valid ledger no two blocks have the same hash, although a receive and a change block may. |
| `LedgerHashes.OnlyTwinsCollide` | rai/lib/blocks.cpp:1496-1500 | Words without receive blocks have the same hash only if they are equal; a receive block has that of the change block with the same fields. |
| `LedgerHashes.ExtendsIsNew` | rai/ledger.cpp:379-385 | No block that extends a ledger shares its hash with a stored block, so the test for old blocks refuses nothing that extends. |
| `LedgerHashes.ReadOnce` | rai/ledger.cpp:386-387 | A block that arrives as numbers can be read in only one way against a valid ledger. |
| `LedgerHashes.ReadKeepsHash` | rai/ledger.cpp:381-382 | Reading a block does not change its hash. |
| `LedgerHashes.NoForkInside` | rai/ledger.cpp:836-858 | A ledger never holds two blocks of one account with the same predecessor, so a successor is unique. |
| `LedgerProcess.NoOverflow` | rai/ledger.cpp:413 | The 128-bit sum of a balance and a collected amount never wraps in a ledger that keeps the invariant. |
| `LedgerProcess.AppendedInv` | rai/ledger.cpp:178-483 | Appending an accepted block keeps the whole invariant: chains, pending entries, frontiers, supply and all voting weights. |
| `LedgerProcess.SendAppends` | rai/ledger.cpp:332-377 | What the send processor writes is the canonical extension by the block, computed from the block alone, with weights right modulo 2^128. |
| `LedgerProcess.ReceiveAppends` | rai/ledger.cpp:379-438 | The same for receive blocks. |
| `LedgerProcess.OpenAppends` | rai/ledger.cpp:440-483 | The same for open blocks. |
| `LedgerProcess.ChangeAppends` | rai/ledger.cpp:290-330 | The same for change blocks. |
| `LedgerProcess.StateAppends` | rai/ledger.cpp:183-288 | The same for state blocks that open, send, receive or change. |
| `LedgerSteps.ExtendShape` | rai/ledger.cpp:178-483 | Appending a block keeps every structural invariant: one chain per account, each send pending or collected, nothing collected twice, frontiers exact. |
| `LedgerSteps.ExtendSupply` | rai/ledger.cpp:178-483 | Balances plus pending amounts are the same before and after a block. |
| `LedgerSteps.RetractShape` | rai/ledger.cpp:20-153 | Taking back the last block of an account keeps every structural invariant. |
| `LedgerSteps.RetractSupply` | rai/ledger.cpp:20-153 | Balances plus pending amounts are the same before and after taking a block back. |
| `LedgerWeights.UpToExact` | rai/blockstore.cpp:548-555 | Weights that are right modulo 2^128 are exact, because all votes together are at most the supply; so the wrapping additions of negated amounts are harmless. |
| `LedgerTables.GenesisInv` | rai/common.cpp:771-780 | The ledger written by the genesis initialiser satisfies the invariant. |
| `LedgerTables.PendingNotCollected` | rai/ledger.cpp:379-438 | In a valid ledger no pending send has been collected by any block. |
| `LedgerTables.BlocksDetermineTables` | rai/ledger.cpp:178-483 | Two valid ledgers with the same blocks have the same accounts, pending entries, frontiers and weights. |
| `LedgerUndo.SendUndone` | rai/ledger.cpp:20-44 | What the rollback visitor writes for a send is the canonical ledger without that block. |
| `LedgerUndo.ReceiveUndone` | rai/ledger.cpp:45-67 | The same for receive blocks. |
| `LedgerUndo.OpenUndone` | rai/ledger.cpp:68-80 | The same for open blocks; the account disappears. |
| `LedgerUndo.ChangeUndone` | rai/ledger.cpp:81-102 | The same for change blocks. |
| `LedgerUndo.StateTablesUndone` | rai/ledger.cpp:103-157 | The same for the tables of a state block, once its collectors are gone. |
| `LedgerUndo.StateWeightsUndone` | rai/ledger.cpp:105-119 | The weights a state block gives back are exactly the change of its account's vote, modulo 2^128. |
| `LedgerObject.Ledger.constructor` | rai/common.cpp:771-780 | A new ledger holds the genesis block and satisfies the invariant. |
| `LedgerProcess.LatestMeans` | rai/ledger.cpp:800-834 | Changing the latest block of an account touches that account alone: it is gone for a zero hash, and otherwise has the new last block, representative, balance and count and its old first block. |
| `LedgerObject.Ledger.ChangeLatest` | rai/ledger.cpp:800-834 | Refines that change of the account table, and keeps a record of account and balance for every thirty-second block that is not added as a state block. |
| `LedgerStore.FollowPut` | rai/blockstore.cpp:590-603 | Storing an accepted block keeps the stored successors exact: every block that follows another is its stored successor, and nothing else is stored. |
| `LedgerStore.FollowDel` | rai/blockstore.cpp:729-733 | Deleting the last block of an account and clearing its predecessor keeps the stored successors exact. |
| `LedgerStore.InfosRight` | rai/ledger.cpp:819-827 | Every record of account and balance that can be met under the hash of a stored block is right, and no record of a receive or change block, or of any block but a state block, outlives its block. |
| `LedgerStore.RecordMeans` | rai/ledger.cpp:819-827 | A record is made exactly when the account has a multiple of 32 blocks and the block is not added as a state block, and no other record changes. |
| `LedgerStore.RecordedOk` | rai/ledger.cpp:819-827 | Recording the last block of an account keeps that so. |
| `LedgerStore.InfosDel` | rai/ledger.cpp:39-42 | Taking back a block keeps that so: its record is deleted at the same counts as it is made. |
| `LedgerObject.Ledger.FindAccount` | rai/ledger.cpp:703-735 | The walk along stored successors stops and finds the account of the block, whether at a state block, at a record or at a frontier. |
| `LedgerObject.Ledger.Balance` | rai/ledger.cpp:545-550 | The balance loop gives the balance at the block from the records the ledger itself keeps; at the last block of an account, the balance in the account table. |
| `LedgerObject.Ledger.Amount` | rai/ledger.cpp:738-743 | The amount of a block is the difference between the balance at it and at its predecessor; if it collects, what the send took from the sender; if it is a pending send, what is pending. |
| `LedgerObject.Ledger.Process` | rai/ledger.cpp:577-582 | Reads the block against the ledger and keeps the invariant of tables, successors and records; says old exactly if a block with its hash is stored, reports progress exactly for blocks that extend the ledger and are signed by their owner, and otherwise the first code for which there is a reason; on progress it changes by that block alone, with the effect its fields say, and else not at all. |
| `LedgerObject.Ledger.MakePending` | rai/ledger.cpp:25-28 | The loop that rolls back a collecting account ends with the send pending again; only blocks that depend on the send go, and the send stays last in its account. |
| `LedgerObject.Ledger.RollbackState` | rai/ledger.cpp:103-157 | Rolling back a state block ends with right weights although it gives its weight back before the recursion and the recursion works on weights that are off by it. |
| `LedgerObject.Ledger.RollbackLast` | rai/ledger.cpp:694-700 | One visit removes the last block of an account and otherwise only blocks that depend on it; the recursion terminates. |
| `LedgerObject.Ledger.Rollback` | rai/ledger.cpp:688-701 | Terminates, keeps the invariant, and leaves exactly the blocks that do not depend on the given one. |
| `LedgerObject.ClosedUnderDependence` | rai/ledger.cpp:688-701 | A valid ledger holds everything any of its blocks depends on. |
| `LedgerObject.CollectorLast` | rai/ledger.cpp:25-28 | If a send is not pending, the last block of the destination depends on it and not the other way round, so rolling that account back makes progress. |
| `LedgerVisitors.ComputeAmount` | rai/common.cpp:428-510 | The amount loop stops on every stored block and gives the difference between the balance at the block and at its predecessor, which for a receive or open block is the amount of the send. |
| `LedgerVisitors.ComputeBalance` | rai/common.cpp:512-587 | The balance loop, which calls the amount loop and is called by it, stops and gives the balance at the block, with or without records; overwriting at a state block is right because no older block type follows one. |
| `LedgerVisitors.ComputeRepresentative` | rai/common.cpp:589-630 | The representative loop stops at a block of the ledger that names a representative, the one in force. |
| `LedgerForks.OnlyForksConflict` | rai/ledger.cpp:178-483 | Of two acceptable blocks the second stays acceptable after the first if and only if they are not a fork. |
| `LedgerForks.OrderDoesNotMatter` | rai/ledger.cpp:178-483 | Two acceptable blocks that are no fork give the same ledger in either order. |
| `LedgerForks.RolledBackExtends` | rai/ledger.cpp:688-701 | After a rollback the block rolled back is acceptable again. |
| `LedgerForks.LargestWithout` | rai/ledger.cpp:688-701 | What a rollback leaves is the largest valid ledger among the blocks that are there without the one rolled back. |
| `LedgerForks.ForkResolves` | rai/node/node.cpp:1303-1312 | However far a ledger went on after taking a block, rolling it back makes its rival acceptable if and only if the rival is well formed and its source, if any, is a stored send to the account that does not depend on the block and whose collectors all do; and if and only if the two ever extended the same ledger. |
| `LedgerForks.TwinExtends` | rai/lib/blocks.cpp:626-630 | Whatever ledger a receive block extends, the change block with the same fields extends too, as its rival and with the same hash. |
| `LedgerForks.TwinsDiverge` | rai/lib/blocks.cpp:1496-1500 | Two ledgers that took one of the two each store the same hashes, and what one has collected is pending in the other. |
| `LedgerForks.HashesDetermineIff` | rai/blockstore.cpp:775-806 | Two valid ledgers with the same hashes are equal if and only if no block of one has a different block with the same hash in the other. |
| `LedgerHistory.ProcessThenRollback` | rai/ledger.cpp:688-701 | Rolling back the block just processed restores every table. |
| `LedgerHistory.RollbackThenProcess` | rai/ledger.cpp:688-701 | A block rolled back is accepted again; its dependents stay away. |
| `LedgerHistory.FindSuccessor` | rai/ledger.cpp:836-858 | The lookup by root gives the first block of the account of that number, or else the block that follows the block of that hash, or none. |
| `LedgerHistory.SuccessorIsRival` | rai/node/node.cpp:1305-1306 | What is found in the place of a block, if it is another, is its rival if and only if the block opens an open account, or follows a block of its own account whose hash is no open account number. |
| `LedgerHistory.StrayForced` | rai/node/node.cpp:1305-1312 | Forcing a state block that follows another account takes a block from that account and is refused all the same. |
| `LedgerHistory.Force` | rai/node/node.cpp:1303-1314 | Replacing by the winner of a vote removes nothing if what is in its place has its hash, and then says old; otherwise exactly the successor of its root and the dependents; and it adds the winner exactly when it is accepted. Against a rival that is so if and only if the winner is signed, can replace the rival, or in other words the two once extended the same ledger, and their hashes differ. |
| `LedgerHistory.TwinNeverReplaces` | rai/node/node.cpp:1305-1314 | A change block that wins over the receive block with its fields never replaces it, although the two once extended the same ledger. |
| `LedgerHistory.TwinsArise` | rai/node/node.cpp:1305-1314 | Some history leads to a ledger where this can happen: an account has sent to itself. |
| `LedgerHistory.Unwinding` | rai/ledger.cpp:688-701 | For every block there is an order in which exactly its dependents can be visited one by one, each the last of its account and uncollected. |
| `LedgerHistory.RollsBackSo` | rai/ledger.cpp:688-701 | What the recursive rollback leaves is what the visitors alone, applied to the dependents in some order, make of the tables. |
| `LedgerHistory.HistoryKeepsInv` | rai/ledger.cpp:577-582 | Every state that any history of arriving, rolled back and winning blocks reaches from the genesis block satisfies the invariant and holds the genesis block. |
| `LedgerHistory.HistoryDetermines` | rai/ledger.cpp:577-582 | A history determines its ledger: two states reached by the same events are equal, in whatever order the blocks of each rollback are visited. |
| `LedgerHistory.HistoriesConverge` | rai/ledger.cpp:577-582 | Any two histories that end with the same blocks end with the same ledger. |
| `LedgerMeeting.SmallestExtends` | rai/ledger.cpp:178-483 | Of the blocks that one ledger is missing and another without rivals has, the smallest extends the first. |
| `LedgerMeeting.HistoriesMeet` | rai/ledger.cpp:577-582 | Two histories whose ledgers hold no rivals of each other's blocks can both go on to one ledger, which holds exactly the blocks of both. |
| `LedgerMeeting.OnlyRivalsDivide` | rai/ledger.cpp:577-582 | Some history leads to a ledger with the blocks of both if and only if they hold no rivals. |
| `LedgerHistory.Play` | rai/ledger.cpp:577-582 | Every history can be lived through, and the ledger object ends in a state that the history reaches. |
| `CasRuns.RunInv` | CL/cl.hpp:2646-2692 | The invariant of the protocol holds in every state of every run from NOT_INITIALIZED, for any number of threads calling either default. |
| `CasRuns.PublishedIsFrozen` | CL/cl.hpp:2646-2692 | The control word only grows, and a published slot is never written again. |
| `CasRuns.StepMoves` | CL/cl.hpp:1046-1074 | A step moves a control word only from 1 to 2 or from 2 to 4. |
| `CasRuns.OneCreationOneResult` | CL/cl.hpp:2642-2692 | At most one thread ever creates; whoever reads the object or code reads final values; all calls of all times return one pair, the one created. |
| `CasRuns.QueueUsesDefaultContext` | CL/cl.hpp:5617-5636 | The default queue was created from the context every Context::getDefault returns, which then had no error. |
| `CasAnswers.MadeIsAnswered` | CL/cl.hpp:2667-2681 | From any start value, the created objects and codes are, one by one, what the runtime answered in the choices that drove the creating steps. |
| `CasAnswers.ReturnsTheAnswer` | CL/cl.hpp:2667-2691 | Every returned object and code is what the runtime answered when it was asked, which happens at most once for each kind; without a context there is no queue and its code is the context's. |
| `CasAnswers.EveryCallReturns` | CL/cl.hpp:2646-2692 | From any start value, the calls of a thread return in the order of its program, each with a code if and only if it asked for one, and when the thread is done all have. |
| `CasRuns.StepLowersRank` | CL/cl.hpp:5592-5651 | From any state and start value a step spins or strictly lowers a rank in which the queue stands above the context. |
| `CasRuns.MovesAreBounded` | CL/cl.hpp:5592-5651 | In any run at most rank-many steps are not spins. |
| `CasRuns.SomeThreadMoves` | CL/cl.hpp:5592-5651 | No reachable state has every unfinished thread only spinning. |
| `CasRuns.EveryRunCanFinish` | CL/cl.hpp:5592-5651 | Every run extends, within its rank, to one in which all calls have returned. |
| `CasRuns.EveryFairRunFinishes` | CL/cl.hpp:5592-5651 | From every reachable state, all calls have returned after as many rounds as the rank if every thread has a turn in every round, in whatever order and whatever the runtime answers. |
| `CasStart.CasNeverSucceeds` | CL/cl.hpp:2811-2827 | From any other start value the compare-and-swap never succeeds: each word is its start value or 4. |
| `CasStart.TwoContexts` | CL/cl.hpp:2646-2692 | From 0, and from any value with neither flag bit other than 1, a concrete run of two threads creates and returns two contexts. |
| `CasStart.SafeIffLatched` | CL/cl.hpp:2642-2644 | All calls return one object created once, in every run, if and only if the start value is 1 or carries a flag bit. |
| `CasStart.BranchByBits` | CL/cl.hpp:2652-2665 | The branch taken depends on the low three bits of the word alone; a start value is latched if and only if it is 1 or these are at least 2. |
| `CasStart.UsefulIffNotInitialized` | CL/cl.hpp:2811-2827 | One creation at most and some creation in some run: if and only if the start value is 1. |
| `CasStart.OneThreadCannotTell` | CL/cl.hpp:6592-6598 | Every single-threaded run from an unlatched start value agrees, call for call, with the run from 1. |
| `OnceDefaults.RunInv` | CL/cl2.hpp:2154-2260 | The invariant of the four once-flags holds in every state of every run with any mix of getDefault and setDefault. |
| `OnceDefaults.DoneIsFrozen` | CL/cl2.hpp:1959-1982 | A default whose once-flag has completed never changes. |
| `OnceDefaults.FirstInstallerWins` | CL/cl2.hpp:2768-2790 | One initialiser at most runs; all calls, early or late, get or set, return the pair it installed; a given default has no error. |
| `OnceDefaults.GivenWasAsked` | CL/cl2.hpp:2255-2260 | A given default is an argument some thread passed to setDefault of that kind. |
| `OnceDefaults.QueueUsesDefaults` | CL/cl2.hpp:6580-6605 | A queue that was built was built from the context and device that getDefault returns ever after, or has the context's error. |
| `OnceDefaults.DeviceErrorIsContextError` | CL/cl2.hpp:2887-2914 | A device error is always the context's error. |
| `OnceAnswers.InstalledIsAnswered` | CL/cl2.hpp:2887-2914 | Each default that was not given is, for all four kinds, what the runtime answered in the choice that decided it: the object and code, no object with the code of a platform that was not found, and no object with the context's code when there is no context. |
| `OnceAnswers.ReturnsTheAnswer` | CL/cl2.hpp:2768-2790 | Every returned pair is the one decided on in the one choice in which that happened. |
| `OnceAnswers.EveryCallReturns` | CL/cl2.hpp:2154-2260 | The calls of a thread return in the order of its program, and when the thread is done all have. |
| `OnceDefaults.StepLowersRank` | CL/cl2.hpp:6580-6605 | Every step of a thread that is neither finished nor blocked lowers the rank. |
| `OnceDefaults.OwnerChain` | CL/cl2.hpp:2534-2575 | Whoever runs an initialiser can move or waits for a strictly lower default, down to one that can move. |
| `OnceDefaults.EveryRunCanFinish` | CL/cl2.hpp:6884-6910 | Nested initialisation cannot deadlock: every run extends, within its rank, to one in which all calls have returned. |
| `OnceDefaults.EveryFairRunFinishes` | CL/cl2.hpp:6884-6910 | Every fair run finishes: all calls have returned after as many rounds as the rank. |
| `Fairness.RoundLowers` | CL/cl.hpp:5592-5651 | In any system in which a step changes nothing or lowers a rank and some thread can always move, a round in which every thread has a turn lowers the rank until all is done. |
| `RefCounts.GuardsAgree` | CL/cl2.hpp:1593-1677 | With the right flag the differently placed null and flag checks of all four wrappers call the runtime exactly when the wrapper owns a count. |
| `RefCounts.AssignCopyClean` | CL/cl.hpp:1814-1822 | As long as nothing was refused, assignment never hits a dead object although it releases before it retains, also between wrappers of one object. |
| `RefCounts.ReleaseComesFirst` | CL/cl.hpp:1814-1822 | Assigning between two wrappers of an object of which one count is left kills the object and has the retain refused. |
| `RefCounts.EveryRunConserves` | CL/cl.hpp:1781-1979 | For every sequence of operations over aliased wrappers and whichever retains the runtime refuses: the counts asked for and not given back are the live owners plus raw plus pinned counts, no more releases miss than retains were refused, and every device flag equals the platform test. |
| `RefCounts.NothingMissesUnlessRefused` | CL/cl.hpp:1791-1860 | If no retain is refused, no call ever hits a dead object and each count is exactly its live owners plus raw plus pinned counts. |
| `RefCounts.RefusalMisses` | CL/cl.hpp:1800-1804 | One refused copy is enough: under every wrapper, destroying the copy and its original releases a dead object. |
| `RefCounts.NothingLeaks` | CL/cl.hpp:1862-1979 | When wrappers, raw counts and pins are gone nothing is alive: creations and granted retains have each been matched by one release, and refused retains by one release that missed. |
| `RefCounts.NewWrapperSimulatesOld` | CL/cl2.hpp:1583-1809 | Any program of shared operations leaves the same handles and the same ledger under both headers. |
| `WrapperObjects.Wrapper.FromHandle` | CL/cl2.hpp:1595-1600 | Takes over the caller's count, or asks for one of its own exactly when it should own one. |
| `WrapperObjects.Wrapper.CopyOf` | CL/cl.hpp:1800-1804 | Holds the same handle with a right flag, and asks for one count exactly when it owns one. |
| `WrapperObjects.Wrapper.MoveOf` | CL/cl.hpp:1807-1811 | Takes handle and flag and leaves the source empty, without a call. |
| `WrapperObjects.Wrapper.AssignFrom` | CL/cl.hpp:1814-1822 | Refines the specified copy assignment; self-assignment changes nothing. |
| `WrapperObjects.Wrapper.MoveFrom` | CL/cl.hpp:1825-1833 | Releases the old object, takes the new one and empties the source; self-move changes nothing. |
| `WrapperObjects.Wrapper.AssignHandle` | CL/cl.hpp:1836-1841 | Releases the old object and takes over the caller's count. |
| `WrapperObjects.Wrapper.Destroy` | CL/cl.hpp:1795-1798 | With a right flag, releases the object once exactly when the wrapper owns a count of it. |
| `WrapperPools.Perform` | CL/cl.hpp:1781-1979 | Any operation on a pool of wrapper objects leaves the objects and the counts that the specified operation leaves. |
| `WrapperPools.Execute` | CL/cl.hpp:1781-1979 | Any program over wrapper objects ends as specified, so the conservation law holds of the objects. |
| `Queries.QueryObject` | CL/cl.hpp:1276-1293 | If the query fails nothing changes; otherwise the wrapper has given up exactly what it owned and holds what was reported, the code of the retain is returned, and the wrapper owns its count if and only if that is success. |
| `Queries.QueryVector20` | CL/cl2.hpp:940-969 | On success everything held before was released once, for any lengths and overlap, with no call on a dead object, and each slot owns one new count unless its retain was refused, which is not reported; so all own theirs if and only if nothing that carries a count was refused. |
| `Queries.AnswersAddUp` | CL/cl2.hpp:958-966 | What the slots should own is what they were granted and what they were refused. |
| `Queries.QueryVector12` | CL/cl.hpp:1162-1190 | The vector holds all handles, exactly the elements before the first refused retain got counts, and that code is returned. |
| `Queries.QueryDeficit` | CL/cl.hpp:1162-1190 | The missing counts are the counted elements from the first refusal to the end, none exactly if nothing was refused. |
| `Queries.CreateKernels12` | CL/cl.hpp:5340-5357 | Each kernel's wrapper owns the count its copy was granted, and the creation count stays besides. |
| `Queries.CreateKernels20` | CL/cl2.hpp:6390-6418 | Each creation count is owned by exactly one wrapper; a caller that passes no vector loses them. |
| `Queries.KernelCounts` | CL/cl.hpp:5340-5357 | The 1.2 ledger holds exactly as many counts more than the 2.0 ledger as copies were granted, which is one per kernel if and only if none was refused; in 2.0 each new kernel has just the count its wrapper owns. |
| `FixedVector.PushAllFits` | CL/cl.hpp:726-736 | Pushing one by one keeps exactly the longest prefix that fits. |
| `FixedVector.RunIsBounded` | CL/cl.hpp:685-901 | After every sequence of operations the size is within the capacity, and assigning keeps the longest prefix that fits whatever came before. |
| `FixedVector.Vector.Filled` | CL/cl.hpp:768-774 | The fill constructor keeps as many elements as fit. |
| `FixedVector.Vector.CopyOf` | CL/cl.hpp:754-760 | Copying reproduces the source. |
| `FixedVector.Vector.PushBack` | CL/cl.hpp:726-736 | Appends, or changes nothing when full. |
| `FixedVector.Vector.AssignFrom` | CL/cl.hpp:783-796 | Assignment reproduces the source, also from itself. |
| `FixedVector.Vector.Assign` | CL/cl.hpp:894-901 | Assigning a range keeps its longest prefix that fits. |
| `FixedVector.Vector.Equals` | CL/cl.hpp:802-814 | Decides equality of the represented sequences. |
| `FixedVector.Vector.Resize` | CL/cl.hpp:841-860 | Cuts or fills to the new size; beyond the capacity nothing changes. |
| `FixedVector.Vector.DoAll` | CL/cl.hpp:685-901 | Any sequence of pushes, pops, clears, resizes, assignments and copies leaves the contents of the bounded sequence, and in every slot of the array what was last stored there. |
| `FixedVector.WrittenIsLast` | CL/cl.hpp:1023-1026 | The array after a list of stores holds at each position the last value stored there, or its initial value. |
| `FixedVector.BackAfter` | CL/cl.hpp:1023-1037 | After any history the non-const back gives the value last stored just past the end, or that slot's initial value, or reads past the array when full; so the overloads agree if and only if that value is the last element. |
| `FixedVector.BackDisagrees` | CL/cl.hpp:1023-1037 | Two pushes of different values and a pop make the overloads disagree. |
| `HeapString.HString.FromBuffer` | CL/cl.hpp:506-521 | Holds exactly the given characters in a fresh terminated buffer, or nothing when the allocation fails. |
| `HeapString.Construct` | CL/cl.hpp:495-521 | On any arguments: the code copies from a null pointer, against the promise of an empty string, if and only if the pointer is null, the size positive and the allocation succeeds. |
| `HeapString.HString.FromTerminated` | CL/cl.hpp:527-540 | Holds the text up to the first terminator; no string gives the empty string; after a failed allocation the object is valid if and only if there was nothing to copy. |
| `HeapString.HString.CopyOf` | CL/cl.hpp:626-631 | Equal text in a buffer of its own, or the empty string when the allocation fails. |
| `HeapString.HString.Assign` | CL/cl.hpp:591-620 | Equal text in a buffer of its own, also from itself, or the empty string when the allocation fails; every copy stays inside both buffers. |
| `HeapString.HString.Resize` | CL/cl.hpp:542-573 | Keeps the common prefix and fills the rest with terminators, every copy inside both buffers; or would write through a null pointer, if and only if there is something to allocate and that fails. |
| `HeapString.ResizedTwice` | CL/cl.hpp:542-573 | Growing and cutting back restores the text; cutting and growing keeps the common prefix. |
| `HeapString.HString.Put` | CL/cl.hpp:580-583 | Assigning to a character changes that character alone; not so exactly if it is outside the text. |
| `HeapString.HString.CStr` | CL/cl.hpp:645-648 | The text and a terminator, also for an empty string. |
| `HeapString.ThroughCStr` | CL/cl.hpp:527-540 | A string made from what c_str returns has the same text if and only if that holds no terminator. |
| `HeapString.DoAll` | CL/cl.hpp:542-620 | Any sequence of assignments, resizes and character writes on any pool of strings, some of them perhaps the same object, whichever allocations fail: the strings behave as values and no two share a buffer. |
| `Versions.GetVersion` | CL/cl.hpp:1731-1748 | On any string: it stays inside the string if and only if a dot and later a space or terminator follow the seventh character, and then packs the two decimal values modulo 2^32. |
| `Versions.ReadBack` | CL/cl.hpp:1731-1748 | Printing a version and reading it back gives major times 65536 plus minor for all 16-bit numbers. |
| `Versions.OrOfShifted` | CL/cl.hpp:1747 | Or-ing a value shifted by k bits with one below 2^k is their sum. |
| `Versions.OrBits` | CL/cl.hpp:1747 | Bit by bit, the result is set exactly if one of the operands is. |
| `Versions.PackBits` | CL/cl.hpp:1747 | The packed word bit by bit, for any two accumulators: a minor number beyond 16 bits runs over into the major half, and nothing is kept beyond 32 bits. |
| `Versions.DecisionsAgree` | CL/cl.hpp:1872-1882 | Packed versions are ordered like versions, and the two run-time tests accept the same platforms if and only if the major number is below 2^15. |
| `SvmAllocator.MaxSize` | CL/cl2.hpp:3443-3454 | The least of the type limit and of all device limits narrowed to the size type. |
| `SvmAllocator.TrueLeastIff` | CL/cl2.hpp:3447-3451 | The result is never above the least of the device limits themselves and the type limit, and equals it if and only if every limit beyond the size type narrows to a value no smaller. |
| `SvmAllocator.NarrowedToNothing` | CL/cl2.hpp:3447-3451 | With 32-bit sizes a device of exactly 4 gigabytes gives the bound 0. |
| `SvmAllocator.LeastExists` | CL/cl2.hpp:3443-3454 | There is a least number of any such list. |
| `SvmAllocator.LeastIsUnique` | CL/cl2.hpp:3443-3454 | There is only one. |
| `SvmAllocator.NoWrapAround` | CL/cl2.hpp:3401-3413 | No element count within the bound makes the byte size of an allocation wrap around. |
| `SvmAllocator.BytesFitIff` | CL/cl2.hpp:3443-3454 | Every permitted allocation respects every device's limit in bytes if and only if elements are single bytes, or some limit narrows to 0, or each limit that the size type holds leaves room for the most elements the type can count or for as many as another device's narrowed limit permits. |
| `SvmAllocator.BytesMayNotFit` | CL/cl2.hpp:3443-3454 | A device of 1000 bytes admits 1000 elements of 4 bytes. |
| `BuildInfo.GetBuildInfo` | CL/cl2.hpp:6351-6388 | All or nothing: one entry per device in device order with success, or an empty list with the code of the first failure. |

## Left out

- Weak memory: threads take sequentially consistent steps, so fences have no effect in the model.
- The exceptions-enabled build of the headers: an initialiser that throws and leaves the word at 2 is not modelled.
- Writes through the reference that the mutable call operator of a wrapper returns: they bypass the counts.
- Enqueue, image, sampler, pipe, GL, EGL and D3D classes and the generated kernel functors: they only forward.
- Element lifetimes in the fixed vector: elements are plain values.
- Codes of releases: a release of a live object always succeeds, and the headers drop the code of any other.
- HeapString.HString.FromBuffer: demands a pointer to copy from when there is something to copy; `HeapString.Construct` covers the rest.
- HeapString.HString.Put: a write to the terminator is counted as outside the text, although the buffer holds it.
- LedgerObject.Ledger.Rollback: the genesis block is excluded; the code asserts that its source is a stored block, which it is not.
- LedgerHistory.Force: a block whose root leads to the genesis block is excluded for the same reason.
- Signature arithmetic, proof of work, and collisions of the hash function: a signature is its signer, and only blocks with the same hashed fields have the same hash.
- LedgerObject.Ledger.VisitSend: the visitor's lookups are made before its first write instead of between its writes, which do not touch what is looked up; the same holds of the other visitors.
- Checksums, time stamps and statistics of the ledger: they influence no decision modelled here.
- Vote tallies, bootstrap weights, wallet, network, bootstrap and node threads of the repository.
- The table of blocks with gaps: the model says under which hash such a block is filed, not how that table is kept.
- The database: tables are maps, and each operation is one transaction.
