# SimpleFT: a verified model of the consensus core

SimpleFT is a blockchain whose nodes propose blocks, vote for them and assemble quorum certificates with a
threshold signature. Each node keeps four nested maps (pending blocks, partial signatures, marks for certified
heights, pending certificates) and two chains (candidate and committed), and moves blocks between them with
goroutines that start one another in any order. This project models that core, one module per concern, and
proves what it keeps over every run, every interleaving and every cluster within its fault bound.

* `Blocks`, `Quorums`: blocks, votes, certificates and the quorum arithmetic. A block's hash is a symbolic
  injective digest; a share is a token only its signer makes.
* `NodeSpec`, `NodeRuns`: every lock-protected section of a node as one atomic step on its state, every `go f(x)`
  as an entry in a multiset of pending goroutines, and the runs of a node: deliveries, sections and the steps of
  the proposal loop in any order. `BroadcastVote` is two sections, because it releases its lock between its two
  looks at `voted`; `handleNewBlockQC` is three: insert, ancestor commit, extend.
* `NodeImpl` (`Node.dfy`), `Execution`: the node as the source keeps it, with maps on the heap changed in place.
  A candidate level and the pending level of the same height are one map object. Each section is proved to do to
  the heap what `NodeSpec` says, and whole schedules run on the heap, with the goroutines and messages the sections
  themselves start and send, are proved to follow `NodeRuns`.
* `ProposalInvariants`, `CertInvariants`, `LedgerInvariants`, `SenderInvariants`, `NodeInvariants`: the inductive
  invariants, which mention the goroutines in flight, and that every event keeps them.
* `Confluence`, `Certification`, `Voting`, `Termination`: the quiescent state does not depend on the schedule, a
  quiescent node has certified and voted for what its deliveries determine, and every schedule ends.
* `Proposing`: what the proposal loop builds on, what it proposes, and one turn of it run in place over the node, the
  sortition records and the request pool.
* `AncestorCommit`, `Commits`, `Finality`: the backward walk that commits ancestors, what a node has committed, and
  when it is final.
* `Cluster`, `Agreement`, `Chains`: honest nodes among faulty ones, uniqueness and soundness of certificates,
  agreement on committed blocks, and the chain comparison.
* `FourNodes`, `LateCommit`, `Disagreement`, `MissingAncestor`: runs of a cluster of four with one faulty member, in
  which every message delivered was sent by its sender: the committed height of an honest node falls, two honest
  nodes commit different blocks, an honest node is brought down.
* `Requests`, `SortitionRounds`, `Connections`: the request pool and its shared slice, the choice of the sortition
  round and its VRF input, and the connection pool.

## Where the code and its words differ

The model follows the code. These are the places where a comment, a name or a test suggests something else.

* `core/node.go:344` sets the committed height to the certified block's parent even when that is lower than before.
  `LateCommit.CommittedHeightFalls` gives a run in which it drops and the node comes to rest;
  `Commits.NeverFallsIffNoLateCommit` and `Commits.AlignedIffNoLateCommit` say exactly which runs are free of it, and
  completeness and finality are proved for those. `Finality.CommittedBlockReplacedIff` says exactly which events
  replace a committed block.
* `core/node.go:339-342` logs a missing ancestor and dereferences it on the next turn of the loop.
  `MissingAncestor.HonestNodeCrashes` gives a run in which that happens. `Commits.CrashesIffMissingAncestor` says
  exactly when it does; given valid shares, nothing else in these sections crashes. A faulty member's share is recorded
  without a check (`core/node.go:561`), and assembling one that is not valid panics (`sign/sign_tools.go:84-87`).
* The block and vote validators accept everything (`core/node.go:503`, `core/node.go:561`), so nothing makes a
  certified block extend the certified block below it. Agreement therefore asks for certified blocks on one branch.
  `Disagreement.HonestNodesDisagree` shows that the demand cannot be dropped: without it, two honest nodes with the same
  deliveries and certificates come to rest with different blocks at height 1. `Agreement.OrdersAgreeIffOneBranch` says
  when the two orders of the race behind it agree. Uniqueness of certificates needs no such demand.
* `core/block.go:56` rejects two blocks when a pair of commands is equal. `Chains.PassingIsEqualityIffEmpty` and
  `Chains.HonestChainsAlikeIff` say what the comparison still decides.
* `core/node_test.go:194-195` says a round is left only after more than two thirds have lost it. Round 1 of a known
  height is started without that: `SortitionRounds.RoundOneWithoutQuorum`, with the exact condition in
  `SortitionRounds.PredecessorLostIff`.
* `core/block.go:66` says a certificate takes n-f votes; the code takes ceil(2n/3), which is n-f unless 3 divides n
  (`Quorums.QuorumArithmetic`).
* The comment at `core/node.go:294-296` says that a certified block is deleted from the pending blocks; the code has
  that line commented out, and the model keeps the block.

## Model

| member | source | states |
|---|---|---|
| Quorums.QuorumArithmetic | core/node.go:97 | ceil(2n/3) equals n - floor(n/3), the key threshold of config_gen/main.go:86; two quorums overlap in more than f nodes; the n-f correct nodes make up a quorum, exactly one unless 3 divides n |
| Quorums.QuorumsShareHonest | core/node.go:626-636 | any two quorums of the cluster share a node that is not faulty |
| Blocks.AncestorCompose | core/block.go:13-19 | following previous-hash links in two stages reaches the block that following them at once does |
| NodeImpl.Node.constructor | core/node.go:90-132 | a new node is the initial state: genesis committed and level 0 of the candidate chain, one token in the channel |
| NodeImpl.Node.HandleNewBlock | core/node.go:516-526 | the block is pending under its height and hash, its two goroutines are started, the aliasing of levels is kept, and a late block appears at once in the candidate level |
| NodeImpl.Node.TryUpdateCandidateChain | core/node.go:531-542 | inserts into an existing candidate level or starts the extension, nothing else |
| NodeImpl.Node.TryExtendCandidateChain | core/node.go:543-556 | the next candidate level becomes the pending map object of that height; a token sender and the next attempt are started |
| NodeImpl.Node.CheckVotedSection | core/node.go:410-417 | first look at `voted`, which changes nothing and goes on only if the height is unmarked |
| NodeImpl.Node.CastVoteSection | core/node.go:419-440 | second look at `voted`: the mark is set and the node's own signed vote sent exactly if it was unmarked |
| NodeImpl.Node.HandleVoteMsg | core/node.go:565-585 | records the share under height, hash and sender, creating the inner maps that are missing, and starts the check |
| NodeImpl.Node.CheckIfQuorumVotes | core/node.go:627-636 | marks the height and starts the building exactly if there is a quorum, the height is unmarked and the block is pending |
| NodeImpl.Node.BuildBlockWithQC | core/node.go:587-607 | the shares extracted from the recorded ones are handed to the threshold scheme; the certificate is for the stored block and over the vote rebuilt from it; a missing block or too few shares bring the process down |
| NodeImpl.Node.AssembleBlock | core/node.go:588-604 | a certified block comes of the stored block and at least a quorum of shares, else none |
| NodeImpl.Node.CreateIntactSig | core/block.go:127-138 | a quorum of shares, taken to be valid, gives the signature over the vote, fewer give none |
| NodeImpl.Node.ExtractPartialSigs | core/node.go:611-624 | returns shares of distinct recorded voters, a quorum of them when there are as many, whatever the order of ranging |
| NodeImpl.Node.HandleNewBlockQC | core/node.go:297-308 | enters the certificate or, on the early return, leaves with the lock held |
| NodeImpl.Node.WalkAncestors | core/node.go:329-344 | the loop computes the backward walk over the shared level objects, crashes exactly when the walk meets a missing block, and sets the height |
| NodeImpl.Node.RangeOverLevel | core/node.go:323-347 | ranging over a level in any order runs the walk at most once, for the entry with the wanted hash |
| NodeImpl.Node.CommitAncestorByBlockQC | core/node.go:311-348 | guards and walk together are the ancestor commit on the abstract chains |
| NodeImpl.Node.TryExtendChain | core/node.go:351-362 | commits the waiting certificate of the next height, removes it and tries again, or does nothing |
| NodeImpl.Node.SelectBlock | core/chain.go:78-93 | fails exactly on a missing or empty top level, else returns a block of it, for every random number |
| NodeImpl.Node.RunSection | core/node.go:297-636 | every section, dispatched, does to the heap what its specification does to the contents |
| Execution.MayHappen | core/node.go:219-498 | whether an event can happen is read off the heap |
| Execution.RunEvent | core/node.go:219-636 | any event run on a heap node that stands for a state leaves a heap node that stands for the next state, and the goroutines and messages its section started and sent are those of the next state |
| Execution.Execute | core/node.go:90-636 | a whole schedule run in place, goroutines and history included, ends in the state of the specified run, with candidate levels and pending levels one object at every height |
| ProposalInvariants.LateInsertIsNoOp | core/node.go:534-538 | the late insert above height 0 changes nothing, because the block came into the level through the shared map |
| NodeInvariants.InvInitial | core/node.go:107-130 | a new node satisfies all invariants |
| NodeInvariants.BuildQCKeeps | core/node.go:587-607 | building a certificate keeps the invariants and never finds the block missing or the shares too few |
| NodeInvariants.InsertQCKeeps | core/node.go:297-305 | entering a certificate keeps the invariants, among them that the lock is free: the early return is never taken |
| NodeInvariants.EntersNew | core/node.go:299-302 | a certificate about to be entered is the first one for its height |
| NodeInvariants.StepKeeps | core/node.go:219-636 | every event keeps every invariant of a node |
| NodeInvariants.RunKeeps | core/node.go:219-636 | every reachable state satisfies the invariants |
| CertInvariants.OneCertMark | core/node.go:632-635 | marking a height starts the one goroutine that makes its certificate |
| CertInvariants.OneCertBuild | core/node.go:601-606 | the built certificate takes over from the goroutine that built it |
| CertInvariants.OneCertInsert | core/node.go:297-305 | of one height at most one goroutine makes a certificate, and it finds none entered |
| Confluence.EntersOncePerHeight | core/node.go:297-308 | over all interleavings the certificate section is entered at most once per height, exactly once for the certified heights, and every section ends with the lock free |
| Confluence.AncestorsCommitOnce | core/node.go:303-307 | in every run the ancestor commit of a height has run or waits to run exactly once if the height is certified, never otherwise, and at rest it has run |
| Confluence.QuiescentCandidateChain | core/node.go:516-556 | at quiescence the candidate height is the longest gap-free prefix of delivered heights and each level holds exactly the delivered blocks of its height |
| Confluence.CandidateChainConfluence | core/node.go:516-556 | two schedules with the same delivered blocks end with the same candidate chain, level for level |
| Confluence.DeliveredExactly | core/node.go:466-476 | the delivered blocks are exactly those of the run's deliveries that pass the signature check |
| Confluence.NoLostCertificate | core/node.go:516-526 | at quiescence a height is marked, and its certificate entered, exactly if some pending block of it has a quorum of recorded votes, whatever came first |
| Certification.CertifiedIffDelivered | core/node.go:461-636 | at quiescence of a live node, a height is certified exactly if some block of it and the votes of a quorum of members for that block were delivered |
| Certification.HandledVoteIsRecorded | core/node.go:570-584 | a handled vote leaves its share under its height, hash and sender, in place of an earlier one, and no other share changes |
| Confluence.TokensConserved | core/node.go:231-289 | tokens in the channel, with blocked senders and with the loop, plus winning proposals, are one more than the candidate height, so proposals never exceed that |
| Confluence.ProposalsExtendCandidates | core/node.go:237-278 | the panic of the proposal loop is unreachable and each proposal links by hash to a block one height below in the proposer's candidate chain |
| Proposing.ParentIsTopCandidate | core/chain.go:78-93 | in every reachable state with a token in hand, a block can be chosen as parent exactly if it is in the highest candidate level |
| Proposing.WinProposes | core/node.go:273-278 | a win appends and broadcasts one block, by this node, one height above the parent, with the parent's hash and the requests taken |
| Proposing.LoseGivesTokenBack | core/node.go:282-289 | a lost turn proposes nothing and starts a sender of the token |
| Proposing.ProposesNextHeight | core/node.go:237-278 | a win while the candidate chain has not grown since the choice proposes the next height, whatever else happened |
| Proposing.SentAreProposed | core/node.go:277-278 | the proposals broadcast are exactly those made |
| Proposing.LoopNotStarved | core/node.go:231-235 | while a live node has made no more proposals than its candidate chain is high, a waiting loop finds a token or a sender can give it one |
| Proposing.ProposeTurn | core/node.go:231-290 | one turn run in place: token, selection from the highest level, round, and for a winner the block over the requests at the front of the pool, is the three events of the turn |
| Voting.VotesAreForDelivered | core/node.go:410-440 | each vote sent is the node's signed approval of a block delivered to it, and the only one of its height |
| Voting.VotesOncePerHeight | core/node.go:507-514 | at rest a node has voted for exactly one block of each height it was delivered a block of |
| Termination.SectionShrinks | core/node.go:297-636 | every section lowers a measure of pending heights, waiting certificates and weighted goroutines, whatever happens to the committed height |
| Termination.BoundedWork | core/node.go:297-636 | from any reachable state, sections run plus remaining measure are at most the measure at the start plus 12 per delivered block and 7 per delivered vote |
| Termination.NotStuck | core/node.go:297-636 | while a section waits in a live node, one can run |
| Termination.EveryScheduleEnds | core/node.go:297-636 | with no more deliveries, every schedule runs out of sections and ends quiescent or crashed |
| Termination.RunWork | core/node.go:297-636 | in a whole run at most 12 sections per delivered block and 7 per delivered vote |
| AncestorCommit.WalkBackCommits | core/node.go:329-344 | the walk finishes exactly if the candidate chain holds every ancestor above the committed height, and then commits exactly those, each with the certificate |
| AncestorCommit.CommitAncestorsCommits | core/node.go:311-348 | guards, crash condition and result: heights old+1 to the parent's are overwritten by the ancestors under the certificate, all others unchanged |
| AncestorCommit.OverwritesLinked | core/node.go:331-343 | the new segment is hash-linked and its top hashes to the certified block's previous hash |
| AncestorCommit.HeightFallsIff | core/node.go:344 | the ancestor commit lowers the committed height exactly if it passes its guards for a block at or below that height |
| LedgerInvariants.LedgerCommits | core/node.go:311-348 | an ancestor commit keeps the committed chain gapless, made of received blocks and of ancestors of certified ones |
| LedgerInvariants.LedgerExtends | core/node.go:351-362 | extending the chain keeps the same |
| Commits.CommitsAreValid | core/node.go:311-362 | in every run heights 0 to the committed one are filled and each committed block but genesis sits at its own height, was received as a proposal, and is an ancestor of a certified block, or certified itself, whose certificate it carries |
| Commits.ExtensionCommitsCertificate | core/node.go:351-362 | in every run, extending the chain makes the certificate entered for the next height the entry of that height, whatever was there, removes it from the waiting ones and changes nothing else |
| Commits.QuiescentCommits | core/node.go:351-362 | at quiescence no certificate waits for the next height and the committed chain is no longer than the candidate chain |
| Commits.AlignedIffNoLateCommit | core/node.go:344 | the number of committed blocks is the committed height plus one throughout a run exactly if no commit of the run is late |
| Commits.NeverFallsIffNoLateCommit | core/node.go:344 | the committed height never falls in a run exactly if no commit of the run is late |
| Commits.CommitsAreComplete | core/node.go:297-362 | in a run without late commits, a quiescent node with certificates for heights 1 to k has committed at least k |
| Commits.CrashesIffMissingAncestor | core/node.go:339-342 | given valid shares, a run crashes exactly if some ancestor commit of it, past its guards, lacks an ancestor in the candidate chain |
| MissingAncestor.HonestNodeCrashes | core/node.go:339-342 | an authentic run of four nodes within the fault bound in which an honest node crashes on an ancestor that is not there |
| LateCommit.CommittedHeightFalls | core/node.go:344 | an authentic run of four nodes within the fault bound in which an honest node's committed height is 2, then 1, and the node comes to rest with nothing waiting |
| Finality.CommittedBlockReplacedIff | core/node.go:331-362 | in every run the next event replaces a committed block exactly if an ancestor commit walks over it with another ancestor or the chain is extended over it with another block |
| Finality.CommittedIsFinal | core/node.go:311-362 | in a run without late commits no entry of the committed chain ever changes, block or certificate |
| Finality.CommittedChainLinked | core/node.go:331-358 | the committed chain of a node whose certified blocks lie on one branch is hash-linked above genesis |
| Cluster.BuiltHasQuorum | core/node.go:627-636 | behind every certificate are a quorum of recorded voters, all cluster members |
| Cluster.HonestVoterVoted | core/node.go:477-485 | an honest voter recorded anywhere for a block has broadcast its vote for that block |
| Cluster.OneVotePerHeight | core/node.go:410-440 | a node sends at most one vote per height, across the gap between the two looks at `voted` |
| Cluster.ClusterKeeps | core/node.go:410-636 | the invariants of all honest nodes, and the authenticity of what they recorded, hold in every run of the cluster |
| Cluster.ClusterRunsNode | core/node.go:461-498 | a stretch of authentic events at one node is a run of that node and leaves the others alone |
| Cluster.BuiltPersists | core/node.go:297-606 | a certificate once built stays with its node for the rest of the run |
| Cluster.CertificateUniqueness | core/node.go:410-636 | with at most f faulty nodes no two honest nodes ever build certificates for different blocks of one height, at whatever two times |
| Agreement.CommittedBlocksAgree | core/node.go:311-362 | with at most f faulty nodes and certified blocks on one branch, a block once committed is the one every honest node holds at that height from then on |
| Disagreement.HonestNodesDisagree | core/node.go:311-362 | an authentic run of four nodes within the fault bound after which two honest nodes at rest, with the same deliveries and certificates, hold different blocks at height 1, one of them on a chain that is not linked |
| Agreement.OrdersAgreeIffOneBranch | core/node.go:331-362 | in every reachable state with a waiting certificate and a higher one about to commit its ancestors, the two orders give the same block exactly if the two certified blocks are on one branch |
| Agreement.CertificateSoundness | core/node.go:587-624 | when a certificate is built, in any run of the cluster, its block is there and the shares passed are exactly a quorum, of distinct cluster members, each honest one's a signature over the vote rebuilt from the stored block |
| Chains.RequestEqualIff | core/rpc_handler.go:30-44 | the comparison of requests is equality, nil commands told apart from empty ones |
| Chains.BlockEqual | core/block.go:22-61 | the loop accepts exactly blocks with the same header whose commands differ one by one |
| Chains.PassingIsEqualityIffEmpty | core/block.go:55-59 | a block passes against itself exactly if it carries no commands; on such blocks the comparison is equality |
| Chains.Chain.EqualIgnoreQC | core/chain.go:49-64 | chains pass exactly if extent and height agree and at every height proposer, height and previous hash agree and the commands are as many and differ one by one; it can dereference nil only on different heights |
| Chains.AlikeIsEqualityIfEmpty | core/chain.go:49-64 | chains without commands pass exactly if they hold the same blocks |
| Chains.CompareForked | core/chain.go:57-62 | the two honest chains of the forked run are told apart |
| Chains.SameHeights | core/chain.go:54-57 | reachable chains of one length have the same heights, so it never does |
| Chains.HonestChainsAlikeIff | core/node_test.go:302-316 | under the conditions of agreement, two honest chains pass exactly if they have the same extent and no committed block carries commands |
| Requests.RequestPool.Append | core/rpc_handler.go:69-71 | the request goes to the end of the pool and no batch sliced off earlier changes, though the array may be shared |
| Requests.RequestPool.TakeBatch | core/node.go:264-271 | the batch is all of a pool of at most 1000 requests and else the first 1000, and the pool keeps the rest, in the same array |
| Requests.ProposalTakes | core/node.go:264-271 | in every run a proposal takes all of a pool of at most 1000 requests, else exactly the first 1000, and changes nothing else |
| Requests.RPCHandler.Wrap | core/rpc_handler.go:59-67 | a request gets the next serial number and the server's name |
| Requests.RequestsConserved | core/rpc_handler.go:58-77 | however calls and proposals interleave, each number handed out is in exactly one place once, order of arrival is kept, and each number carries its client's command |
| Requests.Execute | core/rpc_handler.go:58-77 | run on the shared slice, pool and every batch still hold at the end what the run says |
| SortitionRounds.Sortition.HandleSortitionMsg | core/node.go:639-651 | records the report under height, round and node |
| SortitionRounds.Sortition.StartRound | core/node.go:241-260 | the round is 0 for an unknown height, else one past the largest round with a quorum of reports, whatever the order of ranging |
| SortitionRounds.Execute | core/node.go:241-260 | reports and starts run on the records leave what the run says |
| SortitionRounds.RecordsAreReports | core/node.go:639-651 | a node is recorded for a height and a round exactly if its report on them came in, always with false |
| SortitionRounds.KnownHeightsAndRounds | core/node.go:244-247 | a height is known exactly if it was reported on or looked at, and a round of it exactly if reported, or if it is round 0 of a height looked at first |
| SortitionRounds.StartedRoundByReports | core/node.go:243-259 | the round started is one past the last round reported by a quorum of distinct nodes, 1 if none from 1 on, and 0 for a height nothing was heard of |
| SortitionRounds.NextRoundUnique | core/node.go:249-258 | that round is determined by what is recorded |
| SortitionRounds.NextRoundNeverFalls | core/node.go:241-260 | neither a report nor the start of a round makes any next round smaller |
| SortitionRounds.NextRoundMonotone | core/node.go:241-260 | over any sequence of reports and starts no next round ever falls |
| SortitionRounds.PredecessorLostIff | core/node.go:249-258 | the round before has a recorded quorum of reports exactly if some round has; always so from round 2 on |
| SortitionRounds.RoundOneWithoutQuorum | core/node.go:249-258 | one report is enough for round 1 to be started |
| SortitionRounds.ParseDecimal | sortition/sortition_utils.go:43 | the decimal rendering of a seed can be read back |
| SortitionRounds.VrfInputsDistinct | core/node.go:261 | for heights below 2^44 and rounds below 2^20 different pairs have different seeds and different VRF inputs |
| SortitionRounds.VrfInputsCollide | core/node.go:261 | round 2^20 of a height has the seed of round 0 of the next |
| Connections.Pop | conn/net_transport.go:259-261 | takes the last connection of a slice out and sets its slot to nil |
| Connections.Append | conn/net_transport.go:278 | appends in place while the capacity lasts, else into a new array |
| Connections.NetworkTransport.GetConn | conn/net_transport.go:252-266 | hands out the idle connection returned last, or dials; the result is nil only along with an error |
| Connections.NetworkTransport.ReturnConn | conn/net_transport.go:270-283 | pools the connection under its own target while there is room and the transport is open, else closes it |
| Connections.NetworkTransport.Close | conn/net_transport.go:219-229 | flips the flag once and leaves the pools as they are |
| Connections.Execute | conn/net_transport.go:219-283 | run on the slices of the transport, the pools hold at the end what the run says |
| Connections.ConnectionsOwned | conn/net_transport.go:231-283 | in every run each dialled connection is pooled under its own target, held or released, exactly one of them and once, and no pool outgrows its bound |
| Connections.ClosedForGood | conn/net_transport.go:219-283 | the transport is shut down exactly if it was closed, and from then on no pool grows and every connection returned is released |
| Connections.ReturnThenGet | conn/net_transport.go:252-283 | a get undoes a return that went to the pool; a connection that did not go back is not handed out next |
| Connections.ConnectionsReused | conn/net_transport.go:268-283 | with never more than m connections to a target held at once, m at most the pool's bound, at most m are ever dialled and none is closed |

## Left out

* Cryptography: ED25519, threshold signatures, the VRF and SHA-256. Digests are injective terms, shares and
  certificates are tokens, and the shares that are assembled are taken to be valid; `createIntactSig` then fails only
  on fewer than a quorum.
* Encoding, framing, TCP, RPC serving, configuration, the client, logging, timers and `String` methods.
* The floating-point threshold and `HashRatio`: winning a sortition is a free choice, the quorum an integer ceiling.
* Width of heights and serial numbers: they are unbounded, so wrap-around at 2^64 is not modelled, except for the
  seed and for `bqc.Height - 1` at height 0, where there is no candidate level to be found.
* The goroutines, memory and locks of Go: a section is one atomic step; the unlocked reads of `pendingBlocks` in
  `buildBlockWithQC`, of the candidate chain in `ProposeBlockLoop` and of the pool length are atomic reads.
  `buildBlockWithQC` reads the block and then the shares; it is one step here, as both only grow.
* Sending a sortition message and shutting the proposal loop down: a lost sortition gives the token back, and rounds
  are studied on their own in `SortitionRounds`. A broadcast does not fail half way.
* Liveness when messages are lost, and committing past a height whose votes are split: a certificate handled before
  its ancestors are candidates is not retried, so neither holds.
* `Chain.Equal`, which adds the comparison of certificates to that of `EqualIgnoreQC`.
* `appendBlocksDirectly` of the tests, which bypasses the pending blocks and breaks the sharing of levels.
- NodeImpl.Node.CommitAncestorByBlockQC: after a nil dereference it says nothing about what the walk had written, because the memory goes down with the process.
- Commits.CrashesIffMissingAncestor: leaves out the panic of the threshold scheme on a share that is not valid, because shares are taken to be valid.
- Execution.Execute: follows the contents of the maps until an ancestor commit crashes the node, for the same reason.
- Agreement.CommittedBlocksAgree: asks for certified blocks on one branch, because the validators accept every block and nothing else makes certified blocks extend each other.
- Commits.CommitsAreComplete: asks for a run without late commits, because a late commit lowers the height and nothing raises it again.
- Confluence.QuiescentCandidateChain: level 0 also holds blocks of height 0 that a faulty member may send; honest proposals start at height 1.
- Requests.RequestPool.Append: as for Connections.Append, how far `append` over-allocates is a parameter.
- Connections.ConnectionsOwned: a connection is returned by whoever holds it, as the callers do, and the outcome of a dial is a parameter.
