/** What each lock-protected section of a node does to the node's state, as pure functions.
    The class in Node.dfy performs the same sections in place and is proved against these. */
module NodeSpec {
  import opened Blocks
  import opened Quorums

  /** One pending goroutine, named by the section it runs next. */
  datatype Task =
    | HandleBlock(block: Block)
    | CheckVoted(block: Block)
    | CastVote(block: Block)
    | UpdateCandidate(block: Block)
    | ExtendCandidate
    | HandleVote(vote: Vote)
    | CheckQuorum(height: nat, hash: Hash)
    | BuildQC(height: nat, hash: Hash)
    | InsertQC(cert: CertBlock)
    | CommitAncestors(cert: CertBlock)
    | ExtendChain
    | SendToken

  type Level = map<Hash, Block>

  /** The votes recorded for one (height, hash): sender to partial signature. */
  type Ballots = map<Name, PartialSig>

  datatype Config = Config(me: Name, names: set<Name>)
  {
    function Q(): nat { Quorum(|names|) }
  }

  /** The proposals a node holds. `level0` is level 0 of the candidate chain; level `h` in `1..height`
      is the very map object `pending[h]`, so it has no content of its own here (see Node.Valid). */
  datatype Proposals = Proposals(pending: map<nat, Level>, level0: Level, height: nat)

  /** The votes recorded and the heights marked as certified. */
  datatype Tally = Tally(sigs: map<nat, map<Hash, Ballots>>, qcCreated: set<nat>)

  /** The certificates waiting to be committed and the committed chain. */
  datatype Ledger = Ledger(pendingQC: map<nat, CertBlock>, blocks: map<nat, CertBlock>, height: nat)

  /** `channel` counts the tokens in `candidateHeightUpdated`; `lockHeld` and `crashed` record that a
      section returned without releasing the lock or dereferenced nil. */
  datatype NodeState = NodeState(
    props: Proposals,
    tally: Tally,
    ledger: Ledger,
    voted: set<nat>,
    channel: nat,
    lockHeld: bool,
    crashed: bool)

  datatype Effect = Effect(node: NodeState, spawned: multiset<Task>, sent: Option<Message>)

  const INITIAL_NODE := NodeState(
    Proposals(map[], map[Digest(GENESIS) := GENESIS], 0),
    Tally(map[], {}),
    Ledger(map[], map[0 := CertBlock(GENESIS, EmptyQC)], 0),
    {}, 1, false, false)

  function LevelAt(m: map<nat, Level>, h: nat): Level {
    if h in m then m[h] else map[]
  }

  /** `m` with `b` entered under its own height and hash. */
  function Put(m: map<nat, Level>, b: Block): map<nat, Level> {
    m[b.height := LevelAt(m, b.height)[Digest(b) := b]]
  }

  function BallotsAt(sigs: map<nat, map<Hash, Ballots>>, h: nat, x: Hash): Ballots {
    if h in sigs && x in sigs[h] then sigs[h][x] else map[]
  }

  /** Level `h` of the candidate chain; a missing level reads as an empty map. */
  function Candidate(p: Proposals, h: nat): Level {
    if h == 0 then p.level0
    else if h <= p.height then LevelAt(p.pending, h)
    else map[]
  }

  function LookupCandidate(p: Proposals, h: nat, x: Hash): Option<Block> {
    if x in Candidate(p, h) then Some(Candidate(p, h)[x]) else None
  }

  /** `handleNewBlock` enters the block in `pendingBlocks`, and with it in a shared candidate level. */
  function AddPending(p: Proposals, b: Block): Proposals {
    p.(pending := Put(p.pending, b))
  }

  /** The insert of `tryUpdateCandidateChain` into an existing candidate level. */
  function AddCandidate(p: Proposals, b: Block): Proposals {
    if b.height == 0 then p.(level0 := p.level0[Digest(b) := b]) else p.(pending := Put(p.pending, b))
  }

  function HandleBlockEffect(s: NodeState, b: Block): Effect {
    Effect(s.(props := AddPending(s.props, b)),
           multiset{UpdateCandidate(b), CheckQuorum(b.height, Digest(b))}, None)
  }

  function CheckVotedEffect(s: NodeState, b: Block): Effect {
    Effect(s, if b.height in s.voted then multiset{} else multiset{CastVote(b)}, None)
  }

  function MyVote(me: Name, b: Block): Vote {
    Vote(Approval(b), me, Share(me, Approval(b)))
  }

  function CastVoteEffect(me: Name, s: NodeState, b: Block): Effect {
    if b.height in s.voted then Effect(s, multiset{}, None)
    else Effect(s.(voted := s.voted + {b.height}), multiset{}, Some(Ballot(MyVote(me, b))))
  }

  function UpdateCandidateEffect(s: NodeState, b: Block): Effect {
    if b.height <= s.props.height then
      Effect(s.(props := AddCandidate(s.props, b)), multiset{}, None)
    else
      Effect(s, multiset{ExtendCandidate}, None)
  }

  /** The next candidate level becomes the pending level of that height. */
  function ExtendCandidateEffect(s: NodeState): Effect {
    if s.props.height + 1 in s.props.pending then
      Effect(s.(props := s.props.(height := s.props.height + 1)), multiset{SendToken, ExtendCandidate}, None)
    else
      Effect(s, multiset{}, None)
  }

  function RecordVote(sigs: map<nat, map<Hash, Ballots>>, v: Vote): map<nat, map<Hash, Ballots>> {
    var atHeight := if v.plain.height in sigs then sigs[v.plain.height] else map[];
    sigs[v.plain.height := atHeight[v.plain.hash := BallotsAt(sigs, v.plain.height, v.plain.hash)[v.sender := v.sig]]]
  }

  function HandleVoteEffect(s: NodeState, v: Vote): Effect {
    Effect(s.(tally := s.tally.(sigs := RecordVote(s.tally.sigs, v))),
           multiset{CheckQuorum(v.plain.height, v.plain.hash)}, None)
  }

  /** The guard of `checkIfQuorumVotes` apart from the `qcCreated` mark. */
  predicate Ready(q: nat, pending: map<nat, Level>, sigs: map<nat, map<Hash, Ballots>>, h: nat, x: Hash) {
    |BallotsAt(sigs, h, x)| >= q && x in LevelAt(pending, h)
  }

  /** `sigs` are partial signatures of distinct members of `ballots`, one each. */
  ghost predicate SharesOf(ballots: Ballots, voters: seq<Name>, sigs: seq<PartialSig>) {
    && |voters| == |sigs|
    && (forall i, j :: 0 <= i < j < |voters| ==> voters[i] != voters[j])
    && (forall i :: 0 <= i < |voters| ==> voters[i] in ballots && sigs[i] == ballots[voters[i]])
  }

  /** `sigs` is what `extractPartialSigs` may return, depending on the order in which the map is ranged over:
      a quorum of shares, or all of them if there are fewer. */
  ghost predicate Extracts(q: nat, ballots: Ballots, voters: seq<Name>, sigs: seq<PartialSig>) {
    SharesOf(ballots, voters, sigs) && |sigs| == if |ballots| <= q then |ballots| else q
  }

  function CheckQuorumEffect(q: nat, s: NodeState, h: nat, x: Hash): Effect {
    if Ready(q, s.props.pending, s.tally.sigs, h, x) && h !in s.tally.qcCreated then
      Effect(s.(tally := s.tally.(qcCreated := s.tally.qcCreated + {h})), multiset{BuildQC(h, x)}, None)
    else
      Effect(s, multiset{}, None)
  }

  /** A missing block is dereferenced, and fewer shares than a quorum cannot be assembled; either brings the
      process down. */
  function BuildQCEffect(q: nat, s: NodeState, h: nat, x: Hash): Effect {
    if Ready(q, s.props.pending, s.tally.sigs, h, x) then
      var b := s.props.pending[h][x];
      Effect(s, multiset{InsertQC(CertBlock(b, Cert(Approval(b))))}, None)
    else
      Effect(s.(crashed := true), multiset{}, None)
  }

  /** A second certificate for a height makes the section return with the lock still held. */
  function InsertQCEffect(s: NodeState, c: CertBlock): Effect {
    if c.block.height in s.ledger.pendingQC then
      Effect(s.(lockHeld := true), multiset{}, None)
    else
      Effect(s.(ledger := s.ledger.(pendingQC := s.ledger.pendingQC[c.block.height := c])),
             multiset{CommitAncestors(c)}, None)
  }

  /** The loop of `CommitAncestorByBlockQC` from height `i` down to the committed height `floor`;
      None when it dereferences a block that the candidate chain does not hold. */
  function WalkBack(p: Proposals, blocks: map<nat, CertBlock>, floor: nat, b: Option<Block>, i: nat, qc: QC): Option<map<nat, CertBlock>>
    decreases i
  {
    if i <= floor then Some(blocks)
    else if b.None? then None
    else WalkBack(p, blocks[i := CertBlock(b.value, qc)], floor, LookupCandidate(p, i - 1, b.value.prev), i - 1, qc)
  }

  /** Whether the ancestor commit for `c` gets past its guards. For height 0 the source computes
      the parent height 2^64 - 1, at which there is no candidate. */
  predicate ParentIsCandidate(p: Proposals, l: Ledger, c: CertBlock) {
    && |l.blocks| != p.height + 1
    && c.block.height >= 1
    && c.block.prev in Candidate(p, c.block.height - 1)
  }

  /** The ledger after the ancestor commit for `c`; None when it crashes. */
  function CommitAncestorsLedger(p: Proposals, l: Ledger, c: CertBlock): Option<Ledger> {
    if ParentIsCandidate(p, l, c) then
      var top := c.block.height - 1;
      var walked := WalkBack(p, l.blocks, l.height, LookupCandidate(p, top, c.block.prev), top, c.qc);
      if walked.Some? then Some(l.(blocks := walked.value, height := top)) else None
    else
      Some(l)
  }

  function CommitAncestorsEffect(s: NodeState, c: CertBlock): Effect {
    var l := CommitAncestorsLedger(s.props, s.ledger, c);
    if l.Some? then Effect(s.(ledger := l.value), multiset{ExtendChain}, None)
    else Effect(s.(crashed := true), multiset{}, None)
  }

  function ExtendLedger(l: Ledger): Ledger {
    var h := l.height + 1;
    if h in l.pendingQC then Ledger(l.pendingQC - {h}, l.blocks[h := l.pendingQC[h]], h) else l
  }

  function ExtendChainEffect(s: NodeState): Effect {
    Effect(s.(ledger := ExtendLedger(s.ledger)),
           if s.ledger.height + 1 in s.ledger.pendingQC then multiset{ExtendChain} else multiset{}, None)
  }

  /** A goroutine blocks on the token channel while its one slot is full, and on the lock while
      the lock is held. */
  predicate Enabled(s: NodeState, t: Task) {
    !s.crashed && if t.SendToken? then s.channel == 0 else !s.lockHeld
  }

  function RunTask(cfg: Config, s: NodeState, t: Task): Effect {
    match t
    case HandleBlock(b) => HandleBlockEffect(s, b)
    case CheckVoted(b) => CheckVotedEffect(s, b)
    case CastVote(b) => CastVoteEffect(cfg.me, s, b)
    case UpdateCandidate(b) => UpdateCandidateEffect(s, b)
    case ExtendCandidate => ExtendCandidateEffect(s)
    case HandleVote(v) => HandleVoteEffect(s, v)
    case CheckQuorum(h, x) => CheckQuorumEffect(cfg.Q(), s, h, x)
    case BuildQC(h, x) => BuildQCEffect(cfg.Q(), s, h, x)
    case InsertQC(c) => InsertQCEffect(s, c)
    case CommitAncestors(c) => CommitAncestorsEffect(s, c)
    case ExtendChain => ExtendChainEffect(s)
    case SendToken => Effect(s.(channel := s.channel + 1), multiset{}, None)
  }
}
