/** The invariants of one node together, and that every event keeps them. */
module NodeInvariants {
  import opened Blocks
  import opened NodeSpec
  import opened NodeRuns
  import opened ProposalInvariants
  import opened CertInvariants
  import opened LedgerInvariants
  import opened SenderInvariants

  /** The invariants over the components of the state. The certificate and commit wake-ups are lost
      only with the process, when an ancestor commit dereferences a missing block. */
  ghost predicate Holds(cfg: Config, s: NodeState, pool: multiset<Task>, loop: Loop, delivered: set<Block>,
                        certified: map<nat, CertBlock>, sent: set<Message>, proposed: seq<Block>) {
    && ProposalInv(s.props, pool, delivered) && Populated(s.props.pending)
    && CertInv(cfg.Q(), s.props.pending, s.tally, pool, certified, s.ledger.pendingQC)
    && LedgerOk(s.props.pending, s.ledger, certified)
    && (s.crashed || ChainWake(s.ledger, pool))
    && VotersOk(cfg.names, s.tally.sigs, pool)
    && BallotsOk(cfg.me, s.voted, sent)
    && ProposalsLinked(cfg.me, s.props, loop, proposed, sent)
    && TokensOk(s.props, s.channel, pool, loop, proposed)
    && !s.lockHeld
  }

  ghost predicate Inv(cfg: Config, y: Sys) {
    Holds(cfg, y.node, y.pool, y.loop, y.delivered, y.certified, y.sent, y.proposed)
  }

  lemma InvInitial(cfg: Config)
    requires cfg.names != {}
    ensures Inv(cfg, INITIAL_SYS)
  {
    assert cfg.Q() > 0;
    KeysUpTo(INITIAL_NODE.ledger.blocks, 1);
  }

  // One lemma per goroutine section. The group invariants are kept folded: each is moved to the next
  // state by the lemma of its own module.

  lemma HandleBlockKeeps(cfg: Config, y: Sys, b: Block)
    requires Inv(cfg, y) && HandleBlock(b) in y.pool && !y.node.crashed
    ensures Inv(cfg, AfterTask(cfg, y, HandleBlock(b)))
  {
    hide ProposalInv, Populated, CertInv, LedgerOk, ChainWake, VotersOk, BallotsOk, ProposalsLinked;
    var s := y.node;
    var pool' := y.pool - multiset{HandleBlock(b)} + multiset{UpdateCandidate(b), CheckQuorum(b.height, Digest(b))};
    ProposalsHandleBlock(s.props, y.pool, y.delivered, b);
    PutPopulated(s.props.pending, b);
    CertsHandleBlock(cfg.Q(), s.props.pending, s.tally, y.pool, y.certified, s.ledger.pendingQC, b);
    LedgerPut(s.props.pending, s.ledger, y.certified, b);
    ChainWakeSame(s.ledger, y.pool, pool');
    VotersSame(cfg.names, s.tally.sigs, y.pool, pool');
    LinkedPut(cfg.me, s.props, y.loop, y.proposed, y.sent, b);
  }

  /** A change of the pool that no invariant speaks about. */
  lemma PoolKeeps(cfg: Config, y: Sys, pool': multiset<Task>)
    requires Inv(cfg, y)
    requires forall u: Task :: MovesProposals(u) || MovesCerts(u) || u.HandleVote? || u.ExtendChain? || u.SendToken? ==>
      pool'[u] == y.pool[u]
    ensures Inv(cfg, y.(pool := pool'))
  {
    hide ProposalInv, Populated, CertInv, LedgerOk, ChainWake, VotersOk, BallotsOk, ProposalsLinked;
    var s := y.node;
    ProposalsSame(s.props, y.pool, y.delivered, pool');
    CertsSame(cfg.Q(), s.props.pending, s.tally, y.pool, y.certified, s.ledger.pendingQC, pool');
    if !s.crashed {
      ChainWakeSame(s.ledger, y.pool, pool');
    }
    VotersSame(cfg.names, s.tally.sigs, y.pool, pool');
  }

  lemma CheckVotedKeeps(cfg: Config, y: Sys, b: Block)
    requires Inv(cfg, y) && CheckVoted(b) in y.pool
    ensures Inv(cfg, AfterTask(cfg, y, CheckVoted(b)))
  {
    hide Inv;
    PoolKeeps(cfg, y, AfterTask(cfg, y, CheckVoted(b)).pool);
  }

  lemma CastVoteKeeps(cfg: Config, y: Sys, b: Block)
    requires Inv(cfg, y) && CastVote(b) in y.pool
    ensures Inv(cfg, AfterTask(cfg, y, CastVote(b)))
  {
    hide ProposalInv, Populated, CertInv, LedgerOk, ChainWake, VotersOk, BallotsOk, ProposalsLinked;
    PoolKeeps(cfg, y, AfterTask(cfg, y, CastVote(b)).pool);
    if b.height !in y.node.voted {
      BallotsCast(cfg.me, y.node.voted, y.sent, b);
      LinkedBallot(cfg.me, y.node.props, y.loop, y.proposed, y.sent, MyVote(cfg.me, b));
    }
  }

  lemma UpdateCandidateKeeps(cfg: Config, y: Sys, b: Block)
    requires Inv(cfg, y) && UpdateCandidate(b) in y.pool && !y.node.crashed
    ensures Inv(cfg, AfterTask(cfg, y, UpdateCandidate(b)))
  {
    hide ProposalInv, Populated, CertInv, LedgerOk, ChainWake, VotersOk, BallotsOk, ProposalsLinked;
    var s := y.node;
    var pool' := AfterTask(cfg, y, UpdateCandidate(b)).pool;
    if b.height <= s.props.height {
      assert pool' == y.pool - multiset{UpdateCandidate(b)};
      ProposalsInsert(s.props, y.pool, y.delivered, b);
      InsertKeepsPending(s.props, y.pool, y.delivered, b);
      LinkedPut(cfg.me, s.props, y.loop, y.proposed, y.sent, b);
    } else {
      ProposalsAhead(s.props, y.pool, y.delivered, b);
    }
    CertsSame(cfg.Q(), s.props.pending, s.tally, y.pool, y.certified, s.ledger.pendingQC, pool');
    ChainWakeSame(s.ledger, y.pool, pool');
    VotersSame(cfg.names, s.tally.sigs, y.pool, pool');
  }

  lemma AfterExtendCandidate(cfg: Config, y: Sys)
    ensures var p := y.node.props;
      AfterTask(cfg, y, ExtendCandidate) ==
        if p.height + 1 in p.pending then
          y.(node := y.node.(props := p.(height := p.height + 1)),
             pool := y.pool - multiset{ExtendCandidate} + multiset{SendToken, ExtendCandidate})
        else
          y.(pool := y.pool - multiset{ExtendCandidate})
  {
    assert y.pool - multiset{ExtendCandidate} + multiset{} == y.pool - multiset{ExtendCandidate};
  }

  lemma ExtendCandidateKeeps(cfg: Config, y: Sys)
    requires Inv(cfg, y) && ExtendCandidate in y.pool && !y.node.crashed
    ensures Inv(cfg, AfterTask(cfg, y, ExtendCandidate))
  {
    hide ProposalInv, Populated, CertInv, LedgerOk, ChainWake, VotersOk, BallotsOk, ProposalsLinked, AfterTask;
    AfterExtendCandidate(cfg, y);
    var s := y.node;
    var pool' := AfterTask(cfg, y, ExtendCandidate).pool;
    if s.props.height + 1 in s.props.pending {
      ProposalsExtend(s.props, y.pool, y.delivered);
      LinkedExtend(cfg.me, s.props, y.loop, y.proposed, y.sent);
    } else {
      ProposalsNoExtend(s.props, y.pool, y.delivered);
    }
    CertsSame(cfg.Q(), s.props.pending, s.tally, y.pool, y.certified, s.ledger.pendingQC, pool');
    ChainWakeSame(s.ledger, y.pool, pool');
    VotersSame(cfg.names, s.tally.sigs, y.pool, pool');
  }

  lemma HandleVoteKeeps(cfg: Config, y: Sys, v: Vote)
    requires Inv(cfg, y) && HandleVote(v) in y.pool && !y.node.crashed
    ensures Inv(cfg, AfterTask(cfg, y, HandleVote(v)))
  {
    hide ProposalInv, Populated, CertInv, LedgerOk, ChainWake, VotersOk, BallotsOk, ProposalsLinked;
    var s := y.node;
    var pool' := y.pool - multiset{HandleVote(v)} + multiset{CheckQuorum(v.plain.height, v.plain.hash)};
    ProposalsSame(s.props, y.pool, y.delivered, pool');
    CertsHandleVote(cfg.Q(), s.props.pending, s.tally, y.pool, y.certified, s.ledger.pendingQC, v);
    ChainWakeSame(s.ledger, y.pool, pool');
    VotersRecord(cfg.names, s.tally.sigs, y.pool, v, pool');
  }

  lemma AfterCheckQuorum(cfg: Config, y: Sys, h: nat, x: Hash)
    ensures var s, rest := y.node, y.pool - multiset{CheckQuorum(h, x)};
      AfterTask(cfg, y, CheckQuorum(h, x)) ==
        if Ready(cfg.Q(), s.props.pending, s.tally.sigs, h, x) && h !in s.tally.qcCreated then
          y.(node := s.(tally := s.tally.(qcCreated := s.tally.qcCreated + {h})), pool := rest + multiset{BuildQC(h, x)})
        else
          y.(pool := rest)
  {
    hide Ready;
    assert y.pool - multiset{CheckQuorum(h, x)} + multiset{} == y.pool - multiset{CheckQuorum(h, x)};
  }

  lemma CheckQuorumKeeps(cfg: Config, y: Sys, h: nat, x: Hash)
    requires Inv(cfg, y) && CheckQuorum(h, x) in y.pool && !y.node.crashed
    ensures Inv(cfg, AfterTask(cfg, y, CheckQuorum(h, x)))
  {
    hide ProposalInv, Populated, CertInv, LedgerOk, ChainWake, VotersOk, BallotsOk, ProposalsLinked, AfterTask, Ready;
    AfterCheckQuorum(cfg, y, h, x);
    var s := y.node;
    var pool' := AfterTask(cfg, y, CheckQuorum(h, x)).pool;
    if Ready(cfg.Q(), s.props.pending, s.tally.sigs, h, x) && h !in s.tally.qcCreated {
      CertsMark(cfg.Q(), s.props.pending, s.tally, y.pool, y.certified, s.ledger.pendingQC, h, x);
    } else {
      CertsNoMark(cfg.Q(), s.props.pending, s.tally, y.pool, y.certified, s.ledger.pendingQC, h, x);
    }
    ProposalsSame(s.props, y.pool, y.delivered, pool');
    ChainWakeSame(s.ledger, y.pool, pool');
    VotersSame(cfg.names, s.tally.sigs, y.pool, pool');
  }

  /** Building a certificate never dereferences a missing block. */
  lemma BuildQCKeeps(cfg: Config, y: Sys, h: nat, x: Hash)
    requires Inv(cfg, y) && BuildQC(h, x) in y.pool && !y.node.crashed
    ensures Inv(cfg, AfterTask(cfg, y, BuildQC(h, x))) && !AfterTask(cfg, y, BuildQC(h, x)).node.crashed
  {
    hide ProposalInv, Populated, CertInv, LedgerOk, ChainWake, VotersOk, BallotsOk, ProposalsLinked;
    var s := y.node;
    var pool' := AfterTask(cfg, y, BuildQC(h, x)).pool;
    ShapeOf(s.props, y.pool, y.delivered);
    CertsBuild(cfg.Q(), s.props.pending, s.tally, y.pool, y.certified, s.ledger.pendingQC, h, x);
    ProposalsSame(s.props, y.pool, y.delivered, pool');
    ChainWakeSame(s.ledger, y.pool, pool');
    VotersSame(cfg.names, s.tally.sigs, y.pool, pool');
  }

  /** The early return of `handleNewBlockQC`, which would keep the lock, is never taken. */
  lemma InsertQCKeeps(cfg: Config, y: Sys, c: CertBlock)
    requires Inv(cfg, y) && InsertQC(c) in y.pool && !y.node.crashed
    ensures Inv(cfg, AfterTask(cfg, y, InsertQC(c)))
  {
    hide ProposalInv, Populated, CertInv, LedgerOk, ChainWake, VotersOk, BallotsOk, ProposalsLinked;
    var s := y.node;
    var pool' := AfterTask(cfg, y, InsertQC(c)).pool;
    CertsInsert(cfg.Q(), s.props.pending, s.tally, y.pool, y.certified, s.ledger.pendingQC, c);
    ProposalsSame(s.props, y.pool, y.delivered, pool');
    LedgerCertified(s.props.pending, s.ledger, y.certified, c);
    ChainWakeCommit(AfterTask(cfg, y, InsertQC(c)).node.ledger, pool', c);
    VotersSame(cfg.names, s.tally.sigs, y.pool, pool');
  }

  lemma AfterCommitAncestors(cfg: Config, y: Sys, c: CertBlock)
    ensures var s, rest := y.node, y.pool - multiset{CommitAncestors(c)};
      var l := CommitAncestorsLedger(s.props, s.ledger, c);
      AfterTask(cfg, y, CommitAncestors(c)) ==
        if l.Some? then y.(node := s.(ledger := l.value), pool := rest + multiset{ExtendChain})
        else y.(node := s.(crashed := true), pool := rest)
  {
    hide CommitAncestorsLedger;
    assert y.pool - multiset{CommitAncestors(c)} + multiset{} == y.pool - multiset{CommitAncestors(c)};
  }

  lemma CommitAncestorsKeeps(cfg: Config, y: Sys, c: CertBlock)
    requires Inv(cfg, y) && CommitAncestors(c) in y.pool && !y.node.crashed
    ensures Inv(cfg, AfterTask(cfg, y, CommitAncestors(c)))
  {
    hide ProposalInv, Populated, CertInv, LedgerOk, ChainWake, VotersOk, BallotsOk, ProposalsLinked, AfterTask;
    hide CommitAncestorsLedger;
    AfterCommitAncestors(cfg, y, c);
    var s := y.node;
    var y' := AfterTask(cfg, y, CommitAncestors(c));
    ShapeOf(s.props, y.pool, y.delivered);
    ProposalsSame(s.props, y.pool, y.delivered, y'.pool);
    CommittedIsCertified(cfg.Q(), s.props.pending, s.tally, y.pool, y.certified, s.ledger.pendingQC, c);
    CertsSame(cfg.Q(), s.props.pending, s.tally, y.pool, y.certified, s.ledger.pendingQC, y'.pool);
    VotersSame(cfg.names, s.tally.sigs, y.pool, y'.pool);
    if CommitAncestorsLedger(s.props, s.ledger, c).Some? {
      LedgerCommits(s.props, s.ledger, y.certified, c);
      CommitKeepsWaiting(s.props, s.ledger, c);
      ChainWakeAgain(y'.node.ledger, y'.pool);
    }
  }

  lemma AfterExtendChain(cfg: Config, y: Sys)
    ensures var l := y.node.ledger;
      AfterTask(cfg, y, ExtendChain) ==
        y.(node := y.node.(ledger := ExtendLedger(l)),
           pool := y.pool - multiset{ExtendChain} + if l.height + 1 in l.pendingQC then multiset{ExtendChain} else multiset{})
  {
    hide ExtendLedger;
  }

  lemma ExtendChainKeeps(cfg: Config, y: Sys)
    requires Inv(cfg, y) && ExtendChain in y.pool && !y.node.crashed
    ensures Inv(cfg, AfterTask(cfg, y, ExtendChain))
  {
    hide ProposalInv, Populated, CertInv, LedgerOk, ChainWake, VotersOk, BallotsOk, ProposalsLinked, AfterTask, ExtendLedger;
    hide EntryOk;
    AfterExtendChain(cfg, y);
    var s := y.node;
    var y' := AfterTask(cfg, y, ExtendChain);
    assert forall u: Task :: !u.ExtendChain? ==> y'.pool[u] == y.pool[u];
    ProposalsSame(s.props, y.pool, y.delivered, y'.pool);
    VotersSame(cfg.names, s.tally.sigs, y.pool, y'.pool);
    CertsSame(cfg.Q(), s.props.pending, s.tally, y.pool, y.certified, s.ledger.pendingQC, y'.pool);
    CertsExtend(cfg.Q(), s.props.pending, s.tally, y'.pool, y.certified, s.ledger);
    CertsWaiting(cfg.Q(), s.props.pending, s.tally, y.pool, y.certified, s.ledger.pendingQC, s.ledger.height + 1);
    LedgerExtends(s.props.pending, s.ledger, y.certified);
    ChainWakeExtend(s.ledger, y.pool - multiset{ExtendChain});
  }

  lemma SendTokenKeeps(cfg: Config, y: Sys)
    requires Inv(cfg, y) && SendToken in y.pool && Enabled(y.node, SendToken)
    ensures Inv(cfg, AfterTask(cfg, y, SendToken))
  {
    hide ProposalInv, Populated, CertInv, LedgerOk, ChainWake, VotersOk, BallotsOk, ProposalsLinked;
    var s := y.node;
    var pool' := AfterTask(cfg, y, SendToken).pool;
    ProposalsSame(s.props, y.pool, y.delivered, pool');
    CertsSame(cfg.Q(), s.props.pending, s.tally, y.pool, y.certified, s.ledger.pendingQC, pool');
    ChainWakeSame(s.ledger, y.pool, pool');
    VotersSame(cfg.names, s.tally.sigs, y.pool, pool');
  }

  lemma TaskKeeps(cfg: Config, y: Sys, t: Task)
    requires Inv(cfg, y) && t in y.pool && Enabled(y.node, t)
    ensures Inv(cfg, AfterTask(cfg, y, t))
  {
    hide Inv, AfterTask;
    match t
    case HandleBlock(b) => HandleBlockKeeps(cfg, y, b);
    case CheckVoted(b) => CheckVotedKeeps(cfg, y, b);
    case CastVote(b) => CastVoteKeeps(cfg, y, b);
    case UpdateCandidate(b) => UpdateCandidateKeeps(cfg, y, b);
    case ExtendCandidate => ExtendCandidateKeeps(cfg, y);
    case HandleVote(v) => HandleVoteKeeps(cfg, y, v);
    case CheckQuorum(h, x) => CheckQuorumKeeps(cfg, y, h, x);
    case BuildQC(h, x) => BuildQCKeeps(cfg, y, h, x);
    case InsertQC(c) => InsertQCKeeps(cfg, y, c);
    case CommitAncestors(c) => CommitAncestorsKeeps(cfg, y, c);
    case ExtendChain => ExtendChainKeeps(cfg, y);
    case SendToken => SendTokenKeeps(cfg, y);
  }

  // ---------- Deliveries and the proposal loop ----------

  lemma DeliverKeeps(cfg: Config, y: Sys, b: Block)
    requires Inv(cfg, y) && CanHappen(cfg, y, Deliver(b))
    ensures Inv(cfg, Step(cfg, y, Deliver(b)))
  {
    hide ProposalInv, Populated, CertInv, LedgerOk, ChainWake, VotersOk, BallotsOk, ProposalsLinked;
    var s := y.node;
    var pool' := y.pool + multiset{HandleBlock(b), CheckVoted(b)};
    ProposalsDeliver(s.props, y.pool, y.delivered, b);
    CertsSame(cfg.Q(), s.props.pending, s.tally, y.pool, y.certified, s.ledger.pendingQC, pool');
    ChainWakeSame(s.ledger, y.pool, pool');
    VotersSame(cfg.names, s.tally.sigs, y.pool, pool');
  }

  lemma DeliverVoteKeeps(cfg: Config, y: Sys, v: Vote)
    requires Inv(cfg, y) && CanHappen(cfg, y, DeliverVote(v))
    ensures Inv(cfg, Step(cfg, y, DeliverVote(v)))
  {
    hide ProposalInv, Populated, CertInv, LedgerOk, ChainWake, VotersOk, BallotsOk, ProposalsLinked;
    var s := y.node;
    var pool' := y.pool + multiset{HandleVote(v)};
    ProposalsSame(s.props, y.pool, y.delivered, pool');
    CertsSame(cfg.Q(), s.props.pending, s.tally, y.pool, y.certified, s.ledger.pendingQC, pool');
    ChainWakeSame(s.ledger, y.pool, pool');
    VotersAdd(cfg.names, s.tally.sigs, y.pool, v);
  }

  lemma LoopKeeps(cfg: Config, y: Sys, e: Event)
    requires Inv(cfg, y) && CanHappen(cfg, y, e) && (e.TakeToken? || e.ChooseParent? || e.Win?)
    ensures Inv(cfg, Step(cfg, y, e))
  {
    hide ProposalInv, Populated, CertInv, LedgerOk, ChainWake, VotersOk, BallotsOk, ProposalsLinked;
    match e
    case TakeToken => LinkedTake(cfg.me, y.node.props, y.loop, y.proposed, y.sent);
    case ChooseParent(b) =>
      ShapeOf(y.node.props, y.pool, y.delivered);
      LinkedChoose(cfg.me, y.node.props, y.loop, y.proposed, y.sent, b);
    case Win(cmds) =>
      LinkedWin(cfg.me, y.node.props, y.loop.parent, y.proposed, y.sent, cmds);
      BallotsProposal(cfg.me, y.node.voted, y.sent, NewBlock(cfg.me, y.loop.parent, cmds));
    case _ =>
  }

  lemma LoseKeeps(cfg: Config, y: Sys)
    requires Inv(cfg, y) && CanHappen(cfg, y, Lose)
    ensures Inv(cfg, Step(cfg, y, Lose))
  {
    hide ProposalInv, Populated, CertInv, LedgerOk, ChainWake, VotersOk, BallotsOk, ProposalsLinked;
    var s := y.node;
    var pool' := y.pool + multiset{SendToken};
    ProposalsSame(s.props, y.pool, y.delivered, pool');
    CertsSame(cfg.Q(), s.props.pending, s.tally, y.pool, y.certified, s.ledger.pendingQC, pool');
    ChainWakeSame(s.ledger, y.pool, pool');
    VotersSame(cfg.names, s.tally.sigs, y.pool, pool');
    LinkedTake(cfg.me, s.props, y.loop, y.proposed, y.sent);
  }

  lemma StepKeeps(cfg: Config, y: Sys, e: Event)
    requires Inv(cfg, y)
    ensures Inv(cfg, Step(cfg, y, e))
  {
    hide Inv, AfterTask;
    if CanHappen(cfg, y, e) {
      match e
      case Deliver(b) => DeliverKeeps(cfg, y, b);
      case DeliverVote(v) => DeliverVoteKeeps(cfg, y, v);
      case Run(t) => TaskKeeps(cfg, y, t);
      case Lose => LoseKeeps(cfg, y);
      case _ => LoopKeeps(cfg, y, e);
    }
  }

  /** Every reachable state satisfies the invariants. */
  lemma {:induction false} RunKeeps(cfg: Config, es: seq<Event>)
    requires cfg.names != {}
    ensures Inv(cfg, RunNode(cfg, es))
  {
    hide Inv, Step;
    if es == [] {
      InvInitial(cfg);
    } else {
      RunKeeps(cfg, es[..|es| - 1]);
      StepKeeps(cfg, RunNode(cfg, es[..|es| - 1]), es[|es| - 1]);
    }
  }

  /** A certificate about to be entered is the first for its height. */
  lemma EntersNew(cfg: Config, y: Sys, c: CertBlock)
    requires Inv(cfg, y) && InsertQC(c) in y.pool
    ensures c.block.height !in y.certified && c.block.height !in y.node.ledger.pendingQC
  {
    CertsInsert(cfg.Q(), y.node.props.pending, y.node.tally, y.pool, y.certified, y.node.ledger.pendingQC, c);
  }

  /** The highest candidate level holds a block. */
  lemma TopNotEmpty(cfg: Config, y: Sys)
    requires Inv(cfg, y)
    ensures Candidate(y.node.props, y.node.props.height) != map[]
  {
    hide CertInv, LedgerOk, ChainWake, VotersOk, BallotsOk, ProposalsLinked, Deliveries, CandidateWake;
    var p := y.node.props;
    if p.height > 0 {
      assert p.height in p.pending;
      var x :| x in p.pending[p.height];
    } else {
      assert Digest(GENESIS) in p.level0;
    }
  }
}
