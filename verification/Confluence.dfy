/** Where a node ends up once its goroutines have finished does not depend on how they interleaved. */
module Confluence {
  import opened Blocks
  import opened NodeSpec
  import opened NodeRuns
  import opened ProposalInvariants
  import opened CertInvariants
  import opened LedgerInvariants
  import opened SenderInvariants
  import opened NodeInvariants

  /** Some block of height `h` was delivered. */
  ghost predicate SomeAt(delivered: set<Block>, h: nat) {
    exists b :: b in delivered && b.height == h
  }

  /** `x` is the hash of genesis or of a delivered block, of height `h`. */
  predicate HashAt(delivered: set<Block>, h: nat, x: Hash) {
    x.Digest? && x.of.height == h && (x.of in delivered || x.of == GENESIS)
  }

  /** `p` holds the candidate chain that the delivered blocks determine: its height is the longest
      gap-free prefix of delivered heights, and each level holds exactly the delivered blocks of its
      height under their hashes, level 0 also genesis. */
  ghost predicate CandidateOf(p: Proposals, delivered: set<Block>) {
    && (forall h: nat :: 1 <= h <= p.height ==> SomeAt(delivered, h))
    && !SomeAt(delivered, p.height + 1)
    && (forall h: nat, x :: h <= p.height ==> (x in Candidate(p, h) <==> HashAt(delivered, h, x)))
    && (forall h: nat, x :: h <= p.height && x in Candidate(p, h) ==> Candidate(p, h)[x] == x.of)
    && (forall h: nat :: h > p.height ==> Candidate(p, h) == map[])
  }

  lemma QuiescentProposals(p: Proposals, pool: multiset<Task>, delivered: set<Block>)
    requires ProposalInv(p, pool, delivered) && Populated(p.pending)
    requires forall t :: t in pool ==> t.SendToken?
    ensures CandidateOf(p, delivered)
  {
    hide ProposalInv, Populated, SomeAt;
    QuiescentHeights(p, pool, delivered);
    forall h: nat, x | h <= p.height
      ensures x in Candidate(p, h) <==> HashAt(delivered, h, x)
      ensures x in Candidate(p, h) ==> Candidate(p, h)[x] == x.of
    {
      QuiescentLevel(p, pool, delivered, h, x);
    }
  }

  lemma QuiescentHeights(p: Proposals, pool: multiset<Task>, delivered: set<Block>)
    requires ProposalInv(p, pool, delivered) && Populated(p.pending)
    requires forall t :: t in pool ==> t.SendToken?
    ensures forall h: nat :: 1 <= h <= p.height ==> SomeAt(delivered, h)
    ensures !SomeAt(delivered, p.height + 1)
  {
    assert !ExtensionInFlight(p.height, pool);
    forall h: nat | 1 <= h <= p.height
      ensures SomeAt(delivered, h)
    {
      assert h in p.pending;
      var x :| x in p.pending[h];
      assert x == Digest(p.pending[h][x]) && Has(p.pending, p.pending[h][x]);
    }
    assert forall b :: b in delivered && b.height == p.height + 1 ==> Has(p.pending, b);
  }

  lemma QuiescentLevel(p: Proposals, pool: multiset<Task>, delivered: set<Block>, h: nat, x: Hash)
    requires ProposalInv(p, pool, delivered)
    requires forall t :: t in pool ==> t.SendToken?
    requires h <= p.height
    ensures x in Candidate(p, h) <==> HashAt(delivered, h, x)
    ensures x in Candidate(p, h) ==> Candidate(p, h)[x] == x.of
  {
    assert LevelOk(Candidate(p, h), h);
    if x.Digest? && x.of.height == h {
      assert Has(p.pending, x.of) <==> x.of in delivered;
    }
  }

  /** Whatever the interleaving, a quiescent node's candidate chain is the one its deliveries determine. */
  lemma QuiescentCandidateChain(cfg: Config, es: seq<Event>)
    requires cfg.names != {} && Quiescent(RunNode(cfg, es))
    ensures CandidateOf(RunNode(cfg, es).node.props, RunNode(cfg, es).delivered)
  {
    RunKeeps(cfg, es);
    var y := RunNode(cfg, es);
    QuiescentProposals(y.node.props, y.pool, y.delivered);
  }

  /** A node that has not crashed has been delivered exactly the proposals of its run that come from
      cluster members. */
  lemma {:induction false} DeliveredExactly(cfg: Config, es: seq<Event>)
    requires !RunNode(cfg, es).node.crashed
    ensures forall b :: b in RunNode(cfg, es).delivered <==> Deliver(b) in es && b.proposer in cfg.names
  {
    if es != [] {
      var init, last := es[..|es| - 1], es[|es| - 1];
      if RunNode(cfg, init).node.crashed {
        CrashIsFinal(cfg, RunNode(cfg, init), last);
        assert false;
      }
      DeliveredExactly(cfg, init);
      assert es == init + [last];
    }
  }

  lemma SameChain(p: Proposals, p': Proposals, delivered: set<Block>)
    requires CandidateOf(p, delivered) && CandidateOf(p', delivered)
    ensures p.height == p'.height
    ensures forall h: nat :: Candidate(p, h) == Candidate(p', h)
  {
    assert !SomeAt(delivered, p.height + 1) && !SomeAt(delivered, p'.height + 1);
    forall h: nat ensures Candidate(p, h) == Candidate(p', h) {
      if h <= p.height {
        forall x ensures x in Candidate(p, h) <==> x in Candidate(p', h) {
          assert x in Candidate(p, h) <==> HashAt(delivered, h, x);
        }
      }
    }
  }

  /** Two nodes, or two schedules of one, that received the same proposals and have finished hold the
      same candidate chain, level for level. */
  lemma CandidateChainConfluence(cfg: Config, es: seq<Event>, cfg': Config, es': seq<Event>)
    requires cfg.names != {} && Quiescent(RunNode(cfg, es))
    requires cfg'.names != {} && Quiescent(RunNode(cfg', es'))
    requires RunNode(cfg, es).delivered == RunNode(cfg', es').delivered
    ensures var p, p' := RunNode(cfg, es).node.props, RunNode(cfg', es').node.props;
      p.height == p'.height && forall h: nat :: Candidate(p, h) == Candidate(p', h)
  {
    hide RunNode, CandidateOf, Quiescent;
    QuiescentCandidateChain(cfg, es);
    QuiescentCandidateChain(cfg', es');
    SameChain(RunNode(cfg, es).node.props, RunNode(cfg', es').node.props, RunNode(cfg, es).delivered);
  }

  /** No certificate is lost: once the goroutines have finished, a height is marked, and its certificate
      entered, exactly when some block of that height is pending with a quorum of recorded votes. */
  lemma NoLostCertificate(cfg: Config, es: seq<Event>, h: nat)
    requires cfg.names != {} && Quiescent(RunNode(cfg, es))
    ensures var y := RunNode(cfg, es);
      && (h in y.node.tally.qcCreated <==> exists x :: Ready(cfg.Q(), y.node.props.pending, y.node.tally.sigs, h, x))
      && (h in y.node.tally.qcCreated <==> h in y.certified)
  {
    hide ProposalInv, LedgerOk, ChainWake, VotersOk, BallotsOk, ProposalsLinked, Populated, RunNode;
    RunKeeps(cfg, es);
  }

  /** How many times the events of `es` enter a certificate for height `h`. */
  function Entries(cfg: Config, es: seq<Event>, h: nat): nat {
    if es == [] then 0
    else
      var y, e := RunNode(cfg, es[..|es| - 1]), es[|es| - 1];
      Entries(cfg, es[..|es| - 1], h)
      + if e.Run? && e.task.InsertQC? && e.task.cert.block.height == h && CanHappen(cfg, y, e) then 1 else 0
  }

  lemma CertifiedOnlyByInsert(cfg: Config, y: Sys, e: Event)
    requires !(e.Run? && e.task.InsertQC?)
    ensures Step(cfg, y, e).certified == y.certified
  {
  }

  /** `handleNewBlockQC` runs at most once per height, exactly once for the heights with an entered
      certificate, and no section ever ends with the lock held. */
  lemma {:induction false} EntersOncePerHeight(cfg: Config, es: seq<Event>, h: nat)
    requires cfg.names != {}
    ensures Entries(cfg, es, h) == if h in RunNode(cfg, es).certified then 1 else 0
    ensures !RunNode(cfg, es).node.lockHeld
  {
    hide Inv, CanHappen;
    RunKeeps(cfg, es);
    LockFree(cfg, RunNode(cfg, es));
    if es != [] {
      var y, e := RunNode(cfg, es[..|es| - 1]), es[|es| - 1];
      EntersOncePerHeight(cfg, es[..|es| - 1], h);
      RunKeeps(cfg, es[..|es| - 1]);
      if e.Run? && e.task.InsertQC? && CanHappen(cfg, y, e) {
        InPool(cfg, y, e.task);
        EntersNew(cfg, y, e.task.cert);
      } else if !(e.Run? && e.task.InsertQC?) {
        CertifiedOnlyByInsert(cfg, y, e);
      }
    }
  }

  lemma LockFree(cfg: Config, y: Sys)
    requires Inv(cfg, y)
    ensures !y.node.lockHeld
  {
  }

  lemma InPool(cfg: Config, y: Sys, t: Task)
    requires CanHappen(cfg, y, Run(t))
    ensures t in y.pool
  {
  }

  /** How many times the events of `es` run the ancestor commit of a certificate of height `h`. */
  function AncestorCommits(cfg: Config, es: seq<Event>, h: nat): nat {
    if es == [] then 0
    else
      var y, e := RunNode(cfg, es[..|es| - 1]), es[|es| - 1];
      AncestorCommits(cfg, es[..|es| - 1], h)
      + if e.Run? && e.task.CommitAncestors? && e.task.cert.block.height == h && CanHappen(cfg, y, e) then 1 else 0
  }

  /** The ancestor commits of `h` that have run or wait to run. */
  function CommitsDue(y: Sys, h: nat, run: nat): nat {
    run + if h in y.certified then y.pool[CommitAncestors(y.certified[h])] else 0
  }

  lemma StartsCommit(cfg: Config, s: NodeState, t: Task, c: CertBlock)
    ensures RunTask(cfg, s, t).spawned[CommitAncestors(c)] ==
      if t == InsertQC(c) && c.block.height !in s.ledger.pendingQC then 1 else 0
  {
    hide Ready, LevelAt, RecordVote, AddPending, AddCandidate, CommitAncestorsLedger, ExtendLedger;
  }

  lemma InsertDue(cfg: Config, y: Sys, c: CertBlock, h: nat, run: nat)
    requires Inv(cfg, y) && CanHappen(cfg, y, Run(InsertQC(c)))
    requires CommitsDue(y, h, run) == if h in y.certified then 1 else 0
    ensures var y' := Step(cfg, y, Run(InsertQC(c))); CommitsDue(y', h, run) == if h in y'.certified then 1 else 0
  {
    hide Inv, RunTask, Enabled;
    EntersNew(cfg, y, c);
    StartsCommit(cfg, y.node, InsertQC(c), c);
    if CommitAncestors(c) in y.pool {
      CommitIsCertified(cfg, y, c);
    }
    if h in y.certified {
      CertifiedAtOwnHeight(cfg, y, h);
      StartsCommit(cfg, y.node, InsertQC(c), y.certified[h]);
    }
  }

  lemma CommitIsCertified(cfg: Config, y: Sys, c: CertBlock)
    requires Inv(cfg, y) && CommitAncestors(c) in y.pool
    ensures c.block.height in y.certified && y.certified[c.block.height] == c
  {
    CommittedIsCertified(cfg.Q(), y.node.props.pending, y.node.tally, y.pool, y.certified, y.node.ledger.pendingQC, c);
  }

  lemma CommitDue(cfg: Config, y: Sys, c: CertBlock, h: nat, run: nat)
    requires Inv(cfg, y) && CanHappen(cfg, y, Run(CommitAncestors(c)))
    requires CommitsDue(y, h, run) == if h in y.certified then 1 else 0
    ensures var y' := Step(cfg, y, Run(CommitAncestors(c)));
      CommitsDue(y', h, run + if c.block.height == h then 1 else 0) == if h in y'.certified then 1 else 0
  {
    hide Inv, RunTask, Enabled;
    CommitIsCertified(cfg, y, c);
    if h in y.certified {
      StartsCommit(cfg, y.node, CommitAncestors(c), y.certified[h]);
      CertifiedAtOwnHeight(cfg, y, h);
    }
  }

  lemma CertifiedAtOwnHeight(cfg: Config, y: Sys, h: nat)
    requires Inv(cfg, y) && h in y.certified
    ensures y.certified[h].block.height == h
  {
    hide ProposalInv, LedgerOk, ChainWake, VotersOk, BallotsOk, ProposalsLinked, Populated, QuorumWake, OneCertificate;
  }

  lemma OtherDue(cfg: Config, y: Sys, e: Event, h: nat, run: nat)
    requires !(e.Run? && (e.task.InsertQC? || e.task.CommitAncestors?))
    requires CommitsDue(y, h, run) == if h in y.certified then 1 else 0
    ensures var y' := Step(cfg, y, e); CommitsDue(y', h, run) == if h in y'.certified then 1 else 0
  {
    hide RunTask, Enabled, Candidate;
    if e.Run? && h in y.certified {
      StartsCommit(cfg, y.node, e.task, y.certified[h]);
    }
  }

  /** No certificate is committed twice or forgotten: in every run the ancestor commit of each height has run
      or waits to run exactly once if the height is certified and never otherwise; at rest it has run. */
  lemma {:induction false} AncestorsCommitOnce(cfg: Config, es: seq<Event>, h: nat)
    requires cfg.names != {}
    ensures CommitsDue(RunNode(cfg, es), h, AncestorCommits(cfg, es, h)) == if h in RunNode(cfg, es).certified then 1 else 0
    ensures Quiescent(RunNode(cfg, es)) ==>
      AncestorCommits(cfg, es, h) == if h in RunNode(cfg, es).certified then 1 else 0
  {
    hide Inv, CanHappen, Step, CommitsDue;
    if es == [] {
      NothingDue(h);
    } else {
      var init, e := es[..|es| - 1], es[|es| - 1];
      var y := RunNode(cfg, init);
      AncestorsCommitOnce(cfg, init, h);
      RunKeeps(cfg, init);
      if !CanHappen(cfg, y, e) {
        CannotHappen(cfg, y, e);
      } else if e.Run? && e.task.InsertQC? {
        InsertDue(cfg, y, e.task.cert, h, AncestorCommits(cfg, init, h));
      } else if e.Run? && e.task.CommitAncestors? {
        CommitDue(cfg, y, e.task.cert, h, AncestorCommits(cfg, init, h));
      } else {
        OtherDue(cfg, y, e, h, AncestorCommits(cfg, init, h));
      }
    }
    NoneDueAtRest(RunNode(cfg, es), h, AncestorCommits(cfg, es, h));
  }

  lemma NothingDue(h: nat)
    ensures CommitsDue(INITIAL_SYS, h, 0) == 0 && h !in INITIAL_SYS.certified
  {
  }

  lemma CannotHappen(cfg: Config, y: Sys, e: Event)
    requires !CanHappen(cfg, y, e)
    ensures Step(cfg, y, e) == y
  {
  }

  lemma NoneDueAtRest(y: Sys, h: nat, run: nat)
    ensures Quiescent(y) ==> CommitsDue(y, h, run) == run
  {
  }

  /** Token conservation: a node has never made more proposals than its candidate chain has levels, and
      no token is created or lost. */
  lemma TokensConserved(cfg: Config, es: seq<Event>)
    requires cfg.names != {}
    ensures var y := RunNode(cfg, es);
      && y.node.channel + y.pool[SendToken] + (if y.loop.Waiting? then 0 else 1) + |y.proposed| == 1 + y.node.props.height
      && |y.proposed| <= y.node.props.height + 1
  {
    RunKeeps(cfg, es);
  }

  /** `selectBlock` always finds a block, so the panic of the proposal loop is unreachable, and each
      proposal made links by hash to a block one height below in the proposer's candidate chain. */
  lemma ProposalsExtendCandidates(cfg: Config, es: seq<Event>)
    requires cfg.names != {}
    ensures var y := RunNode(cfg, es);
      && Candidate(y.node.props, y.node.props.height) != map[]
      && forall b :: Proposal(b) in y.sent ==>
           b.proposer == cfg.me && b.prev.Digest? && b.prev.of.height == b.height - 1
           && Digest(b.prev.of) in Candidate(y.node.props, b.prev.of.height)
  {
    hide CertInv, LedgerOk, ChainWake, VotersOk, BallotsOk, RunNode;
    RunKeeps(cfg, es);
    TopNotEmpty(cfg, RunNode(cfg, es));
  }
}
