/** The cluster: honest nodes running the protocol, faulty ones sending anything under their own names,
    and a network that may deliver an authentic message at any time, in any order, any number of times. */
module Cluster {
  import opened Blocks
  import opened Quorums
  import opened NodeSpec
  import opened NodeRuns
  import opened ProposalInvariants
  import opened CertInvariants
  import opened LedgerInvariants
  import opened SenderInvariants
  import opened NodeInvariants

  /** The honest nodes by name. */
  type Nodes = map<Name, Sys>

  datatype ClusterEvent = At(node: Name, event: Event)

  /** A message in the name of an honest node is delivered only if that node has broadcast it. */
  predicate Authentic(c: Nodes, e: Event) {
    match e
    case Deliver(b) => b.proposer in c ==> Proposal(b) in c[b.proposer].sent
    case DeliverVote(v) => v.sender in c ==> Ballot(v) in c[v.sender].sent
    case _ => true
  }

  function ClusterStep(names: set<Name>, c: Nodes, e: ClusterEvent): Nodes {
    if e.node in c && Authentic(c, e.event) then
      c[e.node := Step(Config(e.node, names), c[e.node], e.event)]
    else c
  }

  function RunCluster(names: set<Name>, honest: set<Name>, es: seq<ClusterEvent>): (c: Nodes)
    ensures c.Keys == honest
  {
    if es == [] then map i | i in honest :: INITIAL_SYS
    else ClusterStep(names, RunCluster(names, honest, es[..|es| - 1]), es[|es| - 1])
  }

  /** The events `es`, all at node `i`. */
  function AllAt(i: Name, es: seq<Event>): (cs: seq<ClusterEvent>)
    ensures |cs| == |es|
  {
    if es == [] then [] else AllAt(i, es[..|es| - 1]) + [At(i, es[|es| - 1])]
  }

  /** A stretch of authentic events at one node is a run of that node; the others stand still. */
  lemma {:induction false} ClusterRunsNode(names: set<Name>, honest: set<Name>, pre: seq<ClusterEvent>, i: Name, es: seq<Event>)
    requires i in honest && forall e :: e in es ==> Authentic(RunCluster(names, honest, pre), e)
    ensures var c, y' := RunCluster(names, honest, pre), RunFrom(Config(i, names), RunCluster(names, honest, pre)[i], es);
      && RunCluster(names, honest, pre + AllAt(i, es)) == c[i := y']
      && c[i].sent <= y'.sent
  {
    hide Step;
    var c := RunCluster(names, honest, pre);
    if es == [] {
      assert pre + AllAt(i, es) == pre;
    } else {
      var init, last := es[..|es| - 1], es[|es| - 1];
      ClusterRunsNode(names, honest, pre, i, init);
      var y := RunFrom(Config(i, names), c[i], init);
      assert (pre + AllAt(i, es))[..|pre| + |init|] == pre + AllAt(i, init);
      assert Authentic(c, last) && Authentic(c[i := y], last);
      SentGrows(Config(i, names), y, last);
      assert c[i := y][i := Step(Config(i, names), y, last)] == c[i := Step(Config(i, names), y, last)];
    }
  }

  /** A cluster of which at most a third, rounded down from one less, is faulty. */
  predicate FaultBound(names: set<Name>, honest: set<Name>) {
    names != {} && honest <= names && |names - honest| <= MaxFaulty(|names|)
  }

  // ---------- Authenticity of what the nodes have recorded ----------

  /** `sig` is what the honest `sender` broadcast for `(h, x)`. */
  predicate Cast(c: Nodes, sender: Name, h: nat, x: Hash, sig: PartialSig)
    requires sender in c
  {
    && x.Digest? && x.of.height == h
    && sig == Share(sender, Approval(x.of))
    && Ballot(MyVote(sender, x.of)) in c[sender].sent
  }

  /** What a node has recorded, or is about to, in the name of an honest node was broadcast by that node. */
  ghost predicate HeardFrom(c: Nodes, sigs: Sigs, pool: multiset<Task>) {
    && (forall h, x, i :: i in c && i in BallotsAt(sigs, h, x) ==> Cast(c, i, h, x, BallotsAt(sigs, h, x)[i]))
    && (forall v :: HandleVote(v) in pool && v.sender in c ==> Ballot(v) in c[v.sender].sent)
  }

  ghost predicate ClusterInv(names: set<Name>, c: Nodes) {
    forall i :: i in c ==> Inv(Config(i, names), c[i]) && HeardFrom(c, c[i].node.tally.sigs, c[i].pool)
  }

  /** What only grows while a node runs. */
  ghost predicate Later(y: Sys, y': Sys) {
    && y.sent <= y'.sent
    && y.node.ledger.blocks.Keys <= y'.node.ledger.blocks.Keys
    && forall h :: h in y.certified ==> h in y'.certified && y'.certified[h] == y.certified[h]
  }

  lemma BallotSignature(cfg: Config, y: Sys, v: Vote)
    requires Inv(cfg, y) && Ballot(v) in y.sent
    ensures v.plain.hash.Digest? && v == MyVote(cfg.me, v.plain.hash.of)
  {
    hide ProposalInv, CertInv, LedgerOk, ChainWake, VotersOk, ProposalsLinked, Populated;
  }

  lemma WalkKeepsBlocks(p: Proposals, blocks: map<nat, CertBlock>, floor: nat, b: Option<Block>, i: nat, qc: QC)
    ensures var r := WalkBack(p, blocks, floor, b, i, qc); r.Some? ==> blocks.Keys <= r.value.Keys
    decreases i
  {
  }

  lemma SentGrows(cfg: Config, y: Sys, e: Event)
    ensures y.sent <= Step(cfg, y, e).sent
  {
  }

  lemma BlocksGrow(cfg: Config, y: Sys, e: Event)
    ensures y.node.ledger.blocks.Keys <= Step(cfg, y, e).node.ledger.blocks.Keys
  {
    if e.Run? && CanHappen(cfg, y, e) {
      match e.task
      case CommitAncestors(c) =>
        if c.block.height > 0 {
          WalkKeepsBlocks(y.node.props, y.node.ledger.blocks, y.node.ledger.height,
                          LookupCandidate(y.node.props, c.block.height - 1, c.block.prev), c.block.height - 1, c.qc);
        }
      case ExtendChain =>
      case _ =>
    }
  }

  lemma CertifiedGrows(cfg: Config, y: Sys, e: Event)
    requires Inv(cfg, y)
    ensures forall h :: h in y.certified ==> h in Step(cfg, y, e).certified && Step(cfg, y, e).certified[h] == y.certified[h]
  {
    hide ProposalInv, CertInv, LedgerOk, ChainWake, VotersOk, BallotsOk, ProposalsLinked, Populated, RunTask;
    if e.Run? && e.task.InsertQC? && e.task in y.pool {
      CertsInsert(cfg.Q(), y.node.props.pending, y.node.tally, y.pool, y.certified, y.node.ledger.pendingQC, e.task.cert);
    }
  }

  lemma StepLater(cfg: Config, y: Sys, e: Event)
    requires Inv(cfg, y)
    ensures Later(y, Step(cfg, y, e))
  {
    hide Inv, Step;
    SentGrows(cfg, y, e);
    BlocksGrow(cfg, y, e);
    CertifiedGrows(cfg, y, e);
  }

  lemma HeardVote(c: Nodes, names: set<Name>, sigs: Sigs, pool: multiset<Task>, v: Vote, pool': multiset<Task>)
    requires HeardFrom(c, sigs, pool) && HandleVote(v) in pool
    requires forall i :: i in c ==> Inv(Config(i, names), c[i])
    requires forall u: Task :: u.HandleVote? ==> pool'[u] <= pool[u]
    ensures HeardFrom(c, RecordVote(sigs, v), pool')
  {
    hide Inv;
    RecordVoteBallots(sigs, v);
    if v.sender in c {
      BallotSignature(Config(v.sender, names), c[v.sender], v);
    }
  }

  lemma HeardTask(c: Nodes, names: set<Name>, me: Name, y: Sys, t: Task)
    requires HeardFrom(c, y.node.tally.sigs, y.pool) && t in y.pool
    requires forall i :: i in c ==> Inv(Config(i, names), c[i])
    ensures var y' := AfterTask(Config(me, names), y, t); HeardFrom(c, y'.node.tally.sigs, y'.pool)
  {
    hide Inv, HeardFrom;
    var y' := AfterTask(Config(me, names), y, t);
    if t.HandleVote? {
      HeardVote(c, names, y.node.tally.sigs, y.pool, t.vote, y'.pool);
    } else {
      SigsFrame(Config(me, names), y.node, t);
      HeardSame(c, y.node.tally.sigs, y.pool, y'.pool);
    }
  }

  lemma SigsFrame(cfg: Config, s: NodeState, t: Task)
    requires !t.HandleVote?
    ensures RunTask(cfg, s, t).node.tally.sigs == s.tally.sigs
    ensures forall u :: u in RunTask(cfg, s, t).spawned ==> !u.HandleVote?
  {
  }

  lemma HeardSame(c: Nodes, sigs: Sigs, pool: multiset<Task>, pool': multiset<Task>)
    requires HeardFrom(c, sigs, pool)
    requires forall u: Task :: u.HandleVote? ==> pool'[u] <= pool[u]
    ensures HeardFrom(c, sigs, pool')
  {
  }

  lemma HeardDeliver(c: Nodes, sigs: Sigs, pool: multiset<Task>, v: Vote)
    requires HeardFrom(c, sigs, pool)
    requires v.sender in c ==> Ballot(v) in c[v.sender].sent
    ensures HeardFrom(c, sigs, pool + multiset{HandleVote(v)})
  {
  }

  /** What a node records comes from the votes it was delivered. */
  lemma HeardStep(c: Nodes, names: set<Name>, me: Name, y: Sys, e: Event)
    requires HeardFrom(c, y.node.tally.sigs, y.pool) && Authentic(c, e)
    requires forall i :: i in c ==> Inv(Config(i, names), c[i])
    ensures var y' := Step(Config(me, names), y, e); HeardFrom(c, y'.node.tally.sigs, y'.pool)
  {
    hide Inv, HeardFrom, AfterTask;
    if CanHappen(Config(me, names), y, e) {
      match e
      case Run(t) => HeardTask(c, names, me, y, t);
      case DeliverVote(v) => HeardDeliver(c, y.node.tally.sigs, y.pool, v);
      case Deliver(b) => HeardSame(c, y.node.tally.sigs, y.pool, y.pool + multiset{HandleBlock(b), CheckVoted(b)});
      case Lose => HeardSame(c, y.node.tally.sigs, y.pool, y.pool + multiset{SendToken});
      case _ =>
    }
  }

  lemma HeardLater(c: Nodes, c': Nodes, sigs: Sigs, pool: multiset<Task>)
    requires HeardFrom(c, sigs, pool)
    requires c'.Keys == c.Keys && forall i :: i in c ==> c[i].sent <= c'[i].sent
    ensures HeardFrom(c', sigs, pool)
  {
    forall h, x, i | i in c' && i in BallotsAt(sigs, h, x)
      ensures Cast(c', i, h, x, BallotsAt(sigs, h, x)[i])
    {
      assert Cast(c, i, h, x, BallotsAt(sigs, h, x)[i]);
    }
  }

  lemma ClusterStepKeeps(names: set<Name>, c: Nodes, e: ClusterEvent)
    requires ClusterInv(names, c)
    ensures var c' := ClusterStep(names, c, e);
      && ClusterInv(names, c') && c'.Keys == c.Keys
      && forall i :: i in c ==> Later(c[i], c'[i])
  {
    hide Inv, HeardFrom, Authentic, Step;
    var c' := ClusterStep(names, c, e);
    if e.node in c && Authentic(c, e.event) {
      var i := e.node;
      StepKeeps(Config(i, names), c[i], e.event);
      StepLater(Config(i, names), c[i], e.event);
      HeardStep(c, names, i, c[i], e.event);
      forall j | j in c'
        ensures Inv(Config(j, names), c'[j]) && HeardFrom(c', c'[j].node.tally.sigs, c'[j].pool)
      {
        HeardLater(c, c', c'[j].node.tally.sigs, c'[j].pool);
      }
    }
  }

  lemma {:induction false} ClusterKeeps(names: set<Name>, honest: set<Name>, es: seq<ClusterEvent>)
    requires names != {}
    ensures ClusterInv(names, RunCluster(names, honest, es))
  {
    hide Inv, ClusterStep;
    if es == [] {
      forall i | i in honest ensures Inv(Config(i, names), INITIAL_SYS) {
        InvInitial(Config(i, names));
      }
    } else {
      ClusterKeeps(names, honest, es[..|es| - 1]);
      ClusterStepKeeps(names, RunCluster(names, honest, es[..|es| - 1]), es[|es| - 1]);
    }
  }

  // ---------- Certificates ----------

  /** `cert` has been built by this node: it is about to be entered or has been. */
  predicate Built(y: Sys, cert: CertBlock) {
    || InsertQC(cert) in y.pool
    || (cert.block.height in y.certified && y.certified[cert.block.height] == cert)
  }

  /** The senders of the votes a node has recorded for a block. */
  function Voters(y: Sys, b: Block): set<Name> {
    BallotsAt(y.node.tally.sigs, b.height, Digest(b)).Keys
  }

  /** Behind a certificate are a quorum of recorded voters, all cluster members. */
  lemma BuiltHasQuorum(cfg: Config, y: Sys, cert: CertBlock)
    requires Inv(cfg, y) && Built(y, cert)
    ensures |Voters(y, cert.block)| >= cfg.Q() && Voters(y, cert.block) <= cfg.names
    ensures cert.qc == Cert(Approval(cert.block))
  {
    hide ProposalInv, LedgerOk, ChainWake, BallotsOk, ProposalsLinked, Populated, QuorumWake, OneCertificate;
    assert CertOk(cfg.Q(), y.node.props.pending, y.node.tally.sigs, cert);
    var ballots := BallotsAt(y.node.tally.sigs, cert.block.height, Digest(cert.block));
    assert |ballots.Keys| == |ballots|;
  }

  /** An honest voter recorded anywhere for a block has broadcast its vote for that block. */
  lemma HonestVoterVoted(names: set<Name>, c: Nodes, a: Name, x: Name, b: Block)
    requires ClusterInv(names, c) && a in c && x in c && x in Voters(c[a], b)
    ensures Ballot(MyVote(x, b)) in c[x].sent
  {
    hide Inv;
    assert Cast(c, x, b.height, Digest(b), BallotsAt(c[a].node.tally.sigs, b.height, Digest(b))[x]);
  }

  lemma OneVotePerHeight(cfg: Config, y: Sys, b: Block, b': Block)
    requires Inv(cfg, y) && b.height == b'.height
    requires Ballot(MyVote(cfg.me, b)) in y.sent && Ballot(MyVote(cfg.me, b')) in y.sent
    ensures b == b'
  {
    hide ProposalInv, CertInv, LedgerOk, ChainWake, VotersOk, ProposalsLinked, Populated;
    assert MyVote(cfg.me, b).plain.height == MyVote(cfg.me, b').plain.height;
  }

  lemma SameHeightSameCertificate(names: set<Name>, c: Nodes, a: Name, a': Name, cert: CertBlock, cert': CertBlock)
    requires ClusterInv(names, c) && FaultBound(names, c.Keys)
    requires a in c && a' in c && Built(c[a], cert) && Built(c[a'], cert')
    requires cert.block.height == cert'.block.height
    ensures cert == cert'
  {
    hide Inv, HeardFrom, Built;
    BuiltHasQuorum(Config(a, names), c[a], cert);
    BuiltHasQuorum(Config(a', names), c[a'], cert');
    QuorumsShareHonest(names, names - c.Keys, Voters(c[a], cert.block), Voters(c[a'], cert'.block));
    var x :| x in Voters(c[a], cert.block) && x in Voters(c[a'], cert'.block) && x !in names - c.Keys;
    HonestVoterVoted(names, c, a, x, cert.block);
    HonestVoterVoted(names, c, a', x, cert'.block);
    OneVotePerHeight(Config(x, names), c[x], cert.block, cert'.block);
  }

  lemma StepKeepsBuilt(cfg: Config, y: Sys, e: Event, cert: CertBlock)
    requires Inv(cfg, y) && Built(y, cert)
    ensures Built(Step(cfg, y, e), cert)
  {
    hide Inv, RunTask, Enabled, Candidate;
    CertifiedGrows(cfg, y, e);
    if InsertQC(cert) in y.pool {
      EntersNew(cfg, y, cert);
    }
  }

  /** A certificate once built is there for the rest of the run, about to be entered or entered. */
  lemma {:induction false} BuiltPersists(names: set<Name>, honest: set<Name>, es: seq<ClusterEvent>, n: nat, a: Name, cert: CertBlock)
    requires names != {} && a in honest && n <= |es| && Built(RunCluster(names, honest, es[..n])[a], cert)
    ensures Built(RunCluster(names, honest, es)[a], cert)
  {
    hide Step, Inv, Built, HeardFrom;
    if n == |es| {
      assert es[..n] == es;
    } else {
      var init, last := es[..|es| - 1], es[|es| - 1];
      assert init[..n] == es[..n];
      BuiltPersists(names, honest, init, n, a, cert);
      ClusterKeeps(names, honest, init);
      StepKeepsBuilt(Config(a, names), RunCluster(names, honest, init)[a], last.event, cert);
    }
  }

  /** Certificate uniqueness: in every run with at most the tolerated number of faulty nodes, no two honest
      nodes ever build certificates for different blocks of one height, one after `n` events and the other
      after `n'`. */
  lemma {:induction false} CertificateUniqueness(names: set<Name>, honest: set<Name>, es: seq<ClusterEvent>, n: nat, n': nat,
                              a: Name, a': Name, cert: CertBlock, cert': CertBlock)
    requires FaultBound(names, honest) && a in honest && a' in honest && n <= |es| && n' <= |es|
    requires Built(RunCluster(names, honest, es[..n])[a], cert)
    requires Built(RunCluster(names, honest, es[..n'])[a'], cert')
    requires cert.block.height == cert'.block.height
    ensures cert == cert'
  {
    hide Inv, RunCluster, Built;
    BuiltPersists(names, honest, es, n, a, cert);
    BuiltPersists(names, honest, es, n', a', cert');
    ClusterKeeps(names, honest, es);
    SameHeightSameCertificate(names, RunCluster(names, honest, es), a, a', cert, cert');
  }
}
