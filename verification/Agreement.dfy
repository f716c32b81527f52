/** Agreement on committed blocks across honest nodes and across time, and what certificates rest on. */
module Agreement {
  import opened Blocks
  import opened Quorums
  import opened NodeSpec
  import opened NodeRuns
  import opened ProposalInvariants
  import opened CertInvariants
  import opened AncestorCommit
  import opened LedgerInvariants
  import opened SenderInvariants
  import opened NodeInvariants
  import opened Commits
  import opened Cluster

  /** All certified blocks lie on one branch: of two at different heights, wherever they were certified,
      the lower is an ancestor of the higher. Nothing is asked of two at the same height. */
  ghost predicate OneBranch(c: Nodes) {
    forall a, b, h, k :: a in c && b in c && h in c[a].certified && k in c[b].certified && h < k ==>
      Ancestor(c[b].certified[k].block, h) == Some(c[a].certified[h].block)
  }

  /** The blocks of two certificates with an ancestor at `h` have the same one. */
  lemma SameAncestor(names: set<Name>, c: Nodes, a: Name, b: Name, j: nat, k: nat, h: nat)
    requires ClusterInv(names, c) && FaultBound(names, c.Keys) && OneBranch(c)
    requires a in c && b in c && j in c[a].certified && k in c[b].certified && j <= k
    requires Ancestor(c[a].certified[j].block, h).Some? && Ancestor(c[b].certified[k].block, h).Some?
    ensures Ancestor(c[a].certified[j].block, h) == Ancestor(c[b].certified[k].block, h)
  {
    hide Inv, HeardFrom;
    CertifiedAtHeight(Config(a, names), c[a], j);
    CertifiedAtHeight(Config(b, names), c[b], k);
    if j == k {
      SameHeightSameCertificate(names, c, a, b, c[a].certified[j], c[b].certified[k]);
    } else {
      AncestorCompose(c[b].certified[k].block, j, h);
    }
  }

  lemma CertifiedAtHeight(cfg: Config, y: Sys, h: nat)
    requires Inv(cfg, y) && h in y.certified
    ensures y.certified[h].block.height == h && Built(y, y.certified[h])
  {
    hide ProposalInv, LedgerOk, ChainWake, VotersOk, BallotsOk, ProposalsLinked, Populated, QuorumWake, OneCertificate;
  }

  lemma CommittedIsBacked(cfg: Config, y: Sys, h: nat)
    requires Inv(cfg, y) && h in y.node.ledger.blocks && h > 0
    ensures Backed(y.certified, h, y.node.ledger.blocks[h])
  {
    hide ProposalInv, CertInv, ChainWake, VotersOk, BallotsOk, ProposalsLinked, Populated;
    assert EntryOk(y.node.props.pending, y.certified, h, y.node.ledger.blocks[h]);
  }

  lemma GenesisCommitted(cfg: Config, y: Sys)
    requires Inv(cfg, y)
    ensures 0 in y.node.ledger.blocks && y.node.ledger.blocks[0].block == GENESIS
  {
    hide ProposalInv, CertInv, ChainWake, VotersOk, BallotsOk, ProposalsLinked, Populated;
  }

  /** The block a node has committed at a height it had reached by then is the one any node commits there. */
  lemma AgreementLater(names: set<Name>, c: Nodes, c': Nodes, a: Name, b: Name, h: nat)
    requires ClusterInv(names, c) && ClusterInv(names, c') && c.Keys == c'.Keys
    requires forall i :: i in c ==> Later(c[i], c'[i])
    requires FaultBound(names, c'.Keys) && OneBranch(c')
    requires a in c && b in c' && h in c[a].node.ledger.blocks && h in c'[b].node.ledger.blocks
    ensures c[a].node.ledger.blocks[h].block == c'[b].node.ledger.blocks[h].block
  {
    hide Inv, HeardFrom, OneBranch;
    if h == 0 {
      GenesisCommitted(Config(a, names), c[a]);
      GenesisCommitted(Config(b, names), c'[b]);
    } else {
      CommittedIsBacked(Config(a, names), c[a], h);
      CommittedIsBacked(Config(b, names), c'[b], h);
      var j :| j in c[a].certified && Ancestor(c[a].certified[j].block, h) == Some(c[a].node.ledger.blocks[h].block);
      var k :| k in c'[b].certified && Ancestor(c'[b].certified[k].block, h) == Some(c'[b].node.ledger.blocks[h].block);
      assert j in c'[a].certified && c'[a].certified[j] == c[a].certified[j];
      if j <= k {
        SameAncestor(names, c', a, b, j, k, h);
      } else {
        SameAncestor(names, c', b, a, k, j, h);
      }
    }
  }

  lemma {:induction false} ClusterLater(names: set<Name>, honest: set<Name>, es: seq<ClusterEvent>, n: nat)
    requires names != {} && n <= |es|
    ensures forall i :: i in honest ==> Later(RunCluster(names, honest, es[..n])[i], RunCluster(names, honest, es)[i])
  {
    hide Step, Inv, HeardFrom;
    if n == |es| {
      assert es[..n] == es;
    } else {
      var init := es[..|es| - 1];
      assert init[..n] == es[..n];
      ClusterLater(names, honest, init, n);
      ClusterKeeps(names, honest, init);
      ClusterStepKeeps(names, RunCluster(names, honest, init), es[|es| - 1]);
    }
  }

  /** Agreement: in a run with at most the tolerated number of faulty nodes whose certified blocks lie on
      one branch, the block any honest node had committed at a height after `n` events is the block every
      honest node that has reached that height holds there at the end. With `a == b`, a committed block is
      never replaced by a different one; with `n == |es|`, any two honest nodes agree. */
  lemma {:induction false} CommittedBlocksAgree(names: set<Name>, honest: set<Name>, es: seq<ClusterEvent>, n: nat, a: Name, b: Name, h: nat)
    requires FaultBound(names, honest) && a in honest && b in honest && n <= |es|
    requires OneBranch(RunCluster(names, honest, es))
    requires h in RunCluster(names, honest, es[..n])[a].node.ledger.blocks
    requires h in RunCluster(names, honest, es)[b].node.ledger.blocks
    ensures RunCluster(names, honest, es[..n])[a].node.ledger.blocks[h].block ==
            RunCluster(names, honest, es)[b].node.ledger.blocks[h].block
    ensures h in RunCluster(names, honest, es)[a].node.ledger.blocks
  {
    hide RunCluster, Inv, HeardFrom, OneBranch;
    ClusterKeeps(names, honest, es[..n]);
    ClusterKeeps(names, honest, es);
    ClusterLater(names, honest, es, n);
    AgreementLater(names, RunCluster(names, honest, es[..n]), RunCluster(names, honest, es), a, b, h);
  }

  /** An ancestor commit that runs to its end commits the ancestors of its certificate. */
  lemma AncestorOutcome(cfg: Config, y: Sys, high: CertBlock, i: nat)
    requires Shape(y.node.props) && CanHappen(cfg, y, Run(CommitAncestors(high)))
    requires ParentIsCandidate(y.node.props, y.node.ledger, high) && !MissesAncestor(cfg, y, Run(CommitAncestors(high)))
    requires y.node.ledger.height < i < high.block.height
    ensures var blocks := Step(cfg, y, Run(CommitAncestors(high))).node.ledger.blocks;
      i in blocks && Ancestor(high.block, i) == Some(blocks[i].block)
  {
    hide Shape, ParentIsCandidate, CommitAncestorsLedger, RunTask, Enabled, HeldAncestor;
    TaskLedger(cfg, y.node, CommitAncestors(high));
    CommitAncestorsCommits(y.node.props, y.node.ledger, high);
  }

  /** Why the branch matters: in any reachable state of a node in which the certificate `low` of the next height
      waits and the ancestor commit of a higher one, `high`, is about to run, it is a race whether that height
      is committed directly or as an ancestor. The two outcomes agree exactly when the two certified blocks are
      on one branch. */
  lemma {:induction false} OrdersAgreeIffOneBranch(cfg: Config, es: seq<Event>, low: CertBlock, high: CertBlock)
    requires cfg.names != {}
    requires var y := RunNode(cfg, es);
      && CanHappen(cfg, y, Run(ExtendChain)) && CanHappen(cfg, y, Run(CommitAncestors(high)))
      && low.block.height == y.node.ledger.height + 1 < high.block.height
      && low.block.height in y.node.ledger.pendingQC && y.node.ledger.pendingQC[low.block.height] == low
      && ParentIsCandidate(y.node.props, y.node.ledger, high) && !MissesAncestor(cfg, y, Run(CommitAncestors(high)))
    ensures var i := low.block.height;
      var direct := RunNode(cfg, es + [Run(ExtendChain)]).node.ledger.blocks;
      var ancestor := RunNode(cfg, es + [Run(CommitAncestors(high))]).node.ledger.blocks;
      && i in direct && i in ancestor
      && (direct[i].block == ancestor[i].block <==> Ancestor(high.block, i) == Some(low.block))
  {
    hide Inv, RunNode, Step, CanHappen, ParentIsCandidate, MissesAncestor, Ancestor;
    var y := RunNode(cfg, es);
    RunKeeps(cfg, es);
    WaitingIsCertified(cfg, y);
    ExtensionCommitsCertificate(cfg, es);
    LedgerFacts(cfg, es);
    AncestorOutcome(cfg, y, high, low.block.height);
    OneMore(cfg, es, Run(CommitAncestors(high)));
  }

  // ---------- What a certificate rests on ----------

  lemma BuildFacts(cfg: Config, y: Sys, h: nat, x: Hash)
    requires Inv(cfg, y) && BuildQC(h, x) in y.pool
    ensures x in LevelAt(y.node.props.pending, h)
    ensures x == Digest(y.node.props.pending[h][x]) && y.node.props.pending[h][x].height == h
    ensures var ballots := BallotsAt(y.node.tally.sigs, h, x); |ballots| >= cfg.Q() && ballots.Keys <= cfg.names
  {
    hide CandidateWake, Deliveries, LedgerOk, ChainWake, BallotsOk, ProposalsLinked, Populated, QuorumWake, OneCertificate;
    assert Ready(cfg.Q(), y.node.props.pending, y.node.tally.sigs, h, x);
  }

  /** Certificate soundness: whenever a certificate is built, its block is there, and whichever shares are
      extracted from the recorded ones, they are exactly a quorum of shares of distinct cluster members, the
      share of each honest one being its signature over the vote rebuilt from the stored block. */
  lemma {:induction false} CertificateSoundness(names: set<Name>, honest: set<Name>, es: seq<ClusterEvent>, a: Name, h: nat, x: Hash,
                             voters: seq<Name>, sigs: seq<PartialSig>)
    requires names != {} && a in honest
    requires BuildQC(h, x) in RunCluster(names, honest, es)[a].pool
    requires Extracts(Quorum(|names|), BallotsAt(RunCluster(names, honest, es)[a].node.tally.sigs, h, x), voters, sigs)
    ensures var y := RunCluster(names, honest, es)[a];
      && x in LevelAt(y.node.props.pending, h)
      && |sigs| == |voters| == Quorum(|names|)
      && (forall i, j :: 0 <= i < j < |voters| ==> voters[i] != voters[j])
      && var rebuilt := Approval(y.node.props.pending[h][x]);
         && rebuilt == PlainVote(x, h, true)
         && forall i :: 0 <= i < |voters| ==>
              voters[i] in names && (voters[i] in honest ==> sigs[i] == Share(voters[i], rebuilt))
  {
    hide Inv, RunCluster;
    var c := RunCluster(names, honest, es);
    ClusterKeeps(names, honest, es);
    BuildFacts(Config(a, names), c[a], h, x);
    forall i | 0 <= i < |voters| && voters[i] in honest
      ensures sigs[i] == Share(voters[i], PlainVote(x, h, true))
    {
      assert Cast(c, voters[i], h, x, BallotsAt(c[a].node.tally.sigs, h, x)[voters[i]]);
    }
  }
}
