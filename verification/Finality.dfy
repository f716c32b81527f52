/** Which events replace a committed block, and what keeps the committed chain final and linked. */
module Finality {
  import opened Blocks
  import opened NodeSpec
  import opened NodeRuns
  import opened ProposalInvariants
  import opened CertInvariants
  import opened AncestorCommit
  import opened LedgerInvariants
  import opened SenderInvariants
  import opened NodeInvariants
  import opened Commits

  // ---------- When a committed block is replaced ----------

  /** `e` runs, to its end, the ancestor commit of a certificate above `h` whose ancestor at `h` is not the block
      committed there, while the committed height is below `h`. */
  predicate WalksOver(cfg: Config, y: Sys, e: Event, h: nat)
    requires h in y.node.ledger.blocks
  {
    && e.Run? && e.task.CommitAncestors? && CanHappen(cfg, y, e)
    && ParentIsCandidate(y.node.props, y.node.ledger, e.task.cert) && !MissesAncestor(cfg, y, e)
    && y.node.ledger.height < h < e.task.cert.block.height
    && Ancestor(e.task.cert.block, h) != Some(y.node.ledger.blocks[h].block)
  }

  /** `e` extends the committed chain to `h`, where another block is committed already. */
  predicate ExtendsOver(cfg: Config, y: Sys, e: Event, h: nat)
    requires h in y.node.ledger.blocks
  {
    && e.Run? && e.task.ExtendChain? && CanHappen(cfg, y, e)
    && h == y.node.ledger.height + 1 && h in y.node.ledger.pendingQC
    && y.node.ledger.pendingQC[h].block != y.node.ledger.blocks[h].block
  }

  lemma StepReplacesIff(cfg: Config, y: Sys, e: Event, h: nat)
    requires Shape(y.node.props) && h in y.node.ledger.blocks
    ensures var blocks' := Step(cfg, y, e).node.ledger.blocks;
      && h in blocks'
      && (blocks'[h].block != y.node.ledger.blocks[h].block <==> WalksOver(cfg, y, e, h) || ExtendsOver(cfg, y, e, h))
  {
    hide Shape, ParentIsCandidate, CommitAncestorsLedger, RunTask, Enabled, Candidate, HeldAncestor;
    if e.Run? && CanHappen(cfg, y, e) {
      TaskLedger(cfg, y.node, e.task);
      match e.task
      case CommitAncestors(c) => CommitAncestorsCommits(y.node.props, y.node.ledger, c);
      case ExtendChain =>
      case _ =>
    }
  }

  /** In every run, the next event replaces the block committed at `h` exactly when it walks over it with an
      ancestor or extends the chain over it. Both need a committed height below `h`. */
  lemma {:induction false} CommittedBlockReplacedIff(cfg: Config, es: seq<Event>, e: Event, h: nat)
    requires cfg.names != {} && h in RunNode(cfg, es).node.ledger.blocks
    ensures h in RunNode(cfg, es + [e]).node.ledger.blocks
    ensures RunNode(cfg, es + [e]).node.ledger.blocks[h].block != RunNode(cfg, es).node.ledger.blocks[h].block <==>
      WalksOver(cfg, RunNode(cfg, es), e, h) || ExtendsOver(cfg, RunNode(cfg, es), e, h)
    ensures WalksOver(cfg, RunNode(cfg, es), e, h) || ExtendsOver(cfg, RunNode(cfg, es), e, h) ==>
      RunNode(cfg, es).node.ledger.height < h
  {
    hide Step, CanHappen;
    assert (es + [e])[..|es|] == es;
    LedgerFacts(cfg, es);
    StepReplacesIff(cfg, RunNode(cfg, es), e, h);
  }

  // ---------- Finality ----------

  /** While the committed chain ends at the committed height, no event touches an entry of it. */
  lemma StepKeepsEntries(cfg: Config, y: Sys, e: Event, h: nat)
    requires Shape(y.node.props) && Gapless(y.node.ledger.blocks)
    requires |y.node.ledger.blocks| == y.node.ledger.height + 1 && h in y.node.ledger.blocks
    ensures h in Step(cfg, y, e).node.ledger.blocks
    ensures Step(cfg, y, e).node.ledger.blocks[h] == y.node.ledger.blocks[h]
  {
    hide Shape, ParentIsCandidate, CommitAncestorsLedger, RunTask, Enabled, Candidate, HeldAncestor;
    if e.Run? && CanHappen(cfg, y, e) {
      TaskLedger(cfg, y.node, e.task);
      match e.task
      case CommitAncestors(c) => CommitAncestorsCommits(y.node.props, y.node.ledger, c);
      case ExtendChain =>
      case _ =>
    }
  }

  /** Finality: in a run without late commits, an entry of the committed chain never changes, neither its block
      nor its certificate. */
  lemma {:induction false} CommittedIsFinal(cfg: Config, es: seq<Event>, n: nat, h: nat)
    requires cfg.names != {} && NoLateCommit(cfg, es) && n <= |es|
    requires h in RunNode(cfg, es[..n]).node.ledger.blocks
    ensures h in RunNode(cfg, es).node.ledger.blocks
    ensures RunNode(cfg, es).node.ledger.blocks[h] == RunNode(cfg, es[..n]).node.ledger.blocks[h]
  {
    hide Step, CommitsLate;
    if n == |es| {
      assert es[..n] == es;
    } else {
      var init := es[..|es| - 1];
      assert init[..n] == es[..n];
      CommittedIsFinal(cfg, init, n, h);
      AlignedIffNoLateCommit(cfg, init);
      LedgerFacts(cfg, init);
      StepKeepsEntries(cfg, RunNode(cfg, init), es[|es| - 1], h);
    }
  }

  // ---------- The committed chain is a chain ----------

  /** The certified blocks of one node lie on one branch. */
  ghost predicate OnBranch(certified: map<nat, CertBlock>) {
    forall h, k :: h in certified && k in certified && h < k ==>
      Ancestor(certified[k].block, h) == Some(certified[h].block)
  }

  /** A block at height `h + 1` and one at `h`, both ancestors of certified blocks of one branch, are linked. */
  lemma BackedLinked(certified: map<nat, CertBlock>, h: nat, low: CertBlock, high: CertBlock)
    requires OnBranch(certified) && forall j :: j in certified ==> certified[j].block.height == j
    requires Backed(certified, h, low) && Backed(certified, h + 1, high)
    ensures high.block.prev == Digest(low.block)
  {
    var j :| j in certified && Ancestor(certified[j].block, h) == Some(low.block);
    var k :| k in certified && Ancestor(certified[k].block, h + 1) == Some(high.block);
    if j < k {
      AncestorCompose(certified[k].block, j, h);
    } else {
      AncestorCompose(certified[j].block, k, h + 1);
      assert Ancestor(certified[j].block, h + 1) == Some(high.block);
    }
    var top := certified[if j < k then k else j].block;
    assert Ancestor(top, h) == Some(low.block) && Ancestor(top, h + 1) == Some(high.block);
    AncestorCompose(top, h + 1, h);
  }

  /** The committed chain is hash-linked above genesis in every run of a node whose certified blocks lie on one
      branch, whichever of its entries were committed as ancestors. */
  lemma {:induction false} CommittedChainLinked(cfg: Config, es: seq<Event>)
    requires cfg.names != {} && OnBranch(RunNode(cfg, es).certified)
    ensures var blocks := RunNode(cfg, es).node.ledger.blocks;
      forall h :: h > 0 && h in blocks && h + 1 in blocks ==> blocks[h + 1].block.prev == Digest(blocks[h].block)
  {
    hide RunNode, Inv, OnBranch;
    var y := RunNode(cfg, es);
    CommitsAreValid(cfg, es);
    RunKeeps(cfg, es);
    CertifiedHeights(cfg, y);
    forall h | h > 0 && h in y.node.ledger.blocks && h + 1 in y.node.ledger.blocks
      ensures y.node.ledger.blocks[h + 1].block.prev == Digest(y.node.ledger.blocks[h].block)
    {
      BackedLinked(y.certified, h, y.node.ledger.blocks[h], y.node.ledger.blocks[h + 1]);
    }
  }

  lemma CertifiedHeights(cfg: Config, y: Sys)
    requires Inv(cfg, y)
    ensures forall j :: j in y.certified ==> y.certified[j].block.height == j
  {
    hide ProposalInv, LedgerOk, ChainWake, VotersOk, BallotsOk, ProposalsLinked, Populated, QuorumWake, OneCertificate;
  }
}
