/** What one node has committed, over whole runs: validity always, completeness unless a certificate
    comes late. */
module Commits {
  import opened Blocks
  import opened NodeSpec
  import opened NodeRuns
  import opened ProposalInvariants
  import opened CertInvariants
  import opened AncestorCommit
  import opened LedgerInvariants
  import opened SenderInvariants
  import opened NodeInvariants

  /** Every committed block but genesis was received as a proposal, sits at its own height, and is an
      ancestor of (or is) a block with an entered certificate, and the entry carries that certificate; no
      height up to the committed one is missing. */
  lemma CommitsAreValid(cfg: Config, es: seq<Event>)
    requires cfg.names != {}
    ensures var y := RunNode(cfg, es);
      && (forall h: nat :: h <= y.node.ledger.height ==> h in y.node.ledger.blocks)
      && y.node.ledger.blocks[0].block == GENESIS
      && forall h :: h in y.node.ledger.blocks && h > 0 ==>
           var b := y.node.ledger.blocks[h].block;
           b.height == h && b in y.delivered && Backed(y.certified, h, y.node.ledger.blocks[h])
  {
    hide CertInv, CandidateWake, ChainWake, VotersOk, BallotsOk, ProposalsLinked, Populated, RunNode;
    RunKeeps(cfg, es);
    var y := RunNode(cfg, es);
    forall h | h in y.node.ledger.blocks && h > 0
      ensures y.node.ledger.blocks[h].block in y.delivered
    {
      assert EntryOk(y.node.props.pending, y.certified, h, y.node.ledger.blocks[h]);
    }
  }

  /** Once a live node's goroutines have finished, it waits for the certificate of the next height and
      its committed chain is no longer than its candidate chain. */
  lemma QuiescentCommits(cfg: Config, es: seq<Event>)
    requires cfg.names != {} && Quiescent(RunNode(cfg, es)) && !RunNode(cfg, es).node.crashed
    ensures var y := RunNode(cfg, es);
      y.node.ledger.height + 1 !in y.node.ledger.pendingQC && y.node.ledger.height <= y.node.props.height
  {
    hide CertInv, VotersOk, BallotsOk, ProposalsLinked, Populated, RunNode;
    RunKeeps(cfg, es);
    var y := RunNode(cfg, es);
    assert !ExtensionInFlight(y.node.props.height, y.pool);
    assert forall h :: h in y.node.ledger.blocks && h > 0 ==> h in y.node.props.pending;
    assert y.node.props.height + 1 !in y.node.props.pending;
  }

  /** `e` runs the ancestor commit of a certificate that comes late: its block is at or below the committed
      height, its parent is a candidate and the two chains differ in length. */
  predicate CommitsLate(cfg: Config, y: Sys, e: Event) {
    && e.Run? && e.task.CommitAncestors? && CanHappen(cfg, y, e)
    && ParentIsCandidate(y.node.props, y.node.ledger, e.task.cert)
    && e.task.cert.block.height <= y.node.ledger.height
  }

  /** What a waiting certificate commits: in every run, extending the chain makes the certificate entered for
      the next height, and nothing else, the entry of that height, whatever was there before, and leaves all
      other entries and certificates; with none waiting it changes nothing. */
  lemma {:induction false} ExtensionCommitsCertificate(cfg: Config, es: seq<Event>)
    requires cfg.names != {} && CanHappen(cfg, RunNode(cfg, es), Run(ExtendChain))
    ensures var y := RunNode(cfg, es);
      var l, l' := y.node.ledger, RunNode(cfg, es + [Run(ExtendChain)]).node.ledger;
      var h := l.height + 1;
      if h in l.pendingQC then
        && h in y.certified && h in l'.blocks && l'.blocks[h] == y.certified[h]
        && l'.blocks.Keys == l.blocks.Keys + {h} && (forall k :: k in l.blocks && k != h ==> l'.blocks[k] == l.blocks[k])
        && l'.height == h
        && l'.pendingQC.Keys == l.pendingQC.Keys - {h}
        && (forall k :: k in l'.pendingQC ==> l'.pendingQC[k] == l.pendingQC[k])
      else
        l' == l
  {
    hide Inv, CanHappen, AfterTask;
    assert (es + [Run(ExtendChain)])[..|es|] == es;
    RunKeeps(cfg, es);
    WaitingIsCertified(cfg, RunNode(cfg, es));
    AfterExtendChain(cfg, RunNode(cfg, es));
  }

  lemma WaitingIsCertified(cfg: Config, y: Sys)
    requires Inv(cfg, y)
    ensures forall h :: h in y.node.ledger.pendingQC ==> h in y.certified && y.certified[h] == y.node.ledger.pendingQC[h]
  {
    hide ProposalInv, LedgerOk, ChainWake, VotersOk, BallotsOk, ProposalsLinked, Populated, QuorumWake, OneCertificate;
  }

  predicate NoLateCommit(cfg: Config, es: seq<Event>) {
    es == [] || (NoLateCommit(cfg, es[..|es| - 1]) && !CommitsLate(cfg, RunNode(cfg, es[..|es| - 1]), es[|es| - 1]))
  }

  /** The committed height never falls during `es`. */
  predicate HeightNeverFalls(cfg: Config, es: seq<Event>) {
    es == [] || (HeightNeverFalls(cfg, es[..|es| - 1])
                 && RunNode(cfg, es[..|es| - 1]).node.ledger.height <= RunNode(cfg, es).node.ledger.height)
  }

  /** The committed chain ends at the committed height throughout `es`. */
  predicate AlwaysAligned(cfg: Config, es: seq<Event>) {
    && |RunNode(cfg, es).node.ledger.blocks| == RunNode(cfg, es).node.ledger.height + 1
    && (es == [] || AlwaysAligned(cfg, es[..|es| - 1]))
  }

  /** The effect of one event on the committed chain: it shrinks, leaving blocks above the committed
      height, exactly when the event commits late. */
  lemma StepAligned(cfg: Config, y: Sys, e: Event)
    requires Shape(y.node.props) && Gapless(y.node.ledger.blocks)
    requires |y.node.ledger.blocks| == y.node.ledger.height + 1
    ensures var l, l' := y.node.ledger, Step(cfg, y, e).node.ledger;
      && (l'.height < l.height <==> CommitsLate(cfg, y, e))
      && (|l'.blocks| == l'.height + 1 <==> !CommitsLate(cfg, y, e))
  {
    hide Shape, Gapless, ParentIsCandidate, CommitAncestorsLedger, RunTask, Enabled, Candidate;
    if e.Run? && CanHappen(cfg, y, e) {
      TaskLedger(cfg, y.node, e.task);
      match e.task
      case CommitAncestors(c) => CommitAligned(y.node.props, y.node.ledger, c);
      case ExtendChain => ExtendAligned(y.node.ledger);
      case _ =>
    }
  }

  /** Only the ancestor commit and the extension of the chain move the committed chain. */
  lemma TaskLedger(cfg: Config, s: NodeState, t: Task)
    ensures var l' := RunTask(cfg, s, t).node.ledger;
      match t
      case CommitAncestors(c) =>
        var r := CommitAncestorsLedger(s.props, s.ledger, c);
        l' == if r.Some? then r.value else s.ledger
      case ExtendChain => l' == ExtendLedger(s.ledger)
      case _ => l'.blocks == s.ledger.blocks && l'.height == s.ledger.height
  {
    hide CommitAncestorsLedger, ExtendLedger;
  }

  lemma ExtendAligned(l: Ledger)
    requires Gapless(l.blocks) && |l.blocks| == l.height + 1
    ensures l.height <= ExtendLedger(l).height && |ExtendLedger(l).blocks| == ExtendLedger(l).height + 1
  {
  }

  lemma CommitAligned(p: Proposals, l: Ledger, c: CertBlock)
    requires Shape(p) && Gapless(l.blocks) && |l.blocks| == l.height + 1
    ensures var r := CommitAncestorsLedger(p, l, c);
      var late := ParentIsCandidate(p, l, c) && c.block.height <= l.height;
      && (r.None? ==> !late)
      && (r.Some? ==> (r.value.height < l.height <==> late) && (|r.value.blocks| == r.value.height + 1 <==> !late))
  {
    CommitAncestorsCommits(p, l, c);
    if ParentIsCandidate(p, l, c) && CommitAncestorsLedger(p, l, c).Some? {
      var l' := CommitAncestorsLedger(p, l, c).value;
      KeysUpTo(l'.blocks, if c.block.height - 1 < |l.blocks| then |l.blocks| else c.block.height);
    }
  }

  lemma LedgerFacts(cfg: Config, es: seq<Event>)
    requires cfg.names != {}
    ensures Shape(RunNode(cfg, es).node.props) && Gapless(RunNode(cfg, es).node.ledger.blocks)
  {
    hide CertInv, Deliveries, CandidateWake, ChainWake, VotersOk, BallotsOk, ProposalsLinked, Populated, RunNode;
    RunKeeps(cfg, es);
  }

  /** The committed chain ends at the committed height throughout a run exactly when no commit of the run
      is late. */
  lemma {:induction false} AlignedIffNoLateCommit(cfg: Config, es: seq<Event>)
    requires cfg.names != {}
    ensures AlwaysAligned(cfg, es) <==> NoLateCommit(cfg, es)
  {
    if es == [] {
      KeysUpTo(INITIAL_NODE.ledger.blocks, 1);
    } else {
      var init, last := es[..|es| - 1], es[|es| - 1];
      AlignedIffNoLateCommit(cfg, init);
      LedgerFacts(cfg, init);
      if AlwaysAligned(cfg, init) {
        StepAligned(cfg, RunNode(cfg, init), last);
      }
    }
  }

  /** The committed height never falls in a run exactly when no commit of the run is late. */
  lemma {:induction false} NeverFallsIffNoLateCommit(cfg: Config, es: seq<Event>)
    requires cfg.names != {}
    ensures HeightNeverFalls(cfg, es) <==> NoLateCommit(cfg, es)
  {
    if es != [] {
      var init, last := es[..|es| - 1], es[|es| - 1];
      NeverFallsIffNoLateCommit(cfg, init);
      if NoLateCommit(cfg, init) {
        AlignedIffNoLateCommit(cfg, init);
        LedgerFacts(cfg, init);
        StepAligned(cfg, RunNode(cfg, init), last);
      }
    }
  }

  /** Every certificate entered is committed or still waits. */
  ghost predicate CertificatesKept(y: Sys) {
    forall h :: h in y.certified ==> h <= y.node.ledger.height || h in y.node.ledger.pendingQC
  }

  lemma StepKeepsCertificates(cfg: Config, y: Sys, e: Event)
    requires Shape(y.node.props) && CertificatesKept(y) && !CommitsLate(cfg, y, e)
    requires e.Run? && e.task.InsertQC? && CanHappen(cfg, y, e) ==> e.task.cert.block.height !in y.node.ledger.pendingQC
    ensures CertificatesKept(Step(cfg, y, e))
  {
    if e.Run? && CanHappen(cfg, y, e) {
      match e.task
      case CommitAncestors(c) => CommitAncestorsCommits(y.node.props, y.node.ledger, c);
      case ExtendChain =>
      case InsertQC(c) =>
      case _ =>
    }
  }

  lemma {:induction false} RunKeepsCertificates(cfg: Config, es: seq<Event>)
    requires cfg.names != {} && NoLateCommit(cfg, es)
    ensures CertificatesKept(RunNode(cfg, es))
  {
    hide Inv, Step, CertificatesKept;
    if es == [] {
      InitialKept();
    } else {
      var y, e := RunNode(cfg, es[..|es| - 1]), es[|es| - 1];
      RunKeepsCertificates(cfg, es[..|es| - 1]);
      LedgerFacts(cfg, es[..|es| - 1]);
      RunKeeps(cfg, es[..|es| - 1]);
      if e.Run? && e.task.InsertQC? && CanHappen(cfg, y, e) {
        EntersNew(cfg, y, e.task.cert);
      }
      StepKeepsCertificates(cfg, y, e);
    }
  }

  lemma InitialKept()
    ensures CertificatesKept(INITIAL_SYS)
  {
  }

  /** Commit completeness: in a run without late commits, a live node that has finished and has entered
      certificates for every height up to `k` has committed at least `k`. */
  lemma {:induction false} CommitsAreComplete(cfg: Config, es: seq<Event>, k: nat)
    requires cfg.names != {} && Quiescent(RunNode(cfg, es)) && !RunNode(cfg, es).node.crashed
    requires NoLateCommit(cfg, es)
    requires forall h: nat :: 1 <= h <= k ==> h in RunNode(cfg, es).certified
    ensures RunNode(cfg, es).node.ledger.height >= k
    ensures |RunNode(cfg, es).node.ledger.blocks| == RunNode(cfg, es).node.ledger.height + 1
  {
    hide Inv, RunNode, Quiescent;
    RunKeepsCertificates(cfg, es);
    QuiescentCommits(cfg, es);
    AlignedIffNoLateCommit(cfg, es);
  }

  // ---------- Crashes ----------

  /** `e` runs the ancestor commit of a certificate whose parent is a candidate, but which has no ancestor
      in the candidate chain at some height between the committed one and the parent's. */
  predicate MissesAncestor(cfg: Config, y: Sys, e: Event) {
    && e.Run? && e.task.CommitAncestors? && CanHappen(cfg, y, e)
    && var c := e.task.cert;
       && ParentIsCandidate(y.node.props, y.node.ledger, c)
       && exists k :: y.node.ledger.height < k < c.block.height && !HeldAncestor(y.node.props, c.block, k)
  }

  lemma StepCrashesIff(cfg: Config, y: Sys, e: Event)
    requires Inv(cfg, y) && !y.node.crashed
    ensures Step(cfg, y, e).node.crashed <==> MissesAncestor(cfg, y, e)
  {
    hide Inv, CommitAncestorsLedger, ParentIsCandidate, HeldAncestor;
    if e.Run? && CanHappen(cfg, y, e) {
      match e.task
      case CommitAncestors(c) =>
        ShapeHolds(cfg, y);
        CommitAncestorsCommits(y.node.props, y.node.ledger, c);
      case BuildQC(h, x) => BuildQCKeeps(cfg, y, h, x);
      case _ =>
    }
  }

  lemma ShapeHolds(cfg: Config, y: Sys)
    requires Inv(cfg, y)
    ensures Shape(y.node.props)
  {
    hide CertInv, LedgerOk, ChainWake, VotersOk, BallotsOk, ProposalsLinked, Populated;
  }

  /** A node dereferences nil in exactly one way: the walk of an ancestor commit reaches a block the
      candidate chain does not hold. No other section of any run does, building a certificate included. */
  lemma CrashesIffMissingAncestor(cfg: Config, es: seq<Event>)
    requires cfg.names != {}
    ensures RunNode(cfg, es).node.crashed <==>
      exists n: nat :: n < |es| && MissesAncestor(cfg, RunNode(cfg, es[..n]), es[n])
  {
    hide Inv, MissesAncestor, Step;
    if es != [] {
      var init, last := es[..|es| - 1], es[|es| - 1];
      CrashesIffMissingAncestor(cfg, init);
      RunKeeps(cfg, init);
      forall n: nat | n < |init|
        ensures MissesAncestor(cfg, RunNode(cfg, es[..n]), es[n]) == MissesAncestor(cfg, RunNode(cfg, init[..n]), init[n])
      {
        assert init[..n] == es[..n] && init[n] == es[n];
      }
      var y := RunNode(cfg, init);
      if y.node.crashed {
        CrashIsFinal(cfg, y, last);
        var n: nat :| n < |init| && MissesAncestor(cfg, RunNode(cfg, init[..n]), init[n]);
        assert MissesAncestor(cfg, RunNode(cfg, es[..n]), es[n]);
      } else {
        StepCrashesIff(cfg, y, last);
        assert MissesAncestor(cfg, y, last) == MissesAncestor(cfg, RunNode(cfg, es[..|init|]), es[|init|]);
      }
    }
  }
}
