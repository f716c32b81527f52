/** A run in which an honest node is brought down: the faulty member's block of height 2 extends nothing, a
    block on top of it is certified, and the ancestor commit looks for a block of height 1 that is not there. */
module MissingAncestor {
  import opened Blocks
  import opened NodeSpec
  import opened NodeRuns
  import opened Cluster
  import opened FourNodes

  const X1 := Block("x", 1, Digest(GENESIS), Cmds([]))
  const X2 := Block("x", 2, Raw([]), Cmds([]))
  const X3 := Block("x", 3, Digest(X2), Cmds([]))

  /** Nodes a and b receive the three blocks and vote for them; a certifies block 3. */
  const PROPOSALS := AllAt("a", ReceiveThree(X1, X2, X3)) + AllAt("b", ReceiveThree(X1, X2, X3))
  const CERTIFICATE := PROPOSALS + AllAt("a", Collect(X3))
  const COMMIT := At("a", Run(CommitAncestors(CertOf(X3))))

  lemma BothPropose()
    ensures var c := RunCluster(NAMES, HONEST, PROPOSALS);
      && VotesCast(c, X3)
      && c["a"].node == INITIAL_NODE.(props := Proposed(X1, X2, X3), voted := {1, 2, 3})
  {
    hide RunFrom, RunCluster, Proposed;
    ReceivesThree("a", X1, X2, X3);
    ReceivesThree("b", X1, X2, X3);
    BothRun(ReceiveThree(X1, X2, X3));
  }

  lemma ThirdCertified()
    ensures var y := RunCluster(NAMES, HONEST, CERTIFICATE)["a"];
      && Live(y) && CommitAncestors(CertOf(X3)) in y.pool
      && y.node.props == Proposed(X1, X2, X3) && y.node.ledger == WithWaiting(INITIAL_NODE.ledger, X3)
  {
    hide RunFrom, RunCluster, Collect, Gathered;
    BothPropose();
    var c := RunCluster(NAMES, HONEST, PROPOSALS);
    Collects("a", c["a"], X3);
    CollectAuthentic(c, X3);
    ClusterRunsNode(NAMES, HONEST, PROPOSALS, "a", Collect(X3));
  }

  /** The walk commits X2 and finds nothing to go on with at height 1. */
  lemma WalkFails()
    ensures CommitAncestorsLedger(Proposed(X1, X2, X3), WithWaiting(INITIAL_NODE.ledger, X3), CertOf(X3)) == None
  {
  }

  /** In a cluster within its fault bound, an honest node that is alive and has a certificate to handle
      dereferences nil while it commits the ancestors. */
  lemma HonestNodeCrashes()
    ensures FaultBound(NAMES, HONEST) && "a" in HONEST
    ensures !RunCluster(NAMES, HONEST, CERTIFICATE)["a"].node.crashed
    ensures RunCluster(NAMES, HONEST, CERTIFICATE + [COMMIT])["a"].node.crashed
  {
    hide RunCluster, CommitAncestorsLedger;
    OneFaulty();
    ThirdCertified();
    WalkFails();
    ClusterOneMore(CERTIFICATE, COMMIT);
  }

  lemma ClusterOneMore(es: seq<ClusterEvent>, e: ClusterEvent)
    ensures RunCluster(NAMES, HONEST, es + [e]) == ClusterStep(NAMES, RunCluster(NAMES, HONEST, es), e)
  {
    assert (es + [e])[..|es|] == es;
  }
}
