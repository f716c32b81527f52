/** A run in which the committed height falls: an honest node handles the certificate of height 2 before that
    of height 1, while its candidate chain is one block longer than its committed one. */
module LateCommit {
  import opened Blocks
  import opened NodeSpec
  import opened NodeRuns
  import opened Cluster
  import opened FourNodes

  const B1 := Block("x", 1, Digest(GENESIS), Cmds([]))
  const B2 := Block("x", 2, Digest(B1), Cmds([]))
  const B3 := Block("x", 3, Digest(B2), Cmds([]))

  /** Nodes a and b receive the three blocks and vote for them; a then certifies block 2. */
  const PROPOSALS := AllAt("a", ReceiveThree(B1, B2, B3)) + AllAt("b", ReceiveThree(B1, B2, B3))
  const FIRST_PART := PROPOSALS + AllAt("a", CertifyOn(B2))
  /** The votes for block 1 reach a last. */
  const LATE_RUN := FIRST_PART + AllAt("a", CertifyOn(B1))

  const P3 := Proposed(B1, B2, B3)
  const GENESIS_ENTRY := CertBlock(GENESIS, EmptyQC)
  const BLOCKS_TO_2 := map[0 := GENESIS_ENTRY, 1 := CertBlock(B1, CertOf(B2).qc), 2 := CertOf(B2)]

  /** Certificate 2 commits block 1 as an ancestor and waits for the chain to be extended. */
  lemma SecondFirst(y: Sys)
    requires y.node.props == P3 && y.node.ledger == INITIAL_NODE.ledger
    ensures Committed(y, B2) ==
      Some(Ledger(map[2 := CertOf(B2)], map[0 := GENESIS_ENTRY, 1 := CertBlock(B1, CertOf(B2).qc)], 1))
  {
  }

  /** Certificate 1 then resets the committed height to 0. */
  lemma FirstLate(y: Sys)
    requires y.node.props == P3 && y.node.ledger == Ledger(map[], BLOCKS_TO_2, 2)
    ensures Committed(y, B1) == Some(Ledger(map[1 := CertOf(B1)], BLOCKS_TO_2, 0))
  {
  }

  lemma FreshIn(y: Sys, b: Block)
    requires b in {B1, B2} && y.node.props == P3 && Live(y)
    requires b.height !in y.node.tally.qcCreated && b.height !in y.node.ledger.pendingQC
    requires BallotsAt(y.node.tally.sigs, b.height, Digest(b)) == map[]
    ensures Fresh(y, b)
  {
  }

  lemma BothPropose()
    ensures var c := RunCluster(NAMES, HONEST, PROPOSALS);
      && VotesCast(c, B1) && VotesCast(c, B2)
      && c["a"].node == INITIAL_NODE.(props := P3, voted := {1, 2, 3})
      && c["a"].certified == map[] && Quiescent(c["a"])
  {
    hide RunFrom, RunCluster, Proposed;
    ReceivesThree("a", B1, B2, B3);
    ReceivesThree("b", B1, B2, B3);
    BothRun(ReceiveThree(B1, B2, B3));
  }

  lemma SecondCertified()
    ensures var c := RunCluster(NAMES, HONEST, FIRST_PART);
      && VotesCast(c, B1) && Quiescent(c["a"]) && Fresh(c["a"], B1)
      && c["a"].node.props == P3 && c["a"].node.ledger == Ledger(map[], BLOCKS_TO_2, 2)
      && c["a"].certified == map[2 := CertOf(B2)]
  {
    hide RunFrom, RunCluster, CertifyOn, Gathered, P3, Fresh, Committed;
    BothPropose();
    var c := RunCluster(NAMES, HONEST, PROPOSALS);
    FreshIn(c["a"], B2);
    SecondFirst(c["a"]);
    CertifiesOn("a", c["a"], B2);
    GatheredBallots(c["a"].node.tally.sigs, B2);
    CollectAuthentic(c, B2);
    ClusterRunsNode(NAMES, HONEST, PROPOSALS, "a", CertifyOn(B2));
    FreshIn(RunCluster(NAMES, HONEST, FIRST_PART)["a"], B1);
  }

  /** In a cluster within its fault bound, an honest node's committed height reaches 2 and falls back to 1.
      The node has come to rest, with certificates for both heights entered and none left waiting. */
  lemma CommittedHeightFalls()
    ensures FaultBound(NAMES, HONEST) && "a" in HONEST
    ensures RunCluster(NAMES, HONEST, FIRST_PART)["a"].node.ledger.height == 2
    ensures var y := RunCluster(NAMES, HONEST, LATE_RUN)["a"];
      && y.node.ledger.height == 1 && y.node.ledger.pendingQC == map[]
      && y.certified.Keys == {1, 2} && Quiescent(y) && !y.node.crashed
  {
    hide RunFrom, RunCluster, CertifyOn, Gathered, P3, Fresh;
    OneFaulty();
    SecondCertified();
    var c := RunCluster(NAMES, HONEST, FIRST_PART);
    FirstLate(c["a"]);
    FreshLive(c["a"], B1);
    CertifiesOn("a", c["a"], B1);
    CollectAuthentic(c, B1);
    ClusterRunsNode(NAMES, HONEST, FIRST_PART, "a", CertifyOn(B1));
  }
}
