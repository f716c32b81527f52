/** A run in which two honest nodes commit different blocks at one height. Block 1 and a block of height 2 are
    certified, but the latter extends another block of height 1. Node a handles the certificate of height 1
    first, node b that of height 2. */
module Disagreement {
  import opened Blocks
  import opened NodeSpec
  import opened NodeRuns
  import opened Cluster
  import opened FourNodes

  const B1 := Block("x", 1, Digest(GENESIS), Cmds([]))
  /** Another block of height 1. */
  const F1 := Block("x", 1, Digest(GENESIS), Cmds([Request(None, "x", 0)]))
  const F2 := Block("x", 2, Digest(F1), Cmds([]))

  /** A node votes for B1, hears of F1 too late to vote for it, and votes for F2. */
  const RECEIVE := ReceiveNew(B1) + ReceiveLate(F1) + ReceiveNew(F2)
  const PROPOSALS := AllAt("a", RECEIVE) + AllAt("b", RECEIVE)
  const A_DONE := PROPOSALS + AllAt("a", CertifyOn(B1) + CertifyOn(F2))
  const FORK_RUN := A_DONE + AllAt("b", CertifyOn(F2) + Certify(B1))

  const PROPS := Proposals(map[1 := map[Digest(B1) := B1, Digest(F1) := F1], 2 := map[Digest(F2) := F2]],
                           INITIAL_NODE.props.level0, 2)
  const GENESIS_ENTRY := CertBlock(GENESIS, EmptyQC)
  const A_BLOCKS := map[0 := GENESIS_ENTRY, 1 := CertOf(B1), 2 := CertOf(F2)]
  const B_BLOCKS := map[0 := GENESIS_ENTRY, 1 := CertBlock(F1, CertOf(F2).qc), 2 := CertOf(F2)]

  lemma Receives(me: Name)
    ensures var y := RunFrom(Cfg(me), INITIAL_SYS, RECEIVE);
      && y.node == INITIAL_NODE.(props := PROPS, voted := {1, 2})
      && y.certified == map[] && y.pool == multiset{SendToken, SendToken} && y.delivered == {B1, F1, F2}
      && Ballot(MyVote(me, B1)) in y.sent && Ballot(MyVote(me, F2)) in y.sent
  {
    hide RunFrom, ReceiveNew, ReceiveLate;
    var cfg := Cfg(me);
    ReceivesNew(me, INITIAL_SYS, B1);
    var y1 := ReceivedNew(me, INITIAL_SYS, B1);
    ReceivesLate(me, y1, F1);
    RunFromConcat(cfg, INITIAL_SYS, ReceiveNew(B1), ReceiveLate(F1));
    var y2 := y1.(node := y1.node.(props := AddPending(y1.node.props, F1)), delivered := y1.delivered + {F1});
    ReceivesNew(me, y2, F2);
    RunFromConcat(cfg, INITIAL_SYS, ReceiveNew(B1) + ReceiveLate(F1), ReceiveNew(F2));
  }

  lemma BothReceive()
    ensures var c := RunCluster(NAMES, HONEST, PROPOSALS);
      && VotesCast(c, B1) && VotesCast(c, F2)
      && forall me | me in {"a", "b"} :: c[me].node == INITIAL_NODE.(props := PROPS, voted := {1, 2})
           && c[me].certified == map[] && Quiescent(c[me]) && c[me].delivered == {B1, F1, F2}
  {
    hide RunFrom, RunCluster, PROPS;
    Receives("a");
    Receives("b");
    assert FromX(RECEIVE);
    BothRun(RECEIVE);
  }

  lemma FreshIn(y: Sys, b: Block)
    requires b in {B1, F2} && y.node.props == PROPS && Live(y)
    requires b.height !in y.node.tally.qcCreated && b.height !in y.node.ledger.pendingQC
    requires BallotsAt(y.node.tally.sigs, b.height, Digest(b)) == map[]
    ensures Fresh(y, b)
  {
  }

  /** The ancestor commit of B1 has nothing to commit below it. */
  lemma FirstAlone(y: Sys)
    requires y.node.props == PROPS && y.node.ledger == INITIAL_NODE.ledger
    ensures Committed(y, B1) == Some(Ledger(map[1 := CertOf(B1)], map[0 := GENESIS_ENTRY], 0))
  {
  }

  /** Nor has that of F2, once height 1 is committed: the block there is not looked at. */
  lemma SecondOnFirst(y: Sys)
    requires y.node.props == PROPS && y.node.ledger == Ledger(map[], map[0 := GENESIS_ENTRY, 1 := CertOf(B1)], 1)
    ensures Committed(y, F2) == Some(Ledger(map[2 := CertOf(F2)], map[0 := GENESIS_ENTRY, 1 := CertOf(B1)], 1))
  {
  }

  /** With nothing committed it commits F1, the block that F2 extends. */
  lemma SecondAlone(y: Sys)
    requires y.node.props == PROPS && y.node.ledger == INITIAL_NODE.ledger
    ensures Committed(y, F2) ==
      Some(Ledger(map[2 := CertOf(F2)], map[0 := GENESIS_ENTRY, 1 := CertBlock(F1, CertOf(F2).qc)], 1))
  {
  }

  /** B1 then finds the two chains equally long. */
  lemma FirstTooLate(y: Sys)
    requires y.node.props == PROPS && y.node.ledger == Ledger(map[], B_BLOCKS, 2)
    ensures Committed(y, B1) == Some(Ledger(map[1 := CertOf(B1)], B_BLOCKS, 2))
  {
  }

  /** Node a: block 1 is committed directly, then block 2 on top of it. */
  lemma InOrder(y: Sys)
    requires y.node == INITIAL_NODE.(props := PROPS, voted := {1, 2}) && y.certified == map[]
    ensures var y' := RunFrom(Cfg("a"), y, CertifyOn(B1) + CertifyOn(F2));
      && y'.node.ledger == Ledger(map[], A_BLOCKS, 2) && y'.pool == y.pool && y'.delivered == y.delivered
      && y'.certified == map[1 := CertOf(B1), 2 := CertOf(F2)]
  {
    hide RunFrom, CertifyOn, Gathered, PROPS, Fresh, Committed;
    FreshIn(y, B1);
    FirstAlone(y);
    CertifiesOn("a", y, B1);
    GatheredBallots(y.node.tally.sigs, B1);
    var y1 := RunFrom(Cfg("a"), y, CertifyOn(B1));
    assert y1.node.ledger == Ledger(map[], map[0 := GENESIS_ENTRY, 1 := CertOf(B1)], 1);
    FreshIn(y1, F2);
    SecondOnFirst(y1);
    CertifiesOn("a", y1, F2);
    RunFromConcat(Cfg("a"), y, CertifyOn(B1), CertifyOn(F2));
  }

  /** Node b: the other block 1 is committed as the ancestor of block 2. The certificate of B1 then waits for a
      height that is committed already. */
  lemma OutOfOrder(y: Sys)
    requires y.node == INITIAL_NODE.(props := PROPS, voted := {1, 2}) && y.certified == map[]
    ensures var y' := RunFrom(Cfg("b"), y, CertifyOn(F2) + Certify(B1));
      && y'.node.ledger == Ledger(map[1 := CertOf(B1)], B_BLOCKS, 2) && y'.pool == y.pool && y'.delivered == y.delivered
      && y'.certified == map[1 := CertOf(B1), 2 := CertOf(F2)]
  {
    hide RunFrom, CertifyOn, Certify, Gathered, PROPS, Fresh, Committed;
    FreshIn(y, F2);
    SecondAlone(y);
    CertifiesOn("b", y, F2);
    GatheredBallots(y.node.tally.sigs, F2);
    var y1 := RunFrom(Cfg("b"), y, CertifyOn(F2));
    assert y1.node.ledger == Ledger(map[], B_BLOCKS, 2);
    FreshIn(y1, B1);
    FirstTooLate(y1);
    Certifies("b", y1, B1);
    RunFromConcat(Cfg("b"), y, CertifyOn(F2), Certify(B1));
  }

  /** In a cluster within its fault bound, two honest nodes that have come to rest, having received the same
      blocks and entered the same certificates, have committed different blocks at height 1. Node a has committed
      a block on another one than it extends. */
  lemma HonestNodesDisagree()
    ensures FaultBound(NAMES, HONEST) && "a" in HONEST && "b" in HONEST
    ensures var c := RunCluster(NAMES, HONEST, FORK_RUN);
      && Quiescent(c["a"]) && Quiescent(c["b"])
      && c["a"].delivered == c["b"].delivered && c["a"].certified == c["b"].certified
      && c["a"].node.ledger.height == c["b"].node.ledger.height == 2
      && c["a"].node.ledger.blocks == A_BLOCKS && c["b"].node.ledger.blocks == B_BLOCKS
      && A_BLOCKS[1].block != B_BLOCKS[1].block
      && A_BLOCKS[2].block.prev != Digest(A_BLOCKS[1].block)
  {
    hide RunFrom, RunCluster, CertifyOn, Certify, PROPS;
    OneFaulty();
    BothReceive();
    var c := RunCluster(NAMES, HONEST, PROPOSALS);
    InOrder(c["a"]);
    CollectAuthentic(c, B1);
    CollectAuthentic(c, F2);
    ClusterRunsNode(NAMES, HONEST, PROPOSALS, "a", CertifyOn(B1) + CertifyOn(F2));
    var c' := RunCluster(NAMES, HONEST, A_DONE);
    OutOfOrder(c'["b"]);
    CollectAuthentic(c', B1);
    CollectAuthentic(c', F2);
    ClusterRunsNode(NAMES, HONEST, A_DONE, "b", CertifyOn(F2) + Certify(B1));
  }
}
