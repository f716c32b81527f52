/** What the proposal loop does with a token: which block it builds on, what it proposes, and that it is not starved. */
module Proposing {
  import opened Blocks
  import opened NodeSpec
  import opened NodeRuns
  import opened ProposalInvariants
  import opened CertInvariants
  import opened LedgerInvariants
  import opened SenderInvariants
  import opened NodeInvariants
  import opened Confluence
  import opened NodeImpl
  import opened Execution
  import Requests
  import SortitionRounds

  lemma TopLevel(cfg: Config, y: Sys, b: Block)
    requires Inv(cfg, y)
    ensures b in Candidate(y.node.props, y.node.props.height).Values <==>
      b.height == y.node.props.height && Digest(b) in Candidate(y.node.props, y.node.props.height)
  {
    hide CertInv, LedgerOk, ChainWake, VotersOk, BallotsOk, ProposalsLinked, Deliveries, CandidateWake;
    var p := y.node.props;
    assert LevelOk(Candidate(p, p.height), p.height);
    if Digest(b) in Candidate(p, p.height) {
      assert Candidate(p, p.height)[Digest(b)] == b;
    }
  }

  /** The parent of a proposal is chosen from the highest candidate level, and any block of it can be. */
  lemma {:induction false} ParentIsTopCandidate(cfg: Config, es: seq<Event>, b: Block)
    requires cfg.names != {} && RunNode(cfg, es).loop.Holding? && !RunNode(cfg, es).node.crashed
    ensures var p := RunNode(cfg, es).node.props;
      RunNode(cfg, es + [ChooseParent(b)]).loop == Chosen(b) <==>
        b.height == p.height && Digest(b) in Candidate(p, p.height)
  {
    hide Inv, RunNode, Candidate;
    OneMore(cfg, es, ChooseParent(b));
    RunKeeps(cfg, es);
    TopLevel(cfg, RunNode(cfg, es), b);
  }

  /** What a win proposes, field by field, and that it is broadcast. */
  lemma {:induction false} WinProposes(cfg: Config, es: seq<Event>, cmds: seq<Request>)
    requires CanHappen(cfg, RunNode(cfg, es), Win(cmds))
    ensures var y, y' := RunNode(cfg, es), RunNode(cfg, es + [Win(cmds)]);
      && y.loop.Chosen? && y'.loop.Waiting?
      && |y'.proposed| == |y.proposed| + 1 && y'.proposed[..|y.proposed|] == y.proposed
      && var b := y'.proposed[|y.proposed|];
         && b.proposer == cfg.me
         && b.height == y.loop.parent.height + 1
         && b.prev == Digest(y.loop.parent)
         && b.cmds == Cmds(cmds)
         && y'.sent == y.sent + {Proposal(b)}
  {
    hide RunNode;
    OneMore(cfg, es, Win(cmds));
  }

  /** A lost sortition proposes nothing and gives the token back. */
  lemma {:induction false} LoseGivesTokenBack(cfg: Config, es: seq<Event>)
    requires CanHappen(cfg, RunNode(cfg, es), Lose)
    ensures var y, y' := RunNode(cfg, es), RunNode(cfg, es + [Lose]);
      && y'.loop.Waiting? && y'.proposed == y.proposed && y'.sent == y.sent
      && y'.pool[SendToken] == y.pool[SendToken] + 1 && y'.node == y.node
  {
    hide RunNode;
    OneMore(cfg, es, Lose);
  }

  /** While nothing wins or loses, a chosen parent stays chosen. */
  lemma {:induction false} ParentKept(cfg: Config, y: Sys, mid: seq<Event>)
    requires y.loop.Chosen? && forall e :: e in mid ==> !e.Win? && !e.Lose?
    ensures RunFrom(cfg, y, mid).loop == y.loop
  {
    hide RunTask, Enabled, Candidate;
    if mid != [] {
      ParentKept(cfg, y, mid[..|mid| - 1]);
    }
  }

  /** A node that wins while its candidate chain is as high as when it chose the parent proposes the next
      height, whatever happens in between. */
  lemma {:induction false} ProposesNextHeight(cfg: Config, es: seq<Event>, b: Block, mid: seq<Event>, cmds: seq<Request>)
    requires cfg.names != {} && RunNode(cfg, es).loop.Holding?
    requires CanHappen(cfg, RunNode(cfg, es), ChooseParent(b)) && forall e :: e in mid ==> !e.Win? && !e.Lose?
    requires var y := RunNode(cfg, es + [ChooseParent(b)] + mid);
      CanHappen(cfg, y, Win(cmds)) && y.node.props.height == RunNode(cfg, es).node.props.height
    ensures var y' := RunNode(cfg, es + [ChooseParent(b)] + mid + [Win(cmds)]);
      && y'.proposed != []
      && var c := y'.proposed[|y'.proposed| - 1];
         c.height == RunNode(cfg, es).node.props.height + 1 && c.prev == Digest(b) && c.cmds == Cmds(cmds)
  {
    hide RunFrom, Inv, Candidate;
    OneMore(cfg, es, ChooseParent(b));
    RunKeeps(cfg, es);
    TopLevel(cfg, RunNode(cfg, es), b);
    RunFromConcat(cfg, INITIAL_SYS, es + [ChooseParent(b)], mid);
    ParentKept(cfg, RunNode(cfg, es + [ChooseParent(b)]), mid);
    WinProposes(cfg, es + [ChooseParent(b)] + mid, cmds);
  }

  lemma TaskSends(cfg: Config, s: NodeState, t: Task)
    ensures RunTask(cfg, s, t).sent.Some? ==> RunTask(cfg, s, t).sent.value.Ballot?
  {
  }

  /** The proposals a node has broadcast are those it has made, no more and no fewer. */
  lemma {:induction false} SentAreProposed(cfg: Config, es: seq<Event>)
    ensures forall b :: Proposal(b) in RunNode(cfg, es).sent <==> b in RunNode(cfg, es).proposed
  {
    hide RunTask, Enabled, Candidate;
    if es != [] {
      SentAreProposed(cfg, es[..|es| - 1]);
      var y, e := RunNode(cfg, es[..|es| - 1]), es[|es| - 1];
      if e.Run? {
        TaskSends(cfg, y.node, e.task);
      }
    }
  }

  /** The loop is not starved: as long as a live node has made no more proposals than its candidate chain is
      high, a waiting loop finds a token, or a sender can put one into the channel. */
  lemma {:induction false} LoopNotStarved(cfg: Config, es: seq<Event>)
    requires cfg.names != {} && RunNode(cfg, es).loop.Waiting? && !RunNode(cfg, es).node.crashed
    requires |RunNode(cfg, es).proposed| <= RunNode(cfg, es).node.props.height
    ensures CanHappen(cfg, RunNode(cfg, es), TakeToken) || CanHappen(cfg, RunNode(cfg, es), Run(SendToken))
  {
    hide RunNode;
    TokensConserved(cfg, es);
  }

  // ---------- One turn of the loop, in place ----------

  /** The three events of a turn. */
  function Turn(parent: Block, win: bool, cmds: seq<Request>): seq<Event> {
    [TakeToken] + [ChooseParent(parent)] + [if win then Win(cmds) else Lose]
  }

  function AfterTurn(cfg: Config, y: Sys, parent: Block, win: bool, cmds: seq<Request>): Sys {
    RunFrom(cfg, y, Turn(parent, win, cmds))
  }

  lemma TurnRuns(cfg: Config, y: Sys, parent: Block, win: bool, cmds: seq<Request>)
    requires !y.node.crashed && y.loop.Waiting? && y.node.channel > 0
    requires parent in Candidate(y.node.props, y.node.props.height).Values
    ensures var y', b := AfterTurn(cfg, y, parent, win, cmds), NewBlock(cfg.me, parent, cmds);
      && y'.node == y.node.(channel := y.node.channel - 1)
      && OutsideOf(y') ==
           if win then OutsideOf(y).(sent := y.sent + {Proposal(b)}, proposed := y.proposed + [b])
           else OutsideOf(y).(pool := y.pool + multiset{SendToken})
  {
    hide Candidate, RunFrom;
    var e := if win then Win(cmds) else Lose;
    RunFromConcat(cfg, y, [TakeToken] + [ChooseParent(parent)], [e]);
    RunFromConcat(cfg, y, [TakeToken], [ChooseParent(parent)]);
    RunFromOne(cfg, y, TakeToken);
    var y1 := y.(loop := Holding, node := y.node.(channel := y.node.channel - 1));
    assert Step(cfg, y, TakeToken) == y1;
    RunFromOne(cfg, y1, ChooseParent(parent));
    var y2 := y1.(loop := Chosen(parent));
    assert Step(cfg, y1, ChooseParent(parent)) == y2;
    RunFromOne(cfg, y2, e);
  }

  lemma RunFromOne(cfg: Config, y: Sys, e: Event)
    ensures RunFrom(cfg, y, [e]) == Step(cfg, y, e)
  {
    hide Step;
    assert [e][..0] == [];
  }

  predicate TopCandidate(p: Proposals, b: Block) {
    b.height == p.height && Digest(b) in Candidate(p, p.height)
  }

  method ReceiveToken(n: Node, ghost s: NodeState)
    requires StandsFor(n, s) && !s.crashed && s.channel > 0
    modifies n`channel
    ensures StandsFor(n, s.(channel := s.channel - 1))
  {
    n.TakeTokenSection();
  }

  /** `selectBlock` finds a block of the highest candidate level; the panic of the loop is not reached. */
  method SelectParent(n: Node, ranNum: nat, ghost s: NodeState, ghost y: Sys) returns (parent: Block)
    requires StandsFor(n, s) && !s.crashed && Inv(n.cfg, y) && s.props == y.node.props
    requires ranNum < |Candidate(s.props, s.props.height)|
    ensures StandsFor(n, s)
    ensures TopCandidate(s.props, parent)
    ensures parent in Candidate(s.props, s.props.height).Values
  {
    hide Inv, Candidate;
    TopNotEmpty(n.cfg, y);
    assert n.Props() == s.props && n.candidateHeight == s.props.height;
    var selected := n.SelectBlock(ranNum);
    assert n.Props() == s.props;
    parent := selected.value;
    TopLevel(n.cfg, y, parent);
  }

  /** The round to start at `height` and, for a winner, the requests at the front of the pool. The node `n`, which
      stands for `t`, is left alone. */
  method LookUp(s: SortitionRounds.Sortition, requests: Requests.RequestPool, height: nat, win: bool,
                ghost n: Node, ghost t: NodeState)
    returns (nextRound: nat, reqs: seq<Request>)
    requires requests.Valid() && StandsFor(n, t)
    modifies s, requests
    ensures requests.Valid() && StandsFor(n, t)
    ensures SortitionRounds.NextRound(old(s.results), s.quorumNum, height, nextRound)
    ensures reqs + Requests.Items(requests.pool) == old(Requests.Items(requests.pool))
    ensures if win then |reqs| == 1000 || (|reqs| < 1000 && Requests.Items(requests.pool) == []) else reqs == []
  {
    nextRound := s.StartRound(height);
    reqs := [];
    if win {
      var batch := requests.TakeBatch();
      reqs := batch.buf[batch.off..batch.off + batch.len];
    }
  }

  /** One turn of `ProposeBlockLoop` once a token is there: a block of the highest candidate level is selected,
      the round is looked up, and a winner proposes a block with the requests at the front of the pool on top
      of it, while a loser gives the token back. */
  method ProposeTurn(n: Node, o: Outside, s: SortitionRounds.Sortition, requests: Requests.RequestPool,
                     ranNum: nat, win: bool, ghost y: Sys)
    returns (o': Outside, parent: Block, reqs: seq<Request>, nextRound: nat)
    requires StandsFor(n, y.node) && o == OutsideOf(y) && Inv(n.cfg, y) && !y.node.crashed
    requires y.loop.Waiting? && y.node.channel > 0 && requests.Valid()
    requires ranNum < |Candidate(y.node.props, y.node.props.height)|
    modifies n`channel, s, requests
    ensures StandsFor(n, AfterTurn(n.cfg, y, parent, win, reqs).node) && requests.Valid()
    ensures o' == OutsideOf(AfterTurn(n.cfg, y, parent, win, reqs))
    ensures TopCandidate(y.node.props, parent)
    ensures SortitionRounds.NextRound(old(s.results), s.quorumNum, parent.height + 1, nextRound)
    ensures reqs + Requests.Items(requests.pool) == old(Requests.Items(requests.pool))
    ensures if win then |reqs| == 1000 || (|reqs| < 1000 && Requests.Items(requests.pool) == []) else reqs == []
    ensures o'.sent ==
      if win then o.sent + {Proposal(Block(n.cfg.me, parent.height + 1, Digest(parent), Cmds(reqs)))} else o.sent
  {
    hide Candidate, Inv, AfterTurn, TopCandidate, StandsFor;
    ghost var s1 := y.node.(channel := y.node.channel - 1);
    ReceiveToken(n, y.node);
    parent := SelectParent(n, ranNum, s1, y);
    nextRound, reqs := LookUp(s, requests, parent.height + 1, win, n, s1);
    if win {
      var block := NewBlock(n.cfg.me, parent, reqs);
      o' := o.(sent := o.sent + {Proposal(block)}, proposed := o.proposed + [block]);
    } else {
      o' := o.(pool := o.pool + multiset{SendToken});
    }
    TurnRuns(n.cfg, y, parent, win, reqs);
  }
}
