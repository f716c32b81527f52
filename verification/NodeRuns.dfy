/** One node driven by deliveries and by its own goroutines in any order. */
module NodeRuns {
  import opened Blocks
  import opened NodeSpec

  /** Where `ProposeBlockLoop` stands: waiting for a token, holding one, or holding one and a chosen parent. */
  datatype Loop = Waiting | Holding | Chosen(parent: Block)

  /** A node, its goroutines and what has happened so far: the blocks delivered to it, the certificates
      it has entered into `pendingBlocksQC`, the messages it has broadcast and the blocks it has proposed. */
  datatype Sys = Sys(
    node: NodeState,
    pool: multiset<Task>,
    loop: Loop,
    delivered: set<Block>,
    certified: map<nat, CertBlock>,
    sent: set<Message>,
    proposed: seq<Block>)

  datatype Event =
    | Deliver(block: Block)
    | DeliverVote(vote: Vote)
    | Run(task: Task)
    | TakeToken
    | ChooseParent(parent: Block)
    | Win(cmds: seq<Request>)
    | Lose

  const INITIAL_SYS := Sys(INITIAL_NODE, multiset{}, Waiting, {}, map[], {}, [])

  /** Whether `e` can happen in `y`; a message from outside the cluster fails signature verification. */
  predicate CanHappen(cfg: Config, y: Sys, e: Event) {
    && !y.node.crashed
    && match e
       case Deliver(b) => b.proposer in cfg.names
       case DeliverVote(v) => v.sender in cfg.names
       case Run(t) => t in y.pool && Enabled(y.node, t)
       case TakeToken => y.loop.Waiting? && y.node.channel > 0
       case ChooseParent(b) => y.loop.Holding? && b in Candidate(y.node.props, y.node.props.height).Values
       case Win(_) => y.loop.Chosen?
       case Lose => y.loop.Chosen?
  }

  /** The block a winning proposer builds on `parent`. */
  function NewBlock(me: Name, parent: Block, cmds: seq<Request>): Block {
    Block(me, parent.height + 1, Digest(parent), Cmds(cmds))
  }

  function AfterTask(cfg: Config, y: Sys, t: Task): Sys {
    var eff := RunTask(cfg, y.node, t);
    y.(node := eff.node,
       pool := y.pool - multiset{t} + eff.spawned,
       sent := if eff.sent.Some? then y.sent + {eff.sent.value} else y.sent,
       certified := if t.InsertQC? && t.cert.block.height !in y.node.ledger.pendingQC
                    then y.certified[t.cert.block.height := t.cert] else y.certified)
  }

  /** An event that cannot happen leaves the system as it is. */
  function Step(cfg: Config, y: Sys, e: Event): Sys {
    if !CanHappen(cfg, y, e) then y
    else match e
      case Deliver(b) =>
        y.(pool := y.pool + multiset{HandleBlock(b), CheckVoted(b)}, delivered := y.delivered + {b})
      case DeliverVote(v) => y.(pool := y.pool + multiset{HandleVote(v)})
      case Run(t) => AfterTask(cfg, y, t)
      case TakeToken => y.(loop := Holding, node := y.node.(channel := y.node.channel - 1))
      case ChooseParent(b) => y.(loop := Chosen(b))
      case Win(cmds) =>
        var b := NewBlock(cfg.me, y.loop.parent, cmds);
        y.(loop := Waiting, sent := y.sent + {Proposal(b)}, proposed := y.proposed + [b])
      case Lose => y.(loop := Waiting, pool := y.pool + multiset{SendToken})
  }

  /** Nothing happens in a process that is down. */
  lemma CrashIsFinal(cfg: Config, y: Sys, e: Event)
    requires y.node.crashed
    ensures Step(cfg, y, e) == y
  {
  }

  /** The system after the events of `es`, in order, from `y`. */
  function RunFrom(cfg: Config, y: Sys, es: seq<Event>): Sys {
    if es == [] then y else Step(cfg, RunFrom(cfg, y, es[..|es| - 1]), es[|es| - 1])
  }

  function RunNode(cfg: Config, es: seq<Event>): Sys {
    RunFrom(cfg, INITIAL_SYS, es)
  }

  lemma OneMore(cfg: Config, es: seq<Event>, e: Event)
    ensures RunNode(cfg, es + [e]) == Step(cfg, RunNode(cfg, es), e)
  {
    hide Step;
    assert (es + [e])[..|es|] == es;
  }

  /** Running `a` and then `b` is running them together. */
  lemma {:induction false} RunFromConcat(cfg: Config, y: Sys, a: seq<Event>, b: seq<Event>)
    ensures RunFrom(cfg, y, a + b) == RunFrom(cfg, RunFrom(cfg, y, a), b)
  {
    if b == [] {
      assert a + b == a;
    } else {
      RunFromConcat(cfg, y, a, b[..|b| - 1]);
      assert (a + b)[..|a + b| - 1] == a + b[..|b| - 1];
    }
  }

  /** Only goroutines that wait for room in the token channel are left. */
  predicate Quiescent(y: Sys) {
    forall t :: t in y.pool ==> t.SendToken?
  }
}
