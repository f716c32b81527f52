/** Whole schedules run on the node as the source keeps it, in place on the heap. */
module Execution {
  import opened Blocks
  import opened NodeSpec
  import opened NodeRuns
  import opened NodeImpl

  /** What surrounds a node: its goroutines, its proposal loop and what has happened so far. */
  datatype Outside = Outside(
    pool: multiset<Task>,
    loop: Loop,
    delivered: set<Block>,
    certified: map<nat, CertBlock>,
    sent: set<Message>,
    proposed: seq<Block>)

  function OutsideOf(y: Sys): Outside {
    Outside(y.pool, y.loop, y.delivered, y.certified, y.sent, y.proposed)
  }

  /** The heap node `n` stands for the specification's node `s`, as far as the process still lives. */
  ghost predicate StandsFor(n: Node, s: NodeState)
    reads n, n.Levels()
  {
    n.Valid() && n.crashed == s.crashed && (!n.crashed ==> n.View() == s)
  }

  /** Whether `e` can happen, read off the heap. */
  method MayHappen(n: Node, o: Outside, e: Event, ghost y: Sys) returns (ok: bool)
    requires StandsFor(n, y.node) && o == OutsideOf(y)
    ensures ok <==> CanHappen(n.cfg, y, e)
  {
    hide Candidate, LookupCandidate;
    if n.crashed {
      return false;
    }
    match e
    case Deliver(b) => ok := b.proposer in n.cfg.names;
    case DeliverVote(v) => ok := v.sender in n.cfg.names;
    case Run(t) => ok := t in o.pool && if t.SendToken? then n.channel == 0 else !n.lockHeld;
    case TakeToken => ok := o.loop.Waiting? && n.channel > 0;
    case ChooseParent(b) =>
      n.CandidateView(n.candidateHeight);
      ok := o.loop.Holding? && b in n.candidateBlocks[n.candidateHeight].m.Values;
    case Win(_) => ok := o.loop.Chosen?;
    case Lose => ok := o.loop.Chosen?;
  }

  /** Runs a goroutine's section in place; what it starts and sends goes to the goroutines and the network. */
  method RunGoroutine(n: Node, o: Outside, t: Task, ghost y: Sys) returns (o': Outside)
    requires StandsFor(n, y.node) && o == OutsideOf(y)
    requires t in y.pool && Enabled(y.node, t)
    modifies n, n.Levels()
    ensures StandsFor(n, AfterTask(n.cfg, y, t).node) && o' == OutsideOf(AfterTask(n.cfg, y, t))
    ensures fresh(n.Levels() - old(n.Levels()))
  {
    hide RunTask;
    var enters := t.InsertQC? && t.cert.block.height !in n.pendingBlocksQC;
    var spawned, sent := n.RunSection(t);
    o' := o.(pool := o.pool - multiset{t} + spawned,
             sent := if sent.Some? then o.sent + {sent.value} else o.sent,
             certified := if enters then o.certified[t.cert.block.height := t.cert] else o.certified);
  }

  method RunEvent(n: Node, o: Outside, e: Event, ghost y: Sys) returns (o': Outside)
    requires StandsFor(n, y.node) && o == OutsideOf(y)
    modifies n, n.Levels()
    ensures StandsFor(n, Step(n.cfg, y, e).node) && o' == OutsideOf(Step(n.cfg, y, e))
    ensures fresh(n.Levels() - old(n.Levels()))
  {
    hide RunTask, AfterTask, Candidate;
    var ok := MayHappen(n, o, e, y);
    o' := o;
    if ok {
      match e
      case Deliver(b) =>
        o' := o.(pool := o.pool + multiset{HandleBlock(b), CheckVoted(b)}, delivered := o.delivered + {b});
      case DeliverVote(v) => o' := o.(pool := o.pool + multiset{HandleVote(v)});
      case Run(t) => o' := RunGoroutine(n, o, t, y);
      case TakeToken =>
        n.TakeTokenSection();
        o' := o.(loop := Holding);
      case ChooseParent(b) => o' := o.(loop := Chosen(b));
      case Win(cmds) =>
        var b := NewBlock(n.cfg.me, o.loop.parent, cmds);
        o' := o.(loop := Waiting, sent := o.sent + {Proposal(b)}, proposed := o.proposed + [b]);
      case Lose => o' := o.(loop := Waiting, pool := o.pool + multiset{SendToken});
    }
  }

  lemma RunNodeOneMore(cfg: Config, es: seq<Event>, k: nat)
    requires k < |es|
    ensures RunNode(cfg, es[..k + 1]) == Step(cfg, RunNode(cfg, es[..k]), es[k])
  {
    hide Step;
    assert es[..k + 1][..k] == es[..k];
  }

  /** Runs the events of `es` on a new node. Its goroutines, messages and history are those of the
      specification's run, and so are the contents of its maps until an ancestor commit crashes it. */
  method Execute(cfg: Config, es: seq<Event>) returns (n: Node, o: Outside)
    ensures fresh(n) && n.cfg == cfg
    ensures o == OutsideOf(RunNode(cfg, es))
    ensures StandsFor(n, RunNode(cfg, es).node)
  {
    hide Step, RunNode, StandsFor;
    n := NewNode(cfg);
    o := OutsideOf(INITIAL_SYS);
    RunNodeNothing(cfg, es);
    for k := 0 to |es|
      invariant fresh(n) && fresh(n.Levels()) && n.cfg == cfg
      invariant o == OutsideOf(RunNode(cfg, es[..k]))
      invariant StandsFor(n, RunNode(cfg, es[..k]).node)
    {
      RunNodeOneMore(cfg, es, k);
      o := RunEvent(n, o, es[k], RunNode(cfg, es[..k]));
    }
    assert es[..|es|] == es;
  }

  method NewNode(cfg: Config) returns (n: Node)
    ensures fresh(n) && fresh(n.Levels()) && n.cfg == cfg
    ensures StandsFor(n, INITIAL_SYS.node)
  {
    n := new Node(cfg);
  }

  lemma RunNodeNothing(cfg: Config, es: seq<Event>)
    ensures RunNode(cfg, es[..0]) == INITIAL_SYS
  {
  }
}
