/** The self-respawning goroutines of a node finish: every schedule does only so much work per delivery. */
module Termination {
  import opened Blocks
  import opened NodeSpec
  import opened NodeRuns
  import opened ProposalInvariants
  import opened CertInvariants
  import opened LedgerInvariants
  import opened SenderInvariants
  import opened NodeInvariants

  /** An upper bound on the sections a goroutine can still cause to run, pending blocks and waiting
      certificates apart. Token senders are outside the protocol's work. */
  function Weight(t: Task): nat {
    match t
    case HandleBlock(_) => 10
    case CheckVoted(_) => 2
    case CastVote(_) => 1
    case UpdateCandidate(_) => 2
    case ExtendCandidate => 1
    case HandleVote(_) => 7
    case CheckQuorum(_, _) => 6
    case BuildQC(_, _) => 5
    case InsertQC(_) => 4
    case CommitAncestors(_) => 2
    case ExtendChain => 1
    case SendToken => 0
  }

  ghost function Pick(m: multiset<Task>): Task
    requires m != multiset{}
  {
    var t :| t in m; t
  }

  ghost function Sum(m: multiset<Task>): nat {
    if m == multiset{} then 0 else Weight(Pick(m)) + Sum(m - multiset{Pick(m)})
  }

  lemma {:induction false} SumRemove(m: multiset<Task>, t: Task)
    requires t in m
    ensures Sum(m) == Weight(t) + Sum(m - multiset{t})
    decreases |m|
  {
    var u := Pick(m);
    if u != t {
      SumRemove(m - multiset{u}, t);
      SumRemove(m - multiset{t}, u);
      assert m - multiset{u} - multiset{t} == m - multiset{t} - multiset{u};
    }
  }

  lemma SumAdd(m: multiset<Task>, t: Task)
    ensures Sum(m + multiset{t}) == Sum(m) + Weight(t)
  {
    SumRemove(m + multiset{t}, t);
    assert m + multiset{t} - multiset{t} == m;
  }

  lemma SumAddTwo(m: multiset<Task>, t: Task, u: Task)
    ensures Sum(m + multiset{t, u}) == Sum(m) + Weight(t) + Weight(u)
  {
    SumAdd(m, t);
    SumAdd(m + multiset{t}, u);
    assert m + multiset{t} + multiset{u} == m + multiset{t, u};
  }

  /** The pending heights the candidate chain has not reached. */
  function Above(p: Proposals): set<nat> {
    set h | h in p.pending && h > p.height
  }

  ghost function Measure(s: NodeState, pool: multiset<Task>): nat {
    Sum(pool) + |Above(s.props)| + |s.ledger.pendingQC|
  }

  lemma PutAbove(p: Proposals, p': Proposals, b: Block)
    requires p'.height == p.height && p'.pending == Put(p.pending, b)
    ensures |Above(p')| <= |Above(p)| + 1
  {
    PutHas(p.pending, b);
    if b.height > p.height && b.height !in p.pending {
      assert Above(p') == Above(p) + {b.height};
    } else {
      assert Above(p') == Above(p);
    }
  }

  lemma ExtendAbove(p: Proposals)
    requires p.height + 1 in p.pending
    ensures |Above(p.(height := p.height + 1))| == |Above(p)| - 1
  {
    assert Above(p) == Above(p.(height := p.height + 1)) + {p.height + 1};
  }

  lemma HandleBlockShrinks(cfg: Config, y: Sys, b: Block)
    requires HandleBlock(b) in y.pool
    ensures var y' := AfterTask(cfg, y, HandleBlock(b)); Measure(y'.node, y'.pool) < Measure(y.node, y.pool)
  {
    hide Sum, Above, Put;
    SumRemove(y.pool, HandleBlock(b));
    PutAbove(y.node.props, AddPending(y.node.props, b), b);
    SumAddTwo(y.pool - multiset{HandleBlock(b)}, UpdateCandidate(b), CheckQuorum(b.height, Digest(b)));
  }

  lemma UpdateCandidateShrinks(cfg: Config, y: Sys, b: Block)
    requires UpdateCandidate(b) in y.pool
    requires b.height > 0 ==> Has(y.node.props.pending, b) && LevelsOk(y.node.props.pending)
    ensures var y' := AfterTask(cfg, y, UpdateCandidate(b)); Measure(y'.node, y'.pool) < Measure(y.node, y.pool)
  {
    hide Sum, Above, AddCandidate, LevelsOk;
    var rest := y.pool - multiset{UpdateCandidate(b)};
    SumRemove(y.pool, UpdateCandidate(b));
    if b.height > y.node.props.height {
      SumAdd(rest, ExtendCandidate);
    } else {
      assert rest + multiset{} == rest;
      InsertAbove(y.node.props, b);
    }
  }

  lemma ExtendCandidateShrinks(cfg: Config, y: Sys)
    requires ExtendCandidate in y.pool
    ensures var y' := AfterTask(cfg, y, ExtendCandidate); Measure(y'.node, y'.pool) < Measure(y.node, y.pool)
  {
    hide Sum, Above;
    var rest := y.pool - multiset{ExtendCandidate};
    SumRemove(y.pool, ExtendCandidate);
    if y.node.props.height + 1 in y.node.props.pending {
      ExtendAbove(y.node.props);
      SumAddTwo(rest, SendToken, ExtendCandidate);
    } else {
      assert rest + multiset{} == rest;
    }
  }

  lemma InsertAbove(p: Proposals, b: Block)
    requires b.height > 0 ==> Has(p.pending, b) && LevelsOk(p.pending)
    ensures Above(AddCandidate(p, b)) == Above(p)
  {
    if b.height > 0 {
      PutAgain(p.pending, b);
    }
  }

  predicate TallySection(t: Task) {
    t.CheckVoted? || t.CastVote? || t.HandleVote? || t.CheckQuorum? || t.BuildQC?
  }

  lemma TallySectionSpawns(cfg: Config, s: NodeState, t: Task)
    requires TallySection(t)
    ensures var eff := RunTask(cfg, s, t);
      && eff.node.props == s.props && eff.node.ledger == s.ledger
      && (eff.spawned == multiset{} || exists u :: eff.spawned == multiset{u} && Weight(u) < Weight(t))
  {
    match t {
      case CheckVoted(b) => assert Weight(CastVote(b)) == 1;
      case HandleVote(v) => assert Weight(CheckQuorum(v.plain.height, v.plain.hash)) == 6;
      case CheckQuorum(h, x) => assert Weight(BuildQC(h, x)) == 5;
      case BuildQC(h, x) =>
        if x in LevelAt(s.props.pending, h) {
          var b := s.props.pending[h][x];
          assert Weight(InsertQC(CertBlock(b, Cert(Approval(b))))) == 4;
        }
      case _ =>
    }
  }

  lemma TallySectionShrinks(cfg: Config, y: Sys, t: Task)
    requires t in y.pool && TallySection(t)
    ensures var y' := AfterTask(cfg, y, t); Measure(y'.node, y'.pool) < Measure(y.node, y.pool)
  {
    hide Sum, Above, RunTask;
    var rest := y.pool - multiset{t};
    SumRemove(y.pool, t);
    assert rest + multiset{} == rest;
    TallySectionSpawns(cfg, y.node, t);
    var spawned := RunTask(cfg, y.node, t).spawned;
    if spawned != multiset{} {
      var u :| spawned == multiset{u} && Weight(u) < Weight(t);
      SumAdd(rest, u);
    }
  }

  lemma InsertQCShrinks(cfg: Config, y: Sys, c: CertBlock)
    requires InsertQC(c) in y.pool
    ensures var y' := AfterTask(cfg, y, InsertQC(c)); Measure(y'.node, y'.pool) < Measure(y.node, y.pool)
  {
    hide Sum, Above;
    var rest := y.pool - multiset{InsertQC(c)};
    SumRemove(y.pool, InsertQC(c));
    assert rest + multiset{} == rest;
    SumAdd(rest, CommitAncestors(c));
  }

  lemma CommitAncestorsShrinks(cfg: Config, y: Sys, c: CertBlock)
    requires CommitAncestors(c) in y.pool
    ensures var y' := AfterTask(cfg, y, CommitAncestors(c)); Measure(y'.node, y'.pool) < Measure(y.node, y.pool)
  {
    hide Sum, Above, CommitAncestorsLedger;
    var rest := y.pool - multiset{CommitAncestors(c)};
    SumRemove(y.pool, CommitAncestors(c));
    assert rest + multiset{} == rest;
    SumAdd(rest, ExtendChain);
    CommitKeepsWaiting(y.node.props, y.node.ledger, c);
  }

  lemma ExtendChainShrinks(cfg: Config, y: Sys)
    requires ExtendChain in y.pool
    ensures var y' := AfterTask(cfg, y, ExtendChain); Measure(y'.node, y'.pool) < Measure(y.node, y.pool)
  {
    hide Sum, Above;
    var rest := y.pool - multiset{ExtendChain};
    SumRemove(y.pool, ExtendChain);
    assert rest + multiset{} == rest;
    SumAdd(rest, ExtendChain);
  }

  /** What a section adds to the pool weighs less than the section, after the pending heights and the
      waiting certificates it uses up or adds are counted in. */
  lemma SectionShrinks(cfg: Config, y: Sys, t: Task)
    requires Inv(cfg, y) && t in y.pool && !t.SendToken?
    ensures var y' := AfterTask(cfg, y, t); Measure(y'.node, y'.pool) < Measure(y.node, y.pool)
  {
    hide CertInv, LedgerOk, ChainWake, VotersOk, BallotsOk, ProposalsLinked, Populated, Measure, AfterTask;
    if t.HandleBlock? {
      HandleBlockShrinks(cfg, y, t.block);
    } else if t.UpdateCandidate? {
      UpdateCandidateShrinks(cfg, y, t.block);
    } else if t.ExtendCandidate? {
      ExtendCandidateShrinks(cfg, y);
    } else if t.InsertQC? {
      InsertQCShrinks(cfg, y, t.cert);
    } else if t.CommitAncestors? {
      CommitAncestorsShrinks(cfg, y, t.cert);
    } else if t.ExtendChain? {
      ExtendChainShrinks(cfg, y);
    } else {
      TallySectionShrinks(cfg, y, t);
    }
  }

  /** The work a block or vote that is delivered can cause. */
  function Brought(cfg: Config, y: Sys, e: Event): nat {
    if !CanHappen(cfg, y, e) then 0
    else if e.Deliver? then 12
    else if e.DeliverVote? then 7
    else 0
  }

  /** Whether `e` runs a section of the protocol (sending a token is not one). */
  predicate RunsSection(cfg: Config, y: Sys, e: Event) {
    e.Run? && !e.task.SendToken? && CanHappen(cfg, y, e)
  }

  lemma SendTokenWork(cfg: Config, y: Sys)
    requires SendToken in y.pool
    ensures var y' := AfterTask(cfg, y, SendToken); Measure(y'.node, y'.pool) == Measure(y.node, y.pool)
  {
    SumRemove(y.pool, SendToken);
    assert y.pool - multiset{SendToken} + multiset{} == y.pool - multiset{SendToken};
  }

  lemma StepWork(cfg: Config, y: Sys, e: Event)
    requires Inv(cfg, y)
    ensures var y' := Step(cfg, y, e);
      Measure(y'.node, y'.pool) + (if RunsSection(cfg, y, e) then 1 else 0) <= Measure(y.node, y.pool) + Brought(cfg, y, e)
  {
    hide Inv, Sum, AfterTask, RunTask;
    if CanHappen(cfg, y, e) {
      match e
      case Deliver(b) => SumAddTwo(y.pool, HandleBlock(b), CheckVoted(b));
      case DeliverVote(v) => SumAdd(y.pool, HandleVote(v));
      case Run(t) =>
        if t.SendToken? {
          SendTokenWork(cfg, y);
        } else {
          SectionShrinks(cfg, y, t);
        }
      case Lose => SumAdd(y.pool, SendToken);
      case _ =>
    }
  }

  /** The sections run and the work brought in by the events of `es` from `y`. */
  function SectionsRun(cfg: Config, y: Sys, es: seq<Event>): nat {
    if es == [] then 0
    else
      SectionsRun(cfg, y, es[..|es| - 1])
      + if RunsSection(cfg, RunFrom(cfg, y, es[..|es| - 1]), es[|es| - 1]) then 1 else 0
  }

  function WorkBrought(cfg: Config, y: Sys, es: seq<Event>): nat {
    if es == [] then 0
    else
      WorkBrought(cfg, y, es[..|es| - 1]) + Brought(cfg, RunFrom(cfg, y, es[..|es| - 1]), es[|es| - 1])
  }

  /** Whatever the schedule, from a reachable state the sections run are at most the measure of the
      state plus 12 for each block and 7 for each vote delivered on the way. */
  lemma {:induction false} BoundedWork(cfg: Config, y: Sys, es: seq<Event>)
    requires Inv(cfg, y)
    ensures var y' := RunFrom(cfg, y, es);
      && Inv(cfg, y')
      && SectionsRun(cfg, y, es) + Measure(y'.node, y'.pool) <= Measure(y.node, y.pool) + WorkBrought(cfg, y, es)
  {
    hide Inv, Measure, Step, RunsSection, Brought;
    if es != [] {
      BoundedWork(cfg, y, es[..|es| - 1]);
      StepWork(cfg, RunFrom(cfg, y, es[..|es| - 1]), es[|es| - 1]);
      StepKeeps(cfg, RunFrom(cfg, y, es[..|es| - 1]), es[|es| - 1]);
    }
  }

  /** While a section is still waiting to run in a live node, one can: nothing blocks on the lock. */
  lemma NotStuck(cfg: Config, y: Sys)
    requires Inv(cfg, y) && !y.node.crashed && !Quiescent(y)
    ensures exists t :: t in y.pool && RunsSection(cfg, y, Run(t))
  {
    hide ProposalInv, CertInv, LedgerOk, ChainWake, VotersOk, BallotsOk, ProposalsLinked, Populated;
    var t :| t in y.pool && !t.SendToken?;
    assert RunsSection(cfg, y, Run(t));
  }

  /** Once deliveries stop, every schedule runs out of sections: after `es` has run as many sections as
      the measure of `y`, the node is quiescent or has crashed. */
  lemma EveryScheduleEnds(cfg: Config, y: Sys, es: seq<Event>)
    requires Inv(cfg, y)
    requires WorkBrought(cfg, y, es) == 0
    ensures SectionsRun(cfg, y, es) <= Measure(y.node, y.pool)
    ensures SectionsRun(cfg, y, es) == Measure(y.node, y.pool) ==>
      RunFrom(cfg, y, es).node.crashed || Quiescent(RunFrom(cfg, y, es))
  {
    hide Inv, Measure, RunFrom, Step;
    BoundedWork(cfg, y, es);
    var y' := RunFrom(cfg, y, es);
    if !y'.node.crashed && !Quiescent(y') {
      NotStuck(cfg, y');
      var t :| t in y'.pool && RunsSection(cfg, y', Run(t));
      StepWork(cfg, y', Run(t));
    }
  }

  /** In a whole run, the sections run are at most 12 per block delivered and 7 per vote delivered. */
  lemma RunWork(cfg: Config, es: seq<Event>)
    requires cfg.names != {}
    ensures SectionsRun(cfg, INITIAL_SYS, es) <= WorkBrought(cfg, INITIAL_SYS, es)
  {
    InvInitial(cfg);
    BoundedWork(cfg, INITIAL_SYS, es);
  }
}
