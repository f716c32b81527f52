/** Which heights a node certifies, in terms of the blocks and votes delivered to it. */
module Certification {
  import opened Blocks
  import opened NodeSpec
  import opened NodeRuns
  import opened ProposalInvariants
  import opened CertInvariants
  import opened LedgerInvariants
  import opened SenderInvariants
  import opened NodeInvariants
  import opened Confluence
  import opened Cluster

  /** The cluster members whose vote for hash `x` at height `h` is delivered in `es`. */
  function VotersDelivered(cfg: Config, es: seq<Event>, h: nat, x: Hash): set<Name> {
    set e | e in es && e.DeliverVote? && e.vote.sender in cfg.names && e.vote.plain.height == h && e.vote.plain.hash == x
      :: e.vote.sender
  }

  /** The member whose vote for `(h, x)` the event `e` delivers, if it does. */
  function VoterOf(cfg: Config, e: Event, h: nat, x: Hash): set<Name> {
    if e.DeliverVote? && e.vote.sender in cfg.names && e.vote.plain.height == h && e.vote.plain.hash == x
    then {e.vote.sender} else {}
  }

  /** A vote of `i` for `(h, x)` is on its way to being recorded. */
  predicate OnItsWay(pool: multiset<Task>, h: nat, x: Hash, i: Name) {
    exists v :: v in pool && v.HandleVote? && v.vote.sender == i && v.vote.plain.height == h && v.vote.plain.hash == x
  }

  /** What is recorded or on its way is what was delivered. */
  ghost predicate VotesAccounted(cfg: Config, es: seq<Event>, sigs: Sigs, pool: multiset<Task>) {
    forall h, x, i :: i in VotersDelivered(cfg, es, h, x) <==> i in BallotsAt(sigs, h, x) || OnItsWay(pool, h, x, i)
  }

  lemma DeliveredOneMore(cfg: Config, es: seq<Event>, e: Event)
    ensures forall h, x :: VotersDelivered(cfg, es + [e], h, x) == VotersDelivered(cfg, es, h, x) + VoterOf(cfg, e, h, x)
  {
    forall h, x
      ensures VotersDelivered(cfg, es + [e], h, x) == VotersDelivered(cfg, es, h, x) + VoterOf(cfg, e, h, x)
    {
      assert forall d :: d in es + [e] <==> d in es || d == e;
    }
  }

  lemma AccountedDeliver(cfg: Config, es: seq<Event>, sigs: Sigs, pool: multiset<Task>, v: Vote)
    requires VotesAccounted(cfg, es, sigs, pool) && v.sender in cfg.names
    ensures VotesAccounted(cfg, es + [DeliverVote(v)], sigs, pool + multiset{HandleVote(v)})
  {
    var pool' := pool + multiset{HandleVote(v)};
    forall h, x, i
      ensures OnItsWay(pool', h, x, i) <==>
        OnItsWay(pool, h, x, i) || (i == v.sender && h == v.plain.height && x == v.plain.hash)
    {
      assert HandleVote(v) in pool';
    }
    DeliveredOneMore(cfg, es, DeliverVote(v));
  }

  lemma AccountedRecord(cfg: Config, es: seq<Event>, sigs: Sigs, pool: multiset<Task>, v: Vote, pool': multiset<Task>)
    requires VotesAccounted(cfg, es, sigs, pool) && HandleVote(v) in pool
    requires forall u: Task :: u.HandleVote? ==> pool'[u] == pool[u] - if u == HandleVote(v) then 1 else 0
    ensures VotesAccounted(cfg, es, RecordVote(sigs, v), pool')
  {
    RecordVoteBallots(sigs, v);
    forall h, x, i
      ensures OnItsWay(pool, h, x, i) || (i == v.sender && h == v.plain.height && x == v.plain.hash) <==>
        OnItsWay(pool', h, x, i) || (i == v.sender && h == v.plain.height && x == v.plain.hash)
    {
      if OnItsWay(pool, h, x, i) {
        var u :| u in pool && u.HandleVote? && u.vote.sender == i && u.vote.plain.height == h && u.vote.plain.hash == x;
        assert u == HandleVote(v) || u in pool';
      }
    }
    assert forall h, x, i :: i == v.sender && h == v.plain.height && x == v.plain.hash ==> OnItsWay(pool, h, x, i);
  }

  lemma AccountedSame(cfg: Config, es: seq<Event>, es': seq<Event>, sigs: Sigs, pool: multiset<Task>, pool': multiset<Task>)
    requires VotesAccounted(cfg, es, sigs, pool)
    requires forall u: Task :: u.HandleVote? ==> pool'[u] == pool[u]
    requires forall h, x :: VotersDelivered(cfg, es', h, x) == VotersDelivered(cfg, es, h, x)
    ensures VotesAccounted(cfg, es', sigs, pool')
  {
    assert forall u: Task :: u.HandleVote? ==> (u in pool' <==> u in pool);
  }

  /** Any event but the delivery and the recording of a vote leaves votes alone. */
  lemma OtherStep(cfg: Config, y: Sys, e: Event)
    requires CanHappen(cfg, y, e) ==> !e.DeliverVote? && !(e.Run? && e.task.HandleVote?)
    ensures Step(cfg, y, e).node.tally.sigs == y.node.tally.sigs
    ensures forall u: Task :: u.HandleVote? ==> Step(cfg, y, e).pool[u] == y.pool[u]
  {
    hide RunTask, Enabled, Candidate;
    if e.Run? && CanHappen(cfg, y, e) {
      SigsFrame(cfg, y.node, e.task);
    }
  }

  lemma RecordAccounted(cfg: Config, es: seq<Event>, y: Sys, v: Vote)
    requires VotesAccounted(cfg, es, y.node.tally.sigs, y.pool) && CanHappen(cfg, y, Run(HandleVote(v)))
    ensures var y' := Step(cfg, y, Run(HandleVote(v))); VotesAccounted(cfg, es, y'.node.tally.sigs, y'.pool)
  {
    hide VotesAccounted, RunTask, Enabled, Candidate;
    HandleVoteRun(cfg, y.node, v);
    AccountedRecord(cfg, es, y.node.tally.sigs, y.pool, v, Step(cfg, y, Run(HandleVote(v))).pool);
  }

  lemma StepAccounted(cfg: Config, es: seq<Event>, y: Sys, e: Event)
    requires VotesAccounted(cfg, es, y.node.tally.sigs, y.pool) && !y.node.crashed
    ensures var y' := Step(cfg, y, e); VotesAccounted(cfg, es + [e], y'.node.tally.sigs, y'.pool)
  {
    hide VotesAccounted, VotersDelivered, AfterTask, Enabled, Candidate;
    DeliveredOneMore(cfg, es, e);
    var y' := Step(cfg, y, e);
    if CanHappen(cfg, y, e) && e.DeliverVote? {
      AccountedDeliver(cfg, es, y.node.tally.sigs, y.pool, e.vote);
    } else {
      if CanHappen(cfg, y, e) && e.Run? && e.task.HandleVote? {
        RecordAccounted(cfg, es, y, e.task.vote);
      } else {
        OtherStep(cfg, y, e);
        AccountedSame(cfg, es, es, y.node.tally.sigs, y.pool, y'.pool);
      }
      AccountedSame(cfg, es, es + [e], y'.node.tally.sigs, y'.pool, y'.pool);
    }
  }

  lemma HandleVoteRun(cfg: Config, s: NodeState, v: Vote)
    ensures RunTask(cfg, s, HandleVote(v)) == HandleVoteEffect(s, v)
  {
  }

  lemma {:induction false} RunAccounted(cfg: Config, es: seq<Event>)
    requires !RunNode(cfg, es).node.crashed
    ensures VotesAccounted(cfg, es, RunNode(cfg, es).node.tally.sigs, RunNode(cfg, es).pool)
  {
    hide Step, VotesAccounted;
    if es == [] {
      NothingAccounted(cfg);
    } else {
      var init, last := es[..|es| - 1], es[|es| - 1];
      if RunNode(cfg, init).node.crashed {
        CrashIsFinal(cfg, RunNode(cfg, init), last);
        assert false;
      }
      RunAccounted(cfg, init);
      StepAccounted(cfg, init, RunNode(cfg, init), last);
      assert init + [last] == es;
    }
  }

  lemma NothingAccounted(cfg: Config)
    ensures VotesAccounted(cfg, [], INITIAL_NODE.tally.sigs, multiset{})
  {
  }

  /** At rest, the recorded voters for a hash are the members whose votes for it were delivered. */
  lemma RecordedAtRest(cfg: Config, es: seq<Event>, h: nat, x: Hash)
    requires Quiescent(RunNode(cfg, es)) && !RunNode(cfg, es).node.crashed
    ensures BallotsAt(RunNode(cfg, es).node.tally.sigs, h, x).Keys == VotersDelivered(cfg, es, h, x)
  {
    hide RunNode, VotersDelivered, BallotsAt;
    RunAccounted(cfg, es);
    assert forall i :: !OnItsWay(RunNode(cfg, es).pool, h, x, i);
  }

  lemma PendingAtRest(cfg: Config, es: seq<Event>)
    requires cfg.names != {} && Quiescent(RunNode(cfg, es))
    ensures var y := RunNode(cfg, es);
      && (forall b :: b in y.delivered <==> Has(y.node.props.pending, b))
      && LevelsOk(y.node.props.pending)
  {
    hide CertInv, LedgerOk, ChainWake, VotersOk, BallotsOk, ProposalsLinked, Populated, RunNode, CandidateWake;
    RunKeeps(cfg, es);
  }

  /** Once a live node has come to rest, a height is certified exactly if some block of that height and the
      votes of a quorum of the cluster for it have been delivered, in whatever order and however interleaved. */
  lemma {:induction false} CertifiedIffDelivered(cfg: Config, es: seq<Event>, h: nat)
    requires cfg.names != {} && Quiescent(RunNode(cfg, es)) && !RunNode(cfg, es).node.crashed
    ensures h in RunNode(cfg, es).certified <==>
      exists b :: Deliver(b) in es && b.proposer in cfg.names && b.height == h
                  && |VotersDelivered(cfg, es, h, Digest(b))| >= cfg.Q()
  {
    hide RunNode, Quiescent, VotersDelivered, BallotsAt;
    var y := RunNode(cfg, es);
    NoLostCertificate(cfg, es, h);
    DeliveredExactly(cfg, es);
    PendingAtRest(cfg, es);
    forall x
      ensures |BallotsAt(y.node.tally.sigs, h, x)| == |VotersDelivered(cfg, es, h, x)|
    {
      RecordedAtRest(cfg, es, h, x);
      assert |BallotsAt(y.node.tally.sigs, h, x)| == |BallotsAt(y.node.tally.sigs, h, x).Keys|;
    }
    if h in y.certified {
      var x :| Ready(cfg.Q(), y.node.props.pending, y.node.tally.sigs, h, x);
      var b := y.node.props.pending[h][x];
      assert x == Digest(b) && Has(y.node.props.pending, b);
      assert Deliver(b) in es;
    }
    forall b | Deliver(b) in es && b.proposer in cfg.names && b.height == h
               && |VotersDelivered(cfg, es, h, Digest(b))| >= cfg.Q()
      ensures h in y.certified
    {
      assert Has(y.node.props.pending, b);
      assert Ready(cfg.Q(), y.node.props.pending, y.node.tally.sigs, h, Digest(b));
    }
  }

  /** Recording a vote: in every run, a vote that is handled leaves its share under its height, hash and sender,
      in place of an earlier one, and no other recorded share changes. */
  lemma {:induction false} HandledVoteIsRecorded(cfg: Config, es: seq<Event>, v: Vote)
    requires CanHappen(cfg, RunNode(cfg, es), Run(HandleVote(v)))
    ensures var sigs, sigs' := RunNode(cfg, es).node.tally.sigs, RunNode(cfg, es + [Run(HandleVote(v))]).node.tally.sigs;
      && v.sender in BallotsAt(sigs', v.plain.height, v.plain.hash)
      && BallotsAt(sigs', v.plain.height, v.plain.hash)[v.sender] == v.sig
      && forall h, x, i :: h != v.plain.height || x != v.plain.hash || i != v.sender ==>
           (i in BallotsAt(sigs', h, x) <==> i in BallotsAt(sigs, h, x))
           && (i in BallotsAt(sigs, h, x) ==> BallotsAt(sigs', h, x)[i] == BallotsAt(sigs, h, x)[i])
  {
    hide RunTask, RecordVote, BallotsAt, Enabled;
    var y := RunNode(cfg, es);
    assert (es + [Run(HandleVote(v))])[..|es|] == es;
    HandleVoteRun(cfg, y.node, v);
    RecordVoteBallots(y.node.tally.sigs, v);
  }
}
