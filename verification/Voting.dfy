/** What a node votes for: exactly one block of each height it hears of, and no other. */
module Voting {
  import opened Blocks
  import opened NodeSpec
  import opened NodeRuns
  import opened ProposalInvariants
  import opened CertInvariants
  import opened LedgerInvariants
  import opened NodeInvariants
  import opened SenderInvariants
  import opened Confluence

  /** The node has broadcast its approval of `b`. */
  predicate Approved(me: Name, sent: set<Message>, b: Block) {
    Ballot(Vote(PlainVote(Digest(b), b.height, true), me, Share(me, PlainVote(Digest(b), b.height, true)))) in sent
  }

  /** Each delivered block's height is voted for or about to be; each height voted for got a vote for a
      delivered block of it; no vote is for anything else. */
  ghost predicate VotesDue(me: Name, voted: set<nat>, pool: multiset<Task>, delivered: set<Block>, sent: set<Message>) {
    && (forall b :: b in delivered ==> b.height in voted || CheckVoted(b) in pool || CastVote(b) in pool)
    && (forall b :: CheckVoted(b) in pool || CastVote(b) in pool ==> b in delivered)
    && (forall h :: h in voted ==> exists b :: b in delivered && b.height == h && Approved(me, sent, b))
    && (forall v :: Ballot(v) in sent ==>
          v.plain.hash.Digest? && v.plain.hash.of in delivered && v == MyVote(me, v.plain.hash.of))
  }

  lemma DueDeliver(me: Name, voted: set<nat>, pool: multiset<Task>, delivered: set<Block>, sent: set<Message>, b: Block)
    requires VotesDue(me, voted, pool, delivered, sent)
    ensures VotesDue(me, voted, pool + multiset{HandleBlock(b), CheckVoted(b)}, delivered + {b}, sent)
  {
    forall h | h in voted
      ensures exists c :: c in delivered + {b} && c.height == h && Approved(me, sent, c)
    {
      var c :| c in delivered && c.height == h && Approved(me, sent, c);
      assert c in delivered + {b};
    }
  }

  lemma DueChecked(me: Name, voted: set<nat>, pool: multiset<Task>, delivered: set<Block>, sent: set<Message>, b: Block)
    requires VotesDue(me, voted, pool, delivered, sent) && CheckVoted(b) in pool
    ensures b.height in voted ==> VotesDue(me, voted, pool - multiset{CheckVoted(b)} + multiset{}, delivered, sent)
    ensures b.height !in voted ==>
      VotesDue(me, voted, pool - multiset{CheckVoted(b)} + multiset{CastVote(b)}, delivered, sent)
  {
    hide Approved;
  }

  lemma DueCast(me: Name, voted: set<nat>, pool: multiset<Task>, delivered: set<Block>, sent: set<Message>, b: Block)
    requires VotesDue(me, voted, pool, delivered, sent) && CastVote(b) in pool
    ensures b.height in voted ==> VotesDue(me, voted, pool - multiset{CastVote(b)} + multiset{}, delivered, sent)
    ensures b.height !in voted ==>
      VotesDue(me, voted + {b.height}, pool - multiset{CastVote(b)} + multiset{}, delivered, sent + {Ballot(MyVote(me, b))})
  {
    var sent' := sent + {Ballot(MyVote(me, b))};
    assert Approved(me, sent', b);
    forall h | h in voted
      ensures exists c :: c in delivered && c.height == h && Approved(me, sent', c)
    {
      var c :| c in delivered && c.height == h && Approved(me, sent, c);
      assert Approved(me, sent', c);
    }
  }

  lemma DueSame(me: Name, voted: set<nat>, pool: multiset<Task>, delivered: set<Block>, sent: set<Message>,
                pool': multiset<Task>, sent': set<Message>)
    requires VotesDue(me, voted, pool, delivered, sent)
    requires forall b :: pool'[CheckVoted(b)] == pool[CheckVoted(b)] && pool'[CastVote(b)] == pool[CastVote(b)]
    requires forall v :: Ballot(v) in sent' <==> Ballot(v) in sent
    ensures VotesDue(me, voted, pool', delivered, sent')
  {
    assert forall b :: (CheckVoted(b) in pool' <==> CheckVoted(b) in pool) && (CastVote(b) in pool' <==> CastVote(b) in pool);
    forall h | h in voted
      ensures exists c :: c in delivered && c.height == h && Approved(me, sent', c)
    {
      var c :| c in delivered && c.height == h && Approved(me, sent, c);
      assert Approved(me, sent', c);
    }
  }

  lemma TaskVotes(cfg: Config, s: NodeState, t: Task)
    requires !t.CheckVoted? && !t.CastVote?
    ensures RunTask(cfg, s, t).node.voted == s.voted && RunTask(cfg, s, t).sent.None?
  {
    hide Ready, LevelAt, RecordVote, AddPending, AddCandidate, CommitAncestorsLedger, ExtendLedger;
  }

  lemma TaskStartsNoVote(cfg: Config, s: NodeState, t: Task, b: Block)
    requires !t.CheckVoted? && !t.CastVote?
    ensures RunTask(cfg, s, t).spawned[CheckVoted(b)] == 0 && RunTask(cfg, s, t).spawned[CastVote(b)] == 0
  {
    hide Ready, LevelAt, RecordVote, AddPending, AddCandidate, CommitAncestorsLedger, ExtendLedger;
  }

  lemma OtherEventDue(cfg: Config, y: Sys, e: Event)
    requires VotesDue(cfg.me, y.node.voted, y.pool, y.delivered, y.sent)
    requires !e.Deliver? && !(e.Run? && (e.task.CheckVoted? || e.task.CastVote?))
    ensures var y' := Step(cfg, y, e); VotesDue(cfg.me, y'.node.voted, y'.pool, y'.delivered, y'.sent)
  {
    hide VotesDue, RunTask, Enabled, Candidate;
    if e.Run? {
      TaskVotes(cfg, y.node, e.task);
      forall b
        ensures RunTask(cfg, y.node, e.task).spawned[CheckVoted(b)] == 0
        ensures RunTask(cfg, y.node, e.task).spawned[CastVote(b)] == 0
      {
        TaskStartsNoVote(cfg, y.node, e.task, b);
      }
    }
    var y' := Step(cfg, y, e);
    DueSame(cfg.me, y.node.voted, y.pool, y.delivered, y.sent, y'.pool, y'.sent);
  }

  lemma StepDue(cfg: Config, y: Sys, e: Event)
    requires VotesDue(cfg.me, y.node.voted, y.pool, y.delivered, y.sent)
    ensures var y' := Step(cfg, y, e); VotesDue(cfg.me, y'.node.voted, y'.pool, y'.delivered, y'.sent)
  {
    hide VotesDue, Enabled, Candidate;
    if !CanHappen(cfg, y, e) {
    } else if e.Deliver? {
      DueDeliver(cfg.me, y.node.voted, y.pool, y.delivered, y.sent, e.block);
    } else if e.Run? && e.task.CheckVoted? {
      DueChecked(cfg.me, y.node.voted, y.pool, y.delivered, y.sent, e.task.block);
    } else if e.Run? && e.task.CastVote? {
      DueCast(cfg.me, y.node.voted, y.pool, y.delivered, y.sent, e.task.block);
    } else {
      OtherEventDue(cfg, y, e);
    }
  }

  lemma {:induction false} RunDue(cfg: Config, es: seq<Event>)
    ensures var y := RunNode(cfg, es); VotesDue(cfg.me, y.node.voted, y.pool, y.delivered, y.sent)
  {
    hide Step, VotesDue;
    if es == [] {
      NothingDue(cfg.me);
    } else {
      RunDue(cfg, es[..|es| - 1]);
      StepDue(cfg, RunNode(cfg, es[..|es| - 1]), es[|es| - 1]);
    }
  }

  lemma NothingDue(me: Name)
    ensures VotesDue(me, INITIAL_NODE.voted, multiset{}, {}, {})
  {
  }

  /** In every run a node votes only for blocks delivered to it, and for at most one of each height. */
  lemma {:induction false} VotesAreForDelivered(cfg: Config, es: seq<Event>, v: Vote)
    requires cfg.names != {} && Ballot(v) in RunNode(cfg, es).sent
    ensures v.plain.hash.Digest? && v.plain.hash.of in RunNode(cfg, es).delivered
    ensures v.plain.height == v.plain.hash.of.height && v.plain.opinion
    ensures v.sender == cfg.me && v.sig == Share(cfg.me, v.plain)
    ensures forall w :: Ballot(w) in RunNode(cfg, es).sent && w.plain.height == v.plain.height ==> w == v
  {
    hide RunNode, Inv;
    RunDue(cfg, es);
    RunKeeps(cfg, es);
    assert v == MyVote(cfg.me, v.plain.hash.of);
    OneBallot(cfg, RunNode(cfg, es), v);
  }

  lemma OneBallot(cfg: Config, y: Sys, v: Vote)
    requires Inv(cfg, y) && Ballot(v) in y.sent
    ensures forall w :: Ballot(w) in y.sent && w.plain.height == v.plain.height ==> w == v
  {
    hide ProposalInv, CertInv, LedgerOk, ChainWake, VotersOk, ProposalsLinked, Populated;
  }

  /** No vote is forgotten: at rest, a node has voted for one block of each height it was delivered a block of,
      and for no other height. */
  lemma {:induction false} VotesOncePerHeight(cfg: Config, es: seq<Event>, h: nat)
    requires cfg.names != {} && Quiescent(RunNode(cfg, es))
    ensures SomeAt(RunNode(cfg, es).delivered, h) <==>
      exists b :: b in RunNode(cfg, es).delivered && b.height == h && Approved(cfg.me, RunNode(cfg, es).sent, b)
    ensures forall b, c ::
      (Approved(cfg.me, RunNode(cfg, es).sent, b) && Approved(cfg.me, RunNode(cfg, es).sent, c) && b.height == c.height)
      ==> b == c
  {
    hide RunNode, Inv;
    RunDue(cfg, es);
    var y := RunNode(cfg, es);
    if SomeAt(y.delivered, h) {
      var b :| b in y.delivered && b.height == h;
      assert b.height in y.node.voted;
    }
    forall b, c | Approved(cfg.me, y.sent, b) && Approved(cfg.me, y.sent, c) && b.height == c.height
      ensures b == c
    {
      VotesAreForDelivered(cfg, es, MyVote(cfg.me, b));
      assert MyVote(cfg.me, b) == MyVote(cfg.me, c);
    }
  }
}
