/** What one node sends: at most one vote per height, and proposals paid for with tokens. */
module SenderInvariants {
  import opened Blocks
  import opened NodeSpec
  import opened NodeRuns
  import opened ProposalInvariants
  import opened CertInvariants

  /** Recorded votes come from cluster members. */
  ghost predicate VotersOk(names: set<Name>, sigs: Sigs, pool: multiset<Task>) {
    && (forall h, x :: BallotsAt(sigs, h, x).Keys <= names)
    && (forall v :: HandleVote(v) in pool ==> v.sender in names)
  }

  /** Each vote sent is the node's own approval of one block of a height marked as voted, one per height. */
  ghost predicate BallotsOk(me: Name, voted: set<nat>, sent: set<Message>) {
    && (forall v :: Ballot(v) in sent ==>
          v.plain.hash.Digest? && v == MyVote(me, v.plain.hash.of) && v.plain.height in voted)
    && (forall v, w :: Ballot(v) in sent && Ballot(w) in sent && v.plain.height == w.plain.height ==> v == w)
  }

  predicate InCandidate(p: Proposals, b: Block) {
    Digest(b) in Candidate(p, b.height)
  }

  /** Each proposal made extends, by hash and by one height, a block of the proposer's candidate chain. */
  ghost predicate ProposalsLinked(me: Name, p: Proposals, loop: Loop, proposed: seq<Block>, sent: set<Message>) {
    && (loop.Chosen? ==> InCandidate(p, loop.parent))
    && (forall b :: b in proposed ==>
          b.proposer == me && b.prev.Digest? && b.height == b.prev.of.height + 1 && InCandidate(p, b.prev.of))
    && (forall b :: Proposal(b) in sent ==> b in proposed)
  }

  /** Every pending level holds a block. */
  ghost predicate Populated(m: map<nat, Level>) {
    forall h :: h in m ==> exists x :: x in m[h]
  }

  /** Every token is in the channel, held by a blocked sender or by the loop, or was spent on a proposal:
      one at the start and one per candidate level gained. */
  predicate TokensOk(p: Proposals, channel: nat, pool: multiset<Task>, loop: Loop, proposed: seq<Block>) {
    && channel <= 1
    && channel + pool[SendToken] + (if loop.Waiting? then 0 else 1) + |proposed| == 1 + p.height
  }

  lemma VotersRecord(names: set<Name>, sigs: Sigs, pool: multiset<Task>, v: Vote, pool': multiset<Task>)
    requires VotersOk(names, sigs, pool) && HandleVote(v) in pool
    requires forall u: Task :: u.HandleVote? ==> pool'[u] <= pool[u]
    ensures VotersOk(names, RecordVote(sigs, v), pool')
  {
    RecordVoteBallots(sigs, v);
  }

  lemma VotersSame(names: set<Name>, sigs: Sigs, pool: multiset<Task>, pool': multiset<Task>)
    requires VotersOk(names, sigs, pool)
    requires forall u: Task :: u.HandleVote? ==> pool'[u] <= pool[u]
    ensures VotersOk(names, sigs, pool')
  {
  }

  lemma BallotsCast(me: Name, voted: set<nat>, sent: set<Message>, b: Block)
    requires BallotsOk(me, voted, sent) && b.height !in voted
    ensures BallotsOk(me, voted + {b.height}, sent + {Ballot(MyVote(me, b))})
  {
  }

  lemma PutPopulated(m: map<nat, Level>, b: Block)
    requires Populated(m)
    ensures Populated(Put(m, b))
  {
    var m' := Put(m, b);
    forall h | h in m'
      ensures exists x :: x in m'[h]
    {
      if h == b.height {
        assert Digest(b) in m'[h];
      } else {
        assert m'[h] == m[h];
      }
    }
  }

  lemma LinkedGrows(me: Name, p: Proposals, p': Proposals, loop: Loop, proposed: seq<Block>, sent: set<Message>)
    requires ProposalsLinked(me, p, loop, proposed, sent)
    requires forall b :: InCandidate(p, b) ==> InCandidate(p', b)
    ensures ProposalsLinked(me, p', loop, proposed, sent)
  {
  }

  lemma LinkedPut(me: Name, p: Proposals, loop: Loop, proposed: seq<Block>, sent: set<Message>, b: Block)
    requires ProposalsLinked(me, p, loop, proposed, sent)
    ensures ProposalsLinked(me, AddPending(p, b), loop, proposed, sent)
    ensures ProposalsLinked(me, AddCandidate(p, b), loop, proposed, sent)
  {
    hide ProposalsLinked;
    PutHas(p.pending, b);
    LinkedGrows(me, p, AddPending(p, b), loop, proposed, sent);
    LinkedGrows(me, p, AddCandidate(p, b), loop, proposed, sent);
  }

  lemma LinkedBallot(me: Name, p: Proposals, loop: Loop, proposed: seq<Block>, sent: set<Message>, v: Vote)
    requires ProposalsLinked(me, p, loop, proposed, sent)
    ensures ProposalsLinked(me, p, loop, proposed, sent + {Ballot(v)})
  {
  }

  lemma LinkedTake(me: Name, p: Proposals, loop: Loop, proposed: seq<Block>, sent: set<Message>)
    requires ProposalsLinked(me, p, loop, proposed, sent)
    ensures ProposalsLinked(me, p, Holding, proposed, sent) && ProposalsLinked(me, p, Waiting, proposed, sent)
  {
  }

  lemma LinkedChoose(me: Name, p: Proposals, loop: Loop, proposed: seq<Block>, sent: set<Message>, b: Block)
    requires ProposalsLinked(me, p, loop, proposed, sent) && Shape(p)
    requires b in Candidate(p, p.height).Values
    ensures ProposalsLinked(me, p, Chosen(b), proposed, sent)
  {
    var x :| x in Candidate(p, p.height) && Candidate(p, p.height)[x] == b;
    assert LevelOk(Candidate(p, p.height), p.height);
  }

  lemma LinkedWin(me: Name, p: Proposals, parent: Block, proposed: seq<Block>, sent: set<Message>, cmds: seq<Request>)
    requires ProposalsLinked(me, p, Chosen(parent), proposed, sent)
    ensures var b := NewBlock(me, parent, cmds);
      ProposalsLinked(me, p, Waiting, proposed + [b], sent + {Proposal(b)})
  {
  }

  lemma BallotsProposal(me: Name, voted: set<nat>, sent: set<Message>, b: Block)
    requires BallotsOk(me, voted, sent)
    ensures BallotsOk(me, voted, sent + {Proposal(b)})
  {
  }

  lemma VotersAdd(names: set<Name>, sigs: Sigs, pool: multiset<Task>, v: Vote)
    requires VotersOk(names, sigs, pool) && v.sender in names
    ensures VotersOk(names, sigs, pool + multiset{HandleVote(v)})
  {
  }

  lemma LinkedExtend(me: Name, p: Proposals, loop: Loop, proposed: seq<Block>, sent: set<Message>)
    requires ProposalsLinked(me, p, loop, proposed, sent)
    ensures ProposalsLinked(me, p.(height := p.height + 1), loop, proposed, sent)
  {
    LinkedGrows(me, p, p.(height := p.height + 1), loop, proposed, sent);
  }
}
