/** The proposals of one node: pending blocks, the candidate chain and the goroutines that move it. */
module ProposalInvariants {
  import opened Blocks
  import opened NodeSpec

  /** Every key of level `h` is the hash of its block and every block's height is `h`. */
  ghost predicate LevelOk(lv: Level, h: nat) {
    forall x :: x in lv ==> x == Digest(lv[x]) && lv[x].height == h
  }

  ghost predicate LevelsOk(m: map<nat, Level>) {
    forall h :: h in m ==> LevelOk(m[h], h)
  }

  /** Candidate levels 0..height all exist, are non-empty and well-formed; so are the pending levels. */
  ghost predicate Shape(p: Proposals) {
    && LevelsOk(p.pending)
    && (forall h :: 1 <= h <= p.height ==> h in p.pending)
    && LevelOk(p.level0, 0) && Digest(GENESIS) in p.level0
  }

  /** `b` is in `m` at its own height under its own hash. */
  predicate Has(m: map<nat, Level>, b: Block) {
    Digest(b) in LevelAt(m, b.height)
  }

  /** Every delivered block is pending or about to be, and every pending block was delivered. */
  ghost predicate Deliveries(p: Proposals, pool: multiset<Task>, delivered: set<Block>) {
    && (forall b :: b in delivered ==> Has(p.pending, b) || HandleBlock(b) in pool)
    && (forall b :: Has(p.pending, b) ==> b in delivered)
    && (forall b :: HandleBlock(b) in pool ==> b in delivered)
    && (forall b :: UpdateCandidate(b) in pool ==> Has(p.pending, b))
    && (forall b :: Digest(b) in p.level0 ==> b == GENESIS || Has(p.pending, b))
  }

  ghost predicate ExtensionInFlight(height: nat, pool: multiset<Task>) {
    ExtendCandidate in pool || exists b :: UpdateCandidate(b) in pool && b.height > height
  }

  /** While the candidate chain lags behind the pending blocks, a goroutine that will move it is in flight. */
  ghost predicate CandidateWake(p: Proposals, pool: multiset<Task>) {
    && (p.height + 1 in p.pending ==> ExtensionInFlight(p.height, pool))
    && (forall b :: Has(p.pending, b) && b.height == 0 ==> Digest(b) in p.level0 || UpdateCandidate(b) in pool)
  }

  ghost predicate ProposalInv(p: Proposals, pool: multiset<Task>, delivered: set<Block>) {
    Shape(p) && Deliveries(p, pool, delivered) && CandidateWake(p, pool)
  }

  /** The goroutines `ProposalInv` speaks about. */
  predicate MovesProposals(t: Task) { t.HandleBlock? || t.UpdateCandidate? || t.ExtendCandidate? }

  lemma PutLevels(m: map<nat, Level>, b: Block)
    requires LevelsOk(m)
    ensures LevelsOk(Put(m, b))
  {
    var m' := Put(m, b);
    assert Digest(b) in m'[b.height];
    forall h | h in m' ensures LevelOk(m'[h], h) {
      if h == b.height {
        assert m'[h] == LevelAt(m, h)[Digest(b) := b];
      } else {
        assert m'[h] == m[h];
      }
    }
  }

  lemma PutHas(m: map<nat, Level>, b: Block)
    ensures forall c :: Has(Put(m, b), c) <==> c == b || Has(m, c)
    ensures Put(m, b).Keys == m.Keys + {b.height}
    ensures forall h, x :: x in LevelAt(m, h) ==> x in LevelAt(Put(m, b), h)
    ensures forall h, x :: x in LevelAt(Put(m, b), h) ==> x in LevelAt(m, h) || (h == b.height && x == Digest(b))
  {
  }

  /** Entering a block that is pending already changes nothing. */
  lemma PutAgain(m: map<nat, Level>, b: Block)
    requires LevelsOk(m) && Has(m, b)
    ensures Put(m, b) == m
  {
    assert m[b.height][Digest(b)] == b;
    assert m[b.height][Digest(b) := b] == m[b.height];
  }

  /** The late insert of `tryUpdateCandidateChain` into a level above 0 changes nothing: the block
      reached that level through `pendingBlocks`, which is the same map. */
  lemma LateInsertIsNoOp(p: Proposals, b: Block)
    requires Shape(p) && Has(p.pending, b) && b.height > 0
    ensures AddCandidate(p, b) == p
  {
    PutAgain(p.pending, b);
  }

  lemma ProposalsSame(p: Proposals, pool: multiset<Task>, delivered: set<Block>, pool': multiset<Task>)
    requires ProposalInv(p, pool, delivered)
    requires forall u :: MovesProposals(u) ==> pool'[u] == pool[u]
    ensures ProposalInv(p, pool', delivered)
  {
    if p.height + 1 in p.pending && ExtendCandidate !in pool {
      var b :| UpdateCandidate(b) in pool && b.height > p.height;
      assert UpdateCandidate(b) in pool';
    }
  }

  lemma ProposalsDeliver(p: Proposals, pool: multiset<Task>, delivered: set<Block>, b: Block)
    requires ProposalInv(p, pool, delivered)
    ensures ProposalInv(p, pool + multiset{HandleBlock(b), CheckVoted(b)}, delivered + {b})
  {
  }

  lemma ProposalsHandleBlock(p: Proposals, pool: multiset<Task>, delivered: set<Block>, b: Block)
    requires ProposalInv(p, pool, delivered) && HandleBlock(b) in pool
    ensures ProposalInv(AddPending(p, b),
              pool - multiset{HandleBlock(b)} + multiset{UpdateCandidate(b), CheckQuorum(b.height, Digest(b))}, delivered)
  {
    PutLevels(p.pending, b);
    HandleBlockDelivers(p, pool, delivered, b);
    HandleBlockWakes(p, pool, b);
  }

  lemma HandleBlockDelivers(p: Proposals, pool: multiset<Task>, delivered: set<Block>, b: Block)
    requires Deliveries(p, pool, delivered) && HandleBlock(b) in pool
    ensures Deliveries(AddPending(p, b),
              pool - multiset{HandleBlock(b)} + multiset{UpdateCandidate(b), CheckQuorum(b.height, Digest(b))}, delivered)
  {
    PutHas(p.pending, b);
  }

  lemma HandleBlockWakes(p: Proposals, pool: multiset<Task>, b: Block)
    requires CandidateWake(p, pool)
    ensures CandidateWake(AddPending(p, b),
              pool - multiset{HandleBlock(b)} + multiset{UpdateCandidate(b), CheckQuorum(b.height, Digest(b))})
  {
    PutHas(p.pending, b);
  }

  lemma ProposalsInsert(p: Proposals, pool: multiset<Task>, delivered: set<Block>, b: Block)
    requires ProposalInv(p, pool, delivered) && UpdateCandidate(b) in pool && b.height <= p.height
    ensures ProposalInv(AddCandidate(p, b), pool - multiset{UpdateCandidate(b)}, delivered)
  {
    if b.height > 0 {
      LateInsertIsNoOp(p, b);
    } else {
      assert p.level0[Digest(b) := b].Keys == p.level0.Keys + {Digest(b)};
    }
    InsertWakes(p, pool, b);
  }

  lemma InsertWakes(p: Proposals, pool: multiset<Task>, b: Block)
    requires CandidateWake(p, pool) && b.height <= p.height
    requires b.height > 0 ==> AddCandidate(p, b) == p
    ensures CandidateWake(AddCandidate(p, b), pool - multiset{UpdateCandidate(b)})
  {
  }

  lemma InsertKeepsPending(p: Proposals, pool: multiset<Task>, delivered: set<Block>, b: Block)
    requires ProposalInv(p, pool, delivered) && UpdateCandidate(b) in pool
    ensures AddCandidate(p, b).pending == p.pending && AddCandidate(p, b).height == p.height
  {
    if b.height > 0 {
      LateInsertIsNoOp(p, b);
    }
  }

  lemma ShapeOf(p: Proposals, pool: multiset<Task>, delivered: set<Block>)
    requires ProposalInv(p, pool, delivered)
    ensures Shape(p) && LevelsOk(p.pending)
  {
  }

  lemma ProposalsAhead(p: Proposals, pool: multiset<Task>, delivered: set<Block>, b: Block)
    requires ProposalInv(p, pool, delivered) && UpdateCandidate(b) in pool && b.height > p.height
    ensures ProposalInv(p, pool - multiset{UpdateCandidate(b)} + multiset{ExtendCandidate}, delivered)
  {
  }

  lemma ProposalsExtend(p: Proposals, pool: multiset<Task>, delivered: set<Block>)
    requires ProposalInv(p, pool, delivered) && ExtendCandidate in pool && p.height + 1 in p.pending
    ensures ProposalInv(p.(height := p.height + 1),
              pool - multiset{ExtendCandidate} + multiset{SendToken, ExtendCandidate}, delivered)
  {
  }

  lemma ProposalsNoExtend(p: Proposals, pool: multiset<Task>, delivered: set<Block>)
    requires ProposalInv(p, pool, delivered) && p.height + 1 !in p.pending
    ensures ProposalInv(p, pool - multiset{ExtendCandidate}, delivered)
  {
  }
}
