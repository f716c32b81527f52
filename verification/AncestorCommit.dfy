/** What the backward walk of the ancestor commit does to the committed chain, and when it crashes. */
module AncestorCommit {
  import opened Blocks
  import opened NodeSpec
  import opened ProposalInvariants

  /** `b` has an ancestor at height `k` and the candidate chain holds it there. */
  predicate HeldAncestor(p: Proposals, b: Block, k: nat) {
    Ancestor(b, k).Some? && Digest(Ancestor(b, k).value) in Candidate(p, k)
  }

  lemma CandidateOk(p: Proposals, h: nat)
    requires Shape(p)
    ensures LevelOk(Candidate(p, h), h)
  {
  }

  /** `now` is `was` with exactly the heights above `floor` up to `top` overwritten by the ancestors of `b`,
      each carrying `qc`. */
  ghost predicate Overwrites(was: map<nat, CertBlock>, now: map<nat, CertBlock>, floor: nat, top: nat, b: Block, qc: QC) {
    && (forall k :: floor < k <= top ==> k in now && Ancestor(b, k).Some? && now[k] == CertBlock(Ancestor(b, k).value, qc))
    && (forall k :: !(floor < k <= top) ==> (k in now <==> k in was))
    && (forall k :: !(floor < k <= top) && k in was ==> now[k] == was[k])
  }

  /** Below its own height a block has the ancestors of its parent. */
  lemma ParentAncestors(p: Proposals, b: Block, parent: Block)
    requires b.prev == Digest(parent) && b.height == parent.height + 1
    ensures forall k: nat :: k < b.height ==> Ancestor(b, k) == Ancestor(parent, k)
    ensures forall k: nat :: k < b.height ==> HeldAncestor(p, b, k) == HeldAncestor(p, parent, k)
  {
  }

  lemma HeldItself(p: Proposals, b: Block)
    requires Digest(b) in Candidate(p, b.height)
    ensures HeldAncestor(p, b, b.height)
  {
  }

  /** The look-up of the walk finds a block exactly when the candidate chain holds the ancestor one below. */
  lemma HeldParentIff(p: Proposals, b: Block)
    requires Shape(p) && b.height > 0
    ensures var next := LookupCandidate(p, b.height - 1, b.prev);
      && (next.Some? <==> HeldAncestor(p, b, b.height - 1))
      && (next.Some? ==> b.prev == Digest(next.value) && next.value.height == b.height - 1
                         && b.prev in Candidate(p, b.height - 1))
  {
    CandidateOk(p, b.height - 1);
    if b.prev.Digest? && b.prev.of.height == b.height - 1 {
      assert Ancestor(b.prev.of, b.height - 1) == Some(b.prev.of);
    }
  }

  /** Overwriting height `top` with `b` and those below with the ancestors of its parent overwrites them all
      with the ancestors of `b`. */
  lemma OverwritesDown(p: Proposals, was: map<nat, CertBlock>, now: map<nat, CertBlock>, floor: nat, b: Block, parent: Block, qc: QC)
    requires b.prev == Digest(parent) && b.height == parent.height + 1 && floor < b.height
    requires Overwrites(was[b.height := CertBlock(b, qc)], now, floor, b.height - 1, parent, qc)
    ensures Overwrites(was, now, floor, b.height, b, qc)
  {
    ParentAncestors(p, b, parent);
    assert Ancestor(b, b.height) == Some(b);
  }

  /** The walk from a candidate `b` of height `i` finishes exactly when every ancestor above the
      committed height is a candidate, and then it commits exactly those. */
  lemma {:induction false} WalkBackCommits(p: Proposals, blocks: map<nat, CertBlock>, floor: nat, b: Block, i: nat, qc: QC)
    requires Shape(p) && b.height == i && Digest(b) in Candidate(p, i)
    ensures var r := WalkBack(p, blocks, floor, Some(b), i, qc);
      && (r.Some? <==> forall k :: floor < k <= i ==> HeldAncestor(p, b, k))
      && (r.Some? ==> Overwrites(blocks, r.value, floor, i, b, qc))
    decreases i
  {
    if i > floor {
      hide Candidate, LookupCandidate, Shape, HeldAncestor, Overwrites, Ancestor;
      var next := LookupCandidate(p, i - 1, b.prev);
      HeldItself(p, b);
      HeldParentIff(p, b);
      if next.Some? {
        WalkBackCommits(p, blocks[i := CertBlock(b, qc)], floor, next.value, i - 1, qc);
        ParentAncestors(p, b, next.value);
        if WalkBack(p, blocks, floor, Some(b), i, qc).Some? {
          OverwritesDown(p, blocks, WalkBack(p, blocks, floor, Some(b), i, qc).value, floor, b, next.value, qc);
        }
      } else {
        OverwritesTop(blocks, floor, b, qc);
      }
    }
  }

  lemma OverwritesTop(blocks: map<nat, CertBlock>, floor: nat, b: Block, qc: QC)
    ensures floor + 1 == b.height ==> Overwrites(blocks, blocks[b.height := CertBlock(b, qc)], floor, b.height, b, qc)
  {
  }

  /** The guard and the outcome of `CommitAncestorByBlockQC`. Past its guards it crashes exactly when an
      ancestor strictly between the committed height and the parent is not a candidate; otherwise heights
      from the committed one up to the parent of `c` are overwritten by the ancestors of `c` under `c`'s
      certificate and the committed height becomes the parent's. */
  lemma CommitAncestorsCommits(p: Proposals, l: Ledger, c: CertBlock)
    requires Shape(p)
    ensures var r := CommitAncestorsLedger(p, l, c);
      if ParentIsCandidate(p, l, c) then
        var top := c.block.height - 1;
        && (r.Some? <==> forall k :: l.height < k <= top ==> HeldAncestor(p, c.block, k))
        && (r.Some? ==>
              && r.value.height == top && r.value.pendingQC == l.pendingQC
              && Overwrites(l.blocks, r.value.blocks, l.height, top, c.block, c.qc))
      else
        r == Some(l)
  {
    if ParentIsCandidate(p, l, c) {
      var top := c.block.height - 1;
      CandidateOk(p, top);
      var parent := Candidate(p, top)[c.block.prev];
      WalkBackCommits(p, l.blocks, l.height, parent, top, c.qc);
      ParentAncestors(p, c.block, parent);
    }
  }

  /** The committed segment is hash-linked and its top hashes to the previous hash of `b`. */
  lemma OverwritesLinked(was: map<nat, CertBlock>, now: map<nat, CertBlock>, floor: nat, b: Block, qc: QC)
    requires b.height >= 1 && Overwrites(was, now, floor, b.height - 1, b, qc)
    ensures floor < b.height - 1 ==> b.prev == Digest(now[b.height - 1].block)
    ensures forall k :: floor < k < b.height - 1 ==> now[k + 1].block.prev == Digest(now[k].block)
  {
    if floor < b.height - 1 {
      assert Ancestor(b, b.height - 1).Some?;
    }
    forall k | floor < k < b.height - 1
      ensures now[k + 1].block.prev == Digest(now[k].block)
    {
      assert Ancestor(b, k + 1).Some? && Ancestor(b, k).Some?;
      AncestorCompose(b, k + 1, k);
    }
  }

  /** The ancestor commit lowers the committed height exactly when the chains' lengths differ, the parent
      is a candidate and lies below the committed height: a certificate that comes late. */
  lemma HeightFallsIff(p: Proposals, l: Ledger, c: CertBlock)
    requires Shape(p)
    ensures var r := CommitAncestorsLedger(p, l, c);
      r.Some? && r.value.height < l.height <==> ParentIsCandidate(p, l, c) && c.block.height <= l.height
  {
    CommitAncestorsCommits(p, l, c);
  }
}
