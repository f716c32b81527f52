/** The committed chain of one node: gapless, made of received blocks, each an ancestor of a certified one. */
module LedgerInvariants {
  import opened Blocks
  import opened NodeSpec
  import opened ProposalInvariants
  import opened CertInvariants
  import opened AncestorCommit

  /** The heights in `m` are 0 up to some height, without a gap. */
  ghost predicate Gapless(m: map<nat, CertBlock>) {
    forall h: nat :: h in m <==> h < |m|
  }

  /** The entry `e` is the ancestor at height `h` of a block this node holds a certificate for, under that
      certificate. */
  ghost predicate Backed(certified: map<nat, CertBlock>, h: nat, e: CertBlock) {
    exists j :: j in certified && Ancestor(certified[j].block, h) == Some(e.block) && e.qc == certified[j].qc
  }

  ghost predicate EntryOk(pending: map<nat, Level>, certified: map<nat, CertBlock>, h: nat, e: CertBlock) {
    e.block.height == h && Has(pending, e.block) && Backed(certified, h, e)
  }

  /** Heights 0..height are committed; above genesis each entry sits at its own height, was received
      as a proposal and is an ancestor of (or is itself) a block with a certificate, which the entry carries. */
  ghost predicate LedgerOk(pending: map<nat, Level>, l: Ledger, certified: map<nat, CertBlock>) {
    && Gapless(l.blocks) && l.height < |l.blocks|
    && l.blocks[0] == CertBlock(GENESIS, EmptyQC)
    && forall h :: h in l.blocks && h > 0 ==> EntryOk(pending, certified, h, l.blocks[h])
  }

  ghost predicate CommitInFlight(pool: multiset<Task>) {
    ExtendChain in pool || exists c :: CommitAncestors(c) in pool
  }

  /** While the certificate for the next height waits, a goroutine that will commit it is in flight. */
  ghost predicate ChainWake(l: Ledger, pool: multiset<Task>) {
    l.height + 1 in l.pendingQC ==> CommitInFlight(pool)
  }

  lemma EntriesGrow(pending: map<nat, Level>, pending': map<nat, Level>, l: Ledger,
                    certified: map<nat, CertBlock>, certified': map<nat, CertBlock>)
    requires LedgerOk(pending, l, certified)
    requires forall b :: Has(pending, b) ==> Has(pending', b)
    requires forall j :: j in certified ==> j in certified' && certified'[j] == certified[j]
    ensures LedgerOk(pending', l, certified')
  {
    forall h | h in l.blocks && h > 0
      ensures EntryOk(pending', certified', h, l.blocks[h])
    {
      assert EntryOk(pending, certified, h, l.blocks[h]);
    }
  }

  lemma LedgerPut(pending: map<nat, Level>, l: Ledger, certified: map<nat, CertBlock>, b: Block)
    requires LedgerOk(pending, l, certified)
    ensures LedgerOk(Put(pending, b), l, certified)
  {
    hide LedgerOk;
    PutHas(pending, b);
    EntriesGrow(pending, Put(pending, b), l, certified, certified);
  }

  lemma LedgerCertified(pending: map<nat, Level>, l: Ledger, certified: map<nat, CertBlock>, c: CertBlock)
    requires LedgerOk(pending, l, certified) && c.block.height !in certified
    ensures LedgerOk(pending, l.(pendingQC := l.pendingQC[c.block.height := c]), certified[c.block.height := c])
  {
    EntriesGrow(pending, pending, l, certified, certified[c.block.height := c]);
  }

  lemma LedgerCommits(p: Proposals, l: Ledger, certified: map<nat, CertBlock>, c: CertBlock)
    requires Shape(p) && LedgerOk(p.pending, l, certified)
    requires c.block.height in certified && certified[c.block.height] == c
    requires CommitAncestorsLedger(p, l, c).Some?
    ensures LedgerOk(p.pending, CommitAncestorsLedger(p, l, c).value, certified)
  {
    CommitAncestorsCommits(p, l, c);
    if ParentIsCandidate(p, l, c) {
      var l' := CommitAncestorsLedger(p, l, c).value;
      var top := c.block.height - 1;
      KeysUpTo(l'.blocks, if top < |l.blocks| then |l.blocks| else top + 1);
      forall h | h in l'.blocks && h > 0
        ensures EntryOk(p.pending, certified, h, l'.blocks[h])
      {
        if l.height < h <= top {
          assert HeldAncestor(p, c.block, h);
        } else {
          assert EntryOk(p.pending, certified, h, l.blocks[h]);
        }
      }
    }
  }

  /** A waiting certificate is one the node has entered, for a pending block at that height. */
  lemma WaitingEntryOk(q: nat, pending: map<nat, Level>, sigs: Sigs, pool: multiset<Task>,
                       certified: map<nat, CertBlock>, pendingQC: map<nat, CertBlock>, h: nat)
    requires CertContents(q, pending, sigs, pool, certified, pendingQC) && h in pendingQC
    ensures EntryOk(pending, certified, h, pendingQC[h])
  {
    assert CertOk(q, pending, sigs, certified[h]);
    assert Ancestor(certified[h].block, h) == Some(certified[h].block);
  }

  lemma LedgerExtends(pending: map<nat, Level>, l: Ledger, certified: map<nat, CertBlock>)
    requires LedgerOk(pending, l, certified)
    requires l.height + 1 in l.pendingQC ==> EntryOk(pending, certified, l.height + 1, l.pendingQC[l.height + 1])
    ensures LedgerOk(pending, ExtendLedger(l), certified)
  {
    var h := l.height + 1;
    if h in l.pendingQC {
      var l' := ExtendLedger(l);
      KeysUpTo(l'.blocks, if h < |l.blocks| then |l.blocks| else h + 1);
      forall k | k in l'.blocks && k > 0
        ensures EntryOk(pending, certified, k, l'.blocks[k])
      {
        if k != h {
          assert EntryOk(pending, certified, k, l.blocks[k]);
        }
      }
    }
  }

  lemma ChainWakeSame(l: Ledger, pool: multiset<Task>, pool': multiset<Task>)
    requires ChainWake(l, pool)
    requires forall u: Task :: (u.ExtendChain? || u.CommitAncestors?) && u in pool ==> u in pool'
    ensures ChainWake(l, pool')
  {
    if l.height + 1 in l.pendingQC && ExtendChain !in pool {
      var c :| CommitAncestors(c) in pool;
      assert CommitAncestors(c) in pool';
    }
  }

  lemma ChainWakeCommit(l: Ledger, pool: multiset<Task>, c: CertBlock)
    requires CommitAncestors(c) in pool
    ensures ChainWake(l, pool)
  {
  }

  lemma ChainWakeAgain(l: Ledger, pool: multiset<Task>)
    requires ExtendChain in pool
    ensures ChainWake(l, pool)
  {
  }

  lemma ChainWakeExtend(l: Ledger, pool: multiset<Task>)
    ensures ChainWake(ExtendLedger(l), pool + (if l.height + 1 in l.pendingQC then multiset{ExtendChain} else multiset{}))
  {
  }

  lemma CommitKeepsWaiting(p: Proposals, l: Ledger, c: CertBlock)
    ensures CommitAncestorsLedger(p, l, c).Some? ==> CommitAncestorsLedger(p, l, c).value.pendingQC == l.pendingQC
  {
  }

  lemma CertsWaiting(q: nat, pending: map<nat, Level>, tally: Tally, pool: multiset<Task>,
                     certified: map<nat, CertBlock>, pendingQC: map<nat, CertBlock>, h: nat)
    requires CertInv(q, pending, tally, pool, certified, pendingQC)
    ensures h in pendingQC ==> EntryOk(pending, certified, h, pendingQC[h])
  {
    if h in pendingQC {
      WaitingEntryOk(q, pending, tally.sigs, pool, certified, pendingQC, h);
    }
  }

  lemma CommittedIsCertified(q: nat, pending: map<nat, Level>, tally: Tally, pool: multiset<Task>,
                             certified: map<nat, CertBlock>, pendingQC: map<nat, CertBlock>, c: CertBlock)
    requires CertInv(q, pending, tally, pool, certified, pendingQC) && CommitAncestors(c) in pool
    ensures c.block.height in certified && certified[c.block.height] == c
  {
  }
}
