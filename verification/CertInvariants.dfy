/** The votes and certificates of one node: at most one certificate per height, none lost, each earned. */
module CertInvariants {
  import opened Blocks
  import opened NodeSpec
  import opened ProposalInvariants

  type Sigs = map<nat, map<Hash, Ballots>>

  /** Every height that could be certified and is not marked has a check in flight; a marked height
      could be certified. */
  ghost predicate QuorumWake(q: nat, pending: map<nat, Level>, tally: Tally, pool: multiset<Task>) {
    && (forall h, x :: Ready(q, pending, tally.sigs, h, x) && h !in tally.qcCreated ==> CheckQuorum(h, x) in pool)
    && (forall h :: h in tally.qcCreated ==> exists x :: Ready(q, pending, tally.sigs, h, x))
  }

  /** `t` carries the making of the certificate for height `h`. */
  predicate MakesCert(t: Task, h: nat) {
    || (t.BuildQC? && t.height == h)
    || (t.InsertQC? && t.cert.block.height == h)
  }

  /** A marked height has exactly one certificate, either in the making by one goroutine or entered
      already, and no goroutine makes one for an unmarked or entered height. */
  ghost predicate OneCertificate(marked: set<nat>, pool: multiset<Task>, entered: set<nat>) {
    && (forall t, h :: t in pool && MakesCert(t, h) ==> h in marked && h !in entered && pool[t] == 1)
    && (forall t, u, h :: t in pool && u in pool && MakesCert(t, h) && MakesCert(u, h) ==> t == u)
    && (forall h :: h in marked ==> h in entered || exists t :: t in pool && MakesCert(t, h))
    && entered <= marked
  }

  /** `c` certifies a pending block for which a quorum of votes is recorded. */
  ghost predicate CertOk(q: nat, pending: map<nat, Level>, sigs: Sigs, c: CertBlock) {
    Ready(q, pending, sigs, c.block.height, Digest(c.block)) && c.qc == Cert(Approval(c.block))
  }

  /** Every certificate, wherever it is, belongs to a pending block with a quorum of recorded votes. */
  ghost predicate CertContents(q: nat, pending: map<nat, Level>, sigs: Sigs, pool: multiset<Task>,
                               certified: map<nat, CertBlock>, pendingQC: map<nat, CertBlock>) {
    && (forall h, x :: BuildQC(h, x) in pool ==> Ready(q, pending, sigs, h, x))
    && (forall c :: InsertQC(c) in pool ==> CertOk(q, pending, sigs, c))
    && (forall h :: h in certified ==> certified[h].block.height == h && CertOk(q, pending, sigs, certified[h]))
    && (forall h :: h in pendingQC ==> h in certified && certified[h] == pendingQC[h])
    && (forall c :: CommitAncestors(c) in pool ==> c.block.height in certified && certified[c.block.height] == c)
  }

  ghost predicate CertInv(q: nat, pending: map<nat, Level>, tally: Tally, pool: multiset<Task>,
                          certified: map<nat, CertBlock>, pendingQC: map<nat, CertBlock>) {
    && QuorumWake(q, pending, tally, pool)
    && OneCertificate(tally.qcCreated, pool, certified.Keys)
    && CertContents(q, pending, tally.sigs, pool, certified, pendingQC)
  }

  /** The goroutines `CertInv` speaks about. */
  predicate MovesCerts(t: Task) { t.CheckQuorum? || t.BuildQC? || t.InsertQC? || t.CommitAncestors? }

  lemma RecordVoteBallots(sigs: Sigs, v: Vote)
    ensures forall h, x ::
      BallotsAt(RecordVote(sigs, v), h, x) ==
      if h == v.plain.height && x == v.plain.hash then BallotsAt(sigs, h, x)[v.sender := v.sig] else BallotsAt(sigs, h, x)
  {
  }

  lemma RecordVoteReady(q: nat, pending: map<nat, Level>, sigs: Sigs, v: Vote)
    ensures forall h, x :: Ready(q, pending, sigs, h, x) ==> Ready(q, pending, RecordVote(sigs, v), h, x)
    ensures forall h, x :: Ready(q, pending, RecordVote(sigs, v), h, x) ==>
      Ready(q, pending, sigs, h, x) || (h == v.plain.height && x == v.plain.hash)
  {
    RecordVoteBallots(sigs, v);
  }

  lemma PutReady(q: nat, pending: map<nat, Level>, sigs: Sigs, b: Block)
    ensures forall h, x :: Ready(q, pending, sigs, h, x) ==> Ready(q, Put(pending, b), sigs, h, x)
    ensures forall h, x :: Ready(q, Put(pending, b), sigs, h, x) ==>
      Ready(q, pending, sigs, h, x) || (h == b.height && x == Digest(b))
  {
    PutHas(pending, b);
  }

  // ---------- One certificate per height ----------

  lemma OneCertSame(marked: set<nat>, pool: multiset<Task>, entered: set<nat>, pool': multiset<Task>)
    requires OneCertificate(marked, pool, entered)
    requires forall u: Task :: u.BuildQC? || u.InsertQC? ==> pool'[u] == pool[u]
    ensures OneCertificate(marked, pool', entered)
  {
    assert forall t, h :: t in pool' && MakesCert(t, h) ==> t in pool;
    assert forall t, h :: t in pool && MakesCert(t, h) ==> t in pool';
  }

  /** Marking a height starts the one goroutine for it. */
  lemma OneCertMark(marked: set<nat>, pool: multiset<Task>, entered: set<nat>, h: nat, x: Hash)
    requires OneCertificate(marked, pool, entered) && h !in marked
    ensures OneCertificate(marked + {h}, pool - multiset{CheckQuorum(h, x)} + multiset{BuildQC(h, x)}, entered)
  {
    assert forall u :: u in pool ==> !MakesCert(u, h);
    var pool' := pool - multiset{CheckQuorum(h, x)} + multiset{BuildQC(h, x)};
    assert MakesCert(BuildQC(h, x), h) && BuildQC(h, x) in pool';
    assert forall t, k :: t in pool' && MakesCert(t, k) ==> t in pool || t == BuildQC(h, x);
    assert forall t, k :: t in pool && MakesCert(t, k) ==> t in pool';
  }

  /** The built certificate takes over from the goroutine that built it. */
  lemma OneCertBuild(marked: set<nat>, pool: multiset<Task>, entered: set<nat>, h: nat, x: Hash, c: CertBlock)
    requires OneCertificate(marked, pool, entered) && BuildQC(h, x) in pool && c.block.height == h
    ensures OneCertificate(marked, pool - multiset{BuildQC(h, x)} + multiset{InsertQC(c)}, entered)
  {
    assert MakesCert(BuildQC(h, x), h) && MakesCert(InsertQC(c), h);
    var pool' := pool - multiset{BuildQC(h, x)} + multiset{InsertQC(c)};
    assert InsertQC(c) in pool' && InsertQC(c) !in pool;
    assert forall t, k :: t in pool' && MakesCert(t, k) ==> t == InsertQC(c) || (t in pool && t != BuildQC(h, x));
    assert forall t, k :: t in pool && MakesCert(t, k) ==> t in pool' || k == h;
  }

  /** The goroutine that inserts a certificate is the only one for its height and finds none entered. */
  lemma OneCertInsert(marked: set<nat>, pool: multiset<Task>, entered: set<nat>, c: CertBlock)
    requires OneCertificate(marked, pool, entered) && InsertQC(c) in pool
    ensures c.block.height !in entered
    ensures OneCertificate(marked, pool - multiset{InsertQC(c)} + multiset{CommitAncestors(c)}, entered + {c.block.height})
  {
    var h := c.block.height;
    assert MakesCert(InsertQC(c), h);
    var pool' := pool - multiset{InsertQC(c)} + multiset{CommitAncestors(c)};
    assert forall t, k :: t in pool' && MakesCert(t, k) ==> t in pool && t != InsertQC(c);
    assert forall t, k :: t in pool && MakesCert(t, k) ==> t in pool' || k == h;
  }

  // ---------- All the certificate invariants ----------

  lemma CertsSame(q: nat, pending: map<nat, Level>, tally: Tally, pool: multiset<Task>,
                  certified: map<nat, CertBlock>, pendingQC: map<nat, CertBlock>, pool': multiset<Task>)
    requires CertInv(q, pending, tally, pool, certified, pendingQC)
    requires forall u :: MovesCerts(u) ==> pool'[u] == pool[u] || (u.CommitAncestors? && pool'[u] <= pool[u])
    ensures CertInv(q, pending, tally, pool', certified, pendingQC)
  {
    OneCertSame(tally.qcCreated, pool, certified.Keys, pool');
  }

  /** More can become ready, at one (height, hash), provided a check for it is put in flight. */
  lemma CertsGrow(q: nat, pending: map<nat, Level>, tally: Tally, pending': map<nat, Level>, sigs': Sigs,
                  pool: multiset<Task>, certified: map<nat, CertBlock>, pendingQC: map<nat, CertBlock>,
                  h0: nat, x0: Hash, pool': multiset<Task>)
    requires CertInv(q, pending, tally, pool, certified, pendingQC)
    requires forall h, x :: Ready(q, pending, tally.sigs, h, x) ==> Ready(q, pending', sigs', h, x)
    requires forall h, x :: Ready(q, pending', sigs', h, x) ==> Ready(q, pending, tally.sigs, h, x) || (h == h0 && x == x0)
    requires forall u :: MovesCerts(u) && u != CheckQuorum(h0, x0) ==> pool'[u] == pool[u]
    requires CheckQuorum(h0, x0) in pool'
    ensures CertInv(q, pending', tally.(sigs := sigs'), pool', certified, pendingQC)
  {
    OneCertSame(tally.qcCreated, pool, certified.Keys, pool');
    ContentsGrow(q, pending, tally.sigs, pending', sigs', pool, certified, pendingQC, pool');
    QuorumGrow(q, pending, tally, pending', sigs', pool, h0, x0, pool');
  }

  lemma ContentsGrow(q: nat, pending: map<nat, Level>, sigs: Sigs, pending': map<nat, Level>, sigs': Sigs,
                     pool: multiset<Task>, certified: map<nat, CertBlock>, pendingQC: map<nat, CertBlock>, pool': multiset<Task>)
    requires CertContents(q, pending, sigs, pool, certified, pendingQC)
    requires forall h, x :: Ready(q, pending, sigs, h, x) ==> Ready(q, pending', sigs', h, x)
    requires forall u :: MovesCerts(u) && !u.CheckQuorum? ==> pool'[u] == pool[u]
    ensures CertContents(q, pending', sigs', pool', certified, pendingQC)
  {
  }

  lemma QuorumGrow(q: nat, pending: map<nat, Level>, tally: Tally, pending': map<nat, Level>, sigs': Sigs,
                   pool: multiset<Task>, h0: nat, x0: Hash, pool': multiset<Task>)
    requires QuorumWake(q, pending, tally, pool)
    requires forall h, x :: Ready(q, pending, tally.sigs, h, x) ==> Ready(q, pending', sigs', h, x)
    requires forall h, x :: Ready(q, pending', sigs', h, x) ==> Ready(q, pending, tally.sigs, h, x) || (h == h0 && x == x0)
    requires forall u: Task :: u.CheckQuorum? && u != CheckQuorum(h0, x0) ==> pool'[u] == pool[u]
    requires CheckQuorum(h0, x0) in pool'
    ensures QuorumWake(q, pending', tally.(sigs := sigs'), pool')
  {
  }

  lemma CertsHandleBlock(q: nat, pending: map<nat, Level>, tally: Tally, pool: multiset<Task>,
                         certified: map<nat, CertBlock>, pendingQC: map<nat, CertBlock>, b: Block)
    requires CertInv(q, pending, tally, pool, certified, pendingQC)
    ensures CertInv(q, Put(pending, b), tally,
              pool - multiset{HandleBlock(b)} + multiset{UpdateCandidate(b), CheckQuorum(b.height, Digest(b))}, certified, pendingQC)
  {
    hide CertInv;
    PutReady(q, pending, tally.sigs, b);
    CertsGrow(q, pending, tally, Put(pending, b), tally.sigs, pool, certified, pendingQC, b.height, Digest(b),
              pool - multiset{HandleBlock(b)} + multiset{UpdateCandidate(b), CheckQuorum(b.height, Digest(b))});
  }

  lemma CertsHandleVote(q: nat, pending: map<nat, Level>, tally: Tally, pool: multiset<Task>,
                        certified: map<nat, CertBlock>, pendingQC: map<nat, CertBlock>, v: Vote)
    requires CertInv(q, pending, tally, pool, certified, pendingQC)
    ensures CertInv(q, pending, tally.(sigs := RecordVote(tally.sigs, v)),
              pool - multiset{HandleVote(v)} + multiset{CheckQuorum(v.plain.height, v.plain.hash)}, certified, pendingQC)
  {
    hide CertInv;
    RecordVoteReady(q, pending, tally.sigs, v);
    CertsGrow(q, pending, tally, pending, RecordVote(tally.sigs, v), pool, certified, pendingQC, v.plain.height, v.plain.hash,
              pool - multiset{HandleVote(v)} + multiset{CheckQuorum(v.plain.height, v.plain.hash)});
  }

  lemma CertsMark(q: nat, pending: map<nat, Level>, tally: Tally, pool: multiset<Task>,
                  certified: map<nat, CertBlock>, pendingQC: map<nat, CertBlock>, h: nat, x: Hash)
    requires CertInv(q, pending, tally, pool, certified, pendingQC)
    requires Ready(q, pending, tally.sigs, h, x) && h !in tally.qcCreated
    ensures CertInv(q, pending, tally.(qcCreated := tally.qcCreated + {h}),
              pool - multiset{CheckQuorum(h, x)} + multiset{BuildQC(h, x)}, certified, pendingQC)
  {
    OneCertMark(tally.qcCreated, pool, certified.Keys, h, x);
  }

  lemma CertsNoMark(q: nat, pending: map<nat, Level>, tally: Tally, pool: multiset<Task>,
                    certified: map<nat, CertBlock>, pendingQC: map<nat, CertBlock>, h: nat, x: Hash)
    requires CertInv(q, pending, tally, pool, certified, pendingQC)
    requires !Ready(q, pending, tally.sigs, h, x) || h in tally.qcCreated
    ensures CertInv(q, pending, tally, pool - multiset{CheckQuorum(h, x)}, certified, pendingQC)
  {
    OneCertSame(tally.qcCreated, pool, certified.Keys, pool - multiset{CheckQuorum(h, x)});
  }

  /** The block of a certificate being built is there and so is a quorum of shares, so building never fails. */
  lemma CertsBuild(q: nat, pending: map<nat, Level>, tally: Tally, pool: multiset<Task>,
                   certified: map<nat, CertBlock>, pendingQC: map<nat, CertBlock>, h: nat, x: Hash)
    requires CertInv(q, pending, tally, pool, certified, pendingQC) && LevelsOk(pending)
    requires BuildQC(h, x) in pool
    ensures Ready(q, pending, tally.sigs, h, x)
    ensures var b := pending[h][x];
      CertInv(q, pending, tally, pool - multiset{BuildQC(h, x)} + multiset{InsertQC(CertBlock(b, Cert(Approval(b))))},
              certified, pendingQC)
  {
    var b := pending[h][x];
    assert x == Digest(b) && b.height == h;
    OneCertBuild(tally.qcCreated, pool, certified.Keys, h, x, CertBlock(b, Cert(Approval(b))));
  }

  lemma CertsInsert(q: nat, pending: map<nat, Level>, tally: Tally, pool: multiset<Task>,
                    certified: map<nat, CertBlock>, pendingQC: map<nat, CertBlock>, c: CertBlock)
    requires CertInv(q, pending, tally, pool, certified, pendingQC) && InsertQC(c) in pool
    ensures c.block.height !in certified && c.block.height !in pendingQC
    ensures CertInv(q, pending, tally, pool - multiset{InsertQC(c)} + multiset{CommitAncestors(c)},
              certified[c.block.height := c], pendingQC[c.block.height := c])
  {
    OneCertInsert(tally.qcCreated, pool, certified.Keys, c);
    assert certified[c.block.height := c].Keys == certified.Keys + {c.block.height};
    ContentsInsert(q, pending, tally.sigs, pool, certified, pendingQC, c);
  }

  lemma ContentsInsert(q: nat, pending: map<nat, Level>, sigs: Sigs, pool: multiset<Task>,
                       certified: map<nat, CertBlock>, pendingQC: map<nat, CertBlock>, c: CertBlock)
    requires CertContents(q, pending, sigs, pool, certified, pendingQC)
    requires InsertQC(c) in pool && c.block.height !in certified
    ensures CertContents(q, pending, sigs, pool - multiset{InsertQC(c)} + multiset{CommitAncestors(c)},
              certified[c.block.height := c], pendingQC[c.block.height := c])
  {
  }

  lemma CertsExtend(q: nat, pending: map<nat, Level>, tally: Tally, pool: multiset<Task>,
                    certified: map<nat, CertBlock>, l: Ledger)
    requires CertInv(q, pending, tally, pool, certified, l.pendingQC)
    ensures CertInv(q, pending, tally, pool, certified, ExtendLedger(l).pendingQC)
  {
  }
}
