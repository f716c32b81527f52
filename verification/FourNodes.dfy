/** A cluster of four with one faulty member, and the stretches of a run from which concrete runs are put together. */
module FourNodes {
  import opened Blocks
  import opened NodeSpec
  import opened NodeRuns
  import opened CertInvariants
  import opened Cluster

  const NAMES := {"a", "b", "c", "x"}
  const HONEST := {"a", "b", "c"}

  function Cfg(me: Name): Config {
    Config(me, NAMES)
  }

  lemma OneFaulty()
    ensures FaultBound(NAMES, HONEST) && forall me :: Cfg(me).Q() == 3
  {
    assert NAMES - HONEST == {"x"};
    assert NAMES == {"a"} + {"b"} + {"c"} + {"x"};
  }

  function CertOf(b: Block): CertBlock {
    CertBlock(b, Cert(Approval(b)))
  }

  predicate Live(y: Sys) {
    !y.node.crashed && !y.node.lockHeld
  }

  // ---------- Single events ----------

  lemma Single(cfg: Config, y: Sys, e: Event)
    ensures RunFrom(cfg, y, [e]) == Step(cfg, y, e)
  {
    assert [e][..0] == [];
  }

  lemma Then(cfg: Config, y: Sys, es: seq<Event>, e: Event)
    ensures RunFrom(cfg, y, es + [e]) == Step(cfg, RunFrom(cfg, y, es), e)
  {
    assert (es + [e])[..|es|] == es;
  }

  /** `y` after goroutine `t` has run its section, `rest` being the others. */
  function After(cfg: Config, y: Sys, rest: multiset<Task>, t: Task): Sys {
    var eff := RunTask(cfg, y.node, t);
    y.(node := eff.node, pool := rest + eff.spawned,
       sent := if eff.sent.Some? then y.sent + {eff.sent.value} else y.sent,
       certified := if t.InsertQC? && t.cert.block.height !in y.node.ledger.pendingQC
                    then y.certified[t.cert.block.height := t.cert] else y.certified)
  }

  /** A run that has come to `y` goes on with a goroutine. */
  lemma Ran(cfg: Config, y0: Sys, es: seq<Event>, y: Sys, rest: multiset<Task>, t: Task)
    requires RunFrom(cfg, y0, es) == y && Live(y) && !t.SendToken? && y.pool == rest + multiset{t}
    ensures RunFrom(cfg, y0, es + [Run(t)]) == After(cfg, y, rest, t)
  {
    hide RunTask;
    Then(cfg, y0, es, Run(t));
    assert y.pool - multiset{t} == rest;
  }

  // ---------- A block arrives, becomes a candidate and is voted for ----------

  /** The block becomes pending; nobody has voted for it yet. */
  function Arrive(b: Block): seq<Event> {
    [Deliver(b)] + [Run(HandleBlock(b))] + [Run(CheckQuorum(b.height, Digest(b)))]
  }

  lemma Arrives(me: Name, y: Sys, b: Block)
    requires Live(y) && b.proposer in NAMES && y.node.tally.sigs == map[]
    ensures RunFrom(Cfg(me), y, Arrive(b)) ==
      y.(node := y.node.(props := AddPending(y.node.props, b)),
         pool := y.pool + multiset{CheckVoted(b), UpdateCandidate(b)}, delivered := y.delivered + {b})
  {
    hide RunFrom, Step, AddPending;
    OneFaulty();
    var cfg, quorum, rest := Cfg(me), CheckQuorum(b.height, Digest(b)), y.pool + multiset{CheckVoted(b)};
    Single(cfg, y, Deliver(b));
    Deliverable(cfg, y, b);
    var y1 := y.(pool := rest + multiset{HandleBlock(b)}, delivered := y.delivered + {b});
    Ran(cfg, y, [Deliver(b)], y1, rest, HandleBlock(b));
    var y2 := y1.(node := y.node.(props := AddPending(y.node.props, b)),
                  pool := rest + multiset{UpdateCandidate(b)} + multiset{quorum});
    Ran(cfg, y, [Deliver(b)] + [Run(HandleBlock(b))], y2, rest + multiset{UpdateCandidate(b)}, quorum);
  }

  lemma Deliverable(cfg: Config, y: Sys, b: Block)
    requires Live(y) && b.proposer in cfg.names
    ensures Step(cfg, y, Deliver(b)) ==
      y.(pool := y.pool + multiset{CheckVoted(b)} + multiset{HandleBlock(b)}, delivered := y.delivered + {b})
  {
    assert multiset{HandleBlock(b), CheckVoted(b)} == multiset{CheckVoted(b)} + multiset{HandleBlock(b)};
  }

  function Rise(b: Block): seq<Event> {
    [Run(UpdateCandidate(b))] + [Run(ExtendCandidate)] + [Run(ExtendCandidate)]
  }

  /** A pending block of the next height makes a new candidate level. */
  lemma Rises(me: Name, y: Sys, rest: multiset<Task>, b: Block)
    requires Live(y) && y.pool == rest + multiset{UpdateCandidate(b)}
    requires b.height == y.node.props.height + 1 && b.height in y.node.props.pending && b.height + 1 !in y.node.props.pending
    ensures RunFrom(Cfg(me), y, Rise(b)) ==
      y.(node := y.node.(props := y.node.props.(height := b.height)), pool := rest + multiset{SendToken})
  {
    hide RunFrom, Step;
    var cfg := Cfg(me);
    Start(cfg, y);
    Ran(cfg, y, [], y, rest, UpdateCandidate(b));
    assert [] + [Run(UpdateCandidate(b))] == [Run(UpdateCandidate(b))];
    var y1 := y.(pool := rest + multiset{ExtendCandidate});
    Ran(cfg, y, [Run(UpdateCandidate(b))], y1, rest, ExtendCandidate);
    var y2 := y1.(node := y.node.(props := y.node.props.(height := b.height)),
                  pool := rest + multiset{SendToken} + multiset{ExtendCandidate});
    Ran(cfg, y, [Run(UpdateCandidate(b))] + [Run(ExtendCandidate)], y2, rest + multiset{SendToken}, ExtendCandidate);
  }

  /** A late block is a candidate already, its pending level being the candidate level. */
  lemma InsertsAgain(me: Name, y: Sys, rest: multiset<Task>, b: Block)
    requires Live(y) && y.pool == rest + multiset{UpdateCandidate(b)}
    requires b.height <= y.node.props.height && AddCandidate(y.node.props, b) == y.node.props
    ensures RunFrom(Cfg(me), y, [Run(UpdateCandidate(b))]) == y.(pool := rest)
  {
    hide RunFrom, Step;
    Start(Cfg(me), y);
    Ran(Cfg(me), y, [], y, rest, UpdateCandidate(b));
    assert [] + [Run(UpdateCandidate(b))] == [Run(UpdateCandidate(b))];
  }

  lemma Start(cfg: Config, y: Sys)
    ensures RunFrom(cfg, y, []) == y
  {
  }

  function CastBallot(b: Block): seq<Event> {
    [Run(CheckVoted(b))] + [Run(CastVote(b))]
  }

  lemma CastsBallot(me: Name, y: Sys, rest: multiset<Task>, b: Block)
    requires Live(y) && y.pool == rest + multiset{CheckVoted(b)} && b.height !in y.node.voted
    ensures RunFrom(Cfg(me), y, CastBallot(b)) ==
      y.(node := y.node.(voted := y.node.voted + {b.height}), pool := rest, sent := y.sent + {Ballot(MyVote(me, b))})
  {
    hide RunFrom, Step;
    var cfg := Cfg(me);
    Start(cfg, y);
    Ran(cfg, y, [], y, rest, CheckVoted(b));
    assert [] + [Run(CheckVoted(b))] == [Run(CheckVoted(b))];
    Ran(cfg, y, [Run(CheckVoted(b))], y.(pool := rest + multiset{CastVote(b)}), rest, CastVote(b));
  }

  lemma StaysSilent(me: Name, y: Sys, rest: multiset<Task>, b: Block)
    requires Live(y) && y.pool == rest + multiset{CheckVoted(b)} && b.height in y.node.voted
    ensures RunFrom(Cfg(me), y, [Run(CheckVoted(b))]) == y.(pool := rest)
  {
    hide RunFrom, Step;
    Start(Cfg(me), y);
    Ran(Cfg(me), y, [], y, rest, CheckVoted(b));
    assert [] + [Run(CheckVoted(b))] == [Run(CheckVoted(b))];
  }

  // ---------- Whole stretches ----------

  function ReceiveNew(b: Block): seq<Event> {
    Arrive(b) + Rise(b) + CastBallot(b)
  }

  /** The proposals after a block of the next height has been received and made a candidate. */
  function Grown(p: Proposals, b: Block): Proposals {
    Proposals(Put(p.pending, b), p.level0, b.height)
  }

  function ReceivedNew(me: Name, y: Sys, b: Block): Sys {
    y.(node := y.node.(props := Grown(y.node.props, b), voted := y.node.voted + {b.height}),
       pool := y.pool + multiset{SendToken},
       delivered := y.delivered + {b},
       sent := y.sent + {Ballot(MyVote(me, b))})
  }

  /** A block of the next height becomes a candidate and gets the node's vote. */
  lemma ReceivesNew(me: Name, y: Sys, b: Block)
    requires Live(y) && b.proposer in NAMES && y.node.tally.sigs == map[]
    requires b.height == y.node.props.height + 1 && b.height !in y.node.voted && b.height + 1 !in y.node.props.pending
    ensures RunFrom(Cfg(me), y, ReceiveNew(b)) == ReceivedNew(me, y, b)
  {
    hide RunFrom, Arrive, Rise, CastBallot, Put;
    var cfg, base := Cfg(me), y.pool + multiset{SendToken};
    PutNext(y.node.props, b);
    Arrives(me, y, b);
    var y1 := RunFrom(cfg, y, Arrive(b));
    assert y1.pool == y.pool + multiset{CheckVoted(b)} + multiset{UpdateCandidate(b)};
    Rises(me, y1, y.pool + multiset{CheckVoted(b)}, b);
    RunFromConcat(cfg, y, Arrive(b), Rise(b));
    var y2 := RunFrom(cfg, y, Arrive(b) + Rise(b));
    assert y2.pool == base + multiset{CheckVoted(b)};
    CastsBallot(me, y2, base, b);
    RunFromConcat(cfg, y, Arrive(b) + Rise(b), CastBallot(b));
  }

  lemma PutNext(p: Proposals, b: Block)
    ensures b.height in Put(p.pending, b)
    ensures b.height + 1 in Put(p.pending, b) <==> b.height + 1 in p.pending
  {
  }

  function ReceiveLate(b: Block): seq<Event> {
    Arrive(b) + [Run(UpdateCandidate(b))] + [Run(CheckVoted(b))]
  }

  /** A second block of a candidate height joins the first and gets no vote. */
  lemma ReceivesLate(me: Name, y: Sys, b: Block)
    requires Live(y) && b.proposer in NAMES && y.node.tally.sigs == map[]
    requires 1 <= b.height <= y.node.props.height && b.height in y.node.voted
    ensures RunFrom(Cfg(me), y, ReceiveLate(b)) ==
      y.(node := y.node.(props := AddPending(y.node.props, b)), delivered := y.delivered + {b})
  {
    hide RunFrom, Arrive, Put;
    var cfg := Cfg(me);
    PutTwice(y.node.props.pending, b);
    Arrives(me, y, b);
    var y1 := RunFrom(cfg, y, Arrive(b));
    assert y1.pool == y.pool + multiset{CheckVoted(b)} + multiset{UpdateCandidate(b)};
    InsertsAgain(me, y1, y.pool + multiset{CheckVoted(b)}, b);
    RunFromConcat(cfg, y, Arrive(b), [Run(UpdateCandidate(b))]);
    StaysSilent(me, y1.(pool := y.pool + multiset{CheckVoted(b)}), y.pool, b);
    RunFromConcat(cfg, y, Arrive(b) + [Run(UpdateCandidate(b))], [Run(CheckVoted(b))]);
  }

  lemma PutTwice(m: map<nat, Level>, b: Block)
    ensures Put(Put(m, b), b) == Put(m, b)
  {
    assert Put(m, b)[b.height][Digest(b) := b] == Put(m, b)[b.height];
  }

  /** Three blocks, one for each of the heights 1 to 3, in this order. */
  function ReceiveThree(b1: Block, b2: Block, b3: Block): seq<Event> {
    ReceiveNew(b1) + ReceiveNew(b2) + ReceiveNew(b3)
  }

  predicate OnThreeHeights(b1: Block, b2: Block, b3: Block) {
    && b1.height == 1 && b2.height == 2 && b3.height == 3
    && b1.proposer == b2.proposer == b3.proposer == "x"
  }

  /** The proposals of a node that has received just these blocks. */
  function Proposed(b1: Block, b2: Block, b3: Block): Proposals {
    Proposals(map[1 := map[Digest(b1) := b1], 2 := map[Digest(b2) := b2], 3 := map[Digest(b3) := b3]],
              INITIAL_NODE.props.level0, 3)
  }

  lemma ReceivesThree(me: Name, b1: Block, b2: Block, b3: Block)
    requires OnThreeHeights(b1, b2, b3)
    ensures var y := RunFrom(Cfg(me), INITIAL_SYS, ReceiveThree(b1, b2, b3));
      && y.node == INITIAL_NODE.(props := Proposed(b1, b2, b3), voted := {1, 2, 3})
      && y.certified == map[] && y.pool == multiset{SendToken, SendToken, SendToken}
      && Ballot(MyVote(me, b1)) in y.sent && Ballot(MyVote(me, b2)) in y.sent && Ballot(MyVote(me, b3)) in y.sent
  {
    hide RunFrom, ReceiveNew;
    var cfg := Cfg(me);
    ReceivesNew(me, INITIAL_SYS, b1);
    var y1 := ReceivedNew(me, INITIAL_SYS, b1);
    ReceivesNew(me, y1, b2);
    RunFromConcat(cfg, INITIAL_SYS, ReceiveNew(b1), ReceiveNew(b2));
    var y2 := ReceivedNew(me, y1, b2);
    ReceivesNew(me, y2, b3);
    RunFromConcat(cfg, INITIAL_SYS, ReceiveNew(b1) + ReceiveNew(b2), ReceiveNew(b3));
  }

  // ---------- Votes arrive and make a certificate ----------

  function CountVote(v: Vote): seq<Event> {
    [DeliverVote(v)] + [Run(HandleVote(v))] + [Run(CheckQuorum(v.plain.height, v.plain.hash))]
  }

  /** A vote is recorded and its check run: the last of a quorum starts the building of the certificate. */
  lemma Counts(me: Name, y: Sys, v: Vote)
    requires Live(y) && v.sender in NAMES && v.plain.height !in y.node.tally.qcCreated
    ensures var h, x, sigs := v.plain.height, v.plain.hash, RecordVote(y.node.tally.sigs, v);
      var ready := Ready(3, y.node.props.pending, sigs, h, x);
      RunFrom(Cfg(me), y, CountVote(v)) ==
        y.(node := y.node.(tally := Tally(sigs, y.node.tally.qcCreated + if ready then {h} else {})),
           pool := y.pool + if ready then multiset{BuildQC(h, x)} else multiset{})
  {
    hide RunFrom, Step, RecordVote, Ready;
    OneFaulty();
    var cfg, sigs, quorum := Cfg(me), RecordVote(y.node.tally.sigs, v), CheckQuorum(v.plain.height, v.plain.hash);
    Single(cfg, y, DeliverVote(v));
    VoteDeliverable(cfg, y, v);
    var y1 := y.(pool := y.pool + multiset{HandleVote(v)});
    Ran(cfg, y, [DeliverVote(v)], y1, y.pool, HandleVote(v));
    var y2 := y.(node := y.node.(tally := y.node.tally.(sigs := sigs)), pool := y.pool + multiset{quorum});
    Ran(cfg, y, [DeliverVote(v)] + [Run(HandleVote(v))], y2, y.pool, quorum);
    assert y.node.tally.qcCreated + {} == y.node.tally.qcCreated;
  }

  lemma VoteDeliverable(cfg: Config, y: Sys, v: Vote)
    requires Live(y) && v.sender in cfg.names
    ensures Step(cfg, y, DeliverVote(v)) == y.(pool := y.pool + multiset{HandleVote(v)})
  {
  }

  function Gather(b: Block): seq<Event> {
    CountVote(MyVote("a", b)) + CountVote(MyVote("b", b)) + CountVote(MyVote("x", b))
  }

  /** What is recorded once the votes of a, b and x for `b` have come in. */
  function Gathered(sigs: map<nat, map<Hash, Ballots>>, b: Block): map<nat, map<Hash, Ballots>> {
    RecordVote(RecordVote(RecordVote(sigs, MyVote("a", b)), MyVote("b", b)), MyVote("x", b))
  }

  lemma GatheredBallots(sigs: map<nat, map<Hash, Ballots>>, b: Block)
    requires BallotsAt(sigs, b.height, Digest(b)) == map[]
    ensures |BallotsAt(RecordVote(sigs, MyVote("a", b)), b.height, Digest(b))| == 1
    ensures |BallotsAt(RecordVote(RecordVote(sigs, MyVote("a", b)), MyVote("b", b)), b.height, Digest(b))| == 2
    ensures |BallotsAt(Gathered(sigs, b), b.height, Digest(b))| == 3
    ensures forall h, x :: h != b.height ==> BallotsAt(Gathered(sigs, b), h, x) == BallotsAt(sigs, h, x)
  {
    var sigs1 := RecordVote(sigs, MyVote("a", b));
    var sigs2 := RecordVote(sigs1, MyVote("b", b));
    RecordVoteBallots(sigs, MyVote("a", b));
    RecordVoteBallots(sigs1, MyVote("b", b));
    RecordVoteBallots(sigs2, MyVote("x", b));
  }

  lemma Gathers(me: Name, y: Sys, b: Block)
    requires Live(y) && b.height !in y.node.tally.qcCreated && Digest(b) in LevelAt(y.node.props.pending, b.height)
    requires BallotsAt(y.node.tally.sigs, b.height, Digest(b)) == map[]
    ensures RunFrom(Cfg(me), y, Gather(b)) ==
      y.(node := y.node.(tally := Tally(Gathered(y.node.tally.sigs, b), y.node.tally.qcCreated + {b.height})),
         pool := y.pool + multiset{BuildQC(b.height, Digest(b))})
  {
    hide RunFrom, RecordVote, CountVote, BallotsAt, LevelAt;
    var cfg := Cfg(me);
    var va, vb, vx := MyVote("a", b), MyVote("b", b), MyVote("x", b);
    GatheredBallots(y.node.tally.sigs, b);
    Counts(me, y, va);
    var y1 := y.(node := y.node.(tally := y.node.tally.(sigs := RecordVote(y.node.tally.sigs, va))));
    assert RunFrom(cfg, y, CountVote(va)) == y1;
    Counts(me, y1, vb);
    RunFromConcat(cfg, y, CountVote(va), CountVote(vb));
    var y2 := y1.(node := y.node.(tally := y.node.tally.(sigs := RecordVote(y1.node.tally.sigs, vb))));
    assert RunFrom(cfg, y, CountVote(va) + CountVote(vb)) == y2;
    Counts(me, y2, vx);
    RunFromConcat(cfg, y, CountVote(va) + CountVote(vb), CountVote(vx));
  }

  function Enter(b: Block): seq<Event> {
    [Run(BuildQC(b.height, Digest(b)))] + [Run(InsertQC(CertOf(b)))]
  }

  lemma Enters(me: Name, y: Sys, rest: multiset<Task>, b: Block)
    requires Live(y) && y.pool == rest + multiset{BuildQC(b.height, Digest(b))}
    requires Ready(3, y.node.props.pending, y.node.tally.sigs, b.height, Digest(b))
    requires LevelAt(y.node.props.pending, b.height)[Digest(b)] == b && b.height !in y.node.ledger.pendingQC
    ensures RunFrom(Cfg(me), y, Enter(b)) ==
      y.(node := y.node.(ledger := y.node.ledger.(pendingQC := y.node.ledger.pendingQC[b.height := CertOf(b)])),
         certified := y.certified[b.height := CertOf(b)], pool := rest + multiset{CommitAncestors(CertOf(b))})
  {
    hide RunFrom, Step, BallotsAt;
    OneFaulty();
    var cfg, build := Cfg(me), BuildQC(b.height, Digest(b));
    Start(cfg, y);
    Ran(cfg, y, [], y, rest, build);
    assert [] + [Run(build)] == [Run(build)];
    Ran(cfg, y, [Run(build)], y.(pool := rest + multiset{InsertQC(CertOf(b))}), rest, InsertQC(CertOf(b)));
  }

  /** The ledger with the certificate of `b` waiting. */
  function WithWaiting(l: Ledger, b: Block): Ledger {
    l.(pendingQC := l.pendingQC[b.height := CertOf(b)])
  }

  function Collect(b: Block): seq<Event> {
    Gather(b) + Enter(b)
  }

  /** The node after `Collect`: a certificate for `b` has been built and entered. */
  function Collected(y: Sys, b: Block): Sys {
    y.(node := y.node.(tally := Tally(Gathered(y.node.tally.sigs, b), y.node.tally.qcCreated + {b.height}),
                       ledger := WithWaiting(y.node.ledger, b)),
       certified := y.certified[b.height := CertOf(b)],
       pool := y.pool + multiset{CommitAncestors(CertOf(b))})
  }

  /** `b` is pending, and no vote for it has come in and no certificate of its height been started. */
  predicate Fresh(y: Sys, b: Block) {
    && Live(y) && b.height !in y.node.tally.qcCreated && b.height !in y.node.ledger.pendingQC
    && BallotsAt(y.node.tally.sigs, b.height, Digest(b)) == map[]
    && Digest(b) in LevelAt(y.node.props.pending, b.height) && LevelAt(y.node.props.pending, b.height)[Digest(b)] == b
  }

  lemma Collects(me: Name, y: Sys, b: Block)
    requires Fresh(y, b)
    ensures RunFrom(Cfg(me), y, Collect(b)) == Collected(y, b)
  {
    hide RunFrom, RecordVote, Gather, Enter, BallotsAt, LevelAt, Gathered;
    GatheredBallots(y.node.tally.sigs, b);
    Gathers(me, y, b);
    Enters(me, RunFrom(Cfg(me), y, Gather(b)), y.pool, b);
    RunFromConcat(Cfg(me), y, Gather(b), Enter(b));
  }

  // ---------- The certificate is handled ----------

  function Certify(b: Block): seq<Event> {
    Collect(b) + [Run(CommitAncestors(CertOf(b)))] + [Run(ExtendChain)]
  }

  /** The ledger once the certificate of `b` has been entered and its ancestors committed. */
  function Committed(y: Sys, b: Block): Option<Ledger> {
    CommitAncestorsLedger(y.node.props, WithWaiting(y.node.ledger, b), CertOf(b))
  }

  function Certified(y: Sys, b: Block, l: Ledger): Sys {
    Collected(y, b).(
      node := Collected(y, b).node.(ledger := ExtendLedger(l)),
      pool := y.pool + if l.height + 1 in l.pendingQC then multiset{ExtendChain} else multiset{})
  }

  lemma Certifies(me: Name, y: Sys, b: Block)
    requires Fresh(y, b) && Committed(y, b).Some?
    ensures RunFrom(Cfg(me), y, Certify(b)) == Certified(y, b, Committed(y, b).value)
  {
    hide RunFrom, Step, Collect, Gathered, CommitAncestorsLedger, ExtendLedger, Fresh, BallotsAt;
    FreshLive(y, b);
    var cfg, l, commit := Cfg(me), Committed(y, b).value, CommitAncestors(CertOf(b));
    Collects(me, y, b);
    var y1 := Collected(y, b);
    Ran(cfg, y, Collect(b), y1, y.pool, commit);
    var y2 := y1.(node := y1.node.(ledger := l), pool := y.pool + multiset{ExtendChain});
    Ran(cfg, y, Collect(b) + [Run(commit)], y2, y.pool, ExtendChain);
  }

  lemma FreshLive(y: Sys, b: Block)
    requires Fresh(y, b)
    ensures Live(y)
  {
  }

  /** After a commit the chain is tried once more; `CertifyOn` is for a chain that then waits. */
  function CertifyOn(b: Block): seq<Event> {
    Certify(b) + [Run(ExtendChain)]
  }

  lemma CertifiesOn(me: Name, y: Sys, b: Block)
    requires Fresh(y, b) && Committed(y, b).Some?
    requires var l := Committed(y, b).value; l.height + 1 in l.pendingQC && l.height + 2 !in l.pendingQC
    ensures RunFrom(Cfg(me), y, CertifyOn(b)) == Certified(y, b, Committed(y, b).value).(pool := y.pool)
  {
    hide RunFrom, Step, Certify, Gathered, CommitAncestorsLedger, Fresh, BallotsAt;
    FreshLive(y, b);
    Certifies(me, y, b);
    Ran(Cfg(me), y, Certify(b), Certified(y, b, Committed(y, b).value), y.pool, ExtendChain);
  }

  // ---------- At the cluster ----------

  /** Blocks of the faulty member and goroutines: stretches of this kind are authentic anywhere. */
  predicate FromX(es: seq<Event>) {
    forall e :: e in es ==> (e.Deliver? && e.block.proposer == "x") || e.Run?
  }

  const START := RunCluster(NAMES, HONEST, [])

  /** The honest nodes a and b go through the same stretch `es`. */
  lemma BothRun(es: seq<Event>)
    requires FromX(es)
    ensures RunCluster(NAMES, HONEST, AllAt("a", es) + AllAt("b", es)) ==
      START["a" := RunFrom(Cfg("a"), INITIAL_SYS, es)]["b" := RunFrom(Cfg("b"), INITIAL_SYS, es)]
  {
    hide RunFrom;
    ClusterRunsNode(NAMES, HONEST, [], "a", es);
    assert [] + AllAt("a", es) == AllAt("a", es);
    ClusterRunsNode(NAMES, HONEST, AllAt("a", es), "b", es);
  }

  /** The votes that make a certificate for `b` have been cast where it matters. */
  predicate VotesCast(c: Nodes, b: Block)
    requires c.Keys == HONEST
  {
    Ballot(MyVote("a", b)) in c["a"].sent && Ballot(MyVote("b", b)) in c["b"].sent
  }

  lemma CollectAuthentic(c: Nodes, b: Block)
    requires c.Keys == HONEST && VotesCast(c, b)
    ensures forall e :: e in Collect(b) ==> Authentic(c, e)
    ensures forall e :: e in CertifyOn(b) ==> Authentic(c, e)
    ensures forall e :: e in Certify(b) ==> Authentic(c, e)
  {
  }
}
