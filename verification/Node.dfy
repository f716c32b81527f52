/** A node as the source keeps it: maps on the heap, changed in place by the lock-protected sections.
    Each method is one section and is proved to do what NodeSpec says it does. */
module NodeImpl {
  import opened Blocks
  import opened NodeSpec

  /** A Go map from hash to block: an object of its own, which several fields may share. */
  class LevelMap {
    var m: Level

    constructor ()
      ensures m == map[]
    {
      m := map[];
    }
  }

  class Node {
    const cfg: Config
    var pendingBlocks: map<nat, LevelMap>
    var candidateBlocks: map<nat, LevelMap>
    var candidateHeight: nat
    var partialSigs: map<nat, map<Hash, Ballots>>
    var qcCreated: set<nat>
    var pendingBlocksQC: map<nat, CertBlock>
    var chainBlocks: map<nat, CertBlock>
    var chainHeight: nat
    var voted: set<nat>
    var channel: nat
    var lockHeld: bool
    var crashed: bool

    /** Level `h` of the candidate chain, from 1 up, is the very object `pendingBlocks[h]`; no other two
        levels share an object. */
    ghost predicate Valid()
      reads this`pendingBlocks, this`candidateBlocks, this`candidateHeight
    {
      && (forall h: nat :: h in candidateBlocks <==> h <= candidateHeight)
      && (forall h: nat :: 1 <= h <= candidateHeight ==> h in pendingBlocks && candidateBlocks[h] == pendingBlocks[h])
      && (forall h, k :: h in pendingBlocks && k in pendingBlocks && h != k ==> pendingBlocks[h] != pendingBlocks[k])
      && (forall h :: h in pendingBlocks ==> pendingBlocks[h] != candidateBlocks[0])
    }

    /** The objects that hold the levels. */
    ghost function Levels(): set<LevelMap>
      reads this`pendingBlocks, this`candidateBlocks
    {
      pendingBlocks.Values + candidateBlocks.Values
    }

    ghost function Props(): Proposals
      requires Valid()
      reads this`pendingBlocks, this`candidateBlocks, this`candidateHeight, Levels()
    {
      Proposals(map h | h in pendingBlocks :: pendingBlocks[h].m, candidateBlocks[0].m, candidateHeight)
    }

    ghost function View(): NodeState
      requires Valid()
      reads this, Levels()
    {
      NodeState(
        Props(),
        Tally(partialSigs, qcCreated),
        Ledger(pendingBlocksQC, chainBlocks, chainHeight),
        voted, channel, lockHeld, crashed)
    }

    constructor (cfg: Config)
      ensures Valid() && View() == INITIAL_NODE && this.cfg == cfg
      ensures fresh(Levels())
    {
      this.cfg := cfg;
      var genesis := new LevelMap();
      genesis.m := map[Digest(GENESIS) := GENESIS];
      pendingBlocks, candidateBlocks, candidateHeight := map[], map[0 := genesis], 0;
      partialSigs, qcCreated := map[], {};
      pendingBlocksQC, chainBlocks, chainHeight := map[], map[0 := CertBlock(GENESIS, EmptyQC)], 0;
      voted, channel, lockHeld, crashed := {}, 1, false, false;
    }

    /** What a read of the candidate chain through the shared objects yields. */
    lemma CandidateView(h: nat)
      requires Valid()
      ensures h in candidateBlocks <==> h <= candidateHeight
      ensures Candidate(Props(), h) == if h in candidateBlocks then candidateBlocks[h].m else map[]
      ensures forall x ::
        LookupCandidate(Props(), h, x) ==
        if h in candidateBlocks && x in candidateBlocks[h].m then Some(candidateBlocks[h].m[x]) else None
    {
    }

    /** Creates the pending level `h` if it is missing. */
    method EnsureLevel(h: nat) returns (level: LevelMap)
      requires Valid()
      modifies this`pendingBlocks
      ensures Valid() && fresh(Levels() - old(Levels()))
      ensures h in pendingBlocks && pendingBlocks[h] == level
      ensures pendingBlocks.Keys == old(pendingBlocks.Keys) + {h}
      ensures forall k :: k in old(pendingBlocks) ==> pendingBlocks[k] == old(pendingBlocks)[k]
      ensures level.m == LevelAt(old(Props()).pending, h)
    {
      if h !in pendingBlocks {
        var created := new LevelMap();
        pendingBlocks := pendingBlocks[h := created];
      }
      level := pendingBlocks[h];
    }

    method HandleNewBlock(b: Block) returns (spawned: multiset<Task>)
      requires Valid()
      modifies this`pendingBlocks, Levels()
      ensures Valid() && fresh(Levels() - old(Levels()))
      ensures Effect(View(), spawned, None) == HandleBlockEffect(old(View()), b)
      // a late block shows up at once in the candidate level that is the same object
      ensures 1 <= b.height <= candidateHeight ==>
        Digest(b) in candidateBlocks[b.height].m && candidateBlocks[b.height].m[Digest(b)] == b
    {
      AddPendingBlock(b);
      spawned := multiset{UpdateCandidate(b), CheckQuorum(b.height, Digest(b))};
    }

    /** The insert of `handleNewBlock`, into the level's own object. */
    method AddPendingBlock(b: Block)
      requires Valid()
      modifies this`pendingBlocks, Levels()
      ensures Valid() && fresh(Levels() - old(Levels()))
      ensures Props() == AddPending(old(Props()), b)
      ensures b.height in pendingBlocks && Digest(b) in pendingBlocks[b.height].m && pendingBlocks[b.height].m[Digest(b)] == b
    {
      hide LevelAt;
      ghost var p := Props();
      var level := EnsureLevel(b.height);
      level.m := level.m[Digest(b) := b];
      ghost var put := Put(p.pending, b);
      forall h | h in pendingBlocks
        ensures pendingBlocks[h].m == put[h]
      {
        if h != b.height {
          assert pendingBlocks[h] != level && put[h] == p.pending[h];
        }
      }
      assert Props().pending == put;
    }

    method TryUpdateCandidateChain(b: Block) returns (spawned: multiset<Task>)
      requires Valid()
      modifies this, Levels()
      ensures Valid() && Levels() == old(Levels())
      ensures Effect(View(), spawned, None) == UpdateCandidateEffect(old(View()), b)
    {
      if b.height in candidateBlocks {
        var level := candidateBlocks[b.height];
        level.m := level.m[Digest(b) := b];
        spawned := multiset{};
        assert b.height > 0 ==> Props().pending == Put(old(View()).props.pending, b);
        assert b.height == 0 ==> Props().pending == old(View()).props.pending;
      } else {
        spawned := multiset{ExtendCandidate};
      }
    }

    method TryExtendCandidateChain() returns (spawned: multiset<Task>)
      requires Valid()
      modifies this`candidateBlocks, this`candidateHeight
      ensures Valid() && Levels() <= old(Levels())
      ensures Effect(View(), spawned, None) == ExtendCandidateEffect(old(View()))
    {
      spawned := multiset{};
      var newHeight := candidateHeight + 1;
      if newHeight in pendingBlocks {
        candidateBlocks := candidateBlocks[newHeight := pendingBlocks[newHeight]];
        candidateHeight := newHeight;
        spawned := multiset{SendToken, ExtendCandidate};
        assert Props().pending == old(View()).props.pending;
      }
    }

    /** The first section of `BroadcastVote`: a read of `voted` under the read lock. */
    method CheckVotedSection(b: Block) returns (spawned: multiset<Task>)
      requires Valid()
      ensures Effect(View(), spawned, None) == CheckVotedEffect(View(), b)
    {
      if b.height in voted {
        return multiset{};
      }
      return multiset{CastVote(b)};
    }

    /** The second section of `BroadcastVote`: `voted` is checked again before the vote goes out. */
    method CastVoteSection(b: Block) returns (sent: Option<Message>)
      requires Valid()
      modifies this`voted
      ensures Valid() && Levels() == old(Levels())
      ensures Effect(View(), multiset{}, sent) == CastVoteEffect(cfg.me, old(View()), b)
    {
      sent := None;
      if b.height !in voted {
        voted := voted + {b.height};
        sent := Some(Ballot(MyVote(cfg.me, b)));
      }
    }

    method HandleVoteMsg(v: Vote) returns (spawned: multiset<Task>)
      requires Valid()
      modifies this`partialSigs
      ensures Valid() && Levels() == old(Levels())
      ensures Effect(View(), spawned, None) == HandleVoteEffect(old(View()), v)
    {
      hide RecordVote, BallotsAt;
      var h, x := v.plain.height, v.plain.hash;
      RecordVoteInStages(partialSigs, v);
      if h !in partialSigs {
        partialSigs := partialSigs[h := map[]];
      }
      if x !in partialSigs[h] {
        partialSigs := partialSigs[h := partialSigs[h][x := map[]]];
      }
      partialSigs := partialSigs[h := partialSigs[h][x := partialSigs[h][x][v.sender := v.sig]]];
      spawned := multiset{CheckQuorum(h, x)};
    }

    method CheckIfQuorumVotes(h: nat, x: Hash) returns (spawned: multiset<Task>)
      requires Valid()
      modifies this`qcCreated
      ensures Valid() && Levels() == old(Levels())
      ensures Effect(View(), spawned, None) == CheckQuorumEffect(cfg.Q(), old(View()), h, x)
    {
      var parSigs := BallotsAt(partialSigs, h, x);
      var ok := h in pendingBlocks && x in pendingBlocks[h].m;
      spawned := multiset{};
      assert LevelAt(Props().pending, h) == if h in pendingBlocks then pendingBlocks[h].m else map[];
      if |parSigs| >= cfg.Q() && h !in qcCreated && ok {
        qcCreated := qcCreated + {h};
        spawned := multiset{BuildQC(h, x)};
      }
    }

    /** `partialSigs` are the shares handed to the threshold scheme, `voters` whose they are. */
    method BuildBlockWithQC(h: nat, x: Hash)
      returns (spawned: multiset<Task>, partialSigs: seq<PartialSig>, ghost voters: seq<Name>)
      requires Valid()
      modifies this`crashed
      ensures Valid() && Levels() == old(Levels())
      ensures Extracts(cfg.Q(), BallotsAt(this.partialSigs, h, x), voters, partialSigs)
      ensures Effect(View(), spawned, None) == BuildQCEffect(cfg.Q(), old(View()), h, x)
    {
      hide BallotsAt, Extracts, LevelAt;
      ghost var s := View();
      partialSigs, voters := ExtractPartialSigs(h, x);
      var cert := AssembleBlock(h, x, partialSigs);
      assert s.tally.sigs == this.partialSigs && Props() == s.props;
      if cert.None? {
        crashed := true;
        spawned := multiset{};
      } else {
        spawned := multiset{InsertQC(cert.value)};
      }
    }

    /** The stored block with the certificate over the vote rebuilt from it; None when there is no such block
        or too few shares, either of which panics. */
    method AssembleBlock(h: nat, x: Hash, partialSigs: seq<PartialSig>) returns (cert: Option<CertBlock>)
      requires Valid()
      ensures cert.Some? <==> x in LevelAt(Props().pending, h) && |partialSigs| >= cfg.Q()
      ensures cert.Some? ==> var b := Props().pending[h][x]; cert.value == CertBlock(b, Cert(Approval(b)))
    {
      assert LevelAt(Props().pending, h) == if h in pendingBlocks then pendingBlocks[h].m else map[];
      cert := None;
      if h in pendingBlocks && x in pendingBlocks[h].m {
        var block := pendingBlocks[h].m[x];
        var plainVote := PlainVote(Digest(block), block.height, true);
        var intactSig := CreateIntactSig(plainVote, partialSigs);
        if intactSig.Some? {
          cert := Some(CertBlock(block, intactSig.value));
        }
      }
    }

    /** Assembling succeeds on a quorum of shares, which are taken to be valid; on fewer the scheme fails. */
    method CreateIntactSig(plainVote: PlainVote, partialSigs: seq<PartialSig>) returns (qc: Option<QC>)
      ensures qc == if |partialSigs| >= cfg.Q() then Some(Cert(plainVote)) else None
    {
      qc := if |partialSigs| >= cfg.Q() then Some(Cert(plainVote)) else None;
    }

    /** The shares that `buildBlockWithQC` hands to the threshold scheme: a quorum of them if there are as
        many, of distinct voters, in whatever order the map is ranged over. */
    method ExtractPartialSigs(h: nat, x: Hash) returns (sigs: seq<PartialSig>, ghost voters: seq<Name>)
      requires Valid()
      ensures Extracts(cfg.Q(), BallotsAt(partialSigs, h, x), voters, sigs)
      ensures |sigs| >= cfg.Q() <==> |BallotsAt(partialSigs, h, x)| >= cfg.Q()
    {
      var ballots := BallotsAt(partialSigs, h, x);
      var num := cfg.Q();
      var todo := ballots.Keys;
      sigs, voters := [], [];
      while todo != {}
        invariant todo <= ballots.Keys
        invariant SharesOf(ballots, voters, sigs)
        invariant forall i :: 0 <= i < |voters| ==> voters[i] !in todo
        invariant |sigs| + num == cfg.Q() && |sigs| + |todo| == |ballots|
        decreases |todo|
      {
        var sender :| sender in todo;
        todo := todo - {sender};
        if num == 0 {
          break;
        }
        sigs, voters := sigs + [ballots[sender]], voters + [sender];
        num := num - 1;
      }
    }

    /** The first section of `handleNewBlockQC`. The early return leaves without unlocking. */
    method HandleNewBlockQC(c: CertBlock) returns (spawned: multiset<Task>)
      requires Valid()
      modifies this`lockHeld, this`pendingBlocksQC
      ensures Valid() && Levels() == old(Levels())
      ensures Effect(View(), spawned, None) == InsertQCEffect(old(View()), c)
    {
      if c.block.height in pendingBlocksQC {
        lockHeld := true;
        return multiset{};
      }
      pendingBlocksQC := pendingBlocksQC[c.block.height := c];
      spawned := multiset{CommitAncestors(c)};
    }

    method TryExtendChain() returns (spawned: multiset<Task>)
      requires Valid()
      modifies this`chainBlocks, this`chainHeight, this`pendingBlocksQC
      ensures Valid() && Levels() == old(Levels())
      ensures Effect(View(), spawned, None) == ExtendChainEffect(old(View()))
    {
      var newHeight := chainHeight + 1;
      spawned := multiset{};
      if newHeight in pendingBlocksQC {
        chainBlocks := chainBlocks[newHeight := pendingBlocksQC[newHeight]];
        pendingBlocksQC := pendingBlocksQC - {newHeight};
        chainHeight := newHeight;
        spawned := multiset{ExtendChain};
      }
    }

    lemma CandidateCount()
      requires Valid()
      ensures |candidateBlocks| == candidateHeight + 1
    {
      KeysUpTo(candidateBlocks, candidateHeight + 1);
    }

    /** The inner loop of `CommitAncestorByBlockQC`: commit `first`, the candidate at height `top`, and its
        ancestors down to the committed height. */
    method WalkAncestors(first: Block, top: nat, qc: QC)
      requires Valid() && !crashed
      modifies this`chainBlocks, this`chainHeight, this`crashed
      ensures Valid() && Levels() == old(Levels()) && Props() == old(Props())
      ensures var walked := WalkBack(Props(), old(chainBlocks), old(chainHeight), Some(first), top, qc);
        && (crashed <==> walked.None?)
        && (walked.Some? ==> chainBlocks == walked.value && chainHeight == top)
    {
      hide Candidate, LookupCandidate;
      ghost var p := Props();
      var block := Some(first);
      var i: nat := top;
      while i > chainHeight
        invariant Valid() && !crashed && chainHeight == old(chainHeight) && Levels() == old(Levels())
        invariant Props() == p && 0 <= i <= top
        invariant WalkBack(p, chainBlocks, chainHeight, block, i, qc) ==
                  WalkBack(p, old(chainBlocks), old(chainHeight), Some(first), top, qc)
        decreases i
      {
        if block.None? {
          crashed := true;
          return;
        }
        chainBlocks := chainBlocks[i := CertBlock(block.value, qc)];
        var hash := block.value.prev;
        CandidateView(i - 1);
        if i - 1 in candidateBlocks && hash in candidateBlocks[i - 1].m {
          block := Some(candidateBlocks[i - 1].m[hash]);
        } else {
          block := None;
        }
        i := i - 1;
      }
      chainHeight := top;
    }

    /** After a crash nothing is said about what the walk had written: the memory is gone with the process. */
    method CommitAncestorByBlockQC(c: CertBlock) returns (spawned: multiset<Task>)
      requires Valid() && !crashed
      modifies this`chainBlocks, this`chainHeight, this`crashed
      ensures Valid() && Levels() == old(Levels())
      ensures crashed == CommitAncestorsEffect(old(View()), c).node.crashed
      ensures spawned == CommitAncestorsEffect(old(View()), c).spawned
      ensures !crashed ==> View() == CommitAncestorsEffect(old(View()), c).node
    {
      RangeOverParents(c);
      spawned := if crashed then multiset{} else multiset{ExtendChain};
    }

    /** The guards of `CommitAncestorByBlockQC`. */
    method RangeOverParents(c: CertBlock)
      requires Valid() && !crashed
      modifies this`chainBlocks, this`chainHeight, this`crashed
      ensures Valid() && Levels() == old(Levels()) && Props() == old(Props())
      ensures var l := CommitAncestorsLedger(Props(), old(Ledger(pendingBlocksQC, chainBlocks, chainHeight)), c);
        && (crashed <==> l.None?)
        && (l.Some? ==> l.value == Ledger(pendingBlocksQC, chainBlocks, chainHeight))
    {
      hide WalkBack, CommitAncestorsLedger, Candidate, LookupCandidate;
      CandidateCount();
      CommitAncestorsCases(Props(), Ledger(pendingBlocksQC, chainBlocks, chainHeight), c);
      if |chainBlocks| == |candidateBlocks| || c.block.height == 0 {
        return;
      }
      CandidateView(c.block.height - 1);
      if c.block.height - 1 in candidateBlocks {
        RangeOverLevel(candidateBlocks[c.block.height - 1].m, c.block.prev, c.block.height - 1, c.qc);
      }
    }

    /** The loop over the candidates at the parent's height, of which at most one has the wanted hash. */
    method RangeOverLevel(blocks: Level, previousHash: Hash, previousHeight: nat, qc: QC)
      requires Valid() && !crashed
      modifies this`chainBlocks, this`chainHeight, this`crashed
      ensures Valid() && Levels() == old(Levels()) && Props() == old(Props())
      ensures previousHash !in blocks ==> !crashed && chainBlocks == old(chainBlocks) && chainHeight == old(chainHeight)
      ensures previousHash in blocks ==>
        var walked := WalkBack(Props(), old(chainBlocks), old(chainHeight), Some(blocks[previousHash]), previousHeight, qc);
        && (crashed <==> walked.None?)
        && (walked.Some? ==> chainBlocks == walked.value && chainHeight == previousHeight)
    {
      hide WalkBack;
      ghost var p := Props();
      var todo := blocks.Keys;
      while todo != {}
        invariant Valid() && Levels() == old(Levels()) && Props() == p && !crashed
        invariant todo <= blocks.Keys
        invariant previousHash in todo || previousHash !in blocks ==>
          chainBlocks == old(chainBlocks) && chainHeight == old(chainHeight)
        invariant previousHash in blocks && previousHash !in todo ==>
          WalkBack(p, old(chainBlocks), old(chainHeight), Some(blocks[previousHash]), previousHeight, qc) == Some(chainBlocks)
          && chainHeight == previousHeight
        decreases |todo|
      {
        var hash :| hash in todo;
        todo := todo - {hash};
        if hash == previousHash {
          WalkAncestors(blocks[hash], previousHeight, qc);
          if crashed {
            return;
          }
        }
      }
    }

    /** A sender puts its token into the channel once there is room. */
    method SendTokenSection()
      requires Valid() && channel == 0
      modifies this`channel
      ensures Valid() && Levels() == old(Levels())
      ensures View() == RunTask(cfg, old(View()), SendToken).node
    {
      channel := channel + 1;
    }

    /** The proposal loop takes a token from the channel. */
    method TakeTokenSection()
      requires Valid() && channel > 0
      modifies this`channel
      ensures Valid() && Levels() == old(Levels())
      ensures View() == old(View()).(channel := old(View()).channel - 1)
    {
      channel := channel - 1;
    }

    /** Runs the section of goroutine `t`: while the process lives, every section does to the maps on the heap
        what the specification does to their contents. */
    method RunSection(t: Task) returns (spawned: multiset<Task>, sent: Option<Message>)
      requires Valid() && Enabled(View(), t)
      modifies this, Levels()
      ensures Valid() && fresh(Levels() - old(Levels()))
      ensures spawned == RunTask(cfg, old(View()), t).spawned && sent == RunTask(cfg, old(View()), t).sent
      ensures crashed == RunTask(cfg, old(View()), t).node.crashed
      ensures !crashed ==> View() == RunTask(cfg, old(View()), t).node
    {
      hide WalkBack, Put, RecordVote, AddCandidate, Ready, Candidate, CommitAncestorsLedger, ExtendLedger;
      spawned, sent := multiset{}, None;
      match t
      case HandleBlock(b) => spawned := HandleNewBlock(b);
      case CheckVoted(b) => spawned := CheckVotedSection(b);
      case CastVote(b) => sent := CastVoteSection(b);
      case UpdateCandidate(b) => spawned := TryUpdateCandidateChain(b);
      case ExtendCandidate => spawned := TryExtendCandidateChain();
      case HandleVote(v) => spawned := HandleVoteMsg(v);
      case CheckQuorum(h, x) => spawned := CheckIfQuorumVotes(h, x);
      case BuildQC(h, x) =>
        var started, _, _ := BuildBlockWithQC(h, x);
        spawned := started;
      case InsertQC(c) => spawned := HandleNewBlockQC(c);
      case CommitAncestors(c) => spawned := CommitAncestorByBlockQC(c);
      case ExtendChain => spawned := TryExtendChain();
      case SendToken => SendTokenSection();
    }

    /** `selectBlock`, with the random number as a parameter: it fails exactly on a missing or empty level
        and otherwise returns one of the highest candidates. */
    method SelectBlock(ranNum: nat) returns (selected: Option<Block>)
      requires Valid()
      requires var level := Candidate(Props(), candidateHeight); level != map[] ==> ranNum < |level|
      ensures var level := Candidate(Props(), candidateHeight);
        (selected.None? <==> level == map[]) && (selected.Some? ==> selected.value in level.Values)
    {
      CandidateView(candidateHeight);
      var highBlocks := candidateBlocks[candidateHeight].m;
      selected := None;
      if |highBlocks| == 0 {
        return;
      }
      var i := 0;
      var todo := highBlocks.Keys;
      while todo != {}
        invariant todo <= highBlocks.Keys
        invariant i + |todo| == |highBlocks| && i <= ranNum
        decreases |todo|
      {
        var hash :| hash in todo;
        todo := todo - {hash};
        if i == ranNum {
          return Some(highBlocks[hash]);
        }
        i := i + 1;
      }
    }
  }

  /** Creating the missing inner maps first and then storing the signature records the vote. */
  lemma RecordVoteInStages(sigs: map<nat, map<Hash, Ballots>>, v: Vote)
    ensures var h, x := v.plain.height, v.plain.hash;
      var s1 := if h in sigs then sigs else sigs[h := map[]];
      var s2 := if x in s1[h] then s1 else s1[h := s1[h][x := map[]]];
      s2[h := s2[h][x := s2[h][x][v.sender := v.sig]]] == RecordVote(sigs, v)
  {
    var h, x := v.plain.height, v.plain.hash;
    var s1 := if h in sigs then sigs else sigs[h := map[]];
    var s2 := if x in s1[h] then s1 else s1[h := s1[h][x := map[]]];
    var s3 := s2[h := s2[h][x := s2[h][x][v.sender := v.sig]]];
    assert s2[h][x] == BallotsAt(sigs, h, x);
    assert s3[h] == RecordVote(sigs, v)[h];
  }

  /** The two outcomes of the guards of the ancestor commit. */
  lemma CommitAncestorsCases(p: Proposals, l: Ledger, c: CertBlock)
    ensures |l.blocks| == p.height + 1 || c.block.height == 0 ==> CommitAncestorsLedger(p, l, c) == Some(l)
    ensures |l.blocks| != p.height + 1 && c.block.height > 0 ==>
      var top := c.block.height - 1;
      if c.block.prev !in Candidate(p, top) then CommitAncestorsLedger(p, l, c) == Some(l)
      else
        var walked := WalkBack(p, l.blocks, l.height, Some(Candidate(p, top)[c.block.prev]), top, c.qc);
        CommitAncestorsLedger(p, l, c) ==
          if walked.Some? then Some(Ledger(l.pendingQC, walked.value, top)) else None
  {
    hide WalkBack;
  }
}
