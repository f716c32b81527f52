/** Blocks, votes and certificates: the values the nodes exchange and store. */
module Blocks {

  datatype Option<+T> = None | Some(value: T)

  type Name = string
  type Bytes = seq<bv8>

  /** A byte slice that may be nil, which Go tells apart from an empty one. */
  type Command = Option<Bytes>

  /** A client request as the receiving server wraps it. */
  datatype Request = Request(cmd: Command, server: Name, sn: nat)

  /** The command list of a block, possibly nil. */
  datatype Cmds = NilCmds | Cmds(list: seq<Request>)

  /** The hash field of a block or vote. The digest of a block is a symbolic term, so two
      blocks with equal digests are equal; any other byte string is `Raw`. */
  datatype Hash = Digest(of: Block) | Raw(bytes: Bytes)

  datatype Block = Block(proposer: Name, height: nat, prev: Hash, cmds: Cmds)

  datatype PlainVote = PlainVote(hash: Hash, height: nat, opinion: bool)

  /** A partial threshold signature: a token only `signer` can make, or other bytes. */
  datatype PartialSig = Share(signer: Name, over: PlainVote) | Junk(bytes: Bytes)

  datatype Vote = Vote(plain: PlainVote, sender: Name, sig: PartialSig)

  /** An assembled threshold signature does not depend on which shares were combined. */
  datatype QC = EmptyQC | Cert(over: PlainVote)

  datatype CertBlock = CertBlock(block: Block, qc: QC)

  datatype Message = Proposal(block: Block) | Ballot(vote: Vote)

  const GENESIS := Block("CivCrafter", 0, Raw([]), Cmds([]))

  /** The vote every node that approves `b` signs. */
  function Approval(b: Block): PlainVote {
    PlainVote(Digest(b), b.height, true)
  }

  /** The block at height `h` that `b` reaches by following previous-hash links one height at a time. */
  function Ancestor(b: Block, h: nat): (a: Option<Block>)
    ensures a.Some? ==> a.value.height == h <= b.height
    decreases b
  {
    if h == b.height then Some(b)
    else if h < b.height && b.prev.Digest? && b.prev.of.height == b.height - 1 then Ancestor(b.prev.of, h)
    else None
  }

  /** Following the links in two stages reaches the same block as following them at once. */
  lemma {:induction false} AncestorCompose(b: Block, mid: nat, h: nat)
    requires Ancestor(b, mid).Some? && h <= mid
    ensures Ancestor(Ancestor(b, mid).value, h) == Ancestor(b, h)
    decreases b
  {
    if mid != b.height {
      AncestorCompose(b.prev.of, mid, h);
    }
  }

  /** A map of the heights below `n` has `n` entries. */
  lemma {:induction false} KeysUpTo<T>(m: map<nat, T>, n: nat)
    requires forall h: nat :: h in m <==> h < n
    ensures |m| == n
  {
    if n == 0 {
      assert m == map[];
    } else {
      KeysUpTo(m - {n - 1}, n - 1);
      assert m == (m - {n - 1})[n - 1 := m[n - 1]];
    }
  }
}
