/** The comparison of committed chains: what it accepts, and when two agreeing chains pass it. */
module Chains {
  import opened Blocks
  import opened NodeSpec
  import opened NodeRuns
  import opened LedgerInvariants
  import opened NodeInvariants
  import opened Cluster
  import Disagreement
  import FourNodes
  import opened Agreement

  /** The comparison of two requests, branch by branch. */
  predicate RequestEqual(r: Request, r2: Request) {
    if r.server != r2.server || r.sn != r2.sn then false
    else if r.cmd.None? then r2.cmd.None?
    else r2.cmd.Some? && r.cmd.value == r2.cmd.value
  }

  lemma RequestEqualIff(r: Request, r2: Request)
    ensures RequestEqual(r, r2) <==> r == r2
  {
  }

  /** `Block.Equal`. The test of the commands is the source's, which rejects a pair that is equal. */
  method BlockEqual(b: Block, b2: Block) returns (ok: bool)
    ensures ok <==> Passes(b, b2)
    ensures ok ==> b.proposer == b2.proposer && b.height == b2.height && b.prev == b2.prev
  {
    if b.proposer != b2.proposer {
      return false;
    }
    if b.height != b2.height {
      return false;
    }
    if b.prev != b2.prev {
      return false;
    }
    if b.cmds.NilCmds? {
      return b2.cmds.NilCmds?;
    } else if b2.cmds.NilCmds? {
      return false;
    }
    if |b.cmds.list| != |b2.cmds.list| {
      return false;
    }
    for i := 0 to |b.cmds.list|
      invariant forall k :: 0 <= k < i ==> b.cmds.list[k] != b2.cmds.list[k]
    {
      RequestEqualIff(b.cmds.list[i], b2.cmds.list[i]);
      if RequestEqual(b.cmds.list[i], b2.cmds.list[i]) {
        return false;
      }
    }
    return true;
  }

  /** What the comparison of two blocks accepts: the same header, and commands that differ one by one. */
  predicate Passes(b: Block, b2: Block) {
    && b.(cmds := NilCmds) == b2.(cmds := NilCmds)
    && b.cmds.NilCmds? == b2.cmds.NilCmds?
    && (b.cmds.Cmds? ==>
          && |b.cmds.list| == |b2.cmds.list|
          && forall i :: 0 <= i < |b.cmds.list| ==> b.cmds.list[i] != b2.cmds.list[i])
  }

  predicate Empty(b: Block) {
    b.cmds.Cmds? ==> b.cmds.list == []
  }

  /** Two blocks that pass are the same block exactly when they carry no commands: the comparison is
      equality on blocks without commands and refuses every block with commands as its own copy. */
  lemma PassingIsEqualityIffEmpty(b: Block, b2: Block)
    ensures Passes(b, b) <==> Empty(b)
    ensures Empty(b) && Empty(b2) ==> (Passes(b, b2) <==> b == b2)
    ensures Passes(b, b2) ==> (b == b2 <==> Empty(b))
  {
    if b.cmds.Cmds? && b.cmds.list != [] {
      assert b.cmds.list[0] == b.cmds.list[0];
    }
  }

  /** A comparison ends with one of the source's two answers, or dereferences an entry that is not there. */
  datatype Comparison = Same | Different | Panics

  class Chain {
    var blocks: map<nat, CertBlock>
    var height: nat

    constructor (l: Ledger)
      ensures blocks == l.blocks && height == l.height
    {
      blocks, height := l.blocks, l.height;
    }

    /** The comparison without certificates, ranging over the heights in any order. It accepts chains of one
        extent and height whose blocks have pairwise the same proposer, height and previous hash, and commands
        that are as many and differ one by one. */
    method EqualIgnoreQC(chain2: Chain) returns (r: Comparison)
      ensures r.Same? <==> Alike(blocks, height, chain2.blocks, chain2.height)
      ensures r.Same? <==>
        && |blocks| == |chain2.blocks| && height == chain2.height
        && blocks.Keys <= chain2.blocks.Keys
        && (forall i :: i in blocks ==>
              var b, b2 := blocks[i].block, chain2.blocks[i].block;
              && b.proposer == b2.proposer && b.height == b2.height && b.prev == b2.prev
              && b.cmds.NilCmds? == b2.cmds.NilCmds?
              && (b.cmds.Cmds? ==> |b.cmds.list| == |b2.cmds.list|)
              && (b.cmds.Cmds? ==> forall k :: 0 <= k < |b.cmds.list| ==> b.cmds.list[k] != b2.cmds.list[k]))
      ensures r.Panics? ==> |blocks| == |chain2.blocks| && blocks.Keys != chain2.blocks.Keys
    {
      if |blocks| != |chain2.blocks| || height != chain2.height {
        return Different;
      }
      var todo := blocks.Keys;
      while todo != {}
        invariant todo <= blocks.Keys
        invariant forall i :: i in blocks && i !in todo ==>
          i in chain2.blocks && Passes(blocks[i].block, chain2.blocks[i].block)
        decreases |todo|
      {
        var i :| i in todo;
        todo := todo - {i};
        if i !in chain2.blocks {
          return Panics;
        }
        var ok := BlockEqual(blocks[i].block, chain2.blocks[i].block);
        if !ok {
          return Different;
        }
      }
      return Same;
    }
  }

  /** The chains have as many entries and the same height, and entry by entry the blocks pass. */
  predicate Alike(blocks: map<nat, CertBlock>, height: nat, blocks2: map<nat, CertBlock>, height2: nat) {
    && |blocks| == |blocks2| && height == height2
    && forall i :: i in blocks ==> i in blocks2 && Passes(blocks[i].block, blocks2[i].block)
  }

  /** Chains without commands are accepted exactly if they hold the same blocks at the same heights. */
  lemma AlikeIsEqualityIfEmpty(blocks: map<nat, CertBlock>, height: nat, blocks2: map<nat, CertBlock>, height2: nat)
    requires forall i :: i in blocks ==> Empty(blocks[i].block)
    requires forall i :: i in blocks2 ==> Empty(blocks2[i].block)
    ensures Alike(blocks, height, blocks2, height2) <==>
      height == height2 && blocks.Keys == blocks2.Keys && forall i :: i in blocks ==> blocks[i].block == blocks2[i].block
  {
    hide Passes, Empty;
    forall i | i in blocks && i in blocks2
      ensures Passes(blocks[i].block, blocks2[i].block) <==> blocks[i].block == blocks2[i].block
    {
      PassingIsEqualityIffEmpty(blocks[i].block, blocks2[i].block);
    }
    assert |blocks| == |blocks.Keys| && |blocks2| == |blocks2.Keys|;
    if blocks.Keys <= blocks2.Keys && |blocks| == |blocks2| {
      var more := blocks2.Keys - blocks.Keys;
      assert blocks2.Keys == blocks.Keys + more && blocks.Keys * more == {};
      assert |more| == 0;
    }
  }

  /** On reachable chains the comparison never dereferences a missing entry: chains of one length have
      the same heights. */
  lemma SameHeights(blocks: map<nat, CertBlock>, blocks2: map<nat, CertBlock>)
    requires Gapless(blocks) && Gapless(blocks2) && |blocks| == |blocks2|
    ensures blocks.Keys == blocks2.Keys
  {
  }

  lemma Gaps(cfg: Config, y: Sys)
    requires Inv(cfg, y)
    ensures Gapless(y.node.ledger.blocks)
  {
  }

  /** The comparison tells the two honest chains of the forked run apart. */
  method CompareForked(l: Ledger, l2: Ledger) returns (r: Comparison)
    requires l == RunCluster(FourNodes.NAMES, FourNodes.HONEST, Disagreement.FORK_RUN)["a"].node.ledger
    requires l2 == RunCluster(FourNodes.NAMES, FourNodes.HONEST, Disagreement.FORK_RUN)["b"].node.ledger
    ensures r == Different
  {
    hide RunCluster;
    Disagreement.HonestNodesDisagree();
    var a := new Chain(l);
    var b := new Chain(l2);
    r := a.EqualIgnoreQC(b);
    assert 1 in a.blocks && a.blocks.Keys == b.blocks.Keys;
  }

  /** The relation the repository's tests check, on the chains for which it should hold: in a run with at
      most the tolerated number of faulty nodes whose certified blocks lie on one branch, the chains of
      two honest nodes pass exactly when they have the same extent and no committed block carries commands. */
  lemma {:induction false} HonestChainsAlikeIff(names: set<Name>, honest: set<Name>, es: seq<ClusterEvent>, a: Name, b: Name)
    requires FaultBound(names, honest) && a in honest && b in honest
    requires OneBranch(RunCluster(names, honest, es))
    ensures var c := RunCluster(names, honest, es);
      var l, l2 := c[a].node.ledger, c[b].node.ledger;
      Alike(l.blocks, l.height, l2.blocks, l2.height) <==>
        && |l.blocks| == |l2.blocks| && l.height == l2.height
        && forall h :: h in l.blocks ==> Empty(l.blocks[h].block)
  {
    hide RunCluster, Inv, OneBranch, Passes, Gapless, Empty;
    var c := RunCluster(names, honest, es);
    var l, l2 := c[a].node.ledger, c[b].node.ledger;
    ClusterKeeps(names, honest, es);
    Gaps(Config(a, names), c[a]);
    Gaps(Config(b, names), c[b]);
    if |l.blocks| == |l2.blocks| {
      SameHeights(l.blocks, l2.blocks);
      assert es[..|es|] == es;
      forall h | h in l.blocks
        ensures l.blocks[h].block == l2.blocks[h].block
        ensures Passes(l.blocks[h].block, l2.blocks[h].block) <==> Empty(l.blocks[h].block)
      {
        CommittedBlocksAgree(names, honest, es, |es|, a, b, h);
        PassingIsEqualityIffEmpty(l.blocks[h].block, l.blocks[h].block);
      }
    }
  }
}
