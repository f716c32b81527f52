/** Quorum sizes of the cluster and the intersection argument they support. */
module Quorums {
  import opened Blocks

  /** `math.Ceil(2n / 3)`, the number of votes that makes a certificate. */
  function Quorum(n: nat): nat {
    (2 * n + 2) / 3
  }

  /** The number of faulty nodes a cluster of `n` tolerates. */
  function MaxFaulty(n: nat): nat
    requires n >= 1
  {
    (n - 1) / 3
  }

  /** The quorum is the least number that is at least two thirds of the cluster; two quorums overlap in more
      than the faulty nodes; the non-faulty nodes make up a quorum, and exactly one unless 3 divides `n`. */
  lemma QuorumArithmetic(n: nat)
    requires n >= 1
    ensures Quorum(n) == n - n / 3
    ensures 3 * (Quorum(n) - 1) < 2 * n <= 3 * Quorum(n)
    ensures 2 * Quorum(n) - n > MaxFaulty(n)
    ensures n - MaxFaulty(n) >= Quorum(n)
    ensures n - MaxFaulty(n) == Quorum(n) <==> n % 3 != 0
  {
  }

  lemma {:induction false} SubsetSize<T>(a: set<T>, b: set<T>)
    requires a <= b
    ensures |a| <= |b|
    decreases a
  {
    if a == {} {
    } else {
      var x :| x in a;
      SubsetSize(a - {x}, b - {x});
    }
  }

  /** Any two quorums share a node that is not faulty. */
  lemma QuorumsShareHonest(names: set<Name>, faulty: set<Name>, a: set<Name>, b: set<Name>)
    requires names != {} && a <= names && b <= names
    requires |faulty| <= MaxFaulty(|names|)
    requires |a| >= Quorum(|names|) && |b| >= Quorum(|names|)
    ensures exists x :: x in a && x in b && x !in faulty
  {
    QuorumArithmetic(|names|);
    SubsetSize(a + b, names);
    assert |a| + |b| == |a + b| + |a * b|;
    if a * b <= faulty {
      SubsetSize(a * b, faulty);
      assert false;
    }
    var x :| x in a * b && x !in faulty;
    assert x in a && x in b;
  }
}
