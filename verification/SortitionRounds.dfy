/** Sortition: which round comes next, and which VRF input stands for a height and a round. */
module SortitionRounds {
  import opened Blocks
  import opened Quorums

  /** The results recorded for one height: round to the nodes that reported, always with `false`. */
  type Rounds = map<nat, map<Name, bool>>

  /** At least `q` nodes have reported a lost round. */
  predicate Lost(rounds: Rounds, q: nat, r: nat) {
    r in rounds && |rounds[r]| >= q
  }

  /** `m` is the largest lost round, or 0 when there is none. */
  ghost predicate LargestLost(rounds: Rounds, q: nat, m: nat) {
    && (m == 0 || Lost(rounds, q, m))
    && forall r: nat :: Lost(rounds, q, r) ==> r <= m
  }

  /** `n` is the round a proposer starts for the height: 0 if nothing is known of it. */
  ghost predicate NextRound(results: map<nat, Rounds>, q: nat, height: nat, n: nat) {
    if height !in results then n == 0
    else n > 0 && LargestLost(results[height], q, n - 1)
  }

  /** What is recorded for a height before anyone has reported on it. */
  const FIRST_ROUND: Rounds := map[0 := map[]]

  class Sortition {
    const quorumNum: nat
    var results: map<nat, Rounds>

    constructor (quorumNum: nat)
      ensures this.quorumNum == quorumNum && results == map[]
    {
      this.quorumNum := quorumNum;
      results := map[];
    }

    /** `handleSortitionMsg`, for a message on `(height, round)` from `node`. */
    method HandleSortitionMsg(height: nat, round: nat, node: Name)
      modifies this
      ensures results == Reported(old(results), height, round, node)
    {
      if height !in results {
        results := results[height := map[]];
      }
      var rounds: Rounds := results[height];
      if round !in rounds {
        rounds := rounds[round := map[]];
      }
      results := results[height := rounds[round := rounds[round][node := false]]];
      assert results[height] == Reported(old(results), height, round, node)[height];
    }

    /** The round search of `ProposeBlockLoop`: the map of rounds is ranged over in any order. */
    method StartRound(height: nat) returns (nextRound: nat)
      modifies this
      ensures NextRound(old(results), quorumNum, height, nextRound)
      ensures results == if height in old(results) then old(results) else old(results)[height := FIRST_ROUND]
    {
      if height !in results {
        nextRound := 0;
        results := results[height := map[]];
        results := results[height := FIRST_ROUND];
      } else {
        var maxRound := 0;
        var s := results[height];
        var todo := s.Keys;
        while todo != {}
          invariant todo <= s.Keys
          invariant maxRound == 0 || Lost(s, quorumNum, maxRound)
          invariant forall r: nat :: Lost(s, quorumNum, r) && r !in todo ==> r <= maxRound
          decreases |todo|
        {
          var round :| round in todo;
          todo := todo - {round};
          if |s[round]| >= quorumNum {
            if round > maxRound {
              maxRound := round;
            }
          }
        }
        nextRound := maxRound + 1;
      }
    }
  }

  function Reported(results: map<nat, Rounds>, height: nat, round: nat, node: Name): map<nat, Rounds> {
    var rounds := if height in results then results[height] else map[];
    var nodes := if round in rounds then rounds[round] else map[];
    results[height := rounds[round := nodes[node := false]]]
  }

  /** The next round depends on what is recorded and on nothing else, such as the order of ranging. */
  lemma NextRoundUnique(results: map<nat, Rounds>, q: nat, height: nat, n: nat, n': nat)
    requires NextRound(results, q, height, n) && NextRound(results, q, height, n')
    ensures n == n'
  {
    if height in results {
      LargestLostUnique(results[height], q, n - 1, n' - 1);
    }
  }

  lemma LargestLostUnique(rounds: Rounds, q: nat, m: nat, m': nat)
    requires LargestLost(rounds, q, m) && LargestLost(rounds, q, m')
    ensures m == m'
  {
  }

  lemma ReportedLost(results: map<nat, Rounds>, q: nat, height: nat, round: nat, node: Name, h: nat, r: nat)
    requires h in results && Lost(results[h], q, r)
    ensures Lost(Reported(results, height, round, node)[h], q, r)
  {
  }

  /** Neither a further report nor the start of a round makes the next round of any height smaller. */
  lemma NextRoundNeverFalls(results: map<nat, Rounds>, q: nat, height: nat, round: nat, node: Name, h: nat, n: nat, n': nat)
    requires NextRound(results, q, h, n)
    ensures NextRound(Reported(results, height, round, node), q, h, n') ==> n <= n'
    ensures height !in results && NextRound(results[height := FIRST_ROUND], q, h, n') ==> n <= n'
  {
    if n > 1 {
      ReportedLost(results, q, height, round, node, h, n - 1);
    }
  }

  /** A sortition message comes in, or the proposal loop looks for the round to start. */
  datatype Event = Report(height: nat, round: nat, node: Name) | Start(height: nat)

  function Step(results: map<nat, Rounds>, e: Event): map<nat, Rounds> {
    match e
    case Report(height, round, node) => Reported(results, height, round, node)
    case Start(height) => if height in results then results else results[height := FIRST_ROUND]
  }

  function Run(results: map<nat, Rounds>, es: seq<Event>): map<nat, Rounds> {
    if es == [] then results else Step(Run(results, es[..|es| - 1]), es[|es| - 1])
  }

  /** What is known of a height, and that a round of it is lost, stays. */
  lemma {:induction false} LostForGood(results: map<nat, Rounds>, es: seq<Event>, q: nat, h: nat, r: nat)
    requires h in results
    ensures h in Run(results, es)
    ensures Lost(results[h], q, r) ==> Lost(Run(results, es)[h], q, r)
  {
    if es != [] {
      LostForGood(results, es[..|es| - 1], q, h, r);
      var before, e := Run(results, es[..|es| - 1]), es[|es| - 1];
      if Lost(results[h], q, r) && e.Report? {
        ReportedLost(before, q, e.height, e.round, e.node, h, r);
      }
    }
  }

  /** Over any sequence of reports and starts, from any results, the next round of a height never falls. */
  lemma {:induction false} NextRoundMonotone(results: map<nat, Rounds>, es: seq<Event>, q: nat, h: nat, n: nat, n': nat)
    requires NextRound(results, q, h, n) && NextRound(Run(results, es), q, h, n')
    ensures n <= n'
  {
    if h in results {
      LostForGood(results, es, q, h, n - 1);
    }
  }

  /** A round from 1 on is started with a recorded quorum of lost results for the round before it exactly
      when some round of the height was lost; the exception is round 1 of a height that is known but for
      which no round was lost, round 0 included. */
  lemma PredecessorLostIff(results: map<nat, Rounds>, q: nat, height: nat, n: nat)
    requires NextRound(results, q, height, n) && n >= 1
    ensures Lost(results[height], q, n - 1) <==> exists r :: Lost(results[height], q, r)
    ensures n >= 2 ==> Lost(results[height], q, n - 1)
  {
    if !Lost(results[height], q, n - 1) {
      assert n == 1;
    }
  }

  /** Round 1 can start without round 0 having been lost: one report for a height is enough to move on. */
  lemma RoundOneWithoutQuorum(node: Name)
    ensures var results := Reported(map[], 1, 0, node);
      NextRound(results, Quorum(4), 1, 1) && !Lost(results[1], Quorum(4), 0)
  {
    var rounds := Reported(map[], 1, 0, node)[1];
    assert rounds[0] == map[node := false];
  }

  /** Runs the events of `es` on new records: they end up as the run says. */
  method Execute(quorumNum: nat, es: seq<Event>) returns (s: Sortition)
    ensures s.quorumNum == quorumNum && s.results == Run(map[], es)
  {
    s := new Sortition(quorumNum);
    for k := 0 to |es|
      invariant fresh(s) && s.quorumNum == quorumNum && s.results == Run(map[], es[..k])
    {
      assert es[..k + 1][..k] == es[..k];
      match es[k] {
        case Report(height, round, node) => s.HandleSortitionMsg(height, round, node);
        case Start(height) => var _ := s.StartRound(height);
      }
    }
    assert es[..|es|] == es;
  }

  // ---------- What is recorded, in terms of what was reported ----------

  /** The loop looked at height `h` before any report on it came in. */
  predicate StartedFirst(es: seq<Event>, h: nat) {
    exists k: nat :: k < |es| && es[k] == Start(h) && forall j :: 0 <= j < k ==> !(es[j].Report? && es[j].height == h)
  }

  predicate Known(results: map<nat, Rounds>, h: nat, r: nat, i: Name) {
    h in results && r in results[h] && i in results[h][r]
  }

  lemma StepRecords(results: map<nat, Rounds>, e: Event)
    ensures forall h, r, i :: Known(Step(results, e), h, r, i) <==> Known(results, h, r, i) || e == Report(h, r, i)
    ensures forall h, r, i :: Known(Step(results, e), h, r, i) && Known(results, h, r, i) ==>
      Step(results, e)[h][r][i] == results[h][r][i] || e == Report(h, r, i)
    ensures forall h, r, i :: e == Report(h, r, i) ==> !Step(results, e)[h][r][i]
  {
  }

  /** After any sequence of events, a node is recorded for a height and a round exactly if its report on that
      height and that round is among them, and always with `false`. */
  lemma {:induction false} RecordsAreReports(es: seq<Event>)
    ensures forall h, r, i :: Known(Run(map[], es), h, r, i) <==> Report(h, r, i) in es
    ensures forall h, r, i :: Known(Run(map[], es), h, r, i) ==> !Run(map[], es)[h][r][i]
  {
    hide Step;
    if es != [] {
      var init, last := es[..|es| - 1], es[|es| - 1];
      RecordsAreReports(init);
      StepRecords(Run(map[], init), last);
      assert es == init + [last];
    }
  }

  /** A height is known exactly if it was reported on or looked at, and a round of it exactly if it was
      reported, or is round 0 of a height looked at before any report on it. */
  lemma {:induction false} KnownHeightsAndRounds(es: seq<Event>, h: nat)
    ensures h in Run(map[], es) <==> exists e :: e in es && e.height == h
    ensures h in Run(map[], es) ==> forall r ::
      r in Run(map[], es)[h] <==> (exists i :: Report(h, r, i) in es) || (r == 0 && StartedFirst(es, h))
  {
    if es != [] {
      var init, last := es[..|es| - 1], es[|es| - 1];
      KnownHeightsAndRounds(init, h);
      assert es == init + [last];
      StartedFirstOneMore(init, last, h);
      var before, after := Run(map[], init), Run(map[], es);
      assert last.height != h ==> (h in before <==> h in after) && (h in before ==> before[h] == after[h]);
      forall r | h in after
        ensures r in after[h] <==> (exists i :: Report(h, r, i) in es) || (r == 0 && StartedFirst(es, h))
      {
        if last.Report? && last.height == h && last.round == r {
          assert Report(h, r, last.node) in es;
        }
        assert forall i :: Report(h, r, i) in es <==> Report(h, r, i) in init || last == Report(h, r, i);
      }
    }
  }

  lemma StartedFirstOneMore(es: seq<Event>, e: Event, h: nat)
    ensures StartedFirst(es + [e], h) <==>
      StartedFirst(es, h) || (e == Start(h) && forall d :: d in es ==> !(d.Report? && d.height == h))
  {
    if StartedFirst(es, h) {
      var k: nat :| k < |es| && es[k] == Start(h) && forall j :: 0 <= j < k ==> !(es[j].Report? && es[j].height == h);
      assert (es + [e])[k] == Start(h);
    }
    if e == Start(h) && forall d :: d in es ==> !(d.Report? && d.height == h) {
      assert (es + [e])[|es|] == Start(h);
    }
    if StartedFirst(es + [e], h) {
      var k: nat :| k < |es + [e]| && (es + [e])[k] == Start(h)
                    && forall j :: 0 <= j < k ==> !((es + [e])[j].Report? && (es + [e])[j].height == h);
      assert forall j :: 0 <= j < |es| ==> (es + [e])[j] == es[j];
    }
  }

  /** The nodes whose report on a round of a height is among the events. */
  function Reporters(es: seq<Event>, h: nat, r: nat): set<Name> {
    set e | e in es && e.Report? && e.height == h && e.round == r :: e.node
  }

  lemma LostByReports(es: seq<Event>, q: nat, h: nat, r: nat)
    requires q >= 1
    ensures h in Run(map[], es) && Lost(Run(map[], es)[h], q, r) <==> |Reporters(es, h, r)| >= q
  {
    hide Run;
    RecordsAreReports(es);
    var results: map<nat, Rounds> := Run(map[], es);
    assert forall i :: i in Reporters(es, h, r) <==> Report(h, r, i) in es;
    if h in results && r in results[h] {
      var nodes: map<Name, bool> := results[h][r];
      assert forall i :: Known(results, h, r, i) <==> i in nodes;
      assert nodes.Keys == Reporters(es, h, r);
      assert |nodes| == |nodes.Keys|;
    } else {
      assert forall i :: !Known(results, h, r, i);
      assert Reporters(es, h, r) == {};
    }
  }

  /** Which round is started for a height, in terms of the reports that came in: round 0 as long as nothing is
      known of it; round `m + 1` where `m` is the last round that a quorum of distinct nodes reported, and
      round 1 if there is no such round from 1 on. */
  lemma {:induction false} StartedRoundByReports(es: seq<Event>, q: nat, h: nat, n: nat)
    requires q >= 1
    ensures NextRound(Run(map[], es), q, h, n) <==>
      if forall e :: e in es ==> e.height != h then n == 0
      else n >= 1 && (n >= 2 ==> |Reporters(es, h, n - 1)| >= q) && forall r: nat :: r >= n ==> |Reporters(es, h, r)| < q
  {
    hide Run, Lost, Reporters;
    KnownHeightsAndRounds(es, h);
    forall r: nat
      ensures h in Run(map[], es) && Lost(Run(map[], es)[h], q, r) <==> |Reporters(es, h, r)| >= q
    {
      LostByReports(es, q, h, r);
    }
  }

  // ---------- VRF inputs ----------

  const WORD := 0x1_0000_0000_0000_0000

  /** `nextHeight<<20 + nextRound` in 64-bit arithmetic. */
  function Seed(height: nat, round: nat): nat {
    (height * 0x10_0000 % WORD + round) % WORD
  }

  const DIGITS := "0123456789"

  /** The decimal rendering of the seed that is handed to the VRF. */
  function Decimal(n: nat): (s: string)
    ensures |s| > 0 && (n > 0 ==> s[0] != '0') && forall k :: 0 <= k < |s| ==> '0' <= s[k] <= '9'
  {
    if n < 10 then [DIGITS[n]] else Decimal(n / 10) + [DIGITS[n % 10]]
  }

  function DigitValue(c: char): nat {
    if '0' <= c <= '9' then (c - '0') as nat else 0
  }

  function Parse(s: string): nat {
    if s == [] then 0 else 10 * Parse(s[..|s| - 1]) + DigitValue(s[|s| - 1])
  }

  lemma {:induction false} ParseDecimal(n: nat)
    ensures Parse(Decimal(n)) == n
  {
    assert forall d :: 0 <= d < 10 ==> DigitValue(DIGITS[d]) == d;
    if n < 10 {
      assert Decimal(n)[..0] == [];
    } else {
      ParseDecimal(n / 10);
      assert Decimal(n)[..|Decimal(n)| - 1] == Decimal(n / 10);
    }
  }

  /** While heights stay below 2^44 and rounds below 2^20, different (height, round) pairs have different
      seeds and different VRF inputs. */
  lemma {:induction false} VrfInputsDistinct(h: nat, r: nat, h': nat, r': nat)
    requires h < 0x1000_0000_0000 && h' < 0x1000_0000_0000 && r < 0x10_0000 && r' < 0x10_0000
    requires Seed(h, r) == Seed(h', r') || Decimal(Seed(h, r)) == Decimal(Seed(h', r'))
    ensures h == h' && r == r'
  {
    hide Decimal, Parse, Seed;
    ParseDecimal(Seed(h, r));
    ParseDecimal(Seed(h', r'));
    SeedExact(h, r);
    SeedExact(h', r');
  }

  lemma SeedExact(h: nat, r: nat)
    requires h < 0x1000_0000_0000 && r < 0x10_0000
    ensures Seed(h, r) == h * 0x10_0000 + r
  {
    assert 0 <= h * 0x10_0000 <= 0xFFF_FFFF_FFFF * 0x10_0000;
    SmallMod(h * 0x10_0000);
    SmallMod(h * 0x10_0000 + r);
  }

  lemma SmallMod(a: nat)
    requires a < WORD
    ensures a % WORD == a
  {
  }

  /** Past that bound they can collide: round 2^20 of a height has the input of round 0 of the next. */
  lemma VrfInputsCollide(h: nat)
    requires h < 0xFFF_FFFF_FFFF
    ensures Seed(h, 0x10_0000) == Seed(h + 1, 0)
  {
  }
}
