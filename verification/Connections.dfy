/** The pool of outgoing connections: who owns each connection, over any run, and when none is wasted. */
module Connections {
  import opened Blocks

  type Target = string

  /** A connection: the `id`-th the transport has dialled. */
  datatype Conn = Conn(id: nat, target: Target)

  /** `held` and `released` keep track of the connections handed out and closed, `dialled` of the targets
      dialled, in order. */
  datatype Pool = Pool(
    idle: map<Target, seq<Conn>>,
    shutdown: bool,
    held: set<Conn>,
    released: set<Conn>,
    dialled: seq<Target>)

  function Idle(p: Pool, t: Target): seq<Conn> {
    if t in p.idle then p.idle[t] else []
  }

  const EMPTY_POOL := Pool(map[], false, {}, {}, [])

  /** The connection `GetConn` hands out; None when none is idle and the dial fails. */
  function Handed(p: Pool, t: Target, dials: bool): Option<Conn> {
    var idle := Idle(p, t);
    if idle != [] then Some(idle[|idle| - 1])
    else if dials then Some(Conn(|p.dialled|, t))
    else None
  }

  function AfterGet(p: Pool, t: Target, dials: bool): Pool {
    var idle := Idle(p, t);
    if idle != [] then
      p.(idle := p.idle[t := idle[..|idle| - 1]], held := p.held + {idle[|idle| - 1]})
    else if dials then
      p.(held := p.held + {Conn(|p.dialled|, t)}, dialled := p.dialled + [t])
    else p
  }

  function AfterReturn(maxPool: nat, p: Pool, c: Conn): Pool {
    if !p.shutdown && |Idle(p, c.target)| < maxPool then
      p.(idle := p.idle[c.target := Idle(p, c.target) + [c]], held := p.held - {c})
    else
      p.(held := p.held - {c}, released := p.released + {c})
  }

  // ---------- The transport in place ----------

  /** A slice of connections: the first `len` slots of its array. A slot may be nil. */
  datatype Slots = Slots(buf: array<Option<Conn>>, len: nat)

  ghost predicate Filled(s: Slots)
    reads s.buf
  {
    s.len <= s.buf.Length && forall k :: 0 <= k < s.buf.Length ==> (s.buf[k].Some? <==> k < s.len)
  }

  ghost function Contents(s: Slots): (cs: seq<Conn>)
    requires Filled(s)
    reads s.buf
    ensures |cs| == s.len && forall k :: 0 <= k < s.len ==> s.buf[k] == Some(cs[k])
  {
    seq(s.len, k requires 0 <= k < s.len && Filled(s) reads s.buf => s.buf[k].value)
  }

  /** The last connection is taken out and its slot set to nil. */
  method Pop(s: Slots) returns (c: Option<Conn>, s': Slots)
    requires Filled(s) && s.len > 0
    modifies s.buf
    ensures s'.buf == s.buf && Filled(s') && c.Some?
    ensures old(Contents(s)) == Contents(s') + [c.value]
  {
    c := s.buf[s.len - 1];
    s.buf[s.len - 1] := None;
    s' := Slots(s.buf, s.len - 1);
  }

  /** `append`: in place while the capacity lasts, else into a new array with `spare` slots to spare. */
  method Append(s: Slots, c: Conn, spare: nat) returns (s': Slots)
    requires Filled(s)
    modifies s.buf
    ensures (s'.buf == s.buf || fresh(s'.buf)) && Filled(s')
    ensures Contents(s') == old(Contents(s)) + [c]
  {
    var buf := s.buf;
    if s.len == s.buf.Length {
      buf := new Option<Conn>[s.len + 1 + spare](_ => None);
      forall k | 0 <= k < s.len {
        buf[k] := s.buf[k];
      }
    }
    buf[s.len] := Some(c);
    s' := Slots(buf, s.len + 1);
  }

  class NetworkTransport {
    const maxPool: nat
    var connPool: map<Target, Slots>
    var shutdown: bool
    ghost var held: set<Conn>
    ghost var released: set<Conn>
    var dialled: seq<Target>

    ghost function Buffers(): set<array<Option<Conn>>>
      reads this`connPool
    {
      set t | t in connPool :: connPool[t].buf
    }

    /** Each target has an array of its own. The slots in use hold connections; the others are nil, so that no
        connection handed out is kept. */
    ghost predicate Valid()
      reads this`connPool, Buffers()
    {
      && (forall t :: t in connPool ==> Filled(connPool[t]))
      && (forall t, u :: t in connPool && u in connPool && t != u ==> connPool[t].buf != connPool[u].buf)
    }

    ghost function IdleView(): map<Target, seq<Conn>>
      requires Valid()
      reads this`connPool, Buffers()
    {
      map t | t in connPool :: Contents(connPool[t])
    }

    ghost function View(): Pool
      requires Valid()
      reads this, Buffers()
    {
      Pool(IdleView(), shutdown, held, released, dialled)
    }

    /** What the slice of a target holds, and how it is told to be empty. */
    lemma IdleAt(t: Target)
      requires Valid()
      ensures Idle(View(), t) == if t in connPool then Contents(connPool[t]) else []
      ensures Idle(View(), t) != [] <==> t in connPool && connPool[t].len > 0
    {
    }

    constructor (maxPool: nat)
      ensures this.maxPool == maxPool && Valid() && View() == EMPTY_POOL && Buffers() == {}
    {
      this.maxPool := maxPool;
      connPool, shutdown, held, released, dialled := map[], false, {}, {}, [];
    }

    /** An idle connection, the one returned last first, or else a new one if the dial succeeds. The result is
        nil only along with an error. */
    method GetConn(target: Target, dials: bool) returns (c: Option<Conn>, err: bool)
      requires Valid()
      modifies this, Buffers()
      ensures Valid() && fresh(Buffers() - old(Buffers()))
      ensures c == old(Handed(View(), target, dials)) && (err <==> c.None?)
      ensures View() == old(AfterGet(View(), target, dials))
    {
      hide Filled, Contents, Idle;
      IdleAt(target);
      if target in connPool && connPool[target].len > 0 {
        c := TakeLast(target);
        held := held + {c.value};
        err := false;
      } else {
        c := DialConn(target, dials);
        err := c.None?;
      }
    }

    /** The slice of `target` is set to `s`; `idle` is what the slices of the others hold. */
    method Store(target: Target, s: Slots, ghost idle: map<Target, seq<Conn>>)
      requires Filled(s) && forall t :: t != target ==> (t in idle <==> t in connPool)
      requires forall t :: t in connPool && t != target ==>
        Filled(connPool[t]) && connPool[t].buf != s.buf && Contents(connPool[t]) == idle[t]
      requires forall t, u :: t in connPool && u in connPool && t != u && t != target && u != target ==>
        connPool[t].buf != connPool[u].buf
      modifies this`connPool
      ensures Valid() && Buffers() <= old(Buffers()) + {s.buf}
      ensures IdleView() == idle[target := Contents(s)]
    {
      hide Filled, Contents;
      ghost var was := connPool;
      connPool := connPool[target := s];
      assert Valid() by {
        assert forall t :: t in connPool && t != target ==> t in was && connPool[t] == was[t];
      }
      forall t | t in connPool
        ensures Contents(connPool[t]) == idle[target := Contents(s)][t]
      {
        assert t != target ==> t in was && connPool[t] == was[t];
      }
    }

    method TakeLast(target: Target) returns (c: Option<Conn>)
      requires Valid() && target in connPool && connPool[target].len > 0
      modifies this`connPool, Buffers()
      ensures Valid() && fresh(Buffers() - old(Buffers()))
      ensures var idle := old(Contents(connPool[target]));
        c == Some(idle[|idle| - 1]) && IdleView() == old(IdleView())[target := idle[..|idle| - 1]]
    {
      ghost var idle := IdleView();
      var netConns;
      c, netConns := Pop(connPool[target]);
      assert idle[target] == Contents(netConns) + [c.value];
      Store(target, netConns, idle);
    }

    method DialConn(target: Target, dials: bool) returns (c: Option<Conn>)
      modifies this`held, this`dialled
      ensures c == if dials then Some(Conn(old(|dialled|), target)) else None
      ensures dialled == old(dialled) + (if dials then [target] else [])
      ensures held == old(held) + (if dials then {Conn(old(|dialled|), target)} else {})
    {
      c := None;
      if dials {
        c := Some(Conn(|dialled|, target));
        held := held + {Conn(|dialled|, target)};
        dialled := dialled + [target];
      }
    }

    /** Back to the pool of its target while there is room and the transport is open, else closed. `spare` says
        how far an append to a full slice over-allocates. */
    method ReturnConn(c: Conn, spare: nat)
      requires Valid()
      modifies this, Buffers()
      ensures Valid() && fresh(Buffers() - old(Buffers()))
      ensures View() == old(AfterReturn(maxPool, View(), c))
    {
      hide Filled, Contents, Idle;
      IdleAt(c.target);
      var num := if c.target in connPool then connPool[c.target].len else 0;
      if !shutdown && num < maxPool {
        PutBack(c, spare);
      } else {
        released := released + {c};
      }
      held := held - {c};
    }

    method PutBack(c: Conn, spare: nat)
      requires Valid()
      modifies this`connPool, Buffers()
      ensures Valid() && fresh(Buffers() - old(Buffers()))
      ensures IdleView() == old(IdleView())[c.target := old(Idle(View(), c.target)) + [c]]
    {
      hide Contents, Idle;
      IdleAt(c.target);
      ghost var idle := IdleView();
      var nilSlice := new Option<Conn>[0];
      var netConns := if c.target in connPool then connPool[c.target] else Slots(nilSlice, 0);
      netConns := Append(netConns, c, spare);
      Store(c.target, netConns, idle);
    }

    method Close()
      requires Valid()
      modifies this`shutdown
      ensures Valid() && Buffers() == old(Buffers())
      ensures View() == old(View()).(shutdown := true)
    {
      if !shutdown {
        shutdown := true;
      }
    }
  }

  // ---------- Every run ----------

  datatype Event = Get(target: Target, dials: bool) | Return(conn: Conn) | Close

  /** A connection is returned by whoever holds it, and so once each time it was handed out. */
  function Step(maxPool: nat, p: Pool, e: Event): Pool {
    match e
    case Get(t, dials) => AfterGet(p, t, dials)
    case Return(c) => if c in p.held then AfterReturn(maxPool, p, c) else p
    case Close => p.(shutdown := true)
  }

  function Run(maxPool: nat, es: seq<Event>): Pool {
    if es == [] then EMPTY_POOL else Step(maxPool, Run(maxPool, es[..|es| - 1]), es[|es| - 1])
  }

  /** One event on the transport, whose callers hold `held`. */
  method RunEvent(n: NetworkTransport, held: set<Conn>, e: Event, spare: nat) returns (held': set<Conn>)
    requires n.Valid() && held == n.held
    modifies n, n.Buffers()
    ensures n.Valid() && fresh(n.Buffers() - old(n.Buffers()))
    ensures n.View() == Step(n.maxPool, old(n.View()), e) && held' == n.held
  {
    hide AfterReturn;
    held' := held;
    match e
    case Get(t, dials) =>
      var c, err := n.GetConn(t, dials);
      if !err {
        held' := held + {c.value};
      }
    case Return(c) =>
      if c in held {
        HeldAfterReturn(n.maxPool, n.View(), c);
        n.ReturnConn(c, spare);
        held' := held - {c};
      }
    case Close => n.Close();
  }

  /** Runs the events of `es` on a new transport: its slices end up holding what the run says. `growth` says how
      far an append to a full slice over-allocates. */
  method Execute(maxPool: nat, es: seq<Event>, growth: nat -> nat) returns (n: NetworkTransport, held: set<Conn>)
    ensures n.Valid() && n.maxPool == maxPool
    ensures n.View() == Run(maxPool, es) && held == Run(maxPool, es).held
  {
    hide Step;
    n := new NetworkTransport(maxPool);
    held := {};
    for k := 0 to |es|
      invariant fresh(n) && fresh(n.Buffers()) && n.Valid() && n.maxPool == maxPool
      invariant n.View() == Run(maxPool, es[..k]) && held == n.held
    {
      assert es[..k + 1][..k] == es[..k];
      held := RunEvent(n, held, es[k], growth(k));
    }
    assert es[..|es|] == es;
  }

  lemma HeldAfterReturn(maxPool: nat, p: Pool, c: Conn)
    ensures AfterReturn(maxPool, p, c).held == p.held - {c}
  {
  }

  /** The number of places `c` is in: slots of its own target's pool, among the held, among the released. */
  function Places(p: Pool, c: Conn): nat {
    multiset(Idle(p, c.target))[c] + (if c in p.held then 1 else 0) + (if c in p.released then 1 else 0)
  }

  predicate Dialled(p: Pool, c: Conn) {
    c.id < |p.dialled| && p.dialled[c.id] == c.target
  }

  /** Each dialled connection is in exactly one place, once, and nothing else is in any. */
  ghost predicate Placed(p: Pool) {
    forall c :: Places(p, c) == if Dialled(p, c) then 1 else 0
  }

  /** A pool holds connections to its own target only and never more than `maxPool`. */
  ghost predicate Shelved(maxPool: nat, p: Pool) {
    forall t :: |Idle(p, t)| <= maxPool && forall c :: c in Idle(p, t) ==> c.target == t
  }

  lemma PopPlaced(p: Pool, t: Target)
    requires Placed(p) && Idle(p, t) != [] && forall c :: c in Idle(p, t) ==> c.target == t
    ensures Placed(AfterGet(p, t, false))
  {
    var idle := Idle(p, t);
    var last := idle[|idle| - 1];
    var p' := AfterGet(p, t, false);
    assert last in idle;
    assert idle == idle[..|idle| - 1] + [last];
    assert multiset(idle) == multiset(idle[..|idle| - 1]) + multiset{last};
    assert Places(p, last) == 1;
    forall c
      ensures Places(p', c) == Places(p, c) && Dialled(p', c) == Dialled(p, c)
    {
      if c.target != t {
        assert Idle(p', c.target) == Idle(p, c.target);
      }
    }
  }

  lemma DialPlaced(p: Pool, t: Target)
    requires Placed(p) && Idle(p, t) == []
    ensures Placed(AfterGet(p, t, true))
  {
    var p' := AfterGet(p, t, true);
    var dialled := Conn(|p.dialled|, t);
    assert Places(p, dialled) == 0;
    forall c
      ensures Places(p', c) == if Dialled(p', c) then 1 else 0
    {
      assert Idle(p', c.target) == Idle(p, c.target);
      assert Dialled(p', c) <==> Dialled(p, c) || c == dialled;
    }
  }

  lemma ReturnPlaced(maxPool: nat, p: Pool, c: Conn)
    requires Placed(p) && c in p.held
    ensures Placed(AfterReturn(maxPool, p, c))
  {
    var p' := AfterReturn(maxPool, p, c);
    assert Places(p, c) == 1;
    forall d
      ensures Places(p', d) == Places(p, d) && Dialled(p', d) == Dialled(p, d)
    {
      if d.target != c.target {
        assert Idle(p', d.target) == Idle(p, d.target);
      }
    }
  }

  lemma ClosePlaced(p: Pool)
    requires Placed(p)
    ensures Placed(p.(shutdown := true))
  {
    forall c
      ensures Places(p.(shutdown := true), c) == Places(p, c) && Dialled(p.(shutdown := true), c) == Dialled(p, c)
    {
    }
  }

  lemma StepShelved(maxPool: nat, p: Pool, e: Event)
    requires Shelved(maxPool, p)
    ensures Shelved(maxPool, Step(maxPool, p, e))
  {
    var p' := Step(maxPool, p, e);
    var t := match e case Get(t, _) => t case Return(c) => c.target case Close => "";
    forall u
      ensures |Idle(p', u)| <= maxPool && forall c :: c in Idle(p', u) ==> c.target == u
    {
      if u != t || e.Close? {
        assert Idle(p', u) == Idle(p, u);
      } else {
        assert |Idle(p, u)| <= maxPool;
      }
    }
  }

  /** Pool ownership: in every run, each dialled connection is pooled under its own target, held or
      released, exactly one of the three and once, and no pool outgrows its bound. */
  lemma {:induction false} ConnectionsOwned(maxPool: nat, es: seq<Event>)
    ensures Placed(Run(maxPool, es)) && Shelved(maxPool, Run(maxPool, es))
  {
    hide Placed, Shelved, AfterGet, AfterReturn, Idle;
    if es == [] {
      NothingOwned(maxPool);
    } else {
      var p := Run(maxPool, es[..|es| - 1]);
      ConnectionsOwned(maxPool, es[..|es| - 1]);
      StepShelved(maxPool, p, es[|es| - 1]);
      StepPlaced(maxPool, p, es[|es| - 1]);
    }
  }

  lemma StepPlaced(maxPool: nat, p: Pool, e: Event)
    requires Placed(p) && Shelved(maxPool, p)
    ensures Placed(Step(maxPool, p, e))
  {
    hide Placed;
    match e
    case Get(t, dials) =>
      if Idle(p, t) != [] {
        PopPlaced(p, t);
      } else if dials {
        DialPlaced(p, t);
      }
    case Return(c) =>
      if c in p.held {
        ReturnPlaced(maxPool, p, c);
      }
    case Close => ClosePlaced(p);
  }

  lemma NothingOwned(maxPool: nat)
    ensures Placed(EMPTY_POOL) && Shelved(maxPool, EMPTY_POOL)
  {
  }

  /** A connection that goes back to the pool is the next one handed out for its target, and handing it
      out undoes the return; one that does not go back is never handed out next. */
  lemma ReturnThenGet(maxPool: nat, p: Pool, c: Conn, dials: bool)
    requires Placed(p) && c in p.held
    ensures var p' := AfterReturn(maxPool, p, c);
      if !p.shutdown && |Idle(p, c.target)| < maxPool then
        && Handed(p', c.target, dials) == Some(c)
        && AfterGet(p', c.target, dials) == p.(idle := p.idle[c.target := Idle(p, c.target)])
      else
        Handed(p', c.target, dials) != Some(c)
  {
    var p' := AfterReturn(maxPool, p, c);
    var idle := Idle(p, c.target);
    if !p.shutdown && |idle| < maxPool {
      assert Idle(p', c.target) == idle + [c];
      assert (idle + [c])[..|idle|] == idle;
      assert p.held - {c} + {c} == p.held;
    } else {
      assert Places(p, c) == 1 && Dialled(p, c);
      assert c !in idle;
      assert Idle(p', c.target) == idle;
    }
  }

  // ---------- Reuse ----------

  function HeldFor(p: Pool, t: Target): set<Conn> {
    set c | c in p.held && c.target == t
  }

  /** Throughout `es`, at most `m` connections to `t` are held at once. */
  predicate HoldsAtMost(maxPool: nat, es: seq<Event>, t: Target, m: nat) {
    |HeldFor(Run(maxPool, es), t)| <= m && (es == [] || HoldsAtMost(maxPool, es[..|es| - 1], t, m))
  }

  /** Every connection dialled to `t` is idle or held, and there are at most `m`. */
  ghost predicate NoneWasted(p: Pool, t: Target, m: nat) {
    && multiset(p.dialled)[t] == |Idle(p, t)| + |HeldFor(p, t)| <= m
    && forall c :: c in p.released ==> c.target != t
  }

  lemma HeldOne(p: Pool, p': Pool, c: Conn, t: Target)
    requires p'.held == p.held + {c} && c !in p.held
    ensures |HeldFor(p', t)| == |HeldFor(p, t)| + if c.target == t then 1 else 0
  {
    assert HeldFor(p', t) == if c.target == t then HeldFor(p, t) + {c} else HeldFor(p, t);
  }

  lemma GetWastesNone(p: Pool, u: Target, dials: bool, t: Target, m: nat)
    requires Placed(p) && (forall c :: c in Idle(p, u) ==> c.target == u)
    requires NoneWasted(p, t, m) && |HeldFor(AfterGet(p, u, dials), t)| <= m
    ensures NoneWasted(AfterGet(p, u, dials), t, m)
  {
    hide HeldFor;
    var p' := AfterGet(p, u, dials);
    assert HeldFor(p, t) == HeldFor(p', t) || p.held != p'.held by { HeldSame(p, p', t); }
    if Idle(p, u) != [] {
      var last := Idle(p, u)[|Idle(p, u)| - 1];
      assert last in Idle(p, u) && Places(p, last) <= 1;
      HeldOne(p, p', last, t);
    } else if dials {
      var dialled := Conn(|p.dialled|, u);
      assert Places(p, dialled) == 0;
      HeldOne(p, p', dialled, t);
    }
  }

  lemma HeldSame(p: Pool, p': Pool, t: Target)
    ensures p.held == p'.held ==> HeldFor(p, t) == HeldFor(p', t)
  {
  }

  lemma ReturnWastesNone(maxPool: nat, p: Pool, c: Conn, t: Target, m: nat)
    requires NoneWasted(p, t, m) && m <= maxPool && !p.shutdown && c in p.held
    ensures NoneWasted(AfterReturn(maxPool, p, c), t, m)
  {
    hide HeldFor;
    var p' := AfterReturn(maxPool, p, c);
    assert p.held == p'.held + {c};
    HeldOne(p', p, c, t);
  }

  /** Connections are not established repeatedly: as long as the transport is open and never more than `m`
      connections to a target, the pool's bound or less, are held at once, at most `m` are ever dialled
      to that target and none of them is closed. */
  lemma {:induction false} ConnectionsReused(maxPool: nat, es: seq<Event>, t: Target, m: nat)
    requires HoldsAtMost(maxPool, es, t, m) && m <= maxPool && !Run(maxPool, es).shutdown
    ensures NoneWasted(Run(maxPool, es), t, m)
  {
    hide Placed, NoneWasted, HeldFor, AfterGet, AfterReturn;
    if es == [] {
      NothingWasted(t, m);
    } else {
      var p, e := Run(maxPool, es[..|es| - 1]), es[|es| - 1];
      ShutdownStays(maxPool, p, e);
      ConnectionsReused(maxPool, es[..|es| - 1], t, m);
      ConnectionsOwned(maxPool, es[..|es| - 1]);
      match e
      case Get(u, dials) => GetWastesNone(p, u, dials, t, m);
      case Return(c) =>
        if c in p.held {
          ReturnWastesNone(maxPool, p, c, t, m);
        }
      case Close =>
    }
  }

  lemma ShutdownStays(maxPool: nat, p: Pool, e: Event)
    ensures p.shutdown ==> Step(maxPool, p, e).shutdown
  {
  }

  /** Closing is for good: the transport is shut down exactly if it was closed, and from then on no pool grows
      and every connection returned is released. */
  lemma {:induction false} ClosedForGood(maxPool: nat, es: seq<Event>, n: nat, t: Target)
    requires n <= |es|
    ensures Run(maxPool, es).shutdown <==> Close in es
    ensures Close in es[..n] ==> |Idle(Run(maxPool, es), t)| <= |Idle(Run(maxPool, es[..n]), t)|
    ensures forall c :: Close in es && c in Run(maxPool, es).held ==>
      c in Run(maxPool, es + [Return(c)]).released && c !in Run(maxPool, es + [Return(c)]).held
  {
    if n == |es| {
      assert es[..n] == es;
    }
    if es != [] {
      var init, last := es[..|es| - 1], es[|es| - 1];
      assert es == init + [last];
      ClosedForGood(maxPool, init, if n == |es| then n - 1 else n, t);
      if n < |es| {
        assert init[..n] == es[..n];
        if Close in es[..n] {
          assert Close in init[..n] && init == init[..n] + init[n..];
          ClosedPoolsShrink(maxPool, Run(maxPool, init), last, t);
        }
      }
    }
    forall c | Close in es && c in Run(maxPool, es).held
      ensures c in Run(maxPool, es + [Return(c)]).released && c !in Run(maxPool, es + [Return(c)]).held
    {
      assert (es + [Return(c)])[..|es|] == es;
    }
  }

  lemma ClosedPoolsShrink(maxPool: nat, p: Pool, e: Event, t: Target)
    requires p.shutdown
    ensures |Idle(Step(maxPool, p, e), t)| <= |Idle(p, t)|
  {
  }

  lemma NothingWasted(t: Target, m: nat)
    ensures NoneWasted(EMPTY_POOL, t, m)
  {
    assert HeldFor(EMPTY_POOL, t) == {};
  }
}
