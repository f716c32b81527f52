/** The request pool: serial numbers, the slice the pool and the proposed batches share, and what every
    interleaving of clients and proposals conserves. */
module Requests {
  import opened Blocks

  const MAX_BATCH := 1000

  function Min(a: nat, b: nat): nat {
    if a < b then a else b
  }

  // ---------- The pool on the heap ----------

  /** A Go slice: `len` elements of a backing array from `off` on; its capacity is the rest of the array. */
  datatype Slice = Slice(buf: array<Request>, off: nat, len: nat)
  {
    predicate Fits() { off + len <= buf.Length }
  }

  ghost function Items(s: Slice): seq<Request>
    requires s.Fits()
    reads s.buf
  {
    s.buf[s.off..s.off + s.len]
  }

  class RequestPool {
    var pool: Slice
    /** The batches taken so far, each a slice of the array the pool had then. */
    ghost var batches: seq<Slice>

    /** Where a batch shares the pool's array, it ends before the pool begins. */
    ghost predicate Valid()
      reads this
    {
      && pool.Fits()
      && forall i :: 0 <= i < |batches| ==>
           batches[i].Fits() && (batches[i].buf == pool.buf ==> batches[i].off + batches[i].len <= pool.off)
    }

    /** The pool and the batches hold what the abstract state `s` says. */
    ghost predicate StandsFor(s: State)
      reads this, pool.buf, set i | 0 <= i < |batches| :: batches[i].buf
    {
      && Valid() && Items(pool) == s.pool
      && |batches| == |s.batches|
      && forall i :: 0 <= i < |batches| ==> Items(batches[i]) == s.batches[i]
    }

    constructor ()
      ensures Valid() && Items(pool) == [] && batches == [] && fresh(pool.buf)
    {
      var empty := new Request[0];
      pool, batches := Slice(empty, 0, 0), [];
    }

    /** `append`: in place while the capacity lasts, otherwise into a new array with `spare` slots to spare.
        No batch taken earlier changes, though it may share the array written to. */
    method Append(r: Request, spare: nat)
      requires Valid()
      modifies this`pool, pool.buf
      ensures Valid() && batches == old(batches)
      ensures Items(pool) == old(Items(pool)) + [r]
      ensures forall i :: 0 <= i < |batches| ==> Items(batches[i]) == old(Items(batches[i]))
      ensures pool.buf == old(pool.buf) || fresh(pool.buf)
    {
      var end := pool.off + pool.len;
      if end < pool.buf.Length {
        var buf := pool.buf;
        buf[end] := r;
        pool := pool.(len := pool.len + 1);
      } else {
        var was := pool;
        var buf := new Request[was.len + 1 + spare](_ => r);
        forall i | 0 <= i < was.len {
          buf[i] := was.buf[was.off + i];
        }
        pool := Slice(buf, 0, was.len + 1);
        assert Items(pool)[..was.len] == old(Items(pool));
      }
    }

    /** A winning proposer takes the first requests, at most 1000, by slicing. */
    method TakeBatch() returns (batch: Slice)
      requires Valid()
      modifies this
      ensures Valid() && batch.Fits() && batches == old(batches) + [batch]
      ensures batch.buf == old(pool.buf) && pool.buf == old(pool.buf)
      ensures Items(batch) + Items(pool) == old(Items(pool))
      ensures |old(Items(pool))| <= 1000 ==> Items(pool) == []
      ensures |old(Items(pool))| > 1000 ==> |Items(batch)| == 1000
    {
      var endNum := MAX_BATCH;
      if pool.len < 1000 {
        endNum := pool.len;
      }
      batch := pool.(len := endNum);
      pool := Slice(pool.buf, pool.off + endNum, pool.len - endNum);
      batches := batches + [batch];
    }
  }

  // ---------- Clients and proposals in any order ----------

  /** `between` holds the requests numbered under the handler's lock and not yet under the pool's;
      `received` the commands in the order of their numbers; `appended` the requests in the order in
      which they reached the pool. */
  datatype State = State(
    server: Name,
    between: seq<Request>,
    pool: seq<Request>,
    batches: seq<seq<Request>>,
    received: seq<Command>,
    appended: seq<Request>)

  /** A client call taking the next number, a call reaching the pool, a proposal. */
  datatype Event = Number(cmd: Command) | Enqueue(i: nat) | Propose

  function Initial(server: Name): State {
    State(server, [], [], [], [], [])
  }

  /** The next serial number is the count of commands received. */
  function Step(s: State, e: Event): State {
    match e
    case Number(cmd) =>
      s.(between := s.between + [Request(cmd, s.server, |s.received|)], received := s.received + [cmd])
    case Enqueue(i) =>
      if i < |s.between| then
        s.(between := s.between[..i] + s.between[i + 1..], pool := s.pool + [s.between[i]],
           appended := s.appended + [s.between[i]])
      else s
    case Propose =>
      var n := Min(MAX_BATCH, |s.pool|);
      s.(batches := s.batches + [s.pool[..n]], pool := s.pool[n..])
  }

  function Run(server: Name, es: seq<Event>): State {
    if es == [] then Initial(server) else Step(Run(server, es[..|es| - 1]), es[|es| - 1])
  }

  /** How often number `sn` occurs in `rs`. */
  function Count(rs: seq<Request>, sn: nat): nat {
    if rs == [] then 0 else (if rs[0].sn == sn then 1 else 0) + Count(rs[1..], sn)
  }

  function Flatten(bs: seq<seq<Request>>): seq<Request> {
    if bs == [] then [] else Flatten(bs[..|bs| - 1]) + bs[|bs| - 1]
  }

  lemma {:induction false} CountConcat(a: seq<Request>, b: seq<Request>, sn: nat)
    ensures Count(a + b, sn) == Count(a, sn) + Count(b, sn)
  {
    if a == [] {
      assert a + b == b;
    } else {
      CountConcat(a[1..], b, sn);
      assert (a + b)[1..] == a[1..] + b;
    }
  }

  ghost predicate Conserved(s: State) {
    && (forall sn: nat :: Count(s.between, sn) + Count(s.appended, sn) == if sn < |s.received| then 1 else 0)
    && Flatten(s.batches) + s.pool == s.appended
    && (forall r :: r in s.between || r in s.appended ==>
          r.sn < |s.received| && r == Request(s.received[r.sn], s.server, r.sn))
    && (forall b :: b in s.batches ==> |b| <= MAX_BATCH)
  }

  lemma NumberConserves(s: State, cmd: Command)
    requires Conserved(s)
    ensures Conserved(Step(s, Number(cmd)))
  {
    var s' := Step(s, Number(cmd));
    var r := Request(cmd, s.server, |s.received|);
    forall sn: nat
      ensures Count(s'.between, sn) + Count(s'.appended, sn) == if sn < |s'.received| then 1 else 0
    {
      CountConcat(s.between, [r], sn);
      assert [r][1..] == [];
    }
  }

  lemma EnqueueMoves(s: State, i: nat, sn: nat)
    requires i < |s.between|
    ensures var s' := Step(s, Enqueue(i));
      Count(s'.between, sn) + Count(s'.appended, sn) == Count(s.between, sn) + Count(s.appended, sn)
  {
    var r := s.between[i];
    assert s.between == s.between[..i] + ([r] + s.between[i + 1..]);
    CountConcat(s.between[..i], [r] + s.between[i + 1..], sn);
    CountConcat([r], s.between[i + 1..], sn);
    CountConcat(s.between[..i], s.between[i + 1..], sn);
    CountConcat(s.appended, [r], sn);
  }

  lemma EnqueueConserves(s: State, i: nat)
    requires Conserved(s) && i < |s.between|
    ensures Conserved(Step(s, Enqueue(i)))
  {
    hide Count;
    var s' := Step(s, Enqueue(i));
    forall sn: nat
      ensures Count(s'.between, sn) + Count(s'.appended, sn) == if sn < |s'.received| then 1 else 0
    {
      EnqueueMoves(s, i, sn);
    }
    assert Flatten(s'.batches) + s'.pool == Flatten(s.batches) + s.pool + [s.between[i]];
    assert forall r :: r in s'.between ==> r in s.between;
  }

  lemma ProposeConserves(s: State)
    requires Conserved(s)
    ensures Conserved(Step(s, Propose))
  {
    hide Count;
    var s' := Step(s, Propose);
    var n := Min(MAX_BATCH, |s.pool|);
    assert s'.batches[..|s.batches|] == s.batches;
    assert s.pool[..n] + s.pool[n..] == s.pool;
    assert Flatten(s'.batches) + s'.pool == Flatten(s.batches) + (s.pool[..n] + s.pool[n..]);
  }

  lemma StepConserves(s: State, e: Event)
    requires Conserved(s)
    ensures Conserved(Step(s, e))
  {
    hide Conserved;
    match e
    case Number(cmd) => NumberConserves(s, cmd);
    case Enqueue(i) => if i < |s.between| { EnqueueConserves(s, i); }
    case Propose => ProposeConserves(s);
  }

  /** Request conservation: however client calls and proposals interleave, each number handed out is in
      exactly one place, once: with a call between the two locks, in the pool, or in one batch of at most
      1000; batches and pool together are the requests in the order in which they reached the pool; and
      the request numbered `sn` carries the command the client sent for it. */
  lemma {:induction false} RequestsConserved(server: Name, es: seq<Event>)
    ensures Conserved(Run(server, es))
    ensures var s := Run(server, es);
      forall sn: nat :: Count(s.between, sn) + Count(Flatten(s.batches), sn) + Count(s.pool, sn) ==
        if sn < |s.received| then 1 else 0
  {
    if es != [] {
      RequestsConserved(server, es[..|es| - 1]);
      StepConserves(Run(server, es[..|es| - 1]), es[|es| - 1]);
    }
    var s := Run(server, es);
    forall sn: nat
      ensures Count(s.between, sn) + Count(Flatten(s.batches), sn) + Count(s.pool, sn) == if sn < |s.received| then 1 else 0
    {
      CountConcat(Flatten(s.batches), s.pool, sn);
    }
  }

  /** What a proposal takes: all of a pool of at most 1000 requests, else exactly the first 1000, and the pool
      keeps the others. Nothing else changes. */
  lemma {:induction false} ProposalTakes(server: Name, es: seq<Event>)
    ensures var s, s' := Run(server, es), Run(server, es + [Propose]);
      && |s'.batches| == |s.batches| + 1 && s'.batches[..|s.batches|] == s.batches
      && s'.batches[|s.batches|] + s'.pool == s.pool
      && (|s.pool| <= 1000 ==> s'.batches[|s.batches|] == s.pool && s'.pool == [])
      && (|s.pool| > 1000 ==> |s'.batches[|s.batches|]| == 1000)
      && s'.between == s.between && s'.received == s.received && s'.appended == s.appended
  {
    hide Run;
    assert (es + [Propose])[..|es|] == es;
    RunOneMore(server, es, Propose);
  }

  lemma RunOneMore(server: Name, es: seq<Event>, e: Event)
    ensures Run(server, es + [e]) == Step(Run(server, es), e)
  {
    hide Step;
    assert (es + [e])[..|es|] == es;
  }

  // ---------- Runs on the heap ----------

  class RPCHandler {
    const nodeName: Name
    const reqPool: RequestPool
    var nextSN: nat

    constructor (nodeName: Name)
      ensures this.nodeName == nodeName && nextSN == 0
      ensures fresh(reqPool) && fresh(reqPool.pool.buf) && reqPool.StandsFor(Initial(nodeName))
    {
      this.nodeName := nodeName;
      reqPool := new RequestPool();
      nextSN := 0;
    }

    /** The first half of `NewRequest`: a number is taken under the handler's lock. The second is `Append`. */
    method Wrap(cmd: Command) returns (wrapped: Request)
      modifies this
      ensures nextSN == old(nextSN) + 1 && wrapped == Request(cmd, nodeName, old(nextSN))
    {
      wrapped := Request(cmd, nodeName, nextSN);
      nextSN := nextSN + 1;
    }
  }

  /** Runs clients and proposals on the shared slice; `growth` says how far an append to a full slice over-allocates.
      At the end the pool and every batch ever sliced off it still hold what the run says they hold. */
  method Execute(server: Name, es: seq<Event>, growth: nat -> nat) returns (c: RPCHandler, s: State)
    ensures s == Run(server, es) && c.nextSN == |s.received|
    ensures c.reqPool.StandsFor(Run(server, es))
  {
    c := new RPCHandler(server);
    s := Initial(server);
    for k := 0 to |es|
      invariant fresh(c) && fresh(c.reqPool) && fresh(c.reqPool.pool.buf)
      invariant c.nodeName == server == s.server && c.nextSN == |s.received|
      invariant s == Run(server, es[..k]) && c.reqPool.StandsFor(s)
    {
      assert es[..k + 1][..k] == es[..k];
      var e := es[k];
      s := RunEvent(c, s, e, growth(|s.pool|));
    }
    assert es[..|es|] == es;
  }

  method RunEvent(c: RPCHandler, s: State, e: Event, spare: nat) returns (s': State)
    requires c.nodeName == s.server && c.nextSN == |s.received| && c.reqPool.StandsFor(s)
    modifies c, c.reqPool, c.reqPool.pool.buf
    ensures s' == Step(s, e) && s'.server == s.server && c.nextSN == |s'.received| && c.reqPool.StandsFor(s')
    ensures c.reqPool.pool.buf == old(c.reqPool.pool.buf) || fresh(c.reqPool.pool.buf)
  {
    match e
    case Number(cmd) =>
      var wrapped := c.Wrap(cmd);
      s' := s.(between := s.between + [wrapped], received := s.received + [cmd]);
    case Enqueue(i) =>
      s' := s;
      if i < |s.between| {
        c.reqPool.Append(s.between[i], spare);
        s' := Step(s, e);
      }
    case Propose =>
      var _ := c.reqPool.TakeBatch();
      s' := Step(s, e);
  }
}
