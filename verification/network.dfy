// A client with all its servers: every connection of the pool with its own server connection and its own
// two wires.
module Network {
  import opened RpcTypes
  import opened Counting
  import C = ClientMachine
  import S = ServerMachine
  import P = PoolMachine
  import PS = PoolSafety
  import PT = PoolTheorems
  import PStatus = PoolStatus
  import Session
  import ST = SessionTheorems
  import SW = SessionWitnesses

  /** What is at the other end of a connection: the server's part and both wires. */
  datatype Link = Link(server: S.State, reqLog: seq<Token>, reqPos: nat, respLog: seq<Token>, respPos: nat,
                       broken: bool)

  const NEW_LINK: Link := Link(S.Initial(), [], 0, [], 0, false)

  datatype State = State(pool: P.State, links: seq<Link>)

  /** What the handlers of the server at an address may do. */
  type Handlers = string -> Session.Handler

  datatype Action =
    | ByPool(p: P.Action)                             // any step of the pool but a connection's
    | ByClient(n: nat, c: C.Action, cut: nat)
    | ByServer(n: nat, s: S.Action, cut: nat)

  function Initial(maxWaitCall: nat): State { State(P.Initial(maxWaitCall), []) }

  predicate Wired(x: State) { |x.links| == |x.pool.conns| }

  /** A connection of the pool and its link as a session. */
  function SessionOf(x: State, n: nat): Session.State
    requires Wired(x) && n < |x.links|
  {
    var l := x.links[n];
    Session.State(x.pool.conns[n].client, l.server, l.reqLog, l.reqPos, l.respLog, l.respPos, l.broken)
  }

  function LinkOf(y: Session.State): Link {
    Link(y.server, y.reqLog, y.reqPos, y.respLog, y.respPos, y.broken)
  }

  function HandlerOf(hs: Handlers, x: State, n: nat): Session.Handler
    requires n < |x.pool.conns|
  {
    hs(x.pool.conns[n].addr)
  }

  ghost predicate Enabled(hs: Handlers, x: State, a: Action)
    requires Wired(x)
  {
    match a
    case ByPool(p) => !p.ByConn? && P.Enabled(x.pool, p)
    case ByClient(n, c, cut) =>
      && n < |x.links| && P.Enabled(x.pool, P.ByConn(n, c))
      && Session.Enabled(HandlerOf(hs, x, n), SessionOf(x, n), Session.ByClient(c, cut))
    case ByServer(n, s, cut) =>
      && n < |x.links| && x.pool.conns[n].started
      && Session.Enabled(HandlerOf(hs, x, n), SessionOf(x, n), Session.ByServer(s, cut))
  }

  ghost function Apply(hs: Handlers, x: State, a: Action): State
    requires Wired(x) && Enabled(hs, x, a)
  {
    match a
    case ByPool(p) =>
      var pool := P.Apply(x.pool, p);
      State(pool, if |pool.conns| > |x.links| then x.links + [NEW_LINK] else x.links)
    case ByClient(n, c, cut) =>
      State(P.Apply(x.pool, P.ByConn(n, c)), x.links[n := LinkOf(Session.ClientDoes(SessionOf(x, n), c, cut))])
    case ByServer(n, s, cut) =>
      x.(links := x.links[n := LinkOf(Session.ServerDoes(SessionOf(x, n), s, cut))])
  }

  // ----- every connection is a session -----

  /** The pool is a pool, and each connection with its link a session. */
  ghost predicate Inv(hs: Handlers, x: State) {
    && Wired(x) && P.Reached(x.pool)
    && forall n :: 0 <= n < |x.links| ==> SessionReached(hs, x, n)
  }

  ghost predicate SessionReached(hs: Handlers, x: State, n: nat)
    requires Wired(x) && n < |x.links|
  {
    Session.Reached(HandlerOf(hs, x, n), SessionOf(x, n), false) && |x.pool.conns[n].client.sent| <= TWO_TO_THE_64
  }

  /** A step of the pool itself leaves the connections alone, except that it may add one. */
  lemma PoolStepsAside(s: P.State, p: P.Action)
    requires P.Enabled(s, p) && !p.ByConn?
    ensures var t := P.Apply(s, p);
            && |s.conns| <= |t.conns| <= |s.conns| + 1
            && (forall n :: 0 <= n < |s.conns| ==>
                  t.conns[n].client == s.conns[n].client && t.conns[n].addr == s.conns[n].addr)
            && (|t.conns| > |s.conns| ==> t.conns[|s.conns|].client == C.Initial(false))
  {
  }

  lemma InitialSession(h: Session.Handler)
    ensures Session.Reached(h, Session.Initial(false), false)
  {
    var x0 := Session.Initial(false);
    assert Session.CanRun(h, x0, []) && Session.FewCalls(h, x0, []) && Session.After(h, x0, []) == x0;
  }

  lemma ByPoolKeeps(hs: Handlers, x: State, p: P.Action)
    requires Inv(hs, x) && Enabled(hs, x, ByPool(p))
    ensures Wired(Apply(hs, x, ByPool(p))) && Inv(hs, Apply(hs, x, ByPool(p)))
  {
    var y := Apply(hs, x, ByPool(p));
    PStatus.ReachedNext(x.pool, p);
    PoolStepsAside(x.pool, p);
    forall n | 0 <= n < |y.links|
      ensures SessionReached(hs, y, n)
    {
      if n < |x.links| {
        assert SessionReached(hs, x, n);
        assert SessionOf(y, n) == SessionOf(x, n);
      } else {
        InitialSession(HandlerOf(hs, y, n));
        assert SessionOf(y, n) == Session.Initial(false);
      }
    }
  }

  /** A connection's step of the pool changes that connection's client, and nobody else's. */
  lemma ConnStepsAlone(s: P.State, n: nat, c: C.Action)
    requires P.Enabled(s, P.ByConn(n, c))
    ensures var t := P.Apply(s, P.ByConn(n, c));
            && n < |s.conns| == |t.conns| && C.Enabled(s.conns[n].client, c)
            && t.conns == s.conns[n := s.conns[n].(client := C.Apply(s.conns[n].client, c))]
            && |C.Apply(s.conns[n].client, c).sent| <= TWO_TO_THE_64
  {
  }

  lemma OthersStay(hs: Handlers, x: State, y: State, n: nat)
    requires Inv(hs, x) && Wired(y) && |y.links| == |x.links| && n < |x.links|
    requires P.Reached(y.pool) && SessionReached(hs, y, n)
    requires forall m :: 0 <= m < |x.links| && m != n ==>
               && y.links[m] == x.links[m] && y.pool.conns[m].client == x.pool.conns[m].client
               && y.pool.conns[m].addr == x.pool.conns[m].addr
    ensures Inv(hs, y)
  {
    forall m | 0 <= m < |y.links|
      ensures SessionReached(hs, y, m)
    {
      if m != n {
        assert SessionReached(hs, x, m);
        assert SessionOf(y, m) == SessionOf(x, m);
      }
    }
  }

  lemma ByClientKeeps(hs: Handlers, x: State, n: nat, c: C.Action, cut: nat)
    requires Inv(hs, x) && Enabled(hs, x, ByClient(n, c, cut))
    ensures Wired(Apply(hs, x, ByClient(n, c, cut))) && Inv(hs, Apply(hs, x, ByClient(n, c, cut)))
  {
    var y := Apply(hs, x, ByClient(n, c, cut));
    PStatus.ReachedNext(x.pool, P.ByConn(n, c));
    ConnStepsAlone(x.pool, n, c);
    assert SessionReached(hs, x, n);
    var z := Session.ClientDoes(SessionOf(x, n), c, cut);
    SW.ClientNext(HandlerOf(hs, x, n), SessionOf(x, n), c, cut, z, false);
    assert SessionOf(y, n) == z;
    OthersStay(hs, x, y, n);
  }

  lemma ByServerKeeps(hs: Handlers, x: State, n: nat, s: S.Action, cut: nat)
    requires Inv(hs, x) && Enabled(hs, x, ByServer(n, s, cut))
    ensures Wired(Apply(hs, x, ByServer(n, s, cut))) && Inv(hs, Apply(hs, x, ByServer(n, s, cut)))
  {
    var y := Apply(hs, x, ByServer(n, s, cut));
    assert SessionReached(hs, x, n);
    var z := Session.ServerDoes(SessionOf(x, n), s, cut);
    SW.ServerNext(HandlerOf(hs, x, n), SessionOf(x, n), s, cut, z, false);
    assert SessionOf(y, n) == z;
    OthersStay(hs, x, y, n);
  }

  lemma StepKeepsInv(hs: Handlers, x: State, a: Action)
    requires Inv(hs, x) && Enabled(hs, x, a)
    ensures Wired(Apply(hs, x, a)) && Inv(hs, Apply(hs, x, a))
  {
    match a
    case ByPool(p) => ByPoolKeeps(hs, x, p);
    case ByClient(n, c, cut) => ByClientKeeps(hs, x, n, c, cut);
    case ByServer(n, s, cut) => ByServerKeeps(hs, x, n, s, cut);
  }

  // ----- runs -----

  ghost predicate CanRun(hs: Handlers, x: State, acts: seq<Action>)
    decreases |acts|
  {
    Wired(x) && (acts == [] || (Enabled(hs, x, acts[0]) && CanRun(hs, Apply(hs, x, acts[0]), acts[1..])))
  }

  ghost function After(hs: Handlers, x: State, acts: seq<Action>): State
    requires CanRun(hs, x, acts)
    decreases |acts|
  {
    if acts == [] then x else After(hs, Apply(hs, x, acts[0]), acts[1..])
  }

  ghost predicate Reached(hs: Handlers, x: State) {
    exists acts :: CanRun(hs, Initial(x.pool.maxWaitCall), acts)
                   && After(hs, Initial(x.pool.maxWaitCall), acts) == x
  }

  lemma {:induction false} RunKeepsInv(hs: Handlers, x: State, acts: seq<Action>)
    requires Inv(hs, x) && CanRun(hs, x, acts)
    ensures Inv(hs, After(hs, x, acts))
    decreases |acts|
  {
    if acts != [] {
      StepKeepsInv(hs, x, acts[0]);
      RunKeepsInv(hs, Apply(hs, x, acts[0]), acts[1..]);
    }
  }

  lemma InitialInv(hs: Handlers, maxWaitCall: nat)
    ensures Inv(hs, Initial(maxWaitCall))
  {
    var s := P.Initial(maxWaitCall);
    assert P.CanRun(s, []) && P.After(s, []) == s;
  }

  lemma ReachedInv(hs: Handlers, x: State)
    requires Reached(hs, x)
    ensures Inv(hs, x)
  {
    var acts :| CanRun(hs, Initial(x.pool.maxWaitCall), acts)
                && After(hs, Initial(x.pool.maxWaitCall), acts) == x;
    InitialInv(hs, x.pool.maxWaitCall);
    RunKeepsInv(hs, Initial(x.pool.maxWaitCall), acts);
  }

  // ----- one call -----

  lemma {:induction false} CountAt(q: seq<Call>, k: nat, c: Call)
    requires k < |q| && q[k] == c
    ensures Count(q, c) >= 1
  {
    if k > 0 {
      CountAt(q[1..], k - 1, c);
    }
  }

  lemma {:induction false} CountAtBoth(q: seq<Call>, i: nat, k: nat, c: Call)
    requires i < k < |q| && q[i] == c && q[k] == c
    ensures Count(q, c) >= 2
  {
    if i == 0 {
      CountAt(q[1..], k - 1, c);
    } else {
      CountAtBoth(q[1..], i - 1, k - 1, c);
    }
  }

  lemma {:induction false} RegisteredAt(conns: seq<P.Conn>, n: nat, c: Call)
    requires n < |conns|
    ensures PT.Registered(conns, c) >= Count(conns[n].client.sent, c)
  {
    if n > 0 {
      RegisteredAt(conns[1..], n - 1, c);
    }
  }

  lemma {:induction false} RegisteredAtBoth(conns: seq<P.Conn>, m: nat, n: nat, c: Call)
    requires m < n < |conns|
    ensures PT.Registered(conns, c) >= Count(conns[m].client.sent, c) + Count(conns[n].client.sent, c)
  {
    if m == 0 {
      RegisteredAt(conns[1..], n - 1, c);
    } else {
      RegisteredAtBoth(conns[1..], m - 1, n - 1, c);
    }
  }

  predicate At(x: State, n: nat, k: nat, c: Call) {
    n < |x.pool.conns| && k < |x.pool.conns[n].client.sent| && x.pool.conns[n].client.sent[k] == c
  }

  /** A call submitted once is registered at most once, over all connections; and if it is, the client has not
      completed it itself and it waits in no queue. */
  lemma RegisteredInOnePlace(hs: Handlers, x: State, c: Call, n: nat, k: nat, m: nat, i: nat)
    requires Reached(hs, x) && PS.Submitted(x.pool.senders, c) == 1
    requires At(x, n, k, c) && At(x, m, i, c)
    ensures m == n && i == k
    ensures Count(x.pool.refused, c) == 0 && PT.TurnedAway(x.pool.conns, c) == 0
    ensures forall a :: a in x.pool.addrs ==> a in x.pool.servers
    ensures PS.Queued(x.pool.addrs, x.pool.servers, c) == 0
  {
    ReachedInv(hs, x);
    PT.CallPartition(x.pool, c);
    CountAt(x.pool.conns[n].client.sent, k, c);
    CountAt(x.pool.conns[m].client.sent, i, c);
    RegisteredAt(x.pool.conns, n, c);
    if m < n {
      RegisteredAtBoth(x.pool.conns, m, n, c);
    } else if n < m {
      RegisteredAtBoth(x.pool.conns, n, m, c);
    } else if i < k {
      CountAtBoth(x.pool.conns[n].client.sent, i, k, c);
    } else if k < i {
      CountAtBoth(x.pool.conns[n].client.sent, k, i, c);
    }
  }

  /** End to end over many servers and connections: a call submitted once by SendCall that wants its reply and
      completes without error was registered on one connection only, and it holds what the handler of its
      own method on that connection's server returned, without error, for its own arguments, if and only
      if neither of the two empty error texts occurred there. */
  lemma EndToEnd(hs: Handlers, x: State, c: Call, n: nat, k: nat, j: nat)
    requires Reached(hs, x) && PS.Submitted(x.pool.senders, c) == 1 && c.wantsReply && At(x, n, k, c)
    requires k < |x.pool.conns[n].client.outcomes| && j < |x.pool.conns[n].client.outcomes[k]|
    requires x.pool.conns[n].client.outcomes[k][j].Succeeded?
    ensures Wired(x) && x.pool.conns[n].addr in x.pool.servers
    ensures forall m, i :: At(x, m, i, c) ==> m == n && i == k
    ensures Count(x.pool.refused, c) == 0
    ensures var y := SessionOf(x, n);
            var reply := x.pool.conns[n].client.outcomes[k][j].reply;
            && (reply.None? <==> ST.RefusedWithoutText(y, k))
            && (ST.Delivered(HandlerOf(hs, x, n), y, k, reply) <==>
                  !ST.RefusedWithoutText(y, k) && !ST.ErredWithoutText(y, k))
  {
    ReachedInv(hs, x);
    PT.ReachedInv(x.pool);
    assert PS.ConnOk(x.pool, n);
    forall m, i | At(x, m, i, c)
      ensures m == n && i == k
    {
      RegisteredInOnePlace(hs, x, c, n, k, m, i);
    }
    RegisteredInOnePlace(hs, x, c, n, k, n, k);
    assert SessionReached(hs, x, n);
    ST.EndToEnd(HandlerOf(hs, x, n), SessionOf(x, n), false, k, j);
  }
}
