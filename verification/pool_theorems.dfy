// The promises of a client with many servers over whole runs.
module PoolTheorems {
  import opened RpcTypes
  import opened Counting
  import opened Selection
  import opened PoolMachine
  import opened PoolSafety
  import opened PoolBalance
  import opened PoolLists
  import CS = ClientSafety

  lemma InitialInv(maxWaitCall: nat)
    ensures Inv(Initial(maxWaitCall))
  {
  }

  lemma StepKeepsInv(s: State, a: Action)
    requires Inv(s) && Enabled(s, a)
    ensures Inv(Apply(s, a)) && Apply(s, a).maxWaitCall == s.maxWaitCall
  {
    StepKeepsLists(s, a);
    StepKeepsConns(s, a);
    StepKeepsWeight(s, a);
    StepKeepsEveryBalance(s, a);
    StepKeepsBound(s, a);
  }

  lemma StepKeepsBound(s: State, a: Action)
    requires Enabled(s, a)
    ensures Apply(s, a).maxWaitCall == s.maxWaitCall
  {
  }

  lemma StepKeepsEveryBalance(s: State, a: Action)
    requires BalanceInv(s) && ConnsInv(s) && Enabled(s, a)
    ensures BalanceInv(Apply(s, a))
  {
    var t := Apply(s, a);
    StepKeepsBalance(s, a, Call(0, "", None, false));
    forall c
      ensures Balance(t, c)
    {
      StepKeepsBalance(s, a, c);
    }
  }

  lemma {:induction false} RunKeepsInv(s: State, acts: seq<Action>)
    requires Inv(s) && CanRun(s, acts)
    ensures Inv(After(s, acts))
    decreases |acts|
  {
    if acts != [] {
      StepKeepsInv(s, acts[0]);
      RunKeepsInv(Apply(s, acts[0]), acts[1..]);
    }
  }

  lemma ReachedInv(s: State)
    requires Reached(s)
    ensures Inv(s)
  {
    var acts :| CanRun(Initial(s.maxWaitCall), acts) && After(Initial(s.maxWaitCall), acts) == s;
    InitialInv(s.maxWaitCall);
    RunKeepsInv(Initial(s.maxWaitCall), acts);
  }

  // ----- theorems -----

  /** Copies of `c` a connection's writer received and has not registered yet. */
  function HeldByWriters(conns: seq<Conn>, c: Call): nat {
    if conns == [] then 0
    else Count(CS.Held(conns[0].client.writer), c) + HeldByWriters(conns[1..], c)
  }

  function Registered(conns: seq<Conn>, c: Call): nat {
    if conns == [] then 0 else Count(conns[0].client.sent, c) + Registered(conns[1..], c)
  }

  function TurnedAway(conns: seq<Conn>, c: Call): nat {
    if conns == [] then 0 else Count(conns[0].client.rejected, c) + TurnedAway(conns[1..], c)
  }

  lemma {:induction false} TakenIsAccounted(conns: seq<Conn>, c: Call)
    requires forall n :: 0 <= n < |conns| ==> CS.TakenInv(conns[n].client)
    ensures Taken(conns, c) == HeldByWriters(conns, c) + Registered(conns, c) + TurnedAway(conns, c)
  {
    if conns != [] {
      var x := conns[0].client;
      CountAppend(x.sent + x.rejected, CS.Held(x.writer), c);
      CountAppend(x.sent, x.rejected, c);
      TakenIsAccounted(conns[1..], c);
    }
  }

  /** Call partition: at every moment of every run, over all servers, queues and connections, each
      submission is in exactly one place: a SendCall's hand, one server's queue, one writer's hand,
      one connection's registrations, or completed with an error by the client or by a connection that
      found itself closed. */
  lemma CallPartition(s: State, c: Call)
    requires Reached(s)
    ensures forall a :: a in s.addrs ==> a in s.servers
    ensures Submitted(s.senders, c) ==
            InHand(s.senders, c) + Queued(s.addrs, s.servers, c) + Count(s.refused, c) +
            HeldByWriters(s.conns, c) + Registered(s.conns, c) + TurnedAway(s.conns, c)
  {
    ReachedInv(s);
    assert Balance(s, c);
    forall n | 0 <= n < |s.conns|
      ensures CS.TakenInv(s.conns[n].client)
    {
      assert ConnOk(s, n);
    }
    TakenIsAccounted(s.conns, c);
  }

  /** ... and within a connection that is not shut down, each registration is in exactly one place:
      `pending`, the reader's hand, the writer's hand, or completed, once. After shutdown it has
      completed at most twice. */
  lemma RegisteredOnce(s: State, n: nat, i: nat)
    requires Reached(s) && n < |s.conns| && i < |s.conns[n].client.sent|
    ensures var x := s.conns[n].client;
            && |x.outcomes| == |x.sent| && |x.outcomes[i]| <= 2
            && (!x.shutdown ==>
                  B(i in x.pending) + B(CS.ReaderHand(x.reader) == Some(i)) +
                  B(CS.WriterHand(x.writer) == Some(i)) + |x.outcomes[i]| == 1)
  {
    ReachedInv(s);
    assert ConnOk(s, n);
    var x := s.conns[n].client;
    assert CS.Balanced(x.outcomes, x.pending, CS.HandsOf(x), CS.SnapshotOf(x));
  }

  /** No queue exceeds MaxWaitCall. */
  lemma QueueBound(s: State, addr: string)
    requires Reached(s) && addr in s.servers
    ensures |s.servers[addr].callChan| <= s.maxWaitCall
  {
    ReachedInv(s);
  }

  /** The highest cap that the AddServer calls of a run give a server, if there are any. */
  function HighestCap(acts: seq<Action>, addr: string): (r: Option<int>)
    ensures forall i :: 0 <= i < |acts| && acts[i].AddServer? && acts[i].addr == addr ==>
              r.Some? && acts[i].maxConnNum <= r.value
    ensures r.Some? ==> exists i :: 0 <= i < |acts| && acts[i].AddServer? && acts[i].addr == addr
                                    && acts[i].maxConnNum == r.value
  {
    if acts == [] then None
    else
      var n := |acts| - 1;
      var before := HighestCap(acts[..n], addr);
      match acts[n]
      case AddServer(a, _, cap) =>
        if a != addr then before
        else if before.Some? && before.value >= cap then before
        else Some(cap)
      case _ => before
  }

  predicate SameCap(topMax: map<string, int>, addr: string, cap: Option<int>) {
    if addr in topMax then cap == Some(topMax[addr]) else cap == None
  }

  lemma StepMovesTop(s: State, a: Action, addr: string)
    requires Enabled(s, a)
    ensures var t := Apply(s, a);
            match a
            case AddServer(b, _, cap) =>
              && b in t.topMax && t.topMax[b] == (if b in s.topMax then Max(s.topMax[b], cap) else cap)
              && (addr != b ==> (addr in t.topMax <==> addr in s.topMax))
              && (addr != b && addr in s.topMax ==> t.topMax[addr] == s.topMax[addr])
            case _ => t.topMax == s.topMax
  {
  }

  lemma {:induction false} TopIsHighest(s: State, done: seq<Action>, acts: seq<Action>, addr: string)
    requires CanRun(s, acts) && SameCap(s.topMax, addr, HighestCap(done, addr))
    ensures SameCap(After(s, acts).topMax, addr, HighestCap(done + acts, addr))
    decreases |acts|
  {
    if acts == [] {
      assert done + acts == done;
    } else {
      var more := done + [acts[0]];
      StepMovesTop(s, acts[0], addr);
      assert more[..|done|] == done;
      TopIsHighest(Apply(s, acts[0]), more, acts[1..], addr);
      assert done + acts == more + acts[1..];
    }
  }

  /** Connection cap: whatever interleaves between the two locks, a server never has more connections
      than the larger of 1 and the highest cap that AddServer ever gave it; the list has no duplicates
      and names connections to that server only. */
  lemma ConnectionCap(maxWaitCall: nat, acts: seq<Action>, addr: string)
    requires CanRun(Initial(maxWaitCall), acts) && addr in After(Initial(maxWaitCall), acts).servers
    ensures HighestCap(acts, addr).Some?
    ensures var s := After(Initial(maxWaitCall), acts);
            && (|s.servers[addr].connList| <= 1 || |s.servers[addr].connList| <= HighestCap(acts, addr).value)
            && Distinct(s.servers[addr].connList)
            && forall n :: n in s.servers[addr].connList ==> n < |s.conns| && s.conns[n].addr == addr
  {
    var s := After(Initial(maxWaitCall), acts);
    InitialInv(maxWaitCall);
    RunKeepsInv(Initial(maxWaitCall), acts);
    TopIsHighest(Initial(maxWaitCall), [], acts, addr);
    assert [] + acts == acts;
    assert ListOk(s.servers[addr].connList, addr, s.conns);
  }

  /** Each connection is removed at most once, is removed exactly when it stops being dialled or
      running, and is listed exactly until then. */
  lemma RemovedOnce(s: State, n: nat)
    requires Reached(s) && n < |s.conns|
    ensures Distinct(s.removed) && s.conns[n].addr in s.servers
    ensures n in s.removed <==> n !in s.servers[s.conns[n].addr].connList
    ensures s.conns[n].started ==> (n in s.removed <==> s.conns[n].client.reader.ReaderExited?)
  {
    ReachedInv(s);
    assert ConnOk(s, n);
  }

  /** Selection is total and correct in every reachable state whose weights are not negative, although
      a server that becomes ConnectFailed keeps its weight in the total. */
  lemma SelectionWorks(s: State, order: seq<string>, draw: int)
    requires Reached(s) && IsWalk(order, s.servers) && LegalDraw(draw, s.totalWeight)
    requires NonNegative(s.servers)
    ensures var c := Select(order, s.servers, draw);
            && (c.Chosen? <==> exists k :: k in s.servers && !s.servers[k].status.Paused?)
            && (c.Chosen? ==> c.addr in s.servers && !s.servers[c.addr].status.Paused?)
            && (!c.Chosen? ==> c == if s.servers == map[] then NoServer else ServerPause)
  {
    ReachedInv(s);
    SelectionIsTotal(order, s.servers, s.totalWeight, draw);
  }

  /** How far a failed dial puts the total further out of step: when the last dial to a normal server
      fails, by its weight, and otherwise not at all. */
  lemma FailedServerStaysInTotal(s: State, k: nat)
    requires Enabled(s, StartFails(k))
    ensures var addr := s.senders[k].pc.addr;
            var t := Apply(s, StartFails(k));
            var failed := Without(s.servers[addr].connList, s.senders[k].pc.conn) == [];
            t.totalWeight - Total(t.servers, OnlyNormal) ==
              s.totalWeight - Total(s.servers, OnlyNormal)
                + if failed then Share(s.servers[addr], OnlyNormal) else 0
  {
    var addr := s.senders[k].pc.addr;
    var t := Apply(s, StartFails(k));
    assert t.servers.Keys == s.servers.Keys;
    SumWithout(s.servers, s.servers.Keys, OnlyNormal, addr);
    SumWithout(t.servers, s.servers.Keys, OnlyNormal, addr);
    SumOfOthers(s.servers, t.servers, s.servers.Keys - {addr}, OnlyNormal);
  }

  // ----- submission -----

  lemma {:induction false} NobodyInHand(senders: seq<Sender>, c: Call)
    requires forall k :: 0 <= k < |senders| && senders[k].call == c ==> senders[k].pc.Finished?
    ensures InHand(senders, c) == 0
  {
    if senders != [] {
      assert senders[0].call == c ==> senders[0].pc.Finished?;
      forall k | 0 <= k < |senders[1..]| && senders[1..][k].call == c
        ensures senders[1..][k].pc.Finished?
      {
        assert senders[k + 1] == senders[1..][k];
      }
      NobodyInHand(senders[1..], c);
    }
  }

  /** Submit accounting: once every SendCall for it has returned, a call submitted once was either
      completed once with an error by the client, or is in one queue, or reached one connection. */
  lemma SubmittedOnceEndsOnce(s: State, c: Call)
    requires Reached(s) && Submitted(s.senders, c) == 1
    requires forall k :: 0 <= k < |s.senders| && s.senders[k].call == c ==> s.senders[k].pc.Finished?
    ensures forall a :: a in s.addrs ==> a in s.servers
    ensures Count(s.refused, c) + Queued(s.addrs, s.servers, c) + Taken(s.conns, c) == 1
  {
    ReachedInv(s);
    assert Balance(s, c);
    NobodyInHand(s.senders, c);
  }
}
