// What every run of a client with many servers and connections keeps.
module PoolSafety {
  import opened RpcTypes
  import opened Counting
  import opened Selection
  import opened PoolMachine
  import C = ClientMachine
  import CS = ClientSafety

  // ----- where the copies of one call are -----

  /** Submissions of `c`. */
  function Submitted(senders: seq<Sender>, c: Call): nat {
    if senders == [] then 0 else B(senders[0].call == c) + Submitted(senders[1..], c)
  }

  /** Copies still in a SendCall's hand. */
  function InHand(senders: seq<Sender>, c: Call): nat {
    if senders == [] then 0
    else B(senders[0].call == c && !senders[0].pc.Finished?) + InHand(senders[1..], c)
  }

  /** Copies in the queues of the given servers. */
  function Queued(addrs: seq<string>, servers: Servers, c: Call): nat
    requires forall a :: a in addrs ==> a in servers
  {
    if addrs == [] then 0 else Count(servers[addrs[0]].callChan, c) + Queued(addrs[1..], servers, c)
  }

  /** Copies the connections have received. */
  function Taken(conns: seq<Conn>, c: Call): nat {
    if conns == [] then 0 else Count(conns[0].client.taken, c) + Taken(conns[1..], c)
  }

  lemma {:induction false} NewSender(senders: seq<Sender>, x: Sender, c: Call)
    ensures Submitted(senders + [x], c) == Submitted(senders, c) + B(x.call == c)
    ensures InHand(senders + [x], c) == InHand(senders, c) + B(x.call == c && !x.pc.Finished?)
  {
    if senders == [] {
      assert (senders + [x])[1..] == [];
    } else {
      assert (senders + [x])[1..] == senders[1..] + [x];
      NewSender(senders[1..], x, c);
    }
  }

  lemma {:induction false} SenderMoves(senders: seq<Sender>, k: nat, pc: SenderPc, c: Call)
    requires k < |senders| && !senders[k].pc.Finished?
    ensures var moved := senders[k := senders[k].(pc := pc)];
            && Submitted(moved, c) == Submitted(senders, c)
            && InHand(moved, c) + B(pc.Finished? && senders[k].call == c) == InHand(senders, c)
  {
    var moved := senders[k := senders[k].(pc := pc)];
    if k > 0 {
      assert moved[1..] == senders[1..][k - 1 := senders[k].(pc := pc)];
      SenderMoves(senders[1..], k - 1, pc, c);
    } else {
      assert moved[1..] == senders[1..];
    }
  }

  lemma {:induction false} QueueChanges(addrs: seq<string>, servers: Servers, a: string, info: ServerInfo, c: Call)
    requires forall b :: b in addrs ==> b in servers
    requires forall i, j :: 0 <= i < j < |addrs| ==> addrs[i] != addrs[j]
    requires a in servers
    ensures Queued(addrs, servers[a := info], c) + B(a in addrs) * Count(servers[a].callChan, c) ==
            Queued(addrs, servers, c) + B(a in addrs) * Count(info.callChan, c)
  {
    if addrs != [] {
      QueueChanges(addrs[1..], servers, a, info, c);
      assert a in addrs <==> a == addrs[0] || a in addrs[1..];
    }
  }

  lemma {:induction false} NewQueue(addrs: seq<string>, servers: Servers, a: string, info: ServerInfo, c: Call)
    requires forall b :: b in addrs ==> b in servers
    requires a !in servers && info.callChan == []
    ensures Queued(addrs + [a], servers[a := info], c) == Queued(addrs, servers, c)
  {
    if addrs == [] {
      assert (addrs + [a])[1..] == [];
    } else {
      assert (addrs + [a])[1..] == addrs[1..] + [a];
      NewQueue(addrs[1..], servers, a, info, c);
    }
  }

  lemma {:induction false} NewConn(conns: seq<Conn>, x: Conn, c: Call)
    requires x.client.taken == []
    ensures Taken(conns + [x], c) == Taken(conns, c)
  {
    if conns == [] {
      assert (conns + [x])[1..] == [];
    } else {
      assert (conns + [x])[1..] == conns[1..] + [x];
      NewConn(conns[1..], x, c);
    }
  }

  lemma {:induction false} ConnMoves(conns: seq<Conn>, n: nat, x: Conn, c: Call)
    requires n < |conns|
    ensures Taken(conns[n := x], c) + Count(conns[n].client.taken, c) ==
            Taken(conns, c) + Count(x.client.taken, c)
  {
    if n > 0 {
      assert conns[n := x][1..] == conns[1..][n - 1 := x];
      ConnMoves(conns[1..], n - 1, x, c);
    } else {
      assert conns[n := x][1..] == conns[1..];
    }
  }

  // ----- invariants -----

  predicate Distinct(list: seq<nat>) { forall i, j :: 0 <= i < j < |list| ==> list[i] != list[j] }

  ghost predicate AddrsInv(s: State) {
    && (forall i, j :: 0 <= i < j < |s.addrs| ==> s.addrs[i] != s.addrs[j])
    && (forall a :: a in s.addrs <==> a in s.servers)
  }

  /** Conservation of one call: every submission of it is in a SendCall's hand, in a queue, with a
      connection, or was refused. */
  ghost predicate Balance(s: State, c: Call)
    requires AddrsInv(s)
  {
    Submitted(s.senders, c) ==
    InHand(s.senders, c) + Queued(s.addrs, s.servers, c) + Taken(s.conns, c) + Count(s.refused, c)
  }

  ghost predicate BalanceInv(s: State) {
    AddrsInv(s) && forall c :: Balance(s, c)
  }

  /** A list of distinct connections of server `a`. */
  ghost predicate ListOk(list: seq<nat>, a: string, conns: seq<Conn>) {
    && Distinct(list)
    && (forall n :: n in list ==> n < |conns| && conns[n].addr == a)
  }

  ghost predicate CapOk(info: ServerInfo, a: string, topMax: map<string, int>, cap: nat) {
    && a in topMax && info.maxConnNum <= topMax[a] && |info.connList| <= Max(1, topMax[a])
    && |info.callChan| <= cap
  }

  ghost predicate ListsInv(s: State) {
    forall a :: a in s.servers ==>
      ListOk(s.servers[a].connList, a, s.conns) && CapOk(s.servers[a], a, s.topMax, s.maxWaitCall)
  }

  predicate Dialling(s: State, n: nat)
    requires n < |s.conns|
  {
    s.conns[n].owner < |s.senders| && s.senders[s.conns[n].owner].pc == Starting(s.conns[n].addr, n)
  }

  /** A connection is listed until its dial fails or it tells its parent that it is gone. */
  predicate Live(s: State, n: nat)
    requires n < |s.conns|
  {
    if s.conns[n].started then !s.conns[n].client.reader.ReaderExited? else Dialling(s, n)
  }

  ghost predicate ConnOk(s: State, n: nat)
    requires n < |s.conns|
  {
    && s.conns[n].addr in s.servers
    && CS.Inv(s.conns[n].client) && !s.conns[n].client.repaired
    && (n in s.servers[s.conns[n].addr].connList <==> Live(s, n))
    && (n in s.removed <==> !Live(s, n))
    && (!s.conns[n].started ==> s.conns[n].client == C.Initial(false))
  }

  ghost predicate SenderOk(s: State, k: nat)
    requires k < |s.senders|
  {
    match s.senders[k].pc
    case NeedConn(a) => a in s.servers
    case Starting(a, n) =>
      a in s.servers && n < |s.conns| && s.conns[n].addr == a && s.conns[n].owner == k && !s.conns[n].started
    case Enqueueing(a) => a in s.servers
    case Draining(a) => a in s.servers
    case Finished => true
  }

  ghost predicate ConnsInv(s: State) {
    && (forall n :: 0 <= n < |s.conns| ==> ConnOk(s, n))
    && (forall k :: 0 <= k < |s.senders| ==> SenderOk(s, k))
    && Distinct(s.removed)
    && (forall n :: n in s.removed ==> n < |s.conns|)
  }

  ghost predicate WeightInv(s: State) {
    NonNegative(s.servers) ==> s.totalWeight <= Total(s.servers, NotPaused)
  }

  ghost predicate Inv(s: State) { BalanceInv(s) && ListsInv(s) && ConnsInv(s) && WeightInv(s) }

  // ----- totals -----

  lemma TotalAfterRefresh(m: Servers)
    requires NonNegative(m)
    ensures Total(m, OnlyNormal) <= Total(m, NotPaused)
  {
    SumsOrdered(m, m.Keys);
  }

  /** Changing one server without making it worth less to those that are not paused. */
  lemma TotalKeeps(m: Servers, a: string, info: ServerInfo)
    requires a in m && Share(info, NotPaused) >= Share(m[a], NotPaused)
    ensures Total(m[a := info], NotPaused) >= Total(m, NotPaused)
  {
    var n := m[a := info];
    assert n.Keys == m.Keys;
    SumWithout(m, m.Keys, NotPaused, a);
    SumWithout(n, m.Keys, NotPaused, a);
    SumOfOthers(m, n, m.Keys - {a}, NotPaused);
  }

  lemma {:induction false} WithoutRemoves(list: seq<nat>, n: nat)
    requires Distinct(list)
    ensures forall k :: k in Without(list, n) <==> k in list && k != n
    ensures |Without(list, n)| <= |list|
  {
    if list != [] {
      assert list == [list[0]] + list[1..];
      if list[0] != n {
        WithoutRemoves(list[1..], n);
      }
    }
  }

  lemma {:induction false} WithoutIsDistinct(list: seq<nat>, n: nat)
    requires Distinct(list)
    ensures Distinct(Without(list, n))
  {
    if list != [] && list[0] != n {
      var rest := Without(list[1..], n);
      WithoutIsDistinct(list[1..], n);
      WithoutRemoves(list[1..], n);
      assert list[0] !in list[1..];
      assert forall i :: 0 <= i < |rest| ==> rest[i] in rest;
    }
  }
}
