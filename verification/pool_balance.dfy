// No step of the pool loses or duplicates a call, and every one keeps the selection total.
module PoolBalance {
  import opened RpcTypes
  import opened Counting
  import opened Selection
  import opened PoolMachine
  import opened PoolSafety
  import C = ClientMachine
  import CS = ClientSafety

  // ----- where one call is -----

  ghost predicate Before(s: State, a: Action, c: Call) {
    AddrsInv(s) && Balance(s, c) && Enabled(s, a)
  }

  ghost predicate Afterwards(t: State, c: Call) { AddrsInv(t) && Balance(t, c) }

  /** A server's entry is replaced by one with the same queue. */
  lemma SameQueue(addrs: seq<string>, servers: Servers, a: string, info: ServerInfo, c: Call)
    requires forall b :: b in addrs ==> b in servers
    requires forall i, j :: 0 <= i < j < |addrs| ==> addrs[i] != addrs[j]
    requires a in servers && info.callChan == servers[a].callChan
    ensures Queued(addrs, servers[a := info], c) == Queued(addrs, servers, c)
  {
    QueueChanges(addrs, servers, a, info, c);
  }

  lemma QueueLosesHead(addrs: seq<string>, servers: Servers, a: string, info: ServerInfo, c: Call)
    requires forall b :: b in addrs <==> b in servers
    requires forall i, j :: 0 <= i < j < |addrs| ==> addrs[i] != addrs[j]
    requires a in servers && servers[a].callChan != [] && info.callChan == servers[a].callChan[1..]
    ensures Queued(addrs, servers[a := info], c) + B(servers[a].callChan[0] == c) == Queued(addrs, servers, c)
  {
    QueueChanges(addrs, servers, a, info, c);
  }

  lemma AddServerBalance(s: State, addr: string, weight: int, cap: int, c: Call)
    requires Before(s, AddServer(addr, weight, cap), c)
    ensures Afterwards(Apply(s, AddServer(addr, weight, cap)), c)
  {
    var t := Apply(s, AddServer(addr, weight, cap));
    if addr in s.servers {
      SameQueue(s.addrs, s.servers, addr, s.servers[addr].(weight := weight, maxConnNum := cap), c);
    } else {
      NewQueue(s.addrs, s.servers, addr, ServerInfo(weight, cap, Normal, [], []), c);
      assert forall i :: 0 <= i < |s.addrs| ==> s.addrs[i] in s.addrs;
    }
  }

  lemma ChangeServerStatusBalance(s: State, addr: string, status: Status, c: Call)
    requires Before(s, ChangeServerStatus(addr, status), c)
    ensures Afterwards(Apply(s, ChangeServerStatus(addr, status)), c)
  {
    if addr in s.servers {
      SameQueue(s.addrs, s.servers, addr, s.servers[addr].(status := status), c);
    }
  }

  lemma ChosenBalance(s: State, call: Call, x: Sender, c: Call)
    requires AddrsInv(s) && Balance(s, c) && x.call == call && !x.pc.Finished?
    ensures Afterwards(s.(senders := s.senders + [x]), c)
  {
    NewSender(s.senders, x, c);
  }

  lemma NotChosenBalance(s: State, call: Call, c: Call)
    requires AddrsInv(s) && Balance(s, c)
    ensures Afterwards(s.(senders := s.senders + [Sender(call, Finished)], refused := s.refused + [call]), c)
  {
    NewSender(s.senders, Sender(call, Finished), c);
    CountAppend(s.refused, [call], c);
    CountOne(call, c);
  }

  lemma ChooseBalance(s: State, call: Call, order: seq<string>, draw: int, c: Call)
    requires Before(s, Choose(call, order, draw), c)
    ensures Afterwards(Apply(s, Choose(call, order, draw)), c)
  {
    var t := Apply(s, Choose(call, order, draw));
    assert t.servers == s.servers && t.conns == s.conns && t.addrs == s.addrs;
    var x := t.senders[|s.senders|];
    if x.pc.Finished? {
      NotChosenBalance(s, call, c);
    } else {
      ChosenBalance(s, call, x, c);
    }
  }

  lemma DialBalance(s: State, k: nat, c: Call)
    requires Before(s, TryAdd(k), c) && Apply(s, TryAdd(k)).conns != s.conns
    ensures Afterwards(Apply(s, TryAdd(k)), c)
  {
    var t := Apply(s, TryAdd(k));
    var addr := s.senders[k].pc.addr;
    SenderMoves(s.senders, k, t.senders[k].pc, c);
    SameQueue(s.addrs, s.servers, addr, t.servers[addr], c);
    NewConn(s.conns, Conn(addr, k, false, C.Initial(false)), c);
  }

  lemma TryAddBalance(s: State, k: nat, c: Call)
    requires Before(s, TryAdd(k), c)
    ensures Afterwards(Apply(s, TryAdd(k)), c)
  {
    if Apply(s, TryAdd(k)).conns != s.conns {
      DialBalance(s, k, c);
    } else {
      SenderMoves(s.senders, k, Enqueueing(s.senders[k].pc.addr), c);
    }
  }

  lemma StartOkBalance(s: State, k: nat, c: Call)
    requires Before(s, StartOk(k), c)
    ensures Afterwards(Apply(s, StartOk(k)), c)
  {
    var n := s.senders[k].pc.conn;
    SenderMoves(s.senders, k, Enqueueing(s.senders[k].pc.addr), c);
    ConnMoves(s.conns, n, s.conns[n].(started := true), c);
  }

  lemma StartFailsBalance(s: State, k: nat, c: Call)
    requires Before(s, StartFails(k), c)
    ensures Afterwards(Apply(s, StartFails(k)), c)
  {
    var t := Apply(s, StartFails(k));
    var addr := s.senders[k].pc.addr;
    assert t.conns == s.conns && t.refused == s.refused && t.addrs == s.addrs;
    assert t.servers == s.servers[addr := t.servers[addr]];
    SenderMoves(s.senders, k, t.senders[k].pc, c);
    SameQueue(s.addrs, s.servers, addr, t.servers[addr], c);
  }

  lemma DrainOneBalance(s: State, k: nat, c: Call)
    requires Before(s, DrainOne(k), c)
    ensures Afterwards(Apply(s, DrainOne(k)), c)
  {
    var t := Apply(s, DrainOne(k));
    var addr := s.senders[k].pc.addr;
    var first := s.servers[addr].callChan[0];
    QueueLosesHead(s.addrs, s.servers, addr, t.servers[addr], c);
    CountAppend(s.refused, [first], c);
    CountOne(first, c);
  }

  lemma DrainOverBalance(s: State, k: nat, c: Call)
    requires Before(s, DrainOver(k), c)
    ensures Afterwards(Apply(s, DrainOver(k)), c)
  {
    SenderMoves(s.senders, k, Finished, c);
    CountAppend(s.refused, [s.senders[k].call], c);
    CountOne(s.senders[k].call, c);
  }

  lemma EnqueueFitsBalance(s: State, k: nat, c: Call)
    requires Before(s, Enqueue(k), c) && |s.servers[s.senders[k].pc.addr].callChan| < s.maxWaitCall
    ensures Afterwards(Apply(s, Enqueue(k)), c)
  {
    var t := Apply(s, Enqueue(k));
    var addr, call := s.senders[k].pc.addr, s.senders[k].call;
    SenderMoves(s.senders, k, Finished, c);
    CountOne(call, c);
    CountAppend(s.servers[addr].callChan, [call], c);
    QueueChanges(s.addrs, s.servers, addr, t.servers[addr], c);
  }

  lemma EnqueueRefusedBalance(s: State, k: nat, c: Call)
    requires Before(s, Enqueue(k), c) && |s.servers[s.senders[k].pc.addr].callChan| >= s.maxWaitCall
    ensures Afterwards(Apply(s, Enqueue(k)), c)
  {
    SenderMoves(s.senders, k, Finished, c);
    CountOne(s.senders[k].call, c);
    CountAppend(s.refused, [s.senders[k].call], c);
  }

  /** A connection's step receives what it takes and nothing else. */
  lemma Receives(x: C.State, a: C.Action)
    requires CS.MayStep(x, a)
    ensures C.Apply(x, a).taken == x.taken + CS.TakenBy(a)
  {
    CS.StepKeepsInv(x, a);
  }

  lemma ByConnTakesBalance(s: State, n: nat, a: C.Action, c: Call)
    requires Before(s, ByConn(n, a), c) && Takes(a).Some?
    requires C.Apply(s.conns[n].client, a).taken == s.conns[n].client.taken + [Takes(a).value]
    ensures Afterwards(Apply(s, ByConn(n, a)), c)
  {
    var t := Apply(s, ByConn(n, a));
    ConnMoves(s.conns, n, t.conns[n], c);
    CountAppend(s.conns[n].client.taken, [Takes(a).value], c);
    CountOne(Takes(a).value, c);
    QueueLosesHead(s.addrs, s.servers, s.conns[n].addr, t.servers[s.conns[n].addr], c);
  }

  lemma ByConnElseBalance(s: State, n: nat, a: C.Action, c: Call)
    requires Before(s, ByConn(n, a), c) && Takes(a).None?
    requires C.Apply(s.conns[n].client, a).taken == s.conns[n].client.taken
    ensures Afterwards(Apply(s, ByConn(n, a)), c)
  {
    var t := Apply(s, ByConn(n, a));
    ConnMoves(s.conns, n, t.conns[n], c);
    SameQueue(s.addrs, s.servers, s.conns[n].addr, t.servers[s.conns[n].addr], c);
  }

  lemma ByConnBalance(s: State, n: nat, a: C.Action, c: Call)
    requires Before(s, ByConn(n, a), c) && CS.Inv(s.conns[n].client)
    ensures Afterwards(Apply(s, ByConn(n, a)), c)
  {
    Receives(s.conns[n].client, a);
    if Takes(a).Some? {
      ByConnTakesBalance(s, n, a, c);
    } else {
      ByConnElseBalance(s, n, a, c);
    }
  }

  lemma StepKeepsBalance(s: State, a: Action, c: Call)
    requires Before(s, a, c) && ConnsInv(s)
    ensures Afterwards(Apply(s, a), c)
  {
    match a
    case AddServer(addr, weight, cap) => AddServerBalance(s, addr, weight, cap, c);
    case ChangeServerStatus(addr, status) => ChangeServerStatusBalance(s, addr, status, c);
    case Choose(call, order, draw) => ChooseBalance(s, call, order, draw, c);
    case TryAdd(k) => TryAddBalance(s, k, c);
    case StartOk(k) => StartOkBalance(s, k, c);
    case StartFails(k) => StartFailsBalance(s, k, c);
    case DrainOne(k) => DrainOneBalance(s, k, c);
    case DrainOver(k) => DrainOverBalance(s, k, c);
    case Enqueue(k) =>
      if |s.servers[s.senders[k].pc.addr].callChan| < s.maxWaitCall {
        EnqueueFitsBalance(s, k, c);
      } else {
        EnqueueRefusedBalance(s, k, c);
      }
    case ByConn(n, b) =>
      assert ConnOk(s, n);
      ByConnBalance(s, n, b, c);
  }

  // ----- the total -----

  /** A server's entry is replaced by one that weighs as much and is paused only if it was. */
  lemma WeightKeeps(m: Servers, a: string, info: ServerInfo, totalWeight: int)
    requires NonNegative(m) ==> totalWeight <= Total(m, NotPaused)
    requires a in m && info.weight == m[a].weight && (info.status.Paused? ==> m[a].status.Paused?)
    ensures NonNegative(m[a := info]) ==> totalWeight <= Total(m[a := info], NotPaused)
  {
    if NonNegative(m[a := info]) {
      assert forall k :: k in m ==> k in m[a := info] && m[a := info][k].weight == m[k].weight;
      TotalKeeps(m, a, info);
    }
  }

  lemma StepKeepsWeight(s: State, a: Action)
    requires WeightInv(s) && Enabled(s, a)
    ensures WeightInv(Apply(s, a))
  {
    var t := Apply(s, a);
    match a
    case AddServer(_, _, _) => if NonNegative(t.servers) { TotalAfterRefresh(t.servers); }
    case ChangeServerStatus(_, _) => if NonNegative(t.servers) { SumsOrdered(t.servers, t.servers.Keys); }
    case Choose(_, _, _) =>
    case TryAdd(k) => OneServerChanges(s, t, s.senders[k].pc.addr);
    case StartOk(_) =>
    case StartFails(k) => OneServerChanges(s, t, s.senders[k].pc.addr);
    case DrainOne(k) => OneServerChanges(s, t, s.senders[k].pc.addr);
    case DrainOver(_) =>
    case Enqueue(k) => OneServerChanges(s, t, s.senders[k].pc.addr);
    case ByConn(n, b) => OneServerChanges(s, t, s.conns[n].addr);
  }

  lemma OneServerChanges(s: State, t: State, addr: string)
    requires WeightInv(s) && t.totalWeight == s.totalWeight
    requires addr in s.servers && addr in t.servers && t.servers == s.servers[addr := t.servers[addr]]
    requires t.servers[addr].weight == s.servers[addr].weight
    requires t.servers[addr].status.Paused? ==> s.servers[addr].status.Paused?
    ensures WeightInv(t)
  {
    WeightKeeps(s.servers, addr, t.servers[addr], s.totalWeight);
  }
}
