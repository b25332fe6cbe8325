// No step of the pool breaks the connection lists, their caps, or the bounds of the queues.
module PoolLists {
  import opened RpcTypes
  import opened Selection
  import opened PoolMachine
  import opened PoolSafety
  import C = ClientMachine
  import CS = ClientSafety

  // ----- lists and queues -----

  ghost predicate EntryOk(s: State, a: string, info: ServerInfo) {
    ListOk(info.connList, a, s.conns) && CapOk(info, a, s.topMax, s.maxWaitCall)
  }

  /** Connections are only added, and keep their address. */
  ghost predicate SameAddrs(s: State, t: State) {
    |s.conns| <= |t.conns| && forall n :: 0 <= n < |s.conns| ==> t.conns[n].addr == s.conns[n].addr
  }

  /** One server's entry is replaced, and fits its place. */
  lemma OneEntryChanges(s: State, t: State, addr: string)
    requires ListsInv(s) && SameAddrs(s, t) && t.topMax == s.topMax && t.maxWaitCall == s.maxWaitCall
    requires addr in t.servers && t.servers == s.servers[addr := t.servers[addr]]
    requires EntryOk(t, addr, t.servers[addr])
    ensures ListsInv(t)
  {
    forall a | a in t.servers && a != addr
      ensures EntryOk(t, a, t.servers[a])
    {
      assert EntryOk(s, a, s.servers[a]);
    }
  }

  lemma EntriesStay(s: State, t: State)
    requires ListsInv(s) && SameAddrs(s, t) && t.topMax == s.topMax && t.maxWaitCall == s.maxWaitCall
    requires t.servers == s.servers
    ensures ListsInv(t)
  {
    forall a | a in t.servers
      ensures EntryOk(t, a, t.servers[a])
    {
      assert EntryOk(s, a, s.servers[a]);
    }
  }

  lemma AddServerLists(s: State, addr: string, weight: int, cap: int)
    requires ListsInv(s)
    ensures ListsInv(Apply(s, AddServer(addr, weight, cap)))
  {
    var t := Apply(s, AddServer(addr, weight, cap));
    forall a | a in t.servers
      ensures EntryOk(t, a, t.servers[a])
    {
      if a in s.servers {
        assert EntryOk(s, a, s.servers[a]);
      }
    }
  }

  lemma ChangeServerStatusLists(s: State, addr: string, status: Status)
    requires ListsInv(s)
    ensures ListsInv(Apply(s, ChangeServerStatus(addr, status)))
  {
    if addr in s.servers {
      assert EntryOk(s, addr, s.servers[addr]);
      OneEntryChanges(s, Apply(s, ChangeServerStatus(addr, status)), addr);
    }
  }

  lemma DialledListOk(list: seq<nat>, a: string, conns: seq<Conn>, x: Conn)
    requires ListOk(list, a, conns) && x.addr == a
    ensures ListOk(list + [|conns|], a, conns + [x])
  {
    assert forall i :: 0 <= i < |list| ==> list[i] in list;
  }

  lemma TryAddLists(s: State, k: nat)
    requires ListsInv(s) && Enabled(s, TryAdd(k))
    ensures ListsInv(Apply(s, TryAdd(k)))
  {
    var t := Apply(s, TryAdd(k));
    var addr := s.senders[k].pc.addr;
    assert EntryOk(s, addr, s.servers[addr]);
    DialledListOk(s.servers[addr].connList, addr, s.conns, Conn(addr, k, false, C.Initial(false)));
    OneEntryChanges(s, t, addr);
  }

  lemma StartFailsLists(s: State, k: nat)
    requires ListsInv(s) && Enabled(s, StartFails(k))
    ensures ListsInv(Apply(s, StartFails(k)))
  {
    var addr, n := s.senders[k].pc.addr, s.senders[k].pc.conn;
    assert EntryOk(s, addr, s.servers[addr]);
    WithoutRemoves(s.servers[addr].connList, n);
    WithoutIsDistinct(s.servers[addr].connList, n);
    OneEntryChanges(s, Apply(s, StartFails(k)), addr);
  }

  lemma QueueLists(s: State, k: nat, a: Action)
    requires ListsInv(s) && (a == DrainOne(k) || a == Enqueue(k)) && Enabled(s, a)
    ensures ListsInv(Apply(s, a))
  {
    var addr := s.senders[k].pc.addr;
    assert EntryOk(s, addr, s.servers[addr]);
    OneEntryChanges(s, Apply(s, a), addr);
  }

  lemma ByConnLists(s: State, n: nat, a: C.Action)
    requires ListsInv(s) && Enabled(s, ByConn(n, a))
    ensures ListsInv(Apply(s, ByConn(n, a)))
  {
    var addr := s.conns[n].addr;
    assert EntryOk(s, addr, s.servers[addr]);
    if a.NotifyParent? {
      WithoutRemoves(s.servers[addr].connList, n);
      WithoutIsDistinct(s.servers[addr].connList, n);
    }
    OneEntryChanges(s, Apply(s, ByConn(n, a)), addr);
  }

  lemma StepKeepsLists(s: State, a: Action)
    requires ListsInv(s) && Enabled(s, a)
    ensures ListsInv(Apply(s, a))
  {
    match a
    case AddServer(addr, weight, cap) => AddServerLists(s, addr, weight, cap);
    case ChangeServerStatus(addr, status) => ChangeServerStatusLists(s, addr, status);
    case Choose(_, _, _) => EntriesStay(s, Apply(s, a));
    case TryAdd(k) => TryAddLists(s, k);
    case StartOk(_) => EntriesStay(s, Apply(s, a));
    case StartFails(k) => StartFailsLists(s, k);
    case DrainOne(k) => QueueLists(s, k, a);
    case DrainOver(_) => EntriesStay(s, Apply(s, a));
    case Enqueue(k) => QueueLists(s, k, a);
    case ByConn(n, b) => ByConnLists(s, n, b);
  }

  // ----- connections and the SendCalls that dial them -----

  /** A connection is untouched, and so is whatever its liveness depends on. */
  ghost predicate Untouched(s: State, t: State, n: nat)
    requires n < |s.conns|
  {
    && n < |t.conns| && t.conns[n] == s.conns[n]
    && (s.conns[n].addr in s.servers ==>
          && s.conns[n].addr in t.servers
          && (n in t.servers[s.conns[n].addr].connList <==> n in s.servers[s.conns[n].addr].connList))
    && (n in t.removed <==> n in s.removed)
    && (!s.conns[n].started ==> (Dialling(t, n) <==> Dialling(s, n)))
  }

  lemma UntouchedStaysOk(s: State, t: State, n: nat)
    requires n < |s.conns| && ConnOk(s, n) && Untouched(s, t, n)
    ensures ConnOk(t, n)
  {
  }

  lemma AddServerConns(s: State, addr: string, weight: int, cap: int)
    requires ConnsInv(s)
    ensures ConnsInv(Apply(s, AddServer(addr, weight, cap)))
  {
    var t := Apply(s, AddServer(addr, weight, cap));
    forall n | 0 <= n < |t.conns|
      ensures ConnOk(t, n)
    {
      UntouchedStaysOk(s, t, n);
    }
    forall k | 0 <= k < |t.senders|
      ensures SenderOk(t, k)
    {
      assert SenderOk(s, k);
    }
  }

  /** Steps that leave the connections, their lists and what was removed alone. */
  lemma ConnsStay(s: State, t: State)
    requires ConnsInv(s) && t.conns == s.conns && t.removed == s.removed
    requires forall a :: a in s.servers ==> a in t.servers && t.servers[a].connList == s.servers[a].connList
    requires forall n :: 0 <= n < |s.conns| && !s.conns[n].started ==> (Dialling(t, n) <==> Dialling(s, n))
    requires forall k :: 0 <= k < |t.senders| ==> SenderOk(t, k)
    ensures ConnsInv(t)
  {
    forall n | 0 <= n < |t.conns|
      ensures ConnOk(t, n)
    {
      UntouchedStaysOk(s, t, n);
    }
  }

  lemma ChangeServerStatusConns(s: State, addr: string, status: Status)
    requires ConnsInv(s)
    ensures ConnsInv(Apply(s, ChangeServerStatus(addr, status)))
  {
    var t := Apply(s, ChangeServerStatus(addr, status));
    forall k | 0 <= k < |t.senders|
      ensures SenderOk(t, k)
    {
      assert SenderOk(s, k);
    }
    ConnsStay(s, t);
  }

  lemma ChooseConns(s: State, call: Call, order: seq<string>, draw: int)
    requires ConnsInv(s) && Enabled(s, Choose(call, order, draw))
    ensures ConnsInv(Apply(s, Choose(call, order, draw)))
  {
    var t := Apply(s, Choose(call, order, draw));
    forall k | 0 <= k < |t.senders|
      ensures SenderOk(t, k)
    {
      assert k < |s.senders| ==> SenderOk(s, k);
    }
    ConnsStay(s, t);
  }

  /** A SendCall that was not dialling and is not dialling afterwards moves on. */
  lemma SenderConns(s: State, k: nat, t: State)
    requires ConnsInv(s) && k < |s.senders| == |t.senders| && t.senders == s.senders[k := t.senders[k]]
    requires !s.senders[k].pc.Starting? && !t.senders[k].pc.Starting?
    requires t.conns == s.conns && t.removed == s.removed
    requires forall a :: a in s.servers ==> a in t.servers && t.servers[a].connList == s.servers[a].connList
    requires SenderOk(t, k)
    ensures ConnsInv(t)
  {
    forall j | 0 <= j < |t.senders|
      ensures SenderOk(t, j)
    {
      assert SenderOk(s, j);
    }
    ConnsStay(s, t);
  }

  lemma TryAddConns(s: State, k: nat)
    requires ConnsInv(s) && ListsInv(s) && Enabled(s, TryAdd(k))
    ensures ConnsInv(Apply(s, TryAdd(k)))
  {
    var t := Apply(s, TryAdd(k));
    if t.conns == s.conns {
      SenderConns(s, k, t);
    } else {
      DialConns(s, k);
    }
  }

  lemma DialConns(s: State, k: nat)
    requires ConnsInv(s) && ListsInv(s) && Enabled(s, TryAdd(k)) && Apply(s, TryAdd(k)).conns != s.conns
    ensures ConnsInv(Apply(s, TryAdd(k)))
  {
    var t := Apply(s, TryAdd(k));
    var addr, fresh_ := s.senders[k].pc.addr, |s.conns|;
    assert t.conns[..fresh_] == s.conns;
    forall n | 0 <= n < |t.conns|
      ensures ConnOk(t, n)
    {
      if n < fresh_ {
        UntouchedStaysOk(s, t, n);
      } else {
        CS.InitialInv(false);
      }
    }
    forall j | 0 <= j < |t.senders|
      ensures SenderOk(t, j)
    {
      assert SenderOk(s, j);
    }
  }

  lemma StartOkSenders(s: State, k: nat)
    requires ConnsInv(s) && Enabled(s, StartOk(k))
    ensures forall j :: 0 <= j < |s.senders| ==> SenderOk(Apply(s, StartOk(k)), j)
  {
    var t := Apply(s, StartOk(k));
    assert SenderOk(s, k);
    forall j | 0 <= j < |t.senders|
      ensures SenderOk(t, j)
    {
      assert SenderOk(s, j);
    }
  }

  lemma StartOkConns(s: State, k: nat)
    requires ConnsInv(s) && Enabled(s, StartOk(k))
    ensures ConnsInv(Apply(s, StartOk(k)))
  {
    var t := Apply(s, StartOk(k));
    var mine := s.senders[k].pc.conn;
    assert SenderOk(s, k) && ConnOk(s, mine);
    StartOkSenders(s, k);
    forall n | 0 <= n < |t.conns|
      ensures ConnOk(t, n)
    {
      assert ConnOk(s, n);
      if n != mine {
        UntouchedStaysOk(s, t, n);
      }
    }
  }

  /** One live connection leaves its list for good. */
  lemma Leaves(s: State, t: State, mine: nat)
    requires ConnsInv(s) && ListsInv(s) && mine < |s.conns| && Live(s, mine)
    requires |t.conns| == |s.conns| && t.removed == s.removed + [mine]
    requires var addr := s.conns[mine].addr;
             && addr in s.servers && addr in t.servers && t.servers == s.servers[addr := t.servers[addr]]
             && t.servers[addr].connList == Without(s.servers[addr].connList, mine)
    requires forall n :: 0 <= n < |s.conns| && n != mine ==> t.conns[n] == s.conns[n]
    requires forall n :: 0 <= n < |s.conns| && n != mine && !s.conns[n].started ==>
               (Dialling(t, n) <==> Dialling(s, n))
    requires t.conns[mine].addr == s.conns[mine].addr && !Live(t, mine)
    requires CS.Inv(t.conns[mine].client) && !t.conns[mine].client.repaired
    requires !t.conns[mine].started ==> t.conns[mine].client == C.Initial(false)
    requires forall k :: 0 <= k < |t.senders| ==> SenderOk(t, k)
    ensures ConnsInv(t)
  {
    var addr := s.conns[mine].addr;
    assert EntryOk(s, addr, s.servers[addr]);
    WithoutRemoves(s.servers[addr].connList, mine);
    assert ConnOk(s, mine);
    assert forall n :: n in t.removed <==> n in s.removed || n == mine;
    forall n | 0 <= n < |t.conns|
      ensures ConnOk(t, n)
    {
      if n != mine {
        UntouchedStaysOk(s, t, n);
      }
    }
  }

  lemma StartFailsConns(s: State, k: nat)
    requires ConnsInv(s) && ListsInv(s) && Enabled(s, StartFails(k))
    ensures ConnsInv(Apply(s, StartFails(k)))
  {
    var t := Apply(s, StartFails(k));
    var mine := s.senders[k].pc.conn;
    assert SenderOk(s, k) && ConnOk(s, mine);
    forall j | 0 <= j < |t.senders|
      ensures SenderOk(t, j)
    {
      assert SenderOk(s, j);
    }
    Leaves(s, t, mine);
  }

  /** The connection's own invariant, and that only telling the parent ends its being listed. */
  lemma OwnStep(x: C.State, a: C.Action)
    requires CS.MayStep(x, a)
    ensures CS.Inv(C.Apply(x, a)) && C.Apply(x, a).repaired == x.repaired
    ensures C.Apply(x, a).reader.ReaderExited? <==> x.reader.ReaderExited? || a.NotifyParent?
  {
    CS.StepKeepsInv(x, a);
  }

  lemma ByConnConns(s: State, n: nat, a: C.Action)
    requires ConnsInv(s) && ListsInv(s) && Enabled(s, ByConn(n, a))
    ensures ConnsInv(Apply(s, ByConn(n, a)))
  {
    var t := Apply(s, ByConn(n, a));
    assert ConnOk(s, n);
    OwnStep(s.conns[n].client, a);
    forall j | 0 <= j < |t.senders|
      ensures SenderOk(t, j)
    {
      assert SenderOk(s, j);
    }
    if a.NotifyParent? {
      Leaves(s, t, n);
    } else {
      StaysListed(s, t, n);
    }
  }

  /** A started connection takes a step and stays on its list. */
  lemma StaysListed(s: State, t: State, mine: nat)
    requires ConnsInv(s) && mine < |s.conns| && s.conns[mine].started
    requires |t.conns| == |s.conns| && t.conns == s.conns[mine := s.conns[mine].(client := t.conns[mine].client)]
    requires CS.Inv(t.conns[mine].client) && !t.conns[mine].client.repaired
    requires t.conns[mine].client.reader.ReaderExited? <==> s.conns[mine].client.reader.ReaderExited?
    requires forall a :: a in s.servers ==> a in t.servers && t.servers[a].connList == s.servers[a].connList
    requires t.removed == s.removed && t.senders == s.senders
    requires forall k :: 0 <= k < |t.senders| ==> SenderOk(t, k)
    ensures ConnsInv(t)
  {
    forall m | 0 <= m < |t.conns|
      ensures ConnOk(t, m)
    {
      assert ConnOk(s, m);
      if m != mine {
        UntouchedStaysOk(s, t, m);
      }
    }
  }

  lemma StepKeepsConns(s: State, a: Action)
    requires ConnsInv(s) && ListsInv(s) && Enabled(s, a)
    ensures ConnsInv(Apply(s, a))
  {
    match a
    case AddServer(addr, weight, cap) => AddServerConns(s, addr, weight, cap);
    case ChangeServerStatus(addr, status) => ChangeServerStatusConns(s, addr, status);
    case Choose(call, order, draw) => ChooseConns(s, call, order, draw);
    case TryAdd(k) => TryAddConns(s, k);
    case StartOk(k) => StartOkConns(s, k);
    case StartFails(k) => StartFailsConns(s, k);
    case DrainOne(k) => SenderConns(s, k, Apply(s, a));
    case DrainOver(k) => SenderConns(s, k, Apply(s, a));
    case Enqueue(k) => SenderConns(s, k, Apply(s, a));
    case ByConn(n, b) => ByConnConns(s, n, b);
  }
}
