// What a failed dial does to a server's status: how far totalWeight runs out of step, and how a pause
// comes to an end.
module PoolStatus {
  import opened RpcTypes
  import opened Selection
  import opened PoolMachine
  import C = ClientMachine
  import SS = SelectionShare
  import PT = PoolTheorems

  // ----- the total -----

  /** The weights of the given servers. */
  function WeightOf(addrs: seq<string>, servers: Servers): int
    requires forall a :: a in addrs ==> a in servers
  {
    if addrs == [] then 0
    else
      var n := |addrs| - 1;
      WeightOf(addrs[..n], servers) + servers[addrs[n]].weight
  }

  ghost predicate LeftInv(s: State) {
    forall a :: a in s.left ==> a in s.servers && s.servers[a].status.ConnectFailed?
  }

  ghost predicate TotalInv(s: State) {
    LeftInv(s) && s.totalWeight == Total(s.servers, OnlyNormal) + WeightOf(s.left, s.servers)
  }

  lemma {:induction false} WeightStays(addrs: seq<string>, m: Servers, n: Servers)
    requires forall a :: a in addrs ==> a in m && a in n && n[a].weight == m[a].weight
    ensures WeightOf(addrs, n) == WeightOf(addrs, m)
  {
    if addrs != [] {
      var k := |addrs| - 1;
      assert addrs[k] in addrs;
      WeightStays(addrs[..k], m, n);
    }
  }

  /** An entry changes neither its status nor its weight. */
  lemma SameEntryTotals(s: State, t: State, addr: string)
    requires TotalInv(s) && t.left == s.left && t.totalWeight == s.totalWeight
    requires addr in s.servers && addr in t.servers && t.servers == s.servers[addr := t.servers[addr]]
    requires t.servers[addr].status == s.servers[addr].status && t.servers[addr].weight == s.servers[addr].weight
    ensures TotalInv(t)
  {
    assert t.servers.Keys == s.servers.Keys;
    SumOfOthers(s.servers, t.servers, s.servers.Keys, OnlyNormal);
    WeightStays(s.left, s.servers, t.servers);
  }

  lemma LastDialFailsTotals(s: State, k: nat)
    requires TotalInv(s) && Enabled(s, StartFails(k))
    requires Without(s.servers[s.senders[k].pc.addr].connList, s.senders[k].pc.conn) == []
    ensures TotalInv(Apply(s, StartFails(k)))
  {
    var addr, t := s.senders[k].pc.addr, Apply(s, StartFails(k));
    assert t.servers.Keys == s.servers.Keys;
    SumWithout(s.servers, s.servers.Keys, OnlyNormal, addr);
    SumWithout(t.servers, s.servers.Keys, OnlyNormal, addr);
    SumOfOthers(s.servers, t.servers, s.servers.Keys - {addr}, OnlyNormal);
    WeightStays(s.left, s.servers, t.servers);
    assert (s.left + [addr])[..|s.left|] == s.left;
  }

  lemma StepKeepsTotal(s: State, a: Action)
    requires TotalInv(s) && Enabled(s, a)
    ensures TotalInv(Apply(s, a))
  {
    var t := Apply(s, a);
    match a
    case AddServer(_, _, _) =>
    case ChangeServerStatus(_, _) =>
    case Choose(_, _, _) =>
    case TryAdd(k) => SameEntryTotals(s, t, s.senders[k].pc.addr);
    case StartOk(_) =>
    case StartFails(k) =>
      var addr := s.senders[k].pc.addr;
      if Without(s.servers[addr].connList, s.senders[k].pc.conn) == [] {
        LastDialFailsTotals(s, k);
      } else {
        SameEntryTotals(s, t, addr);
      }
    case DrainOne(k) => SameEntryTotals(s, t, s.senders[k].pc.addr);
    case DrainOver(_) =>
    case Enqueue(k) => SameEntryTotals(s, t, s.senders[k].pc.addr);
    case ByConn(n, _) => SameEntryTotals(s, t, s.conns[n].addr);
  }

  lemma {:induction false} RunKeepsTotal(s: State, acts: seq<Action>)
    requires TotalInv(s) && CanRun(s, acts)
    ensures TotalInv(After(s, acts))
    decreases |acts|
  {
    if acts != [] {
      StepKeepsTotal(s, acts[0]);
      RunKeepsTotal(Apply(s, acts[0]), acts[1..]);
    }
  }

  /** In every reachable state totalWeight is the weight of the normal servers plus that of the servers
      left behind: those whose last dial failed, while they were normal, since the last AddServer or
      ChangeServerStatus. All of them are ConnectFailed. */
  lemma TotalExactly(s: State)
    requires Reached(s)
    ensures forall a :: a in s.left ==> a in s.servers && s.servers[a].status.ConnectFailed?
    ensures s.totalWeight == Total(s.servers, OnlyNormal) + WeightOf(s.left, s.servers)
  {
    var s0 := Initial(s.maxWaitCall);
    var acts :| CanRun(s0, acts) && After(s0, acts) == s;
    RunKeepsTotal(s0, acts);
  }

  /** So the share of each server is exact in every reachable state whose weights are not negative, whatever
      is paused or has failed: its interval of the weights that are not paused, cut off at the total; and
      if there is a server to choose, the shares use up all draws. */
  lemma SharesExactly(s: State, order: seq<string>, i: nat)
    requires Reached(s) && IsWalk(order, s.servers) && NonNegative(s.servers) && i < |order|
    ensures forall a :: a in s.left ==> a in s.servers
    ensures var n := SS.Draws(Total(s.servers, OnlyNormal) + WeightOf(s.left, s.servers));
            && SS.FirstDraw(order, s.servers, i) >= 0
            && SS.Draws(s.totalWeight) == n
            && SS.Wins(order, s.servers, order[i], n) ==
                 (if s.servers[order[i]].status.Paused? then 0
                  else SS.Overlap(SS.FirstDraw(order, s.servers, i), SS.Front(order, s.servers, i + 1), n))
            && ((exists k :: k in s.servers && !s.servers[k].status.Paused?) ==>
                  SS.WinsOfFirst(order, s.servers, n, |order|) == n)
  {
    TotalExactly(s);
    PT.ReachedInv(s);
    SS.WinsExactly(order, s.servers, i, SS.Draws(s.totalWeight));
    if exists k :: k in s.servers && !s.servers[k].status.Paused? {
      SS.SharesAddUp(order, s.servers, s.totalWeight);
    }
  }

  // ----- pauses -----

  /** The server is taken out of its pause by the operator, or because its last dial fails. */
  predicate EndsPause(s: State, a: Action, addr: string) {
    match a
    case ChangeServerStatus(b, status) => b == addr && !status.Paused?
    case StartFails(k) =>
      At(s, k) && s.senders[k].pc.Starting? && s.senders[k].pc.addr == addr
      && Without(s.servers[addr].connList, s.senders[k].pc.conn) == []
    case _ => false
  }

  predicate PausedAt(s: State, addr: string) { addr in s.servers && s.servers[addr].status.Paused? }

  /** A step ends a pause in exactly these two ways. */
  lemma PauseEndsExactly(s: State, a: Action, addr: string)
    requires PausedAt(s, addr) && Enabled(s, a)
    ensures addr in Apply(s, a).servers
    ensures !PausedAt(Apply(s, a), addr) <==> EndsPause(s, a, addr)
  {
  }

  lemma {:induction false} ChosenIsNotPaused(order: seq<string>, m: Servers, sum: int, draw: int, err: Choice)
    requires (forall k :: k in order ==> k in m) && !err.Chosen?
    ensures var c := SelectFrom(order, m, sum, draw, err);
            c.Chosen? ==> c.addr in m && !m[c.addr].status.Paused?
  {
    if order != [] {
      var info := m[order[0]];
      ChosenIsNotPaused(order[1..], m, sum, draw, ServerPause);
      ChosenIsNotPaused(order[1..], m, sum + info.weight, draw, err);
    }
  }

  ghost predicate NothingEndsPause(s: State, acts: seq<Action>, addr: string)
    requires CanRun(s, acts)
    decreases |acts|
  {
    acts == [] || (!EndsPause(s, acts[0], addr) && NothingEndsPause(Apply(s, acts[0]), acts[1..], addr))
  }

  /** No SendCall of the run chooses the server. */
  ghost predicate NeverChosen(s: State, acts: seq<Action>, addr: string)
    requires CanRun(s, acts)
    decreases |acts|
  {
    acts == [] ||
    ((acts[0].Choose? ==> Select(acts[0].order, s.servers, acts[0].draw) != Chosen(addr))
     && NeverChosen(Apply(s, acts[0]), acts[1..], addr))
  }

  /** Until one of the two happens, a paused server stays paused and is chosen for no call. */
  lemma {:induction false} PausedUntil(s: State, acts: seq<Action>, addr: string)
    requires PausedAt(s, addr) && CanRun(s, acts) && NothingEndsPause(s, acts, addr)
    ensures PausedAt(After(s, acts), addr) && NeverChosen(s, acts, addr)
    decreases |acts|
  {
    if acts != [] {
      var a := acts[0];
      PauseEndsExactly(s, a, addr);
      PausedUntil(Apply(s, a), acts[1..], addr);
      if a.Choose? {
        ChosenIsNotPaused(a.order, s.servers, 0, a.draw, NoServer);
      }
    }
  }

  // ----- a pause that is undone -----

  lemma ReachedNext(s: State, a: Action)
    requires Reached(s) && Enabled(s, a)
    ensures Reached(Apply(s, a))
  {
    var s0 := Initial(s.maxWaitCall);
    var acts :| CanRun(s0, acts) && After(s0, acts) == s;
    RunLonger(s0, acts, a);
    assert Apply(s, a).maxWaitCall == s.maxWaitCall;
  }

  /** A server with one dial under way. */
  ghost predicate Dials(s: State, addr: string, call: Call) {
    && s.servers == map[addr := ServerInfo(1, 1, Normal, [], [0])]
    && s.senders == [Sender(call, Starting(addr, 0))]
    && s.conns == [Conn(addr, 0, false, C.Initial(false))] && s.refused == []
  }

  lemma OneDial(addr: string, call: Call, maxWaitCall: nat) returns (s: State)
    ensures Reached(s) && Dials(s, addr, call) && s.maxWaitCall == maxWaitCall
  {
    var s0 := Initial(maxWaitCall);
    assert CanRun(s0, []) && After(s0, []) == s0;
    var s1 := Apply(s0, AddServer(addr, 1, 1));
    ReachedNext(s0, AddServer(addr, 1, 1));
    assert s1.servers == map[addr := ServerInfo(1, 1, Normal, [], [])];
    s := DialsNext(s1, addr, call);
  }

  lemma DialsNext(s1: State, addr: string, call: Call) returns (s: State)
    requires Reached(s1) && s1.servers == map[addr := ServerInfo(1, 1, Normal, [], [])]
    requires s1.senders == [] && s1.conns == [] && s1.refused == []
    ensures Reached(s) && Dials(s, addr, call) && s.maxWaitCall == s1.maxWaitCall
  {
    assert Select([addr], s1.servers, 0) == Chosen(addr);
    ReachedNext(s1, Choose(call, [addr], 0));
    var s2 := Apply(s1, Choose(call, [addr], 0));
    assert s2.senders == [Sender(call, NeedConn(addr))];
    s := TriesNext(s2, addr, call);
  }

  lemma TriesNext(s2: State, addr: string, call: Call) returns (s: State)
    requires Reached(s2) && s2.servers == map[addr := ServerInfo(1, 1, Normal, [], [])]
    requires s2.senders == [Sender(call, NeedConn(addr))] && s2.conns == [] && s2.refused == []
    ensures Reached(s) && Dials(s, addr, call) && s.maxWaitCall == s2.maxWaitCall
  {
    ReachedNext(s2, TryAdd(0));
    s := Apply(s2, TryAdd(0));
    assert s.servers[addr].connList == [] + [0] == [0];
    assert s.servers == map[addr := s.servers[addr]];
  }

  /** The operator pauses a server while a SendCall is dialling it, and the dial fails: the pause is gone
      without anybody having ended it, and the next call goes to that server. */
  lemma PauseIsUndone(addr: string, call: Call, maxWaitCall: nat)
    ensures exists s: State, t: State ::
              && Reached(s) && PausedAt(s, addr) && Enabled(s, StartFails(0)) && t == Apply(s, StartFails(0))
              && !PausedAt(t, addr) && IsWalk([addr], t.servers) && LegalDraw(0, t.totalWeight)
              && Select([addr], t.servers, 0) == Chosen(addr)
  {
    var s0 := OneDial(addr, call, maxWaitCall);
    ReachedNext(s0, ChangeServerStatus(addr, Paused));
    var s := Apply(s0, ChangeServerStatus(addr, Paused));
    var t := Apply(s, StartFails(0));
    assert Without([0], 0) == [];
    assert t.servers == map[addr := ServerInfo(1, 1, ConnectFailed, [], [])];
    assert IsWalk([addr], t.servers);
  }
}
