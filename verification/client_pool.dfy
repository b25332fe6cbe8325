// TClient in its own form: the fields and loops of rpc/client.go. Each method also advances `now`, the
// client's state in the transition system of the pool. Only where a method says so has it taken
// several steps, with the lock released in between.
module ClientPool {
  import opened RpcTypes
  import opened Selection
  import P = PoolMachine
  import PS = PoolSafety
  import PT = PoolTheorems

  /** Nobody but `addr` has come, gone or changed. */
  ghost predicate OthersSame(was: Servers, m: Servers, addr: string) {
    forall a :: a != addr ==> (a in m <==> a in was) && (a in was ==> m[a] == was[a])
  }

  /** The entry of `addr` is the same but for its list of connections. */
  ghost predicate OnlyList(was: Servers, m: Servers, addr: string)
    requires addr in was && addr in m
  {
    && OthersSame(was, m, addr)
    && m[addr].weight == was[addr].weight && m[addr].maxConnNum == was[addr].maxConnNum
    && m[addr].status == was[addr].status && m[addr].callChan == was[addr].callChan
  }

  /** The entry of `addr` is the same but for its queue. */
  ghost predicate OnlyQueue(was: Servers, m: Servers, addr: string)
    requires addr in was && addr in m
  {
    && OthersSame(was, m, addr)
    && m[addr].weight == was[addr].weight && m[addr].maxConnNum == was[addr].maxConnNum
    && m[addr].status == was[addr].status && m[addr].connList == was[addr].connList
  }

  /** A server gets another connection if it has none, or if calls are waiting and it may have one more. */
  predicate Wanted(info: ServerInfo) {
    |info.connList| == 0 || (|info.callChan| > 0 && |info.connList| < info.maxConnNum)
  }

  /** `rest` is `list` without its entry `n`, in the same order. */
  predicate Removed(list: seq<nat>, n: nat, rest: seq<nat>) {
    if n in list then exists i :: 0 <= i < |list| && list[i] == n && rest == list[..i] + list[i + 1..]
    else rest == list
  }

  class Client {
    var servers: Servers
    var totalWeight: int
    const maxWaitCall: nat
    var dialled: nat               // connections made so far; a connection is named by its number
    var failed: seq<Call>          // calls completed with an error by the client itself
    ghost var now: P.State

    ghost predicate Valid()
      reads this
    {
      && servers == now.servers && totalWeight == now.totalWeight && maxWaitCall == now.maxWaitCall
      && dialled == |now.conns| && failed == now.refused
      && P.Reached(now)
    }

    constructor (maxWaitCall: nat)
      ensures Valid() && now == P.Initial(maxWaitCall)
    {
      this.maxWaitCall := maxWaitCall;
      servers, totalWeight, dialled, failed := map[], 0, 0, [];
      now := P.Initial(maxWaitCall);
      new;
      StartReached(maxWaitCall);
    }

    ghost method Step(a: P.Action)
      requires P.Reached(now) && P.Enabled(now, a)
      modifies this`now
      ensures now == P.Apply(old(now), a) && P.Reached(now)
    {
      StepReached(now, a);
      now := P.Apply(now, a);
    }

    // ----- selection -----

    /** updateTotalWeight, whose sum does not depend on the order of the walk. */
    method UpdateTotalWeight(order: seq<string>)
      requires IsWalk(order, servers)
      modifies this`totalWeight
      ensures totalWeight == Total(servers, OnlyNormal)
    {
      totalWeight := 0;
      var i := 0;
      while i < |order|
        invariant i <= |order| && totalWeight == SumAlong(order[..i], servers, OnlyNormal)
      {
        var info := servers[order[i]];
        assert order[..i + 1][..i] == order[..i];
        if info.status == Normal {
          totalWeight := totalWeight + info.weight;
        }
        i := i + 1;
      }
      assert order[..|order|] == order;
      WalkSum(order, servers, OnlyNormal);
    }

    /** getServerInfo: the loop computes the choice, and with weights that are not negative it fails only
        if there is nothing to choose from. */
    method GetServerInfo(order: seq<string>, draw: int) returns (choice: Choice)
      requires Valid() && IsWalk(order, servers) && LegalDraw(draw, totalWeight)
      ensures choice == Select(order, servers, draw)
      ensures choice.Chosen? ==> choice.addr in servers && !servers[choice.addr].status.Paused?
      ensures NonNegative(servers) ==>
                (choice.Chosen? <==> exists a :: a in servers && !servers[a].status.Paused?)
      ensures NonNegative(servers) && !choice.Chosen? ==>
                choice == if servers == map[] then NoServer else ServerPause
    {
      if NonNegative(servers) {
        PT.SelectionWorks(now, order, draw);
      }
      choice := NoServer;
      var sum, i := 0, 0;
      while i < |order|
        invariant i <= |order| && !choice.Chosen?
        invariant SelectFrom(order[i..], servers, sum, draw, choice) == Select(order, servers, draw)
      {
        var info := servers[order[i]];
        assert order[i..][1..] == order[i + 1..];
        if info.status.Paused? {
          choice := ServerPause;
        } else {
          sum := sum + info.weight;
          if sum >= draw {
            return Chosen(order[i]);
          }
        }
        i := i + 1;
      }
    }

    // ----- servers -----

    /** `order` is some walk over the map as it is afterwards. */
    method AddServer(addr: string, weight: int, maxConnNum: int, order: seq<string>)
      requires Valid() && IsWalk(order, P.Apply(now, P.AddServer(addr, weight, maxConnNum)).servers)
      modifies this
      ensures Valid() && now == P.Apply(old(now), P.AddServer(addr, weight, maxConnNum))
      ensures totalWeight == Total(servers, OnlyNormal) && failed == old(failed)
      ensures addr in servers && servers[addr].weight == weight && servers[addr].maxConnNum == maxConnNum
      ensures OthersSame(old(servers), servers, addr)
      ensures addr in old(servers) ==>
                && servers[addr].status == old(servers)[addr].status
                && servers[addr].callChan == old(servers)[addr].callChan
                && servers[addr].connList == old(servers)[addr].connList
      ensures addr !in old(servers) ==>
                servers[addr].status == Normal && servers[addr].callChan == [] && servers[addr].connList == []
    {
      if addr in servers {
        servers := servers[addr := servers[addr].(weight := weight, maxConnNum := maxConnNum)];
      } else {
        servers := servers[addr := ServerInfo(weight, maxConnNum, Normal, [], [])];
      }
      UpdateTotalWeight(order);
      Step(P.AddServer(addr, weight, maxConnNum));
    }

    method ChangeServerStatus(addr: string, status: Status, order: seq<string>) returns (found: bool)
      requires Valid() && IsWalk(order, servers)
      modifies this
      ensures Valid() && now == P.Apply(old(now), P.ChangeServerStatus(addr, status))
      ensures found == (addr in old(servers)) && failed == old(failed)
      ensures !found ==> servers == old(servers) && totalWeight == old(totalWeight)
      ensures found ==>
                && addr in servers && OthersSame(old(servers), servers, addr) && servers[addr].status == status
                && servers[addr].weight == old(servers)[addr].weight
                && servers[addr].maxConnNum == old(servers)[addr].maxConnNum
                && servers[addr].callChan == old(servers)[addr].callChan
                && servers[addr].connList == old(servers)[addr].connList
                && totalWeight == Total(servers, OnlyNormal)
    {
      found := addr in servers;
      if found {
        servers := servers[addr := servers[addr].(status := status)];
        UpdateTotalWeight(order);
      }
      Step(P.ChangeServerStatus(addr, status));
    }

    // ----- connections -----

    /** removeConn's loop, from the back. */
    method RemoveConn(list: seq<nat>, n: nat) returns (rest: seq<nat>)
      requires PS.Distinct(list)
      ensures rest == P.Without(list, n) && Removed(list, n, rest)
    {
      var i := |list|;
      while i > 0
        invariant 0 <= i <= |list| && n !in list[i..]
      {
        i := i - 1;
        if list[i] == n {
          WithoutAt(list, n, i);
          return list[..i] + list[i + 1..];
        }
      }
      WithoutNobody(list, n);
      rest := list;
    }

    /** onConnShutdown's loop, from the front: the same list, because no connection is on it twice. */
    method OnConnShutdown(list: seq<nat>, n: nat) returns (rest: seq<nat>)
      requires PS.Distinct(list)
      ensures rest == P.Without(list, n) && Removed(list, n, rest)
    {
      var i := 0;
      while i < |list|
        invariant i <= |list| && n !in list[..i]
      {
        if list[i] == n {
          WithoutAt(list, n, i);
          return list[..i] + list[i + 1..];
        }
        i := i + 1;
      }
      WithoutNobody(list, n);
      rest := list;
    }

    // ----- one SendCall -----

    /** The read-locked part of chooseServerForReq. */
    method ChooseServer(call: Call, order: seq<string>, draw: int)
      returns (choice: Choice, direct: bool)
      requires Valid() && IsWalk(order, servers) && LegalDraw(draw, totalWeight)
      modifies this`failed, this`now
      ensures Valid() && now == P.Apply(old(now), P.Choose(call, order, draw))
      ensures choice == Select(order, servers, draw)
      ensures choice.Chosen? ==>
                && choice.addr in servers
                && var info := servers[choice.addr];
                   direct <==> |info.connList| > 0
                               && (|info.callChan| == 0 || |info.connList| >= info.maxConnNum)
      ensures |now.senders| == |old(now).senders| + 1
      ensures var x := now.senders[|old(now).senders|];
              x.call == call &&
              if choice.Chosen?
              then choice.addr in servers && failed == old(failed)
                   && x.pc == if direct then P.Enqueueing(choice.addr) else P.NeedConn(choice.addr)
              else failed == old(failed) + [call]
    {
      choice := GetServerInfo(order, draw);
      direct := false;
      if choice.Chosen? {
        var info := servers[choice.addr];
        var n := |info.connList|;
        direct := n > 0 && (info.callChan == [] || n >= info.maxConnNum);
      } else {
        failed := failed + [call];
      }
      Step(P.Choose(call, order, draw));
    }

    /** The write-locked part: the number of connections is read again. */
    method AddConn(addr: string, ghost k: nat) returns (conn: Option<nat>)
      requires Valid() && k < |now.senders| && now.senders[k].pc == P.NeedConn(addr) && addr in servers
      modifies this`servers, this`dialled, this`now
      ensures Valid() && now == P.Apply(old(now), P.TryAdd(k))
      ensures |now.senders| == |old(now.senders)| && now.senders[k].call == old(now.senders)[k].call
      ensures addr in servers && OnlyList(old(servers), servers, addr)
      ensures var info := old(servers)[addr];
              conn.Some? <==> |info.connList| == 0
                              || (|info.callChan| > 0 && |info.connList| < info.maxConnNum)
      ensures conn == None ==> servers == old(servers) && dialled == old(dialled)
      ensures conn.Some? ==> conn.value == old(dialled) && dialled == old(dialled) + 1
                             && servers[addr].connList == old(servers)[addr].connList + [conn.value]
      ensures now.senders[k].pc == match conn case Some(n) => P.Starting(addr, n)
                                              case None => P.Enqueueing(addr)
      ensures conn.Some? ==> conn.value < |now.conns| && !now.conns[conn.value].started
    {
      var info := servers[addr];
      var n := |info.connList|;
      conn := None;
      if n == 0 || (info.callChan != [] && n < info.maxConnNum) {
        conn := Some(dialled);
        servers := servers[addr := info.(connList := info.connList + [dialled])];
        dialled := dialled + 1;
      }
      Step(P.TryAdd(k));
    }

    /** What a failed dial does under the lock. */
    method DialFailed(addr: string, n: nat, ghost k: nat) returns (left: nat)
      requires Valid() && addr in servers && P.At(now, k) && now.senders[k].pc == P.Starting(addr, n)
      modifies this`servers, this`now
      ensures Valid() && now == P.Apply(old(now), P.StartFails(k))
      ensures |now.senders| == |old(now.senders)| && now.senders[k].call == old(now.senders)[k].call
      ensures addr in servers && OthersSame(old(servers), servers, addr)
      ensures Removed(old(servers)[addr].connList, n, servers[addr].connList)
      ensures left == |servers[addr].connList|
      ensures servers[addr].status == if left == 0 then ConnectFailed else old(servers)[addr].status
      ensures servers[addr].weight == old(servers)[addr].weight
      ensures servers[addr].maxConnNum == old(servers)[addr].maxConnNum
      ensures servers[addr].callChan == old(servers)[addr].callChan
      ensures now.senders[k].pc == if left == 0 then P.Draining(addr) else P.Enqueueing(addr)
    {
      PT.ReachedInv(now);
      assert PS.ListOk(servers[addr].connList, addr, now.conns);
      var info := servers[addr];
      var list := RemoveConn(info.connList, n);
      left := |list|;
      if left == 0 {
        servers := servers[addr := info.(connList := list, status := ConnectFailed)];
      } else {
        servers := servers[addr := info.(connList := list)];
      }
      Step(P.StartFails(k));
    }

    /** The first `i` calls of the queue have been completed. */
    ghost predicate DrainedTo(addr: string, k: nat, q: seq<Call>, i: nat, before: seq<Call>)
      reads this
    {
      && Valid() && addr in servers && P.At(now, k) && now.senders[k].pc == P.Draining(addr)
      && i <= |q| && servers[addr].callChan == q[i..] && failed == before + q[..i]
    }

    /** onConnectFailed's loop: with nobody else at the queue, each queued call is completed once, in
        the order of the queue, and the queue ends up empty. */
    method Drain(addr: string, ghost k: nat)
      requires Valid() && addr in servers && P.At(now, k) && now.senders[k].pc == P.Draining(addr)
      modifies this`servers, this`failed, this`now
      ensures Valid() && addr in servers && servers[addr].callChan == []
      ensures failed == old(failed) + old(servers)[addr].callChan
      ensures P.At(now, k) && now.senders == old(now.senders) && OnlyQueue(old(servers), servers, addr)
    {
      ghost var q, i, before := servers[addr].callChan, 0, failed;
      while servers[addr].callChan != []
        invariant DrainedTo(addr, k, q, i, before) && now.senders == old(now.senders)
        invariant OnlyQueue(old(servers), servers, addr)
        decreases |servers[addr].callChan|
      {
        DrainNext(addr, k);
        assert q[..i + 1] == q[..i] + [q[i]];
        i := i + 1;
      }
    }

    method DrainNext(addr: string, ghost k: nat)
      requires Valid() && addr in servers && P.At(now, k) && now.senders[k].pc == P.Draining(addr)
      requires servers[addr].callChan != []
      modifies this`servers, this`failed, this`now
      ensures Valid() && addr in servers && P.At(now, k) && now.senders == old(now.senders)
      ensures servers[addr].callChan == old(servers)[addr].callChan[1..]
      ensures failed == old(failed) + [old(servers)[addr].callChan[0]] && OnlyQueue(old(servers), servers, addr)
    {
      var info := servers[addr];
      failed := failed + [info.callChan[0]];
      servers := servers[addr := info.(callChan := info.callChan[1..])];
      Step(P.DrainOne(k));
    }

    /** The non-blocking send at the end of SendCall. */
    method Enqueue(addr: string, call: Call, ghost k: nat) returns (ok: bool)
      requires Valid() && addr in servers && P.At(now, k)
      requires now.senders[k] == P.Sender(call, P.Enqueueing(addr))
      modifies this`servers, this`failed, this`now
      ensures Valid() && now == P.Apply(old(now), P.Enqueue(k)) && |now.senders| == |old(now.senders)|
      ensures ok == (|old(servers)[addr].callChan| < maxWaitCall) && addr in servers
      ensures servers[addr].callChan == old(servers)[addr].callChan + if ok then [call] else []
      ensures failed == old(failed) + if ok then [] else [call]
      ensures now.senders[k].pc == P.Finished && OnlyQueue(old(servers), servers, addr)
    {
      var info := servers[addr];
      ok := |info.callChan| < maxWaitCall;
      if ok {
        servers := servers[addr := info.(callChan := info.callChan + [call])];
      } else {
        failed := failed + [call];
      }
      Step(P.Enqueue(k));
    }

    method DialOk(addr: string, n: nat, ghost k: nat)
      requires Valid() && addr in servers && P.At(now, k) && now.senders[k].pc == P.Starting(addr, n)
      modifies this`now
      ensures Valid() && now == P.Apply(old(now), P.StartOk(k))
      ensures |now.senders| == |old(now.senders)| && now.senders[k].call == old(now.senders)[k].call
      ensures P.At(now, k) && now.senders[k].pc == P.Enqueueing(addr)
      ensures n < |now.conns| && now.conns[n].started && now.conns[n].addr == old(now.conns)[n].addr
    {
      Step(P.StartOk(k));
    }

    /** onConnectFailed and the completion that follows it in SendCall. */
    method GiveUp(addr: string, call: Call, ghost k: nat)
      requires Valid() && addr in servers && P.At(now, k)
      requires now.senders[k] == P.Sender(call, P.Draining(addr))
      modifies this`servers, this`failed, this`now
      ensures Valid() && addr in servers && servers[addr].callChan == []
      ensures failed == old(failed) + old(servers)[addr].callChan + [call]
      ensures |now.senders| == |old(now.senders)| && now.senders[k].pc == P.Finished
      ensures OnlyQueue(old(servers), servers, addr)
    {
      Drain(addr, k);
      failed := failed + [call];
      Step(P.DrainOver(k));
    }

    /** The rest of chooseServerForReq once a connection seemed to be wanted. `dialOk`: how Start would go. */
    method Connect(addr: string, call: Call, dialOk: bool, ghost k: nat) returns (lost: bool)
      requires Valid() && addr in servers && k < |now.senders|
      requires now.senders[k] == P.Sender(call, P.NeedConn(addr))
      modifies this`servers, this`dialled, this`failed, this`now
      ensures Valid() && addr in servers && |now.senders| == |old(now.senders)|
      ensures lost <==> !dialOk && old(servers)[addr].connList == []
      ensures if Wanted(old(servers)[addr]) then AfterDial(old(servers), servers, addr, dialOk, old(dialled))
              else servers == old(servers)
      ensures lost ==> servers[addr].callChan == [] && now.senders[k].pc == P.Finished
                       && failed == old(failed) + old(servers)[addr].callChan + [call]
      ensures !lost ==> servers[addr].callChan == old(servers)[addr].callChan && failed == old(failed)
                        && now.senders[k] == P.Sender(call, P.Enqueueing(addr))
    {
      NewIsNotListed(now, addr);
      ghost var list := servers[addr].connList;
      var conn := AddConn(addr, k);
      lost := false;
      if conn.Some? {
        if dialOk {
          DialOk(addr, conn.value, k);
        } else {
          var left := DialFailed(addr, conn.value, k);
          RemovedLast(list, conn.value, servers[addr].connList);
          if left == 0 {
            GiveUp(addr, call, k);
            lost := true;
          }
        }
      }
    }

    /** SendCall, with nobody else at work. A connection is dialled exactly if the chosen server has none, or
        has calls waiting and room for one more. The call then ends up at the end of the chosen server's
        queue if that has room, and otherwise is completed once, with an error. Only if the server's last
        dial failed does it take other calls with it, and those are completed before it, in the order of
        their queue. Other servers, and weights, caps and the total, stay as they are. */
    method SendCall(call: Call, order: seq<string>, draw: int, dialOk: bool) returns (queued: bool)
      requires Valid() && IsWalk(order, servers) && LegalDraw(draw, totalWeight)
      modifies this
      ensures Valid() && |now.senders| == |old(now.senders)| + 1 && totalWeight == old(totalWeight)
      ensures now.senders[|old(now.senders)|].pc == P.Finished
      ensures var choice := Select(order, old(servers), draw);
              && (!choice.Chosen? ==> !queued && servers == old(servers) && failed == old(failed) + [call])
              && (choice.Chosen? ==> choice.addr in old(servers) && choice.addr in servers)
      ensures var choice := Select(order, old(servers), draw);
              choice.Chosen? ==>
                var was, info := old(servers)[choice.addr], servers[choice.addr];
                var lost := was.connList == [] && !dialOk;
                && (if Wanted(was) then AfterDial(old(servers), servers, choice.addr, dialOk, old(dialled))
                    else OnlyQueue(old(servers), servers, choice.addr))
                && (queued <==> !lost && |was.callChan| < maxWaitCall)
                && info.callChan == (if lost then [] else was.callChan + if queued then [call] else [])
                && failed == old(failed) + (if lost then was.callChan else []) + (if queued then [] else [call])
    {
      ghost var k := |now.senders|;
      var choice, direct := ChooseServer(call, order, draw);
      queued := false;
      if choice.Chosen? {
        var lost := false;
        if !direct {
          lost := Connect(choice.addr, call, dialOk, k);
        }
        if !lost {
          queued := Enqueue(choice.addr, call, k);
        }
      }
    }
  }

  /** After a dial the server has one more connection if it worked; if it did not, it has those it had, and
      without any it counts as failed. */
  ghost predicate AfterDial(was: Servers, m: Servers, addr: string, dialOk: bool, conn: nat)
    requires addr in was && addr in m
  {
    && OthersSame(was, m, addr)
    && m[addr].weight == was[addr].weight && m[addr].maxConnNum == was[addr].maxConnNum
    && m[addr].connList == was[addr].connList + (if dialOk then [conn] else [])
    && m[addr].status == if !dialOk && was[addr].connList == [] then ConnectFailed else was[addr].status
  }

  lemma NewIsNotListed(s: P.State, addr: string)
    requires P.Reached(s) && addr in s.servers
    ensures |s.conns| !in s.servers[addr].connList
  {
    PT.ReachedInv(s);
    assert PS.ListOk(s.servers[addr].connList, addr, s.conns);
  }

  lemma RemovedLast(list: seq<nat>, n: nat, rest: seq<nat>)
    requires n !in list && Removed(list + [n], n, rest)
    ensures rest == list
  {
    assert (list + [n])[|list|] == n;
    var i :| 0 <= i < |list + [n]| && (list + [n])[i] == n && rest == (list + [n])[..i] + (list + [n])[i + 1..];
    assert i == |list|;
  }

  lemma {:induction false} WithoutAt(list: seq<nat>, n: nat, i: nat)
    requires PS.Distinct(list) && i < |list| && list[i] == n
    ensures P.Without(list, n) == list[..i] + list[i + 1..]
  {
    if i > 0 {
      WithoutAt(list[1..], n, i - 1);
      assert list[..i] == [list[0]] + list[1..][..i - 1];
      assert list[1..][i..] == list[i + 1..];
    }
  }

  lemma {:induction false} WithoutNobody(list: seq<nat>, n: nat)
    requires n !in list
    ensures P.Without(list, n) == list
  {
    if list != [] {
      WithoutNobody(list[1..], n);
    }
  }

  lemma StartReached(maxWaitCall: nat)
    ensures P.Reached(P.Initial(maxWaitCall))
  {
    var s := P.Initial(maxWaitCall);
    assert P.CanRun(s, []) && P.After(s, []) == s;
  }

  lemma StepReached(s: P.State, a: P.Action)
    requires P.Reached(s) && P.Enabled(s, a)
    ensures P.Reached(P.Apply(s, a))
  {
    var s0 := P.Initial(s.maxWaitCall);
    var acts :| P.CanRun(s0, acts) && P.After(s0, acts) == s;
    PT.StepKeepsBound(s, a);
    P.RunLonger(s0, acts, a);
  }
}
