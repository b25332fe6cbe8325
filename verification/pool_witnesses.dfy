// A call on its way through the client: submitted, queued, received by a connection and registered there.
module PoolWitnesses {
  import opened RpcTypes
  import opened Selection
  import opened PoolMachine
  import opened PoolStatus
  import C = ClientMachine

  /** The only connection has started and its only call is about to be queued, or was. */
  ghost predicate Serves(s: State, addr: string, call: Call, pc: SenderPc, queue: seq<Call>, client: C.State) {
    && s.servers == map[addr := ServerInfo(1, 1, Normal, queue, [0])]
    && s.senders == [Sender(call, pc)] && s.conns == [Conn(addr, 0, true, client)] && s.refused == []
  }

  lemma DialWorks(s: State, addr: string, call: Call) returns (t: State)
    requires Reached(s) && Dials(s, addr, call)
    ensures Reached(t) && Serves(t, addr, call, Enqueueing(addr), [], C.Initial(false))
    ensures t.maxWaitCall == s.maxWaitCall
  {
    ReachedNext(s, StartOk(0));
    t := Apply(s, StartOk(0));
  }

  lemma CallIsQueued(s: State, addr: string, call: Call) returns (t: State)
    requires Reached(s) && Serves(s, addr, call, Enqueueing(addr), [], C.Initial(false)) && s.maxWaitCall > 0
    ensures Reached(t) && Serves(t, addr, call, Finished, [call], C.Initial(false))
  {
    ReachedNext(s, Enqueue(0));
    t := Apply(s, Enqueue(0));
    assert t.servers[addr].callChan == [] + [call] == [call];
    assert t.servers == map[addr := t.servers[addr]];
  }

  function Holds(call: Call): C.State { C.Initial(false).(writer := C.Holding(call), taken := [call]) }

  lemma CallIsTaken(s: State, addr: string, call: Call) returns (t: State)
    requires Reached(s) && Serves(s, addr, call, Finished, [call], C.Initial(false))
    ensures Reached(t)
    ensures Serves(t, addr, call, Finished, [], Holds(call))
  {
    assert [] + [call] == [call];
    ReachedNext(s, ByConn(0, C.Take(call)));
    t := Apply(s, ByConn(0, C.Take(call)));
    assert t.servers[addr].callChan == [];
    assert t.servers == map[addr := t.servers[addr]];
  }

  lemma CallIsAdmitted(s: State, addr: string, call: Call) returns (t: State, client: C.State)
    requires Reached(s) && Serves(s, addr, call, Finished, [], Holds(call))
    ensures Reached(t) && Serves(t, addr, call, Finished, [], client)
    ensures client.sent == [call] && client.pending == map[0 := 0]
  {
    client := Holds(call).(seqNo := 1, pending := map[0 := 0], sent := [call], outcomes := [[]],
                           writer := C.Batching([C.Entry(0, 0)]));
    assert C.Apply(Holds(call), C.Admit) == client;
    ReachedNext(s, ByConn(0, C.Admit));
    t := Apply(s, ByConn(0, C.Admit));
  }

  /** With room in the queue and a dial that works, a call submitted to a new server is registered on the one
      connection that was dialled for it, and is the first there. */
  lemma CallIsRegistered(addr: string, call: Call, maxWaitCall: nat)
    requires maxWaitCall > 0
    ensures exists s, client ::
              && Reached(s) && Serves(s, addr, call, Finished, [], client)
              && client.sent == [call] && client.pending == map[0 := 0]
  {
    var s0 := OneDial(addr, call, maxWaitCall);
    var s1 := DialWorks(s0, addr, call);
    var s2 := CallIsQueued(s1, addr, call);
    var s3 := CallIsTaken(s2, addr, call);
    var s4, client := CallIsAdmitted(s3, addr, call);
  }
}
