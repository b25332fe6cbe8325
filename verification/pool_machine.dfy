// A client with several servers, the connections they share a queue over, and any number of
// concurrent SendCall invocations (rpc/client.go). A step is a region under the client's lock, an
// operation on a queue, the outcome of a dial, or a step of one connection.
module PoolMachine {
  import opened RpcTypes
  import opened Selection
  import C = ClientMachine

  /** A connection. `client` moves only once Start has succeeded. */
  datatype Conn = Conn(addr: string, owner: nat, started: bool, client: C.State)

  /** One SendCall, by what it is about to do. */
  datatype SenderPc =
    | NeedConn(addr: string)                  // between the read lock and the write lock
    | Starting(addr: string, conn: nat)
    | Enqueueing(addr: string)
    | Draining(addr: string)                  // onConnectFailed
    | Finished

  datatype Sender = Sender(call: Call, pc: SenderPc)

  datatype State = State(
    maxWaitCall: nat,
    servers: Servers,
    totalWeight: int,
    conns: seq<Conn>,
    senders: seq<Sender>,
    // history
    addrs: seq<string>,           // the servers in the order in which they were added
    topMax: map<string, int>,     // the highest MaxConnNum each ever had
    refused: seq<Call>,           // completed with an error by SendCall or by a drain
    removed: seq<nat>,            // connections taken off their list, in order
    left: seq<string>             // servers that stopped being normal and still count in totalWeight
  )

  function Initial(maxWaitCall: nat): State {
    State(maxWaitCall, map[], 0, [], [], [], map[], [], [], [])
  }

  datatype Action =
    | AddServer(addr: string, weight: int, maxConnNum: int)
    | ChangeServerStatus(addr: string, status: Status)
    | Choose(call: Call, order: seq<string>, draw: int)
    | TryAdd(k: nat)
    | StartOk(k: nat)
    | StartFails(k: nat)
    | DrainOne(k: nat)
    | DrainOver(k: nat)
    | Enqueue(k: nat)
    | ByConn(n: nat, a: C.Action)

  function Max(a: int, b: int): int { if a < b then b else a }

  predicate At(s: State, k: nat) {
    k < |s.senders| &&
    match s.senders[k].pc
    case NeedConn(addr) => addr in s.servers
    case Starting(addr, n) => addr in s.servers && n < |s.conns| && !s.conns[n].started
    case Enqueueing(addr) => addr in s.servers
    case Draining(addr) => addr in s.servers
    case Finished => false
  }

  /** What a connection's step does to the queue it shares: the call it takes, if any. */
  function Takes(a: C.Action): Option<Call> {
    match a
    case Take(call) => Some(call)
    case BatchMore(call) => Some(call)
    case _ => None
  }

  /** A receive takes the head; the batching loop stops early only on an empty queue; nobody closes
      the queue. */
  predicate QueueAllows(chan: seq<Call>, c: C.State, a: C.Action) {
    && (Takes(a).Some? ==> chan != [] && chan[0] == Takes(a).value)
    && (a.BatchEnd? && c.writer.Batching? ==> chan == [] || |c.writer.group| > UNITE_PACKAGE_NUM)
    && !a.CloseQueue?
  }

  ghost predicate Enabled(s: State, a: Action) {
    match a
    case AddServer(_, _, _) => true
    case ChangeServerStatus(_, _) => true
    case Choose(_, order, draw) => IsWalk(order, s.servers) && LegalDraw(draw, s.totalWeight)
    case TryAdd(k) => At(s, k) && s.senders[k].pc.NeedConn?
    case StartOk(k) => At(s, k) && s.senders[k].pc.Starting?
    case StartFails(k) => At(s, k) && s.senders[k].pc.Starting?
    case DrainOne(k) => At(s, k) && s.senders[k].pc.Draining? && s.servers[s.senders[k].pc.addr].callChan != []
    case DrainOver(k) => At(s, k) && s.senders[k].pc.Draining? && s.servers[s.senders[k].pc.addr].callChan == []
    case Enqueue(k) => At(s, k) && s.senders[k].pc.Enqueueing?
    case ByConn(n, a) =>
      && n < |s.conns| && s.conns[n].started && s.conns[n].addr in s.servers
      && C.Enabled(s.conns[n].client, a)
      && QueueAllows(s.servers[s.conns[n].addr].callChan, s.conns[n].client, a)
      && |C.Apply(s.conns[n].client, a).sent| <= TWO_TO_THE_64
  }

  function SetPc(s: State, k: nat, pc: SenderPc): seq<Sender>
    requires k < |s.senders|
  {
    s.senders[k := s.senders[k].(pc := pc)]
  }

  /** removeConn and onConnShutdown: the list without its (only) entry for `n`. */
  function Without(list: seq<nat>, n: nat): seq<nat> {
    if list == [] then []
    else if list[0] == n then list[1..]
    else [list[0]] + Without(list[1..], n)
  }

  /** The read-locked part of chooseServerForReq. */
  function AfterChoice(s: State, call: Call, c: Choice): State {
    if c.Chosen? && c.addr in s.servers then
      var info := s.servers[c.addr];
      var n := |info.connList|;
      var direct := n > 0 && (info.callChan == [] || n >= info.maxConnNum);
      s.(senders := s.senders + [Sender(call, if direct then Enqueueing(c.addr) else NeedConn(c.addr))])
    else
      s.(senders := s.senders + [Sender(call, Finished)], refused := s.refused + [call])
  }

  /** The write-locked part: the number of connections is looked at again. */
  function AfterTry(s: State, k: nat): State
    requires At(s, k) && s.senders[k].pc.NeedConn?
  {
    var addr := s.senders[k].pc.addr;
    var info := s.servers[addr];
    var n := |info.connList|;
    if n == 0 || (info.callChan != [] && n < info.maxConnNum) then
      s.(servers := s.servers[addr := info.(connList := info.connList + [|s.conns|])],
         conns := s.conns + [Conn(addr, k, false, C.Initial(false))],
         senders := SetPc(s, k, Starting(addr, |s.conns|)))
    else s.(senders := SetPc(s, k, Enqueueing(addr)))
  }

  /** A dial failed: the connection is taken off the list, and the last one takes the server's status
      with it; totalWeight is not refreshed. */
  function AfterFailedStart(s: State, k: nat): State
    requires At(s, k) && s.senders[k].pc.Starting?
  {
    var addr, n := s.senders[k].pc.addr, s.senders[k].pc.conn;
    var info := s.servers[addr];
    var list := Without(info.connList, n);
    if list == [] then
      s.(servers := s.servers[addr := info.(connList := list, status := ConnectFailed)],
         senders := SetPc(s, k, Draining(addr)), removed := s.removed + [n],
         left := if info.status.Normal? then s.left + [addr] else s.left)
    else
      s.(servers := s.servers[addr := info.(connList := list)],
         senders := SetPc(s, k, Enqueueing(addr)), removed := s.removed + [n])
  }

  /** The non-blocking send at the end of SendCall. */
  function AfterEnqueue(s: State, k: nat): State
    requires At(s, k) && s.senders[k].pc.Enqueueing?
  {
    var addr, call := s.senders[k].pc.addr, s.senders[k].call;
    var info := s.servers[addr];
    var t := s.(senders := SetPc(s, k, Finished));
    if |info.callChan| < s.maxWaitCall then
      t.(servers := s.servers[addr := info.(callChan := info.callChan + [call])])
    else t.(refused := s.refused + [call])
  }

  function AfterConnStep(s: State, n: nat, a: C.Action): State
    requires n < |s.conns| && s.conns[n].addr in s.servers && C.Enabled(s.conns[n].client, a)
    requires QueueAllows(s.servers[s.conns[n].addr].callChan, s.conns[n].client, a)
  {
    var conn := s.conns[n];
    var info := s.servers[conn.addr];
    var t := s.(conns := s.conns[n := conn.(client := C.Apply(conn.client, a))]);
    if Takes(a).Some? then t.(servers := s.servers[conn.addr := info.(callChan := info.callChan[1..])])
    else if a.NotifyParent? then
      t.(servers := s.servers[conn.addr := info.(connList := Without(info.connList, n))],
         removed := s.removed + [n])
    else t
  }

  ghost function Apply(s: State, a: Action): State
    requires Enabled(s, a)
  {
    match a
    case AddServer(addr, weight, maxConnNum) =>
      var known := addr in s.servers;
      var info := if known then s.servers[addr].(weight := weight, maxConnNum := maxConnNum)
                  else ServerInfo(weight, maxConnNum, Normal, [], []);
      var servers := s.servers[addr := info];
      s.(servers := servers, totalWeight := Total(servers, OnlyNormal), left := [],
         addrs := if known then s.addrs else s.addrs + [addr],
         topMax := s.topMax[addr := if addr in s.topMax then Max(s.topMax[addr], maxConnNum) else maxConnNum])
    case ChangeServerStatus(addr, status) =>
      if addr in s.servers then
        var servers := s.servers[addr := s.servers[addr].(status := status)];
        s.(servers := servers, totalWeight := Total(servers, OnlyNormal), left := [])
      else s
    case Choose(call, order, draw) => AfterChoice(s, call, Select(order, s.servers, draw))
    case TryAdd(k) => AfterTry(s, k)
    case StartOk(k) =>
      var n := s.senders[k].pc.conn;
      s.(conns := s.conns[n := s.conns[n].(started := true)],
         senders := SetPc(s, k, Enqueueing(s.senders[k].pc.addr)))
    case StartFails(k) => AfterFailedStart(s, k)
    case DrainOne(k) =>
      var addr := s.senders[k].pc.addr;
      var info := s.servers[addr];
      s.(servers := s.servers[addr := info.(callChan := info.callChan[1..])],
         refused := s.refused + [info.callChan[0]])
    case DrainOver(k) => s.(senders := SetPc(s, k, Finished), refused := s.refused + [s.senders[k].call])
    case Enqueue(k) => AfterEnqueue(s, k)
    case ByConn(n, a) => AfterConnStep(s, n, a)
  }

  ghost predicate CanRun(s: State, acts: seq<Action>)
    decreases |acts|
  {
    acts == [] || (Enabled(s, acts[0]) && CanRun(Apply(s, acts[0]), acts[1..]))
  }

  ghost function After(s: State, acts: seq<Action>): State
    requires CanRun(s, acts)
    decreases |acts|
  {
    if acts == [] then s else After(Apply(s, acts[0]), acts[1..])
  }

  lemma {:induction false} RunLonger(s: State, acts: seq<Action>, a: Action)
    requires CanRun(s, acts) && Enabled(After(s, acts), a)
    ensures CanRun(s, acts + [a]) && After(s, acts + [a]) == Apply(After(s, acts), a)
    decreases |acts|
  {
    var more := acts + [a];
    if acts == [] {
      assert more == [a] && more[1..] == [];
    } else {
      assert more[1..] == acts[1..] + [a];
      RunLonger(Apply(s, acts[0]), acts[1..], a);
    }
  }

  ghost predicate Reached(s: State) {
    exists acts :: CanRun(Initial(s.maxWaitCall), acts) && After(Initial(s.maxWaitCall), acts) == s
  }
}
