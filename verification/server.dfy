// TServer: which method a request means, and the status that is checked after every read
// (rpc/server.go). A service is known here by the names of its methods.
module RpcServer {
  datatype Status = New | Running | Stopping

  /** The two operations on the status, both compare-and-swap. */
  datatype StatusOp = Start | Halt

  function NextStatus(s: Status, op: StatusOp): Status {
    match op
    case Start => if s == New then Running else s
    case Halt => if s == Running then Stopping else s
  }

  function StatusAfter(s: Status, ops: seq<StatusOp>): Status
    decreases |ops|
  {
    if ops == [] then s else StatusAfter(NextStatus(s, ops[0]), ops[1..])
  }

  /** How many of the stops found the server running. */
  function StopsThatWork(s: Status, ops: seq<StatusOp>): nat
    decreases |ops|
  {
    if ops == [] then 0
    else (if ops[0] == Halt && s == Running then 1 else 0) + StopsThatWork(NextStatus(s, ops[0]), ops[1..])
  }

  lemma {:induction false} FromStopping(ops: seq<StatusOp>)
    ensures StatusAfter(Stopping, ops) == Stopping && StopsThatWork(Stopping, ops) == 0
  {
    if ops != [] {
      FromStopping(ops[1..]);
    }
  }

  lemma {:induction false} FromRunning(ops: seq<StatusOp>)
    ensures StatusAfter(Running, ops) == if Halt in ops then Stopping else Running
    ensures StopsThatWork(Running, ops) == if Halt in ops then 1 else 0
  {
    if ops != [] {
      assert Halt in ops <==> ops[0] == Halt || Halt in ops[1..];
      if ops[0] == Halt {
        FromStopping(ops[1..]);
      } else {
        FromRunning(ops[1..]);
      }
    }
  }

  /** Some start comes before some stop. */
  ghost predicate StartThenStop(ops: seq<StatusOp>) {
    exists i, j :: 0 <= i < j < |ops| && ops[i] == Start && ops[j] == Halt
  }

  /** Over any sequence of starts and stops of a new server: it is new until the first start, runs from then
      on, and is stopped for good by the first stop after that. Exactly one stop works if some start comes
      before some stop, and otherwise none does. */
  lemma {:induction false} StopsOnce(ops: seq<StatusOp>)
    ensures StatusAfter(New, ops) ==
              if Start !in ops then New else if StartThenStop(ops) then Stopping else Running
    ensures StopsThatWork(New, ops) == if StartThenStop(ops) then 1 else 0
  {
    if ops != [] {
      var rest := ops[1..];
      assert Start in ops <==> ops[0] == Start || Start in rest;
      if ops[0] == Start {
        FromRunning(rest);
        if Halt in rest {
          var j :| 0 <= j < |rest| && rest[j] == Halt;
          assert ops[0] == Start && ops[j + 1] == Halt;
        }
      } else {
        StopsOnce(rest);
        if StartThenStop(rest) {
          var i, j :| 0 <= i < j < |rest| && rest[i] == Start && rest[j] == Halt;
          assert ops[i + 1] == Start && ops[j + 1] == Halt;
        }
        if StartThenStop(ops) {
          var i, j :| 0 <= i < j < |ops| && ops[i] == Start && ops[j] == Halt;
          assert rest[i - 1] == Start && rest[j - 1] == Halt;
        }
      }
    }
  }

  datatype Lookup =
    | Found(service: string, methodName: string)
    | IllFormed
    | NoService
    | NoMethod
  {
    /** What goes back to the client as the error's text; it is never empty. */
    function Text(name: string): (r: string)
      requires !Found?
      ensures r != "" && |r| >= |name| && r[|r| - |name|..] == name
      ensures var what := r[..|r| - |name|];
              && (what == "rpc: service/method request ill-formed: " <==> IllFormed?)
              && (what == "rpc: can't find service " <==> NoService?)
              && (what == "rpc: can't find method " <==> NoMethod?)
    {
      match this
      case IllFormed => "rpc: service/method request ill-formed: " + name
      case NoService => "rpc: can't find service " + name
      case NoMethod => "rpc: can't find method " + name
    }
  }

  /** The name of method `m` of service `s` on the wire. */
  function FullName(s: string, m: string): string { s + "." + m }

  predicate IsLookup(services: map<string, set<string>>, name: string, r: Lookup) {
    match r
    case Found(s, m) =>
      name == FullName(s, m) && '.' !in s && s in services && m in services[s]
    case IllFormed => '.' !in name
    case NoService =>
      exists i :: 0 <= i < |name| && name[i] == '.' && '.' !in name[..i] && name[..i] !in services
    case NoMethod =>
      exists i :: 0 <= i < |name| && name[i] == '.' && '.' !in name[..i]
                  && name[..i] in services && name[i + 1..] !in services[name[..i]]
  }

  class Server {
    var status: Status
    var services: map<string, set<string>>
    var conns: seq<nat>              // serverConnList
    var stopsTold: seq<nat>          // connections told to stop reading

    constructor (services: map<string, set<string>>)
      ensures status == New && conns == [] && stopsTold == [] && this.services == services
    {
      status, conns, stopsTold := New, [], [];
      this.services := services;
    }

    /** strings.Index(name, "."), or the length if there is no dot. */
    method IndexOfDot(name: string) returns (i: nat)
      ensures i <= |name| && '.' !in name[..i] && (i < |name| ==> name[i] == '.')
    {
      i := 0;
      while i < |name| && name[i] != '.'
        invariant i <= |name| && '.' !in name[..i]
      {
        i := i + 1;
      }
    }

    /** getSeviceMethod: the name is cut at its first dot. */
    method GetServiceMethod(name: string) returns (r: Lookup)
      ensures IsLookup(services, name, r)
      ensures r.Found? ==> name != ""
    {
      var dot := IndexOfDot(name);
      if dot == |name| {
        assert name[..dot] == name;
        return IllFormed;
      }
      var service, methodName := name[..dot], name[dot + 1..];
      assert name == FullName(service, methodName);
      if service !in services {
        return NoService;
      }
      if methodName !in services[service] {
        return NoMethod;
      }
      r := Found(service, methodName);
    }

    /** Start's compare-and-swap. */
    method MarkRunning()
      modifies this`status
      ensures status == NextStatus(old(status), Start)
      ensures if old(status) == New then status == Running else status == old(status)
    {
      if status == New {
        status := Running;
      }
    }

    /** Stop works once, and only on a running server: it then tells every connection, in the order of
        the list. */
    method Stop() returns (stopped: bool)
      modifies this`status, this`stopsTold
      ensures stopped <==> old(status) == Running
      ensures status == NextStatus(old(status), Halt)
      ensures stopped ==> status == Stopping && stopsTold == old(stopsTold) + conns
      ensures !stopped ==> status == old(status) && stopsTold == old(stopsTold)
    {
      stopped := status == Running;
      if stopped {
        status := Stopping;
        var i := 0;
        while i < |conns|
          invariant i <= |conns| && status == Stopping && stopsTold == old(stopsTold) + conns[..i]
        {
          assert conns[..i + 1] == conns[..i] + [conns[i]];
          stopsTold := stopsTold + [conns[i]];
          i := i + 1;
        }
        assert conns[..|conns|] == conns;
      }
    }

    /** OneServerConnStop's loop: the first entry for the connection goes, the others keep their order. */
    method OneServerConnStop(conn: nat)
      modifies this`conns
      ensures conn !in old(conns) ==> conns == old(conns)
      ensures conn in old(conns) ==>
                exists i :: 0 <= i < |old(conns)| && old(conns)[i] == conn && conn !in old(conns)[..i]
                            && conns == old(conns)[..i] + old(conns)[i + 1..]
    {
      var i := 0;
      while i < |conns|
        invariant i <= |conns| && conns == old(conns) && conn !in conns[..i]
      {
        if conns[i] == conn {
          conns := conns[..i] + conns[i + 1..];
          return;
        }
        i := i + 1;
      }
    }
  }

  /** There is one answer to a lookup. */
  lemma LookupIsUnique(services: map<string, set<string>>, name: string, q: Lookup, r: Lookup)
    requires IsLookup(services, name, q) && IsLookup(services, name, r)
    ensures q == r
  {
    if '.' in name {
      var i := FirstDot(name);
      CutAtFirstDot(services, name, q, i);
      CutAtFirstDot(services, name, r, i);
    } else {
      DotMeansDot(services, name, q);
      DotMeansDot(services, name, r);
    }
  }

  function FirstDot(name: string): (i: nat)
    requires '.' in name
    ensures i < |name| && name[i] == '.' && '.' !in name[..i]
  {
    if name[0] == '.' then 0 else 1 + FirstDot(name[1..])
  }

  lemma DotMeansDot(services: map<string, set<string>>, name: string, r: Lookup)
    requires IsLookup(services, name, r) && '.' !in name
    ensures r == IllFormed
  {
  }

  lemma DotShows(name: string, i: nat, j: nat)
    requires i < j <= |name| && name[i] == '.'
    ensures '.' in name[..j] && '.' in name
  {
    assert name[..j][i] == '.';
  }

  lemma SamePlace(name: string, i: nat, j: nat)
    requires i < |name| && name[i] == '.' && '.' !in name[..i]
    requires j < |name| && name[j] == '.' && '.' !in name[..j]
    ensures i == j
  {
    if i < j {
      DotShows(name, i, j);
    } else if j < i {
      DotShows(name, j, i);
    }
  }

  lemma CutAtFirstDot(services: map<string, set<string>>, name: string, r: Lookup, i: nat)
    requires IsLookup(services, name, r)
    requires i < |name| && name[i] == '.' && '.' !in name[..i]
    ensures r == if name[..i] !in services then NoService
                 else if name[i + 1..] !in services[name[..i]] then NoMethod
                 else Found(name[..i], name[i + 1..])
  {
    match r
    case Found(s, m) =>
      assert name[..|s|] == s && name[|s|] == '.' && name[|s| + 1..] == m;
      SamePlace(name, i, |s|);
    case IllFormed =>
    case NoService =>
      var j :| 0 <= j < |name| && name[j] == '.' && '.' !in name[..j] && name[..j] !in services;
      SamePlace(name, i, j);
    case NoMethod =>
      var j :| 0 <= j < |name| && name[j] == '.' && '.' !in name[..j]
               && name[..j] in services && name[j + 1..] !in services[name[..j]];
      SamePlace(name, i, j);
  }

  /** A registered method is found under its own name if and only if its service's name has no dot: a
      service that RegisterName accepted under a dotted name is never found, unless another service
      and method happen to spell the same. */
  lemma FoundByOwnName(services: map<string, set<string>>, s: string, m: string, r: Lookup)
    requires s in services && m in services[s] && IsLookup(services, FullName(s, m), r)
    ensures r == Found(s, m) <==> '.' !in s
  {
    var name := FullName(s, m);
    if '.' !in s {
      assert name[..|s|] == s && name[|s|] == '.' && name[|s| + 1..] == m;
      CutAtFirstDot(services, name, r, |s|);
    }
  }
}
