// Weighted random choice of a server (getServerInfo and updateTotalWeight of rpc/client.go). A Go map
// is walked in any order, so the order is an argument.
module Selection {
  import opened RpcTypes

  datatype Status = Normal | Paused | ConnectFailed

  datatype ServerInfo = ServerInfo(
    weight: int,
    maxConnNum: int,
    status: Status,
    callChan: seq<Call>,
    connList: seq<nat>)             // names of the connections

  type Servers = map<string, ServerInfo>

  datatype Choice = Chosen(addr: string) | NoServer | ServerPause

  /** One possible walk over the map. */
  ghost predicate IsWalk(order: seq<string>, m: Servers) {
    (forall i, j :: 0 <= i < j < |order| ==> order[i] != order[j]) &&
    (forall k :: k in order <==> k in m)
  }

  ghost predicate NonNegative(m: Servers) { forall k :: k in m ==> m[k].weight >= 0 }

  /** Which servers a sum is over. */
  datatype Kind = OnlyNormal | NotPaused

  function Share(info: ServerInfo, kind: Kind): int {
    if info.status.Normal? || (kind.NotPaused? && !info.status.Paused?) then info.weight else 0
  }

  // ----- sums do not depend on the walk -----

  ghost function Sum(m: Servers, keys: set<string>, kind: Kind): int
    requires keys <= m.Keys
  {
    if keys == {} then 0
    else
      var k :| k in keys;
      Share(m[k], kind) + Sum(m, keys - {k}, kind)
  }

  lemma {:induction false} SumWithout(m: Servers, keys: set<string>, kind: Kind, k: string)
    requires keys <= m.Keys && k in keys
    ensures Sum(m, keys, kind) == Share(m[k], kind) + Sum(m, keys - {k}, kind)
    decreases keys
  {
    var first :| first in keys && Sum(m, keys, kind) == Share(m[first], kind) + Sum(m, keys - {first}, kind);
    if first != k {
      SumWithout(m, keys - {first}, kind, k);
      SumWithout(m, keys - {k}, kind, first);
      assert keys - {first} - {k} == keys - {k} - {first};
    }
  }

  /** What updateTotalWeight's loop adds up. */
  function SumAlong(order: seq<string>, m: Servers, kind: Kind): int
    requires forall k :: k in order ==> k in m
  {
    if order == [] then 0
    else SumAlong(order[..|order| - 1], m, kind) + Share(m[order[|order| - 1]], kind)
  }

  lemma AllButLast(order: seq<string>)
    requires order != [] && forall i, j :: 0 <= i < j < |order| ==> order[i] != order[j]
    ensures var n := |order| - 1; (set k | k in order) - {order[n]} == set k | k in order[..n]
  {
    var n := |order| - 1;
    assert order == order[..n] + [order[n]];
  }

  lemma {:induction false} SumAlongIsSum(order: seq<string>, m: Servers, kind: Kind)
    requires forall k :: k in order ==> k in m
    requires forall i, j :: 0 <= i < j < |order| ==> order[i] != order[j]
    ensures SumAlong(order, m, kind) == Sum(m, (set k | k in order), kind)
  {
    var keys := set k | k in order;
    if order == [] {
      assert keys == {};
    } else {
      var n := |order| - 1;
      SumAlongIsSum(order[..n], m, kind);
      SumWithout(m, keys, kind, order[n]);
      AllButLast(order);
    }
  }

  /** Total share of the whole map. */
  ghost function Total(m: Servers, kind: Kind): int { Sum(m, m.Keys, kind) }

  lemma WalkSum(order: seq<string>, m: Servers, kind: Kind)
    requires IsWalk(order, m)
    ensures SumAlong(order, m, kind) == Total(m, kind)
  {
    SumAlongIsSum(order, m, kind);
    assert (set k | k in order) == m.Keys;
  }

  lemma {:induction false} SumsOrdered(m: Servers, keys: set<string>)
    requires keys <= m.Keys && NonNegative(m)
    ensures 0 <= Sum(m, keys, OnlyNormal) <= Sum(m, keys, NotPaused)
    decreases keys
  {
    if keys != {} {
      var k :| k in keys;
      SumWithout(m, keys, OnlyNormal, k);
      SumWithout(m, keys, NotPaused, k);
      SumsOrdered(m, keys - {k});
    }
  }

  lemma {:induction false} SumOfOthers(m: Servers, n: Servers, keys: set<string>, kind: Kind)
    requires keys <= m.Keys && keys <= n.Keys
    requires forall k :: k in keys ==> Share(n[k], kind) == Share(m[k], kind)
    ensures Sum(n, keys, kind) == Sum(m, keys, kind)
    decreases keys
  {
    if keys != {} {
      var k :| k in keys;
      SumWithout(m, keys, kind, k);
      SumWithout(n, keys, kind, k);
      SumOfOthers(m, n, keys - {k}, kind);
    }
  }

  /** A server's own part in a sum. */
  lemma TotalOfOthers(m: Servers, others: Servers, addr: string, kind: Kind)
    requires others.Keys == m.Keys - {addr} && forall a :: a in others ==> others[a] == m[a]
    ensures Total(m, kind) == Total(others, kind) + if addr in m then Share(m[addr], kind) else 0
  {
    if addr in m {
      SumWithout(m, m.Keys, kind, addr);
    } else {
      assert m.Keys - {addr} == m.Keys;
    }
    SumOfOthers(m, others, m.Keys - {addr}, kind);
  }

  /** Whatever happens to one server, the total moves by its weight or not at all: it counts before and
      after if and only if it is there and normal. */
  lemma TotalMoves(m: Servers, n: Servers, addr: string)
    requires forall a :: a != addr ==> (a in m <==> a in n) && (a in m ==> n[a] == m[a])
    ensures Total(n, OnlyNormal) - Total(m, OnlyNormal) ==
              (if addr in n && n[addr].status == Normal then n[addr].weight else 0)
              - (if addr in m && m[addr].status == Normal then m[addr].weight else 0)
    ensures m == map[] ==> Total(m, OnlyNormal) == 0
  {
    var others := m - {addr};
    assert n.Keys - {addr} == m.Keys - {addr};
    TotalOfOthers(m, others, addr, OnlyNormal);
    TotalOfOthers(n, others, addr, OnlyNormal);
  }

  // ----- the choice -----

  /** getServerInfo's loop from some point on: `sum` so far, `err` so far. */
  function SelectFrom(order: seq<string>, m: Servers, sum: int, draw: int, err: Choice): Choice
    requires forall k :: k in order ==> k in m
  {
    if order == [] then err
    else
      var info := m[order[0]];
      if info.status.Paused? then SelectFrom(order[1..], m, sum, draw, ServerPause)
      else if sum + info.weight >= draw then Chosen(order[0])
      else SelectFrom(order[1..], m, sum + info.weight, draw, err)
  }

  function Select(order: seq<string>, m: Servers, draw: int): Choice
    requires forall k :: k in order ==> k in m
  {
    SelectFrom(order, m, 0, draw, NoServer)
  }

  /** `rand.Intn(totalWeight)`, or 0 without a positive total. */
  predicate LegalDraw(draw: int, totalWeight: int) {
    if totalWeight > 0 then 0 <= draw < totalWeight else draw == 0
  }

  ghost predicate SomeNotPaused(order: seq<string>, m: Servers)
    requires forall k :: k in order ==> k in m
  {
    exists i :: 0 <= i < |order| && !m[order[i]].status.Paused?
  }

  /** Share of `order`, from the front. */
  function Weight(order: seq<string>, m: Servers): int
    requires forall k :: k in order ==> k in m
  {
    if order == [] then 0 else Share(m[order[0]], NotPaused) + Weight(order[1..], m)
  }

  lemma {:induction false} WeightIsSum(order: seq<string>, m: Servers)
    requires forall k :: k in order ==> k in m
    requires forall i, j :: 0 <= i < j < |order| ==> order[i] != order[j]
    ensures Weight(order, m) == Sum(m, (set k | k in order), NotPaused)
  {
    var keys := set k | k in order;
    if order == [] {
      assert keys == {};
    } else {
      WeightIsSum(order[1..], m);
      SumWithout(m, keys, NotPaused, order[0]);
      assert keys - {order[0]} == set k | k in order[1..];
    }
  }

  /** Exactly when the loop finds a server, for any draw: some server is not paused, and the weights of
      those that are not reach the draw. */
  lemma {:induction false} SelectFromExactly(order: seq<string>, m: Servers, sum: int, draw: int, err: Choice)
    requires forall k :: k in order ==> k in m
    requires NonNegative(m) && !err.Chosen?
    ensures var c := SelectFrom(order, m, sum, draw, err);
            && (c.Chosen? <==> SomeNotPaused(order, m) && sum + Weight(order, m) >= draw)
            && (c.Chosen? ==> c.addr in order && !m[c.addr].status.Paused?)
            && (!c.Chosen? ==> c == if exists k :: k in order && m[k].status.Paused? then ServerPause else err)
  {
    if order == [] {
    } else {
      var info, rest := m[order[0]], order[1..];
      assert forall k :: k in order <==> k == order[0] || k in rest;
      if info.status.Paused? {
        SelectFromExactly(rest, m, sum, draw, ServerPause);
      } else {
        SelectFromExactly(rest, m, sum + info.weight, draw, err);
        WeightNonNegative(rest, m);
      }
      if SomeNotPaused(rest, m) {
        var i :| 0 <= i < |rest| && !m[rest[i]].status.Paused?;
        assert order[i + 1] == rest[i];
      }
      if SomeNotPaused(order, m) && info.status.Paused? {
        var i :| 0 <= i < |order| && !m[order[i]].status.Paused?;
        assert rest[i - 1] == order[i];
      }
    }
  }

  lemma {:induction false} WeightNonNegative(order: seq<string>, m: Servers)
    requires forall k :: k in order ==> k in m
    requires NonNegative(m)
    ensures Weight(order, m) >= 0
    ensures !SomeNotPaused(order, m) ==> Weight(order, m) == 0
  {
    if order != [] {
      WeightNonNegative(order[1..], m);
      if SomeNotPaused(order[1..], m) {
        var i :| 0 <= i < |order[1..]| && !m[order[1..][i]].status.Paused?;
        assert order[i + 1] == order[1..][i];
      }
      assert !SomeNotPaused(order, m) ==> m[order[0]].status.Paused?;
    }
  }

  /** Selection is total and correct: with weights that are not negative and a total that does not
      exceed the weights that are not paused, every walk and every draw gives a server exactly when
      some server is not paused, and never a paused one; otherwise the error says whether there are
      servers at all. */
  lemma SelectionIsTotal(order: seq<string>, m: Servers, totalWeight: int, draw: int)
    requires IsWalk(order, m) && NonNegative(m)
    requires totalWeight <= Total(m, NotPaused) && LegalDraw(draw, totalWeight)
    ensures var c := Select(order, m, draw);
            && (c.Chosen? <==> exists k :: k in m && !m[k].status.Paused?)
            && (c.Chosen? ==> c.addr in m && !m[c.addr].status.Paused?)
            && (!c.Chosen? ==> c == if m == map[] then NoServer else ServerPause)
  {
    SelectFromExactly(order, m, 0, draw, NoServer);
    WeightIsSum(order, m);
    WeightNonNegative(order, m);
    assert (set k | k in order) == m.Keys;
    var c := Select(order, m, draw);
    if exists k :: k in m && !m[k].status.Paused? {
      var k :| k in m && !m[k].status.Paused?;
      var i :| 0 <= i < |order| && order[i] == k;
      assert SomeNotPaused(order, m);
    } else if m != map[] {
      var k :| k in m;
      assert k in order && m[k].status.Paused?;
    }
  }
}
