// How many of the random draws go to each server.
module SelectionShare {
  import opened Selection

  /** The servers in order, with weights that are not negative. */
  ghost predicate Walked(order: seq<string>, m: Servers) {
    (forall i, j :: 0 <= i < j < |order| ==> order[i] != order[j]) &&
    (forall k :: k in order ==> k in m && m[k].weight >= 0)
  }

  /** Weights of those of the first `i` servers of the walk that are not paused. */
  function Front(order: seq<string>, m: Servers, i: nat): int
    requires i <= |order| && forall k :: k in order ==> k in m
  {
    if i == 0 then 0 else Share(m[order[0]], NotPaused) + Front(order[1..], m, i - 1)
  }

  /** Everybody before position `i` is paused. */
  predicate FirstUp(order: seq<string>, m: Servers, i: nat)
    requires i <= |order| && forall k :: k in order ==> k in m
  {
    forall j :: 0 <= j < i ==> m[order[j]].status.Paused?
  }

  lemma {:induction false} FrontGrows(order: seq<string>, m: Servers, i: nat)
    requires Walked(order, m) && i < |order|
    ensures Front(order, m, i + 1) == Front(order, m, i) + Share(m[order[i]], NotPaused)
    ensures 0 <= Front(order, m, i) <= Front(order, m, i + 1)
  {
    if i > 0 {
      FrontGrows(order[1..], m, i - 1);
    }
  }

  lemma FirstUpOfRest(order: seq<string>, m: Servers, i: nat)
    requires Walked(order, m) && 0 < i <= |order|
    ensures FirstUp(order, m, i) <==> m[order[0]].status.Paused? && FirstUp(order[1..], m, i - 1)
  {
    if m[order[0]].status.Paused? && FirstUp(order[1..], m, i - 1) {
      forall j | 0 <= j < i
        ensures m[order[j]].status.Paused?
      {
        assert j > 0 ==> order[1..][j - 1] == order[j];
      }
    }
  }

  lemma {:induction false} NothingBeforeFirstUp(order: seq<string>, m: Servers, i: nat)
    requires Walked(order, m) && i <= |order| && FirstUp(order, m, i)
    ensures Front(order, m, i) == 0
  {
    if i > 0 {
      FirstUpOfRest(order, m, i);
      NothingBeforeFirstUp(order[1..], m, i - 1);
    }
  }

  /** The draws that fall to the server at position `i`, if it is not paused: an interval of its weight,
      except that the first server that is not paused also gets draw 0, because the test is `>=`. */
  lemma {:induction false} SelectedAt(order: seq<string>, m: Servers, sum: int, draw: int, err: Choice, i: nat)
    requires Walked(order, m) && i < |order| && !err.Chosen?
    ensures SelectFrom(order, m, sum, draw, err) == Chosen(order[i]) <==>
              && !m[order[i]].status.Paused?
              && (FirstUp(order, m, i) || sum + Front(order, m, i) < draw)
              && draw <= sum + Front(order, m, i + 1)
  {
    var info, rest := m[order[0]], order[1..];
    if i == 0 {
      if info.status.Paused? {
        ChoosesFromWalk(rest, m, sum, draw, ServerPause);
      } else if sum + info.weight < draw {
        ChoosesFromWalk(rest, m, sum + info.weight, draw, err);
      }
    } else {
      FirstUpOfRest(order, m, i);
      FrontGrows(rest, m, i - 1);
      assert rest[i - 1] == order[i];
      if info.status.Paused? {
        SelectedAt(rest, m, sum, draw, ServerPause, i - 1);
      } else if sum + info.weight < draw {
        SelectedAt(rest, m, sum + info.weight, draw, err, i - 1);
        if FirstUp(rest, m, i - 1) {
          NothingBeforeFirstUp(rest, m, i - 1);
        }
      }
    }
  }

  lemma {:induction false} ChoosesFromWalk(order: seq<string>, m: Servers, sum: int, draw: int, err: Choice)
    requires Walked(order, m) && !err.Chosen?
    ensures var c := SelectFrom(order, m, sum, draw, err);
            c.Chosen? ==> c.addr in order
  {
    if order != [] {
      ChoosesFromWalk(order[1..], m, sum, draw, ServerPause);
      ChoosesFromWalk(order[1..], m, sum + m[order[0]].weight, draw, err);
    }
  }

  /** How many of the draws 0..n-1 go to `addr`. */
  function Wins(order: seq<string>, m: Servers, addr: string, n: nat): nat
    requires forall k :: k in order ==> k in m
  {
    if n == 0 then 0
    else Wins(order, m, addr, n - 1) + if Select(order, m, n - 1) == Chosen(addr) then 1 else 0
  }

  /** Size of the part of [lo, hi] below `n`. */
  function Overlap(lo: nat, hi: int, n: nat): int {
    var top := if hi < n then hi + 1 else n;
    if top <= lo then 0 else top - lo
  }

  /** The first draw that can fall to the server at position `i`. */
  function FirstDraw(order: seq<string>, m: Servers, i: nat): int
    requires i <= |order| && forall k :: k in order ==> k in m
  {
    if FirstUp(order, m, i) then 0 else Front(order, m, i) + 1
  }

  /** Exactly, for any map: a paused server wins nothing, and any other wins its interval, cut off at the
      number of draws. */
  lemma {:induction false} WinsExactly(order: seq<string>, m: Servers, i: nat, n: nat)
    requires Walked(order, m) && i < |order|
    ensures FirstDraw(order, m, i) >= 0
    ensures Wins(order, m, order[i], n) ==
            if m[order[i]].status.Paused? then 0
            else Overlap(FirstDraw(order, m, i), Front(order, m, i + 1), n)
  {
    FrontGrows(order, m, i);
    if n > 0 {
      WinsExactly(order, m, i, n - 1);
      SelectedAt(order, m, 0, n - 1, NoServer, i);
    }
  }

  /** Draws won by the first `k` servers of the walk. */
  function WinsOfFirst(order: seq<string>, m: Servers, draws: nat, k: nat): nat
    requires k <= |order| && forall a :: a in order ==> a in m
  {
    if k == 0 then 0 else WinsOfFirst(order, m, draws, k - 1) + Wins(order, m, order[k - 1], draws)
  }

  /** One more draw is won by the server it chooses. */
  lemma {:induction false} OneMoreDraw(order: seq<string>, m: Servers, draws: nat, k: nat)
    requires Walked(order, m) && k <= |order|
    ensures WinsOfFirst(order, m, draws + 1, k) == WinsOfFirst(order, m, draws, k) +
              if exists j :: 0 <= j < k && Select(order, m, draws) == Chosen(order[j]) then 1 else 0
  {
    if k > 0 {
      OneMoreDraw(order, m, draws, k - 1);
    }
  }

  /** If every draw chooses a server, the wins of all servers add up to the number of draws. */
  lemma {:induction false} WinsAddUp(order: seq<string>, m: Servers, draws: nat)
    requires Walked(order, m) && forall d :: 0 <= d < draws ==> Select(order, m, d).Chosen?
    ensures WinsOfFirst(order, m, draws, |order|) == draws
  {
    if draws == 0 {
      NothingWon(order, m, |order|);
    } else {
      WinsAddUp(order, m, draws - 1);
      OneMoreDraw(order, m, draws - 1, |order|);
      ChoosesFromWalk(order, m, 0, draws - 1, NoServer);
      assert Select(order, m, draws - 1).addr in order;
    }
  }

  lemma {:induction false} NothingWon(order: seq<string>, m: Servers, k: nat)
    requires Walked(order, m) && k <= |order|
    ensures WinsOfFirst(order, m, 0, k) == 0
  {
    if k > 0 {
      NothingWon(order, m, k - 1);
    }
  }

  /** How many draws `rand.Intn` can give; without a positive total there is only draw 0. */
  function Draws(totalWeight: int): nat { if totalWeight > 0 then totalWeight else 1 }

  lemma DrawsAreLegal(draw: int, totalWeight: int)
    ensures LegalDraw(draw, totalWeight) <==> 0 <= draw < Draws(totalWeight)
  {
  }

  /** The shares of all servers sum to the number of draws, as long as there is a server to choose and the
      total does not exceed the weights that are not paused. */
  lemma SharesAddUp(order: seq<string>, m: Servers, totalWeight: int)
    requires IsWalk(order, m) && NonNegative(m) && totalWeight <= Total(m, NotPaused)
    requires exists k :: k in m && !m[k].status.Paused?
    ensures WinsOfFirst(order, m, Draws(totalWeight), |order|) == Draws(totalWeight)
  {
    forall d | 0 <= d < Draws(totalWeight)
      ensures Select(order, m, d).Chosen?
    {
      DrawsAreLegal(d, totalWeight);
      SelectionIsTotal(order, m, totalWeight, d);
    }
    WinsAddUp(order, m, Draws(totalWeight));
  }

  // ----- all servers normal, the total in step -----

  /** All servers in order, normal and with a positive weight. */
  ghost predicate AllNormal(order: seq<string>, m: Servers) {
    Walked(order, m) && forall k :: k in order ==> m[k].status.Normal? && m[k].weight > 0
  }

  lemma {:induction false} FrontIsWeight(order: seq<string>, m: Servers)
    requires Walked(order, m)
    ensures Front(order, m, |order|) == Weight(order, m)
  {
    if order != [] {
      FrontIsWeight(order[1..], m);
    }
  }

  lemma TotalIsFront(order: seq<string>, m: Servers)
    requires IsWalk(order, m) && AllNormal(order, m)
    ensures Front(order, m, |order|) == Total(m, OnlyNormal)
  {
    FrontIsWeight(order, m);
    WeightIsSum(order, m);
    assert (set k | k in order) == m.Keys;
    NormalSumsAgree(m, m.Keys);
  }

  lemma {:induction false} NormalSumsAgree(m: Servers, keys: set<string>)
    requires keys <= m.Keys && forall k :: k in keys ==> m[k].status.Normal?
    ensures Sum(m, keys, OnlyNormal) == Sum(m, keys, NotPaused)
    decreases keys
  {
    if keys != {} {
      var k :| k in keys;
      SumWithout(m, keys, OnlyNormal, k);
      SumWithout(m, keys, NotPaused, k);
      NormalSumsAgree(m, keys - {k});
    }
  }

  lemma {:induction false} FrontFurther(order: seq<string>, m: Servers, i: nat)
    requires AllNormal(order, m) && i < |order|
    ensures Front(order, m, i) < Front(order, m, |order|)
    decreases |order| - i
  {
    FrontGrows(order, m, i);
    if i + 1 < |order| {
      FrontFurther(order, m, i + 1);
    }
  }

  /** Then the first server wins its weight plus one draws, the last its weight minus one, every other
      exactly its weight. */
  lemma WeightedShare(order: seq<string>, m: Servers, totalWeight: nat, i: nat)
    requires IsWalk(order, m) && AllNormal(order, m) && totalWeight == Total(m, OnlyNormal)
    requires i < |order|
    ensures Wins(order, m, order[i], totalWeight) ==
            m[order[i]].weight + (if i == 0 then 1 else 0) - (if i == |order| - 1 then 1 else 0)
  {
    TotalIsFront(order, m);
    WinsExactly(order, m, i, totalWeight);
    FrontGrows(order, m, i);
    assert FirstUp(order, m, i) <==> i == 0 by {
      assert i > 0 ==> !m[order[0]].status.Paused?;
    }
    if i < |order| - 1 {
      FrontFurther(order, m, i + 1);
    }
  }
}
