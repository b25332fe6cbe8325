// When pings are transparent to a server connection. Erasing pings from a run gives a run with the same
// requests, answers and counter if and only if no ping was in the loop's hand when that decided whether
// a Done panics.
module ServerPing {
  import opened RpcTypes
  import opened Counting
  import opened ServerMachine
  import opened ServerSafety
  import opened ServerAnswers

  predicate PingBusy(loop: Loop) {
    loop.PingReplying? || loop.PingReplied? || (loop.Returned? && loop.res.Ping?)
  }

  /** Done calls owed for the ping in hand. */
  function PingDebt(loop: Loop): nat { B(loop.PingReplying? || loop.PingReplied?) }

  /** The same connection as if the ping in hand had not been received. `mine` says whether this ping is
      one of those that are erased; a step that reads a ping carries that ping's own `mine`. */
  function WithoutPing(s: State, mine: bool): State {
    if mine && PingBusy(s.loop) then s.(loop := Reading, wg := s.wg - PingDebt(s.loop)) else s
  }

  predicate LoopActs(a: Action) { ReadStep(a) || LoopStep(a) }

  predicate ReadsPing(a: Action) { a.ReadHead? && a.head.IsPing() }

  /** What the connection without pings does while this one does `a`: nothing while this one serves a
      ping; and where Stop finds this one with a ping just read, that one's read is cut short. */
  function Instead(s: State, mine: bool, a: Action): seq<Action> {
    if mine && PingBusy(s.loop) && LoopActs(a) then
      if a.Check? && !s.running then [ReadHeadFails, Check] else []
    else if mine && ReadsPing(a) then []
    else [a]
  }

  /** A step at which the ping in hand makes a difference: a Done of the response writer that panics without
      the ping and not with it, or the ping's own Done if it panics. */
  predicate Disturbs(s: State, mine: bool, a: Action) {
    mine && PingDebt(s.loop) == 1 &&
    if a.WSettle? then s.wg == 1 else a.Settle? && s.wg < 1
  }

  /** `t` does `acts` and ends as `u`. */
  ghost predicate Leads(t: State, acts: seq<Action>, u: State) {
    CanRun(t, acts) && After(t, acts) == u
  }

  // ----- the others go on while the loop serves a ping -----

  ghost predicate Served(s: State, a: Action) { PingBusy(s.loop) && Enabled(s, a) }

  ghost predicate Unaffected(s: State, a: Action)
    requires Enabled(s, a)
  {
    Enabled(WithoutPing(s, true), a) && WithoutPing(Apply(s, a), true) == Apply(WithoutPing(s, true), a)
  }

  lemma ReturnUnaffected(s: State, who: nat, result: ServerMachine.Result)
    requires Served(s, Return(who, result))
    ensures Unaffected(s, Return(who, result))
  {
  }

  lemma HandlerPanicsUnaffected(s: State, who: nat)
    requires Served(s, HandlerPanics(who))
    ensures Unaffected(s, HandlerPanics(who))
  {
  }

  lemma DeliverUnaffected(s: State, who: nat)
    requires Served(s, Deliver(who))
    ensures Unaffected(s, Deliver(who))
  {
  }

  lemma DummyReturnsUnaffected(s: State, who: nat)
    requires Served(s, DummyReturns(who))
    ensures Unaffected(s, DummyReturns(who))
  {
  }

  lemma DummyPanicsUnaffected(s: State, who: nat)
    requires Served(s, DummyPanics(who))
    ensures Unaffected(s, DummyPanics(who))
  {
  }

  lemma WTakeUnaffected(s: State)
    requires Served(s, WTake)
    ensures Unaffected(s, WTake)
  {
  }

  lemma WClosedUnaffected(s: State)
    requires Served(s, WClosed)
    ensures Unaffected(s, WClosed)
  {
  }

  lemma WMoreUnaffected(s: State)
    requires Served(s, WMore)
    ensures Unaffected(s, WMore)
  {
  }

  lemma WDropUnaffected(s: State)
    requires Served(s, WDrop)
    ensures Unaffected(s, WDrop)
  {
  }

  lemma WEnoughUnaffected(s: State)
    requires Served(s, WEnough)
    ensures Unaffected(s, WEnough)
  {
  }

  lemma WSendUnaffected(s: State)
    requires Served(s, WSend)
    ensures Unaffected(s, WSend)
  {
  }

  lemma WSettleUnaffected(s: State)
    requires Served(s, WSettle) && !Disturbs(s, true, WSettle)
    ensures Unaffected(s, WSettle)
  {
  }

  lemma StopUnaffected(s: State)
    requires Served(s, Stop)
    ensures Unaffected(s, Stop)
  {
  }

  lemma OthersUnaffected(s: State, a: Action)
    requires Served(s, a) && !LoopActs(a) && !Disturbs(s, true, a)
    ensures Unaffected(s, a)
  {
    match a {
      case Return(who, result) => ReturnUnaffected(s, who, result);
      case HandlerPanics(who) => HandlerPanicsUnaffected(s, who);
      case Deliver(who) => DeliverUnaffected(s, who);
      case DummyReturns(who) => DummyReturnsUnaffected(s, who);
      case DummyPanics(who) => DummyPanicsUnaffected(s, who);
      case WTake => WTakeUnaffected(s);
      case WClosed => WClosedUnaffected(s);
      case WMore => WMoreUnaffected(s);
      case WDrop => WDropUnaffected(s);
      case WEnough => WEnoughUnaffected(s);
      case WSend => WSendUnaffected(s);
      case WSettle => WSettleUnaffected(s);
      case Stop => StopUnaffected(s);
      case _ =>
    }
  }

  // ----- the loop serves the ping -----

  lemma CheckPing(s: State)
    requires Served(s, Check)
    ensures Leads(WithoutPing(s, true), Instead(s, true, Check), WithoutPing(Apply(s, Check), true))
  {
    if !s.running {
      var t := s.(loop := Returned(Fatal));
      assert Apply(WithoutPing(s, true), ReadHeadFails) == t;
      assert [ReadHeadFails, Check][1..] == [Check] && [Check][1..] == [];
      assert s.log.(discarded := s.log.discarded + []) == s.log;
      assert CanRun(t, [Check]) && After(t, [Check]) == Apply(t, Check);
    }
  }

  lemma AnswerPing(s: State, a: Action)
    requires Served(s, a) && (a.PingReply? || a.Settle?) && !Disturbs(s, true, a)
    ensures WithoutPing(Apply(s, a), true) == WithoutPing(s, true)
  {
  }

  lemma ReceivePing(s: State, head: RequestHeader, known: bool, text: string)
    requires Enabled(s, ReadHead(head, known, text)) && head.IsPing()
    ensures WithoutPing(Apply(s, ReadHead(head, known, text)), true) == s
  {
  }

  /** Only reading a ping starts serving one. */
  lemma ReadStaysOutside(s: State, a: Action)
    requires Enabled(s, a) && !PingBusy(s.loop) && ReadStep(a) && !ReadsPing(a)
    ensures !PingBusy(Apply(s, a).loop)
  {
  }

  lemma LoopStaysOutside(s: State, a: Action)
    requires Enabled(s, a) && !PingBusy(s.loop) && LoopStep(a)
    ensures !PingBusy(Apply(s, a).loop)
  {
  }

  lemma OthersStayOutside(s: State, a: Action)
    requires Enabled(s, a) && !LoopActs(a)
    ensures PingBusy(Apply(s, a).loop) <==> PingBusy(s.loop)
  {
  }

  // ----- one step -----

  lemma {:induction false} LeadsOn(t: State, first: seq<Action>, u: State, rest: seq<Action>, v: State)
    requires Leads(t, first, u) && Leads(u, rest, v)
    ensures Leads(t, first + rest, v)
    decreases |first|
  {
    if first == [] {
      assert first + rest == rest;
    } else {
      LeadsOn(Apply(t, first[0]), first[1..], u, rest, v);
      assert (first + rest)[1..] == first[1..] + rest;
    }
  }

  lemma OneStep(t: State, a: Action)
    requires Enabled(t, a)
    ensures Leads(t, [a], Apply(t, a))
  {
    assert [a][1..] == [];
  }

  lemma StepIsTransparent(s: State, mine: bool, a: Action)
    requires Enabled(s, a) && !Disturbs(s, mine, a)
    ensures Leads(WithoutPing(s, mine), Instead(s, mine, a), WithoutPing(Apply(s, a), mine))
  {
    if !mine {
      OneStep(s, a);
    } else if PingBusy(s.loop) {
      if !LoopActs(a) {
        OthersUnaffected(s, a);
        OneStep(WithoutPing(s, true), a);
      } else if a.Check? {
        CheckPing(s);
      } else {
        assert a.PingReply? || a.Settle?;
        AnswerPing(s, a);
      }
    } else if ReadsPing(a) {
      ReceivePing(s, a.head, a.known, a.text);
    } else {
      OneStep(s, a);
      if ReadStep(a) {
        ReadStaysOutside(s, a);
      } else if LoopStep(a) {
        LoopStaysOutside(s, a);
      } else {
        OthersStayOutside(s, a);
      }
    }
  }

  // ----- a disturbance is never repaired -----

  /** With pings the loop is gone and without them it is not, or without pings only the writer is gone. */
  ghost predicate Diverged(s: State, u: State) {
    (s.loop.LoopExited? && !u.loop.LoopExited?) || (!s.writer.WExited? && u.writer.WExited?)
  }

  lemma DisturbanceDiverges(s: State, mine: bool, a: Action, u: State)
    requires Enabled(s, a) && Disturbs(s, mine, a)
    requires Leads(WithoutPing(s, mine), Instead(s, mine, a), u)
    ensures Diverged(Apply(s, a), u)
  {
    if a.WSettle? {
      OneStep(WithoutPing(s, mine), a);
    }
  }

  ghost predicate BothDiverged(s: State, mine: bool, a: Action, u: State) {
    Diverged(s, u) && Enabled(s, a) && CanRun(u, Instead(s, mine, a))
  }

  lemma LoopKeepsWriter(s: State, a: Action)
    requires Enabled(s, a) && LoopActs(a)
    ensures Apply(s, a).writer == s.writer && !s.loop.LoopExited?
  {
  }

  /** The loop serves the erased ping. */
  lemma ServingKeepsDiverged(s: State, a: Action, u: State)
    requires BothDiverged(s, true, a, u) && PingBusy(s.loop) && LoopActs(a)
    ensures Diverged(Apply(s, a), After(u, Instead(s, true, a)))
  {
    LoopKeepsWriter(s, a);
    if a.Check? && !s.running {
      assert [ReadHeadFails, Check][1..] == [Check] && [Check][1..] == [];
      assert After(u, [ReadHeadFails, Check]) == Apply(Apply(u, ReadHeadFails), Check);
    }
  }

  /** Both loops do the same. */
  lemma LoopKeepsDiverged(s: State, mine: bool, a: Action, u: State)
    requires BothDiverged(s, mine, a, u) && LoopActs(a) && Instead(s, mine, a) == [a]
    ensures Diverged(Apply(s, a), After(u, [a]))
  {
    OneStep(u, a);
    LoopKeepsWriter(s, a);
    LoopKeepsWriter(u, a);
  }

  predicate WriterActs(a: Action) {
    a.WTake? || a.WClosed? || a.WMore? || a.WDrop? || a.WEnough? || a.WSend? || a.WSettle?
  }

  lemma RestKeepsRest(s: State, a: Action)
    requires Enabled(s, a) && !LoopActs(a)
    ensures var t := Apply(s, a);
            && (t.loop.LoopExited? <==> s.loop.LoopExited?) && (WriterActs(a) ==> !s.writer.WExited?)
            && (!WriterActs(a) ==> t.writer == s.writer)
  {
  }

  lemma RestKeepsDiverged(s: State, mine: bool, a: Action, u: State)
    requires BothDiverged(s, mine, a, u) && !LoopActs(a)
    ensures Diverged(Apply(s, a), After(u, [a]))
  {
    OneStep(u, a);
    RestKeepsRest(s, a);
    RestKeepsRest(u, a);
  }

  lemma StepKeepsDiverged(s: State, mine: bool, a: Action, u: State)
    requires BothDiverged(s, mine, a, u)
    ensures Diverged(Apply(s, a), After(u, Instead(s, mine, a)))
  {
    if !LoopActs(a) {
      RestKeepsDiverged(s, mine, a, u);
    } else if mine && PingBusy(s.loop) {
      ServingKeepsDiverged(s, a, u);
    } else if mine && ReadsPing(a) {
      LoopKeepsWriter(s, a);
    } else {
      LoopKeepsDiverged(s, mine, a, u);
    }
  }

  // ----- whole runs -----

  /** The run without any ping. */
  ghost function Erase(s: State, acts: seq<Action>): seq<Action>
    requires CanRun(s, acts)
    decreases |acts|
  {
    if acts == [] then [] else Instead(s, true, acts[0]) + Erase(Apply(s, acts[0]), acts[1..])
  }

  /** No step of the run is one that a ping in hand makes a difference to. */
  ghost predicate Undisturbed(s: State, acts: seq<Action>)
    requires CanRun(s, acts)
    decreases |acts|
  {
    acts == [] || (!Disturbs(s, true, acts[0]) && Undisturbed(Apply(s, acts[0]), acts[1..]))
  }

  lemma {:induction false} PingsAreTransparent(s: State, acts: seq<Action>)
    requires CanRun(s, acts) && Undisturbed(s, acts)
    ensures Leads(WithoutPing(s, true), Erase(s, acts), WithoutPing(After(s, acts), true))
    decreases |acts|
  {
    if acts != [] {
      var a, t := acts[0], Apply(s, acts[0]);
      PingsAreTransparent(t, acts[1..]);
      StepIsTransparent(s, true, a);
      LeadsOn(WithoutPing(s, true), Instead(s, true, a), WithoutPing(t, true), Erase(t, acts[1..]),
              WithoutPing(After(s, acts), true));
    }
  }

  lemma {:induction false} RunSplits(t: State, first: seq<Action>, rest: seq<Action>)
    requires CanRun(t, first + rest)
    ensures CanRun(t, first) && CanRun(After(t, first), rest)
    ensures After(t, first + rest) == After(After(t, first), rest)
    decreases |first|
  {
    if first == [] {
      assert first + rest == rest;
    } else {
      assert (first + rest)[1..] == first[1..] + rest;
      RunSplits(Apply(t, first[0]), first[1..], rest);
    }
  }

  lemma {:induction false} StaysDiverged(s: State, acts: seq<Action>, u: State)
    requires CanRun(s, acts) && CanRun(u, Erase(s, acts)) && Diverged(s, u)
    ensures Diverged(After(s, acts), After(u, Erase(s, acts)))
    decreases |acts|
  {
    if acts != [] {
      var first, t := Instead(s, true, acts[0]), Apply(s, acts[0]);
      RunSplits(u, first, Erase(t, acts[1..]));
      StepKeepsDiverged(s, true, acts[0], u);
      StaysDiverged(t, acts[1..], After(u, first));
    }
  }

  lemma {:induction false} DisturbedDiverges(s: State, acts: seq<Action>)
    requires CanRun(s, acts) && !Undisturbed(s, acts)
    requires CanRun(WithoutPing(s, true), Erase(s, acts))
    ensures Diverged(After(s, acts), After(WithoutPing(s, true), Erase(s, acts)))
    decreases |acts|
  {
    var a, t, u := acts[0], Apply(s, acts[0]), WithoutPing(s, true);
    var first, rest := Instead(s, true, a), Erase(t, acts[1..]);
    RunSplits(u, first, rest);
    if Disturbs(s, true, a) {
      DisturbanceDiverges(s, true, a, After(u, first));
      StaysDiverged(t, acts[1..], After(u, first));
    } else {
      StepIsTransparent(s, true, a);
      DisturbedDiverges(t, acts[1..]);
    }
  }

  lemma {:induction false} NoPingRead(s: State, acts: seq<Action>)
    requires CanRun(s, acts)
    ensures forall a :: a in Erase(s, acts) ==> !ReadsPing(a)
    decreases |acts|
  {
    if acts != [] {
      NoPingRead(Apply(s, acts[0]), acts[1..]);
    }
  }

  /** A run without pings ends in the same state, but for the loop and the counter while a ping is being
      served. */
  ghost predicate SameService(s: State, t: State) {
    t.(loop := s.loop, wg := s.wg) == s && (!PingBusy(s.loop) ==> t == s)
  }

  /** Ping transparency, exactly: the run without its pings can be taken and ends with the same requests,
      results, answers, channel, workers and writer, and between pings with the same loop and the same
      pendingWg too, if and only if no step of the run was disturbed by a ping in hand. */
  lemma PingTransparency(acts: seq<Action>)
    requires CanRun(Initial(), acts)
    ensures Undisturbed(Initial(), acts) <==>
              && CanRun(Initial(), Erase(Initial(), acts))
              && SameService(After(Initial(), acts), After(Initial(), Erase(Initial(), acts)))
    ensures forall a :: a in Erase(Initial(), acts) ==> !ReadsPing(a)
  {
    NoPingRead(Initial(), acts);
    if Undisturbed(Initial(), acts) {
      PingsAreTransparent(Initial(), acts);
    } else if CanRun(Initial(), Erase(Initial(), acts)) {
      DisturbedDiverges(Initial(), acts);
      NotTheSame(After(Initial(), acts), After(Initial(), Erase(Initial(), acts)));
    }
  }

  lemma NotTheSame(s: State, t: State)
    requires Diverged(s, t)
    ensures !SameService(s, t)
  {
  }

  lemma ReadKeepsTwice(s: State, a: Action)
    requires Enabled(s, a) && ReadStep(a)
    ensures s.log.twice <= Apply(s, a).log.twice
  {
  }

  lemma LoopKeepsTwice(s: State, a: Action)
    requires Enabled(s, a) && LoopStep(a)
    ensures s.log.twice <= Apply(s, a).log.twice
  {
  }

  lemma RestKeepsTwice(s: State, a: Action)
    requires Enabled(s, a) && !LoopActs(a)
    ensures s.log.twice <= Apply(s, a).log.twice
  {
  }

  lemma TwiceStays(s: State, a: Action)
    requires Enabled(s, a)
    ensures s.log.twice <= Apply(s, a).log.twice
  {
    if ReadStep(a) {
      ReadKeepsTwice(s, a);
    } else if LoopStep(a) {
      LoopKeepsTwice(s, a);
    } else {
      RestKeepsTwice(s, a);
    }
  }

  lemma {:induction false} TwiceGrows(s: State, acts: seq<Action>)
    requires CanRun(s, acts)
    ensures s.log.twice <= After(s, acts).log.twice
    decreases |acts|
  {
    if acts != [] {
      TwiceStays(s, acts[0]);
      TwiceGrows(Apply(s, acts[0]), acts[1..]);
    }
  }

  /** While no dummy return has been answered twice, pendingWg does not run short. */
  lemma CalmStep(s: State, mine: bool, a: Action)
    requires Inv(s) && s.log.twice == {} && Enabled(s, a)
    ensures !Disturbs(s, mine, a)
  {
  }

  lemma {:induction false} CalmRunIsUndisturbed(s: State, acts: seq<Action>)
    requires Inv(s) && CanRun(s, acts) && After(s, acts).log.twice == {}
    ensures Undisturbed(s, acts)
    decreases |acts|
  {
    if acts != [] {
      TwiceGrows(s, acts);
      StepKeepsInv(s, acts[0]);
      CalmStep(s, true, acts[0]);
      CalmRunIsUndisturbed(Apply(s, acts[0]), acts[1..]);
    }
  }

  /** In particular pings are transparent to every run in which no dummy return is answered twice. */
  lemma TransparentWithoutDoubleAnswers(acts: seq<Action>)
    requires CanRun(Initial(), acts) && After(Initial(), acts).log.twice == {}
    ensures CanRun(Initial(), Erase(Initial(), acts))
    ensures SameService(After(Initial(), acts), After(Initial(), Erase(Initial(), acts)))
  {
    InitialInv();
    CalmRunIsUndisturbed(Initial(), acts);
    PingTransparency(acts);
  }
}
