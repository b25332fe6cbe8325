// What the answers of a server connection contain, and in what order they are written.
module ServerAnswers {
  import opened RpcTypes
  import opened Counting
  import opened Framing
  import opened ServerMachine
  import opened ServerSafety

  /** The right answer to accepted request `k`: a refusal keeps the error text; a dummy return is
      answered before it runs; anything else carries what its own handler returned. */
  ghost predicate AnswerOk(accepted: seq<Accepted>, results: map<nat, Result>,
                           rejections: map<nat, string>, k: nat, a: Answer) {
    k < |accepted| && a.req == accepted[k].head &&
    match a
    case Direct(_, text) =>
      (accepted[k].Refused? && text == accepted[k].text) ||
      (accepted[k].Work? && k in rejections && text == rejections[k])
    case Grouped(_, reply, errmsg) =>
      accepted[k].Work? &&
      if accepted[k].head.DummyReturn() then reply == accepted[k].blank && errmsg == ""
      else k in results && results[k].reply == reply && results[k].Text() == errmsg
  }

  ghost predicate AnswersInv(v: View) {
    && |v.answers| == |v.answered|
    && (forall j :: 0 <= j < |v.answered| ==>
          AnswerOk(v.accepted, v.results, v.rejections, v.answered[j], v.answers[j]))
    && (v.reply.Some? ==>
          AnswerOk(v.accepted, v.results, v.rejections, v.replyTo, v.reply.value))
  }

  /** The members of `q` that one of the two consumers took, in order. */
  function By(q: seq<Dequeue>, loop: bool): seq<nat> {
    if q == [] then []
    else
      var n := |q| - 1;
      By(q[..n], loop) + if q[n].byLoop == loop then [q[n].who] else []
  }

  function Items(q: seq<Dequeue>): (r: seq<nat>)
    ensures |r| == |q|
  {
    seq(|q|, i requires 0 <= i < |q| => q[i].who)
  }

  /** doneChan is FIFO, and each consumer writes what it took in the order it took it. */
  ghost predicate OrderInv(v: View) {
    && Items(v.dequeued) + v.chan == v.queued
    && By(v.dequeued, true) == v.loopWrote + v.loopHand
    && v.writerWrote <= By(v.dequeued, false)
    && (!v.anyDropped ==> By(v.dequeued, false) == v.writerWrote + v.writerHand)
    && (v.anyDropped ==> v.writerHand == [])
  }

  ghost predicate ViewInv(v: View) { AnswersInv(v) && OrderInv(v) }

  ghost predicate Inv(s: State) { AccountsInv(s) && ViewInv(ViewOf(s)) }

  // ----- preservation -----

  /** One of the two consumers takes the head of doneChan into its hand. */
  function TakeOffView(v: View, loop: bool): View
    requires v.chan != []
  {
    var w := v.(chan := v.chan[1..], dequeued := v.dequeued + [Dequeue(v.chan[0], loop)]);
    if loop then w.(loopHand := v.loopHand + [v.chan[0]])
    else w.(writerHand := v.writerHand + [v.chan[0]])
  }

  lemma TakingOffKeepsOrder(v: View, loop: bool)
    requires OrderInv(v) && v.chan != [] && (loop || !v.anyDropped)
    ensures OrderInv(TakeOffView(v, loop))
  {
    var d := Dequeue(v.chan[0], loop);
    assert (v.dequeued + [d])[..|v.dequeued|] == v.dequeued;
    assert Items(v.dequeued + [d]) == Items(v.dequeued) + [v.chan[0]];
    assert v.chan == [v.chan[0]] + v.chan[1..];
    assert By(v.dequeued + [d], !loop) == By(v.dequeued, !loop);
  }

  lemma AcceptingKeepsView(s: State)
    requires ViewInv(ViewOf(s)) && Enabled(s, Check) && s.running && (s.loop.res.Bad? || s.loop.res.Good?)
    ensures ViewInv(ViewOf(Apply(s, Check)))
  {
    var v, w := ViewOf(s), ViewOf(Apply(s, Check));
    assert v.loopHand == w.loopHand;
    assert forall j :: 0 <= j < |v.answered| ==>
      AnswerOk(v.accepted, v.results, v.rejections, v.answered[j], v.answers[j]);
  }

  lemma ReplyKeepsView(s: State)
    requires Inv(s) && Enabled(s, Reply)
    ensures ViewInv(ViewOf(Apply(s, Reply)))
  {
  }

  lemma LoopMoreKeepsView(s: State)
    requires ViewInv(ViewOf(s)) && Enabled(s, LoopMore) && s.loop.group != []
    ensures ViewInv(ViewOf(Apply(s, LoopMore)))
  {
    assert (s.loop.group + [s.doneChan[0]])[1..] == s.loop.group[1..] + [s.doneChan[0]];
    assert ViewOf(Apply(s, LoopMore)) == TakeOffView(ViewOf(s), true);
    TakingOffKeepsOrder(ViewOf(s), true);
  }

  lemma LoopSendKeepsView(s: State)
    requires Inv(s) && Enabled(s, LoopSend)
    ensures ViewInv(ViewOf(Apply(s, LoopSend)))
  {
    GroupAnswersOk(s, s.loop.group);
  }

  lemma GroupAnswersOk(s: State, g: seq<nat>)
    requires KindInv(s) && Known(s, g)
    requires forall j :: 0 <= j < |g| ==> IsDummy(s.accepted, g[j]) || g[j] in s.results
    ensures forall j :: 0 <= j < |g| ==>
              AnswerOk(s.accepted, s.results, s.log.rejections, g[j], GroupAnswers(s, g)[j])
  {
  }

  lemma DispatchFailsKeepsView(s: State, text: string)
    requires Inv(s) && Enabled(s, Dispatch(Fails(text)))
    ensures ViewInv(ViewOf(Apply(s, Dispatch(Fails(text)))))
  {
    Alone(s, s.loop.who);
    CountOne(s.loop.who, s.loop.who);
  }

  lemma ReturnKeepsView(s: State, who: nat, result: ServerMachine.Result)
    requires ViewInv(ViewOf(s)) && Enabled(s, Return(who, result)) && who !in s.results
    ensures ViewInv(ViewOf(Apply(s, Return(who, result))))
  {
    assert ViewOf(Apply(s, Return(who, result))) == ViewOf(s).(results := s.results[who := result]);
  }

  lemma DeliverKeepsView(s: State, who: nat)
    requires Inv(s) && Enabled(s, Deliver(who)) && !s.closed
    ensures ViewInv(ViewOf(Apply(s, Deliver(who))))
  {
  }

  lemma WTakeKeepsView(s: State)
    requires ViewInv(ViewOf(s)) && Enabled(s, WTake) && s.log.dropped == {}
    ensures ViewInv(ViewOf(Apply(s, WTake)))
  {
    assert ViewOf(Apply(s, WTake)) == TakeOffView(ViewOf(s), false);
    TakingOffKeepsOrder(ViewOf(s), false);
  }

  lemma WMoreKeepsView(s: State)
    requires ViewInv(ViewOf(s)) && Enabled(s, WMore) && s.log.dropped == {}
    ensures ViewInv(ViewOf(Apply(s, WMore)))
  {
    assert ViewOf(Apply(s, WMore)) == TakeOffView(ViewOf(s), false);
    TakingOffKeepsOrder(ViewOf(s), false);
  }

  lemma WDropKeepsView(s: State)
    requires ViewInv(ViewOf(s)) && Enabled(s, WDrop) && s.log.dropped == {} && s.writer.group != []
    ensures ViewInv(ViewOf(Apply(s, WDrop)))
  {
    assert s.writer.group[0] in Members(s.writer.group);
    assert ViewOf(Apply(s, WDrop)) == ViewOf(s).(writerHand := [], anyDropped := true);
  }

  lemma WSendKeepsView(s: State)
    requires Inv(s) && Enabled(s, WSend)
    ensures ViewInv(ViewOf(Apply(s, WSend)))
  {
    GroupAnswersOk(s, s.writer.group);
  }

  // ----- all steps -----

  predicate ReadStep(a: Action) {
    a.ReadHead? || a.ReadHeadFails? || a.ReadBody? || a.BodyFails? || a.Discard? || a.Check?
  }

  predicate LoopStep(a: Action) {
    a.WaitOver? || a.WaitPanics? || a.PingReply? || a.Reply? || a.Settle? || a.LoopMore? || a.LoopEnough?
    || a.LoopSend? || a.Dispatch? || a.CloseDone?
  }

  lemma ReadStepKeeps(s: State, a: Action)
    requires Inv(s) && Enabled(s, a) && ReadStep(a)
    ensures Inv(Apply(s, a))
  {
    match a {
      case ReadHead(head, known, text) => ReadHeadKeeps(s, head, known, text);
      case ReadHeadFails => ReadHeadFailsKeeps(s);
      case ReadBody(arg, blank) => ReadBodyKeeps(s, arg, blank);
      case BodyFails(text) => BodyFailsKeeps(s, text);
      case Discard => DiscardKeeps(s);
      case Check => CheckKeeps(s);
      case _ =>
    }
  }

  lemma CheckKeeps(s: State)
    requires Inv(s) && Enabled(s, Check)
    ensures Inv(Apply(s, Check))
  {
    if !s.running {
      CheckStoppedKeeps(s);
    } else {
      match s.loop.res
      case Fatal => CheckFatalKeeps(s);
      case Ping(_) => CheckPingKeeps(s);
      case Bad(head, _) =>
        AcceptingKeepsView(s);
        if head.serviceMethod == "" {
          CheckNamelessKeeps(s);
        } else {
          CheckBadKeeps(s);
        }
      case Good(_, _, _) =>
        AcceptingKeepsView(s);
        CheckGoodKeeps(s);
    }
  }

  lemma SettleKeeps(s: State)
    requires Inv(s) && Enabled(s, Settle)
    ensures Inv(Apply(s, Settle))
  {
    if s.wg >= 1 {
      SettleDoneKeeps(s);
    } else {
      SettlePanicsKeeps(s);
    }
  }

  lemma DispatchKeeps(s: State, verdict: Verdict)
    requires Inv(s) && Enabled(s, Dispatch(verdict))
    ensures Inv(Apply(s, Dispatch(verdict)))
  {
    if verdict.Runs? {
      if s.loop.dummy {
        DispatchDummyKeeps(s, verdict);
      } else {
        DispatchWorkerKeeps(s, verdict);
      }
    } else {
      DispatchFailsKeepsView(s, verdict.text);
      if s.loop.dummy {
        DispatchDummyRefusedKeeps(s, verdict);
      } else {
        DispatchRefusedKeeps(s, verdict);
      }
    }
  }

  lemma LoopStepKeeps(s: State, a: Action)
    requires Inv(s) && Enabled(s, a) && LoopStep(a)
    ensures Inv(Apply(s, a))
  {
    match a {
      case WaitOver => WaitOverKeeps(s);
      case WaitPanics => WaitPanicsKeeps(s);
      case PingReply => PingReplyKeeps(s);
      case Reply => ReplyKeeps(s); ReplyKeepsView(s);
      case Settle => SettleKeeps(s);
      case LoopMore => LoopMoreKeeps(s); LoopMoreKeepsView(s);
      case LoopEnough => LoopEnoughKeeps(s);
      case LoopSend => LoopSendKeeps(s); LoopSendKeepsView(s);
      case Dispatch(verdict) => DispatchKeeps(s, verdict);
      case CloseDone => CloseDoneKeeps(s);
      case _ =>
    }
  }

  lemma DeliverKeeps(s: State, who: nat)
    requires Inv(s) && Enabled(s, Deliver(who))
    ensures Inv(Apply(s, Deliver(who)))
  {
    if s.closed {
      DeliverLateKeeps(s, who);
    } else {
      DeliverOpenKeeps(s, who);
      DeliverKeepsView(s, who);
    }
  }

  predicate WorkerStep(a: Action) {
    a.Return? || a.HandlerPanics? || a.Deliver? || a.DummyReturns? || a.DummyPanics? || a.Stop?
  }

  lemma WorkerStepKeeps(s: State, a: Action)
    requires Inv(s) && Enabled(s, a) && WorkerStep(a)
    ensures Inv(Apply(s, a))
  {
    match a {
      case Return(who, result) => ReturnKeeps(s, who, result); ReturnKeepsView(s, who, result);
      case HandlerPanics(who) => HandlerPanicsKeeps(s, who);
      case Deliver(who) => DeliverKeeps(s, who);
      case DummyReturns(who) => DummyReturnsKeeps(s, who);
      case DummyPanics(who) => DummyPanicsKeeps(s, who);
      case Stop => StopKeeps(s);
      case _ =>
    }
  }

  lemma WriterStepKeeps(s: State, a: Action)
    requires Inv(s) && Enabled(s, a) && !ReadStep(a) && !LoopStep(a) && !WorkerStep(a)
    ensures Inv(Apply(s, a))
  {
    match a {
      case WTake => WTakeKeeps(s); WTakeKeepsView(s);
      case WClosed => WClosedKeeps(s);
      case WMore => WMoreKeeps(s); WMoreKeepsView(s);
      case WDrop => WDropKeeps(s); WDropKeepsView(s);
      case WEnough => WEnoughKeeps(s);
      case WSend => WSendKeeps(s); WSendKeepsView(s);
      case WSettle => WSettleKeeps(s);
      case _ =>
    }
  }

  lemma StepKeepsInv(s: State, a: Action)
    requires Inv(s) && Enabled(s, a)
    ensures Inv(Apply(s, a))
  {
    if ReadStep(a) {
      ReadStepKeeps(s, a);
    } else if LoopStep(a) {
      LoopStepKeeps(s, a);
    } else if WorkerStep(a) {
      WorkerStepKeeps(s, a);
    } else {
      WriterStepKeeps(s, a);
    }
  }

  lemma {:induction false} RunKeepsInv(s: State, acts: seq<Action>)
    requires Inv(s) && CanRun(s, acts)
    ensures Inv(After(s, acts))
    decreases |acts|
  {
    if acts == [] {
    } else {
      StepKeepsInv(s, acts[0]);
      RunKeepsInv(Apply(s, acts[0]), acts[1..]);
    }
  }

  lemma InitialInv()
    ensures Inv(Initial())
  {
  }

  lemma ReachedInv(s: State)
    requires Reached(s)
    ensures Inv(s)
  {
    var acts :| CanRun(Initial(), acts) && After(Initial(), acts) == s;
    InitialInv();
    RunKeepsInv(Initial(), acts);
  }
}
