// The exceptions the server's theorems make do happen: for each of them, a run that leads there.
module ServerWitnesses {
  import opened RpcTypes
  import opened ServerMachine
  import opened ServerPing

  lemma ReachedNext(s: State, a: Action)
    requires Reached(s) && Enabled(s, a)
    ensures Reached(Apply(s, a))
  {
    var acts :| CanRun(Initial(), acts) && After(Initial(), acts) == s;
    RunLonger(Initial(), acts, a);
  }

  /** One request is with a worker. */
  ghost predicate OneAtWork(s: State, a: RequestHeader, v: Value) {
    s == Initial().(wg := 1, workers := {0}, accepted := [Work(a, v, v)],
                    log := Initial().log.(read := [a], executed := [0]))
  }

  lemma OneRequestReachesWorker(a: RequestHeader, v: Value) returns (s: State)
    requires !a.IsPing() && !a.DummyReturn() && a.serviceMethod != ""
    ensures Reached(s) && OneAtWork(s, a, v)
  {
    s := Initial();
    assert CanRun(s, []) && After(s, []) == s;
    ReachedNext(s, ReadHead(a, true, ""));
    s := s.(loop := ReadingBody(a), log := s.log.(read := [a]));
    ReachedNext(s, ReadBody(v, v));
    s := s.(loop := Returned(Good(a, v, v)));
    ReachedNext(s, Check);
    s := s.(wg := 1, accepted := [Work(a, v, v)], loop := Dispatching(0, false));
    ReachedNext(s, Dispatch(Runs));
    s := s.(loop := Reading, workers := {0}, log := s.log.(executed := [0]));
  }

  /** A dummy return has been answered, and its dispatch has failed. */
  lemma DummyReturnIsRefused(s0: State, a: RequestHeader, b: RequestHeader, v: Value) returns (s: State)
    requires Reached(s0) && OneAtWork(s0, a, v)
    requires !b.IsPing() && b.DummyReturn() && b.serviceMethod != ""
    ensures Reached(s) && s.loop == Replying(1, "refused") && s.wg == 1 && s.workers == {0}
    ensures s.running && !s.closed && s.doneChan == [] && s.finished == {} && s.writer == Waiting
    ensures s.accepted == [Work(a, v, v), Work(b, v, v)]
  {
    s := s0.(loop := ReadingBody(b), log := s0.log.(read := [a, b]));
    ReachedNext(s0, ReadHead(b, true, ""));
    ReachedNext(s, ReadBody(v, v));
    s := s.(loop := Returned(Good(b, v, v)));
    ReachedNext(s, Check);
    s := s.(wg := 2, accepted := [Work(a, v, v), Work(b, v, v)], loop := Collecting([1]));
    ReachedNext(s, LoopEnough);
    s := s.(loop := Sending([1]));
    ReachedNext(s, LoopSend);
    s := Apply(s, LoopSend);
    ReachedNext(s, Settle);
    s := Apply(s, Settle);
    ReachedNext(s, Dispatch(Fails("refused")));
    s := Apply(s, Dispatch(Fails("refused")));
  }

  /** It is answered again: the counter is 0, and a worker still has to report. */
  lemma AnsweredAgain(s0: State, a: RequestHeader, b: RequestHeader, v: Value) returns (s: State)
    requires Reached(s0) && s0.loop == Replying(1, "refused") && s0.wg == 1 && s0.workers == {0}
    requires s0.running && !s0.closed && s0.doneChan == [] && s0.finished == {} && s0.writer == Waiting
    requires s0.accepted == [Work(a, v, v), Work(b, v, v)]
    ensures Reached(s) && s == s0.(loop := Reading, wg := 0, log := s.log)
  {
    s := Apply(s0, Reply);
    ReachedNext(s0, Reply);
    ReachedNext(s, Settle);
    s := Apply(s, Settle);
  }

  /** The worker reports, and its answer is written: the counter is 0 and has one Done to come. */
  lemma CounterRunsShort(s0: State, a: RequestHeader, b: RequestHeader, v: Value) returns (s: State)
    requires Reached(s0) && s0.loop == Replying(1, "refused") && s0.wg == 1 && s0.workers == {0}
    requires s0.running && !s0.closed && s0.doneChan == [] && s0.finished == {} && s0.writer == Waiting
    requires s0.accepted == [Work(a, v, v), Work(b, v, v)]
    ensures Reached(s) && s.loop == Reading && s.running && s.wg == 0 && s.writer == WSent(1)
  {
    s := AnsweredAgain(s0, a, b, v);
    ReachedNext(s, Return(0, ServerMachine.Result(v, None)));
    s := Apply(s, Return(0, ServerMachine.Result(v, None)));
    ReachedNext(s, Deliver(0));
    s := Apply(s, Deliver(0));
    s := WriterAnswers(s);
  }

  lemma WriterAnswers(s0: State) returns (s: State)
    requires Reached(s0) && s0.doneChan == [0] && s0.writer == Waiting && !s0.closed
    requires |s0.accepted| > 0 && s0.accepted[0].Work?
    ensures Reached(s) && s.writer == WSent(1)
    ensures s.loop == s0.loop && s.running == s0.running && s.wg == s0.wg
  {
    s := Apply(s0, WTake);
    ReachedNext(s0, WTake);
    ReachedNext(s, WEnough);
    s := Apply(s, WEnough);
    ReachedNext(s, WSend);
    s := Apply(s, WSend);
  }

  lemma PingArrives(s0: State, ping: RequestHeader) returns (s: State)
    requires Reached(s0) && s0.loop == Reading && s0.running && s0.wg == 0 && ping.IsPing()
    ensures Reached(s) && s == s0.(wg := 1, loop := PingReplying(ping)) && WithoutPing(s, true) == s0
  {
    ReachedNext(s0, ReadHead(ping, false, "unknown"));
    s := s0.(loop := Returned(Ping(ping)));
    ReachedNext(s, Check);
    s := s.(wg := 1, loop := PingReplying(ping));
  }

  /** After a double answer pings are not transparent: the counter runs short, and a ping in hand holds it
      up. With the ping the response writer goes on; without it the writer's Done panics. */
  lemma PingHidesPanic(a: RequestHeader, b: RequestHeader, ping: RequestHeader, v: Value)
    requires !a.IsPing() && !a.DummyReturn() && a.serviceMethod != ""
    requires !b.IsPing() && b.DummyReturn() && b.serviceMethod != "" && ping.IsPing()
    ensures exists s :: Reached(s) && Reached(WithoutPing(s, true)) && s.loop == PingReplying(ping)
                        && Enabled(s, WSettle) && Apply(s, WSettle).writer.Waiting?
                        && Enabled(WithoutPing(s, true), WSettle)
                        && Apply(WithoutPing(s, true), WSettle).writer.WExited?
  {
    var s0 := OneRequestReachesWorker(a, v);
    var s1 := DummyReturnIsRefused(s0, a, b, v);
    var s2 := CounterRunsShort(s1, a, b, v);
    var s3 := PingArrives(s2, ping);
    assert Apply(s3, WSettle).writer.Waiting? && Apply(s2, WSettle).writer.WExited?;
  }

  // ----- double answers -----

  /** A dummy return whose dispatch fails is answered twice. */
  lemma DoubleAnswerHappens(b: RequestHeader, v: Value)
    requires !b.IsPing() && b.DummyReturn() && b.serviceMethod != ""
    ensures exists s :: Reached(s) && s.log.twice == {0} && s.log.answered == [0, 0] && s.wg == 0
  {
    InitialReached();
    var s0 := Initial();
    ReachedNext(s0, ReadHead(b, true, ""));
    var s1 := s0.(loop := ReadingBody(b), log := s0.log.(read := [b]));
    ReachedNext(s1, ReadBody(v, v));
    var s2 := s1.(loop := Returned(Good(b, v, v)));
    ReachedNext(s2, Check);
    var s3 := s2.(wg := 1, accepted := [Work(b, v, v)], loop := Collecting([0]));
    ReachedNext(s3, LoopEnough);
    AnsweredTwice(s3.(loop := Sending([0])), b, v);
  }

  lemma AnsweredTwice(s0: State, b: RequestHeader, v: Value)
    requires Reached(s0) && s0.loop == Sending([0]) && s0.wg == 1 && s0.accepted == [Work(b, v, v)]
    requires s0.log.answered == [] && s0.log.twice == {}
    ensures exists s :: Reached(s) && s.log.twice == {0} && s.log.answered == [0, 0] && s.wg == 0
  {
    var s1 := Apply(s0, LoopSend);
    ReachedNext(s0, LoopSend);
    assert s1.log.answered == [0];
    var s2 := s1.(wg := 0, loop := Dispatching(0, true));
    ReachedNext(s1, Settle);
    RefusedAfterwards(s2);
  }

  lemma RefusedAfterwards(s0: State)
    requires Reached(s0) && s0.loop == Dispatching(0, true) && s0.wg == 0 && |s0.accepted| == 1
    requires s0.log.answered == [0] && s0.log.twice == {}
    ensures exists s :: Reached(s) && s.log.twice == {0} && s.log.answered == [0, 0] && s.wg == 0
  {
    var s1 := Apply(s0, Dispatch(Fails("refused")));
    ReachedNext(s0, Dispatch(Fails("refused")));
    ReachedNext(s1, Reply);
    assert Apply(s1, Reply).log.answered == [0] + [0];
  }

  /** One more request reaches a worker. */
  lemma AnotherReachesWorker(s0: State, c: RequestHeader, v: Value) returns (s: State)
    requires Reached(s0) && s0.loop == Reading && s0.running
    requires !c.IsPing() && !c.DummyReturn() && c.serviceMethod != ""
    ensures Reached(s) && s == s0.(wg := s0.wg + 1, accepted := s0.accepted + [Work(c, v, v)],
                                   workers := s0.workers + {|s0.accepted|}, log := s.log)
  {
    s := s0.(loop := ReadingBody(c), log := s0.log.(read := s0.log.read + [c]));
    ReachedNext(s0, ReadHead(c, true, ""));
    ReachedNext(s, ReadBody(v, v));
    s := s.(loop := Returned(Good(c, v, v)));
    ReachedNext(s, Check);
    s := s.(wg := s0.wg + 1, accepted := s0.accepted + [Work(c, v, v)], loop := Dispatching(|s0.accepted|, false));
    ReachedNext(s, Dispatch(Runs));
    s := Apply(s, Dispatch(Runs));
  }

  lemma WorkerReports(s0: State, who: nat, r: ServerMachine.Result) returns (s: State)
    requires Reached(s0) && who in s0.workers && who !in s0.finished && !s0.closed
    ensures Reached(s) && s == s0.(workers := s0.workers - {who}, doneChan := s0.doneChan + [who],
                                   results := s0.results[who := r], log := s.log)
  {
    ReachedNext(s0, Return(who, r));
    s := Apply(s0, Return(who, r));
    ReachedNext(s, Deliver(who));
    assert s0.finished + {who} - {who} == s0.finished;
    s := Apply(s, Deliver(who));
  }

  /** Two calls are to be answered, the counter is 1, and the server is stopped. */
  lemma StopComesEarly(a: RequestHeader, b: RequestHeader, v: Value) returns (s: State)
    requires !a.IsPing() && !a.DummyReturn() && a.serviceMethod != ""
    requires !b.IsPing() && b.DummyReturn() && b.serviceMethod != ""
    ensures Reached(s) && s.loop == Draining && s.wg == 1 && s.doneChan == [0, 2] && s.writer == Waiting
    ensures s.accepted == [Work(a, v, v), Work(b, v, v), Work(a, v, v)] && !s.closed
  {
    var s0 := OneRequestReachesWorker(a, v);
    s0 := DummyReturnIsRefused(s0, a, b, v);
    s0 := AnsweredAgain(s0, a, b, v);
    s0 := AnotherReachesWorker(s0, a, v);
    s0 := WorkerReports(s0, 0, ServerMachine.Result(v, None));
    s0 := WorkerReports(s0, 2, ServerMachine.Result(v, None));
    s := StopsReading(s0);
  }

  lemma StopsReading(s0: State) returns (s: State)
    requires Reached(s0) && s0.loop == Reading && s0.running
    ensures Reached(s) && s == s0.(running := false, loop := Draining, log := s.log)
  {
    ReachedNext(s0, Stop);
    s := s0.(running := false);
    ReachedNext(s, ReadHeadFails);
    s := s.(loop := Returned(Fatal));
    ReachedNext(s, Check);
    s := Apply(s, Check);
  }

  lemma TwoAreWritten(s0: State) returns (s: State)
    requires Reached(s0) && s0.doneChan == [0, 2] && s0.writer == Waiting && !s0.closed
    requires |s0.accepted| == 3 && s0.accepted[0].Work? && s0.accepted[2].Work?
    ensures Reached(s) && s == s0.(doneChan := [], writer := WSent(2), log := s.log)
  {
    s := Apply(s0, WTake);
    ReachedNext(s0, WTake);
    ReachedNext(s, WMore);
    s := Apply(s, WMore);
    ReachedNext(s, WEnough);
    s := Apply(s, WEnough);
    assert s.writer == WSending([0, 2]);
    ReachedNext(s, WSend);
    s := Apply(s, WSend);
  }

  /** After a double answer the counter can pass 0 inside a group: Wait is woken while a Done is still to
      come, which panics, and Wait may return or panic although the writer has not made its Dones. */
  lemma WokenTooEarly(a: RequestHeader, b: RequestHeader, v: Value)
    requires !a.IsPing() && !a.DummyReturn() && a.serviceMethod != ""
    requires !b.IsPing() && b.DummyReturn() && b.serviceMethod != ""
    ensures exists s :: Reached(s) && s.loop == Woken && s.wg == -1 && s.writer == WExited
                        && Enabled(s, WaitOver) && Enabled(s, WaitPanics)
  {
    var s0 := StopComesEarly(a, b, v);
    var s1 := TwoAreWritten(s0);
    ReachedNext(s1, WSettle);
    var s2 := s1.(wg := 0, writer := WSent(1), loop := Woken);
    ReachedNext(s2, WSettle);
    assert Apply(s2, WSettle).wg == -1;
  }

  // ----- leaks -----

  lemma InitialReached()
    ensures Reached(Initial())
  {
    assert CanRun(Initial(), []) && After(Initial(), []) == Initial();
  }

  /** A request without a method name is counted and never answered. */
  lemma NamelessHappens(head: RequestHeader)
    requires !head.IsPing() && head.serviceMethod == ""
    ensures exists s :: Reached(s) && s.log.nameless == {0} && s.wg == 1 && s.loop == Reading
                        && s.log.twice == {} && s.log.answered == []
  {
    InitialReached();
    var s0 := Initial();
    ReachedNext(s0, ReadHead(head, false, "ill-formed"));
    var s1 := s0.(loop := Discarding(head, "ill-formed"), log := s0.log.(read := [head]));
    ReachedNext(s1, Discard);
    var s2 := s1.(loop := Returned(Bad(head, "ill-formed")));
    ReachedNext(s2, Check);
    assert Apply(s2, Check).log.nameless == {0};
  }

  /** A handler that panics leaves its request counted and unanswered. */
  lemma PanicHappens(head: RequestHeader, v: Value)
    requires !head.IsPing() && !head.DummyReturn() && head.serviceMethod != ""
    ensures exists s :: Reached(s) && s.log.panicked == {0} && s.wg == 1 && s.loop == Reading
                        && s.log.twice == {} && s.log.answered == []
  {
    var s := OneRequestReachesWorker(head, v);
    ReachedNext(s, HandlerPanics(0));
    assert Apply(s, HandlerPanics(0)).log.panicked == {0};
  }

  /** A read that ends the loop is counted and never released. */
  lemma FatalReadHappens()
    ensures exists s :: Reached(s) && s.log.fatal == 1 && s.wg == 1 && s.loop == Closing && s.log.twice == {}
  {
    InitialReached();
    var s0 := Initial();
    ReachedNext(s0, ReadHeadFails);
    ReachedNext(s0.(loop := Returned(Fatal)), Check);
  }

  /** The connection breaks while the response writer is collecting: the writer finds doneChan closed and
      drops the answer it holds. */
  lemma DropHappens(head: RequestHeader, v: Value)
    requires !head.IsPing() && !head.DummyReturn() && head.serviceMethod != ""
    ensures exists s :: Reached(s) && s.log.dropped == {0} && s.log.twice == {} && s.log.answered == []
                        && s.results == map[0 := ServerMachine.Result(v, None)]
  {
    var s0 := OneRequestReachesWorker(head, v);
    var s1 := Apply(s0, Return(0, ServerMachine.Result(v, None)));
    ReachedNext(s0, Return(0, ServerMachine.Result(v, None)));
    var s2 := Apply(s1, Deliver(0));
    ReachedNext(s1, Deliver(0));
    var s3 := Apply(s2, WTake);
    ReachedNext(s2, WTake);
    WriterFindsItClosed(s3);
  }

  lemma WriterFindsItClosed(s0: State)
    requires Reached(s0) && s0.writer == WCollecting([0]) && s0.doneChan == [] && s0.loop == Reading
    requires s0.running && s0.log.dropped == {}
    ensures exists s :: Reached(s) && s.log.dropped == {0} && s.log.twice == s0.log.twice
                        && s.log.answered == s0.log.answered && s.results == s0.results
  {
    var s1 := Apply(s0, ReadHeadFails);
    ReachedNext(s0, ReadHeadFails);
    var s2 := Apply(s1, Check);
    ReachedNext(s1, Check);
    var s3 := Apply(s2, CloseDone);
    ReachedNext(s2, CloseDone);
    ReachedNext(s3, WDrop);
    assert Apply(s3, WDrop).log.dropped == {0};
  }

  /** The connection breaks while a handler runs: its report comes too late. */
  lemma LateHappens(head: RequestHeader, v: Value)
    requires !head.IsPing() && !head.DummyReturn() && head.serviceMethod != ""
    ensures exists s :: Reached(s) && s.log.late == {0} && s.log.twice == {} && s.log.answered == []
  {
    var s0 := OneRequestReachesWorker(head, v);
    var s1 := Apply(s0, ReadHeadFails);
    ReachedNext(s0, ReadHeadFails);
    var s2 := Apply(s1, Check);
    ReachedNext(s1, Check);
    var s3 := Apply(s2, CloseDone);
    ReachedNext(s2, CloseDone);
    var s4 := Apply(s3, Return(0, ServerMachine.Result(v, None)));
    ReachedNext(s3, Return(0, ServerMachine.Result(v, None)));
    ReachedNext(s4, Deliver(0));
    assert Apply(s4, Deliver(0)).log.late == {0};
  }

  /** Stop comes between the read of a request and the check: the stop is graceful, and the request is
      thrown away. */
  lemma DiscardHappens(head: RequestHeader, v: Value)
    requires !head.IsPing() && head.serviceMethod != ""
    ensures exists s :: Reached(s) && s.log.graceful && s.log.read == [head] && s.log.discarded == [head]
                        && s.accepted == [] && s.log.answered == []
  {
    InitialReached();
    var s0 := Initial();
    ReachedNext(s0, ReadHead(head, true, ""));
    var s1 := s0.(loop := ReadingBody(head), log := s0.log.(read := [head]));
    ReachedNext(s1, ReadBody(v, v));
    var s2 := s1.(loop := Returned(Good(head, v, v)));
    ReachedNext(s2, Stop);
    var s3 := s2.(running := false);
    ReachedNext(s3, Check);
    var s4 := Apply(s3, Check);
    ReachedNext(s4, WaitOver);
  }
}
