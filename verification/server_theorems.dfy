// The promises of a server connection over whole runs.
module ServerTheorems {
  import opened RpcTypes
  import opened Counting
  import opened ServerMachine
  import opened ServerSafety
  import opened ServerAnswers
  import SR = ServerReads

  /** Exactly one answer: on every run an accepted request is in flight in one place, or was answered
      once, or met one of the four exceptions; and exactly the dummy returns whose dispatch failed
      count once more. */
  lemma ExactlyOneAnswer(s: State, i: nat)
    requires Reached(s) && i < |s.accepted|
    ensures PlacesOf(s).Has(i) + Count(s.log.answered, i) +
            B(i in s.log.nameless) + B(i in s.log.panicked) + B(i in s.log.late) + B(i in s.log.dropped)
            == 1 + B(i in s.log.twice)
    ensures i in s.log.twice ==> s.accepted[i].head.DummyReturn()
  {
    ReachedInv(s);
    Alone(s, i);
  }

  /** Nothing else is ever answered, and every answer carries the sequence number and the method of
      its request, with the content that request earned. */
  lemma AnswersMatchRequests(s: State, j: nat)
    requires Reached(s) && j < |s.log.answered|
    ensures |s.log.answers| == |s.log.answered|
    ensures var k := s.log.answered[j];
            && k < |s.accepted|
            && s.log.answers[j].Head().seqNo == s.accepted[k].head.seqNo
            && s.log.answers[j].Head().serviceMethod == s.accepted[k].head.serviceMethod
            && AnswerOk(s.accepted, s.results, s.log.rejections, k, s.log.answers[j])
  {
    ReachedInv(s);
    assert ViewOf(s).answered == s.log.answered && ViewOf(s).answers == s.log.answers;
  }

  /** The server never answers a ping through a group, so only handler errors misframe a stream. */
  lemma MisframedMeansHandlerError(s: State, j: nat)
    requires Reached(s) && j < |s.log.answered|
    ensures |s.log.answers| == |s.log.answered|
    ensures var a := s.log.answers[j];
            a.Misframed(false) <==> a.Grouped? && a.errmsg != ""
  {
    ReachedInv(s);
    AnswersMatchRequests(s, j);
  }

  /** pendingWg on every run: what is in flight, plus what leaked, minus double answers. Without empty
      names, panics, fatal reads and failed dispatches of dummy returns that is what is in flight. */
  lemma PendingWgExactly(s: State)
    requires Reached(s)
    ensures s.wg == InFlight(s) + Leaks(s.log) - |s.log.twice|
    ensures s.log.twice == s.log.nameless == s.log.panicked == {} && s.log.fatal == 0 && !s.closed ==>
              s.wg == InFlight(s)
  {
    ReachedInv(s);
  }

  /** Everything read is accounted for: it was accepted, in the order of the reads, or is in the loop's
      hand, or is the one request that a stopped server threw away. */
  lemma ReadExactly(s: State)
    requires Reached(s)
    ensures s.log.read == SR.Heads(s.accepted) + SR.Unaccepted(s.loop) + s.log.discarded
    ensures |s.log.discarded| <= 1 && (s.log.discarded != [] ==> !s.running)
  {
    SR.ReachedInv(s);
  }

  /** A request is thrown away exactly by the status check that finds the server stopped after the
      request has been read. */
  lemma DiscardedExactlyWhenStopped(s: State, a: Action)
    requires Reached(s) && Enabled(s, a)
    ensures Apply(s, a).log.discarded != s.log.discarded <==>
              a.Check? && !s.running && (s.loop.res.Bad? || s.loop.res.Good?)
  {
    SR.ReachedInv(s);
    if SR.Serves(a) {
      SR.ServingDiscardsNothing(s, a);
    } else if !SR.Reads(a) {
      SR.OthersStayAway(s, a);
    }
  }

  /** Graceful stop: if the loop came through Wait and no dummy return was answered twice, then in
      this and every later state nothing is in flight and nothing will be sent on the closed channel.
      Each request read off the wire was answered exactly once, except for the last one if that was
      read just before the check that found the server stopped: it was thrown away. */
  lemma GracefulStop(s: State)
    requires Reached(s) && s.log.graceful && s.log.twice == {}
    ensures s.wg == 0
    ensures s.workers == {} && s.finished == {} && s.doneChan == []
    ensures s.writer.Waiting? || s.writer.WExited?
    ensures s.log.nameless == {} && s.log.panicked == {} && s.log.late == {} && s.log.dropped == {}
    ensures s.log.read == SR.Heads(s.accepted) + s.log.discarded && |s.log.discarded| <= 1
    ensures forall p: nat :: Count(s.log.answered, p) == B(p < |s.accepted|)
    ensures (forall p: nat :: p < |s.log.read| ==> Count(s.log.answered, p) == 1) <==> s.log.discarded == []
  {
    ReachedInv(s);
    SR.ReachedInv(s);
    assert InFlight(s) == 0 && Leaks(s.log) == 0;
    forall p: nat
      ensures Count(s.log.answered, p) == B(p < |s.accepted|)
    {
      Alone(s, p);
    }
    AnsweredAllOrDiscarded(s.log.answered, s.log.read, |s.accepted|, s.log.discarded);
  }

  lemma AnsweredAllOrDiscarded(answered: seq<nat>, read: seq<RequestHeader>, n: nat,
                               discarded: seq<RequestHeader>)
    requires |read| == n + |discarded|
    requires forall p: nat :: Count(answered, p) == B(p < n)
    ensures (forall p: nat :: p < |read| ==> Count(answered, p) == 1) <==> discarded == []
  {
    if discarded != [] {
      assert Count(answered, n) == 0;
    }
  }

  /** When Wait returns at once or is woken: exactly when double answers make up for everything in flight
      and for every leak. */
  lemma WaitReturnsExactly(s: State)
    requires Reached(s) && s.loop.Draining?
    ensures Enabled(s, WaitOver) <==> InFlight(s) + Leaks(s.log) == |s.log.twice|
  {
    ReachedInv(s);
  }

  /** Once woken, Wait finds the counter at 0 or, if a Done has come in between, below; then it may panic. It
      finds it below 0 only after a double answer. */
  lemma WokenExactly(s: State)
    requires Reached(s) && s.loop.Woken?
    ensures s.wg <= 0 && (Enabled(s, WaitPanics) <==> InFlight(s) + Leaks(s.log) < |s.log.twice|)
    ensures s.log.twice == {} ==> s.wg == 0 && InFlight(s) == 0
  {
    ReachedInv(s);
  }

  /** So on a run without double answers a leak makes Wait wait for ever: once a nameless request, a
      panicking handler or a fatal read has been counted, the counter is positive in every later state. */
  lemma LeakBlocksStop(s: State)
    requires Reached(s) && s.log.twice == {}
    requires s.log.nameless != {} || s.log.panicked != {} || s.log.fatal > 0
    ensures s.wg > 0 && !Enabled(s, WaitOver) && !s.log.graceful
  {
    ReachedInv(s);
  }

  /** A group is dropped only if the loop left without the graceful wait, or after a double answer. */
  lemma DroppedOnlyUngracefully(s: State)
    requires Reached(s) && s.log.dropped != {}
    ensures s.closed && (!s.log.graceful || s.log.twice != {})
  {
    ReachedInv(s);
  }

  /** Batching refines one-at-a-time answering: doneChan is a queue; each of its two consumers writes
      what it took, in the order it took it and exactly once, except for a dropped last group; and no
      group is longer than 101. */
  lemma BatchesKeepOrder(s: State)
    requires Reached(s)
    ensures Items(s.log.dequeued) + s.doneChan == s.log.queued
    ensures By(s.log.dequeued, true) == s.log.loopWrote + LoopHand(s.loop)
    ensures s.log.writerWrote <= By(s.log.dequeued, false)
    ensures s.log.dropped == {} ==>
              By(s.log.dequeued, false) == s.log.writerWrote + WriterOwes(s.writer)
    ensures |LoopHand(s.loop)| <= 100 && |WriterOwes(s.writer)| <= 101
  {
    ReachedInv(s);
    var v := ViewOf(s);
    assert v.queued == s.log.queued && v.dequeued == s.log.dequeued && v.chan == s.doneChan;
    assert v.writerWrote == s.log.writerWrote && v.writerHand == WriterOwes(s.writer);
    assert v.loopWrote == s.log.loopWrote && v.loopHand == LoopHand(s.loop);
  }

  lemma {:induction false} OneConsumer(q: seq<Dequeue>)
    requires By(q, true) == []
    ensures By(q, false) == Items(q)
  {
    if q != [] {
      var n := |q| - 1;
      OneConsumer(q[..n]);
      assert Items(q) == Items(q[..n]) + [q[n].who];
    }
  }

  /** While the loop takes nothing off doneChan, answers leave in exactly the order in which the
      workers reported, as if each had been written by itself. */
  lemma SingleConsumerIsFifo(s: State)
    requires Reached(s) && s.log.dropped == {} && By(s.log.dequeued, true) == []
    ensures s.log.writerWrote + WriterOwes(s.writer) + s.doneChan == s.log.queued
  {
    BatchesKeepOrder(s);
    OneConsumer(s.log.dequeued);
  }

  /** Ownership of call objects: each has at most one owner at any time, goes back to the pool at most
      once, and once it is back nobody holds it. */
  lemma FreedOnce(s: State, i: nat)
    requires Reached(s)
    ensures OwnersOf(s).Has(i) <= 1 && Count(s.log.freed, i) <= 1
    ensures Count(s.log.freed, i) == 1 ==> OwnersOf(s).Has(i) == 0
  {
    ReachedInv(s);
    Alone(s, i);
  }

  /** A handler is started at most once for a request, whether anybody waits for its result or not, and
      only for an accepted one. */
  lemma RunsOnce(s: State, p: nat, q: nat)
    requires Reached(s) && p < |s.log.executed| && q < |s.log.executed|
    ensures s.log.executed[p] < |s.accepted|
    ensures s.log.executed[p] == s.log.executed[q] ==> p == q
  {
    SR.ReachedInv(s);
  }

  /** Only a handler that was started works, returns or panics. */
  lemma WorkWasStarted(s: State, i: nat)
    requires Reached(s)
    requires i in s.workers || i in s.finished || i in s.dummies || i in s.results || i in s.log.panicked
    ensures i in s.log.executed
  {
    SR.ReachedInv(s);
  }

  /** Whoever is about to return has no result yet. */
  lemma ReturnsOnce(s: State, i: nat)
    requires Reached(s) && i in s.workers
    ensures i !in s.results && i < |s.accepted| && s.accepted[i].Work?
  {
    ReachedInv(s);
  }
}
