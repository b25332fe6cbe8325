// The promises of a client connection over whole runs.
module ClientTheorems {
  import opened RpcTypes
  import opened Counting
  import opened ClientMachine
  import opened ClientSafety

  /** The assumption that sequence numbers suffice: no state of the run has registered more than
      2^64 calls. */
  ghost predicate FewCalls(s: State, acts: seq<Action>)
    requires CanRun(s, acts)
    decreases |acts|
  {
    |s.sent| <= TWO_TO_THE_64 && (acts == [] || FewCalls(Apply(s, acts[0]), acts[1..]))
  }

  lemma WriterKeepsSent(s: State, a: Action)
    requires Enabled(s, a) && WriterStep(a) && !a.Admit? && !a.BatchMore?
    ensures Apply(s, a).sent == s.sent
  {
    if a.CleanOne? {
      CleaningKeepsSent(s);
    }
  }

  lemma CleaningKeepsSent(s: State)
    requires Enabled(s, CleanOne)
    ensures Apply(s, CleanOne).sent == s.sent
  {
  }

  lemma OthersKeepSent(s: State, a: Action)
    requires Enabled(s, a) && !WriterStep(a)
    ensures Apply(s, a).sent == s.sent
  {
  }

  lemma SentGrows(s: State, a: Action)
    requires Enabled(s, a)
    ensures |s.sent| <= |Apply(s, a).sent|
  {
    match a
    case Admit =>
    case BatchMore(_) =>
    case _ =>
      if WriterStep(a) {
        WriterKeepsSent(s, a);
      } else {
        OthersKeepSent(s, a);
      }
  }

  /** Registrations are never taken back, so it is enough to count them at the end. */
  lemma {:induction false} FewCallsThroughout(s: State, acts: seq<Action>)
    requires CanRun(s, acts) && |After(s, acts).sent| <= TWO_TO_THE_64
    ensures FewCalls(s, acts) && |s.sent| <= |After(s, acts).sent|
    decreases |acts|
  {
    if acts != [] {
      SentGrows(s, acts[0]);
      FewCallsThroughout(Apply(s, acts[0]), acts[1..]);
    }
  }

  lemma {:induction false} RunKeepsInv(s: State, acts: seq<Action>)
    requires Inv(s) && CanRun(s, acts) && FewCalls(s, acts)
    ensures Inv(After(s, acts)) && Grows(s, After(s, acts))
    decreases |acts|
  {
    if acts == [] {
    } else {
      StepKeepsInv(s, acts[0]);
      RunKeepsInv(Apply(s, acts[0]), acts[1..]);
    }
  }

  /** A state some run leads to. */
  ghost predicate Reached(s: State, repaired: bool) {
    exists acts :: && CanRun(Initial(repaired), acts) && FewCalls(Initial(repaired), acts)
                   && After(Initial(repaired), acts) == s
  }

  lemma ReachedInv(s: State, repaired: bool)
    requires Reached(s, repaired)
    ensures Inv(s) && s.repaired == repaired
  {
    var acts :| && CanRun(Initial(repaired), acts) && FewCalls(Initial(repaired), acts)
                && After(Initial(repaired), acts) == s;
    InitialInv(repaired);
    RunKeepsInv(Initial(repaired), acts);
  }

  // ----- theorems -----

  /** Until the connection shuts down, each registered call is in exactly one place. */
  lemma OnePlaceBeforeShutdown(s: State, repaired: bool, i: nat)
    requires Reached(s, repaired) && !s.shutdown && i < |s.sent|
    ensures |s.outcomes| == |s.sent|
    ensures B(i in s.pending.Values) + B(ReaderHand(s.reader) == Some(i)) +
            B(WriterHand(s.writer) == Some(i)) + |s.outcomes[i]| == 1
  {
    ReachedInv(s, repaired);
    if i in s.pending.Values {
      var k :| k in s.pending && s.pending[k] == i;
      assert k == i;
    }
  }

  /** As written, a call completes at most once before shutdown and at most twice ever; twice only if
      it was pending at onShutDown and belongs to the group whose write or flush failed. */
  lemma CompletionBound(s: State, repaired: bool, i: nat)
    requires Reached(s, repaired) && i < |s.sent|
    ensures |s.outcomes| == |s.sent|
    ensures |s.outcomes[i]| <= 2
    ensures !s.shutdown || repaired ==> |s.outcomes[i]| <= 1
    ensures |s.outcomes[i]| == 2 ==> i in s.atShutdown && i in s.failed
  {
    ReachedInv(s, repaired);
    assert Balanced(s.outcomes, s.pending, HandsOf(s), SnapshotOf(s));
    if |s.outcomes[i]| == 2 {
      assert SnapshotOf(s).Revived(s.pending, i);
    }
  }

  /** Once the writer is gone the bound is exact: a call was completed twice if and only if
      onShutDown found it pending and it belongs to the failed group. */
  lemma CompletedTwiceExactly(s: State, i: nat)
    requires Reached(s, false) && s.writer.WriterExited? && s.shutdown && i < |s.sent|
    ensures |s.outcomes| == |s.sent|
    ensures |s.outcomes[i]| == 2 <==> i in s.atShutdown && i in s.failed
  {
    ReachedInv(s, false);
    assert Balanced(s.outcomes, s.pending, HandsOf(s), SnapshotOf(s));
    assert HandsOf(s).Count(i) == 0;
    if i in s.failed {
      assert i !in s.pending;
    }
  }

  /** Nothing is lost: when onShutDown has run and the writer is gone, every call the connection ever
      received has completed: all but at most one were registered and completed there, and that one
      was the last to be received and was turned away with an error. */
  lemma NoCallLost(s: State, repaired: bool)
    requires Reached(s, repaired) && s.shutdown && s.writer.WriterExited?
    ensures s.taken == s.sent + s.rejected && |s.rejected| <= 1
    ensures |s.outcomes| == |s.sent|
    ensures forall i :: 0 <= i < |s.sent| ==> |s.outcomes[i]| >= 1
  {
    ReachedInv(s, repaired);
    assert s.sent + s.rejected + [] == s.sent + s.rejected;
    assert Balanced(s.outcomes, s.pending, HandsOf(s), SnapshotOf(s));
    forall i | 0 <= i < |s.sent|
      ensures |s.outcomes[i]| >= 1
    {
      assert HandsOf(s).Count(i) == 0;
    }
  }

  /** After onShutDown `pending` only shrinks and the shared queue loses at most one more call. */
  lemma NothingNewAfterShutdown(s: State, acts: seq<Action>, repaired: bool)
    requires Reached(s, repaired) && s.shutdown
    requires CanRun(s, acts) && FewCalls(s, acts)
    ensures var t := After(s, acts);
            && (forall k :: k in t.pending ==> k in s.pending) && t.sent == s.sent
            && |t.taken| <= s.takenAtShutdown + 1
  {
    ReachedInv(s, repaired);
    RunKeepsInv(s, acts);
  }

  /** Batching refines one-at-a-time sending: over any number of groups, and also when a write fails
      in the middle of one, the requests written are registrations 0, 1, 2, ... in that order, each
      under its own number; and between groups none is missing. */
  lemma BatchingIsInvisible(s: State, repaired: bool)
    requires Reached(s, repaired)
    ensures var written := Requests(s.messages);
            && written == OneAtATime(|written|) && |written| <= |s.sent|
            && (s.writer.Selecting? || s.writer.Holding? || s.writer.Pinging? ==>
                  |written| == |s.sent|)
  {
    ReachedInv(s, repaired);
  }

  /** Keys are never reused: each is below the next key, and a key names its own registration. */
  lemma KeysAreFresh(s: State, repaired: bool, k: nat)
    requires Reached(s, repaired) && k in s.pending
    ensures s.pending[k] == k && k < |s.sent|
    ensures |s.sent| < TWO_TO_THE_64 ==> k < s.seqNo == |s.sent|
  {
    ReachedInv(s, repaired);
  }

  // ----- the bound of two is reached -----

  lemma {:induction false} FewCallsLonger(s: State, acts: seq<Action>, a: Action)
    requires CanRun(s, acts) && FewCalls(s, acts) && Enabled(After(s, acts), a)
    requires |Apply(After(s, acts), a).sent| <= TWO_TO_THE_64
    ensures CanRun(s, acts + [a]) && FewCalls(s, acts + [a])
    decreases |acts|
  {
    var more := acts + [a];
    RunLonger(s, acts, a);
    if acts == [] {
      assert more[1..] == [];
    } else {
      assert more[1..] == acts[1..] + [a];
      FewCallsLonger(Apply(s, acts[0]), acts[1..], a);
    }
  }

  lemma ReachedNext(s: State, a: Action, repaired: bool)
    requires Reached(s, repaired) && Enabled(s, a) && |Apply(s, a).sent| <= TWO_TO_THE_64
    ensures Reached(Apply(s, a), repaired)
  {
    var acts :| && CanRun(Initial(repaired), acts) && FewCalls(Initial(repaired), acts)
                && After(Initial(repaired), acts) == s;
    RunLonger(Initial(repaired), acts, a);
    FewCallsLonger(Initial(repaired), acts, a);
  }

  /** A call is registered, the read fails while its group is on its way to the codec, and so does the
      write: as written, the call is completed by onShutDown and then by the failing writer. With the
      repair, the same run completes it once. */
  lemma DoubleCompletionHappens(call: Call, repaired: bool)
    ensures exists s :: Reached(s, repaired) && s.sent == [call]
                        && s.outcomes == [if repaired then [Failed(ConnLost)]
                                          else [Failed(ConnLost), Failed(WriteError)]]
  {
    var s0 := Initial(repaired);
    assert CanRun(s0, []) && FewCalls(s0, []) && After(s0, []) == s0;
    var s1 := s0.(writer := Holding(call), taken := [call]);
    ReachedNext(s0, Take(call), repaired);
    var s2 := Register(s1, call).(writer := Batching([Entry(0, 0)]));
    ReachedNext(s1, Admit, repaired);
    var s3 := s2.(writer := Writing([Entry(0, 0)], 0));
    ReachedNext(s2, BatchEnd, repaired);
    var s4 := s3.(reader := ShuttingDown(true));
    ReachedNext(s3, ReadFails(true), repaired);
    WriteFailsAfterShutdown(s4, call, repaired);
  }

  lemma WriteFailsAfterShutdown(s4: State, call: Call, repaired: bool)
    requires Reached(s4, repaired) && s4.repaired == repaired && s4.sent == [call] && s4.outcomes == [[]]
    requires s4.pending == map[0 := 0] && !s4.shutdown && !s4.closing
    requires s4.writer == Writing([Entry(0, 0)], 0) && s4.reader == ShuttingDown(true)
    ensures exists s :: Reached(s, repaired) && s.sent == [call]
                        && s.outcomes == [if repaired then [Failed(ConnLost)]
                                          else [Failed(ConnLost), Failed(WriteError)]]
  {
    var s5 := Apply(s4, ShutDown);
    ReachedNext(s4, ShutDown, repaired);
    assert s4.pending[0] == 0 && 0 in s4.pending.Values;
    assert s5.outcomes[0] == [Failed(ConnLost)];
    assert s5.outcomes == [[Failed(ConnLost)]];
    var s6 := Apply(s5, WriteOne(false));
    ReachedNext(s5, WriteOne(false), repaired);
    var s7 := Apply(s6, CleanOne);
    ReachedNext(s6, CleanOne, repaired);
    if repaired {
      assert s7.outcomes == [[Failed(ConnLost)]];
    } else {
      var s8 := Apply(s7, FailOne);
      ReachedNext(s7, FailOne, repaired);
      assert s8.outcomes[0] == [Failed(ConnLost), Failed(WriteError)];
      assert s8.outcomes == [[Failed(ConnLost), Failed(WriteError)]];
    }
  }
}
