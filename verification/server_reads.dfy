// What becomes of everything a server connection reads, and how often a handler is started.
module ServerReads {
  import opened RpcTypes
  import opened ServerMachine

  function Heads(accepted: seq<Accepted>): (r: seq<RequestHeader>)
    ensures |r| == |accepted|
  {
    seq(|accepted|, i requires 0 <= i < |accepted| => accepted[i].head)
  }

  /** The request the loop has read and not accepted yet. */
  function Unaccepted(loop: Loop): seq<RequestHeader> {
    match loop
    case ReadingBody(head) => [head]
    case Discarding(head, _) => [head]
    case Returned(res) => Carried(res)
    case _ => []
  }

  /** Every request read was accepted, in the order of the reads, or is in the loop's hand, or was the one
      thrown away by a stopped server. */
  ghost predicate ReadInv(s: State) {
    && s.log.read == Heads(s.accepted) + Unaccepted(s.loop) + s.log.discarded
    && |s.log.discarded| <= 1
    && (s.log.discarded != [] ==>
          !s.running && (s.loop.Draining? || s.loop.Woken? || s.loop.Closing? || s.loop.LoopExited?))
  }

  /** Whose handler the loop will start next. */
  function ToStart(loop: Loop): Option<nat> {
    match loop
    case Collecting(g) => if g == [] then None else Some(g[0])
    case Sending(g) => if g == [] then None else Some(g[0])
    case Sent(i, _) => Some(i)
    case Dispatching(i, _) => Some(i)
    case _ => None
  }

  ghost predicate StartInv(s: State) {
    && (forall p, q :: 0 <= p < q < |s.log.executed| ==> s.log.executed[p] != s.log.executed[q])
    && (forall p :: 0 <= p < |s.log.executed| ==> s.log.executed[p] < |s.accepted|)
    && (s.loop.Collecting? ==> s.loop.group != [])
    && (ToStart(s.loop).Some? ==>
          ToStart(s.loop).value < |s.accepted| && ToStart(s.loop).value !in s.log.executed)
  }

  /** Whoever works, has returned or has panicked was started. */
  ghost predicate WorkInv(s: State) {
    forall i :: i in s.workers || i in s.finished || i in s.dummies || i in s.results || i in s.log.panicked ==>
      i in s.log.executed
  }

  ghost predicate Inv(s: State) { ReadInv(s) && StartInv(s) && WorkInv(s) }

  /** The loop's steps around a read. */
  predicate Reads(a: Action) {
    a.ReadHead? || a.ReadHeadFails? || a.ReadBody? || a.BodyFails? || a.Discard? || a.Check?
  }

  lemma CheckKeeps(s: State)
    requires ReadInv(s) && StartInv(s) && Enabled(s, Check)
    ensures ReadInv(Apply(s, Check)) && StartInv(Apply(s, Check))
  {
    var t := Apply(s, Check);
    assert s.log.discarded == [];
    if s.running {
      assert Heads(t.accepted) == Heads(s.accepted) + Carried(s.loop.res);
    }
  }

  lemma ReadsKeep(s: State, a: Action)
    requires ReadInv(s) && StartInv(s) && Enabled(s, a) && Reads(a)
    ensures ReadInv(Apply(s, a)) && StartInv(Apply(s, a))
  {
    if a.Check? {
      CheckKeeps(s);
    } else {
      assert s.log.discarded == [];
    }
  }

  /** The loop's steps between one read and the next. */
  predicate Serves(a: Action) {
    a.WaitOver? || a.WaitPanics? || a.PingReply? || a.Reply? || a.Settle? || a.LoopMore? || a.LoopEnough? || a.LoopSend?
    || a.Dispatch? || a.CloseDone?
  }

  lemma ServingKeepsReads(s: State, a: Action)
    requires ReadInv(s) && Enabled(s, a) && Serves(a)
    ensures ReadInv(Apply(s, a))
  {
  }

  lemma ServingDiscardsNothing(s: State, a: Action)
    requires Enabled(s, a) && Serves(a)
    ensures Apply(s, a).log.discarded == s.log.discarded
  {
  }

  lemma DispatchKeepsStarts(s: State, verdict: Verdict)
    requires StartInv(s) && Enabled(s, Dispatch(verdict))
    ensures StartInv(Apply(s, Dispatch(verdict)))
  {
  }

  /** Nothing is started, and who comes next stays the same or is given up. */
  lemma ServingStartsNobody(s: State, a: Action)
    requires Enabled(s, a) && Serves(a) && !a.Dispatch? && (s.loop.Collecting? ==> s.loop.group != [])
    ensures var t := Apply(s, a);
            && t.log.executed == s.log.executed && t.accepted == s.accepted
            && (ToStart(t.loop) == ToStart(s.loop) || ToStart(t.loop) == None)
            && (t.loop.Collecting? ==> t.loop.group != [])
  {
  }

  /** The other routines touch nothing of this. */
  lemma OthersStayAway(s: State, a: Action)
    requires Enabled(s, a) && !Reads(a) && !Serves(a)
    ensures var t := Apply(s, a);
            && (t.loop == s.loop || (s.loop.Draining? && t.loop.Woken?))
            && t.accepted == s.accepted && (t.running ==> s.running)
            && t.log.read == s.log.read && t.log.discarded == s.log.discarded
            && t.log.executed == s.log.executed
  {
  }

  lemma ReadsKeepWork(s: State, a: Action)
    requires WorkInv(s) && Enabled(s, a) && Reads(a)
    ensures WorkInv(Apply(s, a))
  {
  }

  lemma ServingKeepsWork(s: State, a: Action)
    requires WorkInv(s) && Enabled(s, a) && Serves(a)
    ensures WorkInv(Apply(s, a))
  {
  }

  lemma OthersKeepWork(s: State, a: Action)
    requires WorkInv(s) && Enabled(s, a) && !Reads(a) && !Serves(a)
    ensures WorkInv(Apply(s, a))
  {
  }

  lemma StepKeepsWork(s: State, a: Action)
    requires WorkInv(s) && Enabled(s, a)
    ensures WorkInv(Apply(s, a))
  {
    if Reads(a) {
      ReadsKeepWork(s, a);
    } else if Serves(a) {
      ServingKeepsWork(s, a);
    } else {
      OthersKeepWork(s, a);
    }
  }

  lemma StepKeepsInv(s: State, a: Action)
    requires Inv(s) && Enabled(s, a)
    ensures Inv(Apply(s, a))
  {
    StepKeepsWork(s, a);
    if Reads(a) {
      ReadsKeep(s, a);
    } else if Serves(a) {
      ServingKeepsReads(s, a);
      if a.Dispatch? {
        DispatchKeepsStarts(s, a.verdict);
      } else {
        ServingStartsNobody(s, a);
      }
    } else {
      OthersStayAway(s, a);
    }
  }

  lemma {:induction false} RunKeepsInv(s: State, acts: seq<Action>)
    requires Inv(s) && CanRun(s, acts)
    ensures Inv(After(s, acts))
    decreases |acts|
  {
    if acts != [] {
      StepKeepsInv(s, acts[0]);
      RunKeepsInv(Apply(s, acts[0]), acts[1..]);
    }
  }

  lemma InitialInv()
    ensures Inv(Initial())
  {
    var s := Initial();
    assert s.accepted == [] && s.log.read == [] && s.log.discarded == [] && s.log.executed == [];
    assert s.loop == Reading && Heads(s.accepted) == [];
  }

  lemma ReachedInv(s: State)
    requires Reached(s)
    ensures Inv(s)
  {
    var acts :| CanRun(Initial(), acts) && After(Initial(), acts) == s;
    InitialInv();
    RunKeepsInv(Initial(), acts);
  }
}
