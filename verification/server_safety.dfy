// What every run of a server connection keeps: where each accepted request is, what pendingWg
// counts, who owns each pooled call object, and in what order answers are written.
module ServerSafety {
  import opened RpcTypes
  import opened Counting
  import opened Framing
  import opened ServerMachine

  // ----- kinds of requests -----

  predicate IsWork(accepted: seq<Accepted>, i: nat) { i < |accepted| && accepted[i].Work? }

  predicate IsDummy(accepted: seq<Accepted>, i: nat) {
    IsWork(accepted, i) && accepted[i].head.DummyReturn()
  }

  /** A call that reports on doneChan: its Done is not nil. */
  predicate Reports(accepted: seq<Accepted>, i: nat) {
    IsWork(accepted, i) && !accepted[i].head.DummyReturn()
  }

  ghost predicate AllHaveRun(accepted: seq<Accepted>, results: map<nat, Result>, q: seq<nat>) {
    forall j :: 0 <= j < |q| ==> Reports(accepted, q[j]) && q[j] in results
  }

  ghost predicate ReadOk(res: ReadResult) {
    match res
    case Fatal => true
    case Ping(h) => h.IsPing()
    case Bad(h, _) => !h.IsPing()
    case Good(h, _, _) => !h.IsPing() && h.serviceMethod != ""
  }

  ghost predicate DummyGroup(accepted: seq<Accepted>, results: map<nat, Result>, g: seq<nat>) {
    g != [] && |g| <= UNITE_PACKAGE_NUM + 1 && IsDummy(accepted, g[0])
    && AllHaveRun(accepted, results, g[1..])
  }

  ghost predicate LoopKind(loop: Loop, accepted: seq<Accepted>, results: map<nat, Result>) {
    match loop
    case ReadingBody(h) => !h.IsPing() && h.serviceMethod != ""
    case Discarding(h, text) => !h.IsPing()
    case Returned(res) => ReadOk(res)
    case PingReplying(h) => h.IsPing()
    case Replying(i, _) => i < |accepted|
    case Collecting(g) => DummyGroup(accepted, results, g)
    case Sending(g) => DummyGroup(accepted, results, g)
    case Sent(i, left) => IsDummy(accepted, i) && i !in results && left > 0
    case Dispatching(i, dummy) =>
      IsWork(accepted, i) && accepted[i].head.DummyReturn() == dummy && i !in results
    case _ => true
  }

  ghost predicate WriterKind(writer: RespWriter, accepted: seq<Accepted>, results: map<nat, Result>) {
    match writer
    case WCollecting(g) => g != [] && |g| <= UNITE_PACKAGE_NUM + 1 && AllHaveRun(accepted, results, g)
    case WSending(g) => g != [] && |g| <= UNITE_PACKAGE_NUM + 1 && AllHaveRun(accepted, results, g)
    case WSent(left) => left > 0
    case _ => true
  }

  ghost predicate KindInv(s: State) {
    && LoopKind(s.loop, s.accepted, s.results)
    && WriterKind(s.writer, s.accepted, s.results)
    && AllHaveRun(s.accepted, s.results, s.doneChan)
    && (forall i :: 0 <= i < |s.accepted| ==> !s.accepted[i].head.IsPing())
    && (forall i :: i in s.workers ==> Reports(s.accepted, i) && i !in s.results)
    && (forall i :: i in s.finished ==> Reports(s.accepted, i) && i in s.results)
    && (forall i :: i in s.dummies ==> IsDummy(s.accepted, i))
    && (forall i :: i in s.results ==> Reports(s.accepted, i))
    && (forall i :: i in s.log.twice ==> IsDummy(s.accepted, i) && i in s.log.abandoned)
    && (forall i :: i in s.log.rejections ==> i in s.log.abandoned && i !in s.results && IsWork(s.accepted, i))
  }

  // ----- where each request is -----

  function LoopOwes(loop: Loop): seq<nat> {
    match loop
    case Replying(i, _) => [i]
    case Collecting(g) => g
    case Sending(g) => g
    case Dispatching(i, dummy) => if dummy then [] else [i]
    case _ => []
  }

  function WriterOwes(writer: RespWriter): seq<nat> {
    match writer
    case WCollecting(g) => g
    case WSending(g) => g
    case _ => []
  }

  /** The places an unanswered request can be in. */
  datatype Places =
    Places(loop: seq<nat>, workers: set<nat>, finished: set<nat>, chan: seq<nat>, writer: seq<nat>) {
    function Has(i: nat): nat {
      Count(loop, i) + B(i in workers) + B(i in finished) + Count(chan, i) + Count(writer, i)
    }

    function Size(): nat { |loop| + |workers| + |finished| + |chan| + |writer| }
  }

  function PlacesOf(s: State): Places {
    Places(LoopOwes(s.loop), s.workers, s.finished, s.doneChan, WriterOwes(s.writer))
  }

  /** What can become of a request. */
  datatype Fates = Fates(answered: seq<nat>, nameless: set<nat>, panicked: set<nat>,
                         late: set<nat>, dropped: set<nat>) {
    function Has(i: nat): nat { Count(answered, i) + Lost(i) }

    function Lost(i: nat): nat { B(i in nameless) + B(i in panicked) + B(i in late) + B(i in dropped) }

    function SizeLost(): nat { |nameless| + |panicked| + |late| + |dropped| }
  }

  function FatesOf(log: Log): Fates {
    Fates(log.answered, log.nameless, log.panicked, log.late, log.dropped)
  }

  /** Conservation: each accepted request is in one place or has met one fate, and a dummy return
      whose dispatch failed counts twice. */
  predicate Placed(n: nat, twice: set<nat>, p: Places, f: Fates, i: nat) {
    p.Has(i) + f.Has(i) == B(i < n) + B(i in twice)
  }

  // ----- what pendingWg counts -----

  /** Done calls the loop still has to make for answers it has already written, or for a ping. */
  function LoopSettling(loop: Loop): nat {
    match loop
    case PingReplying(_) => 1
    case PingReplied => 1
    case Replied => 1
    case Sent(_, left) => left
    case _ => 0
  }

  function WriterSettling(writer: RespWriter): nat {
    if writer.WSent? then writer.left else 0
  }

  /** Requests and answers in flight. */
  function InFlight(s: State): nat {
    PlacesOf(s).Size() + LoopSettling(s.loop) + WriterSettling(s.writer)
  }

  function Leaks(log: Log): nat { FatesOf(log).SizeLost() + log.fatal + log.skipped }

  /** On every run: pendingWg counts what is in flight, plus what leaked, minus double answers. */
  predicate WgInv(s: State) { s.wg == InFlight(s) + Leaks(s.log) - |s.log.twice| }

  // ----- who owns a TFuncCall -----

  function LoopHolds(loop: Loop): seq<nat> {
    match loop
    case Collecting(g) => g
    case Sending(g) => g
    case Sent(i, _) => [i]
    case Dispatching(i, _) => [i]
    case _ => []
  }

  /** Where a call object can be while somebody may still touch it. */
  datatype Owners = Owners(loop: seq<nat>, workers: set<nat>, finished: set<nat>, dummies: set<nat>,
                           chan: seq<nat>, writer: seq<nat>) {
    function Has(i: nat): nat {
      Count(loop, i) + B(i in workers) + B(i in finished) + B(i in dummies) +
      Count(chan, i) + Count(writer, i)
    }
  }

  function OwnersOf(s: State): Owners {
    Owners(LoopHolds(s.loop), s.workers, s.finished, s.dummies, s.doneChan, WriterOwes(s.writer))
  }

  /** Each call object has one owner, or is back in the pool once, or will never be freed. */
  predicate Owned(accepted: seq<Accepted>, o: Owners, freed: seq<nat>, abandoned: set<nat>, i: nat) {
    o.Has(i) + Count(freed, i) + B(i in abandoned) == B(IsWork(accepted, i))
  }

  predicate Counted(s: State, i: nat) {
    && Placed(|s.accepted|, s.log.twice, PlacesOf(s), FatesOf(s.log), i)
    && Owned(s.accepted, OwnersOf(s), s.log.freed, s.log.abandoned, i)
  }

  ghost predicate CountsInv(s: State) { forall i: nat :: Counted(s, i) }

  // ----- what was answered, and in which order -----

  /** The part of the state that says what answers contain and in which order they are written. */
  datatype View = View(
    accepted: seq<Accepted>, results: map<nat, Result>, rejections: map<nat, string>,
    reply: Option<Answer>, replyTo: nat, answered: seq<nat>, answers: seq<Answer>,
    queued: seq<nat>, dequeued: seq<Dequeue>, chan: seq<nat>,
    writerWrote: seq<nat>, writerHand: seq<nat>, loopWrote: seq<nat>, loopHand: seq<nat>,
    anyDropped: bool)

  /** What RoutineRun took off doneChan and has not written yet. */
  function LoopHand(loop: Loop): seq<nat> {
    match loop
    case Collecting(g) => if g == [] then [] else g[1..]
    case Sending(g) => if g == [] then [] else g[1..]
    case _ => []
  }

  /** The answer the loop is about to write for a request it does not execute. */
  function Refusal(loop: Loop, accepted: seq<Accepted>): Option<Answer> {
    if loop.Replying? && loop.who < |accepted| then Some(Direct(accepted[loop.who].head, loop.text))
    else None
  }

  function ViewOf(s: State): View {
    View(s.accepted, s.results, s.log.rejections,
         Refusal(s.loop, s.accepted), if s.loop.Replying? then s.loop.who else 0,
         s.log.answered, s.log.answers, s.log.queued, s.log.dequeued, s.doneChan,
         s.log.writerWrote, WriterOwes(s.writer), s.log.loopWrote, LoopHand(s.loop),
         s.log.dropped != {})
  }

  // ----- closing -----

  ghost predicate CloseInv(s: State) {
    && (s.closed <==> s.loop.LoopExited?)
    && (!s.closed ==> s.log.late == {} && s.log.dropped == {})
    && (s.log.dropped != {} ==> s.writer.WExited?)
    && (s.log.graceful ==> s.loop.Closing? || s.loop.LoopExited?)
    && (s.loop.Woken? ==> s.wg <= 0)
    && (s.log.twice == {} ==> s.log.skipped == 0)
    && (s.log.twice == {} && s.log.graceful ==> InFlight(s) == 0 && Leaks(s.log) == 0)
  }

  ghost predicate AccountsInv(s: State) {
    KindInv(s) && CountsInv(s) && WgInv(s) && CloseInv(s)
  }

  // ----- counting, one request at a time -----

  lemma Alone(s: State, i: nat)
    requires AccountsInv(s)
    ensures Counted(s, i)
  {
  }

  /** A step that leaves every request where it is. */
  lemma NobodyMoves(s: State, t: State)
    requires CountsInv(s) && t.accepted == s.accepted && PlacesOf(t) == PlacesOf(s)
    requires FatesOf(t.log) == FatesOf(s.log) && OwnersOf(t) == OwnersOf(s)
    requires t.log.twice == s.log.twice && t.log.freed == s.log.freed
    requires t.log.abandoned == s.log.abandoned
    ensures CountsInv(t)
  {
    forall i: nat
      ensures Counted(t, i)
    {
      assert Counted(s, i);
    }
  }

  lemma {:induction false} MembersOfDistinct(g: seq<nat>)
    requires forall i: nat :: Count(g, i) <= 1
    ensures |Members(g)| == |g|
    ensures forall i: nat :: B(i in Members(g)) == Count(g, i)
  {
    if g != [] {
      forall i: nat
        ensures Count(g[1..], i) <= 1
      {
        assert Count(g, i) == B(g[0] == i) + Count(g[1..], i);
      }
      MembersOfDistinct(g[1..]);
      assert Members(g) == Members(g[1..]) + {g[0]};
      assert Count(g, g[0]) == 1 + Count(g[1..], g[0]);
    }
  }

  lemma {:induction false} MemberCounts(g: seq<nat>, i: nat)
    ensures i in g <==> Count(g, i) > 0
  {
    if g != [] {
      MemberCounts(g[1..], i);
      assert g == [g[0]] + g[1..];
    }
  }

  /** A group that will report holds each of its members once, and none of them is lost. */
  lemma DistinctGroup(s: State, g: seq<nat>)
    requires AccountsInv(s) && s.writer == WCollecting(g)
    ensures |Members(g)| == |g|
    ensures forall i: nat :: B(i in Members(g)) == Count(g, i)
    ensures Members(g) !! s.log.dropped && Members(g) !! s.log.abandoned
  {
    forall i: nat
      ensures Count(g, i) <= 1
      ensures i in g ==> i !in s.log.dropped && i !in s.log.abandoned
    {
      Alone(s, i);
      MemberCounts(g, i);
    }
    MembersOfDistinct(g);
  }

  lemma StillHaveRun(accepted: seq<Accepted>, results: map<nat, Result>, q: seq<nat>, who: nat, r: Result)
    requires AllHaveRun(accepted, results, q)
    ensures AllHaveRun(accepted, results[who := r], q)
  {
  }

  lemma AcceptingMore(s: State, more: Accepted)
    requires KindInv(s)
    ensures AllHaveRun(s.accepted + [more], s.results, s.doneChan)
    ensures WriterKind(s.writer, s.accepted + [more], s.results)
  {
  }

  lemma ReadHeadKeeps(s: State, head: RequestHeader, known: bool, text: string)
    requires AccountsInv(s) && Enabled(s, ReadHead(head, known, text))
    ensures AccountsInv(Apply(s, ReadHead(head, known, text)))
    ensures ViewOf(Apply(s, ReadHead(head, known, text))) == ViewOf(s)
  {
    NobodyMoves(s, Apply(s, ReadHead(head, known, text)));
  }

  lemma ReadHeadFailsKeeps(s: State)
    requires AccountsInv(s) && Enabled(s, ReadHeadFails)
    ensures AccountsInv(Apply(s, ReadHeadFails))
    ensures ViewOf(Apply(s, ReadHeadFails)) == ViewOf(s)
  {
    NobodyMoves(s, Apply(s, ReadHeadFails));
  }

  lemma ReadBodyKeeps(s: State, arg: Value, blank: Value)
    requires AccountsInv(s) && Enabled(s, ReadBody(arg, blank))
    ensures AccountsInv(Apply(s, ReadBody(arg, blank)))
    ensures ViewOf(Apply(s, ReadBody(arg, blank))) == ViewOf(s)
  {
    NobodyMoves(s, Apply(s, ReadBody(arg, blank)));
  }

  lemma BodyFailsKeeps(s: State, text: string)
    requires AccountsInv(s) && Enabled(s, BodyFails(text))
    ensures AccountsInv(Apply(s, BodyFails(text)))
    ensures ViewOf(Apply(s, BodyFails(text))) == ViewOf(s)
  {
    NobodyMoves(s, Apply(s, BodyFails(text)));
  }

  lemma DiscardKeeps(s: State)
    requires AccountsInv(s) && Enabled(s, Discard)
    ensures AccountsInv(Apply(s, Discard))
    ensures ViewOf(Apply(s, Discard)) == ViewOf(s)
  {
    NobodyMoves(s, Apply(s, Discard));
  }

  lemma CheckStoppedKeeps(s: State)
    requires AccountsInv(s) && Enabled(s, Check)
    requires !s.running
    ensures AccountsInv(Apply(s, Check))
    ensures ViewOf(Apply(s, Check)) == ViewOf(s)
  {
    NobodyMoves(s, Apply(s, Check));
  }

  lemma CheckFatalKeeps(s: State)
    requires AccountsInv(s) && Enabled(s, Check)
    requires s.running && s.loop.res.Fatal?
    ensures AccountsInv(Apply(s, Check))
    ensures ViewOf(Apply(s, Check)) == ViewOf(s)
  {
    NobodyMoves(s, Apply(s, Check));
  }

  lemma CheckPingKeeps(s: State)
    requires AccountsInv(s) && Enabled(s, Check)
    requires s.running && s.loop.res.Ping?
    ensures AccountsInv(Apply(s, Check))
    ensures ViewOf(Apply(s, Check)) == ViewOf(s)
  {
    NobodyMoves(s, Apply(s, Check));
  }

  lemma CheckNamelessCounts(s: State, i: nat)
    requires Counted(s, i) && Enabled(s, Check) && s.running && s.loop.res.Bad?
    requires s.loop.res.head.serviceMethod == "" && |s.accepted| !in s.log.nameless
    ensures Counted(Apply(s, Check), i)
  {
  }

  lemma CheckBadCounts(s: State, i: nat)
    requires Counted(s, i) && Enabled(s, Check) && s.running && s.loop.res.Bad?
    requires s.loop.res.head.serviceMethod != ""
    ensures Counted(Apply(s, Check), i)
  {
    CountOne(|s.accepted|, i);
  }

  lemma CheckNamelessKeepsKind(s: State)
    requires KindInv(s) && Enabled(s, Check)
    requires s.running && s.loop.res.Bad? && s.loop.res.head.serviceMethod == ""
    ensures KindInv(Apply(s, Check))
  {
  }

  lemma CheckNamelessKeeps(s: State)
    requires AccountsInv(s) && Enabled(s, Check) && s.running && s.loop.res.Bad?
    requires s.loop.res.head.serviceMethod == ""
    ensures AccountsInv(Apply(s, Check))
  {
    Alone(s, |s.accepted|);
    AcceptingMore(s, Refused(s.loop.res.head, s.loop.res.text));
    CheckNamelessKeepsKind(s);
    forall i: nat
      ensures Counted(Apply(s, Check), i)
    {
      CheckNamelessCounts(s, i);
    }
  }

  lemma CheckBadKeepsKind(s: State)
    requires KindInv(s) && Enabled(s, Check)
    requires s.running && s.loop.res.Bad? && s.loop.res.head.serviceMethod != ""
    ensures KindInv(Apply(s, Check))
  {
  }

  lemma CheckBadKeeps(s: State)
    requires AccountsInv(s) && Enabled(s, Check) && s.running && s.loop.res.Bad?
    requires s.loop.res.head.serviceMethod != ""
    ensures AccountsInv(Apply(s, Check))
  {
    AcceptingMore(s, Refused(s.loop.res.head, s.loop.res.text));
    CheckBadKeepsKind(s);
    forall i: nat
      ensures Counted(Apply(s, Check), i)
    {
      CheckBadCounts(s, i);
    }
  }

  lemma CheckGoodCounts(s: State, i: nat)
    requires Counted(s, i) && Enabled(s, Check)
    requires s.running && s.loop.res.Good?
    ensures Counted(Apply(s, Check), i)
  {
    CountOne(|s.accepted|, i);
  }

  lemma CheckGoodKeepsCounts(s: State)
    requires CountsInv(s) && Enabled(s, Check)
    requires s.running && s.loop.res.Good?
    ensures CountsInv(Apply(s, Check))
  {
    forall i: nat
      ensures Counted(Apply(s, Check), i)
    {
      CheckGoodCounts(s, i);
    }
  }

  lemma CheckGoodKeepsKind(s: State)
    requires KindInv(s) && Enabled(s, Check)
    requires s.running && s.loop.res.Good?
    ensures KindInv(Apply(s, Check))
  {
  }

  lemma CheckGoodKeeps(s: State)
    requires AccountsInv(s) && Enabled(s, Check)
    requires s.running && s.loop.res.Good?
    ensures AccountsInv(Apply(s, Check))
  {
    AcceptingMore(s, Work(s.loop.res.head, s.loop.res.arg, s.loop.res.blank));
    CheckGoodKeepsCounts(s);
    CheckGoodKeepsKind(s);
  }

  lemma WaitOverKeeps(s: State)
    requires AccountsInv(s) && Enabled(s, WaitOver)
    ensures AccountsInv(Apply(s, WaitOver))
    ensures ViewOf(Apply(s, WaitOver)) == ViewOf(s)
  {
    NobodyMoves(s, Apply(s, WaitOver));
  }

  lemma PingReplyKeeps(s: State)
    requires AccountsInv(s) && Enabled(s, PingReply)
    ensures AccountsInv(Apply(s, PingReply))
    ensures ViewOf(Apply(s, PingReply)) == ViewOf(s)
  {
    NobodyMoves(s, Apply(s, PingReply));
  }

  lemma ReplyCounts(s: State, i: nat)
    requires Counted(s, i) && Enabled(s, Reply)
    ensures Counted(Apply(s, Reply), i)
  {
    CountOne(s.loop.who, i);
    CountAppend(s.log.answered, [s.loop.who], i);
  }

  lemma ReplyKeeps(s: State)
    requires AccountsInv(s) && Enabled(s, Reply)
    ensures AccountsInv(Apply(s, Reply))
  {
    forall i: nat
      ensures Counted(Apply(s, Reply), i)
    {
      ReplyCounts(s, i);
    }
  }

  lemma WaitPanicsKeeps(s: State)
    requires AccountsInv(s) && Enabled(s, WaitPanics)
    ensures AccountsInv(Apply(s, WaitPanics))
    ensures ViewOf(Apply(s, WaitPanics)) == ViewOf(s)
  {
    NobodyMoves(s, Apply(s, WaitPanics));
  }

  lemma SettleKeepsKind(s: State)
    requires KindInv(s) && Enabled(s, Settle)
    ensures KindInv(Apply(s, Settle))
  {
  }

  lemma SettleKeepsWg(s: State)
    requires WgInv(s) && CloseInv(s) && Enabled(s, Settle)
    ensures WgInv(Apply(s, Settle)) && CloseInv(Apply(s, Settle))
  {
  }

  lemma SettleDoneKeeps(s: State)
    requires AccountsInv(s) && Enabled(s, Settle) && s.wg >= 1
    ensures AccountsInv(Apply(s, Settle))
    ensures ViewOf(Apply(s, Settle)) == ViewOf(s)
  {
    SettleKeepsKind(s);
    SettleKeepsWg(s);
    NobodyMoves(s, Apply(s, Settle));
  }

  lemma SettlePanicsPlaces(s: State, i: nat)
    requires Enabled(s, Settle) && s.wg < 1
    requires Placed(|s.accepted|, s.log.twice, PlacesOf(s), FatesOf(s.log), i)
    ensures var t := Apply(s, Settle);
            Placed(|t.accepted|, t.log.twice, PlacesOf(t), FatesOf(t.log), i)
  {
  }

  lemma SettlePanicsOwners(s: State, i: nat)
    requires Enabled(s, Settle) && s.wg < 1
    requires Owned(s.accepted, OwnersOf(s), s.log.freed, s.log.abandoned, i)
    requires s.loop.Sent? ==> s.loop.who !in s.log.abandoned
    ensures var t := Apply(s, Settle);
            Owned(t.accepted, OwnersOf(t), t.log.freed, t.log.abandoned, i)
  {
    if s.loop.Sent? {
      CountOne(s.loop.who, i);
    }
  }

  lemma SettlePanicsCounts(s: State, i: nat)
    requires Counted(s, i) && Enabled(s, Settle) && s.wg < 1
    requires s.loop.Sent? ==> s.loop.who !in s.log.abandoned
    ensures Counted(Apply(s, Settle), i)
  {
    SettlePanicsPlaces(s, i);
    SettlePanicsOwners(s, i);
  }

  lemma SettlePanicsKeepsCounts(s: State)
    requires CountsInv(s) && Enabled(s, Settle) && s.wg < 1
    requires s.loop.Sent? ==> s.loop.who !in s.log.abandoned
    ensures CountsInv(Apply(s, Settle))
  {
    forall i: nat
      ensures Counted(Apply(s, Settle), i)
    {
      SettlePanicsCounts(s, i);
    }
  }

  lemma SettleKeepsView(s: State)
    requires Enabled(s, Settle)
    ensures ViewOf(Apply(s, Settle)) == ViewOf(s)
  {
  }

  lemma SettlePanicsKeeps(s: State)
    requires AccountsInv(s) && Enabled(s, Settle) && s.wg < 1
    ensures AccountsInv(Apply(s, Settle))
    ensures ViewOf(Apply(s, Settle)) == ViewOf(s)
  {
    SettleKeepsView(s);
    SettleKeepsKind(s);
    SettleKeepsWg(s);
    if s.loop.Sent? {
      Alone(s, s.loop.who);
      CountOne(s.loop.who, s.loop.who);
    }
    SettlePanicsKeepsCounts(s);
  }

  lemma LoopMoreCounts(s: State, i: nat)
    requires Counted(s, i) && Enabled(s, LoopMore)
    ensures Counted(Apply(s, LoopMore), i)
  {
    CountAppend(s.loop.group, [s.doneChan[0]], i);
    CountOne(s.doneChan[0], i);
  }

  lemma LoopMoreKeeps(s: State)
    requires AccountsInv(s) && Enabled(s, LoopMore)
    ensures AccountsInv(Apply(s, LoopMore))
  {
    assert (s.loop.group + [s.doneChan[0]])[1..] == s.loop.group[1..] + [s.doneChan[0]];
    forall i: nat
      ensures Counted(Apply(s, LoopMore), i)
    {
      LoopMoreCounts(s, i);
    }
  }

  lemma LoopEnoughKeeps(s: State)
    requires AccountsInv(s) && Enabled(s, LoopEnough)
    ensures AccountsInv(Apply(s, LoopEnough))
    ensures ViewOf(Apply(s, LoopEnough)) == ViewOf(s)
  {
    NobodyMoves(s, Apply(s, LoopEnough));
  }

  lemma LoopSendCounts(s: State, i: nat)
    requires Counted(s, i) && Enabled(s, LoopSend)
    requires s.loop.group != []
    ensures Counted(Apply(s, LoopSend), i)
  {
    var g, t := s.loop.group, Apply(s, LoopSend);
    assert PlacesOf(t) == PlacesOf(s).(loop := []);
    assert FatesOf(t.log) == FatesOf(s.log).(answered := s.log.answered + g);
    assert OwnersOf(t) == OwnersOf(s).(loop := [g[0]]);
    CountOne(g[0], i);
    CountAppend(s.log.answered, g, i);
    CountAppend(s.log.freed, g[1..], i);
  }

  lemma LoopSendKeeps(s: State)
    requires AccountsInv(s) && Enabled(s, LoopSend)
    ensures AccountsInv(Apply(s, LoopSend))
  {
    forall i: nat
      ensures Counted(Apply(s, LoopSend), i)
    {
      LoopSendCounts(s, i);
    }
  }

  lemma DispatchWorkerCounts(s: State, verdict: Verdict, i: nat)
    requires Counted(s, i) && Enabled(s, Dispatch(verdict))
    requires verdict.Runs? && !s.loop.dummy
    ensures Counted(Apply(s, Dispatch(verdict)), i)
  {
    CountOne(s.loop.who, i);
  }

  lemma DispatchWorkerKeepsKind(s: State, verdict: Verdict)
    requires KindInv(s) && Enabled(s, Dispatch(verdict))
    requires verdict.Runs? && !s.loop.dummy
    ensures KindInv(Apply(s, Dispatch(verdict)))
  {
  }

  lemma DispatchWorkerKeeps(s: State, verdict: Verdict)
    requires AccountsInv(s) && Enabled(s, Dispatch(verdict))
    requires verdict.Runs? && !s.loop.dummy
    ensures AccountsInv(Apply(s, Dispatch(verdict)))
    ensures ViewOf(Apply(s, Dispatch(verdict))) == ViewOf(s)
  {
    Alone(s, s.loop.who);
    DispatchWorkerKeepsKind(s, verdict);
    forall i: nat
      ensures Counted(Apply(s, Dispatch(verdict)), i)
    {
      DispatchWorkerCounts(s, verdict, i);
    }
  }

  lemma DispatchDummyCounts(s: State, verdict: Verdict, i: nat)
    requires Counted(s, i) && Enabled(s, Dispatch(verdict))
    requires verdict.Runs? && s.loop.dummy
    ensures Counted(Apply(s, Dispatch(verdict)), i)
  {
    CountOne(s.loop.who, i);
  }

  lemma DispatchDummyKeeps(s: State, verdict: Verdict)
    requires AccountsInv(s) && Enabled(s, Dispatch(verdict))
    requires verdict.Runs? && s.loop.dummy
    ensures AccountsInv(Apply(s, Dispatch(verdict)))
    ensures ViewOf(Apply(s, Dispatch(verdict))) == ViewOf(s)
  {
    forall i: nat
      ensures Counted(Apply(s, Dispatch(verdict)), i)
    {
      DispatchDummyCounts(s, verdict, i);
    }
  }

  lemma DispatchRefusedCounts(s: State, verdict: Verdict, i: nat)
    requires Counted(s, i) && Enabled(s, Dispatch(verdict))
    requires verdict.Fails? && !s.loop.dummy
    ensures Counted(Apply(s, Dispatch(verdict)), i)
  {
    CountOne(s.loop.who, i);
  }

  lemma DispatchRefusedKeeps(s: State, verdict: Verdict)
    requires AccountsInv(s) && Enabled(s, Dispatch(verdict))
    requires verdict.Fails? && !s.loop.dummy
    ensures AccountsInv(Apply(s, Dispatch(verdict)))
  {
    forall i: nat
      ensures Counted(Apply(s, Dispatch(verdict)), i)
    {
      DispatchRefusedCounts(s, verdict, i);
    }
  }

  lemma DispatchDummyRefusedCounts(s: State, verdict: Verdict, i: nat)
    requires Counted(s, i) && Enabled(s, Dispatch(verdict))
    requires verdict.Fails? && s.loop.dummy
    requires s.loop.who in s.log.twice ==> s.loop.who in s.log.abandoned
    ensures Counted(Apply(s, Dispatch(verdict)), i)
  {
    CountOne(s.loop.who, i);
  }

  lemma DispatchDummyRefusedKeepsCounts(s: State, verdict: Verdict)
    requires CountsInv(s) && Enabled(s, Dispatch(verdict))
    requires verdict.Fails? && s.loop.dummy
    requires s.loop.who in s.log.twice ==> s.loop.who in s.log.abandoned
    ensures CountsInv(Apply(s, Dispatch(verdict)))
  {
    forall i: nat
      ensures Counted(Apply(s, Dispatch(verdict)), i)
    {
      DispatchDummyRefusedCounts(s, verdict, i);
    }
  }

  lemma DispatchDummyRefusedKeepsKind(s: State, verdict: Verdict)
    requires KindInv(s) && Enabled(s, Dispatch(verdict))
    requires verdict.Fails? && s.loop.dummy
    ensures KindInv(Apply(s, Dispatch(verdict)))
  {
  }

  lemma DispatchDummyRefusedKeepsWg(s: State, verdict: Verdict)
    requires WgInv(s) && CloseInv(s) && Enabled(s, Dispatch(verdict))
    requires verdict.Fails? && s.loop.dummy && s.loop.who !in s.log.twice
    ensures WgInv(Apply(s, Dispatch(verdict))) && CloseInv(Apply(s, Dispatch(verdict)))
  {
  }

  lemma DispatchDummyRefusedKeeps(s: State, verdict: Verdict)
    requires AccountsInv(s) && Enabled(s, Dispatch(verdict))
    requires verdict.Fails? && s.loop.dummy
    ensures AccountsInv(Apply(s, Dispatch(verdict)))
  {
    Alone(s, s.loop.who);
    CountOne(s.loop.who, s.loop.who);
    assert s.loop.who !in s.log.twice;
    DispatchDummyRefusedKeepsCounts(s, verdict);
    DispatchDummyRefusedKeepsKind(s, verdict);
    DispatchDummyRefusedKeepsWg(s, verdict);
  }

  lemma CloseDoneKeeps(s: State)
    requires AccountsInv(s) && Enabled(s, CloseDone)
    ensures AccountsInv(Apply(s, CloseDone))
    ensures ViewOf(Apply(s, CloseDone)) == ViewOf(s)
  {
    NobodyMoves(s, Apply(s, CloseDone));
  }

  lemma ReturnCounts(s: State, who: nat, result: ServerMachine.Result, i: nat)
    requires Counted(s, i) && Enabled(s, Return(who, result))
    ensures Counted(Apply(s, Return(who, result)), i)
  {
  }

  lemma ReturnKeepsKind(s: State, who: nat, result: ServerMachine.Result)
    requires KindInv(s) && Enabled(s, Return(who, result))
    requires who !in s.log.rejections && (s.loop.Dispatching? ==> s.loop.who != who)
    ensures KindInv(Apply(s, Return(who, result)))
  {
    StillHaveRun(s.accepted, s.results, s.doneChan, who, result);
  }

  lemma ReturnKeeps(s: State, who: nat, result: ServerMachine.Result)
    requires AccountsInv(s) && Enabled(s, Return(who, result))
    ensures AccountsInv(Apply(s, Return(who, result)))
  {
    Alone(s, who);
    CountOne(who, who);
    ReturnKeepsKind(s, who, result);
    forall i: nat
      ensures Counted(Apply(s, Return(who, result)), i)
    {
      ReturnCounts(s, who, result, i);
    }
  }

  lemma HandlerPanicsCounts(s: State, who: nat, i: nat)
    requires Counted(s, i) && Enabled(s, HandlerPanics(who))
    requires who in s.log.twice ==> who in s.log.abandoned
    ensures Counted(Apply(s, HandlerPanics(who)), i)
  {
  }

  lemma HandlerPanicsKeepsCounts(s: State, who: nat)
    requires CountsInv(s) && Enabled(s, HandlerPanics(who))
    requires who in s.log.twice ==> who in s.log.abandoned
    ensures CountsInv(Apply(s, HandlerPanics(who)))
  {
    forall i: nat
      ensures Counted(Apply(s, HandlerPanics(who)), i)
    {
      HandlerPanicsCounts(s, who, i);
    }
  }

  lemma HandlerPanicsKeepsKind(s: State, who: nat)
    requires KindInv(s) && Enabled(s, HandlerPanics(who))
    ensures KindInv(Apply(s, HandlerPanics(who)))
  {
  }

  lemma HandlerPanicsKeepsWg(s: State, who: nat)
    requires WgInv(s) && CloseInv(s) && Enabled(s, HandlerPanics(who))
    requires who !in s.log.panicked
    ensures WgInv(Apply(s, HandlerPanics(who))) && CloseInv(Apply(s, HandlerPanics(who)))
  {
  }

  lemma HandlerPanicsKeeps(s: State, who: nat)
    requires AccountsInv(s) && Enabled(s, HandlerPanics(who))
    ensures AccountsInv(Apply(s, HandlerPanics(who)))
    ensures ViewOf(Apply(s, HandlerPanics(who))) == ViewOf(s)
  {
    Alone(s, who);
    HandlerPanicsKeepsCounts(s, who);
    HandlerPanicsKeepsKind(s, who);
    HandlerPanicsKeepsWg(s, who);
  }

  lemma DeliverOpenCounts(s: State, who: nat, i: nat)
    requires Counted(s, i) && Enabled(s, Deliver(who))
    requires !s.closed
    ensures Counted(Apply(s, Deliver(who)), i)
  {
    CountOne(who, i);
    CountAppend(s.doneChan, [who], i);
  }

  lemma DeliverOpenKeeps(s: State, who: nat)
    requires AccountsInv(s) && Enabled(s, Deliver(who))
    requires !s.closed
    ensures AccountsInv(Apply(s, Deliver(who)))
  {
    Alone(s, who);
    forall i: nat
      ensures Counted(Apply(s, Deliver(who)), i)
    {
      DeliverOpenCounts(s, who, i);
    }
  }

  lemma DeliverLateCounts(s: State, who: nat, i: nat)
    requires Counted(s, i) && Enabled(s, Deliver(who))
    requires s.closed
    requires who in s.log.twice ==> who in s.log.abandoned
    ensures Counted(Apply(s, Deliver(who)), i)
  {
  }

  lemma DeliverLateKeepsCounts(s: State, who: nat)
    requires CountsInv(s) && Enabled(s, Deliver(who))
    requires s.closed
    requires who in s.log.twice ==> who in s.log.abandoned
    ensures CountsInv(Apply(s, Deliver(who)))
  {
    forall i: nat
      ensures Counted(Apply(s, Deliver(who)), i)
    {
      DeliverLateCounts(s, who, i);
    }
  }

  lemma DeliverLateKeepsKind(s: State, who: nat)
    requires KindInv(s) && Enabled(s, Deliver(who))
    requires s.closed
    ensures KindInv(Apply(s, Deliver(who)))
  {
  }

  lemma DeliverLateKeepsWg(s: State, who: nat)
    requires WgInv(s) && CloseInv(s) && Enabled(s, Deliver(who))
    requires s.closed && who !in s.log.late
    ensures WgInv(Apply(s, Deliver(who))) && CloseInv(Apply(s, Deliver(who)))
  {
  }

  lemma DeliverLateKeeps(s: State, who: nat)
    requires AccountsInv(s) && Enabled(s, Deliver(who))
    requires s.closed
    ensures AccountsInv(Apply(s, Deliver(who)))
    ensures ViewOf(Apply(s, Deliver(who))) == ViewOf(s)
  {
    Alone(s, who);
    DeliverLateKeepsCounts(s, who);
    DeliverLateKeepsKind(s, who);
    DeliverLateKeepsWg(s, who);
  }

  lemma DummyReturnsCounts(s: State, who: nat, i: nat)
    requires Counted(s, i) && Enabled(s, DummyReturns(who))
    ensures Counted(Apply(s, DummyReturns(who)), i)
  {
    CountOne(who, i);
    CountAppend(s.log.freed, [who], i);
  }

  lemma DummyReturnsKeeps(s: State, who: nat)
    requires AccountsInv(s) && Enabled(s, DummyReturns(who))
    ensures AccountsInv(Apply(s, DummyReturns(who)))
    ensures ViewOf(Apply(s, DummyReturns(who))) == ViewOf(s)
  {
    forall i: nat
      ensures Counted(Apply(s, DummyReturns(who)), i)
    {
      DummyReturnsCounts(s, who, i);
    }
  }

  lemma DummyPanicsCounts(s: State, who: nat, i: nat)
    requires Counted(s, i) && Enabled(s, DummyPanics(who))
    ensures Counted(Apply(s, DummyPanics(who)), i)
  {
  }

  lemma DummyPanicsKeeps(s: State, who: nat)
    requires AccountsInv(s) && Enabled(s, DummyPanics(who))
    ensures AccountsInv(Apply(s, DummyPanics(who)))
    ensures ViewOf(Apply(s, DummyPanics(who))) == ViewOf(s)
  {
    forall i: nat
      ensures Counted(Apply(s, DummyPanics(who)), i)
    {
      DummyPanicsCounts(s, who, i);
    }
  }

  lemma WTakeCounts(s: State, i: nat)
    requires Counted(s, i) && Enabled(s, WTake)
    ensures Counted(Apply(s, WTake), i)
  {
    CountOne(s.doneChan[0], i);
  }

  lemma WTakeKeeps(s: State)
    requires AccountsInv(s) && Enabled(s, WTake)
    ensures AccountsInv(Apply(s, WTake))
  {
    forall i: nat
      ensures Counted(Apply(s, WTake), i)
    {
      WTakeCounts(s, i);
    }
  }

  lemma WClosedKeeps(s: State)
    requires AccountsInv(s) && Enabled(s, WClosed)
    ensures AccountsInv(Apply(s, WClosed))
    ensures ViewOf(Apply(s, WClosed)) == ViewOf(s)
  {
    NobodyMoves(s, Apply(s, WClosed));
  }

  lemma WMoreCounts(s: State, i: nat)
    requires Counted(s, i) && Enabled(s, WMore)
    ensures Counted(Apply(s, WMore), i)
  {
    CountAppend(s.writer.group, [s.doneChan[0]], i);
    CountOne(s.doneChan[0], i);
  }

  lemma WMoreKeeps(s: State)
    requires AccountsInv(s) && Enabled(s, WMore)
    ensures AccountsInv(Apply(s, WMore))
  {
    forall i: nat
      ensures Counted(Apply(s, WMore), i)
    {
      WMoreCounts(s, i);
    }
  }

  lemma WDropCounts(s: State, i: nat)
    requires Counted(s, i) && Enabled(s, WDrop)
    requires B(i in Members(s.writer.group)) == Count(s.writer.group, i)
    requires i in Members(s.writer.group) ==> i !in s.log.dropped && i !in s.log.abandoned
    ensures Counted(Apply(s, WDrop), i)
  {
  }

  lemma WDropKeeps(s: State)
    requires AccountsInv(s) && Enabled(s, WDrop)
    ensures AccountsInv(Apply(s, WDrop))
  {
    DistinctGroup(s, s.writer.group);
    forall i: nat
      ensures Counted(Apply(s, WDrop), i)
    {
      WDropCounts(s, i);
    }
  }

  lemma WEnoughKeeps(s: State)
    requires AccountsInv(s) && Enabled(s, WEnough)
    ensures AccountsInv(Apply(s, WEnough))
    ensures ViewOf(Apply(s, WEnough)) == ViewOf(s)
  {
    NobodyMoves(s, Apply(s, WEnough));
  }

  lemma WSendPlaces(s: State, i: nat)
    requires Enabled(s, WSend) && Placed(|s.accepted|, s.log.twice, PlacesOf(s), FatesOf(s.log), i)
    ensures var t := Apply(s, WSend);
            Placed(|t.accepted|, t.log.twice, PlacesOf(t), FatesOf(t.log), i)
  {
    CountAppend(s.log.answered, s.writer.group, i);
  }

  lemma WSendOwners(s: State, i: nat)
    requires Enabled(s, WSend) && Owned(s.accepted, OwnersOf(s), s.log.freed, s.log.abandoned, i)
    ensures var t := Apply(s, WSend);
            Owned(t.accepted, OwnersOf(t), t.log.freed, t.log.abandoned, i)
  {
    CountAppend(s.log.freed, s.writer.group, i);
  }

  lemma WSendCounts(s: State, i: nat)
    requires Counted(s, i) && Enabled(s, WSend)
    ensures Counted(Apply(s, WSend), i)
  {
    WSendPlaces(s, i);
    WSendOwners(s, i);
  }

  lemma WSendKeeps(s: State)
    requires AccountsInv(s) && Enabled(s, WSend)
    ensures AccountsInv(Apply(s, WSend))
  {
    forall i: nat
      ensures Counted(Apply(s, WSend), i)
    {
      WSendCounts(s, i);
    }
  }

  lemma WSettleKeepsKind(s: State)
    requires KindInv(s) && Enabled(s, WSettle)
    ensures KindInv(Apply(s, WSettle))
  {
  }

  lemma WSettleKeepsWg(s: State)
    requires WgInv(s) && CloseInv(s) && Enabled(s, WSettle)
    ensures WgInv(Apply(s, WSettle)) && CloseInv(Apply(s, WSettle))
  {
  }

  lemma WSettleKeeps(s: State)
    requires AccountsInv(s) && Enabled(s, WSettle)
    ensures AccountsInv(Apply(s, WSettle))
    ensures ViewOf(Apply(s, WSettle)) == ViewOf(s)
  {
    WSettleKeepsKind(s);
    WSettleKeepsWg(s);
    NobodyMoves(s, Apply(s, WSettle));
  }

  lemma StopKeeps(s: State)
    requires AccountsInv(s) && Enabled(s, Stop)
    ensures AccountsInv(Apply(s, Stop))
    ensures ViewOf(Apply(s, Stop)) == ViewOf(s)
  {
    NobodyMoves(s, Apply(s, Stop));
  }
}
