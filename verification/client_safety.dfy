// What every run of a client connection keeps: which registration a key means, where each call is,
// how often it completes, and in which order requests are written.
module ClientSafety {
  import opened RpcTypes
  import opened Counting
  import opened ClientMachine

  // ----- invariants -----

  /** A key in `pending` is the registration's own number, and lies below the next key. */
  ghost predicate KeysOk(seqNo: nat, pending: map<nat, nat>, sent: nat) {
    seqNo == sent % TWO_TO_THE_64 && forall k :: k in pending ==> k < sent && pending[k] == k
  }

  ghost predicate KeysInv(s: State) {
    |s.outcomes| == |s.sent| && KeysOk(s.seqNo, s.pending, |s.sent|)
  }

  /** `group` holds the last registrations, in order. */
  ghost predicate Latest(group: seq<Entry>, sent: nat) {
    && 1 <= |group| <= UNITE_PACKAGE_NUM + 1
    && |group| <= sent
    && forall j :: 0 <= j < |group| ==>
         group[j] == Entry(sent - |group| + j, sent - |group| + j)
  }

  ghost predicate GroupInv(s: State) {
    match s.writer
    case Batching(g) => Latest(g, |s.sent|)
    case Writing(g, next) => Latest(g, |s.sent|) && next <= |g|
    case CleaningUp(g, next) => Latest(g, |s.sent|) && next <= |g|
    case FailingOne(g, next, idx) => Latest(g, |s.sent|) && next < |g| && idx == g[next].idx
    case _ => true
  }

  function ReaderHand(reader: Reader): Option<nat> {
    match reader
    case GotCall(_, who) => who
    case Completing(idx, _, _) => Some(idx)
    case _ => None
  }

  function WriterHand(writer: Writer): Option<nat> {
    if writer.FailingOne? then Some(writer.idx) else None
  }

  /** The calls somebody holds in order to complete them. */
  datatype Hands = Hands(reader: Option<nat>, writer: Option<nat>) {
    function Count(i: nat): nat { B(reader == Some(i)) + B(writer == Some(i)) }

    predicate Below(n: nat) {
      (reader.Some? ==> reader.value < n) && (writer.Some? ==> writer.value < n)
    }
  }

  function HandsOf(s: State): Hands { Hands(ReaderHand(s.reader), WriterHand(s.writer)) }

  /** What onShutDown saw. */
  datatype Snapshot = Snapshot(shutdown: bool, repaired: bool, atShutdown: set<nat>) {
    /** Completed by onShutDown, left in the map, and found there again by the failing writer. */
    predicate Revived(pending: map<nat, nat>, i: nat) {
      shutdown && !repaired && i in atShutdown && i !in pending
    }
  }

  function SnapshotOf(s: State): Snapshot { Snapshot(s.shutdown, s.repaired, s.atShutdown) }

  /** The conservation law: before shutdown a registered call is in exactly one place; afterwards it
      has one completion, made or about to be made, and one more exactly if it was revived. */
  ghost predicate Balanced(outcomes: seq<seq<Outcome>>, pending: map<nat, nat>, hands: Hands, snap: Snapshot) {
    forall i :: 0 <= i < |outcomes| ==>
      |outcomes[i]| + hands.Count(i) + B(!snap.shutdown && i in pending)
      == 1 + B(snap.Revived(pending, i))
  }

  ghost predicate BalanceInv(s: State) {
    Balanced(s.outcomes, s.pending, HandsOf(s), SnapshotOf(s)) && HandsOf(s).Below(|s.sent|)
  }

  ghost predicate ShutdownInv(s: State) {
    && (s.shutdown <==> s.reader.Notifying? || s.reader.ReaderExited?)
    && (s.shutdown ==> !s.writer.Batching? && forall k :: k in s.pending ==> k in s.atShutdown)
    && (s.shutdown && s.repaired ==> s.pending == map[])
    && (!s.shutdown ==> s.atShutdown == {})
    && (forall i :: i in s.atShutdown ==> i < |s.sent|)
  }

  /** The first `n` members of the failed group have been looked up. */
  ghost predicate Swept(group: seq<Entry>, n: nat, pending: map<nat, nat>) {
    forall j :: 0 <= j < n && j < |group| ==> group[j].idx !in pending
  }

  ghost predicate OnlyFailedRevive(snap: Snapshot, pending: map<nat, nat>, failed: set<nat>) {
    forall i :: snap.Revived(pending, i) ==> i in failed
  }

  ghost predicate Unlisted(failed: set<nat>, pending: map<nat, nat>) {
    forall i :: i in failed ==> i !in pending
  }

  ghost predicate FailureInv(s: State) {
    && OnlyFailedRevive(SnapshotOf(s), s.pending, s.failed)
    && match s.writer
       case CleaningUp(g, next) => s.failed == GroupIndices(g) && Swept(g, next, s.pending)
       case FailingOne(g, next, idx) => s.failed == GroupIndices(g) && Swept(g, next + 1, s.pending)
       case WriterExited => Unlisted(s.failed, s.pending)
       case _ => s.failed == {}
  }

  ghost predicate AccountsInv(s: State) {
    KeysInv(s) && GroupInv(s) && ShutdownInv(s) && FailureInv(s) && BalanceInv(s)
  }

  // ----- what the history adds to the accounts -----

  function Held(writer: Writer): seq<Call> {
    match writer
    case Holding(call) => [call]
    case Rejecting(call) => [call]
    case _ => []
  }

  /** The requests among the messages, pings dropped. */
  function Requests(messages: seq<Message>): seq<Entry> {
    if messages == [] then []
    else
      var n := |messages| - 1;
      Requests(messages[..n]) +
      match messages[n] case PingMessage => [] case RequestMessage(e) => [e]
  }

  /** What one-at-a-time sending of the first `n` registrations would write. */
  function OneAtATime(n: nat): seq<Entry> { seq(n, i requires 0 <= i < n => Entry(i, i)) }

  predicate WrittenAgrees(writer: Writer, written: nat, sent: nat) {
    match writer
    case Batching(g) => written + |g| == sent
    case Writing(g, next) => written + |g| == sent + next
    case CleaningUp(_, _) => written <= sent
    case FailingOne(_, _, _) => written <= sent
    case WriterExited => written <= sent
    case _ => written == sent
  }

  ghost predicate InOrder(messages: seq<Message>) {
    Requests(messages) == OneAtATime(|Requests(messages)|)
  }

  ghost predicate WrittenInv(s: State) {
    InOrder(s.messages) && WrittenAgrees(s.writer, |Requests(s.messages)|, |s.sent|)
  }

  predicate AddsUp(taken: seq<Call>, sent: seq<Call>, rejected: seq<Call>, held: seq<Call>) {
    taken == sent + rejected + held
  }

  ghost predicate TakenInv(s: State) {
    && AddsUp(s.taken, s.sent, s.rejected, Held(s.writer))
    && (s.rejected != [] ==> |s.rejected| == 1 && s.writer.WriterExited?)
    && (s.rejected != [] || s.writer.Rejecting? ==> s.shutdown || s.closing)
    && (s.shutdown ==>
          |s.taken| <= s.takenAtShutdown +
                       B(s.writer.Holding? || s.writer.Rejecting? || s.writer.WriterExited?))
  }

  ghost predicate Inv(s: State) { AccountsInv(s) && TakenInv(s) && WrittenInv(s) }

  /** The first registration whose request may still be written. */
  function NextToWrite(writer: Writer, sent: nat): int {
    match writer
    case Batching(g) => sent - |g|
    case Writing(g, next) => sent - |g| + next
    case _ => sent
  }

  /** What no step undoes. After shutdown nothing is registered and `pending` only shrinks. */
  ghost predicate Grows(s: State, t: State) {
    && |s.sent| <= |t.sent| && t.repaired == s.repaired
    && NextToWrite(s.writer, |s.sent|) <= NextToWrite(t.writer, |t.sent|)
    && (s.shutdown ==> t.shutdown && t.sent == s.sent && t.takenAtShutdown == s.takenAtShutdown
                       && forall k :: k in t.pending ==> k in s.pending)
  }

  /** The call an action takes from the shared queue, if any. */
  function TakenBy(a: Action): seq<Call> {
    match a
    case Take(call) => [call]
    case BatchMore(call) => [call]
    case _ => []
  }

  /** What the owner of the queue and of the connection list can see of a step. */
  ghost predicate Visible(s: State, a: Action, t: State) {
    && AddsUp(t.taken, s.taken, TakenBy(a), [])
    && (t.reader.ReaderExited? <==> s.reader.ReaderExited? || a.NotifyParent?)
  }

  /** Nothing happens to the calls and the reader. */
  ghost predicate SameCalls(s: State, t: State) {
    t.sent == s.sent && t.reader == s.reader && t.outcomes == s.outcomes
  }

  // ----- preservation -----

  lemma RegisterKeepsKeys(s: State, c: Call)
    requires KeysInv(s) && |s.sent| < TWO_TO_THE_64
    ensures KeysInv(Register(s, c)) && s.seqNo == |s.sent| && s.seqNo !in s.pending
  {
  }

  /** A step of a run that registers at most 2^64 calls. */
  ghost predicate MayStep(s: State, a: Action) {
    Inv(s) && Enabled(s, a) && |Apply(s, a).sent| <= TWO_TO_THE_64
  }

  /** Somebody takes a pending call out of the map in order to complete it. */
  lemma TakingOutKeepsBalance(outcomes: seq<seq<Outcome>>, pending: map<nat, nat>, hands: Hands,
                              taker: Hands, snap: Snapshot, key: nat)
    requires Balanced(outcomes, pending, hands, snap) && key in pending
    requires snap.shutdown ==> key in snap.atShutdown && !snap.repaired
    requires forall i :: taker.Count(i) == hands.Count(i) + B(i == key)
    ensures Balanced(outcomes, pending - {key}, taker, snap)
  {
  }

  /** Whoever holds a call completes it. */
  lemma CompletingKeepsBalance(outcomes: seq<seq<Outcome>>, pending: map<nat, nat>, hands: Hands,
                               empty: Hands, snap: Snapshot, idx: nat, o: Outcome)
    requires Balanced(outcomes, pending, hands, snap) && idx < |outcomes|
    requires forall i :: hands.Count(i) == empty.Count(i) + B(i == idx)
    ensures Balanced(Completed(outcomes, idx, o), pending, empty, snap)
  {
  }

  lemma SweepingOn(group: seq<Entry>, n: nat, pending: map<nat, nat>)
    requires Swept(group, n, pending) && n < |group| && group[n].key == group[n].idx
    ensures Swept(group, n + 1, pending - {group[n].key})
  {
  }

  lemma TakeKeeps(s: State, call: Call)
    requires MayStep(s, Take(call))
    ensures Inv(Apply(s, Take(call))) && Grows(s, Apply(s, Take(call)))
    ensures Visible(s, Take(call), Apply(s, Take(call)))
    ensures SameCalls(s, Apply(s, Take(call)))
  {
  }

  lemma TakeClosedKeeps(s: State)
    requires MayStep(s, TakeClosed)
    ensures Inv(Apply(s, TakeClosed)) && Grows(s, Apply(s, TakeClosed))
    ensures Visible(s, TakeClosed, Apply(s, TakeClosed))
    ensures SameCalls(s, Apply(s, TakeClosed))
  {
  }

  lemma TakeExitKeeps(s: State)
    requires MayStep(s, TakeExit)
    ensures Inv(Apply(s, TakeExit)) && Grows(s, Apply(s, TakeExit))
    ensures Visible(s, TakeExit, Apply(s, TakeExit))
    ensures SameCalls(s, Apply(s, TakeExit))
  {
  }

  lemma PingWriteKeeps(s: State, ok: bool)
    requires MayStep(s, PingWrite(ok))
    ensures Inv(Apply(s, PingWrite(ok))) && Grows(s, Apply(s, PingWrite(ok)))
    ensures Visible(s, PingWrite(ok), Apply(s, PingWrite(ok)))
    ensures SameCalls(s, Apply(s, PingWrite(ok)))
  {
  }

  lemma PingFlushKeeps(s: State, ok: bool)
    requires MayStep(s, PingFlush(ok))
    ensures Inv(Apply(s, PingFlush(ok))) && Grows(s, Apply(s, PingFlush(ok)))
    ensures Visible(s, PingFlush(ok), Apply(s, PingFlush(ok)))
    ensures SameCalls(s, Apply(s, PingFlush(ok)))
  {
  }

  lemma AdmitRejectsKeeps(s: State)
    requires MayStep(s, Admit) && (s.shutdown || s.closing)
    ensures Inv(Apply(s, Admit)) && Grows(s, Apply(s, Admit))
    ensures Visible(s, Admit, Apply(s, Admit))
    ensures SameCalls(s, Apply(s, Admit))
  {
  }

  lemma AdmitRegistersKeepsAccounts(s: State)
    requires AccountsInv(s) && Enabled(s, Admit) && !s.shutdown && !s.closing && |s.sent| < TWO_TO_THE_64
    ensures AccountsInv(Apply(s, Admit))
  {
    RegisterKeepsKeys(s, s.writer.call);
  }

  lemma AdmitRegistersKeeps(s: State)
    requires MayStep(s, Admit) && !s.shutdown && !s.closing
    ensures Inv(Apply(s, Admit)) && Grows(s, Apply(s, Admit))
    ensures Visible(s, Admit, Apply(s, Admit))
  {
    AdmitRegistersKeepsAccounts(s);
  }

  lemma RejectKeeps(s: State)
    requires MayStep(s, Reject)
    ensures Inv(Apply(s, Reject)) && Grows(s, Apply(s, Reject))
    ensures Visible(s, Reject, Apply(s, Reject))
    ensures SameCalls(s, Apply(s, Reject))
  {
  }

  lemma BatchMoreKeepsAccounts(s: State, call: Call)
    requires AccountsInv(s) && Enabled(s, BatchMore(call)) && |s.sent| < TWO_TO_THE_64
    ensures AccountsInv(Apply(s, BatchMore(call)))
  {
    RegisterKeepsKeys(s, call);
  }

  lemma BatchMoreKeepsHistory(s: State, call: Call)
    requires Enabled(s, BatchMore(call)) && TakenInv(s) && WrittenInv(s) && !s.shutdown
    ensures TakenInv(Apply(s, BatchMore(call))) && WrittenInv(Apply(s, BatchMore(call)))
  {
  }

  lemma BatchMoreKeeps(s: State, call: Call)
    requires MayStep(s, BatchMore(call))
    ensures Inv(Apply(s, BatchMore(call))) && Grows(s, Apply(s, BatchMore(call)))
    ensures Visible(s, BatchMore(call), Apply(s, BatchMore(call)))
  {
    BatchMoreKeepsAccounts(s, call);
    BatchMoreKeepsHistory(s, call);
  }

  lemma BatchClosedKeeps(s: State)
    requires MayStep(s, BatchClosed)
    ensures Inv(Apply(s, BatchClosed)) && Grows(s, Apply(s, BatchClosed))
    ensures Visible(s, BatchClosed, Apply(s, BatchClosed))
    ensures SameCalls(s, Apply(s, BatchClosed))
  {
  }

  lemma BatchEndKeeps(s: State)
    requires MayStep(s, BatchEnd)
    ensures Inv(Apply(s, BatchEnd)) && Grows(s, Apply(s, BatchEnd))
    ensures Visible(s, BatchEnd, Apply(s, BatchEnd))
    ensures SameCalls(s, Apply(s, BatchEnd))
  {
  }

  lemma WriteOneKeeps(s: State, ok: bool)
    requires MayStep(s, WriteOne(ok))
    ensures Inv(Apply(s, WriteOne(ok))) && Grows(s, Apply(s, WriteOne(ok)))
    ensures Visible(s, WriteOne(ok), Apply(s, WriteOne(ok)))
    ensures SameCalls(s, Apply(s, WriteOne(ok)))
  {
  }

  lemma FlushGroupKeeps(s: State, ok: bool)
    requires MayStep(s, FlushGroup(ok))
    ensures Inv(Apply(s, FlushGroup(ok))) && Grows(s, Apply(s, FlushGroup(ok)))
    ensures Visible(s, FlushGroup(ok), Apply(s, FlushGroup(ok)))
    ensures SameCalls(s, Apply(s, FlushGroup(ok)))
  {
  }

  lemma CleanOneFindsKeepsAccounts(s: State)
    requires AccountsInv(s) && Enabled(s, CleanOne) && s.writer.group[s.writer.next].key in s.pending
    ensures AccountsInv(Apply(s, CleanOne))
  {
    var g, n := s.writer.group, s.writer.next;
    var key := g[n].key;
    assert g[n] == Entry(key, key);
    var t := s.(pending := s.pending - {key}, writer := FailingOne(g, n, key));
    assert Apply(s, CleanOne) == t;
    TakingOutKeepsBalance(s.outcomes, s.pending, HandsOf(s), HandsOf(t), SnapshotOf(s), key);
    SweepingOn(g, n, s.pending);
    assert FailureInv(t) by {
      assert g[n] in g;
    }
  }

  lemma CleanOneFindsKeeps(s: State)
    requires MayStep(s, CleanOne) && s.writer.group[s.writer.next].key in s.pending
    ensures Inv(Apply(s, CleanOne)) && Grows(s, Apply(s, CleanOne))
    ensures Visible(s, CleanOne, Apply(s, CleanOne))
    ensures SameCalls(s, Apply(s, CleanOne))
  {
    CleanOneFindsKeepsAccounts(s);
  }

  lemma CleanOneMissesKeeps(s: State)
    requires MayStep(s, CleanOne) && s.writer.group[s.writer.next].key !in s.pending
    ensures Inv(Apply(s, CleanOne)) && Grows(s, Apply(s, CleanOne))
    ensures Visible(s, CleanOne, Apply(s, CleanOne))
    ensures SameCalls(s, Apply(s, CleanOne))
  {
    assert s.writer.group[s.writer.next].idx !in s.pending;
  }

  lemma FailOneKeeps(s: State)
    requires MayStep(s, FailOne)
    ensures Inv(Apply(s, FailOne)) && Grows(s, Apply(s, FailOne))
    ensures Visible(s, FailOne, Apply(s, FailOne))
  {
    var t := Apply(s, FailOne);
    CompletingKeepsBalance(s.outcomes, s.pending, HandsOf(s), HandsOf(t), SnapshotOf(s),
                           s.writer.idx, Failed(WriteError));
  }

  lemma CleanDoneKeeps(s: State)
    requires MayStep(s, CleanDone)
    ensures Inv(Apply(s, CleanDone)) && Grows(s, Apply(s, CleanDone))
    ensures Visible(s, CleanDone, Apply(s, CleanDone))
    ensures SameCalls(s, Apply(s, CleanDone))
  {
  }

  lemma ReadPingKeeps(s: State, head: ResponseHeader)
    requires MayStep(s, ReadPing(head))
    ensures Inv(Apply(s, ReadPing(head))) && Grows(s, Apply(s, ReadPing(head)))
    ensures Visible(s, ReadPing(head), Apply(s, ReadPing(head)))
    ensures SameCalls(s, Apply(s, ReadPing(head)))
  {
  }

  lemma ReadHeaderKeeps(s: State, head: ResponseHeader)
    requires MayStep(s, ReadHeader(head))
    ensures Inv(Apply(s, ReadHeader(head))) && Grows(s, Apply(s, ReadHeader(head)))
    ensures Visible(s, ReadHeader(head), Apply(s, ReadHeader(head)))
  {
  }

  lemma ReadFailsKeeps(s: State, eof: bool)
    requires MayStep(s, ReadFails(eof))
    ensures Inv(Apply(s, ReadFails(eof))) && Grows(s, Apply(s, ReadFails(eof)))
    ensures Visible(s, ReadFails(eof), Apply(s, ReadFails(eof)))
  {
  }

  /** A step of the reader leaves the history of the writer alone. */
  lemma ReaderKeepsHistory(s: State, t: State)
    requires TakenInv(s) && WrittenInv(s)
    requires t.writer == s.writer && t.taken == s.taken && t.sent == s.sent && t.rejected == s.rejected
    requires t.messages == s.messages && t.shutdown == s.shutdown && t.closing == s.closing
    requires t.takenAtShutdown == s.takenAtShutdown
    ensures TakenInv(t) && WrittenInv(t)
  {
  }

  lemma LookupFindsKeepsAccounts(s: State)
    requires AccountsInv(s) && Enabled(s, Lookup) && s.reader.head.seqNo in s.pending
    ensures AccountsInv(Apply(s, Lookup))
  {
    var key := s.reader.head.seqNo;
    var t := s.(pending := s.pending - {key}, reader := GotCall(s.reader.head, Some(key)));
    assert Apply(s, Lookup) == t;
    TakingOutKeepsBalance(s.outcomes, s.pending, HandsOf(s), HandsOf(t), SnapshotOf(s), key);
  }

  lemma LookupFindsKeeps(s: State)
    requires MayStep(s, Lookup) && s.reader.head.seqNo in s.pending
    ensures Inv(Apply(s, Lookup)) && Grows(s, Apply(s, Lookup))
    ensures Visible(s, Lookup, Apply(s, Lookup))
  {
    LookupFindsKeepsAccounts(s);
    ReaderKeepsHistory(s, Apply(s, Lookup));
  }

  lemma LookupMissesKeeps(s: State)
    requires MayStep(s, Lookup) && s.reader.head.seqNo !in s.pending
    ensures Inv(Apply(s, Lookup)) && Grows(s, Apply(s, Lookup))
    ensures Visible(s, Lookup, Apply(s, Lookup))
  {
    assert Apply(s, Lookup) == s.(reader := GotCall(s.reader.head, None)) by {
      assert s.pending - {s.reader.head.seqNo} == s.pending;
    }
  }

  lemma FinishBodyKeepsAccounts(s: State, body: BodyRead)
    requires AccountsInv(s) && Enabled(s, FinishBody(body))
    ensures AccountsInv(Apply(s, FinishBody(body)))
  {
  }

  lemma FinishBodyKeeps(s: State, body: BodyRead)
    requires MayStep(s, FinishBody(body))
    ensures Inv(Apply(s, FinishBody(body))) && Grows(s, Apply(s, FinishBody(body)))
    ensures Visible(s, FinishBody(body), Apply(s, FinishBody(body)))
  {
    FinishBodyKeepsAccounts(s, body);
    ReaderKeepsHistory(s, Apply(s, FinishBody(body)));
  }

  lemma CompleteReadKeeps(s: State)
    requires MayStep(s, CompleteRead)
    ensures Inv(Apply(s, CompleteRead)) && Grows(s, Apply(s, CompleteRead))
    ensures Visible(s, CompleteRead, Apply(s, CompleteRead))
  {
    var t := Apply(s, CompleteRead);
    CompletingKeepsBalance(s.outcomes, s.pending, HandsOf(s), HandsOf(t), SnapshotOf(s),
                           s.reader.idx, s.reader.outcome);
  }

  /** onShutDown completes each pending call and, if repaired, forgets it. */
  lemma TellingKeepsBalance(outcomes: seq<seq<Outcome>>, pending: map<nat, nat>, hands: Hands,
                            snap: Snapshot, told: seq<seq<Outcome>>, left: map<nat, nat>, after: Snapshot)
    requires Balanced(outcomes, pending, hands, snap) && !snap.shutdown && after.shutdown
    requires |told| == |outcomes|
    requires forall i :: 0 <= i < |told| ==> |told[i]| == |outcomes[i]| + B(i in pending)
    requires after.repaired || left == pending
    requires forall i :: i in after.atShutdown <==> i in pending
    ensures Balanced(told, left, hands, after)
  {
  }

  lemma ShutDownKeeps(s: State)
    requires MayStep(s, ShutDown)
    ensures Inv(Apply(s, ShutDown)) && Grows(s, Apply(s, ShutDown))
    ensures Visible(s, ShutDown, Apply(s, ShutDown))
  {
    var t := Apply(s, ShutDown);
    assert !s.shutdown && ReaderHand(t.reader) == ReaderHand(s.reader);
    assert t.atShutdown == s.pending.Keys by {
      PendingValuesAreKeys(s);
    }
    assert Balanced(t.outcomes, t.pending, HandsOf(t), SnapshotOf(t)) by {
      TellingKeepsBalance(s.outcomes, s.pending, HandsOf(s), SnapshotOf(s),
                          t.outcomes, t.pending, SnapshotOf(t));
    }
  }

  lemma PendingValuesAreKeys(s: State)
    requires KeysInv(s)
    ensures s.pending.Values == s.pending.Keys
  {
    forall k | k in s.pending.Keys
      ensures k in s.pending.Values
    {
      assert s.pending[k] == k;
    }
  }

  lemma NotifyParentKeeps(s: State)
    requires MayStep(s, NotifyParent)
    ensures Inv(Apply(s, NotifyParent)) && Grows(s, Apply(s, NotifyParent))
    ensures Visible(s, NotifyParent, Apply(s, NotifyParent))
  {
  }

  lemma CloseKeeps(s: State)
    requires MayStep(s, Close)
    ensures Inv(Apply(s, Close)) && Grows(s, Apply(s, Close))
    ensures Visible(s, Close, Apply(s, Close))
    ensures SameCalls(s, Apply(s, Close))
  {
  }

  lemma CloseQueueKeeps(s: State)
    requires MayStep(s, CloseQueue)
    ensures Inv(Apply(s, CloseQueue)) && Grows(s, Apply(s, CloseQueue))
    ensures Visible(s, CloseQueue, Apply(s, CloseQueue))
    ensures SameCalls(s, Apply(s, CloseQueue))
  {
  }

  lemma InitialInv(repaired: bool)
    ensures Inv(Initial(repaired))
  {
  }

  predicate WriterStep(a: Action) {
    match a
    case ReadPing(_) => false
    case ReadHeader(_) => false
    case ReadFails(_) => false
    case Lookup => false
    case FinishBody(_) => false
    case CompleteRead => false
    case ShutDown => false
    case NotifyParent => false
    case Close => false
    case CloseQueue => false
    case _ => true
  }

  lemma WriterStepKeeps(s: State, a: Action)
    requires MayStep(s, a) && WriterStep(a)
    ensures Inv(Apply(s, a)) && Grows(s, Apply(s, a))
    ensures Visible(s, a, Apply(s, a))
  {
    match a {
      case Take(call) => TakeKeeps(s, call);
      case TakeClosed => TakeClosedKeeps(s);
      case TakeExit => TakeExitKeeps(s);
      case PingWrite(ok) => PingWriteKeeps(s, ok);
      case PingFlush(ok) => PingFlushKeeps(s, ok);
      case Admit => if s.shutdown || s.closing { AdmitRejectsKeeps(s); } else { AdmitRegistersKeeps(s); }
      case Reject => RejectKeeps(s);
      case BatchMore(call) => BatchMoreKeeps(s, call);
      case BatchClosed => BatchClosedKeeps(s);
      case BatchEnd => BatchEndKeeps(s);
      case WriteOne(ok) => WriteOneKeeps(s, ok);
      case FlushGroup(ok) => FlushGroupKeeps(s, ok);
      case CleanOne =>
        if s.writer.group[s.writer.next].key in s.pending {
          CleanOneFindsKeeps(s);
        } else {
          CleanOneMissesKeeps(s);
        }
      case FailOne => FailOneKeeps(s);
      case CleanDone => CleanDoneKeeps(s);
      case _ =>
    }
  }

  lemma OtherStepKeeps(s: State, a: Action)
    requires MayStep(s, a) && !WriterStep(a)
    ensures Inv(Apply(s, a)) && Grows(s, Apply(s, a))
    ensures Visible(s, a, Apply(s, a))
  {
    match a {
      case ReadPing(head) => ReadPingKeeps(s, head);
      case ReadHeader(head) => ReadHeaderKeeps(s, head);
      case ReadFails(eof) => ReadFailsKeeps(s, eof);
      case Lookup => if s.reader.head.seqNo in s.pending { LookupFindsKeeps(s); } else { LookupMissesKeeps(s); }
      case FinishBody(body) => FinishBodyKeeps(s, body);
      case CompleteRead => CompleteReadKeeps(s);
      case ShutDown => ShutDownKeeps(s);
      case NotifyParent => NotifyParentKeeps(s);
      case Close => CloseKeeps(s);
      case CloseQueue => CloseQueueKeeps(s);
      case _ =>
    }
  }

  lemma StepKeepsInv(s: State, a: Action)
    requires MayStep(s, a)
    ensures Inv(Apply(s, a)) && Grows(s, Apply(s, a))
    ensures Visible(s, a, Apply(s, a))
  {
    if WriterStep(a) {
      WriterStepKeeps(s, a);
    } else {
      OtherStepKeeps(s, a);
    }
  }
}
