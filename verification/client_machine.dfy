// One client connection as a transition system (rpc/client_conn.go). A step is a mutex-protected
// region or one of the unlocked write, flush, read and complete steps between them. Everything
// the environment decides (what arrives, what fails, what is queued) is an argument of the action.
module ClientMachine {
  import opened RpcTypes

  datatype Failure =
    | ConnShutdown                // ErrShutdown: the stream ended after Close
    | ConnLost                    // the read error; an unexpected end of the stream counts as one
    | WriteError
    | Remote(msg: string)         // the response header's ErrorMsg
    | BodyError

  /** How one WhenCallDone left the call. A call that does not want a reply has no data. */
  datatype Outcome = Failed(why: Failure) | Succeeded(reply: Option<Value>)

  /** TClientGroupRequest: the key is the uint64 on the wire, `idx` says which registration it was. */
  datatype Entry = Entry(key: nat, idx: nat)

  /** RoutineWriteRequst, by what it is about to do. */
  datatype Writer =
    | Selecting
    | Holding(call: Call)                            // received, sendCall has not locked yet
    | Rejecting(call: Call)                          // found the connection closed
    | Batching(group: seq<Entry>)                    // collecting a group: holds the mutex
    | Writing(group: seq<Entry>, next: nat)
    | CleaningUp(group: seq<Entry>, next: nat)       // a write or the flush failed
    | FailingOne(group: seq<Entry>, next: nat, idx: nat)
    | Pinging                                        // ping written, not flushed
    | WriterExited

  /** RoutineReadResponse, by what it is about to do. */
  datatype Reader =
    | AwaitingHeader
    | GotHeader(head: ResponseHeader)
    | GotCall(head: ResponseHeader, who: Option<nat>)
    | Completing(idx: nat, outcome: Outcome, broken: bool)
    | ShuttingDown(eof: bool)                        // called onShutDown, with io.EOF or another error
    | Notifying                                      // onShutDown ran, parent not told yet
    | ReaderExited

  /** How the body part of a response went. */
  datatype BodyRead = NoBody | Discarded | Value(value: RpcTypes.Value) | Broken

  /** What left the connection: a ping it made up itself, or a registered call's request. */
  datatype Message = PingMessage | RequestMessage(entry: Entry)

  datatype State = State(
    seqNo: nat,                    // uint64: the next key
    pending: map<nat, nat>,        // key -> registration
    closing: bool,
    shutdown: bool,
    exitNotify: bool,              // a token sits in the exitNotify channel
    queueClosed: bool,
    writer: Writer,
    reader: Reader,
    repaired: bool,                // onShutDown also deletes what it completes
    // history
    taken: seq<Call>,              // every call received from inputCallChan
    sent: seq<Call>,               // every call registered, in order
    rejected: seq<Call>,           // completed by sendCall because the connection was closed
    outcomes: seq<seq<Outcome>>,   // completions of sent[i], in order
    messages: seq<Message>,        // complete requests handed to the codec
    atShutdown: set<nat>,          // registrations still pending when onShutDown ran
    takenAtShutdown: nat,
    failed: set<nat>               // the group whose write or flush failed
  )

  function Initial(repaired: bool): State {
    State(0, map[], false, false, false, false, Selecting, AwaitingHeader, repaired,
          [], [], [], [], [], {}, 0, {})
  }

  datatype Action =
    // writer
    | Take(call: Call)
    | TakeClosed
    | TakeExit
    | PingWrite(ok: bool)
    | PingFlush(ok: bool)
    | Admit
    | Reject
    | BatchMore(call: Call)
    | BatchClosed
    | BatchEnd
    | WriteOne(ok: bool)
    | FlushGroup(ok: bool)
    | CleanOne
    | FailOne
    | CleanDone
    // reader
    | ReadPing(head: ResponseHeader)
    | ReadHeader(head: ResponseHeader)
    | ReadFails(eof: bool)
    | Lookup
    | FinishBody(body: BodyRead)
    | CompleteRead
    | ShutDown
    | NotifyParent
    // users and owner of the queue
    | Close
    | CloseQueue

  predicate MutexFree(s: State) { !s.writer.Batching? }

  /** ReadResponseBody is given nil: the call is gone, failed remotely, or wants no reply. */
  predicate Discards(s: State, head: ResponseHeader, who: Option<nat>) {
    who.None? || head.errorMsg != "" || who.value >= |s.sent| || !s.sent[who.value].wantsReply
  }

  predicate BodyFits(s: State, head: ResponseHeader, who: Option<nat>, body: BodyRead) {
    match body
    case NoBody => !head.HasData()
    case Discarded => head.HasData() && Discards(s, head, who)
    case Value(_) => head.HasData() && !Discards(s, head, who)
    case Broken => head.HasData()
  }

  predicate Enabled(s: State, a: Action) {
    match a
    case Take(_) => s.writer.Selecting?
    case TakeClosed => s.writer.Selecting? && s.queueClosed
    case TakeExit => s.writer.Selecting? && s.exitNotify
    case PingWrite(_) => s.writer.Selecting?
    case PingFlush(_) => s.writer.Pinging?
    case Admit => s.writer.Holding?
    case Reject => s.writer.Rejecting?
    case BatchMore(_) => s.writer.Batching? && |s.writer.group| <= UNITE_PACKAGE_NUM
    case BatchClosed => s.writer.Batching? && |s.writer.group| <= UNITE_PACKAGE_NUM && s.queueClosed
    case BatchEnd => s.writer.Batching?
    case WriteOne(_) => s.writer.Writing? && s.writer.next < |s.writer.group|
    case FlushGroup(_) => s.writer.Writing? && s.writer.next == |s.writer.group|
    case CleanOne => s.writer.CleaningUp? && s.writer.next < |s.writer.group|
    case FailOne => s.writer.FailingOne?
    case CleanDone => s.writer.CleaningUp? && s.writer.next == |s.writer.group|
    case ReadPing(head) => s.reader.AwaitingHeader? && head.IsPing()
    case ReadHeader(head) => s.reader.AwaitingHeader? && !head.IsPing()
    case ReadFails(_) => s.reader.AwaitingHeader?
    case Lookup => s.reader.GotHeader? && MutexFree(s)
    case FinishBody(body) => s.reader.GotCall? && BodyFits(s, s.reader.head, s.reader.who, body)
    case CompleteRead => s.reader.Completing?
    case ShutDown => s.reader.ShuttingDown? && MutexFree(s)
    case NotifyParent => s.reader.Notifying?
    case Close => MutexFree(s)
    case CloseQueue => true
  }

  /** WhenCallDone on registration `idx`. */
  function Completed(outcomes: seq<seq<Outcome>>, idx: nat, o: Outcome): seq<seq<Outcome>> {
    if idx < |outcomes| then outcomes[idx := outcomes[idx] + [o]] else outcomes
  }

  /** makeRequestHeader's bookkeeping: the call is registered under the next key, which wraps. */
  function Register(s: State, call: Call): State {
    s.(seqNo := (s.seqNo + 1) % TWO_TO_THE_64,
       pending := s.pending[s.seqNo := |s.sent|],
       sent := s.sent + [call],
       outcomes := s.outcomes + [[]])
  }

  function NextEntry(s: State): Entry { Entry(s.seqNo, |s.sent|) }

  function GroupIndices(group: seq<Entry>): set<nat> { set e | e in group :: e.idx }

  function FailGroup(s: State): State
    requires s.writer.Writing?
  {
    s.(writer := CleaningUp(s.writer.group, 0), failed := GroupIndices(s.writer.group))
  }

  /** sendCall up to its loop. */
  function AdmitCall(s: State): State
    requires s.writer.Holding?
  {
    if s.shutdown || s.closing then s.(writer := Rejecting(s.writer.call))
    else Register(s, s.writer.call).(writer := Batching([NextEntry(s)]))
  }

  /** One turn of sendGroupCall's clean-up loop, up to the unlock. */
  function LookUpForFailure(s: State): State
    requires s.writer.CleaningUp? && s.writer.next < |s.writer.group|
  {
    var w := s.writer;
    var key := w.group[w.next].key;
    if key in s.pending then
      s.(pending := s.pending - {key}, writer := FailingOne(w.group, w.next, s.pending[key]))
    else
      s.(writer := CleaningUp(w.group, w.next + 1))
  }

  function BodyOutcome(head: ResponseHeader, body: BodyRead): Outcome {
    if head.errorMsg != "" then Failed(Remote(head.errorMsg))
    else match body
         case Value(v) => Succeeded(Some(v))
         case Broken => Failed(BodyError)
         case _ => Succeeded(None)
  }

  function AfterBody(head: ResponseHeader, who: Option<nat>, body: BodyRead): Reader {
    match who
    case Some(idx) => Completing(idx, BodyOutcome(head, body), body.Broken?)
    case None => if body.Broken? then ShuttingDown(false) else AwaitingHeader
  }

  /** onShutDown's mutex region: everything pending is completed, and (as written) left in the map. */
  function ShutDownRegion(s: State): State
    requires s.reader.ShuttingDown?
  {
    if s.shutdown then s.(reader := ReaderExited)
    else
      var why := if s.reader.eof && s.closing then ConnShutdown else ConnLost;
      s.(shutdown := true, exitNotify := true, reader := Notifying,
         atShutdown := s.pending.Values, takenAtShutdown := |s.taken|,
         outcomes := seq(|s.outcomes|, i requires 0 <= i < |s.outcomes| =>
           s.outcomes[i] + if i in s.pending.Values then [Failed(why)] else []),
         pending := if s.repaired then map[] else s.pending)
  }

  function Apply(s: State, a: Action): State
    requires Enabled(s, a)
  {
    match a
    case Take(call) => s.(writer := Holding(call), taken := s.taken + [call])
    case TakeClosed => s.(writer := WriterExited)
    case TakeExit => s.(writer := WriterExited, exitNotify := false)
    case PingWrite(ok) =>
      if ok then s.(writer := Pinging, messages := s.messages + [PingMessage])
      else s.(writer := WriterExited)
    case PingFlush(ok) => s.(writer := if ok then Selecting else WriterExited)
    case Admit => AdmitCall(s)
    case Reject => s.(writer := WriterExited, rejected := s.rejected + [s.writer.call])
    case BatchMore(call) =>
      Register(s, call).(writer := Batching(s.writer.group + [NextEntry(s)]), taken := s.taken + [call])
    case BatchClosed => s.(writer := WriterExited)
    case BatchEnd => s.(writer := Writing(s.writer.group, 0))
    case WriteOne(ok) =>
      if ok then s.(writer := Writing(s.writer.group, s.writer.next + 1),
                    messages := s.messages + [RequestMessage(s.writer.group[s.writer.next])])
      else FailGroup(s)
    case FlushGroup(ok) => if ok then s.(writer := Selecting) else FailGroup(s)
    case CleanOne => LookUpForFailure(s)
    case FailOne =>
      s.(outcomes := Completed(s.outcomes, s.writer.idx, Failed(WriteError)),
         writer := CleaningUp(s.writer.group, s.writer.next + 1))
    case CleanDone => s.(writer := WriterExited)
    case ReadPing(_) => s
    case ReadHeader(head) => s.(reader := GotHeader(head))
    case ReadFails(eof) => s.(reader := ShuttingDown(eof))
    case Lookup =>
      var key := s.reader.head.seqNo;
      s.(pending := s.pending - {key},
         reader := GotCall(s.reader.head, if key in s.pending then Some(s.pending[key]) else None))
    case FinishBody(body) => s.(reader := AfterBody(s.reader.head, s.reader.who, body))
    case CompleteRead =>
      s.(outcomes := Completed(s.outcomes, s.reader.idx, s.reader.outcome),
         reader := if s.reader.broken then ShuttingDown(false) else AwaitingHeader)
    case ShutDown => ShutDownRegion(s)
    case NotifyParent => s.(reader := ReaderExited)
    case Close => s.(closing := true)
    case CloseQueue => s.(queueClosed := true)
  }

  ghost predicate CanRun(s: State, acts: seq<Action>)
    decreases |acts|
  {
    acts == [] || (Enabled(s, acts[0]) && CanRun(Apply(s, acts[0]), acts[1..]))
  }

  ghost function After(s: State, acts: seq<Action>): State
    requires CanRun(s, acts)
    decreases |acts|
  {
    if acts == [] then s else After(Apply(s, acts[0]), acts[1..])
  }

  lemma {:induction false} RunLonger(s: State, acts: seq<Action>, a: Action)
    requires CanRun(s, acts) && Enabled(After(s, acts), a)
    ensures CanRun(s, acts + [a]) && After(s, acts + [a]) == Apply(After(s, acts), a)
    decreases |acts|
  {
    var more := acts + [a];
    if acts == [] {
      assert more == [a] && more[1..] == [];
    } else {
      assert more[1..] == acts[1..] + [a];
      RunLonger(Apply(s, acts[0]), acts[1..], a);
    }
  }
}
