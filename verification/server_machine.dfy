// One server connection as a transition system (rpc/server_conn.go, with the status check and the
// dispatch of rpc/server.go). Requests are named by the order in which the read loop accepted them.
module ServerMachine {
  import opened RpcTypes
  import opened Framing

  /** What ReadRequest returned. */
  datatype ReadResult =
    | Fatal                                                  // no header: keepReading is false
    | Ping(head: RequestHeader)
    | Bad(head: RequestHeader, text: string)                 // unknown method or unreadable body
    | Good(head: RequestHeader, arg: Value, blank: Value)    // `blank`: the fresh reply object

  /** A request the loop answers for. */
  datatype Accepted =
    | Refused(head: RequestHeader, text: string)
    | Work(head: RequestHeader, arg: Value, blank: Value)

  /** What a handler left behind: its reply object and the error it returned, if any. */
  datatype Result = Result(reply: Value, err: Option<string>) {
    /** doCallResponse's errmsg: an error whose own text is empty looks like none. */
    function Text(): string { if err.Some? then err.value else "" }
  }

  /** RoutineRun, by what it is about to do. */
  datatype Loop =
    | Reading
    | ReadingBody(head: RequestHeader)
    | Discarding(head: RequestHeader, text: string)
    | Returned(res: ReadResult)
    | Draining                                    // pendingWg.Wait(), blocked unless the counter is 0
    | Woken                                       // ... the counter has been 0, Wait has not returned
    | PingReplying(head: RequestHeader)
    | PingReplied
    | Replying(who: nat, text: string)
    | Replied
    | Collecting(group: seq<nat>)                 // doWriteResponse of the dummy return group[0]
    | Sending(group: seq<nat>)
    | Sent(who: nat, left: nat)                   // the group of dummy return `who`; `left` Dones to go
    | Dispatching(who: nat, dummy: bool)
    | Closing
    | LoopExited

  /** RoutineWriteResponse, by what it is about to do. */
  datatype RespWriter =
    | Waiting
    | WCollecting(group: seq<nat>)
    | WSending(group: seq<nat>)
    | WSent(left: nat)                            // `left` Dones to go
    | WExited

  /** A call taken off doneChan, and by which of its two consumers. */
  datatype Dequeue = Dequeue(who: nat, byLoop: bool)

  /** What happened so far. */
  datatype Log = Log(
    answered: seq<nat>,             // who was answered, in the order of the writes
    answers: seq<Answer>,           // with what
    rejections: map<nat, string>,   // dispatch errors
    nameless: set<nat>,             // empty method name: counted, never answered
    panicked: set<nat>,             // the handler panicked
    late: set<nat>,                 // sent on doneChan after it was closed
    dropped: set<nat>,              // in a group given up because doneChan was found closed
    twice: set<nat>,                // dummy returns whose dispatch failed after the answer
    fatal: nat,                     // reads that ended the loop after pendingWg.Add
    skipped: nat,                   // pendingWg.Done calls a panic kept from happening
    graceful: bool,                 // the loop came through pendingWg.Wait
    freed: seq<nat>,                // whose TFuncCall went back to the pool
    abandoned: set<nat>,            // whose TFuncCall nobody will free
    queued: seq<nat>,               // everything ever sent on doneChan
    dequeued: seq<Dequeue>,
    writerWrote: seq<nat>,          // off doneChan, written by RoutineWriteResponse
    loopWrote: seq<nat>,            // off doneChan, written by RoutineRun
    read: seq<RequestHeader>,       // every header read that is no ping's
    discarded: seq<RequestHeader>,  // read, and thrown away because the server had been stopped
    executed: seq<nat>              // whose handler was started, for whomever
  )

  datatype State = State(
    running: bool,
    loop: Loop,
    wg: int,
    doneChan: seq<nat>,
    closed: bool,
    workers: set<nat>,              // executing, will report on doneChan
    finished: set<nat>,             // returned, about to send on doneChan
    dummies: set<nat>,              // executing for nobody
    writer: RespWriter,
    accepted: seq<Accepted>,
    results: map<nat, Result>,
    log: Log
  )

  function Initial(): State {
    State(true, Reading, 0, [], false, {}, {}, {}, Waiting, [], map[],
          Log([], [], map[], {}, {}, {}, {}, {}, 0, 0, false, [], {}, [], [], [], [], [], [], []))
  }

  datatype Verdict = Runs | Fails(text: string)

  datatype Action =
    // read loop
    | ReadHead(head: RequestHeader, known: bool, text: string)
    | ReadHeadFails
    | ReadBody(arg: Value, blank: Value)
    | BodyFails(text: string)
    | Discard
    | Check
    | WaitOver
    | WaitPanics
    | PingReply
    | Reply
    | Settle
    | LoopMore
    | LoopEnough
    | LoopSend
    | Dispatch(verdict: Verdict)
    | CloseDone
    // workers
    | Return(who: nat, result: Result)
    | HandlerPanics(who: nat)
    | Deliver(who: nat)
    | DummyReturns(who: nat)
    | DummyPanics(who: nat)
    // response writer
    | WTake
    | WClosed
    | WMore
    | WDrop
    | WEnough
    | WSend
    | WSettle
    // TServer.Stop
    | Stop

  predicate MayTakeMore(group: seq<nat>, chan: seq<nat>) { |group| <= UNITE_PACKAGE_NUM && chan != [] }

  predicate Enabled(s: State, a: Action) {
    match a
    case ReadHead(head, known, text) =>
      s.loop.Reading? && (known ==> head.serviceMethod != "") && (!known ==> text != "")
    case ReadHeadFails => s.loop.Reading?
    case ReadBody(_, _) => s.loop.ReadingBody?
    case BodyFails(_) => s.loop.ReadingBody?
    case Discard => s.loop.Discarding?
    case Check => s.loop.Returned?
    case WaitOver => (s.loop.Draining? && s.wg == 0) || s.loop.Woken?
    case WaitPanics => s.loop.Woken? && s.wg != 0
    case PingReply => s.loop.PingReplying?
    case Reply => s.loop.Replying? && s.loop.who < |s.accepted|
    case Settle => s.loop.PingReplied? || s.loop.Replied? || (s.loop.Sent? && s.loop.left > 0)
    case LoopMore => s.loop.Collecting? && MayTakeMore(s.loop.group, s.doneChan)
    case LoopEnough => s.loop.Collecting? && !MayTakeMore(s.loop.group, s.doneChan)
    case LoopSend => s.loop.Sending? && Known(s, s.loop.group) && s.loop.group != []
    case Dispatch(_) => s.loop.Dispatching?
    case CloseDone => s.loop.Closing?
    case Return(who, _) => who in s.workers
    case HandlerPanics(who) => who in s.workers
    case Deliver(who) => who in s.finished
    case DummyReturns(who) => who in s.dummies
    case DummyPanics(who) => who in s.dummies
    case WTake => s.writer.Waiting? && s.doneChan != []
    case WClosed => s.writer.Waiting? && s.doneChan == [] && s.closed
    case WMore => s.writer.WCollecting? && MayTakeMore(s.writer.group, s.doneChan)
    case WDrop =>
      s.writer.WCollecting? && |s.writer.group| <= UNITE_PACKAGE_NUM && s.doneChan == [] && s.closed
    case WEnough =>
      s.writer.WCollecting? && !MayTakeMore(s.writer.group, s.doneChan)
      && (s.closed ==> |s.writer.group| > UNITE_PACKAGE_NUM)
    case WSend => s.writer.WSending? && Known(s, s.writer.group) && s.writer.group != []
    case WSettle => s.writer.WSent? && s.writer.left > 0
    case Stop => true
  }

  /** Every member of a group is a request that was accepted for execution. */
  predicate Known(s: State, group: seq<nat>) {
    forall j :: 0 <= j < |group| ==> group[j] < |s.accepted| && s.accepted[group[j]].Work?
  }

  function Members(group: seq<nat>): set<nat> { set i | i in group }

  /** doCallResponse and the body SendGroupResponse writes: a call that has not run yet (a dummy
      return) has no error and an untouched reply. */
  function GroupAnswer(s: State, who: nat): Answer
    requires who < |s.accepted| && s.accepted[who].Work?
  {
    var r := if who in s.results then s.results[who] else Result(s.accepted[who].blank, None);
    Grouped(s.accepted[who].head, r.reply, r.Text())
  }

  function GroupAnswers(s: State, group: seq<nat>): seq<Answer>
    requires Known(s, group)
  {
    seq(|group|, j requires 0 <= j < |group| => GroupAnswer(s, group[j]))
  }

  function Answering(s: State, who: seq<nat>, answers: seq<Answer>): Log {
    s.log.(answered := s.log.answered + who, answers := s.log.answers + answers)
  }

  /** The request a read produced, unless it was a ping or no request at all. */
  function Carried(res: ReadResult): seq<RequestHeader> {
    match res
    case Bad(head, _) => [head]
    case Good(head, _, _) => [head]
    case _ => []
  }

  /** RoutineRun after ReadRequest, up to the next write, wait or dispatch. On a stopped server it
      throws away what it has just read. */
  function AfterRead(s: State, res: ReadResult): State {
    if !s.running then
      s.(loop := Draining, log := s.log.(discarded := s.log.discarded + Carried(res)))
    else
      var t := s.(wg := s.wg + 1);
      var me := |s.accepted|;
      match res
      case Fatal => t.(loop := Closing, log := s.log.(fatal := s.log.fatal + 1))
      case Ping(head) => t.(loop := PingReplying(head))
      case Bad(head, text) =>
        var u := t.(accepted := s.accepted + [Refused(head, text)]);
        if head.serviceMethod == "" then
          u.(loop := Reading, log := s.log.(nameless := s.log.nameless + {me}))
        else u.(loop := Replying(me, text))
      case Good(head, arg, blank) =>
        t.(accepted := s.accepted + [Work(head, arg, blank)],
           loop := if head.DummyReturn() then Collecting([me]) else Dispatching(me, false))
  }

  /** One Done of the loop. One that makes the counter negative panics, and RoutineRun's recover closes
      doneChan. */
  function LoopSettles(s: State): State {
    var last := !s.loop.Sent? || s.loop.left <= 1;
    if s.wg >= 1 then
      s.(wg := s.wg - 1,
         loop := if !last then Sent(s.loop.who, s.loop.left - 1)
                 else if s.loop.Sent? then Dispatching(s.loop.who, true) else Reading)
    else
      s.(wg := s.wg - 1, loop := LoopExited, closed := true,
         log := s.log.(skipped := s.log.skipped + if last then 0 else s.loop.left - 1,
                       abandoned := s.log.abandoned + if s.loop.Sent? then {s.loop.who} else {}))
  }

  /** One Done of the response writer. The one that brings the counter to 0 wakes the loop if that waits. */
  function WriterSettles(s: State): State
    requires s.writer.WSent?
  {
    var last := s.writer.left <= 1;
    if s.wg >= 1 then
      s.(wg := s.wg - 1, writer := if last then Waiting else WSent(s.writer.left - 1),
         loop := if s.wg == 1 && s.loop.Draining? then Woken else s.loop)
    else
      s.(wg := s.wg - 1, writer := WExited,
         log := s.log.(skipped := s.log.skipped + if last then 0 else s.writer.left - 1))
  }

  function TakeOff(s: State, byLoop: bool): State
    requires s.doneChan != []
  {
    s.(doneChan := s.doneChan[1..],
       log := s.log.(dequeued := s.log.dequeued + [Dequeue(s.doneChan[0], byLoop)]))
  }

  function AfterDispatch(s: State, verdict: Verdict): State
    requires s.loop.Dispatching?
  {
    var who, dummy := s.loop.who, s.loop.dummy;
    match verdict
    case Runs =>
      var t := s.(loop := Reading, log := s.log.(executed := s.log.executed + [who]));
      if dummy then t.(dummies := s.dummies + {who}) else t.(workers := s.workers + {who})
    case Fails(text) =>
      s.(loop := Replying(who, text),
         log := s.log.(rejections := s.log.rejections[who := text],
                       abandoned := s.log.abandoned + {who},
                       twice := if dummy then s.log.twice + {who} else s.log.twice))
  }

  /** WhenFuncCallDone of a worker: a send on the closed doneChan panics and is swallowed. */
  function Delivered(s: State, who: nat): State {
    var t := s.(finished := s.finished - {who});
    if s.closed then
      t.(log := s.log.(late := s.log.late + {who}, abandoned := s.log.abandoned + {who}))
    else t.(doneChan := s.doneChan + [who], log := s.log.(queued := s.log.queued + [who]))
  }

  function Apply(s: State, a: Action): State
    requires Enabled(s, a)
  {
    match a
    case ReadHead(head, known, text) =>
      if head.IsPing() then s.(loop := Returned(Ping(head)))
      else s.(loop := if known then ReadingBody(head) else Discarding(head, text),
              log := s.log.(read := s.log.read + [head]))
    case ReadHeadFails => s.(loop := Returned(Fatal))
    case ReadBody(arg, blank) => s.(loop := Returned(Good(s.loop.head, arg, blank)))
    case BodyFails(text) => s.(loop := Returned(Bad(s.loop.head, text)))
    case Discard => s.(loop := Returned(Bad(s.loop.head, s.loop.text)))
    case Check => AfterRead(s, s.loop.res)
    case WaitOver => s.(loop := Closing, log := s.log.(graceful := true))
    case WaitPanics => s.(loop := LoopExited, closed := true)
    case PingReply => s.(loop := PingReplied)
    case Reply =>
      s.(loop := Replied,
         log := Answering(s, [s.loop.who], [Direct(s.accepted[s.loop.who].head, s.loop.text)]))
    case Settle => LoopSettles(s)
    case LoopMore => TakeOff(s, true).(loop := Collecting(s.loop.group + [s.doneChan[0]]))
    case LoopEnough => s.(loop := Sending(s.loop.group))
    case LoopSend =>
      var g := s.loop.group;
      s.(loop := Sent(g[0], |g|),
         log := Answering(s, g, GroupAnswers(s, g)).(
           freed := s.log.freed + g[1..], loopWrote := s.log.loopWrote + g[1..]))
    case Dispatch(verdict) => AfterDispatch(s, verdict)
    case CloseDone => s.(loop := LoopExited, closed := true)
    case Return(who, result) =>
      s.(workers := s.workers - {who}, finished := s.finished + {who},
         results := s.results[who := result])
    case HandlerPanics(who) =>
      s.(workers := s.workers - {who},
         log := s.log.(panicked := s.log.panicked + {who}, abandoned := s.log.abandoned + {who}))
    case Deliver(who) => Delivered(s, who)
    case DummyReturns(who) =>
      s.(dummies := s.dummies - {who}, log := s.log.(freed := s.log.freed + [who]))
    case DummyPanics(who) =>
      s.(dummies := s.dummies - {who}, log := s.log.(abandoned := s.log.abandoned + {who}))
    case WTake => TakeOff(s, false).(writer := WCollecting([s.doneChan[0]]))
    case WClosed => s.(writer := WExited)
    case WMore => TakeOff(s, false).(writer := WCollecting(s.writer.group + [s.doneChan[0]]))
    case WDrop =>
      s.(writer := WExited,
         log := s.log.(dropped := s.log.dropped + Members(s.writer.group),
                       abandoned := s.log.abandoned + Members(s.writer.group)))
    case WEnough => s.(writer := WSending(s.writer.group))
    case WSend =>
      var g := s.writer.group;
      s.(writer := WSent(|g|),
         log := Answering(s, g, GroupAnswers(s, g)).(
           freed := s.log.freed + g, writerWrote := s.log.writerWrote + g))
    case WSettle => WriterSettles(s)
    case Stop => s.(running := false)
  }

  ghost predicate CanRun(s: State, acts: seq<Action>)
    decreases |acts|
  {
    acts == [] || (Enabled(s, acts[0]) && CanRun(Apply(s, acts[0]), acts[1..]))
  }

  ghost function After(s: State, acts: seq<Action>): State
    requires CanRun(s, acts)
    decreases |acts|
  {
    if acts == [] then s else After(Apply(s, acts[0]), acts[1..])
  }

  lemma {:induction false} RunLonger(s: State, acts: seq<Action>, a: Action)
    requires CanRun(s, acts) && Enabled(After(s, acts), a)
    ensures CanRun(s, acts + [a]) && After(s, acts + [a]) == Apply(After(s, acts), a)
    decreases |acts|
  {
    var more := acts + [a];
    if acts == [] {
      assert more == [a] && more[1..] == [];
    } else {
      assert more[1..] == acts[1..] + [a];
      RunLonger(Apply(s, acts[0]), acts[1..], a);
    }
  }

  /** A state some run of the connection leads to. */
  ghost predicate Reached(s: State) {
    exists acts :: CanRun(Initial(), acts) && After(Initial(), acts) == s
  }
}
