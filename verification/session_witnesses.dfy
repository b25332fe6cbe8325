// What the end-to-end theorems except does happen: runs of a session in which a call completes without
// error although it was refused, or although its handler returned an error, and in which a body is
// left on the wire that nobody reads.
module SessionWitnesses {
  import opened RpcTypes
  import opened Framing
  import opened Session
  import opened SessionTheorems
  import opened SessionStray
  import C = ClientMachine
  import S = ServerMachine

  // ----- building runs -----

  lemma {:induction false} Longer(h: Handler, x: State, acts: seq<Action>, a: Action)
    requires CanRun(h, x, acts) && FewCalls(h, x, acts) && Enabled(h, After(h, x, acts), a)
    requires |Apply(h, After(h, x, acts), a).client.sent| <= TWO_TO_THE_64
    ensures CanRun(h, x, acts + [a]) && FewCalls(h, x, acts + [a])
    ensures After(h, x, acts + [a]) == Apply(h, After(h, x, acts), a)
    decreases |acts|
  {
    var more := acts + [a];
    if acts == [] {
      assert more == [a] && more[1..] == [];
    } else {
      assert more[1..] == acts[1..] + [a];
      Longer(h, Apply(h, x, acts[0]), acts[1..], a);
    }
  }

  lemma ClientNext(h: Handler, x: State, a: C.Action, cut: nat, y: State, repaired: bool)
    requires Reached(h, x, repaired) && Enabled(h, x, ByClient(a, cut))
    requires y == ClientDoes(x, a, cut) && |y.client.sent| <= TWO_TO_THE_64
    ensures Reached(h, y, repaired)
  {
    var x0 := Initial(repaired);
    var acts :| CanRun(h, x0, acts) && FewCalls(h, x0, acts) && After(h, x0, acts) == x;
    Longer(h, x0, acts, ByClient(a, cut));
  }

  lemma ServerNext(h: Handler, x: State, a: S.Action, cut: nat, y: State, repaired: bool)
    requires Reached(h, x, repaired) && Enabled(h, x, ByServer(a, cut))
    requires y == ServerDoes(x, a, cut) && |x.client.sent| <= TWO_TO_THE_64
    ensures Reached(h, y, repaired)
  {
    var x0 := Initial(repaired);
    var acts :| CanRun(h, x0, acts) && FewCalls(h, x0, acts) && After(h, x0, acts) == x;
    Longer(h, x0, acts, ByServer(a, cut));
  }

  // ----- one call goes to the server -----

  /** A call that is no ping, wants its reply and carries an argument. */
  predicate Plain(call: Call) {
    call.wantsReply && call.args.Some? && call.serviceMethod != "" && call.serviceMethod != PING_METHOD
  }

  /** The client after its only call has been written. */
  function Wrote(call: Call, repaired: bool): C.State {
    var e := C.Entry(0, 0);
    C.Initial(repaired).(
      seqNo := 1, pending := map[0 := 0], sent := [call], taken := [call], outcomes := [[]],
      writer := C.Writing([e], 1), messages := [C.RequestMessage(e)])
  }

  function Wire(call: Call): seq<Token>
    requires Plain(call)
  {
    [ReqHead(HeaderOf(call, 0)), Body(call.args.value)]
  }

  lemma ClientStepsQuietly(h: Handler, x: State, a: C.Action, client: C.State, pos: nat, repaired: bool)
    requires Reached(h, x, repaired) && |client.sent| <= TWO_TO_THE_64
    requires Enabled(h, x, ByClient(a, 0)) && ClientWrites(x.client, a, 0) == []
    requires client == C.Apply(x.client, a) && pos == x.respPos + ClientReads(a)
    ensures Reached(h, x.(client := client, respPos := pos), repaired)
  {
    assert x.reqLog + [] == x.reqLog;
    ClientNext(h, x, a, 0, x.(client := client, respPos := pos), repaired);
  }

  /** The client about to write its only call. */
  function AboutToWrite(call: Call, repaired: bool): C.State {
    Wrote(call, repaired).(writer := C.Writing([C.Entry(0, 0)], 0), messages := [])
  }

  lemma ClientTakes(h: Handler, call: Call, repaired: bool)
    ensures Reached(h, Initial(repaired).(client := Took(call, repaired)), repaired)
  {
    var x0 := Initial(repaired);
    assert CanRun(h, x0, []) && FewCalls(h, x0, []) && After(h, x0, []) == x0;
    ClientStepsQuietly(h, x0, C.Take(call), Took(call, repaired), 0, repaired);
  }

  function Took(call: Call, repaired: bool): C.State {
    C.Initial(repaired).(writer := C.Holding(call), taken := [call])
  }

  lemma ClientRegisters(h: Handler, call: Call, repaired: bool)
    ensures Reached(h, Initial(repaired).(client := AboutToWrite(call, repaired)), repaired)
  {
    ClientAdmits(h, call, repaired);
    var x := Initial(repaired).(client := Admitted(call, repaired));
    ClientStepsQuietly(h, x, C.BatchEnd, AboutToWrite(call, repaired), 0, repaired);
  }

  function Admitted(call: Call, repaired: bool): C.State {
    AboutToWrite(call, repaired).(writer := C.Batching([C.Entry(0, 0)]))
  }

  lemma ClientAdmits(h: Handler, call: Call, repaired: bool)
    ensures Reached(h, Initial(repaired).(client := Admitted(call, repaired)), repaired)
  {
    ClientTakes(h, call, repaired);
    var x := Initial(repaired).(client := Took(call, repaired));
    ClientStepsQuietly(h, x, C.Admit, Admitted(call, repaired), 0, repaired);
  }

  lemma ClientSends(h: Handler, call: Call, repaired: bool) returns (x: State)
    requires Plain(call)
    ensures Reached(h, x, repaired)
    ensures x == State(Wrote(call, repaired), S.Initial(), Wire(call), 0, [], 0, false)
  {
    ClientRegisters(h, call, repaired);
    var x0 := Initial(repaired).(client := AboutToWrite(call, repaired));
    x := State(Wrote(call, repaired), S.Initial(), Wire(call), 0, [], 0, false);
    assert ClientWrites(x0.client, C.WriteOne(true), 0) == Wire(call);
    assert [] + Wire(call) == Wire(call);
    ClientNext(h, x0, C.WriteOne(true), 0, x, repaired);
  }

  /** The server with that call accepted and about to be dispatched. */
  function AboutToDispatch(call: Call, blank: RpcTypes.Value): S.State
    requires Plain(call)
  {
    var head := HeaderOf(call, 0);
    S.Initial().(wg := 1, loop := S.Dispatching(0, false),
                 accepted := [S.Work(head, call.args.value, blank)], log := S.Initial().log.(read := [head]))
  }

  lemma ServerStepsQuietly(h: Handler, x: State, a: S.Action, cut: nat, server: S.State, pos: nat, repaired: bool)
    requires Reached(h, x, repaired) && |x.client.sent| <= TWO_TO_THE_64
    requires Enabled(h, x, ByServer(a, cut)) && ServerAnswersNow(x.server, a) == []
    requires server == S.Apply(x.server, a) && pos == x.reqPos + ServerReads(a, cut)
    ensures Reached(h, x.(server := server, reqPos := pos), repaired)
  {
    assert x.respLog + [] == x.respLog;
    ServerNext(h, x, a, cut, x.(server := server, reqPos := pos), repaired);
  }

  lemma ServerAccepts(h: Handler, call: Call, blank: RpcTypes.Value, repaired: bool) returns (x: State)
    requires Plain(call)
    ensures Reached(h, x, repaired)
    ensures x == State(Wrote(call, repaired), AboutToDispatch(call, blank), Wire(call), 2, [], 0, false)
  {
    var x0 := ClientSends(h, call, repaired);
    var head, arg := HeaderOf(call, 0), call.args.value;
    var s0 := x0.server;
    var s1 := s0.(loop := S.ReadingBody(head), log := s0.log.(read := [head]));
    ServerStepsQuietly(h, x0, S.ReadHead(head, true, ""), 0, s1, 1, repaired);
    var x1 := x0.(server := s1, reqPos := 1);
    var s2 := s1.(loop := S.Returned(S.Good(head, arg, blank)));
    ServerStepsQuietly(h, x1, S.ReadBody(arg, blank), 0, s2, 2, repaired);
    x := ServerChecks(h, x1.(server := s2, reqPos := 2), call, blank, repaired);
  }

  lemma ServerChecks(h: Handler, x: State, call: Call, blank: RpcTypes.Value, repaired: bool) returns (y: State)
    requires Plain(call) && Reached(h, x, repaired) && |x.client.sent| <= TWO_TO_THE_64 && x.reqPos == 2
    requires var head := HeaderOf(call, 0);
             x.server == S.Initial().(loop := S.Returned(S.Good(head, call.args.value, blank)),
                                      log := S.Initial().log.(read := [head]))
    ensures Reached(h, y, repaired) && y == x.(server := AboutToDispatch(call, blank))
  {
    var s := AboutToDispatch(call, blank);
    ServerStepsQuietly(h, x, S.Check, 0, s, 2, repaired);
    y := x.(server := s);
  }

  // ----- the answer comes back -----

  /** The response's header is the first token on the wire, and `body` is what it announces. */
  predicate Announces(log: seq<Token>, head: ResponseHeader, body: C.BodyRead) {
    && |log| > 0 && log[0] == RespHead(head) && head.seqNo == 0 && !head.IsPing()
    && if body.Value? then head.HasData() && head.errorMsg == "" && |log| > 1 && log[1] == Body(body.value)
       else body.NoBody? && !head.HasData()
  }

  lemma ClientReadsAnswer(h: Handler, x: State, call: Call, head: ResponseHeader, body: C.BodyRead, repaired: bool)
    returns (y: State)
    requires Reached(h, x, repaired) && x.client == Wrote(call, repaired) && Plain(call)
    requires Announces(x.respLog, head, body) && x.respPos == 0
    ensures Reached(h, y, repaired) && y.server == x.server && y.respLog == x.respLog
    ensures y.client.sent == [call] && y.client.outcomes == [[C.BodyOutcome(head, body)]]
    ensures y.client.reader == C.AwaitingHeader && y.respPos == if body.Value? then 2 else 1
  {
    var c1 := x.client.(reader := C.GotHeader(head));
    ClientStepsQuietly(h, x, C.ReadHeader(head), c1, 1, repaired);
    var x1 := x.(client := c1, respPos := 1);
    var c2 := c1.(pending := map[], reader := C.GotCall(head, Some(0)));
    assert c1.pending - {0} == map[];
    ClientStepsQuietly(h, x1, C.Lookup, c2, 1, repaired);
    y := ClientFinishes(h, x1.(client := c2), call, head, body, repaired);
  }

  lemma ClientFinishes(h: Handler, x: State, call: Call, head: ResponseHeader, body: C.BodyRead, repaired: bool)
    returns (y: State)
    requires Reached(h, x, repaired) && Plain(call) && Announces(x.respLog, head, body) && x.respPos == 1
    requires x.client.sent == [call] && x.client.outcomes == [[]]
    requires x.client.reader == C.GotCall(head, Some(0))
    ensures Reached(h, y, repaired) && y.server == x.server && y.respLog == x.respLog
    ensures y.client.sent == [call] && y.client.outcomes == [[C.BodyOutcome(head, body)]]
    ensures y.client.reader == C.AwaitingHeader && y.respPos == if body.Value? then 2 else 1
  {
    var o := C.BodyOutcome(head, body);
    var c1, pos := x.client.(reader := C.Completing(0, o, false)), if body.Value? then 2 else 1;
    ClientStepsQuietly(h, x, C.FinishBody(body), c1, pos, repaired);
    var c2 := C.Apply(c1, C.CompleteRead);
    var x1 := x.(client := c1, respPos := pos);
    ClientStepsQuietly(h, x1, C.CompleteRead, c2, pos, repaired);
    y := x1.(client := c2);
    assert y.client.outcomes[0] == [o];
  }

  /** The server refuses the call without a text. */
  lemma ServerRefuses(h: Handler, call: Call, blank: RpcTypes.Value, repaired: bool) returns (x: State)
    requires Plain(call)
    ensures Reached(h, x, repaired) && x.client == Wrote(call, repaired) && x.respPos == 0
    ensures x.respLog == [RespHead(Direct(HeaderOf(call, 0), "").Head())]
    ensures |x.server.accepted| == 1 && x.server.accepted[0].head.seqNo == 0
    ensures 0 in x.server.log.rejections && x.server.log.rejections[0] == ""
  {
    var x0 := ServerAccepts(h, call, blank, repaired);
    var s1 := S.Apply(x0.server, S.Dispatch(S.Fails("")));
    ServerStepsQuietly(h, x0, S.Dispatch(S.Fails("")), 0, s1, 2, repaired);
    var x1 := x0.(server := s1);
    var a := Direct(HeaderOf(call, 0), "");
    assert ServerAnswersNow(s1, S.Reply) == [a];
    assert AnswerStream([a], false) == [RespHead(a.Head())] by {
      assert [a][1..] == [];
    }
    assert [] + [RespHead(a.Head())] == [RespHead(a.Head())];
    x := x1.(server := S.Apply(s1, S.Reply), respLog := [RespHead(a.Head())]);
    ServerNext(h, x1, S.Reply, 1, x, repaired);
  }

  /** A dispatch error without a text: the call completes with success and no reply. */
  lemma SilentRefusalHappens(h: Handler, call: Call, blank: RpcTypes.Value, repaired: bool)
    requires Plain(call)
    ensures exists x :: Reached(h, x, repaired) && x.client.sent == [call]
                        && x.client.outcomes == [[C.Succeeded(None)]] && RefusedWithoutText(x, 0)
  {
    var x := ServerRefuses(h, call, blank, repaired);
    var y := ClientReadsAnswer(h, x, call, Direct(HeaderOf(call, 0), "").Head(), C.NoBody, repaired);
    assert y.server.accepted[0].head.seqNo == 0 && y.server.log.rejections[0] == "";
  }

  /** A handler error without a text: the call completes with success and the reply that was left behind. */
  lemma SilentErrorHappens(h: Handler, call: Call, blank: RpcTypes.Value, reply: RpcTypes.Value, repaired: bool)
    requires Plain(call) && h(call.serviceMethod, call.args.value, S.Result(reply, Some("")))
    ensures exists x :: Reached(h, x, repaired) && x.client.sent == [call]
                        && x.client.outcomes == [[C.Succeeded(Some(reply))]] && ErredWithoutText(x, 0)
  {
    var x0 := ServerAccepts(h, call, blank, repaired);
    var x1 := HandlerReturns(h, x0, call, blank, S.Result(reply, Some("")), repaired);
    var a := Grouped(HeaderOf(call, 0), reply, "");
    var y := ClientReadsAnswer(h, x1, call, a.Head(), C.Value(reply), repaired);
    assert y.server.results[0].err == Some("");
  }

  /** Nothing goes wrong: the call completes with the reply its handler returned. */
  lemma CallSucceeds(h: Handler, call: Call, blank: RpcTypes.Value, reply: RpcTypes.Value, repaired: bool)
    requires Plain(call) && h(call.serviceMethod, call.args.value, S.Result(reply, None))
    ensures exists x :: Reached(h, x, repaired) && x.client.sent == [call]
                        && x.client.outcomes == [[C.Succeeded(Some(reply))]]
                        && Delivered(h, x, 0, Some(reply))
  {
    var x0 := ServerAccepts(h, call, blank, repaired);
    var x1 := HandlerReturns(h, x0, call, blank, S.Result(reply, None), repaired);
    var a := Grouped(HeaderOf(call, 0), reply, "");
    var y := ClientReadsAnswer(h, x1, call, a.Head(), C.Value(reply), repaired);
    assert y.server.accepted[0].head == HeaderOf(call, 0) && y.server.results[0] == S.Result(reply, None);
  }

  /** A handler error with a text: its reply is left on the wire as a stray body. The client reads the
      header, completes the call with the error, and stands before the body. */
  lemma StrayBodyHappens(h: Handler, call: Call, blank: RpcTypes.Value, reply: RpcTypes.Value, text: string,
                         repaired: bool)
    requires Plain(call) && h(call.serviceMethod, call.args.value, S.Result(reply, Some(text))) && text != ""
    ensures exists x :: Reached(h, x, repaired) && StrayAt(x.respLog, 1) && x.respPos == 1
                        && x.client.reader.AwaitingHeader?
                        && x.client.outcomes == [[C.Failed(C.Remote(text))]]
  {
    var r := S.Result(reply, Some(text));
    var x0 := ServerAccepts(h, call, blank, repaired);
    var x1 := HandlerReturns(h, x0, call, blank, r, repaired);
    var head := Grouped(HeaderOf(call, 0), r.reply, r.Text()).Head();
    var y := ClientReadsAnswer(h, x1, call, head, C.NoBody, repaired);
    assert StrayAt(y.respLog, 1);
  }

  /** What the server writes for the call once its handler has returned `r`. */
  function Answered(call: Call, r: S.Result): seq<Token> {
    [RespHead(Grouped(HeaderOf(call, 0), r.reply, r.Text()).Head()), Body(r.reply)]
  }

  /** The server with the handler's result on its doneChan. */
  function Reported(call: Call, blank: RpcTypes.Value, r: S.Result): S.State
    requires Plain(call)
  {
    var s := AboutToDispatch(call, blank);
    s.(loop := S.Reading, results := map[0 := r], doneChan := [0],
       log := s.log.(executed := [0], queued := [0]))
  }

  lemma HandlerReports(h: Handler, x: State, call: Call, blank: RpcTypes.Value, r: S.Result, repaired: bool)
    requires Plain(call) && h(call.serviceMethod, call.args.value, r)
    requires Reached(h, x, repaired)
    requires x == State(Wrote(call, repaired), AboutToDispatch(call, blank), Wire(call), 2, [], 0, false)
    ensures Reached(h, x.(server := Reported(call, blank, r)), repaired)
  {
    var s0 := x.server;
    var s1 := s0.(loop := S.Reading, workers := {0}, log := s0.log.(executed := [0]));
    ServerStepsQuietly(h, x, S.Dispatch(S.Runs), 0, s1, 2, repaired);
    var s2 := s1.(workers := {}, finished := {0}, results := map[0 := r]);
    ServerStepsQuietly(h, x.(server := s1), S.Return(0, r), 0, s2, 2, repaired);
    ResultIsDelivered(h, x.(server := s2), Reported(call, blank, r), repaired);
  }

  lemma ResultIsDelivered(h: Handler, x: State, s: S.State, repaired: bool)
    requires Reached(h, x, repaired) && |x.client.sent| <= TWO_TO_THE_64
    requires x.server.finished == {0} && !x.server.closed && x.server.doneChan == [] == x.server.log.queued
    requires s == x.server.(finished := {}, doneChan := [0], log := x.server.log.(queued := [0]))
    ensures Reached(h, x.(server := s), repaired)
  {
    assert x.server.finished - {0} == {} && [] + [0] == [0];
    ServerStepsQuietly(h, x, S.Deliver(0), 0, s, x.reqPos, repaired);
  }

  lemma HandlerReturns(h: Handler, x: State, call: Call, blank: RpcTypes.Value, r: S.Result, repaired: bool)
    returns (y: State)
    requires Plain(call) && h(call.serviceMethod, call.args.value, r)
    requires Reached(h, x, repaired)
    requires x == State(Wrote(call, repaired), AboutToDispatch(call, blank), Wire(call), 2, [], 0, false)
    ensures Reached(h, y, repaired) && y.client == x.client && y.respPos == 0
    ensures y.respLog == Answered(call, r)
    ensures y.server.accepted == x.server.accepted && y.server.results == map[0 := r]
  {
    HandlerReports(h, x, call, blank, r, repaired);
    var z := ResultIsCollected(h, x.(server := Reported(call, blank, r)), repaired);
    y := ResultIsWritten(h, z, call, r, repaired);
  }

  lemma ResultIsCollected(h: Handler, x: State, repaired: bool) returns (y: State)
    requires Reached(h, x, repaired) && |x.client.sent| <= TWO_TO_THE_64
    requires x.server.doneChan == [0] && x.server.writer.Waiting? && !x.server.closed
    ensures Reached(h, y, repaired) && y == x.(server := y.server)
    ensures y.server.writer == S.WSending([0])
    ensures y.server.accepted == x.server.accepted && y.server.results == x.server.results
  {
    var s1 := S.Apply(x.server, S.WTake);
    ServerStepsQuietly(h, x, S.WTake, 0, s1, x.reqPos, repaired);
    y := GroupIsComplete(h, x.(server := s1), repaired);
  }

  lemma GroupIsComplete(h: Handler, x: State, repaired: bool) returns (y: State)
    requires Reached(h, x, repaired) && |x.client.sent| <= TWO_TO_THE_64
    requires x.server.doneChan == [] && x.server.writer == S.WCollecting([0]) && !x.server.closed
    ensures Reached(h, y, repaired) && y == x.(server := y.server)
    ensures y.server.writer == S.WSending([0])
    ensures y.server.accepted == x.server.accepted && y.server.results == x.server.results
  {
    var s := S.Apply(x.server, S.WEnough);
    ServerStepsQuietly(h, x, S.WEnough, 0, s, x.reqPos, repaired);
    y := x.(server := s);
  }

  lemma ResultIsWritten(h: Handler, x: State, call: Call, r: S.Result, repaired: bool)
    returns (y: State)
    requires Reached(h, x, repaired) && x.respLog == [] && !x.broken && |x.client.sent| <= TWO_TO_THE_64
    requires x.server.writer == S.WSending([0])
    requires x.server.results == map[0 := r]
    requires |x.server.accepted| == 1 && x.server.accepted[0].Work?
    requires x.server.accepted[0].head == HeaderOf(call, 0)
    ensures Reached(h, y, repaired) && y.client == x.client && y.respPos == x.respPos
    ensures y.respLog == Answered(call, r)
    ensures y.server.accepted == x.server.accepted && y.server.results == x.server.results
  {
    var a := Grouped(HeaderOf(call, 0), r.reply, r.Text());
    var tokens := Answered(call, r);
    assert ServerAnswersNow(x.server, S.WSend) == [a];
    assert AnswerStream([a], false) == tokens by {
      assert [a][1..] == [];
    }
    assert [] + tokens == tokens && tokens[..2] == tokens;
    y := x.(server := S.Apply(x.server, S.WSend), respLog := tokens);
    ServerNext(h, x, S.WSend, 2, y, repaired);
  }
}
