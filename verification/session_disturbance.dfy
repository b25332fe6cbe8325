// A session in which one of the connection's own pings makes a difference: after a double answer it keeps
// the response writer from panicking.
module SessionDisturbance {
  import opened RpcTypes
  import opened Framing
  import opened Session
  import opened SessionPing
  import C = ClientMachine
  import S = ServerMachine
  import SW = SessionWitnesses

  /** A state some run leads to, with the marks it has then. */
  ghost predicate ReachedWith(h: Handler, x: State, m: Marks, repaired: bool) {
    exists acts ::
      && CanRun(h, Initial(repaired), acts) && FewCalls(h, Initial(repaired), acts)
      && After(h, Initial(repaired), acts) == x && MarksOf(h, Initial(repaired), NO_MARKS, acts) == m
  }

  lemma {:induction false} MarksLonger(h: Handler, x: State, m: Marks, acts: seq<Action>, a: Action)
    requires CanRun(h, x, acts) && Enabled(h, After(h, x, acts), a)
    requires CanRun(h, x, acts + [a])
    ensures MarksOf(h, x, m, acts + [a]) == MarksAfter(h, After(h, x, acts), MarksOf(h, x, m, acts), a)
    ensures Undisturbed(h, x, m, acts + [a]) ==> !Disturbs(After(h, x, acts), MarksOf(h, x, m, acts), a)
    decreases |acts|
  {
    var more := acts + [a];
    if acts == [] {
      assert more == [a] && more[1..] == [];
    } else {
      assert more[1..] == acts[1..] + [a];
      MarksLonger(h, Apply(h, x, acts[0]), MarksAfter(h, x, m, acts[0]), acts[1..], a);
    }
  }

  lemma NextWith(h: Handler, x: State, m: Marks, a: Action, repaired: bool)
    requires ReachedWith(h, x, m, repaired) && Enabled(h, x, a)
    requires |Apply(h, x, a).client.sent| <= TWO_TO_THE_64
    ensures ReachedWith(h, Apply(h, x, a), MarksAfter(h, x, m, a), repaired)
  {
    var x0 := Initial(repaired);
    var acts :| && CanRun(h, x0, acts) && FewCalls(h, x0, acts)
                && After(h, x0, acts) == x && MarksOf(h, x0, NO_MARKS, acts) == m;
    SW.Longer(h, x0, acts, a);
    MarksLonger(h, x0, NO_MARKS, acts, a);
  }

  // ----- the client sends two calls and a ping -----

  lemma ClientGoes(h: Handler, x: State, m: Marks, c: C.Action, y: State, n: Marks, repaired: bool)
    requires ReachedWith(h, x, m, repaired) && Enabled(h, x, ByClient(c, 0))
    requires |C.Apply(x.client, c).sent| <= TWO_TO_THE_64 && ClientReads(c) == 0
    requires y == x.(client := C.Apply(x.client, c), reqLog := x.reqLog + ClientWrites(x.client, c, 0))
    requires n == m.(req := m.req + Flags(|ClientWrites(x.client, c, 0)|, c.PingWrite?))
    ensures ReachedWith(h, y, n, repaired)
  {
    NextWith(h, x, m, ByClient(c, 0), repaired);
  }

  lemma ClientIdles(h: Handler, x: State, m: Marks, c: C.Action, client: C.State, repaired: bool)
    requires ReachedWith(h, x, m, repaired) && Enabled(h, x, ByClient(c, 0))
    requires client == C.Apply(x.client, c) && |client.sent| <= TWO_TO_THE_64
    requires ClientReads(c) == 0 && ClientWrites(x.client, c, 0) == [] && !c.PingWrite?
    ensures ReachedWith(h, x.(client := client), m, repaired)
  {
    assert x.reqLog + [] == x.reqLog && m.req + Flags(0, false) == m.req;
    ClientGoes(h, x, m, c, x.(client := client), m, repaired);
  }

  predicate Pair(a: Call, b: Call) {
    SW.Plain(a) && !b.wantsReply && b.args.Some? && b.serviceMethod != "" && b.serviceMethod != PING_METHOD
  }

  function Two(a: Call, b: Call, repaired: bool): C.State {
    C.Initial(repaired).(
      seqNo := 2, pending := map[0 := 0, 1 := 1], sent := [a, b], taken := [a, b], outcomes := [[], []],
      writer := C.Writing([C.Entry(0, 0), C.Entry(1, 1)], 0))
  }

  lemma ClientTakesFirst(h: Handler, a: Call, repaired: bool)
    ensures ReachedWith(h, Initial(repaired).(client := SW.Took(a, repaired)), NO_MARKS, repaired)
  {
    var x0 := Initial(repaired);
    assert CanRun(h, x0, []) && FewCalls(h, x0, []) && After(h, x0, []) == x0;
    assert MarksOf(h, x0, NO_MARKS, []) == NO_MARKS;
    ClientIdles(h, x0, NO_MARKS, C.Take(a), SW.Took(a, repaired), repaired);
  }

  function OneRegistered(a: Call, repaired: bool): C.State {
    SW.AboutToWrite(a, repaired).(writer := C.Batching([C.Entry(0, 0)]))
  }

  lemma ClientAdmitsFirst(h: Handler, a: Call, repaired: bool)
    ensures ReachedWith(h, Initial(repaired).(client := OneRegistered(a, repaired)), NO_MARKS, repaired)
  {
    ClientTakesFirst(h, a, repaired);
    var x := Initial(repaired).(client := SW.Took(a, repaired));
    ClientIdles(h, x, NO_MARKS, C.Admit, OneRegistered(a, repaired), repaired);
  }

  function TwoRegistered(a: Call, b: Call, repaired: bool): C.State {
    Two(a, b, repaired).(writer := C.Batching([C.Entry(0, 0), C.Entry(1, 1)]))
  }

  lemma SecondIsRegistered(a: Call, b: Call, repaired: bool)
    ensures C.Enabled(OneRegistered(a, repaired), C.BatchMore(b))
    ensures C.Apply(OneRegistered(a, repaired), C.BatchMore(b)) == TwoRegistered(a, b, repaired)
  {
    var t := C.Apply(OneRegistered(a, repaired), C.BatchMore(b));
    assert t.sent == [a, b] && t.taken == [a, b] && t.outcomes == [[], []];
    assert t.pending == map[0 := 0, 1 := 1] && t.writer == TwoRegistered(a, b, repaired).writer;
  }

  lemma ClientTakesSecond(h: Handler, a: Call, b: Call, repaired: bool)
    ensures ReachedWith(h, Initial(repaired).(client := TwoRegistered(a, b, repaired)), NO_MARKS, repaired)
  {
    ClientAdmitsFirst(h, a, repaired);
    SecondIsRegistered(a, b, repaired);
    var x := Initial(repaired).(client := OneRegistered(a, repaired));
    ClientIdles(h, x, NO_MARKS, C.BatchMore(b), TwoRegistered(a, b, repaired), repaired);
  }

  lemma ClientRegistersTwo(h: Handler, a: Call, b: Call, repaired: bool)
    ensures ReachedWith(h, Initial(repaired).(client := Two(a, b, repaired)), NO_MARKS, repaired)
  {
    ClientTakesSecond(h, a, b, repaired);
    var x := Initial(repaired).(client := TwoRegistered(a, b, repaired));
    ClientIdles(h, x, NO_MARKS, C.BatchEnd, Two(a, b, repaired), repaired);
  }

  function Wires(a: Call, b: Call): seq<Token>
    requires Pair(a, b)
  {
    [ReqHead(HeaderOf(a, 0)), Body(a.args.value), ReqHead(HeaderOf(b, 1)), Body(b.args.value)]
  }

  const PINGED: Marks := Marks([false, false, false, false, true], [], false)

  /** Both calls and a ping are on the wire. */
  ghost predicate AllSent(x: State, a: Call, b: Call)
    requires Pair(a, b)
  {
    && x.reqLog == Wires(a, b) + [ReqHead(PING_REQUEST_HEADER)] && x.reqPos == 0
    && x.server == S.Initial() && |x.client.sent| == 2 && !x.broken
  }

  /** One of the two requests is written. */
  lemma ClientWritesNext(h: Handler, x: State, m: Marks, tokens: seq<Token>, n: Marks, repaired: bool)
    returns (y: State)
    requires ReachedWith(h, x, m, repaired) && |x.client.sent| == 2
    requires x.client.writer.Writing? && x.client.writer.next < |x.client.writer.group|
    requires ClientWrites(x.client, C.WriteOne(true), 0) == tokens && n == m.(req := m.req + Flags(|tokens|, false))
    ensures ReachedWith(h, y, n, repaired)
    ensures y == x.(client := y.client, reqLog := x.reqLog + tokens) && y.client.sent == x.client.sent
    ensures y.client.writer == C.Writing(x.client.writer.group, x.client.writer.next + 1)
  {
    y := x.(client := C.Apply(x.client, C.WriteOne(true)), reqLog := x.reqLog + tokens);
    ClientGoes(h, x, m, C.WriteOne(true), y, n, repaired);
  }

  lemma ClientSendsBoth(h: Handler, a: Call, b: Call, repaired: bool) returns (x: State)
    requires Pair(a, b)
    ensures ReachedWith(h, x, Marks([false, false, false, false], [], false), repaired)
    ensures x.reqLog == Wires(a, b) && x.reqPos == 0 && x.server == S.Initial() && !x.broken
    ensures x.client.writer.Writing? && x.client.writer.next == 2 == |x.client.writer.group|
    ensures |x.client.sent| == 2
  {
    ClientRegistersTwo(h, a, b, repaired);
    var x0 := Initial(repaired).(client := Two(a, b, repaired));
    var first, second := Wires(a, b)[..2], Wires(a, b)[2..];
    var m1, m2 := Marks([false, false], [], false), Marks([false, false, false, false], [], false);
    assert [] + first == first && first + second == Wires(a, b);
    assert [] + Flags(2, false) == m1.req && m1.req + Flags(2, false) == m2.req;
    var x1 := ClientWritesNext(h, x0, NO_MARKS, first, m1, repaired);
    x := ClientWritesNext(h, x1, m1, second, m2, repaired);
  }

  lemma ClientSendsPing(h: Handler, a: Call, b: Call, repaired: bool) returns (x: State)
    requires Pair(a, b)
    ensures ReachedWith(h, x, PINGED, repaired) && AllSent(x, a, b)
  {
    var x0 := ClientSendsBoth(h, a, b, repaired);
    var m := Marks([false, false, false, false], [], false);
    var c1 := C.Apply(x0.client, C.FlushGroup(true));
    ClientIdles(h, x0, m, C.FlushGroup(true), c1, repaired);
    var x1 := x0.(client := c1);
    x := x1.(client := C.Apply(c1, C.PingWrite(true)), reqLog := x1.reqLog + [ReqHead(PING_REQUEST_HEADER)]);
    assert m.req + Flags(1, true) == PINGED.req;
    ClientGoes(h, x1, m, C.PingWrite(true), x, PINGED, repaired);
  }

  // ----- the server answers one of them twice -----

  /** A step of the server; nothing of what it writes gets through. */
  lemma ServerGoes(h: Handler, x: State, m: Marks, a: S.Action, repaired: bool) returns (y: State)
    requires ReachedWith(h, x, m, repaired) && |x.client.sent| <= TWO_TO_THE_64
    requires S.Enabled(x.server, a) && ServerReadOk(x.reqLog, x.reqPos, a, 0) && HandlerAllows(h, x.server, a)
    ensures ReachedWith(h, y, m.(inHand := Mine(x, m, a)), repaired)
    ensures y == x.(server := S.Apply(x.server, a), reqPos := x.reqPos + ServerReads(a, 0), broken := y.broken)
  {
    NextWith(h, x, m, ByServer(a, 0), repaired);
    y := ServerDoes(x, a, 0);
    assert x.respLog + [] == x.respLog && m.resp + Flags(0, m.inHand && a.PingReply?) == m.resp;
    assert MarksAfter(h, x, m, ByServer(a, 0)) == m.(inHand := Mine(x, m, a));
  }

  /** Nothing but the server's part has changed. */
  predicate ServerOnly(x: State, y: State) { y == x.(server := y.server, reqPos := y.reqPos, broken := y.broken) }

  lemma ServerGoesTo(h: Handler, x: State, m: Marks, a: S.Action, server: S.State, repaired: bool)
    returns (y: State)
    requires ReachedWith(h, x, m, repaired) && |x.client.sent| <= TWO_TO_THE_64
    requires S.Enabled(x.server, a) && ServerReadOk(x.reqLog, x.reqPos, a, 0) && HandlerAllows(h, x.server, a)
    requires server == S.Apply(x.server, a)
    ensures ReachedWith(h, y, m.(inHand := Mine(x, m, a)), repaired)
    ensures y == x.(server := server, reqPos := x.reqPos + ServerReads(a, 0), broken := y.broken)
  {
    y := ServerGoes(h, x, m, a, repaired);
  }

  lemma ServerTakesHead(h: Handler, x: State, head: RequestHeader, repaired: bool) returns (y: State)
    requires ReachedWith(h, x, PINGED, repaired) && |x.client.sent| <= TWO_TO_THE_64
    requires x.server.loop == S.Reading && !head.IsPing() && head.serviceMethod != ""
    requires x.reqPos < 4 < |x.reqLog| && x.reqLog[x.reqPos] == ReqHead(head)
    ensures ReachedWith(h, y, PINGED, repaired) && ServerOnly(x, y) && y.reqPos == x.reqPos + 1
    ensures y.server == x.server.(loop := S.ReadingBody(head),
                                  log := x.server.log.(read := x.server.log.read + [head]))
  {
    var s0 := x.server;
    var s1 := s0.(loop := S.ReadingBody(head), log := s0.log.(read := s0.log.read + [head]));
    y := ServerGoesTo(h, x, PINGED, S.ReadHead(head, true, ""), s1, repaired);
  }

  /** The next call on the wire is read. */
  lemma ServerReadsHead(h: Handler, x: State, head: RequestHeader, arg: RpcTypes.Value, v: RpcTypes.Value,
                        repaired: bool) returns (y: State)
    requires ReachedWith(h, x, PINGED, repaired) && |x.client.sent| <= TWO_TO_THE_64
    requires x.server.loop == S.Reading && !head.IsPing() && head.serviceMethod != ""
    requires x.reqPos + 1 < 4 < |x.reqLog|
    requires x.reqLog[x.reqPos] == ReqHead(head) && x.reqLog[x.reqPos + 1] == Body(arg)
    ensures ReachedWith(h, y, PINGED, repaired) && ServerOnly(x, y) && y.reqPos == x.reqPos + 2
    ensures y.server == x.server.(loop := S.Returned(S.Good(head, arg, v)),
                                  log := x.server.log.(read := x.server.log.read + [head]))
  {
    var z := ServerTakesHead(h, x, head, repaired);
    var s := z.server.(loop := S.Returned(S.Good(head, arg, v)));
    y := ServerGoesTo(h, z, PINGED, S.ReadBody(arg, v), s, repaired);
  }

  /** ... and accepted. */
  lemma ServerReadsCall(h: Handler, x: State, head: RequestHeader, arg: RpcTypes.Value, v: RpcTypes.Value,
                        repaired: bool) returns (y: State)
    requires ReachedWith(h, x, PINGED, repaired) && |x.client.sent| <= TWO_TO_THE_64
    requires x.server.loop == S.Reading && x.server.running && !head.IsPing() && head.serviceMethod != ""
    requires x.reqPos + 1 < 4 && 4 < |x.reqLog|
    requires x.reqLog[x.reqPos] == ReqHead(head) && x.reqLog[x.reqPos + 1] == Body(arg)
    ensures ReachedWith(h, y, PINGED, repaired) && ServerOnly(x, y) && y.reqPos == x.reqPos + 2
    ensures y.server == x.server.(
              wg := x.server.wg + 1, accepted := x.server.accepted + [S.Work(head, arg, v)],
              loop := if head.DummyReturn() then S.Collecting([|x.server.accepted|])
                      else S.Dispatching(|x.server.accepted|, false),
              log := y.server.log)
  {
    var z := ServerReadsHead(h, x, head, arg, v, repaired);
    var n := |x.server.accepted|;
    var s := z.server.(wg := z.server.wg + 1, accepted := z.server.accepted + [S.Work(head, arg, v)],
                       loop := if head.DummyReturn() then S.Collecting([n]) else S.Dispatching(n, false));
    y := ServerGoesTo(h, z, PINGED, S.Check, s, repaired);
  }

  lemma FirstAccepted(h: Handler, x: State, a: Call, b: Call, v: RpcTypes.Value, repaired: bool)
    returns (y: State)
    requires Pair(a, b) && ReachedWith(h, x, PINGED, repaired) && AllSent(x, a, b)
    ensures ReachedWith(h, y, PINGED, repaired) && ServerOnly(x, y) && y.reqPos == 2
    ensures y.server == S.Initial().(wg := 1, workers := {0}, log := y.server.log,
                                     accepted := [S.Work(HeaderOf(a, 0), a.args.value, v)])
  {
    y := ServerReadsCall(h, x, HeaderOf(a, 0), a.args.value, v, repaired);
    y := ServerGoes(h, y, PINGED, S.Dispatch(S.Runs), repaired);
  }

  /** The first call is with a worker, the second, a dummy return, is accepted. */
  lemma BothAccepted(h: Handler, x: State, a: Call, b: Call, v: RpcTypes.Value, repaired: bool)
    returns (y: State)
    requires Pair(a, b) && ReachedWith(h, x, PINGED, repaired) && AllSent(x, a, b)
    ensures ReachedWith(h, y, PINGED, repaired) && ServerOnly(x, y) && y.reqPos == 4
    ensures y.server == S.Initial().(
              wg := 2, loop := S.Collecting([1]), workers := {0}, log := y.server.log,
              accepted := [S.Work(HeaderOf(a, 0), a.args.value, v), S.Work(HeaderOf(b, 1), b.args.value, v)])
  {
    var z := FirstAccepted(h, x, a, b, v, repaired);
    y := ServerReadsCall(h, z, HeaderOf(b, 1), b.args.value, v, repaired);
  }

  lemma AnsweredOnce(h: Handler, x: State, repaired: bool) returns (y: State)
    requires ReachedWith(h, x, PINGED, repaired) && |x.client.sent| <= TWO_TO_THE_64
    requires x.server.loop == S.Collecting([1]) && x.server.doneChan == []
    requires |x.server.accepted| == 2 && x.server.accepted[1].Work?
    ensures ReachedWith(h, y, PINGED, repaired) && ServerOnly(x, y) && y.reqPos == x.reqPos
    ensures y.server == x.server.(loop := S.Sent(1, 1), log := y.server.log)
  {
    y := ServerGoesTo(h, x, PINGED, S.LoopEnough, x.server.(loop := S.Sending([1])), repaired);
    y := LoopWrites(h, y, repaired);
  }

  /** The dummy return is answered, refused and answered again. */
  lemma AnsweredTwice(h: Handler, x: State, repaired: bool) returns (y: State)
    requires ReachedWith(h, x, PINGED, repaired) && |x.client.sent| <= TWO_TO_THE_64
    requires x.server.loop == S.Collecting([1]) && x.server.wg == 2 && x.server.doneChan == []
    requires |x.server.accepted| == 2 && x.server.accepted[1].Work?
    ensures ReachedWith(h, y, PINGED, repaired) && ServerOnly(x, y) && y.reqPos == x.reqPos
    ensures y.server == x.server.(wg := 0, loop := S.Reading, log := y.server.log)
  {
    var z := AnsweredOnce(h, x, repaired);
    var s := z.server.(wg := 1, loop := S.Dispatching(1, true));
    z := ServerGoesTo(h, z, PINGED, S.Settle, s, repaired);
    y := RefusedAfterwards(h, z, repaired);
  }

  lemma LoopWrites(h: Handler, x: State, repaired: bool) returns (y: State)
    requires ReachedWith(h, x, PINGED, repaired) && |x.client.sent| <= TWO_TO_THE_64
    requires x.server.loop == S.Sending([1]) && |x.server.accepted| == 2 && x.server.accepted[1].Work?
    ensures ReachedWith(h, y, PINGED, repaired) && ServerOnly(x, y) && y.reqPos == x.reqPos
    ensures y.server == x.server.(loop := S.Sent(1, 1), log := y.server.log)
  {
    y := ServerGoes(h, x, PINGED, S.LoopSend, repaired);
  }

  lemma WriterSends(h: Handler, x: State, repaired: bool) returns (y: State)
    requires ReachedWith(h, x, PINGED, repaired) && |x.client.sent| <= TWO_TO_THE_64
    requires x.server.writer == S.WSending([0]) && |x.server.accepted| == 2 && x.server.accepted[0].Work?
    ensures ReachedWith(h, y, PINGED, repaired) && ServerOnly(x, y) && y.reqPos == x.reqPos
    ensures y.server == x.server.(writer := S.WSent(1), log := y.server.log)
  {
    y := ServerGoes(h, x, PINGED, S.WSend, repaired);
  }

  lemma RefusedAfterwards(h: Handler, x: State, repaired: bool) returns (y: State)
    requires ReachedWith(h, x, PINGED, repaired) && |x.client.sent| <= TWO_TO_THE_64
    requires x.server.loop == S.Dispatching(1, true) && x.server.wg == 1 && |x.server.accepted| == 2
    ensures ReachedWith(h, y, PINGED, repaired) && ServerOnly(x, y) && y.reqPos == x.reqPos
    ensures y.server == x.server.(wg := 0, loop := S.Reading, log := y.server.log)
  {
    y := ServerGoes(h, x, PINGED, S.Dispatch(S.Fails("refused")), repaired);
    y := ServerGoes(h, y, PINGED, S.Reply, repaired);
    y := ServerGoes(h, y, PINGED, S.Settle, repaired);
  }

  /** The first call's result is written. */
  lemma ResultWritten(h: Handler, x: State, a: Call, v: RpcTypes.Value, repaired: bool) returns (y: State)
    requires ReachedWith(h, x, PINGED, repaired) && |x.client.sent| <= TWO_TO_THE_64
    requires x.server.workers == {0} && x.server.finished == {} && x.server.doneChan == [] && !x.server.closed
    requires x.server.writer == S.Waiting && |x.server.accepted| == 2 && x.server.accepted[0].Work?
    requires h(x.server.accepted[0].head.serviceMethod, x.server.accepted[0].arg, S.Result(v, None))
    ensures ReachedWith(h, y, PINGED, repaired) && ServerOnly(x, y) && y.reqPos == x.reqPos
    ensures y.server.writer == S.WSent(1) && y.server.wg == x.server.wg
    ensures y.server.loop == x.server.loop && y.server.running == x.server.running
  {
    y := ServerGoes(h, x, PINGED, S.Return(0, S.Result(v, None)), repaired);
    y := ServerGoes(h, y, PINGED, S.Deliver(0), repaired);
    assert y.server.doneChan == [0];
    y := WriterWrites(h, y, repaired);
  }

  lemma WriterWrites(h: Handler, x: State, repaired: bool) returns (y: State)
    requires ReachedWith(h, x, PINGED, repaired) && |x.client.sent| <= TWO_TO_THE_64
    requires x.server.doneChan == [0] && !x.server.closed && x.server.writer == S.Waiting
    requires |x.server.accepted| == 2 && x.server.accepted[0].Work?
    ensures ReachedWith(h, y, PINGED, repaired) && ServerOnly(x, y) && y.reqPos == x.reqPos
    ensures y.server.writer == S.WSent(1) && y.server.wg == x.server.wg
    ensures y.server.loop == x.server.loop && y.server.running == x.server.running
  {
    y := ServerGoes(h, x, PINGED, S.WTake, repaired);
    y := ServerGoesTo(h, y, PINGED, S.WEnough, y.server.(writer := S.WSending([0])), repaired);
    y := WriterSends(h, y, repaired);
  }

  /** The ping arrives, and with it in hand the writer's Done does not panic. */
  lemma PingArrives(h: Handler, x: State, repaired: bool) returns (y: State)
    requires ReachedWith(h, x, PINGED, repaired) && |x.client.sent| <= TWO_TO_THE_64
    requires x.reqPos == 4 < |x.reqLog| && x.reqLog[4] == ReqHead(PING_REQUEST_HEADER)
    requires x.server.loop == S.Reading && x.server.running && x.server.wg == 0
    requires x.server.writer == S.WSent(1)
    ensures ReachedWith(h, y, PINGED.(inHand := true), repaired) && y.client == x.client
    ensures y.server.loop == S.PingReplying(PING_REQUEST_HEADER) && y.server.wg == 1
    ensures y.server.writer == S.WSent(1)
  {
    var s1 := x.server.(loop := S.Returned(S.Ping(PING_REQUEST_HEADER)));
    y := ServerGoesTo(h, x, PINGED, S.ReadHead(PING_REQUEST_HEADER, true, ""), s1, repaired);
    var s2 := s1.(wg := 1, loop := S.PingReplying(PING_REQUEST_HEADER));
    y := ServerGoesTo(h, y, PINGED.(inHand := true), S.Check, s2, repaired);
  }

  lemma PingDisturbs(h: Handler, x: State)
    requires x.server.loop.PingReplying? && x.server.wg == 1 && x.server.writer == S.WSent(1)
    ensures Enabled(h, x, ByServer(S.WSettle, 0))
    ensures Disturbs(x, PINGED.(inHand := true), ByServer(S.WSettle, 0))
  {
  }

  lemma DisturbedFrom(h: Handler, x: State, m: Marks, a: Action, repaired: bool)
    requires ReachedWith(h, x, m, repaired) && Enabled(h, x, a) && Disturbs(x, m, a)
    requires |Apply(h, x, a).client.sent| <= TWO_TO_THE_64
    ensures exists acts :: && CanRun(h, Initial(repaired), acts) && FewCalls(h, Initial(repaired), acts)
                           && !Undisturbed(h, Initial(repaired), NO_MARKS, acts)
  {
    var x0 := Initial(repaired);
    var acts :| && CanRun(h, x0, acts) && FewCalls(h, x0, acts)
                && After(h, x0, acts) == x && MarksOf(h, x0, NO_MARKS, acts) == m;
    SW.Longer(h, x0, acts, a);
    MarksLonger(h, x0, NO_MARKS, acts, a);
    assert !Undisturbed(h, x0, NO_MARKS, acts + [a]);
  }

  /** Some session is disturbed by one of its own pings, so that pings are not transparent to it. */
  lemma DisturbanceHappens(h: Handler, a: Call, b: Call, v: RpcTypes.Value, repaired: bool)
    requires Pair(a, b) && h(a.serviceMethod, a.args.value, S.Result(v, None))
    ensures exists acts :: && CanRun(h, Initial(repaired), acts) && FewCalls(h, Initial(repaired), acts)
                           && !Undisturbed(h, Initial(repaired), NO_MARKS, acts)
                           && !Transparent(h, Initial(repaired), acts)
  {
    var x := ClientSendsPing(h, a, b, repaired);
    x := BothAccepted(h, x, a, b, v, repaired);
    x := AnsweredTwice(h, x, repaired);
    x := ResultWritten(h, x, a, v, repaired);
    x := PingArrives(h, x, repaired);
    PingDisturbs(h, x);
    DisturbedFrom(h, x, PINGED.(inHand := true), ByServer(S.WSettle, 0), repaired);
    var acts :| && CanRun(h, Initial(repaired), acts) && FewCalls(h, Initial(repaired), acts)
                && !Undisturbed(h, Initial(repaired), NO_MARKS, acts);
    PingTransparency(h, acts, repaired);
  }
}
