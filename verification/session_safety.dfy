// Every step of a session keeps the facts of SessionFacts.
module SessionSafety {
  import opened RpcTypes
  import opened Counting
  import opened Framing
  import opened Session
  import opened SessionFacts
  import C = ClientMachine
  import CS = ClientSafety
  import S = ServerMachine
  import SS = ServerSafety
  import SA = ServerAnswers

  ghost predicate Inv(h: Handler, x: State) {
    CS.Inv(x.client) && SA.Inv(x.server) && FactsInv(h, FactsOf(x))
  }

  // ----- client steps -----

  ghost predicate ClientMay(h: Handler, x: State, a: C.Action) {
    Inv(h, x) && CS.MayStep(x.client, a) && ClientReadOk(x.respLog, x.respPos, a)
  }

  ghost predicate ClientCan(h: Handler, x: State, a: C.Action) {
    FactsInv(h, FactsOf(x)) && C.Enabled(x.client, a) && ClientReadOk(x.respLog, x.respPos, a)
  }

  /** Steps that neither touch a call nor the wires. */
  predicate ClientIdle(a: C.Action) {
    a.Take? || a.TakeClosed? || a.TakeExit? || a.PingFlush? || a.Reject? || a.BatchClosed? || a.BatchEnd?
    || a.FlushGroup? || a.CleanOne? || a.CleanDone? || a.Close? || a.CloseQueue?
  }

  lemma ClientIdleSameCalls(s: C.State, a: C.Action)
    requires CS.MayStep(s, a) && ClientIdle(a)
    ensures CS.SameCalls(s, C.Apply(s, a)) && CS.Grows(s, C.Apply(s, a))
  {
    match a {
      case Take(call) => CS.TakeKeeps(s, call);
      case TakeClosed => CS.TakeClosedKeeps(s);
      case TakeExit => CS.TakeExitKeeps(s);
      case PingFlush(ok) => CS.PingFlushKeeps(s, ok);
      case Reject => CS.RejectKeeps(s);
      case BatchClosed => CS.BatchClosedKeeps(s);
      case BatchEnd => CS.BatchEndKeeps(s);
      case FlushGroup(ok) => CS.FlushGroupKeeps(s, ok);
      case CleanOne =>
        if s.writer.group[s.writer.next].key in s.pending {
          CS.CleanOneFindsKeeps(s);
        } else {
          CS.CleanOneMissesKeeps(s);
        }
      case CleanDone => CS.CleanDoneKeeps(s);
      case Close => CS.CloseKeeps(s);
      case CloseQueue => CS.CloseQueueKeeps(s);
      case _ =>
    }
  }

  lemma IdleKeepsFacts(h: Handler, x: State, client: C.State)
    requires FactsInv(h, FactsOf(x)) && CS.SameCalls(x.client, client) && CS.Grows(x.client, client)
    ensures FactsInv(h, FactsOf(x.(client := client)))
  {
    assert FactsOf(x.(client := client)) ==
           FactsOf(x).(limit := CS.NextToWrite(client.writer, |client.sent|));
  }

  lemma ClientIdleKeeps(h: Handler, x: State, a: C.Action, cut: nat)
    requires ClientMay(h, x, a) && ClientIdle(a)
    ensures FactsInv(h, FactsOf(ClientDoes(x, a, cut)))
  {
    ClientIdleSameCalls(x.client, a);
    var t := C.Apply(x.client, a);
    assert x.reqLog + [] == x.reqLog;
    IdleKeepsFacts(h, x, t);
  }

  /** One more call is registered, and requests from `limit` on are still unwritten. */
  lemma RegisteringKeeps(h: Handler, x: State, client: C.State, call: Call)
    requires FactsInv(h, FactsOf(x))
    requires client.sent == x.client.sent + [call] && client.outcomes == x.client.outcomes + [[]]
    requires client.reader == x.client.reader
    requires x.client.reader.Completing? ==> x.client.reader.idx < |x.client.sent|
    requires CS.NextToWrite(x.client.writer, |x.client.sent|) <= CS.NextToWrite(client.writer, |client.sent|)
    ensures FactsInv(h, FactsOf(x.(client := client)))
  {
    var limit := CS.NextToWrite(client.writer, |client.sent|);
    RegisterKeepsFacts(h, FactsOf(x), call, limit);
    assert FactsOf(x.(client := client)) ==
      FactsOf(x).(sent := client.sent, outcomes := client.outcomes, limit := limit);
  }

  lemma ReaderHoldsRegistered(s: C.State)
    requires CS.Inv(s)
    ensures s.reader.Completing? ==> s.reader.idx < |s.sent|
  {
  }

  lemma ClientAdmitKeeps(h: Handler, x: State, cut: nat)
    requires ClientMay(h, x, C.Admit)
    ensures FactsInv(h, FactsOf(ClientDoes(x, C.Admit, cut)))
  {
    var s := x.client;
    var t := C.Apply(s, C.Admit);
    assert x.reqLog + [] == x.reqLog;
    ReaderHoldsRegistered(s);
    if s.shutdown || s.closing {
      CS.AdmitRejectsKeeps(s);
      IdleKeepsFacts(h, x, t);
    } else {
      CS.AdmitRegistersKeeps(s);
      RegisteringKeeps(h, x, t, s.writer.call);
    }
  }

  lemma ClientBatchMoreKeeps(h: Handler, x: State, call: Call, cut: nat)
    requires ClientMay(h, x, C.BatchMore(call))
    ensures FactsInv(h, FactsOf(ClientDoes(x, C.BatchMore(call), cut)))
  {
    assert x.reqLog + [] == x.reqLog;
    ReaderHoldsRegistered(x.client);
    CS.BatchMoreKeeps(x.client, call);
    RegisteringKeeps(h, x, C.Apply(x.client, C.BatchMore(call)), call);
  }

  /** The request about to be written is the first unwritten registration's own. */
  lemma NextEntry(s: C.State, ok: bool)
    requires CS.MayStep(s, C.WriteOne(ok))
    ensures var e := s.writer.group[s.writer.next];
            && e == C.Entry(e.idx, e.idx) && e.idx < |s.sent| && e.idx == CS.NextToWrite(s.writer, |s.sent|)
    ensures var t := C.Apply(s, C.WriteOne(ok));
            CS.SameCalls(s, t) && CS.NextToWrite(s.writer, |s.sent|) < CS.NextToWrite(t.writer, |t.sent|)
  {
    CS.WriteOneKeeps(s, ok);
  }

  lemma WriteOneKeepsFacts(h: Handler, x: State, ok: bool, cut: nat, k: nat)
    requires ClientCan(h, x, C.WriteOne(ok)) && k < |x.client.sent|
    requires x.client.writer.group[x.client.writer.next] == C.Entry(k, k)
    requires k == CS.NextToWrite(x.client.writer, |x.client.sent|)
    requires var t := C.Apply(x.client, C.WriteOne(ok));
             CS.SameCalls(x.client, t) && k < CS.NextToWrite(t.writer, |t.sent|)
    ensures FactsInv(h, FactsOf(ClientDoes(x, C.WriteOne(ok), cut)))
  {
    var tokens := ClientWrites(x.client, C.WriteOne(ok), cut);
    WriteRequestKeepsLog(x.client.sent, x.reqLog, tokens, k);
    WritingKeepsOrder(x.reqLog, x.reqPos, x.server.accepted, HandNumber(InHand(x.server.loop)), tokens, k);
    WritingKeepsFacts(h, x, C.Apply(x.client, C.WriteOne(ok)), tokens);
  }

  lemma ClientWriteOneKeeps(h: Handler, x: State, ok: bool, cut: nat)
    requires ClientMay(h, x, C.WriteOne(ok))
    ensures FactsInv(h, FactsOf(ClientDoes(x, C.WriteOne(ok), cut)))
  {
    NextEntry(x.client, ok);
    WriteOneKeepsFacts(h, x, ok, cut, x.client.writer.group[x.client.writer.next].idx);
  }

  lemma WritingKeepsFacts(h: Handler, x: State, client: C.State, tokens: seq<Token>)
    requires FactsInv(h, FactsOf(x)) && CS.SameCalls(x.client, client)
    requires ReqLogOk(x.client.sent, x.reqLog + tokens)
    requires var accepted, hand := x.server.accepted, HandNumber(InHand(x.server.loop));
             && OrderOk(x.reqLog + tokens, x.reqPos, accepted, hand)
             && AllBelow(x.reqLog + tokens, accepted, hand, CS.NextToWrite(client.writer, |client.sent|))
    ensures FactsInv(h, FactsOf(x.(client := client, reqLog := x.reqLog + tokens)))
  {
    assert FactsOf(x.(client := client, reqLog := x.reqLog + tokens)) ==
           FactsOf(x).(reqLog := x.reqLog + tokens, limit := CS.NextToWrite(client.writer, |client.sent|));
  }

  lemma PingWriteKeepsFacts(h: Handler, x: State, client: C.State, ok: bool)
    requires FactsInv(h, FactsOf(x)) && CS.SameCalls(x.client, client)
    requires CS.NextToWrite(x.client.writer, |x.client.sent|) <= CS.NextToWrite(client.writer, |client.sent|)
    ensures FactsInv(h, FactsOf(x.(client := client,
                                   reqLog := x.reqLog + if ok then [ReqHead(PING_REQUEST_HEADER)] else [])))
  {
    WritePingKeepsLog(x.client.sent, x.reqLog);
    assert x.reqLog + [] == x.reqLog;
    WritingKeepsFacts(h, x, client, if ok then [ReqHead(PING_REQUEST_HEADER)] else []);
  }

  lemma ClientPingWriteKeeps(h: Handler, x: State, ok: bool, cut: nat)
    requires ClientMay(h, x, C.PingWrite(ok))
    ensures FactsInv(h, FactsOf(ClientDoes(x, C.PingWrite(ok), cut)))
  {
    CS.PingWriteKeeps(x.client, ok);
    PingWriteKeepsFacts(h, x, C.Apply(x.client, C.PingWrite(ok)), ok);
  }

  lemma ClientFailOneKeeps(h: Handler, x: State, cut: nat)
    requires ClientCan(h, x, C.FailOne)
    ensures FactsInv(h, FactsOf(ClientDoes(x, C.FailOne, cut)))
  {
    var s := x.client;
    assert x.reqLog + [] == x.reqLog;
    var outcomes := C.Completed(s.outcomes, s.writer.idx, C.Failed(C.WriteError));
    CompletingKeepsOutcomes(FactsOf(x), s.writer.idx, C.Failed(C.WriteError));
    OutcomesMoveOn(h, FactsOf(x), outcomes);
    assert FactsOf(ClientDoes(x, C.FailOne, cut)) == FactsOf(x).(outcomes := outcomes);
  }

  lemma OutcomesMoveOn(h: Handler, f: Facts, outcomes: seq<seq<C.Outcome>>)
    requires FactsInv(h, f) && OutcomesOk(f.sent, f.served, outcomes)
    ensures FactsInv(h, f.(outcomes := outcomes))
  {
  }

  lemma CompletingKeepsOutcomes(f: Facts, idx: nat, o: C.Outcome)
    requires OutcomesOk(f.sent, f.served, f.outcomes) && OutcomeOk(f.sent, f.served, idx, o)
    ensures OutcomesOk(f.sent, f.served, C.Completed(f.outcomes, idx, o))
  {
    var more := C.Completed(f.outcomes, idx, o);
    forall k, j | 0 <= k < |more| && 0 <= j < |more[k]|
      ensures OutcomeOk(f.sent, f.served, k, more[k][j])
    {
      if j < |f.outcomes[k]| {
        assert OutcomeOk(f.sent, f.served, k, f.outcomes[k][j]);
      }
    }
  }

  lemma ClientReadPingKeeps(h: Handler, x: State, head: ResponseHeader, cut: nat)
    requires ClientCan(h, x, C.ReadPing(head))
    ensures FactsInv(h, FactsOf(ClientDoes(x, C.ReadPing(head), cut)))
  {
    assert x.reqLog + [] == x.reqLog;
    assert FactsOf(ClientDoes(x, C.ReadPing(head), cut)) == FactsOf(x).(respPos := x.respPos + 1);
  }

  lemma ClientReadHeaderKeeps(h: Handler, x: State, head: ResponseHeader, cut: nat)
    requires ClientCan(h, x, C.ReadHeader(head))
    ensures FactsInv(h, FactsOf(ClientDoes(x, C.ReadHeader(head), cut)))
  {
    assert x.reqLog + [] == x.reqLog;
    assert FactsOf(ClientDoes(x, C.ReadHeader(head), cut)) ==
           FactsOf(x).(respPos := x.respPos + 1, reader := C.GotHeader(head));
  }

  lemma ClientReadFailsKeeps(h: Handler, x: State, eof: bool, cut: nat)
    requires ClientCan(h, x, C.ReadFails(eof))
    ensures FactsInv(h, FactsOf(ClientDoes(x, C.ReadFails(eof), cut)))
  {
    assert x.reqLog + [] == x.reqLog;
    assert FactsOf(ClientDoes(x, C.ReadFails(eof), cut)) == FactsOf(x).(reader := C.ShuttingDown(eof));
  }

  lemma ClientNotifyParentKeeps(h: Handler, x: State, cut: nat)
    requires ClientCan(h, x, C.NotifyParent)
    ensures FactsInv(h, FactsOf(ClientDoes(x, C.NotifyParent, cut)))
  {
    assert x.reqLog + [] == x.reqLog;
    assert FactsOf(ClientDoes(x, C.NotifyParent, cut)) == FactsOf(x).(reader := C.ReaderExited);
  }

  lemma ReaderMovesOn(h: Handler, f: Facts, reader: C.Reader)
    requires FactsInv(h, f) && ReaderOk(f.(reader := reader))
    ensures FactsInv(h, f.(reader := reader))
  {
  }

  lemma ClientLookupKeeps(h: Handler, x: State, cut: nat)
    requires ClientCan(h, x, C.Lookup) && CS.KeysOk(x.client.seqNo, x.client.pending, |x.client.sent|)
    ensures FactsInv(h, FactsOf(ClientDoes(x, C.Lookup, cut)))
  {
    var s := x.client;
    var key := s.reader.head.seqNo;
    assert x.reqLog + [] == x.reqLog;
    var reader := C.GotCall(s.reader.head, if key in s.pending then Some(key) else None);
    ReaderMovesOn(h, FactsOf(x), reader);
    assert FactsOf(ClientDoes(x, C.Lookup, cut)) == FactsOf(x).(reader := reader);
  }

  lemma ClientFinishStrayKeeps(h: Handler, x: State, body: C.BodyRead, cut: nat)
    requires ClientCan(h, x, C.FinishBody(body)) && x.client.reader.who.None?
    ensures FactsInv(h, FactsOf(ClientDoes(x, C.FinishBody(body), cut)))
  {
    assert x.reqLog + [] == x.reqLog;
    assert FactsOf(ClientDoes(x, C.FinishBody(body), cut)) ==
           FactsOf(x).(reader := if body.Broken? then C.ShuttingDown(false) else C.AwaitingHeader,
                       respPos := x.respPos + ClientReads(C.FinishBody(body)));
  }

  lemma FinishedCallOk(h: Handler, x: State, body: C.BodyRead, idx: nat)
    requires ClientCan(h, x, C.FinishBody(body)) && x.client.reader.who == Some(idx)
    ensures OutcomeOk(x.client.sent, ServedBy(x.server), idx, C.BodyOutcome(x.client.reader.head, body))
  {
    var f, head := FactsOf(x), x.client.reader.head;
    assert C.BodyFits(x.client, head, Some(idx), body);
    assert LastRead(f, head) && idx == head.seqNo;
    BodyOutcomeOk(f, head, idx, body);
  }

  lemma ClientFinishBodyKeeps(h: Handler, x: State, body: C.BodyRead, idx: nat, cut: nat)
    requires ClientCan(h, x, C.FinishBody(body)) && x.client.reader.who == Some(idx)
    requires OutcomeOk(x.client.sent, ServedBy(x.server), idx, C.BodyOutcome(x.client.reader.head, body))
    ensures FactsInv(h, FactsOf(ClientDoes(x, C.FinishBody(body), cut)))
  {
    var f, head := FactsOf(x), x.client.reader.head;
    assert x.reqLog + [] == x.reqLog;
    var g := f.(reader := C.Completing(idx, C.BodyOutcome(head, body), body.Broken?),
                respPos := x.respPos + ClientReads(C.FinishBody(body)));
    assert FactsOf(ClientDoes(x, C.FinishBody(body), cut)) == g;
  }

  lemma ClientCompleteReadKeeps(h: Handler, x: State, cut: nat)
    requires ClientCan(h, x, C.CompleteRead)
    ensures FactsInv(h, FactsOf(ClientDoes(x, C.CompleteRead, cut)))
  {
    var s := x.client;
    assert x.reqLog + [] == x.reqLog;
    CompletingKeepsOutcomes(FactsOf(x), s.reader.idx, s.reader.outcome);
    assert FactsOf(ClientDoes(x, C.CompleteRead, cut)) ==
           FactsOf(x).(outcomes := C.Completed(s.outcomes, s.reader.idx, s.reader.outcome),
                       reader := if s.reader.broken then C.ShuttingDown(false) else C.AwaitingHeader);
  }

  lemma ClientShutDownKeeps(h: Handler, x: State, cut: nat)
    requires ClientCan(h, x, C.ShutDown)
    ensures FactsInv(h, FactsOf(ClientDoes(x, C.ShutDown, cut)))
  {
    var s := x.client;
    var t := C.Apply(s, C.ShutDown);
    assert x.reqLog + [] == x.reqLog;
    forall k, j | 0 <= k < |t.outcomes| && 0 <= j < |t.outcomes[k]|
      ensures OutcomeOk(s.sent, ServedBy(x.server), k, t.outcomes[k][j])
    {
      if j < |s.outcomes[k]| {
        assert t.outcomes[k][j] == s.outcomes[k][j];
        assert OutcomeOk(s.sent, ServedBy(x.server), k, s.outcomes[k][j]);
      }
    }
    assert FactsOf(ClientDoes(x, C.ShutDown, cut)) == FactsOf(x).(outcomes := t.outcomes, reader := t.reader);
  }

  // ----- server steps -----

  ghost predicate ServerMay(h: Handler, x: State, a: S.Action, cut: nat) {
    && Inv(h, x) && S.Enabled(x.server, a) && ServerReadOk(x.reqLog, x.reqPos, a, cut)
    && HandlerAllows(h, x.server, a)
  }

  ghost predicate ServerCan(h: Handler, x: State, a: S.Action, cut: nat) {
    && FactsInv(h, FactsOf(x)) && S.Enabled(x.server, a)
    && ServerReadOk(x.reqLog, x.reqPos, a, cut) && HandlerAllows(h, x.server, a)
  }

  /** A step that reads and writes nothing. */
  lemma SilentStep(x: State, a: S.Action, cut: nat)
    requires S.Enabled(x.server, a) && ServerAnswersNow(x.server, a) == [] && ServerReads(a, cut) == 0
    ensures ServerDoes(x, a, cut) == x.(server := S.Apply(x.server, a))
  {
    assert x.respLog + [] == x.respLog;
  }

  /** The server learns nothing, and no request in the loop's hand comes or goes. */
  predicate Quiet(s: S.State, t: S.State) {
    ServedBy(t) == ServedBy(s) && InHand(t.loop) == InHand(s.loop)
  }

  lemma QuietKeeps(h: Handler, x: State, t: S.State)
    requires FactsInv(h, FactsOf(x)) && Quiet(x.server, t)
    ensures FactsInv(h, FactsOf(x.(server := t)))
  {
    assert FactsOf(x.(server := t)) == FactsOf(x);
  }

  predicate LoopIdle(a: S.Action) {
    a.WaitOver? || a.WaitPanics? || a.Settle? || a.LoopMore? || a.LoopEnough? || a.CloseDone?
    || (a.Dispatch? && a.verdict.Runs?)
  }

  lemma LoopIdleIsQuiet(s: S.State, a: S.Action)
    requires S.Enabled(s, a) && LoopIdle(a)
    ensures Quiet(s, S.Apply(s, a))
  {
  }

  lemma LoopIdleKeeps(h: Handler, x: State, a: S.Action, cut: nat)
    requires FactsInv(h, FactsOf(x)) && S.Enabled(x.server, a) && LoopIdle(a)
    ensures FactsInv(h, FactsOf(ServerDoes(x, a, cut)))
  {
    SilentStep(x, a, cut);
    LoopIdleIsQuiet(x.server, a);
    QuietKeeps(h, x, S.Apply(x.server, a));
  }

  lemma OthersIdleKeeps(h: Handler, x: State, a: S.Action, cut: nat)
    requires FactsInv(h, FactsOf(x)) && S.Enabled(x.server, a) && SA.WorkerStep(a) && !a.Return?
    ensures FactsInv(h, FactsOf(ServerDoes(x, a, cut)))
  {
    SilentStep(x, a, cut);
    QuietKeeps(h, x, S.Apply(x.server, a));
  }

  predicate WriterIdle(a: S.Action) {
    a.WTake? || a.WClosed? || a.WMore? || a.WDrop? || a.WEnough? || a.WSettle?
  }

  lemma WriterIdleIsQuiet(s: S.State, a: S.Action)
    requires S.Enabled(s, a) && WriterIdle(a)
    ensures Quiet(s, S.Apply(s, a))
  {
  }

  lemma WriterIdleKeeps(h: Handler, x: State, a: S.Action, cut: nat)
    requires FactsInv(h, FactsOf(x)) && S.Enabled(x.server, a) && WriterIdle(a)
    ensures FactsInv(h, FactsOf(ServerDoes(x, a, cut)))
  {
    SilentStep(x, a, cut);
    WriterIdleIsQuiet(x.server, a);
    QuietKeeps(h, x, S.Apply(x.server, a));
  }

  /** The loop has another request in hand, or the same one further on. */
  lemma LoopMovesOn(h: Handler, f: Facts, loop: S.Loop, pos: nat)
    requires FactsInv(h, f) && f.reqPos <= pos <= |f.reqLog| && HandOk(f.(loop := loop, reqPos := pos))
    requires HandNumber(loop) == HandNumber(f.loop) || HandNumber(loop) == None
    ensures FactsInv(h, f.(loop := loop, reqPos := pos))
  {
  }

  /** The loop takes the next header off the wire. */
  lemma LoopTakesHead(h: Handler, f: Facts, head: RequestHeader, loop: S.Loop)
    requires FactsInv(h, f) && HandNumber(f.loop) == None && Next(f.reqLog, f.reqPos, ReqHead(head))
    requires HandOk(f.(loop := loop, reqPos := f.reqPos + 1))
    requires HandNumber(loop) == if head.IsPing() then None else Some(head.seqNo)
    ensures FactsInv(h, f.(loop := loop, reqPos := f.reqPos + 1))
  {
  }

  lemma ServerReadHeadKeeps(h: Handler, x: State, head: RequestHeader, known: bool, text: string, cut: nat)
    requires ServerCan(h, x, S.ReadHead(head, known, text), cut)
    ensures FactsInv(h, FactsOf(ServerDoes(x, S.ReadHead(head, known, text), cut)))
  {
    var a := S.ReadHead(head, known, text);
    var loop := InHand(S.Apply(x.server, a).loop);
    assert x.respLog + [] == x.respLog;
    assert ReqTokenOk(x.client.sent, x.reqLog, x.reqPos);
    LoopTakesHead(h, FactsOf(x), head, loop);
    assert FactsOf(ServerDoes(x, a, cut)) == FactsOf(x).(reqPos := x.reqPos + 1, loop := loop);
  }

  lemma ServerReadHeadFailsKeeps(h: Handler, x: State, cut: nat)
    requires ServerCan(h, x, S.ReadHeadFails, cut)
    ensures FactsInv(h, FactsOf(ServerDoes(x, S.ReadHeadFails, cut)))
  {
    SilentStep(x, S.ReadHeadFails, cut);
    assert FactsOf(ServerDoes(x, S.ReadHeadFails, cut)) == FactsOf(x).(loop := S.Returned(S.Fatal));
  }

  lemma ServerReadBodyKeeps(h: Handler, x: State, arg: RpcTypes.Value, blank: RpcTypes.Value, cut: nat)
    requires ServerCan(h, x, S.ReadBody(arg, blank), cut)
    ensures FactsInv(h, FactsOf(ServerDoes(x, S.ReadBody(arg, blank), cut)))
  {
    assert x.respLog + [] == x.respLog;
    assert ReqTokenOk(x.client.sent, x.reqLog, x.reqPos);
    var loop := S.Returned(S.Good(x.server.loop.head, arg, blank));
    LoopMovesOn(h, FactsOf(x), loop, x.reqPos + 1);
    assert FactsOf(ServerDoes(x, S.ReadBody(arg, blank), cut)) == FactsOf(x).(loop := loop, reqPos := x.reqPos + 1);
  }

  lemma ServerBodyFailsKeeps(h: Handler, x: State, text: string, cut: nat)
    requires ServerCan(h, x, S.BodyFails(text), cut)
    ensures FactsInv(h, FactsOf(ServerDoes(x, S.BodyFails(text), cut)))
  {
    assert x.respLog + [] == x.respLog;
    var loop := S.Returned(S.Bad(x.server.loop.head, text));
    LoopMovesOn(h, FactsOf(x), loop, x.reqPos + cut);
    assert FactsOf(ServerDoes(x, S.BodyFails(text), cut)) == FactsOf(x).(loop := loop, reqPos := x.reqPos + cut);
  }

  lemma ServerDiscardKeeps(h: Handler, x: State, cut: nat)
    requires ServerCan(h, x, S.Discard, cut)
    ensures FactsInv(h, FactsOf(ServerDoes(x, S.Discard, cut)))
  {
    assert x.respLog + [] == x.respLog;
    var loop := S.Returned(S.Bad(x.server.loop.head, x.server.loop.text));
    LoopMovesOn(h, FactsOf(x), loop, x.reqPos + cut);
    assert FactsOf(ServerDoes(x, S.Discard, cut)) == FactsOf(x).(loop := loop, reqPos := x.reqPos + cut);
  }

  /** Requests are accepted with what came off the wire. */
  lemma AcceptingKeepsFacts(h: Handler, f: Facts, more: S.Accepted)
    requires FactsInv(h, f) && AcceptedOk(f.sent, more) && HandNumber(f.loop) == Some(more.head.seqNo)
    ensures FactsInv(h, f.(served := f.served.(accepted := f.served.accepted + [more]), loop := S.Reading))
  {
    ServedMore(f, f.served.(accepted := f.served.accepted + [more]));
  }

  lemma ServerAcceptsKeeps(h: Handler, x: State, cut: nat)
    requires ServerCan(h, x, S.Check, cut) && x.server.running
    requires x.server.loop.res.Bad? || x.server.loop.res.Good?
    ensures FactsInv(h, FactsOf(ServerDoes(x, S.Check, cut)))
  {
    SilentStep(x, S.Check, cut);
    var s := x.server;
    var t := S.Apply(s, S.Check);
    var more := t.accepted[|s.accepted|];
    AcceptingKeepsFacts(h, FactsOf(x), more);
    assert FactsOf(x.(server := t)) ==
           FactsOf(x).(served := ServedBy(s).(accepted := s.accepted + [more]), loop := S.Reading);
  }

  lemma ServerCheckKeeps(h: Handler, x: State, cut: nat)
    requires ServerCan(h, x, S.Check, cut)
    ensures FactsInv(h, FactsOf(ServerDoes(x, S.Check, cut)))
  {
    var s := x.server;
    if s.running && (s.loop.res.Bad? || s.loop.res.Good?) {
      ServerAcceptsKeeps(h, x, cut);
    } else {
      SilentStep(x, S.Check, cut);
      assert FactsOf(x.(server := S.Apply(s, S.Check))) == FactsOf(x).(loop := S.Reading);
    }
  }

  lemma ServedMoves(h: Handler, f: Facts, e: Served)
    requires FactsInv(h, f) && Extends(f.served, e) && e.accepted == f.served.accepted && ServedOk(h, f.sent, e)
    ensures FactsInv(h, f.(served := e))
  {
    ServedMore(f, e);
  }

  lemma ServerReturnKeeps(h: Handler, x: State, who: nat, result: S.Result, cut: nat)
    requires ServerCan(h, x, S.Return(who, result), cut)
    requires SS.Reports(x.server.accepted, who) && who !in x.server.results
    ensures FactsInv(h, FactsOf(ServerDoes(x, S.Return(who, result), cut)))
  {
    SilentStep(x, S.Return(who, result), cut);
    var f := FactsOf(x);
    var e := f.served.(results := f.served.results[who := result]);
    ServedMoves(h, f, e);
    assert FactsOf(ServerDoes(x, S.Return(who, result), cut)) == f.(served := e);
  }

  lemma ServerDispatchFailsKeeps(h: Handler, x: State, text: string, cut: nat)
    requires ServerCan(h, x, S.Dispatch(S.Fails(text)), cut)
    requires x.server.loop.who !in x.server.log.rejections
    ensures FactsInv(h, FactsOf(ServerDoes(x, S.Dispatch(S.Fails(text)), cut)))
  {
    SilentStep(x, S.Dispatch(S.Fails(text)), cut);
    var f, who := FactsOf(x), x.server.loop.who;
    var e := f.served.(rejections := f.served.rejections[who := text]);
    ServedMoves(h, f, e);
    assert FactsOf(ServerDoes(x, S.Dispatch(S.Fails(text)), cut)) == f.(served := e);
  }

  // ----- answers -----

  /** An answer that is right for its request is right for the call it answers. */
  lemma RightAnswerIsCovered(h: Handler, sent: seq<Call>, d: Served, k: nat, a: Answer)
    requires ServedOk(h, sent, d) && SA.AnswerOk(d.accepted, d.results, d.rejections, k, a)
    requires !d.accepted[k].head.IsPing()
    ensures AnswerCovered(sent, d, a)
  {
    assert AcceptedOk(sent, d.accepted[k]);
    var head := a.Head();
    assert head.seqNo == d.accepted[k].head.seqNo;
    if ClaimsSuccess(sent, head) {
      assert a.errmsg == "";
      if a.Grouped? {
        assert d.results[k].reply == a.reply && d.results[k].Text() == "";
        assert d.Returned(head.seqNo, a.reply);
      } else {
        assert d.RefusedSilently(head.seqNo);
      }
    }
  }

  /** The wire after a write that may get through in part. */
  lemma WritingAnswersKeepsFacts(h: Handler, f: Facts, answers: seq<Answer>, cut: nat)
    requires FactsInv(h, f)
    requires forall j :: 0 <= j < |answers| ==> AnswerCovered(f.sent, f.served, answers[j])
    ensures var tokens := AnswerStream(answers, false);
            FactsInv(h, f.(respLog := if f.broken then f.respLog else f.respLog + Prefix(tokens, cut),
                           broken := f.broken || cut < |tokens|))
  {
    if !f.broken {
      var tokens := AnswerStream(answers, false);
      AppendAnswers(f.sent, f.served, f.respLog, answers);
      CutLog(f.sent, f.served, f.respLog, tokens, cut);
      if cut >= |tokens| {
        assert Prefix(tokens, cut) == tokens;
      }
    }
  }

  lemma AnsweringKeepsTheRest(s: S.State, a: S.Action)
    requires S.Enabled(s, a) && (a.PingReply? || a.Reply? || a.LoopSend? || a.WSend?)
    ensures var t := S.Apply(s, a);
            ServedBy(t) == ServedBy(s) && InHand(t.loop) == InHand(s.loop)
  {
  }

  lemma ServerWritesKeeps(h: Handler, x: State, a: S.Action, cut: nat)
    requires ServerCan(h, x, a, cut) && (a.PingReply? || a.Reply? || a.LoopSend? || a.WSend?)
    requires forall j :: 0 <= j < |ServerAnswersNow(x.server, a)| ==>
               AnswerCovered(x.client.sent, ServedBy(x.server), ServerAnswersNow(x.server, a)[j])
    ensures FactsInv(h, FactsOf(ServerDoes(x, a, cut)))
  {
    var f := FactsOf(x);
    WritingAnswersKeepsFacts(h, f, ServerAnswersNow(x.server, a), cut);
    var tokens := ServerWrites(x.server, a);
    AnsweringKeepsTheRest(x.server, a);
    assert FactsOf(ServerDoes(x, a, cut)) ==
           f.(respLog := if x.broken then x.respLog else x.respLog + Prefix(tokens, cut),
              broken := x.broken || cut < |tokens|);
  }

  // ----- all steps -----

  lemma ClientWriterFacts(h: Handler, x: State, a: C.Action, cut: nat)
    requires ClientMay(h, x, a) && CS.WriterStep(a)
    ensures FactsInv(h, FactsOf(ClientDoes(x, a, cut)))
  {
    if ClientIdle(a) {
      ClientIdleKeeps(h, x, a, cut);
    } else {
      match a {
        case Admit => ClientAdmitKeeps(h, x, cut);
        case BatchMore(call) => ClientBatchMoreKeeps(h, x, call, cut);
        case WriteOne(ok) => ClientWriteOneKeeps(h, x, ok, cut);
        case PingWrite(ok) => ClientPingWriteKeeps(h, x, ok, cut);
        case FailOne => ClientFailOneKeeps(h, x, cut);
        case _ =>
      }
    }
  }

  lemma ClientReaderFacts(h: Handler, x: State, a: C.Action, cut: nat)
    requires ClientMay(h, x, a) && !CS.WriterStep(a)
    ensures FactsInv(h, FactsOf(ClientDoes(x, a, cut)))
  {
    if ClientIdle(a) {
      ClientIdleKeeps(h, x, a, cut);
    } else {
      match a {
        case ReadPing(head) => ClientReadPingKeeps(h, x, head, cut);
        case ReadHeader(head) => ClientReadHeaderKeeps(h, x, head, cut);
        case ReadFails(eof) => ClientReadFailsKeeps(h, x, eof, cut);
        case Lookup => ClientLookupKeeps(h, x, cut);
        case FinishBody(body) =>
          if x.client.reader.who.Some? {
            FinishedCallOk(h, x, body, x.client.reader.who.value);
            ClientFinishBodyKeeps(h, x, body, x.client.reader.who.value, cut);
          } else {
            ClientFinishStrayKeeps(h, x, body, cut);
          }
        case CompleteRead => ClientCompleteReadKeeps(h, x, cut);
        case ShutDown => ClientShutDownKeeps(h, x, cut);
        case NotifyParent => ClientNotifyParentKeeps(h, x, cut);
        case _ =>
      }
    }
  }

  lemma ServerReadFacts(h: Handler, x: State, a: S.Action, cut: nat)
    requires ServerMay(h, x, a, cut) && SA.ReadStep(a)
    ensures FactsInv(h, FactsOf(ServerDoes(x, a, cut)))
  {
    match a {
      case ReadHead(head, known, text) => ServerReadHeadKeeps(h, x, head, known, text, cut);
      case ReadHeadFails => ServerReadHeadFailsKeeps(h, x, cut);
      case ReadBody(arg, blank) => ServerReadBodyKeeps(h, x, arg, blank, cut);
      case BodyFails(text) => ServerBodyFailsKeeps(h, x, text, cut);
      case Discard => ServerDiscardKeeps(h, x, cut);
      case Check => ServerCheckKeeps(h, x, cut);
      case _ =>
    }
  }

  lemma LoopAnswersFacts(h: Handler, x: State, a: S.Action, cut: nat)
    requires ServerMay(h, x, a, cut) && (a.PingReply? || a.Reply?)
    ensures FactsInv(h, FactsOf(ServerDoes(x, a, cut)))
  {
    if a.Reply? {
      RightAnswerIsCovered(h, x.client.sent, ServedBy(x.server), x.server.loop.who,
                           ServerAnswersNow(x.server, a)[0]);
    }
    ServerWritesKeeps(h, x, a, cut);
  }

  lemma GroupIsCovered(h: Handler, x: State, g: seq<nat>)
    requires Inv(h, x) && S.Known(x.server, g)
    requires forall j :: 0 <= j < |g| ==> SS.IsDummy(x.server.accepted, g[j]) || g[j] in x.server.results
    ensures forall j :: 0 <= j < |g| ==>
              AnswerCovered(x.client.sent, ServedBy(x.server), S.GroupAnswers(x.server, g)[j])
  {
    SA.GroupAnswersOk(x.server, g);
    forall j | 0 <= j < |g|
      ensures AnswerCovered(x.client.sent, ServedBy(x.server), S.GroupAnswers(x.server, g)[j])
    {
      RightAnswerIsCovered(h, x.client.sent, ServedBy(x.server), g[j], S.GroupAnswers(x.server, g)[j]);
    }
  }

  lemma LoopGroupIsCovered(h: Handler, x: State)
    requires Inv(h, x) && S.Enabled(x.server, S.LoopSend)
    ensures forall j :: 0 <= j < |ServerAnswersNow(x.server, S.LoopSend)| ==>
              AnswerCovered(x.client.sent, ServedBy(x.server), ServerAnswersNow(x.server, S.LoopSend)[j])
  {
    var g := x.server.loop.group;
    forall j | 0 <= j < |g|
      ensures SS.IsDummy(x.server.accepted, g[j]) || g[j] in x.server.results
    {
      assert j > 0 ==> g[1..][j - 1] == g[j];
    }
    GroupIsCovered(h, x, g);
  }

  lemma WriterGroupIsCovered(h: Handler, x: State)
    requires Inv(h, x) && S.Enabled(x.server, S.WSend)
    ensures forall j :: 0 <= j < |ServerAnswersNow(x.server, S.WSend)| ==>
              AnswerCovered(x.client.sent, ServedBy(x.server), ServerAnswersNow(x.server, S.WSend)[j])
  {
    GroupIsCovered(h, x, x.server.writer.group);
  }

  lemma NotRejectedYet(s: S.State)
    requires SA.Inv(s) && s.loop.Dispatching?
    ensures s.loop.who !in s.log.rejections
  {
    SS.Alone(s, s.loop.who);
    CountOne(s.loop.who, s.loop.who);
  }

  lemma ServerLoopFacts(h: Handler, x: State, a: S.Action, cut: nat)
    requires ServerMay(h, x, a, cut) && SA.LoopStep(a)
    ensures FactsInv(h, FactsOf(ServerDoes(x, a, cut)))
  {
    if a.PingReply? || a.Reply? {
      LoopAnswersFacts(h, x, a, cut);
    } else if a.LoopSend? {
      LoopGroupIsCovered(h, x);
      ServerWritesKeeps(h, x, a, cut);
    } else if a.Dispatch? && a.verdict.Fails? {
      NotRejectedYet(x.server);
      ServerDispatchFailsKeeps(h, x, a.verdict.text, cut);
    } else {
      LoopIdleKeeps(h, x, a, cut);
    }
  }

  lemma ServerOtherFacts(h: Handler, x: State, a: S.Action, cut: nat)
    requires ServerMay(h, x, a, cut) && !SA.ReadStep(a) && !SA.LoopStep(a)
    ensures FactsInv(h, FactsOf(ServerDoes(x, a, cut)))
  {
    if a.Return? {
      ServerReturnKeeps(h, x, a.who, a.result, cut);
    } else if a.WSend? {
      WriterGroupIsCovered(h, x);
      ServerWritesKeeps(h, x, a, cut);
    } else if SA.WorkerStep(a) {
      OthersIdleKeeps(h, x, a, cut);
    } else {
      WriterIdleKeeps(h, x, a, cut);
    }
  }

  lemma ClientStepKeeps(h: Handler, x: State, a: C.Action, cut: nat)
    requires ClientMay(h, x, a)
    ensures Inv(h, ClientDoes(x, a, cut))
  {
    CS.StepKeepsInv(x.client, a);
    if CS.WriterStep(a) {
      ClientWriterFacts(h, x, a, cut);
    } else {
      ClientReaderFacts(h, x, a, cut);
    }
  }

  lemma ServerStepKeeps(h: Handler, x: State, a: S.Action, cut: nat)
    requires ServerMay(h, x, a, cut)
    ensures Inv(h, ServerDoes(x, a, cut))
  {
    SA.StepKeepsInv(x.server, a);
    if SA.ReadStep(a) {
      ServerReadFacts(h, x, a, cut);
    } else if SA.LoopStep(a) {
      ServerLoopFacts(h, x, a, cut);
    } else {
      ServerOtherFacts(h, x, a, cut);
    }
  }

  lemma StepKeepsInv(h: Handler, x: State, a: Action)
    requires Inv(h, x) && Enabled(h, x, a)
    requires |Apply(h, x, a).client.sent| <= TWO_TO_THE_64
    ensures Inv(h, Apply(h, x, a))
  {
    match a
    case ByClient(c, cut) => ClientStepKeeps(h, x, c, cut);
    case ByServer(s, cut) => ServerStepKeeps(h, x, s, cut);
  }

  lemma {:induction false} RunKeepsInv(h: Handler, x: State, acts: seq<Action>)
    requires Inv(h, x) && CanRun(h, x, acts) && FewCalls(h, x, acts)
    ensures Inv(h, After(h, x, acts))
    decreases |acts|
  {
    if acts == [] {
    } else {
      StepKeepsInv(h, x, acts[0]);
      RunKeepsInv(h, Apply(h, x, acts[0]), acts[1..]);
    }
  }

  lemma InitialFacts(h: Handler, repaired: bool)
    ensures FactsInv(h, FactsOf(Initial(repaired)))
  {
  }

  lemma InitialInv(h: Handler, repaired: bool)
    ensures Inv(h, Initial(repaired))
  {
    CS.InitialInv(repaired);
    SA.InitialInv();
    InitialFacts(h, repaired);
  }

  lemma ReachedInv(h: Handler, x: State, repaired: bool)
    requires Reached(h, x, repaired)
    ensures Inv(h, x)
  {
    var acts :| && CanRun(h, Initial(repaired), acts) && FewCalls(h, Initial(repaired), acts)
                && After(h, Initial(repaired), acts) == x;
    InitialInv(h, repaired);
    RunKeepsInv(h, Initial(repaired), acts);
  }
}
