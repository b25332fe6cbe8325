// Which calls of a group are touched after they have been completed. A completed call belongs to
// whoever waited for it, or has been blanked and is back in the pool.
module SessionObjects {
  import opened RpcTypes
  import opened Framing
  import opened Session
  import opened SessionFacts
  import opened SessionSafety
  import C = ClientMachine
  import CS = ClientSafety
  import S = ServerMachine
  import SStray = SessionStray

  /** The first registration whose request may still be written. */
  function Next(x: State): int { CS.NextToWrite(x.client.writer, |x.client.sent|) }

  /** A response to a call, and a call in the reader's hand, were written before. */
  ghost predicate AnswersWritten(log: seq<Token>, reader: C.Reader, n: int) {
    && (forall p :: 0 <= p < |log| && log[p].RespHead? && !log[p].resp.IsPing() ==> log[p].resp.seqNo < n)
    && match reader
       case GotHeader(head) => head.seqNo < n
       case GotCall(_, who) => who.Some? ==> who.value < n
       case Completing(idx, _, _) => idx < n
       case _ => true
  }

  /** Before shutdown no unwritten call has been completed. */
  ghost predicate NoneCompleted(s: C.State, n: int) {
    !s.shutdown ==> forall i :: n <= i < |s.outcomes| && 0 <= i ==> s.outcomes[i] == []
  }

  ghost predicate Unwritten(x: State) {
    AnswersWritten(x.respLog, x.client.reader, Next(x)) && NoneCompleted(x.client, Next(x))
  }

  // ----- steps of the client -----

  lemma TakingKeepsReader(s: C.State, c: C.Action)
    requires C.Enabled(s, c) && CS.WriterStep(c)
    requires c.Take? || c.TakeClosed? || c.TakeExit? || c.PingWrite? || c.PingFlush? || c.Reject?
             || c.BatchClosed? || c.BatchEnd?
    ensures C.Apply(s, c).reader == s.reader && C.Apply(s, c).shutdown == s.shutdown
  {
  }

  lemma SendingKeepsReader(s: C.State, ok: bool, call: Call)
    ensures C.Enabled(s, C.WriteOne(ok)) ==>
              C.Apply(s, C.WriteOne(ok)).reader == s.reader && C.Apply(s, C.WriteOne(ok)).shutdown == s.shutdown
    ensures C.Enabled(s, C.FlushGroup(ok)) ==>
              C.Apply(s, C.FlushGroup(ok)).reader == s.reader && C.Apply(s, C.FlushGroup(ok)).shutdown == s.shutdown
    ensures C.Enabled(s, C.BatchMore(call)) ==>
              C.Apply(s, C.BatchMore(call)).reader == s.reader
              && C.Apply(s, C.BatchMore(call)).shutdown == s.shutdown
  {
  }

  lemma RestKeepsReader(s: C.State)
    ensures C.Enabled(s, C.Admit) ==>
              C.Apply(s, C.Admit).reader == s.reader && C.Apply(s, C.Admit).shutdown == s.shutdown
    ensures C.Enabled(s, C.CleanOne) ==>
              C.Apply(s, C.CleanOne).reader == s.reader && C.Apply(s, C.CleanOne).shutdown == s.shutdown
    ensures C.Enabled(s, C.FailOne) ==>
              C.Apply(s, C.FailOne).reader == s.reader && C.Apply(s, C.FailOne).shutdown == s.shutdown
    ensures C.Enabled(s, C.CleanDone) ==>
              C.Apply(s, C.CleanDone).reader == s.reader && C.Apply(s, C.CleanDone).shutdown == s.shutdown
  {
  }

  lemma WriterKeepsReader(s: C.State, c: C.Action)
    requires C.Enabled(s, c) && CS.WriterStep(c)
    ensures C.Apply(s, c).reader == s.reader && C.Apply(s, c).shutdown == s.shutdown
  {
    match c
    case WriteOne(ok) => SendingKeepsReader(s, ok, Call(0, "", None, false));
    case FlushGroup(ok) => SendingKeepsReader(s, ok, Call(0, "", None, false));
    case BatchMore(call) => SendingKeepsReader(s, true, call);
    case Admit => RestKeepsReader(s);
    case CleanOne => RestKeepsReader(s);
    case FailOne => RestKeepsReader(s);
    case CleanDone => RestKeepsReader(s);
    case _ => TakingKeepsReader(s, c);
  }

  lemma FailOneKeeps(s: C.State)
    requires CS.Inv(s) && C.Enabled(s, C.FailOne)
    ensures NoneCompleted(C.Apply(s, C.FailOne), |s.sent|)
  {
  }

  lemma WriterStepKeeps(s: C.State, c: C.Action)
    requires CS.MayStep(s, c) && CS.WriterStep(c)
    requires NoneCompleted(s, CS.NextToWrite(s.writer, |s.sent|))
    ensures var t := C.Apply(s, c);
            NoneCompleted(t, CS.NextToWrite(t.writer, |t.sent|))
  {
    CS.StepKeepsInv(s, c);
    WriterKeepsReader(s, c);
    if c.FailOne? {
      FailOneKeeps(s);
    } else {
      SStray.WriterCompletesNothing(s, c);
    }
  }

  lemma ReaderStepKeeps(s: C.State, c: C.Action, log: seq<Token>, pos: nat, n: int)
    requires C.Enabled(s, c) && !CS.WriterStep(c) && ClientReadOk(log, pos, c)
    requires CS.KeysOk(s.seqNo, s.pending, |s.sent|)
    requires AnswersWritten(log, s.reader, n) && NoneCompleted(s, n)
    ensures AnswersWritten(log, C.Apply(s, c).reader, n) && NoneCompleted(C.Apply(s, c), n)
  {
    if !c.ShutDown? && !s.reader.Completing? {
      SStray.ReaderCompletesNothing(s, c);
    }
  }

  lemma ReaderKeepsNext(s: C.State, c: C.Action)
    requires C.Enabled(s, c) && !CS.WriterStep(c)
    ensures C.Apply(s, c).writer == s.writer && C.Apply(s, c).sent == s.sent
  {
    if c.ShutDown? {
      ShutDownKeepsNext(s);
    }
  }

  lemma ShutDownKeepsNext(s: C.State)
    requires C.Enabled(s, C.ShutDown)
    ensures C.Apply(s, C.ShutDown).writer == s.writer && C.Apply(s, C.ShutDown).sent == s.sent
  {
  }

  lemma ClientKeepsUnwritten(h: Handler, x: State, c: C.Action, cut: nat)
    requires ClientMay(h, x, c) && Unwritten(x)
    ensures Unwritten(ClientDoes(x, c, cut))
  {
    if CS.WriterStep(c) {
      CS.StepKeepsInv(x.client, c);
      WriterKeepsReader(x.client, c);
      WriterStepKeeps(x.client, c);
    } else {
      ReaderKeepsNext(x.client, c);
      ReaderStepKeeps(x.client, c, x.respLog, x.respPos, Next(x));
    }
  }

  // ----- steps of the server -----

  /** Every answer is for an accepted request, which was written. */
  lemma AnswersAreWritten(h: Handler, x: State, a: S.Action, j: nat)
    requires FactsInv(h, FactsOf(x)) && S.Enabled(x.server, a) && j < |ServerAnswersNow(x.server, a)|
    ensures var head := ServerAnswersNow(x.server, a)[j].Head();
            a.PingReply? || head.seqNo < Next(x)
  {
    if a.LoopSend? {
      assert x.server.loop.group[j] < |x.server.accepted|;
    } else if a.WSend? {
      assert x.server.writer.group[j] < |x.server.accepted|;
    }
  }

  lemma {:induction false} StreamBelow(answers: seq<Answer>, n: int, p: nat)
    requires forall j :: 0 <= j < |answers| ==> answers[j].Head().seqNo < n || answers[j].Head().IsPing()
    requires p < |AnswerStream(answers, false)|
    ensures var t := AnswerStream(answers, false)[p];
            t.RespHead? && !t.resp.IsPing() ==> t.resp.seqNo < n
  {
    var first := answers[0].Tokens(false);
    if p >= |first| {
      StreamBelow(answers[1..], n, p - |first|);
    }
  }

  lemma AppendedBelow(answers: seq<Answer>, log: seq<Token>, cut: nat, n: int)
    requires forall j :: 0 <= j < |answers| ==> answers[j].Head().seqNo < n || answers[j].Head().IsPing()
    ensures var more := log + Prefix(AnswerStream(answers, false), cut);
            forall p :: |log| <= p < |more| && more[p].RespHead? && !more[p].resp.IsPing() ==>
              more[p].resp.seqNo < n
  {
    var more := log + Prefix(AnswerStream(answers, false), cut);
    forall p | |log| <= p < |more| && more[p].RespHead? && !more[p].resp.IsPing()
      ensures more[p].resp.seqNo < n
    {
      StreamBelow(answers, n, p - |log|);
    }
  }

  lemma AnswersBelow(h: Handler, x: State, a: S.Action)
    requires Inv(h, x) && S.Enabled(x.server, a)
    ensures forall j :: 0 <= j < |ServerAnswersNow(x.server, a)| ==>
              var head := ServerAnswersNow(x.server, a)[j].Head(); head.seqNo < Next(x) || head.IsPing()
  {
    PingRepliesArePings(h, x, a);
    forall j | 0 <= j < |ServerAnswersNow(x.server, a)|
      ensures var head := ServerAnswersNow(x.server, a)[j].Head(); head.seqNo < Next(x) || head.IsPing()
    {
      AnswersAreWritten(h, x, a, j);
    }
  }

  lemma ServerKeepsUnwritten(h: Handler, x: State, a: S.Action, cut: nat)
    requires ServerMay(h, x, a, cut) && Unwritten(x)
    ensures Unwritten(ServerDoes(x, a, cut))
  {
    var y := ServerDoes(x, a, cut);
    var answers := ServerAnswersNow(x.server, a);
    AnswersBelow(h, x, a);
    AppendedBelow(answers, x.respLog, cut, Next(x));
    assert y.respLog == x.respLog || y.respLog == x.respLog + Prefix(AnswerStream(answers, false), cut);
  }

  lemma PingRepliesArePings(h: Handler, x: State, a: S.Action)
    requires Inv(h, x) && S.Enabled(x.server, a)
    ensures a.PingReply? ==> x.server.loop.head.IsPing()
  {
  }

  // ----- runs -----

  lemma {:induction false} RunKeepsUnwritten(h: Handler, x: State, acts: seq<Action>)
    requires Inv(h, x) && Unwritten(x) && CanRun(h, x, acts) && FewCalls(h, x, acts)
    ensures Inv(h, After(h, x, acts)) && Unwritten(After(h, x, acts))
    decreases |acts|
  {
    if acts != [] {
      match acts[0] {
        case ByClient(c, cut) => ClientKeepsUnwritten(h, x, c, cut);
        case ByServer(s, cut) => ServerKeepsUnwritten(h, x, s, cut);
      }
      StepKeepsInv(h, x, acts[0]);
      RunKeepsUnwritten(h, Apply(h, x, acts[0]), acts[1..]);
    }
  }

  lemma InitialUnwritten(h: Handler, repaired: bool)
    ensures Inv(h, Initial(repaired)) && Unwritten(Initial(repaired))
  {
    InitialInv(h, repaired);
    assert Initial(repaired).respLog == [] && Initial(repaired).client.outcomes == [];
  }

  lemma ReachedUnwritten(h: Handler, x: State, repaired: bool)
    requires Reached(h, x, repaired)
    ensures Unwritten(x) && CS.Inv(x.client)
  {
    var x0 := Initial(repaired);
    var acts :| CanRun(h, x0, acts) && FewCalls(h, x0, acts) && After(h, x0, acts) == x;
    InitialUnwritten(h, repaired);
    RunKeepsUnwritten(h, x0, acts);
  }

  lemma BalancedAfterShutdown(s: C.State, i: nat)
    requires CS.Inv(s) && s.shutdown && s.writer.Writing? && i < |s.sent|
    ensures i < |s.outcomes| && s.outcomes[i] != []
  {
    assert CS.Balanced(s.outcomes, s.pending, CS.HandsOf(s), CS.SnapshotOf(s));
  }

  /** Touched after completion: of a group that is being written, the call whose arguments are read next, and
      every one after it, has already been completed if and only if onShutDown has run. A call that
      nobody waits for has then been blanked and is in the pool. */
  lemma TouchedAfterCompletion(h: Handler, x: State, repaired: bool, j: nat)
    requires Reached(h, x, repaired) && x.client.writer.Writing?
    requires x.client.writer.next <= j < |x.client.writer.group|
    ensures var i := x.client.writer.group[j].idx;
            i < |x.client.outcomes| && (x.client.outcomes[i] != [] <==> x.client.shutdown)
  {
    ReachedUnwritten(h, x, repaired);
    var s := x.client;
    assert s.writer.group[j] == C.Entry(Next(x) + j - s.writer.next, Next(x) + j - s.writer.next);
    if s.shutdown {
      BalancedAfterShutdown(s, s.writer.group[j].idx);
    }
  }
}
