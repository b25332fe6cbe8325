// What one handler error does to a whole session: its answer's body is never read, and so is nothing
// that follows it on the response wire.
module SessionStray {
  import opened RpcTypes
  import opened Framing
  import opened Session
  import opened SessionFacts
  import opened SessionSafety
  import C = ClientMachine
  import CS = ClientSafety
  import S = ServerMachine
  import SS = ServerSafety
  import SA = ServerAnswers

  /** A body at position `p` that the header in front of it does not announce. */
  predicate StrayAt(log: seq<Token>, p: nat) {
    0 < p < |log| && log[p].Body? && log[p - 1].RespHead?
    && (log[p - 1].resp.IsPing() || !log[p - 1].resp.HasData())
  }

  /** The reader has not got past any stray body. */
  ghost predicate HeldUp(log: seq<Token>, pos: nat) {
    pos <= |log| && forall p: nat :: StrayAt(log, p) ==> pos <= p
  }

  lemma HeldUpLonger(log: seq<Token>, more: seq<Token>, pos: nat)
    requires HeldUp(log, pos)
    ensures HeldUp(log + more, pos)
  {
    forall p: nat | StrayAt(log + more, p)
      ensures pos <= p
    {
      assert p < |log| ==> StrayAt(log, p);
    }
  }

  lemma StrayStays(log: seq<Token>, more: seq<Token>, p: nat)
    requires StrayAt(log, p)
    ensures StrayAt(log + more, p)
  {
  }

  /** Whatever a step of the client reads, it is no stray body. */
  lemma ReadsNoStray(h: Handler, x: State, a: C.Action)
    requires FactsInv(h, FactsOf(x)) && C.Enabled(x.client, a) && ClientReadOk(x.respLog, x.respPos, a)
    ensures x.respPos + ClientReads(a) <= |x.respLog|
    ensures StrayAt(x.respLog, x.respPos) ==> ClientReads(a) == 0
  {
    if a.FinishBody? {
      assert ReaderOk(FactsOf(x));
      assert LastRead(FactsOf(x), x.client.reader.head);
    }
  }

  lemma StepKeepsHeldUp(h: Handler, x: State, a: Action)
    requires FactsInv(h, FactsOf(x)) && Enabled(h, x, a) && HeldUp(x.respLog, x.respPos)
    ensures HeldUp(Apply(h, x, a).respLog, Apply(h, x, a).respPos)
    ensures x.respLog <= Apply(h, x, a).respLog
  {
    match a
    case ByClient(c, _) => ReadsNoStray(h, x, c);
    case ByServer(s, cut) => HeldUpLonger(x.respLog, Prefix(ServerWrites(x.server, s), cut), x.respPos);
  }

  lemma {:induction false} RunKeepsHeldUp(h: Handler, x: State, acts: seq<Action>)
    requires Inv(h, x) && CanRun(h, x, acts) && FewCalls(h, x, acts) && HeldUp(x.respLog, x.respPos)
    ensures Inv(h, After(h, x, acts)) && HeldUp(After(h, x, acts).respLog, After(h, x, acts).respPos)
    decreases |acts|
  {
    if acts != [] {
      StepKeepsInv(h, x, acts[0]);
      StepKeepsHeldUp(h, x, acts[0]);
      RunKeepsHeldUp(h, Apply(h, x, acts[0]), acts[1..]);
    }
  }

  /** In every state of every session the reader has read nothing from a stray body on. */
  lemma ReaderIsHeldUp(h: Handler, x: State, repaired: bool, p: nat)
    requires Reached(h, x, repaired) && StrayAt(x.respLog, p)
    ensures x.respPos <= p
  {
    var acts :| && CanRun(h, Initial(repaired), acts) && FewCalls(h, Initial(repaired), acts)
                && After(h, Initial(repaired), acts) == x;
    assert CanRun(h, Initial(repaired), []) && FewCalls(h, Initial(repaired), []);
    ReachedInv(h, Initial(repaired), repaired);
    RunKeepsHeldUp(h, Initial(repaired), acts);
  }

  // ----- how calls complete from then on -----

  predicate Lost(o: C.Outcome) {
    o == C.Failed(C.ConnLost) || o == C.Failed(C.ConnShutdown) || o == C.Failed(C.WriteError)
  }

  /** Completions were only added, and only those of a lost connection. */
  ghost predicate OnlyLost(was: seq<seq<C.Outcome>>, now: seq<seq<C.Outcome>>) {
    && |was| <= |now|
    && (forall i :: 0 <= i < |was| ==> was[i] <= now[i])
    && (forall i, j :: 0 <= i < |now| && (if i < |was| then |was[i]| else 0) <= j < |now[i]| ==> Lost(now[i][j]))
  }

  /** The reader stands before the stray body with no call in its hand. */
  predicate Stuck(x: State, p: nat) {
    && StrayAt(x.respLog, p) && x.respPos == p
    && (x.client.reader.AwaitingHeader? || x.client.reader.ShuttingDown? || x.client.reader.Notifying?
        || x.client.reader.ReaderExited?)
  }

  lemma CompletingLoses(was: seq<seq<C.Outcome>>, now: seq<seq<C.Outcome>>, idx: nat, o: C.Outcome)
    requires OnlyLost(was, now) && Lost(o)
    ensures OnlyLost(was, C.Completed(now, idx, o))
  {
  }

  lemma TellingLoses(was: seq<seq<C.Outcome>>, now: seq<seq<C.Outcome>>,
                     later: seq<seq<C.Outcome>>, o: C.Outcome)
    requires OnlyLost(was, now) && Lost(o) && |later| == |now|
    requires forall i :: 0 <= i < |now| ==> later[i] == now[i] || later[i] == now[i] + [o]
    ensures OnlyLost(was, later)
  {
  }

  lemma ClientStaysStuck(x: State, c: C.Action, p: nat)
    requires Stuck(x, p) && C.Enabled(x.client, c) && ClientReadOk(x.respLog, x.respPos, c)
    ensures ClientReads(c) == 0
    ensures var r := C.Apply(x.client, c).reader;
            r.AwaitingHeader? || r.ShuttingDown? || r.Notifying? || r.ReaderExited?
  {
  }

  lemma TakingCompletesNothing(s: C.State, c: C.Action)
    requires C.Enabled(s, c)
    requires c.Take? || c.TakeClosed? || c.TakeExit? || c.PingWrite? || c.PingFlush? || c.Reject?
             || c.BatchClosed? || c.BatchEnd?
    ensures C.Apply(s, c).outcomes == s.outcomes
  {
  }

  lemma RegisteringCompletesNothing(s: C.State, c: C.Action)
    requires C.Enabled(s, c) && (c.Admit? || c.BatchMore?)
    ensures C.Apply(s, c).outcomes == s.outcomes || C.Apply(s, c).outcomes == s.outcomes + [[]]
  {
  }

  lemma WritingCompletesNothing(s: C.State, ok: bool)
    ensures C.Enabled(s, C.WriteOne(ok)) ==> C.Apply(s, C.WriteOne(ok)).outcomes == s.outcomes
    ensures C.Enabled(s, C.FlushGroup(ok)) ==> C.Apply(s, C.FlushGroup(ok)).outcomes == s.outcomes
  {
  }

  lemma CleaningCompletesNothing(s: C.State)
    ensures C.Enabled(s, C.CleanOne) ==> C.Apply(s, C.CleanOne).outcomes == s.outcomes
    ensures C.Enabled(s, C.CleanDone) ==> C.Apply(s, C.CleanDone).outcomes == s.outcomes
  {
  }

  lemma WriterCompletesNothing(s: C.State, c: C.Action)
    requires C.Enabled(s, c) && !c.FailOne? && CS.WriterStep(c)
    ensures C.Apply(s, c).outcomes == s.outcomes || C.Apply(s, c).outcomes == s.outcomes + [[]]
  {
    if c.Admit? || c.BatchMore? {
      RegisteringCompletesNothing(s, c);
    } else if c.WriteOne? || c.FlushGroup? {
      WritingCompletesNothing(s, c.ok);
    } else if c.CleanOne? || c.CleanDone? {
      CleaningCompletesNothing(s);
    } else {
      TakingCompletesNothing(s, c);
    }
  }

  lemma ReaderCompletesNothing(s: C.State, c: C.Action)
    requires C.Enabled(s, c) && !c.ShutDown? && !s.reader.Completing? && !CS.WriterStep(c)
    ensures C.Apply(s, c).outcomes == s.outcomes
  {
  }

  lemma ClientStepLoses(x: State, c: C.Action, was: seq<seq<C.Outcome>>, p: nat)
    requires Stuck(x, p) && C.Enabled(x.client, c) && OnlyLost(was, x.client.outcomes)
    ensures OnlyLost(was, C.Apply(x.client, c).outcomes)
  {
    var s := x.client;
    if c.FailOne? {
      CompletingLoses(was, s.outcomes, s.writer.idx, C.Failed(C.WriteError));
    } else if c.ShutDown? {
      var why := if s.reader.eof && s.closing then C.ConnShutdown else C.ConnLost;
      if !s.shutdown {
        TellingLoses(was, s.outcomes, C.Apply(s, c).outcomes, C.Failed(why));
      }
    } else if CS.WriterStep(c) {
      WriterCompletesNothing(s, c);
    } else {
      ReaderCompletesNothing(s, c);
    }
  }

  lemma StepStaysStuck(h: Handler, x: State, a: Action, was: seq<seq<C.Outcome>>, p: nat)
    requires Stuck(x, p) && Enabled(h, x, a) && OnlyLost(was, x.client.outcomes)
    ensures Stuck(Apply(h, x, a), p) && OnlyLost(was, Apply(h, x, a).client.outcomes)
  {
    match a
    case ByClient(c, _) =>
      ClientStaysStuck(x, c, p);
      ClientStepLoses(x, c, was, p);
    case ByServer(s, cut) => StrayStays(x.respLog, Prefix(ServerWrites(x.server, s), cut), p);
  }

  /** Once the reader has come to a stray body, it stays there in every continuation, and every completion
      from then on is that of a lost connection, a shutdown or a failed write. */
  lemma {:induction false} StuckForGood(h: Handler, x: State, acts: seq<Action>, was: seq<seq<C.Outcome>>, p: nat)
    requires Stuck(x, p) && CanRun(h, x, acts) && OnlyLost(was, x.client.outcomes)
    ensures Stuck(After(h, x, acts), p) && OnlyLost(was, After(h, x, acts).client.outcomes)
    decreases |acts|
  {
    if acts != [] {
      StepStaysStuck(h, x, acts[0], was, p);
      StuckForGood(h, Apply(h, x, acts[0]), acts[1..], was, p);
    }
  }

  // ----- where stray bodies come from -----

  lemma {:induction false} MisframedInStream(answers: seq<Answer>, j: nat) returns (p: nat)
    requires j < |answers| && answers[j].Misframed(false)
    ensures StrayAt(AnswerStream(answers, false), p)
  {
    var first, rest := answers[0].Tokens(false), AnswerStream(answers[1..], false);
    if j == 0 {
      p := 1;
    } else {
      var q := MisframedInStream(answers[1..], j - 1);
      p := |first| + q;
    }
  }

  /** A group with a handler error that gets through to the wire puts a stray body there. */
  lemma HandlerErrorStrands(h: Handler, x: State, a: S.Action, cut: nat, j: nat) returns (p: nat)
    requires Enabled(h, x, ByServer(a, cut)) && (a.LoopSend? || a.WSend?)
    requires j < |ServerAnswersNow(x.server, a)| && ServerAnswersNow(x.server, a)[j].errmsg != ""
    requires !x.broken && cut >= |ServerWrites(x.server, a)|
    ensures p >= |x.respLog| && StrayAt(Apply(h, x, ByServer(a, cut)).respLog, p)
  {
    var answers := ServerAnswersNow(x.server, a);
    var q := MisframedInStream(answers, j);
    p := |x.respLog| + q;
    assert Prefix(ServerWrites(x.server, a), cut) == AnswerStream(answers, false);
  }

  /** ... and from then on no call, waiting or new, completes in any other way than by the loss of the
      connection, once the reader has come that far. */
  lemma HandlerErrorEndsSession(h: Handler, x: State, acts: seq<Action>, p: nat)
    requires StrayAt(x.respLog, p) && x.respPos == p && x.client.reader.AwaitingHeader?
    requires CanRun(h, x, acts)
    ensures After(h, x, acts).respPos == p
    ensures OnlyLost(x.client.outcomes, After(h, x, acts).client.outcomes)
  {
    StuckForGood(h, x, acts, x.client.outcomes, p);
  }

  // ----- and from nowhere else -----

  /** A handler of this session returned an error with text `text`, leaving `v` as its reply, for a request
      with sequence number `k`. */
  ghost predicate ErredWithText(s: S.State, k: nat, text: string, v: RpcTypes.Value) {
    exists i ::
      && 0 <= i < |s.accepted| && i in s.results && s.accepted[i].head.seqNo == k
      && s.results[i] == S.Result(v, Some(text)) && text != ""
  }

  /** Every stray body is the reply a handler left behind when it returned an error. */
  ghost predicate StraysExplained(log: seq<Token>, s: S.State) {
    forall p: nat :: StrayAt(log, p) ==>
      ErredWithText(s, log[p - 1].resp.seqNo, log[p - 1].resp.errorMsg, log[p].value)
  }

  lemma StillErred(s: S.State, t: S.State, k: nat, text: string, v: RpcTypes.Value)
    requires Extends(ServedBy(s), ServedBy(t)) && ErredWithText(s, k, text, v)
    ensures ErredWithText(t, k, text, v)
  {
    var i :| 0 <= i < |s.accepted| && i in s.results && s.accepted[i].head.seqNo == k
             && s.results[i] == S.Result(v, Some(text)) && text != "";
    assert t.accepted[i] == s.accepted[i] && t.results[i] == s.results[i];
  }

  lemma {:induction false} StrayInStream(answers: seq<Answer>, q: nat) returns (j: nat)
    requires StrayAt(AnswerStream(answers, false), q)
    ensures j < |answers| && answers[j].Grouped? && answers[j].Misframed(false)
    ensures AnswerStream(answers, false)[q - 1] == RespHead(answers[j].Head())
    ensures AnswerStream(answers, false)[q] == Body(answers[j].reply)
  {
    var first, rest := answers[0].Tokens(false), AnswerStream(answers[1..], false);
    if q < |first| {
      j := 0;
    } else {
      StreamStartsWithHeader(answers[1..]);
      j := StrayInStream(answers[1..], q - |first|);
      j := j + 1;
    }
  }

  lemma StreamStartsWithHeader(answers: seq<Answer>)
    ensures var stream := AnswerStream(answers, false);
            stream != [] ==> stream[0].RespHead?
  {
  }

  /** A misframed answer of the server is that of a handler which returned an error. */
  lemma MisframedErred(s: S.State, a: S.Action, j: nat)
    requires SA.Inv(s) && S.Enabled(s, a) && j < |ServerAnswersNow(s, a)|
    requires ServerAnswersNow(s, a)[j].Grouped? && ServerAnswersNow(s, a)[j].Misframed(false)
    ensures var b := ServerAnswersNow(s, a)[j];
            ErredWithText(s, b.Head().seqNo, b.errmsg, b.reply)
  {
    assert SS.KindInv(s);
    var who := if a.LoopSend? then s.loop.group[j] else s.writer.group[j];
    assert who < |s.accepted| && ServerAnswersNow(s, a)[j] == S.GroupAnswer(s, who);
    assert !s.accepted[who].head.IsPing();
    assert who in s.results && s.results[who].err == Some(ServerAnswersNow(s, a)[j].errmsg);
  }

  lemma ReadsKnowMore(s: S.State, a: S.Action)
    requires S.Enabled(s, a) && SA.ReadStep(a)
    ensures Extends(ServedBy(s), ServedBy(S.Apply(s, a)))
  {
  }

  lemma DispatchKnowsMore(s: S.State, verdict: S.Verdict)
    requires SA.Inv(s) && S.Enabled(s, S.Dispatch(verdict))
    ensures Extends(ServedBy(s), ServedBy(S.Apply(s, S.Dispatch(verdict))))
  {
    NotRejectedYet(s);
  }

  lemma LoopKnowsMore(s: S.State, a: S.Action)
    requires S.Enabled(s, a) && SA.LoopStep(a) && !a.Dispatch?
    ensures Extends(ServedBy(s), ServedBy(S.Apply(s, a)))
  {
  }

  lemma RestKnowsMore(s: S.State, a: S.Action)
    requires SS.KindInv(s) && S.Enabled(s, a) && !SA.ReadStep(a) && !SA.LoopStep(a)
    ensures Extends(ServedBy(s), ServedBy(S.Apply(s, a)))
  {
  }

  lemma ServerKnowsMore(s: S.State, a: S.Action)
    requires SA.Inv(s) && S.Enabled(s, a)
    ensures Extends(ServedBy(s), ServedBy(S.Apply(s, a)))
  {
    if SA.ReadStep(a) {
      ReadsKnowMore(s, a);
    } else if a.Dispatch? {
      DispatchKnowsMore(s, a.verdict);
    } else if SA.LoopStep(a) {
      LoopKnowsMore(s, a);
    } else {
      RestKnowsMore(s, a);
    }
  }

  /** A stray body that a step of the server adds. */
  lemma NewStrayExplained(s: S.State, a: S.Action, log: seq<Token>, cut: nat, p: nat)
    requires SA.Inv(s) && S.Enabled(s, a) && p >= |log|
    requires StrayAt(log + Prefix(ServerWrites(s, a), cut), p)
    ensures var more := log + Prefix(ServerWrites(s, a), cut);
            ErredWithText(s, more[p - 1].resp.seqNo, more[p - 1].resp.errorMsg, more[p].value)
  {
    var answers := ServerAnswersNow(s, a);
    StreamStartsWithHeader(answers);
    var q := p - |log|;
    assert StrayAt(AnswerStream(answers, false), q);
    var j := StrayInStream(answers, q);
    MisframedErred(s, a, j);
  }

  lemma ServerExplainsStrays(h: Handler, x: State, a: S.Action, cut: nat)
    requires SA.Inv(x.server) && Enabled(h, x, ByServer(a, cut)) && StraysExplained(x.respLog, x.server)
    ensures StraysExplained(ServerDoes(x, a, cut).respLog, ServerDoes(x, a, cut).server)
  {
    var y := ServerDoes(x, a, cut);
    ServerKnowsMore(x.server, a);
    forall p: nat | StrayAt(y.respLog, p)
      ensures ErredWithText(y.server, y.respLog[p - 1].resp.seqNo, y.respLog[p - 1].resp.errorMsg,
                            y.respLog[p].value)
    {
      if p < |x.respLog| {
        assert StrayAt(x.respLog, p);
      } else {
        NewStrayExplained(x.server, a, x.respLog, cut, p);
      }
      StillErred(x.server, y.server, y.respLog[p - 1].resp.seqNo, y.respLog[p - 1].resp.errorMsg,
                 y.respLog[p].value);
    }
  }

  lemma {:induction false} RunExplainsStrays(h: Handler, x: State, acts: seq<Action>)
    requires Inv(h, x) && CanRun(h, x, acts) && FewCalls(h, x, acts) && StraysExplained(x.respLog, x.server)
    ensures StraysExplained(After(h, x, acts).respLog, After(h, x, acts).server)
    decreases |acts|
  {
    if acts != [] {
      match acts[0] {
        case ByServer(s, cut) => ServerExplainsStrays(h, x, s, cut);
        case ByClient(_, _) =>
      }
      StepKeepsInv(h, x, acts[0]);
      RunExplainsStrays(h, Apply(h, x, acts[0]), acts[1..]);
    }
  }

  lemma NoStrayYet(repaired: bool)
    ensures StraysExplained(Initial(repaired).respLog, Initial(repaired).server)
  {
  }

  /** The converse: an unannounced body on the response wire is the reply of a handler of this very session
      that returned an error with a text, and the header in front of it carries that text. */
  lemma StrayMeansHandlerError(h: Handler, x: State, repaired: bool, p: nat)
    requires Reached(h, x, repaired) && StrayAt(x.respLog, p)
    ensures ErredWithText(x.server, x.respLog[p - 1].resp.seqNo, x.respLog[p - 1].resp.errorMsg,
                          x.respLog[p].value)
  {
    var x0 := Initial(repaired);
    var acts :| CanRun(h, x0, acts) && FewCalls(h, x0, acts) && After(h, x0, acts) == x;
    InitialInv(h, repaired);
    NoStrayYet(repaired);
    RunExplainsStrays(h, x0, acts);
  }
}
