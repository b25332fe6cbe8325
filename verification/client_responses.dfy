// What the reader makes of responses over whole runs: a call completes with what its response said.
module ClientResponses {
  import opened RpcTypes
  import opened Counting
  import opened ClientMachine
  import opened ClientSafety
  import opened ClientTheorems

  /** A response that was looked up for a registered call and read to its end. */
  datatype Response = Response(head: ResponseHeader, body: BodyRead) {
    /** It carries registration `i`'s number, and its body was read into a reply if and only if there
        was data, no error text, and a reply object. */
    predicate IsFor(i: nat, call: Call) {
      && head.seqNo == i && !head.IsPing()
      && (body.NoBody? <==> !head.HasData())
      && (body.Value? ==> call.wantsReply && head.errorMsg == "")
      && (body.Discarded? ==> !call.wantsReply || head.errorMsg != "")
    }

    /** It is a failure if and only if it has an error text or its body broke; and otherwise a success
        with the body that was read, or with none. */
    predicate Says(o: Outcome) {
      && (o.Failed? <==> head.errorMsg != "" || body.Broken?)
      && (head.errorMsg != "" ==> o == Failed(Remote(head.errorMsg)))
      && (head.errorMsg == "" && body.Broken? ==> o == Failed(BodyError))
      && (o.Succeeded? ==> o.reply == if body.Value? then Some(body.value) else None)
    }
  }

  function Finished(s: State, a: Action, i: nat): seq<Response>
    requires Enabled(s, a)
  {
    if a.FinishBody? && s.reader.who == Some(i) then [Response(s.reader.head, a.body)] else []
  }

  /** The responses for registration `i` that a run reads to their end, in order. */
  ghost function Responses(s: State, acts: seq<Action>, i: nat): seq<Response>
    requires CanRun(s, acts)
    decreases |acts|
  {
    if acts == [] then [] else Finished(s, acts[0], i) + Responses(Apply(s, acts[0]), acts[1..], i)
  }

  /** A completion by onShutDown or by the writer. */
  predicate Local(o: Outcome) { o.Failed? && (o.why.ConnShutdown? || o.why.ConnLost? || o.why.WriteError?) }

  /** The completions by the reader among `outcomes`. */
  function ByReader(outcomes: seq<Outcome>): seq<Outcome> {
    if outcomes == [] then []
    else
      var n := |outcomes| - 1;
      ByReader(outcomes[..n]) + if Local(outcomes[n]) then [] else [outcomes[n]]
  }

  lemma ByReaderGrows(outcomes: seq<Outcome>, o: Outcome)
    ensures ByReader(outcomes + [o]) == ByReader(outcomes) + if Local(o) then [] else [o]
  {
    assert (outcomes + [o])[..|outcomes|] == outcomes;
  }

  function InHand(reader: Reader, i: nat): seq<Outcome> {
    if reader.Completing? && reader.idx == i then [reader.outcome] else []
  }

  /** What the reader has told, or is about to tell, registration `i`. */
  function Told(outcomes: seq<seq<Outcome>>, reader: Reader, i: nat): seq<Outcome> {
    (if i < |outcomes| then ByReader(outcomes[i]) else []) + InHand(reader, i)
  }

  predicate HandFits(reader: Reader) {
    match reader
    case GotHeader(h) => !h.IsPing()
    case GotCall(h, who) => !h.IsPing() && (who.Some? ==> who.value == h.seqNo)
    case _ => true
  }

  predicate Looking(reader: Reader, i: nat) { reader.GotCall? && reader.who == Some(i) }

  ghost predicate Explained(sent: seq<Call>, i: nat, rs: seq<Response>, told: seq<Outcome>) {
    && |told| == |rs| && (rs != [] ==> i < |sent|)
    && forall j :: 0 <= j < |rs| ==> rs[j].IsFor(i, sent[i]) && rs[j].Says(told[j])
  }

  /** After `rs` for registration `i`. A number that has been looked up is not pending any more. */
  ghost predicate Trace(s: State, i: nat, rs: seq<Response>) {
    && Explained(s.sent, i, rs, Told(s.outcomes, s.reader, i))
    && |rs| + B(Looking(s.reader, i)) + B(i in s.pending) <= 1
    && HandFits(s.reader)
  }

  // ----- single steps -----

  /** A step that leaves the calls, their completions and the reader's hand alone. */
  lemma QuietKeepsTrace(s: State, t: State, i: nat, rs: seq<Response>)
    requires Trace(s, i, rs) && t.outcomes == s.outcomes && t.sent == s.sent
    requires (i in t.pending ==> i in s.pending) && HandFits(t.reader)
    requires InHand(t.reader, i) == InHand(s.reader, i)
    requires Looking(t.reader, i) ==> Looking(s.reader, i)
    ensures Trace(t, i, rs)
  {
  }

  lemma RegisterKeepsTrace(s: State, call: Call, writer: Writer, taken: seq<Call>, i: nat, rs: seq<Response>)
    requires Inv(s) && Trace(s, i, rs) && |s.sent| < TWO_TO_THE_64
    ensures Trace(Register(s, call).(writer := writer, taken := taken), i, rs)
  {
    assert s.seqNo == |s.sent|;
    assert HandsOf(s).Below(|s.sent|);
    if i == |s.sent| {
      assert Told(s.outcomes, s.reader, i) == [];
    }
  }

  /** A registration is told something by somebody other than the reader. */
  lemma LocalKeepsTold(outcomes: seq<seq<Outcome>>, reader: Reader, idx: nat, o: Outcome, i: nat)
    requires Local(o)
    ensures Told(Completed(outcomes, idx, o), reader, i) == Told(outcomes, reader, i)
  {
    if idx < |outcomes| {
      ByReaderGrows(outcomes[idx], o);
    }
  }

  lemma FailOneKeepsTrace(s: State, i: nat, rs: seq<Response>)
    requires Trace(s, i, rs) && Enabled(s, FailOne)
    ensures Trace(Apply(s, FailOne), i, rs)
  {
    LocalKeepsTold(s.outcomes, s.reader, s.writer.idx, Failed(WriteError), i);
  }

  /** onShutDown tells everything pending. */
  lemma ShutDownKeepsTold(s: State, i: nat)
    requires Enabled(s, ShutDown)
    ensures var t := Apply(s, ShutDown); Told(t.outcomes, t.reader, i) == Told(s.outcomes, s.reader, i)
  {
    var t, why := Apply(s, ShutDown), if s.reader.eof && s.closing then ConnShutdown else ConnLost;
    if i < |s.outcomes| && !s.shutdown {
      ByReaderGrows(s.outcomes[i], Failed(why));
      assert s.outcomes[i] + [] == s.outcomes[i];
      assert t.outcomes[i] == s.outcomes[i] || t.outcomes[i] == s.outcomes[i] + [Failed(why)];
    }
  }

  lemma ShutDownKeepsTrace(s: State, i: nat, rs: seq<Response>)
    requires Trace(s, i, rs) && Enabled(s, ShutDown)
    ensures Trace(Apply(s, ShutDown), i, rs)
  {
    ShutDownKeepsTold(s, i);
  }

  lemma LookupKeepsTrace(s: State, i: nat, rs: seq<Response>)
    requires Inv(s) && Trace(s, i, rs) && Enabled(s, Lookup)
    ensures Trace(Apply(s, Lookup), i, rs)
  {
    assert Told(Apply(s, Lookup).outcomes, Apply(s, Lookup).reader, i) == Told(s.outcomes, s.reader, i);
  }

  lemma BodyFitsCall(s: State, body: BodyRead)
    requires Inv(s) && HandFits(s.reader) && Enabled(s, FinishBody(body)) && s.reader.who.Some?
    ensures s.reader.who.value < |s.sent|
    ensures var i, r := s.reader.who.value, Response(s.reader.head, body);
            r.IsFor(i, s.sent[i]) && r.Says(BodyOutcome(r.head, body))
  {
    assert HandsOf(s).Below(|s.sent|);
  }

  lemma ExplainedMore(sent: seq<Call>, i: nat, r: Response, told: seq<Outcome>, o: Outcome)
    requires i < |sent| && r.IsFor(i, sent[i]) && r.Says(o) && told == []
    ensures Explained(sent, i, [r], told + [o])
  {
  }

  lemma FinishBodyKeepsTrace(s: State, body: BodyRead, i: nat, rs: seq<Response>)
    requires Inv(s) && Trace(s, i, rs) && Enabled(s, FinishBody(body))
    ensures Trace(Apply(s, FinishBody(body)), i, rs + Finished(s, FinishBody(body), i))
  {
    var t, now := Apply(s, FinishBody(body)), Told(s.outcomes, s.reader, i);
    if s.reader.who == Some(i) {
      var r := Response(s.reader.head, body);
      BodyFitsCall(s, body);
      ExplainedMore(s.sent, i, r, now, BodyOutcome(r.head, body));
      assert Told(t.outcomes, t.reader, i) == now + [BodyOutcome(r.head, body)];
      assert rs + [r] == [r];
    } else {
      assert Told(t.outcomes, t.reader, i) == now;
      assert rs + [] == rs;
    }
  }

  /** The outcome in the reader's hand becomes a completion. */
  lemma HandOver(outcomes: seq<seq<Outcome>>, reader: Reader, after: Reader, i: nat)
    requires reader.Completing? && reader.idx < |outcomes| && !after.Completing?
    requires reader.idx == i ==> !Local(reader.outcome)
    ensures Told(Completed(outcomes, reader.idx, reader.outcome), after, i) == Told(outcomes, reader, i)
  {
    if reader.idx == i {
      ByReaderGrows(outcomes[i], reader.outcome);
    }
  }

  lemma HandIsExplained(s: State, i: nat, rs: seq<Response>)
    requires Trace(s, i, rs) && s.reader.Completing? && s.reader.idx == i
    ensures !Local(s.reader.outcome)
  {
    var told := Told(s.outcomes, s.reader, i);
    assert told[|told| - 1] == s.reader.outcome && rs[|told| - 1].Says(told[|told| - 1]);
  }

  lemma ToldKeepsTrace(s: State, outcomes: seq<seq<Outcome>>, reader: Reader, i: nat, rs: seq<Response>)
    requires Trace(s, i, rs) && Told(outcomes, reader, i) == Told(s.outcomes, s.reader, i)
    requires HandFits(reader) && !reader.GotCall?
    ensures Trace(s.(outcomes := outcomes, reader := reader), i, rs)
  {
  }

  lemma CompleteReadKeepsTrace(s: State, i: nat, rs: seq<Response>)
    requires Inv(s) && Trace(s, i, rs) && Enabled(s, CompleteRead)
    ensures Trace(Apply(s, CompleteRead), i, rs)
  {
    assert HandsOf(s).Below(|s.sent|);
    if s.reader.idx == i {
      HandIsExplained(s, i, rs);
    }
    var after := if s.reader.broken then ShuttingDown(false) else AwaitingHeader;
    HandOver(s.outcomes, s.reader, after, i);
    ToldKeepsTrace(s, Completed(s.outcomes, s.reader.idx, s.reader.outcome), after, i, rs);
  }

  // ----- all steps -----

  predicate RegisterStep(s: State, a: Action)
    requires Enabled(s, a)
  {
    (a.Admit? && !s.shutdown && !s.closing) || a.BatchMore?
  }

  lemma RegistersTrace(s: State, a: Action, i: nat, rs: seq<Response>)
    requires Inv(s) && Trace(s, i, rs) && Enabled(s, a) && RegisterStep(s, a)
    requires |Apply(s, a).sent| <= TWO_TO_THE_64
    ensures Trace(Apply(s, a), i, rs)
  {
    var t := Apply(s, a);
    RegisterKeepsTrace(s, if a.Admit? then s.writer.call else a.call, t.writer, t.taken, i, rs);
  }

  /** Neither a registration nor a completion: before a group is written, and from then on. */
  predicate EarlyStep(s: State, a: Action)
    requires Enabled(s, a)
  {
    || a.Take? || a.TakeClosed? || a.TakeExit? || a.PingWrite? || a.PingFlush? || a.Reject?
    || (a.Admit? && !RegisterStep(s, a)) || a.BatchClosed? || a.BatchEnd?
  }

  predicate LateStep(a: Action) { a.WriteOne? || a.FlushGroup? || a.CleanOne? || a.CleanDone? }

  /** Nothing has happened to any call, except that it may have been taken out of `pending`. */
  ghost predicate Quiet(s: State, t: State) {
    && t.outcomes == s.outcomes && t.sent == s.sent && t.reader == s.reader
    && forall k :: k in t.pending ==> k in s.pending
  }

  lemma EarlyIsQuiet(s: State, a: Action)
    requires Enabled(s, a) && EarlyStep(s, a)
    ensures Quiet(s, Apply(s, a))
  {
  }

  lemma LateIsQuiet(s: State, a: Action)
    requires Enabled(s, a) && LateStep(a)
    ensures Quiet(s, Apply(s, a))
  {
  }

  lemma QuietKeepsHand(s: State, t: State, i: nat, rs: seq<Response>)
    requires Trace(s, i, rs) && Quiet(s, t)
    ensures Trace(t, i, rs)
  {
    QuietKeepsTrace(s, t, i, rs);
  }

  lemma WriterKeepsTrace(s: State, a: Action, i: nat, rs: seq<Response>)
    requires Inv(s) && Trace(s, i, rs) && Enabled(s, a) && WriterStep(a) && |Apply(s, a).sent| <= TWO_TO_THE_64
    ensures Trace(Apply(s, a), i, rs)
  {
    if RegisterStep(s, a) {
      RegistersTrace(s, a, i, rs);
    } else if a.FailOne? {
      FailOneKeepsTrace(s, i, rs);
    } else {
      if EarlyStep(s, a) {
        EarlyIsQuiet(s, a);
      } else {
        LateIsQuiet(s, a);
      }
      QuietKeepsHand(s, Apply(s, a), i, rs);
    }
  }

  lemma OthersKeepTrace(s: State, a: Action, i: nat, rs: seq<Response>)
    requires Inv(s) && Trace(s, i, rs) && Enabled(s, a) && !WriterStep(a)
    ensures Trace(Apply(s, a), i, rs + Finished(s, a, i))
  {
    if a.FinishBody? {
      FinishBodyKeepsTrace(s, a.body, i, rs);
    } else {
      assert rs + Finished(s, a, i) == rs;
      if a.Lookup? {
        LookupKeepsTrace(s, i, rs);
      } else if a.CompleteRead? {
        CompleteReadKeepsTrace(s, i, rs);
      } else if a.ShutDown? {
        ShutDownKeepsTrace(s, i, rs);
      } else {
        QuietKeepsTrace(s, Apply(s, a), i, rs);
      }
    }
  }

  lemma StepKeepsTrace(s: State, a: Action, i: nat, rs: seq<Response>)
    requires Inv(s) && Trace(s, i, rs) && Enabled(s, a) && |Apply(s, a).sent| <= TWO_TO_THE_64
    ensures Trace(Apply(s, a), i, rs + Finished(s, a, i))
  {
    if WriterStep(a) {
      WriterKeepsTrace(s, a, i, rs);
      assert rs + Finished(s, a, i) == rs;
    } else {
      OthersKeepTrace(s, a, i, rs);
    }
  }

  lemma {:induction false} RunKeepsTrace(s: State, acts: seq<Action>, i: nat, rs: seq<Response>)
    requires Inv(s) && Trace(s, i, rs) && CanRun(s, acts) && FewCalls(s, acts)
    ensures Trace(After(s, acts), i, rs + Responses(s, acts, i))
    decreases |acts|
  {
    if acts == [] {
      assert rs + [] == rs;
    } else {
      var a, t := acts[0], Apply(s, acts[0]);
      StepKeepsTrace(s, a, i, rs);
      StepKeepsInv(s, a);
      var first, rest := Finished(s, a, i), Responses(t, acts[1..], i);
      RunKeepsTrace(t, acts[1..], i, rs + first);
      assert rs + first + rest == rs + (first + rest);
    }
  }

  // ----- the theorem -----

  /** On every run, for a call with or without a reply object: at most one response is ever read for it,
      and what the reader has told it, or is about to, is what that response says: a failure if and only
      if the response has an error text or its body broke. If no response was read for it, the reader
      told it nothing. */
  lemma OutcomesAreResponses(acts: seq<Action>, repaired: bool, i: nat)
    requires CanRun(Initial(repaired), acts) && FewCalls(Initial(repaired), acts)
    ensures var s, rs := After(Initial(repaired), acts), Responses(Initial(repaired), acts, i);
            && |rs| <= 1 && |Told(s.outcomes, s.reader, i)| == |rs|
            && (rs != [] ==> && i < |s.sent| && rs[0].IsFor(i, s.sent[i])
                             && rs[0].Says(Told(s.outcomes, s.reader, i)[0]))
  {
    InitialInv(repaired);
    assert Trace(Initial(repaired), i, []);
    RunKeepsTrace(Initial(repaired), acts, i, []);
    assert [] + Responses(Initial(repaired), acts, i) == Responses(Initial(repaired), acts, i);
  }
}
