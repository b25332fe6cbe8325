// What both ends and both wires of a connection agree on: the part of the state the end-to-end
// promise is about, and what each kind of step does to it.
module SessionFacts {
  import opened RpcTypes
  import opened Framing
  import opened Session
  import C = ClientMachine
  import CS = ClientSafety
  import S = ServerMachine

  /** What the server knows about requests. */
  datatype Served = Served(accepted: seq<S.Accepted>, results: map<nat, S.Result>,
                           rejections: map<nat, string>) {
    /** The handler of an accepted request with sequence number `k` left `v` as its reply, and no error
        text. */
    ghost predicate Returned(k: nat, v: RpcTypes.Value) {
      exists i :: 0 <= i < |accepted| && accepted[i].Work? && accepted[i].head.seqNo == k
                  && i in results && results[i].reply == v && results[i].Text() == ""
    }

    /** Request `k` was refused, with an error whose text is empty. */
    ghost predicate RefusedSilently(k: nat) {
      exists i :: 0 <= i < |accepted| && accepted[i].head.seqNo == k
                  && (accepted[i] == S.Refused(accepted[i].head, "")
                      || (i in rejections && rejections[i] == ""))
    }

    ghost predicate Accepts(k: nat) { exists i :: 0 <= i < |accepted| && accepted[i].head.seqNo == k }

    /** Request `k` was refused with this text, or its handler returned it as its error. */
    ghost predicate Errored(k: nat, text: string) {
      exists i :: 0 <= i < |accepted| && accepted[i].head.seqNo == k && ErroredAt(i, text)
    }

    predicate ErroredAt(i: nat, text: string)
      requires i < |accepted|
    {
      || accepted[i] == S.Refused(accepted[i].head, text)
      || (i in rejections && rejections[i] == text)
      || (i in results && results[i].err == Some(text))
    }
  }

  datatype Facts = Facts(
    sent: seq<Call>, reader: C.Reader, outcomes: seq<seq<C.Outcome>>,
    served: Served, loop: S.Loop,
    reqLog: seq<Token>, reqPos: nat, respLog: seq<Token>, respPos: nat, broken: bool,
    limit: int)                     // calls from this number on have not been written

  /** The loop while it has a request in hand that is not accepted yet. */
  function InHand(loop: S.Loop): S.Loop {
    if loop.ReadingBody? || loop.Discarding? || loop.Returned? then loop else S.Reading
  }

  function ServedBy(s: S.State): Served { Served(s.accepted, s.results, s.log.rejections) }

  function FactsOf(x: State): Facts {
    Facts(x.client.sent, x.client.reader, x.client.outcomes, ServedBy(x.server),
          InHand(x.server.loop), x.reqLog, x.reqPos, x.respLog, x.respPos, x.broken,
          CS.NextToWrite(x.client.writer, |x.client.sent|))
  }

  // ----- requests -----

  /** A request header that belongs to a registered call. */
  predicate Registered(sent: seq<Call>, h: RequestHeader) {
    h.seqNo < |sent| && h == HeaderOf(sent[h.seqNo], h.seqNo)
  }

  predicate Carries(sent: seq<Call>, h: RequestHeader, arg: RpcTypes.Value) {
    Registered(sent, h) && sent[h.seqNo].args == Some(arg)
  }

  predicate ReqTokenOk(sent: seq<Call>, log: seq<Token>, p: nat)
    requires p < |log|
  {
    match log[p]
    case ReqHead(h) => h == PING_REQUEST_HEADER || Registered(sent, h)
    case Body(v) => p > 0 && log[p - 1].ReqHead? && Carries(sent, log[p - 1].req, v)
    case RespHead(_) => false
  }

  ghost predicate ReqLogOk(sent: seq<Call>, log: seq<Token>) {
    forall p :: 0 <= p < |log| ==> ReqTokenOk(sent, log, p)
  }

  predicate HandOk(f: Facts) {
    match f.loop
    case ReadingBody(h) => f.reqPos > 0 && f.reqPos <= |f.reqLog| && f.reqLog[f.reqPos - 1] == ReqHead(h)
                           && Registered(f.sent, h)
    case Discarding(h, text) => Registered(f.sent, h) && text != ""
    case Returned(res) =>
      (match res
       case Good(h, arg, _) => Carries(f.sent, h, arg)
       case Bad(h, _) => Registered(f.sent, h)
       case _ => true)
    case _ => true
  }

  predicate AcceptedOk(sent: seq<Call>, a: S.Accepted) {
    Registered(sent, a.head) && (a.Work? ==> sent[a.head.seqNo].args == Some(a.arg))
  }

  ghost predicate ServedOk(h: Handler, sent: seq<Call>, d: Served) {
    && (forall i :: 0 <= i < |d.accepted| ==> AcceptedOk(sent, d.accepted[i]))
    && (forall i :: i in d.results ==>
          i < |d.accepted| && d.accepted[i].Work? &&
          h(d.accepted[i].head.serviceMethod, d.accepted[i].arg, d.results[i]))
  }

  // ----- the order of requests -----

  /** A header that asks for a call to be executed. */
  predicate CallHead(t: Token) { t.ReqHead? && !t.req.IsPing() }

  /** Calls are written in the order of their sequence numbers. */
  ghost predicate Increasing(log: seq<Token>) {
    forall p, q :: 0 <= p < q < |log| && CallHead(log[p]) && CallHead(log[q]) ==>
      log[p].req.seqNo < log[q].req.seqNo
  }

  /** Every call still to be read has a greater number than `k`. */
  ghost predicate Unread(log: seq<Token>, pos: nat, k: nat) {
    forall p :: pos <= p < |log| && CallHead(log[p]) ==> k < log[p].req.seqNo
  }

  function HandNumber(loop: S.Loop): Option<nat> {
    match loop
    case ReadingBody(h) => Some(h.seqNo)
    case Discarding(h, _) => Some(h.seqNo)
    case Returned(res) =>
      (match res
       case Good(h, _, _) => Some(h.seqNo)
       case Bad(h, _) => Some(h.seqNo)
       case _ => None)
    case _ => None
  }

  /** The server accepts calls in that order too, so none twice. */
  ghost predicate OrderOk(log: seq<Token>, pos: nat, accepted: seq<S.Accepted>, hand: Option<nat>) {
    && Increasing(log)
    && (forall i, j :: 0 <= i < j < |accepted| ==> accepted[i].head.seqNo < accepted[j].head.seqNo)
    && (forall i :: 0 <= i < |accepted| ==> Unread(log, pos, accepted[i].head.seqNo))
    && (hand.Some? ==>
          Unread(log, pos, hand.value)
          && forall i :: 0 <= i < |accepted| ==> accepted[i].head.seqNo < hand.value)
  }

  /** Only numbers below `n` have been written, read or accepted. */
  ghost predicate AllBelow(log: seq<Token>, accepted: seq<S.Accepted>, hand: Option<nat>, n: int) {
    && (forall p :: 0 <= p < |log| && CallHead(log[p]) ==> log[p].req.seqNo < n)
    && (forall i :: 0 <= i < |accepted| ==> accepted[i].head.seqNo < n)
    && (hand.Some? ==> hand.value < n)
  }

  // ----- responses -----

  /** A response that says success, to a call that wants its reply. */
  predicate ClaimsSuccess(sent: seq<Call>, h: ResponseHeader) {
    !h.IsPing() && h.errorMsg == "" && h.seqNo < |sent| && sent[h.seqNo].wantsReply
  }

  /** The request was accepted, and an error text in its answer is its own. */
  ghost predicate AnswerEarned(d: Served, h: ResponseHeader) {
    d.Accepts(h.seqNo) && (h.errorMsg != "" ==> d.Errored(h.seqNo, h.errorMsg))
  }

  ghost predicate RespTokenOk(sent: seq<Call>, d: Served, log: seq<Token>, p: nat)
    requires p < |log|
  {
    match log[p]
    case RespHead(h) =>
      && (!h.IsPing() ==> h.seqNo < |sent| && AnswerEarned(d, h))
      && (ClaimsSuccess(sent, h) ==>
            && (!h.HasData() ==> d.RefusedSilently(h.seqNo))
            && (h.HasData() && p + 1 < |log| && log[p + 1].Body? ==>
                  d.Returned(h.seqNo, log[p + 1].value)))
      && (h.HasData() && p + 1 < |log| ==> log[p + 1].Body?)
    case _ => true
  }

  ghost predicate RespLogOk(sent: seq<Call>, d: Served, log: seq<Token>) {
    forall p :: 0 <= p < |log| ==> RespTokenOk(sent, d, log, p)
  }

  /** The log does not end between a header and its body. */
  predicate EndsWhole(log: seq<Token>) {
    log == [] || !log[|log| - 1].RespHead? || !log[|log| - 1].resp.HasData()
  }

  /** The reader completed the call with it. */
  predicate FromResponse(o: C.Outcome) { o.Succeeded? || o.why.Remote? || o.why.BodyError? }

  ghost predicate SuccessOk(d: Served, k: nat, reply: Option<RpcTypes.Value>) {
    match reply
    case Some(v) => d.Returned(k, v)
    case None => d.RefusedSilently(k)
  }

  ghost predicate OutcomeOk(sent: seq<Call>, d: Served, k: nat, o: C.Outcome) {
    && (k < |sent| && sent[k].wantsReply && o.Succeeded? ==> SuccessOk(d, k, o.reply))
    && (k < |sent| && !sent[k].wantsReply && o.Succeeded? ==> o.reply.None?)
    && (FromResponse(o) ==> d.Accepts(k))
    && (o.Failed? && o.why.Remote? ==> o.why.msg != "" && d.Errored(k, o.why.msg))
  }

  ghost predicate ReaderOk(f: Facts) {
    match f.reader
    case GotHeader(h) => LastRead(f, h)
    case GotCall(h, who) => LastRead(f, h) && (who.Some? ==> who.value == h.seqNo)
    case Completing(idx, o, _) => OutcomeOk(f.sent, f.served, idx, o)
    case _ => true
  }

  predicate LastRead(f: Facts, h: ResponseHeader) {
    !h.IsPing() && f.respPos > 0 && f.respPos <= |f.respLog| && f.respLog[f.respPos - 1] == RespHead(h)
  }

  ghost predicate OutcomesOk(sent: seq<Call>, d: Served, outcomes: seq<seq<C.Outcome>>) {
    |outcomes| == |sent| &&
    forall k, j :: 0 <= k < |outcomes| && 0 <= j < |outcomes[k]| ==>
      OutcomeOk(sent, d, k, outcomes[k][j])
  }

  ghost predicate FactsInv(h: Handler, f: Facts) {
    && f.reqPos <= |f.reqLog| && f.respPos <= |f.respLog|
    && ReqLogOk(f.sent, f.reqLog) && HandOk(f) && ServedOk(h, f.sent, f.served)
    && RespLogOk(f.sent, f.served, f.respLog) && (f.broken || EndsWhole(f.respLog))
    && ReaderOk(f) && OutcomesOk(f.sent, f.served, f.outcomes)
    && OrderOk(f.reqLog, f.reqPos, f.served.accepted, HandNumber(f.loop))
    && AllBelow(f.reqLog, f.served.accepted, HandNumber(f.loop), f.limit)
  }

  // ----- everything said stays true -----

  /** Registering a call, accepting a request, a result or a rejection only adds to what is known. */
  ghost predicate Extends(d: Served, e: Served) {
    && d.accepted <= e.accepted
    && (forall i :: i in d.results ==> i in e.results && e.results[i] == d.results[i])
    && (forall i :: i in d.rejections ==> i in e.rejections && e.rejections[i] == d.rejections[i])
  }

  lemma StillReturned(d: Served, e: Served, k: nat, v: RpcTypes.Value)
    requires Extends(d, e) && d.Returned(k, v)
    ensures e.Returned(k, v)
  {
    var i :| 0 <= i < |d.accepted| && d.accepted[i].Work? && d.accepted[i].head.seqNo == k
             && i in d.results && d.results[i].reply == v && d.results[i].Text() == "";
    assert e.accepted[i] == d.accepted[i];
  }

  lemma StillRefused(d: Served, e: Served, k: nat)
    requires Extends(d, e) && d.RefusedSilently(k)
    ensures e.RefusedSilently(k)
  {
    var i :| 0 <= i < |d.accepted| && d.accepted[i].head.seqNo == k
             && (d.accepted[i] == S.Refused(d.accepted[i].head, "")
                 || (i in d.rejections && d.rejections[i] == ""));
    assert e.accepted[i] == d.accepted[i];
  }

  lemma StillAccepts(d: Served, e: Served, k: nat)
    requires Extends(d, e) && d.Accepts(k)
    ensures e.Accepts(k)
  {
    var i :| 0 <= i < |d.accepted| && d.accepted[i].head.seqNo == k;
    assert e.accepted[i] == d.accepted[i];
  }

  lemma StillErrored(d: Served, e: Served, k: nat, text: string)
    requires Extends(d, e) && d.Errored(k, text)
    ensures e.Errored(k, text)
  {
    var i :| 0 <= i < |d.accepted| && d.accepted[i].head.seqNo == k && d.ErroredAt(i, text);
    assert e.accepted[i] == d.accepted[i] && e.ErroredAt(i, text);
  }

  lemma StillEarned(d: Served, e: Served, h: ResponseHeader)
    requires Extends(d, e) && AnswerEarned(d, h)
    ensures AnswerEarned(e, h)
  {
    StillAccepts(d, e, h.seqNo);
    if h.errorMsg != "" {
      StillErrored(d, e, h.seqNo, h.errorMsg);
    }
  }

  lemma OutcomeStaysOk(sent: seq<Call>, d: Served, e: Served, k: nat, o: C.Outcome)
    requires Extends(d, e) && OutcomeOk(sent, d, k, o)
    ensures OutcomeOk(sent, e, k, o)
  {
    if FromResponse(o) {
      StillAccepts(d, e, k);
    }
    if o.Failed? && o.why.Remote? {
      StillErrored(d, e, k, o.why.msg);
    }
    if k < |sent| && sent[k].wantsReply && o.Succeeded? {
      match o.reply
      case Some(v) => StillReturned(d, e, k, v);
      case None => StillRefused(d, e, k);
    }
  }

  lemma RespTokenStaysOk(sent: seq<Call>, d: Served, e: Served, log: seq<Token>, p: nat)
    requires Extends(d, e) && p < |log| && RespTokenOk(sent, d, log, p)
    ensures RespTokenOk(sent, e, log, p)
  {
    if log[p].RespHead? && !log[p].resp.IsPing() {
      StillEarned(d, e, log[p].resp);
    }
    if log[p].RespHead? && ClaimsSuccess(sent, log[p].resp) {
      var k := log[p].resp.seqNo;
      if !log[p].resp.HasData() {
        StillRefused(d, e, k);
      } else if p + 1 < |log| && log[p + 1].Body? {
        StillReturned(d, e, k, log[p + 1].value);
      }
    }
  }

  lemma ServedMore(f: Facts, e: Served)
    requires Extends(f.served, e)
    requires RespLogOk(f.sent, f.served, f.respLog) && ReaderOk(f)
    requires OutcomesOk(f.sent, f.served, f.outcomes)
    ensures RespLogOk(f.sent, e, f.respLog) && ReaderOk(f.(served := e))
    ensures OutcomesOk(f.sent, e, f.outcomes)
  {
    forall p | 0 <= p < |f.respLog|
      ensures RespTokenOk(f.sent, e, f.respLog, p)
    {
      RespTokenStaysOk(f.sent, f.served, e, f.respLog, p);
    }
    forall k, j | 0 <= k < |f.outcomes| && 0 <= j < |f.outcomes[k]|
      ensures OutcomeOk(f.sent, e, k, f.outcomes[k][j])
    {
      OutcomeStaysOk(f.sent, f.served, e, k, f.outcomes[k][j]);
    }
    if f.reader.Completing? {
      OutcomeStaysOk(f.sent, f.served, e, f.reader.idx, f.reader.outcome);
    }
  }

  // ----- client steps -----

  /** Registering one more call contradicts nothing. */
  lemma RegisterKeepsFacts(h: Handler, f: Facts, c: Call, limit: int)
    requires FactsInv(h, f) && f.limit <= limit && (f.reader.Completing? ==> f.reader.idx < |f.sent|)
    ensures FactsInv(h, f.(sent := f.sent + [c], outcomes := f.outcomes + [[]], limit := limit))
  {
    var more := f.sent + [c];
    forall p | 0 <= p < |f.reqLog|
      ensures ReqTokenOk(more, f.reqLog, p)
    {
      assert ReqTokenOk(f.sent, f.reqLog, p);
    }
    forall p | 0 <= p < |f.respLog|
      ensures RespTokenOk(more, f.served, f.respLog, p)
    {
      assert RespTokenOk(f.sent, f.served, f.respLog, p);
    }
    forall i | 0 <= i < |f.served.accepted|
      ensures AcceptedOk(more, f.served.accepted[i])
    {
      assert AcceptedOk(f.sent, f.served.accepted[i]);
    }
    forall k, j | 0 <= k < |f.outcomes| && 0 <= j < |f.outcomes[k]|
      ensures OutcomeOk(more, f.served, k, f.outcomes[k][j])
    {
      assert OutcomeOk(f.sent, f.served, k, f.outcomes[k][j]);
    }
  }

  /** A request, or the part of it that got through, is appended to the wire. */
  lemma WriteRequestKeepsLog(sent: seq<Call>, log: seq<Token>, tokens: seq<Token>, idx: nat)
    requires ReqLogOk(sent, log) && idx < |sent|
    requires tokens <= Request(HeaderOf(sent[idx], idx), sent[idx].args).Tokens()
    ensures ReqLogOk(sent, log + tokens)
  {
    var head := HeaderOf(sent[idx], idx);
    forall p | 0 <= p < |log + tokens|
      ensures ReqTokenOk(sent, log + tokens, p)
    {
      if p < |log| {
        assert ReqTokenOk(sent, log, p);
      } else if p == |log| {
        assert (log + tokens)[p] == ReqHead(head);
      } else {
        assert p == |log| + 1;
        assert (log + tokens)[p - 1] == ReqHead(head);
        assert (log + tokens)[p] == Body(sent[idx].args.value);
      }
    }
  }

  lemma WritePingKeepsLog(sent: seq<Call>, log: seq<Token>)
    requires ReqLogOk(sent, log)
    ensures ReqLogOk(sent, log + [ReqHead(PING_REQUEST_HEADER)])
  {
    var more := log + [ReqHead(PING_REQUEST_HEADER)];
    forall p | 0 <= p < |more|
      ensures ReqTokenOk(sent, more, p)
    {
      if p < |log| {
        assert ReqTokenOk(sent, log, p);
      }
    }
  }

  /** What the body part of a response makes of its call is covered by the wire. */
  lemma BodyOutcomeOk(f: Facts, h: ResponseHeader, idx: nat, body: C.BodyRead)
    requires RespLogOk(f.sent, f.served, f.respLog) && LastRead(f, h) && idx == h.seqNo
    requires body.Value? ==> Next(f.respLog, f.respPos, Body(body.value))
    requires body.NoBody? ==> !h.HasData()
    requires body.Discarded? ==> h.errorMsg != "" || idx >= |f.sent| || !f.sent[idx].wantsReply
    requires body.Value? || body.Broken? ==> h.HasData()
    requires body.Value? && idx < |f.sent| ==> f.sent[idx].wantsReply
    ensures OutcomeOk(f.sent, f.served, idx, C.BodyOutcome(h, body))
  {
    assert RespTokenOk(f.sent, f.served, f.respLog, f.respPos - 1);
  }

  lemma WritingKeepsOrder(log: seq<Token>, pos: nat, accepted: seq<S.Accepted>, hand: Option<nat>,
                          tokens: seq<Token>, k: nat)
    requires OrderOk(log, pos, accepted, hand) && pos <= |log| && AllBelow(log, accepted, hand, k)
    requires forall p :: 0 <= p < |tokens| && CallHead(tokens[p]) ==> p == 0 && tokens[p].req.seqNo == k
    ensures OrderOk(log + tokens, pos, accepted, hand) && AllBelow(log + tokens, accepted, hand, k + 1)
  {
  }

  // ----- server steps -----

  /** Tokens of one answer. */
  ghost predicate AnswerCovered(sent: seq<Call>, d: Served, a: Answer) {
    var h := a.Head();
    && (!h.IsPing() ==> h.seqNo < |sent| && AnswerEarned(d, h))
    && (ClaimsSuccess(sent, h) ==>
          if a.Grouped? then d.Returned(h.seqNo, a.reply) else d.RefusedSilently(h.seqNo))
  }

  lemma AppendAnswer(sent: seq<Call>, d: Served, log: seq<Token>, a: Answer)
    requires RespLogOk(sent, d, log) && EndsWhole(log) && AnswerCovered(sent, d, a)
    ensures RespLogOk(sent, d, log + a.Tokens(false)) && EndsWhole(log + a.Tokens(false))
  {
    var more := log + a.Tokens(false);
    forall p | 0 <= p < |more|
      ensures RespTokenOk(sent, d, more, p)
    {
      if p < |log| {
        assert RespTokenOk(sent, d, log, p);
      }
    }
  }

  lemma {:induction false} AppendAnswers(sent: seq<Call>, d: Served, log: seq<Token>, answers: seq<Answer>)
    requires RespLogOk(sent, d, log) && EndsWhole(log)
    requires forall j :: 0 <= j < |answers| ==> AnswerCovered(sent, d, answers[j])
    ensures var more := log + AnswerStream(answers, false);
            RespLogOk(sent, d, more) && EndsWhole(more)
    decreases |answers|
  {
    if answers == [] {
      assert log + [] == log;
    } else {
      AppendAnswer(sent, d, log, answers[0]);
      AppendAnswers(sent, d, log + answers[0].Tokens(false), answers[1..]);
      assert log + answers[0].Tokens(false) + AnswerStream(answers[1..], false) ==
             log + (answers[0].Tokens(false) + AnswerStream(answers[1..], false));
    }
  }

  /** A broken wire shows a prefix of what was written. */
  lemma CutLog(sent: seq<Call>, d: Served, log: seq<Token>, tokens: seq<Token>, n: nat)
    requires RespLogOk(sent, d, log + tokens)
    ensures RespLogOk(sent, d, log + Prefix(tokens, n))
  {
    var whole, cut := log + tokens, log + Prefix(tokens, n);
    forall p | 0 <= p < |cut|
      ensures RespTokenOk(sent, d, cut, p)
    {
      assert RespTokenOk(sent, d, whole, p);
      assert cut[p] == whole[p];
      assert p + 1 < |cut| ==> cut[p + 1] == whole[p + 1];
    }
  }
}
