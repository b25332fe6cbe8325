// The end-to-end promise.
module SessionTheorems {
  import opened RpcTypes
  import opened Framing
  import opened Session
  import opened SessionFacts
  import opened SessionSafety
  import C = ClientMachine
  import S = ServerMachine
  import SS = ServerSafety
  import SR = ServerReads

  /** `result` came from running the handler of call `k`'s own method on its own arguments, for the
      very request the client sent for it. */
  ghost predicate OwnResult(h: Handler, x: State, k: nat, result: S.Result)
    requires k < |x.client.sent|
  {
    var call := x.client.sent[k];
    exists i ::
      && 0 <= i < |x.server.accepted| && i in x.server.results && x.server.results[i] == result
      && x.server.accepted[i].Work? && x.server.accepted[i].head == HeaderOf(call, k)
      && call.args == Some(x.server.accepted[i].arg)
      && h(call.serviceMethod, x.server.accepted[i].arg, result)
  }

  /** The server refused call `k` with an error whose text is empty, so that the response could not be
      told from a success. */
  ghost predicate RefusedWithoutText(x: State, k: nat) {
    exists i ::
      && 0 <= i < |x.server.accepted| && x.server.accepted[i].head.seqNo == k
      && (x.server.accepted[i] == S.Refused(x.server.accepted[i].head, "")
          || (i in x.server.log.rejections && x.server.log.rejections[i] == ""))
  }

  /** The handler of call `k` returned an error whose text is empty, so that doCallResponse could not tell
      it from none. */
  ghost predicate ErredWithoutText(x: State, k: nat) {
    exists i ::
      && 0 <= i < |x.server.accepted| && i in x.server.results
      && x.server.accepted[i].head.seqNo == k && x.server.results[i].err == Some("")
  }

  /** The call holds what the handler of its own method returned, without error, for its own arguments. */
  ghost predicate Delivered(h: Handler, x: State, k: nat, reply: Option<RpcTypes.Value>)
    requires k < |x.client.sent|
  {
    reply.Some? && OwnResult(h, x, k, S.Result(reply.value, None))
  }

  /** End to end: in every interleaving of the client's and the server's routines over the two wires,
      take a call that wants its reply and completes without error. It completes without a reply if and
      only if the server refused it with an empty error text. Otherwise it holds the reply of its own
      method's handler to its own arguments, and that handler returned no error or one without a text. So
      success means what it should if and only if neither of the two empty texts occurred. */
  lemma EndToEnd(h: Handler, x: State, repaired: bool, k: nat, j: nat)
    requires Reached(h, x, repaired) && k < |x.client.sent| && x.client.sent[k].wantsReply
    requires k < |x.client.outcomes| && j < |x.client.outcomes[k]| && x.client.outcomes[k][j].Succeeded?
    ensures var reply := x.client.outcomes[k][j].reply;
            && (reply.None? <==> RefusedWithoutText(x, k))
            && (reply.Some? ==> OwnResult(h, x, k, S.Result(reply.value, None))
                                || OwnResult(h, x, k, S.Result(reply.value, Some(""))))
            && (Delivered(h, x, k, reply) <==> !RefusedWithoutText(x, k) && !ErredWithoutText(x, k))
  {
    ReachedInv(h, x, repaired);
    var f := FactsOf(x);
    assert OutcomeOk(f.sent, f.served, k, f.outcomes[k][j]);
    match x.client.outcomes[k][j].reply
    case Some(v) =>
      OwnResultOf(h, x, k, v);
      RepliedNotRefused(h, x, repaired, k, v);
      OneResult(h, x, repaired, k, v);
    case None => RefusalOf(x, k);
  }

  lemma OwnResultOf(h: Handler, x: State, k: nat, v: RpcTypes.Value)
    requires FactsInv(h, FactsOf(x)) && k < |x.client.sent| && ServedBy(x.server).Returned(k, v)
    ensures OwnResult(h, x, k, S.Result(v, None)) || OwnResult(h, x, k, S.Result(v, Some("")))
  {
    var d := ServedBy(x.server);
    var i :| 0 <= i < |d.accepted| && d.accepted[i].Work? && d.accepted[i].head.seqNo == k
             && i in d.results && d.results[i].reply == v && d.results[i].Text() == "";
    assert AcceptedOk(x.client.sent, d.accepted[i]);
    assert d.results[i] == S.Result(v, None) || d.results[i] == S.Result(v, Some(""));
  }

  /** What was refused has no result. */
  lemma RefusedHasNoResult(h: Handler, x: State, repaired: bool, i: nat)
    requires Reached(h, x, repaired) && i in x.server.results && i < |x.server.accepted|
    ensures x.server.accepted[i].Work? && i !in x.server.log.rejections
  {
    ReachedInv(h, x, repaired);
    assert SS.KindInv(x.server);
  }

  /** So a call, which is accepted once, is not refused if it has a result. */
  lemma RepliedNotRefused(h: Handler, x: State, repaired: bool, k: nat, v: RpcTypes.Value)
    requires Reached(h, x, repaired) && ServedBy(x.server).Returned(k, v)
    ensures !RefusedWithoutText(x, k)
  {
    var d := ServedBy(x.server);
    var i :| 0 <= i < |d.accepted| && d.accepted[i].Work? && d.accepted[i].head.seqNo == k
             && i in d.results && d.results[i].reply == v && d.results[i].Text() == "";
    RefusedHasNoResult(h, x, repaired, i);
    forall r | 0 <= r < |d.accepted| && d.accepted[r].head.seqNo == k
      ensures r == i
    {
      AcceptedOnce(h, x, repaired, r, i);
    }
  }

  /** The result is the only one there is for the call, with an error or without. */
  lemma OneResult(h: Handler, x: State, repaired: bool, k: nat, v: RpcTypes.Value)
    requires Reached(h, x, repaired) && k < |x.client.sent|
    requires OwnResult(h, x, k, S.Result(v, None)) || OwnResult(h, x, k, S.Result(v, Some("")))
    ensures OwnResult(h, x, k, S.Result(v, None)) <==> !ErredWithoutText(x, k)
  {
    var err := if OwnResult(h, x, k, S.Result(v, None)) then None else Some("");
    var i :|
      && 0 <= i < |x.server.accepted| && i in x.server.results && x.server.results[i] == S.Result(v, err)
      && x.server.accepted[i].Work? && x.server.accepted[i].head == HeaderOf(x.client.sent[k], k)
      && x.client.sent[k].args == Some(x.server.accepted[i].arg)
      && h(x.client.sent[k].serviceMethod, x.server.accepted[i].arg, S.Result(v, err));
    forall r | 0 <= r < |x.server.accepted| && x.server.accepted[r].head.seqNo == k
      ensures r == i
    {
      AcceptedOnce(h, x, repaired, r, i);
    }
  }

  lemma RefusalOf(x: State, k: nat)
    requires ServedBy(x.server).RefusedSilently(k)
    ensures RefusedWithoutText(x, k)
  {
    var d := ServedBy(x.server);
    var i :| 0 <= i < |d.accepted| && d.accepted[i].head.seqNo == k
             && (d.accepted[i] == S.Refused(d.accepted[i].head, "")
                 || (i in d.rejections && d.rejections[i] == ""));
  }

  /** If every error the server or a handler reports has a text, success always means the handler's own
      reply. */
  lemma EndToEndWithTexts(h: Handler, x: State, repaired: bool, k: nat, j: nat)
    requires Reached(h, x, repaired) && k < |x.client.sent| && x.client.sent[k].wantsReply
    requires k < |x.client.outcomes| && j < |x.client.outcomes[k]| && x.client.outcomes[k][j].Succeeded?
    requires forall i :: 0 <= i < |x.server.accepted| && x.server.accepted[i].Refused? ==>
               x.server.accepted[i].text != ""
    requires forall i :: i in x.server.log.rejections ==> x.server.log.rejections[i] != ""
    requires forall i :: i in x.server.results ==> x.server.results[i].err != Some("")
    ensures Delivered(h, x, k, x.client.outcomes[k][j].reply)
  {
    EndToEnd(h, x, repaired, k, j);
  }

  /** The server refused call `k` with this text, or the call's handler returned it as its error. */
  ghost predicate ErroredWith(x: State, k: nat, text: string) {
    exists i ::
      && 0 <= i < |x.server.accepted| && x.server.accepted[i].head.seqNo == k
      && (|| x.server.accepted[i] == S.Refused(x.server.accepted[i].head, text)
          || (i in x.server.log.rejections && x.server.log.rejections[i] == text)
          || (i in x.server.results && x.server.results[i].err == Some(text)))
  }

  /** Errors are real: whatever the reader completes a call with, the server had accepted that very call;
      an error text that reaches the call, whether it wants its reply or not, is the one it was refused
      with or the one its own handler returned; and a call without a reply object gets none. */
  lemma ErrorsAreReal(h: Handler, x: State, repaired: bool, k: nat, j: nat)
    requires Reached(h, x, repaired) && k < |x.client.sent|
    requires k < |x.client.outcomes| && j < |x.client.outcomes[k]|
    ensures var o := x.client.outcomes[k][j];
            && (o.Succeeded? || o.why.Remote? || o.why.BodyError? ==>
                  exists i :: 0 <= i < |x.server.accepted| &&
                              x.server.accepted[i].head == HeaderOf(x.client.sent[k], k))
            && (o.Failed? && o.why.Remote? ==> o.why.msg != "" && ErroredWith(x, k, o.why.msg))
            && (o.Succeeded? && !x.client.sent[k].wantsReply ==> o.reply.None?)
  {
    ReachedInv(h, x, repaired);
    var f, o := FactsOf(x), x.client.outcomes[k][j];
    assert OutcomeOk(f.sent, f.served, k, o);
    if FromResponse(o) {
      AcceptedHead(h, x, k);
    }
    if o.Failed? && o.why.Remote? {
      ErrorOf(x, k, o.why.msg);
    }
  }

  lemma AcceptedHead(h: Handler, x: State, k: nat)
    requires FactsInv(h, FactsOf(x)) && ServedBy(x.server).Accepts(k) && k < |x.client.sent|
    ensures exists i :: 0 <= i < |x.server.accepted| &&
                        x.server.accepted[i].head == HeaderOf(x.client.sent[k], k)
  {
    var i :| 0 <= i < |x.server.accepted| && x.server.accepted[i].head.seqNo == k;
    assert AcceptedOk(x.client.sent, FactsOf(x).served.accepted[i]);
  }

  lemma ErrorOf(x: State, k: nat, text: string)
    requires ServedBy(x.server).Errored(k, text)
    ensures ErroredWith(x, k, text)
  {
    var d := ServedBy(x.server);
    var i :| 0 <= i < |d.accepted| && d.accepted[i].head.seqNo == k && d.ErroredAt(i, text);
  }

  /** So a call that wants its reply and was read its whole response fails if and only if the server or its
      handler had an error with a text, and then with that text. */
  lemma FailsExactlyWhenErred(h: Handler, x: State, repaired: bool, k: nat, j: nat)
    requires Reached(h, x, repaired) && k < |x.client.sent| && x.client.sent[k].wantsReply
    requires k < |x.client.outcomes| && j < |x.client.outcomes[k]|
    requires var o := x.client.outcomes[k][j]; o.Succeeded? || o.why.Remote?
    ensures forall text :: text != "" ==>
              (ErroredWith(x, k, text) <==> x.client.outcomes[k][j] == C.Failed(C.Remote(text)))
  {
    ErrorsAreReal(h, x, repaired, k, j);
    forall text | text != "" && ErroredWith(x, k, text)
      ensures x.client.outcomes[k][j] == C.Failed(C.Remote(text))
    {
      if x.client.outcomes[k][j].Succeeded? {
        SuccessHasNoText(h, x, repaired, k, j, text);
        assert false;
      } else {
        OneError(h, x, repaired, k, text, x.client.outcomes[k][j].why.msg);
      }
    }
  }

  /** A call has at most one error. */
  lemma OneError(h: Handler, x: State, repaired: bool, k: nat, a: string, b: string)
    requires Reached(h, x, repaired) && ErroredWith(x, k, a) && ErroredWith(x, k, b)
    ensures a == b
  {
    var p :| 0 <= p < |x.server.accepted| && x.server.accepted[p].head.seqNo == k
             && (|| x.server.accepted[p] == S.Refused(x.server.accepted[p].head, a)
                 || (p in x.server.log.rejections && x.server.log.rejections[p] == a)
                 || (p in x.server.results && x.server.results[p].err == Some(a)));
    var q :| 0 <= q < |x.server.accepted| && x.server.accepted[q].head.seqNo == k
             && (|| x.server.accepted[q] == S.Refused(x.server.accepted[q].head, b)
                 || (q in x.server.log.rejections && x.server.log.rejections[q] == b)
                 || (q in x.server.results && x.server.results[q].err == Some(b)));
    AcceptedOnce(h, x, repaired, p, q);
    OneKindOfError(h, x, repaired, p);
  }

  lemma OneKindOfError(h: Handler, x: State, repaired: bool, i: nat)
    requires Reached(h, x, repaired) && i < |x.server.accepted|
    ensures i in x.server.results ==> x.server.accepted[i].Work? && i !in x.server.log.rejections
    ensures i in x.server.log.rejections ==> x.server.accepted[i].Work?
  {
    ReachedInv(h, x, repaired);
    assert SS.KindInv(x.server);
  }

  lemma SuccessHasNoText(h: Handler, x: State, repaired: bool, k: nat, j: nat, text: string)
    requires Reached(h, x, repaired) && k < |x.client.sent| && x.client.sent[k].wantsReply
    requires k < |x.client.outcomes| && j < |x.client.outcomes[k]| && x.client.outcomes[k][j].Succeeded?
    requires ErroredWith(x, k, text)
    ensures text == ""
  {
    EndToEnd(h, x, repaired, k, j);
    match x.client.outcomes[k][j].reply
    case None =>
      RefusalIsError(x, k);
      OneError(h, x, repaired, k, text, "");
    case Some(v) => ReplyHasNoText(h, x, repaired, k, v, text);
  }

  lemma RefusalIsError(x: State, k: nat)
    requires RefusedWithoutText(x, k)
    ensures ErroredWith(x, k, "")
  {
    var i :| 0 <= i < |x.server.accepted| && x.server.accepted[i].head.seqNo == k
             && (x.server.accepted[i] == S.Refused(x.server.accepted[i].head, "")
                 || (i in x.server.log.rejections && x.server.log.rejections[i] == ""));
  }

  lemma ReplyHasNoText(h: Handler, x: State, repaired: bool, k: nat, v: RpcTypes.Value, text: string)
    requires Reached(h, x, repaired) && k < |x.client.sent| && ErroredWith(x, k, text)
    requires OwnResult(h, x, k, S.Result(v, None)) || OwnResult(h, x, k, S.Result(v, Some("")))
    ensures text == ""
  {
    var i :| 0 <= i < |x.server.accepted| && i in x.server.results
             && (x.server.results[i] == S.Result(v, None) || x.server.results[i] == S.Result(v, Some("")))
             && x.server.accepted[i].head == HeaderOf(x.client.sent[k], k);
    var p :| 0 <= p < |x.server.accepted| && x.server.accepted[p].head.seqNo == k
             && (|| x.server.accepted[p] == S.Refused(x.server.accepted[p].head, text)
                 || (p in x.server.log.rejections && x.server.log.rejections[p] == text)
                 || (p in x.server.results && x.server.results[p].err == Some(text)));
    AcceptedOnce(h, x, repaired, i, p);
    OneKindOfError(h, x, repaired, i);
  }

  /** Where the first exception comes from: a refusal looks like a success to the reader exactly when its
      text is empty. */
  lemma RefusalLooksFineIffSilent(req: RequestHeader, text: string)
    requires !req.IsPing()
    ensures var head := Direct(req, text).Head();
            !head.HasData() && (C.BodyOutcome(head, C.NoBody).Succeeded? <==> text == "")
  {
  }

  /** The server accepts calls in the order in which the client registered them, each at most once. */
  lemma AcceptedOnceInOrder(h: Handler, x: State, repaired: bool, i: nat, j: nat)
    requires Reached(h, x, repaired) && i < j < |x.server.accepted|
    ensures x.server.accepted[i].head.seqNo < x.server.accepted[j].head.seqNo < |x.client.sent|
  {
    ReachedInv(h, x, repaired);
    assert AcceptedOk(x.client.sent, FactsOf(x).served.accepted[j]);
  }

  lemma AcceptedOnce(h: Handler, x: State, repaired: bool, i: nat, j: nat)
    requires Reached(h, x, repaired) && i < |x.server.accepted| && j < |x.server.accepted|
    requires x.server.accepted[i].head.seqNo == x.server.accepted[j].head.seqNo
    ensures i == j
  {
    if i < j {
      AcceptedOnceInOrder(h, x, repaired, i, j);
    } else if j < i {
      AcceptedOnceInOrder(h, x, repaired, j, i);
    }
  }

  // ----- the server's own runs -----

  function ServerPart(acts: seq<Action>): seq<S.Action> {
    if acts == [] then []
    else (match acts[0] case ByServer(a, _) => [a] case ByClient(_, _) => []) + ServerPart(acts[1..])
  }

  lemma {:induction false} ServerRuns(h: Handler, x: State, acts: seq<Action>)
    requires CanRun(h, x, acts)
    ensures S.CanRun(x.server, ServerPart(acts))
    ensures S.After(x.server, ServerPart(acts)) == After(h, x, acts).server
    decreases |acts|
  {
    if acts != [] {
      ServerRuns(h, Apply(h, x, acts[0]), acts[1..]);
      match acts[0]
      case ByServer(a, _) => assert ([a] + ServerPart(acts[1..]))[1..] == ServerPart(acts[1..]);
      case ByClient(_, _) => assert [] + ServerPart(acts[1..]) == ServerPart(acts[1..]);
    }
  }

  /** So what holds of every run of a server connection holds in a session. */
  lemma ServerReached(h: Handler, x: State, repaired: bool)
    requires Reached(h, x, repaired)
    ensures S.Reached(x.server)
  {
    var acts :| && CanRun(h, Initial(repaired), acts) && FewCalls(h, Initial(repaired), acts)
                && After(h, Initial(repaired), acts) == x;
    ServerRuns(h, Initial(repaired), acts);
  }

  /** At most once: for one call at most one handler is ever started, whether the call wants its reply or
      not, and whatever is written twice, fails or arrives late. */
  lemma ExecutedAtMostOnce(h: Handler, x: State, repaired: bool, p: nat, q: nat)
    requires Reached(h, x, repaired)
    requires p < |x.server.log.executed| && q < |x.server.log.executed|
    ensures var i, j := x.server.log.executed[p], x.server.log.executed[q];
            && i < |x.server.accepted| && j < |x.server.accepted|
            && (x.server.accepted[i].head.seqNo == x.server.accepted[j].head.seqNo ==> p == q)
  {
    ServerReached(h, x, repaired);
    SR.ReachedInv(x.server);
    var i, j := x.server.log.executed[p], x.server.log.executed[q];
    if x.server.accepted[i].head.seqNo == x.server.accepted[j].head.seqNo {
      AcceptedOnce(h, x, repaired, i, j);
    }
  }
}
