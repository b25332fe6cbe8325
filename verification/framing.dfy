// Who writes a body and who reads one. Sender and receiver decide separately, so a stream stays
// readable only while the two decisions agree.
module Framing {
  import opened RpcTypes

  // ----- responses: the server writes, the client reads -----

  /** One answer of the server: a SendResponse call (its reply is always nil) or one member of a
      SendGroupResponse group (its reply object is never nil, whatever the handler returned). */
  datatype Answer =
    | Direct(req: RequestHeader, errmsg: string)
    | Grouped(req: RequestHeader, reply: Value, errmsg: string)
  {
    function Head(): ResponseHeader {
      RespHeaderOf(req, if Direct? then None else Some(reply), errmsg)
    }

    /** The body handed to WriteResponse. With `suppress` the group writer honours its own NoData flag. */
    function BodyWritten(suppress: bool): Option<Value> {
      if Direct? || (suppress && !Head().HasData()) then None else Some(reply)
    }

    /** Whether the client reads a body after this answer's header. */
    predicate BodyExpected() { !Head().IsPing() && Head().HasData() }

    predicate Misframed(suppress: bool) { BodyWritten(suppress).Some? != BodyExpected() }

    function Tokens(suppress: bool): seq<Token> {
      [RespHead(Head())] + match BodyWritten(suppress) case None => [] case Some(v) => [Body(v)]
    }

    function Understood(): Received {
      Received(Head(), if Grouped? && BodyExpected() then Some(reply) else None)
    }
  }

  function AnswerStream(answers: seq<Answer>, suppress: bool): seq<Token> {
    if answers == [] then []
    else answers[0].Tokens(suppress) + AnswerStream(answers[1..], suppress)
  }

  /** What the client made of one response. */
  datatype Received = Received(head: ResponseHeader, body: Option<Value>)

  /** Everything read up to the end of the stream (`clean`) or up to the first read error. */
  datatype ReadLog<T> = ReadLog(got: seq<T>, clean: bool) {
    function After(first: T): ReadLog<T> { ReadLog([first] + got, clean) }
  }

  /** RoutineReadResponse as a consumer of tokens: a token of the wrong kind is a read error. */
  function ReadResponses(tokens: seq<Token>): ReadLog<Received> {
    if tokens == [] then ReadLog([], true)
    else if !tokens[0].RespHead? then ReadLog([], false)
    else
      var h := tokens[0].resp;
      if h.IsPing() || !h.HasData() then ReadResponses(tokens[1..]).After(Received(h, None))
      else if |tokens| < 2 || !tokens[1].Body? then ReadLog([], false)
      else ReadResponses(tokens[2..]).After(Received(h, Some(tokens[1].value)))
  }

  function Understanding(answers: seq<Answer>): (r: seq<Received>)
    ensures |r| == |answers|
  {
    seq(|answers|, i requires 0 <= i < |answers| => answers[i].Understood())
  }

  /** Index of the first answer whose body is written but not read or read but not written. */
  function FirstMisframed(answers: seq<Answer>, suppress: bool): (k: nat)
    ensures k <= |answers|
    ensures k < |answers| ==> answers[k].Misframed(suppress)
    ensures forall i :: 0 <= i < k ==> !answers[i].Misframed(suppress)
  {
    if answers == [] || answers[0].Misframed(suppress) then 0
    else 1 + FirstMisframed(answers[1..], suppress)
  }

  /** What the client makes of a list of answers, said without a token stream: it goes on until the
      first misframed answer and stops there. */
  function Legible(answers: seq<Answer>, suppress: bool): ReadLog<Received> {
    if answers == [] then ReadLog([], true)
    else if answers[0].Misframed(suppress) then ReadLog([answers[0].Understood()], false)
    else Legible(answers[1..], suppress).After(answers[0].Understood())
  }

  lemma {:induction false} ReadResponsesIsLegible(answers: seq<Answer>, suppress: bool)
    ensures ReadResponses(AnswerStream(answers, suppress)) == Legible(answers, suppress)
  {
    if answers == [] {
    } else {
      var stream := AnswerStream(answers[1..], suppress);
      if answers[0].Misframed(suppress) {
        ReadStrayBody(answers[0], stream, suppress);
      } else {
        ReadResponsesIsLegible(answers[1..], suppress);
        ReadOneAnswer(answers[0], stream, suppress);
      }
    }
  }

  lemma {:induction false} LegibleUpToFirstMisframed(answers: seq<Answer>, suppress: bool)
    ensures var k := FirstMisframed(answers, suppress);
            Legible(answers, suppress) ==
            if k == |answers| then ReadLog(Understanding(answers), true)
            else ReadLog(Understanding(answers[..k + 1]), false)
  {
    if answers == [] {
    } else if answers[0].Misframed(suppress) {
      assert Understanding(answers[..1]) == [answers[0].Understood()];
    } else {
      var rest := answers[1..];
      LegibleUpToFirstMisframed(rest, suppress);
      var k := FirstMisframed(rest, suppress);
      var n := if k == |rest| then k else k + 1;
      assert answers[..|rest| + 1] == answers && rest[..|rest|] == rest;
      UnderstandingStep(answers, n);
    }
  }

  /** The client understands every answer up to and including the first misframed one, and then
      takes that answer's stray body for a header and stops. */
  lemma {:induction false} ReadResponsesExactly(answers: seq<Answer>, suppress: bool)
    ensures var k := FirstMisframed(answers, suppress);
            ReadResponses(AnswerStream(answers, suppress)) ==
            if k == |answers| then ReadLog(Understanding(answers), true)
            else ReadLog(Understanding(answers[..k + 1]), false)
  {
    ReadResponsesIsLegible(answers, suppress);
    LegibleUpToFirstMisframed(answers, suppress);
  }

  lemma UnderstandingStep(answers: seq<Answer>, n: nat)
    requires n + 1 <= |answers|
    ensures Understanding(answers[..n + 1]) == [answers[0].Understood()] + Understanding(answers[1..][..n])
  {
  }

  lemma ReadStrayBody(a: Answer, stream: seq<Token>, suppress: bool)
    requires a.Misframed(suppress)
    ensures ReadResponses(a.Tokens(suppress) + stream) == ReadLog([a.Understood()], false)
  {
    var tokens := a.Tokens(suppress) + stream;
    assert tokens == [RespHead(a.Head()), Body(a.reply)] + stream;
    assert ReadResponses(tokens[1..]) == ReadLog([], false);
  }

  lemma ReadOneAnswer(a: Answer, stream: seq<Token>, suppress: bool)
    requires !a.Misframed(suppress)
    ensures ReadResponses(a.Tokens(suppress) + stream) == ReadResponses(stream).After(a.Understood())
  {
    var tokens := a.Tokens(suppress) + stream;
    if a.BodyExpected() {
      assert tokens == [RespHead(a.Head()), Body(a.reply)] + stream;
      assert tokens[2..] == stream;
    } else {
      assert tokens == [RespHead(a.Head())] + stream;
      assert tokens[1..] == stream;
    }
  }

  /** As written: the stream is read back whole exactly when no group member carries a handler
      error (and, as the server guarantees, none answers a ping). */
  lemma {:induction false} ResponseRoundTrip(answers: seq<Answer>)
    ensures ReadResponses(AnswerStream(answers, false)) == ReadLog(Understanding(answers), true)
       <==> forall a :: a in answers && a.Grouped? ==> a.errmsg == "" && !a.req.IsPing()
  {
    ReadResponsesExactly(answers, false);
    var k := FirstMisframed(answers, false);
    if k == |answers| {
      forall a | a in answers && a.Grouped?
        ensures a.errmsg == "" && !a.req.IsPing()
      {
        var i :| 0 <= i < |answers| && answers[i] == a;
        assert !answers[i].Misframed(false);
      }
    } else {
      assert answers[k] in answers;
    }
  }

  /** Once the group writer honours NoData, handler errors no longer matter. */
  lemma {:induction false} RepairedResponseRoundTrip(answers: seq<Answer>)
    requires forall a :: a in answers && a.Grouped? ==> !a.req.IsPing()
    ensures ReadResponses(AnswerStream(answers, true)) == ReadLog(Understanding(answers), true)
  {
    ReadResponsesExactly(answers, true);
    var k := FirstMisframed(answers, true);
    if k < |answers| {
      assert false;
    }
  }

  /** The smallest failing stream: one handler error. The client gets its header and then stops,
      although everything it was sent had been answered. */
  lemma HandlerErrorBreaksFraming(req: RequestHeader, reply: Value, errmsg: string)
    requires !req.IsPing() && errmsg != ""
    ensures var a := Grouped(req, reply, errmsg);
            ReadResponses(AnswerStream([a], false)) == ReadLog([Received(a.Head(), None)], false)
  {
    var a := Grouped(req, reply, errmsg);
    ReadResponsesExactly([a], false);
    assert FirstMisframed([a], false) == 0;
    assert [a][..1] == [a];
  }

  // ----- requests: the client writes, the server reads -----

  datatype Request = Request(head: RequestHeader, args: Option<Value>) {
    function Tokens(): seq<Token> {
      [ReqHead(head)] + match args case None => [] case Some(v) => [Body(v)]
    }

    predicate WellFramed() { args.None? <==> head.IsPing() }

    function Consumed(): Consumption {
      Consumption(head, match args case None => None case Some(v) => Some(Body(v)))
    }
  }

  function RequestStream(requests: seq<Request>): seq<Token> {
    if requests == [] then [] else requests[0].Tokens() + RequestStream(requests[1..])
  }

  /** What the server took off the wire for one request. */
  datatype Consumption = Consumption(head: RequestHeader, body: Option<Token>)

  /** ReadRequest as a consumer of tokens. Any header without the ping flag costs one more token: a
      known method decodes it, an unknown one discards it, and a token that does not decode is used
      up all the same and answered with an error. */
  function ReadRequests(tokens: seq<Token>): ReadLog<Consumption> {
    if tokens == [] then ReadLog([], true)
    else if !tokens[0].ReqHead? then ReadLog([], false)
    else
      var h := tokens[0].req;
      if h.IsPing() then ReadRequests(tokens[1..]).After(Consumption(h, None))
      else if |tokens| < 2 then ReadLog([], false)
      else ReadRequests(tokens[2..]).After(Consumption(h, Some(tokens[1])))
  }

  function Consumptions(requests: seq<Request>): (r: seq<Consumption>)
    ensures |r| == |requests|
  {
    seq(|requests|, i requires 0 <= i < |requests| => requests[i].Consumed())
  }

  /** The server takes exactly the tokens the client wrote for each request if and only if each
      request has nil arguments exactly when its ping flag is set. */
  lemma {:induction false} RequestRoundTrip(requests: seq<Request>)
    ensures ReadRequests(RequestStream(requests)) == ReadLog(Consumptions(requests), true)
       <==> forall r :: r in requests ==> r.WellFramed()
  {
    if requests == [] {
    } else {
      var r, rest := requests[0], requests[1..];
      var stream := RequestStream(rest);
      assert requests == [r] + rest;
      assert Consumptions(requests) == [r.Consumed()] + Consumptions(rest);
      RequestRoundTrip(rest);
      if r.WellFramed() {
        var tokens := r.Tokens() + stream;
        assert if r.args.Some? then tokens[2..] == stream else tokens[1..] == stream;
        var log, want := ReadRequests(stream), Consumptions(rest);
        assert ReadRequests(tokens) == log.After(r.Consumed());
        assert ([r.Consumed()] + log.got)[1..] == log.got;
        assert ([r.Consumed()] + want)[1..] == want;
      } else {
        MisframedRequestIsMisread(r, stream);
        assert r in requests;
      }
    }
  }

  lemma MisframedRequestIsMisread(r: Request, stream: seq<Token>)
    requires !r.WellFramed()
    ensures var log := ReadRequests(r.Tokens() + stream);
            log.got == [] || log.got[0] != r.Consumed()
  {
    var tokens := r.Tokens() + stream;
    assert tokens[0] == ReqHead(r.head);
  }

  /** For requests the client makes out of calls, that means: arguments are nil exactly for the
      method named "ping". */
  lemma {:induction false} ClientRequestRoundTrip(calls: seq<Call>, requests: seq<Request>)
    requires |requests| == |calls|
    requires forall i :: 0 <= i < |calls| ==> requests[i] == Request(HeaderOf(calls[i], i), calls[i].args)
    ensures ReadRequests(RequestStream(requests)) == ReadLog(Consumptions(requests), true)
       <==> forall c :: c in calls ==> (c.args.None? <==> c.serviceMethod == PING_METHOD)
  {
    RequestRoundTrip(requests);
    forall i | 0 <= i < |calls|
      ensures requests[i].WellFramed() <==>
              (calls[i].args.None? <==> calls[i].serviceMethod == PING_METHOD)
    {
    }
    if forall r :: r in requests ==> r.WellFramed() {
      forall c | c in calls
        ensures c.args.None? <==> c.serviceMethod == PING_METHOD
      {
        var i :| 0 <= i < |calls| && calls[i] == c;
        assert requests[i] in requests;
      }
    } else {
      var r :| r in requests && !r.WellFramed();
      var i :| 0 <= i < |requests| && requests[i] == r;
      assert calls[i] in calls;
    }
  }
}
