// TGobCodec of rpc/codec.go: two encoders' worth of tokens in a buffered writer. How the encoder and
// the connection behave is an argument; a failing Encode leaves no token behind.
module GobCodec {
  import opened RpcTypes
  import opened Framing

  /** How one write fares: does the header encode, does the body, does a flush get through. */
  datatype Fate = Fate(headOk: bool, bodyOk: bool, flushOk: bool) {
    predicate Ok() { headOk && bodyOk }

    /** The write of a request with these arguments succeeds. */
    predicate Writes(args: Option<Value>) { headOk && (args.Some? ==> bodyOk) }
  }

  class Codec {
    var wire: seq<Token>       // reached the connection
    var buffered: seq<Token>   // in encBuf
    var closed: bool
    var closes: nat            // how often the connection itself was closed

    /** The connection is closed exactly once, by the first Close. */
    ghost predicate Valid()
      reads this
    {
      closes == if closed then 1 else 0
    }

    ghost function Written(): seq<Token>
      reads this
    {
      wire + buffered
    }

    constructor ()
      ensures Valid() && fresh(this) && Written() == [] && !closed
    {
      wire, buffered, closed, closes := [], [], false, 0;
    }

    method Flush(flushOk: bool) returns (ok: bool)
      modifies this`wire, this`buffered
      ensures ok == flushOk && Written() == old(Written())
      ensures flushOk ==> wire == old(Written()) && buffered == []
      ensures !flushOk ==> wire == old(wire)
    {
      if flushOk {
        wire, buffered := wire + buffered, [];
      }
      ok := flushOk;
    }

    method Close()
      requires Valid()
      modifies this`closed, this`closes
      ensures Valid() && closed
    {
      if !closed {
        closed := true;
        closes := closes + 1;
      }
    }

    /** WriteRequest: the tokens of the request, or the part before the encoding that failed. */
    method WriteRequest(head: RequestHeader, args: Option<Value>, fate: Fate) returns (ok: bool)
      requires Valid()
      modifies this`buffered
      ensures Valid()
      ensures ok <==> fate.Writes(args)
      ensures ok ==> Written() == old(Written()) + Request(head, args).Tokens()
      ensures !ok ==> Written() == old(Written()) + if fate.headOk then [ReqHead(head)] else []
      ensures wire == old(wire)
    {
      if !fate.headOk {
        return false;
      }
      buffered := buffered + [ReqHead(head)];
      if args.Some? {
        if !fate.bodyOk {
          return false;
        }
        buffered := buffered + [Body(args.value)];
      }
      return true;
    }

    /** What WriteResponse does when an Encode fails: what is buffered goes out, and then the
        connection is closed. */
    method GiveUp(flushOk: bool)
      requires Valid()
      modifies this
      ensures Valid() && Written() == old(Written())
      ensures closed == (old(closed) || flushOk)
      ensures flushOk ==> wire == old(Written()) && buffered == []
      ensures !flushOk ==> wire == old(wire)
    {
      var flushed := Flush(flushOk);
      if flushed {
        Close();
      }
    }

    method WriteResponse(head: ResponseHeader, body: Option<Value>, fate: Fate) returns (ok: bool)
      requires Valid()
      modifies this
      ensures Valid()
      ensures ok <==> fate.headOk && (body.Some? ==> fate.bodyOk)
      ensures Written() == old(Written()) +
                (if fate.headOk then [RespHead(head)] else []) +
                (if ok && body.Some? then [Body(body.value)] else [])
      ensures closed == (old(closed) || (!ok && fate.flushOk))
      ensures !ok && fate.flushOk ==> wire == Written() && buffered == []
      ensures ok || !fate.flushOk ==> wire == old(wire)
    {
      if !fate.headOk {
        GiveUp(fate.flushOk);
        return false;
      }
      buffered := buffered + [RespHead(head)];
      if body.Some? {
        if !fate.bodyOk {
          GiveUp(fate.flushOk);
          return false;
        }
        buffered := buffered + [Body(body.value)];
      }
      return true;
    }
  }

  lemma {:induction false} AnswerStreamGrows(answers: seq<Answer>, a: Answer, suppress: bool)
    ensures AnswerStream(answers + [a], suppress) == AnswerStream(answers, suppress) + a.Tokens(suppress)
  {
    if answers == [] {
      assert [a][1..] == [];
    } else {
      assert (answers + [a])[1..] == answers[1..] + [a];
      AnswerStreamGrows(answers[1..], a, suppress);
    }
  }

  lemma {:induction false} RequestStreamGrows(requests: seq<Request>, r: Request)
    ensures RequestStream(requests + [r]) == RequestStream(requests) + r.Tokens()
  {
    if requests == [] {
      assert [r][1..] == [];
    } else {
      assert (requests + [r])[1..] == requests[1..] + [r];
      RequestStreamGrows(requests[1..], r);
    }
  }
}
