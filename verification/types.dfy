// Headers, flags, tokens and calls shared by both ends of the connection (rpc/type.go, rpc/call.go).
module RpcTypes {

  datatype Option<+T> = None | Some(value: T)

  /** An encoded argument or reply; what is inside is the codec's business. */
  datatype Value = Value(bytes: seq<bv8>)

  const TWO_TO_THE_64: nat := 0x1_0000_0000_0000_0000

  const PING_METHOD: string := "ping"

  // `1 << iota` starts counting at the first line of the const block, so the flags are 2 and 4.
  const REQUEST_FLAG_PING: bv32 := 2
  const REQUEST_FLAG_DUMMY_RETURN: bv32 := 4
  const RESPONSE_FLAG_PING: bv32 := 2
  const RESPONSE_FLAG_NO_DATA: bv32 := 4

  /** Both batching loops take at most this many calls after the first one. */
  const UNITE_PACKAGE_NUM: nat := 100

  datatype RequestHeader = RequestHeader(serviceMethod: string, seqNo: nat, flag: bv32) {
    predicate IsPing() { flag & REQUEST_FLAG_PING != 0 }

    predicate DummyReturn() { flag & REQUEST_FLAG_DUMMY_RETURN != 0 }
  }

  datatype ResponseHeader =
    ResponseHeader(serviceMethod: string, seqNo: nat, errorMsg: string, flag: bv32) {
    predicate IsPing() { flag & RESPONSE_FLAG_PING != 0 }

    predicate HasData() { flag & RESPONSE_FLAG_NO_DATA == 0 }
  }

  /** The header every connection-generated ping carries; it reuses sequence number 0. */
  const PING_REQUEST_HEADER: RequestHeader := RequestHeader(PING_METHOD, 0, REQUEST_FLAG_PING)

  /** What a gob stream is made of: one token per Encode. */
  datatype Token = ReqHead(req: RequestHeader) | RespHead(resp: ResponseHeader) | Body(value: Value)

  /** One submission of a call. `id` tells two submissions apart even if they reuse a pooled object. */
  datatype Call = Call(id: nat, serviceMethod: string, args: Option<Value>, wantsReply: bool)

  /** makeRequestHeader's header for the call registered under `key`. */
  function HeaderOf(call: Call, key: nat): (h: RequestHeader)
    ensures h.seqNo == key && h.serviceMethod == call.serviceMethod
    ensures h.IsPing() <==> call.serviceMethod == "ping"
    ensures h.DummyReturn() <==> !call.wantsReply
    ensures h.flag == (if call.wantsReply then 0 else 4) | (if call.serviceMethod == "ping" then 2 else 0)
  {
    var dummy := if call.wantsReply then 0 else REQUEST_FLAG_DUMMY_RETURN;
    var ping := if call.serviceMethod == PING_METHOD then REQUEST_FLAG_PING else 0;
    RequestHeader(call.serviceMethod, key, dummy | ping)
  }

  /** makeRespHeader: an error text suppresses the reply, and no reply sets NoData. */
  function RespHeaderOf(req: RequestHeader, reply: Option<Value>, errmsg: string): (h: ResponseHeader)
    ensures h.seqNo == req.seqNo && h.serviceMethod == req.serviceMethod && h.errorMsg == errmsg
    ensures h.IsPing() <==> req.IsPing()
    ensures h.HasData() <==> reply.Some? && errmsg == ""
    ensures h.flag == (if req.IsPing() then 2 else 0) | (if reply.Some? && errmsg == "" then 0 else 4)
  {
    var ping := if req.IsPing() then RESPONSE_FLAG_PING else 0;
    var noData := if errmsg != "" || reply.None? then RESPONSE_FLAG_NO_DATA else 0;
    ResponseHeader(req.serviceMethod, req.seqNo, errmsg, ping | noData)
  }
}
