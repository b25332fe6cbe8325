// A client connection and a server connection joined by two FIFO wires. A wire is the log of all
// tokens handed to the encoder, with the position up to which the other side has read: a token may
// be read as soon as it is written, since a full buffer writes through before any Flush.
module Session {
  import opened RpcTypes
  import opened Framing
  import C = ClientMachine
  import S = ServerMachine

  /** What a handler may do: method, argument and outcome. Handlers may keep state, so this is a
      relation. */
  type Handler = (string, RpcTypes.Value, S.Result) -> bool

  datatype State = State(
    client: C.State,
    server: S.State,
    reqLog: seq<Token>, reqPos: nat,
    respLog: seq<Token>, respPos: nat,
    broken: bool                    // nothing the server writes reaches the wire any more
  )

  function Initial(repaired: bool): State {
    State(C.Initial(repaired), S.Initial(), [], 0, [], 0, false)
  }

  /** `cut`: how many tokens get through when a write fails, or whether a failed read used one up. */
  datatype Action =
    | ByClient(c: C.Action, cut: nat)
    | ByServer(s: S.Action, cut: nat)

  function Prefix(tokens: seq<Token>, n: nat): seq<Token> {
    if n <= |tokens| then tokens[..n] else tokens
  }

  // ----- what each side writes -----

  /** The header of a registered call under its key, and its arguments if it has any. */
  function RequestTokens(sent: seq<Call>, e: C.Entry): (tokens: seq<Token>)
    ensures e.idx < |sent| ==>
              var call := sent[e.idx];
              tokens == [ReqHead(HeaderOf(call, e.key))] + if call.args.Some? then [Body(call.args.value)] else []
  {
    if e.idx < |sent| then Request(HeaderOf(sent[e.idx], e.key), sent[e.idx].args).Tokens() else []
  }

  function ClientWrites(c: C.State, a: C.Action, cut: nat): seq<Token>
    requires C.Enabled(c, a)
  {
    match a
    case WriteOne(ok) =>
      var tokens := RequestTokens(c.sent, c.writer.group[c.writer.next]);
      if ok then tokens else Prefix(tokens, cut)
    case PingWrite(ok) => if ok then [ReqHead(PING_REQUEST_HEADER)] else []
    case _ => []
  }

  function ServerAnswersNow(s: S.State, a: S.Action): seq<Answer>
    requires S.Enabled(s, a)
  {
    match a
    case PingReply => [Direct(s.loop.head, "")]
    case Reply => [Direct(s.accepted[s.loop.who].head, s.loop.text)]
    case LoopSend => S.GroupAnswers(s, s.loop.group)
    case WSend => S.GroupAnswers(s, s.writer.group)
    case _ => []
  }

  function ServerWrites(s: S.State, a: S.Action): seq<Token>
    requires S.Enabled(s, a)
  {
    AnswerStream(ServerAnswersNow(s, a), false)
  }

  // ----- what each side may read -----

  predicate Next(log: seq<Token>, pos: nat, t: Token) { pos < |log| && log[pos] == t }

  predicate ClientReadOk(log: seq<Token>, pos: nat, a: C.Action) {
    match a
    case ReadPing(h) => Next(log, pos, RespHead(h))
    case ReadHeader(h) => Next(log, pos, RespHead(h))
    case FinishBody(body) =>
      (match body
       case Value(v) => Next(log, pos, Body(v))
       case Discarded => pos < |log|
       case _ => true)
    case _ => true
  }

  function ClientReads(a: C.Action): nat {
    match a
    case ReadPing(_) => 1
    case ReadHeader(_) => 1
    case FinishBody(body) => if body.Value? || body.Discarded? then 1 else 0
    case _ => 0
  }

  predicate ServerReadOk(log: seq<Token>, pos: nat, a: S.Action, cut: nat) {
    match a
    case ReadHead(h, _, _) => Next(log, pos, ReqHead(h))
    case ReadBody(v, _) => Next(log, pos, Body(v))
    case BodyFails(_) => cut <= 1 && pos + cut <= |log|
    case Discard => cut <= 1 && pos + cut <= |log|
    case _ => true
  }

  function ServerReads(a: S.Action, cut: nat): nat {
    match a
    case ReadHead(_, _, _) => 1
    case ReadBody(_, _) => 1
    case BodyFails(_) => cut
    case Discard => cut
    case _ => 0
  }

  /** A worker returns something the handler of its own request can return. */
  predicate HandlerAllows(h: Handler, s: S.State, a: S.Action) {
    a.Return? && a.who < |s.accepted| && s.accepted[a.who].Work? ==>
      h(s.accepted[a.who].head.serviceMethod, s.accepted[a.who].arg, a.result)
  }

  predicate Enabled(h: Handler, x: State, a: Action) {
    match a
    case ByClient(c, _) => C.Enabled(x.client, c) && ClientReadOk(x.respLog, x.respPos, c)
    case ByServer(s, cut) =>
      S.Enabled(x.server, s) && ServerReadOk(x.reqLog, x.reqPos, s, cut) && HandlerAllows(h, x.server, s)
  }

  function ClientDoes(x: State, a: C.Action, cut: nat): State
    requires C.Enabled(x.client, a)
  {
    x.(client := C.Apply(x.client, a), reqLog := x.reqLog + ClientWrites(x.client, a, cut),
       respPos := x.respPos + ClientReads(a))
  }

  function ServerDoes(x: State, a: S.Action, cut: nat): State
    requires S.Enabled(x.server, a)
  {
    var tokens := ServerWrites(x.server, a);
    x.(server := S.Apply(x.server, a), reqPos := x.reqPos + ServerReads(a, cut),
       respLog := if x.broken then x.respLog else x.respLog + Prefix(tokens, cut),
       broken := x.broken || cut < |tokens|)
  }

  function Apply(h: Handler, x: State, a: Action): State
    requires Enabled(h, x, a)
  {
    match a
    case ByClient(c, cut) => ClientDoes(x, c, cut)
    case ByServer(s, cut) => ServerDoes(x, s, cut)
  }

  ghost predicate CanRun(h: Handler, x: State, acts: seq<Action>)
    decreases |acts|
  {
    acts == [] || (Enabled(h, x, acts[0]) && CanRun(h, Apply(h, x, acts[0]), acts[1..]))
  }

  ghost function After(h: Handler, x: State, acts: seq<Action>): State
    requires CanRun(h, x, acts)
    decreases |acts|
  {
    if acts == [] then x else After(h, Apply(h, x, acts[0]), acts[1..])
  }

  /** The assumption that sequence numbers suffice. */
  ghost predicate FewCalls(h: Handler, x: State, acts: seq<Action>)
    requires CanRun(h, x, acts)
    decreases |acts|
  {
    |x.client.sent| <= TWO_TO_THE_64 && (acts == [] || FewCalls(h, Apply(h, x, acts[0]), acts[1..]))
  }

  ghost predicate Reached(h: Handler, x: State, repaired: bool) {
    exists acts :: && CanRun(h, Initial(repaired), acts) && FewCalls(h, Initial(repaired), acts)
                   && After(h, Initial(repaired), acts) == x
  }
}
