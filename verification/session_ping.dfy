// Ping transparency of a whole session. The pings a client connection makes up share both wires with the
// calls, and look on the wire like a call of the method "ping". Erasing them and their answers, and no
// others, from a run leaves a run on wires without their tokens.
module SessionPing {
  import opened RpcTypes
  import opened Framing
  import opened Session
  import opened SessionFacts
  import opened SessionSafety
  import opened SessionTheorems
  import C = ClientMachine
  import CP = ClientPing
  import S = ServerMachine
  import SS = ServerSafety
  import SP = ServerPing

  /** Which tokens of the wires belong to pings the connection made up, and whether the ping that the
      server's loop has in hand is one of them. */
  datatype Marks = Marks(req: seq<bool>, resp: seq<bool>, inHand: bool)

  const NO_MARKS: Marks := Marks([], [], false)

  function Flags(n: nat, mark: bool): (r: seq<bool>)
    ensures |r| == n
  {
    seq(n, i => mark)
  }

  /** The tokens that are not marked. */
  function Keep(log: seq<Token>, marks: seq<bool>): seq<Token>
    requires |log| == |marks|
  {
    if log == [] then []
    else
      var n := |log| - 1;
      Keep(log[..n], marks[..n]) + if marks[n] then [] else [log[n]]
  }

  /** Where a reader at `pos` stands when the marked tokens are gone. */
  function KeptPos(log: seq<Token>, marks: seq<bool>, pos: nat): nat
    requires |log| == |marks| && pos <= |log|
  {
    |Keep(log[..pos], marks[..pos])|
  }

  lemma {:induction false} KeepMore(log: seq<Token>, marks: seq<bool>, more: seq<Token>, mark: bool)
    requires |log| == |marks|
    ensures Keep(log + more, marks + Flags(|more|, mark)) == Keep(log, marks) + if mark then [] else more
    decreases |more|
  {
    if more == [] {
      assert log + more == log && marks + Flags(0, mark) == marks;
    } else {
      var n := |more| - 1;
      var all, flags := log + more, marks + Flags(|more|, mark);
      KeepMore(log, marks, more[..n], mark);
      assert all[..|all| - 1] == log + more[..n];
      assert flags[..|all| - 1] == marks + Flags(n, mark);
      assert more == more[..n] + [more[n]];
    }
  }

  lemma PosStays(log: seq<Token>, marks: seq<bool>, more: seq<Token>, flags: seq<bool>, pos: nat)
    requires |log| == |marks| && |more| == |flags| && pos <= |log|
    ensures KeptPos(log + more, marks + flags, pos) == KeptPos(log, marks, pos)
  {
    assert (log + more)[..pos] == log[..pos] && (marks + flags)[..pos] == marks[..pos];
  }

  lemma PosMoves(log: seq<Token>, marks: seq<bool>, pos: nat)
    requires |log| == |marks| && pos < |log|
    ensures KeptPos(log, marks, pos + 1) == KeptPos(log, marks, pos) + if marks[pos] then 0 else 1
  {
    assert log[..pos + 1][..pos] == log[..pos] && marks[..pos + 1][..pos] == marks[..pos];
  }

  lemma {:induction false} PosBound(log: seq<Token>, marks: seq<bool>, pos: nat)
    requires |log| == |marks| && pos <= |log|
    ensures KeptPos(log, marks, pos) <= |Keep(log, marks)|
    decreases |log|
  {
    var n := |log| - 1;
    if pos <= n {
      PosBound(log[..n], marks[..n], pos);
      assert log[..n][..pos] == log[..pos] && marks[..n][..pos] == marks[..pos];
    } else {
      assert log[..pos] == log && marks[..pos] == marks;
    }
  }

  lemma {:induction false} KeptAt(log: seq<Token>, marks: seq<bool>, pos: nat)
    requires |log| == |marks| && pos < |log| && !marks[pos]
    ensures KeptPos(log, marks, pos) < |Keep(log, marks)|
    ensures Keep(log, marks)[KeptPos(log, marks, pos)] == log[pos]
    decreases |log|
  {
    var n := |log| - 1;
    if pos < n {
      KeptAt(log[..n], marks[..n], pos);
      assert log[..n][..pos] == log[..pos] && marks[..n][..pos] == marks[..pos];
    }
  }

  // ----- the run without the pings -----

  predicate Marked(marks: seq<bool>, pos: nat) { pos < |marks| && marks[pos] }

  /** Whether the ping this step of the server is about is one the connection made up. */
  function Mine(x: State, m: Marks, a: S.Action): bool {
    if a.ReadHead? then Marked(m.req, x.reqPos) else m.inHand
  }

  function MarksAfter(h: Handler, x: State, m: Marks, a: Action): Marks
    requires Enabled(h, x, a)
  {
    match a
    case ByClient(c, cut) => m.(req := m.req + Flags(|ClientWrites(x.client, c, cut)|, c.PingWrite?))
    case ByServer(s, cut) =>
      var n := if x.broken then 0 else |Prefix(ServerWrites(x.server, s), cut)|;
      Marks(m.req, m.resp + Flags(n, m.inHand && s.PingReply?), Mine(x, m, s))
  }

  /** How much gets through on the wires without pings: a token that a failed read uses up may have been a
      ping's, and a wire may have been broken by a ping's answer. */
  function CutWithout(x: State, m: Marks, a: S.Action, cut: nat): nat {
    if a.BodyFails? || a.Discard? then if Marked(m.req, x.reqPos) then 0 else cut
    else if x.broken then 0 else cut
  }

  function Instead(x: State, m: Marks, a: Action): seq<Action> {
    match a
    case ByClient(c, cut) =>
      if c.PingWrite? || c.PingFlush? || (c.ReadPing? && Marked(m.resp, x.respPos)) then [] else [a]
    case ByServer(s, cut) =>
      var list := SP.Instead(x.server, Mine(x, m, s), s);
      if list == [s] then [ByServer(s, CutWithout(x, m, s, cut))]
      else seq(|list|, i requires 0 <= i < |list| => ByServer(list[i], 0))
  }

  ghost function Erase(h: Handler, x: State, m: Marks, acts: seq<Action>): seq<Action>
    requires CanRun(h, x, acts)
    decreases |acts|
  {
    if acts == [] then []
    else Instead(x, m, acts[0]) + Erase(h, Apply(h, x, acts[0]), MarksAfter(h, x, m, acts[0]), acts[1..])
  }

  ghost function MarksOf(h: Handler, x: State, m: Marks, acts: seq<Action>): Marks
    requires CanRun(h, x, acts)
    decreases |acts|
  {
    if acts == [] then m
    else MarksOf(h, Apply(h, x, acts[0]), MarksAfter(h, x, m, acts[0]), acts[1..])
  }

  predicate Disturbs(x: State, m: Marks, a: Action) {
    a.ByServer? && SP.Disturbs(x.server, Mine(x, m, a.s), a.s)
  }

  ghost predicate Undisturbed(h: Handler, x: State, m: Marks, acts: seq<Action>)
    requires CanRun(h, x, acts)
    decreases |acts|
  {
    acts == [] ||
    (!Disturbs(x, m, acts[0])
     && Undisturbed(h, Apply(h, x, acts[0]), MarksAfter(h, x, m, acts[0]), acts[1..]))
  }

  // ----- the relation between the two runs -----

  ghost predicate MarksOk(x: State, m: Marks) {
    && |m.req| == |x.reqLog| && |m.resp| == |x.respLog|
    && (forall p :: 0 <= p < |m.req| && m.req[p] ==> x.reqLog[p] == ReqHead(PING_REQUEST_HEADER))
    && (forall p :: 0 <= p < |m.resp| && m.resp[p] ==>
          x.respLog[p].RespHead? && x.respLog[p].resp.IsPing())
  }

  /** `log` at `pos` without its marked tokens is `kept` at `at`. */
  predicate SameWire(log: seq<Token>, marks: seq<bool>, pos: nat, kept: seq<Token>, at: nat) {
    && |log| == |marks| && pos <= |log|
    && kept == Keep(log, marks) && at == KeptPos(log, marks, pos)
  }

  ghost predicate SameWires(x: State, m: Marks, t: State) {
    && SameWire(x.reqLog, m.req, x.reqPos, t.reqLog, t.reqPos)
    && SameWire(x.respLog, m.resp, x.respPos, t.respLog, t.respPos)
    && (t.broken ==> x.broken)
  }

  ghost predicate Erased(x: State, m: Marks, t: State) {
    && CP.SameButPings(x.client, t.client) && t.server == SP.WithoutPing(x.server, m.inHand)
    && SameWires(x, m, t)
  }

  ghost predicate Leads(h: Handler, t: State, acts: seq<Action>, u: State) {
    CanRun(h, t, acts) && After(h, t, acts) == u
  }

  lemma OneStep(h: Handler, t: State, a: Action)
    requires Enabled(h, t, a)
    ensures Leads(h, t, [a], Apply(h, t, a))
  {
    assert [a][1..] == [];
  }

  lemma WireGrows(log: seq<Token>, marks: seq<bool>, pos: nat, kept: seq<Token>, at: nat,
                  more: seq<Token>, mark: bool)
    requires SameWire(log, marks, pos, kept, at)
    ensures SameWire(log + more, marks + Flags(|more|, mark), pos, kept + if mark then [] else more, at)
  {
    KeepMore(log, marks, more, mark);
    PosStays(log, marks, more, Flags(|more|, mark), pos);
  }

  lemma WireIsRead(log: seq<Token>, marks: seq<bool>, pos: nat, kept: seq<Token>, at: nat)
    requires SameWire(log, marks, pos, kept, at) && pos < |log|
    ensures SameWire(log, marks, pos + 1, kept, at + if marks[pos] then 0 else 1)
    ensures !marks[pos] ==> at < |kept| && kept[at] == log[pos]
  {
    PosMoves(log, marks, pos);
    if !marks[pos] {
      KeptAt(log, marks, pos);
    }
  }

  // ----- steps of the client -----

  lemma SameWrites(s: C.State, t: C.State, a: C.Action, cut: nat)
    requires CP.SameButPings(s, t) && C.Enabled(s, a) && C.Enabled(t, a)
    ensures ClientWrites(t, a, cut) == ClientWrites(s, a, cut)
  {
  }

  lemma PingStepErased(h: Handler, x: State, m: Marks, c: C.Action, cut: nat, t: State)
    requires Erased(x, m, t) && Enabled(h, x, ByClient(c, cut)) && (c.PingWrite? || c.PingFlush?)
    ensures Erased(ClientDoes(x, c, cut), MarksAfter(h, x, m, ByClient(c, cut)), t)
  {
    var more := ClientWrites(x.client, c, cut);
    WireGrows(x.reqLog, m.req, x.reqPos, t.reqLog, t.reqPos, more, c.PingWrite?);
    assert t.reqLog + [] == t.reqLog;
    if c.PingWrite? {
      CP.PingWriteIsInvisible(x.client, t.client, c.ok);
    } else {
      CP.PingFlushIsInvisible(x.client, t.client, c.ok);
    }
  }

  lemma AnswerErased(h: Handler, x: State, m: Marks, c: C.Action, cut: nat, t: State)
    requires Erased(x, m, t) && Enabled(h, x, ByClient(c, cut)) && c.ReadPing? && Marked(m.resp, x.respPos)
    ensures Erased(ClientDoes(x, c, cut), MarksAfter(h, x, m, ByClient(c, cut)), t)
  {
    assert x.reqLog + [] == x.reqLog && m.req + Flags(0, false) == m.req;
    WireIsRead(x.respLog, m.resp, x.respPos, t.respLog, t.respPos);
  }

  /** The token a step of the client reads is not marked, unless it is a ping's answer. */
  lemma ReadsUnmarked(h: Handler, x: State, m: Marks, c: C.Action)
    requires FactsInv(h, FactsOf(x)) && MarksOk(x, m)
    requires C.Enabled(x.client, c) && ClientReadOk(x.respLog, x.respPos, c) && !c.ReadPing?
    ensures ClientReads(c) > 0 ==> x.respPos < |x.respLog| && !m.resp[x.respPos]
  {
    if c.FinishBody? && c.body.Discarded? {
      assert LastRead(FactsOf(x), x.client.reader.head);
      assert RespTokenOk(x.client.sent, ServedBy(x.server), x.respLog, x.respPos - 1);
    }
  }

  lemma SameReads(log: seq<Token>, marks: seq<bool>, pos: nat, kept: seq<Token>, at: nat, c: C.Action)
    requires SameWire(log, marks, pos, kept, at) && ClientReadOk(log, pos, c)
    requires ClientReads(c) > 0 ==> pos < |log| && !marks[pos]
    ensures ClientReadOk(kept, at, c)
    ensures SameWire(log, marks, pos + ClientReads(c), kept, at + ClientReads(c))
  {
    if ClientReads(c) > 0 {
      WireIsRead(log, marks, pos, kept, at);
    }
  }

  /** A step of the client that is no ping's is taken by both. */
  lemma StepShared(s: C.State, t: C.State, c: C.Action)
    requires CP.SameButPings(s, t) && C.Enabled(s, c) && !c.PingWrite? && !c.PingFlush?
    ensures C.Enabled(t, c) && CP.SameButPings(C.Apply(s, c), C.Apply(t, c))
  {
    if !c.ReadPing? {
      CP.OtherStepIsShared(s, t, c);
    }
  }

  lemma ClientStepShared(h: Handler, x: State, m: Marks, c: C.Action, cut: nat, t: State)
    requires Erased(x, m, t) && C.Enabled(x.client, c) && ClientReadOk(x.respLog, x.respPos, c)
    requires !c.PingWrite? && !c.PingFlush?
    requires ClientReads(c) > 0 ==> x.respPos < |x.respLog| && !m.resp[x.respPos]
    ensures Enabled(h, t, ByClient(c, cut))
    ensures Erased(ClientDoes(x, c, cut), MarksAfter(h, x, m, ByClient(c, cut)), ClientDoes(t, c, cut))
  {
    StepShared(x.client, t.client, c);
    SameWrites(x.client, t.client, c, cut);
    WireGrows(x.reqLog, m.req, x.reqPos, t.reqLog, t.reqPos, ClientWrites(x.client, c, cut), false);
    SameReads(x.respLog, m.resp, x.respPos, t.respLog, t.respPos, c);
  }

  lemma ClientStepErased(h: Handler, x: State, m: Marks, c: C.Action, cut: nat, t: State)
    requires FactsInv(h, FactsOf(x)) && MarksOk(x, m) && Erased(x, m, t) && Enabled(h, x, ByClient(c, cut))
    ensures CanRun(h, t, Instead(x, m, ByClient(c, cut)))
    ensures Erased(ClientDoes(x, c, cut), MarksAfter(h, x, m, ByClient(c, cut)),
                   After(h, t, Instead(x, m, ByClient(c, cut))))
  {
    if c.PingWrite? || c.PingFlush? {
      PingStepErased(h, x, m, c, cut, t);
    } else if c.ReadPing? && Marked(m.resp, x.respPos) {
      AnswerErased(h, x, m, c, cut, t);
    } else {
      if !c.ReadPing? {
        ReadsUnmarked(h, x, m, c);
      }
      ClientStepShared(h, x, m, c, cut, t);
      OneStep(h, t, ByClient(c, cut));
    }
  }

  // ----- steps of the server -----

  /** The servers' own steps. */
  lemma ServersAgree(x: State, m: Marks, s: S.Action)
    requires S.Enabled(x.server, s) && !SP.Disturbs(x.server, Mine(x, m, s), s)
    ensures SP.Leads(SP.WithoutPing(x.server, m.inHand), SP.Instead(x.server, Mine(x, m, s), s),
                     SP.WithoutPing(S.Apply(x.server, s), Mine(x, m, s)))
  {
    SP.StepIsTransparent(x.server, Mine(x, m, s), s);
  }

  lemma PingReadErased(h: Handler, x: State, m: Marks, s: S.Action, cut: nat, t: State)
    requires SameWires(x, m, t) && Enabled(h, x, ByServer(s, cut)) && s.ReadHead? && Marked(m.req, x.reqPos)
    ensures SameWires(ServerDoes(x, s, cut), MarksAfter(h, x, m, ByServer(s, cut)), t)
  {
    assert x.respLog + [] == x.respLog && m.resp + Flags(0, false) == m.resp;
    WireIsRead(x.reqLog, m.req, x.reqPos, t.reqLog, t.reqPos);
  }

  /** What the loop does with a ping that is to be erased touches the wires only where they are marked. */
  lemma ServingErased(h: Handler, x: State, m: Marks, s: S.Action, cut: nat, t: State)
    requires SameWires(x, m, t) && Enabled(h, x, ByServer(s, cut))
    requires SP.Instead(x.server, Mine(x, m, s), s) != [s]
    ensures SameWires(ServerDoes(x, s, cut), MarksAfter(h, x, m, ByServer(s, cut)), t)
  {
    if s.ReadHead? {
      PingReadErased(h, x, m, s, cut, t);
    } else {
      var more := if x.broken then [] else Prefix(ServerWrites(x.server, s), cut);
      WireGrows(x.respLog, m.resp, x.respPos, t.respLog, t.respPos, more, m.inHand && s.PingReply?);
      assert x.respLog + [] == x.respLog && t.respLog + [] == t.respLog;
    }
  }

  lemma SilentServerStep(h: Handler, t: State, s: S.Action)
    requires S.Enabled(t.server, s) && (s.ReadHeadFails? || s.Check?)
    ensures Enabled(h, t, ByServer(s, 0)) && ServerDoes(t, s, 0) == t.(server := S.Apply(t.server, s))
  {
    assert t.respLog + [] == t.respLog;
  }

  /** Where the read of an erased ping is cut short. */
  lemma ReadCutShort(h: Handler, t: State, u: S.State)
    requires SP.Leads(t.server, [S.ReadHeadFails, S.Check], u)
    ensures Leads(h, t, [ByServer(S.ReadHeadFails, 0), ByServer(S.Check, 0)], t.(server := u))
  {
    assert [S.ReadHeadFails, S.Check][1..] == [S.Check] && [S.Check][1..] == [];
    SilentServerStep(h, t, S.ReadHeadFails);
    var t1 := ServerDoes(t, S.ReadHeadFails, 0);
    SilentServerStep(h, t1, S.Check);
    OneStep(h, t1, ByServer(S.Check, 0));
    assert [ByServer(S.ReadHeadFails, 0), ByServer(S.Check, 0)][1..] == [ByServer(S.Check, 0)];
  }

  /** The token a step of the server reads, and what that leaves to be read without pings. */
  lemma SameServerReads(log: seq<Token>, marks: seq<bool>, pos: nat, kept: seq<Token>, at: nat, a: S.Action,
                        cut: nat, without: nat)
    requires SameWire(log, marks, pos, kept, at) && ServerReadOk(log, pos, a, cut)
    requires a.ReadHead? || a.ReadBody? ==> pos < |log| && !marks[pos]
    requires a.BodyFails? || a.Discard? ==> without == if Marked(marks, pos) then 0 else cut
    ensures ServerReadOk(kept, at, a, without)
    ensures SameWire(log, marks, pos + ServerReads(a, cut), kept, at + ServerReads(a, without))
  {
    PosBound(log, marks, pos);
    if ServerReads(a, cut) > 0 {
      WireIsRead(log, marks, pos, kept, at);
    }
  }

  lemma SameAnswers(s: S.State, mine: bool, a: S.Action)
    requires S.Enabled(s, a) && S.Enabled(SP.WithoutPing(s, mine), a) && SP.Instead(s, mine, a) == [a]
    ensures ServerWrites(SP.WithoutPing(s, mine), a) == ServerWrites(s, a)
  {
    if a.WSend? {
      var t := SP.WithoutPing(s, mine);
      assert S.GroupAnswers(t, s.writer.group) == S.GroupAnswers(s, s.writer.group);
    }
  }

  lemma SameServerWrites(x: State, m: Marks, t: State, tokens: seq<Token>, cut: nat)
    requires SameWire(x.respLog, m.resp, x.respPos, t.respLog, t.respPos) && (t.broken ==> x.broken)
    ensures var n := if x.broken then 0 else |Prefix(tokens, cut)|;
            var without := if x.broken then 0 else cut;
            && SameWire(if x.broken then x.respLog else x.respLog + Prefix(tokens, cut),
                        m.resp + Flags(n, false), x.respPos,
                        if t.broken then t.respLog else t.respLog + Prefix(tokens, without), t.respPos)
            && (t.broken || without < |tokens| ==> x.broken || cut < |tokens|)
  {
    if x.broken {
      assert m.resp + Flags(0, false) == m.resp && t.respLog + [] == t.respLog;
    } else {
      WireGrows(x.respLog, m.resp, x.respPos, t.respLog, t.respPos, Prefix(tokens, cut), false);
    }
  }

  lemma SharedReads(h: Handler, x: State, m: Marks, s: S.Action, cut: nat, t: State)
    requires SameWires(x, m, t) && MarksOk(x, m) && Enabled(h, x, ByServer(s, cut))
    requires s.ReadHead? ==> !Marked(m.req, x.reqPos)
    ensures var without := CutWithout(x, m, s, cut);
            && ServerReadOk(t.reqLog, t.reqPos, s, without)
            && SameWire(x.reqLog, m.req, x.reqPos + ServerReads(s, cut), t.reqLog,
                        t.reqPos + ServerReads(s, without))
  {
    SameServerReads(x.reqLog, m.req, x.reqPos, t.reqLog, t.reqPos, s, cut, CutWithout(x, m, s, cut));
  }

  /** An erased ping is read as what it is. */
  lemma MarkedIsPing(h: Handler, x: State, m: Marks, s: S.Action, cut: nat)
    requires MarksOk(x, m) && Enabled(h, x, ByServer(s, cut))
    requires SP.Instead(x.server, Mine(x, m, s), s) == [s]
    ensures s.ReadHead? ==> !Marked(m.req, x.reqPos)
    ensures !(m.inHand && s.PingReply?)
  {
  }

  lemma DroppingWritesNothing(h: Handler, x: State, m: Marks, s: S.Action, cut: nat, t: State)
    requires SameWires(x, m, t) && Enabled(h, x, ByServer(s, cut)) && S.Enabled(t.server, s)
    requires s.BodyFails? || s.Discard?
    ensures var y, n := ServerDoes(x, s, cut), MarksAfter(h, x, m, ByServer(s, cut));
            var u := ServerDoes(t, s, CutWithout(x, m, s, cut));
            SameWire(y.respLog, n.resp, y.respPos, u.respLog, u.respPos) && (u.broken ==> y.broken)
  {
    assert x.respLog + [] == x.respLog && t.respLog + [] == t.respLog && m.resp + Flags(0, false) == m.resp;
  }

  lemma SharedWrites(h: Handler, x: State, m: Marks, s: S.Action, cut: nat, t: State)
    requires SameWires(x, m, t) && Enabled(h, x, ByServer(s, cut)) && S.Enabled(t.server, s)
    requires !(m.inHand && s.PingReply?) && ServerWrites(t.server, s) == ServerWrites(x.server, s)
    ensures var y, n := ServerDoes(x, s, cut), MarksAfter(h, x, m, ByServer(s, cut));
            var u := ServerDoes(t, s, CutWithout(x, m, s, cut));
            SameWire(y.respLog, n.resp, y.respPos, u.respLog, u.respPos) && (u.broken ==> y.broken)
  {
    if s.BodyFails? || s.Discard? {
      DroppingWritesNothing(h, x, m, s, cut, t);
    } else {
      SameServerWrites(x, m, t, ServerWrites(x.server, s), cut);
    }
  }

  /** A step of the server that both take. */
  lemma ServerStepShared(h: Handler, x: State, m: Marks, s: S.Action, cut: nat, t: State)
    requires SameWires(x, m, t) && MarksOk(x, m) && Enabled(h, x, ByServer(s, cut))
    requires t.server == SP.WithoutPing(x.server, Mine(x, m, s)) && S.Enabled(t.server, s)
    requires SP.Instead(x.server, Mine(x, m, s), s) == [s]
    ensures Enabled(h, t, ByServer(s, CutWithout(x, m, s, cut)))
    ensures SameWires(ServerDoes(x, s, cut), MarksAfter(h, x, m, ByServer(s, cut)),
                      ServerDoes(t, s, CutWithout(x, m, s, cut)))
  {
    MarkedIsPing(h, x, m, s, cut);
    SharedReads(h, x, m, s, cut, t);
    SameAnswers(x.server, Mine(x, m, s), s);
    SharedWrites(h, x, m, s, cut, t);
  }

  lemma SharedStepErased(h: Handler, x: State, m: Marks, s: S.Action, cut: nat, t: State)
    requires MarksOk(x, m) && Erased(x, m, t) && Enabled(h, x, ByServer(s, cut))
    requires !SP.Disturbs(x.server, Mine(x, m, s), s) && SP.Instead(x.server, Mine(x, m, s), s) == [s]
    ensures Leads(h, t, [ByServer(s, CutWithout(x, m, s, cut))], ServerDoes(t, s, CutWithout(x, m, s, cut)))
    ensures Erased(ServerDoes(x, s, cut), MarksAfter(h, x, m, ByServer(s, cut)),
                   ServerDoes(t, s, CutWithout(x, m, s, cut)))
  {
    ServersAgree(x, m, s);
    SP.OneStep(t.server, s);
    ServerStepShared(h, x, m, s, cut, t);
    OneStep(h, t, ByServer(s, CutWithout(x, m, s, cut)));
  }

  lemma ServingStepErased(h: Handler, x: State, m: Marks, s: S.Action, cut: nat, t: State, u: S.State)
    requires SP.Leads(t.server, SP.Instead(x.server, Mine(x, m, s), s), u)
    requires SP.Instead(x.server, Mine(x, m, s), s) != [s]
    ensures Leads(h, t, Instead(x, m, ByServer(s, cut)), t.(server := u))
  {
    if SP.Instead(x.server, Mine(x, m, s), s) != [] {
      ReadCutShort(h, t, u);
      assert Instead(x, m, ByServer(s, cut)) == [ByServer(S.ReadHeadFails, 0), ByServer(S.Check, 0)];
    }
  }

  lemma ServerStepErased(h: Handler, x: State, m: Marks, s: S.Action, cut: nat, t: State)
    requires MarksOk(x, m) && Erased(x, m, t) && Enabled(h, x, ByServer(s, cut))
    requires !SP.Disturbs(x.server, Mine(x, m, s), s)
    ensures CanRun(h, t, Instead(x, m, ByServer(s, cut)))
    ensures Erased(ServerDoes(x, s, cut), MarksAfter(h, x, m, ByServer(s, cut)),
                   After(h, t, Instead(x, m, ByServer(s, cut))))
  {
    if SP.Instead(x.server, Mine(x, m, s), s) == [s] {
      SharedStepErased(h, x, m, s, cut, t);
    } else {
      ServersAgree(x, m, s);
      ServingErased(h, x, m, s, cut, t);
      ServingStepErased(h, x, m, s, cut, t, SP.WithoutPing(S.Apply(x.server, s), Mine(x, m, s)));
    }
  }

  // ----- marks -----

  /** Marked tokens are the connection's pings and their answers. */
  lemma MarksStayOk(h: Handler, x: State, m: Marks, a: Action)
    requires SS.KindInv(x.server) && MarksOk(x, m) && Enabled(h, x, a)
    ensures MarksOk(Apply(h, x, a), MarksAfter(h, x, m, a))
  {
    match a
    case ByClient(c, cut) => assert ClientWrites(x.client, c, cut) == [] || !c.PingWrite? || c.ok;
    case ByServer(s, cut) =>
      if s.PingReply? {
        var a := Direct(x.server.loop.head, "");
        assert AnswerStream([a], false) == [RespHead(a.Head())] by {
          assert [a][1..] == [];
        }
      }
  }

  lemma StepErased(h: Handler, x: State, m: Marks, a: Action, t: State)
    requires Inv(h, x) && MarksOk(x, m) && Erased(x, m, t) && Enabled(h, x, a) && !Disturbs(x, m, a)
    ensures CanRun(h, t, Instead(x, m, a))
    ensures Erased(Apply(h, x, a), MarksAfter(h, x, m, a), After(h, t, Instead(x, m, a)))
    ensures MarksOk(Apply(h, x, a), MarksAfter(h, x, m, a))
  {
    MarksStayOk(h, x, m, a);
    match a
    case ByClient(c, cut) => ClientStepErased(h, x, m, c, cut, t);
    case ByServer(s, cut) =>
        ServerStepErased(h, x, m, s, cut, t);
  }

  // ----- whole runs -----

  lemma StepInFront(h: Handler, t: State, acts: seq<Action>, u: State)
    requires acts != [] && Enabled(h, t, acts[0]) && Leads(h, Apply(h, t, acts[0]), acts[1..], u)
    ensures Leads(h, t, acts, u)
  {
  }

  lemma FirstStep(h: Handler, t: State, acts: seq<Action>, u: State)
    requires Leads(h, t, acts, u) && acts != []
    ensures Enabled(h, t, acts[0]) && Leads(h, Apply(h, t, acts[0]), acts[1..], u)
  {
  }

  lemma NoStep(h: Handler, t: State, first: seq<Action>, u: State, rest: seq<Action>, v: State)
    requires first == [] && Leads(h, t, first, u) && Leads(h, u, rest, v)
    ensures Leads(h, t, first + rest, v)
  {
    assert u == t;
    assert first + rest == rest;
  }

  lemma HeadFirst(first: seq<Action>, rest: seq<Action>)
    requires first != []
    ensures first + rest != [] && (first + rest)[0] == first[0]
    ensures (first + rest)[1..] == first[1..] + rest
  {
  }

  lemma {:induction false} LeadsOn(h: Handler, t: State, first: seq<Action>, u: State, rest: seq<Action>, v: State)
    requires Leads(h, t, first, u) && Leads(h, u, rest, v)
    ensures Leads(h, t, first + rest, v)
    decreases |first|
  {
    if first == [] {
      NoStep(h, t, first, u, rest, v);
    } else {
      FirstStep(h, t, first, u);
      LeadsOn(h, Apply(h, t, first[0]), first[1..], u, rest, v);
      HeadFirst(first, rest);
      StepInFront(h, t, first + rest, v);
    }
  }

  lemma {:induction false} RunErased(h: Handler, x: State, m: Marks, acts: seq<Action>, t: State)
    requires Inv(h, x) && CanRun(h, x, acts) && FewCalls(h, x, acts)
    requires MarksOk(x, m) && Erased(x, m, t) && Undisturbed(h, x, m, acts)
    ensures CanRun(h, t, Erase(h, x, m, acts))
    ensures Erased(After(h, x, acts), MarksOf(h, x, m, acts), After(h, t, Erase(h, x, m, acts)))
    decreases |acts|
  {
    if acts != [] {
      var y, n, first := Apply(h, x, acts[0]), MarksAfter(h, x, m, acts[0]), Instead(x, m, acts[0]);
      StepKeepsInv(h, x, acts[0]);
      StepErased(h, x, m, acts[0], t);
      var u, rest := After(h, t, first), Erase(h, y, n, acts[1..]);
      RunErased(h, y, n, acts[1..], u);
      LeadsOn(h, t, first, u, rest, After(h, u, rest));
    }
  }

  // ----- disturbed runs -----

  /** The server's part of what replaces a step. */
  lemma ServerPartOf(x: State, m: Marks, a: Action)
    ensures ServerPart(Instead(x, m, a)) ==
              match a
              case ByClient(_, _) => []
              case ByServer(s, _) => SP.Instead(x.server, Mine(x, m, s), s)
  {
    var list := Instead(x, m, a);
    if |list| == 1 {
      assert list[1..] == [];
    } else if |list| == 2 {
      assert list[1..][1..] == [] && ServerPart(list[1..]) == [S.Check];
      assert list[1..][0] == ByServer(S.Check, 0);
    }
  }

  lemma ServerAfterStep(h: Handler, x: State, m: Marks, a: Action, t: State)
    requires CanRun(h, t, Instead(x, m, a))
    ensures a.ByClient? ==> After(h, t, Instead(x, m, a)).server == t.server
    ensures a.ByServer? ==>
              SP.Leads(t.server, SP.Instead(x.server, Mine(x, m, a.s), a.s), After(h, t, Instead(x, m, a)).server)
  {
    ServerPartOf(x, m, a);
    ServerRuns(h, t, Instead(x, m, a));
  }

  lemma {:induction false} RunSplits(h: Handler, t: State, first: seq<Action>, rest: seq<Action>)
    requires CanRun(h, t, first + rest)
    ensures CanRun(h, t, first) && CanRun(h, After(h, t, first), rest)
    ensures After(h, t, first + rest) == After(h, After(h, t, first), rest)
    decreases |first|
  {
    if first == [] {
      assert first + rest == rest;
    } else {
      assert (first + rest)[1..] == first[1..] + rest;
      RunSplits(h, Apply(h, t, first[0]), first[1..], rest);
    }
  }

  lemma StepStaysDiverged(h: Handler, x: State, m: Marks, a: Action, t: State)
    requires Enabled(h, x, a) && CanRun(h, t, Instead(x, m, a)) && SP.Diverged(x.server, t.server)
    ensures SP.Diverged(Apply(h, x, a).server, After(h, t, Instead(x, m, a)).server)
  {
    ServerAfterStep(h, x, m, a, t);
    match a
    case ByClient(_, _) =>
    case ByServer(s, _) =>
      SP.StepKeepsDiverged(x.server, Mine(x, m, s), s, t.server);
  }

  lemma {:induction false} StaysDiverged(h: Handler, x: State, m: Marks, acts: seq<Action>, t: State)
    requires CanRun(h, x, acts) && CanRun(h, t, Erase(h, x, m, acts))
    requires SP.Diverged(x.server, t.server)
    ensures SP.Diverged(After(h, x, acts).server, After(h, t, Erase(h, x, m, acts)).server)
    decreases |acts|
  {
    if acts != [] {
      var y, n, first := Apply(h, x, acts[0]), MarksAfter(h, x, m, acts[0]), Instead(x, m, acts[0]);
      RunSplits(h, t, first, Erase(h, y, n, acts[1..]));
      StepStaysDiverged(h, x, m, acts[0], t);
      StaysDiverged(h, y, n, acts[1..], After(h, t, first));
    }
  }

  lemma DisturbanceDiverges(h: Handler, x: State, m: Marks, a: Action, t: State)
    requires Enabled(h, x, a) && Disturbs(x, m, a)
    requires t.server == SP.WithoutPing(x.server, m.inHand) && CanRun(h, t, Instead(x, m, a))
    ensures SP.Diverged(Apply(h, x, a).server, After(h, t, Instead(x, m, a)).server)
  {
    ServerAfterStep(h, x, m, a, t);
    SP.DisturbanceDiverges(x.server, Mine(x, m, a.s), a.s, After(h, t, Instead(x, m, a)).server);
  }

  lemma {:induction false} DisturbedDiverges(h: Handler, x: State, m: Marks, acts: seq<Action>, t: State)
    requires Inv(h, x) && CanRun(h, x, acts) && FewCalls(h, x, acts)
    requires MarksOk(x, m) && Erased(x, m, t) && !Undisturbed(h, x, m, acts)
    requires CanRun(h, t, Erase(h, x, m, acts))
    ensures SP.Diverged(After(h, x, acts).server, After(h, t, Erase(h, x, m, acts)).server)
    decreases |acts|
  {
    var a := acts[0];
    var y, n, first := Apply(h, x, a), MarksAfter(h, x, m, a), Instead(x, m, a);
    RunSplits(h, t, first, Erase(h, y, n, acts[1..]));
    StepKeepsInv(h, x, a);
    if Disturbs(x, m, a) {
      DisturbanceDiverges(h, x, m, a, t);
      StaysDiverged(h, y, n, acts[1..], After(h, t, first));
    } else {
      StepErased(h, x, m, a, t);
      DisturbedDiverges(h, y, n, acts[1..], After(h, t, first));
    }
  }

  // ----- the theorem -----

  /** What the run without pings ends with: the client's calls and completions, the server but for a ping
      being served, and both wires without the marked tokens. */
  ghost predicate SameSession(x: State, m: Marks, t: State) {
    && t.client.pending == x.client.pending && t.client.outcomes == x.client.outcomes
    && t.client.sent == x.client.sent && t.client.taken == x.client.taken
    && t.client.rejected == x.client.rejected
    && SP.SameService(x.server, t.server)
    && |m.req| == |x.reqLog| && t.reqLog == Keep(x.reqLog, m.req)
    && |m.resp| == |x.respLog| && t.respLog == Keep(x.respLog, m.resp)
  }

  predicate SendsPing(a: Action) { a.ByClient? && a.c.PingWrite? }

  lemma {:induction false} NoPingSent(h: Handler, x: State, m: Marks, acts: seq<Action>)
    requires CanRun(h, x, acts)
    ensures forall a :: a in Erase(h, x, m, acts) ==> !SendsPing(a)
    decreases |acts|
  {
    if acts != [] {
      NoPingSent(h, Apply(h, x, acts[0]), MarksAfter(h, x, m, acts[0]), acts[1..]);
    }
  }

  /** Nothing is marked yet, and the server serves no ping. */
  ghost predicate Fresh(h: Handler, x: State) {
    Inv(h, x) && MarksOk(x, NO_MARKS) && Erased(x, NO_MARKS, x)
  }

  lemma InitialErased(repaired: bool)
    ensures MarksOk(Initial(repaired), NO_MARKS) && Erased(Initial(repaired), NO_MARKS, Initial(repaired))
  {
  }

  lemma InitialIsFresh(h: Handler, repaired: bool)
    ensures Fresh(h, Initial(repaired))
  {
    var x0 := Initial(repaired);
    InitialInv(h, repaired);
    InitialErased(repaired);
  }

  /** The run without pings can be taken and does the same. */
  ghost predicate Transparent(h: Handler, x: State, acts: seq<Action>)
    requires CanRun(h, x, acts)
  {
    var without := Erase(h, x, NO_MARKS, acts);
    && CanRun(h, x, without)
    && SameSession(After(h, x, acts), MarksOf(h, x, NO_MARKS, acts), After(h, x, without))
  }

  lemma UndisturbedIsTransparent(h: Handler, x: State, acts: seq<Action>)
    requires Fresh(h, x) && CanRun(h, x, acts) && FewCalls(h, x, acts)
    requires Undisturbed(h, x, NO_MARKS, acts)
    ensures Transparent(h, x, acts)
  {
    RunErased(h, x, NO_MARKS, acts, x);
  }

  lemma DisturbedIsNot(h: Handler, x: State, acts: seq<Action>)
    requires Fresh(h, x) && CanRun(h, x, acts) && FewCalls(h, x, acts)
    requires !Undisturbed(h, x, NO_MARKS, acts)
    ensures !Transparent(h, x, acts)
  {
    var without := Erase(h, x, NO_MARKS, acts);
    if CanRun(h, x, without) {
      DisturbedDiverges(h, x, NO_MARKS, acts, x);
      SP.NotTheSame(After(h, x, acts).server, After(h, x, without).server);
    }
  }

  lemma TransparencyFrom(h: Handler, x: State, acts: seq<Action>)
    requires Fresh(h, x) && CanRun(h, x, acts) && FewCalls(h, x, acts)
    ensures forall a :: a in Erase(h, x, NO_MARKS, acts) ==> !SendsPing(a)
    ensures Undisturbed(h, x, NO_MARKS, acts) <==> Transparent(h, x, acts)
  {
    NoPingSent(h, x, NO_MARKS, acts);
    if Undisturbed(h, x, NO_MARKS, acts) {
      UndisturbedIsTransparent(h, x, acts);
    } else {
      DisturbedIsNot(h, x, acts);
    }
  }

  /** Ping transparency of a session, exactly: the run without the connection's own pings can be taken and
      ends with the same pending calls, completions, accepted and answered requests and, between pings,
      the same pendingWg, on wires from which just the pings' and their answers' tokens are gone, if
      and only if no step of the server was disturbed by such a ping in its loop's hand. */
  lemma PingTransparency(h: Handler, acts: seq<Action>, repaired: bool)
    requires CanRun(h, Initial(repaired), acts) && FewCalls(h, Initial(repaired), acts)
    ensures forall a :: a in Erase(h, Initial(repaired), NO_MARKS, acts) ==> !SendsPing(a)
    ensures Undisturbed(h, Initial(repaired), NO_MARKS, acts) <==> Transparent(h, Initial(repaired), acts)
  {
    InitialIsFresh(h, repaired);
    TransparencyFrom(h, Initial(repaired), acts);
  }

  lemma {:induction false} CalmRunIsUndisturbed(h: Handler, x: State, m: Marks, acts: seq<Action>)
    requires Inv(h, x) && CanRun(h, x, acts) && FewCalls(h, x, acts)
    requires After(h, x, acts).server.log.twice == {}
    ensures Undisturbed(h, x, m, acts)
    decreases |acts|
  {
    if acts != [] {
      ServerRuns(h, x, acts);
      SP.TwiceGrows(x.server, ServerPart(acts));
      StepKeepsInv(h, x, acts[0]);
      CalmRunIsUndisturbed(h, Apply(h, x, acts[0]), MarksAfter(h, x, m, acts[0]), acts[1..]);
      if acts[0].ByServer? {
        SP.CalmStep(x.server, Mine(x, m, acts[0].s), acts[0].s);
      }
    }
  }

  /** In particular pings are transparent to every session in which no dummy return is answered twice. */
  lemma TransparentWithoutDoubleAnswers(h: Handler, acts: seq<Action>, repaired: bool)
    requires CanRun(h, Initial(repaired), acts) && FewCalls(h, Initial(repaired), acts)
    requires After(h, Initial(repaired), acts).server.log.twice == {}
    ensures Transparent(h, Initial(repaired), acts)
  {
    InitialIsFresh(h, repaired);
    CalmRunIsUndisturbed(h, Initial(repaired), NO_MARKS, acts);
    PingTransparency(h, acts, repaired);
  }
}
