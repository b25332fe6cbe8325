// TServerConn in its own form: the loops of rpc/server_conn.go over the connection's fields. As for
// the client, each method advances `st`, the state in the transition system, and extends the run
// that led there.
module ServerConnection {
  import opened RpcTypes
  import opened Framing
  import opened ServerMachine
  import opened GobCodec
  import SS = ServerSafety
  import SA = ServerAnswers
  import RpcServer

  /** TServerGroupResponse: the header is made when the call is collected, the body is fetched from
      the call when the group is written. */
  datatype Member = Member(head: ResponseHeader, who: nat)

  function Whose(group: seq<Member>): seq<nat> { seq(|group|, i requires 0 <= i < |group| => group[i].who) }

  /** A member carries the header of its call's answer. */
  predicate MemberOk(s: State, m: Member) {
    m.who < |s.accepted| && s.accepted[m.who].Work? && m.head == GroupAnswer(s, m.who).Head()
  }

  ghost predicate Headed(s: State, group: seq<Member>) {
    forall i :: 0 <= i < |group| ==> MemberOk(s, group[i])
  }

  /** Only a dummy return, which the loop puts in front of its own group, has no Done channel. */
  ghost predicate DummyFirst(s: State, who: seq<nat>, byLoop: bool) {
    forall i :: 0 <= i < |who| ==>
      SS.IsWork(s.accepted, who[i]) && (s.accepted[who[i]].head.DummyReturn() <==> byLoop && i == 0)
  }

  /** The calls of a group that go back to the pool: all but the loop's own dummy return in front. */
  function Freeable(who: seq<nat>, byLoop: bool): seq<nat> {
    if byLoop && who != [] then who[1..] else who
  }

  /** How many of `n` Done calls happen: the one that makes the counter negative panics. */
  function DonesMade(wg: int, n: nat): nat {
    if n <= wg then n else if wg < 0 then 1 else wg + 1
  }

  lemma FreeableStep(who: seq<nat>, i: nat, byLoop: bool)
    requires i < |who|
    ensures Freeable(who[..i + 1], byLoop) ==
            Freeable(who[..i], byLoop) + if byLoop && i == 0 then [] else [who[i]]
  {
    assert who[..i + 1] == who[..i] + [who[i]];
  }

  lemma StreamStep(answers: seq<Answer>, i: nat)
    requires i < |answers|
    ensures AnswerStream(answers[..i + 1], false) ==
            AnswerStream(answers[..i], false) + answers[i].Tokens(false)
  {
    AnswerStreamGrows(answers[..i], answers[i], false);
    assert answers[..i + 1] == answers[..i] + [answers[i]];
  }

  function Least(a: nat, b: nat): (r: nat)
    ensures r <= a && r <= b && (r == a || r == b)
  {
    if a <= b then a else b
  }

  class ServerConn {
    const codec: Codec
    var running: bool
    var wg: int
    var doneChan: seq<nat>
    var closed: bool                 // doneChan was closed
    var accepted: seq<Accepted>
    var results: map<nat, Result>    // what the handlers left in the calls
    var freed: seq<nat>              // calls given back to the pool
    ghost var st: State

    ghost predicate Valid()
      reads this, codec
    {
      && codec.Valid()
      && running == st.running && wg == st.wg && doneChan == st.doneChan && closed == st.closed
      && accepted == st.accepted && results == st.results && freed == st.log.freed
    }

    ghost predicate Ran(acts: seq<Action>)
      reads this, codec
    {
      Valid() && CanRun(Initial(), acts) && st == After(Initial(), acts)
    }

    constructor ()
      ensures Ran([]) && fresh(codec) && codec.Written() == []
    {
      codec := new Codec();
      running, wg, doneChan, closed := true, 0, [], false;
      accepted, results, freed := [], map[], [];
      st := Initial();
    }

    ghost method Step(a: Action, acts0: seq<Action>) returns (acts: seq<Action>)
      requires CanRun(Initial(), acts0) && st == After(Initial(), acts0) && Enabled(st, a)
      modifies this`st
      ensures acts == acts0 + [a] && st == Apply(old(st), a)
      ensures CanRun(Initial(), acts) && st == After(Initial(), acts)
    {
      RunLonger(Initial(), acts0, a);
      acts := acts0 + [a];
      st := Apply(st, a);
    }

    // ----- headers -----

    method MakeRespHeader(req: RequestHeader, reply: Option<Value>, errmsg: string)
      returns (head: ResponseHeader)
      ensures head == RespHeaderOf(req, reply, errmsg)
    {
      var flag: bv32 := 0;
      var text, body := "", reply;
      if req.IsPing() {
        flag := flag | RESPONSE_FLAG_PING;
      }
      if errmsg != "" {
        text := errmsg;
        body := None;
      }
      if body == None {
        flag := flag | RESPONSE_FLAG_NO_DATA;
      }
      head := ResponseHeader(req.serviceMethod, req.seqNo, text, flag);
    }

    /** The reply object and error text sitting in a call. */
    function ResultOf(who: nat): Result
      requires who < |accepted| && accepted[who].Work?
      reads this
    {
      if who in results then results[who] else Result(accepted[who].blank, None)
    }

    method DoCallResponse(who: nat) returns (m: Member)
      requires Valid() && who < |accepted| && accepted[who].Work?
      ensures m.who == who && m.head == GroupAnswer(st, who).Head()
    {
      var r := ResultOf(who);
      var head := MakeRespHeader(accepted[who].head, Some(r.reply), r.Text());
      m := Member(head, who);
    }

    // ----- groups -----

    /** The state in which one of the two consumers of doneChan is collecting `group`. */
    ghost predicate Collects(byLoop: bool, group: seq<nat>)
      reads this
    {
      if byLoop then st.loop == Collecting(group) && !st.closed else st.writer == WCollecting(group)
    }

    ghost predicate MaySend(byLoop: bool, group: seq<nat>)
      reads this
    {
      if byLoop then st.loop == Sending(group) else st.writer == WSending(group)
    }

    /** The log is what it was, except for who was taken off doneChan and by whom. */
    ghost predicate SameWork(s: State)
      reads this
    {
      && st.accepted == s.accepted && st.results == s.results && st.wg == s.wg
      && st.log.freed == s.log.freed && st.log.answers == s.log.answers
      && st.log.dropped == s.log.dropped && st.closed == s.closed
    }

    method TakeMore(group: seq<nat>, byLoop: bool, ghost acts0: seq<Action>)
      returns (who: nat, ghost acts: seq<Action>)
      requires Ran(acts0) && Collects(byLoop, group) && |group| <= UNITE_PACKAGE_NUM && doneChan != []
      modifies this`doneChan, this`st
      ensures Ran(acts) && Collects(byLoop, group + [who]) && SameWork(old(st))
      ensures who == old(doneChan)[0] && doneChan == old(doneChan)[1..]
    {
      who := doneChan[0];
      doneChan := doneChan[1..];
      if byLoop {
        acts := Step(LoopMore, acts0);
      } else {
        acts := Step(WMore, acts0);
      }
    }

    ghost method Enough(group: seq<nat>, byLoop: bool, acts0: seq<Action>) returns (acts: seq<Action>)
      requires Ran(acts0) && Collects(byLoop, group) && (|group| > UNITE_PACKAGE_NUM || doneChan == [])
      requires closed ==> |group| > UNITE_PACKAGE_NUM
      modifies this`st
      ensures Ran(acts) && MaySend(byLoop, group) && SameWork(old(st))
    {
      if byLoop {
        acts := Step(LoopEnough, acts0);
      } else {
        acts := Step(WEnough, acts0);
      }
    }

    method CollectOne(group: seq<Member>, byLoop: bool, ghost acts0: seq<Action>)
      returns (more: seq<Member>, ghost acts: seq<Action>)
      requires Ran(acts0) && Collects(byLoop, Whose(group)) && |group| <= UNITE_PACKAGE_NUM
      requires doneChan != [] && Headed(st, group) && SS.IsWork(accepted, doneChan[0])
      modifies this`doneChan, this`st
      ensures Ran(acts) && Collects(byLoop, Whose(more)) && SameWork(old(st)) && |more| == |group| + 1
      ensures Whose(more) == Whose(group) + [old(doneChan)[0]] && doneChan == old(doneChan)[1..]
      ensures Headed(st, more)
    {
      var who;
      who, acts := TakeMore(Whose(group), byLoop, acts0);
      var m := DoCallResponse(who);
      more := group + [m];
      assert Whose(more) == Whose(group) + [who];
    }

    /** The first `i` calls of `q` have been collected behind `first`. */
    ghost predicate Gathered(group: seq<Member>, first: nat, q: seq<nat>, i: nat, byLoop: bool, was: State)
      requires i <= |q|
      reads this
    {
      && Collects(byLoop, Whose(group)) && SameWork(was) && Headed(st, group) && |group| == 1 + i
      && Whose(group) == [first] + q[..i] && doneChan == q[i..]
    }

    method GatherNext(group: seq<Member>, first: nat, ghost q: seq<nat>, i: nat, byLoop: bool, ghost was: State,
                      ghost acts0: seq<Action>)
      returns (more: seq<Member>, ghost acts: seq<Action>)
      requires Ran(acts0) && i < |q| && i < UNITE_PACKAGE_NUM && Known(st, [first] + q)
      requires Gathered(group, first, q, i, byLoop, was)
      modifies this`doneChan, this`st
      ensures Ran(acts) && Gathered(more, first, q, i + 1, byLoop, was) && Known(st, [first] + q)
    {
      OneFurther(first, q, i);
      assert SS.IsWork(accepted, ([first] + q)[1 + i]);
      more, acts := CollectOne(group, byLoop, acts0);
    }

    /** doWriteResponse's loop: it collects up to 100 more calls, in the order of the channel. */
    method Gather(first: nat, byLoop: bool, ghost acts0: seq<Action>)
      returns (group: seq<Member>, drained: bool, ghost acts: seq<Action>)
      requires Ran(acts0) && Collects(byLoop, [first]) && Known(st, [first] + doneChan)
      modifies this`doneChan, this`st
      ensures Ran(acts) && Collects(byLoop, Whose(group)) && SameWork(old(st)) && Headed(st, group)
      ensures var n := Least(UNITE_PACKAGE_NUM, |old(doneChan)|);
              && Whose(group) == [first] + old(doneChan)[..n] && doneChan == old(doneChan)[n..]
              && |group| == n + 1 && (drained <==> n < UNITE_PACKAGE_NUM)
    {
      acts := acts0;
      ghost var q, was := doneChan, st;
      assert ([first] + doneChan)[0] == first;
      var m := DoCallResponse(first);
      group, drained := [m], false;
      var i := 0;
      assert Whose(group) == [first];
      while i < UNITE_PACKAGE_NUM && !drained
        invariant i <= UNITE_PACKAGE_NUM && i <= |q| && Ran(acts) && Known(st, [first] + q)
        invariant Gathered(group, first, q, i, byLoop, was)
        invariant drained ==> i == |q| && i < UNITE_PACKAGE_NUM
        decreases UNITE_PACKAGE_NUM - i, !drained
      {
        if doneChan == [] {
          drained := true;
        } else {
          group, acts := GatherNext(group, first, q, i, byLoop, was, acts);
          i := i + 1;
        }
      }
    }

    /** What doWriteResponse does before it sends: if the channel was found empty and closed before the
        group was full, the whole group is given up. */
    method Collect(first: nat, byLoop: bool, ghost acts0: seq<Action>)
      returns (group: seq<Member>, kept: bool, ghost acts: seq<Action>)
      requires Ran(acts0) && Collects(byLoop, [first]) && Known(st, [first] + doneChan)
      modifies this`doneChan, this`st
      ensures Ran(acts)
      ensures var n := Least(UNITE_PACKAGE_NUM, |old(doneChan)|);
              && Whose(group) == [first] + old(doneChan)[..n] && doneChan == old(doneChan)[n..]
              && (kept <==> !closed || n == UNITE_PACKAGE_NUM)
      ensures kept ==> MaySend(byLoop, Whose(group)) && Headed(st, group) && SameWork(old(st))
      ensures !kept ==> !byLoop && st.writer.WExited? && st.log.answers == old(st.log.answers)
                        && st.log.dropped == old(st.log.dropped) + Members(Whose(group))
    {
      var drained;
      group, drained, acts := Gather(first, byLoop, acts0);
      kept := !(drained && closed);
      if kept {
        acts := Enough(Whose(group), byLoop, acts);
      } else {
        acts := Step(WDrop, acts);
      }
    }

    // ----- writing -----

    /** One turn of SendGroupResponse's loop. The reply is always written, whatever the header says; the
        call is freed if somebody was to be notified of it. An error is only logged. */
    method WriteMember(m: Member, fate: Fate)
      requires codec.Valid() && MemberOk(st, m) && accepted == st.accepted && results == st.results
      modifies this`freed, codec
      ensures codec.Valid()
      ensures freed == old(freed) + if st.accepted[m.who].head.DummyReturn() then [] else [m.who]
      ensures fate.Ok() ==>
                codec.Written() == old(codec.Written()) + GroupAnswer(st, m.who).Tokens(false)
    {
      var reply := ResultOf(m.who).reply;
      var ok := codec.WriteResponse(m.head, Some(reply), fate);
      if !accepted[m.who].head.DummyReturn() {
        freed := freed + [m.who];
      }
    }

    /** The first `i` members of a group were written, all of them properly if `ok`, and freed. */
    ghost predicate Emitted(who: seq<nat>, answers: seq<Answer>, i: nat, byLoop: bool, ok: bool,
                            gave: seq<nat>, before: seq<Token>)
      requires i <= |who| && |answers| == |who|
      reads this, codec
    {
      && freed == gave + Freeable(who[..i], byLoop)
      && (ok ==> codec.Written() == before + AnswerStream(answers[..i], false))
    }

    method WriteNext(group: seq<Member>, i: nat, byLoop: bool, fate: Fate, ghost ok: bool,
                     ghost answers: seq<Answer>, ghost gave: seq<nat>, ghost before: seq<Token>)
      requires codec.Valid() && accepted == st.accepted && results == st.results
      requires i < |group| == |answers| && MemberOk(st, group[i])
      requires answers[i] == GroupAnswer(st, group[i].who)
      requires st.accepted[group[i].who].head.DummyReturn() <==> byLoop && i == 0
      requires Emitted(Whose(group), answers, i, byLoop, ok, gave, before)
      modifies this`freed, codec
      ensures codec.Valid()
      ensures Emitted(Whose(group), answers, i + 1, byLoop, ok && fate.Ok(), gave, before)
    {
      WriteMember(group[i], fate);
      StreamStep(answers, i);
      FreeableStep(Whose(group), i, byLoop);
    }

    /** SendGroupResponse's loop. */
    method WriteMembers(group: seq<Member>, byLoop: bool, fates: nat -> Fate, ghost answers: seq<Answer>)
      requires codec.Valid() && accepted == st.accepted && results == st.results
      requires |answers| == |group| && Headed(st, group) && DummyFirst(st, Whose(group), byLoop)
      requires forall i :: 0 <= i < |group| ==> answers[i] == GroupAnswer(st, group[i].who)
      modifies this`freed, codec
      ensures codec.Valid() && freed == old(freed) + Freeable(Whose(group), byLoop)
      ensures (forall i :: 0 <= i < |group| ==> fates(i).Ok()) ==>
                codec.Written() == old(codec.Written()) + AnswerStream(answers, false)
    {
      var i := 0;
      ghost var who, ok, gave, before := Whose(group), true, freed, codec.Written();
      while i < |group|
        invariant i <= |group| && codec.Valid()
        invariant (forall j :: 0 <= j < i ==> fates(j).Ok()) ==> ok
        invariant Emitted(who, answers, i, byLoop, ok, gave, before)
      {
        assert who[i] == group[i].who;
        WriteNext(group, i, byLoop, fates(i), ok, answers, gave, before);
        ok := ok && fates(i).Ok();
        i := i + 1;
      }
      assert answers[..|group|] == answers && who[..|group|] == who;
    }

    /** What the panicking Done does to each routine: RoutineRun's recover closes everything. */
    method Recover(byLoop: bool)
      requires codec.Valid()
      modifies this`closed, codec`closed, codec`closes
      ensures codec.Valid() && codec.Written() == old(codec.Written())
      ensures closed == (old(closed) || byLoop)
    {
      if byLoop {
        closed := true;
        codec.Close();
      }
    }

    /** The two steps of the transition system behind SendGroupResponse: the writes and the Dones. */
    ghost method Wrote(group: seq<nat>, byLoop: bool, acts0: seq<Action>) returns (acts: seq<Action>)
      requires CanRun(Initial(), acts0) && st == After(Initial(), acts0)
      requires MaySend(byLoop, group) && Known(st, group) && group != []
      modifies this`st
      ensures CanRun(Initial(), acts) && st == After(Initial(), acts)
      ensures st == Apply(old(st), if byLoop then LoopSend else WSend)
      ensures SameQueue(old(st)) && st.log.freed == old(st.log.freed) + Freeable(group, byLoop)
      ensures st.log.answers == old(st.log.answers) + GroupAnswers(old(st), group)
      ensures Settling(byLoop, group[0], |group|)
    {
      if byLoop {
        acts := Step(LoopSend, acts0);
      } else {
        acts := Step(WSend, acts0);
      }
    }

    ghost predicate SameQueue(s: State)
      reads this
    {
      && st.doneChan == s.doneChan && st.closed == s.closed && st.running == s.running
      && st.accepted == s.accepted && st.results == s.results && st.wg == s.wg
    }

    /** The state in which `left` Dones are to be made for a written group. */
    ghost predicate Settling(byLoop: bool, who: nat, left: nat)
      reads this
    {
      if byLoop then st.loop == Sent(who, left) else st.writer == WSent(left)
    }

    /** One Done of a group: it panics if it makes the counter negative. */
    method DoneOnce(byLoop: bool, ghost who: nat, ghost left: nat, ghost acts0: seq<Action>)
      returns (panics: bool, ghost acts: seq<Action>)
      requires Ran(acts0) && Settling(byLoop, who, left) && left > 0
      modifies this`wg, this`closed, this`st, codec`closed, codec`closes
      ensures Ran(acts) && st.log.answers == old(st.log.answers) && codec.Written() == old(codec.Written())
      ensures wg == old(wg) - 1 && (panics <==> old(wg) < 1)
      ensures !panics && left > 1 ==> Settling(byLoop, who, left - 1)
      ensures panics || left == 1 ==>
                if byLoop then st.loop == if panics then LoopExited else Dispatching(who, true)
                else st.writer == if panics then WExited else Waiting
    {
      wg := wg - 1;
      panics := wg < 0;
      if panics {
        Recover(byLoop);
      }
      if byLoop {
        acts := Step(Settle, acts0);
      } else {
        acts := Step(WSettle, acts0);
      }
    }

    /** SendGroupResponse under its mutex. */
    method EmitGroup(group: seq<Member>, byLoop: bool, fates: nat -> Fate, flushOk: bool,
                     ghost acts0: seq<Action>)
      returns (ghost acts: seq<Action>)
      requires Ran(acts0) && MaySend(byLoop, Whose(group)) && group != []
      requires Headed(st, group) && DummyFirst(st, Whose(group), byLoop) && Known(st, Whose(group))
      modifies this`freed, this`st, codec
      ensures Ran(acts) && freed == old(freed) + Freeable(Whose(group), byLoop)
      ensures st.log.answers == old(st.log.answers) + GroupAnswers(old(st), Whose(group))
      ensures (forall i :: 0 <= i < |group| ==> fates(i).Ok()) ==>
                codec.Written() == old(codec.Written())
                  + AnswerStream(GroupAnswers(old(st), Whose(group)), false)
      ensures Settling(byLoop, group[0].who, |group|)
    {
      WriteMembers(group, byLoop, fates, GroupAnswers(st, Whose(group)));
      var flushed := codec.Flush(flushOk);
      acts := Wrote(Whose(group), byLoop, acts0);
    }

    /** ... and after it: one Done per member, up to the one that panics. */
    method SettleGroup(who: nat, n: nat, byLoop: bool, ghost acts0: seq<Action>)
      returns (panics: bool, ghost acts: seq<Action>)
      requires Ran(acts0) && n > 0 && Settling(byLoop, who, n)
      modifies this`wg, this`closed, this`st, codec`closed, codec`closes
      ensures Ran(acts) && st.log.answers == old(st.log.answers) && codec.Written() == old(codec.Written())
      ensures wg == old(wg) - DonesMade(old(wg), n) && (panics <==> n > old(wg))
      ensures if byLoop then st.loop == if panics then LoopExited else Dispatching(who, true)
              else st.writer == if panics then WExited else Waiting
    {
      var i := 0;
      panics, acts := false, acts0;
      while i < n && !panics
        invariant i <= n && Ran(acts) && wg == old(wg) - i
        invariant st.log.answers == old(st.log.answers) && codec.Written() == old(codec.Written())
        invariant if panics then i > 0 && wg == (if old(wg) < 0 then old(wg) - 1 else -1) else i == 0 || wg >= 0
        invariant i < n && !panics ==> Settling(byLoop, who, n - i)
        invariant i == n || panics ==>
                    if byLoop then st.loop == if panics then LoopExited else Dispatching(who, true)
                    else st.writer == if panics then WExited else Waiting
        decreases n - i, !panics
      {
        panics, acts := DoneOnce(byLoop, who, n - i, acts);
        i := i + 1;
      }
    }

    /** SendGroupResponse: every member is answered, in order and once, with the header made when it was
        collected and its own reply; then the counter goes down by the size of the group. */
    method SendGroupResponse(group: seq<Member>, byLoop: bool, fates: nat -> Fate, flushOk: bool,
                             ghost acts0: seq<Action>)
      returns (panics: bool, ghost acts: seq<Action>)
      requires Ran(acts0) && MaySend(byLoop, Whose(group)) && group != []
      requires Headed(st, group) && DummyFirst(st, Whose(group), byLoop) && Known(st, Whose(group))
      modifies this`freed, this`wg, this`closed, this`st, codec
      ensures Ran(acts) && freed == old(freed) + Freeable(Whose(group), byLoop)
      ensures st.log.answers == old(st.log.answers) + GroupAnswers(old(st), Whose(group))
      ensures (forall i :: 0 <= i < |group| ==> fates(i).Ok()) ==>
                codec.Written() == old(codec.Written())
                  + AnswerStream(GroupAnswers(old(st), Whose(group)), false)
      ensures wg == old(wg) - DonesMade(old(wg), |group|) && (panics <==> |group| > old(wg))
      ensures if byLoop then st.loop == if panics then LoopExited else Dispatching(group[0].who, true)
              else st.writer == if panics then WExited else Waiting
    {
      acts := EmitGroup(group, byLoop, fates, flushOk, acts0);
      panics, acts := SettleGroup(group[0].who, |group|, byLoop, acts);
    }

    /** doWriteResponse, for either of its callers. Unless the channel is found closed, the first call
        and up to 100 more, a segment of doneChan, are answered in order, once each, and leave the
        counter; if it is found closed, none of them is. */
    method DoWriteResponse(first: nat, byLoop: bool, fates: nat -> Fate, flushOk: bool,
                           ghost acts0: seq<Action>)
      returns (sent: bool, panics: bool, ghost acts: seq<Action>)
      requires Ran(acts0) && Collects(byLoop, [first])
      modifies this`doneChan, this`freed, this`wg, this`closed, this`st, codec
      ensures Ran(acts)
      ensures var n := Least(100, |old(doneChan)|);
              var group := [first] + old(doneChan)[..n];
              && doneChan == old(doneChan)[n..] && (sent <==> !old(closed) || n == 100)
              && (sent ==> Known(old(st), group) && freed == old(freed) + Freeable(group, byLoop)
                           && st.log.answers == old(st.log.answers) + GroupAnswers(old(st), group)
                           && wg == old(wg) - DonesMade(old(wg), n + 1)
                           && (panics <==> n + 1 > old(wg)))
              && (!sent ==> !panics && !byLoop && st.writer.WExited?
                            && st.log.answers == old(st.log.answers)
                            && st.log.dropped == old(st.log.dropped) + Members(group))
      ensures sent && !panics ==> if byLoop then st.loop == Dispatching(first, true) else st.writer == Waiting
      ensures panics ==> if byLoop then st.loop == LoopExited else st.writer == WExited
    {
      panics := false;
      CollectingFacts(st, acts0, byLoop, first);
      ghost var before, n := st, Least(UNITE_PACKAGE_NUM, |doneChan|);
      var group;
      group, sent, acts := Collect(first, byLoop, acts0);
      if sent {
        CollectedFacts(before, st, first, n, byLoop);
        assert Whose(group)[0] == first;
        panics, acts := SendGroupResponse(group, byLoop, fates, flushOk, acts);
      }
    }

    // ----- the read loop -----

    /** What the loop is about to answer by itself: a ping, or a refusal. */
    ghost predicate Answers(req: RequestHeader, errmsg: string)
      reads this
    {
      match st.loop
      case PingReplying(head) => req == head && errmsg == ""
      case Replying(who, text) => who < |st.accepted| && req == st.accepted[who].head && errmsg == text
      case _ => false
    }

    ghost method Replies(req: RequestHeader, errmsg: string, acts0: seq<Action>) returns (acts: seq<Action>)
      requires Ran(acts0) && Answers(req, errmsg)
      modifies this`st
      ensures Ran(acts)
      ensures if old(st.loop.PingReplying?) then st.loop.PingReplied? && st.log == old(st.log)
              else st.loop.Replied? && st.log.answers == old(st.log.answers) + [Direct(req, errmsg)]
                   && st.log.answered == old(st.log.answered) + [old(st.loop).who]
    {
      if st.loop.PingReplying? {
        acts := Step(PingReply, acts0);
      } else {
        acts := Step(Reply, acts0);
      }
    }

    /** SendResponse up to the unlock: the reply is nil, so no body follows. */
    method EmitResponse(req: RequestHeader, errmsg: string, fate: Fate, ghost acts0: seq<Action>)
      returns (ghost acts: seq<Action>)
      requires Ran(acts0) && Answers(req, errmsg)
      modifies this`st, codec
      ensures Ran(acts)
      ensures fate.headOk ==> codec.Written() == old(codec.Written()) + Direct(req, errmsg).Tokens(false)
      ensures if old(st.loop.PingReplying?) then st.loop.PingReplied? && st.log == old(st.log)
              else st.loop.Replied? && st.log.answers == old(st.log.answers) + [Direct(req, errmsg)]
                   && st.log.answered == old(st.log.answered) + [old(st.loop).who]
    {
      var head := MakeRespHeader(req, None, errmsg);
      var ok := codec.WriteResponse(head, None, fate);
      if ok {
        ok := codec.Flush(fate.flushOk);
      }
      acts := Replies(req, errmsg, acts0);
    }

    /** SendResponse after it. */
    method SettleOne(ghost acts0: seq<Action>) returns (panics: bool, ghost acts: seq<Action>)
      requires Ran(acts0) && (st.loop.PingReplied? || st.loop.Replied?)
      modifies this`wg, this`closed, this`st, codec`closed, codec`closes
      ensures Ran(acts) && codec.Written() == old(codec.Written())
      ensures st.log.answers == old(st.log.answers) && st.log.answered == old(st.log.answered)
      ensures wg == old(wg) - 1 && (panics <==> old(wg) < 1)
      ensures st.loop == if panics then LoopExited else Reading
    {
      wg := wg - 1;
      panics := wg < 0;
      if panics {
        Recover(true);
      }
      acts := Step(Settle, acts0);
    }

    /** SendResponse: one header, no body, one Done. A ping's answer leaves no trace in the log. */
    method SendResponse(req: RequestHeader, errmsg: string, fate: Fate, ghost acts0: seq<Action>)
      returns (panics: bool, ghost acts: seq<Action>)
      requires Ran(acts0) && Answers(req, errmsg)
      modifies this`wg, this`closed, this`st, codec
      ensures Ran(acts) && wg == old(wg) - 1 && (panics <==> old(wg) < 1)
      ensures fate.headOk ==> codec.Written() == old(codec.Written()) + Direct(req, errmsg).Tokens(false)
      ensures st.log.answers == old(st.log.answers) +
                if old(st.loop.PingReplying?) then [] else [Direct(req, errmsg)]
      ensures st.loop == if panics then LoopExited else Reading
    {
      acts := EmitResponse(req, errmsg, fate, acts0);
      panics, acts := SettleOne(acts);
    }

    /** ReadRequest: the header, if it can be read; the method it names, looked up on the server; and the
        body, which is thrown away if there is no such method. `refusal`: what the decoder says of a body
        it cannot read. */
    method ReadRequest(server: RpcServer.Server, head: Option<RequestHeader>, body: Option<Value>,
                       blank: Value, refusal: string, ghost acts0: seq<Action>)
      returns (res: ReadResult, ghost acts: seq<Action>)
      requires Ran(acts0) && st.loop == Reading
      modifies this`st
      ensures Ran(acts) && st.loop == Returned(res) && st.log.answers == old(st.log.answers)
      ensures match head
              case None => res == Fatal && st.log.read == old(st.log.read)
              case Some(h) =>
                if h.IsPing() then res == Ping(h) && st.log.read == old(st.log.read)
                else st.log.read == old(st.log.read) + [h] &&
                     exists r :: RpcServer.IsLookup(server.services, h.serviceMethod, r) &&
                       res == if !r.Found? then Bad(h, r.Text(h.serviceMethod))
                              else if body.Some? then Good(h, body.value, blank) else Bad(h, refusal)
      ensures head.Some? && !head.value.IsPing() ==>
                var name := head.value.serviceMethod;
                && ('.' !in name ==> res == Bad(head.value, "rpc: service/method request ill-formed: " + name))
                && (forall i :: 0 <= i < |name| && name[i] == '.' && '.' !in name[..i] ==>
                      res == if name[..i] !in server.services
                             then Bad(head.value, "rpc: can't find service " + name)
                             else if name[i + 1..] !in server.services[name[..i]]
                             then Bad(head.value, "rpc: can't find method " + name)
                             else if body.Some? then Good(head.value, body.value, blank)
                             else Bad(head.value, refusal))
    {
      if head.None? {
        acts := Step(ReadHeadFails, acts0);
        return Fatal, acts;
      }
      var h := head.value;
      if h.IsPing() {
        acts := Step(ReadHead(h, false, "ping"), acts0);
        return Ping(h), acts;
      }
      res, acts := ReadCall(server, h, body, blank, refusal, acts0);
    }

    method ReadCall(server: RpcServer.Server, head: RequestHeader, body: Option<Value>, blank: Value,
                    refusal: string, ghost acts0: seq<Action>)
      returns (res: ReadResult, ghost acts: seq<Action>)
      requires Ran(acts0) && st.loop == Reading && !head.IsPing()
      modifies this`st
      ensures Ran(acts) && st.loop == Returned(res) && st.log.answers == old(st.log.answers)
      ensures st.log.read == old(st.log.read) + [head]
      ensures exists r :: RpcServer.IsLookup(server.services, head.serviceMethod, r) &&
                res == if !r.Found? then Bad(head, r.Text(head.serviceMethod))
                       else if body.Some? then Good(head, body.value, blank) else Bad(head, refusal)
      ensures var name := head.serviceMethod;
                && ('.' !in name ==> res == Bad(head, "rpc: service/method request ill-formed: " + name))
                && (forall i :: 0 <= i < |name| && name[i] == '.' && '.' !in name[..i] ==>
                      res == if name[..i] !in server.services
                             then Bad(head, "rpc: can't find service " + name)
                             else if name[i + 1..] !in server.services[name[..i]]
                             then Bad(head, "rpc: can't find method " + name)
                             else if body.Some? then Good(head, body.value, blank)
                             else Bad(head, refusal))
    {
      var r := server.GetServiceMethod(head.serviceMethod);
      if r.Found? {
        acts := Step(ReadHead(head, true, ""), acts0);
        res, acts := ReadBodyOf(head, body, blank, refusal, acts);
      } else {
        var text := r.Text(head.serviceMethod);
        res := Bad(head, text);
        acts := Step(ReadHead(head, false, text), acts0);
        acts := Step(Discard, acts);
      }
      ReadSays(server.services, head, body, blank, refusal, r, res);
    }

    method ReadBodyOf(head: RequestHeader, body: Option<Value>, blank: Value, refusal: string,
                      ghost acts0: seq<Action>)
      returns (res: ReadResult, ghost acts: seq<Action>)
      requires Ran(acts0) && st.loop == ReadingBody(head)
      modifies this`st
      ensures Ran(acts) && st.loop == Returned(res) && st.log == old(st.log)
      ensures res == if body.Some? then Good(head, body.value, blank) else Bad(head, refusal)
    {
      if body.Some? {
        res := Good(head, body.value, blank);
        acts := Step(ReadBody(body.value, blank), acts0);
      } else {
        res := Bad(head, refusal);
        acts := Step(BodyFails(refusal), acts0);
      }
    }

    /** RoutineRun between ReadRequest and the first answer or dispatch. */
    method Accept(res: ReadResult, ghost acts0: seq<Action>) returns (ghost acts: seq<Action>)
      requires Ran(acts0) && st.loop == Returned(res)
      modifies this`wg, this`accepted, this`st
      ensures Ran(acts) && running == old(running) && codec.Written() == old(codec.Written())
      ensures wg == old(wg) + if running then 1 else 0
      ensures accepted == old(accepted) +
                if !running then [] else
                match res
                case Bad(head, text) => [Refused(head, text)]
                case Good(head, arg, blank) => [Work(head, arg, blank)]
                case _ => []
      ensures st.log.answers == old(st.log.answers) && st.log.dropped == old(st.log.dropped)
      ensures st.loop ==
                if !running then Draining else
                match res
                case Fatal => Closing
                case Ping(head) => PingReplying(head)
                case Bad(head, text) =>
                  if head.serviceMethod == "" then Reading else Replying(|old(accepted)|, text)
                case Good(head, _, _) =>
                  if head.DummyReturn() then Collecting([|old(accepted)|])
                  else Dispatching(|old(accepted)|, false)
    {
      if running {
        wg := wg + 1;
        match res {
          case Bad(head, text) => accepted := accepted + [Refused(head, text)];
          case Good(head, arg, blank) => accepted := accepted + [Work(head, arg, blank)];
          case _ =>
        }
      }
      acts := Step(Check, acts0);
    }

    /** dispatchRequest and what follows it: the handler runs for somebody, for nobody, or not at all,
        and then its request is answered, even if it has been answered before. */
    method DispatchCall(who: nat, verdict: Verdict, fate: Fate, ghost acts0: seq<Action>)
      returns (panics: bool, ghost acts: seq<Action>)
      requires Ran(acts0) && st.loop.Dispatching? && st.loop.who == who < |accepted|
      modifies this`wg, this`closed, this`st, codec
      ensures Ran(acts)
      ensures verdict.Runs? ==>
                && !panics && st.loop == Reading && wg == old(wg) && codec.Written() == old(codec.Written())
                && (if old(st.loop.dummy) then who in st.dummies else who in st.workers)
                && st.log.answers == old(st.log.answers)
                && st.log.executed == old(st.log.executed) + [who]
      ensures verdict.Fails? ==>
                && wg == old(wg) - 1 && (panics <==> old(wg) < 1)
                && st.log.answers == old(st.log.answers)
                     + [Direct(old(accepted)[who].head, verdict.text)]
                && st.loop == if panics then LoopExited else Reading
    {
      acts := Step(Dispatch(verdict), acts0);
      panics := false;
      if verdict.Fails? {
        panics, acts := SendResponse(accepted[who].head, verdict.text, fate, acts);
      }
    }

    /** A dummy return: answered first, with whatever its untouched reply object holds, then executed; and
        answered again if it cannot be. */
    method ServeDummy(who: nat, verdict: Verdict, fates: nat -> Fate, flushOk: bool, fate: Fate,
                      ghost acts0: seq<Action>)
      returns (panics: bool, ghost acts: seq<Action>)
      requires Ran(acts0) && st.loop == Collecting([who]) && !closed && who < |accepted|
      modifies this`doneChan, this`freed, this`wg, this`closed, this`st, codec
      ensures Ran(acts) && st.loop == if panics then LoopExited else Reading
      ensures var n := Least(100, |old(doneChan)|);
              var group := [who] + old(doneChan)[..n];
              && Known(old(st), group)
              && st.log.answers == old(st.log.answers) + GroupAnswers(old(st), group)
                   + (if verdict.Fails? && n + 1 <= old(wg) then [Direct(old(accepted)[who].head, verdict.text)]
                      else [])
              && (panics <==> n + 1 > old(wg) || (verdict.Fails? && n + 1 == old(wg)))
    {
      var sent;
      sent, panics, acts := DoWriteResponse(who, true, fates, flushOk, acts0);
      if !panics {
        WhoIsKnown(st, acts, who);
        panics, acts := DispatchCall(who, verdict, fate, acts);
      }
    }

    /** A dummy return is accepted: it is about to be answered, with an untouched reply. */
    method AcceptDummy(res: ReadResult, ghost q: seq<nat>, ghost acts0: seq<Action>)
      returns (who: nat, ghost acts: seq<Action>)
      requires Ran(acts0) && st.loop == Returned(res) && running && Known(st, q)
      requires res.Good? && res.head.DummyReturn()
      modifies this`wg, this`accepted, this`st
      ensures Ran(acts) && who == |old(accepted)| && st.loop == Collecting([who])
      ensures accepted == old(accepted) + [Work(res.head, res.arg, res.blank)] && wg == old(wg) + 1
      ensures st.log.answers == old(st.log.answers) && Known(st, [who] + q)
      ensures GroupAnswers(st, [who] + q) == [Grouped(res.head, res.blank, "")] + GroupAnswers(old(st), q)
    {
      who := |accepted|;
      acts := Accept(res, acts0);
      NotRunYet(st, acts, who);
      SplitAnswers(old(st), st, who, q);
    }

    /** One turn of RoutineRun for a dummy return. It is answered together with up to 100 finished calls. */
    method HandleDummy(res: ReadResult, verdict: Verdict, fates: nat -> Fate, flushOk: bool, fate: Fate,
                       ghost acts0: seq<Action>)
      returns (panics: bool, ghost acts: seq<Action>)
      requires Ran(acts0) && st.loop == Returned(res) && !closed && running
      requires res.Good? && res.head.DummyReturn()
      modifies this, codec
      ensures Ran(acts) && st.loop == if panics then LoopExited else Reading
      ensures accepted == old(accepted) + [Work(res.head, res.arg, res.blank)]
      ensures var n := Least(100, |old(doneChan)|);
              && Known(old(st), old(doneChan)[..n])
              && st.log.answers == old(st.log.answers) + [Grouped(res.head, res.blank, "")]
                   + GroupAnswers(old(st), old(doneChan)[..n])
                   + (if verdict.Fails? && n <= old(wg) then [Direct(res.head, verdict.text)] else [])
    {
      ghost var q, before := doneChan[..Least(UNITE_PACKAGE_NUM, |doneChan|)], st;
      ChannelIsKnown(st, acts0);
      var who;
      who, acts := AcceptDummy(res, q, acts0);
      panics, acts := ServeDummy(who, verdict, fates, flushOk, fate, acts);
      JoinAnswers(before.log.answers, Grouped(res.head, res.blank, ""), GroupAnswers(before, q));
    }

    /** One turn of RoutineRun for anything else, from what ReadRequest returned to the next read. */
    method HandleOther(res: ReadResult, verdict: Verdict, fate: Fate, ghost acts0: seq<Action>)
      returns (panics: bool, ghost acts: seq<Action>)
      requires Ran(acts0) && st.loop == Returned(res) && !closed
      requires running && res.Good? ==> !res.head.DummyReturn()
      modifies this, codec
      ensures Ran(acts)
      ensures st.loop == if !old(running) then Draining else if res.Fatal? then Closing
                         else if panics then LoopExited else Reading
      ensures accepted == old(accepted) +
                if !old(running) then [] else
                match res
                case Bad(head, text) => [Refused(head, text)]
                case Good(head, arg, blank) => [Work(head, arg, blank)]
                case _ => []
      ensures st.log.answers == old(st.log.answers) +
                if !old(running) then [] else
                match res
                case Bad(head, text) => if head.serviceMethod == "" then [] else [Direct(head, text)]
                case Good(head, _, _) => if verdict.Runs? then [] else [Direct(head, verdict.text)]
                case _ => []
    {
      var who := |accepted|;
      panics := false;
      acts := Accept(res, acts0);
      if running {
        match res {
          case Ping(head) => panics, acts := SendResponse(head, "", fate, acts);
          case Bad(head, text) =>
            if head.serviceMethod != "" {
              panics, acts := SendResponse(head, text, fate, acts);
            }
          case Good(head, _, _) => panics, acts := DispatchCall(who, verdict, fate, acts);
          case _ =>
        }
      }
    }

    /** One turn of RoutineRun: where it goes, what it accepts and exactly what it answers. */
    method HandleRequest(res: ReadResult, verdict: Verdict, fates: nat -> Fate, flushOk: bool, fate: Fate,
                         ghost acts0: seq<Action>)
      returns (panics: bool, ghost acts: seq<Action>)
      requires Ran(acts0) && st.loop == Returned(res) && !closed
      modifies this, codec
      ensures Ran(acts)
      ensures st.loop == if !old(running) then Draining else if res.Fatal? then Closing
                         else if panics then LoopExited else Reading
      ensures accepted == old(accepted) +
                if !old(running) then [] else
                match res
                case Bad(head, text) => [Refused(head, text)]
                case Good(head, arg, blank) => [Work(head, arg, blank)]
                case _ => []
      ensures !(old(running) && res.Good? && res.head.DummyReturn()) ==>
                st.log.answers == old(st.log.answers) +
                  if !old(running) then [] else
                  match res
                  case Bad(head, text) => if head.serviceMethod == "" then [] else [Direct(head, text)]
                  case Good(head, _, _) => if verdict.Runs? then [] else [Direct(head, verdict.text)]
                  case _ => []
      ensures old(running) && res.Good? && res.head.DummyReturn() ==>
                var n := Least(100, |old(doneChan)|);
                && Known(old(st), old(doneChan)[..n])
                && st.log.answers == old(st.log.answers) + [Grouped(res.head, res.blank, "")]
                     + GroupAnswers(old(st), old(doneChan)[..n])
                     + (if verdict.Fails? && n <= old(wg) then [Direct(res.head, verdict.text)] else [])
    {
      if running && res.Good? && res.head.DummyReturn() {
        panics, acts := HandleDummy(res, verdict, fates, flushOk, fate, acts0);
      } else {
        panics, acts := HandleOther(res, verdict, fate, acts0);
      }
    }

    /** WhenFuncCallDone of a worker whose handler has returned: a reported call goes on doneChan, if that
        is still open, and a dummy return goes back to the pool. */
    method WhenFuncCallDone(who: nat, ghost acts0: seq<Action>) returns (ghost acts: seq<Action>)
      requires Ran(acts0) && (who in st.finished || who in st.dummies) && who < |accepted|
      modifies this`doneChan, this`freed, this`st
      ensures Ran(acts)
      ensures doneChan == old(doneChan) +
                if accepted[who].head.DummyReturn() || closed then [] else [who]
      ensures freed == old(freed) + if accepted[who].head.DummyReturn() then [who] else []
      ensures st.log.late == old(st.log.late) +
                if !accepted[who].head.DummyReturn() && closed then {who} else {}
    {
      ReportKinds(st, acts0, who);
      if accepted[who].head.DummyReturn() {
        freed := freed + [who];
        acts := Step(DummyReturns(who), acts0);
      } else {
        if !closed {
          doneChan := doneChan + [who];
        }
        acts := Step(Deliver(who), acts0);
      }
    }

    /** One turn of RoutineWriteResponse that found a call or the end of doneChan. */
    method WriterTurn(fates: nat -> Fate, flushOk: bool, ghost acts0: seq<Action>)
      returns (goesOn: bool, ghost acts: seq<Action>)
      requires Ran(acts0) && st.writer.Waiting? && (doneChan != [] || closed)
      modifies this, codec
      ensures Ran(acts) && st.writer == if goesOn then Waiting else WExited
      ensures var n := Least(101, |old(doneChan)|);
              && doneChan == old(doneChan)[n..]
              && (goesOn ==> Known(old(st), old(doneChan)[..n]) && freed == old(freed) + old(doneChan)[..n]
                             && st.log.answers == old(st.log.answers) + GroupAnswers(old(st), old(doneChan)[..n]))
              && (goesOn <==> n > 0 && n <= old(wg) && (old(closed) ==> n > 100))
    {
      if doneChan == [] {
        acts := Step(WClosed, acts0);
        return false, acts;
      }
      ghost var before, q := st, doneChan;
      var first, sent, panics;
      first, acts := Receive(acts0);
      ghost var between := st;
      sent, panics, acts := DoWriteResponse(first, false, fates, flushOk, acts);
      goesOn := sent && !panics;
      SplitHead(q, Least(UNITE_PACKAGE_NUM, |q| - 1));
      if goesOn {
        SameAnswers(between, before, q[..Least(UNITE_PACKAGE_NUM, |q| - 1) + 1]);
      }
    }

    method Receive(ghost acts0: seq<Action>) returns (who: nat, ghost acts: seq<Action>)
      requires Ran(acts0) && st.writer.Waiting? && doneChan != []
      modifies this`doneChan, this`st
      ensures Ran(acts) && st.writer == WCollecting([who]) && SameWork(old(st))
      ensures who == old(doneChan)[0] && doneChan == old(doneChan)[1..]
    {
      who := doneChan[0];
      doneChan := doneChan[1..];
      acts := Step(WTake, acts0);
    }
  }

  lemma WhoIsKnown(s: State, acts: seq<Action>, who: nat)
    requires CanRun(Initial(), acts) && s == After(Initial(), acts)
    requires s.loop.Dispatching? && s.loop.who == who
    ensures who < |s.accepted| && s.accepted[who].Work?
  {
    SA.ReachedInv(s);
    assert SS.LoopKind(s.loop, s.accepted, s.results);
  }

  lemma OneFurther(first: nat, q: seq<nat>, i: nat)
    requires i < |q|
    ensures q[i..][0] == q[i] == ([first] + q)[1 + i] && q[i..][1..] == q[i + 1..]
    ensures [first] + q[..i] + [q[i]] == [first] + q[..i + 1]
  {
  }

  lemma CollectingFacts(s: State, acts: seq<Action>, byLoop: bool, first: nat)
    requires CanRun(Initial(), acts) && s == After(Initial(), acts)
    requires if byLoop then s.loop == Collecting([first]) else s.writer == WCollecting([first])
    ensures Known(s, [first] + s.doneChan) && DummyFirst(s, [first] + s.doneChan, byLoop)
  {
    SA.ReachedInv(s);
    assert SS.KindInv(s);
    assert SS.LoopKind(s.loop, s.accepted, s.results) && SS.WriterKind(s.writer, s.accepted, s.results);
    assert [first][0] == first;
  }

  /** What is collected has the right shape for being sent. */
  lemma CollectedFacts(s: State, t: State, first: nat, n: nat, byLoop: bool)
    requires n <= |s.doneChan| && DummyFirst(s, [first] + s.doneChan, byLoop)
    requires t.accepted == s.accepted && t.results == s.results
    ensures var who := [first] + s.doneChan[..n];
            && Known(s, who) && Known(t, who) && DummyFirst(t, who, byLoop)
            && GroupAnswers(t, who) == GroupAnswers(s, who)
  {
    var who, all := [first] + s.doneChan[..n], [first] + s.doneChan;
    assert forall i :: 0 <= i < |who| ==> who[i] == all[i];
  }

  /** A request just accepted has no result. */
  lemma NotRunYet(s: State, acts: seq<Action>, who: nat)
    requires CanRun(Initial(), acts) && s == After(Initial(), acts) && s.loop == Collecting([who])
    ensures who < |s.accepted| && s.accepted[who].Work? && who !in s.results
    ensures GroupAnswer(s, who) == Grouped(s.accepted[who].head, s.accepted[who].blank, "")
  {
    SA.ReachedInv(s);
    assert SS.LoopKind(s.loop, s.accepted, s.results);
    assert [who][0] == who;
  }

  lemma SplitHead(q: seq<nat>, n: nat)
    requires n < |q|
    ensures [q[0]] + q[1..][..n] == q[..n + 1] && q[1..][n..] == q[n + 1..]
  {
  }

  lemma SameAnswers(s: State, t: State, group: seq<nat>)
    requires Known(s, group) && t.accepted == s.accepted && t.results == s.results
    ensures Known(t, group) && GroupAnswers(t, group) == GroupAnswers(s, group)
  {
  }

  lemma ReportKinds(s: State, acts: seq<Action>, who: nat)
    requires CanRun(Initial(), acts) && s == After(Initial(), acts)
    requires who in s.finished || who in s.dummies
    ensures who < |s.accepted|
    ensures if s.accepted[who].head.DummyReturn() then who in s.dummies else who in s.finished
  {
    SA.ReachedInv(s);
    assert SS.KindInv(s);
  }

  lemma JoinAnswers(p: seq<Answer>, a: Answer, q: seq<Answer>)
    ensures p + ([a] + q) == p + [a] + q
  {
  }

  lemma ChannelIsKnown(s: State, acts: seq<Action>)
    requires CanRun(Initial(), acts) && s == After(Initial(), acts)
    ensures Known(s, s.doneChan)
  {
    SA.ReachedInv(s);
    assert SS.KindInv(s);
  }

  /** Accepting a request changes no answer of a call that is already known. */
  lemma SplitAnswers(s: State, t: State, who: nat, q: seq<nat>)
    requires Known(s, q) && s.accepted <= t.accepted && t.results == s.results
    requires who < |t.accepted| && t.accepted[who].Work?
    ensures Known(t, [who] + q)
    ensures GroupAnswers(t, [who] + q) == [GroupAnswer(t, who)] + GroupAnswers(s, q)
  {
  }

  /** What a lookup gives, by where the name's first dot is. */
  lemma LookupSays(services: map<string, set<string>>, name: string, r: RpcServer.Lookup)
    requires RpcServer.IsLookup(services, name, r)
    ensures '.' !in name ==> r == RpcServer.IllFormed
    ensures forall i :: 0 <= i < |name| && name[i] == '.' && '.' !in name[..i] ==>
              r == if name[..i] !in services then RpcServer.NoService
                   else if name[i + 1..] !in services[name[..i]] then RpcServer.NoMethod
                   else RpcServer.Found(name[..i], name[i + 1..])
  {
    if '.' !in name {
      RpcServer.DotMeansDot(services, name, r);
    }
    forall i | 0 <= i < |name| && name[i] == '.' && '.' !in name[..i]
      ensures r == if name[..i] !in services then RpcServer.NoService
                   else if name[i + 1..] !in services[name[..i]] then RpcServer.NoMethod
                   else RpcServer.Found(name[..i], name[i + 1..])
    {
      RpcServer.CutAtFirstDot(services, name, r, i);
    }
  }

  /** ... and what the read makes of it. */
  lemma ReadSays(services: map<string, set<string>>, head: RequestHeader, body: Option<Value>, blank: Value,
                 refusal: string, r: RpcServer.Lookup, res: ReadResult)
    requires RpcServer.IsLookup(services, head.serviceMethod, r)
    requires res == if !r.Found? then Bad(head, r.Text(head.serviceMethod))
                    else if body.Some? then Good(head, body.value, blank) else Bad(head, refusal)
    ensures var name := head.serviceMethod;
              && ('.' !in name ==> res == Bad(head, "rpc: service/method request ill-formed: " + name))
              && (forall i :: 0 <= i < |name| && name[i] == '.' && '.' !in name[..i] ==>
                    res == if name[..i] !in services
                           then Bad(head, "rpc: can't find service " + name)
                           else if name[i + 1..] !in services[name[..i]]
                           then Bad(head, "rpc: can't find method " + name)
                           else if body.Some? then Good(head, body.value, blank)
                           else Bad(head, refusal))
  {
    LookupSays(services, head.serviceMethod, r);
  }
}
