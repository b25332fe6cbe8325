// TClientConn in its own form: the loops of rpc/client_conn.go over the connection's fields. Each
// method also advances `st`, the connection's state in the transition system, along a run from the
// initial state, so that whatever holds on every run holds of these loops.
module ClientConnection {
  import opened RpcTypes
  import opened ClientMachine
  import opened ClientSafety
  import CT = ClientTheorems
  import Session
  import opened GobCodec
  import Framing

  /** The header made at registration, and the arguments. */
  ghost predicate Carries(request: Framing.Request, call: Call, key: nat) {
    request.head == HeaderOf(call, key) && request.args == call.args
  }

  /** What goes into a group beside the entries. */
  ghost predicate RequestsOf(group: seq<Entry>, requests: seq<Framing.Request>, sent: seq<Call>) {
    |requests| == |group| &&
    forall i :: 0 <= i < |group| ==>
      group[i].idx < |sent| && Carries(requests[i], sent[group[i].idx], group[i].key)
  }

  /** What a session puts on the wire for the registrations from number `n` on. */
  ghost function CallStream(sent: seq<Call>, n: nat): seq<Token>
    decreases |sent| - n
  {
    if n >= |sent| then [] else Session.RequestTokens(sent, Entry(n, n)) + CallStream(sent, n + 1)
  }

  /** The codec's encoder takes every call from number `n` on, with its arguments. */
  ghost predicate TakesCalls(fates: nat -> Fate, sent: seq<Call>, n: nat) {
    forall i :: n <= i < |sent| ==> fates(i - n).Writes(sent[i].args)
  }

  /** What a write leaves behind that failed at this request. */
  function HeadOnly(request: Framing.Request, fate: Fate): seq<Token> {
    if fate.headOk then [ReqHead(request.head)] else []
  }

  /** The codec takes the first `n` requests. */
  predicate TakesAll(fates: nat -> Fate, requests: seq<Framing.Request>, n: nat) {
    n <= |requests| && forall i :: 0 <= i < n ==> fates(i).Writes(requests[i].args)
  }

  /** What wakes RoutineWriteRequst. */
  datatype Wake = CallArrives(call: Call, queue: seq<Call>, closed: bool) | QueueClosed | PingDue | ExitNotice

  /** How many calls of a queue one group takes after its first. */
  function Waiting(queue: seq<Call>): nat {
    if |queue| <= UNITE_PACKAGE_NUM then |queue| else UNITE_PACKAGE_NUM
  }

  /** Since the connection had told `was` and had `waiting` pending, calls have been registered, each under
      its own number, and nothing else has happened to any call. */
  ghost predicate Registered(told: seq<seq<Outcome>>, pending: map<nat, nat>, was: seq<seq<Outcome>>,
                             waiting: map<nat, nat>) {
    && was <= told && (forall i :: |was| <= i < |told| ==> told[i] == [])
    && (forall k :: k in pending <==> k in waiting || |was| <= k < |told|)
  }

  /** Some run of the transition system leads to `s`. */
  ghost predicate Runs(s: State, repaired: bool) {
    exists acts :: CanRun(Initial(repaired), acts) && After(Initial(repaired), acts) == s
  }

  lemma InitialRuns(repaired: bool)
    ensures Runs(Initial(repaired), repaired)
  {
    assert CanRun(Initial(repaired), []) && After(Initial(repaired), []) == Initial(repaired);
  }

  lemma RunsOn(s: State, a: Action, repaired: bool)
    requires Runs(s, repaired) && Enabled(s, a)
    ensures Runs(Apply(s, a), repaired)
  {
    var acts :| CanRun(Initial(repaired), acts) && After(Initial(repaired), acts) == s;
    RunLonger(Initial(repaired), acts, a);
  }

  /** So the theorems about runs hold of the connection while at most 2^64 calls are registered. */
  lemma RunsAreReached(s: State, repaired: bool)
    requires Runs(s, repaired) && |s.sent| <= TWO_TO_THE_64
    ensures CT.Reached(s, repaired) && Inv(s)
  {
    var acts :| CanRun(Initial(repaired), acts) && After(Initial(repaired), acts) == s;
    CT.FewCallsThroughout(Initial(repaired), acts);
    CT.ReachedInv(s, repaired);
  }

  lemma KeysOfRun(s: State, repaired: bool)
    requires Runs(s, repaired) && |s.sent| <= TWO_TO_THE_64
    ensures KeysInv(s) && (s.reader.ShuttingDown? ==> !s.shutdown)
  {
    RunsAreReached(s, repaired);
  }

  lemma GroupOfRun(s: State, repaired: bool)
    requires Runs(s, repaired) && |s.sent| <= TWO_TO_THE_64
    requires s.writer.Batching? || s.writer.Writing? || s.writer.CleaningUp?
    ensures Latest(s.writer.group, |s.sent|)
  {
    RunsAreReached(s, repaired);
  }

  class ClientConn {
    const codec: Codec
    var seqNo: nat
    var pending: map<nat, nat>
    var closing: bool
    var shutdown: bool
    var exitNotify: bool
    const repaired: bool            // whether onShutDown also empties `pending`
    var told: seq<seq<Outcome>>     // what each registered call's Done has been sent
    ghost var st: State

    ghost predicate Valid()
      reads this, codec
    {
      && codec.Valid() && seqNo == st.seqNo && pending == st.pending && closing == st.closing
      && shutdown == st.shutdown && exitNotify == st.exitNotify && told == st.outcomes
      && |told| == |st.sent| && repaired == st.repaired
      && Runs(st, repaired)
    }

    constructor (repaired: bool)
      ensures Valid() && fresh(codec) && codec.Written() == [] && told == [] && !closing && !shutdown
      ensures st == Initial(repaired) && this.repaired == repaired
    {
      codec := new Codec();
      this.repaired := repaired;
      seqNo, pending, told := 0, map[], [];
      closing, shutdown, exitNotify := false, false, false;
      st := Initial(repaired);
      new;
      InitialRuns(repaired);
    }

    /** Takes one step of the transition system. */
    ghost method Step(a: Action)
      requires Runs(st, repaired) && Enabled(st, a)
      modifies this`st
      ensures st == Apply(old(st), a) && Runs(st, repaired)
    {
      RunsOn(st, a, repaired);
      st := Apply(st, a);
    }

    /** No call was taken, registered or turned away. */
    ghost predicate SameCalls(s: State)
      reads this
    {
      st.taken == s.taken && st.sent == s.sent && st.rejected == s.rejected
    }

    /** makeRequestHeader, called with the mutex held. */
    method MakeRequestHeader(call: Call, idx: nat) returns (header: RequestHeader)
      requires Valid() && idx == |told|
      modifies this`seqNo, this`pending, this`told
      ensures header == HeaderOf(call, old(seqNo))
      ensures seqNo == (old(seqNo) + 1) % 0x1_0000_0000_0000_0000
      ensures pending == old(pending)[old(seqNo) := idx] && told == old(told) + [[]]
    {
      var key := seqNo;
      seqNo := (seqNo + 1) % TWO_TO_THE_64;
      pending := pending[key := idx];
      told := told + [[]];
      var flag: bv32 := 0;
      if !call.wantsReply {
        flag := flag | REQUEST_FLAG_DUMMY_RETURN;
      }
      if call.serviceMethod == PING_METHOD {
        flag := flag | REQUEST_FLAG_PING;
      }
      header := RequestHeader(call.serviceMethod, key, flag);
    }

    /** sendCall on a connection that was closed meanwhile. */
    method TurnAway(call: Call)
      requires Valid() && st.writer == Holding(call) && (shutdown || closing)
      modifies this`st
      ensures Valid() && st.writer == WriterExited
      ensures st.rejected == old(st.rejected) + [call] && st.sent == old(st.sent)
    {
      Step(ClientMachine.Admit);
      Step(Reject);
    }

    /** sendCall on an open connection, up to its loop. */
    method Admit(call: Call)
      returns (entry: Entry, request: Framing.Request)
      requires Valid() && st.writer == Holding(call) && !shutdown && !closing
      modifies this
      ensures Valid() && st.writer == Batching([entry])
      ensures entry == Entry(old(seqNo), |old(told)|) && Carries(request, call, entry.key)
      ensures st.sent == old(st.sent) + [call] && st.rejected == old(st.rejected)
      ensures st.queueClosed == old(st.queueClosed)
      ensures told == old(told) + [[]] && pending == old(pending)[entry.key := entry.idx]
    {
      entry := Entry(seqNo, |told|);
      var header := MakeRequestHeader(call, |told|);
      request := Framing.Request(header, call.args);
      Step(ClientMachine.Admit);
    }

    /** One turn of sendCall's loop that found a call in the queue. */
    method BatchOne(call: Call)
      returns (entry: Entry, request: Framing.Request)
      requires Valid() && st.writer.Batching? && |st.writer.group| <= UNITE_PACKAGE_NUM
      modifies this
      ensures Valid() && st.writer == Batching(old(st.writer.group) + [entry])
      ensures entry == Entry(old(seqNo), |old(told)|) && Carries(request, call, entry.key)
      ensures st.sent == old(st.sent) + [call] && st.rejected == old(st.rejected)
      ensures st.queueClosed == old(st.queueClosed)
      ensures entry.idx == |old(st.sent)|
      ensures told == old(told) + [[]] && pending == old(pending)[entry.key := entry.idx]
    {
      entry := Entry(seqNo, |told|);
      var header := MakeRequestHeader(call, |told|);
      request := Framing.Request(header, call.args);
      Step(BatchMore(call));
    }

    /** ... and what it adds to the group. */
    method BatchNext(group: seq<Entry>, requests: seq<Framing.Request>, call: Call)
      returns (more: seq<Entry>, moreRequests: seq<Framing.Request>)
      requires Valid() && |told| < TWO_TO_THE_64
      requires st.writer == Batching(group) && |group| <= UNITE_PACKAGE_NUM
      requires RequestsOf(group, requests, st.sent)
      modifies this
      ensures Valid() && st.writer == Batching(more) && |more| == |group| + 1
      ensures RequestsOf(more, moreRequests, st.sent) && st.sent == old(st.sent) + [call]
      ensures st.rejected == old(st.rejected) && st.queueClosed == old(st.queueClosed)
      ensures forall was, waiting :: Registered(old(told), old(pending), was, waiting) ==>
                Registered(told, pending, was, waiting)
    {
      KeysOfRun(st, repaired);
      var entry, request;
      entry, request := BatchOne(call);
      more := group + [entry];
      moreRequests := requests + [request];
    }

    /** sendCall's loop: it takes waiting calls until it has 100 of them or the queue is empty, and
        registers each as it comes. A queue found empty and closed ends it, and with it the writer. */
    method Gather(first: Entry, request: Framing.Request, queue: seq<Call>, closed: bool)
      returns (group: seq<Entry>, requests: seq<Framing.Request>, left: seq<Call>, cut: bool)
      requires Valid() && |told| + Waiting(queue) <= TWO_TO_THE_64 && (closed ==> st.queueClosed)
      requires st.writer == Batching([first]) && RequestsOf([first], [request], st.sent)
      modifies this
      ensures Valid() && st.writer == (if cut then WriterExited else Batching(group))
      ensures RequestsOf(group, requests, st.sent) && (cut <==> closed && |queue| < UNITE_PACKAGE_NUM)
      ensures var n := Waiting(queue);
              |group| == 1 + n && left == queue[n..] && st.sent == old(st.sent) + queue[..n]
      ensures st.rejected == old(st.rejected)
      ensures forall was, waiting :: Registered(old(told), old(pending), was, waiting) ==>
                Registered(told, pending, was, waiting)
    {
      group, requests, left, cut := [first], [request], queue, false;
      var i, looping := 0, true;
      ghost var sent := st.sent;
      while i < UNITE_PACKAGE_NUM && looping
        invariant Valid() && st.writer == Batching(group) && RequestsOf(group, requests, st.sent)
        invariant i <= UNITE_PACKAGE_NUM && i <= |queue| && |group| == 1 + i && left == queue[i..]
        invariant looping || (i == |queue| && !closed)
        invariant st.sent == sent + queue[..i] && st.rejected == old(st.rejected)
        invariant st.queueClosed == old(st.queueClosed)
        invariant forall was, waiting :: Registered(old(told), old(pending), was, waiting) ==>
                    Registered(told, pending, was, waiting)
        decreases UNITE_PACKAGE_NUM - i, looping
      {
        if left == [] {
          if closed {
            Step(BatchClosed);
            cut := true;
            return;
          }
          looping := false;
        } else {
          assert queue[..i + 1] == queue[..i] + [left[0]];
          group, requests := BatchNext(group, requests, left[0]);
          left := left[1..];
          i := i + 1;
        }
      }
    }

    /** sendCall between the check and the unlock. */
    method Collect(first: Entry, request: Framing.Request, queue: seq<Call>, closed: bool)
      returns (group: seq<Entry>, requests: seq<Framing.Request>, left: seq<Call>, cut: bool)
      requires Valid() && |told| + Waiting(queue) <= TWO_TO_THE_64 && (closed ==> st.queueClosed)
      requires st.writer == Batching([first]) && RequestsOf([first], [request], st.sent)
      modifies this
      ensures Valid() && st.writer == (if cut then WriterExited else Writing(group, 0))
      ensures RequestsOf(group, requests, st.sent) && (cut <==> closed && |queue| < UNITE_PACKAGE_NUM)
      ensures var n := Waiting(queue);
              |group| == 1 + n && left == queue[n..] && st.sent == old(st.sent) + queue[..n]
      ensures st.rejected == old(st.rejected)
      ensures forall was, waiting :: Registered(old(told), old(pending), was, waiting) ==>
                Registered(told, pending, was, waiting)
    {
      group, requests, left, cut := Gather(first, request, queue, closed);
      if !cut {
        Step(BatchEnd);
      }
    }

    ghost method Wrote(group: seq<Entry>, i: nat, ok: bool)
      requires Valid() && st.writer == Writing(group, i) && i < |group|
      modifies this`st
      ensures Valid() && st.writer == if ok then Writing(group, i + 1) else CleaningUp(group, 0)
      ensures SameCalls(old(st))
    {
      Step(WriteOne(ok));
    }

    /** The codec has got `before`, then the first `n` requests, then what is left of a failed one. */
    ghost predicate Sent(requests: seq<Framing.Request>, n: nat, tail: seq<Token>, before: seq<Token>)
      requires n <= |requests|
      reads codec
    {
      codec.Written() == before + Framing.RequestStream(requests[..n]) + tail
    }

    /** One turn of sendGroupCall's first loop. */
    method WriteNext(group: seq<Entry>, requests: seq<Framing.Request>, i: nat, fate: Fate,
                     ghost before: seq<Token>)
      returns (ok: bool)
      requires Valid() && st.writer == Writing(group, i) && i < |group| == |requests|
      requires Sent(requests, i, [], before)
      modifies this`st, codec`buffered
      ensures Valid() && st.writer == if ok then Writing(group, i + 1) else CleaningUp(group, 0)
      ensures SameCalls(old(st))
      ensures ok <==> fate.Writes(requests[i].args)
      ensures ok ==> Sent(requests, i + 1, [], before)
      ensures !ok ==> Sent(requests, i, HeadOnly(requests[i], fate), before)
    {
      RequestStreamGrows(requests[..i], requests[i]);
      assert requests[..i + 1] == requests[..i] + [requests[i]];
      ok := codec.WriteRequest(requests[i].head, requests[i].args, fate);
      Wrote(group, i, ok);
    }

    /** sendGroupCall's first loop. `fates` says how the codec's encoder takes each request. What reaches
        the codec is the stream of the whole group, or of the part before the write that failed, perhaps
        with that request's header. */
    method WriteAll(group: seq<Entry>, requests: seq<Framing.Request>, fates: nat -> Fate)
      returns (written: nat)
      requires Valid() && st.writer == Writing(group, 0) && |requests| == |group|
      modifies this`st, codec`buffered
      ensures Valid() && TakesAll(fates, requests, written) && SameCalls(old(st))
      ensures written == |group| ==>
                st.writer == Writing(group, written) && Sent(requests, written, [], old(codec.Written()))
      ensures written < |group| ==>
                && st.writer == CleaningUp(group, 0) && !fates(written).Writes(requests[written].args)
                && Sent(requests, written, HeadOnly(requests[written], fates(written)), old(codec.Written()))
    {
      written := 0;
      ghost var before := codec.Written();
      while written < |group|
        invariant Valid() && st.writer == Writing(group, written) && SameCalls(old(st))
        invariant TakesAll(fates, requests, written) && Sent(requests, written, [], before)
      {
        var ok;
        ok := WriteNext(group, requests, written, fates(written), before);
        if !ok {
          return;
        }
        written := written + 1;
      }
    }

    /** ... and the flush: the group succeeds if and only if every write and the flush do. */
    method WriteGroup(group: seq<Entry>, requests: seq<Framing.Request>, fates: nat -> Fate, flushes: bool)
      returns (ok: bool)
      requires Valid() && st.writer == Writing(group, 0) && |requests| == |group|
      modifies this`st, codec
      ensures Valid() && st.writer == if ok then Selecting else CleaningUp(group, 0)
      ensures SameCalls(old(st))
      ensures ok <==> flushes && TakesAll(fates, requests, |group|)
      ensures ok ==> codec.wire == old(codec.Written()) + Framing.RequestStream(requests)
    {
      var written;
      written := WriteAll(group, requests, fates);
      ok := written == |group|;
      if ok {
        assert requests[..written] == requests;
        ok := codec.Flush(flushes);
        Step(FlushGroup(flushes));
      }
    }

    /** The unlocked end of a turn of sendGroupCall's clean-up loop. */
    method FailCall(idx: nat)
      requires Valid() && st.writer.FailingOne? && st.writer.idx == idx
      modifies this`told, this`st
      ensures Valid() && SameCalls(old(st))
      ensures st.writer == CleaningUp(old(st.writer.group), old(st.writer.next) + 1)
      ensures told == Completed(old(told), idx, Failed(WriteError))
    {
      told := Completed(told, idx, Failed(WriteError));
      Step(FailOne);
    }

    /** One turn of sendGroupCall's clean-up loop: the call is completed only if it is still there. */
    method CleanOne(entry: Entry)
      requires Valid() && |told| <= TWO_TO_THE_64
      requires st.writer.CleaningUp? && st.writer.next < |st.writer.group|
      requires st.writer.group[st.writer.next] == entry
      modifies this`pending, this`told, this`st
      ensures Valid() && SameCalls(old(st))
      ensures st.writer == CleaningUp(old(st.writer.group), old(st.writer.next) + 1)
      ensures pending == old(pending) - {entry.key}
      ensures told == if entry.key in old(pending)
                      then Completed(old(told), entry.idx, Failed(WriteError)) else old(told)
    {
      KeysOfRun(st, repaired);
      GroupOfRun(st, repaired);
      if entry.key in pending {
        var idx := pending[entry.key];
        pending := pending - {entry.key};
        Step(ClientMachine.CleanOne);
        FailCall(idx);
      } else {
        Step(ClientMachine.CleanOne);
      }
    }

    /** The first `i` members of the group have been looked up. */
    ghost predicate SweptTo(group: seq<Entry>, i: nat, was: seq<seq<Outcome>>, waiting: map<nat, nat>)
      requires i <= |group|
      reads this
    {
      && pending == waiting - GroupIndices(group[..i])
      && FailedExactly(told, was, GroupIndices(group[..i]), waiting, WriteError)
    }

    method CleanNext(group: seq<Entry>, i: nat, ghost was: seq<seq<Outcome>>, ghost waiting: map<nat, nat>)
      requires Valid() && |told| <= TWO_TO_THE_64 && i < |group|
      requires st.writer == CleaningUp(group, i) && SweptTo(group, i, was, waiting)
      modifies this`pending, this`told, this`st
      ensures Valid() && |told| == |old(told)| && SameCalls(old(st))
      ensures st.writer == CleaningUp(group, i + 1) && SweptTo(group, i + 1, was, waiting)
    {
      GroupOfRun(st, repaired);
      GroupIndicesStep(group, i, |told|);
      FailedOneMore(told, was, GroupIndices(group[..i]), waiting, group[i].idx, WriteError);
      CleanOne(group[i]);
    }

    /** sendGroupCall's clean-up loop: exactly the members still pending are completed, once each, and
        nobody else is touched. */
    method CleanUp(group: seq<Entry>)
      requires Valid() && |told| <= TWO_TO_THE_64 && st.writer == CleaningUp(group, 0)
      modifies this`pending, this`told, this`st
      ensures Valid() && st.writer == WriterExited && SameCalls(old(st))
      ensures pending == old(pending) - GroupIndices(group)
      ensures FailedExactly(told, old(told), GroupIndices(group), old(pending), WriteError)
    {
      var i := 0;
      ghost var was, waiting := told, pending;
      while i < |group|
        invariant i <= |group| && Valid() && |told| == |was| && SameCalls(old(st))
        invariant st.writer == CleaningUp(group, i) && SweptTo(group, i, was, waiting)
      {
        CleanNext(group, i, was, waiting);
        i := i + 1;
      }
      assert group[..|group|] == group;
      Step(CleanDone);
    }

    /** sendGroupCall: either the whole group is on the wire and nothing else has changed, or every member
        still pending has been completed with the write error, once, and the writer is done. */
    method SendGroupCall(group: seq<Entry>, requests: seq<Framing.Request>, fates: nat -> Fate, flushes: bool)
      returns (ok: bool)
      requires Valid() && |told| <= TWO_TO_THE_64
      requires st.writer == Writing(group, 0) && |requests| == |group|
      modifies this`pending, this`told, this`st, codec
      ensures Valid() && SameCalls(old(st))
      ensures ok <==> flushes && TakesAll(fates, requests, |group|)
      ensures ok ==> st.writer == Selecting && told == old(told) && pending == old(pending)
                     && codec.wire == old(codec.Written()) + Framing.RequestStream(requests)
      ensures !ok ==> st.writer == WriterExited && pending == old(pending) - GroupIndices(group)
                      && FailedExactly(told, old(told), GroupIndices(group), old(pending), WriteError)
    {
      ok := WriteGroup(group, requests, fates, flushes);
      if !ok {
        CleanUp(group);
      }
    }

    /** sendCall. On a closed connection the call is completed on the spot and nobody else is touched. On an
        open one it and the first min(100, waiting) calls of the queue are registered, in that order. If
        their group gets through, what it adds to the wire is, call by call, what a session writes for
        them, and they are pending; if it does not, each of them has been completed with the write error,
        once, and none is pending. If the queue is found closed first, they stay pending, none is
        written, and the writer is gone. */
    method SendCall(call: Call, queue: seq<Call>, closed: bool, fates: nat -> Fate, flushes: bool)
      returns (ok: bool, left: seq<Call>)
      requires Valid() && |told| + 1 + Waiting(queue) <= TWO_TO_THE_64 && st.writer == Holding(call)
      requires closed ==> st.queueClosed
      modifies this, codec
      ensures Valid() && st.writer == if ok then Selecting else WriterExited
      ensures old(shutdown || closing) ==>
                && !ok && left == queue && told == old(told) && pending == old(pending)
                && st.sent == old(st.sent) && st.rejected == old(st.rejected) + [call]
      ensures !old(shutdown || closing) ==>
                var n, cut := if |queue| <= 100 then |queue| else 100, closed && |queue| < 100;
                && left == queue[n..] && st.rejected == old(st.rejected)
                && st.sent == old(st.sent) + [call] + queue[..n]
                && SentGroup(told, pending, old(told), old(pending), 1 + n, ok || cut)
                && (ok <==> !cut && flushes && TakesCalls(fates, st.sent, |old(told)|))
                && (cut ==> codec.Written() == old(codec.Written()))
      ensures ok ==> codec.wire == old(codec.Written()) + CallStream(st.sent, |old(told)|)
    {
      if shutdown || closing {
        TurnAway(call);
        return false, queue;
      }
      ok, left := SendOpen(call, queue, closed, fates, flushes);
    }

    method SendOpen(call: Call, queue: seq<Call>, closed: bool, fates: nat -> Fate, flushes: bool)
      returns (ok: bool, left: seq<Call>)
      requires Valid() && |told| + 1 + Waiting(queue) <= TWO_TO_THE_64
      requires st.writer == Holding(call) && !shutdown && !closing && (closed ==> st.queueClosed)
      modifies this, codec
      ensures Valid() && st.writer == if ok then Selecting else WriterExited
      ensures left == queue[Waiting(queue)..] && st.rejected == old(st.rejected)
      ensures st.sent == old(st.sent) + [call] + queue[..Waiting(queue)]
      ensures var cut := closed && |queue| < UNITE_PACKAGE_NUM;
              && SentGroup(told, pending, old(told), old(pending), 1 + Waiting(queue), ok || cut)
              && (ok <==> !cut && flushes && TakesCalls(fates, st.sent, |old(told)|))
              && (cut ==> codec.Written() == old(codec.Written()))
      ensures ok ==> codec.wire == old(codec.Written()) + CallStream(st.sent, |old(told)|)
    {
      var group, requests, cut;
      group, requests, left, cut := RegisterAll(call, queue, closed);
      if cut {
        return false, left;
      }
      ghost var between, waiting := told, pending;
      GroupOfRun(st, repaired);
      RequestsOfLatest(group, requests, st.sent, |old(told)|);
      SameTakes(requests, st.sent, |old(told)|, fates);
      ok := SendGroupCall(group, requests, fates, flushes);
      GroupIsSent(between, waiting, old(told), old(pending), group, told, pending, ok);
    }

    /** The part of sendCall that holds the mutex. */
    method RegisterAll(call: Call, queue: seq<Call>, closed: bool)
      returns (group: seq<Entry>, requests: seq<Framing.Request>, left: seq<Call>, cut: bool)
      requires Valid() && |told| + 1 + Waiting(queue) <= TWO_TO_THE_64
      requires st.writer == Holding(call) && !shutdown && !closing && (closed ==> st.queueClosed)
      modifies this
      ensures Valid() && |group| == 1 + Waiting(queue)
      ensures st.writer == if cut then WriterExited else Writing(group, 0)
      ensures cut <==> closed && |queue| < UNITE_PACKAGE_NUM
      ensures left == queue[Waiting(queue)..] && st.rejected == old(st.rejected)
      ensures st.sent == old(st.sent) + [call] + queue[..Waiting(queue)]
      ensures RequestsOf(group, requests, st.sent)
      ensures Registered(told, pending, old(told), old(pending)) && KeysBelow(old(pending), |old(told)|)
    {
      KeysOfRun(st, repaired);
      var entry, request := Admit(call);
      group, requests, left, cut := Collect(entry, request, queue, closed);
    }

    /** sendPing: the connection's own ping, which no call knows of. */
    method SendPing(fate: Fate) returns (ok: bool)
      requires Valid() && st.writer == Selecting
      modifies this`st, codec
      ensures Valid() && SameCalls(old(st)) && st.writer == if ok then Selecting else WriterExited
      ensures ok <==> fate.headOk && fate.flushOk
      ensures ok ==> codec.wire == old(codec.Written()) + [ReqHead(RequestHeader("ping", 0, 2))]
    {
      ok := codec.WriteRequest(PING_REQUEST_HEADER, None, fate);
      Step(PingWrite(ok));
      if ok {
        ok := codec.Flush(fate.flushOk);
        Step(PingFlush(ok));
      }
    }

    /** One turn of RoutineWriteRequst: a call arrives, with `queue` waiting behind it; or the queue is
        found closed; or a ping is due; or the reader says that the connection is gone. */
    method WriterTurn(wake: Wake, fates: nat -> Fate, flushes: bool)
      returns (goesOn: bool, left: seq<Call>)
      requires Valid() && st.writer == Selecting
      requires match wake
               case CallArrives(call, queue, closed) =>
                 |told| + 1 + Waiting(queue) <= TWO_TO_THE_64 && (closed ==> st.queueClosed)
               case QueueClosed => st.queueClosed
               case PingDue => true
               case ExitNotice => exitNotify
      modifies this, codec
      ensures Valid() && st.writer == if goesOn then Selecting else WriterExited
      ensures !wake.CallArrives? ==> SameCalls(old(st)) && told == old(told) && pending == old(pending)
      ensures match wake
              case CallArrives(call, queue, closed) =>
                if old(shutdown || closing)
                then !goesOn && left == queue && st.sent == old(st.sent) && told == old(told)
                     && pending == old(pending) && st.rejected == old(st.rejected) + [call]
                else var n, cut := if |queue| <= 100 then |queue| else 100, closed && |queue| < 100;
                     left == queue[n..] && st.rejected == old(st.rejected)
                     && st.sent == old(st.sent) + [call] + queue[..n]
                     && SentGroup(told, pending, old(told), old(pending), 1 + n, goesOn || cut)
                     && (goesOn <==> !cut && flushes && TakesCalls(fates, st.sent, |old(told)|))
              case PingDue => goesOn <==> fates(0).headOk && fates(0).flushOk
              case QueueClosed => !goesOn
              case ExitNotice => !goesOn && !exitNotify
      ensures goesOn ==> codec.wire == old(codec.Written()) +
                         if wake.PingDue? then [ReqHead(RequestHeader("ping", 0, 2))]
                         else CallStream(st.sent, |old(told)|)
    {
      left := [];
      match wake
      case CallArrives(call, queue, closed) =>
        Step(Take(call));
        goesOn, left := SendCall(call, queue, closed, fates, flushes);
      case QueueClosed =>
        Step(TakeClosed);
        goesOn := false;
      case PingDue => goesOn := SendPing(fates(0));
      case ExitNotice =>
        exitNotify := false;
        Step(TakeExit);
        goesOn := false;
    }

    /** onShutDown's loop: everything pending is told, in whatever order the map is walked. */
    method TellPending(why: Failure)
      requires |told| == |st.sent| && KeysOk(seqNo, pending, |told|)
      modifies this`told
      ensures FailedExactly(told, old(told), pending.Keys, pending, why)
    {
      var todo := pending.Keys;
      while todo != {}
        invariant todo <= pending.Keys
        invariant FailedExactly(told, old(told), pending.Keys - todo, pending, why)
      {
        var key :| key in todo;
        FailedOneMore(told, old(told), pending.Keys - todo, pending, key, why);
        told := Completed(told, pending[key], Failed(why));
        assert pending.Keys - (todo - {key}) == pending.Keys - todo + {key};
        todo := todo - {key};
      }
    }

    /** onShutDown up to the unlock. */
    method OnShutDown(eof: bool)
      requires Valid() && |told| <= TWO_TO_THE_64 && st.reader == ShuttingDown(eof) && MutexFree(st)
      modifies this`told, this`pending, this`shutdown, this`exitNotify, this`st
      ensures Valid() && st.reader == Notifying && shutdown && exitNotify
      ensures pending == if repaired then map[] else old(pending)
      ensures FailedExactly(told, old(told), old(pending).Keys, old(pending),
                            if eof && closing then ConnShutdown else ConnLost)
    {
      KeysOfRun(st, repaired);
      shutdown := true;
      TellPending(if eof && closing then ConnShutdown else ConnLost);
      exitNotify := true;
      ToldByRegion(st, told);
      pending := if repaired then map[] else pending;
      Step(ShutDown);
    }

    /** Close, called by the user: the first call closes the codec, a second one changes nothing and
        reports it. */
    method Close()
      returns (again: bool)
      requires Valid() && MutexFree(st)
      modifies this`closing, this`st, codec`closed, codec`closes
      ensures Valid() && closing && again == old(closing)
      ensures if again then codec.closed == old(codec.closed) && codec.closes == old(codec.closes)
              else codec.closed
    {
      again := closing;
      Step(ClientMachine.Close);
      if !again {
        closing := true;
        codec.Close();
      }
    }

    /** The unlocked end of a turn of RoutineReadResponse that found its call: an error text in the header
        decides, then a broken body, and otherwise the call has succeeded with what was read, if anything. */
    method FinishCall(head: ResponseHeader, idx: nat, body: BodyRead)
      requires Valid() && st.reader == GotCall(head, Some(idx)) && idx < |told|
      requires BodyFits(st, head, Some(idx), body)
      modifies this`told, this`st
      ensures Valid()
      ensures st.reader == if body.Broken? then ShuttingDown(false) else AwaitingHeader
      ensures st.writer == old(st.writer)
      ensures told == Completed(old(told), idx, BodyOutcome(head, body))
    {
      Step(FinishBody(body));
      told := Completed(told, idx, BodyOutcome(head, body));
      Step(CompleteRead);
    }

    /** ... and the locked part before it. */
    method FinishFound(head: ResponseHeader, body: BodyRead)
      requires Valid() && KeysInv(st) && st.reader == GotHeader(head) && MutexFree(st)
      requires head.seqNo in pending && BodyFits(st, head, Some(pending[head.seqNo]), body)
      modifies this`pending, this`told, this`st
      ensures Valid()
      ensures st.reader == if body.Broken? then ShuttingDown(false) else AwaitingHeader
      ensures st.writer == old(st.writer) && pending == old(pending) - {head.seqNo}
      ensures told == Completed(old(told), head.seqNo, BodyOutcome(head, body))
    {
      var idx := pending[head.seqNo];
      pending := pending - {head.seqNo};
      Step(Lookup);
      FinishCall(head, idx, body);
    }

    /** What RoutineReadResponse does with one response: the first response for a pending call
        completes it, and any later one for the same key is read and dropped. */
    method HandleResponse(head: ResponseHeader, body: BodyRead)
      requires Valid() && |told| <= TWO_TO_THE_64 && st.reader == GotHeader(head) && MutexFree(st)
      requires var who := if head.seqNo in pending then Some(pending[head.seqNo]) else None;
               BodyFits(st, head, who, body)
      modifies this
      ensures Valid()
      ensures st.reader == if body.Broken? then ShuttingDown(false) else AwaitingHeader
      ensures st.writer == old(st.writer)
      ensures pending == old(pending) - {head.seqNo}
      ensures var o := if head.errorMsg != "" then Failed(Remote(head.errorMsg))
                       else if body.Broken? then Failed(BodyError)
                       else Succeeded(if body.Value? then Some(body.value) else None);
              Answered(told, old(told), old(pending), head.seqNo, o, false)
    {
      KeysOfRun(st, repaired);
      if head.seqNo in pending {
        FinishFound(head, body);
        AnsweredOnce(told, old(told), old(pending), head.seqNo, BodyOutcome(head, body));
      } else {
        Step(Lookup);
        Step(FinishBody(body));
      }
    }

    /** One turn of RoutineReadResponse. A ping's answer changes nothing; a response is handled; after an
        error, of the header or of a body, everything still pending is completed. */
    method ReaderTurn(head: Option<ResponseHeader>, eof: bool, body: BodyRead) returns (goesOn: bool)
      requires Valid() && |told| <= TWO_TO_THE_64 && st.reader == AwaitingHeader && MutexFree(st)
      requires head.Some? && !head.value.IsPing() ==>
                 BodyFits(st, head.value, if head.value.seqNo in pending then Some(head.value.seqNo) else None, body)
      modifies this
      ensures Valid() && st.reader == if goesOn then AwaitingHeader else ReaderExited
      ensures goesOn <==> head.Some? && (head.value.IsPing() || !body.Broken?)
      ensures head.None? || head.value.IsPing() ==>
                if goesOn then told == old(told) && pending == old(pending)
                else && FailedExactly(told, old(told), old(pending).Keys, old(pending),
                                      if eof && old(closing) then ConnShutdown else ConnLost)
                     && pending == if repaired then map[] else old(pending)
      ensures head.Some? && !head.value.IsPing() ==>
                var o := if head.value.errorMsg != "" then Failed(Remote(head.value.errorMsg))
                         else if body.Broken? then Failed(BodyError)
                         else Succeeded(if body.Value? then Some(body.value) else None);
                && Answered(told, old(told), old(pending), head.value.seqNo, o, !goesOn)
                && pending == if !goesOn && repaired then map[] else old(pending) - {head.value.seqNo}
    {
      KeysOfRun(st, repaired);
      if head.None? {
        LoseConnection(eof);
        return false;
      }
      if head.value.IsPing() {
        Step(ReadPing(head.value));
        return true;
      }
      Step(ReadHeader(head.value));
      goesOn := TakeResponse(head.value, body);
    }

    method LoseConnection(eof: bool)
      requires Valid() && |told| <= TWO_TO_THE_64 && st.reader == AwaitingHeader && MutexFree(st)
      modifies this
      ensures Valid() && st.reader == ReaderExited
      ensures pending == if repaired then map[] else old(pending)
      ensures FailedExactly(told, old(told), old(pending).Keys, old(pending),
                            if eof && old(closing) then ConnShutdown else ConnLost)
      ensures closing == old(closing)
    {
      Step(ReadFails(eof));
      OnShutDown(eof);
      Step(NotifyParent);
    }

    method TakeResponse(head: ResponseHeader, body: BodyRead) returns (goesOn: bool)
      requires Valid() && |told| <= TWO_TO_THE_64 && st.reader == GotHeader(head) && MutexFree(st)
      requires BodyFits(st, head, if head.seqNo in pending then Some(pending[head.seqNo]) else None, body)
      modifies this
      ensures Valid() && st.reader == if goesOn then AwaitingHeader else ReaderExited
      ensures goesOn <==> !body.Broken?
      ensures Answered(told, old(told), old(pending), head.seqNo, BodyOutcome(head, body), !goesOn)
      ensures pending == if !goesOn && repaired then map[] else old(pending) - {head.seqNo}
    {
      HandleResponse(head, body);
      goesOn := !body.Broken?;
      if !goesOn {
        OnShutDown(false);
        Step(NotifyParent);
      }
    }
  }

  /** A response for `key` was handled: its call, if it was pending, has been told `o`, once. If the
      connection was lost over it, every other pending call has been told that; and nobody else anything. */
  ghost predicate Answered(told: seq<seq<Outcome>>, was: seq<seq<Outcome>>, waiting: map<nat, nat>,
                           key: nat, o: Outcome, lost: bool) {
    |told| == |was| &&
    forall i :: 0 <= i < |told| ==>
      told[i] == was[i] + if i !in waiting then []
                          else if i == key then [o]
                          else if lost then [Failed(ConnLost)] else []
  }

  /** Of the registrations in `swept`, exactly those that were waiting have been failed, once. */
  ghost predicate FailedExactly(told: seq<seq<Outcome>>, was: seq<seq<Outcome>>, swept: set<nat>,
                                waiting: map<nat, nat>, why: Failure) {
    |told| == |was| &&
    forall i :: 0 <= i < |told| ==>
      told[i] == was[i] + if i in swept && i in waiting then [Failed(why)] else []
  }

  ghost predicate KeysBelow(pending: map<nat, nat>, n: nat) { forall k :: k in pending ==> k < n }

  /** What sendCall leaves of its group of `n`: pending calls, or calls completed with the write error. */
  ghost predicate SentGroup(told: seq<seq<Outcome>>, pending: map<nat, nat>, was: seq<seq<Outcome>>,
                            waiting: map<nat, nat>, n: nat, ok: bool) {
    && |told| == |was| + n && was <= told
    && (forall i :: |was| <= i < |told| ==> told[i] == if ok then [] else [Failed(WriteError)])
    && (forall k :: k in pending <==> k in waiting || (ok && |was| <= k < |told|))
  }

  /** A request's tokens are the ones a session writes for its entry. */
  lemma TokensOfRequest(sent: seq<Call>, e: Entry, request: Framing.Request)
    requires e.idx < |sent| && Carries(request, sent[e.idx], e.key)
    ensures request.Tokens() == Session.RequestTokens(sent, e)
  {
  }

  /** The requests belong to the last registrations, from number `n` on. */
  ghost predicate CarryFrom(requests: seq<Framing.Request>, sent: seq<Call>, n: nat) {
    n + |requests| == |sent| && forall i :: 0 <= i < |requests| ==> Carries(requests[i], sent[n + i], n + i)
  }

  lemma CarryOn(requests: seq<Framing.Request>, sent: seq<Call>, n: nat)
    requires CarryFrom(requests, sent, n) && requests != []
    ensures Carries(requests[0], sent[n], n) && CarryFrom(requests[1..], sent, n + 1)
  {
    assert Carries(requests[0], sent[n + 0], n + 0);
    forall i | 0 <= i < |requests[1..]|
      ensures Carries(requests[1..][i], sent[n + 1 + i], n + 1 + i)
    {
      assert Carries(requests[i + 1], sent[n + (i + 1)], n + (i + 1));
    }
  }

  lemma {:induction false} StreamOfCalls(requests: seq<Framing.Request>, sent: seq<Call>, n: nat)
    requires CarryFrom(requests, sent, n)
    ensures Framing.RequestStream(requests) == CallStream(sent, n)
    decreases |requests|
  {
    if requests != [] {
      CarryOn(requests, sent, n);
      TokensOfRequest(sent, Entry(n, n), requests[0]);
      StreamOfCalls(requests[1..], sent, n + 1);
    }
  }

  lemma RequestsOfLatest(group: seq<Entry>, requests: seq<Framing.Request>, sent: seq<Call>, n: nat)
    requires Latest(group, |sent|) && RequestsOf(group, requests, sent) && n + |group| == |sent|
    ensures Framing.RequestStream(requests) == CallStream(sent, n)
    ensures CarryFrom(requests, sent, n)
  {
    forall i | 0 <= i < |requests|
      ensures Carries(requests[i], sent[n + i], n + i)
    {
      assert group[i] == Entry(n + i, n + i);
    }
    StreamOfCalls(requests, sent, n);
  }

  lemma SameTakes(requests: seq<Framing.Request>, sent: seq<Call>, n: nat, fates: nat -> Fate)
    requires CarryFrom(requests, sent, n)
    ensures TakesAll(fates, requests, |requests|) <==> TakesCalls(fates, sent, n)
  {
    if TakesAll(fates, requests, |requests|) {
      forall i | n <= i < |sent|
        ensures fates(i - n).Writes(sent[i].args)
      {
        assert Carries(requests[i - n], sent[n + (i - n)], n + (i - n));
      }
    }
    if TakesCalls(fates, sent, n) {
      forall i | 0 <= i < |requests|
        ensures fates(i).Writes(requests[i].args)
      {
        assert Carries(requests[i], sent[n + i], n + i);
        assert fates(n + i - n).Writes(sent[n + i].args);
      }
    }
  }

  lemma GroupIsSent(between: seq<seq<Outcome>>, waiting: map<nat, nat>, was: seq<seq<Outcome>>,
                    before: map<nat, nat>, group: seq<Entry>, told: seq<seq<Outcome>>,
                    pending: map<nat, nat>, ok: bool)
    requires Registered(between, waiting, was, before) && KeysBelow(before, |was|)
    requires Latest(group, |between|) && |group| == |between| - |was|
    requires if ok then told == between && pending == waiting
             else pending == waiting - GroupIndices(group)
                  && FailedExactly(told, between, GroupIndices(group), waiting, WriteError)
    ensures SentGroup(told, pending, was, before, |group|, ok)
  {
    forall k | |was| <= k < |between|
      ensures k in GroupIndices(group)
    {
      assert group[k - |was|] == Entry(k, k);
    }
    forall i | 0 <= i < |was|
      ensures told[i] == was[i]
    {
      assert i !in GroupIndices(group);
    }
  }

  lemma FailedOneMore(told: seq<seq<Outcome>>, was: seq<seq<Outcome>>, swept: set<nat>,
                      waiting: map<nat, nat>, idx: nat, why: Failure)
    requires FailedExactly(told, was, swept, waiting, why) && idx !in swept && idx < |was|
    ensures FailedExactly(if idx in waiting then Completed(told, idx, Failed(why)) else told,
                          was, swept + {idx}, waiting, why)
  {
  }

  /** The loop over `pending` does what the transition system does in one step. */
  lemma ToldByRegion(s: State, told: seq<seq<Outcome>>)
    requires KeysInv(s) && s.reader.ShuttingDown? && !s.shutdown
    requires FailedExactly(told, s.outcomes, s.pending.Keys, s.pending,
                           if s.reader.eof && s.closing then ConnShutdown else ConnLost)
    ensures told == ShutDownRegion(s).outcomes
  {
    PendingValuesAreKeys(s);
  }

  lemma AnsweredOnce(told: seq<seq<Outcome>>, was: seq<seq<Outcome>>, waiting: map<nat, nat>,
                     key: nat, o: Outcome)
    requires key in waiting && key < |was| && told == Completed(was, key, o)
    ensures Answered(told, was, waiting, key, o, false)
  {
  }

  lemma GroupIndicesStep(group: seq<Entry>, i: nat, sent: nat)
    requires Latest(group, sent) && i < |group|
    ensures group[i].key == group[i].idx && group[i].idx < sent
    ensures GroupIndices(group[..i + 1]) == GroupIndices(group[..i]) + {group[i].idx}
    ensures group[i].idx !in GroupIndices(group[..i])
  {
    assert group[..i + 1] == group[..i] + [group[i]];
  }
}
