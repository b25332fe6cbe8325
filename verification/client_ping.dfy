// Pings made up by the connection are transparent: erasing them and their answers from a run gives
// a run that registers, completes and writes the same calls.
module ClientPing {
  import opened RpcTypes
  import opened ClientMachine

  predicate IsPingStep(a: Action) { a.PingWrite? || a.PingFlush? || a.ReadPing? }

  function Erase(acts: seq<Action>): seq<Action> {
    if acts == [] then []
    else (if IsPingStep(acts[0]) then [] else [acts[0]]) + Erase(acts[1..])
  }

  function WithoutPings(messages: seq<Message>): seq<Message> {
    if messages == [] then []
    else
      var n := |messages| - 1;
      WithoutPings(messages[..n]) + if messages[n].PingMessage? then [] else [messages[n]]
  }

  /** `t` is `s` as if no ping had been sent. A writer that is busy with a ping, or that left because
      a ping failed, is still selecting in `t`. */
  ghost predicate SameButPings(s: State, t: State) {
    && t == s.(writer := t.writer, messages := t.messages)
    && t.messages == WithoutPings(s.messages)
    && !t.writer.Pinging?
    && (t.writer == s.writer || (t.writer.Selecting? && (s.writer.Pinging? || s.writer.WriterExited?)))
  }

  lemma PingWriteIsInvisible(s: State, t: State, ok: bool)
    requires SameButPings(s, t) && Enabled(s, PingWrite(ok))
    ensures SameButPings(Apply(s, PingWrite(ok)), t)
  {
    assert (s.messages + [PingMessage])[..|s.messages|] == s.messages;
  }

  lemma PingFlushIsInvisible(s: State, t: State, ok: bool)
    requires SameButPings(s, t) && Enabled(s, PingFlush(ok))
    ensures SameButPings(Apply(s, PingFlush(ok)), t)
  {
  }

  ghost predicate Both(s: State, t: State, a: Action) {
    SameButPings(s, t) && Enabled(s, a) && !IsPingStep(a)
  }

  ghost predicate Shared(s: State, t: State, a: Action)
    requires Enabled(s, a)
  {
    Enabled(t, a) && SameButPings(Apply(s, a), Apply(t, a))
  }

  lemma TakeShared(s: State, t: State, call: Call)
    requires Both(s, t, Take(call))
    ensures Shared(s, t, Take(call))
  {
  }

  lemma TakeClosedShared(s: State, t: State)
    requires Both(s, t, TakeClosed)
    ensures Shared(s, t, TakeClosed)
  {
  }

  lemma TakeExitShared(s: State, t: State)
    requires Both(s, t, TakeExit)
    ensures Shared(s, t, TakeExit)
  {
  }

  lemma AdmitShared(s: State, t: State)
    requires Both(s, t, Admit)
    ensures Shared(s, t, Admit)
  {
  }

  lemma RejectShared(s: State, t: State)
    requires Both(s, t, Reject)
    ensures Shared(s, t, Reject)
  {
  }

  lemma BatchMoreShared(s: State, t: State, call: Call)
    requires Both(s, t, BatchMore(call))
    ensures Shared(s, t, BatchMore(call))
  {
  }

  lemma BatchClosedShared(s: State, t: State)
    requires Both(s, t, BatchClosed)
    ensures Shared(s, t, BatchClosed)
  {
  }

  lemma BatchEndShared(s: State, t: State)
    requires Both(s, t, BatchEnd)
    ensures Shared(s, t, BatchEnd)
  {
  }

  lemma WriteOneShared(s: State, t: State, ok: bool)
    requires Both(s, t, WriteOne(ok))
    ensures Shared(s, t, WriteOne(ok))
  {
    assert (s.messages + [RequestMessage(s.writer.group[s.writer.next])])[..|s.messages|] == s.messages;
  }

  lemma FlushGroupShared(s: State, t: State, ok: bool)
    requires Both(s, t, FlushGroup(ok))
    ensures Shared(s, t, FlushGroup(ok))
  {
  }

  lemma CleanOneShared(s: State, t: State)
    requires Both(s, t, CleanOne)
    ensures Shared(s, t, CleanOne)
  {
    if s.writer.group[s.writer.next].key in s.pending {
      var p, w := s.pending - {s.writer.group[s.writer.next].key}, Apply(s, CleanOne).writer;
      assert Apply(s, CleanOne) == s.(pending := p, writer := w);
      assert Apply(t, CleanOne) == t.(pending := p, writer := w);
    }
  }

  lemma FailOneShared(s: State, t: State)
    requires Both(s, t, FailOne)
    ensures Shared(s, t, FailOne)
  {
  }

  lemma CleanDoneShared(s: State, t: State)
    requires Both(s, t, CleanDone)
    ensures Shared(s, t, CleanDone)
  {
  }

  lemma ReadHeaderShared(s: State, t: State, head: ResponseHeader)
    requires Both(s, t, ReadHeader(head))
    ensures Shared(s, t, ReadHeader(head))
  {
  }

  lemma ReadFailsShared(s: State, t: State, eof: bool)
    requires Both(s, t, ReadFails(eof))
    ensures Shared(s, t, ReadFails(eof))
  {
  }

  lemma LookupShared(s: State, t: State)
    requires Both(s, t, Lookup)
    ensures Shared(s, t, Lookup)
  {
  }

  lemma FinishBodyShared(s: State, t: State, body: BodyRead)
    requires Both(s, t, FinishBody(body))
    ensures Shared(s, t, FinishBody(body))
  {
  }

  lemma CompleteReadShared(s: State, t: State)
    requires Both(s, t, CompleteRead)
    ensures Shared(s, t, CompleteRead)
  {
  }

  lemma ShutDownShared(s: State, t: State)
    requires Both(s, t, ShutDown)
    ensures Shared(s, t, ShutDown)
  {
  }

  lemma NotifyParentShared(s: State, t: State)
    requires Both(s, t, NotifyParent)
    ensures Shared(s, t, NotifyParent)
  {
  }

  lemma CloseShared(s: State, t: State)
    requires Both(s, t, Close)
    ensures Shared(s, t, Close)
  {
  }

  lemma CloseQueueShared(s: State, t: State)
    requires Both(s, t, CloseQueue)
    ensures Shared(s, t, CloseQueue)
  {
  }

  lemma OtherStepIsShared(s: State, t: State, a: Action)
    requires Both(s, t, a)
    ensures Shared(s, t, a)
  {
    match a {
      case Take(call) => TakeShared(s, t, call);
      case TakeClosed => TakeClosedShared(s, t);
      case TakeExit => TakeExitShared(s, t);
      case Admit => AdmitShared(s, t);
      case Reject => RejectShared(s, t);
      case BatchMore(call) => BatchMoreShared(s, t, call);
      case BatchClosed => BatchClosedShared(s, t);
      case BatchEnd => BatchEndShared(s, t);
      case WriteOne(ok) => WriteOneShared(s, t, ok);
      case FlushGroup(ok) => FlushGroupShared(s, t, ok);
      case CleanOne => CleanOneShared(s, t);
      case FailOne => FailOneShared(s, t);
      case CleanDone => CleanDoneShared(s, t);
      case ReadHeader(head) => ReadHeaderShared(s, t, head);
      case ReadFails(eof) => ReadFailsShared(s, t, eof);
      case Lookup => LookupShared(s, t);
      case FinishBody(body) => FinishBodyShared(s, t, body);
      case CompleteRead => CompleteReadShared(s, t);
      case ShutDown => ShutDownShared(s, t);
      case NotifyParent => NotifyParentShared(s, t);
      case Close => CloseShared(s, t);
      case CloseQueue => CloseQueueShared(s, t);
      case _ =>
    }
  }

  /** Ping transparency: from any state and along any run, the erased run can be taken, and it ends
      with the same pending calls, the same completions and the same requests in the same order. */
  lemma {:induction false} PingsAreTransparent(s: State, t: State, acts: seq<Action>)
    requires SameButPings(s, t) && CanRun(s, acts)
    ensures CanRun(t, Erase(acts)) && SameButPings(After(s, acts), After(t, Erase(acts)))
    decreases |acts|
  {
    if acts == [] {
    } else {
      var a, rest := acts[0], acts[1..];
      if IsPingStep(a) {
        match a {
          case PingWrite(ok) => PingWriteIsInvisible(s, t, ok);
          case PingFlush(ok) => PingFlushIsInvisible(s, t, ok);
          case _ =>
        }
        PingsAreTransparent(Apply(s, a), t, rest);
        assert Erase(acts) == Erase(rest);
      } else {
        OtherStepIsShared(s, t, a);
        PingsAreTransparent(Apply(s, a), Apply(t, a), rest);
        assert Erase(acts) == [a] + Erase(rest);
        assert Erase(acts)[1..] == Erase(rest);
      }
    }
  }

  /** From the start of a connection: nothing but pings tells the two runs apart. */
  lemma PingTransparency(repaired: bool, acts: seq<Action>)
    requires CanRun(Initial(repaired), acts)
    ensures CanRun(Initial(repaired), Erase(acts))
    ensures var s, t := After(Initial(repaired), acts), After(Initial(repaired), Erase(acts));
            && t.pending == s.pending && t.outcomes == s.outcomes && t.sent == s.sent
            && t.taken == s.taken && t.rejected == s.rejected
            && t.messages == WithoutPings(s.messages)
            && PingMessage !in t.messages
  {
    PingsAreTransparent(Initial(repaired), Initial(repaired), acts);
    NoPingLeft(After(Initial(repaired), acts).messages);
  }

  lemma NoPingLeft(messages: seq<Message>)
    ensures PingMessage !in WithoutPings(messages)
  {
  }
}
