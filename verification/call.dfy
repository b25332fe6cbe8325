// The life of a TCall object (rpc/call.go): who owns it, and what a completion does to it.
module CallObjects {
  import opened RpcTypes

  /** What one WhenCallDone did with the call. */
  datatype Notice = Delivered | Discarded | Freed

  /** The user's completion channel: what waits in its buffer, how many receivers are blocked on it, and
      what has been handed to such a receiver directly. */
  class Channel {
    const capacity: nat
    var queue: seq<TCall>
    var waiting: nat
    var handed: seq<TCall>
    var closed: bool

    constructor (capacity: nat)
      ensures queue == [] && handed == [] && waiting == 0 && !closed && this.capacity == capacity
    {
      this.capacity := capacity;
      queue, handed, waiting, closed := [], [], 0, false;
    }
  }

  class TCall {
    var serviceMethod: string
    var args: Option<Value>
    var reply: Option<Value>
    var error: Option<string>
    var doneChan: Channel?
    var cancel: int

    constructor ()
      ensures Blank()
    {
      serviceMethod, args, reply, error, doneChan, cancel := "", None, None, None, null, 0;
    }

    predicate Blank()
      reads this
    {
      serviceMethod == "" && args == None && reply == None && error == None && doneChan == null && cancel == 0
    }

    method Reset()
      modifies this
      ensures Blank()
    {
      serviceMethod, args, reply, error, doneChan, cancel := "", None, None, None, null, 0;
    }
  }

  /** gCallPool: the objects it may hand out. */
  class CallPool {
    var free: seq<TCall>

    /** Everything in the pool is blank. */
    ghost predicate Valid()
      reads this, free
    {
      forall i :: 0 <= i < |free| ==> free[i].Blank()
    }

    constructor ()
      ensures Valid() && free == []
    {
      free := [];
    }

    /** NewCall. The pool may hand out any of its objects, so `pick` is an argument. */
    method NewCall(pick: nat) returns (call: TCall)
      requires Valid()
      modifies this
      ensures Valid() && call.Blank()
      ensures if pick < |old(free)| then call == old(free)[pick] && free == old(free)[..pick] + old(free)[pick + 1..]
              else fresh(call) && free == old(free)
    {
      if pick < |free| {
        call := free[pick];
        free := free[..pick] + free[pick + 1..];
      } else {
        call := new TCall();
      }
    }

    method FreeCall(call: TCall)
      requires Valid()
      modifies this, call
      ensures Valid() && free == old(free) + [call] && call.Blank()
    {
      call.Reset();
      free := free + [call];
    }

    /** WhenCallDone and done. Exactly one thing happens: the object goes to a receiver that is blocked on
        the call's channel, or into the channel's buffer; or the notice is dropped because there is no
        such receiver and no room; or the object goes back to the pool: there is no channel, the caller
        gave up, or the channel was closed. */
    method WhenCallDone(call: TCall) returns (notice: Notice)
      requires Valid()
      modifies this, call, call.doneChan
      ensures Valid()
      ensures var ch := old(call.doneChan);
              && (notice == Freed <==> ch == null || old(call.cancel) > 0 || old(ch.closed))
              && (notice == Delivered <==>
                    notice != Freed && (old(ch.waiting) > 0 || |old(ch.queue)| < ch.capacity))
              && (ch != null ==>
                    var direct := notice == Delivered && old(ch.waiting) > 0;
                    && ch.closed == old(ch.closed)
                    && ch.handed == old(ch.handed) + (if direct then [call] else [])
                    && ch.waiting == old(ch.waiting) - (if direct then 1 else 0)
                    && ch.queue == old(ch.queue) + if notice == Delivered && !direct then [call] else [])
      ensures free == old(free) + if notice == Freed then [call] else []
      ensures notice == Freed ==> call.Blank()
      ensures notice != Freed ==>
                && call.error == old(call.error) && call.reply == old(call.reply)
                && call.serviceMethod == old(call.serviceMethod) && call.doneChan == old(call.doneChan)
    {
      var ch := call.doneChan;
      if ch == null || call.cancel > 0 || ch.closed {
        FreeCall(call);
        notice := Freed;
      } else if ch.waiting > 0 {
        ch.waiting := ch.waiting - 1;
        ch.handed := ch.handed + [call];
        notice := Delivered;
      } else if |ch.queue| < ch.capacity {
        ch.queue := ch.queue + [call];
        notice := Delivered;
      } else {
        notice := Discarded;
      }
    }

    /** What the connection's double completion means for a call nobody waits for: its object is in the
        pool twice, so that two later calls share it. */
    method CompleteTwice(call: TCall) returns (a: TCall, b: TCall)
      requires Valid() && call.doneChan == null
      modifies this, call
      ensures Valid() && a == b == call
    {
      var first := WhenCallDone(call);
      var second := WhenCallDone(call);
      a := NewCall(|free| - 1);
      b := NewCall(|free| - 1);
    }

    /** What it means for a call that somebody waits for, as SyncCall does: the first completion is
        delivered, its receiver frees the call, somebody else gets the object for a call of their own and
        waits for that, and the second completion ends this other call with the old one's error. */
    method StaleCompletion(call: TCall, first: Channel, second: Channel)
      requires Valid() && call !in free && call.doneChan == first && call.cancel == 0 && first != second
      requires !first.closed && first.queue == [] && first.waiting == 0 && first.capacity > 0
      requires !second.closed && second.queue == [] && second.waiting == 0 && second.capacity > 0
      modifies this, call, first, second
      ensures Valid() && second.queue == [call] && call.doneChan == second
      ensures call.serviceMethod == "another method" && call.error == Some("write error")
    {
      call.error := Some("connection lost");
      var notice := WhenCallDone(call);
      assert notice == Delivered;
      var received := first.queue[0];
      first.queue := [];
      FreeCall(received);
      var reused := NewCall(|free| - 1);
      reused.serviceMethod := "another method";
      reused.doneChan := second;
      call.error := Some("write error");
      notice := WhenCallDone(call);
    }
  }
}
