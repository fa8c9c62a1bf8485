/** send_guard.rs, `send_h3_client_body` and `send_h3_server_body` on mutable state. Each
    future is an object that can be polled and dropped; both are proved against the one
    machine of BodySendSpec. */
module BodySend {
  import opened Options
  import opened H3Errors
  import opened BodySendSpec
  import opened Oneshot

  /** The send half of a `RequestStream`. */
  class SendHalf {
    var tokens: seq<Token>
    var terminal: Terminal

    constructor ()
      ensures View() == Wire([], Open)
    {
      tokens, terminal := [], Open;
    }

    ghost function View(): Wire
      reads this
    {
      Wire(tokens, terminal)
    }

    method Put(ts: seq<Token>)
      modifies this
      ensures View() == Wire(old(tokens) + ts, old(terminal))
    {
      tokens := tokens + ts;
    }

    method Finish()
      modifies this
      ensures View() == Wire(old(tokens), Fin)
    {
      terminal := Fin;
    }

    /** `stop_stream`: no effect on a stream that is already finished or reset. */
    method StopStream(code: Code)
      modifies this
      ensures View() == Wire(old(tokens), if old(terminal).Open? then Reset(code) else old(terminal))
    {
      if terminal.Open? {
        terminal := Reset(code);
      }
    }

    /** The half goes away; quinn finishes a stream that is still open. */
    method Drop()
      modifies this
      ensures View() == DropHalf(old(View()))
    {
      if terminal.Open? {
        terminal := Fin;
      }
    }
  }

  class SendResetGuard {
    const w: SendHalf
    var armed: bool
    var code: Code

    ghost function View(): Guard
      reads this
    {
      Guard(armed, code)
    }

    constructor (w: SendHalf)
      ensures this.w == w && View() == ARMED
    {
      this.w := w;
      armed := true;
      code := H3_REQUEST_CANCELLED;
    }

    method Disarm()
      modifies this
      ensures View() == Guard(false, old(code))
    {
      armed := false;
    }

    method SetErrorCode(code: Code)
      modifies this
      ensures View() == Guard(old(armed), code)
    {
      this.code := code;
    }

    method Drop()
      modifies w
      ensures w.View() == DropGuard(View(), old(w.View()))
    {
      if armed {
        w.StopStream(code);
      }
    }
  }

  /** A poll during which the cancel receiver keeps saying the same. */
  function Observed(cancelUp: bool, script: seq<Answer>): (inputs: seq<Input>)
    ensures |inputs| == |script| && forall i :: 0 <= i < |script| ==> inputs[i] == Input(cancelUp, script[i])
  {
    seq(|script|, i requires 0 <= i < |script| => Input(cancelUp, script[i]))
  }

  /** `send_h3_client_body`, with an explicit place for the await it is suspended in. It
      owns its send half and the cancel receiver; the guard is made by the first poll. */
  class ClientBodySend {
    const source: seq<Frame>
    const w: SendHalf
    const cancel: CancelChannel
    var guard: SendResetGuard?
    var pos: nat
    var pc: Pc
    ghost var sourcePolls: nat

    ghost function View(): Send
      reads this, guard, w
    {
      Send(source, pos, pc, if guard == null then None else Some(guard.View()), w.View(), sourcePolls)
    }

    ghost predicate Valid()
      reads this
    {
      && pos <= |source|
      && (guard != null ==> guard.w == w)
      && (!pc.Gone? ==> (guard == null <==> pc.Unpolled?))
    }

    constructor (w: SendHalf, source: seq<Frame>, cancel: CancelChannel)
      requires w.View() == Wire([], Open)
      ensures Valid() && View() == Start(source) && guard == null
      ensures this.source == source && this.w == w && this.cancel == cancel
    {
      this.source := source;
      this.w := w;
      this.cancel := cancel;
      guard := null;
      pos, pc, sourcePolls := 0, Unpolled, 0;
    }

    /** The future is dropped or aborted, at an await or before it ever ran. */
    method Drop()
      requires Valid() && !pc.Gone?
      modifies this, w
      ensures Valid() && View() == SendNext(old(View()), HardDrop) && guard == old(guard)
    {
      Return(None);
    }

    /** Leaving the async block drops the guard, if it was made, and then the send half. */
    method Return(result: Option<Result>)
      requires Valid()
      modifies this, w
      ensures Valid() && View() == Leave(old(View()), result) && guard == old(guard)
    {
      if guard != null {
        guard.Drop();
      }
      w.Drop();
      pc := Gone(result);
    }

    method ReturnError()
      requires Valid() && guard != null
      modifies this, guard, w
      ensures Valid() && View() == LeaveFailed(old(View())) && guard == old(guard)
    {
      guard.SetErrorCode(H3_INTERNAL_ERROR);
      Return(Some(Err));
    }

    /** What the first poll does before it comes to the loop. */
    method EnterBlock()
      requires Valid() && pc.Unpolled?
      modifies this
      ensures Valid() && View() == Enter(old(View())) && fresh(guard)
    {
      guard := new SendResetGuard(w);
      pc := Selecting;
    }

    /** `tokio::select!` with `biased`: the cancel branch is looked at first. */
    method Select(i: Input)
      requires Valid() && pc.Selecting?
      modifies this, guard, w
      ensures Valid() && View() == TickSelect(old(View()), i) && guard == old(guard)
    {
      if i.cancelUp {
        Return(Some(Ok));
        return;
      }
      sourcePolls := sourcePolls + 1;
      match i.answer
      case NotYet(_) =>
      case Fail(_) => ReturnError();
      case Ready =>
        if pos < |source| {
          pc := Writing(Encode(source[pos]));
          pos := pos + 1;
        } else {
          pc := Finishing;
        }
    }

    /** `send_data(..).await` and `send_trailers(..).await` */
    method Write(a: Answer)
      requires Valid() && pc.Writing?
      modifies this, guard, w
      ensures Valid() && View() == TickWrite(old(View()), a) && guard == old(guard)
    {
      var n := Min(if a.Ready? then |pc.rest| else a.progress, |pc.rest|);
      w.Put(pc.rest[..n]);
      pc := Writing(pc.rest[n..]);
      if a.Fail? {
        ReturnError();
      } else if a.Ready? {
        pc := Selecting;
      }
    }

    /** `finish().await`, then `disarm` */
    method Finish(a: Answer)
      requires Valid() && pc.Finishing?
      modifies this, guard, w
      ensures Valid() && View() == TickFinish(old(View()), a) && guard == old(guard)
    {
      match a
      case NotYet(_) =>
      case Fail(_) => ReturnError();
      case Ready =>
        w.Finish();
        guard.Disarm();
        Return(Some(Ok));
    }

    /** The await in which the future is suspended is looked at once. */
    method Look(i: Input)
      requires Valid() && !pc.Gone?
      modifies this, guard, w
      ensures Valid() && View() == Advance(old(View()), i) && !pc.Unpolled?
      ensures guard == old(guard) || fresh(guard)
    {
      if pc.Unpolled? {
        EnterBlock();
      }
      match pc {
        case Selecting => Select(i);
        case Writing(_) => Write(i.answer);
        case Finishing => Finish(i.answer);
      }
    }

    /** The same as the executor sees it: the receiver reads its channel. */
    method Turn(a: Answer)
      requires Valid() && !pc.Gone?
      modifies this, guard, w
      ensures Valid() && View() == Advance(old(View()), Input(cancel.closed, a))
      ensures guard == old(guard) || fresh(guard)
    {
      Look(Input(cancel.closed, a));
    }

    /** `cancelUp` may change from one look to the next of the same poll. */
    method Poll(script: seq<Input>) returns (r: Option<Result>)
      requires Valid() && !pc.Gone?
      modifies this, guard, w
      ensures Valid() && View() == PollFuture(old(View()), script)
      ensures r == if pc.Gone? then pc.result else None
      ensures guard == old(guard) || fresh(guard)
    {
      var k := 0;
      while !pc.Gone?
        invariant k <= |script| && Valid()
        invariant guard == old(guard) || fresh(guard)
        invariant PollFuture(View(), script[k..]) == PollFuture(old(View()), script)
        decreases |script| - k
      {
        var i := if k < |script| then script[k] else SILENCE;
        var suspends := i.answer.NotYet? && !((pc.Unpolled? || pc.Selecting?) && i.cancelUp);
        if k < |script| {
          assert script[k..][0] == script[k] && script[k..][1..] == script[k + 1..];
        }
        Look(i);
        if suspends {
          break;
        }
        k := k + 1;
      }
      r := if pc.Gone? then pc.result else None;
    }
  }

  /** `send_h3_server_body`: a plain `while let` over the body, without a cancel channel.
      Its contract says that it is the client loop with a cancel signal that never fires:
      same bytes, same terminal state, same result, for every script and every drop. The
      send half is borrowed from the handler that awaits this future
      (axum-h3/src/lib.rs:168-181); both go away together. */
  class ServerBodySend {
    const source: seq<Frame>
    const w: SendHalf
    var guard: SendResetGuard?
    var pos: nat
    var pc: Pc
    ghost var sourcePolls: nat

    ghost function View(): Send
      reads this, guard, w
    {
      Send(source, pos, pc, if guard == null then None else Some(guard.View()), w.View(), sourcePolls)
    }

    ghost predicate Valid()
      reads this
    {
      && pos <= |source|
      && (guard != null ==> guard.w == w)
      && (!pc.Gone? ==> (guard == null <==> pc.Unpolled?))
    }

    constructor (w: SendHalf, source: seq<Frame>)
      requires w.View() == Wire([], Open)
      ensures Valid() && View() == Start(source) && this.w == w && guard == null
    {
      this.source := source;
      this.w := w;
      guard := null;
      pos, pc, sourcePolls := 0, Unpolled, 0;
    }

    method Drop()
      requires Valid() && !pc.Gone?
      modifies this, w
      ensures Valid() && View() == SendNext(old(View()), HardDrop) && guard == old(guard)
    {
      if guard != null {
        guard.Drop();
      }
      w.Drop();
      pc := Gone(None);
    }

    method ReturnError()
      requires Valid() && guard != null
      modifies this, guard, w
      ensures Valid() && View() == LeaveFailed(old(View())) && guard == old(guard)
    {
      guard.SetErrorCode(H3_INTERNAL_ERROR);
      guard.Drop();
      w.Drop();
      pc := Gone(Some(Err));
    }

    /** The loop asks the body for a frame. */
    method Fetch(a: Answer)
      requires Valid() && pc.Selecting?
      modifies this, guard, w
      ensures Valid() && View() == TickSelect(old(View()), Input(false, a)) && guard == old(guard)
    {
      sourcePolls := sourcePolls + 1;
      if a.Fail? {
        ReturnError();
      } else if a.Ready? && pos < |source| {
        pc := Writing(Encode(source[pos]));
        pos := pos + 1;
      } else if a.Ready? {
        pc := Finishing;
      }
    }

    method Write(a: Answer)
      requires Valid() && pc.Writing?
      modifies this, guard, w
      ensures Valid() && View() == TickWrite(old(View()), a) && guard == old(guard)
    {
      var n := Min(if a.Ready? then |pc.rest| else a.progress, |pc.rest|);
      w.Put(pc.rest[..n]);
      pc := Writing(pc.rest[n..]);
      if a.Fail? {
        ReturnError();
      } else if a.Ready? {
        pc := Selecting;
      }
    }

    method Finish(a: Answer)
      requires Valid() && pc.Finishing?
      modifies this, guard, w
      ensures Valid() && View() == TickFinish(old(View()), a) && guard == old(guard)
    {
      if a.Fail? {
        ReturnError();
      } else if a.Ready? {
        w.Finish();
        guard.Disarm();
        guard.Drop();
        w.Drop();
        pc := Gone(Some(Ok));
      }
    }

    /** The await in which the loop is suspended answers. */
    method Resume(a: Answer)
      requires Valid() && !pc.Gone?
      modifies this, guard, w
      ensures Valid() && View() == Advance(old(View()), Input(false, a)) && !pc.Unpolled?
      ensures guard == old(guard) || fresh(guard)
    {
      if pc.Unpolled? {
        guard := new SendResetGuard(w);
        pc := Selecting;
      }
      match pc {
        case Selecting => Fetch(a);
        case Writing(_) => Write(a);
        case Finishing => Finish(a);
      }
    }

    method Poll(script: seq<Answer>) returns (r: Option<Result>)
      requires Valid() && !pc.Gone?
      modifies this, guard, w
      ensures Valid() && View() == PollFuture(old(View()), Observed(false, script))
      ensures r == if pc.Gone? then pc.result else None
      ensures guard == old(guard) || fresh(guard)
    {
      ghost var inputs := Observed(false, script);
      var k := 0;
      while !pc.Gone?
        invariant k <= |script| && Valid()
        invariant guard == old(guard) || fresh(guard)
        invariant PollFuture(View(), inputs[k..]) == PollFuture(old(View()), inputs)
        decreases |script| - k
      {
        var a := if k < |script| then script[k] else NotYet(0);
        if k < |script| {
          assert inputs[k..][0] == inputs[k] && inputs[k..][1..] == inputs[k + 1..];
        }
        Resume(a);
        if a.NotYet? {
          break;
        }
        k := k + 1;
      }
      r := if pc.Gone? then pc.result else None;
    }
  }
}
