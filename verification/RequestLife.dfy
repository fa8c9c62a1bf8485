/** One dispatched request with everything it leaves behind, on the heap: the request
    future, the body send it made, the response body it returned, and the cancel channel
    between them. */
module RequestLife {
  import opened Options
  import opened H3Errors
  import opened SenderSpec
  import opened BodySendSpec
  import opened BodySend
  import Client = RequestSender
  import Incoming = BodyReceive
  import Runs = SenderRuns
  import Task = RequestTask

  class RequestLife {
    const future: Client.InFlight
    /** The body send, with the executor once it is detached. */
    var body: ClientBodySend?
    var detached: bool
    /** The response body, with the caller. */
    var response: Incoming.H3Incoming?
    ghost var eager: Option<Send>

    ghost predicate ResponseAlive()
      reads this, response
    {
      response != null && !response.dropped
    }

    /** The future's field or the response's field holds the sender, if the object lives. */
    ghost function Holder(): Task.Holder
      reads this, future, response
    {
      if future.cancelTx.Some? then Task.RequestFuture
      else if ResponseAlive() && response.cancelBodySend.Some? then Task.ResponseBody
      else Task.Nobody
    }

    ghost function View(): Task.Task
      reads this, future, response, body, if body != null then {body.guard, body.w, body.cancel} else {}
    {
      Task.Task(future.source, future.phase, ResponseAlive(), Holder(),
                body != null && body.cancel.closed,
                if body != null then Some(body.View()) else None, eager, detached)
    }

    /** Ownership: there is one sender end of the body's channel, in one object at a time,
        and the channel is closed exactly when it is in none. */
    ghost predicate Owned()
      reads this, future, response, body, if body != null then {body.cancel} else {}
    {
      && future.Holds()
      && (body == null ==> future.cancelTx.None? && response == null)
      && (body != null ==>
            && (future.cancelTx.Some? ==> future.cancelTx.value == body.cancel && response == null)
            && (response != null ==> response.cancelBodySend == Some(body.cancel))
            && (body.cancel.closed <==> Holder() == Task.Nobody))
    }

    ghost predicate Valid()
      reads this, future, response, body, if body != null then {body.guard, body.w, body.cancel} else {}
    {
      && Owned()
      && (body != null ==> body.Valid() && (detached || body.pc.Gone?))
      && (future.phase.AtHead? || future.phase.AtBody? ==> body == null)
      && (body == null ==> !detached)
    }

    constructor (future: Client.InFlight)
      requires future.Holds() && future.phase == Runs.AtHead
      ensures Valid() && View() == Task.Create(future.source) && this.future == future
    {
      this.future := future;
      body, response, detached, eager := null, null, false, None;
    }

    /** What the receiver in the body send sees follows from who owns the sender: it fires
        exactly when neither the request future nor the response body is left. */
    lemma ReceiverSeesOwnersGo()
      requires Valid() && body != null
      ensures body.cancel.closed <==> !View().FutureAlive() && !ResponseAlive()
    {
    }

    method Head(failure: Option<StreamError>, ghost sender: Client.RequestSender, ghost f: nat)
      requires Valid() && future.phase == Runs.AtHead && sender.Valid() && sender.Names(f, future.closing)
      modifies future`phase, future.closing
      ensures Valid() && View() == Task.TaskNext(old(View()), Task.Head(failure))
      ensures sender.Valid()
      ensures sender.View() ==
              if failure.Some? && failure.value.ConnectionLevel() then Raise(old(sender.View()), f)
              else old(sender.View())
    {
      future.Head(failure, sender, f);
    }

    method EagerBody(w: SendHalf, script: seq<Answer>)
      requires Valid() && future.phase == Runs.AtBody && w.View() == Wire([], Open)
      modifies this, future`phase, future`cancelTx, w
      ensures Valid() && View() == Task.TaskNext(old(View()), Task.Eager(script))
      ensures fresh(body) && fresh(body.cancel) && body.w == w && fresh(body.guard)
    {
      body := future.EagerBody(w, script);
      detached := !body.pc.Gone?;
      eager := Some(body.View());
    }

    method Response(failure: Option<StreamError>, r: Incoming.RecvHalf,
                    ghost sender: Client.RequestSender, ghost f: nat)
      requires Valid() && future.phase == Runs.AtResponse && sender.Valid() && sender.Names(f, future.closing)
      modifies this`response, future`phase, future`cancelTx, future.closing, future.cancelTx.value
      ensures Valid() && View() == Task.TaskNext(old(View()), Task.Response(failure))
      ensures sender.Valid()
      ensures sender.View() ==
              if failure.Some? && failure.value.ConnectionLevel() then Raise(old(sender.View()), f)
              else old(sender.View())
    {
      var incoming := future.Response(failure, r, sender, f);
      if incoming.Some? {
        response := incoming.value;
      }
    }

    method DropFuture()
      requires Valid() && (future.phase == Runs.AtHead || future.phase == Runs.AtResponse)
      modifies future`phase, future`cancelTx, if future.cancelTx.Some? then {future.cancelTx.value} else {}
      ensures Valid() && View() == Task.TaskNext(old(View()), Task.DropFuture)
    {
      future.Drop();
    }

    method DropResponse()
      requires Valid() && ResponseAlive()
      modifies response, response.s, if body != null then {body.cancel} else {}
      ensures Valid() && View() == Task.TaskNext(old(View()), Task.DropResponse)
    {
      response.Drop();
    }

    /** The executor looks at the await in which the detached body send is suspended. */
    method BodyTick(a: Answer)
      requires Valid() && detached && !body.pc.Gone?
      modifies body, body.guard, body.w
      ensures Valid() && View() == Task.TaskNext(old(View()), Task.BodyTick(a))
    {
      body.Turn(a);
      assert Valid();
    }

    /** The executor drops the detached task. */
    method BodyAbort()
      requires Valid() && detached && !body.pc.Gone?
      modifies body, body.w
      ensures Valid() && View() == Task.TaskNext(old(View()), Task.BodyAbort)
    {
      body.Drop();
    }
  }
}
