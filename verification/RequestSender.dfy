/** client_conn.rs on the heap: `RequestSender` with its mutable fields, the closing flags
    as objects whose identity is the generation tag, and the in-flight requests that still
    hold them. Each method is proved against SenderSpec. */
module RequestSender {
  import opened Options
  import opened H3Errors
  import opened SenderSpec
  import Body = BodySendSpec
  import Runs = SenderRuns
  import opened BodySend
  import opened Oneshot
  import Incoming = BodyReceive
  import Task = RequestTask

  /** `Arc<AtomicBool>` */
  class Flag {
    var up: bool

    constructor ()
      ensures !up
    {
      up := false;
    }
  }

  /** h3 `SendRequest`: a handle to one connection. */
  class Connection {
    ghost const attempt: nat

    constructor (ghost attempt: nat)
      ensures this.attempt == attempt
    {
      this.attempt := attempt;
    }
  }

  /** The oneshot receiver on which the connection's driver task reports its end. */
  class DriverRx {
    ghost const attempt: nat
    var state: DriverState

    constructor (ghost attempt: nat)
      ensures this.attempt == attempt && state == Running
    {
      this.attempt := attempt;
      state := Running;
    }
  }

  datatype Connecting = StillConnecting | Done(conn: Connection, rx: DriverRx) | Error(error: string)

  /** The boxed connect future. Polling it again after it has resolved would panic. */
  class ConnectFuture {
    ghost const attempt: nat
    var resolved: bool

    constructor (ghost attempt: nat)
      ensures this.attempt == attempt && !resolved
    {
      this.attempt := attempt;
      resolved := false;
    }

    method Poll(p: ConnectPoll) returns (r: Connecting)
      requires !resolved
      modifies this
      ensures resolved == !p.NotYet?
      ensures r.StillConnecting? == p.NotYet?
      ensures p.Connected? ==> r.Done? && r.conn.attempt == r.rx.attempt == attempt && r.rx.state == Running
      ensures p.Refused? ==> r == Error(p.error)
    {
      match p
      case NotYet => r := StillConnecting;
      case Connected =>
        var conn := new Connection(attempt);
        var rx := new DriverRx(attempt);
        resolved := true;
        r := Done(conn, rx);
      case Refused(e) =>
        resolved := true;
        r := Error(e);
    }
  }

  datatype Called = ErrorFuture(why: CallError) | Sending(request: InFlight)

  class RequestSender {
    const base: BaseUri
    var sendRequest: Option<Connection>
    var driverRx: Option<DriverRx>
    var connecting: Option<ConnectFuture>
    var connectError: Option<string>
    var closing: Flag

    // history: flags replaced so far, connect attempts, events
    ghost var replaced: seq<Flag>
    ghost var attempts: nat
    ghost var log: seq<Event>

    ghost function View(): Sender
      reads this, closing, replaced
    {
      Sender(base,
             if sendRequest.Some? then Some(sendRequest.value.attempt) else None,
             if driverRx.Some? then Some(driverRx.value.attempt) else None,
             if connecting.Some? then Some(connecting.value.attempt) else None,
             connectError,
             closing.up,
             seq(|replaced|, i requires 0 <= i < |replaced| reads this, replaced => replaced[i].up),
             attempts,
             log)
    }

    /** Flag `flag` is generation f of this sender. */
    ghost predicate Names(f: nat, flag: Flag)
      reads this
    {
      if f < |replaced| then replaced[f] == flag else f == |replaced| && closing == flag
    }

    ghost predicate Valid()
      reads this, closing, replaced, if connecting.Some? then {connecting.value} else {}
    {
      && Exclusive(View())
      && (connecting.Some? ==> !connecting.value.resolved)
      && closing !in replaced
      && (forall i, j :: 0 <= i < j < |replaced| ==> replaced[i] != replaced[j])
    }

    ghost function Driver(): DriverState
      reads this, if driverRx.Some? then {driverRx.value} else {}
    {
      if driverRx.Some? then driverRx.value.state else Running
    }

    constructor (base: BaseUri)
      ensures Valid() && View() == New(base) && fresh(closing)
    {
      this.base := base;
      sendRequest, driverRx, connecting, connectError := None, None, None, None;
      closing := new Flag();
      replaced, attempts, log := [], 0, [];
    }

    method RetireConnection(ghost cause: Cause)
      requires Valid()
      modifies this
      ensures Valid() && View() == Retire(old(View()), cause)
      ensures fresh(closing) && replaced == old(replaced) + [old(closing)] && connecting == old(connecting)
    {
      log := log + [Retired(View().sendRequest, |replaced|, cause)];
      sendRequest := None;
      driverRx := None;
      replaced := replaced + [closing];
      closing := new Flag();
    }

    /** The driver check and the flag check at the head of `poll_ready`. */
    method RetireStale()
      requires Valid()
      modifies this
      ensures Valid() && View() == CheckClosing(CheckDriver(old(View()), old(Driver())))
      ensures connecting == old(connecting)
      ensures || (closing == old(closing) && replaced == old(replaced))
              || (fresh(closing) && replaced == old(replaced) + [old(closing)])
    {
      if driverRx.Some? {
        match driverRx.value.state
        case Running =>
        case Finished => RetireConnection(DriverEnded);
        case Dropped => RetireConnection(DriverEnded);
      }
      if closing.up {
        RetireConnection(FlagRaised);
      }
    }

    /** Makes the connect future if there is none. */
    method StartConnect()
      requires Valid() && sendRequest.None? && connectError.None?
      modifies this
      ensures Valid() && View() == Begin(old(View()))
      ensures closing == old(closing) && replaced == old(replaced)
      ensures if old(connecting).Some? then connecting == old(connecting) else fresh(connecting.value)
    {
      if connecting.None? {
        var fut := new ConnectFuture(attempts);
        connecting := Some(fut);
        log := log + [Started(attempts)];
        attempts := attempts + 1;
      }
    }

    /** The tail of `poll_ready`: start the connect future if there is none, and poll it. */
    method PollConnect(p: ConnectPoll) returns (r: Readiness)
      requires Valid() && sendRequest.None? && connectError.None?
      modifies this, if connecting.Some? then {connecting.value} else {}
      ensures Valid() && View() == Resolve(Begin(old(View())), p)
      ensures r == if p.NotYet? then Pending else ReadyOk
      ensures closing == old(closing) && replaced == old(replaced)
    {
      StartConnect();
      var polled := connecting.value.Poll(p);
      match polled
      case StillConnecting =>
        r := Pending;
      case Done(conn, rx) =>
        log := log + [Installed(conn.attempt)];
        sendRequest := Some(conn);
        driverRx := Some(rx);
        connecting := None;
        r := ReadyOk;
      case Error(e) =>
        log := log + [Failed(e)];
        connecting := None;
        connectError := Some(e);
        r := ReadyOk;
    }

    method PollReady(p: ConnectPoll) returns (r: Readiness)
      requires Valid()
      modifies this, if connecting.Some? then {connecting.value} else {}
      ensures Valid()
      ensures PollResult(View(), r) == SenderSpec.PollReady(old(View()), old(Driver()), p)
      ensures || (closing == old(closing) && replaced == old(replaced))
              || (fresh(closing) && replaced == old(replaced) + [old(closing)])
    {
      RetireStale();
      if connectError.Some? {
        return ReadyOk;
      }
      if sendRequest.Some? {
        assert connecting.None?;
        assert driverRx.Some?;
        return ReadyOk;
      }
      r := PollConnect(p);
    }

    method Call(uriBuilds: bool, source: seq<Body.Frame>) returns (r: Called)
      requires Valid()
      modifies this
      ensures Valid() && closing == old(closing) && replaced == old(replaced) && connecting == old(connecting)
      ensures var spec := SenderSpec.Call(old(View()), uriBuilds);
              && View() == spec.sender
              && match spec.outcome
                 case Rejected(why) => r == ErrorFuture(why)
                 case Dispatch(c, f) =>
                   && r.Sending? && fresh(r.request) && r.request.Holds()
                   && r.request.phase == Runs.AtHead && r.request.source == source
                   && r.request.conn.attempt == c
                   && r.request.closing == closing && Names(f, closing)
    {
      if connectError.Some? {
        var e := connectError.value;
        connectError := None;
        log := log + [Surfaced(e)];
        return ErrorFuture(DeferredConnectError(e));
      }
      if !base.scheme {
        log := log + [BadUri];
        return ErrorFuture(MissingScheme);
      }
      if !base.authority {
        log := log + [BadUri];
        return ErrorFuture(MissingAuthority);
      }
      if !uriBuilds {
        log := log + [BadUri];
        return ErrorFuture(InvalidUri);
      }
      if sendRequest.None? {
        log := log + [NotReady];
        return ErrorFuture(SenderNotReady);
      }
      log := log + [Dispatched(sendRequest.value.attempt, |replaced|)];
      var request := new InFlight(sendRequest.value, closing, source);
      r := Sending(request);
    }
  }

  /** The future of `send_request_inner`, with the connection and flag captured by `call`.
      Between the head and the response it holds the cancel sender. */
  class InFlight {
    const conn: Connection
    const closing: Flag
    const source: seq<Body.Frame>
    var phase: Runs.Phase
    var cancelTx: Option<CancelChannel>

    constructor (conn: Connection, closing: Flag, source: seq<Body.Frame>)
      ensures Holds() && phase == Runs.AtHead
      ensures this.conn == conn && this.closing == closing && this.source == source
    {
      this.conn := conn;
      this.closing := closing;
      this.source := source;
      phase, cancelTx := Runs.AtHead, None;
    }

    ghost predicate Holds()
      reads this
    {
      cancelTx.Some? <==> phase == Runs.AtResponse
    }

    /** What the future's end does to the cancel sender it may still hold. */
    method DropLocals()
      modifies this`cancelTx, if cancelTx.Some? then {cancelTx.value} else {}
      ensures cancelTx.None? && (old(cancelTx).Some? ==> old(cancelTx).value.closed)
    {
      if cancelTx.Some? {
        cancelTx.value.DropSender();
      }
      cancelTx := None;
    }

    /** `send_request(head).await`. Whatever generation f of `sender` this request holds,
        current or replaced long ago, exactly that flag is raised, and only by an error
        that concerns the connection. */
    method Head(failure: Option<StreamError>, ghost sender: RequestSender, ghost f: nat)
      requires phase == Runs.AtHead && Holds() && sender.Valid() && sender.Names(f, closing)
      modifies this`phase, closing
      ensures phase == if failure.None? then Runs.AtBody else Runs.HeadFailed(failure.value)
      ensures Holds() && sender.Valid()
      ensures sender.View() ==
              if failure.Some? && failure.value.ConnectionLevel() then Raise(old(sender.View()), f)
              else old(sender.View())
    {
      if failure.Some? {
        Store(failure.value, sender, f);
        phase := Runs.HeadFailed(failure.value);
      } else {
        phase := Runs.AtBody;
      }
    }

    /** Makes the channel and the body send over the stream's send half, and polls it once.
        Its error is returned as it is; if it is pending it goes on without this future. */
    method EagerBody(w: SendHalf, script: seq<Body.Answer>) returns (fut: ClientBodySend)
      requires phase == Runs.AtBody && Holds() && w.View() == Body.Wire([], Body.Open)
      modifies this`phase, this`cancelTx, w
      ensures fresh(fut) && fresh(fut.cancel) && fut.Valid() && fut.guard != null && fresh(fut.guard) && fut.w == w
      ensures fut.View() == Task.Launched(source, script)
      ensures phase == if Task.ReturnedErr(fut.View()) then Runs.BodyFailed else Runs.AtResponse
      ensures Holds() && (cancelTx.Some? ==> cancelTx.value == fut.cancel)
      ensures fut.cancel.closed <==> cancelTx.None?
    {
      var channel := new CancelChannel();
      cancelTx := Some(channel);
      fut := new ClientBodySend(w, source, channel);
      var polled := fut.Poll(Observed(channel.closed, script));
      Task.LaunchedIsGuarded(source, script);
      if polled == Some(Body.Err) {
        DropLocals();
        phase := Runs.BodyFailed;
      } else {
        phase := Runs.AtResponse;
      }
    }

    /** `recv_response().await`; a response takes the cancel sender with it. */
    method Response(failure: Option<StreamError>, r: Incoming.RecvHalf, ghost sender: RequestSender, ghost f: nat)
      returns (body: Option<Incoming.H3Incoming>)
      requires phase == Runs.AtResponse && Holds() && sender.Valid() && sender.Names(f, closing)
      modifies this`phase, this`cancelTx, closing, cancelTx.value
      ensures phase == if failure.None? then Runs.Responded else Runs.ResponseFailed(failure.value)
      ensures Holds() && sender.Valid()
      ensures sender.View() ==
              if failure.Some? && failure.value.ConnectionLevel() then Raise(old(sender.View()), f)
              else old(sender.View())
      ensures body.Some? <==> failure.None?
      ensures body.Some? ==> fresh(body.value) && !body.value.dropped && body.value.s == r
      ensures body.Some? ==> body.value.View() == Incoming.FRESH && body.value.role == Incoming.Client
      ensures body.Some? ==> body.value.cancelBodySend == old(cancelTx)
      ensures old(cancelTx).value.closed == (failure.Some? || old(cancelTx.value.closed))
    {
      if failure.Some? {
        Store(failure.value, sender, f);
        DropLocals();
        phase := Runs.ResponseFailed(failure.value);
        body := None;
      } else {
        var incoming := new Incoming.H3Incoming(Incoming.Client, r, cancelTx);
        cancelTx := None;
        phase := Runs.Responded;
        body := Some(incoming);
      }
    }

    /** The caller drops the future at one of its two awaits. */
    method Drop()
      requires Holds() && (phase == Runs.AtHead || phase == Runs.AtResponse)
      modifies this`phase, this`cancelTx, if cancelTx.Some? then {cancelTx.value} else {}
      ensures phase == Runs.Abandoned && Holds()
      ensures old(cancelTx).Some? ==> old(cancelTx).value.closed
    {
      DropLocals();
      phase := Runs.Abandoned;
    }

    /** The store shared by both error sites. */
    method Store(e: StreamError, ghost sender: RequestSender, ghost f: nat)
      requires sender.Valid() && sender.Names(f, closing)
      modifies closing
      ensures sender.Valid()
      ensures sender.View() == if e.ConnectionLevel() then Raise(old(sender.View()), f) else old(sender.View())
    {
      ClassifierIsExact(e);
      if IsConnectionClosing(e) {
        closing.up := true;
      }
    }
  }
}
