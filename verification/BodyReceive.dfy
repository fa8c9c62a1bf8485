/** `H3IncomingClient` and `H3IncomingServer`: the receive state machine, its Drop, and the
    h3 receive half it polls. */
module BodyReceive {
  import opened Options
  import opened H3Errors
  import opened BodySendSpec
  import opened Oneshot

  /** What `poll_recv_data` or `poll_recv_trailers` returns. */
  datatype Transport =
    | TPending
    | TData(bytes: seq<Byte>)
    | TFields(fields: string)
    | TNone
    | TError

  /** Results that the call made in this phase can produce. */
  predicate Fits(dataDone: bool, t: Transport) {
    if dataDone then !t.TData? else !t.TFields?
  }

  /** What `poll_frame` returns. `selfWake` marks the Pending that woke its own task. */
  datatype Polled = Pending(selfWake: bool) | Yield(frame: Frame) | End | Error

  datatype Recv = Recv(dataDone: bool, finished: bool)

  const FRESH := Recv(false, false)

  datatype RecvResult = RecvResult(recv: Recv, out: Polled)

  function OnResult(r: Recv, t: Transport): RecvResult
    requires Fits(r.dataDone, t)
  {
    match t
    case TPending => RecvResult(r, Pending(false))
    case TData(bytes) => RecvResult(r, Yield(Data(bytes)))
    case TFields(fields) => RecvResult(r, Yield(Trailers(fields)))
    case TNone =>
      if r.dataDone then RecvResult(r.(finished := true), End)
      else RecvResult(r.(dataDone := true), Pending(true))
    case TError => RecvResult(r.(finished := true), Error)
  }

  datatype Role = Client | Server

  /** The STOP_SENDING code of Drop, if it sends one. */
  function DropCode(role: Role, r: Recv): Option<Code> {
    if r.finished then None
    else Some(match role case Client => H3_REQUEST_CANCELLED case Server => H3_NO_ERROR)
  }

  // --------------------------------------------------------------------------
  // Whole scripts of transport results
  // --------------------------------------------------------------------------

  /** One poll: what the transport call returned and what `poll_frame` made of it. */
  datatype Exchange = Exchange(transport: Transport, out: Polled)

  datatype Session = Session(recv: Recv, polls: seq<Exchange>)

  /** Polls a fresh body with each result in turn, passing over results that the call made
      in that phase cannot produce. */
  function Receive(ts: seq<Transport>): Session {
    if ts == [] then Session(FRESH, [])
    else
      var x := Receive(ts[..|ts| - 1]);
      var t := ts[|ts| - 1];
      if !Fits(x.recv.dataDone, t) then x
      else
        var r := OnResult(x.recv, t);
        Session(r.recv, x.polls + [Exchange(t, r.out)])
  }

  predicate YieldsData(e: Exchange) { e.out.Yield? && e.out.frame.Data? }
  predicate YieldsTrailers(e: Exchange) { e.out.Yield? && e.out.frame.Trailers? }
  predicate SelfWakes(e: Exchange) { e.out == Pending(true) }
  predicate Terminates(e: Exchange) { e.out.End? || e.out.Error? }

  ghost predicate InOrder(polls: seq<Exchange>) {
    forall i, j :: 0 <= i < j < |polls| ==>
      && !(YieldsTrailers(polls[i]) && YieldsData(polls[j]))
      && !(SelfWakes(polls[i]) && SelfWakes(polls[j]))
  }

  ghost predicate PendingsExplained(polls: seq<Exchange>) {
    forall i :: 0 <= i < |polls| && polls[i].out.Pending? ==> polls[i].transport.TPending? || SelfWakes(polls[i])
  }

  ghost predicate BeforeTrailers(polls: seq<Exchange>) {
    forall i :: 0 <= i < |polls| ==> !YieldsTrailers(polls[i]) && !SelfWakes(polls[i])
  }

  /** The transport has said that the data is over, before poll n. */
  ghost predicate NoneBefore(polls: seq<Exchange>, n: nat)
    requires n <= |polls|
  {
    exists k :: 0 <= k < n && polls[k].transport.TNone?
  }

  /** Poll i hands on what the transport said: a frame, its Pending, its error. The first
      None is the self-wake, any later one is the end. */
  ghost predicate HandsOn(polls: seq<Exchange>, i: nat)
    requires i < |polls|
  {
    polls[i].out == match polls[i].transport
                    case TPending => Pending(false)
                    case TData(bytes) => Yield(Data(bytes))
                    case TFields(fields) => Yield(Trailers(fields))
                    case TNone => if NoneBefore(polls, i) then End else Pending(true)
                    case TError => Error
  }

  ghost predicate AllHandedOn(polls: seq<Exchange>) {
    forall i :: 0 <= i < |polls| ==> HandsOn(polls, i)
  }

  ghost predicate SessionInv(x: Session) {
    && InOrder(x.polls)
    && AllHandedOn(x.polls)
    && (x.recv.dataDone <==> NoneBefore(x.polls, |x.polls|))
    && PendingsExplained(x.polls)
    && (!x.recv.dataDone ==> BeforeTrailers(x.polls))
    && (x.recv.finished <==> exists k :: 0 <= k < |x.polls| && Terminates(x.polls[k]))
  }

  lemma HandedOnGrows(polls: seq<Exchange>, e: Exchange)
    requires AllHandedOn(polls) && HandsOn(polls + [e], |polls|)
    ensures AllHandedOn(polls + [e])
  {
    var more := polls + [e];
    forall i | 0 <= i < |polls| ensures HandsOn(more, i) {
      assert HandsOn(polls, i) && more[i] == polls[i];
      SameNones(polls, more, i);
    }
  }

  lemma SameNones(polls: seq<Exchange>, more: seq<Exchange>, n: nat)
    requires n <= |polls| && polls <= more
    ensures NoneBefore(more, n) <==> NoneBefore(polls, n)
  {
    if NoneBefore(polls, n) {
      var k :| 0 <= k < n && polls[k].transport.TNone?;
      assert more[k].transport.TNone?;
    }
  }

  lemma PollHandsOn(x: Session, t: Transport)
    requires SessionInv(x) && Fits(x.recv.dataDone, t)
    ensures var r := OnResult(x.recv, t);
            var polls := x.polls + [Exchange(t, r.out)];
            AllHandedOn(polls) && (r.recv.dataDone <==> NoneBefore(polls, |polls|))
  {
    var r := OnResult(x.recv, t);
    var polls := x.polls + [Exchange(t, r.out)];
    SameNones(x.polls, polls, |x.polls|);
    assert polls[|x.polls|].transport == t;
    HandedOnGrows(x.polls, Exchange(t, r.out));
  }

  lemma PollKeepsSession(x: Session, t: Transport)
    requires SessionInv(x) && Fits(x.recv.dataDone, t)
    ensures var r := OnResult(x.recv, t); SessionInv(Session(r.recv, x.polls + [Exchange(t, r.out)]))
  {
    var r := OnResult(x.recv, t);
    var e := Exchange(t, r.out);
    var polls := x.polls + [e];
    PollHandsOn(x, t);
    assert polls[|x.polls|] == e && forall k :: 0 <= k < |x.polls| ==> polls[k] == x.polls[k];
    assert r.recv.finished <==> x.recv.finished || Terminates(e);
  }

  lemma {:induction false} ReceiveKeepsSession(ts: seq<Transport>)
    ensures SessionInv(Receive(ts))
  {
    if ts != [] {
      var x, t := Receive(ts[..|ts| - 1]), ts[|ts| - 1];
      ReceiveKeepsSession(ts[..|ts| - 1]);
      if Fits(x.recv.dataDone, t) { PollKeepsSession(x, t); }
    }
  }

  /** Every poll hands on what the transport said, so that a body that waits is pending and
      only a transport error is an error. Data never follows trailers; every Pending is the
      transport's own or the one self-wake of the whole body; dropping the body sends
      STOP_SENDING exactly when no poll returned end-of-stream or an error, trailers or not,
      with the code of its role. */
  lemma ReceiveSession(role: Role, ts: seq<Transport>)
    ensures var x := Receive(ts);
            && AllHandedOn(x.polls)
            && (forall i :: 0 <= i < |x.polls| ==> (x.polls[i].out.Error? <==> x.polls[i].transport.TError?))
            && InOrder(x.polls)
            && PendingsExplained(x.polls)
            && DropCode(role, x.recv) ==
               if exists k :: 0 <= k < |x.polls| && Terminates(x.polls[k]) then None
               else Some(if role == Client then H3_REQUEST_CANCELLED else H3_NO_ERROR)
  {
    ReceiveKeepsSession(ts);
    var polls := Receive(ts).polls;
    assert forall i :: 0 <= i < |polls| ==> HandsOn(polls, i);
  }

  // --------------------------------------------------------------------------
  // The incoming body on mutable state
  // --------------------------------------------------------------------------

  /** The receive half: only what the body does to it is recorded. */
  class RecvHalf {
    var stopSending: Option<Code>

    constructor ()
      ensures stopSending.None?
    {
      stopSending := None;
    }

    method StopSending(code: Code)
      modifies this
      ensures stopSending == Some(code)
    {
      stopSending := Some(code);
    }
  }

  class H3Incoming {
    const role: Role
    const s: RecvHalf
    /** Held for its drop only; the server's body has none. */
    const cancelBodySend: Option<CancelChannel>
    var dataDone: bool
    var finished: bool
    var dropped: bool

    ghost function View(): Recv
      reads this
    {
      Recv(dataDone, finished)
    }

    constructor (role: Role, s: RecvHalf, cancelBodySend: Option<CancelChannel>)
      ensures View() == FRESH && !dropped
      ensures this.role == role && this.s == s && this.cancelBodySend == cancelBodySend
    {
      this.role := role;
      this.s := s;
      this.cancelBodySend := cancelBodySend;
      dataDone, finished, dropped := false, false, false;
    }

    /** `poll_frame`, given the result of the one transport call it makes. */
    method PollFrame(t: Transport) returns (out: Polled)
      requires !dropped && Fits(dataDone, t)
      modifies this
      ensures RecvResult(View(), out) == OnResult(old(View()), t) && !dropped
    {
      if !dataDone {
        match t
        case TPending => out := Pending(false);
        case TData(bytes) => out := Yield(Data(bytes));
        case TNone =>
          dataDone := true;
          out := Pending(true);
        case TError =>
          finished := true;
          out := Error;
      } else {
        match t
        case TPending => out := Pending(false);
        case TFields(fields) => out := Yield(Trailers(fields));
        case TNone =>
          finished := true;
          out := End;
        case TError =>
          finished := true;
          out := Error;
      }
    }

    /** `Drop`, and then the fields go: a cancel sender among them closes its channel. */
    method Drop()
      requires !dropped
      modifies this`dropped, s, if cancelBodySend.Some? then {cancelBodySend.value} else {}
      ensures dropped
      ensures s.stopSending == if DropCode(role, View()).Some? then DropCode(role, View()) else old(s.stopSending)
      ensures cancelBodySend.Some? ==> cancelBodySend.value.closed
    {
      if !finished {
        match role
        case Client => s.StopSending(H3_REQUEST_CANCELLED);
        case Server => s.StopSending(H3_NO_ERROR);
      }
      if cancelBodySend.Some? {
        cancelBodySend.value.DropSender();
      }
      dropped := true;
    }
  }
}
