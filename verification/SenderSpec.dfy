/** The reconnecting `RequestSender` of client_conn.rs as values: what one
    `poll_ready` and one `call` do to the fields, with a history of events.

    Connections are named by the connect attempt that made them and closing flags by
    the order in which they are allocated, so a flag's number is its generation. */
module SenderSpec {
  import opened Options

  /** Which parts of the base URI were present at construction. */
  datatype BaseUri = BaseUri(scheme: bool, authority: bool)

  /** What `driver_rx.try_recv()` finds: Empty, Ok(()) or Closed. */
  datatype DriverState = Running | Finished | Dropped

  /** What polling the connect future gives. */
  datatype ConnectPoll = NotYet | Connected | Refused(error: string)

  datatype Readiness = Pending | ReadyOk | ReadyErr(error: string)

  datatype Cause = DriverEnded | FlagRaised

  datatype Event =
    | Started(attempt: nat)
    | Installed(conn: nat)
    | Failed(error: string)
    | Retired(retiree: Option<nat>, flag: nat, cause: Cause)
    | Surfaced(error: string)
    | BadUri
    | NotReady
    | Dispatched(conn: nat, flag: nat)

  /** The fields of `RequestSender`. `closing` is the value of the current flag, whose
      number is `Current()`; `retiredFlags` are the values of all earlier flags, which
      only in-flight requests can still reach. */
  datatype Sender = Sender(
    base: BaseUri,
    sendRequest: Option<nat>,
    driverRx: Option<nat>,
    connecting: Option<nat>,
    connectError: Option<string>,
    closing: bool,
    retiredFlags: seq<bool>,
    attempts: nat,
    log: seq<Event>)
  {
    function Current(): nat { |retiredFlags| }

    predicate FlagUp(f: nat) {
      if f < |retiredFlags| then retiredFlags[f] else f == |retiredFlags| && closing
    }
  }

  function New(base: BaseUri): Sender {
    Sender(base, None, None, None, None, false, [], 0, [])
  }

  /** `retire_connection`: drop sender and driver signal, install a fresh flag. */
  function Retire(s: Sender, cause: Cause): Sender {
    s.(sendRequest := None, driverRx := None,
       retiredFlags := s.retiredFlags + [s.closing], closing := false,
       log := s.log + [Retired(s.sendRequest, s.Current(), cause)])
  }

  function CheckDriver(s: Sender, d: DriverState): Sender {
    if s.driverRx.Some? && !d.Running? then Retire(s, DriverEnded) else s
  }

  function CheckClosing(s: Sender): Sender {
    if s.closing then Retire(s, FlagRaised) else s
  }

  function Begin(s: Sender): (t: Sender)
    ensures t.connecting.Some?
  {
    if s.connecting.Some? then s
    else s.(connecting := Some(s.attempts), attempts := s.attempts + 1, log := s.log + [Started(s.attempts)])
  }

  function Resolve(s: Sender, p: ConnectPoll): Sender
    requires s.connecting.Some?
  {
    match p
    case NotYet => s
    case Connected =>
      var c := s.connecting.value;
      s.(sendRequest := Some(c), driverRx := Some(c), connecting := None, log := s.log + [Installed(c)])
    case Refused(e) =>
      s.(connecting := None, connectError := Some(e), log := s.log + [Failed(e)])
  }

  datatype PollResult = PollResult(sender: Sender, readiness: Readiness)

  /** `poll_ready`, given the state of the cached driver and the outcome of polling the
      connect future if it comes to that. */
  function PollReady(s: Sender, d: DriverState, p: ConnectPoll): PollResult {
    var t := CheckClosing(CheckDriver(s, d));
    if t.connectError.Some? || t.sendRequest.Some? then PollResult(t, ReadyOk)
    else PollResult(Resolve(Begin(t), p), if p.NotYet? then Pending else ReadyOk)
  }

  /** Why `call` returned an error future instead of dispatching. */
  datatype CallError =
    | DeferredConnectError(error: string) | MissingScheme | MissingAuthority | InvalidUri | SenderNotReady

  datatype CallOutcome = Rejected(why: CallError) | Dispatch(conn: nat, flag: nat)

  datatype CallResult = CallResult(sender: Sender, outcome: CallOutcome)

  function Record(s: Sender, e: Event): Sender {
    s.(log := s.log + [e])
  }

  /** `call`; `uriBuilds` says whether `Uri::builder().build()` accepts the parts. */
  function Call(s: Sender, uriBuilds: bool): CallResult {
    if s.connectError.Some? then
      var e := s.connectError.value;
      CallResult(Record(s.(connectError := None), Surfaced(e)), Rejected(DeferredConnectError(e)))
    else if !s.base.scheme then CallResult(Record(s, BadUri), Rejected(MissingScheme))
    else if !s.base.authority then CallResult(Record(s, BadUri), Rejected(MissingAuthority))
    else if !uriBuilds then CallResult(Record(s, BadUri), Rejected(InvalidUri))
    else match s.sendRequest
      case None => CallResult(Record(s, NotReady), Rejected(SenderNotReady))
      case Some(c) => CallResult(Record(s, Dispatched(c, s.Current())), Dispatch(c, s.Current()))
  }

  /** What a call comes to. It is dispatched exactly if nothing stands in its way, on the
      cached connection and under the current flag; the first thing that does is what it is
      told, and a deferred connect error is told whole. Either way the cached connection
      stays, and only a deferred error is used up. */
  lemma CallIsExact(s: Sender, uriBuilds: bool)
    ensures var r := Call(s, uriBuilds);
            && (r.outcome.Dispatch? <==>
                  s.connectError.None? && s.base == BaseUri(true, true) && uriBuilds && s.sendRequest.Some?)
            && (r.outcome.Dispatch? ==> Some(r.outcome.conn) == s.sendRequest && r.outcome.flag == s.Current())
            && (forall e :: r.outcome == Rejected(DeferredConnectError(e)) <==> s.connectError == Some(e))
            && (r.outcome == Rejected(SenderNotReady) <==>
                  s.connectError.None? && s.base == BaseUri(true, true) && uriBuilds && s.sendRequest.None?)
            && (r.outcome == Rejected(InvalidUri) <==>
                  s.connectError.None? && s.base == BaseUri(true, true) && !uriBuilds)
            && (r.outcome == Rejected(MissingScheme) <==> s.connectError.None? && !s.base.scheme)
            && r.sender.connectError.None?
            && r.sender == s.(connectError := None, log := r.sender.log)
  {
  }

  /** `closing.store(true)` by a request that holds flag f, current or long retired. */
  function Raise(s: Sender, f: nat): Sender {
    if f == s.Current() then s.(closing := true)
    else if f < s.Current() then s.(retiredFlags := s.retiredFlags[f := true])
    else s
  }

  /** At most one of cached sender, connect future and deferred error; the driver channel
      is that of the cached connection. */
  ghost predicate Exclusive(s: Sender) {
    && s.driverRx == s.sendRequest
    && (s.sendRequest.Some? ==> s.connecting.None? && s.connectError.None?)
    && (s.connectError.Some? ==> s.connecting.None?)
  }

  ghost predicate Coupled(s: Sender) {
    Exclusive(s) && (s.closing ==> s.sendRequest.Some?)
  }

  /** Both asserts of the cache-hit branch, seen after the two retire checks. */
  lemma PollReadyKeepsCoupling(s: Sender, d: DriverState, p: ConnectPoll)
    requires Coupled(s)
    ensures Coupled(PollReady(s, d, p).sender)
    ensures var t := CheckClosing(CheckDriver(s, d));
            t.sendRequest.Some? ==> t.connecting.None? && t.driverRx.Some?
    ensures s.connecting.Some? || s.connectError.Some? ==> CheckClosing(CheckDriver(s, d)) == s
    ensures var r := PollReady(s, d, p);
            r.readiness.ReadyOk? <==> r.sender.sendRequest.Some? || r.sender.connectError.Some?
    ensures !PollReady(s, d, p).readiness.ReadyErr?
  {
  }
}
