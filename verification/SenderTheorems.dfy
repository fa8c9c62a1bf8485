/** What the invariant of SenderRuns means for every run from a new `RequestSender`. */
module SenderTheorems {
  import opened Options
  import opened H3Errors
  import opened SenderSpec
  import opened SenderRuns

  lemma ReachableInv(base: BaseUri, steps: seq<Step>)
    ensures Inv(Run(Init(base), steps))
  {
    var w := Init(base);
    assert forall f: nat :: !Blamed(w, f);
    RunKeepsInv(w, steps);
  }

  /** At most one of cached sender, connect future and deferred error; sender and driver
      channel come and go together; a raised current flag means a cached sender. A poll
      never retires while a connect or an unreported failure is outstanding, never asks
      a finished connect future again, and never returns an error. */
  lemma FieldsStayCoupled(base: BaseUri, steps: seq<Step>, p: ConnectPoll)
    ensures var w := Run(Init(base), steps);
            var s := w.s;
            && |ToSeq(s.sendRequest)| + |ToSeq(s.connecting)| + |ToSeq(s.connectError)| <= 1
            && (s.sendRequest.Some? <==> s.driverRx.Some?)
            && (s.closing ==> s.sendRequest.Some?)
            && (var r := PollReady(s, CachedDriver(w), p);
                && !r.readiness.ReadyErr?
                && (r.readiness.ReadyOk? <==> r.sender.sendRequest.Some? || r.sender.connectError.Some?)
                && (r.readiness.ReadyOk? ==> r.sender.connecting.None?)
                && (s.connecting.Some? || s.connectError.Some? ==> r.sender.retiredFlags == s.retiredFlags))
  {
    ReachableInv(base, steps);
    var w := Run(Init(base), steps);
    PollReadyKeepsCoupling(w.s, CachedDriver(w), p);
  }

  /** Connects started = installed + failed + in progress; installed = retired + cached,
      in order; failures = errors handed to calls + the deferred one, in order. */
  lemma LedgerBalances(base: BaseUri, steps: seq<Step>)
    ensures var s := Run(Init(base), steps).s;
            var b := Tally(s.log);
            && |b.starts| == |b.installs| + |b.failures| + |ToSeq(s.connecting)|
            && b.installs == b.retirees + ToSeq(s.sendRequest)
            && b.failures == b.surfaced + ToSeq(s.connectError)
            && Increasing(b.installs)
  {
    ReachableInv(base, steps);
  }

  /** Requests share a flag exactly when they share a connection, and neither ever goes
      back to an older one. */
  lemma FlagsNameConnections(base: BaseUri, steps: seq<Step>, i: nat, j: nat)
    requires i < j < |Run(Init(base), steps).reqs|
    ensures var reqs := Run(Init(base), steps).reqs;
            && (reqs[i].flag == reqs[j].flag <==> reqs[i].conn == reqs[j].conn)
            && reqs[i].flag <= reqs[j].flag
            && reqs[i].conn <= reqs[j].conn
  {
    ReachableInv(base, steps);
    var reqs := Run(Init(base), steps).reqs;
    assert InOrder(reqs[i], reqs[j]);
  }

  /** Every retirement in the history took down a connection, and did so because that
      connection's driver ended or a request on that connection and flag failed with a
      connection-level error; and a flag is up exactly when such a request exists. */
  lemma RetirementsAreDeserved(base: BaseUri, steps: seq<Step>, k: nat, f: nat)
    requires k < |Run(Init(base), steps).s.log|
    ensures var w := Run(Init(base), steps);
            && (w.s.log[k].Retired? ==> w.s.log[k].retiree.Some? && RetireJustified(w, w.s.log[k]))
            && (w.s.FlagUp(f) <==> f <= w.s.Current() && Blamed(w, f))
  {
    ReachableInv(base, steps);
    var w := Run(Init(base), steps);
    assert RetireJustified(w, w.s.log[k]);
  }

  function Polls(ps: seq<ConnectPoll>): (steps: seq<Step>)
    ensures |steps| == |ps| && forall i :: 0 <= i < |ps| ==> steps[i] == Poll(ps[i])
  {
    seq(|ps|, i requires 0 <= i < |ps| => Poll(ps[i]))
  }

  lemma {:induction false} PollsLeaveError(w: World, steps: seq<Step>)
    requires Coupled(w.s) && w.s.connectError.Some?
    requires forall i :: 0 <= i < |steps| ==> steps[i].Poll?
    ensures Run(w, steps) == w
    decreases |steps|
  {
    if steps != [] {
      assert Apply(w, steps[0]) == w;
      PollsLeaveError(w, steps[1..]);
    }
  }

  /** While a connect error waits for its request, any number of readiness polls stay ready
      and change nothing: no second connect is started and the error is kept. */
  lemma DeferredErrorIsStable(base: BaseUri, steps: seq<Step>, ps: seq<ConnectPoll>, p: ConnectPoll)
    requires Run(Init(base), steps).s.connectError.Some?
    ensures var w := Run(Init(base), steps);
            Run(w, Polls(ps)) == w && PollReady(w.s, CachedDriver(w), p) == PollResult(w.s, ReadyOk)
  {
    ReachableInv(base, steps);
    PollsLeaveError(Run(Init(base), steps), Polls(ps));
  }

  // --------------------------------------------------------------------------
  // Connect errors reach the callers
  // --------------------------------------------------------------------------

  /** The sender has no usable connection and no error to report, so that a poll now asks the
      connect future. */
  predicate Asks(w: World) {
    w.s.connectError.None? && (w.s.sendRequest.None? || w.s.closing || !CachedDriver(w).Running?)
  }

  /** The connect errors that the environment gave to polls that asked for them. */
  function Given(w: World, steps: seq<Step>): seq<string>
    decreases |steps|
  {
    if steps == [] then []
    else
      (match steps[0]
       case Poll(Refused(e)) => if Asks(w) then [e] else []
       case _ => [])
      + Given(Apply(w, steps[0]), steps[1..])
  }

  /** The connect errors that calls came back with. */
  function Told(w: World, steps: seq<Step>): seq<string>
    decreases |steps|
  {
    if steps == [] then []
    else
      (match steps[0]
       case Submit(uriBuilds) =>
         (match Call(w.s, uriBuilds).outcome
          case Rejected(DeferredConnectError(e)) => [e]
          case _ => [])
       case _ => [])
      + Told(Apply(w, steps[0]), steps[1..])
  }

  lemma PollDefers(w: World, p: ConnectPoll)
    requires Coupled(w.s)
    ensures Apply(w, Poll(p)).s.connectError
            == if p.Refused? && Asks(w) then Some(p.error) else w.s.connectError
  {
  }

  lemma StepCarriesErrors(w: World, step: Step)
    requires Inv(w)
    ensures ToSeq(w.s.connectError) + Given(w, [step]) == Told(w, [step]) + ToSeq(Apply(w, step).s.connectError)
  {
    var v := Apply(w, step);
    assert Given(v, []) == [] && Told(v, []) == [] && [step][1..] == [];
    match step
    case Poll(p) => PollDefers(w, p);
    case Submit(uriBuilds) => CallIsExact(w.s, uriBuilds);
    case _ =>
  }

  lemma FirstOfMany(w: World, steps: seq<Step>)
    requires steps != []
    ensures Given(w, steps) == Given(w, [steps[0]]) + Given(Apply(w, steps[0]), steps[1..])
    ensures Told(w, steps) == Told(w, [steps[0]]) + Told(Apply(w, steps[0]), steps[1..])
  {
    assert [steps[0]][1..] == [];
  }

  lemma Exchange(a: seq<string>, g: seq<string>, t: seq<string>, b: seq<string>,
                 gs: seq<string>, ts: seq<string>, c: seq<string>)
    requires a + g == t + b && b + gs == ts + c
    ensures a + (g + gs) == (t + ts) + c
  {
    assert a + (g + gs) == (a + g) + gs == t + (b + gs) == (t + ts) + c;
  }

  lemma {:induction false} RunCarriesErrors(w: World, steps: seq<Step>)
    requires Inv(w)
    ensures ToSeq(w.s.connectError) + Given(w, steps) == Told(w, steps) + ToSeq(Run(w, steps).s.connectError)
    decreases |steps|
  {
    if steps != [] {
      var v, rest := Apply(w, steps[0]), steps[1..];
      StepCarriesErrors(w, steps[0]);
      FirstOfMany(w, steps);
      ApplyKeepsInv(w, steps[0]);
      RunCarriesErrors(v, rest);
      Exchange(ToSeq(w.s.connectError), Given(w, [steps[0]]), Told(w, [steps[0]]), ToSeq(v.s.connectError),
               Given(v, rest), Told(v, rest), ToSeq(Run(v, rest).s.connectError));
    }
  }

  /** Over every run, the connect errors that calls come back with are exactly those that
      the environment gave, in that order and with their text, except for the last one while
      it waits for its call. */
  lemma ErrorsReachCallers(base: BaseUri, steps: seq<Step>)
    ensures Given(Init(base), steps)
         == Told(Init(base), steps) + ToSeq(Run(Init(base), steps).s.connectError)
  {
    ReachableInv(base, []);
    RunCarriesErrors(Init(base), steps);
    assert [] + Given(Init(base), steps) == Given(Init(base), steps);
  }

  /** A request is dispatched and its head is refused because the peer is going away. */
  lemma RefusedHead(w: World)
    requires Coupled(w.s) && w.s.base == BaseUri(true, true) && w.s.sendRequest.Some?
    ensures var c, f := w.s.sendRequest.value, w.s.Current();
            Apply(Apply(w, Submit(true)), HeadResult(|w.reqs|, Some(RemoteClosing)))
            == World(w.s.(closing := true, log := w.s.log + [Dispatched(c, f)]), w.ended,
                     w.reqs + [Request(c, f, HeadFailed(RemoteClosing))])
  {
    ClassifierIsExact(RemoteClosing);
    var c, f := w.s.sendRequest.value, w.s.Current();
    var sent := Apply(w, Submit(true));
    assert sent.reqs == w.reqs + [Request(c, f, AtHead)];
    assert sent.reqs[|w.reqs| := Request(c, f, HeadFailed(RemoteClosing))]
        == w.reqs + [Request(c, f, HeadFailed(RemoteClosing))];
  }

  /** A raised flag costs the cached connection at the next poll, for either cause. */
  lemma Reconnect(s: Sender, d: DriverState)
    requires Coupled(s) && s.closing
    ensures var cause := if d.Running? then FlagRaised else DriverEnded;
            var t := PollReady(s, d, Connected).sender;
            && t.sendRequest == Some(s.attempts) && t.connectError.None? && t.base == s.base
            && t.Current() == s.Current() + 1
            && t.log == s.log + [Retired(s.sendRequest, s.Current(), cause)] + [Started(s.attempts)]
                        + [Installed(s.attempts)]
  {
  }

  /** The intended course after a peer GOAWAY (section 5.2 of RFC 9114): whatever happened
      before, the request that is rejected takes down exactly its own connection, and the
      next successful connect is a new one that the next request is dispatched on. */
  lemma GoawayThenReconnect(base: BaseUri, steps: seq<Step>)
    requires Run(Init(base), steps).s.base == BaseUri(true, true)
    requires Run(Init(base), steps).s.sendRequest.Some?
    ensures var w := Run(Init(base), steps);
            var rejected := Apply(Apply(w, Submit(true)), HeadResult(|w.reqs|, Some(RemoteClosing)));
            var ready := Apply(rejected, Poll(Connected));
            && Tally(ready.s.log).retirees == Tally(w.s.log).retirees + [w.s.sendRequest.value]
            && Tally(ready.s.log).installs == Tally(w.s.log).installs + [w.s.attempts]
            && Call(ready.s, true).outcome == Dispatch(w.s.attempts, w.s.Current() + 1)
  {
    ReachableInv(base, steps);
    var w := Run(Init(base), steps);
    RefusedHead(w);
    var rejected := Apply(Apply(w, Submit(true)), HeadResult(|w.reqs|, Some(RemoteClosing)));
    var d := CachedDriver(rejected);
    Reconnect(rejected.s, d);
    var retired := Retired(w.s.sendRequest, w.s.Current(), if d.Running? then FlagRaised else DriverEnded);
    TallyAppend(w.s.log, Dispatched(w.s.sendRequest.value, w.s.Current()));
    TallyAppend(rejected.s.log, retired);
    TallyAppend(rejected.s.log + [retired], Started(w.s.attempts));
    TallyAppend(rejected.s.log + [retired] + [Started(w.s.attempts)], Installed(w.s.attempts));
  }

  /** A cached connection whose driver has ended, or whose flag is up, is never used again:
      whatever its connect comes to, the next poll lets go of it. */
  lemma DeadConnectionIsDropped(base: BaseUri, steps: seq<Step>, p: ConnectPoll)
    requires var w := Run(Init(base), steps);
             w.s.sendRequest.Some? && (w.s.closing || !CachedDriver(w).Running?)
    ensures var w := Run(Init(base), steps);
            var v := Apply(w, Poll(p));
            && v.s.sendRequest == (if p.Connected? then Some(w.s.attempts) else None)
            && w.s.sendRequest.value < w.s.attempts && !v.s.closing && v.s.Current() == w.s.Current() + 1
  {
    ReachableInv(base, steps);
  }

  // --------------------------------------------------------------------------
  // Stream-level errors never cost a connection
  // --------------------------------------------------------------------------

  predicate Harmless(step: Step) {
    match step
    case DriverEnds(_, _) => false
    case HeadResult(_, f) => f.Some? ==> !f.value.ConnectionLevel()
    case ResponseResult(_, f) => f.Some? ==> !f.value.ConnectionLevel()
    case _ => true
  }

  ghost predicate Unharmed(w: World) {
    w.ended == map[] && forall i :: 0 <= i < |w.reqs| ==> !SawClosing(w.reqs[i].phase)
  }

  lemma {:induction false} HarmlessRun(w: World, steps: seq<Step>)
    requires Unharmed(w) && forall k :: 0 <= k < |steps| ==> Harmless(steps[k])
    ensures Unharmed(Run(w, steps))
    decreases |steps|
  {
    if steps != [] {
      assert Harmless(steps[0]);
      HarmlessRun(Apply(w, steps[0]), steps[1..]);
    }
  }

  lemma NoRetirement(w: World, log: seq<Event>)
    requires Unharmed(w) && forall k :: 0 <= k < |log| ==> RetireJustified(w, log[k])
    ensures Tally(log).retirees == []
  {
    if log != [] {
      assert RetireJustified(w, log[|log| - 1]);
      NoRetirement(w, log[..|log| - 1]);
    }
  }

  /** However many requests fail with stream-scoped errors, body errors or by being
      dropped, nothing is retired and at most one connection is ever installed. */
  lemma StreamErrorsNeverReconnect(base: BaseUri, steps: seq<Step>)
    requires forall k :: 0 <= k < |steps| ==> Harmless(steps[k])
    ensures var b := Tally(Run(Init(base), steps).s.log); b.retirees == [] && |b.installs| <= 1
  {
    ReachableInv(base, steps);
    HarmlessRun(Init(base), steps);
    var w := Run(Init(base), steps);
    NoRetirement(w, w.s.log);
  }

  // --------------------------------------------------------------------------
  // A retired generation is invisible to every future
  // --------------------------------------------------------------------------

  /** The sender without the contents of flags it has already replaced. */
  function Live(s: Sender): Sender {
    s.(retiredFlags := seq(|s.retiredFlags|, _ => false))
  }

  /** Equal but for old flags and for requests that hold old flags. */
  ghost predicate Alike(v: World, w: World) {
    && Live(v.s) == Live(w.s)
    && v.s.Current() == w.s.Current()
    && v.ended == w.ended
    && |v.reqs| == |w.reqs|
    && forall i :: 0 <= i < |w.reqs| ==>
         && v.reqs[i].flag == w.reqs[i].flag <= w.s.Current()
         && v.reqs[i].conn == w.reqs[i].conn
         && (w.reqs[i].flag == w.s.Current() ==> v.reqs[i] == w.reqs[i])
  }

  lemma LiveRetire(s: Sender, t: Sender, cause: Cause)
    requires Live(s) == Live(t) && s.Current() == t.Current()
    ensures Live(Retire(s, cause)) == Live(Retire(t, cause))
  {
    assert s.log == Live(s).log == t.log;
    assert s.sendRequest == Live(s).sendRequest == t.sendRequest;
  }

  lemma LivePoll(s: Sender, t: Sender, d: DriverState, p: ConnectPoll)
    requires Live(s) == Live(t) && s.Current() == t.Current()
    ensures var r, q := PollReady(s, d, p), PollReady(t, d, p);
            Live(r.sender) == Live(q.sender) && r.sender.Current() == q.sender.Current()
            && r.readiness == q.readiness && s.Current() <= r.sender.Current()
  {
    LiveRetire(s, t, DriverEnded);
    var s1, t1 := CheckDriver(s, d), CheckDriver(t, d);
    assert Live(s1) == Live(t1);
    LiveRetire(s1, t1, FlagRaised);
  }

  predicate RequestStep(step: Step, i: nat) {
    (step.HeadResult? || step.EagerBody? || step.ResponseResult? || step.Abandon?) && step.req == i
  }

  lemma LiveRaise(s: Sender, f: nat)
    ensures Raise(s, f).Current() == s.Current()
    ensures f < s.Current() ==> Live(Raise(s, f)) == Live(s)
  {
  }

  /** A step of a request that holds an old flag stays within that request and flag. */
  lemma OldRequestStep(w: World, step: Step, i: nat)
    requires RequestStep(step, i) && i < |w.reqs| && w.reqs[i].flag < w.s.Current()
    ensures var v := Apply(w, step);
            && Live(v.s) == Live(w.s) && v.s.Current() == w.s.Current() && v.ended == w.ended
            && |v.reqs| == |w.reqs| && v.reqs[i].conn == w.reqs[i].conn && v.reqs[i].flag == w.reqs[i].flag
            && forall k :: 0 <= k < |w.reqs| && k != i ==> v.reqs[k] == w.reqs[k]
  {
    LiveRaise(w.s, w.reqs[i].flag);
  }

  lemma CurrentRequestStep(v: World, w: World, step: Step, i: nat)
    requires Alike(v, w) && RequestStep(step, i) && i < |w.reqs| && w.reqs[i].flag == w.s.Current()
    ensures Alike(Apply(v, step), Apply(w, step))
  {
    var r := w.reqs[i];
    assert v.reqs[i] == r;
    assert Live(Raise(v.s, r.flag)) == Live(v.s).(closing := true) == Live(Raise(w.s, r.flag));
  }

  lemma AlikeSubmit(v: World, w: World, uriBuilds: bool)
    requires Alike(v, w)
    ensures Alike(Apply(v, Submit(uriBuilds)), Apply(w, Submit(uriBuilds)))
  {
    var r, q := Call(v.s, uriBuilds), Call(w.s, uriBuilds);
    assert v.s.log == Live(v.s).log == w.s.log && v.s.base == Live(v.s).base == w.s.base;
    assert v.s.sendRequest == Live(v.s).sendRequest == w.s.sendRequest;
    assert v.s.connectError == Live(v.s).connectError == w.s.connectError;
    assert r.outcome == q.outcome;
    assert Live(r.sender) == Live(q.sender);
  }

  lemma AlikePoll(v: World, w: World, p: ConnectPoll)
    requires Alike(v, w)
    ensures Alike(Apply(v, Poll(p)), Apply(w, Poll(p)))
  {
    assert v.s.driverRx == Live(v.s).driverRx == w.s.driverRx;
    LivePoll(v.s, w.s, CachedDriver(w), p);
  }

  lemma AlikeStep(v: World, w: World, step: Step)
    requires Alike(v, w)
    ensures Alike(Apply(v, step), Apply(w, step))
  {
    match step
    case Poll(p) => AlikePoll(v, w, p);
    case Submit(uriBuilds) => AlikeSubmit(v, w, uriBuilds);
    case DriverEnds(c, how) => assert v.s.attempts == Live(v.s).attempts == w.s.attempts;
    case _ =>
      var i := step.req;
      if i < |w.reqs| {
        if w.reqs[i].flag == w.s.Current() {
          CurrentRequestStep(v, w, step, i);
        } else {
          OldRequestStep(v, step, i);
          OldRequestStep(w, step, i);
        }
      }
  }

  lemma {:induction false} AlikeRun(v: World, w: World, steps: seq<Step>)
    requires Alike(v, w)
    ensures Alike(Run(v, steps), Run(w, steps))
    decreases |steps|
  {
    if steps != [] {
      AlikeStep(v, w, steps[0]);
      AlikeRun(Apply(v, steps[0]), Apply(w, steps[0]), steps[1..]);
    }
  }

  /** Whatever a request of a retired generation sees, and however late, the current
      sender and everything it will ever do afterwards (its fields, its readiness, its
      whole history of connects, dispatches and retirements) are as if it had not. */
  lemma LateErrorsAreInvisible(base: BaseUri, before: seq<Step>, late: Step, i: nat, after: seq<Step>)
    requires var w := Run(Init(base), before);
             RequestStep(late, i) && i < |w.reqs| && w.reqs[i].flag < w.s.Current()
    ensures var w := Run(Init(base), before);
            Live(Run(Apply(w, late), after).s) == Live(Run(w, after).s)
  {
    ReachableInv(base, before);
    var w := Run(Init(base), before);
    var v := Apply(w, late);
    assert forall k :: 0 <= k < |w.reqs| ==> Placed(w.s, w.reqs[k]);
    OldRequestStep(w, late, i);
    AlikeRun(v, w, after);
  }
}
