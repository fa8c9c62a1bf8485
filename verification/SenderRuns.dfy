/** Every interleaving of `poll_ready`, `call`, in-flight requests, drivers and connect
    outcomes, and what holds over whole runs of the reconnecting sender. */
module SenderRuns {
  import opened Options
  import opened H3Errors
  import opened SenderSpec

  // --------------------------------------------------------------------------
  // The world: the sender, the drivers of its connections, its in-flight requests
  // --------------------------------------------------------------------------

  /** How far a dispatched `send_request_inner` got, and how it ended. */
  datatype Phase =
    | AtHead | AtBody | AtResponse
    | HeadFailed(error: StreamError) | BodyFailed | ResponseFailed(error: StreamError)
    | Responded | Abandoned

  /** A dispatched request holds its connection and the flag captured by `call`. */
  datatype Request = Request(conn: nat, flag: nat, phase: Phase)

  datatype World = World(s: Sender, ended: map<nat, DriverState>, reqs: seq<Request>)

  /** One atomic step of the sender's owner, of a request, or of the environment. */
  datatype Step =
    | Poll(connect: ConnectPoll)
    | Submit(uriBuilds: bool)
    | DriverEnds(conn: nat, how: DriverState)
    | HeadResult(req: nat, failure: Option<StreamError>)
    | EagerBody(req: nat, ok: bool)
    | ResponseResult(req: nat, failure: Option<StreamError>)
    | Abandon(req: nat)

  function Init(base: BaseUri): World {
    World(New(base), map[], [])
  }

  function DriverOf(w: World, c: nat): DriverState {
    if c in w.ended then w.ended[c] else Running
  }

  /** What `try_recv` on the cached receiver would say now. */
  function CachedDriver(w: World): DriverState {
    if w.s.driverRx.Some? then DriverOf(w, w.s.driverRx.value) else Running
  }

  /** Connections numbered below this are over with connecting: the rest do not exist. */
  function Horizon(s: Sender): nat {
    if s.connecting.Some? then s.connecting.value else s.attempts
  }

  /** Two sites store into the flag, each only after the Display classifier agrees. */
  function Fail(w: World, i: nat, e: StreamError, phase: Phase): World
    requires i < |w.reqs|
  {
    var r := w.reqs[i];
    w.(reqs := w.reqs[i := r.(phase := phase)],
       s := if IsConnectionClosing(e) then Raise(w.s, r.flag) else w.s)
  }

  function Advance(w: World, i: nat, phase: Phase): World
    requires i < |w.reqs|
  {
    w.(reqs := w.reqs[i := w.reqs[i].(phase := phase)])
  }

  predicate At(w: World, i: nat, phase: Phase) {
    i < |w.reqs| && w.reqs[i].phase == phase
  }

  /** One step; a step that does not apply in the current state changes nothing. */
  function Apply(w: World, step: Step): World {
    match step
    case Poll(p) => w.(s := PollReady(w.s, CachedDriver(w), p).sender)
    case Submit(uriBuilds) =>
      var r := Call(w.s, uriBuilds);
      World(r.sender, w.ended,
            if r.outcome.Dispatch? then w.reqs + [Request(r.outcome.conn, r.outcome.flag, AtHead)] else w.reqs)
    case DriverEnds(c, how) =>
      if c < Horizon(w.s) && !how.Running? then w.(ended := w.ended[c := how]) else w
    case HeadResult(i, f) =>
      if !At(w, i, AtHead) then w
      else if f.None? then Advance(w, i, AtBody) else Fail(w, i, f.value, HeadFailed(f.value))
    case EagerBody(i, ok) =>
      if !At(w, i, AtBody) then w else Advance(w, i, if ok then AtResponse else BodyFailed)
    case ResponseResult(i, f) =>
      if !At(w, i, AtResponse) then w
      else if f.None? then Advance(w, i, Responded) else Fail(w, i, f.value, ResponseFailed(f.value))
    case Abandon(i) =>
      if At(w, i, AtHead) || At(w, i, AtResponse) then Advance(w, i, Abandoned) else w
  }

  function Run(w: World, steps: seq<Step>): World
    decreases |steps|
  {
    if steps == [] then w else Run(Apply(w, steps[0]), steps[1..])
  }

  // --------------------------------------------------------------------------
  // The ledger: nothing connected, failed or retired is lost or counted twice
  // --------------------------------------------------------------------------

  /** The history sorted by kind of event, each kind in order of occurrence. */
  datatype Books = Books(
    starts: seq<nat>,
    installs: seq<nat>,
    failures: seq<string>,
    surfaced: seq<string>,
    retirees: seq<nat>)

  function Post(b: Books, e: Event): Books {
    match e
    case Started(a) => b.(starts := b.starts + [a])
    case Installed(c) => b.(installs := b.installs + [c])
    case Failed(x) => b.(failures := b.failures + [x])
    case Retired(c, _, _) => b.(retirees := b.retirees + ToSeq(c))
    case Surfaced(x) => b.(surfaced := b.surfaced + [x])
    case Dispatched(_, _) => b
    case BadUri => b
    case NotReady => b
  }

  function Tally(log: seq<Event>): Books {
    if log == [] then Books([], [], [], [], [])
    else Post(Tally(log[..|log| - 1]), log[|log| - 1])
  }

  lemma TallyAppend(log: seq<Event>, e: Event)
    ensures Tally(log + [e]) == Post(Tally(log), e)
  {
    assert (log + [e])[..|log|] == log;
  }

  ghost predicate Increasing(s: seq<nat>) {
    forall i, j :: 0 <= i < j < |s| ==> s[i] < s[j]
  }

  ghost predicate Below(s: seq<nat>, bound: nat) {
    forall i :: 0 <= i < |s| ==> s[i] < bound
  }

  ghost predicate Balanced(s: Sender, b: Books) {
    && |b.starts| == s.attempts
    && (forall i :: 0 <= i < |b.starts| ==> b.starts[i] == i)
    && |b.starts| == |b.installs| + |b.failures| + |ToSeq(s.connecting)|
    && b.installs == b.retirees + ToSeq(s.sendRequest)
    && b.failures == b.surfaced + ToSeq(s.connectError)
    && Increasing(b.installs)
    && Below(b.installs, s.attempts)
    && (s.connecting.Some? ==> s.connecting.value < s.attempts && Below(b.installs, s.connecting.value))
  }

  ghost predicate Ledger(s: Sender) {
    Balanced(s, Tally(s.log))
  }

  lemma RetireKeepsLedger(s: Sender, cause: Cause)
    requires Ledger(s)
    ensures Ledger(Retire(s, cause))
  {
    TallyAppend(s.log, Retired(s.sendRequest, s.Current(), cause));
  }

  lemma BeginKeepsLedger(s: Sender)
    requires Ledger(s)
    ensures Ledger(Begin(s))
  {
    TallyAppend(s.log, Started(s.attempts));
  }

  lemma ResolveKeepsLedger(s: Sender, p: ConnectPoll)
    requires Ledger(s) && Coupled(s) && s.connecting.Some?
    ensures Ledger(Resolve(s, p))
  {
    TallyAppend(s.log, Installed(s.connecting.value));
    if p.Refused? { TallyAppend(s.log, Failed(p.error)); }
  }

  lemma PollReadyKeepsLedger(s: Sender, d: DriverState, p: ConnectPoll)
    requires Ledger(s) && Coupled(s)
    ensures Ledger(PollReady(s, d, p).sender)
  {
    RetireKeepsLedger(s, DriverEnded);
    var t := CheckDriver(s, d);
    RetireKeepsLedger(t, FlagRaised);
    var u := CheckClosing(t);
    if u.connectError.None? && u.sendRequest.None? {
      BeginKeepsLedger(u);
      ResolveKeepsLedger(Begin(u), p);
    }
  }

  lemma SurfaceKeepsLedger(s: Sender)
    requires Ledger(s) && s.connectError.Some?
    ensures Ledger(Record(s.(connectError := None), Surfaced(s.connectError.value)))
  {
    var b := Tally(s.log);
    TallyAppend(s.log, Surfaced(s.connectError.value));
    assert b.surfaced + [s.connectError.value] + [] == b.failures;
  }

  lemma RecordKeepsLedger(s: Sender, e: Event)
    requires Ledger(s) && (e.BadUri? || e.NotReady? || e.Dispatched?)
    ensures Ledger(Record(s, e))
  {
    TallyAppend(s.log, e);
  }

  lemma CallKeepsLedger(s: Sender, uriBuilds: bool)
    requires Ledger(s)
    ensures Ledger(Call(s, uriBuilds).sender)
  {
    if s.connectError.Some? {
      SurfaceKeepsLedger(s);
    } else {
      RecordKeepsLedger(s, BadUri);
      RecordKeepsLedger(s, NotReady);
      if s.sendRequest.Some? { RecordKeepsLedger(s, Dispatched(s.sendRequest.value, s.Current())); }
    }
  }

  // --------------------------------------------------------------------------
  // Generations: a flag number stands for exactly one connection
  // --------------------------------------------------------------------------

  /** Where a dispatched request stands relative to the sender. */
  ghost predicate Placed(s: Sender, r: Request) {
    && r.conn < s.attempts
    && r.flag <= s.Current()
    && (r.flag == s.Current() <==> s.sendRequest == Some(r.conn))
    && (s.connecting.Some? ==> r.conn < s.connecting.value)
    && (s.sendRequest.Some? ==> r.conn <= s.sendRequest.value)
  }

  /** Earlier and later request: neither flag nor connection ever goes back. */
  ghost predicate InOrder(a: Request, b: Request) {
    && a.flag <= b.flag
    && a.conn <= b.conn
    && (a.flag == b.flag <==> a.conn == b.conn)
  }

  ghost predicate Generations(w: World) {
    && (forall i :: 0 <= i < |w.reqs| ==> Placed(w.s, w.reqs[i]))
    && (forall i, j :: 0 <= i < j < |w.reqs| ==> InOrder(w.reqs[i], w.reqs[j]))
    && (w.s.connecting.Some? ==> w.s.connecting.value == w.s.attempts - 1)
    && (w.s.sendRequest.Some? ==> w.s.sendRequest.value < w.s.attempts)
    && (forall c :: c in w.ended ==> c < Horizon(w.s) && !w.ended[c].Running?)
  }

  lemma RetireKeepsGenerations(w: World, cause: Cause)
    requires Generations(w) && Coupled(w.s) && w.s.sendRequest.Some?
    ensures Generations(w.(s := Retire(w.s, cause)))
  {
  }

  lemma ConnectKeepsGenerations(w: World, p: ConnectPoll)
    requires Generations(w) && w.s.sendRequest.None?
    ensures Generations(w.(s := Resolve(Begin(w.s), p)))
  {
    var t := Begin(w.s);
    forall i | 0 <= i < |w.reqs|
      ensures Placed(Resolve(t, p), w.reqs[i])
    {
      assert Placed(w.s, w.reqs[i]);
    }
  }

  lemma PollKeepsGenerations(w: World, p: ConnectPoll)
    requires Generations(w) && Coupled(w.s)
    ensures Generations(Apply(w, Poll(p)))
  {
    var d := CachedDriver(w);
    var w1 := w.(s := CheckDriver(w.s, d));
    if w.s.driverRx.Some? && !d.Running? { RetireKeepsGenerations(w, DriverEnded); }
    var w2 := w1.(s := CheckClosing(w1.s));
    if w1.s.closing { RetireKeepsGenerations(w1, FlagRaised); }
    assert Generations(w2);
    if w2.s.connectError.None? && w2.s.sendRequest.None? { ConnectKeepsGenerations(w2, p); }
  }

  lemma SubmitKeepsGenerations(w: World, uriBuilds: bool)
    requires Generations(w) && Coupled(w.s)
    ensures Generations(Apply(w, Submit(uriBuilds)))
  {
    var v := Apply(w, Submit(uriBuilds));
    forall i | 0 <= i < |w.reqs|
      ensures Placed(v.s, w.reqs[i])
    {
      assert Placed(w.s, w.reqs[i]);
    }
  }

  // --------------------------------------------------------------------------
  // Blame: a flag is up exactly when a request on it saw a connection-level error
  // --------------------------------------------------------------------------

  predicate SawClosing(p: Phase) {
    (p.HeadFailed? || p.ResponseFailed?) && p.error.ConnectionLevel()
  }

  ghost predicate Blamed(w: World, f: nat) {
    exists i :: 0 <= i < |w.reqs| && w.reqs[i].flag == f && SawClosing(w.reqs[i].phase)
  }

  ghost predicate FlagsJustified(w: World) {
    forall f: nat :: w.s.FlagUp(f) <==> f <= w.s.Current() && Blamed(w, f)
  }

  /** Why a Retired event of the history happened. */
  ghost predicate RetireJustified(w: World, e: Event) {
    e.Retired? ==>
      && e.retiree.Some?
      && match e.cause
         case DriverEnded => !DriverOf(w, e.retiree.value).Running?
         case FlagRaised =>
           exists i :: 0 <= i < |w.reqs| && w.reqs[i].conn == e.retiree.value
                       && w.reqs[i].flag == e.flag && SawClosing(w.reqs[i].phase)
  }

  ghost predicate RetiresJustified(w: World) {
    forall k :: 0 <= k < |w.s.log| ==> RetireJustified(w, w.s.log[k])
  }

  /** A change of one request's phase keeps blame for every flag but its own. */
  lemma PhaseChangeMovesBlame(w: World, i: nat, phase: Phase, f: nat)
    requires i < |w.reqs| && !SawClosing(w.reqs[i].phase)
    ensures Blamed(Advance(w, i, phase), f)
       <==> Blamed(w, f) || (f == w.reqs[i].flag && SawClosing(phase))
  {
    var v := Advance(w, i, phase);
    if Blamed(w, f) {
      var k :| 0 <= k < |w.reqs| && w.reqs[k].flag == f && SawClosing(w.reqs[k].phase);
      assert v.reqs[k] == w.reqs[k];
    }
    if f == w.reqs[i].flag && SawClosing(phase) {
      assert v.reqs[i].flag == f;
    }
    if Blamed(v, f) {
      var k :| 0 <= k < |v.reqs| && v.reqs[k].flag == f && SawClosing(v.reqs[k].phase);
      assert k != i ==> w.reqs[k] == v.reqs[k];
    }
  }

  lemma RequestStepKeepsFlags(w: World, i: nat, phase: Phase, raise: bool)
    requires FlagsJustified(w) && Generations(w)
    requires i < |w.reqs| && !SawClosing(w.reqs[i].phase) && raise == SawClosing(phase)
    ensures FlagsJustified(Advance(w, i, phase).(s := if raise then Raise(w.s, w.reqs[i].flag) else w.s))
  {
    var v := Advance(w, i, phase).(s := if raise then Raise(w.s, w.reqs[i].flag) else w.s);
    forall f: nat
      ensures v.s.FlagUp(f) <==> f <= v.s.Current() && Blamed(v, f)
    {
      PhaseChangeMovesBlame(w, i, phase, f);
      assert Blamed(v, f) <==> Blamed(Advance(w, i, phase), f);
      assert w.s.FlagUp(f) <==> f <= w.s.Current() && Blamed(w, f);
    }
  }

  /** A request step keeps every earlier justification: errors, once seen, stay seen. */
  lemma RequestStepKeepsRetires(w: World, v: World, i: nat)
    requires RetiresJustified(w) && i < |w.reqs| && !SawClosing(w.reqs[i].phase)
    requires |v.reqs| == |w.reqs| && v.s.log == w.s.log && v.ended == w.ended
    requires forall k :: 0 <= k < |w.reqs| && k != i ==> v.reqs[k] == w.reqs[k]
    ensures RetiresJustified(v)
  {
    forall k | 0 <= k < |v.s.log|
      ensures RetireJustified(v, v.s.log[k])
    {
      var e := w.s.log[k];
      assert RetireJustified(w, e);
      if e.Retired? && e.cause.FlagRaised? {
        var j :| 0 <= j < |w.reqs| && w.reqs[j].conn == e.retiree.value
                 && w.reqs[j].flag == e.flag && SawClosing(w.reqs[j].phase);
        assert v.reqs[j] == w.reqs[j];
      }
    }
  }

  lemma RetireKeepsBlame(w: World, cause: Cause)
    requires FlagsJustified(w) && RetiresJustified(w) && Generations(w) && Coupled(w.s) && w.s.sendRequest.Some?
    requires cause == DriverEnded ==> !DriverOf(w, w.s.sendRequest.value).Running?
    requires cause == FlagRaised ==> w.s.closing
    ensures var v := w.(s := Retire(w.s, cause)); FlagsJustified(v) && RetiresJustified(v)
  {
    var v := w.(s := Retire(w.s, cause));
    forall f: nat
      ensures v.s.FlagUp(f) <==> f <= v.s.Current() && Blamed(v, f)
    {
      assert Blamed(v, f) <==> Blamed(w, f);
      assert w.s.FlagUp(f) <==> f <= w.s.Current() && Blamed(w, f);
    }
    if cause == FlagRaised {
      assert w.s.FlagUp(w.s.Current());
    }
    forall k | 0 <= k < |v.s.log|
      ensures RetireJustified(v, v.s.log[k])
    {
      if k < |w.s.log| { assert RetireJustified(w, w.s.log[k]); }
    }
  }

  /** Only the sender changed, and only by events that are not retirements. */
  lemma NonRetireKeepsBlame(w: World, v: World)
    requires FlagsJustified(w) && RetiresJustified(w)
    requires w.reqs <= v.reqs && v.ended == w.ended
    requires forall i :: |w.reqs| <= i < |v.reqs| ==> !SawClosing(v.reqs[i].phase)
    requires v.s.closing == w.s.closing && v.s.retiredFlags == w.s.retiredFlags && w.s.log <= v.s.log
    requires forall k :: |w.s.log| <= k < |v.s.log| ==> !v.s.log[k].Retired?
    ensures FlagsJustified(v) && RetiresJustified(v)
  {
    forall f: nat
      ensures v.s.FlagUp(f) <==> f <= v.s.Current() && Blamed(v, f)
    {
      assert w.s.FlagUp(f) <==> f <= w.s.Current() && Blamed(w, f);
      if Blamed(w, f) {
        var k :| 0 <= k < |w.reqs| && w.reqs[k].flag == f && SawClosing(w.reqs[k].phase);
        assert v.reqs[k] == w.reqs[k];
      }
    }
    forall k | 0 <= k < |v.s.log|
      ensures RetireJustified(v, v.s.log[k])
    {
      if k < |w.s.log| {
        var e := w.s.log[k];
        assert v.s.log[k] == e && RetireJustified(w, e);
        if e.Retired? && e.cause.FlagRaised? {
          var j :| 0 <= j < |w.reqs| && w.reqs[j].conn == e.retiree.value
                   && w.reqs[j].flag == e.flag && SawClosing(w.reqs[j].phase);
          assert v.reqs[j] == w.reqs[j];
        }
      }
    }
  }

  lemma PollKeepsBlame(w: World, p: ConnectPoll)
    requires FlagsJustified(w) && RetiresJustified(w) && Generations(w) && Coupled(w.s)
    ensures var v := Apply(w, Poll(p)); FlagsJustified(v) && RetiresJustified(v)
  {
    var d := CachedDriver(w);
    var w1 := w.(s := CheckDriver(w.s, d));
    if w.s.driverRx.Some? && !d.Running? {
      RetireKeepsGenerations(w, DriverEnded);
      RetireKeepsBlame(w, DriverEnded);
    }
    var w2 := w1.(s := CheckClosing(w1.s));
    if w1.s.closing { RetireKeepsBlame(w1, FlagRaised); }
    NonRetireKeepsBlame(w2, Apply(w, Poll(p)));
  }

  lemma SubmitKeepsBlame(w: World, uriBuilds: bool)
    requires FlagsJustified(w) && RetiresJustified(w)
    ensures var v := Apply(w, Submit(uriBuilds)); FlagsJustified(v) && RetiresJustified(v)
  {
    var r := Call(w.s, uriBuilds);
    var v := Apply(w, Submit(uriBuilds));
    assert |v.s.log| == |w.s.log| + 1 && !v.s.log[|w.s.log|].Retired?;
    if r.outcome.Dispatch? {
      assert v.reqs == w.reqs + [Request(r.outcome.conn, r.outcome.flag, AtHead)];
    } else {
      assert v.reqs == w.reqs;
    }
    NonRetireKeepsBlame(w, v);
  }

  // --------------------------------------------------------------------------
  // The invariant of every reachable world
  // --------------------------------------------------------------------------

  ghost predicate Inv(w: World) {
    && Coupled(w.s)
    && Ledger(w.s)
    && Generations(w)
    && FlagsJustified(w)
    && RetiresJustified(w)
  }

  lemma FailKeepsInv(w: World, i: nat, e: StreamError, phase: Phase)
    requires Inv(w) && i < |w.reqs| && !SawClosing(w.reqs[i].phase)
    requires phase == HeadFailed(e) || phase == ResponseFailed(e)
    ensures Inv(Fail(w, i, e, phase))
  {
    ClassifierIsExact(e);
    var v := Fail(w, i, e, phase);
    RequestStepKeepsFlags(w, i, phase, IsConnectionClosing(e));
    assert v == Advance(w, i, phase).(s := if IsConnectionClosing(e) then Raise(w.s, w.reqs[i].flag) else w.s);
    RequestStepKeepsRetires(w, v, i);
  }

  lemma AdvanceKeepsInv(w: World, i: nat, phase: Phase)
    requires Inv(w) && i < |w.reqs| && !SawClosing(w.reqs[i].phase) && !SawClosing(phase)
    ensures Inv(Advance(w, i, phase))
  {
    RequestStepKeepsFlags(w, i, phase, false);
    RequestStepKeepsRetires(w, Advance(w, i, phase), i);
  }

  lemma CallKeepsCoupling(s: Sender, uriBuilds: bool)
    requires Coupled(s)
    ensures Coupled(Call(s, uriBuilds).sender)
  {
  }

  lemma SubmitKeepsInv(w: World, uriBuilds: bool)
    requires Inv(w)
    ensures Inv(Apply(w, Submit(uriBuilds)))
  {
    CallKeepsCoupling(w.s, uriBuilds);
    CallKeepsLedger(w.s, uriBuilds);
    SubmitKeepsGenerations(w, uriBuilds);
    SubmitKeepsBlame(w, uriBuilds);
  }

  lemma PollKeepsInv(w: World, p: ConnectPoll)
    requires Inv(w)
    ensures Inv(Apply(w, Poll(p)))
  {
    PollReadyKeepsCoupling(w.s, CachedDriver(w), p);
    PollReadyKeepsLedger(w.s, CachedDriver(w), p);
    PollKeepsGenerations(w, p);
    PollKeepsBlame(w, p);
  }

  lemma HeadKeepsInv(w: World, i: nat, f: Option<StreamError>)
    requires Inv(w)
    ensures Inv(Apply(w, HeadResult(i, f)))
  {
    if At(w, i, AtHead) {
      if f.None? { AdvanceKeepsInv(w, i, AtBody); } else { FailKeepsInv(w, i, f.value, HeadFailed(f.value)); }
    }
  }

  lemma ResponseKeepsInv(w: World, i: nat, f: Option<StreamError>)
    requires Inv(w)
    ensures Inv(Apply(w, ResponseResult(i, f)))
  {
    if At(w, i, AtResponse) {
      if f.None? { AdvanceKeepsInv(w, i, Responded); } else { FailKeepsInv(w, i, f.value, ResponseFailed(f.value)); }
    }
  }

  lemma ApplyKeepsInv(w: World, step: Step)
    requires Inv(w)
    ensures Inv(Apply(w, step))
  {
    match step
    case Poll(p) => PollKeepsInv(w, p);
    case Submit(uriBuilds) => SubmitKeepsInv(w, uriBuilds);
    case DriverEnds(c, how) => DriverEndKeepsInv(w, c, how);
    case HeadResult(i, f) => HeadKeepsInv(w, i, f);
    case ResponseResult(i, f) => ResponseKeepsInv(w, i, f);
    case EagerBody(i, ok) =>
      if At(w, i, AtBody) { AdvanceKeepsInv(w, i, if ok then AtResponse else BodyFailed); }
    case Abandon(i) =>
      if At(w, i, AtHead) || At(w, i, AtResponse) { AdvanceKeepsInv(w, i, Abandoned); }
  }

  lemma DriverEndKeepsInv(w: World, c: nat, how: DriverState)
    requires Inv(w)
    ensures Inv(Apply(w, DriverEnds(c, how)))
  {
    var v := Apply(w, DriverEnds(c, how));
    forall f: nat
      ensures v.s.FlagUp(f) <==> f <= v.s.Current() && Blamed(v, f)
    {
      assert w.s.FlagUp(f) <==> f <= w.s.Current() && Blamed(w, f);
      assert Blamed(v, f) <==> Blamed(w, f);
    }
    forall k | 0 <= k < |v.s.log|
      ensures RetireJustified(v, v.s.log[k])
    {
      assert RetireJustified(w, w.s.log[k]);
    }
  }

  lemma {:induction false} RunKeepsInv(w: World, steps: seq<Step>)
    requires Inv(w)
    ensures Inv(Run(w, steps))
    decreases |steps|
  {
    if steps != [] {
      ApplyKeepsInv(w, steps[0]);
      RunKeepsInv(Apply(w, steps[0]), steps[1..]);
    }
  }
}
