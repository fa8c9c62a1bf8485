/** Bounded recovery: how often the sequential `H3Client::send` can fail once connects
    succeed and new connections are healthy. */
module Recovery {
  import opened Options
  import opened H3Errors
  import opened SenderSpec
  import opened SenderRuns
  import opened SenderTheorems

  /** What happens to the request on the wire. */
  datatype Fault = Healthy | HeadRejected(error: StreamError) | ResponseLost(error: StreamError)

  /** One `send`: steps of other requests and of drivers before each readiness poll that
      finds the connect future pending (`waits`), before the poll that finds it done
      (`last`), between readiness and `call` (`between`), and while the request waits for
      its head (`heading`) and for its response (`during`). */
  datatype Script = Script(
    waits: seq<seq<Step>>, last: seq<Step>, between: seq<Step>,
    heading: seq<Step>, during: seq<Step>, fault: Fault)

  /** `poll_fn(|cx| channel.poll_ready(cx)).await` */
  function AwaitReady(w: World, waits: seq<seq<Step>>, last: seq<Step>): World
    decreases |waits|
  {
    if waits == [] then Apply(Run(w, last), Poll(Connected))
    else
      var v := Run(w, waits[0]);
      var u := Apply(v, Poll(NotYet));
      if PollReady(v.s, CachedDriver(v), NotYet).readiness.ReadyOk? then u
      else AwaitReady(u, waits[1..], last)
  }

  /** The head of request n is refused, or it is accepted and the body is sent. */
  function Head(w: World, n: nat, fault: Fault): World {
    if fault.HeadRejected? then Apply(w, HeadResult(n, Some(fault.error)))
    else Apply(Apply(w, HeadResult(n, None)), EagerBody(n, true))
  }

  function Response(w: World, n: nat, fault: Fault): World {
    match fault
    case Healthy => Apply(w, ResponseResult(n, None))
    case HeadRejected(_) => w
    case ResponseLost(e) => Apply(w, ResponseResult(n, Some(e)))
  }

  /** The request dispatched last runs to its end. */
  function Serve(w: World, sc: Script): World
    requires |w.reqs| > 0
  {
    var n := |w.reqs| - 1;
    Response(Run(Head(Run(w, sc.heading), n, sc.fault), sc.during), n, sc.fault)
  }

  /** The state after one `send`, and the connection that answered, if one did. */
  datatype Sent = Sent(world: World, answeredBy: Option<nat>)

  function Send(w: World, sc: Script): Sent {
    var b := Run(AwaitReady(w, sc.waits, sc.last), sc.between);
    var r := Call(b.s, true);
    var v := Apply(b, Submit(true));
    if r.outcome.Rejected? then Sent(v, None)
    else Sent(Serve(v, sc), if sc.fault.Healthy? then Some(r.outcome.conn) else None)
  }

  function SendAll(w: World, scripts: seq<Script>): (outcomes: seq<Option<nat>>)
    ensures |outcomes| == |scripts|
    decreases |scripts|
  {
    if scripts == [] then []
    else var r := Send(w, scripts[0]); [r.answeredBy] + SendAll(r.world, scripts[1..])
  }

  // --------------------------------------------------------------------------
  // The promise: connections numbered h and up are healthy, older ones may do anything
  // --------------------------------------------------------------------------

  ghost predicate Tolerable(w: World, h: nat, step: Step) {
    match step
    case Poll(_) => false
    case Submit(_) => false
    case DriverEnds(c, _) => c < h
    case HeadResult(i, f) => i < |w.reqs| && f.Some? && f.value.ConnectionLevel() ==> w.reqs[i].conn < h
    case ResponseResult(i, f) => i < |w.reqs| && f.Some? && f.value.ConnectionLevel() ==> w.reqs[i].conn < h
    case _ => true
  }

  ghost predicate Noise(w: World, h: nat, steps: seq<Step>) {
    forall k :: 0 <= k < |steps| ==> Tolerable(w, h, steps[k])
  }

  /** Only noise up to the poll at which `AwaitReady` stops. */
  ghost predicate QuietWait(w: World, h: nat, waits: seq<seq<Step>>, last: seq<Step>)
    decreases |waits|
  {
    if waits == [] then Noise(w, h, last)
    else
      var v := Run(w, waits[0]);
      && Noise(w, h, waits[0])
      && (PollReady(v.s, CachedDriver(v), NotYet).readiness.Pending? ==>
            QuietWait(Apply(v, Poll(NotYet)), h, waits[1..], last))
  }

  ghost predicate FaultAllowed(conn: nat, h: nat, fault: Fault) {
    match fault
    case Healthy => true
    case HeadRejected(e) => conn < h && e.ConnectionLevel()
    case ResponseLost(e) => conn < h && e.ConnectionLevel()
  }

  /** Steps of others while request n is in flight. */
  ghost predicate OthersNoise(w: World, h: nat, n: nat, steps: seq<Step>) {
    forall k :: 0 <= k < |steps| ==> Tolerable(w, h, steps[k]) && !Touches(steps[k], n)
  }

  predicate Touches(step: Step, n: nat) {
    match step
    case HeadResult(i, _) => i == n
    case EagerBody(i, _) => i == n
    case ResponseResult(i, _) => i == n
    case Abandon(i) => i == n
    case _ => false
  }

  ghost predicate Promised(w: World, h: nat, sc: Script) {
    var r := AwaitReady(w, sc.waits, sc.last);
    var b := Run(r, sc.between);
    var v := Apply(b, Submit(true));
    var outcome := Call(b.s, true).outcome;
    && QuietWait(w, h, sc.waits, sc.last)
    && Noise(r, h, sc.between)
    && (outcome.Dispatch? ==>
          && FaultAllowed(outcome.conn, h, sc.fault)
          && OthersNoise(v, h, |b.reqs|, sc.heading)
          && OthersNoise(v, h, |b.reqs|, sc.during))
  }

  ghost predicate AllPromised(w: World, h: nat, scripts: seq<Script>)
    decreases |scripts|
  {
    scripts != [] ==> Promised(w, h, scripts[0]) && AllPromised(Send(w, scripts[0]).world, h, scripts[1..])
  }

  // --------------------------------------------------------------------------
  // Proof
  // --------------------------------------------------------------------------

  ghost predicate Clean(w: World, h: nat) {
    && h <= Horizon(w.s)
    && w.s.base == BaseUri(true, true)
    && (forall c :: c in w.ended ==> c < h && !w.ended[c].Running?)
    && (forall i :: 0 <= i < |w.reqs| && SawClosing(w.reqs[i].phase) ==> w.reqs[i].conn < h)
  }

  ghost predicate Sane(w: World, h: nat) {
    Inv(w) && Clean(w, h)
  }

  /** A failure can still be ahead: a deferred connect error, or an old connection that
      nobody has found out about. */
  ghost predicate AtRisk(w: World, h: nat) {
    || w.s.connectError.Some?
    || (w.s.sendRequest.Some? && w.s.sendRequest.value < h && !w.s.closing && CachedDriver(w).Running?)
  }

  /** A new cached connection is never suspected. */
  lemma NewConnectionStands(w: World, h: nat)
    requires Sane(w, h) && w.s.sendRequest.Some? && h <= w.s.sendRequest.value
    ensures !w.s.closing && CachedDriver(w).Running?
  {
    assert w.s.FlagUp(w.s.Current()) <==> Blamed(w, w.s.Current());
    forall i | 0 <= i < |w.reqs| && w.reqs[i].flag == w.s.Current()
      ensures !SawClosing(w.reqs[i].phase)
    {
      assert Placed(w.s, w.reqs[i]);
    }
  }

  lemma NoiseStep(w: World, h: nat, step: Step)
    requires Clean(w, h) && Tolerable(w, h, step)
    ensures var v := Apply(w, step);
            && Clean(v, h) && (AtRisk(v, h) ==> AtRisk(w, h))
            && v.s.sendRequest == w.s.sendRequest && v.s.connectError == w.s.connectError
            && |v.reqs| == |w.reqs| && forall i :: 0 <= i < |w.reqs| ==> v.reqs[i].conn == w.reqs[i].conn
  {
  }

  lemma UntouchedStep(w: World, step: Step, n: nat)
    requires !step.Poll? && !step.Submit? && !Touches(step, n) && n < |w.reqs|
    ensures var v := Apply(w, step); n < |v.reqs| && v.reqs[n] == w.reqs[n] && v.s.Current() == w.s.Current()
  {
  }

  lemma NoiseAfter(w: World, h: nat, step: Step, rest: Step)
    requires Clean(w, h) && Tolerable(w, h, step) && Tolerable(w, h, rest)
    ensures Tolerable(Apply(w, step), h, rest)
  {
    NoiseStep(w, h, step);
  }

  lemma {:induction false} NoiseRun(w: World, h: nat, steps: seq<Step>)
    requires Sane(w, h) && Noise(w, h, steps)
    ensures var v := Run(w, steps);
            && Sane(v, h) && (AtRisk(v, h) ==> AtRisk(w, h))
            && v.s.sendRequest == w.s.sendRequest && v.s.connectError == w.s.connectError
            && |v.reqs| == |w.reqs| && forall i :: 0 <= i < |w.reqs| ==> v.reqs[i].conn == w.reqs[i].conn
    decreases |steps|
  {
    if steps != [] {
      NoiseStep(w, h, steps[0]);
      ApplyKeepsInv(w, steps[0]);
      forall k | 0 <= k < |steps[1..]|
        ensures Tolerable(Apply(w, steps[0]), h, steps[1..][k])
      {
        NoiseAfter(w, h, steps[0], steps[k + 1]);
      }
      NoiseRun(Apply(w, steps[0]), h, steps[1..]);
    }
  }

  lemma {:induction false} UntouchedRun(w: World, n: nat, steps: seq<Step>)
    requires n < |w.reqs|
    requires forall k :: 0 <= k < |steps| ==> !steps[k].Poll? && !steps[k].Submit? && !Touches(steps[k], n)
    ensures var v := Run(w, steps); n < |v.reqs| && v.reqs[n] == w.reqs[n] && v.s.Current() == w.s.Current()
    decreases |steps|
  {
    if steps != [] {
      UntouchedStep(w, steps[0], n);
      UntouchedRun(Apply(w, steps[0]), n, steps[1..]);
    }
  }

  /** Others act while request n, which holds the current flag, is in flight. */
  lemma OthersRun(w: World, h: nat, n: nat, steps: seq<Step>)
    requires Sane(w, h) && OthersNoise(w, h, n, steps) && n == |w.reqs| - 1
    ensures var v := Run(w, steps);
            && Sane(v, h) && (AtRisk(v, h) ==> AtRisk(w, h))
            && v.s.connectError == w.s.connectError && v.s.sendRequest == w.s.sendRequest
            && |v.reqs| == |w.reqs| && v.reqs[n] == w.reqs[n] && v.s.Current() == w.s.Current()
            && forall i :: 0 <= i < |w.reqs| ==> v.reqs[i].conn == w.reqs[i].conn
  {
    NoiseRun(w, h, steps);
    UntouchedRun(w, n, steps);
  }

  lemma PollStep(w: World, h: nat, p: ConnectPoll)
    requires Sane(w, h) && !p.Refused?
    ensures var v := Apply(w, Poll(p));
            var ready := PollReady(w.s, CachedDriver(w), p).readiness.ReadyOk?;
            && Sane(v, h) && (AtRisk(v, h) ==> AtRisk(w, h))
            && (p.Connected? ==> ready)
            && (ready ==> v.s.sendRequest.Some? || v.s.connectError.Some?)
            && (ready && !AtRisk(w, h) ==> v.s.sendRequest.Some? && h <= v.s.sendRequest.value)
  {
    ApplyKeepsInv(w, Poll(p));
    if w.s.sendRequest.Some? && h <= w.s.sendRequest.value { NewConnectionStands(w, h); }
  }

  lemma {:induction false} WaitRun(w: World, h: nat, waits: seq<seq<Step>>, last: seq<Step>)
    requires Sane(w, h) && QuietWait(w, h, waits, last)
    ensures var v := AwaitReady(w, waits, last);
            && Sane(v, h) && (AtRisk(v, h) ==> AtRisk(w, h))
            && (v.s.sendRequest.Some? || v.s.connectError.Some?)
            && (!AtRisk(w, h) ==> v.s.sendRequest.Some? && h <= v.s.sendRequest.value)
    decreases |waits|
  {
    if waits == [] {
      NoiseRun(w, h, last);
      PollStep(Run(w, last), h, Connected);
    } else {
      NoiseRun(w, h, waits[0]);
      var v := Run(w, waits[0]);
      PollStep(v, h, NotYet);
      if !PollReady(v.s, CachedDriver(v), NotYet).readiness.ReadyOk? {
        WaitRun(Apply(v, Poll(NotYet)), h, waits[1..], last);
      }
    }
  }

  /** A step of the request dispatched last, which holds the current flag. */
  lemma LastRequestStep(w: World, h: nat, step: Step)
    requires Sane(w, h) && Tolerable(w, h, step) && |w.reqs| > 0
    requires step.HeadResult? || step.EagerBody? || step.ResponseResult?
    requires step.req == |w.reqs| - 1 && w.reqs[step.req].flag == w.s.Current()
    ensures var v := Apply(w, step);
            && Sane(v, h) && (AtRisk(v, h) ==> AtRisk(w, h))
            && |v.reqs| == |w.reqs| && v.reqs[step.req].flag == v.s.Current()
            && (forall i :: 0 <= i < |w.reqs| ==> v.reqs[i].conn == w.reqs[i].conn)
            && v.s.connectError == w.s.connectError
  {
    NoiseStep(w, h, step);
    ApplyKeepsInv(w, step);
  }

  lemma FailRaises(w: World, n: nat, e: StreamError, phase: Phase)
    requires n < |w.reqs| && e.ConnectionLevel() && w.reqs[n].flag == w.s.Current()
    ensures Fail(w, n, e, phase).s.closing
  {
    ClassifierIsExact(e);
  }

  lemma ClosingErrorRaises(w: World, step: Step, e: StreamError)
    requires |w.reqs| > 0 && e.ConnectionLevel() && w.reqs[|w.reqs| - 1].flag == w.s.Current()
    requires || (step == HeadResult(|w.reqs| - 1, Some(e)) && At(w, |w.reqs| - 1, AtHead))
             || (step == ResponseResult(|w.reqs| - 1, Some(e)) && At(w, |w.reqs| - 1, AtResponse))
    ensures Apply(w, step).s.closing
  {
    FailRaises(w, |w.reqs| - 1, e, if step.HeadResult? then HeadFailed(e) else ResponseFailed(e));
  }

  /** Connections of requests are as in an earlier world, so the same noise is allowed. */
  lemma NoiseCarries(w: World, v: World, h: nat, n: nat, steps: seq<Step>)
    requires OthersNoise(w, h, n, steps) && |v.reqs| == |w.reqs|
    requires forall i :: 0 <= i < |w.reqs| ==> v.reqs[i].conn == w.reqs[i].conn
    ensures OthersNoise(v, h, n, steps)
  {
    forall k | 0 <= k < |steps| ensures Tolerable(v, h, steps[k]) {
      assert Tolerable(w, h, steps[k]);
    }
  }

  /** What a step of the last request n leaves as it was. */
  ghost predicate StillLast(w: World, v: World, n: nat) {
    && v.s.connectError == w.s.connectError
    && |v.reqs| == |w.reqs| && n == |w.reqs| - 1 && v.reqs[n].flag == v.s.Current()
    && forall i :: 0 <= i < |w.reqs| ==> v.reqs[i].conn == w.reqs[i].conn
  }

  lemma AcceptedHead(w: World, h: nat, n: nat)
    requires Sane(w, h) && n == |w.reqs| - 1 && At(w, n, AtHead) && w.reqs[n].flag == w.s.Current()
    ensures var v := Apply(Apply(w, HeadResult(n, None)), EagerBody(n, true));
            Sane(v, h) && (AtRisk(v, h) ==> AtRisk(w, h)) && StillLast(w, v, n) && At(v, n, AtResponse)
  {
    LastRequestStep(w, h, HeadResult(n, None));
    LastRequestStep(Apply(w, HeadResult(n, None)), h, EagerBody(n, true));
  }

  /** The head is refused, or accepted and followed by the body. */
  lemma HeadStep(w: World, h: nat, n: nat, fault: Fault)
    requires Sane(w, h) && n == |w.reqs| - 1 && w.s.connectError.None?
    requires At(w, n, AtHead) && w.reqs[n].flag == w.s.Current()
    requires FaultAllowed(w.reqs[n].conn, h, fault)
    ensures var v := Head(w, n, fault);
            && Sane(v, h) && (AtRisk(v, h) ==> AtRisk(w, h)) && StillLast(w, v, n)
            && (if fault.HeadRejected? then !AtRisk(v, h) else At(v, n, AtResponse))
  {
    if fault.HeadRejected? {
      LastRequestStep(w, h, HeadResult(n, Some(fault.error)));
      ClosingErrorRaises(w, HeadResult(n, Some(fault.error)), fault.error);
    } else {
      AcceptedHead(w, h, n);
    }
  }

  lemma ResponseStep(w: World, h: nat, n: nat, fault: Fault)
    requires Sane(w, h) && n == |w.reqs| - 1 && w.s.connectError.None? && w.reqs[n].flag == w.s.Current()
    requires FaultAllowed(w.reqs[n].conn, h, fault)
    requires if fault.HeadRejected? then !AtRisk(w, h) else w.reqs[n].phase == AtResponse
    ensures var v := Response(w, n, fault);
            Sane(v, h) && (AtRisk(v, h) ==> AtRisk(w, h)) && (!fault.Healthy? ==> !AtRisk(v, h))
  {
    if !fault.HeadRejected? {
      var last := ResponseResult(n, if fault.Healthy? then None else Some(fault.error));
      LastRequestStep(w, h, last);
      if fault.ResponseLost? { ClosingErrorRaises(w, last, fault.error); }
    }
  }

  /** The dispatched request ends, and a connection-level error raises the current flag. */
  lemma ServeStep(w: World, h: nat, sc: Script)
    requires Sane(w, h) && |w.reqs| > 0 && w.s.connectError.None?
    requires var r := w.reqs[|w.reqs| - 1];
             r.phase == AtHead && r.flag == w.s.Current() && FaultAllowed(r.conn, h, sc.fault)
    requires OthersNoise(w, h, |w.reqs| - 1, sc.heading) && OthersNoise(w, h, |w.reqs| - 1, sc.during)
    ensures var v := Serve(w, sc);
            Sane(v, h) && (AtRisk(v, h) ==> AtRisk(w, h)) && (!sc.fault.Healthy? ==> !AtRisk(v, h))
  {
    var n := |w.reqs| - 1;
    OthersRun(w, h, n, sc.heading);
    var w1 := Run(w, sc.heading);
    HeadStep(w1, h, n, sc.fault);
    var w2 := Head(w1, n, sc.fault);
    NoiseCarries(w, w2, h, n, sc.during);
    OthersRun(w2, h, n, sc.during);
    ResponseStep(Run(w2, sc.during), h, n, sc.fault);
  }

  lemma SubmitStep(w: World, h: nat)
    requires Clean(w, h) && (w.s.sendRequest.Some? || w.s.connectError.Some?)
    requires w.s.sendRequest.Some? ==> w.s.connectError.None?
    ensures var v := Apply(w, Submit(true));
            var outcome := Call(w.s, true).outcome;
            && Clean(v, h) && v.s.connectError.None? && (AtRisk(v, h) ==> AtRisk(w, h))
            && (outcome.Rejected? <==> w.s.connectError.Some?)
            && (outcome.Rejected? ==> v.s.sendRequest.None?)
            && (outcome.Dispatch? ==>
                  && w.s.sendRequest == Some(outcome.conn)
                  && v.reqs == w.reqs + [Request(outcome.conn, v.s.Current(), AtHead)])
  {
  }

  lemma SendStep(w: World, h: nat, sc: Script)
    requires Sane(w, h) && Promised(w, h, sc)
    ensures var r := Send(w, sc);
            && Sane(r.world, h)
            && (r.answeredBy.None? ==> !AtRisk(r.world, h))
            && (!AtRisk(w, h) ==> !AtRisk(r.world, h) && r.answeredBy.Some? && h <= r.answeredBy.value)
  {
    WaitRun(w, h, sc.waits, sc.last);
    var a := AwaitReady(w, sc.waits, sc.last);
    NoiseRun(a, h, sc.between);
    var b := Run(a, sc.between);
    ApplyKeepsInv(b, Submit(true));
    SubmitStep(b, h);
    if Call(b.s, true).outcome.Dispatch? { ServeStep(Apply(b, Submit(true)), h, sc); }
  }

  /** What the fault leaves of request n. */
  lemma HeadDecides(w: World, n: nat, fault: Fault)
    requires At(w, n, AtHead)
    ensures var v := Head(w, n, fault);
            && n < |v.reqs| == |w.reqs| && v.reqs[n].conn == w.reqs[n].conn
            && v.reqs[n].phase == if fault.HeadRejected? then HeadFailed(fault.error) else AtResponse
  {
  }

  lemma ResponseDecides(w: World, n: nat, fault: Fault)
    requires n < |w.reqs|
    requires w.reqs[n].phase == if fault.HeadRejected? then HeadFailed(fault.error) else AtResponse
    ensures var v := Response(w, n, fault);
            && n < |v.reqs| == |w.reqs| && v.reqs[n].conn == w.reqs[n].conn
            && (v.reqs[n].phase.Responded? <==> fault.Healthy?)
  {
  }

  lemma ServeDecides(w: World, h: nat, sc: Script)
    requires Sane(w, h) && |w.reqs| > 0 && w.s.connectError.None?
    requires var r := w.reqs[|w.reqs| - 1];
             r.phase == AtHead && r.flag == w.s.Current() && FaultAllowed(r.conn, h, sc.fault)
    requires OthersNoise(w, h, |w.reqs| - 1, sc.heading) && OthersNoise(w, h, |w.reqs| - 1, sc.during)
    ensures var v := Serve(w, sc);
            && |v.reqs| == |w.reqs| && v.reqs[|w.reqs| - 1].conn == w.reqs[|w.reqs| - 1].conn
            && (v.reqs[|w.reqs| - 1].phase.Responded? <==> sc.fault.Healthy?)
  {
    var n := |w.reqs| - 1;
    OthersRun(w, h, n, sc.heading);
    var w1 := Run(w, sc.heading);
    HeadDecides(w1, n, sc.fault);
    HeadStep(w1, h, n, sc.fault);
    var w2 := Head(w1, n, sc.fault);
    NoiseCarries(w, w2, h, n, sc.during);
    OthersRun(w2, h, n, sc.during);
    ResponseDecides(Run(w2, sc.during), n, sc.fault);
  }

  lemma {:induction false} WaitMakesNoRequest(w: World, h: nat, waits: seq<seq<Step>>, last: seq<Step>)
    requires Sane(w, h) && QuietWait(w, h, waits, last)
    ensures |AwaitReady(w, waits, last).reqs| == |w.reqs|
    decreases |waits|
  {
    if waits == [] {
      NoiseRun(w, h, last);
    } else {
      var v := Run(w, waits[0]);
      NoiseRun(w, h, waits[0]);
      PollStep(v, h, NotYet);
      if PollReady(v.s, CachedDriver(v), NotYet).readiness.Pending? {
        WaitMakesNoRequest(Apply(v, Poll(NotYet)), h, waits[1..], last);
      }
    }
  }

  /** A send reports an answer from a connection exactly if it dispatched a request of its
      own on that connection, and that request got its response. */
  lemma AnsweredMeansResponded(w: World, h: nat, sc: Script, c: nat)
    requires Sane(w, h) && Promised(w, h, sc)
    ensures var r := Send(w, sc);
            r.answeredBy == Some(c) <==>
              |r.world.reqs| == |w.reqs| + 1
              && r.world.reqs[|w.reqs|].conn == c && r.world.reqs[|w.reqs|].phase.Responded?
  {
    WaitRun(w, h, sc.waits, sc.last);
    WaitMakesNoRequest(w, h, sc.waits, sc.last);
    var a := AwaitReady(w, sc.waits, sc.last);
    NoiseRun(a, h, sc.between);
    var b := Run(a, sc.between);
    ApplyKeepsInv(b, Submit(true));
    SubmitStep(b, h);
    if Call(b.s, true).outcome.Dispatch? { ServeDecides(Apply(b, Submit(true)), h, sc); }
  }

  /** What one send can do to the risk of a later failure. */
  ghost predicate Leads(before: bool, outcome: Option<nat>, after: bool, h: nat) {
    && (outcome.None? ==> !after)
    && (!before ==> !after && outcome.Some? && h <= outcome.value)
  }

  lemma {:induction false} RiskTrail(w: World, h: nat, scripts: seq<Script>) returns (risks: seq<bool>)
    requires Sane(w, h) && AllPromised(w, h, scripts)
    ensures |risks| == |scripts| + 1
    ensures forall k :: 0 <= k < |scripts| ==> Leads(risks[k], SendAll(w, scripts)[k], risks[k + 1], h)
    ensures risks[0] == AtRisk(w, h)
    decreases |scripts|
  {
    if scripts == [] {
      risks := [AtRisk(w, h)];
    } else {
      SendStep(w, h, scripts[0]);
      var r := Send(w, scripts[0]);
      var rest := RiskTrail(r.world, h, scripts[1..]);
      risks := [AtRisk(w, h)] + rest;
    }
  }

  lemma {:induction false} RiskStaysDown(risks: seq<bool>, os: seq<Option<nat>>, h: nat, i: nat, j: nat)
    requires |risks| == |os| + 1 && i < j < |os|
    requires forall k :: 0 <= k < |os| ==> Leads(risks[k], os[k], risks[k + 1], h)
    requires os[i].None?
    ensures !risks[j] && os[j].Some? && h <= os[j].value
    decreases j
  {
    assert Leads(risks[j - 1], os[j - 1], risks[j], h);
    if i < j - 1 { RiskStaysDown(risks, os, h, i, j - 1); }
    assert Leads(risks[j], os[j], risks[j + 1], h);
  }

  lemma {:induction false} RunKeepsBase(w: World, steps: seq<Step>)
    ensures Run(w, steps).s.base == w.s.base
    decreases |steps|
  {
    if steps != [] { RunKeepsBase(Apply(w, steps[0]), steps[1..]); }
  }

  lemma ReachableIsSane(base: BaseUri, steps: seq<Step>)
    requires base == BaseUri(true, true)
    ensures var w := Run(Init(base), steps); Sane(w, Horizon(w.s))
  {
    ReachableInv(base, steps);
    RunKeepsBase(Init(base), steps);
    var w := Run(Init(base), steps);
    assert forall i :: 0 <= i < |w.reqs| ==> Placed(w.s, w.reqs[i]);
  }

  /** From any reachable state: if connects from now on succeed, connections made from now
      on stay healthy, and older ones either answer or fail with a connection-level error,
      then once one of the following sends has failed, every later one is answered by a
      connection made after the starting point. So at most one of them fails. */
  lemma BoundedRecovery(base: BaseUri, steps: seq<Step>, w: World, scripts: seq<Script>,
                        os: seq<Option<nat>>, i: nat, j: nat)
    requires base == BaseUri(true, true) && w == Run(Init(base), steps)
    requires AllPromised(w, Horizon(w.s), scripts) && os == SendAll(w, scripts)
    requires i < j < |os| && os[i].None?
    ensures os[j].Some? && Horizon(w.s) <= os[j].value
  {
    ReachableIsSane(base, steps);
    var risks := RiskTrail(w, Horizon(w.s), scripts);
    RiskStaysDown(risks, os, Horizon(w.s), i, j);
  }
}
