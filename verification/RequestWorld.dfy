/** The sender's world with the body sends of its requests: every interleaving of the
    sender, the drivers, the request futures, the detached body tasks and the callers. */
module RequestWorld {
  import opened Options
  import opened H3Errors
  import opened SenderSpec
  import opened SenderRuns
  import opened SenderTheorems
  import Body = BodySendSpec
  import opened RequestTask

  /** Request i of the world is task i. */
  datatype Net = Net(world: World, tasks: seq<Task>)

  datatype NetStep =
    | PollSender(connect: ConnectPoll)
    | CallSender(uriBuilds: bool, source: seq<Body.Frame>)
    | DriverStops(conn: nat, how: DriverState)
    | Of(req: nat, step: TaskStep)

  function Idle(base: BaseUri): Net { Net(Init(base), []) }

  /** What a step of request i is to the sender's world: its two possible flag stores, and
      for the eager poll whether the body send itself came back with an error. A step of a
      detached body or of a response body is nothing to it. */
  function Shadow(t: Task, i: nat, step: TaskStep): Option<Step> {
    match step
    case Head(f) => Some(HeadResult(i, f))
    case Eager(script) => Some(EagerBody(i, !ReturnedErr(Launched(t.source, script))))
    case Response(f) => Some(ResponseResult(i, f))
    case DropFuture => Some(Abandon(i))
    case BodyTick(_) => None
    case BodyAbort => None
    case DropResponse => None
  }

  function OnWorld(n: Net, step: NetStep): Option<Step> {
    match step
    case PollSender(p) => Some(Poll(p))
    case CallSender(uriBuilds, _) => Some(Submit(uriBuilds))
    case DriverStops(c, how) => Some(DriverEnds(c, how))
    case Of(i, s) => if i < |n.tasks| then Shadow(n.tasks[i], i, s) else None
  }

  ghost predicate AllFormed(tasks: seq<Task>) {
    forall i :: 0 <= i < |tasks| ==> Formed(tasks[i])
  }

  /** A call that dispatches makes a request future, and it starts to run the body it was
      given only after its head was accepted. */
  function OnTasks(n: Net, step: NetStep): (tasks: seq<Task>)
    requires AllFormed(n.tasks)
    ensures AllFormed(tasks) && |n.tasks| <= |tasks|
  {
    match step
    case CallSender(uriBuilds, source) =>
      if Call(n.world.s, uriBuilds).outcome.Dispatch? then n.tasks + [Create(source)] else n.tasks
    case Of(i, s) => if i < |n.tasks| then n.tasks[i := TaskNext(n.tasks[i], s)] else n.tasks
    case _ => n.tasks
  }

  function NetNext(n: Net, step: NetStep): (v: Net)
    requires AllFormed(n.tasks)
    ensures AllFormed(v.tasks) && |n.tasks| <= |v.tasks|
  {
    var w := OnWorld(n, step);
    Net(if w.Some? then Apply(n.world, w.value) else n.world, OnTasks(n, step))
  }

  function NetRun(n: Net, steps: seq<NetStep>): (v: Net)
    requires AllFormed(n.tasks)
    ensures AllFormed(v.tasks) && |n.tasks| <= |v.tasks|
    decreases |steps|
  {
    if steps == [] then n else NetRun(NetNext(n, steps[0]), steps[1..])
  }

  // --------------------------------------------------------------------------
  // The two halves are runs of their own machines
  // --------------------------------------------------------------------------

  /** The run of the sender's world inside a run of the whole. */
  function Projected(n: Net, steps: seq<NetStep>): seq<Step>
    requires AllFormed(n.tasks)
    decreases |steps|
  {
    if steps == [] then [] else ToSeq(OnWorld(n, steps[0])) + Projected(NetNext(n, steps[0]), steps[1..])
  }

  /** The steps of request i. */
  function Own(steps: seq<NetStep>, i: nat): seq<TaskStep>
    decreases |steps|
  {
    if steps == [] then []
    else if steps[0].Of? && steps[0].req == i then [steps[0].step] + Own(steps[1..], i)
    else Own(steps[1..], i)
  }

  /** Whatever the bodies do, the sender's world goes through one of its own runs, so every
      theorem about those runs holds with the bodies in place. */
  lemma {:induction false} WorldIsARun(n: Net, steps: seq<NetStep>)
    requires AllFormed(n.tasks)
    ensures NetRun(n, steps).world == Run(n.world, Projected(n, steps))
    decreases |steps|
  {
    if steps != [] {
      var w, v := OnWorld(n, steps[0]), NetNext(n, steps[0]);
      WorldIsARun(v, steps[1..]);
      var rest := Projected(v, steps[1..]);
      if w.Some? {
        assert ([w.value] + rest)[1..] == rest;
      } else {
        assert [] + rest == rest;
      }
    }
  }

  lemma OnlyOwnStepsMove(n: Net, step: NetStep, i: nat)
    requires AllFormed(n.tasks) && i < |n.tasks|
    ensures NetNext(n, step).tasks[i] ==
            if step.Of? && step.req == i then TaskNext(n.tasks[i], step.step) else n.tasks[i]
  {
  }

  /** And a request with its body goes through a run of its own machine, made of its own
      steps. Which answers those steps bring is up to the environment. */
  lemma {:induction false} RequestsAreIsolated(n: Net, steps: seq<NetStep>, i: nat)
    requires AllFormed(n.tasks) && i < |n.tasks|
    ensures NetRun(n, steps).tasks[i] == TaskRun(n.tasks[i], Own(steps, i))
    decreases |steps|
  {
    if steps != [] {
      OnlyOwnStepsMove(n, steps[0], i);
      RequestsAreIsolated(NetNext(n, steps[0]), steps[1..], i);
      var rest := Own(steps[1..], i);
      if steps[0].Of? && steps[0].req == i {
        assert ([steps[0].step] + rest)[1..] == rest;
      }
    }
  }

  // --------------------------------------------------------------------------
  // The halves agree
  // --------------------------------------------------------------------------

  ghost predicate Matched(r: Request, t: Task) {
    TaskInv(t) && t.phase == r.phase
  }

  ghost predicate Paired(reqs: seq<Request>, tasks: seq<Task>) {
    |tasks| == |reqs| && forall i :: 0 <= i < |tasks| ==> Matched(reqs[i], tasks[i])
  }

  ghost predicate NetInv(n: Net) {
    Inv(n.world) && Paired(n.world.reqs, n.tasks)
  }

  /** A step of the sender or of a driver changes no request; a dispatch adds one. */
  lemma SharedStepAdds(w: World, step: Step)
    requires step.Poll? || step.Submit? || step.DriverEnds?
    ensures var v := Apply(w, step);
            if step.Submit? && Call(w.s, step.uriBuilds).outcome.Dispatch?
            then |v.reqs| == |w.reqs| + 1 && v.reqs[..|w.reqs|] == w.reqs && v.reqs[|w.reqs|].phase == AtHead
            else v.reqs == w.reqs
  {
  }

  lemma NewPairs(reqs: seq<Request>, tasks: seq<Task>, r: Request, source: seq<Body.Frame>)
    requires Paired(reqs, tasks) && r.phase == AtHead
    ensures Paired(reqs + [r], tasks + [Create(source)])
  {
    forall i | 0 <= i < |tasks| + 1 ensures Matched((reqs + [r])[i], (tasks + [Create(source)])[i]) {
      if i < |tasks| { assert Matched(reqs[i], tasks[i]); }
    }
  }

  lemma RequestStepMatches(w: World, i: nat, t: Task, s: TaskStep)
    requires i < |w.reqs| && Matched(w.reqs[i], t)
    ensures Formed(t)
    ensures var x := Shadow(t, i, s);
            var v := if x.Some? then Apply(w, x.value) else w;
            && |v.reqs| == |w.reqs|
            && Matched(v.reqs[i], TaskNext(t, s))
            && forall k :: 0 <= k < |w.reqs| && k != i ==> v.reqs[k] == w.reqs[k]
  {
    TaskNextKeepsInv(t, s);
  }

  lemma OwnStepKeepsPairs(n: Net, i: nat, s: TaskStep)
    requires Paired(n.world.reqs, n.tasks) && AllFormed(n.tasks) && i < |n.tasks|
    ensures Paired(NetNext(n, Of(i, s)).world.reqs, NetNext(n, Of(i, s)).tasks)
  {
    var v := NetNext(n, Of(i, s));
    RequestStepMatches(n.world, i, n.tasks[i], s);
    forall k | 0 <= k < |v.tasks| ensures Matched(v.world.reqs[k], v.tasks[k]) {
      assert Matched(n.world.reqs[k], n.tasks[k]);
    }
  }

  lemma SharedStepKeepsPairs(n: Net, step: NetStep)
    requires Paired(n.world.reqs, n.tasks) && AllFormed(n.tasks) && !step.Of?
    ensures Paired(NetNext(n, step).world.reqs, NetNext(n, step).tasks)
  {
    var v := NetNext(n, step);
    SharedStepAdds(n.world, OnWorld(n, step).value);
    if step.CallSender? && Call(n.world.s, step.uriBuilds).outcome.Dispatch? {
      var r := v.world.reqs[|n.world.reqs|];
      assert v.world.reqs == n.world.reqs + [r];
      NewPairs(n.world.reqs, n.tasks, r, step.source);
    }
  }

  lemma NetNextKeepsInv(n: Net, step: NetStep)
    requires NetInv(n) && AllFormed(n.tasks)
    ensures NetInv(NetNext(n, step))
  {
    var w := OnWorld(n, step);
    if w.Some? { ApplyKeepsInv(n.world, w.value); }
    if !step.Of? {
      SharedStepKeepsPairs(n, step);
    } else if step.req < |n.tasks| {
      OwnStepKeepsPairs(n, step.req, step.step);
    }
  }

  lemma {:induction false} NetRunKeepsInv(n: Net, steps: seq<NetStep>)
    requires NetInv(n) && AllFormed(n.tasks)
    ensures NetInv(NetRun(n, steps))
    decreases |steps|
  {
    if steps != [] {
      NetNextKeepsInv(n, steps[0]);
      NetRunKeepsInv(NetNext(n, steps[0]), steps[1..]);
    }
  }

  /** What a phase of the sender's world says about the body behind it. */
  ghost predicate Tells(p: Phase, t: Task) {
    && (p.AtHead? || p.AtBody? || p.HeadFailed? ==> t.body.None?)
    && (p.AtResponse? || p.ResponseFailed? || p.Responded? || p.BodyFailed? ==> t.body.Some?)
    && (p.BodyFailed? && t.body.Some? ==> t.body.value.wire.terminal == Body.Reset(H3_INTERNAL_ERROR))
    && (t.closed <==> t.body.Some? && !(p.AtResponse? || t.responseAlive))
    && (t.body.Some? && t.body.value.wire.terminal == Body.Fin ==>
          t.body.value.wire.tokens == Body.EncodeAll(t.source))
  }

  lemma MatchedTells(r: Request, t: Task)
    requires Matched(r, t)
    ensures Tells(r.phase, t)
  {
  }

  /** Over every run of the whole: a refused head has sent nothing, a request that failed
      with its body has reset its stream with H3_INTERNAL_ERROR, FIN is behind the whole
      source, and the body is cancelled exactly when the request future is over and no
      response body is left. */
  lemma PhasesTellOfBodies(base: BaseUri, steps: seq<NetStep>, i: nat)
    requires i < |NetRun(Idle(base), steps).tasks|
    ensures var n := NetRun(Idle(base), steps);
            |n.tasks| == |n.world.reqs| && Tells(n.world.reqs[i].phase, n.tasks[i])
  {
    ReachableInv(base, []);
    NetRunKeepsInv(Idle(base), steps);
    var n := NetRun(Idle(base), steps);
    MatchedTells(n.world.reqs[i], n.tasks[i]);
  }

  // --------------------------------------------------------------------------
  // Bodies never cost a connection
  // --------------------------------------------------------------------------

  predicate HarmlessMove(step: NetStep) {
    match step
    case DriverStops(_, _) => false
    case Of(_, Head(f)) => f.Some? ==> !f.value.ConnectionLevel()
    case Of(_, Response(f)) => f.Some? ==> !f.value.ConnectionLevel()
    case _ => true
  }

  lemma {:induction false} ProjectedIsHarmless(n: Net, steps: seq<NetStep>, k: nat)
    requires AllFormed(n.tasks) && forall j :: 0 <= j < |steps| ==> HarmlessMove(steps[j])
    requires k < |Projected(n, steps)|
    ensures Harmless(Projected(n, steps)[k])
    decreases |steps|
  {
    var w := OnWorld(n, steps[0]);
    assert HarmlessMove(steps[0]);
    if w.None? {
      ProjectedIsHarmless(NetNext(n, steps[0]), steps[1..], k);
    } else if k > 0 {
      ProjectedIsHarmless(NetNext(n, steps[0]), steps[1..], k - 1);
    }
  }

  /** However many bodies fail, are cancelled, aborted, or dropped with their response, and
      however many requests fail on their own streams: no connection is retired and at most
      one is ever installed. */
  lemma BodiesNeverReconnect(base: BaseUri, steps: seq<NetStep>)
    requires forall j :: 0 <= j < |steps| ==> HarmlessMove(steps[j])
    ensures var w := NetRun(Idle(base), steps).world;
            && Tally(w.s.log).retirees == []
            && |Tally(w.s.log).installs| <= 1
  {
    WorldIsARun(Idle(base), steps);
    var ws := Projected(Idle(base), steps);
    forall k | 0 <= k < |ws| ensures Harmless(ws[k]) {
      ProjectedIsHarmless(Idle(base), steps, k);
    }
    StreamErrorsNeverReconnect(base, ws);
  }
}
