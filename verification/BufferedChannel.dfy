/** `H3Channel`: a worker task that owns the sender, polls it until ready for the message
    at the head of the queue and then calls it; a readiness error would end it for good. */
module BufferedChannel {
  import opened SenderSpec
  import opened SenderRuns
  import opened SenderTheorems

  datatype Worker = Idle | Waiting(msg: nat) | Granted(msg: nat) | Broken

  /** Requests are numbered in the order in which handles enqueue them. */
  datatype Channel = Channel(w: World, queue: seq<nat>, worker: Worker, enqueued: nat, called: seq<nat>)

  datatype ChannelStep =
    | Enqueue
    | WorkerPoll(connect: ConnectPoll)
    | WorkerCall(uriBuilds: bool)
    | Elsewhere(step: Step)

  function New(base: BaseUri): Channel {
    Channel(Init(base), [], Idle, 0, [])
  }

  /** The worker takes a message when it holds none. */
  function Take(ch: Channel): Channel {
    if ch.worker.Idle? && ch.queue != [] then ch.(worker := Waiting(ch.queue[0]), queue := ch.queue[1..]) else ch
  }

  function Next(ch: Channel, step: ChannelStep): Channel {
    match step
    case Enqueue => ch.(queue := ch.queue + [ch.enqueued], enqueued := ch.enqueued + 1)
    case WorkerPoll(p) =>
      var t := Take(ch);
      if !t.worker.Waiting? then ch
      else
        var r := PollReady(t.w.s, CachedDriver(t.w), p);
        t.(w := Apply(t.w, Poll(p)),
           worker := match r.readiness
                     case Pending => t.worker
                     case ReadyOk => Granted(t.worker.msg)
                     case ReadyErr(_) => Broken)
    case WorkerCall(uriBuilds) =>
      if !ch.worker.Granted? then ch
      else ch.(w := Apply(ch.w, Submit(uriBuilds)), worker := Idle, called := ch.called + [ch.worker.msg])
    case Elsewhere(s) =>
      if s.Poll? || s.Submit? then ch else ch.(w := Apply(ch.w, s))
  }

  function Steps(ch: Channel, steps: seq<ChannelStep>): Channel
    decreases |steps|
  {
    if steps == [] then ch else Steps(Next(ch, steps[0]), steps[1..])
  }

  function InHand(k: Worker): seq<nat> {
    if k.Waiting? || k.Granted? then [k.msg] else []
  }

  ghost predicate Fifo(ch: Channel) {
    ch.called + InHand(ch.worker) + ch.queue == seq(ch.enqueued, (i: nat) => i)
  }

  ghost predicate NeverUnready(log: seq<Event>) {
    forall k :: 0 <= k < |log| ==> !log[k].NotReady?
  }

  ghost predicate Usable(s: Sender) {
    s.sendRequest.Some? || s.connectError.Some?
  }

  ghost predicate ChannelInv(ch: Channel) {
    && Inv(ch.w)
    && !ch.worker.Broken?
    && Fifo(ch)
    && NeverUnready(ch.w.s.log)
    && (ch.worker.Granted? ==> Usable(ch.w.s))
  }

  lemma TakeKeepsFifo(ch: Channel)
    requires Fifo(ch)
    ensures Fifo(Take(ch))
  {
    if ch.worker.Idle? && ch.queue != [] {
      assert ch.called + [] + ch.queue == ch.called + [ch.queue[0]] + ch.queue[1..];
    }
  }

  lemma EnqueueKeepsFifo(ch: Channel)
    requires Fifo(ch)
    ensures Fifo(Next(ch, Enqueue))
  {
    var v := Next(ch, Enqueue);
    assert v.called + InHand(v.worker) + v.queue == ch.called + InHand(ch.worker) + ch.queue + [ch.enqueued];
  }

  lemma PollLogsNoUnready(s: Sender, d: DriverState, p: ConnectPoll)
    requires NeverUnready(s.log)
    ensures NeverUnready(PollReady(s, d, p).sender.log)
  {
  }

  /** A request or a driver elsewhere never takes away what readiness promised. */
  lemma ElsewhereKeepsReadiness(w: World, step: Step)
    requires !step.Poll? && !step.Submit?
    ensures var v := Apply(w, step);
            v.s.log == w.s.log && v.s.sendRequest == w.s.sendRequest && v.s.connectError == w.s.connectError
  {
  }

  lemma CallLogsNoUnready(s: Sender, uriBuilds: bool)
    requires NeverUnready(s.log) && Usable(s)
    ensures NeverUnready(Call(s, uriBuilds).sender.log)
  {
  }

  lemma WorkerPollKeepsInv(ch: Channel, p: ConnectPoll)
    requires ChannelInv(ch)
    ensures ChannelInv(Next(ch, WorkerPoll(p)))
  {
    TakeKeepsFifo(ch);
    ApplyKeepsInv(ch.w, Poll(p));
    PollReadyKeepsCoupling(ch.w.s, CachedDriver(ch.w), p);
    PollLogsNoUnready(ch.w.s, CachedDriver(ch.w), p);
  }

  lemma WorkerCallKeepsInv(ch: Channel, uriBuilds: bool)
    requires ChannelInv(ch) && ch.worker.Granted?
    ensures ChannelInv(Next(ch, WorkerCall(uriBuilds)))
  {
    ApplyKeepsInv(ch.w, Submit(uriBuilds));
    CallLogsNoUnready(ch.w.s, uriBuilds);
    assert ch.called + [ch.worker.msg] + [] + ch.queue == ch.called + [ch.worker.msg] + ch.queue;
  }

  lemma NextKeepsInv(ch: Channel, step: ChannelStep)
    requires ChannelInv(ch)
    ensures ChannelInv(Next(ch, step))
  {
    match step
    case Enqueue => EnqueueKeepsFifo(ch);
    case WorkerPoll(p) => WorkerPollKeepsInv(ch, p);
    case WorkerCall(uriBuilds) => if ch.worker.Granted? { WorkerCallKeepsInv(ch, uriBuilds); }
    case Elsewhere(s) =>
      if !s.Poll? && !s.Submit? {
        ApplyKeepsInv(ch.w, s);
        ElsewhereKeepsReadiness(ch.w, s);
      }
  }

  lemma {:induction false} StepsKeepInv(ch: Channel, steps: seq<ChannelStep>)
    requires ChannelInv(ch)
    ensures ChannelInv(Steps(ch, steps))
    decreases |steps|
  {
    if steps != [] {
      NextKeepsInv(ch, steps[0]);
      StepsKeepInv(Next(ch, steps[0]), steps[1..]);
    }
  }

  /** Whatever fails, the worker never ends: no run reaches the broken state, no call ever
      takes the "not ready" branch, none that the worker makes is answered so, and requests
      are called once each, in the order in which they were enqueued. */
  lemma NeverBricked(base: BaseUri, steps: seq<ChannelStep>)
    ensures var ch := Steps(New(base), steps);
            && !ch.worker.Broken?
            && NeverUnready(ch.w.s.log)
            && ch.called + InHand(ch.worker) + ch.queue == seq(ch.enqueued, (i: nat) => i)
            && (ch.worker.Granted? ==>
                  forall uriBuilds :: Call(ch.w.s, uriBuilds).outcome != Rejected(SenderNotReady))
  {
    ReachableInv(base, []);
    StepsKeepInv(New(base), steps);
  }

  // --------------------------------------------------------------------------
  // The worker keeps serving
  // --------------------------------------------------------------------------

  function Outstanding(ch: Channel): seq<nat> {
    InHand(ch.worker) + ch.queue
  }

  /** A readiness poll that finds its connect resolved, one way or the other. */
  predicate Resolving(step: ChannelStep) { step.WorkerPoll? && !step.connect.NotYet? }

  /** A poll that resolved and was not followed by a call yet. */
  function Pledged(steps: seq<ChannelStep>): bool {
    if steps == [] then false
    else Resolving(steps[|steps| - 1])
         || (!steps[|steps| - 1].WorkerCall? && Pledged(steps[..|steps| - 1]))
  }

  /** How many times a resolved poll was followed by a call, with anything in between:
      other polls, enqueuers, requests, drivers. */
  function Turns(steps: seq<ChannelStep>): nat {
    if steps == [] then 0
    else
      var front := steps[..|steps| - 1];
      Turns(front) + if steps[|steps| - 1].WorkerCall? && Pledged(front) then 1 else 0
  }

  /** Either everything that was outstanding at ch has been called, or each turn so far has
      called one request and a pledged worker has been granted its own. */
  ghost predicate KeepsPace(ch: Channel, v: Channel, turns: nat, pledged: bool) {
    && ChannelInv(v) && ch.enqueued <= v.enqueued
    && (|v.called| >= ch.enqueued
        || (|v.called| >= |ch.called| + turns && (pledged ==> v.worker.Granted?)))
  }

  /** Fewer calls than requests leave something to serve. */
  lemma StillOutstanding(v: Channel)
    requires ChannelInv(v) && |v.called| < v.enqueued
    ensures Outstanding(v) != []
  {
    assert |v.called + InHand(v.worker) + v.queue| == v.enqueued;
  }

  lemma ResolvedPollGrants(v: Channel, p: ConnectPoll)
    requires !p.NotYet? && !v.worker.Broken? && Outstanding(v) != []
    ensures Next(v, WorkerPoll(p)).worker.Granted?
  {
  }

  lemma StepKeepsCounts(v: Channel, step: ChannelStep)
    ensures var u := Next(v, step);
            && |u.called| == |v.called| + (if step.WorkerCall? && v.worker.Granted? then 1 else 0)
            && v.enqueued <= u.enqueued
            && (v.worker.Granted? && !step.WorkerCall? ==> u.worker.Granted?)
  {
  }

  lemma StepKeepsPace(ch: Channel, v: Channel, turns: nat, pledged: bool, step: ChannelStep)
    requires KeepsPace(ch, v, turns, pledged)
    ensures KeepsPace(ch, Next(v, step),
                      turns + if step.WorkerCall? && pledged then 1 else 0,
                      Resolving(step) || (!step.WorkerCall? && pledged))
  {
    NextKeepsInv(v, step);
    StepKeepsCounts(v, step);
    if |v.called| < ch.enqueued && Resolving(step) {
      StillOutstanding(v);
      ResolvedPollGrants(v, step.connect);
    }
  }

  lemma {:induction false} StepsAppend(ch: Channel, steps: seq<ChannelStep>, last: ChannelStep)
    ensures Steps(ch, steps + [last]) == Next(Steps(ch, steps), last)
    decreases |steps|
  {
    if steps == [] {
      assert Steps(Next(ch, last), [last][1..]) == Next(ch, last);
    } else {
      assert (steps + [last])[1..] == steps[1..] + [last];
      StepsAppend(Next(ch, steps[0]), steps[1..], last);
    }
  }

  lemma LastKeepsPace(ch: Channel, v: Channel, u: Channel, steps: seq<ChannelStep>)
    requires steps != [] && u == Next(v, steps[|steps| - 1])
    requires KeepsPace(ch, v, Turns(steps[..|steps| - 1]), Pledged(steps[..|steps| - 1]))
    ensures KeepsPace(ch, u, Turns(steps), Pledged(steps))
  {
    StepKeepsPace(ch, v, Turns(steps[..|steps| - 1]), Pledged(steps[..|steps| - 1]), steps[|steps| - 1]);
  }

  lemma StepsSplit(ch: Channel, steps: seq<ChannelStep>)
    requires steps != []
    ensures Steps(ch, steps) == Next(Steps(ch, steps[..|steps| - 1]), steps[|steps| - 1])
  {
    var front, last := steps[..|steps| - 1], steps[|steps| - 1];
    assert steps == front + [last];
    StepsAppend(ch, front, last);
  }

  lemma {:induction false} RunKeepsPace(ch: Channel, steps: seq<ChannelStep>)
    requires ChannelInv(ch)
    ensures KeepsPace(ch, Steps(ch, steps), Turns(steps), Pledged(steps))
  {
    if steps != [] {
      RunKeepsPace(ch, steps[..|steps| - 1]);
      StepsSplit(ch, steps);
      LastKeepsPace(ch, Steps(ch, steps[..|steps| - 1]), Steps(ch, steps), steps);
    }
  }

  lemma CalledInOrder(ch: Channel, v: Channel)
    requires ChannelInv(ch) && ChannelInv(v) && |v.called| >= ch.enqueued
    ensures ch.called + Outstanding(ch) <= v.called
    ensures ch.called + Outstanding(ch) == seq(ch.enqueued, (i: nat) => i)
    ensures v.enqueued == ch.enqueued ==> Outstanding(v) == []
  {
    var was, now := ch.called + Outstanding(ch), v.called + Outstanding(v);
    assert was == ch.called + InHand(ch.worker) + ch.queue;
    assert now == v.called + InHand(v.worker) + v.queue;
    assert forall i :: 0 <= i < |v.called| ==> v.called[i] == now[i] == i;
  }

  /** Rounds without anything in between. */
  function RoundsOf(outcomes: seq<ConnectPoll>): seq<ChannelStep> {
    if outcomes == [] then []
    else RoundsOf(outcomes[..|outcomes| - 1]) + [WorkerPoll(outcomes[|outcomes| - 1]), WorkerCall(true)]
  }

  /** The plainest such schedule: one poll and one call per connect, refused or not. */
  lemma {:induction false} RoundsAreTurns(outcomes: seq<ConnectPoll>)
    requires forall k :: 0 <= k < |outcomes| ==> !outcomes[k].NotYet?
    ensures Turns(RoundsOf(outcomes)) == |outcomes|
  {
    if outcomes != [] {
      var front, p := outcomes[..|outcomes| - 1], outcomes[|outcomes| - 1];
      RoundsAreTurns(front);
      var steps := RoundsOf(front);
      assert RoundsOf(outcomes)[..|steps| + 1] == steps + [WorkerPoll(p)];
      assert (steps + [WorkerPoll(p)])[..|steps|] == steps;
    }
  }

  /** From any reachable state, and whatever enqueuers, requests, drivers and further polls
      do in between, as many resolved connects as there are requests outstanding, each
      followed by the worker's call, get all of them called, first and in order, even if
      every connect is refused: each is then answered at least with an error of its own. */
  lemma QueueDrains(base: BaseUri, steps: seq<ChannelStep>, more: seq<ChannelStep>)
    requires Turns(more) >= |Outstanding(Steps(New(base), steps))|
    ensures var ch := Steps(New(base), steps);
            var v := Steps(ch, more);
            && ch.called + Outstanding(ch) <= v.called
            && ch.called + Outstanding(ch) == seq(ch.enqueued, (i: nat) => i)
            && (v.enqueued == ch.enqueued ==> Outstanding(v) == [])
  {
    ReachableInv(base, []);
    StepsKeepInv(New(base), steps);
    var ch := Steps(New(base), steps);
    RunKeepsPace(ch, more);
    CalledInOrder(ch, Steps(ch, more));
  }
}
