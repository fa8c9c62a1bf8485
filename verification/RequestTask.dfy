/** The life of one request inside `send_request_inner`: the eager poll of the body send,
    the detached task, and where the cancel sender goes. */
module RequestTask {
  import opened Options
  import opened H3Errors
  import opened BodySendSpec
  import opened BodySend
  import Runs = SenderRuns

  /** Which object holds the cancel sender. */
  datatype Holder = Nobody | RequestFuture | ResponseBody

  /** `body` exists once the head has been accepted; `eager` remembers it as the eager poll
      left it. `closed` is what the receiver inside the body send observes: the sender has
      been dropped. */
  datatype Task = Task(
    source: seq<Frame>,
    phase: Runs.Phase,
    responseAlive: bool,
    tx: Holder,
    closed: bool,
    body: Option<Send>,
    eager: Option<Send>,
    detached: bool)
  {
    predicate FutureAlive() { phase.AtHead? || phase.AtBody? || phase.AtResponse? }
  }

  datatype TaskStep =
    | Head(failure: Option<StreamError>)
    | Eager(script: seq<Answer>)
    | Response(failure: Option<StreamError>)
    | DropFuture
    | BodyTick(answer: Answer)
    | BodyAbort
    | DropResponse

  function Create(source: seq<Frame>): Task {
    Task(source, Runs.AtHead, false, Nobody, false, None, None, false)
  }

  /** Dropping an object drops the cancel sender if the object holds it. */
  function DropFrom(t: Task, holder: Holder): Task {
    if t.tx == holder then t.(tx := Nobody, closed := true) else t
  }

  /** The request future is over, and its locals with it. */
  function EndFuture(t: Task, phase: Runs.Phase): Task {
    DropFrom(t.(phase := phase), RequestFuture)
  }

  /** The body send as its one eager poll leaves it. */
  function Launched(source: seq<Frame>, script: seq<Answer>): (b: Send)
    ensures Guarded(b) && b.source == source
  {
    PollFuture(Start(source), Observed(false, script))
  }

  predicate ReturnedErr(b: Send) { b.pc == Gone(Some(Err)) }

  /** Makes the channel and the body send, polls it once, returns its error at once, and
      detaches it if it is pending. None of this awaits. */
  function Launch(t: Task, script: seq<Answer>): Task {
    var b := Launched(t.source, script);
    var u := t.(tx := RequestFuture, body := Some(b), eager := Some(b));
    if ReturnedErr(b) then EndFuture(u, Runs.BodyFailed) else u.(phase := Runs.AtResponse, detached := !b.pc.Gone?)
  }

  ghost predicate Formed(t: Task) {
    t.body.Some? ==> Guarded(t.body.value)
  }

  function TaskNext(t: Task, step: TaskStep): (u: Task)
    requires Formed(t)
    ensures Formed(u) && u.source == t.source
  {
    match step
    case Head(f) =>
      if t.phase != Runs.AtHead then t
      else if f.None? then t.(phase := Runs.AtBody) else EndFuture(t, Runs.HeadFailed(f.value))
    case Eager(script) => if t.phase == Runs.AtBody then Launch(t, script) else t
    case Response(f) =>
      if t.phase != Runs.AtResponse then t
      else if f.Some? then EndFuture(t, Runs.ResponseFailed(f.value))
      else t.(phase := Runs.Responded, responseAlive := true,
              tx := if t.tx == RequestFuture then ResponseBody else t.tx)
    case DropFuture =>
      if t.phase == Runs.AtHead || t.phase == Runs.AtResponse then EndFuture(t, Runs.Abandoned) else t
    case BodyTick(a) =>
      if t.detached && t.body.Some? then t.(body := Some(Advance(t.body.value, Input(t.closed, a)))) else t
    case BodyAbort =>
      if t.detached && t.body.Some? then t.(body := Some(SendNext(t.body.value, HardDrop))) else t
    case DropResponse => if t.responseAlive then DropFrom(t.(responseAlive := false), ResponseBody) else t
  }

  function TaskRun(t: Task, steps: seq<TaskStep>): (u: Task)
    requires Formed(t)
    ensures Formed(u) && u.source == t.source
    decreases |steps|
  {
    if steps == [] then t else TaskRun(TaskNext(t, steps[0]), steps[1..])
  }

  // --------------------------------------------------------------------------
  // What every step keeps
  // --------------------------------------------------------------------------

  /** Each live holder really has the sender, nobody else does, and the channel is closed
      exactly when it was made and nobody holds it any more. */
  ghost predicate Owned(t: Task) {
    && (t.tx == RequestFuture <==> t.phase == Runs.AtResponse)
    && (t.tx == ResponseBody <==> t.responseAlive)
    && (t.responseAlive ==> t.phase == Runs.Responded)
    && (t.closed <==> t.body.Some? && t.tx == Nobody)
  }

  /** Which phases have a body, and how the eager poll decided the next phase. */
  ghost predicate Phased(t: Task) {
    && (t.body.Some? <==> t.eager.Some?)
    && (t.eager.Some? ==> Guarded(t.eager.value))
    && (t.phase.AtHead? || t.phase.AtBody? || t.phase.HeadFailed? ==> t.body.None?)
    && (t.phase.AtResponse? || t.phase.BodyFailed? || t.phase.ResponseFailed? || t.phase.Responded? ==> t.body.Some?)
    && (t.phase == Runs.BodyFailed <==> t.eager.Some? && ReturnedErr(t.eager.value))
    && (t.detached <==> t.eager.Some? && !t.eager.value.pc.Gone?)
  }

  /** The body is a body send under its guard: it has been polled. */
  ghost predicate Bodied(t: Task) {
    t.body.Some? ==>
      && SendInv(t.body.value) && t.body.value.source == t.source
      && t.body.value.guard.Some?
      && (!t.detached ==> t.body == t.eager)
  }

  ghost predicate TaskInv(t: Task) {
    Owned(t) && Phased(t) && Bodied(t)
  }

  lemma {:induction false} PollMakesGuard(s: Send, script: seq<Input>)
    requires SendInv(s) && (s.guard.Some? || s.pc.Unpolled?)
    ensures PollFuture(s, script).guard.Some?
    decreases |script|
  {
    if !s.pc.Gone? {
      var i := if script == [] then SILENCE else script[0];
      SendNextKeepsInv(s, Tick(i));
      if script != [] && !Suspends(s, i) { PollMakesGuard(Advance(s, i), script[1..]); }
    }
  }

  /** `send_request_inner` never leaves a body send unpolled. */
  lemma LaunchedIsGuarded(source: seq<Frame>, script: seq<Answer>)
    ensures var b := Launched(source, script);
            SendInv(b) && b.source == source && b.guard.Some? && !b.pc.Unpolled?
  {
    PollKeepsInv(Start(source), Observed(false, script));
    PollMakesGuard(Start(source), Observed(false, script));
  }

  lemma LaunchKeepsInv(t: Task, script: seq<Answer>)
    requires TaskInv(t) && t.phase == Runs.AtBody
    ensures TaskInv(Launch(t, script))
  {
    LaunchedIsGuarded(t.source, script);
  }

  lemma GuardOutlives(s: Send, step: SendStep)
    requires SendInv(s) && s.guard.Some?
    ensures SendInv(SendNext(s, step)) && SendNext(s, step).guard.Some?
  {
    SendNextKeepsInv(s, step);
  }

  lemma TaskNextKeepsInv(t: Task, step: TaskStep)
    requires TaskInv(t)
    ensures TaskInv(TaskNext(t, step))
  {
    match step
    case Eager(script) => if t.phase == Runs.AtBody { LaunchKeepsInv(t, script); }
    case BodyTick(a) => if t.body.Some? { GuardOutlives(t.body.value, Tick(Input(t.closed, a))); }
    case BodyAbort => if t.body.Some? { GuardOutlives(t.body.value, HardDrop); }
    case _ =>
  }

  lemma {:induction false} TaskRunKeepsInv(t: Task, steps: seq<TaskStep>)
    requires TaskInv(t)
    ensures TaskInv(TaskRun(t, steps))
    decreases |steps|
  {
    if steps != [] {
      TaskNextKeepsInv(t, steps[0]);
      TaskRunKeepsInv(TaskNext(t, steps[0]), steps[1..]);
    }
  }

  // --------------------------------------------------------------------------
  // Over every life of a request
  // --------------------------------------------------------------------------

  /** The receiver in the body send sees the cancel signal exactly when the body exists and
      neither the request future nor the response body is alive, wherever the sender was
      moved in between; a body runs detached exactly when the one eager poll was pending,
      and otherwise is over. */
  lemma CancelOwnership(source: seq<Frame>, steps: seq<TaskStep>)
    ensures var t := TaskRun(Create(source), steps);
            && (t.closed <==> t.body.Some? && !t.FutureAlive() && !t.responseAlive)
            && !(t.FutureAlive() && t.responseAlive)
            && (t.detached <==> t.eager.Some? && !t.eager.value.pc.Gone?)
            && (t.body.Some? && !t.detached ==> t.body.value.pc.Gone?)
  {
    TaskRunKeepsInv(Create(source), steps);
  }

  /** No life of a request puts FIN behind a truncated body: a body send inside
      `send_request_inner` has always been polled, so its guard stands from the start, and
      however it is cancelled, aborted or failed, FIN means the whole source. */
  lemma RequestNeverTruncates(source: seq<Frame>, steps: seq<TaskStep>)
    ensures var t := TaskRun(Create(source), steps);
            t.body.Some? ==>
              var b := t.body.value;
              && !b.pc.Unpolled? && b.guard.Some?
              && (b.wire.terminal == Fin ==> b.wire.tokens == EncodeAll(source))
              && (b.pc.Gone? ==> b.wire.terminal != Open)
  {
    TaskRunKeepsInv(Create(source), steps);
  }

  lemma {:induction false} CancelRun(t: Task, steps: seq<TaskStep>)
    requires TaskInv(t) && t.closed
    ensures var u := TaskRun(t, steps);
            u.closed && u.body.Some? && ReadNothingSince(t.body.value, u.body.value)
    decreases |steps|
  {
    if steps != [] {
      var u := TaskNext(t, steps[0]);
      TaskNextKeepsInv(t, steps[0]);
      match steps[0] {
        case BodyTick(a) => CancelledStep(t.body.value, Tick(Input(true, a)));
        case BodyAbort => CancelledStep(t.body.value, HardDrop);
        case _ =>
      }
      CancelRun(u, steps[1..]);
    }
  }

  /** From the moment the last holder of the cancel sender is gone, on every continuation
      the signal stays up, the source is never polled again, and the stream ends with FIN
      only if the loop had already seen the end of the source. */
  lemma CancelStopsTheSource(source: seq<Frame>, before: seq<TaskStep>, after: seq<TaskStep>)
    requires TaskRun(Create(source), before).closed
    ensures var t := TaskRun(Create(source), before);
            var u := TaskRun(t, after);
            && u.closed && t.body.Some? && u.body.Some?
            && u.body.value.sourcePolls == t.body.value.sourcePolls
            && (u.body.value.wire.terminal == Fin ==>
                  t.body.value.pc.Finishing? || t.body.value.wire.terminal == Fin)
  {
    TaskRunKeepsInv(Create(source), before);
    CancelRun(TaskRun(Create(source), before), after);
  }

  /** And it does end: a cancelled task that is waiting for its source resets the stream
      with H3_REQUEST_CANCELLED the next time it runs, and one that is writing a frame
      does so as soon as that write is over. */
  lemma CancelResetsTheStream(source: seq<Frame>, steps: seq<TaskStep>, a: Answer)
    requires var t := TaskRun(Create(source), steps);
             t.detached && t.closed && t.body.Some? && (t.body.value.pc.Selecting? || t.body.value.pc.Writing?)
    ensures var t := TaskRun(Create(source), steps);
            var u := if t.body.value.pc.Selecting? then TaskNext(t, BodyTick(a))
                     else TaskNext(TaskNext(t, BodyTick(Answer.Ready)), BodyTick(a));
            u.body.Some?
            && u.body.value.pc == Gone(Some(Ok)) && u.body.value.wire.terminal == Reset(H3_REQUEST_CANCELLED)
  {
    TaskRunKeepsInv(Create(source), steps);
  }

  // --------------------------------------------------------------------------
  // A detached body goes on
  // --------------------------------------------------------------------------

  /** What happens to the body in the course of these steps: each turn of the executor is one
      look, with the cancel signal as the channel stands at that time. */
  function BodySteps(t: Task, steps: seq<TaskStep>): seq<SendStep>
    requires Formed(t)
    decreases |steps|
  {
    if steps == [] then []
    else
      (match steps[0]
       case BodyTick(a) => if t.body.Some? then [Tick(Input(t.closed, a))] else []
       case BodyAbort => if t.body.Some? then [HardDrop] else []
       case _ => [])
      + BodySteps(TaskNext(t, steps[0]), steps[1..])
  }

  lemma GoneStays(s: Send, step: SendStep)
    requires SendInv(s) && s.pc.Gone?
    ensures SendNext(s, step) == s
  {
  }

  /** One step of a task that has a body. */
  lemma BodyMoves(t: Task, step: TaskStep)
    requires TaskInv(t) && t.body.Some?
    ensures var u := TaskNext(t, step);
            && u.eager == t.eager && u.body.Some?
            && u.body.value == match step
                               case BodyTick(a) => SendNext(t.body.value, Tick(Input(t.closed, a)))
                               case BodyAbort => SendNext(t.body.value, HardDrop)
                               case _ => t.body.value
  {
    match step
    case BodyTick(a) => if !t.detached { GoneStays(t.body.value, Tick(Input(t.closed, a))); }
    case BodyAbort => if !t.detached { GoneStays(t.body.value, HardDrop); }
    case _ =>
  }

  lemma {:induction false} BodyRunsOn(t: Task, steps: seq<TaskStep>)
    requires TaskInv(t) && t.body.Some?
    ensures var u := TaskRun(t, steps);
            u.eager == t.eager && u.body == Some(SendRun(t.body.value, BodySteps(t, steps))) && TaskInv(u)
    decreases |steps|
  {
    if steps != [] {
      var u, rest := TaskNext(t, steps[0]), steps[1..];
      TaskNextKeepsInv(t, steps[0]);
      BodyMoves(t, steps[0]);
      BodyRunsOn(u, rest);
      match steps[0] {
        case BodyTick(a) => SendRunFirst(t.body.value, Tick(Input(t.closed, a)), BodySteps(u, rest));
        case BodyAbort => SendRunFirst(t.body.value, HardDrop, BodySteps(u, rest));
        case _ => assert [] + BodySteps(u, rest) == BodySteps(u, rest);
      }
    }
  }

  /** A step before the body is there: it stays so, or this is the eager poll. */
  lemma BodyBegins(t: Task, step: TaskStep)
    requires TaskInv(t) && t.body.None?
    ensures var u := TaskNext(t, step);
            if t.phase == Runs.AtBody && step.Eager?
            then u.body == u.eager == Some(Launched(t.source, step.script))
            else u.body.None? && u.eager.None?
  {
  }

  lemma {:induction false} BodyRunsFromEager(t: Task, steps: seq<TaskStep>)
    requires TaskInv(t) && t.body.None?
    ensures var u := TaskRun(t, steps);
            && u.body.Some? == u.eager.Some?
            && (u.eager.Some? ==>
                  Guarded(u.eager.value) && u.body == Some(SendRun(u.eager.value, BodySteps(t, steps))))
    decreases |steps|
  {
    if steps != [] {
      var u, rest := TaskNext(t, steps[0]), steps[1..];
      TaskNextKeepsInv(t, steps[0]);
      BodyBegins(t, steps[0]);
      assert [] + BodySteps(u, rest) == BodySteps(u, rest);
      if u.body.Some? { BodyRunsOn(u, rest); } else { BodyRunsFromEager(u, rest); }
    }
  }

  /** Over every life of a request the body is what the eager poll left, moved on by exactly
      its own turns and by its abort, each turn with the signal of its channel then. */
  lemma BodyFollowsItsTurns(source: seq<Frame>, steps: seq<TaskStep>)
    ensures var u := TaskRun(Create(source), steps);
            && u.body.Some? == u.eager.Some?
            && (u.eager.Some? ==>
                  && Guarded(u.eager.value)
                  && u.body == Some(SendRun(u.eager.value, BodySteps(Create(source), steps))))
  {
    TaskRunKeepsInv(Create(source), steps);
    BodyRunsFromEager(Create(source), steps);
  }

  ghost predicate OnlyTurns(steps: seq<TaskStep>) {
    forall k :: 0 <= k < |steps| ==> steps[k].BodyTick?
  }

  lemma {:induction false} TurnsComplete(t: Task) returns (turns: seq<TaskStep>)
    requires TaskInv(t) && t.detached && !t.closed && t.body.Some?
    requires t.body.value.pc.Gone? ==> t.body.value.wire.terminal.Fin?
    ensures OnlyTurns(turns)
    ensures var u := TaskRun(t, turns);
            && u.body.Some? && u.body.value.pc == Gone(Some(Ok))
            && u.body.value.wire == Wire(EncodeAll(t.source), Fin)
    decreases SendLeft(t.body.value)
  {
    if t.body.value.pc.Gone? {
      turns := [];
    } else {
      var go := BodyTick(Answer.Ready);
      TaskNextKeepsInv(t, go);
      BodyMoves(t, go);
      SenderAdvances(t.body.value);
      var rest := TurnsComplete(TaskNext(t, go));
      turns := [go] + rest;
      assert turns[1..] == rest;
    }
  }

  /** As long as nobody cancels, aborts or fails it, a detached body can always still be
      brought to its end by turns of the executor alone, with the whole source on the wire. */
  lemma DetachedBodyCompletes(source: seq<Frame>, steps: seq<TaskStep>) returns (turns: seq<TaskStep>)
    requires var t := TaskRun(Create(source), steps);
             t.detached && !t.closed && t.body.Some? && !t.body.value.pc.Gone?
    ensures OnlyTurns(turns)
    ensures var u := TaskRun(TaskRun(Create(source), steps), turns);
            && u.body.Some? && u.body.value.pc == Gone(Some(Ok))
            && u.body.value.wire == Wire(EncodeAll(source), Fin)
  {
    TaskRunKeepsInv(Create(source), steps);
    turns := TurnsComplete(TaskRun(Create(source), steps));
  }

  /** When the signal rises: an error while waiting for the response, a dropped future, a
      dropped response body. And when it does not: a response that comes keeps it down. */
  lemma SignalRises(source: seq<Frame>, steps: seq<TaskStep>, e: StreamError)
    ensures var t := TaskRun(Create(source), steps);
            && (t.phase == Runs.AtResponse ==>
                  && !t.closed
                  && TaskNext(t, Response(Some(e))).closed
                  && TaskNext(t, DropFuture).closed
                  && !TaskNext(t, Response(None)).closed && TaskNext(t, Response(None)).responseAlive)
            && (t.responseAlive ==> !t.closed && TaskNext(t, DropResponse).closed)
  {
    TaskRunKeepsInv(Create(source), steps);
  }
}
