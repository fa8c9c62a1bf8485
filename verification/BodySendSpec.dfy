/** The body-send loops of client_body.rs and server_body.rs as a machine that advances
    one await at a time, over a QUIC send stream with a terminal state (section 3.1 of
    RFC 9000) and under the reset-on-drop guard of send_guard.rs. */
module BodySendSpec {
  import opened Options
  import opened H3Errors

  /** A frame of an `http_body::Body`. */
  datatype Frame = Data(bytes: seq<Byte>) | Trailers(fields: string)

  /** What the stream carries: DATA frame headers, payload octets, trailer sections. */
  datatype Token = DataHead(length: nat) | Octet(b: Byte) | Fields(fields: string)

  datatype Terminal = Open | Fin | Reset(code: Code)

  datatype Wire = Wire(tokens: seq<Token>, terminal: Terminal)

  function Octets(bytes: seq<Byte>): (ts: seq<Token>)
    ensures |ts| == |bytes| && forall i :: 0 <= i < |ts| ==> ts[i] == Octet(bytes[i])
  {
    seq(|bytes|, i requires 0 <= i < |bytes| => Octet(bytes[i]))
  }

  function Encode(f: Frame): (ts: seq<Token>)
    ensures |ts| > 0
  {
    match f
    case Data(bytes) => [DataHead(|bytes|)] + Octets(bytes)
    case Trailers(fields) => [Fields(fields)]
  }

  function EncodeAll(fs: seq<Frame>): seq<Token> {
    if fs == [] then [] else EncodeAll(fs[..|fs| - 1]) + Encode(fs[|fs| - 1])
  }

  lemma {:induction false} EncodeAllSplit(fs: seq<Frame>, k: nat)
    requires k <= |fs|
    ensures EncodeAll(fs[..k]) <= EncodeAll(fs)
    ensures k < |fs| ==> EncodeAll(fs[..k + 1]) == EncodeAll(fs[..k]) + Encode(fs[k])
    ensures k < |fs| ==> EncodeAll(fs[..k]) + Encode(fs[k]) <= EncodeAll(fs)
  {
    if k == |fs| {
      assert fs[..k] == fs;
    } else {
      assert fs[..k + 1][..k] == fs[..k];
      var front := fs[..|fs| - 1];
      assert front[..k] == fs[..k];
      EncodeAllSplit(front, k);
      if k + 1 == |fs| { assert fs[..k + 1] == fs; }
    }
  }

  // --------------------------------------------------------------------------
  // The guard and the loop
  // --------------------------------------------------------------------------

  datatype Guard = Guard(armed: bool, code: Code)

  const ARMED := Guard(true, H3_REQUEST_CANCELLED)

  /** `Drop`: a reset of an open stream, nothing on a finished or reset one. */
  function DropGuard(g: Guard, w: Wire): Wire {
    if g.armed && w.terminal.Open? then w.(terminal := Reset(g.code)) else w
  }

  /** The hazard the guard is there for: a send half that goes away while it is open is
      implicitly finished. */
  function DropHalf(w: Wire): Wire {
    if w.terminal.Open? then w.(terminal := Fin) else w
  }

  datatype Result = Ok | Err

  /** Where the future is suspended: not polled yet, at the select, in `send_data` or
      `send_trailers` with tokens left to hand over, in `finish`, or gone, with what it
      returned if it did. */
  datatype Pc = Unpolled | Selecting | Writing(rest: seq<Token>) | Finishing | Gone(result: Option<Result>)

  /** The guard is made inside the async block, so there is none before the first poll. */
  datatype Send = Send(source: seq<Frame>, pos: nat, pc: Pc, guard: Option<Guard>, wire: Wire, sourcePolls: nat)

  /** How the awaited operation answers: pending or failed after some progress, or done.
      At the select the answer is that of the body source. */
  datatype Answer = NotYet(progress: nat) | Ready | Fail(progress: nat)

  /** One look at the current await; `cancelUp` says whether the cancel channel fired. */
  datatype Input = Input(cancelUp: bool, answer: Answer)

  const SILENCE := Input(false, NotYet(0))

  datatype SendStep = Tick(input: Input) | HardDrop

  function Start(source: seq<Frame>): Send {
    Send(source, 0, Unpolled, None, Wire([], Open), 0)
  }

  /** The first poll runs up to the loop, making the guard on the way. */
  function Enter(s: Send): Send {
    if s.pc.Unpolled? then s.(pc := Selecting, guard := Some(ARMED)) else s
  }

  /** The first k tokens of the frame being written reach the stream. */
  function Transfer(s: Send, k: nat): Send
    requires s.pc.Writing?
  {
    var n := Min(k, |s.pc.rest|);
    s.(pc := Writing(s.pc.rest[n..]), wire := s.wire.(tokens := s.wire.tokens + s.pc.rest[..n]))
  }

  /** The future goes away, by returning or by being dropped: first the guard acts, if it
      was made, and then the send half goes. */
  function Leave(s: Send, result: Option<Result>): Send {
    var w := if s.guard.Some? then DropGuard(s.guard.value, s.wire) else s.wire;
    s.(pc := Gone(result), wire := DropHalf(w))
  }

  /** `set_error_code(H3_INTERNAL_ERROR)` and an error return. */
  function LeaveFailed(s: Send): Send
    requires s.guard.Some?
  {
    Leave(s.(guard := Some(s.guard.value.(code := H3_INTERNAL_ERROR))), Some(Err))
  }

  function TickSelect(s: Send, i: Input): Send
    requires s.guard.Some?
  {
    if i.cancelUp then Leave(s, Some(Ok))
    else
      var polled := s.(sourcePolls := s.sourcePolls + 1);
      match i.answer
      case NotYet(_) => polled
      case Fail(_) => LeaveFailed(polled)
      case Ready =>
        if s.pos < |s.source| then polled.(pc := Writing(Encode(s.source[s.pos])), pos := s.pos + 1)
        else polled.(pc := Finishing)
  }

  function TickWrite(s: Send, a: Answer): Send
    requires s.pc.Writing? && s.guard.Some?
  {
    match a
    case NotYet(k) => Transfer(s, k)
    case Fail(k) => LeaveFailed(Transfer(s, k))
    case Ready => Transfer(s, |s.pc.rest|).(pc := Selecting)
  }

  function TickFinish(s: Send, a: Answer): Send
    requires s.guard.Some?
  {
    match a
    case NotYet(_) => s
    case Fail(_) => LeaveFailed(s)
    case Ready =>
      var disarmed := Some(s.guard.value.(armed := false));
      Leave(s.(wire := s.wire.(terminal := Fin), guard := disarmed), Some(Ok))
  }

  /** The guard exists exactly while the future runs, and stays on record after it. */
  predicate Guarded(s: Send) {
    !s.pc.Gone? ==> (s.guard.Some? <==> !s.pc.Unpolled?)
  }

  function Advance(s: Send, i: Input): (v: Send)
    requires Guarded(s)
    ensures Guarded(v) && !v.pc.Unpolled? && v.source == s.source
  {
    match s.pc
    case Unpolled => TickSelect(Enter(s), i)
    case Selecting => TickSelect(s, i)
    case Writing(_) => TickWrite(s, i.answer)
    case Finishing => TickFinish(s, i.answer)
    case Gone(_) => s
  }

  function SendNext(s: Send, step: SendStep): (v: Send)
    requires Guarded(s)
    ensures Guarded(v) && !v.pc.Unpolled? && v.source == s.source
  {
    match step
    case Tick(i) => Advance(s, i)
    case HardDrop => if s.pc.Gone? then s else Leave(s, None)
  }

  function SendRun(s: Send, steps: seq<SendStep>): (v: Send)
    requires Guarded(s)
    ensures Guarded(v) && v.source == s.source
  {
    if steps == [] then s else SendNext(SendRun(s, steps[..|steps| - 1]), steps[|steps| - 1])
  }

  predicate Cancelled(s: Send, i: Input) { (s.pc.Unpolled? || s.pc.Selecting?) && i.cancelUp }

  /** Whether the await looked at leaves the future pending. */
  predicate Suspends(s: Send, i: Input) { i.answer.NotYet? && !Cancelled(s, i) }

  /** One `poll` of the future: it runs until an await is pending, which is what happens at
      the latest when the script has nothing more to say. */
  function PollFuture(s: Send, script: seq<Input>): (v: Send)
    requires Guarded(s)
    ensures Guarded(v) && !v.pc.Unpolled? && v.source == s.source
    decreases |script|
  {
    if s.pc.Gone? then s
    else if script == [] then Advance(s, SILENCE)
    else if Suspends(s, script[0]) then Advance(s, script[0])
    else PollFuture(Advance(s, script[0]), script[1..])
  }

  // --------------------------------------------------------------------------
  // What every await keeps
  // --------------------------------------------------------------------------

  function Unwritten(pc: Pc): seq<Token> { if pc.Writing? then pc.rest else [] }

  ghost predicate RunningInv(s: Send) {
    && s.pos <= |s.source|
    && s.guard == Some(ARMED) && s.wire.terminal.Open?
    && s.wire.tokens + Unwritten(s.pc) == EncodeAll(s.source[..s.pos])
    && (s.pc.Finishing? ==> s.pos == |s.source|)
  }

  /** A future that was never polled left a finished stream with nothing on it; any other
      left FIN exactly if the guard was disarmed, and then behind the whole source. An error
      return left H3_INTERNAL_ERROR, and nothing else did. */
  ghost predicate GoneInv(s: Send) {
    && !s.wire.terminal.Open? && s.wire.tokens <= EncodeAll(s.source)
    && (s.pc == Gone(Some(Err)) <==> s.wire.terminal == Reset(H3_INTERNAL_ERROR))
    && (s.guard.None? ==> s.wire == Wire([], Fin) && s.pc == Gone(None) && s.sourcePolls == 0)
    && (s.guard.Some? ==>
          && (s.wire.terminal.Fin? <==> !s.guard.value.armed)
          && (s.wire.terminal.Fin? ==> s.pc == Gone(Some(Ok)) && s.wire.tokens == EncodeAll(s.source)))
  }

  ghost predicate SendInv(s: Send) {
    && s.pos <= |s.source|
    && match s.pc
       case Unpolled => s == Start(s.source)
       case Gone(_) => GoneInv(s)
       case _ => RunningInv(s)
  }

  lemma EnterKeepsInv(s: Send)
    requires SendInv(s) && s.pc.Unpolled?
    ensures SendInv(Enter(s))
  {
  }

  lemma TransferKeepsInv(s: Send, k: nat)
    requires SendInv(s) && s.pc.Writing?
    ensures SendInv(Transfer(s, k))
  {
    var n := Min(k, |s.pc.rest|);
    assert s.wire.tokens + s.pc.rest[..n] + s.pc.rest[n..] == s.wire.tokens + s.pc.rest;
  }

  /** Bytes on the wire are a prefix of the source's encoding. */
  lemma WireIsPrefix(s: Send)
    requires SendInv(s)
    ensures s.wire.tokens <= EncodeAll(s.source)
  {
    EncodeAllSplit(s.source, s.pos);
    if !s.pc.Gone? { assert s.wire.tokens <= s.wire.tokens + Unwritten(s.pc); }
  }

  lemma LeaveKeepsInv(s: Send, result: Option<Result>)
    requires SendInv(s) && !s.pc.Gone? && !s.pc.Unpolled? && result != Some(Err)
    ensures SendInv(Leave(s, result)) && SendInv(LeaveFailed(s))
  {
    WireIsPrefix(s);
  }

  lemma TakeKeepsInv(s: Send)
    requires SendInv(s) && s.pc.Selecting? && s.pos < |s.source|
    ensures SendInv(s.(sourcePolls := s.sourcePolls + 1, pc := Writing(Encode(s.source[s.pos])), pos := s.pos + 1))
  {
    EncodeAllSplit(s.source, s.pos);
    assert s.wire.tokens + [] == s.wire.tokens;
  }

  lemma SelectKeepsInv(s: Send, i: Input)
    requires SendInv(s) && s.pc.Selecting?
    ensures SendInv(TickSelect(s, i))
  {
    var polled := s.(sourcePolls := s.sourcePolls + 1);
    if i.cancelUp {
      LeaveKeepsInv(s, Some(Ok));
    } else if i.answer.Fail? {
      LeaveKeepsInv(polled, None);
    } else if i.answer.Ready? && s.pos < |s.source| {
      TakeKeepsInv(s);
    }
  }

  lemma FinishKeepsInv(s: Send, a: Answer)
    requires SendInv(s) && s.pc.Finishing?
    ensures SendInv(TickFinish(s, a))
  {
    LeaveKeepsInv(s, None);
    assert s.source[..s.pos] == s.source;
    assert s.wire.tokens + [] == s.wire.tokens;
  }

  lemma WriteKeepsInv(s: Send, a: Answer)
    requires SendInv(s) && s.pc.Writing?
    ensures SendInv(TickWrite(s, a))
  {
    match a
    case NotYet(k) => TransferKeepsInv(s, k);
    case Fail(k) =>
      TransferKeepsInv(s, k);
      LeaveKeepsInv(Transfer(s, k), None);
    case Ready => TransferKeepsInv(s, |s.pc.rest|);
  }

  lemma SendNextKeepsInv(s: Send, step: SendStep)
    requires SendInv(s)
    ensures SendInv(SendNext(s, step)) && SendNext(s, step).source == s.source
  {
    match step
    case HardDrop => if !s.pc.Gone? && !s.pc.Unpolled? { LeaveKeepsInv(s, None); }
    case Tick(i) =>
      match s.pc
      case Unpolled =>
        EnterKeepsInv(s);
        SelectKeepsInv(Enter(s), i);
      case Selecting => SelectKeepsInv(s, i);
      case Writing(_) => WriteKeepsInv(s, i.answer);
      case Finishing => FinishKeepsInv(s, i.answer);
      case Gone(_) =>
  }

  lemma {:induction false} RunKeepsInv(s: Send, steps: seq<SendStep>)
    requires SendInv(s)
    ensures SendInv(SendRun(s, steps)) && SendRun(s, steps).source == s.source
  {
    if steps != [] {
      var front, last := steps[..|steps| - 1], steps[|steps| - 1];
      RunKeepsInv(s, front);
      SendNextKeepsInv(SendRun(s, front), last);
    }
  }

  lemma SendRunKeepsInv(source: seq<Frame>, steps: seq<SendStep>)
    ensures SendInv(SendRun(Start(source), steps)) && SendRun(Start(source), steps).source == source
  {
    RunKeepsInv(Start(source), steps);
  }

  lemma {:induction false} PollKeepsInv(s: Send, script: seq<Input>)
    requires SendInv(s)
    ensures SendInv(PollFuture(s, script))
    decreases |script|
  {
    if !s.pc.Gone? {
      var i := if script == [] then SILENCE else script[0];
      SendNextKeepsInv(s, Tick(i));
      if script != [] && !Suspends(s, i) { PollKeepsInv(Advance(s, i), script[1..]); }
    }
  }

  // --------------------------------------------------------------------------
  // One poll runs on until an await is pending
  // --------------------------------------------------------------------------

  function Ticks(looks: seq<Input>): (steps: seq<SendStep>)
    ensures |steps| == |looks| && forall k :: 0 <= k < |looks| ==> steps[k] == Tick(looks[k])
  {
    seq(|looks|, k requires 0 <= k < |looks| => Tick(looks[k]))
  }

  function AfterLooks(s: Send, looks: seq<Input>): Send
    requires Guarded(s)
  {
    SendRun(s, Ticks(looks))
  }

  lemma {:induction false} SendRunFirst(s: Send, step: SendStep, rest: seq<SendStep>)
    requires Guarded(s)
    ensures SendRun(s, [step] + rest) == SendRun(SendNext(s, step), rest)
  {
    if rest == [] {
      assert [step] + rest == [step] && [step][..0] == [];
    } else {
      var n := |rest| - 1;
      assert ([step] + rest)[..|[step] + rest| - 1] == [step] + rest[..n];
      SendRunFirst(s, step, rest[..n]);
    }
  }

  lemma AfterFirstLook(s: Send, i: Input, rest: seq<Input>)
    requires Guarded(s)
    ensures AfterLooks(s, [i] + rest) == AfterLooks(Advance(s, i), rest)
  {
    assert Ticks([i] + rest) == [Tick(i)] + Ticks(rest);
    SendRunFirst(s, Tick(i), Ticks(rest));
  }

  /** Look k found the future suspended and its await pending. */
  ghost predicate PendingAt(s: Send, looks: seq<Input>, k: nat)
    requires Guarded(s) && k < |looks|
  {
    Suspends(AfterLooks(s, looks[..k]), looks[k])
  }

  /** These looks are one poll: it goes on as long as its awaits are done, and stops when
      one is pending or when the future has returned. */
  ghost predicate OnePoll(s: Send, looks: seq<Input>)
    requires Guarded(s)
  {
    && looks != []
    && (forall k :: 0 <= k < |looks| ==> !AfterLooks(s, looks[..k]).pc.Gone?)
    && (forall k :: 0 <= k < |looks| - 1 ==> !PendingAt(s, looks, k))
    && (AfterLooks(s, looks).pc.Gone? || PendingAt(s, looks, |looks| - 1))
  }

  lemma OneLookPoll(s: Send, i: Input)
    requires Guarded(s) && !s.pc.Gone? && (Suspends(s, i) || Advance(s, i).pc.Gone?)
    ensures OnePoll(s, [i]) && AfterLooks(s, [i]) == Advance(s, i)
  {
    assert [i][..0] == [] && [i] + [] == [i];
    AfterFirstLook(s, i, []);
  }

  lemma PendingLater(s: Send, i: Input, rest: seq<Input>, k: nat)
    requires Guarded(s) && 0 < k <= |rest|
    ensures PendingAt(s, [i] + rest, k) <==> PendingAt(Advance(s, i), rest, k - 1)
    ensures AfterLooks(s, ([i] + rest)[..k]) == AfterLooks(Advance(s, i), rest[..k - 1])
  {
    assert ([i] + rest)[..k] == [i] + rest[..k - 1];
    AfterFirstLook(s, i, rest[..k - 1]);
  }

  lemma LongerPoll(s: Send, i: Input, rest: seq<Input>)
    requires Guarded(s) && !s.pc.Gone? && !Suspends(s, i) && OnePoll(Advance(s, i), rest)
    ensures OnePoll(s, [i] + rest) && AfterLooks(s, [i] + rest) == AfterLooks(Advance(s, i), rest)
  {
    var looks := [i] + rest;
    AfterFirstLook(s, i, rest);
    assert looks[..0] == [];
    forall k | 0 <= k < |looks|
      ensures !AfterLooks(s, looks[..k]).pc.Gone? && (k < |looks| - 1 ==> !PendingAt(s, looks, k))
    {
      if k > 0 { PendingLater(s, i, rest, k); }
    }
    PendingLater(s, i, rest, |rest|);
  }

  /** A poll is the looks at its script, one after the other, up to the first that is
      pending or makes the future return; and if the script has no such look, all of it and
      then one at an await that has not answered. */
  lemma {:induction false} PollRunsUntilPending(s: Send, script: seq<Input>) returns (looks: seq<Input>)
    requires Guarded(s) && !s.pc.Gone?
    ensures looks <= script + [SILENCE]
    ensures OnePoll(s, looks) && PollFuture(s, script) == AfterLooks(s, looks)
    decreases |script|
  {
    var i := if script == [] then SILENCE else script[0];
    var v := Advance(s, i);
    if Suspends(s, i) || v.pc.Gone? {
      looks := [i];
      OneLookPoll(s, i);
    } else {
      var rest := PollRunsUntilPending(v, script[1..]);
      looks := [i] + rest;
      LongerPoll(s, i, rest);
      assert script + [SILENCE] == [i] + (script[1..] + [SILENCE]);
    }
  }

  // --------------------------------------------------------------------------
  // How a send ends
  // --------------------------------------------------------------------------

  /** `finish` succeeded, which is tried only once the source has ended. */
  predicate Completes(s: Send, step: SendStep) {
    s.pc.Finishing? && step.Tick? && step.input.answer.Ready?
  }

  /** The future was dropped before anyone polled it. */
  predicate NeverRan(s: Send, step: SendStep) {
    s.pc.Unpolled? && step.HardDrop?
  }

  /** The source, a write or `finish` reported an error. */
  predicate Fails(s: Send, step: SendStep) {
    step.Tick? && step.input.answer.Fail? && !Cancelled(s, step.input)
  }

  /** The select saw the cancel signal, or the future was dropped at one of its awaits. */
  predicate Interrupts(s: Send, step: SendStep) {
    if step.HardDrop? then !s.pc.Unpolled? else Cancelled(s, step.input)
  }

  /** Whenever the send half is gone there was one last step, nothing changed after it, and the
      kind of that step alone decides how the peer sees the stream end: FIN exactly for a
      successful finish, behind the whole source, or for a future that never ran, behind
      nothing; H3_INTERNAL_ERROR exactly for a source or transport error;
      H3_REQUEST_CANCELLED exactly for cancellation or a drop at an await. */
  lemma {:induction false} ExactTerminal(source: seq<Frame>, steps: seq<SendStep>) returns (k: nat)
    requires SendRun(Start(source), steps).pc.Gone?
    ensures k < |steps|
    ensures var before := SendRun(Start(source), steps[..k]);
            var end := SendRun(Start(source), steps);
            && !before.pc.Gone? && end == SendNext(before, steps[k])
            && (end.wire.terminal == Fin <==> Completes(before, steps[k]) || NeverRan(before, steps[k]))
            && (end.wire.terminal == Reset(H3_INTERNAL_ERROR) <==> Fails(before, steps[k]))
            && (end.wire.terminal == Reset(H3_REQUEST_CANCELLED) <==> Interrupts(before, steps[k]))
            && (Completes(before, steps[k]) ==> end.wire.tokens == EncodeAll(source))
            && (NeverRan(before, steps[k]) ==> end.wire.tokens == [] && end.sourcePolls == 0)
  {
    var n := |steps| - 1;
    var before := SendRun(Start(source), steps[..n]);
    SendRunKeepsInv(source, steps[..n]);
    SendRunKeepsInv(source, steps);
    if before.pc.Gone? {
      k := ExactTerminal(source, steps[..n]);
      assert steps[..n][..k] == steps[..k];
    } else {
      k := n;
    }
  }

  /** And such a step does end it: the future returns, or goes away, exactly at these, with
      Ok if it completed or was cancelled, with an error if something failed. */
  lemma EndsExactly(source: seq<Frame>, steps: seq<SendStep>, step: SendStep)
    requires !SendRun(Start(source), steps).pc.Gone?
    ensures var s := SendRun(Start(source), steps);
            var v := SendNext(s, step);
            && (v.pc == Gone(Some(Ok)) <==> Completes(s, step) || (step.Tick? && Cancelled(s, step.input)))
            && (v.pc == Gone(Some(Err)) <==> Fails(s, step))
            && (v.pc == Gone(None) <==> step.HardDrop?)
  {
    SendRunKeepsInv(source, steps);
  }

  /** The await at which the future is suspended, not counting what it has still to write. */
  predicate SameAwait(p: Pc, q: Pc) {
    || (p.Unpolled? && q.Selecting?) || (p.Selecting? && q.Selecting?)
    || (p.Writing? && q.Writing?) || (p.Finishing? && q.Finishing?)
  }

  /** How many tokens of the frame in hand a look hands over: all if the write is done, else
      as far as it got. */
  function HandedOver(s: Send, a: Answer): nat {
    if !s.pc.Writing? then 0 else if a.Ready? then |s.pc.rest| else Min(a.progress, |s.pc.rest|)
  }

  /** A look leaves the future at its await exactly if that is pending, takes exactly one
      frame from a source that has one ready and nothing otherwise, and puts on the wire
      exactly what the write hands over. */
  lemma LookIsExact(source: seq<Frame>, steps: seq<SendStep>, i: Input)
    requires !SendRun(Start(source), steps).pc.Gone?
    ensures var s := SendRun(Start(source), steps);
            var v := Advance(s, i);
            var asked := (s.pc.Unpolled? || s.pc.Selecting?) && !i.cancelUp;
            && (SameAwait(s.pc, v.pc) <==> Suspends(s, i))
            && v.sourcePolls == s.sourcePolls + (if asked then 1 else 0)
            && v.pos == s.pos + (if asked && i.answer.Ready? && s.pos < |source| then 1 else 0)
            && (v.pc.Writing? && !s.pc.Writing? <==> v.pos > s.pos)
            && (v.pc.Finishing? && !s.pc.Finishing? <==> asked && i.answer.Ready? && s.pos == |source|)
            && v.wire.tokens == s.wire.tokens + Unwritten(s.pc)[..HandedOver(s, i.answer)]
  {
    SendRunKeepsInv(source, steps);
  }

  lemma {:induction false} GuardedIffPolled(source: seq<Frame>, steps: seq<SendStep>)
    ensures var v := SendRun(Start(source), steps);
            && (v.pc.Unpolled? <==> steps == [])
            && (v.guard.Some? <==> steps != [] && steps[0].Tick?)
  {
    if |steps| > 1 { GuardedIffPolled(source, steps[..|steps| - 1]); }
  }

  /** FIN means that the whole source was written, with one exact exception: a future that
      was dropped before its first poll had no guard yet, and finishes an empty stream. */
  lemma {:induction false} FinIsWholeUnlessUnpolled(source: seq<Frame>, steps: seq<SendStep>)
    ensures var v := SendRun(Start(source), steps);
            v.wire.terminal == Fin && v.wire.tokens != EncodeAll(source)
            <==> source != [] && steps != [] && steps[0].HardDrop?
  {
    SendRunKeepsInv(source, steps);
    GuardedIffPolled(source, steps);
  }

  // --------------------------------------------------------------------------
  // A send that is left alone completes
  // --------------------------------------------------------------------------

  const GO := Tick(Input(false, Answer.Ready))

  function SendLeft(s: Send): int {
    2 * (|s.source| - s.pos)
    + match s.pc case Unpolled => 2 case Selecting => 2 case Writing(_) => 3 case Finishing => 1 case Gone(_) => 0
  }

  lemma SenderAdvances(s: Send)
    requires SendInv(s) && !s.pc.Gone?
    ensures var v := SendNext(s, GO);
            SendLeft(v) < SendLeft(s) && v.guard.Some? && (v.pc.Gone? ==> v.wire.terminal.Fin?)
  {
    if s.pc.Unpolled? { EnterKeepsInv(s); }
  }

  // --------------------------------------------------------------------------
  // After cancellation
  // --------------------------------------------------------------------------

  ghost predicate UnderCancel(steps: seq<SendStep>) {
    forall k :: 0 <= k < |steps| && steps[k].Tick? ==> steps[k].input.cancelUp
  }

  /** How a body that can no longer read its source may differ from an earlier `b`: FIN
      only if the loop had already seen the end, or had not even been entered. */
  ghost predicate ReadNothingSince(b: Send, v: Send) {
    && v.sourcePolls == b.sourcePolls && v.pos == b.pos
    && (v.wire.terminal == Fin ==> b.pc.Finishing? || b.wire.terminal == Fin || b.pc.Unpolled?)
    && (v.pc.Finishing? ==> b.pc.Finishing?)
    && (v.pc.Unpolled? ==> b.pc.Unpolled?)
  }

  lemma CancelledStep(s: Send, step: SendStep)
    requires SendInv(s) && (step.Tick? ==> step.input.cancelUp)
    ensures ReadNothingSince(s, SendNext(s, step))
  {
  }

  /** Once the cancel signal is up the source is never polled again, and the stream can end
      with FIN only if the loop had already seen the source's end, or if the future had not
      been polled at all. */
  lemma {:induction false} NothingReadAfterCancel(s: Send, steps: seq<SendStep>)
    requires SendInv(s) && UnderCancel(steps)
    ensures ReadNothingSince(s, SendRun(s, steps))
  {
    if steps != [] {
      var n := |steps| - 1;
      NothingReadAfterCancel(s, steps[..n]);
      RunKeepsInv(s, steps[..n]);
      CancelledStep(SendRun(s, steps[..n]), steps[n]);
    }
  }
}
