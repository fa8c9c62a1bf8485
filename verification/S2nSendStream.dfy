/** The s2n `SendStream`: a write buffer and a chunk in flight that together behave as one
    byte queue in front of the QUIC stream. */
module S2nSendStream {
  import opened Options

  /** h3 `WriteBuf` by the contract of `Buf`: `chunk()` is the first piece of what is left,
      and is empty only when nothing is left. */
  type WriteBuf = pieces: seq<seq<Byte>> | forall i :: 0 <= i < |pieces| ==> |pieces[i]| > 0
    witness []

  function Remaining(b: seq<seq<Byte>>): seq<Byte> {
    if b == [] then [] else b[0] + Remaining(b[1..])
  }

  /** A u64 code that is no QUIC varint is replaced by s2n's UNKNOWN. */
  datatype ResetCode = Application(code: nat) | Unknown

  const MAX_VARINT: nat := 0x3FFF_FFFF_FFFF_FFFF

  datatype Terminal = Open | Fin | Reset(code: ResetCode)

  /** How one `poll_send` answers, with the number of bytes it took if it is not the whole
      chunk. A closed stream takes nothing and fails. */
  datatype Answer = NotYet(taken: nat) | Whole | Fail(taken: nat)

  datatype Polled = Pending | ReadyOk | ReadyErr

  /** `sent` is what the QUIC stream holds; `accepted` is every byte of every accepted
      `send_data`. */
  datatype Stream = Stream(
    sent: seq<Byte>,
    terminal: Terminal,
    chunk: Option<seq<Byte>>,
    buf: Option<WriteBuf>,
    accepted: seq<Byte>)
  {
    /** Both stages, in the order in which they will be sent. */
    function Queue(): seq<Byte> {
      (if chunk.Some? then chunk.value else []) + (if buf.Some? then Remaining(buf.value) else [])
    }
  }

  function New(): Stream { Stream([], Open, None, None, []) }

  function Effective(t: Terminal, script: seq<Answer>): Answer {
    if !t.Open? then Fail(0) else if script == [] then NotYet(0) else script[0]
  }

  function Rest(script: seq<Answer>): seq<Answer> {
    if script == [] then [] else script[1..]
  }

  /** `poll_send` moves the first k bytes of the chunk to the stream. */
  function Move(st: Stream, k: nat): Stream
    requires st.chunk.Some?
  {
    var n := Min(k, |st.chunk.value|);
    st.(sent := st.sent + st.chunk.value[..n], chunk := Some(st.chunk.value[n..]))
  }

  datatype Flushed = Flushed(stream: Stream, result: Polled)

  /** `poll_ready` from the point where the chunk, if any, has been flushed. */
  function Refill(st: Stream, script: seq<Answer>): Flushed
    requires st.chunk.None?
    decreases if st.buf.Some? then |st.buf.value| else 0, 0
  {
    match st.buf
    case None => Flushed(st, ReadyOk)
    case Some(b) =>
      if b == [] then Flushed(st.(buf := None), ReadyOk)
      else Flush(st.(chunk := Some(b[0]), buf := Some(b[1..])), script)
  }

  function Flush(st: Stream, script: seq<Answer>): Flushed
    decreases if st.buf.Some? then |st.buf.value| else 0, 1
  {
    if st.chunk.None? then Refill(st, script)
    else match Effective(st.terminal, script)
      case NotYet(k) => Flushed(Move(st, k), Pending)
      case Fail(k) => Flushed(Move(st, k), ReadyErr)
      case Whole => Refill(Move(st, |st.chunk.value|).(chunk := None), Rest(script))
  }

  function Accepting(st: Stream, data: WriteBuf): Flushed {
    if st.buf.Some? then Flushed(st, ReadyErr)
    else Flushed(st.(buf := Some(data), accepted := st.accepted + Remaining(data)), ReadyOk)
  }

  /** `poll_finish`; `ok` is what the stream's own `finish()` says. */
  function Finishing(st: Stream, script: seq<Answer>, ok: bool): Flushed {
    var f := Flush(st, script);
    if !f.result.ReadyOk? then f
    else if ok && f.stream.terminal.Open? then Flushed(f.stream.(terminal := Fin), ReadyOk)
    else Flushed(f.stream, if ok then ReadyOk else ReadyErr)
  }

  function ResetStream(st: Stream, code: nat): Stream {
    if st.terminal.Open? then
      st.(terminal := Reset(if code <= MAX_VARINT then Application(code) else Unknown))
    else st
  }

  datatype Op =
    | PollReady(script: seq<Answer>)
    | Accept(data: WriteBuf)
    | Finish(script: seq<Answer>, ok: bool)
    | Abort(code: nat)

  function Apply(st: Stream, op: Op): Stream {
    match op
    case PollReady(script) => Flush(st, script).stream
    case Accept(data) => Accepting(st, data).stream
    case Finish(script, ok) => Finishing(st, script, ok).stream
    case Abort(code) => ResetStream(st, code)
  }

  function Run(ops: seq<Op>): Stream {
    if ops == [] then New() else Apply(Run(ops[..|ops| - 1]), ops[|ops| - 1])
  }

  // --------------------------------------------------------------------------
  // Refinement of a byte queue
  // --------------------------------------------------------------------------

  /** A chunk in flight always comes with its buffer, so that `send_data` is refused. */
  ghost predicate Staged(st: Stream) {
    st.chunk.Some? ==> st.buf.Some?
  }

  /** The effect of a flush on the queue: some prefix moves to the stream, nothing else. */
  ghost predicate FlushesQueue(st: Stream, f: Flushed) {
    && f.stream.sent + f.stream.Queue() == st.sent + st.Queue()
    && st.sent <= f.stream.sent
    && f.stream.accepted == st.accepted && f.stream.terminal == st.terminal
    && (!st.terminal.Open? ==> f.stream.sent == st.sent)
    && Staged(f.stream)
    && (f.result.ReadyOk? ==> f.stream.chunk.None? && f.stream.buf.None?)
  }

  lemma MoveMovesPrefix(st: Stream, k: nat)
    requires st.chunk.Some?
    ensures var v := Move(st, k); v.sent + v.Queue() == st.sent + st.Queue() && st.sent <= v.sent
  {
    var n := Min(k, |st.chunk.value|);
    assert st.chunk.value == st.chunk.value[..n] + st.chunk.value[n..];
  }

  lemma FlushesQueueTrans(st: Stream, u: Stream, f: Flushed)
    requires FlushesQueue(u, f)
    requires u.sent + u.Queue() == st.sent + st.Queue() && st.sent <= u.sent
    requires u.accepted == st.accepted && u.terminal == st.terminal
    requires !st.terminal.Open? ==> u.sent == st.sent
    ensures FlushesQueue(st, f)
  {
  }

  lemma {:induction false} RefillRefines(st: Stream, script: seq<Answer>)
    requires st.chunk.None?
    ensures FlushesQueue(st, Refill(st, script))
    decreases if st.buf.Some? then |st.buf.value| else 0, 0
  {
    match st.buf
    case None =>
    case Some(b) =>
      if b != [] {
        var u := st.(chunk := Some(b[0]), buf := Some(b[1..]));
        FlushRefines(u, script);
        FlushesQueueTrans(st, u, Flush(u, script));
      }
  }

  lemma {:induction false} FlushRefines(st: Stream, script: seq<Answer>)
    requires Staged(st)
    ensures FlushesQueue(st, Flush(st, script))
    decreases if st.buf.Some? then |st.buf.value| else 0, 1
  {
    if st.chunk.None? {
      RefillRefines(st, script);
    } else {
      match Effective(st.terminal, script)
      case NotYet(k) => MoveMovesPrefix(st, k);
      case Fail(k) => MoveMovesPrefix(st, k);
      case Whole =>
        MoveMovesPrefix(st, |st.chunk.value|);
        var u := Move(st, |st.chunk.value|).(chunk := None);
        assert u.Queue() == Move(st, |st.chunk.value|).Queue();
        RefillRefines(u, Rest(script));
        FlushesQueueTrans(st, u, Refill(u, Rest(script)));
    }
  }

  ghost predicate StreamInv(st: Stream) {
    st.sent + st.Queue() == st.accepted && Staged(st)
  }

  lemma ApplyKeepsInv(st: Stream, op: Op)
    requires StreamInv(st)
    ensures var v := Apply(st, op);
            && StreamInv(v)
            && st.sent <= v.sent && st.accepted <= v.accepted
            && (!st.terminal.Open? ==> v.terminal == st.terminal && v.sent == st.sent)
            && (v.terminal.Fin? && !st.terminal.Fin? ==> op.Finish? && v.sent == v.accepted)
  {
    match op
    case PollReady(script) => FlushRefines(st, script);
    case Accept(data) =>
      if st.buf.None? {
        assert st.sent + ([] + Remaining(data)) == (st.sent + ([] + [])) + Remaining(data);
      }
    case Finish(script, ok) => FlushRefines(st, script);
    case Abort(code) =>
  }

  // --------------------------------------------------------------------------
  // Why a call answers as it does
  // --------------------------------------------------------------------------

  /** How many chunks have still to be sent. */
  function Pieces(st: Stream): nat {
    (if st.chunk.Some? then 1 else 0) + (if st.buf.Some? then |st.buf.value| else 0)
  }

  /** How many chunks in a row the QUIC stream will take whole. */
  function Wholes(script: seq<Answer>): (n: nat)
    ensures n <= |script|
    ensures forall k :: 0 <= k < n ==> script[k].Whole?
    ensures n < |script| ==> !script[n].Whole?
  {
    if script == [] || !script[0].Whole? then 0 else 1 + Wholes(script[1..])
  }

  /** Something is left to send, and the QUIC stream is closed or answers the first chunk
      that it does not take whole with an error. */
  predicate Broken(st: Stream, script: seq<Answer>) {
    if st.terminal.Open?
    then Wholes(script) < Pieces(st) && Wholes(script) < |script| && script[Wholes(script)].Fail?
    else Pieces(st) > 0
  }

  /** Something is left to send, and the open stream takes no more of it for now. */
  predicate Blocked(st: Stream, script: seq<Answer>) {
    && st.terminal.Open? && Wholes(script) < Pieces(st)
    && (Wholes(script) == |script| || script[Wholes(script)].NotYet?)
  }

  lemma {:induction false} RefillAnswers(st: Stream, script: seq<Answer>)
    requires st.chunk.None?
    ensures var r := Refill(st, script).result;
            (r.ReadyErr? <==> Broken(st, script)) && (r.Pending? <==> Blocked(st, script))
    decreases if st.buf.Some? then |st.buf.value| else 0, 0
  {
    match st.buf
    case None =>
    case Some(b) => if b != [] { FlushAnswers(st.(chunk := Some(b[0]), buf := Some(b[1..])), script); }
  }

  /** A flush fails exactly if it is broken and is pending exactly if it is blocked: flow
      control never looks like an error, and an error never like a reason to wait. */
  lemma {:induction false} FlushAnswers(st: Stream, script: seq<Answer>)
    requires Staged(st)
    ensures var r := Flush(st, script).result;
            && (r.ReadyErr? <==> Broken(st, script))
            && (r.Pending? <==> Blocked(st, script))
            && (r.ReadyOk? <==> Pieces(st) == 0 || (st.terminal.Open? && Pieces(st) <= Wholes(script)))
    decreases if st.buf.Some? then |st.buf.value| else 0, 1
  {
    if st.chunk.None? {
      RefillAnswers(st, script);
    } else if Effective(st.terminal, script).Whole? {
      RefillAnswers(Move(st, |st.chunk.value|).(chunk := None), Rest(script));
    }
  }

  /** So does `poll_finish`, whose own `finish` comes after a complete flush and may fail. */
  lemma FinishAnswers(st: Stream, script: seq<Answer>, ok: bool)
    requires Staged(st)
    ensures var r := Finishing(st, script, ok).result;
            var flushed := Pieces(st) == 0 || (st.terminal.Open? && Pieces(st) <= Wholes(script));
            && (r.Pending? <==> Blocked(st, script))
            && (r.ReadyErr? <==> Broken(st, script) || (flushed && !ok))
            && (r.ReadyOk? <==> flushed && ok)
  {
    FlushAnswers(st, script);
  }

  /** `send_data` takes all of the data, behind everything already queued, or nothing of it,
      and is ready with an error exactly if a buffer is still staged. */
  lemma AcceptIsAllOrNothing(st: Stream, data: WriteBuf)
    requires Staged(st)
    ensures var f := Accepting(st, data);
            && (f.result.ReadyOk? <==> st.buf.None?) && (f.result.ReadyErr? <==> st.buf.Some?)
            && f.stream.accepted == st.accepted + (if f.result.ReadyOk? then Remaining(data) else [])
            && f.stream.Queue() == st.Queue() + (if f.result.ReadyOk? then Remaining(data) else [])
            && f.stream.sent == st.sent && f.stream.terminal == st.terminal
  {
    if st.buf.None? {
      assert [] + Remaining(data) == ([] + []) + Remaining(data);
    } else {
      assert st.Queue() + [] == st.Queue() && st.accepted + [] == st.accepted;
    }
  }

  /** `reset` ends an open stream with the code it is given, or with UNKNOWN exactly for a
      code that no varint can hold (section 16 of RFC 9000), and sends nothing. */
  lemma ResetIsExact(st: Stream, code: nat)
    ensures var v := ResetStream(st, code);
            && (st.terminal.Open? && code < 0x4000_0000_0000_0000 ==> v.terminal == Terminal.Reset(Application(code)))
            && (st.terminal.Open? && code >= 0x4000_0000_0000_0000 ==> v.terminal == Terminal.Reset(Unknown))
            && (!st.terminal.Open? ==> v == st)
            && v.sent == st.sent && v.Queue() == st.Queue()
  {
  }

  /** On a stream that is open, `poll_finish` succeeds exactly when it puts FIN, and then
      behind every accepted byte. On one that was reset it may succeed without. */
  lemma FinishIsFin(st: Stream, script: seq<Answer>, ok: bool)
    requires StreamInv(st) && st.terminal.Open?
    ensures var f := Finishing(st, script, ok);
            && (f.result.ReadyOk? <==> f.stream.terminal.Fin?)
            && (f.stream.terminal.Fin? ==> f.stream.sent == f.stream.accepted)
  {
    FlushRefines(st, script);
  }

  /** Over any sequence of calls, whatever the stream answers: the bytes on the stream,
      then the chunk, then the buffer are exactly the accepted bytes in order. */
  lemma {:induction false} RefinesByteQueue(ops: seq<Op>)
    ensures var st := Run(ops); st.sent + st.Queue() == st.accepted && Staged(st)
  {
    if ops != [] {
      RefinesByteQueue(ops[..|ops| - 1]);
      ApplyKeepsInv(Run(ops[..|ops| - 1]), ops[|ops| - 1]);
    }
  }

  /** A stream that ended with FIN got it from one `poll_finish`, at which point it held
      every byte accepted so far, and nothing was added to it since. */
  lemma {:induction false} FinSealsEverything(ops: seq<Op>) returns (k: nat)
    requires Run(ops).terminal.Fin?
    ensures k < |ops| && ops[k].Finish?
    ensures var at := Run(ops[..k + 1]);
            at.terminal.Fin? && at.sent == at.accepted && Run(ops).sent == at.sent
    ensures Run(ops[..k]).terminal.Open?
  {
    var n := |ops| - 1;
    RefinesByteQueue(ops[..n]);
    ApplyKeepsInv(Run(ops[..n]), ops[n]);
    if Run(ops[..n]).terminal.Fin? {
      k := FinSealsEverything(ops[..n]);
      assert ops[..n][..k] == ops[..k] && ops[..n][..k + 1] == ops[..k + 1];
    } else {
      k := n;
      assert ops[..n + 1] == ops;
    }
  }

  /** A reset leaves a prefix of the accepted bytes and is never followed by FIN. */
  lemma {:induction false} ResetLeavesPrefix(ops: seq<Op>, more: seq<Op>)
    requires Run(ops).terminal.Reset?
    ensures var v := Run(ops + more);
            v.terminal == Run(ops).terminal && v.sent == Run(ops).sent && v.sent <= v.accepted
  {
    if more == [] {
      assert ops + more == ops;
      RefinesByteQueue(ops);
    } else {
      var n := |more| - 1;
      assert (ops + more)[..|ops + more| - 1] == ops + more[..n];
      ResetLeavesPrefix(ops, more[..n]);
      RefinesByteQueue(ops + more[..n]);
      ApplyKeepsInv(Run(ops + more[..n]), more[n]);
    }
  }

  /** On an open stream that takes every chunk the flush gets through. */
  lemma {:induction false} FlushGetsThrough(st: Stream, script: seq<Answer>)
    requires Staged(st) && st.terminal.Open?
    requires |script| > if st.buf.Some? then |st.buf.value| else 0
    requires forall i :: 0 <= i < |script| ==> script[i].Whole?
    ensures Flush(st, script).result.ReadyOk?
    decreases if st.buf.Some? then |st.buf.value| else 0, if st.chunk.Some? then 0 else 1
  {
    if st.buf.Some? {
      var b := st.buf.value;
      if st.chunk.None? {
        if b != [] { FlushGetsThrough(st.(chunk := Some(b[0]), buf := Some(b[1..])), script); }
      } else if b != [] {
        FlushGetsThrough(Move(st, |st.chunk.value|).(chunk := Some(b[0]), buf := Some(b[1..])), script[1..]);
      }
    }
  }

  // --------------------------------------------------------------------------
  // The stream on mutable state
  // --------------------------------------------------------------------------

  /** The s2n-quic stream underneath. */
  class QuicStream {
    var sent: seq<Byte>
    var terminal: Terminal

    constructor ()
      ensures sent == [] && terminal == Open
    {
      sent, terminal := [], Open;
    }

    /** Takes a prefix of the chunk and gives back what is left of it. */
    method PollSend(chunk: seq<Byte>, script: seq<Answer>) returns (r: Polled, left: seq<Byte>)
      modifies this
      ensures terminal == old(terminal)
      ensures sent + left == old(sent) + chunk && |left| <= |chunk| && left == chunk[|chunk| - |left|..]
      ensures match Effective(terminal, script)
              case NotYet(k) => r == Pending && left == chunk[Min(k, |chunk|)..]
              case Fail(k) => r == ReadyErr && left == chunk[Min(k, |chunk|)..]
              case Whole => r == ReadyOk && left == []
      ensures sent == old(sent) + chunk[..|chunk| - |left|]
    {
      var n := |chunk|;
      r := ReadyOk;
      match Effective(terminal, script) {
        case NotYet(k) =>
          n := Min(k, n);
          r := Pending;
        case Fail(k) =>
          n := Min(k, n);
          r := ReadyErr;
        case Whole =>
      }
      assert chunk == chunk[..n] + chunk[n..];
      sent := sent + chunk[..n];
      left := chunk[n..];
    }
  }

  class SendStream {
    const stream: QuicStream
    var chunk: Option<seq<Byte>>
    var buf: Option<WriteBuf>
    ghost var accepted: seq<Byte>

    ghost function View(): Stream
      reads this, stream
    {
      Stream(stream.sent, stream.terminal, chunk, buf, accepted)
    }

    constructor (stream: QuicStream)
      requires stream.sent == [] && stream.terminal == Open
      ensures View() == New() && this.stream == stream
    {
      this.stream := stream;
      chunk, buf, accepted := None, None, [];
    }

    method PollReady(script: seq<Answer>) returns (r: Polled)
      modifies this, stream
      ensures Flushed(View(), r) == Flush(old(View()), script)
    {
      var k := script;
      while true
        invariant Flush(View(), k) == Flush(old(View()), script)
        decreases if buf.Some? then |Remaining(buf.value)| else 0
      {
        if chunk.Some? {
          var sent, left := stream.PollSend(chunk.value, k);
          chunk := Some(left);
          if sent != ReadyOk {
            return sent;
          }
          chunk := None;
          k := Rest(k);
        }
        if buf.None? {
          return ReadyOk;
        }
        if buf.value == [] {
          buf := None;
          return ReadyOk;
        }
        var first := buf.value[0];
        chunk := Some(first);
        buf := Some(buf.value[1..]);
      }
    }

    method SendData(data: WriteBuf) returns (r: Polled)
      modifies this
      ensures Flushed(View(), r) == Accepting(old(View()), data)
    {
      if buf.Some? {
        return ReadyErr;
      }
      buf := Some(data);
      accepted := accepted + Remaining(data);
      r := ReadyOk;
    }

    method PollFinish(script: seq<Answer>, ok: bool) returns (r: Polled)
      modifies this, stream
      ensures Flushed(View(), r) == Finishing(old(View()), script, ok)
    {
      r := PollReady(script);
      if r == ReadyOk {
        if ok && stream.terminal.Open? {
          stream.terminal := Fin;
        }
        r := if ok then ReadyOk else ReadyErr;
      }
    }

    method Reset(code: nat)
      modifies stream
      ensures View() == ResetStream(old(View()), code)
    {
      if stream.terminal.Open? {
        stream.terminal := Terminal.Reset(if code <= MAX_VARINT then Application(code) else Unknown);
      }
    }
  }
}
