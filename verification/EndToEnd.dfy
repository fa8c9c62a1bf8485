/** Sender, wire and receiver together: a truncated message is never seen as complete. */
module EndToEnd {
  import opened Options
  import opened BodySendSpec
  import opened BodyReceive
  import Task = RequestTask

  // --------------------------------------------------------------------------
  // The h3 receive half as a reader of the wire
  // --------------------------------------------------------------------------

  /** How the transport treats one call: nothing has arrived, up to max + 1 octets have, or
      the stream or connection has failed. */
  datatype Reading = Quiet | Deliver(max: nat) | Broken

  datatype Read = Read(result: Transport, pos: nat)

  function SkipHeads(ts: seq<Token>, pos: nat): (p: nat)
    requires pos <= |ts|
    ensures pos <= p <= |ts|
    ensures forall i :: pos <= i < p ==> ts[i].DataHead?
    ensures p < |ts| ==> !ts[p].DataHead?
    decreases |ts| - pos
  {
    if pos < |ts| && ts[pos].DataHead? then SkipHeads(ts, pos + 1) else pos
  }

  /** Where the octets from pos on end, at most max of them. */
  function OctetsEnd(ts: seq<Token>, pos: nat, max: nat): (q: nat)
    requires pos <= |ts|
    ensures pos <= q <= |ts|
    ensures forall i :: pos <= i < q ==> ts[i].Octet?
    ensures max > 0 && pos < |ts| && ts[pos].Octet? ==> q > pos
    decreases max
  {
    if max > 0 && pos < |ts| && ts[pos].Octet? then OctetsEnd(ts, pos + 1, max - 1) else pos
  }

  function AtTail(t: Terminal): Transport {
    match t
    case Open => TPending
    case Fin => TNone
    case Reset(_) => TError
  }

  /** `poll_recv_data`: payload of DATA frames as it arrives; None before a trailer section
      and at the end of a finished stream. */
  function ReadData(w: Wire, pos: nat, a: Reading): (r: Read)
    requires pos <= |w.tokens|
    ensures pos <= r.pos <= |w.tokens| && Fits(false, r.result)
  {
    match a
    case Quiet => Read(TPending, pos)
    case Broken => Read(TError, pos)
    case Deliver(max) =>
      var p := SkipHeads(w.tokens, pos);
      if p == |w.tokens| then Read(AtTail(w.terminal), p)
      else if w.tokens[p].Fields? then Read(TNone, p)
      else
        var q := OctetsEnd(w.tokens, p, max + 1);
        Read(TData(seq(q - p, i requires 0 <= i < q - p => w.tokens[p + i].b)), q)
  }

  /** `poll_recv_trailers`: one trailer section, after which nothing may follow. */
  function ReadTrailers(w: Wire, pos: nat, a: Reading): (r: Read)
    requires pos <= |w.tokens|
    ensures pos <= r.pos <= |w.tokens| && Fits(true, r.result)
  {
    match a
    case Quiet => Read(TPending, pos)
    case Broken => Read(TError, pos)
    case Deliver(_) =>
      if pos == |w.tokens| then Read(AtTail(w.terminal), pos)
      else if w.tokens[pos].Fields? && !(pos > 0 && w.tokens[pos - 1].Fields?) then
        Read(TFields(w.tokens[pos].fields), pos + 1)
      else Read(TError, pos)
  }

  // --------------------------------------------------------------------------
  // A message in transit
  // --------------------------------------------------------------------------

  datatype Transit = Transit(send: Send, recv: Recv, pos: nat, got: seq<Frame>, ended: bool)

  datatype Move = Sending(step: SendStep) | Receiving(reading: Reading)

  function Depart(source: seq<Frame>): Transit {
    Transit(Start(source), FRESH, 0, [], false)
  }

  function Look(x: Transit, a: Reading): (r: Read)
    requires x.pos <= |x.send.wire.tokens|
    ensures x.pos <= r.pos <= |x.send.wire.tokens| && Fits(x.recv.dataDone, r.result)
  {
    if x.recv.dataDone then ReadTrailers(x.send.wire, x.pos, a) else ReadData(x.send.wire, x.pos, a)
  }

  /** `poll_frame` with the result of its transport call. */
  function Take(x: Transit, read: Read): Transit
    requires Fits(x.recv.dataDone, read.result)
  {
    var r := OnResult(x.recv, read.result);
    x.(recv := r.recv, pos := read.pos,
       got := if r.out.Yield? then x.got + [r.out.frame] else x.got,
       ended := r.out.End?)
  }

  /** The reader stops polling once the body has ended or failed. */
  function MoveOn(x: Transit, m: Move): (v: Transit)
    requires Guarded(x.send)
    ensures Guarded(v.send)
    ensures v.send == if m.Sending? then SendNext(x.send, m.step) else x.send
  {
    match m
    case Sending(step) => x.(send := SendNext(x.send, step))
    case Receiving(a) =>
      if x.recv.finished || x.pos > |x.send.wire.tokens| then x else Take(x, Look(x, a))
  }

  function Travel(x: Transit, moves: seq<Move>): (v: Transit)
    requires Guarded(x.send)
    ensures Guarded(v.send)
    decreases |moves|
  {
    if moves == [] then x else Travel(MoveOn(x, moves[0]), moves[1..])
  }

  /** The body send is polled at least once: the first thing that happens to it is a look. */
  predicate Polled(moves: seq<Move>)
    decreases |moves|
  {
    moves != [] && match moves[0]
                   case Sending(step) => step.Tick?
                   case Receiving(_) => Polled(moves[1..])
  }

  // --------------------------------------------------------------------------
  // Content
  // --------------------------------------------------------------------------

  /** What a reader cares about: the bytes and the trailer sections. */
  datatype Content = Content(bytes: seq<Byte>, trailers: seq<string>)

  const EMPTY := Content([], [])

  function Join(a: Content, b: Content): Content {
    Content(a.bytes + b.bytes, a.trailers + b.trailers)
  }

  function OfToken(t: Token): Content {
    match t
    case DataHead(_) => EMPTY
    case Octet(b) => Content([b], [])
    case Fields(f) => Content([], [f])
  }

  /** The content of the first n tokens. */
  function Seen(ts: seq<Token>, n: nat): Content
    requires n <= |ts|
  {
    if n == 0 then EMPTY else Join(Seen(ts, n - 1), OfToken(ts[n - 1]))
  }

  function OfFrame(f: Frame): Content {
    match f
    case Data(bytes) => Content(bytes, [])
    case Trailers(fields) => Content([], [fields])
  }

  function OfFrames(fs: seq<Frame>): Content {
    if fs == [] then EMPTY else Join(OfFrames(fs[..|fs| - 1]), OfFrame(fs[|fs| - 1]))
  }

  lemma {:induction false} SeenConcat(a: seq<Token>, b: seq<Token>, n: nat)
    requires n <= |b|
    ensures Seen(a + b, |a| + n) == Join(Seen(a, |a|), Seen(b, n))
  {
    if n == 0 {
      SeenPrefix(a, a + b, |a|);
    } else {
      SeenConcat(a, b, n - 1);
    }
  }

  lemma {:induction false} SeenPrefix(a: seq<Token>, b: seq<Token>, n: nat)
    requires a <= b && n <= |a|
    ensures Seen(a, n) == Seen(b, n)
  {
    if n > 0 { SeenPrefix(a, b, n - 1); }
  }

  lemma {:induction false} SeenHeads(ts: seq<Token>, p: nat, q: nat)
    requires p <= q <= |ts| && forall i :: p <= i < q ==> ts[i].DataHead?
    ensures Seen(ts, q) == Seen(ts, p)
    decreases q - p
  {
    if p < q { SeenHeads(ts, p, q - 1); }
  }

  lemma {:induction false} SeenOctets(ts: seq<Token>, p: nat, bytes: seq<Byte>)
    requires p + |bytes| <= |ts| && forall i :: 0 <= i < |bytes| ==> ts[p + i] == Octet(bytes[i])
    ensures Seen(ts, p + |bytes|) == Join(Seen(ts, p), Content(bytes, []))
    decreases |bytes|
  {
    if bytes == [] {
      assert Seen(ts, p).bytes + [] == Seen(ts, p).bytes;
    } else {
      var n := |bytes| - 1;
      SeenOctets(ts, p, bytes[..n]);
      assert bytes == bytes[..n] + [bytes[n]];
    }
  }

  lemma {:induction false} SeenPayload(ts: seq<Token>, bytes: seq<Byte>, n: nat)
    requires |ts| == |bytes| && n <= |ts| && forall i :: 0 <= i < |ts| ==> ts[i] == Octet(bytes[i])
    ensures Seen(ts, n) == Content(bytes[..n], [])
  {
    if n > 0 {
      SeenPayload(ts, bytes, n - 1);
      assert bytes[..n] == bytes[..n - 1] + [bytes[n - 1]];
    }
  }

  lemma SeenFirst(t: Token)
    ensures Seen([t], 1) == OfToken(t)
  {
    assert Seen([t], 1) == Join(Seen([t], 0), OfToken([t][0]));
  }

  lemma SeenEncode(f: Frame)
    ensures Seen(Encode(f), |Encode(f)|) == OfFrame(f)
  {
    match f
    case Trailers(fields) => SeenFirst(Fields(fields));
    case Data(bytes) =>
      SeenFirst(DataHead(|bytes|));
      SeenPayload(Octets(bytes), bytes, |bytes|);
      SeenConcat([DataHead(|bytes|)], Octets(bytes), |bytes|);
  }

  lemma SeenBoth(a: seq<Token>, b: seq<Token>)
    ensures Seen(a + b, |a + b|) == Join(Seen(a, |a|), Seen(b, |b|))
  {
    SeenConcat(a, b, |b|);
    assert |a + b| == |a| + |b|;
  }

  lemma {:induction false} SeenEncodeAll(fs: seq<Frame>)
    ensures Seen(EncodeAll(fs), |EncodeAll(fs)|) == OfFrames(fs)
  {
    if fs != [] {
      var front, last := fs[..|fs| - 1], fs[|fs| - 1];
      SeenEncodeAll(front);
      SeenEncode(last);
      SeenBoth(EncodeAll(front), Encode(last));
    }
  }

  lemma OfFramesAppend(fs: seq<Frame>, f: Frame)
    ensures OfFrames(fs + [f]) == Join(OfFrames(fs), OfFrame(f))
  {
    assert (fs + [f])[..|fs|] == fs;
  }

  lemma {:induction false} SeenGrows(ts: seq<Token>, m: nat, n: nat)
    requires m <= n <= |ts|
    ensures Seen(ts, m).bytes <= Seen(ts, n).bytes && Seen(ts, m).trailers <= Seen(ts, n).trailers
    decreases n - m
  {
    if m < n { SeenGrows(ts, m, n - 1); }
  }

  // --------------------------------------------------------------------------
  // What every move keeps
  // --------------------------------------------------------------------------

  /** Data frames, then at most one trailers frame. */
  predicate WellFormed(fs: seq<Frame>) {
    forall i :: 0 <= i < |fs| - 1 ==> fs[i].Data?
  }

  /** Among the first n tokens a trailer section can only be the last. */
  ghost predicate FieldsOnlyLast(ts: seq<Token>, n: nat)
    requires n <= |ts|
  {
    forall i :: 0 <= i < n - 1 ==> !ts[i].Fields?
  }

  ghost predicate NoFields(ts: seq<Token>, n: nat)
    requires n <= |ts|
  {
    forall i :: 0 <= i < n ==> !ts[i].Fields?
  }

  ghost predicate AllData(fs: seq<Frame>) {
    forall i :: 0 <= i < |fs| ==> fs[i].Data?
  }

  /** The frames handed out are the tokens consumed. */
  ghost predicate Delivered(ts: seq<Token>, pos: nat, got: seq<Frame>) {
    && pos <= |ts|
    && Seen(ts, pos) == OfFrames(got)
    && WellFormed(got)
    && FieldsOnlyLast(ts, pos)
    && (NoFields(ts, pos) ==> AllData(got))
  }

  /** Where the reader stands, by its flags. */
  ghost predicate Standing(x: Transit) {
    var ts := x.send.wire.tokens;
    && x.pos <= |ts|
    && (!x.recv.dataDone ==> NoFields(ts, x.pos))
    && (x.recv.dataDone ==>
          || (x.pos == |ts| && x.send.wire.terminal.Fin?)
          || (x.pos < |ts| && ts[x.pos].Fields?)
          || (x.pos > 0 && ts[x.pos - 1].Fields?))
    && (x.ended ==> x.recv.finished && x.pos == |ts| && x.send.wire.terminal.Fin?)
  }

  ghost predicate Placed(x: Transit) {
    Delivered(x.send.wire.tokens, x.pos, x.got) && Standing(x)
  }

  ghost predicate TransitInv(x: Transit) {
    SendInv(x.send) && Placed(x)
  }

  lemma AdvanceGrows(s: Send, i: Input)
    requires Guarded(s)
    ensures s.wire.tokens <= Advance(s, i).wire.tokens
  {
    if s.pc.Writing? {
      assert s.wire.tokens <= TickWrite(s, i.answer).wire.tokens;
    }
  }

  lemma WireOnlyGrows(s: Send, step: SendStep)
    requires SendInv(s)
    ensures var v := SendNext(s, step); s.wire.tokens <= v.wire.tokens && (s.wire.terminal.Fin? ==> v == s)
  {
    if step.Tick? { AdvanceGrows(s, step.input); }
  }

  lemma GrowthKeepsPlaced(x: Transit, s: Send)
    requires Placed(x) && x.send.wire.tokens <= s.wire.tokens
    requires x.send.wire.terminal.Fin? ==> s.wire == x.send.wire
    ensures Placed(x.(send := s))
  {
    var ts, us := x.send.wire.tokens, s.wire.tokens;
    SeenPrefix(ts, us, x.pos);
    assert forall i :: 0 <= i < |ts| ==> ts[i] == us[i];
  }

  lemma SendingKeepsInv(x: Transit, step: SendStep)
    requires TransitInv(x)
    ensures TransitInv(MoveOn(x, Sending(step)))
  {
    SendNextKeepsInv(x.send, step);
    WireOnlyGrows(x.send, step);
    GrowthKeepsPlaced(x, SendNext(x.send, step));
  }

  lemma SkipDelivers(ts: seq<Token>, pos: nat, got: seq<Frame>)
    requires Delivered(ts, pos, got) && NoFields(ts, pos)
    ensures var p := SkipHeads(ts, pos); Delivered(ts, p, got) && NoFields(ts, p)
  {
    SeenHeads(ts, pos, SkipHeads(ts, pos));
  }

  lemma OctetsDeliver(ts: seq<Token>, p: nat, got: seq<Frame>, bytes: seq<Byte>)
    requires Delivered(ts, p, got) && NoFields(ts, p) && p + |bytes| <= |ts|
    requires forall i :: 0 <= i < |bytes| ==> ts[p + i] == Octet(bytes[i])
    ensures Delivered(ts, p + |bytes|, got + [Data(bytes)]) && NoFields(ts, p + |bytes|)
  {
    SeenOctets(ts, p, bytes);
    OfFramesAppend(got, Data(bytes));
    assert forall i :: p <= i < p + |bytes| ==> ts[i] == Octet(bytes[i - p]);
  }

  lemma FieldsDeliver(ts: seq<Token>, pos: nat, got: seq<Frame>)
    requires Delivered(ts, pos, got) && pos < |ts| && ts[pos].Fields?
    requires pos > 0 ==> !ts[pos - 1].Fields?
    ensures Delivered(ts, pos + 1, got + [Trailers(ts[pos].fields)])
  {
    assert NoFields(ts, pos);
    OfFramesAppend(got, Trailers(ts[pos].fields));
  }

  /** What a transport result says about the tokens it consumed. */
  ghost predicate Honest(w: Wire, got: seq<Frame>, dataDone: bool, r: Read) {
    && r.pos <= |w.tokens|
    && match r.result
       case TData(bytes) => Delivered(w.tokens, r.pos, got + [Data(bytes)]) && NoFields(w.tokens, r.pos)
       case TFields(f) =>
         Delivered(w.tokens, r.pos, got + [Trailers(f)]) && r.pos > 0 && w.tokens[r.pos - 1].Fields?
       case TNone =>
         && Delivered(w.tokens, r.pos, got)
         && (if dataDone then r.pos == |w.tokens| && w.terminal.Fin?
             else NoFields(w.tokens, r.pos)
                  && if r.pos < |w.tokens| then w.tokens[r.pos].Fields? else w.terminal.Fin?)
       case TPending => Delivered(w.tokens, r.pos, got) && (dataDone || NoFields(w.tokens, r.pos))
       case TError => Delivered(w.tokens, r.pos, got) && (dataDone || NoFields(w.tokens, r.pos))
  }

  lemma DataIsHonest(w: Wire, pos: nat, got: seq<Frame>, a: Reading)
    requires Delivered(w.tokens, pos, got) && NoFields(w.tokens, pos)
    ensures Honest(w, got, false, ReadData(w, pos, a))
  {
    if a.Deliver? {
      SkipDelivers(w.tokens, pos, got);
      var p := SkipHeads(w.tokens, pos);
      if p < |w.tokens| && w.tokens[p].Octet? {
        OctetsDeliver(w.tokens, p, got, ReadData(w, pos, a).result.bytes);
      }
    }
  }

  lemma TrailersAreHonest(w: Wire, pos: nat, got: seq<Frame>, a: Reading)
    requires Delivered(w.tokens, pos, got)
    ensures Honest(w, got, true, ReadTrailers(w, pos, a))
    ensures var r := ReadTrailers(w, pos, a); !r.result.TFields? ==> r.pos == pos
  {
    if a.Deliver? && pos < |w.tokens| && w.tokens[pos].Fields? && !(pos > 0 && w.tokens[pos - 1].Fields?) {
      FieldsDeliver(w.tokens, pos, got);
    }
  }

  lemma TakeKeepsPlaced(x: Transit, read: Read)
    requires Placed(x) && !x.recv.finished && Fits(x.recv.dataDone, read.result)
    requires Honest(x.send.wire, x.got, x.recv.dataDone, read)
    requires x.recv.dataDone && !read.result.TFields? ==> read.pos == x.pos
    ensures Placed(Take(x, read))
  {
  }

  lemma ReceivingKeepsPlaced(x: Transit, a: Reading)
    requires Placed(x) && Guarded(x.send)
    ensures Placed(MoveOn(x, Receiving(a)))
  {
    if !x.recv.finished {
      if x.recv.dataDone {
        TrailersAreHonest(x.send.wire, x.pos, x.got, a);
      } else {
        DataIsHonest(x.send.wire, x.pos, x.got, a);
      }
      TakeKeepsPlaced(x, Look(x, a));
    }
  }

  lemma MoveKeepsInv(x: Transit, m: Move)
    requires TransitInv(x)
    ensures TransitInv(MoveOn(x, m)) && MoveOn(x, m).send.source == x.send.source
  {
    match m
    case Sending(step) =>
      SendingKeepsInv(x, step);
      SendNextKeepsInv(x.send, step);
    case Receiving(a) =>
      ReceivingKeepsPlaced(x, a);
  }

  lemma {:induction false} TravelKeepsInv(x: Transit, moves: seq<Move>)
    requires TransitInv(x)
    ensures TransitInv(Travel(x, moves)) && Travel(x, moves).send.source == x.send.source
    decreases |moves|
  {
    if moves != [] {
      MoveKeepsInv(x, moves[0]);
      TravelKeepsInv(MoveOn(x, moves[0]), moves[1..]);
    }
  }

  /** Trailers before the end of the source would stand before the end of the wire. */
  lemma FieldsOnlyLastMeansWellFormed(fs: seq<Frame>)
    ensures FieldsOnlyLast(EncodeAll(fs), |EncodeAll(fs)|) ==> WellFormed(fs)
  {
    var ts := EncodeAll(fs);
    forall i | 0 <= i < |fs| - 1 && !fs[i].Data?
      ensures !FieldsOnlyLast(ts, |ts|)
    {
      EncodeAllSplit(fs, i);
      EncodeAllSplit(fs, i + 1);
      var at := |EncodeAll(fs[..i])|;
      assert ts[at] == (EncodeAll(fs[..i]) + Encode(fs[i]))[at];
      assert |ts| >= |EncodeAll(fs[..i + 1]) + Encode(fs[i + 1])| > at + 1;
    }
  }

  lemma {:induction false} WellFormedMeansFieldsOnlyLast(fs: seq<Frame>)
    requires WellFormed(fs)
    ensures var ts := EncodeAll(fs); FieldsOnlyLast(ts, |ts|) && (AllData(fs) ==> NoFields(ts, |ts|))
  {
    if fs != [] { WellFormedMeansFieldsOnlyLast(fs[..|fs| - 1]); }
  }

  /** The reader has everything the source had. */
  ghost predicate Whole(x: Transit) {
    OfFrames(x.got) == OfFrames(x.send.source) && WellFormed(x.send.source)
  }

  lemma GotIsPrefix(x: Transit)
    requires TransitInv(x)
    ensures OfFrames(x.got).bytes <= OfFrames(x.send.source).bytes
    ensures OfFrames(x.got).trailers <= OfFrames(x.send.source).trailers
  {
    var ts, all := x.send.wire.tokens, EncodeAll(x.send.source);
    WireIsPrefix(x.send);
    SeenEncodeAll(x.send.source);
    SeenPrefix(ts, all, x.pos);
    SeenGrows(all, x.pos, |all|);
  }

  /** The end of a stream whose sender had its guard is the end of the source. */
  lemma EndOfGuardedIsWhole(x: Transit)
    requires TransitInv(x) && x.ended && x.send.guard.Some?
    ensures Whole(x)
  {
    assert x.send.wire.tokens == EncodeAll(x.send.source);
    SeenEncodeAll(x.send.source);
    FieldsOnlyLastMeansWellFormed(x.send.source);
  }

  lemma {:induction false} EmptyIsWellFormed(fs: seq<Frame>)
    requires OfFrames(fs) == EMPTY
    ensures AllData(fs)
  {
    if fs != [] { EmptyIsWellFormed(fs[..|fs| - 1]); }
  }

  /** Without the guard the reader ends with nothing, which is whole only if nothing was
      to be sent. */
  lemma EndOfUnguarded(x: Transit)
    requires TransitInv(x) && x.ended && x.send.guard.None?
    ensures OfFrames(x.got) == EMPTY
    ensures Whole(x) <==> OfFrames(x.send.source) == EMPTY
  {
    if OfFrames(x.send.source) == EMPTY { EmptyIsWellFormed(x.send.source); }
  }

  lemma GuardStays(s: Send, step: SendStep)
    requires Guarded(s)
    ensures s.pc.Unpolled? ==> (SendNext(s, step).guard.Some? <==> s.guard.Some? || step.Tick?)
    ensures !s.pc.Unpolled? ==> (SendNext(s, step).guard.Some? <==> s.guard.Some?)
  {
  }

  lemma {:induction false} GuardedForGood(x: Transit, moves: seq<Move>)
    requires Guarded(x.send) && !x.send.pc.Unpolled?
    ensures Travel(x, moves).send.guard.Some? <==> x.send.guard.Some?
    decreases |moves|
  {
    if moves != [] {
      if moves[0].Sending? { GuardStays(x.send, moves[0].step); }
      GuardedForGood(MoveOn(x, moves[0]), moves[1..]);
    }
  }

  lemma {:induction false} GuardedIffPolled(x: Transit, moves: seq<Move>)
    requires Guarded(x.send) && x.send.pc.Unpolled?
    ensures Travel(x, moves).send.guard.Some? <==> Polled(moves)
    decreases |moves|
  {
    if moves != [] {
      if moves[0].Sending? {
        GuardStays(x.send, moves[0].step);
        GuardedForGood(MoveOn(x, moves[0]), moves[1..]);
      } else {
        GuardedIffPolled(MoveOn(x, moves[0]), moves[1..]);
      }
    }
  }

  /** For every source and every schedule of cancellation, hard drops, source and transport
      errors and partial delivery: what the reader was given is a prefix of the source, in
      the order data frames then at most one trailers frame. If the reader is told that the
      message is complete, then it has been given the whole source, bytes and trailers, and
      the source was well formed, exactly when the body send was polled before it went away
      or had no content to send. */
  lemma NoTruncation(source: seq<Frame>, moves: seq<Move>)
    ensures var x := Travel(Depart(source), moves);
            && OfFrames(x.got).bytes <= OfFrames(source).bytes
            && OfFrames(x.got).trailers <= OfFrames(source).trailers
            && WellFormed(x.got)
            && (x.ended ==>
                  (OfFrames(x.got) == OfFrames(source) && WellFormed(source)
                   <==> Polled(moves) || OfFrames(source) == EMPTY))
  {
    TravelKeepsInv(Depart(source), moves);
    GuardedIffPolled(Depart(source), moves);
    var x := Travel(Depart(source), moves);
    GotIsPrefix(x);
    if x.ended {
      if x.send.guard.Some? { EndOfGuardedIsWhole(x); } else { EndOfUnguarded(x); }
    }
  }

  const DROPPED_UNPOLLED := [Sending(HardDrop), Receiving(Deliver(0)), Receiving(Deliver(0))]

  /** Whatever the source, a send that is dropped before its first poll reaches the reader as
      a complete message without a byte. */
  lemma UnpolledDropLooksComplete(source: seq<Frame>)
    ensures var x := Travel(Depart(source), DROPPED_UNPOLLED); x.ended && x.got == [] && x.send.source == source
  {
    var r := Receiving(Deliver(0));
    var x1 := MoveOn(Depart(source), Sending(HardDrop));
    var x2 := MoveOn(x1, r);
    var x3 := MoveOn(x2, r);
    assert DROPPED_UNPOLLED[1..] == [r, r] && [r, r][1..] == [r] && [r][1..] == [];
    assert Travel(x3, []) == x3 && Travel(x2, [r]) == x3 && Travel(x1, [r, r]) == x3;
  }

  /** So the exception is real: a body of one byte is truncated. */
  lemma OneByteIsTruncated()
    ensures var x := Travel(Depart([Data([7])]), DROPPED_UNPOLLED); x.ended && !Whole(x)
  {
    var source := [Data([7])];
    UnpolledDropLooksComplete(source);
    assert source[..0] == [];
    assert OfFrames(source) == Join(EMPTY, Content([7], []));
    assert OfFrames(source).bytes == [7];
  }

  /** A request body as `send_request_inner` leaves it after its eager poll, whatever that
      poll came to: from there on the exception is gone, and being told of the end means
      having the whole source, on every schedule. */
  lemma RequestBodyArrivesWhole(source: seq<Frame>, script: seq<Answer>, moves: seq<Move>)
    ensures var x := Travel(Transit(Task.Launched(source, script), FRESH, 0, [], false), moves);
            && OfFrames(x.got).bytes <= OfFrames(source).bytes
            && (x.ended ==> OfFrames(x.got) == OfFrames(source) && WellFormed(source))
  {
    Task.LaunchedIsGuarded(source, script);
    var x0 := Transit(Task.Launched(source, script), FRESH, 0, [], false);
    assert TransitInv(x0);
    TravelKeepsInv(x0, moves);
    GuardedForGood(x0, moves);
    var x := Travel(x0, moves);
    GotIsPrefix(x);
    if x.ended { EndOfGuardedIsWhole(x); }
  }

  // --------------------------------------------------------------------------
  // A reader fails only for a reason
  // --------------------------------------------------------------------------

  /** The stream was reset, or something followed the trailers. */
  ghost predicate Faulty(x: Transit) {
    x.send.wire.terminal.Reset? || !WellFormed(x.send.source)
  }

  /** If the reader's body is over without an end, it was right to give up. */
  ghost predicate Justified(x: Transit) {
    x.recv.finished && !x.ended ==> Faulty(x)
  }

  lemma FieldsInsideMeansIllFormed(s: Send, p: nat)
    requires SendInv(s) && p + 1 < |s.wire.tokens| && s.wire.tokens[p].Fields?
    ensures !WellFormed(s.source)
  {
    var all := EncodeAll(s.source);
    WireIsPrefix(s);
    assert all[p] == s.wire.tokens[p] && |s.wire.tokens| <= |all|;
    if WellFormed(s.source) { WellFormedMeansFieldsOnlyLast(s.source); }
  }

  lemma LookIsJustified(x: Transit, a: Reading)
    requires TransitInv(x) && !a.Broken? && Look(x, a).result.TError?
    ensures Faulty(x)
  {
    var ts := x.send.wire.tokens;
    if x.recv.dataDone && x.pos < |ts| {
      assert ts[x.pos].Fields? || (x.pos > 0 && ts[x.pos - 1].Fields?);
      assert x.pos > 0 && ts[x.pos - 1].Fields?;
      FieldsInsideMeansIllFormed(x.send, x.pos - 1);
    }
  }

  lemma ResetStays(s: Send, step: SendStep)
    requires SendInv(s) && s.wire.terminal.Reset?
    ensures SendNext(s, step) == s
  {
  }

  lemma MoveIsJustified(x: Transit, m: Move)
    requires TransitInv(x) && Justified(x) && m != Receiving(Broken)
    ensures Justified(MoveOn(x, m))
  {
    match m
    case Sending(step) => if x.send.wire.terminal.Reset? { ResetStays(x.send, step); }
    case Receiving(a) =>
      if !x.recv.finished && Look(x, a).result.TError? { LookIsJustified(x, a); }
  }

  lemma {:induction false} TravelIsJustified(x: Transit, moves: seq<Move>)
    requires TransitInv(x) && Justified(x) && Receiving(Broken) !in moves
    ensures Justified(Travel(x, moves))
    decreases |moves|
  {
    if moves != [] {
      MoveKeepsInv(x, moves[0]);
      MoveIsJustified(x, moves[0]);
      TravelIsJustified(MoveOn(x, moves[0]), moves[1..]);
    }
  }

  /** A reader whose body is over although it was not told of the end has been failed by its
      own transport, or the sender reset the stream, or the source goes on after its
      trailers. Waiting is not failing: a look at which nothing has arrived changes nothing. */
  lemma FailuresAreDeserved(source: seq<Frame>, moves: seq<Move>)
    ensures var x := Travel(Depart(source), moves);
            && (x.recv.finished && !x.ended ==>
                  Receiving(Broken) in moves || x.send.wire.terminal.Reset? || !WellFormed(source))
            && MoveOn(x, Receiving(Quiet)) == x
  {
    TravelKeepsInv(Depart(source), moves);
    if Receiving(Broken) !in moves { TravelIsJustified(Depart(source), moves); }
  }

  // --------------------------------------------------------------------------
  // Completion is reachable, exactly for well-formed sources
  // --------------------------------------------------------------------------

  /** One more poll of a finished stream, by a reader that has not failed. */
  ghost predicate Progress(x: Transit, v: Transit) {
    && v.send == x.send
    && (v.ended || (!v.recv.finished && !v.ended
                    && (v.pos > x.pos || (v.pos == x.pos && v.recv.dataDone && !x.recv.dataDone))))
  }

  lemma DataAdvances(x: Transit)
    requires Guarded(x.send) && x.pos <= |x.send.wire.tokens| && x.send.wire.terminal.Fin?
    requires !x.recv.finished && !x.ended && !x.recv.dataDone
    ensures Progress(x, MoveOn(x, Receiving(Deliver(0))))
  {
  }

  lemma TrailersAdvance(x: Transit)
    requires Guarded(x.send) && Standing(x) && x.send.wire.terminal.Fin?
    requires !x.recv.finished && !x.ended && x.recv.dataDone
    requires FieldsOnlyLast(x.send.wire.tokens, |x.send.wire.tokens|)
    ensures Progress(x, MoveOn(x, Receiving(Deliver(0))))
  {
  }

  lemma ReaderAdvances(x: Transit)
    requires TransitInv(x) && WellFormed(x.send.source)
    requires x.send.wire.terminal.Fin? && !x.recv.finished && !x.ended
    ensures Progress(x, MoveOn(x, Receiving(Deliver(0))))
  {
    WellFormedMeansFieldsOnlyLast(x.send.source);
    if x.recv.dataDone { TrailersAdvance(x); } else { DataAdvances(x); }
  }

  /** As long as the stream is not reset and the reader has not failed, the transfer of a
      well-formed source can still be completed, unless its send was dropped unpolled. */
  lemma {:induction false} CanStillComplete(x: Transit) returns (moves: seq<Move>)
    requires TransitInv(x) && WellFormed(x.send.source)
    requires x.send.pc.Gone? ==> x.send.wire.terminal.Fin? && x.send.guard.Some?
    requires !x.recv.finished && !x.ended
    ensures Travel(x, moves).ended && Whole(Travel(x, moves))
    ensures x.send.pc.Unpolled? ==> Polled(moves)
    decreases SendLeft(x.send), |EncodeAll(x.send.source)| - x.pos, !x.recv.dataDone
  {
    var m := if x.send.pc.Gone? then Receiving(Deliver(0)) else Sending(GO);
    var v := MoveOn(x, m);
    MoveKeepsInv(x, m);
    WireIsPrefix(x.send);
    if x.send.pc.Gone? { ReaderAdvances(x); } else { SenderAdvances(x.send); }
    if v.ended {
      EndOfGuardedIsWhole(v);
      moves := [m];
      assert Travel(v, []) == v;
    } else {
      var rest := CanStillComplete(v);
      moves := [m] + rest;
      assert moves[0] == m && moves[1..] == rest;
    }
  }

  /** Some schedule that polls the body send lets the reader see the end of the message
      exactly when the source is data frames followed by at most one trailers frame: a body
      that goes on after its trailers, which neither loop guards against, is never taken
      for complete. */
  lemma CompletesIffWellFormed(source: seq<Frame>)
    ensures (exists moves :: Polled(moves) && Travel(Depart(source), moves).ended) <==> WellFormed(source)
  {
    if moves :| Polled(moves) && Travel(Depart(source), moves).ended {
      NoTruncation(source, moves);
    }
    if WellFormed(source) {
      var moves := CanStillComplete(Depart(source));
      assert Polled(moves) && Travel(Depart(source), moves).ended;
    }
  }
}
