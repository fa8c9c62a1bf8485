/** The quinn acceptor: handshakes run in a JoinSet while `accept` waits for a new incoming
    connection or for one of them to end, whichever the select picks. */
module QuinnAcceptor {
  import opened Options

  /** What the awaits of `select_conn` may give. Handshakes are numbered by arrival; a
      joined task ended with a connection, with a handshake error, or by panicking. */
  datatype Ending = Established | HandshakeFailed | Panicked

  datatype Pick = Incoming | EndpointClosed | Joined(id: nat, how: Ending)

  datatype SelectOutput = NewIncoming | NewConn(id: nat) | ConnErr(id: nat) | Done

  datatype Accepted = Waiting | Conn(id: nat) | NoMore

  /** The pending tasks, and the history of what became of the others. */
  datatype Acceptor = Acceptor(tasks: set<nat>, arrived: nat, yielded: seq<nat>, ignored: seq<nat>)

  const EMPTY := Acceptor({}, 0, [], [])

  /** `join_next` is awaited only on a set that is not empty, and gives one of its tasks. */
  function Select(st: Acceptor, p: Pick): Option<SelectOutput> {
    match p
    case Incoming => Some(NewIncoming)
    case EndpointClosed => Some(Done)
    case Joined(id, how) =>
      if id !in st.tasks then None
      else if how.Established? then Some(NewConn(id)) else Some(ConnErr(id))
  }

  datatype AcceptResult = AcceptResult(st: Acceptor, out: Accepted, used: nat)

  /** One call of `accept`: it loops until the select gives a connection or the end. */
  function Accepting(st: Acceptor, script: seq<Pick>): (r: AcceptResult)
    ensures r.used <= |script|
    decreases |script|
  {
    if script == [] then AcceptResult(st, Waiting, 0)
    else match Select(st, script[0])
      case Some(Done) => AcceptResult(st, NoMore, 1)
      case Some(NewConn(id)) =>
        AcceptResult(st.(tasks := st.tasks - {id}, yielded := st.yielded + [id]), Conn(id), 1)
      case Some(NewIncoming) =>
        More(Accepting(st.(tasks := st.tasks + {st.arrived}, arrived := st.arrived + 1), script[1..]))
      case Some(ConnErr(id)) =>
        More(Accepting(st.(tasks := st.tasks - {id}, ignored := st.ignored + [id]), script[1..]))
      case None => More(Accepting(st, script[1..]))
  }

  function More(r: AcceptResult): AcceptResult {
    r.(used := r.used + 1)
  }

  function Serve(calls: seq<seq<Pick>>): Acceptor {
    if calls == [] then EMPTY else Accepting(Serve(calls[..|calls| - 1]), calls[|calls| - 1]).st
  }

  // --------------------------------------------------------------------------
  // What the picks alone say
  // --------------------------------------------------------------------------

  /** How many connections came in. */
  function Incomings(picks: seq<Pick>): nat {
    if picks == [] then 0
    else Incomings(picks[..|picks| - 1]) + if picks[|picks| - 1].Incoming? then 1 else 0
  }

  /** How handshake id ended: as the first join of it after it came in says. */
  function Fate(picks: seq<Pick>, id: nat): Option<Ending> {
    if picks == [] then None
    else
      var front, last := picks[..|picks| - 1], picks[|picks| - 1];
      if Fate(front, id).Some? then Fate(front, id)
      else if last.Joined? && last.id == id && id < Incomings(front) then Some(last.how)
      else None
  }

  /** The picks that the calls looked at, call after call. */
  function Looked(calls: seq<seq<Pick>>): seq<Pick> {
    if calls == [] then []
    else
      var front, last := calls[..|calls| - 1], calls[|calls| - 1];
      Looked(front) + last[..Accepting(Serve(front), last).used]
  }

  /** The connections that the calls returned, in order. */
  function Returned(calls: seq<seq<Pick>>): seq<nat> {
    if calls == [] then []
    else
      var front, last := calls[..|calls| - 1], calls[|calls| - 1];
      var out := Accepting(Serve(front), last).out;
      Returned(front) + if out.Conn? then [out.id] else []
  }

  // --------------------------------------------------------------------------
  // Handshakes one pick at a time, without the loop
  // --------------------------------------------------------------------------

  function Spawn(st: Acceptor): Acceptor {
    st.(tasks := st.tasks + {st.arrived}, arrived := st.arrived + 1)
  }

  function Yield(st: Acceptor, id: nat): Acceptor {
    st.(tasks := st.tasks - {id}, yielded := st.yielded + [id])
  }

  function Ignore(st: Acceptor, id: nat): Acceptor {
    st.(tasks := st.tasks - {id}, ignored := st.ignored + [id])
  }

  function Settle(st: Acceptor, p: Pick): Acceptor {
    match p
    case Incoming => Spawn(st)
    case EndpointClosed => st
    case Joined(id, how) =>
      if id !in st.tasks then st else if how.Established? then Yield(st, id) else Ignore(st, id)
  }

  function After(st: Acceptor, picks: seq<Pick>): Acceptor {
    if picks == [] then st else Settle(After(st, picks[..|picks| - 1]), picks[|picks| - 1])
  }

  lemma {:induction false} AfterConcat(st: Acceptor, a: seq<Pick>, b: seq<Pick>)
    ensures After(st, a + b) == After(After(st, a), b)
  {
    if b == [] {
      assert a + b == a;
    } else {
      assert (a + b)[..|a + b| - 1] == a + b[..|b| - 1];
      AfterConcat(st, a, b[..|b| - 1]);
    }
  }

  lemma AfterFirst(st: Acceptor, script: seq<Pick>, k: nat)
    requires 0 < k <= |script|
    ensures After(st, script[..k]) == After(Settle(st, script[0]), script[1..][..k - 1])
  {
    var rest := script[1..][..k - 1];
    assert script[..k] == [script[0]] + rest;
    AfterConcat(st, [script[0]], rest);
    assert [script[0]][..0] == [];
  }

  /** In how many of the three places handshake id is. */
  function Places(st: Acceptor, id: nat): nat {
    (if id in st.tasks then 1 else 0) + multiset(st.yielded)[id] + multiset(st.ignored)[id]
  }

  ghost predicate Conserved(st: Acceptor) {
    forall id: nat :: Places(st, id) == if id < st.arrived then 1 else 0
  }

  lemma SpawnConserves(st: Acceptor)
    requires Conserved(st)
    ensures Conserved(Spawn(st))
  {
    assert Places(st, st.arrived) == 0;
    forall id: nat ensures Places(Spawn(st), id) == if id < st.arrived + 1 then 1 else 0 {
      assert Places(st, id) == if id < st.arrived then 1 else 0;
    }
  }

  lemma JoinConserves(st: Acceptor, id: nat)
    requires Conserved(st) && id in st.tasks
    ensures Conserved(Yield(st, id)) && Conserved(Ignore(st, id))
  {
    forall i: nat ensures Places(Yield(st, id), i) == Places(st, i) == Places(Ignore(st, id), i) {
    }
    assert forall i: nat :: Places(st, i) == if i < st.arrived then 1 else 0;
  }

  lemma {:induction false} AfterConserves(st: Acceptor, picks: seq<Pick>)
    requires Conserved(st)
    ensures Conserved(After(st, picks))
  {
    if picks != [] {
      var v, p := After(st, picks[..|picks| - 1]), picks[|picks| - 1];
      AfterConserves(st, picks[..|picks| - 1]);
      match p
      case Incoming => SpawnConserves(v);
      case EndpointClosed =>
      case Joined(id, _) => if id in v.tasks { JoinConserves(v, id); }
    }
  }

  /** Some pick joined handshake id with this kind of ending. */
  ghost predicate JoinedAs(picks: seq<Pick>, id: nat, established: bool) {
    exists k :: 0 <= k < |picks| && picks[k].Joined? && picks[k].id == id && picks[k].how.Established? == established
  }

  /** The history from st to v is the picks' own: one arrival per incoming connection, only
      established handshakes yielded, only failed ones ignored. */
  ghost predicate Explained(st: Acceptor, v: Acceptor, picks: seq<Pick>) {
    && v.arrived == st.arrived + Incomings(picks)
    && st.yielded <= v.yielded && st.ignored <= v.ignored
    && (forall i :: |st.yielded| <= i < |v.yielded| ==> JoinedAs(picks, v.yielded[i], true))
    && (forall i :: |st.ignored| <= i < |v.ignored| ==> JoinedAs(picks, v.ignored[i], false))
  }

  lemma JoinedStays(front: seq<Pick>, picks: seq<Pick>, id: nat, established: bool)
    requires front <= picks && JoinedAs(front, id, established)
    ensures JoinedAs(picks, id, established)
  {
    var k :| 0 <= k < |front| && front[k].Joined? && front[k].id == id && front[k].how.Established? == established;
    assert picks[k] == front[k];
  }

  lemma {:induction false} AfterIsExplained(st: Acceptor, picks: seq<Pick>)
    ensures Explained(st, After(st, picks), picks)
  {
    if picks != [] {
      var front, p := picks[..|picks| - 1], picks[|picks| - 1];
      var u, v := After(st, front), After(st, picks);
      AfterIsExplained(st, front);
      assert picks[|picks| - 1] == p;
      forall i | |st.yielded| <= i < |v.yielded| ensures JoinedAs(picks, v.yielded[i], true) {
        if i < |u.yielded| { JoinedStays(front, picks, v.yielded[i], true); }
      }
      forall i | |st.ignored| <= i < |v.ignored| ensures JoinedAs(picks, v.ignored[i], false) {
        if i < |u.ignored| { JoinedStays(front, picks, v.ignored[i], false); }
      }
    }
  }

  // --------------------------------------------------------------------------
  // One call
  // --------------------------------------------------------------------------

  /** The picks at which a call must return: the endpoint's end, and a pending handshake
      that ended with a connection. */
  predicate Returns(st: Acceptor, p: Pick) {
    p.EndpointClosed? || (p.Joined? && p.how.Established? && p.id in st.tasks)
  }

  ghost predicate ReturnsAt(st: Acceptor, script: seq<Pick>, k: nat)
    requires k < |script|
  {
    Returns(After(st, script[..k]), script[k])
  }

  /** The call looks at its picks up to the first at which it must return, or at all. */
  ghost predicate StopsRight(st: Acceptor, script: seq<Pick>, r: AcceptResult) {
    && r.used <= |script|
    && (forall k :: 0 <= k < r.used ==> (ReturnsAt(st, script, k) <==> k == r.used - 1 && !r.out.Waiting?))
    && match r.out
       case Waiting => r.used == |script|
       case NoMore => r.used > 0 && script[r.used - 1] == EndpointClosed
       case Conn(id) => r.used > 0 && script[r.used - 1] == Joined(id, Established)
  }

  /** And leaves what those picks make of the handshakes. */
  ghost predicate Follows(st: Acceptor, script: seq<Pick>, r: AcceptResult) {
    StopsRight(st, script, r) && r.st == After(st, script[..r.used])
  }

  lemma ReturnsLater(st: Acceptor, script: seq<Pick>, k: nat)
    requires 0 < k < |script|
    ensures ReturnsAt(st, script, k) <==> ReturnsAt(Settle(st, script[0]), script[1..], k - 1)
  {
    AfterFirst(st, script, k);
  }

  lemma StopsMore(st: Acceptor, next: Acceptor, script: seq<Pick>, r: AcceptResult)
    requires script != [] && !Returns(st, script[0]) && next == Settle(st, script[0])
    requires StopsRight(next, script[1..], r)
    ensures StopsRight(st, script, More(r))
  {
    forall k | 0 <= k < r.used + 1
      ensures ReturnsAt(st, script, k) <==> k == r.used && !r.out.Waiting?
    {
      if k > 0 {
        ReturnsLater(st, script, k);
        assert ReturnsAt(next, script[1..], k - 1) <==> k - 1 == r.used - 1 && !r.out.Waiting?;
      }
    }
  }

  lemma FollowsNow(st: Acceptor, script: seq<Pick>)
    requires script != [] && Returns(st, script[0])
    ensures Follows(st, script, Accepting(st, script))
  {
    AfterFirst(st, script, 1);
    assert ReturnsAt(st, script, 0);
  }

  /** Where the loop goes on. */
  lemma AcceptGoesOn(st: Acceptor, script: seq<Pick>)
    requires script != [] && !Returns(st, script[0])
    ensures Accepting(st, script) == More(Accepting(Settle(st, script[0]), script[1..]))
  {
  }

  lemma {:induction false} AcceptFollows(st: Acceptor, script: seq<Pick>)
    ensures Follows(st, script, Accepting(st, script))
    decreases |script|
  {
    if script != [] {
      if Returns(st, script[0]) {
        FollowsNow(st, script);
      } else {
        var next := Settle(st, script[0]);
        var r := Accepting(next, script[1..]);
        AcceptFollows(next, script[1..]);
        AcceptGoesOn(st, script);
        StopsMore(st, next, script, r);
        AfterFirst(st, script, r.used + 1);
      }
    }
  }

  lemma {:induction false} YieldsOnlyAtReturns(st: Acceptor, picks: seq<Pick>)
    requires forall k :: 0 <= k < |picks| ==> !Returns(After(st, picks[..k]), picks[k])
    ensures After(st, picks).yielded == st.yielded
  {
    if picks != [] {
      var front := picks[..|picks| - 1];
      forall k | 0 <= k < |front| ensures !Returns(After(st, front[..k]), front[k]) {
        assert front[..k] == picks[..k];
      }
      YieldsOnlyAtReturns(st, front);
      assert !Returns(After(st, picks[..|front|]), picks[|front|]);
    }
  }

  /** What a call returns is what it adds to the yielded handshakes. */
  lemma ReturnedIsYielded(st: Acceptor, script: seq<Pick>, r: AcceptResult)
    requires Follows(st, script, r)
    ensures r.st.yielded == st.yielded + if r.out.Conn? then [r.out.id] else []
  {
    var n := if r.out.Waiting? then r.used else r.used - 1;
    forall k | 0 <= k < n ensures !Returns(After(st, script[..n][..k]), script[..n][k]) {
      assert script[..n][..k] == script[..k] && !ReturnsAt(st, script, k);
    }
    YieldsOnlyAtReturns(st, script[..n]);
    if !r.out.Waiting? {
      assert script[..r.used][..n] == script[..n];
      assert ReturnsAt(st, script, n);
    }
  }

  /** One call keeps every handshake in one place and returns for one reason. It returns
      exactly at the first pick that is the endpoint's end or a connection of a pending
      handshake, so neither is ever passed over; it counts every incoming connection; it
      ignores a handshake only if it failed, and yields one only if it was established. */
  lemma {:induction false} AcceptConserves(st: Acceptor, script: seq<Pick>)
    requires Conserved(st)
    ensures var r := Accepting(st, script);
            && Conserved(r.st)
            && Explained(st, r.st, script[..r.used])
            && (forall k :: 0 <= k < r.used ==> (ReturnsAt(st, script, k) <==> k == r.used - 1 && !r.out.Waiting?))
            && match r.out
               case Waiting => r.used == |script| && r.st.yielded == st.yielded && EndpointClosed !in script
               case NoMore =>
                 r.used > 0 && script[r.used - 1] == EndpointClosed && r.st.yielded == st.yielded
               case Conn(id) =>
                 && r.used > 0 && script[r.used - 1] == Joined(id, Established)
                 && r.st.yielded == st.yielded + [id]
  {
    var r := Accepting(st, script);
    AcceptFollows(st, script);
    AfterConserves(st, script[..r.used]);
    AfterIsExplained(st, script[..r.used]);
    ReturnedIsYielded(st, script, r);
    assert forall k :: 0 <= k < r.used && script[k].EndpointClosed? ==> ReturnsAt(st, script, k);
  }

  // --------------------------------------------------------------------------
  // All calls
  // --------------------------------------------------------------------------

  /** Where a handshake is, by its fate. */
  ghost predicate Decided(st: Acceptor, picks: seq<Pick>, id: nat) {
    && (id in st.tasks <==> id < Incomings(picks) && Fate(picks, id).None?)
    && (id in st.yielded <==> Fate(picks, id) == Some(Established))
    && (id in st.ignored <==> Fate(picks, id).Some? && Fate(picks, id) != Some(Established))
  }

  lemma {:induction false} FateDecides(picks: seq<Pick>, id: nat)
    ensures Decided(After(EMPTY, picks), picks, id)
    ensures After(EMPTY, picks).arrived == Incomings(picks)
    ensures Fate(picks, id).Some? ==> id < Incomings(picks)
  {
    if picks != [] { FateDecides(picks[..|picks| - 1], id); }
  }

  lemma {:induction false} ServeFollows(calls: seq<seq<Pick>>)
    ensures Serve(calls) == After(EMPTY, Looked(calls))
    ensures Serve(calls).yielded == Returned(calls)
  {
    if calls != [] {
      var front, last := calls[..|calls| - 1], calls[|calls| - 1];
      var r := Accepting(Serve(front), last);
      ServeFollows(front);
      AcceptFollows(Serve(front), last);
      ReturnedIsYielded(Serve(front), last, r);
      AfterConcat(EMPTY, Looked(front), last[..r.used]);
    }
  }

  /** Over any sequence of `accept` calls there is one handshake per incoming connection,
      and each is in exactly one place, which its own fate decides: pending exactly while
      it has not ended, returned by a call, once, exactly if it was established, and
      ignored exactly if it failed. */
  lemma {:induction false} HandshakesConserved(calls: seq<seq<Pick>>)
    ensures var st, picks := Serve(calls), Looked(calls);
            && Conserved(st)
            && st.arrived == Incomings(picks)
            && st.yielded == Returned(calls)
            && forall id: nat :: Decided(st, picks, id)
  {
    var picks := Looked(calls);
    ServeFollows(calls);
    AfterConserves(EMPTY, picks);
    FateDecides(picks, 0);
    forall id: nat ensures Decided(Serve(calls), picks, id) {
      FateDecides(picks, id);
    }
  }

  /** `arrived` is only there to name the handshakes. */
  class H3QuinnAcceptor {
    var tasks: set<nat>
    var arrived: nat

    // history
    ghost var yielded: seq<nat>
    ghost var ignored: seq<nat>

    ghost function View(): Acceptor
      reads this
    {
      Acceptor(tasks, arrived, yielded, ignored)
    }

    constructor ()
      ensures View() == EMPTY
    {
      tasks, arrived, yielded, ignored := {}, 0, [], [];
    }

    /** `select_conn`: on an empty set only the endpoint is awaited, so the join result that
        the code expects is always there. A joined task has left the set. */
    method SelectConn(p: Pick) returns (o: Option<SelectOutput>)
      modifies this`tasks
      ensures o == Select(old(View()), p)
      ensures tasks == match o
                       case Some(NewConn(id)) => old(tasks) - {id}
                       case Some(ConnErr(id)) => old(tasks) - {id}
                       case _ => old(tasks)
    {
      if tasks == {} && p.Joined? {
        return None;
      }
      match p
      case Incoming => o := Some(NewIncoming);
      case EndpointClosed => o := Some(Done);
      case Joined(id, how) =>
        assert tasks != {};
        if id !in tasks {
          return None;
        }
        tasks := tasks - {id};
        match how
        case Established => o := Some(NewConn(id));
        case HandshakeFailed => o := Some(ConnErr(id));
        case Panicked => o := Some(ConnErr(id));
    }

    method Accept(script: seq<Pick>) returns (out: Accepted)
      modifies this
      ensures View() == Accepting(old(View()), script).st
      ensures out == Accepting(old(View()), script).out
    {
      var k := 0;
      while k < |script|
        invariant k <= |script|
        invariant Accepting(View(), script[k..]).st == Accepting(old(View()), script).st
        invariant Accepting(View(), script[k..]).out == Accepting(old(View()), script).out
      {
        assert script[k..][0] == script[k] && script[k..][1..] == script[k + 1..];
        var o := SelectConn(script[k]);
        match o {
          case Some(NewIncoming) =>
            tasks := tasks + {arrived};
            arrived := arrived + 1;
          case Some(NewConn(id)) =>
            yielded := yielded + [id];
            return Conn(id);
          case Some(ConnErr(id)) =>
            ignored := ignored + [id];
          case Some(Done) =>
            return NoMore;
          case None =>
        }
        k := k + 1;
      }
      out := Waiting;
    }
  }
}
