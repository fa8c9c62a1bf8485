/** `run_count`: workers that claim tickets from one shared 64-bit counter, which wraps
    around, and record one sample per ticket. */
module TicketPool {
  import opened Folding
  import opened Recorder

  const WRAP: nat := U64_MAX + 1

  /** A lost worker panicked or was cancelled, `busy` on a request or between two. */
  datatype Pc = Claiming | Busy | Exited | Lost(busy: bool)

  datatype Worker = Worker(pc: Pc, samples: seq<Sample>)

  /** `claimed` lists the tickets in the order in which they were handed out. */
  datatype Pool = Pool(total: nat, counter: nat, workers: seq<Worker>, claimed: seq<nat>)

  datatype Step = Claim(worker: nat) | Complete(worker: nat, sample: Sample) | Lose(worker: nat)

  /** `concurrency.max(1)` workers. */
  function Spawn(total: nat, concurrency: nat): Pool {
    Pool(total, 0, seq(if concurrency < 1 then 1 else concurrency, _ => Worker(Claiming, [])), [])
  }

  function Set(p: Pool, i: nat, w: Worker): Pool
    requires i < |p.workers|
  {
    p.(workers := p.workers[i := w])
  }

  /** `fetch_add(1)` wraps around at 2^64. */
  function Wrapped(n: nat): nat { if n == WRAP then 0 else n }

  /** The worker is out of its loop, one way or the other. */
  predicate Over(w: Worker) { w.pc.Exited? || w.pc.Lost? }

  /** `fetch_add` and the test of its result are one step, one request is another. */
  function Next(p: Pool, step: Step): Pool {
    match step
    case Claim(i) =>
      if i >= |p.workers| || !p.workers[i].pc.Claiming? then p
      else
        var n := p.counter;
        var q := p.(counter := Wrapped(n + 1));
        if n >= p.total then Set(q, i, p.workers[i].(pc := Exited))
        else Set(q, i, p.workers[i].(pc := Busy)).(claimed := p.claimed + [n])
    case Complete(i, s) =>
      if i >= |p.workers| || !p.workers[i].pc.Busy? then p
      else Set(p, i, Worker(Claiming, p.workers[i].samples + [s]))
    case Lose(i) =>
      if i >= |p.workers| || Over(p.workers[i]) then p
      else Set(p, i, p.workers[i].(pc := Pc.Lost(p.workers[i].pc.Busy?)))
  }

  function Run(p: Pool, steps: seq<Step>): Pool
    decreases |steps|
  {
    if steps == [] then p else Run(Next(p, steps[0]), steps[1..])
  }

  // --------------------------------------------------------------------------
  // Counting
  // --------------------------------------------------------------------------

  datatype Totals = Totals(exited: int, busy: int, done: int)

  function One(w: Worker): Totals {
    Totals(if w.pc.Exited? then 1 else 0, if w.pc.Busy? || w.pc == Pc.Lost(true) then 1 else 0, |w.samples|)
  }

  function Plus(a: Totals, b: Totals): Totals {
    Totals(a.exited + b.exited, a.busy + b.busy, a.done + b.done)
  }

  /** Over the first n workers. */
  function Sum(ws: seq<Worker>, n: nat): (t: Totals)
    requires n <= |ws|
    ensures 0 <= t.exited && 0 <= t.busy && t.exited + t.busy <= n
  {
    if n == 0 then Totals(0, 0, 0) else Plus(Sum(ws, n - 1), One(ws[n - 1]))
  }

  function All(ws: seq<Worker>): Totals { Sum(ws, |ws|) }

  lemma {:induction false} SumUpdate(ws: seq<Worker>, i: nat, w: Worker, n: nat)
    requires i < |ws| && n <= |ws|
    ensures i < n ==> Plus(Sum(ws[i := w], n), One(ws[i])) == Plus(Sum(ws, n), One(w))
    ensures n <= i ==> Sum(ws[i := w], n) == Sum(ws, n)
  {
    if n > 0 { SumUpdate(ws, i, w, n - 1); }
  }

  predicate Nothing(t: Totals) { t.exited == 0 && t.busy == 0 && t.done == 0 }

  predicate Unstarted(w: Worker) { w.pc.Claiming? && w.samples == [] }

  lemma {:induction false} SumOfUnstarted(ws: seq<Worker>, n: nat)
    requires n <= |ws| && forall i :: 0 <= i < n ==> Unstarted(ws[i])
    ensures Nothing(Sum(ws, n))
  {
    if n > 0 {
      SumOfUnstarted(ws, n - 1);
      assert Unstarted(ws[n - 1]);
    }
  }

  lemma {:induction false} NotAllExited(ws: seq<Worker>, i: nat, n: nat)
    requires i < n <= |ws| && !ws[i].pc.Exited?
    ensures Sum(ws, n).exited < n
  {
    if i < n - 1 { NotAllExited(ws, i, n - 1); }
  }

  lemma {:induction false} AllExited(ws: seq<Worker>, n: nat)
    requires n <= |ws| && forall i :: 0 <= i < |ws| ==> ws[i].pc.Exited?
    ensures Sum(ws, n).exited == n && Sum(ws, n).busy == 0
  {
    if n > 0 { AllExited(ws, n - 1); }
  }

  // --------------------------------------------------------------------------
  // Within the range of the counter
  // --------------------------------------------------------------------------

  ghost predicate InSequence(claimed: seq<nat>) {
    forall i :: 0 <= i < |claimed| ==> claimed[i] == i
  }

  ghost predicate Fits(p: Pool) {
    p.total + |p.workers| <= WRAP
  }

  ghost predicate PoolInv(p: Pool) {
    var t := All(p.workers);
    && InSequence(p.claimed) && |p.claimed| <= p.total
    && p.counter == Wrapped(|p.claimed| + t.exited)
    && (t.exited > 0 ==> |p.claimed| == p.total)
    && t.busy + t.done == |p.claimed|
  }

  lemma ClaimKeepsInv(p: Pool, i: nat)
    requires PoolInv(p) && Fits(p) && i < |p.workers| && p.workers[i].pc.Claiming?
    ensures PoolInv(Next(p, Claim(i)))
  {
    NotAllExited(p.workers, i, |p.workers|);
    var t := All(p.workers);
    assert p.counter == |p.claimed| + t.exited;
    SumUpdate(p.workers, i, p.workers[i].(pc := Exited), |p.workers|);
    SumUpdate(p.workers, i, p.workers[i].(pc := Busy), |p.workers|);
  }

  /** A change of one worker that leaves the totals as they are. */
  lemma SameTotalsKeepInv(p: Pool, i: nat, w: Worker)
    requires PoolInv(p) && i < |p.workers|
    requires One(w).exited == One(p.workers[i]).exited
    requires One(w).busy + One(w).done == One(p.workers[i]).busy + One(p.workers[i]).done
    ensures PoolInv(Set(p, i, w))
  {
    SumUpdate(p.workers, i, w, |p.workers|);
  }

  lemma NextKeepsInv(p: Pool, step: Step)
    requires PoolInv(p) && Fits(p)
    ensures PoolInv(Next(p, step)) && Fits(Next(p, step))
    ensures Next(p, step).total == p.total && |Next(p, step).workers| == |p.workers|
  {
    match step
    case Claim(i) => if i < |p.workers| && p.workers[i].pc.Claiming? { ClaimKeepsInv(p, i); }
    case Complete(i, s) =>
      if i < |p.workers| && p.workers[i].pc.Busy? {
        SameTotalsKeepInv(p, i, Worker(Claiming, p.workers[i].samples + [s]));
      }
    case Lose(i) =>
      if i < |p.workers| && !Over(p.workers[i]) {
        SameTotalsKeepInv(p, i, p.workers[i].(pc := Pc.Lost(p.workers[i].pc.Busy?)));
      }
  }

  lemma {:induction false} RunKeepsInv(p: Pool, steps: seq<Step>)
    requires PoolInv(p) && Fits(p)
    ensures PoolInv(Run(p, steps)) && Run(p, steps).total == p.total && |Run(p, steps).workers| == |p.workers|
    decreases |steps|
  {
    if steps != [] {
      NextKeepsInv(p, steps[0]);
      RunKeepsInv(Next(p, steps[0]), steps[1..]);
    }
  }

  /** What the join loop gets from a worker: its samples, or one failure for all it did. */
  function Reported(w: Worker): seq<Sample> { if w.pc.Lost? then [Failure] else w.samples }

  function Reports(ws: seq<Worker>): (parts: seq<seq<Sample>>)
    ensures |parts| == |ws| && forall i :: 0 <= i < |ws| ==> parts[i] == Reported(ws[i])
  {
    seq(|ws|, i requires 0 <= i < |ws| => Reported(ws[i]))
  }

  /** How many workers were lost, and how many tickets they had taken. */
  function LostCount(ws: seq<Worker>, n: nat): nat
    requires n <= |ws|
  {
    if n == 0 then 0 else LostCount(ws, n - 1) + if ws[n - 1].pc.Lost? then 1 else 0
  }

  function LostWork(ws: seq<Worker>, n: nat): nat
    requires n <= |ws|
  {
    if n == 0 then 0
    else LostWork(ws, n - 1) + if ws[n - 1].pc.Lost? then One(ws[n - 1]).busy + One(ws[n - 1]).done else 0
  }

  lemma {:induction false} ReportsAccount(ws: seq<Worker>, n: nat)
    requires n <= |ws| && forall i :: 0 <= i < n ==> Over(ws[i])
    ensures |Flatten(Reports(ws)[..n])| + LostWork(ws, n) == Sum(ws, n).busy + Sum(ws, n).done + LostCount(ws, n)
  {
    if n > 0 {
      ReportsAccount(ws, n - 1);
      assert Over(ws[n - 1]);
      assert Reports(ws)[..n][..n - 1] == Reports(ws)[..n - 1];
    }
  }

  lemma {:induction false} NoneLost(ws: seq<Worker>, n: nat)
    requires n <= |ws| && forall i :: 0 <= i < n ==> ws[i].pc.Exited?
    ensures LostWork(ws, n) == 0 && LostCount(ws, n) == 0
  {
    if n > 0 { NoneLost(ws, n - 1); }
  }

  lemma NothingHappenedInv(p: Pool)
    requires Nothing(All(p.workers)) && p.counter == 0 && p.claimed == []
    ensures PoolInv(p)
  {
  }

  lemma UnstartedTotals(ws: seq<Worker>)
    requires forall i :: 0 <= i < |ws| ==> Unstarted(ws[i])
    ensures Nothing(All(ws))
  {
    SumOfUnstarted(ws, |ws|);
  }

  lemma SpawnInv(total: nat, concurrency: nat)
    ensures PoolInv(Spawn(total, concurrency))
  {
    UnstartedTotals(Spawn(total, concurrency).workers);
    NothingHappenedInv(Spawn(total, concurrency));
  }

  lemma ReachablePool(total: nat, concurrency: nat, steps: seq<Step>)
    requires Fits(Spawn(total, concurrency))
    ensures var p := Run(Spawn(total, concurrency), steps);
            PoolInv(p) && p.total == total && |p.workers| == |Spawn(total, concurrency).workers|
  {
    SpawnInv(total, concurrency);
    RunKeepsInv(Spawn(total, concurrency), steps);
  }

  lemma {:induction false} SomeExited(ws: seq<Worker>, i: nat, n: nat)
    requires i < n <= |ws| && ws[i].pc.Exited?
    ensures Sum(ws, n).exited > 0
  {
    if i < n - 1 { SomeExited(ws, i, n - 1); }
  }

  /** What the join loop merges: a recorder per finished worker, a failure per lost one. */
  ghost predicate Recorded(ws: seq<Worker>, recorders: seq<Metrics>) {
    |recorders| == |ws| && forall i :: 0 <= i < |ws| ==> recorders[i] == RecordAll(Reported(ws[i]))
  }

  function Requests(recorders: seq<Metrics>): nat {
    MergeAll(recorders).success + MergeAll(recorders).failure
  }

  lemma MergedTotal(ws: seq<Worker>, recorders: seq<Metrics>)
    requires Recorded(ws, recorders)
    ensures Requests(recorders) == |Flatten(Reports(ws))|
  {
    SplitAndMerge(Reports(ws), recorders, Flatten(Reports(ws)));
    HistogramCountsSuccesses(Flatten(Reports(ws)));
  }

  lemma OverPool(p: Pool)
    requires PoolInv(p) && forall i :: 0 <= i < |p.workers| ==> Over(p.workers[i])
    ensures |Flatten(Reports(p.workers))| + LostWork(p.workers, |p.workers|)
            == |p.claimed| + LostCount(p.workers, |p.workers|)
  {
    ReportsAccount(p.workers, |p.workers|);
    assert Reports(p.workers)[..|p.workers|] == Reports(p.workers);
  }

  /** When every worker has left its loop or was lost, under any interleaving and wherever
      they were lost: tickets were claimed from 0 on, once each and in order, all of them if
      any worker got to the end, and the merged counts are the tickets claimed, with the
      tickets of each lost worker replaced by one failure. */
  lemma {:induction false} LostWorkIsAccounted(total: nat, concurrency: nat, steps: seq<Step>, recorders: seq<Metrics>)
    requires Fits(Spawn(total, concurrency))
    requires var ws := Run(Spawn(total, concurrency), steps).workers;
             (forall i :: 0 <= i < |ws| ==> Over(ws[i])) && Recorded(ws, recorders)
    ensures var p := Run(Spawn(total, concurrency), steps);
            && InSequence(p.claimed) && |p.claimed| <= total
            && (forall i :: 0 <= i < |p.workers| && p.workers[i].pc.Exited? ==> |p.claimed| == total)
            && Requests(recorders) + LostWork(p.workers, |p.workers|)
               == |p.claimed| + LostCount(p.workers, |p.workers|)
  {
    ReachablePool(total, concurrency, steps);
    var p := Run(Spawn(total, concurrency), steps);
    OverPool(p);
    MergedTotal(p.workers, recorders);
    forall i | 0 <= i < |p.workers| && p.workers[i].pc.Exited? ensures |p.claimed| == total {
      SomeExited(p.workers, i, |p.workers|);
    }
  }

  lemma ExitedPool(p: Pool)
    requires PoolInv(p) && |p.workers| > 0
    requires forall i :: 0 <= i < |p.workers| ==> p.workers[i].pc.Exited?
    ensures |p.claimed| == p.total && p.counter == Wrapped(p.total + |p.workers|)
    ensures LostWork(p.workers, |p.workers|) == 0 && LostCount(p.workers, |p.workers|) == 0
  {
    AllExited(p.workers, |p.workers|);
    NoneLost(p.workers, |p.workers|);
  }

  /** When no worker was lost: tickets 0 to total - 1 were claimed once each and in order,
      the counter stands at total + workers, wrapped around if that is 2^64, and the merged
      recorders account for exactly total requests. */
  lemma {:induction false} EveryTicketOnce(total: nat, concurrency: nat, steps: seq<Step>, recorders: seq<Metrics>)
    requires Fits(Spawn(total, concurrency))
    requires var ws := Run(Spawn(total, concurrency), steps).workers;
             (forall i :: 0 <= i < |ws| ==> ws[i].pc.Exited?) && Recorded(ws, recorders)
    ensures var p := Run(Spawn(total, concurrency), steps);
            && |p.claimed| == total && InSequence(p.claimed)
            && |p.workers| == (if concurrency == 0 then 1 else concurrency)
            && p.counter == Wrapped(total + |p.workers|)
            && Requests(recorders) == total
  {
    ReachablePool(total, concurrency, steps);
    LostWorkIsAccounted(total, concurrency, steps, recorders);
    ExitedPool(Run(Spawn(total, concurrency), steps));
  }

  // --------------------------------------------------------------------------
  // Exactly when the counter is wide enough
  // --------------------------------------------------------------------------

  ghost predicate Distinct(claimed: seq<nat>) {
    forall i, j :: 0 <= i < j < |claimed| ==> claimed[i] != claimed[j]
  }

  lemma {:induction false} RunConcat(p: Pool, a: seq<Step>, b: seq<Step>)
    ensures Run(p, a + b) == Run(Run(p, a), b)
    decreases |a|
  {
    if a == [] {
      assert a + b == b;
    } else {
      assert (a + b)[0] == a[0] && (a + b)[1..] == a[1..] + b;
      RunConcat(Next(p, a[0]), a[1..], b);
    }
  }

  lemma RunTwo(p: Pool, a: Step, b: Step)
    ensures Run(p, [a, b]) == Next(Next(p, a), b)
  {
    assert [a, b][1..] == [b];
    assert Run(Next(p, a), [b]) == Run(Next(Next(p, a), b), []);
  }

  /** Worker 0 alone claims and completes the first k tickets. */
  lemma {:induction false} OneWorkerRun(total: nat, concurrency: nat, k: nat) returns (steps: seq<Step>)
    requires k <= total < WRAP
    ensures var p := Run(Spawn(total, concurrency), steps);
            && p.total == total && p.counter == k && |p.workers| == |Spawn(total, concurrency).workers|
            && |p.claimed| == k && InSequence(p.claimed)
            && forall i :: 0 <= i < |p.workers| ==> p.workers[i].pc.Claiming?
  {
    if k == 0 {
      steps := [];
    } else {
      var front := OneWorkerRun(total, concurrency, k - 1);
      steps := front + [Claim(0), Complete(0, Failure)];
      RunConcat(Spawn(total, concurrency), front, [Claim(0), Complete(0, Failure)]);
      RunTwo(Run(Spawn(total, concurrency), front), Claim(0), Complete(0, Failure));
    }
  }

  /** Then the first j workers leave, each taking the counter one further. */
  lemma {:induction false} LeavingRun(total: nat, concurrency: nat, j: nat) returns (steps: seq<Step>)
    requires total < WRAP && total + j <= WRAP && j <= |Spawn(total, concurrency).workers|
    ensures var p := Run(Spawn(total, concurrency), steps);
            && p.total == total && p.counter == Wrapped(total + j)
            && |p.workers| == |Spawn(total, concurrency).workers|
            && |p.claimed| == total && InSequence(p.claimed)
            && forall i :: j <= i < |p.workers| ==> p.workers[i].pc.Claiming?
  {
    if j == 0 {
      steps := OneWorkerRun(total, concurrency, total);
    } else {
      var front := LeavingRun(total, concurrency, j - 1);
      steps := front + [Claim(j - 1)];
      RunConcat(Spawn(total, concurrency), front, [Claim(j - 1)]);
      assert Run(Run(Spawn(total, concurrency), front), [Claim(j - 1)])
          == Next(Run(Spawn(total, concurrency), front), Claim(j - 1));
    }
  }

  /** With too many workers the counter wraps and ticket 0 is handed out again. */
  lemma WrapClaimsTwice(total: nat, concurrency: nat) returns (steps: seq<Step>)
    requires 0 < total < WRAP && !Fits(Spawn(total, concurrency))
    ensures !Distinct(Run(Spawn(total, concurrency), steps).claimed)
  {
    var j := WRAP - total;
    var front := LeavingRun(total, concurrency, j);
    steps := front + [Claim(j)];
    RunConcat(Spawn(total, concurrency), front, [Claim(j)]);
    var p := Run(Spawn(total, concurrency), front);
    var q := Next(p, Claim(j));
    assert Run(p, [Claim(j)]) == q;
    assert p.counter == 0;
    assert q.claimed == p.claimed + [0];
    assert q.claimed[0] == q.claimed[total] == 0;
  }

  lemma {:induction false} NothingToClaim(p: Pool, steps: seq<Step>)
    requires p.total == 0 && p.claimed == []
    ensures Run(p, steps).claimed == []
    decreases |steps|
  {
    if steps != [] { NothingToClaim(Next(p, steps[0]), steps[1..]); }
  }

  /** No interleaving claims a ticket twice exactly when there are no tickets at all or
      total + workers does not exceed 2^64. */
  lemma ClaimedOnceIffCounterFits(total: nat, concurrency: nat)
    requires total < WRAP
    ensures (forall steps :: Distinct(Run(Spawn(total, concurrency), steps).claimed))
       <==> total == 0 || Fits(Spawn(total, concurrency))
  {
    if total == 0 {
      forall steps
        ensures Distinct(Run(Spawn(total, concurrency), steps).claimed)
      {
        NothingToClaim(Spawn(total, concurrency), steps);
      }
    } else if Fits(Spawn(total, concurrency)) {
      SpawnInv(total, concurrency);
      forall steps
        ensures Distinct(Run(Spawn(total, concurrency), steps).claimed)
      {
        RunKeepsInv(Spawn(total, concurrency), steps);
      }
    } else {
      var steps := WrapClaimsTwice(total, concurrency);
    }
  }
}

/** One worker of `run_count` on the heap: the shared counter, its own recorder, and the
    body of its loop. */
module BenchWorker {
  import opened Recorder
  import Pool = TicketPool

  /** `Arc<AtomicU64>` */
  class Counter {
    var value: nat

    constructor ()
      ensures value == 0
    {
      value := 0;
    }

    method FetchAdd() returns (n: nat)
      requires value < Pool.WRAP
      modifies this
      ensures n == old(value) && value == Pool.Wrapped(n + 1) && value < Pool.WRAP
    {
      n := value;
      value := if n + 1 == Pool.WRAP then 0 else n + 1;
    }
  }

  /** How the echo call under its timeout ended. */
  datatype Reply = Answered(length: nat, micros: nat) | RpcError | TimedOut

  class Worker {
    const counter: Counter
    const total: nat
    const rec: Recorder
    var pc: Pool.Pc

    /** What the worker has recorded is what it has done. */
    ghost function View(): Pool.Worker
      reads this, rec
    {
      Pool.Worker(pc, rec.given)
    }

    constructor (counter: Counter, total: nat)
      ensures rec.Valid() && View() == Pool.Worker(Pool.Claiming, []) && fresh(rec)
      ensures this.counter == counter && this.total == total
    {
      this.counter := counter;
      this.total := total;
      rec := new Recorder();
      pc := Pool.Claiming;
    }

    /** `fetch_add`, and out of the loop once the tickets are used up. */
    method ClaimTicket() returns (n: nat)
      requires pc.Claiming? && counter.value < Pool.WRAP
      modifies this, counter
      ensures n == old(counter.value) && counter.value == Pool.Wrapped(n + 1) < Pool.WRAP
      ensures View() == old(View()).(pc := if n >= total then Pool.Exited else Pool.Busy)
    {
      n := counter.FetchAdd();
      pc := if n >= total then Pool.Exited else Pool.Busy;
    }

    /** `one_request`: one sample, recorded once; a reply of the wrong length is a failure. */
    method OneRequest(reply: Reply, expected: nat)
      requires rec.Valid() && pc.Busy?
      modifies this, rec
      ensures rec.Valid()
      ensures pc.Claiming?
      ensures rec.given == old(rec.given) + [if reply.Answered? && reply.length == expected then Success(reply.micros)
                                             else Failure]
    {
      match reply {
        case Answered(length, micros) =>
          if length == expected {
            rec.RecordSuccess(micros);
          } else {
            rec.RecordFailure();
          }
        case RpcError => rec.RecordFailure();
        case TimedOut => rec.RecordFailure();
      }
      pc := Pool.Claiming;
    }
  }
}
