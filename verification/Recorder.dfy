/** Folding a sequence, element by element through f, with an operation whose order and
    grouping do not matter. */
module Folding {

  function Fold<E, A>(op: (A, A) -> A, unit: A, f: E -> A, xs: seq<E>): A {
    if xs == [] then unit else op(Fold(op, unit, f, xs[..|xs| - 1]), f(xs[|xs| - 1]))
  }

  ghost predicate Associative<A(!new)>(op: (A, A) -> A) {
    forall a, b, c {:trigger op(op(a, b), c)} :: op(op(a, b), c) == op(a, op(b, c))
  }

  ghost predicate Commutative<A(!new)>(op: (A, A) -> A) {
    forall a, b :: op(a, b) == op(b, a)
  }

  ghost predicate Unital<A(!new)>(op: (A, A) -> A, unit: A) {
    forall a :: op(a, unit) == a
  }

  lemma FoldAppend<E, A>(op: (A, A) -> A, unit: A, f: E -> A, xs: seq<E>, x: E)
    ensures Fold(op, unit, f, xs + [x]) == op(Fold(op, unit, f, xs), f(x))
  {
    assert (xs + [x])[..|xs|] == xs;
  }

  lemma {:induction false} FoldConcat<E, A(!new)>(op: (A, A) -> A, unit: A, f: E -> A, xs: seq<E>, ys: seq<E>)
    requires Associative(op) && Unital(op, unit)
    ensures Fold(op, unit, f, xs + ys) == op(Fold(op, unit, f, xs), Fold(op, unit, f, ys))
  {
    if ys == [] {
      assert xs + ys == xs;
    } else {
      var n := |ys| - 1;
      assert (xs + ys)[..|xs + ys| - 1] == xs + ys[..n];
      FoldConcat(op, unit, f, xs, ys[..n]);
    }
  }

  lemma SwapLast<A(!new)>(op: (A, A) -> A, p: A, x: A, q: A)
    requires Associative(op) && Commutative(op)
    ensures op(op(p, x), q) == op(op(p, q), x)
  {
    assert op(x, q) == op(q, x);
  }

  lemma FoldRemove<E, A(!new)>(op: (A, A) -> A, unit: A, f: E -> A, front: seq<E>, x: E, back: seq<E>)
    requires Associative(op) && Commutative(op) && Unital(op, unit)
    ensures Fold(op, unit, f, front + [x] + back) == op(Fold(op, unit, f, front + back), f(x))
  {
    FoldConcat(op, unit, f, front + [x], back);
    FoldConcat(op, unit, f, front, back);
    FoldAppend(op, unit, f, front, x);
    SwapLast(op, Fold(op, unit, f, front), f(x), Fold(op, unit, f, back));
  }

  lemma RemoveFromMultiset<E>(front: seq<E>, x: E, back: seq<E>, xs: seq<E>)
    requires multiset(front + [x] + back) == multiset(xs + [x])
    ensures multiset(front + back) == multiset(xs)
  {
    assert multiset(front + [x] + back) == multiset(front) + multiset{x} + multiset(back);
    assert multiset(front + back) == multiset(front) + multiset(back);
    assert multiset(xs + [x]) == multiset(xs) + multiset{x};
    assert multiset(xs) == multiset(xs) + multiset{x} - multiset{x};
  }

  /** The fold depends only on which elements there are, not on their order. */
  lemma {:induction false} FoldPermutes<E, A(!new)>(op: (A, A) -> A, unit: A, f: E -> A, xs: seq<E>, ys: seq<E>)
    requires Associative(op) && Commutative(op) && Unital(op, unit)
    requires multiset(xs) == multiset(ys)
    ensures Fold(op, unit, f, xs) == Fold(op, unit, f, ys)
    decreases |xs|
  {
    if xs == [] {
      assert |multiset(ys)| == 0;
    } else {
      var n := |xs| - 1;
      var x := xs[n];
      assert x in multiset(ys);
      var k :| 0 <= k < |ys| && ys[k] == x;
      var front, back := ys[..k], ys[k + 1..];
      assert ys == front + [x] + back && xs == xs[..n] + [x];
      RemoveFromMultiset(front, x, back, xs[..n]);
      FoldPermutes(op, unit, f, xs[..n], front + back);
      FoldRemove(op, unit, f, front, x, back);
    }
  }

  function Flatten<E>(parts: seq<seq<E>>): seq<E> {
    if parts == [] then [] else Flatten(parts[..|parts| - 1]) + parts[|parts| - 1]
  }

  function Same<A>(a: A): A { a }

  lemma {:induction false} FoldOfFolds<E, A(!new)>(op: (A, A) -> A, unit: A, f: E -> A, parts: seq<seq<E>>, rs: seq<A>)
    requires Associative(op) && Unital(op, unit)
    requires |rs| == |parts| && forall i :: 0 <= i < |parts| ==> rs[i] == Fold(op, unit, f, parts[i])
    ensures Fold(op, unit, Same, rs) == Fold(op, unit, f, Flatten(parts))
  {
    if parts != [] {
      var n := |parts| - 1;
      FoldOfFolds(op, unit, f, parts[..n], rs[..n]);
      FoldConcat(op, unit, f, Flatten(parts[..n]), parts[n]);
    }
  }
}

/** The benchmark's `Recorder`: per-worker metrics whose merge loses nothing. The
    histogram is abstracted to the multiset of the values recorded into it. */
module Recorder {
  import opened Options
  import opened Folding

  /** Outcome of one request; latencies in whole microseconds. */
  datatype Sample = Success(micros: nat) | Failure

  const U64_MAX: nat := 0xFFFF_FFFF_FFFF_FFFF
  const HIST_MAX: nat := 120_000_000

  /** `min(u64::MAX)`, `max(1)`, and the saturation of the histogram at its upper bound. */
  function Clamp(micros: nat): (value: nat)
    ensures 1 <= value <= HIST_MAX
    ensures 1 <= micros <= HIST_MAX ==> value == micros
    ensures micros > HIST_MAX ==> value == HIST_MAX
  {
    var us := Min(micros, U64_MAX);
    Min(if us < 1 then 1 else us, HIST_MAX)
  }

  datatype Metrics = Metrics(hist: multiset<nat>, success: nat, failure: nat)

  const NOTHING := Metrics(multiset([]), 0, 0)

  /** What one request adds. */
  function Single(s: Sample): Metrics {
    Metrics(if s.Success? then multiset{Clamp(s.micros)} else multiset([]),
            if s.Success? then 1 else 0,
            if s.Failure? then 1 else 0)
  }

  function Join(a: Metrics, b: Metrics): Metrics {
    Metrics(a.hist + b.hist, a.success + b.success, a.failure + b.failure)
  }

  /** Recorders merged in this order. */
  function MergeAll(ms: seq<Metrics>): Metrics {
    Fold(Join, NOTHING, Same, ms)
  }

  /** One recorder that is given all samples in turn. */
  function RecordAll(samples: seq<Sample>): Metrics {
    if samples == [] then NOTHING
    else Join(RecordAll(samples[..|samples| - 1]), Single(samples[|samples| - 1]))
  }

  lemma {:induction false} RecordAllFolds(samples: seq<Sample>)
    ensures RecordAll(samples) == Fold(Join, NOTHING, Single, samples)
  {
    if samples != [] { RecordAllFolds(samples[..|samples| - 1]); }
  }

  lemma JoinIsMonoid()
    ensures Associative(Join) && Commutative(Join) && Unital(Join, NOTHING)
  {
  }

  /** However the samples are split over recorders, and in whatever order the recorders are
      joined, the merged recorder is that of a single one given all samples, in any order. */
  lemma {:induction false} SplitAndMerge(parts: seq<seq<Sample>>, recorders: seq<Metrics>, all: seq<Sample>)
    requires |recorders| == |parts| && forall i :: 0 <= i < |parts| ==> recorders[i] == RecordAll(parts[i])
    requires multiset(all) == multiset(Flatten(parts))
    ensures MergeAll(recorders) == RecordAll(all)
  {
    JoinIsMonoid();
    RecordAllFolds(all);
    forall i | 0 <= i < |parts| ensures recorders[i] == Fold(Join, NOTHING, Single, parts[i]) {
      RecordAllFolds(parts[i]);
    }
    FoldPermutes(Join, NOTHING, Single, all, Flatten(parts));
    FoldOfFolds(Join, NOTHING, Single, parts, recorders);
  }

  lemma RecordOneMore(samples: seq<Sample>, s: Sample)
    ensures RecordAll(samples + [s]) == Join(RecordAll(samples), Single(s))
  {
    assert (samples + [s])[..|samples|] == samples;
  }

  lemma RecordBoth(a: seq<Sample>, b: seq<Sample>)
    ensures RecordAll(a + b) == Join(RecordAll(a), RecordAll(b))
  {
    JoinIsMonoid();
    RecordAllFolds(a);
    RecordAllFolds(b);
    RecordAllFolds(a + b);
    FoldConcat(Join, NOTHING, Single, a, b);
  }

  /** The clamped latencies of the successes among the samples. */
  function Latencies(samples: seq<Sample>): seq<nat> {
    if samples == [] then []
    else
      Latencies(samples[..|samples| - 1])
      + match samples[|samples| - 1]
        case Success(micros) => [Clamp(micros)]
        case Failure => []
  }

  /** A recorder counts each success and each failure as what it is, and its histogram is
      the latencies of the successes. */
  lemma {:induction false} RecordsWhatHappened(samples: seq<Sample>)
    ensures var m := RecordAll(samples);
            && m.success == |Latencies(samples)|
            && m.failure == |samples| - |Latencies(samples)|
            && m.hist == multiset(Latencies(samples))
  {
    if samples != [] { RecordsWhatHappened(samples[..|samples| - 1]); }
  }

  ghost predicate Counted(m: Metrics) {
    |m.hist| == m.success && forall v :: v in m.hist ==> 1 <= v <= HIST_MAX
  }

  lemma CountedStep(m: Metrics, s: Sample)
    requires Counted(m)
    ensures Counted(Join(m, Single(s)))
  {
  }

  /** The histogram holds one value per success, all within its bounds. */
  lemma {:induction false} HistogramCountsSuccesses(samples: seq<Sample>)
    ensures Counted(RecordAll(samples))
    ensures RecordAll(samples).success + RecordAll(samples).failure == |samples|
  {
    if samples != [] {
      var n := |samples| - 1;
      HistogramCountsSuccesses(samples[..n]);
      CountedStep(RecordAll(samples[..n]), samples[n]);
    }
  }

  class Recorder {
    var hist: multiset<nat>
    var success: nat
    var failure: nat
    /** Every sample that was recorded here or merged in. */
    ghost var given: seq<Sample>

    ghost function View(): Metrics
      reads this
    {
      Metrics(hist, success, failure)
    }

    ghost predicate Valid()
      reads this
    {
      View() == RecordAll(given)
    }

    constructor ()
      ensures Valid() && given == [] && View() == NOTHING
    {
      hist, success, failure, given := multiset([]), 0, 0, [];
    }

    method RecordSuccess(micros: nat)
      requires Valid()
      modifies this
      ensures Valid() && given == old(given) + [Success(micros)]
      ensures View() == Join(old(View()), Single(Success(micros)))
    {
      RecordOneMore(given, Success(micros));
      given := given + [Success(micros)];
      success := success + 1;
      var us := Min(micros, U64_MAX);
      var value := if us < 1 then 1 else us;
      hist := hist + multiset{Min(value, HIST_MAX)};
    }

    method RecordFailure()
      requires Valid()
      modifies this
      ensures Valid() && given == old(given) + [Failure]
      ensures View() == Join(old(View()), Single(Failure))
    {
      RecordOneMore(given, Failure);
      given := given + [Failure];
      failure := failure + 1;
    }

    method Merge(other: Recorder)
      requires other != this && Valid() && other.Valid()
      modifies this
      ensures Valid() && given == old(given) + other.given
      ensures View() == Join(old(View()), other.View())
    {
      RecordBoth(given, other.given);
      given := given + other.given;
      hist := hist + other.hist;
      success := success + other.success;
      failure := failure + other.failure;
    }
  }

  /** What joining a worker gives: its recorder, or an error if it panicked. */
  datatype Joined = Finished(rec: Recorder) | Lost

  ghost function Outcome(j: Joined): Metrics
    reads if j.Finished? then {j.rec} else {}
  {
    if j.Finished? then j.rec.View() else Single(Failure)
  }

  lemma LostIsOneFailure()
    ensures RecordAll([Failure]) == Single(Failure)
  {
    RecordOneMore([], Failure);
    assert [] + [Failure] == [Failure];
  }

  /** The join loop at the end of `run_count`: a lost worker counts as one failure. */
  method JoinAll(handles: seq<Joined>, ghost outcomes: seq<Metrics>, ghost reports: seq<seq<Sample>>)
    returns (merged: Recorder)
    requires |outcomes| == |handles| && forall i :: 0 <= i < |handles| ==> outcomes[i] == Outcome(handles[i])
    requires forall i :: 0 <= i < |handles| && handles[i].Finished? ==> handles[i].rec.Valid()
    requires |reports| == |handles|
    requires forall i :: 0 <= i < |handles| ==>
               reports[i] == if handles[i].Finished? then handles[i].rec.given else [Failure]
    ensures fresh(merged) && merged.Valid()
    ensures merged.View() == MergeAll(outcomes)
    ensures merged.given == Flatten(reports)
  {
    merged := new Recorder();
    for k := 0 to |handles|
      invariant fresh(merged) && merged.Valid()
      invariant merged.given == Flatten(reports[..k])
    {
      assert reports[..k + 1][..k] == reports[..k];
      match handles[k] {
        case Finished(r) => merged.Merge(r);
        case Lost => merged.RecordFailure();
      }
    }
    assert reports[..|handles|] == reports;
    LostIsOneFailure();
    SplitAndMerge(reports, outcomes, Flatten(reports));
  }
}
