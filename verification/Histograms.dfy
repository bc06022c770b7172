/**
 * The metrics histogram (launcher/metrics.go). A Prometheus histogram is the list of what it
 * observed, read as cumulative counts with upper-inclusive bounds; floats are reals.
 */
module Histograms {
  import opened Wrappers

  // ----- bounds -----

  ghost predicate ValidBounds(bounds: seq<real>) {
    && bounds != []
    && (forall i :: 0 <= i < |bounds| ==> 0.0 < bounds[i])
    && (forall i, j :: 0 <= i < j < |bounds| ==> bounds[i] < bounds[j])
  }

  /** NewHistogram's check; false stands for its panic. It compares neighbours only. */
  method CheckBounds(bounds: seq<real>) returns (ok: bool)
    ensures ok <==> ValidBounds(bounds)
  {
    if |bounds| == 0 {
      return false;
    }
    for i := 0 to |bounds|
      invariant forall k :: 0 <= k < i ==> 0.0 < bounds[k]
      invariant forall k, j :: 0 <= k < j < i ==> bounds[k] < bounds[j]
    {
      if bounds[i] <= 0.0 {
        return false;
      }
      if i > 0 && bounds[i - 1] >= bounds[i] {
        return false;
      }
    }
    return true;
  }

  // ----- counting -----

  function AtMost(batch: seq<real>, bound: real): (n: nat)
    ensures n <= |batch|
  {
    if batch == [] then 0 else (if batch[0] <= bound then 1 else 0) + AtMost(batch[1..], bound)
  }

  /** Observations above lo and no higher than hi. */
  function Between(batch: seq<real>, lo: real, hi: real): (n: nat) {
    if batch == [] then 0 else (if lo < batch[0] <= hi then 1 else 0) + Between(batch[1..], lo, hi)
  }

  /** The positions of the observations in a half-open range. */
  ghost function InRange(batch: seq<real>, lo: Option<real>, hi: real): set<nat> {
    set k: nat | k < |batch| && (lo.Some? ==> lo.value < batch[k]) && batch[k] <= hi
  }

  lemma {:induction false} CountSnoc(batch: seq<real>, v: real, lo: real, hi: real)
    ensures AtMost(batch + [v], hi) == AtMost(batch, hi) + if v <= hi then 1 else 0
    ensures Between(batch + [v], lo, hi) == Between(batch, lo, hi) + if lo < v <= hi then 1 else 0
  {
    ConcatTail(batch, [v]);
    if batch != [] {
      CountSnoc(batch[1..], v, lo, hi);
    }
  }

  lemma InRangeSnoc(batch: seq<real>, v: real, lo: Option<real>, hi: real)
    ensures InRange(batch + [v], lo, hi) ==
            InRange(batch, lo, hi) + if (lo.Some? ==> lo.value < v) && v <= hi then {|batch|} else {}
    ensures |batch| !in InRange(batch, lo, hi)
  {
  }

  /** The two counts are the numbers of observations at or below a bound, and above one of them. */
  lemma {:induction false} CountsExactly(batch: seq<real>, lo: real, hi: real)
    ensures AtMost(batch, hi) == |InRange(batch, None, hi)|
    ensures Between(batch, lo, hi) == |InRange(batch, Some(lo), hi)|
  {
    if batch != [] {
      var front, v := batch[..|batch| - 1], batch[|batch| - 1];
      assert batch == front + [v];
      CountsExactly(front, lo, hi);
      CountSnoc(front, v, lo, hi);
      InRangeSnoc(front, v, None, hi);
      InRangeSnoc(front, v, Some(lo), hi);
    }
  }

  function Total(batch: seq<real>): (r: real) {
    if batch == [] then 0.0 else batch[0] + Total(batch[1..])
  }

  /** The sum counts every observation once. */
  lemma {:induction false} TotalConcat(a: seq<real>, b: seq<real>)
    ensures Total(a + b) == Total(a) + Total(b)
    ensures forall v: real :: Total([v]) == v
  {
    ConcatTail(a, b);
    if a != [] {
      TotalConcat(a[1..], b);
    }
  }

  function Sum(counts: seq<nat>): (n: nat) {
    if counts == [] then 0 else Sum(counts[..|counts| - 1]) + counts[|counts| - 1]
  }

  /** The values that bucket i is for: up to its bound and above the previous one. */
  function InBucket(bounds: seq<real>, batch: seq<real>, i: nat): (n: nat)
    requires i < |bounds|
  {
    if i == 0 then AtMost(batch, bounds[0]) else Between(batch, bounds[i - 1], bounds[i])
  }

  lemma {:induction false} Difference(batch: seq<real>, lo: real, hi: real)
    requires lo <= hi
    ensures AtMost(batch, hi) == AtMost(batch, lo) + Between(batch, lo, hi)
  {
    if batch != [] {
      Difference(batch[1..], lo, hi);
    }
  }

  datatype Sample = Sample(buckets: seq<nat>, sum: real)

  /** The snapshot of a batch, or nothing for an empty one. */
  ghost function Sampled(bounds: seq<real>, batch: seq<real>): Option<Sample> {
    if batch == [] then None
    else Some(Sample(seq(|bounds|, i requires 0 <= i < |bounds| => InBucket(bounds, batch, i)), Total(batch)))
  }

  /** The second half of Drain: turn cumulative counts into bucket counts. No difference underflows. */
  method Collect(bounds: seq<real>, batch: seq<real>) returns (r: Option<Sample>)
    requires ValidBounds(bounds)
    ensures r == Sampled(bounds, batch)
    ensures r.None? <==> batch == []
    ensures r.Some? ==> Sum(r.value.buckets) == AtMost(batch, bounds[|bounds| - 1])
  {
    if |batch| == 0 {
      return None;
    }
    var buckets: seq<nat> := [];
    var prev: nat := 0;
    for i := 0 to |bounds|
      invariant |buckets| == i
      invariant prev == if i == 0 then 0 else AtMost(batch, bounds[i - 1])
      invariant forall k :: 0 <= k < i ==> buckets[k] == InBucket(bounds, batch, k)
      invariant Sum(buckets) == prev
    {
      var count := AtMost(batch, bounds[i]);
      if i > 0 {
        Difference(batch, bounds[i - 1], bounds[i]);
      }
      assert (buckets + [count - prev])[..i] == buckets;
      buckets := buckets + [count - prev];
      prev := count;
    }
    assert buckets == seq(|bounds|, i requires 0 <= i < |bounds| => InBucket(bounds, batch, i));
    r := Some(Sample(buckets, Total(batch)));
  }

  class Histogram {
    const bounds: seq<real>
    var current: seq<real>

    constructor (bounds: seq<real>)
      requires ValidBounds(bounds)
      ensures this.bounds == bounds && current == []
    {
      this.bounds, current := bounds, [];
    }

    /** Negative values are ignored. */
    method Observe(v: real)
      modifies this
      ensures current == if v < 0.0 then old(current) else old(current) + [v]
    {
      if v < 0.0 {
        return;
      }
      current := current + [v];
    }

    /** Take everything observed so far and start afresh. */
    method Drain() returns (r: Option<Sample>)
      requires ValidBounds(bounds)
      modifies this
      ensures current == [] && r == Sampled(bounds, old(current))
      ensures r.None? <==> old(current) == []
    {
      var batch := current;
      current := [];
      r := Collect(bounds, batch);
    }
  }

  // ----- observers and drains side by side -----

  /** Where an observation is now. */
  datatype Loc = Current | Swapped(drain: nat) | Reported(k: nat)

  /** A drained batch with its sample. */
  datatype Report = Report(batch: seq<nat>, sample: Option<Sample>)

  /**
   * Observations are named by their position in `accepted`; `accepted` and `place` are histories.
   * `unread` holds histograms that a Drain has swapped out and not read yet.
   */
  datatype State = State(
    bounds: seq<real>,
    current: seq<nat>,
    unread: map<nat, seq<nat>>,
    reports: seq<Report>,
    accepted: seq<real>,
    place: seq<Loc>)

  function Start(bounds: seq<real>): (s: State) {
    State(bounds, [], map[], [], [], [])
  }

  datatype Event = Observe(v: real) | Swap(drain: nat) | Read(drain: nat)

  predicate Enabled(s: State, e: Event) {
    match e
    case Observe(_) => true
    case Swap(d) => d !in s.unread
    case Read(d) => d in s.unread
  }

  ghost predicate Within(s: State, batch: seq<nat>) {
    forall k :: 0 <= k < |batch| ==> batch[k] < |s.accepted|
  }

  /** What was observed; a batch never names anything else. */
  ghost function Values(s: State, batch: seq<nat>): seq<real> {
    seq(|batch|, k requires 0 <= k < |batch| => if batch[k] < |s.accepted| then s.accepted[batch[k]] else 0.0)
  }

  ghost function Moved(place: seq<Loc>, from: Loc, to: Loc): seq<Loc> {
    seq(|place|, i requires 0 <= i < |place| => if place[i] == from then to else place[i])
  }

  ghost function Apply(s: State, e: Event): State
    requires Enabled(s, e)
  {
    match e
    case Observe(v) =>
      if v < 0.0 then s
      else s.(current := s.current + [|s.accepted|], accepted := s.accepted + [v], place := s.place + [Current])
    case Swap(d) =>
      s.(current := [], unread := s.unread[d := s.current], place := Moved(s.place, Current, Swapped(d)))
    case Read(d) =>
      var batch := s.unread[d];
      s.(unread := s.unread - {d},
         reports := s.reports + [Report(batch, Sampled(s.bounds, Values(s, batch)))],
         place := Moved(s.place, Swapped(d), Reported(|s.reports|)))
  }

  ghost predicate Known(s: State) {
    forall d :: d in s.unread ==> Within(s, s.unread[d])
  }

  ghost function At(s: State, loc: Loc): seq<nat> {
    match loc
    case Current => s.current
    case Swapped(d) => if d in s.unread then s.unread[d] else []
    case Reported(k) => if k < |s.reports| then s.reports[k].batch else []
  }

  ghost predicate LocOk(s: State, loc: Loc) {
    Distinct(At(s, loc)) && forall i :: i in At(s, loc) <==> 0 <= i < |s.place| && s.place[i] == loc
  }

  ghost predicate Inv(s: State) {
    && |s.place| == |s.accepted|
    && (forall loc :: LocOk(s, loc))
    && Known(s)
    && (forall k :: 0 <= k < |s.reports| ==>
          && Within(s, s.reports[k].batch)
          && s.reports[k].sample == Sampled(s.bounds, Values(s, s.reports[k].batch)))
    && (forall i :: 0 <= i < |s.accepted| ==> s.accepted[i] >= 0.0)
  }

  lemma ObserveKeeps(s: State, v: real)
    requires Inv(s)
    ensures Inv(Apply(s, Observe(v)))
  {
    var s' := Apply(s, Observe(v));
    if v >= 0.0 {
      assert |s.accepted| !in s.current by {
        assert LocOk(s, Current);
      }
      DistinctConcat(s.current, [|s.accepted|]);
      forall loc ensures LocOk(s', loc) {
        assert LocOk(s, loc);
      }
      forall k | 0 <= k < |s'.reports|
        ensures s'.reports[k].sample == Sampled(s'.bounds, Values(s', s'.reports[k].batch))
      {
        assert Values(s', s.reports[k].batch) == Values(s, s.reports[k].batch);
      }
    }
  }

  lemma MoveKeepsLocs(s: State, e: Event, from: Loc, to: Loc)
    requires Inv(s) && Enabled(s, e) && from != to
    requires var s' := Apply(s, e);
             && s'.accepted == s.accepted && s'.place == Moved(s.place, from, to)
             && At(s', to) == At(s, from) && At(s', from) == [] && At(s, to) == []
             && forall loc :: loc != from && loc != to ==> At(s', loc) == At(s, loc)
    ensures forall loc :: LocOk(Apply(s, e), loc)
  {
    var s' := Apply(s, e);
    forall loc ensures LocOk(s', loc) {
      assert LocOk(s, loc) && LocOk(s, from) && LocOk(s, to);
    }
  }

  lemma SwapKeeps(s: State, d: nat)
    requires Inv(s) && Enabled(s, Swap(d))
    ensures Inv(Apply(s, Swap(d)))
  {
    var s' := Apply(s, Swap(d));
    assert LocOk(s, Current);
    assert forall k :: 0 <= k < |s.current| ==> s.current[k] in At(s, Current);
    MoveKeepsLocs(s, Swap(d), Current, Swapped(d));
    forall k | 0 <= k < |s'.reports|
      ensures s'.reports[k].sample == Sampled(s'.bounds, Values(s', s'.reports[k].batch))
    {
      assert Values(s', s.reports[k].batch) == Values(s, s.reports[k].batch);
    }
  }

  lemma ReadKeeps(s: State, d: nat)
    requires Inv(s) && Enabled(s, Read(d))
    ensures Inv(Apply(s, Read(d)))
  {
    var s' := Apply(s, Read(d));
    MoveKeepsLocs(s, Read(d), Swapped(d), Reported(|s.reports|));
    forall k | 0 <= k < |s'.reports|
      ensures Within(s', s'.reports[k].batch)
      ensures s'.reports[k].sample == Sampled(s'.bounds, Values(s', s'.reports[k].batch))
    {
      assert Values(s', s'.reports[k].batch) == Values(s, s'.reports[k].batch);
    }
  }

  lemma StepKeeps(s: State, e: Event)
    requires Inv(s) && Enabled(s, e)
    ensures Inv(Apply(s, e))
  {
    match e
    case Observe(v) => ObserveKeeps(s, v);
    case Swap(d) => SwapKeeps(s, d);
    case Read(d) => ReadKeeps(s, d);
  }

  /** Any interleaving: the states a schedule goes through. */
  ghost predicate Run(states: seq<State>, es: seq<Event>) {
    && |states| == |es| + 1 && ValidBounds(states[0].bounds) && states[0] == Start(states[0].bounds)
    && forall i :: 0 <= i < |es| ==>
         Enabled(states[i], es[i]) && states[i + 1] == Apply(states[i], es[i])
  }

  lemma {:induction false} RunKeeps(states: seq<State>, es: seq<Event>, n: nat)
    requires Run(states, es) && n < |states|
    ensures Inv(states[n])
  {
    if n == 0 {
      forall loc ensures LocOk(states[0], loc) {
      }
    } else {
      RunKeeps(states, es, n - 1);
      StepKeeps(states[n - 1], es[n - 1]);
    }
  }

  /** The non-negative values among the observed ones, in order. */
  function NonNegative(es: seq<Event>): (vs: seq<real>) {
    if es == [] then []
    else
      var e := es[|es| - 1];
      NonNegative(es[..|es| - 1]) + if e.Observe? && e.v >= 0.0 then [e.v] else []
  }

  /** In every run exactly the non-negative observations are accepted, in order. */
  lemma {:induction false} AcceptedExactly(states: seq<State>, es: seq<Event>, n: nat)
    requires Run(states, es) && n < |states|
    ensures states[n].accepted == NonNegative(es[..n])
  {
    if n > 0 {
      AcceptedExactly(states, es, n - 1);
      assert es[..n][..n - 1] == es[..n - 1] && es[..n][n - 1] == es[n - 1];
      assert states[n] == Apply(states[n - 1], es[n - 1]);
    }
  }

  /**
   * Conservation: at every point of every run each accepted observation is in exactly one place,
   * the current histogram, one swapped out and unread, or one drained batch, and there once; each
   * drained sample counts exactly its batch.
   */
  lemma Conservation(states: seq<State>, es: seq<Event>, n: nat)
    requires Run(states, es) && n < |states|
    ensures var s := states[n];
            && |s.place| == |s.accepted|
            && (forall i :: 0 <= i < |s.accepted| ==> i in At(s, s.place[i]))
            && (forall loc, i :: i in At(s, loc) ==> i < |s.accepted| && s.place[i] == loc)
            && (forall loc :: Distinct(At(s, loc)))
            && (forall k :: 0 <= k < |s.reports| ==>
                  && Within(s, s.reports[k].batch)
                  && s.reports[k].sample == Sampled(s.bounds, Values(s, s.reports[k].batch))
                  && (s.reports[k].sample.None? <==> s.reports[k].batch == []))
  {
    RunKeeps(states, es, n);
    var s := states[n];
    forall loc ensures LocOk(s, loc) && Distinct(At(s, loc)) {
    }
    forall i | 0 <= i < |s.accepted| ensures i in At(s, s.place[i]) {
      assert LocOk(s, s.place[i]);
    }
  }
}
