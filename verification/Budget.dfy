/** Deriving an instance's total budget (crates/core/src/budget.rs). */
module Budget {
  import opened Numbers

  type Instant = nat   // any clock's ticks

  datatype ServerLimits = ServerLimits(maxConnections: u32, superuserReserved: u32, reserved: u32)
  {
    function Reserved(): u32 { SatAdd(superuserReserved, reserved) }
  }

  datatype TotalBudget = TotalBudget(limits: ServerLimits, foreignPeak: u32, margin: u32, total: u32, shortfall: u32)

  /** `TotalBudget::derive`. */
  function Derive(limits: ServerLimits, foreignPeak: u32, margin: u32): TotalBudget {
    var deductions := limits.Reserved() + foreignPeak + margin;
    TotalBudget(limits, foreignPeak, margin,
                Min(SatSub(limits.maxConnections, deductions), U32_MAX),
                Min(SatSub(deductions, limits.maxConnections), U32_MAX))
  }

  /** The budget and what it deducts fit in `max_connections`, and a budget short of nothing uses
      up exactly what the deductions leave. */
  lemma DerivedBudgetFits(limits: ServerLimits, foreignPeak: u32, margin: u32)
    ensures var b := Derive(limits, foreignPeak, margin);
            && b.total <= limits.maxConnections
            && (b.total > 0 ==>
                  b.total + limits.superuserReserved + limits.reserved + foreignPeak + margin == limits.maxConnections)
            && (b.shortfall > 0 ==> b.total == 0)
            && (b.total == 0 && b.shortfall == 0 ==> limits.Reserved() + foreignPeak + margin == limits.maxConnections)
  {
  }

  /** What is derived, on the settings themselves: what `max_connections` leaves after the reserved
      connections, the peak of foreign ones and the margin, and by how much they exceed it.  Only the
      sum of the two reserves saturates. */
  lemma DeriveMeans(limits: ServerLimits, foreignPeak: u32, margin: u32)
    ensures var b, max := Derive(limits, foreignPeak, margin), limits.maxConnections;
            var reserved := limits.superuserReserved + limits.reserved;
            && b.total == Max(0, max - reserved - foreignPeak - margin)
            && b.shortfall == Min(Max(0, Min(reserved, U32_MAX) + foreignPeak + margin - max), U32_MAX)
            && b.limits == limits && b.foreignPeak == foreignPeak && b.margin == margin
  {
  }

  /** A larger peak or margin never grows the budget. */
  lemma DeductionsOnlyShrink(limits: ServerLimits, peak: u32, peak': u32, margin: u32, margin': u32)
    requires peak <= peak' && margin <= margin'
    ensures Derive(limits, peak', margin').total <= Derive(limits, peak, margin).total
  {
  }

  // ------------------------------------------------------------- the naive window

  datatype Sample = Sample(at: Instant, count: u32)

  function Latest(history: seq<Sample>): Instant
    requires history != []
  {
    history[|history| - 1].at
  }

  /** `peak` is the largest count within the window of the latest sample, or 0 with no sample. */
  ghost predicate IsPeak(history: seq<Sample>, window: nat, peak: nat) {
    if history == [] then peak == 0
    else
      && (forall x :: x in history && Latest(history) - x.at <= window ==> x.count <= peak)
      && exists x :: x in history && Latest(history) - x.at <= window && x.count == peak
  }

  lemma PeakIsUnique(history: seq<Sample>, window: nat, a: nat, b: nat)
    requires IsPeak(history, window, a) && IsPeak(history, window, b)
    ensures a == b
  {
  }

  // ------------------------------------------------------------ the decreasing queue

  /** The first loop of `observe`: how far from the front the samples have left the window. */
  function Expired(q: seq<Sample>, window: nat, at: Instant, from: nat): (e: nat)
    requires from <= |q|
    ensures from <= e <= |q| && (e < |q| ==> at - q[e].at <= window)
    ensures forall k :: from <= k < e ==> at - q[k].at > window
    decreases |q| - from
  {
    if from < |q| && at - q[from].at > window then Expired(q, window, at, from + 1) else from
  }

  /** The second loop of `observe`: how far from the back the new sample outdoes them. */
  function Kept(q: seq<Sample>, count: u32, from: nat, to: nat): (k: nat)
    requires from <= to <= |q|
    ensures from <= k <= to && (from < k ==> q[k - 1].count > count)
    ensures forall i :: k <= i < to ==> q[i].count <= count
  {
    if from < to && q[to - 1].count <= count then Kept(q, count, from, to - 1) else to
  }

  function Push(q: seq<Sample>, window: nat, x: Sample): seq<Sample> {
    var e := Expired(q, window, x.at, 0);
    q[e..Kept(q, x.count, e, |q|)] + [x]
  }

  /** What `observe` keeps of the first `m` samples of a history. */
  function Queue(h: seq<Sample>, window: nat, m: nat): seq<Sample>
    requires m <= |h|
  {
    if m == 0 then [] else Push(Queue(h, window, m - 1), window, h[m - 1])
  }

  /** `peak`. */
  function Front(q: seq<Sample>): u32 { if q == [] then 0 else q[0].count }

  function PeakOf(h: seq<Sample>, window: nat): u32 { Front(Queue(h, window, |h|)) }

  lemma {:induction false} QueueOfPrefix(h: seq<Sample>, x: Sample, window: nat, m: nat)
    requires m <= |h|
    ensures Queue(h + [x], window, m) == Queue(h, window, m)
  {
    if m > 0 {
      QueueOfPrefix(h, x, window, m - 1);
    }
  }

  lemma QueueGrows(h: seq<Sample>, x: Sample, window: nat)
    ensures Queue(h + [x], window, |h| + 1) == Push(Queue(h, window, |h|), window, x)
  {
    QueueOfPrefix(h, x, window, |h|);
  }

  // -------------------------------------------------------- when the front is the peak

  /** From the first sample that is within the window of the latest one on, no sample is left behind
      by a later one.  A clock that never goes back is enough; it need not be that good. */
  ghost predicate Orderly(h: seq<Sample>, window: nat) {
    forall i, j, k :: 0 <= i <= j < k < |h| && Latest(h) - h[i].at <= window ==> h[k].at - h[j].at <= window
  }

  /** The samples come in the order of the clock. */
  ghost predicate InOrder(h: seq<Sample>) {
    forall i, j :: 0 <= i < j < |h| ==> h[i].at <= h[j].at
  }

  lemma InOrderIsOrderly(h: seq<Sample>, window: nat)
    requires InOrder(h)
    ensures Orderly(h, window)
  {
    forall i, j, k | 0 <= i <= j < k < |h| && Latest(h) - h[i].at <= window ensures h[k].at - h[j].at <= window {
      assert k == |h| - 1 || h[k].at <= h[|h| - 1].at;
      assert i == j || h[i].at <= h[j].at;
    }
  }

  ghost predicate Decreasing(q: seq<Sample>) {
    forall i, j :: 0 <= i < j < |q| ==> q[i].count > q[j].count
  }

  /** One of the samples from `a` up to `m`. */
  ghost predicate From(h: seq<Sample>, a: nat, m: nat, x: Sample) {
    exists l :: a <= l < m <= |h| && h[l] == x
  }

  /** The queue holds a sample from `a` on that is as large. */
  ghost predicate Outdone(h: seq<Sample>, a: nat, m: nat, q: seq<Sample>, count: u32) {
    exists k :: 0 <= k < |q| && From(h, a, m, q[k]) && count <= q[k].count
  }

  /** Nothing from `a` on is left behind by sample `m`. */
  ghost predicate InReach(h: seq<Sample>, window: nat, a: nat, m: nat) {
    m < |h| && forall l :: a <= l < m ==> h[m].at - h[l].at <= window
  }

  lemma PushDecreases(q: seq<Sample>, window: nat, x: Sample)
    requires Decreasing(q)
    ensures Decreasing(Push(q, window, x))
  {
    var e := Expired(q, window, x.at, 0);
    var k := Kept(q, x.count, e, |q|);
    var r := Push(q, window, x);
    forall i, j | 0 <= i < j < |r| ensures r[i].count > r[j].count {
      if j < |r| - 1 {
        assert q[e + i].count > q[e + j].count;
      } else if e + i < k - 1 {
        assert q[e + i].count > q[k - 1].count;
      }
    }
  }

  lemma {:induction false} QueueDecreases(h: seq<Sample>, window: nat, m: nat)
    requires m <= |h|
    ensures Decreasing(Queue(h, window, m))
  {
    if m > 0 {
      QueueDecreases(h, window, m - 1);
      PushDecreases(Queue(h, window, m - 1), window, h[m - 1]);
    }
  }

  /** Every sample in the queue is one of the history's. */
  lemma {:induction false} QueueIsFrom(h: seq<Sample>, window: nat, m: nat, k: nat)
    requires m <= |h| && k < |Queue(h, window, m)|
    ensures From(h, 0, m, Queue(h, window, m)[k])
  {
    var before := Queue(h, window, m - 1);
    var e := Expired(before, window, h[m - 1].at, 0);
    if k < |Queue(h, window, m)| - 1 {
      QueueIsFrom(h, window, m - 1, e + k);
    } else {
      assert h[m - 1] == Queue(h, window, m)[k];
    }
  }

  lemma PushOutdoes(h: seq<Sample>, window: nat, a: nat, m: nat, q: seq<Sample>, count: u32)
    requires a <= m && InReach(h, window, a, m) && (Outdone(h, a, m, q, count) || count <= h[m].count)
    ensures Outdone(h, a, m + 1, Push(q, window, h[m]), count)
  {
    var x := h[m];
    var e := Expired(q, window, x.at, 0);
    var kept := Kept(q, x.count, e, |q|);
    var r := Push(q, window, x);
    assert h[m] == r[|r| - 1] && From(h, a, m + 1, r[|r| - 1]);
    if count > x.count {
      var k :| 0 <= k < |q| && From(h, a, m, q[k]) && count <= q[k].count;
      var l :| a <= l < m && h[l] == q[k];
      assert x.at - h[l].at <= window;
      assert e <= k < kept;
      assert r[k - e] == h[l] && From(h, a, m + 1, r[k - e]);
    }
  }

  /** Every sample from `a` on is outdone by one the queue holds. */
  lemma {:induction false} QueueOutdoes(h: seq<Sample>, window: nat, a: nat, m: nat, l: nat)
    requires a <= l < m <= |h| && NothingLeftBehind(h, window, a, m)
    ensures Outdone(h, a, m, Queue(h, window, m), h[l].count)
    decreases m
  {
    var n := m - 1;
    if l < n {
      QueueOutdoes(h, window, a, n, l);
    }
    assert a == n || InReach(h, window, a, n);
    PushOutdoes(h, window, a, n, Queue(h, window, n), h[l].count);
  }

  ghost predicate NothingLeftBehind(h: seq<Sample>, window: nat, a: nat, m: nat) {
    forall k: nat :: a < k < m ==> InReach(h, window, a, k)
  }

  lemma FrontInWindow(h: seq<Sample>, window: nat)
    requires h != []
    ensures var q := Queue(h, window, |h|);
            q != [] && Latest(h) - q[0].at <= window && From(h, 0, |h|, q[0])
  {
    QueueIsFrom(h, window, |h|, 0);
  }

  lemma FrontIsLargest(h: seq<Sample>, window: nat, a: nat, l: nat)
    requires a <= l < |h| && NothingLeftBehind(h, window, a, |h|)
    ensures h[l].count <= PeakOf(h, window)
  {
    var q := Queue(h, window, |h|);
    QueueOutdoes(h, window, a, |h|, l);
    QueueDecreases(h, window, |h|);
    var k :| 0 <= k < |q| && From(h, a, |h|, q[k]) && h[l].count <= q[k].count;
    assert k == 0 || q[0].count > q[k].count;
  }

  lemma OrderlyLeavesNothing(h: seq<Sample>, window: nat, l: nat)
    requires Orderly(h, window) && l < |h| && Latest(h) - h[l].at <= window
    ensures NothingLeftBehind(h, window, l, |h|)
  {
  }

  /** The front of the queue is the peak of the window. */
  lemma FrontIsPeak(h: seq<Sample>, window: nat)
    requires Orderly(h, window)
    ensures IsPeak(h, window, PeakOf(h, window))
  {
    if h != [] {
      FrontInWindow(h, window);
      var top := Queue(h, window, |h|)[0];
      var t :| 0 <= t < |h| && h[t] == top;
      assert top in h;
      forall x | x in h && Latest(h) - x.at <= window ensures x.count <= PeakOf(h, window) {
        var l :| 0 <= l < |h| && h[l] == x;
        OrderlyLeavesNothing(h, window, l);
        FrontIsLargest(h, window, l, l);
      }
    }
  }

  // ------------------------------------------------------------ and when it is not

  /** These instants with these counts. */
  function History(instants: seq<Instant>, counts: seq<u32>): (r: seq<Sample>)
    requires |instants| == |counts|
    ensures |r| == |instants| && forall k :: 0 <= k < |r| ==> r[k] == Sample(instants[k], counts[k])
  {
    seq(|instants|, k requires 0 <= k < |instants| => Sample(instants[k], counts[k]))
  }

  ghost predicate AllZero(q: seq<Sample>) { forall k :: 0 <= k < |q| ==> q[k].count == 0 }

  /** Every count is 0, but for a front that is `top`. */
  ghost predicate ZeroBut(q: seq<Sample>, top: Sample) {
    forall k :: 0 <= k < |q| ==> q[k].count == 0 || (k == 0 && q[k] == top)
  }

  lemma PushZero(q: seq<Sample>, window: nat, x: Sample, top: Sample)
    requires x.count == 0 && ZeroBut(q, top)
    ensures ZeroBut(Push(q, window, x), top)
    ensures AllZero(q) || x.at - top.at > window ==> AllZero(Push(q, window, x))
  {
    var e := Expired(q, window, x.at, 0);
    var r := Push(q, window, x);
    forall k | 0 <= k < |r|
      ensures r[k].count == 0 || (k == 0 && r[k] == top && !AllZero(q) && x.at - top.at <= window)
    {
      assert k < |r| - 1 ==> r[k] == q[e + k];
    }
  }

  /** Counts that make the queue lose a sample it should have kept: 2 at `j`, 1 at `i`, 0 elsewhere. */
  function Losing(n: nat, i: nat, j: nat): (r: seq<u32>)
    ensures |r| == n && forall k :: 0 <= k < n ==> r[k] == if k == j then 2 else if k == i then 1 else 0
  {
    seq(n, k requires 0 <= k < n => if k == j then 2 else if k == i then 1 else 0)
  }

  ghost predicate Loses(h: seq<Sample>, window: nat, j: nat, k: nat) {
    && j < k < |h| && h[k].at - h[j].at > window && h[j].count == 2
    && (forall l :: 0 <= l < j ==> h[l].count <= 2) && (forall l :: j < l < |h| ==> h[l].count == 0)
  }

  lemma TopAlone(h: seq<Sample>, window: nat, j: nat)
    requires j < |h| && h[j].count == 2 && forall l :: 0 <= l < j ==> h[l].count <= 2
    ensures Queue(h, window, j + 1) == [h[j]]
  {
    var q := Queue(h, window, j);
    var e := Expired(q, window, h[j].at, 0);
    forall k | 0 <= k < |q| ensures q[k].count <= 2 {
      QueueIsFrom(h, window, j, k);
    }
    var kept := Kept(q, 2, e, |q|);
    assert kept == e;
  }

  lemma {:induction false} LosesTop(h: seq<Sample>, window: nat, j: nat, k: nat, m: nat)
    requires Loses(h, window, j, k) && j < m <= |h|
    ensures ZeroBut(Queue(h, window, m), h[j]) && (k < m ==> AllZero(Queue(h, window, m)))
    decreases m
  {
    if m == j + 1 {
      TopAlone(h, window, j);
    } else {
      LosesTop(h, window, j, k, m - 1);
      PushZero(Queue(h, window, m - 1), window, h[m - 1], h[j]);
    }
  }

  lemma FrontMissesPeak(instants: seq<Instant>, window: nat, i: nat, j: nat, k: nat)
    requires i <= j < k < |instants| && instants[|instants| - 1] - instants[i] <= window
    requires instants[k] - instants[j] > window
    ensures var h := History(instants, Losing(|instants|, i, j));
            !IsPeak(h, window, PeakOf(h, window))
  {
    var h := History(instants, Losing(|instants|, i, j));
    LosesTop(h, window, j, k, |h|);
    assert PeakOf(h, window) == 0;
    assert h[i] in h && h[i].count > 0 && Latest(h) - h[i].at <= window;
  }

  /** The instants allow it: see `Orderly`. */
  ghost predicate OrderlyInstants(instants: seq<Instant>, window: nat) {
    forall i, j, k :: 0 <= i <= j < k < |instants| && instants[|instants| - 1] - instants[i] <= window
      ==> instants[k] - instants[j] <= window
  }

  lemma OrderlyHistory(instants: seq<Instant>, counts: seq<u32>, window: nat)
    requires |counts| == |instants| && OrderlyInstants(instants, window)
    ensures Orderly(History(instants, counts), window)
  {
    var h := History(instants, counts);
    forall i, j, k | 0 <= i <= j < k < |h| && Latest(h) - h[i].at <= window ensures h[k].at - h[j].at <= window {
      assert instants[k] - instants[j] <= window;
    }
  }

  /** Exactly when the queue can be trusted: at given instants its front is the peak of the window,
      whatever the counts, if and only if the instants are orderly. */
  lemma FrontIsPeakIff(instants: seq<Instant>, window: nat)
    ensures OrderlyInstants(instants, window)
            <==> forall counts: seq<u32> :: |counts| == |instants| ==>
                   IsPeak(History(instants, counts), window, PeakOf(History(instants, counts), window))
  {
    if OrderlyInstants(instants, window) {
      forall counts: seq<u32> | |counts| == |instants|
        ensures IsPeak(History(instants, counts), window, PeakOf(History(instants, counts), window))
      {
        OrderlyHistory(instants, counts, window);
        FrontIsPeak(History(instants, counts), window);
      }
    } else {
      var i, j, k :| 0 <= i <= j < k < |instants| && instants[|instants| - 1] - instants[i] <= window
                     && instants[k] - instants[j] > window;
      FrontMissesPeak(instants, window, i, j, k);
    }
  }

  class ForeignPeak {
    const window: nat
    var samples: seq<Sample>
    ghost var history: seq<Sample>

    ghost predicate Valid()
      reads this
    {
      samples == Queue(history, window, |history|)
    }

    constructor (window: nat)
      ensures Valid() && this.window == window && history == []
    {
      this.window := window;
      samples := [];
      history := [];
    }

    /** `observe`. */
    method Observe(at: Instant, count: u32)
      requires Valid()
      modifies this
      ensures Valid() && history == old(history) + [Sample(at, count)]
    {
      QueueGrows(history, Sample(at, count), window);
      samples := Observed(samples, window, Sample(at, count));
      history := history + [Sample(at, count)];
    }

    /** The two loops of `observe`, and the push after them. */
    static method Observed(samples: seq<Sample>, window: nat, sample: Sample) returns (next: seq<Sample>)
      ensures next == Push(samples, window, sample)
    {
      var expired := 0;
      while expired < |samples| && sample.at - samples[expired].at > window
        invariant 0 <= expired <= |samples|
        invariant Expired(samples, window, sample.at, expired) == Expired(samples, window, sample.at, 0)
      {
        expired := expired + 1;
      }
      var kept := |samples|;
      while expired < kept && samples[kept - 1].count <= sample.count
        invariant expired <= kept <= |samples|
        invariant Kept(samples, sample.count, expired, kept) == Kept(samples, sample.count, expired, |samples|)
      {
        kept := kept - 1;
      }
      next := samples[expired..kept] + [sample];
    }

    /** `peak`: the largest count within the window of the latest sample. */
    method Peak() returns (peak: u32)
      requires Valid()
      ensures peak == Front(samples) == PeakOf(history, window)
      ensures Orderly(history, window) || InOrder(history) ==> IsPeak(history, window, peak)
    {
      peak := if samples == [] then 0 else samples[0].count;
      if InOrder(history) {
        InOrderIsOrderly(history, window);
      }
      if Orderly(history, window) {
        FrontIsPeak(history, window);
      }
    }
  }

  datatype BudgetChange = Unchanged | Grew(from: u32, to: u32) | Shrank(from: u32, to: u32)

  function Change(from: u32, to: u32): BudgetChange {
    if to > from then Grew(from, to) else if to < from then Shrank(from, to) else Unchanged
  }

  class InstanceBudget {
    var limits: ServerLimits
    var margin: u32
    const peak: ForeignPeak
    var budget: TotalBudget

    /** The budget is always the one derived from the peak of the window. */
    ghost predicate Valid()
      reads this, peak
    {
      peak.Valid() && budget == Derive(limits, Front(peak.samples), margin)
    }

    constructor (limits: ServerLimits, margin: u32, window: nat)
      ensures Valid() && fresh(peak) && peak.history == [] && peak.window == window
      ensures this.limits == limits && this.margin == margin
    {
      this.limits, this.margin := limits, margin;
      peak := new ForeignPeak(window);
      budget := Derive(limits, 0, margin);
    }

    /** `current`: what is in force is derived from the largest count of foreign connections in the
        window, whatever has been observed and set so far. */
    method Current() returns (b: TotalBudget)
      requires Valid()
      ensures b == budget && (Orderly(peak.history, peak.window) ==> IsPeak(peak.history, peak.window, b.foreignPeak))
      ensures b == Derive(limits, b.foreignPeak, margin)
    {
      var p := peak.Peak();
      b := budget;
    }

    /** `derive`: recomputes the budget and answers which way it moved. */
    method Rederive() returns (change: BudgetChange)
      requires peak.Valid()
      modifies this`budget
      ensures budget == Derive(limits, Front(peak.samples), margin)
      ensures change == Change(old(budget.total), budget.total)
      ensures (change.Grew? <==> budget.total > old(budget.total))
      ensures (change.Shrank? <==> budget.total < old(budget.total))
    {
      var from := budget.total;
      budget := WithMargin(margin);
      change := Change(from, budget.total);
    }

    method Observe(at: Instant, foreignConnections: u32) returns (change: BudgetChange)
      requires Valid()
      modifies this`budget, peak
      ensures Valid() && peak.history == old(peak.history) + [Sample(at, foreignConnections)]
      ensures change == Change(old(budget.total), budget.total)
    {
      peak.Observe(at, foreignConnections);
      change := Rederive();
    }

    method UpdateLimits(limits: ServerLimits) returns (change: BudgetChange)
      requires Valid()
      modifies this`limits, this`budget
      ensures Valid() && this.limits == limits
      ensures change == Change(old(budget.total), budget.total)
    {
      this.limits := limits;
      change := Rederive();
    }

    method SetMargin(margin: u32) returns (change: BudgetChange)
      requires Valid()
      modifies this`margin, this`budget
      ensures Valid() && this.margin == margin
      ensures change == Change(old(budget.total), budget.total)
      ensures old(this.margin) <= margin ==> !change.Grew?
      ensures margin <= old(this.margin) ==> !change.Shrank?
    {
      ghost var was := this.margin;
      this.margin := margin;
      change := Rederive();
      if was <= margin {
        DeductionsOnlyShrink(limits, Front(peak.samples), Front(peak.samples), was, margin);
      } else {
        DeductionsOnlyShrink(limits, Front(peak.samples), Front(peak.samples), margin, was);
      }
    }

    /** `with_margin`: what setting a margin would leave, without setting it. */
    method WithMargin(margin: u32) returns (b: TotalBudget)
      requires peak.Valid()
      ensures b == Derive(limits, Front(peak.samples), margin)
    {
      var p := peak.Peak();
      b := Derive(limits, p, margin);
    }
  }
}
