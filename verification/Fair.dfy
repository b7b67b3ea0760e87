/**
 Weighted max-min fair allocation (crates/sched/src/fair.rs).

 Every slot a row may still take in a phase is a ticket; tickets are totally ordered by the
 cross-multiplied ratio `taken / weight`, then by whether taking one moves a slot, then by row.
 A fill hands out tickets in that order.  `IsFill` says so without mentioning the loop or the
 heap: the tickets taken are exactly the ones before the cut.
 */
module Fair {
  import opened Numbers

  datatype Row = Row(
    guarantee: u32,
    ceiling: u32,
    kept: u32,
    held: nat,
    weight: NonZeroU32,
    granted: u32,
    base: u32)

  datatype Phase = Guarantee | Demand | Retention
  {
    function Limit(row: Row): u32 {
      match this
      case Guarantee => row.guarantee
      case Demand => row.ceiling
      case Retention => row.kept
    }
  }

  datatype Ordering = Less | Equal | Greater

  datatype Next = Next(index: nat, taken: nat, weight: NonZeroU32, moving: bool)
  {
    /** `Ord::cmp`. */
    function Cmp(other: Next): Ordering {
      var mine := taken * other.weight;
      var theirs := other.taken * weight;
      if mine != theirs then (if mine < theirs then Less else Greater)
      else if moving != other.moving then (if other.moving then Less else Greater)
      else if index != other.index then (if index < other.index then Less else Greater)
      else Equal
    }
  }

  function After(index: nat, row: Row): Next
    requires row.base <= row.granted
  {
    Next(index, row.granted - row.base + 1, row.weight, row.granted >= row.held)
  }

  // ------------------------------------------------------- the order of tickets

  predicate Before(a: Next, b: Next) { a.Cmp(b) == Less }

  lemma CancelFactor(x: nat, y: nat, v: nat)
    requires v > 0 && x * v <= y * v
    ensures x <= y
  {
  }

  lemma ScaleUp(x: nat, y: nat, v: nat)
    requires v > 0
    ensures x <= y ==> x * v <= y * v
    ensures x < y ==> x * v < y * v
  {
  }

  lemma Regroup(x: nat, y: nat, z: nat)
    ensures (x * y) * z == (x * z) * y
  {
  }

  lemma RatioTransitive(a: nat, u: nat, b: nat, v: nat, c: nat, w: nat)
    requires u > 0 && v > 0 && w > 0
    requires a * v <= b * u && b * w <= c * v
    ensures a * w <= c * u
    ensures (a * v < b * u || b * w < c * v) ==> a * w < c * u
  {
    Regroup(a, w, v);
    Regroup(b, u, w);
    Regroup(c, v, u);
    ScaleUp(a * v, b * u, w);
    ScaleUp(b * w, c * v, u);
    ThroughMiddle(a * w, c * u, v, (b * u) * w);
  }

  lemma ThroughMiddle(x: nat, y: nat, v: nat, middle: nat)
    requires v > 0 && x * v <= middle <= y * v
    ensures x <= y
    ensures x * v < middle || middle < y * v ==> x < y
  {
    CancelFactor(x, y, v);
  }

  lemma BeforeTransitive(a: Next, b: Next, c: Next)
    requires Before(a, b) && Before(b, c)
    ensures Before(a, c)
  {
    RatioTransitive(a.taken, a.weight, b.taken, b.weight, c.taken, c.weight);
    if a.taken * c.weight == c.taken * a.weight {
      assert a.taken * b.weight == b.taken * a.weight;
      assert b.taken * c.weight == c.taken * b.weight;
    }
  }

  /** `Next` is a total order: `Cmp` is antisymmetric and transitive, and only the same row,
      ratio and side compare as equal. */
  lemma NextIsTotalOrder(a: Next, b: Next, c: Next)
    ensures a.Cmp(b) == Less <==> b.Cmp(a) == Greater
    ensures a.Cmp(b) == Equal <==>
              a.index == b.index && a.moving == b.moving && a.taken * b.weight == b.taken * a.weight
    ensures a.Cmp(b) == Less && b.Cmp(c) == Less ==> a.Cmp(c) == Less
    ensures a.Cmp(b) == Equal && b.Cmp(c) == Equal ==> a.Cmp(c) == Equal
  {
    if Before(a, b) && Before(b, c) {
      BeforeTransitive(a, b, c);
    }
    if a.Cmp(b) == Equal && b.Cmp(c) == Equal {
      RatioTransitive(a.taken, a.weight, b.taken, b.weight, c.taken, c.weight);
      RatioTransitive(c.taken, c.weight, b.taken, b.weight, a.taken, a.weight);
    }
  }

  function Ratio(n: Next): real { n.taken as real / n.weight as real }

  lemma RatiosCompare(x: nat, u: nat, y: nat, v: nat)
    requires u > 0 && v > 0
    ensures x as real / u as real < y as real / v as real <==> x * v < y * u
    ensures x as real / u as real == y as real / v as real <==> x * v == y * u
  {
    var a, b, p, q := x as real / u as real, y as real / v as real, u as real, v as real;
    assert a * p == x as real && b * q == y as real;
    RealsScale(a, b, p * q);
    assert a * (p * q) == (a * p) * q == x as real * q;
    assert b * (p * q) == (b * q) * p == y as real * p;
    assert (x * v) as real == x as real * q && (y * u) as real == y as real * p;
  }

  lemma RealsScale(a: real, b: real, k: real)
    requires k > 0.0
    ensures a < b <==> a * k < b * k
    ensures a == b <==> a * k == b * k
  {
    if a < b {
      assert (b - a) * k > 0.0;
    } else if a > b {
      assert (a - b) * k > 0.0;
    }
  }

  /** A ticket comes first if it leaves its row with the smaller ratio of slots to weight; between
      equal ratios, if it does not move a slot and the other does; and then by the order of the rows. */
  lemma NextOrdersRatios(a: Next, b: Next)
    ensures Before(a, b) <==>
              || Ratio(a) < Ratio(b)
              || (Ratio(a) == Ratio(b) && !a.moving && b.moving)
              || (Ratio(a) == Ratio(b) && a.moving == b.moving && a.index < b.index)
  {
    RatiosCompare(a.taken, a.weight, b.taken, b.weight);
  }

  // -------------------------------------------------------------------- fills

  /** What one phase sees of a row: where it starts, how far it may go, and how it competes. */
  datatype Lane = Lane(base: nat, limit: nat, weight: NonZeroU32, held: nat)
  {
    function Top(): nat { Max(base, limit) }
  }

  /** The ticket for the `k`-th slot of lane `i`. */
  function Ticket(lanes: seq<Lane>, i: nat, k: nat): Next
    requires i < |lanes| && lanes[i].base <= k
  {
    Next(i, k - lanes[i].base, lanes[i].weight, k > lanes[i].held)
  }

  function Bases(lanes: seq<Lane>): (r: seq<nat>)
    ensures |r| == |lanes|
  {
    seq(|lanes|, i requires 0 <= i < |lanes| => lanes[i].base)
  }

  function Tops(lanes: seq<Lane>): (r: seq<nat>)
    ensures |r| == |lanes|
  {
    seq(|lanes|, i requires 0 <= i < |lanes| => lanes[i].Top())
  }

  ghost predicate InRange(lanes: seq<Lane>, g: seq<nat>) {
    && |g| == |lanes|
    && forall i :: 0 <= i < |g| ==> lanes[i].base <= g[i] <= lanes[i].Top()
  }

  /** The last ticket lane `i` took. */
  function Taken(lanes: seq<Lane>, g: seq<nat>, i: nat): Next
    requires i < |lanes| == |g| && lanes[i].base <= g[i]
  {
    Ticket(lanes, i, g[i])
  }

  /** The first ticket lane `j` did not take. */
  function Left(lanes: seq<Lane>, g: seq<nat>, j: nat): Next
    requires j < |lanes| == |g| && lanes[j].base <= g[j]
  {
    Ticket(lanes, j, g[j] + 1)
  }

  /** Every ticket taken comes before every ticket left. */
  ghost predicate Cut(lanes: seq<Lane>, g: seq<nat>)
    requires InRange(lanes, g)
  {
    forall i, j {:trigger Taken(lanes, g, i), Left(lanes, g, j)} ::
      0 <= i < |g| && 0 <= j < |g| && g[i] > lanes[i].base && g[j] < lanes[j].limit
      ==> Before(Taken(lanes, g, i), Left(lanes, g, j))
  }

  /** `g` is what a fill leaves when the lanes may hold `budget` slots between them. */
  ghost predicate IsFill(lanes: seq<Lane>, budget: nat, g: seq<nat>) {
    && InRange(lanes, g)
    && Cut(lanes, g)
    && Sum(g) == Min(budget, Sum(Tops(lanes)))
  }

  lemma TicketsRise(lanes: seq<Lane>, i: nat, k: nat, l: nat)
    requires i < |lanes| && lanes[i].base <= k < l
    ensures Before(Ticket(lanes, i, k), Ticket(lanes, i, l))
  {
    var w := lanes[i].weight;
    assert (k - lanes[i].base) * w < (l - lanes[i].base) * w;
  }

  /** The exchange argument: two cuts of the same tickets cannot cross. */
  lemma CutsDoNotCross(lanes: seq<Lane>, g: seq<nat>, h: seq<nat>, i: nat, j: nat)
    requires InRange(lanes, g) && InRange(lanes, h) && Cut(lanes, g) && Cut(lanes, h)
    requires i < |g| && j < |g| && g[i] > h[i]
    ensures g[j] >= h[j]
  {
    if g[j] < h[j] {
      var a, b := Ticket(lanes, i, g[i]), Ticket(lanes, j, h[j]);
      var afterJ, afterI := Ticket(lanes, j, g[j] + 1), Ticket(lanes, i, h[i] + 1);
      assert Before(Taken(lanes, g, i), Left(lanes, g, j));
      assert Before(Taken(lanes, h, j), Left(lanes, h, i));
      if g[j] + 1 < h[j] {
        TicketsRise(lanes, j, g[j] + 1, h[j]);
        BeforeTransitive(a, afterJ, b);
      }
      if h[i] + 1 < g[i] {
        TicketsRise(lanes, i, h[i] + 1, g[i]);
        BeforeTransitive(b, afterI, a);
      }
      NextIsTotalOrder(a, b, a);
      assert false;
    }
  }

  /** A fill with more to hand out takes nothing away. */
  lemma FillMonotone(lanes: seq<Lane>, budget: nat, more: nat, g: seq<nat>, h: seq<nat>)
    requires IsFill(lanes, budget, g) && IsFill(lanes, more, h) && budget <= more
    ensures forall i :: 0 <= i < |g| ==> g[i] <= h[i]
  {
    forall i | 0 <= i < |g| ensures g[i] <= h[i] {
      if g[i] > h[i] {
        var j := SumCrosses(g, h, i);
        CutsDoNotCross(lanes, g, h, i, j);
      }
    }
  }

  /** A fill is determined by its lanes and its budget. */
  lemma FillUnique(lanes: seq<Lane>, budget: nat, g: seq<nat>, h: seq<nat>)
    requires IsFill(lanes, budget, g) && IsFill(lanes, budget, h)
    ensures g == h
  {
    FillMonotone(lanes, budget, budget, g, h);
    FillMonotone(lanes, budget, budget, h, g);
  }

  /** A fill stops at the budget or with every lane at its top. */
  lemma FillShape(lanes: seq<Lane>, budget: nat, g: seq<nat>)
    requires IsFill(lanes, budget, g)
    ensures Sum(Bases(lanes)) <= Sum(g)
    ensures Sum(Tops(lanes)) <= budget ==> g == Tops(lanes)
    ensures budget <= Sum(Bases(lanes)) ==> g == Bases(lanes)
  {
    SumLe(Bases(lanes), g);
    if Sum(Tops(lanes)) <= budget { SumEqual(g, Tops(lanes)); }
    if budget <= Sum(Bases(lanes)) { SumEqual(Bases(lanes), g); }
  }

  /** A ticket with no more taken, on the same row, comes no later. */
  lemma EarlierTicket(a: Next, b: Next, other: Next)
    requires a.index == b.index && a.weight == b.weight && a.taken <= b.taken && (a.moving ==> b.moving)
    requires Before(b, other)
    ensures Before(a, other)
  {
    assert a.taken * other.weight <= b.taken * other.weight;
  }

  /** Lane `t` starts no lower and may go no less far; every other lane is untouched. */
  ghost predicate RaisedLane(lanes: seq<Lane>, raised: seq<Lane>, t: nat) {
    && |lanes| == |raised| && t < |lanes|
    && (forall j :: 0 <= j < |lanes| && j != t ==> raised[j] == lanes[j])
    && raised[t] == lanes[t].(base := raised[t].base, limit := raised[t].limit)
    && lanes[t].base <= raised[t].base && lanes[t].limit <= raised[t].limit
  }

  /** The exchange argument across a raised lane, whose tickets only move forward. */
  lemma RaisedCutsDoNotCross(lanes: seq<Lane>, raised: seq<Lane>, t: nat, g: seq<nat>, h: seq<nat>, j: nat)
    requires RaisedLane(lanes, raised, t)
    requires InRange(lanes, g) && InRange(raised, h) && Cut(lanes, g) && Cut(raised, h)
    requires j < |g| && j != t && g[t] > h[t]
    ensures g[j] >= h[j]
  {
    if g[j] < h[j] {
      var left, theirs := Ticket(lanes, j, g[j] + 1), Ticket(lanes, j, h[j]);
      var mine := Ticket(raised, t, h[t] + 1);
      assert Before(Taken(lanes, g, t), Left(lanes, g, j));
      assert Before(Taken(raised, h, j), Left(raised, h, t));
      EarlierTicket(mine, Ticket(lanes, t, g[t]), left);
      if g[j] + 1 < h[j] {
        TicketsRise(lanes, j, g[j] + 1, h[j]);
        BeforeTransitive(mine, left, theirs);
      }
      NextIsTotalOrder(mine, theirs, mine);
      assert false;
    }
  }

  /** Raising one lane never lowers what that lane is given. */
  lemma FillRaised(lanes: seq<Lane>, raised: seq<Lane>, t: nat, budget: nat, g: seq<nat>, h: seq<nat>)
    requires RaisedLane(lanes, raised, t)
    requires IsFill(lanes, budget, g) && IsFill(raised, budget, h)
    ensures g[t] <= h[t]
  {
    SumLe(Tops(lanes), Tops(raised));
    if g[t] > h[t] {
      var j := SumCrosses(g, h, t);
      RaisedCutsDoNotCross(lanes, raised, t, g, h, j);
      assert false;
    }
  }

  /** Once the slots a fill handed out are the ones held, the tie-break picks the same ones. */
  lemma FillReheld(lanes: seq<Lane>, again: seq<Lane>, budget: nat, g: seq<nat>)
    requires IsFill(lanes, budget, g)
    requires |again| == |lanes| && forall i :: 0 <= i < |g| ==> again[i] == lanes[i].(held := g[i])
    ensures IsFill(again, budget, g)
  {
    assert Tops(again) == Tops(lanes);
    forall i, j | 0 <= i < |g| && 0 <= j < |g| && g[i] > again[i].base && g[j] < again[j].limit
      ensures Before(Taken(again, g, i), Left(again, g, j))
    {
      assert Before(Taken(lanes, g, i), Left(lanes, g, j));
    }
  }

  /** Weighted max-min fairness: a row that gained is not ahead of one still waiting by more
      than the slot that one would take next. */
  lemma FillIsFair(lanes: seq<Lane>, budget: nat, g: seq<nat>, i: nat, j: nat)
    requires IsFill(lanes, budget, g) && i < |g| && j < |g|
    requires g[i] > lanes[i].base && g[j] < lanes[j].limit
    ensures (g[i] - lanes[i].base) * lanes[j].weight <= (g[j] - lanes[j].base + 1) * lanes[i].weight
    ensures Sum(g) == budget
  {
    assert Before(Taken(lanes, g, i), Left(lanes, g, j));
    assert g[j] < Tops(lanes)[j];
    if Sum(g) == Sum(Tops(lanes)) {
      SumEqual(g, Tops(lanes));
      assert false;
    }
  }

  // ------------------------------------------------------------ the imperative fill

  function LaneOf(row: Row, phase: Phase): Lane {
    Lane(row.granted, phase.Limit(row), row.weight, row.held)
  }

  function LanesOf(rows: seq<Row>, phase: Phase): (r: seq<Lane>)
    ensures |r| == |rows|
  {
    seq(|rows|, i requires 0 <= i < |rows| => LaneOf(rows[i], phase))
  }

  function GrantedOf(rows: seq<Row>): (r: seq<nat>)
    ensures |r| == |rows|
  {
    seq(|rows|, i requires 0 <= i < |rows| => rows[i].granted)
  }

  /** The rows differ in nothing but `granted` and `base`. */
  ghost predicate SameRows(a: seq<Row>, b: seq<Row>) {
    && |a| == |b|
    && forall i :: 0 <= i < |a| ==> a[i] == b[i].(granted := a[i].granted, base := a[i].base)
  }

  /** `BinaryHeap<Reverse<Next>>::pop`: the least entry. */
  method PopLeast(queue: set<Next>) returns (least: Next)
    requires queue != {}
    requires forall a, b :: a in queue && b in queue && a.index == b.index ==> a == b
    ensures least in queue
    ensures forall n :: n in queue && n != least ==> Before(least, n)
  {
    least :| least in queue;
    var rest := queue - {least};
    while rest != {}
      invariant rest <= queue && least in queue
      invariant forall n :: n in queue && n !in rest && n != least ==> Before(least, n)
      decreases rest
    {
      var n :| n in rest;
      rest := rest - {n};
      NextIsTotalOrder(least, n, n);
      if n.Cmp(least) == Less {
        forall m | m in queue && m !in rest && m != n ensures Before(n, m) {
          if m != least {
            BeforeTransitive(n, least, m);
          }
        }
        least := n;
      }
    }
  }

  /** The heap holds the next ticket of every row still below its limit, and nothing else. */
  ghost predicate QueueMatches(queue: set<Next>, rows: seq<Row>, phase: Phase) {
    && (forall n :: n in queue ==>
          && n.index < |rows|
          && rows[n.index].base <= rows[n.index].granted < phase.Limit(rows[n.index])
          && n == After(n.index, rows[n.index]))
    && (forall i :: 0 <= i < |rows| && rows[i].base <= rows[i].granted < phase.Limit(rows[i])
          ==> After(i, rows[i]) in queue)
  }

  /** The tickets a fill compares have 32-bit counts, so their products fit the 64 bits the source
      computes them in, whichever two meet in the heap. */
  lemma ComparisonsFit(queue: set<Next>, rows: seq<Row>, phase: Phase, a: Next, b: Next)
    requires QueueMatches(queue, rows, phase) && a in queue && b in queue
    ensures 1 <= a.taken <= U32_MAX && a.taken * b.weight <= U64_MAX
  {
    assert a.taken <= phase.Limit(rows[a.index]);
    ProductFits(a.taken, b.weight);
  }

  lemma ProductFits(a: u32, b: u32)
    ensures a * b <= U64_MAX
  {
    ScaleUp(b, U32_MAX, U32_MAX);
    if a > 0 {
      ScaleUp(b, U32_MAX, a);
      ScaleUp(a, U32_MAX, U32_MAX);
    }
  }

  /** Taking the first of the tickets left keeps the cut. */
  lemma PickKeepsCut(lanes: seq<Lane>, g: seq<nat>, t: nat)
    requires InRange(lanes, g) && Cut(lanes, g)
    requires t < |g| && g[t] < lanes[t].limit
    requires forall j :: 0 <= j < |g| && j != t && g[j] < lanes[j].limit
               ==> Before(Left(lanes, g, t), Left(lanes, g, j))
    ensures InRange(lanes, g[t := g[t] + 1]) && Cut(lanes, g[t := g[t] + 1])
  {
    var h := g[t := g[t] + 1];
    forall i, j | 0 <= i < |h| && 0 <= j < |h| && h[i] > lanes[i].base && h[j] < lanes[j].limit
      ensures Before(Taken(lanes, h, i), Left(lanes, h, j))
    {
      assert Taken(lanes, h, t) == Left(lanes, g, t);
      if j == t {
        TicketsRise(lanes, t, h[t], h[t] + 1);
        if i != t {
          assert Before(Taken(lanes, g, i), Left(lanes, g, t));
          BeforeTransitive(Taken(lanes, h, i), Taken(lanes, h, t), Left(lanes, h, t));
        }
      } else {
        assert Left(lanes, h, j) == Left(lanes, g, j);
        if i != t {
          assert Before(Taken(lanes, g, i), Left(lanes, g, j));
        }
      }
    }
  }

  /** Between two picks every row has moved up from its base within its limit, and the tickets
      taken so far are a cut. */
  ghost predicate Filling(rows: seq<Row>, before: seq<Row>, phase: Phase) {
    && SameRows(rows, before)
    && (forall i :: 0 <= i < |rows| ==> rows[i].base == before[i].granted)
    && InRange(LanesOf(before, phase), GrantedOf(rows))
    && Cut(LanesOf(before, phase), GrantedOf(rows))
  }

  lemma PickKeepsFilling(rows: seq<Row>, before: seq<Row>, phase: Phase, queue: set<Next>, next: Next)
    requires Filling(rows, before, phase) && QueueMatches(queue, rows, phase)
    requires next in queue && forall n :: n in queue && n != next ==> Before(next, n)
    ensures rows[next.index].granted < U32_MAX
    ensures Filling(Raised(rows, next.index), before, phase)
    ensures Sum(GrantedOf(Raised(rows, next.index))) == Sum(GrantedOf(rows)) + 1
  {
    var t := next.index;
    LeastIsFirstLeft(rows, before, phase, queue, next);
    PickKeepsCut(LanesOf(before, phase), GrantedOf(rows), t);
    SumUpdate(GrantedOf(rows), t, rows[t].granted + 1);
    RaisedGrants(rows, t);
    RaisedRows(rows, before, t);
  }

  lemma RaisedRows(rows: seq<Row>, before: seq<Row>, t: nat)
    requires SameRows(rows, before) && forall i :: 0 <= i < |rows| ==> rows[i].base == before[i].granted
    requires t < |rows| && rows[t].granted < U32_MAX
    ensures SameRows(Raised(rows, t), before)
    ensures forall i :: 0 <= i < |rows| ==> Raised(rows, t)[i].base == before[i].granted
  {
  }

  /** The least entry of the heap is the first of the tickets left. */
  lemma LeastIsFirstLeft(rows: seq<Row>, before: seq<Row>, phase: Phase, queue: set<Next>, next: Next)
    requires Filling(rows, before, phase) && QueueMatches(queue, rows, phase)
    requires next in queue && forall n :: n in queue && n != next ==> Before(next, n)
    ensures var lanes, g, t := LanesOf(before, phase), GrantedOf(rows), next.index;
            && g[t] < lanes[t].limit
            && forall j :: 0 <= j < |g| && j != t && g[j] < lanes[j].limit
                 ==> Before(Left(lanes, g, t), Left(lanes, g, j))
  {
    var lanes, g, t := LanesOf(before, phase), GrantedOf(rows), next.index;
    assert next == Left(lanes, g, t);
    forall j | 0 <= j < |g| && j != t && g[j] < lanes[j].limit
      ensures Before(next, Left(lanes, g, j))
    {
      assert lanes[j].base <= g[j] && rows[j].base == lanes[j].base;
      assert After(j, rows[j]) == Left(lanes, g, j);
      assert After(j, rows[j]) in queue;
    }
  }

  lemma RaisedGrants(rows: seq<Row>, t: nat)
    requires t < |rows| && rows[t].granted < U32_MAX
    ensures GrantedOf(Raised(rows, t)) == GrantedOf(rows)[t := rows[t].granted + 1]
  {
  }

  function Raised(rows: seq<Row>, t: nat): (r: seq<Row>)
    requires t < |rows| && rows[t].granted < U32_MAX
  {
    rows[t := rows[t].(granted := rows[t].granted + 1)]
  }

  /** Replacing the popped ticket by the row's next one keeps the heap in step with the rows. */
  lemma PickKeepsQueue(rows: seq<Row>, phase: Phase, queue: set<Next>, next: Next)
    requires QueueMatches(queue, rows, phase) && next in queue
    ensures next.index < |rows| && rows[next.index].granted < U32_MAX
    ensures var row := Raised(rows, next.index)[next.index];
            && row.base <= row.granted
            && QueueMatches(queue - {next} + (if row.granted < phase.Limit(row) then {After(next.index, row)} else {}),
                            Raised(rows, next.index), phase)
  {
  }

  /** The heap the source collects before its loop. */
  method Rebase(rows: array<Row>, phase: Phase) returns (queue: set<Next>)
    modifies rows
    ensures SameRows(rows[..], old(rows[..]))
    ensures forall i :: 0 <= i < rows.Length ==>
              rows[i].granted == old(rows[i].granted) && rows[i].base == old(rows[i].granted)
    ensures QueueMatches(queue, rows[..], phase)
  {
    var n := 0;
    queue := {};
    while n < rows.Length
      invariant 0 <= n <= rows.Length
      invariant forall i :: 0 <= i < n ==> rows[i] == old(rows[i]).(base := old(rows[i]).granted)
      invariant forall i :: n <= i < rows.Length ==> rows[i] == old(rows[i])
      invariant QueueMatches(queue, rows[..n], phase)
    {
      ghost var seen := rows[..n];
      rows[n] := rows[n].(base := rows[n].granted);
      assert rows[..n] == seen;
      assert rows[..n + 1] == seen + [rows[n]];
      if rows[n].granted < phase.Limit(rows[n]) {
        queue := queue + {After(n, rows[n])};
      }
      n := n + 1;
    }
    assert rows[..n] == rows[..];
  }

  /** One turn of the source's loop: the least ticket is taken and the row's next one queued. */
  method Pick(rows: array<Row>, phase: Phase, queue: set<Next>, ghost before: seq<Row>) returns (rest: set<Next>)
    requires Filling(rows[..], before, phase) && QueueMatches(queue, rows[..], phase) && queue != {}
    modifies rows
    ensures Filling(rows[..], before, phase) && QueueMatches(rest, rows[..], phase)
    ensures Sum(GrantedOf(rows[..])) == Sum(old(GrantedOf(rows[..]))) + 1
  {
    ghost var was := rows[..];
    var next := PopLeast(queue);
    PickKeepsFilling(was, before, phase, queue, next);
    PickKeepsQueue(was, phase, queue, next);
    var row := rows[next.index].(granted := rows[next.index].granted + 1);
    rows[next.index] := row;
    assert rows[..] == Raised(was, next.index);
    rest := queue - {next} + (if row.granted < phase.Limit(row) then {After(next.index, row)} else {});
  }

  /** `fill`: hands out up to `remaining` slots within the limits of one phase. */
  method Fill(rows: array<Row>, remaining: u32, phase: Phase) returns (left: u32)
    modifies rows
    ensures SameRows(rows[..], old(rows[..]))
    ensures IsFill(LanesOf(old(rows[..]), phase), Sum(old(GrantedOf(rows[..]))) + remaining, GrantedOf(rows[..]))
    ensures Sum(GrantedOf(rows[..])) + left == Sum(old(GrantedOf(rows[..]))) + remaining
  {
    left := remaining;
    ghost var before := rows[..];
    ghost var lanes := LanesOf(before, phase);
    assert GrantedOf(before) == Bases(lanes);
    if left == 0 {
      NothingToFill(before, phase);
      return;
    }
    var queue := Rebase(rows, phase);
    RebasedIsFilling(rows[..], before, phase);
    while left > 0 && queue != {}
      invariant Filling(rows[..], before, phase)
      invariant QueueMatches(queue, rows[..], phase)
      invariant Sum(GrantedOf(rows[..])) + left == Sum(GrantedOf(before)) + remaining
    {
      queue := Pick(rows, phase, queue, before);
      left := left - 1;
    }
    FillIsDone(rows[..], before, phase, queue);
  }

  lemma NothingToFill(rows: seq<Row>, phase: Phase)
    ensures IsFill(LanesOf(rows, phase), Sum(GrantedOf(rows)), GrantedOf(rows))
  {
    SumLe(GrantedOf(rows), Tops(LanesOf(rows, phase)));
  }

  lemma RebasedIsFilling(rows: seq<Row>, before: seq<Row>, phase: Phase)
    requires SameRows(rows, before)
    requires forall i :: 0 <= i < |rows| ==> rows[i].granted == before[i].granted == rows[i].base
    ensures Filling(rows, before, phase)
    ensures GrantedOf(rows) == Bases(LanesOf(before, phase))
  {
  }

  /** An empty heap means every row reached its limit. */
  lemma FillIsDone(rows: seq<Row>, before: seq<Row>, phase: Phase, queue: set<Next>)
    requires Filling(rows, before, phase) && QueueMatches(queue, rows, phase)
    ensures Sum(GrantedOf(rows)) <= Sum(Tops(LanesOf(before, phase)))
    ensures queue == {} ==> GrantedOf(rows) == Tops(LanesOf(before, phase))
  {
    var g, tops := GrantedOf(rows), Tops(LanesOf(before, phase));
    SumLe(g, tops);
    if g != tops {
      var i :| 0 <= i < |g| && g[i] != tops[i];
      assert LanesOf(before, phase)[i].base <= g[i] <= tops[i];
      assert After(i, rows[i]) in queue;
    }
  }
}
