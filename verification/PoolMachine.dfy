/**
 The pool as a state machine (crates/core/src/pool.rs).

 `Pool` is what the mutex protects.  `Tokens` is everything outside it that stands for one of
 its counters: assignments and reservations in the hands of clients, connections on their way
 back, retired connections being closed, and hand-out loops between two of their turns.  Each
 event is one lock-held section of the source together with the hand-off that follows it, whose
 receiver may be gone; the events of any number of tasks interleave freely.
 */
module PoolMachine {
  import opened Numbers

  type Connection = int
  type Ticket = nat

  datatype Pool = Pool(
    slots: nat,
    idle: seq<Connection>,
    inUse: nat,
    opening: nat,
    closing: nat,
    retiring: seq<Connection>,
    waiters: seq<Ticket>,
    nextTicket: Ticket)
  {
    function Occupied(): nat { |idle| + inUse + opening + closing }

    function Claimed(): nat { |idle| + inUse + opening }

    predicate OverGrant() { Claimed() > slots }

    function Demand(): nat { |waiters| + inUse + opening }
  }

  datatype Tokens = Tokens(
    leased: set<Connection>,   // `Assigned` held by a client
    releasing: set<Connection>,  // `release` has the connection and has not placed it yet
    discarding: nat,             // `Assigned::discard` is closing the connection
    reserved: nat,               // `Reservation` held by whoever is opening a connection
    dropping: nat,               // `Reservation::drop` has not given the slot on yet
    rejected: nat,               // `hand_out` loops that had a slot refused and have not taken it back yet
    batches: map<nat, nat>,      // connections each running `converge` is closing
    handingOut: nat,             // `hand_out` loops between two turns
    popped: seq<Ticket>)         // every ticket taken from the front of the queue, in order

  datatype State = State(pool: Pool, tokens: Tokens)

  datatype Event =
    | Request
    | GiveUp(ticket: Ticket)
    | Retire(id: nat, grant: nat)
    | Closed(id: nat)
    | HandOut(accepted: bool)
    | TakeBack
    | Release(connection: Connection, accepted: bool)
    | PassSlot(accepted: bool)
    | Fulfil(connection: Connection)
    | Abandon
    | Drop(connection: Connection)
    | Discard(connection: Connection)
    | Discarded

  function Init(slots: nat): State {
    State(Pool(slots, [], 0, 0, 0, [], [], 0), Tokens({}, {}, 0, 0, 0, 0, map[], 0, []))
  }

  /** Whether some task can take this step. */
  predicate Enabled(s: State, e: Event) {
    match e
    case Request => true
    case GiveUp(_) => true
    case Retire(id, _) => id !in s.tokens.batches
    case Closed(id) => id in s.tokens.batches
    case HandOut(_) => s.tokens.handingOut > 0
    case TakeBack => s.tokens.rejected > 0
    case Release(c, _) => c in s.tokens.releasing
    case PassSlot(_) => s.tokens.dropping > 0
    case Fulfil(c) => s.tokens.reserved > 0 && Fresh(s, c)
    case Abandon => s.tokens.reserved > 0
    case Drop(c) => c in s.tokens.leased
    case Discard(c) => c in s.tokens.leased
    case Discarded => s.tokens.discarding > 0
  }

  predicate Fresh(s: State, c: Connection) {
    && c !in s.pool.idle && c !in s.pool.retiring
    && c !in s.tokens.leased && c !in s.tokens.releasing
  }

  function Last<T>(s: seq<T>): T requires s != [] { s[|s| - 1] }

  function Init1<T>(s: seq<T>): seq<T> requires s != [] { s[..|s| - 1] }

  /** How many idle connections `retire` takes to come down to `grant`. */
  function Excess(p: Pool, grant: nat): nat { Min(|p.idle|, SatSub(p.Claimed(), grant)) }

  function Without(waiters: seq<Ticket>, ticket: Ticket): (r: seq<Ticket>)
    ensures |r| <= |waiters|
  {
    if waiters == [] then []
    else if waiters[0] == ticket then Without(waiters[1..], ticket)
    else [waiters[0]] + Without(waiters[1..], ticket)
  }

  /** A counter the source decrements; the invariant shows it is never 0 here. */
  function Less(n: nat, gone: nat): nat { SatSub(n, gone) }

  function Apply(s: State, e: Event): State
    requires Enabled(s, e)
  {
    var p, t := s.pool, s.tokens;
    match e
    case Request =>
      if p.idle != [] then
        State(p.(idle := Init1(p.idle), inUse := p.inUse + 1), t.(leased := t.leased + {Last(p.idle)}))
      else if p.Occupied() < p.slots then
        State(p.(opening := p.opening + 1), t.(reserved := t.reserved + 1))
      else
        s.(pool := p.(waiters := p.waiters + [p.nextTicket], nextTicket := p.nextTicket + 1))
    case GiveUp(ticket) =>
      s.(pool := p.(waiters := Without(p.waiters, ticket)))
    case Retire(id, grant) =>
      var n := Excess(p, grant);
      State(p.(slots := grant, idle := p.idle[..|p.idle| - n], closing := p.closing + n, retiring := []),
            t.(batches := t.batches[id := |p.retiring| + n]))
    case Closed(id) =>
      State(p.(closing := Less(p.closing, t.batches[id])),
            t.(batches := t.batches - {id}, handingOut := t.handingOut + 1))
    case HandOut(accepted) =>
      if p.waiters == [] then s.(tokens := t.(handingOut := t.handingOut - 1))
      else if p.idle != [] then
        State(p.(idle := Init1(p.idle), inUse := p.inUse + 1), t.(releasing := t.releasing + {Last(p.idle)}))
      else if p.Occupied() >= p.slots then s.(tokens := t.(handingOut := t.handingOut - 1))
      else
        var t' := t.(popped := t.popped + [p.waiters[0]]);
        State(p.(opening := p.opening + 1, waiters := p.waiters[1..]),
              if accepted then t'.(reserved := t.reserved + 1)
              else t'.(rejected := t.rejected + 1, handingOut := t.handingOut - 1))
    case TakeBack =>
      State(p.(opening := Less(p.opening, 1)), t.(rejected := t.rejected - 1, handingOut := t.handingOut + 1))
    case Release(c, accepted) =>
      if p.OverGrant() then
        State(p.(inUse := Less(p.inUse, 1), closing := p.closing + 1, retiring := p.retiring + [c]),
              t.(releasing := t.releasing - {c}))
      else if p.waiters == [] then
        State(p.(inUse := Less(p.inUse, 1), idle := p.idle + [c]), t.(releasing := t.releasing - {c}))
      else
        var t' := t.(popped := t.popped + [p.waiters[0]]);
        State(p.(waiters := p.waiters[1..]),
              if accepted then t'.(releasing := t.releasing - {c}, leased := t.leased + {c}) else t')
    case PassSlot(accepted) =>
      if p.OverGrant() || p.waiters == [] then
        State(p.(opening := Less(p.opening, 1)), t.(dropping := t.dropping - 1))
      else
        var t' := t.(popped := t.popped + [p.waiters[0]]);
        State(p.(waiters := p.waiters[1..]),
              if accepted then t'.(dropping := t.dropping - 1, reserved := t.reserved + 1) else t')
    case Fulfil(c) =>
      State(p.(opening := Less(p.opening, 1), inUse := p.inUse + 1),
            t.(reserved := t.reserved - 1, leased := t.leased + {c}))
    case Abandon =>
      s.(tokens := t.(reserved := t.reserved - 1, dropping := t.dropping + 1))
    case Drop(c) =>
      s.(tokens := t.(leased := t.leased - {c}, releasing := t.releasing + {c}))
    case Discard(c) =>
      s.(tokens := t.(leased := t.leased - {c}, discarding := t.discarding + 1))
    case Discarded =>
      State(p.(inUse := Less(p.inUse, 1), opening := p.opening + 1),
            t.(discarding := t.discarding - 1, dropping := t.dropping + 1))
  }

  // ------------------------------------------------------------------ invariant

  /** Every counter equals the tokens it counts, so no decrement can underflow. */
  ghost predicate Counted(s: State) {
    && s.pool.inUse == |s.tokens.leased| + |s.tokens.releasing| + s.tokens.discarding
    && s.pool.opening == s.tokens.reserved + s.tokens.dropping + s.tokens.rejected
    && s.pool.closing == |s.pool.retiring| + Total(s.tokens.batches)
  }

  ghost predicate NoDuplicates<T(!new)>(s: seq<T>) {
    forall i, j :: 0 <= i < j < |s| ==> s[i] != s[j]
  }

  /** No connection is in two places: idle, retiring, on its way back, or with one client. */
  ghost predicate Placed(idle: seq<Connection>, retiring: seq<Connection>, leased: set<Connection>,
                         releasing: set<Connection>) {
    && NoDuplicates(idle + retiring)
    && (forall c :: c in leased ==> c !in releasing)
    && (forall c :: c in idle || c in retiring ==> c !in leased && c !in releasing)
  }

  ghost predicate OnePlace(s: State) {
    Placed(s.pool.idle, s.pool.retiring, s.tokens.leased, s.tokens.releasing)
  }

  /** Whatever is over the grant is busy or opening, never idle. */
  ghost predicate IdleWithinGrant(s: State) {
    s.pool.idle != [] ==> s.pool.Claimed() <= s.pool.slots
  }

  ghost predicate Increasing(s: seq<Ticket>) {
    forall i, j :: 0 <= i < j < |s| ==> s[i] < s[j]
  }

  /** Tickets leave the queue in the order they were drawn. */
  ghost predicate Queueing(popped: seq<Ticket>, waiters: seq<Ticket>, bound: Ticket) {
    && Increasing(popped + waiters)
    && (forall i :: 0 <= i < |popped| ==> popped[i] < bound)
    && (forall i :: 0 <= i < |waiters| ==> waiters[i] < bound)
  }

  ghost predicate InTicketOrder(s: State) { Queueing(s.tokens.popped, s.pool.waiters, s.pool.nextTicket) }

  /** A `converge` is closing connections or has not finished handing out. */
  ghost predicate Converging(s: State) {
    s.tokens.batches != map[] || s.tokens.handingOut > 0 || s.tokens.rejected > 0
  }

  /** A client waits only when there is nothing it could be given. */
  ghost predicate NoLostWakeup(s: State) {
    !Converging(s) && s.pool.waiters != [] ==> s.pool.idle == [] && s.pool.Occupied() >= s.pool.slots
  }

  ghost predicate Inv(s: State) {
    Counted(s) && OnePlace(s) && IdleWithinGrant(s) && InTicketOrder(s) && NoLostWakeup(s)
  }

  lemma InitInv(slots: nat)
    ensures Inv(Init(slots))
  {
  }

  lemma AddOne(a: set<Connection>, c: Connection)
    requires c !in a
    ensures |a + {c}| == |a| + 1
  {
  }

  lemma TakeOne(a: set<Connection>, c: Connection)
    requires c in a
    ensures |a - {c}| == |a| - 1
  {
    assert a - {c} + {c} == a;
    AddOne(a - {c}, c);
  }

  /** The connection a step moves between the pool, a client and the way back. */
  lemma StepCountsInUse(s: State, e: Event)
    requires Counted(s) && OnePlace(s) && Enabled(s, e)
    ensures var t := Apply(s, e);
            t.pool.inUse == |t.tokens.leased| + |t.tokens.releasing| + t.tokens.discarding
  {
    var t := s.tokens;
    match e
    case Request => if s.pool.idle != [] { AddOne(t.leased, Last(s.pool.idle)); }
    case HandOut(_) => if s.pool.idle != [] { AddOne(t.releasing, Last(s.pool.idle)); }
    case Release(c, _) => AddOne(t.leased, c); TakeOne(t.releasing, c);
    case Fulfil(c) => AddOne(t.leased, c);
    case Drop(c) => AddOne(t.releasing, c); TakeOne(t.leased, c);
    case Discard(c) => TakeOne(t.leased, c);
    case _ =>
  }

  lemma StepCountsOpening(s: State, e: Event)
    requires Counted(s) && Enabled(s, e)
    ensures var t := Apply(s, e);
            t.pool.opening == t.tokens.reserved + t.tokens.dropping + t.tokens.rejected
  {
  }

  lemma StepCountsClosing(s: State, e: Event)
    requires Counted(s) && Enabled(s, e)
    ensures Apply(s, e).pool.closing == |Apply(s, e).pool.retiring| + Total(Apply(s, e).tokens.batches)
  {
    match e
    case Retire(id, grant) => TotalPut(s.tokens.batches, id, |s.pool.retiring| + Excess(s.pool, grant));
    case Closed(id) => TotalRemove(s.tokens.batches, id);
    case _ =>
  }

  lemma StepCounted(s: State, e: Event)
    requires Counted(s) && OnePlace(s) && Enabled(s, e)
    ensures Counted(Apply(s, e))
  {
    StepCountsInUse(s, e);
    StepCountsOpening(s, e);
    StepCountsClosing(s, e);
  }

  lemma TakenFromIdle(idle: seq<Connection>, retiring: seq<Connection>, leased: set<Connection>,
                      releasing: set<Connection>)
    requires idle != [] && Placed(idle, retiring, leased, releasing)
    ensures Placed(Init1(idle), retiring, leased + {Last(idle)}, releasing)
    ensures Placed(Init1(idle), retiring, leased, releasing + {Last(idle)})
  {
    LastIsOut(idle, retiring);
  }

  lemma RetiredFromIdle(idle: seq<Connection>, retiring: seq<Connection>, leased: set<Connection>,
                        releasing: set<Connection>, n: nat)
    requires n <= |idle| && Placed(idle, retiring, leased, releasing)
    ensures Placed(idle[..n], [], leased, releasing)
  {
    var kept := idle[..n] + [];
    forall i, j | 0 <= i < j < |kept| ensures kept[i] != kept[j] {
      assert (idle + retiring)[i] != (idle + retiring)[j];
    }
  }

  lemma PlacedAgain(idle: seq<Connection>, retiring: seq<Connection>, leased: set<Connection>,
                    releasing: set<Connection>, c: Connection)
    requires c in releasing && Placed(idle, retiring, leased, releasing)
    ensures Placed(idle, retiring + [c], leased, releasing - {c})
    ensures Placed(idle + [c], retiring, leased, releasing - {c})
    ensures Placed(idle, retiring, leased + {c}, releasing - {c})
  {
    AppendedIsIn(idle, retiring, c);
  }

  lemma StepOnePlace(s: State, e: Event)
    requires OnePlace(s) && Enabled(s, e)
    ensures OnePlace(Apply(s, e))
  {
    var p, t := s.pool, s.tokens;
    match e
    case Request => if p.idle != [] { TakenFromIdle(p.idle, p.retiring, t.leased, t.releasing); }
    case HandOut(_) => if p.idle != [] { TakenFromIdle(p.idle, p.retiring, t.leased, t.releasing); }
    case Retire(id, grant) => RetiredFromIdle(p.idle, p.retiring, t.leased, t.releasing, |p.idle| - Excess(p, grant));
    case Release(c, _) => PlacedAgain(p.idle, p.retiring, t.leased, t.releasing, c);
    case _ =>
  }

  lemma LastIsOut(idle: seq<Connection>, retiring: seq<Connection>)
    requires idle != [] && NoDuplicates(idle + retiring)
    ensures NoDuplicates(Init1(idle) + retiring)
    ensures Last(idle) in idle && Last(idle) !in Init1(idle) && Last(idle) !in retiring
  {
    var all, n := idle + retiring, |idle| - 1;
    forall i | 0 <= i < n ensures idle[i] != Last(idle) {
      assert all[i] != all[n];
    }
    forall i | 0 <= i < |retiring| ensures retiring[i] != Last(idle) {
      assert all[n] != all[|idle| + i];
    }
    var rest := Init1(idle) + retiring;
    forall i, j | 0 <= i < j < |rest| ensures rest[i] != rest[j] {
      assert all[if i < n then i else i + 1] != all[if j < n then j else j + 1];
    }
  }

  lemma AppendedIsIn(idle: seq<Connection>, retiring: seq<Connection>, c: Connection)
    requires NoDuplicates(idle + retiring) && c !in idle && c !in retiring
    ensures NoDuplicates(idle + (retiring + [c])) && NoDuplicates((idle + [c]) + retiring)
  {
    var all := idle + retiring;
    assert c !in all;
    assert idle + (retiring + [c]) == all + [c];
    var mid, n := (idle + [c]) + retiring, |idle|;
    forall i, j | 0 <= i < j < |mid| ensures mid[i] != mid[j] {
      if i != n && j != n {
        assert all[if i < n then i else i - 1] != all[if j < n then j else j - 1];
      } else {
        var k := if i == n then j - 1 else i;
        assert all[k] in all;
      }
    }
  }

  lemma StepIdleWithinGrant(s: State, e: Event)
    requires Counted(s) && IdleWithinGrant(s) && Enabled(s, e)
    ensures IdleWithinGrant(Apply(s, e))
  {
  }

  lemma {:induction false} WithoutKeepsOrder(popped: seq<Ticket>, waiters: seq<Ticket>, ticket: Ticket, bound: nat)
    requires Increasing(popped + waiters)
    requires forall i :: 0 <= i < |waiters| ==> waiters[i] < bound
    ensures Increasing(popped + Without(waiters, ticket))
    ensures forall i :: 0 <= i < |Without(waiters, ticket)| ==> Without(waiters, ticket)[i] < bound
    decreases |waiters|
  {
    if waiters != [] {
      var rest := waiters[1..];
      assert popped + waiters == (popped + [waiters[0]]) + rest;
      if waiters[0] == ticket {
        DropMiddle(popped, waiters);
        WithoutKeepsOrder(popped, rest, ticket, bound);
      } else {
        WithoutKeepsOrder(popped + [waiters[0]], rest, ticket, bound);
        assert popped + Without(waiters, ticket) == (popped + [waiters[0]]) + Without(rest, ticket);
      }
    }
  }

  lemma DropMiddle(popped: seq<Ticket>, waiters: seq<Ticket>)
    requires waiters != [] && Increasing(popped + waiters)
    ensures Increasing(popped + waiters[1..])
  {
    var all, rest, n := popped + waiters, popped + waiters[1..], |popped|;
    forall i, j | 0 <= i < j < |rest| ensures rest[i] < rest[j] {
      assert all[if i < n then i else i + 1] < all[if j < n then j else j + 1];
    }
  }

  lemma FirstPopped(popped: seq<Ticket>, waiters: seq<Ticket>, bound: Ticket)
    requires waiters != [] && Queueing(popped, waiters, bound)
    ensures Queueing(popped + [waiters[0]], waiters[1..], bound)
  {
    assert (popped + [waiters[0]]) + waiters[1..] == popped + waiters;
  }

  lemma TicketDrawn(popped: seq<Ticket>, waiters: seq<Ticket>, bound: Ticket)
    requires Queueing(popped, waiters, bound)
    ensures Queueing(popped, waiters + [bound], bound + 1)
  {
    assert popped + (waiters + [bound]) == (popped + waiters) + [bound];
  }

  lemma StepInTicketOrder(s: State, e: Event)
    requires InTicketOrder(s) && Enabled(s, e)
    ensures InTicketOrder(Apply(s, e))
  {
    var popped, waiters, bound := s.tokens.popped, s.pool.waiters, s.pool.nextTicket;
    if waiters != [] {
      FirstPopped(popped, waiters, bound);
    }
    match e
    case GiveUp(ticket) => WithoutKeepsOrder(popped, waiters, ticket, bound);
    case Request => TicketDrawn(popped, waiters, bound);
    case _ =>
  }

  lemma StepNoLostWakeup(s: State, e: Event)
    requires Counted(s) && IdleWithinGrant(s) && NoLostWakeup(s) && Enabled(s, e)
    ensures NoLostWakeup(Apply(s, e))
  {
    match e
    case Retire(id, grant) => assert id in Apply(s, e).tokens.batches;
    case Release(c, _) => ReleaseWakes(s, c, e.accepted);
    case PassSlot(accepted) => PassWakes(s, accepted);
    case _ =>
  }

  lemma ReleaseWakes(s: State, c: Connection, accepted: bool)
    requires Counted(s) && NoLostWakeup(s) && Enabled(s, Release(c, accepted))
    ensures NoLostWakeup(Apply(s, Release(c, accepted)))
  {
    TakeOne(s.tokens.releasing, c);
  }

  lemma PassWakes(s: State, accepted: bool)
    requires Counted(s) && NoLostWakeup(s) && Enabled(s, PassSlot(accepted))
    ensures NoLostWakeup(Apply(s, PassSlot(accepted)))
  {
  }

  /** Every step of every task keeps the invariant. */
  lemma StepKeepsInv(s: State, e: Event)
    requires Inv(s) && Enabled(s, e)
    ensures Inv(Apply(s, e))
  {
    StepCounted(s, e);
    StepOnePlace(s, e);
    StepIdleWithinGrant(s, e);
    StepInTicketOrder(s, e);
    StepNoLostWakeup(s, e);
  }

  // ------------------------------------------------------------------ the theorems

  /** Giving up takes one ticket out of the queue and no other. */
  lemma {:induction false} WithoutOne(waiters: seq<Ticket>, ticket: Ticket, t: Ticket)
    ensures t in Without(waiters, ticket) <==> t in waiters && t != ticket
    ensures |Without(waiters, ticket)| < |waiters| <==> ticket in waiters
    decreases |waiters|
  {
    if waiters != [] {
      WithoutOne(waiters[1..], ticket, t);
      assert waiters == [waiters[0]] + waiters[1..];
    }
  }

  /** The ticket of a client is queued, or has come to the front and been offered something, or the
      client has given it up. */
  lemma StepAccounts(s: State, e: Event, t: Ticket)
    requires Enabled(s, e) && (t in s.pool.waiters || t in s.tokens.popped || t == s.pool.nextTicket)
    requires t < Apply(s, e).pool.nextTicket
    ensures t in Apply(s, e).pool.waiters || t in Apply(s, e).tokens.popped || e == GiveUp(t)
  {
    var waiters := s.pool.waiters;
    if waiters != [] {
      assert waiters == [waiters[0]] + waiters[1..];
    }
    match e
    case GiveUp(ticket) => WithoutOne(waiters, ticket, t);
    case _ =>
  }

  lemma TicketsOnlyRise(s: State, e: Event)
    requires Enabled(s, e)
    ensures s.pool.nextTicket <= Apply(s, e).pool.nextTicket <= s.pool.nextTicket + 1
  {
  }

  /** In every run, no client is forgotten: every ticket ever drawn is still queued, has been offered
      something, or was given up by its client. */
  lemma {:induction false} NoTicketIsLost(slots: nat, events: seq<Event>, states: seq<State>, n: nat, t: Ticket)
    requires IsRun(slots, events, states) && n <= |events| && t < states[n].pool.nextTicket
    ensures || t in states[n].pool.waiters || t in states[n].tokens.popped
            || exists k :: 0 <= k < n && events[k] == GiveUp(t)
  {
    if n > 0 {
      var s, e := states[n - 1], events[n - 1];
      TicketsOnlyRise(s, e);
      if t < s.pool.nextTicket {
        NoTicketIsLost(slots, events, states, n - 1, t);
      }
      if t in s.pool.waiters || t in s.tokens.popped || t == s.pool.nextTicket {
        StepAccounts(s, e, t);
        assert e == GiveUp(t) ==> events[n - 1] == GiveUp(t);
      }
    }
  }

  /** What is counted as occupied: the idle connections, those with a client, on their way back or being
      discarded, the slots reserved, given up or refused, and the connections retired and not closed. */
  lemma OccupiedMeans(s: State)
    requires Reachable(s)
    ensures s.pool.Occupied() == |s.pool.idle| + |s.tokens.leased| + |s.tokens.releasing| + s.tokens.discarding
                                 + s.tokens.reserved + s.tokens.dropping + s.tokens.rejected
                                 + |s.pool.retiring| + Total(s.tokens.batches)
  {
    ReachableHasInv(s);
  }

  /** What is reported as demand: the clients waiting, and everything that is with a client or on its
      way to one or back. */
  lemma DemandMeans(s: State)
    requires Reachable(s)
    ensures s.pool.Demand() == |s.pool.waiters| + |s.tokens.leased| + |s.tokens.releasing| + s.tokens.discarding
                               + s.tokens.reserved + s.tokens.dropping + s.tokens.rejected
  {
    ReachableHasInv(s);
  }

  /** A convergence retires no more than it must: it takes idle connections only down to the grant, the
      ones idle last, and leaves a pool within its grant alone. */
  lemma RetiresOnlyTheExcess(s: State, id: nat, grant: nat)
    requires Enabled(s, Retire(id, grant))
    ensures var p, q := s.pool, Apply(s, Retire(id, grant)).pool;
            && q.idle <= p.idle && q.inUse == p.inUse && q.opening == p.opening && q.waiters == p.waiters
            && (|p.idle| + p.inUse + p.opening <= grant ==> q.idle == p.idle)
            && (|p.idle| + p.inUse + p.opening > grant ==>
                  |q.idle| + q.inUse + q.opening == Max(grant, p.inUse + p.opening))
            && q.closing == p.closing + (|p.idle| - |q.idle|)
            && Apply(s, Retire(id, grant)).tokens.batches[id] == |p.retiring| + (|p.idle| - |q.idle|)
  {
  }

  /** The cap: only a convergence moves the slots, and occupancy rises only into a free slot. */
  lemma OccupancyRisesOnlyIntoFreeSlots(s: State, e: Event)
    requires Counted(s) && Enabled(s, e)
    ensures e.Retire? ==> Apply(s, e).pool.slots == e.grant && Apply(s, e).pool.Occupied() == s.pool.Occupied()
    ensures !e.Retire? ==> Apply(s, e).pool.slots == s.pool.slots
    ensures Apply(s, e).pool.Occupied() > s.pool.Occupied()
            ==> s.pool.Occupied() < s.pool.slots && Apply(s, e).pool.Occupied() == s.pool.Occupied() + 1
  {
  }

  /** No decrement of the source can underflow. */
  lemma NoUnderflow(s: State, e: Event)
    requires Reachable(s) && Enabled(s, e)
    ensures e.TakeBack? || e.PassSlot? || e.Fulfil? ==> s.pool.opening > 0
    ensures e.Release? || e.Discarded? ==> s.pool.inUse > 0
    ensures e.Closed? ==> s.tokens.batches[e.id] <= s.pool.closing
  {
    ReachableHasInv(s);
    if e.Closed? {
      TotalRemove(s.tokens.batches, e.id);
    }
    if e.Release? {
      TakeOne(s.tokens.releasing, e.connection);
    }
  }

  /** A run: the states a sequence of events leads through. */
  ghost predicate IsRun(slots: nat, events: seq<Event>, states: seq<State>) {
    && |states| == |events| + 1
    && states[0] == Init(slots)
    && forall i :: 0 <= i < |events| ==> Enabled(states[i], events[i]) && states[i + 1] == Apply(states[i], events[i])
  }

  lemma {:induction false} RunsKeepInv(slots: nat, events: seq<Event>, states: seq<State>, n: nat)
    requires IsRun(slots, events, states) && n <= |events|
    ensures Inv(states[n])
  {
    if n == 0 {
      InitInv(slots);
    } else {
      RunsKeepInv(slots, events, states, n - 1);
      StepKeepsInv(states[n - 1], events[n - 1]);
    }
  }

  ghost predicate Reachable(s: State) {
    exists slots, events, states :: IsRun(slots, events, states) && states[|events|] == s
  }

  lemma InitIsReachable(slots: nat)
    ensures Reachable(Init(slots))
  {
    assert IsRun(slots, [], [Init(slots)]);
  }

  lemma ReachableHasInv(s: State)
    requires Reachable(s)
    ensures Inv(s)
  {
    var slots, events, states :| IsRun(slots, events, states) && states[|events|] == s;
    RunsKeepInv(slots, events, states, |events|);
  }

  lemma StepIsReachable(s: State, e: Event)
    requires Reachable(s) && Enabled(s, e)
    ensures Reachable(Apply(s, e))
  {
    var slots, events, states :| IsRun(slots, events, states) && states[|events|] == s;
    assert IsRun(slots, events + [e], states + [Apply(s, e)]);
    assert (states + [Apply(s, e)])[|events + [e]|] == Apply(s, e);
  }

  /** In every run, the connections never exceed the largest grant the pool has been given. */
  lemma {:induction false} RunsStayWithinGrants(slots: nat, events: seq<Event>, states: seq<State>, n: nat, cap: nat)
    requires IsRun(slots, events, states) && n <= |events|
    requires forall i :: 0 <= i <= n ==> states[i].pool.slots <= cap
    ensures states[n].pool.Occupied() <= cap
  {
    if n > 0 {
      RunsStayWithinGrants(slots, events, states, n - 1, cap);
      RunsKeepInv(slots, events, states, n - 1);
      OccupancyRisesOnlyIntoFreeSlots(states[n - 1], events[n - 1]);
    }
  }
}
