/**
 The pool's code (crates/core/src/pool.rs): the fields the mutex protects, one method for each
 lock-held section, and the retry loops of `hand_out`, `release` and `Reservation::drop`.

 Every method is given, as a ghost, the tokens outside the lock and answers what became of them,
 and each loop the events it went through: from the state before they lead, every one enabled, to
 the state after, so the code performs runs of `PoolMachine`.  `gone` is the set of queued clients
 that no longer receive: a hand-off to one of them is rejected.
 */
module SharedPool {
  import opened Numbers
  import opened PoolMachine
  import opened PoolLoops

  datatype Answer = Assigned(connection: Connection) | Reserved | Queued(ticket: Ticket)

  class Inner {
    var slots: nat
    var idle: seq<Connection>
    var inUse: nat
    var opening: nat
    var closing: nat
    var retiring: seq<Connection>
    var waiters: seq<Ticket>
    var nextTicket: Ticket

    ghost function View(): Pool
      reads this
    {
      Pool(slots, idle, inUse, opening, closing, retiring, waiters, nextTicket)
    }

    /** The whole state: what the lock protects, and the tokens outside it. */
    ghost function With(tokens: Tokens): State
      reads this
    {
      State(View(), tokens)
    }

    constructor (slots: nat)
      ensures With(Init(slots).tokens) == Init(slots)
      ensures Reachable(With(Init(slots).tokens))
    {
      this.slots, idle, inUse, opening, closing := slots, [], 0, 0, 0;
      retiring, waiters, nextTicket := [], [], 0;
      InitIsReachable(slots);
    }

    method Request(ghost tokens: Tokens) returns (answer: Answer, ghost next: Tokens)
      requires Reachable(With(tokens))
      modifies this
      ensures With(next) == Apply(old(With(tokens)), Event.Request) && Reachable(With(next))
      ensures answer.Assigned? ==> old(idle) == idle + [answer.connection] && answer.connection in next.leased
      ensures answer.Assigned? <==> old(idle) != []
      ensures answer.Reserved? <==> old(idle) == [] && old(inUse + opening + closing) < slots
      ensures answer.Reserved? ==> next.reserved == tokens.reserved + 1
      ensures answer.Queued? ==> answer.ticket == old(nextTicket)
      ensures answer.Queued? ==> waiters == old(waiters) + [answer.ticket] && idle == [] && View().Occupied() >= slots
    {
      next := Apply(With(tokens), Event.Request).tokens;
      StepIsReachable(With(tokens), Event.Request);
      if idle != [] {
        answer := Assigned(Last(idle));
        idle := Init1(idle);
        inUse := inUse + 1;
      } else if |idle| + inUse + opening + closing < slots {
        opening := opening + 1;
        answer := Reserved;
      } else {
        answer := Queued(nextTicket);
        waiters := waiters + [nextTicket];
        nextTicket := nextTicket + 1;
      }
    }

    method GiveUp(ticket: Ticket, ghost tokens: Tokens) returns (left: bool)
      requires Reachable(With(tokens))
      modifies this
      ensures With(tokens) == Apply(old(With(tokens)), Event.GiveUp(ticket)) && Reachable(With(tokens))
      ensures left <==> ticket in old(waiters)
      ensures forall t :: t in waiters <==> t in old(waiters) && t != ticket
      ensures Increasing(waiters) && Increasing(old(waiters))
    {
      forall t ensures t in Without(waiters, ticket) <==> t in waiters && t != ticket {
        WithoutOne(waiters, ticket, t);
      }
      WithoutOne(waiters, ticket, ticket);
      QueueIncreases(With(tokens));
      StepIsReachable(With(tokens), Event.GiveUp(ticket));
      QueueIncreases(Apply(With(tokens), Event.GiveUp(ticket)));
      var queued := |waiters|;
      waiters := Without(waiters, ticket);
      left := |waiters| != queued;
    }

    /** `retire`: takes idle connections until nothing idle is over the grant. */
    method Retire(id: nat, grant: nat, ghost tokens: Tokens) returns (retired: seq<Connection>, ghost next: Tokens)
      requires Reachable(With(tokens)) && id !in tokens.batches
      modifies this
      ensures With(next) == Apply(old(With(tokens)), Event.Retire(id, grant)) && Reachable(With(next))
      ensures next.batches[id] == |retired|
      ensures multiset(retired) + multiset(idle) == multiset(old(retiring)) + multiset(old(idle))
      ensures idle != [] ==> View().Claimed() <= grant
    {
      next := Apply(With(tokens), Event.Retire(id, grant)).tokens;
      StepIsReachable(With(tokens), Event.Retire(id, grant));
      ghost var was, n := idle, 0;
      ghost var excess := Excess(View(), grant);
      slots := grant;
      retired := retiring;
      retiring := [];
      while |idle| + inUse + opening > slots && idle != []
        invariant 0 <= n <= excess && idle == was[..|was| - n]
        invariant View() == old(View()).(slots := grant, idle := idle, closing := old(closing) + n, retiring := [])
        invariant |retired| == |old(retiring)| + n
        invariant multiset(retired) + multiset(idle) == multiset(old(retiring)) + multiset(was)
        decreases |idle|
      {
        LastMoves(retired, idle);
        retired := retired + [Last(idle)];
        idle := Init1(idle);
        closing := closing + 1;
        n := n + 1;
      }
    }

    /** `closed`: the retired connections are gone, so their slots can be handed out. */
    method Closed(id: nat, count: nat, gone: set<Ticket>, ghost tokens: Tokens)
      returns (ghost next: Tokens, ghost events: seq<Event>)
      requires Reachable(With(tokens)) && id in tokens.batches && tokens.batches[id] == count
      modifies this
      ensures With(next) == Handing(Apply(old(With(tokens)), Event.Closed(id)), gone) && Reachable(With(next))
      ensures Leads(old(With(tokens)), events, With(next)) && NoRetire(events)
      ensures !CanHandOut(View()) && next.handingOut == tokens.handingOut && next.batches == tokens.batches - {id}
      ensures slots == old(slots) && tokens.leased <= next.leased && tokens.reserved <= next.reserved
    {
      NoUnderflow(With(tokens), Event.Closed(id));
      StepIsReachable(With(tokens), Event.Closed(id));
      ghost var before := With(tokens);
      next := Apply(before, Event.Closed(id)).tokens;
      closing := closing - count;
      next, events := HandOut(gone, next);
      FirstEvent(before, Event.Closed(id), events, With(next));
      events := [Event.Closed(id)] + events;
    }

    /** `hand_out`: gives away what is free until nobody waits or nothing is.  Whoever was taken from
        the queue and still receives has a connection or a slot; nobody else's is touched. */
    method HandOut(gone: set<Ticket>, ghost tokens: Tokens) returns (ghost next: Tokens, ghost events: seq<Event>)
      requires Reachable(With(tokens)) && tokens.handingOut > 0
      modifies this
      ensures With(next) == Handing(old(With(tokens)), gone) && Reachable(With(next))
      ensures Leads(old(With(tokens)), events, With(next)) && NoRetire(events)
      ensures !CanHandOut(View()) && next.handingOut == tokens.handingOut - 1
      ensures HandsOver(old(With(tokens)), With(next.(handingOut := tokens.handingOut)), gone)
    {
      next := tokens;
      ghost var before := With(tokens);
      while waiters != [] && (idle != [] || |idle| + inUse + opening + closing < slots)
        invariant Reachable(With(next)) && next.handingOut == tokens.handingOut
        invariant Handing(With(next), gone) == Handing(before, gone)
        decreases |waiters| + |idle|
      {
        ghost var from := With(next);
        ghost var turn := TurnLeads(from, gone);
        if idle != [] {
          var connection;
          connection, next := TakeIdle(next);
          next, turn := Release(connection, gone, next);
        } else {
          next := OfferSlot(waiters[0] !in gone, next);
        }
        assert With(next) == HandTurn(from, gone);
      }
      events := HandingLeads(before, gone);
      HandingIs(before, gone);
      LeadsReachable(before, events, Handing(before, gone));
      next := Apply(With(next), Event.HandOut(true)).tokens;
    }

    /** The turn of `hand_out` that finds an idle connection. */
    method TakeIdle(ghost tokens: Tokens) returns (connection: Connection, ghost next: Tokens)
      requires Reachable(With(tokens)) && tokens.handingOut > 0 && waiters != [] && idle != []
      modifies this
      ensures With(next) == Apply(old(With(tokens)), Event.HandOut(true)) && Reachable(With(next))
      ensures connection == Last(old(idle)) && connection in next.releasing
    {
      StepIsReachable(With(tokens), Event.HandOut(true));
      next := Apply(With(tokens), Event.HandOut(true)).tokens;
      connection := Last(idle);
      idle := Init1(idle);
      inUse := inUse + 1;
    }

    /** The turn of `hand_out` that finds a free slot, and takes it back if it is refused. */
    method OfferSlot(accepted: bool, ghost tokens: Tokens) returns (ghost next: Tokens)
      requires Reachable(With(tokens)) && tokens.handingOut > 0
      requires waiters != [] && idle == [] && View().Occupied() < slots
      modifies this
      ensures Reachable(With(next))
      ensures With(next) == if accepted then Apply(old(With(tokens)), Event.HandOut(true))
                            else Apply(Apply(old(With(tokens)), Event.HandOut(false)), TakeBack)
      ensures View()
              == old(View()).(waiters := old(waiters)[1..], opening := old(opening) + (if accepted then 1 else 0))
    {
      StepIsReachable(With(tokens), Event.HandOut(accepted));
      next := Apply(With(tokens), Event.HandOut(accepted)).tokens;
      opening := opening + 1;
      waiters := waiters[1..];
      if !accepted {
        StepIsReachable(With(next), TakeBack);
        next := Apply(With(next), TakeBack).tokens;
        opening := opening - 1;
      }
    }

    /** One turn of `release`. */
    method ReleaseTurn(connection: Connection, accepted: bool, ghost tokens: Tokens)
      returns (ghost next: Tokens)
      requires Reachable(With(tokens)) && connection in tokens.releasing
      modifies this
      ensures With(next) == Apply(old(With(tokens)), Event.Release(connection, accepted)) && Reachable(With(next))
      ensures View().Occupied() == old(View().Occupied())
    {
      NoUnderflow(With(tokens), Event.Release(connection, accepted));
      StepIsReachable(With(tokens), Event.Release(connection, accepted));
      next := Apply(With(tokens), Event.Release(connection, accepted)).tokens;
      if |idle| + inUse + opening > slots {
        inUse := inUse - 1;
        closing := closing + 1;
        retiring := retiring + [connection];
      } else if waiters == [] {
        inUse := inUse - 1;
        idle := idle + [connection];
      } else {
        waiters := waiters[1..];
      }
    }

    /** `release`: the connection goes to the first client still there, else back to the idle
        ones, unless the pool is over its grant; nothing else moves. */
    method Release(connection: Connection, gone: set<Ticket>, ghost tokens: Tokens)
      returns (ghost next: Tokens, ghost events: seq<Event>)
      requires Reachable(With(tokens)) && connection in tokens.releasing
      modifies this
      ensures With(next) == Releasing(old(With(tokens)), connection, gone)
              == Released(old(With(tokens)), connection, gone)
      ensures Leads(old(With(tokens)), events, With(next)) && NoRetire(events) && Reachable(With(next))
      ensures View().Occupied() == old(View().Occupied())
    {
      next := tokens;
      ghost var before := With(tokens);
      while |idle| + inUse + opening <= slots && waiters != [] && waiters[0] in gone
        invariant Reachable(With(next)) && connection in next.releasing
        invariant Releasing(With(next), connection, gone) == Releasing(before, connection, gone)
        invariant View().Occupied() == before.pool.Occupied()
        decreases |waiters|
      {
        next := ReleaseTurn(connection, false, next);
      }
      next := ReleaseTurn(connection, true, next);
      events := ReleasingLeads(before, connection, gone);
      ReleasingIs(before, connection, gone);
    }

    /** `Reservation::drop`: the slot goes to the first client still there, else it is given up. */
    method DropReservation(gone: set<Ticket>, ghost tokens: Tokens)
      returns (ghost next: Tokens, ghost events: seq<Event>)
      requires Reachable(With(tokens)) && tokens.dropping > 0
      modifies this
      ensures With(next) == PassedOn(old(With(tokens)), gone)
      ensures Leads(old(With(tokens)), events, With(next)) && NoRetire(events) && Reachable(With(next))
    {
      next := tokens;
      ghost var before := With(tokens);
      while |idle| + inUse + opening <= slots && waiters != [] && waiters[0] in gone
        invariant Reachable(With(next)) && next.dropping == tokens.dropping
        invariant Passing(With(next), gone) == Passing(before, gone)
        decreases |waiters|
      {
        StepIsReachable(With(next), PassSlot(false));
        next := Apply(With(next), PassSlot(false)).tokens;
        waiters := waiters[1..];
      }
      NoUnderflow(With(next), PassSlot(true));
      StepIsReachable(With(next), PassSlot(true));
      next := Apply(With(next), PassSlot(true)).tokens;
      if |idle| + inUse + opening > slots || waiters == [] {
        opening := opening - 1;
      } else {
        waiters := waiters[1..];
      }
      events := PassingLeads(before, gone);
      PassingIs(before, gone);
    }

    /** `Reservation::fulfil`. */
    method Fulfil(connection: Connection, ghost tokens: Tokens) returns (ghost next: Tokens)
      requires Reachable(With(tokens)) && tokens.reserved > 0 && Fresh(With(tokens), connection)
      modifies this
      ensures With(next) == Apply(old(With(tokens)), Event.Fulfil(connection)) && Reachable(With(next))
      ensures View().Occupied() == old(View().Occupied())
    {
      NoUnderflow(With(tokens), Event.Fulfil(connection));
      StepIsReachable(With(tokens), Event.Fulfil(connection));
      next := Apply(With(tokens), Event.Fulfil(connection)).tokens;
      opening := opening - 1;
      inUse := inUse + 1;
    }

    /** `Assigned::discard`: once the connection is closed, its slot is passed on as a dropped
        reservation's is. */
    method Discard(connection: Connection, gone: set<Ticket>, ghost tokens: Tokens)
      returns (ghost next: Tokens, ghost events: seq<Event>)
      requires Reachable(With(tokens)) && connection in tokens.leased
      modifies this
      ensures With(next) == PassedOn(Closing(old(With(tokens)), connection), gone) && Reachable(With(next))
      ensures Leads(old(With(tokens)), events, With(next)) && NoRetire(events)
      ensures next.leased == tokens.leased - {connection} && next.dropping == tokens.dropping
      ensures next.reserved - tokens.reserved == View().Occupied() - (old(View().Occupied()) - 1)
    {
      ghost var before := With(tokens);
      ClosingLeads(before, connection);
      DiscardedIs(before, connection, gone);
      next := Closing(before, connection).tokens;
      inUse := inUse - 1;
      opening := opening + 1;
      assert With(next) == Closing(before, connection);
      next, events := DropReservation(gone, next);
      LeadsJoin(before, [Event.Discard(connection), Discarded], Closing(before, connection), events, With(next));
      events := [Event.Discard(connection), Discarded] + events;
    }
  }

  /** Clients are queued in the order of their tickets. */
  lemma QueueIncreases(s: State)
    requires Reachable(s)
    ensures Increasing(s.pool.waiters)
  {
    ReachableHasInv(s);
    var all, n := s.tokens.popped + s.pool.waiters, |s.tokens.popped|;
    forall i, j | 0 <= i < j < |s.pool.waiters| ensures s.pool.waiters[i] < s.pool.waiters[j] {
      assert all[n + i] < all[n + j];
    }
  }

  lemma LastMoves(retired: seq<Connection>, idle: seq<Connection>)
    requires idle != []
    ensures multiset(retired + [Last(idle)]) + multiset(Init1(idle)) == multiset(retired) + multiset(idle)
  {
    assert idle == Init1(idle) + [Last(idle)];
  }

  /** The connection has been closed, and its slot is about to be passed on. */
  ghost function Closing(s: State, connection: Connection): State
    requires connection in s.tokens.leased
  {
    Apply(Apply(s, Event.Discard(connection)), Discarded)
  }

  lemma ClosingLeads(s: State, connection: Connection)
    requires Reachable(s) && connection in s.tokens.leased
    ensures Leads(s, [Event.Discard(connection), Discarded], Closing(s, connection))
    ensures Reachable(Closing(s, connection)) && s.pool.inUse > 0
  {
    var discarding := Apply(s, Event.Discard(connection));
    StepIsReachable(s, Event.Discard(connection));
    NoUnderflow(discarding, Discarded);
    StepIsReachable(discarding, Discarded);
    OneEvent(discarding, Discarded);
    FirstEvent(s, Event.Discard(connection), [Discarded], Closing(s, connection));
    assert [Event.Discard(connection)] + [Discarded] == [Event.Discard(connection), Discarded];
  }

  lemma DiscardedIs(s: State, connection: Connection, gone: set<Ticket>)
    requires connection in s.tokens.leased && s.pool.inUse > 0
    ensures var t := PassedOn(Closing(s, connection), gone);
            && t.tokens.leased == s.tokens.leased - {connection} && t.tokens.dropping == s.tokens.dropping
            && t.tokens.reserved - s.tokens.reserved == t.pool.Occupied() - (s.pool.Occupied() - 1)
  {
  }
}
