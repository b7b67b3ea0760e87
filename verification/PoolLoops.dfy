/**
 The retry loops of the pool (crates/core/src/pool.rs, `release`, `Reservation::drop`, `hand_out`) as
 functions of the whole state, when no other task takes the lock in between; `gone` are the queued
 clients that no longer receive.  Each is a run of the machine's events, and what it comes to is
 stated without them.
 */
module PoolLoops {
  import opened Numbers
  import opened PoolMachine

  // ------------------------------------------------------------- runs from any state

  ghost predicate Leads(s: State, events: seq<Event>, t: State)
    decreases |events|
  {
    if events == [] then s == t
    else Enabled(s, events[0]) && Leads(Apply(s, events[0]), events[1..], t)
  }

  lemma FirstEvent(s: State, e: Event, rest: seq<Event>, t: State)
    requires Enabled(s, e) && Leads(Apply(s, e), rest, t)
    ensures Leads(s, [e] + rest, t)
  {
    assert ([e] + rest)[1..] == rest;
  }

  lemma OneEvent(s: State, e: Event)
    requires Enabled(s, e)
    ensures Leads(s, [e], Apply(s, e))
  {
    FirstEvent(s, e, [], Apply(s, e));
    assert [e] + [] == [e];
  }

  lemma {:induction false} LeadsJoin(s: State, a: seq<Event>, m: State, b: seq<Event>, t: State)
    requires Leads(s, a, m) && Leads(m, b, t)
    ensures Leads(s, a + b, t)
    decreases |a|
  {
    if a == [] {
      assert a + b == b;
    } else {
      LeadsJoin(Apply(s, a[0]), a[1..], m, b, t);
      FirstEvent(s, a[0], a[1..] + b, t);
      assert a + b == [a[0]] + (a[1..] + b);
    }
  }

  lemma {:induction false} LeadsReachable(s: State, events: seq<Event>, t: State)
    requires Reachable(s) && Leads(s, events, t)
    ensures Reachable(t)
    decreases |events|
  {
    if events != [] {
      StepIsReachable(s, events[0]);
      LeadsReachable(Apply(s, events[0]), events[1..], t);
    }
  }

  /** No event of a loop changes the slots. */
  predicate NoRetire(events: seq<Event>) { forall k :: 0 <= k < |events| ==> !events[k].Retire? }

  // ---------------------------------------------------------------- who still receives

  /** The first queued client that still receives. */
  function FirstPresent(waiters: seq<Ticket>, gone: set<Ticket>): (k: nat)
    ensures k <= |waiters|
    ensures k < |waiters| ==> waiters[k] !in gone
    ensures forall i :: 0 <= i < k ==> waiters[i] in gone
  {
    if waiters == [] || waiters[0] !in gone then 0 else 1 + FirstPresent(waiters[1..], gone)
  }

  /** How many of these still receive. */
  function Present(waiters: seq<Ticket>, gone: set<Ticket>): nat {
    if waiters == [] then 0
    else Present(waiters[..|waiters| - 1], gone) + (if waiters[|waiters| - 1] in gone then 0 else 1)
  }

  lemma {:induction false} PresentJoin(a: seq<Ticket>, b: seq<Ticket>, gone: set<Ticket>)
    ensures Present(a + b, gone) == Present(a, gone) + Present(b, gone)
    decreases |b|
  {
    if b == [] {
      assert a + b == a;
    } else {
      assert (a + b)[..|a + b| - 1] == a + b[..|b| - 1];
      PresentJoin(a, b[..|b| - 1], gone);
    }
  }

  lemma {:induction false} NonePresent(waiters: seq<Ticket>, gone: set<Ticket>)
    requires forall i :: 0 <= i < |waiters| ==> waiters[i] in gone
    ensures Present(waiters, gone) == 0
    decreases |waiters|
  {
    if waiters != [] {
      NonePresent(waiters[..|waiters| - 1], gone);
    }
  }

  lemma FirstPresentCounts(waiters: seq<Ticket>, gone: set<Ticket>)
    ensures var k := FirstPresent(waiters, gone);
            && Present(waiters[..k], gone) == 0
            && (k < |waiters| ==> Present(waiters[..k + 1], gone) == 1)
  {
    var k := FirstPresent(waiters, gone);
    NonePresent(waiters[..k], gone);
    if k < |waiters| {
      assert waiters[..k + 1][..k] == waiters[..k];
    }
  }

  // -------------------------------------------------------------------------- release

  /** `release`: offer the connection to one client after the other. */
  function Releasing(s: State, c: Connection, gone: set<Ticket>): State
    requires c in s.tokens.releasing
    decreases |s.pool.waiters|
  {
    var p := s.pool;
    if p.OverGrant() || p.waiters == [] || p.waiters[0] !in gone then Apply(s, Release(c, true))
    else Releasing(Apply(s, Release(c, false)), c, gone)
  }

  lemma {:induction false} ReleasingLeads(s: State, c: Connection, gone: set<Ticket>) returns (events: seq<Event>)
    requires c in s.tokens.releasing
    ensures Leads(s, events, Releasing(s, c, gone)) && NoRetire(events)
    decreases |s.pool.waiters|
  {
    var p := s.pool;
    if p.OverGrant() || p.waiters == [] || p.waiters[0] !in gone {
      OneEvent(s, Release(c, true));
      events := [Release(c, true)];
    } else {
      var rest := ReleasingLeads(Apply(s, Release(c, false)), c, gone);
      FirstEvent(s, Release(c, false), rest, Releasing(s, c, gone));
      events := [Release(c, false)] + rest;
    }
  }

  /** The connection goes to the first client still there, else back to the idle ones, unless the
      pool is over its grant, when it retires.  Nothing else moves. */
  ghost function Released(s: State, c: Connection, gone: set<Ticket>): State {
    var p, k := s.pool, FirstPresent(s.pool.waiters, gone);
    var t := s.tokens.(releasing := s.tokens.releasing - {c});
    if |p.idle| + p.inUse + p.opening > p.slots then
      State(p.(inUse := Less(p.inUse, 1), closing := p.closing + 1, retiring := p.retiring + [c]), t)
    else if k < |p.waiters| then
      State(p.(waiters := p.waiters[k + 1..]),
            t.(leased := t.leased + {c}, popped := t.popped + p.waiters[..k + 1]))
    else
      State(p.(waiters := [], inUse := Less(p.inUse, 1), idle := p.idle + [c]), t.(popped := t.popped + p.waiters))
  }

  lemma PopFirst(popped: seq<Ticket>, x: Ticket, rest: seq<Ticket>, k: nat)
    requires k <= |rest|
    ensures (popped + [x]) + rest[..k] == popped + ([x] + rest)[..k + 1] && ([x] + rest)[k + 1..] == rest[k..]
  {
  }

  lemma FirstGone(popped: seq<Ticket>, waiters: seq<Ticket>, gone: set<Ticket>)
    requires waiters != [] && waiters[0] in gone
    ensures var rest, k := waiters[1..], FirstPresent(waiters[1..], gone);
            && FirstPresent(waiters, gone) == k + 1
            && (popped + [waiters[0]]) + rest == popped + waiters
            && (k < |rest| ==> rest[k + 1..] == waiters[k + 2..]
                               && (popped + [waiters[0]]) + rest[..k + 1] == popped + waiters[..k + 2])
  {
    var x, rest, k := waiters[0], waiters[1..], FirstPresent(waiters[1..], gone);
    assert waiters == [x] + rest;
    assert rest[..|rest|] == rest && waiters[..|waiters|] == waiters;
    PopFirst(popped, x, rest, |rest|);
    if k < |rest| {
      PopFirst(popped, x, rest, k + 1);
    }
  }

  lemma {:induction false} ReleasingIs(s: State, c: Connection, gone: set<Ticket>)
    requires c in s.tokens.releasing
    ensures Releasing(s, c, gone) == Released(s, c, gone)
    decreases |s.pool.waiters|
  {
    var p := s.pool;
    if !p.OverGrant() && p.waiters != [] {
      if p.waiters[0] in gone {
        FirstGone(s.tokens.popped, p.waiters, gone);
        ReleasingIs(Apply(s, Release(c, false)), c, gone);
      } else {
        assert p.waiters[..1] == [p.waiters[0]];
      }
    } else {
      assert s.tokens.popped + [] == s.tokens.popped;
    }
  }

  // ------------------------------------------------------------------ dropped reservations

  /** `Reservation::drop`: offer the slot to one client after the other. */
  function Passing(s: State, gone: set<Ticket>): State
    requires s.tokens.dropping > 0
    decreases |s.pool.waiters|
  {
    var p := s.pool;
    if p.OverGrant() || p.waiters == [] || p.waiters[0] !in gone then Apply(s, PassSlot(true))
    else Passing(Apply(s, PassSlot(false)), gone)
  }

  lemma {:induction false} PassingLeads(s: State, gone: set<Ticket>) returns (events: seq<Event>)
    requires s.tokens.dropping > 0
    ensures Leads(s, events, Passing(s, gone)) && NoRetire(events)
    decreases |s.pool.waiters|
  {
    var p := s.pool;
    if p.OverGrant() || p.waiters == [] || p.waiters[0] !in gone {
      OneEvent(s, PassSlot(true));
      events := [PassSlot(true)];
    } else {
      var rest := PassingLeads(Apply(s, PassSlot(false)), gone);
      FirstEvent(s, PassSlot(false), rest, Passing(s, gone));
      events := [PassSlot(false)] + rest;
    }
  }

  /** The slot goes to the first client still there, else it is given up.  Nothing else moves. */
  ghost function PassedOn(s: State, gone: set<Ticket>): State {
    var p, k := s.pool, FirstPresent(s.pool.waiters, gone);
    var t := s.tokens.(dropping := Less(s.tokens.dropping, 1));
    if |p.idle| + p.inUse + p.opening > p.slots then State(p.(opening := Less(p.opening, 1)), t)
    else if k < |p.waiters| then
      State(p.(waiters := p.waiters[k + 1..]),
            t.(reserved := t.reserved + 1, popped := t.popped + p.waiters[..k + 1]))
    else State(p.(waiters := [], opening := Less(p.opening, 1)), t.(popped := t.popped + p.waiters))
  }

  lemma {:induction false} PassingIs(s: State, gone: set<Ticket>)
    requires s.tokens.dropping > 0
    ensures Passing(s, gone) == PassedOn(s, gone)
    decreases |s.pool.waiters|
  {
    var p := s.pool;
    if !p.OverGrant() && p.waiters != [] {
      if p.waiters[0] in gone {
        FirstGone(s.tokens.popped, p.waiters, gone);
        PassingIs(Apply(s, PassSlot(false)), gone);
      } else {
        assert p.waiters[..1] == [p.waiters[0]];
      }
    } else {
      assert s.tokens.popped + [] == s.tokens.popped;
    }
  }

  // ------------------------------------------------------------------------- hand_out

  /** `hand_out` has something for somebody. */
  predicate CanHandOut(p: Pool) { p.waiters != [] && (p.idle != [] || p.Occupied() < p.slots) }

  /** One turn of `hand_out`. */
  function HandTurn(s: State, gone: set<Ticket>): (t: State)
    requires s.tokens.handingOut > 0 && CanHandOut(s.pool)
    ensures t.tokens.handingOut == s.tokens.handingOut
    ensures |t.pool.waiters| + |t.pool.idle| < |s.pool.waiters| + |s.pool.idle|
  {
    if s.pool.idle != [] then
      var taken := Apply(s, HandOut(true));
      ReleasingIs(taken, Last(s.pool.idle), gone);
      Releasing(taken, Last(s.pool.idle), gone)
    else if s.pool.waiters[0] !in gone then Apply(s, HandOut(true))
    else Apply(Apply(s, HandOut(false)), TakeBack)
  }

  /** `hand_out`: turn after turn until nobody waits or nothing is free. */
  function Handing(s: State, gone: set<Ticket>): State
    requires s.tokens.handingOut > 0
    decreases |s.pool.waiters| + |s.pool.idle|
  {
    if CanHandOut(s.pool) then Handing(HandTurn(s, gone), gone) else Apply(s, HandOut(true))
  }

  lemma TurnLeads(s: State, gone: set<Ticket>) returns (events: seq<Event>)
    requires s.tokens.handingOut > 0 && CanHandOut(s.pool)
    ensures Leads(s, events, HandTurn(s, gone)) && NoRetire(events)
  {
    if s.pool.idle != [] {
      var taken := Apply(s, HandOut(true));
      var rest := ReleasingLeads(taken, Last(s.pool.idle), gone);
      FirstEvent(s, HandOut(true), rest, HandTurn(s, gone));
      events := [HandOut(true)] + rest;
    } else if s.pool.waiters[0] !in gone {
      OneEvent(s, HandOut(true));
      events := [HandOut(true)];
    } else {
      var offered := Apply(s, HandOut(false));
      OneEvent(offered, TakeBack);
      FirstEvent(s, HandOut(false), [TakeBack], HandTurn(s, gone));
      events := [HandOut(false)] + [TakeBack];
    }
  }

  lemma {:induction false} HandingLeads(s: State, gone: set<Ticket>) returns (events: seq<Event>)
    requires s.tokens.handingOut > 0
    ensures Leads(s, events, Handing(s, gone)) && NoRetire(events)
    decreases |s.pool.waiters| + |s.pool.idle|
  {
    if CanHandOut(s.pool) {
      var first := TurnLeads(s, gone);
      var rest := HandingLeads(HandTurn(s, gone), gone);
      LeadsJoin(s, first, HandTurn(s, gone), rest, Handing(s, gone));
      events := first + rest;
    } else {
      OneEvent(s, HandOut(true));
      events := [HandOut(true)];
    }
  }

  /** The front of the queue was taken: `served` of it still receive. */
  ghost predicate FrontTaken(waiters: seq<Ticket>, popped: seq<Ticket>, waiters': seq<Ticket>, popped': seq<Ticket>,
                             served: int, gone: set<Ticket>) {
    var n := |waiters| - |waiters'|;
    && n >= 0 && waiters' == waiters[n..] && popped' == popped + waiters[..n]
    && served == Present(waiters[..n], gone)
  }

  lemma FrontTakenJoin(w: seq<Ticket>, p: seq<Ticket>, w1: seq<Ticket>, p1: seq<Ticket>, w2: seq<Ticket>,
                       p2: seq<Ticket>, m: int, n: int, gone: set<Ticket>)
    requires FrontTaken(w, p, w1, p1, m, gone) && FrontTaken(w1, p1, w2, p2, n, gone)
    ensures FrontTaken(w, p, w2, p2, m + n, gone)
  {
    var a, b := |w| - |w1|, |w1| - |w2|;
    SliceJoin(w, a, b);
    PresentJoin(w[..a], w1[..b], gone);
    assert p + w[..a] + w1[..b] == p + (w[..a] + w1[..b]);
  }

  lemma SliceJoin(s: seq<Ticket>, a: nat, b: nat)
    requires a + b <= |s|
    ensures s[..a] + s[a..][..b] == s[..a + b] && s[a..][b..] == s[a + b..]
  {
  }

  lemma NoneTaken(waiters: seq<Ticket>, popped: seq<Ticket>, gone: set<Ticket>)
    ensures FrontTaken(waiters, popped, waiters, popped, 0, gone)
  {
    assert waiters[..0] == [] && popped + [] == popped;
  }

  lemma AllTaken(waiters: seq<Ticket>, popped: seq<Ticket>, gone: set<Ticket>)
    requires FirstPresent(waiters, gone) == |waiters|
    ensures FrontTaken(waiters, popped, [], popped + waiters, 0, gone)
  {
    FirstPresentCounts(waiters, gone);
    assert waiters[..|waiters|] == waiters && waiters[|waiters|..] == [];
  }

  lemma SomeTaken(waiters: seq<Ticket>, popped: seq<Ticket>, gone: set<Ticket>, k: nat)
    requires k == FirstPresent(waiters, gone) && k < |waiters|
    ensures FrontTaken(waiters, popped, waiters[k + 1..], popped + waiters[..k + 1], 1, gone)
  {
    FirstPresentCounts(waiters, gone);
  }

  lemma OneTaken(waiters: seq<Ticket>, popped: seq<Ticket>, gone: set<Ticket>)
    requires waiters != []
    ensures FrontTaken(waiters, popped, waiters[1..], popped + [waiters[0]], if waiters[0] in gone then 0 else 1, gone)
  {
    assert waiters[..1] == [waiters[0]] && waiters[..1][..0] == [];
  }

  /** Something was handed from the pool to the front of the queue: every client taken from it that
      still receives has a connection or a slot, every other token is as it was, connections move
      only from idle to in use, and slots only into opening, within the grant. */
  ghost predicate HandsOver(s: State, t: State, gone: set<Ticket>) {
    && FrontTaken(s.pool.waiters, s.tokens.popped, t.pool.waiters, t.tokens.popped,
                  |t.tokens.leased| + t.tokens.reserved - |s.tokens.leased| - s.tokens.reserved, gone)
    && t.tokens == s.tokens.(leased := t.tokens.leased, reserved := t.tokens.reserved, popped := t.tokens.popped)
    && s.tokens.leased <= t.tokens.leased && s.tokens.reserved <= t.tokens.reserved
    && t.pool == s.pool.(idle := t.pool.idle, inUse := t.pool.inUse, waiters := t.pool.waiters,
                         opening := s.pool.opening + (t.tokens.reserved - s.tokens.reserved))
    && |t.pool.idle| + t.pool.inUse == |s.pool.idle| + s.pool.inUse
    && t.pool.Occupied() <= Max(s.pool.Occupied(), s.pool.slots)
  }

  lemma IdleTurnIs(s: State, gone: set<Ticket>)
    requires Inv(s) && s.tokens.handingOut > 0 && CanHandOut(s.pool) && s.pool.idle != []
    ensures var p, k, c := s.pool, FirstPresent(s.pool.waiters, gone), Last(s.pool.idle);
            && c !in s.tokens.leased
            && HandTurn(s, gone) ==
               if k < |p.waiters| then
                 State(p.(idle := Init1(p.idle), inUse := p.inUse + 1, waiters := p.waiters[k + 1..]),
                       s.tokens.(leased := s.tokens.leased + {c}, popped := s.tokens.popped + p.waiters[..k + 1]))
               else State(p.(waiters := []), s.tokens.(popped := s.tokens.popped + p.waiters))
  {
    var p, c := s.pool, Last(s.pool.idle);
    var taken := Apply(s, HandOut(true));
    ReleasingIs(taken, c, gone);
    LastIsOut(p.idle, p.retiring);
    assert taken.tokens.releasing - {c} == s.tokens.releasing;
    assert Init1(p.idle) + [c] == p.idle;
  }

  lemma OneServed(s: State, gone: set<Ticket>, k: nat, c: Connection)
    requires s.pool.idle != [] && c !in s.tokens.leased
    requires k == FirstPresent(s.pool.waiters, gone) && k < |s.pool.waiters|
    ensures var p := s.pool;
            HandsOver(s, State(p.(idle := Init1(p.idle), inUse := p.inUse + 1, waiters := p.waiters[k + 1..]),
                               s.tokens.(leased := s.tokens.leased + {c},
                                         popped := s.tokens.popped + p.waiters[..k + 1])), gone)
  {
    SomeTaken(s.pool.waiters, s.tokens.popped, gone, k);
    AddOne(s.tokens.leased, c);
  }

  lemma NobodyServed(s: State, gone: set<Ticket>)
    requires FirstPresent(s.pool.waiters, gone) == |s.pool.waiters|
    ensures HandsOver(s, State(s.pool.(waiters := []), s.tokens.(popped := s.tokens.popped + s.pool.waiters)), gone)
  {
    AllTaken(s.pool.waiters, s.tokens.popped, gone);
  }

  lemma IdleTurnHandsOver(s: State, gone: set<Ticket>)
    requires Inv(s) && s.tokens.handingOut > 0 && CanHandOut(s.pool) && s.pool.idle != []
    ensures HandsOver(s, HandTurn(s, gone), gone)
  {
    var k := FirstPresent(s.pool.waiters, gone);
    IdleTurnIs(s, gone);
    if k < |s.pool.waiters| {
      OneServed(s, gone, k, Last(s.pool.idle));
    } else {
      NobodyServed(s, gone);
    }
  }

  lemma SlotTurnHandsOver(s: State, gone: set<Ticket>)
    requires s.tokens.handingOut > 0 && CanHandOut(s.pool) && s.pool.idle == []
    ensures HandsOver(s, HandTurn(s, gone), gone)
  {
    OneTaken(s.pool.waiters, s.tokens.popped, gone);
  }

  lemma HandsOverJoin(s: State, m: State, t: State, gone: set<Ticket>)
    requires HandsOver(s, m, gone) && HandsOver(m, t, gone)
    ensures HandsOver(s, t, gone)
  {
    FrontTakenJoin(s.pool.waiters, s.tokens.popped, m.pool.waiters, m.tokens.popped, t.pool.waiters, t.tokens.popped,
                   |m.tokens.leased| + m.tokens.reserved - |s.tokens.leased| - s.tokens.reserved,
                   |t.tokens.leased| + t.tokens.reserved - |m.tokens.leased| - m.tokens.reserved, gone);
  }

  lemma HandsNothingOver(s: State, gone: set<Ticket>)
    ensures HandsOver(s, s, gone)
  {
    NoneTaken(s.pool.waiters, s.tokens.popped, gone);
  }

  /** `hand_out` leaves nobody waiting who could be given something, and everyone it took from the
      queue served or gone. */
  lemma {:induction false} HandingIs(s: State, gone: set<Ticket>)
    requires Reachable(s) && s.tokens.handingOut > 0
    ensures var t := Handing(s, gone);
            && !CanHandOut(t.pool) && t.tokens.handingOut == s.tokens.handingOut - 1
            && HandsOver(s, t.(tokens := t.tokens.(handingOut := s.tokens.handingOut)), gone)
    decreases |s.pool.waiters| + |s.pool.idle|
  {
    if CanHandOut(s.pool) {
      var m := HandTurn(s, gone);
      ReachableHasInv(s);
      if s.pool.idle != [] {
        IdleTurnHandsOver(s, gone);
      } else {
        SlotTurnHandsOver(s, gone);
      }
      var events := TurnLeads(s, gone);
      LeadsReachable(s, events, m);
      HandingIs(m, gone);
      var t := Handing(s, gone);
      HandsOverJoin(s, m, t.(tokens := t.tokens.(handingOut := s.tokens.handingOut)), gone);
    } else {
      HandsNothingOver(s, gone);
    }
  }
}
