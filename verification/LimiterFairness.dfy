/**
 Bounded bypass: while the advisory ordering is off, a normal request parked behind `own`
 of its client's requests sees every other client dispatched from the normal queue at most
 `own + 1` times before it, whatever else happens meanwhile.
 */
module LimiterFairness {
  import opened Common
  import opened Rotations
  import opened LimiterState
  import opened LimiterInvariants
  import opened LimiterTheorems
  import Aimd

  /** Dispatches of client `y` from the normal queue. */
  ghost function Served(granted: seq<Grant>, y: Client): nat {
    if granted == [] then 0
    else
      var g := granted[|granted| - 1];
      Served(granted[..|granted| - 1], y) + (if !g.lane && g.client == y then 1 else 0)
  }

  lemma ServedAppend(granted: seq<Grant>, n: nat, g: Grant, y: Client)
    requires n <= |granted|
    ensures Served((granted + [g])[n..], y) == Served(granted[n..], y) + (if !g.lane && g.client == y then 1 else 0)
  {
    var s := (granted + [g])[n..];
    assert s[..|s| - 1] == granted[n..];
  }

  /**
   Ticket `t` of client `x` has been watched since the record had `n` entries.  While it is
   parked, the dispatches of `y` so far and those still to come stay within `bound`; once it
   is dispatched, those that went before it did.
   */
  ghost predicate Watched(n: nat, s: State, x: Client, t: Ticket, y: Client, bound: nat) {
    && n <= |s.granted|
    && t in s.waiters && s.waiters[t].client == x
    && (s.waiters[t].fut.Pending? ==>
          t in Queue(s.main, x) && Served(s.granted[n..], y) + Debt(s.main, x, t, y) <= bound)
    && (forall k :: n <= k < |s.granted| && s.granted[k].ticket == t ==> Served(s.granted[n..k], y) <= bound)
  }

  /** A dispatch to somebody else, or to `t` itself, keeps the watch. */
  lemma GrantWatched(n: nat, s: State, s1: State, turn: Turn, lane: bool, clock: real, x: Client, t: Ticket,
      y: Client, bound: nat)
    requires Watched(n, s, x, t, y, bound) && turn.ticket in s.waiters
    requires s.waiters[turn.ticket].client == turn.client && s.waiters[turn.ticket].fut.Pending?
    requires s1 == s.(main := s1.main, prio := s1.prio)
    requires turn.ticket != t && s.waiters[t].fut.Pending? ==>
               && t in Queue(s1.main, x)
               && Debt(s1.main, x, t, y) + (if !lane && turn.client == y then 1 else 0) <= Debt(s.main, x, t, y)
    ensures Watched(n, GrantSlot(s1, turn, lane, clock), x, t, y, bound)
  {
    var s' := GrantSlot(s1, turn, lane, clock);
    var g := Grant(turn.ticket, turn.client, lane);
    ServedAppend(s.granted, n, g, y);
    forall k | n <= k < |s'.granted| && s'.granted[k].ticket == t
      ensures Served(s'.granted[n..k], y) <= bound
    {
      assert s'.granted[n..k] == s.granted[n..k];
      if k == |s.granted| {
        assert s.granted[n..k] == s.granted[n..];
      }
    }
  }

  lemma SameWatched(n: nat, s: State, s': State, x: Client, t: Ticket, y: Client, bound: nat)
    requires Watched(n, s, x, t, y, bound) && s'.granted == s.granted
    requires t in s'.waiters && s'.waiters[t].client == s.waiters[t].client
    requires s'.waiters[t].fut.Pending? ==>
               && s.waiters[t].fut.Pending? && t in Queue(s'.main, x)
               && Debt(s'.main, x, t, y) <= Debt(s.main, x, t, y)
    ensures Watched(n, s', x, t, y, bound)
  {}

  lemma {:induction false} PriorityLoopWatched(n: nat, s: State, env: Env, x: Client, t: Ticket, y: Client, bound: nat)
    requires Inv(s) && Watched(n, s, x, t, y, bound)
    ensures Watched(n, DispatchPriority(s, env), x, t, y, bound)
    decreases s.reserve - s.prioInflight
  {
    if s.prioInflight < s.reserve {
      var p := NextTurn(s, true, env.share);
      TurnOk(s, true, env, p);
      if p.next.Some? {
        PriorityTurn(s, env, p, x, t);
        var s1 := WithLane(s, true, p.rest);
        GrantWatched(n, s, s1, p.next.value, true, env.clock, x, t, y, bound);
        PriorityLoopWatched(n, GrantSlot(s1, p.next.value, true, env.clock), env, x, t, y, bound);
      }
    }
  }

  lemma PriorityTurn(s: State, env: Env, p: Popped, x: Client, t: Ticket)
    requires Inv(s) && p == NextTurn(s, true, env.share) && p.next.Some?
    ensures PendingTurn(s, p.next.value)
  {
    PoppedLive(s.prio, s.waiters);
  }

  ghost predicate PendingTurn(s: State, turn: Turn) {
    && turn.ticket in s.waiters && s.waiters[turn.ticket].client == turn.client
    && s.waiters[turn.ticket].fut.Pending?
  }

  lemma MainTurn(s: State, env: Env, p: Popped, x: Client, t: Ticket, y: Client)
    requires Inv(s) && !env.share.ordering && p == NextTurn(s, false, env.share) && y != x
    requires t in s.waiters && s.waiters[t].fut.Pending? ==> t in Queue(s.main, x)
    ensures p.next.Some? ==> PendingTurn(s, p.next.value)
    ensures t in s.waiters && s.waiters[t].fut.Pending? ==>
              && p.next.Some?
              && (p.next.value.ticket != t ==>
                   && t in Queue(p.rest, x)
                   && Debt(p.rest, x, t, y) + (if p.next.value.client == y then 1 else 0) <= Debt(s.main, x, t, y))
  {
    PoppedLive(s.main, s.waiters);
    if t in s.waiters && s.waiters[t].fut.Pending? {
      DebtAfterNext(s.main, Dead(s.waiters), x, t, y);
    }
  }

  lemma {:induction false} MainLoopWatched(n: nat, s: State, env: Env, x: Client, t: Ticket, y: Client, bound: nat)
    requires Inv(s) && Watched(n, s, x, t, y, bound) && !env.share.ordering && y != x
    ensures Watched(n, DispatchMain(s, env), x, t, y, bound)
    decreases Cap(s) - Busy(s)
  {
    if Busy(s) < Cap(s) {
      var p := NextTurn(s, false, env.share);
      TurnOk(s, false, env, p);
      MainTurn(s, env, p, x, t, y);
      var s1 := WithLane(s, false, p.rest);
      if p.next.Some? {
        GrantWatched(n, s, s1, p.next.value, false, env.clock, x, t, y, bound);
        var s2 := GrantSlot(s1, p.next.value, false, env.clock);
        MainLoopWatched(n, s2, env, x, t, y, bound);
        assert DispatchMain(s, env) == DispatchMain(s2, env);
      } else {
        SameWatched(n, s, s1, x, t, y, bound);
      }
    }
  }

  lemma MigrateWatched(n: nat, s: State, x: Client, t: Ticket, y: Client, bound: nat)
    requires Inv(s) && Watched(n, s, x, t, y, bound)
    ensures Watched(n, Migrate(s), x, t, y, bound)
  {
    if s.waiters[t].fut.Pending? {
      forall c, d, u | c in s.prio.queues && u in s.prio.queues[c] ensures u !in Queue(s.main, d) {
        assert u in Queue(s.prio, c);
        OneClient(s.main, s.waiters, u, d);
        OneClient(s.prio, s.waiters, u, c);
      }
      assert s.prio == Rotation(s.prio.order, s.prio.queues);
      DebtAfterMigration(s.prio.order, s.prio.queues, s.main, x, t, y);
    }
    SameWatched(n, s, Migrate(s), x, t, y, bound);
  }

  lemma DispatchWatched(n: nat, s: State, env: Env, x: Client, t: Ticket, y: Client, bound: nat)
    requires Inv(s) && Watched(n, s, x, t, y, bound) && !env.share.ordering && y != x
    ensures Watched(n, TryDispatch(s, env), x, t, y, bound)
  {
    var s1 := if s.reserve == 0 && s.prio.order != [] then Migrate(s) else s;
    CloseLane(s);
    MigrateWatched(n, s, x, t, y, bound);
    PriorityLoopWatched(n, s1, env, x, t, y, bound);
    DispatchPriorityOk(s1, env);
    MainLoopWatched(n, DispatchPriority(s1, env), env, x, t, y, bound);
  }

  lemma ParkWatched(n: nat, s: State, u: Ticket, c: Client, wants: bool, project: Option<Project>, x: Client,
      t: Ticket, y: Client, bound: nat)
    requires Inv(s) && Watched(n, s, x, t, y, bound) && u !in s.waiters
    ensures Watched(n, Park(s, u, c, wants, project), x, t, y, bound)
  {
    if s.waiters[t].fut.Pending? {
      NotParked(s.main, s.waiters, u);
      DebtAfterEnqueue(s.main, c, u, x, t, y);
    }
    SameWatched(n, s, Park(s, u, c, wants, project), x, t, y, bound);
  }

  /** A cleanup takes at most the one request out of the normal rotation. */
  lemma CleanupMain(s: State, u: Ticket, env: Env, main': Rotation)
    requires IsWaiter(s, u, Cancelling) && main' == CleanupSection(s, u, env).s.main
    ensures main' == s.main || main' == RemoveFrom(s.main, s.waiters[u].client, u).rest
  {
  }

  lemma CleanupDebt(main: Rotation, main': Rotation, c: Client, u: Ticket, x: Client, t: Ticket, y: Client)
    requires Sound(main) && u != t && y != x && t in Queue(main, x)
    requires main' == main || main' == RemoveFrom(main, c, u).rest
    ensures t in Queue(main', x) && Debt(main', x, t, y) <= Debt(main, x, t, y)
  {
    DebtAfterRemove(main, c, u, x, t, y);
  }

  lemma CleanupSame(n: nat, s: State, u: Ticket, env: Env, x: Client, t: Ticket, y: Client, bound: nat, s': State)
    requires Watched(n, s, x, t, y, bound) && IsWaiter(s, u, Cancelling) && s' == CleanupSection(s, u, env).s
    requires s.waiters[t].fut.Pending? ==>
      u != t && t in Queue(s'.main, x) && Debt(s'.main, x, t, y) <= Debt(s.main, x, t, y)
    ensures Watched(n, s', x, t, y, bound)
  {
    SameWatched(n, s, s', x, t, y, bound);
  }

  lemma CleanupWatched(n: nat, s: State, u: Ticket, env: Env, x: Client, t: Ticket, y: Client, bound: nat)
    requires Inv(s) && Watched(n, s, x, t, y, bound) && IsWaiter(s, u, Cancelling) && y != x
    ensures Watched(n, CleanupSection(s, u, env).s, x, t, y, bound)
  {
    var s' := CleanupSection(s, u, env).s;
    if s.waiters[t].fut.Pending? {
      assert u != t;
      CleanupMain(s, u, env, s'.main);
      CleanupDebt(s.main, s'.main, s.waiters[u].client, u, x, t, y);
    }
    CleanupSame(n, s, u, env, x, t, y, bound, s');
  }

  /** The advisory ordering is off while this event dispatches. */
  ghost predicate Undeferred(e: Event) {
    match e
    case Arrive(_, _, _, _, env) => !env.share.ordering
    case Cleanup(_, env) => !env.share.ordering
    case Release(_, env) => !env.share.ordering
    case Success(_, env) => !env.share.ordering
    case RetuneMax(_, _, env) => !env.share.ordering
    case Kick(env) => !env.share.ordering
    case _ => true
  }

  /** No other critical section moves a waiter. */
  lemma QuietWatched(n: nat, s: State, e: Event, x: Client, t: Ticket, y: Client, bound: nat)
    requires Watched(n, s, x, t, y, bound) && !e.Arrive? && !e.Cleanup?
    ensures Watched(n, Critical(s, e).s, x, t, y, bound)
  {
    SameWatched(n, s, Critical(s, e).s, x, t, y, bound);
  }

  lemma CriticalWatched(n: nat, s: State, e: Event, x: Client, t: Ticket, y: Client, bound: nat)
    requires Inv(s) && Watched(n, s, x, t, y, bound) && y != x
    ensures Watched(n, Critical(s, e).s, x, t, y, bound)
  {
    match e
    case Arrive(u, c, wants, project, env) =>
      if u !in s.waiters {
        ParkWatched(n, s, u, c, wants, project, x, t, y, bound);
      }
    case Cleanup(u, env) =>
      if IsWaiter(s, u, Cancelling) {
        CleanupWatched(n, s, u, env, x, t, y, bound);
      }
    case _ => QuietWatched(n, s, e, x, t, y, bound);
  }

  lemma StepWatched(n: nat, s: State, e: Event, x: Client, t: Ticket, y: Client, bound: nat)
    requires Inv(s) && Watched(n, s, x, t, y, bound) && y != x && Undeferred(e)
    ensures Watched(n, Step(s, e), x, t, y, bound)
  {
    CriticalInv(s, e);
    CriticalWatched(n, s, e, x, t, y, bound);
    var section := Critical(s, e);
    if section.dispatch.Some? {
      DispatchWatched(n, section.s, section.dispatch.value, x, t, y, bound);
    }
  }

  lemma {:induction false} RunWatched(n: nat, s: State, es: seq<Event>, x: Client, t: Ticket, y: Client, bound: nat)
    requires Inv(s) && Watched(n, s, x, t, y, bound) && y != x
    requires forall i :: 0 <= i < |es| ==> Undeferred(es[i])
    ensures Watched(n, Run(s, es), x, t, y, bound)
  {
    if es != [] {
      RunWatched(n, s, es[..|es| - 1], x, t, y, bound);
      RunInv(s, es[..|es| - 1]);
      StepWatched(n, Run(s, es[..|es| - 1]), es[|es| - 1], x, t, y, bound);
    }
  }

  /** Main result: over every run without deferral, a normal request parked behind `own` of
      its client's requests is overtaken by any other client at most `own + 1` times from the normal
      queue: before its dispatch, and while it still waits. */
  lemma BoundedBypass(s: State, es: seq<Event>, x: Client, t: Ticket, y: Client)
    requires Inv(s) && y != x && t in s.waiters && s.waiters[t].fut.Pending? && t in Queue(s.main, x)
    requires forall i :: 0 <= i < |es| ==> Undeferred(es[i])
    ensures var s', n, own := Run(s, es), |s.granted|, Pos(Queue(s.main, x), t);
            && n <= |s'.granted|
            && (forall k :: n <= k < |s'.granted| && s'.granted[k].ticket == t ==>
                  Served(s'.granted[n..k], y) <= own + 1)
            && (t in s'.waiters && s'.waiters[t].fut.Pending? ==> Served(s'.granted[n..], y) <= own + 1)
  {
    var n, own := |s.granted|, Pos(Queue(s.main, x), t);
    OneClient(s.main, s.waiters, t, x);
    assert Served(s.granted[n..], y) == 0;
    RunWatched(n, s, es, x, t, y, own + 1);
  }
}
