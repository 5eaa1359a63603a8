/**
 What every step of the limiter keeps: queue integrity, slot conservation and the record
 of dispatches; and what every dispatch achieves: no waiter parked while its pool has room.
 */
module LimiterInvariants {
  import opened Common
  import opened Rotations
  import opened LimiterState
  import Aimd

  // ---------------------------------------------------------------- invariants

  /** A rotation parks only waiters of their own client that hold no slot. */
  ghost predicate QueueOk(r: Rotation, w: map<Ticket, Waiter>) {
    && Sound(r)
    && forall c, t :: t in Queue(r, c) ==>
         t in w && w[t].client == c
         && (w[t].fut.Pending? || (w[t].fut.Cancelled? && w[t].caller == Cancelling))
  }

  ghost predicate Apart(main: Rotation, prio: Rotation) {
    forall c, t :: t in Queue(main, c) ==> t !in Queue(prio, c)
  }

  /** Every live waiter is parked, in exactly one deque. */
  ghost predicate WaitersOk(s: State) {
    forall t :: t in s.waiters ==>
      var w := s.waiters[t];
      && (w.fut.Pending? ==> w.caller == Waiting && (t in Queue(s.main, w.client) || t in Queue(s.prio, w.client)))
      && (w.fut.Cancelled? ==> w.caller == Cancelling || w.caller == Gone)
      && (w.caller == Holding ==> w.fut.Granted?)
  }

  ghost predicate Parking(s: State) {
    QueueOk(s.main, s.waiters) && QueueOk(s.prio, s.waiters) && Apart(s.main, s.prio) && WaitersOk(s)
  }

  /** Waiters that own a slot right now. */
  ghost function Held(w: map<Ticket, Waiter>): set<Ticket> {
    set t | t in w && w[t].fut.Granted? && w[t].caller != Gone
  }

  ghost function HeldPriority(w: map<Ticket, Waiter>): set<Ticket> {
    set t | t in w && w[t].fut.Granted? && w[t].caller != Gone && w[t].fut.lane
  }

  datatype Slot = Slot(lease: nat, lane: bool)

  /** The slot `t` was dispatched to. */
  ghost function SlotOf(w: map<Ticket, Waiter>, t: Ticket): Option<Slot> {
    if t in w && w[t].fut.Granted? then Some(Slot(w[t].fut.lease, w[t].fut.lane)) else None
  }

  /** The counters are the number of slots held. */
  ghost predicate Counted(s: State) {
    s.inflight == |Held(s.waiters)| && s.prioInflight == |HeldPriority(s.waiters)|
  }

  /** Every dispatch had its own lease, and the leases outstanding are those of the held slots. */
  ghost predicate Leased(s: State) {
    && (forall t :: SlotOf(s.waiters, t).Some? ==> SlotOf(s.waiters, t).value.lease <= s.nextLease)
    && (forall t, u :: SlotOf(s.waiters, t).Some? && SlotOf(s.waiters, u).Some? && t != u ==>
          SlotOf(s.waiters, t).value.lease != SlotOf(s.waiters, u).value.lease)
    && (forall t :: t in Held(s.waiters) ==> Backed(s.holds, SlotOf(s.waiters, t)))
    && (forall l :: l in s.holds ==> exists t :: Owns(s.waiters, t, l))
  }

  ghost predicate Backed(holds: map<nat, Hold>, slot: Option<Slot>) {
    slot.Some? && slot.value.lease in holds && holds[slot.value.lease].lane == slot.value.lane
  }

  ghost predicate Owns(w: map<Ticket, Waiter>, t: Ticket, l: nat) {
    t in Held(w) && SlotOf(w, t).Some? && SlotOf(w, t).value.lease == l
  }

  ghost predicate Books(s: State) {
    Counted(s) && Leased(s)
  }

  /** Every dispatch of the record granted its waiter that pool, nobody was dispatched
      twice, and nobody holds a slot without a dispatch. */
  ghost predicate Recorded(s: State) {
    && (forall i :: 0 <= i < |s.granted| ==>
          var g := s.granted[i];
          && g.ticket in s.waiters && s.waiters[g.ticket].client == g.client
          && s.waiters[g.ticket].fut.Granted? && s.waiters[g.ticket].fut.lane == g.lane)
    && (forall i, j :: 0 <= i < j < |s.granted| ==> s.granted[i].ticket != s.granted[j].ticket)
    && (forall t :: t in s.waiters && s.waiters[t].fut.Granted? ==>
          exists i :: 0 <= i < |s.granted| && s.granted[i].ticket == t)
  }

  ghost predicate Inv(s: State) {
    Parking(s) && Books(s) && Recorded(s)
  }

  /** Live waiters of a rotation. */
  ghost function Live(r: Rotation, w: map<Ticket, Waiter>): set<Ticket> {
    set t | t in w && w[t].fut.Pending? && t in Queue(r, w[t].client)
  }

  /** No dispatchable waiter is parked while its pool has room, and none is parked in a
      priority lane that is closed. */
  ghost predicate WorkConserving(s: State) {
    && (Busy(s) < Cap(s) ==> Live(s.main, s.waiters) == {})
    && (s.prioInflight < s.reserve ==> Live(s.prio, s.waiters) == {})
    && (s.reserve == 0 ==> s.prio.order == [])
  }

  // --------------------------------------------------------------- one dispatch

  /** A popped live waiter of client `c`, its rotation reduced to `rest`. */
  ghost predicate PoppedFrom(r: Rotation, w: map<Ticket, Waiter>, turn: Turn, rest: Rotation) {
    && Sound(rest)
    && (forall c, t :: t in Queue(rest, c) ==> t in Queue(r, c))
    && turn.ticket in Queue(r, turn.client)
    && turn.ticket in w && w[turn.ticket].client == turn.client && w[turn.ticket].fut.Pending?
    && (forall c :: turn.ticket !in Queue(rest, c))
    && (forall c, t :: t in Queue(r, c) && t in w && w[t].fut.Pending? && t != turn.ticket ==> t in Queue(rest, c))
  }

  lemma PoppedLive(r: Rotation, w: map<Ticket, Waiter>)
    requires QueueOk(r, w)
    ensures var p := NextWaiter(r, Dead(w));
            && Sound(p.rest)
            && (p.next.None? ==> p.rest == EMPTY && Live(r, w) == {})
            && (p.next.Some? ==> PoppedFrom(r, w, p.next.value, p.rest))
  {
    NextWaiterFetches(r, Dead(w));
    FetchedLive(r, w, NextWaiter(r, Dead(w)));
  }

  lemma FetchedLive(r: Rotation, w: map<Ticket, Waiter>, p: Popped)
    requires QueueOk(r, w) && Fetched(r, Dead(w), p)
    ensures p.next.None? ==> Live(r, w) == {}
    ensures p.next.Some? ==> PoppedFrom(r, w, p.next.value, p.rest)
  {
    forall t | t in w && w[t].fut.Pending? ensures t !in Dead(w) {}
    if p.next.None? {
      forall t | t in w && w[t].fut.Pending? ensures t !in Queue(r, w[t].client) {
        assert t !in Dead(w);
      }
    }
  }

  lemma StillQueued(r: Rotation, w: map<Ticket, Waiter>, turn: Turn, rest: Rotation, c: Client, t: Ticket)
    requires QueueOk(r, w) && t in Queue(rest, c)
    requires (forall d, u :: u in Queue(rest, d) ==> u in Queue(r, d)) && turn.ticket !in Queue(rest, c)
    ensures t != turn.ticket && t in w && w[t].client == c
    ensures w[t].fut.Pending? || (w[t].fut.Cancelled? && w[t].caller == Cancelling)
  {
    assert t in Queue(r, c);
  }

  lemma QueueAfterGrant(r: Rotation, w: map<Ticket, Waiter>, turn: Turn, rest: Rotation, w': map<Ticket, Waiter>)
    requires QueueOk(r, w) && PoppedFrom(r, w, turn, rest)
    requires forall t :: t in w && t != turn.ticket ==> t in w' && w'[t] == w[t]
    ensures QueueOk(rest, w')
  {
    forall c, t | t in Queue(rest, c)
      ensures t in w' && w'[t].client == c
              && (w'[t].fut.Pending? || (w'[t].fut.Cancelled? && w'[t].caller == Cancelling))
    {
      StillQueued(r, w, turn, rest, c, t);
    }
  }

  lemma QueueUnchanged(r: Rotation, w: map<Ticket, Waiter>, t0: Ticket, w': map<Ticket, Waiter>)
    requires QueueOk(r, w) && (forall c :: t0 !in Queue(r, c))
    requires forall t :: t in w && t != t0 ==> t in w' && w'[t] == w[t]
    ensures QueueOk(r, w')
  {}

  lemma GrantParking(s: State, r: Rotation, turn: Turn, rest: Rotation, lane: bool, clock: real)
    requires Parking(s) && QueueOk(r, s.waiters) && PoppedFrom(r, s.waiters, turn, rest)
    requires forall c :: Queue(r, c) == Queue(if lane then s.prio else s.main, c)
    ensures Parking(GrantSlot(if lane then s.(prio := rest) else s.(main := rest), turn, lane, clock))
  {
    var s' := GrantSlot(if lane then s.(prio := rest) else s.(main := rest), turn, lane, clock);
    var other := if lane then s.main else s.prio;
    assert turn.ticket in Queue(r, turn.client);
    forall c ensures turn.ticket !in Queue(other, c) {
      assert turn.ticket in Queue(other, c) ==> c == turn.client;
    }
    QueueAfterGrant(r, s.waiters, turn, rest, s'.waiters);
    QueueUnchanged(other, s.waiters, turn.ticket, s'.waiters);
    forall c, t | t in Queue(rest, c) ensures t in Queue(r, c) {}
  }

  lemma GrantHeld(w: map<Ticket, Waiter>, t: Ticket, c: Client, lane: bool, lease: nat)
    requires t in w && w[t].fut.Pending? && w[t].caller == Waiting
    ensures var w' := w[t := Waiter(c, Granted(lane, lease), w[t].caller)];
            && Held(w') == Held(w) + {t} && t !in Held(w)
            && HeldPriority(w') == HeldPriority(w) + (if lane then {t} else {}) && t !in HeldPriority(w)
  {
  }

  lemma GrantCounted(s: State, turn: Turn, lane: bool, clock: real)
    requires Counted(s) && turn.ticket in s.waiters
    requires s.waiters[turn.ticket].fut.Pending? && s.waiters[turn.ticket].caller == Waiting
    ensures Counted(GrantSlot(s, turn, lane, clock))
  {
    GrantHeld(s.waiters, turn.ticket, turn.client, lane, s.nextLease + 1);
  }

  /** Only the waiter that was dispatched has a new slot. */
  lemma GrantSlots(s: State, turn: Turn, lane: bool, clock: real, u: Ticket)
    ensures SlotOf(GrantSlot(s, turn, lane, clock).waiters, u)
         == if u == turn.ticket then Some(Slot(s.nextLease + 1, lane)) else SlotOf(s.waiters, u)
  {
  }

  lemma GrantOwned(s: State, s': State, t: Ticket, lane: bool)
    requires Leased(s) && s'.nextLease == s.nextLease + 1 && Held(s'.waiters) == Held(s.waiters) + {t}
    requires forall u :: SlotOf(s'.waiters, u) == if u == t then Some(Slot(s'.nextLease, lane)) else SlotOf(s.waiters, u)
    requires s'.holds.Keys == s.holds.Keys + {s'.nextLease} && SlotOf(s.waiters, t).None?
    ensures forall l :: l in s'.holds ==> exists u :: Owns(s'.waiters, u, l)
  {
    forall l | l in s'.holds ensures exists u :: Owns(s'.waiters, u, l) {
      if l == s'.nextLease {
        assert Owns(s'.waiters, t, l);
      } else {
        var u :| Owns(s.waiters, u, l);
        assert Owns(s'.waiters, u, l);
      }
    }
  }

  lemma GrantLeased(s: State, turn: Turn, lane: bool, clock: real)
    requires Leased(s) && turn.ticket in s.waiters
    requires s.waiters[turn.ticket].fut.Pending? && s.waiters[turn.ticket].caller == Waiting
    ensures Leased(GrantSlot(s, turn, lane, clock))
  {
    var s' := GrantSlot(s, turn, lane, clock);
    var t := turn.ticket;
    forall u ensures SlotOf(s'.waiters, u) == if u == t then Some(Slot(s'.nextLease, lane)) else SlotOf(s.waiters, u) {
      GrantSlots(s, turn, lane, clock, u);
    }
    GrantHeld(s.waiters, t, turn.client, lane, s'.nextLease);
    forall u | u in Held(s'.waiters) ensures Backed(s'.holds, SlotOf(s'.waiters, u)) {
      if u != t {
        assert Backed(s.holds, SlotOf(s.waiters, u));
      }
    }
    GrantOwned(s, s', t, lane);
  }

  lemma GrantRecorded(s: State, turn: Turn, lane: bool, clock: real)
    requires Recorded(s) && turn.ticket in s.waiters && s.waiters[turn.ticket].fut.Pending?
    ensures Recorded(GrantSlot(s, turn, lane, clock))
  {
    var s' := GrantSlot(s, turn, lane, clock);
    assert s'.granted[|s.granted|].ticket == turn.ticket;
    forall t | t in s'.waiters && s'.waiters[t].fut.Granted?
      ensures exists i :: 0 <= i < |s'.granted| && s'.granted[i].ticket == t
    {
      if t != turn.ticket {
        var i :| 0 <= i < |s.granted| && s.granted[i].ticket == t;
        assert s'.granted[i].ticket == t;
      }
    }
  }

  /** Dropping cancelled tickets from a deque whose live waiters are all gone. */
  lemma ExhaustedParking(s: State, lane: bool)
    requires Parking(s) && Live(if lane then s.prio else s.main, s.waiters) == {}
    ensures Parking(if lane then s.(prio := EMPTY) else s.(main := EMPTY))
  {
    var s' := if lane then s.(prio := EMPTY) else s.(main := EMPTY);
    forall t | t in s'.waiters && s'.waiters[t].fut.Pending?
      ensures t in Queue(s'.main, s'.waiters[t].client) || t in Queue(s'.prio, s'.waiters[t].client)
    {
      assert t !in Live(if lane then s.prio else s.main, s.waiters);
    }
  }

  // ---------------------------------------------------------- the dispatch loops

  lemma SameQueuesOk(r: Rotation, w: map<Ticket, Waiter>, r': Rotation)
    requires QueueOk(r, w) && Sound(r') && r'.queues == r.queues
    ensures QueueOk(r', w)
  {
    forall c, t | t in Queue(r', c) ensures t in Queue(r, c) {}
  }

  lemma RotatedOk(r: Rotation, w: map<Ticket, Waiter>, i: nat)
    requires QueueOk(r, w) && i <= |r.order|
    ensures QueueOk(RotatedTo(r, i), w)
    ensures forall c :: Queue(RotatedTo(r, i), c) == Queue(r, c)
  {
    RotatedSound(r, i);
    SameQueuesOk(r, w, RotatedTo(r, i));
  }

  lemma PreferredOk(s: State, share: Share)
    requires QueueOk(s.main, s.waiters)
    ensures QueueOk(PreferUnderShare(s, share), s.waiters)
    ensures forall c :: Queue(PreferUnderShare(s, share), c) == Queue(s.main, c)
  {
    if share.ordering {
      RotatedOk(s.main, s.waiters, FirstUnderShare(s.main.order, s.projects, share));
    }
  }

  lemma LiveSame(r: Rotation, r': Rotation, w: map<Ticket, Waiter>)
    requires forall c :: Queue(r, c) == Queue(r', c)
    ensures Live(r, w) == Live(r', w)
  {}

  /** After one grant the popped waiter, and nobody else, has left the live set. */
  lemma LiveAfterGrant(r: Rotation, w: map<Ticket, Waiter>, turn: Turn, rest: Rotation, w': map<Ticket, Waiter>)
    requires PoppedFrom(r, w, turn, rest)
    requires turn.ticket in w' && w' == w[turn.ticket := w'[turn.ticket]] && w'[turn.ticket].fut.Granted?
    ensures turn.ticket in Live(r, w) && Live(rest, w') == Live(r, w) - {turn.ticket}
  {}

  lemma LiveElsewhere(r: Rotation, w: map<Ticket, Waiter>, t: Ticket, w': map<Ticket, Waiter>)
    requires QueueOk(r, w) && t in w && t !in Queue(r, w[t].client)
    requires t in w' && w' == w[t := w'[t]] && w'[t].fut.Granted?
    ensures Live(r, w') == Live(r, w)
  {}

  ghost function Mine(s: State, lane: bool): Rotation {
    if lane then s.prio else s.main
  }

  ghost function Other(s: State, lane: bool): Rotation {
    if lane then s.main else s.prio
  }

  /** What one dispatch loop did: how many it dispatched, to which pool, who is left. */
  ghost predicate Dispatched(s: State, s': State, lane: bool, n: nat) {
    && s'.aimd == s.aimd && s'.reserve == s.reserve
    && |s'.granted| == |s.granted| + n && s'.granted[..|s.granted|] == s.granted
    && (forall i :: |s.granted| <= i < |s'.granted| ==> s'.granted[i].lane == lane)
    && s'.inflight == s.inflight + n
    && s'.prioInflight == s.prioInflight + (if lane then n else 0)
    && |Live(Mine(s', lane), s'.waiters)| == |Live(Mine(s, lane), s.waiters)| - n
    && Live(Other(s', lane), s'.waiters) == Live(Other(s, lane), s.waiters)
    && Other(s', lane) == Other(s, lane)
  }

  /** As many as there is room for, as many as are waiting, and no fewer. */
  ghost function Count(waiting: set<Ticket>, room: int): nat {
    MinI(|waiting|, MaxI(0, room))
  }

  lemma GrantInv(s: State, r: Rotation, turn: Turn, rest: Rotation, lane: bool, clock: real)
    requires Inv(s) && QueueOk(r, s.waiters) && PoppedFrom(r, s.waiters, turn, rest)
    requires forall c :: Queue(r, c) == Queue(Mine(s, lane), c)
    ensures Inv(GrantSlot(WithLane(s, lane, rest), turn, lane, clock))
  {
    var s1 := WithLane(s, lane, rest);
    GrantParking(s, r, turn, rest, lane, clock);
    GrantCounted(s1, turn, lane, clock);
    GrantLeased(s1, turn, lane, clock);
    GrantRecorded(s1, turn, lane, clock);
  }

  lemma GrantDispatched(s: State, r: Rotation, turn: Turn, rest: Rotation, lane: bool, clock: real)
    requires QueueOk(Other(s, lane), s.waiters) && Apart(s.main, s.prio)
    requires PoppedFrom(r, s.waiters, turn, rest)
    requires forall c :: Queue(r, c) == Queue(Mine(s, lane), c)
    ensures Dispatched(s, GrantSlot(WithLane(s, lane, rest), turn, lane, clock), lane, 1)
  {
    var s' := GrantSlot(WithLane(s, lane, rest), turn, lane, clock);
    LiveSame(r, Mine(s, lane), s.waiters);
    LiveAfterGrant(r, s.waiters, turn, rest, s'.waiters);
    assert turn.ticket in Queue(Mine(s, lane), turn.client);
    LiveElsewhere(Other(s, lane), s.waiters, turn.ticket, s'.waiters);
  }

  /** One pass of a dispatch loop. */
  lemma TurnOk(s: State, lane: bool, env: Env, p: Popped)
    requires Inv(s) && p == NextTurn(s, lane, env.share)
    ensures p.next.None? ==>
              && Live(Mine(s, lane), s.waiters) == {}
              && Inv(WithLane(s, lane, p.rest)) && Dispatched(s, WithLane(s, lane, p.rest), lane, 0)
    ensures p.next.Some? ==>
              var s1 := GrantSlot(WithLane(s, lane, p.rest), p.next.value, lane, env.clock);
              Inv(s1) && Dispatched(s, s1, lane, 1)
  {
    var r := if lane then s.prio else PreferUnderShare(s, env.share);
    PreferredOk(s, env.share);
    LiveSame(r, Mine(s, lane), s.waiters);
    PoppedLive(r, s.waiters);
    if p.next.None? {
      ExhaustedOk(s, lane);
    } else {
      GrantInv(s, r, p.next.value, p.rest, lane, env.clock);
      GrantDispatched(s, r, p.next.value, p.rest, lane, env.clock);
    }
  }

  lemma DispatchedTrans(s: State, s1: State, s2: State, lane: bool, n: nat)
    requires Dispatched(s, s1, lane, 1) && Dispatched(s1, s2, lane, n)
    ensures Dispatched(s, s2, lane, 1 + n)
  {
    assert s2.granted[..|s.granted|] == s2.granted[..|s1.granted|][..|s.granted|];
    forall i | |s.granted| <= i < |s2.granted| ensures s2.granted[i].lane == lane {
      if i < |s1.granted| {
        assert s2.granted[..|s1.granted|][i] == s1.granted[i];
      }
    }
  }

  /** Nobody live is left in the rotation: the loop stops, having dispatched nobody. */
  lemma ExhaustedOk(s: State, lane: bool)
    requires Inv(s) && Live(Mine(s, lane), s.waiters) == {}
    ensures Inv(WithLane(s, lane, EMPTY)) && Dispatched(s, WithLane(s, lane, EMPTY), lane, 0)
  {
    ExhaustedParking(s, lane);
    assert Live(EMPTY, s.waiters) == {};
  }

  lemma PriorityCountStep(s: State, s1: State)
    requires Dispatched(s, s1, true, 1) && s.prioInflight < s.reserve
    ensures Count(Live(s.prio, s.waiters), s.reserve - s.prioInflight)
         == 1 + Count(Live(s1.prio, s1.waiters), s1.reserve - s1.prioInflight)
  {
    assert |Live(Mine(s1, true), s1.waiters)| == |Live(Mine(s, true), s.waiters)| - 1;
  }

  lemma {:induction false} DispatchPriorityOk(s: State, env: Env)
    requires Inv(s)
    ensures Inv(DispatchPriority(s, env))
    ensures Dispatched(s, DispatchPriority(s, env), true, Count(Live(s.prio, s.waiters), s.reserve - s.prioInflight))
    decreases s.reserve - s.prioInflight
  {
    if s.prioInflight < s.reserve {
      var p := NextTurn(s, true, env.share);
      TurnOk(s, true, env, p);
      if p.next.Some? {
        var s1 := GrantSlot(WithLane(s, true, p.rest), p.next.value, true, env.clock);
        PriorityCountStep(s, s1);
        DispatchPriorityOk(s1, env);
        assert DispatchPriority(s, env) == DispatchPriority(s1, env);
        DispatchedTrans(s, s1, DispatchPriority(s1, env), true,
                        Count(Live(s1.prio, s1.waiters), s1.reserve - s1.prioInflight));
      }
    }
  }

  /** Each grant uses one waiter and one place. */
  lemma MainCountStep(s: State, s1: State)
    requires Dispatched(s, s1, false, 1) && Busy(s) < Cap(s)
    ensures Count(Live(s.main, s.waiters), Cap(s) - Busy(s)) == 1 + Count(Live(s1.main, s1.waiters), Cap(s1) - Busy(s1))
  {
    assert |Live(Mine(s1, false), s1.waiters)| == |Live(Mine(s, false), s.waiters)| - 1;
  }

  lemma {:induction false} DispatchMainOk(s: State, env: Env)
    requires Inv(s)
    ensures Inv(DispatchMain(s, env))
    ensures Dispatched(s, DispatchMain(s, env), false, Count(Live(s.main, s.waiters), Cap(s) - Busy(s)))
    decreases Cap(s) - Busy(s)
  {
    if Busy(s) < Cap(s) {
      var p := NextTurn(s, false, env.share);
      TurnOk(s, false, env, p);
      if p.next.Some? {
        var s1 := GrantSlot(WithLane(s, false, p.rest), p.next.value, false, env.clock);
        MainCountStep(s, s1);
        DispatchMainOk(s1, env);
        assert DispatchMain(s, env) == DispatchMain(s1, env);
        DispatchedTrans(s, s1, DispatchMain(s1, env), false,
                        Count(Live(s1.main, s1.waiters), Cap(s1) - Busy(s1)));
      }
    }
  }

  // -------------------------------------------------------------- try_dispatch

  lemma OneClient(r: Rotation, w: map<Ticket, Waiter>, t: Ticket, c: Client)
    requires QueueOk(r, w)
    ensures t in Queue(r, c) ==> t in w && w[t].client == c && !w[t].fut.Granted?
  {}

  lemma MigrateQueues(s: State)
    requires Parking(s)
    ensures Sound(Migrate(s).main) && Sound(EMPTY)
    ensures forall c :: Queue(Migrate(s).main, c) == Queue(s.main, c) + Queue(s.prio, c)
  {
    forall c, d, t | c in s.prio.queues && t in s.prio.queues[c] ensures t !in Queue(s.main, d) {
      assert t in Queue(s.prio, c);
      OneClient(s.main, s.waiters, t, d);
      OneClient(s.prio, s.waiters, t, c);
    }
    assert s.prio == Rotation(s.prio.order, s.prio.queues);
    MigratedSound(s.prio.order, s.prio.queues, s.main);
  }

  lemma InJoined(r: Rotation, q: Rotation, m: Rotation, c: Client, t: Ticket)
    requires Queue(m, c) == Queue(r, c) + Queue(q, c)
    ensures t in Queue(m, c) <==> t in Queue(r, c) || t in Queue(q, c)
  {}

  /** A rotation that joins two others parks what they parked. */
  lemma JoinedQueueOk(r: Rotation, q: Rotation, w: map<Ticket, Waiter>, m: Rotation)
    requires QueueOk(r, w) && QueueOk(q, w) && Sound(m)
    requires forall c, t :: t in Queue(m, c) <==> t in Queue(r, c) || t in Queue(q, c)
    ensures QueueOk(m, w)
  {}

  lemma EmptyQueueOk(w: map<Ticket, Waiter>)
    ensures QueueOk(EMPTY, w) && forall c, t :: t !in Queue(EMPTY, c)
  {}

  lemma MigrateParking(s: State)
    requires Parking(s)
    ensures Parking(Migrate(s))
  {
    MigrateQueues(s);
    forall c, t ensures t in Queue(Migrate(s).main, c) <==> t in Queue(s.main, c) || t in Queue(s.prio, c) {
      InJoined(s.main, s.prio, Migrate(s).main, c, t);
    }
    JoinedQueueOk(s.main, s.prio, s.waiters, Migrate(s).main);
    EmptyQueueOk(s.waiters);
    assert WaitersOk(Migrate(s)) && Apart(Migrate(s).main, EMPTY);
  }

  lemma MigrateLive(s: State)
    requires Parking(s)
    ensures Live(Migrate(s).main, s.waiters) == Live(s.main, s.waiters) + Live(s.prio, s.waiters)
    ensures Live(s.main, s.waiters) !! Live(s.prio, s.waiters)
  {
    MigrateQueues(s);
  }

  lemma MigrateInv(s: State)
    requires Inv(s)
    ensures Inv(Migrate(s))
  {
    MigrateParking(s);
    SlotsUntouched(s, Migrate(s));
  }

  /** Parked live waiters that the main pool serves: all of them once the lane is closed. */
  ghost function MainDemand(s: State): nat {
    |Live(s.main, s.waiters)| + (if s.reserve == 0 then |Live(s.prio, s.waiters)| else 0)
  }

  /** How many waiters a dispatch takes from each lane. */
  ghost function PriorityGrants(s: State): nat {
    Count(Live(s.prio, s.waiters), s.reserve - s.prioInflight)
  }

  ghost function MainGrants(s: State): nat {
    MinI(MainDemand(s), MaxI(0, Cap(s) - Busy(s)))
  }

  lemma EmptyLane(s: State)
    requires Inv(s) && s.prio.order == []
    ensures Live(s.prio, s.waiters) == {}
  {}

  lemma MigrateCloses(s: State)
    requires Inv(s) && s.reserve == 0
    ensures var s1 := Migrate(s);
            && Inv(s1) && s1.prio.order == [] && s1.reserve == 0
            && |Live(s1.main, s1.waiters)| == MainDemand(s) && PriorityGrants(s1) == PriorityGrants(s)
  {
    MigrateInv(s);
    MigrateLive(s);
  }

  lemma CloseLane(s: State)
    requires Inv(s)
    ensures var s1 := if s.reserve == 0 && s.prio.order != [] then Migrate(s) else s;
            && Inv(s1) && (s1.reserve == 0 ==> s1.prio.order == [])
            && |Live(s1.main, s1.waiters)| == MainDemand(s) && PriorityGrants(s1) == PriorityGrants(s)
  {
    if s.reserve == 0 {
      if s.prio.order != [] {
        MigrateCloses(s);
      } else {
        EmptyLane(s);
      }
    }
  }

  /** How a dispatch moved the state on. */
  ghost predicate DispatchedBy(s: State, s': State) {
    && s'.aimd == s.aimd && s'.reserve == s.reserve
    && |s'.granted| == |s.granted| + PriorityGrants(s) + MainGrants(s)
    && s'.granted[..|s.granted|] == s.granted
    && s'.inflight == s.inflight + PriorityGrants(s) + MainGrants(s)
    && s'.prioInflight == s.prioInflight + PriorityGrants(s)
    && Busy(s') == Busy(s) + MainGrants(s)
  }

  lemma PriorityDone(s1: State, env: Env, s2: State)
    requires Inv(s1) && s2 == DispatchPriority(s1, env)
    ensures Inv(s2) && Dispatched(s1, s2, true, PriorityGrants(s1)) && (s1.reserve == 0 ==> s2 == s1)
  {
    DispatchPriorityOk(s1, env);
  }

  lemma MainDone(s2: State, env: Env, s3: State)
    requires Inv(s2) && s3 == DispatchMain(s2, env)
    ensures Inv(s3) && Dispatched(s2, s3, false, Count(Live(s2.main, s2.waiters), Cap(s2) - Busy(s2)))
  {
    DispatchMainOk(s2, env);
  }

  /** Main result: a dispatch keeps every invariant, leaves no dispatchable waiter parked,
      and the number it takes from each lane is fixed by demand and room alone. */
  lemma TryDispatchOk(s: State, env: Env)
    requires Inv(s)
    ensures Inv(TryDispatch(s, env)) && WorkConserving(TryDispatch(s, env))
    ensures DispatchedBy(s, TryDispatch(s, env))
  {
    var s1 := if s.reserve == 0 && s.prio.order != [] then Migrate(s) else s;
    CloseLane(s);
    var s2 := DispatchPriority(s1, env);
    var s3 := DispatchMain(s2, env);
    PriorityDone(s1, env, s2);
    MainDone(s2, env, s3);
    LoopsTally(s, s1, s2, s3);
    LoopsDrained(s1, s2, s3);
  }

  lemma LoopsTally(s: State, s1: State, s2: State, s3: State)
    requires s1.aimd == s.aimd && s1.reserve == s.reserve && s1.granted == s.granted
    requires s1.inflight == s.inflight && s1.prioInflight == s.prioInflight
    requires |Live(s1.main, s1.waiters)| == MainDemand(s) && PriorityGrants(s1) == PriorityGrants(s)
    requires Dispatched(s1, s2, true, PriorityGrants(s1))
    requires Dispatched(s2, s3, false, Count(Live(s2.main, s2.waiters), Cap(s2) - Busy(s2)))
    ensures DispatchedBy(s, s3)
  {
    BusyAfterPriority(s1, s2);
    assert s3.granted[..|s.granted|] == s3.granted[..|s2.granted|][..|s1.granted|];
    assert Live(Other(s2, true), s2.waiters) == Live(Other(s1, true), s1.waiters);
  }

  lemma BusyAfterPriority(s: State, s': State)
    requires Dispatched(s, s', true, PriorityGrants(s))
    ensures Busy(s') == Busy(s) && Cap(s') == Cap(s)
  {}

  lemma LoopsDrained(s1: State, s2: State, s3: State)
    requires Inv(s1) && Dispatched(s1, s2, true, PriorityGrants(s1))
    requires Dispatched(s2, s3, false, Count(Live(s2.main, s2.waiters), Cap(s2) - Busy(s2)))
    requires s1.reserve == 0 ==> s1.prio.order == [] && s2.prio == s1.prio
    ensures WorkConserving(s3)
  {
    assert |Live(Mine(s2, true), s2.waiters)| == |Live(s1.prio, s1.waiters)| - PriorityGrants(s1);
    assert |Live(Mine(s3, false), s3.waiters)|
        == |Live(s2.main, s2.waiters)| - Count(Live(s2.main, s2.waiters), Cap(s2) - Busy(s2));
    assert Live(Other(s3, false), s3.waiters) == Live(s2.prio, s2.waiters);
    if s3.prioInflight < s3.reserve {
      assert |Live(s2.prio, s2.waiters)| == 0;
    }
    if Busy(s3) < Cap(s3) {
      assert |Live(s3.main, s3.waiters)| == 0;
    }
  }

  /** The advisory ordering changes who goes, never how many. */
  lemma ShareNeverChangesHowMany(s: State, env1: Env, env2: Env)
    requires Inv(s)
    ensures var s1, s2 := TryDispatch(s, env1), TryDispatch(s, env2);
            && |s1.granted| == |s2.granted| && s1.inflight == s2.inflight && s1.prioInflight == s2.prioInflight
  {
    TryDispatchOk(s, env1);
    TryDispatchOk(s, env2);
  }

  lemma {:induction false} LoopsKeepCeiling(s: State, env: Env)
    ensures DispatchMain(s, env).aimd == s.aimd && Busy(DispatchMain(s, env)) <= MaxI(Busy(s), Cap(s))
    decreases Cap(s) - Busy(s)
  {
    if Busy(s) < Cap(s) {
      var p := NextTurn(s, false, env.share);
      if p.next.Some? {
        LoopsKeepCeiling(GrantSlot(WithLane(s, false, p.rest), p.next.value, false, env.clock), env);
      }
    }
  }

  lemma {:induction false} PriorityLoopKeepsCeiling(s: State, env: Env)
    ensures DispatchPriority(s, env).aimd == s.aimd && Busy(DispatchPriority(s, env)) == Busy(s)
    decreases s.reserve - s.prioInflight
  {
    if s.prioInflight < s.reserve {
      var p := NextTurn(s, true, env.share);
      if p.next.Some? {
        PriorityLoopKeepsCeiling(GrantSlot(WithLane(s, true, p.rest), p.next.value, true, env.clock), env);
      }
    }
  }

  /** A dispatch leaves the live cap alone and never takes the main pool past it: what is over it
      afterwards was over it before. */
  lemma DispatchKeepsCeiling(s: State, env: Env)
    ensures TryDispatch(s, env).aimd == s.aimd && Busy(TryDispatch(s, env)) <= MaxI(Busy(s), Cap(s))
  {
    var s1 := if s.reserve == 0 && s.prio.order != [] then Migrate(s) else s;
    PriorityLoopKeepsCeiling(s1, env);
    LoopsKeepCeiling(DispatchPriority(s1, env), env);
  }

  // ------------------------------------------------------------ the other steps

  lemma NotParked(r: Rotation, w: map<Ticket, Waiter>, t: Ticket)
    requires QueueOk(r, w) && t !in w
    ensures forall c :: t !in Queue(r, c)
  {
    forall c ensures t !in Queue(r, c) {
      assert t in Queue(r, c) ==> t in w;
    }
  }

  lemma EnqueueKnown(r: Rotation, w: map<Ticket, Waiter>, t: Ticket, c: Client, r': Rotation)
    requires QueueOk(r, w) && t !in w && Sound(r')
    requires Queue(r', c) == Queue(r, c) + [t] && forall d :: d != c ==> Queue(r', d) == Queue(r, d)
    ensures QueueOk(r', w[t := Waiter(c, Pending, Waiting)])
  {
    forall d, u | u in Queue(r', d) ensures (u == t && d == c) || u in Queue(r, d) {
      assert d != c ==> Queue(r', d) == Queue(r, d);
    }
  }

  lemma EnqueueOk(r: Rotation, w: map<Ticket, Waiter>, t: Ticket, c: Client)
    requires QueueOk(r, w) && t !in w
    ensures QueueOk(Enqueue(r, c, t), w[t := Waiter(c, Pending, Waiting)])
    ensures Queue(Enqueue(r, c, t), c) == Queue(r, c) + [t]
    ensures forall d :: d != c ==> Queue(Enqueue(r, c, t), d) == Queue(r, d)
  {
    NotParked(r, w, t);
    EnqueueSound(r, c, t);
    EnqueueQueues(r, c, t);
    EnqueueKnown(r, w, t, c, Enqueue(r, c, t));
  }

  lemma ParkParking(s: State, t: Ticket, c: Client, wants: bool, project: Option<Project>)
    requires Parking(s) && t !in s.waiters
    ensures Parking(Park(s, t, c, wants, project))
  {
    var s' := Park(s, t, c, wants, project);
    var lane := wants && s.reserve > 0;
    EnqueueOk(Mine(s, lane), s.waiters, t, c);
    NotParked(Other(s, lane), s.waiters, t);
    NotParked(Mine(s, lane), s.waiters, t);
    QueueUnchanged(Other(s, lane), s.waiters, t, s'.waiters);
    ParkWaiters(s, t, c, lane);
  }

  lemma ParkWaiters(s: State, t: Ticket, c: Client, lane: bool)
    requires WaitersOk(s) && Apart(s.main, s.prio) && t !in s.waiters
    requires forall d :: t !in Queue(Other(s, lane), d) && t !in Queue(Mine(s, lane), d)
    ensures var s' := WithLane(s.(waiters := s.waiters[t := Waiter(c, Pending, Waiting)]), lane, Enqueue(Mine(s, lane), c, t));
            WaitersOk(s') && Apart(s'.main, s'.prio)
  {
    EnqueueQueues(Mine(s, lane), c, t);
    var s' := WithLane(s.(waiters := s.waiters[t := Waiter(c, Pending, Waiting)]), lane, Enqueue(Mine(s, lane), c, t));
    forall d, u | u in Queue(s'.main, d) ensures u !in Queue(s'.prio, d) {
      assert u != t ==> (u in Queue(s'.main, d) <==> u in Queue(s.main, d)) && (u in Queue(s'.prio, d) <==> u in Queue(s.prio, d));
    }
  }

  lemma ParkInv(s: State, t: Ticket, c: Client, wants: bool, project: Option<Project>)
    requires Inv(s) && t !in s.waiters
    ensures Inv(Park(s, t, c, wants, project))
  {
    ParkParking(s, t, c, wants, project);
    ParkSlots(s, t, c, wants, project);
  }

  lemma ParkSlots(s: State, t: Ticket, c: Client, wants: bool, project: Option<Project>)
    requires Books(s) && Recorded(s) && t !in s.waiters
    ensures Books(Park(s, t, c, wants, project)) && Recorded(Park(s, t, c, wants, project))
  {
    SlotsUntouched(s, Park(s, t, c, wants, project));
  }

  /** A step that neither opens nor closes a slot keeps the books and the record. */
  lemma SlotsUntouched(s: State, s': State)
    requires Books(s) && Recorded(s)
    requires s'.inflight == s.inflight && s'.prioInflight == s.prioInflight
    requires s'.holds == s.holds && s'.nextLease == s.nextLease && s'.granted == s.granted
    requires forall t :: t in s.waiters ==> SameSlot(s.waiters, s'.waiters, t)
    requires forall t :: t in s'.waiters && s'.waiters[t].fut.Granted? ==> t in s.waiters && s.waiters[t].fut.Granted?
    ensures Books(s') && Recorded(s')
  {
    assert Held(s'.waiters) == Held(s.waiters) by {
      forall t ensures t in Held(s'.waiters) <==> t in Held(s.waiters) {
        assert t in s.waiters ==> SameSlot(s.waiters, s'.waiters, t);
      }
    }
    assert HeldPriority(s'.waiters) == HeldPriority(s.waiters) by {
      forall t ensures t in HeldPriority(s'.waiters) <==> t in HeldPriority(s.waiters) {
        assert t in s.waiters ==> SameSlot(s.waiters, s'.waiters, t);
      }
    }
    forall u ensures SlotOf(s'.waiters, u) == SlotOf(s.waiters, u) {
      assert u in s.waiters ==> SameSlot(s.waiters, s'.waiters, u);
    }
    SameLeases(s, s');
    SameRecord(s, s');
  }

  /** As far as slots go, `t` is where it was. */
  ghost predicate SameSlot(w: map<Ticket, Waiter>, w': map<Ticket, Waiter>, t: Ticket)
    requires t in w
  {
    && t in w' && w'[t].client == w[t].client
    && (w'[t].fut.Granted? <==> w[t].fut.Granted?)
    && (w[t].fut.Granted? ==> w'[t].fut == w[t].fut && (w'[t].caller == Gone <==> w[t].caller == Gone))
  }

  lemma SameLeases(s: State, s': State)
    requires Leased(s) && Held(s'.waiters) == Held(s.waiters)
    requires forall u :: SlotOf(s'.waiters, u) == SlotOf(s.waiters, u)
    requires s'.holds == s.holds && s'.nextLease == s.nextLease
    ensures Leased(s')
  {
    forall l | l in s'.holds ensures exists u :: Owns(s'.waiters, u, l) {
      var u :| Owns(s.waiters, u, l);
      assert Owns(s'.waiters, u, l);
    }
  }

  lemma SameRecord(s: State, s': State)
    requires Recorded(s) && s'.granted == s.granted
    requires forall t :: t in s.waiters ==> SameSlot(s.waiters, s'.waiters, t)
    requires forall t :: t in s'.waiters && s'.waiters[t].fut.Granted? ==> t in s.waiters && s.waiters[t].fut.Granted?
    ensures Recorded(s')
  {
    forall i | 0 <= i < |s'.granted|
      ensures s'.granted[i].ticket in s'.waiters && SameSlot(s.waiters, s'.waiters, s.granted[i].ticket)
    {}
  }

  lemma GrantedParking(s: State, s': State, t: Ticket)
    requires Parking(s) && t in s.waiters && s.waiters[t].fut.Granted?
    requires t in s'.waiters && s'.main == s.main && s'.prio == s.prio
    requires s'.waiters == s.waiters[t := s'.waiters[t]] && s'.waiters[t].fut.Granted?
    ensures Parking(s')
  {
    forall c ensures t !in Queue(s.main, c) && t !in Queue(s.prio, c) {
      OneClient(s.main, s.waiters, t, c);
      OneClient(s.prio, s.waiters, t, c);
    }
    QueueUnchanged(s.main, s.waiters, t, s'.waiters);
    QueueUnchanged(s.prio, s.waiters, t, s'.waiters);
  }

  lemma WakeInv(s: State, t: Ticket)
    requires Inv(s) && IsWaiter(s, t, Waiting) && s.waiters[t].fut.Granted?
    ensures Inv(SetCaller(s, t, Holding))
  {
    GrantedParking(s, SetCaller(s, t, Holding), t);
    SlotsUntouched(s, SetCaller(s, t, Holding));
  }

  lemma CancelQueueOk(r: Rotation, w: map<Ticket, Waiter>, t: Ticket)
    requires QueueOk(r, w) && t in w && w[t].caller == Waiting
    ensures QueueOk(r, w[t := w[t].(fut := if w[t].fut.Pending? then Cancelled else w[t].fut, caller := Cancelling)])
  {}

  lemma CancelInv(s: State, t: Ticket)
    requires Inv(s) && IsWaiter(s, t, Waiting)
    ensures Inv(DoCancel(s, t))
  {
    CancelQueueOk(s.main, s.waiters, t);
    CancelQueueOk(s.prio, s.waiters, t);
    CancelWaiters(s, t);
    SlotsUntouched(s, DoCancel(s, t));
  }

  lemma CancelWaiters(s: State, t: Ticket)
    requires WaitersOk(s) && IsWaiter(s, t, Waiting)
    ensures WaitersOk(DoCancel(s, t))
  {}

  lemma GiveBackInv(s: State, t: Ticket, sample: bool, clock: real)
    requires Inv(s) && t in Held(s.waiters)
    ensures Inv(GiveBack(s, t, sample, clock))
  {
    GrantedParking(s, GiveBack(s, t, sample, clock), t);
    GiveBackCounted(s, t, sample, clock);
    GiveBackLeased(s, t, sample, clock);
    GiveBackRecorded(s, t, sample, clock);
  }

  lemma GiveBackCounted(s: State, t: Ticket, sample: bool, clock: real)
    requires Counted(s) && t in Held(s.waiters)
    ensures Counted(GiveBack(s, t, sample, clock))
  {
    var s' := GiveBack(s, t, sample, clock);
    assert Held(s'.waiters) == Held(s.waiters) - {t};
    assert HeldPriority(s'.waiters) == HeldPriority(s.waiters) - {t};
  }

  lemma GiveBackRecorded(s: State, t: Ticket, sample: bool, clock: real)
    requires Recorded(s) && t in Held(s.waiters)
    ensures Recorded(GiveBack(s, t, sample, clock))
  {}

  lemma GiveBackLeased(s: State, t: Ticket, sample: bool, clock: real)
    requires Leased(s) && t in Held(s.waiters)
    ensures Leased(GiveBack(s, t, sample, clock))
  {
    var s' := GiveBack(s, t, sample, clock);
    assert Backed(s.holds, SlotOf(s.waiters, t));
    var lease := SlotOf(s.waiters, t).value.lease;
    assert s'.holds == s.holds - {lease};
    assert Held(s'.waiters) == Held(s.waiters) - {t};
    forall u ensures SlotOf(s'.waiters, u) == SlotOf(s.waiters, u) {}
    LeaseDropped(s, s', t, lease);
  }

  lemma LeaseDropped(s: State, s': State, t: Ticket, lease: nat)
    requires Leased(s) && t in Held(s.waiters) && SlotOf(s.waiters, t).Some? && SlotOf(s.waiters, t).value.lease == lease
    requires s'.holds == s.holds - {lease} && s'.nextLease == s.nextLease
    requires Held(s'.waiters) == Held(s.waiters) - {t}
    requires forall u :: SlotOf(s'.waiters, u) == SlotOf(s.waiters, u)
    ensures Leased(s')
  {
    forall u | u in Held(s'.waiters) ensures Backed(s'.holds, SlotOf(s'.waiters, u)) {
      assert Backed(s.holds, SlotOf(s.waiters, u));
      assert SlotOf(s.waiters, u).value.lease != lease;
    }
    forall l | l in s'.holds ensures exists u :: Owns(s'.waiters, u, l) {
      var u :| Owns(s.waiters, u, l);
      assert Owns(s'.waiters, u, l);
    }
  }

  lemma RemoveQueueOk(r: Rotation, w: map<Ticket, Waiter>, c: Client, t: Ticket)
    requires QueueOk(r, w) && t in w && w[t].client == c
    ensures var rest := RemoveFrom(r, c, t).rest;
            && QueueOk(rest, w)
            && (forall d :: t !in Queue(rest, d))
            && (forall d, u :: u != t ==> (u in Queue(rest, d) <==> u in Queue(r, d)))
    ensures RemoveFrom(r, c, t).removed == (t in Queue(r, c))
  {
    RemoveFromSound(r, c, t);
    RemoveFromQueues(r, c, t);
    var rest := RemoveFrom(r, c, t).rest;
    forall d ensures t !in Queue(rest, d) {
      assert t in Queue(r, d) ==> d == c;
    }
    RemovedQueueOk(r, w, t, rest);
  }

  lemma RemovedQueueOk(r: Rotation, w: map<Ticket, Waiter>, t: Ticket, rest: Rotation)
    requires QueueOk(r, w) && Sound(rest) && (forall d :: t !in Queue(rest, d))
    requires forall d, u :: u != t ==> (u in Queue(rest, d) <==> u in Queue(r, d))
    ensures QueueOk(rest, w)
  {
    forall d, u | u in Queue(rest, d) ensures u in Queue(r, d) {}
  }

  /** A waiter whose cleanup runs is out of every deque afterwards, and nobody else moved. */
  lemma RemovePendingOk(s: State, t: Ticket)
    requires Parking(s) && t in s.waiters
    ensures var (removed, s1) := RemovePending(s, s.waiters[t].client, t);
            && s1 == s.(main := s1.main, prio := s1.prio)
            && QueueOk(s1.main, s.waiters) && QueueOk(s1.prio, s.waiters)
            && (forall c :: t !in Queue(s1.main, c) && t !in Queue(s1.prio, c))
            && (forall c, u :: u != t ==> (u in Queue(s1.main, c) <==> u in Queue(s.main, c))
                                          && (u in Queue(s1.prio, c) <==> u in Queue(s.prio, c)))
            && (removed ==> !s.waiters[t].fut.Granted?)
  {
    var c := s.waiters[t].client;
    RemoveQueueOk(s.prio, s.waiters, c, t);
    RemoveQueueOk(s.main, s.waiters, c, t);
    assert t in Queue(s.prio, c) ==> t !in Queue(s.main, c);
    forall d | t in Queue(s.main, d) ensures d == c {}
  }

  lemma RemovePendingInv(s: State, s1: State, t: Ticket)
    requires Inv(s) && IsWaiter(s, t, Cancelling) && s1 == s.(main := s1.main, prio := s1.prio)
    requires QueueOk(s1.main, s.waiters) && QueueOk(s1.prio, s.waiters)
    requires forall c, u :: u != t ==> (u in Queue(s1.main, c) <==> u in Queue(s.main, c))
                                       && (u in Queue(s1.prio, c) <==> u in Queue(s.prio, c))
    requires forall c :: t !in Queue(s1.main, c) && t !in Queue(s1.prio, c)
    ensures Inv(s1)
  {
    assert Apart(s1.main, s1.prio) && WaitersOk(s1);
    SlotsUntouched(s, s1);
  }

  lemma CleanupInv(s: State, t: Ticket, env: Env)
    requires Inv(s) && IsWaiter(s, t, Cancelling)
    ensures Inv(CleanupSection(s, t, env).s)
  {
    var (removed, s1) := RemovePending(s, s.waiters[t].client, t);
    RemovePendingOk(s, t);
    RemovePendingInv(s, s1, t);
    if !removed && s.waiters[t].fut.Granted? {
      GiveBackInv(s1, t, false, env.clock);
    } else {
      GoneInv(s1, t);
    }
  }

  lemma GoneParking(s: State, t: Ticket)
    requires Parking(s) && IsWaiter(s, t, Cancelling) && !s.waiters[t].fut.Granted?
    requires forall c :: t !in Queue(s.main, c) && t !in Queue(s.prio, c)
    ensures Parking(SetCaller(s, t, Gone))
  {
    var s' := SetCaller(s, t, Gone);
    QueueUnchanged(s.main, s.waiters, t, s'.waiters);
    QueueUnchanged(s.prio, s.waiters, t, s'.waiters);
    forall u | u in s'.waiters && u != t ensures s'.waiters[u] == s.waiters[u] {}
  }

  lemma GoneSlots(s: State, t: Ticket, s': State)
    requires Books(s) && Recorded(s) && t in s.waiters && !s.waiters[t].fut.Granted?
    requires s' == s.(waiters := s.waiters[t := s.waiters[t].(caller := Gone)])
    ensures Books(s') && Recorded(s')
  {
    SlotsUntouched(s, s');
  }

  lemma GoneInv(s: State, t: Ticket)
    requires Inv(s) && IsWaiter(s, t, Cancelling) && !s.waiters[t].fut.Granted?
    requires forall c :: t !in Queue(s.main, c) && t !in Queue(s.prio, c)
    ensures Inv(SetCaller(s, t, Gone))
  {
    GoneParking(s, t);
    GoneSlots(s, t, SetCaller(s, t, Gone));
  }

  /** A change of ceiling or reserve touches no waiter and no slot. */
  lemma KnobInv(s: State, s': State)
    requires Inv(s) && s' == s.(aimd := s'.aimd, reserve := s'.reserve)
    ensures Inv(s')
  {
    SlotsUntouched(s, s');
  }

  lemma ArriveInv(s: State, t: Ticket, c: Client, wants: bool, project: Option<Project>, env: Env)
    requires Inv(s)
    ensures Inv(Critical(s, Arrive(t, c, wants, project, env)).s)
  {
    if t !in s.waiters {
      ParkInv(s, t, c, wants, project);
    }
  }

  lemma WakeSectionInv(s: State, t: Ticket)
    requires Inv(s)
    ensures Inv(Critical(s, Wake(t)).s)
  {
    if IsWaiter(s, t, Waiting) && s.waiters[t].fut.Granted? {
      WakeInv(s, t);
    }
  }

  lemma CancelSectionInv(s: State, t: Ticket)
    requires Inv(s)
    ensures Inv(Critical(s, Cancel(t)).s)
  {
    if IsWaiter(s, t, Waiting) {
      CancelInv(s, t);
    }
  }

  lemma CleanupSectionInv(s: State, t: Ticket, env: Env)
    requires Inv(s)
    ensures Inv(Critical(s, Cleanup(t, env)).s)
  {
    if IsWaiter(s, t, Cancelling) {
      CleanupInv(s, t, env);
    }
  }

  lemma ReleaseInv(s: State, t: Ticket, env: Env)
    requires Inv(s)
    ensures Inv(Critical(s, Release(t, env)).s)
  {
    if IsWaiter(s, t, Holding) && s.waiters[t].fut.Granted? {
      GiveBackInv(s, t, true, env.clock);
    }
  }

  /** The other sections turn a knob at most. */
  lemma KnobSectionInv(s: State, e: Event, s': State)
    requires Inv(s) && s' == Critical(s, e).s
    requires !e.Arrive? && !e.Wake? && !e.Cancel? && !e.Cleanup? && !e.Release?
    ensures Inv(s')
  {
    assert s' == s.(aimd := s'.aimd, reserve := s'.reserve);
    KnobInv(s, s');
  }

  lemma CriticalInv(s: State, e: Event)
    requires Inv(s)
    ensures Inv(Critical(s, e).s)
  {
    match e
    case Arrive(t, c, wants, project, env) => ArriveInv(s, t, c, wants, project, env);
    case Wake(t) => WakeSectionInv(s, t);
    case Cancel(t) => CancelSectionInv(s, t);
    case Cleanup(t, env) => CleanupSectionInv(s, t, env);
    case Release(t, env) => ReleaseInv(s, t, env);
    case _ => KnobSectionInv(s, e, Critical(s, e).s);
  }

  /** Every step keeps the invariants. */
  lemma StepInv(s: State, e: Event)
    requires Inv(s)
    ensures Inv(Step(s, e))
  {
    CriticalInv(s, e);
    var section := Critical(s, e);
    if section.dispatch.Some? {
      TryDispatchOk(section.s, section.dispatch.value);
    }
  }

  /** Main result: slot conservation, queue integrity and the dispatch record hold over
      every run of arrivals, cancellations, releases, shrinks, grows and retunes. */
  lemma {:induction false} ReachableInv(aimd: Aimd.Lane, reserve: nat, es: seq<Event>)
    ensures Inv(Run(Init(aimd, reserve), es))
  {
    if es == [] {
      var s := Init(aimd, reserve);
      assert Held(s.waiters) == {} && HeldPriority(s.waiters) == {};
    } else {
      ReachableInv(aimd, reserve, es[..|es| - 1]);
      StepInv(Run(Init(aimd, reserve), es[..|es| - 1]), es[|es| - 1]);
    }
  }
}
