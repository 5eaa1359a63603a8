/**
 The fair queue: one deque of waiting tickets per client, and a rotation of the clients
 that have work.  `NextWaiter` pops the head client's oldest ticket and sends the client
 to the back, so that no client can hold the head of the queue.
 */
module Rotations {
  import opened Common

  type Client = string
  type Ticket = nat

  datatype Rotation = Rotation(order: seq<Client>, queues: map<Client, seq<Ticket>>)

  const EMPTY := Rotation([], map[])

  function Queue(r: Rotation, c: Client): seq<Ticket> {
    if c in r.queues then r.queues[c] else []
  }

  /** The rotation lists, once each, exactly the clients whose deque is not empty. */
  ghost predicate Listed(r: Rotation) {
    && Distinct(r.order)
    && (forall c :: c in r.order <==> c in r.queues)
    && (forall c :: c in r.queues ==> r.queues[c] != [])
  }

  /** No ticket is parked twice. */
  ghost predicate ParkedOnce(r: Rotation) {
    && (forall c :: Distinct(Queue(r, c)))
    && (forall c, d, t :: t in Queue(r, c) && t in Queue(r, d) ==> c == d)
  }

  ghost predicate Sound(r: Rotation) {
    Listed(r) && ParkedOnce(r)
  }

  /** Position of the first occurrence, or the length when there is none. */
  function Pos<T(==)>(s: seq<T>, x: T): (i: nat)
    ensures i <= |s|
    ensures i < |s| <==> x in s
    ensures i < |s| ==> s[i] == x
  {
    if s == [] then 0 else if s[0] == x then 0 else 1 + Pos(s[1..], x)
  }

  lemma {:induction false} PosAppend<T>(s: seq<T>, y: T, x: T)
    ensures Pos(s + [y], x) == if x in s then Pos(s, x) else if x == y then |s| else |s| + 1
  {
    if s == [] {
      assert s + [y] == [y];
    } else {
      assert (s + [y])[1..] == s[1..] + [y];
      PosAppend(s[1..], y, x);
    }
  }

  // ---------------------------------------------------------------- enqueueing

  function Enqueue(r: Rotation, c: Client, t: Ticket): Rotation {
    Rotation(if c in r.order then r.order else r.order + [c], r.queues[c := Queue(r, c) + [t]])
  }

  lemma EnqueueQueues(r: Rotation, c: Client, t: Ticket)
    ensures Queue(Enqueue(r, c, t), c) == Queue(r, c) + [t]
    ensures forall d :: d != c ==> Queue(Enqueue(r, c, t), d) == Queue(r, d)
  {}

  lemma EnqueueListed(r: Rotation, c: Client, t: Ticket)
    requires Listed(r)
    ensures Listed(Enqueue(r, c, t))
  {
    var e := Enqueue(r, c, t);
    if c !in r.order {
      assert e.order == r.order + [c];
    }
  }

  lemma EnqueueSound(r: Rotation, c: Client, t: Ticket)
    requires Sound(r) && forall d :: t !in Queue(r, d)
    ensures Sound(Enqueue(r, c, t))
  {
    var e := Enqueue(r, c, t);
    EnqueueQueues(r, c, t);
    EnqueueListed(r, c, t);
    forall d ensures Distinct(Queue(e, d)) {
      assert Distinct(Queue(r, d));
    }
    forall d, f, u | u in Queue(e, d) && u in Queue(e, f) ensures d == f {
      assert u != t ==> u in Queue(r, d) && u in Queue(r, f);
    }
  }

  // ------------------------------------------------------------------- popping

  /** Work left in a rotation: every entry and every ticket counts one. */
  ghost function Load(order: seq<Client>, queues: map<Client, seq<Ticket>>): nat {
    if order == [] then 0
    else 1 + (if order[0] in queues then |queues[order[0]]| else 0) + Load(order[1..], queues)
  }

  lemma {:induction false} LoadShrinks(order: seq<Client>, q: map<Client, seq<Ticket>>, q': map<Client, seq<Ticket>>)
    requires forall c :: c in q' ==> c in q && |q'[c]| <= |q[c]|
    ensures Load(order, q') <= Load(order, q)
  {
    if order != [] {
      LoadShrinks(order[1..], q, q');
    }
  }

  lemma {:induction false} LoadAppend(order: seq<Client>, q: map<Client, seq<Ticket>>, c: Client)
    ensures Load(order + [c], q) == Load(order, q) + Load([c], q)
  {
    if order != [] {
      assert (order + [c])[1..] == order[1..] + [c];
      LoadAppend(order[1..], q, c);
    } else {
      assert order + [c] == [c];
    }
  }

  datatype Turn = Turn(client: Client, ticket: Ticket)
  datatype Popped = Popped(next: Option<Turn>, rest: Rotation)

  /** One turn of the rotation, whoever is at its head. */
  function PopHead(r: Rotation): (p: Popped)
    requires r.order != []
    ensures Load(p.rest.order, p.rest.queues) < Load(r.order, r.queues)
  {
    var c, others := r.order[0], r.order[1..];
    var q := Queue(r, c);
    if q == [] then Popped(None, Rotation(others, r.queues))
    else if |q| > 1 then
      var queues := r.queues[c := q[1..]];
      LoadShrinks(others, r.queues, queues);
      LoadAppend(others, queues, c);
      Popped(Some(Turn(c, q[0])), Rotation(others + [c], queues))
    else
      var queues := r.queues - {c};
      LoadShrinks(others, r.queues, queues);
      Popped(Some(Turn(c, q[0])), Rotation(others, queues))
  }

  /** The next live waiter; tickets in `dead` are dropped on the way. */
  function NextWaiter(r: Rotation, dead: set<Ticket>): (p: Popped)
    ensures p.next.Some? ==> Load(p.rest.order, p.rest.queues) < Load(r.order, r.queues)
    decreases Load(r.order, r.queues)
  {
    if r.order == [] then Popped(None, r)
    else
      var p := PopHead(r);
      if p.next.None? || p.next.value.ticket in dead then NextWaiter(p.rest, dead) else p
  }

  /** A turn removes the oldest ticket of the head client, and sends that client to the
      back of the rotation if it still has work. */
  ghost predicate TurnTaken(r: Rotation, p: Popped) {
    && r.order != []
    && p.next.Some?
    && p.next.value.client == r.order[0]
    && Queue(r, r.order[0]) == [p.next.value.ticket] + Queue(p.rest, r.order[0])
    && (forall d :: d != r.order[0] ==> Queue(p.rest, d) == Queue(r, d))
    && p.rest.order == if Queue(p.rest, r.order[0]) == [] then r.order[1..] else r.order[1..] + [r.order[0]]
  }

  lemma PopHeadTurn(r: Rotation)
    requires Listed(r) && r.order != []
    ensures TurnTaken(r, PopHead(r)) && r.order[0] !in r.order[1..]
  {
    var p := PopHead(r);
    var c := r.order[0];
    assert c in r.queues;
    assert Queue(r, c)[1..] == Queue(p.rest, c);
    forall d | d != c ensures Queue(p.rest, d) == Queue(r, d) {}
  }

  lemma TurnListed(r: Rotation, p: Popped)
    requires Listed(r) && TurnTaken(r, p) && r.order[0] !in r.order[1..]
    ensures Distinct(p.rest.order)
    ensures forall d :: d in p.rest.order <==> Queue(p.rest, d) != []
  {
    var c, others := r.order[0], r.order[1..];
    assert r.order == [c] + others;
    forall d ensures d in p.rest.order <==> Queue(p.rest, d) != [] {
      assert d in r.order <==> d == c || d in others;
      assert d in r.order <==> Queue(r, d) != [];
    }
  }

  lemma NoEmptyQueues(r: Rotation, p: Popped)
    requires Listed(r) && r.order != [] && p == PopHead(r)
    ensures forall d :: d in p.rest.queues ==> p.rest.queues[d] != []
  {
    assert r.order[0] in r.queues;
  }

  lemma PopHeadListed(r: Rotation)
    requires Listed(r) && r.order != []
    ensures Listed(PopHead(r).rest)
  {
    var p := PopHead(r);
    PopHeadTurn(r);
    TurnListed(r, p);
    NoEmptyQueues(r, p);
    forall d ensures d in p.rest.order <==> d in p.rest.queues {
      assert d in p.rest.queues <==> Queue(p.rest, d) != [];
    }
  }

  lemma ParkedOnceTurn(r: Rotation, p: Popped)
    requires ParkedOnce(r) && TurnTaken(r, p)
    ensures ParkedOnce(p.rest) && forall d :: p.next.value.ticket !in Queue(p.rest, d)
  {
    var c, t := r.order[0], p.next.value.ticket;
    var q := Queue(p.rest, c);
    assert Queue(r, c)[0] == t && Queue(r, c)[1..] == q;
    assert t in Queue(r, c);
    forall d ensures Distinct(Queue(p.rest, d)) {
      assert Distinct(Queue(r, d));
    }
    forall d, u | u in Queue(p.rest, d) ensures u in Queue(r, d) {}
    assert forall i :: 0 <= i < |q| ==> q[i] == Queue(r, c)[i + 1];
    forall d ensures t !in Queue(p.rest, d) {
      assert d != c ==> t !in Queue(r, d);
    }
  }

  /** A search popped a live ticket and lost none, or found that none is parked. */
  ghost predicate Fetched(r: Rotation, dead: set<Ticket>, p: Popped) {
    && Sound(p.rest)
    && (forall c, t :: t in Queue(p.rest, c) ==> t in Queue(r, c))
    && (p.next.None? ==> p.rest == EMPTY && forall c, t :: t in Queue(r, c) ==> t in dead)
    && (p.next.Some? ==>
         var Turn(c, t) := p.next.value;
         && t in Queue(r, c) && t !in dead && (forall d :: t !in Queue(p.rest, d))
         && forall d, u :: u in Queue(r, d) && u !in dead && u != t ==> u in Queue(p.rest, d))
  }

  lemma {:induction false} NextWaiterFetches(r: Rotation, dead: set<Ticket>)
    requires Sound(r)
    ensures Fetched(r, dead, NextWaiter(r, dead))
    decreases Load(r.order, r.queues)
  {
    if r.order == [] {
      assert r.queues == map[];
    } else {
      PopHeadTurn(r);
      PopHeadListed(r);
      ParkedOnceTurn(r, PopHead(r));
      var p := PopHead(r);
      if p.next.value.ticket in dead {
        NextWaiterFetches(p.rest, dead);
        FetchedAfterDead(r, dead, p, NextWaiter(p.rest, dead));
      }
    }
  }

  lemma FetchedAfterDead(r: Rotation, dead: set<Ticket>, p: Popped, q: Popped)
    requires TurnTaken(r, p) && p.next.value.ticket in dead && Fetched(p.rest, dead, q)
    ensures Fetched(r, dead, q)
  {
    forall c, t | t in Queue(p.rest, c) ensures t in Queue(r, c) {}
    forall c, t | t in Queue(r, c) && t !in dead ensures t in Queue(p.rest, c) {}
  }

  // --------------------------------------------------------------- _ahead_of

  /** How often `c` can still be served before the ticket at index `own` of client `x`. */
  function Turns(r: Rotation, x: Client, own: nat, c: Client): nat {
    MinI(|Queue(r, c)|, own + (if Pos(r.order, c) < Pos(r.order, x) then 1 else 0))
  }

  function SumTurns(clients: seq<Client>, r: Rotation, x: Client, own: nat): nat {
    if clients == [] then 0
    else (if clients[0] == x then 0 else Turns(r, x, own, clients[0])) + SumTurns(clients[1..], r, x, own)
  }

  lemma {:induction false} SumTurnsSame(clients: seq<Client>, r: Rotation, r': Rotation, x: Client, own: nat, own': nat)
    requires forall c :: c in clients && c != x ==> Turns(r, x, own, c) == Turns(r', x, own', c)
    ensures SumTurns(clients, r, x, own) == SumTurns(clients, r', x, own')
  {
    if clients != [] {
      SumTurnsSame(clients[1..], r, r', x, own, own');
    }
  }

  lemma {:induction false} SumTurnsAppend(a: seq<Client>, c: Client, r: Rotation, x: Client, own: nat)
    ensures SumTurns(a + [c], r, x, own) == SumTurns(a, r, x, own) + SumTurns([c], r, x, own)
  {
    if a != [] {
      assert (a + [c])[1..] == a[1..] + [c];
      SumTurnsAppend(a[1..], c, r, x, own);
    } else {
      assert a + [c] == [c];
    }
  }

  lemma {:induction false} PosOfIndex<T>(s: seq<T>, i: nat)
    requires Distinct(s) && i < |s|
    ensures Pos(s, s[i]) == i
  {
    if i > 0 {
      assert s == [s[0]] + s[1..];
      PosOfIndex(s[1..], i - 1);
    }
  }

  /** Requests parked in a rotation, summed across its clients. */
  function Depth(order: seq<Client>, queues: map<Client, seq<Ticket>>): nat {
    if order == [] then 0
    else (if order[0] in queues then |queues[order[0]]| else 0) + Depth(order[1..], queues)
  }

  /** Requests dispatched before the next arrival of `x` (before any arrival of a client
      that is not listed, when `x` is not). */
  function AheadOf(r: Rotation, x: Client): nat {
    var own := |Queue(r, x)|;
    own + SumTurns(r.order, r, x, own)
  }

  /** Undisturbed, the rotation is turned this often before `t` is served. */
  ghost function PopsBefore(r: Rotation, t: Ticket): nat
    decreases Load(r.order, r.queues)
  {
    if r.order == [] then 0
    else
      var p := PopHead(r);
      if p.next.None? then PopsBefore(p.rest, t)
      else if p.next.value.ticket == t then 0
      else 1 + PopsBefore(p.rest, t)
  }

  /** A ticket's rank: its own client's older tickets plus the turns of the others. */
  ghost function Rank(r: Rotation, x: Client, t: Ticket): nat {
    var own := Pos(Queue(r, x), t);
    own + SumTurns(r.order, r, x, own)
  }

  /** One turn moves every other client's possible turns as the rank expects. */
  lemma TurnsAfterPop(r: Rotation, x: Client, own: nat, own': nat, d: Client)
    requires Listed(r) && r.order != [] && x in PopHead(r).rest.order && d in r.order[1..] && d != x
    requires own' == if r.order[0] == x then own - 1 else own
    ensures Turns(r, x, own, d) == Turns(PopHead(r).rest, x, own', d)
  {
    PopHeadTurn(r);
    var c, others, rest := r.order[0], r.order[1..], PopHead(r).rest;
    assert r.order == [c] + others;
    PosAppend(others, c, d);
    PosAppend(others, c, x);
    assert d != c;
  }

  /** Each turn that does not serve `t` brings it exactly one rank closer. */
  lemma RankCloser(r: Rotation, x: Client, t: Ticket)
    requires Listed(r) && r.order != [] && t in Queue(r, x)
    requires TurnTaken(r, PopHead(r)) && PopHead(r).next.value.ticket != t
    ensures var rest := PopHead(r).rest;
            t in Queue(rest, x) && Rank(r, x, t) == 1 + Rank(rest, x, t)
  {
    var c, others, rest := r.order[0], r.order[1..], PopHead(r).rest;
    PopHeadTurn(r);
    var own, own' := Pos(Queue(r, x), t), Pos(Queue(rest, x), t);
    assert own' == if c == x then own - 1 else own;
    assert x in rest.order;
    forall d | d in others && d != x
      ensures Turns(r, x, own, d) == Turns(rest, x, own', d)
    {
      TurnsAfterPop(r, x, own, own', d);
    }
    SumTurnsSame(others, r, rest, x, own, own');
    HeadTurns(r, x, own, own');
  }

  /** A head client has one possible turn less after its turn. */
  lemma HeadTurn(r: Rotation, p: Popped, x: Client, own: nat)
    requires TurnTaken(r, p) && r.order[0] !in r.order[1..] && r.order[0] != x && x in p.rest.order
    ensures Turns(r, x, own, r.order[0]) >= 1
    ensures Queue(p.rest, r.order[0]) == [] ==> Turns(r, x, own, r.order[0]) == 1
    ensures Queue(p.rest, r.order[0]) != [] ==> Turns(p.rest, x, own, r.order[0]) == Turns(r, x, own, r.order[0]) - 1
  {
    var c, others := r.order[0], r.order[1..];
    assert r.order == [c] + others;
    PosAppend(others, c, c);
    PosAppend(others, c, x);
  }

  lemma TurnsLeft(r: Rotation, p: Popped, x: Client, own: nat, own': nat)
    requires TurnTaken(r, p) && r.order[0] !in r.order[1..] && x in p.rest.order
    requires own' == if r.order[0] == x then own - 1 else own
    ensures var c, others := r.order[0], r.order[1..];
            SumTurns(p.rest.order, p.rest, x, own')
            == SumTurns(others, p.rest, x, own') + (if c == x then 0 else Turns(r, x, own, c) - 1)
  {
    var c, others := r.order[0], r.order[1..];
    if c != x {
      HeadTurn(r, p, x, own);
    }
    if Queue(p.rest, c) != [] {
      SumTurnsAppend(others, c, p.rest, x, own');
      assert SumTurns([c], p.rest, x, own')
        == (if c == x then 0 else Turns(p.rest, x, own', c)) + SumTurns([c][1..], p.rest, x, own');
    }
  }

  /** The head client's share of the sum before and after its turn. */
  lemma HeadTurns(r: Rotation, x: Client, own: nat, own': nat)
    requires Listed(r) && r.order != [] && TurnTaken(r, PopHead(r))
    requires x in PopHead(r).rest.order
    requires own' == if r.order[0] == x then own - 1 else own
    ensures var c, others, rest := r.order[0], r.order[1..], PopHead(r).rest;
            && SumTurns(r.order, r, x, own) == SumTurns(others, r, x, own) + (if c == x then 0 else Turns(r, x, own, c))
            && SumTurns(rest.order, rest, x, own')
               == SumTurns(others, rest, x, own') + (if c == x then 0 else Turns(r, x, own, c) - 1)
  {
    PopHeadTurn(r);
    TurnsLeft(r, PopHead(r), x, own, own');
  }

  lemma RankStep(r: Rotation, x: Client, t: Ticket)
    requires Sound(r) && t in Queue(r, x)
    ensures r.order != []
    ensures var p := PopHead(r);
            && p.next.Some?
            && if p.next.value.ticket == t then Rank(r, x, t) == 0
               else t in Queue(p.rest, x) && Rank(r, x, t) == 1 + Rank(p.rest, x, t)
  {
    assert x in r.queues;
    PopHeadTurn(r);
    if PopHead(r).next.value.ticket == t {
      assert t in Queue(r, r.order[0]);
      NoTurns(r.order, r, x);
    } else {
      RankCloser(r, x, t);
    }
  }

  lemma {:induction false} NoTurns(clients: seq<Client>, r: Rotation, x: Client)
    requires r.order != [] && r.order[0] == x
    ensures SumTurns(clients, r, x, 0) == 0
  {
    if clients != [] {
      NoTurns(clients[1..], r, x);
    }
  }

  lemma {:induction false} RankIsPops(r: Rotation, x: Client, t: Ticket)
    requires Sound(r) && t in Queue(r, x)
    ensures PopsBefore(r, t) == Rank(r, x, t)
    decreases Load(r.order, r.queues)
  {
    RankStep(r, x, t);
    PopHeadTurn(r);
    PopHeadListed(r);
    ParkedOnceTurn(r, PopHead(r));
    if PopHead(r).next.value.ticket != t {
      RankIsPops(PopHead(r).rest, x, t);
    }
  }

  /** Main result: the closed-form `AheadOf` is exactly the number of tickets the rotation
      pops before a fresh arrival of that client. */
  lemma AheadOfExact(r: Rotation, x: Client, arrival: Ticket)
    requires Sound(r) && forall c :: arrival !in Queue(r, c)
    ensures AheadOf(r, x) == PopsBefore(Enqueue(r, x, arrival), arrival)
  {
    EnqueueSound(r, x, arrival);
    EnqueueQueues(r, x, arrival);
    RankOfArrival(r, x, arrival);
    RankIsPops(Enqueue(r, x, arrival), x, arrival);
  }

  lemma RankOfArrival(r: Rotation, x: Client, arrival: Ticket)
    requires arrival !in Queue(r, x)
    ensures Rank(Enqueue(r, x, arrival), x, arrival) == AheadOf(r, x)
  {
    var e := Enqueue(r, x, arrival);
    var own := |Queue(r, x)|;
    EnqueueQueues(r, x, arrival);
    PosAppend(Queue(r, x), arrival, arrival);
    forall d | d in r.order && d != x
      ensures Turns(r, x, own, d) == Turns(e, x, own, d)
    {
      PosAppend(r.order, x, d);
      PosAppend(r.order, x, x);
    }
    SumTurnsSame(r.order, r, e, x, own, own);
    if x !in r.order {
      SumTurnsAppend(r.order, x, e, x, own);
      assert SumTurns([x], e, x, own) == SumTurns([x][1..], e, x, own);
    }
  }

  // ----------------------------------------------------- the first live waiter

  /** Whoever would have been served before `t` is no longer waiting. */
  ghost predicate FirstLive(r: Rotation, dead: set<Ticket>, t: Ticket) {
    forall d, u :: u in Queue(r, d) && PopsBefore(r, u) < PopsBefore(r, t) ==> u in dead
  }

  lemma FirstAfterDead(r: Rotation, dead: set<Ticket>, p: Popped, t: Ticket)
    requires r.order != [] && p == PopHead(r) && TurnTaken(r, p) && p.next.value.ticket in dead && t !in dead
    requires FirstLive(p.rest, dead, t)
    ensures FirstLive(r, dead, t)
  {
    forall d, u | u in Queue(r, d) && PopsBefore(r, u) < PopsBefore(r, t) ensures u in dead {
      if u != p.next.value.ticket {
        assert u in Queue(p.rest, d);
        assert PopsBefore(p.rest, u) < PopsBefore(p.rest, t);
      }
    }
  }

  lemma {:induction false} NextWaiterFirst(r: Rotation, dead: set<Ticket>)
    requires Sound(r)
    ensures var p := NextWaiter(r, dead); p.next.Some? ==> FirstLive(r, dead, p.next.value.ticket)
    decreases Load(r.order, r.queues)
  {
    if r.order != [] {
      PopHeadTurn(r);
      PopHeadListed(r);
      var p := PopHead(r);
      ParkedOnceTurn(r, p);
      if p.next.value.ticket in dead {
        NextWaiterFirst(p.rest, dead);
        NextWaiterFetches(p.rest, dead);
        var q := NextWaiter(p.rest, dead);
        if q.next.Some? {
          FirstAfterDead(r, dead, p, q.next.value.ticket);
        }
      }
    }
  }

  /** Main result: the search returns the first request of the rotation that still waits, drops
      none that does, and finds nobody only when nobody waits. */
  lemma NextWaiterSound(r: Rotation, dead: set<Ticket>)
    requires Sound(r)
    ensures Fetched(r, dead, NextWaiter(r, dead))
    ensures var p := NextWaiter(r, dead); p.next.Some? ==> FirstLive(r, dead, p.next.value.ticket)
  {
    NextWaiterFetches(r, dead);
    NextWaiterFirst(r, dead);
  }

  // ------------------------------------------------------------ bounded bypass

  /** How often client `y` may still be served before ticket `t` of client `x`. */
  ghost function Debt(r: Rotation, x: Client, t: Ticket, y: Client): nat {
    Pos(Queue(r, x), t) + (if Pos(r.order, y) < Pos(r.order, x) then 1 else 0)
  }

  lemma OwnAfterTurn(r: Rotation, p: Popped, x: Client, t: Ticket)
    requires TurnTaken(r, p) && t in Queue(r, x) && p.next.value.ticket != t
    ensures t in Queue(p.rest, x)
    ensures Pos(Queue(r, x), t) == Pos(Queue(p.rest, x), t) + (if r.order[0] == x then 1 else 0)
  {
    if r.order[0] == x {
      assert Queue(r, x)[1..] == Queue(p.rest, x);
    }
  }

  /** Who stands before `x` after the head client has left or gone to the back. */
  lemma BeforeAfterTurn(order: seq<Client>, order': seq<Client>, x: Client, y: Client)
    requires order != [] && order[0] !in order[1..] && y != x && x in order && x in order'
    requires order' == order[1..] || order' == order[1..] + [order[0]]
    ensures order[0] == x ==> Pos(order, y) >= Pos(order, x)
    ensures order[0] == y ==> Pos(order, y) < Pos(order, x) && Pos(order', y) >= Pos(order', x)
    ensures order[0] != x && order[0] != y ==> (Pos(order', y) < Pos(order', x) <==> Pos(order, y) < Pos(order, x))
  {
    var c, others := order[0], order[1..];
    assert order == [c] + others;
    PosAppend(others, c, x);
    PosAppend(others, c, y);
  }

  lemma StillListed(r: Rotation, p: Popped, x: Client, t: Ticket)
    requires Listed(r) && TurnTaken(r, p) && t in Queue(p.rest, x) && t in Queue(r, x)
    ensures x in r.order && x in p.rest.order
  {
    assert r.order == [r.order[0]] + r.order[1..];
    assert x in r.queues;
  }

  /** Serving `y` costs one unit of debt, and no other turn raises it. */
  lemma DebtAfterTurn(r: Rotation, p: Popped, x: Client, t: Ticket, y: Client)
    requires Listed(r) && TurnTaken(r, p) && r.order[0] !in r.order[1..]
    requires t in Queue(r, x) && y != x && p.next.value.ticket != t
    ensures t in Queue(p.rest, x)
    ensures Debt(p.rest, x, t, y) + (if p.next.value.client == y then 1 else 0) <= Debt(r, x, t, y)
  {
    OwnAfterTurn(r, p, x, t);
    StillListed(r, p, x, t);
    BeforeAfterTurn(r.order, p.rest.order, x, y);
  }

  lemma DebtAfterPop(r: Rotation, x: Client, t: Ticket, y: Client)
    requires Listed(r) && t in Queue(r, x) && y != x
    ensures r.order != []
    ensures var p := PopHead(r);
            && p.next.Some?
            && (p.next.value.ticket != t ==>
                 && t in Queue(p.rest, x)
                 && Debt(p.rest, x, t, y) + (if p.next.value.client == y then 1 else 0) <= Debt(r, x, t, y))
  {
    assert x in r.queues;
    PopHeadTurn(r);
    var p := PopHead(r);
    if p.next.value.ticket != t {
      DebtAfterTurn(r, p, x, t, y);
    }
  }

  /** The same for a whole search for the next live waiter. */
  lemma {:induction false} DebtAfterNext(r: Rotation, dead: set<Ticket>, x: Client, t: Ticket, y: Client)
    requires Listed(r) && t in Queue(r, x) && t !in dead && y != x
    ensures var p := NextWaiter(r, dead);
            && p.next.Some?
            && (p.next.value.ticket != t ==>
                 && t in Queue(p.rest, x)
                 && Debt(p.rest, x, t, y) + (if p.next.value.client == y then 1 else 0) <= Debt(r, x, t, y))
    decreases Load(r.order, r.queues)
  {
    DebtAfterPop(r, x, t, y);
    PopHeadListed(r);
    var p := PopHead(r);
    if p.next.value.ticket in dead {
      DebtAfterNext(p.rest, dead, x, t, y);
    }
  }

  /** Enqueueing never makes a parked ticket wait for more turns of any client. */
  lemma DebtAfterEnqueue(r: Rotation, c: Client, u: Ticket, x: Client, t: Ticket, y: Client)
    requires Listed(r) && t in Queue(r, x) && (forall d :: u !in Queue(r, d))
    ensures t in Queue(Enqueue(r, c, u), x)
    ensures Debt(Enqueue(r, c, u), x, t, y) == Debt(r, x, t, y)
  {
    assert x in r.order;
    PosAppend(Queue(r, x), u, t);
    PosAppend(r.order, c, x);
    PosAppend(r.order, c, y);
  }

  // ------------------------------------------------------- leaving and moving

  /** `s` without the first occurrence of `x`. */
  function Drop<T(==)>(s: seq<T>, x: T): seq<T> {
    if s == [] then [] else if s[0] == x then s[1..] else [s[0]] + Drop(s[1..], x)
  }

  lemma {:induction false} DropPos<T>(s: seq<T>, x: T, y: T)
    requires y != x
    ensures y in Drop(s, x) <==> y in s
    ensures Pos(Drop(s, x), y) == if x in s && Pos(s, x) < Pos(s, y) then Pos(s, y) - 1 else Pos(s, y)
  {
    if s != [] && s[0] != x {
      DropPos(s[1..], x, y);
      assert Drop(s, x)[0] == s[0] && Drop(s, x)[1..] == Drop(s[1..], x);
    }
  }

  lemma {:induction false} DropDistinct<T>(s: seq<T>, x: T)
    requires Distinct(s)
    ensures Distinct(Drop(s, x)) && x !in Drop(s, x)
    ensures forall y :: y in Drop(s, x) ==> y in s
  {
    if s != [] {
      assert s == [s[0]] + s[1..];
      assert Distinct(s[1..]) && s[0] !in s[1..];
      if s[0] != x {
        DropDistinct(s[1..], x);
      }
    }
  }

  lemma DistinctConcat<T>(a: seq<T>, b: seq<T>)
    requires Distinct(a) && Distinct(b) && forall x :: x in b ==> x !in a
    ensures Distinct(a + b)
  {
    forall i, j | 0 <= i < j < |a + b| ensures (a + b)[i] != (a + b)[j] {
      if i < |a| <= j {
        assert b[j - |a|] in b;
      }
    }
  }

  datatype Removal = Removal(removed: bool, rest: Rotation)

  function RemoveFrom(r: Rotation, c: Client, t: Ticket): Removal {
    if c !in r.queues then Removal(false, r)
    else
      var q := Drop(r.queues[c], t);
      Removal(t in r.queues[c],
              if q == [] then Rotation(Drop(r.order, c), r.queues - {c}) else Rotation(r.order, r.queues[c := q]))
  }

  lemma RemoveFromQueues(r: Rotation, c: Client, t: Ticket)
    ensures Queue(RemoveFrom(r, c, t).rest, c) == Drop(Queue(r, c), t)
    ensures forall d :: d != c ==> Queue(RemoveFrom(r, c, t).rest, d) == Queue(r, d)
  {}

  /** Leaving keeps the rotation sound, takes one request out of its client's deque with the order
      of the others kept, and disturbs no other client. */
  lemma RemoveFromSound(r: Rotation, c: Client, t: Ticket)
    requires Sound(r)
    ensures Sound(RemoveFrom(r, c, t).rest)
    ensures t !in Queue(RemoveFrom(r, c, t).rest, c)
    ensures forall u :: u != t ==> (u in Queue(RemoveFrom(r, c, t).rest, c) <==> u in Queue(r, c))
    ensures Queue(RemoveFrom(r, c, t).rest, c) == Drop(Queue(r, c), t)
    ensures forall d :: d != c ==> Queue(RemoveFrom(r, c, t).rest, d) == Queue(r, d)
  {
    var rest := RemoveFrom(r, c, t).rest;
    RemoveFromQueues(r, c, t);
    assert Distinct(Queue(r, c));
    DropDistinct(Queue(r, c), t);
    DropDistinct(r.order, c);
    forall u | u != t ensures u in Queue(rest, c) <==> u in Queue(r, c) {
      DropPos(Queue(r, c), t, u);
    }
    forall d ensures d in rest.order <==> d in rest.queues {
      if d != c {
        DropPos(r.order, c, d);
      }
    }
    forall d ensures Distinct(Queue(rest, d)) {
      assert Distinct(Queue(r, d));
    }
    forall d, u | u in Queue(rest, d) ensures u in Queue(r, d) {}
  }

  /** Somebody else leaving never makes a parked ticket wait for more turns. */
  lemma DebtAfterRemove(r: Rotation, c: Client, u: Ticket, x: Client, t: Ticket, y: Client)
    requires Sound(r) && t in Queue(r, x) && u != t && y != x
    ensures t in Queue(RemoveFrom(r, c, u).rest, x)
    ensures Debt(RemoveFrom(r, c, u).rest, x, t, y) <= Debt(r, x, t, y)
  {
    RemoveFromQueues(r, c, u);
    DropPos(Queue(r, x), u, t);
    assert x in r.order;
    if c in r.queues && Drop(r.queues[c], u) == [] {
      assert c != x;
      DropPos(r.order, c, x);
      if y != c {
        DropPos(r.order, c, y);
      } else {
        DropDistinct(r.order, c);
      }
    }
  }

  function Join(r: Rotation, c: Client, q: seq<Ticket>): Rotation {
    if q == [] then r
    else Rotation(if c in r.order then r.order else r.order + [c], r.queues[c := Queue(r, c) + q])
  }

  /** Move the deques of the clients in `order` from `source` to the rotation `into`. */
  function Migrated(order: seq<Client>, source: map<Client, seq<Ticket>>, into: Rotation): Rotation {
    if order == [] then into
    else
      var c := order[0];
      Migrated(order[1..], source - {c}, Join(into, c, Queue(Rotation(order, source), c)))
  }

  /** Tickets of `q` are unknown to `r`. */
  ghost predicate Strangers(r: Rotation, q: map<Client, seq<Ticket>>) {
    forall c, d, t :: c in q && t in q[c] ==> t !in Queue(r, d)
  }

  lemma JoinSound(r: Rotation, c: Client, q: seq<Ticket>)
    requires Sound(r) && Distinct(q) && forall t, d :: t in q ==> t !in Queue(r, d)
    ensures Sound(Join(r, c, q))
    ensures Queue(Join(r, c, q), c) == Queue(r, c) + q
    ensures forall d :: d != c ==> Queue(Join(r, c, q), d) == Queue(r, d)
  {
    var e := Join(r, c, q);
    if q == [] {
      assert Queue(r, c) + q == Queue(r, c);
    } else {
      assert Distinct(e.order) by {
        if c !in r.order {
          assert e.order == r.order + [c];
        }
      }
      assert Listed(e);
      assert Queue(e, c) == Queue(r, c) + q;
      assert Distinct(Queue(r, c));
      DistinctConcat(Queue(r, c), q);
      forall d ensures Distinct(Queue(e, d)) {
        assert Distinct(Queue(r, d));
      }
      forall d, f, t | t in Queue(e, d) && t in Queue(e, f) ensures d == f {
        assert d != c ==> t in Queue(r, d);
        assert f != c ==> t in Queue(r, f);
        assert t in Queue(r, c) || t in q || d != c || f != c;
      }
    }
  }

  lemma DebtAfterJoin(r: Rotation, c: Client, q: seq<Ticket>, x: Client, t: Ticket, y: Client)
    requires Listed(r) && t in Queue(r, x)
    ensures t in Queue(Join(r, c, q), x)
    ensures Debt(Join(r, c, q), x, t, y) == Debt(r, x, t, y)
  {
    assert x in r.order;
    PosAppend(r.order, c, x);
    PosAppend(r.order, c, y);
    PosPrefix(Queue(r, x), q, t);
  }

  lemma {:induction false} PosPrefix<T>(a: seq<T>, b: seq<T>, x: T)
    requires x in a
    ensures Pos(a + b, x) == Pos(a, x)
  {
    if a[0] != x {
      assert (a + b)[1..] == a[1..] + b;
      PosPrefix(a[1..], b, x);
    }
  }

  /** The first client of the list has been moved: what is left to move. */
  lemma RestToMove(order: seq<Client>, source: map<Client, seq<Ticket>>)
    requires order != [] && ParkedOnce(Rotation(order, source))
    ensures var rest := Rotation(order[1..], source - {order[0]});
            && ParkedOnce(rest)
            && forall d :: Queue(rest, d) == if d == order[0] then [] else Queue(Rotation(order, source), d)
  {
    var r, rest := Rotation(order, source), Rotation(order[1..], source - {order[0]});
    forall d ensures Queue(rest, d) == (if d == order[0] then [] else Queue(r, d)) && Distinct(Queue(rest, d)) {
      assert Distinct(Queue(r, d));
    }
    forall c, d, t | t in Queue(rest, c) && t in Queue(rest, d) ensures c == d {
      assert t in Queue(r, c) && t in Queue(r, d);
    }
  }

  /** Migration loses no ticket, keeps each client's order, and keeps the rotation sound. */
  lemma {:induction false} MigratedSound(order: seq<Client>, source: map<Client, seq<Ticket>>, into: Rotation)
    requires Sound(into) && Distinct(order) && (forall c :: c in source ==> c in order)
    requires ParkedOnce(Rotation(order, source)) && Strangers(into, source)
    ensures Sound(Migrated(order, source, into))
    ensures forall c :: Queue(Migrated(order, source, into), c) == Queue(into, c) + Queue(Rotation(order, source), c)
  {
    var r := Rotation(order, source);
    if order == [] {
      forall c ensures Queue(into, c) == Queue(into, c) + Queue(r, c) {}
    } else {
      var c := order[0];
      var q := Queue(r, c);
      var rest, source' := order[1..], source - {c};
      assert order == [c] + rest;
      assert Distinct(q);
      MoveHead(order, source, into);
      RestToMove(order, source);
      StrangersAfterJoin(order, source, into);
      MigratedSound(rest, source', Join(into, c, q));
      forall d ensures Queue(Migrated(order, source, into), d) == Queue(into, d) + Queue(r, d) {
        MovedQueue(Queue(into, d), Queue(r, d), Queue(Join(into, c, q), d), Queue(Rotation(rest, source'), d), d == c,
                   Queue(Migrated(order, source, into), d));
      }
    }
  }

  /** A client's deque is moved at once or later. */
  lemma MovedQueue(into: seq<Ticket>, here: seq<Ticket>, joined: seq<Ticket>, left: seq<Ticket>, now: bool, all: seq<Ticket>)
    requires all == joined + left
    requires joined == (if now then into + here else into) && left == if now then [] else here
    ensures all == into + here
  {
  }

  lemma MoveHead(order: seq<Client>, source: map<Client, seq<Ticket>>, into: Rotation)
    requires Sound(into) && order != [] && ParkedOnce(Rotation(order, source)) && Strangers(into, source)
    ensures var c := order[0];
            var q := Queue(Rotation(order, source), c);
            && Sound(Join(into, c, q))
            && Queue(Join(into, c, q), c) == Queue(into, c) + q
            && forall d :: d != c ==> Queue(Join(into, c, q), d) == Queue(into, d)
  {
    var c := order[0];
    var q := Queue(Rotation(order, source), c);
    assert Distinct(q);
    JoinSound(into, c, q);
  }

  lemma StrangersAfterJoin(order: seq<Client>, source: map<Client, seq<Ticket>>, into: Rotation)
    requires order != [] && ParkedOnce(Rotation(order, source)) && Strangers(into, source)
    ensures var c := order[0];
            Strangers(Join(into, c, Queue(Rotation(order, source), c)), source - {c})
  {
    var c := order[0];
    var r := Rotation(order, source);
    var q := Queue(r, c);
    forall d, e, t | d in source - {c} && t in source[d]
      ensures t !in Queue(Join(into, c, q), e)
    {
      assert t in Queue(r, d);
      assert t !in Queue(r, c);
      assert t !in Queue(into, e);
    }
  }

  lemma {:induction false} DebtAfterMigration(
    order: seq<Client>, source: map<Client, seq<Ticket>>, into: Rotation, x: Client, t: Ticket, y: Client)
    requires Sound(into) && ParkedOnce(Rotation(order, source)) && Strangers(into, source)
    requires t in Queue(into, x)
    ensures t in Queue(Migrated(order, source, into), x)
    ensures Debt(Migrated(order, source, into), x, t, y) == Debt(into, x, t, y)
  {
    if order != [] {
      var c := order[0];
      var q := Queue(Rotation(order, source), c);
      MoveHead(order, source, into);
      DebtAfterJoin(into, c, q, x, t, y);
      RestToMove(order, source);
      StrangersAfterJoin(order, source, into);
      DebtAfterMigration(order[1..], source - {c}, Join(into, c, q), x, t, y);
    }
  }

  /** Rotating the rotation, as the under-share preference does, disturbs no deque. */
  function RotatedTo(r: Rotation, i: nat): Rotation
    requires i <= |r.order|
  {
    Rotation(r.order[i..] + r.order[..i], r.queues)
  }

  lemma RotatedSound(r: Rotation, i: nat)
    requires Sound(r) && i <= |r.order|
    ensures Sound(RotatedTo(r, i))
    ensures forall c :: Queue(RotatedTo(r, i), c) == Queue(r, c)
  {
    var e := RotatedTo(r, i);
    assert r.order == r.order[..i] + r.order[i..];
    assert Listed(e);
    forall c ensures Queue(e, c) == Queue(r, c) && Distinct(Queue(e, c)) {
      assert Distinct(Queue(r, c));
    }
    forall c, d, t | t in Queue(e, c) && t in Queue(e, d) ensures c == d {
      assert t in Queue(r, c) && t in Queue(r, d);
    }
  }
}
