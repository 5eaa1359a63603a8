/**
 Predictive admission: the verdict a queueing request gets, stated through the simulated
 dispatcher and the undisturbed rotation rather than through the closed forms.
 */
module LimiterAdmission {
  import opened Common
  import opened LimiterState
  import R = Rotations
  import D = DrainPrediction
  import E = DrainSimulation
  import S = ServiceEstimates
  import W = Drain

  /** Dispatch stamps of the slots held in one lane, oldest lease first. */
  function LaneHolds(holds: map<nat, Hold>, upto: nat, lane: bool): seq<real> {
    (if upto == 0 then [] else LaneHolds(holds, upto - 1, lane))
    + (if upto in holds && holds[upto].lane == lane then [holds[upto].started] else [])
  }

  function Slots(s: State, lane: bool): int {
    if lane then s.reserve else Cap(s)
  }

  function Occupied(s: State, lane: bool): int {
    if lane then s.prioInflight else Busy(s)
  }

  function ServiceOf(s: State, lane: bool, now: real, coldDefault: real): S.Service {
    S.ServiceEstimate(if lane then s.prioSamples else s.samples, LaneHolds(s.holds, s.nextLease, lane), now, coldDefault)
  }

  function LaneOf(s: State, lane: bool): R.Rotation {
    if lane then s.prio else s.main
  }

  /** When `t`, arriving for `client`, would start: the rotation is turned undisturbed until
      it reaches `t`, and every request before it takes one modelled service. */
  ghost function ArrivalStart(s: State, lane: bool, client: R.Client, t: R.Ticket, now: real, coldDefault: real): W.Wait
    requires ServiceOf(s, lane, now, coldDefault).time > 0.0
  {
    var service := ServiceOf(s, lane, now, coldDefault);
    E.SimStart(D.Holders(service.residuals, MaxI(0, Occupied(s, lane)), service.time), MaxI(0, Slots(s, lane)), 0.0,
               service.time, R.PopsBefore(R.Enqueue(LaneOf(s, lane), client, t), t))
  }

  /** The lane has evidence of its service time, and it says the request would start late. */
  ghost predicate Late(s: State, lane: bool, client: R.Client, t: R.Ticket, maxWait: D.Budget, now: real,
      coldDefault: real) {
    var service := ServiceOf(s, lane, now, coldDefault);
    && D.Horizon(maxWait) > 0.0
    && service.source != S.Cold
    && service.time > 0.0
    && !E.InTime(ArrivalStart(s, lane, client, t, now, coldDefault), D.Horizon(maxWait))
  }

  /** The estimate is that of this arrival: of its lane's slots, holds and queue, at the rank it takes. */
  ghost predicate Published(s: State, lane: bool, client: R.Client, t: R.Ticket, maxWait: D.Budget, now: real,
      coldDefault: real, retryFloor: int, retryMax: int, e: D.Estimate) {
    var service := ServiceOf(s, lane, now, coldDefault);
    && D.VerdictFaithful(e, service.residuals) && D.DepthFaithful(e, service.residuals)
    && D.WaitFaithful(e, service.residuals) && D.RetryFaithful(e, retryFloor, retryMax)
    && e.slots == MaxI(0, Slots(s, lane)) && e.busy == MaxI(0, Occupied(s, lane))
    && e.service == service.time && e.evidenced == (service.source != S.Cold) && e.horizon == D.Horizon(maxWait)
    && e.ahead == R.PopsBefore(R.Enqueue(LaneOf(s, lane), client, t), t)
  }

  /** The one request that may wait behind the only slot, busy, of an empty queue. */
  ghost predicate FirstWaiter(s: State, lane: bool) {
    !lane && Cap(s) == 1 && Busy(s) == 1 && R.Depth(s.main.order, s.main.queues) == 0
  }

  lemma SomebodyWaits(order: seq<R.Client>, queues: map<R.Client, seq<R.Ticket>>)
    requires order != [] && order[0] in queues && queues[order[0]] != []
    ensures R.Depth(order, queues) > 0
  {}

  /** Main result: exactly one request is let in whatever its estimate: one that finds the only slot of the
      main pool taken and nobody waiting for it.  It is served next. */
  lemma FirstWaiterIff(s: State, lane: bool, client: R.Client, t: R.Ticket)
    requires R.Listed(s.main)
    ensures FirstWaiter(s, lane)
       <==> !lane && s.aimd.c.cap == 1 && s.inflight - MinI(s.prioInflight, s.reserve) == 1 && s.main == R.EMPTY
    ensures FirstWaiter(s, lane) ==> R.PopsBefore(R.Enqueue(s.main, client, t), t) == 0
  {
    if s.main.order != [] {
      SomebodyWaits(s.main.order, s.main.queues);
    } else {
      assert s.main.queues == map[];
      FirstInLine(s.main, client, t);
    }
  }

  /** Leases of one lane up to a number. */
  ghost function LaneLeases(holds: map<nat, Hold>, upto: nat, lane: bool): set<nat> {
    set l | l in holds && l <= upto && holds[l].lane == lane
  }

  lemma {:induction false} LaneHoldsCount(holds: map<nat, Hold>, upto: nat, lane: bool)
    ensures |LaneHolds(holds, upto, lane)| == |LaneLeases(holds, upto, lane)|
  {
    var here := upto in holds && holds[upto].lane == lane;
    if upto == 0 {
      assert LaneLeases(holds, 0, lane) == if here then {0} else {};
    } else {
      LaneHoldsCount(holds, upto - 1, lane);
      assert LaneLeases(holds, upto, lane) == LaneLeases(holds, upto - 1, lane) + (if here then {upto} else {});
    }
  }

  lemma {:induction false} LaneHoldsGrow(holds: map<nat, Hold>, l: nat, upto: nat, lane: bool)
    requires l <= upto
    ensures LaneHolds(holds, l, lane) <= LaneHolds(holds, upto, lane)
  {
    if l < upto {
      LaneHoldsGrow(holds, l, upto - 1, lane);
    }
  }

  /** The stamps are those of the lane's holds, one for each, in the order of their leases. */
  lemma LaneHoldsExact(holds: map<nat, Hold>, upto: nat, lane: bool, l: nat, nth: nat)
    requires l in holds && l <= upto && holds[l].lane == lane && nth == |LaneLeases(holds, l, lane)|
    ensures |LaneHolds(holds, upto, lane)| == |LaneLeases(holds, upto, lane)|
    ensures 0 < nth <= |LaneHolds(holds, upto, lane)| && LaneHolds(holds, upto, lane)[nth - 1] == holds[l].started
  {
    LaneHoldsCount(holds, upto, lane);
    LaneHoldsCount(holds, l, lane);
    LaneHoldsGrow(holds, l, upto, lane);
    var upTo := LaneHolds(holds, l, lane);
    assert upTo[|upTo| - 1] == holds[l].started;
  }

  lemma FirstInLine(r: R.Rotation, client: R.Client, t: R.Ticket)
    requires r.order == [] && r.queues == map[]
    ensures R.PopsBefore(R.Enqueue(r, client, t), t) == 0
  {
    var e := R.Enqueue(r, client, t);
    assert e.order == [client] && R.Queue(e, client) == [t];
    assert R.PopHead(e).next == Some(R.Turn(client, t));
  }

  /** Main result: a request that finds its lane empty and a place free is never refused: the simulated
      dispatcher starts it at once, whatever its budget. */
  lemma FreePlaceAdmits(s: State, lane: bool, client: R.Client, t: R.Ticket, maxWait: D.Budget, now: real, coldDefault: real)
    requires lane ==> s.prio == R.EMPTY && 0 <= s.prioInflight < s.reserve
    requires !lane ==> s.main == R.EMPTY && 0 <= s.inflight - MinI(s.prioInflight, s.reserve) < s.aimd.c.cap
    ensures ServiceOf(s, lane, now, coldDefault).time > 0.0
    ensures ArrivalStart(s, lane, client, t, now, coldDefault) == W.At(0.0)
    ensures !Late(s, lane, client, t, maxWait, now, coldDefault)
  {
    S.ServiceEstimateBounds(if lane then s.prioSamples else s.samples, LaneHolds(s.holds, s.nextLease, lane), now, coldDefault);
    FirstInLine(R.EMPTY, client, t);
  }
}
