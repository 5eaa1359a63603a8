/**
 The per-bearer limiter as a state machine.  Each function below is one atomic step: the
 body of one critical section of the limiter, or one move of a caller that waits for it.
 A waiter's future is pending, granted a slot of one of the two pools, or cancelled; a
 cancelled waiter may stay parked until its cleanup runs.
 */
module LimiterState {
  import opened Common
  import opened Rotations
  import Aimd

  type Project = string

  datatype Fut = Pending | Granted(lane: bool, lease: nat) | Cancelled

  /** What the caller of `acquire` is doing. */
  datatype Caller = Waiting | Cancelling | Holding | Gone

  datatype Waiter = Waiter(client: Client, fut: Fut, caller: Caller)

  /** A held slot: its pool (true for the priority reserve) and its dispatch stamp. */
  datatype Hold = Hold(lane: bool, started: real)

  datatype Grant = Grant(ticket: Ticket, client: Client, lane: bool)

  /** The advisory ordering: whether it is on, and which projects are over their share. */
  datatype Share = Share(ordering: bool, over: set<Project>)

  datatype Env = Env(share: Share, clock: real)

  datatype State = State(
    aimd: Aimd.Lane,
    reserve: nat,
    inflight: int,
    prioInflight: int,
    main: Rotation,
    prio: Rotation,
    waiters: map<Ticket, Waiter>,
    holds: map<nat, Hold>,
    nextLease: nat,
    samples: seq<real>,
    prioSamples: seq<real>,
    projects: map<Client, Project>,
    granted: seq<Grant>)          // every dispatch so far, in order

  const SERVICE_SAMPLES: nat := 64

  function Init(aimd: Aimd.Lane, reserve: nat): State {
    State(aimd, reserve, 0, 0, EMPTY, EMPTY, map[], map[], 0, [], [], map[], [])
  }

  function Cap(s: State): int {
    s.aimd.c.cap
  }

  function NormalBusy(inflight: int, prioInflight: int, reserve: int): int {
    inflight - MinI(prioInflight, reserve)
  }

  function Busy(s: State): int {
    NormalBusy(s.inflight, s.prioInflight, s.reserve)
  }

  function Dead(w: map<Ticket, Waiter>): set<Ticket> {
    set t | t in w && w[t].fut.Cancelled?
  }

  // ------------------------------------------------------------------ dispatch

  /** Lease a slot to the waiter whose turn it is. */
  function GrantSlot(s: State, turn: Turn, lane: bool, clock: real): State {
    var caller := if turn.ticket in s.waiters then s.waiters[turn.ticket].caller else Waiting;
    var lease := s.nextLease + 1;
    s.(inflight := s.inflight + 1,
       prioInflight := if lane then s.prioInflight + 1 else s.prioInflight,
       nextLease := lease,
       holds := s.holds[lease := Hold(lane, clock)],
       waiters := s.waiters[turn.ticket := Waiter(turn.client, Granted(lane, lease), caller)],
       granted := s.granted + [Grant(turn.ticket, turn.client, lane)])
  }

  predicate Defers(projects: map<Client, Project>, share: Share, c: Client) {
    share.ordering && c in projects && projects[c] in share.over
  }

  /** Index of the first client that need not yield its turn, or the length. */
  function FirstUnderShare(order: seq<Client>, projects: map<Client, Project>, share: Share): (i: nat)
    ensures i <= |order|
  {
    if order == [] || !Defers(projects, share, order[0]) then 0
    else 1 + FirstUnderShare(order[1..], projects, share)
  }

  function PreferUnderShare(s: State, share: Share): Rotation {
    if !share.ordering then s.main
    else
      var i := FirstUnderShare(s.main.order, s.projects, share);
      if i == |s.main.order| then s.main else RotatedTo(s.main, i)
  }

  /** Whose turn it is in one of the two lanes. */
  function NextTurn(s: State, lane: bool, share: Share): Popped {
    NextWaiter(if lane then s.prio else PreferUnderShare(s, share), Dead(s.waiters))
  }

  function WithLane(s: State, lane: bool, r: Rotation): State {
    if lane then s.(prio := r) else s.(main := r)
  }

  function DispatchPriority(s: State, env: Env): State
    decreases s.reserve - s.prioInflight
  {
    if s.prioInflight < s.reserve then
      var p := NextTurn(s, true, env.share);
      if p.next.None? then WithLane(s, true, p.rest)
      else DispatchPriority(GrantSlot(WithLane(s, true, p.rest), p.next.value, true, env.clock), env)
    else s
  }

  function DispatchMain(s: State, env: Env): State
    decreases Cap(s) - Busy(s)
  {
    if Busy(s) < Cap(s) then
      var p := NextTurn(s, false, env.share);
      if p.next.None? then WithLane(s, false, p.rest)
      else DispatchMain(GrantSlot(WithLane(s, false, p.rest), p.next.value, false, env.clock), env)
    else s
  }

  function Migrate(s: State): State {
    s.(main := Migrated(s.prio.order, s.prio.queues, s.main), prio := EMPTY)
  }

  function TryDispatch(s: State, env: Env): State {
    var s1 := if s.reserve == 0 && s.prio.order != [] then Migrate(s) else s;
    DispatchMain(DispatchPriority(s1, env), env)
  }

  // --------------------------------------------------------- acquire and leave

  /** Remember a queued client's project; the memory is bounded to clients that still wait. */
  function NoteProject(projects: map<Client, Project>, queues: map<Client, seq<Ticket>>, c: Client,
      project: Option<Project>)
    : map<Client, Project>
  {
    if project.None? then projects
    else
      var kept := if |projects| > 4 * |queues| + 256 then map d | d in projects && d in queues :: projects[d]
                  else projects;
      kept[c := project.value]
  }

  /** Park a new waiter; a reserve of zero demotes a priority call to normal traffic. */
  function Park(s: State, t: Ticket, c: Client, wantsPriority: bool, project: Option<Project>): State {
    var s1 := s.(waiters := s.waiters[t := Waiter(c, Pending, Waiting)]);
    if wantsPriority && s.reserve > 0 then s1.(prio := Enqueue(s.prio, c, t))
    else
      var s2 := s1.(main := Enqueue(s.main, c, t));
      s2.(projects := NoteProject(s2.projects, s2.main.queues, c, project))
  }

  function SetCaller(s: State, t: Ticket, caller: Caller): State
    requires t in s.waiters
  {
    s.(waiters := s.waiters[t := s.waiters[t].(caller := caller)])
  }

  function Sampled(samples: seq<real>, x: real): seq<real> {
    var s' := samples + [x];
    if |s'| > SERVICE_SAMPLES then s'[|s'| - SERVICE_SAMPLES..] else s'
  }

  /** Return a lease, recording its duration unless the slot never reached upstream. */
  function Complete(s: State, lease: nat, sample: bool, clock: real): State {
    if lease !in s.holds then s
    else
      var held := s.holds[lease];
      var took := MaxR(0.0, clock - held.started);
      s.(holds := s.holds - {lease},
         samples := if sample && !held.lane then Sampled(s.samples, took) else s.samples,
         prioSamples := if sample && held.lane then Sampled(s.prioSamples, took) else s.prioSamples)
  }

  /** The slot granted to `t` comes back. */
  function GiveBack(s: State, t: Ticket, sample: bool, clock: real): State
    requires t in s.waiters && s.waiters[t].fut.Granted?
  {
    var fut := s.waiters[t].fut;
    Complete(SetCaller(s, t, Gone).(
               inflight := s.inflight - 1,
               prioInflight := if fut.lane then s.prioInflight - 1 else s.prioInflight),
             fut.lease, sample, clock)
  }

  /** Take `t` out of whichever deque holds it, the priority lane first. */
  function RemovePending(s: State, c: Client, t: Ticket): (bool, State) {
    var p := RemoveFrom(s.prio, c, t);
    var s1 := s.(prio := p.rest);
    if p.removed then (true, s1)
    else
      var m := RemoveFrom(s.main, c, t);
      (m.removed, s1.(main := m.rest))
  }

  // -------------------------------------------------------------------- events

  datatype Event =
    | Arrive(t: Ticket, c: Client, wantsPriority: bool, project: Option<Project>, env: Env)
    | Wake(t: Ticket)
    | Cancel(t: Ticket)
    | Cleanup(t: Ticket, env: Env)
    | Release(t: Ticket, env: Env)
    | Shrink(now: real)
    | Success(now: real, env: Env)
    | RetryAfter(now: real, seconds: real)
    | RetuneMax(hardMax: int, liveFloor: Option<int>, env: Env)
    | Tune(knobs: Aimd.Knobs)
    | SetReserve(n: nat)
    | Kick(env: Env)

  predicate IsWaiter(s: State, t: Ticket, caller: Caller) {
    t in s.waiters && s.waiters[t].caller == caller
  }

  function DoCancel(s: State, t: Ticket): State
    requires t in s.waiters
  {
    var w := s.waiters[t];
    s.(waiters := s.waiters[t := w.(fut := if w.fut.Pending? then Cancelled else w.fut, caller := Cancelling)])
  }

  /** A critical section: the state it leaves before `_try_dispatch`, if it calls that at all. */
  datatype Section = Section(s: State, dispatch: Option<Env>)

  function CleanupSection(s: State, t: Ticket, env: Env): Section
    requires t in s.waiters
  {
    var (removed, s1) := RemovePending(s, s.waiters[t].client, t);
    if !removed && s.waiters[t].fut.Granted? then Section(GiveBack(s1, t, false, env.clock), Some(env))
    else Section(SetCaller(s1, t, Gone), None)
  }

  function SuccessSection(s: State, now: real, env: Env): Section {
    var c := Aimd.Grow(s.aimd.c, s.aimd.k, now);
    Section(s.(aimd := s.aimd.(c := c)), if c.cap != Cap(s) then Some(env) else None)
  }

  function RetuneSection(s: State, hardMax: int, liveFloor: Option<int>, env: Env): Section {
    if hardMax == s.aimd.c.hardMax && liveFloor.None? then Section(s, None)
    else Section(s.(aimd := s.aimd.(c := Aimd.Retune(s.aimd.c, s.aimd.k, hardMax, liveFloor))), Some(env))
  }

  /** What an event does before dispatching.  An event that the caller's own state rules
      out changes nothing. */
  function Critical(s: State, e: Event): Section {
    match e
    case Arrive(t, c, wants, project, env) =>
      if t in s.waiters then Section(s, None) else Section(Park(s, t, c, wants, project), Some(env))
    case Wake(t) =>
      Section(if IsWaiter(s, t, Waiting) && s.waiters[t].fut.Granted? then SetCaller(s, t, Holding) else s, None)
    case Cancel(t) => Section(if IsWaiter(s, t, Waiting) then DoCancel(s, t) else s, None)
    case Cleanup(t, env) => if IsWaiter(s, t, Cancelling) then CleanupSection(s, t, env) else Section(s, None)
    case Release(t, env) =>
      if IsWaiter(s, t, Holding) && s.waiters[t].fut.Granted?
      then Section(GiveBack(s, t, true, env.clock), Some(env)) else Section(s, None)
    case Shrink(now) => Section(s.(aimd := s.aimd.(c := Aimd.Shrink(s.aimd.c, s.aimd.k, now))), None)
    case Success(now, env) => SuccessSection(s, now, env)
    case RetryAfter(now, seconds) =>
      Section(s.(aimd := s.aimd.(c := Aimd.NoteRetryAfter(s.aimd.c, now, seconds))), None)
    case RetuneMax(hardMax, liveFloor, env) => RetuneSection(s, hardMax, liveFloor, env)
    case Tune(knobs) => Section(s.(aimd := s.aimd.(k := knobs)), None)
    case SetReserve(n) => Section(s.(reserve := n), None)
    case Kick(env) => Section(s, Some(env))
  }

  function Step(s: State, e: Event): State {
    var section := Critical(s, e);
    if section.dispatch.Some? then TryDispatch(section.s, section.dispatch.value) else section.s
  }

  ghost function Run(s: State, es: seq<Event>): State {
    if es == [] then s else Step(Run(s, es[..|es| - 1]), es[|es| - 1])
  }
}
