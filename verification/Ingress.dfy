/**
 The ingress spill loop.  A request walks the lanes of its role until one answers; between any
 two of its steps other requests, the health poll and registry reloads may change everything
 it reads.
 */
module Ingresses {
  import opened Common

  /** The cached health of a lane. */
  datatype LaneState = LaneState(open: bool, subscription: bool, capacity: bool)

  const CLOSED := LaneState(false, false, false)

  /** What the transport to one lane comes back with. */
  datatype Transport =
    | LocallyRefused
    | ClientError
    | TimedOut
    | Answer(status: int, queueTimeout: bool, entitlement: bool)

  /** What a health probe finds: nothing, or a fresh reading. */
  datatype Probe = Failed | Read(state: LaneState)

  datatype Response =
    | Relayed(lane: string, status: int)
    | LocalRefusal
    | Unreachable
    | UpstreamTimeout
    | PolicyRefusal
    | NoRegisteredLane
    | GenerateHeld
    | AllLanesCapped
    | LaneNotConfigured
    | SessionLaneNotRegistered
  {
    /** No lane is left for the request. */
    ghost predicate Refusal() {
      PolicyRefusal? || NoRegisteredLane? || GenerateHeld? || AllLanesCapped?
    }
  }

  /** One upstream attempt, with what the router could see when it chose the lane.  `reading` is
      the verdict of the probe made for this choice, if it was a constrained one. */
  datatype Attempt = Attempt(lane: string, tried: set<string>, chain: seq<string>, registered: bool, overflow: bool,
                             cached: Option<LaneState>, reading: Option<Probe>)

  /** An attempt and what the transport came back with. */
  datatype Hop = Hop(to: Attempt, outcome: Transport)

  predicate Eligible(s: Option<LaneState>) {
    s.Some? && s.value.subscription && s.value.capacity && s.value.open
  }

  predicate IsOpen(s: Option<LaneState>) {
    s.Some? && s.value.open
  }

  function Get<K, V>(m: map<K, V>, k: K): Option<V> {
    if k in m then Some(m[k]) else None
  }

  function Kept(chain: seq<string>, registry: set<string>): (r: seq<string>)
    ensures forall l :: l in r <==> l in chain && l in registry
  {
    if chain == [] then []
    else (if chain[0] in registry then [chain[0]] else []) + Kept(chain[1..], registry)
  }

  /** A registry takes lanes out of a chain and leaves the others in their order. */
  lemma {:induction false} KeptInOrder(a: seq<string>, b: seq<string>, registry: set<string>)
    ensures Kept(a + b, registry) == Kept(a, registry) + Kept(b, registry)
  {
    if a == [] {
      assert a + b == b;
    } else {
      assert (a + b)[1..] == a[1..] + b;
      KeptInOrder(a[1..], b, registry);
    }
  }

  /** The first open lane of a chain. */
  function FirstOpen(chain: seq<string>, states: map<string, LaneState>): (r: Option<string>)
    ensures r.Some? ==> r.value in chain && r.value in states && states[r.value].open
    ensures r.None? ==> forall l :: l in chain && l in states ==> !states[l].open
  {
    if chain == [] then None
    else if IsOpen(Get(states, chain[0])) then Some(chain[0])
    else FirstOpen(chain[1..], states)
  }

  predicate OpenUntried(chain: seq<string>, states: map<string, LaneState>, tried: set<string>, j: int) {
    0 <= j < |chain| && IsOpen(Get(states, chain[j])) && chain[j] !in tried
  }

  /** A lane that was tried and is open again. */
  predicate Reopened(chain: seq<string>, states: map<string, LaneState>, tried: set<string>, i: int) {
    0 <= i < |chain| && IsOpen(Get(states, chain[i])) && chain[i] in tried
  }

  /** Choosing the first open lane finds one that is untried. */
  predicate FindsUntried(chain: seq<string>, states: map<string, LaneState>, tried: set<string>) {
    var next := FirstOpen(chain, states);
    next.Some? && next.value !in tried
  }

  /** Main result: an unconstrained request is refused beside an open, untried lane if and only if
      a tried lane that was reopened stands before each of them. */
  lemma {:induction false} FindsUntriedIff(chain: seq<string>, states: map<string, LaneState>, tried: set<string>)
    ensures FindsUntried(chain, states, tried)
       <==> exists j :: OpenUntried(chain, states, tried, j) && forall i :: 0 <= i < j ==> !Reopened(chain, states, tried, i)
  {
    if chain != [] {
      var rest := chain[1..];
      if OpenUntried(chain, states, tried, 0) {
      } else if Reopened(chain, states, tried, 0) {
        assert !FindsUntried(chain, states, tried);
      } else {
        FindsUntriedIff(rest, states, tried);
        ShiftedLanes(chain, states, tried);
      }
    }
  }

  lemma ShiftedLanes(chain: seq<string>, states: map<string, LaneState>, tried: set<string>)
    requires chain != [] && !IsOpen(Get(states, chain[0]))
    ensures (exists j :: OpenUntried(chain, states, tried, j) && forall i :: 0 <= i < j ==> !Reopened(chain, states, tried, i))
       <==> (exists j :: OpenUntried(chain[1..], states, tried, j)
                         && forall i :: 0 <= i < j ==> !Reopened(chain[1..], states, tried, i))
  {
    var rest := chain[1..];
    if j :| OpenUntried(chain, states, tried, j) && forall i :: 0 <= i < j ==> !Reopened(chain, states, tried, i) {
      assert OpenUntried(rest, states, tried, j - 1);
      forall i | 0 <= i < j - 1 ensures !Reopened(rest, states, tried, i) {
        assert !Reopened(chain, states, tried, i + 1);
      }
    }
    if j :| OpenUntried(rest, states, tried, j) && forall i :: 0 <= i < j ==> !Reopened(rest, states, tried, i) {
      assert OpenUntried(chain, states, tried, j + 1);
      forall i | 0 <= i < j + 1 ensures !Reopened(chain, states, tried, i) {
        assert i > 0 ==> !Reopened(rest, states, tried, i - 1);
      }
    }
  }

  /** So it happens: the first lane was tried and a poll has reopened it; the third, open and never
      tried, is not found. */
  lemma OpenLaneCanBeMissed()
    ensures var open := LaneState(true, false, false);
            var chain, states, tried := ["a", "b", "c"], map["a" := open, "b" := CLOSED, "c" := open], {"a", "b"};
            OpenUntried(chain, states, tried, 2) && !FindsUntried(chain, states, tried)
  {
  }

  predicate Saturation(u: Transport) {
    u.Answer? && u.status == 503 && u.queueTimeout
  }

  predicate Retryable(u: Transport, role: string) {
    Saturation(u) || (u.Answer? && u.status == 429 && role in {"generate", "code"} && !u.entitlement)
  }

  /** The answer that sends a request on: a 503 stamped as a queue timeout, or for generate and code
      a 429 that is not an entitlement refusal. */
  ghost predicate Busy(u: Transport, role: string) {
    && u.Answer?
    && (u.status == 503 ==> u.queueTimeout)
    && (u.status != 503 ==> u.status == 429 && !u.entitlement && (role == "generate" || role == "code"))
  }

  /** No answer came from the lane. */
  ghost predicate Silent(u: Transport) {
    u == ClientError || u == TimedOut
  }

  /** The request goes on after this. */
  ghost predicate PassedOver(u: Transport, role: string, required: bool, spillable: bool) {
    (spillable && Busy(u, role)) || (required && Silent(u))
  }

  /** What an attempt tells the client, given what the transport came back with: nothing if the request
      goes on, and otherwise the lane's own answer, its failure, or that no lane is left. */
  ghost predicate Told(u: Transport, role: string, lane: string, required: bool, spillable: bool,
      response: Option<Response>) {
    match u
    case LocallyRefused => response == Some(LocalRefusal)
    case ClientError => response == if required then None else Some(Unreachable)
    case TimedOut => response == if required then None else Some(UpstreamTimeout)
    case Answer(status, _, _) =>
      if spillable && Busy(u, role) then response.Some? ==> response.value.Refusal()
      else response == Some(Relayed(lane, status))
  }

  predicate QueueRetry(role: string, retries: int, limit: int, required: bool, saturation: bool) {
    role == "generate" && retries < limit && (!required || saturation)
  }

  /** The safety of one attempt: the lane is configured and untried; a registry confines it to
      the role's chain; generate stays with Anthropic while overflow is off; and a constrained
      request goes to a lane that was in the chain when chosen, and whose probe made for this very
      choice showed subscription, capacity and open. */
  predicate Sound(a: Attempt, lanes: set<string>, role: string, required: bool) {
    && a.lane in lanes && a.lane !in a.tried
    && (a.registered ==> a.lane in a.chain)
    && (role == "generate" && !a.overflow ==> a.lane == "anthropic")
    && (required ==> a.lane in a.chain && Shown(a.reading) && a.cached == Some(a.reading.value.state))
  }

  /** This probe read the lane, and found it eligible. */
  predicate Shown(p: Option<Probe>) {
    p.Some? && p.value.Read? && p.value.state.subscription && p.value.state.capacity && p.value.state.open
  }

  /** What a constrained request may be told: a lane's answer or a refusal on policy, never that
      capacity is short. */
  predicate PolicyAnswer(r: Response) {
    r.Relayed? || r.LocalRefusal? || r.PolicyRefusal? || r.SessionLaneNotRegistered?
  }

  /** How far a request can still go: lanes it has not tried and retries it has not used. */
  function Remaining(lanes: set<string>, tried: set<string>, limit: int, retries: int): int {
    |lanes - tried| + MaxI(0, limit) - retries
  }

  lemma OneLess(lanes: set<string>, tried: set<string>, lane: string)
    requires lane in lanes && lane !in tried
    ensures |lanes - (tried + {lane})| == |lanes - tried| - 1
  {
    assert lanes - (tried + {lane}) == (lanes - tried) - {lane};
  }

  lemma NoMore(lanes: set<string>, tried: set<string>, tried': set<string>)
    requires tried <= tried'
    ensures |lanes - tried'| <= |lanes - tried|
  {
    Smaller(lanes - tried', lanes - tried);
  }

  lemma {:induction false} Smaller(a: set<string>, b: set<string>)
    requires a <= b
    ensures |a| <= |b|
  {
    if x :| x in a {
      Smaller(a - {x}, b - {x});
    }
  }

  class Ingress {
    const lanes: set<string>
    const roleChains: map<string, seq<string>>
    const retryLimit: int
    var laneState: map<string, LaneState>
    var sessionLane: map<string, string>
    var registry: Option<set<string>>
    var overflow: bool
    var activeRouting: bool

    constructor (lanes: set<string>, roleChains: map<string, seq<string>>, retryLimit: int,
        registry: Option<set<string>>)
      requires "generate" in roleChains
      ensures this.lanes == lanes && this.roleChains == roleChains && this.retryLimit == retryLimit
      ensures laneState == map[] && sessionLane == map[] && this.registry == registry
    {
      this.lanes, this.roleChains, this.retryLimit, this.registry := lanes, roleChains, retryLimit, registry;
      laneState, sessionLane, overflow, activeRouting := map[], map[], true, false;
    }

    /** Whatever other tasks do while this request waits. */
    method Others()
      modifies this
    {
      laneState, sessionLane, registry, overflow, activeRouting := *, *, *, *, *;
    }

    predicate Configured() {
      "generate" in roleChains
    }

    /** The lanes configured for a role, or for generate if none are; generate's alone is Anthropic while
        overflow is off; a registry takes out what it does not list. */
    function Chain(role: string): (r: seq<string>)
      requires Configured()
      reads this
      ensures role == "generate" && !overflow ==> forall l :: l in r ==> l == "anthropic"
      ensures registry.Some? ==> forall l :: l in r ==> l in registry.value
      ensures forall l :: l in r <==>
                && (registry.None? || l in registry.value)
                && (if role == "generate" && !overflow then l == "anthropic"
                    else l in (if role in roleChains then roleChains[role] else roleChains["generate"]))
    {
      var full := if role in roleChains then roleChains[role] else roleChains["generate"];
      var chain := if role == "generate" && !overflow then ["anthropic"] else full;
      if registry.None? then chain else Kept(chain, registry.value)
    }

    /** What an attempt at this lane would be recorded with. */
    ghost function Seen(role: string, lane: string, tried: set<string>, reading: Option<Probe>): Attempt
      requires Configured()
      reads this
    {
      Attempt(lane, tried, Chain(role), registry.Some?, overflow, Get(laneState, lane), reading)
    }

    method SetLaneState(lane: string, open: bool)
      modifies this`laneState
      ensures laneState.Keys == old(laneState.Keys) + {lane} && laneState[lane].open == open
      ensures lane in old(laneState) ==> laneState[lane] == old(laneState[lane]).(open := open)
      ensures forall l :: l in old(laneState) && l != lane ==> laneState[l] == old(laneState[l])
    {
      if lane !in laneState {
        laneState := laneState[lane := CLOSED.(open := open)];
      } else {
        laneState := laneState[lane := laneState[lane].(open := open)];
      }
    }

    /** A probe leaves its own verdict in the cache: what it read, or closed. */
    method ProbeLane(lane: string) returns (p: Probe)
      modifies this
      ensures Get(laneState, lane) == Some(if p.Read? then p.state else CLOSED)
    {
      Others();
      p := *;
      match p {
        case Failed => laneState := laneState[lane := CLOSED];
        case Read(state) => laneState := laneState[lane := state];
      }
    }

    /** Every configured lane that stands before this one in the chain has been used up. */
    ghost predicate Before(chain: seq<string>, lane: string, tried: set<string>) {
      exists i :: 0 <= i < |chain| && chain[i] == lane && forall k :: 0 <= k < i && chain[k] in lanes ==> chain[k] in tried
    }

    method SelectConstrained(role: string, tried: set<string>) returns (lane: Option<string>,
        tried': set<string>, p: Probe)
      requires Configured()
      modifies this
      ensures tried <= tried' <= tried + lanes
      ensures lane.Some? ==> Sound(Seen(role, lane.value, tried', Some(p)), lanes, role, true)
      ensures lane.None? ==> forall l :: l in old(Chain(role)) && l in lanes ==> l in tried'
      ensures lane.Some? ==> Before(old(Chain(role)), lane.value, tried')
    {
      var candidates := Chain(role);
      tried', p := tried, Failed;
      for i := 0 to |candidates|
        invariant tried <= tried' <= tried + lanes
        invariant forall k :: 0 <= k < i && candidates[k] in lanes ==> candidates[k] in tried'
      {
        var candidate := candidates[i];
        if candidate in lanes && candidate !in tried' {
          p := ProbeLane(candidate);
          if candidate in Chain(role) && Eligible(Get(laneState, candidate)) {
            return Some(candidate), tried', p;
          }
          tried' := tried' + {candidate};
        }
      }
      return None, tried', p;
    }

    /** Any open, untried lane of the chain; none when ranking is off or fails. */
    method ActivePick(role: string, tried: set<string>) returns (lane: Option<string>)
      requires Configured()
      ensures lane.Some? ==> lane.value in Chain(role) && lane.value !in tried && IsOpen(Get(laneState, lane.value))
      ensures !activeRouting ==> lane.None?
    {
      if !activeRouting {
        return None;
      }
      var chain := Chain(role);
      var candidates: seq<string> := [];
      for i := 0 to |chain|
        invariant forall l :: l in candidates ==> l in chain && l !in tried && IsOpen(Get(laneState, l))
      {
        if chain[i] !in tried && IsOpen(Get(laneState, chain[i])) {
          candidates := candidates + [chain[i]];
        }
      }
      var ranked: int := *;
      return if 0 <= ranked < |candidates| then Some(candidates[ranked]) else None;
    }

    ghost predicate PinUsable(role: string, session: string, tried: set<string>)
      requires Configured()
      reads this
    {
      var pin := Get(sessionLane, session);
      && pin.Some? && pin.value !in tried && IsOpen(Get(laneState, pin.value))
      && (registry.Some? ==> pin.value in Chain(role))
      && (role == "generate" && !overflow ==> pin.value == "anthropic")
    }

    /** A pin is honoured only while it is untried, open, registered and allowed its role. */
    method PinnedChoice(role: string, session: string, tried: set<string>) returns (lane: Option<string>)
      requires Configured()
      ensures lane.Some? <==> PinUsable(role, session, tried)
      ensures lane.Some? ==> lane == Get(sessionLane, session)
    {
      if session !in sessionLane || sessionLane[session] in tried {
        return None;
      }
      var pin := sessionLane[session];
      if registry.Some? && pin !in Chain(role) {
        return None;
      }
      if !IsOpen(Get(laneState, pin)) {
        return None;
      }
      if role == "generate" && pin != "anthropic" && !overflow {
        return None;
      }
      return Some(pin);
    }

    /** The session's pin decides, if this request has not used it; otherwise the ranking does, if there
        is one, and otherwise the first open lane of the chain. */
    method Choose(role: string, session: Option<string>, tried: set<string>, usedPin: bool)
      returns (lane: Option<string>, usedPin': bool)
      requires Configured()
      ensures lane.Some? ==> lane.value !in tried && IsOpen(Get(laneState, lane.value))
      ensures lane.Some? && registry.Some? ==> lane.value in Chain(role)
      ensures lane.Some? && role == "generate" && !overflow ==> lane.value == "anthropic"
      ensures lane.None? ==> !FindsUntried(Chain(role), laneState, tried)
      ensures usedPin' == (usedPin || session.Some?)
      ensures var pinned := !usedPin && session.Some? && PinUsable(role, session.value, tried);
              && (pinned ==> lane == Get(sessionLane, session.value))
              && (!pinned && !activeRouting && lane.Some? ==> lane == FirstOpen(Chain(role), laneState))
    {
      lane, usedPin' := None, usedPin;
      if !usedPin && session.Some? {
        lane := PinnedChoice(role, session.value, tried);
        usedPin' := true;
      }
      if lane.None? {
        lane := ActivePick(role, tried);
        if lane.None? {
          lane := FirstOpen(Chain(role), laneState);
        }
        if lane.Some? && lane.value in tried {
          lane := None;
        }
      }
    }

    /** The lane chosen becomes the session's pin. */
    method SelectOnce(role: string, session: Option<string>, tried: set<string>, usedPin: bool)
      returns (lane: Option<string>, usedPin': bool)
      requires Configured()
      modifies this`sessionLane
      ensures lane.Some? ==> lane.value !in tried && IsOpen(Get(laneState, lane.value))
      ensures lane.Some? && registry.Some? ==> lane.value in Chain(role)
      ensures lane.Some? && role == "generate" && !overflow ==> lane.value == "anthropic"
      ensures lane.None? ==> !FindsUntried(Chain(role), laneState, tried)
      ensures usedPin' == (usedPin || session.Some?)
      ensures sessionLane == if session.Some? && lane.Some? then old(sessionLane)[session.value := lane.value]
                             else old(sessionLane)
      ensures var pinned := !usedPin && session.Some? && old(PinUsable(role, session.value, tried));
              && (pinned ==> lane == Get(old(sessionLane), session.value))
              && (!pinned && !activeRouting && lane.Some? ==> lane == FirstOpen(Chain(role), laneState))
    {
      lane, usedPin' := Choose(role, session, tried, usedPin);
      if lane.Some? && session.Some? {
        sessionLane := sessionLane[session.value := lane.value];
      }
    }

    function NoLane(role: string, required: bool): Response
      requires Configured()
      reads this
    {
      if required then PolicyRefusal
      else if registry.Some? && Chain(role) == [] then NoRegisteredLane
      else if role == "generate" && !overflow then GenerateHeld
      else AllLanesCapped
    }

    /** The lane to attempt next, or the answer for a spent chain: exactly one of the two. */
    method NextLane(role: string, session: Option<string>, tried: set<string>, usedPin: bool, required: bool)
      returns (lane: Option<string>, refusal: Option<Response>, usedPin': bool, tried': set<string>, reading: Option<Probe>)
      requires Configured()
      modifies this
      ensures lane.Some? <==> refusal.None?
      ensures tried <= tried' <= tried + lanes
      ensures !required ==> tried' == tried
      ensures lane.Some? ==> Sound(Seen(role, lane.value, tried', reading), lanes, role, required)
      ensures refusal.Some? ==>
        refusal.value.Refusal() || refusal.value.LaneNotConfigured? || refusal.value.SessionLaneNotRegistered?
      ensures refusal.Some? && required ==> PolicyAnswer(refusal.value)
      ensures refusal == Some(PolicyRefusal) ==> forall l :: l in old(Chain(role)) && l in lanes ==> l in tried'
      ensures refusal == Some(AllLanesCapped) || refusal == Some(GenerateHeld) ==>
        !required && !FindsUntried(Chain(role), laneState, tried)
      ensures refusal == Some(GenerateHeld) ==> role == "generate" && !overflow
      ensures refusal == Some(NoRegisteredLane) ==> !required && registry.Some? && Chain(role) == []
      ensures refusal == Some(LaneNotConfigured) ==>
        !required && exists l :: l !in lanes && l !in tried && IsOpen(Get(laneState, l))
      ensures refusal == Some(SessionLaneNotRegistered) <==>
        old(registry.Some? && session.Some? && session.value in sessionLane && sessionLane[session.value] !in Chain(role))
    {
      lane, refusal, usedPin', tried', reading := None, None, usedPin, tried, None;
      var pinned := if session.Some? then Get(sessionLane, session.value) else None;
      if registry.Some? && pinned.Some? && pinned.value !in Chain(role) {
        refusal := Some(SessionLaneNotRegistered);
        return;
      }
      if required {
        var p;
        lane, tried', p := SelectConstrained(role, tried);
        reading := Some(p);
      } else {
        lane, usedPin' := SelectOnce(role, session, tried, usedPin);
      }
      if lane.None? || lane.value in tried' {
        lane, refusal := None, Some(NoLane(role, required));
      } else if lane.value !in lanes {
        lane, refusal := None, Some(LaneNotConfigured);
      }
    }

    predicate SpillTarget(role: string, tried: set<string>, required: bool)
      requires Configured()
      reads this
    {
      if required then exists l :: l in Chain(role) && l in lanes && l !in tried
      else FindsUntried(Chain(role), laneState, tried)
    }

    /** There is nobody to spill to: a constrained request has used up every configured lane of its
        chain, any other finds no open lane or one it has tried first. */
    ghost predicate Spent(role: string, tried: set<string>, required: bool)
      requires Configured()
      reads this
    {
      if required then forall l :: l in Chain(role) && l in lanes ==> l in tried
      else !FindsUntried(Chain(role), laneState, tried)
    }

    /** After a retryable answer: spill, queue and wait, or give the terminal answer. */
    method SpillOrRequeue(role: string, lane: string, tried: set<string>, required: bool, saturation: bool,
        retries: int)
      returns (response: Option<Response>, tried': set<string>, retries': int)
      requires Configured() && lane in tried
      modifies this
      ensures response.Some? ==> tried' == tried && retries' == retries && !response.value.Relayed?
      ensures response.Some? && required ==> PolicyAnswer(response.value)
      ensures response.Some? ==> response.value.Refusal() && response.value.PolicyRefusal? == required
      ensures response.Some? ==> Spent(role, tried, required)
      ensures response.Some? ==> !(role == "generate" && retries < retryLimit && (!required || saturation))
      ensures response.None? ==>
        || (tried' == tried && retries' == retries && !Spent(role, tried, required))
        || (tried' == tried - {lane} && retries' == retries + 1
            && role == "generate" && retries < retryLimit && (!required || saturation))
      ensures retries' == retries && required && !saturation ==> laneState == old(laneState)
      ensures retries' == retries && (!required || saturation) ==> lane in laneState && !laneState[lane].open
      ensures retries' == retries ==>
        forall l :: l in old(laneState) && l != lane ==> l in laneState && laneState[l] == old(laneState[l])
    {
      tried', retries' := tried, retries;
      if !required || saturation {
        SetLaneState(lane, false);
      }
      if SpillTarget(role, tried, required) {
        return None, tried, retries;
      }
      if QueueRetry(role, retries, retryLimit, required, saturation) {
        SetLaneState(lane, true);
        Others();
        return None, tried - {lane}, retries + 1;
      }
      return Some(NoLane(role, required)), tried, retries;
    }

    method SendUpstream(required: bool) returns (u: Transport, out: bool, local: Option<Response>)
      modifies this
      ensures out <==> required && (u.ClientError? || u.TimedOut?)
      ensures local.Some? <==> u.LocallyRefused? || (!required && (u.ClientError? || u.TimedOut?))
      ensures local.Some? ==> !local.value.Relayed? && Told(u, "", "", required, false, local)
      ensures local.Some? && required ==> PolicyAnswer(local.value)
    {
      Others();
      u := *;
      match u {
        case LocallyRefused => out, local := false, Some(LocalRefusal);
        case ClientError => out, local := required, if required then None else Some(Unreachable);
        case TimedOut => out, local := required, if required then None else Some(UpstreamTimeout);
        case Answer(_, _, _) => out, local := false, None;
      }
    }

    /** One attempt: it answers, or uses the lane up, or uses a retry up; a request that may spill is
        never answered with a busy lane's own answer, and any other answer is relayed as it is. */
    method AttemptLane(role: string, lane: string, tried: set<string>, required: bool, spillable: bool, retries: int)
      returns (response: Option<Response>, tried': set<string>, retries': int, ghost u: Transport)
      requires Configured() && lane !in tried
      modifies this
      ensures Told(u, role, lane, required, spillable, response)
      ensures response.None? ==> PassedOver(u, role, required, spillable)
      ensures response.None? ==>
        || (tried' == tried + {lane} && retries' == retries)
        || (tried' == tried && retries' == retries + 1 && retries < retryLimit
            && role == "generate" && u.Answer? && (required ==> u.status == 503))
      ensures response.Some? ==> retries' == retries
      ensures response.Some? && response.value.Refusal() ==> Spent(role, tried + {lane}, required)
      ensures response == Some(AllLanesCapped) || response == Some(GenerateHeld) ==> !required
      ensures response.Some? && required ==> PolicyAnswer(response.value)
    {
      tried', retries' := tried, retries;
      var outcome, out, local := SendUpstream(required);
      u := outcome;
      if out {
        return None, tried + {lane}, retries, u;
      }
      if local.Some? {
        return local, tried, retries, u;
      }
      if Retryable(outcome, role) && spillable {
        response, tried', retries' := SpillOrRequeue(role, lane, tried + {lane}, required, Saturation(outcome), retries);
        assert (tried + {lane}) - {lane} == tried;
        return;
      }
      Others();
      return Some(Relayed(lane, outcome.status)), tried, retries, u;
    }

    /** One pass of the loop: a lane is chosen and attempted, or none is left.  A pass that yields no
        answer has used up a lane or a retry. */
    method Pass(role: string, session: Option<string>, required: bool, spillable: bool, tried: set<string>,
        usedPin: bool, retries: nat)
      returns (response: Option<Response>, usedPin': bool, tried': set<string>, retries': nat, ghost hop: Option<Hop>)
      requires Configured() && tried <= lanes && retries <= MaxI(0, retryLimit)
      modifies this
      ensures response.None? ==> tried' <= lanes && retries' <= MaxI(0, retryLimit) && hop.Some?
      ensures hop.None? ==> response.Some? && (response.value.Refusal() || response.value.LaneNotConfigured?
                                               || response.value.SessionLaneNotRegistered?)
      ensures hop.Some? ==> HopOk(hop.value, role, required, spillable, response)
      ensures hop.Some? ==> 0 < Remaining(lanes, tried, retryLimit, retries)
      ensures response.None? ==>
        Remaining(lanes, tried', retryLimit, retries') < Remaining(lanes, tried, retryLimit, retries)
      ensures response.None? && !required ==> tried' <= tried + {hop.value.to.lane}
      ensures response == Some(AllLanesCapped) || response == Some(GenerateHeld) ==>
        && !required
        && !FindsUntried(Chain(role), laneState, if hop.Some? then tried + {hop.value.to.lane} else tried)
      ensures response.Some? && required ==> PolicyAnswer(response.value)
    {
      var lane, refusal, reading;
      retries' := retries;
      lane, refusal, usedPin', tried', reading := NextLane(role, session, tried, usedPin, required);
      if refusal.Some? {
        return refusal, usedPin', tried', retries, None;
      }
      NoMore(lanes, tried, tried');
      OneLess(lanes, tried', lane.value);
      ghost var to := Seen(role, lane.value, tried', reading);
      ghost var u;
      response, tried', retries', u := AttemptLane(role, lane.value, tried', required, spillable, retries);
      hop := Some(Hop(to, u));
    }

    /** The attempt was sound, and its outcome is what decided: the client is told what the lane
        answered, or the request goes on. */
    ghost predicate HopOk(hop: Hop, role: string, required: bool, spillable: bool, response: Option<Response>) {
      && Sound(hop.to, lanes, role, required)
      && Told(hop.outcome, role, hop.to.lane, required, spillable, response)
      && (response.None? ==> PassedOver(hop.outcome, role, required, spillable))
    }

    /** Every attempt of the log was sound, and the request went on after each. */
    ghost predicate Walked(log: seq<Hop>, role: string, required: bool, spillable: bool) {
      forall i :: 0 <= i < |log| ==> HopOk(log[i], role, required, spillable, None)
    }

    /** What the client is told was decided by the log: every attempt was sound, the request went on
        after every one but the last, and an answer of a lane is the last one's own. */
    ghost predicate Answered(log: seq<Hop>, role: string, required: bool, spillable: bool, response: Response) {
      && (forall i :: 0 <= i < |log| ==> Sound(log[i].to, lanes, role, required))
      && (forall i :: 0 <= i < |log| - 1 ==> PassedOver(log[i].outcome, role, required, spillable))
      && (response.Relayed? || response.LocalRefusal? || response.Unreachable? || response.UpstreamTimeout? ==>
            log != [] && var last := log[|log| - 1];
            Told(last.outcome, role, last.to.lane, required, spillable, Some(response)))
    }

    lemma AnsweredByLast(log: seq<Hop>, hop: Hop, role: string, required: bool, spillable: bool, response: Response)
      requires Walked(log, role, required, spillable) && HopOk(hop, role, required, spillable, Some(response))
      ensures Answered(log + [hop], role, required, spillable, response)
    {
      forall i | 0 <= i < |log| ensures HopOk((log + [hop])[i], role, required, spillable, None) {
        assert (log + [hop])[i] == log[i];
      }
    }

    lemma WalkedOn(log: seq<Hop>, hop: Hop, role: string, required: bool, spillable: bool)
      requires Walked(log, role, required, spillable) && HopOk(hop, role, required, spillable, None)
      ensures Walked(log + [hop], role, required, spillable)
    {}

    lemma AnsweredByNone(log: seq<Hop>, role: string, required: bool, spillable: bool, response: Response)
      requires Walked(log, role, required, spillable)
      requires response.Refusal() || response.LaneNotConfigured? || response.SessionLaneNotRegistered?
      ensures Answered(log, role, required, spillable, response)
    {
      forall i | 0 <= i < |log| ensures Sound(log[i].to, lanes, role, required)
                                        && PassedOver(log[i].outcome, role, required, spillable) {
        assert HopOk(log[i], role, required, spillable, None);
      }
    }

    /** The lanes a log has been to. */
    ghost function Been(log: seq<Hop>): set<string> {
      set hop | hop in log :: hop.to.lane
    }

    /** Main result: whatever the lanes answer and whatever happens meanwhile, a request ends,
        after at most one attempt for each configured lane and one for each allowed retry.
        Every attempt is sound.  The client is told what the last lane answered; before it came
        only lanes that were busy or, for a constrained request, silent; and it is told that no
        capacity is left only when no open lane comes before one it has been to. */
    method Forward(role: string, session: Option<string>, required: bool, spillable: bool)
      returns (response: Response, ghost log: seq<Hop>)
      requires Configured()
      modifies this
      ensures |log| <= |lanes| + MaxI(0, retryLimit)
      ensures Answered(log, role, required, spillable, response)
      ensures response.AllLanesCapped? || response.GenerateHeld? ==>
                !required && exists tried :: tried <= Been(log) && !FindsUntried(Chain(role), laneState, tried)
      ensures required ==> PolicyAnswer(response)
    {
      var tried: set<string>, usedPin, retries: nat := {}, false, 0;
      log := [];
      while true
        invariant tried <= lanes && retries <= MaxI(0, retryLimit)
        invariant |log| + Remaining(lanes, tried, retryLimit, retries) <= |lanes| + MaxI(0, retryLimit)
        invariant Walked(log, role, required, spillable)
        invariant !required ==> tried <= Been(log)
        decreases Remaining(lanes, tried, retryLimit, retries)
      {
        var answer, tried';
        ghost var hop;
        answer, usedPin, tried', retries, hop := Pass(role, session, required, spillable, tried, usedPin, retries);
        if answer.Some? {
          if hop.None? {
            AnsweredByNone(log, role, required, spillable, answer.value);
          } else {
            BeenAlso(log, hop.value);
            AnsweredByLast(log, hop.value, role, required, spillable, answer.value);
            log := log + [hop.value];
          }
          return answer.value, log;
        }
        BeenAlso(log, hop.value);
        WalkedOn(log, hop.value, role, required, spillable);
        tried, log := tried', log + [hop.value];
      }
    }

    lemma BeenAlso(log: seq<Hop>, hop: Hop)
      ensures Been(log + [hop]) == Been(log) + {hop.to.lane}
    {
      assert hop in log + [hop];
    }
  }
}
