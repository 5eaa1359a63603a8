/**
 An event simulation of the gated dispatcher: the head of the queue starts only while fewer
 than `slots` requests run, and otherwise waits for the next completion.  It starts every
 request exactly when greedy scheduling over its servers does.
 */
module DrainSimulation {
  import opened Common
  import opened Drain

  /**
   Event simulation of the dispatcher.  `running` holds the completion times of the
   requests in service; the head of the queue starts only while fewer than `slots`
   run, and otherwise time moves on to the next completion.
   */
  ghost function SimStart(running: seq<real>, slots: nat, now: real, service: real, k: nat): Wait
    decreases k, |running|
  {
    if |running| < slots then
      if k == 0 then At(now)
      else SimStart(running + [now + service], slots, now, service, k - 1)
    else if running == [] then Never
    else
      var j := Earliest(running);
      SimStart(Without(running, j), slots, MaxR(now, running[j]), service, k)
  }

  function Repeat(v: real, n: nat): (r: seq<real>)
    ensures |r| == n
    ensures forall i :: 0 <= i < n ==> r[i] == v
  {
    seq(n, _ => v)
  }

  /** When each of the `slots` servers is next free: idle ones now, and of an
      oversubscribed lane only the last `slots` completions count. */
  ghost function Servers(running: seq<real>, slots: nat, now: real): (a: seq<real>)
    ensures |a| == slots
    decreases |running|
  {
    if |running| <= slots then running + Repeat(now, slots - |running|)
    else Servers(Without(running, Earliest(running)), slots, now)
  }

  ghost predicate NotBefore(running: seq<real>, now: real) {
    forall i :: 0 <= i < |running| ==> running[i] >= now
  }

  ghost predicate InTime(w: Wait, horizon: real) {
    w.At? && w.t <= horizon
  }

  lemma {:induction false} ServersAnyClock(running: seq<real>, slots: nat, t1: real, t2: real)
    requires |running| >= slots
    ensures Servers(running, slots, t1) == Servers(running, slots, t2)
    decreases |running|
  {
    if |running| > slots {
      ServersAnyClock(Without(running, Earliest(running)), slots, t1, t2);
    } else {
      assert Repeat(t1, 0) == Repeat(t2, 0) == [];
    }
  }

  /** Starting one request on an idle slot moves that slot's free time by one service. */
  lemma DispatchStep(running: seq<real>, slots: nat, now: real, service: real, horizon: real)
    requires service > 0.0 && NotBefore(running, now) && |running| < slots
    ensures NotBefore(running + [now + service], now)
    ensures TotalStarts(Servers(running + [now + service], slots, now), service, horizon)
         == if now <= horizon then TotalStarts(Servers(running, slots, now), service, horizon) - 1 else 0
    ensures TotalStarts(Servers(running, slots, now), service, horizon) >= 1 <==> now <= horizon
  {
    var n := |running|;
    var servers := Servers(running, slots, now);
    var servers' := Servers(running + [now + service], slots, now);
    assert servers[n] == now;
    assert servers' == servers[n := now + service];
    TotalStartsUpdate(servers, n, now + service, service, horizon);
    StartsAfterService(now, service, horizon);
    TotalStartsZero(servers, service, horizon);
    TotalStartsZero(servers', service, horizon);
  }

  /** Waiting for the next completion changes nothing about the servers' free times. */
  lemma CompletionStep(running: seq<real>, slots: nat, now: real, service: real, horizon: real)
    requires service > 0.0 && NotBefore(running, now) && |running| >= slots > 0
    ensures var j := Earliest(running);
            && running[j] >= now
            && NotBefore(Without(running, j), running[j])
            && TotalStarts(Servers(Without(running, j), slots, running[j]), service, horizon)
               == TotalStarts(Servers(running, slots, now), service, horizon)
  {
    var j := Earliest(running);
    var rest, c := Without(running, j), running[j];
    if |running| > slots {
      ServersAnyClock(rest, slots, now, c);
    } else {
      assert Servers(running, slots, now) == running;
      assert Servers(rest, slots, c) == rest + [c];
      TotalStartsRemove(running, j, service, horizon);
      TotalStartsConcat(rest, [c], service, horizon);
      assert [c][..0] == [];
    }
  }

  /** The simulated start is in time exactly when the closed-form count says so. */
  lemma {:induction false} SimStartInTime(
    running: seq<real>, slots: nat, now: real, service: real, k: nat, horizon: real)
    requires service > 0.0 && slots > 0 && NotBefore(running, now)
    ensures InTime(SimStart(running, slots, now, service, k), horizon)
       <==> TotalStarts(Servers(running, slots, now), service, horizon) >= k + 1
    decreases k, |running|
  {
    if |running| < slots {
      DispatchStep(running, slots, now, service, horizon);
      if k > 0 {
        SimStartInTime(running + [now + service], slots, now, service, k - 1, horizon);
      }
    } else {
      CompletionStep(running, slots, now, service, horizon);
      var j := Earliest(running);
      SimStartInTime(Without(running, j), slots, running[j], service, k, horizon);
    }
  }

  /** Main result: the dispatcher simulated event by event starts request `k` at exactly
      the time the earliest-free-server schedule gives it, also when oversubscribed. */
  lemma SimulationIsGreedy(running: seq<real>, slots: nat, now: real, service: real, k: nat)
    requires service > 0.0 && slots > 0 && NotBefore(running, now)
    ensures SimStart(running, slots, now, service, k)
         == At(GreedyStart(Servers(running, slots, now), service, k))
  {
    var servers := Servers(running, slots, now);
    var g := GreedyStart(servers, service, k);
    SimStartInTime(running, slots, now, service, k, g);
    GreedyStartInTime(servers, service, k, g);
    var t := SimStart(running, slots, now, service, k).t;
    SimStartInTime(running, slots, now, service, k, t);
    GreedyStartInTime(servers, service, k, t);
  }

  /** With no slot at all the simulated dispatcher never starts anything. */
  lemma {:induction false} NoSlotsNeverStarts(running: seq<real>, now: real, service: real, k: nat)
    ensures SimStart(running, 0, now, service, k) == Never
    decreases |running|
  {
    if running != [] {
      var j := Earliest(running);
      NoSlotsNeverStarts(Without(running, j), MaxR(now, running[j]), service, k);
    }
  }

  /** The order in which the holders are listed is irrelevant. */
  lemma {:induction false} SimStartPermutation(a: seq<real>, b: seq<real>, slots: nat, now: real, service: real, k: nat)
    requires multiset(a) == multiset(b)
    ensures SimStart(a, slots, now, service, k) == SimStart(b, slots, now, service, k)
    decreases k, |a|
  {
    assert |a| == |multiset(a)| == |multiset(b)| == |b|;
    if |a| < slots {
      if k > 0 {
        SimStartPermutation(a + [now + service], b + [now + service], slots, now, service, k - 1);
      }
    } else if a != [] {
      var i, j := Earliest(a), Earliest(b);
      assert a[i] in multiset(b) && b[j] in multiset(a);
      assert a[i] == b[j];
      WithoutMultiset(a, i);
      WithoutMultiset(b, j);
      SimStartPermutation(Without(a, i), Without(b, j), slots, MaxR(now, a[i]), service, k);
    }
  }

  lemma WithoutMultiset(a: seq<real>, j: nat)
    requires j < |a|
    ensures multiset(Without(a, j)) == multiset(a) - multiset{a[j]}
  {
    assert a == a[..j] + [a[j]] + a[j + 1..];
  }
}
