/**
 Token-work balancing over a pool of accounts, with round-robin tie-breaking.
 */
module Balancer {
  import opened Common

  datatype Account = Account(work: int, pending: int, tokens: int, attempts: int, estimated: int, turn: int)

  const NEW := Account(0, 0, 0, 0, 0, 0)

  /** A ticket remembers its account and what it was estimated at. */
  datatype Ticket = Ticket(account: string, estimate: int, done: bool)

  /** Reported token counts; those that are absent or not positive do not count. */
  datatype Usage = Usage(input: int, cacheRead: int, cacheCreation: int, output: int) {
    predicate NoneNegative() {
      input >= 0 && cacheRead >= 0 && cacheCreation >= 0 && output >= 0
    }
  }

  /** Members in dictionary order, each with its bearer. */
  datatype State = State(accounts: map<string, Account>, members: seq<(string, string)>, turn: int, measured: int,
                         tokens: int, floor: int, tickets: seq<Ticket>)

  const EMPTY := State(map[], [], 0, 0, 0, 0, [])

  function Names(members: seq<(string, string)>): (r: set<string>)
    ensures forall i :: 0 <= i < |members| ==> members[i].0 in r
  {
    set i | 0 <= i < |members| :: members[i].0
  }

  function Quantum(s: State): int {
    if s.measured > 0 then MaxI(1, s.tokens / s.measured) else 1024
  }

  function Key(s: State, name: string, queued: int): (int, int) {
    if name !in s.accounts then (s.floor + queued * Quantum(s), 0)
    else
      var a := s.accounts[name];
      var work := if name in Names(s.members) then a.work else MaxI(a.work, s.floor);
      (work + a.pending + queued * Quantum(s), a.turn)
  }

  /** The lightest account among the members that stay, if any does. */
  function Lightest(accounts: map<string, Account>, members: seq<(string, string)>, next: set<string>): Option<int> {
    if members == [] then None
    else
      var rest := Lightest(accounts, members[1..], next);
      var name := members[0].0;
      if name !in next || name !in accounts then rest
      else Some(if rest.None? then accounts[name].work else MinI(accounts[name].work, rest.value))
  }

  function FloorAfter(s: State, members: seq<(string, string)>): int {
    var lightest := Lightest(s.accounts, s.members, Names(members));
    if lightest.None? then s.floor else lightest.value
  }

  /** New members join at the floor, never below it. */
  function Joined(accounts: map<string, Account>, before: set<string>, members: seq<(string, string)>, floor: int)
    : (r: map<string, Account>)
    ensures r.Keys == accounts.Keys + Names(members)
    ensures forall k :: k in accounts ==> r[k] == accounts[k].(work := r[k].work)
    ensures forall k :: k in r && k !in accounts ==> r[k] == NEW.(work := r[k].work)
    ensures forall k :: k in r && (k in before || k !in Names(members)) && k in accounts ==> r[k] == accounts[k]
  {
    if members == [] then accounts
    else
      var name := members[|members| - 1].0;
      var rest := Joined(accounts, before, members[..|members| - 1], floor);
      var a := if name in rest then rest[name] else NEW;
      assert Names(members) == Names(members[..|members| - 1]) + {name};
      rest[name := if name in before then a else a.(work := MaxI(a.work, floor))]
  }

  /** The new members are in place and the turn is counted also when `name` is no account and the
      selection then fails. */
  function Selected(s: State, name: string, members: seq<(string, string)>): State {
    var floor := FloorAfter(s, members);
    var joined := Joined(s.accounts, Names(s.members), members, floor);
    var accounts := if name in joined then joined[name := joined[name].(turn := s.turn + 1)] else joined;
    State(accounts, members, s.turn + 1, s.measured, s.tokens, floor, s.tickets)
  }

  /** The first member with this bearer. */
  function Holder(members: seq<(string, string)>, bearer: string): (r: Option<string>)
    ensures r.Some? ==> exists i :: 0 <= i < |members| && members[i] == (r.value, bearer)
    ensures r.None? ==> forall i :: 0 <= i < |members| ==> members[i].1 != bearer
  {
    if members == [] then None
    else if members[0].1 == bearer then (assert members[0] == (members[0].0, bearer); Some(members[0].0))
    else
      var r := Holder(members[1..], bearer);
      assert r.Some? ==> exists i :: 0 <= i < |members| && members[i] == (r.value, bearer) by {
        if r.Some? {
          var i :| 0 <= i < |members[1..]| && members[1..][i] == (r.value, bearer);
          assert members[i + 1] == (r.value, bearer);
        }
      }
      r
  }

  function Begin(s: State, bearer: string): State {
    var holder := Holder(s.members, bearer);
    if holder.None? || holder.value !in s.accounts then s
    else
      var a := s.accounts[holder.value];
      s.(accounts := s.accounts[holder.value := a.(pending := a.pending + Quantum(s), attempts := a.attempts + 1)],
         tickets := s.tickets + [Ticket(holder.value, Quantum(s), false)])
  }

  /** The tokens of a report: those of its counts that are positive. */
  function Counted(usage: Option<Usage>): (n: int)
    ensures n >= 0 && (usage.None? ==> n == 0)
    ensures usage.Some? && usage.value.NoneNegative() ==>
              n == usage.value.input + usage.value.cacheRead + usage.value.cacheCreation + usage.value.output
    ensures usage.Some? ==>
              n >= usage.value.input && n >= usage.value.cacheRead && n >= usage.value.cacheCreation && n >= usage.value.output
  {
    if usage.None? then 0
    else
      MaxI(0, usage.value.input) + MaxI(0, usage.value.cacheRead) + MaxI(0, usage.value.cacheCreation)
      + MaxI(0, usage.value.output)
  }

  function Finish(s: State, i: nat, usage: Option<Usage>, discarded: bool): State {
    if i >= |s.tickets| || s.tickets[i].done || s.tickets[i].account !in s.accounts then s
    else
      var t := s.tickets[i];
      var a := s.accounts[t.account].(pending := s.accounts[t.account].pending - t.estimate);
      var tickets := s.tickets[i := t.(done := true)];
      var n := Counted(usage);
      if discarded then
        s.(accounts := s.accounts[t.account := a.(attempts := a.attempts - 1)], tickets := tickets)
      else if n > 0 then
        s.(accounts := s.accounts[t.account := a.(work := a.work + n, tokens := a.tokens + n)],
           tickets := tickets, tokens := s.tokens + n, measured := s.measured + 1)
      else
        s.(accounts := s.accounts[t.account := a.(work := a.work + t.estimate, estimated := a.estimated + 1)], tickets := tickets)
  }

  datatype Event =
    | Select(name: string, members: seq<(string, string)>)
    | Start(bearer: string)
    | End(ticket: nat, usage: Option<Usage>, discarded: bool)

  function Step(s: State, e: Event): State {
    match e
    case Select(name, members) => Selected(s, name, members)
    case Start(bearer) => Begin(s, bearer)
    case End(i, usage, discarded) => Finish(s, i, usage, discarded)
  }

  ghost function Run(es: seq<Event>): State {
    if es == [] then EMPTY else Step(Run(es[..|es| - 1]), es[|es| - 1])
  }

  // ----------------------------------------------------------------- conservation

  /** Estimates of the tickets an account has open. */
  function Open(tickets: seq<Ticket>, name: string): int {
    if tickets == [] then 0
    else (if tickets[0].account == name && !tickets[0].done then tickets[0].estimate else 0) + Open(tickets[1..], name)
  }

  ghost function TotalTokens(accounts: map<string, Account>): int {
    if accounts == map[] then 0
    else
      var k :| k in accounts;
      accounts[k].tokens + TotalTokens(accounts - {k})
  }

  lemma {:induction false} TotalRemove(m: map<string, Account>, k: string)
    requires k in m
    ensures TotalTokens(m) == m[k].tokens + TotalTokens(m - {k})
    decreases |m|
  {
    var j :| j in m && TotalTokens(m) == m[j].tokens + TotalTokens(m - {j});
    if j != k {
      TotalRemove(m - {j}, k);
      TotalRemove(m - {k}, j);
      assert m - {j} - {k} == m - {k} - {j};
    }
  }

  lemma TotalUpdate(m: map<string, Account>, k: string, a: Account)
    ensures TotalTokens(m[k := a]) == TotalTokens(m) + a.tokens - (if k in m then m[k].tokens else 0)
  {
    TotalRemove(m[k := a], k);
    if k in m {
      TotalRemove(m, k);
      assert m[k := a] - {k} == m - {k};
    } else {
      assert m[k := a] - {k} == m;
    }
  }

  lemma {:induction false} TotalJoined(accounts: map<string, Account>, before: set<string>,
      members: seq<(string, string)>, floor: int)
    ensures TotalTokens(Joined(accounts, before, members, floor)) == TotalTokens(accounts)
  {
    if members != [] {
      var rest := Joined(accounts, before, members[..|members| - 1], floor);
      TotalJoined(accounts, before, members[..|members| - 1], floor);
      var name := members[|members| - 1].0;
      TotalUpdate(rest, name, Joined(accounts, before, members, floor)[name]);
    }
  }

  lemma {:induction false} OpenUpdate(tickets: seq<Ticket>, i: nat, name: string)
    requires i < |tickets| && !tickets[i].done
    ensures Open(tickets[i := tickets[i].(done := true)], name)
         == Open(tickets, name) - (if tickets[i].account == name then tickets[i].estimate else 0)
  {
    if i == 0 {
      assert tickets[0 := tickets[0].(done := true)][1..] == tickets[1..];
    } else {
      assert tickets[i := tickets[i].(done := true)][1..] == tickets[1..][i - 1 := tickets[i].(done := true)];
      OpenUpdate(tickets[1..], i - 1, name);
    }
  }

  lemma {:induction false} OpenAppend(tickets: seq<Ticket>, t: Ticket, name: string)
    ensures Open(tickets + [t], name) == Open(tickets, name) + Open([t], name)
  {
    if tickets == [] {
      assert tickets + [t] == [t];
    } else {
      assert (tickets + [t])[1..] == tickets[1..] + [t];
      OpenAppend(tickets[1..], t, name);
    }
  }

  lemma {:induction false} NoneOpen(tickets: seq<Ticket>, name: string)
    requires forall i :: 0 <= i < |tickets| ==> tickets[i].account != name
    ensures Open(tickets, name) == 0
  {
    if tickets != [] {
      NoneOpen(tickets[1..], name);
    }
  }

  ghost predicate Pendings(s: State) {
    && (forall k :: k in s.accounts ==> s.accounts[k].pending == Open(s.tickets, k))
    && (forall i :: 0 <= i < |s.tickets| ==> s.tickets[i].account in s.accounts)
  }

  lemma JoinedPendings(s: State, before: set<string>, members: seq<(string, string)>, floor: int, k: string)
    requires Pendings(s) && k in Joined(s.accounts, before, members, floor)
    ensures Joined(s.accounts, before, members, floor)[k].pending == Open(s.tickets, k)
  {
    if k !in s.accounts {
      NoneOpen(s.tickets, k);
    }
  }

  lemma SelectedAccounts(s: State, name: string, members: seq<(string, string)>, joined: map<string, Account>)
    requires joined == Joined(s.accounts, Names(s.members), members, FloorAfter(s, members))
    ensures Selected(s, name, members).accounts ==
      if name in joined then joined[name := joined[name].(turn := s.turn + 1)] else joined
    ensures Selected(s, name, members).tickets == s.tickets && Selected(s, name, members).tokens == s.tokens
  {
  }

  lemma TurnTotal(m: map<string, Account>, name: string, turn: int)
    requires name in m
    ensures TotalTokens(m[name := m[name].(turn := turn)]) == TotalTokens(m)
  {
    TotalUpdate(m, name, m[name].(turn := turn));
  }

  lemma SelectedTotal(s: State, name: string, members: seq<(string, string)>)
    ensures TotalTokens(Selected(s, name, members).accounts) == TotalTokens(s.accounts)
  {
    var joined := Joined(s.accounts, Names(s.members), members, FloorAfter(s, members));
    SelectedAccounts(s, name, members, joined);
    TotalJoined(s.accounts, Names(s.members), members, FloorAfter(s, members));
    if name in joined {
      TurnTotal(joined, name, s.turn + 1);
    }
  }

  lemma TurnPendings(s: State, joined: map<string, Account>, name: string, a: Account, k: string)
    requires name in joined && a == joined[name].(turn := a.turn) && k in joined
    requires joined[k].pending == Open(s.tickets, k)
    ensures joined[name := a][k].pending == Open(s.tickets, k)
  {
  }

  lemma SelectedPendings(s: State, name: string, members: seq<(string, string)>)
    requires Pendings(s)
    ensures Pendings(Selected(s, name, members))
  {
    var s' := Selected(s, name, members);
    var joined := Joined(s.accounts, Names(s.members), members, FloorAfter(s, members));
    SelectedAccounts(s, name, members, joined);
    forall k | k in s'.accounts ensures s'.accounts[k].pending == Open(s'.tickets, k) {
      JoinedPendings(s, Names(s.members), members, FloorAfter(s, members), k);
      if name in joined {
        TurnPendings(s, joined, name, joined[name].(turn := s.turn + 1), k);
      }
    }
  }

  lemma BeginPendings(s: State, bearer: string)
    requires Pendings(s)
    ensures Pendings(Begin(s, bearer)) && TotalTokens(Begin(s, bearer).accounts) == TotalTokens(s.accounts)
  {
    var s' := Begin(s, bearer);
    if s' != s {
      var t := s'.tickets[|s.tickets|];
      TotalUpdate(s.accounts, t.account, s'.accounts[t.account]);
      forall k | k in s'.accounts ensures s'.accounts[k].pending == Open(s'.tickets, k) {
        OpenAppend(s.tickets, t, k);
        assert [t][1..] == [];
      }
    }
  }

  lemma FinishPendings(s: State, i: nat, usage: Option<Usage>, discarded: bool)
    requires Pendings(s)
    ensures Pendings(Finish(s, i, usage, discarded))
    ensures TotalTokens(Finish(s, i, usage, discarded).accounts) - TotalTokens(s.accounts)
         == Finish(s, i, usage, discarded).tokens - s.tokens
  {
    var s' := Finish(s, i, usage, discarded);
    if s' != s {
      var name := s.tickets[i].account;
      TotalUpdate(s.accounts, name, s'.accounts[name]);
      forall k | k in s'.accounts ensures s'.accounts[k].pending == Open(s'.tickets, k) {
        OpenUpdate(s.tickets, i, k);
      }
    }
  }

  /** Main result: in any order of selections, starts and ends, each account's pending work is
      the estimates of its open tickets, and the total is the sum of the accounts' tokens. */
  lemma {:induction false} Conserved(es: seq<Event>)
    ensures Pendings(Run(es)) && Run(es).tokens == TotalTokens(Run(es).accounts)
  {
    if es != [] {
      var s, e := Run(es[..|es| - 1]), es[|es| - 1];
      Conserved(es[..|es| - 1]);
      match e
      case Select(name, members) =>
        SelectedPendings(s, name, members);
        SelectedTotal(s, name, members);
      case Start(bearer) => BeginPendings(s, bearer);
      case End(i, usage, discarded) => FinishPendings(s, i, usage, discarded);
    }
  }

  /** Every member has an account, as a begin takes for granted. */
  lemma {:induction false} MembersHaveAccounts(es: seq<Event>)
    ensures forall i :: 0 <= i < |Run(es).members| ==> Run(es).members[i].0 in Run(es).accounts
  {
    if es != [] {
      var s, e := Run(es[..|es| - 1]), es[|es| - 1];
      MembersHaveAccounts(es[..|es| - 1]);
      match e
      case Select(name, members) =>
        var joined := Joined(s.accounts, Names(s.members), members, FloorAfter(s, members));
        SelectedAccounts(s, name, members, joined);
        assert Names(members) <= joined.Keys;
      case Start(bearer) =>
      case End(i, usage, discarded) =>
    }
  }

  lemma TicketsKept(s: State, e: Event, i: nat)
    requires i < |s.tickets| && s.tickets[i].done
    ensures i < |Step(s, e).tickets| && Step(s, e).tickets[i] == s.tickets[i]
  {
    match e
    case Select(name, members) => assert Selected(s, name, members).tickets == s.tickets;
    case Start(bearer) =>
    case End(j, usage, discarded) =>
  }

  /** A finished ticket is never charged again, whatever happens in between. */
  lemma {:induction false} ChargedOnce(s: State, es: seq<Event>, i: nat, usage: Option<Usage>, discarded: bool)
    requires i < |s.tickets| && s.tickets[i].done
    ensures var s' := After(s, es);
            i < |s'.tickets| && s'.tickets[i] == s.tickets[i] && Finish(s', i, usage, discarded) == s'
  {
    if es != [] {
      ChargedOnce(s, es[..|es| - 1], i, usage, discarded);
      TicketsKept(After(s, es[..|es| - 1]), es[|es| - 1], i);
    }
  }

  ghost function After(s: State, es: seq<Event>): State {
    if es == [] then s else Step(After(s, es[..|es| - 1]), es[|es| - 1])
  }

  // ------------------------------------------------------------------ who joins where

  /** A member of this name that stays a member and has an account. */
  ghost predicate Stays(s: State, members: seq<(string, string)>, name: string) {
    name in Names(s.members) && name in Names(members) && name in s.accounts
  }

  lemma {:induction false} LightestIsLeast(accounts: map<string, Account>, members: seq<(string, string)>, next: set<string>)
    ensures var l := Lightest(accounts, members, next);
            && (forall i :: 0 <= i < |members| && members[i].0 in next && members[i].0 in accounts ==>
                  l.Some? && l.value <= accounts[members[i].0].work)
            && (l.Some? ==> exists i :: 0 <= i < |members| && members[i].0 in next && members[i].0 in accounts
                                        && l.value == accounts[members[i].0].work)
  {
    if members != [] {
      var rest := members[1..];
      LightestIsLeast(accounts, rest, next);
      forall i | 1 <= i < |members| ensures members[i] == rest[i - 1] {}
      var l, r := Lightest(accounts, members, next), Lightest(accounts, rest, next);
      if l.Some? && !(members[0].0 in next && members[0].0 in accounts && l.value == accounts[members[0].0].work) {
        assert l == r;
        var i :| 0 <= i < |rest| && rest[i].0 in next && rest[i].0 in accounts && r.value == accounts[rest[i].0].work;
        assert members[i + 1] == rest[i];
      }
    }
  }

  /** The floor is the least work among the members that stay; it is left alone if none does. */
  lemma FloorIsLeast(s: State, members: seq<(string, string)>)
    ensures forall k :: Stays(s, members, k) ==> FloorAfter(s, members) <= s.accounts[k].work
    ensures (exists k :: Stays(s, members, k)) ==>
              exists k :: Stays(s, members, k) && FloorAfter(s, members) == s.accounts[k].work
    ensures (forall k :: !Stays(s, members, k)) ==> FloorAfter(s, members) == s.floor
  {
    LightestIsLeast(s.accounts, s.members, Names(members));
    var l := Lightest(s.accounts, s.members, Names(members));
    forall k | Stays(s, members, k) ensures l.Some? && l.value <= s.accounts[k].work {
      var i :| 0 <= i < |s.members| && s.members[i].0 == k;
    }
    if l.Some? {
      var i :| 0 <= i < |s.members| && s.members[i].0 in Names(members) && s.members[i].0 in s.accounts
               && l.value == s.accounts[s.members[i].0].work;
      assert Stays(s, members, s.members[i].0);
    }
  }

  /** An account that was no member is as it was, or was raised to the floor. */
  lemma {:induction false} RaisedOrNot(accounts: map<string, Account>, before: set<string>,
      members: seq<(string, string)>, floor: int, k: string, was: int, joined: map<string, Account>)
    requires k !in before && was == (if k in accounts then accounts[k].work else 0)
    requires joined == Joined(accounts, before, members, floor)
    ensures k in joined ==> joined[k].work == was || joined[k].work == MaxI(was, floor)
  {
    if members != [] {
      var front := members[..|members| - 1];
      RaisedOrNot(accounts, before, front, floor, k, was, Joined(accounts, before, front, floor));
    }
  }

  lemma LastJoins(accounts: map<string, Account>, before: set<string>, members: seq<(string, string)>, floor: int,
      k: string, was: int, joined: map<string, Account>)
    requires members != [] && k == members[|members| - 1].0 && k !in before
    requires was == (if k in accounts then accounts[k].work else 0) && joined == Joined(accounts, before, members, floor)
    ensures k in joined && joined[k].work == MaxI(was, floor)
  {
    var front := members[..|members| - 1];
    RaisedOrNot(accounts, before, front, floor, k, was, Joined(accounts, before, front, floor));
  }

  lemma OneMoreJoins(accounts: map<string, Account>, before: set<string>, members: seq<(string, string)>, floor: int,
      k: string, rest: map<string, Account>, joined: map<string, Account>)
    requires members != [] && k != members[|members| - 1].0
    requires rest == Joined(accounts, before, members[..|members| - 1], floor)
    requires joined == Joined(accounts, before, members, floor)
    ensures k in rest ==> k in joined && joined[k] == rest[k]
  {}

  lemma {:induction false} JoinedWork(accounts: map<string, Account>, before: set<string>, members: seq<(string, string)>,
      floor: int, i: nat, k: string, was: int, joined: map<string, Account>)
    requires i < |members| && k == members[i].0 && k !in before
    requires was == (if k in accounts then accounts[k].work else 0) && joined == Joined(accounts, before, members, floor)
    ensures k in joined && joined[k].work == MaxI(was, floor)
  {
    var n := |members| - 1;
    if k == members[n].0 {
      LastJoins(accounts, before, members, floor, k, was, joined);
    } else {
      var rest := Joined(accounts, before, members[..n], floor);
      JoinedWork(accounts, before, members[..n], floor, i, k, was, rest);
      OneMoreJoins(accounts, before, members, floor, k, rest, joined);
    }
  }

  /** Main result: whoever joins starts no lighter than the lightest member that stays, and no heavier than
      that unless it already was; whoever was a member keeps its work. */
  lemma JoinsAtTheFloor(s: State, name: string, members: seq<(string, string)>, k: string)
    requires k in Names(members)
    ensures var s' := Selected(s, name, members); var was := if k in s.accounts then s.accounts[k].work else 0;
            && k in s'.accounts
            && (k !in Names(s.members) ==> s'.accounts[k].work == MaxI(was, s'.floor))
            && (k in Names(s.members) ==> s'.accounts[k].work == was)
            && s'.floor == FloorAfter(s, members)
  {
    var floor := FloorAfter(s, members);
    var joined := Joined(s.accounts, Names(s.members), members, floor);
    SelectedAccounts(s, name, members, joined);
    if k !in Names(s.members) {
      var i :| 0 <= i < |members| && members[i].0 == k;
      JoinedWork(s.accounts, Names(s.members), members, floor, i, k, if k in s.accounts then s.accounts[k].work else 0, joined);
    } else if k !in s.accounts {
      JoinedOld(s.accounts, Names(s.members), members, floor, k);
    }
  }

  lemma {:induction false} JoinedOld(accounts: map<string, Account>, before: set<string>, members: seq<(string, string)>,
      floor: int, k: string)
    requires k in before && k !in accounts
    ensures k in Joined(accounts, before, members, floor) ==> Joined(accounts, before, members, floor)[k] == NEW
  {
    if members != [] {
      JoinedOld(accounts, before, members[..|members| - 1], floor, k);
    }
  }

  /** No account's last turn is later than the count of turns. */
  lemma {:induction false} TurnsBounded(es: seq<Event>)
    ensures forall k :: k in Run(es).accounts ==> Run(es).accounts[k].turn <= Run(es).turn
    ensures Run(es).turn >= 0
  {
    if es != [] {
      var s, e := Run(es[..|es| - 1]), es[|es| - 1];
      TurnsBounded(es[..|es| - 1]);
      match e
      case Select(name, members) =>
        SelectedAccounts(s, name, members, Joined(s.accounts, Names(s.members), members, FloorAfter(s, members)));
      case Start(bearer) =>
      case End(i, usage, discarded) =>
    }
  }

  /** Main result: in any order of events, whoever was just selected is last in turn: among members that
      weigh the same, everybody else comes before it. */
  lemma SelectedGoesLast(es: seq<Event>, name: string, members: seq<(string, string)>, k: string)
    ensures var s' := Selected(Run(es), name, members);
            name in s'.accounts && k in s'.accounts && k != name ==> s'.accounts[k].turn < s'.accounts[name].turn
  {
    var s := Run(es);
    TurnsBounded(es);
    SelectedAccounts(s, name, members, Joined(s.accounts, Names(s.members), members, FloorAfter(s, members)));
  }

  lemma {:induction false} MeasuredTokens(es: seq<Event>)
    ensures 0 <= Run(es).measured <= Run(es).tokens
  {
    if es != [] {
      MeasuredTokens(es[..|es| - 1]);
      match es[|es| - 1]
      case Select(name, members) =>
      case Start(bearer) =>
      case End(i, usage, discarded) =>
    }
  }

  /** A request of unknown cost is priced at the average measured one, rounded down; before anything was
      measured, at 1024 tokens. */
  lemma QuantumIsAverage(es: seq<Event>, s: State)
    requires s == Run(es)
    ensures s.measured == 0 ==> Quantum(s) == 1024
    ensures s.measured > 0 ==> 1 <= Quantum(s) && Quantum(s) * s.measured <= s.tokens < (Quantum(s) + 1) * s.measured
  {
    MeasuredTokens(es);
    AverageQuantum(s);
  }

  lemma AverageQuantum(s: State)
    requires 0 <= s.measured <= s.tokens
    ensures s.measured == 0 ==> Quantum(s) == 1024
    ensures s.measured > 0 ==> 1 <= Quantum(s) && Quantum(s) * s.measured <= s.tokens < (Quantum(s) + 1) * s.measured
  {
    if s.measured > 0 {
      Average(s.tokens, s.measured, Quantum(s));
    }
  }

  lemma Average(tokens: int, measured: int, q: int)
    requires 0 < measured <= tokens && q == MaxI(1, tokens / measured)
    ensures 1 <= q && q * measured <= tokens < (q + 1) * measured
  {
    var d := tokens / measured;
    assert tokens == d * measured + tokens % measured;
    NonPositive(d, measured);
  }

  lemma NonPositive(d: int, n: int)
    requires n > 0
    ensures d <= 0 ==> d * n <= 0
  {}

  /** Main result: in any order of events a member is ranked by the work it was charged, the estimates of
      its open tickets and what its queue would cost; an account outside the pool by at least the floor. */
  lemma RankedByLoad(es: seq<Event>, s: State, name: string, queued: int)
    requires s == Run(es)
    ensures name in s.accounts && name in Names(s.members) ==>
              Key(s, name, queued)
              == (s.accounts[name].work + Open(s.tickets, name) + queued * Quantum(s), s.accounts[name].turn)
    ensures name !in Names(s.members) ==> Key(s, name, queued).0 >= s.floor + Open(s.tickets, name) + queued * Quantum(s)
  {
    Conserved(es);
    if name !in s.accounts {
      NoneOpen(s.tickets, name);
    }
  }

  // --------------------------------------------------------------------- fairness

  predicate Least(s: State, name: string) {
    && name in Names(s.members)
    && forall m :: m in Names(s.members) ==>
         Key(s, name, 0).0 < Key(s, m, 0).0 || (Key(s, name, 0).0 == Key(s, m, 0).0 && Key(s, name, 0).1 <= Key(s, m, 0).1)
  }

  /** Every member is an account with its own bearer. */
  ghost predicate Distinguished(s: State) {
    && (forall i :: 0 <= i < |s.members| ==> s.members[i].0 in s.accounts)
    && (forall i, j :: 0 <= i < j < |s.members| ==> s.members[i].0 != s.members[j].0 && s.members[i].1 != s.members[j].1)
  }

  /** Nothing is in flight and no two members are further apart than `cap`. */
  ghost predicate Even(s: State, cap: int) {
    && (forall k :: k in s.accounts ==> s.accounts[k].pending == 0)
    && (forall j, k :: j in Names(s.members) && k in Names(s.members) && j in s.accounts && k in s.accounts ==>
          s.accounts[j].work - s.accounts[k].work <= cap)
  }

  /** One request served on its own: selected, begun and finished. */
  function Serve(s: State, i: nat, usage: Option<Usage>, discarded: bool): State
    requires i < |s.members|
  {
    var begun := Begin(Selected(s, s.members[i].0, s.members), s.members[i].1);
    Finish(begun, |begun.tickets| - 1, usage, discarded)
  }

  lemma {:induction false} JoinedSame(accounts: map<string, Account>, members: seq<(string, string)>,
      whole: set<string>, floor: int)
    requires forall i :: 0 <= i < |members| ==> members[i].0 in accounts && members[i].0 in whole
    ensures Joined(accounts, whole, members, floor) == accounts
  {
    if members != [] {
      JoinedSame(accounts, members[..|members| - 1], whole, floor);
    }
  }

  lemma {:induction false} HolderIs(members: seq<(string, string)>, i: nat)
    requires i < |members| && forall j :: 0 <= j < |members| && j != i ==> members[j].1 != members[i].1
    ensures Holder(members, members[i].1) == Some(members[i].0)
  {
    if i > 0 {
      assert members[0].1 != members[i].1;
      HolderIs(members[1..], i - 1);
    }
  }

  /** What a request served on its own is charged. */
  function Cost(s: State, usage: Option<Usage>, discarded: bool): (n: int)
    ensures n >= 0
  {
    if discarded then 0 else if Counted(usage) > 0 then Counted(usage) else Quantum(s)
  }

  /** One account is charged, and nothing else about the accounts changes. */
  ghost predicate Billed(s: State, s': State, name: string, cost: int) {
    && s'.members == s.members && name in s.accounts && name in s'.accounts
    && s'.accounts == s.accounts[name := s'.accounts[name]]
    && s'.accounts[name].work == s.accounts[name].work + cost
    && s'.accounts[name].pending == s.accounts[name].pending
  }

  lemma ServeStages(s: State, i: nat, usage: Option<Usage>, discarded: bool, s1: State, s2: State, s3: State)
    requires Distinguished(s) && i < |s.members|
    requires s1 == Selected(s, s.members[i].0, s.members) && s2 == Begin(s1, s.members[i].1) && s2.tickets != []
    requires s3 == Finish(s2, |s2.tickets| - 1, usage, discarded)
    ensures Billed(s, s3, s.members[i].0, Cost(s, usage, discarded))
  {
    var name := s.members[i].0;
    SelectedAlone(s, i, s1);
    StillDistinguished(s, s1);
    BeginAlone(s1, i, name, s2);
    FinishAlone(s1, s2, name, usage, discarded, s3);
    Together(s, s1, s3, name, Cost(s, usage, discarded));
  }

  /** Serving one request alone changes the work of one account, by its charge, and leaves
      nothing pending that was not pending before. */
  lemma ServeEffect(s: State, i: nat, usage: Option<Usage>, discarded: bool)
    requires Distinguished(s) && i < |s.members|
    ensures Billed(s, Serve(s, i, usage, discarded), s.members[i].0, Cost(s, usage, discarded))
  {
    var s1 := Selected(s, s.members[i].0, s.members);
    var s2 := Begin(s1, s.members[i].1);
    var s3 := Finish(s2, |s2.tickets| - 1, usage, discarded);
    ServeStages(s, i, usage, discarded, s1, s2, s3);
    assert Serve(s, i, usage, discarded) == s3;
  }

  lemma Together(s: State, s1: State, s3: State, name: string, cost: int)
    requires name in s.accounts && s1.members == s.members
    requires s1.accounts == s.accounts[name := s.accounts[name].(turn := s.turn + 1)] && Billed(s1, s3, name, cost)
    ensures Billed(s, s3, name, cost)
  {
  }

  lemma StillDistinguished(s: State, s1: State)
    requires Distinguished(s) && s1.members == s.members && s1.accounts.Keys == s.accounts.Keys
    ensures Distinguished(s1)
  {
  }

  lemma BeginAlone(s1: State, i: nat, name: string, s2: State)
    requires Distinguished(s1) && i < |s1.members| && name == s1.members[i].0 && s2 == Begin(s1, s1.members[i].1)
    ensures var a := s1.accounts[name];
            s2 == s1.(accounts := s1.accounts[name := a.(pending := a.pending + Quantum(s1), attempts := a.attempts + 1)],
                      tickets := s1.tickets + [Ticket(name, Quantum(s1), false)])
  {
    HolderIs(s1.members, i);
  }

  lemma SelectedAlone(s: State, i: nat, s1: State)
    requires Distinguished(s) && i < |s.members| && s1 == Selected(s, s.members[i].0, s.members)
    ensures var name := s.members[i].0;
            s1 == s.(accounts := s.accounts[name := s.accounts[name].(turn := s.turn + 1)],
                     turn := s.turn + 1, floor := FloorAfter(s, s.members))
  {
    JoinedSame(s.accounts, s.members, Names(s.members), FloorAfter(s, s.members));
  }

  lemma FinishAlone(s1: State, s2: State, name: string, usage: Option<Usage>, discarded: bool, s3: State)
    requires name in s1.accounts && s2.tickets == s1.tickets + [Ticket(name, Quantum(s1), false)] && s2.members == s1.members
    requires var a := s1.accounts[name];
             s2.accounts == s1.accounts[name := a.(pending := a.pending + Quantum(s1), attempts := a.attempts + 1)]
    requires s3 == Finish(s2, |s2.tickets| - 1, usage, discarded)
    ensures Billed(s1, s3, name, Cost(s1, usage, discarded))
  {
    assert s2.tickets[|s2.tickets| - 1] == Ticket(name, Quantum(s1), false);
  }

  /** Charging the lightest by at most `cap` keeps everyone within `cap`. */
  lemma ChargeLightest(s: State, s': State, name: string, charge: int, cap: int)
    requires Even(s, cap) && 0 <= charge <= cap && Billed(s, s', name, charge)
    requires forall k :: k in Names(s.members) && k in s.accounts ==> s.accounts[name].work <= s.accounts[k].work
    ensures Even(s', cap)
  {
  }

  lemma LeastWork(s: State, name: string, k: string)
    requires Least(s, name) && name in s.accounts && k in Names(s.members) && k in s.accounts
    requires s.accounts[name].pending == 0 && s.accounts[k].pending == 0
    ensures s.accounts[name].work <= s.accounts[k].work
  {
    assert Key(s, name, 0).0 <= Key(s, k, 0).0;
  }

  lemma ServeKeeps(s: State, i: nat, usage: Option<Usage>, discarded: bool, cap: int)
    requires Distinguished(s) && Even(s, cap) && i < |s.members| && Least(s, s.members[i].0)
    requires Cost(s, usage, discarded) <= cap
    ensures Distinguished(Serve(s, i, usage, discarded)) && Even(Serve(s, i, usage, discarded), cap)
  {
    ServeEffect(s, i, usage, discarded);
    var s', name := Serve(s, i, usage, discarded), s.members[i].0;
    forall k | k in Names(s.members) && k in s.accounts ensures s.accounts[name].work <= s.accounts[k].work {
      LeastWork(s, name, k);
    }
    ChargeLightest(s, s', name, s'.accounts[name].work - s.accounts[name].work, cap);
  }

  /** One request: which member it went to and what it cost. */
  datatype Request = Request(member: nat, usage: Option<Usage>, discarded: bool)

  ghost function Served(s: State, rs: seq<Request>): State {
    if rs == [] then s
    else
      var t := Served(s, rs[..|rs| - 1]);
      var r := rs[|rs| - 1];
      if r.member < |t.members| then Serve(t, r.member, r.usage, r.discarded) else t
  }

  /** Every request goes to a least member and costs at most `cap`. */
  ghost predicate Greedy(s: State, rs: seq<Request>, cap: int) {
    rs == [] || (
      var t, r := Served(s, rs[..|rs| - 1]), rs[|rs| - 1];
      && Greedy(s, rs[..|rs| - 1], cap)
      && r.member < |t.members| && Least(t, t.members[r.member].0)
      && Cost(t, r.usage, r.discarded) <= cap)
  }

  /** Main result: when each request goes to the least loaded member and ends before the next
      begins, members that started equal never drift further apart than the largest charge. */
  lemma {:induction false} NeverFurtherApart(s: State, rs: seq<Request>, cap: int)
    requires Distinguished(s) && Even(s, 0) && cap >= 0 && Greedy(s, rs, cap)
    ensures Distinguished(Served(s, rs)) && Even(Served(s, rs), cap)
  {
    if rs != [] {
      var rest := rs[..|rs| - 1];
      NeverFurtherApart(s, rest, cap);
      var r := rs[|rs| - 1];
      ServeKeeps(Served(s, rest), r.member, r.usage, r.discarded, cap);
    }
  }

  // ------------------------------------------------------------------- the object

  class BalancedRoundRobin {
    var accounts: map<string, Account>
    var members: seq<(string, string)>
    var turn: int
    var measured: int
    var tokens: int
    var floor: int
    var tickets: seq<Ticket>

    ghost function View(): State
      reads this
    {
      State(accounts, members, turn, measured, tokens, floor, tickets)
    }

    constructor ()
      ensures View() == EMPTY
    {
      accounts, members, turn, measured, tokens, floor, tickets := map[], [], 0, 0, 0, 0, [];
    }

    /** A pure read: ranking spends nobody's turn. */
    method KeyOf(name: string, queued: int) returns (key: (int, int))
      ensures key == Key(View(), name, queued)
    {
      var quantum := if measured > 0 then MaxI(1, tokens / measured) else 1024;
      if name !in accounts {
        return (floor + queued * quantum, 0);
      }
      var a := accounts[name];
      var work := if name in Names(members) then a.work else MaxI(a.work, floor);
      return (work + a.pending + queued * quantum, a.turn);
    }

    /** Accounts for the next members; those that were no members join at the floor. */
    method Join(next: seq<(string, string)>) returns (joined: map<string, Account>)
      ensures joined == Joined(accounts, Names(members), next, floor)
    {
      joined := accounts;
      for i := 0 to |next|
        invariant joined == Joined(accounts, Names(members), next[..i], floor)
      {
        assert next[..i + 1][..i] == next[..i];
        var name := next[i].0;
        var a := if name in joined then joined[name] else NEW;
        joined := joined[name := if name in Names(members) then a else a.(work := MaxI(a.work, floor))];
      }
      assert next[..|next|] == next;
    }

    /** Fails, after the members and the turn have changed, if `name` is no account. */
    method MarkSelected(name: string, next: seq<(string, string)>) returns (ok: bool)
      modifies this
      ensures View() == Selected(old(View()), name, next)
      ensures ok <==> name in old(accounts) || name in Names(next)
    {
      var lightest := Lightest(accounts, members, Names(next));
      if lightest.Some? {
        floor := lightest.value;
      }
      assert floor == FloorAfter(old(View()), next);
      var joined := Join(next);
      ok := name in joined;
      SelectedAccounts(old(View()), name, next, joined);
      turn := turn + 1;
      members := next;
      accounts := if ok then joined[name := joined[name].(turn := turn)] else joined;
    }

    /** Open a ticket for the member that holds this bearer, if one does. */
    method BeginRequest(bearer: string) returns (ticket: Option<nat>)
      requires forall i :: 0 <= i < |members| ==> members[i].0 in accounts
      modifies this`accounts, this`tickets
      ensures View() == Begin(old(View()), bearer)
      ensures ticket == if Holder(members, bearer).None? then None else Some(|old(tickets)|)
    {
      var holder := Holder(members, bearer);
      if holder.None? {
        return None;
      }
      var quantum := if measured > 0 then MaxI(1, tokens / measured) else 1024;
      var a := accounts[holder.value];
      accounts := accounts[holder.value := a.(pending := a.pending + quantum, attempts := a.attempts + 1)];
      tickets := tickets + [Ticket(holder.value, quantum, false)];
      return Some(|tickets| - 1);
    }

    method FinishRequest(ticket: Option<nat>, usage: Option<Usage>, discarded: bool)
      requires ticket.Some? && ticket.value < |tickets| ==> tickets[ticket.value].account in accounts
      modifies this
      ensures View() == if ticket.None? then old(View()) else Finish(old(View()), ticket.value, usage, discarded)
    {
      if ticket.None? || ticket.value >= |tickets| || tickets[ticket.value].done {
        return;
      }
      var t := tickets[ticket.value];
      tickets := tickets[ticket.value := t.(done := true)];
      var a := accounts[t.account];
      a := a.(pending := a.pending - t.estimate);
      if discarded {
        accounts := accounts[t.account := a.(attempts := a.attempts - 1)];
        return;
      }
      var n := Counted(usage);
      if n > 0 {
        accounts := accounts[t.account := a.(work := a.work + n, tokens := a.tokens + n)];
        tokens := tokens + n;
        measured := measured + 1;
      } else {
        accounts := accounts[t.account := a.(work := a.work + t.estimate, estimated := a.estimated + 1)];
      }
    }
  }
}
