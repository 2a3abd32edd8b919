/**
 * The portal as its handlers are written: tables updated in place, one node
 * call after another. Every method is proved against its loop-free account in
 * `Handlers`.
 */
module PortalService {
  import opened Common
  import opened Plans
  import opened World
  import opened Credit
  import opened Handlers
  import opened Fleets
  import opened Ledger

  // ---------------------------------------------------------------- one more call

  /** Removing one more row is one more node call on what the earlier calls left. */
  lemma RemovedStep(f: Fleet, done: set<nat>, i: nat, env: Env)
    requires KeysDistinct(f.rows) && i < |f.rows| && i !in done && f.rows[i].active
    ensures var g, h := Removed(f, done, env), Removed(f, done + {i}, env);
      var (nodes, ok) := if Configured(f.rows[i].loc, env)
                         then RemovePeer(g.nodes, PeerOf(f.rows[i]), env.removes(f.rows[i].key)) else (g.nodes, false);
      && h.nodes == nodes
      && h.rows == (if ok then g.rows[i := g.rows[i].(active := false)] else g.rows)
      && h.rows[i].active == !ok
  {
    var g, h := Removed(f, done, env), Removed(f, done + {i}, env);
    var p := PeerOf(f.rows[i]);
    assert p in g.nodes <==> p in f.nodes by {
      forall j | j in done && j < |f.rows| ensures PeerOf(f.rows[j]) != p {
        assert f.rows[j].key != f.rows[i].key;
      }
    }
    RemovedNodesStep(f, done, i, env);
    assert forall j :: 0 <= j < |f.rows| && j != i ==> h.rows[j] == g.rows[j];
  }

  lemma RemovedNodesStep(f: Fleet, done: set<nat>, i: nat, env: Env)
    requires i < |f.rows|
    ensures Removed(f, done + {i}, env).nodes
         == if Effective(f, i, env) then Removed(f, done, env).nodes - {PeerOf(f.rows[i])} else Removed(f, done, env).nodes
  {
  }

  lemma RemovedNothing(f: Fleet, env: Env)
    ensures Removed(f, {}, env) == f
  {
  }

  lemma IssueKeepsKeys(f: Fleet, user: nat, kind: Kind, where: Loc, env: Env)
    requires KeysDistinct(f.rows) && forall i :: 0 <= i < |f.rows| ==> f.rows[i].key != env.key
    ensures KeysDistinct(Issue(f, user, kind, where, env).fleet.rows)
  {
    IssueLeaves(f, user, kind, where, env);
  }

  lemma RemovalKeepsKeys(f: Fleet, targets: set<nat>, env: Env)
    requires KeysDistinct(f.rows)
    ensures KeysDistinct(Removed(f, targets, env).rows)
  {
  }

  /** One turn of the issue loop. */
  lemma AttemptStep(f: Fleet, user: nat, kind: Kind, loc: Loc, env: Env, tried: set<Addr>, n: nat)
    requires n < ATTEMPTS && FindFree(UsedAddrs(f.rows, loc) + tried, PoolOf(kind)).Some?
    ensures var a := FindFree(UsedAddrs(f.rows, loc) + tried, PoolOf(kind)).value;
      var (nodes, outcome) := AddPeer(f.nodes, loc, env.key, a, env.adds(n));
      Attempt(f, user, kind, loc, env, tried, n) ==
        match outcome
        case Added => Issued(Fleet(f.rows + [Row(user, kind, loc, env.key, a, true)], nodes, f.hand), true)
        case NotAdded => Issued(Fleet(f.rows, nodes, f.hand), false)
        case AddressInUse => Attempt(f, user, kind, loc, env, tried + {a}, n + 1)
  {
  }

  /** The set of addresses to avoid, by name, so that a goal is unfolded only where it is used. */
  predicate Avoiding(t: set<Addr>, tried: set<Addr>) {
    t == tried
  }

  /** `goal` is what attempts `n`, `n + 1`, ... come to. */
  ghost predicate ComesTo(goal: Issued, f: Fleet, user: nat, kind: Kind, loc: Loc, env: Env, tried: set<Addr>, n: nat) {
    n <= ATTEMPTS && forall t :: Avoiding(t, tried) ==> goal == Attempt(f, user, kind, loc, env, t, n)
  }

  lemma OutOfAttempts(goal: Issued, f: Fleet, user: nat, kind: Kind, loc: Loc, env: Env, tried: set<Addr>)
    requires ComesTo(goal, f, user, kind, loc, env, tried, ATTEMPTS)
    ensures goal == Issued(f, false)
  {
    assert Avoiding(tried, tried);
  }

  function UpTo(targets: set<nat>, i: nat): set<nat> {
    set j | j in targets && j < i
  }

  ghost predicate AllConfirmed(f: Fleet, targets: set<nat>, env: Env) {
    forall i :: i in targets && i < |f.rows| ==> Confirmed(f, i, env)
  }

  lemma UpToZero(targets: set<nat>)
    ensures UpTo(targets, 0) == {}
  {
  }

  lemma UpToStep(f: Fleet, targets: set<nat>, done: set<nat>, i: nat, env: Env)
    requires i < |f.rows| && targets !! done
    ensures i !in UpTo(targets, i) && (i in targets ==> i !in done + UpTo(targets, i))
    ensures done + UpTo(targets, i + 1) == if i in targets then done + UpTo(targets, i) + {i} else done + UpTo(targets, i)
    ensures AllConfirmed(f, UpTo(targets, i + 1), env)
       <==> AllConfirmed(f, UpTo(targets, i), env) && (i in targets ==> Confirmed(f, i, env))
  {
  }

  /** The lapsed rows of users before `u`. */
  function DueBefore(due: set<nat>, rows: seq<Row>, u: nat): set<nat> {
    set i | i in due && i < |rows| && rows[i].user < u
  }

  function DueOf(due: set<nat>, rows: seq<Row>, u: nat): set<nat> {
    set i | i in due && i < |rows| && rows[i].user == u
  }

  lemma DueSplit(due: set<nat>, rows: seq<Row>, u: nat)
    ensures DueBefore(due, rows, u + 1) == DueBefore(due, rows, u) + DueOf(due, rows, u)
    ensures DueBefore(due, rows, u) !! DueOf(due, rows, u)
  {
  }

  /** The subscription sweep has come as far as user `u`. */
  ghost predicate SweptUpTo(s: State, env: Env, f: Fleet, users: seq<User>, u: nat) {
    && f == Removed(s.fleet, DueBefore(LapsedRows(s.users, s.fleet.rows, env.now), s.fleet.rows, u), env)
    && users == SweptUsers(s, env, u)
  }

  /** The users before `u` as the sweep leaves them, the others as they were. */
  ghost function SweptUsers(s: State, env: Env, u: nat): seq<User> {
    seq(|s.users|, v requires 0 <= v < |s.users| => if v < u then SubscriptionSweep(s, env).users[v] else s.users[v])
  }

  lemma SweepBegins(s: State, env: Env)
    ensures SweptUpTo(s, env, s.fleet, s.users, 0)
  {
  }

  lemma SweepSkips(s: State, env: Env, f: Fleet, users: seq<User>, u: nat)
    requires SweptUpTo(s, env, f, users, u) && u < |users| && !Lapsed(users[u], env.now)
    ensures SweptUpTo(s, env, f, users, u + 1)
  {
    var due := LapsedRows(s.users, s.fleet.rows, env.now);
    assert DueBefore(due, s.fleet.rows, u + 1) == DueBefore(due, s.fleet.rows, u);
    assert SweptUsers(s, env, u)[u] == s.users[u] == SubscriptionSweep(s, env).users[u];
    assert SweptUsers(s, env, u + 1) == SweptUsers(s, env, u);
  }

  lemma SweptOneMore(s: State, env: Env, u: nat, gone: bool)
    requires u < |s.users| && Lapsed(s.users[u], env.now) && gone == NoneActive(SubscriptionSweep(s, env).fleet.rows, u)
    ensures SweptUsers(s, env, u)[u] == s.users[u]
    ensures SweptUsers(s, env, u + 1)
         == if gone then SweptUsers(s, env, u)[u := s.users[u].(subscribed := false)] else SweptUsers(s, env, u)
  {
  }

  lemma SweepEnds(s: State, env: Env, f: Fleet, users: seq<User>)
    requires SweptUpTo(s, env, f, users, |users|)
    ensures f == SubscriptionSweep(s, env).fleet && users == SubscriptionSweep(s, env).users
  {
  }

  /** A lapsed user ends with no active device exactly when every one of their removals was confirmed. */
  lemma Verdict(s: State, env: Env, u: nat)
    requires u < |s.users| && Lapsed(s.users[u], env.now)
    ensures var due := LapsedRows(s.users, s.fleet.rows, env.now);
      NoneActive(Removed(s.fleet, due, env).rows, u) <==> AllConfirmed(s.fleet, DueOf(due, s.fleet.rows, u), env)
  {
  }

  /** A query on the present table selects what it would have selected before other users' removals. */
  lemma DueNow(s: State, env: Env, u: nat)
    requires u < |s.users| && Lapsed(s.users[u], env.now)
    ensures var due := LapsedRows(s.users, s.fleet.rows, env.now);
      ActiveOf(Removed(s.fleet, DueBefore(due, s.fleet.rows, u), env).rows, u) == DueOf(due, s.fleet.rows, u)
  {
  }

  function ActiveOf(rows: seq<Row>, u: nat): set<nat> {
    set i | 0 <= i < |rows| && rows[i].user == u && rows[i].active
  }

  lemma DueAppend(rewards: seq<Reward>, j: nat, u: nat, now: int)
    requires j < |rewards|
    ensures DueDays(rewards[..j + 1], u, now)
         == DueDays(rewards[..j], u, now) + if rewards[j].referrer == u && Due(rewards[j], now) then rewards[j].days else 0
  {
    assert rewards[..j + 1][..j] == rewards[..j];
  }

  lemma {:induction false} DueUnmarked(rewards: seq<Reward>, lucky: set<nat>, u: nat, now: int)
    requires u !in lucky
    ensures DueDays(Marked(rewards, lucky, now), u, now) == DueDays(rewards, u, now)
  {
    if rewards != [] {
      var short := rewards[..|rewards| - 1];
      DueUnmarked(short, lucky, u, now);
      assert Marked(rewards, lucky, now)[..|rewards| - 1] == Marked(short, lucky, now);
    }
  }

  /** Applying one more referrer's rewards, on top of those of `lucky`. */
  lemma OneMoreReferrer(users: seq<User>, rewards: seq<Reward>, lucky: set<nat>, u: nat, now: int)
    requires u !in lucky
    ensures Credited(Credited(users, rewards, lucky, now), Marked(rewards, lucky, now), {u}, now)
         == Credited(users, rewards, lucky + {u}, now)
    ensures Marked(Marked(rewards, lucky, now), {u}, now) == Marked(rewards, lucky + {u}, now)
  {
    DueUnmarked(rewards, lucky, u, now);
  }

  /** The first `j` rewards gone through for referrer `u`: how they stand, and the days given. */
  ghost function MarkedUpTo(rewards: seq<Reward>, u: nat, j: nat, now: int): (m: (seq<Reward>, nat))
    requires j <= |rewards|
    ensures |m.0| == |rewards|
  {
    if j == 0 then (rewards, 0)
    else
      var (m, days) := MarkedUpTo(rewards, u, j - 1, now);
      var r := rewards[j - 1];
      if r.referrer == u && Due(r, now) then (m[j - 1 := r.(applied := Some(now))], days + r.days) else (m, days)
  }

  lemma {:induction false} MarkedUpToAt(rewards: seq<Reward>, u: nat, j: nat, now: int)
    requires j <= |rewards|
    ensures var m := MarkedUpTo(rewards, u, j, now);
      && (forall k :: 0 <= k < |rewards| ==> m.0[k] == if k < j then Marked(rewards, {u}, now)[k] else rewards[k])
      && m.1 == DueDays(rewards[..j], u, now)
  {
    if j > 0 {
      MarkedUpToAt(rewards, u, j - 1, now);
      DueAppend(rewards, j - 1, u, now);
    }
  }

  lemma MarkedToTheEnd(rewards: seq<Reward>, u: nat, now: int)
    ensures MarkedUpTo(rewards, u, |rewards|, now) == (Marked(rewards, {u}, now), DueDays(rewards, u, now))
  {
    MarkedUpToAt(rewards, u, |rewards|, now);
    assert rewards[..|rewards|] == rewards;
    assert MarkedUpTo(rewards, u, |rewards|, now).0 == Marked(rewards, {u}, now);
  }

  lemma StillUnmarked(rewards: seq<Reward>, u: nat, j: nat, now: int)
    requires j < |rewards|
    ensures MarkedUpTo(rewards, u, j, now).0[j] == rewards[j]
  {
    MarkedUpToAt(rewards, u, j, now);
  }

  lemma CreditedOne(users: seq<User>, rewards: seq<Reward>, u: nat, now: int)
    requires u < |users|
    ensures Credited(users, rewards, {u}, now) == users[u := Extended(users[u], DueDays(rewards, u, now))]
  {
  }

  lemma CreditedNobody(users: seq<User>, rewards: seq<Reward>, now: int)
    ensures Credited(users, rewards, {}, now) == users && Marked(rewards, {}, now) == rewards
  {
  }

  /** Referrers with nothing due may be left out. */
  lemma OnlyOwnersMatter(users: seq<User>, rewards: seq<Reward>, live: set<nat>, lucky: set<nat>, now: int)
    requires lucky <= live
    requires forall i :: 0 <= i < |rewards| && Due(rewards[i], now) && rewards[i].referrer in live ==> rewards[i].referrer in lucky
    ensures Credited(users, rewards, lucky, now) == Credited(users, rewards, live, now)
    ensures Marked(rewards, lucky, now) == Marked(rewards, live, now)
  {
    forall u | 0 <= u < |users| && u in live && u !in lucky
      ensures Extended(users[u], DueDays(rewards, u, now)) == users[u]
    {
      NothingDue(rewards, u, now);
    }
  }

  class Portal {
    var clock: int
    var users: seq<User>
    var rows: seq<Row>
    var nodes: map<Peer, Addr>
    var payments: seq<Payment>
    var codes: map<string, Promo>
    var ledger: seq<Entry>
    var rewards: seq<Reward>
    var grants: seq<TrialGrant>
    /** The part of `nodes` made by hand; no method looks at it. */
    const hand: map<Peer, Addr>

    function Fleet(): Fleet
      reads this
    {
      World.Fleet(rows, nodes, hand)
    }

    function State(): State
      reads this
    {
      World.State(clock, users, Fleet(), payments, codes, ledger, rewards, grants)
    }

    ghost predicate Valid()
      reads this
    {
      KeysDistinct(rows)
    }

    /** The key pair of this call was never issued before. */
    ghost predicate Unissued(env: Env)
      reads this
    {
      forall i :: 0 <= i < |rows| ==> rows[i].key != env.key
    }

    constructor (peers: map<Peer, Addr>, now: int)
      ensures Valid() && State() == World.State(now, [], World.Fleet([], peers, peers), [], map[], [], [], [])
    {
      clock, users, rows, nodes, payments := now, [], [], peers, [];
      codes, ledger, rewards, grants := map[], [], [], [];
      hand := peers;
    }

    // -------------------------------------------------------------- provisioning

    method FindFreeIp(exclude: set<Addr>, pool: Pool, loc: Loc) returns (r: Option<Addr>)
      ensures r == FindFree(UsedAddrs(rows, loc) + exclude, pool)
    {
      var used := UsedAddrs(rows, loc) + exclude;
      var host := pool.first;
      while host <= pool.last
        invariant pool.first <= host
        invariant FindFree(used, pool) == FreeFrom(used, pool, host)
      {
        if Addr(pool.net, host) !in used {
          return Some(Addr(pool.net, host));
        }
        host := host + 1;
      }
      r := None;
    }

    method IssueConfig(user: nat, kind: Kind, where: Loc, env: Env) returns (ok: bool)
      requires Valid() && Unissued(env)
      modifies this`rows, this`nodes
      ensures Valid() && Fleet() == Issue(old(Fleet()), user, kind, where, env).fleet
      ensures ok == Issue(old(Fleet()), user, kind, where, env).ok
    {
      var loc := if kind == Trial then DE else where;
      IssueKeepsKeys(Fleet(), user, kind, where, env);
      if !Configured(loc, env) {
        return false;
      }
      ghost var goal := Issue(Fleet(), user, kind, where, env);
      assert ComesTo(goal, Fleet(), user, kind, loc, env, ListedAddrs(nodes, loc, env.listed), 0);
      ok := IssueAt(user, kind, loc, env, Fleet(), goal);
    }

    /** The loop of `issue_config`, at most ten attempts; `goal` is what it must come to. */
    method IssueAt(user: nat, kind: Kind, loc: Loc, env: Env, ghost f: Fleet, ghost goal: Issued) returns (ok: bool)
      requires f == Fleet() && ComesTo(goal, f, user, kind, loc, env, ListedAddrs(nodes, loc, env.listed), 0)
      modifies this`rows, this`nodes
      ensures Issued(Fleet(), ok) == goal
    {
      var tried := ListedAddrs(nodes, loc, env.listed);
      var n := 0;
      while n < ATTEMPTS
        invariant 0 <= n <= ATTEMPTS && Fleet() == f && ComesTo(goal, f, user, kind, loc, env, tried, n)
      {
        var done, issued, more := IssueOnce(user, kind, loc, env, tried, n, f, goal);
        if done {
          return issued;
        }
        tried, n := more, n + 1;
      }
      OutOfAttempts(goal, f, user, kind, loc, env, tried);
      ok := false;
    }

    /** One turn of the loop: it ends the issue, or leaves one more address to avoid. */
    method IssueOnce(user: nat, kind: Kind, loc: Loc, env: Env, tried: set<Addr>, n: nat, ghost f: Fleet, ghost goal: Issued)
      returns (done: bool, ok: bool, more: set<Addr>)
      requires n < ATTEMPTS && Fleet() == f && ComesTo(goal, f, user, kind, loc, env, tried, n)
      modifies this`rows, this`nodes
      ensures done ==> Issued(Fleet(), ok) == goal
      ensures !done ==> Fleet() == f && ComesTo(goal, f, user, kind, loc, env, more, n + 1)
    {
      done, ok, more := true, false, tried;
      assert Avoiding(tried, tried);
      var free, outcome := TryAddress(kind, loc, env, tried, n);
      if free.None? {
        return;
      }
      AttemptStep(f, user, kind, loc, env, tried, n);
      match outcome {
        case Added =>
          rows := rows + [Row(user, kind, loc, env.key, free.value, true)];
          ok := true;
        case NotAdded =>
        case AddressInUse =>
          done, more := false, tried + {free.value};
      }
    }

    /** One attempt: the least free address, and what the node says to it. */
    method TryAddress(kind: Kind, loc: Loc, env: Env, tried: set<Addr>, n: nat) returns (free: Option<Addr>, outcome: Outcome)
      modifies this`nodes
      ensures free == FindFree(UsedAddrs(rows, loc) + tried, PoolOf(kind))
      ensures if free.None? then nodes == old(nodes)
        else (nodes, outcome) == AddPeer(old(nodes), loc, env.key, free.value, env.adds(n))
      ensures outcome == AddressInUse ==> nodes == old(nodes)
    {
      outcome := NotAdded;
      free := FindFreeIp(tried, PoolOf(kind), loc);
      if free.Some? {
        var (after, said) := AddPeer(nodes, loc, env.key, free.value, env.adds(n));
        nodes, outcome := after, said;
      }
    }

    /** `remove_peer_for` on one active row, and the row closed once the node confirms. */
    method RemoveRow(i: nat, env: Env, ghost f: Fleet, ghost done: set<nat>) returns (ok: bool)
      requires i < |f.rows| && i !in done && KeysDistinct(f.rows) && f.rows[i].active
      requires Fleet() == Removed(f, done, env)
      modifies this`rows, this`nodes
      ensures Fleet() == Removed(f, done + {i}, env) && ok == Confirmed(f, i, env)
    {
      RemovedStep(f, done, i, env);
      var r := rows[i];
      if !Configured(r.loc, env) {
        return false;
      }
      var (after, confirmed) := RemovePeer(nodes, PeerOf(r), env.removes(r.key));
      nodes, ok := after, confirmed;
      if ok {
        rows := rows[i := r.(active := false)];
      }
    }

    /** The rows a query selected, removed one after the other, on top of those already `done`. */
    method RemoveRows(targets: set<nat>, env: Env, ghost f: Fleet, ghost done: set<nat>) returns (failures: nat)
      requires KeysDistinct(f.rows) && targets !! done && forall i :: i in targets ==> i < |f.rows| && f.rows[i].active
      requires Fleet() == Removed(f, done, env)
      modifies this`rows, this`nodes
      ensures Fleet() == Removed(f, done + targets, env)
      ensures failures == 0 <==> AllConfirmed(f, targets, env)
    {
      failures := 0;
      var i := 0;
      UpToZero(targets);
      assert done + UpTo(targets, 0) == done;
      while i < |rows|
        invariant 0 <= i <= |rows| == |f.rows|
        invariant Fleet() == Removed(f, done + UpTo(targets, i), env)
        invariant failures == 0 <==> AllConfirmed(f, UpTo(targets, i), env)
      {
        var ok := RemoveIfDue(i, targets, env, f, done);
        failures := if ok then failures else failures + 1;
        i := i + 1;
      }
      assert UpTo(targets, i) == targets;
    }

    /** One row of the loop above, when the query selected it. */
    method RemoveIfDue(i: nat, targets: set<nat>, env: Env, ghost f: Fleet, ghost done: set<nat>) returns (ok: bool)
      requires i < |f.rows| && KeysDistinct(f.rows) && targets !! done && (i in targets ==> f.rows[i].active)
      requires Fleet() == Removed(f, done + UpTo(targets, i), env)
      modifies this`rows, this`nodes
      ensures Fleet() == Removed(f, done + UpTo(targets, i + 1), env)
      ensures AllConfirmed(f, UpTo(targets, i + 1), env) <==> AllConfirmed(f, UpTo(targets, i), env) && ok
    {
      UpToStep(f, targets, done, i, env);
      ok := true;
      if i in targets {
        ok := RemoveRow(i, env, f, done + UpTo(targets, i));
      }
    }

    // -------------------------------------------------------------- credit

    method SpendOnPayment(p: nat) returns (spent: int)
      requires p < |payments|
      modifies this`ledger
      ensures ledger == SpendOn(old(ledger), payments[p], p)
      ensures spent == if ledger == old(ledger) then 0 else payments[p].credit
    {
      var pay := payments[p];
      if pay.credit <= 0 || HasSpend(ledger, p) {
        return 0;
      }
      ledger := ledger + [Entry(pay.user, -pay.credit, Spend, Some(p), None, None, None)];
      spent := pay.credit;
    }

    method RewardForPayment(p: nat, now: int) returns (days: nat)
      requires p < |payments|
      modifies this`rewards
      ensures rewards == RewardFor(old(rewards), codes, payments[p], p, now)
      ensures days == if rewards == old(rewards) then 0 else REWARD_DAYS
    {
      var pay := payments[p];
      days := 0;
      if pay.code.Some? && pay.code.value in codes {
        var owner := codes[pay.code.value].owner;
        if owner.Some? && owner.value != pay.user && PlanInfo(pay.plan).Some? && pay.amount > 0 && !HasReward(rewards, p) {
          rewards := rewards + [Reward(owner.value, p, REWARD_DAYS, now + Days(VESTING_DAYS), None)];
          days := REWARD_DAYS;
        }
      }
    }

    method ApplyRewardsFor(u: nat, now: int) returns (added: nat)
      requires u < |users|
      modifies this`users, this`rewards
      ensures var lucky := if Live(old(users)[u], now) then {u} else {};
        users == Credited(old(users), old(rewards), lucky, now) && rewards == Marked(old(rewards), lucky, now)
      ensures added == if Live(old(users)[u], now) then DueDays(old(rewards), u, now) else 0
    {
      added := 0;
      CreditedNobody(users, rewards, now);
      if Live(users[u], now) {
        CreditedOne(users, rewards, u, now);
        added := ApplyEach(u, now);
      }
    }

    /** The loop over a live referrer's rewards. */
    method ApplyEach(u: nat, now: int) returns (added: nat)
      requires u < |users|
      modifies this`users, this`rewards
      ensures added == DueDays(old(rewards), u, now)
      ensures users == old(users)[u := Extended(old(users)[u], added)] && rewards == Marked(old(rewards), {u}, now)
    {
      ghost var users0, rewards0 := users, rewards;
      added := 0;
      var j := 0;
      assert users0[u := Extended(users0[u], 0)] == users0;
      while j < |rewards|
        invariant 0 <= j <= |rewards| == |rewards0|
        invariant users == users0[u := Extended(users0[u], added)]
        invariant (rewards, added) == MarkedUpTo(rewards0, u, j, now)
      {
        StillUnmarked(rewards0, u, j, now);
        var r := rewards[j];
        if r.referrer == u && Due(r, now) {
          users := users[u := Extended(users[u], r.days)];
          rewards := rewards[j := r.(applied := Some(now))];
          added := added + r.days;
        }
        j := j + 1;
      }
      MarkedToTheEnd(rewards0, u, now);
    }

    /** One referrer of the pass, on top of those of `lucky`. */
    method ApplyNext(uid: nat, now: int, ghost users0: seq<User>, ghost rewards0: seq<Reward>, ghost lucky: set<nat>)
      requires uid < |users0| && uid !in lucky
      requires users == Credited(users0, rewards0, lucky, now) && rewards == Marked(rewards0, lucky, now)
      modifies this`users, this`rewards
      ensures var more := if Live(users0[uid], now) then lucky + {uid} else lucky;
        users == Credited(users0, rewards0, more, now) && rewards == Marked(rewards0, more, now)
    {
      OneMoreReferrer(users0, rewards0, lucky, uid, now);
      CreditedNobody(users, rewards, now);
      var days := ApplyRewardsFor(uid, now);
    }

    method ApplyDueRewards(now: int)
      modifies this`users, this`rewards
      ensures State() == RewardPass(old(State()), now)
    {
      ghost var users0, rewards0 := users, rewards;
      ghost var live := LiveUsers(users, now);
      var owners := set i | 0 <= i < |rewards| && Due(rewards[i], now) :: rewards[i].referrer;
      ghost var all, lucky: set<nat> := owners, {};
      CreditedNobody(users, rewards, now);
      while owners != {}
        invariant lucky <= live && lucky !! owners && live * all <= lucky + owners
        invariant users == Credited(users0, rewards0, lucky, now) && rewards == Marked(rewards0, lucky, now)
        decreases owners
      {
        var uid :| uid in owners;
        if uid < |users| {
          ApplyNext(uid, now, users0, rewards0, lucky);
          lucky := if uid in live then lucky + {uid} else lucky;
        }
        owners := owners - {uid};
      }
      OnlyOwnersMatter(users0, rewards0, live, lucky, now);
    }

    method CancelRewardForPayment(p: nat, now: int)
      modifies this`rewards, this`ledger
      ensures State() == Refund(old(State()), p, now)
    {
      var i := FirstReward(rewards, p);
      if i < |rewards| {
        if rewards[i].applied.None? {
          rewards := Handlers.Without(rewards, i);
        }
        return;
      }
      var j := FirstLegacy(ledger, p);
      if j < |ledger| && !(ledger[j].vests.Some? && ledger[j].vests.value <= now) {
        ledger := Handlers.Without(ledger, j);
      }
    }

    // -------------------------------------------------------------- payments

    method ActivatePayment(p: nat, env: Env) returns (ok: bool)
      requires Valid() && Unissued(env) && p < |payments| && payments[p].user < |users|
      modifies this
      ensures Valid() && State() == Activate(old(State()), p, env).state && ok == Activate(old(State()), p, env).ok
    {
      var pay := payments[p];
      var u, plan := pay.user, PlanInfo(pay.plan);
      if plan.None? {
        return false;
      }
      if !HoldsPaid(rows, u) {
        var issued := IssueConfig(u, Paid, DefaultForNew(env), env);
        if !issued {
          return false;
        }
      }
      Settle(p, plan.value.days, env);
      ok := true;
    }

    /** The part of activation that follows a device: the books, then the trial peers. */
    method Settle(p: nat, days: nat, env: Env)
      requires Valid() && p < |payments| && payments[p].user < |users| && 1 <= days
      modifies this
      ensures Valid() && State() == Handlers.Settle(old(State()), p, days, env)
    {
      var u := payments[p].user;
      Book(p, days, env.now);
      RemoveTrials(u, env);
    }

    /** The trial devices of a customer go once there is a paid one. */
    method RemoveTrials(u: nat, env: Env)
      requires Valid()
      modifies this`rows, this`nodes
      ensures Valid() && Fleet() == Removed(old(Fleet()), DevicesOf(old(rows), u, Trial), env)
    {
      ghost var f, trials := Fleet(), DevicesOf(rows, u, Trial);
      RemovedNothing(f, env);
      RemovalKeepsKeys(f, trials, env);
      var failures := RemoveRows(DevicesOf(rows, u, Trial), env, f, {});
      assert {} + trials == trials;
    }

    /** One transaction: the period, the spend, the referrer's reward, the rewards waiting, the trial's end. */
    method Book(p: nat, days: nat, now: int)
      requires p < |payments| && payments[p].user < |users| && 1 <= days
      modifies this`users, this`payments, this`ledger, this`rewards
      ensures payments == old(payments)[p := Closed(old(payments)[p], now)]
      ensures ledger == SpendOn(old(ledger), old(payments)[p], p)
      ensures var pay := old(payments)[p];
        var due := RewardFor(old(rewards), codes, pay, p, now);
        users == Renewed(old(users), due, pay.user, pay.plan, days, now) && rewards == Marked(due, {pay.user}, now)
    {
      var pay := payments[p];
      var u := pay.user;
      users := users[u := Subscribed(users[u], pay.plan, days, now)];
      assert Live(users[u], now);
      var spent := SpendOnPayment(p);
      var earned := RewardForPayment(p, now);
      var added := ApplyRewardsFor(u, now);
      payments := payments[p := Closed(pay, now)];
      users := users[u := EndTrial(users[u], now)];
    }

    method PaymentWebhook(p: nat, status: Option<string>, env: Env)
      requires Valid() && Unissued(env)
      modifies this
      ensures Valid() && State() == Webhook(old(State()), p, status, env)
    {
      if p >= |payments| || payments[p].status == "paid" || payments[p].user >= |users| {
        return;
      }
      if status.Some? && PaidStatus(status.value) {
        var ok := ActivatePayment(p, env);
      } else {
        var text := if status.None? || status.value == "" then "unknown" else status.value;
        payments := payments[p := payments[p].(status := text)];
      }
    }

    method PlategaCallback(p: nat, answer: Answer, env: Env)
      requires Valid() && Unissued(env)
      modifies this
      ensures Valid() && State() == Callback(old(State()), p, answer, env)
    {
      if p >= |payments| || payments[p].status == "paid" || payments[p].user >= |users| || payments[p].provider != Platega {
        return;
      }
      match answer {
        case ConfirmedFor(amount) =>
          if amount == Some(payments[p].amount) {
            var ok := ActivatePayment(p, env);
          }
        case Chargebacked => payments := payments[p := payments[p].(status := "chargebacked")];
        case Canceled => payments := payments[p := payments[p].(status := "canceled")];
        case Unreachable =>
        case OtherAnswer =>
      }
    }

    method Grant(u: nat, plan: string, env: Env)
      requires Valid() && Unissued(env)
      modifies this
      ensures Valid() && State() == GrantAccess(old(State()), u, plan, env)
    {
      if u >= |users| || Sold(plan).None? {
        return;
      }
      ghost var s := State();
      var n := |payments|;
      payments := payments + [Payment(u, plan, 0, Manual, "pending", None, 0, None)];
      ghost var t := State();
      var ok := ActivatePayment(n, env);
      if !ok {
        FailedActivationKeepsBooks(t, n, env);
        assert payments[..n] == s.payments;
        payments := payments[..n];
      }
    }

    method AssignPeer(u: nat, days: nat, now: int)
      modifies this`users
      ensures State() == Handlers.AssignPeer(old(State()), u, days, now)
      ensures u < |users| && 1 <= days <= 365 ==>
        && Live(users[u], now) && users[u].until.Some?
        && users[u].until.value - Days(days) == old(if users[u].until.Some? && now < users[u].until.value then users[u].until.value else now)
        && users == old(users)[u := old(users)[u].(subscribed := true, until := users[u].until)]
    {
      if u < |users| && 1 <= days <= 365 {
        var user := users[u];
        users := users[u := user.(subscribed := true, until := Some(Base(user, now) + Days(days)))];
      }
    }

    method OpenOrder(u: nat, plan: string, code: Option<string>, asked: int, platega: bool, accepted: bool, now: int)
      modifies this`payments
      ensures State() == Handlers.OpenOrder(old(State()), u, plan, code, asked, platega, accepted, now)
    {
      if u >= |users| || Sold(plan).None? || !Verified(users[u]) || !WithinPlan(rows, u, plan) {
        return;
      }
      var q := PriceOrder(State(), u, Sold(plan).value, code, asked, now);
      if q.refused.None? {
        var provider := if platega then Platega else NoProvider;
        payments := payments + [Payment(u, plan, q.amount, provider, "pending", q.code, q.credit, None)];
        if !accepted {
          payments := payments[|payments| - 1 := payments[|payments| - 1].(status := "error")];
        }
      }
    }

    // -------------------------------------------------------------- devices and trials

    method AddConfig(u: nat, where: Option<Loc>, env: Env)
      requires Valid() && Unissued(env)
      modifies this`rows, this`nodes
      ensures Valid() && State() == AddDevice(old(State()), u, where, env)
    {
      if u >= |users| || !Live(users[u], env.now) {
        return;
      }
      var loc := if where.Some? then where.value else DefaultForNew(env);
      if !Configured(loc, env) || loc in env.paused {
        return;
      }
      if PaidCount(rows, u, loc) < ConfigLimit(users[u].plan) {
        var ok := IssueConfig(u, Paid, loc, env);
      }
    }

    method DeleteConfig(u: nat, i: nat, env: Env) returns (ok: bool)
      requires Valid()
      modifies this`rows, this`nodes
      ensures Valid() && State() == DeleteDevice(old(State()), u, i, env)
      ensures ok ==> i < |rows| && !rows[i].active
    {
      if i < |rows| && rows[i].user == u && rows[i].active && rows[i].kind == Paid {
        RemovedNothing(Fleet(), env);
        ghost var f := Fleet();
        ok := RemoveRow(i, env, f, {});
        assert {} + {i} == {i};
      } else {
        ok := false;
      }
    }

    method StartTrial(u: nat, open: bool, env: Env)
      requires Valid() && Unissued(env)
      modifies this`users, this`grants, this`rows, this`nodes
      ensures Valid() && State() == Handlers.StartTrial(old(State()), u, open, env)
    {
      ghost var s := State();
      if MayTry(users, grants, u, open, env.now) {
        var g := GrantFor(users[u], u, env.now);
        var ok := RecordTrial(u, g, env);
        TrialRecorded(s, State(), u, g, env, ok);
      }
    }

    /** The grant and the date are written before the device is asked for, and taken back if there is none. */
    method RecordTrial(u: nat, g: TrialGrant, env: Env) returns (ok: bool)
      requires Valid() && Unissued(env) && u < |users|
      modifies this`users, this`grants, this`rows, this`nodes
      ensures Valid() && Issued(Fleet(), ok) == Issue(old(Fleet()), u, Trial, DE, env)
      ensures users == if ok then old(users)[u := old(users)[u].(trialUntil := Some(env.now + Days(TRIAL_DAYS)))] else old(users)
      ensures grants == if ok then old(grants) + [g] else old(grants)
    {
      var users0, grants0 := users, grants;
      users := users[u := users[u].(trialUntil := Some(env.now + Days(TRIAL_DAYS)))];
      grants := grants + [g];
      ok := IssueConfig(u, Trial, DE, env);
      if !ok {
        users, grants := users0, grants0;
      }
    }

    // -------------------------------------------------------------- sweeps

    method ExpireDueTrials(env: Env) returns (failures: nat)
      requires Valid()
      modifies this`rows, this`nodes
      ensures Valid() && State() == TrialSweep(old(State()), env)
    {
      ghost var f, due := Fleet(), EndedTrialRows(users, rows, env.now);
      RemovedNothing(f, env);
      RemovalKeepsKeys(f, due, env);
      failures := RemoveRows(EndedTrialRows(users, rows, env.now), env, f, {});
      assert {} + due == due;
    }

    /** One lapsed user: every active device asked off its node, the flag cleared when all of them went. */
    method ExpireUser(u: nat, env: Env, ghost s: State) returns (gone: bool)
      requires KeysDistinct(s.fleet.rows) && u < |users| && Lapsed(users[u], env.now)
      requires SweptUpTo(s, env, Fleet(), users, u)
      modifies this`rows, this`nodes, this`users
      ensures SweptUpTo(s, env, Fleet(), users, u + 1)
    {
      ghost var due := LapsedRows(s.users, s.fleet.rows, env.now);
      DueSplit(due, s.fleet.rows, u);
      DueNow(s, env, u);
      Verdict(s, env, u);
      var failures := RemoveRows(ActiveOf(rows, u), env, s.fleet, DueBefore(due, s.fleet.rows, u));
      gone := failures == 0;
      SweptOneMore(s, env, u, gone);
      if gone {
        users := users[u := users[u].(subscribed := false)];
      }
    }

    method ExpireDueSubscriptions(env: Env) returns (revoked: nat)
      requires Valid()
      modifies this`rows, this`nodes, this`users
      ensures Valid() && State() == SubscriptionSweep(old(State()), env)
    {
      RemovalKeepsKeys(Fleet(), LapsedRows(users, rows, env.now), env);
      revoked := ExpireUsers(env, State());
      SweepEnds(old(State()), env, Fleet(), users);
    }

    method ExpireUsers(env: Env, ghost s: State) returns (revoked: nat)
      requires KeysDistinct(s.fleet.rows) && Fleet() == s.fleet && users == s.users
      modifies this`rows, this`nodes, this`users
      ensures SweptUpTo(s, env, Fleet(), users, |users|)
    {
      SweepBegins(s, env);
      revoked := 0;
      var u := 0;
      while u < |users|
        invariant 0 <= u <= |users| && SweptUpTo(s, env, Fleet(), users, u)
      {
        if Lapsed(users[u], env.now) {
          var gone := ExpireUser(u, env, s);
          revoked := if gone then revoked + 1 else revoked;
        } else {
          SweepSkips(s, env, Fleet(), users, u);
        }
        u := u + 1;
      }
    }
  }

  lemma TrialRecorded(s: State, t: State, u: nat, g: TrialGrant, env: Env, ok: bool)
    requires u < |s.users| && Issued(t.fleet, ok) == Issue(s.fleet, u, Trial, DE, env)
    requires t == s.(fleet := t.fleet, users := t.users, grants := t.grants)
    requires t.users == if ok then s.users[u := s.users[u].(trialUntil := Some(env.now + Days(TRIAL_DAYS)))] else s.users
    requires t.grants == if ok then s.grants + [g] else s.grants
    ensures t == Handlers.RecordTrial(s, u, g, env)
  {
  }

  /** An activation that fails writes no table but, at most, the nodes. */
  lemma FailedActivationKeepsBooks(s: State, p: nat, env: Env)
    requires p < |s.payments| && s.payments[p].user < |s.users| && !Activate(s, p, env).ok
    ensures Activate(s, p, env).state == s.(fleet := Activate(s, p, env).state.fleet)
  {
  }
}
