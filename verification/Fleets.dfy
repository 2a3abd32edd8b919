/**
 * The device table against the nodes: what issuing and removing keep, with
 * refusals and with lost acknowledgements.
 */
module Fleets {
  import opened Common
  import opened World
  import opened Handlers

  /** A key pair never seen before, in the table or on a node. */
  ghost predicate FreshKey(f: Fleet, key: Key) {
    && (forall i :: 0 <= i < |f.rows| ==> f.rows[i].key != key)
    && (forall p :: p in f.nodes ==> p.key != key)
    && (forall p :: p in f.hand ==> p.key != key)
  }

  predicate KeysDistinct(rows: seq<Row>) {
    forall i, j :: 0 <= i < j < |rows| ==> rows[i].key != rows[j].key
  }

  ghost predicate HandApart(f: Fleet) {
    forall i, p :: 0 <= i < |f.rows| && p in f.hand ==> p.key != f.rows[i].key
  }

  /** Peers made by hand are on their nodes, untouched. */
  ghost predicate HandIntact(f: Fleet) {
    forall p :: p in f.hand ==> p in f.nodes && f.nodes[p] == f.hand[p]
  }

  /** A portal key on a node is there for an active row, at that row's location and address. */
  ghost predicate PeersBacked(f: Fleet) {
    forall i, p :: 0 <= i < |f.rows| && p in f.nodes && p.key == f.rows[i].key ==>
      f.rows[i].active && p.loc == f.rows[i].loc && f.nodes[p] == f.rows[i].addr
  }

  predicate AddressesDistinct(rows: seq<Row>) {
    forall i, j :: 0 <= i < j < |rows| && rows[i].active && rows[j].active && rows[i].loc == rows[j].loc ==>
      rows[i].addr != rows[j].addr
  }

  predicate InPools(rows: seq<Row>) {
    forall i :: 0 <= i < |rows| ==>
      InPool(rows[i].addr, PoolOf(rows[i].kind)) && (rows[i].kind == Trial ==> rows[i].loc == DE)
  }

  /** What holds of the fleet in every run, acknowledgements lost or not. */
  ghost predicate Sound(f: Fleet) {
    KeysDistinct(f.rows) && HandApart(f) && HandIntact(f) && PeersBacked(f) && AddressesDistinct(f.rows) && InPools(f.rows)
  }

  /** An active device whose peer is not on its node. */
  ghost predicate Missing(f: Fleet, i: nat) {
    i < |f.rows| && f.rows[i].active && PeerOf(f.rows[i]) !in f.nodes
  }

  /** A peer on a node that is neither hand-made nor any row's. */
  ghost predicate Orphan(f: Fleet, p: Peer) {
    p in f.nodes && p !in f.hand && forall i :: 0 <= i < |f.rows| ==> PeerOf(f.rows[i]) != p
  }

  /** The table and the nodes agree: nothing missing, nothing orphaned. */
  ghost predicate Agrees(f: Fleet) {
    (forall i: nat :: !Missing(f, i)) && (forall p :: !Orphan(f, p))
  }

  /**
   * What agreement means: on every node the peers are exactly the hand-made
   * ones and the active rows of that location, at the same addresses.
   */
  lemma AgreementIsEquality(f: Fleet, p: Peer, a: Addr)
    requires Sound(f) && Agrees(f)
    ensures (p in f.nodes && f.nodes[p] == a)
       <==> (p in f.hand && f.hand[p] == a)
            || (exists i :: 0 <= i < |f.rows| && f.rows[i].active && PeerOf(f.rows[i]) == p && f.rows[i].addr == a)
  {
    if p in f.nodes && p !in f.hand {
      assert !Orphan(f, p);
      var i :| 0 <= i < |f.rows| && PeerOf(f.rows[i]) == p;
      assert f.rows[i].active && f.nodes[p] == f.rows[i].addr;
    }
    forall i | 0 <= i < |f.rows| && f.rows[i].active && PeerOf(f.rows[i]) == p && f.rows[i].addr == a
      ensures p in f.nodes && f.nodes[p] == a
    {
      assert !Missing(f, i);
    }
  }

  // ---------------------------------------------------------------- issuing

  /** A fleet with one more peer for a fresh key, and no row behind it. */
  ghost predicate Stray(f: Fleet, g: Fleet, p: Peer) {
    p !in f.nodes && p in g.nodes && g == f.(nodes := f.nodes[p := g.nodes[p]])
  }

  /** A fleet with one more device: row, peer, address taken by nobody at that location. */
  ghost predicate Grown(f: Fleet, g: Fleet, r: Row) {
    && r.active && InPool(r.addr, PoolOf(r.kind)) && r.addr !in UsedAddrs(f.rows, r.loc)
    && PeerOf(r) !in f.nodes && !AddressTaken(f.nodes, r.loc, r.addr)
    && g == f.(rows := f.rows + [r], nodes := f.nodes[PeerOf(r) := r.addr])
  }

  /** What one call of `issue_config` can leave behind. */
  ghost predicate IssueOutcome(f: Fleet, g: Issued, user: nat, kind: Kind, loc: Loc, env: Env) {
    if g.ok then
      |g.fleet.rows| == |f.rows| + 1 &&
      var r := g.fleet.rows[|f.rows|];
      Grown(f, g.fleet, r) && r.user == user && r.kind == kind && r.loc == loc && r.key == env.key
    else g.fleet == f || (!NothingLost(env) && Stray(f, g.fleet, Peer(loc, env.key)))
  }

  lemma {:induction false} AttemptOutcome(f: Fleet, user: nat, kind: Kind, loc: Loc, env: Env, tried: set<Addr>, n: nat)
    requires n <= ATTEMPTS
    ensures IssueOutcome(f, Attempt(f, user, kind, loc, env, tried, n), user, kind, loc, env)
    decreases ATTEMPTS - n
  {
    if n < ATTEMPTS {
      var a := FindFree(UsedAddrs(f.rows, loc) + tried, PoolOf(kind));
      if a.Some? {
        var (nodes, outcome) := AddPeer(f.nodes, loc, env.key, a.value, env.adds(n));
        if outcome == AddressInUse {
          AttemptOutcome(f, user, kind, loc, env, tried + {a.value}, n + 1);
        }
      }
    }
  }

  lemma IssueLeaves(f: Fleet, user: nat, kind: Kind, where: Loc, env: Env)
    ensures IssueOutcome(f, Issue(f, user, kind, where, env), user, kind, if kind == Trial then DE else where, env)
  {
    var loc := if kind == Trial then DE else where;
    AttemptOutcome(f, user, kind, loc, env, ListedAddrs(f.nodes, loc, env.listed), 0);
  }

  /** The addresses one issue asks the node for, in order. */
  function Asked(f: Fleet, kind: Kind, loc: Loc, env: Env, tried: set<Addr>, n: nat): seq<Addr>
    requires n <= ATTEMPTS
    decreases ATTEMPTS - n
  {
    if n == ATTEMPTS then []
    else
      var a := FindFree(UsedAddrs(f.rows, loc) + tried, PoolOf(kind));
      if a.None? then []
      else
        [a.value] + if AddPeer(f.nodes, loc, env.key, a.value, env.adds(n)).1 == AddressInUse
                    then Asked(f, kind, loc, env, tried + {a.value}, n + 1) else []
  }

  lemma LeastFree(used: set<Addr>, pool: Pool, b: Addr)
    requires InPool(b, pool) && b !in used
    ensures FindFree(used, pool).Some? && FindFree(used, pool).value.host <= b.host
  {
  }

  predicate Ladder(q: seq<Addr>, pool: Pool, used: set<Addr>) {
    && (forall i :: 0 <= i < |q| ==> InPool(q[i], pool) && q[i] !in used)
    && (forall i, j :: 0 <= i < j < |q| ==> q[i].host < q[j].host)
  }

  lemma LadderStep(a: Addr, rest: seq<Addr>, pool: Pool, used: set<Addr>)
    requires FindFree(used, pool) == Some(a) && Ladder(rest, pool, used + {a})
    ensures Ladder([a] + rest, pool, used)
  {
  }

  /**
   * At most ten addresses, strictly increasing, all in the pool of the kind and
   * none held by an active device there or already known to be taken.
   */
  lemma {:induction false} AskedIncreasing(f: Fleet, kind: Kind, loc: Loc, env: Env, tried: set<Addr>, n: nat)
    requires n <= ATTEMPTS
    ensures |Asked(f, kind, loc, env, tried, n)| <= ATTEMPTS - n
    ensures Ladder(Asked(f, kind, loc, env, tried, n), PoolOf(kind), UsedAddrs(f.rows, loc) + tried)
    decreases ATTEMPTS - n
  {
    if n < ATTEMPTS {
      var used := UsedAddrs(f.rows, loc) + tried;
      var a := FindFree(used, PoolOf(kind));
      if a.Some? {
        AskedIncreasing(f, kind, loc, env, tried + {a.value}, n + 1);
        assert used + {a.value} == UsedAddrs(f.rows, loc) + (tried + {a.value});
        LadderStep(a.value, Asked(f, kind, loc, env, tried + {a.value}, n + 1), PoolOf(kind), used);
        LadderStep(a.value, [], PoolOf(kind), used);
      }
    }
  }

  lemma GrownIsSound(f: Fleet, g: Fleet, r: Row)
    requires Sound(f) && FreshKey(f, r.key) && Grown(f, g, r) && (r.kind == Trial ==> r.loc == DE)
    ensures Sound(g)
    ensures Agrees(f) ==> Agrees(g)
  {
    var n := |f.rows|;
    assert forall i :: 0 <= i < n ==> g.rows[i] == f.rows[i];
    assert g.rows[n] == r;
    assert AddressesDistinct(g.rows) by {
      forall i | 0 <= i < n && f.rows[i].active && f.rows[i].loc == r.loc ensures f.rows[i].addr != r.addr {
        assert f.rows[i].addr in UsedAddrs(f.rows, r.loc);
      }
    }
    if Agrees(f) {
      forall i: nat ensures !Missing(g, i) {
        if i < n { assert !Missing(f, i); }
      }
      forall p ensures !Orphan(g, p) {
        if p == PeerOf(r) {
          assert PeerOf(g.rows[n]) == p;
        } else {
          assert !Orphan(f, p);
          if p in f.nodes && p !in f.hand {
            var i :| 0 <= i < n && PeerOf(f.rows[i]) == p;
            assert PeerOf(g.rows[i]) == p;
          }
        }
      }
    }
  }

  lemma StrayIsSound(f: Fleet, g: Fleet, p: Peer)
    requires Sound(f) && FreshKey(f, p.key) && Stray(f, g, p)
    ensures Sound(g) && Orphan(g, p)
  {
  }

  // ---------------------------------------------------------------- removing

  lemma RemovedNodes(f: Fleet, targets: set<nat>, env: Env)
    ensures var g := Removed(f, targets, env);
      && (forall p :: p in g.nodes ==> p in f.nodes && g.nodes[p] == f.nodes[p])
      && (forall i :: i in targets && i < |f.rows| && Effective(f, i, env) ==> PeerOf(f.rows[i]) !in g.nodes)
      && (forall p :: p in f.nodes && p !in g.nodes ==>
            exists i :: i in targets && i < |f.rows| && Effective(f, i, env) && PeerOf(f.rows[i]) == p)
  {
  }

  lemma RemovedIsSound(f: Fleet, targets: set<nat>, env: Env)
    requires Sound(f)
    ensures Sound(Removed(f, targets, env))
  {
  }

  lemma RemovedAgreesOn(f: Fleet, targets: set<nat>, env: Env)
    requires Sound(f) && Agrees(f)
    requires forall i :: i in targets && i < |f.rows| && f.rows[i].active && Configured(f.rows[i].loc, env) ==>
      env.removes(f.rows[i].key) != Lost
    ensures Agrees(Removed(f, targets, env))
  {
    var g := Removed(f, targets, env);
    forall i: nat ensures !Missing(g, i) {
      assert !Missing(f, i);
      if Missing(g, i) {
        RemovedLosesNone(f, targets, env, i);
      }
    }
    forall p ensures !Orphan(g, p) {
      assert !Orphan(f, p);
      if Orphan(g, p) {
        RemovedOrphansNone(f, targets, env, p);
      }
    }
  }

  lemma RemovedLosesNone(f: Fleet, targets: set<nat>, env: Env, i: nat)
    requires KeysDistinct(f.rows) && Missing(Removed(f, targets, env), i)
    requires i in targets && f.rows[i].active && Configured(f.rows[i].loc, env) ==> env.removes(f.rows[i].key) != Lost
    ensures Missing(f, i)
  {
    assert !Confirmed(f, i, env) || i !in targets;
    forall j | j in targets && j < |f.rows| && PeerOf(f.rows[j]) == PeerOf(f.rows[i]) ensures j == i {
      assert f.rows[j].key == f.rows[i].key;
    }
  }

  lemma RemovedOrphansNone(f: Fleet, targets: set<nat>, env: Env, p: Peer)
    requires Orphan(Removed(f, targets, env), p)
    ensures Orphan(f, p)
  {
  }

  /** Some configured node's answer about an active target is lost. */
  predicate RemovalLost(f: Fleet, targets: set<nat>, env: Env) {
    exists i :: i in targets && i < |f.rows| && f.rows[i].active && Configured(f.rows[i].loc, env)
      && env.removes(f.rows[i].key) == Lost
  }

  /** A removal whose answer was lost is exactly what parts the table from the nodes. */
  lemma RemovalAgreesExactly(f: Fleet, targets: set<nat>, env: Env)
    requires Sound(f) && Agrees(f)
    ensures Agrees(Removed(f, targets, env)) <==> !RemovalLost(f, targets, env)
  {
    var g := Removed(f, targets, env);
    RemovedNodes(f, targets, env);
    forall i | i in targets && i < |f.rows| && f.rows[i].active && Configured(f.rows[i].loc, env) && env.removes(f.rows[i].key) == Lost
      ensures Missing(g, i)
    {
      assert Effective(f, i, env);
    }
    if !RemovalLost(f, targets, env) {
      RemovedAgreesOn(f, targets, env);
    }
  }

  /** The node added the last peer it was asked for, and the answer was lost. */
  predicate LastAnswerLost(f: Fleet, kind: Kind, loc: Loc, env: Env, tried: set<Addr>, n: nat)
    requires n <= ATTEMPTS
  {
    var q := Asked(f, kind, loc, env, tried, n);
    q != [] && env.adds(n + |q| - 1) == Lost && !AddressTaken(f.nodes, loc, q[|q| - 1])
  }

  /** Attempts leave a peer without a device exactly when the last answer was lost on a free address. */
  lemma {:induction false} AttemptStraysExactly(f: Fleet, user: nat, kind: Kind, loc: Loc, env: Env, tried: set<Addr>, n: nat)
    requires n <= ATTEMPTS && FreshKey(f, env.key)
    ensures var g := Attempt(f, user, kind, loc, env, tried, n);
      !g.ok && g.fleet != f <==> LastAnswerLost(f, kind, loc, env, tried, n)
    decreases ATTEMPTS - n
  {
    if n < ATTEMPTS {
      var a := FindFree(UsedAddrs(f.rows, loc) + tried, PoolOf(kind));
      if a.Some? {
        if AddPeer(f.nodes, loc, env.key, a.value, env.adds(n)).1 == AddressInUse {
          AttemptStraysExactly(f, user, kind, loc, env, tried + {a.value}, n + 1);
          LastAnswerLater(f, kind, loc, env, tried, n, a.value);
        } else {
          LastStrays(f, user, kind, loc, env, tried, n, a.value);
        }
      }
    }
  }

  lemma LastStrays(f: Fleet, user: nat, kind: Kind, loc: Loc, env: Env, tried: set<Addr>, n: nat, a: Addr)
    requires n < ATTEMPTS && FreshKey(f, env.key) && FindFree(UsedAddrs(f.rows, loc) + tried, PoolOf(kind)) == Some(a)
    requires AddPeer(f.nodes, loc, env.key, a, env.adds(n)).1 != AddressInUse
    ensures var g := Attempt(f, user, kind, loc, env, tried, n);
      !g.ok && g.fleet != f <==> LastAnswerLost(f, kind, loc, env, tried, n)
  {
    AddedOrStrayed(f.nodes, loc, env.key, a, env.adds(n));
    assert Asked(f, kind, loc, env, tried, n) == [a];
  }

  lemma LastAnswerLater(f: Fleet, kind: Kind, loc: Loc, env: Env, tried: set<Addr>, n: nat, a: Addr)
    requires n < ATTEMPTS && FindFree(UsedAddrs(f.rows, loc) + tried, PoolOf(kind)) == Some(a)
    requires AddPeer(f.nodes, loc, env.key, a, env.adds(n)).1 == AddressInUse
    ensures LastAnswerLost(f, kind, loc, env, tried, n) <==> LastAnswerLost(f, kind, loc, env, tried + {a}, n + 1)
  {
  }

  /** A single answer: the peer is there and the node is believed not to have it. */
  lemma AddedOrStrayed(nodes: map<Peer, Addr>, loc: Loc, key: Key, a: Addr, reply: Reply)
    requires Peer(loc, key) !in nodes
    ensures var (after, outcome) := AddPeer(nodes, loc, key, a, reply);
      after != nodes && outcome == NotAdded <==> reply == Lost && !AddressTaken(nodes, loc, a)
    ensures var (after, outcome) := AddPeer(nodes, loc, key, a, reply); after != nodes ==> Peer(loc, key) in after
  {
  }

  /** The node confirmed the last addition it was asked for. */
  predicate LastAnswerGood(f: Fleet, kind: Kind, loc: Loc, env: Env, tried: set<Addr>, n: nat)
    requires n <= ATTEMPTS
  {
    var q := Asked(f, kind, loc, env, tried, n);
    q != [] && env.adds(n + |q| - 1) == Obeyed && !AddressTaken(f.nodes, loc, q[|q| - 1])
  }

  lemma LastGoodLater(f: Fleet, kind: Kind, loc: Loc, env: Env, tried: set<Addr>, n: nat, a: Addr)
    requires n < ATTEMPTS && FindFree(UsedAddrs(f.rows, loc) + tried, PoolOf(kind)) == Some(a)
    requires AddPeer(f.nodes, loc, env.key, a, env.adds(n)).1 == AddressInUse
    ensures LastAnswerGood(f, kind, loc, env, tried, n) <==> LastAnswerGood(f, kind, loc, env, tried + {a}, n + 1)
  {
  }

  /** Attempts succeed exactly when the last address asked for was free and the node said so. */
  lemma {:induction false} AttemptSucceedsExactly(f: Fleet, user: nat, kind: Kind, loc: Loc, env: Env, tried: set<Addr>, n: nat)
    requires n <= ATTEMPTS && FreshKey(f, env.key)
    ensures Attempt(f, user, kind, loc, env, tried, n).ok <==> LastAnswerGood(f, kind, loc, env, tried, n)
    decreases ATTEMPTS - n
  {
    if n < ATTEMPTS {
      var a := FindFree(UsedAddrs(f.rows, loc) + tried, PoolOf(kind));
      if a.Some? {
        var outcome := AddPeer(f.nodes, loc, env.key, a.value, env.adds(n)).1;
        if outcome == AddressInUse {
          AttemptSucceedsExactly(f, user, kind, loc, env, tried + {a.value}, n + 1);
          LastGoodLater(f, kind, loc, env, tried, n, a.value);
        } else {
          LastAttempt(f, user, kind, loc, env, tried, n, a.value);
        }
      }
    }
  }

  lemma LastAttempt(f: Fleet, user: nat, kind: Kind, loc: Loc, env: Env, tried: set<Addr>, n: nat, a: Addr)
    requires n < ATTEMPTS && FreshKey(f, env.key) && FindFree(UsedAddrs(f.rows, loc) + tried, PoolOf(kind)) == Some(a)
    requires AddPeer(f.nodes, loc, env.key, a, env.adds(n)).1 != AddressInUse
    ensures Attempt(f, user, kind, loc, env, tried, n).ok <==> LastAnswerGood(f, kind, loc, env, tried, n)
  {
    AddedExactly(f.nodes, loc, env.key, a, env.adds(n));
    assert Asked(f, kind, loc, env, tried, n) == [a];
  }

  lemma AddedExactly(nodes: map<Peer, Addr>, loc: Loc, key: Key, a: Addr, reply: Reply)
    requires Peer(loc, key) !in nodes
    ensures AddPeer(nodes, loc, key, a, reply).1 == Added <==> reply == Obeyed && !AddressTaken(nodes, loc, a)
  {
  }

  /** An issue succeeds exactly when its location is configured and the last address it asked for was free and confirmed. */
  lemma IssueSucceedsExactly(f: Fleet, user: nat, kind: Kind, where: Loc, env: Env)
    requires FreshKey(f, env.key)
    ensures var loc := if kind == Trial then DE else where;
      Issue(f, user, kind, where, env).ok <==>
      Configured(loc, env) && LastAnswerGood(f, kind, loc, env, ListedAddrs(f.nodes, loc, env.listed), 0)
  {
    var loc := if kind == Trial then DE else where;
    AttemptSucceedsExactly(f, user, kind, loc, env, ListedAddrs(f.nodes, loc, env.listed), 0);
  }

  /** An active device of the location has the address: a closed one has given it back. */
  predicate Held(rows: seq<Row>, loc: Loc, a: Addr) {
    exists i :: 0 <= i < |rows| && rows[i].active && rows[i].loc == loc && rows[i].addr == a
  }

  /** A pool address that no active device has and the node has not given out at a location. */
  ghost predicate FreeSomewhere(f: Fleet, kind: Kind, loc: Loc) {
    exists a: Addr :: InPool(a, PoolOf(kind)) && !Held(f.rows, loc, a) && !AddressTaken(f.nodes, loc, a)
  }

  /** With the node's list read and the node obeying, an issue succeeds exactly when some pool address is free in table and node. */
  lemma IssueFindsRoom(f: Fleet, user: nat, kind: Kind, where: Loc, env: Env)
    requires FreshKey(f, env.key) && env.listed && env.adds(0) == Obeyed
    requires Configured(if kind == Trial then DE else where, env)
    ensures Issue(f, user, kind, where, env).ok <==> FreeSomewhere(f, kind, if kind == Trial then DE else where)
  {
    var loc := if kind == Trial then DE else where;
    var used := UsedAddrs(f.rows, loc) + ListedAddrs(f.nodes, loc, true);
    if a: Addr :| InPool(a, PoolOf(kind)) && !Held(f.rows, loc, a) && !AddressTaken(f.nodes, loc, a) {
      LeastFree(used, PoolOf(kind), a);
    }
    var free := FindFree(used, PoolOf(kind));
    if free.Some? {
      assert free.value !in used && !AddressTaken(f.nodes, loc, free.value) && !Held(f.rows, loc, free.value);
    }
  }

  /** What one call of `issue_config` can lose: the location is configured, and the last answer was lost on a free address. */
  predicate IssueLost(f: Fleet, kind: Kind, where: Loc, env: Env) {
    var loc := if kind == Trial then DE else where;
    Configured(loc, env) && LastAnswerLost(f, kind, loc, env, ListedAddrs(f.nodes, loc, env.listed), 0)
  }

  /** An issue parts table and nodes exactly when the answer to its last request was lost on a free address. */
  lemma IssueAgreesExactly(f: Fleet, user: nat, kind: Kind, where: Loc, env: Env)
    requires Sound(f) && Agrees(f) && FreshKey(f, env.key)
    ensures Agrees(Issue(f, user, kind, where, env).fleet) <==> !IssueLost(f, kind, where, env)
  {
    var loc := if kind == Trial then DE else where;
    IssueLeaves(f, user, kind, where, env);
    AttemptStraysExactly(f, user, kind, loc, env, ListedAddrs(f.nodes, loc, env.listed), 0);
    var g := Issue(f, user, kind, where, env);
    if g.ok {
      GrownIsSound(f, g.fleet, g.fleet.rows[|f.rows|]);
    } else if g.fleet != f {
      StrayIsSound(f, g.fleet, Peer(loc, env.key));
    }
  }

  // ---------------------------------------------------------------- disagreement is permanent

  /** Nothing the portal does brings a missing peer back or closes its row. */
  lemma MissingStays(f: Fleet, targets: set<nat>, env: Env, i: nat)
    requires Missing(f, i)
    ensures Missing(Removed(f, targets, env), i)
  {
  }

  lemma MissingStaysIssue(f: Fleet, user: nat, kind: Kind, where: Loc, env: Env, i: nat)
    requires Missing(f, i) && FreshKey(f, env.key)
    ensures Missing(Issue(f, user, kind, where, env).fleet, i)
  {
    IssueLeaves(f, user, kind, where, env);
  }

  /** Nothing the portal does removes an orphan. */
  lemma OrphanStays(f: Fleet, targets: set<nat>, env: Env, p: Peer)
    requires Orphan(f, p)
    ensures Orphan(Removed(f, targets, env), p)
  {
  }

  lemma OrphanStaysIssue(f: Fleet, user: nat, kind: Kind, where: Loc, env: Env, p: Peer)
    requires Orphan(f, p) && FreshKey(f, env.key)
    ensures Orphan(Issue(f, user, kind, where, env).fleet, p)
  {
    IssueLeaves(f, user, kind, where, env);
    var g := Issue(f, user, kind, where, env);
    if g.ok {
      assert forall i :: 0 <= i < |f.rows| ==> g.fleet.rows[i] == f.rows[i];
    }
  }
}
