/**
 * The data: portal database rows, the peers on the entry nodes, and the node
 * contract (pwa/db/models.py, pwa/services/provisioner.py).
 *
 * Rows of a table are identified by their position; a table only grows, except
 * where a handler deletes.
 */
module World {
  import opened Common

  type Key = nat

  datatype Loc = DE | NL
  datatype Kind = Paid | Trial
  /** The address 10.88.<net>.<host>. */
  datatype Addr = Addr(net: nat, host: nat)
  datatype Pool = Pool(net: nat, first: nat, last: nat)

  const CLIENT_POOL := Pool(88, 42, 199)
  const TRIAL_POOL := Pool(89, 10, 250)

  function PoolOf(kind: Kind): Pool {
    if kind == Trial then TRIAL_POOL else CLIENT_POOL
  }

  predicate InPool(a: Addr, pool: Pool) {
    a.net == pool.net && pool.first <= a.host <= pool.last
  }

  datatype Peer = Peer(loc: Loc, key: Key)

  datatype Row = Row(user: nat, kind: Kind, loc: Loc, key: Key, addr: Addr, active: bool)

  function PeerOf(r: Row): Peer {
    Peer(r.loc, r.key)
  }

  /**
   * The device table beside what the entry nodes really hold. `hand` is the
   * part of `nodes` the portal never issued.
   */
  datatype Fleet = Fleet(rows: seq<Row>, nodes: map<Peer, Addr>, hand: map<Peer, Addr>)

  datatype User = User(
    subscribed: bool, until: Option<int>, plan: Option<string>, trialUntil: Option<int>,
    mailbox: Option<string>, telegram: Option<int>, referred: Option<string>)

  datatype Provider = NoProvider | Platega | Manual

  datatype Payment = Payment(
    user: nat, plan: string, amount: int, provider: Provider, status: string,
    code: Option<string>, credit: int, paidAt: Option<int>)

  datatype Promo = Promo(
    owner: Option<nat>, percent: nat, maxUses: Option<nat>, active: bool, expires: Option<int>)

  datatype Reason = Spend | LegacyReward | Adjustment

  datatype Entry = Entry(
    user: nat, delta: int, reason: Reason, payment: Option<nat>, source: Option<nat>,
    vests: Option<int>, expires: Option<int>)

  datatype Reward = Reward(referrer: nat, source: nat, days: nat, vests: int, applied: Option<int>)

  datatype TrialGrant = TrialGrant(user: nat, mailbox: Option<string>, telegram: Option<int>, at: int)

  datatype State = State(
    now: int, users: seq<User>, fleet: Fleet, payments: seq<Payment>, codes: map<string, Promo>,
    ledger: seq<Entry>, rewards: seq<Reward>, grants: seq<TrialGrant>)

  // ---------------------------------------------------------------- surroundings

  /**
   * How one call to a node goes. `Refused` has no effect and reports whether
   * the reason read "ip in use"; `Lost` is a call the node carried out whose
   * answer never arrived.
   */
  datatype Reply = Obeyed | Refused(inUse: bool) | Lost

  /**
   * What a handler meets from outside: the clock, which locations are
   * configured and paused, whether the node's peer list could be read, the key
   * pair just generated, and how every node call goes.
   */
  datatype Env = Env(
    now: int, nl: bool, paused: set<Loc>, listed: bool, key: Key,
    adds: nat -> Reply, removes: Key -> Reply)

  ghost predicate NothingLost(env: Env) {
    (forall n :: env.adds(n) != Lost) && (forall k :: env.removes(k) != Lost)
  }

  predicate Configured(loc: Loc, env: Env) {
    loc == DE || env.nl
  }

  /** `locations.default_for_new`. */
  function DefaultForNew(env: Env): Loc {
    if DE !in env.paused then DE else if env.nl then NL else DE
  }

  // ---------------------------------------------------------------- node contract

  datatype Outcome = Added | AddressInUse | NotAdded

  predicate AddressTaken(nodes: map<Peer, Addr>, loc: Loc, a: Addr) {
    exists p :: p in nodes && p.loc == loc && nodes[p] == a
  }

  /** `_add_peer_at`: a duplicate key or address is rejected, any call may be refused. */
  function AddPeer(nodes: map<Peer, Addr>, loc: Loc, key: Key, a: Addr, reply: Reply): (map<Peer, Addr>, Outcome) {
    if reply.Refused? then (nodes, if reply.inUse then AddressInUse else NotAdded)
    else if Peer(loc, key) in nodes then (nodes, NotAdded)
    else if AddressTaken(nodes, loc, a) then (nodes, if reply.Obeyed? then AddressInUse else NotAdded)
    else (nodes[Peer(loc, key) := a], if reply.Obeyed? then Added else NotAdded)
  }

  /** `_remove_peer_at`: removing an absent peer is a failure. */
  function RemovePeer(nodes: map<Peer, Addr>, p: Peer, reply: Reply): (map<Peer, Addr>, bool) {
    if reply.Refused? || p !in nodes then (nodes, false)
    else (nodes - {p}, reply.Obeyed?)
  }

  // ---------------------------------------------------------------- reading state

  /** `has_active_subscription`, and `_subscribed` of the credit service. */
  predicate Live(u: User, now: int) {
    u.subscribed && u.until.Some? && now < u.until.value
  }

  /** `trial_active`. */
  predicate OnTrial(u: User, now: int) {
    u.trialUntil.Some? && now < u.trialUntil.value
  }

  predicate Verified(u: User) {
    u.mailbox.Some? || u.telegram.Some?
  }

  /** Addresses the mirror knows to be taken in a location. */
  function UsedAddrs(rows: seq<Row>, loc: Loc): set<Addr> {
    set i | 0 <= i < |rows| && rows[i].active && rows[i].loc == loc :: rows[i].addr
  }

  /** `_entry_used_ips`: the node's own list, or nothing when it cannot be read. */
  function ListedAddrs(nodes: map<Peer, Addr>, loc: Loc, listed: bool): set<Addr> {
    if listed then set p | p in nodes && p.loc == loc :: nodes[p] else {}
  }

  /** A user's active devices of one kind. */
  function DevicesOf(rows: seq<Row>, u: nat, kind: Kind): set<nat> {
    set i | 0 <= i < |rows| && rows[i].active && rows[i].user == u && rows[i].kind == kind
  }

  /** How many active paid devices a user holds in a location. */
  function PaidCount(rows: seq<Row>, u: nat, loc: Loc): nat {
    if rows == [] then 0
    else
      var r := rows[|rows| - 1];
      PaidCount(rows[..|rows| - 1], u, loc)
      + if r.active && r.user == u && r.kind == Paid && r.loc == loc then 1 else 0
  }
}
