/**
 * What each portal handler does to the world, stated without loops. A refused
 * request leaves the state as it was (the HTTP status is not modelled).
 */
module Handlers {
  import opened Common
  import opened Plans
  import opened World
  import opened Credit
  import Mailbox

  // ---------------------------------------------------------------- devices

  /** The least free address of the pool from `host` on. */
  function FreeFrom(used: set<Addr>, pool: Pool, host: nat): (r: Option<Addr>)
    requires pool.first <= host
    ensures r.Some? ==> InPool(r.value, pool) && host <= r.value.host && r.value !in used
    ensures r.Some? ==> forall h :: host <= h < r.value.host ==> Addr(pool.net, h) in used
    ensures r.None? ==> forall h :: host <= h <= pool.last ==> Addr(pool.net, h) in used
    decreases pool.last + 1 - host
  {
    if pool.last < host then None
    else if Addr(pool.net, host) !in used then Some(Addr(pool.net, host))
    else FreeFrom(used, pool, host + 1)
  }

  /** `_find_free_ip`. */
  function FindFree(used: set<Addr>, pool: Pool): Option<Addr> {
    FreeFrom(used, pool, pool.first)
  }

  datatype Issued = Issued(fleet: Fleet, ok: bool)

  const ATTEMPTS := 10

  /** Attempts `n`, `n + 1`, ... of `issue_config`, avoiding the addresses tried so far. */
  function Attempt(f: Fleet, user: nat, kind: Kind, loc: Loc, env: Env, tried: set<Addr>, n: nat): Issued
    requires n <= ATTEMPTS
    decreases ATTEMPTS - n
  {
    if n == ATTEMPTS then Issued(f, false)
    else
      var a := FindFree(UsedAddrs(f.rows, loc) + tried, PoolOf(kind));
      if a.None? then Issued(f, false)
      else
        var (nodes, outcome) := AddPeer(f.nodes, loc, env.key, a.value, env.adds(n));
        match outcome
        case Added => Issued(f.(nodes := nodes, rows := f.rows + [Row(user, kind, loc, env.key, a.value, true)]), true)
        case NotAdded => Issued(f.(nodes := nodes), false)
        case AddressInUse => Attempt(f, user, kind, loc, env, tried + {a.value}, n + 1)
  }

  /** `issue_config`: a trial is issued in Germany alone; an unconfigured location issues nothing. */
  function Issue(f: Fleet, user: nat, kind: Kind, where: Loc, env: Env): Issued {
    var loc := if kind == Trial then DE else where;
    if !Configured(loc, env) then Issued(f, false)
    else Attempt(f, user, kind, loc, env, ListedAddrs(f.nodes, loc, env.listed), 0)
  }

  /** The node carried the removal of row `i` out. */
  predicate Effective(f: Fleet, i: nat, env: Env)
    requires i < |f.rows|
  {
    Configured(f.rows[i].loc, env) && !env.removes(f.rows[i].key).Refused?
  }

  /** The node confirmed the removal of row `i`. */
  predicate Confirmed(f: Fleet, i: nat, env: Env)
    requires i < |f.rows|
  {
    Configured(f.rows[i].loc, env) && env.removes(f.rows[i].key).Obeyed? && PeerOf(f.rows[i]) in f.nodes
  }

  /** The fleet after asking the nodes to remove rows `targets`: a row is closed only when confirmed. */
  function Removed(f: Fleet, targets: set<nat>, env: Env): (g: Fleet)
    ensures |g.rows| == |f.rows| && g.hand == f.hand
    ensures forall i :: 0 <= i < |f.rows| ==>
      g.rows[i] == f.rows[i].(active := f.rows[i].active && !(i in targets && Confirmed(f, i, env)))
  {
    Fleet(
      seq(|f.rows|, i requires 0 <= i < |f.rows| =>
        f.rows[i].(active := f.rows[i].active && !(i in targets && Confirmed(f, i, env)))),
      f.nodes - (set i | i in targets && i < |f.rows| && Effective(f, i, env) :: PeerOf(f.rows[i])),
      f.hand)
  }

  /** A live subscriber with room in the plan, at a location that is configured and not paused. */
  predicate MayAdd(s: State, u: nat, loc: Loc, env: Env) {
    && u < |s.users| && Live(s.users[u], env.now) && Configured(loc, env) && loc !in env.paused
    && PaidCount(s.fleet.rows, u, loc) < ConfigLimit(s.users[u].plan)
  }

  /** `add_config`. */
  function AddDevice(s: State, u: nat, where: Option<Loc>, env: Env): State {
    var loc := if where.Some? then where.value else DefaultForNew(env);
    if MayAdd(s, u, loc, env) then s.(fleet := Issue(s.fleet, u, Paid, loc, env).fleet) else s
  }

  predicate OwnPaid(rows: seq<Row>, u: nat, i: nat) {
    i < |rows| && rows[i].user == u && rows[i].active && rows[i].kind == Paid
  }

  /** `delete_config`: the caller's own active paid device. */
  function DeleteDevice(s: State, u: nat, i: nat, env: Env): State {
    if OwnPaid(s.fleet.rows, u, i) then s.(fleet := Removed(s.fleet, {i}, env)) else s
  }

  // ---------------------------------------------------------------- credit and rewards

  function Closed(p: Payment, now: int): Payment {
    p.(status := "paid", paidAt := Some(now))
  }

  predicate HasSpend(ledger: seq<Entry>, p: nat) {
    exists i :: 0 <= i < |ledger| && ledger[i].reason == Spend && ledger[i].payment == Some(p)
  }

  /** `spend_on_payment`. */
  function SpendOn(ledger: seq<Entry>, pay: Payment, p: nat): seq<Entry> {
    if pay.credit <= 0 || HasSpend(ledger, p) then ledger
    else ledger + [Entry(pay.user, -pay.credit, Spend, Some(p), None, None, None)]
  }

  predicate HasReward(rewards: seq<Reward>, p: nat) {
    exists i :: 0 <= i < |rewards| && rewards[i].source == p
  }

  /** `reward_for_payment`. */
  function RewardFor(rewards: seq<Reward>, codes: map<string, Promo>, pay: Payment, p: nat, now: int): seq<Reward> {
    if pay.code.None? || pay.code.value !in codes then rewards
    else
      var owner := codes[pay.code.value].owner;
      if owner.None? || owner.value == pay.user || PlanInfo(pay.plan).None? || pay.amount <= 0 || HasReward(rewards, p)
      then rewards
      else rewards + [Reward(owner.value, p, REWARD_DAYS, now + Days(VESTING_DAYS), None)]
  }

  predicate Due(r: Reward, now: int) {
    r.applied.None? && r.vests <= now
  }

  /** Days of vested, unapplied rewards of one referrer. */
  function DueDays(rewards: seq<Reward>, u: nat, now: int): nat {
    if rewards == [] then 0
    else
      var r := rewards[|rewards| - 1];
      DueDays(rewards[..|rewards| - 1], u, now) + if r.referrer == u && Due(r, now) then r.days else 0
  }

  /** The rewards after those of `lucky` referrers that are due have been applied. */
  function Marked(rewards: seq<Reward>, lucky: set<nat>, now: int): (m: seq<Reward>)
    ensures |m| == |rewards|
    ensures forall i :: 0 <= i < |m| ==>
      m[i] == if rewards[i].referrer in lucky && Due(rewards[i], now) then rewards[i].(applied := Some(now)) else rewards[i]
  {
    seq(|rewards|, i requires 0 <= i < |rewards| =>
      if rewards[i].referrer in lucky && Due(rewards[i], now) then rewards[i].(applied := Some(now)) else rewards[i])
  }

  function Extended(user: User, days: int): User {
    if user.until.Some? then user.(until := Some(user.until.value + Days(days))) else user
  }

  /** The users after the rewards due to `lucky` referrers have been added to their periods. */
  function Credited(users: seq<User>, rewards: seq<Reward>, lucky: set<nat>, now: int): (v: seq<User>)
    ensures |v| == |users|
    ensures forall u :: 0 <= u < |v| ==>
      v[u] == if u in lucky then Extended(users[u], DueDays(rewards, u, now)) else users[u]
  {
    seq(|users|, u requires 0 <= u < |users| =>
      if u in lucky then Extended(users[u], DueDays(rewards, u, now)) else users[u])
  }

  function LiveUsers(users: seq<User>, now: int): set<nat> {
    set u | 0 <= u < |users| && Live(users[u], now)
  }

  /** `apply_due_rewards`. */
  function RewardPass(s: State, now: int): State {
    var lucky := LiveUsers(s.users, now);
    s.(users := Credited(s.users, s.rewards, lucky, now), rewards := Marked(s.rewards, lucky, now))
  }

  function FirstReward(rewards: seq<Reward>, p: nat): (i: nat)
    ensures i <= |rewards| && (i < |rewards| ==> rewards[i].source == p)
    ensures forall k :: 0 <= k < i ==> rewards[k].source != p
    ensures i == |rewards| <==> !HasReward(rewards, p)
  {
    if rewards == [] then 0
    else
      var i := FirstReward(rewards[..|rewards| - 1], p);
      assert forall k :: 0 <= k < i ==> rewards[k] == rewards[..|rewards| - 1][k];
      if i < |rewards| - 1 then assert rewards[i] == rewards[..|rewards| - 1][i]; i
      else if rewards[|rewards| - 1].source == p then |rewards| - 1
      else
        assert forall k :: 0 <= k < |rewards| - 1 ==> rewards[k] == rewards[..|rewards| - 1][k];
        |rewards|
  }

  function FirstLegacy(ledger: seq<Entry>, p: nat): (i: nat)
    ensures i <= |ledger| && (i < |ledger| ==> ledger[i].reason == LegacyReward && ledger[i].source == Some(p))
    ensures forall k :: 0 <= k < i ==> !(ledger[k].reason == LegacyReward && ledger[k].source == Some(p))
  {
    if ledger == [] then 0
    else
      var i := FirstLegacy(ledger[..|ledger| - 1], p);
      assert forall k :: 0 <= k < i ==> ledger[k] == ledger[..|ledger| - 1][k];
      if i < |ledger| - 1 then i
      else if ledger[|ledger| - 1].reason == LegacyReward && ledger[|ledger| - 1].source == Some(p) then |ledger| - 1
      else |ledger|
  }

  function Without<T>(xs: seq<T>, i: nat): seq<T>
    requires i < |xs|
  {
    xs[..i] + xs[i + 1..]
  }

  /** `cancel_reward_for_payment`. */
  function Refund(s: State, p: nat, now: int): State {
    var i := FirstReward(s.rewards, p);
    if i < |s.rewards| then
      if s.rewards[i].applied.Some? then s else s.(rewards := Without(s.rewards, i))
    else
      var j := FirstLegacy(s.ledger, p);
      if j < |s.ledger| && !(s.ledger[j].vests.Some? && s.ledger[j].vests.value <= now)
      then s.(ledger := Without(s.ledger, j))
      else s
  }

  // ---------------------------------------------------------------- payments

  datatype Activated = Activated(state: State, ok: bool)

  predicate HoldsPaid(rows: seq<Row>, u: nat) {
    DevicesOf(rows, u, Paid) != {}
  }

  function Base(user: User, now: int): int {
    if user.until.Some? then Max(now, user.until.value) else now
  }

  function Subscribed(user: User, plan: string, days: nat, now: int): User {
    user.(subscribed := true, plan := Some(plan), until := Some(Base(user, now) + Days(days)))
  }

  function EndTrial(user: User, now: int): User {
    if OnTrial(user, now) then user.(trialUntil := Some(now)) else user
  }

  /** The users after `u` bought `days` of `plan`: period extended, rewards due added, trial closed. */
  function Renewed(users: seq<User>, rewards: seq<Reward>, u: nat, plan: string, days: nat, now: int): (w: seq<User>)
    requires u < |users|
    ensures |w| == |users| && forall v :: 0 <= v < |users| && v != u ==> w[v] == users[v]
    ensures w[u] == EndTrial(Extended(Subscribed(users[u], plan, days, now), DueDays(rewards, u, now)), now)
  {
    var v := Credited(users[u := Subscribed(users[u], plan, days, now)], rewards, {u}, now);
    v[u := EndTrial(v[u], now)]
  }

  /** What activation writes once the customer holds a paid device. */
  function Settle(s: State, p: nat, days: nat, env: Env): State
    requires p < |s.payments| && s.payments[p].user < |s.users|
  {
    var pay := s.payments[p];
    var rewards := RewardFor(s.rewards, s.codes, pay, p, env.now);
    s.(users := Renewed(s.users, rewards, pay.user, pay.plan, days, env.now),
       payments := s.payments[p := Closed(pay, env.now)],
       ledger := SpendOn(s.ledger, pay, p),
       rewards := Marked(rewards, {pay.user}, env.now),
       fleet := Removed(s.fleet, DevicesOf(s.fleet.rows, pay.user, Trial), env))
  }

  /** `activate_payment`. */
  function Activate(s: State, p: nat, env: Env): Activated
    requires p < |s.payments| && s.payments[p].user < |s.users|
  {
    var pay := s.payments[p];
    var plan := PlanInfo(pay.plan);
    if plan.None? then Activated(s, false)
    else if HoldsPaid(s.fleet.rows, pay.user) then Activated(Settle(s, p, plan.value.days, env), true)
    else
      var issued := Issue(s.fleet, pay.user, Paid, DefaultForNew(env), env);
      if issued.ok then Activated(Settle(s.(fleet := issued.fleet), p, plan.value.days, env), true)
      else Activated(s.(fleet := issued.fleet), false)
  }

  predicate Payable(s: State, p: nat) {
    p < |s.payments| && s.payments[p].status != "paid" && s.payments[p].user < |s.users|
  }

  predicate PaidStatus(status: string) {
    status == "paid" || status == "paid_over"
  }

  /** `payment_webhook`, once the signature is good. */
  function Webhook(s: State, p: nat, status: Option<string>, env: Env): State {
    if !Payable(s, p) then s
    else if status.Some? && PaidStatus(status.value) then Activate(s, p, env).state
    else
      var text := if status.None? || status.value == "" then "unknown" else status.value;
      s.(payments := s.payments[p := s.payments[p].(status := text)])
  }

  /** What Platega answers when asked for a transaction's real state. */
  datatype Answer = Unreachable | ConfirmedFor(amount: Option<int>) | Chargebacked | Canceled | OtherAnswer

  /** `platega_callback`. */
  function Callback(s: State, p: nat, answer: Answer, env: Env): State {
    if !Payable(s, p) || s.payments[p].provider != Platega then s
    else
      match answer
      case ConfirmedFor(amount) => if amount == Some(s.payments[p].amount) then Activate(s, p, env).state else s
      case Chargebacked => s.(payments := s.payments[p := s.payments[p].(status := "chargebacked")])
      case Canceled => s.(payments := s.payments[p := s.payments[p].(status := "canceled")])
      case Unreachable => s
      case OtherAnswer => s
  }

  /** `grant`: a payment of nothing, dropped again when no device could be issued. */
  function GrantAccess(s: State, u: nat, plan: string, env: Env): State {
    if u >= |s.users| || Sold(plan).None? then s
    else
      var t := s.(payments := s.payments + [Payment(u, plan, 0, Manual, "pending", None, 0, None)]);
      var a := Activate(t, |s.payments|, env);
      if a.ok then a.state else s.(fleet := a.state.fleet)
  }

  predicate WithinPlan(rows: seq<Row>, u: nat, plan: string) {
    PaidCount(rows, u, DE) <= ConfigLimit(Some(plan)) && PaidCount(rows, u, NL) <= ConfigLimit(Some(plan))
  }

  /** `_open_order` and its two callers; `accepted` is the gateway's answer. */
  function OpenOrder(s: State, u: nat, plan: string, code: Option<string>, asked: int, platega: bool, accepted: bool, now: int): State {
    if u >= |s.users| || Sold(plan).None? || !Verified(s.users[u]) || !WithinPlan(s.fleet.rows, u, plan) then s
    else
      var q := PriceOrder(s, u, Sold(plan).value, code, asked, now);
      if q.refused.Some? then s
      else s.(payments := s.payments + [Payment(u, plan, q.amount, if platega then Platega else NoProvider,
                                                if accepted then "pending" else "error", q.code, q.credit, None)])
  }

  /** `assign_peer`: `days` is 1 to 365. */
  function AssignPeer(s: State, u: nat, days: nat, now: int): State {
    if u >= |s.users| || !(1 <= days <= 365) then s
    else
      var user := s.users[u];
      s.(users := s.users[u := user.(subscribed := true, until := Some(Base(user, now) + Days(days)))])
  }

  // ---------------------------------------------------------------- trials

  const TRIAL_DAYS := 3
  const TRIAL_DAILY_CAP := 30

  /** Grants made at or after `since`. */
  function GrantsSince(grants: seq<TrialGrant>, since: int): nat {
    if grants == [] then 0
    else GrantsSince(grants[..|grants| - 1], since) + if since <= grants[|grants| - 1].at then 1 else 0
  }

  /** The unique constraints of the grant table, and the look-up that precedes them. */
  predicate TrialTaken(grants: seq<TrialGrant>, g: TrialGrant) {
    exists i :: 0 <= i < |grants|
      && (grants[i].user == g.user
          || (g.mailbox.Some? && grants[i].mailbox == g.mailbox)
          || (g.telegram.Some? && grants[i].telegram == g.telegram))
  }

  function GrantFor(user: User, u: nat, now: int): TrialGrant {
    TrialGrant(u, if user.mailbox.Some? then Some(Mailbox.Normalise(user.mailbox.value)) else None, user.telegram, now)
  }

  /** A verified account that never had a trial or a period, nobody alike had one, and the day's ceiling is not reached. */
  predicate MayTry(users: seq<User>, grants: seq<TrialGrant>, u: nat, open: bool, now: int) {
    && u < |users| && open && Verified(users[u]) && users[u].trialUntil.None? && users[u].until.None?
    && !TrialTaken(grants, GrantFor(users[u], u, now)) && GrantsSince(grants, now - Days(1)) < TRIAL_DAILY_CAP
  }

  /** A trial with its device, or none of it. */
  function RecordTrial(s: State, u: nat, g: TrialGrant, env: Env): State
    requires u < |s.users|
  {
    var issued := Issue(s.fleet, u, Trial, DE, env);
    if !issued.ok then s.(fleet := issued.fleet)
    else s.(users := s.users[u := s.users[u].(trialUntil := Some(env.now + Days(TRIAL_DAYS)))],
            grants := s.grants + [g], fleet := issued.fleet)
  }

  /** `start_trial`; `open` is false when trials are off, the mailbox is disposable or the address is over its limit. */
  function StartTrial(s: State, u: nat, open: bool, env: Env): State {
    if MayTry(s.users, s.grants, u, open, env.now) then RecordTrial(s, u, GrantFor(s.users[u], u, env.now), env) else s
  }

  // ---------------------------------------------------------------- sweeps

  predicate Lapsed(u: User, now: int) {
    u.subscribed && u.until.Some? && u.until.value < now
  }

  function LapsedRows(users: seq<User>, rows: seq<Row>, now: int): set<nat> {
    set i | 0 <= i < |rows| && rows[i].active && rows[i].user < |users| && Lapsed(users[rows[i].user], now)
  }

  predicate NoneActive(rows: seq<Row>, u: nat) {
    forall i :: 0 <= i < |rows| && rows[i].user == u ==> !rows[i].active
  }

  /** Users whose period ended lose the flag once every one of their devices is gone. */
  function Revoked(users: seq<User>, rows: seq<Row>, now: int): (v: seq<User>)
    ensures |v| == |users|
    ensures forall u :: 0 <= u < |v| ==>
      v[u] == if Lapsed(users[u], now) && NoneActive(rows, u) then users[u].(subscribed := false) else users[u]
  {
    seq(|users|, u requires 0 <= u < |users| =>
      if Lapsed(users[u], now) && NoneActive(rows, u) then users[u].(subscribed := false) else users[u])
  }

  /** `expire_due_subscriptions`. */
  function SubscriptionSweep(s: State, env: Env): State {
    var fleet := Removed(s.fleet, LapsedRows(s.users, s.fleet.rows, env.now), env);
    s.(fleet := fleet, users := Revoked(s.users, fleet.rows, env.now))
  }

  predicate TrialOver(u: User, now: int) {
    u.trialUntil.Some? && u.trialUntil.value <= now
  }

  function EndedTrialRows(users: seq<User>, rows: seq<Row>, now: int): set<nat> {
    set i | 0 <= i < |rows| && rows[i].active && rows[i].kind == Trial
            && rows[i].user < |users| && TrialOver(users[rows[i].user], now)
  }

  /** `expire_due_trials`. */
  function TrialSweep(s: State, env: Env): State {
    s.(fleet := Removed(s.fleet, EndedTrialRows(s.users, s.fleet.rows, env.now), env))
  }

  // ---------------------------------------------------------------- accounts and codes

  function Register(s: State, referred: Option<string>): State {
    s.(users := s.users + [User(false, None, None, None, None, None, referred)])
  }

  /** Confirming a mailbox, linking or unlinking Telegram. */
  function SetContacts(s: State, u: nat, mailbox: Option<string>, telegram: Option<int>): State {
    if u >= |s.users| then s
    else s.(users := s.users[u := s.users[u].(mailbox := mailbox, telegram := telegram)])
  }

  predicate HoldsCode(codes: map<string, Promo>, u: nat) {
    exists c :: c in codes && codes[c].owner == Some(u) && codes[c].active
  }

  /**
   * A new code, active: a live subscriber's own (10 percent, without limits, one
   * active at a time), or a campaign's (1 to 60 percent, no owner, not expired).
   */
  function CreateCode(s: State, code: string, promo: Promo, now: int): State {
    if code in s.codes || !promo.active || !(1 <= promo.percent <= MAX_PERCENT)
       || (promo.expires.Some? && promo.expires.value <= now) || promo.maxUses == Some(0) then s
    else if promo.owner.Some? && (promo.owner.value >= |s.users| || !Live(s.users[promo.owner.value], now)
                                  || promo.percent != 10 || promo.maxUses.Some? || promo.expires.Some?
                                  || HoldsCode(s.codes, promo.owner.value)) then s
    else s.(codes := s.codes[code := promo])
  }

  function DeactivateCode(s: State, code: string): State {
    if code !in s.codes then s
    else s.(codes := s.codes[code := s.codes[code].(active := false)])
  }

  /** A ledger entry made by hand, or points left from the rule before days were given. */
  function HandEntry(s: State, e: Entry): State {
    if e.reason == Spend then s else s.(ledger := s.ledger + [e])
  }
}
