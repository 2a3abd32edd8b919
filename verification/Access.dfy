/** Who holds a device and for how long: coverage by the sweeps over whole runs, and what a job leaves. */
module Access {
  import opened Common
  import opened Plans
  import opened World
  import opened Handlers
  import opened Fleets
  import opened Runs

  // ---------------------------------------------------------------- coverage

  /** The owner's record carries what the sweeps look for. */
  predicate Swept(u: User, kind: Kind) {
    if kind == Paid then u.subscribed && u.until.Some? else u.trialUntil.Some?
  }

  predicate Covered(users: seq<User>, rows: seq<Row>) {
    forall i :: 0 <= i < |rows| && rows[i].active ==>
      rows[i].user < |users| && Swept(users[rows[i].user], rows[i].kind)
  }

  predicate KeepsUser(v: User, w: User) {
    (v.subscribed ==> w.subscribed) && (v.until.Some? ==> w.until.Some?) && (v.trialUntil.Some? ==> w.trialUntil.Some?)
  }

  predicate KeepsUsers(v: seq<User>, w: seq<User>) {
    |v| <= |w| && forall u :: 0 <= u < |v| ==> KeepsUser(v[u], w[u])
  }

  lemma SettleKeepsUsers(s: State, p: nat, days: nat, env: Env)
    requires p < |s.payments| && s.payments[p].user < |s.users|
    ensures KeepsUsers(s.users, Settle(s, p, days, env).users)
    ensures var u := s.payments[p].user; Swept(Settle(s, p, days, env).users[u], Paid)
  {
  }

  lemma CoveredAfterRemoval(users: seq<User>, f: Fleet, targets: set<nat>, env: Env)
    requires Covered(users, f.rows)
    ensures Covered(users, Removed(f, targets, env).rows)
  {
  }

  lemma CoveredAfterIssue(users: seq<User>, f: Fleet, u: nat, kind: Kind, where: Loc, env: Env)
    requires Covered(users, f.rows)
    requires Issue(f, u, kind, where, env).ok ==> u < |users| && Swept(users[u], kind)
    ensures Covered(users, Issue(f, u, kind, where, env).fleet.rows)
  {
    IssueLeaves(f, u, kind, where, env);
  }

  /** A notification never takes anything from a user's record; nor does any step off the nodes. */
  lemma NoticeKeepsUsers(s: State, e: Event)
    requires Notifies(e.step)
    ensures KeepsUsers(s.users, Apply(s, e).users) && Apply(s, e).grants == s.grants
  {
    var end := NotificationEnds(s, e);
    if end.Bought? {
      var v, days := end.base.payments[end.p].user, PlanInfo(end.base.payments[end.p].plan).value.days;
      SettleKeepsUsers(end.base, end.p, days, e.env);
      SettleKeepsUsers(end.base.(fleet := Issue(end.base.fleet, v, Paid, DefaultForNew(e.env), e.env).fleet), end.p, days, e.env);
    }
  }

  lemma QuietKeepsUsers(s: State, e: Event)
    requires Quiet(e.step)
    ensures KeepsUsers(s.users, Apply(s, e).users) && Apply(s, e).grants == s.grants
  {
  }

  lemma CoveredAfterActivate(s: State, p: nat, env: Env)
    requires p < |s.payments| && s.payments[p].user < |s.users| && Covered(s.users, s.fleet.rows)
    ensures var a := Activate(s, p, env); Covered(a.state.users, a.state.fleet.rows)
  {
    var pay, a := s.payments[p], Activate(s, p, env);
    var plan := PlanInfo(pay.plan);
    if plan.Some? {
      var g := Issue(s.fleet, pay.user, Paid, DefaultForNew(env), env);
      var t := if HoldsPaid(s.fleet.rows, pay.user) then s else s.(fleet := g.fleet);
      if a.ok {
        SettleKeepsUsers(t, p, plan.value.days, env);
      }
      if !HoldsPaid(s.fleet.rows, pay.user) {
        CoveredAfterIssue(a.state.users, s.fleet, pay.user, Paid, DefaultForNew(env), env);
      }
      CoveredAfterRemoval(a.state.users, t.fleet, DevicesOf(t.fleet.rows, pay.user, Trial), env);
    }
  }

  lemma CoveredAfterSweep(s: State, env: Env)
    requires Covered(s.users, s.fleet.rows)
    ensures var t := SubscriptionSweep(s, env); Covered(t.users, t.fleet.rows)
  {
  }

  /** No step ever loses track of a device: its owner stays in the sweep's view. */
  lemma CoveredStep(s: State, e: Event)
    requires Covered(s.users, s.fleet.rows)
    ensures Covered(Apply(s, e).users, Apply(s, e).fleet.rows)
  {
    if Notifies(e.step) {
      CoveredAfterNotice(s, e);
    } else if Quiet(e.step) {
      CoveredQuiet(s, e);
    } else {
      CoveredDevices(s, e);
    }
  }

  lemma CoveredAfterNotice(s: State, e: Event)
    requires Covered(s.users, s.fleet.rows) && Notifies(e.step)
    ensures Covered(Apply(s, e).users, Apply(s, e).fleet.rows)
  {
    var end := NotificationEnds(s, e);
    match end {
      case Bought(base, p) => CoveredAfterActivate(base, p, e.env);
      case NoDevice(u) => CoveredAfterIssue(s.users, s.fleet, u, Paid, DefaultForNew(e.env), e.env);
      case StatusOnly(_) =>
    }
  }

  lemma CoveredAfterAdd(s: State, u: nat, where: Option<Loc>, env: Env)
    requires Covered(s.users, s.fleet.rows)
    ensures var t := AddDevice(s, u, where, env); Covered(t.users, t.fleet.rows)
  {
    if AddDevice(s, u, where, env) != s {
      CoveredAfterIssue(s.users, s.fleet, u, Paid, if where.Some? then where.value else DefaultForNew(env), env);
    }
  }

  lemma CoveredAfterTrial(s: State, u: nat, open: bool, env: Env)
    requires Covered(s.users, s.fleet.rows)
    ensures var t := StartTrial(s, u, open, env); Covered(t.users, t.fleet.rows)
  {
    if StartTrial(s, u, open, env) != s {
      CoveredAfterIssue(StartTrial(s, u, open, env).users, s.fleet, u, Trial, DE, env);
    }
  }

  lemma CoveredAfterDelete(s: State, u: nat, i: nat, env: Env)
    requires Covered(s.users, s.fleet.rows)
    ensures var t := DeleteDevice(s, u, i, env); Covered(t.users, t.fleet.rows)
  {
    CoveredAfterRemoval(s.users, s.fleet, {i}, env);
  }

  lemma CoveredAfterTrialSweep(s: State, env: Env)
    requires Covered(s.users, s.fleet.rows)
    ensures var t := TrialSweep(s, env); Covered(t.users, t.fleet.rows)
  {
    CoveredAfterRemoval(s.users, s.fleet, EndedTrialRows(s.users, s.fleet.rows, env.now), env);
  }

  lemma CoveredDevices(s: State, e: Event)
    requires Covered(s.users, s.fleet.rows) && !Notifies(e.step) && !Quiet(e.step)
    ensures Covered(Apply(s, e).users, Apply(s, e).fleet.rows)
  {
    match e.step {
      case AddsDevice(u, where) => CoveredAfterAdd(s, u, where, e.env);
      case DeletesDevice(u, i) => CoveredAfterDelete(s, u, i, e.env);
      case StartsTrial(u, open) => CoveredAfterTrial(s, u, open, e.env);
      case SweepsSubscriptions => CoveredAfterSweep(s, e.env);
      case SweepsTrials => CoveredAfterTrialSweep(s, e.env);
    }
  }

  lemma CoveredQuiet(s: State, e: Event)
    requires Covered(s.users, s.fleet.rows) && Quiet(e.step)
    ensures Covered(Apply(s, e).users, Apply(s, e).fleet.rows)
  {
    QuietSteps(s, e);
    QuietKeepsUsers(s, e);
  }

  lemma {:induction false} CoveredFrom(s: State, run: seq<Event>)
    requires Covered(s.users, s.fleet.rows)
    ensures Covered(Exec(s, run).users, Exec(s, run).fleet.rows)
  {
    if run != [] {
      CoveredFrom(s, run[..|run| - 1]);
      CoveredStep(Exec(s, run[..|run| - 1]), run[|run| - 1]);
    }
  }

  /** In every run, failures or not, each active device's owner carries what the sweeps look for. */
  lemma DevicesAlwaysCovered(s: State, run: seq<Event>)
    requires Initial(s)
    ensures Covered(Exec(s, run).users, Exec(s, run).fleet.rows)
  {
    CoveredFrom(s, run);
  }

  // ---------------------------------------------------------------- what a sweep leaves

  /** The nodes are reachable and do as they are told. */
  ghost predicate NothingRefused(env: Env) {
    env.nl && forall k :: env.removes(k) == Obeyed
  }

  /** A peer is there for an active device that is still entitled at `now`. */
  ghost predicate Backed(s: State, p: Peer, now: int) {
    exists i :: 0 <= i < |s.fleet.rows| && PeerOf(s.fleet.rows[i]) == p && s.fleet.rows[i].active
      && s.fleet.rows[i].user < |s.users| && Entitled(s.users[s.fleet.rows[i].user], s.fleet.rows[i].kind, now)
  }

  /** Every portal peer on a node is backed. */
  ghost predicate OnlyEntitled(s: State, now: int) {
    forall p :: p in s.fleet.nodes && p !in s.fleet.hand ==> Backed(s, p, now)
  }

  /** Every peer on a node is hand-made, an orphan no row knows of, or backed. */
  ghost predicate DevicesEntitled(s: State, now: int) {
    forall p :: p in s.fleet.nodes && p !in s.fleet.hand && !Orphan(s.fleet, p) ==> Backed(s, p, now)
  }

  predicate Entitled(u: User, kind: Kind, now: int) {
    if kind == Paid then u.until.Some? && now <= u.until.value else u.trialUntil.Some? && now < u.trialUntil.value
  }

  /** `expire_subscriptions.main`: rewards first, then the two sweeps. */
  function HourlyJob(s: State, env: Env): State {
    TrialSweep(SubscriptionSweep(RewardPass(s, env.now), env), env)
  }

  /** A row of `targets` whose peer is on its node is closed when nothing is refused. */
  lemma OnNodeIsClosed(f: Fleet, targets: set<nat>, env: Env, i: nat)
    requires NothingRefused(env) && i in targets && i < |f.rows| && PeerOf(f.rows[i]) in f.nodes
    ensures !Removed(f, targets, env).rows[i].active
  {
  }

  /** Every active device of a kind that is on its node is entitled. */
  ghost predicate KindEntitled(s: State, kind: Kind, now: int) {
    forall i :: 0 <= i < |s.fleet.rows| && s.fleet.rows[i].active && s.fleet.rows[i].kind == kind
      && PeerOf(s.fleet.rows[i]) in s.fleet.nodes && s.fleet.rows[i].user < |s.users|
      ==> Entitled(s.users[s.fleet.rows[i].user], kind, now)
  }

  /** A removal takes entitlement from nobody. */
  lemma RemovalKeepsEntitled(s: State, targets: set<nat>, env: Env, kind: Kind, now: int)
    requires KindEntitled(s, kind, now)
    ensures KindEntitled(s.(fleet := Removed(s.fleet, targets, env)), kind, now)
  {
  }

  lemma SweptRowsGone(s: State, env: Env)
    requires Sound(s.fleet) && Covered(s.users, s.fleet.rows) && NothingRefused(env)
    ensures var t := SubscriptionSweep(s, env);
      Sound(t.fleet) && Covered(t.users, t.fleet.rows) && KindEntitled(t, Paid, env.now)
  {
    var t := SubscriptionSweep(s, env);
    var due := LapsedRows(s.users, s.fleet.rows, env.now);
    RemovedNodes(s.fleet, due, env);
    forall i | 0 <= i < |s.fleet.rows| && i in due && PeerOf(s.fleet.rows[i]) in s.fleet.nodes ensures !t.fleet.rows[i].active {
      OnNodeIsClosed(s.fleet, due, env, i);
    }
    RemovedIsSound(s.fleet, due, env);
    CoveredAfterSweep(s, env);
  }

  lemma TrialRowsGone(s: State, env: Env)
    requires Sound(s.fleet) && Covered(s.users, s.fleet.rows) && NothingRefused(env)
    ensures var t := TrialSweep(s, env);
      Sound(t.fleet) && Covered(t.users, t.fleet.rows) && KindEntitled(t, Trial, env.now)
  {
    var t := TrialSweep(s, env);
    var due := EndedTrialRows(s.users, s.fleet.rows, env.now);
    RemovedNodes(s.fleet, due, env);
    forall i | 0 <= i < |s.fleet.rows| && i in due && PeerOf(s.fleet.rows[i]) in s.fleet.nodes ensures !t.fleet.rows[i].active {
      OnNodeIsClosed(s.fleet, due, env, i);
    }
    RemovedIsSound(s.fleet, due, env);
    CoveredAfterRemoval(s.users, s.fleet, due, env);
  }

  lemma PeersEntitled(s: State, now: int)
    requires Sound(s.fleet) && Covered(s.users, s.fleet.rows)
    requires KindEntitled(s, Paid, now) && KindEntitled(s, Trial, now)
    ensures DevicesEntitled(s, now)
  {
  }

  lemma BothSweeps(s: State, env: Env)
    requires Sound(s.fleet) && Covered(s.users, s.fleet.rows) && NothingRefused(env)
    ensures DevicesEntitled(TrialSweep(SubscriptionSweep(s, env), env), env.now)
  {
    SweptRowsGone(s, env);
    var t := SubscriptionSweep(s, env);
    TrialRowsGone(t, env);
    RemovalKeepsEntitled(t, EndedTrialRows(t.users, t.fleet.rows, env.now), env, Paid, env.now);
    PeersEntitled(TrialSweep(t, env), env.now);
  }

  /** The two sweeps make no orphans and remove none. */
  lemma SweepsKeepOrphans(s: State, env: Env, p: Peer)
    ensures Orphan(TrialSweep(SubscriptionSweep(s, env), env).fleet, p) <==> Orphan(s.fleet, p)
  {
    var t := SubscriptionSweep(s, env);
    var w := TrialSweep(t, env);
    if Orphan(w.fleet, p) {
      RemovedOrphansNone(t.fleet, EndedTrialRows(t.users, t.fleet.rows, env.now), env, p);
      RemovedOrphansNone(s.fleet, LapsedRows(s.users, s.fleet.rows, env.now), env, p);
    }
    if Orphan(s.fleet, p) {
      OrphanStays(s.fleet, LapsedRows(s.users, s.fleet.rows, env.now), env, p);
      OrphanStays(t.fleet, EndedTrialRows(t.users, t.fleet.rows, env.now), env, p);
    }
  }

  /**
   * Reachable through any refusals and any lost answers, then one hourly job that
   * is refused nothing: every peer left that a device row knows of belongs to an
   * active device whose paid period or trial has not ended.
   */
  lemma HourlyJobClearsDevices(s: State, run: seq<Event>, env: Env)
    requires Initial(s) && ValidRun(s, run) && NothingRefused(env)
    ensures DevicesEntitled(HourlyJob(Exec(s, run), env), env.now)
  {
    var t := Exec(s, run);
    FleetAlwaysSound(s, run);
    DevicesAlwaysCovered(s, run);
    assert KeepsUsers(t.users, RewardPass(t, env.now).users);
    BothSweeps(RewardPass(t, env.now), env);
  }

  /**
   * The same job leaves no portal peer at all whose period or trial has ended, if and
   * only if no orphan was on a node before it: orphans are all that it cannot reach.
   */
  lemma HourlyJobClears(s: State, run: seq<Event>, env: Env)
    requires Initial(s) && ValidRun(s, run) && NothingRefused(env)
    ensures OnlyEntitled(HourlyJob(Exec(s, run), env), env.now) <==> forall p :: !Orphan(Exec(s, run).fleet, p)
  {
    HourlyJobClearsDevices(s, run, env);
    var t := RewardPass(Exec(s, run), env.now);
    var w := TrialSweep(SubscriptionSweep(t, env), env);
    forall p ensures Orphan(t.fleet, p) <==> Orphan(w.fleet, p) {
      SweepsKeepOrphans(t, env, p);
    }
  }

  /**
   * A lost removal keeps its owner subscribed for good, from any covered state on:
   * the device can never be closed, so no sweep ever clears the flag.
   */
  lemma LostRemovalKeepsTheFlag(s: State, rest: seq<Event>, i: nat)
    requires Covered(s.users, s.fleet.rows) && ValidRun(s, rest)
    requires Missing(s.fleet, i) && s.fleet.rows[i].kind == Paid
    ensures var r, t := s.fleet.rows[i], Exec(s, rest);
      && i < |t.fleet.rows| && t.fleet.rows[i] == r
      && r.user < |t.users| && t.users[r.user].subscribed
  {
    DisagreementIsPermanent(s, rest, i, Peer(DE, 0));
    DevicesPersist(s, rest);
    CoveredFrom(s, rest);
  }
}
