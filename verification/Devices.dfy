/** Whose devices open and close, where and when, told on the rows themselves. */
module Devices {
  import opened Common
  import opened Plans
  import opened World
  import opened Handlers
  import opened Fleets
  import opened Runs
  import Access

  // ---------------------------------------------------------------- deletion

  /** The node took the peer of row `i` off and said so. */
  predicate TakenOff(f: Fleet, i: nat, env: Env) {
    && i < |f.rows| && (f.rows[i].loc == NL ==> env.nl)
    && Peer(f.rows[i].loc, f.rows[i].key) in f.nodes && env.removes(f.rows[i].key) == Obeyed
  }

  /** A deletion closes the caller's own active paid device, if its node confirms, and touches nobody else's. */
  lemma DeletesOwnOnly(s: State, u: nat, i: nat, env: Env)
    requires KeysDistinct(s.fleet.rows)
    ensures var t := DeleteDevice(s, u, i, env);
      && t == s.(fleet := t.fleet) && |t.fleet.rows| == |s.fleet.rows|
      && (forall j :: 0 <= j < |s.fleet.rows| && (j != i || s.fleet.rows[j].user != u || s.fleet.rows[j].kind == Trial) ==>
            t.fleet.rows[j] == s.fleet.rows[j])
      && (forall p :: p in s.fleet.nodes && !(i < |s.fleet.rows| && p == PeerOf(s.fleet.rows[i])
                                              && s.fleet.rows[i].user == u && s.fleet.rows[i].kind == Paid) ==>
            p in t.fleet.nodes && t.fleet.nodes[p] == s.fleet.nodes[p])
      && (i < |s.fleet.rows| && s.fleet.rows[i].user == u && s.fleet.rows[i].kind == Paid && s.fleet.rows[i].active ==>
            (!t.fleet.rows[i].active <==> TakenOff(s.fleet, i, env)))
  {
  }

  // ---------------------------------------------------------------- who closes a device

  /** The only occasions on which a row's peer is asked off its node. */
  predicate AskedOff(s: State, e: Event, j: nat)
    requires j < |s.fleet.rows|
  {
    var r := s.fleet.rows[j];
    || (e.step == DeletesDevice(r.user, j) && r.kind == Paid)
    || (e.step == SweepsSubscriptions && r.user < |s.users| && s.users[r.user].subscribed
        && s.users[r.user].until.Some? && s.users[r.user].until.value < e.env.now)
    || (e.step == SweepsTrials && r.kind == Trial && r.user < |s.users|
        && s.users[r.user].trialUntil.Some? && s.users[r.user].trialUntil.value <= e.env.now)
    || (r.kind == Trial && SaleOf(s, e).Some? && SaleOf(s, e).value.pay.user == r.user)
  }

  lemma RowAfterTake(f: Fleet, targets: set<nat>, env: Env, j: nat)
    requires j < |f.rows| && f.rows[j].active
    ensures !Removed(f, targets, env).rows[j].active <==> j in targets && TakenOff(f, j, env)
  {
  }

  lemma RowAfterGive(f: Fleet, u: nat, kind: Kind, where: Loc, env: Env, j: nat)
    requires j < |f.rows| && FreshKey(f, env.key)
    ensures var g := Issue(f, u, kind, where, env).fleet;
      |f.rows| <= |g.rows| && g.rows[j] == f.rows[j] && (TakenOff(g, j, env) <==> TakenOff(f, j, env))
  {
    IssueLeaves(f, u, kind, where, env);
  }

  lemma RowAfterSale(f: Fleet, pay: Payment, env: Env, j: nat)
    requires j < |f.rows| && f.rows[j].active && FreshKey(f, env.key)
    ensures var g := Moved(f, SaleMove(f, pay, env), env);
      j < |g.rows| && (!g.rows[j].active <==>
        Delivers(f, pay, env) && f.rows[j].kind == Trial && f.rows[j].user == pay.user && TakenOff(f, j, env))
  {
    if PlanInfo(pay.plan).Some? {
      if HoldsPaid(f.rows, pay.user) {
        RowAfterTake(f, DevicesOf(f.rows, pay.user, Trial), env, j);
      } else {
        RowAfterFirst(f, pay, env, j);
      }
    }
  }

  lemma RowAfterFirst(f: Fleet, pay: Payment, env: Env, j: nat)
    requires j < |f.rows| && f.rows[j].active && FreshKey(f, env.key)
    requires PlanInfo(pay.plan).Some? && !HoldsPaid(f.rows, pay.user)
    ensures var g := Moved(f, SaleMove(f, pay, env), env);
      j < |g.rows| && (!g.rows[j].active <==>
        Delivers(f, pay, env) && f.rows[j].kind == Trial && f.rows[j].user == pay.user && TakenOff(f, j, env))
  {
    var g := Issue(f, pay.user, Paid, DefaultForNew(env), env);
    RowAfterGive(f, pay.user, Paid, DefaultForNew(env), env, j);
    if g.ok {
      RowAfterTake(g.fleet, DevicesOf(g.fleet.rows, pay.user, Trial), env, j);
    }
  }

  /** A notification or a grant closes only its buyer's trial devices, once it settles. */
  lemma NoticeCloses(s: State, e: Event, j: nat)
    requires Notifies(e.step) && FreshKey(s.fleet, e.env.key) && j < |s.fleet.rows| && s.fleet.rows[j].active
    ensures var t := Apply(s, e);
      j < |t.fleet.rows| && (!t.fleet.rows[j].active <==> AskedOff(s, e, j) && TakenOff(s.fleet, j, e.env))
  {
    StepMoves(s, e);
    var asked := Asks(s, e.step);
    if asked.Some? {
      RowAfterSale(s.fleet, asked.value.pay, e.env, j);
    }
  }

  lemma OwnerAsks(s: State, e: Event, j: nat)
    requires !Notifies(e.step) && !Quiet(e.step) && j < |s.fleet.rows| && s.fleet.rows[j].active
    ensures var m := MoveOf(s, e); !m.GiveTake? && (AskedOff(s, e, j) <==> m.Take? && j in m.targets)
  {
    NoSale(s, e);
  }

  lemma OwnerCloses(s: State, e: Event, j: nat)
    requires !Notifies(e.step) && !Quiet(e.step) && FreshKey(s.fleet, e.env.key)
    requires j < |s.fleet.rows| && s.fleet.rows[j].active
    ensures var t := Apply(s, e);
      j < |t.fleet.rows| && (!t.fleet.rows[j].active <==> AskedOff(s, e, j) && TakenOff(s.fleet, j, e.env))
  {
    StepMoves(s, e);
    var m := MoveOf(s, e);
    OwnerAsks(s, e, j);
    if m.Give? {
      RowAfterGive(s.fleet, m.u, m.kind, m.where, e.env, j);
    } else if m.Take? {
      RowAfterTake(s.fleet, m.targets, e.env, j);
    }
  }

  lemma NoSale(s: State, e: Event)
    requires !Notifies(e.step)
    ensures SaleOf(s, e).None?
  {
  }

  /**
   * A device closes if and only if it was asked off its node and the node did it and
   * said so: by its owner's own deletion, by a sweep after its owner's period or trial
   * has ended, or, for a trial device, by its owner's settlement.
   */
  lemma ClosesExactly(s: State, e: Event, j: nat)
    requires FreshKey(s.fleet, e.env.key) && j < |s.fleet.rows| && s.fleet.rows[j].active
    ensures var t := Apply(s, e);
      j < |t.fleet.rows| && (!t.fleet.rows[j].active <==> AskedOff(s, e, j) && TakenOff(s.fleet, j, e.env))
  {
    if Notifies(e.step) {
      NoticeCloses(s, e, j);
    } else if Quiet(e.step) {
      QuietSteps(s, e);
      NoSale(s, e);
    } else {
      OwnerCloses(s, e, j);
    }
  }

  // ---------------------------------------------------------------- who is issued a device

  predicate Usable(loc: Loc, env: Env) {
    (loc == NL ==> env.nl) && loc !in env.paused
  }

  /** Where a device goes when no location is asked for: to a paused one only when no other is left. */
  lemma PausedOnlyIfAllAre(env: Env)
    ensures (DefaultForNew(env) == NL ==> env.nl)
    ensures DefaultForNew(env) in env.paused ==> forall loc: Loc :: !Usable(loc, env)
  {
  }

  /** A live subscriber's own request, at a usable location, with room in the plan. */
  predicate AddedTo(s: State, e: Event, r: Row) {
    && e.step.AddsDevice? && r.user == e.step.u && r.kind == Paid && r.user < |s.users|
    && s.users[r.user].subscribed && s.users[r.user].until.Some? && e.env.now < s.users[r.user].until.value
    && Usable(r.loc, e.env) && (e.step.where.Some? ==> r.loc == e.step.where.value)
    && PaidCount(s.fleet.rows, r.user, r.loc) < ConfigLimit(s.users[r.user].plan)
  }

  /** A settlement's buyer who held no paid device, at a paused location only if all are. */
  predicate SoldTo(s: State, e: Event, r: Row) {
    && SaleOf(s, e).Some? && r.user == SaleOf(s, e).value.pay.user && r.kind == Paid
    && (forall j :: 0 <= j < |s.fleet.rows| && s.fleet.rows[j].user == r.user && s.fleet.rows[j].active ==> s.fleet.rows[j].kind == Trial)
    && (r.loc in e.env.paused ==> forall loc: Loc :: !Usable(loc, e.env))
  }

  predicate TriedBy(s: State, e: Event, r: Row) {
    e.step.StartsTrial? && r.user == e.step.u && r.kind == Trial && r.loc == DE && r.user < |s.users|
    && s.users[r.user].trialUntil.None? && s.users[r.user].until.None?
  }

  lemma SaleIssues(f: Fleet, pay: Payment, env: Env)
    ensures var g := Moved(f, SaleMove(f, pay, env), env);
      && |f.rows| <= |g.rows| <= |f.rows| + 1
      && (|g.rows| > |f.rows| ==>
            var r := g.rows[|f.rows|];
            && r.active && r.user == pay.user && r.kind == Paid && r.loc == DefaultForNew(env) && r.key == env.key
            && Delivers(f, pay, env) && !HoldsPaid(f.rows, pay.user))
  {
    IssueLeaves(f, pay.user, Paid, DefaultForNew(env), env);
  }

  lemma NoneHeldRows(rows: seq<Row>, u: nat)
    requires !HoldsPaid(rows, u)
    ensures forall j :: 0 <= j < |rows| && rows[j].user == u && rows[j].active ==> rows[j].kind == Trial
  {
    forall j | 0 <= j < |rows| && rows[j].user == u && rows[j].active ensures rows[j].kind == Trial {
      assert j !in DevicesOf(rows, u, Paid);
    }
  }

  lemma NoticeIssues(s: State, e: Event)
    requires Notifies(e.step) && |Apply(s, e).fleet.rows| > |s.fleet.rows|
    ensures SoldTo(s, e, Apply(s, e).fleet.rows[|s.fleet.rows|])
  {
    StepMoves(s, e);
    var asked := Asks(s, e.step);
    if asked.Some? {
      SaleIssues(s.fleet, asked.value.pay, e.env);
      NoneHeldRows(s.fleet.rows, asked.value.pay.user);
      PausedOnlyIfAllAre(e.env);
    }
  }

  lemma OwnerIsIssued(s: State, e: Event)
    requires !Notifies(e.step) && !Quiet(e.step) && |Apply(s, e).fleet.rows| > |s.fleet.rows|
    ensures var r := Apply(s, e).fleet.rows[|s.fleet.rows|]; AddedTo(s, e, r) || TriedBy(s, e, r)
  {
    StepMoves(s, e);
    var m := MoveOf(s, e);
    if m.Give? {
      IssueLeaves(s.fleet, m.u, m.kind, m.where, e.env);
    }
  }

  /**
   * A device is issued only at a live subscriber's own request within the plan and at
   * a usable location, to the buyer of a settlement who held none, or for a first
   * trial in Germany; one at most in a step.
   */
  lemma IssuedOnlyTo(s: State, e: Event)
    requires |Apply(s, e).fleet.rows| > |s.fleet.rows|
    ensures var r := Apply(s, e).fleet.rows[|s.fleet.rows|];
      AddedTo(s, e, r) || SoldTo(s, e, r) || TriedBy(s, e, r)
  {
    if Notifies(e.step) {
      NoticeIssues(s, e);
    } else if Quiet(e.step) {
      QuietSteps(s, e);
    } else {
      OwnerIsIssued(s, e);
    }
  }

  /** Whoever may have a device gets it if a node gives one. */
  lemma AddedExactly(s: State, u: nat, where: Option<Loc>, env: Env)
    ensures var loc := if where.Some? then where.value else DefaultForNew(env);
      var t := AddDevice(s, u, where, env);
      |t.fleet.rows| > |s.fleet.rows| <==>
      && u < |s.users| && s.users[u].subscribed && s.users[u].until.Some? && env.now < s.users[u].until.value
      && Usable(loc, env) && PaidCount(s.fleet.rows, u, loc) < ConfigLimit(s.users[u].plan)
      && Issue(s.fleet, u, Paid, loc, env).ok
  {
    IssueLeaves(s.fleet, u, Paid, if where.Some? then where.value else DefaultForNew(env), env);
  }

  /** The devices a count stands for. */
  function PaidRows(rows: seq<Row>, u: nat, loc: Loc): set<nat> {
    set i | 0 <= i < |rows| && rows[i].active && rows[i].user == u && rows[i].kind == Paid && rows[i].loc == loc
  }

  lemma {:induction false} CountIsSize(rows: seq<Row>, u: nat, loc: Loc)
    ensures PaidCount(rows, u, loc) == |PaidRows(rows, u, loc)|
  {
    if rows != [] {
      var n := |rows| - 1;
      CountIsSize(rows[..n], u, loc);
      LastOfPaidRows(rows, u, loc);
    }
  }

  lemma LastOfPaidRows(rows: seq<Row>, u: nat, loc: Loc)
    requires rows != []
    ensures var n, r := |rows| - 1, rows[|rows| - 1];
      && n !in PaidRows(rows[..n], u, loc)
      && PaidRows(rows, u, loc) == PaidRows(rows[..n], u, loc)
           + (if r.active && r.user == u && r.kind == Paid && r.loc == loc then {n} else {})
  {
  }

  /** In every run paid devices have 10.88.88.42 to .199, trial devices 10.88.89.10 to .250 in Germany: never the same address. */
  lemma AddressesByKind(s: State, run: seq<Event>, i: nat)
    requires Initial(s) && ValidRun(s, run) && i < |Exec(s, run).fleet.rows|
    ensures var r := Exec(s, run).fleet.rows[i];
      if r.kind == Paid then r.addr.net == 88 && 42 <= r.addr.host <= 199
      else r.addr.net == 89 && 10 <= r.addr.host <= 250 && r.loc == DE
  {
    FleetAlwaysSound(s, run);
  }

  // ---------------------------------------------------------------- the flag

  /** The subscription sweep takes the flag exactly from those whose period has ended and whose devices are all gone. */
  lemma FlagGoesExactly(s: State, env: Env, u: nat)
    requires u < |s.users| && s.users[u].subscribed
    ensures var t := SubscriptionSweep(s, env);
      && |t.users| == |s.users| && t.users[u] == s.users[u].(subscribed := t.users[u].subscribed)
      && (!t.users[u].subscribed <==>
            s.users[u].until.Some? && s.users[u].until.value < env.now
            && forall j :: 0 <= j < |t.fleet.rows| && t.fleet.rows[j].user == u ==> !t.fleet.rows[j].active)
  {
  }

  /** No other step takes it. */
  lemma OnlySweepsTakeTheFlag(s: State, e: Event, u: nat)
    requires u < |s.users| && s.users[u].subscribed && e.step != SweepsSubscriptions
    ensures u < |Apply(s, e).users| && Apply(s, e).users[u].subscribed
  {
    if Notifies(e.step) {
      NoticeKeepsFlag(s, e, u);
    } else if Quiet(e.step) {
      Access.QuietKeepsUsers(s, e);
    } else {
      DeviceStepsKeepFlag(s, e, u, Apply(s, e));
    }
  }

  lemma DeviceStepsKeepFlag(s: State, e: Event, u: nat, t: State)
    requires !Quiet(e.step) && !Notifies(e.step) && e.step != SweepsSubscriptions
    requires u < |s.users| && s.users[u].subscribed && t == Apply(s, e)
    ensures u < |t.users| && t.users[u].subscribed
  {
  }

  lemma NoticeKeepsFlag(s: State, e: Event, u: nat)
    requires Notifies(e.step) && u < |s.users| && s.users[u].subscribed
    ensures u < |Apply(s, e).users| && Apply(s, e).users[u].subscribed
  {
    Access.NoticeKeepsUsers(s, e);
  }
}
