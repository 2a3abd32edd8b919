/** How many paid devices an account holds: what the plan allows, over whole runs, and what a settlement can break. */
module Limits {
  import opened Common
  import opened Plans
  import opened World
  import opened Handlers
  import opened Fleets
  import opened Runs
  import opened Access
  import Ledger
  import Devices

  // ---------------------------------------------------------------- counting

  lemma {:induction false} FewerActive(rows: seq<Row>, less: seq<Row>, u: nat, loc: Loc)
    requires |less| == |rows|
    requires forall i :: 0 <= i < |rows| ==> less[i] == rows[i] || less[i] == rows[i].(active := false)
    ensures PaidCount(less, u, loc) <= PaidCount(rows, u, loc)
    ensures (forall i :: 0 <= i < |rows| && less[i] != rows[i] ==> rows[i].kind == Trial) ==>
      PaidCount(less, u, loc) == PaidCount(rows, u, loc)
  {
    if rows != [] {
      FewerActive(rows[..|rows| - 1], less[..|rows| - 1], u, loc);
    }
  }

  lemma {:induction false} NoneHeld(rows: seq<Row>, u: nat, loc: Loc)
    requires !HoldsPaid(rows, u)
    ensures PaidCount(rows, u, loc) == 0
  {
    if rows != [] {
      var short := rows[..|rows| - 1];
      assert DevicesOf(short, u, Paid) <= DevicesOf(rows, u, Paid);
      NoneHeld(short, u, loc);
      assert |rows| - 1 !in DevicesOf(rows, u, Paid);
    }
  }

  lemma CountAfterIssue(f: Fleet, v: nat, kind: Kind, where: Loc, env: Env, u: nat, loc: Loc)
    ensures var g := Issue(f, v, kind, where, env);
      PaidCount(g.fleet.rows, u, loc)
      == PaidCount(f.rows, u, loc) + if g.ok && kind == Paid && v == u && where == loc then 1 else 0
  {
    IssueLeaves(f, v, kind, where, env);
    var g := Issue(f, v, kind, where, env);
    if g.ok {
      assert g.fleet.rows[..|f.rows|] == f.rows;
    }
  }

  lemma CountAfterRemoval(f: Fleet, targets: set<nat>, env: Env, u: nat, loc: Loc)
    ensures PaidCount(Removed(f, targets, env).rows, u, loc) <= PaidCount(f.rows, u, loc)
    ensures (forall i :: i in targets && i < |f.rows| ==> f.rows[i].kind == Trial) ==>
      PaidCount(Removed(f, targets, env).rows, u, loc) == PaidCount(f.rows, u, loc)
  {
    FewerActive(f.rows, Removed(f, targets, env).rows, u, loc);
  }

  lemma TrialsGone(f: Fleet, v: nat, env: Env, u: nat, loc: Loc)
    ensures PaidCount(Removed(f, DevicesOf(f.rows, v, Trial), env).rows, u, loc) == PaidCount(f.rows, u, loc)
  {
    CountAfterRemoval(f, DevicesOf(f.rows, v, Trial), env, u, loc);
  }

  /** What a buyer without devices is issued. */
  lemma IssuedCount(f: Fleet, pay: Payment, env: Env, u: nat, loc: Loc)
    requires PlanInfo(pay.plan).Some? && !HoldsPaid(f.rows, pay.user)
    ensures PaidCount(Moved(f, SaleMove(f, pay, env), env).rows, u, loc) == PaidCount(f.rows, u, loc)
      + if Issue(f, pay.user, Paid, DefaultForNew(env), env).ok && u == pay.user && loc == DefaultForNew(env) then 1 else 0
  {
    var g := Issue(f, pay.user, Paid, DefaultForNew(env), env);
    CountAfterIssue(f, pay.user, Paid, DefaultForNew(env), env, u, loc);
    if g.ok {
      TrialsGone(g.fleet, pay.user, env, u, loc);
    }
  }

  /** A settlement gives the buyer one device if they held none, and changes no other count. */
  lemma SaleCount(f: Fleet, pay: Payment, env: Env, u: nat, loc: Loc)
    ensures PaidCount(Moved(f, SaleMove(f, pay, env), env).rows, u, loc) == PaidCount(f.rows, u, loc)
      + if Delivers(f, pay, env) && !HoldsPaid(f.rows, pay.user) && u == pay.user && loc == DefaultForNew(env) then 1 else 0
    ensures !HoldsPaid(f.rows, pay.user) && u == pay.user ==> PaidCount(f.rows, u, loc) == 0
  {
    if PlanInfo(pay.plan).Some? {
      if HoldsPaid(f.rows, pay.user) {
        TrialsGone(f, pay.user, env, u, loc);
      } else {
        IssuedCount(f, pay, env, u, loc);
      }
    }
    if !HoldsPaid(f.rows, pay.user) && u == pay.user {
      NoneHeld(f.rows, pay.user, loc);
    }
  }

  lemma NoticeCount(s: State, e: Event, u: nat, loc: Loc)
    requires Notifies(e.step)
    ensures var n, b := PaidCount(Apply(s, e).fleet.rows, u, loc), SaleOf(s, e);
      && n == PaidCount(s.fleet.rows, u, loc)
           + (if b.Some? && !HoldsPaid(s.fleet.rows, u) && u == b.value.pay.user && loc == DefaultForNew(e.env) then 1 else 0)
      && n <= Max(1, PaidCount(s.fleet.rows, u, loc))
  {
    StepMoves(s, e);
    var asked := Asks(s, e.step);
    if asked.Some? {
      SaleCount(s.fleet, asked.value.pay, e.env, u, loc);
    }
  }

  lemma AddedCount(s: State, v: nat, where: Option<Loc>, env: Env, u: nat, loc: Loc)
    ensures var t := AddDevice(s, v, where, env);
      && t.users == s.users
      && PaidCount(t.fleet.rows, u, loc) >= PaidCount(s.fleet.rows, u, loc)
      && (PaidCount(t.fleet.rows, u, loc) > PaidCount(s.fleet.rows, u, loc) ==>
            u < |s.users| && PaidCount(t.fleet.rows, u, loc) <= ConfigLimit(s.users[u].plan))
  {
    CountAfterIssue(s.fleet, v, Paid, if where.Some? then where.value else DefaultForNew(env), env, u, loc);
  }

  /** Trials, deletions and sweeps add no paid device. */
  lemma OthersMove(s: State, e: Event)
    requires !Notifies(e.step) && !Quiet(e.step) && !e.step.AddsDevice?
    ensures var m := MoveOf(s, e); m.Stay? || m.Take? || (m.Give? && m.kind == Trial)
  {
  }

  lemma CountAfterOthers(s: State, e: Event, u: nat, loc: Loc)
    requires !Notifies(e.step) && !Quiet(e.step) && !e.step.AddsDevice?
    ensures PaidCount(Apply(s, e).fleet.rows, u, loc) <= PaidCount(s.fleet.rows, u, loc)
  {
    var m := MoveOf(s, e);
    OthersMove(s, e);
    StepMoves(s, e);
    match m {
      case Take(targets) => CountAfterRemoval(s.fleet, targets, e.env, u, loc);
      case Give(v, kind, where) => CountAfterIssue(s.fleet, v, kind, where, e.env, u, loc);
      case Stay =>
    }
  }

  // ---------------------------------------------------------------- what a step adds

  /** A step that adds to a user's devices in a location leaves them within the plan then held. */
  lemma StepWithinLimit(s: State, e: Event, u: nat, loc: Loc)
    ensures var t := Apply(s, e);
      PaidCount(t.fleet.rows, u, loc) > PaidCount(s.fleet.rows, u, loc) ==>
        PaidCount(t.fleet.rows, u, loc) <= ConfigLimit(if u < |t.users| then t.users[u].plan else None)
  {
    if Notifies(e.step) {
      NoticeCount(s, e, u, loc);
    } else if Quiet(e.step) {
      QuietSteps(s, e);
    } else if e.step.AddsDevice? {
      AddedCount(s, e.step.u, e.step.where, e.env, u, loc);
    } else {
      CountAfterOthers(s, e, u, loc);
    }
  }

  /** Whatever plans come and go, no account ever holds more than five paid devices in one location. */
  lemma {:induction false} NeverMoreThanFive(s: State, run: seq<Event>, u: nat, loc: Loc)
    requires Initial(s)
    ensures |Devices.PaidRows(Exec(s, run).fleet.rows, u, loc)| <= 5
  {
    Devices.CountIsSize(Exec(s, run).fleet.rows, u, loc);
    if run != [] {
      NeverMoreThanFive(s, run[..|run| - 1], u, loc);
      Devices.CountIsSize(Exec(s, run[..|run| - 1]).fleet.rows, u, loc);
      StepWithinLimit(Exec(s, run[..|run| - 1]), run[|run| - 1], u, loc);
    }
  }

  // ---------------------------------------------------------------- the plan held

  predicate Within(rows: seq<Row>, u: nat, plan: Option<string>) {
    PaidCount(rows, u, DE) <= ConfigLimit(plan) && PaidCount(rows, u, NL) <= ConfigLimit(plan)
  }

  /** An account holds no more than its plan allows in either location. */
  predicate Fits(s: State, u: nat) {
    u < |s.users| ==> Within(s.fleet.rows, u, s.users[u].plan)
  }

  /** The step settles a purchase of a plan smaller than what the buyer holds already. */
  predicate Oversells(s: State, e: Event, u: nat) {
    var b := SaleOf(s, e);
    b.Some? && b.value.pay.user == u && !Within(s.fleet.rows, u, Some(b.value.pay.plan))
  }

  /** A notification or a grant moves only the buyer's plan, to the one bought. */
  lemma NoticePlans(s: State, e: Event, u: nat)
    requires Notifies(e.step) && u < |s.users|
    ensures var t, b := Apply(s, e), SaleOf(s, e);
      |t.users| == |s.users|
      && t.users[u].plan == if b.Some? && b.value.pay.user == u then Some(b.value.pay.plan) else s.users[u].plan
  {
    var end := NotificationEnds(s, e);
    if end.Bought? {
      Ledger.ActivateDelivers(end.base, end.p, e.env);
    }
  }

  lemma OtherPlans(s: State, e: Event, u: nat)
    requires !Notifies(e.step) && u < |s.users|
    ensures u < |Apply(s, e).users| && Apply(s, e).users[u].plan == s.users[u].plan
  {
    if Quiet(e.step) {
      QuietPlans(s, e, u, Apply(s, e));
    } else {
      DevicePlans(s, e, u, Apply(s, e));
    }
  }

  lemma QuietPlans(s: State, e: Event, u: nat, t: State)
    requires Quiet(e.step) && u < |s.users| && t == Apply(s, e)
    ensures u < |t.users| && t.users[u].plan == s.users[u].plan
  {
  }

  lemma DevicePlans(s: State, e: Event, u: nat, t: State)
    requires !Quiet(e.step) && !Notifies(e.step) && u < |s.users| && t == Apply(s, e)
    ensures u < |t.users| && t.users[u].plan == s.users[u].plan
  {
  }

  lemma SaleKnown(s: State, e: Event)
    requires SaleOf(s, e).Some?
    ensures Notifies(e.step) && SaleOf(s, e).value.pay.user < |s.users|
  {
  }

  /** From within the plan, a step leaves an account within it exactly when it settles no smaller plan than is in use. */
  lemma FitsExactly(s: State, e: Event, u: nat)
    requires u < |s.users| && Fits(s, u)
    ensures Fits(Apply(s, e), u) <==> !Oversells(s, e, u)
  {
    if Notifies(e.step) {
      NoticeCount(s, e, u, DE);
      NoticeCount(s, e, u, NL);
      NoticePlans(s, e, u);
    } else {
      OtherPlans(s, e, u);
      OthersFit(s, e, u, DE);
      OthersFit(s, e, u, NL);
      if Oversells(s, e, u) {
        SaleKnown(s, e);
      }
    }
  }

  lemma OthersFit(s: State, e: Event, u: nat, loc: Loc)
    requires !Notifies(e.step) && u < |s.users| && PaidCount(s.fleet.rows, u, loc) <= ConfigLimit(s.users[u].plan)
    ensures PaidCount(Apply(s, e).fleet.rows, u, loc) <= ConfigLimit(s.users[u].plan)
  {
    if Quiet(e.step) {
      QuietSteps(s, e);
    } else if e.step.AddsDevice? {
      AddedCount(s, e.step.u, e.step.where, e.env, u, loc);
    } else {
      CountAfterOthers(s, e, u, loc);
    }
  }

  // ---------------------------------------------------------------- over whole runs

  lemma {:induction false} NoneOwned(rows: seq<Row>, u: nat, loc: Loc)
    requires forall i :: 0 <= i < |rows| && rows[i].active ==> rows[i].user != u
    ensures PaidCount(rows, u, loc) == 0
  {
    if rows != [] {
      NoneOwned(rows[..|rows| - 1], u, loc);
    }
  }

  /** A new account holds nothing. */
  lemma NewcomerFits(s: State, e: Event, u: nat)
    requires Covered(s.users, s.fleet.rows) && u >= |s.users|
    ensures Fits(Apply(s, e), u) && !Oversells(s, e, u)
  {
    if SaleOf(s, e).Some? {
      SaleKnown(s, e);
    }
    if u < |Apply(s, e).users| {
      OnlyRegistrationAdds(s, e);
      NoneOwned(s.fleet.rows, u, DE);
      NoneOwned(s.fleet.rows, u, NL);
    }
  }

  lemma OnlyRegistrationAdds(s: State, e: Event)
    ensures |Apply(s, e).users| > |s.users| ==> e.step.Registers? && Apply(s, e).fleet == s.fleet
  {
    if Notifies(e.step) {
      if s.users != [] {
        NoticePlans(s, e, 0);
      } else {
        var end := NotificationEnds(s, e);
      }
    }
  }

  predicate AlwaysFits(s: State, run: seq<Event>, u: nat) {
    Fits(Exec(s, run), u) && (run == [] || AlwaysFits(s, run[..|run| - 1], u))
  }

  predicate NeverOversold(s: State, run: seq<Event>, u: nat) {
    run == [] ||
    (NeverOversold(s, run[..|run| - 1], u) && !Oversells(Exec(s, run[..|run| - 1]), run[|run| - 1], u))
  }

  /**
   * In every run an account stays within the plan it holds, all along, if and only
   * if no payment or grant of a plan smaller than what it then held was settled.
   */
  lemma {:induction false} WithinPlanExactly(s: State, run: seq<Event>, u: nat)
    requires Initial(s)
    ensures AlwaysFits(s, run, u) <==> NeverOversold(s, run, u)
  {
    if run != [] {
      var short, e := run[..|run| - 1], run[|run| - 1];
      WithinPlanExactly(s, short, u);
      if Fits(Exec(s, short), u) {
        FitsOneMore(s, short, e, u);
      }
    }
  }

  lemma FitsOneMore(s: State, run: seq<Event>, e: Event, u: nat)
    requires Initial(s) && Fits(Exec(s, run), u)
    ensures Fits(Apply(Exec(s, run), e), u) <==> !Oversells(Exec(s, run), e, u)
  {
    DevicesAlwaysCovered(s, run);
    if u < |Exec(s, run).users| {
      FitsExactly(Exec(s, run), e, u);
    } else {
      NewcomerFits(Exec(s, run), e, u);
    }
  }

  /** The extended plan with five devices, before the administrator grants a month of the basic one. */
  function FiveDevices(): State {
    State(0, [User(true, Some(100), Some("ext-1m"), None, None, Some(1), None)],
          Fleet(seq(5, (i: nat) => Row(0, Paid, DE, i, Addr(88, 42 + i), true)),
                map i: nat | i < 5 :: Peer(DE, i) := Addr(88, 42 + i), map[]), [], map[], [], [], [])
  }

  /** A grant of two devices' worth leaves five. */
  lemma GrantOversells(env: Env)
    ensures var s, e := FiveDevices(), Event(Grants(0, "basic-1m"), env);
      && Sound(s.fleet) && Agrees(s.fleet) && Covered(s.users, s.fleet.rows)
      && Fits(s, 0) && !Fits(Apply(s, e), 0) && PaidCount(Apply(s, e).fleet.rows, 0, DE) == 5
  {
    var s, e := FiveDevices(), Event(Grants(0, "basic-1m"), env);
    FiveAgree();
    CountFive(s.fleet.rows, 5);
    NoneIn(s.fleet.rows, 0, NL);
    assert 0 in DevicesOf(s.fleet.rows, 0, Paid);
    assert ConfigLimit(Some("basic-1m")) == 2 && ConfigLimit(Some("ext-1m")) == 5;
    assert SaleOf(s, e).Some?;
    FitsExactly(s, e, 0);
    NoticeCount(s, e, 0, DE);
  }

  lemma FiveAgree()
    ensures var s := FiveDevices(); Sound(s.fleet) && Agrees(s.fleet) && Covered(s.users, s.fleet.rows)
  {
    var f := FiveDevices().fleet;
    forall i: nat ensures !Missing(f, i) {
      assert i < 5 ==> PeerOf(f.rows[i]) == Peer(DE, i);
    }
    forall p ensures !Orphan(f, p) {
      assert p in f.nodes ==> PeerOf(f.rows[p.key]) == p;
    }
  }

  lemma {:induction false} CountFive(rows: seq<Row>, n: nat)
    requires |rows| == n && forall i :: 0 <= i < n ==> rows[i].user == 0 && rows[i].kind == Paid && rows[i].loc == DE && rows[i].active
    ensures PaidCount(rows, 0, DE) == n
  {
    if n > 0 {
      CountFive(rows[..n - 1], n - 1);
    }
  }

  lemma {:induction false} NoneIn(rows: seq<Row>, u: nat, loc: Loc)
    requires forall i :: 0 <= i < |rows| ==> rows[i].loc != loc
    ensures PaidCount(rows, u, loc) == 0
  {
    if rows != [] {
      NoneIn(rows[..|rows| - 1], u, loc);
    }
  }
}
