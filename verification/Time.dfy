/** Conservation of time: where every day of every period came from, over whole runs. */
module Time {
  import opened Common
  import opened Plans
  import opened World
  import opened Credit
  import opened Handlers
  import opened Runs
  import opened Ledger

  // ---------------------------------------------------------------- what was earned

  function DaysOf(pay: Payment, u: nat): nat {
    if pay.user == u && IsPaid(pay) && PlanInfo(pay.plan).Some? then PlanInfo(pay.plan).value.days else 0
  }

  /** Days of all payments and grants a user settled. */
  function PaidDays(payments: seq<Payment>, u: nat): nat {
    if payments == [] then 0
    else PaidDays(payments[..|payments| - 1], u) + DaysOf(payments[|payments| - 1], u)
  }

  /** Days of all rewards applied to a user. */
  function AppliedDays(rewards: seq<Reward>, u: nat): nat {
    if rewards == [] then 0
    else
      var r := rewards[|rewards| - 1];
      AppliedDays(rewards[..|rewards| - 1], u) + if r.referrer == u && r.applied.Some? then r.days else 0
  }

  function UntilAmong(users: seq<User>, u: nat): Option<int> {
    if u < |users| then users[u].until else None
  }

  function UntilOf(s: State, u: nat): Option<int> {
    UntilAmong(s.users, u)
  }

  function Earned(s: State, u: nat): nat {
    PaidDays(s.payments, u) + AppliedDays(s.rewards, u)
  }

  /** Days an administrator assigned in one step. */
  function AssignedIn(s: State, e: Event, u: nat): nat {
    if e.step.AssignsPeer? && e.step.u == u && u < |s.users| && 1 <= e.step.days <= 365 then e.step.days else 0
  }

  /** Time that ran out unused before a step moved the end of the period. */
  function GapIn(s: State, e: Event, u: nat): int {
    var prev := UntilOf(s, u);
    if prev.Some? && UntilOf(Apply(s, e), u) != prev && prev.value < e.env.now then e.env.now - prev.value else 0
  }

  // ---------------------------------------------------------------- the same, over a run

  function Assigned(s: State, run: seq<Event>, u: nat): nat {
    if run == [] then 0
    else
      var before := run[..|run| - 1];
      Assigned(s, before, u) + AssignedIn(Exec(s, before), run[|run| - 1], u)
  }

  function Gaps(s: State, run: seq<Event>, u: nat): int {
    if run == [] then 0
    else
      var before := run[..|run| - 1];
      Gaps(s, before, u) + GapIn(Exec(s, before), run[|run| - 1], u)
  }

  /** When the user's first period began (0 if none has). */
  function Start(s: State, run: seq<Event>, u: nat): int {
    if run == [] then 0
    else
      var before, e := run[..|run| - 1], run[|run| - 1];
      if UntilOf(Exec(s, before), u).None? && UntilOf(Exec(s, run), u).Some? then e.env.now else Start(s, before, u)
  }

  // ---------------------------------------------------------------- sums

  lemma PaidDaysAppend(payments: seq<Payment>, pay: Payment, u: nat)
    ensures PaidDays(payments + [pay], u) == PaidDays(payments, u) + DaysOf(pay, u)
  {
  }

  lemma {:induction false} PaidDaysUpdate(payments: seq<Payment>, p: nat, pay: Payment, u: nat)
    requires p < |payments|
    ensures PaidDays(payments[p := pay], u) == PaidDays(payments, u) - DaysOf(payments[p], u) + DaysOf(pay, u)
  {
    var short := payments[..|payments| - 1];
    if p == |payments| - 1 {
      assert payments[p := pay][..p] == short;
    } else {
      PaidDaysUpdate(short, p, pay, u);
      assert payments[p := pay][..|payments| - 1] == short[p := pay];
    }
  }

  lemma {:induction false} PaidDaysSame(v: seq<Payment>, w: seq<Payment>, u: nat)
    requires |v| == |w| && forall i :: 0 <= i < |v| ==> SamePaid(v[i], w[i])
    ensures PaidDays(v, u) == PaidDays(w, u)
  {
    if v != [] {
      PaidDaysSame(v[..|v| - 1], w[..|w| - 1], u);
    }
  }

  lemma {:induction false} AppliedAfterMarking(rewards: seq<Reward>, lucky: set<nat>, now: int, u: nat)
    ensures AppliedDays(Marked(rewards, lucky, now), u)
         == AppliedDays(rewards, u) + if u in lucky then DueDays(rewards, u, now) else 0
  {
    if rewards != [] {
      var short := rewards[..|rewards| - 1];
      AppliedAfterMarking(short, lucky, now, u);
      assert Marked(rewards, lucky, now)[..|rewards| - 1] == Marked(short, lucky, now);
    }
  }

  lemma AppliedAppend(rewards: seq<Reward>, r: Reward, u: nat, now: int)
    requires r.applied.None?
    ensures AppliedDays(rewards + [r], u) == AppliedDays(rewards, u)
    ensures now < r.vests ==> DueDays(rewards + [r], u, now) == DueDays(rewards, u, now)
  {
  }

  lemma {:induction false} AppliedWithout(rewards: seq<Reward>, i: nat, u: nat)
    requires i < |rewards| && rewards[i].applied.None?
    ensures AppliedDays(Handlers.Without(rewards, i), u) == AppliedDays(rewards, u)
  {
    var short, w := rewards[..|rewards| - 1], Handlers.Without(rewards, i);
    if i == |rewards| - 1 {
      assert w == short;
    } else {
      AppliedWithout(short, i, u);
      assert w[..|w| - 1] == Handlers.Without(short, i);
    }
  }

  // ---------------------------------------------------------------- one step

  /**
   * One step's account for one user: the period moves by the days earned and
   * assigned in this step, counted from whichever is later of now and its old
   * end, or does not move and nothing was earned.
   */
  predicate Moves(prev: Option<int>, next: Option<int>, days: int, now: int) {
    if next == prev then days == 0
    else
      && next.Some? && days > 0
      && next.value == (if prev.Some? then Max(now, prev.value) else now) + Days(days)
  }

  ghost predicate Accounted(s: State, e: Event, u: nat) {
    var t := Apply(s, e);
    Moves(UntilOf(s, u), UntilOf(t, u), Earned(t, u) - Earned(s, u) + AssignedIn(s, e, u), e.env.now)
  }

  lemma SettleEarned(s: State, p: nat, env: Env, u: nat)
    requires Payable(s, p) && PlanInfo(s.payments[p].plan).Some?
    ensures var pay := s.payments[p];
      var days := PlanInfo(pay.plan).value.days;
      var rewards := RewardFor(s.rewards, s.codes, pay, p, env.now);
      PaidDays(s.payments[p := Closed(pay, env.now)], u) + AppliedDays(Marked(rewards, {pay.user}, env.now), u)
      == Earned(s, u) + if u == pay.user then days + DueDays(rewards, u, env.now) else 0
  {
    var pay := s.payments[p];
    PaidDaysUpdate(s.payments, p, Closed(pay, env.now), u);
    var rewards := RewardFor(s.rewards, s.codes, pay, p, env.now);
    if rewards != s.rewards {
      AppliedAppend(s.rewards, rewards[|s.rewards|], u, env.now);
    }
    AppliedAfterMarking(rewards, {pay.user}, env.now, u);
  }

  lemma RenewedUntil(users: seq<User>, rewards: seq<Reward>, v: nat, plan: string, days: nat, now: int, u: nat)
    requires v < |users|
    ensures UntilAmong(Renewed(users, rewards, v, plan, days, now), u)
         == if u == v then Some(Base(users[v], now) + Days(days) + Days(DueDays(rewards, v, now))) else UntilAmong(users, u)
  {
  }

  lemma SettleAccounts(s: State, p: nat, days: nat, env: Env, u: nat)
    requires Payable(s, p) && PlanInfo(s.payments[p].plan).Some? && days == PlanInfo(s.payments[p].plan).value.days
    ensures var t := Settle(s, p, days, env); Moves(UntilOf(s, u), UntilOf(t, u), Earned(t, u) - Earned(s, u), env.now)
  {
    SettleEarned(s, p, env, u);
    var pay := s.payments[p];
    RenewedUntil(s.users, RewardFor(s.rewards, s.codes, pay, p, env.now), pay.user, pay.plan, days, env.now, u);
  }

  lemma ActivateAccounts(s: State, p: nat, env: Env, u: nat)
    requires Payable(s, p) && Activate(s, p, env).ok
    ensures var t := Activate(s, p, env).state; Moves(UntilOf(s, u), UntilOf(t, u), Earned(t, u) - Earned(s, u), env.now)
  {
    var v, days := s.payments[p].user, PlanInfo(s.payments[p].plan).value.days;
    if HoldsPaid(s.fleet.rows, v) {
      SettleAccounts(s, p, days, env, u);
    } else {
      SettleAccounts(s.(fleet := Issue(s.fleet, v, Paid, DefaultForNew(env), env).fleet), p, days, env, u);
    }
  }

  lemma EndingMoves(s: State, t: State, env: Env, end: Ending, u: nat)
    requires Ends(s, t, env, end)
    ensures Moves(UntilOf(s, u), UntilOf(t, u), Earned(t, u) - Earned(s, u), env.now)
  {
    match end {
      case Bought(base, p) =>
        if base.payments != s.payments {
          PaidDaysAppend(s.payments, base.payments[p], u);
        }
        ActivateAccounts(base, p, env, u);
      case NoDevice(_) =>
      case StatusOnly(_) => PaidDaysSame(s.payments, t.payments, u);
    }
  }

  lemma NoticeAccounts(s: State, e: Event, u: nat)
    requires Notifies(e.step)
    ensures Accounted(s, e, u)
  {
    var end := NotificationEnds(s, e);
    EndingMoves(s, Handle(s, e.step, e.env), e.env, end, u);
  }

  lemma PassAccounts(s: State, e: Event, u: nat)
    requires e.step.PassesRewards?
    ensures Accounted(s, e, u)
  {
    PassMoves(s, e.env.now, u, Apply(s, e));
  }

  lemma PassMoves(s: State, now: int, u: nat, t: State)
    requires t == RewardPass(s, now).(now := now)
    ensures Moves(UntilOf(s, u), UntilOf(t, u), Earned(t, u) - Earned(s, u), now)
  {
    var lucky := LiveUsers(s.users, now);
    AppliedAfterMarking(s.rewards, lucky, now, u);
    PassedUsers(s.users, s.rewards, now, u, if u in lucky then DueDays(s.rewards, u, now) else 0);
  }

  lemma PassedUsers(users: seq<User>, rewards: seq<Reward>, now: int, u: nat, due: nat)
    requires due == if u in LiveUsers(users, now) then DueDays(rewards, u, now) else 0
    ensures u < |users| ==> Moves(users[u].until, Credited(users, rewards, LiveUsers(users, now), now)[u].until, due, now)
    ensures u >= |users| ==> due == 0
  {
  }

  lemma OrderAccounts(s: State, e: Event, u: nat)
    requires e.step.OpensOrder?
    ensures Accounted(s, e, u)
  {
  }

  lemma RefundAccounts(s: State, e: Event, u: nat)
    requires e.step.Refunds?
    ensures Accounted(s, e, u)
  {
    RefundMoves(s, e.step.p, e.env.now, u, Apply(s, e));
  }

  lemma RefundMoves(s: State, p: nat, now: int, u: nat, t: State)
    requires t == Refund(s, p, now).(now := now)
    ensures Moves(UntilOf(s, u), UntilOf(t, u), Earned(t, u) - Earned(s, u), now)
  {
    var i := FirstReward(s.rewards, p);
    if i < |s.rewards| && s.rewards[i].applied.None? {
      AppliedWithout(s.rewards, i, u);
    }
  }

  lemma StepAccounts(s: State, e: Event, u: nat)
    ensures Accounted(s, e, u)
  {
    if Notifies(e.step) {
      NoticeAccounts(s, e, u);
    } else if e.step.PassesRewards? {
      PassAccounts(s, e, u);
    } else if e.step.OpensOrder? {
      OrderAccounts(s, e, u);
    } else if e.step.Refunds? {
      RefundAccounts(s, e, u);
    } else {
      StepFrame(s, e);
    }
  }

  // ---------------------------------------------------------------- whole runs

  /** Where a period's end comes from, in days earned, days assigned and lapsed time. */
  predicate Conserved(until: Option<int>, start: int, days: nat, gaps: int) {
    if until.Some? then until.value == start + Days(days) + gaps else days == 0 && gaps == 0
  }

  lemma MoveConserves(prev: Option<int>, next: Option<int>, start: int, days: nat, more: int, gaps: int, now: int)
    requires Conserved(prev, start, days, gaps) && Moves(prev, next, more, now)
    ensures 0 <= days + more
    ensures Conserved(next, if prev.None? && next.Some? then now else start, days + more,
                      gaps + if prev.Some? && next != prev && prev.value < now then now - prev.value else 0)
  {
  }

  /**
   * For every user and run: the end of the period is the first activation, plus
   * the days of all settled payments and grants, of all applied rewards and of
   * all assignments, plus the time that lapsed unused between periods. No day is
   * lost by renewing early, and none is counted twice.
   */
  lemma {:induction false} TimeIsConserved(s: State, run: seq<Event>, u: nat)
    requires Initial(s)
    ensures Conserved(UntilOf(Exec(s, run), u), Start(s, run, u),
                      Earned(Exec(s, run), u) + Assigned(s, run, u), Gaps(s, run, u))
  {
    if run != [] {
      var before, e := run[..|run| - 1], run[|run| - 1];
      TimeIsConserved(s, before, u);
      var a, b := Exec(s, before), Exec(s, run);
      StepAccounts(a, e, u);
      MoveConserves(UntilOf(a, u), UntilOf(b, u), Start(s, before, u), Earned(a, u) + Assigned(s, before, u),
                    Earned(b, u) - Earned(a, u) + AssignedIn(a, e, u), Gaps(s, before, u), e.env.now);
    }
  }

  /** A period's end never moves back. */
  lemma {:induction false} UntilNeverDecreases(s: State, run: seq<Event>, u: nat)
    requires UntilOf(s, u).Some?
    ensures UntilOf(Exec(s, run), u).Some? && UntilOf(s, u).value <= UntilOf(Exec(s, run), u).value
  {
    if run != [] {
      UntilNeverDecreases(s, run[..|run| - 1], u);
      StepAccounts(Exec(s, run[..|run| - 1]), run[|run| - 1], u);
    }
  }

  /** While a period has not run out, a step adds exactly the days it earned. */
  lemma EarlyRenewalLosesNothing(s: State, e: Event, u: nat)
    requires UntilOf(s, u).Some? && e.env.now <= UntilOf(s, u).value
    ensures var t := Apply(s, e);
      UntilOf(t, u) == Some(UntilOf(s, u).value + Days(Earned(t, u) - Earned(s, u) + AssignedIn(s, e, u)))
  {
    StepAccounts(s, e, u);
    MovesEarly(UntilOf(s, u), UntilOf(Apply(s, e), u), Earned(Apply(s, e), u) - Earned(s, u) + AssignedIn(s, e, u), e.env.now);
  }

  lemma MovesEarly(prev: Option<int>, next: Option<int>, days: int, now: int)
    requires Moves(prev, next, days, now) && prev.Some? && now <= prev.value
    ensures next == Some(prev.value + Days(days))
  {
  }
}
