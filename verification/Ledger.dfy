/** Payments, spends and rewards over whole runs: exactly once, never early, never lost. */
module Ledger {
  import opened Common
  import opened Plans
  import opened World
  import opened Credit
  import opened Handlers
  import opened Fleets
  import opened Runs

  predicate IsPaid(p: Payment) {
    p.status == "paid"
  }

  // ---------------------------------------------------------------- payments

  /** The same order, and settled once settled. */
  predicate SameOrder(x: Payment, y: Payment) {
    && y == x.(status := y.status, paidAt := y.paidAt)
    && (IsPaid(x) ==> y == x)
  }

  predicate OrdersPersist(v: seq<Payment>, w: seq<Payment>) {
    |v| <= |w| && forall p :: 0 <= p < |v| ==> SameOrder(v[p], w[p])
  }

  lemma OrdersAfterNotice(s: State, e: Event)
    requires Notifies(e.step)
    ensures OrdersPersist(s.payments, Apply(s, e).payments)
  {
    var end := NotificationEnds(s, e);
    match end {
      case Bought(base, p) =>
        assert OrdersPersist(s.payments, base.payments);
      case NoDevice(_) =>
      case StatusOnly(_) =>
    }
  }

  lemma OrdersStep(s: State, e: Event)
    ensures OrdersPersist(s.payments, Apply(s, e).payments)
  {
    if Notifies(e.step) {
      OrdersAfterNotice(s, e);
    } else {
      StepFrame(s, e);
    }
  }

  /** "paid" is absorbing: a settled payment is never touched again, however often a gateway repeats itself. */
  lemma {:induction false} PaidIsForGood(s: State, run: seq<Event>)
    ensures OrdersPersist(s.payments, Exec(s, run).payments)
  {
    if run != [] {
      PaidIsForGood(s, run[..|run| - 1]);
      OrdersStep(Exec(s, run[..|run| - 1]), run[|run| - 1]);
    }
  }

  /** Payment `p` is activated by this step. */
  predicate Activates(s: State, e: Event, p: nat) {
    var t := Apply(s, e);
    p < |t.payments| && IsPaid(t.payments[p]) && (p < |s.payments| ==> !IsPaid(s.payments[p]))
  }

  function Activations(s: State, run: seq<Event>, p: nat): nat {
    if run == [] then 0
    else
      var before := run[..|run| - 1];
      Activations(s, before, p) + if Activates(Exec(s, before), run[|run| - 1], p) then 1 else 0
  }

  /** Over any run a payment is activated at most once, and exactly once if it ends paid. */
  lemma {:induction false} ActivatedAtMostOnce(s: State, run: seq<Event>, p: nat)
    requires Initial(s)
    ensures Activations(s, run, p) == if p < |Exec(s, run).payments| && IsPaid(Exec(s, run).payments[p]) then 1 else 0
  {
    if run != [] {
      ActivatedAtMostOnce(s, run[..|run| - 1], p);
      OrdersStep(Exec(s, run[..|run| - 1]), run[|run| - 1]);
    }
  }

  lemma DeviceStays(f: Fleet, u: nat, env: Env)
    requires HoldsPaid(f.rows, u)
    ensures HoldsPaid(Removed(f, DevicesOf(f.rows, u, Trial), env).rows, u)
  {
  }

  /** What a successful activation leaves: a live period on the plan bought, no running trial, a paid device. */
  lemma ActivateDelivers(s: State, p: nat, env: Env)
    requires Payable(s, p) && Activate(s, p, env).ok
    ensures var t, u := Activate(s, p, env).state, s.payments[p].user;
      && Live(t.users[u], env.now) && t.users[u].plan == Some(s.payments[p].plan)
      && !OnTrial(t.users[u], env.now) && HoldsPaid(t.fleet.rows, u)
      && t.payments == s.payments[p := Closed(s.payments[p], env.now)]
      && |t.users| == |s.users| && forall v :: 0 <= v < |s.users| && v != u ==> t.users[v] == s.users[v]
  {
    var u := s.payments[p].user;
    if HoldsPaid(s.fleet.rows, u) {
      DeviceStays(s.fleet, u, env);
    } else {
      var g := Issue(s.fleet, u, Paid, DefaultForNew(env), env);
      IssueLeaves(s.fleet, u, Paid, DefaultForNew(env), env);
      assert |s.fleet.rows| in DevicesOf(g.fleet.rows, u, Paid);
      DeviceStays(g.fleet, u, env);
    }
  }

  /** In any run: the step that settles a payment delivers it, and is a notification or a grant. */
  lemma SettlingDelivers(s: State, e: Event, p: nat)
    requires Activates(s, e, p)
    ensures Notifies(e.step)
    ensures var t := Apply(s, e);
      var u := t.payments[p].user;
      && u < |t.users| && Live(t.users[u], e.env.now) && t.users[u].plan == Some(t.payments[p].plan)
      && !OnTrial(t.users[u], e.env.now) && HoldsPaid(t.fleet.rows, u) && t.payments[p].paidAt == Some(e.env.now)
      && |t.users| == |s.users| && forall v :: 0 <= v < |s.users| && v != u ==> t.users[v] == s.users[v]
  {
    if Notifies(e.step) {
      var end := NotificationEnds(s, e);
      match end {
        case Bought(base, q) =>
          ActivateDelivers(base, q, e.env);
          assert p == q;
        case NoDevice(_) => assert false;
        case StatusOnly(_) => assert false;
      }
    } else {
      SettledElsewhere(s, e, p);
    }
  }

  lemma SettledElsewhere(s: State, e: Event, p: nat)
    requires !Notifies(e.step)
    ensures !Activates(s, e, p)
  {
    StepFrame(s, e);
  }

  lemma BuyingActivates(s: State, e: Event, base: State, p: nat)
    requires Ends(s, Handle(s, e.step, e.env), e.env, Bought(base, p))
    ensures Activates(s, e, p)
  {
    ActivateDelivers(base, p, e.env);
  }

  /** A notification that settles nothing leaves every table but the status text as it was. */
  lemma FailureChangesNothing(s: State, e: Event)
    requires Notifies(e.step) && NothingLost(e.env) && forall p :: !Activates(s, e, p)
    ensures var t := Handle(s, e.step, e.env);
      && t == s.(payments := t.payments) && |t.payments| == |s.payments|
      && forall i :: 0 <= i < |s.payments| ==> SamePaid(s.payments[i], t.payments[i])
  {
    var end := NotificationEnds(s, e);
    match end {
      case Bought(base, q) =>
        BuyingActivates(s, e, base, q);
      case NoDevice(u) => IssueLeaves(s.fleet, u, Paid, DefaultForNew(e.env), e.env);
      case StatusOnly(_) =>
    }
  }

  // ---------------------------------------------------------------- spends

  function SpendCount(ledger: seq<Entry>, p: nat): nat {
    if ledger == [] then 0
    else
      var e := ledger[|ledger| - 1];
      SpendCount(ledger[..|ledger| - 1], p) + if e.reason == Spend && e.payment == Some(p) then 1 else 0
  }

  predicate SpendMatches(e: Entry, payments: seq<Payment>) {
    e.reason == Spend ==>
      e.payment.Some? && e.payment.value < |payments|
      && e.delta == -payments[e.payment.value].credit && e.user == payments[e.payment.value].user
  }

  /** One spend of minus the held credit for each payment settled with credit; none otherwise. */
  predicate SpendsOnce(payments: seq<Payment>, ledger: seq<Entry>) {
    && (forall i :: 0 <= i < |ledger| ==> SpendMatches(ledger[i], payments))
    && (forall p :: 0 <= p < |payments| ==>
          SpendCount(ledger, p) == if IsPaid(payments[p]) && payments[p].credit > 0 then 1 else 0)
  }

  lemma {:induction false} NoSpendNoCount(ledger: seq<Entry>, p: nat)
    ensures SpendCount(ledger, p) == 0 <==> !HasSpend(ledger, p)
  {
    if ledger != [] {
      var short := ledger[..|ledger| - 1];
      NoSpendNoCount(short, p);
      if HasSpend(short, p) {
        var i :| 0 <= i < |short| && short[i].reason == Spend && short[i].payment == Some(p);
        assert ledger[i] == short[i];
      }
      if HasSpend(ledger, p) {
        var i :| 0 <= i < |ledger| && ledger[i].reason == Spend && ledger[i].payment == Some(p);
        assert i == |ledger| - 1 || short[i] == ledger[i];
      }
    }
  }

  lemma CountAppend(ledger: seq<Entry>, e: Entry, p: nat)
    ensures SpendCount(ledger + [e], p) == SpendCount(ledger, p) + if e.reason == Spend && e.payment == Some(p) then 1 else 0
  {
  }

  lemma {:induction false} CountWithout(ledger: seq<Entry>, i: nat, p: nat)
    requires i < |ledger| && ledger[i].reason != Spend
    ensures SpendCount(Handlers.Without(ledger, i), p) == SpendCount(ledger, p)
  {
    var short := ledger[..|ledger| - 1];
    var w := Handlers.Without(ledger, i);
    if i == |ledger| - 1 {
      assert w == short;
    } else {
      CountWithout(short, i, p);
      assert w[..|w| - 1] == Handlers.Without(short, i);
    }
  }

  /** Settling one unpaid payment writes its spend and no other. */
  lemma SpendSettled(payments: seq<Payment>, ledger: seq<Entry>, p: nat, now: int)
    requires SpendsOnce(payments, ledger) && p < |payments| && !IsPaid(payments[p])
    ensures SpendsOnce(payments[p := Closed(payments[p], now)], SpendOn(ledger, payments[p], p))
  {
    NoSpendNoCount(ledger, p);
    if payments[p].credit > 0 {
      var e := Entry(payments[p].user, -payments[p].credit, Spend, Some(p), None, None, None);
      forall q | 0 <= q < |payments| ensures SpendCount(ledger + [e], q) == SpendCount(ledger, q) + if q == p then 1 else 0 {
        CountAppend(ledger, e, q);
      }
    }
  }

  /** A payment not in the books yet is not paid and has no spend. */
  lemma SpendsAppend(payments: seq<Payment>, ledger: seq<Entry>, pay: Payment)
    requires SpendsOnce(payments, ledger) && !IsPaid(pay)
    ensures SpendsOnce(payments + [pay], ledger)
  {
    var p := |payments|;
    NoSpendNoCount(ledger, p);
    assert !HasSpend(ledger, p);
  }

  lemma SpendsAfterNotice(s: State, e: Event)
    requires SpendsOnce(s.payments, s.ledger) && Notifies(e.step)
    ensures SpendsOnce(Apply(s, e).payments, Apply(s, e).ledger)
  {
    var end := NotificationEnds(s, e);
    match end {
      case Bought(base, p) =>
        if base.payments != s.payments { SpendsAppend(s.payments, s.ledger, base.payments[p]); }
        SpendSettled(base.payments, base.ledger, p, e.env.now);
      case NoDevice(_) =>
      case StatusOnly(_) =>
    }
  }

  lemma SpendsAfterOrder(s: State, e: Event)
    requires SpendsOnce(s.payments, s.ledger) && e.step.OpensOrder?
    ensures SpendsOnce(Apply(s, e).payments, Apply(s, e).ledger)
  {
    var t := Apply(s, e);
    if t.payments != s.payments {
      SpendsAppend(s.payments, s.ledger, t.payments[|s.payments|]);
    }
  }

  lemma SpendsAfterEntry(payments: seq<Payment>, ledger: seq<Entry>, e: Entry)
    requires SpendsOnce(payments, ledger) && e.reason != Spend
    ensures SpendsOnce(payments, ledger + [e])
  {
  }

  lemma SpendsAfterDeletion(payments: seq<Payment>, ledger: seq<Entry>, i: nat)
    requires SpendsOnce(payments, ledger) && i < |ledger| && ledger[i].reason != Spend
    ensures SpendsOnce(payments, Handlers.Without(ledger, i))
  {
    forall p | 0 <= p < |payments| ensures SpendCount(Handlers.Without(ledger, i), p) == SpendCount(ledger, p) {
      CountWithout(ledger, i, p);
    }
  }

  lemma SpendsStep(s: State, e: Event)
    requires SpendsOnce(s.payments, s.ledger)
    ensures SpendsOnce(Apply(s, e).payments, Apply(s, e).ledger)
  {
    if Notifies(e.step) {
      SpendsAfterNotice(s, e);
    } else if e.step.OpensOrder? {
      SpendsAfterOrder(s, e);
    } else if e.step.EntersByHand? {
      if e.step.entry.reason != Spend { SpendsAfterEntry(s.payments, s.ledger, e.step.entry); }
    } else if e.step.Refunds? {
      var i := FirstLegacy(s.ledger, e.step.p);
      if i < |s.ledger| { SpendsAfterDeletion(s.payments, s.ledger, i); }
    } else {
      StepFrame(s, e);
    }
  }

  // ---------------------------------------------------------------- overdrawing

  /** At every instant, settling a payment takes exactly its held credit from its customer's balance. */
  lemma SettlingTakesItsCredit(payments: seq<Payment>, ledger: seq<Entry>, p: nat, u: nat, now: int)
    requires SpendsOnce(payments, ledger) && p < |payments| && !IsPaid(payments[p])
    ensures Balance(SpendOn(ledger, payments[p], p), u, now)
         == Balance(ledger, u, now) - if payments[p].user == u then Max(0, payments[p].credit) else 0
  {
    NoSpendNoCount(ledger, p);
    var after := SpendOn(ledger, payments[p], p);
    if after != ledger {
      assert after[..|ledger|] == ledger;
    }
  }

  /** Two orders opened one after the other may hold the same 175 points of a balance of 200. */
  lemma TwoOrdersOverdraw()
    ensures var points := Entry(0, 200, Adjustment, None, None, None, None);
      var s := State(0, [User(false, None, None, None, None, Some(1), None)], Fleet([], map[], map[]), [], map[], [points], [], []);
      var one := OpenOrder(s, 0, "basic-1m", None, 175, true, true, 0);
      var two := OpenOrder(one, 0, "basic-1m", None, 175, true, true, 0);
      && |two.payments| == 2 && two.payments[0].credit == two.payments[1].credit == 175
      && Balance(SpendOn(SpendOn(two.ledger, two.payments[0], 0), two.payments[1], 1), 0, 0) == -150
  {
  }

  // ---------------------------------------------------------------- rewards

  /** A reward stands for one cash purchase by another customer, vests 14 days after it, lands no earlier. */
  predicate RewardEarned(r: Reward, payments: seq<Payment>, codes: map<string, Promo>) {
    && r.source < |payments| && IsPaid(payments[r.source]) && payments[r.source].amount > 0
    && payments[r.source].code.Some? && payments[r.source].code.value in codes
    && codes[payments[r.source].code.value].owner == Some(r.referrer) && payments[r.source].user != r.referrer
    && payments[r.source].paidAt.Some? && r.vests == payments[r.source].paidAt.value + Days(VESTING_DAYS)
    && r.days == REWARD_DAYS && (r.applied.Some? ==> r.vests <= r.applied.value)
  }

  predicate OnePerPayment(rewards: seq<Reward>) {
    forall i, j :: 0 <= i < j < |rewards| ==> rewards[i].source != rewards[j].source
  }

  predicate RewardsEarned(payments: seq<Payment>, codes: map<string, Promo>, rewards: seq<Reward>) {
    OnePerPayment(rewards) && forall i :: 0 <= i < |rewards| ==> RewardEarned(rewards[i], payments, codes)
  }

  ghost predicate CodesPersist(c: map<string, Promo>, d: map<string, Promo>) {
    forall k :: k in c ==> k in d && d[k].owner == c[k].owner
  }

  lemma RewardsKept(v: seq<Payment>, c: map<string, Promo>, w: seq<Payment>, d: map<string, Promo>, rewards: seq<Reward>)
    requires RewardsEarned(v, c, rewards) && OrdersPersist(v, w) && CodesPersist(c, d)
    ensures RewardsEarned(w, d, rewards)
  {
  }

  lemma RewardsMarked(payments: seq<Payment>, codes: map<string, Promo>, rewards: seq<Reward>, lucky: set<nat>, now: int)
    requires RewardsEarned(payments, codes, rewards)
    ensures RewardsEarned(payments, codes, Marked(rewards, lucky, now))
  {
  }

  lemma RewardSettled(payments: seq<Payment>, codes: map<string, Promo>, rewards: seq<Reward>, p: nat, now: int)
    requires RewardsEarned(payments, codes, rewards) && p < |payments| && !IsPaid(payments[p])
    ensures RewardsEarned(payments[p := Closed(payments[p], now)], codes, RewardFor(rewards, codes, payments[p], p, now))
  {
  }

  lemma RewardsAfterNotice(s: State, e: Event)
    requires RewardsEarned(s.payments, s.codes, s.rewards) && Notifies(e.step)
    ensures RewardsEarned(Apply(s, e).payments, Apply(s, e).codes, Apply(s, e).rewards)
  {
    var end := NotificationEnds(s, e);
    match end {
      case Bought(base, p) =>
        RewardsKept(s.payments, s.codes, base.payments, base.codes, s.rewards);
        RewardSettled(base.payments, base.codes, base.rewards, p, e.env.now);
        RewardsMarked(base.payments[p := Closed(base.payments[p], e.env.now)], base.codes,
                      RewardFor(base.rewards, base.codes, base.payments[p], p, e.env.now), {base.payments[p].user}, e.env.now);
      case NoDevice(_) =>
      case StatusOnly(_) => RewardsKept(s.payments, s.codes, Apply(s, e).payments, s.codes, s.rewards);
    }
  }

  lemma RewardsAfterRefund(s: State, p: nat, now: int)
    requires RewardsEarned(s.payments, s.codes, s.rewards)
    ensures RewardsEarned(s.payments, s.codes, Refund(s, p, now).rewards)
  {
  }

  lemma RewardsStep(s: State, e: Event)
    requires RewardsEarned(s.payments, s.codes, s.rewards) && CodesInRange(s.codes)
    ensures RewardsEarned(Apply(s, e).payments, Apply(s, e).codes, Apply(s, e).rewards)
  {
    var t := Apply(s, e);
    if Notifies(e.step) {
      RewardsAfterNotice(s, e);
    } else {
      StepFrame(s, e);
      if e.step.PassesRewards? {
        RewardsMarked(s.payments, s.codes, s.rewards, LiveUsers(s.users, e.env.now), e.env.now);
      } else if e.step.Refunds? {
        RewardsAfterRefund(s, e.step.p, e.env.now);
      } else {
        OrdersStep(s, e);
        CodesStep(s, e);
        RewardsKept(s.payments, s.codes, t.payments, t.codes, s.rewards);
      }
    }
  }

  lemma CodesStep(s: State, e: Event)
    requires CodesInRange(s.codes)
    ensures CodesInRange(Apply(s, e).codes) && CodesPersist(s.codes, Apply(s, e).codes)
  {
    if Notifies(e.step) {
      var end := NotificationEnds(s, e);
    } else {
      StepFrame(s, e);
    }
  }

  /** The books are right in every reachable state. */
  lemma {:induction false} BooksAlwaysRight(s: State, run: seq<Event>)
    requires Initial(s) && ValidRun(s, run)
    ensures var t := Exec(s, run);
      SpendsOnce(t.payments, t.ledger) && RewardsEarned(t.payments, t.codes, t.rewards) && CodesInRange(t.codes)
  {
    if run != [] {
      var before := Exec(s, run[..|run| - 1]);
      BooksAlwaysRight(s, run[..|run| - 1]);
      SpendsStep(before, run[|run| - 1]);
      RewardsStep(before, run[|run| - 1]);
      CodesStep(before, run[|run| - 1]);
    }
  }

  /**
   * What can happen to a reward in one step: nothing; it lands, once vested, on
   * a live referrer; or a refund of its own purchase removes it, unapplied.
   */
  ghost predicate Fate(s: State, e: Event, r: Reward) {
    var t := Apply(s, e);
    || r in t.rewards
    || (Due(r, e.env.now) && r.(applied := Some(e.env.now)) in t.rewards
        && r.referrer < |t.users| && Live(t.users[r.referrer], e.env.now))
    || (e.step == Refunds(r.source) && r.applied.None?)
  }

  lemma FateAfterNotice(s: State, e: Event, i: nat)
    requires i < |s.rewards| && Notifies(e.step)
    ensures Fate(s, e, s.rewards[i])
  {
    var t, r := Apply(s, e), s.rewards[i];
    var end := NotificationEnds(s, e);
    if end.Bought? {
      ActivateDelivers(end.base, end.p, e.env);
      LandsOrStays(s.rewards, s.codes, end.base.payments[end.p], end.p, e.env.now, i);
    } else {
      assert t.rewards[i] == r;
    }
  }

  lemma LandsOrStays(rewards: seq<Reward>, codes: map<string, Promo>, pay: Payment, p: nat, now: int, i: nat)
    requires i < |rewards|
    ensures var r, after := rewards[i], Marked(RewardFor(rewards, codes, pay, p, now), {pay.user}, now);
      r in after || (r.referrer == pay.user && Due(r, now) && r.(applied := Some(now)) in after)
  {
  }

  lemma FateAfterRefund(s: State, e: Event, i: nat)
    requires i < |s.rewards| && e.step.Refunds?
    ensures Fate(s, e, s.rewards[i])
  {
  }

  lemma FateAfterPass(s: State, e: Event, i: nat)
    requires i < |s.rewards| && e.step.PassesRewards?
    ensures Fate(s, e, s.rewards[i])
  {
  }

  lemma RewardFate(s: State, e: Event, i: nat)
    requires i < |s.rewards|
    ensures Fate(s, e, s.rewards[i])
  {
    if Notifies(e.step) {
      FateAfterNotice(s, e, i);
    } else if e.step.Refunds? {
      FateAfterRefund(s, e, i);
    } else if e.step.PassesRewards? {
      FateAfterPass(s, e, i);
    } else {
      StepFrame(s, e);
    }
  }

  /** An applied reward is never applied again, changed or taken back, in any continuation. */
  lemma {:induction false} AppliedIsForGood(s: State, run: seq<Event>, r: Reward)
    requires r in s.rewards && r.applied.Some?
    ensures r in Exec(s, run).rewards
  {
    if run != [] {
      var before := Exec(s, run[..|run| - 1]);
      AppliedIsForGood(s, run[..|run| - 1], r);
      var i :| 0 <= i < |before.rewards| && before.rewards[i] == r;
      RewardFate(before, run[|run| - 1], i);
    }
  }

  // ---------------------------------------------------------------- refunds, on the entries

  predicate LegacyOf(e: Entry, p: nat) {
    e.reason == LegacyReward && e.source == Some(p)
  }

  /** A refund of a rewarded payment drops its reward alone, or nothing once it has been applied. */
  lemma RefundOfReward(s: State, p: nat, now: int, i: nat)
    requires OnePerPayment(s.rewards) && i < |s.rewards| && s.rewards[i].source == p
    ensures Refund(s, p, now) ==
      if s.rewards[i].applied.Some? then s else s.(rewards := s.rewards[..i] + s.rewards[i + 1..])
  {
  }

  /**
   * Without a reward, a refund drops the first entry of the old rule's points for the
   * payment if they have not vested or carry no date, and nothing otherwise.
   */
  lemma RefundOfPoints(s: State, p: nat, now: int, i: nat)
    requires forall k :: 0 <= k < |s.rewards| ==> s.rewards[k].source != p
    requires i <= |s.ledger| && forall k :: 0 <= k < i ==> !LegacyOf(s.ledger[k], p)
    requires i < |s.ledger| ==> LegacyOf(s.ledger[i], p)
    ensures Refund(s, p, now) ==
      if i < |s.ledger| && (s.ledger[i].vests.None? || now < s.ledger[i].vests.value)
      then s.(ledger := s.ledger[..i] + s.ledger[i + 1..]) else s
  {
    assert FirstLegacy(s.ledger, p) == i;
  }

  /** Rewards that land in a pass: those vested and not applied, of referrers with the flag and time left. */
  lemma LandsExactly(s: State, now: int, i: nat)
    requires i < |s.rewards|
    ensures var t, r := RewardPass(s, now), s.rewards[i];
      && |t.rewards| == |s.rewards| && |t.users| == |s.users|
      && t.rewards[i] ==
        if r.applied.None? && r.vests <= now && r.referrer < |s.users| && s.users[r.referrer].subscribed
           && s.users[r.referrer].until.Some? && now < s.users[r.referrer].until.value
        then r.(applied := Some(now)) else r
  {
  }

  /** A reward is thirty days, vesting fourteen days after its purchase. */
  lemma RewardTerms(s: State, run: seq<Event>, i: nat)
    requires Initial(s) && ValidRun(s, run) && i < |Exec(s, run).rewards|
    ensures var t := Exec(s, run);
      var r := t.rewards[i];
      && r.days == 30 && r.source < |t.payments| && t.payments[r.source].paidAt.Some?
      && r.vests == t.payments[r.source].paidAt.value + 14 * 86400
  {
    BooksAlwaysRight(s, run);
  }

  /** A settlement ends a running trial at once, and leaves one that is over, or none, alone. */
  lemma SettlingEndsTheTrial(s: State, p: nat, env: Env)
    requires Payable(s, p) && Activate(s, p, env).ok
    ensures var u := s.payments[p].user;
      Activate(s, p, env).state.users[u].trialUntil ==
      if s.users[u].trialUntil.Some? && env.now < s.users[u].trialUntil.value then Some(env.now) else s.users[u].trialUntil
  {
  }

  // ---------------------------------------------------------------- the reward pass

  lemma {:induction false} NothingDue(rewards: seq<Reward>, u: nat, now: int)
    requires forall i :: 0 <= i < |rewards| && rewards[i].referrer == u ==> !Due(rewards[i], now)
    ensures DueDays(rewards, u, now) == 0
  {
    if rewards != [] {
      NothingDue(rewards[..|rewards| - 1], u, now);
    }
  }

  /** After a pass no live referrer has a reward waiting, lapsed ones are untouched, a second pass adds nothing. */
  lemma RewardPassSettles(s: State, now: int)
    ensures var t := RewardPass(s, now);
      && (forall i :: 0 <= i < |t.rewards| && t.rewards[i].referrer < |t.users| && Live(t.users[t.rewards[i].referrer], now) ==>
            !Due(t.rewards[i], now))
      && (forall u :: 0 <= u < |s.users| && !Live(s.users[u], now) ==> t.users[u] == s.users[u])
      && RewardPass(t, now) == t
  {
    PassKeepsLive(s, now);
    PassAgain(s, now);
  }

  lemma PassKeepsLive(s: State, now: int)
    ensures var t := RewardPass(s, now);
      && LiveUsers(t.users, now) == LiveUsers(s.users, now)
      && (forall i :: 0 <= i < |t.rewards| && t.rewards[i].referrer in LiveUsers(s.users, now) ==> !Due(t.rewards[i], now))
  {
  }

  lemma PassAgain(s: State, now: int)
    ensures RewardPass(RewardPass(s, now), now) == RewardPass(s, now)
  {
    var t := RewardPass(s, now);
    PassKeepsLive(s, now);
    forall u | u in LiveUsers(s.users, now) ensures DueDays(t.rewards, u, now) == 0 {
      NothingDue(t.rewards, u, now);
    }
    assert RewardPass(t, now).users == t.users;
    assert RewardPass(t, now).rewards == t.rewards;
  }

  /** The pass and the subscription sweep touch different users: their order at one instant does not matter. */
  lemma PassAndSweepCommute(s: State, env: Env)
    ensures RewardPass(SubscriptionSweep(s, env), env.now) == SubscriptionSweep(RewardPass(s, env.now), env)
  {
    var now := env.now;
    var a, b := SubscriptionSweep(s, env), RewardPass(s, now);
    assert LapsedRows(b.users, s.fleet.rows, now) == LapsedRows(s.users, s.fleet.rows, now);
    assert LiveUsers(a.users, now) == LiveUsers(s.users, now);
    assert RewardPass(a, now).users == SubscriptionSweep(b, env).users;
  }
}
