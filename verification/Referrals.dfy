/** Which orders earn their code's owner a reward: decided when the order is opened, over whole runs. */
module Referrals {
  import opened Common
  import opened Plans
  import opened World
  import opened Credit
  import opened Handlers
  import opened Runs
  import opened Ledger

  /** An order of another customer's code, with cash to pay. */
  predicate Carries(payments: seq<Payment>, codes: map<string, Promo>, q: nat) {
    && q < |payments| && payments[q].code.Some? && payments[q].code.value in codes
    && codes[payments[q].code.value].owner.Some? && codes[payments[q].code.value].owner != Some(payments[q].user)
    && payments[q].amount > 0 && PlanInfo(payments[q].plan).Some?
  }

  // ---------------------------------------------------------------- settling

  lemma MarkedHas(rewards: seq<Reward>, lucky: set<nat>, now: int, q: nat)
    ensures HasReward(Marked(rewards, lucky, now), q) <==> HasReward(rewards, q)
  {
  }

  lemma RewardForHas(rewards: seq<Reward>, codes: map<string, Promo>, payments: seq<Payment>, p: nat, now: int, q: nat)
    requires p < |payments|
    ensures HasReward(RewardFor(rewards, codes, payments[p], p, now), q)
       <==> HasReward(rewards, q) || (q == p && Carries(payments, codes, p))
  {
    var after := RewardFor(rewards, codes, payments[p], p, now);
    if i :| 0 <= i < |rewards| && rewards[i].source == q {
      assert after[i] == rewards[i];
    }
    if after != rewards {
      assert after[|rewards|].source == p;
    }
  }

  lemma WithoutHas(rewards: seq<Reward>, i: nat, q: nat)
    requires i < |rewards| && rewards[i].source != q
    ensures HasReward(Handlers.Without(rewards, i), q) <==> HasReward(rewards, q)
  {
    var w := Handlers.Without(rewards, i);
    if j :| 0 <= j < |rewards| && rewards[j].source == q {
      assert w[if j < i then j else j - 1] == rewards[j];
    }
  }

  /** An order has its reward exactly when it is settled and carries a code; a code on record is known. */
  predicate EarnedRight(payments: seq<Payment>, codes: map<string, Promo>, rewards: seq<Reward>, q: nat) {
    && (HasReward(rewards, q) <==> Carries(payments, codes, q) && IsPaid(payments[q]))
    && (q < |payments| && payments[q].code.Some? ==> payments[q].code.value in codes)
  }

  lemma RecordedRight(payments: seq<Payment>, base: seq<Payment>, codes: map<string, Promo>, rewards: seq<Reward>, p: nat, q: nat)
    requires Recorded(payments, base, p) && EarnedRight(payments, codes, rewards, q)
    ensures EarnedRight(base, codes, rewards, q)
  {
  }

  lemma SettledRight(payments: seq<Payment>, codes: map<string, Promo>, rewards: seq<Reward>, p: nat, now: int, u: nat, q: nat)
    requires p < |payments| && EarnedRight(payments, codes, rewards, q)
    ensures EarnedRight(payments[p := Closed(payments[p], now)], codes,
                        Marked(RewardFor(rewards, codes, payments[p], p, now), {u}, now), q)
  {
    RewardForHas(rewards, codes, payments, p, now, q);
    MarkedHas(RewardFor(rewards, codes, payments[p], p, now), {u}, now, q);
  }

  lemma NoticeRight(s: State, e: Event, q: nat)
    requires Notifies(e.step) && EarnedRight(s.payments, s.codes, s.rewards, q)
    ensures EarnedRight(Apply(s, e).payments, Apply(s, e).codes, Apply(s, e).rewards, q)
  {
    var end := NotificationEnds(s, e);
    match end {
      case Bought(base, p) =>
        RecordedRight(s.payments, base.payments, s.codes, s.rewards, p, q);
        SettledRight(base.payments, base.codes, base.rewards, p, e.env.now, base.payments[p].user, q);
      case NoDevice(_) =>
      case StatusOnly(_) => assert q < |s.payments| ==> SamePaid(s.payments[q], Apply(s, e).payments[q]);
    }
  }

  lemma OrderRight(s: State, e: Event, q: nat)
    requires e.step.OpensOrder? && EarnedRight(s.payments, s.codes, s.rewards, q)
    requires HasReward(s.rewards, q) ==> q < |s.payments|
    ensures EarnedRight(Apply(s, e).payments, Apply(s, e).codes, Apply(s, e).rewards, q)
  {
  }

  lemma RefundRight(s: State, p: nat, now: int, q: nat)
    requires p != q && EarnedRight(s.payments, s.codes, s.rewards, q)
    ensures EarnedRight(s.payments, s.codes, Refund(s, p, now).rewards, q)
  {
    var i := FirstReward(s.rewards, p);
    if i < |s.rewards| {
      WithoutHas(s.rewards, i, q);
    }
  }

  lemma RightStep(s: State, e: Event, q: nat)
    requires EarnedRight(s.payments, s.codes, s.rewards, q) && e.step != Refunds(q)
    requires RewardsEarned(s.payments, s.codes, s.rewards) && CodesInRange(s.codes)
    ensures EarnedRight(Apply(s, e).payments, Apply(s, e).codes, Apply(s, e).rewards, q)
  {
    if Notifies(e.step) {
      NoticeRight(s, e, q);
    } else if e.step.OpensOrder? {
      OrderRight(s, e, q);
    } else {
      StepFrame(s, e);
      if e.step.Refunds? {
        RefundRight(s, e.step.p, e.env.now, q);
      } else if e.step.PassesRewards? {
        MarkedHas(s.rewards, LiveUsers(s.users, e.env.now), e.env.now, q);
      } else {
        CodesStep(s, e);
      }
    }
  }

  /** In every run that refunds it nothing, an order has its reward exactly when it is settled and carries a code. */
  lemma {:induction false} AlwaysRight(s: State, run: seq<Event>, q: nat)
    requires Initial(s) && ValidRun(s, run) && forall i :: 0 <= i < |run| ==> run[i].step != Refunds(q)
    ensures var t := Exec(s, run); EarnedRight(t.payments, t.codes, t.rewards, q)
  {
    if run != [] {
      assert run[|run| - 1].step != Refunds(q);
      AlwaysRight(s, run[..|run| - 1], q);
      BooksAlwaysRight(s, run[..|run| - 1]);
      RightStep(Exec(s, run[..|run| - 1]), run[|run| - 1], q);
    }
  }

  // ---------------------------------------------------------------- opening

  /** The code that comes with an order: the one typed, else the account's referral link. */
  function BroughtBy(s: State, u: nat, typed: Option<string>): Option<string>
    requires u < |s.users|
  {
    if typed.None? || typed.value == "" then s.users[u].referred else typed
  }

  /** It is another customer's, active, in time and with uses left. */
  predicate Referral(s: State, u: nat, typed: Option<string>, now: int) {
    u < |s.users| && BroughtBy(s, u, typed).Some? &&
    var c := BroughtBy(s, u, typed).value;
    c != "" && c in s.codes &&
    var promo := s.codes[c];
    && promo.active && (promo.expires.Some? ==> now < promo.expires.value)
    && (promo.maxUses.Some? ==> UsesOf(s.payments, c) < promo.maxUses.value)
    && promo.owner.Some? && promo.owner != Some(u)
  }

  predicate Opens(s: State, e: Event) {
    e.step.OpensOrder? && |Apply(s, e).payments| == |s.payments| + 1
  }

  /** An order just opened carries a code exactly when it came with one and is the buyer's first purchase. */
  lemma CarriesExactly(s: State, e: Event)
    requires Opens(s, e) && CodesInRange(s.codes)
    ensures var t, u := Apply(s, e), e.step.u;
      && t.payments[|s.payments|].user == u && t.payments[|s.payments|].provider != Manual && t.codes == s.codes
      && PlanInfo(t.payments[|s.payments|].plan).Some?
      && Carries(t.payments, t.codes, |s.payments|) == (Referral(s, u, e.step.typed, e.env.now) && FirstPurchase(s.payments, u))
  {
    OpenedCarries(s, e.step.u, e.step.plan, e.step.typed, e.step.asked, e.step.platega, e.step.accepted, e.env.now, Apply(s, e));
  }

  lemma OpenedCarries(s: State, u: nat, plan: string, typed: Option<string>, asked: int, platega: bool, accepted: bool, now: int, t: State)
    requires t == OpenOrder(s, u, plan, typed, asked, platega, accepted, now).(now := now)
    requires |t.payments| == |s.payments| + 1 && CodesInRange(s.codes)
    ensures t.payments[|s.payments|].user == u && t.payments[|s.payments|].provider != Manual && t.codes == s.codes
    ensures PlanInfo(t.payments[|s.payments|].plan).Some?
    ensures Carries(t.payments, t.codes, |s.payments|) <==> Referral(s, u, typed, now) && FirstPurchase(s.payments, u)
  {
    QuoteAddsUp(s, u, plan, typed, asked, now);
  }

  // ---------------------------------------------------------------- from the opening to the end

  lemma {:induction false} SinceThen(s: State, run: seq<Event>, k: nat)
    requires Initial(s) && ValidRun(s, run) && k <= |run|
    ensures OrdersPersist(Exec(s, run[..k]).payments, Exec(s, run).payments)
    ensures CodesPersist(Exec(s, run[..k]).codes, Exec(s, run).codes)
  {
    if k == |run| {
      assert run[..k] == run;
    } else {
      var short := run[..|run| - 1];
      assert short[..k] == run[..k];
      SinceThen(s, short, k);
      BooksAlwaysRight(s, short);
      OrdersStep(Exec(s, short), run[|run| - 1]);
      CodesStep(Exec(s, short), run[|run| - 1]);
    }
  }

  lemma CarriesStays(payments: seq<Payment>, codes: map<string, Promo>, later: seq<Payment>, d: map<string, Promo>, q: nat)
    requires OrdersPersist(payments, later) && CodesPersist(codes, d) && q < |payments|
    requires payments[q].code.Some? ==> payments[q].code.value in codes
    ensures Carries(payments, codes, q) <==> Carries(later, d, q)
  {
  }

  /** Order `q` is opened by step `k` of a run. */
  predicate OpenedAt(s: State, run: seq<Event>, k: nat, q: nat)
    requires k < |run|
  {
    Opens(Exec(s, run[..k]), run[k]) && q == |Exec(s, run[..k]).payments|
  }

  lemma StepAt(s: State, run: seq<Event>, k: nat)
    requires k < |run|
    ensures Exec(s, run[..k + 1]) == Apply(Exec(s, run[..k]), run[k])
    ensures ValidRun(s, run[..k + 1]) ==> ValidRun(s, run[..k])
  {
    assert run[..k + 1][..k] == run[..k];
  }

  lemma {:induction false} PrefixValid(s: State, run: seq<Event>, k: nat)
    requires ValidRun(s, run) && k <= |run|
    ensures ValidRun(s, run[..k])
  {
    if k == |run| {
      assert run[..k] == run;
    } else {
      assert run[..|run| - 1][..k] == run[..k];
      PrefixValid(s, run[..|run| - 1], k);
    }
  }

  predicate FirstReferral(s: State, e: Event)
    requires e.step.OpensOrder?
  {
    Referral(s, e.step.u, e.step.typed, e.env.now) && FirstPurchase(s.payments, e.step.u)
  }

  /** What an order carries at the end is what it was opened with. */
  lemma CarriesAtTheEnd(s: State, run: seq<Event>, k: nat, q: nat)
    requires Initial(s) && ValidRun(s, run) && k < |run| && OpenedAt(s, run, k, q)
    ensures var before, u, t := Exec(s, run[..k]), run[k].step.u, Exec(s, run);
      && q < |t.payments| && t.payments[q].user == u && t.payments[q].provider != Manual && PlanInfo(t.payments[q].plan).Some?
      && Carries(t.payments, t.codes, q) == FirstReferral(before, run[k])
  {
    StepAt(s, run, k);
    PrefixValid(s, run, k);
    BooksAlwaysRight(s, run[..k]);
    CarriesExactly(Exec(s, run[..k]), run[k]);
    SinceThen(s, run, k + 1);
    OpenedKnown(Exec(s, run[..k]), run[k]);
    CarriesStays(Exec(s, run[..k + 1]).payments, Exec(s, run[..k + 1]).codes, Exec(s, run).payments, Exec(s, run).codes, q);
  }

  lemma OpenedKnown(s: State, e: Event)
    requires Opens(s, e)
    ensures var t := Apply(s, e); t.payments[|s.payments|].code.Some? ==> t.payments[|s.payments|].code.value in t.codes
  {
  }

  /**
   * In every run: a settled order that was not refunded has earned a reward if and
   * only if, when it was opened, it came with another customer's usable code and the
   * buyer had settled nothing before.
   */
  lemma RewardedExactly(s: State, run: seq<Event>, k: nat, q: nat)
    requires Initial(s) && ValidRun(s, run) && k < |run| && OpenedAt(s, run, k, q)
    requires q < |Exec(s, run).payments| && IsPaid(Exec(s, run).payments[q])
    requires forall i :: 0 <= i < |run| ==> run[i].step != Refunds(q)
    ensures var before, u := Exec(s, run[..k]), run[k].step.u;
      HasReward(Exec(s, run).rewards, q) <==>
      Referral(before, u, run[k].step.typed, run[k].env.now) && FirstPurchase(before.payments, u)
  {
    AlwaysRight(s, run, q);
    CarriesAtTheEnd(s, run, k, q);
  }

  /** An order that has a reward was its buyer's first when it was opened. */
  lemma RewardedWasFirst(s: State, run: seq<Event>, k: nat, q: nat)
    requires Initial(s) && ValidRun(s, run) && k < |run| && OpenedAt(s, run, k, q) && HasReward(Exec(s, run).rewards, q)
    ensures FirstPurchase(Exec(s, run[..k]).payments, run[k].step.u)
  {
    BooksAlwaysRight(s, run);
    CarriesAtTheEnd(s, run, k, q);
    RewardedCarries(Exec(s, run).payments, Exec(s, run).codes, Exec(s, run).rewards, q);
  }

  /** One buyer earns two rewards only by opening the later order while the earlier was unpaid. */
  lemma TwoRewardsOneBuyer(s: State, run: seq<Event>, j: nat, p: nat, k: nat, q: nat)
    requires Initial(s) && ValidRun(s, run) && j < k < |run|
    requires OpenedAt(s, run, j, p) && OpenedAt(s, run, k, q) && run[j].step.u == run[k].step.u
    requires HasReward(Exec(s, run).rewards, p) && HasReward(Exec(s, run).rewards, q)
    ensures var before := Exec(s, run[..k]); p < |before.payments| && !IsPaid(before.payments[p])
  {
    RewardedWasFirst(s, run, k, q);
    EarlierOrder(s, run, j, p, k);
    FirstIsUnpaid(Exec(s, run[..k]).payments, p, run[k].step.u);
  }

  lemma RewardedCarries(payments: seq<Payment>, codes: map<string, Promo>, rewards: seq<Reward>, q: nat)
    requires RewardsEarned(payments, codes, rewards) && HasReward(rewards, q)
    requires q < |payments| && PlanInfo(payments[q].plan).Some?
    ensures Carries(payments, codes, q)
  {
  }

  lemma FirstIsUnpaid(payments: seq<Payment>, p: nat, u: nat)
    requires FirstPurchase(payments, u) && p < |payments| && payments[p].user == u && payments[p].provider != Manual
    ensures !IsPaid(payments[p])
  {
  }

  lemma EarlierOrder(s: State, run: seq<Event>, j: nat, p: nat, k: nat)
    requires Initial(s) && ValidRun(s, run) && j < k < |run| && OpenedAt(s, run, j, p)
    ensures var before := Exec(s, run[..k]);
      p < |before.payments| && before.payments[p].user == run[j].step.u && before.payments[p].provider != Manual
  {
    PrefixValid(s, run, k);
    assert run[..k][..j] == run[..j] && run[..k][j] == run[j];
    CarriesAtTheEnd(s, run[..k], j, p);
  }

  // ---------------------------------------------------------------- two at once

  /** A verified buyer, and the owner of a code of ten percent. */
  function Shop(): State {
    State(0, [User(false, None, None, None, None, Some(1), None), User(true, Some(100), Some("basic-1m"), None, None, None, None)],
          Fleet([], map[], map[]), [], map["friend" := Promo(Some(1), 10, None, true, None)], [], [], [])
  }

  /** Two first orders opened before either is paid both carry the code, and both earn their reward. */
  lemma TwoFirstOrders()
    ensures var one := OpenOrder(Shop(), 0, "basic-1m", Some("friend"), 0, true, true, 0);
      var two := OpenOrder(one, 0, "basic-1m", Some("friend"), 0, true, true, 0);
      && |two.payments| == 2 && two.payments[0].user == two.payments[1].user
      && |RewardFor(RewardFor([], two.codes, two.payments[0], 0, 0), two.codes, two.payments[1], 1, 0)| == 2
  {
    FriendsOrder(Shop());
    FriendsOrder(OpenOrder(Shop(), 0, "basic-1m", Some("friend"), 0, true, true, 0));
  }

  lemma FriendsOrder(s: State)
    requires s == Shop().(payments := s.payments) && forall i :: 0 <= i < |s.payments| ==> s.payments[i].status == "pending"
    requires forall i :: 0 <= i < |s.payments| ==> s.payments[i].code == Some("friend")
    ensures OpenOrder(s, 0, "basic-1m", Some("friend"), 0, true, true, 0)
         == s.(payments := s.payments + [Payment(0, "basic-1m", 315, Platega, "pending", Some("friend"), 0, None)])
  {
  }
}
