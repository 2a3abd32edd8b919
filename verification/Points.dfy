/** Credit points over time: what a balance gains and loses, step by step, and when it falls below zero. */
module Points {
  import opened Common
  import opened World
  import opened Credit
  import opened Handlers
  import opened Runs
  import opened Ledger

  // ---------------------------------------------------------------- time alone

  /** Points that vest after `a` and count at `b`. */
  function Vesting(ledger: seq<Entry>, u: nat, a: int, b: int): int {
    if ledger == [] then 0
    else
      var e := ledger[|ledger| - 1];
      Vesting(ledger[..|ledger| - 1], u, a, b) + if Counts(e, u, b) && e.vests.Some? && a < e.vests.value then e.delta else 0
  }

  /** Points that count at `a` and have expired by `b`. */
  function Expiring(ledger: seq<Entry>, u: nat, a: int, b: int): int {
    if ledger == [] then 0
    else
      var e := ledger[|ledger| - 1];
      Expiring(ledger[..|ledger| - 1], u, a, b) + if Counts(e, u, a) && e.expires.Some? && e.expires.value <= b then e.delta else 0
  }

  /** With the ledger untouched, a balance gains what vests and loses what expires. */
  lemma {:induction false} BalanceAges(ledger: seq<Entry>, u: nat, a: int, b: int)
    requires a <= b
    ensures Balance(ledger, u, b) == Balance(ledger, u, a) + Vesting(ledger, u, a, b) - Expiring(ledger, u, a, b)
  {
    if ledger != [] {
      BalanceAges(ledger[..|ledger| - 1], u, a, b);
    }
  }

  // ---------------------------------------------------------------- one step

  /** Points of an order this step settles. */
  function Spent(s: State, e: Event, u: nat): nat {
    var b := SaleOf(s, e);
    if b.Some? && b.value.pay.user == u then Max(0, b.value.pay.credit) else 0
  }

  /** Points an operator enters in this step, negative ones included. */
  function Entered(e: Event, u: nat): int {
    if e.step.EntersByHand? && e.step.entry.reason != Spend && Counts(e.step.entry, u, e.env.now) then e.step.entry.delta else 0
  }

  /** Counting points that a refund takes back: those of the old rule that carry no vesting date. */
  function Withdrawn(s: State, e: Event, u: nat): int {
    if !e.step.Refunds? || HasReward(s.rewards, e.step.p) then 0
    else
      var j := FirstLegacy(s.ledger, e.step.p);
      if j < |s.ledger| && s.ledger[j].vests.None? && Counts(s.ledger[j], u, e.env.now) then s.ledger[j].delta else 0
  }

  lemma {:induction false} BalanceWithout(ledger: seq<Entry>, i: nat, u: nat, now: int)
    requires i < |ledger|
    ensures Balance(Handlers.Without(ledger, i), u, now)
         == Balance(ledger, u, now) - if Counts(ledger[i], u, now) then ledger[i].delta else 0
  {
    var short, w := ledger[..|ledger| - 1], Handlers.Without(ledger, i);
    if i == |ledger| - 1 {
      assert w == short;
    } else {
      BalanceWithout(short, i, u, now);
      assert w[..|w| - 1] == Handlers.Without(short, i);
    }
  }

  lemma NoticeSpends(s: State, e: Event, u: nat)
    requires Notifies(e.step) && SpendsOnce(s.payments, s.ledger)
    ensures Balance(Apply(s, e).ledger, u, e.env.now) == Balance(s.ledger, u, e.env.now) - Spent(s, e, u)
  {
    var end := NotificationEnds(s, e);
    if end.Bought? {
      if end.base.payments != s.payments {
        SpendsAppend(s.payments, s.ledger, end.base.payments[end.p]);
      }
      SettlingTakesItsCredit(end.base.payments, s.ledger, end.p, u, e.env.now);
    }
  }

  lemma RefundWithdraws(s: State, e: Event, u: nat, t: State)
    requires e.step.Refunds? && t == Refund(s, e.step.p, e.env.now)
    ensures Balance(t.ledger, u, e.env.now) == Balance(s.ledger, u, e.env.now) - Withdrawn(s, e, u)
  {
    var j := FirstLegacy(s.ledger, e.step.p);
    if j < |s.ledger| {
      BalanceWithout(s.ledger, j, u, e.env.now);
    }
  }

  lemma EntryCounts(s: State, e: Event, u: nat, t: State)
    requires e.step.EntersByHand? && t == HandEntry(s, e.step.entry)
    ensures Balance(t.ledger, u, e.env.now) == Balance(s.ledger, u, e.env.now) + Entered(e, u)
  {
  }

  lemma SalesAreNotices(s: State, e: Event)
    requires !Notifies(e.step)
    ensures SaleOf(s, e).None?
  {
  }

  /** What a step comes to for one balance, time passing included: all of it read before the step. */
  function Flow(s: State, e: Event, u: nat): int {
    Vesting(s.ledger, u, s.now, e.env.now) - Expiring(s.ledger, u, s.now, e.env.now)
    + Entered(e, u) - Spent(s, e, u) - Withdrawn(s, e, u)
  }

  lemma LedgerStep(s: State, e: Event, u: nat)
    requires SpendsOnce(s.payments, s.ledger)
    ensures Balance(Apply(s, e).ledger, u, e.env.now)
         == Balance(s.ledger, u, e.env.now) + Entered(e, u) - Spent(s, e, u) - Withdrawn(s, e, u)
  {
    if Notifies(e.step) {
      NoticeSpends(s, e, u);
    } else {
      SalesAreNotices(s, e);
      if e.step.Refunds? {
        RefundWithdraws(s, e, u, Handle(s, e.step, e.env));
      } else if e.step.EntersByHand? {
        EntryCounts(s, e, u, Handle(s, e.step, e.env));
      } else {
        StepFrame(s, e);
      }
    }
  }

  /**
   * A balance changes in a step by what vested, expired, was entered by hand, was
   * spent on an order settled, or was withdrawn by a refund; so a step leaves it
   * negative exactly when these losses exceed what is there.
   */
  lemma OverdrawnByExactly(s: State, e: Event, u: nat)
    requires SpendsOnce(s.payments, s.ledger) && s.now <= e.env.now
    ensures Balance(Apply(s, e).ledger, u, Apply(s, e).now) == Balance(s.ledger, u, s.now) + Flow(s, e, u)
    ensures Balance(Apply(s, e).ledger, u, Apply(s, e).now) < 0 <==>
      Balance(s.ledger, u, s.now) + Vesting(s.ledger, u, s.now, e.env.now) + Entered(e, u)
      < Expiring(s.ledger, u, s.now, e.env.now) + Spent(s, e, u) + Withdrawn(s, e, u)
  {
    LedgerStep(s, e, u);
    BalanceAges(s.ledger, u, s.now, e.env.now);
  }

  // ---------------------------------------------------------------- whole runs

  function Flows(s: State, run: seq<Event>, u: nat): int {
    if run == [] then 0
    else Flows(s, run[..|run| - 1], u) + Flow(Exec(s, run[..|run| - 1]), run[|run| - 1], u)
  }

  /** In every run a balance is the sum of all its flows: no point is lost, and none is counted twice. */
  lemma {:induction false} PointsAreConserved(s: State, run: seq<Event>, u: nat)
    requires Initial(s) && ValidRun(s, run)
    ensures Balance(Exec(s, run).ledger, u, Exec(s, run).now) == Flows(s, run, u)
  {
    if run != [] {
      var before := Exec(s, run[..|run| - 1]);
      PointsAreConserved(s, run[..|run| - 1], u);
      BooksAlwaysRight(s, run[..|run| - 1]);
      OverdrawnByExactly(before, run[|run| - 1], u);
    }
  }

  // ---------------------------------------------------------------- earned against spent

  /** What a customer was given and still counts; spends are left aside. */
  function Given(ledger: seq<Entry>, u: nat, now: int): int {
    if ledger == [] then 0
    else
      var e := ledger[|ledger| - 1];
      Given(ledger[..|ledger| - 1], u, now) + if e.reason != Spend && Counts(e, u, now) then e.delta else 0
  }

  function CreditOf(pay: Payment, u: nat): nat {
    if pay.user == u && IsPaid(pay) then Max(0, pay.credit) else 0
  }

  /** The credit of all orders a customer ever settled. */
  function PaidCredit(payments: seq<Payment>, u: nat): nat {
    if payments == [] then 0
    else PaidCredit(payments[..|payments| - 1], u) + CreditOf(payments[|payments| - 1], u)
  }

  lemma {:induction false} PaidCreditUpdate(payments: seq<Payment>, p: nat, pay: Payment, u: nat)
    requires p < |payments|
    ensures PaidCredit(payments[p := pay], u) == PaidCredit(payments, u) - CreditOf(payments[p], u) + CreditOf(pay, u)
  {
    var short := payments[..|payments| - 1];
    if p == |payments| - 1 {
      assert payments[p := pay][..p] == short;
    } else {
      PaidCreditUpdate(short, p, pay, u);
      assert payments[p := pay][..|payments| - 1] == short[p := pay];
    }
  }

  lemma {:induction false} PaidCreditSame(v: seq<Payment>, w: seq<Payment>, u: nat)
    requires |v| == |w| && forall i :: 0 <= i < |v| ==> SamePaid(v[i], w[i])
    ensures PaidCredit(v, u) == PaidCredit(w, u)
  {
    if v != [] {
      PaidCreditSame(v[..|v| - 1], w[..|w| - 1], u);
    }
  }

  lemma PaidCreditAppend(payments: seq<Payment>, pay: Payment, u: nat)
    ensures PaidCredit(payments + [pay], u) == PaidCredit(payments, u) + CreditOf(pay, u)
  {
  }

  lemma {:induction false} GivenWithout(ledger: seq<Entry>, i: nat, u: nat, now: int)
    requires i < |ledger|
    ensures Given(Handlers.Without(ledger, i), u, now)
         == Given(ledger, u, now) - if ledger[i].reason != Spend && Counts(ledger[i], u, now) then ledger[i].delta else 0
  {
    var short, w := ledger[..|ledger| - 1], Handlers.Without(ledger, i);
    if i == |ledger| - 1 {
      assert w == short;
    } else {
      GivenWithout(short, i, u, now);
      assert w[..|w| - 1] == Handlers.Without(short, i);
    }
  }

  lemma GivenAppend(ledger: seq<Entry>, e: Entry, u: nat, now: int)
    ensures Given(ledger + [e], u, now) == Given(ledger, u, now) + if e.reason != Spend && Counts(e, u, now) then e.delta else 0
  {
  }

  /** A balance is what was given and counts, less the credit of every order settled. */
  predicate Square(payments: seq<Payment>, ledger: seq<Entry>, u: nat, now: int) {
    Balance(ledger, u, now) == Given(ledger, u, now) - PaidCredit(payments, u)
  }

  lemma SquareSettled(payments: seq<Payment>, ledger: seq<Entry>, p: nat, at: int, u: nat, now: int)
    requires SpendsOnce(payments, ledger) && p < |payments| && !IsPaid(payments[p]) && Square(payments, ledger, u, now)
    ensures Square(payments[p := Closed(payments[p], at)], SpendOn(ledger, payments[p], p), u, now)
  {
    SettlingTakesItsCredit(payments, ledger, p, u, now);
    PaidCreditUpdate(payments, p, Closed(payments[p], at), u);
    GivenAppend(ledger, Entry(payments[p].user, -payments[p].credit, Spend, Some(p), None, None, None), u, now);
  }

  lemma SquareRecorded(payments: seq<Payment>, base: seq<Payment>, ledger: seq<Entry>, p: nat, u: nat, now: int)
    requires Recorded(payments, base, p) && SpendsOnce(payments, ledger) && Square(payments, ledger, u, now)
    ensures SpendsOnce(base, ledger) && Square(base, ledger, u, now)
  {
    if base != payments {
      SpendsAppend(payments, ledger, base[p]);
      PaidCreditAppend(payments, base[p], u);
    }
  }

  lemma SquareAfterNotice(s: State, e: Event, u: nat, now: int)
    requires Notifies(e.step) && SpendsOnce(s.payments, s.ledger) && Square(s.payments, s.ledger, u, now)
    ensures Square(Apply(s, e).payments, Apply(s, e).ledger, u, now)
  {
    var end := NotificationEnds(s, e);
    match end {
      case Bought(base, p) =>
        SquareRecorded(s.payments, base.payments, s.ledger, p, u, now);
        SquareSettled(base.payments, s.ledger, p, e.env.now, u, now);
      case NoDevice(_) =>
      case StatusOnly(_) => PaidCreditSame(s.payments, Apply(s, e).payments, u);
    }
  }

  lemma SquareAfterRefund(s: State, p: nat, at: int, u: nat, now: int)
    requires Square(s.payments, s.ledger, u, now)
    ensures Square(s.payments, Refund(s, p, at).ledger, u, now)
  {
    var j := FirstLegacy(s.ledger, p);
    if j < |s.ledger| {
      BalanceWithout(s.ledger, j, u, now);
      GivenWithout(s.ledger, j, u, now);
    }
  }

  lemma SquareAfterEntry(payments: seq<Payment>, ledger: seq<Entry>, e: Entry, u: nat, now: int)
    requires Square(payments, ledger, u, now) && e.reason != Spend
    ensures Square(payments, ledger + [e], u, now)
  {
  }

  lemma SquareAfterOrder(s: State, e: Event, u: nat, now: int)
    requires e.step.OpensOrder? && Square(s.payments, s.ledger, u, now)
    ensures Square(Apply(s, e).payments, Apply(s, e).ledger, u, now)
  {
    var t := Apply(s, e);
    OrderAppends(s, e.step.u, e.step.plan, e.step.typed, e.step.asked, e.step.platega, e.step.accepted, e.env.now, Handle(s, e.step, e.env));
    if t.payments != s.payments {
      PaidCreditAppend(s.payments, t.payments[|s.payments|], u);
    }
  }

  lemma OrderAppends(s: State, u: nat, plan: string, typed: Option<string>, asked: int, platega: bool, accepted: bool, now: int, t: State)
    requires t == OpenOrder(s, u, plan, typed, asked, platega, accepted, now)
    ensures t.ledger == s.ledger
    ensures t.payments != s.payments ==>
      |t.payments| == |s.payments| + 1 && t.payments == s.payments + [t.payments[|s.payments|]] && !IsPaid(t.payments[|s.payments|])
  {
  }

  lemma SquareStep(s: State, e: Event, u: nat, now: int)
    requires SpendsOnce(s.payments, s.ledger) && Square(s.payments, s.ledger, u, now)
    ensures Square(Apply(s, e).payments, Apply(s, e).ledger, u, now)
  {
    if Notifies(e.step) {
      SquareAfterNotice(s, e, u, now);
    } else if e.step.OpensOrder? {
      SquareAfterOrder(s, e, u, now);
    } else {
      StepFrame(s, e);
      if e.step.Refunds? {
        SquareAfterRefund(s, e.step.p, e.env.now, u, now);
      } else if e.step.EntersByHand? && e.step.entry.reason != Spend {
        SquareAfterEntry(s.payments, s.ledger, e.step.entry, u, now);
      }
    }
  }

  lemma {:induction false} AlwaysSquare(s: State, run: seq<Event>, u: nat, now: int)
    requires Initial(s) && ValidRun(s, run)
    ensures Square(Exec(s, run).payments, Exec(s, run).ledger, u, now)
  {
    if run != [] {
      AlwaysSquare(s, run[..|run| - 1], u, now);
      BooksAlwaysRight(s, run[..|run| - 1]);
      SquareStep(Exec(s, run[..|run| - 1]), run[|run| - 1], u, now);
    }
  }

  /**
   * In every reachable state and at every instant: a balance is below zero if and
   * only if the points that were given and still count are fewer than the credit of
   * the orders settled, since points expire and what was spent of them does not
   * come back.
   */
  lemma NegativeExactly(s: State, run: seq<Event>, u: nat, now: int)
    requires Initial(s) && ValidRun(s, run)
    ensures var t := Exec(s, run);
      Balance(t.ledger, u, now) < 0 <==> Given(t.ledger, u, now) < PaidCredit(t.payments, u)
  {
    AlwaysSquare(s, run, u, now);
  }

  /** A settlement well covered by 200 points; the 25 left of them at 99 are minus 175 at 100, when the points expire. */
  lemma ExpiryOverdraws()
    ensures var order := Payment(0, "basic-1m", 175, Platega, "pending", None, 175, None);
      var before := [Entry(0, 200, LegacyReward, None, None, None, Some(100))];
      var after := SpendOn(before, order, 0);
      && SpendsOnce([order], before) && Balance(before, 0, 50) == 200
      && Balance(after, 0, 50) == 25 && Balance(after, 0, 99) == 25 && Balance(after, 0, 100) == -175
  {
  }
}
