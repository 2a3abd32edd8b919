/** When an order is opened and at what price, and when a gateway's word settles it: told on the fields of the state. */
module Orders {
  import opened Common
  import opened Plans
  import opened World
  import opened Credit
  import opened Handlers
  import opened Fleets
  import opened Runs
  import opened Ledger
  import Devices

  // ---------------------------------------------------------------- codes

  /** The settled orders of a code. */
  function Uses(payments: seq<Payment>, code: string): set<nat> {
    set i | 0 <= i < |payments| && payments[i].code == Some(code) && payments[i].status == "paid"
  }

  lemma {:induction false} UsesIsSize(payments: seq<Payment>, code: string)
    ensures UsesOf(payments, code) == |Uses(payments, code)|
  {
    if payments != [] {
      UsesIsSize(payments[..|payments| - 1], code);
      LastOfUses(payments, code);
    }
  }

  lemma LastOfUses(payments: seq<Payment>, code: string)
    requires payments != []
    ensures var n, p := |payments| - 1, payments[|payments| - 1];
      && n !in Uses(payments[..n], code)
      && Uses(payments, code) == Uses(payments[..n], code) + if p.code == Some(code) && p.status == "paid" then {n} else {}
  {
  }

  /** The buyer has paid a gateway before. */
  predicate Bought(payments: seq<Payment>, u: nat) {
    exists i :: 0 <= i < |payments| && payments[i].user == u && payments[i].provider != Manual
      && (payments[i].status == "paid" || payments[i].status == "paid_over")
  }

  /** A code this buyer may use now: known, active, in time, with uses left, not their own, and if somebody's, on a first purchase. */
  predicate Good(s: State, u: nat, code: string, now: int) {
    && code != "" && code in s.codes && s.codes[code].active
    && (s.codes[code].expires.Some? ==> now < s.codes[code].expires.value)
    && (s.codes[code].maxUses.Some? ==> |Uses(s.payments, code)| < s.codes[code].maxUses.value)
    && s.codes[code].owner != Some(u) && (s.codes[code].owner.Some? ==> !Bought(s.payments, u))
  }

  lemma UsableIsGood(s: State, u: nat, code: string, now: int)
    requires code != ""
    ensures ResolveCode(s, Some(code), u, now).Usable? <==> Good(s, u, code, now)
    ensures Good(s, u, code, now) ==> ResolveCode(s, Some(code), u, now).promo == s.codes[code]
    ensures !ResolveCode(s, Some(code), u, now).NoCode?
  {
    UsesIsSize(s.payments, code);
  }

  predicate Typed(code: Option<string>) {
    code.Some? && code.value != ""
  }

  /** The code that sets the price: a good one typed, or, when none is typed, a good one of the link on a first purchase. */
  function CodeUsed(s: State, u: nat, typed: Option<string>, now: int): Option<string>
    requires u < |s.users|
  {
    var link := s.users[u].referred;
    if Typed(typed) then (if Good(s, u, typed.value, now) then typed else None)
    else if link.Some? && !Bought(s.payments, u) && Good(s, u, link.value, now) then link
    else None
  }

  /** Codes take 1 to 60 percent off, customers' own 10; a customer has one active code at most. */
  ghost predicate CodesRight(codes: map<string, Promo>) {
    && (forall c :: c in codes ==> 1 <= codes[c].percent <= 60 && (codes[c].owner.Some? ==> codes[c].percent == 10))
    && (forall c, d :: c in codes && d in codes && c != d && codes[c].active && codes[d].active && codes[c].owner.Some? ==>
          codes[d].owner != codes[c].owner)
  }

  lemma CodesRightStep(s: State, e: Event)
    requires CodesRight(s.codes)
    ensures CodesRight(Apply(s, e).codes)
  {
    if Notifies(e.step) {
      var end := NotificationEnds(s, e);
    } else {
      StepFrame(s, e);
    }
  }

  lemma {:induction false} CodesAlwaysRight(s: State, run: seq<Event>)
    requires Initial(s)
    ensures CodesRight(Exec(s, run).codes)
  {
    if run != [] {
      CodesAlwaysRight(s, run[..|run| - 1]);
      CodesRightStep(Exec(s, run[..|run| - 1]), run[|run| - 1]);
    }
  }

  // ---------------------------------------------------------------- opening

  /** No more devices in either location than the plan asked for allows. */
  predicate RoomFor(rows: seq<Row>, u: nat, plan: Plan) {
    forall loc: Loc :: |Devices.PaidRows(rows, u, loc)| <= plan.configs
  }

  lemma RoomIsWithin(rows: seq<Row>, u: nat, plan: string)
    requires Sold(plan).Some?
    ensures WithinPlan(rows, u, plan) <==> RoomFor(rows, u, Sold(plan).value)
  {
    Devices.CountIsSize(rows, u, DE);
    Devices.CountIsSize(rows, u, NL);
    if WithinPlan(rows, u, plan) {
      forall loc: Loc ensures |Devices.PaidRows(rows, u, loc)| <= Sold(plan).value.configs {
        Devices.CountIsSize(rows, u, loc);
      }
    }
  }

  lemma QuoteRefused(s: State, u: nat, plan: Plan, typed: Option<string>, asked: int, now: int)
    requires u < |s.users|
    ensures PriceOrder(s, u, plan, typed, asked, now).refused.None? <==> !Typed(typed) || Good(s, u, typed.value, now)
  {
    if Typed(typed) {
      UsableIsGood(s, u, typed.value, now);
    }
  }

  /**
   * An order is opened if and only if the plan is sold, the account has a confirmed
   * mailbox or Telegram and no more devices than the plan allows in either location,
   * and no code is typed that the buyer may not use now.
   */
  lemma OpensExactly(s: State, u: nat, plan: string, typed: Option<string>, asked: int, platega: bool, accepted: bool, now: int)
    ensures OpenOrder(s, u, plan, typed, asked, platega, accepted, now) != s <==>
      && u < |s.users| && Sold(plan).Some? && (s.users[u].mailbox.Some? || s.users[u].telegram.Some?)
      && RoomFor(s.fleet.rows, u, Sold(plan).value) && (Typed(typed) ==> Good(s, u, typed.value, now))
  {
    if u < |s.users| && Sold(plan).Some? {
      RoomIsWithin(s.fleet.rows, u, plan);
      QuoteRefused(s, u, Sold(plan).value, typed, asked, now);
    }
    var t := OpenOrder(s, u, plan, typed, asked, platega, accepted, now);
    assert |t.payments| == |s.payments| ==> t == s;
  }

  /** The whole ruble nearest to a percentage, a half going to the even one. */
  lemma RoundsHalfEven(n: nat)
    ensures var r := RoundHundredths(n);
      && -50 <= 100 * r - n <= 50
      && (100 * r - n == 50 || 100 * r - n == -50 ==> r % 2 == 0)
  {
  }

  predicate PercentOff(price: int, percent: nat, after: int) {
    var off := price - after;
    && -50 <= 100 * off - price * percent <= 50
    && (100 * off - price * percent == 50 || 100 * off - price * percent == -50 ==> off % 2 == 0)
  }

  /** The most credit that is asked for, there, and at most half of the price; none if that is negative. */
  predicate MostCredit(credit: int, asked: int, balance: int, price: int) {
    && 0 <= credit
    && (credit > 0 ==> credit <= asked && credit <= balance && 2 * credit <= price)
    && forall c :: 0 <= c <= asked && c <= balance && 2 * c <= price ==> c <= credit
  }

  /**
   * An opened order is the buyer's, on the plan asked for, at the plan's price less
   * exactly the percentage of the one code that counts and the most credit allowed.
   */
  lemma OrderTerms(s: State, u: nat, plan: string, typed: Option<string>, asked: int, platega: bool, accepted: bool, now: int)
    requires OpenOrder(s, u, plan, typed, asked, platega, accepted, now) != s && CodesInRange(s.codes)
    ensures u < |s.users| && Sold(plan).Some?
    ensures var t, used := OpenOrder(s, u, plan, typed, asked, platega, accepted, now), CodeUsed(s, u, typed, now);
      && t == s.(payments := s.payments + [t.payments[|s.payments|]])
      && var pay := t.payments[|s.payments|];
      && pay.user == u && pay.plan == plan && pay.code == used && pay.paidAt.None?
      && pay.provider == (if platega then Platega else NoProvider) && pay.status == (if accepted then "pending" else "error")
      && PercentOff(Sold(plan).value.price, if used.Some? then s.codes[used.value].percent else 0, pay.amount + pay.credit)
      && MostCredit(pay.credit, asked, Balance(s.ledger, u, now), pay.amount + pay.credit)
  {
    OpensExactly(s, u, plan, typed, asked, platega, accepted, now);
    var price, used := Sold(plan).value.price, CodeUsed(s, u, typed, now);
    QuoteCode(s, u, plan, typed, asked, now);
    var percent := if used.Some? then s.codes[used.value].percent else 0;
    RoundsHalfEven(price * percent);
    DiscountBounds(price, percent);
  }

  lemma QuoteCode(s: State, u: nat, plan: string, typed: Option<string>, asked: int, now: int)
    requires u < |s.users| && Sold(plan).Some? && (Typed(typed) ==> Good(s, u, typed.value, now))
    ensures var q, used := PriceOrder(s, u, Sold(plan).value, typed, asked, now), CodeUsed(s, u, typed, now);
      && q.code == used
      && q.amount + q.credit == Discounted(Sold(plan).value.price, if used.Some? then s.codes[used.value].percent else 0)
      && q.credit == ClampCredit(asked, Balance(s.ledger, u, now), q.amount + q.credit)
  {
    var c := EffectiveCode(s, u, typed);
    if Typed(c) {
      UsableIsGood(s, u, c.value, now);
    }
  }

  // ---------------------------------------------------------------- settling

  /** A plan that was ever sold, and a paid device at hand or issued now. */
  predicate CanDeliver(f: Fleet, u: nat, plan: string, env: Env) {
    && PlanInfo(plan).Some?
    && ((exists i :: 0 <= i < |f.rows| && f.rows[i].user == u && f.rows[i].kind == Paid && f.rows[i].active)
        || Issue(f, u, Paid, DefaultForNew(env), env).ok)
  }

  lemma DeliverIsDelivers(f: Fleet, pay: Payment, env: Env)
    ensures CanDeliver(f, pay.user, pay.plan, env) <==> Delivers(f, pay, env)
  {
    if i :| 0 <= i < |f.rows| && f.rows[i].user == pay.user && f.rows[i].kind == Paid && f.rows[i].active {
      assert i in DevicesOf(f.rows, pay.user, Paid);
    }
  }

  /** An order on record that is not paid, of an account on record. */
  predicate Waiting(s: State, p: nat) {
    p < |s.payments| && s.payments[p].status != "paid" && s.payments[p].user < |s.users|
  }

  /** The gateway's word that settles order `p`: paid or overpaid, or Platega's own confirmation of the exact amount. */
  predicate SaysPaid(s: State, e: Event, p: nat)
    requires p < |s.payments|
  {
    || e.step == WebhookArrives(p, Some("paid")) || e.step == WebhookArrives(p, Some("paid_over"))
    || (s.payments[p].provider == Platega && e.step == CallbackArrives(p, ConfirmedFor(Some(s.payments[p].amount))))
  }

  lemma SaleSettles(s: State, e: Event, p: nat)
    ensures Activates(s, e, p) <==> SaleOf(s, e).Some? && SaleOf(s, e).value.p == p
  {
    if Notifies(e.step) {
      var end := NotificationEnds(s, e);
      match end {
        case Bought(base, q) => ActivateDelivers(base, q, e.env);
        case NoDevice(_) =>
        case StatusOnly(_) => assert p < |s.payments| ==> SamePaid(s.payments[p], Apply(s, e).payments[p]);
      }
    } else {
      SettledElsewhere(s, e, p);
      Devices.NoSale(s, e);
    }
  }

  /** An order is settled by a step if and only if it waits, the gateway says it is paid, and it can be delivered. */
  lemma SettlesExactly(s: State, e: Event, p: nat)
    requires p < |s.payments|
    ensures Activates(s, e, p) <==>
      Waiting(s, p) && SaysPaid(s, e, p) && CanDeliver(s.fleet, s.payments[p].user, s.payments[p].plan, e.env)
  {
    SaleSettles(s, e, p);
    DeliverIsDelivers(s.fleet, s.payments[p], e.env);
  }

  /** A grant is a settled payment of nothing by nobody's gateway, or leaves no payment at all. */
  lemma GrantsExactly(s: State, u: nat, plan: string, env: Env)
    ensures var t := GrantAccess(s, u, plan, env);
      if u < |s.users| && Sold(plan).Some? && CanDeliver(s.fleet, u, plan, env)
      then t.payments == s.payments + [Payment(u, plan, 0, Manual, "paid", None, 0, Some(env.now))]
      else t == s.(fleet := t.fleet)
  {
    var pay := Payment(u, plan, 0, Manual, "pending", None, 0, None);
    DeliverIsDelivers(s.fleet, pay, env);
    assert (s.payments + [pay])[|s.payments| := Closed(pay, env.now)] == s.payments + [Closed(pay, env.now)];
  }

  /** Any other word about a waiting order is noted on that order alone. */
  lemma NotesExactly(s: State, p: nat, status: Option<string>, answer: Answer, env: Env)
    requires Waiting(s, p)
    ensures status != Some("paid") && status != Some("paid_over") ==>
      Webhook(s, p, status, env) ==
      s.(payments := s.payments[p := s.payments[p].(status := if status.None? || status.value == "" then "unknown" else status.value)])
    ensures answer == Chargebacked && s.payments[p].provider == Platega ==>
      Callback(s, p, answer, env) == s.(payments := s.payments[p := s.payments[p].(status := "chargebacked")])
    ensures answer == Canceled && s.payments[p].provider == Platega ==>
      Callback(s, p, answer, env) == s.(payments := s.payments[p := s.payments[p].(status := "canceled")])
    ensures (answer == Unreachable || answer == OtherAnswer || s.payments[p].provider != Platega
             || (answer.ConfirmedFor? && answer.amount != Some(s.payments[p].amount))) ==> Callback(s, p, answer, env) == s
  {
  }
}
