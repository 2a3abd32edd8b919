/** Promo codes, the credit balance and the price of an order (pwa/services/credit.py). */
module Credit {
  import opened Common
  import opened Plans
  import opened World

  const REWARD_DAYS := 30
  const VESTING_DAYS := 14
  /** The largest discount an operator may put on a code (pwa/api/admin_promo.py). */
  const MAX_PERCENT := 60

  // ---------------------------------------------------------------- balance and codes

  /** One ledger entry counts while vested and not expired. */
  predicate Counts(e: Entry, u: nat, now: int) {
    e.user == u && (e.vests.Some? ==> e.vests.value <= now) && (e.expires.Some? ==> now < e.expires.value)
  }

  function Balance(ledger: seq<Entry>, u: nat, now: int): int {
    if ledger == [] then 0
    else
      var e := ledger[|ledger| - 1];
      Balance(ledger[..|ledger| - 1], u, now) + if Counts(e, u, now) then e.delta else 0
  }

  function UsesOf(payments: seq<Payment>, code: string): nat {
    if payments == [] then 0
    else
      var p := payments[|payments| - 1];
      UsesOf(payments[..|payments| - 1], code) + if p.code == Some(code) && p.status == "paid" then 1 else 0
  }

  predicate FirstPurchase(payments: seq<Payment>, u: nat) {
    forall i :: 0 <= i < |payments| && payments[i].user == u && payments[i].provider != Manual ==>
      payments[i].status != "paid" && payments[i].status != "paid_over"
  }

  datatype Refusal = Unknown | Inactive | Expired | UsedUp | OwnCode | NotFirst

  datatype Resolved = NoCode | Usable(promo: Promo) | NotUsable(why: Refusal)

  /** `resolve_code`; an empty code is no code. */
  function ResolveCode(s: State, code: Option<string>, u: nat, now: int): Resolved {
    if code.None? || code.value == "" then NoCode
    else if code.value !in s.codes then NotUsable(Unknown)
    else
      var promo := s.codes[code.value];
      if !promo.active then NotUsable(Inactive)
      else if promo.expires.Some? && promo.expires.value <= now then NotUsable(Expired)
      else if promo.maxUses.Some? && promo.maxUses.value <= UsesOf(s.payments, code.value) then NotUsable(UsedUp)
      else if promo.owner == Some(u) then NotUsable(OwnCode)
      else if promo.owner.Some? && !FirstPurchase(s.payments, u) then NotUsable(NotFirst)
      else Usable(promo)
  }

  // ---------------------------------------------------------------- pricing

  /** `n / 100` rounded to a whole number, halves to the even neighbour. */
  function RoundHundredths(n: nat): nat {
    var q, r := n / 100, n % 100;
    if r < 50 || (r == 50 && q % 2 == 0) then q else q + 1
  }

  function Discounted(price: nat, percent: nat): int {
    price - RoundHundredths(price * percent)
  }

  function MaxCredit(amount: int): int {
    amount / 2
  }

  function ClampCredit(asked: int, available: int, amount: int): int {
    Max(0, if asked <= available && asked <= MaxCredit(amount) then asked
           else if available <= MaxCredit(amount) then available
           else MaxCredit(amount))
  }

  datatype Quote = Quote(base: nat, discount: int, code: Option<string>, refused: Option<Refusal>, credit: int, amount: int)

  /** The code that sets the price: the one typed, else the referral link's on a first purchase. */
  function EffectiveCode(s: State, u: nat, code: Option<string>): Option<string>
    requires u < |s.users|
  {
    if (code.None? || code.value == "") && s.users[u].referred.Some? && FirstPurchase(s.payments, u)
    then s.users[u].referred
    else code
  }

  /** `price_order`. */
  function PriceOrder(s: State, u: nat, plan: Plan, code: Option<string>, asked: int, now: int): Quote
    requires u < |s.users|
  {
    var typed := ResolveCode(s, code, u, now);
    var used := EffectiveCode(s, u, code);
    var r := ResolveCode(s, used, u, now);
    var after := Discounted(plan.price, if r.Usable? then r.promo.percent else 0);
    var credit := ClampCredit(asked, Balance(s.ledger, u, now), after);
    Quote(plan.price, plan.price - after, if r.Usable? then used else None,
          if typed.NotUsable? then Some(typed.why) else None, credit, after - credit)
  }

  // ---------------------------------------------------------------- what a price is

  lemma RoundMonotone(n: nat, m: nat)
    requires n <= m
    ensures RoundHundredths(n) <= RoundHundredths(m)
    ensures 100 * RoundHundredths(n) <= n + 50 && n <= 100 * RoundHundredths(n) + 50
  {
  }

  lemma PercentMonotone(price: nat, p: nat, q: nat)
    requires p <= q
    ensures price * p <= price * q
  {
  }

  ghost predicate CodesInRange(codes: map<string, Promo>) {
    forall c :: c in codes ==> codes[c].percent <= MAX_PERCENT
  }

  /** A discount never exceeds the largest percentage by more than half a ruble. */
  lemma DiscountBounds(price: nat, percent: nat)
    requires percent <= MAX_PERCENT
    ensures 200 * Discounted(price, percent) >= 80 * price - 100
    ensures Discounted(price, percent) <= price
  {
    PercentMonotone(price, percent, MAX_PERCENT);
    RoundMonotone(price * percent, price * MAX_PERCENT);
    RoundMonotone(price * MAX_PERCENT, price * MAX_PERCENT);
  }

  /**
   * Every order adds up, whatever the ledger, code and requested credit: the
   * base is split into discount, credit and cash; credit covers at most half of
   * the discounted price; the cash asked for is positive.
   */
  lemma QuoteAddsUp(s: State, u: nat, key: string, code: Option<string>, asked: int, now: int)
    requires u < |s.users| && CodesInRange(s.codes) && PlanInfo(key).Some?
    ensures
      var q := PriceOrder(s, u, PlanInfo(key).value, code, asked, now);
      && q.base == PlanInfo(key).value.price
      && q.base == q.discount + q.credit + q.amount
      && 0 <= q.discount && 0 <= q.credit
      && 2 * q.credit <= q.base - q.discount <= 2 * q.amount
      && 0 < q.amount
      && (q.credit > 0 ==> q.credit <= asked && q.credit <= Balance(s.ledger, u, now))
      && (q.code.Some? ==> q.code.value in s.codes && s.codes[q.code.value].owner != Some(u))
  {
    var plan := PlanInfo(key).value;
    var used := EffectiveCode(s, u, code);
    var r := ResolveCode(s, used, u, now);
    DiscountBounds(plan.price, if r.Usable? then r.promo.percent else 0);
    var after := Discounted(plan.price, if r.Usable? then r.promo.percent else 0);
    assert 2 * MaxCredit(after) <= after <= 2 * MaxCredit(after) + 1;
  }

  /** Asking for more credit, or holding a better code, never raises the price. */
  lemma PriceMonotone(price: nat, p: nat, q: nat, asked: int, more: int, available: int)
    requires p <= q <= MAX_PERCENT && asked <= more
    ensures
      var a, b := Discounted(price, p), Discounted(price, q);
      && b <= a
      && b - ClampCredit(asked, available, b) <= a - ClampCredit(asked, available, a)
      && a - ClampCredit(more, available, a) <= a - ClampCredit(asked, available, a)
  {
    PercentMonotone(price, p, q);
    RoundMonotone(price * p, price * q);
  }
}
