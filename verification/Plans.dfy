/** The price list (pwa/config.py). */
module Plans {
  import opened Common

  datatype Plan = Plan(configs: nat, days: nat, price: nat)

  /** `PLANS`: what is sold today. */
  function Sold(key: string): Option<Plan> {
    if key == "basic-1m" then Some(Plan(2, 30, 350))
    else if key == "basic-3m" then Some(Plan(2, 90, 900))
    else if key == "basic-6m" then Some(Plan(2, 180, 1700))
    else if key == "ext-1m" then Some(Plan(5, 30, 650))
    else if key == "ext-3m" then Some(Plan(5, 90, 1700))
    else if key == "ext-6m" then Some(Plan(5, 180, 3200))
    else None
  }

  /** `plan_info`: names from before periods existed still resolve. */
  function PlanInfo(key: string): (p: Option<Plan>)
    ensures p.Some? ==> 1 <= p.value.days && 350 <= p.value.price && p.value.configs in {2, 5}
    ensures Sold(key).Some? ==> p == Sold(key)
  {
    if Sold(key).Some? then Sold(key)
    else if key == "Basic" then Sold("basic-1m")
    else if key == "Family" then Sold("ext-1m")
    else None
  }

  /** `config_limit`: an unknown or missing plan keeps one device. */
  function ConfigLimit(key: Option<string>): (n: nat)
    ensures n in {1, 2, 5} && (n == 1 <==> key.None? || PlanInfo(key.value).None?)
  {
    if key.None? then 1
    else
      var p := PlanInfo(key.value);
      if p.Some? then p.value.configs else 1
  }

  /** Plans by size and by length in months. */
  function Key(extended: bool, months: nat): string
    requires months in {1, 3, 6}
  {
    if extended then (if months == 1 then "ext-1m" else if months == 3 then "ext-3m" else "ext-6m")
    else (if months == 1 then "basic-1m" else if months == 3 then "basic-3m" else "basic-6m")
  }

  /** A plan lasts thirty days a month; the longer cost less a day, the extended more for three more devices. */
  lemma PlansCompare(extended: bool, months: nat, fewer: nat)
    requires months in {1, 3, 6} && fewer in {1, 3, 6} && fewer < months
    ensures var long, short := Sold(Key(extended, months)), Sold(Key(extended, fewer));
      && long.Some? && short.Some? && long.value.days == 30 * months && short.value.days == 30 * fewer
      && short.value.price < long.value.price && long.value.price * short.value.days < short.value.price * long.value.days
    ensures var basic, more := Sold(Key(false, months)), Sold(Key(true, months));
      basic.Some? && more.Some? && basic.value.configs == 2 && more.value.configs == 5 && basic.value.price < more.value.price
  {
  }
}
