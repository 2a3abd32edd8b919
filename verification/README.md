# Sovereign portal: a verified model

A Dafny model of the parts of the service whose correctness lies across handlers and whole
runs, and proofs of what they keep.

**The portal and its nodes.** One state holds the users, device rows, payments, promo codes,
credit ledger, referral rewards, trial grants and the peer table of each entry node. Every
handler (order, gateway callback, grant, assignment, device, trial, refund, reward pass, the
two sweeps) is one atomic step. What a step meets from outside, the `Env`, says how every
node call goes: `Obeyed`, `Refused` (no effect) or `Lost` (the node did it, the answer never
came). `Handlers` states each handler without loops; the class `PortalService.Portal` is the
same code as it is written, with tables updated in place and loops over rows, attempts and
rewards, and each of its methods is proved equal to its loop-free account. All theorems over
runs are about that account, for every interleaving and every pattern of refusals.

- `Fleets`, `Runs`: the device table against the nodes. In every run the nodes hold exactly
  the hand-made peers and the active rows if and only if no step lost the answer to a removal
  a node made, or to the last addition it made; once lost, for good.
- `Devices`: exactly who opens and closes a device, and when, told on its row.
- `Access`: sweeps never lose sight of a device; what one hourly job leaves, whatever was lost.
- `Limits`: devices against plans, and exactly which settlement breaks a plan's limit.
- `Time`: the end of every period, accounted for to the second.
- `Ledger`: payments settle once, spends and rewards are booked once, passes and sweeps commute.
- `Points`: every credit balance, accounted for flow by flow, and exactly when it is negative.
- `Referrals`: exactly which settled orders earn a reward, decided when they are opened.
- `Orders`: exactly when an order opens, at what price, and which word of a gateway settles it.
- `Credit`, `Plans`: prices. `Trials`, `Mailbox`: free trials, once per person.

**Beside it.** `RateLimiter` (the pruned deques answer as the full history would, and what
the limit then guarantees), `Monitoring` (the outside monitor's alerts, with sends failing at
will), `EventLog` (the portal's outage table and its dead man's switch), `PhoneSession` with
`PhoneApp` (what the Android client stores and how it moves its tunnel). These, too, pair a
class or method in the form of the source with a specification, and prove the laws of the
specification over whole runs.

Times are whole seconds in the portal and reals in the limiter and the monitor. Rows are
identified by position. Key pairs are values never seen before.

Where claims one might expect are false of the code, the model gives an input and says exactly
when they hold:

- "a balance is never negative": points expire while spends do not, and pending orders set
  nothing aside (`Points.OverdrawnByExactly`, `Points.NegativeExactly`, `Points.ExpiryOverdraws`,
  `Ledger.TwoOrdersOverdraw`);
- "no account exceeds its plan": a plan's limit is checked when an order is opened and when a
  device is added, not on activation or a grant (`Limits.WithinPlanExactly`, `Limits.GrantOversells`);
- "one reward per buyer": several first orders may be open at once (`Referrals.RewardedExactly`,
  `Referrals.TwoFirstOrders`);
- "table and nodes always agree" (`Runs.NodesAgreeExactly`, `Runs.LostRemovalParts`);
- "alerts less all-clears match the open silences" (`EventLog.SilenceExactly`,
  `EventLog.ImpostorStaysOpen`), and "a notice that comes again adds no row"
  (`EventLog.RepeatedNoticesExactly`, `EventLog.EarlyClockTwice`);
- "in a row" for the monitor means saved runs (`Monitoring.ToldExactly`,
  `Monitoring.UnheardRunsDoNotCount`);
- "removing this phone's device ends the tunnel": not if the screen does not know the device as
  its own (`PhoneSession.DeleteExactly`, `PhoneSession.DeleteBeforeLoad`);
- "a running tunnel's config is always stored": a load that finds the device gone forgets the
  config before it brings the tunnel down (`PhoneApp.Handset.Load`, `PhoneSession.LoadForgetsExactly`,
  `PhoneSession.LoadFindsGone`);
- "an interrupted choice leaves the one before, or none", as the comment at
  android/app/src/main/java/com/sov3r3ign/app/session/Session.kt:119-126 has it: the config is
  written first, so another device's id stands over the new config until the last write
  (`PhoneApp.WritesCoherentExactly`, `PhoneApp.HalfChosen`);
- "normalising an address twice changes nothing" (`Mailbox.NormaliseTwiceExactly`, `Mailbox.NotTwice`).

## Model

| member | source | states |
|---|---|---|
| Runs.FleetAlwaysSound | pwa/services/provisioner.py:175-385 | In every reachable state, answers lost or not: hand-made peers untouched, no closed device's key on a node, each portal peer at its row's location and address, no address shared by two active devices of a location, each device in the pool of its kind and trials in Germany only |
| Runs.NodesAgreeExactly | pwa/services/provisioner.py:209-261 | In every run, whatever is refused, no device is missing from its node and no peer is without its device if and only if no step lost the answer to a removal its node made, or to the last addition it was asked for and made |
| Runs.MoveAgreesExactly | pwa/services/provisioner.py:209-261 | The same for one move of the fleet, on the nodes' answers |
| Runs.LostRemovalParts | pwa/api/config.py:297-340 | An ordinary portal with one device, deleted while the answer is lost: the peer is gone, the device stays |
| Fleets.AgreementIsEquality | pwa/services/provisioner.py:543-558 | That agreement means the node holds exactly the hand-made peers and the active rows, at the same addresses, both ways |
| Fleets.RemovalAgreesExactly | pwa/services/provisioner.py:240-261 | A removal keeps table and nodes in agreement if and only if no configured node's answer about an active target is lost |
| Fleets.AttemptStraysExactly | pwa/services/provisioner.py:319-385 | A failed issue leaves a peer without a device if and only if the answer to its last request was lost and that address was free on the node |
| Fleets.IssueAgreesExactly | pwa/services/provisioner.py:297-385 | An issue parts table and nodes if and only if its location is configured and the answer to its last request was lost on a free address |
| Fleets.IssueLeaves | pwa/services/provisioner.py:297-385 | A successful issue adds one active row and one peer with the fresh key, at a pool address nobody held; a failed one changes nothing, or with a lost answer leaves one stray peer |
| Fleets.IssueSucceedsExactly | pwa/services/provisioner.py:297-385 | An issue succeeds if and only if its location is configured and the last address it asked for was free on the node and confirmed |
| Fleets.IssueFindsRoom | pwa/services/provisioner.py:297-385 | With the node's list read and its first answer obeying, an issue succeeds if and only if some pool address is free in table and node |
| Fleets.AskedIncreasing | pwa/services/provisioner.py:319-383 | One issue asks for at most ten addresses, strictly increasing, all in the pool of the kind and none known to be taken |
| Fleets.LeastFree | pwa/services/provisioner.py:184-199 | The search finds an address whenever one is free, and none that is free lies below it |
| Handlers.FreeFrom | pwa/services/provisioner.py:184-199 | The address found is in the pool, not used, and everything before it is; none means all are used |
| Runs.DisagreementIsPermanent | pwa/services/provisioner.py:221-261 | A device once missing stays active and missing, an orphaned peer stays on its node, in every continuation |
| Runs.DevicesPersist | pwa/services/provisioner.py:348-385 | A device keeps owner, kind, location, key and address for life and is never reopened |
| Runs.NotificationEnds | pwa/api/payment.py:175-335 | A gateway notification or a grant activates its payment whole, exactly when it asks for one with a known plan and its buyer holds a paid device or is issued one; else it writes nothing but perhaps a node, or notes a status that is not "paid" |
| Devices.ClosesExactly | pwa/services/subscriptions.py:69-178 | For every step and active row: the device closes if and only if it was asked off its node (by its owner's own deletion, a sweep after its owner's period or trial ended, or, for a trial device, its owner's settlement) and the node did it and said so |
| Devices.DeletesOwnOnly | pwa/api/config.py:297-340 | A deletion leaves every row and peer that is another's, or a trial's, as it was; the caller's own active paid device closes if and only if its node confirmed |
| Devices.IssuedOnlyTo | pwa/api/config.py:184-224 | For every step: a device appears only at a live subscriber's own request within the plan at a location configured and not paused, for the buyer of a settlement who held none, or for a first trial in Germany |
| Devices.AddedExactly | pwa/api/config.py:184-224 | A request adds a device if and only if the caller is a live subscriber with room in the plan, the location is configured and not paused, and a node gives one |
| Devices.PausedOnlyIfAllAre | pwa/services/locations.py:114-134 | Where no location is named a paused one is used only when every one is paused |
| Devices.AddressesByKind | pwa/services/provisioner.py:57-65 | In every run paid devices live at 10.88.88.42 to 199 and trial devices at 10.88.89.10 to 250 in Germany |
| Devices.FlagGoesExactly | pwa/services/subscriptions.py:141-178 | The sweep takes the flag if and only if the period has ended and no device of the user is left active |
| Devices.OnlySweepsTakeTheFlag | pwa/services/subscriptions.py:172-178 | No other step takes it |
| Devices.CountIsSize | pwa/api/config.py:205-223 | The count compared with a plan's limit is the number of the user's active paid rows in the location |
| Access.CoveredStep | pwa/services/subscriptions.py:111-198 | No step, with any refusals, leaves an active paid device without a subscribed owner with an end date, or an active trial device without a trial end |
| Access.DevicesAlwaysCovered | pwa/services/provisioner.py:421-442 | The same in every reachable state |
| Access.HourlyJobClearsDevices | pwa/expire_subscriptions.py:30-70 | After any run of refusals and lost answers, one hourly job that is refused nothing leaves no peer of a device row whose paid period or trial is over: every peer left is hand-made, unknown to any row, or entitled |
| Access.HourlyJobClears | pwa/expire_subscriptions.py:30-70 | That job leaves no portal peer at all without a paid period or trial, if and only if no orphan was on a node before it |
| Access.LostRemovalKeepsTheFlag | pwa/services/subscriptions.py:141-178 | Once a paid device is missing from its node, as a lost removal leaves it, its owner stays subscribed in every continuation |
| Limits.StepWithinLimit | pwa/api/config.py:205-223 | A step that adds to a user's paid devices in a location leaves them within the limit of the plan then held |
| Limits.FitsExactly | pwa/services/provisioner.py:418-440 | From within its plan in both locations an account leaves a step within it if and only if the step settles no payment or grant, read before the step, of a plan smaller than what it holds |
| Limits.WithinPlanExactly | pwa/config.py:83-92 | In every run an account is within its plan all along if and only if no such settlement occurred |
| Limits.GrantOversells | pwa/api/admin_grant.py:39-66 | Five devices on the extended plan stay five when the basic one is granted |
| Limits.NeverMoreThanFive | pwa/config.py:83-92 | In every run no account ever has more than five active paid rows in a location |
| Time.StepAccounts | pwa/services/provisioner.py:436-464 | Each step moves the end of a user's period by exactly the days earned and assigned in it, from the later of now and the old end, or not at all |
| Time.TimeIsConserved | pwa/services/provisioner.py:436-464 | For every user and run the end of the period is the first activation plus all paid, granted, rewarded and assigned days plus the lapsed gaps |
| Time.UntilNeverDecreases | pwa/services/credit.py:538-542 | No run moves the end of a period back |
| Time.EarlyRenewalLosesNothing | pwa/services/provisioner.py:436-442 | While a period lasts, a step adds exactly the days it earned |
| Time.NoticeAccounts | pwa/services/provisioner.py:388-476 | The account for notifications and grants, purchases settled whole |
| Time.PassAccounts | pwa/services/credit.py:553-578 | The account for the reward pass |
| Ledger.PaidIsForGood | pwa/api/payment.py:192-209 | Over any run a settled payment is never changed again, and no payment changes in anything but status and time |
| Ledger.ActivatedAtMostOnce | pwa/api/payment.py:287-335 | Over any run with any repetition of callbacks a payment is activated exactly once if it ends paid, else never |
| Ledger.ActivateDelivers | pwa/services/provisioner.py:388-476 | A successful activation leaves a live period on the plan bought, no running trial, at least one active paid device, the payment closed and every other user untouched |
| Ledger.SettlingDelivers | pwa/services/provisioner.py:388-476 | In any run the step that settles a payment is a notification or a grant, and leaves a live period on the plan bought, no running trial, a paid device, and every other user untouched |
| Ledger.SettlingEndsTheTrial | pwa/services/provisioner.py:456-476 | A settlement ends a running trial at that instant and leaves one that is over, or none, alone |
| Orders.SettlesExactly | pwa/api/payment.py:175-335 | For every step: an order is settled if and only if it was not, the gateway's word is "paid" or "paid_over", or its own confirmation of the exact amount at Platega, and a device can be delivered |
| Orders.NotesExactly | pwa/api/payment.py:196-335 | Any other word is noted on that order alone, an unknown one as "unknown"; a confirmation of another amount, or of no amount, changes nothing |
| Orders.GrantsExactly | pwa/api/admin_grant.py:39-66 | A grant leaves one settled payment of nothing if and only if the plan is sold and can be delivered, else the database as it was |
| Ledger.FailureChangesNothing | pwa/services/provisioner.py:425-432 | Without lost answers a notification that settles nothing leaves database and nodes as they were, save the status text of an unpaid payment |
| Ledger.SpendsStep | pwa/services/credit.py:371-401 | Every step keeps one spend of minus the held credit for each payment settled with credit, and none for any other |
| Ledger.RewardsStep | pwa/services/credit.py:404-456 | Every step keeps: at most one reward per payment, only for cash paid with another customer's code, vesting 14 days after payment, applied no earlier |
| Ledger.BooksAlwaysRight | pwa/services/credit.py:371-550 | Both in every reachable state |
| Ledger.RewardFate | pwa/services/credit.py:459-550 | In one step a reward stays, or lands once vested on a live referrer, or is removed unapplied by its own refund |
| Ledger.LandsExactly | pwa/services/credit.py:513-578 | A reward lands in a pass if and only if it is vested, not yet applied, and its referrer has the flag and time left |
| Ledger.RewardTerms | pwa/services/credit.py:404-456 | In every run a reward is thirty days, vesting fourteen days after its order was paid |
| Ledger.RefundOfReward | pwa/services/credit.py:459-483 | A refund of a rewarded payment removes that reward alone, or nothing once it was applied |
| Ledger.RefundOfPoints | pwa/services/credit.py:484-505 | A refund without a reward removes exactly the first entry of the old rule's points for the payment if it is unvested or undated, and nothing otherwise |
| Ledger.AppliedIsForGood | pwa/services/credit.py:459-505 | An applied reward is never applied again, changed or taken back |
| Ledger.RewardPassSettles | pwa/services/credit.py:553-578 | After a pass no live referrer has a vested reward waiting, lapsed referrers are untouched, and a second pass changes nothing |
| Ledger.PassAndSweepCommute | pwa/services/subscriptions.py:130-171 | The reward pass and the subscription sweep at one instant give the same state in either order |
| Ledger.SettlingTakesItsCredit | pwa/services/credit.py:90-113 | At every instant settling a payment lowers its customer's balance by its held credit and nobody else's |
| Points.BalanceAges | pwa/services/credit.py:90-113 | With the ledger untouched a balance gains exactly what vests and loses what expires |
| Points.OverdrawnByExactly | pwa/services/credit.py:90-113 | A step changes a balance by what vests, expires, is entered by hand, spent or withdrawn in it, and leaves it negative if and only if these losses exceed what is there, all read before the step |
| Points.PointsAreConserved | pwa/services/credit.py:371-401 | In every run a balance is the sum of these flows |
| Points.NegativeExactly | pwa/services/credit.py:90-113 | In every reachable state, at every instant, a balance is negative if and only if the points given that still count are fewer than the credit of all orders settled |
| Points.ExpiryOverdraws | pwa/services/credit.py:90-113 | A settlement well covered by 200 points, and a balance of minus 175 when they expire |
| Ledger.TwoOrdersOverdraw | pwa/services/credit.py:320-366 | Two open orders can hold the same points: a balance of 200 ends at minus 150 |
| Referrals.RewardedExactly | pwa/services/credit.py:233-301 | In every run a settled order that was not refunded has earned a reward if and only if, when it was opened, it came with another customer's usable code and the buyer had settled nothing before |
| Referrals.CarriesExactly | pwa/services/credit.py:320-366 | An order just opened carries a code that can earn if and only if it came with one and is a first purchase |
| Referrals.AlwaysRight | pwa/services/credit.py:404-456 | In every run without a refund of it an order has a reward if and only if it is settled and carries such a code |
| Referrals.TwoRewardsOneBuyer | pwa/services/credit.py:291-301 | One buyer has two rewards only if the later order was opened while the earlier was unpaid |
| Referrals.TwoFirstOrders | pwa/services/credit.py:404-456 | Two first orders opened together both earn |
| Trials.TrialAllOrNothing | pwa/api/trial.py:95-117 | A trial leaves one grant, one date and one device, or no trace in the database |
| Trials.TrialsAlwaysRight | pwa/api/trial.py:59-112 | In every run one trial per account, mailbox and Telegram account, one trial device per account, and at most the daily ceiling of grants in any 24 hours |
| Trials.GrantedExactly | pwa/api/trial.py:45-117 | A trial is granted if and only if trials are open, the account has a mailbox or Telegram and never had a trial or a period, no grant names it, a spelling of its mailbox, or its Telegram account, fewer than thirty were made in 24 hours, and a device can be issued |
| Trials.GrantRecords | pwa/api/trial.py:84-105 | The grant names the account, its mailbox in normal form and its Telegram account as they stand before the step; the trial lasts three days |
| Trials.OncePerContact | pwa/api/trial.py:59-96 | After a grant no continuation, whatever is unlinked and linked, grants one to an account that then has the same Telegram account or a spelling of the same mailbox |
| Trials.TelegramGetsOneTrial | pwa/api/trial.py:78-96 | An account with a Telegram account named in a grant is refused and nothing changes |
| Trials.TakenOverIsRefused | pwa/api/trial.py:59-96 | So is one that has just taken over a mailbox or Telegram account named in a grant |
| Trials.SpellingsShareOneTrial | pwa/services/trial.py:61-73 | A mailbox that normalises like one in a grant gets no trial |
| Mailbox.NormaliseTwiceExactly | pwa/services/trial.py:61-73 | For every address normalising twice is normalising once, if and only if it is not a Gmail one with white space right after the dots its local part begins with |
| Mailbox.NotTwice | pwa/services/trial.py:61-73 | Such an address |
| Mailbox.NormaliseIdempotent | pwa/services/trial.py:61-73 | Without white space normalising is idempotent |
| Mailbox.CaseIsIgnored | pwa/services/trial.py:61-73 | For every address the case of letters does not matter |
| Mailbox.TagIsIgnored | pwa/services/trial.py:61-73 | For every local part and domain a "+tag" does not matter |
| Mailbox.DotIsIgnored | pwa/services/trial.py:61-73 | For Gmail under either name a dot in the local part does not matter, if and only if it does not keep white space behind it from being trimmed |
| Mailbox.SameInboxExactly | pwa/services/trial.py:61-73 | Two plain addresses normalise alike if and only if their domains name one provider and their local parts up to the first plus are equal, at Gmail without the dots |
| Credit.QuoteAddsUp | pwa/services/credit.py:320-366 | For every ledger, code and requested credit: base is discount plus credit plus amount, credit is at most half the discounted price and within balance and request, the amount is positive, and no own code counts |
| Credit.PriceMonotone | pwa/services/credit.py:304-317 | A better discount or more requested credit never raises the amount, under half-even rounding |
| Credit.DiscountBounds | pwa/services/credit.py:304-312 | A discounted price keeps at least 40 percent less half a ruble |
| Orders.OpensExactly | pwa/api/payment.py:55-118 | An order is opened if and only if the plan is sold, the account has a mailbox or Telegram and no more devices than the plan allows in either location, and no code is typed or it is known, active, in time, with uses left, not the buyer's own and, if a customer's, on a first purchase |
| Orders.OrderTerms | pwa/services/credit.py:320-366 | What is opened is the buyer's order at the plan's price less exactly the percent of the one code that counts (typed, or the link's on a first purchase, or none) and the most credit that is asked for, there, and within half |
| Orders.RoundsHalfEven | pwa/services/credit.py:304-312 | A percentage is the nearest whole ruble, halves to the even one |
| Orders.UsesIsSize | pwa/services/credit.py:233-301 | The uses a code's limit is compared with are the settled orders that carry it |
| Orders.CodesAlwaysRight | pwa/services/credit.py:183-203 | In every run codes take 1 to 60 percent, a customer's own 10, and no customer has two active ones |
| Plans.PlanInfo | pwa/config.py:74-80 | Old plan names still resolve; every plan has days, a price of at least 350 and two or five devices |
| Plans.ConfigLimit | pwa/config.py:83-92 | The limit is one, two or five, and one exactly for a plan that is missing or unknown |
| Plans.PlansCompare | pwa/config.py:54-61 | A plan lasts thirty days a month; a longer one costs more, and less a day; an extended one has five devices for two and costs more |
| PortalService.Portal.FindFreeIp | pwa/services/provisioner.py:175-199 | The search loop finds the least free address |
| PortalService.Portal.IssueConfig | pwa/services/provisioner.py:297-385 | The attempt loop leaves rows and nodes as the recursive account of one issue says |
| PortalService.Portal.IssueAt | pwa/services/provisioner.py:319-385 | At most ten attempts, each avoiding the addresses tried so far |
| PortalService.Portal.RemoveRow | pwa/services/provisioner.py:543-558 | One more removal on top of earlier ones; the row is closed exactly when the node confirmed |
| PortalService.Portal.RemoveRows | pwa/services/subscriptions.py:152-171 | Removing rows one by one equals removing them at once; no failures exactly when all were confirmed |
| PortalService.Portal.SpendOnPayment | pwa/services/credit.py:371-401 | One spend entry, once |
| PortalService.Portal.RewardForPayment | pwa/services/credit.py:404-456 | One reward, when it is due to another customer |
| PortalService.Portal.ApplyRewardsFor | pwa/services/credit.py:513-550 | A live referrer's vested rewards are marked and their days added, a lapsed one's left |
| PortalService.Portal.ApplyDueRewards | pwa/services/credit.py:553-578 | Going through the referrers one by one equals one pass over all live users |
| PortalService.Portal.CancelRewardForPayment | pwa/services/credit.py:459-505 | A refund removes the payment's unapplied reward or unvested points, else nothing |
| PortalService.Portal.ActivatePayment | pwa/services/provisioner.py:388-520 | Activation as a whole, its failure included |
| PortalService.Portal.Book | pwa/services/provisioner.py:436-476 | Period, spend, reward, waiting rewards and the trial's end in one transaction |
| PortalService.Portal.PaymentWebhook | pwa/api/payment.py:175-211 | The Heleket notification, repeated ones included |
| PortalService.Portal.PlategaCallback | pwa/api/payment.py:264-335 | The Platega callback, believed only as far as the gateway's own answer |
| PortalService.Portal.Grant | pwa/api/admin_grant.py:39-66 | A grant, and its payment row dropped when no device was issued |
| PortalService.Portal.AssignPeer | pwa/api/register.py:159-180 | An extension by 1 to 365 days: live at once, the end moved by exactly those days from the later of now and the old end, nothing else changed |
| PortalService.Portal.OpenOrder | pwa/api/payment.py:55-118 | An order opened at the quoted price, refused with a bad code, an unverified account or too many devices |
| PortalService.Portal.AddConfig | pwa/api/config.py:184-224 | One more device within the plan, or nothing |
| PortalService.Portal.DeleteConfig | pwa/api/config.py:297-340 | The caller's own device goes once the node confirmed |
| PortalService.Portal.StartTrial | pwa/api/trial.py:45-117 | The trial with its refusals |
| PortalService.Portal.RecordTrial | pwa/api/trial.py:84-105 | Grant and date are written first and rolled back without a device |
| PortalService.Portal.ExpireDueTrials | pwa/services/subscriptions.py:69-108 | The trial sweep |
| PortalService.Portal.ExpireUser | pwa/services/subscriptions.py:141-178 | One lapsed user: the flag goes exactly when all devices went |
| PortalService.Portal.ExpireDueSubscriptions | pwa/services/subscriptions.py:111-198 | Going through lapsed users one by one equals the loop-free sweep |
| PortalService.Verdict | pwa/services/subscriptions.py:152-178 | A lapsed user ends without active devices if and only if every one of their removals was confirmed |
| RateLimiter.Limiter.Prune | pwa/services/ratelimit.py:43-52 | Popping old heads leaves exactly the full history's events in the window |
| RateLimiter.Limiter.RetryAfter | pwa/services/ratelimit.py:54-60 | The answer is that of a limiter which forgot nothing |
| RateLimiter.Limiter.Add | pwa/services/ratelimit.py:62-69 | Adding, with the sweep every thousand events, changes no later answer for any key |
| RateLimiter.Limiter.Sweep | pwa/services/ratelimit.py:68-69 | After a sweep no key is kept for an empty window |
| RateLimiter.Limiter.Reset | pwa/services/ratelimit.py:71-72 | A reset forgets the history |
| RateLimiter.Take | pwa/services/ratelimit.py:83-93 | An attempt is counted exactly when the full history would let it through |
| RateLimiter.TakeKeepsTaken | pwa/services/ratelimit.py:90-93 | What was let through stays within the limit when counted a moment later |
| RateLimiter.LimitHolds | pwa/services/ratelimit.py:54-60 | Every half-open window of the configured length holds at most the limit of accepted events per key, and one for a limit of zero |
| RateLimiter.RefusedExactly | pwa/services/ratelimit.py:54-60 | A key is told to wait if and only if its events in the window up to now are as many as the limit, or one for a limit below one |
| RateLimiter.WaitIsEnough | pwa/services/ratelimit.py:54-60 | A refused key that waits as told, nothing added, is accepted |
| RateLimiter.WaitIsTight | pwa/services/ratelimit.py:54-60 | The wait ends at most a second after the oldest event leaves the window |
| RateLimiter.RefusedUntilThen | pwa/services/ratelimit.py:54-60 | Until then the key stays refused |
| Monitoring.Monitor.CarryOver | infrastructure/monitoring/sov_monitor.py:511-518 | A host that does not answer keeps its open problems, its not answering aside |
| Monitoring.Monitor.Alerts | infrastructure/monitoring/sov_monitor.py:332-345 | The first loop counts every problem and says exactly the alerts that are due |
| Monitoring.Monitor.Step | infrastructure/monitoring/sov_monitor.py:332-350 | One message at most per key, the right one, and the state to keep |
| Monitoring.Monitor.Check | infrastructure/monitoring/sov_monitor.py:511-537 | The state is saved if and only if there was nothing to say or it was heard |
| Monitoring.RecordIsHistory | infrastructure/monitoring/sov_monitor.py:332-350 | In every run a stored record is the streak of saved runs, its beginning and the last delivered alert |
| Monitoring.ToldExactly | infrastructure/monitoring/sov_monitor.py:341-345 | The last word on a problem is an alert if and only if it lasted the configured number of saved runs |
| Monitoring.HistoryDecides | infrastructure/monitoring/sov_monitor.py:332-350 | The next message is decided by what was delivered and the streak alone |
| Monitoring.DeliveriesAreEpisodes | infrastructure/monitoring/sov_monitor.py:332-350 | With any sends failing, deliveries per key are alerts then exactly one all-clear, repeated; reminders keep the configured distance |
| Monitoring.FirstAlertOnTime | infrastructure/monitoring/sov_monitor.py:341-345 | The first alert comes in the very run that makes the streak long enough, and only there |
| Monitoring.NoAllClearInTheDark | infrastructure/monitoring/sov_monitor.py:512-518 | For every host and name but "down": while the host does not answer nothing but an alert is said about "host:name", and an open record of it stays |
| Monitoring.AllClearInTheLight | infrastructure/monitoring/sov_monitor.py:341-350 | A key not found in a run that begins with no silent host's name, or is its silence, is not carried; once the run is saved it is forgotten, and gets its all-clear if and only if it was told |
| Monitoring.TextsAreTrue | infrastructure/monitoring/sov_monitor.py:332-350 | Every message is about its key in the words of this run's check, or of the last run that found it |
| Monitoring.KeptExactly | infrastructure/monitoring/sov_monitor.py:520-537 | A run with news that was not heard leaves the state as it was and tells nobody anything; after any other exactly the problems at hand are kept |
| Monitoring.UnheardRunsDoNotCount | infrastructure/monitoring/sov_monitor.py:535-537 | A streak can span a run without the problem, when that run was not saved |
| EventLog.Table.Receive | pwa/api/monitor.py:86-127 | The loops over open rows, problems and notices leave the table the specification says |
| EventLog.Table.Watch | pwa/services/monitor_watch.py:53-100 | The dead man's switch with letters that fail |
| EventLog.WatchExactly | pwa/services/monitor_watch.py:53-100 | On every table, clock and fate of the letter: which of the seven ends a watch comes to, and that only a delivered alert or all-clear changes the table, an alert by one open row from the last report on |
| EventLog.RecoveredRow | pwa/services/monitor_watch.py:78-100 | An all-clear ends one open silence row at the time of the watch and changes no other |
| EventLog.Stamp | pwa/api/monitor.py:77-82 | A reported time is never later than the portal's clock |
| EventLog.ReportCount | pwa/api/monitor.py:98-112 | What a report does to the number of open rows of any key |
| EventLog.RowAfterReport | pwa/api/monitor.py:98-112 | An open row not reported ends at the report's arrival; one reported takes the words of the last report of its key; closed rows and the portal's own stay |
| EventLog.NewRow | pwa/api/monitor.py:98-112 | A reported key without an open row gets one from its reported time, or from now if that is missing or ahead |
| EventLog.NoticeRow | pwa/api/monitor.py:114-121 | A notice adds one closed row at its time, unless a row of its key began no earlier than fifteen minutes before |
| EventLog.OpenRowsAreTheReported | pwa/api/monitor.py:98-112 | At all times exactly one open row per problem of the last report, the portal's key aside |
| EventLog.OpenIsSize | pwa/api/monitor.py:98-112 | Where open rows are counted, the count is the number of the key's rows without an end |
| EventLog.SilenceAccounts | pwa/services/monitor_watch.py:53-100 | Open silence rows are alerts less all-clears plus reports that named the portal's key; without such reports at most one |
| EventLog.SilenceExactly | pwa/services/monitor_watch.py:38-40 | Alerts less all-clears equal the open silence rows if and only if no report named the portal's key |
| EventLog.ImpostorStaysOpen | pwa/api/monitor.py:98-112 | A report that names it opens a silence no alert announced and no later report closes |
| EventLog.WatchSettles | pwa/services/monitor_watch.py:62-100 | A watch whose letter goes through leaves a silence open if and only if the monitor is silent |
| EventLog.RowsEndAfterTheyStart | pwa/api/monitor.py:98-126 | With a clock that does not go back every closed row ends no earlier than it starts, and nothing lies in the future |
| EventLog.PrunedExactly | pwa/api/monitor.py:123-125 | Exactly the closed rows that began more than ninety days ago go |
| EventLog.RepeatedNoticesExactly | pwa/api/monitor.py:114-121 | A report's notices come again with the next one add no row if and only if each finds a row of its key begun no earlier than fifteen minutes before its time as read then |
| EventLog.LoneNoticeExactly | pwa/api/monitor.py:77-127 | A notice alone with its key, sent again, adds no row if and only if it was within retention on arrival and its time as read has not moved on by more than fifteen minutes |
| EventLog.EarlyClockTwice | pwa/api/monitor.py:114-121 | A notice stamped ahead of the portal's clock leaves two rows |
| PhoneSession.TunnelAlwaysStored | android/app/src/main/java/com/sov3r3ign/app/state/AccountModel.kt:86-251 | After any sequence of operations and answers a running tunnel runs the stored config of a stored choice, and a list is shown only beside the true choice |
| PhoneSession.ChoosingMovesTheTunnel | android/app/src/main/java/com/sov3r3ign/app/state/AccountModel.kt:118-128 | A choice made with the tunnel up ends with the tunnel on the config fetched |
| PhoneSession.LoadSound | android/app/src/main/java/com/sov3r3ign/app/state/AccountModel.kt:86-116 | A load makes the screen true again, whatever it showed |
| PhoneSession.DeleteExactly | android/app/src/main/java/com/sov3r3ign/app/state/AccountModel.kt:168-186 | A removal keeps the tunnel right if and only if it was not this phone's running device or the screen knew that it was |
| PhoneSession.DeleteBeforeLoad | android/app/src/main/java/com/sov3r3ign/app/state/AccountModel.kt:168-186 | Before any load a removal can leave the tunnel up with nothing stored |
| PhoneSession.LoadForgetsExactly | android/app/src/main/java/com/sov3r3ign/app/state/AccountModel.kt:86-116 | A load leaves no choice if and only if there was none, or the profile is answered with access and the list without the stored device |
| PhoneSession.LoadFindsGone | android/app/src/main/java/com/sov3r3ign/app/state/AccountModel.kt:101-112 | A connected phone whose device was removed elsewhere: its load forgets the config with the tunnel up |
| PhoneSession.SessionSurvives | android/app/src/main/java/com/sov3r3ign/app/session/Session.kt:166-201 | Whatever fails in an operation, as long as the portal refuses neither the renewal nor the token just issued, the phone stays signed in with its refresh token |
| PhoneSession.RefusalEnds | android/app/src/main/java/com/sov3r3ign/app/session/Session.kt:166-201 | A load refused both ways leaves no token and the screens signed out |
| PhoneSession.ChosenExactly | android/app/src/main/java/com/sov3r3ign/app/session/Session.kt:127-143 | An answer becomes the choice if and only if it holds both marks of a config; a failure leaves the choice |
| PhoneSession.RemovalExactly | android/app/src/main/java/com/sov3r3ign/app/session/Session.kt:78-90 | Confirmed or not found is done; the choice goes if and only if that was this phone's device |
| PhoneSession.ListRenames | android/app/src/main/java/com/sov3r3ign/app/session/Session.kt:56-68 | A list that has this phone's device gives it its name there |
| PhoneApp.Handset.Call | android/app/src/main/java/com/sov3r3ign/app/session/Session.kt:166-201 | One quiet renewal, then the call again; at every write the stored device, its name and its config are as before |
| PhoneApp.Handset.ListDevices | android/app/src/main/java/com/sov3r3ign/app/session/Session.kt:56-68 | The list renames or forgets the stored choice; at every write the choice is the old one or the one it ends with |
| PhoneApp.Handset.Remove | android/app/src/main/java/com/sov3r3ign/app/session/Session.kt:78-90 | The removal is asked for first; only once confirmed, or not found, is this phone's choice forgotten |
| PhoneApp.Handset.Choose | android/app/src/main/java/com/sov3r3ign/app/session/Session.kt:127-143 | A fetched config replaces the choice only when it is a config, by three writes in order; at none does a running tunnel lack a config, and between them it runs another than the stored one if and only if it is not on the new one already |
| PhoneApp.WritesLeave | android/app/src/main/java/com/sov3r3ign/app/session/Session.kt:134-139 | What is chosen after each of the three writes |
| PhoneApp.WritesCoherentExactly | android/app/src/main/java/com/sov3r3ign/app/session/Session.kt:119-139 | After each of them the stored id has its own config, if and only if no other device was chosen before or it had the same config |
| PhoneApp.HalfChosen | android/app/src/main/java/com/sov3r3ign/app/session/Session.kt:134-139 | Otherwise the old id stands over the new config |
| PhoneApp.Handset.Load | android/app/src/main/java/com/sov3r3ign/app/state/AccountModel.kt:86-116 | Profile and list; a running tunnel is for a moment without its config if and only if the profile is answered with access and the list without the stored device, and then it ends down |
| PhoneApp.Handset.Use | android/app/src/main/java/com/sov3r3ign/app/state/AccountModel.kt:118-128 | The choice is stored, then the tunnel follows; exposed only by a failure that loads, as a load is |
| PhoneApp.Handset.Add | android/app/src/main/java/com/sov3r3ign/app/state/AccountModel.kt:131-152 | A new device becomes this phone's and the account is loaded again; exposed exactly as those loads are |
| PhoneApp.Handset.StartTrial | android/app/src/main/java/com/sov3r3ign/app/state/AccountModel.kt:193-218 | The trial's device becomes this phone's, a conflict reloads; exposed exactly as those loads are |
| PhoneApp.Handset.Rename | android/app/src/main/java/com/sov3r3ign/app/state/AccountModel.kt:155-166 | A rename reaches the stored name and nothing else of the choice; exposed exactly as the load that follows |
| PhoneApp.Handset.Delete | android/app/src/main/java/com/sov3r3ign/app/state/AccountModel.kt:168-186 | This phone's own removal is asked for with the tunnel down, and at no write does a running tunnel lack its config; with another device's it does if and only if the answers to the load that follows no longer have this phone's |
| PhoneApp.Handset.AskRemoval | android/app/src/main/java/com/sov3r3ign/app/state/AccountModel.kt:172-180 | Down first when the device is this phone's, then the request |
| PhoneApp.Handset.SignOut | android/app/src/main/java/com/sov3r3ign/app/state/AccountModel.kt:243-251 | At no write is the tunnel up with the config gone; everything stored goes |
| PhoneApp.Handset.SignIn | android/app/src/main/java/com/sov3r3ign/app/session/Session.kt:31-39 | Both tokens as given, a missing refresh token forgotten, the stored choice and its config untouched |

## Left out

- Concurrency: handlers are atomic steps; savepoints, row locks and unique-constraint races are not modelled, only what the constraints say.
- Exceptions part-way through a sweep, SSH timeouts and process crashes between writes; the phone is taken to finish each operation, and its tunnel calls to succeed.
- A node may lose an answer but not perform an operation twice; peers made or removed by hand after set-up are not modelled.
- HTTP statuses, letters, bell and bot texts, counters other than failures and revocations, statistics, admin views.
- Cryptography and tokens: keys are fresh values, signatures are taken as checked.
- The gateways' own identifiers: a Platega callback may name any order; the model believes only the gateway's answer about it.
- User fields that no decision modelled here reads (the mirror address on the user, the disabled flag, language), and account deletion.
- Stripping and upper-casing of typed promo codes; the generation of code strings, which is a parameter.
- Disposable domains, the per-address trial limit and the switch for trials: one flag, `open`, of the trial step.
- Mailbox.CaseIsIgnored: only ASCII letters have case in the model; lower-casing of other scripts, which can change a string's length, is not modelled.
- Mailbox.NormaliseTwiceExactly: the same limit on letter case.
- Mailbox.DotIsIgnored: the same limit on letter case.
- Mailbox.TagIsIgnored: the same limit on letter case.
- Mailbox.NormaliseIdempotent: the same limit on letter case.
- The limiter's clock is a parameter that does not go back; HTTP 429 answers are the returned wait.
- The monitor's probes and limits (what is a problem), the reboot and digest messages (one flag), the report it posts, and a state file that cannot be read.
- The outage table's payload and views; the two writers' transactions are atomic.
- The phone's wording, names refused before any call, the release check, the trial offer and the confirmation letter, which touch neither choice nor tunnel; several operations at once.
- pwa/services/net_manager.py and the log and analysis endpoints: they run a command or a query and pass its output on; nothing in them decides what the portal stores.
- tools/peer_reconcile.py: an operator's comparison of two key lists that changes nothing; what the lists would show is `Fleets.Missing` and `Fleets.Orphan`.
