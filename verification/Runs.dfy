/** Runs: any interleaving of handlers, each one atomic step, under any surroundings. */
module Runs {
  import opened Common
  import opened World
  import opened Handlers
  import opened Fleets

  datatype Step =
    | Registers(referred: Option<string>)
    | SetsContacts(u: nat, mailbox: Option<string>, telegram: Option<int>)
    | CreatesCode(code: string, promo: Promo)
    | DeactivatesCode(code: string)
    | EntersByHand(entry: Entry)
    | OpensOrder(u: nat, plan: string, typed: Option<string>, asked: int, platega: bool, accepted: bool)
    | WebhookArrives(p: nat, status: Option<string>)
    | CallbackArrives(p: nat, answer: Answer)
    | Grants(u: nat, plan: string)
    | AssignsPeer(u: nat, days: nat)
    | AddsDevice(u: nat, where: Option<Loc>)
    | DeletesDevice(u: nat, row: nat)
    | StartsTrial(u: nat, open: bool)
    | PassesRewards
    | SweepsSubscriptions
    | SweepsTrials
    | Refunds(p: nat)

  /** One handler, without the clock. */
  function Handle(s: State, step: Step, env: Env): State {
    match step
    case Registers(referred) => Register(s, referred)
    case SetsContacts(u, mailbox, telegram) => SetContacts(s, u, mailbox, telegram)
    case CreatesCode(code, promo) => CreateCode(s, code, promo, env.now)
    case DeactivatesCode(code) => DeactivateCode(s, code)
    case EntersByHand(entry) => HandEntry(s, entry)
    case OpensOrder(u, plan, typed, asked, platega, accepted) => OpenOrder(s, u, plan, typed, asked, platega, accepted, env.now)
    case WebhookArrives(p, status) => Webhook(s, p, status, env)
    case CallbackArrives(p, answer) => Callback(s, p, answer, env)
    case Grants(u, plan) => GrantAccess(s, u, plan, env)
    case AssignsPeer(u, days) => AssignPeer(s, u, days, env.now)
    case AddsDevice(u, where) => AddDevice(s, u, where, env)
    case DeletesDevice(u, row) => DeleteDevice(s, u, row, env)
    case StartsTrial(u, open) => StartTrial(s, u, open, env)
    case PassesRewards => RewardPass(s, env.now)
    case SweepsSubscriptions => SubscriptionSweep(s, env)
    case SweepsTrials => TrialSweep(s, env)
    case Refunds(p) => Refund(s, p, env.now)
  }

  datatype Event = Event(step: Step, env: Env)

  function Apply(s: State, e: Event): State {
    Handle(s, e.step, e.env).(now := e.env.now)
  }

  /** The clock does not go back, and key pairs are new. */
  ghost predicate Enabled(s: State, e: Event) {
    s.now <= e.env.now && FreshKey(s.fleet, e.env.key)
  }

  function Exec(s: State, run: seq<Event>): State {
    if run == [] then s else Apply(Exec(s, run[..|run| - 1]), run[|run| - 1])
  }

  ghost predicate ValidRun(s: State, run: seq<Event>) {
    run == [] ||
    (ValidRun(s, run[..|run| - 1]) && Enabled(Exec(s, run[..|run| - 1]), run[|run| - 1]))
  }

  /** A portal that has just been set up beside nodes with some hand-made peers. */
  predicate Initial(s: State) {
    s.users == [] && s.fleet.rows == [] && s.fleet.nodes == s.fleet.hand && s.payments == [] && s.codes == map[]
    && s.ledger == [] && s.rewards == [] && s.grants == []
  }

  /** How any step moves the fleet: peers taken off, a device issued, or both. */
  datatype Move = Stay | Take(targets: set<nat>) | Give(u: nat, kind: Kind, where: Loc) | GiveTake(u: nat, kind: Kind, where: Loc, targets: set<nat>)

  function Moved(f: Fleet, m: Move, env: Env): Fleet {
    match m
    case Stay => f
    case Take(targets) => Removed(f, targets, env)
    case Give(u, kind, where) => Issue(f, u, kind, where, env).fleet
    case GiveTake(u, kind, where, targets) => Removed(Issue(f, u, kind, where, env).fleet, targets, env)
  }

  /** What a settlement does to the fleet. */
  function SaleMove(f: Fleet, pay: Payment, env: Env): Move {
    var u, first := pay.user, DefaultForNew(env);
    var g := Issue(f, u, Paid, first, env);
    if Plans.PlanInfo(pay.plan).None? then Stay
    else if HoldsPaid(f.rows, u) then Take(DevicesOf(f.rows, u, Trial))
    else if g.ok then GiveTake(u, Paid, first, DevicesOf(g.fleet.rows, u, Trial))
    else Give(u, Paid, first)
  }

  /** A payment as it stands when a step asks to settle it. */
  datatype Sale = Sale(p: nat, pay: Payment)

  /** What a notification or a grant asks to settle. */
  function Asks(s: State, step: Step): Option<Sale> {
    match step
    case WebhookArrives(p, status) =>
      if Payable(s, p) && status.Some? && PaidStatus(status.value) then Some(Sale(p, s.payments[p])) else None
    case CallbackArrives(p, answer) =>
      if Payable(s, p) && s.payments[p].provider == Platega && answer == ConfirmedFor(Some(s.payments[p].amount))
      then Some(Sale(p, s.payments[p])) else None
    case Grants(u, plan) =>
      if u < |s.users| && Plans.Sold(plan).Some?
      then Some(Sale(|s.payments|, Payment(u, plan, 0, Manual, "pending", None, 0, None))) else None
    case _ => None
  }

  /** A known plan, and a paid device held or answered for by the nodes. */
  predicate Delivers(f: Fleet, pay: Payment, env: Env) {
    Plans.PlanInfo(pay.plan).Some? && (HoldsPaid(f.rows, pay.user) || Issue(f, pay.user, Paid, DefaultForNew(env), env).ok)
  }

  /** The payment a step settles, read before the step from the state and the nodes' answers. */
  function SaleOf(s: State, e: Event): Option<Sale> {
    var asked := Asks(s, e.step);
    if asked.Some? && Delivers(s.fleet, asked.value.pay, e.env) then asked else None
  }

  function MoveOf(s: State, e: Event): Move {
    var env := e.env;
    match e.step
    case AddsDevice(u, where) =>
      var loc := if where.Some? then where.value else DefaultForNew(env);
      if MayAdd(s, u, loc, env) then Give(u, Paid, loc) else Stay
    case DeletesDevice(u, i) => if OwnPaid(s.fleet.rows, u, i) then Take({i}) else Stay
    case StartsTrial(u, open) => if MayTry(s.users, s.grants, u, open, env.now) then Give(u, Trial, DE) else Stay
    case SweepsSubscriptions => Take(LapsedRows(s.users, s.fleet.rows, env.now))
    case SweepsTrials => Take(EndedTrialRows(s.users, s.fleet.rows, env.now))
    case _ =>
      var asked := Asks(s, e.step);
      if asked.Some? then SaleMove(s.fleet, asked.value.pay, env) else Stay
  }

  /** Steps that never reach a node. */
  predicate Quiet(step: Step) {
    step.Registers? || step.SetsContacts? || step.CreatesCode? || step.DeactivatesCode? || step.EntersByHand?
    || step.OpensOrder? || step.AssignsPeer? || step.PassesRewards? || step.Refunds?
  }

  lemma QuietSteps(s: State, e: Event)
    requires Quiet(e.step)
    ensures Apply(s, e).fleet == s.fleet
  {
  }

  // ---------------------------------------------------------------- payments, case by case

  predicate Notifies(step: Step) {
    step.WebhookArrives? || step.CallbackArrives? || step.Grants?
  }

  /** How a notification or a grant can end. */
  datatype Ending =
    | Bought(base: State, p: nat)  // activated: `base` is the state with the payment recorded
    | NoDevice(u: nat)             // nothing issued, nothing written
    | StatusOnly(p: nat)           // at most the status text of an unpaid payment changed

  predicate SamePaid(x: Payment, y: Payment) {
    y == x.(status := y.status) && (x.status == "paid" <==> y.status == "paid")
  }

  /** Payment `p` is on record: it was already, or a grant of nothing has just been added for it. */
  predicate Recorded(payments: seq<Payment>, with: seq<Payment>, p: nat) {
    with == payments ||
    (p == |payments| && |with| == p + 1 &&
     with == payments + [Payment(with[p].user, with[p].plan, 0, Manual, "pending", None, 0, None)])
  }

  ghost predicate Ends(s: State, t: State, env: Env, end: Ending) {
    match end
    case Bought(base, p) =>
      && Payable(base, p) && base == s.(payments := base.payments)
      && Recorded(s.payments, base.payments, p)
      && Activate(base, p, env) == Activated(t, true)
    case NoDevice(u) =>
      && !Issue(s.fleet, u, Paid, DefaultForNew(env), env).ok
      && t == s.(fleet := Issue(s.fleet, u, Paid, DefaultForNew(env), env).fleet)
    case StatusOnly(p) =>
      && t == s.(payments := t.payments) && |t.payments| == |s.payments|
      && forall i :: 0 <= i < |s.payments| ==> SamePaid(s.payments[i], t.payments[i])
  }

  /** An ending that settles `sale`, or none that settles anything. */
  predicate Tells(end: Ending, sale: Option<Sale>) {
    match sale
    case None => !end.Bought?
    case Some(b) => end.Bought? && end.p == b.p && b.p < |end.base.payments| && end.base.payments[b.p] == b.pay
  }

  lemma ActivateEnds(s: State, base: State, p: nat, env: Env) returns (end: Ending)
    requires Payable(base, p) && base == s.(payments := base.payments)
    requires Recorded(s.payments, base.payments, p)
    ensures var a := Activate(base, p, env); Ends(s, if a.ok then a.state else s.(fleet := a.state.fleet), env, end)
    ensures !Activate(base, p, env).ok ==> Activate(base, p, env).state == base.(fleet := Activate(base, p, env).state.fleet)
    ensures Tells(end, if Delivers(s.fleet, base.payments[p], env) then Some(Sale(p, base.payments[p])) else None)
    ensures Activate(base, p, env).state.fleet == Moved(s.fleet, SaleMove(s.fleet, base.payments[p], env), env)
  {
    var a := Activate(base, p, env);
    if a.ok {
      end := Bought(base, p);
    } else if Plans.PlanInfo(base.payments[p].plan).None? {
      end := StatusOnly(p);
    } else {
      end := NoDevice(base.payments[p].user);
    }
  }

  /** `t` is how a request to settle `asked` ends. */
  ghost predicate Settles(s: State, asked: Option<Sale>, env: Env, t: State, end: Ending) {
    && Ends(s, t, env, end)
    && Tells(end, if asked.Some? && Delivers(s.fleet, asked.value.pay, env) then asked else None)
    && t.fleet == Moved(s.fleet, if asked.Some? then SaleMove(s.fleet, asked.value.pay, env) else Stay, env)
  }

  lemma WebhookEnds(s: State, p: nat, status: Option<string>, env: Env, t: State) returns (end: Ending)
    requires t == Webhook(s, p, status, env)
    ensures Settles(s, Asks(s, WebhookArrives(p, status)), env, t, end)
  {
    end := StatusOnly(p);
    if Payable(s, p) && status.Some? && PaidStatus(status.value) {
      end := ActivateEnds(s, s, p, env);
    }
  }

  lemma CallbackEnds(s: State, p: nat, answer: Answer, env: Env, t: State) returns (end: Ending)
    requires t == Callback(s, p, answer, env)
    ensures Settles(s, Asks(s, CallbackArrives(p, answer)), env, t, end)
  {
    end := StatusOnly(p);
    if Payable(s, p) && s.payments[p].provider == Platega && answer == ConfirmedFor(Some(s.payments[p].amount)) {
      end := ActivateEnds(s, s, p, env);
    }
  }

  lemma GrantEnds(s: State, u: nat, plan: string, env: Env, t: State) returns (end: Ending)
    requires t == GrantAccess(s, u, plan, env)
    ensures Settles(s, Asks(s, Grants(u, plan)), env, t, end)
  {
    end := StatusOnly(0);
    if u < |s.users| && Plans.Sold(plan).Some? {
      var base := s.(payments := s.payments + [Payment(u, plan, 0, Manual, "pending", None, 0, None)]);
      end := ActivateEnds(s, base, |s.payments|, env);
    }
  }

  /**
   * All or nothing: a gateway notification or a grant either activates the
   * payment it asks for, exactly when a known plan meets a paid device, or leaves
   * the database as it was (a failed grant drops its row), or only notes a status
   * that is not "paid".
   */
  lemma NotificationEnds(s: State, e: Event) returns (end: Ending)
    requires Notifies(e.step)
    ensures Ends(s, Handle(s, e.step, e.env), e.env, end) && Tells(end, SaleOf(s, e))
    ensures Handle(s, e.step, e.env).fleet == Moved(s.fleet, MoveOf(s, e), e.env)
  {
    var t := Handle(s, e.step, e.env);
    match e.step {
      case WebhookArrives(p, status) => end := WebhookEnds(s, p, status, e.env, t);
      case CallbackArrives(p, answer) => end := CallbackEnds(s, p, answer, e.env, t);
      case Grants(u, plan) => end := GrantEnds(s, u, plan, e.env, t);
    }
  }

  /** Which tables a step that is not a notification can write. */
  lemma StepFrame(s: State, e: Event)
    requires !Notifies(e.step)
    ensures var t, k := Handle(s, e.step, e.env), e.step;
      && (!k.OpensOrder? ==> t.payments == s.payments)
      && (!k.PassesRewards? && !k.Refunds? ==> t.rewards == s.rewards)
      && (!k.EntersByHand? && !k.Refunds? ==> t.ledger == s.ledger)
      && (!k.CreatesCode? && !k.DeactivatesCode? ==> t.codes == s.codes)
      && (!k.StartsTrial? ==> t.grants == s.grants)
  {
  }

  lemma DevicesMove(s: State, e: Event)
    requires !Quiet(e.step) && !Notifies(e.step)
    ensures Apply(s, e).fleet == Moved(s.fleet, MoveOf(s, e), e.env)
  {
  }

  lemma QuietStays(s: State, e: Event)
    requires Quiet(e.step)
    ensures MoveOf(s, e) == Stay
  {
  }

  lemma NoticeMoves(s: State, e: Event)
    requires Notifies(e.step)
    ensures Apply(s, e).fleet == Moved(s.fleet, MoveOf(s, e), e.env)
  {
    var end := NotificationEnds(s, e);
  }

  /** Every step moves the fleet as `MoveOf` says. */
  lemma StepMoves(s: State, e: Event)
    ensures Apply(s, e).fleet == Moved(s.fleet, MoveOf(s, e), e.env)
  {
    if Quiet(e.step) {
      QuietSteps(s, e);
      QuietStays(s, e);
    } else if Notifies(e.step) {
      NoticeMoves(s, e);
    } else {
      DevicesMove(s, e);
    }
  }

  // ---------------------------------------------------------------- the fleet over whole runs

  lemma MoveIsSound(f: Fleet, m: Move, env: Env)
    requires Sound(f) && FreshKey(f, env.key)
    ensures Sound(Moved(f, m, env))
    ensures Agrees(f) && NothingLost(env) ==> Agrees(Moved(f, m, env))
  {
    var g := f;
    if m.Give? || m.GiveTake? {
      var issued := Issue(f, m.u, m.kind, m.where, env);
      g := issued.fleet;
      IssueLeaves(f, m.u, m.kind, m.where, env);
      if issued.ok {
        GrownIsSound(f, g, g.rows[|f.rows|]);
      } else if g != f {
        StrayIsSound(f, g, Peer(if m.kind == Trial then DE else m.where, env.key));
      }
    }
    if m.Take? || m.GiveTake? {
      RemovedIsSound(g, m.targets, env);
      if Agrees(g) && NothingLost(env) {
        RemovedAgreesOn(g, m.targets, env);
      }
    }
  }

  /** A device missing from its node stays active and missing; an orphan stays an orphan. */
  lemma MoveKeepsDisagreement(f: Fleet, m: Move, env: Env)
    requires FreshKey(f, env.key)
    ensures forall i: nat :: Missing(f, i) ==> Missing(Moved(f, m, env), i)
    ensures forall p :: Orphan(f, p) ==> Orphan(Moved(f, m, env), p)
  {
    var g := if m.Give? || m.GiveTake? then Issue(f, m.u, m.kind, m.where, env).fleet else f;
    forall i: nat | Missing(f, i) ensures Missing(Moved(f, m, env), i) {
      if m.Give? || m.GiveTake? {
        MissingStaysIssue(f, m.u, m.kind, m.where, env, i);
      }
      if m.Take? || m.GiveTake? {
        MissingStays(g, m.targets, env, i);
      }
    }
    forall p | Orphan(f, p) ensures Orphan(Moved(f, m, env), p) {
      if m.Give? || m.GiveTake? {
        OrphanStaysIssue(f, m.u, m.kind, m.where, env, p);
      }
      if m.Take? || m.GiveTake? {
        OrphanStays(g, m.targets, env, p);
      }
    }
  }

  /**
   * In every reachable state, with refusals and lost acknowledgements alike:
   * hand-made peers are untouched, a closed device is on no node, a portal peer
   * carries its row's address, two active devices of a location never share an
   * address, and devices keep to the pool of their kind.
   */
  lemma {:induction false} FleetAlwaysSound(s: State, run: seq<Event>)
    requires Initial(s) && ValidRun(s, run)
    ensures Sound(Exec(s, run).fleet) && Exec(s, run).fleet.hand == s.fleet.hand
  {
    if run != [] {
      var before, e := run[..|run| - 1], run[|run| - 1];
      FleetAlwaysSound(s, before);
      var m := MoveOf(Exec(s, before), e);
      StepMoves(Exec(s, before), e);
      MoveIsSound(Exec(s, before).fleet, m, e.env);
      MoveKeepsHand(Exec(s, before).fleet, m, e.env);
    }
  }

  lemma MoveKeepsHand(f: Fleet, m: Move, env: Env)
    ensures Moved(f, m, env).hand == f.hand
  {
    if m.Give? || m.GiveTake? {
      IssueLeaves(f, m.u, m.kind, m.where, env);
    }
  }

  // ---------------------------------------------------------------- agreement, exactly

  /** A move whose answers lose track of a peer. */
  predicate LosesTrack(f: Fleet, m: Move, env: Env) {
    match m
    case Stay => false
    case Take(targets) => RemovalLost(f, targets, env)
    case Give(_, kind, where) => IssueLost(f, kind, where, env)
    case GiveTake(u, kind, where, targets) =>
      IssueLost(f, kind, where, env) || RemovalLost(Issue(f, u, kind, where, env).fleet, targets, env)
  }

  lemma MoveAgreesExactly(f: Fleet, m: Move, env: Env)
    requires Sound(f) && Agrees(f) && FreshKey(f, env.key)
    ensures Agrees(Moved(f, m, env)) <==> !LosesTrack(f, m, env)
  {
    var g := f;
    if m.Give? || m.GiveTake? {
      g := Issue(f, m.u, m.kind, m.where, env).fleet;
      IssueAgreesExactly(f, m.u, m.kind, m.where, env);
      MoveIsSound(f, Give(m.u, m.kind, m.where), env);
    }
    if m.Take? || m.GiveTake? {
      if Agrees(g) {
        RemovalAgreesExactly(g, m.targets, env);
      } else {
        PartedStays(g, m.targets, env);
      }
    }
  }

  lemma PartedStays(f: Fleet, targets: set<nat>, env: Env)
    requires !Agrees(f)
    ensures !Agrees(Removed(f, targets, env))
  {
    if i: nat :| Missing(f, i) {
      MissingStays(f, targets, env, i);
    } else {
      var p :| Orphan(f, p);
      OrphanStays(f, targets, env, p);
    }
  }

  /** No step of a run loses track of a peer. */
  predicate KeepsTrack(s: State, run: seq<Event>) {
    run == [] ||
    var before, e := Exec(s, run[..|run| - 1]), run[|run| - 1];
    KeepsTrack(s, run[..|run| - 1]) && !LosesTrack(before.fleet, MoveOf(before, e), e.env)
  }

  lemma AgreesOneMore(s: State, run: seq<Event>, e: Event)
    requires Initial(s) && ValidRun(s, run) && Enabled(Exec(s, run), e)
    ensures var before := Exec(s, run);
      Agrees(Apply(before, e).fleet) <==> Agrees(before.fleet) && !LosesTrack(before.fleet, MoveOf(before, e), e.env)
  {
    var before := Exec(s, run);
    FleetAlwaysSound(s, run);
    StepMoves(before, e);
    if Agrees(before.fleet) {
      MoveAgreesExactly(before.fleet, MoveOf(before, e), e.env);
    } else {
      MoveKeepsDisagreement(before.fleet, MoveOf(before, e), e.env);
    }
  }

  /**
   * In every run, whatever the nodes refuse: they hold exactly the hand-made peers
   * and the active devices if and only if no step so far lost the answer to a
   * removal a node made, or to the last addition it was asked for and made.
   */
  lemma {:induction false} NodesAgreeExactly(s: State, run: seq<Event>)
    requires Initial(s) && ValidRun(s, run)
    ensures Agrees(Exec(s, run).fleet) <==> KeepsTrack(s, run)
  {
    if run != [] {
      NodesAgreeExactly(s, run[..|run| - 1]);
      AgreesOneMore(s, run[..|run| - 1], run[|run| - 1]);
    }
  }

  lemma MoveKeepsTrack(f: Fleet, m: Move, env: Env)
    requires NothingLost(env)
    ensures !LosesTrack(f, m, env)
  {
  }

  /** One paid device, its peer on its node. */
  function OneDevice(): State {
    State(0, [User(true, Some(100), Some("basic-1m"), None, None, Some(1), None)],
          Fleet([Row(0, Paid, DE, 7, Addr(88, 42), true)], map[Peer(DE, 7) := Addr(88, 42)], map[]), [], map[], [], [], [])
  }

  /** Deleted while the node's answer is lost: the peer is gone, the device is not. */
  lemma LostRemovalParts()
    ensures var s, env := OneDevice(), Env(1, false, {}, true, 8, n => Obeyed, k => Lost);
      var e := Event(DeletesDevice(0, 0), env);
      && Sound(s.fleet) && Agrees(s.fleet) && Enabled(s, e)
      && LosesTrack(s.fleet, MoveOf(s, e), env) && Missing(Apply(s, e).fleet, 0) && !Agrees(Apply(s, e).fleet)
  {
    var s, env := OneDevice(), Env(1, false, {}, true, 8, n => Obeyed, k => Lost);
    var e := Event(DeletesDevice(0, 0), env);
    OneDeviceAgrees();
    OneDeviceLost(env);
    OwnTaken(s, 0, 0, env);
    StepMoves(s, e);
  }

  lemma OwnTaken(s: State, u: nat, i: nat, env: Env)
    requires OwnPaid(s.fleet.rows, u, i)
    ensures MoveOf(s, Event(DeletesDevice(u, i), env)) == Take({i})
  {
  }

  lemma OneDeviceAgrees()
    ensures Sound(OneDevice().fleet) && Agrees(OneDevice().fleet)
  {
    var f := OneDevice().fleet;
    assert PeerOf(f.rows[0]) == Peer(DE, 7);
  }

  lemma OneDeviceLost(env: Env)
    requires env.removes(7) == Lost
    ensures RemovalLost(OneDevice().fleet, {0}, env) && Missing(Removed(OneDevice().fleet, {0}, env), 0)
  {
    var f := OneDevice().fleet;
    assert Effective(f, 0, env) && 0 in {0};
  }

  /** Refusals alone never part table and nodes. */
  lemma {:induction false} NodesAgreeUnlessLost(s: State, run: seq<Event>)
    requires Initial(s) && ValidRun(s, run)
    requires forall k :: 0 <= k < |run| ==> NothingLost(run[k].env)
    ensures Agrees(Exec(s, run).fleet)
  {
    if run != [] {
      var short, e := run[..|run| - 1], run[|run| - 1];
      NodesAgreeUnlessLost(s, short);
      assert e == run[|run| - 1];
      MoveKeepsTrack(Exec(s, short).fleet, MoveOf(Exec(s, short), e), e.env);
      AgreesOneMore(s, short, e);
    }
  }

  /**
   * Disagreement is for good: once a lost answer has left a device without its
   * peer, the device can never be closed again; once it has left a peer without
   * a device, the peer is never removed. No later handler repairs either.
   */
  lemma {:induction false} DisagreementIsPermanent(s: State, run: seq<Event>, i: nat, p: Peer)
    requires ValidRun(s, run)
    ensures Missing(s.fleet, i) ==> Missing(Exec(s, run).fleet, i)
    ensures Orphan(s.fleet, p) ==> Orphan(Exec(s, run).fleet, p)
  {
    if run != [] {
      var before, e := run[..|run| - 1], run[|run| - 1];
      DisagreementIsPermanent(s, before, i, p);
      var m := MoveOf(Exec(s, before), e);
      StepMoves(Exec(s, before), e);
      MoveKeepsDisagreement(Exec(s, before).fleet, m, e.env);
    }
  }

  predicate RowsPersist(rows: seq<Row>, later: seq<Row>) {
    |rows| <= |later| && forall i :: 0 <= i < |rows| ==> later[i] == rows[i] || later[i] == rows[i].(active := false)
  }

  /** A device keeps its owner, kind, location, key and address for life, and is never reopened. */
  lemma {:induction false} DevicesPersist(s: State, run: seq<Event>)
    ensures RowsPersist(s.fleet.rows, Exec(s, run).fleet.rows)
  {
    if run != [] {
      var before, e := run[..|run| - 1], run[|run| - 1];
      DevicesPersist(s, before);
      var m := MoveOf(Exec(s, before), e);
      StepMoves(Exec(s, before), e);
      MovePersists(Exec(s, before).fleet, m, e.env);
      PersistTwice(s.fleet.rows, Exec(s, before).fleet.rows, Exec(s, run).fleet.rows);
    }
  }

  lemma MovePersists(f: Fleet, m: Move, env: Env)
    ensures RowsPersist(f.rows, Moved(f, m, env).rows)
  {
    if m.Give? || m.GiveTake? {
      IssueLeaves(f, m.u, m.kind, m.where, env);
    }
  }

  lemma PersistTwice(a: seq<Row>, b: seq<Row>, c: seq<Row>)
    requires RowsPersist(a, b) && RowsPersist(b, c)
    ensures RowsPersist(a, c)
  {
  }
}
