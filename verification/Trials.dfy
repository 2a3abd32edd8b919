/** Free trials over whole runs: one per account, mailbox and Telegram account, and a daily ceiling. */
module Trials {
  import opened Common
  import opened World
  import opened Handlers
  import opened Fleets
  import opened Runs
  import opened Access
  import Mailbox

  /** Grants in the 24 hours from `x`, both ends included. */
  function DayCount(grants: seq<TrialGrant>, x: int): nat {
    if grants == [] then 0
    else DayCount(grants[..|grants| - 1], x) + if x <= grants[|grants| - 1].at <= x + Days(1) then 1 else 0
  }

  ghost predicate CapHolds(grants: seq<TrialGrant>) {
    forall x :: DayCount(grants, x) <= TRIAL_DAILY_CAP
  }

  predicate Alike(g: TrialGrant, h: TrialGrant) {
    g.user == h.user || (g.mailbox.Some? && g.mailbox == h.mailbox) || (g.telegram.Some? && g.telegram == h.telegram)
  }

  predicate OneEach(grants: seq<TrialGrant>) {
    forall i, j :: 0 <= i < j < |grants| ==> !Alike(grants[i], grants[j])
  }

  /** Grants and trial devices alike belong to accounts whose trial date is set. */
  predicate Dated(users: seq<User>, grants: seq<TrialGrant>, rows: seq<Row>) {
    && (forall i :: 0 <= i < |grants| ==> grants[i].user < |users| && users[grants[i].user].trialUntil.Some?)
    && (forall i :: 0 <= i < |rows| && rows[i].kind == Trial ==>
          rows[i].user < |users| && users[rows[i].user].trialUntil.Some?)
  }

  predicate OneDeviceEach(rows: seq<Row>) {
    forall i, j :: 0 <= i < j < |rows| && rows[i].kind == Trial && rows[j].kind == Trial ==> rows[i].user != rows[j].user
  }

  /** Trial dates, once set, stay set. */
  predicate DatesKept(v: seq<User>, w: seq<User>) {
    |v| <= |w| && forall u :: 0 <= u < |v| && v[u].trialUntil.Some? ==> w[u].trialUntil.Some?
  }

  lemma {:induction false} DayIsSince(grants: seq<TrialGrant>, since: int, x: int)
    requires since <= x
    ensures DayCount(grants, x) <= GrantsSince(grants, since)
  {
    if grants != [] {
      DayIsSince(grants[..|grants| - 1], since, x);
    }
  }

  lemma CapAfterGrant(grants: seq<TrialGrant>, g: TrialGrant)
    requires CapHolds(grants) && GrantsSince(grants, g.at - Days(1)) < TRIAL_DAILY_CAP
    ensures CapHolds(grants + [g])
  {
    forall x ensures DayCount(grants + [g], x) <= TRIAL_DAILY_CAP {
      assert (grants + [g])[..|grants|] == grants;
      assert DayCount(grants, x) <= TRIAL_DAILY_CAP;
      if x <= g.at <= x + Days(1) {
        DayIsSince(grants, g.at - Days(1), x);
      }
    }
  }

  /** What a granted trial leaves: one grant, one date, one device. */
  ghost predicate TrialGranted(s: State, t: State, u: nat, env: Env) {
    && u < |s.users| && |t.fleet.rows| == |s.fleet.rows| + 1 && s.users[u].trialUntil.None? && s.users[u].until.None?
    && var g, r := GrantFor(s.users[u], u, env.now), t.fleet.rows[|s.fleet.rows|];
    && !TrialTaken(s.grants, g) && GrantsSince(s.grants, env.now - Days(1)) < TRIAL_DAILY_CAP
    && Grown(s.fleet, t.fleet, r) && r.user == u && r.kind == Trial && r.loc == DE
    && t == s.(users := s.users[u := s.users[u].(trialUntil := Some(env.now + Days(TRIAL_DAYS)))],
               grants := s.grants + [g], fleet := t.fleet)
  }

  /** A trial that gets no device leaves nothing behind; a granted one leaves exactly what it should. */
  lemma TrialAllOrNothing(s: State, u: nat, open: bool, env: Env)
    ensures var t := StartTrial(s, u, open, env);
      || (t == s.(fleet := t.fleet) && t.fleet.rows == s.fleet.rows && (NothingLost(env) ==> t == s))
      || TrialGranted(s, t, u, env)
  {
    if MayTry(s.users, s.grants, u, open, env.now) {
      RecordOutcome(s, u, GrantFor(s.users[u], u, env.now), env);
    }
  }

  lemma RecordOutcome(s: State, u: nat, g: TrialGrant, env: Env)
    requires u < |s.users|
    ensures var t, ok := RecordTrial(s, u, g, env), Issue(s.fleet, u, Trial, DE, env).ok;
      && (!ok ==> t == s.(fleet := t.fleet) && t.fleet.rows == s.fleet.rows && (NothingLost(env) ==> t == s))
      && (ok ==>
            && |t.fleet.rows| == |s.fleet.rows| + 1
            && t == s.(users := s.users[u := s.users[u].(trialUntil := Some(env.now + Days(TRIAL_DAYS)))],
                       grants := s.grants + [g], fleet := t.fleet)
            && var r := t.fleet.rows[|s.fleet.rows|]; Grown(s.fleet, t.fleet, r) && r.user == u && r.kind == Trial && r.loc == DE)
  {
    IssueLeaves(s.fleet, u, Trial, DE, env);
  }

  lemma DatesStep(s: State, e: Event)
    requires !e.step.StartsTrial?
    ensures DatesKept(s.users, Apply(s, e).users) && Apply(s, e).grants == s.grants
  {
    if Notifies(e.step) {
      NoticeKeepsUsers(s, e);
    } else if Quiet(e.step) {
      QuietKeepsUsers(s, e);
    } else {
      var t := Apply(s, e);
      assert t.grants == s.grants && |t.users| == |s.users|;
      assert forall u :: 0 <= u < |s.users| ==> t.users[u].trialUntil == s.users[u].trialUntil;
    }
  }

  predicate OnlyPaidAdded(rows: seq<Row>, later: seq<Row>) {
    && |rows| <= |later|
    && (forall i :: 0 <= i < |rows| ==> later[i].kind == rows[i].kind && later[i].user == rows[i].user)
    && (forall i :: |rows| <= i < |later| ==> later[i].kind == Paid)
  }

  /** Only `start_trial` issues trial devices. */
  lemma TrialRowsStep(s: State, e: Event)
    requires !e.step.StartsTrial?
    ensures OnlyPaidAdded(s.fleet.rows, Apply(s, e).fleet.rows)
  {
    var env := e.env;
    if Quiet(e.step) {
      QuietSteps(s, e);
    } else if Notifies(e.step) {
      TrialRowsNotice(s, e);
    } else if e.step.AddsDevice? {
      IssueLeaves(s.fleet, e.step.u, Paid, if e.step.where.Some? then e.step.where.value else DefaultForNew(env), env);
    }
  }

  lemma SaleAddsPaid(f: Fleet, pay: Payment, env: Env)
    ensures OnlyPaidAdded(f.rows, Moved(f, SaleMove(f, pay, env), env).rows)
  {
    IssueLeaves(f, pay.user, Paid, DefaultForNew(env), env);
  }

  lemma TrialRowsNotice(s: State, e: Event)
    requires Notifies(e.step)
    ensures OnlyPaidAdded(s.fleet.rows, Apply(s, e).fleet.rows)
  {
    StepMoves(s, e);
    var asked := Asks(s, e.step);
    if asked.Some? {
      SaleAddsPaid(s.fleet, asked.value.pay, e.env);
    }
  }

  ghost predicate TrialsRight(s: State) {
    CapHolds(s.grants) && OneEach(s.grants) && Dated(s.users, s.grants, s.fleet.rows) && OneDeviceEach(s.fleet.rows)
  }

  lemma TrialsStep(s: State, e: Event)
    requires TrialsRight(s)
    ensures TrialsRight(Apply(s, e))
  {
    var t := Apply(s, e);
    if e.step.StartsTrial? {
      StartKeepsTrials(s, e.step.u, e.step.open, e.env);
    } else {
      DatesStep(s, e);
      TrialRowsStep(s, e);
      LaterRows(s.users, t.users, s.grants, s.fleet.rows, t.fleet.rows);
    }
  }

  lemma LaterRows(users: seq<User>, users': seq<User>, grants: seq<TrialGrant>, rows: seq<Row>, later: seq<Row>)
    requires Dated(users, grants, rows) && OneDeviceEach(rows) && DatesKept(users, users') && OnlyPaidAdded(rows, later)
    ensures Dated(users', grants, later) && OneDeviceEach(later)
  {
  }

  lemma GrantedKeepsTrials(s: State, t: State, u: nat, env: Env)
    requires TrialsRight(s) && TrialGranted(s, t, u, env)
    ensures TrialsRight(t)
  {
    var g, r := GrantFor(s.users[u], u, env.now), t.fleet.rows[|s.fleet.rows|];
    CapAfterGrant(s.grants, g);
    OneMore(s.grants, g);
    DatedMore(s.users, s.grants, s.fleet.rows, u, env.now, g, r);
  }

  lemma StartKeepsTrials(s: State, u: nat, open: bool, env: Env)
    requires TrialsRight(s)
    ensures TrialsRight(StartTrial(s, u, open, env))
  {
    TrialAllOrNothing(s, u, open, env);
    if TrialGranted(s, StartTrial(s, u, open, env), u, env) {
      GrantedKeepsTrials(s, StartTrial(s, u, open, env), u, env);
    }
  }

  lemma OneMore(grants: seq<TrialGrant>, g: TrialGrant)
    requires OneEach(grants) && !TrialTaken(grants, g)
    ensures OneEach(grants + [g])
  {
  }

  lemma DatedMore(users: seq<User>, grants: seq<TrialGrant>, rows: seq<Row>, u: nat, now: int, g: TrialGrant, r: Row)
    requires Dated(users, grants, rows) && OneDeviceEach(rows)
    requires u < |users| && users[u].trialUntil.None? && g.user == u && r.user == u
    ensures Dated(users[u := users[u].(trialUntil := Some(now + Days(TRIAL_DAYS)))], grants + [g], rows + [r])
    ensures OneDeviceEach(rows + [r])
  {
  }

  /**
   * In every run: no account, mailbox or Telegram account is granted two trials,
   * no account ever has two trial devices, and no 24 hours hold more than the
   * daily ceiling of grants.
   */
  lemma {:induction false} TrialsAlwaysRight(s: State, run: seq<Event>)
    requires Initial(s) && ValidRun(s, run)
    ensures TrialsRight(Exec(s, run))
  {
    if run != [] {
      TrialsAlwaysRight(s, run[..|run| - 1]);
      TrialsStep(Exec(s, run[..|run| - 1]), run[|run| - 1]);
    }
  }

  /** Another spelling of a mailbox that has had a trial is refused. */
  lemma SpellingsShareOneTrial(s: State, u: nat, open: bool, env: Env, i: nat, m: string)
    requires u < |s.users| && i < |s.grants| && s.grants[i].mailbox == Some(Mailbox.Normalise(m))
    requires s.users[u].mailbox.Some? && Mailbox.Normalise(s.users[u].mailbox.value) == Mailbox.Normalise(m)
    ensures StartTrial(s, u, open, env) == s
  {
  }

  // ---------------------------------------------------------------- on the accounts themselves

  /** The step grants a trial. */
  predicate Grants(s: State, e: Event) {
    e.step.StartsTrial? && |Apply(s, e).grants| > |s.grants|
  }

  /** A grant already made to this account, its mailbox in any spelling, or its Telegram account. */
  predicate HadTrial(s: State, u: nat)
    requires u < |s.users|
  {
    exists i :: 0 <= i < |s.grants| &&
      (s.grants[i].user == u
       || (s.users[u].mailbox.Some? && s.grants[i].mailbox == Some(Mailbox.Normalise(s.users[u].mailbox.value)))
       || (s.users[u].telegram.Some? && s.grants[i].telegram == s.users[u].telegram))
  }

  /** The grants of the last 24 hours. */
  function Lately(grants: seq<TrialGrant>, now: int): set<nat> {
    set i | 0 <= i < |grants| && now - 86400 <= grants[i].at
  }

  lemma {:induction false} SinceIsSize(grants: seq<TrialGrant>, now: int)
    ensures GrantsSince(grants, now - Days(1)) == |Lately(grants, now)|
  {
    if grants != [] {
      SinceIsSize(grants[..|grants| - 1], now);
      LastOfLately(grants, now);
    }
  }

  lemma LastOfLately(grants: seq<TrialGrant>, now: int)
    requires grants != []
    ensures var n := |grants| - 1;
      && n !in Lately(grants[..n], now)
      && Lately(grants, now) == Lately(grants[..n], now) + if now - 86400 <= grants[n].at then {n} else {}
  {
  }

  /**
   * A trial is granted if and only if trials are open, the account has a confirmed
   * mailbox or Telegram and never had a trial or a period, neither it nor either of
   * them was granted one, fewer than thirty were in the last 24 hours, and a device
   * can be issued.
   */
  lemma GrantedExactly(s: State, u: nat, open: bool, env: Env)
    ensures |StartTrial(s, u, open, env).grants| > |s.grants| <==>
      && u < |s.users| && open && (s.users[u].mailbox.Some? || s.users[u].telegram.Some?)
      && s.users[u].trialUntil.None? && s.users[u].until.None? && !HadTrial(s, u)
      && |Lately(s.grants, env.now)| < 30 && Issue(s.fleet, u, Trial, DE, env).ok
  {
    SinceIsSize(s.grants, env.now);
    if u < |s.users| {
      TakenIsHad(s, u, env.now);
    }
  }

  lemma TakenIsHad(s: State, u: nat, now: int)
    requires u < |s.users|
    ensures TrialTaken(s.grants, GrantFor(s.users[u], u, now)) <==> HadTrial(s, u)
  {
  }

  /** A grant records the account, its own mailbox in normal form and its own Telegram as they are, and gives three days. */
  lemma GrantRecords(s: State, u: nat, open: bool, env: Env)
    requires |StartTrial(s, u, open, env).grants| > |s.grants|
    ensures var t := StartTrial(s, u, open, env);
      && u < |s.users| && t.grants == s.grants + [t.grants[|s.grants|]]
      && var g := t.grants[|s.grants|];
      && g.user == u && g.at == env.now && g.telegram == s.users[u].telegram
      && (s.users[u].mailbox.Some? ==> g.mailbox == Some(Mailbox.Normalise(s.users[u].mailbox.value)))
      && (s.users[u].mailbox.None? ==> g.mailbox.None?)
      && t.users == s.users[u := s.users[u].(trialUntil := Some(env.now + 3 * 86400))]
  {
  }

  /** A Telegram account in a grant gets no other trial, whichever account it is linked to. */
  lemma TelegramGetsOneTrial(s: State, v: nat, open: bool, env: Env, i: nat, x: int)
    requires v < |s.users| && i < |s.grants| && s.grants[i].telegram == Some(x) && s.users[v].telegram == Some(x)
    ensures StartTrial(s, v, open, env) == s
  {
    assert HadTrial(s, v);
    TakenIsHad(s, v, env.now);
  }

  /** An account that takes over a mailbox or a Telegram account named in a grant gets no trial with it. */
  lemma TakenOverIsRefused(s: State, v: nat, mailbox: Option<string>, telegram: Option<int>, open: bool, env: Env, i: nat)
    requires v < |s.users| && i < |s.grants|
    requires (telegram.Some? && s.grants[i].telegram == telegram)
             || (mailbox.Some? && s.grants[i].mailbox == Some(Mailbox.Normalise(mailbox.value)))
    ensures var t := SetContacts(s, v, mailbox, telegram);
      && StartTrial(t, v, open, env) == t && t == s.(users := t.users) && |t.users| == |s.users|
      && forall w :: 0 <= w < |t.users| && w != v ==> t.users[w] == s.users[w]
  {
    var t := SetContacts(s, v, mailbox, telegram);
    assert HadTrial(t, v);
    TakenIsHad(t, v, env.now);
  }

  lemma GrantsStay(s: State, e: Event)
    ensures s.grants <= Apply(s, e).grants
  {
    if e.step.StartsTrial? {
      StartKeepsGrants(s, e.step.u, e.step.open, e.env);
    } else {
      DatesStep(s, e);
    }
  }

  lemma StartKeepsGrants(s: State, u: nat, open: bool, env: Env)
    ensures s.grants <= StartTrial(s, u, open, env).grants
  {
  }

  lemma {:induction false} GrantsPersist(s: State, run: seq<Event>)
    ensures s.grants <= Exec(s, run).grants
  {
    if run != [] {
      GrantsPersist(s, run[..|run| - 1]);
      GrantsStay(Exec(s, run[..|run| - 1]), run[|run| - 1]);
    }
  }

  /**
   * Once a trial is granted to an account, then in every continuation, whatever is
   * unlinked, linked and confirmed meanwhile, none is granted to an account that has
   * the Telegram account or a spelling of the mailbox it had then.
   */
  lemma OncePerContact(s: State, e: Event, run: seq<Event>, later: Event)
    requires Grants(s, e) && Grants(Exec(Apply(s, e), run), later)
    ensures e.step.u < |s.users| && later.step.u < |Exec(Apply(s, e), run).users|
    ensures var a, b := s.users[e.step.u], Exec(Apply(s, e), run).users[later.step.u];
      && later.step.u != e.step.u
      && (a.telegram.Some? ==> b.telegram != a.telegram)
      && (a.mailbox.Some? && b.mailbox.Some? ==> Mailbox.Normalise(a.mailbox.value) != Mailbox.Normalise(b.mailbox.value))
  {
    var n, w := |s.grants|, Exec(Apply(s, e), run);
    GrantRecords(s, e.step.u, e.step.open, e.env);
    GrantsPersist(Apply(s, e), run);
    assert w.grants[n] == Apply(s, e).grants[n];
    GrantedExactly(w, later.step.u, later.step.open, later.env);
    UnlikeAll(w, later.step.u, n);
  }

  /** Who had no trial is unlike every grant. */
  lemma UnlikeAll(s: State, u: nat, i: nat)
    requires u < |s.users| && i < |s.grants| && !HadTrial(s, u)
    ensures var g, a := s.grants[i], s.users[u];
      && g.user != u && (a.telegram.Some? ==> g.telegram != a.telegram)
      && (a.mailbox.Some? ==> g.mailbox != Some(Mailbox.Normalise(a.mailbox.value)))
  {
  }
}
