/**
 * The Android client's session and tunnel: what is stored on the phone (session/Session.kt)
 * and the order in which the account's operations move the tunnel (state/AccountModel.kt).
 */
module PhoneSession {
  import opened Common

  datatype Slot = Token | Refresh | Conf | DeviceId | DeviceName
  type Secrets = map<Slot, string>

  datatype Error = Unauthorized | NotFound | Conflict | Other
  datatype Answer<T> = Ok(value: T) | Failed(error: Error)
  datatype Device = Device(id: string, name: string)

  /** What the portal would answer to one call: with the stored token, to the renewal, with the new token. */
  datatype Tries<T> = Tries(first: Answer<T>, renewal: Answer<string>, second: Answer<T>)

  // ---------------------------------------------------------------- the session, on values

  /** `authorized` with `renew`: one quiet renewal, and a refused refresh token is forgotten. */
  function Authorized<T>(s: Secrets, t: Tries<T>): (Secrets, Answer<T>) {
    if Token in s && t.first != Failed(Unauthorized) then (s, t.first)
    else
      var bare := s - {Token};
      if Refresh !in s then (bare, Failed(Unauthorized))
      else match t.renewal
        case Failed(e) => (if e == Unauthorized then bare - {Refresh} else bare, Failed(e))
        case Ok(token) => (if t.second == Failed(Unauthorized) then bare else bare[Token := token], t.second)
  }

  /** `selected`: a choice counts when all three parts of it are stored. */
  function Selected(s: Secrets): Option<Device> {
    if DeviceId in s && DeviceName in s && Conf in s then Some(Device(s[DeviceId], s[DeviceName])) else None
  }

  function StoredConfig(s: Secrets): Option<string> {
    if Selected(s).Some? then Some(s[Conf]) else None
  }

  function Forgotten(s: Secrets): Secrets {
    s - {DeviceId, DeviceName, Conf}
  }

  function Find(devices: seq<Device>, id: string): Option<Device> {
    if devices == [] then None
    else if devices[0].id == id then Some(devices[0])
    else Find(devices[1..], id)
  }

  /** What an account's list means for the stored choice. */
  function Compared(s: Secrets, devices: seq<Device>): Secrets {
    if DeviceId !in s then s
    else
      match Find(devices, s[DeviceId])
      case None => Forgotten(s)
      case Some(d) => s[DeviceName := d.name]
  }

  function Devices(s: Secrets, t: Tries<seq<Device>>): (Secrets, Answer<seq<Device>>) {
    var (after, a) := Authorized(s, t);
    (if a.Ok? then Compared(after, a.value) else after, a)
  }

  /** A device that is not there counts as removed. */
  function Lenient(a: Answer<()>): Answer<()> {
    if a == Failed(NotFound) then Ok(()) else a
  }

  function DeleteDevice(s: Secrets, t: Tries<()>, id: string): (Secrets, Answer<()>) {
    var (after, a) := Authorized(s, Tries(Lenient(t.first), t.renewal, Lenient(t.second)));
    (if a.Ok? && DeviceId in after && after[DeviceId] == id then Forgotten(after) else after, a)
  }

  function RenameDevice(s: Secrets, t: Tries<Device>, id: string): (Secrets, Answer<Device>) {
    var (after, a) := Authorized(s, t);
    (if a.Ok? && DeviceId in after && after[DeviceId] == id then after[DeviceName := a.value.name] else after, a)
  }

  predicate Contains(s: string, part: string) {
    exists i :: 0 <= i <= |s| && part <= s[i..]
  }

  predicate IsConfig(conf: string) {
    Contains(conf, "[Interface]") && Contains(conf, "PrivateKey")
  }

  /** `select`: a device's config is fetched and kept, unless it is no config. */
  function Select(s: Secrets, t: Tries<string>, d: Device): (Secrets, Answer<()>) {
    var (after, a) := Authorized(s, t);
    match a
    case Failed(e) => (after, Failed(e))
    case Ok(conf) =>
      if IsConfig(conf) then (after[Conf := conf][DeviceName := d.name][DeviceId := d.id], Ok(()))
      else (after, Failed(Other))
  }

  // ---------------------------------------------------------------- the account, on values

  datatype Ui = Ui(selected: Option<Device>, devices: Option<seq<Device>>, signedOut: bool)
  datatype Phone = Phone(secrets: Secrets, tunnel: Option<string>, ui: Ui)

  /** What a load is answered: whether the profile has access, and the list of devices. */
  datatype Replies = Replies(profile: Tries<bool>, list: Tries<seq<Device>>)

  function SignedOut(p: Phone): Phone {
    p.(ui := p.ui.(signedOut := true))
  }

  /** `failed` inside `load`. */
  function Ended(p: Phone, e: Error): Phone {
    if e == Unauthorized then SignedOut(p) else p
  }

  function Load(p: Phone, r: Replies): Phone {
    var had := Selected(p.secrets);
    var (s, a) := Authorized(p.secrets, r.profile);
    var q := Phone(s, p.tunnel, p.ui.(selected := had));
    match a
    case Failed(e) => Ended(q, e)
    case Ok(access) => if access then LoadDevices(q, had, r.list) else q.(ui := q.ui.(devices := None))
  }

  function LoadDevices(p: Phone, had: Option<Device>, list: Tries<seq<Device>>): Phone {
    var (s, a) := Devices(p.secrets, list);
    match a
    case Failed(e) => Ended(Phone(s, p.tunnel, p.ui.(devices := None)), e)
    case Ok(devices) =>
      Phone(s, if had.Some? && Selected(s).None? then None else p.tunnel,
            p.ui.(devices := Some(devices), selected := Selected(s)))
  }

  /** `failed` outside `load`: a device that is gone means the list is stale. */
  function Fail(p: Phone, e: Error, again: Replies): Phone {
    if e == Unauthorized then SignedOut(p) else if e == NotFound then Load(p, again) else p
  }

  /** A running tunnel moves onto the stored config. */
  function Follow(p: Phone): Phone {
    if p.tunnel.Some? && StoredConfig(p.secrets).Some? then p.(tunnel := StoredConfig(p.secrets)) else p
  }

  function Refreshed(p: Phone): Phone {
    p.(ui := p.ui.(selected := Selected(p.secrets)))
  }

  function Use(p: Phone, d: Device, config: Tries<string>, again: Replies): Phone {
    var (s, a) := Select(p.secrets, config, d);
    var q := p.(secrets := s);
    if a.Ok? then Follow(Refreshed(q)) else Fail(q, a.error, again)
  }

  /** The common part of `add` and `startTrial`: the new device becomes this phone's. */
  function Adopt(p: Phone, d: Device, config: Tries<string>, again: Replies): Phone {
    var (s, a) := Select(p.secrets, config, d);
    var q := p.(secrets := s);
    if a.Ok? then Follow(q) else Fail(q, a.error, again)
  }

  function LoadUnlessOut(p: Phone, r: Replies): Phone {
    if p.ui.signedOut then p else Load(p, r)
  }

  function Add(p: Phone, added: Tries<Device>, config: Tries<string>, again: Replies, last: Replies): Phone {
    var (s, a) := Authorized(p.secrets, added);
    var q := p.(secrets := s);
    if a.Ok? then LoadUnlessOut(Adopt(q, a.value, config, again), last) else Fail(q, a.error, again)
  }

  function StartTrial(p: Phone, started: Tries<Device>, config: Tries<string>, again: Replies, last: Replies): Phone {
    var (s, a) := Authorized(p.secrets, started);
    var q := p.(secrets := s);
    if a.Ok? then LoadUnlessOut(Adopt(q, a.value, config, again), last)
    else if a.error == Conflict then LoadUnlessOut(q, last)
    else Fail(q, a.error, again)
  }

  function Rename(p: Phone, d: Device, renamed: Tries<Device>, again: Replies, last: Replies): Phone {
    var (s, a) := RenameDevice(p.secrets, renamed, d.id);
    var q := p.(secrets := s);
    if a.Ok? then Load(Refreshed(q), last) else Fail(q, a.error, again)
  }

  /** Whether the screen says that `d` is this phone's. */
  predicate OnThisPhone(p: Phone, d: Device) {
    p.ui.selected.Some? && p.ui.selected.value.id == d.id
  }

  function Delete(p: Phone, d: Device, removed: Tries<()>, again: Replies, last: Replies): Phone {
    var (s, a) := DeleteDevice(p.secrets, removed, d.id);
    var q := Phone(s, if OnThisPhone(p, d) then None else p.tunnel, p.ui);
    if a.Ok? then Load(Refreshed(q), last) else Fail(q, a.error, again)
  }

  function SignOut(p: Phone): Phone {
    Phone(map[], None, p.ui.(signedOut := true))
  }

  function SignIn(p: Phone, token: string, refresh: Option<string>): Phone {
    var s := p.secrets[Token := token];
    Phone(if refresh.Some? then s[Refresh := refresh.value] else s - {Refresh}, p.tunnel, Ui(None, None, false))
  }

  /** The main screen's button, which needs the store alone. */
  function Connect(p: Phone): Phone {
    if StoredConfig(p.secrets).Some? then p.(tunnel := StoredConfig(p.secrets)) else p
  }

  /** The screen is made anew, around what is stored and whatever the tunnel does. */
  function Recreate(p: Phone): Phone {
    p.(ui := Ui(None, None, Token !in p.secrets && Refresh !in p.secrets))
  }

  // ---------------------------------------------------------------- every run

  datatype Op =
    | Loading(r: Replies)
    | Using(d: Device, config: Tries<string>, again: Replies)
    | Adding(added: Tries<Device>, config: Tries<string>, again: Replies, last: Replies)
    | Trial(started: Tries<Device>, config: Tries<string>, again: Replies, last: Replies)
    | Renaming(d: Device, renamed: Tries<Device>, again: Replies, last: Replies)
    | Deleting(d: Device, removed: Tries<()>, again: Replies, last: Replies)
    | Leaving
    | Entering(token: string, refresh: Option<string>)
    | Connecting
    | Stopping
    | Recreating

  function Step(p: Phone, op: Op): Phone {
    match op
    case Loading(r) => Load(p, r)
    case Using(d, config, again) => Use(p, d, config, again)
    case Adding(added, config, again, last) => Add(p, added, config, again, last)
    case Trial(started, config, again, last) => StartTrial(p, started, config, again, last)
    case Renaming(d, renamed, again, last) => Rename(p, d, renamed, again, last)
    case Deleting(d, removed, again, last) => Delete(p, d, removed, again, last)
    case Leaving => SignOut(p)
    case Entering(token, refresh) => SignIn(p, token, refresh)
    case Connecting => Connect(p)
    case Stopping => p.(tunnel := None)
    case Recreating => Recreate(p)
  }

  /** What the screens offer: the sign-in form or the account, and devices only from a list that was shown. */
  predicate Offered(p: Phone, op: Op) {
    match op
    case Entering(_, _) => p.ui.signedOut
    case Recreating => true
    case Stopping => true
    case Deleting(_, _, _, _) => !p.ui.signedOut && p.ui.devices.Some?
    case _ => !p.ui.signedOut
  }

  const NEW_PHONE := Phone(map[], None, Ui(None, None, true))

  function Exec(ops: seq<Op>): Phone {
    if ops == [] then NEW_PHONE else Step(Exec(ops[..|ops| - 1]), ops[|ops| - 1])
  }

  predicate Possible(ops: seq<Op>) {
    ops == [] || (Possible(ops[..|ops| - 1]) && Offered(Exec(ops[..|ops| - 1]), ops[|ops| - 1]))
  }

  /** The id is stored only with the rest of the choice. */
  predicate Whole(s: Secrets) {
    DeviceId in s ==> DeviceName in s && Conf in s
  }

  /** A running tunnel runs the stored config of a stored choice. */
  predicate RunsStored(p: Phone) {
    p.tunnel.Some? ==> StoredConfig(p.secrets) == p.tunnel
  }

  /** A list is shown only beside the true choice. */
  predicate ShowsTruth(p: Phone) {
    !p.ui.signedOut && p.ui.devices.Some? ==> p.ui.selected == Selected(p.secrets)
  }

  predicate Sound(p: Phone) {
    Whole(p.secrets) && RunsStored(p) && ShowsTruth(p)
  }

  /** A call changes tokens only. */
  lemma CallKeeps<T>(s: Secrets, t: Tries<T>)
    ensures var s' := Authorized(s, t).0;
      && Selected(s) == Selected(s') && StoredConfig(s) == StoredConfig(s') && (Whole(s) ==> Whole(s'))
      && (DeviceId in s <==> DeviceId in s') && (DeviceId in s ==> s[DeviceId] == s'[DeviceId])
  {
  }

  /** Against a list a whole choice is kept with its config, or forgotten. */
  lemma ComparedKeeps(s: Secrets, devices: seq<Device>)
    requires Whole(s)
    ensures var s' := Compared(s, devices);
      && Whole(s') && (StoredConfig(s') == StoredConfig(s) || Selected(s').None?)
      && (Selected(s').Some? ==> Selected(s).Some?)
  {
  }

  // ---------------------------------------------------------------- a choice found gone

  /** What is chosen, and its config. */
  datatype Choice = Choice(device: Option<Device>, conf: Option<string>)

  function ChoiceOf(s: Secrets): Choice {
    Choice(Selected(s), StoredConfig(s))
  }

  /** The list is answered, and without the device that is stored. */
  predicate Gone(s: Secrets, list: Tries<seq<Device>>) {
    Selected(s).Some? && var a := Authorized(s, list).1; a.Ok? && Find(a.value, s[DeviceId]).None?
  }

  /** The profile is answered with access, then the list without the device that is stored. */
  predicate FindsGone(s: Secrets, r: Replies) {
    var (after, access) := Authorized(s, r.profile);
    access == Ok(true) && Gone(after, r.list)
  }

  lemma ListForgetsExactly(s: Secrets, list: Tries<seq<Device>>)
    requires Whole(s)
    ensures Selected(Devices(s, list).0).None? <==> Selected(s).None? || Gone(s, list)
  {
    CallKeeps(s, list);
  }

  /** A load leaves no choice exactly when there was none or the answers no longer have it. */
  lemma LoadForgetsExactly(p: Phone, r: Replies)
    requires Whole(p.secrets)
    ensures Selected(Load(p, r).secrets).None? <==> Selected(p.secrets).None? || FindsGone(p.secrets, r)
  {
    CallKeeps(p.secrets, r.profile);
    ListForgetsExactly(Authorized(p.secrets, r.profile).0, r.list);
  }

  /** With the tunnel up, a load forgets the config before it brings the tunnel down. */
  predicate LoadExposes(p: Phone, r: Replies) {
    p.tunnel.Some? && FindsGone(p.secrets, r)
  }

  predicate FailExposes(p: Phone, e: Error, again: Replies) {
    e == NotFound && LoadExposes(p, again)
  }

  predicate UseExposes(p: Phone, d: Device, config: Tries<string>, again: Replies) {
    var (s, a) := Select(p.secrets, config, d);
    a.Failed? && FailExposes(p.(secrets := s), a.error, again)
  }

  /** The new device's choice, or the load that ends it. */
  predicate AdoptExposes(p: Phone, d: Device, config: Tries<string>, again: Replies, last: Replies) {
    var q := Adopt(p, d, config, again);
    UseExposes(p, d, config, again) || (!q.ui.signedOut && LoadExposes(q, last))
  }

  predicate AddExposes(p: Phone, added: Tries<Device>, config: Tries<string>, again: Replies, last: Replies) {
    var (s, a) := Authorized(p.secrets, added);
    var q := p.(secrets := s);
    if a.Ok? then AdoptExposes(q, a.value, config, again, last) else FailExposes(q, a.error, again)
  }

  predicate TrialExposes(p: Phone, started: Tries<Device>, config: Tries<string>, again: Replies, last: Replies) {
    var (s, a) := Authorized(p.secrets, started);
    var q := p.(secrets := s);
    if a.Ok? then AdoptExposes(q, a.value, config, again, last)
    else if a.error == Conflict then !q.ui.signedOut && LoadExposes(q, last)
    else FailExposes(q, a.error, again)
  }

  predicate RenameExposes(p: Phone, d: Device, renamed: Tries<Device>, again: Replies, last: Replies) {
    var (s, a) := RenameDevice(p.secrets, renamed, d.id);
    var q := p.(secrets := s);
    if a.Ok? then LoadExposes(q, last) else FailExposes(q, a.error, again)
  }

  predicate DeleteExposes(p: Phone, d: Device, removed: Tries<()>, again: Replies, last: Replies) {
    var (s, a) := DeleteDevice(p.secrets, removed, d.id);
    var q := Phone(s, if OnThisPhone(p, d) then None else p.tunnel, p.ui);
    if a.Ok? then LoadExposes(q, last) else FailExposes(q, a.error, again)
  }

  /** A phone connected on a device removed elsewhere: a load forgets it with the tunnel still up. */
  lemma LoadFindsGone()
    ensures var p := Phone(map[Token := "t", DeviceId := "a", DeviceName := "phone", Conf := "c"], Some("c"), Ui(None, None, false));
      var r := Replies(Tries(Ok(true), Failed(Other), Failed(Other)), Tries(Ok([Device("b", "other")]), Failed(Other), Failed(Other)));
      && Sound(p) && LoadExposes(p, r)
      && Selected(Load(p, r).secrets).None? && Load(p, r).tunnel.None?
  {
    var s: Secrets := map[Token := "t", DeviceId := "a", DeviceName := "phone", Conf := "c"];
    var p := Phone(s, Some("c"), Ui(None, None, false));
    var r := Replies(Tries(Ok(true), Failed(Other), Failed(Other)), Tries(Ok([Device("b", "other")]), Failed(Other), Failed(Other)));
    assert Find([Device("b", "other")], "a") == Find([], "a");
    LoadForgetsExactly(p, r);
    LoadSound(p, r);
  }

  lemma LoadDevicesSound(p: Phone, had: Option<Device>, list: Tries<seq<Device>>)
    requires Whole(p.secrets) && RunsStored(p) && had == Selected(p.secrets) == p.ui.selected
    ensures Sound(LoadDevices(p, had, list))
  {
    CallKeeps(p.secrets, list);
    var (s, a) := Authorized(p.secrets, list);
    if a.Ok? {
      ComparedKeeps(s, a.value);
    }
  }

  /** A load makes the screen true again, whatever it showed before. */
  lemma LoadSound(p: Phone, r: Replies)
    requires Whole(p.secrets) && RunsStored(p)
    ensures Sound(Load(p, r))
  {
    CallKeeps(p.secrets, r.profile);
    var (s, a) := Authorized(p.secrets, r.profile);
    if a == Ok(true) {
      LoadDevicesSound(Phone(s, p.tunnel, p.ui.(selected := Selected(p.secrets))), Selected(p.secrets), r.list);
    }
  }

  lemma FailSound(p: Phone, e: Error, again: Replies)
    requires Sound(p)
    ensures Sound(Fail(p, e, again))
  {
    LoadSound(p, again);
  }

  lemma SelectKeeps(s: Secrets, t: Tries<string>, d: Device)
    requires Whole(s)
    ensures var (s', a) := Select(s, t, d);
      Whole(s') && (a.Ok? ==> Selected(s') == Some(d)) && (!a.Ok? ==> Selected(s') == Selected(s) && StoredConfig(s') == StoredConfig(s))
  {
  }

  lemma UseSound(p: Phone, d: Device, config: Tries<string>, again: Replies)
    requires Sound(p)
    ensures Sound(Use(p, d, config, again))
  {
    SelectKeeps(p.secrets, config, d);
    var (s, a) := Select(p.secrets, config, d);
    if a.Failed? {
      FailSound(p.(secrets := s), a.error, again);
    }
  }

  lemma AdoptSound(p: Phone, d: Device, config: Tries<string>, again: Replies)
    requires Sound(p)
    ensures var q := Adopt(p, d, config, again);
      Whole(q.secrets) && RunsStored(q) && (Select(p.secrets, config, d).1.Failed? ==> Sound(q))
  {
    SelectKeeps(p.secrets, config, d);
    var (s, a) := Select(p.secrets, config, d);
    if a.Failed? {
      FailSound(p.(secrets := s), a.error, again);
    }
  }

  /** `add` and `startTrial` end with a load, or signed out. */
  lemma AdoptThenLoadSound(p: Phone, d: Device, config: Tries<string>, again: Replies, last: Replies)
    requires Sound(p)
    ensures Sound(LoadUnlessOut(Adopt(p, d, config, again), last))
  {
    AdoptSound(p, d, config, again);
    LoadSound(Adopt(p, d, config, again), last);
  }

  lemma AddSound(p: Phone, added: Tries<Device>, config: Tries<string>, again: Replies, last: Replies)
    requires Sound(p)
    ensures Sound(Add(p, added, config, again, last)) && Sound(StartTrial(p, added, config, again, last))
  {
    CallKeeps(p.secrets, added);
    var (s, a) := Authorized(p.secrets, added);
    var q := p.(secrets := s);
    if a.Ok? {
      AdoptThenLoadSound(q, a.value, config, again, last);
    } else {
      FailSound(q, a.error, again);
      LoadSound(q, last);
    }
  }

  lemma RenameSound(p: Phone, d: Device, renamed: Tries<Device>, again: Replies, last: Replies)
    requires Sound(p)
    ensures Sound(Rename(p, d, renamed, again, last))
  {
    CallKeeps(p.secrets, renamed);
    var (s, a) := RenameDevice(p.secrets, renamed, d.id);
    var q := p.(secrets := s);
    if a.Ok? {
      LoadSound(Refreshed(q), last);
    } else {
      FailSound(q, a.error, again);
    }
  }

  /** The removal was confirmed for the very device whose config is stored. */
  predicate RemovesOwn(p: Phone, d: Device, removed: Tries<()>) {
    DeleteDevice(p.secrets, removed, d.id).1.Ok? && Selected(p.secrets).Some? && Selected(p.secrets).value.id == d.id
  }

  lemma DeleteKeeps(p: Phone, d: Device, removed: Tries<()>)
    requires Whole(p.secrets)
    ensures var (s, a) := DeleteDevice(p.secrets, removed, d.id);
      && Whole(s)
      && (if RemovesOwn(p, d, removed) then Selected(s).None? else Selected(s) == Selected(p.secrets) && StoredConfig(s) == StoredConfig(p.secrets))
  {
  }

  lemma NothingToStop(p: Phone, r: Replies)
    requires Whole(p.secrets) && Selected(p.secrets).None?
    ensures Load(p, r).tunnel == p.tunnel && Selected(Load(p, r).secrets).None?
  {
  }

  /**
   * A removal keeps the tunnel on a stored config exactly when the screen knew the removed
   * device as this phone's, or nothing ran, or it was not this phone's device after all.
   */
  lemma DeleteExactly(p: Phone, d: Device, removed: Tries<()>, again: Replies, last: Replies)
    requires Whole(p.secrets) && RunsStored(p)
    ensures RunsStored(Delete(p, d, removed, again, last)) <==>
      (RemovesOwn(p, d, removed) && p.tunnel.Some? ==> OnThisPhone(p, d))
  {
    DeleteKeeps(p, d, removed);
    var (s, a) := DeleteDevice(p.secrets, removed, d.id);
    var q := Phone(s, if OnThisPhone(p, d) then None else p.tunnel, p.ui);
    if a.Failed? {
      LoadSound(q, again);
    } else if RemovesOwn(p, d, removed) {
      NothingToStop(Refreshed(q), last);
    } else {
      LoadSound(Refreshed(q), last);
    }
  }

  lemma DeleteSound(p: Phone, d: Device, removed: Tries<()>, again: Replies, last: Replies)
    requires Sound(p) && !p.ui.signedOut && p.ui.devices.Some?
    ensures Sound(Delete(p, d, removed, again, last))
  {
    DeleteKeeps(p, d, removed);
    var (s, a) := DeleteDevice(p.secrets, removed, d.id);
    var q := Phone(s, if OnThisPhone(p, d) then None else p.tunnel, p.ui);
    if a.Ok? {
      LoadSound(Refreshed(q), last);
    } else {
      FailSound(q, a.error, again);
    }
  }

  lemma StepSound(p: Phone, op: Op)
    requires Sound(p) && Offered(p, op)
    ensures Sound(Step(p, op))
  {
    match op
    case Loading(r) => LoadSound(p, r);
    case Using(d, config, again) => UseSound(p, d, config, again);
    case Adding(added, config, again, last) => AddSound(p, added, config, again, last);
    case Trial(started, config, again, last) => AddSound(p, started, config, again, last);
    case Renaming(d, renamed, again, last) => RenameSound(p, d, renamed, again, last);
    case Deleting(d, removed, again, last) => DeleteSound(p, d, removed, again, last);
    case _ =>
  }

  /** After any sequence of operations a running tunnel runs the stored config of a stored choice. */
  lemma {:induction false} TunnelAlwaysStored(ops: seq<Op>)
    requires Possible(ops)
    ensures Sound(Exec(ops))
  {
    if ops != [] {
      TunnelAlwaysStored(ops[..|ops| - 1]);
      StepSound(Exec(ops[..|ops| - 1]), ops[|ops| - 1]);
    }
  }

  /** A choice made with the tunnel up ends with the tunnel on the config fetched. */
  lemma ChoosingMovesTheTunnel(p: Phone, d: Device, config: Tries<string>, again: Replies)
    requires p.tunnel.Some? && Select(p.secrets, config, d).1.Ok?
    ensures var q := Use(p, d, config, again);
      && Selected(q.secrets) == Some(d) && q.ui.selected == Some(d)
      && q.tunnel == Some(Authorized(p.secrets, config).1.value)
  {
  }

  /** A removal asked for before the list was ever loaded can leave the tunnel up with nothing stored. */
  lemma DeleteBeforeLoad()
    ensures var d := Device("a", "phone");
      var yes := Tries(Ok(()), Failed(Other), Ok(()));
      var no := Replies(Tries(Failed(Other), Failed(Other), Failed(Other)), Tries(Failed(Other), Failed(Other), Failed(Other)));
      var p := Phone(map[Token := "t", DeviceId := "a", DeviceName := "phone", Conf := "c"], Some("c"), Ui(None, None, false));
      Sound(p) && !RunsStored(Delete(p, d, yes, no, no))
  {
  }

  // ---------------------------------------------------------------- what the answers do, on the strings

  /** The first of a list with an id. */
  lemma {:induction false} FindFirst(devices: seq<Device>, id: string)
    ensures Find(devices, id).None? <==> forall i :: 0 <= i < |devices| ==> devices[i].id != id
    ensures Find(devices, id).Some? ==>
      exists i :: 0 <= i < |devices| && Find(devices, id) == Some(devices[i]) && devices[i].id == id
        && forall j :: 0 <= j < i ==> devices[j].id != id
  {
    if devices != [] && devices[0].id != id {
      FindFirst(devices[1..], id);
      if Find(devices, id).Some? {
        var i :| 0 <= i < |devices[1..]| && Find(devices[1..], id) == Some(devices[1..][i])
          && forall j :: 0 <= j < i ==> devices[1..][j].id != id;
        assert devices[i + 1] == devices[1..][i];
        assert forall j :: 1 <= j < i + 1 ==> devices[j] == devices[1..][j - 1];
      }
    }
  }

  /** A list that has this phone's device gives it the name it has there; its id and config stay. */
  lemma ListRenames(s: Secrets, t: Tries<seq<Device>>)
    requires Whole(s) && Selected(s).Some? && Authorized(s, t).1.Ok?
    ensures var d, listed := Selected(s).value, Authorized(s, t).1.value;
      Find(listed, d.id).Some? ==>
        ChoiceOf(Devices(s, t).0) == Choice(Some(Device(d.id, Find(listed, d.id).value.name)), StoredConfig(s))
  {
    CallKeeps(s, t);
    FindFirst(Authorized(s, t).1.value, s[DeviceId]);
  }

  lemma ContainsIsInside(s: string, part: string)
    ensures Contains(s, part) <==> exists a, b :: s == a + part + b
  {
    if i :| 0 <= i <= |s| && part <= s[i..] {
      assert s == s[..i] + part + s[i + |part|..];
    }
    if a, b :| s == a + part + b {
      assert s[|a|..] == part + b;
    }
  }

  /** An answer is kept as the new choice if and only if it has both marks of a config in it. */
  lemma ChosenExactly(s: Secrets, t: Tries<string>, d: Device)
    requires Whole(s)
    ensures var (after, a), reply := Select(s, t, d), Authorized(s, t).1;
      && (a.Ok? <==> reply.Ok? && (exists x, y :: reply.value == x + "[Interface]" + y) && (exists x, y :: reply.value == x + "PrivateKey" + y))
      && (a.Ok? ==> ChoiceOf(after) == Choice(Some(d), Some(reply.value)))
      && (a.Failed? ==> ChoiceOf(after) == ChoiceOf(s))
      && (reply.Failed? ==> a == Failed(reply.error))
  {
    CallKeeps(s, t);
    var reply := Authorized(s, t).1;
    if reply.Ok? {
      ContainsIsInside(reply.value, "[Interface]");
      ContainsIsInside(reply.value, "PrivateKey");
    }
  }

  /**
   * A removal counts as done when the portal confirms it or does not know the device,
   * and only then, and only for this phone's own device, is the choice forgotten.
   */
  lemma RemovalExactly(s: Secrets, t: Tries<()>, id: string)
    requires Whole(s)
    ensures var (after, a), reply := DeleteDevice(s, t, id), Authorized(s, t).1;
      && (reply.Ok? ==> a.Ok?)
      && (a.Ok? ==> reply.Ok? || reply == Failed(NotFound))
      && (Token in s && t.first == Failed(NotFound) ==> a.Ok?)
      && (a.Failed? ==> a == Failed(reply.error))
      && (ChoiceOf(after) == if a.Ok? && Selected(s).Some? && Selected(s).value.id == id then Choice(None, None) else ChoiceOf(s))
  {
    CallKeeps(s, t);
    CallKeeps(s, Tries(Lenient(t.first), t.renewal, Lenient(t.second)));
  }

  /** The button runs the stored config of the stored choice, and nothing without one. */
  lemma ConnectRuns(p: Phone)
    ensures Connect(p) == if Selected(p.secrets).Some? then p.(tunnel := Some(p.secrets[Conf])) else p
  {
  }

  // ---------------------------------------------------------------- how long a session lives

  /** The portal refuses neither the renewal nor the token it has just issued. */
  predicate Trusted<T>(t: Tries<T>) {
    t.renewal != Failed(Unauthorized) && t.second != Failed(Unauthorized)
  }

  predicate LoadTrusted(r: Replies) {
    Trusted(r.profile) && Trusted(r.list)
  }

  predicate OpTrusted(op: Op) {
    match op
    case Loading(r) => LoadTrusted(r)
    case Using(_, config, again) => Trusted(config) && LoadTrusted(again)
    case Adding(added, config, again, last) => Trusted(added) && Trusted(config) && LoadTrusted(again) && LoadTrusted(last)
    case Trial(started, config, again, last) => Trusted(started) && Trusted(config) && LoadTrusted(again) && LoadTrusted(last)
    case Renaming(_, renamed, again, last) => Trusted(renamed) && LoadTrusted(again) && LoadTrusted(last)
    case Deleting(_, removed, again, last) => Trusted(removed) && LoadTrusted(again) && LoadTrusted(last)
    case Leaving => false
    case Entering(_, _) => false
    case _ => true
  }

  /** Signed in, with this refresh token. */
  predicate Lives(p: Phone, refresh: string) {
    !p.ui.signedOut && Refresh in p.secrets && p.secrets[Refresh] == refresh
  }

  lemma CallLives<T>(s: Secrets, t: Tries<T>)
    requires Refresh in s && Trusted(t)
    ensures var (after, a) := Authorized(s, t);
      Refresh in after && after[Refresh] == s[Refresh] && a != Failed(Unauthorized)
  {
  }

  lemma LoadLives(p: Phone, r: Replies, refresh: string)
    requires Lives(p, refresh) && LoadTrusted(r)
    ensures Lives(Load(p, r), refresh)
  {
    CallLives(p.secrets, r.profile);
    CallLives(Authorized(p.secrets, r.profile).0, r.list);
  }

  lemma FailLives(p: Phone, e: Error, again: Replies, refresh: string)
    requires Lives(p, refresh) && LoadTrusted(again) && e != Unauthorized
    ensures Lives(Fail(p, e, again), refresh)
  {
    LoadLives(p, again, refresh);
  }

  lemma AdoptLives(p: Phone, d: Device, config: Tries<string>, again: Replies, refresh: string)
    requires Lives(p, refresh) && Trusted(config) && LoadTrusted(again)
    ensures Lives(Adopt(p, d, config, again), refresh) && Lives(Use(p, d, config, again), refresh)
  {
    CallLives(p.secrets, config);
    var (s, a) := Select(p.secrets, config, d);
    if a.Failed? {
      FailLives(p.(secrets := s), a.error, again, refresh);
    }
  }

  lemma AddLives(p: Phone, added: Tries<Device>, config: Tries<string>, again: Replies, last: Replies, refresh: string)
    requires Lives(p, refresh) && Trusted(added) && Trusted(config) && LoadTrusted(again) && LoadTrusted(last)
    ensures Lives(Add(p, added, config, again, last), refresh) && Lives(StartTrial(p, added, config, again, last), refresh)
  {
    CallLives(p.secrets, added);
    var (s, a) := Authorized(p.secrets, added);
    var q := p.(secrets := s);
    if a.Ok? {
      AdoptLives(q, a.value, config, again, refresh);
      LoadLives(Adopt(q, a.value, config, again), last, refresh);
    } else {
      FailLives(q, a.error, again, refresh);
      LoadLives(q, last, refresh);
    }
  }

  lemma RenameLives(p: Phone, d: Device, renamed: Tries<Device>, again: Replies, last: Replies, refresh: string)
    requires Lives(p, refresh) && Trusted(renamed) && LoadTrusted(again) && LoadTrusted(last)
    ensures Lives(Rename(p, d, renamed, again, last), refresh)
  {
    CallLives(p.secrets, renamed);
    var (s, a) := RenameDevice(p.secrets, renamed, d.id);
    var q := p.(secrets := s);
    if a.Ok? {
      LoadLives(Refreshed(q), last, refresh);
    } else {
      FailLives(q, a.error, again, refresh);
    }
  }

  lemma DeleteLives(p: Phone, d: Device, removed: Tries<()>, again: Replies, last: Replies, refresh: string)
    requires Lives(p, refresh) && Trusted(removed) && LoadTrusted(again) && LoadTrusted(last)
    ensures Lives(Delete(p, d, removed, again, last), refresh)
  {
    CallLives(p.secrets, Tries(Lenient(removed.first), removed.renewal, Lenient(removed.second)));
    var (s, a) := DeleteDevice(p.secrets, removed, d.id);
    var q := Phone(s, if OnThisPhone(p, d) then None else p.tunnel, p.ui);
    if a.Ok? {
      LoadLives(Refreshed(q), last, refresh);
    } else {
      FailLives(q, a.error, again, refresh);
    }
  }

  /**
   * Whatever else fails, network, list or a device gone, a session stays signed in
   * with its refresh token until its owner leaves or the portal refuses it.
   */
  lemma SessionSurvives(p: Phone, op: Op, refresh: string)
    requires Lives(p, refresh) && OpTrusted(op)
    ensures Lives(Step(p, op), refresh)
  {
    match op
    case Loading(r) => LoadLives(p, r, refresh);
    case Using(d, config, again) => AdoptLives(p, d, config, again, refresh);
    case Adding(added, config, again, last) => AddLives(p, added, config, again, last, refresh);
    case Trial(started, config, again, last) => AddLives(p, started, config, again, last, refresh);
    case Renaming(d, renamed, again, last) => RenameLives(p, d, renamed, again, last, refresh);
    case Deleting(d, removed, again, last) => DeleteLives(p, d, removed, again, last, refresh);
    case _ =>
  }

  /** A refused session ends at once: no token is left, and the account screens are signed out. */
  lemma RefusalEnds(p: Phone, r: Replies)
    requires !p.ui.signedOut && (Token in p.secrets ==> r.profile.first == Failed(Unauthorized))
    requires Refresh in p.secrets ==> r.profile.renewal == Failed(Unauthorized)
    ensures var q := Load(p, r); q.ui.signedOut && Token !in q.secrets && Refresh !in q.secrets
  {
  }
}
