/**
 * The same session and account as a program that updates its store, tunnel and screen in place.
 * Every write goes through a recorded step, so that the order of writes is part of the contracts.
 */
module PhoneApp {
  import opened Common
  import opened PhoneSession

  /** The store and the tunnel right after a write, or when a removal is asked for. */
  datatype Moment = Moment(secrets: Secrets, tunnel: Option<string>, asked: Option<string>)

  /** The tunnel runs and the config it needs to run again is gone. */
  predicate Exposed(m: Moment) {
    m.tunnel.Some? && StoredConfig(m.secrets).None?
  }

  /** Some moment since `before` is exposed. */
  ghost predicate Exposes(before: seq<Moment>, after: seq<Moment>) {
    exists i :: |before| <= i < |after| && Exposed(after[i])
  }

  /** The tunnel runs on another config than the one stored. */
  predicate Behind(m: Moment) {
    m.tunnel.Some? && StoredConfig(m.secrets) != m.tunnel
  }

  /** All moments since `before` have this tunnel, one of these two choices, and ask for no removal. */
  ghost predicate Steady(before: seq<Moment>, after: seq<Moment>, tunnel: Option<string>, choice: Choice, other: Choice) {
    && before <= after
    && forall i :: |before| <= i < |after| ==>
      after[i].tunnel == tunnel && after[i].asked.None?
      && (ChoiceOf(after[i].secrets) == choice || ChoiceOf(after[i].secrets) == other)
  }

  lemma SteadyThen(a: seq<Moment>, b: seq<Moment>, c: seq<Moment>, tunnel: Option<string>, choice: Choice, other: Choice)
    requires Steady(a, b, tunnel, choice, choice) && Steady(b, c, tunnel, choice, other)
    ensures Steady(a, c, tunnel, choice, other)
  {
  }

  /** Going from a config to none with the tunnel up is seen in the moments between. */
  lemma SteadyExposes(before: seq<Moment>, after: seq<Moment>, tunnel: Option<string>, choice: Choice, other: Choice)
    requires Steady(before, after, tunnel, choice, other) && (tunnel.Some? ==> choice.conf.Some?)
    requires choice != other ==> |before| < |after| && ChoiceOf(after[|after| - 1].secrets) == other
    ensures Exposes(before, after) <==> tunnel.Some? && other.conf.None?
  {
    if choice != other {
      assert after[|after| - 1].tunnel == tunnel;
    }
  }

  lemma ExposesThen(a: seq<Moment>, b: seq<Moment>, c: seq<Moment>)
    requires a <= b <= c
    ensures Exposes(a, c) <==> Exposes(a, b) || Exposes(b, c)
  {
  }

  // ---------------------------------------------------------------- writing a choice

  /** The moments of a choice being written. */
  function Writes(s: Secrets, tunnel: Option<string>, conf: string, d: Device): seq<Moment> {
    var first := s[Conf := conf];
    var second := first[DeviceName := d.name];
    [Moment(first, tunnel, None), Moment(second, tunnel, None), Moment(second[DeviceId := d.id], tunnel, None)]
  }

  /** The id that is stored and the config that goes with it. */
  function Keyed(s: Secrets): Option<(string, string)> {
    if Selected(s).Some? then Some((s[DeviceId], s[Conf])) else None
  }

  /** No choice, or a device with its own config: the one before or the one after. */
  predicate Coherent(s: Secrets, before: Secrets, after: Secrets) {
    Keyed(s).None? || Keyed(s) == Keyed(before) || Keyed(s) == Keyed(after)
  }

  /**
   * What each write leaves: first the old choice over the new config, then the old id
   * under the new name, at last the new choice; and no choice before the last when
   * there was none.
   */
  lemma WritesLeave(s: Secrets, tunnel: Option<string>, conf: string, d: Device)
    requires Whole(s)
    ensures var w, had := Writes(s, tunnel, conf, d), Selected(s);
      && ChoiceOf(w[0].secrets) == Choice(had, if had.Some? then Some(conf) else None)
      && ChoiceOf(w[1].secrets) == (if had.Some? then Choice(Some(Device(had.value.id, d.name)), Some(conf)) else Choice(None, None))
      && ChoiceOf(w[2].secrets) == Choice(Some(d), Some(conf))
  {
  }

  /** Every moment of it has a device with its own config exactly when no other device was chosen before, or on the same config. */
  lemma WritesCoherentExactly(s: Secrets, tunnel: Option<string>, conf: string, d: Device)
    requires Whole(s)
    ensures var w := Writes(s, tunnel, conf, d);
      (forall i :: 0 <= i < 3 ==> Coherent(w[i].secrets, s, w[2].secrets)) <==>
      Selected(s).None? || Selected(s).value.id == d.id || StoredConfig(s) == Some(conf)
  {
    var w := Writes(s, tunnel, conf, d);
    WritesLeave(s, tunnel, conf, d);
    if Selected(s).Some? {
      assert Keyed(w[0].secrets) == Some((s[DeviceId], conf));
    }
  }

  /** Another device chosen over a stored one: after the first write the old id has the new config. */
  lemma HalfChosen()
    ensures var s: Secrets := map[DeviceId := "a", DeviceName := "phone", Conf := "old"];
      var half := Writes(s, None, "new", Device("b", "laptop"))[0].secrets;
      Selected(half) == Some(Device("a", "phone")) && StoredConfig(half) == Some("new")
  {
  }

  ghost predicate AsksNothing(before: seq<Moment>, after: seq<Moment>) {
    before <= after && forall i :: |before| <= i < |after| ==> after[i].asked.None?
  }

  method Contained(s: string, part: string) returns (r: bool)
    ensures r == Contains(s, part)
  {
    r := false;
    for i := 0 to |s| + 1
      invariant r <==> exists j :: 0 <= j < i && part <= s[j..]
    {
      if part <= s[i..] {
        r := true;
      }
    }
  }

  /** Some moment since `before` has the tunnel on another config than the one stored. */
  ghost predicate Lags(before: seq<Moment>, after: seq<Moment>) {
    exists i :: |before| <= i < |after| && Behind(after[i])
  }

  /** Since `before` nothing but tokens was written, and then the choice of `d` over `s`. */
  ghost predicate Chosen(before: seq<Moment>, after: seq<Moment>, s: Secrets, tunnel: Option<string>, conf: string, d: Device) {
    && |before| + 3 <= |after|
    && Steady(before, after[..|after| - 3], tunnel, ChoiceOf(s), ChoiceOf(s))
    && after[|after| - 3..] == Writes(s, tunnel, conf, d)
  }

  lemma ChosenMoments(before: seq<Moment>, called: seq<Moment>, s: Secrets, tunnel: Option<string>, conf: string, d: Device)
    requires Whole(s) && Steady(before, called, tunnel, ChoiceOf(s), ChoiceOf(s)) && (tunnel.Some? ==> StoredConfig(s) == tunnel)
    ensures var after := called + Writes(s, tunnel, conf, d);
      && Chosen(before, after, s, tunnel, conf, d)
      && AsksNothing(before, after) && !Exposes(before, after)
      && (Lags(before, after) <==> tunnel.Some? && tunnel != Some(conf))
  {
    var w := Writes(s, tunnel, conf, d);
    var after := called + w;
    WritesLeave(s, tunnel, conf, d);
    assert after[..|after| - 3] == called && after[|after| - 3..] == w;
    assert forall i :: 0 <= i < |called| ==> after[i] == called[i];
    assert after[|called|] == w[0] && after[|called| + 1] == w[1] && after[|called| + 2] == w[2];
    if tunnel.Some? && tunnel != Some(conf) {
      assert Behind(after[|called|]);
    }
  }

  class Handset {
    var secrets: Secrets
    var tunnel: Option<string>
    var ui: Ui
    /** What the store and the tunnel have been, write by write. */
    ghost var trace: seq<Moment>

    function Value(): Phone
      reads this
    {
      Phone(secrets, tunnel, ui)
    }

    /** No write went unrecorded. */
    ghost predicate Recorded()
      reads this
    {
      trace != [] && trace[|trace| - 1].secrets == secrets && trace[|trace| - 1].tunnel == tunnel
    }

    ghost predicate Valid()
      reads this
    {
      Recorded() && Sound(Value())
    }

    constructor ()
      ensures Valid() && Value() == NEW_PHONE
    {
      secrets, tunnel, ui := map[], None, Ui(None, None, true);
      trace := [Moment(map[], None, None)];
    }

    // -------------------------------------------------------------- recorded writes

    method Put(slot: Slot, value: string)
      requires Recorded()
      modifies this`secrets, this`trace
      ensures Recorded() && secrets == old(secrets)[slot := value] && trace == old(trace) + [Moment(secrets, tunnel, None)]
    {
      secrets := secrets[slot := value];
      trace := trace + [Moment(secrets, tunnel, None)];
    }

    method Drop(slot: Slot)
      requires Recorded()
      modifies this`secrets, this`trace
      ensures Recorded() && secrets == old(secrets) - {slot} && trace == old(trace) + [Moment(secrets, tunnel, None)]
    {
      secrets := secrets - {slot};
      trace := trace + [Moment(secrets, tunnel, None)];
    }

    method Clear()
      requires Recorded()
      modifies this`secrets, this`trace
      ensures Recorded() && secrets == map[] && trace == old(trace) + [Moment(secrets, tunnel, None)]
    {
      secrets := map[];
      trace := trace + [Moment(secrets, tunnel, None)];
    }

    method Up(conf: string)
      requires Recorded()
      modifies this`tunnel, this`trace
      ensures Recorded() && tunnel == Some(conf) && trace == old(trace) + [Moment(secrets, tunnel, None)]
    {
      tunnel := Some(conf);
      trace := trace + [Moment(secrets, tunnel, None)];
    }

    method Down()
      requires Recorded()
      modifies this`tunnel, this`trace
      ensures Recorded() && tunnel == None && trace == old(trace) + [Moment(secrets, tunnel, None)]
    {
      tunnel := None;
      trace := trace + [Moment(secrets, tunnel, None)];
    }

    /** The moment a removal is asked for. */
    ghost method Ask(id: string)
      requires Recorded()
      modifies this`trace
      ensures Recorded() && trace == old(trace) + [Moment(secrets, tunnel, Some(id))]
    {
      trace := trace + [Moment(secrets, tunnel, Some(id))];
    }

    // -------------------------------------------------------------- the session

    method Call<T(==)>(t: Tries<T>) returns (a: Answer<T>)
      requires Recorded()
      modifies this`secrets, this`trace
      ensures Recorded() && secrets == Authorized(old(secrets), t).0 && a == Authorized(old(secrets), t).1
      ensures Steady(old(trace), trace, tunnel, ChoiceOf(old(secrets)), ChoiceOf(old(secrets)))
    {
      if Token in secrets {
        a := t.first;
        if a != Failed(Unauthorized) {
          return;
        }
        Drop(Token);
      } else {
        assert secrets - {Token} == secrets;
      }
      var token := Renew(t.renewal);
      if token.Failed? {
        return Failed(token.error);
      }
      a := t.second;
      if a == Failed(Unauthorized) {
        Drop(Token);
      }
    }

    method Renew(reply: Answer<string>) returns (a: Answer<string>)
      requires Recorded()
      modifies this`secrets, this`trace
      ensures Recorded() && a == if Refresh in old(secrets) then reply else Failed(Unauthorized)
      ensures secrets ==
        if a.Ok? then old(secrets)[Token := a.value]
        else if a == Failed(Unauthorized) then old(secrets) - {Refresh} else old(secrets)
      ensures Steady(old(trace), trace, tunnel, ChoiceOf(old(secrets)), ChoiceOf(old(secrets)))
    {
      if Refresh !in secrets {
        assert secrets - {Refresh} == secrets;
        return Failed(Unauthorized);
      }
      a := reply;
      if a.Ok? {
        Put(Token, a.value);
      } else if a.error == Unauthorized {
        Drop(Refresh);
      }
    }

    /** The id goes first: from then on there is no choice. */
    method ForgetSelection()
      requires Recorded()
      modifies this`secrets, this`trace
      ensures Recorded() && secrets == Forgotten(old(secrets))
      ensures Steady(old(trace), trace, tunnel, Choice(None, None), Choice(None, None))
    {
      Drop(DeviceId);
      Drop(DeviceName);
      Drop(Conf);
    }

    method ListDevices(t: Tries<seq<Device>>) returns (a: Answer<seq<Device>>)
      requires Recorded()
      modifies this`secrets, this`trace
      ensures Recorded() && secrets == Devices(old(secrets), t).0 && a == Devices(old(secrets), t).1
      ensures old(trace) <= trace
      ensures old(Whole(secrets)) ==> Steady(old(trace), trace, tunnel, ChoiceOf(old(secrets)), ChoiceOf(secrets))
    {
      CallKeeps(secrets, t);
      a := Call(t);
      ghost var called := trace;
      if a.Ok? && DeviceId in secrets {
        var current := Find(a.value, secrets[DeviceId]);
        if current.None? {
          ForgetSelection();
        } else if DeviceName !in secrets || secrets[DeviceName] != current.value.name {
          Put(DeviceName, current.value.name);
        } else {
          assert secrets[DeviceName := current.value.name] == secrets;
        }
      }
      if old(Whole(secrets)) {
        SteadyThen(old(trace), called, trace, tunnel, ChoiceOf(old(secrets)), ChoiceOf(secrets));
      }
    }

    /**
     * `select`: the config and the name, then the id. A running tunnel's config is never
     * gone, but until the tunnel follows it is not the one that is stored; and until the
     * id is written, the id of another device stands over the new config.
     */
    method Choose(t: Tries<string>, d: Device) returns (a: Answer<()>)
      requires Recorded() && Whole(secrets) && RunsStored(Value())
      modifies this`secrets, this`trace
      ensures Recorded() && secrets == Select(old(secrets), t, d).0 && a == Select(old(secrets), t, d).1
      ensures AsksNothing(old(trace), trace) && !Exposes(old(trace), trace)
      ensures a.Failed? ==> Steady(old(trace), trace, tunnel, ChoiceOf(old(secrets)), ChoiceOf(old(secrets)))
      ensures a.Ok? ==> Chosen(old(trace), trace, Authorized(old(secrets), t).0, tunnel, Authorized(old(secrets), t).1.value, d)
      ensures a.Ok? ==> (Lags(old(trace), trace) <==> tunnel.Some? && StoredConfig(secrets) != tunnel)
    {
      CallKeeps(secrets, t);
      var conf := Call(t);
      if conf.Failed? {
        return Failed(conf.error);
      }
      var section := Contained(conf.value, "[Interface]");
      var key := Contained(conf.value, "PrivateKey");
      if !section || !key {
        return Failed(Other);
      }
      ghost var called := trace;
      ghost var s := secrets;
      Keep(conf.value, d);
      ChosenMoments(old(trace), called, s, tunnel, conf.value, d);
      a := Ok(());
    }

    /** The three writes of a choice. */
    method Keep(conf: string, d: Device)
      requires Recorded()
      modifies this`secrets, this`trace
      ensures Recorded() && secrets == old(secrets)[Conf := conf][DeviceName := d.name][DeviceId := d.id]
      ensures trace == old(trace) + Writes(old(secrets), tunnel, conf, d)
    {
      Put(Conf, conf);
      Put(DeviceName, d.name);
      Put(DeviceId, d.id);
    }

    // -------------------------------------------------------------- the account

    /**
     * `load`. The session forgets a choice the list no longer has before the tunnel is
     * brought down, so the phone is exposed in between, and only then.
     */
    method Load(r: Replies)
      requires Recorded()
      modifies this
      ensures Recorded() && Value() == PhoneSession.Load(old(Value()), r) && old(trace) <= trace
      ensures old(Whole(secrets) && RunsStored(Value())) ==> Sound(Value()) && AsksNothing(old(trace), trace)
      ensures old(Whole(secrets) && RunsStored(Value())) ==>
        (Exposes(old(trace), trace) <==> LoadExposes(old(Value()), r))
    {
      if Whole(secrets) && RunsStored(Value()) {
        LoadSound(Value(), r);
      }
      CallKeeps(secrets, r.profile);
      var had := Selected(secrets);
      ui := ui.(selected := had);
      var profile := Call(r.profile);
      if profile.Failed? {
        if profile.error == Unauthorized {
          ui := ui.(signedOut := true);
        }
      } else if !profile.value {
        ui := ui.(devices := None);
      } else {
        ghost var called := trace;
        LoadList(had, r.list);
        ExposesThen(old(trace), called, trace);
      }
    }

    /** The second half of `load`: the account's list, and the tunnel down when the choice is gone. */
    method LoadList(had: Option<Device>, list: Tries<seq<Device>>)
      requires Recorded() && had == Selected(secrets)
      modifies this
      ensures Recorded() && Value() == LoadDevices(old(Value()), had, list) && old(trace) <= trace
      ensures old(Whole(secrets) && RunsStored(Value())) ==> AsksNothing(old(trace), trace)
      ensures old(Whole(secrets) && RunsStored(Value())) ==>
        (Exposes(old(trace), trace) <==> old(tunnel).Some? && Gone(old(secrets), list))
    {
      CallKeeps(secrets, list);
      if Whole(secrets) {
        ListForgetsExactly(secrets, list);
      }
      var a := ListDevices(list);
      ghost var listed := trace;
      if old(Whole(secrets) && RunsStored(Value())) {
        SteadyExposes(old(trace), listed, tunnel, ChoiceOf(old(secrets)), ChoiceOf(secrets));
      }
      if a.Failed? {
        ui := ui.(devices := None);
        if a.error == Unauthorized {
          ui := ui.(signedOut := true);
        }
        return;
      }
      var now := Selected(secrets);
      if had.Some? && now.None? {
        Down();
        ExposesThen(old(trace), listed, trace);
      }
      ui := ui.(devices := Some(a.value), selected := now);
    }

    method Fail(e: Error, again: Replies)
      requires Recorded()
      modifies this
      ensures Recorded() && Value() == PhoneSession.Fail(old(Value()), e, again) && old(trace) <= trace
      ensures old(Whole(secrets) && RunsStored(Value())) ==>
        Whole(secrets) && RunsStored(Value()) && AsksNothing(old(trace), trace)
      ensures old(Whole(secrets) && RunsStored(Value())) ==>
        (Exposes(old(trace), trace) <==> FailExposes(old(Value()), e, again))
    {
      if e == Unauthorized {
        ui := ui.(signedOut := true);
      } else if e == NotFound {
        Load(again);
      }
    }

    method FollowSelection()
      requires Recorded()
      modifies this`tunnel, this`trace
      ensures Recorded() && Value() == Follow(old(Value()))
      ensures AsksNothing(old(trace), trace) && !Exposes(old(trace), trace)
    {
      if tunnel.None? {
        return;
      }
      var conf := StoredConfig(secrets);
      if conf.Some? {
        Up(conf.value);
      }
    }

    method Use(d: Device, config: Tries<string>, again: Replies)
      requires Valid()
      modifies this
      ensures Valid() && Value() == PhoneSession.Use(old(Value()), d, config, again)
      ensures AsksNothing(old(trace), trace)
      ensures Exposes(old(trace), trace) <==> UseExposes(old(Value()), d, config, again)
    {
      UseSound(Value(), d, config, again);
      SelectKeeps(secrets, config, d);
      var a := Choose(config, d);
      ghost var chosen := trace;
      if a.Ok? {
        ui := ui.(selected := Selected(secrets));
        FollowSelection();
      } else {
        Fail(a.error, again);
      }
      ExposesThen(old(trace), chosen, trace);
    }

    /** The common part of `add` and `startTrial`: the new device becomes this phone's. */
    method Adopt(d: Device, config: Tries<string>, again: Replies)
      requires Valid()
      modifies this
      ensures Recorded() && Whole(secrets) && RunsStored(Value()) && Value() == PhoneSession.Adopt(old(Value()), d, config, again)
      ensures AsksNothing(old(trace), trace)
      ensures Exposes(old(trace), trace) <==> UseExposes(old(Value()), d, config, again)
    {
      AdoptSound(Value(), d, config, again);
      SelectKeeps(secrets, config, d);
      var a := Choose(config, d);
      ghost var chosen := trace;
      if a.Ok? {
        FollowSelection();
      } else {
        Fail(a.error, again);
      }
      ExposesThen(old(trace), chosen, trace);
    }

    /** `add` and `startTrial` from the new device on. */
    method AdoptThenLoad(d: Device, config: Tries<string>, again: Replies, last: Replies)
      requires Valid()
      modifies this
      ensures Recorded() && Value() == LoadUnlessOut(PhoneSession.Adopt(old(Value()), d, config, again), last)
      ensures AsksNothing(old(trace), trace)
      ensures Exposes(old(trace), trace) <==> AdoptExposes(old(Value()), d, config, again, last)
    {
      Adopt(d, config, again);
      ghost var adopted := trace;
      if !ui.signedOut {
        Load(last);
      }
      ExposesThen(old(trace), adopted, trace);
    }

    method Add(added: Tries<Device>, config: Tries<string>, again: Replies, last: Replies)
      requires Valid()
      modifies this
      ensures Valid() && Value() == PhoneSession.Add(old(Value()), added, config, again, last)
      ensures AsksNothing(old(trace), trace)
      ensures Exposes(old(trace), trace) <==> AddExposes(old(Value()), added, config, again, last)
    {
      AddSound(Value(), added, config, again, last);
      CallKeeps(secrets, added);
      var a := Call(added);
      ghost var called := trace;
      if a.Ok? {
        AdoptThenLoad(a.value, config, again, last);
      } else {
        Fail(a.error, again);
      }
      ExposesThen(old(trace), called, trace);
    }

    method StartTrial(started: Tries<Device>, config: Tries<string>, again: Replies, last: Replies)
      requires Valid()
      modifies this
      ensures Valid() && Value() == PhoneSession.StartTrial(old(Value()), started, config, again, last)
      ensures AsksNothing(old(trace), trace)
      ensures Exposes(old(trace), trace) <==> TrialExposes(old(Value()), started, config, again, last)
    {
      AddSound(Value(), started, config, again, last);
      CallKeeps(secrets, started);
      var a := Call(started);
      ghost var called := trace;
      if a.Ok? {
        AdoptThenLoad(a.value, config, again, last);
      } else {
        Fail(a.error, again);
        if a.error == Conflict && !ui.signedOut {
          Load(last);
        }
      }
      ExposesThen(old(trace), called, trace);
    }

    method Rename(d: Device, renamed: Tries<Device>, again: Replies, last: Replies)
      requires Valid()
      modifies this
      ensures Valid() && Value() == PhoneSession.Rename(old(Value()), d, renamed, again, last)
      ensures AsksNothing(old(trace), trace)
      ensures Exposes(old(trace), trace) <==> RenameExposes(old(Value()), d, renamed, again, last)
    {
      RenameSound(Value(), d, renamed, again, last);
      CallKeeps(secrets, renamed);
      var a := Call(renamed);
      if a.Ok? && DeviceId in secrets && secrets[DeviceId] == d.id {
        Put(DeviceName, a.value.name);
      }
      ghost var named := trace;
      if a.Ok? {
        ui := ui.(selected := Selected(secrets));
        Load(last);
      } else {
        Fail(a.error, again);
      }
      ExposesThen(old(trace), named, trace);
    }

    /** `deleteDevice`: the removal is asked for once more with a new token; not found is done. */
    method Remove(t: Tries<()>, id: string) returns (a: Answer<()>)
      requires Recorded()
      modifies this`secrets, this`trace
      ensures Recorded() && secrets == DeleteDevice(old(secrets), t, id).0 && a == DeleteDevice(old(secrets), t, id).1
      ensures |old(trace)| < |trace| && old(trace) <= trace && trace[|old(trace)|] == Moment(old(secrets), tunnel, Some(id))
      ensures Steady(old(trace) + [trace[|old(trace)|]], trace, tunnel, ChoiceOf(old(secrets)), ChoiceOf(secrets))
    {
      ghost var lenient := Tries(Lenient(t.first), t.renewal, Lenient(t.second));
      CallKeeps(secrets, lenient);
      Ask(id);
      ghost var before := trace;
      a := Call(Tries(Lenient(t.first), t.renewal, Lenient(t.second)));
      ghost var called := trace;
      if a.Ok? && DeviceId in secrets && secrets[DeviceId] == id {
        ForgetSelection();
      }
      SteadyThen(before, called, trace, tunnel, ChoiceOf(old(secrets)), ChoiceOf(secrets));
    }

    /**
     * The tunnel goes down before this phone's own removal is asked for, and then the
     * phone is never exposed. When another device is removed it is exposed only if the
     * list that follows no longer has this phone's own.
     */
    method Delete(d: Device, removed: Tries<()>, again: Replies, last: Replies)
      requires Valid()
      modifies this
      ensures Recorded() && Value() == PhoneSession.Delete(old(Value()), d, removed, again, last)
      ensures old(!ui.signedOut && ui.devices.Some?) ==> Valid()
      ensures old(trace) <= trace && exists i :: |old(trace)| <= i < |trace| && trace[i].asked == Some(d.id)
      ensures old(OnThisPhone(Value(), d)) ==>
        !Exposes(old(trace), trace) && forall i :: |old(trace)| <= i < |trace| && trace[i].asked.Some? ==> trace[i].tunnel.None?
      ensures old(!ui.signedOut && ui.devices.Some?) ==>
        (Exposes(old(trace), trace) <==> DeleteExposes(old(Value()), d, removed, again, last))
    {
      DeleteOutcome(Value(), d, removed, again, last);
      var a := AskRemoval(d, removed);
      ghost var gone := trace;
      AfterRemoval(a, again, last);
      ExposesThen(old(trace), gone, trace);
      assert forall i :: 0 <= i < |gone| ==> trace[i] == gone[i];
    }

    /** The request follows the tunnel's end when the device is this phone's. */
    method AskRemoval(d: Device, removed: Tries<()>) returns (a: Answer<()>)
      requires Valid()
      modifies this`secrets, this`tunnel, this`trace
      ensures Recorded() && secrets == DeleteDevice(old(secrets), removed, d.id).0 && a == DeleteDevice(old(secrets), removed, d.id).1
      ensures tunnel == if OnThisPhone(old(Value()), d) then None else old(tunnel)
      ensures old(trace) <= trace && exists i :: |old(trace)| <= i < |trace| && trace[i].asked == Some(d.id)
      ensures old(OnThisPhone(Value(), d)) ==>
        !Exposes(old(trace), trace) && forall i :: |old(trace)| <= i < |trace| && trace[i].asked.Some? ==> trace[i].tunnel.None?
      ensures old(!ui.signedOut && ui.devices.Some?) ==> !Exposes(old(trace), trace) && RunsStored(Value())
      ensures Whole(secrets)
    {
      DeleteKeeps(Value(), d, removed);
      if ui.selected.Some? && ui.selected.value.id == d.id {
        Down();
      }
      ghost var down := trace;
      a := Remove(removed, d.id);
      ExposesThen(old(trace), down, trace);
    }

    /** What follows the answer to a removal: the screen and the list, or the failure. */
    method AfterRemoval(a: Answer<()>, again: Replies, last: Replies)
      requires Recorded()
      modifies this
      ensures Recorded() && old(trace) <= trace
      ensures Value() == if a.Ok? then PhoneSession.Load(Refreshed(old(Value())), last) else PhoneSession.Fail(old(Value()), a.error, again)
      ensures old(Whole(secrets) && RunsStored(Value())) ==> AsksNothing(old(trace), trace)
      ensures old(Whole(secrets) && RunsStored(Value())) ==>
        (Exposes(old(trace), trace) <==>
          if a.Ok? then LoadExposes(old(Value()), last) else FailExposes(old(Value()), a.error, again))
    {
      if a.Ok? {
        ui := ui.(selected := Selected(secrets));
        Load(last);
      } else {
        Fail(a.error, again);
      }
    }

    /** `signIn`, and the account screens made anew for it: both tokens as given, the choice untouched. */
    method SignIn(token: string, refresh: Option<string>)
      requires Valid()
      modifies this
      ensures Valid() && Value() == PhoneSession.SignIn(old(Value()), token, refresh)
      ensures Token in secrets && secrets[Token] == token
      ensures Refresh in secrets <==> refresh.Some?
      ensures refresh.Some? ==> secrets[Refresh] == refresh.value
      ensures Selected(secrets) == old(Selected(secrets)) && StoredConfig(secrets) == old(StoredConfig(secrets))
      ensures AsksNothing(old(trace), trace) && !Exposes(old(trace), trace)
    {
      Put(Token, token);
      if refresh.Some? {
        Put(Refresh, refresh.value);
      } else {
        Drop(Refresh);
      }
      ui := Ui(None, None, false);
    }

    /** Down first, then everything stored goes. */
    method SignOut()
      requires Recorded()
      modifies this
      ensures Valid() && Value() == PhoneSession.SignOut(old(Value()))
      ensures secrets == map[] && tunnel.None? && ui.signedOut
      ensures old(trace) <= trace && !Exposes(old(trace), trace)
    {
      Down();
      Clear();
      ui := ui.(signedOut := true);
    }
  }

  /** What a removal leaves before the list is loaded again. */
  lemma DeleteOutcome(p: Phone, d: Device, removed: Tries<()>, again: Replies, last: Replies)
    requires Sound(p)
    ensures !p.ui.signedOut && p.ui.devices.Some? ==> Sound(PhoneSession.Delete(p, d, removed, again, last))
  {
    if !p.ui.signedOut && p.ui.devices.Some? {
      DeleteSound(p, d, removed, again, last);
    }
  }
}
