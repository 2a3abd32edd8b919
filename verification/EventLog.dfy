/**
 * The portal's record of outages (pwa/api/monitor.py) and the dead man's switch over the
 * monitor itself (pwa/services/monitor_watch.py): two writers of one table.
 */
module EventLog {
  import opened Common

  /** The key under which the portal records that the monitor fell silent. */
  const SILENT_KEY := "portal:monitor-silent"
  const STALE_AFTER := 600.0
  const KEEP := 90.0 * 86400.0
  const SAME_NOTICE := 900.0

  datatype Event = Event(key: string, level: string, text: string, started: real, ended: Option<real>)

  /** A time of the monitor's clock; none when it is no representable date. */
  datatype Problem = Problem(key: string, text: string, level: string, since: Option<real>)
  datatype Notice = Notice(key: string, text: string, at: Option<real>)
  datatype Report = Report(problems: seq<Problem>, notices: seq<Notice>)

  /** The last report's arrival and the table of events. */
  datatype Health = Health(received: Option<real>, events: seq<Event>)

  datatype Outcome = NoReports | Quiet | Silent | Alerted | AlertFailed | Recovered | RecoveryFailed

  /** `_ts`: never later than the portal's own clock. */
  function Stamp(at: Option<real>, now: real): (t: real)
    ensures t <= now && (at.Some? && at.value <= now ==> t == at.value) && (at.None? || now < at.value ==> t == now)
  {
    if at.Some? && at.value < now then at.value else now
  }

  // ---------------------------------------------------------------- a report

  /** A row the reports answer for: open, and not the portal's own. */
  predicate Theirs(e: Event) {
    e.ended.None? && e.key != SILENT_KEY
  }

  /** The problems by key; the last one given for a key counts. */
  function Current(problems: seq<Problem>): map<string, Problem> {
    if problems == [] then map[]
    else
      var p := problems[|problems| - 1];
      Current(problems[..|problems| - 1])[p.key := p]
  }

  /** The keys in the order a dictionary keeps them: by first appearance. */
  function Firsts(problems: seq<Problem>): seq<string> {
    if problems == [] then []
    else
      var p, earlier := problems[|problems| - 1], Firsts(problems[..|problems| - 1]);
      if p.key in earlier then earlier else earlier + [p.key]
  }

  /** Open rows of one key. */
  function OpenCount(events: seq<Event>, key: string): nat {
    if events == [] then 0
    else
      var e := events[|events| - 1];
      OpenCount(events[..|events| - 1], key) + if e.ended.None? && e.key == key then 1 else 0
  }

  predicate HasOpen(events: seq<Event>, key: string) {
    exists i :: 0 <= i < |events| && Theirs(events[i]) && events[i].key == key
  }

  /** An open row is brought up to date, or closed when its problem is gone. */
  function Refreshed(e: Event, current: map<string, Problem>, now: real): Event {
    if !Theirs(e) then e
    else if e.key in current then e.(text := current[e.key].text, level := current[e.key].level)
    else e.(ended := Some(now))
  }

  function AllRefreshed(events: seq<Event>, current: map<string, Problem>, now: real): seq<Event> {
    seq(|events|, i requires 0 <= i < |events| => Refreshed(events[i], current, now))
  }

  function Opening(p: Problem, now: real): Event {
    Event(p.key, p.level, p.text, Stamp(p.since, now), None)
  }

  /** New rows for the keys that have no open row. */
  function Fresh(events: seq<Event>, keys: seq<string>, current: map<string, Problem>, now: real): seq<Event>
    requires forall i :: 0 <= i < |keys| ==> keys[i] in current
  {
    if keys == [] then []
    else
      var key := keys[|keys| - 1];
      var earlier := Fresh(events, keys[..|keys| - 1], current, now);
      if HasOpen(events, key) then earlier else earlier + [Opening(current[key], now)]
  }

  predicate Seen(events: seq<Event>, key: string, at: real) {
    exists i :: 0 <= i < |events| && events[i].key == key && events[i].started >= at - SAME_NOTICE
  }

  /** A one-off notice is a row born closed, unless a close enough one is there. */
  function WithNotice(events: seq<Event>, n: Notice, now: real): seq<Event> {
    var at := Stamp(n.at, now);
    if Seen(events, n.key, at) then events else events + [Event(n.key, "info", n.text, at, Some(at))]
  }

  function Noticed(events: seq<Event>, notices: seq<Notice>, now: real): seq<Event> {
    if notices == [] then events
    else
      WithNotice(Noticed(events, notices[..|notices| - 1], now), notices[|notices| - 1], now)
  }

  predicate Outlived(e: Event, now: real) {
    e.ended.Some? && e.started < now - KEEP
  }

  function Pruned(events: seq<Event>, now: real): seq<Event> {
    if events == [] then []
    else
      var e, earlier := events[|events| - 1], Pruned(events[..|events| - 1], now);
      if Outlived(e, now) then earlier else earlier + [e]
  }

  lemma {:induction false} FirstsAreKeys(problems: seq<Problem>)
    ensures forall key :: key in Firsts(problems) <==> key in Current(problems)
    ensures forall i, j :: 0 <= i < j < |Firsts(problems)| ==> Firsts(problems)[i] != Firsts(problems)[j]
  {
    if problems != [] {
      FirstsAreKeys(problems[..|problems| - 1]);
    }
  }

  function Opened(events: seq<Event>, problems: seq<Problem>, now: real): seq<Event> {
    FirstsAreKeys(problems);
    AllRefreshed(events, Current(problems), now) + Fresh(events, Firsts(problems), Current(problems), now)
  }

  function Received(h: Health, r: Report, now: real): Health {
    Health(Some(now), Pruned(Noticed(Opened(h.events, r.problems, now), r.notices, now), now))
  }

  // ---------------------------------------------------------------- the watch

  predicate Ours(e: Event) {
    e.ended.None? && e.key == SILENT_KEY
  }

  /** The first open silence row, or the length when there is none. */
  function FirstOurs(events: seq<Event>): (i: nat)
    ensures i <= |events|
    ensures i < |events| ==> Ours(events[i])
    ensures forall j :: 0 <= j < i ==> !Ours(events[j])
  {
    if events == [] then 0
    else
      var i := FirstOurs(events[..|events| - 1]);
      if i < |events| - 1 || Ours(events[|events| - 1]) then i else |events|
  }

  function Watched(h: Health, now: real, mailed: bool): (Health, Outcome) {
    if h.received.None? then (h, NoReports)
    else
      var last, i := h.received.value, FirstOurs(h.events);
      if now - last > STALE_AFTER then
        if i < |h.events| then (h, Silent)
        else if !mailed then (h, AlertFailed)
        else (h.(events := h.events + [Event(SILENT_KEY, "bad", "monitor silent", last, None)]), Alerted)
      else if i == |h.events| then (h, Quiet)
      else if !mailed then (h, RecoveryFailed)
      else (h.(events := h.events[i := h.events[i].(ended := Some(now))]), Recovered)
  }

  // ---------------------------------------------------------------- counting open rows

  lemma {:induction false} OpenCountAppend(a: seq<Event>, b: seq<Event>, key: string)
    ensures OpenCount(a + b, key) == OpenCount(a, key) + OpenCount(b, key)
  {
    if b == [] {
      assert a + b == a;
    } else {
      OpenCountAppend(a, b[..|b| - 1], key);
      assert (a + b)[..|a + b| - 1] == a + b[..|b| - 1];
    }
  }

  lemma {:induction false} OpenCountUpdate(events: seq<Event>, i: nat, e: Event, key: string)
    requires i < |events|
    ensures OpenCount(events[i := e], key) ==
      OpenCount(events, key) - (if events[i].ended.None? && events[i].key == key then 1 else 0)
      + if e.ended.None? && e.key == key then 1 else 0
  {
    if i < |events| - 1 {
      OpenCountUpdate(events[..|events| - 1], i, e, key);
      assert events[i := e][..|events| - 1] == events[..|events| - 1][i := e];
    } else {
      assert events[i := e][..|events| - 1] == events[..|events| - 1];
    }
  }

  lemma {:induction false} NoneOpen(events: seq<Event>, key: string)
    ensures OpenCount(events, key) == 0 <==> forall i :: 0 <= i < |events| ==> !(events[i].ended.None? && events[i].key == key)
  {
    if events != [] {
      NoneOpen(events[..|events| - 1], key);
    }
  }

  /** Two open rows of a key are counted twice. */
  lemma {:induction false} TwoOpen(events: seq<Event>, i: nat, j: nat)
    requires i < j < |events| && Theirs(events[i]) && Theirs(events[j]) && events[i].key == events[j].key
    ensures 2 <= OpenCount(events, events[i].key)
  {
    if j == |events| - 1 {
      NoneOpen(events[..|events| - 1], events[i].key);
    } else {
      TwoOpen(events[..|events| - 1], i, j);
    }
  }

  lemma {:induction false} RefreshCount(events: seq<Event>, current: map<string, Problem>, now: real, key: string)
    ensures OpenCount(AllRefreshed(events, current, now), key) ==
      if key == SILENT_KEY || key in current then OpenCount(events, key) else 0
  {
    if events != [] {
      RefreshCount(events[..|events| - 1], current, now, key);
      assert AllRefreshed(events, current, now)[..|events| - 1] == AllRefreshed(events[..|events| - 1], current, now);
    }
  }

  lemma {:induction false} FreshCount(events: seq<Event>, keys: seq<string>, current: map<string, Problem>, now: real, key: string)
    requires forall i :: 0 <= i < |keys| ==> keys[i] in current
    requires forall k :: k in current ==> current[k].key == k
    requires forall i, j :: 0 <= i < j < |keys| ==> keys[i] != keys[j]
    ensures OpenCount(Fresh(events, keys, current, now), key) == if key in keys && !HasOpen(events, key) then 1 else 0
  {
    if keys != [] {
      FreshCount(events, keys[..|keys| - 1], current, now, key);
    }
  }

  lemma NoticeCount(events: seq<Event>, n: Notice, now: real, key: string)
    ensures OpenCount(WithNotice(events, n, now), key) == OpenCount(events, key)
  {
  }

  lemma {:induction false} NoticedCount(events: seq<Event>, notices: seq<Notice>, now: real, key: string)
    ensures OpenCount(Noticed(events, notices, now), key) == OpenCount(events, key)
  {
    if notices != [] {
      NoticedCount(events, notices[..|notices| - 1], now, key);
      NoticeCount(Noticed(events, notices[..|notices| - 1], now), notices[|notices| - 1], now, key);
    }
  }

  lemma {:induction false} PrunedCount(events: seq<Event>, now: real, key: string)
    ensures OpenCount(Pruned(events, now), key) == OpenCount(events, key)
  {
    if events != [] {
      PrunedCount(events[..|events| - 1], now, key);
    }
  }

  lemma {:induction false} CurrentKeys(problems: seq<Problem>)
    ensures forall k :: k in Current(problems) ==> Current(problems)[k].key == k && Current(problems)[k] in problems
    ensures forall i :: 0 <= i < |problems| ==> problems[i].key in Current(problems)
  {
    if problems != [] {
      CurrentKeys(problems[..|problems| - 1]);
    }
  }

  lemma HasOpenCount(events: seq<Event>, key: string)
    ensures HasOpen(events, key) <==> key != SILENT_KEY && 0 < OpenCount(events, key)
  {
  }

  /** What a report does to the number of open rows of any key. */
  lemma ReportCount(h: Health, r: Report, now: real, key: string)
    ensures var carried := key in Current(r.problems);
      OpenCount(Received(h, r, now).events, key) ==
      if key == SILENT_KEY then OpenCount(h.events, key) + (if carried then 1 else 0)
      else if !carried then 0
      else if OpenCount(h.events, key) == 0 then 1 else OpenCount(h.events, key)
  {
    var current, keys := Current(r.problems), Firsts(r.problems);
    FirstsAreKeys(r.problems);
    CurrentKeys(r.problems);
    RefreshCount(h.events, current, now, key);
    FreshCount(h.events, keys, current, now, key);
    HasOpenCount(h.events, key);
    OpenCountAppend(AllRefreshed(h.events, current, now), Fresh(h.events, keys, current, now), key);
    NoticedCount(Opened(h.events, r.problems, now), r.notices, now, key);
    PrunedCount(Noticed(Opened(h.events, r.problems, now), r.notices, now), now, key);
  }

  /** What a watch does to it: one more with a delivered alert, one fewer with a delivered all-clear. */
  lemma WatchCount(h: Health, now: real, mailed: bool, key: string)
    ensures var (after, did) := Watched(h, now, mailed);
      OpenCount(after.events, key) == OpenCount(h.events, key) +
        if key == SILENT_KEY && did == Alerted then 1 else if key == SILENT_KEY && did == Recovered then -1 else 0
    ensures var (after, did) := Watched(h, now, mailed);
      && (did == Alerted ==> OpenCount(h.events, SILENT_KEY) == 0)
      && (did == Recovered ==> OpenCount(h.events, SILENT_KEY) >= 1)
  {
    var i := FirstOurs(h.events);
    NoneOpen(h.events, SILENT_KEY);
    if h.received.Some? && i < |h.events| {
      OpenCountUpdate(h.events, i, h.events[i].(ended := Some(now)), key);
    } else if h.received.Some? {
      OpenCountAppend(h.events, [Event(SILENT_KEY, "bad", "monitor silent", h.received.value, None)], key);
    }
  }

  // ---------------------------------------------------------------- the table

  /** At most one open row of every key the reports answer for. */
  ghost predicate Single(events: seq<Event>) {
    forall key :: key != SILENT_KEY ==> OpenCount(events, key) <= 1
  }

  lemma SingleStays(h: Health, r: Report, now: real)
    requires Single(h.events)
    ensures Single(Received(h, r, now).events)
  {
    forall key | key != SILENT_KEY ensures OpenCount(Received(h, r, now).events, key) <= 1 {
      ReportCount(h, r, now, key);
    }
  }

  /** Where each open row is. */
  ghost predicate RowsOf(events: seq<Event>, rows: map<string, nat>) {
    && (forall k :: k in rows ==> rows[k] < |events| && Theirs(events[rows[k]]) && events[rows[k]].key == k)
    && (forall i :: 0 <= i < |events| && Theirs(events[i]) ==> events[i].key in rows && rows[events[i].key] == i)
  }

  /** The rows of `keys` brought up to date. */
  ghost function Edited(events: seq<Event>, keys: seq<string>, current: map<string, Problem>, now: real): seq<Event> {
    seq(|events|, i requires 0 <= i < |events| =>
      if Theirs(events[i]) && events[i].key in keys then Refreshed(events[i], current, now) else events[i])
  }

  lemma EditOne(events: seq<Event>, keys: seq<string>, key: string, current: map<string, Problem>, rows: map<string, nat>, now: real)
    requires RowsOf(events, rows) && key in current
    ensures key in rows <==> HasOpen(events, key)
    ensures var edited := Edited(events, keys, current, now);
      Edited(events, keys + [key], current, now) ==
      if key !in rows then edited
      else edited[rows[key] := edited[rows[key]].(text := current[key].text, level := current[key].level)]
  {
  }

  class Table {
    var received: Option<real>
    var events: seq<Event>

    function Value(): Health
      reads this
    {
      Health(received, events)
    }

    constructor ()
      ensures Value() == Health(None, [])
    {
      received, events := None, [];
    }

    /** `open_by_key`: where each open row is. */
    method OpenByKey() returns (rows: map<string, nat>)
      requires Single(events)
      ensures RowsOf(events, rows)
    {
      rows := map[];
      for i := 0 to |events|
        invariant forall k :: k in rows ==> rows[k] < i && Theirs(events[rows[k]]) && events[rows[k]].key == k
        invariant forall j :: 0 <= j < i && Theirs(events[j]) ==> events[j].key in rows && rows[events[j].key] == j
      {
        if Theirs(events[i]) {
          if events[i].key in rows {
            TwoOpen(events, rows[events[i].key], i);
            assert false;
          }
          rows := rows[events[i].key := i];
        }
      }
    }

    /** One round of the loop that follows. */
    method OpenOne(before: seq<Event>, ghost keys: seq<string>, key: string, current: map<string, Problem>, rows: map<string, nat>, now: real)
      returns (after: seq<Event>)
      requires RowsOf(events, rows) && key in current && forall i :: 0 <= i < |keys| ==> keys[i] in current
      requires before == Edited(events, keys, current, now) + Fresh(events, keys, current, now)
      ensures after == Edited(events, keys + [key], current, now) + Fresh(events, keys + [key], current, now)
    {
      EditOne(events, keys, key, current, rows, now);
      assert (keys + [key])[..|keys|] == keys;
      if key !in rows {
        after := before + [Opening(current[key], now)];
      } else {
        after := before[rows[key] := before[rows[key]].(text := current[key].text, level := current[key].level)];
      }
    }

    /** The first loop of `receive`: open rows for new problems, edit those of known ones. */
    method OpenNew(keys: seq<string>, current: map<string, Problem>, rows: map<string, nat>, now: real) returns (after: seq<Event>)
      requires RowsOf(events, rows) && forall i :: 0 <= i < |keys| ==> keys[i] in current
      ensures after == Edited(events, keys, current, now) + Fresh(events, keys, current, now)
    {
      after := events;
      for n := 0 to |keys|
        invariant after == Edited(events, keys[..n], current, now) + Fresh(events, keys[..n], current, now)
      {
        after := OpenOne(after, keys[..n], keys[n], current, rows, now);
        assert keys[..n + 1] == keys[..n] + [keys[n]];
      }
      assert keys[..|keys|] == keys;
    }

    /** The second loop: rows whose problem is gone are closed. */
    method CloseGone(edited: seq<Event>, current: map<string, Problem>, rows: map<string, nat>, now: real) returns (after: seq<Event>)
      requires RowsOf(events, rows) && |events| <= |edited|
      requires forall i :: 0 <= i < |events| ==>
        edited[i] == if Theirs(events[i]) && events[i].key in current then Refreshed(events[i], current, now) else events[i]
      ensures after == AllRefreshed(events, current, now) + edited[|events|..]
    {
      after := edited;
      var left := rows.Keys;
      while left != {}
        invariant left <= rows.Keys && |after| == |edited| && after[|events|..] == edited[|events|..]
        invariant forall i :: 0 <= i < |events| ==>
          after[i] == if Theirs(events[i]) && events[i].key !in left then Refreshed(events[i], current, now) else edited[i]
        decreases left
      {
        var key :| key in left;
        if key !in current {
          after := after[rows[key] := after[rows[key]].(ended := Some(now))];
        }
        left := left - {key};
      }
    }

    method Receive(r: Report, now: real)
      requires Single(events)
      modifies this
      ensures Value() == Received(old(Value()), r, now) && Single(events)
    {
      SingleStays(Value(), r, now);
      FirstsAreKeys(r.problems);
      var current, keys := Current(r.problems), Firsts(r.problems);
      var rows := OpenByKey();
      var after := OpenNew(keys, current, rows, now);
      after := CloseGone(after, current, rows, now);
      ghost var listed := after;
      for n := 0 to |r.notices|
        invariant after == Noticed(listed, r.notices[..n], now)
      {
        assert r.notices[..n + 1][..n] == r.notices[..n];
        after := WithNotice(after, r.notices[n], now);
      }
      assert r.notices[..|r.notices|] == r.notices;
      received, events := Some(now), Pruned(after, now);
    }

    /** `watch`: the letter goes out first, the row is written only if it did. */
    method Watch(now: real, mailed: bool) returns (did: Outcome)
      modifies this
      ensures Value() == Watched(old(Value()), now, mailed).0 && did == Watched(old(Value()), now, mailed).1
    {
      if received.None? {
        return NoReports;
      }
      var last := received.value;
      var i := 0;
      while i < |events| && !Ours(events[i])
        invariant 0 <= i <= |events|
        invariant forall j :: 0 <= j < i ==> !Ours(events[j])
      {
        i := i + 1;
      }
      if now - last > STALE_AFTER {
        if i < |events| {
          return Silent;
        }
        if !mailed {
          return AlertFailed;
        }
        events := events + [Event(SILENT_KEY, "bad", "monitor silent", last, None)];
        return Alerted;
      }
      if i == |events| {
        return Quiet;
      }
      if !mailed {
        return RecoveryFailed;
      }
      events := events[i := events[i].(ended := Some(now))];
      return Recovered;
    }
  }

  // ---------------------------------------------------------------- whole runs

  datatype Step = Reported(report: Report) | Watching(mailed: bool)
  datatype Tick = Tick(at: real, step: Step)

  function Next(h: Health, t: Tick): Health {
    match t.step
    case Reported(r) => Received(h, r, t.at)
    case Watching(mailed) => Watched(h, t.at, mailed).0
  }

  function State(ticks: seq<Tick>): Health {
    if ticks == [] then Health(None, []) else Next(State(ticks[..|ticks| - 1]), ticks[|ticks| - 1])
  }

  /** How many watches so far ended as `what`. */
  function Times(ticks: seq<Tick>, what: Outcome): nat {
    if ticks == [] then 0
    else
      var earlier, t := ticks[..|ticks| - 1], ticks[|ticks| - 1];
      Times(earlier, what) + if t.step.Watching? && Watched(State(earlier), t.at, t.step.mailed).1 == what then 1 else 0
  }

  /** How many reports so far named the portal's own key among their problems. */
  function Impostors(ticks: seq<Tick>): nat {
    if ticks == [] then 0
    else
      var t := ticks[|ticks| - 1];
      Impostors(ticks[..|ticks| - 1]) + if t.step.Reported? && SILENT_KEY in Current(t.step.report.problems) then 1 else 0
  }

  /** The problem keys of the last report. */
  function Reporting(ticks: seq<Tick>): set<string> {
    if ticks == [] then {}
    else
      var t := ticks[|ticks| - 1];
      if t.step.Reported? then Current(t.step.report.problems).Keys else Reporting(ticks[..|ticks| - 1])
  }

  /** At all times the open rows are one for each problem of the last report, the portal's own key aside. */
  lemma {:induction false} OpenRowsAreTheReported(ticks: seq<Tick>, key: string)
    requires key != SILENT_KEY
    ensures OpenCount(State(ticks).events, key) == if key in Reporting(ticks) then 1 else 0
  {
    if ticks != [] {
      var earlier, t := ticks[..|ticks| - 1], ticks[|ticks| - 1];
      OpenRowsAreTheReported(earlier, key);
      match t.step
      case Reported(r) => ReportCount(State(earlier), r, t.at, key);
      case Watching(mailed) => WatchCount(State(earlier), t.at, mailed, key);
    }
  }

  /** Open silence rows are the delivered alerts less the delivered all-clears, plus what reports put there. */
  lemma {:induction false} SilenceAccounts(ticks: seq<Tick>)
    ensures OpenCount(State(ticks).events, SILENT_KEY) == Times(ticks, Alerted) - Times(ticks, Recovered) + Impostors(ticks)
    ensures Impostors(ticks) == 0 ==> OpenCount(State(ticks).events, SILENT_KEY) <= 1
  {
    if ticks != [] {
      var earlier, t := ticks[..|ticks| - 1], ticks[|ticks| - 1];
      SilenceAccounts(earlier);
      match t.step
      case Reported(r) => ReportCount(State(earlier), r, t.at, SILENT_KEY);
      case Watching(mailed) => WatchCount(State(earlier), t.at, mailed, SILENT_KEY);
    }
  }

  /** Alerts less all-clears match the open silence rows exactly when no report used the portal's key. */
  lemma SilenceExactly(ticks: seq<Tick>)
    ensures Times(ticks, Alerted) - Times(ticks, Recovered) == OpenCount(State(ticks).events, SILENT_KEY)
      <==> (forall i :: 0 <= i < |ticks| && ticks[i].step.Reported? ==> SILENT_KEY !in Current(ticks[i].step.report.problems))
  {
    SilenceAccounts(ticks);
    NoImpostors(ticks);
  }

  /** A report that names the portal's own key opens a silence that no alert announced and no later report closes. */
  lemma ImpostorStaysOpen()
    ensures var liar := Report([Problem(SILENT_KEY, "silent", "bad", None)], []);
      var ticks := [Tick(0.0, Reported(liar)), Tick(60.0, Reported(Report([], [])))];
      OpenCount(State(ticks).events, SILENT_KEY) == 1 && Times(ticks, Alerted) == 0 && Times(ticks, Recovered) == 0
  {
    var liar := Report([Problem(SILENT_KEY, "silent", "bad", None)], []);
    var ticks := [Tick(0.0, Reported(liar)), Tick(60.0, Reported(Report([], [])))];
    assert ticks[..1] == [Tick(0.0, Reported(liar))] && ticks[..1][..0] == [];
    CurrentKeys(liar.problems);
    assert liar.problems[0].key in Current(liar.problems);
    assert Impostors(ticks[..1]) == 1 && Times(ticks[..1], Alerted) == 0 && Times(ticks[..1], Recovered) == 0;
    SilenceAccounts(ticks);
  }

  lemma {:induction false} NoImpostors(ticks: seq<Tick>)
    ensures Impostors(ticks) == 0
      <==> forall i :: 0 <= i < |ticks| && ticks[i].step.Reported? ==> SILENT_KEY !in Current(ticks[i].step.report.problems)
  {
    if ticks != [] {
      NoImpostors(ticks[..|ticks| - 1]);
    }
  }

  /** A watch whose letter goes through leaves a silence open exactly when the monitor is silent. */
  lemma WatchSettles(ticks: seq<Tick>, now: real)
    requires Impostors(ticks) == 0 && State(ticks).received.Some?
    ensures OpenCount(State(ticks + [Tick(now, Watching(true))]).events, SILENT_KEY) ==
      if now - State(ticks).received.value > STALE_AFTER then 1 else 0
  {
    var h := State(ticks);
    assert (ticks + [Tick(now, Watching(true))])[..|ticks|] == ticks;
    SilenceAccounts(ticks);
    WatchCount(h, now, true, SILENT_KEY);
    NoneOpen(h.events, SILENT_KEY);
  }

  // ---------------------------------------------------------------- times

  predicate EventTimely(e: Event, now: real) {
    e.started <= now && (e.ended.Some? ==> e.started <= e.ended.value <= now)
  }

  predicate AllTimely(events: seq<Event>, now: real) {
    forall i :: 0 <= i < |events| ==> EventTimely(events[i], now)
  }

  predicate Timely(h: Health, now: real) {
    (h.received.Some? ==> h.received.value <= now) && AllTimely(h.events, now)
  }

  predicate Ordered(ticks: seq<Tick>) {
    forall i, j :: 0 <= i < j < |ticks| ==> ticks[i].at <= ticks[j].at
  }

  lemma {:induction false} FreshTimely(events: seq<Event>, keys: seq<string>, current: map<string, Problem>, now: real)
    requires forall i :: 0 <= i < |keys| ==> keys[i] in current
    ensures AllTimely(Fresh(events, keys, current, now), now)
  {
    if keys != [] {
      FreshTimely(events, keys[..|keys| - 1], current, now);
    }
  }

  lemma {:induction false} NoticedTimely(events: seq<Event>, notices: seq<Notice>, now: real)
    requires AllTimely(events, now)
    ensures AllTimely(Noticed(events, notices, now), now)
  {
    if notices != [] {
      NoticedTimely(events, notices[..|notices| - 1], now);
    }
  }

  /** Exactly the closed rows that began more than ninety days ago leave the table. */
  lemma {:induction false} PrunedExactly(events: seq<Event>, now: real)
    ensures forall e :: e in Pruned(events, now) <==> e in events && (e.ended.None? || e.started >= now - 7776000.0)
  {
    if events != [] {
      PrunedExactly(events[..|events| - 1], now);
    }
  }

  lemma ReportTimely(h: Health, r: Report, now: real)
    requires Timely(h, now)
    ensures Timely(Received(h, r, now), now)
  {
    FirstsAreKeys(r.problems);
    FreshTimely(h.events, Firsts(r.problems), Current(r.problems), now);
    assert AllTimely(Opened(h.events, r.problems, now), now);
    NoticedTimely(Opened(h.events, r.problems, now), r.notices, now);
    var noticed := Noticed(Opened(h.events, r.problems, now), r.notices, now);
    PrunedExactly(noticed, now);
    forall i | 0 <= i < |Pruned(noticed, now)| ensures EventTimely(Pruned(noticed, now)[i], now) {
      assert Pruned(noticed, now)[i] in noticed;
    }
  }

  /** With a clock that does not go back, every closed row ends no earlier than it starts. */
  lemma {:induction false} RowsEndAfterTheyStart(ticks: seq<Tick>)
    requires Ordered(ticks)
    ensures ticks != [] ==> Timely(State(ticks), ticks[|ticks| - 1].at)
  {
    if ticks != [] {
      var earlier, t := ticks[..|ticks| - 1], ticks[|ticks| - 1];
      RowsEndAfterTheyStart(earlier);
      assert Timely(State(earlier), t.at);
      if t.step.Reported? {
        ReportTimely(State(earlier), t.step.report, t.at);
      }
    }
  }

  // ---------------------------------------------------------------- row by row

  /** The last a report says of a key. */
  predicate LastSaid(problems: seq<Problem>, p: Problem) {
    exists i :: 0 <= i < |problems| && problems[i] == p && forall j :: i < j < |problems| ==> problems[j].key != p.key
  }

  lemma LastSaidStep(problems: seq<Problem>, q: Problem, p: Problem)
    ensures LastSaid(problems + [q], p) <==> p == q || (q.key != p.key && LastSaid(problems, p))
  {
    var all := problems + [q];
    if p == q {
      assert all[|problems|] == p;
    }
    if q.key != p.key && LastSaid(problems, p) {
      var i :| 0 <= i < |problems| && problems[i] == p && forall j :: i < j < |problems| ==> problems[j].key != p.key;
      assert all[i] == p;
    }
    if LastSaid(all, p) && p != q {
      var i :| 0 <= i < |all| && all[i] == p && forall j :: i < j < |all| ==> all[j].key != p.key;
      assert all[|problems|] == q;
      assert forall j :: i < j < |problems| ==> all[j] == problems[j];
      assert problems[i] == p;
    }
  }

  lemma {:induction false} CurrentIsLast(problems: seq<Problem>, p: Problem)
    ensures LastSaid(problems, p) <==> p.key in Current(problems) && Current(problems)[p.key] == p
  {
    if problems != [] {
      var short, q := problems[..|problems| - 1], problems[|problems| - 1];
      CurrentIsLast(short, p);
      CurrentKeys(short);
      LastSaidStep(short, q, p);
      assert problems == short + [q];
    }
  }

  /**
   * What a report makes of a row: one closed before, or the portal's own, stays; an
   * open one takes the words of the last report of its key; an open one not reported
   * ends now. Key and start stay.
   */
  lemma RowAfterReport(h: Health, r: Report, now: real, i: nat)
    requires i < |h.events|
    ensures var e, t := h.events[i], Opened(h.events, r.problems, now)[i];
      && (e.ended.Some? || e.key == "portal:monitor-silent" ==> t == e)
      && (e.ended.None? && e.key != "portal:monitor-silent" && (forall j :: 0 <= j < |r.problems| ==> r.problems[j].key != e.key) ==>
            t == e.(ended := Some(now)))
      && (forall p :: e.ended.None? && e.key != "portal:monitor-silent" && LastSaid(r.problems, p) && p.key == e.key ==>
            t == e.(text := p.text, level := p.level))
    ensures var t := Opened(h.events, r.problems, now)[i];
      t.ended.None? || t.started >= now - 7776000.0 ==> t in Received(h, r, now).events
  {
    var e, t := h.events[i], Opened(h.events, r.problems, now)[i];
    CurrentKeys(r.problems);
    forall p | LastSaid(r.problems, p) ensures p.key in Current(r.problems) && Current(r.problems)[p.key] == p {
      CurrentIsLast(r.problems, p);
    }
    assert t == Refreshed(e, Current(r.problems), now);
    StaysNoticed(Opened(h.events, r.problems, now), r.notices, now, t);
    PrunedExactly(Noticed(Opened(h.events, r.problems, now), r.notices, now), now);
  }

  lemma {:induction false} StaysNoticed(events: seq<Event>, notices: seq<Notice>, now: real, e: Event)
    requires e in events
    ensures e in Noticed(events, notices, now)
  {
    if notices != [] {
      StaysNoticed(events, notices[..|notices| - 1], now, e);
    }
  }

  /** A reported key without an open row gets one in the words of its last report, from the time given there but no later than now. */
  lemma NewRow(h: Health, r: Report, now: real, p: Problem)
    requires LastSaid(r.problems, p)
    requires p.key == SILENT_KEY || forall i :: 0 <= i < |h.events| && h.events[i].key == p.key ==> h.events[i].ended.Some?
    ensures Event(p.key, p.level, p.text, if p.since.Some? && p.since.value <= now then p.since.value else now, None)
         in Received(h, r, now).events
  {
    CurrentIsLast(r.problems, p);
    FirstsAreKeys(r.problems);
    FreshHas(h.events, Firsts(r.problems), Current(r.problems), now, p.key);
    var row := Opening(p, now);
    assert row in Opened(h.events, r.problems, now);
    StaysNoticed(Opened(h.events, r.problems, now), r.notices, now, row);
    PrunedExactly(Noticed(Opened(h.events, r.problems, now), r.notices, now), now);
  }

  lemma {:induction false} FreshHas(events: seq<Event>, keys: seq<string>, current: map<string, Problem>, now: real, key: string)
    requires forall i :: 0 <= i < |keys| ==> keys[i] in current
    requires key in keys && !HasOpen(events, key)
    ensures Opening(current[key], now) in Fresh(events, keys, current, now)
  {
    if keys[|keys| - 1] != key {
      FreshHas(events, keys[..|keys| - 1], current, now, key);
    }
  }

  /** A notice that adds a row adds it closed, at its own time. */
  lemma NoticeRow(events: seq<Event>, n: Notice, now: real)
    ensures var after, at := WithNotice(events, n, now), if n.at.Some? && n.at.value <= now then n.at.value else now;
      after == if exists i :: 0 <= i < |events| && events[i].key == n.key && events[i].started >= at - 900.0
               then events else events + [Event(n.key, "info", n.text, at, Some(at))]
  {
  }

  /** What a watch does, told on the table: a letter comes before every change, and the row says how long it was silent. */
  lemma WatchExactly(h: Health, now: real, mailed: bool)
    ensures var (after, did) := Watched(h, now, mailed);
      && after.received == h.received
      && (h.received.None? ==> did == NoReports && after == h)
      && (h.received.Some? ==>
            var silent := now - h.received.value > 600.0;
            var shown := exists i :: 0 <= i < |h.events| && h.events[i].key == SILENT_KEY && h.events[i].ended.None?;
            && did == (if silent then (if shown then Silent else if mailed then Alerted else AlertFailed)
                       else (if !shown then Quiet else if mailed then Recovered else RecoveryFailed))
            && (did == Alerted ==> after.events == h.events + [Event(SILENT_KEY, "bad", "monitor silent", h.received.value, None)])
            && (did != Alerted && did != Recovered ==> after == h))
  {
  }

  /** The all-clear closes one open silence row, at the time of the watch. */
  lemma RecoveredRow(h: Health, now: real, mailed: bool)
    requires Watched(h, now, mailed).1 == Recovered
    ensures exists i ::
      && 0 <= i < |h.events| && h.events[i].key == SILENT_KEY && h.events[i].ended.None?
      && Watched(h, now, mailed).0.events == h.events[i := h.events[i].(ended := Some(now))]
  {
    var i := FirstOurs(h.events);
    assert Ours(h.events[i]);
  }

  /** The open rows of a key. */
  function OpenRows(events: seq<Event>, key: string): set<nat> {
    set i | 0 <= i < |events| && events[i].key == key && events[i].ended.None?
  }

  lemma {:induction false} OpenIsSize(events: seq<Event>, key: string)
    ensures OpenCount(events, key) == |OpenRows(events, key)|
  {
    if events != [] {
      OpenIsSize(events[..|events| - 1], key);
      LastOfOpenRows(events, key);
    }
  }

  lemma LastOfOpenRows(events: seq<Event>, key: string)
    requires events != []
    ensures var n, e := |events| - 1, events[|events| - 1];
      && n !in OpenRows(events[..n], key)
      && OpenRows(events, key) == OpenRows(events[..n], key) + if e.key == key && e.ended.None? then {n} else {}
  {
  }

  // ---------------------------------------------------------------- notices

  lemma {:induction false} NothingNew(events: seq<Event>, notices: seq<Notice>, now: real)
    requires forall n :: n in notices ==> Seen(events, n.key, Stamp(n.at, now))
    ensures Noticed(events, notices, now) == events
  {
    if notices != [] {
      NothingNew(events, notices[..|notices| - 1], now);
    }
  }

  lemma {:induction false} NoticedGrows(events: seq<Event>, notices: seq<Notice>, now: real)
    ensures |events| <= |Noticed(events, notices, now)|
    ensures Noticed(events, notices, now) == events ==> forall n :: n in notices ==> Seen(events, n.key, Stamp(n.at, now))
  {
    if notices != [] {
      NoticedGrows(events, notices[..|notices| - 1], now);
    }
  }

  /** Notices add no row exactly when each finds a row of its key begun no earlier than fifteen minutes before its time. */
  lemma NothingNewExactly(events: seq<Event>, notices: seq<Notice>, now: real)
    ensures Noticed(events, notices, now) == events <==> forall n :: n in notices ==> Seen(events, n.key, Stamp(n.at, now))
  {
    NoticedGrows(events, notices, now);
    if forall n :: n in notices ==> Seen(events, n.key, Stamp(n.at, now)) {
      NothingNew(events, notices, now);
    }
  }

  /** A report opens a row of this key that is late enough for a notice at `at`. */
  predicate Reopens(events: seq<Event>, problems: seq<Problem>, now: real, key: string, at: real) {
    var current := Current(problems);
    key in current && !HasOpen(events, key) && Stamp(current[key].since, now) >= at - SAME_NOTICE
  }

  /** What the notices of a report find: the rows there were, and those its problems have just opened. */
  lemma OpenedSees(events: seq<Event>, problems: seq<Problem>, now: real, key: string, at: real)
    ensures Seen(Opened(events, problems, now), key, at) <==> Seen(events, key, at) || Reopens(events, problems, now, key, at)
  {
    FirstsAreKeys(problems);
    CurrentKeys(problems);
    FreshSees(events, Firsts(problems), Current(problems), now, key, at);
    RefreshedSees(events, Current(problems), now, key, at);
    SeenEither(AllRefreshed(events, Current(problems), now), Fresh(events, Firsts(problems), Current(problems), now), key, at);
  }

  lemma SeenEither(a: seq<Event>, b: seq<Event>, key: string, at: real)
    ensures Seen(a + b, key, at) <==> Seen(a, key, at) || Seen(b, key, at)
  {
    if i :| 0 <= i < |a| && a[i].key == key && a[i].started >= at - SAME_NOTICE {
      assert (a + b)[i] == a[i];
    }
    if i :| 0 <= i < |b| && b[i].key == key && b[i].started >= at - SAME_NOTICE {
      assert (a + b)[|a| + i] == b[i];
    }
  }

  lemma RefreshedSees(events: seq<Event>, current: map<string, Problem>, now: real, key: string, at: real)
    ensures Seen(AllRefreshed(events, current, now), key, at) <==> Seen(events, key, at)
  {
    if i :| 0 <= i < |events| && events[i].key == key && events[i].started >= at - SAME_NOTICE {
      assert AllRefreshed(events, current, now)[i] == Refreshed(events[i], current, now);
    }
  }

  lemma {:induction false} FreshSees(events: seq<Event>, keys: seq<string>, current: map<string, Problem>, now: real, key: string, at: real)
    requires forall i :: 0 <= i < |keys| ==> keys[i] in current
    requires forall k :: k in current ==> current[k].key == k
    ensures Seen(Fresh(events, keys, current, now), key, at)
       <==> key in keys && !HasOpen(events, key) && Stamp(current[key].since, now) >= at - SAME_NOTICE
  {
    if keys != [] {
      var short, k := keys[..|keys| - 1], keys[|keys| - 1];
      FreshSees(events, short, current, now, key, at);
      var one := [Opening(current[k], now)];
      SeenEither(Fresh(events, short, current, now), one, key, at);
      assert one[0].key == k && one[0].started == Stamp(current[k].since, now);
    }
  }

  /**
   * When a report's notices come again with the next report, they add no row if and
   * only if each finds a row of its key begun no earlier than fifteen minutes before
   * its time as the second report reads it: in the table the first report left, or
   * just opened by a problem of the second.
   */
  lemma RepeatedNoticesExactly(h: Health, r: Report, now: real, problems: seq<Problem>, later: real)
    ensures var events := Received(h, r, now).events;
      var listed := Opened(events, problems, later);
      Noticed(listed, r.notices, later) == listed <==>
      forall n :: n in r.notices ==>
        Seen(events, n.key, Stamp(n.at, later)) || Reopens(events, problems, later, n.key, Stamp(n.at, later))
  {
    var events := Received(h, r, now).events;
    NothingNewExactly(Opened(events, problems, later), r.notices, later);
    forall n | n in r.notices
      ensures Seen(Opened(events, problems, later), n.key, Stamp(n.at, later)) <==>
        Seen(events, n.key, Stamp(n.at, later)) || Reopens(events, problems, later, n.key, Stamp(n.at, later))
    {
      OpenedSees(events, problems, later, n.key, Stamp(n.at, later));
    }
  }

  /**
   * A notice whose key has no other row: sent again it adds a second row exactly
   * when the first was past retention on arrival, or when its time, which is read
   * no later than the portal's clock and as that clock when it is no date, has moved
   * on by more than fifteen minutes.
   */
  lemma LoneNoticeExactly(h: Health, n: Notice, now: real, later: real)
    requires forall i :: 0 <= i < |h.events| ==> h.events[i].key != n.key
    ensures var events := Received(h, Report([], [n]), now).events;
      Noticed(events, [n], later) == events
      <==> Stamp(n.at, now) >= now - KEEP && Stamp(n.at, later) - SAME_NOTICE <= Stamp(n.at, now)
  {
    var opening := Opened(h.events, [], now);
    var row := Event(n.key, "info", n.text, Stamp(n.at, now), Some(Stamp(n.at, now)));
    var noticed := Noticed(opening, [n], now);
    assert [n][..0] == [] && Noticed(opening, [], now) == opening;
    assert forall i :: 0 <= i < |opening| ==> opening[i].key != n.key;
    assert noticed == opening + [row];
    PrunedExactly(noticed, now);
    var events := Pruned(noticed, now);
    NothingNewExactly(events, [n], later);
    assert row in noticed;
    assert forall e :: e in events && e.key == n.key ==> e == row;
    assert n in [n];
    if Stamp(n.at, now) >= now - KEEP {
      var i :| 0 <= i < |events| && events[i] == row;
    }
  }

  /** A notice stamped ahead of the portal's clock, received a thousand and then two thousand seconds in, leaves two rows. */
  lemma EarlyClockTwice()
    ensures var n := Notice("am1:boot", "rebooted", Some(5000.0));
      var events := Received(Health(None, []), Report([], [n]), 1000.0).events;
      |events| == 1 && |Noticed(events, [n], 2000.0)| == 2
  {
  }
}
