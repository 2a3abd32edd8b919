/**
 * The alerting of the outside monitor (infrastructure/monitoring/sov_monitor.py):
 * what one run says about each problem, and what it remembers if it was heard.
 */
module Monitoring {
  import opened Common

  /** What the state file keeps of an open problem; `sent` is zero until an alert went out. */
  datatype Problem = Problem(since: real, count: nat, sent: real, text: string)

  type Open = map<string, Problem>

  datatype Message =
    | Alert(key: string, text: string, lasting: Option<real>)
    | Clear(key: string, text: string, lasted: real)

  datatype Config = Config(confirm: int, remind: real)

  /**
   * One run as the outside world gives it: what the checks found, the hosts that did not
   * answer, the clock, whether a reboot or the digest is told too, and whether a message
   * that is sent goes through.
   */
  datatype Run = Run(problems: map<string, string>, down: set<string>, now: real, others: bool, heard: bool)

  // ---------------------------------------------------------------- one run, key by key

  /** A problem of host `h` other than its not answering. */
  predicate Belongs(k: string, h: string) {
    h + ":" <= k && k != h + ":down"
  }

  /** The problems of a run: those found, and what was open for a host that does not answer. */
  function Carried(open: Open, run: Run): map<string, string> {
    map k | k in run.problems.Keys + open.Keys && (k in run.problems || exists h :: h in run.down && Belongs(k, h))
      :: if k in run.problems then run.problems[k] else open[k].text
  }

  function Counted(open: Open, k: string, text: string, now: real): Problem {
    if k in open then open[k].(count := open[k].count + 1, text := text) else Problem(now, 1, 0.0, text)
  }

  predicate Due(c: Config, s: Problem, now: real) {
    s.count >= c.confirm && (s.sent == 0.0 || now - s.sent >= c.remind)
  }

  function Updated(c: Config, open: Open, k: string, text: string, now: real): Problem {
    var s := Counted(open, k, text, now);
    if Due(c, s, now) then s.(sent := now) else s
  }

  /** What a run has to say about one key. */
  function Said(c: Config, open: Open, problems: map<string, string>, now: real, k: string): Option<Message> {
    if k in problems then
      var s := Counted(open, k, problems[k], now);
      if !Due(c, s, now) then None
      else Some(Alert(k, problems[k], if s.sent == 0.0 then None else Some(now - s.since)))
    else if k in open && open[k].sent != 0.0 then Some(Clear(k, open[k].text, now - open[k].since))
    else None
  }

  function Stepped(c: Config, open: Open, problems: map<string, string>, now: real): Open {
    map k | k in problems :: Updated(c, open, k, problems[k], now)
  }

  predicate Silent(c: Config, open: Open, problems: map<string, string>, now: real) {
    forall k :: k in problems.Keys + open.Keys ==> Said(c, open, problems, now, k).None?
  }

  /** The state is kept when there was nothing to say or it was heard. */
  predicate Saves(c: Config, open: Open, run: Run) {
    run.heard || (!run.others && Silent(c, open, Carried(open, run), run.now))
  }

  function Kept(c: Config, open: Open, run: Run): Open {
    if Saves(c, open, run) then Stepped(c, open, Carried(open, run), run.now) else open
  }

  /** What reaches the administrator about one key. */
  function Heard(c: Config, open: Open, run: Run, k: string): Option<Message> {
    if Saves(c, open, run) then Said(c, open, Carried(open, run), run.now, k) else None
  }

  // ---------------------------------------------------------------- the program

  /** The messages about one key, in order. */
  function About(msgs: seq<Message>, k: string): seq<Message> {
    if msgs == [] then []
    else
      var m, earlier := msgs[|msgs| - 1], About(msgs[..|msgs| - 1], k);
      if m.key == k then earlier + [m] else earlier
  }

  function AsSeq(m: Option<Message>): seq<Message> {
    if m.None? then [] else [m.value]
  }

  /** So far exactly what there is to say about `keys` was said. */
  ghost predicate SaidSoFar(c: Config, open: Open, problems: map<string, string>, now: real, msgs: seq<Message>, keys: set<string>) {
    forall k :: About(msgs, k) == if k in keys then AsSeq(Said(c, open, problems, now, k)) else []
  }

  lemma AboutAppend(msgs: seq<Message>, m: Option<Message>, k: string)
    ensures About(msgs + AsSeq(m), k) == About(msgs, k) + if m.Some? && m.value.key == k then AsSeq(m) else []
  {
    if m.Some? {
      assert (msgs + AsSeq(m))[..|msgs|] == msgs;
    } else {
      assert msgs + AsSeq(m) == msgs;
    }
  }

  lemma SayNext(c: Config, open: Open, problems: map<string, string>, now: real, msgs: seq<Message>, keys: set<string>, k: string)
    requires SaidSoFar(c, open, problems, now, msgs, keys) && k !in keys
    ensures SaidSoFar(c, open, problems, now, msgs + AsSeq(Said(c, open, problems, now, k)), keys + {k})
  {
    var m := Said(c, open, problems, now, k);
    assert m.Some? ==> m.value.key == k;
    forall other ensures About(msgs + AsSeq(m), other) ==
      if other in keys + {k} then AsSeq(Said(c, open, problems, now, other)) else []
    {
      AboutAppend(msgs, m, other);
      assert About(msgs, other) == if other in keys then AsSeq(Said(c, open, problems, now, other)) else [];
    }
  }

  lemma SaidToAll(c: Config, open: Open, problems: map<string, string>, now: real, msgs: seq<Message>)
    requires SaidSoFar(c, open, problems, now, msgs, problems.Keys + open.Keys)
    ensures forall k :: About(msgs, k) == AsSeq(Said(c, open, problems, now, k))
    ensures msgs == [] <==> Silent(c, open, problems, now)
  {
    if msgs == [] {
      forall k | k in problems.Keys + open.Keys ensures Said(c, open, problems, now, k).None? {
        assert About(msgs, k) == [];
      }
    } else {
      var k := msgs[|msgs| - 1].key;
      assert About(msgs, k) != [];
    }
  }

  class Monitor {
    const c: Config
    var open: Open

    constructor (c: Config)
      ensures this.c == c && open == map[]
    {
      this.c, open := c, map[];
    }

    /** The carry-over in `main`: an unanswering host's open problems are kept. */
    method CarryOver(run: Run) returns (problems: map<string, string>)
      ensures problems == Carried(open, run)
    {
      problems := run.problems;
      var hosts := run.down;
      while hosts != {}
        invariant hosts <= run.down
        invariant forall k :: k in problems <==>
          k in run.problems || (k in open && exists h :: h in run.down - hosts && Belongs(k, h))
        invariant forall k :: k in problems ==> problems[k] == if k in run.problems then run.problems[k] else open[k].text
        decreases hosts
      {
        var h :| h in hosts;
        problems := OfHost(problems, h);
        hosts := hosts - {h};
      }
    }

    /** `setdefault` for every open problem of one host. */
    method OfHost(found: map<string, string>, h: string) returns (problems: map<string, string>)
      ensures forall k :: k in problems <==> k in found || (k in open && Belongs(k, h))
      ensures forall k :: k in problems ==> problems[k] == if k in found then found[k] else open[k].text
    {
      problems := found;
      var left := open.Keys;
      while left != {}
        invariant left <= open.Keys
        invariant forall k :: k in problems <==> k in found || (k in open.Keys - left && Belongs(k, h))
        invariant forall k :: k in problems ==> problems[k] == if k in found then found[k] else open[k].text
        decreases left
      {
        var k :| k in left;
        if Belongs(k, h) && k !in problems {
          problems := problems[k := open[k].text];
        }
        left := left - {k};
      }
    }

    /** The first loop of `step`: alerts and reminders. */
    method Alerts(problems: map<string, string>, now: real) returns (msgs: seq<Message>, kept: Open)
      ensures kept == Stepped(c, open, problems, now)
      ensures SaidSoFar(c, open, problems, now, msgs, problems.Keys)
    {
      msgs, kept := [], map[];
      var left := problems.Keys;
      while left != {}
        invariant left <= problems.Keys && kept.Keys == problems.Keys - left
        invariant forall k :: k in kept ==> kept[k] == Updated(c, open, k, problems[k], now)
        invariant SaidSoFar(c, open, problems, now, msgs, problems.Keys - left)
        decreases left
      {
        var k :| k in left;
        var said, s := Count(problems[k], k, now);
        SayNext(c, open, problems, now, msgs, problems.Keys - left, k);
        msgs, kept := msgs + AsSeq(said), kept[k := s];
        assert problems.Keys - left + {k} == problems.Keys - (left - {k});
        left := left - {k};
      }
      assert problems.Keys - left == problems.Keys;
    }

    /** One round of that loop. */
    method Count(text: string, k: string, now: real) returns (said: Option<Message>, s: Problem)
      ensures s == Updated(c, open, k, text, now)
      ensures forall problems :: k in problems && problems[k] == text ==> said == Said(c, open, problems, now, k)
    {
      s := if k in open then open[k] else Problem(now, 0, 0.0, text);
      s := s.(count := s.count + 1, text := text);
      said := None;
      if s.count >= c.confirm && (s.sent == 0.0 || now - s.sent >= c.remind) {
        said := Some(Alert(k, text, if s.sent == 0.0 then None else Some(now - s.since)));
        s := s.(sent := now);
      }
    }

    /** One round of the loop that follows. */
    method AllClear(problems: map<string, string>, k: string, now: real, said: seq<Message>, ghost done: set<string>)
      returns (msgs: seq<Message>)
      requires k in open && k !in problems && k !in done
      requires SaidSoFar(c, open, problems, now, said, done)
      ensures SaidSoFar(c, open, problems, now, msgs, done + {k})
    {
      SayNext(c, open, problems, now, said, done, k);
      msgs := said;
      if open[k].sent != 0.0 {
        msgs := msgs + [Clear(k, open[k].text, now - open[k].since)];
      } else {
        assert said + AsSeq(None) == said;
      }
    }

    /** The second loop of `step`: an all-clear for what was told and is gone. */
    method AllClears(problems: map<string, string>, now: real, alerts: seq<Message>) returns (msgs: seq<Message>)
      requires SaidSoFar(c, open, problems, now, alerts, problems.Keys)
      ensures SaidSoFar(c, open, problems, now, msgs, problems.Keys + open.Keys)
    {
      msgs := alerts;
      var left := open.Keys;
      ghost var done := problems.Keys;
      while left != {}
        invariant left <= open.Keys && done == problems.Keys + (open.Keys - left)
        invariant SaidSoFar(c, open, problems, now, msgs, done)
        decreases left
      {
        var k :| k in left;
        if k !in problems {
          msgs := AllClear(problems, k, now, msgs, done);
          done := done + {k};
        }
        left := left - {k};
      }
      assert done == problems.Keys + open.Keys;
    }

    /** `step`: both loops, the messages of this run and the records it would keep. */
    method Step(problems: map<string, string>, now: real) returns (msgs: seq<Message>, kept: Open)
      ensures kept == Stepped(c, open, problems, now)
      ensures forall k :: About(msgs, k) == AsSeq(Said(c, open, problems, now, k))
      ensures msgs == [] <==> Silent(c, open, problems, now)
    {
      msgs, kept := Alerts(problems, now);
      msgs := AllClears(problems, now, msgs);
      SaidToAll(c, open, problems, now, msgs);
    }

    /** `main` from the loaded state to the saved one. */
    method Check(run: Run) returns (heard: seq<Message>)
      modifies this
      ensures open == Kept(c, old(open), run)
      ensures forall k :: About(heard, k) == AsSeq(Heard(c, old(open), run, k))
    {
      var problems := CarryOver(run);
      var msgs, kept := Step(problems, run.now);
      heard := [];
      if (msgs == [] && !run.others) || run.heard {
        open := kept;
        heard := msgs;
      }
    }
  }

  // ---------------------------------------------------------------- whole runs

  function State(c: Config, runs: seq<Run>): Open {
    if runs == [] then map[] else Kept(c, State(c, runs[..|runs| - 1]), runs[|runs| - 1])
  }

  datatype Delivery = Delivery(at: real, message: Message)

  /** Everything the administrator was ever told about one key. */
  function Log(c: Config, runs: seq<Run>, k: string): seq<Delivery> {
    if runs == [] then []
    else
      var earlier, run := runs[..|runs| - 1], runs[|runs| - 1];
      var said := Heard(c, State(c, earlier), run, k);
      Log(c, earlier, k) + if said.Some? then [Delivery(run.now, said.value)] else []
  }

  /** How many saved runs in a row, up to now, had the problem; runs that were not saved do not count. */
  function Streak(c: Config, runs: seq<Run>, k: string): nat {
    if runs == [] then 0
    else
      var earlier, run := runs[..|runs| - 1], runs[|runs| - 1];
      var before := State(c, earlier);
      if !Saves(c, before, run) then Streak(c, earlier, k)
      else if k in Carried(before, run) then Streak(c, earlier, k) + 1
      else 0
  }

  /** What the last saved run with the problem said of it. */
  function LastText(c: Config, runs: seq<Run>, k: string): string {
    if runs == [] then ""
    else
      var earlier, run := runs[..|runs| - 1], runs[|runs| - 1];
      if Saves(c, State(c, earlier), run) && k in run.problems then run.problems[k] else LastText(c, earlier, k)
  }

  /** A stored problem is remembered in the words of the last saved run that found it. */
  lemma {:induction false} TextIsLast(c: Config, runs: seq<Run>, k: string)
    requires k in State(c, runs)
    ensures State(c, runs)[k].text == LastText(c, runs, k)
  {
    var earlier, run := runs[..|runs| - 1], runs[|runs| - 1];
    TextsAreTrue(c, State(c, earlier), run, k);
    if k in State(c, earlier) {
      TextIsLast(c, earlier, k);
    }
  }

  /** When the current streak began. */
  function Began(c: Config, runs: seq<Run>, k: string): real {
    if runs == [] then 0.0
    else
      var earlier, run := runs[..|runs| - 1], runs[|runs| - 1];
      if Saves(c, State(c, earlier), run) && Streak(c, earlier, k) == 0 then run.now else Began(c, earlier, k)
  }

  /** The clock of a run reads some time after the epoch. */
  predicate Clocked(runs: seq<Run>) {
    forall i :: 0 <= i < |runs| ==> 0.0 < runs[i].now
  }

  predicate Alerted(log: seq<Delivery>) {
    log != [] && log[|log| - 1].message.Alert?
  }

  /**
   * Alerts and all-clears about one key come in episodes: the first alert says nothing of
   * duration, the later ones do, and exactly one all-clear ends them.
   */
  predicate Episodes(log: seq<Delivery>) {
    forall i :: 0 <= i < |log| ==>
      if log[i].message.Alert? then log[i].message.lasting.Some? == Alerted(log[..i]) else Alerted(log[..i])
  }

  predicate Spaced(log: seq<Delivery>, remind: real) {
    forall i :: 0 < i < |log| && log[i - 1].message.Alert? && log[i].message.Alert? ==> log[i].at - log[i - 1].at >= remind
  }

  /** What a stored record says, in terms of what happened. */
  ghost predicate Remembers(c: Config, open: Open, log: seq<Delivery>, streak: nat, began: real, k: string) {
    && (k in open <==> 0 < streak)
    && (k in open ==> open[k].count == streak && open[k].since == began)
    && (Alerted(log) <==> streak >= Max(1, c.confirm))
    && (k in open ==> open[k].sent == if Alerted(log) then log[|log| - 1].at else 0.0)
    && (Alerted(log) ==> log[|log| - 1].at != 0.0)
  }

  /** One more saved run, for a key it has a problem with. */
  lemma RememberFound(c: Config, open: Open, log: seq<Delivery>, streak: nat, began: real, k: string, problems: map<string, string>, now: real)
    requires Remembers(c, open, log, streak, began, k) && 0.0 < now && k in problems
    ensures var said := Said(c, open, problems, now, k);
      Remembers(c, Stepped(c, open, problems, now), log + (if said.Some? then [Delivery(now, said.value)] else []),
                streak + 1, if streak == 0 then now else began, k)
  {
  }

  /** One more saved run, for a key it has no problem with. */
  lemma RememberGone(c: Config, open: Open, log: seq<Delivery>, streak: nat, began: real, k: string, problems: map<string, string>, now: real, other: real)
    requires Remembers(c, open, log, streak, began, k) && k !in problems
    ensures var said := Said(c, open, problems, now, k);
      Remembers(c, Stepped(c, open, problems, now), log + (if said.Some? then [Delivery(now, said.value)] else []), 0, other, k)
  {
  }

  lemma {:induction false} RecordIsHistory(c: Config, runs: seq<Run>, k: string)
    requires Clocked(runs)
    ensures Remembers(c, State(c, runs), Log(c, runs, k), Streak(c, runs, k), Began(c, runs, k), k)
  {
    if runs != [] {
      var earlier, run := runs[..|runs| - 1], runs[|runs| - 1];
      RecordIsHistory(c, earlier, k);
      var open := State(c, earlier);
      var problems := Carried(open, run);
      if Saves(c, open, run) {
        if k in problems {
          RememberFound(c, open, Log(c, earlier, k), Streak(c, earlier, k), Began(c, earlier, k), k, problems, run.now);
        } else {
          RememberGone(c, open, Log(c, earlier, k), Streak(c, earlier, k), Began(c, earlier, k), k, problems, run.now, Began(c, runs, k));
        }
      } else {
        assert Log(c, runs, k) == Log(c, earlier, k);
      }
    }
  }

  /** The administrator's last word on a problem is an alert exactly when it lasted the configured number of saved runs. */
  lemma ToldExactly(c: Config, runs: seq<Run>, k: string)
    requires Clocked(runs)
    ensures Alerted(Log(c, runs, k)) <==> Streak(c, runs, k) >= Max(1, c.confirm)
  {
    RecordIsHistory(c, runs, k);
  }

  /** What a run says of a key, decided from past deliveries and the streak alone. */
  function FromHistory(c: Config, log: seq<Delivery>, streak: nat, began: real, found: bool, now: real): Option<(bool, Option<real>)> {
    if found then
      if streak + 1 < c.confirm then None
      else if !Alerted(log) then Some((true, None))
      else if now - log[|log| - 1].at >= c.remind then Some((true, Some(now - began)))
      else None
    else if Alerted(log) then Some((false, Some(now - began)))
    else None
  }

  function Shape(m: Option<Message>): Option<(bool, Option<real>)> {
    match m
    case None => None
    case Some(Alert(_, _, lasting)) => Some((true, lasting))
    case Some(Clear(_, _, lasted)) => Some((false, Some(lasted)))
  }

  lemma RecordDecides(c: Config, open: Open, log: seq<Delivery>, streak: nat, began: real, k: string,
                      problems: map<string, string>, now: real)
    requires Remembers(c, open, log, streak, began, k)
    ensures Shape(Said(c, open, problems, now, k)) == FromHistory(c, log, streak, began, k in problems, now)
  {
  }

  /** The stored records add nothing: the next message follows from what was delivered before. */
  lemma HistoryDecides(c: Config, runs: seq<Run>, run: Run, k: string)
    requires Clocked(runs)
    ensures var problems := Carried(State(c, runs), run);
      Shape(Said(c, State(c, runs), problems, run.now, k)) ==
      FromHistory(c, Log(c, runs, k), Streak(c, runs, k), Began(c, runs, k), k in problems, run.now)
  {
    RecordIsHistory(c, runs, k);
    RecordDecides(c, State(c, runs), Log(c, runs, k), Streak(c, runs, k), Began(c, runs, k), k,
                  Carried(State(c, runs), run), run.now);
  }

  lemma EpisodesAppend(log: seq<Delivery>, d: Delivery, remind: real)
    requires Episodes(log) && Spaced(log, remind)
    requires Alerted(log) && d.message.Alert? ==> d.at - log[|log| - 1].at >= remind
    requires if d.message.Alert? then d.message.lasting.Some? == Alerted(log) else Alerted(log)
    ensures Episodes(log + [d]) && Spaced(log + [d], remind)
  {
  }

  /** With sends failing at will, each key's deliveries are episodes, and reminders keep their distance. */
  lemma {:induction false} DeliveriesAreEpisodes(c: Config, runs: seq<Run>, k: string)
    requires Clocked(runs)
    ensures Episodes(Log(c, runs, k)) && Spaced(Log(c, runs, k), c.remind)
  {
    if runs != [] {
      var earlier, run := runs[..|runs| - 1], runs[|runs| - 1];
      DeliveriesAreEpisodes(c, earlier, k);
      var said := Heard(c, State(c, earlier), run, k);
      if said.Some? {
        HistoryDecides(c, earlier, run, k);
        EpisodesAppend(Log(c, earlier, k), Delivery(run.now, said.value), c.remind);
      } else {
        assert Log(c, runs, k) == Log(c, earlier, k);
      }
    }
  }

  /** The first alert of an episode comes when, and only when, the streak reaches the configured length. */
  lemma FirstAlertOnTime(c: Config, runs: seq<Run>, run: Run, k: string)
    requires Clocked(runs + [run])
    ensures var said := Heard(c, State(c, runs), run, k);
      (said.Some? && said.value.Alert? && said.value.lasting.None?) <==>
      (Streak(c, runs, k) < Max(1, c.confirm) == Streak(c, runs + [run], k))
  {
    assert (runs + [run])[..|runs|] == runs;
    assert forall i :: 0 <= i < |runs| ==> runs[i] == (runs + [run])[i];
    RecordIsHistory(c, runs, k);
    RecordIsHistory(c, runs + [run], k);
  }

  /** While host `h` does not answer, nothing about it but its not answering is called fixed or forgotten. */
  lemma NoAllClearInTheDark(c: Config, open: Open, run: Run, h: string, x: string)
    requires h in run.down && x != "down"
    ensures var said := Heard(c, open, run, h + ":" + x);
      said.Some? ==> said.value.Alert? && said.value.key == h + ":" + x
    ensures h + ":" + x in open ==> h + ":" + x in Kept(c, open, run)
  {
    var k := h + ":" + x;
    if k in open {
      assert k != h + ":down" by {
        assert k[|h| + 1..] == x && (h + ":down")[|h| + 1..] == "down";
      }
      assert h + ":" <= k;
      assert k in Carried(open, run);
    }
  }

  /** What no silent host answers for, and a silence that is over, gets its all-clear at once, and is forgotten. */
  lemma AllClearInTheLight(c: Config, open: Open, run: Run, k: string)
    requires k !in run.problems && forall h :: h in run.down && h + ":" <= k ==> k == h + ":down"
    ensures k !in Carried(open, run)
    ensures Saves(c, open, run) ==> k !in Kept(c, open, run)
    ensures Saves(c, open, run) ==>
      Heard(c, open, run, k) == if k in open && open[k].sent != 0.0 then Some(Clear(k, open[k].text, run.now - open[k].since)) else None
  {
  }

  /** Every message is about its key, in the words of this run's check, or for an all-clear and a carried problem the last remembered. */
  lemma TextsAreTrue(c: Config, open: Open, run: Run, k: string)
    ensures var said := Heard(c, open, run, k);
      && (said.Some? ==> said.value.key == k)
      && (said.Some? && k in run.problems ==> said.value.Alert? && said.value.text == run.problems[k])
      && (said.Some? && k !in run.problems ==> k in open && said.value.text == open[k].text)
    ensures k in run.problems && Saves(c, open, run) ==> k in Kept(c, open, run) && Kept(c, open, run)[k].text == run.problems[k]
    ensures k in open && k !in run.problems && k in Kept(c, open, run) ==> Kept(c, open, run)[k].text == open[k].text
  {
  }

  /** Nothing is kept of a run that had something to say and was not heard; every other run is kept. */
  lemma KeptExactly(c: Config, open: Open, run: Run)
    ensures var problems := Carried(open, run);
      var news := run.others || exists k :: Said(c, open, problems, run.now, k).Some?;
      && (news && !run.heard ==> Kept(c, open, run) == open && forall k :: Heard(c, open, run, k).None?)
      && (!news || run.heard ==>
            Kept(c, open, run).Keys == problems.Keys && forall k :: Heard(c, open, run, k) == Said(c, open, problems, run.now, k))
  {
    var problems := Carried(open, run);
    if k :| Said(c, open, problems, run.now, k).Some? {
      assert k in problems.Keys + open.Keys;
    }
  }

  /** A run that was not heard neither counts nor breaks a streak: here the problem was gone in between. */
  lemma UnheardRunsDoNotCount()
    ensures var c := Config(2, 3600.0);
      var bad, gone, again := Run(map["web" := "down"], {}, 1.0, false, true), Run(map[], {}, 2.0, true, false),
                              Run(map["web" := "down"], {}, 3.0, false, true);
      "web" !in Carried(State(c, [bad]), gone) && Streak(c, [bad, gone, again], "web") == 2
      && Alerted(Log(c, [bad, gone, again], "web"))
  {
    var c := Config(2, 3600.0);
    var bad, gone, again := Run(map["web" := "down"], {}, 1.0, false, true), Run(map[], {}, 2.0, true, false),
                            Run(map["web" := "down"], {}, 3.0, false, true);
    assert [bad, gone, again][..2] == [bad, gone] && [bad, gone][..1] == [bad] && [bad][..0] == [];
    assert Streak(c, [], "web") == 0;
    assert Streak(c, [bad], "web") == 1;
    assert Streak(c, [bad, gone], "web") == 1;
    ToldExactly(c, [bad, gone, again], "web");
  }
}
