/** What the observer remembers and counts, said of the events themselves: the
    last ones received, the ones recent enough, and one alert per identity. */
module ObserverWindows {
  import opened OperationStore
  import opened EventObserver

  // ------------------------------------------------------------ what is kept

  function Latest<T>(s: seq<T>, n: nat): seq<T> { if |s| <= n then s else s[|s| - n..] }

  function Ids(s: seq<Event>): set<string> { set e | e in s :: e.id }

  lemma {:induction false} TrimKeepsLatest(dq: seq<Event>, seen: set<string>)
    ensures Trim(dq, seen).0 == Latest(dq, MAX_DEQUE)
    ensures |dq| <= MAX_DEQUE ==> Trim(dq, seen).1 == seen
    ensures |dq| == MAX_DEQUE + 1 ==> Trim(dq, seen).1 == seen - {dq[0].id}
    decreases |dq|
  {
    if |dq| > MAX_DEQUE {
      TrimKeepsLatest(dq[1..], seen - {dq[0].id});
      if |dq| > MAX_DEQUE + 1 { assert dq[1..][|dq| - 1 - MAX_DEQUE..] == dq[|dq| - MAX_DEQUE..]; }
    }
  }

  /** A new event is the last of its worker's window, which is the latest 10000
      events received; beyond them the oldest event and its identity go.  No
      other worker's window or identities change, and the event is stored. */
  lemma NewEventIsAppended(s: State, e: Event, now: int, c: Config)
    requires WindowsOk(s) && !Known(s, e, c)
    ensures var v, k, was := Feed(s, e, now, c).state, KeyOf(e), Deque(s, KeyOf(e));
            && Deque(v, k) == Latest(was + [e], MAX_DEQUE) && Deque(v, k) != [] && Deque(v, k)[|Deque(v, k)| - 1] == e
            && SeenBy(v, k) == SeenBy(s, k) + {e.id} - (if |was| == MAX_DEQUE then {was[0].id} else {})
            && (forall other | other != k :: Deque(v, other) == Deque(s, other) && SeenBy(v, other) == SeenBy(s, other))
            && v.events == if c.persistent then s.events + {e.id} else s.events
  {
    hide Evaluate, Trim;
    var was := Deque(s, KeyOf(e));
    assert DequeOk(was, SeenBy(s, KeyOf(e)));
    TrimKeepsLatest(was + [e], SeenBy(s, KeyOf(e)) + {e.id});
  }

  /** A known event raises nothing, and leaves windows, clocks and facts alone. */
  lemma KnownEventIsIgnored(s: State, e: Event, now: int, c: Config)
    requires Known(s, e, c)
    ensures var r := Feed(s, e, now, c);
            r.alerts == [] && SameButSeen(r.state, s) && e.id in SeenBy(r.state, KeyOf(e))
  {
  }

  // --------------------------------------------------------- what is counted

  /** The time of the dated event received last. */
  function Clock(dq: seq<Event>): Option<int> {
    if dq == [] then None
    else if dq[|dq| - 1].at.Some? then dq[|dq| - 1].at
    else Clock(dq[..|dq| - 1])
  }

  /** No older than `seconds` before the clock. */
  predicate IsRecent(e: Event, dq: seq<Event>, seconds: int) {
    e.at.Some? && Clock(dq).Some? && e.at.value >= Clock(dq).value - seconds
  }

  /** What the rules count. */
  datatype Feature = Active | Progressing(strongOnly: bool) | Failing(fingerprint: string)

  predicate Has(e: Event, f: Feature) {
    match f
    case Active => e.activity
    case Progressing(strongOnly) => if strongOnly then e.strong else e.progress
    case Failing(fp) => e.isError && (if e.fingerprint == "" then "(no-fingerprint)" else e.fingerprint) == fp
  }

  lemma {:induction false} ClockIsLastDated(dq: seq<Event>)
    ensures Clock(dq).Some? <==> Dated(dq) != []
    ensures Dated(dq) != [] ==> Dated(dq)[|Dated(dq)| - 1].at == Clock(dq)
  {
    if dq != [] { ClockIsLastDated(dq[..|dq| - 1]); }
  }

  predicate AtLeast(e: Event, cutoff: int) { e.at.Some? && e.at.value >= cutoff }

  lemma SinceSnoc(w: seq<Event>, e: Event, cutoff: int)
    ensures Since(w + [e], cutoff) == if AtLeast(e, cutoff) then Since(w, cutoff) + [e] else Since(w, cutoff)
  {
    assert (w + [e])[..|w|] == w && Since(w, cutoff) + [] == Since(w, cutoff);
  }

  lemma DatedSnoc(w: seq<Event>, e: Event)
    ensures Dated(w + [e]) == if e.at.Some? then Dated(w) + [e] else Dated(w)
  {
    assert (w + [e])[..|w|] == w && Dated(w) + [] == Dated(w);
  }

  lemma {:induction false} SinceOfDated(dq: seq<Event>, cutoff: int)
    ensures Since(Dated(dq), cutoff) == Since(dq, cutoff)
  {
    if dq != [] {
      var front, e := dq[..|dq| - 1], dq[|dq| - 1];
      assert dq == front + [e];
      SinceOfDated(front, cutoff);
      SinceSnoc(Dated(front), e, cutoff);
      SinceSnoc(front, e, cutoff);
      DatedSnoc(front, e);
    }
  }

  /** The window is the recent part of the deque. */
  lemma WindowIsRecent(dq: seq<Event>, seconds: int)
    ensures Window(dq, seconds) == if Clock(dq).Some? then Since(dq, Clock(dq).value - seconds) else []
  {
    ClockIsLastDated(dq);
    DatedAreDated(dq);
    if Clock(dq).Some? { SinceOfDated(dq, Clock(dq).value - seconds); }
  }

  /** The rules' own way of counting. */
  function Counted(w: seq<Event>, f: Feature): nat {
    match f
    case Active => CountActivity(w)
    case Progressing(strongOnly) => CountProgress(w, strongOnly)
    case Failing(fp) => |Group(w, fp)|
  }

  lemma CountedSnoc(w: seq<Event>, e: Event, f: Feature)
    ensures Counted(w + [e], f) == Counted(w, f) + if Has(e, f) then 1 else 0
  {
    assert (w + [e])[..|w|] == w && (w + [e])[|w|] == e;
  }

  /** The positions of the recent events with a feature. */
  function Positions(dq: seq<Event>, cutoff: int, f: Feature): set<nat> {
    set i: nat | i < |dq| && Has(dq[i], f) && AtLeast(dq[i], cutoff)
  }

  lemma PositionsSnoc(w: seq<Event>, e: Event, cutoff: int, f: Feature)
    ensures |Positions(w + [e], cutoff, f)| == |Positions(w, cutoff, f)| + if Has(e, f) && AtLeast(e, cutoff) then 1 else 0
  {
    hide Has, AtLeast;
    var more := if Has(e, f) && AtLeast(e, cutoff) then {|w|} else {};
    assert Positions(w + [e], cutoff, f) == Positions(w, cutoff, f) + more;
  }

  lemma {:induction false} CountedIsPositions(dq: seq<Event>, cutoff: int, f: Feature)
    ensures Counted(Since(dq, cutoff), f) == |Positions(dq, cutoff, f)|
  {
    if dq == [] {
      assert Positions(dq, cutoff, f) == {};
    } else {
      hide Counted, Since, Has, Positions, AtLeast;
      var front, e := dq[..|dq| - 1], dq[|dq| - 1];
      assert dq == front + [e];
      CountedIsPositions(front, cutoff, f);
      CountedSnoc(Since(front, cutoff), e, f);
      SinceSnoc(front, e, cutoff);
      PositionsSnoc(front, e, cutoff, f);
    }
  }

  /** How many events of the deque are recent and have the feature. */
  function HowMany(dq: seq<Event>, seconds: int, f: Feature): nat {
    |set i: nat | i < |dq| && Has(dq[i], f) && IsRecent(dq[i], dq, seconds)|
  }

  lemma NothingCounts(f: Feature)
    ensures Counted([], f) == 0
  {
  }

  lemma WindowCounts(dq: seq<Event>, seconds: int, f: Feature)
    ensures Counted(Window(dq, seconds), f) == HowMany(dq, seconds, f)
  {
    hide Window, Since, Dated, Counted, Clock, Has;
    WindowIsRecent(dq, seconds);
    NothingCounts(f);
    var counted := set i: nat | i < |dq| && Has(dq[i], f) && IsRecent(dq[i], dq, seconds);
    if Clock(dq).Some? {
      CountedIsPositions(dq, Clock(dq).value - seconds, f);
      assert counted == Positions(dq, Clock(dq).value - seconds, f);
    } else {
      assert counted == {};
    }
  }

  /** The latest events the worker's window will hold with this one. */
  function Grown(s: State, e: Event): seq<Event> { Latest(Deque(s, KeyOf(e)) + [e], MAX_DEQUE) }

  /** Not within the cooldown of the last alert about it, and not yet recorded. */
  predicate Free(s: State, key: AlertKey, cooldown: int, now: int, c: Config) {
    (key in s.last ==> now - s.last[key] >= cooldown) && !(c.persistent && (key, now) in s.recorded)
  }

  /** A new event raises NO_PROGRESS exactly when, of the latest 10000 events of
      its worker no older than the window before the clock, enough are activity
      and too few are progress, and the alert is free. */
  lemma StallIff(s: State, e: Event, now: int, c: Config)
    requires WindowsOk(s) && !Known(s, e, c)
    ensures var key, dq := AlertKey(e.project, e.worker, None), Grown(s, e);
            AlertFor(Feed(s, e, now, c).alerts, key) <==>
              && HowMany(dq, c.stallWindow, Active) >= c.minActivity
              && HowMany(dq, c.stallWindow, Progressing(c.strongOnly)) <= c.maxProgress
              && Free(s, key, c.stallCooldown, now, c)
  {
    hide Feed, WindowsOk, Window, HowMany, CountActivity, CountProgress, Clock;
    var dq := Grown(s, e);
    NoProgressIff(s, e, now, c);
    NewEventIsAppended(s, e, now, c);
    hide Grown;
    WindowCounts(dq, c.stallWindow, Active);
    WindowCounts(dq, c.stallWindow, Progressing(c.strongOnly));
  }

  /** The same for REPEATED_ERROR of one fingerprint. */
  lemma RepetitionIff(s: State, e: Event, now: int, c: Config, fp: string)
    requires WindowsOk(s) && !Known(s, e, c)
    ensures var key, count := AlertKey(e.project, e.worker, Some(fp)), HowMany(Grown(s, e), c.errorWindow, Failing(fp));
            AlertFor(Feed(s, e, now, c).alerts, key) <==> count > 0 && count >= c.errorCount && Free(s, key, c.errorCooldown, now, c)
  {
    hide Feed, WindowsOk, Window, HowMany, Group, Clock;
    var dq := Grown(s, e);
    RepeatedErrorIff(s, e, now, c, fp);
    NewEventIsAppended(s, e, now, c);
    hide Grown;
    WindowCounts(dq, c.errorWindow, Failing(fp));
  }

  // --------------------------------------------------------- the cooldown clock

  /** The clock of a key starts now, or is left alone. */
  predicate ClockStarts(last: map<AlertKey, int>, after: map<AlertKey, int>, key: AlertKey, now: int, starts: bool) {
    if starts then key in after && after[key] == now
    else (key in after <==> key in last) && (key in last ==> after[key] == last[key])
  }

  lemma {:induction false} ErrorClock(a: Alarm, k: Key, w: seq<Event>, fps: seq<string>, c: Config, now: int, fp: string)
    requires DistinctFps(fps) && a.raised == []
    ensures var key := AlertKey(k.0, k.1, Some(fp));
            ClockStarts(a.last, RaiseErrors(a, k, w, fps, c, now).last, key, now,
                        fp in fps && |Group(w, fp)| >= c.errorCount && CooldownOk(a.last, key, c.errorCooldown, now))
    decreases |fps|
  {
    if fps != [] {
      hide Group;
      var front, last := fps[..|fps| - 1], fps[|fps| - 1];
      assert DistinctFps(front) && last !in front && fps == front + [last];
      ErrorClock(a, k, w, front, c, now, fp);
      ErrorClock(a, k, w, front, c, now, last);
    }
  }

  /** The clock of a stall starts whenever one is detected outside its cooldown,
      also when the alert is on record already and is not raised again. */
  lemma StallClockIff(s: State, e: Event, now: int, c: Config)
    requires WindowsOk(s) && !Known(s, e, c)
    ensures var key, dq := AlertKey(e.project, e.worker, None), Grown(s, e);
            ClockStarts(s.last, Feed(s, e, now, c).state.last, key, now,
                        && HowMany(dq, c.stallWindow, Active) >= c.minActivity
                        && HowMany(dq, c.stallWindow, Progressing(c.strongOnly)) <= c.maxProgress
                        && (key in s.last ==> now - s.last[key] >= c.stallCooldown))
  {
    var k, dq := KeyOf(e), Grown(s, e);
    var w, start := Window(dq, c.errorWindow), Alarm(s.last, s.recorded, []);
    hide WindowsOk, Window, HowMany, CountActivity, CountProgress, Clock, RaiseErrors, Fps, Trim;
    NewEventIsAppended(s, e, now, c);
    TrimKeepsLatest(Deque(s, k) + [e], SeenBy(s, k) + {e.id});
    hide Grown;
    ErrorsLeaveStall(start, k, w, Fps(w), c, now);
    WindowCounts(dq, c.stallWindow, Active);
    WindowCounts(dq, c.stallWindow, Progressing(c.strongOnly));
  }

  /** The same for the clock of a fingerprint. */
  lemma RepetitionClockIff(s: State, e: Event, now: int, c: Config, fp: string)
    requires WindowsOk(s) && !Known(s, e, c)
    ensures var key, count := AlertKey(e.project, e.worker, Some(fp)), HowMany(Grown(s, e), c.errorWindow, Failing(fp));
            ClockStarts(s.last, Feed(s, e, now, c).state.last, key, now,
                        count > 0 && count >= c.errorCount && (key in s.last ==> now - s.last[key] >= c.errorCooldown))
  {
    var k, dq := KeyOf(e), Grown(s, e);
    var w, start := Window(dq, c.errorWindow), Alarm(s.last, s.recorded, []);
    hide WindowsOk, Window, HowMany, Group, Clock, RaiseErrors, Fps, Trim;
    NewEventIsAppended(s, e, now, c);
    TrimKeepsLatest(Deque(s, k) + [e], SeenBy(s, k) + {e.id});
    hide Grown;
    FpsAreDistinct(w);
    ErrorClock(start, k, w, Fps(w), c, now, fp);
    WindowCounts(dq, c.errorWindow, Failing(fp));
  }

  // -------------------------------------------------- one alert per identity

  /** No two alerts share key and time, and all of them are on record. */
  ghost predicate OncePer(alerts: seq<Alert>, recorded: set<(AlertKey, int)>) {
    && (forall i, j | 0 <= i < j < |alerts| :: (alerts[i].key, alerts[i].at) != (alerts[j].key, alerts[j].at))
    && (forall i | 0 <= i < |alerts| :: (alerts[i].key, alerts[i].at) in recorded)
  }

  lemma RaiseKeepsOnce(past: seq<Alert>, a: Alarm, key: AlertKey, cooldown: int, now: int, count: nat)
    requires OncePer(past + a.raised, a.recorded)
    ensures var b := Raise(a, key, cooldown, now, count, true); OncePer(past + b.raised, b.recorded) && a.recorded <= b.recorded
  {
    var b := Raise(a, key, cooldown, now, count, true);
    if b.raised != a.raised { assert past + b.raised == (past + a.raised) + [Alert(key, now, count)]; }
  }

  lemma {:induction false} ErrorsKeepOnce(past: seq<Alert>, a: Alarm, k: Key, w: seq<Event>, fps: seq<string>, c: Config, now: int)
    requires c.persistent && OncePer(past + a.raised, a.recorded)
    ensures var b := RaiseErrors(a, k, w, fps, c, now); OncePer(past + b.raised, b.recorded) && a.recorded <= b.recorded
    decreases |fps|
  {
    hide OncePer, Raise;
    if fps != [] {
      var fp := fps[|fps| - 1];
      ErrorsKeepOnce(past, a, k, w, fps[..|fps| - 1], c, now);
      var before := RaiseErrors(a, k, w, fps[..|fps| - 1], c, now);
      RaiseKeepsOnce(past, before, AlertKey(k.0, k.1, Some(fp)), c.errorCooldown, now, |Group(w, fp)|);
    }
  }

  lemma FeedKeepsOnce(past: seq<Alert>, s: State, e: Event, now: int, c: Config)
    requires c.persistent && OncePer(past, s.recorded)
    ensures var r := Feed(s, e, now, c); OncePer(past + r.alerts, r.state.recorded) && s.recorded <= r.state.recorded
  {
    hide OncePer, Raise, Window, Trim, RaiseErrors, Fps;
    var k := KeyOf(e);
    assert past + [] == past;
    if !Known(s, e, c) {
      var dq := Trim(Deque(s, k) + [e], SeenBy(s, k) + {e.id}).0;
      var w, start := Window(dq, c.errorWindow), Alarm(s.last, s.recorded, []);
      ErrorsKeepOnce(past, start, k, w, Fps(w), c, now);
      var errors := RaiseErrors(start, k, w, Fps(w), c, now);
      RaiseKeepsOnce(past, errors, AlertKey(k.0, k.1, None), c.stallCooldown, now, CountActivity(Window(dq, c.stallWindow)));
    }
  }

  /** With a persistent store no alert is raised twice, whatever is fed and in
      whatever order, also by a process that starts with nothing but the store. */
  lemma {:induction false} AlertsAreRaisedOnce(past: seq<Alert>, s: State, inputs: Inputs, c: Config)
    requires c.persistent && OncePer(past, s.recorded)
    ensures var r := Run(s, inputs, c); OncePer(past + r.alerts, r.state.recorded) && s.recorded <= r.state.recorded
    decreases |inputs|
  {
    hide Feed, OncePer;
    if inputs == [] {
      assert past + [] == past;
    } else {
      var e, now := inputs[0].0, inputs[0].1;
      FeedKeepsOnce(past, s, e, now, c);
      var one := Feed(s, e, now, c);
      AlertsAreRaisedOnce(past + one.alerts, one.state, inputs[1..], c);
      assert past + one.alerts + Run(one.state, inputs[1..], c).alerts == past + (one.alerts + Run(one.state, inputs[1..], c).alerts);
    }
  }
}
