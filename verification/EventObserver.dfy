/** The observer: a bounded window of events per worker, persistent dedup, and
    two windowed alerts with cooldown. */
module EventObserver {
  import opened OperationStore

  const MAX_DEQUE := 10000

  /** `at`: None when the timestamp does not parse. */
  datatype Event = Event(
    project: string, worker: string, id: string, at: Option<int>,
    isError: bool, activity: bool, progress: bool, strong: bool, fingerprint: string)

  type Key = (string, string)

  datatype Config = Config(
    errorWindow: int, errorCount: nat, errorCooldown: int,
    stallWindow: int, minActivity: nat, maxProgress: nat, stallCooldown: int,
    strongOnly: bool, persistent: bool)

  /** `fingerprint`: None for a stall. */
  datatype AlertKey = AlertKey(project: string, worker: string, fingerprint: Option<string>)

  datatype Alert = Alert(key: AlertKey, at: int, count: nat)

  /** Cooldown clocks, recorded alert identities, and what was raised. */
  datatype Alarm = Alarm(last: map<AlertKey, int>, recorded: set<(AlertKey, int)>, raised: seq<Alert>)

  datatype State = State(
    deques: map<Key, seq<Event>>, seen: map<Key, set<string>>, events: set<string>,
    last: map<AlertKey, int>, recorded: set<(AlertKey, int)>)

  const Blank := State(map[], map[], {}, map[], {})

  function KeyOf(e: Event): Key { (e.project, e.worker) }

  // --------------------------------------------------------------- the window

  function Dated(dq: seq<Event>): seq<Event> {
    if dq == [] then [] else Dated(dq[..|dq| - 1]) + (if dq[|dq| - 1].at.Some? then [dq[|dq| - 1]] else [])
  }

  function Since(dq: seq<Event>, cutoff: int): seq<Event> {
    if dq == [] then []
    else Since(dq[..|dq| - 1], cutoff)
         + (if dq[|dq| - 1].at.Some? && dq[|dq| - 1].at.value >= cutoff then [dq[|dq| - 1]] else [])
  }

  /** The dated events no older than `seconds` before the latest received. */
  function Window(dq: seq<Event>, seconds: int): seq<Event> {
    var dated := Dated(dq);
    if dated == [] then [] else
    DatedAreDated(dq);
    Since(dated, dated[|dated| - 1].at.value - seconds)
  }

  lemma {:induction false} DatedAreDated(dq: seq<Event>)
    ensures forall i | 0 <= i < |Dated(dq)| :: Dated(dq)[i].at.Some?
  {
    if dq != [] { DatedAreDated(dq[..|dq| - 1]); }
  }

  function Fp(e: Event): string { if e.fingerprint == "" then "(no-fingerprint)" else e.fingerprint }

  /** The errors of one fingerprint. */
  function Group(w: seq<Event>, fp: string): seq<Event> {
    if w == [] then []
    else Group(w[..|w| - 1], fp) + (if w[|w| - 1].isError && Fp(w[|w| - 1]) == fp then [w[|w| - 1]] else [])
  }

  /** Fingerprints in order of first appearance. */
  function Fps(w: seq<Event>): seq<string> {
    if w == [] then [] else
    var before, e := Fps(w[..|w| - 1]), w[|w| - 1];
    if e.isError && Fp(e) !in before then before + [Fp(e)] else before
  }

  function CountActivity(w: seq<Event>): nat {
    if w == [] then 0 else CountActivity(w[..|w| - 1]) + (if w[|w| - 1].activity then 1 else 0)
  }

  function CountProgress(w: seq<Event>, strongOnly: bool): nat {
    if w == [] then 0 else
    CountProgress(w[..|w| - 1], strongOnly)
      + (if (if strongOnly then w[|w| - 1].strong else w[|w| - 1].progress) then 1 else 0)
  }

  // --------------------------------------------------------------- the alarms

  predicate CooldownOk(last: map<AlertKey, int>, key: AlertKey, seconds: int, now: int) {
    key in last ==> now - last[key] >= seconds
  }

  /** One alert, unless it is cooling down or already recorded. */
  function Raise(a: Alarm, key: AlertKey, cooldown: int, now: int, count: nat, persistent: bool): Alarm {
    if !CooldownOk(a.last, key, cooldown, now) then a
    else if persistent && (key, now) in a.recorded then a.(last := a.last[key := now])
    else Alarm(a.last[key := now], if persistent then a.recorded + {(key, now)} else a.recorded, a.raised + [Alert(key, now, count)])
  }

  function RaiseErrors(a: Alarm, k: Key, w: seq<Event>, fps: seq<string>, c: Config, now: int): Alarm
    decreases |fps|
  {
    if fps == [] then a else
    var before, fp := RaiseErrors(a, k, w, fps[..|fps| - 1], c, now), fps[|fps| - 1];
    if |Group(w, fp)| < c.errorCount then before
    else Raise(before, AlertKey(k.0, k.1, Some(fp)), c.errorCooldown, now, |Group(w, fp)|, c.persistent)
  }

  function RaiseStall(a: Alarm, k: Key, w: seq<Event>, c: Config, now: int): Alarm {
    if CountActivity(w) < c.minActivity || CountProgress(w, c.strongOnly) > c.maxProgress then a
    else Raise(a, AlertKey(k.0, k.1, None), c.stallCooldown, now, CountActivity(w), c.persistent)
  }

  function Evaluate(a: Alarm, k: Key, dq: seq<Event>, c: Config, now: int): Alarm {
    var w := Window(dq, c.errorWindow);
    RaiseStall(RaiseErrors(a, k, w, Fps(w), c, now), k, Window(dq, c.stallWindow), c, now)
  }

  // ---------------------------------------------------------------- one event

  function SeenBy(s: State, k: Key): set<string> { if k in s.seen then s.seen[k] else {} }
  function Deque(s: State, k: Key): seq<Event> { if k in s.deques then s.deques[k] else [] }

  /** Oldest events and their identities go first. */
  function Trim(dq: seq<Event>, seen: set<string>): (seq<Event>, set<string>) {
    if |dq| <= MAX_DEQUE then (dq, seen) else Trim(dq[1..], seen - {dq[0].id})
  }

  datatype Fed = Fed(state: State, alerts: seq<Alert>)

  function Feed(s: State, e: Event, now: int, c: Config): Fed {
    var k := KeyOf(e);
    var seen := SeenBy(s, k);
    if e.id in seen then Fed(s.(seen := s.seen[k := seen]), [])
    else if c.persistent && e.id in s.events then Fed(s.(seen := s.seen[k := seen + {e.id}]), [])
    else
      var trimmed := Trim(Deque(s, k) + [e], seen + {e.id});
      var a := Evaluate(Alarm(s.last, s.recorded, []), k, trimmed.0, c, now);
      Fed(State(s.deques[k := trimmed.0], s.seen[k := trimmed.1],
                if c.persistent then s.events + {e.id} else s.events, a.last, a.recorded), a.raised)
  }

  // ------------------------------------------------------------- the observer

  lemma OneMore(w: seq<Event>, i: nat)
    requires i < |w|
    ensures Fps(w[..i + 1]) == if w[i].isError && Fp(w[i]) !in Fps(w[..i]) then Fps(w[..i]) + [Fp(w[i])] else Fps(w[..i])
    ensures forall fp :: Group(w[..i + 1], fp) == Group(w[..i], fp) + if w[i].isError && Fp(w[i]) == fp then [w[i]] else []
  {
    assert w[..i + 1][..i] == w[..i];
  }

  method GroupErrors(w: seq<Event>) returns (order: seq<string>, groups: map<string, seq<Event>>)
    ensures order == Fps(w) && groups.Keys == set fp | fp in order
    ensures forall fp | fp in groups :: groups[fp] == Group(w, fp)
  {
    order, groups := [], map[];
    for i := 0 to |w|
      invariant order == Fps(w[..i]) && groups.Keys == set fp | fp in order
      invariant forall fp | fp in groups :: groups[fp] == Group(w[..i], fp)
      invariant forall fp | fp !in groups :: Group(w[..i], fp) == []
    {
      OneMore(w, i);
      hide Group, Fps;
      var fp := Fp(w[i]);
      if w[i].isError {
        if fp !in groups { order, groups := order + [fp], groups[fp := []]; }
        groups := groups[fp := groups[fp] + [w[i]]];
      }
    }
    assert w[..|w|] == w;
  }

  method TrimOldest(all: seq<Event>, ids: set<string>) returns (dq: seq<Event>, seen: set<string>)
    ensures (dq, seen) == Trim(all, ids)
  {
    dq, seen := all, ids;
    while |dq| > MAX_DEQUE
      invariant Trim(dq, seen) == Trim(all, ids)
    {
      dq, seen := dq[1..], seen - {dq[0].id};
    }
  }

  class Observer {
    var deques: map<Key, seq<Event>>
    var seen: map<Key, set<string>>
    var lastAlert: map<AlertKey, int>
    var events: set<string>
    var recorded: set<(AlertKey, int)>
    const config: Config

    function View(): State reads this { State(deques, seen, events, lastAlert, recorded) }

    constructor (config: Config, events: set<string>, recorded: set<(AlertKey, int)>)
      ensures View() == State(map[], map[], events, map[], recorded) && this.config == config
    {
      this.config := config;
      deques, seen, lastAlert := map[], map[], map[];
      this.events, this.recorded := events, recorded;
    }

    method CooldownAndRecord(key: AlertKey, cooldown: int, now: int, count: nat,
                             raised: seq<Alert>) returns (r: seq<Alert>)
      modifies `lastAlert, `recorded
      ensures Alarm(lastAlert, recorded, r) == Raise(Alarm(old(lastAlert), old(recorded), raised), key, cooldown, now, count, config.persistent)
    {
      if key in lastAlert && now - lastAlert[key] < cooldown { return raised; }
      lastAlert := lastAlert[key := now];
      if config.persistent && (key, now) in recorded { return raised; }
      if config.persistent { recorded := recorded + {(key, now)}; }
      return raised + [Alert(key, now, count)];
    }

    /** Errors grouped by fingerprint, each large group an alert. */
    method CheckRepeatedError(k: Key, dq: seq<Event>, now: int) returns (raised: seq<Alert>)
      modifies `lastAlert, `recorded
      ensures var w := Window(dq, config.errorWindow);
              Alarm(lastAlert, recorded, raised) == RaiseErrors(Alarm(old(lastAlert), old(recorded), []), k, w, Fps(w), config, now)
    {
      hide Window, Raise, Fps, Group;
      var w := Window(dq, config.errorWindow);
      var order, groups := GroupErrors(w);
      raised := [];
      for i := 0 to |order|
        invariant Alarm(lastAlert, recorded, raised)
                  == RaiseErrors(Alarm(old(lastAlert), old(recorded), []), k, w, order[..i], config, now)
      {
        assert order[..i + 1][..i] == order[..i];
        var fp := order[i];
        if |groups[fp]| >= config.errorCount {
          raised := CooldownAndRecord(AlertKey(k.0, k.1, Some(fp)), config.errorCooldown, now, |groups[fp]|, raised);
        }
      }
      assert order[..|order|] == order;
    }

    /** Enough activity in the window and no progress to show for it. */
    method CheckNoProgress(k: Key, dq: seq<Event>, now: int, before: seq<Alert>) returns (raised: seq<Alert>)
      modifies `lastAlert, `recorded
      ensures Alarm(lastAlert, recorded, raised)
              == RaiseStall(Alarm(old(lastAlert), old(recorded), before), k, Window(dq, config.stallWindow), config, now)
    {
      hide Window, Raise;
      var w := Window(dq, config.stallWindow);
      var activity, progress := 0, 0;
      for i := 0 to |w|
        invariant activity == CountActivity(w[..i]) && progress == CountProgress(w[..i], config.strongOnly)
      {
        assert w[..i + 1][..i] == w[..i];
        if w[i].activity { activity := activity + 1; }
        if if config.strongOnly then w[i].strong else w[i].progress { progress := progress + 1; }
      }
      assert w[..|w|] == w;
      if activity < config.minActivity || progress > config.maxProgress { return before; }
      raised := CooldownAndRecord(AlertKey(k.0, k.1, None), config.stallCooldown, now, activity, before);
    }

    method CheckRules(k: Key, dq: seq<Event>, now: int) returns (raised: seq<Alert>)
      modifies `lastAlert, `recorded
      ensures Alarm(lastAlert, recorded, raised) == Evaluate(Alarm(old(lastAlert), old(recorded), []), k, dq, config, now)
    {
      hide Window, RaiseErrors, RaiseStall, Fps;
      raised := CheckRepeatedError(k, dq, now);
      raised := CheckNoProgress(k, dq, now, raised);
    }

    /** Remember a new event, dropping the oldest beyond the bound. */
    method Append(k: Key, e: Event) returns (dq: seq<Event>)
      requires k in seen
      modifies `deques, `seen, `events
      ensures var trimmed := Trim(Deque(old(View()), k) + [e], old(seen)[k] + {e.id});
              dq == trimmed.0 && deques == old(deques)[k := dq] && seen == old(seen)[k := trimmed.1]
      ensures events == if config.persistent then old(events) + {e.id} else old(events)
    {
      hide Trim;
      var ids := seen[k] + {e.id};
      if config.persistent { events := events + {e.id}; }
      dq := (if k in deques then deques[k] else []) + [e];
      dq, ids := TrimOldest(dq, ids);
      deques, seen := deques[k := dq], seen[k := ids];
    }

    method FeedOne(e: Event, now: int) returns (alerts: seq<Alert>)
      modifies this
      ensures Fed(View(), alerts) == Feed(old(View()), e, now, config)
    {
      hide Evaluate, Trim;
      var k := KeyOf(e);
      if k !in seen { seen := seen[k := {}]; }
      if e.id in seen[k] { return []; }
      if config.persistent && e.id in events {
        seen := seen[k := seen[k] + {e.id}];
        return [];
      }
      var dq := Append(k, e);
      alerts := CheckRules(k, dq, now);
    }
  }

  // -------------------------------------------------------- replay is invisible

  /** Events with the clock at which each was fed. */
  type Inputs = seq<(Event, int)>

  function Run(s: State, inputs: Inputs, c: Config): Fed
    decreases |inputs|
  {
    if inputs == [] then Fed(s, [])
    else
      var one := Feed(s, inputs[0].0, inputs[0].1, c);
      var rest := Run(one.state, inputs[1..], c);
      Fed(rest.state, one.alerts + rest.alerts)
  }

  /** The inputs whose identity was neither known before nor given earlier. */
  function Firsts(inputs: Inputs, known: set<string>): Inputs
    decreases |inputs|
  {
    if inputs == [] then []
    else if inputs[0].0.id in known then Firsts(inputs[1..], known)
    else [inputs[0]] + Firsts(inputs[1..], known + {inputs[0].0.id})
  }

  predicate SameButSeen(s: State, t: State) {
    s.deques == t.deques && s.events == t.events && s.last == t.last && s.recorded == t.recorded
  }

  /** What was seen is stored. */
  predicate SeenIsStored(s: State) { forall k | k in s.seen :: s.seen[k] <= s.events }

  lemma {:induction false} TrimShrinks(dq: seq<Event>, a: set<string>, b: set<string>)
    ensures Trim(dq, a).0 == Trim(dq, b).0 && Trim(dq, a).1 <= a
  {
    if |dq| > MAX_DEQUE { TrimShrinks(dq[1..], a - {dq[0].id}, b - {dq[0].id}); }
  }

  lemma FeedIgnoresReplay(s: State, e: Event, now: int, c: Config)
    requires c.persistent && SeenIsStored(s) && e.id in s.events
    ensures var r := Feed(s, e, now, c); r.alerts == [] && SameButSeen(r.state, s) && SeenIsStored(r.state)
  {
  }

  lemma FeedIgnoresSeen(s: State, t: State, e: Event, now: int, c: Config)
    requires c.persistent && SeenIsStored(s) && SeenIsStored(t) && SameButSeen(s, t) && e.id !in s.events
    ensures var r, q := Feed(s, e, now, c), Feed(t, e, now, c);
            && r.alerts == q.alerts && SameButSeen(r.state, q.state)
            && SeenIsStored(r.state) && SeenIsStored(q.state) && r.state.events == s.events + {e.id}
  {
    hide Evaluate, Trim;
    var k := KeyOf(e);
    TrimShrinks(Deque(s, k) + [e], SeenBy(s, k) + {e.id}, SeenBy(t, k) + {e.id});
    TrimShrinks(Deque(t, k) + [e], SeenBy(t, k) + {e.id}, SeenBy(s, k) + {e.id});
  }

  /** With a persistent store, a history full of replays leaves the same windows,
      cooldowns, stored facts and alerts as its first occurrences alone. */
  lemma {:induction false} ReplayIsTransparent(s: State, t: State, inputs: Inputs, c: Config)
    requires c.persistent && SeenIsStored(s) && SeenIsStored(t) && SameButSeen(s, t)
    ensures var r, q := Run(s, inputs, c), Run(t, Firsts(inputs, t.events), c);
            r.alerts == q.alerts && SameButSeen(r.state, q.state)
    decreases |inputs|
  {
    hide Feed, SameButSeen, SeenIsStored;
    if inputs != [] {
      var e, now := inputs[0].0, inputs[0].1;
      SameFields(s, t);
      if e.id in t.events {
        FeedIgnoresReplay(s, e, now, c);
        var r := Feed(s, e, now, c);
        SameTransitive(r.state, s, t);
        ReplayIsTransparent(r.state, t, inputs[1..], c);
      } else {
        FeedIgnoresSeen(s, t, e, now, c);
        var r, q := Feed(s, e, now, c), Feed(t, e, now, c);
        SameFields(r.state, q.state);
        ReplayIsTransparent(r.state, q.state, inputs[1..], c);
        var rest := Firsts(inputs[1..], t.events + {e.id});
        assert ([inputs[0]] + rest)[0] == inputs[0] && ([inputs[0]] + rest)[1..] == rest;
      }
    }
  }

  lemma SameFields(s: State, t: State)
    ensures SameButSeen(s, t) ==> s.events == t.events
  {
  }

  lemma SameTransitive(a: State, b: State, c: State)
    requires SameButSeen(a, b) && SameButSeen(b, c)
    ensures SameButSeen(a, c)
  {
  }

  // ------------------------------------------------------------ windows stay sane

  predicate UniqueIds(dq: seq<Event>) { forall i, j | 0 <= i < j < |dq| :: dq[i].id != dq[j].id }

  predicate DequeOk(dq: seq<Event>, seen: set<string>) {
    |dq| <= MAX_DEQUE && UniqueIds(dq) && forall i | 0 <= i < |dq| :: dq[i].id in seen
  }

  ghost predicate WindowsOk(s: State) { forall k | k in s.deques :: DequeOk(s.deques[k], SeenBy(s, k)) }

  lemma {:induction false} TrimKeeps(dq: seq<Event>, seen: set<string>)
    requires UniqueIds(dq) && forall i | 0 <= i < |dq| :: dq[i].id in seen
    ensures DequeOk(Trim(dq, seen).0, Trim(dq, seen).1)
    decreases |dq|
  {
    if |dq| > MAX_DEQUE { TrimKeeps(dq[1..], seen - {dq[0].id}); }
  }

  lemma FeedKeepsWindows(s: State, e: Event, now: int, c: Config)
    requires WindowsOk(s)
    ensures WindowsOk(Feed(s, e, now, c).state)
  {
    hide Evaluate, Trim;
    var k := KeyOf(e);
    if e.id !in SeenBy(s, k) && !(c.persistent && e.id in s.events) {
      assert DequeOk(Deque(s, k), SeenBy(s, k));
      TrimKeeps(Deque(s, k) + [e], SeenBy(s, k) + {e.id});
    }
  }

  /** At most 10000 events per worker, each once, each known as seen. */
  lemma {:induction false} WindowsStaySane(s: State, inputs: Inputs, c: Config)
    requires WindowsOk(s)
    ensures WindowsOk(Run(s, inputs, c).state)
    decreases |inputs|
  {
    hide Feed, WindowsOk;
    if inputs != [] {
      FeedKeepsWindows(s, inputs[0].0, inputs[0].1, c);
      WindowsStaySane(Feed(s, inputs[0].0, inputs[0].1, c).state, inputs[1..], c);
    }
  }

  // --------------------------------------------------------- alerts are backed

  lemma {:induction false} DatedComesFrom(dq: seq<Event>)
    requires UniqueIds(dq)
    ensures UniqueIds(Dated(dq)) && forall e | e in Dated(dq) :: e in dq
  {
    if dq != [] {
      var front, e := dq[..|dq| - 1], dq[|dq| - 1];
      DatedComesFrom(front);
      LastIsNew(dq, Dated(front));
    }
  }

  lemma {:induction false} SinceComesFrom(dq: seq<Event>, cutoff: int)
    requires UniqueIds(dq)
    ensures UniqueIds(Since(dq, cutoff))
    ensures forall e | e in Since(dq, cutoff) :: e in dq && e.at.Some? && e.at.value >= cutoff
  {
    if dq != [] {
      SinceComesFrom(dq[..|dq| - 1], cutoff);
      LastIsNew(dq, Since(dq[..|dq| - 1], cutoff));
    }
  }

  lemma {:induction false} GroupComesFrom(w: seq<Event>, fp: string)
    requires UniqueIds(w)
    ensures UniqueIds(Group(w, fp))
    ensures forall e | e in Group(w, fp) :: e in w && e.isError && Fp(e) == fp
  {
    if w != [] {
      GroupComesFrom(w[..|w| - 1], fp);
      LastIsNew(w, Group(w[..|w| - 1], fp));
    }
  }

  /** The last event's identity is in no part of what came before it. */
  lemma LastIsNew(dq: seq<Event>, part: seq<Event>)
    requires dq != [] && UniqueIds(dq) && UniqueIds(part) && forall e | e in part :: e in dq[..|dq| - 1]
    ensures UniqueIds(dq[..|dq| - 1]) && UniqueIds(part + [dq[|dq| - 1]])
  {
    forall i | 0 <= i < |part| ensures part[i].id != dq[|dq| - 1].id {
      assert part[i] in part;
      var j :| 0 <= j < |dq| - 1 && dq[j] == part[i];
    }
  }

  predicate DistinctFps(fps: seq<string>) { forall i, j | 0 <= i < j < |fps| :: fps[i] != fps[j] }

  lemma {:induction false} FpsAreDistinct(w: seq<Event>)
    ensures DistinctFps(Fps(w))
    ensures forall fp :: fp in Fps(w) <==> Group(w, fp) != []
  {
    if w != [] { FpsAreDistinct(w[..|w| - 1]); }
  }

  /** Why a group of errors raises an alert now. */
  predicate Due(a: Alarm, key: AlertKey, cooldown: int, now: int, persistent: bool) {
    CooldownOk(a.last, key, cooldown, now) && !(persistent && (key, now) in a.recorded)
  }

  predicate AlertFor(raised: seq<Alert>, key: AlertKey) { exists x :: x in raised && x.key == key }

  lemma {:induction false} ErrorsRaisedIff(a: Alarm, k: Key, w: seq<Event>, fps: seq<string>, c: Config, now: int,
                                           fp: string)
    requires DistinctFps(fps) && a.raised == []
    ensures var key := AlertKey(k.0, k.1, Some(fp));
            var r := RaiseErrors(a, k, w, fps, c, now);
            && (AlertFor(r.raised, key) <==>
                  fp in fps && |Group(w, fp)| >= c.errorCount && Due(a, key, c.errorCooldown, now, c.persistent))
            && (fp !in fps ==> (key in r.last <==> key in a.last) && (key in a.last ==> r.last[key] == a.last[key])
                               && ((key, now) in r.recorded <==> (key, now) in a.recorded))
            && (forall x | x in r.raised :: x.key.fingerprint.Some? && x.count == |Group(w, x.key.fingerprint.value)|)
    decreases |fps|
  {
    if fps != [] {
      hide Group;
      var front, last := fps[..|fps| - 1], fps[|fps| - 1];
      assert DistinctFps(front);
      ErrorsRaisedIff(a, k, w, front, c, now, fp);
      ErrorsRaisedIff(a, k, w, front, c, now, last);
      var before, after := RaiseErrors(a, k, w, front, c, now), RaiseErrors(a, k, w, fps, c, now);
      assert last !in front && fps == front + [last];
      assert fp in fps <==> fp in front || fp == last;
      RaisedBy(before, after, AlertKey(k.0, k.1, Some(fp)));
    }
  }

  lemma RaisedBy(a: Alarm, b: Alarm, key: AlertKey)
    requires b.raised == a.raised || exists x :: b.raised == a.raised + [x]
    ensures AlertFor(a.raised, key) ==> AlertFor(b.raised, key)
    ensures AlertFor(b.raised, key) ==> AlertFor(a.raised, key) || b.raised[|b.raised| - 1].key == key
    ensures b.raised != a.raised && b.raised[|b.raised| - 1].key == key ==> AlertFor(b.raised, key)
  {
    if b.raised != a.raised { assert b.raised[|b.raised| - 1] in b.raised; }
  }

  /** The errors of one fingerprint inside the error window. */
  function Recent(dq: seq<Event>, fp: string, c: Config): seq<Event> { Group(Window(dq, c.errorWindow), fp) }

  predicate Newer(e: Event, dq: seq<Event>, seconds: int) {
    DatedAreDated(dq);
    e.at.Some? && Dated(dq) != [] && e.at.value >= Dated(dq)[|Dated(dq)| - 1].at.value - seconds
  }

  lemma RecentComeFrom(dq: seq<Event>, fp: string, c: Config)
    requires UniqueIds(dq)
    ensures UniqueIds(Recent(dq, fp, c))
    ensures forall e | e in Recent(dq, fp, c) :: e in dq && e.isError && Fp(e) == fp && Newer(e, dq, c.errorWindow)
  {
    DatedComesFrom(dq);
    DatedAreDated(dq);
    var dated := Dated(dq);
    if dated != [] { SinceComesFrom(dated, dated[|dated| - 1].at.value - c.errorWindow); }
    GroupComesFrom(Window(dq, c.errorWindow), fp);
  }

  predicate Known(s: State, e: Event, c: Config) { e.id in SeenBy(s, KeyOf(e)) || (c.persistent && e.id in s.events) }

  /** Exactly when a new event raises REPEATED_ERROR for a fingerprint: enough
      errors of it in the window, and neither cooling down nor recorded. */
  lemma RepeatedErrorIff(s: State, e: Event, now: int, c: Config, fp: string)
    requires !Known(s, e, c)
    ensures var r := Feed(s, e, now, c);
            var group := Recent(Deque(r.state, KeyOf(e)), fp, c);
            var key := AlertKey(e.project, e.worker, Some(fp));
            AlertFor(r.alerts, key) <==> group != [] && |group| >= c.errorCount
                                         && Due(Alarm(s.last, s.recorded, []), key, c.errorCooldown, now, c.persistent)
  {
    var k := KeyOf(e);
    var dq := Trim(Deque(s, k) + [e], SeenBy(s, k) + {e.id}).0;
    var w, start := Window(dq, c.errorWindow), Alarm(s.last, s.recorded, []);
    FpsAreDistinct(w);
    ErrorsRaisedIff(start, k, w, Fps(w), c, now, fp);
    var errors := RaiseErrors(start, k, w, Fps(w), c, now);
    hide Window, Fps, Group, RaiseErrors, Trim;
    RaisedBy(errors, Evaluate(start, k, dq, c, now), AlertKey(k.0, k.1, Some(fp)));
  }

  /** The repeated-error rule leaves the stall clock alone. */
  lemma {:induction false} ErrorsLeaveStall(a: Alarm, k: Key, w: seq<Event>, fps: seq<string>, c: Config, now: int)
    requires a.raised == []
    ensures var key, r := AlertKey(k.0, k.1, None), RaiseErrors(a, k, w, fps, c, now);
            && !AlertFor(r.raised, key) && (key in r.last <==> key in a.last) && (key in a.last ==> r.last[key] == a.last[key])
            && ((key, now) in r.recorded <==> (key, now) in a.recorded)
    decreases |fps|
  {
    if fps != [] {
      ErrorsLeaveStall(a, k, w, fps[..|fps| - 1], c, now);
      var before, after := RaiseErrors(a, k, w, fps[..|fps| - 1], c, now), RaiseErrors(a, k, w, fps, c, now);
      hide RaiseErrors, Group;
      RaisedBy(before, after, AlertKey(k.0, k.1, None));
    }
  }

  /** Exactly when a new event raises NO_PROGRESS: enough activity in the window,
      too little progress, and neither cooling down nor recorded. */
  lemma NoProgressIff(s: State, e: Event, now: int, c: Config)
    requires !Known(s, e, c)
    ensures var r := Feed(s, e, now, c);
            var w := Window(Deque(r.state, KeyOf(e)), c.stallWindow);
            var key := AlertKey(e.project, e.worker, None);
            AlertFor(r.alerts, key) <==> CountActivity(w) >= c.minActivity && CountProgress(w, c.strongOnly) <= c.maxProgress
                                         && Due(Alarm(s.last, s.recorded, []), key, c.stallCooldown, now, c.persistent)
  {
    var k := KeyOf(e);
    var dq := Trim(Deque(s, k) + [e], SeenBy(s, k) + {e.id}).0;
    var w, start := Window(dq, c.errorWindow), Alarm(s.last, s.recorded, []);
    ErrorsLeaveStall(start, k, w, Fps(w), c, now);
    var errors := RaiseErrors(start, k, w, Fps(w), c, now);
    hide Window, Fps, RaiseErrors, Trim;
    RaisedBy(errors, Evaluate(start, k, dq, c, now), AlertKey(k.0, k.1, None));
  }

  lemma {:induction false} DatedHolds(dq: seq<Event>, e: Event)
    requires e in dq && e.at.Some?
    ensures e in Dated(dq)
  {
    if dq[|dq| - 1] != e { DatedHolds(dq[..|dq| - 1], e); }
  }

  lemma {:induction false} SinceHolds(dq: seq<Event>, cutoff: int, e: Event)
    requires e in dq && e.at.Some? && e.at.value >= cutoff
    ensures e in Since(dq, cutoff)
  {
    if dq[|dq| - 1] != e { SinceHolds(dq[..|dq| - 1], cutoff, e); }
  }

  lemma WindowHolds(dq: seq<Event>, seconds: int, e: Event)
    requires e in dq && Newer(e, dq, seconds)
    ensures e in Window(dq, seconds)
  {
    DatedAreDated(dq);
    DatedHolds(dq, e);
    hide Dated, Since;
    SinceHolds(Dated(dq), Dated(dq)[|Dated(dq)| - 1].at.value - seconds, e);
  }

  lemma {:induction false} GroupHolds(w: seq<Event>, fp: string, e: Event)
    requires e in w && e.isError && Fp(e) == fp
    ensures e in Group(w, fp)
  {
    if w[|w| - 1] != e { GroupHolds(w[..|w| - 1], fp, e); }
  }

  /** What is counted is exactly what the deque holds of that fingerprint inside
      the window, each event once. */
  lemma RecentHoldsExactly(dq: seq<Event>, fp: string, c: Config, e: Event)
    requires UniqueIds(dq)
    ensures e in Recent(dq, fp, c) <==> e in dq && e.isError && Fp(e) == fp && Newer(e, dq, c.errorWindow)
    ensures UniqueIds(Recent(dq, fp, c))
  {
    RecentComeFrom(dq, fp, c);
    if e in dq && e.isError && Fp(e) == fp && Newer(e, dq, c.errorWindow) {
      WindowHolds(dq, c.errorWindow, e);
      hide Window, Group;
      GroupHolds(Window(dq, c.errorWindow), fp, e);
    }
  }

  /** Every REPEATED_ERROR is backed by at least `errorCount` different events of
      its fingerprint that the window still holds, and counts them exactly. */
  lemma RepeatedErrorIsBacked(s: State, e: Event, now: int, c: Config, x: Alert)
    requires WindowsOk(s) && x in Feed(s, e, now, c).alerts && x.key.fingerprint.Some?
    ensures var dq, fp := Deque(Feed(s, e, now, c).state, KeyOf(e)), x.key.fingerprint.value;
            var group := Recent(dq, fp, c);
            && x.key == AlertKey(e.project, e.worker, Some(fp)) && x.count == |group| && |group| >= c.errorCount
            && UniqueIds(group) && forall g | g in group :: g in dq && g.isError && Fp(g) == fp && Newer(g, dq, c.errorWindow)
  {
    var k, fp := KeyOf(e), x.key.fingerprint.value;
    FeedKeepsWindows(s, e, now, c);
    var dq := Trim(Deque(s, k) + [e], SeenBy(s, k) + {e.id}).0;
    assert DequeOk(dq, SeenBy(Feed(s, e, now, c).state, k));
    var w, start := Window(dq, c.errorWindow), Alarm(s.last, s.recorded, []);
    FpsAreDistinct(w);
    ErrorsRaisedIff(start, k, w, Fps(w), c, now, fp);
    ErrorsAreOfWorker(start, k, w, Fps(w), c, now);
    hide Window, Fps, Group, RaiseErrors, Trim;
    assert x in RaiseErrors(start, k, w, Fps(w), c, now).raised;
    RecentComeFrom(dq, fp, c);
  }

  lemma {:induction false} ErrorsAreOfWorker(a: Alarm, k: Key, w: seq<Event>, fps: seq<string>, c: Config, now: int)
    requires forall x | x in a.raised :: x.key.project == k.0 && x.key.worker == k.1
    ensures forall x | x in RaiseErrors(a, k, w, fps, c, now).raised :: x.key.project == k.0 && x.key.worker == k.1
    decreases |fps|
  {
    if fps != [] { ErrorsAreOfWorker(a, k, w, fps[..|fps| - 1], c, now); }
  }

  // ------------------------------------------------------- alerts are spaced

  function CooldownOf(key: AlertKey,
                      c: Config): int { if key.fingerprint.Some? then c.errorCooldown else c.stallCooldown }

  /** Alerts of one key are a cooldown apart, and the clock knows the latest. */
  ghost predicate Spaced(alerts: seq<Alert>, last: map<AlertKey, int>, c: Config) {
    && (forall i, j | 0 <= i < j < |alerts| && alerts[i].key == alerts[j].key :: alerts[j].at - alerts[i].at >= CooldownOf(alerts[j].key, c))
    && (forall i | 0 <= i < |alerts| :: alerts[i].key in last && last[alerts[i].key] >= alerts[i].at)
  }

  lemma RaiseKeepsSpaced(past: seq<Alert>, a: Alarm, key: AlertKey, now: int, count: nat, c: Config)
    requires Spaced(past + a.raised, a.last, c) && CooldownOf(key, c) >= 0
    ensures var b := Raise(a, key, CooldownOf(key, c), now, count, c.persistent); Spaced(past + b.raised, b.last, c)
  {
    var b := Raise(a, key, CooldownOf(key, c), now, count, c.persistent);
    var before, after := past + a.raised, past + b.raised;
    if b.raised != a.raised { assert after == before + [Alert(key, now, count)]; }
  }

  lemma {:induction false} ErrorsKeepSpaced(past: seq<Alert>, a: Alarm, k: Key, w: seq<Event>, fps: seq<string>,
                                            c: Config, now: int)
    requires Spaced(past + a.raised, a.last, c) && c.errorCooldown >= 0
    ensures var b := RaiseErrors(a, k, w, fps, c, now); Spaced(past + b.raised, b.last, c)
    decreases |fps|
  {
    hide Spaced, Raise;
    if fps != [] {
      var fp := fps[|fps| - 1];
      ErrorsKeepSpaced(past, a, k, w, fps[..|fps| - 1], c, now);
      var before := RaiseErrors(a, k, w, fps[..|fps| - 1], c, now);
      RaiseKeepsSpaced(past, before, AlertKey(k.0, k.1, Some(fp)), now, |Group(w, fp)|, c);
    }
  }

  lemma FeedKeepsSpaced(past: seq<Alert>, s: State, e: Event, now: int, c: Config)
    requires Spaced(past, s.last, c) && c.errorCooldown >= 0 && c.stallCooldown >= 0
    ensures var r := Feed(s, e, now, c); Spaced(past + r.alerts, r.state.last, c)
  {
    hide Spaced, Raise, Window, Trim, RaiseErrors, Fps;
    var k := KeyOf(e);
    assert past + [] == past;
    if !Known(s, e, c) {
      var dq := Trim(Deque(s, k) + [e], SeenBy(s, k) + {e.id}).0;
      var w, start := Window(dq, c.errorWindow), Alarm(s.last, s.recorded, []);
      ErrorsKeepSpaced(past, start, k, w, Fps(w), c, now);
      var errors, v := RaiseErrors(start, k, w, Fps(w), c, now), Window(dq, c.stallWindow);
      RaiseKeepsSpaced(past, errors, AlertKey(k.0, k.1, None), now, CountActivity(v), c);
    }
  }

  /** Two alerts about the same thing are at least a cooldown apart, in every
      run that is not interrupted by a restart. */
  lemma {:induction false} AlertsAreSpaced(past: seq<Alert>, s: State, inputs: Inputs, c: Config)
    requires Spaced(past, s.last, c) && c.errorCooldown >= 0 && c.stallCooldown >= 0
    ensures Spaced(past + Run(s, inputs, c).alerts, Run(s, inputs, c).state.last, c)
    decreases |inputs|
  {
    hide Feed, Spaced;
    if inputs == [] {
      assert past + [] == past;
    } else {
      var e, now := inputs[0].0, inputs[0].1;
      FeedKeepsSpaced(past, s, e, now, c);
      var one := Feed(s, e, now, c);
      AlertsAreSpaced(past + one.alerts, one.state, inputs[1..], c);
      assert past + one.alerts + Run(one.state, inputs[1..], c).alerts == past + (one.alerts + Run(one.state, inputs[1..], c).alerts);
    }
  }
}
