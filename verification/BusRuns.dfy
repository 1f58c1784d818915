/** Every interleaving of concurrent and re-entrant submissions: handlers run
    outside the lock, and any other call may come between two locked parts. */
module BusRuns {
  import opened OperationStore
  import opened LoopBus

  /** One submission between its locked parts.  `nth`: which audit request of
      its thread it is. */
  datatype Call =
    | Escalating(key: string)
    | Dispatching(key: string, message: Envelope, nth: nat)
    | Running(key: string, message: Envelope, nth: nat)
    | Handled(key: string)
    | Failing(key: string)

  datatype Event =
    | Accepted(thread: string, redirected: bool)
    | Invoked(message: Envelope, nth: nat)
    | Delivered(key: string)

  /** Why a key is reserved: a submission in progress, a delivery, or a message
      that had no route or no fingerprint. */
  datatype Holder = Live(call: nat) | Done | Stuck

  /** `evicted`: the keys a full table has forgotten. */
  datatype Machine = Machine(bus: Bus, calls: map<nat, Call>, holders: map<string, Holder>, log: seq<Event>, evicted: set<string>)

  const Start := Machine(Empty, map[], map[], [], {})

  /** What reserving one more key forgets. */
  function Forgotten(keys: seq<string>, key: string, cap: nat): set<string> {
    if |keys| + 1 > cap then {(keys + [key])[0]} else {}
  }

  datatype Action =
    | Submit(id: nat, message: Envelope, now: int)
    | Route(id: nat)
    | Finish(id: nat, ok: bool)
    | Settle(id: nat)
    | Register(endpoint: string)
    | Resolve(fingerprint: string, verdict: string)

  function Audits(bus: Bus, thread: string): nat { if thread in bus.threads then bus.threads[thread].audits else 0 }

  function DoSubmit(m: Machine, id: nat, e: Envelope, now: int, c: Config): Machine {
    if id in m.calls then m else
    var r := Submitted(m.bus, e, now, c);
    var evicted := m.evicted + Forgotten(m.bus.keys, e.key, c.cap);
    match r.verdict
    case Duplicate => m
    case NoFingerprint => m.(bus := r.bus, holders := m.holders[e.key := Stuck], evicted := evicted)
    case OverBudget(_) =>
      m.(bus := r.bus, holders := m.holders[e.key := Live(id)], calls := m.calls[id := Escalating(e.key)], evicted := evicted)
    case Admit(d) =>
      m.(bus := r.bus, holders := m.holders[e.key := Live(id)], evicted := evicted,
         calls := m.calls[id := Dispatching(e.key, d, Audits(r.bus, d.thread))],
         log := m.log + [Accepted(d.thread, d.thread != e.thread)])
  }

  function DoRoute(m: Machine, id: nat): Machine {
    if id !in m.calls || !m.calls[id].Dispatching? then m else
    var call := m.calls[id];
    if call.message.receiver in m.bus.routes then
      m.(calls := m.calls[id := Running(call.key, call.message, call.nth)], log := m.log + [Invoked(call.message, call.nth)])
    else m.(calls := m.calls - {id}, holders := m.holders[call.key := Stuck])
  }

  function DoFinish(m: Machine, id: nat, ok: bool): Machine {
    if id !in m.calls || !m.calls[id].Running? then m else
    var key := m.calls[id].key;
    if ok then m.(calls := m.calls[id := Handled(key)], log := m.log + [Delivered(key)])
    else m.(calls := m.calls[id := Failing(key)])
  }

  function DoSettle(m: Machine, id: nat): Machine {
    if id !in m.calls then m else
    var call := m.calls[id];
    if call.Handled? then
      var committed := Committed(m.bus, call.key);
      m.(calls := m.calls - {id}, holders := m.holders[call.key := Done],
         bus := if committed.Some? then committed.value else m.bus)
    else if call.Failing? || call.Escalating? then
      m.(calls := m.calls - {id}, holders := m.holders - {call.key}, bus := RolledBack(m.bus, call.key))
    else m
  }

  function Do(m: Machine, a: Action, c: Config): Machine {
    match a
    case Submit(id, e, now) => DoSubmit(m, id, e, now, c)
    case Route(id) => DoRoute(m, id)
    case Finish(id, ok) => DoFinish(m, id, ok)
    case Settle(id) => DoSettle(m, id)
    case Register(endpoint) => m.(bus := m.bus.(routes := m.bus.routes + {endpoint}))
    case Resolve(f, verdict) =>
      if f in m.bus.issues && m.bus.issues[f].verdict.None?
      then m.(bus := m.bus.(issues := m.bus.issues[f := m.bus.issues[f].(verdict := Some(verdict))]))
      else m
  }

  function Run(m: Machine, actions: seq<Action>, c: Config): Machine
    decreases |actions|
  {
    if actions == [] then m else Run(Do(m, actions[0], c), actions[1..], c)
  }

  // ------------------------------------------------------------ reservations

  function Deliveries(log: seq<Event>, key: string): nat {
    if log == [] then 0
    else Deliveries(log[..|log| - 1], key) + (if log[|log| - 1] == Delivered(key) then 1 else 0)
  }

  lemma DeliveriesGrow(log: seq<Event>, e: Event, key: string)
    ensures Deliveries(log + [e], key) == Deliveries(log, key) + (if e == Delivered(key) then 1 else 0)
  {
    assert (log + [e])[..|log|] == log;
  }

  predicate Completed(m: Machine, key: string) {
    key in m.holders &&
    match m.holders[key]
    case Done => true
    case Stuck => false
    case Live(id) => id in m.calls && m.calls[id].Handled?
  }

  /** A reserved key has one holder, a submission in progress with this key
      holds it, and the key was delivered once or never. */
  ghost predicate Owned(m: Machine, k: string) {
    && (k in m.bus.keys <==> k in m.holders)
    && (forall id | id in m.calls && m.calls[id].key == k :: k in m.holders && m.holders[k] == Live(id))
    && (k in m.holders && m.holders[k].Live? ==> m.holders[k].call in m.calls && m.calls[m.holders[k].call].key == k)
    && Deliveries(m.log, k) == if Completed(m, k) then 1 else 0
  }

  /** Every key that was never evicted is owned. */
  ghost predicate Inv(m: Machine, c: Config) {
    BusOk(m.bus, c) && forall k :: k in m.evicted || Owned(m, k)
  }

  lemma KeyReserved(keys: seq<string>, key: string, cap: nat, k: string)
    requires k !in Forgotten(keys, key, cap)
    ensures k in Reserve(keys, key, cap) <==> k in keys || k == key
  {
    var grown := keys + [key];
    assert k in grown <==> k in keys || k == key;
    assert grown == [grown[0]] + grown[1..];
    assert k in grown <==> k == grown[0] || k in grown[1..];
  }

  /** At most one event is logged, and it is no delivery. */
  predicate Undelivered(log: seq<Event>, after: seq<Event>) {
    after == log || (|after| == |log| + 1 && after[..|log|] == log && !after[|log|].Delivered?)
  }

  lemma UndeliveredCount(log: seq<Event>, after: seq<Event>, key: string)
    requires Undelivered(log, after)
    ensures Deliveries(after, key) == Deliveries(log, key)
  {
    if after != log {
      DeliveriesGrow(log, after[|log|], key);
      assert after == log + [after[|log|]];
    }
  }

  /** A free key is taken: by a submission, or for good. */
  lemma TakeKeepsOwned(m: Machine, v: Machine, key: string, id: nat, k: string)
    requires Owned(m, k) && key !in m.bus.keys && id !in m.calls
    requires (k in v.bus.keys <==> k in m.bus.keys || k == key) && Undelivered(m.log, v.log)
    requires || (v.holders == m.holders[key := Stuck] && v.calls == m.calls)
             || (v.holders == m.holders[key := Live(id)] && id in v.calls && v.calls == m.calls[id := v.calls[id]]
                 && v.calls[id].key == key && !v.calls[id].Handled?)
    ensures Owned(v, k)
  {
    UndeliveredCount(m.log, v.log, k);
    hide Deliveries;
  }

  lemma SubmitKeepsInv(m: Machine, id: nat, e: Envelope, now: int, c: Config)
    requires Inv(m, c) && Positive(c)
    ensures Inv(DoSubmit(m, id, e, now, c), c)
  {
    SubmittedKeepsBusOk(m.bus, e, now, c);
    SubmitKeys(m.bus, e, now, c);
    AdmittedKey(m.bus, e, now, c);
    hide Submitted, BusOk, Owned, Reserve, Deliveries, Forgotten;
    var v := DoSubmit(m, id, e, now, c);
    forall k | k !in v.evicted ensures Owned(v, k) {
      if v != m {
        KeyReserved(m.bus.keys, e.key, c.cap, k);
        TakeKeepsOwned(m, v, e.key, id, k);
      }
    }
  }

  lemma AdmittedKey(bus: Bus, e: Envelope, now: int, c: Config)
    ensures var r := Submitted(bus, e, now, c); r.verdict.Admit? ==> r.verdict.delivered.key == e.key
  {
  }

  lemma SubmitKeys(bus: Bus, e: Envelope, now: int, c: Config)
    ensures var r := Submitted(bus, e, now, c);
            && (r.verdict.Duplicate? <==> e.key in bus.keys)
            && (!r.verdict.Duplicate? ==> r.bus.keys == Reserve(bus.keys, e.key, c.cap))
  {
  }

  /** A submission moves on and keeps its key; a delivery is logged. */
  lemma MoveKeepsOwned(m: Machine, v: Machine, id: nat, k: string)
    requires Owned(m, k) && id in m.calls && id in v.calls && !m.calls[id].Handled?
    requires v.bus == m.bus && v.holders == m.holders && v.calls == m.calls[id := v.calls[id]] && v.calls[id].key == m.calls[id].key
    requires if v.calls[id].Handled? then v.log == m.log + [Delivered(m.calls[id].key)]
             else Undelivered(m.log, v.log)
    ensures Owned(v, k)
  {
    if v.calls[id].Handled? { DeliveriesGrow(m.log, Delivered(m.calls[id].key), k); } else { UndeliveredCount(m.log, v.log, k); }
    hide Deliveries, Undelivered;
  }

  /** A submission ends, and its key is given back or kept for good. */
  lemma EndKeepsOwned(m: Machine, v: Machine, id: nat, k: string)
    requires Owned(m, k) && id in m.calls && v.calls == m.calls - {id} && v.log == m.log
    requires var key := m.calls[id].key;
             || (v.holders == m.holders - {key} && !m.calls[id].Handled? && (k in v.bus.keys <==> k in m.bus.keys && k != key))
             || (v.holders == m.holders[key := if m.calls[id].Handled? then Done else Stuck] && (k in v.bus.keys <==> k in m.bus.keys))
    ensures Owned(v, k)
  {
    hide Deliveries;
  }

  lemma RouteKeepsInv(m: Machine, id: nat, c: Config)
    requires Inv(m, c)
    ensures Inv(DoRoute(m, id), c)
  {
    hide BusOk, Owned;
    var v := DoRoute(m, id);
    forall k | k !in v.evicted ensures Owned(v, k) {
      if v != m {
        if id in v.calls { MoveKeepsOwned(m, v, id, k); } else { EndKeepsOwned(m, v, id, k); }
      }
    }
  }

  lemma FinishKeepsInv(m: Machine, id: nat, ok: bool, c: Config)
    requires Inv(m, c)
    ensures Inv(DoFinish(m, id, ok), c)
  {
    hide BusOk, Owned;
    var v := DoFinish(m, id, ok);
    forall k | k !in v.evicted ensures Owned(v, k) {
      if v != m { MoveKeepsOwned(m, v, id, k); }
    }
  }

  lemma SettleKeepsInv(m: Machine, id: nat, c: Config)
    requires Inv(m, c)
    ensures Inv(DoSettle(m, id), c)
  {
    hide BusOk, Owned;
    var v := DoSettle(m, id);
    if v != m {
      RollbackKeepsBusOk(m.bus, m.calls[id].key, c);
      WithoutKeeps(m.bus.keys, m.calls[id].key);
      forall k | k !in v.evicted ensures Owned(v, k) { EndKeepsOwned(m, v, id, k); }
    }
  }

  lemma AsideKeepsBusOk(m: Machine, a: Action, c: Config)
    requires BusOk(m.bus, c) && (a.Register? || a.Resolve?)
    ensures BusOk(Do(m, a, c).bus, c)
  {
  }

  lemma DoKeepsInv(m: Machine, a: Action, c: Config)
    requires Inv(m, c) && Positive(c)
    ensures Inv(Do(m, a, c), c)
  {
    hide DoSubmit, DoRoute, DoFinish, DoSettle;
    match a
    case Submit(id, e, now) => SubmitKeepsInv(m, id, e, now, c);
    case Route(id) => RouteKeepsInv(m, id, c);
    case Finish(id, ok) => FinishKeepsInv(m, id, ok, c);
    case Settle(id) => SettleKeepsInv(m, id, c);
    case _ =>
      hide Deliveries, BusOk;
      assert BusOk(Do(m, a, c).bus, c) by { AsideKeepsBusOk(m, a, c); }
      forall k | k !in m.evicted ensures Owned(Do(m, a, c), k) { assert Owned(m, k); }
  }

  lemma {:induction false} RunKeepsInv(m: Machine, actions: seq<Action>, c: Config)
    requires Inv(m, c) && Positive(c)
    ensures Inv(Run(m, actions, c), c)
    decreases |actions|
  {
    if actions != [] {
      DoKeepsInv(m, actions[0], c);
      RunKeepsInv(Do(m, actions[0], c), actions[1..], c);
    }
  }

  lemma StartInv(c: Config)
    ensures Inv(Start, c)
  {
    forall k ensures Owned(Start, k) {}
  }

  // ------------------------------------------------------------ main theorems

  /** Until it is evicted itself, whatever else is: a key is delivered at most
      once, by one submission at a time, and never again after its delivery. */
  lemma DeliveredAtMostOnce(actions: seq<Action>, c: Config, key: string)
    requires Positive(c) && key !in Run(Start, actions, c).evicted
    ensures var m := Run(Start, actions, c);
            && Deliveries(m.log, key) <= 1
            && (forall i, j | i in m.calls && j in m.calls && m.calls[i].key == key && m.calls[j].key == key :: i == j)
            && (Deliveries(m.log, key) == 1 ==> forall i | i in m.calls && m.calls[i].key == key :: m.calls[i].Handled?)
  {
    StartInv(c);
    RunKeepsInv(Start, actions, c);
    assert Owned(Run(Start, actions, c), key);
  }

  /** The table of keys never outgrows its cap, evictions or not. */
  lemma KeysAreBounded(actions: seq<Action>, c: Config)
    requires Positive(c)
    ensures |Run(Start, actions, c).bus.keys| <= c.cap && Distinct(Run(Start, actions, c).bus.keys)
  {
    StartInv(c);
    RunKeepsInv(Start, actions, c);
  }

  /** Exactly when a submission is refused as a duplicate: its key is being
      dispatched, was delivered, or was left behind by a missing route or
      fingerprint.  After a raising handler or an escalation it is none. */
  lemma DuplicateIff(actions: seq<Action>, c: Config, e: Envelope, now: int)
    requires Positive(c) && e.key !in Run(Start, actions, c).evicted
    ensures var m := Run(Start, actions, c);
            Submitted(m.bus, e, now, c).verdict.Duplicate? <==>
              (exists i :: i in m.calls && m.calls[i].key == e.key)
              || Deliveries(m.log, e.key) == 1 || (e.key in m.holders && m.holders[e.key].Stuck?)
  {
    StartInv(c);
    RunKeepsInv(Start, actions, c);
    var m := Run(Start, actions, c);
    hide Deliveries, BusOk, Run;
    assert Owned(m, e.key);
    SubmitKeys(m.bus, e, now, c);
    hide Submitted;
  }

  lemma RetryableAfterFailure(actions: seq<Action>, c: Config, id: nat, e: Envelope, now: int)
    requires Positive(c)
    requires var m := Run(Start, actions, c); id in m.calls && (m.calls[id].Failing? || m.calls[id].Escalating?) && m.calls[id].key == e.key
    ensures !Submitted(DoSettle(Run(Start, actions, c), id).bus, e, now, c).verdict.Duplicate?
  {
    StartInv(c);
    RunKeepsInv(Start, actions, c);
    var m := Run(Start, actions, c);
    RollbackKeepsBusOk(m.bus, e.key, c);
    SubmitKeys(RolledBack(m.bus, e.key), e, now, c);
  }

  // ------------------------------------------------------------------- issues

  /** An issue keeps its thread and every report; a verdict is final. */
  predicate Continues(was: Issue, now: Issue) {
    && now.thread == was.thread && was.reporters <= now.reporters && was.evidence <= now.evidence
    && (was.verdict.Some? ==> now.verdict == was.verdict)
  }

  lemma SubmittedContinues(bus: Bus, e: Envelope, now: int, c: Config, f: string)
    requires f in bus.issues
    ensures var v := Submitted(bus, e, now, c).bus; f in v.issues && Continues(bus.issues[f], v.issues[f])
  {
    hide Reserve, Budget, ThreadOf;
  }

  lemma IssueStep(m: Machine, a: Action, c: Config, f: string)
    requires f in m.bus.issues
    ensures var v := Do(m, a, c); f in v.bus.issues && Continues(m.bus.issues[f], v.bus.issues[f])
  {
    if a.Submit? { SubmittedContinues(m.bus, a.message, a.now, c, f); }
    hide Submitted, Without;
  }

  /** All reports of one issue end up in one thread, none is lost, and there is
      no second ruling, in every interleaving. */
  lemma {:induction false} IssuesAreStable(m: Machine, actions: seq<Action>, c: Config, f: string)
    requires f in m.bus.issues
    ensures var v := Run(m, actions, c); f in v.bus.issues && Continues(m.bus.issues[f], v.bus.issues[f])
    decreases |actions|
  {
    hide Do;
    if actions != [] {
      IssueStep(m, actions[0], c, f);
      IssuesAreStable(Do(m, actions[0], c), actions[1..], c, f);
    }
  }

  // ----------------------------------------------------------------- eviction

  ghost predicate Reached(m: Machine, c: Config) { exists actions :: Run(Start, actions, c) == m }

  lemma {:induction false} RunSnoc(m: Machine, actions: seq<Action>, a: Action, c: Config)
    ensures Run(m, actions + [a], c) == Do(Run(m, actions, c), a, c)
    decreases |actions|
  {
    hide Do;
    if actions == [] {
      assert (actions + [a])[1..] == [];
    } else {
      RunSnoc(Do(m, actions[0], c), actions[1..], a, c);
      assert (actions + [a])[0] == actions[0] && (actions + [a])[1..] == actions[1..] + [a];
    }
  }

  lemma Next(m: Machine, a: Action, c: Config)
    requires Reached(m, c)
    ensures Reached(Do(m, a, c), c)
  {
    var actions :| Run(Start, actions, c) == m;
    RunSnoc(Start, actions, a, c);
  }

  lemma AdmittedAlone(bus: Bus, e: Envelope, c: Config)
    requires e.key !in bus.keys && |bus.keys| <= 1 && c.cap == 1
    requires e.kind == OtherKind && e.hop == 0 && e.thread !in bus.threads && c.maxHops > 0 && c.timeout > 0
    ensures var r := Submitted(bus, e, 0, c);
            && r.verdict == Admit(e.(hop := 1)) && r.bus.keys == [e.key] && r.bus.routes == bus.routes
            && r.bus.threads.Keys == bus.threads.Keys + {e.thread}
  {
    var grown := bus.keys + [e.key];
    assert |bus.keys| == 0 ==> grown == [e.key];
    assert |bus.keys| == 1 ==> grown[1..] == [e.key];
  }

  /** One message submitted, routed, handled and committed with nothing else in
      progress, when the table holds one key. */
  lemma DeliverAlone(m: Machine, key: string, thread: string, c: Config) returns (v: Machine)
    requires Reached(m, c) && m.calls == map[] && key !in m.bus.keys && |m.bus.keys| <= 1 && c.cap == 1
    requires "r" in m.bus.routes && thread !in m.bus.threads && c.maxHops > 0 && c.timeout > 0
    ensures Reached(v, c) && v.calls == map[] && v.bus.keys == [key] && v.bus.routes == m.bus.routes
    ensures v.bus.threads.Keys == m.bus.threads.Keys + {thread}
    ensures forall k :: Deliveries(v.log, k) == Deliveries(m.log, k) + (if k == key then 1 else 0)
  {
    hide Reached, Run, Deliveries, Submitted;
    var e := Envelope("s", "r", OtherKind, thread, key, 0, "", "");
    AdmittedAlone(m.bus, e, c);
    Next(m, Submit(0, e, 0), c);
    var a := Do(m, Submit(0, e, 0), c);
    Next(a, Route(0), c);
    var b := Do(a, Route(0), c);
    Next(b, Finish(0, true), c);
    var d := Do(b, Finish(0, true), c);
    Next(d, Settle(0), c);
    v := Do(d, Settle(0), c);
    assert d.bus.keys == [key] && d.calls == map[0 := Handled(key)];
    assert Without([key], key) == [] by { assert [key][1..] == []; }
    forall k ensures Deliveries(v.log, k) == Deliveries(m.log, k) + (if k == key then 1 else 0) {
      DeliveriesGrow(m.log, a.log[|m.log|], k);
      DeliveriesGrow(a.log, b.log[|a.log|], k);
      DeliveriesGrow(b.log, Delivered(key), k);
    }
  }

  /** With a full table a delivered key is forgotten and delivered again. */
  lemma EvictedKeyIsDeliveredAgain() returns (m: Machine, c: Config)
    ensures Positive(c) && Reached(m, c) && Deliveries(m.log, "k") == 2
  {
    c := Config(3, 1, 600, 1);
    assert Reached(Start, c) by { assert Run(Start, [], c) == Start; }
    Next(Start, Register("r"), c);
    m := Do(Start, Register("r"), c);
    hide Run, Do, Reached;
    m := DeliverAlone(m, "k", "a", c);
    m := DeliverAlone(m, "l", "b", c);
    m := DeliverAlone(m, "k", "c", c);
  }
}
