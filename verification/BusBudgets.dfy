/** What the per-thread budgets of the bus bound in every run, and what they do
    not bound. */
module BusBudgets {
  import opened OperationStore
  import opened LoopBus
  import opened BusRuns

  /** Messages accepted on a thread, redirected there or not. */
  function AcceptedOn(log: seq<Event>, thread: string, redirected: bool): nat {
    if log == [] then 0
    else AcceptedOn(log[..|log| - 1], thread, redirected)
         + (if log[|log| - 1] == Accepted(thread, redirected) then 1 else 0)
  }

  lemma AcceptedGrows(log: seq<Event>, e: Event, thread: string, redirected: bool)
    ensures AcceptedOn(log + [e], thread, redirected)
            == AcceptedOn(log, thread, redirected) + (if e == Accepted(thread, redirected) then 1 else 0)
  {
    assert (log + [e])[..|log|] == log;
  }

  function Hops(bus: Bus, thread: string): nat { if thread in bus.threads then bus.threads[thread].hops else 0 }

  ghost predicate LogOk(m: Machine, c: Config) {
    && (forall i | 0 <= i < |m.log| && m.log[i].Invoked? :: m.log[i].message.hop <= c.maxHops)
    && (forall i | 0 <= i < |m.log| && m.log[i].Invoked? && m.log[i].message.kind == AuditRequest ::
          1 <= m.log[i].nth <= c.maxAudits && m.log[i].nth <= Audits(m.bus, m.log[i].message.thread))
    && (forall i, j | 0 <= i < j < |m.log| && m.log[i].Invoked? && m.log[j].Invoked? :: !SameAudit(m.log[i].message, m.log[i].nth, m.log[j].message, m.log[j].nth))
  }

  predicate SameAudit(a: Envelope, n: nat, b: Envelope, k: nat) {
    a.kind == AuditRequest && b.kind == AuditRequest && a.thread == b.thread && n == k
  }

  predicate Waiting(m: Machine, id: nat) { id in m.calls && m.calls[id].Dispatching? }

  ghost predicate WaitingOk(m: Machine, c: Config, id: nat)
    requires Waiting(m, id)
  {
    var d, n := m.calls[id].message, m.calls[id].nth;
    && d.hop <= c.maxHops
    && (d.kind == AuditRequest ==> 1 <= n <= c.maxAudits && n <= Audits(m.bus, d.thread))
    && (forall i | 0 <= i < |m.log| && m.log[i].Invoked? :: !SameAudit(m.log[i].message, m.log[i].nth, d, n))
    && (forall other | Waiting(m, other) && other != id :: !SameAudit(m.calls[other].message, m.calls[other].nth, d, n))
  }

  ghost predicate Budgeted(m: Machine, c: Config) {
    && LogOk(m, c)
    && (forall id | Waiting(m, id) :: WaitingOk(m, c, id))
  }

  ghost predicate HopsOk(m: Machine, c: Config) {
    forall t :: AcceptedOn(m.log, t, false) + AcceptedOn(m.log, t, true) <= Hops(m.bus, t)
                && AcceptedOn(m.log, t, false) <= c.maxHops
  }

  // ------------------------------------------------------------ preservation

  /** What an accepted or escalated submission does to the counters. */
  lemma SubmitCounts(bus: Bus, e: Envelope, now: int, c: Config)
    ensures var r := Submitted(bus, e, now, c);
            && (forall t :: Audits(r.bus, t) >= Audits(bus, t) && Hops(r.bus, t) >= Hops(bus, t))
            && (r.verdict.Admit? ==>
                  var d := r.verdict.delivered;
                  && d.kind == e.kind && d.key == e.key && d.hop <= c.maxHops
                  && (d.thread == e.thread ==> Hops(bus, d.thread) < c.maxHops)
                  && (forall t :: Hops(r.bus, t) == Hops(bus, t) + (if t == d.thread then 1 else 0))
                  && (forall t :: Audits(r.bus, t) == Audits(bus, t) + (if t == d.thread && d.kind == AuditRequest then 1 else 0))
                  && (d.kind == AuditRequest ==> Audits(r.bus, d.thread) <= c.maxAudits))
  {
  }

  lemma SubmitKeepsWaiting(m: Machine, id: nat, e: Envelope, now: int, c: Config, i: nat)
    requires Budgeted(m, c) && Waiting(DoSubmit(m, id, e, now, c), i) && DoSubmit(m, id, e, now, c) != m
    ensures WaitingOk(DoSubmit(m, id, e, now, c), c, i)
  {
    SubmitCounts(m.bus, e, now, c);
    hide Submitted, Audits, Hops, HopsOk;
    var v := DoSubmit(m, id, e, now, c);
    if i != id { assert Waiting(m, i) && WaitingOk(m, c, i); }
    forall other | Waiting(v, other) && other != i
      ensures !SameAudit(v.calls[other].message, v.calls[other].nth, v.calls[i].message, v.calls[i].nth)
    {
      if other != id { assert Waiting(m, other) && WaitingOk(m, c, other); }
    }
  }

  lemma SubmitKeepsBudgeted(m: Machine, id: nat, e: Envelope, now: int, c: Config)
    requires Budgeted(m, c)
    ensures Budgeted(DoSubmit(m, id, e, now, c), c)
  {
    var v := DoSubmit(m, id, e, now, c);
    if v != m {
      forall i | Waiting(v, i) ensures WaitingOk(v, c, i) { SubmitKeepsWaiting(m, id, e, now, c, i); }
      SubmitCounts(m.bus, e, now, c);
      hide Submitted, Audits, Hops, HopsOk, WaitingOk;
      assert LogOk(v, c);
    }
  }

  lemma RouteKeepsBudgeted(m: Machine, id: nat, c: Config)
    requires Budgeted(m, c)
    ensures Budgeted(DoRoute(m, id), c)
  {
    var v := DoRoute(m, id);
    if v != m {
      assert Waiting(m, id) && WaitingOk(m, c, id);
      forall i | Waiting(v, i) ensures WaitingOk(v, c, i) { assert Waiting(m, i) && WaitingOk(m, c, i); }
    }
  }

  lemma EndKeepsBudgeted(m: Machine, v: Machine, c: Config)
    requires Budgeted(m, c) && v.log == m.log && v.bus.threads == m.bus.threads
    requires forall i | Waiting(v, i) :: Waiting(m, i) && v.calls[i] == m.calls[i]
    ensures Budgeted(v, c)
  {
    forall i | Waiting(v, i) ensures WaitingOk(v, c, i) { assert Waiting(m, i) && WaitingOk(m, c, i); }
  }

  lemma SubmitKeepsHops(m: Machine, id: nat, e: Envelope, now: int, c: Config)
    requires HopsOk(m, c)
    ensures HopsOk(DoSubmit(m, id, e, now, c), c)
  {
    SubmitCounts(m.bus, e, now, c);
    hide Submitted, Audits, Hops;
    var v := DoSubmit(m, id, e, now, c);
    forall t ensures AcceptedOn(v.log, t, false) + AcceptedOn(v.log, t, true) <= Hops(v.bus, t) && AcceptedOn(v.log, t, false) <= c.maxHops {
      if v.log != m.log {
        AcceptedGrows(m.log, v.log[|m.log|], t, false);
        AcceptedGrows(m.log, v.log[|m.log|], t, true);
      }
    }
  }

  lemma RouteKeepsHops(m: Machine, id: nat, c: Config)
    requires HopsOk(m, c)
    ensures HopsOk(DoRoute(m, id), c)
  {
    var v := DoRoute(m, id);
    forall t ensures AcceptedOn(v.log, t, false) == AcceptedOn(m.log, t, false) && AcceptedOn(v.log, t, true) == AcceptedOn(m.log, t, true) {
      if v.log != m.log {
        AcceptedGrows(m.log, v.log[|m.log|], t, false);
        AcceptedGrows(m.log, v.log[|m.log|], t, true);
      }
    }
  }

  lemma FinishKeepsHops(m: Machine, id: nat, ok: bool, c: Config)
    requires HopsOk(m, c)
    ensures HopsOk(DoFinish(m, id, ok), c)
  {
    var v := DoFinish(m, id, ok);
    forall t ensures AcceptedOn(v.log, t, false) == AcceptedOn(m.log, t, false) && AcceptedOn(v.log, t, true) == AcceptedOn(m.log, t, true) {
      if v.log != m.log {
        AcceptedGrows(m.log, v.log[|m.log|], t, false);
        AcceptedGrows(m.log, v.log[|m.log|], t, true);
      }
    }
  }

  lemma FinishKeepsBudgeted(m: Machine, id: nat, ok: bool, c: Config)
    requires Budgeted(m, c)
    ensures Budgeted(DoFinish(m, id, ok), c)
  {
    var v := DoFinish(m, id, ok);
    forall i | Waiting(v, i) ensures WaitingOk(v, c, i) { assert Waiting(m, i) && WaitingOk(m, c, i); }
  }

  lemma DoKeepsBudgets(m: Machine, a: Action, c: Config)
    requires Budgeted(m, c) && HopsOk(m, c)
    ensures Budgeted(Do(m, a, c), c) && HopsOk(Do(m, a, c), c)
  {
    hide DoSubmit, DoRoute, DoFinish, Budgeted, AcceptedOn;
    match a
    case Submit(id, e, now) =>
      SubmitKeepsBudgeted(m, id, e, now, c);
      SubmitKeepsHops(m, id, e, now, c);
    case Route(id) =>
      RouteKeepsBudgeted(m, id, c);
      RouteKeepsHops(m, id, c);
    case Finish(id, ok) =>
      FinishKeepsBudgeted(m, id, ok, c);
      FinishKeepsHops(m, id, ok, c);
    case _ => EndKeepsBudgeted(m, Do(m, a, c), c);
  }

  lemma {:induction false} RunKeepsBudgets(m: Machine, actions: seq<Action>, c: Config)
    requires Budgeted(m, c) && HopsOk(m, c)
    ensures Budgeted(Run(m, actions, c), c) && HopsOk(Run(m, actions, c), c)
    decreases |actions|
  {
    hide Do, Budgeted, HopsOk;
    if actions != [] {
      DoKeepsBudgets(m, actions[0], c);
      RunKeepsBudgets(Do(m, actions[0], c), actions[1..], c);
    }
  }

  // ------------------------------------------------------------ main theorems

  /** No handler sees a message beyond the hop limit, and no thread accepts more
      than the limit of messages submitted to it. */
  lemma HopsAreBounded(actions: seq<Action>, c: Config, i: nat, thread: string)
    requires i < |Run(Start, actions, c).log|
    ensures var m := Run(Start, actions, c);
            && (m.log[i].Invoked? ==> m.log[i].message.hop <= c.maxHops)
            && AcceptedOn(m.log, thread, false) <= c.maxHops
  {
    RunKeepsBudgets(Start, actions, c);
  }

  /** Audit requests of a thread that reached a handler. */
  function AuditsReached(log: seq<Event>, thread: string): seq<nat> {
    if log == [] then [] else
    var before, e := AuditsReached(log[..|log| - 1], thread), log[|log| - 1];
    if e.Invoked? && e.message.kind == AuditRequest && e.message.thread == thread then before + [e.nth] else before
  }

  ghost predicate ReachedAt(log: seq<Event>, thread: string, n: nat) {
    exists i :: 0 <= i < |log| && log[i].Invoked? && log[i].message.kind == AuditRequest && log[i].message.thread == thread && log[i].nth == n
  }

  ghost predicate NumbersOk(log: seq<Event>, max: nat) {
    && (forall i | 0 <= i < |log| && log[i].Invoked? && log[i].message.kind == AuditRequest :: 1 <= log[i].nth <= max)
    && (forall i, j | 0 <= i < j < |log| && log[i].Invoked? && log[j].Invoked? :: !SameAudit(log[i].message, log[i].nth, log[j].message, log[j].nth))
  }

  ghost predicate Numbering(ns: seq<nat>, max: nat) {
    && (forall k | 0 <= k < |ns| :: 1 <= ns[k] <= max)
    && (forall i, j | 0 <= i < j < |ns| :: ns[i] != ns[j])
  }

  ghost predicate AllReached(ns: seq<nat>, log: seq<Event>, thread: string) {
    forall k | 0 <= k < |ns| :: ReachedAt(log, thread, ns[k])
  }

  lemma ReachedLater(log: seq<Event>, e: Event, thread: string, n: nat)
    requires ReachedAt(log, thread, n)
    ensures ReachedAt(log + [e], thread, n)
  {
    var i :| 0 <= i < |log| && log[i].Invoked? && log[i].message.kind == AuditRequest && log[i].message.thread == thread && log[i].nth == n;
    assert (log + [e])[i] == log[i];
  }

  lemma FreshNumber(log: seq<Event>, e: Event, max: nat, n: nat)
    requires NumbersOk(log + [e], max) && e.Invoked? && e.message.kind == AuditRequest && ReachedAt(log, e.message.thread, n)
    ensures n != e.nth
  {
    var i :| 0 <= i < |log| && log[i].Invoked? && log[i].message.kind == AuditRequest && log[i].message.thread == e.message.thread && log[i].nth == n;
    var more := log + [e];
    assert more[i] == log[i] && more[|log|] == e && !SameAudit(more[i].message, more[i].nth, more[|log|].message, more[|log|].nth);
  }

  lemma NumbersPrefix(log: seq<Event>, e: Event, max: nat)
    requires NumbersOk(log + [e], max)
    ensures NumbersOk(log, max)
    ensures e.Invoked? && e.message.kind == AuditRequest ==> 1 <= e.nth <= max
  {
    var more := log + [e];
    assert forall i | 0 <= i < |log| :: more[i] == log[i];
    assert more[|log|] == e;
  }

  lemma NumberingGrows(ns: seq<nat>, n: nat, log: seq<Event>, thread: string, max: nat)
    requires Numbering(ns, max) && AllReached(ns, log, thread) && ReachedAt(log, thread, n) && 1 <= n <= max
    requires forall k | 0 <= k < |ns| :: ns[k] != n
    ensures Numbering(ns + [n], max) && AllReached(ns + [n], log, thread)
  {
    hide ReachedAt;
  }

  lemma {:induction false} ReachedComeFromLog(log: seq<Event>, thread: string, max: nat)
    requires NumbersOk(log, max)
    ensures Numbering(AuditsReached(log, thread), max) && AllReached(AuditsReached(log, thread), log, thread)
    decreases |log|
  {
    if log == [] { return; }
    hide NumbersOk, Numbering;
    var before, e := log[..|log| - 1], log[|log| - 1];
    assert log == before + [e];
    NumbersPrefix(before, e, max);
    ReachedComeFromLog(before, thread, max);
    var ns := AuditsReached(before, thread);
    forall k | 0 <= k < |ns| ensures ReachedAt(log, thread, ns[k]) { ReachedLater(before, e, thread, ns[k]); }
    if e.Invoked? && e.message.kind == AuditRequest && e.message.thread == thread {
      forall k | 0 <= k < |ns| ensures ns[k] != e.nth { FreshNumber(before, e, max, ns[k]); }
      assert ReachedAt(log, thread, e.nth);
      NumberingGrows(ns, e.nth, log, thread, max);
    }
  }

  lemma {:induction false} Pigeonhole(ns: seq<nat>, max: nat)
    requires Numbering(ns, max)
    ensures |ns| <= max
    decreases max
  {
    if ns != [] {
      assert 1 <= ns[0] <= max;
      if k :| 0 <= k < |ns| && ns[k] == max {
        var rest := ns[..k] + ns[k + 1..];
        forall i | 0 <= i < |rest| ensures 1 <= rest[i] <= max - 1 {
          assert rest[i] == ns[if i < k then i else i + 1];
        }
        Pigeonhole(rest, max - 1);
      } else {
        Pigeonhole(ns, max - 1);
      }
    }
  }

  /** At most the limit of audit requests per thread ever reach a handler, in
      every interleaving. */
  lemma AuditsAreBounded(actions: seq<Action>, c: Config, thread: string)
    ensures |AuditsReached(Run(Start, actions, c).log, thread)| <= c.maxAudits
  {
    RunKeepsBudgets(Start, actions, c);
    var log := Run(Start, actions, c).log;
    assert NumbersOk(log, c.maxAudits);
    ReachedComeFromLog(log, thread, c.maxAudits);
    Pigeonhole(AuditsReached(log, thread), c.maxAudits);
  }

  // --------------------------------------------------- what is not bounded

  lemma RunTwo(a: Action, b: Action, c: Config)
    ensures Run(Start, [a, b], c) == Do(Do(Start, a, c), b, c)
  {
    assert [a, b][1..] == [b] && [b][1..] == [];
    assert Run(Do(Start, a, c), [b], c) == Run(Do(Do(Start, a, c), b, c), [], c);
  }

  /** The report belongs to an issue of another thread, and that thread has used
      all its hops: the budget check looks at the submitted thread only. */
  predicate Overruns(bus: Bus, e: Envelope, c: Config, thread: string) {
    && e.kind == Deduplicated && e.fingerprint in bus.issues
    && bus.issues[e.fingerprint].thread == thread && thread != e.thread && Hops(bus, thread) >= c.maxHops
  }

  /** A submission takes a thread beyond its hop limit if and only if it is
      admitted and overruns that thread. */
  lemma BeyondLimitIff(bus: Bus, e: Envelope, now: int, c: Config, thread: string)
    ensures var r := Submitted(bus, e, now, c);
            Hops(r.bus, thread) > Hops(bus, thread) && Hops(r.bus, thread) > c.maxHops
            <==> r.verdict.Admit? && Overruns(bus, e, c, thread)
    ensures Hops(bus, thread) <= Hops(Submitted(bus, e, now, c).bus, thread)
  {
    hide Reserve;
  }

  predicate OverrunsAt(m: Machine, a: Action, c: Config, thread: string) {
    && a.Submit? && a.id !in m.calls && Submitted(m.bus, a.message, a.now, c).verdict.Admit?
    && Overruns(m.bus, a.message, c, thread)
  }

  /** Some submission of the run overruns the thread. */
  predicate OverrunIn(m: Machine, actions: seq<Action>, c: Config, thread: string)
    decreases |actions|
  {
    actions != [] && (OverrunsAt(m, actions[0], c, thread) || OverrunIn(Do(m, actions[0], c), actions[1..], c, thread))
  }

  lemma HopStep(m: Machine, a: Action, c: Config, thread: string)
    ensures Hops(m.bus, thread) <= Hops(Do(m, a, c).bus, thread)
    ensures Hops(m.bus, thread) <= c.maxHops ==> (Hops(Do(m, a, c).bus, thread) > c.maxHops <==> OverrunsAt(m, a, c, thread))
  {
    if a.Submit? { BeyondLimitIff(m.bus, a.message, a.now, c, thread); }
    hide Submitted, Without, Overruns;
  }

  lemma {:induction false} HopsOnlyGrow(m: Machine, actions: seq<Action>, c: Config, thread: string)
    ensures Hops(m.bus, thread) <= Hops(Run(m, actions, c).bus, thread)
    decreases |actions|
  {
    hide Do;
    if actions != [] {
      HopStep(m, actions[0], c, thread);
      HopsOnlyGrow(Do(m, actions[0], c), actions[1..], c, thread);
    }
  }

  /** In every interleaving the hops used on a thread stay within the limit if
      and only if no admitted report overruns it. */
  lemma {:induction false} HopsStayWithinIff(m: Machine, actions: seq<Action>, c: Config, thread: string)
    requires Hops(m.bus, thread) <= c.maxHops
    ensures Hops(Run(m, actions, c).bus, thread) <= c.maxHops <==> !OverrunIn(m, actions, c, thread)
    decreases |actions|
  {
    hide Do, OverrunsAt;
    if actions != [] {
      HopStep(m, actions[0], c, thread);
      if OverrunsAt(m, actions[0], c, thread) {
        HopsOnlyGrow(Do(m, actions[0], c), actions[1..], c, thread);
      } else {
        HopsStayWithinIff(Do(m, actions[0], c), actions[1..], c, thread);
      }
    }
  }

  /** Every accepted message, redirected or not, uses a hop of the thread it
      ends up on, so without an overrun no thread accepts more than its limit. */
  lemma AcceptedUseHops(actions: seq<Action>, c: Config, thread: string)
    ensures var m := Run(Start, actions, c);
            var accepted := AcceptedOn(m.log, thread, false) + AcceptedOn(m.log, thread, true);
            && accepted <= Hops(m.bus, thread)
            && (!OverrunIn(Start, actions, c, thread) ==> accepted <= c.maxHops)
  {
    RunKeepsBudgets(Start, actions, c);
    HopsStayWithinIff(Start, actions, c, thread);
  }

  /** A report redirected to another thread's issue is counted there but checked
      elsewhere, so a thread can accept more messages than its limit. */
  lemma RedirectedMessagesExceedTheLimit() returns (actions: seq<Action>, c: Config)
    ensures Positive(c)
    ensures var m := Run(Start, actions, c);
            Hops(m.bus, "a") > c.maxHops && AcceptedOn(m.log, "a", false) + AcceptedOn(m.log, "a", true) > c.maxHops
  {
    c := Config(1, 1, 600, 10);
    var first := Envelope("w", "planner", Deduplicated, "a", "k1", 0, "f", "");
    var second := Envelope("s", "planner", Deduplicated, "b", "k2", 0, "f", "");
    var one, two := Submit(1, first, 0), Submit(2, second, 0);
    actions := [one, two];
    RunTwo(one, two, c);
    var m := Do(Start, one, c);
    assert m.bus.issues["f"].thread == "a" && Hops(m.bus, "a") == 1 && m.bus.keys == ["k1"] && 2 !in m.calls;
    assert m.log == [Accepted("a", false)];
    var v := Do(m, two, c);
    assert Hops(v.bus, "a") == 2;
    assert v.log == m.log + [Accepted("a", true)];
    AcceptedGrows(m.log, Accepted("a", true), "a", false);
    AcceptedGrows(m.log, Accepted("a", true), "a", true);
    AcceptedGrows([], Accepted("a", false), "a", false);
    assert [] + [Accepted("a", false)] == m.log;
  }
}
