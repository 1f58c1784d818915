/** Exactly which messages the bus admits, why it refuses the others, and what
    an admission does to its thread and its issue. */
module BusAdmission {
  import opened OperationStore
  import opened LoopBus
  import opened BusRuns
  import opened BusBudgets

  /** How long the thread has been known. */
  function Age(bus: Bus, thread: string, now: int): int {
    if thread in bus.threads then now - bus.threads[thread].firstSeen else 0
  }

  /** The message comes within the hop limit, and its thread within its own. */
  predicate WithinHops(bus: Bus, e: Envelope, c: Config) { e.hop < c.maxHops && Hops(bus, e.thread) < c.maxHops }

  predicate InTime(bus: Bus, e: Envelope, now: int, c: Config) { Age(bus, e.thread, now) <= c.timeout }

  predicate Identified(e: Envelope) { e.kind == Deduplicated ==> e.fingerprint != "" }

  predicate RoomToAudit(bus: Bus, e: Envelope, c: Config) { e.kind == AuditRequest ==> Audits(bus, e.thread) < c.maxAudits }

  /** A message is admitted if and only if its key is free, the message and its
      thread are within the hop limit, the thread is no older than the timeout, a
      report names its issue, and an audit request finds audits left. */
  lemma AdmittedIff(bus: Bus, e: Envelope, now: int, c: Config)
    ensures Submitted(bus, e, now, c).verdict.Admit? <==>
              e.key !in bus.keys && WithinHops(bus, e, c) && InTime(bus, e, now, c) && Identified(e) && RoomToAudit(bus, e, c)
  {
  }

  /** Every refusal has its one reason: the first that applies. */
  lemma RefusedIff(bus: Bus, e: Envelope, now: int, c: Config)
    ensures var v := Submitted(bus, e, now, c).verdict;
            var unseen, inHops := e.key !in bus.keys, WithinHops(bus, e, c);
            && (v == Duplicate <==> !unseen)
            && (v == OverBudget("single message hop limit exceeded") <==> unseen && e.hop >= c.maxHops)
            && (v == OverBudget("max hops per thread exceeded") <==> unseen && e.hop < c.maxHops && Hops(bus, e.thread) >= c.maxHops)
            && (v == OverBudget("overall thread timeout exceeded") <==> unseen && inHops && Age(bus, e.thread, now) > c.timeout)
            && (v == NoFingerprint <==> unseen && inHops && InTime(bus, e, now, c) && e.kind == Deduplicated && e.fingerprint == "")
            && (v == OverBudget("max audits per thread exceeded") <==>
                  unseen && inHops && InTime(bus, e, now, c) && e.kind == AuditRequest && Audits(bus, e.thread) >= c.maxAudits)
  {
    DifferentReasons();
  }

  lemma DifferentReasons()
    ensures "single message hop limit exceeded"[0] == 's' && "overall thread timeout exceeded"[0] == 'o'
    ensures "max hops per thread exceeded"[4] == 'h' && "max audits per thread exceeded"[4] == 'a'
  {
  }

  /** The issue's own thread, if the report belongs to a known issue. */
  function Destination(bus: Bus, e: Envelope): string {
    if e.kind == Deduplicated && e.fingerprint in bus.issues then bus.issues[e.fingerprint].thread else e.thread
  }

  /** An admitted message goes on with one more hop on its issue's thread or its
      own, and is otherwise the message submitted; one hop, and one audit for an
      audit request, is counted on that thread and on no other. */
  lemma AdmissionCounts(bus: Bus, e: Envelope, now: int, c: Config)
    requires Submitted(bus, e, now, c).verdict.Admit?
    ensures var r, to := Submitted(bus, e, now, c), Destination(bus, e);
            && r.verdict.delivered == Envelope(e.sender, e.receiver, e.kind, to, e.key, e.hop + 1, e.fingerprint, e.evidence)
            && r.bus.threads.Keys == bus.threads.Keys + {e.thread, to} && r.bus.routes == bus.routes
            && (forall t :: Hops(r.bus, t) == Hops(bus, t) + if t == to then 1 else 0)
            && (forall t :: Audits(r.bus, t) == Audits(bus, t) + if t == to && e.kind == AuditRequest then 1 else 0)
            && (forall t | t in r.bus.threads :: r.bus.threads[t].firstSeen == if t in bus.threads then bus.threads[t].firstSeen else now)
  {
    hide Reserve, Budget;
  }

  /** A refused message leaves issues, routes, hops and audits alone, but for an
      audit request beyond its limit, which is counted. */
  lemma RefusalCounts(bus: Bus, e: Envelope, now: int, c: Config)
    requires !Submitted(bus, e, now, c).verdict.Admit?
    ensures var r := Submitted(bus, e, now, c);
            var late := r.verdict == OverBudget("max audits per thread exceeded");
            && r.bus.routes == bus.routes && r.bus.issues == bus.issues
            && (r.verdict == Duplicate ==> r.bus == bus)
            && (forall t :: Hops(r.bus, t) == Hops(bus, t) + if late && t == e.thread then 1 else 0)
            && (forall t :: Audits(r.bus, t) == Audits(bus, t) + if late && t == e.thread then 1 else 0)
  {
    DifferentReasons();
    hide Reserve;
  }

  lemma {:induction false} WithoutOne(keys: seq<string>, i: nat)
    requires Distinct(keys) && i < |keys|
    ensures Without(keys, keys[i]) == keys[..i] + keys[i + 1..]
  {
    var key := keys[i];
    assert forall a, b | 0 <= a < b < |keys| - 1 :: keys[1..][a] != keys[1..][b];
    if i == 0 {
      WithoutNone(keys[1..], key);
    } else {
      WithoutOne(keys[1..], i - 1);
      assert keys[..i] + keys[i + 1..] == [keys[0]] + (keys[1..][..i - 1] + keys[1..][i..]);
    }
  }

  lemma {:induction false} WithoutNone(keys: seq<string>, key: string)
    requires key !in keys
    ensures Without(keys, key) == keys
  {
    if keys != [] {
      assert keys == [keys[0]] + keys[1..];
      WithoutNone(keys[1..], key);
    }
  }

  /** A delivered key becomes the last to be evicted, the others keep their order;
      a key that was evicted meanwhile cannot be committed.  A key given back is
      taken out of the order, and nothing else changes. */
  lemma CommittedIsYoungest(bus: Bus, key: string)
    requires Distinct(bus.keys)
    ensures Committed(bus, key).None? <==> key !in bus.keys
    ensures forall i: nat | i < |bus.keys| && bus.keys[i] == key ::
              && RolledBack(bus, key) == bus.(keys := bus.keys[..i] + bus.keys[i + 1..])
              && Committed(bus, key) == Some(bus.(keys := bus.keys[..i] + bus.keys[i + 1..] + [key]))
  {
    forall i: nat | i < |bus.keys| && bus.keys[i] == key ensures Without(bus.keys, key) == bus.keys[..i] + bus.keys[i + 1..] {
      WithoutOne(bus.keys, i);
    }
  }

  // ------------------------------------------------------------------- issues

  /** After a report is admitted its issue names the reporter and holds its
      evidence beside everything it had, and keeps its thread and verdict; a new
      issue has just these.  No other issue changes. */
  lemma ReportIsMerged(bus: Bus, e: Envelope, now: int, c: Config)
    requires Submitted(bus, e, now, c).verdict.Admit? && e.kind == Deduplicated
    ensures var after, f := Submitted(bus, e, now, c).bus.issues, e.fingerprint;
            && after.Keys == bus.issues.Keys + {f} && (forall g | g in bus.issues && g != f :: after[g] == bus.issues[g])
            && after[f].thread == Destination(bus, e)
            && after[f].verdict == (if f in bus.issues then bus.issues[f].verdict else None)
            && (forall x :: x in after[f].reporters <==> x == e.sender || (f in bus.issues && x in bus.issues[f].reporters))
            && (forall x :: x in after[f].evidence <==>
                  (x == e.evidence && (x != "" || f !in bus.issues)) || (f in bus.issues && x in bus.issues[f].evidence))
  {
    hide Reserve, Budget, ThreadOf;
    if e.fingerprint in bus.issues {
      var was := bus.issues[e.fingerprint];
      AddNewAdds(was.reporters, e.sender);
      AddNewAdds(was.evidence, e.evidence);
    }
  }

  lemma AddNewAdds(xs: seq<string>, x: string)
    ensures forall y :: y in AddNew(xs, x) <==> y in xs || y == x
    ensures Distinct(xs) ==> Distinct(AddNew(xs, x))
  {
  }

  // ------------------------------------------------------------ over whole runs

  /** When the run first saw the thread: the time of the first submission to it
      that was no duplicate. */
  function Born(actions: seq<Action>, c: Config, thread: string): Option<int>
    decreases |actions|
  {
    if actions == [] then None else
    var before, a := actions[..|actions| - 1], actions[|actions| - 1];
    var m := Run(Start, before, c);
    if Born(before, c, thread).Some? then Born(before, c, thread)
    else if a.Submit? && a.id !in m.calls && a.message.key !in m.bus.keys && a.message.thread == thread then Some(a.now)
    else None
  }

  lemma SubmitKnows(bus: Bus, e: Envelope, now: int, c: Config, thread: string)
    requires BusOk(bus, c)
    ensures var v := Submitted(bus, e, now, c).bus;
            && (thread in v.threads <==> thread in bus.threads || (e.key !in bus.keys && thread == e.thread))
            && (thread in v.threads ==> v.threads[thread].firstSeen == if thread in bus.threads then bus.threads[thread].firstSeen else now)
  {
    hide Reserve, Budget;
  }

  lemma OtherActionsKnow(m: Machine, a: Action, c: Config)
    requires !a.Submit? || a.id in m.calls
    ensures Do(m, a, c).bus.threads == m.bus.threads
  {
    hide Without;
  }

  lemma {:induction false} BornIsFirstSeen(actions: seq<Action>, c: Config, thread: string)
    requires Positive(c)
    ensures var m := Run(Start, actions, c);
            && (thread in m.bus.threads <==> Born(actions, c, thread).Some?)
            && (thread in m.bus.threads ==> m.bus.threads[thread].firstSeen == Born(actions, c, thread).value)
    decreases |actions|
  {
    if actions == [] { return; }
    var before, a := actions[..|actions| - 1], actions[|actions| - 1];
    assert actions == before + [a];
    RunSnoc(Start, before, a, c);
    BornIsFirstSeen(before, c, thread);
    var m := Run(Start, before, c);
    StartInv(c);
    RunKeepsInv(Start, before, c);
    if a.Submit? && a.id !in m.calls {
      SubmitKnows(m.bus, a.message, a.now, c, thread);
    } else {
      OtherActionsKnow(m, a, c);
    }
    hide Submitted, Inv, Run;
  }

  /** In every run a message is accepted exactly when its key is free, hops and
      audits are left, and the thread it was submitted to was first seen no
      longer ago than the timeout. */
  lemma AcceptedInTimeIff(actions: seq<Action>, c: Config, id: nat, e: Envelope, now: int)
    requires Positive(c) && id !in Run(Start, actions, c).calls
    ensures var m := Run(Start, actions, c);
            Do(m, Submit(id, e, now), c).log != m.log <==>
              && e.key !in m.bus.keys && WithinHops(m.bus, e, c) && Identified(e) && RoomToAudit(m.bus, e, c)
              && (Born(actions, c, e.thread).Some? ==> now - Born(actions, c, e.thread).value <= c.timeout)
  {
    BornIsFirstSeen(actions, c, e.thread);
    AdmittedIff(Run(Start, actions, c).bus, e, now, c);
    hide Submitted, Run;
  }
}
