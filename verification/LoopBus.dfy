/** The message bus: keys reserved under the lock before dispatch, handlers run
    outside it, budgets per thread, one adjudication thread per issue. */
module LoopBus {
  import opened OperationStore

  datatype MessageKind = Deduplicated | AuditRequest | OtherKind

  datatype Envelope = Envelope(
    sender: string, receiver: string, kind: MessageKind, thread: string,
    key: string, hop: nat, fingerprint: string, evidence: string)

  datatype Thread = Thread(firstSeen: int, hops: nat, audits: nat)

  datatype Issue = Issue(thread: string, reporters: seq<string>, evidence: seq<string>, verdict: Option<string>)

  datatype Config = Config(maxHops: nat, maxAudits: nat, timeout: int, cap: nat)

  /** `keys` in delivery order, oldest first. */
  datatype Bus = Bus(keys: seq<string>, threads: map<string, Thread>, issues: map<string, Issue>, routes: set<string>)

  const Empty := Bus([], map[], map[], {})

  predicate Positive(c: Config) { c.maxHops > 0 && c.maxAudits > 0 && c.timeout > 0 && c.cap > 0 }

  /** What the locked part of a submission comes to. */
  datatype Verdict = Duplicate | NoFingerprint | OverBudget(reason: string) | Admit(delivered: Envelope)

  datatype Submission = Submission(bus: Bus, verdict: Verdict)

  function Reserve(keys: seq<string>, key: string, cap: nat): seq<string> {
    var grown := keys + [key];
    if |grown| > cap then grown[1..] else grown
  }

  function Without(keys: seq<string>, key: string): seq<string> {
    if keys == [] then []
    else if keys[0] == key then Without(keys[1..], key)
    else [keys[0]] + Without(keys[1..], key)
  }

  function ThreadOf(threads: map<string, Thread>, thread: string, now: int): Thread {
    if thread in threads then threads[thread] else Thread(now, 0, 0)
  }

  function Budget(threads: map<string, Thread>, e: Envelope, now: int, c: Config): Option<string> {
    var t := ThreadOf(threads, e.thread, now);
    if e.hop >= c.maxHops then Some("single message hop limit exceeded")
    else if t.hops >= c.maxHops then Some("max hops per thread exceeded")
    else if now - t.firstSeen > c.timeout then Some("overall thread timeout exceeded")
    else None
  }

  function AddNew(xs: seq<string>, x: string): seq<string> { if x in xs then xs else xs + [x] }

  /** The issue after one more report of it. */
  function Report(issues: map<string, Issue>, e: Envelope): Issue {
    if e.fingerprint !in issues then Issue(e.thread, [e.sender], [e.evidence], None)
    else
      var was := issues[e.fingerprint];
      was.(reporters := AddNew(was.reporters, e.sender),
           evidence := if e.evidence == "" then was.evidence else AddNew(was.evidence, e.evidence))
  }

  function Submitted(bus: Bus, e: Envelope, now: int, c: Config): Submission {
    if e.key in bus.keys then Submission(bus, Duplicate) else
    var reserved := bus.(keys := Reserve(bus.keys, e.key, c.cap),
                         threads := bus.threads[e.thread := ThreadOf(bus.threads, e.thread, now)]);
    var over := Budget(bus.threads, e, now, c);
    if over.Some? then Submission(reserved, OverBudget(over.value))
    else if e.kind == Deduplicated && e.fingerprint == "" then Submission(reserved, NoFingerprint)
    else
      var issues := if e.kind == Deduplicated then bus.issues[e.fingerprint := Report(bus.issues, e)] else bus.issues;
      var thread := if e.kind == Deduplicated then Report(bus.issues, e).thread else e.thread;
      var was := ThreadOf(reserved.threads, thread, now);
      var audits := if e.kind == AuditRequest then was.audits + 1 else was.audits;
      var after := reserved.(issues := issues, threads := reserved.threads[thread := was.(hops := was.hops + 1, audits := audits)]);
      if e.kind == AuditRequest && audits > c.maxAudits then Submission(after, OverBudget("max audits per thread exceeded"))
      else Submission(after, Admit(e.(thread := thread, hop := e.hop + 1)))
  }

  function RolledBack(bus: Bus, key: string): Bus { bus.(keys := Without(bus.keys, key)) }

  /** Touched as most recently used; None when the key was evicted meanwhile. */
  function Committed(bus: Bus, key: string): Option<Bus> {
    if key in bus.keys then Some(bus.(keys := Without(bus.keys, key) + [key])) else None
  }

  predicate Blank(s: string) { forall i | 0 <= i < |s| :: s[i] in [' ', '\t', '\n', '\r'] }

  predicate Distinct(keys: seq<string>) { forall i, j | 0 <= i < j < |keys| :: keys[i] != keys[j] }

  /** Keys are distinct and bounded, and every issue names a known thread. */
  ghost predicate BusOk(bus: Bus, c: Config) {
    && Distinct(bus.keys) && |bus.keys| <= c.cap
    && forall f | f in bus.issues :: bus.issues[f].thread in bus.threads
  }

  lemma {:induction false} WithoutKeeps(keys: seq<string>, key: string)
    ensures |Without(keys, key)| <= |keys| && (key in keys ==> |Without(keys, key)| < |keys|)
    ensures forall k :: k in Without(keys, key) <==> k in keys && k != key
    ensures Distinct(keys) ==> Distinct(Without(keys, key))
  {
    if keys != [] {
      WithoutKeeps(keys[1..], key);
      assert forall k :: k in keys <==> k == keys[0] || k in keys[1..];
      if Distinct(keys) {
        assert Distinct(keys[1..]);
        var rest := Without(keys[1..], key);
        forall i | 0 <= i < |rest| ensures rest[i] != keys[0] {
          assert rest[i] in keys[1..];
          var j :| 0 <= j < |keys| - 1 && keys[1..][j] == rest[i];
          assert keys[j + 1] == rest[i];
        }
        assert Distinct([keys[0]] + rest);
      }
    }
  }

  lemma SubmittedKeepsBusOk(bus: Bus, e: Envelope, now: int, c: Config)
    requires BusOk(bus, c) && Positive(c)
    ensures BusOk(Submitted(bus, e, now, c).bus, c)
  {
    if e.key !in bus.keys {
      var grown := bus.keys + [e.key];
      assert Distinct(grown);
      assert Distinct(grown[1..]);
    }
  }

  /** A redirected report lands on a thread that exists. */
  lemma ReportedThreadExists(bus: Bus, e: Envelope, c: Config)
    requires BusOk(bus, c)
    ensures Report(bus.issues, e).thread in bus.threads || Report(bus.issues, e).thread == e.thread
  {
  }

  lemma RollbackKeepsBusOk(bus: Bus, key: string, c: Config)
    requires BusOk(bus, c)
    ensures BusOk(RolledBack(bus, key), c) && key !in RolledBack(bus, key).keys
    ensures Committed(bus, key).Some? ==> BusOk(Committed(bus, key).value, c)
  {
    WithoutKeeps(bus.keys, key);
  }

  // ------------------------------------------------------------------ the bus

  class LoopBus {
    var keys: seq<string>
    var threads: map<string, Thread>
    var issues: map<string, Issue>
    var handlers: set<string>
    const config: Config

    function View(): Bus reads this { Bus(keys, threads, issues, handlers) }

    ghost predicate Valid() reads this { Positive(config) && BusOk(View(), config) }

    constructor (config: Config)
      requires Positive(config)
      ensures Valid() && View() == Empty && this.config == config
    {
      this.config := config;
      keys, threads, issues, handlers := [], map[], map[], {};
    }

    method Register(endpoint: string) returns (ok: bool)
      requires Valid()
      modifies `handlers
      ensures Valid() && ok == (!Blank(endpoint) && endpoint !in old(handlers))
      ensures handlers == if ok then old(handlers) + {endpoint} else old(handlers)
    {
      if Blank(endpoint) || endpoint in handlers { return false; }
      handlers := handlers + {endpoint};
      return true;
    }

    method CheckIdempotent(key: string) returns (unseen: bool)
      requires Positive(config)
      modifies `keys
      ensures unseen == (key !in old(keys))
      ensures keys == if unseen then Reserve(old(keys), key, config.cap) else old(keys)
    {
      if key in keys { return false; }
      keys := keys + [key];
      if |keys| > config.cap { keys := keys[1..]; }
      return true;
    }

    method CheckBudget(e: Envelope, now: int) returns (over: Option<string>)
      modifies `threads
      ensures over == Budget(old(threads), e, now, config)
      ensures threads == old(threads)[e.thread := ThreadOf(old(threads), e.thread, now)]
    {
      if e.thread !in threads { threads := threads[e.thread := Thread(now, 0, 0)]; }
      var t := threads[e.thread];
      if e.hop >= config.maxHops { return Some("single message hop limit exceeded"); }
      if t.hops >= config.maxHops { return Some("max hops per thread exceeded"); }
      if now - t.firstSeen > config.timeout { return Some("overall thread timeout exceeded"); }
      return None;
    }

    /** One report merged into the issue's own thread; no second ruling. */
    method Dedup(e: Envelope) returns (thread: string)
      requires e.kind == Deduplicated ==> e.fingerprint != ""
      modifies `issues
      ensures e.kind == Deduplicated ==>
                thread == Report(old(issues), e).thread && issues == old(issues)[e.fingerprint := Report(old(issues), e)]
      ensures e.kind != Deduplicated ==> thread == e.thread && issues == old(issues)
    {
      if e.kind != Deduplicated { return e.thread; }
      if e.fingerprint !in issues {
        issues := issues[e.fingerprint := Issue(e.thread, [e.sender], [e.evidence], None)];
        return e.thread;
      }
      var record := issues[e.fingerprint];
      if e.sender !in record.reporters { record := record.(reporters := record.reporters + [e.sender]); }
      if e.evidence != "" && e.evidence !in record.evidence { record := record.(evidence := record.evidence + [e.evidence]); }
      issues := issues[e.fingerprint := record];
      return record.thread;
    }

    /** The locked part of a submission. */
    method Accept(e: Envelope, now: int) returns (verdict: Verdict)
      requires Valid()
      modifies `keys, `threads, `issues
      ensures Valid() && Submission(View(), verdict) == Submitted(old(View()), e, now, config)
    {
      hide BusOk, Report, Budget;
      SubmittedKeepsBusOk(View(), e, now, config);
      ReportedThreadExists(View(), e, config);
      var unseen := CheckIdempotent(e.key);
      if !unseen { return Duplicate; }
      var over := CheckBudget(e, now);
      if over.Some? { return OverBudget(over.value); }
      if e.kind == Deduplicated && e.fingerprint == "" { return NoFingerprint; }
      var thread := Dedup(e);
      var state := threads[thread];
      state := state.(hops := state.hops + 1);
      if e.kind == AuditRequest { state := state.(audits := state.audits + 1); }
      threads := threads[thread := state];
      if e.kind == AuditRequest && state.audits > config.maxAudits { return OverBudget("max audits per thread exceeded"); }
      return Admit(e.(thread := thread, hop := e.hop + 1));
    }

    method Rollback(key: string)
      requires Valid()
      modifies `keys
      ensures Valid() && View() == RolledBack(old(View()), key) && key !in keys
    {
      RollbackKeepsBusOk(View(), key, config);
      keys := Without(keys, key);
    }

    /** An evicted key cannot be touched: the caller sees an error after its
        message was delivered. */
    method Commit(key: string) returns (ok: bool)
      requires Valid()
      modifies `keys
      ensures Valid() && ok == Committed(old(View()), key).Some?
      ensures View() == if ok then Committed(old(View()), key).value else old(View())
    {
      RollbackKeepsBusOk(View(), key, config);
      if key !in keys { return false; }
      keys := Without(keys, key) + [key];
      return true;
    }

    /** One verdict per issue. */
    method ResolveIssue(fingerprint: string, verdict: string) returns (ok: bool)
      requires Valid()
      modifies `issues
      ensures Valid() && ok == (fingerprint in old(issues) && old(issues)[fingerprint].verdict.None?)
      ensures !ok ==> issues == old(issues)
      ensures ok ==> issues == old(issues)[fingerprint := old(issues)[fingerprint].(verdict := Some(verdict))]
    {
      if fingerprint !in issues || issues[fingerprint].verdict.Some? { return false; }
      issues := issues[fingerprint := issues[fingerprint].(verdict := Some(verdict))];
      return true;
    }
  }
}
