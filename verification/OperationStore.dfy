/** The durable tables an external operation lives in: the intents themselves,
    the success counters they charge, the missions that can block them and the
    planner actions already executed.  Everything here survives a crash. */
module OperationStore {

  datatype Option<+T> = None | Some(value: T)

  datatype Kind = Spawn | Send | Kill | Approval

  datatype Status = NotStarted | InFlight | Unknown | Succeeded | Failed

  /** What an approval response is known to have become. */
  datatype Verdict = Undecided | Expired | Invalidated | Declined | Confirmed

  datatype Receipt = Receipt(written: bool, closed: bool, observationOnly: bool, verdict: Verdict)

  /** The part of `result_json` the caller supplies. */
  datatype Payload = Payload(session: Option<string>, receipt: Option<Receipt>)

  /** `request_json`: input hash, harness, success counters and, for an AO spawn,
      the random correlation marker chosen by the first committed intent. */
  datatype Request = Request(counters: set<string>, digest: string, harness: string, marker: string)

  datatype Operation = Operation(
    kind: Kind, owner: string, target: string, request: Request,
    status: Status, attempts: nat,
    payload: Payload, charged: bool, evidence: seq<string>)

  datatype Mission = Mission(stopRequested: bool, terminal: bool)

  /** What `mark_action_executed` keeps of an action's result. */
  datatype Executed = Executed(ok: bool, worker: Option<string>)

  datatype Db = Db(
    ops: map<string, Operation>,
    counters: map<string, nat>,
    missions: map<string, Mission>,
    executed: map<string, Executed>)

  const EmptyPayload := Payload(None, None)

  function NewOperation(kind: Kind, owner: string, target: string, request: Request): Operation {
    Operation(kind, owner, target, request, NotStarted, 0, EmptyPayload, false, [])
  }

  function Counter(db: Db, key: string): nat {
    if key in db.counters then db.counters[key] else 0
  }

  predicate Unresolved(status: Status) { status == InFlight || status == Unknown }

  /** A written and closed response is not a new execution instruction. */
  predicate ClosedApprovalResponse(op: Operation) {
    && op.kind == Approval
    && op.payload.receipt.Some?
    && op.payload.receipt.value.written
    && op.payload.receipt.value.closed
    && op.payload.receipt.value.observationOnly
  }

  /** Same identity, same input; the marker belongs to the first intent. */
  predicate SameIntent(op: Operation, kind: Kind, owner: string, target: string, request: Request) {
    && op.kind == kind && op.owner == owner && op.target == target
    && op.request.counters == request.counters && op.request.digest == request.digest
    && op.request.harness == request.harness
  }

  // ------------------------------------------------------------ transactions

  /** Insert the intent if its identity is absent. */
  function Ensure(db: Db, id: string, kind: Kind, owner: string, target: string, request: Request): Db {
    if id in db.ops then db else db.(ops := db.ops[id := NewOperation(kind, owner, target, request)])
  }

  predicate OwnerBlocked(db: Db, owner: string) {
    owner in db.missions && (db.missions[owner].stopRequested || db.missions[owner].terminal)
  }

  predicate OtherUnresolved(db: Db, id: string, owner: string) {
    exists other :: other in db.ops && other != id && db.ops[other].owner == owner
                    && Unresolved(db.ops[other].status) && !ClosedApprovalResponse(db.ops[other])
  }

  predicate Claimable(db: Db, id: string, limit: nat)
    requires id in db.ops
  {
    var op := db.ops[id];
    && op.status == NotStarted
    && op.attempts < limit
    && (op.kind != Kill ==> !OwnerBlocked(db, op.owner) && !OtherUnresolved(db, id, op.owner))
  }

  /** The claim commits IN_FLIGHT and the attempt before anything is invoked. */
  function Claim(db: Db, id: string, limit: nat): Db
    requires id in db.ops
  {
    if Claimable(db, id, limit)
    then db.(ops := db.ops[id := db.ops[id].(status := InFlight, attempts := db.ops[id].attempts + 1)])
    else db
  }

  function Noted(evidence: seq<string>, fact: string): seq<string> {
    if evidence != [] && evidence[|evidence| - 1] == fact then evidence else evidence + [fact]
  }

  function Charge(counters: map<string, nat>, keys: set<string>): map<string, nat> {
    map key | key in counters.Keys + keys ::
      (if key in counters then counters[key] else 0) + (if key in keys then 1 else 0)
  }

  /** Only an acknowledged kill can be contradicted by a later observation. */
  predicate Settled(op: Operation) { op.kind != Kill && op.status == Succeeded }

  function Observe(db: Db, id: string, status: Status, fact: string,
                   payload: Option<Payload>, keys: set<string>): Db
    requires id in db.ops
  {
    var op := db.ops[id];
    if Settled(op) then db else
    var charge := status == Succeeded && !op.charged;
    db.(ops := db.ops[id := op.(
          status := status,
          payload := if payload.Some? then payload.value else op.payload,
          charged := op.charged || charge,
          evidence := Noted(op.evidence, fact))],
        counters := if charge then Charge(db.counters, keys) else db.counters)
  }

  /** An observation changes its own row and nothing that identifies it. */
  lemma ObserveFrame(db: Db, id: string, status: Status, fact: string, payload: Option<Payload>, keys: set<string>)
    requires id in db.ops
    ensures var v := Observe(db, id, status, fact, payload, keys);
            && v.executed == db.executed && v.missions == db.missions && v.ops.Keys == db.ops.Keys
            && (forall other | other in db.ops && other != id :: v.ops[other] == db.ops[other])
            && v.ops[id].kind == db.ops[id].kind && v.ops[id].request == db.ops[id].request
            && v.ops[id].target == db.ops[id].target && v.ops[id].owner == db.ops[id].owner
            && (v.ops[id].status == status || (Settled(db.ops[id]) && v == db))
  {
  }

  /** What was noted of an operation stays, in order, and the latest fact is the
      last; the same fact is not noted twice in a row. */
  lemma EvidenceIsKept(db: Db, id: string, status: Status, fact: string, payload: Option<Payload>, keys: set<string>)
    requires id in db.ops && !Settled(db.ops[id])
    ensures var was, now := db.ops[id].evidence, Observe(db, id, status, fact, payload, keys).ops[id].evidence;
            && was <= now && now != [] && now[|now| - 1] == fact && |now| <= |was| + 1
            && (|now| == |was| <==> was != [] && was[|was| - 1] == fact)
  {
  }

  function StopMission(db: Db, mission: string): Db {
    var row := if mission in db.missions then db.missions[mission] else Mission(false, false);
    db.(missions := db.missions[mission := row.(stopRequested := true)])
  }

  /** First write wins: INSERT OR IGNORE. */
  function MarkExecuted(db: Db, action: string, result: Executed): Db {
    if action in db.executed then db else db.(executed := db.executed[action := result])
  }

  // ------------------------------------------------------------------ ledger

  /** The operations that have charged `key`. */
  function ChargedTo(db: Db, key: string): set<string> {
    set id | id in db.ops && db.ops[id].charged && key in db.ops[id].request.counters
  }

  /** The counter of a success key is the number of operations charged to it. */
  ghost predicate Balanced(db: Db) {
    forall key :: Counter(db, key) == |ChargedTo(db, key)|
  }

  /** What an observation does to a counter and to the operations it counts. */
  lemma ObserveCounts(db: Db, id: string, status: Status, fact: string, payload: Option<Payload>, keys: set<string>, key: string)
    requires id in db.ops
    ensures var after := Observe(db, id, status, fact, payload, keys);
            var charge := !Settled(db.ops[id]) && status == Succeeded && !db.ops[id].charged;
            && Counter(after, key) == Counter(db, key) + (if charge && key in keys then 1 else 0)
            && after.ops.Keys == db.ops.Keys && (forall other | other in db.ops && other != id :: after.ops[other] == db.ops[other])
            && after.ops[id].charged == (db.ops[id].charged || charge)
            && after.ops[id].request == db.ops[id].request
  {
  }

  /** An observation that passes the intent's own keys keeps the books. */
  lemma ObserveKeepsBalance(db: Db, id: string, status: Status, fact: string, payload: Option<Payload>)
    requires id in db.ops && Balanced(db)
    ensures Balanced(Observe(db, id, status, fact, payload, db.ops[id].request.counters))
  {
    var keys := db.ops[id].request.counters;
    hide Observe, Counter, Settled, ChargedTo;
    forall key ensures Counter(Observe(db, id, status, fact, payload, keys), key) == |ChargedTo(Observe(db, id, status, fact, payload, keys), key)| {
      assert Counter(db, key) == |ChargedTo(db, key)|;
      ObserveKeepsCounter(db, id, status, fact, payload, key);
    }
  }

  lemma ObserveKeepsCounter(db: Db, id: string, status: Status, fact: string, payload: Option<Payload>, key: string)
    requires id in db.ops && Counter(db, key) == |ChargedTo(db, key)|
    ensures var after := Observe(db, id, status, fact, payload, db.ops[id].request.counters); Counter(after, key) == |ChargedTo(after, key)|
  {
    var keys := db.ops[id].request.counters;
    var after := Observe(db, id, status, fact, payload, keys);
    hide Observe, Counter, Settled;
    ObserveCounts(db, id, status, fact, payload, keys, key);
    OneMore(ChargedTo(db, key), ChargedTo(after, key), id, after.ops[id].charged && !db.ops[id].charged && key in keys);
  }

  lemma OneMore(was: set<string>, now: set<string>, id: string, more: bool)
    requires id !in was || !more
    requires forall x :: x in now <==> x in was || (more && x == id)
    ensures |now| == |was| + if more then 1 else 0
  {
    if more { assert now == was + {id}; } else { assert now == was; }
  }

  lemma EnsureKeepsBalance(db: Db, id: string, kind: Kind, owner: string, target: string, request: Request)
    requires Balanced(db)
    ensures Balanced(Ensure(db, id, kind, owner, target, request))
  {
    var after := Ensure(db, id, kind, owner, target, request);
    forall key ensures Counter(after, key) == |ChargedTo(after, key)| {
      assert Counter(db, key) == |ChargedTo(db, key)|;
      assert ChargedTo(after, key) == ChargedTo(db, key);
    }
  }

  lemma ClaimKeepsBalance(db: Db, id: string, limit: nat)
    requires id in db.ops && Balanced(db)
    ensures Balanced(Claim(db, id, limit))
  {
    var after := Claim(db, id, limit);
    forall key ensures Counter(after, key) == |ChargedTo(after, key)| {
      assert Counter(db, key) == |ChargedTo(db, key)|;
      assert ChargedTo(after, key) == ChargedTo(db, key);
    }
  }

  // ------------------------------------------------------------------- store

  /** One connection to the database: each method is one transaction. */
  class StateStore {
    var db: Db

    constructor ()
      ensures db == Db(map[], map[], map[], map[])
    {
      db := Db(map[], map[], map[], map[]);
    }

    method EnsureOperation(id: string, kind: Kind, owner: string, target: string, request: Request)
      returns (op: Operation, conflict: bool)
      modifies this
      ensures db == Ensure(old(db), id, kind, owner, target, request)
      ensures id in db.ops && op == db.ops[id]
      ensures conflict == !SameIntent(op, kind, owner, target, request)
      ensures id !in old(db).ops ==> !conflict && op.status == NotStarted && op.attempts == 0
    {
      if id !in db.ops {
        db := db.(ops := db.ops[id := NewOperation(kind, owner, target, request)]);
      }
      op := db.ops[id];
      conflict := !SameIntent(op, kind, owner, target, request);
    }

    method OperationClaim(id: string, limit: nat) returns (won: bool)
      requires id in db.ops
      modifies this
      ensures won == old(Claimable(db, id, limit))
      ensures db == Claim(old(db), id, limit)
    {
      won := Claimable(db, id, limit);
      if won {
        var op := db.ops[id];
        db := db.(ops := db.ops[id := op.(status := InFlight, attempts := op.attempts + 1)]);
      }
    }

    method OperationObserve(id: string, status: Status, fact: string, payload: Option<Payload>, keys: set<string>)
      returns (saved: Operation)
      requires id in db.ops
      modifies this
      ensures db == Observe(old(db), id, status, fact, payload, keys)
      ensures id in db.ops && saved == db.ops[id]
    {
      var op := db.ops[id];
      if Settled(op) {
        return op;
      }
      var evidence := op.evidence;
      if evidence == [] || evidence[|evidence| - 1] != fact {
        evidence := evidence + [fact];
      }
      var counters, charged := db.counters, op.charged;
      if status == Succeeded && !op.charged {
        counters, charged := Charge(counters, keys), true;
      }
      var values := if payload.None? then op.payload else payload.value;
      saved := op.(status := status, payload := values, charged := charged, evidence := evidence);
      db := db.(ops := db.ops[id := saved], counters := counters);
    }

    method MarkActionExecuted(action: string, result: Executed)
      modifies this
      ensures db == MarkExecuted(old(db), action, result)
    {
      if action !in db.executed {
        db := db.(executed := db.executed[action := result]);
      }
    }
  }
}
