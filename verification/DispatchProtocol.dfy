/** Every agent that carries an external operation out, interleaved with every
    other one on the same database: controller threads, a second process, and
    the process that takes over after a crash.  One action is one transaction,
    one process creation or one read of the peer. */
module DispatchProtocol {
  import opened OperationStore

  /** Where an agent stands inside one call. */
  datatype Pc =
    | Idle
    | Loaded(id: string, snapshot: Status)     // the intent is durable
    | ClaimWon(id: string)                     // IN_FLIGHT is durable, nothing invoked
    | Armed(id: string, attempts: nat)         // the claimed row has been re-read
    | Refused(id: string, attempts: nat)       // the process could not be created
    | Running(id: string)                      // the process exists, no reply yet
    | Reconciling(id: string)                  // only a read of the peer is left
    | HasFact(id: string, fact: Status)        // the read is not yet recorded
    | Recorded(id: string)                     // the row is about to be re-read
    | Returned(id: string, status: Status)

  /** `confirmed`: since the agent's call began, a success read from the peer
      was recorded for the operation the call is about. */
  datatype Agent = Agent(pc: Pc, confirmed: bool)

  /** What came back after the process was created. */
  datatype Ack = Accepted(payload: Payload) | Lost | Rejected | Silent | Ambiguous

  /** `created` counts, per operation, the processes that really came to be. */
  datatype World = World(db: Db, agents: map<nat, Agent>, created: multiset<string>)

  datatype Action =
    | Intend(a: nat, id: string, kind: Kind, owner: string, target: string, request: Request)
    | Proceed(a: nat, terminated: bool)
    | Reload(a: nat)
    | Create(a: nat, possible: bool)
    | ReportRefusal(a: nat)
    | Answer(a: nat, ack: Ack)
    | Read(a: nat, fact: Status)
    | RecordFact(a: nat, payload: Option<Payload>)
    | Reread(a: nat)
    | Leave(a: nat)
    | Crash(gone: set<nat>)
    | Stop(mission: string)
    | Mark(action: string, result: Executed)

  const Init := World(Db(map[], map[], map[], map[]), map[], multiset{})

  function At(w: World, a: nat): Agent {
    if a in w.agents then w.agents[a] else Agent(Idle, false)
  }

  function Limit(kind: Kind, spawnLimit: nat): nat {
    match kind
    case Spawn => spawnLimit
    case Approval => 1
    case _ => 3
  }

  predicate Active(pc: Pc, id: string) { !pc.Idle? && pc.id == id }

  /** The agent has claimed `id` and no process exists for that claim. */
  predicate Holding(pc: Pc, id: string) {
    (pc.ClaimWon? || pc.Armed? || pc.Refused?) && pc.id == id
  }

  /** Stops and approval responses carry no success counters. */
  predicate Uncounted(kind: Kind) { kind == Kill || kind == Approval }

  function Move(w: World, a: nat, pc: Pc): World {
    w.(agents := w.agents[a := At(w, a).(pc := pc)])
  }

  function MoveWith(w: World, db: Db, a: nat, pc: Pc): World {
    Move(w.(db := db), a, pc)
  }

  /** Everyone in a call about `id` has now lived through a recorded success. */
  function Witness(agents: map<nat, Agent>, id: string): map<nat, Agent> {
    map a | a in agents ::
      if Active(agents[a].pc, id) then agents[a].(confirmed := true) else agents[a]
  }

  /** Facts a read-only reconciliation can produce: never NOT_STARTED, and
      FAILED only for an approval response. */
  predicate ReadableFact(kind: Kind, fact: Status) {
    fact == Unknown || fact == Succeeded || (fact == Failed && kind == Approval)
  }

  predicate PossibleAck(kind: Kind, ack: Ack) {
    match ack
    case Accepted(_) => kind == Spawn || kind == Send
    case Rejected => kind == Spawn || kind == Send
    case Ambiguous => kind == Approval
    case _ => true
  }

  // -------------------------------------------------------------- the actions

  function TryClaim(w: World, a: nat, id: string, spawnLimit: nat): World
    requires id in w.db.ops
  {
    var limit := Limit(w.db.ops[id].kind, spawnLimit);
    if Claimable(w.db, id, limit) then MoveWith(w, Claim(w.db, id, limit), a, ClaimWon(id))
    else Move(w, a, Recorded(id))
  }

  function ProceedWith(w: World, a: nat, terminated: bool, spawnLimit: nat): World
    requires At(w, a).pc.Loaded? && At(w, a).pc.id in w.db.ops
  {
    var Loaded(id, snapshot) := At(w, a).pc;
    if w.db.ops[id].kind == Kill then
      if snapshot != NotStarted || terminated then Move(w, a, Reconciling(id))
      else TryClaim(w, a, id, spawnLimit)
    else if snapshot == Succeeded || snapshot == Failed then Move(w, a, Returned(id, snapshot))
    else if Unresolved(snapshot) then Move(w, a, Reconciling(id))
    else TryClaim(w, a, id, spawnLimit)
  }

  function Refusal(w: World, a: nat, spawnLimit: nat): World
    requires At(w, a).pc.Refused? && At(w, a).pc.id in w.db.ops
  {
    var Refused(id, attempts) := At(w, a).pc;
    var op := w.db.ops[id];
    var status := if attempts >= Limit(op.kind, spawnLimit) then Failed else NotStarted;
    MoveWith(w, Observe(w.db, id, status, "process could not be created", None, {}), a, Recorded(id))
  }

  function AnswerWith(w: World, a: nat, ack: Ack): World
    requires At(w, a).pc.Running? && At(w, a).pc.id in w.db.ops
  {
    var id := At(w, a).pc.id;
    var keys := w.db.ops[id].request.counters;
    match ack
    case Accepted(payload) =>
      MoveWith(w, Observe(w.db, id, Succeeded, "acknowledged", Some(payload), keys), a, Recorded(id))
    case Lost =>
      MoveWith(w, Observe(w.db, id, InFlight, "acknowledgement lost", None, {}), a, Reconciling(id))
    case Rejected =>
      MoveWith(w, Observe(w.db, id, Failed, "rejected", None, {}), a, Recorded(id))
    case Silent => Move(w, a, Reconciling(id))
    case Ambiguous =>
      MoveWith(w, Observe(w.db, id, Unknown, "write unconfirmed", None, {}), a, Recorded(id))
  }

  function RecordFactWith(w: World, a: nat, payload: Option<Payload>): World
    requires At(w, a).pc.HasFact? && At(w, a).pc.id in w.db.ops
  {
    var HasFact(id, fact) := At(w, a).pc;
    var keys := w.db.ops[id].request.counters;
    var seen := if fact == Succeeded then w.(agents := Witness(w.agents, id)) else w;
    MoveWith(seen, Observe(w.db, id, fact, "reconciled", payload, keys), a, Recorded(id))
  }

  /** An action that is not enabled changes nothing. */
  function Apply(w: World, act: Action, spawnLimit: nat): World {
    match act
    case Intend(a, id, kind, owner, target, request) =>
      if !At(w, a).pc.Idle? || (Uncounted(kind) && request.counters != {}) then w else
      var db := Ensure(w.db, id, kind, owner, target, request);
      if !SameIntent(db.ops[id], kind, owner, target, request) then w
      else w.(db := db, agents := w.agents[a := Agent(Loaded(id, db.ops[id].status), false)])
    case Proceed(a, terminated) =>
      var pc := At(w, a).pc;
      if pc.Loaded? && pc.id in w.db.ops then ProceedWith(w, a, terminated, spawnLimit) else w
    case Reload(a) =>
      var pc := At(w, a).pc;
      if pc.ClaimWon? && pc.id in w.db.ops then Move(w, a, Armed(pc.id, w.db.ops[pc.id].attempts)) else w
    case Create(a, possible) =>
      var pc := At(w, a).pc;
      if !pc.Armed? then w
      else if possible then Move(w, a, Running(pc.id)).(created := w.created + multiset{pc.id})
      else Move(w, a, Refused(pc.id, pc.attempts))
    case ReportRefusal(a) =>
      var pc := At(w, a).pc;
      if pc.Refused? && pc.id in w.db.ops then Refusal(w, a, spawnLimit) else w
    case Answer(a, ack) =>
      var pc := At(w, a).pc;
      if pc.Running? && pc.id in w.db.ops && PossibleAck(w.db.ops[pc.id].kind, ack)
      then AnswerWith(w, a, ack) else w
    case Read(a, fact) =>
      var pc := At(w, a).pc;
      if pc.Reconciling? && pc.id in w.db.ops && ReadableFact(w.db.ops[pc.id].kind, fact)
      then Move(w, a, HasFact(pc.id, fact)) else w
    case RecordFact(a, payload) =>
      var pc := At(w, a).pc;
      if pc.HasFact? && pc.id in w.db.ops then RecordFactWith(w, a, payload) else w
    case Reread(a) =>
      var pc := At(w, a).pc;
      if pc.Recorded? && pc.id in w.db.ops then Move(w, a, Returned(pc.id, w.db.ops[pc.id].status)) else w
    case Leave(a) =>
      if At(w, a).pc.Returned? then Move(w, a, Idle) else w
    case Crash(gone) =>
      w.(agents := map a | a in w.agents :: if a in gone then Agent(Idle, false) else w.agents[a])
    case Stop(mission) =>
      w.(db := StopMission(w.db, mission))
    case Mark(action, result) =>
      w.(db := MarkExecuted(w.db, action, result))
  }

  function Run(w: World, acts: seq<Action>, spawnLimit: nat): World
    decreases |acts|
  {
    if acts == [] then w else Run(Apply(w, acts[0], spawnLimit), acts[1..], spawnLimit)
  }

  // -------------------------------------------- the transaction of an action

  datatype Tx =
    | Nothing
    | Insert(id: string, kind: Kind, owner: string, target: string, request: Request)
    | Take(id: string, limit: nat)
    | Note(id: string, status: Status, fact: string, payload: Option<Payload>, keys: set<string>)
    | Halt(mission: string)
    | Remember(action: string, result: Executed)

  function Commit(db: Db, tx: Tx): Db {
    match tx
    case Nothing => db
    case Insert(id, kind, owner, target, request) => Ensure(db, id, kind, owner, target, request)
    case Take(id, limit) => if id in db.ops then Claim(db, id, limit) else db
    case Note(id, status, fact, payload, keys) => if id in db.ops then Observe(db, id, status, fact, payload, keys) else db
    case Halt(mission) => StopMission(db, mission)
    case Remember(action, result) => MarkExecuted(db, action, result)
  }

  /** At most one transaction per action, and which one. */
  function TxOf(w: World, act: Action, spawnLimit: nat): Tx {
    match act
    case Intend(a, id, kind, owner, target, request) =>
      if At(w, a).pc.Idle? && !(Uncounted(kind) && request.counters != {})
         && SameIntent(Ensure(w.db, id, kind, owner, target, request).ops[id], kind, owner, target, request)
      then Insert(id, kind, owner, target, request) else Nothing
    case Proceed(a, terminated) =>
      var pc := At(w, a).pc;
      if pc.Loaded? && pc.id in w.db.ops && pc.snapshot == NotStarted && !(w.db.ops[pc.id].kind == Kill && terminated)
      then Take(pc.id, Limit(w.db.ops[pc.id].kind, spawnLimit)) else Nothing
    case ReportRefusal(a) =>
      var pc := At(w, a).pc;
      if pc.Refused? && pc.id in w.db.ops
      then Note(pc.id, if pc.attempts >= Limit(w.db.ops[pc.id].kind, spawnLimit) then Failed else NotStarted,
                "process could not be created", None, {}) else Nothing
    case Answer(a, ack) =>
      var pc := At(w, a).pc;
      if !(pc.Running? && pc.id in w.db.ops && PossibleAck(w.db.ops[pc.id].kind, ack)) then Nothing else
      (match ack
       case Accepted(payload) => Note(pc.id, Succeeded, "acknowledged", Some(payload), w.db.ops[pc.id].request.counters)
       case Lost => Note(pc.id, InFlight, "acknowledgement lost", None, {})
       case Rejected => Note(pc.id, Failed, "rejected", None, {})
       case Silent => Nothing
       case Ambiguous => Note(pc.id, Unknown, "write unconfirmed", None, {}))
    case RecordFact(a, payload) =>
      var pc := At(w, a).pc;
      if pc.HasFact? && pc.id in w.db.ops
      then Note(pc.id, pc.fact, "reconciled", payload, w.db.ops[pc.id].request.counters) else Nothing
    case Stop(mission) => Halt(mission)
    case Mark(action, result) => Remember(action, result)
    case _ => Nothing
  }

  lemma ActionCommits(w: World, act: Action, spawnLimit: nat)
    ensures Apply(w, act, spawnLimit).db == Commit(w.db, TxOf(w, act, spawnLimit))
  {
  }

  lemma CommitRow(db: Db, tx: Tx, id: string)
    requires id in db.ops
    ensures var op, after := db.ops[id], Commit(db, tx).ops;
            && id in after
            && after[id].kind == op.kind && after[id].owner == op.owner
            && after[id].target == op.target && after[id].request == op.request
            && (Settled(op) ==> after[id] == op)
            && (op.status != NotStarted && after[id].status == NotStarted ==> tx.Note? && tx.id == id && tx.status == NotStarted)
  {
  }

  // ------------------------------------------------------------ the invariant

  predicate OpOk(w: World, id: string, spawnLimit: nat)
    requires id in w.db.ops
  {
    var op := w.db.ops[id];
    var limit := Limit(op.kind, spawnLimit);
    && w.created[id] <= 1
    && (w.created[id] == 1 ==> op.status != NotStarted)
    && op.attempts <= limit
    && (op.status == NotStarted ==> op.attempts < limit)
    && (op.kind != Kill ==> (op.charged <==> op.status == Succeeded))
    && (Uncounted(op.kind) ==> op.request.counters == {})
  }

  /** A stop call that has not just read the peer knows of a success only
      because one was recorded during the call. */
  predicate KillOk(op: Operation, agent: Agent) {
    op.kind == Kill ==>
      match agent.pc
      case Loaded(_, snapshot) => snapshot == NotStarted && op.status == Succeeded ==> agent.confirmed
      case ClaimWon(_) => op.status == Succeeded ==> agent.confirmed
      case Armed(_, _) => op.status == Succeeded ==> agent.confirmed
      case Refused(_, _) => op.status == Succeeded ==> agent.confirmed
      case Running(_) => op.status == Succeeded ==> agent.confirmed
      case Recorded(_) => op.status == Succeeded ==> agent.confirmed
      case Returned(_, status) => status == Succeeded ==> agent.confirmed
      case _ => true
  }

  predicate AgentOk(w: World, agent: Agent) {
    agent.pc.Idle? ||
    ( var pc := agent.pc;
      && pc.id in w.db.ops
      && (Holding(pc, pc.id) ==> w.db.ops[pc.id].status != NotStarted && w.created[pc.id] == 0)
      && (pc.Armed? || pc.Refused? ==> pc.attempts == w.db.ops[pc.id].attempts)
      && (pc.Running? ==> w.db.ops[pc.id].status != NotStarted && w.created[pc.id] == 1)
      && (pc.HasFact? ==> ReadableFact(w.db.ops[pc.id].kind, pc.fact))
      && KillOk(w.db.ops[pc.id], agent))
  }

  ghost predicate OneHolder(w: World) {
    forall a, b | a in w.agents && b in w.agents && a != b && !w.agents[a].pc.Idle? ::
      Holding(w.agents[a].pc, w.agents[a].pc.id) ==> !Holding(w.agents[b].pc, w.agents[a].pc.id)
  }

  ghost predicate Inv(w: World, spawnLimit: nat) {
    && (forall id | id in w.db.ops :: OpOk(w, id, spawnLimit))
    && (forall id | id in w.created :: id in w.db.ops)
    && (forall a | a in w.agents :: AgentOk(w, w.agents[a]))
    && OneHolder(w)
    && Balanced(w.db)
  }

  lemma InitInv(spawnLimit: nat)
    ensures Inv(Init, spawnLimit)
  {
    forall key ensures Counter(Init.db, key) == |ChargedTo(Init.db, key)| {
      assert ChargedTo(Init.db, key) == {};
    }
  }

  /** Agent `a` leaves its call's claim (if it had one) while the row of `id`
      changes status: everyone else's part of the invariant survives. */
  lemma RowChangeKeepsInv(w: World, agents: map<nat, Agent>, db: Db, a: nat, id: string, pc: Pc, spawnLimit: nat)
    requires Inv(w, spawnLimit) && a in w.agents && Active(w.agents[a].pc, id) && id in w.db.ops
    requires db.ops.Keys == w.db.ops.Keys && (forall other | other in db.ops && other != id :: db.ops[other] == w.db.ops[other])
    requires db.ops[id].kind == w.db.ops[id].kind && db.ops[id].attempts == w.db.ops[id].attempts
    requires Balanced(db)
    requires agents == w.agents || agents == Witness(w.agents, id)
    requires db.ops[id].kind == Kill && db.ops[id].status == Succeeded ==>
               w.db.ops[id].status == Succeeded || agents == Witness(w.agents, id)
    requires db.ops[id].status == NotStarted ==> Holding(w.agents[a].pc, id)
    requires OpOk(World(db, agents, w.created), id, spawnLimit)
    requires (pc == Recorded(id) && (db.ops[id].kind == Kill && db.ops[id].status == Succeeded ==> agents[a].confirmed))
             || pc == Reconciling(id)
    ensures Inv(MoveWith(World(db, agents, w.created), db, a, pc), spawnLimit)
  {
    var v := MoveWith(World(db, agents, w.created), db, a, pc);
    hide Balanced, OneHolder;
    LeaverKeepsOneHolder(w, v, a);
    forall b | b in v.agents && b != a ensures AgentOk(v, v.agents[b]) {
      assert AgentOk(w, w.agents[b]);
      if Holding(w.agents[a].pc, id) { HolderIsAlone(w, a, b, id); }
      hide AgentOk;
      BystanderStaysOk(w, v, w.agents[a], w.agents[b], v.agents[b], id);
    }
    assert AgentOk(v, v.agents[a]);
    hide AgentOk;
    forall other | other in v.db.ops ensures OpOk(v, other, spawnLimit) {
      assert OpOk(w, other, spawnLimit);
    }
  }

  /** Another call's part of the invariant survives the change of row `id`. */
  lemma BystanderStaysOk(w: World, v: World, mover: Agent, was: Agent, now: Agent, id: string)
    requires AgentOk(w, was) && AgentOk(w, mover) && id in w.db.ops && v.db.ops.Keys == w.db.ops.Keys && v.created == w.created
    requires forall other | other in v.db.ops && other != id :: v.db.ops[other] == w.db.ops[other]
    requires v.db.ops[id].kind == w.db.ops[id].kind && v.db.ops[id].attempts == w.db.ops[id].attempts
    requires now == was || (Active(was.pc, id) && now == was.(confirmed := true))
    requires v.db.ops[id].kind == Kill && v.db.ops[id].status == Succeeded ==>
               w.db.ops[id].status == Succeeded || (Active(was.pc, id) ==> now.confirmed)
    requires v.db.ops[id].status == NotStarted ==> Holding(mover.pc, id)
    requires Holding(mover.pc, id) ==> !Holding(was.pc, id)
    ensures AgentOk(v, now)
  {
  }

  lemma HolderIsAlone(w: World, a: nat, b: nat, id: string)
    requires OneHolder(w) && a in w.agents && b in w.agents && a != b && Holding(w.agents[a].pc, id)
    ensures !Holding(w.agents[b].pc, id)
  {
  }

  /** One agent gives up what it held, the others stay where they are. */
  lemma LeaverKeepsOneHolder(w: World, v: World, a: nat)
    requires OneHolder(w) && a in v.agents && v.agents.Keys == w.agents.Keys
    requires forall b | b in v.agents && b != a :: v.agents[b].pc == w.agents[b].pc
    requires forall other :: !Holding(v.agents[a].pc, other)
    ensures OneHolder(v)
  {
  }

  /** Agent `a` moves on without touching any row. */
  lemma MoveKeepsInv(w: World, a: nat, pc: Pc, spawnLimit: nat)
    requires Inv(w, spawnLimit) && a in w.agents && !pc.Idle? && Active(w.agents[a].pc, pc.id)
    requires AgentOk(w, w.agents[a].(pc := pc))
    requires Holding(pc, pc.id) ==> Holding(w.agents[a].pc, pc.id)
    ensures Inv(Move(w, a, pc), spawnLimit)
  {
    var v := Move(w, a, pc);
    forall b | b in v.agents ensures AgentOk(v, v.agents[b]) {
      if b != a { assert AgentOk(w, w.agents[b]); }
    }
    forall id | id in v.db.ops ensures OpOk(v, id, spawnLimit) { assert OpOk(w, id, spawnLimit); }
    assert v.db == w.db;
  }

  lemma IntendKeepsInv(w: World, act: Action, spawnLimit: nat)
    requires Inv(w, spawnLimit) && spawnLimit >= 1 && act.Intend?
    ensures Inv(Apply(w, act, spawnLimit), spawnLimit)
  {
    var v := Apply(w, act, spawnLimit);
    EnsureKeepsBalance(w.db, act.id, act.kind, act.owner, act.target, act.request);
    forall b | b in v.agents ensures AgentOk(v, v.agents[b]) {
      if b in w.agents { assert AgentOk(w, w.agents[b]); }
    }
    forall id | id in v.db.ops ensures OpOk(v, id, spawnLimit) {
      if id in w.db.ops { assert OpOk(w, id, spawnLimit); }
    }
  }

  lemma ClaimKeepsInv(w: World, a: nat, id: string, spawnLimit: nat)
    requires Inv(w, spawnLimit) && a in w.agents && id in w.db.ops
    requires w.agents[a].pc == Loaded(id, NotStarted)
    ensures Inv(TryClaim(w, a, id, spawnLimit), spawnLimit)
  {
    var limit := Limit(w.db.ops[id].kind, spawnLimit);
    var v := TryClaim(w, a, id, spawnLimit);
    assert AgentOk(w, w.agents[a]);
    if Claimable(w.db, id, limit) {
      ClaimKeepsBalance(w.db, id, limit);
      assert v.db == Claim(w.db, id, limit);
      forall other | other in v.db.ops ensures OpOk(v, other, spawnLimit) { assert OpOk(w, other, spawnLimit); }
      forall b | b in v.agents ensures AgentOk(v, v.agents[b]) {
        if b != a {
          assert AgentOk(w, w.agents[b]);
          if !w.agents[b].pc.Idle? && w.agents[b].pc.id == id {
            assert !Holding(w.agents[b].pc, id);
          }
        }
      }
      forall b | b in w.agents && b != a ensures !Holding(w.agents[b].pc, id) { assert AgentOk(w, w.agents[b]); }
    } else {
      MoveKeepsInv(w, a, Recorded(id), spawnLimit);
    }
  }

  lemma CreateKeepsInv(w: World, a: nat, spawnLimit: nat)
    requires Inv(w, spawnLimit) && a in w.agents && w.agents[a].pc.Armed?
    ensures Inv(Apply(w, Create(a, true), spawnLimit), spawnLimit)
  {
    var id := w.agents[a].pc.id;
    var v := Apply(w, Create(a, true), spawnLimit);
    assert AgentOk(w, w.agents[a]);
    assert v.db == w.db;
    forall b | b in v.agents ensures AgentOk(v, v.agents[b]) {
      if b != a { assert AgentOk(w, w.agents[b]); }
    }
    forall other | other in v.db.ops ensures OpOk(v, other, spawnLimit) { assert OpOk(w, other, spawnLimit); }
    forall other | other in v.created ensures other in v.db.ops { assert other == id || other in w.created; }
  }

  lemma CrashKeepsInv(w: World, gone: set<nat>, spawnLimit: nat)
    requires Inv(w, spawnLimit)
    ensures Inv(Apply(w, Crash(gone), spawnLimit), spawnLimit)
  {
    var v := Apply(w, Crash(gone), spawnLimit);
    forall b | b in v.agents ensures AgentOk(v, v.agents[b]) { assert AgentOk(w, w.agents[b]); }
    forall id | id in v.db.ops ensures OpOk(v, id, spawnLimit) { assert OpOk(w, id, spawnLimit); }
    assert v.db == w.db;
  }

  /** A stop or a recorded action touches no operation and no counter. */
  lemma AsideKeepsInv(w: World, act: Action, spawnLimit: nat)
    requires Inv(w, spawnLimit) && (act.Stop? || act.Mark?)
    ensures Inv(Apply(w, act, spawnLimit), spawnLimit)
  {
    var v := Apply(w, act, spawnLimit);
    forall b | b in v.agents ensures AgentOk(v, v.agents[b]) { assert AgentOk(w, w.agents[b]); }
    forall id | id in v.db.ops ensures OpOk(v, id, spawnLimit) { assert OpOk(w, id, spawnLimit); }
    forall key ensures Counter(v.db, key) == |ChargedTo(v.db, key)| {
      assert ChargedTo(v.db, key) == ChargedTo(w.db, key);
      assert Counter(w.db, key) == |ChargedTo(w.db, key)|;
    }
  }

  lemma UnchargedKeepsBalance(db: Db, id: string, status: Status, fact: string)
    requires id in db.ops && Balanced(db) && status != Succeeded
    ensures Balanced(Observe(db, id, status, fact, None, {}))
  {
    ObserveKeepsBalance(db, id, status, fact, None);
    assert Observe(db, id, status, fact, None, {}) == Observe(db, id, status, fact, None, db.ops[id].request.counters);
  }

  lemma RefusalKeepsInv(w: World, a: nat, spawnLimit: nat)
    requires Inv(w, spawnLimit) && a in w.agents && w.agents[a].pc.Refused?
    ensures w.agents[a].pc.id in w.db.ops && Inv(Refusal(w, a, spawnLimit), spawnLimit)
  {
    assert AgentOk(w, w.agents[a]);
    var Refused(id, attempts) := At(w, a).pc;
    assert OpOk(w, id, spawnLimit);
    var status := if attempts >= Limit(w.db.ops[id].kind, spawnLimit) then Failed else NotStarted;
    UnchargedKeepsBalance(w.db, id, status, "process could not be created");
    var db := Observe(w.db, id, status, "process could not be created", None, {});
    RowChangeKeepsInv(w, w.agents, db, a, id, Recorded(id), spawnLimit);
  }

  lemma AnswerKeepsInv(w: World, a: nat, ack: Ack, spawnLimit: nat)
    requires Inv(w, spawnLimit) && a in w.agents && w.agents[a].pc.Running?
    requires w.agents[a].pc.id in w.db.ops && PossibleAck(w.db.ops[w.agents[a].pc.id].kind, ack)
    ensures Inv(AnswerWith(w, a, ack), spawnLimit)
  {
    assert AgentOk(w, w.agents[a]);
    var id := At(w, a).pc.id;
    assert OpOk(w, id, spawnLimit);
    match ack
    case Accepted(payload) =>
      var keys := w.db.ops[id].request.counters;
      ObserveKeepsBalance(w.db, id, Succeeded, "acknowledged", Some(payload));
      RowChangeKeepsInv(w, w.agents, Observe(w.db, id, Succeeded, "acknowledged", Some(payload), keys), a, id, Recorded(id), spawnLimit);
    case Lost =>
      UnchargedKeepsBalance(w.db, id, InFlight, "acknowledgement lost");
      RowChangeKeepsInv(w, w.agents, Observe(w.db, id, InFlight, "acknowledgement lost", None, {}), a, id, Reconciling(id), spawnLimit);
    case Rejected =>
      UnchargedKeepsBalance(w.db, id, Failed, "rejected");
      RowChangeKeepsInv(w, w.agents, Observe(w.db, id, Failed, "rejected", None, {}), a, id, Recorded(id), spawnLimit);
    case Silent => MoveKeepsInv(w, a, Reconciling(id), spawnLimit);
    case Ambiguous =>
      UnchargedKeepsBalance(w.db, id, Unknown, "write unconfirmed");
      RowChangeKeepsInv(w, w.agents, Observe(w.db, id, Unknown, "write unconfirmed", None, {}), a, id, Recorded(id), spawnLimit);
  }

  lemma RecordFactKeepsInv(w: World, a: nat, payload: Option<Payload>, spawnLimit: nat)
    requires Inv(w, spawnLimit) && a in w.agents && w.agents[a].pc.HasFact?
    ensures w.agents[a].pc.id in w.db.ops && Inv(RecordFactWith(w, a, payload), spawnLimit)
  {
    assert AgentOk(w, w.agents[a]);
    var HasFact(id, fact) := At(w, a).pc;
    assert OpOk(w, id, spawnLimit);
    ObserveKeepsBalance(w.db, id, fact, "reconciled", payload);
    var db := Observe(w.db, id, fact, "reconciled", payload, w.db.ops[id].request.counters);
    var agents := if fact == Succeeded then Witness(w.agents, id) else w.agents;
    RowChangeKeepsInv(w, agents, db, a, id, Recorded(id), spawnLimit);
  }

  lemma ApplyKeepsInv(w: World, act: Action, spawnLimit: nat)
    requires Inv(w, spawnLimit) && spawnLimit >= 1
    ensures Inv(Apply(w, act, spawnLimit), spawnLimit)
  {
    match act
    case Intend(_, _, _, _, _, _) => IntendKeepsInv(w, act, spawnLimit);
    case Crash(gone) => CrashKeepsInv(w, gone, spawnLimit);
    case Stop(_) => AsideKeepsInv(w, act, spawnLimit);
    case Mark(_, _) => AsideKeepsInv(w, act, spawnLimit);
    case _ => CallKeepsInv(w, act, spawnLimit);
  }

  lemma ProceedKeepsInv(w: World, a: nat, terminated: bool, spawnLimit: nat)
    requires Inv(w, spawnLimit) && a in w.agents && w.agents[a].pc.Loaded?
    ensures w.agents[a].pc.id in w.db.ops && Inv(ProceedWith(w, a, terminated, spawnLimit), spawnLimit)
  {
    assert AgentOk(w, w.agents[a]);
    var Loaded(id, snapshot) := w.agents[a].pc;
    if snapshot == NotStarted && !(w.db.ops[id].kind == Kill && terminated) {
      ClaimKeepsInv(w, a, id, spawnLimit);
    } else if w.db.ops[id].kind != Kill && !Unresolved(snapshot) {
      MoveKeepsInv(w, a, Returned(id, snapshot), spawnLimit);
    } else {
      MoveKeepsInv(w, a, Reconciling(id), spawnLimit);
    }
  }

  lemma CallKeepsInv(w: World, act: Action, spawnLimit: nat)
    requires Inv(w, spawnLimit) && spawnLimit >= 1
    requires !act.Intend? && !act.Crash? && !act.Stop? && !act.Mark?
    ensures Inv(Apply(w, act, spawnLimit), spawnLimit)
  {
    var a := act.a;
    if a !in w.agents || w.agents[a].pc.Idle? { return; }
    var pc := w.agents[a].pc;
    assert AgentOk(w, w.agents[a]);
    match act
    case Proceed(_, terminated) =>
      if pc.Loaded? { ProceedKeepsInv(w, a, terminated, spawnLimit); }
    case Reload(_) =>
      if pc.ClaimWon? { MoveKeepsInv(w, a, Armed(pc.id, w.db.ops[pc.id].attempts), spawnLimit); }
    case Create(_, possible) =>
      if pc.Armed? {
        if possible { CreateKeepsInv(w, a, spawnLimit); } else { MoveKeepsInv(w, a, Refused(pc.id, pc.attempts), spawnLimit); }
      }
    case ReportRefusal(_) =>
      if pc.Refused? { RefusalKeepsInv(w, a, spawnLimit); }
    case Answer(_, ack) =>
      if pc.Running? && PossibleAck(w.db.ops[pc.id].kind, ack) { AnswerKeepsInv(w, a, ack, spawnLimit); }
    case Read(_, fact) =>
      if pc.Reconciling? && ReadableFact(w.db.ops[pc.id].kind, fact) { MoveKeepsInv(w, a, HasFact(pc.id, fact), spawnLimit); }
    case RecordFact(_, payload) =>
      if pc.HasFact? { RecordFactKeepsInv(w, a, payload, spawnLimit); }
    case Reread(_) =>
      if pc.Recorded? { MoveKeepsInv(w, a, Returned(pc.id, w.db.ops[pc.id].status), spawnLimit); }
    case Leave(_) =>
      if pc.Returned? { LeaveKeepsInv(w, a, spawnLimit); }
  }

  lemma LeaveKeepsInv(w: World, a: nat, spawnLimit: nat)
    requires Inv(w, spawnLimit) && a in w.agents
    ensures Inv(Move(w, a, Idle), spawnLimit)
  {
    var v := Move(w, a, Idle);
    assert v.db == w.db;
    forall b | b in v.agents ensures AgentOk(v, v.agents[b]) {
      if b != a { assert AgentOk(w, w.agents[b]); }
    }
    forall id | id in v.db.ops ensures OpOk(v, id, spawnLimit) { assert OpOk(w, id, spawnLimit); }
  }

  lemma {:induction false} RunKeepsInv(w: World, acts: seq<Action>, spawnLimit: nat)
    requires Inv(w, spawnLimit) && spawnLimit >= 1
    ensures Inv(Run(w, acts, spawnLimit), spawnLimit)
    decreases |acts|
  {
    if acts != [] {
      ApplyKeepsInv(w, acts[0], spawnLimit);
      RunKeepsInv(Apply(w, acts[0], spawnLimit), acts[1..], spawnLimit);
    }
  }

  // ----------------------------------------------------------- main theorems

  /** Whatever the interleaving, the lost replies, the retries and the crashes:
      no operation has two processes, none exceeds its attempts, and one whose
      process exists never becomes dispatchable again. */
  lemma AtMostOnceDispatch(acts: seq<Action>, spawnLimit: nat, id: string)
    requires spawnLimit >= 1
    ensures var w := Run(Init, acts, spawnLimit);
            && w.created[id] <= 1
            && (w.created[id] == 1 ==> id in w.db.ops && w.db.ops[id].status != NotStarted)
            && (id in w.db.ops ==> w.db.ops[id].attempts <= Limit(w.db.ops[id].kind, spawnLimit))
  {
    InitInv(spawnLimit);
    RunKeepsInv(Init, acts, spawnLimit);
    var w := Run(Init, acts, spawnLimit);
    if id in w.db.ops { assert OpOk(w, id, spawnLimit); }
  }

  ghost predicate Reopens(w: World, act: Action, spawnLimit: nat, id: string) {
    && id in w.db.ops && w.db.ops[id].status != NotStarted
    && id in Apply(w, act, spawnLimit).db.ops && Apply(w, act, spawnLimit).db.ops[id].status == NotStarted
  }

  /** Only the agent whose own process creation failed reopens an intent, and
      then nothing was ever created for it. */
  lemma OnlyProvenRefusalReopens(w: World, act: Action, spawnLimit: nat, id: string)
    requires Inv(w, spawnLimit) && spawnLimit >= 1
    ensures Reopens(w, act, spawnLimit, id) ==>
              act.ReportRefusal? && At(w, act.a).pc.Refused? && At(w, act.a).pc.id == id
    ensures Reopens(w, act, spawnLimit, id) ==>
              w.created[id] == 0 && w.db.ops[id].attempts < Limit(w.db.ops[id].kind, spawnLimit)
  {
    if !Reopens(w, act, spawnLimit, id) { return; }
    ActionCommits(w, act, spawnLimit);
    CommitRow(w.db, TxOf(w, act, spawnLimit), id);
    NoteOf(w, act, spawnLimit);
  }

  /** NOT_STARTED is written only to report a refusal. */
  lemma NoteOf(w: World, act: Action, spawnLimit: nat)
    requires Inv(w, spawnLimit)
    requires var tx := TxOf(w, act, spawnLimit); tx.Note? && tx.status == NotStarted
    ensures act.ReportRefusal? && At(w, act.a).pc.Refused?
    ensures var id := At(w, act.a).pc.id;
            && id in w.db.ops && TxOf(w, act, spawnLimit).id == id && w.created[id] == 0
            && w.db.ops[id].attempts < Limit(w.db.ops[id].kind, spawnLimit)
  {
    if !act.Crash? && !act.Stop? && !act.Mark? && act.a in w.agents { assert AgentOk(w, w.agents[act.a]); }
  }

  /** A process comes into being only in the hands of the agent whose claim
      moved the row from NOT_STARTED, never from a row found IN_FLIGHT or UNKNOWN. */
  lemma CreationNeedsOwnClaim(w: World, act: Action, spawnLimit: nat, id: string)
    requires Inv(w, spawnLimit)
    requires Apply(w, act, spawnLimit).created[id] != w.created[id]
    ensures act.Create? && act.possible && At(w, act.a).pc.Armed? && At(w, act.a).pc.id == id
    ensures w.created[id] == 0
    ensures forall b | b in w.agents && b != act.a :: !Holding(w.agents[b].pc, id)
  {
    var a := act.a;
    assert AgentOk(w, w.agents[a]);
    assert Holding(w.agents[a].pc, id);
  }

  /** An acknowledged spawn or send is final in every continuation, so it is
      charged once and its result is never replaced. */
  lemma {:induction false} SuccessIsFinal(w: World, acts: seq<Action>, spawnLimit: nat, id: string)
    requires Inv(w, spawnLimit) && spawnLimit >= 1
    requires id in w.db.ops && Settled(w.db.ops[id])
    ensures var v := Run(w, acts, spawnLimit); id in v.db.ops && v.db.ops[id] == w.db.ops[id]
    decreases |acts|
  {
    if acts != [] {
      var v := Apply(w, acts[0], spawnLimit);
      ApplyKeepsInv(w, acts[0], spawnLimit);
      ActionCommits(w, acts[0], spawnLimit);
      CommitRow(w.db, TxOf(w, acts[0], spawnLimit), id);
      SuccessIsFinal(v, acts[1..], spawnLimit, id);
    }
  }

  /** Every success counter equals the number of operations charged to it, in
      every state of every run. */
  lemma ChargesAreConserved(acts: seq<Action>, spawnLimit: nat, key: string)
    requires spawnLimit >= 1
    ensures var db := Run(Init, acts, spawnLimit).db; Counter(db, key) == |ChargedTo(db, key)|
    ensures var db := Run(Init, acts, spawnLimit).db;
            ChargedTo(db, key) == set id | id in db.ops && db.ops[id].status == Succeeded && key in db.ops[id].request.counters
  {
    InitInv(spawnLimit);
    RunKeepsInv(Init, acts, spawnLimit);
    var w := Run(Init, acts, spawnLimit);
    forall id | id in w.db.ops && key in w.db.ops[id].request.counters
      ensures w.db.ops[id].charged <==> w.db.ops[id].status == Succeeded
    {
      assert OpOk(w, id, spawnLimit);
    }
  }

  // ------------------------------------------------------- stopping a mission

  ghost predicate NobodyHoldsFor(w: World, mission: string) {
    forall a | a in w.agents && !w.agents[a].pc.Idle? && w.agents[a].pc.id in w.db.ops ::
      Holding(w.agents[a].pc, w.agents[a].pc.id) && w.db.ops[w.agents[a].pc.id].owner == mission
      ==> w.db.ops[w.agents[a].pc.id].kind == Kill
  }

  /** Once a stop is durable and no claim of the mission is in hand, no spawn or
      send of that mission is ever dispatched again: only kills are. */
  lemma {:induction false} NoDispatchAfterStop(w: World, acts: seq<Action>, spawnLimit: nat, mission: string,
                                               id: string)
    requires Inv(w, spawnLimit) && spawnLimit >= 1 && StoppedFor(w, mission)
    ensures var v := Run(w, acts, spawnLimit);
            id in v.db.ops && v.db.ops[id].owner == mission && v.db.ops[id].kind != Kill ==> v.created[id] == w.created[id]
    decreases |acts|, 0
  {
    if acts != [] {
      var v := Apply(w, acts[0], spawnLimit);
      ApplyFollows(w, acts[0], spawnLimit);
      ApplyKeepsInv(w, acts[0], spawnLimit);
      NoDispatchStep(w, TxOf(w, acts[0], spawnLimit), v, acts[1..], spawnLimit, mission, id);
    }
  }

  lemma {:induction false} NoDispatchStep(w: World, tx: Tx, v: World, acts: seq<Action>, spawnLimit: nat,
                                          mission: string, id: string)
    requires Inv(w, spawnLimit) && Inv(v, spawnLimit) && spawnLimit >= 1 && StoppedFor(w, mission) && Follows(w, tx, v)
    ensures var u := Run(v, acts, spawnLimit);
            id in u.db.ops && u.db.ops[id].owner == mission && u.db.ops[id].kind != Kill ==> u.created[id] == w.created[id]
    decreases |acts|, 1
  {
    StoppedStep(w, tx, v, spawnLimit, mission);
    NoDispatchAfterStop(v, acts, spawnLimit, mission, id);
    if id in w.db.ops {
      CommitRow(w.db, tx, id);
      IdentityIsFixed(v, acts, spawnLimit, id);
    } else {
      assert w.created[id] == 0 && v.created[id] == 0 by {
        forall a | a in w.agents ensures AgentOk(w, w.agents[a]) {}
      }
    }
  }

  predicate HeldOrWon(w: World, tx: Tx, b: nat, id: string) {
    Holding(At(w, b).pc, id)
    || (tx.Take? && tx.id == id && id in w.db.ops && Claimable(w.db, id, tx.limit))
  }

  /** A claim in hand was there before, or has just been won. */
  lemma HoldingStep(w: World, act: Action, spawnLimit: nat, b: nat, id: string)
    requires Holding(At(Apply(w, act, spawnLimit), b).pc, id)
    ensures HeldOrWon(w, TxOf(w, act, spawnLimit), b, id)
  {
  }

  lemma CreatedStep(w: World, act: Action, spawnLimit: nat)
    ensures Apply(w, act, spawnLimit).created == w.created
            || (act.Create? && At(w, act.a).pc.Armed?
                && Apply(w, act, spawnLimit).created == w.created + multiset{At(w, act.a).pc.id})
  {
  }

  /** `v` follows `w` by transaction `tx`; every claim in hand is old or just won. */
  ghost predicate Follows(w: World, tx: Tx, v: World) {
    && v.db == Commit(w.db, tx)
    && (forall b, id :: Holding(At(v, b).pc, id) ==> HeldOrWon(w, tx, b, id))
    && (v.created == w.created
        || exists a :: a in w.agents && w.agents[a].pc.Armed? && v.created == w.created + multiset{w.agents[a].pc.id})
  }

  lemma ApplyFollows(w: World, act: Action, spawnLimit: nat)
    ensures Follows(w, TxOf(w, act, spawnLimit), Apply(w, act, spawnLimit))
  {
    ActionCommits(w, act, spawnLimit);
    forall b, id | Holding(At(Apply(w, act, spawnLimit), b).pc, id)
      ensures HeldOrWon(w, TxOf(w, act, spawnLimit), b, id)
    {
      HoldingStep(w, act, spawnLimit, b, id);
    }
    CreatedStep(w, act, spawnLimit);
  }

  ghost predicate StoppedFor(w: World, mission: string) {
    && mission in w.db.missions && w.db.missions[mission].stopRequested
    && NobodyHoldsFor(w, mission)
  }

  lemma StoppedStep(w: World, tx: Tx, v: World, spawnLimit: nat, mission: string)
    requires Inv(w, spawnLimit) && StoppedFor(w, mission) && Follows(w, tx, v)
    ensures StoppedFor(v, mission)
    ensures forall id | id in w.db.ops && w.db.ops[id].owner == mission && w.db.ops[id].kind != Kill :: v.created[id] == w.created[id]
  {
    forall b | b in v.agents && !v.agents[b].pc.Idle? && v.agents[b].pc.id in v.db.ops
      ensures Holding(v.agents[b].pc, v.agents[b].pc.id) && v.db.ops[v.agents[b].pc.id].owner == mission
              ==> v.db.ops[v.agents[b].pc.id].kind == Kill
    {
      var id := v.agents[b].pc.id;
      if Holding(v.agents[b].pc, id) {
        assert At(v, b) == v.agents[b] && HeldOrWon(w, tx, b, id);
        if Holding(At(w, b).pc, id) { assert AgentOk(w, w.agents[b]); }
        CommitRow(w.db, tx, id);
      }
    }
    forall a | a in w.agents ensures AgentOk(w, w.agents[a]) {}
    forall a | a in w.agents && w.agents[a].pc.Armed?
      ensures w.agents[a].pc.id in w.db.ops && (w.db.ops[w.agents[a].pc.id].owner == mission ==> w.db.ops[w.agents[a].pc.id].kind == Kill)
    {
      assert AgentOk(w, w.agents[a]);
    }
  }

  lemma {:induction false} IdentityIsFixed(w: World, acts: seq<Action>, spawnLimit: nat, id: string)
    requires id in w.db.ops
    ensures var v := Run(w, acts, spawnLimit);
            && id in v.db.ops
            && v.db.ops[id].kind == w.db.ops[id].kind && v.db.ops[id].owner == w.db.ops[id].owner
            && v.db.ops[id].target == w.db.ops[id].target && v.db.ops[id].request == w.db.ops[id].request
    decreases |acts|
  {
    if acts != [] {
      ActionCommits(w, acts[0], spawnLimit);
      CommitRow(w.db, TxOf(w, acts[0], spawnLimit), id);
      IdentityIsFixed(Apply(w, acts[0], spawnLimit), acts[1..], spawnLimit, id);
    }
  }
}
