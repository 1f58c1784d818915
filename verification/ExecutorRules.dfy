/** The program that carries a planner action out: one durable intent per
    spawn, send and kill, replay of finished actions, and the budget guards.
    Replies of the peer are parameters; everything else is decided here. */
module ExecutorRules {
  import opened OperationStore
  import opened Contracts
  import DP = DispatchProtocol

  // ------------------------------------------------------------- the peer

  /** How the invocation ended.  `Finished` is a CLI exit, `Acked` and
      `Rejected` are protocol replies of the local backend. */
  datatype Reply =
    | NotCreated
    | Raised
    | Rejected
    | Finished(code: int, session: Option<string>)
    | Acked(payload: Payload)

  datatype Session = Session(
    id: string, displayName: string, project: string, harness: string,
    kind: string, mode: string, terminated: bool, status: string)

  /** What a read-only reconciliation sees; None is a read that raised. */
  datatype Reads =
    | AoReads(listed: Option<seq<Session>>, session: Option<Session>)
    | BackendFact(success: Option<Payload>)

  /** `stopped`: the session already shows as terminated before any kill. */
  datatype Peer = Peer(stopped: bool, reply: Reply, seen: Reads)

  /** `sourceOk`, `workspaceOk`, `promptOk`: the checks around a spawn pass. */
  datatype Answers = Answers(kill: Peer, work: Peer, sourceOk: bool, workspaceOk: bool, promptOk: bool, marker: string)

  datatype Backend = Ao | Codex

  datatype Call = Invoke(id: string, created: bool) | ReadPeer(id: string, success: bool)

  datatype Fact = Fact(status: Status, payload: Option<Payload>)

  predicate IdChar(c: char) { 'A' <= c <= 'Z' || 'a' <= c <= 'z' || '0' <= c <= '9' }

  predicate ValidSessionId(s: string) {
    && 1 <= |s| <= 128
    && IdChar(s[0])
    && forall i | 1 <= i < |s| :: IdChar(s[i]) || s[i] == '_' || s[i] == '-'
  }

  function Matching(sessions: seq<Session>, marker: string): seq<Session> {
    if sessions == [] then []
    else (if sessions[0].displayName == marker then [sessions[0]] else []) + Matching(sessions[1..], marker)
  }

  /** Reads alone never produce NOT_STARTED or FAILED for these operations. */
  function FactOf(op: Operation, seen: Reads): (fact: Fact)
    ensures fact.status == Succeeded || fact.status == Unknown
    ensures op.kind == Send && seen.AoReads? ==> fact.status == Unknown
    ensures op.kind == Kill && seen.AoReads? && fact.status == Succeeded ==>
              seen.session.Some? && seen.session.value.terminated
  {
    if seen.BackendFact? then
      if seen.success.Some? then Fact(Succeeded, Some(seen.success.value)) else Fact(Unknown, None)
    else if op.kind == Spawn then
      if seen.listed.None? then Fact(Unknown, None) else
      var found := Matching(seen.listed.value, op.request.marker);
      if |found| != 1 || !ValidSessionId(found[0].id) || seen.session.None? then Fact(Unknown, None) else
      var s := seen.session.value;
      if s.project == op.target && s.displayName == op.request.marker
         && s.harness == op.request.harness && s.kind == "worker" && s.mode == "chat"
      then Fact(Succeeded, Some(Payload(Some(found[0].id), None))) else Fact(Unknown, None)
    else if op.kind == Kill then
      if seen.session.Some? && seen.session.value.terminated && seen.session.value.status == "terminated"
      then Fact(Succeeded, Some(Payload(Some(op.target), None))) else Fact(Unknown, None)
    else Fact(Unknown, None)
  }

  // ------------------------------------------------------ one external effect

  /** A raise is ExternalOperationUnknown or any other exception: the caller of
      `Execute` treats them alike. */
  datatype Outcome = Row(op: Operation) | Raise

  datatype Effected = Effected(db: Db, calls: seq<Call>, outcome: Outcome)

  function ReconcileSpec(db: Db, id: string, seen: Reads): Effected
    requires id in db.ops
  {
    var fact := FactOf(db.ops[id], seen);
    var after := Observe(db, id, fact.status, "reconciled", fact.payload, db.ops[id].request.counters);
    Effected(after, [ReadPeer(id, fact.status == Succeeded)], Row(after.ops[id]))
  }

  /** Record an unknown ending as IN_FLIGHT, then only read. */
  function LostSpec(db: Db, id: string, seen: Reads): Effected
    requires id in db.ops
  {
    ReconcileSpec(Observe(db, id, InFlight, "acknowledgement lost", None, {}), id, seen)
  }

  /** What the reply to a created process is taken for. */
  function AckOf(op: Operation, reply: Reply): DP.Ack {
    match reply
    case Finished(code, session) =>
      if op.kind == Kill || code != 0 then DP.Lost
      else if op.kind == Send then DP.Accepted(op.payload)
      else if session.Some? then DP.Accepted(Payload(session, None))
      else DP.Lost
    case Acked(payload) => if op.kind == Kill then DP.Silent else DP.Accepted(payload)
    case Rejected => if op.kind == Kill then DP.Silent else DP.Rejected
    case _ => DP.Lost
  }

  /** After the claim: the process exists unless the reply says NotCreated. */
  function InvokeSpec(db: Db, id: string, limit: nat, reply: Reply, seen: Reads): Effected
    requires id in db.ops
  {
    var op := db.ops[id];
    if reply.NotCreated? then
      var status := if op.attempts >= limit then Failed else NotStarted;
      var after := Observe(db, id, status, "process could not be created", None, {});
      Effected(after, [Invoke(id, false)], Row(after.ops[id]))
    else
      match AckOf(op, reply)
      case Accepted(payload) =>
        var after := Observe(db, id, Succeeded, "acknowledged", Some(payload), op.request.counters);
        Effected(after, [Invoke(id, true)], Row(after.ops[id]))
      case Rejected =>
        var after := Observe(db, id, Failed, "rejected", None, {});
        Effected(after, [Invoke(id, true)], Row(after.ops[id]))
      case Silent =>
        var read := ReconcileSpec(db, id, seen);
        read.(calls := [Invoke(id, true)] + read.calls)
      case _ =>
        var read := LostSpec(db, id, seen);
        read.(calls := [Invoke(id, true)] + read.calls)
  }

  function EffectSpec(db: Db, id: string, limit: nat, reply: Reply, seen: Reads): Effected
    requires id in db.ops
  {
    var op := db.ops[id];
    if op.status == Succeeded || op.status == Failed then Effected(db, [], Row(op))
    else if Unresolved(op.status) then ReconcileSpec(db, id, seen)
    else if !Claimable(db, id, limit) then Effected(db, [], Raise)
    else InvokeSpec(Claim(db, id, limit), id, limit, reply, seen)
  }

  // ------------------------------------------------------------------ kill

  function KillId(session: string): string { "kill:" + session }
  function SendId(action: string): string { "send-action:" + action }
  function ReplanId(action: string): string { "spawn-replan:" + action }

  const NoRequest := Request({}, "", "", "")

  /** One stop intent per session; success needs a termination read now. */
  function KillSpec(db: Db, session: string, owner: string, peer: Peer): Effected {
    var id := KillId(session);
    var holder := if id in db.ops then db.ops[id].owner else owner;
    var intent := Ensure(db, id, Kill, holder, session, NoRequest);
    if !SameIntent(intent.ops[id], Kill, holder, session, NoRequest) then Effected(intent, [], Raise)
    else if intent.ops[id].status != NotStarted || peer.stopped then ReconcileSpec(intent, id, peer.seen)
    else EffectSpec(intent, id, 3, peer.reply, peer.seen)
  }

  predicate KillConfirmed(e: Effected) { e.outcome.Row? && e.outcome.op.status == Succeeded }

  // ----------------------------------------------------------------- spawn

  /** `worker`: the session id, or None when nothing was spawned. */
  datatype Spawned = Spawned(db: Db, calls: seq<Call>, raised: bool, worker: Option<string>)

  datatype Task = Task(
    id: string, project: string, harness: string, owner: string,
    parent: Option<string>, worker: string,
    maxLocalFixes: nat, maxReplans: nat, missionReplanLimit: nat, prompt: string)

  datatype PlannerAction = PlannerAction(id: string, kind: ActionKind, target: string, message: string, shellish: bool)

  datatype ActionResult = ActionResult(ok: bool, newState: Option<ProjectState>, worker: Option<string>)

  function LocalFixKey(task: Task): string { "local_fixes:" + task.id }
  function ReplanKey(task: Task): string { "replans:" + task.id }

  /** The mission-wide key exists only under a parent with a positive limit. */
  function ReplanKeys(task: Task): set<string> {
    {ReplanKey(task)} +
    (if task.parent.Some? && task.missionReplanLimit > 0 then {"mission_replans:" + task.parent.value} else {})
  }

  function SpawnRequest(task: Task, marker: string): Request {
    Request(ReplanKeys(task), task.prompt, task.harness, marker)
  }

  function SpawnSpec(db: Db, id: string, task: Task, limit: nat, answers: Answers): Spawned {
    var request := SpawnRequest(task, answers.marker);
    var intent := Ensure(db, id, Spawn, task.owner, task.project, request);
    if !SameIntent(intent.ops[id], Spawn, task.owner, task.project, request) then Spawned(intent, [], true, None)
    else if intent.ops[id].status == NotStarted && !answers.sourceOk then Spawned(intent, [], true, None)
    else
      var e := EffectSpec(intent, id, limit, answers.work.reply, answers.work.seen);
      if e.outcome.Raise? || Unresolved(e.outcome.op.status) then Spawned(e.db, e.calls, true, None)
      else if e.outcome.op.status == Succeeded then
        if !answers.workspaceOk || e.outcome.op.payload.session.None? then Spawned(e.db, e.calls, true, None)
        else Spawned(e.db, e.calls, false, e.outcome.op.payload.session)
      else Spawned(e.db, e.calls, false, None)
  }

  // --------------------------------------------------------------- the actions

  /** `recorded`: the result is kept for replay; `raised`: execution was cut
      short and the caller hands the task to a human without recording. */
  datatype Performed = Performed(db: Db, calls: seq<Call>, raised: bool, result: ActionResult)

  const Interrupted := ActionResult(false, Some(HUMAN), None)

  function Refuse(db: Db): Performed { Performed(db, [], false, ActionResult(false, Some(HUMAN), None)) }

  function SendLocalFixSpec(db: Db, action: PlannerAction, task: Task, peer: Peer): Performed {
    var id := SendId(action.id);
    if id !in db.ops && Counter(db, LocalFixKey(task)) >= task.maxLocalFixes then Refuse(db)
    else if action.target == "" || action.shellish then Refuse(db)
    else
      var request := Request({LocalFixKey(task)}, action.message, "", "");
      var intent := Ensure(db, id, Send, task.owner, action.target, request);
      if !SameIntent(intent.ops[id], Send, task.owner, action.target, request)
      then Performed(intent, [], true, Interrupted)
      else
        var e := EffectSpec(intent, id, 3, peer.reply, peer.seen);
        if e.outcome.Raise? then Performed(e.db, e.calls, true, Interrupted)
        else if e.outcome.op.status == NotStarted then Performed(e.db, e.calls, false, ActionResult(false, None, None))
        else if Unresolved(e.outcome.op.status) then Performed(e.db, e.calls, true, Interrupted)
        else
          var ok := e.outcome.op.status == Succeeded;
          Performed(e.db, e.calls, false, ActionResult(ok, Some(if ok then WORKER_RETRYING else HUMAN), None))
  }

  function OldWorker(action: PlannerAction, task: Task): string {
    if action.target != "" then action.target else task.worker
  }

  predicate ReplanRefused(db: Db, action: PlannerAction, task: Task) {
    && ReplanId(action.id) !in db.ops
    && (Counter(db, ReplanKey(task)) >= task.maxReplans
        || (task.parent.Some? && task.missionReplanLimit > 0
            && Counter(db, "mission_replans:" + task.parent.value) >= task.missionReplanLimit))
  }

  /** What the replacement spawn comes to. */
  function ReplacedSpec(db: Db, action: PlannerAction, task: Task, limit: nat, answers: Answers): Performed {
    var id := ReplanId(action.id);
    var s := SpawnSpec(db, id, task, limit, answers);
    if s.raised then Performed(s.db, s.calls, true, Interrupted)
    else if s.worker.None? && id in s.db.ops && s.db.ops[id].status == NotStarted
    then Performed(s.db, s.calls, false, ActionResult(false, None, None))
    else
      Performed(s.db, s.calls, false,
        ActionResult(s.worker.Some?, Some(if s.worker.Some? then WORKER_RUNNING else HUMAN), s.worker))
  }

  /** Re-route, not fork: the old worker, if there is one, is stopped first. */
  function RerouteSpec(db: Db, action: PlannerAction, task: Task, limit: nat, answers: Answers): Performed {
    var session := OldWorker(action, task);
    if session == "" then ReplacedSpec(db, action, task, limit, answers) else
    var killed := KillSpec(db, session, task.owner, answers.kill);
    if !KillConfirmed(killed) then Performed(killed.db, killed.calls, true, Interrupted)
    else
      var p := ReplacedSpec(killed.db, action, task, limit, answers);
      p.(calls := killed.calls + p.calls)
  }

  function ReplanSpec(db: Db, action: PlannerAction, task: Task, limit: nat, answers: Answers): Performed {
    if ReplanRefused(db, action, task) then Refuse(db)
    else if !answers.promptOk then Performed(db, [], true, Interrupted)
    else RerouteSpec(db, action, task, limit, answers)
  }

  /** The state a finished action leads to when it is executed again. */
  function ResumeState(kind: ActionKind, ok: bool): ProjectState {
    match kind
    case CONTINUE => WORKER_RUNNING
    case SEND_LOCAL_FIX => if ok then WORKER_RETRYING else HUMAN
    case REPLAN_SPAWN => if ok then WORKER_RUNNING else HUMAN
    case CANDIDATE_DONE => GATE_PENDING
    case ASK_HUMAN => HUMAN
  }

  function FirstSpec(db: Db, action: PlannerAction, task: Task, limit: nat, answers: Answers): Performed {
    match action.kind
    case CONTINUE => Performed(db, [], false, ActionResult(true, Some(WORKER_RUNNING), None))
    case SEND_LOCAL_FIX => SendLocalFixSpec(db, action, task, answers.work)
    case REPLAN_SPAWN => ReplanSpec(db, action, task, limit, answers)
    case CANDIDATE_DONE => Performed(db, [], false, ActionResult(true, Some(GATE_PENDING), None))
    case ASK_HUMAN => Performed(db, [], false, ActionResult(true, Some(HUMAN), None))
  }

  /** A proven non-start is the only unraised outcome that is not recorded. */
  predicate Records(p: Performed) { !p.raised && (p.result.ok || p.result.newState.Some?) }

  function ExecuteSpec(db: Db, action: PlannerAction, task: Task, limit: nat, answers: Answers): Performed {
    if action.id in db.executed then
      var was := db.executed[action.id];
      Performed(db, [], false, ActionResult(was.ok, Some(ResumeState(action.kind, was.ok)), was.worker))
    else
      var p := FirstSpec(db, action, task, limit, answers);
      if Records(p) then p.(db := MarkExecuted(p.db, action.id, Executed(p.result.ok, p.result.worker))) else p
  }

  // --------------------------------------------------- shape of the effects

  predicate About(calls: seq<Call>, id: string) { forall c | c in calls :: c.id == id }

  predicate EndsInSuccessRead(calls: seq<Call>, id: string) {
    calls != [] && calls[|calls| - 1] == ReadPeer(id, true)
  }

  predicate OwnRow(e: Effected, id: string, kind: Kind) {
    && id in e.db.ops && e.db.ops[id].kind == kind
    && (e.outcome.Row? ==> e.outcome.op == e.db.ops[id])
  }

  lemma ReconcileShape(db: Db, id: string, seen: Reads)
    requires id in db.ops
    ensures var e := ReconcileSpec(db, id, seen);
            && e.db.executed == db.executed && e.db.missions == db.missions && About(e.calls, id)
            && (db.ops[id].kind == Kill && KillConfirmed(e) ==> EndsInSuccessRead(e.calls, id))
            && OwnRow(e, id, db.ops[id].kind)
  {
    hide FactOf;
  }

  lemma InvokeShape(db: Db, id: string, limit: nat, reply: Reply, seen: Reads)
    requires id in db.ops && db.ops[id].status == InFlight
    ensures var e := InvokeSpec(db, id, limit, reply, seen);
            && e.db.executed == db.executed && e.db.missions == db.missions && About(e.calls, id)
            && (db.ops[id].kind == Kill && KillConfirmed(e) ==> EndsInSuccessRead(e.calls, id))
            && OwnRow(e, id, db.ops[id].kind)
  {
    hide ReconcileSpec, FactOf, Observe, LostSpec;
    var op := db.ops[id];
    if reply.NotCreated? {
      ObserveFrame(db, id, if op.attempts >= limit then Failed else NotStarted, "process could not be created", None, {});
    } else {
      match AckOf(op, reply)
      case Accepted(payload) => ObserveFrame(db, id, Succeeded, "acknowledged", Some(payload), op.request.counters);
      case Rejected => ObserveFrame(db, id, Failed, "rejected", None, {});
      case Silent => ReconcileShape(db, id, seen);
      case _ => LostShape(db, id, seen);
    }
  }

  lemma LostShape(db: Db, id: string, seen: Reads)
    requires id in db.ops
    ensures var e := LostSpec(db, id, seen);
            && e.db.executed == db.executed && e.db.missions == db.missions && About(e.calls, id)
            && (db.ops[id].kind == Kill && KillConfirmed(e) ==> EndsInSuccessRead(e.calls, id))
            && OwnRow(e, id, db.ops[id].kind)
  {
    hide ReconcileSpec, Observe;
    ObserveFrame(db, id, InFlight, "acknowledgement lost", None, {});
    ReconcileShape(Observe(db, id, InFlight, "acknowledgement lost", None, {}), id, seen);
  }

  /** An effect stays with its own operation, and a stop it reports as done was
      read from the peer as its last call. */
  lemma EffectShape(db: Db, id: string, limit: nat, reply: Reply, seen: Reads)
    requires id in db.ops
    ensures var e := EffectSpec(db, id, limit, reply, seen);
            && e.db.executed == db.executed && e.db.missions == db.missions && About(e.calls, id)
            && (db.ops[id].kind == Kill && db.ops[id].status == NotStarted && KillConfirmed(e) ==> EndsInSuccessRead(e.calls, id))
            && OwnRow(e, id, db.ops[id].kind)
  {
    hide InvokeSpec, ReconcileSpec;
    ReconcileShape(db, id, seen);
    if db.ops[id].status == NotStarted && Claimable(db, id, limit) {
      InvokeShape(Claim(db, id, limit), id, limit, reply, seen);
    }
  }

  lemma KillShape(db: Db, session: string, owner: string, peer: Peer)
    ensures var e := KillSpec(db, session, owner, peer);
            && e.db.executed == db.executed && About(e.calls, KillId(session))
            && (KillConfirmed(e) ==> EndsInSuccessRead(e.calls, KillId(session)))
  {
    hide EffectSpec, ReconcileSpec;
    var id := KillId(session);
    var holder := if id in db.ops then db.ops[id].owner else owner;
    ReconcileShape(Ensure(db, id, Kill, holder, session, NoRequest), id, peer.seen);
    EffectShape(Ensure(db, id, Kill, holder, session, NoRequest), id, 3, peer.reply, peer.seen);
  }

  lemma SpawnShape(db: Db, id: string, task: Task, limit: nat, answers: Answers)
    ensures var s := SpawnSpec(db, id, task, limit, answers);
            && s.db.executed == db.executed && About(s.calls, id)
            && id in s.db.ops
            && (!s.raised ==> s.db.ops[id].kind == Spawn)
  {
    hide EffectSpec;
    var intent := Ensure(db, id, Spawn, task.owner, task.project, SpawnRequest(task, answers.marker));
    EffectShape(intent, id, limit, answers.work.reply, answers.work.seen);
  }

  /** A local fix is refused, conflicts with its stored intent, or is one effect. */
  lemma SendParts(db: Db, action: PlannerAction, task: Task, peer: Peer)
    ensures var p := SendLocalFixSpec(db, action, task, peer);
            var request := Request({LocalFixKey(task)}, action.message, "", "");
            var id := SendId(action.id);
            var intent := Ensure(db, id, Send, task.owner, action.target, request);
            var e := EffectSpec(intent, id, 3, peer.reply, peer.seen);
            || (p.db == db && p.calls == [] && p.result.newState.Some?)
            || ( && SameIntent(intent.ops[id], Send, task.owner, action.target, request)
                 && (id !in db.ops ==> Counter(db, LocalFixKey(task)) < task.maxLocalFixes)
                 && p.db == e.db && p.calls == e.calls
                 && (!p.raised && p.result.newState.None? ==> e.outcome.Row? && e.outcome.op.status == NotStarted))
  {
  }

  /** A replan is refused, stops at the old worker, or is a kill and a spawn. */
  lemma ReplanParts(db: Db, action: PlannerAction, task: Task, limit: nat, answers: Answers)
    ensures var p := ReplanSpec(db, action, task, limit, answers);
            var session := OldWorker(action, task);
            var killed := if session == "" then Effected(db, [], Raise) else KillSpec(db, session, task.owner, answers.kill);
            var s := SpawnSpec(killed.db, ReplanId(action.id), task, limit, answers);
            || (p.db == db && p.calls == [] && p.result.newState.Some?)
            || (p.db == killed.db && p.calls == killed.calls && p.result.newState.Some?)
            || ( && !ReplanRefused(db, action, task) && p.db == s.db && p.calls == killed.calls + s.calls
                 && (!p.raised && p.result.newState.None? ==> !s.raised && ReplanId(action.id) in s.db.ops
                                                              && s.db.ops[ReplanId(action.id)].status == NotStarted))
  {
  }

  // ------------------------------------------------------------------ replay

  datatype Invocation = Invocation(action: PlannerAction, task: Task, limit: nat, answers: Answers)

  function ExecuteAll(db: Db, todo: seq<Invocation>): Db
    decreases |todo|
  {
    if todo == [] then db else
    ExecuteAll(ExecuteSpec(db, todo[0].action, todo[0].task, todo[0].limit, todo[0].answers).db, todo[1..])
  }

  lemma ExecutedRowsStay(db: Db, i: Invocation, action: string)
    requires action in db.executed
    ensures var after := ExecuteSpec(db, i.action, i.task, i.limit, i.answers).db;
            action in after.executed && after.executed[action] == db.executed[action]
  {
    hide FirstSpec;
    FirstKeepsExecuted(db, i);
  }

  lemma FirstKeepsExecuted(db: Db, i: Invocation)
    ensures FirstSpec(db, i.action, i.task, i.limit, i.answers).db.executed == db.executed
  {
    hide EffectSpec, KillSpec, SpawnSpec;
    var action, task := i.action, i.task;
    match action.kind
    case SEND_LOCAL_FIX =>
      var intent := Ensure(db, SendId(action.id), Send, task.owner, action.target, Request({LocalFixKey(task)}, action.message, "", ""));
      EffectShape(intent, SendId(action.id), 3, i.answers.work.reply, i.answers.work.seen);
    case REPLAN_SPAWN =>
      KillShape(db, OldWorker(action, task), task.owner, i.answers.kill);
      var killed := if OldWorker(action, task) == "" then Effected(db, [], Raise) else KillSpec(db, OldWorker(action, task), task.owner, i.answers.kill);
      SpawnShape(killed.db, ReplanId(action.id), task, i.limit, i.answers);
    case _ =>
  }

  lemma {:induction false} ExecutedRowsStayThrough(db: Db, todo: seq<Invocation>, action: string)
    requires action in db.executed
    ensures var after := ExecuteAll(db, todo);
            action in after.executed && after.executed[action] == db.executed[action]
    decreases |todo|
  {
    if todo != [] {
      var i := todo[0];
      ExecutedRowsStay(db, i, action);
      ExecutedRowsStayThrough(ExecuteSpec(db, i.action, i.task, i.limit, i.answers).db, todo[1..], action);
    }
  }

  /** A recorded result is the one its kind and ok flag stand for. */
  lemma RecordedResumes(db: Db, i: Invocation)
    requires Records(FirstSpec(db, i.action, i.task, i.limit, i.answers))
    ensures var r := FirstSpec(db, i.action, i.task, i.limit, i.answers).result;
            r.newState == Some(ResumeState(i.action.kind, r.ok)) && (i.action.kind != REPLAN_SPAWN ==> r.worker.None?)
  {
    hide EffectSpec, KillSpec, SpawnSpec;
  }

  /** Once an action is recorded, executing it again, after any other
      executions, calls nobody, changes nothing and returns the same ok flag,
      next state and replacement worker. */
  lemma ReplayEqualsOriginal(db: Db, first: Invocation, between: seq<Invocation>, again: Invocation)
    requires first.action.id !in db.executed && again.action == first.action
    requires Records(ExecuteSpec(db, first.action, first.task, first.limit, first.answers))
    ensures var original := ExecuteSpec(db, first.action, first.task, first.limit, first.answers);
            var later := ExecuteAll(original.db, between);
            var replay := ExecuteSpec(later, again.action, again.task, again.limit, again.answers);
            replay.calls == [] && replay.db == later && !replay.raised && replay.result == original.result
  {
    RecordedResumes(db, first);
    hide FirstSpec;
    var original := ExecuteSpec(db, first.action, first.task, first.limit, first.answers);
    FirstKeepsExecuted(db, first);
    ExecutedRowsStayThrough(original.db, between, first.action.id);
  }

  /** A result that is not recorded leaves the action executable. */
  lemma UnrecordedStaysExecutable(db: Db, i: Invocation)
    requires i.action.id !in db.executed
    requires !Records(ExecuteSpec(db, i.action, i.task, i.limit, i.answers))
    ensures ExecuteSpec(db, i.action, i.task, i.limit, i.answers).db.executed == db.executed
  {
    hide FirstSpec;
    FirstKeepsExecuted(db, i);
  }

  // ------------------------------------------- no replacement beside a worker

  predicate TerminationReadBefore(calls: seq<Call>, session: string, i: nat) {
    exists j :: 0 <= j < i && j < |calls| && calls[j] == ReadPeer(KillId(session), true)
  }

  /** In a replan the replacement process is invoked only after the old
      worker's termination was read in this same execution, whatever the
      database already says about an earlier stop. */
  lemma ReplacementFollowsTermination(db: Db, action: PlannerAction, task: Task, limit: nat, answers: Answers, i: nat)
    requires action.kind == REPLAN_SPAWN && OldWorker(action, task) != ""
    ensures var calls := ExecuteSpec(db, action, task, limit, answers).calls;
            i < |calls| && calls[i].Invoke? && calls[i].id == ReplanId(action.id)
            ==> TerminationReadBefore(calls, OldWorker(action, task), i)
  {
    var session := OldWorker(action, task);
    var replaced := ExecuteSpec(db, action, task, limit, answers).calls;
    if !(i < |replaced| && replaced[i].Invoke? && replaced[i].id == ReplanId(action.id)) { return; }
    var killed := KillSpec(db, session, task.owner, answers.kill);
    KillShape(db, session, task.owner, answers.kill);
    var calls := ExecuteSpec(db, action, task, limit, answers).calls;
    assert KillId(session)[0] == 'k' && ReplanId(action.id)[0] == 's';
    assert calls == killed.calls || (KillConfirmed(killed) && killed.calls <= calls);
    forall k | 0 <= k < |killed.calls| ensures calls[k].id == KillId(session) {
      assert calls[k] == killed.calls[k] && killed.calls[k] in killed.calls;
    }
    assert calls[|killed.calls| - 1] == ReadPeer(KillId(session), true);
  }

  // ------------------------------------------- what a caller may rely on

  /** The results an action of this kind can have. */
  predicate Admits(kind: ActionKind, r: ActionResult) {
    match r.newState
    case None => !r.ok && r.worker.None? && (kind == SEND_LOCAL_FIX || kind == REPLAN_SPAWN)
    case Some(state) => state == ResumeState(kind, r.ok) || (!r.ok && state == HUMAN)
  }

  /** First execution and replay alike: no action finishes a task, only the
      gate does. */
  lemma ExecuteAdmits(db: Db, action: PlannerAction, task: Task, limit: nat, answers: Answers)
    ensures Admits(action.kind, ExecuteSpec(db, action, task, limit, answers).result)
    ensures ExecuteSpec(db, action, task, limit, answers).result.newState != Some(DONE)
  {
    hide FirstSpec;
    if action.id !in db.executed { FirstAdmits(db, action, task, limit, answers); }
  }

  lemma FirstAdmits(db: Db, action: PlannerAction, task: Task, limit: nat, answers: Answers)
    ensures Admits(action.kind, FirstSpec(db, action, task, limit, answers).result)
  {
    hide EffectSpec, KillSpec, SpawnSpec, SameIntent;
  }
}
