/** What one execution of a planner action comes to, read off the stored row, the
    reply and the reads: which actions are admitted, what a reply or a read
    proves, and the answer the controller gets. */
module ExecutorAnswers {
  import opened OperationStore
  import opened Contracts
  import opened ExecutorRules

  // ------------------------------------------------------------ what is proof

  /** The reply alone proves that the peer took the operation on. */
  predicate ProvedByReply(kind: Kind, reply: Reply) {
    match kind
    case Send => reply.Acked? || (reply.Finished? && reply.code == 0)
    case Spawn => reply.Acked? || (reply.Finished? && reply.code == 0 && reply.session.Some?)
    case _ => false
  }

  /** The only listed session under the operation's marker. */
  predicate OnlyMarked(listed: seq<Session>, marker: string, i: nat) {
    && i < |listed| && listed[i].displayName == marker
    && forall j | 0 <= j < |listed| && listed[j].displayName == marker :: j == i
  }

  /** A listed worker of the project and harness, alone under the marker. */
  ghost predicate WorkerIsListed(op: Operation, seen: Reads)
    requires seen.AoReads?
  {
    && seen.listed.Some? && seen.session.Some?
    && (exists i: nat :: OnlyMarked(seen.listed.value, op.request.marker, i) && ValidSessionId(seen.listed.value[i].id))
    && var s := seen.session.value;
       s.project == op.target && s.displayName == op.request.marker && s.harness == op.request.harness
       && s.kind == "worker" && s.mode == "chat"
  }

  /** A read of the peer proves the operation done. */
  ghost predicate ProvedByRead(op: Operation, seen: Reads) {
    match seen
    case BackendFact(success) => success.Some?
    case AoReads(listed, session) =>
      match op.kind
      case Spawn => WorkerIsListed(op, seen)
      case Kill => session.Some? && session.value.terminated && session.value.status == "terminated"
      case _ => false
  }

  lemma {:induction false} MatchingOne(listed: seq<Session>, marker: string)
    ensures Matching(listed, marker) == [] <==> forall j | 0 <= j < |listed| :: listed[j].displayName != marker
    ensures forall i: nat | OnlyMarked(listed, marker, i) :: Matching(listed, marker) == [listed[i]]
    ensures |Matching(listed, marker)| == 1 ==> exists i: nat :: OnlyMarked(listed, marker, i)
    decreases |listed|
  {
    if listed == [] { return; }
    var rest, found := listed[1..], Matching(listed[1..], marker);
    MatchingOne(rest, marker);
    assert listed == [listed[0]] + rest;
    forall i: nat | OnlyMarked(listed, marker, i) ensures Matching(listed, marker) == [listed[i]] {
      if i > 0 {
        assert listed[0].displayName != marker;
        assert OnlyMarked(rest, marker, i - 1);
      } else {
        assert forall j | 0 <= j < |rest| :: rest[j] == listed[j + 1];
      }
    }
    if |Matching(listed, marker)| == 1 {
      if listed[0].displayName == marker {
        assert OnlyMarked(listed, marker, 0);
      } else {
        var i: nat :| OnlyMarked(rest, marker, i);
        assert OnlyMarked(listed, marker, i + 1);
      }
    }
  }

  lemma ReadsProve(op: Operation, seen: Reads)
    ensures FactOf(op, seen).status == if ProvedByRead(op, seen) then Succeeded else Unknown
    ensures ProvedByRead(op, seen) <==> FactOf(op, seen).payload.Some?
  {
    if op.kind == Spawn && seen.AoReads? && seen.listed.Some? {
      hide ValidSessionId;
      MatchingOne(seen.listed.value, op.request.marker);
    }
  }

  // ------------------------------------------------------------- one effect

  /** The call that dispatches: the row has not started and can be claimed. */
  predicate Dispatches(db: Db, id: string, limit: nat)
    requires id in db.ops
  {
    db.ops[id].status == NotStarted && Claimable(db, id, limit)
  }

  /** What is left of the reply when it is neither a proof nor a refusal. */
  predicate LeavesItToTheRead(kind: Kind, reply: Reply) {
    !reply.NotCreated? && !ProvedByReply(kind, reply) && (reply.Rejected? ==> kind == Kill)
  }

  /** When this effect ends with the operation done, failed, or not started. */
  ghost predicate EndsDone(db: Db, id: string, limit: nat, reply: Reply, seen: Reads)
    requires id in db.ops
  {
    var op := db.ops[id];
    || op.status == Succeeded
    || (Unresolved(op.status) && ProvedByRead(op, seen))
    || (Dispatches(db, id, limit)
        && (ProvedByReply(op.kind, reply) || (LeavesItToTheRead(op.kind, reply) && ProvedByRead(op, seen))))
  }

  predicate EndsFailed(db: Db, id: string, limit: nat, reply: Reply)
    requires id in db.ops
  {
    var op := db.ops[id];
    || op.status == Failed
    || (Dispatches(db, id, limit)
        && ((reply.NotCreated? && op.attempts + 1 >= limit) || (reply.Rejected? && op.kind != Kill)))
  }

  predicate EndsNotStarted(db: Db, id: string, limit: nat, reply: Reply)
    requires id in db.ops
  {
    var op := db.ops[id];
    op.status == NotStarted && (Dispatches(db, id, limit) ==> reply.NotCreated? && op.attempts + 1 < limit)
  }

  lemma ObserveBooks(db: Db, id: string, status: Status, fact: string, payload: Option<Payload>, keys: set<string>, key: string)
    requires id in db.ops && !Settled(db.ops[id])
    ensures var v := Observe(db, id, status, fact, payload, keys);
            var charge := status == Succeeded && !db.ops[id].charged;
            && v.ops[id].charged == (db.ops[id].charged || charge)
            && v.ops[id].payload == (if payload.Some? then payload.value else db.ops[id].payload)
            && Counter(v, key) == Counter(db, key) + if charge && key in keys then 1 else 0
  {
  }

  /** The row of an effect and the counter of any key, before and after. */
  ghost predicate Books(db: Db, v: Db, id: string, key: string)
    requires id in db.ops
  {
    && v.ops.Keys == db.ops.Keys
    && (forall other | other in db.ops && other != id :: v.ops[other] == db.ops[other])
    && v.ops[id].kind == db.ops[id].kind && v.ops[id].owner == db.ops[id].owner
    && v.ops[id].target == db.ops[id].target && v.ops[id].request == db.ops[id].request
    && (v.ops[id].charged <==> db.ops[id].charged || (v.ops[id].status == Succeeded && db.ops[id].status != Succeeded))
    && Counter(v, key) == Counter(db, key)
         + if v.ops[id].charged && !db.ops[id].charged && key in db.ops[id].request.counters then 1 else 0
  }

  lemma ReconcileEnds(db: Db, id: string, seen: Reads, key: string)
    requires id in db.ops && db.ops[id].status != Succeeded
    ensures var e := ReconcileSpec(db, id, seen);
            && e.calls == [ReadPeer(id, ProvedByRead(db.ops[id], seen))] && Books(db, e.db, id, key) && e.outcome == Row(e.db.ops[id])
            && e.db.ops[id].status == (if ProvedByRead(db.ops[id], seen) then Succeeded else Unknown)
  {
    ReadsProve(db.ops[id], seen);
    var fact := FactOf(db.ops[id], seen);
    ObserveFrame(db, id, fact.status, "reconciled", fact.payload, db.ops[id].request.counters);
    ObserveBooks(db, id, fact.status, "reconciled", fact.payload, db.ops[id].request.counters, key);
    hide Observe, FactOf, ProvedByRead;
  }

  lemma LostEnds(db: Db, id: string, seen: Reads, key: string)
    requires id in db.ops && db.ops[id].status != Succeeded
    ensures var e := LostSpec(db, id, seen);
            && e.calls == [ReadPeer(id, ProvedByRead(db.ops[id], seen))] && Books(db, e.db, id, key) && e.outcome == Row(e.db.ops[id])
            && e.db.ops[id].status == (if ProvedByRead(db.ops[id], seen) then Succeeded else Unknown)
  {
    var lost := Observe(db, id, InFlight, "acknowledgement lost", None, {});
    ObserveFrame(db, id, InFlight, "acknowledgement lost", None, {});
    ObserveBooks(db, id, InFlight, "acknowledgement lost", None, {}, key);
    assert ProvedByRead(lost.ops[id], seen) == ProvedByRead(db.ops[id], seen);
    hide Observe, ReconcileSpec, ProvedByRead;
    ReconcileEnds(lost, id, seen, key);
  }

  lemma InvokeEnds(db: Db, id: string, limit: nat, reply: Reply, seen: Reads, key: string)
    requires id in db.ops && db.ops[id].kind != Approval && db.ops[id].status == InFlight
    ensures var e, op := InvokeSpec(db, id, limit, reply, seen), db.ops[id];
            && e.calls != [] && e.calls[0] == Invoke(id, !reply.NotCreated?) && Books(db, e.db, id, key)
            && (forall i | 1 <= i < |e.calls| :: e.calls[i].ReadPeer?) && e.outcome == Row(e.db.ops[id])
            && e.db.ops[id].status ==
                 if reply.NotCreated? then (if op.attempts >= limit then Failed else NotStarted)
                 else if ProvedByReply(op.kind, reply) then Succeeded
                 else if reply.Rejected? && op.kind != Kill then Failed
                 else if ProvedByRead(op, seen) then Succeeded else Unknown
  {
    hide ReconcileSpec, LostSpec, ProvedByRead, FactOf, Observe;
    var op := db.ops[id];
    if reply.NotCreated? {
      var status := if op.attempts >= limit then Failed else NotStarted;
      ObserveFrame(db, id, status, "process could not be created", None, {});
      ObserveBooks(db, id, status, "process could not be created", None, {}, key);
    } else {
      match AckOf(op, reply)
      case Accepted(payload) =>
        ObserveFrame(db, id, Succeeded, "acknowledged", Some(payload), op.request.counters);
        ObserveBooks(db, id, Succeeded, "acknowledged", Some(payload), op.request.counters, key);
      case Rejected =>
        ObserveFrame(db, id, Failed, "rejected", None, {});
        ObserveBooks(db, id, Failed, "rejected", None, {}, key);
      case Silent => ReconcileEnds(db, id, seen, key);
      case _ => LostEnds(db, id, seen, key);
    }
  }

  /** One effect ends done, failed or not started exactly when the stored row,
      the claim, the reply and the read say so, and unresolved otherwise.  It
      invokes the peer exactly when it dispatches, and charges every counter the
      operation names when it turns out done, and never again. */
  lemma EffectEndsIff(db: Db, id: string, limit: nat, reply: Reply, seen: Reads, key: string)
    requires id in db.ops && db.ops[id].kind != Approval
    ensures var e := EffectSpec(db, id, limit, reply, seen);
            && Books(db, e.db, id, key) && (e.outcome.Row? ==> e.outcome.op == e.db.ops[id])
            && (e.db.ops[id].status == Succeeded <==> EndsDone(db, id, limit, reply, seen))
            && (e.db.ops[id].status == Failed <==> EndsFailed(db, id, limit, reply))
            && (e.db.ops[id].status == NotStarted <==> EndsNotStarted(db, id, limit, reply))
            && (e.outcome.Raise? <==> db.ops[id].status == NotStarted && !Dispatches(db, id, limit)) && (e.outcome.Raise? ==> e.calls == [])
            && (Dispatches(db, id, limit) <==> e.calls != [] && e.calls[0] == Invoke(id, !reply.NotCreated?))
            && (forall i | 0 <= i < |e.calls| :: e.calls[i].Invoke? ==> i == 0)
  {
    hide ReconcileSpec, InvokeSpec, ProvedByRead, Claimable, Books;
    if Dispatches(db, id, limit) {
      DispatchEnds(db, id, limit, reply, seen, key);
    } else if Unresolved(db.ops[id].status) {
      ReconcileEnds(db, id, seen, key);
    } else {
      SameBooks(db, id, key);
    }
  }

  lemma DispatchEnds(db: Db, id: string, limit: nat, reply: Reply, seen: Reads, key: string)
    requires id in db.ops && db.ops[id].kind != Approval && Dispatches(db, id, limit)
    ensures var e, op := EffectSpec(db, id, limit, reply, seen), db.ops[id];
            && e.calls != [] && e.calls[0] == Invoke(id, !reply.NotCreated?) && Books(db, e.db, id, key)
            && (forall i | 1 <= i < |e.calls| :: e.calls[i].ReadPeer?) && e.outcome == Row(e.db.ops[id])
            && e.db.ops[id].status ==
                 if reply.NotCreated? then (if op.attempts + 1 >= limit then Failed else NotStarted)
                 else if ProvedByReply(op.kind, reply) then Succeeded
                 else if reply.Rejected? && op.kind != Kill then Failed
                 else if ProvedByRead(op, seen) then Succeeded else Unknown
  {
    hide ReconcileSpec, InvokeSpec, ProvedByRead, Claimable, Claim, ProvedByReply;
    ClaimStarts(db, id, limit, key);
    var claimed := Claim(db, id, limit);
    SameReads(claimed.ops[id], db.ops[id], seen);
    InvokeEnds(claimed, id, limit, reply, seen, key);
  }

  lemma SameBooks(db: Db, id: string, key: string)
    requires id in db.ops
    ensures Books(db, db, id, key)
  {
  }

  lemma SameReads(a: Operation, b: Operation, seen: Reads)
    requires a.kind == b.kind && a.target == b.target && a.request == b.request
    ensures ProvedByRead(a, seen) == ProvedByRead(b, seen)
  {
  }

  lemma ClaimStarts(db: Db, id: string, limit: nat, key: string)
    requires id in db.ops && Dispatches(db, id, limit)
    ensures var v := Claim(db, id, limit);
            && v == db.(ops := db.ops[id := db.ops[id].(status := InFlight, attempts := db.ops[id].attempts + 1)])
            && Counter(v, key) == Counter(db, key)
  {
  }

  // ----------------------------------------------------------------- budgets

  /** The success counters a new action of this kind is measured against, with
      their maxima: a mission limit of zero is no limit. */
  function BudgetOf(kind: ActionKind, task: Task): map<string, nat> {
    match kind
    case SEND_LOCAL_FIX => map["local_fixes:" + task.id := task.maxLocalFixes]
    case REPLAN_SPAWN =>
      map["replans:" + task.id := task.maxReplans] +
      (if task.parent.Some? && task.missionReplanLimit > 0
       then map["mission_replans:" + task.parent.value := task.missionReplanLimit] else map[])
    case _ => map[]
  }

  predicate WithinBudget(db: Db, kind: ActionKind, task: Task) {
    forall key | key in BudgetOf(kind, task) :: Counter(db, key) < BudgetOf(kind, task)[key]
  }

  /** The operation a fix or a replan is carried out by. */
  function IntentId(action: PlannerAction): string {
    (if action.kind == REPLAN_SPAWN then "spawn-replan:" else "send-action:") + action.id
  }

  predicate HandedToHuman(db: Db, p: Performed) {
    && !p.raised && p.result == ActionResult(false, Some(HUMAN), None)
    && p.calls == [] && p.db.ops == db.ops && p.db.counters == db.counters
  }

  lemma KeysDiffer(task: Task)
    ensures task.parent.Some? ==> "replans:" + task.id != "mission_replans:" + task.parent.value
  {
    if task.parent.Some? {
      assert ("replans:" + task.id)[0] == 'r' && ("mission_replans:" + task.parent.value)[0] == 'm';
    }
  }

  /** A budget that is used up stops a new fix or replan before anything is
      stored or anyone is called: the controller is told to ask a human. */
  lemma OverBudgetIsRefused(db: Db, action: PlannerAction, task: Task, limit: nat, answers: Answers)
    requires action.id !in db.executed && IntentId(action) !in db.ops
    requires !WithinBudget(db, action.kind, task)
    ensures HandedToHuman(db, ExecuteSpec(db, action, task, limit, answers))
  {
    hide RerouteSpec, EffectSpec;
    KeysDiffer(task);
    assert LocalFixKey(task) == "local_fixes:" + task.id && ReplanKey(task) == "replans:" + task.id;
  }

  /** Stored under an identity, the same operation: who asks, of whom, with which
      input and on which budgets.  A marker is only ever the first one's. */
  predicate SameAs(stored: Operation, intent: Operation) {
    && stored.kind == intent.kind && stored.owner == intent.owner && stored.target == intent.target
    && stored.request == intent.request.(marker := stored.request.marker)
  }

  // ------------------------------------------------------------------ a fix

  /** What the stored row of a fix says the controller is told. */
  predicate FixAnswered(p: Performed, status: Status) {
    match status
    case Succeeded => !p.raised && p.result == ActionResult(true, Some(WORKER_RETRYING), None)
    case Failed => !p.raised && p.result == ActionResult(false, Some(HUMAN), None)
    case NotStarted => if p.calls == [] then p.raised else !p.raised && p.result == ActionResult(false, None, None)
    case _ => p.raised
  }

  function FixIntent(action: PlannerAction, task: Task): Operation {
    NewOperation(Send, task.owner, action.target, Request({"local_fixes:" + task.id}, action.message, "", ""))
  }

  /** The row a fix starts from, in the database it starts from. */
  function FixRow(db: Db, action: PlannerAction, task: Task): Db {
    var id := "send-action:" + action.id;
    if id in db.ops then db else db.(ops := db.ops[id := FixIntent(action, task)])
  }

  predicate FixConflicts(db: Db, action: PlannerAction, task: Task) {
    var id := "send-action:" + action.id;
    id in db.ops && !SameAs(db.ops[id], FixIntent(action, task))
  }

  predicate FixIsRefused(db: Db, action: PlannerAction, task: Task) {
    || ("send-action:" + action.id !in db.ops && Counter(db, "local_fixes:" + task.id) >= task.maxLocalFixes)
    || action.target == "" || action.shellish
  }

  ghost predicate FixEnds(db: Db, p: Performed, action: PlannerAction, task: Task, peer: Peer, key: string) {
    var id, was := "send-action:" + action.id, FixRow(db, action, task);
    if FixIsRefused(db, action, task) then HandedToHuman(db, p)
    else if FixConflicts(db, action, task) then p.raised && p.calls == [] && p.db == db
    else
      && id in p.db.ops && Books(was, p.db, id, key) && FixAnswered(p, p.db.ops[id].status)
      && (p.db.ops[id].status == Succeeded <==> EndsDone(was, id, 3, peer.reply, peer.seen))
      && (p.db.ops[id].status == Failed <==> EndsFailed(was, id, 3, peer.reply))
      && (p.db.ops[id].status == NotStarted <==> EndsNotStarted(was, id, 3, peer.reply))
      && (Dispatches(was, id, 3) <==> p.calls != [] && p.calls[0] == Invoke(id, !peer.reply.NotCreated?))
  }

  lemma SendEnds(db: Db, action: PlannerAction, task: Task, peer: Peer, key: string)
    requires action.kind == SEND_LOCAL_FIX
    ensures FixEnds(db, SendLocalFixSpec(db, action, task, peer), action, task, peer, key)
  {
    hide EffectSpec, EndsDone, EndsFailed, Dispatches, FixRow, SendLocalFixSpec;
    SendIsOneEffect(db, action, task, peer);
    if !FixIsRefused(db, action, task) && !FixConflicts(db, action, task) {
      var id, was := "send-action:" + action.id, FixRow(db, action, task);
      EffectEndsIff(was, id, 3, peer.reply, peer.seen, key);
    }
  }

  lemma SendIsOneEffect(db: Db, action: PlannerAction, task: Task, peer: Peer)
    ensures var q, id, was := SendLocalFixSpec(db, action, task, peer), "send-action:" + action.id, FixRow(db, action, task);
            if FixIsRefused(db, action, task) then HandedToHuman(db, q)
            else if FixConflicts(db, action, task) then q.raised && q.calls == [] && q.db == db
            else
              && id in was.ops && was.ops[id].kind == Send
              && var e := EffectSpec(was, id, 3, peer.reply, peer.seen);
                 && q.db == e.db && q.calls == e.calls && (e.outcome.Raise? ==> q.raised)
                 && (e.outcome.Row? && (e.outcome.op.status == NotStarted ==> e.calls != []) ==> FixAnswered(q, e.outcome.op.status))
  {
    assert SendId(action.id) == "send-action:" + action.id && LocalFixKey(task) == "local_fixes:" + task.id;
    hide EffectSpec;
  }

  lemma MarkKeepsFix(db: Db, p: Performed, action: PlannerAction, task: Task, peer: Peer, key: string)
    requires FixEnds(db, p, action, task, peer, key) && !p.raised
    ensures FixEnds(db, p.(db := MarkExecuted(p.db, action.id, Executed(p.result.ok, p.result.worker))), action, task, peer, key)
  {
    hide EndsDone, EndsFailed, EndsNotStarted, Dispatches;
  }

  /** A fix not yet recorded is handed to a human, clashes with what is stored
      under its identity, or is one effect of its intent.  The intent is stored
      if and only if the fix has a target and no shell text and its budget is
      not used up, and the answer is the one the row then stands for. */
  lemma FixEndsIff(db: Db, action: PlannerAction, task: Task, limit: nat, answers: Answers, key: string)
    requires action.kind == SEND_LOCAL_FIX && action.id !in db.executed
    ensures FixEnds(db, ExecuteSpec(db, action, task, limit, answers), action, task, answers.work, key)
  {
    var q := SendLocalFixSpec(db, action, task, answers.work);
    SendEnds(db, action, task, answers.work, key);
    hide SendLocalFixSpec, FixEnds;
    if Records(q) { MarkKeepsFix(db, q, action, task, answers.work, key); }
  }

  // ------------------------------------------------------------------ a stop

  /** The row a stop starts from: one intent per session, whoever asks. */
  function StopRow(db: Db, session: string, owner: string): Operation {
    var id := "kill:" + session;
    if id in db.ops then db.ops[id] else NewOperation(Kill, owner, session, NoRequest)
  }

  predicate StopConflicts(db: Db, session: string) {
    var id := "kill:" + session;
    id in db.ops && !SameAs(db.ops[id], NewOperation(Kill, db.ops[id].owner, session, NoRequest))
  }

  /** The peer is read now, and says the session has terminated.  Without a stop
      already under way that takes a kill that was really invoked. */
  ghost predicate StopProved(db: Db, session: string, owner: string, peer: Peer) {
    var row := StopRow(db, session, owner);
    && !StopConflicts(db, session) && ProvedByRead(row, peer.seen)
    && (row.status != NotStarted || peer.stopped || (row.attempts < 3 && !peer.reply.NotCreated?))
  }

  lemma ReconcileStop(db: Db, id: string, seen: Reads, key: string)
    requires id in db.ops && db.ops[id].kind == Kill && db.ops[id].request.counters == {}
    ensures var e := ReconcileSpec(db, id, seen);
            && e.calls == [ReadPeer(id, ProvedByRead(db.ops[id], seen))] && e.db.ops.Keys == db.ops.Keys
            && (forall other | other in db.ops && other != id :: e.db.ops[other] == db.ops[other])
            && (KillConfirmed(e) <==> ProvedByRead(db.ops[id], seen)) && e.outcome.Row? && Counter(e.db, key) == Counter(db, key)
  {
    ReadsProve(db.ops[id], seen);
    var fact := FactOf(db.ops[id], seen);
    ObserveFrame(db, id, fact.status, "reconciled", fact.payload, {});
    ObserveBooks(db, id, fact.status, "reconciled", fact.payload, {}, key);
    hide Observe, FactOf, ProvedByRead;
  }

  /** A stop touches its own row and no counter. */
  ghost predicate StopFrame(db: Db, v: Db, id: string, key: string) {
    && v.ops.Keys <= db.ops.Keys + {id} && db.ops.Keys <= v.ops.Keys
    && (forall other | other in db.ops && other != id :: v.ops[other] == db.ops[other])
    && Counter(v, key) == Counter(db, key)
  }

  /** A stop is confirmed if and only if the peer's own termination is read in
      this very call, with a stop already under way or now really invoked. */
  lemma StopEndsIff(db: Db, session: string, owner: string, peer: Peer, key: string)
    ensures var e := KillSpec(db, session, owner, peer);
            && (KillConfirmed(e) <==> StopProved(db, session, owner, peer))
            && (StopConflicts(db, session) ==> e.outcome.Raise? && e.calls == [] && e.db == db)
            && StopFrame(db, e.db, "kill:" + session, key)
  {
    var id, row := "kill:" + session, StopRow(db, session, owner);
    assert KillId(session) == id;
    var was := if id in db.ops then db else db.(ops := db.ops[id := row]);
    assert was == Ensure(db, id, Kill, row.owner, session, NoRequest);
    hide EffectSpec, ReconcileSpec, ProvedByRead;
    if !StopConflicts(db, session) {
      if row.status != NotStarted || peer.stopped {
        ReconcileStop(was, id, peer.seen, key);
      } else {
        StopEffect(was, id, peer, key);
      }
    }
  }

  lemma StopEffect(db: Db, id: string, peer: Peer, key: string)
    requires id in db.ops && db.ops[id].kind == Kill && db.ops[id].request.counters == {} && db.ops[id].status == NotStarted
    ensures var e := EffectSpec(db, id, 3, peer.reply, peer.seen);
            && (KillConfirmed(e) <==> ProvedByRead(db.ops[id], peer.seen) && db.ops[id].attempts < 3 && !peer.reply.NotCreated?)
            && e.db.ops.Keys == db.ops.Keys && Counter(e.db, key) == Counter(db, key)
            && (forall other | other in db.ops && other != id :: e.db.ops[other] == db.ops[other])
  {
    hide ProvedByRead, EffectSpec;
    EffectEndsIff(db, id, 3, peer.reply, peer.seen, key);
  }

  // ----------------------------------------------------- what a success carries

  /** The result the reply itself brings. */
  predicate ReplyCarries(op: Operation, reply: Reply, payload: Payload) {
    match reply
    case Acked(given) => payload == given
    case Finished(_, session) => payload == if op.kind == Send then op.payload else Payload(session, None)
    case _ => false
  }

  /** The result a read that proves the operation brings. */
  ghost predicate ReadCarries(op: Operation, seen: Reads, payload: Payload) {
    match seen
    case BackendFact(success) => success == Some(payload)
    case AoReads(listed, _) =>
      if op.kind == Kill then payload == Payload(Some(op.target), None)
      else listed.Some? && exists i: nat :: OnlyMarked(listed.value, op.request.marker, i) && payload == Payload(Some(listed.value[i].id), None)
  }

  lemma ReadBrings(op: Operation, seen: Reads)
    requires ProvedByRead(op, seen)
    ensures FactOf(op, seen).payload.Some? && ReadCarries(op, seen, FactOf(op, seen).payload.value)
  {
    ReadsProve(op, seen);
    hide ValidSessionId;
    if op.kind == Spawn && seen.AoReads? { MatchingOne(seen.listed.value, op.request.marker); }
  }

  lemma ReconcileCarries(db: Db, id: string, seen: Reads)
    requires id in db.ops && db.ops[id].status != Succeeded && ProvedByRead(db.ops[id], seen)
    ensures var e := ReconcileSpec(db, id, seen); e.outcome.Row? && ReadCarries(db.ops[id], seen, e.outcome.op.payload)
  {
    ReadBrings(db.ops[id], seen);
    hide FactOf, ProvedByRead, ReadCarries;
  }

  /** An operation that turns out done holds what the proof brought: the reply if
      the reply was one, what was read otherwise. */
  lemma DoneCarries(db: Db, id: string, limit: nat, reply: Reply, seen: Reads)
    requires id in db.ops && db.ops[id].kind != Approval && db.ops[id].status != Succeeded
    requires var e := EffectSpec(db, id, limit, reply, seen); e.outcome.Row? && e.outcome.op.status == Succeeded
    ensures var op, payload := db.ops[id], EffectSpec(db, id, limit, reply, seen).outcome.op.payload;
            if Dispatches(db, id, limit) && ProvedByReply(op.kind, reply) then ReplyCarries(op, reply, payload)
            else ReadCarries(op, seen, payload)
  {
    EffectEndsIff(db, id, limit, reply, seen, "");
    hide ReconcileSpec, InvokeSpec, ProvedByRead, Claimable, ReadCarries;
    if Dispatches(db, id, limit) {
      ClaimStarts(db, id, limit, "");
      InvokeCarries(Claim(db, id, limit), id, limit, reply, seen);
      CarriesSame(Claim(db, id, limit).ops[id], db.ops[id], seen);
    } else {
      ReconcileCarries(db, id, seen);
    }
  }

  lemma CarriesSame(a: Operation, b: Operation, seen: Reads)
    requires a.kind == b.kind && a.target == b.target && a.request == b.request
    ensures forall payload :: ReadCarries(a, seen, payload) <==> ReadCarries(b, seen, payload)
  {
  }

  lemma InvokeCarries(db: Db, id: string, limit: nat, reply: Reply, seen: Reads)
    requires id in db.ops && db.ops[id].kind != Approval && db.ops[id].status == InFlight
    requires var e := InvokeSpec(db, id, limit, reply, seen); e.outcome.Row? && e.outcome.op.status == Succeeded
    ensures var op, payload := db.ops[id], InvokeSpec(db, id, limit, reply, seen).outcome.op.payload;
            if ProvedByReply(op.kind, reply) then ReplyCarries(op, reply, payload) else ReadCarries(op, seen, payload)
  {
    InvokeEnds(db, id, limit, reply, seen, "");
    hide ReconcileSpec, ProvedByRead, ReadCarries;
    if LeavesItToTheRead(db.ops[id].kind, reply) {
      if db.ops[id].kind == Kill && (reply.Rejected? || reply.Acked?) {
        ReconcileCarries(db, id, seen);
      } else {
        var lost := Observe(db, id, InFlight, "acknowledgement lost", None, {});
        SameReads(lost.ops[id], db.ops[id], seen);
        CarriesSame(lost.ops[id], db.ops[id], seen);
        ReconcileCarries(lost, id, seen);
      }
    }
  }

  // --------------------------------------------------------------- a replan

  function ReplanIntent(action: PlannerAction, task: Task, marker: string): Operation {
    NewOperation(Spawn, task.owner, task.project,
                 Request(BudgetOf(REPLAN_SPAWN, task).Keys, task.prompt, task.harness, marker))
  }

  /** The worker to be stopped first: the action's target or the task's own. */
  function Replaced(action: PlannerAction, task: Task): string {
    if action.target == "" then task.worker else action.target
  }

  function AfterStop(db: Db, action: PlannerAction, task: Task, peer: Peer): Db {
    if Replaced(action, task) == "" then db else KillSpec(db, Replaced(action, task), task.owner, peer).db
  }

  /** The database the replacement's effect starts from. */
  function ReplanRow(db: Db, action: PlannerAction, task: Task, answers: Answers): Db {
    var id, stopped := "spawn-replan:" + action.id, AfterStop(db, action, task, answers.kill);
    if id in stopped.ops then stopped else stopped.(ops := stopped.ops[id := ReplanIntent(action, task, answers.marker)])
  }

  predicate ReplanConflicts(db: Db, action: PlannerAction, task: Task) {
    var id := "spawn-replan:" + action.id;
    id in db.ops && !SameAs(db.ops[id], ReplanIntent(action, task, ""))
  }

  /** What the stored row of a replan says the controller is told. */
  predicate ReplanAnswered(p: Performed, op: Operation, dispatched: bool, workspaceOk: bool) {
    match op.status
    case Succeeded =>
      if workspaceOk && op.payload.session.Some?
      then !p.raised && p.result == ActionResult(true, Some(WORKER_RUNNING), op.payload.session)
      else p.raised
    case Failed => !p.raised && p.result == ActionResult(false, Some(HUMAN), None)
    case NotStarted => if dispatched then !p.raised && p.result == ActionResult(false, None, None) else p.raised
    case _ => p.raised
  }

  lemma ReplanKeysAreItsBudget(task: Task)
    ensures ReplanKeys(task) == BudgetOf(REPLAN_SPAWN, task).Keys
  {
  }

  /** Stopping a worker leaves the replacement's row and the budgets alone. */
  lemma StopIsApart(db: Db, action: PlannerAction, task: Task, peer: Peer, key: string)
    ensures var id, v := "spawn-replan:" + action.id, AfterStop(db, action, task, peer);
            && (id in v.ops <==> id in db.ops) && (id in db.ops ==> v.ops[id] == db.ops[id])
            && Counter(v, key) == Counter(db, key)
  {
    var id, session := "spawn-replan:" + action.id, Replaced(action, task);
    assert id[0] == 's' && ("kill:" + session)[0] == 'k';
    hide KillSpec, StopProved, StopConflicts, KillConfirmed, Replaced, Counter;
    StopEndsIff(db, session, task.owner, peer, key);
  }

  /** The replacement, once the old worker is out of the way: one spawn effect. */
  lemma SpawnIsOneEffect(db: Db, was: Db, action: PlannerAction, task: Task, limit: nat, answers: Answers)
    requires var id := "spawn-replan:" + action.id;
             was == if id in db.ops then db else db.(ops := db.ops[id := ReplanIntent(action, task, answers.marker)])
    ensures var s, id := SpawnSpec(db, "spawn-replan:" + action.id, task, limit, answers), "spawn-replan:" + action.id;
            if ReplanConflicts(db, action, task) || (was.ops[id].status == NotStarted && !answers.sourceOk)
            then s.raised && s.db == was && s.calls == []
            else
              && was.ops[id].kind == Spawn
              && var e := EffectSpec(was, id, limit, answers.work.reply, answers.work.seen);
                 && s.db == e.db && s.calls == e.calls && s.worker == (if s.raised || e.outcome.op.status != Succeeded then None else e.outcome.op.payload.session)
                 && (s.raised <==> e.outcome.Raise? || Unresolved(e.outcome.op.status)
                                   || (e.outcome.op.status == Succeeded && !(answers.workspaceOk && e.outcome.op.payload.session.Some?)))
  {
    ReplanKeysAreItsBudget(task);
    hide EffectSpec, BudgetOf, ReplanKeys;
  }

  lemma ReplacedIsOneEffect(db: Db, was: Db, action: PlannerAction, task: Task, limit: nat, answers: Answers)
    requires var id := "spawn-replan:" + action.id;
             was == if id in db.ops then db else db.(ops := db.ops[id := ReplanIntent(action, task, answers.marker)])
    ensures var q, id := ReplacedSpec(db, action, task, limit, answers), "spawn-replan:" + action.id;
            if ReplanConflicts(db, action, task) || (was.ops[id].status == NotStarted && !answers.sourceOk)
            then q.raised && q.db == was && q.calls == []
            else
              && was.ops[id].kind == Spawn
              && var e := EffectSpec(was, id, limit, answers.work.reply, answers.work.seen);
                 && q.db == e.db && q.calls == e.calls && (e.outcome.Raise? ==> q.raised)
                 && (e.outcome.Row? && id in e.db.ops && e.outcome.op == e.db.ops[id] ==> ReplanAnswered(q, e.outcome.op, true, answers.workspaceOk))
  {
    assert ReplanId(action.id) == "spawn-replan:" + action.id;
    SpawnIsOneEffect(db, was, action, task, limit, answers);
    hide EffectSpec, SpawnSpec, ReplanConflicts, ReplanIntent;
  }

  ghost predicate SpawnEnds(was: Db, q: Performed, action: PlannerAction, task: Task, limit: nat, answers: Answers, key: string) {
    var id := "spawn-replan:" + action.id;
    && id in was.ops && id in q.db.ops && Books(was, q.db, id, key)
    && ReplanAnswered(q, q.db.ops[id], Dispatches(was, id, limit), answers.workspaceOk)
    && (q.db.ops[id].status == Succeeded <==> EndsDone(was, id, limit, answers.work.reply, answers.work.seen))
    && (q.db.ops[id].status == Failed <==> EndsFailed(was, id, limit, answers.work.reply))
    && (q.db.ops[id].status == NotStarted <==> EndsNotStarted(was, id, limit, answers.work.reply))
    && (Dispatches(was, id, limit) <==> Invoke(id, !answers.work.reply.NotCreated?) in q.calls)
  }

  lemma ReplacedEnds(db: Db, was: Db, action: PlannerAction, task: Task, limit: nat, answers: Answers, key: string)
    requires var id := "spawn-replan:" + action.id;
             was == if id in db.ops then db else db.(ops := db.ops[id := ReplanIntent(action, task, answers.marker)])
    ensures var q, id := ReplacedSpec(db, action, task, limit, answers), "spawn-replan:" + action.id;
            if ReplanConflicts(db, action, task) || (was.ops[id].status == NotStarted && !answers.sourceOk)
            then q.raised && q.db == was && q.calls == []
            else SpawnEnds(was, q, action, task, limit, answers, key)
  {
    var id := "spawn-replan:" + action.id;
    ReplacedIsOneEffect(db, was, action, task, limit, answers);
    hide EffectSpec, EndsDone, EndsFailed, Dispatches, ReplacedSpec, ReplanConflicts, ReplanIntent;
    if was.ops[id].kind == Spawn { EffectEndsIff(was, id, limit, answers.work.reply, answers.work.seen, key); }
  }

  ghost predicate ReplanEnds(db: Db, p: Performed, action: PlannerAction, task: Task, limit: nat, answers: Answers, key: string) {
    var id, was := "spawn-replan:" + action.id, ReplanRow(db, action, task, answers);
    if id !in db.ops && !WithinBudget(db, REPLAN_SPAWN, task) then HandedToHuman(db, p)
    else if !answers.promptOk then p.raised && p.calls == [] && p.db == db
    else if Replaced(action, task) != "" && !StopProved(db, Replaced(action, task), task.owner, answers.kill)
    then p.raised && p.db == AfterStop(db, action, task, answers.kill) && forall c | c in p.calls :: c.id == "kill:" + Replaced(action, task)
    else if ReplanConflicts(db, action, task) || (was.ops[id].status == NotStarted && !answers.sourceOk)
    then p.raised && p.db == was && forall c | c in p.calls :: c.id == "kill:" + Replaced(action, task)
    else SpawnEnds(was, p, action, task, limit, answers, key)
  }

  lemma WithinReplanBudget(db: Db, action: PlannerAction, task: Task)
    ensures ReplanRefused(db, action, task) <==> "spawn-replan:" + action.id !in db.ops && !WithinBudget(db, REPLAN_SPAWN, task)
  {
    KeysDiffer(task);
    assert ReplanId(action.id) == "spawn-replan:" + action.id && ReplanKey(task) == "replans:" + task.id;
    var budget := BudgetOf(REPLAN_SPAWN, task);
    assert "replans:" + task.id in budget && budget["replans:" + task.id] == task.maxReplans;
    if task.parent.Some? && task.missionReplanLimit > 0 { assert "mission_replans:" + task.parent.value in budget; }
  }

  lemma SpawnEndsAfter(was: Db, q: Performed, action: PlannerAction, task: Task, limit: nat, answers: Answers, key: string, first: seq<Call>)
    requires SpawnEnds(was, q, action, task, limit, answers, key)
    requires forall c | c in first :: c.id == "kill:" + Replaced(action, task)
    ensures SpawnEnds(was, q.(calls := first + q.calls), action, task, limit, answers, key)
  {
    assert ("spawn-replan:" + action.id)[0] == 's' && ("kill:" + Replaced(action, task))[0] == 'k';
    hide Books, EndsDone, EndsFailed, EndsNotStarted, Dispatches;
  }

  lemma {:induction false} RerouteEnds(db: Db, action: PlannerAction, task: Task, limit: nat, answers: Answers, key: string)
    requires answers.promptOk && !ReplanRefused(db, action, task)
    ensures ReplanEnds(db, RerouteSpec(db, action, task, limit, answers), action, task, limit, answers, key)
  {
    var session, stopped := Replaced(action, task), AfterStop(db, action, task, answers.kill);
    WithinReplanBudget(db, action, task);
    assert OldWorker(action, task) == session;
    StopIsApart(db, action, task, answers.kill, "");
    var q, was := ReplacedSpec(stopped, action, task, limit, answers), ReplanRow(db, action, task, answers);
    ReplacedEnds(stopped, was, action, task, limit, answers, key);
    assert ReplanConflicts(stopped, action, task) == ReplanConflicts(db, action, task);
    if session != "" {
      KillShape(db, session, task.owner, answers.kill);
      StopEndsIff(db, session, task.owner, answers.kill, key);
      if SpawnEnds(was, q, action, task, limit, answers, key) {
        SpawnEndsAfter(was, q, action, task, limit, answers, key, KillSpec(db, session, task.owner, answers.kill).calls);
      }
    }
    hide KillSpec, ReplacedSpec, SpawnEnds, ReplanConflicts, ReplanRow, WithinBudget, ReplanRefused, StopProved, StopFrame;
  }

  lemma MarkKeepsReplan(db: Db, p: Performed, action: PlannerAction, task: Task, limit: nat, answers: Answers, key: string)
    requires ReplanEnds(db, p, action, task, limit, answers, key) && !p.raised
    ensures ReplanEnds(db, p.(db := MarkExecuted(p.db, action.id, Executed(p.result.ok, p.result.worker))), action, task, limit, answers, key)
  {
    hide EndsDone, EndsFailed, EndsNotStarted, Dispatches, StopProved, AfterStop, ReplanRow, ReplanConflicts, WithinBudget;
  }

  /** A replan not yet recorded is handed to a human when the task's or the
      mission's budget is used up; otherwise it stops the old worker, and only a
      stop proved now lets the replacement's intent in, which is then one spawn
      effect.  The answer is the one the replacement's row stands for. */
  lemma ReplanEndsIff(db: Db, action: PlannerAction, task: Task, limit: nat, answers: Answers, key: string)
    requires action.kind == REPLAN_SPAWN && action.id !in db.executed
    ensures ReplanEnds(db, ExecuteSpec(db, action, task, limit, answers), action, task, limit, answers, key)
  {
    var q := ReplanSpec(db, action, task, limit, answers);
    WithinReplanBudget(db, action, task);
    if answers.promptOk && !ReplanRefused(db, action, task) { RerouteEnds(db, action, task, limit, answers, key); }
    hide RerouteSpec, WithinBudget, ReplanRefused, StopProved, AfterStop, ReplanRow, ReplanConflicts, SpawnEnds;
    if Records(q) { MarkKeepsReplan(db, q, action, task, limit, answers, key); }
  }

  // --------------------------------------------------------------- admission

  /** What a new fix or replan needs besides room in its budgets. */
  ghost predicate WellFormed(db: Db, action: PlannerAction, task: Task, answers: Answers) {
    if action.kind == SEND_LOCAL_FIX then action.target != "" && !action.shellish
    else answers.promptOk && (Replaced(action, task) == "" || StopProved(db, Replaced(action, task), task.owner, answers.kill))
  }

  /** A new fix or replan gets its intent if and only if every counter it would
      charge is below its maximum and it is well formed; the intent names
      exactly those counters. */
  lemma AdmittedIff(db: Db, action: PlannerAction, task: Task, limit: nat, answers: Answers)
    requires action.kind == SEND_LOCAL_FIX || action.kind == REPLAN_SPAWN
    requires action.id !in db.executed && IntentId(action) !in db.ops
    ensures var p, id := ExecuteSpec(db, action, task, limit, answers), IntentId(action);
            && (id in p.db.ops <==> WithinBudget(db, action.kind, task) && WellFormed(db, action, task, answers))
            && (id in p.db.ops ==> p.db.ops[id].request.counters == BudgetOf(action.kind, task).Keys
                                   && p.db.ops[id].owner == task.owner)
  {
    hide ExecuteSpec, WithinBudget, WellFormed, BudgetOf;
    if action.kind == SEND_LOCAL_FIX {
      FixAdmittedIff(db, action, task, limit, answers);
    } else {
      ReplanAdmittedIff(db, action, task, limit, answers);
    }
  }

  lemma FixAdmittedIff(db: Db, action: PlannerAction, task: Task, limit: nat, answers: Answers)
    requires action.kind == SEND_LOCAL_FIX && action.id !in db.executed && IntentId(action) !in db.ops
    ensures var p, id := ExecuteSpec(db, action, task, limit, answers), IntentId(action);
            && (id in p.db.ops <==> WithinBudget(db, action.kind, task) && WellFormed(db, action, task, answers))
            && (id in p.db.ops ==> p.db.ops[id].request.counters == BudgetOf(action.kind, task).Keys
                                   && p.db.ops[id].owner == task.owner)
  {
    FixEndsIff(db, action, task, limit, answers, "");
    assert WithinBudget(db, SEND_LOCAL_FIX, task) <==> Counter(db, "local_fixes:" + task.id) < task.maxLocalFixes by {
      assert "local_fixes:" + task.id in BudgetOf(SEND_LOCAL_FIX, task);
    }
    hide ExecuteSpec, EndsDone, EndsFailed, EndsNotStarted, Dispatches, WithinBudget;
  }

  lemma ReplanAdmittedIff(db: Db, action: PlannerAction, task: Task, limit: nat, answers: Answers)
    requires action.kind == REPLAN_SPAWN && action.id !in db.executed && IntentId(action) !in db.ops
    ensures var p, id := ExecuteSpec(db, action, task, limit, answers), IntentId(action);
            && (id in p.db.ops <==> WithinBudget(db, action.kind, task) && WellFormed(db, action, task, answers))
            && (id in p.db.ops ==> p.db.ops[id].request.counters == BudgetOf(action.kind, task).Keys
                                   && p.db.ops[id].owner == task.owner)
  {
    ReplanEndsIff(db, action, task, limit, answers, "");
    StopIsApart(db, action, task, answers.kill, "");
    hide ExecuteSpec, EndsDone, EndsFailed, EndsNotStarted, Dispatches, WithinBudget, AfterStop, StopProved, BudgetOf;
  }

  /** An action that needs no operation calls nobody and always succeeds. */
  lemma PlainEnds(db: Db, action: PlannerAction, task: Task, limit: nat, answers: Answers)
    requires action.kind != SEND_LOCAL_FIX && action.kind != REPLAN_SPAWN && action.id !in db.executed
    ensures var p := ExecuteSpec(db, action, task, limit, answers);
            && !p.raised && p.calls == [] && p.db.ops == db.ops && p.db.counters == db.counters && p.db.missions == db.missions
            && p.result.ok && p.result.worker.None?
            && p.result.newState == Some(if action.kind == CONTINUE then WORKER_RUNNING
                                         else if action.kind == CANDIDATE_DONE then GATE_PENDING else HUMAN)
            && p.db.executed == db.executed[action.id := Executed(true, None)]
  {
  }

  /** The result of an action is recorded exactly when it is final: nothing was
      cut short and a next state is known. */
  lemma RecordedIff(db: Db, action: PlannerAction, task: Task, limit: nat, answers: Answers)
    requires action.id !in db.executed
    ensures var p := ExecuteSpec(db, action, task, limit, answers);
            p.db.executed == if !p.raised && p.result.newState.Some?
                             then db.executed[action.id := Executed(p.result.ok, p.result.worker)] else db.executed
  {
    FirstAdmits(db, action, task, limit, answers);
    FirstKeepsExecuted(db, Invocation(action, task, limit, answers));
    hide FirstSpec;
  }
}
