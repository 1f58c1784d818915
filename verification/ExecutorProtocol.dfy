/** Every call of the executor is a run of the dispatch protocol: whatever the
    protocol guarantees for all interleavings and crashes holds for it. */
module ExecutorProtocol {
  import opened OperationStore
  import opened Contracts
  import opened ExecutorRules
  import DP = DispatchProtocol
  import DB = DispatchBudgets
  import EA = ExecutorAnswers
  import opened DispatchRuns

  /** Processes really created by these calls. */
  function CreatedBy(calls: seq<Call>): multiset<string> {
    if calls == [] then multiset{} else
    (if calls[0].Invoke? && calls[0].created then multiset{calls[0].id} else multiset{}) + CreatedBy(calls[1..])
  }

  /** The runs from `start` that commit an intent naming `key` only while the
      counter of `key` is below `max`. */
  datatype Course = Course(start: DP.World, limit: nat, key: string, max: nat)

  /** Some such run of the protocol, with any number of agents, leads to this
      database and these created processes with agent 0 standing at `pc`. */
  ghost predicate Leads(db: Db, created: multiset<string>, pc: DP.Pc, via: Course) {
    exists acts :: LeadsBy(acts, db, created, pc, via)
  }

  ghost predicate LeadsBy(acts: seq<DP.Action>, db: Db, created: multiset<string>, pc: DP.Pc, via: Course) {
    var w := DP.Run(via.start, acts, via.limit);
    w.db == db && w.created == created && DP.At(w, 0).pc == pc && DB.Guarded(via.start, acts, via.key, via.max, via.limit)
  }

  /** Nothing in the action needs more room than the counter leaves. */
  predicate Allowed(db: Db, act: DP.Action, via: Course) {
    act.Intend? && act.id !in db.ops && via.key in act.request.counters ==> Counter(db, via.key) < via.max
  }

  lemma Extend(db: Db, created: multiset<string>, pc: DP.Pc, via: Course, act: DP.Action) returns (w: DP.World)
    requires Leads(db, created, pc, via) && Allowed(db, act, via)
    ensures w.db == db && w.created == created && DP.At(w, 0).pc == pc
    ensures var v := DP.Apply(w, act, via.limit); Leads(v.db, v.created, DP.At(v, 0).pc, via)
  {
    var acts :| LeadsBy(acts, db, created, pc, via);
    w := DP.Run(via.start, acts, via.limit);
    RunSnoc(via.start, acts, act, via.limit);
    DB.GuardedSnoc(via.start, acts, act, via.key, via.max, via.limit);
    var v := DP.Apply(w, act, via.limit);
    assert LeadsBy(acts + [act], v.db, v.created, DP.At(v, 0).pc, via);
  }

  /** A more generous maximum allows the same runs. */
  lemma LeadsWithMore(db: Db, created: multiset<string>, pc: DP.Pc, via: Course, max: nat)
    requires Leads(db, created, pc, via) && via.max <= max
    ensures Leads(db, created, pc, via.(max := max))
  {
    var acts :| LeadsBy(acts, db, created, pc, via);
    GuardedWithMore(via.start, acts, via, max);
    assert LeadsBy(acts, db, created, pc, via.(max := max));
  }

  lemma {:induction false} GuardedWithMore(w: DP.World, acts: seq<DP.Action>, via: Course, max: nat)
    requires DB.Guarded(w, acts, via.key, via.max, via.limit) && via.max <= max
    ensures DB.Guarded(w, acts, via.key, max, via.limit)
    decreases |acts|
  {
    hide DP.Apply, DB.Admits;
    if acts != [] { GuardedWithMore(DP.Apply(w, acts[0], via.limit), acts[1..], via, max); }
  }

  // --------------------------------------------------- one action of agent 0

  lemma Intends(db: Db, created: multiset<string>, via: Course, id: string, kind: Kind, owner: string, target: string,
                request: Request)
    requires Leads(db, created, DP.Idle, via)
    requires kind == Kill ==> request.counters == {}
    requires kind != Approval
    requires SameIntent(Ensure(db, id, kind, owner, target, request).ops[id], kind, owner, target, request)
    requires id !in db.ops && via.key in request.counters ==> Counter(db, via.key) < via.max
    ensures var after := Ensure(db, id, kind, owner, target, request);
            Leads(after, created, DP.Loaded(id, after.ops[id].status), via)
  {
    var w := Extend(db, created, DP.Idle, via, DP.Intend(0, id, kind, owner, target, request));
  }

  lemma Reconciles(db: Db, created: multiset<string>, via: Course, id: string, terminated: bool)
    requires id in db.ops
    requires Unresolved(db.ops[id].status) || (db.ops[id].kind == Kill && (db.ops[id].status != NotStarted || terminated))
    requires Leads(db, created, DP.Loaded(id, db.ops[id].status), via)
    ensures Leads(db, created, DP.Reconciling(id), via)
  {
    var w := Extend(db, created, DP.Loaded(id, db.ops[id].status), via, DP.Proceed(0, terminated));
  }

  lemma Claims(db: Db, created: multiset<string>, via: Course, id: string)
    requires id in db.ops && db.ops[id].status == NotStarted
    requires Leads(db, created, DP.Loaded(id, NotStarted), via)
    ensures var bound := DP.Limit(db.ops[id].kind, via.limit);
            if Claimable(db, id, bound) then Leads(Claim(db, id, bound), created, DP.ClaimWon(id), via)
            else Leads(db, created, DP.Recorded(id), via)
  {
    var w := Extend(db, created, DP.Loaded(id, NotStarted), via, DP.Proceed(0, false));
  }

  lemma Returns(db: Db, created: multiset<string>, via: Course, id: string)
    requires id in db.ops && db.ops[id].kind != Kill
    requires db.ops[id].status == Succeeded || db.ops[id].status == Failed
    requires Leads(db, created, DP.Loaded(id, db.ops[id].status), via)
    ensures Leads(db, created, DP.Returned(id, db.ops[id].status), via)
  {
    var w := Extend(db, created, DP.Loaded(id, db.ops[id].status), via, DP.Proceed(0, false));
  }

  lemma Reloads(db: Db, created: multiset<string>, via: Course, id: string)
    requires id in db.ops && Leads(db, created, DP.ClaimWon(id), via)
    ensures Leads(db, created, DP.Armed(id, db.ops[id].attempts), via)
  {
    var w := Extend(db, created, DP.ClaimWon(id), via, DP.Reload(0));
  }

  lemma Creates(db: Db, created: multiset<string>, via: Course, id: string, attempts: nat, possible: bool)
    requires Leads(db, created, DP.Armed(id, attempts), via)
    ensures if possible then Leads(db, created + multiset{id}, DP.Running(id), via)
            else Leads(db, created, DP.Refused(id, attempts), via)
  {
    var w := Extend(db, created, DP.Armed(id, attempts), via, DP.Create(0, possible));
  }

  lemma Reports(db: Db, created: multiset<string>, via: Course, id: string)
    requires id in db.ops && Leads(db, created, DP.Refused(id, db.ops[id].attempts), via)
    ensures var status := if db.ops[id].attempts >= DP.Limit(db.ops[id].kind, via.limit) then Failed else NotStarted;
            Leads(Observe(db, id, status, "process could not be created", None, {}), created, DP.Recorded(id), via)
  {
    var w := Extend(db, created, DP.Refused(id, db.ops[id].attempts), via, DP.ReportRefusal(0));
  }

  lemma AckArrives(db: Db, created: multiset<string>, via: Course, id: string, ack: DP.Ack)
    requires id in db.ops && Leads(db, created, DP.Running(id), via)
    requires DP.PossibleAck(db.ops[id].kind, ack)
    ensures match ack
            case Accepted(payload) =>
              Leads(Observe(db, id, Succeeded, "acknowledged", Some(payload), db.ops[id].request.counters), created, DP.Recorded(id), via)
            case Rejected => Leads(Observe(db, id, Failed, "rejected", None, {}), created, DP.Recorded(id), via)
            case Silent => Leads(db, created, DP.Reconciling(id), via)
            case Lost => Leads(Observe(db, id, InFlight, "acknowledgement lost", None, {}), created, DP.Reconciling(id), via)
            case Ambiguous => true
  {
    var w := Extend(db, created, DP.Running(id), via, DP.Answer(0, ack));
  }

  lemma PeerIsRead(db: Db, created: multiset<string>, via: Course, id: string, fact: Status)
    requires id in db.ops && Leads(db, created, DP.Reconciling(id), via)
    requires fact == Succeeded || fact == Unknown
    ensures Leads(db, created, DP.HasFact(id, fact), via)
  {
    var w := Extend(db, created, DP.Reconciling(id), via, DP.Read(0, fact));
  }

  lemma FactIsRecorded(db: Db, created: multiset<string>, via: Course, id: string, fact: Status,
                       payload: Option<Payload>)
    requires id in db.ops && Leads(db, created, DP.HasFact(id, fact), via)
    ensures Leads(Observe(db, id, fact, "reconciled", payload, db.ops[id].request.counters), created, DP.Recorded(id), via)
  {
    var w := Extend(db, created, DP.HasFact(id, fact), via, DP.RecordFact(0, payload));
  }

  lemma Rereads(db: Db, created: multiset<string>, via: Course, id: string)
    requires id in db.ops && Leads(db, created, DP.Recorded(id), via)
    ensures Leads(db, created, DP.Returned(id, db.ops[id].status), via)
  {
    var w := Extend(db, created, DP.Recorded(id), via, DP.Reread(0));
  }

  lemma Leaves(db: Db, created: multiset<string>, via: Course, id: string, status: Status)
    requires Leads(db, created, DP.Returned(id, status), via)
    ensures Leads(db, created, DP.Idle, via)
  {
    var w := Extend(db, created, DP.Returned(id, status), via, DP.Leave(0));
  }

  lemma Marks(db: Db, created: multiset<string>, via: Course, action: string, result: Executed)
    requires Leads(db, created, DP.Idle, via)
    ensures Leads(MarkExecuted(db, action, result), created, DP.Idle, via)
  {
    var w := Extend(db, created, DP.Idle, via, DP.Mark(action, result));
  }

  // ------------------------------------------------------------ whole effects

  lemma ConcludeRecorded(db: Db, created: multiset<string>, via: Course, id: string)
    requires id in db.ops && Leads(db, created, DP.Recorded(id), via)
    ensures Leads(db, created, DP.Idle, via)
  {
    Rereads(db, created, via, id);
    Leaves(db, created, via, id, db.ops[id].status);
  }

  lemma ReconcileIsARun(db: Db, created: multiset<string>, via: Course, id: string, seen: Reads)
    requires id in db.ops && Leads(db, created, DP.Reconciling(id), via)
    ensures Leads(ReconcileSpec(db, id, seen).db, created, DP.Idle, via)
    ensures CreatedBy(ReconcileSpec(db, id, seen).calls) == multiset{}
  {
    var fact := FactOf(db.ops[id], seen);
    PeerIsRead(db, created, via, id, fact.status);
    FactIsRecorded(db, created, via, id, fact.status, fact.payload);
    ConcludeRecorded(ReconcileSpec(db, id, seen).db, created, via, id);
  }

  lemma CreatedByInvoke(id: string, created: bool, rest: seq<Call>)
    requires CreatedBy(rest) == multiset{}
    ensures CreatedBy([Invoke(id, created)] + rest) == if created then multiset{id} else multiset{}
  {
    assert ([Invoke(id, created)] + rest)[1..] == rest;
  }

  lemma InvokeIsARun(db: Db, created: multiset<string>, via: Course, id: string, reply: Reply, seen: Reads)
    requires id in db.ops && db.ops[id].kind != Approval
    requires Leads(db, created, DP.Armed(id, db.ops[id].attempts), via)
    ensures var e := InvokeSpec(db, id, DP.Limit(db.ops[id].kind, via.limit), reply, seen);
            Leads(e.db, created + CreatedBy(e.calls), DP.Idle, via)
  {
    hide ReconcileSpec, FactOf;
    var e := InvokeSpec(db, id, DP.Limit(db.ops[id].kind, via.limit), reply, seen);
    Creates(db, created, via, id, db.ops[id].attempts, !reply.NotCreated?);
    CreatedByInvoke(id, !reply.NotCreated?, []);
    assert [Invoke(id, !reply.NotCreated?)] + [] == [Invoke(id, !reply.NotCreated?)];
    if reply.NotCreated? {
      Reports(db, created, via, id);
      ConcludeRecorded(e.db, created, via, id);
      assert created + CreatedBy(e.calls) == created;
    } else {
      var now := created + multiset{id};
      var ack := AckOf(db.ops[id], reply);
      AckArrives(db, now, via, id, ack);
      match ack
      case Silent =>
        ReconcileIsARun(db, now, via, id, seen);
        CreatedByInvoke(id, true, ReconcileSpec(db, id, seen).calls);
      case Lost =>
        var lost := Observe(db, id, InFlight, "acknowledgement lost", None, {});
        ReconcileIsARun(lost, now, via, id, seen);
        CreatedByInvoke(id, true, ReconcileSpec(lost, id, seen).calls);
      case _ =>
        ConcludeRecorded(e.db, now, via, id);
    }
  }

  lemma EffectIsARun(db: Db, created: multiset<string>, via: Course, id: string, reply: Reply, seen: Reads)
    requires id in db.ops && db.ops[id].kind != Approval
    requires db.ops[id].kind == Kill ==> db.ops[id].status == NotStarted
    requires Leads(db, created, DP.Loaded(id, db.ops[id].status), via)
    ensures var e := EffectSpec(db, id, DP.Limit(db.ops[id].kind, via.limit), reply, seen);
            Leads(e.db, created + CreatedBy(e.calls), DP.Idle, via)
  {
    hide InvokeSpec, ReconcileSpec, FactOf;
    var bound := DP.Limit(db.ops[id].kind, via.limit);
    if db.ops[id].status == Succeeded || db.ops[id].status == Failed {
      Returns(db, created, via, id);
      Leaves(db, created, via, id, db.ops[id].status);
      assert created + CreatedBy([]) == created;
    } else if Unresolved(db.ops[id].status) {
      Reconciles(db, created, via, id, false);
      ReconcileIsARun(db, created, via, id, seen);
      assert created + CreatedBy(ReconcileSpec(db, id, seen).calls) == created;
    } else {
      Claims(db, created, via, id);
      if Claimable(db, id, bound) {
        Reloads(Claim(db, id, bound), created, via, id);
        InvokeIsARun(Claim(db, id, bound), created, via, id, reply, seen);
      } else {
        ConcludeRecorded(db, created, via, id);
        assert created + CreatedBy([]) == created;
      }
    }
  }

  lemma {:induction false} CreatedByConcat(a: seq<Call>, b: seq<Call>)
    ensures CreatedBy(a + b) == CreatedBy(a) + CreatedBy(b)
    decreases |a|
  {
    if a == [] {
      assert a + b == b;
    } else {
      assert (a + b)[0] == a[0] && (a + b)[1..] == a[1..] + b;
      CreatedByConcat(a[1..], b);
    }
  }

  /** The protocol reaches the state a finished call leaves behind. */
  ghost predicate LeadsOn(db: Db, created: multiset<string>, calls: seq<Call>, via: Course) {
    Leads(db, created + CreatedBy(calls), DP.Idle, via)
  }

  lemma NothingCreated(db: Db, created: multiset<string>, via: Course)
    requires Leads(db, created, DP.Idle, via)
    ensures LeadsOn(db, created, [], via)
  {
    assert created + CreatedBy([]) == created;
  }

  lemma KillIsARun(db: Db, created: multiset<string>, via: Course, session: string, owner: string, peer: Peer)
    requires Leads(db, created, DP.Idle, via)
    ensures var e := KillSpec(db, session, owner, peer); LeadsOn(e.db, created, e.calls, via)
  {
    var id := KillId(session);
    var holder := if id in db.ops then db.ops[id].owner else owner;
    var intent := Ensure(db, id, Kill, holder, session, NoRequest);
    NothingCreated(db, created, via);
    if SameIntent(intent.ops[id], Kill, holder, session, NoRequest) {
      Intends(db, created, via, id, Kill, holder, session, NoRequest);
      if intent.ops[id].status != NotStarted || peer.stopped {
        Reconciles(intent, created, via, id, peer.stopped);
        ReconcileIsARun(intent, created, via, id, peer.seen);
        assert created + CreatedBy(ReconcileSpec(intent, id, peer.seen).calls) == created;
      } else {
        EffectIsARun(intent, created, via, id, peer.reply, peer.seen);
      }
    }
  }

  lemma SpawnIsARun(db: Db, created: multiset<string>, via: Course, id: string, task: Task, answers: Answers)
    requires Leads(db, created, DP.Idle, via)
    requires id !in db.ops && via.key in ReplanKeys(task) ==> Counter(db, via.key) < via.max
    ensures var s := SpawnSpec(db, id, task, via.limit, answers); LeadsOn(s.db, created, s.calls, via)
  {
    hide EffectSpec, LeadsBy;
    var request := SpawnRequest(task, answers.marker);
    var intent := Ensure(db, id, Spawn, task.owner, task.project, request);
    NothingCreated(db, created, via);
    if SameIntent(intent.ops[id], Spawn, task.owner, task.project, request) {
      Intends(db, created, via, id, Spawn, task.owner, task.project, request);
      if intent.ops[id].status == NotStarted && !answers.sourceOk {
        Abandons(intent, created, via, DP.Loaded(id, NotStarted));
        NothingCreated(intent, created, via);
      } else {
        EffectIsARun(intent, created, via, id, answers.work.reply, answers.work.seen);
      }
    }
  }

  /** An exception between two steps leaves what a crash would leave. */
  lemma Abandons(db: Db, created: multiset<string>, via: Course, pc: DP.Pc)
    requires Leads(db, created, pc, via)
    ensures Leads(db, created, DP.Idle, via)
  {
    var w := Extend(db, created, pc, via, DP.Crash({0}));
  }

  /** The course is at least as generous as the task's own budget. */
  predicate Measured(via: Course, kind: ActionKind, task: Task) {
    via.key in EA.BudgetOf(kind, task) ==> EA.BudgetOf(kind, task)[via.key] <= via.max
  }

  lemma FirstIsARun(db: Db, created: multiset<string>, via: Course, action: PlannerAction, task: Task, answers: Answers)
    requires Leads(db, created, DP.Idle, via) && Measured(via, action.kind, task)
    ensures var p := FirstSpec(db, action, task, via.limit, answers); LeadsOn(p.db, created, p.calls, via)
  {
    NothingCreated(db, created, via);
    match action.kind
    case SEND_LOCAL_FIX => SendIsARun(db, created, via, action, task, answers.work);
    case REPLAN_SPAWN => ReplanIsARun(db, created, via, action, task, answers);
    case _ =>
  }

  lemma SendIsARun(db: Db, created: multiset<string>, via: Course, action: PlannerAction, task: Task, peer: Peer)
    requires Leads(db, created, DP.Idle, via) && Measured(via, SEND_LOCAL_FIX, task)
    ensures var p := SendLocalFixSpec(db, action, task, peer); LeadsOn(p.db, created, p.calls, via)
  {
    NothingCreated(db, created, via);
    SendParts(db, action, task, peer);
    var id := SendId(action.id);
    var request := Request({LocalFixKey(task)}, action.message, "", "");
    var intent := Ensure(db, id, Send, task.owner, action.target, request);
    if SameIntent(intent.ops[id], Send, task.owner, action.target, request)
       && (id !in db.ops ==> Counter(db, LocalFixKey(task)) < task.maxLocalFixes) {
      Intends(db, created, via, id, Send, task.owner, action.target, request);
      EffectIsARun(intent, created, via, id, peer.reply, peer.seen);
    }
  }

  lemma ReplanIsARun(db: Db, created: multiset<string>, via: Course, action: PlannerAction, task: Task, answers: Answers)
    requires Leads(db, created, DP.Idle, via) && Measured(via, REPLAN_SPAWN, task)
    ensures var p := ReplanSpec(db, action, task, via.limit, answers); LeadsOn(p.db, created, p.calls, via)
  {
    NothingCreated(db, created, via);
    ReplanParts(db, action, task, via.limit, answers);
    var session := OldWorker(action, task);
    var killed := if session == "" then Effected(db, [], Raise) else KillSpec(db, session, task.owner, answers.kill);
    if session != "" { KillIsARun(db, created, via, session, task.owner, answers.kill); }
    var now := created + CreatedBy(killed.calls);
    if ReplanRefused(db, action, task) { return; }
    ReplacementHasRoom(db, via, action, task, answers.kill);
    SpawnIsARun(killed.db, now, via, ReplanId(action.id), task, answers);
    var s := SpawnSpec(killed.db, ReplanId(action.id), task, via.limit, answers);
    CreatedByConcat(killed.calls, s.calls);
    assert now + CreatedBy(s.calls) == created + CreatedBy(killed.calls + s.calls);
  }

  /** The stop in between changes neither the counters nor what is admitted. */
  lemma ReplacementHasRoom(db: Db, via: Course, action: PlannerAction, task: Task, peer: Peer)
    requires Measured(via, REPLAN_SPAWN, task) && !ReplanRefused(db, action, task)
    ensures var killed := EA.AfterStop(db, action, task, peer);
            ReplanId(action.id) !in killed.ops && via.key in ReplanKeys(task) ==> Counter(killed, via.key) < via.max
  {
    hide EA.AfterStop;
    assert ReplanId(action.id) == "spawn-replan:" + action.id;
    EA.StopIsApart(db, action, task, peer, via.key);
    EA.WithinReplanBudget(db, action, task);
    EA.ReplanKeysAreItsBudget(task);
  }

  /** Wherever the protocol stands, an execution continues it, and commits an
      intent naming a budget's counter only while that counter is below the
      budget's maximum. */
  lemma ExecuteIsARun(db: Db, created: multiset<string>, via: Course, action: PlannerAction, task: Task,
                      answers: Answers)
    requires Leads(db, created, DP.Idle, via) && Measured(via, action.kind, task)
    ensures var p := ExecuteSpec(db, action, task, via.limit, answers); LeadsOn(p.db, created, p.calls, via)
  {
    NothingCreated(db, created, via);
    if action.id !in db.executed {
      FirstIsARun(db, created, via, action, task, answers);
      var p := FirstSpec(db, action, task, via.limit, answers);
      if Records(p) {
        Marks(p.db, created + CreatedBy(p.calls), via, action.id, Executed(p.result.ok, p.result.worker));
      }
    }
  }

  /** The same from any state of the protocol, with other agents anywhere in
      their own calls and the counters where they are. */
  lemma ExecuteContinues(w: DP.World, limit: nat, key: string, max: nat, action: PlannerAction, task: Task, answers: Answers)
    requires DP.At(w, 0).pc.Idle? && Measured(Course(w, limit, key, max), action.kind, task)
    ensures var p := ExecuteSpec(w.db, action, task, limit, answers);
            exists acts ::
              && DB.Guarded(w, acts, key, max, limit)
              && DP.Run(w, acts, limit).db == p.db && DP.Run(w, acts, limit).created == w.created + CreatedBy(p.calls)
  {
    var p, via := ExecuteSpec(w.db, action, task, limit, answers), Course(w, limit, key, max);
    assert LeadsBy([], w.db, w.created, DP.Idle, via);
    ExecuteIsARun(w.db, w.created, via, action, task, answers);
    var acts :| LeadsBy(acts, p.db, w.created + CreatedBy(p.calls), DP.Idle, via);
    assert DB.Guarded(w, acts, key, max, limit);
  }

  // ------------------------------------------------------------ consequences

  /** Through any executions, retries and resumptions, an operation never has a
      second process, and one that has a process is never dispatchable. */
  lemma ExecutorDispatchesAtMostOnce(db: Db, created: multiset<string>, via: Course, id: string)
    requires via.limit >= 1 && via.start == DP.Init && Leads(db, created, DP.Idle, via)
    ensures created[id] <= 1
    ensures created[id] == 1 ==> id in db.ops && db.ops[id].status != NotStarted
    ensures id in db.ops ==> db.ops[id].attempts <= DP.Limit(db.ops[id].kind, via.limit)
  {
    var acts :| LeadsBy(acts, db, created, DP.Idle, via);
    DP.AtMostOnceDispatch(acts, via.limit, id);
  }

  /** The executor's budget counters are the numbers of succeeded operations. */
  lemma ExecutorChargesOnce(db: Db, created: multiset<string>, via: Course, key: string)
    requires via.limit >= 1 && via.start == DP.Init && Leads(db, created, DP.Idle, via)
    ensures Counter(db, key) == |set id | id in db.ops && db.ops[id].status == Succeeded && key in db.ops[id].request.counters|
  {
    var acts :| LeadsBy(acts, db, created, DP.Idle, via);
    DP.ChargesAreConserved(acts, via.limit, key);
  }

  /** A fix or replan that proved it never started is charged nowhere, is not
      recorded as executed, and may be dispatched again. */
  lemma NonStartStaysRetryable(db: Db, created: multiset<string>, via: Course, action: PlannerAction, task: Task,
                               answers: Answers)
    requires via.limit >= 1 && via.start == DP.Init && Leads(db, created, DP.Idle, via) && action.id !in db.executed
    requires Measured(via, action.kind, task)
    requires var p := ExecuteSpec(db, action, task, via.limit, answers); !p.raised && p.result.newState.None?
    ensures var p := ExecuteSpec(db, action, task, via.limit, answers);
            var id := if action.kind == SEND_LOCAL_FIX then SendId(action.id) else ReplanId(action.id);
            && p.db.executed == db.executed
            && id in p.db.ops && p.db.ops[id].status == NotStarted && !p.db.ops[id].charged
            && p.db.ops[id].attempts < DP.Limit(p.db.ops[id].kind, via.limit)
            && (created + CreatedBy(p.calls))[id] == 0
  {
    var p := ExecuteSpec(db, action, task, via.limit, answers);
    var id := if action.kind == SEND_LOCAL_FIX then SendId(action.id) else ReplanId(action.id);
    hide FirstSpec, DP.Run, DP.Inv;
    FirstKeepsExecuted(db, Invocation(action, task, via.limit, answers));
    NonStartHasRow(db, action, task, via.limit, answers);
    ExecuteIsARun(db, created, via, action, task, answers);
    var acts :| LeadsBy(acts, p.db, created + CreatedBy(p.calls), DP.Idle, via);
    RunRowsAreOk(acts, id, via.limit);
  }

  lemma RunRowsAreOk(acts: seq<DP.Action>, id: string, limit: nat)
    requires limit >= 1
    ensures var w := DP.Run(DP.Init, acts, limit); id in w.db.ops ==> DP.OpOk(w, id, limit)
  {
    DP.InitInv(limit);
    DP.RunKeepsInv(DP.Init, acts, limit);
  }

  lemma NonStartHasRow(db: Db, action: PlannerAction, task: Task, limit: nat, answers: Answers)
    requires action.id !in db.executed
    requires var p := ExecuteSpec(db, action, task, limit, answers); !p.raised && p.result.newState.None?
    ensures var p := ExecuteSpec(db, action, task, limit, answers);
            var id := if action.kind == SEND_LOCAL_FIX then SendId(action.id) else ReplanId(action.id);
            !p.result.ok && id in p.db.ops && p.db.ops[id].status == NotStarted && p.db.ops[id].kind != Kill
  {
    match action.kind
    case SEND_LOCAL_FIX =>
      SendParts(db, action, task, answers.work);
      var intent := Ensure(db, SendId(action.id), Send, task.owner, action.target, Request({LocalFixKey(task)}, action.message, "", ""));
      EffectShape(intent, SendId(action.id), 3, answers.work.reply, answers.work.seen);
    case REPLAN_SPAWN =>
      ReplanParts(db, action, task, limit, answers);
      var session := OldWorker(action, task);
      var killed := if session == "" then Effected(db, [], Raise) else KillSpec(db, session, task.owner, answers.kill);
      SpawnShape(killed.db, ReplanId(action.id), task, limit, answers);
    case _ =>
  }
}
