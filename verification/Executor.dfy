/** The executor object: it owns no durable state of its own, only the counters
    it reloads before each action. */
module Executor {
  import opened OperationStore
  import opened Contracts
  import opened ExecutorRules
  import EA = ExecutorAnswers
  import EP = ExecutorProtocol
  import DP = DispatchProtocol

  function Ceiling(maxima: map<string, nat>, key: string): nat {
    if key in maxima then maxima[key] else 0
  }

  /** The larger of two maxima, key by key. */
  function Larger(maxima: map<string, nat>, budget: map<string, nat>): map<string, nat> {
    map key | key in maxima.Keys + budget.Keys ::
      if Ceiling(maxima, key) >= Ceiling(budget, key) then Ceiling(maxima, key) else Ceiling(budget, key)
  }

  class ActionExecutor {
    const store: StateStore
    const maxSpawnAttempts: nat
    var localFixes: nat
    var replans: nat
    ghost var calls: seq<Call>              // every invocation and peer read so far
    ghost var created: multiset<string>     // processes really created
    ghost var maxima: map<string, nat>      // per budget key, the largest maximum any executed task gave it

    ghost function Course(key: string): EP.Course
      reads `maxima
    {
      EP.Course(DP.Init, maxSpawnAttempts, key, Ceiling(maxima, key))
    }

    /** The database and the processes are where some protocol run leads; for
        every counter it can be a run that commits an intent naming it only
        while the counter is below its maximum. */
    ghost predicate Valid()
      reads this, store
    {
      maxSpawnAttempts >= 1 && forall key :: EP.Leads(store.db, created, DP.Idle, Course(key))
    }

    constructor (store: StateStore, maxSpawnAttempts: nat)
      requires maxSpawnAttempts >= 1 && store.db == Db(map[], map[], map[], map[])
      ensures Valid() && this.store == store && calls == [] && created == multiset{} && maxima == map[]
    {
      this.store, this.maxSpawnAttempts := store, maxSpawnAttempts;
      localFixes, replans := 0, 0;
      calls, created, maxima := [], multiset{}, map[];
      new;
      forall key ensures EP.Leads(store.db, created, DP.Idle, Course(key)) {
        assert EP.LeadsBy([], store.db, created, DP.Idle, Course(key));
      }
    }

    method Reconcile(id: string, seen: Reads) returns (saved: Operation)
      requires id in store.db.ops
      modifies store, `calls
      ensures var e := ReconcileSpec(old(store.db), id, seen);
              store.db == e.db && calls == old(calls) + e.calls && e.outcome == Row(saved)
    {
      var op := store.db.ops[id];
      var fact := FactOf(op, seen);
      calls := calls + [ReadPeer(id, fact.status == Succeeded)];
      saved := store.OperationObserve(id, fact.status, "reconciled", fact.payload, op.request.counters);
    }

    method Effect(id: string, limit: nat, reply: Reply, seen: Reads) returns (outcome: Outcome)
      requires id in store.db.ops
      modifies store, `calls
      ensures var e := EffectSpec(old(store.db), id, limit, reply, seen);
              store.db == e.db && calls == old(calls) + e.calls && outcome == e.outcome
    {
      var op := store.db.ops[id];
      if op.status == Succeeded || op.status == Failed {
        return Row(op);
      }
      if Unresolved(op.status) {
        var saved := Reconcile(id, seen);
        return Row(saved);
      }
      var won := store.OperationClaim(id, limit);
      if !won {
        return Raise;
      }
      outcome := Dispatch(id, limit, reply, seen);
    }

    /** The claim is durable: create the process and record what came back. */
    method Dispatch(id: string, limit: nat, reply: Reply, seen: Reads) returns (outcome: Outcome)
      requires id in store.db.ops
      modifies store, `calls
      ensures var e := InvokeSpec(old(store.db), id, limit, reply, seen);
              store.db == e.db && calls == old(calls) + e.calls && outcome == e.outcome
    {
      var op := store.db.ops[id];
      var saved;
      if reply.NotCreated? {
        calls := calls + [Invoke(id, false)];
        saved := store.OperationObserve(id, if op.attempts >= limit then Failed else NotStarted,
                                        "process could not be created", None, {});
        return Row(saved);
      }
      calls := calls + [Invoke(id, true)];
      var ack := AckOf(op, reply);
      if ack.Accepted? {
        saved := store.OperationObserve(id, Succeeded, "acknowledged", Some(ack.payload), op.request.counters);
      } else if ack.Rejected? {
        saved := store.OperationObserve(id, Failed, "rejected", None, {});
      } else {
        if !ack.Silent? {
          saved := store.OperationObserve(id, InFlight, "acknowledgement lost", None, {});
        }
        saved := Reconcile(id, seen);
      }
      outcome := Row(saved);
    }

    method StopWorker(session: string, owner: string, peer: Peer) returns (outcome: Outcome)
      modifies store, `calls
      ensures var e := KillSpec(old(store.db), session, owner, peer);
              store.db == e.db && calls == old(calls) + e.calls && outcome == e.outcome
    {
      var id := KillId(session);
      var holder := if id in store.db.ops then store.db.ops[id].owner else owner;
      var op, conflict := store.EnsureOperation(id, Kill, holder, session, NoRequest);
      if conflict {
        return Raise;
      }
      if op.status != NotStarted || peer.stopped {
        op := Reconcile(id, peer.seen);
        return Row(op);
      }
      outcome := Effect(id, 3, peer.reply, peer.seen);
    }

    /** True only if the session's termination was read from the peer in this
        call; a stored success of an earlier call is read again. */
    method KillWorker(session: string, owner: string, peer: Peer) returns (raised: bool, stopped: bool)
      requires Valid()
      modifies store, `calls, `created
      ensures Valid()
      ensures session == "" ==> !raised && !stopped && store.db == old(store.db) && calls == old(calls)
      ensures session != "" ==>
                var e := KillSpec(old(store.db), session, owner, peer);
                store.db == e.db && calls == old(calls) + e.calls
                && raised == e.outcome.Raise? && stopped == KillConfirmed(e)
      ensures stopped ==> EndsInSuccessRead(calls[|old(calls)|..], KillId(session))
    {
      if session == "" {
        return false, false;
      }
      hide Ceiling, EP.Leads;
      ghost var e := KillSpec(store.db, session, owner, peer);
      forall key ensures EP.LeadsOn(e.db, created, e.calls, Course(key)) {
        EP.KillIsARun(store.db, created, Course(key), session, owner, peer);
      }
      KillShape(store.db, session, owner, peer);
      var outcome := StopWorker(session, owner, peer);
      raised := outcome.Raise?;
      stopped := outcome.Row? && outcome.op.status == Succeeded;
      created := created + EP.CreatedBy(e.calls);
      assert calls[|old(calls)|..] == e.calls;
    }

    method Spawn(id: string, task: Task, answers: Answers) returns (raised: bool, worker: Option<string>)
      modifies store, `calls
      ensures var s := SpawnSpec(old(store.db), id, task, maxSpawnAttempts, answers);
              store.db == s.db && calls == old(calls) + s.calls && raised == s.raised && worker == s.worker
    {
      var request := SpawnRequest(task, answers.marker);
      var op, conflict := store.EnsureOperation(id, Kind.Spawn, task.owner, task.project, request);
      if conflict {
        return true, None;
      }
      if op.status == NotStarted && !answers.sourceOk {
        return true, None;
      }
      var outcome := Effect(id, maxSpawnAttempts, answers.work.reply, answers.work.seen);
      if outcome.Raise? || Unresolved(outcome.op.status) {
        return true, None;
      }
      if outcome.op.status != Succeeded {
        return false, None;
      }
      if !answers.workspaceOk || outcome.op.payload.session.None? {
        return true, None;
      }
      return false, outcome.op.payload.session;
    }

    method LoadCounters(task: Task)
      modifies `localFixes, `replans
      ensures localFixes == Counter(store.db, LocalFixKey(task)) && replans == Counter(store.db, ReplanKey(task))
    {
      localFixes, replans := Counter(store.db, LocalFixKey(task)), Counter(store.db, ReplanKey(task));
    }

    method SendLocalFix(action: PlannerAction, task: Task, peer: Peer) returns (raised: bool, result: ActionResult)
      requires localFixes == Counter(store.db, LocalFixKey(task))
      modifies store, `calls, `localFixes, `replans
      ensures var p := SendLocalFixSpec(old(store.db), action, task, peer);
              store.db == p.db && calls == old(calls) + p.calls && raised == p.raised && (!raised ==> result == p.result)
    {
      result := Interrupted;
      var id := SendId(action.id);
      if (id !in store.db.ops && localFixes >= task.maxLocalFixes) || action.target == "" || action.shellish {
        return false, ActionResult(false, Some(HUMAN), None);
      }
      var op, conflict := store.EnsureOperation(id, Send, task.owner, action.target,
                                                Request({LocalFixKey(task)}, action.message, "", ""));
      if conflict {
        return true, result;
      }
      var outcome := Effect(id, 3, peer.reply, peer.seen);
      if outcome.Raise? {
        return true, result;
      }
      if outcome.op.status == NotStarted {
        return false, ActionResult(false, None, None);
      }
      if Unresolved(outcome.op.status) {
        return true, result;
      }
      LoadCounters(task);
      var ok := outcome.op.status == Succeeded;
      return false, ActionResult(ok, Some(if ok then WORKER_RETRYING else HUMAN), None);
    }

    method ReplanSpawn(action: PlannerAction, task: Task, answers: Answers) returns (raised: bool, result: ActionResult)
      requires replans == Counter(store.db, ReplanKey(task))
      modifies store, `calls, `localFixes, `replans
      ensures var p := ReplanSpec(old(store.db), action, task, maxSpawnAttempts, answers);
              store.db == p.db && calls == old(calls) + p.calls && raised == p.raised && (!raised ==> result == p.result)
    {
      result := Interrupted;
      var id := ReplanId(action.id);
      if id !in store.db.ops && replans >= task.maxReplans {
        return false, ActionResult(false, Some(HUMAN), None);
      }
      if task.parent.Some? && task.missionReplanLimit > 0 {
        var used := Counter(store.db, "mission_replans:" + task.parent.value);
        if id !in store.db.ops && used >= task.missionReplanLimit {
          return false, ActionResult(false, Some(HUMAN), None);
        }
      }
      if !answers.promptOk {
        return true, result;
      }
      raised, result := Reroute(action, task, answers);
    }

    method Reroute(action: PlannerAction, task: Task, answers: Answers) returns (raised: bool, result: ActionResult)
      modifies store, `calls, `localFixes, `replans
      ensures var p := RerouteSpec(old(store.db), action, task, maxSpawnAttempts, answers);
              store.db == p.db && calls == old(calls) + p.calls && raised == p.raised && (!raised ==> result == p.result)
    {
      hide KillSpec, ReplacedSpec;
      var session := OldWorker(action, task);
      if session == "" {
        raised, result := Replace(action, task, answers);
        return;
      }
      ghost var killed := KillSpec(store.db, session, task.owner, answers.kill);
      ghost var log := calls;
      var outcome := StopWorker(session, task.owner, answers.kill);
      assert store.db == killed.db && calls == log + killed.calls && outcome == killed.outcome;
      if outcome.Raise? || outcome.op.status != Succeeded {
        return true, Interrupted;
      }
      ghost var p := ReplacedSpec(killed.db, action, task, maxSpawnAttempts, answers);
      raised, result := Replace(action, task, answers);
      assert log + killed.calls + p.calls == log + (killed.calls + p.calls);
    }

    method Replace(action: PlannerAction, task: Task, answers: Answers) returns (raised: bool, result: ActionResult)
      modifies store, `calls, `localFixes, `replans
      ensures var p := ReplacedSpec(old(store.db), action, task, maxSpawnAttempts, answers);
              store.db == p.db && calls == old(calls) + p.calls && raised == p.raised && (!raised ==> result == p.result)
    {
      var id := ReplanId(action.id);
      var failed, worker := Spawn(id, task, answers);
      if failed {
        return true, Interrupted;
      }
      if worker.None? && id in store.db.ops && store.db.ops[id].status == NotStarted {
        return false, ActionResult(false, None, None);
      }
      LoadCounters(task);
      return false, ActionResult(worker.Some?, Some(if worker.Some? then WORKER_RUNNING else HUMAN), worker);
    }

    /** Execute one planner action, or replay its recorded result. */
    method Execute(action: PlannerAction, task: Task, answers: Answers) returns (result: ActionResult)
      requires Valid()
      modifies store, this
      ensures Valid()
      ensures var p := ExecuteSpec(old(store.db), action, task, maxSpawnAttempts, answers);
              store.db == p.db && calls == old(calls) + p.calls
              && result == (if p.raised then Interrupted else p.result)
              && created == old(created) + EP.CreatedBy(p.calls)
      ensures maxima == Larger(old(maxima), EA.BudgetOf(action.kind, task))
      ensures forall id :: created[id] <= 1
    {
      hide EA.BudgetOf, Larger, Ceiling, SendLocalFixSpec, ReplanSpec, ResumeState;
      ghost var before, had, log := store.db, created, calls;
      ghost var spec := ExecuteSpec(before, action, task, maxSpawnAttempts, answers);
      ContinuesTheRun(action, task, answers);
      maxima := Larger(maxima, EA.BudgetOf(action.kind, task));
      AtMostOneProcess(spec.db, had + EP.CreatedBy(spec.calls));
      if action.id in store.db.executed {
        var was := store.db.executed[action.id];
        created := had + EP.CreatedBy(spec.calls);
        return ActionResult(was.ok, Some(ResumeState(action.kind, was.ok)), was.worker);
      }
      LoadCounters(task);
      var raised := false;
      match action.kind {
        case CONTINUE => result := ActionResult(true, Some(WORKER_RUNNING), None);
        case SEND_LOCAL_FIX => raised, result := SendLocalFix(action, task, answers.work);
        case REPLAN_SPAWN => raised, result := ReplanSpawn(action, task, answers);
        case CANDIDATE_DONE => result := ActionResult(true, Some(GATE_PENDING), None);
        case ASK_HUMAN => result := ActionResult(true, Some(HUMAN), None);
      }
      if raised {
        result := Interrupted;
      } else if result.ok || result.newState.Some? {
        store.MarkActionExecuted(action.id, Executed(result.ok, result.worker));
      }
      created := had + EP.CreatedBy(spec.calls);
    }

    lemma ContinuesTheRun(action: PlannerAction, task: Task, answers: Answers)
      requires Valid()
      ensures var p, larger := ExecuteSpec(store.db, action, task, maxSpawnAttempts, answers), Larger(maxima, EA.BudgetOf(action.kind, task));
              forall key :: EP.LeadsOn(p.db, created, p.calls, Course(key).(max := Ceiling(larger, key)))
    {
      var p, larger := ExecuteSpec(store.db, action, task, maxSpawnAttempts, answers), Larger(maxima, EA.BudgetOf(action.kind, task));
      forall key ensures EP.LeadsOn(p.db, created, p.calls, Course(key).(max := Ceiling(larger, key))) {
        EP.LeadsWithMore(store.db, created, DP.Idle, Course(key), Ceiling(larger, key));
        EP.ExecuteIsARun(store.db, created, Course(key).(max := Ceiling(larger, key)), action, task, answers);
      }
    }

    lemma AtMostOneProcess(db: Db, now: multiset<string>)
      requires maxSpawnAttempts >= 1 && EP.Leads(db, now, DP.Idle, Course(""))
      ensures forall id :: now[id] <= 1
    {
      forall id ensures now[id] <= 1 {
        EP.ExecutorDispatchesAtMostOnce(db, now, Course(""), id);
      }
    }
  }
}
