/** What whole runs of the dispatch protocol guarantee to the controller: a stop
    that succeeded was read from the peer during the call. */
module DispatchRuns {
  import opened OperationStore
  import opened DispatchProtocol

  lemma {:induction false} RunSnoc(w: World, acts: seq<Action>, act: Action, spawnLimit: nat)
    ensures Run(w, acts + [act], spawnLimit) == Apply(Run(w, acts, spawnLimit), act, spawnLimit)
    decreases |acts|
  {
    if acts != [] {
      RunSnoc(Apply(w, acts[0], spawnLimit), acts[1..], act, spawnLimit);
      assert (acts + [act])[0] == acts[0] && (acts + [act])[1..] == acts[1..] + [act];
    } else {
      assert (acts + [act])[1..] == [];
    }
  }

  // --------------------------------------------------- a stop is a fresh fact

  /** The states a run passes through, the initial one first. */
  function History(acts: seq<Action>, spawnLimit: nat): (states: seq<World>)
    ensures |states| == |acts| + 1
    decreases |acts|
  {
    if acts == [] then [Init] else
    var n := |acts| - 1;
    var before := History(acts[..n], spawnLimit);
    before + [Apply(before[n], acts[n], spawnLimit)]
  }

  lemma {:induction false} HistoryEndsInRun(acts: seq<Action>, spawnLimit: nat)
    ensures History(acts, spawnLimit)[|acts|] == Run(Init, acts, spawnLimit)
    decreases |acts|
  {
    if acts != [] {
      var n := |acts| - 1;
      HistoryEndsInRun(acts[..n], spawnLimit);
      RunSnoc(Init, acts[..n], acts[n], spawnLimit);
      assert acts == acts[..n] + [acts[n]];
    }
  }

  /** `act` commits a success its agent has just read from the peer. */
  predicate RecordsReadSuccess(w: World, act: Action, id: string) {
    act.RecordFact? && At(w, act.a).pc == HasFact(id, Succeeded)
  }

  /** Somebody recorded such a success while agent `a` was inside the call about
      `id` that it is still in at the end of the history. */
  ghost predicate ReadDuringCall(states: seq<World>, acts: seq<Action>, a: nat, id: string)
    requires |states| == |acts| + 1
  {
    exists k :: 0 <= k < |acts|
                && RecordsReadSuccess(states[k], acts[k], id)
                && forall j | k <= j <= |acts| :: Active(At(states[j], a).pc, id)
  }

  lemma ReadDuringCallExtends(states: seq<World>, acts: seq<Action>, v: World, act: Action, a: nat, id: string)
    requires |states| == |acts| + 1 && ReadDuringCall(states, acts, a, id)
    requires Active(At(v, a).pc, id)
    ensures ReadDuringCall(states + [v], acts + [act], a, id)
  {
    var k :| 0 <= k < |acts|
             && RecordsReadSuccess(states[k], acts[k], id)
             && forall j | k <= j <= |acts| :: Active(At(states[j], a).pc, id);
    assert RecordsReadSuccess((states + [v])[k], (acts + [act])[k], id);
  }

  lemma ReadDuringCallBegins(states: seq<World>, acts: seq<Action>, v: World, act: Action, a: nat, id: string)
    requires |states| == |acts| + 1 && RecordsReadSuccess(states[|acts|], act, id)
    requires Active(At(states[|acts|], a).pc, id) && Active(At(v, a).pc, id)
    ensures ReadDuringCall(states + [v], acts + [act], a, id)
  {
    assert RecordsReadSuccess((states + [v])[|acts|], (acts + [act])[|acts|], id);
  }

  lemma ConfirmedStep(w: World, act: Action, spawnLimit: nat, a: nat, id: string)
    requires var v := At(Apply(w, act, spawnLimit), a); v.confirmed && Active(v.pc, id)
    ensures Active(At(w, a).pc, id)
    ensures At(w, a).confirmed || RecordsReadSuccess(w, act, id)
  {
  }

  lemma {:induction false} ConfirmedMeansRead(acts: seq<Action>, a: nat, id: string, spawnLimit: nat)
    requires var v := At(History(acts, spawnLimit)[|acts|], a); v.confirmed && Active(v.pc, id)
    ensures ReadDuringCall(History(acts, spawnLimit), acts, a, id)
    decreases |acts|
  {
    if acts == [] { return; }
    var n := |acts| - 1;
    var states := History(acts[..n], spawnLimit);
    var v := Apply(states[n], acts[n], spawnLimit);
    ConfirmedStep(states[n], acts[n], spawnLimit, a, id);
    assert acts[..n] + [acts[n]] == acts;
    if RecordsReadSuccess(states[n], acts[n], id) {
      ReadDuringCallBegins(states, acts[..n], v, acts[n], a, id);
    } else {
      ConfirmedMeansRead(acts[..n], a, id, spawnLimit);
      ReadDuringCallExtends(states, acts[..n], v, acts[n], a, id);
    }
  }

  /** Whenever a stop call returns success, the peer's own termination was read
      and recorded while that very call was running: a success stored by an
      earlier call is never enough. */
  lemma StopSuccessIsFresh(acts: seq<Action>, a: nat, id: string, spawnLimit: nat)
    requires spawnLimit >= 1
    requires var w := Run(Init, acts, spawnLimit);
             At(w, a).pc == Returned(id, Succeeded) && id in w.db.ops && w.db.ops[id].kind == Kill
    ensures ReadDuringCall(History(acts, spawnLimit), acts, a, id)
  {
    HistoryEndsInRun(acts, spawnLimit);
    InitInv(spawnLimit);
    RunKeepsInv(Init, acts, spawnLimit);
    ReturnedIsConfirmed(Run(Init, acts, spawnLimit), a, id, spawnLimit);
    ConfirmedMeansRead(acts, a, id, spawnLimit);
  }

  lemma ReturnedIsConfirmed(w: World, a: nat, id: string, spawnLimit: nat)
    requires Inv(w, spawnLimit) && At(w, a).pc == Returned(id, Succeeded)
    requires id in w.db.ops && w.db.ops[id].kind == Kill
    ensures At(w, a).confirmed
  {
    assert AgentOk(w, w.agents[a]);
  }

  // --------------------------------------------------------- who may dispatch

  /** Another operation of the owner stands in the way: nobody knows yet what
      became of it, and it is no approval response that was written and closed
      for good. */
  predicate InTheWay(other: Operation) {
    && (other.status == InFlight || other.status == Unknown)
    && !(other.kind == Approval && other.payload.receipt.Some?
         && other.payload.receipt.value.written && other.payload.receipt.value.closed && other.payload.receipt.value.observationOnly)
  }

  /** A call that found its operation not started gets to dispatch it if and only
      if it still is so with attempts left, and, unless it is a stop, its owner
      is neither stopped nor finished and nothing of the same owner stands in
      the way.  Winning costs one attempt and changes nothing else. */
  lemma DispatchesIff(w: World, a: nat, terminated: bool, spawnLimit: nat)
    requires At(w, a).pc.Loaded? && At(w, a).pc.snapshot == NotStarted && At(w, a).pc.id in w.db.ops
    requires !(w.db.ops[At(w, a).pc.id].kind == Kill && terminated)
    ensures var v, id := Apply(w, Proceed(a, terminated), spawnLimit), At(w, a).pc.id;
            var op := w.db.ops[id];
            && (At(v, a).pc == ClaimWon(id) <==>
                  && op.status == NotStarted && op.attempts < Limit(op.kind, spawnLimit)
                  && (op.kind == Kill ||
                      ( && (op.owner in w.db.missions ==> !w.db.missions[op.owner].stopRequested && !w.db.missions[op.owner].terminal)
                        && forall other | other in w.db.ops && other != id && w.db.ops[other].owner == op.owner :: !InTheWay(w.db.ops[other]))))
            && v.db == if At(v, a).pc == ClaimWon(id)
                       then w.db.(ops := w.db.ops[id := op.(status := InFlight, attempts := op.attempts + 1)]) else w.db
  {
  }

  // ------------------------------------------------------ what is remembered

  lemma ExecutedStep(w: World, act: Action, spawnLimit: nat, action: string)
    requires action in w.db.executed
    ensures var v := Apply(w, act, spawnLimit); action in v.db.executed && v.db.executed[action] == w.db.executed[action]
  {
    ActionCommits(w, act, spawnLimit);
    hide Apply, TxOf;
  }

  /** The first recorded result of a planner action is kept, whoever records
      again, through every interleaving and crash. */
  lemma {:induction false} FirstResultIsKept(w: World, acts: seq<Action>, spawnLimit: nat, action: string)
    requires action in w.db.executed
    ensures var v := Run(w, acts, spawnLimit); action in v.db.executed && v.db.executed[action] == w.db.executed[action]
    decreases |acts|
  {
    hide Apply;
    if acts != [] {
      ExecutedStep(w, acts[0], spawnLimit, action);
      FirstResultIsKept(Apply(w, acts[0], spawnLimit), acts[1..], spawnLimit, action);
    }
  }

  /** A requested stop is on record from then on, whatever else happens, and says
      nothing about the mission being finished. */
  lemma {:induction false} StopIsKept(w: World, acts: seq<Action>, spawnLimit: nat, mission: string)
    ensures var v := Run(Apply(w, Stop(mission), spawnLimit), acts, spawnLimit);
            && mission in v.db.missions && v.db.missions[mission].stopRequested
            && v.db.missions[mission].terminal == (mission in w.db.missions && w.db.missions[mission].terminal)
    decreases |acts|
  {
    var stopped := Apply(w, Stop(mission), spawnLimit);
    var n := |acts| - 1;
    if acts != [] {
      StopIsKept(w, acts[..n], spawnLimit, mission);
      RunSnoc(stopped, acts[..n], acts[n], spawnLimit);
      assert acts == acts[..n] + [acts[n]];
      MissionStep(Run(stopped, acts[..n], spawnLimit), acts[n], spawnLimit, mission);
    }
  }

  lemma MissionStep(w: World, act: Action, spawnLimit: nat, mission: string)
    requires mission in w.db.missions && w.db.missions[mission].stopRequested
    ensures var v := Apply(w, act, spawnLimit); mission in v.db.missions && v.db.missions[mission] == w.db.missions[mission]
  {
    ActionCommits(w, act, spawnLimit);
    hide Apply, TxOf;
  }
}
