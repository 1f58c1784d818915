/** The controller of one task: a persisted state, a re-entry branch for every
    pending state, bounded error retries, and the deterministic gate as the only
    way to finish.  Auditor, planner, verifier, peer, Git and clock are
    nondeterministic, any call may raise, and the process may be killed at any
    external call or store write. */
module ClosedLoop {
  import opened OperationStore
  import opened Contracts
  import opened ExecutorRules

  // ------------------------------------------------------------ observations

  /** What the path gate saw.  `Skipped`: its own workspace read failed. */
  datatype PathCheck = Skipped | BaseUnknown | InspectionFailed | Violating | Clean

  predicate Blocks(c: PathCheck) { c == BaseUnknown || c == InspectionFailed || c == Violating }

  /** What the path gate meets: its own read of the workspace, the frozen base,
      Git's inspection, and whether a changed path really is out of scope. */
  datatype PathReads = PathReads(again: bool, base: bool, inspected: bool, strays: bool)

  /** Everything one gate run meets. */
  datatype GateWorld = GateWorld(workspace: bool, paths: PathReads, runOk: bool)

  function CheckPaths(p: PathReads): PathCheck {
    if !p.again then Skipped
    else if !p.base then BaseUnknown
    else if !p.inspected then InspectionFailed
    else if p.strays then Violating
    else Clean
  }

  datatype Event =
    | Began
    | Workspace(resolved: bool)
    | Paths(met: PathReads)
    | GateRan(ok: bool)
    | ChangeSet(known: bool)
    | Verdict(pass: bool)
    | Planned(kind: ActionKind, recorded: ActionKind)   // what the planner chose, and the record there is now
    | Acted(kind: ActionKind, answer: ActionResult)     // what the executor was given, and its answer
    | StopAsked(confirmed: bool)                        // the worker was told to stop
    | Moved(from: ProjectState, to: ProjectState)
    | Finished
    | Struck
    | Restarted

  function GateEvents(w: GateWorld): seq<Event> {
    if !w.workspace then [Workspace(false)]
    else if Blocks(CheckPaths(w.paths)) then [Workspace(true), Paths(w.paths)]
    else [Workspace(true), Paths(w.paths), GateRan(w.runOk)]
  }

  /** Where a gate run takes a task that is waiting for its gate. */
  function GateTarget(w: GateWorld): ProjectState {
    if !w.workspace || Blocks(CheckPaths(w.paths)) then HUMAN
    else if w.runOk then DONE
    else AUDIT_PENDING
  }

  datatype Finding = NoWorkspace | Objection | Parked | Ran(ok: bool)

  function FindingOf(w: GateWorld): Finding {
    if !w.workspace then NoWorkspace else if Blocks(CheckPaths(w.paths)) then Objection else Ran(w.runOk)
  }

  // ------------------------------------------------------------- the history

  /** The persisted state is the target of the last recorded transition. */
  function StateOf(log: seq<Event>): ProjectState {
    if log == [] then TASK_READY
    else if log[|log| - 1].Moved? then log[|log| - 1].to
    else StateOf(log[..|log| - 1])
  }

  /** The action on record, which a resumption would carry out. */
  function LastRecorded(log: seq<Event>): Option<ActionKind> {
    if log == [] then None
    else if log[|log| - 1].Planned? then Some(log[|log| - 1].recorded)
    else LastRecorded(log[..|log| - 1])
  }

  predicate EndsWith(log: seq<Event>, tail: seq<Event>) {
    |tail| <= |log| && log[|log| - |tail|..] == tail
  }

  /** The gate: workspace resolved, no path objection, commands green. */
  ghost predicate GateEarned(log: seq<Event>) {
    exists p :: !Blocks(CheckPaths(p)) && EndsWith(log, [Workspace(true), Paths(p), GateRan(true)])
  }

  /** The historical verifier: also a known change set and the verdict PASS. */
  ghost predicate VerifierEarned(log: seq<Event>) {
    exists p :: !Blocks(CheckPaths(p))
      && EndsWith(log, [Workspace(true), GateRan(true), Paths(p), ChangeSet(true), Verdict(true)])
  }

  /** Every transition is legal and starts where the last one ended, and DONE is
      entered only with the evidence read immediately before. */
  ghost predicate Sound(log: seq<Event>) {
    log == [] ||
    (var before, e := log[..|log| - 1], log[|log| - 1];
     && Sound(before)
     && (e.Moved? ==> e.from == StateOf(before) && Legal(e.from, e.to)
                      && (e.to == DONE ==> GateEarned(before) || VerifierEarned(before))))
  }

  /** Unexpected errors since the last clean step or restart; the third halts
      the task and starts over. */
  function Streak(log: seq<Event>): nat {
    if log == [] then 0 else
    var before := Streak(log[..|log| - 1]);
    match log[|log| - 1]
    case Finished => 0
    case Restarted => 0
    case Struck => if before + 1 >= MAX_CONSECUTIVE_LOOP_ERRORS then 0 else before + 1
    case _ => before
  }

  const MAX_CONSECUTIVE_LOOP_ERRORS := 3

  function Moves(log: seq<Event>): nat {
    if log == [] then 0 else Moves(log[..|log| - 1]) + (if log[|log| - 1].Moved? then 1 else 0)
  }

  lemma Snoc(log: seq<Event>, e: Event)
    ensures (log + [e])[..|log|] == log && (log + [e])[|log|] == e && log <= log + [e]
  {
  }

  lemma MovedIsSound(log: seq<Event>, from: ProjectState, to: ProjectState)
    requires Sound(log) && from == StateOf(log) && Legal(from, to) && (to == DONE ==> GateEarned(log) || VerifierEarned(log))
    ensures var after := log + [Moved(from, to)];
            Sound(after) && StateOf(after) == to && Streak(after) == Streak(log) && Moves(after) == Moves(log) + 1
            && LastRecorded(after) == LastRecorded(log)
  {
    hide GateEarned, VerifierEarned, Legal;
    Snoc(log, Moved(from, to));
  }

  lemma {:induction false} SoundPrefix(log: seq<Event>, k: nat)
    requires Sound(log) && k <= |log|
    ensures Sound(log[..k])
    decreases |log|
  {
    if k < |log| {
      assert log[..|log| - 1][..k] == log[..k];
      SoundPrefix(log[..|log| - 1], k);
    } else {
      assert log[..k] == log;
    }
  }

  /** A terminal state is final: nothing is recorded after it. */
  lemma {:induction false} TerminalIsFinal(log: seq<Event>, k: nat)
    requires Sound(log) && k <= |log| && Terminal(StateOf(log[..k]))
    ensures StateOf(log) == StateOf(log[..k])
    ensures forall j | k <= j < |log| :: !log[j].Moved?
    decreases |log|
  {
    if k < |log| {
      var before := log[..|log| - 1];
      assert before[..k] == log[..k];
      TerminalIsFinal(before, k);
      forall j | k <= j < |log| - 1 ensures !log[j].Moved? { assert before[j] == log[j]; }
    } else {
      assert log[..k] == log;
    }
  }

  /** Position `i` entered DONE with its evidence, and is the last transition. */
  ghost predicate EarnedAt(log: seq<Event>, i: nat) {
    && i < |log| && log[i].Moved? && log[i].to == DONE
    && (GateEarned(log[..i]) || VerifierEarned(log[..i]))
    && forall j | i < j < |log| :: !log[j].Moved?
  }

  /** A finished task was finished by evidence: whatever the roles returned or
      raised, and wherever the process was killed and restarted, the transition
      into DONE directly follows a resolved workspace, a path gate without an
      objection and a green run, and nothing was recorded after it.  That every
      history of the controller is Sound is what the methods of TaskLoop prove. */
  lemma {:induction false} DoneIsEarned(log: seq<Event>)
    requires Sound(log) && StateOf(log) == DONE
    ensures exists i :: EarnedAt(log, i)
    decreases |log|
  {
    var before := log[..|log| - 1];
    if log[|log| - 1].Moved? {
      assert EarnedAt(log, |log| - 1);
    } else {
      DoneIsEarned(before);
      var i: nat :| EarnedAt(before, i);
      assert before[..i] == log[..i];
      forall j | i < j < |log| ensures !log[j].Moved? { if j < |before| { assert before[j] == log[j]; } }
      assert EarnedAt(log, i);
    }
  }

  // ------------------------------------------------- what a finish has audited

  /** What the path gate met last. */
  function LastPaths(log: seq<Event>): Option<PathReads> {
    if log == [] then None
    else if log[|log| - 1].Paths? then Some(log[|log| - 1].met)
    else LastPaths(log[..|log| - 1])
  }

  /** The changed paths were compared with the frozen base and all in scope. */
  predicate Audited(p: PathReads) { p.again && p.base && p.inspected && !p.strays }

  lemma {:induction false} LastPathsAfter(log: seq<Event>, k: nat, p: PathReads)
    requires k < |log| && log[k] == Paths(p) && forall j | k < j < |log| :: !log[j].Paths?
    ensures LastPaths(log) == Some(p)
    decreases |log|
  {
    if k < |log| - 1 {
      assert log[..|log| - 1][k] == log[k];
      LastPathsAfter(log[..|log| - 1], k, p);
    }
  }

  lemma EarnedPaths(log: seq<Event>) returns (p: PathReads)
    requires GateEarned(log) || VerifierEarned(log)
    ensures LastPaths(log) == Some(p) && !Blocks(CheckPaths(p))
  {
    if GateEarned(log) {
      p :| !Blocks(CheckPaths(p)) && EndsWith(log, [Workspace(true), Paths(p), GateRan(true)]);
      assert forall j | |log| - 3 <= j < |log| :: log[j] == log[|log| - 3..][j - (|log| - 3)];
      LastPathsAfter(log, |log| - 2, p);
    } else {
      p :| !Blocks(CheckPaths(p))
           && EndsWith(log, [Workspace(true), GateRan(true), Paths(p), ChangeSet(true), Verdict(true)]);
      assert forall j | |log| - 5 <= j < |log| :: log[j] == log[|log| - 5..][j - (|log| - 5)];
      LastPathsAfter(log, |log| - 3, p);
    }
  }

  lemma {:induction false} EntryIsEarned(log: seq<Event>, i: nat)
    requires Sound(log) && i < |log| && log[i].Moved? && log[i].to == DONE
    ensures GateEarned(log[..i]) || VerifierEarned(log[..i])
  {
    SoundPrefix(log, i + 1);
    assert log[..i + 1][..i] == log[..i];
  }

  /** In every history an entry into DONE has audited the changed paths if and
      only if the path gate's own read of the workspace succeeded: any other
      doubt stops the task, that one lets it pass. */
  lemma DoneIsAuditedIff(log: seq<Event>, i: nat)
    requires Sound(log) && i < |log| && log[i].Moved? && log[i].to == DONE
    ensures LastPaths(log[..i]).Some?
    ensures var p := LastPaths(log[..i]).value;
            && (Audited(p) <==> p.again) && (p.strays ==> !p.again)
            && (CheckPaths(p) == Clean || CheckPaths(p) == Skipped) && (Audited(p) <==> CheckPaths(p) == Clean)
  {
    EntryIsEarned(log, i);
    var p := EarnedPaths(log[..i]);
  }

  /** The gate's reads and its transition are the next things recorded. */
  predicate GateDecided(w: GateWorld, before: seq<Event>, after: seq<Event>) {
    before + GateEvents(w) + [Moved(GATE_PENDING, GateTarget(w))] <= after
  }

  /** Exactly when a gate run that is recorded finishes the task. */
  lemma GatePassesIff(w: GateWorld, before: seq<Event>, after: seq<Event>)
    requires Sound(after) && GateDecided(w, before, after)
    ensures (exists j :: |before| <= j <= |before| + 3 && j < |after| && after[j] == Moved(GATE_PENDING, DONE))
            <==> w.workspace && w.runOk && (!w.paths.again || Audited(w.paths))
  {
    var run := before + GateEvents(w) + [Moved(GATE_PENDING, GateTarget(w))];
    var at := |before| + |GateEvents(w)|;
    assert run[at] == Moved(GATE_PENDING, GateTarget(w)) && after[at] == run[at];
    assert forall j | |before| <= j < at :: after[j] == run[j] == GateEvents(w)[j - |before|];
    if GateTarget(w) == HUMAN {
      assert after[..at + 1] == run;
      AfterHuman(run, after);
    }
  }

  lemma AfterHuman(run: seq<Event>, after: seq<Event>)
    requires Sound(after) && run <= after && run != [] && run[|run| - 1].Moved? && run[|run| - 1].to == HUMAN
    ensures forall j | |run| <= j < |after| :: !after[j].Moved?
  {
    assert after[..|run|] == run;
    TerminalIsFinal(after, |run|);
  }

  // ------------------------------------------------------------- exceptions

  datatype Fault = UnknownEffect | ProtocolFault | UnexpectedError

  datatype Outcome = Ok | Threw(fault: Fault) | Killed
  {
    predicate IsFailure() { !Ok? }
    function PropagateFailure(): Outcome requires IsFailure() { this }
  }

  /** How one call of `step` ended for its caller. */
  datatype StepEnd = Normal | Handed | Faulted | Escaped | Died

  // ------------------------------------------------------------ budget halts

  /** HUMAN where it is legal, FAILED otherwise, nothing when neither is. */
  function HaltTarget(s: ProjectState): Option<ProjectState> {
    if Legal(s, HUMAN) then Some(HUMAN) else if Legal(s, FAILED) then Some(FAILED) else None
  }

  lemma HaltAlwaysReachesHuman(s: ProjectState)
    ensures HaltTarget(s) == if Terminal(s) then None else Some(HUMAN)
  {
  }

  function PendingOf(kind: ActionKind): ProjectState {
    match kind
    case SEND_LOCAL_FIX => LOCAL_FIX_PENDING
    case REPLAN_SPAWN => REPLAN_PENDING
    case CANDIDATE_DONE => GATE_PENDING
    case CONTINUE => WORKER_RUNNING
    case ASK_HUMAN => HUMAN
  }

  lemma PlannerReachesAnyAction(kind: ActionKind)
    ensures Legal(PLANNER_PENDING, PendingOf(kind)) && Decided(PendingOf(kind))
  {
  }

  /** The state in which the executor is called for this kind of action. */
  function Entered(s: ProjectState, kind: ActionKind): ProjectState {
    if Legal(s, PendingOf(kind)) then PendingOf(kind) else s
  }

  /** The state an executed action leaves: the answer's, when that is legal. */
  function AfterAction(s: ProjectState, kind: ActionKind, r: ActionResult): ProjectState {
    if r.newState.Some? && Legal(Entered(s, kind), r.newState.value) then r.newState.value else Entered(s, kind)
  }

  function Move(from: ProjectState, to: ProjectState): seq<Event> { if from == to then [] else [Moved(from, to)] }

  /** Everything recorded of one action carried out in state `s`. */
  function ActionEvents(s: ProjectState, kind: ActionKind, r: ActionResult): seq<Event> {
    Move(s, Entered(s, kind)) + [Acted(kind, r)] + Move(Entered(s, kind), AfterAction(s, kind, r))
  }

  /** Next, an action of this kind was carried out in state `s`, with an answer
      the executor can give. */
  ghost predicate Carried(kind: ActionKind, s: ProjectState, before: seq<Event>, after: seq<Event>) {
    exists r :: CarriedAs(kind, r, s, before, after)
  }

  /** An accepted candidate goes to its gate in the same call. */
  ghost predicate CarriedAs(kind: ActionKind, r: ActionResult, s: ProjectState, before: seq<Event>, after: seq<Event>) {
    var done := before + ActionEvents(s, kind, r);
    && Admits(kind, r) && done <= after
    && (kind == CANDIDATE_DONE && r.ok && AfterAction(s, kind, r) == GATE_PENDING ==> exists w :: GateDecided(w, done, after))
  }

  /** Nothing but this action was carried out, its answer's state is entered and
      its answer's worker, if it names one, is bound. */
  ghost predicate Ends(kind: ActionKind, s: ProjectState, bound: Option<string>, before: seq<Event>, after: seq<Event>,
                       state: ProjectState, worker: Option<string>) {
    exists r :: Admits(kind, r) && after == before + ActionEvents(s, kind, r) && state == AfterAction(s, kind, r)
                && worker == if r.worker.Some? then r.worker else bound
  }

  /** Next, the planner chose an action and just that one was carried out.  It is
      on record, unless an earlier choice for the same audit already was. */
  ghost predicate PlannedAndCarried(before: seq<Event>, after: seq<Event>) {
    exists kind, recorded :: (recorded == kind || LastRecorded(before) == Some(recorded))
                             && Carried(kind, PLANNER_PENDING, before + [Planned(kind, recorded)], after)
  }

  /** Evidence was gathered in state `s`, then the planner was asked. */
  ghost predicate AuditedAndPlanned(s: ProjectState, before: seq<Event>, after: seq<Event>) {
    exists mid :: before <= mid && Moves(mid) == Moves(before) && PlannedAndCarried(mid + Move(s, PLANNER_PENDING), after)
  }

  lemma NoSelfMove(s: ProjectState)
    ensures !Legal(s, s)
  {
  }

  lemma ChoiceIsCarried(kind: ActionKind, recorded: ActionKind, before: seq<Event>, after: seq<Event>)
    requires recorded == kind || LastRecorded(before) == Some(recorded)
    requires Carried(kind, PLANNER_PENDING, before + [Planned(kind, recorded)], after)
    ensures PlannedAndCarried(before, after)
  {
  }

  lemma CarriedGrows(kind: ActionKind, s: ProjectState, before: seq<Event>, after: seq<Event>, more: seq<Event>)
    requires Carried(kind, s, before, after) && after <= more
    ensures Carried(kind, s, before, more)
  {
    var r :| CarriedAs(kind, r, s, before, after);
    var done := before + ActionEvents(s, kind, r);
    if w :| GateDecided(w, done, after) { assert GateDecided(w, done, more); }
    assert CarriedAs(kind, r, s, before, more);
  }

  lemma PlannedGrows(before: seq<Event>, after: seq<Event>, more: seq<Event>)
    requires PlannedAndCarried(before, after) && after <= more
    ensures PlannedAndCarried(before, more)
  {
    var kind, recorded :| (recorded == kind || LastRecorded(before) == Some(recorded))
                          && Carried(kind, PLANNER_PENDING, before + [Planned(kind, recorded)], after);
    CarriedGrows(kind, PLANNER_PENDING, before + [Planned(kind, recorded)], after, more);
  }

  lemma AuditedGrows(s: ProjectState, before: seq<Event>, after: seq<Event>, more: seq<Event>)
    requires AuditedAndPlanned(s, before, after) && after <= more
    ensures AuditedAndPlanned(s, before, more)
  {
    var mid :| before <= mid && Moves(mid) == Moves(before) && PlannedAndCarried(mid + Move(s, PLANNER_PENDING), after);
    PlannedGrows(mid + Move(s, PLANNER_PENDING), after, more);
  }

  /** The bound worker was told to stop, then the task went to a human. */
  predicate Halted(bound: bool, s: ProjectState, before: seq<Event>, after: seq<Event>) {
    if !bound then after == before + [Moved(s, HUMAN)]
    else after == before + [StopAsked(true)] + [Moved(s, HUMAN)] || after == before + [StopAsked(false)] + [Moved(s, HUMAN)]
  }

  /** What a decision in a state that waits for a role or an action consists of,
      unless the task is halted instead: the recorded action is carried out
      again, the planner is asked and its choice carried out, evidence is
      gathered first, or the historical verifier decides. */
  ghost predicate Resumed(s: ProjectState, bound: bool, audited: bool, planned: Option<ActionKind>, verdict: Option<bool>,
                          before: seq<Event>, after: seq<Event>) {
    Halted(bound, s, before, after) ||
    ( && (Pending(s) && audited ==> planned.Some? && Carried(planned.value, s, before, after))
      && (s == PLANNER_PENDING && audited ==> PlannedAndCarried(before, after))
      && (s == AUDIT_PENDING ==> AuditedAndPlanned(s, before, after))
      && (s == VERIFIER_PENDING ==> VerifierDecided(verdict, before, after))
      && (s == GATE_PENDING ==> exists w :: GateDecided(w, before, after))
      && (s == WORKER_RETRYING ==> after == before || before + [Moved(s, AUDIT_PENDING)] <= after))
  }

  /** Everything the historical verifier meets, up to its first doubt. */
  function VerifierEvents(w: GateWorld, known: bool, pass: bool): seq<Event> {
    if !w.workspace then [Workspace(false)]
    else if !w.runOk then [Workspace(true), GateRan(false)]
    else if Blocks(CheckPaths(w.paths)) then [Workspace(true), GateRan(true), Paths(w.paths)]
    else if !known then [Workspace(true), GateRan(true), Paths(w.paths), ChangeSet(false)]
    else [Workspace(true), GateRan(true), Paths(w.paths), ChangeSet(true), Verdict(pass)]
  }

  /** Any doubt before the verdict goes to a human. */
  function VerifierTarget(w: GateWorld, known: bool, pass: bool): ProjectState {
    if !w.workspace || !w.runOk || Blocks(CheckPaths(w.paths)) || !known then HUMAN
    else if pass then DONE
    else AUDIT_PENDING
  }

  /** Next come the verifier's reads, a saved verdict in place of a fresh one,
      and the transition they call for. */
  ghost predicate VerifierDecided(prior: Option<bool>, before: seq<Event>, after: seq<Event>) {
    exists w, known, pass :: (prior.Some? ==> pass == prior.value)
      && before + VerifierEvents(w, known, pass) + [Moved(VERIFIER_PENDING, VerifierTarget(w, known, pass))] <= after
  }

  /** Any result the executor can return for this kind of action. */
  function AnyResult(kind: ActionKind, wish: ActionResult): (r: ActionResult)
    ensures Admits(kind, r) && (Admits(kind, wish) ==> r == wish)
  {
    if Admits(kind, wish) then wish else Interrupted
  }

  /** States in which a step always decides something. */
  predicate Deciding(s: ProjectState) {
    s == AUDIT_PENDING || s == PLANNER_PENDING || s == VERIFIER_PENDING || s == GATE_PENDING
  }

  /** States in which a recorded action waits to be carried out. */
  predicate Pending(s: ProjectState) { s == LOCAL_FIX_PENDING || s == REPLAN_PENDING }

  predicate Decided(s: ProjectState) { s != AUDIT_PENDING && s != PLANNER_PENDING && s != VERIFIER_PENDING }

  class TaskLoop {
    // durable
    var state: ProjectState
    var stored: Option<string>
    var audited: bool
    var planned: Option<ActionKind>
    var verdicts: map<Option<string>, bool>
    // lost when the process dies
    var worker: Option<string>
    var streak: nat
    const dryRun: bool
    const holdSpawn: bool
    /** The outside world raises nothing and does not kill the process. */
    const calm: bool
    ghost var log: seq<Event>

    ghost predicate Valid() reads this {
      state == StateOf(log) && Sound(log) && streak == Streak(log) && streak < MAX_CONSECUTIVE_LOOP_ERRORS
      && planned == LastRecorded(log)
    }

    /** Every state that waits for a role or an action has the record its
        resumption reads. */
    predicate Resumable() reads this {
      && (state == PLANNER_PENDING ==> audited)
      && (state == LOCAL_FIX_PENDING || state == REPLAN_PENDING ==> audited && planned.Some?)
    }

    constructor (dryRun: bool, holdSpawn: bool, calm: bool, worker: Option<string>)
      ensures Valid() && log == [] && this.dryRun == dryRun && this.holdSpawn == holdSpawn && this.calm == calm
      ensures Resumable() && this.worker == worker && stored == worker
    {
      this.dryRun, this.holdSpawn, this.calm, this.worker, this.stored := dryRun, holdSpawn, calm, worker, worker;
      state, audited, planned, verdicts, streak, log := TASK_READY, false, None, map[], 0, [];
    }

    /** Take over what an earlier process left behind; a history of an earlier
        version may wait in VERIFIER_PENDING, which nothing enters any more. */
    constructor Recover(dryRun: bool, holdSpawn: bool, calm: bool, stored: Option<string>, audited: bool,
                        planned: Option<ActionKind>, verdicts: map<Option<string>, bool>, history: seq<Event>)
      requires Sound(history) && planned == LastRecorded(history)
      ensures Valid() && log == history + [Restarted] && state == StateOf(history) && worker == stored == this.stored
      ensures this.dryRun == dryRun && this.holdSpawn == holdSpawn && this.calm == calm
    {
      Snoc(history, Restarted);
      this.dryRun, this.holdSpawn, this.calm, this.worker, this.stored := dryRun, holdSpawn, calm, stored, stored;
      this.state, this.audited, this.planned, this.verdicts := StateOf(history), audited, planned, verdicts;
      streak, log := 0, history + [Restarted];
    }

    // ------------------------------------------------------------ primitives

    ghost method Note(e: Event)
      requires Valid() && !e.Planned? && !e.Moved? && !e.Finished? && !e.Struck? && !e.Restarted?
      modifies `log
      ensures Valid() && log == old(log) + [e] && Moves(log) == Moves(old(log))
    {
      Snoc(log, e);
      log := log + [e];
    }

    /** One read or store write of the outside world: it may raise anything, or
        be the last thing the process does. */
    method External() returns (o: Outcome)
      ensures calm ==> o.Ok?
    {
      o := *;
      if calm { o := Ok; }
    }

    method Transition(to: ProjectState) returns (o: Outcome)
      requires Valid()
      requires to == DONE ==> GateEarned(log) || VerifierEarned(log)
      modifies `state, `log
      ensures Valid()
      ensures o.Ok? ==> Legal(old(state), to) && state == to
      ensures o.Ok? ==> log == old(log) + [Moved(old(state), to)] && Moves(log) == Moves(old(log)) + 1
      ensures !o.Ok? ==> state == old(state) && log == old(log)
      ensures calm && Legal(old(state), to) ==> o.Ok?
    {
      hide Sound, StateOf, Streak, LastRecorded, Moves, GateEarned, VerifierEarned, Legal;
      if !Legal(state, to) { return Threw(UnexpectedError); }
      :- External();
      MovedIsSound(log, state, to);
      log := log + [Moved(state, to)];
      state := to;
      return Ok;
    }

    /** The workspace of the bound worker; a read the peer refuses is None. */
    method ReadWorkspace(there: bool) returns (o: Outcome, resolved: bool)
      ensures calm ==> o.Ok?
      ensures resolved == (worker.Some? && there)
    {
      resolved := worker.Some? && there;
      if worker.None? { return Ok, resolved; }
      o := External();
    }

    /** Any halt stops the worker first, and reports a stop it cannot confirm. */
    method Halt() returns (o: Outcome)
      requires Valid()
      modifies `state, `log
      ensures Valid() && old(log) <= log && Moves(log) >= Moves(old(log))
      ensures o.Ok? && !Terminal(old(state)) ==>
                Halted(worker.Some? && !dryRun, old(state), old(log), log) && Moves(log) > Moves(old(log))
      ensures o.Ok? ==> Terminal(state)
      ensures state == old(state) || state == HUMAN
    {
      HaltAlwaysReachesHuman(state);
      if worker.Some? && !dryRun {
        var stopped: bool := *;
        Note(StopAsked(stopped));
        if !stopped { :- External(); }
      }
      if HaltTarget(state).Some? {
        :- Transition(HaltTarget(state).value);
      }
      return Ok;
    }

    // --------------------------------------------------------------- the gate

    /** The full change set against the frozen base; any doubt but an
        unreadable workspace is an objection. */
    method PathViolations(p: PathReads) returns (o: Outcome, seen: PathCheck)
      requires Valid()
      modifies `log
      ensures Valid() && old(log) <= log && Moves(log) == Moves(old(log)) && (calm ==> o.Ok?)
      ensures o.Ok? ==> seen == CheckPaths(p) && log == old(log) + [Paths(p)]
    {
      seen := Clean;
      if !p.again { seen := Skipped; }
      else if !p.base { seen := BaseUnknown; }
      else if !p.inspected { seen := InspectionFailed; }
      else if p.strays { seen := Violating; }
      :- External();
      Note(Paths(p));
      return Ok, seen;
    }

    /** The gate as this task meets it: without a worker there is no workspace. */
    function Met(w: GateWorld): GateWorld reads `worker { w.(workspace := worker.Some? && w.workspace) }

    /** Everything a gate run reads, in order, up to the first objection. */
    method ReadGate(w: GateWorld) returns (o: Outcome, found: Finding)
      requires Valid()
      modifies `log
      ensures Valid() && old(log) <= log && Moves(log) == Moves(old(log)) && (calm ==> o.Ok?)
      ensures o.Ok? && found != Parked ==> log == old(log) + GateEvents(Met(w)) && found == FindingOf(Met(w))
      ensures o.Ok? && found == Ran(true) ==> GateEarned(log)
      ensures o.Ok? && found == Parked ==> dryRun
    {
      hide Sound, StateOf, Streak, LastRecorded, GateEarned, Moves, CheckPaths;
      ghost var start := log;
      found := NoWorkspace;
      var resolved :- ReadWorkspace(w.workspace);
      Note(Workspace(resolved));
      if !resolved { return Ok, NoWorkspace; }
      var seen :- PathViolations(w.paths);
      if Blocks(seen) {
        :- External();
        return Ok, Objection;
      }
      if dryRun { return Ok, Parked; }
      :- External();
      Note(GateRan(w.runOk));
      if w.runOk { PassEarns(start, w.paths, log); }
      :- External();
      return Ok, Ran(w.runOk);
    }

    /** Deterministic PASS finishes the task; anything else never does. */
    method RunGate(w: GateWorld, fuel: nat) returns (o: Outcome)
      requires Valid()
      modifies `state, `log, `worker, `stored, `audited, `planned, `verdicts
      ensures old(Resumable()) ==> Resumable()
      ensures o.Ok? && old(worker == stored) ==> worker == stored
      ensures Valid() && old(log) <= log && Moves(log) >= Moves(old(log))
      ensures o.Ok? && !dryRun && Decided(old(state)) ==> Decided(state)
      ensures o.Ok? && !dryRun && old(state) == GATE_PENDING ==>
                Moves(log) > Moves(old(log)) && GateDecided(old(Met(w)), old(log), log)
      ensures calm && !dryRun && old(state) == GATE_PENDING && GateTarget(old(Met(w))) == DONE ==>
                o.Ok? && log == old(log) + GateEvents(old(Met(w))) + [Moved(GATE_PENDING, DONE)]
      ensures (old(audited) ==> audited) && (old(planned).Some? ==> planned.Some?)
      decreases fuel, 4
    {
      hide Sound, StateOf, Streak, LastRecorded, GateEarned, VerifierEarned, GateEvents, Moves, CheckPaths;
      var found :- ReadGate(w);
      match found
      case Parked => return Ok;
      case Ran(ok) =>
        var target := if ok then DONE else AUDIT_PENDING;
        if Legal(state, target) {
          :- Transition(target);
          assert old(state) == GATE_PENDING ==> GateDecided(old(Met(w)), old(log), log);
        }
        if ok { return Ok; }
        o := AuditFailure(fuel);
      case _ =>
        :- Transition(HUMAN);
        return Ok;
    }

    /** A red gate is audited like a completion. */
    method AuditFailure(fuel: nat) returns (o: Outcome)
      requires Valid()
      modifies `state, `log, `worker, `stored, `audited, `planned, `verdicts
      ensures old(Resumable()) ==> Resumable()
      ensures o.Ok? && old(worker == stored) ==> worker == stored
      ensures Valid() && old(log) <= log && Moves(log) >= Moves(old(log))
      ensures o.Ok? && !dryRun ==> Decided(state)
      ensures o.Ok? && !dryRun ==> PlannedAndCarried(old(log) + Move(old(state), PLANNER_PENDING), log)
      ensures (old(audited) ==> audited) && (old(planned).Some? ==> planned.Some?)
      decreases fuel, 3
    {
      hide Sound, StateOf, Streak, LastRecorded, GateEarned, VerifierEarned, Moves, PlannedAndCarried;
      :- External();
      audited := true;
      o := ToPlanner(fuel);
    }

    // ------------------------------------------------- planner and executor

    /** Ask the planner, record its choice unless this audit already has one,
        and carry out what it chose. */
    method ToPlanner(fuel: nat) returns (o: Outcome)
      requires Valid() && audited
      modifies `state, `log, `worker, `stored, `audited, `planned, `verdicts
      ensures old(Resumable()) ==> Resumable()
      ensures o.Ok? && old(worker == stored) ==> worker == stored
      ensures Valid() && old(log) <= log && Moves(log) >= Moves(old(log))
      ensures o.Ok? && !dryRun ==> Decided(state) && Moves(log) > Moves(old(log))
      ensures o.Ok? ==> planned.Some?
      ensures audited && (old(planned).Some? ==> planned.Some?)
      ensures o.Ok? ==> old(state) == PLANNER_PENDING || Legal(old(state), PLANNER_PENDING)
      ensures o.Ok? ==> old(log) + Move(old(state), PLANNER_PENDING) <= log
      ensures o.Ok? && !dryRun ==> PlannedAndCarried(old(log) + Move(old(state), PLANNER_PENDING), log)
      decreases fuel, 2
    {
      hide Sound, StateOf, Streak, LastRecorded, GateEarned, VerifierEarned, Moves, Carried;
      if state != PLANNER_PENDING {
        :- Transition(PLANNER_PENDING);
      }
      ghost var asked := old(log) + Move(old(state), PLANNER_PENDING);
      assert log == asked;
      :- External();
      var kind: ActionKind := *;
      :- External();
      Record(kind);
      ghost var recorded := planned.value;
      o := Perform(kind, fuel);
      if o.Ok? && !dryRun { ChoiceIsCarried(kind, recorded, asked, log); }
    }

    /** One record per audit: a choice made again for an audit that already has
        one, as after a crash, leaves the first on record. */
    method Record(kind: ActionKind)
      requires Valid()
      modifies `planned, `log
      ensures Valid() && planned.Some? && log == old(log) + [Planned(kind, planned.value)] && Moves(log) == Moves(old(log))
      ensures planned.value == kind || old(planned) == planned
    {
      var kept: bool := *;
      if planned.None? || !kept { planned := Some(kind); }
      Snoc(log, Planned(kind, planned.value));
      log := log + [Planned(kind, planned.value)];
    }

    /** Enter the action's pending state where that is legal. */
    method Enter(kind: ActionKind) returns (o: Outcome)
      requires Valid()
      modifies `state, `log
      ensures Valid() && Moves(log) >= Moves(old(log))
      ensures o.Ok? ==> state == Entered(old(state), kind) && log == old(log) + Move(old(state), state)
      ensures !o.Ok? ==> state == old(state) && log == old(log)
      ensures o.Ok? && old(state) == PLANNER_PENDING ==> Moves(log) > Moves(old(log))
    {
      hide Sound, StateOf, Streak, LastRecorded, GateEarned, VerifierEarned, Moves;
      PlannerReachesAnyAction(kind);
      NoSelfMove(state);
      if Legal(state, PendingOf(kind)) {
        :- Transition(PendingOf(kind));
      }
      return Ok;
    }

    /** Execute the action in its pending state and follow its result. */
    method Follow(kind: ActionKind) returns (o: Outcome, r: ActionResult)
      requires Valid()
      modifies `state, `log
      ensures Valid() && old(log) <= log && Moves(log) >= Moves(old(log)) && Admits(kind, r)
      ensures old(Resumable()) && audited && planned.Some? ==> Resumable()
      ensures o.Ok? && (old(state) == PLANNER_PENDING || Decided(old(state))) ==> Decided(state)
      ensures o.Ok? && old(state) == PLANNER_PENDING ==> Moves(log) > Moves(old(log))
      ensures o.Ok? ==> log == old(log) + ActionEvents(old(state), kind, r) && state == AfterAction(old(state), kind, r)
    {
      hide Sound, StateOf, Streak, LastRecorded, GateEarned, VerifierEarned, Moves;
      var wish: ActionResult := *;
      r := AnyResult(kind, wish);
      PlannerReachesAnyAction(kind);
      :- Enter(kind);
      NoSelfMove(state);
      hide Legal;
      :- External();
      Note(Acted(kind, r));
      if r.newState.Some? && Legal(state, r.newState.value) {
        :- Transition(r.newState.value);
      }
      return Ok, r;
    }

    /** The new worker of a replan is written back after the transition: a
        process that dies before the store write leaves the old one bound. */
    method Reroute(sid: Option<string>) returns (o: Outcome)
      modifies `worker, `stored
      ensures worker == if sid.Some? then sid else old(worker)
      ensures stored == old(stored) || stored == sid
      ensures o.Ok? ==> stored == if sid.Some? then sid else old(stored)
    {
      if sid.None? { return Ok; }
      worker := sid;
      :- External();
      stored := sid;
      o := External();
    }

    /** Carry the planner's action out; a candidate goes to the gate. */
    method Perform(kind: ActionKind, fuel: nat) returns (o: Outcome)
      requires Valid() && audited && planned.Some?
      modifies `state, `log, `worker, `stored, `audited, `planned, `verdicts
      ensures old(Resumable()) ==> Resumable()
      ensures o.Ok? && old(worker == stored) ==> worker == stored
      ensures Valid() && old(log) <= log && Moves(log) >= Moves(old(log))
      ensures o.Ok? && !dryRun && (old(state) == PLANNER_PENDING || Decided(old(state))) ==> Decided(state)
      ensures o.Ok? && !dryRun && old(state) == PLANNER_PENDING ==> Moves(log) > Moves(old(log))
      ensures o.Ok? && !dryRun ==> Carried(kind, old(state), old(log), log)
      ensures o.Ok? && !dryRun && kind != CANDIDATE_DONE ==> Ends(kind, old(state), old(worker), old(log), log, state, worker)
      ensures audited && planned.Some?
      decreases fuel, 1
    {
      hide Sound, StateOf, Streak, LastRecorded, GateEarned, VerifierEarned, Moves, ActionEvents, AfterAction, Entered;
      if dryRun { return Ok; }
      var r :- Follow(kind);
      :- Reroute(r.worker);
      :- External();
      ghost var done := old(log) + ActionEvents(old(state), kind, r);
      if kind != CANDIDATE_DONE || !r.ok {
        assert CarriedAs(kind, r, old(state), old(log), log);
        return Ok;
      }
      if fuel == 0 { return Threw(UnexpectedError); }
      var w: GateWorld := *;
      ghost var met := Met(w);
      assert log == done;
      o := RunGate(w, fuel - 1);
      assert o.Ok? ==> CarriedAs(kind, r, old(state), old(log), log) by {
        assert o.Ok? && AfterAction(old(state), kind, r) == GATE_PENDING ==> GateDecided(met, done, log);
      }
    }

    /** Re-run the planner for the audit that survived, or audit again. */
    method ResumePlanner(fuel: nat) returns (o: Outcome)
      requires Valid()
      modifies `state, `log, `worker, `stored, `audited, `planned, `verdicts
      ensures old(Resumable()) ==> Resumable()
      ensures o.Ok? && old(worker == stored) ==> worker == stored
      ensures Valid() && old(log) <= log && Moves(log) >= Moves(old(log))
      ensures o.Ok? && !dryRun ==> Decided(state)
      ensures o.Ok? && !dryRun && !Terminal(old(state)) ==> Moves(log) > Moves(old(log))
      ensures o.Ok? && old(audited) ==> old(state) == PLANNER_PENDING || Legal(old(state), PLANNER_PENDING)
      ensures o.Ok? && !dryRun && old(audited) ==> PlannedAndCarried(old(log) + Move(old(state), PLANNER_PENDING), log)
    {
      hide Sound, StateOf, Streak, LastRecorded, GateEarned, VerifierEarned, Moves, PlannedAndCarried;
      if !audited {
        if state == PLANNER_PENDING && Legal(state, WORKER_RUNNING) {
          :- Transition(WORKER_RUNNING);
        }
        o := CompletionAudit(fuel);
        return;
      }
      :- External();
      o := ToPlanner(fuel);
    }

    /** Re-execute the recorded action, whatever it is; the executor replays a
        finished one.  Without a record there is nothing to resume from: the
        planner cannot be asked in a pending state. */
    method ResumeAction(fuel: nat) returns (o: Outcome)
      requires Valid()
      modifies `state, `log, `worker, `stored, `audited, `planned, `verdicts
      ensures old(Resumable()) ==> Resumable()
      ensures o.Ok? && old(worker == stored) ==> worker == stored
      ensures Valid() && old(log) <= log && Moves(log) >= Moves(old(log))
      ensures o.Ok? && !dryRun && Decided(old(state)) ==> Decided(state)
      ensures o.Ok? && !dryRun && old(planned).Some? ==> old(audited) && Carried(old(planned).value, old(state), old(log), log)
      ensures o.Ok? && !dryRun && old(planned).Some? && old(planned).value != CANDIDATE_DONE ==>
                Ends(old(planned).value, old(state), old(worker), old(log), log, state, worker)
      ensures o.Ok? && old(planned).None? && old(audited) ==> !Pending(old(state))
    {
      hide Sound, StateOf, Streak, LastRecorded, GateEarned, VerifierEarned, Moves, Carried, Ends;
      if planned.None? {
        o := ResumePlanner(fuel);
        return;
      }
      if !audited { return Threw(ProtocolFault); }
      :- External();
      o := Perform(planned.value, fuel);
    }

    // ------------------------------------------------------------- the audits

    /** The acceptance commands, run for evidence only; an error there is no
        evidence, not a failure. */
    method Capture() returns (o: Outcome)
      requires Valid()
      modifies `log
      ensures Valid() && old(log) <= log && Moves(log) == Moves(old(log))
    {
      var there: bool := *;
      var resolved :- ReadWorkspace(there);
      var run: Option<bool> := *;
      if resolved && run.Some? { Note(GateRan(run.value)); }
      return Ok;
    }

    method CompletionAudit(fuel: nat) returns (o: Outcome)
      requires Valid()
      modifies `state, `log, `worker, `stored, `audited, `planned, `verdicts
      ensures old(Resumable()) ==> Resumable()
      ensures o.Ok? && old(worker == stored) ==> worker == stored
      ensures Valid() && old(log) <= log && Moves(log) >= Moves(old(log))
      ensures o.Ok? && !dryRun ==> Decided(state)
      ensures o.Ok? && !dryRun && !Terminal(old(state)) ==> Moves(log) > Moves(old(log))
      ensures o.Ok? && old(state) != AUDIT_PENDING && Legal(old(state), AUDIT_PENDING) ==>
                old(log) + [Moved(old(state), AUDIT_PENDING)] <= log
      ensures o.Ok? && !dryRun && old(state) == AUDIT_PENDING ==> AuditedAndPlanned(AUDIT_PENDING, old(log), log)
    {
      hide Sound, StateOf, Streak, LastRecorded, GateEarned, VerifierEarned, Moves, PlannedAndCarried;
      if state != AUDIT_PENDING {
        if Legal(state, AUDIT_PENDING) {
          :- Transition(AUDIT_PENDING);
        } else {
          o := Halt();
          return;
        }
      }
      :- Capture();
      :- External();
      audited := true;
      o := ToPlanner(fuel);
    }

    /** One aggregated audit for one burst of alerts. */
    method HandleAlerts(fuel: nat) returns (o: Outcome)
      requires Valid()
      modifies `state, `log, `worker, `stored, `audited, `planned, `verdicts
      ensures old(Resumable()) ==> Resumable()
      ensures o.Ok? && old(worker == stored) ==> worker == stored
      ensures Valid() && old(log) <= log && Moves(log) >= Moves(old(log))
    {
      hide Sound, StateOf, Streak, LastRecorded, GateEarned, VerifierEarned, Moves;
      var unseen: bool := *;
      var exceeded: bool := *;
      var cooling: bool := *;
      if !unseen { return Ok; }
      if exceeded {
        o := Halt();
        return;
      }
      if cooling { return Ok; }
      :- External();
      if state != AUDIT_PENDING {
        :- Transition(AUDIT_PENDING);
      }
      :- Capture();
      :- External();
      audited := true;
      o := ToPlanner(fuel);
    }

    /** A quiet worker with deterministic evidence goes to its gate at once;
        without it, to an audit. */
    method IdleCompletion(fuel: nat) returns (o: Outcome)
      requires Valid()
      modifies `state, `log, `worker, `stored, `audited, `planned, `verdicts
      ensures old(Resumable()) ==> Resumable()
      ensures o.Ok? && old(worker == stored) ==> worker == stored
      ensures Valid() && old(log) <= log && Moves(log) >= Moves(old(log))
      ensures o.Ok? && old(state) == WORKER_RUNNING && old(log) + [Moved(WORKER_RUNNING, GATE_PENDING)] <= log ==>
                exists w :: GateDecided(w, old(log) + [Moved(WORKER_RUNNING, GATE_PENDING)], log)
    {
      hide Sound, StateOf, Streak, LastRecorded, GateEarned, VerifierEarned, Moves, GateDecided;
      if (state != WORKER_RUNNING && state != AUDIT_PENDING) || dryRun || worker.None? { return Ok; }
      var idle: bool := *;
      var blocked: bool := *;
      var evidence: bool := *;
      var paced: bool := *;
      if !idle { return Ok; }
      :- External();
      if blocked { return Ok; }
      if state == WORKER_RUNNING && evidence {
        :- Transition(GATE_PENDING);
        var w: GateWorld := *;
        ghost var met := Met(w);
        o := RunGate(w, fuel);
        assert o.Ok? ==> GateDecided(met, old(log) + [Moved(WORKER_RUNNING, GATE_PENDING)], log);
        return;
      }
      if !paced { return Ok; }
      o := CompletionAudit(fuel);
      assert o.Ok? && old(state) == WORKER_RUNNING ==> log[|old(log)|] == Moved(WORKER_RUNNING, AUDIT_PENDING);
    }

    // ----------------------------------------------------------- the verifier

    /** Green gate, path gate, known change set; None at the first doubt. */
    method ReadEvidence() returns (o: Outcome, sound: bool, ghost met: GateWorld, ghost known: bool)
      requires Valid()
      modifies `log
      ensures Valid() && old(log) <= log && Moves(log) == Moves(old(log))
      ensures o.Ok? ==> sound == (VerifierTarget(met, known, true) == DONE)
      ensures o.Ok? && !sound ==> log == old(log) + VerifierEvents(met, known, true)
      ensures o.Ok? && sound ==>
                log == old(log) + [Workspace(true)] + [GateRan(true)] + [Paths(met.paths)] + [ChangeSet(true)]
    {
      hide Sound, StateOf, Streak, LastRecorded, Moves, CheckPaths;
      var w: GateWorld := *;
      var changes: bool := *;
      sound, met, known := false, Met(w), changes;
      var resolved :- ReadWorkspace(w.workspace);
      Note(Workspace(resolved));
      if !resolved { return Ok, false, met, known; }
      :- External();
      Note(GateRan(w.runOk));
      if !w.runOk { return Ok, false, met, known; }
      var seen :- PathViolations(w.paths);
      :- External();
      if Blocks(seen) { return Ok, false, met, known; }
      :- External();
      Note(ChangeSet(changes));
      return Ok, changes, met, known;
    }

    /** The saved verdict when there is one, otherwise a fresh one, saved
        before it is used. */
    method Judge(prior: Option<bool>) returns (o: Outcome, pass: bool)
      requires Valid()
      modifies `log, `verdicts
      ensures Valid() && old(log) <= log && Moves(log) == Moves(old(log))
      ensures o.Ok? ==> log == old(log) + [Verdict(pass)] && (prior.Some? ==> pass == prior.value)
      ensures o.Ok? ==> verdicts == if prior.Some? then old(verdicts) else old(verdicts)[worker := pass]
    {
      pass := *;
      :- External();
      if prior.Some? {
        pass := prior.value;
      } else {
        :- External();
        verdicts := verdicts[worker := pass];
      }
      Note(Verdict(pass));
      return Ok, pass;
    }

    /** The verdict already saved for the bound worker. */
    function Saved(): Option<bool> reads `verdicts, `worker { if worker in verdicts then Some(verdicts[worker]) else None }

    /** The historical path: gate, path gate, known change set, verdict. */
    method RunVerifier(fuel: nat) returns (o: Outcome)
      requires Valid()
      modifies `state, `log, `worker, `stored, `audited, `planned, `verdicts
      ensures old(Resumable()) ==> Resumable()
      ensures o.Ok? && old(worker == stored) ==> worker == stored
      ensures Valid() && old(log) <= log && Moves(log) >= Moves(old(log))
      ensures o.Ok? && !dryRun && old(state) == VERIFIER_PENDING ==> Decided(state) && Moves(log) > Moves(old(log))
      ensures o.Ok? && old(state) == VERIFIER_PENDING ==> VerifierDecided(old(Saved()), old(log), log)
    {
      hide Sound, StateOf, Streak, LastRecorded, GateEarned, VerifierEarned, Moves, CheckPaths;
      var prior := if state == VERIFIER_PENDING && worker in verdicts then Some(verdicts[worker]) else None;
      if state != VERIFIER_PENDING {
        if !Legal(state, VERIFIER_PENDING) {
          o := Halt();
          return;
        }
        :- Transition(VERIFIER_PENDING);
      }
      ghost var start := log;
      var sound, met, known :- ReadEvidence();
      if !sound {
        :- Transition(HUMAN);
        assert log == start + VerifierEvents(met, known, true) + [Moved(VERIFIER_PENDING, HUMAN)];
        NoVerdict(met, known, prior);
        return Ok;
      }
      :- External();
      o := Decide(prior, start, met, known, fuel);
    }

    /** With the evidence complete the verdict decides. */
    method Decide(prior: Option<bool>, ghost start: seq<Event>, ghost met: GateWorld, ghost known: bool, fuel: nat) returns (o: Outcome)
      requires Valid() && VerifierTarget(met, known, true) == DONE
      requires log == start + [Workspace(true)] + [GateRan(true)] + [Paths(met.paths)] + [ChangeSet(true)]
      modifies `state, `log, `worker, `stored, `audited, `planned, `verdicts
      ensures old(Resumable()) ==> Resumable()
      ensures o.Ok? && old(worker == stored) ==> worker == stored
      ensures Valid() && old(log) <= log && Moves(log) >= Moves(old(log))
      ensures o.Ok? && !dryRun && old(state) == VERIFIER_PENDING ==> Decided(state) && Moves(log) > Moves(old(log))
      ensures o.Ok? && old(state) == VERIFIER_PENDING ==> VerifierDecided(prior, start, log)
    {
      hide Sound, StateOf, Streak, LastRecorded, GateEarned, VerifierEarned, Moves, CheckPaths;
      var pass :- Judge(prior);
      assert log == start + VerifierEvents(met, known, pass);
      if pass { VerdictEarns(start, met.paths, log); }
      hide VerifierEvents;
      o := Conclude(pass, fuel);
      assert o.Ok? && old(state) == VERIFIER_PENDING ==>
          start + VerifierEvents(met, known, pass) + [Moved(VERIFIER_PENDING, VerifierTarget(met, known, pass))] <= log;
    }

    method Conclude(pass: bool, fuel: nat) returns (o: Outcome)
      requires Valid() && (pass ==> VerifierEarned(log))
      modifies `state, `log, `worker, `stored, `audited, `planned, `verdicts
      ensures old(Resumable()) ==> Resumable()
      ensures o.Ok? && old(worker == stored) ==> worker == stored
      ensures Valid() && old(log) <= log && Moves(log) >= Moves(old(log))
      ensures o.Ok? && !dryRun && old(state) == VERIFIER_PENDING ==> Decided(state) && Moves(log) > Moves(old(log))
      ensures o.Ok? && old(state) == VERIFIER_PENDING ==>
                old(log) + [Moved(VERIFIER_PENDING, if pass then DONE else AUDIT_PENDING)] <= log
    {
      hide Sound, StateOf, Streak, LastRecorded, GateEarned, VerifierEarned, Moves;
      var target := if pass then DONE else AUDIT_PENDING;
      if !Legal(state, target) { return Ok; }
      :- Transition(target);
      if pass { return Ok; }
      :- External();
      audited := true;
      o := ToPlanner(fuel);
    }

    // ---------------------------------------------------------------- the step

    /** One decision of the controller. */
    method StepImpl(stop: bool, codex: bool, fuel: nat) returns (o: Outcome)
      requires Valid()
      modifies `state, `log, `worker, `stored, `audited, `planned, `verdicts
      ensures old(Resumable()) ==> Resumable()
      ensures o.Ok? && old(worker == stored) ==> worker == stored
      ensures Valid() && old(log) <= log && Moves(log) >= Moves(old(log))
      ensures o.Ok? && !dryRun && !stop && Deciding(old(state)) ==> Decided(state) && Moves(log) > Moves(old(log))
      ensures o.Ok? && !dryRun && !stop ==> Resumed(old(state), old(worker).Some?, old(audited), old(planned), old(Saved()), old(log), log)
      ensures stop ==> o.Ok? && log == old(log) && state == old(state)
    {
      hide Sound, StateOf, Streak, LastRecorded, GateEarned, VerifierEarned, Moves, Carried, PlannedAndCarried, AuditedAndPlanned, VerifierDecided;
      assert old(log) + Move(old(state), old(state)) == old(log);
      if Terminal(state) || stop { return Ok; }
      if !dryRun {
        :- External();
        var failed: bool := *;
        if codex && worker.Some? && failed {
          o := Halt();
          return;
        }
      }
      var overtime: bool := *;
      if overtime {
        o := Halt();
        return;
      }
      if state == VERIFIER_PENDING {
        o := RunVerifier(fuel);
      } else if state == AUDIT_PENDING {
        o := CompletionAudit(fuel);
      } else if state == PLANNER_PENDING {
        o := ResumePlanner(fuel);
      } else if state == LOCAL_FIX_PENDING || state == REPLAN_PENDING {
        :- ResumeAction(fuel);
        ghost var resumed := log;
        if state == LOCAL_FIX_PENDING || state == REPLAN_PENDING || Terminal(state) { return Ok; }
        o := Work(fuel);
        if !dryRun && old(planned).Some? { CarriedGrows(old(planned).value, old(state), old(log), resumed, log); }
      } else {
        o := Work(fuel);
      }
    }

    /** The states in which a gate waits or a worker may be active. */
    method Work(fuel: nat) returns (o: Outcome)
      requires Valid()
      modifies `state, `log, `worker, `stored, `audited, `planned, `verdicts
      ensures old(Resumable()) ==> Resumable()
      ensures o.Ok? && old(worker == stored) ==> worker == stored
      ensures Valid() && old(log) <= log && Moves(log) >= Moves(old(log))
      ensures o.Ok? && !dryRun && old(state) == GATE_PENDING ==> Decided(state) && Moves(log) > Moves(old(log))
      ensures o.Ok? && !dryRun && old(state) == GATE_PENDING ==> exists w :: GateDecided(w, old(log), log)
      ensures o.Ok? && old(state) == WORKER_RETRYING ==>
                log == old(log) || old(log) + [Moved(WORKER_RETRYING, AUDIT_PENDING)] <= log
    {
      hide Sound, StateOf, Streak, LastRecorded, GateEarned, VerifierEarned, Moves, GateDecided;
      if state == GATE_PENDING {
        var w: GateWorld := *;
        o := RunGate(w, fuel);
        return;
      }
      if state == WORKER_RETRYING {
        var idle: bool := *;
        var blocked: bool := *;
        if !idle || blocked {
          o := External();
          return;
        }
        o := CompletionAudit(fuel);
        return;
      }
      if worker.None? {
        o := SpawnFirst();
        return;
      }
      o := WatchWorker(fuel);
    }

    method SpawnFirst() returns (o: Outcome)
      requires Valid()
      modifies `state, `log, `worker, `stored
      ensures old(Resumable()) ==> Resumable()
      ensures o.Ok? && old(worker == stored) ==> worker == stored
      ensures Valid() && old(log) <= log && Moves(log) >= Moves(old(log))
      ensures o.Ok? && !Terminal(old(state)) && log != old(log) ==>
                || (Halted(old(worker).Some? && !dryRun, old(state), old(log), log) && worker == old(worker))
                || (log == old(log) + [Moved(old(state), WORKER_RUNNING)] && state == WORKER_RUNNING && worker.Some? && stored == worker)
      ensures o.Ok? && log == old(log) ==> worker == old(worker) && stored == old(stored)
    {
      hide Sound, StateOf, Streak, LastRecorded, GateEarned, VerifierEarned, Moves;
      if holdSpawn || dryRun { return Ok; }
      :- External();
      var sid: Option<string> := *;
      if sid.None? {
        o := Halt();
        return;
      }
      worker := sid;
      :- External();
      stored := sid;
      :- Transition(WORKER_RUNNING);
      return Ok;
    }

    /** Events, alerts, and what they lead to. */
    method WatchWorker(fuel: nat) returns (o: Outcome)
      requires Valid()
      modifies `state, `log, `worker, `stored, `audited, `planned, `verdicts
      ensures old(Resumable()) ==> Resumable()
      ensures o.Ok? && old(worker == stored) ==> worker == stored
      ensures Valid() && old(log) <= log && Moves(log) >= Moves(old(log))
    {
      hide Sound, StateOf, Streak, LastRecorded, GateEarned, VerifierEarned, Moves;
      :- External();
      var blocked: bool := *;
      var tooLong: bool := *;
      var events: bool := *;
      var alerts: bool := *;
      var actionable: bool := *;
      var nudged: bool := *;
      if blocked {
        if tooLong { o := Halt(); } else { o := Ok; }
        return;
      }
      :- External();
      if state == TASK_READY && events {
        :- Transition(WORKER_RUNNING);
      }
      if alerts && actionable {
        :- HandleAlerts(fuel);
      } else if !alerts && !nudged {
        :- IdleCompletion(fuel);
      }
      o := External();
    }

    /** The boundary: whatever happens inside, the caller gets a state back,
        unless handing the task over fails as well. */
    method Step(stop: bool, codex: bool, fuel: nat) returns (end: StepEnd)
      requires Valid()
      modifies this
      ensures Valid() && old(log) <= log
      ensures Terminal(old(state)) ==> state == old(state) && forall j | |old(log)| <= j < |log| :: !log[j].Moved?
      ensures old(Resumable()) ==> Resumable()
      ensures stop && end == Normal ==> state == old(state) && Moves(log) == Moves(old(log))
      ensures end == Normal && old(worker == stored) ==> worker == stored
      ensures end == Normal ==> streak == 0
      ensures end == Normal && !dryRun && !stop && Deciding(old(state)) ==>
                Decided(state) && Moves(log) > Moves(old(log))
      ensures end == Normal && !dryRun && !stop ==>
                && |log| >= |old(log)| + 2 && log[|log| - 1] == Event.Finished
                && Resumed(old(state), old(worker).Some?, old(audited), old(planned), old(Saved()), old(log) + [Began], log[..|log| - 1])
      ensures end == Handed ==> Terminal(state)
      ensures end == Faulted ==> Terminal(state) || streak == old(streak) + 1
    {
      hide Sound, StateOf, Streak, LastRecorded, GateEarned, VerifierEarned, Moves, Resumed;
      Note(Began);
      var o := StepImpl(stop, codex, fuel);
      if o == Ok {
        Mark(Event.Finished);
        end := Normal;
      } else if o == Threw(UnexpectedError) {
        end := Strike();
      } else if o == Killed {
        end := Died;
      } else {
        end := HandOver(o == Threw(ProtocolFault));
      }
      NothingAfterTerminal(old(log), log);
    }

    /** The counter of errors in a row, in memory. */
    method Mark(e: Event)
      requires Valid() && (e.Finished? || e.Struck? || e.Restarted?)
      modifies `streak, `log
      ensures Valid() && log == old(log) + [e] && Moves(log) == Moves(old(log))
      ensures streak == if e.Struck? && old(streak) < 2 then old(streak) + 1 else 0
    {
      Snoc(log, e);
      log := log + [e];
      streak := if e.Struck? && streak + 1 < MAX_CONSECUTIVE_LOOP_ERRORS then streak + 1 else 0;
    }

    method Strike() returns (end: StepEnd)
      requires Valid()
      modifies `streak, `state, `log
      ensures Valid() && old(log) <= log && (end == Faulted || end == Escaped || end == Died)
      ensures state == old(state) || state == HUMAN
      ensures end == Faulted ==> Terminal(state) || streak == old(streak) + 1
    {
      hide Sound, StateOf, Streak, LastRecorded, GateEarned, VerifierEarned, Moves;
      var last := streak + 1 >= MAX_CONSECUTIVE_LOOP_ERRORS;
      Mark(Struck);
      if !last { return Faulted; }
      var o := Halt();
      end := if o == Ok then Faulted else if o == Killed then Died else Escaped;
    }

    method HandOver(alert: bool) returns (end: StepEnd)
      requires Valid()
      modifies `state, `log
      ensures Valid() && old(log) <= log && (end == Handed || end == Escaped || end == Died)
      ensures state == old(state) || state == HUMAN
      ensures end == Handed ==> Terminal(state)
    {
      hide Sound, StateOf, Streak, LastRecorded, GateEarned, VerifierEarned, Moves;
      var o := Ok;
      if alert { o := External(); }
      if o == Ok { o := Halt(); }
      end := if o == Ok then Handed else if o == Killed then Died else Escaped;
    }

    /** A new process: what was not stored is gone. */
    method Restart()
      requires Valid()
      modifies `streak, `worker, `log
      ensures Valid() && log == old(log) + [Restarted] && worker == stored && streak == 0
      ensures old(Resumable()) ==> Resumable()
    {
      Mark(Restarted);
      worker := stored;
    }

    /** Three unexpected errors in a row end with a human, never in a retry. */
    method ThreeSteps(stop: bool, codex: bool, fuel: nat) returns (ends: seq<StepEnd>)
      requires Valid()
      modifies this
      ensures Valid() && old(log) <= log && |ends| == 3
      ensures ends == [Faulted, Faulted, Faulted] ==> Terminal(state)
      ensures StateOf(log) == DONE ==> exists i :: EarnedAt(log, i)
    {
      hide Sound, StateOf, Streak, LastRecorded, EarnedAt;
      var first := Step(stop, codex, fuel);
      var second := Step(stop, codex, fuel);
      var third := Step(stop, codex, fuel);
      ends := [first, second, third];
      if StateOf(log) == DONE { DoneIsEarned(log); }
    }
  }

  lemma NothingAfterTerminal(before: seq<Event>, after: seq<Event>)
    requires Sound(after) && before <= after
    ensures Terminal(StateOf(before)) ==> StateOf(after) == StateOf(before)
    ensures Terminal(StateOf(before)) ==> forall j | |before| <= j < |after| :: !after[j].Moved?
  {
    assert after[..|before|] == before;
    if Terminal(StateOf(before)) { TerminalIsFinal(after, |before|); }
  }

  /** Before the verdict it does not matter what the verdict would have been. */
  lemma NoVerdict(w: GateWorld, known: bool, prior: Option<bool>)
    requires VerifierTarget(w, known, true) != DONE
    ensures var pass := prior.None? || prior.value;
            VerifierTarget(w, known, pass) == HUMAN && VerifierEvents(w, known, pass) == VerifierEvents(w, known, true)
  {
  }

  lemma PassEarns(start: seq<Event>, p: PathReads, log: seq<Event>)
    requires !Blocks(CheckPaths(p)) && log == start + [Workspace(true)] + [Paths(p)] + [GateRan(true)]
    ensures GateEarned(log)
  {
    assert EndsWith(log, [Workspace(true), Paths(p), GateRan(true)]);
  }

  lemma VerdictEarns(start: seq<Event>, p: PathReads, log: seq<Event>)
    requires !Blocks(CheckPaths(p))
    requires log == start + [Workspace(true)] + [GateRan(true)] + [Paths(p)] + [ChangeSet(true)] + [Verdict(true)]
    ensures VerifierEarned(log)
  {
    assert EndsWith(log, [Workspace(true), GateRan(true), Paths(p), ChangeSet(true), Verdict(true)]);
  }

  const WAITING := [Moved(TASK_READY, WORKER_RUNNING), Moved(WORKER_RUNNING, GATE_PENDING)]

  lemma WaitsForGate()
    ensures Sound(WAITING) && StateOf(WAITING) == GATE_PENDING
  {
    MovedIsSound([], TASK_READY, WORKER_RUNNING);
    MovedIsSound([] + [Moved(TASK_READY, WORKER_RUNNING)], WORKER_RUNNING, GATE_PENDING);
    assert WAITING == [] + [Moved(TASK_READY, WORKER_RUNNING)] + [Moved(WORKER_RUNNING, GATE_PENDING)];
  }

  /** A run of the controller: a changed path is out of scope, the path gate's
      workspace read fails, the commands are green, and the task is finished. */
  method UnauditedPass() returns (loop: TaskLoop)
    ensures loop.Valid() && StateOf(loop.log) == DONE && LastPaths(loop.log).Some? && LastPaths(loop.log).value.strays
  {
    WaitsForGate();
    loop := new TaskLoop.Recover(false, false, true, Some("w"), false, None, map[], WAITING);
    var w := GateWorld(true, PathReads(false, true, true, true), true);
    ghost var before := loop.log;
    var o := loop.RunGate(w, 0);
    LastPathsAfter(loop.log, |before| + 1, w.paths);
  }
}
