/** The task states, the planner's actions and the transition table. */
module Contracts {

  datatype ProjectState =
    | TASK_READY | WORKER_RUNNING | AUDIT_PENDING | PLANNER_PENDING
    | LOCAL_FIX_PENDING | WORKER_RETRYING | REPLAN_PENDING
    | GATE_PENDING | VERIFIER_PENDING | DONE | HUMAN | FAILED

  datatype ActionKind = CONTINUE | SEND_LOCAL_FIX | REPLAN_SPAWN | CANDIDATE_DONE | ASK_HUMAN

  predicate Terminal(s: ProjectState) { s == DONE || s == HUMAN || s == FAILED }

  function Successors(s: ProjectState): set<ProjectState> {
    match s
    case TASK_READY => {WORKER_RUNNING, HUMAN, FAILED}
    case WORKER_RUNNING => {AUDIT_PENDING, GATE_PENDING, HUMAN, FAILED}
    case AUDIT_PENDING => {PLANNER_PENDING, HUMAN}
    case PLANNER_PENDING => {LOCAL_FIX_PENDING, REPLAN_PENDING, GATE_PENDING, WORKER_RUNNING, HUMAN}
    case LOCAL_FIX_PENDING => {WORKER_RETRYING, HUMAN}
    case WORKER_RETRYING => {AUDIT_PENDING, GATE_PENDING, HUMAN}
    case REPLAN_PENDING => {WORKER_RUNNING, HUMAN, FAILED}
    case GATE_PENDING => {DONE, VERIFIER_PENDING, AUDIT_PENDING, HUMAN, FAILED}
    case VERIFIER_PENDING => {DONE, AUDIT_PENDING, HUMAN}
    case DONE => {}
    case HUMAN => {}
    case FAILED => {}
  }

  predicate Legal(from: ProjectState, to: ProjectState) { to in Successors(from) }

  /** The same table read backwards: from where each state can be entered. */
  function Predecessors(s: ProjectState): set<ProjectState> {
    match s
    case TASK_READY => {}
    case WORKER_RUNNING => {TASK_READY, PLANNER_PENDING, REPLAN_PENDING}
    case AUDIT_PENDING => {WORKER_RUNNING, WORKER_RETRYING, GATE_PENDING, VERIFIER_PENDING}
    case PLANNER_PENDING => {AUDIT_PENDING}
    case LOCAL_FIX_PENDING => {PLANNER_PENDING}
    case WORKER_RETRYING => {LOCAL_FIX_PENDING}
    case REPLAN_PENDING => {PLANNER_PENDING}
    case GATE_PENDING => {WORKER_RUNNING, WORKER_RETRYING, PLANNER_PENDING}
    case VERIFIER_PENDING => {GATE_PENDING}
    case DONE => {GATE_PENDING, VERIFIER_PENDING}
    case HUMAN =>
      {TASK_READY, WORKER_RUNNING, AUDIT_PENDING, PLANNER_PENDING, LOCAL_FIX_PENDING, WORKER_RETRYING, REPLAN_PENDING,
       GATE_PENDING, VERIFIER_PENDING}
    case FAILED => {TASK_READY, WORKER_RUNNING, REPLAN_PENDING, GATE_PENDING}
  }

  lemma LegalByTarget(from: ProjectState, to: ProjectState)
    ensures Legal(from, to) <==> from in Predecessors(to)
  {
  }
}
