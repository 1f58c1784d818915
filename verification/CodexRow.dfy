/** One worker row of the Codex App Server backend and what each notification,
    acknowledgement and disconnect does to it. */
module CodexRow {
  import opened OperationStore

  datatype RowState =
    | Starting | Active | WaitingInput | IdleState | FailedState | InterruptedState | StoppedState | UnknownState

  datatype Item = Item(kind: string, status: string, exitCode: Option<int>)

  datatype Decision = Accept | Decline | Reply

  /** The durable record of one approval request. */
  datatype ApprovalReceipt = ApprovalReceipt(
    turn: Option<string>, item: Option<string>,
    decision: Option<Decision>, submitted: bool,
    written: bool, closed: bool, invalidated: bool,
    turnEnd: Option<string>, itemStatus: Option<string>, exitCode: Option<int>)

  datatype Row = Row(
    thread: Option<string>, turn: Option<string>, state: RowState, ended: bool, terminalError: bool,
    items: map<string, Item>, pending: map<string, Option<string>>, receipts: map<string, ApprovalReceipt>)

  /** Notifications already matched to a row by their thread.  `Malformed` is
      any message whose handling raises before it touches the row. */
  datatype Message =
    | TurnStarted(turn: Option<string>)
    | TurnCompleted(turn: Option<string>, status: string)
    | ItemStarted(turn: Option<string>, id: string, item: Item)
    | ItemCompleted(turn: Option<string>, id: string, item: Item)
    | Resolved(key: string)
    | Request(turn: Option<string>, key: string, about: Option<string>)
    | Error(willRetry: bool)
    | Other
    | Malformed

  const NewRow := Row(None, None, Starting, false, false, map[], map[], map[])

  predicate Recognised(status: string) { status == "completed" || status == "failed" || status == "interrupted" }

  predicate AnyInProgress(items: map<string, Item>) {
    exists id :: id in items && items[id].status == "inProgress"
  }

  /** Commands and file changes still running, background ones included. */
  predicate WorkInProgress(items: map<string, Item>) {
    exists id :: id in items && items[id].status == "inProgress"
                 && (items[id].kind == "commandExecution" || items[id].kind == "fileChange")
  }

  predicate AtRest(state: RowState) {
    state == IdleState || state == FailedState || state == InterruptedState || state == StoppedState
  }

  predicate Stopped(row: Row) {
    row.ended && row.pending == map[] && AtRest(row.state) && !WorkInProgress(row.items)
  }

  // ----------------------------------------------------------------- handlers

  /** None: the handler raises and the row is untouched. */
  function OnTurnStarted(row: Row, turn: Option<string>): Option<Row> {
    if row.pending != map[] || AnyInProgress(row.items) then None
    else Some(row.(items := map[], terminalError := false, turn := turn, state := Active, ended := false))
  }

  function RestState(row: Row, status: string): RowState {
    if status == "completed" && !row.terminalError then IdleState
    else if status == "interrupted" then InterruptedState
    else FailedState
  }

  function TurnEnds(receipts: map<string, ApprovalReceipt>, turn: Option<string>, status: string): map<string,
                    ApprovalReceipt> {
    map key | key in receipts ::
      if receipts[key].turn == turn then receipts[key].(turnEnd := Some(status)) else receipts[key]
  }

  function OnTurnCompleted(row: Row, turn: Option<string>, status: string): Row {
    var ended := turn == row.turn && Recognised(status);
    row.(state := if ended then RestState(row, status) else UnknownState,
         ended := ended,
         receipts := TurnEnds(row.receipts, turn, status))
  }

  function ItemEnds(receipts: map<string, ApprovalReceipt>, turn: Option<string>, id: string, item: Item): map<string,
                    ApprovalReceipt> {
    map key | key in receipts ::
      if receipts[key].turn == turn && receipts[key].item == Some(id)
      then receipts[key].(itemStatus := Some(item.status), exitCode := item.exitCode) else receipts[key]
  }

  function OnItem(row: Row, turn: Option<string>, id: string, item: Item, completed: bool): Option<Row> {
    if turn != row.turn then None
    else Some(row.(items := row.items[id := item],
                   receipts := if completed then ItemEnds(row.receipts, turn, id, item) else row.receipts))
  }

  function Without<T>(m: map<string, T>, key: string): map<string, T> { m - {key} }

  function OnResolved(row: Row, key: string): Row {
    var receipts := if key in row.receipts
      then row.receipts[key := row.receipts[key].(closed := true, invalidated := row.receipts[key].invalidated || !row.receipts[key].written)]
      else row.receipts;
    var pending := Without(row.pending, key);
    row.(receipts := receipts, pending := pending,
         state := if row.state == WaitingInput && pending == map[] then Active else row.state)
  }

  function NewReceipt(turn: Option<string>, item: Option<string>): ApprovalReceipt {
    ApprovalReceipt(turn, item, None, false, false, false, false, None, None, None)
  }

  function OnRequest(row: Row, turn: Option<string>, key: string, item: Option<string>): Option<Row> {
    if turn != row.turn then None
    else Some(row.(pending := row.pending[key := turn],
                   receipts := row.receipts[key := NewReceipt(turn, item)],
                   state := WaitingInput))
  }

  function OnError(row: Row, willRetry: bool): Row {
    if willRetry then row.(state := Active) else row.(state := FailedState, terminalError := true)
  }

  function Handle(row: Row, m: Message): Option<Row> {
    match m
    case TurnStarted(turn) => OnTurnStarted(row, turn)
    case TurnCompleted(turn, status) => Some(OnTurnCompleted(row, turn, status))
    case ItemStarted(turn, id, item) => OnItem(row, turn, id, item, false)
    case ItemCompleted(turn, id, item) => OnItem(row, turn, id, item, true)
    case Resolved(key) => Some(OnResolved(row, key))
    case Request(turn, key, about) => OnRequest(row, turn, key, about)
    case Error(willRetry) => Some(OnError(row, willRetry))
    case Other => Some(row)
    case Malformed => None
  }

  /** The turn/start response may come after the turn's own notifications. */
  function OnAccepted(row: Row, turn: string): Row {
    if row.turn != Some(turn) then row.(turn := Some(turn), state := Active, ended := false) else row
  }

  function OnDisconnect(row: Row): Row {
    if AtRest(row.state) then row else row.(state := UnknownState)
  }

  // ---------------------------------------------------------------- approvals

  /** What can be said about a response; `status` and `verdict` are reported. */
  datatype ApprovalFact = ApprovalFact(status: Status, verdict: Verdict, written: bool, closed: bool, observationOnly: bool)

  predicate Invalid(r: ApprovalReceipt) { r.invalidated || r.turnEnd == Some("interrupted") }

  predicate Executed(r: ApprovalReceipt) {
    r.itemStatus == Some("completed") || (r.itemStatus == Some("failed") && r.exitCode.Some?)
  }

  /** The fact the receipt itself supports, for the identity of turn `turn`. */
  function ReceiptFact(r: ApprovalReceipt, turn: string): ApprovalFact {
    var open := ApprovalFact(Unknown, Undecided, r.written, r.closed, false);
    if r.turn != Some(turn) then open
    else if Invalid(r) then
      if r.written then open.(verdict := Invalidated) else open.(status := Failed, verdict := Expired)
    else if r.written && r.closed then
      if r.decision.Some? && r.decision.value != Reply && r.itemStatus == Some("declined") then
        open.(status := if r.decision.value == Decline then Succeeded else Failed, verdict := Declined)
      else if r.decision == Some(Accept) && Executed(r) then
        open.(status := Succeeded, verdict := Confirmed)
      else open.(observationOnly := true)
    else open
  }
}
