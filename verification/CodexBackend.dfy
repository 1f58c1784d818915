/** The local backend: its worker rows in memory and in the store, its live
    requests and stored approval operations, changed in place by notifications,
    acknowledgements, approvals and disconnects.  Every save, claim and write
    can succeed, fail, or be the last thing the process does. */
module CodexBackend {
  import opened OperationStore
  import opened CodexRow
  import opened CodexRuns
  import opened CodexApprovals
  import opened CodexReceipts

  // ------------------------------------------------------ handlers as they run

  /** Receipts of the ended turn learn how it ended. */
  method EndTurn(receipts: map<string, ApprovalReceipt>, turn: Option<string>,
                 status: string) returns (r: map<string, ApprovalReceipt>)
    ensures r == TurnEnds(receipts, turn, status)
  {
    r := receipts;
    var todo := receipts.Keys;
    while todo != {}
      invariant todo <= receipts.Keys && r.Keys == receipts.Keys
      invariant forall key | key in receipts :: r[key] == if key in todo then receipts[key] else TurnEnds(receipts, turn, status)[key]
      decreases |todo|
    {
      var key :| key in todo;
      if r[key].turn == turn { r := r[key := r[key].(turnEnd := Some(status))]; }
      todo := todo - {key};
    }
  }

  /** Receipts about the finished item of the turn learn its outcome. */
  method EndItem(receipts: map<string, ApprovalReceipt>, turn: Option<string>, id: string,
                 item: Item) returns (r: map<string, ApprovalReceipt>)
    ensures r == ItemEnds(receipts, turn, id, item)
  {
    r := receipts;
    var todo := receipts.Keys;
    while todo != {}
      invariant todo <= receipts.Keys && r.Keys == receipts.Keys
      invariant forall key | key in receipts :: r[key] == if key in todo then receipts[key] else ItemEnds(receipts, turn, id, item)[key]
      decreases |todo|
    {
      var key :| key in todo;
      if r[key].turn == turn && r[key].item == Some(id) {
        r := r[key := r[key].(itemStatus := Some(item.status), exitCode := item.exitCode)];
      }
      todo := todo - {key};
    }
  }

  /** One notification against its row; None is a raise before any change. */
  method Notify(row: Row, m: Message) returns (r: Option<Row>)
    ensures r == Handle(row, m)
  {
    var next := row;
    match m {
    case TurnStarted(turn) =>
      if row.pending != map[] || AnyInProgress(row.items) { return None; }
      next := next.(items := map[], terminalError := false);
      next := next.(turn := turn, state := Active, ended := false);
    case TurnCompleted(turn, status) =>
      if turn != row.turn || !Recognised(status) {
        next := next.(state := UnknownState, ended := false);
      } else {
        var seen := if status == "completed" && row.terminalError then "failed" else status;
        next := next.(state := if seen == "completed" then IdleState else if seen == "interrupted" then InterruptedState else FailedState,
                      ended := true);
      }
      var receipts := EndTurn(next.receipts, turn, status);
      next := next.(receipts := receipts);
    case ItemStarted(turn, id, item) =>
      if turn != row.turn { return None; }
      next := next.(items := next.items[id := item]);
    case ItemCompleted(turn, id, item) =>
      if turn != row.turn { return None; }
      next := next.(items := next.items[id := item]);
      var receipts := EndItem(next.receipts, turn, id, item);
      next := next.(receipts := receipts);
    case Resolved(key) =>
      if key in next.receipts {
        var receipt := next.receipts[key].(closed := true);
        if !receipt.written { receipt := receipt.(invalidated := true); }
        next := next.(receipts := next.receipts[key := receipt]);
      }
      next := next.(pending := next.pending - {key});
      if next.state == WaitingInput && next.pending == map[] { next := next.(state := Active); }
    case Request(turn, key, about) =>
      if turn != row.turn { return None; }
      next := next.(pending := next.pending[key := turn], receipts := next.receipts[key := NewReceipt(turn, about)]);
      next := next.(state := WaitingInput);
    case Error(willRetry) =>
      next := next.(state := if willRetry then Active else FailedState);
      if !willRetry { next := next.(terminalError := true); }
    case Other =>
    case Malformed => return None;
    }
    return Some(next);
  }

  /** The worker bound to a thread: the first one registered, if any. */
  function FirstOn(order: seq<string>, workers: map<string, Row>, thread: Option<string>): (r: Option<string>)
    ensures r.Some? ==> r.value in workers && r.value in order && workers[r.value].thread == thread
    decreases |order|
  {
    if order == [] then None else
    var before := FirstOn(order[..|order| - 1], workers, thread);
    if before.Some? then before
    else if order[|order| - 1] in workers && workers[order[|order| - 1]].thread == thread then Some(order[|order| - 1])
    else None
  }

  function Disconnect(workers: map<string, Row>): map<string, Row> { map w | w in workers :: OnDisconnect(workers[w]) }

  /** Every row that is not at rest becomes unknown. */
  method MarkUnknown(workers: map<string, Row>) returns (r: map<string, Row>)
    ensures r == Disconnect(workers)
  {
    r := workers;
    var todo := workers.Keys;
    while todo != {}
      invariant todo <= workers.Keys == r.Keys
      invariant forall w | w in workers :: r[w] == if w in todo then workers[w] else OnDisconnect(workers[w])
      decreases |todo|
    {
      var w :| w in todo;
      if !AtRest(r[w].state) { r := r[w := r[w].(state := UnknownState)]; }
      todo := todo - {w};
    }
  }

  // ------------------------------------------------- rows and what happened

  type AllOps = map<(string, string, string), ApprovalOp>

  /** How one step of the lock holder ends; `Died`: the process dies before it. */
  datatype Fate = Done | Failed | Died

  /** The due steps, each with its outcome, until nothing is due or the process dies. */
  function Follow(s: Machine, fates: seq<Fate>): seq<Input>
    decreases |fates|
  {
    if s.due.Free? || fates == [] || fates[0].Died? then []
    else [Proceed(fates[0].Done?)] + Follow(Step(s, Proceed(fates[0].Done?)), fates[1..])
  }

  /** A save of the call goes through, and with it every row is stored. */
  predicate Saves(s: Machine, fates: seq<Fate>)
    decreases |fates|
  {
    && !s.due.Free? && fates != [] && !fates[0].Died?
    && ((Saving(s.due) && fates[0].Done?) || Saves(Step(s, Proceed(fates[0].Done?)), fates[1..]))
  }

  /** What a save adds to the histories: the saving worker's, and the others'. */
  function SaveInputs(own: bool, fate: Fate): seq<Input> {
    match fate
    case Done => [if own then Proceed(true) else SavedAlong]
    case Failed => if own then [Proceed(false)] else []
    case Died => []
  }

  function DropInputs(fate: Fate): seq<Input> {
    if fate.Died? then [Drop] else [Drop, Proceed(fate.Done?)]
  }

  /** A failing save after a notification kills the reader. */
  function NoticeSave(own: bool, save: Fate, drop: Fate): seq<Input> {
    if save.Failed? then [if own then Proceed(false) else Broken] + DropInputs(drop) else SaveInputs(own, save)
  }

  /** What a notification adds: handled and saved, or the reader dies of it. */
  function NoticeInputs(own: bool, m: Message, raises: bool, save: Fate, drop: Fate): seq<Input> {
    if raises then [if own then Deliver(m) else Broken] + DropInputs(drop)
    else (if own then [Deliver(m)] else []) + (if m.Other? then [] else NoticeSave(own, save, drop))
  }

  /** Every worker's history grows: `wid`'s by `own`, the others' by `rest`. */
  ghost function Grow(history: map<string, seq<Input>>, wid: string, own: seq<Input>, rest: seq<Input>): map<string, seq<Input>> {
    map w | w in history :: history[w] + (if w == wid then own else rest)
  }

  ghost function GrowAll(history: map<string, seq<Input>>, more: seq<Input>): map<string, seq<Input>> {
    map w | w in history :: history[w] + more
  }

  lemma GrowAllKeys(history: map<string, seq<Input>>, more: seq<Input>)
    ensures GrowAll(history, more).Keys == history.Keys
  {
  }

  lemma GrowThenAll(history: map<string, seq<Input>>, wid: string, own: seq<Input>, rest: seq<Input>, more: seq<Input>)
    ensures GrowAll(Grow(history, wid, own, rest), more) == Grow(history, wid, own + more, rest + more)
  {
    GrowTwice(history, wid, own, rest, more, more);
  }

  lemma GrowAllTwice(history: map<string, seq<Input>>, first: seq<Input>, more: seq<Input>)
    ensures GrowAll(GrowAll(history, first), more) == GrowAll(history, first + more)
  {
    assert forall w | w in history :: history[w] + first + more == history[w] + (first + more);
  }

  lemma GrowTwice(history: map<string, seq<Input>>, wid: string, own: seq<Input>, rest: seq<Input>, own2: seq<Input>,
                  rest2: seq<Input>)
    ensures Grow(Grow(history, wid, own, rest), wid, own2, rest2) == Grow(history, wid, own + own2, rest + rest2)
  {
    forall w | w in history
      ensures Grow(Grow(history, wid, own, rest), wid, own2, rest2)[w] == Grow(history, wid, own + own2, rest + rest2)[w]
    {
      var first, second := if w == wid then own else rest, if w == wid then own2 else rest2;
      assert history[w] + first + second == history[w] + (first + second);
    }
  }

  lemma GrowOwn(history: map<string, seq<Input>>, wid: string, own: seq<Input>)
    ensures wid in history ==> Grow(history, wid, own, []) == history[wid := history[wid] + own]
    ensures Grow(history, wid, [], []) == history
  {
    assert forall w | w in history :: history[w] + [] == history[w];
  }

  ghost predicate OpsAgree(s: Machine, wid: string, ops: AllOps) {
    && (forall turn, key :: (turn, key) in s.ops <==> (wid, turn, key) in ops)
    && (forall turn, key | (turn, key) in s.ops :: s.ops[(turn, key)] == ops[(wid, turn, key)])
  }

  /** A worker's rows, live requests and stored operations are what its history
      makes of them, with `due` as the step to come. */
  ghost predicate Agrees(s: Machine, wid: string, row: Row, kept: Row, requests: set<(string, string)>, ops: AllOps,
                         closed: bool, due: Due) {
    && s.mem.row == row && s.disk.row == kept && s.closed == closed && s.due == due
    && (forall key :: key in s.live <==> (wid, key) in requests)
    && OpsAgree(s, wid, ops)
  }

  /** Nothing of another worker's is touched. */
  ghost predicate OnlyOf(wid: string, requests: set<(string, string)>, after: set<(string, string)>, ops: AllOps, later: AllOps) {
    && (forall w, key | w != wid :: (w, key) in after <==> (w, key) in requests)
    && (forall w, turn, key | w != wid :: (w, turn, key) in later <==> (w, turn, key) in ops)
    && (forall w, turn, key | w != wid && (w, turn, key) in ops :: later[(w, turn, key)] == ops[(w, turn, key)])
  }

  lemma OthersAgree(s: Machine, w: string, wid: string, row: Row, kept: Row, requests: set<(string, string)>,
                    after: set<(string, string)>, ops: AllOps, later: AllOps, closed: bool)
    requires Agrees(s, w, row, kept, requests, ops, closed, Free) && w != wid && OnlyOf(wid, requests, after, ops, later)
    ensures Agrees(s, w, row, kept, after, later, closed, Free)
  {
  }

  function RequestsAfter(requests: set<(string, string)>, wid: string, m: Message): set<(string, string)> {
    match m
    case Resolved(key) => requests - {(wid, key)}
    case Request(_, key, _) => requests + {(wid, key)}
    case _ => requests
  }

  lemma NotifyAgrees(s: Machine, wid: string, row: Row, kept: Row, requests: set<(string, string)>, ops: AllOps, m: Message)
    requires Agrees(s, wid, row, kept, requests, ops, false, Free) && Handle(row, m).Some?
    ensures Agrees(Step(s, Deliver(m)), wid, Handle(row, m).value, kept, RequestsAfter(requests, wid, m), ops, false,
                   if m.Other? then Free else ToSave)
    ensures OnlyOf(wid, requests, RequestsAfter(requests, wid, m), ops, ops)
  {
    hide Handle;
  }

  lemma RaiseAgrees(s: Machine, wid: string, row: Row, kept: Row, requests: set<(string, string)>, ops: AllOps, m: Message)
    requires Agrees(s, wid, row, kept, requests, ops, false, Free) && Handle(row, m).None?
    ensures Agrees(Step(s, Deliver(m)), wid, row, kept, requests, ops, true, Free)
  {
    hide Handle;
  }

  /** A step that touches nothing but the row, and waits for its save. */
  lemma AsideAgrees(s: Machine, wid: string, row: Row, kept: Row, requests: set<(string, string)>, ops: AllOps, closed: bool,
                    i: Input)
    requires Agrees(s, wid, row, kept, requests, ops, closed, Free)
    requires i.Bind? || i.Ack? || i.Invalidate? || i.Drop?
    ensures Agrees(Step(s, i), wid, AsideRow(row, i), kept, requests, ops, closed || i.Drop?, ToSaveAside)
  {
  }

  function AsideRow(row: Row, i: Input): Row
    requires i.Bind? || i.Ack? || i.Invalidate? || i.Drop?
  {
    match i
    case Bind(thread) => row.(thread := Some(thread))
    case Ack(turn) => OnAccepted(row, turn)
    case Invalidate(key) => MarkedInvalid(row, key)
    case Drop => OnDisconnect(row)
  }

  predicate Saving(due: Due) { due.ToSave? || due.ToSaveAside? || due.ToConfirm? }

  /** One save stores every worker's row. */
  lemma SaveAgrees(s: Machine, wid: string, row: Row, kept: Row, requests: set<(string, string)>, ops: AllOps, closed: bool,
                   due: Due)
    requires Agrees(s, wid, row, kept, requests, ops, closed, due) && (due.Free? || Saving(due))
    ensures Agrees(Step(s, if due.Free? then SavedAlong else Proceed(true)), wid, row, row, requests, ops, closed, Free)
  {
  }

  lemma FailAgrees(s: Machine, wid: string, row: Row, kept: Row, requests: set<(string, string)>, ops: AllOps, closed: bool,
                   due: Due)
    requires Agrees(s, wid, row, kept, requests, ops, closed, due) && Saving(due)
    ensures Agrees(Step(s, Proceed(false)), wid, row, kept, requests, ops, closed || due.ToSave?,
                   if due.ToConfirm? then ToDoubt(due.key, due.turn) else Free)
  {
  }

  lemma BrokenAgrees(s: Machine, wid: string, row: Row, kept: Row, requests: set<(string, string)>, ops: AllOps, closed: bool)
    requires Agrees(s, wid, row, kept, requests, ops, closed, Free)
    ensures Agrees(Step(s, Broken), wid, row, kept, requests, ops, true, Free)
  {
  }

  /** Every row learns of the disconnect, and one save stores them all. */
  lemma DropAgrees(inputs: seq<Input>, wid: string, row: Row, kept: Row, requests: set<(string, string)>, ops: AllOps,
                   closed: bool, fate: Fate)
    requires Agrees(Run(CodexRuns.Start, inputs), wid, row, kept, requests, ops, closed, Free)
    ensures var s := Run(CodexRuns.Start, inputs + DropInputs(fate));
            var dropped := OnDisconnect(row);
            && (fate.Died? ==> s.disk.row == kept && OpsAgree(s, wid, ops))
            && (!fate.Died? ==> Agrees(s, wid, dropped, if fate.Done? then dropped else kept, requests, ops, true, Free))
  {
    hide Run, Step, OnDisconnect, Agrees;
    var s := Run(CodexRuns.Start, inputs);
    AsideAgrees(s, wid, row, kept, requests, ops, closed, Drop);
    RunSnoc(CodexRuns.Start, inputs, Drop);
    RunSnoc(CodexRuns.Start, inputs + [Drop], Proceed(fate.Done?));
    assert inputs + [Drop] + [Proceed(fate.Done?)] == inputs + [Drop, Proceed(fate.Done?)];
    var after := Step(s, Drop);
    if fate.Done? { SaveAgrees(after, wid, OnDisconnect(row), kept, requests, ops, true, ToSaveAside); }
    else if fate.Failed? { FailAgrees(after, wid, OnDisconnect(row), kept, requests, ops, true, ToSaveAside); }
    else { AgreesMeansStored(after, wid, OnDisconnect(row), kept, requests, ops, true, ToSaveAside); }
  }

  /** Every worker's rows, requests and operations are what its history makes of them. */
  ghost predicate AllAgree(history: map<string, seq<Input>>, rows: map<string, Row>, kept: map<string, Row>,
                           requests: set<(string, string)>, ops: AllOps, closed: bool) {
    && rows.Keys == kept.Keys == history.Keys
    && forall w | w in rows :: Agrees(Run(CodexRuns.Start, history[w]), w, rows[w], kept[w], requests, ops, closed, Free)
  }

  /** The same of what is stored alone. */
  ghost predicate AllStored(history: map<string, seq<Input>>, kept: map<string, Row>, ops: AllOps) {
    && kept.Keys == history.Keys
    && forall w | w in kept :: Run(CodexRuns.Start, history[w]).disk.row == kept[w] && OpsAgree(Run(CodexRuns.Start, history[w]), w, ops)
  }

  lemma AllRestart(history: map<string, seq<Input>>, kept: map<string, Row>, ops: AllOps)
    requires AllStored(history, kept, ops)
    ensures AllAgree(GrowAll(history, [Restart]), kept, kept, {}, ops, false)
  {
    hide Run, Step, Agrees, OpsAgree;
    var grown := GrowAll(history, [Restart]);
    forall w | w in kept ensures Agrees(Run(CodexRuns.Start, grown[w]), w, kept[w], kept[w], {}, ops, false, Free) {
      RestartAgrees(Run(CodexRuns.Start, history[w]), w, kept[w], ops);
      RunSnoc(CodexRuns.Start, history[w], Restart);
    }
  }

  lemma AgreeingIsStored(history: map<string, seq<Input>>, rows: map<string, Row>, kept: map<string, Row>,
                         requests: set<(string, string)>, ops: AllOps, closed: bool)
    requires AllAgree(history, rows, kept, requests, ops, closed)
    ensures AllStored(history, kept, ops)
  {
    hide Run, OpsAgree;
  }

  lemma AllDrop(history: map<string, seq<Input>>, rows: map<string, Row>, kept: map<string, Row>, requests: set<(string, string)>,
                ops: AllOps, closed: bool, fate: Fate)
    requires AllAgree(history, rows, kept, requests, ops, closed)
    ensures var after, grown := Disconnect(rows), GrowAll(history, DropInputs(fate));
            && after.Keys == kept.Keys == grown.Keys
            && (fate.Died? ==> AllStored(grown, kept, ops))
            && (!fate.Died? ==> AllAgree(grown, after, if fate.Done? then after else kept, requests, ops, true))
  {
    hide Run, Agrees, OpsAgree, OnDisconnect, DropInputs;
    var grown, after := GrowAll(history, DropInputs(fate)), Disconnect(rows);
    forall w | w in after
      ensures var s := Run(CodexRuns.Start, grown[w]);
              && (fate.Died? ==> s.disk.row == kept[w] && OpsAgree(s, w, ops))
              && (!fate.Died? ==> Agrees(s, w, after[w], if fate.Done? then after[w] else kept[w], requests, ops, true, Free))
    {
      DropAgrees(history[w], w, rows[w], kept[w], requests, ops, closed, fate);
    }
  }

  lemma AgreesMeansStored(s: Machine, wid: string, row: Row, kept: Row, requests: set<(string, string)>, ops: AllOps,
                          closed: bool, due: Due)
    requires Agrees(s, wid, row, kept, requests, ops, closed, due)
    ensures s.disk.row == kept && OpsAgree(s, wid, ops) && s.due == due && s.mem.row == row
  {
  }

  lemma StartAgrees(wid: string, requests: set<(string, string)>, ops: AllOps)
    requires (forall key :: (wid, key) !in requests) && forall turn, key :: (wid, turn, key) !in ops
    ensures Agrees(Run(CodexRuns.Start, []), wid, NewRow, NewRow, requests, ops, false, Free)
  {
  }

  lemma NobodyElse(wid: string, requests: set<(string, string)>, ops: AllOps)
    ensures OnlyOf(wid, requests, requests, ops, ops)
  {
  }

  /** A permitted answer to a live request gets its intent. */
  lemma SubmitAgrees(s: Machine, wid: string, row: Row, kept: Row, requests: set<(string, string)>, ops: AllOps, closed: bool,
                     key: string, decision: Decision, permitted: bool)
    requires Agrees(s, wid, row, kept, requests, ops, closed, Free)
    ensures var i := Submit(key, decision, permitted);
            if !Answerable(row, wid, requests, closed, key, permitted) then Agrees(Step(s, i), wid, row, kept, requests, ops, closed, Free)
            else var turn := row.receipts[key].turn.value;
                 var id := (wid, turn, key);
                 if id in ops && ops[id].decision != decision then Agrees(Step(s, i), wid, row, kept, requests, ops, closed, Free)
                 else Agrees(Step(s, i), wid, row, kept, requests, WithIntent(ops, id, decision), closed, ToClaim(key, turn, decision))
  {
  }

  predicate Answerable(row: Row, wid: string, requests: set<(string, string)>, closed: bool, key: string, permitted: bool) {
    (wid, key) in requests && !closed && !row.ended && permitted && key in row.receipts && row.receipts[key].turn.Some?
  }

  function WithIntent(ops: AllOps, id: (string, string, string), decision: Decision): AllOps {
    if id in ops then ops else ops[id := ApprovalOp(decision, NotStarted, 0, None)]
  }

  lemma OwnOpOnly(wid: string, requests: set<(string, string)>, ops: AllOps, turn: string, key: string, op: ApprovalOp)
    ensures OnlyOf(wid, requests, requests, ops, ops[(wid, turn, key) := op])
  {
  }

  lemma RefusedAgrees(s: Machine, wid: string, row: Row, kept: Row, requests: set<(string, string)>, ops: AllOps, closed: bool,
                      due: Due, ok: bool)
    requires Agrees(s, wid, row, kept, requests, ops, closed, due) && due.ToClaim?
    requires var id := (wid, due.turn, due.key);
             !ok || id !in ops || ops[id].status != NotStarted || ops[id].attempts >= 1 || due.key !in row.receipts
    ensures Agrees(Step(s, Proceed(ok)), wid, row, kept, requests, ops, closed, Free)
  {
  }

  lemma ClaimAgrees(s: Machine, wid: string, row: Row, kept: Row, requests: set<(string, string)>, ops: AllOps, closed: bool,
                    due: Due)
    requires Agrees(s, wid, row, kept, requests, ops, closed, due) && due.ToClaim?
    requires var id := (wid, due.turn, due.key);
             id in ops && ops[id].status == NotStarted && ops[id].attempts == 0 && due.key in row.receipts
    ensures var id := (wid, due.turn, due.key);
            var receipt := row.receipts[due.key].(decision := Some(due.decision), submitted := true);
            Agrees(Step(s, Proceed(true)), wid, row.(receipts := row.receipts[due.key := receipt]), kept, requests,
                   ops[id := ops[id].(status := InFlight, attempts := 1)], closed, ToWrite(due.key, due.turn, due.decision))
  {
  }

  lemma WriteAgrees(s: Machine, wid: string, row: Row, kept: Row, requests: set<(string, string)>, ops: AllOps, closed: bool,
                    due: Due, ok: bool)
    requires Agrees(s, wid, row, kept, requests, ops, closed, due) && due.ToWrite?
    ensures if ok && due.key in row.receipts
            then var receipt := row.receipts[due.key].(written := true);
                 Agrees(Step(s, Proceed(ok)), wid, row.(receipts := row.receipts[due.key := receipt]), kept, requests, ops, closed,
                        ToConfirm(due.key, due.turn))
            else Agrees(Step(s, Proceed(ok)), wid, row, kept, requests, ops, closed, ToDoubt(due.key, due.turn))
  {
  }

  lemma DoubtAgrees(s: Machine, wid: string, row: Row, kept: Row, requests: set<(string, string)>, ops: AllOps, closed: bool,
                    due: Due, ok: bool)
    requires Agrees(s, wid, row, kept, requests, ops, closed, due) && due.ToDoubt?
    ensures var id := (wid, due.turn, due.key);
            var later := if ok && id in ops then ops[id := ops[id].(status := Unknown)] else ops;
            Agrees(Step(s, Proceed(ok)), wid, row, kept, requests, later, closed, Free)
  {
  }

  lemma RecordAgrees(s: Machine, wid: string, row: Row, kept: Row, requests: set<(string, string)>, ops: AllOps, closed: bool,
                     turn: string, key: string)
    requires Agrees(s, wid, row, kept, requests, ops, closed, Free)
    ensures var id, fact := (wid, turn, key), FactFor(s, turn, key);
            var later := if id in ops && ops[id].attempts > 0 && ops[id].status != Succeeded
                         then ops[id := ops[id].(status := fact.status, fact := Some(fact))] else ops;
            Agrees(Step(s, Record(turn, key)), wid, row, kept, requests, later, closed, Free)
  {
    hide FactFor;
  }

  lemma RestartAgrees(s: Machine, wid: string, kept: Row, ops: AllOps)
    requires s.disk.row == kept && OpsAgree(s, wid, ops)
    ensures Agrees(Step(s, Restart), wid, kept, kept, {}, ops, false, Free)
  {
  }

  // ------------------------------------------------------------------ the class

  class CodexBackend {
    var order: seq<string>
    var workers: map<string, Row>
    var stored: map<string, Row>
    var requests: set<(string, string)>
    var ops: AllOps
    var closed: bool
    /** The process that holds everything above except `stored` and `ops`. */
    var alive: bool
    /** Everything that happened to each worker since it was registered. */
    ghost var history: map<string, seq<Input>>

    ghost function Seen(wid: string): Machine
      reads `history
      requires wid in history
    {
      Run(CodexRuns.Start, history[wid])
    }

    ghost predicate SameWorkers() reads `workers, `stored, `history {
      workers.Keys == stored.Keys == history.Keys
    }

    /** The process runs, and `wid` holds the lock with `due` to do. */
    ghost predicate Locked(wid: string, due: Due) reads this {
      && alive && SameWorkers() && wid in workers
      && forall w | w in workers ::
           Agrees(Seen(w), w, workers[w], stored[w], requests, ops, closed, if w == wid then due else Free)
    }

    /** Between calls nothing is due; a dead process leaves what is stored. */
    ghost predicate Valid() reads this {
      && SameWorkers()
      && (alive ==> AllAgree(history, workers, stored, requests, ops, closed))
      && (!alive ==> AllStored(history, stored, ops))
    }

    constructor ()
      ensures Valid() && alive && workers == map[] && !closed
    {
      order, workers, stored, requests, ops, closed, alive, history := [], map[], map[], {}, map[], false, true, map[];
    }

    /** Whether the worker has stopped, and what that means. */
    method IsStopped(wid: string) returns (stopped: bool)
      requires Valid() && alive
      ensures stopped == (wid in workers && Stopped(workers[wid]))
      ensures stopped ==> Within(Seen(wid).got, Seen(wid).log)
                          && (TrulyStopped(Heard(Seen(wid).log, Seen(wid).got), workers[wid].turn) <==> Harmless(Seen(wid).fatal))
      ensures stopped && !closed ==> Harmless(Seen(wid).fatal)
    {
      if wid !in workers { return false; }
      var row := workers[wid];
      stopped := row.ended && row.pending == map[] && AtRest(row.state) && !WorkInProgress(row.items);
      if stopped { StoppedIsSoundIff(history[wid]); }
    }

    /** What is known of one response; what it claims is backed by what happened. */
    method Query(wid: string, turn: string, key: string) returns (fact: ApprovalFact)
      requires Valid() && alive && wid in workers
      ensures fact == FactFor(Seen(wid), turn, key)
      ensures Backed(Seen(wid).log, turn, key, fact.verdict)
      ensures forall a, about | LastAsked(Seen(wid), a, Some(turn), key, about) && !SuccessIsStored(Seen(wid), turn, key) ::
                HistoryTells(Seen(wid), a, turn, key, about, fact)
    {
      hide Run, Backed, HistoryTells, LastAsked, SuccessIsStored;
      ReportIsBacked(history[wid], turn, key);
      forall a, about | LastAsked(Seen(wid), a, Some(turn), key, about) && !SuccessIsStored(Seen(wid), turn, key)
        ensures HistoryTells(Seen(wid), a, turn, key, about, FactFor(Seen(wid), turn, key))
      {
        FactTellsIff(history[wid], a, turn, key, about);
      }
      var row := workers[wid];
      if key !in row.receipts { return ApprovalFact(Unknown, Undecided, false, false, false); }
      var r := row.receipts[key];
      if r.submitted && r.turn == Some(turn) && (wid, turn, key) in ops {
        var op := ops[(wid, turn, key)];
        if op.status == Succeeded && op.fact.Some? { return op.fact.value; }
      }
      return ReceiptFact(r, turn);
    }

    /** A worker exists from the first save of its row. */
    method Register(wid: string)
      requires Valid() && alive && wid !in workers && !closed
      requires forall key :: (wid, key) !in requests
      requires forall turn, key :: (wid, turn, key) !in ops
      modifies `order, `workers, `stored, `history
      ensures Valid() && history == old(history)[wid := []] && order == old(order) + [wid]
      ensures workers == old(workers)[wid := NewRow] && stored == old(stored)[wid := NewRow]
    {
      hide Run, Agrees;
      StartAgrees(wid, requests, ops);
      order := order + [wid];
      workers, stored := workers[wid := NewRow], stored[wid := NewRow];
      history := history[wid := []];
    }

    // ------------------------------------------- the steps a call is made of

    /** The lock holder takes one step on its own row, requests and operations. */
    method Move(wid: string, i: Input, row: Row, after: set<(string, string)>, later: AllOps, ghost was: Due, ghost due: Due)
      requires Locked(wid, was) && OnlyOf(wid, requests, after, ops, later)
      requires Agrees(Step(Seen(wid), i), wid, row, stored[wid], after, later, closed, due)
      modifies `workers, `requests, `ops, `history
      ensures Locked(wid, due) && history == Grow(old(history), wid, [i], []) && Seen(wid) == Step(old(Seen(wid)), i)
      ensures workers == old(workers)[wid := row] && requests == after && ops == later
    {
      hide Run, Step, Agrees, OnlyOf;
      RunSnoc(CodexRuns.Start, history[wid], i);
      forall w | w in workers && w != wid ensures Agrees(Seen(w), w, workers[w], stored[w], after, later, closed, Free) {
        OthersAgree(Seen(w), w, wid, workers[w], stored[w], requests, after, ops, later, closed);
      }
      GrowOwn(history, wid, [i]);
      workers, requests, ops := workers[wid := row], after, later;
      history := history[wid := history[wid] + [i]];
    }

    /** A step of the lock holder that kills the reader: everybody loses it. */
    method Break(wid: string, i: Input, ghost was: Due)
      requires Locked(wid, was)
      requires Agrees(Step(Seen(wid), i), wid, workers[wid], stored[wid], requests, ops, true, Free)
      modifies `closed, `history
      ensures Locked(wid, Free) && closed && history == Grow(old(history), wid, [i], [Broken])
    {
      hide Run, Step, Agrees;
      forall w | w in workers
        ensures Agrees(Run(CodexRuns.Start, Grow(history, wid, [i], [Broken])[w]), w, workers[w], stored[w], requests, ops, true, Free)
      {
        if w != wid { BrokenAgrees(Seen(w), w, workers[w], stored[w], requests, ops, closed); }
        RunSnoc(CodexRuns.Start, history[w], if w == wid then i else Broken);
      }
      closed := true;
      history := Grow(history, wid, [i], [Broken]);
    }

    /** The save itself: every row at once. */
    method Save(wid: string, ghost due: Due)
      requires Locked(wid, due) && Saving(due)
      modifies `stored, `history
      ensures Locked(wid, Free) && stored == workers && Seen(wid) == Step(old(Seen(wid)), Proceed(true))
      ensures history == Grow(old(history), wid, [Proceed(true)], [SavedAlong])
    {
      hide Run, Step, Agrees;
      forall w | w in workers
        ensures Agrees(Run(CodexRuns.Start, Grow(history, wid, [Proceed(true)], [SavedAlong])[w]),
                       w, workers[w], workers[w], requests, ops, closed, Free)
      {
        SaveAgrees(Seen(w), w, workers[w], stored[w], requests, ops, closed, if w == wid then due else Free);
        RunSnoc(CodexRuns.Start, history[w], if w == wid then Proceed(true) else SavedAlong);
      }
      RunSnoc(CodexRuns.Start, history[wid], Proceed(true));
      stored := workers;
      history := Grow(history, wid, [Proceed(true)], [SavedAlong]);
    }

    method Die(wid: string, ghost due: Due)
      requires Locked(wid, due)
      modifies `alive
      ensures Valid() && !alive
    {
      hide Run, Agrees, OpsAgree;
      forall w | w in workers ensures Seen(w).disk.row == stored[w] && OpsAgree(Seen(w), w, ops) {
        AgreesMeansStored(Seen(w), w, workers[w], stored[w], requests, ops, closed, if w == wid then due else Free);
      }
      alive := false;
    }

    /** A save whose failure only the caller sees. */
    method SaveAside(wid: string, fate: Fate)
      requires Locked(wid, ToSaveAside)
      modifies `stored, `history, `alive
      ensures Valid() && alive == !fate.Died?
      ensures stored == if fate.Done? then workers else old(stored)
      ensures history == Grow(old(history), wid, SaveInputs(true, fate), SaveInputs(false, fate))
    {
      hide Run, Step, Agrees;
      match fate
      case Died =>
        GrowOwn(history, wid, []);
        Die(wid, ToSaveAside);
      case Done =>
        Save(wid, ToSaveAside);
      case Failed =>
        Fail(wid, ToSaveAside);
    }

    /** The save fails and the call goes on; nothing is stored. */
    method Fail(wid: string, ghost due: Due)
      requires Locked(wid, due) && Saving(due) && !due.ToSave?
      modifies `history
      ensures Locked(wid, if due.ToConfirm? then ToDoubt(due.key, due.turn) else Free)
      ensures history == Grow(old(history), wid, [Proceed(false)], []) && Seen(wid) == Step(old(Seen(wid)), Proceed(false))
    {
      hide Run, Step, Agrees;
      FailAgrees(Seen(wid), wid, workers[wid], stored[wid], requests, ops, closed, due);
      RunSnoc(CodexRuns.Start, history[wid], Proceed(false));
      GrowOwn(history, wid, [Proceed(false)]);
      history := history[wid := history[wid] + [Proceed(false)]];
    }

    // ----------------------------------------------------------- public calls

    /** Binding, acknowledgement and invalidation: the row in memory, then a save. */
    method Aside(wid: string, i: Input, row: Row, fate: Fate)
      requires Valid() && alive && wid in workers
      requires (i.Bind? || i.Ack? || i.Invalidate?) && row == AsideRow(workers[wid], i)
      modifies `workers, `stored, `requests, `ops, `history, `alive
      ensures Valid() && alive == !fate.Died? && requests == old(requests) && ops == old(ops)
      ensures workers == old(workers)[wid := row] && stored == if fate.Done? then workers else old(stored)
      ensures history == Grow(old(history), wid, [i] + SaveInputs(true, fate), SaveInputs(false, fate))
    {
      hide Run, Step, Agrees, Grow, OnlyOf, Valid, Locked, AsideRow;
      Takes(wid);
      AsideAgrees(Seen(wid), wid, workers[wid], stored[wid], requests, ops, closed, i);
      NobodyElse(wid, requests, ops);
      Move(wid, i, row, requests, ops, Free, ToSaveAside);
      SaveAside(wid, fate);
      GrowTwice(old(history), wid, [i], [], SaveInputs(true, fate), SaveInputs(false, fate));
      assert [] + SaveInputs(false, fate) == SaveInputs(false, fate);
    }

    /** The thread is bound before the first turn. */
    method BindThread(wid: string, thread: string, fate: Fate)
      requires Valid() && alive && wid in workers
      modifies `workers, `stored, `requests, `ops, `history, `alive
      ensures Valid() && alive == !fate.Died? && requests == old(requests) && ops == old(ops)
      ensures history == Grow(old(history), wid, [Bind(thread)] + SaveInputs(true, fate), SaveInputs(false, fate))
    {
      Aside(wid, Bind(thread), workers[wid].(thread := Some(thread)), fate);
    }

    /** The turn/start response, possibly after the turn's own notifications. */
    method AcceptedTurn(wid: string, turn: string, fate: Fate)
      requires Valid() && alive && wid in workers
      modifies `workers, `stored, `requests, `ops, `history, `alive
      ensures Valid() && alive == !fate.Died? && requests == old(requests) && ops == old(ops)
      ensures history == Grow(old(history), wid, [Ack(turn)] + SaveInputs(true, fate), SaveInputs(false, fate))
    {
      hide Run, Step, Agrees, Grow;
      var row := workers[wid];
      if row.turn != Some(turn) { row := row.(turn := Some(turn), state := Active, ended := false); }
      Aside(wid, Ack(turn), row, fate);
    }

    /** A stop was asked for while the response is outstanding. */
    method InvalidateReceipt(wid: string, key: string, fate: Fate)
      requires Valid() && alive && wid in workers
      modifies `workers, `stored, `requests, `ops, `history, `alive
      ensures Valid() && alive == !fate.Died? && requests == old(requests) && ops == old(ops)
      ensures history == Grow(old(history), wid, [Invalidate(key)] + SaveInputs(true, fate), SaveInputs(false, fate))
    {
      hide Run, Step, Agrees, Grow;
      var row := workers[wid];
      if key in row.receipts && row.receipts[key].submitted {
        row := row.(receipts := row.receipts[key := row.receipts[key].(invalidated := true)]);
      }
      Aside(wid, Invalidate(key), row, fate);
    }

    /** The reader found a frame it cannot read. */
    method GiveUp()
      requires Valid() && alive
      modifies `closed, `history
      ensures Valid() && closed && history == GrowAll(old(history), [Broken])
    {
      hide Run, Step, Agrees;
      forall w | w in workers ensures Agrees(Run(CodexRuns.Start, history[w] + [Broken]), w, workers[w], stored[w], requests, ops, true, Free) {
        BrokenAgrees(Seen(w), w, workers[w], stored[w], requests, ops, closed);
        RunSnoc(CodexRuns.Start, history[w], Broken);
      }
      closed := true;
      history := GrowAll(history, [Broken]);
    }

    /** The reader died; a save that fails is swallowed. */
    method Disconnected(fate: Fate)
      requires Valid() && alive
      modifies `workers, `stored, `closed, `history, `alive
      ensures Valid() && closed && alive == !fate.Died?
      ensures workers == Disconnect(old(workers))
      ensures stored == if fate.Done? then workers else old(stored)
      ensures history == GrowAll(old(history), DropInputs(fate))
    {
      hide Run, Disconnect, GrowAll, DropInputs, AllAgree, AllStored;
      AllDrop(history, workers, stored, requests, ops, closed, fate);
      workers := MarkUnknown(workers);
      closed, alive := true, !fate.Died?;
      if fate.Done? { stored := workers; }
      history := GrowAll(history, DropInputs(fate));
    }

    method FindWorker(thread: Option<string>) returns (wid: Option<string>)
      ensures wid == FirstOn(order, workers, thread)
      ensures wid.Some? ==> wid.value in workers
    {
      wid := None;
      for i := 0 to |order|
        invariant FirstOn(order[..i], workers, thread).None?
      {
        assert order[..i + 1][..i] == order[..i];
        if order[i] in workers && workers[order[i]].thread == thread {
          FirstStays(order, workers, thread, i + 1);
          return Some(order[i]);
        }
      }
      assert order[..|order|] == order;
    }

    /** One message from the reader: the row of its thread changes and is saved,
        or the reader dies and every row learns of it. */
    method Receive(thread: Option<string>, m: Message, wellFormed: bool, save: Fate, drop: Fate)
      requires Valid() && alive && !closed
      modifies `workers, `stored, `requests, `ops, `closed, `alive, `history
      ensures Valid() && ops == old(ops)
      ensures !wellFormed ==> history == GrowAll(old(history), [Broken] + DropInputs(drop))
      ensures wellFormed ==>
                var target := FirstOn(order, old(workers), thread);
                if target.None? then history == old(history)
                else var raises := Handle(old(workers)[target.value], m).None?;
                     history == Grow(old(history), target.value, NoticeInputs(true, m, raises, save, drop), NoticeInputs(false, m, raises, save, drop))
    {
      hide Run, Step, Agrees, Handle, FirstOn, DropInputs, Grow, GrowAll;
      if !wellFormed {
        GiveUp();
        Disconnected(drop);
        GrowAllTwice(old(history), [Broken], DropInputs(drop));
        return;
      }
      var target := FindWorker(thread);
      if target.None? { return; }
      var wid := target.value;
      var next := Notify(workers[wid], m);
      if next.None? {
        Raise(wid, m, drop);
      } else {
        Notice(wid, m, next.value, save, drop);
      }
    }

    /** A handler that raises. */
    method Raise(wid: string, m: Message, drop: Fate)
      requires Valid() && alive && !closed && wid in workers && Handle(workers[wid], m).None?
      modifies `workers, `stored, `closed, `alive, `history
      ensures Valid() && history == Grow(old(history), wid, [Deliver(m)] + DropInputs(drop), [Broken] + DropInputs(drop))
    {
      hide Run, Step, Agrees, Handle, DropInputs, Grow, GrowAll;
      RaiseAgrees(Seen(wid), wid, workers[wid], stored[wid], requests, ops, m);
      Break(wid, Deliver(m), Free);
      Disconnected(drop);
      GrowThenAll(old(history), wid, [Deliver(m)], [Broken], DropInputs(drop));
    }

    /** A save after a notification that fails: the reader dies of it. */
    method LoseReader(wid: string, drop: Fate)
      requires Locked(wid, ToSave)
      modifies `workers, `stored, `closed, `alive, `history
      ensures Valid() && history == Grow(old(history), wid, [Proceed(false)] + DropInputs(drop), [Broken] + DropInputs(drop))
    {
      hide Run, Step, Agrees, DropInputs, Grow, GrowAll;
      FailAgrees(Seen(wid), wid, workers[wid], stored[wid], requests, ops, closed, ToSave);
      Break(wid, Proceed(false), ToSave);
      Disconnected(drop);
      GrowThenAll(old(history), wid, [Proceed(false)], [Broken], DropInputs(drop));
    }

    /** The handled row and its requests, saved or lost with the reader. */
    method Notice(wid: string, m: Message, next: Row, save: Fate, drop: Fate)
      requires Valid() && alive && !closed && wid in workers && Handle(workers[wid], m) == Some(next)
      modifies `workers, `stored, `requests, `ops, `closed, `alive, `history
      ensures Valid() && ops == old(ops)
      ensures history == Grow(old(history), wid, NoticeInputs(true, m, false, save, drop), NoticeInputs(false, m, false, save, drop))
    {
      hide Run, Step, Agrees, Handle, NoticeSave, Grow;
      NotifyAgrees(Seen(wid), wid, workers[wid], stored[wid], requests, ops, m);
      var after := requests;
      if m.Resolved? { after := after - {(wid, m.key)}; } else if m.Request? { after := after + {(wid, m.key)}; }
      Move(wid, Deliver(m), next, after, ops, Free, if m.Other? then Free else ToSave);
      if m.Other? {
        Unlocked(wid);
        assert [Deliver(m)] + [] == [Deliver(m)];
        var nothing: seq<Input> := [];
        assert nothing + nothing == nothing;
        return;
      }
      SaveNotice(wid, save, drop);
      GrowTwice(old(history), wid, [Deliver(m)], [], NoticeSave(true, save, drop), NoticeSave(false, save, drop));
    }

    method SaveNotice(wid: string, save: Fate, drop: Fate)
      requires Locked(wid, ToSave)
      modifies `workers, `stored, `closed, `alive, `history
      ensures Valid() && history == Grow(old(history), wid, NoticeSave(true, save, drop), NoticeSave(false, save, drop))
    {
      hide Run, Step, Agrees, Grow, DropInputs;
      match save
      case Died =>
        GrowOwn(history, wid, []);
        Die(wid, ToSave);
      case Done =>
        Save(wid, ToSave);
        Unlocked(wid);
      case Failed =>
        LoseReader(wid, drop);
    }

    /** A free lock can be taken. */
    lemma Takes(wid: string)
      requires Valid() && alive && wid in workers
      ensures Locked(wid, Free) && wid in history && wid in stored && Agrees(Seen(wid), wid, workers[wid], stored[wid], requests, ops, closed, Free)
    {
      hide Run, Agrees;
    }

    /** Nothing is due: the lock is free. */
    lemma Unlocked(wid: string)
      requires Locked(wid, Free)
      ensures Valid()
    {
      hide Run, Agrees;
    }

    /** A new process: rows and operations are loaded from the store. */
    method Reconnect()
      requires Valid()
      modifies `workers, `requests, `closed, `alive, `history
      ensures Valid() && alive && !closed && requests == {} && workers == stored
      ensures history == GrowAll(old(history), [Restart])
    {
      hide Run, AllAgree, AllStored, GrowAll;
      if alive { AgreeingIsStored(history, workers, stored, requests, ops, closed); }
      AllRestart(history, stored, ops);
      GrowAllKeys(history, [Restart]);
      workers, requests, closed, alive := stored, {}, false, true;
      history := GrowAll(history, [Restart]);
    }

    // ------------------------------------------------------ answering a request

    /** Store that the outcome of a write is unknown. */
    method DoubtResponse(wid: string, key: string, turn: string, fates: seq<Fate>)
      requires Locked(wid, ToDoubt(key, turn)) && |fates| >= 1
      modifies `workers, `stored, `requests, `ops, `alive, `history
      ensures Valid() && wid in workers && (alive <==> Seen(wid).due.Free?)
      ensures history == Answered(old(history), wid, old(Seen(wid)), fates)
    {
      hide Run, Step, Agrees, Grow, Follow, Saves;
      ghost var s := Seen(wid);
      AgreesMeansStored(s, wid, workers[wid], stored[wid], requests, ops, closed, ToDoubt(key, turn));
      FollowStep(history, wid, s, fates);
      if fates[0].Died? {
        Die(wid, ToDoubt(key, turn));
        return;
      }
      var ok, id := fates[0].Done?, (wid, turn, key);
      DoubtAgrees(s, wid, workers[wid], stored[wid], requests, ops, closed, ToDoubt(key, turn), ok);
      NobodyElse(wid, requests, ops);
      var later := ops;
      if ok && id in ops {
        later := ops[id := ops[id].(status := Unknown)];
        OwnOpOnly(wid, requests, ops, turn, key, later[id]);
      }
      Move(wid, Proceed(ok), workers[wid], requests, later, ToDoubt(key, turn), Free);
      Finished(wid, fates[1..]);
    }

    /** Nothing is due any more. */
    lemma Finished(wid: string, fates: seq<Fate>)
      requires Locked(wid, Free)
      ensures Valid() && Seen(wid).due.Free? && Answered(history, wid, Seen(wid), fates) == history
    {
      hide Run, Agrees, Grow;
      AgreesMeansStored(Seen(wid), wid, workers[wid], stored[wid], requests, ops, closed, Free);
      GrowOwn(history, wid, []);
    }

    /** The save after a good write; if it fails the outcome is doubtful. */
    method ConfirmResponse(wid: string, key: string, turn: string, fates: seq<Fate>)
      requires Locked(wid, ToConfirm(key, turn)) && |fates| >= 2
      modifies `workers, `stored, `requests, `ops, `alive, `history
      ensures Valid() && wid in workers && (alive <==> Seen(wid).due.Free?)
      ensures history == Answered(old(history), wid, old(Seen(wid)), fates)
    {
      hide Run, Step, Agrees, Grow, Follow, Saves;
      ghost var s := Seen(wid);
      AgreesMeansStored(s, wid, workers[wid], stored[wid], requests, ops, closed, ToConfirm(key, turn));
      FollowStep(history, wid, s, fates);
      match fates[0]
      case Died =>
        Die(wid, ToConfirm(key, turn));
      case Done =>
        Save(wid, ToConfirm(key, turn));
        Finished(wid, fates[1..]);
      case Failed =>
        Fail(wid, ToConfirm(key, turn));
        DoubtResponse(wid, key, turn, fates[1..]);
    }

    /** One write for the claim in hand. */
    method WriteResponse(wid: string, key: string, turn: string, decision: Decision, fates: seq<Fate>)
      requires Locked(wid, ToWrite(key, turn, decision)) && |fates| >= 3
      modifies `workers, `stored, `requests, `ops, `alive, `history
      ensures Valid() && wid in workers && (alive <==> Seen(wid).due.Free?)
      ensures history == Answered(old(history), wid, old(Seen(wid)), fates)
    {
      hide Run, Step, Agrees, Grow, Follow, Saves;
      ghost var s, due := Seen(wid), ToWrite(key, turn, decision);
      AgreesMeansStored(s, wid, workers[wid], stored[wid], requests, ops, closed, due);
      FollowStep(history, wid, s, fates);
      if fates[0].Died? {
        Die(wid, due);
        return;
      }
      var ok, row := fates[0].Done?, workers[wid];
      WriteAgrees(s, wid, row, stored[wid], requests, ops, closed, due, ok);
      NobodyElse(wid, requests, ops);
      if ok && key in row.receipts {
        row := row.(receipts := row.receipts[key := row.receipts[key].(written := true)]);
        Move(wid, Proceed(ok), row, requests, ops, due, ToConfirm(key, turn));
        ConfirmResponse(wid, key, turn, fates[1..]);
      } else {
        Move(wid, Proceed(ok), row, requests, ops, due, ToDoubt(key, turn));
        DoubtResponse(wid, key, turn, fates[1..]);
      }
    }

    /** The durable claim: won at most once per identity. */
    method ClaimResponse(wid: string, key: string, turn: string, decision: Decision, fates: seq<Fate>)
      requires Locked(wid, ToClaim(key, turn, decision)) && |fates| >= 4
      modifies `workers, `stored, `requests, `ops, `alive, `history
      ensures Valid() && wid in workers && (alive <==> Seen(wid).due.Free?)
      ensures history == Answered(old(history), wid, old(Seen(wid)), fates)
    {
      hide Run, Step, Agrees, Grow, Follow, Saves;
      ghost var s, due := Seen(wid), ToClaim(key, turn, decision);
      AgreesMeansStored(s, wid, workers[wid], stored[wid], requests, ops, closed, due);
      FollowStep(history, wid, s, fates);
      if fates[0].Died? {
        Die(wid, due);
        return;
      }
      var ok, row, id := fates[0].Done?, workers[wid], (wid, turn, key);
      if !ok || id !in ops || ops[id].status != NotStarted || ops[id].attempts >= 1 || key !in row.receipts {
        RefusedAgrees(s, wid, row, stored[wid], requests, ops, closed, due, ok);
        NobodyElse(wid, requests, ops);
        Move(wid, Proceed(ok), row, requests, ops, due, Free);
        Finished(wid, fates[1..]);
        return;
      }
      ClaimAgrees(s, wid, row, stored[wid], requests, ops, closed, due);
      var later := ops[id := ops[id].(status := InFlight, attempts := 1)];
      OwnOpOnly(wid, requests, ops, turn, key, later[id]);
      var receipt := row.receipts[key].(decision := Some(decision), submitted := true);
      row := row.(receipts := row.receipts[key := receipt]);
      Move(wid, Proceed(ok), row, requests, later, due, ToWrite(key, turn, decision));
      WriteResponse(wid, key, turn, decision, fates[1..]);
    }

    /** Answer a request: its intent, then claim, write and save, each of which
        may fail or be the last thing the process does. */
    method SubmitApproval(wid: string, key: string, decision: Decision, permitted: bool, fates: seq<Fate>)
      requires Valid() && alive && wid in workers && |fates| >= 4
      modifies `workers, `stored, `requests, `ops, `alive, `history
      ensures Valid() && wid in workers && (alive <==> Seen(wid).due.Free?)
      ensures var i := Submit(key, decision, permitted);
              history == Answered(Grow(old(history), wid, [i], []), wid, Step(old(Seen(wid)), i), fates)
    {
      hide Run, Step, Agrees, Grow, Follow, Saves;
      var row, i := workers[wid], Submit(key, decision, permitted);
      SubmitAgrees(Seen(wid), wid, row, stored[wid], requests, ops, closed, key, decision, permitted);
      NobodyElse(wid, requests, ops);
      if !Answerable(row, wid, requests, closed, key, permitted) {
        Move(wid, i, row, requests, ops, Free, Free);
        Finished(wid, fates);
        return;
      }
      var turn := row.receipts[key].turn.value;
      var id := (wid, turn, key);
      if id in ops && ops[id].decision != decision {
        Move(wid, i, row, requests, ops, Free, Free);
        Finished(wid, fates);
        return;
      }
      var later := WithIntent(ops, id, decision);
      if id !in ops { OwnOpOnly(wid, requests, ops, turn, key, later[id]); }
      Move(wid, i, row, requests, later, Free, ToClaim(key, turn, decision));
      ClaimResponse(wid, key, turn, decision, fates);
    }

    /** Store what is known of a response; a stored success is final. */
    method RecordFact(wid: string, turn: string, key: string)
      requires Valid() && alive && wid in workers
      modifies `workers, `requests, `ops, `history
      ensures Valid() && history == Grow(old(history), wid, [Record(turn, key)], []) && workers == old(workers)
      ensures var id, fact := (wid, turn, key), FactFor(old(Seen(wid)), turn, key);
              ops == if id in old(ops) && old(ops)[id].attempts > 0 && old(ops)[id].status != Succeeded
                     then old(ops)[id := old(ops)[id].(status := fact.status, fact := Some(fact))] else old(ops)
    {
      hide Run, Step, Agrees, FactFor, HistoryTells, LastAsked, SuccessIsStored;
      RecordAgrees(Seen(wid), wid, workers[wid], stored[wid], requests, ops, closed, turn, key);
      var fact := Query(wid, turn, key);
      var id := (wid, turn, key);
      var later := ops;
      NobodyElse(wid, requests, ops);
      if id in ops && ops[id].attempts > 0 && ops[id].status != Succeeded {
        later := ops[id := ops[id].(status := fact.status, fact := Some(fact))];
        OwnOpOnly(wid, requests, ops, turn, key, later[id]);
      }
      Move(wid, Record(turn, key), workers[wid], requests, later, Free, Free);
    }
  }

  /** The histories after the due steps of an answer to one of `wid`'s requests. */
  ghost function Answered(history: map<string, seq<Input>>, wid: string, s: Machine, fates: seq<Fate>): map<string, seq<Input>> {
    Grow(history, wid, Follow(s, fates), if Saves(s, fates) then [SavedAlong] else [])
  }

  lemma FollowStep(history: map<string, seq<Input>>, wid: string, s: Machine, fates: seq<Fate>)
    requires !s.due.Free? && fates != []
    ensures fates[0].Died? ==> Answered(history, wid, s, fates) == history
    ensures !fates[0].Died? ==>
              var i := Proceed(fates[0].Done?);
              var along := if Saving(s.due) && fates[0].Done? then [SavedAlong] else [];
              (along == [] || Step(s, i).due.Free?) ==>
                Answered(history, wid, s, fates) == Answered(Grow(history, wid, [i], along), wid, Step(s, i), fates[1..])
  {
    if fates[0].Died? {
      GrowOwn(history, wid, []);
    } else {
      var i := Proceed(fates[0].Done?);
      var along := if Saving(s.due) && fates[0].Done? then [SavedAlong] else [];
      var v := Step(s, i);
      hide Step, Grow;
      GrowTwice(history, wid, [i], along, Follow(v, fates[1..]), if Saves(v, fates[1..]) then [SavedAlong] else []);
      assert along == [] ==> along + [SavedAlong] == [SavedAlong];
      assert along == [] ==> along + [] == [];
      assert [SavedAlong] + [] == [SavedAlong];
    }
  }

  lemma {:induction false} FirstStays(order: seq<string>, workers: map<string, Row>, thread: Option<string>, i: nat)
    requires i <= |order| && FirstOn(order[..i], workers, thread).Some?
    ensures FirstOn(order, workers, thread) == FirstOn(order[..i], workers, thread)
    decreases |order| - i
  {
    if i < |order| {
      assert order[..i + 1][..i] == order[..i];
      FirstStays(order, workers, thread, i + 1);
    } else {
      assert order[..i] == order;
    }
  }
}
