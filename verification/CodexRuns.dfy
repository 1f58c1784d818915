/** Every interleaving of notifications, acknowledgements, approvals, stops,
    disconnects and crashes on one worker.  The row exists twice, in memory and
    in the store, and every save is a step of its own that can fail or never
    come; the history of what really happened is kept beside both. */
module CodexRuns {
  import opened OperationStore
  import opened CodexRow

  /** What happened to the worker, in order: every message received and handled
      or refused, and everything written.  `ClaimLost`: a process died with a
      claim in hand and nothing written. */
  datatype Event =
    | Announced(turn: Option<string>)
    | Ended(turn: Option<string>, status: string)
    | Acked(turn: Option<string>)
    | ItemSeen(turn: Option<string>, id: string, item: Item, completed: bool)
    | Asked(turn: Option<string>, key: string, about: Option<string>)
    | Closed(key: string)
    | Wrote(onTurn: string, key: string, decision: Decision)
    | WriteFailed(onTurn: string, key: string)
    | ClaimLost(onTurn: string, key: string)
    | Withdrawn(key: string)                        // a submitted answer is overtaken by a stop
    | Errored(willRetry: bool)
    | Quiet

  /** The stored operation of one (turn, request) identity. */
  datatype ApprovalOp = ApprovalOp(decision: Decision, status: Status, attempts: nat, fact: Option<ApprovalFact>)

  /** A row and what it rests on: the positions in the history it has taken in,
      and of those the one at which the request of each receipt was asked. */
  datatype View = View(row: Row, known: seq<nat>, asked: map<string, nat>)

  /** What the holder of the lock does next. */
  datatype Due =
    | Free
    | ToSave                                        // a failure kills the reader
    | ToSaveAside                                   // a failure is raised or swallowed
    | ToClaim(key: string, turn: string, decision: Decision)
    | ToWrite(key: string, turn: string, decision: Decision)
    | ToConfirm(key: string, turn: string)          // save after a good write
    | ToDoubt(key: string, turn: string)            // store that the outcome is unknown

  /** `got`: the positions of the history this process has received or loaded.
      `fatal`: what the message said whose handler raised and killed the reader;
      it is received, and no row takes it in. */
  datatype Machine = Machine(
    mem: View, disk: View, live: set<string>, closed: bool, due: Due,
    ops: map<(string, string), ApprovalOp>, log: seq<Event>, got: seq<nat>, fatal: Option<Event>)

  /** `Proceed` is the due step; anything else but a crash, or the reader giving
      up (`Broken`), waits for the lock.  `SavedAlong`: another worker's save
      stored this row too. */
  datatype Input =
    | Deliver(m: Message)
    | Bind(thread: string)
    | Ack(turn: string)
    | Broken
    | Drop
    | Submit(key: string, decision: Decision, permitted: bool)
    | Invalidate(key: string)
    | Record(turn: string, key: string)
    | SavedAlong
    | Proceed(ok: bool)
    | Restart

  const Blank := View(NewRow, [], map[])

  const Start := Machine(Blank, Blank, {}, false, Free, map[], [], [], None)

  function EventOf(m: Message): Event {
    match m
    case TurnStarted(turn) => Announced(turn)
    case TurnCompleted(turn, status) => Ended(turn, status)
    case ItemStarted(turn, id, item) => ItemSeen(turn, id, item, false)
    case ItemCompleted(turn, id, item) => ItemSeen(turn, id, item, true)
    case Resolved(key) => Closed(key)
    case Request(turn, key, about) => Asked(turn, key, about)
    case Error(willRetry) => Errored(willRetry)
    case _ => Quiet
  }

  function LiveAfter(live: set<string>, m: Message): set<string> {
    match m
    case Resolved(key) => live - {key}
    case Request(_, key, _) => live + {key}
    case _ => live
  }

  /** Memory takes an event in and becomes `row`. */
  function Hear(s: Machine, row: Row, e: Event): Machine {
    var asked := if e.Asked? then s.mem.asked[e.key := |s.log|] else s.mem.asked;
    s.(mem := View(row, s.mem.known + [|s.log|], asked), log := s.log + [e], got := s.got + [|s.log|])
  }

  function WithRow(s: Machine, row: Row): Machine { s.(mem := s.mem.(row := row)) }

  /** A handler that raises: the message is received, the row is left as it was
      and waits for the disconnect, and nothing is received after it. */
  function Refused(s: Machine, e: Event): Machine {
    s.(closed := true, log := s.log + [e], got := s.got + [|s.log|], fatal := Some(e))
  }

  function Delivered(s: Machine, m: Message): Machine {
    if s.closed then s else
    match Handle(s.mem.row, m)
    case None => Refused(s, EventOf(m))
    case Some(row) => Hear(s, row, EventOf(m)).(live := LiveAfter(s.live, m), due := if m.Other? then Free else ToSave)
  }

  /** The stored fact of a succeeded response is returned unchanged. */
  function FactFor(s: Machine, turn: string, key: string): ApprovalFact {
    if key !in s.mem.row.receipts then ApprovalFact(Unknown, Undecided, false, false, false) else
    var r := s.mem.row.receipts[key];
    if r.submitted && r.turn == Some(turn) && (turn, key) in s.ops
       && s.ops[(turn, key)].status == Succeeded && s.ops[(turn, key)].fact.Some?
    then s.ops[(turn, key)].fact.value
    else ReceiptFact(r, turn)
  }

  /** A live, permitted request gets its intent; a different answer to the same
      identity is refused. */
  function Submitted(s: Machine, key: string, decision: Decision, permitted: bool): Machine {
    var row := s.mem.row;
    if key !in s.live || s.closed || row.ended || !permitted || key !in row.receipts || row.receipts[key].turn.None? then s else
    var turn := row.receipts[key].turn.value;
    var op := if (turn, key) in s.ops then s.ops[(turn, key)] else ApprovalOp(decision, NotStarted, 0, None);
    if op.decision != decision then s
    else s.(ops := s.ops[(turn, key) := op], due := ToClaim(key, turn, decision))
  }

  /** The durable claim, then the receipt in memory. */
  function Claimed(s: Machine, ok: bool): Machine
    requires s.due.ToClaim?
  {
    var ToClaim(key, turn, decision) := s.due;
    var id := (turn, key);
    if !ok || id !in s.ops || s.ops[id].status != NotStarted || s.ops[id].attempts >= 1 || key !in s.mem.row.receipts
    then s.(due := Free) else
    var receipt := s.mem.row.receipts[key].(decision := Some(decision), submitted := true);
    WithRow(s, s.mem.row.(receipts := s.mem.row.receipts[key := receipt]))
      .(ops := s.ops[id := s.ops[id].(status := InFlight, attempts := 1)], due := ToWrite(key, turn, decision))
  }

  function Written(s: Machine, ok: bool): Machine
    requires s.due.ToWrite?
  {
    var ToWrite(key, turn, decision) := s.due;
    var row := s.mem.row;
    if !ok || key !in row.receipts then Hear(s, row, WriteFailed(turn, key)).(due := ToDoubt(key, turn)) else
    Hear(s, row.(receipts := row.receipts[key := row.receipts[key].(written := true)]), Wrote(turn, key, decision))
      .(due := ToConfirm(key, turn))
  }

  function Saved(s: Machine): Machine { s.(disk := s.mem, due := Free) }

  function Doubted(s: Machine, id: (string, string)): Machine {
    s.(due := Free, ops := if id in s.ops then s.ops[id := s.ops[id].(status := Unknown)] else s.ops)
  }

  function Proceeded(s: Machine, ok: bool): Machine {
    match s.due
    case Free => s
    case ToSave => if ok then Saved(s) else s.(closed := true, due := Free)
    case ToSaveAside => if ok then Saved(s) else s.(due := Free)
    case ToClaim(_, _, _) => Claimed(s, ok)
    case ToWrite(_, _, _) => Written(s, ok)
    case ToConfirm(key, turn) => if ok then Saved(s) else s.(due := ToDoubt(key, turn))
    case ToDoubt(key, turn) => if ok then Doubted(s, (turn, key)) else s.(due := Free)
  }

  /** A new process knows what was saved, and no live request. */
  function Restarted(s: Machine): Machine {
    s.(mem := s.disk, live := {}, closed := false, due := Free, got := s.disk.known, fatal := None,
       log := if s.due.ToWrite? then s.log + [ClaimLost(s.due.turn, s.due.key)] else s.log)
  }

  function Recorded(s: Machine, turn: string, key: string): Machine {
    var id := (turn, key);
    if id !in s.ops || s.ops[id].attempts == 0 || s.ops[id].status == Succeeded then s else
    var fact := FactFor(s, turn, key);
    s.(ops := s.ops[id := s.ops[id].(status := fact.status, fact := Some(fact))])
  }

  function MarkedInvalid(row: Row, key: string): Row {
    if key in row.receipts && row.receipts[key].submitted
    then row.(receipts := row.receipts[key := row.receipts[key].(invalidated := true)]) else row
  }

  function Overtaken(s: Machine, key: string): Machine {
    var row := s.mem.row;
    if key in row.receipts && row.receipts[key].submitted then Hear(s, MarkedInvalid(row, key), Withdrawn(key)) else s
  }

  function Step(s: Machine, i: Input): Machine {
    if i.Restart? then Restarted(s)
    else if i.Proceed? then Proceeded(s, i.ok)
    else if i.Broken? then s.(closed := true)
    else if !s.due.Free? then s else
    match i
    case Deliver(m) => Delivered(s, m)
    case Bind(thread) => WithRow(s, s.mem.row.(thread := Some(thread))).(due := ToSaveAside)
    case Ack(turn) => Hear(s, OnAccepted(s.mem.row, turn), Acked(Some(turn))).(due := ToSaveAside)
    case Drop => WithRow(s, OnDisconnect(s.mem.row)).(closed := true, due := ToSaveAside)
    case Submit(key, decision, permitted) => Submitted(s, key, decision, permitted)
    case Invalidate(key) => Overtaken(s, key).(due := ToSaveAside)
    case Record(turn, key) => Recorded(s, turn, key)
    case SavedAlong => Saved(s)
    case _ => s
  }

  function Run(s: Machine, inputs: seq<Input>): Machine
    decreases |inputs|
  {
    if inputs == [] then s else Run(Step(s, inputs[0]), inputs[1..])
  }

  lemma {:induction false} RunSnoc(s: Machine, inputs: seq<Input>, i: Input)
    ensures Run(s, inputs + [i]) == Step(Run(s, inputs), i)
    decreases |inputs|
  {
    if inputs == [] {
      assert (inputs + [i])[1..] == [];
    } else {
      RunSnoc(Step(s, inputs[0]), inputs[1..], i);
      assert (inputs + [i])[0] == inputs[0] && (inputs + [i])[1..] == inputs[1..] + [i];
    }
  }

  // -------------------------------------------------- what a row has taken in

  /** Positions of the history, in order. */
  predicate Within(known: seq<nat>, log: seq<Event>) {
    && (forall i | 0 <= i < |known| :: known[i] < |log|)
    && forall i, j | 0 <= i < j < |known| :: known[i] < known[j]
  }

  /** The part of the history a row rests on. */
  function Heard(log: seq<Event>, known: seq<nat>): seq<Event>
    requires Within(known, log)
  {
    seq(|known|, i requires 0 <= i < |known| => log[known[i]])
  }

  lemma HeardMore(log: seq<Event>, known: seq<nat>, e: Event)
    requires Within(known, log)
    ensures Within(known, log + [e]) && Heard(log + [e], known) == Heard(log, known)
    ensures Within(known + [|log|], log + [e]) && Heard(log + [e], known + [|log|]) == Heard(log, known) + [e]
  {
  }

  /** All of it, when no position is missing. */
  lemma NothingMissing(log: seq<Event>, known: seq<nat>)
    requires Within(known, log) && |known| == |log|
    ensures Heard(log, known) == log
  {
    forall i | 0 <= i < |known| ensures known[i] == i { Squeezed(known, log, i); }
  }

  lemma {:induction false} Squeezed(known: seq<nat>, log: seq<Event>, i: nat)
    requires Within(known, log) && |known| == |log| && i < |known|
    ensures known[i] == i
  {
    AtLeast(known, log, i);
    AtMost(known, log, i);
  }

  lemma {:induction false} AtLeast(known: seq<nat>, log: seq<Event>, i: nat)
    requires Within(known, log) && i < |known|
    ensures i <= known[i]
  {
    if i > 0 { AtLeast(known, log, i - 1); }
  }

  lemma {:induction false} AtMost(known: seq<nat>, log: seq<Event>, i: nat)
    requires Within(known, log) && i < |known|
    ensures known[i] + (|known| - i) <= |log|
    decreases |known| - i
  {
    if i + 1 < |known| { AtMost(known, log, i + 1); }
  }

  // ------------------------------------------------- readings of the history

  /** After this event `turn` is no longer known to have ended. */
  predicate Reopens(e: Event, turn: Option<string>) {
    match e
    case Announced(_) => true
    case Acked(other) => other != turn
    case Ended(other, status) => other != turn || !Recognised(status)
    case _ => false
  }

  /** The turn announced or acknowledged last. */
  function LatestTurn(log: seq<Event>): Option<string> {
    if log == [] then None else
    match log[|log| - 1]
    case Announced(turn) => turn
    case Acked(turn) => turn
    case _ => LatestTurn(log[..|log| - 1])
  }

  /** A recognised completion of `turn` was received while it was the latest
      turn, and since then no turn was announced, no other turn acknowledged, no
      doubtful completion received. */
  ghost predicate TurnOver(log: seq<Event>, turn: Option<string>) {
    exists i :: 0 <= i < |log| && EndsTurn(log, i, turn) && forall j | i < j < |log| :: !Reopens(log[j], turn)
  }

  predicate EndsTurn(log: seq<Event>, i: nat, turn: Option<string>)
    requires i < |log|
  {
    log[i].Ended? && log[i].turn == turn && Recognised(log[i].status) && LatestTurn(log[..i]) == turn
  }

  /** Requests asked and not closed since. */
  function OpenRequests(log: seq<Event>): set<string> {
    if log == [] then {} else
    var before := OpenRequests(log[..|log| - 1]);
    match log[|log| - 1]
    case Asked(_, key, _) => before + {key}
    case Closed(key) => before - {key}
    case _ => before
  }

  /** The items of the turn announced last, as last reported. */
  function ItemsOf(log: seq<Event>): map<string, Item> {
    if log == [] then map[] else
    var before := ItemsOf(log[..|log| - 1]);
    match log[|log| - 1]
    case Announced(_) => map[]
    case ItemSeen(_, id, item, _) => before[id := item]
    case _ => before
  }

  /** A final error since the last turn was announced. */
  predicate Faulted(log: seq<Event>) {
    if log == [] then false else
    match log[|log| - 1]
    case Announced(_) => false
    case Errored(willRetry) => !willRetry || Faulted(log[..|log| - 1])
    case _ => Faulted(log[..|log| - 1])
  }

  /** The state a worker came to rest in, if nothing has stirred it since: idle
      after a completed turn without a final error, interrupted after an
      interrupted one, failed after any other ended one or a final error. */
  function Standing(log: seq<Event>): Option<RowState> {
    if log == [] then None else
    var before := log[..|log| - 1];
    match log[|log| - 1]
    case Ended(turn, status) =>
      if turn != LatestTurn(before) || !Recognised(status) then None
      else if status == "interrupted" then Some(InterruptedState)
      else if status == "failed" || Faulted(before) then Some(FailedState)
      else Some(IdleState)
    case Errored(willRetry) => if willRetry then None else Some(FailedState)
    case Announced(_) => None
    case Asked(_, _, _) => None
    case Acked(turn) => if turn == LatestTurn(before) then Standing(before) else None
    case _ => Standing(before)
  }

  /** The turn is over, nothing is asked and nothing runs. */
  ghost predicate TrulyStopped(log: seq<Event>, turn: Option<string>) {
    TurnOver(log, turn) && OpenRequests(log) == {} && !WorkInProgress(ItemsOf(log))
  }

  lemma Grown(log: seq<Event>, e: Event)
    ensures (log + [e])[..|log + [e]| - 1] == log && (log + [e])[|log|] == e
  {
  }

  lemma TurnOverGrows(log: seq<Event>, e: Event, turn: Option<string>)
    requires TurnOver(log, turn) && !Reopens(e, turn)
    ensures TurnOver(log + [e], turn)
  {
    var i :| 0 <= i < |log| && EndsTurn(log, i, turn) && forall j | i < j < |log| :: !Reopens(log[j], turn);
    assert (log + [e])[..i] == log[..i] && EndsTurn(log + [e], i, turn);
  }

  lemma TurnOverStep(log: seq<Event>, e: Event, turn: Option<string>)
    ensures TurnOver(log + [e], turn) <==>
            || (TurnOver(log, turn) && !Reopens(e, turn))
            || (e.Ended? && e.turn == turn && Recognised(e.status) && LatestTurn(log) == turn)
  {
    var more := log + [e];
    assert more[..|log|] == log && more[|log|] == e;
    if TurnOver(log, turn) && !Reopens(e, turn) { TurnOverGrows(log, e, turn); }
    if e.Ended? && e.turn == turn && Recognised(e.status) && LatestTurn(log) == turn {
      assert EndsTurn(more, |log|, turn);
    }
    if TurnOver(more, turn) {
      var i :| 0 <= i < |more| && EndsTurn(more, i, turn) && forall j | i < j < |more| :: !Reopens(more[j], turn);
      if i < |log| {
        assert more[..i] == log[..i] && EndsTurn(log, i, turn) && !Reopens(more[|log|], turn);
        assert forall j | i < j < |log| :: more[j] == log[j];
      }
    }
  }

  /** Only the latest turn can be over. */
  lemma {:induction false} OverIsLatest(log: seq<Event>, turn: Option<string>)
    requires TurnOver(log, turn)
    ensures LatestTurn(log) == turn
    decreases |log|
  {
    var e := log[|log| - 1];
    assert log == log[..|log| - 1] + [e];
    TurnOverStep(log[..|log| - 1], e, turn);
    if TurnOver(log[..|log| - 1], turn) { OverIsLatest(log[..|log| - 1], turn); }
  }

  // ----------------------------------------------------------- stop soundness

  /** The row says of turn, end, requests and items exactly what happened. */
  ghost predicate RowOk(row: Row, log: seq<Event>) {
    && row.turn == LatestTurn(log) && (row.ended <==> TurnOver(log, row.turn))
    && row.pending.Keys == OpenRequests(log)
    && row.items == ItemsOf(log)
    && (row.state == WaitingInput ==> row.pending != map[])
    && (row.terminalError <==> Faulted(log))
    && (if AtRest(row.state) then Standing(log) == Some(row.state) else Standing(log).None?)
  }

  ghost predicate ViewOk(v: View, log: seq<Event>) {
    Within(v.known, log) && RowOk(v.row, Heard(log, v.known))
  }

  /** How what was received differs from what the row has taken in, when a
      message saying `e` was refused and nothing was delivered after it. */
  ghost predicate Misses(received: seq<Event>, heard: seq<Event>, e: Event) {
    if e.Announced? then forall turn :: !TurnOver(received, turn)
    else
      && LatestTurn(received) == LatestTurn(heard) && (forall turn :: TurnOver(received, turn) <==> TurnOver(heard, turn))
      && OpenRequests(received) == OpenRequests(heard) + (if e.Asked? then {e.key} else {})
      && ItemsOf(received) == if e.ItemSeen? then ItemsOf(heard)[e.id := e.item] else ItemsOf(heard)
  }

  /** The row has taken in all that was received, or all but what killed the reader. */
  ghost predicate GotOk(s: Machine) {
    && Within(s.got, s.log)
    && if s.fatal.None? then s.got == s.mem.known
       else s.closed && Within(s.mem.known, s.log) && Misses(Heard(s.log, s.got), Heard(s.log, s.mem.known), s.fatal.value)
  }

  /** Memory and store both tell the truth about what they have taken in, and
      memory has taken in all that the store has. */
  ghost predicate RowsOk(s: Machine) {
    ViewOk(s.mem, s.log) && ViewOk(s.disk, s.log) && s.disk.known <= s.mem.known && GotOk(s)
  }

  predicate Aside(e: Event) { e.Quiet? || e.Wrote? || e.WriteFailed? || e.ClaimLost? || e.Withdrawn? }

  lemma AsideKeepsRowOk(row: Row, log: seq<Event>, e: Event)
    requires RowOk(row, log) && Aside(e)
    ensures RowOk(row, log + [e])
  {
    Grown(log, e);
    TurnOverStep(log, e, row.turn);
  }

  lemma HandleKeepsRowOk(row: Row, log: seq<Event>, m: Message)
    requires RowOk(row, log) && Handle(row, m).Some?
    ensures RowOk(Handle(row, m).value, log + [EventOf(m)])
  {
    var after := Handle(row, m).value;
    Grown(log, EventOf(m));
    TurnOverStep(log, EventOf(m), after.turn);
  }

  lemma AcceptedKeepsRowOk(row: Row, log: seq<Event>, turn: string)
    requires RowOk(row, log)
    ensures RowOk(OnAccepted(row, turn), log + [Acked(Some(turn))])
  {
    Grown(log, Acked(Some(turn)));
    TurnOverStep(log, Acked(Some(turn)), Some(turn));
    if TurnOver(log, Some(turn)) { OverIsLatest(log, Some(turn)); }
  }

  lemma MissesMore(received: seq<Event>, heard: seq<Event>, e: Event, more: Event)
    requires Misses(received, heard, e) && (more.Acked? || Aside(more))
    ensures Misses(received + [more], heard + [more], e)
  {
    Grown(received, more);
    Grown(heard, more);
    forall turn ensures !e.Announced? ==> (TurnOver(received + [more], turn) <==> TurnOver(heard + [more], turn))
      ensures e.Announced? ==> !TurnOver(received + [more], turn)
    {
      TurnOverStep(received, more, turn);
      TurnOverStep(heard, more, turn);
    }
  }

  lemma RefusalMisses(heard: seq<Event>, row: Row, m: Message)
    requires Handle(row, m).None?
    ensures Misses(heard + [EventOf(m)], heard, EventOf(m))
  {
    Grown(heard, EventOf(m));
    forall turn ensures TurnOver(heard + [EventOf(m)], turn) <==> TurnOver(heard, turn) && !Reopens(EventOf(m), turn) {
      TurnOverStep(heard, EventOf(m), turn);
    }
  }

  /** Memory changes by one event it hears; the store stays what it was. */
  lemma HearKeepsRowsOk(s: Machine, row: Row, e: Event)
    requires RowsOk(s) && RowOk(row, Heard(s.log, s.mem.known) + [e])
    requires s.fatal.Some? ==> e.Acked? || Aside(e)
    ensures RowsOk(Hear(s, row, e))
  {
    hide RowOk, Misses;
    HeardMore(s.log, s.mem.known, e);
    HeardMore(s.log, s.disk.known, e);
    HeardMore(s.log, s.got, e);
    if s.fatal.Some? { MissesMore(Heard(s.log, s.got), Heard(s.log, s.mem.known), s.fatal.value, e); }
  }

  lemma RefuseKeepsRowsOk(s: Machine, m: Message)
    requires RowsOk(s) && !s.closed && Handle(s.mem.row, m).None?
    ensures RowsOk(Refused(s, EventOf(m)))
  {
    var e := EventOf(m);
    RefusalMisses(Heard(s.log, s.mem.known), s.mem.row, m);
    hide RowOk, Misses, Handle;
    HeardMore(s.log, s.mem.known, e);
    HeardMore(s.log, s.disk.known, e);
  }

  lemma WriteKeepsRowsOk(s: Machine, ok: bool)
    requires RowsOk(s) && s.due.ToWrite?
    ensures RowsOk(Written(s, ok))
  {
    hide TurnOver, OpenRequests, ItemsOf, LatestTurn, Misses;
    var heard, row, e := Heard(s.log, s.mem.known), Written(s, ok).mem.row, Written(s, ok).log[|s.log|];
    assert RowOk(row, heard);
    AsideKeepsRowOk(row, heard, e);
    hide RowOk;
    HearKeepsRowsOk(s, row, e);
  }

  /** Nothing is heard; receipts may change, and memory may be saved. */
  lemma SameHistoryKeepsRowsOk(s: Machine, v: Machine)
    requires RowsOk(s) && v.log == s.log && v.got == s.got && v.fatal == s.fatal && (s.closed ==> v.closed)
    requires v.mem.known == s.mem.known && (v.disk == s.disk || v.disk == v.mem)
    requires var r, q := s.mem.row, v.mem.row;
             && q.turn == r.turn && q.ended == r.ended && q.pending == r.pending && q.items == r.items
             && (q.state == r.state || (q.state != WaitingInput && !AtRest(q.state) && !AtRest(r.state)))
             && q.terminalError == r.terminalError
    ensures RowsOk(v)
  {
    hide TurnOver, OpenRequests, ItemsOf, LatestTurn, Misses, Within, Heard;
  }

  lemma ProceedKeepsHistory(s: Machine, ok: bool)
    requires !s.due.ToWrite?
    ensures var v := Proceeded(s, ok);
            && v.log == s.log && v.got == s.got && v.fatal == s.fatal && (s.closed ==> v.closed)
            && v.mem.known == s.mem.known && (v.disk == s.disk || v.disk == v.mem)
            && v.mem.row == s.mem.row.(receipts := v.mem.row.receipts)
  {
  }

  lemma ProceedKeepsRowsOk(s: Machine, ok: bool)
    requires RowsOk(s)
    ensures RowsOk(Proceeded(s, ok))
  {
    if s.due.ToWrite? {
      WriteKeepsRowsOk(s, ok);
      hide RowsOk, Written;
    } else {
      ProceedKeepsHistory(s, ok);
      hide RowsOk, Proceeded;
      SameHistoryKeepsRowsOk(s, Proceeded(s, ok));
    }
  }

  lemma RestartKeepsRowsOk(s: Machine)
    requires RowsOk(s)
    ensures RowsOk(Restarted(s))
  {
    hide RowOk, Misses;
    if s.due.ToWrite? { HeardMore(s.log, s.disk.known, ClaimLost(s.due.turn, s.due.key)); }
  }

  lemma OvertakenKeepsRowsOk(s: Machine, key: string)
    requires RowsOk(s)
    ensures RowsOk(Overtaken(s, key))
  {
    hide TurnOver, OpenRequests, ItemsOf, LatestTurn, Misses, Standing, Faulted;
    var heard, row, e := Heard(s.log, s.mem.known), MarkedInvalid(s.mem.row, key), Withdrawn(key);
    AsideKeepsRowOk(row, heard, e);
    hide RowOk;
    HearKeepsRowsOk(s, row, e);
  }

  lemma StepKeepsRowsOk(s: Machine, i: Input)
    requires RowsOk(s)
    ensures RowsOk(Step(s, i))
  {
    hide TurnOver, OpenRequests, ItemsOf, Proceeded, Restarted, Recorded, Handle, LatestTurn, Misses, Refused, Hear, Overtaken, Standing, Faulted;
    var heard := Heard(s.log, s.mem.known);
    match i
    case Restart => RestartKeepsRowsOk(s);
    case Proceed(ok) => ProceedKeepsRowsOk(s, ok);
    case Deliver(m) =>
      if s.due.Free? && !s.closed {
        if Handle(s.mem.row, m).Some? {
          HandleKeepsRowOk(s.mem.row, heard, m);
          HearKeepsRowsOk(s, Handle(s.mem.row, m).value, EventOf(m));
        } else {
          RefuseKeepsRowsOk(s, m);
        }
      }
    case Ack(turn) =>
      AcceptedKeepsRowOk(s.mem.row, heard, turn);
      HearKeepsRowsOk(s, OnAccepted(s.mem.row, turn), Acked(Some(turn)));
    case Record(turn, key) => RecordTouchesOps(s, turn, key);
    case Invalidate(key) => OvertakenKeepsRowsOk(s, key);
    case _ =>
  }

  lemma RecordTouchesOps(s: Machine, turn: string, key: string)
    ensures Recorded(s, turn, key) == s.(ops := Recorded(s, turn, key).ops)
  {
    hide FactFor;
  }

  lemma {:induction false} RunKeepsRowsOk(s: Machine, inputs: seq<Input>)
    requires RowsOk(s)
    ensures RowsOk(Run(s, inputs))
    decreases |inputs|
  {
    if inputs != [] {
      StepKeepsRowsOk(s, inputs[0]);
      RunKeepsRowsOk(Step(s, inputs[0]), inputs[1..]);
    }
  }

  predicate Running(item: Item) {
    item.status == "inProgress" && (item.kind == "commandExecution" || item.kind == "fileChange")
  }

  /** The refused message, if any, announced no turn, asked no request and
      reported no running command or file change. */
  predicate Harmless(fatal: Option<Event>) {
    fatal.None? || (!fatal.value.Announced? && !fatal.value.Asked? && !(fatal.value.ItemSeen? && Running(fatal.value.item)))
  }

  /** `stopped` tells the truth about everything its row has taken in, and about
      everything the process has received if and only if the message that killed
      the reader, if any, was harmless; so it does while the reader lives. */
  lemma StoppedIsSoundIff(inputs: seq<Input>)
    requires Stopped(Run(Start, inputs).mem.row)
    ensures var s := Run(Start, inputs);
            && Within(s.mem.known, s.log) && TrulyStopped(Heard(s.log, s.mem.known), s.mem.row.turn)
            && Within(s.got, s.log) && (TrulyStopped(Heard(s.log, s.got), s.mem.row.turn) <==> Harmless(s.fatal))
            && (!s.closed ==> Harmless(s.fatal))
  {
    RunKeepsRowsOk(Start, inputs);
    ReceivedIff(Run(Start, inputs));
  }

  /** The items as last reported, the refused message included. */
  function WithRefused(items: map<string, Item>, fatal: Option<Event>): map<string, Item> {
    if fatal.Some? && fatal.value.ItemSeen? then items[fatal.value.id := fatal.value.item] else items
  }

  /** The turn, the requests and the items of all that was received, read off the
      row and the refused message. */
  lemma ReceivedReads(s: Machine, turn: Option<string>)
    requires RowsOk(s)
    ensures TrulyStopped(Heard(s.log, s.got), turn) <==>
            && s.mem.row.ended && s.mem.row.turn == turn && s.mem.row.pending == map[]
            && !WorkInProgress(WithRefused(s.mem.row.items, s.fatal))
            && (s.fatal.Some? ==> !s.fatal.value.Announced? && !s.fatal.value.Asked?)
  {
    var heard, received := Heard(s.log, s.mem.known), Heard(s.log, s.got);
    if TurnOver(heard, turn) { OverIsLatest(heard, turn); }
    assert RowOk(s.mem.row, heard);
    hide TurnOver, OpenRequests, ItemsOf, LatestTurn;
    assert s.fatal.Some? && s.fatal.value.Asked? ==> s.fatal.value.key in OpenRequests(received);
  }

  lemma ReceivedIff(s: Machine)
    requires RowsOk(s) && Stopped(s.mem.row)
    ensures TrulyStopped(Heard(s.log, s.mem.known), s.mem.row.turn)
    ensures TrulyStopped(Heard(s.log, s.got), s.mem.row.turn) <==> Harmless(s.fatal)
  {
    ReceivedReads(s, s.mem.row.turn);
    var items := s.mem.row.items;
    if s.fatal.Some? && s.fatal.value.ItemSeen? {
      var id, item := s.fatal.value.id, s.fatal.value.item;
      assert Running(item) ==> items[id := item][id] == item && WorkInProgress(items[id := item]);
    }
  }

  /** Every process of the run dies with all it received saved, and with no claim in hand. */
  predicate Orderly(s: Machine, inputs: seq<Input>)
    decreases |inputs|
  {
    inputs == [] ||
    ( && (inputs[0].Restart? ==> s.disk.known == s.got && !s.due.ToWrite?)
      && Orderly(Step(s, inputs[0]), inputs[1..]))
  }

  /** In a run without lost saves `stopped` is right about all that happened if
      and only if the message that killed the reader, if any, was harmless. */
  lemma OrderlyStopIff(inputs: seq<Input>)
    requires Orderly(Start, inputs) && Stopped(Run(Start, inputs).mem.row)
    ensures var s := Run(Start, inputs);
            && (TrulyStopped(s.log, s.mem.row.turn) <==> Harmless(s.fatal)) && (!s.closed ==> Harmless(s.fatal))
  {
    var s := Run(Start, inputs);
    StoppedIsSoundIff(inputs);
    OrderlyRunsMissNothing(Start, inputs);
    NothingMissing(s.log, s.got);
  }

  lemma {:induction false} OrderlyRunsMissNothing(s: Machine, inputs: seq<Input>)
    requires |s.got| == |s.log| && Orderly(s, inputs)
    ensures var v := Run(s, inputs); |v.got| == |v.log|
    decreases |inputs|
  {
    hide Step;
    if inputs != [] {
      GotGrowsWithLog(s, inputs[0]);
      OrderlyRunsMissNothing(Step(s, inputs[0]), inputs[1..]);
    }
  }

  lemma GotGrowsWithLog(s: Machine, i: Input)
    requires |s.got| == |s.log| && (i.Restart? ==> s.disk.known == s.got && !s.due.ToWrite?)
    ensures |Step(s, i).got| == |Step(s, i).log|
  {
    hide FactFor, Handle;
  }

  /** After a crash `stopped` is right about what the dead process had received
      if and only if that process's own row had the same turn ended, nothing
      pending and no command or file change running, counting in what its reader
      died of. */
  lemma StoppedAfterRestartIff(inputs: seq<Input>)
    requires Stopped(Restarted(Run(Start, inputs)).mem.row)
    ensures var s := Run(Start, inputs);
            var turn := Restarted(s).mem.row.turn;
            && Within(s.got, s.log)
            && (TrulyStopped(Heard(s.log, s.got), turn) <==>
                && s.mem.row.ended && s.mem.row.turn == turn && s.mem.row.pending == map[]
                && !WorkInProgress(WithRefused(s.mem.row.items, s.fatal))
                && (s.fatal.Some? ==> !s.fatal.value.Announced? && !s.fatal.value.Asked?))
  {
    RunKeepsRowsOk(Start, inputs);
    ReceivedReads(Run(Start, inputs), Restarted(Run(Start, inputs)).mem.row.turn);
  }

  /** The failing case without any crash: a tool call that is neither a command
      nor a file change is left in progress, so the announcement of the next turn
      is refused and kills the reader; the row at rest still says stopped. */
  lemma {:induction false} RefusedTurnLooksStopped() returns (inputs: seq<Input>)
    ensures Orderly(Start, inputs)
    ensures var s := Run(Start, inputs);
            && s.due.Free? && Stopped(s.mem.row) && s.mem.row.turn == Some("t") && s.disk == s.mem
            && LatestTurn(s.log) == Some("u") && !TrulyStopped(s.log, Some("t"))
  {
    inputs := CallBegins();
    hide Step, Run;
    CallOutlivesTurn(Run(Start, inputs));
    inputs := Then(inputs, Deliver(TurnCompleted(Some("t"), "completed")));
    inputs := Then(inputs, Proceed(true));
    NextTurnIsRefused(Run(Start, inputs));
    inputs := Then(inputs, Deliver(TurnStarted(Some("u"))));
    inputs := Then(inputs, Drop);
    inputs := Then(inputs, Proceed(true));
    ghost var s := Run(Start, inputs);
    if TurnOver(s.log, Some("t")) { OverIsLatest(s.log, Some("t")); }
    WithoutRestartsIsOrderly(Start, inputs);
  }

  const CALL := Item("mcpToolCall", "inProgress", None)

  lemma {:induction false} CallBegins() returns (inputs: seq<Input>)
    ensures forall i | i in inputs :: !i.Restart?
    ensures var s := Run(Start, inputs);
            && s.due.Free? && !s.closed && s.mem.row.turn == Some("t") && s.mem.row.pending == map[]
            && s.mem.row.items == map["1" := CALL] && !s.mem.row.terminalError
  {
    inputs := Then([], Deliver(TurnStarted(Some("t"))));
    inputs := Then(inputs, Proceed(true));
    inputs := Then(inputs, Deliver(ItemStarted(Some("t"), "1", CALL)));
    inputs := Then(inputs, Proceed(true));
  }

  lemma CallOutlivesTurn(s: Machine)
    requires s.due.Free? && !s.closed && s.mem.row.turn == Some("t") && s.mem.row.pending == map[]
    requires s.mem.row.items == map["1" := CALL] && !s.mem.row.terminalError
    ensures var v := Step(Step(s, Deliver(TurnCompleted(Some("t"), "completed"))), Proceed(true));
            && v.due.Free? && !v.closed && v.disk == v.mem && Stopped(v.mem.row) && v.mem.row.turn == Some("t")
            && AnyInProgress(v.mem.row.items)
  {
    assert s.mem.row.items["1"] == CALL;
  }

  lemma NextTurnIsRefused(s: Machine)
    requires s.due.Free? && !s.closed && s.disk == s.mem && Stopped(s.mem.row) && AnyInProgress(s.mem.row.items)
    ensures var v := Step(Step(Step(s, Deliver(TurnStarted(Some("u")))), Drop), Proceed(true));
            v.due.Free? && v.disk == v.mem && v.mem.row == s.mem.row && LatestTurn(v.log) == Some("u")
  {
    Grown(s.log, Announced(Some("u")));
  }

  lemma {:induction false} WithoutRestartsIsOrderly(s: Machine, inputs: seq<Input>)
    requires forall i | i in inputs :: !i.Restart?
    ensures Orderly(s, inputs)
    decreases |inputs|
  {
    hide Step;
    if inputs != [] { WithoutRestartsIsOrderly(Step(s, inputs[0]), inputs[1..]); }
  }

  /** The failing case: the acknowledgement of a second turn is received but not
      saved, the process dies, and the next one calls the worker stopped. */
  lemma {:induction false} UnsavedTurnLooksStopped() returns (inputs: seq<Input>)
    ensures var s := Run(Start, inputs);
            && Stopped(s.mem.row) && s.mem.row.turn == Some("t")
            && LatestTurn(s.log) == Some("u") && !TrulyStopped(s.log, Some("t"))
  {
    inputs := FinishedTurn();
    ghost var log := Run(Start, inputs).log;
    Grown(log, Acked(Some("u")));
    hide Handle;
    inputs := Then(inputs, Ack("u"));
    inputs := Then(inputs, Proceed(false));
    inputs := Then(inputs, Restart);
    if TurnOver(log + [Acked(Some("u"))], Some("t")) { OverIsLatest(log + [Acked(Some("u"))], Some("t")); }
  }

  lemma {:induction false} FinishedTurn() returns (inputs: seq<Input>)
    ensures var s := Run(Start, inputs);
            s.due.Free? && s.disk == s.mem && Stopped(s.mem.row) && s.mem.row.turn == Some("t")
  {
    inputs := Then([], Deliver(TurnStarted(Some("t"))));
    inputs := Then(inputs, Proceed(true));
    inputs := Then(inputs, Deliver(TurnCompleted(Some("t"), "completed")));
    inputs := Then(inputs, Proceed(true));
  }

  lemma {:induction false} Then(inputs: seq<Input>, i: Input) returns (more: seq<Input>)
    ensures more == inputs + [i] && Run(Start, more) == Step(Run(Start, inputs), i)
  {
    RunSnoc(Start, inputs, i);
    more := inputs + [i];
  }

  // ------------------------------------------------------- an end is not undone

  predicate InputKeepsEnd(i: Input, turn: Option<string>) {
    match i
    case Deliver(m) => !Reopens(EventOf(m), turn)
    case Ack(other) => Some(other) == turn
    case _ => true
  }

  predicate EndedOn(row: Row, turn: Option<string>) { row.ended && row.turn == turn }

  lemma HandleKeepsEnd(row: Row, m: Message, turn: Option<string>)
    requires EndedOn(row, turn) && !Reopens(EventOf(m), turn) && Handle(row, m).Some?
    ensures EndedOn(Handle(row, m).value, turn)
  {
    hide TurnEnds, ItemEnds, Without;
  }

  lemma EndedStep(s: Machine, i: Input, turn: Option<string>)
    requires EndedOn(s.mem.row, turn) && InputKeepsEnd(i, turn)
    ensures EndedOn(s.disk.row, turn) ==> EndedOn(Step(s, i).disk.row, turn)
    ensures EndedOn(s.disk.row, turn) || !i.Restart? ==> EndedOn(Step(s, i).mem.row, turn)
  {
    hide FactFor, Handle;
    if i.Deliver? && Handle(s.mem.row, i.m).Some? { HandleKeepsEnd(s.mem.row, i.m, turn); }
  }

  /** No input of these announces a turn, acknowledges another one or reports a
      doubtful completion. */
  predicate KeepEnd(inputs: seq<Input>, turn: Option<string>) { forall i | i in inputs :: InputKeepsEnd(i, turn) }

  lemma {:induction false} SavedEndStays(s: Machine, inputs: seq<Input>, turn: Option<string>)
    requires EndedOn(s.mem.row, turn) && EndedOn(s.disk.row, turn) && KeepEnd(inputs, turn)
    ensures EndedOn(Run(s, inputs).mem.row, turn)
    decreases |inputs|
  {
    hide Step;
    if inputs != [] {
      EndedStep(s, inputs[0], turn);
      SavedEndStays(Step(s, inputs[0]), inputs[1..], turn);
    }
  }

  /** An ended turn stays ended, through late acknowledgements of it,
      disconnects and crashes, if and only if its end is saved. */
  lemma EndedIsNotRevivedIff(s: Machine, turn: Option<string>)
    requires EndedOn(s.mem.row, turn)
    ensures (forall inputs | KeepEnd(inputs, turn) :: EndedOn(Run(s, inputs).mem.row, turn)) <==> EndedOn(s.disk.row, turn)
  {
    hide EndedOn, KeepEnd, Run;
    if EndedOn(s.disk.row, turn) {
      forall inputs | KeepEnd(inputs, turn) ensures EndedOn(Run(s, inputs).mem.row, turn) {
        SavedEndStays(s, inputs, turn);
      }
    } else {
      ACrashLoadsStore(s, turn);
    }
  }

  /** One is lost: a completed turn whose save never comes is, after the crash,
      still the running turn. */
  lemma {:induction false} UnsavedEndIsForgotten() returns (inputs: seq<Input>)
    ensures var s := Run(Start, inputs);
            EndedOn(s.mem.row, Some("t")) && !EndedOn(Run(Start, inputs + [Restart]).mem.row, Some("t"))
  {
    inputs := Then([], Deliver(TurnStarted(Some("t"))));
    inputs := Then(inputs, Proceed(true));
    inputs := Then(inputs, Deliver(TurnCompleted(Some("t"), "completed")));
    RunSnoc(Start, inputs, Restart);
  }

  lemma ACrashLoadsStore(s: Machine, turn: Option<string>)
    ensures KeepEnd([Restart], turn) && Run(s, [Restart]).mem == s.disk
  {
    assert [Restart][1..] == [];
  }

  /** Without a crash nothing but those takes an end back, saved or not. */
  lemma {:induction false} EndedIsNotRevived(s: Machine, inputs: seq<Input>)
    requires s.mem.row.ended
    requires forall i | i in inputs :: InputKeepsEnd(i, s.mem.row.turn) && !i.Restart?
    ensures EndedOn(Run(s, inputs).mem.row, s.mem.row.turn)
    decreases |inputs|
  {
    hide Step;
    if inputs != [] {
      EndedStep(s, inputs[0], s.mem.row.turn);
      EndedIsNotRevived(Step(s, inputs[0]), inputs[1..]);
    }
  }

  /** A worker is idle, interrupted or failed exactly when it came to rest so: a
      completed turn without a final error is idle, a final error or any other
      end is what it was reported as, and anything that stirs the worker ends
      the rest.  Disconnects and crashes keep it. */
  lemma RestIsEarnedIff(inputs: seq<Input>, state: RowState)
    requires AtRest(state)
    ensures var s := Run(Start, inputs);
            && Within(s.mem.known, s.log)
            && (s.mem.row.state == state <==> Standing(Heard(s.log, s.mem.known)) == Some(state))
            && (s.mem.row.terminalError <==> Faulted(Heard(s.log, s.mem.known)))
  {
    RunKeepsRowsOk(Start, inputs);
  }

  /** What no row of this history can take in: a turn announced with a request
      open or an item in progress, an item or a request of any turn but the
      latest, and what cannot be read at all. */
  ghost predicate Unexpected(m: Message, heard: seq<Event>) {
    match m
    case TurnStarted(_) => OpenRequests(heard) != {} || AnyInProgress(ItemsOf(heard))
    case ItemStarted(turn, _, _) => turn != LatestTurn(heard)
    case ItemCompleted(turn, _, _) => turn != LatestTurn(heard)
    case Request(turn, _, _) => turn != LatestTurn(heard)
    case Malformed => true
    case _ => false
  }

  /** A message kills the living reader at once exactly when it is unexpected,
      and then the row is left as it was; any other message is taken in. */
  lemma RefusedIff(inputs: seq<Input>, m: Message)
    requires var s := Run(Start, inputs); s.due.Free? && !s.closed
    ensures var s, v := Run(Start, inputs), Step(Run(Start, inputs), Deliver(m));
            && Within(s.mem.known, s.log)
            && (v.closed <==> Unexpected(m, Heard(s.log, s.mem.known)))
            && (v.closed ==> v.mem == s.mem && v.fatal == Some(EventOf(m)))
            && (!v.closed ==> v.log == s.log + [EventOf(m)] && v.mem.known == s.mem.known + [|s.log|] && v.fatal == s.fatal)
  {
    RunKeepsRowsOk(Start, inputs);
    var s := Run(Start, inputs);
    hide Run, Step, Unexpected, RowOk, Misses;
    UnexpectedIsRaised(s.mem.row, Heard(s.log, s.mem.known), m);
    DeliveredTo(s, m);
  }

  lemma DeliveredTo(s: Machine, m: Message)
    requires s.due.Free? && !s.closed
    ensures var v := Step(s, Deliver(m));
            && (v.closed <==> Handle(s.mem.row, m).None?)
            && (v.closed ==> v.mem == s.mem && v.fatal == Some(EventOf(m)))
            && (!v.closed ==> v.log == s.log + [EventOf(m)] && v.mem.known == s.mem.known + [|s.log|] && v.fatal == s.fatal)
  {
    hide Handle;
  }

  lemma UnexpectedIsRaised(row: Row, heard: seq<Event>, m: Message)
    requires RowOk(row, heard)
    ensures Handle(row, m).None? <==> Unexpected(m, heard)
  {
    hide Handle, AnyInProgress, TurnOver, Standing, Faulted, LatestTurn, OpenRequests, ItemsOf;
    RaisesIff(row, m);
  }

  lemma RaisesIff(row: Row, m: Message)
    ensures Handle(row, m).None? <==>
              match m
              case TurnStarted(_) => row.pending != map[] || AnyInProgress(row.items)
              case ItemStarted(turn, _, _) => turn != row.turn
              case ItemCompleted(turn, _, _) => turn != row.turn
              case Request(turn, _, _) => turn != row.turn
              case Malformed => true
              case _ => false
  {
  }

  /** A disconnect leaves the state the worker came to rest in, if it did; of any
      other worker nothing is known from then on, and nothing more is received. */
  lemma DisconnectLeavesRest(inputs: seq<Input>)
    requires Run(Start, inputs).due.Free?
    ensures var s, v := Run(Start, inputs), Step(Run(Start, inputs), Drop);
            && Within(s.mem.known, s.log) && v.closed && v.mem.row == s.mem.row.(state := v.mem.row.state)
            && v.mem.row.state == match Standing(Heard(s.log, s.mem.known)) case Some(rest) => rest case None => UnknownState
  {
    RunKeepsRowsOk(Start, inputs);
    hide Run, TurnOver, OpenRequests, ItemsOf, LatestTurn, Standing, Faulted, Misses, Heard;
    assert RowOk(Run(Start, inputs).mem.row, Heard(Run(Start, inputs).log, Run(Start, inputs).mem.known));
  }

  lemma WaitingInputHasARequest(inputs: seq<Input>)
    requires Run(Start, inputs).mem.row.state == WaitingInput
    ensures var s := Run(Start, inputs); Within(s.mem.known, s.log) && OpenRequests(Heard(s.log, s.mem.known)) != {}
  {
    RunKeepsRowsOk(Start, inputs);
  }
}
