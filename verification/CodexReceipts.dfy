/** What a receipt says is exactly what the history says of its request since it
    was last asked; so is every fact a query derives from it. */
module CodexReceipts {
  import opened OperationStore
  import opened CodexRow
  import opened CodexRuns
  import opened CodexApprovals

  // -------------------------------------------------- readings of the history

  /** What a row has taken in after position `a`. */
  function Since(log: seq<Event>, known: seq<nat>, a: nat): seq<Event>
    requires Within(known, log)
  {
    if known == [] || known[|known| - 1] <= a then [] else
    Since(log, known[..|known| - 1], a) + [log[known[|known| - 1]]]
  }

  /** A response of this identity was written. */
  ghost predicate Responded(since: seq<Event>, turn: Option<string>, key: string) {
    exists i :: 0 <= i < |since| && Rewrites(since[i], turn, key)
  }

  ghost predicate RespondedWith(since: seq<Event>, turn: string, key: string, decision: Decision) {
    Wrote(turn, key, decision) in since
  }

  /** The request was closed before any response, or a stop overtook the response. */
  ghost predicate Voided(since: seq<Event>, turn: Option<string>, key: string) {
    || Withdrawn(key) in since
    || exists i :: 0 <= i < |since| && since[i] == Closed(key) && !Responded(since[..i], turn, key)
  }

  predicate Finishes(e: Event, turn: Option<string>, about: Option<string>) {
    e.ItemSeen? && e.completed && e.turn == turn && about == Some(e.id)
  }

  /** The item the request is about, as last reported finished in its turn. */
  function Outcome(since: seq<Event>, turn: Option<string>, about: Option<string>): Option<Item> {
    if since == [] then None
    else if Finishes(since[|since| - 1], turn, about) then Some(since[|since| - 1].item)
    else Outcome(since[..|since| - 1], turn, about)
  }

  /** How the turn was last reported to have ended. */
  function TurnEnd(since: seq<Event>, turn: Option<string>): Option<string> {
    if since == [] then None
    else if since[|since| - 1].Ended? && since[|since| - 1].turn == turn then Some(since[|since| - 1].status)
    else TurnEnd(since[..|since| - 1], turn)
  }

  /** Field by field, the receipt is what happened. */
  ghost predicate ReadsAs(r: ApprovalReceipt, since: seq<Event>, key: string) {
    && (r.written <==> Responded(since, r.turn, key))
    && (forall i | 0 <= i < |since| && Rewrites(since[i], r.turn, key) :: r.decision == Some(since[i].decision))
    && (r.closed <==> Closed(key) in since)
    && (r.invalidated <==> Voided(since, r.turn, key))
    && r.itemStatus == (if Outcome(since, r.turn, r.item).Some? then Some(Outcome(since, r.turn, r.item).value.status) else None)
    && r.exitCode == (if Outcome(since, r.turn, r.item).Some? then Outcome(since, r.turn, r.item).value.exitCode else None)
    && r.turnEnd == TurnEnd(since, r.turn)
  }

  ghost predicate ViewReads(v: View, log: seq<Event>) {
    && Within(v.known, log)
    && (forall key | key in v.row.receipts :: key in v.asked && v.asked[key] < |log|
                                              && ReadsAs(v.row.receipts[key], Since(log, v.known, v.asked[key]), key))
    && (forall j | j in v.known :: log[j].Asked? ==> log[j].key in v.row.receipts)
  }

  ghost predicate ReadsOk(s: Machine) { ViewReads(s.mem, s.log) && ViewReads(s.disk, s.log) }

  // ----------------------------------------------------------- one more event

  /** The reading does not look beyond what was known. */
  lemma {:induction false} SinceStays(log: seq<Event>, known: seq<nat>, a: nat, e: Event)
    requires Within(known, log)
    ensures Within(known, log + [e]) && Since(log + [e], known, a) == Since(log, known, a)
    decreases |known|
  {
    if known != [] { SinceStays(log, known[..|known| - 1], a, e); }
  }

  lemma SinceGrows(log: seq<Event>, known: seq<nat>, a: nat, e: Event)
    requires Within(known, log) && a < |log|
    ensures Within(known + [|log|], log + [e]) && Since(log + [e], known + [|log|], a) == Since(log, known, a) + [e]
  {
    SinceStays(log, known, a, e);
    var more := known + [|log|];
    assert more[..|known|] == known && more[|known|] == |log| && (log + [e])[|log|] == e;
  }

  lemma RespondedGrows(since: seq<Event>, e: Event, turn: Option<string>, key: string)
    ensures Responded(since + [e], turn, key) <==> Responded(since, turn, key) || Rewrites(e, turn, key)
  {
    var more := since + [e];
    assert more[|since|] == e;
    if Responded(since, turn, key) {
      var i :| 0 <= i < |since| && Rewrites(since[i], turn, key);
      assert more[i] == since[i];
    }
  }

  lemma VoidedGrows(since: seq<Event>, e: Event, turn: Option<string>, key: string)
    ensures Voided(since + [e], turn, key)
            <==> Voided(since, turn, key) || e == Withdrawn(key) || (e == Closed(key) && !Responded(since, turn, key))
  {
    var more := since + [e];
    assert more[|since|] == e && more[..|since|] == since;
    assert forall i | 0 <= i < |since| :: more[i] == since[i] && more[..i] == since[..i];
    if exists i :: 0 <= i < |since| && since[i] == Closed(key) && !Responded(since[..i], turn, key) {
      var i :| 0 <= i < |since| && since[i] == Closed(key) && !Responded(since[..i], turn, key);
      assert more[i] == Closed(key) && !Responded(more[..i], turn, key);
    }
  }

  lemma ReadingsGrow(since: seq<Event>, e: Event, turn: Option<string>, about: Option<string>)
    ensures Outcome(since + [e], turn, about) == if Finishes(e, turn, about) then Some(e.item) else Outcome(since, turn, about)
    ensures TurnEnd(since + [e], turn) == if e.Ended? && e.turn == turn then Some(e.status) else TurnEnd(since, turn)
  {
    Grown(since, e);
  }

  /** What an event must change in a receipt, and nothing else. */
  predicate Learns(r: ApprovalReceipt, q: ApprovalReceipt, key: string, e: Event) {
    && q.turn == r.turn && q.item == r.item
    && q.written == (r.written || Rewrites(e, r.turn, key))
    && (r.written ==> q.decision == r.decision) && (Rewrites(e, r.turn, key) ==> q.decision == Some(e.decision))
    && q.closed == (r.closed || e == Closed(key))
    && q.invalidated == (r.invalidated || e == Withdrawn(key) || (e == Closed(key) && !r.written))
    && q.itemStatus == (if Finishes(e, r.turn, r.item) then Some(e.item.status) else r.itemStatus)
    && q.exitCode == (if Finishes(e, r.turn, r.item) then e.item.exitCode else r.exitCode)
    && q.turnEnd == (if e.Ended? && e.turn == r.turn then Some(e.status) else r.turnEnd)
  }

  lemma LearnsReads(r: ApprovalReceipt, q: ApprovalReceipt, since: seq<Event>, key: string, e: Event)
    requires ReadsAs(r, since, key) && Learns(r, q, key, e)
    ensures ReadsAs(q, since + [e], key)
  {
    RespondedGrows(since, e, r.turn, key);
    VoidedGrows(since, e, r.turn, key);
    ReadingsGrow(since, e, r.turn, r.item);
    assert (since + [e])[|since|] == e;
    assert forall i | 0 <= i < |since| :: (since + [e])[i] == since[i];
    assert Closed(key) in since + [e] <==> Closed(key) in since || e == Closed(key);
    hide Voided, Outcome, TurnEnd;
    if !r.written { assert forall i | 0 <= i < |since| :: !Rewrites(since[i], r.turn, key); }
  }

  lemma NothingReads(turn: Option<string>, about: Option<string>, key: string)
    ensures ReadsAs(NewReceipt(turn, about), [], key)
  {
  }

  // ---------------------------------------------------------- a step keeps it

  lemma ViewReadsStays(v: View, log: seq<Event>, e: Event)
    requires ViewReads(v, log)
    ensures ViewReads(v, log + [e])
  {
    hide ReadsAs;
    forall key | key in v.row.receipts ensures ReadsAs(v.row.receipts[key], Since(log + [e], v.known, v.asked[key]), key) {
      SinceStays(log, v.known, v.asked[key], e);
    }
    forall j | j in v.known ensures j < |log| {}
    HeardMore(log, v.known, e);
  }

  /** Memory hears an event, and every receipt learns just what it says. */
  lemma HearReads(s: Machine, row: Row, e: Event)
    requires ViewReads(s.mem, s.log) && row.receipts.Keys == s.mem.row.receipts.Keys && !e.Asked?
    requires forall key | key in row.receipts :: Learns(s.mem.row.receipts[key], row.receipts[key], key, e)
    ensures ViewReads(Hear(s, row, e).mem, s.log + [e])
  {
    hide ReadsAs, Learns;
    HeardMore(s.log, s.mem.known, e);
    var v := Hear(s, row, e).mem;
    forall key | key in row.receipts ensures ReadsAs(row.receipts[key], Since(s.log + [e], v.known, v.asked[key]), key) {
      SinceGrows(s.log, s.mem.known, v.asked[key], e);
      LearnsReads(s.mem.row.receipts[key], row.receipts[key], Since(s.log, s.mem.known, v.asked[key]), key, e);
    }
    forall j | j in v.known ensures (s.log + [e])[j].Asked? ==> (s.log + [e])[j].key in row.receipts {
      assert j in s.mem.known || j == |s.log|;
    }
  }

  /** An event that says nothing of this request. */
  lemma NothingLearnt(r: ApprovalReceipt, key: string, e: Event)
    requires !Rewrites(e, r.turn, key) && e != Closed(key) && e != Withdrawn(key) && !e.Ended? && !e.ItemSeen?
    ensures Learns(r, r, key, e)
  {
  }

  lemma RequestReads(s: Machine, row: Row, key: string, turn: Option<string>, about: Option<string>)
    requires ViewReads(s.mem, s.log) && row.receipts == s.mem.row.receipts[key := NewReceipt(turn, about)]
    ensures ViewReads(Hear(s, row, Asked(turn, key, about)).mem, s.log + [Asked(turn, key, about)])
  {
    var e := Asked(turn, key, about);
    hide ReadsAs, Learns;
    HeardMore(s.log, s.mem.known, e);
    var v := Hear(s, row, e).mem;
    forall k | k in row.receipts ensures ReadsAs(row.receipts[k], Since(s.log + [e], v.known, v.asked[k]), k) {
      if k == key {
        assert v.known[|s.mem.known|] == |s.log|;
        NothingReads(turn, about, key);
      } else {
        SinceGrows(s.log, s.mem.known, v.asked[k], e);
        NothingLearnt(row.receipts[k], k, e);
        LearnsReads(row.receipts[k], row.receipts[k], Since(s.log, s.mem.known, v.asked[k]), k, e);
      }
    }
    forall j | j in v.known ensures (s.log + [e])[j].Asked? ==> (s.log + [e])[j].key in row.receipts {
      assert j in s.mem.known || j == |s.log|;
    }
  }

  lemma TurnEndTeaches(row: Row, turn: Option<string>, status: string, key: string)
    requires key in row.receipts
    ensures key in OnTurnCompleted(row, turn, status).receipts
    ensures Learns(row.receipts[key], OnTurnCompleted(row, turn, status).receipts[key], key, Ended(turn, status))
  {
    hide RestState;
  }

  lemma ItemTeaches(row: Row, turn: Option<string>, id: string, item: Item, key: string)
    requires key in row.receipts
    ensures var q := ItemEnds(row.receipts, turn, id, item);
            key in q && Learns(row.receipts[key], q[key], key, ItemSeen(turn, id, item, true))
  {
  }

  lemma CloseTeaches(row: Row, closed: string, key: string)
    requires key in row.receipts
    ensures var q := OnResolved(row, closed).receipts; key in q && Learns(row.receipts[key], q[key], key, Closed(closed))
  {
  }

  lemma HandleTeaches(row: Row, m: Message, key: string)
    requires Handle(row, m).Some? && !m.Request? && key in row.receipts
    ensures var q := Handle(row, m).value.receipts; key in q && Learns(row.receipts[key], q[key], key, EventOf(m))
  {
    hide OnTurnCompleted, ItemEnds, OnResolved, AnyInProgress;
    match m
    case TurnCompleted(turn, status) => TurnEndTeaches(row, turn, status, key);
    case ItemCompleted(turn, id, item) => ItemTeaches(row, turn, id, item, key);
    case Resolved(closed) => CloseTeaches(row, closed, key);
    case _ =>
  }

  lemma HandleKeepsKeys(row: Row, m: Message)
    requires Handle(row, m).Some? && !m.Request?
    ensures Handle(row, m).value.receipts.Keys == row.receipts.Keys
  {
    hide AnyInProgress, RestState, Without;
  }

  lemma DeliverReads(s: Machine, m: Message)
    requires ReadsOk(s) && s.due.Free?
    ensures ReadsOk(Delivered(s, m))
  {
    hide Handle, ViewReads;
    if s.closed { return; }
    var e := EventOf(m);
    ViewReadsStays(s.disk, s.log, e);
    if Handle(s.mem.row, m).None? {
      ViewReadsStays(s.mem, s.log, e);
      return;
    }
    var row := Handle(s.mem.row, m).value;
    if m.Request? {
      RequestReplacesReceipt(s.mem.row, m);
      RequestReads(s, row, m.key, m.turn, m.about);
    } else {
      HandleKeepsKeys(s.mem.row, m);
      forall key | key in row.receipts ensures Learns(s.mem.row.receipts[key], row.receipts[key], key, e) {
        HandleTeaches(s.mem.row, m, key);
      }
      hide Learns;
      HearReads(s, row, e);
    }
  }

  lemma AckReads(s: Machine, turn: string)
    requires ReadsOk(s) && s.due.Free?
    ensures ReadsOk(Step(s, Ack(turn)))
  {
    var row, e := OnAccepted(s.mem.row, turn), Acked(Some(turn));
    hide ViewReads;
    ViewReadsStays(s.disk, s.log, e);
    HearReads(s, row, e);
  }

  lemma OvertakenReads(s: Machine, key: string)
    requires ReadsOk(s)
    ensures ReadsOk(Overtaken(s, key))
  {
    hide ViewReads;
    if key in s.mem.row.receipts && s.mem.row.receipts[key].submitted {
      ViewReadsStays(s.disk, s.log, Withdrawn(key));
      HearReads(s, MarkedInvalid(s.mem.row, key), Withdrawn(key));
    }
  }

  lemma WriteTeaches(s: Machine, ok: bool, key: string)
    requires DueOk(s) && s.due.ToWrite? && key in s.mem.row.receipts
    ensures var v := Written(s, ok);
            && v.mem.row.receipts.Keys == s.mem.row.receipts.Keys && |v.log| == |s.log| + 1
            && Learns(s.mem.row.receipts[key], v.mem.row.receipts[key], key, v.log[|s.log|])
  {
  }

  lemma WriteReads(s: Machine, ok: bool)
    requires ReadsOk(s) && DueOk(s) && s.due.ToWrite?
    ensures ReadsOk(Written(s, ok))
  {
    var v, row := Written(s, ok), Written(s, ok).mem.row;
    var e := v.log[|s.log|];
    hide ViewReads;
    ViewReadsStays(s.disk, s.log, e);
    forall key | key in row.receipts ensures Learns(s.mem.row.receipts[key], row.receipts[key], key, e) { WriteTeaches(s, ok, key); }
    hide Learns;
    HearReads(s, row, e);
  }

  lemma DecisionIsFree(r: ApprovalReceipt, since: seq<Event>, key: string, decision: Decision)
    requires ReadsAs(r, since, key) && !r.written
    ensures ReadsAs(r.(decision := Some(decision), submitted := true), since, key)
  {
    hide Voided, Outcome, TurnEnd;
    assert forall i | 0 <= i < |since| :: !Rewrites(since[i], r.turn, key);
  }

  lemma ClaimChanges(s: Machine)
    requires s.due.ToClaim? && !Claimed(s, true).due.Free?
    ensures var row, key := s.mem.row, s.due.key;
            && key in row.receipts && (s.due.turn, key) in s.ops && s.ops[(s.due.turn, key)].attempts == 0
            && Claimed(s, true).mem == s.mem.(row := row.(receipts := row.receipts[key := row.receipts[key].(decision := Some(s.due.decision), submitted := true)]))
  {
  }

  /** A claim writes its decision on a receipt that knows of no response. */
  lemma ClaimReads(s: Machine)
    requires ApprovalsOk(s) && ViewReads(s.mem, s.log) && s.due.ToClaim? && !Claimed(s, true).due.Free?
    ensures ViewReads(Claimed(s, true).mem, s.log)
  {
    hide ApprovalsOk, Since, ReadsAs, Claimed;
    ClaimChanges(s);
    UnclaimedIsUnwritten(s);
    var key := s.due.key;
    DecisionIsFree(s.mem.row.receipts[key], Since(s.log, s.mem.known, s.mem.asked[key]), key, s.due.decision);
  }

  lemma ProceedReads(s: Machine, ok: bool)
    requires ReadsOk(s) && ApprovalsOk(s)
    ensures ReadsOk(Proceeded(s, ok))
  {
    hide ViewReads, ApprovalsOk, Written;
    assert DueOk(s) by { DueIsOk(s); }
    hide DueOk;
    match s.due
    case ToClaim(_, _, _) => if !Claimed(s, ok).due.Free? { ClaimReads(s); }
    case ToWrite(_, _, _) => WriteReads(s, ok);
    case _ =>
  }

  lemma DueIsOk(s: Machine)
    requires ApprovalsOk(s)
    ensures DueOk(s)
  {
  }

  lemma StepReads(s: Machine, i: Input)
    requires ReadsOk(s) && ApprovalsOk(s)
    ensures ReadsOk(Step(s, i))
  {
    hide ViewReads, ApprovalsOk, Delivered, Proceeded, Overtaken;
    if i.Restart? {
      if s.due.ToWrite? { ViewReadsStays(s.disk, s.log, ClaimLost(s.due.turn, s.due.key)); }
      return;
    }
    if i.Proceed? { ProceedReads(s, i.ok); return; }
    if i.Broken? || !s.due.Free? { return; }
    match i
    case Deliver(m) => DeliverReads(s, m);
    case Ack(turn) => AckReads(s, turn);
    case Invalidate(key) => OvertakenReads(s, key);
    case Record(turn, key) => RecordTouchesOps(s, turn, key);
    case Submit(_, _, _) =>
    case _ => SameReceipts(s, Step(s, i));
  }

  lemma SameReceipts(s: Machine, v: Machine)
    requires ReadsOk(s) && v.log == s.log && v.mem.known == s.mem.known && v.mem.asked == s.mem.asked
    requires v.mem.row.receipts == s.mem.row.receipts && (v.disk == s.disk || v.disk == v.mem)
    ensures ReadsOk(v)
  {
    hide ReadsAs, Since;
  }

  lemma {:induction false} RunReads(s: Machine, inputs: seq<Input>)
    requires ReadsOk(s) && ApprovalsOk(s)
    ensures ReadsOk(Run(s, inputs))
    decreases |inputs|
  {
    hide ApprovalsOk, ReadsOk, Step;
    if inputs != [] {
      StepReads(s, inputs[0]);
      StepKeepsApprovals(s, inputs[0]);
      RunReads(Step(s, inputs[0]), inputs[1..]);
    }
  }

  lemma ReachableReads(inputs: seq<Input>)
    ensures ReadsOk(Run(Start, inputs)) && ApprovalsOk(Run(Start, inputs))
  {
    RunReads(Start, inputs);
    ReachableIsOk(inputs);
  }

  // ------------------------------------------------------------ main theorems

  /** The row last took in the asking of this request at `a`. */
  ghost predicate LastAsked(s: Machine, a: nat, turn: Option<string>, key: string, about: Option<string>) {
    && a in s.mem.known && a < |s.log| && s.log[a] == Asked(turn, key, about)
    && forall j | j in s.mem.known && a < j < |s.log| :: !Asks(s.log[j], key)
  }

  /** A success is stored for the very receipt the row has. */
  predicate SuccessIsStored(s: Machine, turn: string, key: string) {
    Bound(s.mem.row, turn, key) && (turn, key) in s.ops && s.ops[(turn, key)].status == Succeeded
  }

  predicate Ran(item: Option<Item>) {
    item.Some? && (item.value.status == "completed" || (item.value.status == "failed" && item.value.exitCode.Some?))
  }

  predicate WasDeclined(item: Option<Item>) { item.Some? && item.value.status == "declined" }

  /** The fact is the one this history of a request calls for. */
  ghost predicate Tells(since: seq<Event>, turn: string, key: string, about: Option<string>, fact: ApprovalFact) {
    var item, answered := Outcome(since, Some(turn), about), Responded(since, Some(turn), key);
    var void := Voided(since, Some(turn), key) || TurnEnd(since, Some(turn)) == Some("interrupted");
    var settled := !void && Closed(key) in since;
    var accepted, declined := RespondedWith(since, turn, key, Accept), RespondedWith(since, turn, key, Decline);
    && (fact.status == Succeeded <==> settled && ((accepted && Ran(item)) || (declined && WasDeclined(item))))
    && (fact.status == Status.Failed <==> (void && !answered) || (settled && accepted && WasDeclined(item)))
    && (fact.status == Unknown || fact.status == Succeeded || fact.status == Status.Failed)
    && (fact.verdict == Confirmed <==> settled && accepted && Ran(item))
    && (fact.verdict == Declined <==> settled && (accepted || declined) && WasDeclined(item))
    && (fact.verdict == Expired <==> void && !answered)
    && (fact.verdict == Invalidated <==> void && answered)
    && (fact.observationOnly <==> settled && answered && !(accepted && Ran(item)) && !((accepted || declined) && WasDeclined(item)))
    && (fact.written <==> answered) && (fact.closed <==> Closed(key) in since)
  }

  /** The same of the history as the row has taken it in, from the asking on. */
  ghost predicate HistoryTells(s: Machine, a: nat, turn: string, key: string, about: Option<string>, fact: ApprovalFact) {
    Within(s.mem.known, s.log) && Tells(Since(s.log, s.mem.known, a), turn, key, about, fact)
  }

  lemma AnswerIsTheDecision(r: ApprovalReceipt, since: seq<Event>, turn: string, key: string, decision: Decision)
    requires ReadsAs(r, since, key) && r.turn == Some(turn)
    ensures RespondedWith(since, turn, key, decision) <==> r.written && r.decision == Some(decision)
  {
    hide Voided, Outcome, TurnEnd;
    if RespondedWith(since, turn, key, decision) {
      var i :| 0 <= i < |since| && since[i] == Wrote(turn, key, decision);
      assert Rewrites(since[i], r.turn, key);
    }
    if r.written {
      var i :| 0 <= i < |since| && Rewrites(since[i], r.turn, key);
      assert since[i] == Wrote(turn, key, since[i].decision);
    }
  }

  lemma ReceiptTells(r: ApprovalReceipt, since: seq<Event>, turn: string, key: string)
    requires ReadsAs(r, since, key) && r.turn == Some(turn)
    ensures Tells(since, turn, key, r.item, ReceiptFact(r, turn))
  {
    AnswerIsTheDecision(r, since, turn, key, Accept);
    AnswerIsTheDecision(r, since, turn, key, Decline);
    hide Voided, Outcome, TurnEnd, Responded, RespondedWith;
  }

  lemma LastAskedIsTheReceipt(s: Machine, a: nat, turn: Option<string>, key: string, about: Option<string>)
    requires ReadsOk(s) && ApprovalsOk(s) && LastAsked(s, a, turn, key, about)
    ensures key in s.mem.row.receipts && key in s.mem.asked && s.mem.asked[key] == a
    ensures s.mem.row.receipts[key].turn == turn && s.mem.row.receipts[key].item == about
  {
    hide ReadsAs, Since, OpsOk, ReceiptTrue, ReceiptComplete;
    assert key in s.mem.row.receipts;
    assert ReceiptOk(s.mem, s.log, s.ops, key);
    TheLastAsking(s.log, s.mem.known, s.mem.asked[key], key, s.mem.row.receipts[key], a);
  }

  lemma TheLastAsking(log: seq<Event>, known: seq<nat>, b: nat, key: string, r: ApprovalReceipt, a: nat)
    requires ReceiptTrue(log, b, key, r) && ReceiptComplete(log, known, b, key, r)
    requires a in known && a < |log| && Asks(log[a], key) && forall j | j in known && a < j < |log| :: !Asks(log[j], key)
    ensures a == b && log[a] == Asked(r.turn, key, r.item)
  {
    assert Asks(log[b], key);
  }

  /** With no success stored for it, what is reported of a response is decided
      by the history since its request was last asked, and by nothing else: the
      status, the verdict and every flag, each exactly when. */
  lemma FactTellsIff(inputs: seq<Input>, a: nat, turn: string, key: string, about: Option<string>)
    requires var s := Run(Start, inputs); LastAsked(s, a, Some(turn), key, about) && !SuccessIsStored(s, turn, key)
    ensures var s := Run(Start, inputs); HistoryTells(s, a, turn, key, about, FactFor(s, turn, key))
  {
    ReachableReads(inputs);
    var s := Run(Start, inputs);
    hide Run, Tells, ReadsAs, ReceiptFact, Since;
    LastAskedIsTheReceipt(s, a, Some(turn), key, about);
    ReceiptTells(s.mem.row.receipts[key], Since(s.log, s.mem.known, a), turn, key);
    hide ApprovalsOk;
  }

  /** Of a request never asked in this turn, or asked again in another one,
      nothing is known. */
  lemma UnaskedTellsNothing(inputs: seq<Input>, turn: string, key: string)
    requires forall a, about :: !LastAsked(Run(Start, inputs), a, Some(turn), key, about)
    ensures var fact := FactFor(Run(Start, inputs), turn, key);
            fact.status == Unknown && fact.verdict == Undecided && !fact.observationOnly
  {
    ReachableReads(inputs);
    var s := Run(Start, inputs);
    hide Run, OpsOk, ReceiptTrue, Since, ReadsAs;
    if key in s.mem.row.receipts {
      var r := s.mem.row.receipts[key];
      assert ReceiptOk(s.mem, s.log, s.ops, key);
      IsLastAsked(s, key);
      assert LastAsked(s, s.mem.asked[key], r.turn, key, r.item);
    }
  }

  lemma IsLastAsked(s: Machine, key: string)
    requires key in s.mem.row.receipts && ReceiptOk(s.mem, s.log, s.ops, key)
    ensures LastAsked(s, s.mem.asked[key], s.mem.row.receipts[key].turn, key, s.mem.row.receipts[key].item)
  {
  }

  /** What is recorded of a claimed response is what the history calls for now;
      a recorded success and an unclaimed response stay as they are. */
  lemma RecordIsWhatTheHistoryTells(inputs: seq<Input>, a: nat, turn: string, key: string, about: Option<string>)
    requires var s := Run(Start, inputs); LastAsked(s, a, Some(turn), key, about) && s.due.Free? && !SuccessIsStored(s, turn, key)
    ensures var s, v, id := Run(Start, inputs), Step(Run(Start, inputs), Record(turn, key)), (turn, key);
            && v.ops.Keys == s.ops.Keys && (forall other | other in s.ops && other != id :: v.ops[other] == s.ops[other])
            && (id in s.ops && s.ops[id].attempts > 0 && s.ops[id].status != Succeeded ==>
                  && v.ops[id].fact.Some? && v.ops[id].status == v.ops[id].fact.value.status
                  && HistoryTells(s, a, turn, key, about, v.ops[id].fact.value))
            && (id in s.ops && (s.ops[id].attempts == 0 || s.ops[id].status == Succeeded) ==> v.ops[id] == s.ops[id])
  {
    FactTellsIff(inputs, a, turn, key, about);
    hide Run, FactFor, HistoryTells, LastAsked, SuccessIsStored;
  }

  // ---------------------------------------------------- which answers are taken

  lemma HandleKeepsLive(row: Row, m: Message, live: set<string>)
    requires live <= row.pending.Keys && Handle(row, m).Some?
    ensures LiveAfter(live, m) <= Handle(row, m).value.pending.Keys
  {
    hide AnyInProgress, TurnEnds, ItemEnds;
  }

  lemma ProceedKeepsLive(s: Machine, ok: bool)
    ensures Proceeded(s, ok).live == s.live && Proceeded(s, ok).mem.row.pending == s.mem.row.pending
  {
  }

  lemma LiveStep(s: Machine, i: Input)
    requires s.live <= s.mem.row.pending.Keys
    ensures Step(s, i).live <= Step(s, i).mem.row.pending.Keys
  {
    hide FactFor, Handle, Proceeded;
    if i.Proceed? { ProceedKeepsLive(s, i.ok); }
    if i.Deliver? && Handle(s.mem.row, i.m).Some? { HandleKeepsLive(s.mem.row, i.m, s.live); }
  }

  lemma {:induction false} LiveIsPending(s: Machine, inputs: seq<Input>)
    requires s.live <= s.mem.row.pending.Keys
    ensures Run(s, inputs).live <= Run(s, inputs).mem.row.pending.Keys
    decreases |inputs|
  {
    hide Step;
    if inputs != [] {
      LiveStep(s, inputs[0]);
      LiveIsPending(Step(s, inputs[0]), inputs[1..]);
    }
  }

  /** An answer goes on to its claim if and only if it is permitted, the reader
      lives, the request is live, the turn is not over, and no other answer was
      given to the same identity.  Then the request is open in the history. */
  lemma SubmitIsTakenIff(inputs: seq<Input>, a: nat, turn: string, key: string, about: Option<string>, decision: Decision,
                         permitted: bool)
    requires var s := Run(Start, inputs); LastAsked(s, a, Some(turn), key, about) && s.due.Free?
    ensures var s, v := Run(Start, inputs), Step(Run(Start, inputs), Submit(key, decision, permitted));
            && Within(s.mem.known, s.log)
            && (v.due == ToClaim(key, turn, decision) <==>
                  && permitted && !s.closed && key in s.live
                  && !TurnOver(Heard(s.log, s.mem.known), LatestTurn(Heard(s.log, s.mem.known)))
                  && ((turn, key) in s.ops ==> s.ops[(turn, key)].decision == decision))
            && (v.due == ToClaim(key, turn, decision) ==> key in OpenRequests(Heard(s.log, s.mem.known)))
            && (v.due != ToClaim(key, turn, decision) ==> v == s)
  {
    RunKeepsRowsOk(Start, inputs);
    LiveIsPending(Start, inputs);
    ReachableReads(inputs);
    var s := Run(Start, inputs);
    hide Run, Step, ReadsOk, ApprovalsOk, TurnOver, OpenRequests, LatestTurn, Standing, Faulted, ItemsOf;
    LastAskedIsTheReceipt(s, a, Some(turn), key, about);
    hide LastAsked, Misses;
    SubmitOnReceipt(s, turn, key, decision, permitted);
    assert RowOk(s.mem.row, Heard(s.log, s.mem.known));
  }

  lemma SubmitOnReceipt(s: Machine, turn: string, key: string, decision: Decision, permitted: bool)
    requires s.due.Free? && key in s.mem.row.receipts && s.mem.row.receipts[key].turn == Some(turn)
    ensures var v := Step(s, Submit(key, decision, permitted));
            && (v.due == ToClaim(key, turn, decision) <==>
                  && permitted && !s.closed && key in s.live && !s.mem.row.ended
                  && ((turn, key) in s.ops ==> s.ops[(turn, key)].decision == decision))
            && (v.due != ToClaim(key, turn, decision) ==> v == s)
  {
  }

  // ------------------------------------------------ what a save leaves behind

  /** A message that was taken in, a bound thread, an acknowledgement, a stop and
      a disconnect wait for one save.  When it succeeds the store has what memory
      has; when it fails the store keeps what it had, and the reader dies if it
      was a message. */
  lemma SaveOrNot(s: Machine, i: Input, ok: bool)
    requires s.due.Free? && (i.Bind? || i.Ack? || i.Drop? || i.Invalidate? || (i.Deliver? && !i.m.Other? && !s.closed && Handle(s.mem.row, i.m).Some?))
    ensures var v := Step(s, i);
            var w := Step(v, Proceed(ok));
            && !v.due.Free? && v.disk == s.disk && w.due.Free? && w.mem == v.mem && w.log == v.log && w.ops == s.ops
            && w.disk == (if ok then w.mem else s.disk) && w.closed == (s.closed || i.Drop? || (!ok && i.Deliver?))
  {
    hide Handle;
  }

  /** The three ways out of a claim in hand: a good write that is saved; a good
      write whose save fails, and a write that fails, both of which are stored as
      unknown and never tried again. */
  lemma ClaimEnds(s: Machine)
    requires ApprovalsOk(s) && s.due.ToWrite?
    ensures var id, key := (s.due.turn, s.due.key), s.due.key;
            var saved := Step(Step(s, Proceed(true)), Proceed(true));
            var unsaved := Step(Step(Step(s, Proceed(true)), Proceed(false)), Proceed(true));
            var failed := Step(Step(s, Proceed(false)), Proceed(true));
            && saved.due.Free? && unsaved.due.Free? && failed.due.Free?
            && key in saved.disk.row.receipts && saved.disk.row.receipts[key].written && saved.ops == s.ops
            && unsaved.disk == s.disk && key in unsaved.mem.row.receipts && unsaved.mem.row.receipts[key].written
            && failed.disk == s.disk && failed.mem.row == s.mem.row
            && id in unsaved.ops && id in failed.ops && unsaved.ops == failed.ops == s.ops[id := s.ops[id].(status := Unknown)]
            && failed.log == s.log + [WriteFailed(s.due.turn, key)] && unsaved.log == s.log + [Wrote(s.due.turn, key, s.due.decision)]
  {
    DueIsOk(s);
    hide ApprovalsOk, Step;
    WriteThen(s, true);
    WriteFails(s);
    WriteThen(s, false);
  }

  /** A good write, then a save that succeeds, or one that fails and is noted. */
  lemma WriteThen(s: Machine, ok: bool)
    requires DueOk(s) && s.due.ToWrite?
    ensures var id, key := (s.due.turn, s.due.key), s.due.key;
            var written := Step(s, Proceed(true));
            var v := if ok then Step(written, Proceed(true)) else Step(Step(written, Proceed(false)), Proceed(true));
            && v.due.Free? && key in v.mem.row.receipts && v.mem.row.receipts[key].written
            && v.disk == (if ok then v.mem else s.disk) && id in s.ops
            && v.ops == (if ok then s.ops else s.ops[id := s.ops[id].(status := Unknown)])
            && v.log == s.log + [Wrote(s.due.turn, key, s.due.decision)]
  {
  }

  lemma WriteFails(s: Machine)
    requires DueOk(s) && s.due.ToWrite?
    ensures var id := (s.due.turn, s.due.key);
            var v := Step(Step(s, Proceed(false)), Proceed(true));
            && v.due.Free? && v.disk == s.disk && v.mem.row == s.mem.row && id in s.ops
            && v.ops == s.ops[id := s.ops[id].(status := Unknown)] && v.log == s.log + [WriteFailed(s.due.turn, s.due.key)]
  {
  }
}
