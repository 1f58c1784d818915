/** What is reported of an approval response, through every interleaving and a
    crash between any two of claim, write and save. */
module CodexApprovals {
  import opened OperationStore
  import opened CodexRow
  import opened CodexRuns

  // -------------------------------------------------- readings of the history

  ghost predicate After(log: seq<Event>, a: nat, e: Event) {
    exists i :: a < i < |log| && log[i] == e
  }

  /** The item was reported finished with exactly this outcome after position `a`. */
  ghost predicate ItemEndedAfter(log: seq<Event>, a: nat, turn: Option<string>, about: Option<string>, status: string,
                                 exitCode: Option<int>) {
    exists i :: a < i < |log| && log[i].ItemSeen? && log[i].completed && log[i].turn == turn
                && about == Some(log[i].id) && log[i].item.status == status && log[i].item.exitCode == exitCode
  }

  predicate Rewrites(e: Event, turn: Option<string>, key: string) {
    e.Wrote? && Some(e.onTurn) == turn && e.key == key
  }

  predicate Asks(e: Event, key: string) { e.Asked? && e.key == key }

  predicate Writing(e: Event) { e.Wrote? || e.WriteFailed? }

  predicate Spends(e: Event) { Writing(e) || e.ClaimLost? }

  /** How often a response of this identity went to the engine, or may have. */
  function Writes(log: seq<Event>, turn: string, key: string): nat {
    if log == [] then 0 else
    var e := log[|log| - 1];
    Writes(log[..|log| - 1], turn, key) + (if Writing(e) && e.onTurn == turn && e.key == key then 1 else 0)
  }

  /** How often a process died with this identity claimed and nothing written. */
  function Lost(log: seq<Event>, turn: string, key: string): nat {
    if log == [] then 0 else
    var e := log[|log| - 1];
    Lost(log[..|log| - 1], turn, key) + (if e.ClaimLost? && e.onTurn == turn && e.key == key then 1 else 0)
  }

  lemma CountsGrow(log: seq<Event>, e: Event, turn: string, key: string)
    ensures Writes(log + [e], turn, key) == Writes(log, turn, key) + (if Writing(e) && e.onTurn == turn && e.key == key then 1 else 0)
    ensures Lost(log + [e], turn, key) == Lost(log, turn, key) + (if e.ClaimLost? && e.onTurn == turn && e.key == key then 1 else 0)
  {
    Grown(log, e);
  }

  lemma AfterGrows(log: seq<Event>, a: nat, e: Event, more: Event)
    requires After(log, a, e)
    ensures After(log + [more], a, e)
  {
    var i :| a < i < |log| && log[i] == e;
    assert (log + [more])[i] == e;
  }

  lemma ItemEndedGrows(log: seq<Event>, a: nat, turn: Option<string>, about: Option<string>, status: string,
                       exitCode: Option<int>, more: Event)
    requires ItemEndedAfter(log, a, turn, about, status, exitCode)
    ensures ItemEndedAfter(log + [more], a, turn, about, status, exitCode)
  {
    var i :| a < i < |log| && log[i].ItemSeen? && log[i].completed && log[i].turn == turn
             && about == Some(log[i].id) && log[i].item.status == status && log[i].item.exitCode == exitCode;
    assert (log + [more])[i] == log[i];
  }

  // ------------------------------------------------ receipts tell the truth

  /** What a receipt claims about its request really happened since position `a`,
      where the request was asked. */
  ghost predicate ReceiptTrue(log: seq<Event>, a: nat, key: string, r: ApprovalReceipt) {
    && a < |log| && log[a] == Asked(r.turn, key, r.item)
    && (r.written ==> r.turn.Some? && r.decision.Some? && After(log, a, Wrote(r.turn.value, key, r.decision.value)))
    && (r.closed ==> After(log, a, Closed(key)))
    && (r.itemStatus.Some? ==> ItemEndedAfter(log, a, r.turn, r.item, r.itemStatus.value, r.exitCode))
  }

  /** Of what the row has taken in, nothing since `a` asks the request again, and
      nothing answers it that the receipt does not know of. */
  predicate ReceiptComplete(log: seq<Event>, known: seq<nat>, a: nat, key: string, r: ApprovalReceipt) {
    && a in known
    && forall j | j in known && a < j < |log| :: !Asks(log[j], key) && (r.written || !Rewrites(log[j], r.turn, key))
  }

  lemma TruthGrows(log: seq<Event>, a: nat, key: string, r: ApprovalReceipt, e: Event)
    requires ReceiptTrue(log, a, key, r)
    ensures ReceiptTrue(log + [e], a, key, r)
  {
    if r.written { AfterGrows(log, a, Wrote(r.turn.value, key, r.decision.value), e); }
    if r.closed { AfterGrows(log, a, Closed(key), e); }
    if r.itemStatus.Some? { ItemEndedGrows(log, a, r.turn, r.item, r.itemStatus.value, r.exitCode, e); }
  }

  // --------------------------------------------------------- the invariant

  type Ops = map<(string, string), ApprovalOp>

  predicate Spent(ops: Ops, turn: Option<string>, key: string) {
    turn.Some? && (turn.value, key) in ops && ops[(turn.value, key)].attempts == 1
  }

  ghost predicate ReceiptOk(v: View, log: seq<Event>, ops: Ops, key: string)
    requires key in v.row.receipts
  {
    var r := v.row.receipts[key];
    && key in v.asked && ReceiptTrue(log, v.asked[key], key, r) && ReceiptComplete(log, v.known, v.asked[key], key, r)
    && (r.submitted ==> Spent(ops, r.turn, key))
    && (!r.submitted ==> !r.written)
  }

  ghost predicate ViewTrue(v: View, log: seq<Event>, ops: Ops) {
    Within(v.known, log) && forall key | key in v.row.receipts :: ReceiptOk(v, log, ops, key)
  }

  /** The claim of this identity is held and nothing has been written for it. */
  predicate InHand(due: Due, id: (string, string)) { due.ToWrite? && (due.turn, due.key) == id }

  /** Every claim is spent exactly once: on one write, on the death of its
      process before the write, or it is still in hand. */
  ghost predicate OpOk(op: ApprovalOp, log: seq<Event>, due: Due, id: (string, string)) {
    && op.attempts <= 1
    && op.attempts == Writes(log, id.0, id.1) + Lost(log, id.0, id.1) + (if InHand(due, id) then 1 else 0)
    && (op.status == NotStarted <==> op.attempts == 0)
    && (op.status == Succeeded ==> op.fact.Some?)
    && (op.fact.Some? ==> op.attempts == 1 && op.status == op.fact.value.status)
    && (op.fact.Some? && op.fact.value.verdict == Expired ==> op.status == Failed)
    && (op.fact.Some? ==> Backed(log, id.0, id.1, op.fact.value.verdict))
  }

  ghost predicate OpsOk(ops: Ops, log: seq<Event>, due: Due) {
    && (forall id | id in ops :: OpOk(ops[id], log, due, id))
    && (forall turn, key :: (turn, key) !in ops ==> Writes(log, turn, key) == 0 && Lost(log, turn, key) == 0)
  }

  /** What the locked part of answering relies on between its steps. */
  predicate DueOk(s: Machine) {
    match s.due
    case ToClaim(key, turn, _) => (turn, key) in s.ops && key in s.mem.row.receipts && s.mem.row.receipts[key].turn == Some(turn)
    case ToWrite(key, turn, decision) =>
      && (turn, key) in s.ops && s.ops[(turn, key)].attempts == 1 && s.ops[(turn, key)].fact.None?
      && key in s.mem.row.receipts
      && (var r := s.mem.row.receipts[key]; r.turn == Some(turn) && r.submitted && r.decision == Some(decision))
    case ToConfirm(key, turn) => (turn, key) in s.ops && s.ops[(turn, key)].attempts == 1 && s.ops[(turn, key)].fact.None?
    case ToDoubt(key, turn) => (turn, key) in s.ops && s.ops[(turn, key)].attempts == 1 && s.ops[(turn, key)].fact.None?
    case _ => true
  }

  ghost predicate ApprovalsOk(s: Machine) {
    ViewTrue(s.mem, s.log, s.ops) && ViewTrue(s.disk, s.log, s.ops) && OpsOk(s.ops, s.log, s.due) && DueOk(s)
  }

  // ------------------------------------------------------- verdicts are backed

  /** The response and the item's end that a reported verdict stands for. */
  predicate Witnesses(verdict: Verdict, decision: Decision, status: string, exitCode: Option<int>) {
    || (verdict == Confirmed && decision == Accept && (status == "completed" || (status == "failed" && exitCode.Some?)))
    || (verdict == Declined && decision != Reply && status == "declined")
  }

  /** Asked in this turn at `a`, then a response was written, the request closed,
      and the item it is about ended in the same turn as the verdict says. */
  ghost predicate BackedSince(log: seq<Event>, a: nat, turn: string, key: string, verdict: Verdict)
    requires a < |log|
  {
    && log[a].Asked? && log[a].turn == Some(turn) && log[a].key == key && After(log, a, Closed(key))
    && exists decision, status, exitCode :: Witnesses(verdict, decision, status, exitCode)
         && After(log, a, Wrote(turn, key, decision)) && ItemEndedAfter(log, a, Some(turn), log[a].about, status, exitCode)
  }

  /** Adoption and refusal are the verdicts that claim something happened. */
  ghost predicate Backed(log: seq<Event>, turn: string, key: string, verdict: Verdict) {
    verdict == Confirmed || verdict == Declined ==> exists a :: 0 <= a < |log| && BackedSince(log, a, turn, key, verdict)
  }

  lemma BackedGrows(log: seq<Event>, turn: string, key: string, verdict: Verdict, e: Event)
    requires Backed(log, turn, key, verdict)
    ensures Backed(log + [e], turn, key, verdict)
  {
    if verdict == Confirmed || verdict == Declined {
      var a :| 0 <= a < |log| && BackedSince(log, a, turn, key, verdict);
      var more := log + [e];
      assert more[a] == log[a];
      AfterGrows(log, a, Closed(key), e);
      var decision, status, exitCode :| Witnesses(verdict, decision, status, exitCode)
        && After(log, a, Wrote(turn, key, decision)) && ItemEndedAfter(log, a, Some(turn), log[a].about, status, exitCode);
      AfterGrows(log, a, Wrote(turn, key, decision), e);
      ItemEndedGrows(log, a, Some(turn), log[a].about, status, exitCode, e);
      assert BackedSince(more, a, turn, key, verdict);
    }
  }

  lemma ReceiptIsBacked(log: seq<Event>, a: nat, key: string, r: ApprovalReceipt, turn: string)
    requires ReceiptTrue(log, a, key, r)
    ensures Backed(log, turn, key, ReceiptFact(r, turn).verdict)
  {
    var verdict := ReceiptFact(r, turn).verdict;
    if verdict == Confirmed || verdict == Declined {
      assert Witnesses(verdict, r.decision.value, r.itemStatus.value, r.exitCode);
      assert ItemEndedAfter(log, a, Some(turn), log[a].about, r.itemStatus.value, r.exitCode);
      assert BackedSince(log, a, turn, key, verdict);
    }
  }

  // ------------------------------------------------------- a step keeps it all

  /** A view stays true when the history grows by something it does not take in. */
  lemma ViewStays(v: View, log: seq<Event>, ops: Ops, e: Event)
    requires ViewTrue(v, log, ops)
    ensures ViewTrue(v, log + [e], ops)
  {
    forall key | key in v.row.receipts ensures ReceiptOk(v, log + [e], ops, key) {
      assert ReceiptOk(v, log, ops, key);
      TruthGrows(log, v.asked[key], key, v.row.receipts[key], e);
    }
  }

  /** Attempts only grow, and the view stays true. */
  lemma ViewOutlives(v: View, log: seq<Event>, ops: Ops, more: Ops)
    requires ViewTrue(v, log, ops)
    requires forall id | id in ops && ops[id].attempts == 1 :: id in more && more[id].attempts == 1
    ensures ViewTrue(v, log, more)
  {
    forall key | key in v.row.receipts ensures ReceiptOk(v, log, more, key) {
      assert ReceiptOk(v, log, ops, key);
    }
  }

  /** An event that spends no claim leaves the operations justified. */
  lemma OpsStay(ops: Ops, log: seq<Event>, due: Due, next: Due, e: Event)
    requires OpsOk(ops, log, due) && !Spends(e) && !due.ToWrite? && !next.ToWrite?
    ensures OpsOk(ops, log + [e], next)
  {
    hide Writes, Lost, Backed;
    forall id | id in ops ensures OpOk(ops[id], log + [e], next, id) {
      assert OpOk(ops[id], log, due, id);
      CountsGrow(log, e, id.0, id.1);
      if ops[id].fact.Some? { BackedGrows(log, id.0, id.1, ops[id].fact.value.verdict, e); }
    }
    forall turn, key | (turn, key) !in ops ensures Writes(log + [e], turn, key) == 0 && Lost(log + [e], turn, key) == 0 {
      CountsGrow(log, e, turn, key);
    }
  }

  /** The claim in hand is spent by this event. */
  lemma ClaimIsSpent(ops: Ops, log: seq<Event>, due: Due, next: Due, e: Event)
    requires OpsOk(ops, log, due) && due.ToWrite? && !next.ToWrite? && (due.turn, due.key) in ops
    requires Spends(e) && e.onTurn == due.turn && e.key == due.key
    ensures OpsOk(ops, log + [e], next)
  {
    hide Writes, Lost, Backed;
    forall id | id in ops ensures OpOk(ops[id], log + [e], next, id) {
      assert OpOk(ops[id], log, due, id);
      CountsGrow(log, e, id.0, id.1);
      if ops[id].fact.Some? { BackedGrows(log, id.0, id.1, ops[id].fact.value.verdict, e); }
    }
    forall turn, key | (turn, key) !in ops ensures Writes(log + [e], turn, key) == 0 && Lost(log + [e], turn, key) == 0 {
      CountsGrow(log, e, turn, key);
    }
  }

  /** What a step may change in a receipt, and what then happened. */
  predicate Noticed(r: ApprovalReceipt, q: ApprovalReceipt, key: string, e: Event) {
    && q.turn == r.turn && q.item == r.item && q.decision == r.decision && q.submitted == r.submitted
    && (q.written == r.written
        || (r.submitted && q.written && r.turn.Some? && r.decision.Some? && e == Wrote(r.turn.value, key, r.decision.value)))
    && (Rewrites(e, r.turn, key) ==> q.written)
    && (q.closed == r.closed || e == Closed(key))
    && ((q.itemStatus == r.itemStatus && q.exitCode == r.exitCode)
        || (e.ItemSeen? && e.completed && e.turn == r.turn && r.item == Some(e.id)
            && q.itemStatus == Some(e.item.status) && q.exitCode == e.item.exitCode))
  }

  lemma NoticedStaysTrue(log: seq<Event>, a: nat, key: string, r: ApprovalReceipt, q: ApprovalReceipt, e: Event)
    requires ReceiptTrue(log, a, key, r) && Noticed(r, q, key, e)
    ensures ReceiptTrue(log + [e], a, key, q)
  {
    TruthGrows(log, a, key, r, e);
    assert (log + [e])[|log|] == e;
  }

  lemma NoticedStaysComplete(log: seq<Event>, known: seq<nat>, a: nat, key: string, r: ApprovalReceipt, q: ApprovalReceipt,
                             e: Event)
    requires ReceiptComplete(log, known, a, key, r) && Noticed(r, q, key, e) && !Asks(e, key)
    ensures ReceiptComplete(log + [e], known + [|log|], a, key, q)
  {
    var more := known + [|log|];
    assert more[|known|] == |log|;
    forall j | j in more && a < j < |log + [e]|
      ensures !Asks((log + [e])[j], key) && (q.written || !Rewrites((log + [e])[j], q.turn, key))
    {
      if j < |log| { assert j in known; }
    }
  }

  /** Memory hears an event, and its receipts change only as it entitles them to. */
  lemma HearKeepsView(s: Machine, row: Row, e: Event, ops: Ops)
    requires ViewTrue(s.mem, s.log, ops) && row.receipts.Keys == s.mem.row.receipts.Keys && !e.Asked?
    requires forall key | key in row.receipts :: Noticed(s.mem.row.receipts[key], row.receipts[key], key, e)
    ensures ViewTrue(Hear(s, row, e).mem, s.log + [e], ops)
  {
    HeardMore(s.log, s.mem.known, e);
    hide ReceiptTrue, ReceiptComplete;
    var v := Hear(s, row, e).mem;
    forall key | key in row.receipts ensures ReceiptOk(v, s.log + [e], ops, key) {
      assert ReceiptOk(s.mem, s.log, ops, key);
      NoticedStaysTrue(s.log, v.asked[key], key, s.mem.row.receipts[key], row.receipts[key], e);
      NoticedStaysComplete(s.log, s.mem.known, v.asked[key], key, s.mem.row.receipts[key], row.receipts[key], e);
    }
  }

  /** A request replaces the receipt of its key by an empty one. */
  lemma RequestKeepsView(s: Machine, row: Row, key: string, turn: Option<string>, about: Option<string>, ops: Ops)
    requires ViewTrue(s.mem, s.log, ops) && row.receipts == s.mem.row.receipts[key := NewReceipt(turn, about)]
    ensures ViewTrue(Hear(s, row, Asked(turn, key, about)).mem, s.log + [Asked(turn, key, about)], ops)
  {
    var e := Asked(turn, key, about);
    HeardMore(s.log, s.mem.known, e);
    var v := Hear(s, row, e).mem;
    assert v.known[|s.mem.known|] == |s.log|;
    hide ReceiptTrue, ReceiptComplete;
    forall k | k in row.receipts ensures ReceiptOk(v, s.log + [e], ops, k) {
      if k != key {
        assert ReceiptOk(s.mem, s.log, ops, k);
        NoticedStaysTrue(s.log, v.asked[k], k, row.receipts[k], row.receipts[k], e);
        NoticedStaysComplete(s.log, s.mem.known, v.asked[k], k, row.receipts[k], row.receipts[k], e);
      } else {
        FreshReceipt(s.log, s.mem.known, key, turn, about);
      }
    }
  }

  lemma FreshReceipt(log: seq<Event>, known: seq<nat>, key: string, turn: Option<string>, about: Option<string>)
    requires Within(known, log)
    ensures ReceiptTrue(log + [Asked(turn, key, about)], |log|, key, NewReceipt(turn, about))
    ensures ReceiptComplete(log + [Asked(turn, key, about)], known + [|log|], |log|, key, NewReceipt(turn, about))
  {
    assert (known + [|log|])[|known|] == |log|;
  }

  lemma HandleNotices(row: Row, m: Message, key: string)
    requires Handle(row, m).Some? && !m.Request?
    ensures key in row.receipts <==> key in Handle(row, m).value.receipts
    ensures key in row.receipts ==> Noticed(row.receipts[key], Handle(row, m).value.receipts[key], key, EventOf(m))
  {
    hide AnyInProgress, RestState, Without;
  }

  lemma RequestReplacesReceipt(row: Row, m: Message)
    requires m.Request? && Handle(row, m).Some?
    ensures Handle(row, m).value.receipts == row.receipts[m.key := NewReceipt(m.turn, m.about)]
  {
  }

  lemma DeliverKeepsApprovals(s: Machine, m: Message)
    requires ApprovalsOk(s) && s.due.Free?
    ensures ApprovalsOk(Delivered(s, m))
  {
    hide Handle, ViewTrue, OpsOk;
    if s.closed { FreeKeepsOps(s, Free); return; }
    var e := EventOf(m);
    ViewStays(s.disk, s.log, s.ops, e);
    if Handle(s.mem.row, m).None? {
      ViewStays(s.mem, s.log, s.ops, e);
      OpsStay(s.ops, s.log, s.due, Free, e);
      return;
    }
    var row := Handle(s.mem.row, m).value;
    OpsStay(s.ops, s.log, s.due, Delivered(s, m).due, e);
    if m.Request? {
      RequestReplacesReceipt(s.mem.row, m);
      RequestKeepsView(s, row, m.key, m.turn, m.about, s.ops);
    } else {
      forall key ensures key in s.mem.row.receipts <==> key in row.receipts { HandleNotices(s.mem.row, m, key); }
      forall key | key in row.receipts ensures Noticed(s.mem.row.receipts[key], row.receipts[key], key, e) {
        HandleNotices(s.mem.row, m, key);
      }
      hide Noticed;
      HearKeepsView(s, row, e, s.ops);
    }
  }

  /** What is due matters to the operations only while a claim is in hand. */
  lemma FreeKeepsOps(s: Machine, next: Due)
    requires OpsOk(s.ops, s.log, s.due) && !s.due.ToWrite? && !next.ToWrite?
    ensures OpsOk(s.ops, s.log, next)
  {
    forall id | id in s.ops ensures OpOk(s.ops[id], s.log, next, id) { assert OpOk(s.ops[id], s.log, s.due, id); }
  }

  lemma AckKeepsApprovals(s: Machine, turn: string)
    requires ApprovalsOk(s) && s.due.Free?
    ensures ApprovalsOk(Step(s, Ack(turn)))
  {
    var row, e := OnAccepted(s.mem.row, turn), Acked(Some(turn));
    hide ViewTrue, OpsOk;
    ViewStays(s.disk, s.log, s.ops, e);
    OpsStay(s.ops, s.log, s.due, ToSaveAside, e);
    HearKeepsView(s, row, e, s.ops);
  }

  /** Only other fields of the row change. */
  lemma AsideKeepsApprovals(s: Machine, v: Machine)
    requires ApprovalsOk(s) && s.due.Free? && v.due == ToSaveAside
    requires v.log == s.log && v.ops == s.ops && v.disk == s.disk && v.mem.known == s.mem.known && v.mem.asked == s.mem.asked
    requires v.mem.row.receipts == s.mem.row.receipts
    ensures ApprovalsOk(v)
  {
    FreeKeepsOps(s, ToSaveAside);
    forall key | key in v.mem.row.receipts ensures ReceiptOk(v.mem, v.log, v.ops, key) {
      assert ReceiptOk(s.mem, s.log, s.ops, key);
    }
  }

  lemma OvertakenKeepsApprovals(s: Machine, key: string)
    requires ApprovalsOk(s) && s.due.Free?
    ensures ApprovalsOk(Step(s, Invalidate(key)))
  {
    var row, e := MarkedInvalid(s.mem.row, key), Withdrawn(key);
    hide ViewTrue, OpsOk;
    if key in s.mem.row.receipts && s.mem.row.receipts[key].submitted {
      ViewStays(s.disk, s.log, s.ops, e);
      OpsStay(s.ops, s.log, s.due, ToSaveAside, e);
      HearKeepsView(s, row, e, s.ops);
    } else {
      FreeKeepsOps(s, ToSaveAside);
    }
  }

  lemma SubmitKeepsApprovals(s: Machine, key: string, decision: Decision, permitted: bool)
    requires ApprovalsOk(s) && s.due.Free?
    ensures ApprovalsOk(Submitted(s, key, decision, permitted))
  {
    var v := Submitted(s, key, decision, permitted);
    if v == s { return; }
    hide ViewTrue, Writes, Lost, Backed;
    var id := (v.due.turn, key);
    assert forall i | i in s.ops :: i in v.ops && v.ops[i] == s.ops[i];
    ViewOutlives(s.mem, s.log, s.ops, v.ops);
    ViewOutlives(s.disk, s.log, s.ops, v.ops);
    forall i | i in v.ops ensures OpOk(v.ops[i], v.log, v.due, i) {
      if i in s.ops { assert OpOk(s.ops[i], s.log, s.due, i); }
    }
  }

  lemma ClaimKeepsOps(s: Machine)
    requires ApprovalsOk(s) && s.due.ToClaim?
    ensures OpsOk(Claimed(s, true).ops, s.log, Claimed(s, true).due)
  {
    hide ViewTrue, Writes, Lost, Backed;
    var v := Claimed(s, true);
    forall i | i in v.ops ensures OpOk(v.ops[i], v.log, v.due, i) { assert OpOk(s.ops[i], s.log, s.due, i); }
  }

  /** The claimed request's receipt learns of its decision and its operation. */
  lemma ClaimKeepsReceipt(v: View, w: View, log: seq<Event>, ops: Ops, key: string, decision: Decision)
    requires key in v.row.receipts && ReceiptOk(v, log, ops, key) && !v.row.receipts[key].written
    requires key in w.row.receipts && w.known == v.known && w.asked == v.asked
    requires w.row.receipts[key] == v.row.receipts[key].(decision := Some(decision), submitted := true)
    requires Spent(ops, v.row.receipts[key].turn, key)
    ensures ReceiptOk(w, log, ops, key)
  {
    hide ReceiptComplete;
    SubmittedStaysComplete(log, v.known, v.asked[key], key, v.row.receipts[key], w.row.receipts[key]);
  }

  lemma ClaimKeepsView(s: Machine)
    requires ApprovalsOk(s) && s.due.ToClaim? && !Claimed(s, true).due.Free?
    ensures ViewTrue(Claimed(s, true).mem, s.log, Claimed(s, true).ops)
  {
    var v, key := Claimed(s, true), s.due.key;
    assert v.ops == s.ops[(s.due.turn, key) := v.ops[(s.due.turn, key)]] && v.ops[(s.due.turn, key)].attempts == 1;
    ViewOutlives(s.mem, s.log, s.ops, v.ops);
    UnclaimedIsUnwritten(s);
    assert ReceiptOk(s.mem, s.log, v.ops, key);
    ClaimKeepsReceipt(s.mem, v.mem, s.log, v.ops, key, s.due.decision);
    forall k | k in v.mem.row.receipts ensures ReceiptOk(v.mem, v.log, v.ops, k) {
      if k != key { assert ReceiptOk(s.mem, s.log, v.ops, k); }
    }
  }

  lemma UnclaimedIsUnwritten(s: Machine)
    requires ApprovalsOk(s) && s.due.ToClaim? && s.ops[(s.due.turn, s.due.key)].attempts == 0
    ensures !s.mem.row.receipts[s.due.key].written
  {
    assert ReceiptOk(s.mem, s.log, s.ops, s.due.key);
  }

  lemma ClaimKeepsApprovals(s: Machine, ok: bool)
    requires ApprovalsOk(s) && s.due.ToClaim?
    ensures ApprovalsOk(Claimed(s, ok))
  {
    hide ViewTrue, OpsOk;
    var v := Claimed(s, ok);
    if v.due.Free? { FreeKeepsOps(s, Free); return; }
    ClaimKeepsOps(s);
    ClaimKeepsView(s);
    assert OpOk(s.ops[(s.due.turn, s.due.key)], s.log, s.due, (s.due.turn, s.due.key)) by { ClaimedIsOk(s); }
    ViewOutlives(s.disk, s.log, s.ops, v.ops);
  }

  lemma ClaimedIsOk(s: Machine)
    requires ApprovalsOk(s) && s.due.ToClaim?
    ensures var id := (s.due.turn, s.due.key); OpOk(s.ops[id], s.log, s.due, id)
  {
  }

  lemma SubmittedStaysComplete(log: seq<Event>, known: seq<nat>, a: nat, key: string, r: ApprovalReceipt, q: ApprovalReceipt)
    requires ReceiptComplete(log, known, a, key, r) && q.turn == r.turn && q.written == r.written
    ensures ReceiptComplete(log, known, a, key, q)
  {
  }

  lemma WriteIsNoticed(s: Machine, ok: bool, key: string)
    requires DueOk(s) && s.due.ToWrite? && key in s.mem.row.receipts
    ensures var v := Written(s, ok);
            && v.mem.row.receipts.Keys == s.mem.row.receipts.Keys && |v.log| == |s.log| + 1
            && Noticed(s.mem.row.receipts[key], v.mem.row.receipts[key], key, v.log[|s.log|])
  {
  }

  lemma WriteKeepsApprovals(s: Machine, ok: bool)
    requires ApprovalsOk(s) && s.due.ToWrite?
    ensures ApprovalsOk(Written(s, ok))
  {
    var v, row := Written(s, ok), Written(s, ok).mem.row;
    var e := v.log[|s.log|];
    hide ViewTrue, OpsOk;
    ClaimIsSpent(s.ops, s.log, s.due, v.due, e);
    ViewStays(s.disk, s.log, s.ops, e);
    forall key | key in row.receipts ensures Noticed(s.mem.row.receipts[key], row.receipts[key], key, e) { WriteIsNoticed(s, ok, key); }
    hide Noticed;
    HearKeepsView(s, row, e, s.ops);
  }

  lemma DoubtKeepsApprovals(s: Machine)
    requires ApprovalsOk(s) && s.due.ToDoubt?
    ensures ApprovalsOk(Doubted(s, (s.due.turn, s.due.key)))
  {
    hide ViewTrue, Writes, Lost, Backed;
    var v := Doubted(s, (s.due.turn, s.due.key));
    ViewOutlives(s.mem, s.log, s.ops, v.ops);
    ViewOutlives(s.disk, s.log, s.ops, v.ops);
    forall i | i in v.ops ensures OpOk(v.ops[i], v.log, v.due, i) { assert OpOk(s.ops[i], s.log, s.due, i); }
  }

  lemma ProceedKeepsApprovals(s: Machine, ok: bool)
    requires ApprovalsOk(s)
    ensures ApprovalsOk(Proceeded(s, ok))
  {
    hide ViewTrue, OpsOk, Claimed, Written, Doubted;
    match s.due
    case ToClaim(_, _, _) => ClaimKeepsApprovals(s, ok);
    case ToWrite(_, _, _) => WriteKeepsApprovals(s, ok);
    case ToDoubt(_, _) => if ok { DoubtKeepsApprovals(s); } else { FreeKeepsOps(s, Free); }
    case _ => FreeKeepsOps(s, Proceeded(s, ok).due);
  }

  lemma RestartKeepsApprovals(s: Machine)
    requires ApprovalsOk(s)
    ensures ApprovalsOk(Restarted(s))
  {
    hide ViewTrue, OpsOk;
    if s.due.ToWrite? {
      var e := ClaimLost(s.due.turn, s.due.key);
      ViewStays(s.disk, s.log, s.ops, e);
      ClaimIsSpent(s.ops, s.log, s.due, Free, e);
    } else {
      FreeKeepsOps(s, Free);
    }
  }

  lemma RecordKeepsApprovals(s: Machine, turn: string, key: string)
    requires ApprovalsOk(s) && s.due.Free?
    ensures ApprovalsOk(Recorded(s, turn, key))
  {
    hide ViewTrue, Writes, Lost, Backed, FactFor;
    var v, id := Recorded(s, turn, key), (turn, key);
    if v == s { return; }
    FactIsJustified(s, turn, key);
    ViewOutlives(s.mem, s.log, s.ops, v.ops);
    ViewOutlives(s.disk, s.log, s.ops, v.ops);
    forall i | i in v.ops ensures OpOk(v.ops[i], v.log, v.due, i) { assert OpOk(s.ops[i], s.log, s.due, i); }
  }

  /** A fact is the stored success, or what the receipt itself supports. */
  lemma FactSources(s: Machine, turn: string, key: string)
    requires key in s.mem.row.receipts
    ensures var fact := FactFor(s, turn, key);
            || fact == ReceiptFact(s.mem.row.receipts[key], turn)
            || ((turn, key) in s.ops && s.ops[(turn, key)].status == Succeeded && s.ops[(turn, key)].fact == Some(fact))
  {
    hide ReceiptFact;
  }

  lemma ReceiptFactShape(r: ApprovalReceipt, turn: string)
    ensures var fact := ReceiptFact(r, turn);
            && fact.status != NotStarted && (fact.verdict == Expired ==> fact.status == Failed)
            && (!r.written ==> fact.status != Succeeded && (fact.verdict == Undecided || fact.verdict == Expired))
            && (fact.verdict == Expired ==> !r.written && r.turn == Some(turn))
  {
  }

  lemma FactIsJustified(s: Machine, turn: string, key: string)
    requires ApprovalsOk(s)
    ensures var fact := FactFor(s, turn, key);
            && Backed(s.log, turn, key, fact.verdict) && fact.status != NotStarted
            && (fact.verdict == Expired ==> fact.status == Failed)
  {
    assert Backed(s.log, turn, key, Undecided);
    hide Writes, Lost, Backed, ReceiptTrue, ReceiptComplete;
    if key in s.mem.row.receipts {
      FactSources(s, turn, key);
      hide FactFor, ReceiptFact;
      assert ReceiptOk(s.mem, s.log, s.ops, key);
      ReceiptIsBacked(s.log, s.mem.asked[key], key, s.mem.row.receipts[key], turn);
      ReceiptFactShape(s.mem.row.receipts[key], turn);
      if (turn, key) in s.ops { assert OpOk(s.ops[(turn, key)], s.log, s.due, (turn, key)); }
    }
  }

  lemma StepKeepsApprovals(s: Machine, i: Input)
    requires ApprovalsOk(s)
    ensures ApprovalsOk(Step(s, i))
  {
    hide ViewTrue, OpsOk, Delivered, Submitted, Recorded, Proceeded, Restarted, Hear;
    if i.Restart? { RestartKeepsApprovals(s); return; }
    if i.Proceed? { ProceedKeepsApprovals(s, i.ok); return; }
    if i.Broken? || !s.due.Free? { return; }
    match i
    case Deliver(m) => DeliverKeepsApprovals(s, m);
    case Ack(turn) => AckKeepsApprovals(s, turn);
    case Submit(key, decision, permitted) => SubmitKeepsApprovals(s, key, decision, permitted);
    case Record(turn, key) => RecordKeepsApprovals(s, turn, key);
    case SavedAlong => FreeKeepsOps(s, Free);
    case Invalidate(key) => OvertakenKeepsApprovals(s, key);
    case _ => AsideKeepsApprovals(s, Step(s, i));
  }

  lemma {:induction false} RunKeepsApprovals(s: Machine, inputs: seq<Input>)
    requires ApprovalsOk(s)
    ensures ApprovalsOk(Run(s, inputs))
    decreases |inputs|
  {
    hide ApprovalsOk, Step;
    if inputs != [] {
      StepKeepsApprovals(s, inputs[0]);
      RunKeepsApprovals(Step(s, inputs[0]), inputs[1..]);
    }
  }

  lemma ReachableIsOk(inputs: seq<Input>)
    ensures ApprovalsOk(Run(Start, inputs))
  {
    RunKeepsApprovals(Start, inputs);
  }

  // ------------------------------------------------------------ main theorems

  /** Through every interleaving and crash a claim is made at most once, and is
      spent once: on one write, on a death before the write, or it is in hand.
      So an identity is answered on the wire at most once. */
  lemma ResponseWrittenAtMostOnce(inputs: seq<Input>, turn: string, key: string)
    ensures var s := Run(Start, inputs);
            var attempts := if (turn, key) in s.ops then s.ops[(turn, key)].attempts else 0;
            && Writes(s.log, turn, key) <= 1
            && Writes(s.log, turn, key) + Lost(s.log, turn, key) + (if InHand(s.due, (turn, key)) then 1 else 0) == attempts <= 1
  {
    ReachableIsOk(inputs);
    var s := Run(Start, inputs);
    if (turn, key) in s.ops { assert OpOk(s.ops[(turn, key)], s.log, s.due, (turn, key)); }
  }

  /** CONFIRMED and DECLINED, freshly derived or stored, are backed by what
      happened: in one turn the request was asked, a response written, the
      request closed, and its item ran to a result, or ended declined. */
  lemma ReportIsBacked(inputs: seq<Input>, turn: string, key: string)
    ensures var s := Run(Start, inputs);
            && Backed(s.log, turn, key, FactFor(s, turn, key).verdict)
            && ((turn, key) in s.ops && s.ops[(turn, key)].fact.Some?
                ==> Backed(s.log, turn, key, s.ops[(turn, key)].fact.value.verdict))
  {
    ReachableIsOk(inputs);
    var s := Run(Start, inputs);
    FactIsJustified(s, turn, key);
    if (turn, key) in s.ops { assert OpOk(s.ops[(turn, key)], s.log, s.due, (turn, key)); }
  }

  /** The request was last asked in this turn at `a`, and nothing was written
      since, as far as the row has taken the history in. */
  ghost predicate UnwrittenSince(s: Machine, a: nat, turn: string, key: string) {
    && a in s.mem.known && a < |s.log| && s.log[a].Asked? && s.log[a].turn == Some(turn) && s.log[a].key == key
    && forall j | j in s.mem.known && a < j < |s.log| :: !Asks(s.log[j], key) && !Rewrites(s.log[j], Some(turn), key)
  }

  lemma ExpiredComesFromReceipt(s: Machine, turn: string, key: string)
    requires ApprovalsOk(s) && FactFor(s, turn, key).verdict == Expired
    ensures key in s.mem.row.receipts && !s.mem.row.receipts[key].written && s.mem.row.receipts[key].turn == Some(turn)
  {
    hide Backed, Writes, Lost, ViewTrue;
    if (turn, key) in s.ops { assert OpOk(s.ops[(turn, key)], s.log, s.due, (turn, key)); }
  }

  /** EXPIRED is reported only for a request no response to which was written
      since it was last asked, in all that the row has taken in. */
  lemma ExpiredIsUnwritten(inputs: seq<Input>, turn: string, key: string)
    requires FactFor(Run(Start, inputs), turn, key).verdict == Expired
    ensures exists a :: UnwrittenSince(Run(Start, inputs), a, turn, key)
  {
    hide Run, Backed, FactFor, OpsOk;
    ReachableIsOk(inputs);
    var s := Run(Start, inputs);
    ExpiredComesFromReceipt(s, turn, key);
    assert ReceiptOk(s.mem, s.log, s.ops, key);
    assert UnwrittenSince(s, s.mem.asked[key], turn, key);
  }

  /** Exactly when EXPIRED means that no response of the identity was ever tried:
      its claim was never won, is still in hand, or the process that won it died
      before the write. */
  lemma ExpiredIsNeverWrittenIff(inputs: seq<Input>, turn: string, key: string)
    requires FactFor(Run(Start, inputs), turn, key).verdict == Expired
    ensures var s := Run(Start, inputs);
            Writes(s.log, turn, key) == 0 <==>
            || (turn, key) !in s.ops || s.ops[(turn, key)].attempts == 0
            || InHand(s.due, (turn, key)) || exists i | 0 <= i < |s.log| :: s.log[i] == ClaimLost(turn, key)
  {
    ReachableIsOk(inputs);
    var s := Run(Start, inputs);
    hide Run, FactFor, Backed, ViewTrue;
    if (turn, key) in s.ops { assert OpOk(s.ops[(turn, key)], s.log, s.due, (turn, key)); }
    LostIsLogged(s.log, turn, key);
  }

  lemma {:induction false} LostIsLogged(log: seq<Event>, turn: string, key: string)
    ensures Lost(log, turn, key) > 0 <==> exists i | 0 <= i < |log| :: log[i] == ClaimLost(turn, key)
    decreases |log|
  {
    if log != [] {
      var n := |log| - 1;
      LostIsLogged(log[..n], turn, key);
      if Lost(log[..n], turn, key) > 0 {
        var i :| 0 <= i < n && log[..n][i] == ClaimLost(turn, key);
        assert log[i] == ClaimLost(turn, key);
      }
      if i :| 0 <= i < |log| && log[i] == ClaimLost(turn, key) {
        if i < n { assert log[..n][i] == ClaimLost(turn, key); }
      }
    }
  }

  // ----------------------------------------------------- a stored success

  /** The row's receipt is the one whose response was submitted. */
  predicate Bound(row: Row, turn: string, key: string) {
    key in row.receipts && row.receipts[key].submitted && row.receipts[key].turn == Some(turn)
  }

  /** A stored success is what a query returns if and only if the row still has
      the receipt it was submitted under; otherwise the query never reports a
      success, only that nothing is known or that the request expired. */
  lemma RecordedFactIsReturnedIff(inputs: seq<Input>, turn: string, key: string)
    requires var s := Run(Start, inputs); (turn, key) in s.ops && s.ops[(turn, key)].status == Succeeded
    ensures var s := Run(Start, inputs);
            var fact := FactFor(s, turn, key);
            && s.ops[(turn, key)].fact.Some?
            && (fact == s.ops[(turn, key)].fact.value <==> Bound(s.mem.row, turn, key))
            && (!Bound(s.mem.row, turn, key) ==> fact.status != Succeeded && (fact.verdict == Undecided || fact.verdict == Expired))
  {
    ReachableIsOk(inputs);
    var s := Run(Start, inputs);
    hide Run, Backed, Writes, Lost, ReceiptFact, ReceiptTrue, ReceiptComplete;
    assert OpOk(s.ops[(turn, key)], s.log, s.due, (turn, key));
    if key in s.mem.row.receipts {
      assert ReceiptOk(s.mem, s.log, s.ops, key);
      ReceiptFactShape(s.mem.row.receipts[key], turn);
      if s.mem.row.receipts[key].turn != Some(turn) { OtherTurnIsOpen(s.mem.row.receipts[key], turn); }
    }
  }

  lemma OtherTurnIsOpen(r: ApprovalReceipt, turn: string)
    requires r.turn != Some(turn)
    ensures ReceiptFact(r, turn).status == Unknown && ReceiptFact(r, turn).verdict == Undecided
  {
  }

  predicate Reasks(i: Input, key: string) { i.Deliver? && i.m.Request? && i.m.key == key }

  lemma DeliverKeepsBinding(row: Row, m: Message, turn: string, key: string)
    requires Bound(row, turn, key) && Handle(row, m).Some? && !(m.Request? && m.key == key)
    ensures Bound(Handle(row, m).value, turn, key)
  {
    if m.Request? {
      RequestReplacesReceipt(row, m);
    } else {
      HandleNotices(row, m, key);
    }
  }

  lemma ProceedKeepsBinding(s: Machine, ok: bool, turn: string, key: string)
    requires Bound(s.mem.row, turn, key)
    ensures Bound(Proceeded(s, ok).mem.row, turn, key)
    ensures var kept := Proceeded(s, ok).disk; kept == s.disk || kept == s.mem
  {
    match s.due
    case ToClaim(_, _, _) =>
    case ToWrite(_, _, _) =>
    case _ =>
  }

  lemma BoundStep(s: Machine, i: Input, turn: string, key: string)
    requires Bound(s.mem.row, turn, key) && !Reasks(i, key)
    ensures Bound(s.disk.row, turn, key) ==> Bound(Step(s, i).disk.row, turn, key)
    ensures Bound(s.disk.row, turn, key) || !i.Restart? ==> Bound(Step(s, i).mem.row, turn, key)
  {
    hide FactFor, Handle, Proceeded;
    if i.Proceed? { ProceedKeepsBinding(s, i.ok, turn, key); }
    if i.Deliver? && Handle(s.mem.row, i.m).Some? { DeliverKeepsBinding(s.mem.row, i.m, turn, key); }
  }

  predicate Unasked(inputs: seq<Input>, key: string) { forall i | i in inputs :: !Reasks(i, key) }

  lemma {:induction false} SavedBindingStays(s: Machine, inputs: seq<Input>, turn: string, key: string)
    requires Bound(s.mem.row, turn, key) && Bound(s.disk.row, turn, key) && Unasked(inputs, key)
    ensures Bound(Run(s, inputs).mem.row, turn, key)
    decreases |inputs|
  {
    hide Step, Bound;
    if inputs != [] {
      BoundStep(s, inputs[0], turn, key);
      SavedBindingStays(Step(s, inputs[0]), inputs[1..], turn, key);
    }
  }

  lemma SuccessStep(s: Machine, i: Input, id: (string, string))
    requires ApprovalsOk(s) && id in s.ops && s.ops[id].status == Succeeded
    ensures id in Step(s, i).ops && Step(s, i).ops[id] == s.ops[id]
  {
    hide ViewTrue, Writes, Lost, Backed, FactFor, Handle;
    assert OpOk(s.ops[id], s.log, s.due, id);
  }

  lemma {:induction false} SuccessIsKept(s: Machine, inputs: seq<Input>, id: (string, string))
    requires ApprovalsOk(s) && id in s.ops && s.ops[id].status == Succeeded
    ensures id in Run(s, inputs).ops && Run(s, inputs).ops[id] == s.ops[id]
    decreases |inputs|
  {
    hide Step, ApprovalsOk;
    if inputs != [] {
      SuccessStep(s, inputs[0], id);
      StepKeepsApprovals(s, inputs[0]);
      SuccessIsKept(Step(s, inputs[0]), inputs[1..], id);
    }
  }

  /** A recorded success never changes, and every later query returns it,
      through crashes too, as long as the request is not asked again, if and
      only if the submitted receipt is in the row and saved. */
  lemma RecordedFactIsStableIff(s: Machine, turn: string, key: string)
    requires ApprovalsOk(s) && (turn, key) in s.ops && s.ops[(turn, key)].status == Succeeded
    ensures forall inputs :: (turn, key) in Run(s, inputs).ops && Run(s, inputs).ops[(turn, key)] == s.ops[(turn, key)]
    ensures (forall inputs | Unasked(inputs, key) :: Bound(Run(s, inputs).mem.row, turn, key))
            <==> Bound(s.mem.row, turn, key) && Bound(s.disk.row, turn, key)
  {
    hide ApprovalsOk, Step, Bound, Unasked;
    forall inputs ensures (turn, key) in Run(s, inputs).ops && Run(s, inputs).ops[(turn, key)] == s.ops[(turn, key)] {
      SuccessIsKept(s, inputs, (turn, key));
    }
    if Bound(s.mem.row, turn, key) && Bound(s.disk.row, turn, key) {
      forall inputs | Unasked(inputs, key) ensures Bound(Run(s, inputs).mem.row, turn, key) {
        SavedBindingStays(s, inputs, turn, key);
      }
    } else {
      NothingOrACrash(s, key);
    }
  }

  lemma NothingOrACrash(s: Machine, key: string)
    ensures Unasked([], key) && Run(s, []).mem == s.mem
    ensures Unasked([Restart], key) && Run(s, [Restart]).mem == s.disk
  {
    assert [Restart][1..] == [];
  }

  // ----------------------------------------------------------- failing inputs

  const Ask := Deliver(Message.Request(Some("t"), "1", None))

  lemma {:induction false} AskedRequest() returns (inputs: seq<Input>)
    ensures var s := Run(Start, inputs);
            && s.due.Free? && !s.closed && s.live == {"1"} && s.ops == map[] && s.disk == s.mem
            && s.mem.row == NewRow.(turn := Some("t"), state := WaitingInput, pending := map["1" := Some("t")],
                                    receipts := map["1" := NewReceipt(Some("t"), None)])
  {
    inputs := Then([], Deliver(TurnStarted(Some("t"))));
    inputs := Then(inputs, Proceed(true));
    inputs := Then(inputs, Ask);
    inputs := Then(inputs, Proceed(true));
  }

  /** A request of the running turn is asked and claimed for an accepting answer. */
  lemma {:induction false} ClaimedRequest() returns (inputs: seq<Input>)
    ensures var s := Run(Start, inputs);
            && s.due == ToWrite("1", "t", Accept) && !s.closed && s.disk.row.turn == Some("t")
            && "1" in s.disk.row.receipts && s.disk.row.receipts["1"] == NewReceipt(Some("t"), None)
            && "1" in s.mem.row.receipts && ("t", "1") in s.ops
            && s.mem.row.turn == Some("t")
  {
    inputs := AskedRequest();
    inputs := Then(inputs, Submit("1", Accept, true));
    inputs := Then(inputs, Proceed(true));
  }

  /** Closing a request whose receipt knows of no response makes it expired. */
  lemma CloseUnanswered(s: Machine)
    requires s.due.Free? && !s.closed && "1" in s.mem.row.receipts && s.mem.row.receipts["1"] == NewReceipt(Some("t"), None)
    ensures var v := Step(s, Deliver(Resolved("1")));
            && FactFor(v, "t", "1").verdict == Expired && Writes(v.log, "t", "1") == Writes(s.log, "t", "1")
            && v.ops == s.ops && v.disk == s.disk && v.mem.row == OnResolved(s.mem.row, "1")
  {
    CountsGrow(s.log, Closed("1"), "t", "1");
  }

  /** The claimed request is answered on the wire, and nothing more. */
  lemma WriteClaimed(s: Machine)
    requires s.due == ToWrite("1", "t", Accept) && "1" in s.mem.row.receipts
    ensures var v := Step(s, Proceed(true)); v == Written(s, true) && Writes(v.log, "t", "1") == Writes(s.log, "t", "1") + 1
  {
    CountsGrow(s.log, Wrote("t", "1", Accept), "t", "1");
  }

  predicate AboutToWrite(s: Machine) {
    && s.due == ToWrite("1", "t", Accept) && "1" in s.mem.row.receipts && !s.closed
    && "1" in s.disk.row.receipts && s.disk.row.receipts["1"] == NewReceipt(Some("t"), None)
  }

  /** The process dies in the write window, before or after the write, and the
      request is closed to the next one. */
  ghost predicate DiedInWindow(before: Machine, s: Machine, wrote: bool) {
    && s.mem.row == OnResolved(before.disk.row, "1") && s.disk.row == before.disk.row && s.ops == before.ops
    && FactFor(s, "t", "1").verdict == Expired
    && Writes(s.log, "t", "1") == Writes(before.log, "t", "1") + (if wrote then 1 else 0)
  }

  lemma WriteLeavesStore(s: Machine)
    requires s.due == ToWrite("1", "t", Accept)
    ensures Written(s, true).disk == s.disk && Written(s, true).ops == s.ops
  {
  }

  lemma CrashThenClose(s: Machine)
    requires "1" in s.disk.row.receipts && s.disk.row.receipts["1"] == NewReceipt(Some("t"), None)
    ensures DiedInWindow(s, Step(Restarted(s), Deliver(Resolved("1"))), false)
  {
    if s.due.ToWrite? { CountsGrow(s.log, ClaimLost(s.due.turn, s.due.key), "t", "1"); }
    hide FactFor, Writes, Step;
    CloseUnanswered(Restarted(s));
  }

  lemma {:induction false} DiesInWindow(claimed: seq<Input>, wrote: bool) returns (inputs: seq<Input>)
    requires AboutToWrite(Run(Start, claimed))
    ensures DiedInWindow(Run(Start, claimed), Run(Start, inputs), wrote)
  {
    inputs := claimed;
    WriteClaimed(Run(Start, claimed));
    WriteLeavesStore(Run(Start, claimed));
    hide FactFor, Writes, Step, Run, Written, Restarted, OnResolved;
    if wrote { inputs := Then(inputs, Proceed(true)); }
    CrashThenClose(Run(Start, inputs));
    inputs := Crash(inputs);
    inputs := Then(inputs, Deliver(Resolved("1")));
  }

  /** The response is written, the process dies before the save: the next one
      reports the request expired once it is closed. */
  lemma {:induction false} UnsavedWriteLooksUnanswered() returns (inputs: seq<Input>)
    ensures var s := Run(Start, inputs);
            FactFor(s, "t", "1").verdict == Expired && Writes(s.log, "t", "1") == 1
  {
    inputs := ClaimedRequest();
    hide FactFor, Writes, Step, Run;
    inputs := DiesInWindow(inputs, true);
    ResponseWrittenAtMostOnce(inputs, "t", "1");
  }

  /** The same identity asked twice: the second receipt forgets the response
      already written, and the request closing makes it look unanswered. */
  lemma {:induction false} ReaskedRequestLooksUnanswered() returns (inputs: seq<Input>)
    ensures var s := Run(Start, inputs);
            FactFor(s, "t", "1").verdict == Expired && Writes(s.log, "t", "1") == 1
  {
    inputs := ClaimedRequest();
    WriteClaimed(Run(Start, inputs));
    hide FactFor, Writes, Step, Run;
    inputs := Then(inputs, Proceed(true));
    AskAgain(Run(Start, inputs));
    inputs := Then(inputs, Proceed(true));
    inputs := Then(inputs, Ask);
    inputs := Then(inputs, Proceed(true));
    CloseUnanswered(Run(Start, inputs));
    inputs := Then(inputs, Deliver(Resolved("1")));
    ResponseWrittenAtMostOnce(inputs, "t", "1");
  }

  lemma AskAgain(s: Machine)
    requires s.due == ToConfirm("1", "t") && !s.closed && s.mem.row.turn == Some("t")
    ensures var v := Step(Step(Step(s, Proceed(true)), Ask), Proceed(true));
            && v.due.Free? && !v.closed && "1" in v.mem.row.receipts && v.mem.row.receipts["1"] == NewReceipt(Some("t"), None)
            && Writes(v.log, "t", "1") == Writes(s.log, "t", "1")
  {
    CountsGrow(s.log, Asked(Some("t"), "1", None), "t", "1");
  }

  /** No look at the rows and the stored operations tells the two apart: of two
      processes that died in the write window one wrote and one did not, and
      everything they left behind is the same. */
  lemma {:induction false} OnlyHistoryTells() returns (wrote: seq<Input>, silent: seq<Input>)
    ensures var s, v := Run(Start, wrote), Run(Start, silent);
            && s.mem.row == v.mem.row && s.disk.row == v.disk.row && s.ops == v.ops
            && FactFor(s, "t", "1").verdict == Expired && FactFor(v, "t", "1").verdict == Expired
            && Writes(s.log, "t", "1") == 1 && Writes(v.log, "t", "1") == 0
  {
    var claimed := ClaimedRequest();
    ResponseWrittenAtMostOnce(claimed, "t", "1");
    hide FactFor, Writes, Step, Run;
    wrote := DiesInWindow(claimed, true);
    silent := DiesInWindow(claimed, false);
    ResponseWrittenAtMostOnce(wrote, "t", "1");
  }

  lemma {:induction false} Crash(inputs: seq<Input>) returns (more: seq<Input>)
    ensures Run(Start, more) == Restarted(Run(Start, inputs))
  {
    more := Then(inputs, Restart);
  }
}
