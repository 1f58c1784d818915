/** How far a success counter can still grow, exactly: what the admission check
    would have to count, and what it counts instead. */
module DispatchBudgets {
  import opened OperationStore
  import opened DispatchProtocol
  import opened DispatchRuns

  // ------------------------------------------------- what can still be charged

  /** The row alone leaves room for a success: it is one, it is unresolved, or it
      has not started and nothing stops its owner. */
  predicate Open(db: Db, id: string)
    requires id in db.ops
  {
    var op := db.ops[id];
    op.status == Succeeded || Unresolved(op.status) || (op.status == NotStarted && !OwnerBlocked(db, op.owner))
  }

  /** The call this agent is in can still bring the operation to a success. */
  predicate CanStill(db: Db, id: string, pc: Pc, spawnLimit: nat)
    requires id in db.ops
  {
    Active(pc, id) &&
    match pc
    case Loaded(_, snapshot) => Unresolved(snapshot)
    case ClaimWon(_) => true
    case Armed(_, _) => true
    case Refused(_, attempts) => attempts < Limit(db.ops[id].kind, spawnLimit) && !OwnerBlocked(db, db.ops[id].owner)
    case Running(_) => true
    case Reconciling(_) => true
    case HasFact(_, fact) => fact != Failed
    case _ => false
  }

  /** Failed, or blocked before its start, and nobody is at work on it. */
  ghost predicate Gone(w: World, id: string, spawnLimit: nat) {
    && id in w.db.ops && w.db.ops[id].kind != Kill && !Open(w.db, id)
    && forall a :: !CanStill(w.db, id, At(w, a).pc, spawnLimit)
  }

  /** The operations that have charged `key` or still can. */
  ghost function Live(w: World, key: string, spawnLimit: nat): set<string> {
    set id | id in w.db.ops && key in w.db.ops[id].request.counters && !Gone(w, id, spawnLimit)
  }

  /** The same, read off the store alone. */
  function Outstanding(db: Db, key: string): set<string> {
    set id | id in db.ops && key in db.ops[id].request.counters && Open(db, id)
  }

  /** With nobody in a call the store says it all. */
  lemma OutstandingIsLive(w: World, key: string, spawnLimit: nat)
    requires Inv(w, spawnLimit) && forall a :: At(w, a).pc.Idle?
    ensures Live(w, key, spawnLimit) == Outstanding(w.db, key)
  {
    forall id | id in w.db.ops ensures OpOk(w, id, spawnLimit) {}
  }

  /** `act` commits a new intent that would charge `key`. */
  predicate Admits(w: World, act: Action, key: string) {
    act.Intend? && act.id !in w.db.ops && key in act.request.counters
  }

  // ------------------------------------------------------------ the upper bound

  lemma BlockedStays(db: Db, tx: Tx, owner: string)
    requires OwnerBlocked(db, owner)
    ensures OwnerBlocked(Commit(db, tx), owner)
  {
  }

  lemma GoneRowStays(w: World, act: Action, spawnLimit: nat, id: string)
    requires Gone(w, id, spawnLimit)
    ensures var db := Commit(w.db, TxOf(w, act, spawnLimit)); id in db.ops && !Open(db, id)
  {
    var tx := TxOf(w, act, spawnLimit);
    CommitRow(w.db, tx, id);
    if w.db.ops[id].status == NotStarted { BlockedStays(w.db, tx, w.db.ops[id].owner); }
    if tx.Note? && tx.id == id { GoneIsNoted(w, act, spawnLimit, id); } else { OtherTxKeepsRow(w, tx, id, spawnLimit); }
  }

  /** What an agent may still write there: a failure, or a blocked restart. */
  lemma GoneIsNoted(w: World, act: Action, spawnLimit: nat, id: string)
    requires Gone(w, id, spawnLimit)
    requires var tx := TxOf(w, act, spawnLimit); tx.Note? && tx.id == id
    ensures var status := TxOf(w, act, spawnLimit).status;
            status == Failed || (status == NotStarted && OwnerBlocked(w.db, w.db.ops[id].owner))
  {
    hide Open, OwnerBlocked;
    assert !CanStill(w.db, id, At(w, act.a).pc, spawnLimit);
  }

  lemma OtherTxKeepsRow(w: World, tx: Tx, id: string, spawnLimit: nat)
    requires id in w.db.ops && w.db.ops[id].kind != Kill && !Open(w.db, id) && !(tx.Note? && tx.id == id)
    ensures id in Commit(w.db, tx).ops && Commit(w.db, tx).ops[id] == w.db.ops[id]
  {
  }

  /** A call other than the acting one stays where it is. */
  lemma OnlyActorMoves(w: World, act: Action, spawnLimit: nat, a: nat)
    ensures act.Crash? || act.Stop? || act.Mark? || a != act.a ==>
              var pc := At(Apply(w, act, spawnLimit), a).pc; pc == At(w, a).pc || pc.Idle?
  {
    hide Observe, Ensure, Claim, Claimable;
  }

  lemma ActorStaysGone(w: World, act: Action, spawnLimit: nat, id: string)
    requires Gone(w, id, spawnLimit) && !act.Crash? && !act.Stop? && !act.Mark?
    ensures var pc := At(Apply(w, act, spawnLimit), act.a).pc; Active(pc, id) ==> StaysGone(w, pc, spawnLimit, id)
  {
    hide Observe;
    assert !CanStill(w.db, id, At(w, act.a).pc, spawnLimit);
    assert !Claimable(w.db, id, Limit(w.db.ops[id].kind, spawnLimit));
  }

  predicate StaysGone(w: World, pc: Pc, spawnLimit: nat, id: string)
    requires id in w.db.ops
  {
    match pc
    case Loaded(_, snapshot) => !Unresolved(snapshot)
    case Refused(_, attempts) => attempts >= Limit(w.db.ops[id].kind, spawnLimit) || OwnerBlocked(w.db, w.db.ops[id].owner)
    case HasFact(_, fact) => fact == Failed
    case _ => pc.Idle? || pc.Recorded? || pc.Returned?
  }

  lemma GoneStep(w: World, act: Action, spawnLimit: nat, id: string)
    requires Gone(w, id, spawnLimit)
    ensures Gone(Apply(w, act, spawnLimit), id, spawnLimit)
  {
    var v, tx := Apply(w, act, spawnLimit), TxOf(w, act, spawnLimit);
    ActionCommits(w, act, spawnLimit);
    CommitRow(w.db, tx, id);
    GoneRowStays(w, act, spawnLimit, id);
    forall a ensures !CanStill(v.db, id, At(v, a).pc, spawnLimit) {
      OnlyActorMoves(w, act, spawnLimit, a);
      if !act.Crash? && !act.Stop? && !act.Mark? && a == act.a { ActorStaysGone(w, act, spawnLimit, id); }
      assert !CanStill(w.db, id, At(w, a).pc, spawnLimit);
      hide Apply, TxOf, Commit;
      if OwnerBlocked(w.db, w.db.ops[id].owner) { BlockedStays(w.db, tx, w.db.ops[id].owner); }
    }
  }

  lemma LiveComesFrom(w: World, act: Action, spawnLimit: nat, key: string, id: string)
    requires id in Live(Apply(w, act, spawnLimit), key, spawnLimit)
    ensures id in Live(w, key, spawnLimit) || (Admits(w, act, key) && id == act.id)
  {
    hide Apply, Gone;
    ActionCommits(w, act, spawnLimit);
    if id in w.db.ops {
      CommitRow(w.db, TxOf(w, act, spawnLimit), id);
      if Gone(w, id, spawnLimit) { GoneStep(w, act, spawnLimit, id); }
    } else {
      NewRowIsIntended(w, act, spawnLimit, id);
    }
  }

  lemma NewRowIsIntended(w: World, act: Action, spawnLimit: nat, id: string)
    requires id !in w.db.ops && id in Commit(w.db, TxOf(w, act, spawnLimit)).ops
    ensures act.Intend? && act.id == id && Commit(w.db, TxOf(w, act, spawnLimit)).ops[id].request == act.request
  {
  }

  lemma {:induction false} SubsetBounds<T>(small: set<T>, big: set<T>)
    requires small <= big
    ensures |small| <= |big|
  {
    assert big == small + (big - small);
  }

  lemma LiveStep(w: World, act: Action, spawnLimit: nat, key: string, max: nat)
    requires |Live(w, key, spawnLimit)| <= max && (Admits(w, act, key) ==> |Live(w, key, spawnLimit)| < max)
    ensures |Live(Apply(w, act, spawnLimit), key, spawnLimit)| <= max
  {
    hide Apply, Gone;
    var was, now := Live(w, key, spawnLimit), Live(Apply(w, act, spawnLimit), key, spawnLimit);
    forall id | id in now ensures id in was || (Admits(w, act, key) && id == act.id) {
      LiveComesFrom(w, act, spawnLimit, key, id);
    }
    SubsetBounds(now, if Admits(w, act, key) then was + {act.id} else was);
  }

  /** At each admission fewer than `max` operations have charged the key or
      still can. */
  ghost predicate RoomLeft(w: World, acts: seq<Action>, key: string, max: nat, spawnLimit: nat)
    decreases |acts|
  {
    acts == [] ||
    ( && (Admits(w, acts[0], key) ==> |Live(w, key, spawnLimit)| < max)
      && RoomLeft(Apply(w, acts[0], spawnLimit), acts[1..], key, max, spawnLimit))
  }

  /** An admission that counts what is outstanding as well as what is charged
      bounds the counter, in any interleaving and through any crash. */
  lemma {:induction false} BudgetHoldsWithRoom(w: World, acts: seq<Action>, key: string, max: nat, spawnLimit: nat)
    requires Inv(w, spawnLimit) && spawnLimit >= 1 && |Live(w, key, spawnLimit)| <= max
    requires RoomLeft(w, acts, key, max, spawnLimit)
    ensures Counter(Run(w, acts, spawnLimit).db, key) <= max
    decreases |acts|
  {
    hide Apply, Inv, Live;
    if acts == [] {
      ChargedAreLive(w, spawnLimit, key);
      SubsetBounds(ChargedTo(w.db, key), Live(w, key, spawnLimit));
    } else {
      ApplyKeepsInv(w, acts[0], spawnLimit);
      LiveStep(w, acts[0], spawnLimit, key, max);
      BudgetHoldsWithRoom(Apply(w, acts[0], spawnLimit), acts[1..], key, max, spawnLimit);
    }
  }

  lemma ChargedAreLive(w: World, spawnLimit: nat, key: string)
    requires Inv(w, spawnLimit)
    ensures ChargedTo(w.db, key) <= Live(w, key, spawnLimit) && Counter(w.db, key) == |ChargedTo(w.db, key)|
  {
    forall id | id in w.db.ops ensures OpOk(w, id, spawnLimit) {}
  }

  /** Every earlier operation on `key` has been resolved. */
  ghost predicate AllResolved(w: World, key: string, spawnLimit: nat) {
    forall id | id in w.db.ops && key in w.db.ops[id].request.counters ::
      w.db.ops[id].status == Succeeded || Gone(w, id, spawnLimit)
  }

  /** The executor's own guard at each admission, plus one thing it does not
      check: that the previous corrective action has been resolved. */
  ghost predicate OneAtATime(w: World, acts: seq<Action>, key: string, max: nat, spawnLimit: nat)
    decreases |acts|
  {
    acts == [] ||
    ( && (Admits(w, acts[0], key) ==> Counter(w.db, key) < max && AllResolved(w, key, spawnLimit))
      && OneAtATime(Apply(w, acts[0], spawnLimit), acts[1..], key, max, spawnLimit))
  }

  lemma ResolvedAreCharged(w: World, spawnLimit: nat, key: string)
    requires Inv(w, spawnLimit) && AllResolved(w, key, spawnLimit)
    ensures Live(w, key, spawnLimit) == ChargedTo(w.db, key) && Counter(w.db, key) == |ChargedTo(w.db, key)|
  {
    forall id | id in w.db.ops ensures OpOk(w, id, spawnLimit) {}
  }

  lemma {:induction false} OneAtATimeLeavesRoom(w: World, acts: seq<Action>, key: string, max: nat, spawnLimit: nat)
    requires Inv(w, spawnLimit) && spawnLimit >= 1 && OneAtATime(w, acts, key, max, spawnLimit)
    ensures RoomLeft(w, acts, key, max, spawnLimit)
    decreases |acts|
  {
    hide Apply, Inv, Live, AllResolved;
    if acts != [] {
      if Admits(w, acts[0], key) { ResolvedAreCharged(w, spawnLimit, key); }
      ApplyKeepsInv(w, acts[0], spawnLimit);
      OneAtATimeLeavesRoom(Apply(w, acts[0], spawnLimit), acts[1..], key, max, spawnLimit);
    }
  }

  /** If every admission passes the counter check when the earlier corrective
      actions on the key are resolved, the counter never passes its maximum,
      in any interleaving and through any crash. */
  lemma BudgetHolds(w: World, acts: seq<Action>, key: string, max: nat, spawnLimit: nat)
    requires Inv(w, spawnLimit) && spawnLimit >= 1 && |Live(w, key, spawnLimit)| <= max
    requires OneAtATime(w, acts, key, max, spawnLimit)
    ensures Counter(Run(w, acts, spawnLimit).db, key) <= max
  {
    OneAtATimeLeavesRoom(w, acts, key, max, spawnLimit);
    BudgetHoldsWithRoom(w, acts, key, max, spawnLimit);
  }

  // ------------------------------------------------------- the bound is reached

  /** No action of the run admits an intent that would charge `key`. */
  ghost predicate Quiet(w: World, acts: seq<Action>, key: string, spawnLimit: nat)
    decreases |acts|
  {
    acts == [] || (!Admits(w, acts[0], key) && Quiet(Apply(w, acts[0], spawnLimit), acts[1..], key, spawnLimit))
  }

  ghost predicate Leads(w: World, v: World, key: string, spawnLimit: nat) {
    exists acts :: Quiet(w, acts, key, spawnLimit) && Run(w, acts, spawnLimit) == v
  }

  lemma {:induction false} QuietSnoc(w: World, acts: seq<Action>, act: Action, key: string, spawnLimit: nat)
    requires Quiet(w, acts, key, spawnLimit) && !Admits(Run(w, acts, spawnLimit), act, key)
    ensures Quiet(w, acts + [act], key, spawnLimit)
    decreases |acts|
  {
    hide Apply;
    if acts == [] {
      assert (acts + [act])[1..] == [];
    } else {
      QuietSnoc(Apply(w, acts[0], spawnLimit), acts[1..], act, key, spawnLimit);
      assert (acts + [act])[0] == acts[0] && (acts + [act])[1..] == acts[1..] + [act];
    }
  }

  lemma LeadsSelf(w: World, key: string, spawnLimit: nat)
    ensures Leads(w, w, key, spawnLimit)
  {
    assert Quiet(w, [], key, spawnLimit) && Run(w, [], spawnLimit) == w;
  }

  lemma LeadsOn(w: World, u: World, act: Action, key: string, spawnLimit: nat)
    requires Leads(w, u, key, spawnLimit) && !Admits(u, act, key)
    ensures Leads(w, Apply(u, act, spawnLimit), key, spawnLimit)
  {
    hide Apply, Admits;
    var acts :| Quiet(w, acts, key, spawnLimit) && Run(w, acts, spawnLimit) == u;
    QuietSnoc(w, acts, act, key, spawnLimit);
    RunSnoc(w, acts, act, spawnLimit);
  }

  /** Only row `id`, and calls about it or new ones, have changed. */
  ghost predicate Calm(w: World, v: World, id: string) {
    && id in w.db.ops && v.db.missions == w.db.missions && v.db.ops.Keys == w.db.ops.Keys
    && (forall other | other in w.db.ops && other != id :: v.db.ops[other] == w.db.ops[other])
    && v.db.ops[id].kind == w.db.ops[id].kind && v.db.ops[id].owner == w.db.ops[id].owner
    && v.db.ops[id].request == w.db.ops[id].request
    && forall a :: At(v, a).pc == At(w, a).pc || At(w, a).pc.Idle? || Active(At(w, a).pc, id)
  }

  lemma CalmKeepsLive(w: World, v: World, id: string, key: string, spawnLimit: nat)
    requires Calm(w, v, id) && Open(v.db, id)
    ensures Live(w, key, spawnLimit) <= Live(v, key, spawnLimit)
  {
    forall x | x in Live(w, key, spawnLimit) ensures x in Live(v, key, spawnLimit) {
      if x != id && w.db.ops[x].kind != Kill && !Open(w.db, x) {
        var a :| CanStill(w.db, x, At(w, a).pc, spawnLimit);
        assert CanStill(v.db, x, At(v, a).pc, spawnLimit);
      }
    }
  }

  /** A quiet run from `w` to `v` that is only about `id`. */
  ghost predicate To(w: World, v: World, id: string, key: string, spawnLimit: nat) {
    Leads(w, v, key, spawnLimit) && Inv(v, spawnLimit) && Calm(w, v, id)
  }

  lemma ToSelf(w: World, id: string, key: string, spawnLimit: nat)
    requires Inv(w, spawnLimit) && id in w.db.ops
    ensures To(w, w, id, key, spawnLimit)
  {
    LeadsSelf(w, key, spawnLimit);
  }

  lemma CalmThen(w: World, u: World, v: World, id: string)
    requires Calm(w, u, id) && Calm(u, v, id)
    ensures Calm(w, v, id)
  {
    forall a ensures At(v, a).pc == At(w, a).pc || At(w, a).pc.Idle? || Active(At(w, a).pc, id) {
      assert At(u, a).pc == At(w, a).pc || At(w, a).pc.Idle? || Active(At(w, a).pc, id);
    }
  }

  lemma ToOn(w: World, u: World, act: Action, id: string, key: string, spawnLimit: nat)
    requires To(w, u, id, key, spawnLimit) && spawnLimit >= 1 && !Admits(u, act, key) && Calm(u, Apply(u, act, spawnLimit), id)
    ensures To(w, Apply(u, act, spawnLimit), id, key, spawnLimit)
  {
    hide Apply, Leads, Inv, Calm, Admits;
    LeadsOn(w, u, act, key, spawnLimit);
    ApplyKeepsInv(u, act, spawnLimit);
    CalmThen(w, u, Apply(u, act, spawnLimit), id);
  }

  // One action of agent `a`, about `id`

  lemma {:induction false} IntendAgain(u: World, a: nat, id: string, spawnLimit: nat) returns (act: Action)
    requires Inv(u, spawnLimit) && id in u.db.ops && At(u, a).pc.Idle?
    ensures var v := Apply(u, act, spawnLimit);
            && v.db == u.db && At(v, a).pc == Loaded(id, u.db.ops[id].status) && Calm(u, v, id) && forall key :: !Admits(u, act, key)
  {
    var op := u.db.ops[id];
    assert OpOk(u, id, spawnLimit);
    act := Intend(a, id, op.kind, op.owner, op.target, op.request);
  }

  lemma ProceedToRead(u: World, a: nat, id: string, spawnLimit: nat)
    requires id in u.db.ops && At(u, a).pc.Loaded? && At(u, a).pc.id == id && Unresolved(At(u, a).pc.snapshot)
    ensures var v := Apply(u, Proceed(a, false), spawnLimit);
            v.db == u.db && At(v, a).pc == Reconciling(id) && Calm(u, v, id)
  {
  }

  lemma ProceedToClaim(u: World, a: nat, id: string, spawnLimit: nat)
    requires id in u.db.ops && At(u, a).pc == Loaded(id, NotStarted)
    requires u.db.ops[id].kind != Kill && Claimable(u.db, id, Limit(u.db.ops[id].kind, spawnLimit))
    ensures var v := Apply(u, Proceed(a, false), spawnLimit);
            v.db.ops[id].status == InFlight && Calm(u, v, id)
  {
  }

  lemma ReadSuccess(u: World, a: nat, id: string, spawnLimit: nat)
    requires id in u.db.ops && At(u, a).pc == Reconciling(id)
    ensures var v := Apply(u, Read(a, Succeeded), spawnLimit);
            v.db == u.db && At(v, a).pc == HasFact(id, Succeeded) && Calm(u, v, id)
  {
  }

  lemma RecordIt(u: World, a: nat, id: string, spawnLimit: nat)
    requires id in u.db.ops && At(u, a).pc.HasFact? && At(u, a).pc.id == id && !Settled(u.db.ops[id])
    ensures var v := Apply(u, RecordFact(a, None), spawnLimit);
            Calm(u, v, id) && v.db.ops[id].status == At(u, a).pc.fact
  {
    var fact := At(u, a).pc.fact;
    ObserveFrame(u.db, id, fact, "reconciled", None, u.db.ops[id].request.counters);
  }

  lemma ReloadIt(u: World, a: nat, id: string, spawnLimit: nat)
    requires id in u.db.ops && At(u, a).pc == ClaimWon(id)
    ensures var v := Apply(u, Reload(a), spawnLimit);
            v.db == u.db && At(v, a).pc == Armed(id, u.db.ops[id].attempts) && Calm(u, v, id)
  {
  }

  lemma CreateIt(u: World, a: nat, id: string, spawnLimit: nat)
    requires id in u.db.ops && At(u, a).pc.Armed? && At(u, a).pc.id == id
    ensures var v := Apply(u, Create(a, true), spawnLimit);
            v.db == u.db && At(v, a).pc == Running(id) && Calm(u, v, id)
  {
  }

  lemma AcceptIt(u: World, a: nat, id: string, spawnLimit: nat)
    requires id in u.db.ops && At(u, a).pc == Running(id) && !Settled(u.db.ops[id])
    requires u.db.ops[id].kind == Spawn || u.db.ops[id].kind == Send
    ensures var v := Apply(u, Answer(a, Accepted(EmptyPayload)), spawnLimit);
            Calm(u, v, id) && v.db.ops[id].status == Succeeded
  {
    ObserveFrame(u.db, id, Succeeded, "acknowledged", Some(EmptyPayload), u.db.ops[id].request.counters);
  }

  lemma RefuseIt(u: World, a: nat, id: string, spawnLimit: nat)
    requires id in u.db.ops && At(u, a).pc.Refused? && At(u, a).pc.id == id && !Settled(u.db.ops[id])
    requires At(u, a).pc.attempts < Limit(u.db.ops[id].kind, spawnLimit)
    ensures var v := Apply(u, ReportRefusal(a), spawnLimit);
            Calm(u, v, id) && v.db.ops[id].status == NotStarted
  {
    ObserveFrame(u.db, id, NotStarted, "process could not be created", None, {});
  }

  // An agent at work on a row brings it on

  lemma {:induction false} DriveReader(w: World, u: World, a: nat, id: string, key: string, spawnLimit: nat) returns (v: World)
    requires To(w, u, id, key, spawnLimit) && spawnLimit >= 1 && id in u.db.ops && !Settled(u.db.ops[id])
    requires At(u, a).pc == Reconciling(id)
    ensures To(w, v, id, key, spawnLimit) && v.db.ops[id].status == Succeeded
  {
    hide Apply, Leads, Inv;
    ReadSuccess(u, a, id, spawnLimit);
    ToOn(w, u, Read(a, Succeeded), id, key, spawnLimit);
    var x := Apply(u, Read(a, Succeeded), spawnLimit);
    RecordIt(x, a, id, spawnLimit);
    ToOn(w, x, RecordFact(a, None), id, key, spawnLimit);
    v := Apply(x, RecordFact(a, None), spawnLimit);
  }

  lemma {:induction false} DriveRunner(w: World, u: World, a: nat, id: string, key: string, spawnLimit: nat) returns (v: World)
    requires To(w, u, id, key, spawnLimit) && spawnLimit >= 1 && id in u.db.ops && !Settled(u.db.ops[id])
    requires (u.db.ops[id].kind == Spawn || u.db.ops[id].kind == Send) && At(u, a).pc.Armed? && At(u, a).pc.id == id
    ensures To(w, v, id, key, spawnLimit) && v.db.ops[id].status == Succeeded
  {
    hide Apply, Leads, Inv;
    CreateIt(u, a, id, spawnLimit);
    ToOn(w, u, Create(a, true), id, key, spawnLimit);
    var x := Apply(u, Create(a, true), spawnLimit);
    AcceptIt(x, a, id, spawnLimit);
    ToOn(w, x, Answer(a, Accepted(EmptyPayload)), id, key, spawnLimit);
    v := Apply(x, Answer(a, Accepted(EmptyPayload)), spawnLimit);
  }

  lemma {:induction false} DriveAgent(w: World, a: nat, id: string, key: string, spawnLimit: nat) returns (v: World)
    requires Inv(w, spawnLimit) && spawnLimit >= 1 && id in w.db.ops && !Open(w.db, id)
    requires (w.db.ops[id].kind == Spawn || w.db.ops[id].kind == Send) && CanStill(w.db, id, At(w, a).pc, spawnLimit)
    ensures To(w, v, id, key, spawnLimit) && Open(v.db, id)
  {
    assert AgentOk(w, w.agents[a]);
    ToSelf(w, id, key, spawnLimit);
    hide Apply, Leads, Inv;
    match At(w, a).pc
    case Loaded(_, _) =>
      ProceedToRead(w, a, id, spawnLimit);
      ToOn(w, w, Proceed(a, false), id, key, spawnLimit);
      v := DriveReader(w, Apply(w, Proceed(a, false), spawnLimit), a, id, key, spawnLimit);
    case Reconciling(_) =>
      v := DriveReader(w, w, a, id, key, spawnLimit);
    case HasFact(_, _) =>
      RecordIt(w, a, id, spawnLimit);
      ToOn(w, w, RecordFact(a, None), id, key, spawnLimit);
      v := Apply(w, RecordFact(a, None), spawnLimit);
    case ClaimWon(_) =>
      ReloadIt(w, a, id, spawnLimit);
      ToOn(w, w, Reload(a), id, key, spawnLimit);
      v := DriveRunner(w, Apply(w, Reload(a), spawnLimit), a, id, key, spawnLimit);
    case Armed(_, _) =>
      v := DriveRunner(w, w, a, id, key, spawnLimit);
    case Running(_) =>
      AcceptIt(w, a, id, spawnLimit);
      ToOn(w, w, Answer(a, Accepted(EmptyPayload)), id, key, spawnLimit);
      v := Apply(w, Answer(a, Accepted(EmptyPayload)), spawnLimit);
    case Refused(_, _) =>
      RefuseIt(w, a, id, spawnLimit);
      ToOn(w, w, ReportRefusal(a), id, key, spawnLimit);
      v := Apply(w, ReportRefusal(a), spawnLimit);
  }

  lemma {:induction false} AboveAll(s: set<nat>) returns (n: nat)
    ensures forall x | x in s :: x < n
  {
    if s == {} { return 0; }
    var x :| x in s;
    n := AboveAll(s - {x});
    if n <= x { n := x + 1; }
    forall y | y in s ensures y < n { assert y == x || y in s - {x}; }
  }

  /** A new process takes an unresolved row up, and reads a success. */
  lemma {:induction false} Resolve(w: World, u: World, id: string, key: string, spawnLimit: nat) returns (v: World)
    requires To(w, u, id, key, spawnLimit) && spawnLimit >= 1 && id in u.db.ops && Unresolved(u.db.ops[id].status)
    ensures To(w, v, id, key, spawnLimit) && v.db.ops[id].status == Succeeded
  {
    var a := AboveAll(u.agents.Keys);
    var act := IntendAgain(u, a, id, spawnLimit);
    hide Apply, Leads, Inv;
    ToOn(w, u, act, id, key, spawnLimit);
    var x := Apply(u, act, spawnLimit);
    ProceedToRead(x, a, id, spawnLimit);
    ToOn(w, x, Proceed(a, false), id, key, spawnLimit);
    v := DriveReader(w, Apply(x, Proceed(a, false), spawnLimit), a, id, key, spawnLimit);
  }

  /** A new process claims a row that has not started, and so it is resolved. */
  lemma {:induction false} Start(w: World, id: string, key: string, spawnLimit: nat) returns (v: World)
    requires Inv(w, spawnLimit) && spawnLimit >= 1 && id in w.db.ops && w.db.ops[id].kind != Kill
    requires w.db.ops[id].status == NotStarted && !OwnerBlocked(w.db, w.db.ops[id].owner)
    requires forall other | other in w.db.ops :: !Unresolved(w.db.ops[other].status)
    ensures To(w, v, id, key, spawnLimit) && v.db.ops[id].status == Succeeded
  {
    assert OpOk(w, id, spawnLimit);
    ToSelf(w, id, key, spawnLimit);
    var a := AboveAll(w.agents.Keys);
    var act := IntendAgain(w, a, id, spawnLimit);
    hide Apply, Leads, Inv;
    ToOn(w, w, act, id, key, spawnLimit);
    var x := Apply(w, act, spawnLimit);
    ProceedToClaim(x, a, id, spawnLimit);
    ToOn(w, x, Proceed(a, false), id, key, spawnLimit);
    v := Resolve(w, Apply(x, Proceed(a, false), spawnLimit), id, key, spawnLimit);
  }

  // All of them

  function Unsettled(db: Db): set<string> { set id | id in db.ops && db.ops[id].status != Succeeded }

  function Shut(db: Db): set<string> { set id | id in db.ops && !Open(db, id) }

  /** What is left to do before everything live has succeeded. */
  function Left(db: Db): nat { |Unsettled(db)| + |Shut(db)| }

  lemma LessIsLeft(w: World, v: World, id: string)
    requires Calm(w, v, id) && w.db.ops[id].status != Succeeded && Open(v.db, id)
    requires v.db.ops[id].status == Succeeded || !Open(w.db, id)
    ensures Left(v.db) < Left(w.db)
  {
    SubsetBounds(Unsettled(v.db), Unsettled(w.db));
    SubsetBounds(Shut(v.db), Shut(w.db));
    if v.db.ops[id].status == Succeeded {
      SubsetBounds(Unsettled(v.db), Unsettled(w.db) - {id});
    } else {
      SubsetBounds(Shut(v.db), Shut(w.db) - {id});
    }
  }

  /** As long as something live has not succeeded, a quiet run brings it closer. */
  lemma {:induction false} Bring(w: World, id: string, key: string, spawnLimit: nat) returns (v: World)
    requires Inv(w, spawnLimit) && spawnLimit >= 1 && id in Live(w, key, spawnLimit) && w.db.ops[id].status != Succeeded
    ensures Leads(w, v, key, spawnLimit) && Inv(v, spawnLimit)
    ensures Live(w, key, spawnLimit) <= Live(v, key, spawnLimit) && Left(v.db) < Left(w.db)
  {
    assert OpOk(w, id, spawnLimit);
    var x := id;
    if other :| other in w.db.ops && Unresolved(w.db.ops[other].status) {
      x := other;
      ToSelf(w, x, key, spawnLimit);
      v := Resolve(w, w, x, key, spawnLimit);
    } else if Open(w.db, id) {
      v := Start(w, id, key, spawnLimit);
    } else {
      var a :| CanStill(w.db, id, At(w, a).pc, spawnLimit);
      v := DriveAgent(w, a, id, key, spawnLimit);
    }
    hide Inv, Leads;
    LessIsLeft(w, v, x);
    CalmKeepsLive(w, v, x, key, spawnLimit);
  }

  lemma {:induction false} LeadsThen(w: World, u: World, v: World, key: string, spawnLimit: nat)
    requires Leads(w, u, key, spawnLimit) && Leads(u, v, key, spawnLimit)
    ensures Leads(w, v, key, spawnLimit)
  {
    var acts :| Quiet(u, acts, key, spawnLimit) && Run(u, acts, spawnLimit) == v;
    LeadsAlong(w, u, acts, key, spawnLimit);
  }

  lemma {:induction false} LeadsAlong(w: World, u: World, acts: seq<Action>, key: string, spawnLimit: nat)
    requires Leads(w, u, key, spawnLimit) && Quiet(u, acts, key, spawnLimit)
    ensures Leads(w, Run(u, acts, spawnLimit), key, spawnLimit)
    decreases |acts|
  {
    hide Apply, Leads;
    if acts != [] {
      LeadsOn(w, u, acts[0], key, spawnLimit);
      LeadsAlong(w, Apply(u, acts[0], spawnLimit), acts[1..], key, spawnLimit);
    }
  }

  /** A quiet run after which everything live has been charged. */
  lemma {:induction false} BringAll(w: World, key: string, spawnLimit: nat) returns (v: World)
    requires Inv(w, spawnLimit) && spawnLimit >= 1
    ensures Leads(w, v, key, spawnLimit) && Counter(v.db, key) >= |Live(w, key, spawnLimit)|
    decreases Left(w.db)
  {
    if id :| id in Live(w, key, spawnLimit) && w.db.ops[id].status != Succeeded {
      var u := Bring(w, id, key, spawnLimit);
      v := BringAll(u, key, spawnLimit);
      LeadsThen(w, u, v, key, spawnLimit);
      SubsetBounds(Live(w, key, spawnLimit), Live(u, key, spawnLimit));
    } else {
      v := w;
      LeadsSelf(w, key, spawnLimit);
      SucceededAreCharged(w, key, spawnLimit);
    }
  }

  lemma SucceededAreCharged(w: World, key: string, spawnLimit: nat)
    requires Inv(w, spawnLimit) && forall id | id in Live(w, key, spawnLimit) :: w.db.ops[id].status == Succeeded
    ensures Counter(w.db, key) >= |Live(w, key, spawnLimit)|
  {
    forall id | id in w.db.ops ensures OpOk(w, id, spawnLimit) {}
    SubsetBounds(Live(w, key, spawnLimit), ChargedTo(w.db, key));
  }

  lemma {:induction false} QuietLeavesRoom(w: World, acts: seq<Action>, key: string, max: nat, spawnLimit: nat)
    requires Quiet(w, acts, key, spawnLimit)
    ensures RoomLeft(w, acts, key, max, spawnLimit)
    decreases |acts|
  {
    hide Apply, Live;
    if acts != [] { QuietLeavesRoom(Apply(w, acts[0], spawnLimit), acts[1..], key, max, spawnLimit); }
  }

  // ------------------------------------------------------------ main theorems

  /** Whatever comes without a further admission, a counter stays within its
      maximum. */
  ghost predicate Safe(w: World, key: string, max: nat, spawnLimit: nat) {
    forall acts | Quiet(w, acts, key, spawnLimit) :: Counter(Run(w, acts, spawnLimit).db, key) <= max
  }

  /** Exactly when a budget is safe: when the operations that have charged it or
      still can are no more than its maximum. */
  lemma BudgetIsSafeIff(w: World, key: string, max: nat, spawnLimit: nat)
    requires Inv(w, spawnLimit) && spawnLimit >= 1
    ensures Safe(w, key, max, spawnLimit) <==> |Live(w, key, spawnLimit)| <= max
  {
    hide Inv, Live, Apply;
    if |Live(w, key, spawnLimit)| <= max {
      forall acts | Quiet(w, acts, key, spawnLimit) ensures Counter(Run(w, acts, spawnLimit).db, key) <= max {
        QuietLeavesRoom(w, acts, key, max, spawnLimit);
        BudgetHoldsWithRoom(w, acts, key, max, spawnLimit);
      }
    } else {
      var v := BringAll(w, key, spawnLimit);
      var acts :| Quiet(w, acts, key, spawnLimit) && Run(w, acts, spawnLimit) == v;
    }
  }

  /** With nobody in a call, as after a crash, that is a look at the store: rows
      naming the key that succeeded, are unresolved, or have not started and
      whose owner is not stopped. */
  lemma BudgetIsSafeInStoreIff(w: World, key: string, max: nat, spawnLimit: nat)
    requires Inv(w, spawnLimit) && spawnLimit >= 1 && forall a :: At(w, a).pc.Idle?
    ensures Safe(w, key, max, spawnLimit) <==> |Outstanding(w.db, key)| <= max
  {
    OutstandingIsLive(w, key, spawnLimit);
    BudgetIsSafeIff(w, key, max, spawnLimit);
  }

  lemma AdmissionAdds(w: World, act: Action, key: string, spawnLimit: nat)
    requires Admits(w, act, key) && At(w, act.a).pc.Idle? && !Uncounted(act.kind)
    requires forall a :: !Active(At(w, a).pc, act.id)
    ensures Live(Apply(w, act, spawnLimit), key, spawnLimit)
            == Live(w, key, spawnLimit) + if OwnerBlocked(w.db, act.owner) then {} else {act.id}
  {
    var v := Apply(w, act, spawnLimit);
    assert v.db.ops == w.db.ops[act.id := NewOperation(act.kind, act.owner, act.target, act.request)] && v.db.missions == w.db.missions;
    assert forall a :: At(v, a).pc == if a == act.a then Loaded(act.id, NotStarted) else At(w, a).pc;
    hide Apply, OwnerBlocked;
    forall id | id in w.db.ops ensures Gone(v, id, spawnLimit) <==> Gone(w, id, spawnLimit) {
      assert forall a :: CanStill(w.db, id, At(w, a).pc, spawnLimit) <==> CanStill(v.db, id, At(v, a).pc, spawnLimit);
    }
  }

  /** What the admission check would have to look at: the budget is safe after an
      admission if and only if the operations that have charged it or still can
      leave room for one more, unless the new one's owner is stopped. */
  lemma AdmissionIsSafeIff(w: World, act: Action, key: string, max: nat, spawnLimit: nat)
    requires Inv(w, spawnLimit) && spawnLimit >= 1
    requires Admits(w, act, key) && At(w, act.a).pc.Idle? && !Uncounted(act.kind)
    ensures Safe(Apply(w, act, spawnLimit), key, max, spawnLimit)
            <==> |Live(w, key, spawnLimit)| + (if OwnerBlocked(w.db, act.owner) then 0 else 1) <= max
  {
    forall a ensures !Active(At(w, a).pc, act.id) {
      if a in w.agents { assert AgentOk(w, w.agents[a]); }
    }
    hide Apply, Live, Inv, Safe, AgentOk, OwnerBlocked;
    ApplyKeepsInv(w, act, spawnLimit);
    AdmissionAdds(w, act, key, spawnLimit);
    BudgetIsSafeIff(Apply(w, act, spawnLimit), key, max, spawnLimit);
    assert act.id !in Live(w, key, spawnLimit) by { OnlyRowsAreLive(w, key, spawnLimit); }
  }

  lemma OnlyRowsAreLive(w: World, key: string, spawnLimit: nat)
    ensures forall id | id in Live(w, key, spawnLimit) :: id in w.db.ops
  {
  }

  // --------------------------------------------------- the check as it is

  /** Only the check the executor makes when it admits an intent. */
  ghost predicate Guarded(w: World, acts: seq<Action>, key: string, max: nat, spawnLimit: nat)
    decreases |acts|
  {
    acts == [] ||
    ( && (Admits(w, acts[0], key) ==> Counter(w.db, key) < max)
      && Guarded(Apply(w, acts[0], spawnLimit), acts[1..], key, max, spawnLimit))
  }

  lemma {:induction false} GuardedSnoc(w: World, acts: seq<Action>, act: Action, key: string, max: nat, spawnLimit: nat)
    requires Guarded(w, acts, key, max, spawnLimit)
    requires var v := Run(w, acts, spawnLimit); Admits(v, act, key) ==> Counter(v.db, key) < max
    ensures Guarded(w, acts + [act], key, max, spawnLimit)
    decreases |acts|
  {
    if acts == [] {
      assert (acts + [act])[1..] == [];
    } else {
      GuardedSnoc(Apply(w, acts[0], spawnLimit), acts[1..], act, key, max, spawnLimit);
      assert (acts + [act])[0] == acts[0] && (acts + [act])[1..] == acts[1..] + [act];
    }
  }

  /** A run in which the counter check is made at every admission leads to `v`. */
  ghost predicate Reachable(v: World, key: string, max: nat, spawnLimit: nat) {
    exists acts :: Guarded(Init, acts, key, max, spawnLimit) && Run(Init, acts, spawnLimit) == v
  }

  lemma {:induction false} Reach(v: World, act: Action, key: string, max: nat, spawnLimit: nat) returns (u: World)
    requires Reachable(v, key, max, spawnLimit)
    requires Admits(v, act, key) ==> Counter(v.db, key) < max
    ensures u == Apply(v, act, spawnLimit) && Reachable(u, key, max, spawnLimit)
  {
    u := Apply(v, act, spawnLimit);
    var acts :| Guarded(Init, acts, key, max, spawnLimit) && Run(Init, acts, spawnLimit) == v;
    GuardedSnoc(Init, acts, act, key, max, spawnLimit);
    RunSnoc(Init, acts, act, spawnLimit);
  }

  lemma {:induction false} ReachClaim(v: World, a: nat, id: string, key: string, max: nat) returns (u: World)
    requires Reachable(v, key, max, 3) && At(v, a).pc == Loaded(id, NotStarted)
    requires id in v.db.ops && v.db.ops[id].kind == Send && Claimable(v.db, id, 3)
    ensures Reachable(u, key, max, 3) && At(u, a).pc == ClaimWon(id) && u.db == Claim(v.db, id, 3)
    ensures forall b | b != a :: At(u, b) == At(v, b)
  {
    u := Reach(v, Proceed(a, false), key, max, 3);
  }

  lemma {:induction false} ReachRunning(v: World, a: nat, id: string, key: string, max: nat) returns (u: World)
    requires Reachable(v, key, max, 3) && At(v, a).pc.Armed? && At(v, a).pc.id == id
    ensures Reachable(u, key, max, 3) && At(u, a).pc == Running(id) && u.db == v.db
    ensures forall b | b != a :: At(u, b) == At(v, b)
  {
    u := Reach(v, Create(a, true), key, max, 3);
  }

  lemma {:induction false} ReachReload(v: World, a: nat, id: string, key: string, max: nat) returns (u: World)
    requires Reachable(v, key, max, 3) && At(v, a).pc == ClaimWon(id) && id in v.db.ops
    ensures Reachable(u, key, max, 3) && At(u, a).pc == Armed(id, v.db.ops[id].attempts) && u.db == v.db
    ensures forall b | b != a :: At(u, b) == At(v, b)
  {
    u := Reach(v, Reload(a), key, max, 3);
  }

  lemma {:induction false} ReachAccepted(v: World, a: nat, id: string, key: string, max: nat) returns (u: World)
    requires Reachable(v, key, max, 3) && At(v, a).pc == Running(id)
    requires id in v.db.ops && v.db.ops[id].kind == Send
    ensures Reachable(u, key, max, 3)
    ensures u.db == Observe(v.db, id, Succeeded, "acknowledged", Some(EmptyPayload), v.db.ops[id].request.counters)
    ensures forall b | b != a :: At(u, b) == At(v, b)
  {
    u := Reach(v, Answer(a, Accepted(EmptyPayload)), key, max, 3);
  }

  lemma {:induction false} ReachIntent(v: World, a: nat, id: string, key: string, max: nat) returns (u: World)
    requires Reachable(v, key, max, 3) && At(v, a).pc == Idle && id !in v.db.ops && Counter(v.db, key) < max
    ensures Reachable(u, key, max, 3) && At(u, a).pc == Loaded(id, NotStarted)
    ensures u.db == v.db.(ops := v.db.ops[id := NewOperation(Send, "m", "s", Request({key}, "d", "", ""))])
    ensures forall b | b != a :: At(u, b) == At(v, b)
  {
    u := Reach(v, Intend(a, id, Send, "m", "s", Request({key}, "d", "", "")), key, max, 3);
  }

  predicate SendOf(op: Operation, status: Status) {
    op.kind == Send && op.owner == "m" && op.request.counters == {"k"} && !op.charged && op.status == status
  }

  /** A first fix is in flight when a second one is admitted: the counter both
      admissions looked at is still zero. */
  lemma {:induction false} BothAdmitted() returns (w: World)
    ensures Reachable(w, "k", 1, 3) && At(w, 0).pc == Running("x") && At(w, 1).pc == Loaded("y", NotStarted)
    ensures w.db.ops.Keys == {"x", "y"} && SendOf(w.db.ops["x"], InFlight) && SendOf(w.db.ops["y"], NotStarted)
    ensures w.db.ops["y"].attempts == 0 && Counter(w.db, "k") == 0 && w.db.missions == map[]
  {
    assert Reachable(Init, "k", 1, 3) by { assert Run(Init, [], 3) == Init && Guarded(Init, [], "k", 1, 3); }
    hide Run, Guarded, Apply, Reachable;
    w := ReachIntent(Init, 0, "x", "k", 1);
    w := ReachClaim(w, 0, "x", "k", 1);
    w := ReachReload(w, 0, "x", "k", 1);
    w := ReachRunning(w, 0, "x", "k", 1);
    w := ReachIntent(w, 1, "y", "k", 1);
  }

  lemma AcceptedCharges(db: Db, id: string)
    requires id in db.ops && SendOf(db.ops[id], InFlight)
    ensures var v := Observe(db, id, Succeeded, "acknowledged", Some(EmptyPayload), {"k"});
            Counter(v, "k") == Counter(db, "k") + 1 && v.ops[id].status == Succeeded
  {
  }

  /** The counter check alone does not bound the budget: a second fix admitted
      while the first is unresolved overshoots a maximum of one. */
  lemma CounterCheckIsNotEnough()
    ensures exists acts :: Guarded(Init, acts, "k", 1, 3) && Counter(Run(Init, acts, 3).db, "k") == 2
  {
    hide Run, Guarded, Apply, Observe, Counter;
    var w := BothAdmitted();
    AcceptedCharges(w.db, "x");
    ObserveFrame(w.db, "x", Succeeded, "acknowledged", Some(EmptyPayload), {"k"});
    w := ReachAccepted(w, 0, "x", "k", 1);
    w := ReachClaim(w, 1, "y", "k", 1);
    w := ReachReload(w, 1, "y", "k", 1);
    w := ReachRunning(w, 1, "y", "k", 1);
    assert Counter(w.db, "k") == 1 by { ClaimKeepsCounters(); }
    AcceptedCharges(w.db, "y");
    w := ReachAccepted(w, 1, "y", "k", 1);
  }

  lemma ClaimKeepsCounters()
    ensures forall db: Db, id: string, limit: nat | id in db.ops :: Counter(Claim(db, id, limit), "k") == Counter(db, "k")
  {
  }
}
