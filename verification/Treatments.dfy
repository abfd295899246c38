/**
 What one worker step does to a parked row, told by the fields of the row, its work item, its
 reference and its wallet alone (internal/wagering/work.go).
 */
module Treatments {
  import opened Wrappers
  import opened Failures
  import opened Money
  import opened Domain
  import opened Tables
  import opened Engine
  import opened Invariant
  import opened Settling
  import opened Steps
  import opened Decisions
  import opened History
  import opened Store
  import opened Service
  import S = Settlement
  import Int64

  /** Row `t` is the reference of row `op`. */
  predicate Refers(txs: seq<Tx>, op: Tx, t: nat) {
    && op.origin.External? && t < |txs| && txs[t].origin.External?
    && txs[t].origin.provider == op.origin.provider && txs[t].origin.id == op.refExternal
  }

  /** Row `id` waits on: one more reference attempt, no errors, no lease, a new time; nothing else changes. */
  predicate Postponed(db: Db, db': Db, id: nat, env: Env)
    requires id in db.work
  {
    var w := db.work[id];
    db' == db.(work := db.work[id := Work(w.refAttempts + 1, 0, env.now + env.jitter, w.createdAt, None)])
  }

  /** Row `id` is REJECTED with `code`, its balance and version; its work item goes; no money moves. */
  predicate GivenUp(db: Db, db': Db, id: nat, code: Code, ref: Option<nat>)
    requires id < |db.txs| && db.txs[id].wallet in db.wallets
  {
    var t, w := db.txs[id], db.wallets[db.txs[id].wallet];
    db' == db.(txs := db.txs[id := t.(state := Rejected, failure := Some(code),
                                      result := Some(Money(w.balance, w.currency)), observed := Some(w.version),
                                      refTx := ref)],
               outbox := db.outbox + [RejectedEvent(id, t.wallet, PartyOf(t), MoneyOf(t), code, w.balance, w.version)],
               work := db.work - {id})
  }

  /** Row `id` is PROCESSED against `ref`: the balance changes by `delta`; its work item goes. */
  predicate Settles(db: Db, db': Db, id: nat, delta: int, ref: nat)
    requires id < |db.txs| && db.txs[id].wallet in db.wallets
  {
    var t, w := db.txs[id], db.wallets[db.txs[id].wallet];
    var balance, version := w.balance + delta, w.version + 1;
    && |db'.txs| == |db.txs|
    && db'.txs[id] == t.(state := Processed, result := Some(Money(balance, w.currency)), observed := Some(version),
                         refTx := Some(ref), reversal := db'.txs[id].reversal)
    && db'.wallets == db.wallets[t.wallet := w.(balance := balance, version := version)]
    && db'.work == db.work - {id} && db'.inbox == db.inbox
  }

  /** An error: one more counted, the lease kept; at the tenth the row is FAILED, without event. */
  predicate ErrorCounted(db: Db, db': Db, id: nat, item: Work, env: Env)
    requires id < |db.txs| && id in db.work
  {
    if item.infraAttempts + 1 >= 10 then
      db' == db.(txs := db.txs[id := db.txs[id].(state := Failed, failure := Some(InfraExhausted))],
                 work := db.work - {id})
    else
      var w := db.work[id];
      db' == db.(work := db.work[id := Work(item.refAttempts, item.infraAttempts + 1, env.now + env.jitter, w.createdAt,
                                            w.lease)])
  }

  // ---------------------------------------------------------------- the facts a treatment starts from

  lemma ParkedFacts(db: Db, id: nat)
    requires Inv(db) && id < |db.txs| && db.txs[id].state == PendingReference
    ensures var t := db.txs[id];
            && RowOk(db.wallets, t) && Rehydrates(db.wallets[t.wallet]) && id in db.work
            && t.origin.External? && t.refTx.None? && t.failure.None? && t.reversal.None?
            && !HasEntry(db.ledger, t.wallet, id)
            && (t.kind == Win || t.kind == Refund || t.kind == Rollback)
  {
    hide Core;
    CoreRow(db, id);
    S.WalletRehydrates(db.wallets, db.txs[id].wallet);
    WaitingHasNoEntry(db.txs, db.ledger, id, db.txs[id].wallet);
  }

  lemma ReferenceFound(db: Db, id: nat, t: nat)
    requires Inv(db) && id < |db.txs| && Refers(db.txs, db.txs[id], t)
    ensures FindByProviderExternal(db.txs, Provider(db.txs[id]), db.txs[id].refExternal) == Some(t)
  {
    hide Core;
    KeysOf(db);
    var f := FindByProviderExternal(db.txs, Provider(db.txs[id]), db.txs[id].refExternal).value;
    assert HasExternal(db.txs[t], db.txs[f].origin.provider, db.txs[f].origin.id);
  }

  /** A work item without a row, or of a decided row, is dropped, and nothing else happens. */
  lemma NothingToTreat(db: Db, id: nat, item: Work, env: Env)
    requires || id >= |db.txs|
             || db.txs[id].state == Processed || db.txs[id].state == Rejected || db.txs[id].state == Failed
    ensures Worked(db, id, item, env) == db.(work := db.work - {id})
  {
  }

  // ---------------------------------------------------------------- missing and waiting references

  /** A parked row whose reference no row has is REJECTED with REFERENCE_NOT_FOUND if and only if its work item
      is older than 60 seconds or this is its fifth attempt; otherwise it waits on. */
  lemma MissingReference(db: Db, id: nat, item: Work, env: Env)
    requires Inv(db) && id < |db.txs| && db.txs[id].state == PendingReference
    requires forall t: nat :: !Refers(db.txs, db.txs[id], t)
    ensures id in db.work && db.txs[id].wallet in db.wallets
    ensures var db' := Worked(db, id, item, env);
            if env.now - db.work[id].createdAt > 60_000 || db.work[id].refAttempts + 1 >= 5
            then GivenUp(db, db', id, ReferenceNotFound, None)
            else Postponed(db, db', id, env)
  {
    hide Inv, JudgeAgainst, HasEntry, RowOk;
    ParkedFacts(db, id);
    WalletOf(db, id);
    FoundRefers(db.txs, db.txs[id]);
  }

  lemma FoundRefers(txs: seq<Tx>, op: Tx)
    requires op.origin.External?
    ensures var found := FindByProviderExternal(txs, Provider(op), op.refExternal);
            found.Some? ==> Refers(txs, op, found.value)
  {
  }

  lemma WalletOf(db: Db, id: nat)
    requires id < |db.txs| && RowOk(db.wallets, db.txs[id]) && Rehydrates(db.wallets[db.txs[id].wallet])
    ensures db.txs[id].wallet in db.wallets && ValidCurrency(db.txs[id].currency)
  {
  }

  /** A parked row whose reference waits itself waits on, however old it is and however often it was tried. */
  lemma WaitingReference(db: Db, id: nat, t: nat, item: Work, env: Env)
    requires Inv(db) && id < |db.txs| && db.txs[id].state == PendingReference
    requires Refers(db.txs, db.txs[id], t) && IsWaiting(db.txs[t].state)
    ensures id in db.work && Postponed(db, Worked(db, id, item, env), id, env)
  {
    hide Inv, JudgeAgainst, HasEntry, RowOk;
    ParkedFacts(db, id);
    WalletOf(db, id);
    ReferenceFound(db, id, t);
  }

  /** A parked row whose reference was REJECTED or FAILED is REJECTED with REFERENCE_NOT_PROCESSED. */
  lemma DeadReference(db: Db, id: nat, t: nat, item: Work, env: Env)
    requires Inv(db) && id < |db.txs| && db.txs[id].state == PendingReference
    requires Refers(db.txs, db.txs[id], t) && (db.txs[t].state == Rejected || db.txs[t].state == Failed)
    ensures db.txs[id].wallet in db.wallets
    ensures GivenUp(db, Worked(db, id, item, env), id, ReferenceNotProcessed, Some(t))
  {
    hide Inv, JudgeAgainst, HasEntry, RowOk;
    ParkedFacts(db, id);
    WalletOf(db, id);
    ReferenceFound(db, id, t);
  }

  // ---------------------------------------------------------------- processed references

  /** The treatment follows the verdict on the PROCESSED reference. */
  lemma TreatedByVerdict(db: Db, id: nat, t: nat, item: Work, env: Env)
    requires Inv(db) && id < |db.txs| && db.txs[id].state == PendingReference
    requires Refers(db.txs, db.txs[id], t) && db.txs[t].state == Processed
    ensures db.txs[id].wallet in db.wallets && id in db.work && t < |db.txs|
    ensures var db' := Worked(db, id, item, env);
            match JudgeAgainst(db, OperationOf(db.txs[id]), t)
            case Refuse(code, ref) => GivenUp(db, db', id, code, ref)
            case Move(dir, ref) =>
              ref.Some? ==>
                Settles(db, db', id, if dir == Credit then db.txs[id].amount else 0 - db.txs[id].amount, ref.value)
            case Halt(code) => code != UniqueViolation ==> ErrorCounted(db, db', id, item, env)
            case _ => true
  {
    hide Inv, JudgeAgainst, HasEntry, RowOk, Moved;
    ParkedFacts(db, id);
    WalletOf(db, id);
    ReferenceFound(db, id, t);
    JudgedRef(db, OperationOf(db.txs[id]), t);
    match JudgeAgainst(db, OperationOf(db.txs[id]), t) {
      case Move(dir, ref) => MoveSettles(db, id, dir, t);
      case _ =>
    }
  }

  lemma JudgedRef(db: Db, op: Operation, t: nat)
    requires op.wallet in db.wallets && t < |db.txs|
    ensures var v := JudgeAgainst(db, op, t); v.Move? || v.Refuse? ==> v.ref == Some(t)
  {
  }

  lemma MoveSettles(db: Db, id: nat, dir: Direction, t: nat)
    requires id < |db.txs| && t < |db.txs| && db.txs[id].wallet in db.wallets && db.txs[id].refTx.None?
    ensures Settles(db, Moved(db, id, db.txs[id], dir, Some(t)), id,
                    if dir == Credit then db.txs[id].amount else 0 - db.txs[id].amount, t)
  {
    MovedOutcome(db, id, dir, Some(t));
  }

  ghost predicate WinTreated(db: Db, db': Db, id: nat, t: nat, item: Work, env: Env)
    requires id < |db.txs| && t < |db.txs| && db.txs[id].wallet in db.wallets && id in db.work
    requires db.txs[id].origin.External? && db.txs[t].origin.External?
  {
    var op := db.txs[id];
    match WinRefusal(op, db.txs[t])
    case Some(code) => GivenUp(db, db', id, code, Some(t))
    case None =>
      if db.wallets[op.wallet].balance + op.amount <= Int64.MAX then Settles(db, db', id, op.amount, t)
      else ErrorCounted(db, db', id, item, env)
  }

  /** A parked WIN on a PROCESSED reference: refused with the first thing wrong, or credited, or an error. */
  lemma ParkedWin(db: Db, id: nat, t: nat, item: Work, env: Env)
    requires Inv(db) && id < |db.txs| && db.txs[id].state == PendingReference && db.txs[id].kind == Win
    requires Refers(db.txs, db.txs[id], t) && db.txs[t].state == Processed
    ensures db.txs[id].wallet in db.wallets && id in db.work
    ensures WinTreated(db, Worked(db, id, item, env), id, t, item, env)
  {
    hide Inv, JudgeAgainst, HasEntry, RowOk, Worked, GivenUp, Settles, ErrorCounted;
    ParkedFacts(db, id);
    TreatedByVerdict(db, id, t, item, env);
    WinVerdict(db, db.txs[id], t);
  }

  ghost predicate ReversalTreated(db: Db, db': Db, id: nat, t: nat, item: Work, env: Env)
    requires id < |db.txs| && t < |db.txs| && db.txs[id].wallet in db.wallets && id in db.work
    requires db.txs[id].origin.External? && db.txs[t].origin.External?
  {
    var op, balance := db.txs[id], db.wallets[db.txs[id].wallet].balance;
    match ReversalCode(op, db.txs, t)
    case Some(code) => GivenUp(db, db', id, code, Some(t))
    case None =>
      if db.txs[t].kind == Bet then
        (if balance + op.amount <= Int64.MAX then Settles(db, db', id, op.amount, t)
         else ErrorCounted(db, db', id, item, env))
      else if op.amount <= balance then Settles(db, db', id, 0 - op.amount, t)
      else GivenUp(db, db', id, RollbackInsufficientBalance, Some(t))
  }

  /** A parked REFUND or ROLLBACK of a PROCESSED row: refused with the first thing wrong; else a stake is
      credited back, and a prize or refund debited if the balance covers it. */
  lemma ParkedReversal(db: Db, id: nat, t: nat, item: Work, env: Env)
    requires Inv(db) && id < |db.txs| && db.txs[id].state == PendingReference
    requires db.txs[id].kind == Refund || db.txs[id].kind == Rollback
    requires Refers(db.txs, db.txs[id], t) && db.txs[t].state == Processed
    ensures db.txs[id].wallet in db.wallets && id in db.work
    ensures ReversalTreated(db, Worked(db, id, item, env), id, t, item, env)
  {
    hide Inv, JudgeAgainst, HasEntry, RowOk, Worked, GivenUp, Settles, ErrorCounted, ReversalCode;
    ParkedFacts(db, id);
    TreatedByVerdict(db, id, t, item, env);
    ReversalVerdict(db, db.txs[id], t);
  }

  // ---------------------------------------------------------------- re-evaluation

  /** The row is due a credit that would leave int64. */
  ghost predicate Overflowing(db: Db, id: nat) {
    && id < |db.txs| && db.txs[id].wallet in db.wallets && db.txs[id].origin.External?
    && db.wallets[db.txs[id].wallet].balance + db.txs[id].amount > Int64.MAX
    && exists t: nat :: t < |db.txs| && DueCredit(db.txs, db.txs[id], t)
  }

  /** `op` may be credited against the PROCESSED row `t`. */
  predicate DueCredit(txs: seq<Tx>, op: Tx, t: nat)
    requires t < |txs|
  {
    && Refers(txs, op, t) && txs[t].state == Processed
    && if op.kind == Win then WinRefusal(op, txs[t]).None?
       else txs[t].kind == Bet && ReversalCode(op, txs, t).None?
  }

  /** A re-evaluated dependent is treated as a worker would treat it, except that an error is not counted. */
  lemma NudgedAsWorked(db: Db, id: nat, item: Work, env: Env)
    requires Inv(db) && id < |db.txs| && db.txs[id].state == PendingReference
    ensures Nudged(db, id, env) == if Overflowing(db, id) then db else Worked(db, id, item, env)
  {
    hide Inv, Resumed, NotedInfra, Overflowing, WinRefusal, ReversalCode, RowOk, HasEntry;
    ResumedKeepsInv(db, id, env);
    StuckIffOverflowing(db, id, env);
  }

  lemma StuckIffOverflowing(db: Db, id: nat, env: Env)
    requires Inv(db) && id < |db.txs| && db.txs[id].state == PendingReference
    ensures Resumed(db, id, db.txs[id], env).Stuck? <==> Overflowing(db, id)
  {
    hide Inv, JudgeAgainst, HasEntry, RowOk, Moved, WinRefusal, ReversalCode;
    ParkedFacts(db, id);
    WalletOf(db, id);
    var op := db.txs[id];
    FoundRefers(db.txs, op);
    var found := FindByProviderExternal(db.txs, Provider(op), op.refExternal);
    forall t: nat | t < |db.txs| && Refers(db.txs, op, t)
      ensures found == Some(t)
    {
      ReferenceFound(db, id, t);
    }
    if found.Some? && db.txs[found.value].state == Processed {
      if op.kind == Win {
        WinVerdict(db, op, found.value);
      } else {
        ReversalVerdict(db, op, found.value);
      }
      assert DueCredit(db.txs, op, found.value) || !DueCredit(db.txs, op, found.value);
    }
  }

  /** A row that is not parked is passed over. */
  lemma NudgedElse(db: Db, id: nat, env: Env)
    requires id >= |db.txs| || db.txs[id].state != PendingReference
    ensures Nudged(db, id, env) == db
  {
    hide Resumed;
  }

  /** Dependents are treated one after the other, each on the database its predecessors left. */
  lemma {:induction false} ReevaluatedInTurn(db: Db, ids: seq<nat>, id: nat, env: Env)
    ensures Reevaluated(db, [], env) == db
    ensures Reevaluated(db, ids + [id], env) == Nudged(Reevaluated(db, ids, env), id, env)
    decreases |ids|
  {
    hide Nudged;
    if ids == [] {
      assert ([] + [id])[1..] == [];
    } else {
      assert (ids + [id])[1..] == ids[1..] + [id];
      ReevaluatedInTurn(Nudged(db, ids[0], env), ids[1..], id, env);
    }
  }

  /** Until its turn a dependent stays as it was. */
  lemma {:induction false} WaitsItsTurn(db: Db, ids: seq<nat>, id: nat, env: Env)
    requires Inv(db) && id !in ids && id < |db.txs| && db.txs[id].state == PendingReference
    ensures var mid := Reevaluated(db, ids, env);
            Inv(mid) && |mid.txs| == |db.txs| && mid.txs[id] == db.txs[id]
    decreases |ids|
  {
    hide Inv, Nudged;
    if ids != [] {
      var next := Nudged(db, ids[0], env);
      NudgedKeepsInv(db, ids[0], env);
      NudgedLength(db, ids[0], env);
      if ids[0] < |db.txs| {
        NudgeSpares(db.txs, db, ids[0], id, env);
      } else {
        NudgedElse(db, ids[0], env);
      }
      WaitsItsTurn(next, ids[1..], id, env);
    }
  }

  lemma NudgedLength(db: Db, id: nat, env: Env)
    requires Inv(db)
    ensures |Nudged(db, id, env).txs| == |db.txs|
  {
    hide Inv, Resumed;
    if id < |db.txs| && db.txs[id].state == PendingReference {
      S.ResumedElsewhere(db, id, env);
    }
  }

  /** A re-evaluation decides every parked dependent whose reference is decided, except one that is due a
      credit beyond int64 when its turn comes. */
  lemma ReevaluationDecides(db: Db, ids: seq<nat>, k: nat, t: nat, env: Env)
    requires Inv(db) && k < |ids| && (forall a, b :: 0 <= a < b < |ids| ==> ids[a] != ids[b])
    requires ids[k] < |db.txs| && db.txs[ids[k]].state == PendingReference
    requires Refers(db.txs, db.txs[ids[k]], t) && IsTerminal(db.txs[t].state)
    ensures var turn, db' := Reevaluated(db, ids[..k], env), Reevaluated(db, ids, env);
            && |db'.txs| >= |db.txs|
            && (!Overflowing(turn, ids[k]) ==> IsTerminal(db'.txs[ids[k]].state))
  {
    hide Inv, Nudged, Overflowing, Evolves, Resumed, Worked;
    var id, turn := ids[k], Reevaluated(db, ids[..k], env);
    WaitsItsTurn(db, ids[..k], id, env);
    ReevaluatedEvolves(db, ids[..k], env);
    ReferenceStays(db, turn, id, t);
    ReevaluatedInTurn(db, ids[..k], id, env);
    assert ids[..k] + [id] == ids[..k + 1];
    var next := Nudged(turn, id, env);
    NudgedKeepsInv(turn, id, env);
    NudgedLength(turn, id, env);
    if !Overflowing(turn, id) {
      NudgeDecides(turn, id, t, env);
    }
    ReevaluatedRest(db, ids, k + 1, env);
    ReevaluatedEvolves(next, ids[k + 1..], env);
    StaysTerminal(next, Reevaluated(db, ids, env), id);
  }

  lemma {:induction false} ReevaluatedRest(db: Db, ids: seq<nat>, k: nat, env: Env)
    requires k <= |ids|
    ensures Reevaluated(db, ids, env) == Reevaluated(Reevaluated(db, ids[..k], env), ids[k..], env)
    decreases |ids| - k
  {
    hide Nudged;
    if k == |ids| {
      assert ids[..k] == ids && ids[k..] == [];
    } else {
      ReevaluatedRest(db, ids, k + 1, env);
      assert ids[..k + 1] == ids[..k] + [ids[k]];
      ReevaluatedInTurn(db, ids[..k], ids[k], env);
      assert ids[k..][0] == ids[k] && ids[k..][1..] == ids[k + 1..];
    }
  }

  lemma ReferenceStays(db: Db, db': Db, id: nat, t: nat)
    requires Evolves(db, db') && id < |db.txs| && Refers(db.txs, db.txs[id], t) && IsTerminal(db.txs[t].state)
    ensures id < |db'.txs| && Refers(db'.txs, db'.txs[id], t) && IsTerminal(db'.txs[t].state)
  {
    assert RowEvolves(db.txs[id], db'.txs[id]) && RowEvolves(db.txs[t], db'.txs[t]);
    assert Identity(db.txs[id]).origin == Identity(db'.txs[id]).origin;
    assert Identity(db.txs[id]).refExternal == Identity(db'.txs[id]).refExternal;
    assert Identity(db.txs[t]).origin == Identity(db'.txs[t]).origin;
  }

  lemma StaysTerminal(db: Db, db': Db, id: nat)
    requires Evolves(db, db') && id < |db.txs|
    ensures id < |db'.txs| && |db.txs| <= |db'.txs|
    ensures IsTerminal(db.txs[id].state) ==> IsTerminal(db'.txs[id].state)
  {
    assert RowEvolves(db.txs[id], db'.txs[id]);
  }

  lemma NudgeDecides(db: Db, id: nat, t: nat, env: Env)
    requires Inv(db) && id < |db.txs| && db.txs[id].state == PendingReference
    requires Refers(db.txs, db.txs[id], t) && IsTerminal(db.txs[t].state) && !Overflowing(db, id)
    ensures id < |Nudged(db, id, env).txs| && IsTerminal(Nudged(db, id, env).txs[id].state)
  {
    hide Inv, JudgeAgainst, HasEntry, RowOk, Moved, WinRefusal, ReversalCode, Overflowing;
    ParkedFacts(db, id);
    WalletOf(db, id);
    ReferenceFound(db, id, t);
    StuckIffOverflowing(db, id, env);
    JudgedRef(db, OperationOf(db.txs[id]), t);
    match JudgeAgainst(db, OperationOf(db.txs[id]), t) {
      case Move(dir, ref) => MovedOutcome(db, id, dir, Some(t));
      case _ =>
    }
  }

  // ---------------------------------------------------------------- claims

  /** A claim leases the chosen rows and changes nothing else. */
  lemma ClaimLeases(db: Db, ids: set<nat>, lease: Lease)
    ensures var db' := Claimed(db, ids, lease);
            && db' == db.(work := db'.work) && db'.work.Keys == db.work.Keys
            && forall id :: id in db.work ==>
                 db'.work[id] == if id in ids then db.work[id].(lease := Some(lease)) else db.work[id]
  {
  }

  /** A claimed row is not due again before 30 seconds have passed, and is from then on, unless it is treated. */
  lemma ClaimedRest(db: Db, ids: seq<nat>, owner: string, now: int, limit: nat, later: int, id: nat)
    requires IsClaim(db.work, now, limit, ids) && id in ids
    ensures id in db.work
    ensures Due(Claimed(db, (set x | x in ids), Lease(owner, now + 30_000)).work[id], later) <==> later >= now + 30_000
  {
  }

  /** A row that was never claimed, or was put back, is due as soon as its time has come. */
  lemma UnleasedIsDue(w: Work, now: int)
    requires w.lease.None?
    ensures Due(w, now) <==> w.nextAt <= now
  {
  }
}
