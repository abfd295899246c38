/** The body of Submit's transaction, statement by statement (internal/wagering/accept.go). */
module Accepting {
  import opened Wrappers
  import opened Failures
  import opened Money
  import opened Domain
  import opened Tables
  import opened Engine
  import opened Invariant
  import opened Resting
  import opened Steps
  import opened Store
  import opened Bookkeeping
  import opened Resuming
  import C = Canonical
  import Int64

  /** The reply to an operation that ended in the wallet state `w`. */
  function ReplyOf(id: nat, outcome: Engine.Outcome, w: WalletRow, code: Option<Code>): Reply {
    Done(SubmitResult(outcome, id, if outcome == OutcomePending then None else Some(Money(w.balance, w.currency)),
                      code, w.version, false))
  }

  /** A verdict on the new row `row`, carried out whole and answered. */
  ghost predicate Decided(db: Db, db': Db, row: Tx, env: Env, v: Verdict, r: Reply)
    requires row.wallet in db.wallets
  {
    var db1, id, w := Added(db, row), |db.txs|, db.wallets[row.wallet];
    match v
    case Halt(code) => r == Fault(code) && db' == db
    case Park => db' == Parked(db1, id, row, env) && r == ReplyOf(id, OutcomePending, w, None)
    case Still => db' == Stilled(db1, id, row) && r == ReplyOf(id, OutcomeProcessed, w, None)
    case Refuse(code, ref) =>
      && db' == Refused(db1, id, row, code, ref)
      && r == ReplyOf(id, OutcomeRejected, w, Some(code))
    case Move(dir, ref) =>
      && (ref.Some? ==> ref.value < |db.txs|)
      && db' == Moved(db1, id, row, dir, ref)
      && r == ReplyOf(id, OutcomeProcessed, w.(balance := After(w.balance, dir, row.amount), version := w.version + 1),
                         None)
  }

  lemma DecidedIsApplied(db: Db, db': Db, row: Tx, env: Env, r: Reply)
    requires row.wallet in db.wallets && Rehydrates(db.wallets[row.wallet])
    requires !HasEntry(db.ledger, row.wallet, |db.txs|)
    requires Decided(db, db', row, env, Judge(db, OperationOf(row), row.refExternal), r)
    ensures (db', r) == Applied(db, row, env)
  {
    hide Moved, Refused, Stilled, Parked, Judge, HasEntry;
  }

  /** What holds when an operation starts: a sound, unaborted session and the wallet it locked. */
  ghost predicate Starts(s: Session, w: Wallet, row: Tx)
    reads s, w
  {
    && !s.aborted && row.wallet in s.db.wallets
    && w.Valid() && w.Row() == s.db.wallets[row.wallet] && w.version >= 1
    && |s.db.txs| !in s.db.work
    && row.wallet != "" && row.refTx.None? && Int64.Fits(row.amount)
  }

  /** Nothing in the constraints stands against the new row. */
  ghost predicate Clear(db: Db, row: Tx) {
    InsertAllowed(db.txs, row) && !HasEntry(db.ledger, row.wallet, |db.txs|)
  }

  method RecordProcessed(s: Session, w: Wallet, row: Tx, ref: Option<nat>, dir: Direction, before: Money, after: Money)
    returns (err: Option<Code>, reply: Reply)
    requires !s.aborted && row.wallet in s.db.wallets && |s.db.txs| !in s.db.work && row.refTx.None?
    requires HasMoved(w, s.db.wallets[row.wallet], row, dir, before, after)
    modifies s
    ensures err.None? <==> !s.aborted
    ensures var n := |old(s.db).txs|;
            err.None? ==>
              && s.db == Posted(Added(old(s.db), row), n, row, dir, ref)
              && reply == Done(SubmitResult(OutcomeProcessed, n, Some(after), None, w.version, false))
    ensures s.reliable && Clear(old(s.db), row) ==> err.None?
  {
    var id := |s.db.txs|;
    reply := Done(SubmitResult(OutcomeProcessed, id, Some(after), None, w.version, false));
    var entry := NewLedgerEntry(row.wallet, id, dir, Money(row.amount, row.currency), before, after, w.version);
    var inserted := row.(state := State.Processed, result := Some(after), observed := Some(w.version), refTx := ref);
    err := s.InsertTx(inserted);
    if err.Some? { return; }
    assert s.db.txs == (old(s.db).txs + [row])[id := inserted];
    err := s.Append(entry.value);
    if err.Some? { return; }
    err := s.UpdateBalance(row.wallet, after.minor, w.version);
    if err.Some? { return; }
    err := EmitProcessed(s, id, row.wallet, PartyOf(row), MoneyOf(row), after.minor, w.version, Some(entry.value));
  }

  method RecordRejected(s: Session, w: Wallet, row: Tx, code: Code,
                        ref: Option<nat>) returns (err: Option<Code>, reply: Reply)
    requires Starts(s, w, row)
    modifies s
    ensures err.None? <==> !s.aborted
    ensures err.None? ==>
              && s.db == Refused(Added(old(s.db), row), |old(s.db).txs|, row, code, ref)
              && reply == ReplyOf(|old(s.db).txs|, OutcomeRejected, w.Row(), Some(code))
    ensures s.reliable && Clear(old(s.db), row) ==> err.None?
  {
    var id := |s.db.txs|;
    reply := Done(SubmitResult(OutcomeRejected, id, Some(w.balance), Some(code), w.version, false));
    var inserted := row.(state := Rejected, failure := Some(code), result := Some(w.balance),
                         observed := Some(w.version), refTx := ref);
    err := s.InsertTx(inserted);
    if err.Some? { return; }
    assert s.db.txs == (old(s.db).txs + [row])[id := inserted];
    err := EmitRejected(s, id, row.wallet, PartyOf(row), MoneyOf(row), code, w.balance.minor, w.version);
  }

  method ParkReference(s: Session, w: Wallet, row: Tx, env: Env) returns (err: Option<Code>, reply: Reply)
    requires Starts(s, w, row)
    modifies s
    ensures err.None? <==> !s.aborted
    ensures err.None? ==>
              && s.db == Parked(Added(old(s.db), row), |old(s.db).txs|, row, env)
              && reply == ReplyOf(|old(s.db).txs|, OutcomePending, w.Row(), None)
    ensures s.reliable && Clear(old(s.db), row) ==> err.None?
  {
    var id := |s.db.txs|;
    reply := Done(SubmitResult(OutcomePending, id, None, None, w.version, false));
    var inserted := row.(state := PendingReference);
    err := s.InsertTx(inserted);
    if err.Some? { return; }
    assert s.db.txs == (old(s.db).txs + [row])[id := inserted];
    err := EmitPendingRef(s, id, row.wallet, PartyOf(row), row.refExternal, w.version);
    if err.Some? { return; }
    err := s.EnqueueWork(id, Work(0, 0, env.now + BACKOFF_BASE, env.now, None));
  }

  method RecordLoss(s: Session, w: Wallet, row: Tx) returns (err: Option<Code>, reply: Reply)
    requires Starts(s, w, row)
    modifies s
    ensures err.None? <==> !s.aborted
    ensures err.None? ==>
              && s.db == Stilled(Added(old(s.db), row), |old(s.db).txs|, row)
              && reply == ReplyOf(|old(s.db).txs|, OutcomeProcessed, w.Row(), None)
    ensures s.reliable && Clear(old(s.db), row) ==> err.None?
  {
    var id := |s.db.txs|;
    reply := Done(SubmitResult(OutcomeProcessed, id, Some(w.balance), None, w.version, false));
    var inserted := row.(state := Processed, result := Some(w.balance), observed := Some(w.version));
    err := s.InsertTx(inserted);
    if err.Some? { return; }
    assert s.db.txs == (old(s.db).txs + [row])[id := inserted];
    err := EmitProcessed(s, id, row.wallet, PartyOf(row), MoneyOf(row), w.balance.minor, w.version, None);
  }

  function Answer(err: Option<Code>, reply: Reply): Reply {
    if err.Some? then Fault(err.value) else reply
  }

  /** A movement that reverses nothing. */
  lemma PlainMovement(db: Db, row: Tx, dir: Direction, ref: Option<nat>)
    requires row.wallet in db.wallets && (ref.Some? ==> ref.value < |db.txs|) && !(IsReversal(row.kind) && ref.Some?)
    ensures Moved(Added(db, row), |db.txs|, row, dir, ref) == Posted(Added(db, row), |db.txs|, row, dir, ref)
  {
  }

  method ApplyBet(s: Session, w: Wallet, row: Tx, env: Env) returns (r: Reply)
    requires Starts(s, w, row) && row.kind == Bet
    modifies s, w
    ensures s.aborted ==> r.Fault?
    ensures !s.aborted ==> Decided(old(s.db), s.db, row, env, Judge(old(s.db), OperationOf(row), row.refExternal), r)
    ensures s.reliable && Clear(old(s.db), row) ==> !s.aborted
  {
    hide Moved, Refused, Posted, HasEntry, InsertAllowed;
    PlainMovement(s.db, row, Debit, None);
    var debit := w.Debit(row.player, Money(row.amount, row.currency));
    var err, reply;
    if debit == Err(InsufficientBalance) {
      err, reply := RecordRejected(s, w, row, InsufficientBalance, None);
      return Answer(err, reply);
    }
    if debit.Err? {
      return Fault(debit.error);
    }
    err, reply := RecordProcessed(s, w, row, None, Debit, debit.value.0, debit.value.1);
    r := Answer(err, reply);
  }

  method ApplyFreeWin(s: Session, w: Wallet, row: Tx, env: Env) returns (r: Reply)
    requires Starts(s, w, row) && row.kind == Win && row.refExternal == ""
    modifies s, w
    ensures s.aborted ==> r.Fault?
    ensures !s.aborted ==> Decided(old(s.db), s.db, row, env, Judge(old(s.db), OperationOf(row), row.refExternal), r)
    ensures s.reliable && Clear(old(s.db), row) ==> !s.aborted
  {
    hide Moved, Refused, Posted, HasEntry, InsertAllowed;
    PlainMovement(s.db, row, Credit, None);
    var credit := w.Credit(row.player, Money(row.amount, row.currency));
    if credit.Err? {
      return Fault(credit.error);
    }
    var err, reply := RecordProcessed(s, w, row, None, Credit, credit.value.0, credit.value.1);
    r := Answer(err, reply);
  }

  method ApplyWin(s: Session, w: Wallet, row: Tx, t: nat, env: Env) returns (r: Reply)
    requires Starts(s, w, row) && row.kind == Win && t < |s.db.txs|
    modifies s, w
    ensures s.aborted ==> r.Fault?
    ensures !s.aborted ==> Decided(old(s.db), s.db, row, env, JudgeAgainst(old(s.db), OperationOf(row), t), r)
    ensures s.reliable && Clear(old(s.db), row) ==> !s.aborted
  {
    hide Moved, Refused, Posted, HasEntry, InsertAllowed;
    PlainMovement(s.db, row, Credit, Some(t));
    var op, target := OperationOf(row), s.db.txs[t];
    var err, reply;
    var bad := ValidateWinReference(op, ReferenceView(target));
    if bad.Some? {
      err, reply := RecordRejected(s, w, row, bad.value, Some(t));
      return Answer(err, reply);
    }
    var credit := w.Credit(row.player, op.amount);
    if credit.Err? {
      return Fault(credit.error);
    }
    err, reply := RecordProcessed(s, w, row, Some(t), Credit, credit.value.0, credit.value.1);
    r := Answer(err, reply);
  }

  method RecordReversal(s: Session, w: Wallet, row: Tx, t: nat, target: Tx, dir: Direction, before: Money, after: Money)
    returns (err: Option<Code>, reply: Reply)
    requires !s.aborted && row.wallet in s.db.wallets && |s.db.txs| !in s.db.work && row.refTx.None?
    requires IsReversal(row.kind) && t < |s.db.txs| && target == s.db.txs[t]
    requires target.refTx.Some? ==> target.refTx.value < |s.db.txs|
    requires HasMoved(w, s.db.wallets[row.wallet], row, dir, before, after)
    modifies s
    ensures err.None? <==> !s.aborted
    ensures var n := |old(s.db).txs|;
            err.None? ==>
              && s.db == Moved(Added(old(s.db), row), n, row, dir, Some(t))
              && reply == Done(SubmitResult(OutcomeProcessed, n, Some(after), None, w.version, false))
    ensures s.reliable && Clear(old(s.db), row) ==> err.None?
  {
    hide InsertAllowed, HasEntry;
    var id := |s.db.txs|;
    PostedThenReversed(Added(s.db, row), id, row, dir, t);
    err, reply := RecordProcessed(s, w, row, Some(t), dir, before, after);
    if err.Some? { return; }
    err := s.MarkTx(t, row.kind, id);
    if err.Some? { return; }
    if row.kind == Rollback && target.kind == Refund && target.refTx.Some? {
      err := s.ClearTx(target.refTx.value);
    }
  }

  method ApplyReversal(s: Session, w: Wallet, row: Tx, t: nat, env: Env) returns (r: Reply)
    requires Starts(s, w, row) && IsReversal(row.kind) && t < |s.db.txs|
    requires s.db.txs[t].refTx.Some? ==> s.db.txs[t].refTx.value < |s.db.txs|
    modifies s, w
    ensures s.aborted ==> r.Fault?
    ensures !s.aborted ==> Decided(old(s.db), s.db, row, env, JudgeAgainst(old(s.db), OperationOf(row), t), r)
    ensures s.reliable && Clear(old(s.db), row) ==> !s.aborted
  {
    hide Moved, Refused, Posted, HasEntry, InsertAllowed, JudgeAgainst, ReversalRefusal;
    var op, target := OperationOf(row), s.db.txs[t];
    ReversalVerdict(s.db, op, t);
    var refusal := CheckReversal(s, op, t, target);
    if refusal.Err? {
      return Fault(refusal.error);
    }
    var err, reply;
    if refusal.value.Some? {
      err, reply := RecordRejected(s, w, row, refusal.value.value, Some(t));
      return Answer(err, reply);
    }
    var dir, moved := MoveReversal(w, row.kind, target.kind, row.player, op.amount);
    if moved == Err(InsufficientBalance) {
      err, reply := RecordRejected(s, w, row, RollbackInsufficientBalance, Some(t));
      return Answer(err, reply);
    }
    if moved.Err? {
      return Fault(moved.error);
    }
    err, reply := RecordReversal(s, w, row, t, target, dir, moved.value.0, moved.value.1);
    r := Answer(err, reply);
  }

  /** applyWithReference: missing or waiting parks, processed applies, anything else rejects. */
  method ApplyWithReference(s: Session, w: Wallet, row: Tx, env: Env) returns (r: Reply)
    requires Starts(s, w, row) && (row.kind == Win || IsReversal(row.kind)) && RefsOk(s.db.txs)
    requires row.kind == Win ==> row.refExternal != ""
    modifies s, w
    ensures s.aborted ==> r.Fault?
    ensures !s.aborted ==> Decided(old(s.db), s.db, row, env, Judge(old(s.db), OperationOf(row), row.refExternal), r)
    ensures s.reliable && Clear(old(s.db), row) ==> !s.aborted
  {
    hide Moved, Refused, Posted, HasEntry, InsertAllowed, JudgeAgainst, RefsOk, Parked;
    var found := s.FindExternal(Provider(row), row.refExternal);
    if found.Err? {
      return Fault(found.error);
    }
    var err, reply;
    if found.value.None? || IsWaiting(s.db.txs[found.value.value].state) {
      err, reply := ParkReference(s, w, row, env);
      return Answer(err, reply);
    }
    var t := found.value.value;
    if s.db.txs[t].state == Processed {
      ProcessedRef(s.db.txs, t);
      if row.kind == Win {
        r := ApplyWin(s, w, row, t, env);
      } else {
        r := ApplyReversal(s, w, row, t, env);
      }
      return;
    }
    err, reply := RecordRejected(s, w, row, ReferenceNotProcessed, Some(t));
    r := Answer(err, reply);
  }

  lemma ProcessedRef(txs: seq<Tx>, t: nat)
    requires RefsOk(txs) && t < |txs| && txs[t].state == Processed
    ensures txs[t].refTx.Some? ==> txs[t].refTx.value < |txs|
  {
    assert RefOk(txs, txs[t]);
  }

  /** applyOperation on an admissible row of a sound database. */
  method ApplyOperation(s: Session, row: Tx, env: Env) returns (r: Reply)
    requires !s.aborted && Inv(s.db) && Admissible(s.db, row)
    modifies s
    ensures s.aborted ==> r.Fault?
    ensures !s.aborted ==> row.wallet in old(s.db).wallets && (s.db, r) == Applied(old(s.db), row, env)
    ensures s.reliable ==> !s.aborted
  {
    hide Core, Moved, Refused, Stilled, Parked, Judge, HasEntry, RefsOk, WorkOk, WalletsOk, EntriesOk, InsertAllowed,
      Decided, Applied;
    NewRowFacts(s.db, row);
    var w := new Wallet(s.db.wallets[row.wallet]);
    ghost var db := s.db;
    match row.kind {
      case Bet => r := ApplyBet(s, w, row, env);
      case Win =>
        if row.refExternal == "" {
          r := ApplyFreeWin(s, w, row, env);
        } else {
          r := ApplyWithReference(s, w, row, env);
        }
      case Loss =>
        var err, reply := RecordLoss(s, w, row);
        r := Answer(err, reply);
        if !s.aborted {
          LossDecides(db, row, env, r);
        }
      case Refund => r := ApplyWithReference(s, w, row, env);
      case Rollback => r := ApplyWithReference(s, w, row, env);
    }
    if !s.aborted {
      DecidedIsApplied(db, s.db, row, env, r);
    }
  }

  lemma LossDecides(db: Db, row: Tx, env: Env, r: Reply)
    requires row.wallet in db.wallets && row.kind == Loss
    requires r == ReplyOf(|db.txs|, OutcomeProcessed, db.wallets[row.wallet], None)
    ensures Decided(db, Stilled(Added(db, row), |db.txs|, row), row, env,
                    Judge(db, OperationOf(row), row.refExternal), r)
  {
  }

  lemma NewRowFacts(db: Db, row: Tx)
    requires Inv(db) && Admissible(db, row)
    ensures row.wallet in db.wallets && Rehydrates(db.wallets[row.wallet]) && RefsOk(db.txs)
    ensures 0 <= db.wallets[row.wallet].balance <= Int64.MAX && Int64.Fits(row.amount)
    ensures |db.txs| !in db.work && row.wallet != "" && row.refTx.None? && Clear(db, row)
    ensures row.kind == Bet || row.kind == Win || row.kind == Loss || IsReversal(row.kind)
  {
    hide Core, HasEntry, RefsOk, HasKey, HasExternal;
    TablesAtStart(db);
    NewIdHasNoEntry(db, row.wallet);
  }

  lemma TablesAtStart(db: Db)
    requires Inv(db)
    ensures WalletsOk(db.wallets) && RefsOk(db.txs) && |db.txs| !in db.work
  {
    assert WorkOk(db.txs, db.work);
  }

  /** The input checks of Submit, in their order. */
  method Prepare(i: SubmitInput) returns (r: Result<Money, Code>)
    ensures r == Prepared(i)
  {
    if i.provider == "" || i.external == "" || i.key == "" {
      return Err(InvalidRequest);
    }
    if i.kind == Kind.Opening {
      return Err(OpeningNotAllowed);
    }
    r := ParseMoney(i.amountText, i.currency);
    if r.Err? { return; }
    if !AmountFitsKind(i.kind, r.value.minor) {
      return Err(InvalidAmountForKind);
    }
    if IsReversal(i.kind) && i.refExternal == "" {
      return Err(ReferenceRequired);
    }
  }

  /** An earlier row with the same key or external id: replay it, or refuse divergent content. */
  function Repeat(txs: seq<Tx>, id: nat, hash: string): Reply
    requires id < |txs| && txs[id].origin.External?
  {
    if txs[id].origin.hash != hash then Conflict else Done(ReplayResult(id, txs[id]))
  }

  lemma AppliedAnswers(db: Db, row: Tx, env: Env)
    requires row.wallet in db.wallets
    ensures Applied(db, row, env).1.Done? || Applied(db, row, env).1.Fault?
  {
    hide Judge, HasEntry;
  }

  /** The business transaction of Submit on a sound database. */
  method Accept(s: Session, i: SubmitInput, m: Money, hash: string, env: Env) returns (r: Reply)
    requires !s.aborted && Inv(s.db) && Prepared(i) == Ok(m) && hash == C.PayloadHash(BusinessOf(i))
    modifies s
    ensures r.Done? ==> !s.aborted && (s.db, r) == Accepted(old(s.db), i, m, hash, env)
    ensures s.reliable ==> r == Accepted(old(s.db), i, m, hash, env).1
    ensures !r.Poison?
  {
    hide Core, Applied, Prepared, C.PayloadHash, WalletsOk, Admissible;
    var locked := s.LockForUpdate(i.wallet);
    if locked.Err? {
      return Fault(locked.error);
    }
    if locked.value.None? {
      return Correctable(WalletNotFound);
    }
    var wallet := locked.value.value;
    if i.player != wallet.player {
      return Correctable(WalletPlayerMismatch);
    }
    if i.currency != wallet.currency {
      return Correctable(CurrencyMismatch);
    }
    var byKey := s.FindKey(i.provider, i.key);
    if byKey.Err? {
      return Fault(byKey.error);
    }
    if byKey.value.Some? {
      return Repeat(s.db.txs, byKey.value.value, hash);
    }
    var byExternal := s.FindExternal(i.provider, i.external);
    if byExternal.Err? {
      return Fault(byExternal.error);
    }
    if byExternal.value.Some? {
      return Repeat(s.db.txs, byExternal.value.value, hash);
    }
    CoreWallets(s.db);
    NewRowIsAdmissible(s.db, i, m);
    var row := NewRow(i, m, hash);
    ghost var db := s.db;
    r := ApplyOperation(s, row, env);
    AppliedAnswers(db, row, env);
    if !r.Done? || i.messageId == "" { return; }
    AppliedRow(db, row, env);
    var err := s.InsertInbox((i.consumer, i.messageId), hash);
    if err.Some? {
      return Fault(err.value);
    }
  }
}
