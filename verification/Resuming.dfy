/**
 The body of the worker's transactions, statement by statement
 (internal/wagering/work.go). Every error of the domain arises before the first write; every
 later error is a failed statement, which has aborted the transaction.
 */
module Resuming {
  import opened Wrappers
  import opened Failures
  import opened Money
  import opened Domain
  import opened Tables
  import opened Engine
  import opened Invariant
  import opened Steps
  import opened Store
  import opened Bookkeeping
  import Int64

  /** The movement of Moved without the reversal columns. */
  function Posted(db: Db, id: nat, rec: Tx, dir: Direction, ref: Option<nat>): Db
    requires id < |db.txs| && rec.wallet in db.wallets
  {
    var w := db.wallets[rec.wallet];
    var after, version := After(w.balance, dir, rec.amount), w.version + 1;
    db.(txs := db.txs[id := Overwrite(db.txs[id],
                                      rec.(state := Processed, result := Some(Money(after, w.currency)),
                                           observed := Some(version), refTx := if ref.Some? then ref else rec.refTx))],
        ledger := db.ledger + [Entry(rec.wallet, id, dir, rec.amount, rec.currency, w.balance, after, version)],
        wallets := db.wallets[rec.wallet := w.(balance := after, version := version)],
        outbox := db.outbox + [ProcessedEvent(id, rec.wallet, PartyOf(rec), MoneyOf(rec), after, version),
                               BalanceEvent(id, rec.wallet, dir, MoneyOf(rec), w.balance, after, version)],
        work := db.work - {id})
  }

  lemma PostedThenReversed(db: Db, id: nat, rec: Tx, dir: Direction, t: nat)
    requires id < |db.txs| && rec.wallet in db.wallets && t < |db.txs|
    ensures var posted := Posted(db, id, rec, dir, Some(t));
            Moved(db, id, rec, dir, Some(t)) ==
              if IsReversal(rec.kind) then posted.(txs := Reversing(posted.txs, rec.kind, t, id)) else posted
  {
  }

  /** The wallet aggregate `w` has made the movement from the stored row `row`. */
  ghost predicate HasMoved(w: Wallet, row: WalletRow, rec: Tx, dir: Direction, before: Money, after: Money)
    reads w
  {
    && before == Money(row.balance, row.currency) && after == w.balance
    && w.version == row.version + 1 && row.version >= 1
    && rec.wallet != "" && rec.amount > 0 && rec.currency == row.currency
    && after == Money(After(row.balance, dir, rec.amount), row.currency)
    && 0 <= row.balance <= Int64.MAX && 0 <= after.minor <= Int64.MAX && Int64.Fits(rec.amount)
  }

  method SettleProcessedExisting(s: Session, w: Wallet, id: nat, parked: Tx, ref: nat, dir: Direction, before: Money,
                                 after: Money)
    returns (err: Option<Code>)
    requires !s.aborted && id < |s.db.txs| && parked.wallet in s.db.wallets
    requires HasMoved(w, s.db.wallets[parked.wallet], parked, dir, before, after)
    modifies s
    ensures err.None? <==> !s.aborted
    ensures err.None? ==> s.db == Posted(old(s.db), id, parked, dir, Some(ref))
    ensures s.reliable && !HasEntry(old(s.db).ledger, parked.wallet, id) ==> err.None?
  {
    var rec := parked;
    var entry := NewLedgerEntry(rec.wallet, id, dir, Money(rec.amount, rec.currency), before, after, w.version);
    rec := rec.(state := Processed);
    rec := rec.(result := Some(after));
    rec := rec.(observed := Some(w.version));
    rec := rec.(refTx := Some(ref));
    err := s.UpdateState(id, rec);
    if err.Some? { return; }
    err := s.Append(entry.value);
    if err.Some? { return; }
    err := s.UpdateBalance(rec.wallet, after.minor, w.version);
    if err.Some? { return; }
    err := EmitProcessed(s, id, rec.wallet, PartyOf(rec), MoneyOf(rec), after.minor, w.version, Some(entry.value));
    if err.Some? { return; }
    err := s.DeleteWork(id);
  }

  method SettleRejectedExisting(s: Session, w: Wallet, id: nat, parked: Tx, ref: Option<nat>, code: Code)
    returns (err: Option<Code>)
    requires !s.aborted && id < |s.db.txs| && parked.wallet in s.db.wallets
    requires w.Valid() && w.Row() == s.db.wallets[parked.wallet]
    modifies s
    ensures err.None? <==> !s.aborted
    ensures err.None? ==> s.db == Refused(old(s.db), id, parked, code, ref)
    ensures s.reliable ==> err.None?
  {
    var rec := parked;
    rec := rec.(state := Rejected);
    rec := rec.(failure := Some(code));
    rec := rec.(result := Some(w.balance));
    rec := rec.(observed := Some(w.version));
    if ref.Some? {
      rec := rec.(refTx := ref);
    }
    err := s.UpdateState(id, rec);
    if err.Some? { return; }
    err := EmitRejected(s, id, rec.wallet, PartyOf(rec), MoneyOf(rec), code, w.balance.minor, w.version);
    if err.Some? { return; }
    err := s.DeleteWork(id);
  }

  /** What resumeApply may leave behind: a verdict, carried out whole. */
  ghost predicate CarriedOut(db: Db, db': Db, id: nat, rec: Tx, v: Verdict, r: Result<bool, Code>)
    requires id < |db.txs| && rec.wallet in db.wallets
  {
    match v
    case Halt(code) => r == Err(code) && db' == db
    case Refuse(code, ref) => r == Ok(true) && db' == Refused(db, id, rec, code, ref)
    case Move(dir, ref) => r == Ok(true) && (ref.Some? ==> ref.value < |db.txs|) && db' == Moved(db, id, rec, dir, ref)
    case _ => false
  }

  function Report(err: Option<Code>): Result<bool, Code> {
    if err.Some? then Err(err.value) else Ok(true)
  }

  /** Settle as PROCESSED, mark the target, and free the BET of a voided REFUND. */
  method SettleReversal(s: Session, w: Wallet, id: nat, rec: Tx, t: nat, target: Tx, dir: Direction, before: Money,
                        after: Money)
    returns (err: Option<Code>)
    requires !s.aborted && id < |s.db.txs| && rec.wallet in s.db.wallets && IsReversal(rec.kind)
    requires t < |s.db.txs| && t != id && target == s.db.txs[t]
    requires target.refTx.Some? ==> target.refTx.value < |s.db.txs|
    requires HasMoved(w, s.db.wallets[rec.wallet], rec, dir, before, after)
    modifies s
    ensures err.None? <==> !s.aborted
    ensures err.None? ==> s.db == Moved(old(s.db), id, rec, dir, Some(t))
    ensures s.reliable && !HasEntry(old(s.db).ledger, rec.wallet, id) ==> err.None?
  {
    PostedThenReversed(s.db, id, rec, dir, t);
    err := SettleProcessedExisting(s, w, id, rec, t, dir, before, after);
    if err.Some? { return; }
    err := s.MarkTx(t, rec.kind, id);
    if err.Some? { return; }
    if rec.kind == Rollback && target.kind == Refund && target.refTx.Some? {
      err := s.ClearTx(target.refTx.value);
    }
  }

  /** What resumeOne may leave behind of the resumption `e` that the copy it read calls for. */
  ghost predicate ResumedTo(db: Db, db': Db, e: Resumption, r: Result<bool, Code>) {
    match e
    case Settled(d) => r == Ok(true) && db' == d
    case Retried(d) => r == Ok(false) && db' == d
    case Stuck(code) => r == Err(code) && db' == db
  }

  method ResumeWin(s: Session, w: Wallet, id: nat, rec: Tx, t: nat, target: Tx) returns (r: Result<bool, Code>)
    requires !s.aborted && id < |s.db.txs| && rec.wallet in s.db.wallets && rec.kind == Win && Int64.Fits(rec.amount)
    requires rec.wallet != ""
    requires t < |s.db.txs| && target == s.db.txs[t]
    requires w.Valid() && w.Row() == s.db.wallets[rec.wallet] && w.version >= 1
    modifies s, w
    ensures s.aborted ==> r.Err?
    ensures !s.aborted ==> CarriedOut(old(s.db), s.db, id, rec, JudgeAgainst(old(s.db), OperationOf(rec), t), r)
    ensures s.reliable && !HasEntry(old(s.db).ledger, rec.wallet, id) ==> !s.aborted
  {
    var op := OperationOf(rec);
    var bad := ValidateWinReference(op, ReferenceView(target));
    if bad.Some? {
      var err := SettleRejectedExisting(s, w, id, rec, Some(t), bad.value);
      return Report(err);
    }
    var credit := w.Credit(rec.player, op.amount);
    if credit.Err? {
      return Err(credit.error);
    }
    PostedThenReversed(s.db, id, rec, Credit, t);
    var err := SettleProcessedExisting(s, w, id, rec, t, Credit, credit.value.0, credit.value.1);
    r := Report(err);
  }

  method ResumeReversal(s: Session, w: Wallet, id: nat, rec: Tx, t: nat, target: Tx) returns (r: Result<bool, Code>)
    requires !s.aborted && id < |s.db.txs| && rec.wallet in s.db.wallets && IsReversal(rec.kind)
    requires Int64.Fits(rec.amount)
    requires rec.wallet != ""
    requires t < |s.db.txs| && t != id && target == s.db.txs[t]
    requires target.refTx.Some? ==> target.refTx.value < |s.db.txs|
    requires w.Valid() && w.Row() == s.db.wallets[rec.wallet] && w.version >= 1
    modifies s, w
    ensures s.aborted ==> r.Err?
    ensures !s.aborted ==> CarriedOut(old(s.db), s.db, id, rec, JudgeAgainst(old(s.db), OperationOf(rec), t), r)
    ensures s.reliable && !HasEntry(old(s.db).ledger, rec.wallet, id) ==> !s.aborted
  {
    hide Moved, Refused, HasEntry, JudgeAgainst, ReversalRefusal;
    var op := OperationOf(rec);
    ReversalVerdict(s.db, op, t);
    var refusal := CheckReversal(s, op, t, target);
    if refusal.Err? {
      return Err(refusal.error);
    }
    if refusal.value.Some? {
      var err := SettleRejectedExisting(s, w, id, rec, Some(t), refusal.value.value);
      return Report(err);
    }
    var dir, moved := MoveReversal(w, rec.kind, target.kind, rec.player, op.amount);
    if moved == Err(InsufficientBalance) {
      var err := SettleRejectedExisting(s, w, id, rec, Some(t), RollbackInsufficientBalance);
      return Report(err);
    }
    if moved.Err? {
      return Err(moved.error);
    }
    var err := SettleReversal(s, w, id, rec, t, target, dir, moved.value.0, moved.value.1);
    r := Report(err);
  }

  /** GetWork as the scheduling reads use it: an absent row and a failed read look the same. */
  method ReadWork(s: Session, id: nat) returns (item: Option<Work>)
    modifies s`aborted
    ensures !s.aborted ==> !old(s.aborted) && item == if id in s.db.work then Some(s.db.work[id]) else None
    ensures s.reliable && !old(s.aborted) ==> !s.aborted
  {
    var r := s.GetWork(id);
    item := if r.Ok? then r.value else None;
  }

  /** A reference that is missing: give up after the TTL or the last attempt, or try again later. */
  method ResumeMissing(s: Session, w: Wallet, id: nat, rec: Tx, env: Env) returns (r: Result<bool, Code>)
    requires !s.aborted && id < |s.db.txs| && rec.wallet in s.db.wallets && Rehydrates(s.db.wallets[rec.wallet])
    requires ValidCurrency(rec.currency) && FindByProviderExternal(s.db.txs, Provider(rec), rec.refExternal).None?
    requires w.Valid() && w.Row() == s.db.wallets[rec.wallet]
    modifies s
    ensures s.aborted ==> r.Err?
    ensures !s.aborted ==> ResumedTo(old(s.db), s.db, Resumed(old(s.db), id, rec, env), r)
    ensures s.reliable ==> !s.aborted
  {
    hide Moved, Refused, Touched, JudgeAgainst;
    var created := ReadWork(s, id);
    var expired := created.None? || env.now - created.value.createdAt > REFERENCE_TTL;
    if !expired {
      var seen := ReadWork(s, id);
      expired := (if seen.Some? then seen.value.refAttempts else 0) + 1 >= MAX_REF_ATTEMPTS;
    }
    if expired {
      if s.aborted {
        return Err(StatementFailed);
      }
      var err := SettleRejectedExisting(s, w, id, rec, None, ReferenceNotFound);
      return Report(err);
    }
    r := Postpone(s, id, env);
  }

  method Postpone(s: Session, id: nat, env: Env) returns (r: Result<bool, Code>)
    modifies s
    ensures s.aborted ==> r.Err?
    ensures !s.aborted ==>
              && !old(s.aborted) && r == Ok(false)
              && s.db == Touched(old(s.db), id,
                                    (if id in old(s.db).work then old(s.db).work[id].refAttempts else 0) + 1, 0,
                                 env.now + env.jitter, true)
    ensures s.reliable && !old(s.aborted) ==> !s.aborted
  {
    var seen := ReadWork(s, id);
    var err := s.TouchWork(id, (if seen.Some? then seen.value.refAttempts else 0) + 1, 0, env.now + env.jitter, true);
    r := if err.Some? then Err(err.value) else Ok(false);
  }

  /** resumeOne on row `id` of a sound database, from the row itself. */
  method ResumeOne(s: Session, id: nat, rec: Tx, env: Env) returns (r: Result<bool, Code>)
    requires !s.aborted ==> Inv(s.db) && id < |s.db.txs| && rec == s.db.txs[id] && rec.state == PendingReference
    modifies s
    ensures s.aborted ==> r.Err?
    ensures !s.aborted ==> !old(s.aborted) && ResumedTo(old(s.db), s.db, Resumed(old(s.db), id, rec, env), r)
    ensures s.reliable && !old(s.aborted) ==> !s.aborted
  {
    hide Core, Moved, Refused, Touched, JudgeAgainst, HasEntry, WalletsOk, EntriesOk, WorkOk, RefsOk;
    var locked := s.LockForUpdate(rec.wallet);
    if locked.Err? {
      return Err(locked.error);
    }
    ParkedFacts(s.db, id);
    var row := locked.value.value;
    var w := new Wallet(row);
    var found := s.FindExternal(Provider(rec), rec.refExternal);
    if found.Err? {
      return Err(found.error);
    }
    if found.value.None? {
      r := ResumeMissing(s, w, id, rec, env);
      return;
    }
    var t := found.value.value;
    var target := s.db.txs[t];
    if IsWaiting(target.state) {
      r := Postpone(s, id, env);
    } else if target.state == Processed {
      AgainstNeverHalts(s.db, t, rec);
      TargetFacts(s.db, t);
      if rec.kind == Win {
        r := ResumeWin(s, w, id, rec, t, target);
      } else {
        r := ResumeReversal(s, w, id, rec, t, target);
      }
    } else {
      var err := SettleRejectedExisting(s, w, id, rec, Some(t), ReferenceNotProcessed);
      r := Report(err);
    }
  }

  lemma ParkedFacts(db: Db, id: nat)
    requires Inv(db) && id < |db.txs| && db.txs[id].state == PendingReference
    ensures var rec := db.txs[id];
            && RowOk(db.wallets, rec) && Rehydrates(db.wallets[rec.wallet])
            && 0 <= db.wallets[rec.wallet].balance <= Int64.MAX
            && rec.wallet != "" && Int64.Fits(rec.amount) && !HasEntry(db.ledger, rec.wallet, id)
  {
    CoreRow(db, id);
    WaitingHasNoEntry(db.txs, db.ledger, id, db.txs[id].wallet);
  }

  lemma TargetFacts(db: Db, t: nat)
    requires Inv(db) && t < |db.txs| && db.txs[t].state == Processed
    ensures db.txs[t].refTx.Some? ==> db.txs[t].refTx.value < |db.txs|
  {
    assert RefOk(db.txs, db.txs[t]);
  }

  /** noteInfra: count the error, or give the transaction up as FAILED. */
  method NoteInfra(s: Session, id: nat, item: Work, env: Env) returns (err: Option<Code>)
    requires !s.aborted ==> id < |s.db.txs|
    modifies s
    ensures err.None? <==> !s.aborted
    ensures err.None? ==> !old(s.aborted) && s.db == NotedInfra(old(s.db), id, item, env)
    ensures s.reliable && !old(s.aborted) ==> err.None?
  {
    var next := item.infraAttempts + 1;
    if next >= MAX_INFRA_ATTEMPTS {
      var got := s.GetTx(id);
      if got.Err? {
        return Some(got.error);
      }
      if got.value.Some? {
        var rec := got.value.value;
        rec := rec.(state := Failed);
        rec := rec.(failure := Some(InfraExhausted));
        err := s.UpdateState(id, rec);
        if err.Some? { return; }
      }
      err := s.DeleteWork(id);
    } else {
      err := s.TouchWork(id, item.refAttempts, next, env.now + env.jitter, false);
    }
  }
}
