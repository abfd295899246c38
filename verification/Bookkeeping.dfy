/** Ledger entries and outbox events, as written by both the accept and the resume path. */
module Bookkeeping {
  import opened Wrappers
  import opened Failures
  import opened Money
  import opened Domain
  import opened Tables
  import opened Engine
  import opened Store
  import Int64

  /** The domain check of an entry: it is built exactly when before, amount and after add up. */
  function NewLedgerEntry(wallet: string, tx: nat, dir: Direction, amount: Money, before: Money, after: Money,
                          version: int):
    (r: Result<Entry, Code>)
    requires Int64.Fits(amount.minor) && Int64.Fits(before.minor) && Int64.Fits(after.minor)
    ensures r.Ok? <==>
            && wallet != "" && amount.minor > 0 && before.minor >= 0 && after.minor >= 0
            && amount.currency == before.currency == after.currency
            && after.minor == After(before.minor, dir, amount.minor)
    ensures wallet == "" ==> r == Err(InvalidMoney)
    ensures wallet != "" && amount.minor <= 0 ==> r == Err(InvalidAmountForKind)
    ensures wallet != "" && amount.minor > 0 && !(amount.currency == before.currency == after.currency) ==>
              r == Err(CurrencyMismatch)
    ensures r.Ok? ==>
              r.value == Entry(wallet, tx, dir, amount.minor, amount.currency, before.minor, after.minor, version)
  {
    if wallet == "" then Err(InvalidMoney)
    else if amount.minor <= 0 then Err(InvalidAmountForKind)
    else if amount.currency != before.currency || amount.currency != after.currency then Err(CurrencyMismatch)
    else if before.minor < 0 || after.minor < 0 then Err(InvalidMoney)
    else
      var expected := if dir == Debit then Sub(before, amount) else Add(before, amount);
      if expected.Err? then Err(expected.error)
      else if expected.value != after then Err(InvalidMoney)
      else Ok(Entry(wallet, tx, dir, amount.minor, amount.currency, before.minor, after.minor, version))
  }

  /** The events of a processed transaction; `entry` is absent when no money moved. */
  function ProcessedNews(id: nat, wallet: string, party: Party, money: Money, balance: int, version: int,
                         entry: Option<Entry>):
    seq<Event>
  {
    [ProcessedEvent(id, wallet, party, money, balance, version)]
    + match entry
      case None => []
      case Some(e) => [BalanceEvent(id, wallet, e.dir, money, e.before, balance, version)]
  }

  method EmitProcessed(s: Session, id: nat, wallet: string, party: Party, money: Money, balance: int, version: int,
                       entry: Option<Entry>)
    returns (err: Option<Code>)
    modifies s
    ensures err.None? <==> !s.aborted
    ensures err.None? ==>
              && !old(s.aborted)
              && s.db == old(s.db).(outbox := old(s.db).outbox +
                                      ProcessedNews(id, wallet, party, money, balance, version, entry))
    ensures s.reliable && !old(s.aborted) ==> err.None?
  {
    err := s.EnqueueOutbox(ProcessedEvent(id, wallet, party, money, balance, version));
    if err.Some? || entry.None? {
      return;
    }
    var e := entry.value;
    err := s.EnqueueOutbox(BalanceEvent(id, wallet, e.dir, money, e.before, balance, version));
  }

  method EmitRejected(s: Session, id: nat, wallet: string, party: Party, money: Money, code: Code, balance: int,
                      version: int)
    returns (err: Option<Code>)
    modifies s
    ensures err.None? <==> !s.aborted
    ensures err.None? ==>
              && !old(s.aborted)
              && s.db == old(s.db).(outbox := old(s.db).outbox +
                                      [RejectedEvent(id, wallet, party, money, code, balance, version)])
    ensures s.reliable && !old(s.aborted) ==> err.None?
  {
    err := s.EnqueueOutbox(RejectedEvent(id, wallet, party, money, code, balance, version));
  }

  method EmitPendingRef(s: Session, id: nat, wallet: string, party: Party, reference: string, version: int)
    returns (err: Option<Code>)
    modifies s
    ensures err.None? <==> !s.aborted
    ensures err.None? ==>
              && !old(s.aborted)
              && s.db == old(s.db).(outbox := old(s.db).outbox + [PendingEvent(id, wallet, party, reference, version)])
    ensures s.reliable && !old(s.aborted) ==> err.None?
  {
    err := s.EnqueueOutbox(PendingEvent(id, wallet, party, reference, version));
  }

  /** The wallet's side of a reversal: a stake comes back, a prize or a refund is taken back. */
  method MoveReversal(w: Wallet, kind: Kind, target: Kind, player: string, amount: Money)
    returns (dir: Direction, r: Result<(Money, Money), Code>)
    requires w.Valid() && Int64.Fits(amount.minor)
    modifies w
    ensures w.Valid()
    ensures dir == if kind == Refund || target == Bet then Credit else Debit
    ensures var made := if dir == Credit then Credited(old(w.Row()), player, amount)
                        else Debited(old(w.Row()), player, amount);
            if r.Ok? then made == Ok(w.Row()) && r.value == (old(w.balance), w.balance)
            else made == Err(r.error) && w.Row() == old(w.Row())
  {
    if kind == Refund || target == Bet {
      dir := Credit;
      r := w.Credit(player, amount);
    } else {
      dir := Debit;
      r := w.Debit(player, amount);
    }
  }

  /** Why the rules refuse a reversal of row `t`, if they do. */
  function ReversalRefusal(txs: seq<Tx>, op: Operation, t: nat): Option<Code>
    requires t < |txs|
  {
    var ref := ReferenceView(txs[t]);
    var bad := ValidateReferenceAgreement(op, ref);
    if bad.Some? then bad
    else ValidateReversalTarget(op.kind, ref, txs[t].kind == Bet && HasActiveWin(txs, t))
  }

  /** The checks of a reversal; only the one for a live WIN reads the database. */
  method CheckReversal(s: Session, op: Operation, t: nat, target: Tx) returns (r: Result<Option<Code>, Code>)
    requires !s.aborted && t < |s.db.txs| && target == s.db.txs[t]
    modifies s`aborted
    ensures r.Ok? <==> !s.aborted
    ensures r.Ok? ==> r.value == ReversalRefusal(s.db.txs, op, t)
    ensures s.reliable ==> r.Ok?
  {
    var ref := ReferenceView(target);
    var bad := ValidateReferenceAgreement(op, ref);
    if bad.Some? {
      return Ok(bad);
    }
    var activeWin := false;
    if target.kind == Bet {
      var wins := s.CountActiveWins(t);
      if wins.Err? {
        return Err(wins.error);
      }
      activeWin := wins.value;
    }
    r := Ok(ValidateReversalTarget(op.kind, ref, activeWin));
  }

  /** The verdict on a reversal: refused by the rules, or by the wallet, or a movement. */
  lemma ReversalVerdict(db: Db, op: Operation, t: nat)
    requires op.wallet in db.wallets && t < |db.txs| && IsReversal(op.kind)
    ensures var refusal := ReversalRefusal(db.txs, op, t);
            JudgeAgainst(db, op, t) ==
              if refusal.Some? then Refuse(refusal.value, Some(t))
              else if op.kind == Refund || db.txs[t].kind == Bet then JudgeCredit(db.wallets[op.wallet], op, Some(t))
              else JudgeDebit(db.wallets[op.wallet], op, Some(t), RollbackInsufficientBalance)
  {
  }
}
