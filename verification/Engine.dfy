/**
 What each committed transaction of the service does to the database
 (internal/wagering/accept.go, work.go, wallet.go and events.go), as functions of
 the database before it.
 */
module Engine {
  import opened Wrappers
  import opened Failures
  import opened Money
  import opened Domain
  import opened Tables
  import C = Canonical

  const REFERENCE_TTL := 60_000
  const MAX_REF_ATTEMPTS := 5
  const MAX_INFRA_ATTEMPTS := 10
  const BACKOFF_BASE := 200

  /** The clock and the jitter drawn for one transaction, in milliseconds. */
  datatype Env = Env(now: int, jitter: int)

  datatype SubmitInput = SubmitInput(
    provider: string, external: string, key: string, player: string, wallet: string,
    round: string, game: string, kind: Kind, amountText: string, currency: string,
    refExternal: string, consumer: string, messageId: string)

  datatype Outcome = OutcomeProcessed | OutcomeRejected | OutcomePending | OutcomeReplay

  datatype SubmitResult = SubmitResult(
    outcome: Outcome, tx: nat, balance: Option<Money>, failure: Option<Code>, version: int, replay: bool)

  datatype Reply =
    | Done(result: SubmitResult)
    | Correctable(code: Code)
    | Conflict
    | Poison
    | Fault(code: Code)

  // ---------------------------------------------------------------- judging an operation

  datatype Verdict =
    | Park
    | Move(dir: Direction, ref: Option<nat>)
    | Still
    | Refuse(code: Code, ref: Option<nat>)
    | Halt(error: Code)

  function Provider(t: Tx): string {
    if t.origin.External? then t.origin.provider else ""
  }

  function Round(t: Tx): string {
    if t.origin.External? then t.origin.round else ""
  }

  function OperationOf(t: Tx): Operation {
    Operation(t.kind, Money(t.amount, t.currency), Provider(t), t.player, t.wallet, Round(t))
  }

  function ReferenceView(t: Tx): Reference {
    Reference(t.kind, Money(t.amount, t.currency), Provider(t), t.player, t.wallet, Round(t), t.state,
              t.reversal.Some?)
  }

  function JudgeCredit(w: WalletRow, op: Operation, ref: Option<nat>): Verdict {
    var r := Credited(w, op.player, op.amount);
    if r.Ok? then Move(Credit, ref) else Halt(r.error)
  }

  function JudgeDebit(w: WalletRow, op: Operation, ref: Option<nat>, poor: Code): Verdict {
    var r := Debited(w, op.player, op.amount);
    if r.Ok? then Move(Debit, ref)
    else if r.error == InsufficientBalance then Refuse(poor, ref)
    else Halt(r.error)
  }

  /** The decision once the reference `t` is known to be PROCESSED. */
  function JudgeAgainst(db: Db, op: Operation, t: nat): Verdict
    requires op.wallet in db.wallets && t < |db.txs|
  {
    var w, target := db.wallets[op.wallet], db.txs[t];
    if op.kind == Win then
      var bad := ValidateWinReference(op, ReferenceView(target));
      if bad.Some? then Refuse(bad.value, Some(t)) else JudgeCredit(w, op, Some(t))
    else
      var bad := ValidateReferenceAgreement(op, ReferenceView(target));
      if bad.Some? then Refuse(bad.value, Some(t))
      else
        var invalid := ValidateReversalTarget(op.kind, ReferenceView(target),
                                              target.kind == Bet && HasActiveWin(db.txs, t));
        if invalid.Some? then Refuse(invalid.value, Some(t))
        else if op.kind == Refund || target.kind == Bet then JudgeCredit(w, op, Some(t))
        else JudgeDebit(w, op, Some(t), RollbackInsufficientBalance)
  }

  function JudgeReferenced(db: Db, op: Operation, reference: string): Verdict
    requires op.wallet in db.wallets
  {
    match FindByProviderExternal(db.txs, op.provider, reference)
    case None => Park
    case Some(t) =>
      match db.txs[t].state
      case Pending => Park
      case PendingReference => Park
      case Processed => JudgeAgainst(db, op, t)
      case _ => Refuse(ReferenceNotProcessed, Some(t))
  }

  function Judge(db: Db, op: Operation, reference: string): Verdict
    requires op.wallet in db.wallets
  {
    var w := db.wallets[op.wallet];
    match op.kind
    case Bet => JudgeDebit(w, op, None, InsufficientBalance)
    case Win => if reference == "" then JudgeCredit(w, op, None) else JudgeReferenced(db, op, reference)
    case Loss => Still
    case Refund => JudgeReferenced(db, op, reference)
    case Rollback => JudgeReferenced(db, op, reference)
    case _ => Halt(InvalidRequest)
  }

  // ---------------------------------------------------------------- writing the decision

  function After(balance: int, dir: Direction, amount: int): int {
    if dir == Credit then balance + amount else balance - amount
  }

  /** The reversal columns touched by a processed REFUND or ROLLBACK of `target`. */
  function Reversing(txs: seq<Tx>, kind: Kind, target: nat, reverser: nat): seq<Tx>
    requires target < |txs|
  {
    var marked := MarkReversed(txs, target, kind, reverser);
    var freed := txs[target].refTx;
    if kind == Rollback && txs[target].kind == Refund && freed.Some? && freed.value < |txs|
    then ClearReversal(marked, freed.value)
    else marked
  }

  /** Row `id`, last read as `rec`, becomes PROCESSED with one ledger movement. */
  function Moved(db: Db, id: nat, rec: Tx, dir: Direction, ref: Option<nat>): Db
    requires id < |db.txs| && rec.wallet in db.wallets
    requires ref.Some? ==> ref.value < |db.txs|
  {
    var w := db.wallets[rec.wallet];
    var after, version := After(w.balance, dir, rec.amount), w.version + 1;
    var rec' := rec.(state := Processed, result := Some(Money(after, w.currency)), observed := Some(version),
                     refTx := if ref.Some? then ref else rec.refTx);
    var txs := db.txs[id := Overwrite(db.txs[id], rec')];
    db.(txs := if IsReversal(rec.kind) && ref.Some? then Reversing(txs, rec.kind, ref.value, id) else txs,
        ledger := db.ledger + [Entry(rec.wallet, id, dir, rec.amount, rec.currency, w.balance, after, version)],
        wallets := db.wallets[rec.wallet := w.(balance := after, version := version)],
        outbox := db.outbox + [ProcessedEvent(id, rec.wallet, PartyOf(rec), MoneyOf(rec), after, version),
                               BalanceEvent(id, rec.wallet, dir, MoneyOf(rec), w.balance, after, version)],
        work := db.work - {id})
  }

  /** Row `id` becomes REJECTED with the balance it was judged against. */
  function Refused(db: Db, id: nat, rec: Tx, code: Code, ref: Option<nat>): Db
    requires id < |db.txs| && rec.wallet in db.wallets
  {
    var w := db.wallets[rec.wallet];
    var rec' := rec.(state := Rejected, failure := Some(code), result := Some(Money(w.balance, w.currency)),
                     observed := Some(w.version), refTx := if ref.Some? then ref else rec.refTx);
    db.(txs := db.txs[id := Overwrite(db.txs[id], rec')],
        outbox := db.outbox + [RejectedEvent(id, rec.wallet, PartyOf(rec), MoneyOf(rec), code, w.balance, w.version)],
        work := db.work - {id})
  }

  /** Row `id` (a LOSS) becomes PROCESSED without movement. */
  function Stilled(db: Db, id: nat, rec: Tx): Db
    requires id < |db.txs| && rec.wallet in db.wallets
  {
    var w := db.wallets[rec.wallet];
    var rec' := rec.(state := Processed, result := Some(Money(w.balance, w.currency)), observed := Some(w.version));
    db.(txs := db.txs[id := Overwrite(db.txs[id], rec')],
        outbox := db.outbox + [ProcessedEvent(id, rec.wallet, PartyOf(rec), MoneyOf(rec), w.balance, w.version)])
  }

  /** Row `id` waits for its reference, with a work item to resume it. */
  function Parked(db: Db, id: nat, rec: Tx, env: Env): Db
    requires id < |db.txs| && rec.wallet in db.wallets
  {
    db.(txs := db.txs[id := Overwrite(db.txs[id], rec.(state := PendingReference))],
        outbox := db.outbox + [PendingEvent(id, rec.wallet, PartyOf(rec), rec.refExternal,
                                            db.wallets[rec.wallet].version)],
        work := db.work[id := Work(0, 0, env.now + BACKOFF_BASE, env.now, None)])
  }

  /** TouchWork: an update of an existing row, or of none. */
  function Touched(db: Db, id: nat, refAttempts: nat, infraAttempts: nat, nextAt: int, clearLease: bool): Db {
    if id !in db.work then db
    else
      var w := db.work[id];
      db.(work := db.work[id := w.(refAttempts := refAttempts, infraAttempts := infraAttempts, nextAt := nextAt,
                                   lease := if clearLease then None else w.lease)])
  }

  // ---------------------------------------------------------------- OpenWallet

  function OpeningRow(wallet: string, player: string, m: Money): Tx {
    Tx(Internal, wallet, player, Opening, m.minor, m.currency, "", None, Processed, None, Some(m), Some(1), None)
  }

  predicate WalletTaken(db: Db, wallet: string, player: string, currency: string) {
    || wallet in db.wallets
    || exists w :: w in db.wallets && db.wallets[w].player == player && db.wallets[w].currency == currency
  }

  function Opened(db: Db, wallet: string, player: string, currency: string, text: string): (Db, Reply) {
    var m := Parsed(text, currency);
    if m.Err? || wallet == "" || player == "" then (db, Correctable(InvalidMoney))
    else if WalletTaken(db, wallet, player, currency) then (db, Conflict)
    else
      var initial := m.value.minor;
      var db1 := db.(wallets := db.wallets[wallet := WalletRow(player, currency, initial, 1)]);
      var id := |db.txs|;
      var result := SubmitResult(OutcomeProcessed, id, Some(m.value), None, 1, false);
      if initial == 0 then (db1, Done(result))
      else
        (db1.(txs := db.txs + [OpeningRow(wallet, player, m.value)],
              ledger := db.ledger + [Entry(wallet, id, Credit, initial, currency, 0, initial, 1)],
              outbox := db.outbox + [ProcessedEvent(id, wallet, Party(Opening, "", "", player), m.value, initial, 1),
                                     BalanceEvent(id, wallet, Credit, m.value, 0, initial, 1)]),
         Done(result))
  }

  // ---------------------------------------------------------------- Submit

  function BusinessOf(i: SubmitInput): C.Business {
    C.Business(i.provider, i.external, i.player, i.wallet, i.round, i.game, KindText(i.kind), i.amountText,
               i.currency, i.refExternal)
  }

  /** Input errors found before the database is touched; Ok carries the amount. */
  function Prepared(i: SubmitInput): Result<Money, Code> {
    if i.provider == "" || i.external == "" || i.key == "" then Err(InvalidRequest)
    else if i.kind == Opening then Err(OpeningNotAllowed)
    else
      var m := Parsed(i.amountText, i.currency);
      if m.Err? then Err(m.error)
      else if !AmountFitsKind(i.kind, m.value.minor) then Err(InvalidAmountForKind)
      else if IsReversal(i.kind) && i.refExternal == "" then Err(ReferenceRequired)
      else m
  }

  function ReplayResult(id: nat, t: Tx): SubmitResult {
    var version := if t.observed.Some? then t.observed.value else 0;
    if t.state == Processed || t.state == Rejected
    then SubmitResult(OutcomeReplay, id, t.result, t.failure, version, true)
    else SubmitResult(OutcomePending, id, None, t.failure, version, true)
  }

  /** The row of a new operation, in the state every lifecycle starts from. */
  function NewRow(i: SubmitInput, m: Money, hash: string): Tx {
    Tx(External(i.provider, i.external, i.key, hash, i.round, i.game), i.wallet, i.player, i.kind, m.minor,
       m.currency, i.refExternal, None, Pending, None, None, None, None)
  }

  function Added(db: Db, row: Tx): Db {
    db.(txs := db.txs + [row])
  }

  /** applyOperation: judge the new row and write it with its outcome. */
  function Applied(db: Db, row: Tx, env: Env): (Db, Reply)
    requires row.wallet in db.wallets
  {
    var id, w := |db.txs|, db.wallets[row.wallet];
    if !Rehydrates(w) then (db, Fault(InvalidMoney))
    else
      var db1 := Added(db, row);
      match Judge(db, OperationOf(row), row.refExternal)
      case Halt(code) => (db, Fault(code))
      case Park =>
        (Parked(db1, id, row, env), Done(SubmitResult(OutcomePending, id, None, None, w.version, false)))
      case Still =>
        (Stilled(db1, id, row),
         Done(SubmitResult(OutcomeProcessed, id, Some(Money(w.balance, w.currency)), None, w.version, false)))
      case Refuse(code, ref) =>
        (Refused(db1, id, row, code, ref),
         Done(SubmitResult(OutcomeRejected, id, Some(Money(w.balance, w.currency)), Some(code), w.version, false)))
      case Move(dir, ref) =>
        if HasEntry(db.ledger, row.wallet, id) then (db, Fault(UniqueViolation))
        else
          (Moved(db1, id, row, dir, ref),
           Done(SubmitResult(OutcomeProcessed, id, Some(Money(After(w.balance, dir, row.amount), w.currency)), None,
                             w.version + 1, false)))
  }

  /** The business transaction of Submit, after the input checks. */
  function Accepted(db: Db, i: SubmitInput, m: Money, hash: string, env: Env): (Db, Reply) {
    if i.wallet !in db.wallets then (db, Correctable(WalletNotFound))
    else
      var w := db.wallets[i.wallet];
      if i.player != w.player then (db, Correctable(WalletPlayerMismatch))
      else if i.currency != w.currency then (db, Correctable(CurrencyMismatch))
      else
        var byKey := FindByProviderKey(db.txs, i.provider, i.key);
        var byExternal := FindByProviderExternal(db.txs, i.provider, i.external);
        var prev := if byKey.Some? then byKey else byExternal;
        if prev.Some? then
          var t := db.txs[prev.value];
          if t.origin.hash != hash then (db, Conflict) else (db, Done(ReplayResult(prev.value, t)))
        else
          var (db', reply) := Applied(db, NewRow(i, m, hash), env);
          if !reply.Done? then (db, reply)
          else if i.messageId == "" then (db', reply)
          else if (i.consumer, i.messageId) in db.inbox then (db, Fault(UniqueViolation))
          else (db'.(inbox := db.inbox[(i.consumer, i.messageId) := hash]), reply)
  }

  /** Submit. The transport check reads the inbox before the transaction starts; `missed` says
      that the inbox row, if there is one, was committed after that read. */
  ghost function Submitted(db: Db, i: SubmitInput, missed: bool, env: Env): (Db, Reply) {
    var m := Prepared(i);
    if m.Err? then (db, Correctable(m.error))
    else
      var hash := C.PayloadHash(BusinessOf(i));
      var slot := (i.consumer, i.messageId);
      if i.messageId != "" && !missed && slot in db.inbox && db.inbox[slot] != hash then (db, Poison)
      else Accepted(db, i, m.value, hash, env)
  }

  // ---------------------------------------------------------------- resuming

  datatype Resumption = Settled(db: Db) | Retried(db: Db) | Stuck(error: Code)

  /** resumeOne: advance row `id`, which was read as `rec`. */
  function Resumed(db: Db, id: nat, rec: Tx, env: Env): Resumption
    requires id < |db.txs|
  {
    if rec.wallet !in db.wallets then Stuck(WalletNotFound)
    else if !Rehydrates(db.wallets[rec.wallet]) || !ValidCurrency(rec.currency) then Stuck(InvalidMoney)
    else
      var attempts := if id in db.work then db.work[id].refAttempts else 0;
      match FindByProviderExternal(db.txs, Provider(rec), rec.refExternal)
      case None =>
        if id !in db.work || env.now - db.work[id].createdAt > REFERENCE_TTL || attempts + 1 >= MAX_REF_ATTEMPTS
        then Settled(Refused(db, id, rec, ReferenceNotFound, None))
        else Retried(Touched(db, id, attempts + 1, 0, env.now + env.jitter, true))
      case Some(t) =>
        match db.txs[t].state
        case Pending => Retried(Touched(db, id, attempts + 1, 0, env.now + env.jitter, true))
        case PendingReference => Retried(Touched(db, id, attempts + 1, 0, env.now + env.jitter, true))
        case Processed =>
          (match JudgeAgainst(db, OperationOf(rec), t)
           case Halt(code) => Stuck(code)
           case Refuse(code, ref) => Settled(Refused(db, id, rec, code, ref))
           case Move(dir, ref) =>
             if HasEntry(db.ledger, rec.wallet, id) then Stuck(UniqueViolation)
             else Settled(Moved(db, id, rec, dir, ref))
           case _ => Stuck(InvalidRequest))
        case _ => Settled(Refused(db, id, rec, ReferenceNotProcessed, Some(t)))
  }

  /** noteInfra: one more infrastructure attempt, or FAILED once the budget is spent. */
  function NotedInfra(db: Db, id: nat, item: Work, env: Env): Db
    requires id < |db.txs|
  {
    if item.infraAttempts + 1 >= MAX_INFRA_ATTEMPTS then
      db.(txs := db.txs[id := db.txs[id].(state := Failed, failure := Some(InfraExhausted))],
          work := db.work - {id})
    else Touched(db, id, item.refAttempts, item.infraAttempts + 1, env.now + env.jitter, false)
  }

  /** processWorkItem for the claimed copy `item` of row `id`'s work item. */
  function Worked(db: Db, id: nat, item: Work, env: Env): Db {
    if id >= |db.txs| || IsTerminal(db.txs[id].state) then db.(work := db.work - {id})
    else
      match Resumed(db, id, db.txs[id], env)
      case Settled(db') => db'
      case Retried(db') => db'
      case Stuck(code) => if code == UniqueViolation then db else NotedInfra(db, id, item, env)
  }

  /** One dependent inside ReevaluateDependents; an error leaves it for the worker. */
  function Nudged(db: Db, id: nat, env: Env): Db {
    if id >= |db.txs| || db.txs[id].state != PendingReference then db
    else
      match Resumed(db, id, db.txs[id], env)
      case Settled(db') => db'
      case Retried(db') => db'
      case Stuck(_) => db
  }

  /** ReevaluateDependents over the dependents in the order the query yields them. */
  function Reevaluated(db: Db, ids: seq<nat>, env: Env): Db
    decreases |ids|
  {
    if ids == [] then db else Reevaluated(Nudged(db, ids[0], env), ids[1..], env)
  }

  /** ClaimWork: the chosen rows get a lease. */
  function Claimed(db: Db, ids: set<nat>, lease: Lease): Db {
    db.(work := map id | id in db.work :: if id in ids then db.work[id].(lease := Some(lease)) else db.work[id])
  }

  // ---------------------------------------------------------------- runs

  datatype Step =
    | OpenWallet(wallet: string, player: string, currency: string, text: string)
    | Submit(input: SubmitInput, missed: bool, env: Env)
    | Reevaluate(ids: seq<nat>, env: Env)
    | ProcessWork(id: nat, item: Work, env: Env)
    | ClaimWork(rows: set<nat>, lease: Lease)

  ghost function Next(db: Db, s: Step): Db {
    match s
    case OpenWallet(wallet, player, currency, text) => Opened(db, wallet, player, currency, text).0
    case Submit(i, missed, env) => Submitted(db, i, missed, env).0
    case Reevaluate(ids, env) => Reevaluated(db, ids, env)
    case ProcessWork(id, item, env) => Worked(db, id, item, env)
    case ClaimWork(rows, lease) => Claimed(db, rows, lease)
  }

  /** The database after a run of committed transactions from the empty database. */
  ghost function Run(steps: seq<Step>): Db
    decreases |steps|
  {
    if steps == [] then EMPTY else Next(Run(steps[..|steps| - 1]), steps[|steps| - 1])
  }
}
