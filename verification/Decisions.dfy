/**
 What Submit decides, told by the fields of the input, the wallet and the referenced row alone:
 for every new operation of a wallet, when it is PROCESSED and with which balance, when it is
 REJECTED and with which code, when it waits, and when the input is refused.
 */
module Decisions {
  import opened Wrappers
  import opened Failures
  import opened Money
  import opened Domain
  import opened Tables
  import opened Engine
  import opened Invariant
  import opened Settling
  import opened Resting
  import opened Steps
  import C = Canonical
  import Int64

  // ---------------------------------------------------------------- inputs

  /** The first thing wrong with an input, in the order Submit looks; None if it may be accepted. */
  function InputError(i: SubmitInput): Option<Code> {
    if i.provider == "" || i.external == "" || i.key == "" then Some(InvalidRequest)
    else if i.kind == Opening then Some(OpeningNotAllowed)
    else if !ValidCurrency(i.currency) || !AmountText(i.amountText) then Some(InvalidMoney)
    else if AmountValue(i.amountText) > Int64.MAX then Some(MoneyOverflow)
    else if i.kind.Unknown? then Some(InvalidAmountForKind)
    else if (i.kind == Loss) != (AmountValue(i.amountText) == 0) then Some(InvalidAmountForKind)
    else if (i.kind == Refund || i.kind == Rollback) && i.refExternal == "" then Some(ReferenceRequired)
    else None
  }

  /** A bad input is refused with the first thing wrong with it, and nothing is written; any other gets past
      the input checks with its amount. */
  lemma BadInputsAreRefused(db: Db, i: SubmitInput, missed: bool, env: Env)
    ensures InputError(i).Some? ==> Submitted(db, i, missed, env) == (db, Correctable(InputError(i).value))
    ensures InputError(i).None? ==>
              AmountText(i.amountText) && Prepared(i) == Ok(Money(AmountValue(i.amountText), i.currency))
  {
    hide C.PayloadHash, Accepted;
  }

  /** Same message, other content: poison, and only then. */
  lemma PoisonIff(db: Db, i: SubmitInput, missed: bool, env: Env)
    requires InputError(i).None?
    ensures Submitted(db, i, missed, env).1 == Poison <==>
            && i.messageId != "" && !missed
            && (i.consumer, i.messageId) in db.inbox
            && db.inbox[(i.consumer, i.messageId)] != C.PayloadHash(BusinessOf(i))
    ensures Submitted(db, i, missed, env).1 == Poison ==> Submitted(db, i, missed, env).0 == db
  {
    hide C.PayloadHash, Applied, Prepared;
    BadInputsAreRefused(db, i, missed, env);
    NoOtherPoison(db, i, Prepared(i).value, env);
  }

  lemma NoOtherPoison(db: Db, i: SubmitInput, m: Money, env: Env)
    ensures Accepted(db, i, m, C.PayloadHash(BusinessOf(i)), env).1 != Poison
  {
    hide C.PayloadHash, Judge;
  }

  /** An operation that names no wallet, another player or another currency is refused before anything is
      looked up. */
  lemma StrangersAreRefused(db: Db, i: SubmitInput, missed: bool, env: Env)
    requires InputError(i).None? && Submitted(db, i, missed, env).1 != Poison
    ensures i.wallet !in db.wallets ==> Submitted(db, i, missed, env) == (db, Correctable(WalletNotFound))
    ensures i.wallet in db.wallets && i.player != db.wallets[i.wallet].player ==>
              Submitted(db, i, missed, env) == (db, Correctable(WalletPlayerMismatch))
    ensures i.wallet in db.wallets && i.player == db.wallets[i.wallet].player
            && i.currency != db.wallets[i.wallet].currency ==>
              Submitted(db, i, missed, env) == (db, Correctable(CurrencyMismatch))
  {
    hide C.PayloadHash, Applied, Prepared;
    BadInputsAreRefused(db, i, missed, env);
  }

  // ---------------------------------------------------------------- new operations

  /** A good input for an existing wallet of its player and currency, under a new key, external id and
      message. */
  ghost predicate New(db: Db, i: SubmitInput) {
    && InputError(i).None?
    && i.wallet in db.wallets
    && i.player == db.wallets[i.wallet].player && i.currency == db.wallets[i.wallet].currency
    && (forall k :: 0 <= k < |db.txs| && db.txs[k].origin.External? && db.txs[k].origin.provider == i.provider ==>
          db.txs[k].origin.key != i.key && db.txs[k].origin.id != i.external)
    && (i.messageId == "" || (i.consumer, i.messageId) !in db.inbox)
  }

  /** The message, if the operation came as one, is on record with its hash. */
  ghost predicate InboxFollows(db: Db, db': Db, i: SubmitInput) {
    db'.inbox == if i.messageId == "" then db.inbox
                 else db.inbox[(i.consumer, i.messageId) := C.PayloadHash(BusinessOf(i))]
  }

  /** The row of an operation before it is decided. */
  ghost function RowOf(i: SubmitInput): Tx
    requires AmountText(i.amountText)
  {
    Tx(External(i.provider, i.external, i.key, C.PayloadHash(BusinessOf(i)), i.round, i.game), i.wallet, i.player,
       i.kind, AmountValue(i.amountText), i.currency, i.refExternal, None, Pending, None, None, None, None)
  }

  /** PROCESSED: the balance changes by `delta`, the version by `steps`, and the row and the reply say so. */
  predicate Processes(db: Db, out: (Db, Reply), row: Tx, delta: int, steps: nat, ref: Option<nat>)
    requires row.wallet in db.wallets
  {
    var db', n, w := out.0, |db.txs|, db.wallets[row.wallet];
    var balance, version := Money(w.balance + delta, w.currency), w.version + steps;
    && |db'.txs| == n + 1
    && db'.txs[n] == row.(state := Processed, result := Some(balance), observed := Some(version), refTx := ref,
                          reversal := db'.txs[n].reversal)
    && db'.wallets == db.wallets[row.wallet := w.(balance := balance.minor, version := version)]
    && out.1 == Done(SubmitResult(OutcomeProcessed, n, Some(balance), None, version, false))
  }

  /** REJECTED with `code`: no money moves, and the row and the reply carry the code and the balance. */
  predicate Rejects(db: Db, out: (Db, Reply), row: Tx, code: Code, ref: Option<nat>)
    requires row.wallet in db.wallets
  {
    var db', n, w := out.0, |db.txs|, db.wallets[row.wallet];
    var balance := Money(w.balance, w.currency);
    && db'.txs == db.txs + [row.(state := Rejected, failure := Some(code), result := Some(balance),
                                 observed := Some(w.version), refTx := ref)]
    && db'.wallets == db.wallets && db'.ledger == db.ledger
    && out.1 == Done(SubmitResult(OutcomeRejected, n, Some(balance), Some(code), w.version, false))
  }

  /** PENDING_REFERENCE: announced, and due for its first look after one backoff step of 200 ms. */
  predicate Waits(db: Db, out: (Db, Reply), row: Tx, env: Env)
    requires row.wallet in db.wallets
  {
    var db', n, w := out.0, |db.txs|, db.wallets[row.wallet];
    && db'.txs == db.txs + [row.(state := PendingReference)]
    && db'.wallets == db.wallets && db'.ledger == db.ledger
    && db'.work == db.work[n := Work(0, 0, env.now + 200, env.now, None)]
    && db'.outbox == db.outbox + [PendingEvent(n, row.wallet, PartyOf(row), row.refExternal, w.version)]
    && out.1 == Done(SubmitResult(OutcomePending, n, None, None, w.version, false))
  }

  /** A credit that would leave int64: an error, and nothing is written. */
  predicate Overflows(db: Db, out: (Db, Reply)) {
    out == (db, Fault(MoneyOverflow))
  }

  // ---------------------------------------------------------------- from the verdict to the outcome

  /** What applyOperation needs of the database. */
  ghost predicate Ready(db: Db, row: Tx) {
    && row.wallet in db.wallets && Rehydrates(db.wallets[row.wallet])
    && row.state == Pending && row.refTx.None? && row.failure.None? && row.reversal.None?
    && !HasEntry(db.ledger, row.wallet, |db.txs|)
  }

  lemma MoveProcesses(db: Db, row: Tx, env: Env, dir: Direction, ref: Option<nat>)
    requires Ready(db, row) && Judge(db, OperationOf(row), row.refExternal) == Move(dir, ref)
    ensures Processes(db, Applied(db, row, env), row, if dir == Credit then row.amount else -row.amount, 1, ref)
  {
    hide Judge, HasEntry, Moved;
    JudgeNamesRows(db, OperationOf(row), row.refExternal);
    MovedOutcome(Added(db, row), |db.txs|, dir, ref);
  }

  lemma MovedOutcome(db: Db, id: nat, dir: Direction, ref: Option<nat>)
    requires id < |db.txs| && db.txs[id].wallet in db.wallets && (ref.Some? ==> ref.value < |db.txs|)
    requires db.txs[id].refTx.None?
    ensures var t, w := db.txs[id], db.wallets[db.txs[id].wallet];
            var db' := Moved(db, id, t, dir, ref);
            var after := if dir == Credit then w.balance + t.amount else w.balance - t.amount;
            && |db'.txs| == |db.txs|
            && db'.txs[id] == t.(state := Processed, result := Some(Money(after, w.currency)),
                                 observed := Some(w.version + 1), refTx := ref, reversal := db'.txs[id].reversal)
            && db'.wallets == db.wallets[t.wallet := w.(balance := after, version := w.version + 1)]
  {
  }

  lemma RefuseRejects(db: Db, row: Tx, env: Env, code: Code, ref: Option<nat>)
    requires Ready(db, row) && Judge(db, OperationOf(row), row.refExternal) == Refuse(code, ref)
    ensures Rejects(db, Applied(db, row, env), row, code, ref)
  {
    hide Judge, HasEntry, Moved;
  }

  lemma ParkWaits(db: Db, row: Tx, env: Env)
    requires Ready(db, row) && Judge(db, OperationOf(row), row.refExternal) == Park
    ensures Waits(db, Applied(db, row, env), row, env)
  {
    hide Judge, HasEntry, Moved;
  }

  lemma StillProcesses(db: Db, row: Tx, env: Env)
    requires Ready(db, row) && Judge(db, OperationOf(row), row.refExternal) == Still
    ensures Processes(db, Applied(db, row, env), row, 0, 0, None)
  {
    hide Judge, HasEntry, Moved;
  }

  lemma HaltFails(db: Db, row: Tx, env: Env, code: Code)
    requires Ready(db, row) && Judge(db, OperationOf(row), row.refExternal) == Halt(code)
    ensures Applied(db, row, env) == (db, Fault(code))
  {
    hide Judge, HasEntry, Moved;
  }

  /** A new operation is applied, and its message recorded with it. */
  lemma NewIsApplied(db: Db, i: SubmitInput, missed: bool, env: Env)
    requires Inv(db) && New(db, i)
    ensures AmountText(i.amountText) && i.wallet in db.wallets
    ensures Ready(db, RowOf(i)) && RowOk(db.wallets, RowOf(i)) && WalletsOk(db.wallets)
    ensures var out, sent := Applied(db, RowOf(i), env), Submitted(db, i, missed, env);
            && sent.1 == out.1
            && (!out.1.Done? ==> sent.0 == db)
            && (out.1.Done? ==> sent.0 == out.0.(inbox := sent.0.inbox) && InboxFollows(db, sent.0, i))
  {
    hide Core, C.PayloadHash, Applied, Prepared, InputError, AmountText, AmountValue;
    BadInputsAreRefused(db, i, missed, env);
    var m := Money(AmountValue(i.amountText), i.currency);
    CoreWallets(db);
    NewRowIsAdmissible(db, i, m);
    NewIdHasNoEntry(db, i.wallet);
    assert RowOf(i) == NewRow(i, m, C.PayloadHash(BusinessOf(i)));
    AppliedKeepsInbox(db, RowOf(i), env);
  }

  lemma AppliedKeepsInbox(db: Db, row: Tx, env: Env)
    requires row.wallet in db.wallets
    ensures Applied(db, row, env).1.Done? ==> Applied(db, row, env).0.inbox == db.inbox
  {
    if Applied(db, row, env).1.Done? {
      AppliedRow(db, row, env);
    }
  }

  /** Recording the message changes nothing else. */
  lemma InboxAside(db: Db, out: (Db, Reply), inbox: map<(string, string), string>, row: Tx, env: Env,
                   delta: int, steps: nat, code: Code, ref: Option<nat>)
    requires row.wallet in db.wallets
    ensures var sent := (out.0.(inbox := inbox), out.1);
            && (Processes(db, out, row, delta, steps, ref) ==> Processes(db, sent, row, delta, steps, ref))
            && (Rejects(db, out, row, code, ref) ==> Rejects(db, sent, row, code, ref))
            && (Waits(db, out, row, env) ==> Waits(db, sent, row, env))
    ensures Processes(db, out, row, delta, steps, ref) ==> out.1.Done?
    ensures Rejects(db, out, row, code, ref) ==> out.1.Done?
    ensures Waits(db, out, row, env) ==> out.1.Done?
  {
  }

  lemma Carried(db: Db, i: SubmitInput, missed: bool, env: Env, delta: int, steps: nat, code: Code, ref: Option<nat>)
    requires Inv(db) && New(db, i)
    ensures AmountText(i.amountText) && i.wallet in db.wallets
    ensures var out, sent, row := Applied(db, RowOf(i), env), Submitted(db, i, missed, env), RowOf(i);
            && (Processes(db, out, row, delta, steps, ref) ==>
                  Processes(db, sent, row, delta, steps, ref) && InboxFollows(db, sent.0, i))
            && (Rejects(db, out, row, code, ref) ==> Rejects(db, sent, row, code, ref) && InboxFollows(db, sent.0, i))
            && (Waits(db, out, row, env) ==> Waits(db, sent, row, env) && InboxFollows(db, sent.0, i))
            && (out == (db, Fault(code)) ==> sent == (db, Fault(code)))
  {
    hide Inv, New, C.PayloadHash, Applied, Submitted, AmountText, AmountValue, Processes, Rejects, Waits, InboxFollows;
    hide Ready, RowOk, WalletsOk;
    NewIsApplied(db, i, missed, env);
    var sent := Submitted(db, i, missed, env);
    InboxAside(db, Applied(db, RowOf(i), env), sent.0.inbox, RowOf(i), env, delta, steps, code, ref);
  }

  // ---------------------------------------------------------------- decisions without a reference

  /** A WIN without reference is PROCESSED, and credited, if and only if the balance stays in int64. */
  lemma FreeWinDecision(db: Db, i: SubmitInput, missed: bool, env: Env)
    requires Inv(db) && New(db, i) && i.kind == Win && i.refExternal == ""
    ensures AmountText(i.amountText) && i.wallet in db.wallets && AmountValue(i.amountText) > 0
    ensures var out, amount := Submitted(db, i, missed, env), AmountValue(i.amountText);
            if db.wallets[i.wallet].balance + amount <= Int64.MAX
            then Processes(db, out, RowOf(i), amount, 1, None) && InboxFollows(db, out.0, i)
            else Overflows(db, out)
  {
    hide Inv, New, C.PayloadHash, Applied, Submitted, AmountText, AmountValue, HasEntry, Processes;
    NewIsApplied(db, i, missed, env);
    var row := RowOf(i);
    Carried(db, i, missed, env, row.amount, 1, MoneyOverflow, None);
    if db.wallets[i.wallet].balance + row.amount <= Int64.MAX {
      MoveProcesses(db, row, env, Credit, None);
    } else {
      HaltFails(db, row, env, MoneyOverflow);
    }
  }

  ghost predicate BetAnswer(db: Db, out: (Db, Reply), i: SubmitInput)
    requires AmountText(i.amountText) && i.wallet in db.wallets
  {
    var amount := AmountValue(i.amountText);
    && InboxFollows(db, out.0, i)
    && if amount <= db.wallets[i.wallet].balance then Processes(db, out, RowOf(i), 0 - amount, 1, None)
       else Rejects(db, out, RowOf(i), InsufficientBalance, None)
  }

  /** A BET is PROCESSED, and debited, if and only if the balance covers it; otherwise it is REJECTED with
      INSUFFICIENT_BALANCE. */
  lemma BetDecision(db: Db, i: SubmitInput, missed: bool, env: Env)
    requires Inv(db) && New(db, i) && i.kind == Bet
    ensures AmountText(i.amountText) && i.wallet in db.wallets && AmountValue(i.amountText) > 0
    ensures BetAnswer(db, Submitted(db, i, missed, env), i)
  {
    hide Inv, New, C.PayloadHash, Applied, Submitted, AmountText, AmountValue, HasEntry, Processes, Rejects;
    NewIsApplied(db, i, missed, env);
    var row := RowOf(i);
    Carried(db, i, missed, env, -row.amount, 1, InsufficientBalance, None);
    if row.amount <= db.wallets[i.wallet].balance {
      MoveProcesses(db, row, env, Debit, None);
    } else {
      RefuseRejects(db, row, env, InsufficientBalance, None);
    }
  }

  /** A LOSS, which is accepted at zero only, is PROCESSED without money or version. */
  lemma LossDecision(db: Db, i: SubmitInput, missed: bool, env: Env)
    requires Inv(db) && New(db, i) && i.kind == Loss
    ensures AmountText(i.amountText) && i.wallet in db.wallets && AmountValue(i.amountText) == 0
    ensures var out := Submitted(db, i, missed, env);
            && Processes(db, out, RowOf(i), 0, 0, None) && InboxFollows(db, out.0, i)
            && out.0.ledger == db.ledger && out.0.work == db.work
  {
    hide Inv, New, C.PayloadHash, Applied, Submitted, AmountText, AmountValue, HasEntry, Processes;
    NewIsApplied(db, i, missed, env);
    Carried(db, i, missed, env, 0, 0, InvalidRequest, None);
    StillProcesses(db, RowOf(i), env);
    LossMovesNothing(db, RowOf(i), env);
  }

  lemma LossMovesNothing(db: Db, row: Tx, env: Env)
    requires Ready(db, row) && row.kind == Loss
    ensures Applied(db, row, env).0.ledger == db.ledger && Applied(db, row, env).0.work == db.work
  {
    hide HasEntry;
  }

  // ---------------------------------------------------------------- decisions on a reference

  /** Row `t` is the one the input refers to. */
  predicate RefersTo(txs: seq<Tx>, i: SubmitInput, t: nat) {
    && t < |txs| && txs[t].origin.External?
    && txs[t].origin.provider == i.provider && txs[t].origin.id == i.refExternal
  }

  lemma ReferenceIsFound(db: Db, i: SubmitInput, t: nat)
    requires Inv(db) && RefersTo(db.txs, i, t)
    ensures FindByProviderExternal(db.txs, i.provider, i.refExternal) == Some(t)
  {
    hide Core;
    KeysOf(db);
    var f := FindByProviderExternal(db.txs, i.provider, i.refExternal).value;
    assert HasExternal(db.txs[t], db.txs[f].origin.provider, db.txs[f].origin.id);
  }

  lemma KeysOf(db: Db)
    requires Inv(db)
    ensures KeysUnique(db.txs)
  {
  }

  /** A referring operation whose reference is not there, or waits itself, waits. */
  lemma UnresolvedWaits(db: Db, i: SubmitInput, missed: bool, env: Env)
    requires Inv(db) && New(db, i) && (i.kind == Win || i.kind == Refund || i.kind == Rollback) && i.refExternal != ""
    requires forall t: nat :: RefersTo(db.txs, i, t) ==> IsWaiting(db.txs[t].state)
    ensures AmountText(i.amountText) && i.wallet in db.wallets
    ensures var out := Submitted(db, i, missed, env); Waits(db, out, RowOf(i), env) && InboxFollows(db, out.0, i)
  {
    hide Inv, New, C.PayloadHash, Applied, Submitted, AmountText, AmountValue, HasEntry, Waits;
    NewIsApplied(db, i, missed, env);
    Carried(db, i, missed, env, 0, 0, InvalidRequest, None);
    var found := FindByProviderExternal(db.txs, i.provider, i.refExternal);
    if found.Some? {
      assert RefersTo(db.txs, i, found.value);
    }
    ParkWaits(db, RowOf(i), env);
  }

  /** One whose reference was REJECTED or FAILED is REJECTED with REFERENCE_NOT_PROCESSED. */
  lemma DeadReferenceRejects(db: Db, i: SubmitInput, t: nat, missed: bool, env: Env)
    requires Inv(db) && New(db, i) && (i.kind == Win || i.kind == Refund || i.kind == Rollback) && i.refExternal != ""
    requires RefersTo(db.txs, i, t) && (db.txs[t].state == Rejected || db.txs[t].state == Failed)
    ensures AmountText(i.amountText) && i.wallet in db.wallets
    ensures var out := Submitted(db, i, missed, env);
            Rejects(db, out, RowOf(i), ReferenceNotProcessed, Some(t)) && InboxFollows(db, out.0, i)
  {
    hide Inv, New, C.PayloadHash, Applied, Submitted, AmountText, AmountValue, HasEntry, Rejects;
    NewIsApplied(db, i, missed, env);
    Carried(db, i, missed, env, 0, 0, ReferenceNotProcessed, Some(t));
    ReferenceIsFound(db, i, t);
    RefuseRejects(db, RowOf(i), env, ReferenceNotProcessed, Some(t));
  }

  /** The first field in which an operation and its reference differ, as a code. */
  function Mismatch(op: Tx, t: Tx): Option<Code>
    requires op.origin.External? && t.origin.External?
  {
    if op.origin.provider != t.origin.provider then Some(ReferenceProviderMismatch)
    else if op.player != t.player then Some(ReferencePlayerMismatch)
    else if op.wallet != t.wallet then Some(ReferenceWalletMismatch)
    else if op.currency != t.currency then Some(ReferenceCurrencyMismatch)
    else if op.origin.round != t.origin.round then Some(ReferenceRoundMismatch)
    else if op.amount != t.amount then Some(AmountMismatch)
    else None
  }

  /** Why a WIN on the PROCESSED row `t` is refused, if it is. */
  function WinRefusal(op: Tx, t: Tx): Option<Code>
    requires op.origin.External? && t.origin.External?
  {
    if t.kind != Bet then Some(InvalidReversal)
    else if t.reversal.Some? then Some(ReferenceReversed)
    else Mismatch(op, t)
  }

  /** An unreversed PROCESSED WIN stands on row `t`. */
  predicate WonOn(txs: seq<Tx>, t: nat) {
    exists w :: 0 <= w < |txs| && txs[w].kind == Win && txs[w].state == Processed && txs[w].reversal.None?
                && txs[w].refTx == Some(t)
  }

  /** Why a REFUND or ROLLBACK of the PROCESSED row `t` is refused, if it is: first a difference, then the
      matrix (REFUND of a BET; ROLLBACK of a BET, WIN or REFUND), then an earlier reversal, then a live WIN. */
  function ReversalCode(op: Tx, txs: seq<Tx>, t: nat): Option<Code>
    requires t < |txs| && op.origin.External? && txs[t].origin.External?
  {
    var k := txs[t].kind;
    if Mismatch(op, txs[t]).Some? then Mismatch(op, txs[t])
    else if !(k == Bet || (op.kind == Rollback && (k == Win || k == Refund))) then Some(InvalidReversal)
    else if txs[t].reversal.Some? then Some(AlreadyReversed)
    else if k == Bet && WonOn(txs, t) then Some(BetHasActiveWin)
    else None
  }

  lemma WonIsActive(txs: seq<Tx>, t: nat)
    ensures WonOn(txs, t) <==> HasActiveWin(txs, t)
  {
    if WonOn(txs, t) {
      var w :| 0 <= w < |txs| && txs[w].kind == Win && txs[w].state == Processed && txs[w].reversal.None?
               && txs[w].refTx == Some(t);
      assert ActiveWin(txs[w], t);
    }
  }

  lemma WinVerdict(db: Db, op: Tx, t: nat)
    requires RowOk(db.wallets, op) && op.kind == Win && op.origin.External?
    requires t < |db.txs| && db.txs[t].state == Processed && db.txs[t].origin.External?
    ensures JudgeAgainst(db, OperationOf(op), t) ==
            match WinRefusal(op, db.txs[t])
            case Some(code) => Refuse(code, Some(t))
            case None =>
              if db.wallets[op.wallet].balance + op.amount <= Int64.MAX then Move(Credit, Some(t))
              else Halt(MoneyOverflow)
  {
  }

  lemma ReversalVerdict(db: Db, op: Tx, t: nat)
    requires RowOk(db.wallets, op) && (op.kind == Refund || op.kind == Rollback) && op.origin.External?
    requires t < |db.txs| && db.txs[t].state == Processed && db.txs[t].origin.External?
    ensures var balance := db.wallets[op.wallet].balance;
            JudgeAgainst(db, OperationOf(op), t) ==
              match ReversalCode(op, db.txs, t)
              case Some(code) => Refuse(code, Some(t))
              case None =>
                if db.txs[t].kind == Bet then
                  (if balance + op.amount <= Int64.MAX then Move(Credit, Some(t)) else Halt(MoneyOverflow))
                else if op.amount <= balance then Move(Debit, Some(t))
                else Refuse(RollbackInsufficientBalance, Some(t))
  {
    hide HasActiveWin, WonOn;
    WonIsActive(db.txs, t);
  }

  /** With the reference PROCESSED, the new row is judged against it. */
  lemma ReferredIsJudged(db: Db, i: SubmitInput, t: nat)
    requires Inv(db) && AmountText(i.amountText) && i.wallet in db.wallets && RefersTo(db.txs, i, t)
    requires (i.kind == Win && i.refExternal != "") || i.kind == Refund || i.kind == Rollback
    requires db.txs[t].state == Processed
    ensures Judge(db, OperationOf(RowOf(i)), i.refExternal) == JudgeAgainst(db, OperationOf(RowOf(i)), t)
  {
    hide Inv, C.PayloadHash, AmountText, AmountValue, JudgeAgainst;
    ReferenceIsFound(db, i, t);
  }

  /** A WIN on a PROCESSED reference: refused with the first thing wrong, or credited, or an overflow. */
  lemma WinDecision(db: Db, i: SubmitInput, t: nat, missed: bool, env: Env)
    requires Inv(db) && New(db, i) && i.kind == Win && i.refExternal != ""
    requires RefersTo(db.txs, i, t) && db.txs[t].state == Processed
    ensures AmountText(i.amountText) && i.wallet in db.wallets
    ensures var out, amount := Submitted(db, i, missed, env), AmountValue(i.amountText);
            match WinRefusal(RowOf(i), db.txs[t])
            case Some(code) => Rejects(db, out, RowOf(i), code, Some(t)) && InboxFollows(db, out.0, i)
            case None =>
              if db.wallets[i.wallet].balance + amount <= Int64.MAX
              then Processes(db, out, RowOf(i), amount, 1, Some(t)) && InboxFollows(db, out.0, i)
              else Overflows(db, out)
  {
    hide Inv, New, C.PayloadHash, Applied, Submitted, AmountText, AmountValue, HasEntry, Processes, Rejects, Judge;
    NewIsApplied(db, i, missed, env);
    ReferredIsJudged(db, i, t);
    var row := RowOf(i);
    WinVerdict(db, row, t);
    match WinRefusal(RowOf(i), db.txs[t]) {
      case Some(code) =>
        Carried(db, i, missed, env, 0, 0, code, Some(t));
        RefuseRejects(db, row, env, code, Some(t));
      case None =>
        Carried(db, i, missed, env, row.amount, 1, MoneyOverflow, Some(t));
        if db.wallets[i.wallet].balance + row.amount <= Int64.MAX {
          MoveProcesses(db, row, env, Credit, Some(t));
        } else {
          HaltFails(db, row, env, MoneyOverflow);
        }
    }
  }

  ghost predicate ReversalAnswer(db: Db, out: (Db, Reply), i: SubmitInput, t: nat)
    requires AmountText(i.amountText) && i.wallet in db.wallets && t < |db.txs| && db.txs[t].origin.External?
  {
    var balance, amount := db.wallets[i.wallet].balance, AmountValue(i.amountText);
    match ReversalCode(RowOf(i), db.txs, t)
    case Some(code) => Rejects(db, out, RowOf(i), code, Some(t)) && InboxFollows(db, out.0, i)
    case None =>
      if db.txs[t].kind == Bet then
        (if balance + amount <= Int64.MAX
         then Processes(db, out, RowOf(i), amount, 1, Some(t)) && InboxFollows(db, out.0, i)
         else Overflows(db, out))
      else
        && InboxFollows(db, out.0, i)
        && if amount <= balance then Processes(db, out, RowOf(i), 0 - amount, 1, Some(t))
           else Rejects(db, out, RowOf(i), RollbackInsufficientBalance, Some(t))
  }

  /** A REFUND or ROLLBACK of a PROCESSED row: refused with the first thing wrong; else the stake of a BET is
      credited back, and the prize of a WIN or the sum of a REFUND debited if the balance covers it. */
  lemma ReversalDecision(db: Db, i: SubmitInput, t: nat, missed: bool, env: Env)
    requires Inv(db) && New(db, i) && (i.kind == Refund || i.kind == Rollback)
    requires RefersTo(db.txs, i, t) && db.txs[t].state == Processed
    ensures AmountText(i.amountText) && i.wallet in db.wallets
    ensures ReversalAnswer(db, Submitted(db, i, missed, env), i, t)
  {
    hide Inv, New, C.PayloadHash, Applied, Submitted, AmountText, AmountValue, HasEntry, Processes, Rejects, Judge;
    hide ReversalCode;
    NewIsApplied(db, i, missed, env);
    ReferredIsJudged(db, i, t);
    var row, balance := RowOf(i), db.wallets[i.wallet].balance;
    ReversalVerdict(db, row, t);
    match ReversalCode(RowOf(i), db.txs, t) {
      case Some(code) =>
        Carried(db, i, missed, env, 0, 0, code, Some(t));
        RefuseRejects(db, row, env, code, Some(t));
      case None =>
        if db.txs[t].kind == Bet && balance + row.amount <= Int64.MAX {
          Carried(db, i, missed, env, row.amount, 1, MoneyOverflow, Some(t));
          MoveProcesses(db, row, env, Credit, Some(t));
        } else if db.txs[t].kind == Bet {
          Carried(db, i, missed, env, row.amount, 1, MoneyOverflow, Some(t));
          HaltFails(db, row, env, MoneyOverflow);
        } else if row.amount <= balance {
          Carried(db, i, missed, env, -row.amount, 1, MoneyOverflow, Some(t));
          MoveProcesses(db, row, env, Debit, Some(t));
        } else {
          Carried(db, i, missed, env, 0, 0, RollbackInsufficientBalance, Some(t));
          RefuseRejects(db, row, env, RollbackInsufficientBalance, Some(t));
        }
    }
  }

  // ---------------------------------------------------------------- opening a wallet

  /** Opening succeeds if and only if the amount is well formed, id and player are named, the id is free and
      no wallet has both this player and this currency; a player may hold one wallet per currency. A positive
      amount enters as an OPENING row, its credit and two events, zero enters as nothing. */
  lemma OpeningDecision(db: Db, w: string, player: string, currency: string, text: string)
    ensures var (db', reply) := Opened(db, w, player, currency, text);
            if !ValidCurrency(currency) || !AmountText(text) || AmountValue(text) > Int64.MAX || w == "" || player == ""
            then db' == db && reply == Correctable(InvalidMoney)
            else if w in db.wallets
                    || exists v :: v in db.wallets
                                   && db.wallets[v].player == player && db.wallets[v].currency == currency
            then db' == db && reply == Conflict
            else
              var m, n := Money(AmountValue(text), currency), |db.txs|;
              && reply == Done(SubmitResult(OutcomeProcessed, n, Some(m), None, 1, false))
              && db'.wallets == db.wallets[w := WalletRow(player, currency, m.minor, 1)]
              && db'.work == db.work && db'.inbox == db.inbox
              && if m.minor == 0 then db'.txs == db.txs && db'.ledger == db.ledger && db'.outbox == db.outbox
                 else
                   && db'.txs == db.txs + [Tx(Internal, w, player, Opening, m.minor, currency, "", None, Processed,
                                              None, Some(m), Some(1), None)]
                   && db'.ledger == db.ledger + [Entry(w, n, Credit, m.minor, currency, 0, m.minor, 1)]
                   && db'.outbox == db.outbox + [ProcessedEvent(n, w, Party(Opening, "", "", player), m, m.minor, 1),
                                                 BalanceEvent(n, w, Credit, m, 0, m.minor, 1)]
  {
  }
}
