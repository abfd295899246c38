/**
 Resuming a parked operation once its reference is decided does what submitting the same
 operation at that moment would do, up to the row id (internal/wagering/work.go against
 internal/wagering/accept.go).
 */
module Refinement {
  import opened Wrappers
  import opened Failures
  import opened Money
  import opened Domain
  import opened Tables
  import opened Engine
  import opened Invariant
  import opened Steps
  import C = Canonical

  /** Two rows ask for the same operation: only external id, key, hash and game may differ. */
  predicate SameRequest(a: Tx, b: Tx) {
    OperationOf(a) == OperationOf(b) && a.refExternal == b.refExternal
  }

  /** Two rows ended the same way. */
  predicate SameEnd(a: Tx, b: Tx) {
    && a.state == b.state && a.failure == b.failure && a.result == b.result
    && a.observed == b.observed && a.refTx == b.refTx && a.reversal == b.reversal
  }

  function Swap(id: nat, p: nat, n: nat): nat {
    if id == p then n else id
  }

  function SwapMark(m: Option<Mark>, p: nat, n: nat): Option<Mark> {
    if m.Some? then Some(m.value.(reverser := Swap(m.value.reverser, p, n))) else None
  }

  /** The event told of row `n`, which goes by another external id. */
  function SwapEvent(e: Event, p: nat, n: nat, external: string): Event {
    var swapped := e.(tx := Swap(e.tx, p, n));
    if e.tx != p || e.BalanceEvent? then swapped else swapped.(party := e.party.(external := external))
  }

  function SwapEvents(events: seq<Event>, p: nat, n: nat, external: string): seq<Event> {
    seq(|events|, k requires 0 <= k < |events| => SwapEvent(events[k], p, n, external))
  }

  function SwapEntries(entries: seq<Entry>, p: nat, n: nat): seq<Entry> {
    seq(|entries|, k requires 0 <= k < |entries| => entries[k].(tx := Swap(entries[k].tx, p, n)))
  }

  /** Outside `p` and the new row, the rows differ only in which of the two a mark names. */
  ghost predicate RowsMirror(txs: seq<Tx>, resumed: seq<Tx>, p: nat, inline: seq<Tx>) {
    var n := |txs|;
    && p < n == |resumed| && |inline| == n + 1
    && inline[p] == txs[p]
    && forall i :: 0 <= i < n && i != p ==>
         inline[i] == resumed[i].(reversal := SwapMark(resumed[i].reversal, p, n))
  }

  /** `resumed` settled row `p` the way `inline` settled the new row `n`; both started from `db`. */
  ghost predicate Mirrors(db: Db, resumed: Db, p: nat, inline: Db, n: nat) {
    && p < n == |db.txs|
    && RowsMirror(db.txs, resumed.txs, p, inline.txs)
    && SameEnd(resumed.txs[p], inline.txs[n])
    && inline.wallets == resumed.wallets
    && |db.ledger| <= |resumed.ledger| && resumed.ledger[..|db.ledger|] == db.ledger
    && inline.ledger == db.ledger + SwapEntries(resumed.ledger[|db.ledger|..], p, n)
    && |db.outbox| <= |resumed.outbox| && resumed.outbox[..|db.outbox|] == db.outbox
    && inline.outbox == db.outbox + SwapEvents(resumed.outbox[|db.outbox|..], p, n, PartyOf(inline.txs[n]).external)
    && inline.inbox == resumed.inbox == db.inbox
    && resumed.work == db.work - {p} && inline.work == db.work
  }

  /** No mark names a row that is still waiting. */
  lemma WaitingReversesNothing(txs: seq<Tx>, p: nat)
    requires MarksExact(txs) && p < |txs| && IsWaiting(txs[p].state)
    ensures forall i :: 0 <= i < |txs| ==> SwapMark(txs[i].reversal, p, |txs|) == txs[i].reversal
  {
  }

  lemma RefusalsMirror(db: Db, p: nat, row: Tx, code: Code, ref: Option<nat>)
    requires p < |db.txs| && row.wallet in db.wallets && |db.txs| !in db.work
    requires SameRequest(row, db.txs[p]) && row.state == Pending && db.txs[p].state == PendingReference
    requires SameEnd(row.(state := PendingReference), db.txs[p]) && MarksExact(db.txs)
    ensures var n := |db.txs|;
            Mirrors(db, Refused(db, p, db.txs[p], code, ref), p, Refused(Added(db, row), n, row, code, ref), n)
  {
    WaitingReversesNothing(db.txs, p);
  }

  lemma MarksMirror(txs: seq<Tx>, p: nat, done: Tx, added: Tx, kind: Kind, t: nat)
    requires p < |txs| && t < |txs| && t != p && IsWaiting(txs[p].state) && MarksExact(txs)
    requires txs[t].refTx.Some? ==> txs[t].refTx.value < |txs| && txs[t].refTx.value != p
    ensures var inline, resumed := Reversing(txs + [added], kind, t, |txs|), Reversing(txs[p := done], kind, t, p);
            RowsMirror(txs, resumed, p, inline) && inline[|txs|] == added && resumed[p] == done
  {
    WaitingReversesNothing(txs, p);
  }

  lemma PlainMirror(txs: seq<Tx>, p: nat, done: Tx, added: Tx)
    requires p < |txs| && IsWaiting(txs[p].state) && MarksExact(txs)
    ensures RowsMirror(txs, txs[p := done], p, txs + [added])
  {
    WaitingReversesNothing(txs, p);
  }

  /** A waiting row is nobody's resolved reference. */
  lemma WaitingIsNoReference(txs: seq<Tx>, p: nat, t: nat)
    requires RefsOk(txs) && p < |txs| && IsWaiting(txs[p].state) && t < |txs| && txs[t].state == Processed
    ensures txs[t].refTx.Some? ==> txs[t].refTx.value < |txs| && txs[t].refTx.value != p
  {
    assert RefOk(txs, txs[t]);
  }

  lemma MovedRowsMirror(db: Db, p: nat, row: Tx, dir: Direction, t: nat)
    requires p < |db.txs| && row.wallet in db.wallets
    requires SameRequest(row, db.txs[p]) && row.state == Pending && db.txs[p].state == PendingReference
    requires SameEnd(row.(state := PendingReference), db.txs[p]) && MarksExact(db.txs) && RefsOk(db.txs)
    requires t < |db.txs| && db.txs[t].state == Processed
    ensures var n := |db.txs|;
            var resumed, inline := Moved(db, p, db.txs[p], dir, Some(t)).txs,
                                   Moved(Added(db, row), n, row, dir, Some(t)).txs;
            && RowsMirror(db.txs, resumed, p, inline) && SameEnd(resumed[p], inline[n])
            && PartyOf(inline[n]) == PartyOf(row)
  {
    hide MarksExact, RefsOk, Reversing, RowsMirror;
    var n, rec := |db.txs|, db.txs[p];
    var w := db.wallets[row.wallet];
    var end := rec.(state := Processed, result := Some(Money(After(w.balance, dir, rec.amount), w.currency)),
                    observed := Some(w.version + 1), refTx := Some(t));
    var added := row.(state := end.state, result := end.result, observed := end.observed, refTx := end.refTx);
    assert (db.txs + [row])[n := Overwrite(row, added)] == db.txs + [added];
    WaitingIsNoReference(db.txs, p, t);
    MarksMirror(db.txs, p, end, added, rec.kind, t);
    PlainMirror(db.txs, p, end, added);
  }

  lemma MovementsMirror(db: Db, p: nat, row: Tx, dir: Direction, t: nat)
    requires p < |db.txs| && row.wallet in db.wallets && |db.txs| !in db.work
    requires SameRequest(row, db.txs[p]) && row.state == Pending && db.txs[p].state == PendingReference
    requires SameEnd(row.(state := PendingReference), db.txs[p]) && MarksExact(db.txs) && RefsOk(db.txs)
    requires t < |db.txs| && db.txs[t].state == Processed
    ensures var n := |db.txs|;
            Mirrors(db, Moved(db, p, db.txs[p], dir, Some(t)), p, Moved(Added(db, row), n, row, dir, Some(t)), n)
  {
    hide MarksExact, RefsOk, Reversing, RowsMirror, SameEnd, Overwrite;
    MovedRowsMirror(db, p, row, dir, t);
    assert Moved(Added(db, row), |db.txs|, row, dir, Some(t)).work == db.work;
  }

  /** Ids are not reused, so a fresh row has no work item. */
  lemma FreshHasNoWork(db: Db)
    requires Inv(db)
    ensures |db.txs| !in db.work && MarksExact(db.txs) && RefsOk(db.txs)
  {
    assert WorkOk(db.txs, db.work);
  }

  /** The reply to an inline submission says what a settled row says. */
  predicate Answers(reply: Reply, row: Tx) {
    && reply.Done?
    && reply.result.balance == row.result && reply.result.failure == row.failure
    && Some(reply.result.version) == row.observed
    && reply.result.outcome == if row.state == Processed then OutcomeProcessed else OutcomeRejected
  }

  lemma RefusedInline(db: Db, p: nat, row: Tx, code: Code, ref: Option<nat>, env: Env)
    requires p < |db.txs| && row.wallet in db.wallets && Rehydrates(db.wallets[row.wallet])
    requires SameRequest(row, db.txs[p])
    requires Judge(db, OperationOf(row), row.refExternal) == Refuse(code, ref)
    ensures Applied(db, row, env).0 == Refused(Added(db, row), |db.txs|, row, code, ref)
    ensures Answers(Applied(db, row, env).1, Refused(db, p, db.txs[p], code, ref).txs[p])
  {
  }

  lemma MovedInline(db: Db, p: nat, row: Tx, dir: Direction, t: nat, env: Env)
    requires p < |db.txs| && t < |db.txs| && row.wallet in db.wallets && Rehydrates(db.wallets[row.wallet])
    requires SameRequest(row, db.txs[p]) && db.txs[p].failure.None? && !HasEntry(db.ledger, row.wallet, |db.txs|)
    requires Judge(db, OperationOf(row), row.refExternal) == Move(dir, Some(t))
    ensures Applied(db, row, env).0 == Moved(Added(db, row), |db.txs|, row, dir, Some(t))
    ensures Answers(Applied(db, row, env).1, Moved(db, p, db.txs[p], dir, Some(t)).txs[p])
  {
    hide Judge, HasEntry;
  }

  /** From the same database, with the reference decided, resuming and submitting inline reach mirrored
      databases and the same answer; the one error, a credit overflow, stops both. */
  lemma ResumeRefinesInline(db: Db, p: nat, row: Tx, t: nat, env: Env, env': Env)
    requires Inv(db) && p < |db.txs| && db.txs[p].state == PendingReference
    requires SameRequest(row, db.txs[p]) && row.state == Pending && SameEnd(row.(state := PendingReference), db.txs[p])
    requires FindByProviderExternal(db.txs, Provider(row), row.refExternal) == Some(t) && IsTerminal(db.txs[t].state)
    ensures row.wallet in db.wallets
    ensures var inline, reply := Applied(db, row, env').0, Applied(db, row, env').1;
            match Resumed(db, p, db.txs[p], env)
            case Settled(resumed) => Mirrors(db, resumed, p, inline, |db.txs|) && Answers(reply, resumed.txs[p])
            case Stuck(code) => code == MoneyOverflow && inline == db && reply == Fault(MoneyOverflow)
            case Retried(_) => false
  {
    hide Inv, Moved, Refused, JudgeAgainst, HasEntry, Mirrors, Answers, Applied;
    SettledParts(db, p);
    FreshHasNoWork(db);
    if db.txs[t].state == Processed {
      AgainstNeverHalts(db, t, db.txs[p]);
      AgainstNamesTarget(db, OperationOf(row), t);
      match JudgeAgainst(db, OperationOf(row), t) {
        case Refuse(code, ref) => RefusalsMirror(db, p, row, code, ref); RefusedInline(db, p, row, code, ref, env');
        case Move(dir, ref) =>
          NewIdIsFree(db, row.wallet);
          MovementsMirror(db, p, row, dir, t);
          MovedInline(db, p, row, dir, t, env');
        case Halt(code) => HaltedInline(db, row, code, env');
      }
    } else {
      RefusalsMirror(db, p, row, ReferenceNotProcessed, Some(t));
      RefusedInline(db, p, row, ReferenceNotProcessed, Some(t), env');
    }
  }

  lemma HaltedInline(db: Db, row: Tx, code: Code, env: Env)
    requires row.wallet in db.wallets && Rehydrates(db.wallets[row.wallet])
    requires Judge(db, OperationOf(row), row.refExternal) == Halt(code)
    ensures Applied(db, row, env) == (db, Fault(code))
  {
    hide Judge;
  }

  lemma SettledParts(db: Db, p: nat)
    requires Inv(db) && p < |db.txs| && db.txs[p].state == PendingReference
    ensures RowOk(db.wallets, db.txs[p]) && Rehydrates(db.wallets[db.txs[p].wallet])
    ensures !HasEntry(db.ledger, db.txs[p].wallet, p)
  {
    CoreRow(db, p);
    WaitingHasNoEntry(db.txs, db.ledger, p, db.txs[p].wallet);
  }

  lemma NewIdIsFree(db: Db, w: string)
    requires Inv(db)
    ensures !HasEntry(db.ledger, w, |db.txs|)
  {
    NewIdHasNoEntry(db, w);
  }

  lemma AgainstNamesTarget(db: Db, op: Operation, t: nat)
    requires op.wallet in db.wallets && t < |db.txs|
    ensures var v := JudgeAgainst(db, op, t); v.Refuse? || v.Move? ==> v.ref == Some(t)
  {
  }

  /** An HTTP submission of the parked operation under new identifiers reaches Applied with its row. */
  lemma SubmittedIsApplied(db: Db, i: SubmitInput, m: Money, missed: bool, env: Env)
    requires Prepared(i) == Ok(m) && i.messageId == ""
    requires i.wallet in db.wallets && i.player == db.wallets[i.wallet].player
    requires i.currency == db.wallets[i.wallet].currency
    requires FindByProviderKey(db.txs, i.provider, i.key).None?
    requires FindByProviderExternal(db.txs, i.provider, i.external).None?
    ensures var row := NewRow(i, m, C.PayloadHash(BusinessOf(i)));
            var inline := Applied(db, row, env);
            Submitted(db, i, missed, env) == if inline.1.Done? then inline else (db, inline.1)
  {
    hide C.PayloadHash, Applied;
  }

  /** Resuming a parked operation against sending it again, now, under fresh identifiers. */
  lemma ResumeRefinesSubmit(db: Db, p: nat, i: SubmitInput, t: nat, missed: bool, env: Env, env': Env)
    requires Inv(db) && p < |db.txs| && db.txs[p].state == PendingReference
    requires Prepared(i).Ok? && i.messageId == ""
    requires SameRequest(NewRow(i, Prepared(i).value, C.PayloadHash(BusinessOf(i))), db.txs[p])
    requires FindByProviderKey(db.txs, i.provider, i.key).None?
    requires FindByProviderExternal(db.txs, i.provider, i.external).None?
    requires FindByProviderExternal(db.txs, i.provider, i.refExternal) == Some(t) && IsTerminal(db.txs[t].state)
    ensures var inline, reply := Submitted(db, i, missed, env').0, Submitted(db, i, missed, env').1;
            match Resumed(db, p, db.txs[p], env)
            case Settled(resumed) => Mirrors(db, resumed, p, inline, |db.txs|) && Answers(reply, resumed.txs[p])
            case Stuck(code) => code == MoneyOverflow && inline == db && reply == Fault(MoneyOverflow)
            case Retried(_) => false
  {
    hide Inv, Mirrors, Resumed, Applied, C.PayloadHash, Submitted;
    var m := Prepared(i).value;
    var row := NewRow(i, m, C.PayloadHash(BusinessOf(i)));
    SettledParts(db, p);
    ResumeRefinesInline(db, p, row, t, env, env');
    SubmittedIsApplied(db, i, m, missed, env');
  }
}
