/**
 The finer model: a resume works from a copy of its row read before it took the wallet lock
 (internal/wagering/work.go), and other transactions may have decided the row in between.
 The ledger's unique constraint still keeps one entry per transaction and every balance equal
 to its ledger; the row's own outcome can be overturned, and LateOverturnsIff says exactly
 when, in every run.
 */
module Races {
  import opened Wrappers
  import opened Failures
  import opened Money
  import opened Domain
  import opened Tables
  import opened Engine
  import opened Invariant
  import opened Sums
  import opened Settling
  import opened Opening
  import opened Steps
  import S = Settlement
  import C = Canonical
  import Int64

  // ---------------------------------------------------------------- late transactions

  /** processWorkItem from the copy `rec` of row `id`; a unique violation aborts the transaction. */
  function Late(db: Db, id: nat, rec: Tx, item: Work, env: Env): Db
    requires id < |db.txs|
  {
    if IsTerminal(rec.state) then db.(work := db.work - {id})
    else
      match Resumed(db, id, rec, env)
      case Settled(db') => db'
      case Retried(db') => db'
      case Stuck(code) => if code == UniqueViolation then db else NotedInfra(db, id, item, env)
  }

  /** ReevaluateDependents over copies read from `past`; None when a statement aborted it. */
  function LateBatch(db: Db, past: Db, ids: seq<nat>, env: Env): Option<Db>
    decreases |ids|
  {
    if ids == [] then Some(db)
    else
      var id := ids[0];
      if id >= |db.txs| || id >= |past.txs| || past.txs[id].state != PendingReference
      then LateBatch(db, past, ids[1..], env)
      else
        match Resumed(db, id, past.txs[id], env)
        case Settled(db') => LateBatch(db', past, ids[1..], env)
        case Retried(db') => LateBatch(db', past, ids[1..], env)
        case Stuck(code) => if code == UniqueViolation then None else LateBatch(db, past, ids[1..], env)
  }

  function LateReevaluated(db: Db, past: Db, ids: seq<nat>, env: Env): Db {
    var r := LateBatch(db, past, ids, env);
    if r.Some? then r.value else db
  }

  /** `readAt` counts the transactions that had committed when the copies were read. */
  datatype FineStep =
    | Serial(step: Step)
    | LateResume(id: nat, readAt: nat, item: Work, env: Env)
    | LateReevaluate(ids: seq<nat>, readAt: nat, env: Env)

  ghost function FineNext(db: Db, past: Db, s: FineStep): Db {
    match s
    case Serial(Reevaluate(ids, env)) => LateReevaluated(db, db, ids, env)
    case Serial(step) => Next(db, step)
    case LateResume(id, _, item, env) =>
      if id < |db.txs| && id < |past.txs| then Late(db, id, past.txs[id], item, env) else db
    case LateReevaluate(ids, _, env) => LateReevaluated(db, past, ids, env)
  }

  function ReadAt(s: FineStep, n: nat): (k: nat)
    ensures k <= n
  {
    if s.Serial? || s.readAt > n then n else s.readAt
  }

  ghost function FineRun(steps: seq<FineStep>): Db
    decreases |steps|
  {
    if steps == [] then EMPTY
    else
      var n := |steps| - 1;
      FineNext(FineRun(steps[..n]), FineRun(steps[..ReadAt(steps[n], n)]), steps[n])
  }

  // ---------------------------------------------------------------- what survives

  /** Every ledger entry has its own transaction, of the same wallet. */
  ghost predicate OneEntryEach(wallets: map<string, WalletRow>, txs: seq<Tx>, ledger: seq<Entry>) {
    && (forall k :: 0 <= k < |ledger| ==>
          ledger[k].wallet in wallets && ledger[k].tx < |txs| && ledger[k].wallet == txs[ledger[k].tx].wallet)
    && (forall t: nat :: EntryCount(ledger, t) <= 1)
  }

  /** Only decided rows have a resolved reference, and it is a decided row. */
  ghost predicate Resolved(txs: seq<Tx>) {
    forall i :: 0 <= i < |txs| && txs[i].refTx.Some? ==>
      IsTerminal(txs[i].state) && txs[i].refTx.value < |txs| && IsTerminal(txs[txs[i].refTx.value].state)
  }

  /** Rows belong to wallets, work items to parked rows, and a row that moved money has its entry. */
  ghost predicate Tidy(db: Db) {
    && (forall i :: 0 <= i < |db.txs| ==> db.txs[i].wallet in db.wallets && ValidCurrency(db.txs[i].currency))
    && (forall id: nat :: id in db.work ==> id < |db.txs| && db.txs[id].state == PendingReference)
    && (forall i :: 0 <= i < |db.txs| && Moves(db.txs[i]) ==> HasEntry(db.ledger, db.txs[i].wallet, i))
  }

  ghost predicate Sound(db: Db) {
    && WalletsOk(db.wallets)
    && ChainsOk(db.wallets, db.ledger)
    && OneEntryEach(db.wallets, db.txs, db.ledger)
    && BalanceEvents(db.outbox) == Announcements(db.ledger)
    && Resolved(db.txs)
    && Tidy(db)
  }

  /** Inputs stay, and a row that is still waiting was never touched. */
  ghost predicate Later(t: Tx, t': Tx) {
    Identity(t') == Identity(t) && (IsWaiting(t'.state) ==> t' == t)
  }

  ghost predicate AllLater(txs: seq<Tx>, txs': seq<Tx>) {
    |txs| <= |txs'| && forall i :: 0 <= i < |txs| ==> Later(txs[i], txs'[i])
  }

  lemma AllLaterTransitive(a: seq<Tx>, b: seq<Tx>, c: seq<Tx>)
    requires AllLater(a, b) && AllLater(b, c)
    ensures AllLater(a, c)
  {
    assert forall i :: 0 <= i < |a| ==> Later(a[i], b[i]) && Later(b[i], c[i]);
  }

  lemma SameWallets(txs: seq<Tx>, txs': seq<Tx>)
    requires AllLater(txs, txs')
    ensures |txs| <= |txs'| && forall i :: 0 <= i < |txs| ==> txs'[i].wallet == txs[i].wallet
  {
    forall i | 0 <= i < |txs|
      ensures txs'[i].wallet == txs[i].wallet
    {
      assert Later(txs[i], txs'[i]);
      assert Identity(txs'[i]).wallet == Identity(txs[i]).wallet;
    }
  }

  /** A transaction that moves no money. */
  ghost predicate Idle(db: Db, db': Db) {
    && db'.wallets == db.wallets && db'.ledger == db.ledger
    && BalanceEvents(db'.outbox) == BalanceEvents(db.outbox)
    && AllLater(db.txs, db'.txs) && Resolved(db'.txs) && Tidy(db')
  }

  lemma IdleKeepsSound(db: Db, db': Db)
    requires Sound(db) && Idle(db, db')
    ensures Sound(db')
  {
    SameWallets(db.txs, db'.txs);
  }

  lemma RewriteIdle(txs: seq<Tx>, id: nat, row: Tx)
    requires Resolved(txs) && id < |txs| && Identity(row) == Identity(txs[id]) && IsTerminal(row.state)
    requires row.refTx.Some? ==> row.refTx.value < |txs| && IsTerminal(txs[row.refTx.value].state)
    ensures AllLater(txs, txs[id := row]) && Resolved(txs[id := row])
  {
  }

  /** Writing a refusal, from whatever copy, moves no money. */
  lemma RefusedIsIdle(db: Db, id: nat, rec: Tx, code: Code, ref: Option<nat>)
    requires Resolved(db.txs) && Tidy(db) && id < |db.txs| && rec.wallet in db.wallets && rec.refTx.None?
    requires ref.Some? ==> ref.value < |db.txs| && IsTerminal(db.txs[ref.value].state)
    ensures Idle(db, Refused(db, id, rec, code, ref))
  {
    var db' := Refused(db, id, rec, code, ref);
    OutboxAppend(db.outbox, db'.outbox[|db.outbox|], 0);
    RewriteIdle(db.txs, id, db'.txs[id]);
  }

  lemma NotedIsIdle(db: Db, id: nat, item: Work, env: Env)
    requires Resolved(db.txs) && Tidy(db) && id < |db.txs|
    ensures Idle(db, NotedInfra(db, id, item, env))
  {
    if item.infraAttempts + 1 >= MAX_INFRA_ATTEMPTS {
      RewriteIdle(db.txs, id, db.txs[id].(state := Failed, failure := Some(InfraExhausted)));
    }
  }

  lemma TouchedIsIdle(db: Db, id: nat, refAttempts: nat, infraAttempts: nat, nextAt: int, clear: bool)
    requires Resolved(db.txs) && Tidy(db)
    ensures Idle(db, Touched(db, id, refAttempts, infraAttempts, nextAt, clear))
  {
  }

  // ---------------------------------------------------------------- a movement from a copy

  lemma MarkLater(txs: seq<Tx>, t: nat, reversal: Option<Mark>)
    requires Resolved(txs) && t < |txs| && IsTerminal(txs[t].state)
    ensures var txs' := txs[t := txs[t].(reversal := reversal)]; AllLater(txs, txs') && Resolved(txs')
  {
  }

  /** Marks and slots are written on decided rows only. */
  lemma ReversingLater(txs: seq<Tx>, kind: Kind, t: nat, id: nat)
    requires Resolved(txs) && t < |txs| && IsTerminal(txs[t].state)
    ensures AllLater(txs, Reversing(txs, kind, t, id)) && Resolved(Reversing(txs, kind, t, id))
  {
    hide AllLater;
    var marked, freed := MarkReversed(txs, t, kind, id), txs[t].refTx;
    MarkLater(txs, t, Some(Mark(kind, id)));
    if freed.Some? {
      MarkLater(marked, freed.value, None);
      AllLaterTransitive(txs, marked, ClearReversal(marked, freed.value));
    }
  }

  lemma MovedRowsLater(db: Db, id: nat, rec: Tx, dir: Direction, ref: Option<nat>)
    requires Resolved(db.txs) && id < |db.txs| && rec.wallet in db.wallets && rec.refTx.None?
    requires ref.Some? ==> ref.value < |db.txs| && IsTerminal(db.txs[ref.value].state)
    ensures AllLater(db.txs, Moved(db, id, rec, dir, ref).txs) && Resolved(Moved(db, id, rec, dir, ref).txs)
  {
    hide Reversing, AllLater, Resolved;
    var w := db.wallets[rec.wallet];
    var row := Overwrite(db.txs[id],
                         rec.(state := Processed, result := Some(Money(After(w.balance, dir, rec.amount), w.currency)),
                              observed := Some(w.version + 1), refTx := ref));
    RewriteIdle(db.txs, id, row);
    if IsReversal(rec.kind) && ref.Some? {
      ReversingLater(db.txs[id := row], rec.kind, ref.value, id);
      AllLaterTransitive(db.txs, db.txs[id := row], Reversing(db.txs[id := row], rec.kind, ref.value, id));
    }
  }

  lemma AppendKeepsOneEach(wallets: map<string, WalletRow>, txs: seq<Tx>, ledger: seq<Entry>, e: Entry)
    requires OneEntryEach(wallets, txs, ledger) && e.wallet in wallets && e.tx < |txs| && txs[e.tx].wallet == e.wallet
    requires !HasEntry(ledger, e.wallet, e.tx)
    ensures OneEntryEach(wallets, txs, ledger + [e])
  {
    EntryCountZero(ledger, e.tx);
    forall t: nat
      ensures EntryCount(ledger + [e], t) <= 1
    {
      EntryCountAppend(ledger, e, t);
    }
  }

  /** Beside its own row a movement changes reversal columns only. */
  lemma MovedOthers(db: Db, id: nat, rec: Tx, dir: Direction, ref: Option<nat>)
    requires id < |db.txs| && rec.wallet in db.wallets && (ref.Some? ==> ref.value < |db.txs|)
    ensures var txs' := Moved(db, id, rec, dir, ref).txs;
            && |txs'| == |db.txs| && txs'[id].state == Processed
            && Identity(txs'[id]) == Identity(db.txs[id])
            && forall i :: 0 <= i < |db.txs| && i != id ==> txs'[i] == db.txs[i].(reversal := txs'[i].reversal)
  {
  }

  lemma EntriesStay(ledger: seq<Entry>, e: Entry)
    ensures forall w, t :: HasEntry(ledger, w, t) ==> HasEntry(ledger + [e], w, t)
    ensures HasEntry(ledger + [e], e.wallet, e.tx)
  {
    forall w, t | HasEntry(ledger, w, t)
      ensures HasEntry(ledger + [e], w, t)
    {
      var k :| 0 <= k < |ledger| && ledger[k].wallet == w && ledger[k].tx == t;
      assert (ledger + [e])[k] == ledger[k];
    }
    assert (ledger + [e])[|ledger|] == e;
  }

  lemma MovedIsTidy(db: Db, id: nat, rec: Tx, dir: Direction, ref: Option<nat>)
    requires Tidy(db) && id < |db.txs| && rec.wallet in db.wallets && db.txs[id].wallet == rec.wallet
    requires ref.Some? ==> ref.value < |db.txs|
    ensures Tidy(Moved(db, id, rec, dir, ref))
  {
    hide HasEntry, Reversing, Overwrite;
    var db' := Moved(db, id, rec, dir, ref);
    MovedOthers(db, id, rec, dir, ref);
    EntriesStay(db.ledger, db'.ledger[|db.ledger|]);
    assert Identity(db'.txs[id]).wallet == Identity(db.txs[id]).wallet;
    assert Identity(db'.txs[id]).currency == Identity(db.txs[id]).currency;
  }

  /** A movement that passes the unique constraint keeps the money sound, even from a copy. */
  lemma MovedKeepsSound(db: Db, id: nat, rec: Tx, dir: Direction, ref: Option<nat>)
    requires Sound(db) && id < |db.txs| && rec.wallet in db.wallets && rec.refTx.None?
    requires db.txs[id].wallet == rec.wallet
    requires ref.Some? ==> ref.value < |db.txs| && IsTerminal(db.txs[ref.value].state)
    requires rec.amount > 0 && Affordable(db.wallets, rec, dir) && !HasEntry(db.ledger, rec.wallet, id)
    ensures Sound(Moved(db, id, rec, dir, ref)) && AllLater(db.txs, Moved(db, id, rec, dir, ref).txs)
  {
    hide ChainsOk, AllLater, Resolved, Reversing, Tidy;
    MovedIsTidy(db, id, rec, dir, ref);
    var db' := Moved(db, id, rec, dir, ref);
    var e, n := db'.ledger[|db.ledger|], |db.outbox|;
    assert db'.ledger == db.ledger + [e] && db'.outbox == db.outbox + [db'.outbox[n], Announcement(e)];
    AppendKeepsChains(db.wallets, db.ledger, e);
    MovedWallets(db.wallets, rec.wallet, e.after, e.version);
    MovedRowsLater(db, id, rec, dir, ref);
    SameWallets(db.txs, db'.txs);
    AppendKeepsOneEach(db.wallets, db.txs, db.ledger, e);
    OutboxAppendTwo(db.outbox, db'.outbox[n], Announcement(e), 0);
    AnnouncementsAppend(db.ledger, e);
  }

  // ---------------------------------------------------------------- each transaction

  /** A verdict that moves money names a sum the wallet bears and a processed reference. */
  lemma AgainstMoves(db: Db, op: Operation, t: nat, dir: Direction, ref: Option<nat>)
    requires WalletsOk(db.wallets) && op.wallet in db.wallets && t < |db.txs|
    requires JudgeAgainst(db, op, t) == Move(dir, ref)
    ensures ref == Some(t) && op.amount.minor > 0 && op.amount.currency == db.wallets[op.wallet].currency
    ensures 0 <= After(db.wallets[op.wallet].balance, dir, op.amount.minor) <= Int64.MAX
  {
  }

  lemma AgainstRefuses(db: Db, op: Operation, t: nat, code: Code, ref: Option<nat>)
    requires op.wallet in db.wallets && t < |db.txs| && JudgeAgainst(db, op, t) == Refuse(code, ref)
    ensures ref == Some(t)
  {
  }

  lemma JudgeMoves(db: Db, op: Operation, reference: string, dir: Direction, ref: Option<nat>)
    requires WalletsOk(db.wallets) && op.wallet in db.wallets && Judge(db, op, reference) == Move(dir, ref)
    ensures op.amount.minor > 0 && op.amount.currency == db.wallets[op.wallet].currency
    ensures 0 <= After(db.wallets[op.wallet].balance, dir, op.amount.minor) <= Int64.MAX
    ensures ref.Some? ==> ref.value < |db.txs| && db.txs[ref.value].state == Processed
  {
    hide JudgeAgainst;
    if !(op.kind == Bet || (op.kind == Win && reference == "")) {
      AgainstMoves(db, op, FindByProviderExternal(db.txs, op.provider, reference).value, dir, ref);
    }
  }

  lemma JudgeRefuses(db: Db, op: Operation, reference: string, code: Code, ref: Option<nat>)
    requires op.wallet in db.wallets && Judge(db, op, reference) == Refuse(code, ref)
    ensures ref.Some? ==> ref.value < |db.txs| && IsTerminal(db.txs[ref.value].state)
  {
    hide JudgeAgainst;
    var found := FindByProviderExternal(db.txs, op.provider, reference);
    if found.Some? && db.txs[found.value].state == Processed && ref.Some? {
      AgainstRefuses(db, op, found.value, code, ref);
    }
  }

  /** A copy of a row that was parked when it was read. */
  ghost predicate Copy(txs: seq<Tx>, id: nat, rec: Tx) {
    id < |txs| && Identity(rec) == Identity(txs[id]) && (!IsTerminal(rec.state) ==> rec.refTx.None?)
  }

  lemma ResumedKeepsSound(db: Db, id: nat, rec: Tx, env: Env)
    requires Sound(db) && Copy(db.txs, id, rec) && !IsTerminal(rec.state)
    ensures var r := Resumed(db, id, rec, env); !r.Stuck? ==> Sound(r.db) && AllLater(db.txs, r.db.txs)
  {
    hide Sound, Moved, Refused, Touched, JudgeAgainst, HasEntry, AllLater, Idle;
    assert Identity(rec).wallet == Identity(db.txs[id]).wallet;
    SoundParts(db);
    var found := FindByProviderExternal(db.txs, Provider(rec), rec.refExternal);
    var attempts := if id in db.work then db.work[id].refAttempts else 0;
    var r := Resumed(db, id, rec, env);
    if r.Retried? {
      TouchedIsIdle(db, id, attempts + 1, 0, env.now + env.jitter, true);
      IdleGives(db, r.db);
    } else if r.Settled? {
      if found.Some? && db.txs[found.value].state == Processed {
        match JudgeAgainst(db, OperationOf(rec), found.value) {
          case Refuse(code, ref) =>
            AgainstRefuses(db, OperationOf(rec), found.value, code, ref);
            RefusedIsIdle(db, id, rec, code, ref);
            IdleGives(db, r.db);
          case Move(dir, ref) =>
            AgainstMoves(db, OperationOf(rec), found.value, dir, ref);
            MovedKeepsSound(db, id, rec, dir, ref);
          case _ =>
        }
      } else {
        RefusedIsIdle(db, id, rec, if found.None? then ReferenceNotFound else ReferenceNotProcessed, found);
        IdleGives(db, r.db);
      }
    }
  }

  lemma SoundParts(db: Db)
    requires Sound(db)
    ensures WalletsOk(db.wallets) && Resolved(db.txs) && Tidy(db)
  {
  }

  lemma IdleGives(db: Db, db': Db)
    requires Sound(db) && Idle(db, db')
    ensures Sound(db') && AllLater(db.txs, db'.txs)
  {
    IdleKeepsSound(db, db');
  }

  lemma LateKeepsSound(db: Db, id: nat, rec: Tx, item: Work, env: Env)
    requires Sound(db) && Copy(db.txs, id, rec)
    ensures Sound(Late(db, id, rec, item, env)) && AllLater(db.txs, Late(db, id, rec, item, env).txs)
  {
    hide Sound, Resumed, NotedInfra, Idle;
    SoundParts(db);
    if IsTerminal(rec.state) {
      DroppedIsIdle(db, id);
      IdleGives(db, db.(work := db.work - {id}));
    } else {
      ResumedKeepsSound(db, id, rec, env);
      NotedIsIdle(db, id, item, env);
      IdleGives(db, NotedInfra(db, id, item, env));
    }
  }

  lemma DroppedIsIdle(db: Db, id: nat)
    requires Resolved(db.txs) && Tidy(db)
    ensures Idle(db, db.(work := db.work - {id}))
  {
  }

  lemma {:induction false} BatchKeepsSound(db: Db, past: Db, ids: seq<nat>, env: Env)
    requires Sound(db) && AllLater(past.txs, db.txs) && Resolved(past.txs)
    ensures var r := LateBatch(db, past, ids, env); r.Some? ==> Sound(r.value) && AllLater(db.txs, r.value.txs)
    decreases |ids|
  {
    hide Sound, Resumed;
    if ids != [] {
      var id := ids[0];
      var mid := db;
      if id < |db.txs| && id < |past.txs| && past.txs[id].state == PendingReference {
        var rec := past.txs[id];
        assert Later(rec, db.txs[id]);
        ResumedKeepsSound(db, id, rec, env);
        var r := Resumed(db, id, rec, env);
        if !r.Stuck? {
          mid := r.db;
          AllLaterTransitive(past.txs, db.txs, mid.txs);
        }
      }
      BatchKeepsSound(mid, past, ids[1..], env);
      if LateBatch(mid, past, ids[1..], env).Some? {
        AllLaterTransitive(db.txs, mid.txs, LateBatch(mid, past, ids[1..], env).value.txs);
      }
    }
  }

  lemma ReevaluatedKeepsSound(db: Db, past: Db, ids: seq<nat>, env: Env)
    requires Sound(db) && AllLater(past.txs, db.txs) && Resolved(past.txs)
    ensures var db' := LateReevaluated(db, past, ids, env); Sound(db') && AllLater(db.txs, db'.txs)
  {
    BatchKeepsSound(db, past, ids, env);
  }

  lemma AddedIsIdle(db: Db, row: Tx)
    requires Resolved(db.txs) && Tidy(db) && row.refTx.None? && row.state == Pending
    requires row.wallet in db.wallets && ValidCurrency(row.currency)
    ensures Idle(db, Added(db, row))
  {
  }

  /** A new row without movement, and a work item for it if it is parked. */
  lemma NewRowIsTidy(db: Db, db': Db, row: Tx)
    requires Tidy(db) && db'.txs == db.txs + [row] && db'.wallets == db.wallets && db'.ledger == db.ledger
    requires row.wallet in db.wallets && ValidCurrency(row.currency) && !Moves(row)
    requires db'.work == db.work || (row.state == PendingReference && db'.work.Keys == db.work.Keys + {|db.txs|})
    ensures Tidy(db')
  {
    hide HasEntry, ValidCurrency;
  }

  lemma ParkedIsIdle(db: Db, row: Tx, env: Env)
    requires Resolved(db.txs) && Tidy(db) && row.refTx.None? && row.wallet in db.wallets && ValidCurrency(row.currency)
    ensures Idle(db, Parked(Added(db, row), |db.txs|, row, env))
  {
    hide HasEntry, ValidCurrency, Tidy;
    var db' := Parked(Added(db, row), |db.txs|, row, env);
    assert db'.txs == db.txs + [db'.txs[|db.txs|]];
    NewRowIsTidy(db, db', db'.txs[|db.txs|]);
    OutboxAppend(db.outbox, db'.outbox[|db.outbox|], 0);
  }

  lemma StilledIsIdle(db: Db, row: Tx)
    requires Resolved(db.txs) && Tidy(db) && row.refTx.None? && row.wallet in db.wallets && ValidCurrency(row.currency)
    requires row.kind == Loss
    ensures Idle(db, Stilled(Added(db, row), |db.txs|, row))
  {
    hide HasEntry, ValidCurrency, Tidy;
    var db' := Stilled(Added(db, row), |db.txs|, row);
    assert db'.txs == db.txs + [db'.txs[|db.txs|]];
    NewRowIsTidy(db, db', db'.txs[|db.txs|]);
    OutboxAppend(db.outbox, db'.outbox[|db.outbox|], 0);
  }

  lemma AppliedKeepsSound(db: Db, row: Tx, env: Env)
    requires Sound(db) && row.wallet in db.wallets && row.refTx.None? && row.state == Pending
    requires ValidCurrency(row.currency)
    ensures var db' := Applied(db, row, env).0; Sound(db') && AllLater(db.txs, db'.txs)
  {
    hide Sound, Moved, Refused, Stilled, Parked, Judge, HasEntry, Idle, Resolved, Tidy;
    JudgeByKind(db, row);
    var db1, id, op := Added(db, row), |db.txs|, OperationOf(row);
    SoundParts(db);
    AddedIsIdle(db, row);
    IdleGives(db, db1);
    SoundParts(db1);
    match Judge(db, op, row.refExternal) {
      case Park => ParkedIsIdle(db, row, env); IdleGives(db, Parked(db1, id, row, env));
      case Still => StilledIsIdle(db, row); IdleGives(db, Stilled(db1, id, row));
      case Refuse(code, ref) =>
        JudgeRefuses(db, op, row.refExternal, code, ref);
        RefusedIsIdle(db1, id, row, code, ref);
        IdleGives(db1, Refused(db1, id, row, code, ref));
        AllLaterTransitive(db.txs, db1.txs, Refused(db1, id, row, code, ref).txs);
      case Move(dir, ref) =>
        JudgeMoves(db, op, row.refExternal, dir, ref);
        if !HasEntry(db.ledger, row.wallet, id) {
          MovedKeepsSound(db1, id, row, dir, ref);
          AllLaterTransitive(db.txs, db1.txs, Moved(db1, id, row, dir, ref).txs);
        }
      case Halt(_) =>
    }
  }

  lemma InboxIsIdle(db: Db, inbox: map<(string, string), string>)
    requires Sound(db)
    ensures Sound(db.(inbox := inbox))
  {
  }

  lemma SubmittedKeepsSound(db: Db, i: SubmitInput, missed: bool, env: Env)
    requires Sound(db)
    ensures var db' := Submitted(db, i, missed, env).0; Sound(db') && AllLater(db.txs, db'.txs)
  {
    hide Sound, Applied, C.PayloadHash, ValidCurrency;
    if Submitted(db, i, missed, env).0 != db {
      var hash, m := C.PayloadHash(BusinessOf(i)), Prepared(i).value;
      var row := NewRow(i, m, hash);
      AppliedKeepsSound(db, row, env);
      InboxIsIdle(Applied(db, row, env).0, db.inbox[(i.consumer, i.messageId) := hash]);
    }
  }

  lemma OpenedWalletSound(db: Db, w: string, row: WalletRow, more: seq<Entry>)
    requires Sound(db) && w !in db.wallets && w != "" && row.version == 1 && ValidCurrency(row.currency)
    requires 0 <= row.balance <= Int64.MAX
    requires forall v :: v in db.wallets ==>
               db.wallets[v].player != row.player || db.wallets[v].currency != row.currency
    requires more == if row.balance == 0 then []
                     else [Entry(w, |db.txs|, Credit, row.balance, row.currency, 0, row.balance, 1)]
    ensures WalletsOk(db.wallets[w := row]) && ChainsOk(db.wallets[w := row], db.ledger + more)
  {
    hide ChainsOk;
    NewWalletChains(db.wallets, db.ledger, w, row, more);
  }

  lemma NoEntryBeyond(wallets: map<string, WalletRow>, txs: seq<Tx>, ledger: seq<Entry>, w: string)
    requires OneEntryEach(wallets, txs, ledger)
    ensures !HasEntry(ledger, w, |txs|)
  {
  }

  lemma OpenedIsTidy(db: Db, w: string, player: string, currency: string, text: string)
    requires Tidy(db)
    ensures Tidy(Opened(db, w, player, currency, text).0)
  {
    hide HasEntry;
    var m := Parsed(text, currency);
    if m.Ok? {
      EntriesStay(db.ledger, Entry(w, |db.txs|, Credit, m.value.minor, currency, 0, m.value.minor, 1));
    }
  }

  lemma OpenedKeepsSound(db: Db, w: string, player: string, currency: string, text: string)
    requires Sound(db)
    ensures var db' := Opened(db, w, player, currency, text).0; Sound(db') && AllLater(db.txs, db'.txs)
  {
    hide ChainsOk, WalletsOk, HasEntry, Tidy, ValidCurrency, AmountText, AmountValue;
    OpenedIsTidy(db, w, player, currency, text);
    var db' := Opened(db, w, player, currency, text).0;
    if db' != db {
      ParsedIsValid(text, currency);
      var m := Parsed(text, currency).value;
      var row := WalletRow(player, currency, m.minor, 1);
      if m.minor == 0 {
        OpenedWalletSound(db, w, row, []);
        assert db.ledger + [] == db.ledger;
      } else {
        var e, n := Entry(w, |db.txs|, Credit, m.minor, currency, 0, m.minor, 1), |db.outbox|;
        OpenedWalletSound(db, w, row, [e]);
        NoEntryBeyond(db.wallets, db.txs, db.ledger, w);
        AppendKeepsOneEach(db'.wallets, db'.txs, db.ledger, e);
        OutboxAppendTwo(db.outbox, db'.outbox[n], Announcement(e), 0);
        AnnouncementsAppend(db.ledger, e);
      }
    }
  }

  lemma ParsedIsValid(text: string, currency: string)
    requires Parsed(text, currency).Ok?
    ensures ValidCurrency(currency) && 0 <= Parsed(text, currency).value.minor <= Int64.MAX
  {
  }

  lemma ClaimedKeepsSound(db: Db, rows: set<nat>, lease: Lease)
    requires Sound(db)
    ensures Sound(Claimed(db, rows, lease)) && Claimed(db, rows, lease).txs == db.txs
  {
  }

  lemma WorkedIsLate(db: Db, id: nat, item: Work, env: Env)
    ensures Worked(db, id, item, env) ==
            if id < |db.txs| then Late(db, id, db.txs[id], item, env) else db.(work := db.work - {id})
  {
  }

  lemma FineNextKeepsSound(db: Db, past: Db, s: FineStep)
    requires Sound(db) && Sound(past) && AllLater(past.txs, db.txs)
    ensures var db' := FineNext(db, past, s); Sound(db') && AllLater(db.txs, db'.txs)
  {
    hide Sound, Opened, Submitted, LateReevaluated, Reevaluated, Worked, Late, Claimed, Idle;
    SoundParts(db);
    SoundParts(past);
    match s
    case Serial(OpenWallet(wallet, player, currency, text)) => OpenedKeepsSound(db, wallet, player, currency, text);
    case Serial(Submit(i, missed, env)) => SubmittedKeepsSound(db, i, missed, env);
    case Serial(Reevaluate(ids, env)) => ReevaluatedKeepsSound(db, db, ids, env);
    case Serial(ProcessWork(id, item, env)) =>
      WorkedIsLate(db, id, item, env);
      if id < |db.txs| {
        LateKeepsSound(db, id, db.txs[id], item, env);
      } else {
        DroppedIsIdle(db, id);
        IdleGives(db, db.(work := db.work - {id}));
      }
    case Serial(ClaimWork(rows, lease)) => ClaimedKeepsSound(db, rows, lease);
    case LateResume(id, _, item, env) =>
      if id < |db.txs| && id < |past.txs| {
        assert Later(past.txs[id], db.txs[id]);
        LateKeepsSound(db, id, past.txs[id], item, env);
      }
    case LateReevaluate(ids, _, env) => ReevaluatedKeepsSound(db, past, ids, env);
  }

  lemma {:induction false} FineRunIsSound(steps: seq<FineStep>, n: nat)
    requires n <= |steps|
    ensures Sound(FineRun(steps)) && Sound(FineRun(steps[..n])) && AllLater(FineRun(steps[..n]).txs, FineRun(steps).txs)
    decreases |steps|, n
  {
    hide Sound, FineNext;
    if steps == [] {
      EmptyIsSound();
    } else {
      var last := |steps| - 1;
      var front, k := steps[..last], ReadAt(steps[last], last);
      assert front[..k] == steps[..k];
      FineRunIsSound(front, k);
      FineNextKeepsSound(FineRun(front), FineRun(steps[..k]), steps[last]);
      if n == |steps| {
        assert steps[..n] == steps;
      } else {
        assert front[..n] == steps[..n];
        FineRunIsSound(front, n);
        AllLaterTransitive(FineRun(steps[..n]).txs, FineRun(front).txs, FineRun(steps).txs);
      }
    }
  }

  lemma EmptyIsSound()
    ensures Sound(EMPTY)
  {
  }

  // ---------------------------------------------------------------- what every fine run keeps

  /** However late the copies, no transaction has two ledger entries, every balance is the sum of its
      wallet's entries and within range, and every movement is announced once. */
  lemma MoneySurvivesRaces(steps: seq<FineStep>, w: string, tx: nat)
    ensures var db := FineRun(steps);
            && EntryCount(db.ledger, tx) <= 1
            && BalanceEvents(db.outbox) == Announcements(db.ledger)
            && (w in db.wallets ==>
                  && db.wallets[w].balance == LedgerSum(WalletLedger(db.ledger, w))
                  && 0 <= db.wallets[w].balance <= Int64.MAX
                  && ChainOk(WalletLedger(db.ledger, w), db.wallets[w]))
  {
    FineRunIsSound(steps, 0);
    var db := FineRun(steps);
    if w in db.wallets {
      assert ChainOk(WalletLedger(db.ledger, w), db.wallets[w]);
      ChainSums(WalletLedger(db.ledger, w), db.wallets[w]);
    }
  }

  /** A late resume of a row that is still parked is the serial step: its copy is the row. */
  lemma LateIsSerialWhileParked(steps: seq<FineStep>, n: nat, id: nat, item: Work, env: Env)
    requires n <= |steps| && id < |FineRun(steps[..n]).txs|
    ensures id < |FineRun(steps).txs|
    ensures var db := FineRun(steps);
            db.txs[id].state == PendingReference ==>
              Late(db, id, FineRun(steps[..n]).txs[id], item, env) == Worked(db, id, item, env)
  {
    FineRunIsSound(steps, n);
    assert Later(FineRun(steps[..n]).txs[id], FineRun(steps).txs[id]);
    WorkedIsLate(FineRun(steps), id, item, env);
  }

  // ---------------------------------------------------------------- when a late resume overturns an outcome

  /** What a resume from the copy `rec` finds now, under the lock. */
  datatype Look =
    | StillWaiting
    | Refusing(code: Code, ref: Option<nat>)
    | Moving(dir: Direction, target: nat)
    | Failing(error: Code)

  function LookAgain(db: Db, rec: Tx): Look
    requires rec.wallet in db.wallets
  {
    match FindByProviderExternal(db.txs, Provider(rec), rec.refExternal)
    case None => Refusing(ReferenceNotFound, None)
    case Some(t) =>
      if IsWaiting(db.txs[t].state) then StillWaiting
      else if db.txs[t].state != Processed then Refusing(ReferenceNotProcessed, Some(t))
      else
        match JudgeAgainst(db, OperationOf(rec), t)
        case Refuse(code, ref) => Refusing(code, ref)
        case Move(dir, _) => Moving(dir, t)
        case Halt(code) => Failing(code)
        case _ => StillWaiting
  }

  /** The late resume moves money: a movement is due and the transaction has no entry yet. */
  predicate MovesMoney(db: Db, id: nat, rec: Tx)
    requires rec.wallet in db.wallets
  {
    LookAgain(db, rec).Moving? && !HasEntry(db.ledger, rec.wallet, id)
  }

  /** The late resume writes an outcome other than the one the row has. */
  predicate Overturns(db: Db, id: nat, rec: Tx, item: Work)
    requires rec.wallet in db.wallets && id < |db.txs|
  {
    match LookAgain(db, rec)
    case StillWaiting => false
    case Refusing(_, _) => db.txs[id].state != Rejected
    case Moving(_, _) => !HasEntry(db.ledger, rec.wallet, id)
    case Failing(_) => db.txs[id].state != Failed && item.infraAttempts + 1 >= MAX_INFRA_ATTEMPTS
  }

  lemma AgainstFails(db: Db, op: Operation, t: nat)
    requires op.wallet in db.wallets && t < |db.txs|
    ensures var v := JudgeAgainst(db, op, t);
            && !v.Park? && !v.Still?
            && (v.Halt? ==> v.error != UniqueViolation)
            && (v.Move? ==> v.ref == Some(t) && (op.kind == Win || IsReversal(op.kind)))
  {
  }

  /** A resume of a decided row follows the second look. */
  lemma LateResumption(db: Db, id: nat, rec: Tx, env: Env)
    requires Sound(db) && Copy(db.txs, id, rec) && rec.state == PendingReference && IsTerminal(db.txs[id].state)
    ensures rec.wallet in db.wallets && rec.wallet == db.txs[id].wallet && rec.kind == db.txs[id].kind
    ensures var r := Resumed(db, id, rec, env);
            match LookAgain(db, rec)
            case StillWaiting => r == Retried(db)
            case Refusing(code, ref) => r == Settled(Refused(db, id, rec, code, ref))
            case Moving(dir, t) =>
              && t < |db.txs|
              && (if HasEntry(db.ledger, rec.wallet, id) then r == Stuck(UniqueViolation)
                  else db.txs[id].state != Processed && r == Settled(Moved(db, id, rec, dir, Some(t))))
            case Failing(code) => r == Stuck(code) && code != UniqueViolation
  {
    hide Sound, Moved, Refused, JudgeAgainst, HasEntry, WalletsOk, Resolved;
    assert Identity(rec).wallet == Identity(db.txs[id]).wallet && Identity(rec).kind == Identity(db.txs[id]).kind;
    assert Identity(rec).currency == Identity(db.txs[id]).currency;
    SoundParts(db);
    S.WalletRehydrates(db.wallets, rec.wallet);
    var found := FindByProviderExternal(db.txs, Provider(rec), rec.refExternal);
    if found.Some? {
      AgainstFails(db, OperationOf(rec), found.value);
    }
  }

  /** What a settled late resume leaves of row `id` and of the money. */
  ghost predicate LateEffect(db: Db, after: Db, id: nat, rec: Tx, overturns: bool)
    requires rec.wallet in db.wallets && id < |db.txs|
  {
    && id < |after.txs|
    && (after.txs[id].state != db.txs[id].state <==> overturns)
    && if MovesMoney(db, id, rec) then
         var w, dir := db.wallets[rec.wallet], LookAgain(db, rec).dir;
         && db.txs[id].state != Processed && after.txs[id].state == Processed
         && after.wallets == db.wallets[rec.wallet := w.(balance := After(w.balance, dir, rec.amount),
                                                         version := w.version + 1)]
         && after.ledger == db.ledger + [Entry(rec.wallet, id, dir, rec.amount, rec.currency, w.balance,
                                               After(w.balance, dir, rec.amount), w.version + 1)]
       else after.wallets == db.wallets && after.ledger == db.ledger
  }

  lemma RefusedEffect(db: Db, id: nat, rec: Tx, code: Code, ref: Option<nat>)
    requires rec.wallet in db.wallets && id < |db.txs| && LookAgain(db, rec) == Refusing(code, ref)
    ensures LateEffect(db, Refused(db, id, rec, code, ref), id, rec, db.txs[id].state != Rejected)
  {
    hide LookAgain;
  }

  lemma MovedEffect(db: Db, id: nat, rec: Tx, dir: Direction, t: nat)
    requires rec.wallet in db.wallets && id < |db.txs| && LookAgain(db, rec) == Moving(dir, t) && t < |db.txs|
    requires !HasEntry(db.ledger, rec.wallet, id) && db.txs[id].state != Processed
    ensures LateEffect(db, Moved(db, id, rec, dir, Some(t)), id, rec, true)
  {
    hide LookAgain, HasEntry;
    MovedOthers(db, id, rec, dir, Some(t));
  }

  lemma FailedEffect(db: Db, id: nat, rec: Tx, item: Work, env: Env)
    requires rec.wallet in db.wallets && id < |db.txs| && LookAgain(db, rec).Failing?
    ensures LateEffect(db, NotedInfra(db, id, item, env), id, rec, Overturns(db, id, rec, item))
  {
    hide LookAgain;
  }

  lemma NoEffect(db: Db, id: nat, rec: Tx)
    requires rec.wallet in db.wallets && id < |db.txs| && !MovesMoney(db, id, rec)
    ensures LateEffect(db, db, id, rec, false)
  {
  }

  lemma LateHasEffect(db: Db, id: nat, rec: Tx, item: Work, env: Env)
    requires Sound(db) && Copy(db.txs, id, rec) && rec.state == PendingReference && IsTerminal(db.txs[id].state)
    ensures rec.wallet in db.wallets
    ensures LateEffect(db, Late(db, id, rec, item, env), id, rec, Overturns(db, id, rec, item))
  {
    hide Sound, Resumed, Moved, Refused, NotedInfra, HasEntry, LateEffect, LookAgain;
    LateResumption(db, id, rec, env);
    match LookAgain(db, rec) {
      case StillWaiting => NoEffect(db, id, rec);
      case Refusing(code, ref) => RefusedEffect(db, id, rec, code, ref);
      case Moving(dir, t) =>
        if HasEntry(db.ledger, rec.wallet, id) {
          NoEffect(db, id, rec);
        } else {
          MovedEffect(db, id, rec, dir, t);
        }
      case Failing(_) => FailedEffect(db, id, rec, item, env);
    }
  }

  /** In every run of the finer model, a worker that holds an old copy of a row decided since changes its
      outcome if and only if its second look refuses a row that is not REJECTED, finds a movement due
      and no entry, or fails with the error budget spent on a row that is not FAILED. It moves money if
      and only if a movement is due and there is no entry, and then the row was not PROCESSED. */
  lemma LateOverturnsIff(steps: seq<FineStep>, n: nat, id: nat, item: Work, env: Env)
    requires n <= |steps| && id < |FineRun(steps[..n]).txs| && FineRun(steps[..n]).txs[id].state == PendingReference
    requires id < |FineRun(steps).txs| && IsTerminal(FineRun(steps).txs[id].state)
    ensures var db, rec := FineRun(steps), FineRun(steps[..n]).txs[id];
            && rec.wallet in db.wallets
            && LateEffect(db, Late(db, id, rec, item, env), id, rec, Overturns(db, id, rec, item))
  {
    hide Sound, FineRun, Late, LateEffect, Overturns;
    CopyOfTheRun(steps, n, id);
    LateHasEffect(FineRun(steps), id, FineRun(steps[..n]).txs[id], item, env);
  }

  lemma CopyOfTheRun(steps: seq<FineStep>, n: nat, id: nat)
    requires n <= |steps| && id < |FineRun(steps[..n]).txs|
    ensures Sound(FineRun(steps)) && Copy(FineRun(steps).txs, id, FineRun(steps[..n]).txs[id])
  {
    hide FineRun, Tidy;
    FineRunIsSound(steps, n);
    assert Later(FineRun(steps[..n]).txs[id], FineRun(steps).txs[id]);
  }

  /** A late re-evaluation does the same, except that its errors count for nothing. */
  lemma LateReevaluationOverturnsIff(steps: seq<FineStep>, n: nat, id: nat, env: Env)
    requires n <= |steps| && id < |FineRun(steps[..n]).txs| && FineRun(steps[..n]).txs[id].state == PendingReference
    requires id < |FineRun(steps).txs| && IsTerminal(FineRun(steps).txs[id].state)
    ensures var db, past := FineRun(steps), FineRun(steps[..n]);
            var rec := past.txs[id];
            && rec.wallet in db.wallets
            && LateEffect(db, LateReevaluated(db, past, [id], env), id, rec,
                          !LookAgain(db, rec).Failing? && Overturns(db, id, rec, FRESH))
  {
    hide Sound, FineRun, Resumed, Moved, Refused, NotedInfra, HasEntry, LateEffect, LookAgain;
    CopyOfTheRun(steps, n, id);
    var db, past := FineRun(steps), FineRun(steps[..n]);
    var rec := past.txs[id];
    LateResumption(db, id, rec, env);
    OnlyOne(db, past, id, env);
    match LookAgain(db, rec) {
      case StillWaiting => NoEffect(db, id, rec);
      case Refusing(code, ref) => RefusedEffect(db, id, rec, code, ref);
      case Moving(dir, t) =>
        if HasEntry(db.ledger, rec.wallet, id) {
          NoEffect(db, id, rec);
        } else {
          MovedEffect(db, id, rec, dir, t);
        }
      case Failing(_) => NoEffect(db, id, rec);
    }
  }

  const FRESH := Work(0, 0, 0, 0, None)

  lemma OnlyOne(db: Db, past: Db, id: nat, env: Env)
    requires id < |db.txs| && id < |past.txs| && past.txs[id].state == PendingReference
    ensures LateReevaluated(db, past, [id], env) ==
            match Resumed(db, id, past.txs[id], env)
            case Settled(db') => db'
            case Retried(db') => db'
            case Stuck(_) => db
  {
    hide Resumed;
    var ids, r := [id], Resumed(db, id, past.txs[id], env);
    assert ids[0] == id && ids[1..] == [];
    EmptyBatch(db, past, env);
    if !r.Stuck? {
      EmptyBatch(r.db, past, env);
    }
  }

  lemma EmptyBatch(db: Db, past: Db, env: Env)
    ensures LateBatch(db, past, [], env) == Some(db)
  {
  }

  // ---------------------------------------------------------------- two workers, one row

  lemma OwnEntry(db: Db, p: nat, dir: Direction, ref: Option<nat>)
    requires p < |db.txs| && db.txs[p].wallet in db.wallets && (ref.Some? ==> ref.value < |db.txs|)
    ensures HasEntry(Moved(db, p, db.txs[p], dir, ref).ledger, db.txs[p].wallet, p)
  {
    var ledger := Moved(db, p, db.txs[p], dir, ref).ledger;
    assert ledger[|db.ledger|].tx == p;
  }

  /** After a WIN settled against BET `t`, a second look finds the same BET and the larger balance. */
  lemma SecondLookAtWin(db: Db, p: nat, t: nat)
    requires WalletsOk(db.wallets) && p < |db.txs| && RowOk(db.wallets, db.txs[p])
    requires db.txs[p].state == PendingReference
    requires t < |db.txs| && db.txs[t].state == Processed && db.txs[p].kind == Win
    requires JudgeAgainst(db, OperationOf(db.txs[p]), t) == Move(Credit, Some(t))
    ensures var db1, w := Moved(db, p, db.txs[p], Credit, Some(t)), db.wallets[db.txs[p].wallet];
            JudgeAgainst(db1, OperationOf(db.txs[p]), t) ==
              if w.balance + 2 * db.txs[p].amount > Int64.MAX then Halt(MoneyOverflow) else Move(Credit, Some(t))
  {
    var db1 := Moved(db, p, db.txs[p], Credit, Some(t));
    assert db1.txs[t] == db.txs[t];
  }

  /** After a reversal of `t` settled, a second look finds `t` reversed. */
  lemma SecondLookAtReversal(db: Db, p: nat, t: nat, dir: Direction)
    requires RefsOk(db.txs) && p < |db.txs| && db.txs[p].state == PendingReference && IsReversal(db.txs[p].kind)
    requires t < |db.txs| && db.txs[t].state == Processed && db.txs[p].wallet in db.wallets
    requires JudgeAgainst(db, OperationOf(db.txs[p]), t) == Move(dir, Some(t))
    ensures JudgeAgainst(Moved(db, p, db.txs[p], dir, Some(t)), OperationOf(db.txs[p]), t)
            == Refuse(AlreadyReversed, Some(t))
  {
    hide HasActiveWin;
    assert RefOk(db.txs, db.txs[t]);
    var txs1 := Moved(db, p, db.txs[p], dir, Some(t)).txs;
    assert txs1[t] == db.txs[t].(reversal := Some(Mark(db.txs[p].kind, p)));
  }

  lemma LateRefuses(db: Db, p: nat, rec: Tx, t: nat, code: Code, item: Work, env: Env)
    requires p < |db.txs| && rec.wallet in db.wallets && Rehydrates(db.wallets[rec.wallet])
    requires ValidCurrency(rec.currency)
    requires FindByProviderExternal(db.txs, Provider(rec), rec.refExternal) == Some(t)
    requires db.txs[t].state == Processed && !IsTerminal(rec.state)
    requires JudgeAgainst(db, OperationOf(rec), t) == Refuse(code, Some(t))
    ensures Late(db, p, rec, item, env) == Refused(db, p, rec, code, Some(t))
  {
    hide JudgeAgainst, Refused;
  }

  lemma MovedFacts(db: Db, p: nat, t: nat, dir: Direction)
    requires Inv(db) && p < |db.txs| && db.txs[p].state == PendingReference
    requires t < |db.txs| && db.txs[t].state == Processed && db.txs[p].wallet in db.wallets
    requires FindByProviderExternal(db.txs, Provider(db.txs[p]), db.txs[p].refExternal) == Some(t)
    requires JudgeAgainst(db, OperationOf(db.txs[p]), t) == Move(dir, Some(t))
    ensures var db1 := Moved(db, p, db.txs[p], dir, Some(t));
            && FindByProviderExternal(db1.txs, Provider(db.txs[p]), db.txs[p].refExternal) == Some(t)
            && |db1.txs| == |db.txs| && db1.txs[t].state == Processed && db1.txs[p].state == Processed
            && db.txs[p].wallet in db1.wallets && Rehydrates(db1.wallets[db.txs[p].wallet])
            && p !in db1.work
  {
    hide Moved, JudgeAgainst, Inv;
    MovedKeepsInv(db, p, t, dir, Some(t));
    MovedStates(db, p, dir, Some(t));
    var db1 := Moved(db, p, db.txs[p], dir, Some(t));
    InvParts(db1);
    S.MovedElsewhere(db, p, dir, Some(t));
    S.SameFind(db.txs, db1.txs, Provider(db.txs[p]), db.txs[p].refExternal);
    S.WalletRehydrates(db1.wallets, db1.txs[p].wallet);
    IdentityFields(db.txs, db1.txs);
  }

  lemma InvParts(db: Db)
    requires Inv(db)
    ensures WalletsOk(db.wallets) && RowsOk(db.wallets, db.txs) && RefsOk(db.txs) && WorkOk(db.txs, db.work)
  {
  }

  /** The second worker looks again after `db1`. */
  lemma SecondWorker(db: Db, p: nat, t: nat, dir: Direction, db1: Db, item: Work, env: Env)
    requires Inv(db) && p < |db.txs| && db.txs[p].state == PendingReference && db.txs[p].wallet in db.wallets
    requires FindByProviderExternal(db.txs, Provider(db.txs[p]), db.txs[p].refExternal) == Some(t)
    requires db.txs[t].state == Processed && JudgeAgainst(db, OperationOf(db.txs[p]), t) == Move(dir, Some(t))
    requires db1 == Moved(db, p, db.txs[p], dir, Some(t)) && p < |db1.txs|
    ensures var rec, w := db.txs[p], db.wallets[db.txs[p].wallet];
            var db2 := Late(db1, p, rec, item, env);
            if IsReversal(rec.kind) then db2 == Refused(db1, p, rec, AlreadyReversed, Some(t))
            else db2 == if w.balance + 2 * rec.amount > Int64.MAX then NotedInfra(db1, p, item, env) else db1
  {
    hide Inv, Moved, Refused, JudgeAgainst, HasEntry, RowsOk, RefsOk, WalletsOk, WorkOk, NotedInfra;
    var rec := db.txs[p];
    InvParts(db);
    RowHolds(db, p);
    MovedFacts(db, p, t, dir);
    if IsReversal(rec.kind) {
      SecondLookAtReversal(db, p, t, dir);
      LateRefuses(db1, p, rec, t, AlreadyReversed, item, env);
    } else {
      WinsCredit(db, p, t, dir);
      SecondLookAtWin(db, p, t);
      OwnEntry(db, p, dir, Some(t));
    }
  }

  /** A resume that ends PROCESSED judged the row against a processed reference. */
  lemma SettledProcessed(db: Db, p: nat, env: Env, db1: Db) returns (t: nat, dir: Direction)
    requires Inv(db) && p < |db.txs| && db.txs[p].state == PendingReference
    requires Resumed(db, p, db.txs[p], env) == Settled(db1) && p < |db1.txs| && db1.txs[p].state == Processed
    ensures db.txs[p].wallet in db.wallets
    ensures FindByProviderExternal(db.txs, Provider(db.txs[p]), db.txs[p].refExternal) == Some(t)
    ensures t < |db.txs| && db.txs[t].state == Processed
    ensures JudgeAgainst(db, OperationOf(db.txs[p]), t) == Move(dir, Some(t))
    ensures db1 == Moved(db, p, db.txs[p], dir, Some(t))
  {
    hide Core, Moved, JudgeAgainst, HasEntry, WalletsOk;
    CoreRow(db, p);
    S.WalletRehydrates(db.wallets, db.txs[p].wallet);
    t := FindByProviderExternal(db.txs, Provider(db.txs[p]), db.txs[p].refExternal).value;
    var v := JudgeAgainst(db, OperationOf(db.txs[p]), t);
    dir := v.dir;
    AgainstMoves(db, OperationOf(db.txs[p]), t, dir, v.ref);
  }

  /** LateOverturnsIff where two workers hold copies of the same parked row, the first settles it as
      PROCESSED and the second follows at once. It overturns that outcome exactly for a reversal, which
      it finds already made, or for a WIN whose second credit would overflow when its error budget is
      spent, and moves no money. */
  lemma SecondWorkerOverturnsIff(db: Db, p: nat, first: Env, db1: Db, item: Work, second: Env)
    requires Inv(db) && p < |db.txs| && db.txs[p].state == PendingReference
    requires Resumed(db, p, db.txs[p], first) == Settled(db1) && p < |db1.txs| && db1.txs[p].state == Processed
    ensures db.txs[p].wallet in db.wallets
    ensures var rec, db2 := db.txs[p], Late(db1, p, db.txs[p], item, second);
            && p < |db2.txs|
            && (db2.txs[p].state != Processed <==>
                  || IsReversal(rec.kind)
                  || (db.wallets[rec.wallet].balance + 2 * rec.amount > Int64.MAX
                      && item.infraAttempts + 1 >= MAX_INFRA_ATTEMPTS))
            && (IsReversal(rec.kind) ==> db2.txs[p].state == Rejected && db2.txs[p].failure == Some(AlreadyReversed))
            && db2.wallets == db1.wallets && db2.ledger == db1.ledger
  {
    hide Inv, Late, Resumed, Moved, JudgeAgainst;
    var t, dir := SettledProcessed(db, p, first, db1);
    SecondWorker(db, p, t, dir, db1, item, second);
  }

  lemma RowHolds(db: Db, p: nat)
    requires WalletsOk(db.wallets) && RowsOk(db.wallets, db.txs) && p < |db.txs|
    ensures RowOk(db.wallets, db.txs[p]) && Rehydrates(db.wallets[db.txs[p].wallet])
  {
  }

  lemma WinsCredit(db: Db, p: nat, t: nat, dir: Direction)
    requires p < |db.txs| && t < |db.txs| && db.txs[p].wallet in db.wallets && db.txs[p].kind == Win
    requires JudgeAgainst(db, OperationOf(db.txs[p]), t) == Move(dir, Some(t))
    ensures dir == Credit
  {
  }
}
