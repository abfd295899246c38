/** Every committed transaction keeps the invariant, so every reachable database has it. */
module Steps {
  import opened Wrappers
  import opened Failures
  import opened Money
  import opened Domain
  import opened Tables
  import opened Engine
  import opened Invariant
  import opened Settling
  import opened Resting
  import opened Opening
  import C = Canonical
  import Int64

  // ---------------------------------------------------------------- a judged movement is grounded

  /** The decision against a processed reference yields only movements the rules allow. */
  lemma AgainstGrounds(db: Db, t: nat, row: Tx, dir: Direction, ref: Option<nat>)
    requires WalletsOk(db.wallets) && RowOk(db.wallets, row) && IsWaiting(row.state)
    requires row.kind == Win || IsReversal(row.kind)
    requires t < |db.txs| && db.txs[t].state == Processed
    requires JudgeAgainst(db, OperationOf(row), t) == Move(dir, ref)
    ensures ref == Some(t) && Affordable(db.wallets, row, dir) && row.amount > 0
    ensures db.txs[t].reversal.None? && SameDeal(row, db.txs[t])
    ensures dir == if db.txs[t].kind == Bet then Credit else Debit
    ensures if row.kind == Win then db.txs[t].kind == Bet else
              MayReverse(row.kind, db.txs[t].kind) && !(db.txs[t].kind == Bet && HasActiveWin(db.txs, t))
  {
    assert row.wallet in db.wallets;
  }

  lemma JudgedGrounds(db: Db, row: Tx, dir: Direction, ref: Option<nat>)
    requires WalletsOk(db.wallets) && RowOk(db.wallets, row) && row.state == Pending
    requires Judge(db, OperationOf(row), row.refExternal) == Move(dir, ref)
    ensures Grounds(db.txs + [row], |db.txs|, dir, ref) && Affordable(db.wallets, row, dir)
    ensures ref.Some? ==> ref.value < |db.txs|
  {
    if row.kind == Bet || (row.kind == Win && row.refExternal == "") {
      assert ref.None?;
    } else {
      var t := FindByProviderExternal(db.txs, OperationOf(row).provider, row.refExternal).value;
      AgainstGrounds(db, t, row, dir, ref);
      if HasActiveWin(db.txs + [row], t) {
        var i :| 0 <= i < |db.txs + [row]| && ActiveWin((db.txs + [row])[i], t);
        assert ActiveWin(db.txs[i], t);
      }
    }
  }

  // ---------------------------------------------------------------- Submit

  lemma QuietAfter(txs: seq<Tx>, txs': seq<Tx>, id: nat)
    requires Quiet(txs) && |txs'| == |txs| + 1 && id == |txs|
    requires forall i :: 0 <= i < |txs| ==> txs'[i].state == txs[i].state
    requires txs'[id].state != Pending
    ensures Quiet(txs')
  {
  }

  lemma MovedStates(db: Db, id: nat, dir: Direction, ref: Option<nat>)
    requires id < |db.txs| && db.txs[id].wallet in db.wallets
    requires ref.Some? ==> ref.value < |db.txs|
    ensures var txs' := Moved(db, id, db.txs[id], dir, ref).txs;
            && |txs'| == |db.txs| && txs'[id].state == Processed
            && forall i :: 0 <= i < |db.txs| && i != id ==> txs'[i] == db.txs[i].(reversal := txs'[i].reversal)
  {
  }

  lemma CoreRow(db: Db, id: nat)
    requires Core(db) && id < |db.txs|
    ensures RowOk(db.wallets, db.txs[id]) && WalletsOk(db.wallets) && EntriesOk(db.txs, db.ledger)
    ensures WorkOk(db.txs, db.work)
  {
  }

  lemma CoreWallets(db: Db)
    requires Core(db)
    ensures WalletsOk(db.wallets)
  {
  }

  lemma NewIdHasNoEntry(db: Db, w: string)
    requires Core(db)
    ensures !HasEntry(db.ledger, w, |db.txs|)
  {
    assert EntriesOk(db.txs, db.ledger);
  }

  lemma AppliedMoves(db: Db, row: Tx, dir: Direction, ref: Option<nat>)
    requires Inv(db) && Admissible(db, row)
    requires Judge(db, OperationOf(row), row.refExternal) == Move(dir, ref)
    ensures ref.Some? ==> ref.value < |db.txs|
    ensures Inv(Moved(Added(db, row), |db.txs|, row, dir, ref)) && !HasEntry(db.ledger, row.wallet, |db.txs|)
  {
    hide Core;
    var db1, id := Added(db, row), |db.txs|;
    CoreWallets(db);
    AddedKeepsCore(db, row);
    JudgedGrounds(db, row, dir, ref);
    NewIdHasNoEntry(db, row.wallet);
    MovedKeepsCore(db1, id, dir, ref);
    MovedStates(db1, id, dir, ref);
    QuietAfter(db.txs, Moved(db1, id, row, dir, ref).txs, id);
  }

  lemma AppliedParks(db: Db, row: Tx, env: Env)
    requires Inv(db) && Admissible(db, row) && row.refExternal != "" && (row.kind == Win || IsReversal(row.kind))
    ensures Inv(Parked(Added(db, row), |db.txs|, row, env))
  {
    hide Core;
    AddedKeepsCore(db, row);
    ParkedKeepsCore(Added(db, row), |db.txs|, env);
  }

  lemma AppliedStays(db: Db, row: Tx)
    requires Inv(db) && Admissible(db, row) && row.kind == Loss
    ensures Inv(Stilled(Added(db, row), |db.txs|, row))
  {
    hide Core;
    AddedKeepsCore(db, row);
    StilledKeepsCore(Added(db, row), |db.txs|);
  }

  lemma AppliedRefuses(db: Db, row: Tx, code: Code, ref: Option<nat>)
    requires Inv(db) && Admissible(db, row)
    ensures Inv(Refused(Added(db, row), |db.txs|, row, code, ref))
  {
    hide Core;
    AddedKeepsCore(db, row);
    RefusedKeepsCore(Added(db, row), |db.txs|, code, ref);
  }

  lemma AppliedKeepsInv(db: Db, row: Tx, env: Env)
    requires Inv(db) && Admissible(db, row)
    requires row.kind == Refund || row.kind == Rollback ==> row.refExternal != ""
    ensures Inv(Applied(db, row, env).0)
  {
    hide Inv, Moved, Refused, Stilled, Parked, HasEntry;
    match Judge(db, OperationOf(row), row.refExternal) {
      case Park => AppliedParks(db, row, env);
      case Still => AppliedStays(db, row);
      case Refuse(code, ref) => AppliedRefuses(db, row, code, ref);
      case Move(dir, ref) => AppliedMoves(db, row, dir, ref);
      case Halt(_) =>
    }
  }

  /** Which kinds are parked, and which settle without movement. */
  lemma JudgeByKind(db: Db, row: Tx)
    requires row.wallet in db.wallets
    ensures var v := Judge(db, OperationOf(row), row.refExternal);
            && (v.Park? ==> (row.kind == Win && row.refExternal != "") || IsReversal(row.kind))
            && (v.Still? ==> row.kind == Loss)
  {
    hide JudgeAgainst;
    if IsReversal(row.kind) || row.kind == Win {
      var found := FindByProviderExternal(db.txs, OperationOf(row).provider, row.refExternal);
      if found.Some? && db.txs[found.value].state == Processed {
        AgainstDecides(db, OperationOf(row), found.value);
      }
    }
  }

  lemma AgainstDecides(db: Db, op: Operation, t: nat)
    requires op.wallet in db.wallets && t < |db.txs|
    ensures var v := JudgeAgainst(db, op, t); !v.Park? && !v.Still?
  {
  }

  lemma JudgeNamesRows(db: Db, op: Operation, reference: string)
    requires op.wallet in db.wallets
    ensures var v := Judge(db, op, reference); v.Move? && v.ref.Some? ==> v.ref.value < |db.txs|
  {
  }

  lemma MovedKeepsInputs(db: Db, id: nat, dir: Direction, ref: Option<nat>)
    requires id < |db.txs| && db.txs[id].wallet in db.wallets && (ref.Some? ==> ref.value < |db.txs|)
    ensures var db' := Moved(db, id, db.txs[id], dir, ref);
            |db'.txs| == |db.txs| && db'.txs[id].origin == db.txs[id].origin && db'.inbox == db.inbox
  {
  }

  lemma AppliedRow(db: Db, row: Tx, env: Env)
    requires row.wallet in db.wallets && Applied(db, row, env).1.Done?
    ensures var db' := Applied(db, row, env).0;
            |db'.txs| == |db.txs| + 1 && db'.txs[|db.txs|].origin == row.origin && db'.inbox == db.inbox
  {
    hide Judge, Moved, HasEntry;
    JudgeNamesRows(db, OperationOf(row), row.refExternal);
    match Judge(db, OperationOf(row), row.refExternal)
    case Move(dir, ref) => MovedKeepsInputs(Added(db, row), |db.txs|, dir, ref);
    case _ =>
  }

  /** A row built from a prepared input is admissible in the wallet it names. */
  lemma NewRowIsAdmissible(db: Db, i: SubmitInput, m: Money)
    requires WalletsOk(db.wallets) && Prepared(i) == Ok(m)
    requires i.wallet in db.wallets && i.player == db.wallets[i.wallet].player
    requires i.currency == db.wallets[i.wallet].currency
    requires FindByProviderKey(db.txs, i.provider, i.key).None?
    requires FindByProviderExternal(db.txs, i.provider, i.external).None?
    ensures Admissible(db, NewRow(i, m, C.PayloadHash(BusinessOf(i))))
  {
    var hash := C.PayloadHash(BusinessOf(i));
    assert Describes(BusinessOf(i), NewRow(i, m, hash));
  }

  lemma InboxRecords(txs: seq<Tx>, inbox: map<(string, string), string>, slot: (string, string), hash: string)
    requires InboxOk(txs, inbox) && Recorded(txs, hash)
    ensures InboxOk(txs, inbox[slot := hash])
  {
  }

  lemma InboxKeepsInv(db: Db, slot: (string, string), hash: string)
    requires Inv(db) && Recorded(db.txs, hash)
    ensures Inv(db.(inbox := db.inbox[slot := hash]))
  {
    InboxRecords(db.txs, db.inbox, slot, hash);
  }

  lemma AcceptedKeepsInv(db: Db, i: SubmitInput, m: Money, env: Env)
    requires Inv(db) && Prepared(i) == Ok(m)
    ensures Inv(Accepted(db, i, m, C.PayloadHash(BusinessOf(i)), env).0)
  {
    hide Core, Applied, C.PayloadHash;
    var hash := C.PayloadHash(BusinessOf(i));
    if Accepted(db, i, m, hash, env).0 != db {
      var row := NewRow(i, m, hash);
      CoreWallets(db);
      NewRowIsAdmissible(db, i, m);
      AppliedKeepsInv(db, row, env);
      if i.messageId != "" {
        AppliedRow(db, row, env);
        var db' := Applied(db, row, env).0;
        assert db'.txs[|db.txs|].origin.hash == hash;
        InboxKeepsInv(db', (i.consumer, i.messageId), hash);
      }
    }
  }

  lemma SubmittedKeepsInv(db: Db, i: SubmitInput, missed: bool, env: Env)
    requires Inv(db)
    ensures Inv(Submitted(db, i, missed, env).0)
  {
    hide Inv, Accepted, Prepared, C.PayloadHash;
    var m := Prepared(i);
    if m.Ok? {
      AcceptedKeepsInv(db, i, m.value, env);
    }
  }

  // ---------------------------------------------------------------- resuming

  /** No ledger entry exists for a transaction that is still waiting. */
  lemma WaitingHasNoEntry(txs: seq<Tx>, ledger: seq<Entry>, id: nat, wallet: string)
    requires EntriesOk(txs, ledger) && id < |txs| && IsWaiting(txs[id].state)
    ensures !HasEntry(ledger, wallet, id)
  {
    assert forall k :: 0 <= k < |ledger| ==> Justifies(txs[ledger[k].tx], ledger[k]);
  }

  lemma QuietKept(txs: seq<Tx>, txs': seq<Tx>, id: nat)
    requires Quiet(txs) && id < |txs| == |txs'| && txs'[id].state != Pending
    requires forall i :: 0 <= i < |txs| && i != id ==> txs'[i].state == txs[i].state
    ensures Quiet(txs')
  {
  }

  lemma RetriedKeepsInv(db: Db, id: nat, refAttempts: nat, infraAttempts: nat, nextAt: int, clear: bool)
    requires Inv(db)
    ensures Inv(Touched(db, id, refAttempts, infraAttempts, nextAt, clear))
  {
    hide Core;
    TouchedKeepsCore(db, id, refAttempts, infraAttempts, nextAt, clear);
  }

  lemma RefusedKeepsInv(db: Db, id: nat, code: Code, ref: Option<nat>)
    requires Inv(db) && id < |db.txs| && db.txs[id].state == PendingReference
    ensures db.txs[id].wallet in db.wallets
    ensures Inv(Refused(db, id, db.txs[id], code, ref))
  {
    hide Core;
    RefusedKeepsCore(db, id, code, ref);
    QuietKept(db.txs, Refused(db, id, db.txs[id], code, ref).txs, id);
  }

  lemma MovedKeepsInv(db: Db, id: nat, t: nat, dir: Direction, ref: Option<nat>)
    requires Inv(db) && id < |db.txs| && db.txs[id].state == PendingReference
    requires t < |db.txs| && db.txs[t].state == Processed && db.txs[id].wallet in db.wallets
    requires JudgeAgainst(db, OperationOf(db.txs[id]), t) == Move(dir, ref)
    ensures ref == Some(t) && Inv(Moved(db, id, db.txs[id], dir, ref))
  {
    hide Core;
    CoreRow(db, id);
    AgainstGrounds(db, t, db.txs[id], dir, ref);
    MovedKeepsCore(db, id, dir, ref);
    MovedStates(db, id, dir, ref);
    QuietKept(db.txs, Moved(db, id, db.txs[id], dir, ref).txs, id);
  }

  /** Against a processed reference, the only error a resume can meet is a credit overflow. */
  lemma AgainstNeverHalts(db: Db, t: nat, row: Tx)
    requires RowOk(db.wallets, row) && row.state == PendingReference && t < |db.txs|
    ensures var v := JudgeAgainst(db, OperationOf(row), t);
            v.Refuse? || v.Move? || v == Halt(MoneyOverflow)
  {
  }

  lemma ResumedAgainstKeepsInv(db: Db, id: nat, t: nat, env: Env)
    requires Inv(db) && id < |db.txs| && db.txs[id].state == PendingReference
    requires FindByProviderExternal(db.txs, Provider(db.txs[id]), db.txs[id].refExternal) == Some(t)
    requires db.txs[t].state == Processed
    ensures var r := Resumed(db, id, db.txs[id], env);
            if r.Stuck? then r.error == MoneyOverflow else Inv(r.db)
  {
    hide Core, Moved, Refused, JudgeAgainst;
    var rec := db.txs[id];
    CoreRow(db, id);
    WaitingHasNoEntry(db.txs, db.ledger, id, rec.wallet);
    AgainstNeverHalts(db, t, rec);
    match JudgeAgainst(db, OperationOf(rec), t) {
      case Refuse(code, ref) => RefusedKeepsInv(db, id, code, ref);
      case Move(dir, ref) => MovedKeepsInv(db, id, t, dir, ref);
      case Halt(_) =>
    }
  }

  /** Resuming never trips over the unique constraint or a missing wallet, and keeps the invariant. */
  lemma ResumedKeepsInv(db: Db, id: nat, env: Env)
    requires Inv(db) && id < |db.txs| && db.txs[id].state == PendingReference
    ensures var r := Resumed(db, id, db.txs[id], env);
            if r.Stuck? then r.error == MoneyOverflow else Inv(r.db)
  {
    hide Core, Moved, Refused, Touched, JudgeAgainst;
    var rec := db.txs[id];
    CoreRow(db, id);
    var found := FindByProviderExternal(db.txs, Provider(rec), rec.refExternal);
    var attempts := if id in db.work then db.work[id].refAttempts else 0;
    if found.Some? && db.txs[found.value].state == Processed {
      ResumedAgainstKeepsInv(db, id, found.value, env);
    } else {
      RefusedKeepsInv(db, id, ReferenceNotFound, None);
      RefusedKeepsInv(db, id, ReferenceNotProcessed, found);
      RetriedKeepsInv(db, id, attempts + 1, 0, env.now + env.jitter, true);
    }
  }

  lemma NotedKeepsInv(db: Db, id: nat, item: Work, env: Env)
    requires Inv(db) && id < |db.txs| && db.txs[id].state == PendingReference
    ensures Inv(NotedInfra(db, id, item, env))
  {
    hide Core;
    if item.infraAttempts + 1 >= MAX_INFRA_ATTEMPTS {
      ExhaustedKeepsCore(db, id, item, env);
      QuietKept(db.txs, NotedInfra(db, id, item, env).txs, id);
    } else {
      RetriedKeepsInv(db, id, item.refAttempts, item.infraAttempts + 1, env.now + env.jitter, false);
    }
  }

  lemma WaitingIsParked(db: Db, id: nat)
    requires Inv(db) && id < |db.txs| && !IsTerminal(db.txs[id].state)
    ensures db.txs[id].state == PendingReference
  {
    assert Quiet(db.txs);
  }

  lemma DroppedKeepsInv(db: Db, id: nat)
    requires Inv(db) && (id >= |db.txs| || IsTerminal(db.txs[id].state))
    ensures db.(work := db.work - {id}) == db
  {
    DroppedIsAbsent(db, id);
  }

  lemma WorkedKeepsInv(db: Db, id: nat, item: Work, env: Env)
    requires Inv(db)
    ensures Inv(Worked(db, id, item, env))
  {
    hide Inv, Resumed, NotedInfra;
    if id >= |db.txs| || IsTerminal(db.txs[id].state) {
      DroppedKeepsInv(db, id);
    } else {
      WaitingIsParked(db, id);
      ResumedKeepsInv(db, id, env);
      NotedKeepsInv(db, id, item, env);
    }
  }

  lemma NudgedKeepsInv(db: Db, id: nat, env: Env)
    requires Inv(db)
    ensures Inv(Nudged(db, id, env))
  {
    hide Inv, Resumed;
    if id < |db.txs| && db.txs[id].state == PendingReference {
      ResumedKeepsInv(db, id, env);
    }
  }

  lemma {:induction false} ReevaluatedKeepsInv(db: Db, ids: seq<nat>, env: Env)
    requires Inv(db)
    ensures Inv(Reevaluated(db, ids, env))
    decreases |ids|
  {
    hide Inv, Nudged;
    if ids != [] {
      NudgedKeepsInv(db, ids[0], env);
      ReevaluatedKeepsInv(Nudged(db, ids[0], env), ids[1..], env);
    }
  }

  // ---------------------------------------------------------------- runs

  lemma EmptyHasInv()
    ensures Inv(EMPTY)
  {
  }

  lemma NextKeepsInv(db: Db, s: Step)
    requires Inv(db)
    ensures Inv(Next(db, s))
  {
    hide Core, Opened, Submitted, Reevaluated, Worked, Claimed;
    match s
    case OpenWallet(wallet, player, currency, text) => OpenedKeepsInv(db, wallet, player, currency, text);
    case Submit(i, missed, env) => SubmittedKeepsInv(db, i, missed, env);
    case Reevaluate(ids, env) => ReevaluatedKeepsInv(db, ids, env);
    case ProcessWork(id, item, env) => WorkedKeepsInv(db, id, item, env);
    case ClaimWork(rows, lease) => ClaimedKeepsCore(db, rows, lease);
  }

  /** The invariant holds in every reachable database. */
  lemma {:induction false} RunHasInv(steps: seq<Step>)
    ensures Inv(Run(steps))
    decreases |steps|
  {
    hide Inv, Next;
    if steps == [] {
      EmptyHasInv();
    } else {
      RunHasInv(steps[..|steps| - 1]);
      NextKeepsInv(Run(steps[..|steps| - 1]), steps[|steps| - 1]);
    }
  }
}
