/** Everything one operation or one resume writes belongs to the wallet whose row it locked. */
module Frame {
  import opened Wrappers
  import opened Failures
  import opened Money
  import opened Domain
  import opened Tables
  import opened Engine
  import opened Invariant
  import opened Settling
  import opened Resting
  import opened Steps
  import opened History
  import C = Canonical

  ghost predicate Confined(db: Db, db': Db, w: string) {
    && db'.wallets.Keys == db.wallets.Keys
    && (forall v :: v in db.wallets && v != w ==> db'.wallets[v] == db.wallets[v])
    && |db.txs| <= |db'.txs|
    && (forall i :: 0 <= i < |db.txs| && db.txs[i].wallet != w ==> db'.txs[i] == db.txs[i])
    && (forall i :: |db.txs| <= i < |db'.txs| ==> db'.txs[i].wallet == w)
    && db.ledger <= db'.ledger
    && (forall k :: |db.ledger| <= k < |db'.ledger| ==> db'.ledger[k].wallet == w)
    && db.outbox <= db'.outbox
    && (forall k :: |db.outbox| <= k < |db'.outbox| ==> db'.outbox[k].wallet == w)
    && (forall id: nat :: id < |db'.txs| && db'.txs[id].wallet != w ==>
          (id in db.work <==> id in db'.work) && (id in db.work ==> db'.work[id] == db.work[id]))
  }

  /** The target's slot and the freed BET lie in the wallet of the operation, because references agree. */
  lemma MovedConfined(db: Db, id: nat, dir: Direction, ref: Option<nat>)
    requires RefsOk(db.txs) && Grounds(db.txs, id, dir, ref) && db.txs[id].wallet in db.wallets
    ensures Confined(db, Moved(db, id, db.txs[id], dir, ref), db.txs[id].wallet)
  {
    hide Moved;
    MovedShape(db, id, dir, ref);
    var db', w := Moved(db, id, db.txs[id], dir, ref), db.txs[id].wallet;
    if ref.Some? {
      assert RefOk(db.txs, db.txs[ref.value]);
      assert db.txs[ref.value].wallet == w;
    }
    forall i | 0 <= i < |db.txs| && db.txs[i].wallet != w
      ensures db'.txs[i] == db.txs[i]
    {
      assert ReversalAfter(db.txs, id, db.txs[id].kind, ref, i) == db.txs[i].reversal;
    }
  }

  lemma RefusedConfined(db: Db, id: nat, code: Code, ref: Option<nat>)
    requires id < |db.txs| && db.txs[id].wallet in db.wallets
    ensures Confined(db, Refused(db, id, db.txs[id], code, ref), db.txs[id].wallet)
  {
  }

  lemma StilledConfined(db: Db, id: nat)
    requires id < |db.txs| && db.txs[id].wallet in db.wallets
    ensures Confined(db, Stilled(db, id, db.txs[id]), db.txs[id].wallet)
  {
  }

  lemma ParkedConfined(db: Db, id: nat, env: Env)
    requires id < |db.txs| && db.txs[id].wallet in db.wallets
    ensures Confined(db, Parked(db, id, db.txs[id], env), db.txs[id].wallet)
  {
  }

  lemma TouchedConfined(db: Db, id: nat, refAttempts: nat, infraAttempts: nat, nextAt: int, clear: bool)
    requires id < |db.txs|
    ensures Confined(db, Touched(db, id, refAttempts, infraAttempts, nextAt, clear), db.txs[id].wallet)
  {
  }

  lemma NotedConfined(db: Db, id: nat, item: Work, env: Env)
    requires id < |db.txs|
    ensures Confined(db, NotedInfra(db, id, item, env), db.txs[id].wallet)
  {
    if item.infraAttempts + 1 < MAX_INFRA_ATTEMPTS {
      TouchedConfined(db, id, item.refAttempts, item.infraAttempts + 1, env.now + env.jitter, false);
    }
  }

  /** A row that joined and settled in the same transaction. */
  lemma JoinedConfined(db: Db, row: Tx, db': Db)
    requires Confined(Added(db, row), db', row.wallet) && |db'.txs| == |db.txs| + 1
    requires db'.txs[|db.txs|].wallet == row.wallet
    ensures Confined(db, db', row.wallet)
  {
    var db1 := Added(db, row);
    assert db1.work == db.work && db1.ledger == db.ledger && db1.outbox == db.outbox && db1.wallets == db.wallets;
    forall i | 0 <= i < |db.txs| && db.txs[i].wallet != row.wallet
      ensures db'.txs[i] == db.txs[i]
    {
      assert db1.txs[i] == db.txs[i];
    }
  }

  lemma AppliedConfined(db: Db, row: Tx, env: Env)
    requires Inv(db) && Admissible(db, row)
    ensures Confined(db, Applied(db, row, env).0, row.wallet)
  {
    hide Core, Confined, HasEntry, RefsOk, WorkOk, MarksExact, WalletsOk, Judge, Moved;
    var db1, id := Added(db, row), |db.txs|;
    AddedKeepsCore(db, row);
    CoreParts(db1, id);
    CoreWallets(db);
    SelfConfined(db, row.wallet);
    assert db1.txs[id] == row;
    match Judge(db, OperationOf(row), row.refExternal) {
      case Park =>
        ParkedConfined(db1, id, env);
        JoinedConfined(db, row, Parked(db1, id, row, env));
      case Still =>
        StilledConfined(db1, id);
        JoinedConfined(db, row, Stilled(db1, id, row));
      case Refuse(code, ref) =>
        RefusedConfined(db1, id, code, ref);
        JoinedConfined(db, row, Refused(db1, id, row, code, ref));
      case Move(dir, ref) => AppliedMoveConfined(db, row, dir, ref);
      case Halt(_) =>
    }
  }

  lemma AppliedMoveConfined(db: Db, row: Tx, dir: Direction, ref: Option<nat>)
    requires Inv(db) && Admissible(db, row) && Judge(db, OperationOf(row), row.refExternal) == Move(dir, ref)
    ensures ref.Some? ==> ref.value < |db.txs|
    ensures Confined(db, Moved(Added(db, row), |db.txs|, row, dir, ref), row.wallet)
  {
    hide Core, Confined, HasEntry, RefsOk, WorkOk, MarksExact, WalletsOk, Judge, Moved;
    var db1, id := Added(db, row), |db.txs|;
    AddedKeepsCore(db, row);
    CoreParts(db1, id);
    CoreWallets(db);
    assert db1.txs[id] == row;
    JudgedGrounds(db, row, dir, ref);
    MovedConfined(db1, id, dir, ref);
    MovedKeepsWallet(db1, id, dir, ref);
    JoinedConfined(db, row, Moved(db1, id, row, dir, ref));
  }

  lemma MovedKeepsWallet(db: Db, id: nat, dir: Direction, ref: Option<nat>)
    requires id < |db.txs| && db.txs[id].wallet in db.wallets && (ref.Some? ==> ref.value < |db.txs|)
    ensures var txs' := Moved(db, id, db.txs[id], dir, ref).txs;
            |txs'| == |db.txs| && txs'[id].wallet == db.txs[id].wallet
  {
  }

  lemma SelfConfined(db: Db, w: string)
    ensures Confined(db, db, w)
  {
  }

  lemma InboxConfined(db: Db, db': Db, w: string, inbox: map<(string, string), string>)
    requires Confined(db, db', w)
    ensures Confined(db, db'.(inbox := inbox), w)
  {
  }

  /** Submit touches nothing outside the wallet named by its input. */
  lemma SubmitConfined(db: Db, i: SubmitInput, missed: bool, env: Env)
    requires Inv(db)
    ensures Confined(db, Submitted(db, i, missed, env).0, i.wallet)
  {
    hide Core, Confined, Applied, C.PayloadHash;
    SelfConfined(db, i.wallet);
    if Submitted(db, i, missed, env).0 != db {
      var hash, m := C.PayloadHash(BusinessOf(i)), Prepared(i).value;
      var row := NewRow(i, m, hash);
      CoreWallets(db);
      NewRowIsAdmissible(db, i, m);
      AppliedConfined(db, row, env);
      if i.messageId != "" {
        InboxConfined(db, Applied(db, row, env).0, i.wallet, db.inbox[(i.consumer, i.messageId) := hash]);
      }
    }
  }

  lemma ResumedConfined(db: Db, id: nat, env: Env)
    requires Inv(db) && id < |db.txs| && db.txs[id].state == PendingReference
    ensures var r := Resumed(db, id, db.txs[id], env); !r.Stuck? ==> Confined(db, r.db, db.txs[id].wallet)
  {
    hide Core, Confined, Moved, Refused, Touched, JudgeAgainst, HasEntry, RefsOk, MarksExact, WorkOk, WalletsOk, RowOk;
    ResumingFacts(db, id);
    var found := FindByProviderExternal(db.txs, Provider(db.txs[id]), db.txs[id].refExternal);
    if found.Some? && db.txs[found.value].state == Processed {
      AgainstConfined(db, id, found.value);
    } else {
      AsideConfined(db, id, if id in db.work then db.work[id].refAttempts else 0, env.now + env.jitter);
    }
  }

  lemma ResumingFacts(db: Db, id: nat)
    requires Inv(db) && id < |db.txs|
    ensures WalletsOk(db.wallets) && RefsOk(db.txs) && RowOk(db.wallets, db.txs[id]) && db.txs[id].wallet in db.wallets
  {
  }

  /** Refusing the row or counting an attempt stays in its wallet. */
  lemma AsideConfined(db: Db, id: nat, attempts: nat, nextAt: int)
    requires id < |db.txs| && db.txs[id].wallet in db.wallets
    ensures forall code, ref :: Confined(db, Refused(db, id, db.txs[id], code, ref), db.txs[id].wallet)
    ensures Confined(db, Touched(db, id, attempts + 1, 0, nextAt, true), db.txs[id].wallet)
  {
    hide Confined, Refused, Touched;
    TouchedConfined(db, id, attempts + 1, 0, nextAt, true);
    forall code, ref
      ensures Confined(db, Refused(db, id, db.txs[id], code, ref), db.txs[id].wallet)
    {
      RefusedConfined(db, id, code, ref);
    }
  }

  lemma AgainstConfined(db: Db, id: nat, t: nat)
    requires WalletsOk(db.wallets) && RefsOk(db.txs) && id < |db.txs| && RowOk(db.wallets, db.txs[id])
    requires db.txs[id].state == PendingReference && t < |db.txs| && db.txs[t].state == Processed
    ensures var v := JudgeAgainst(db, OperationOf(db.txs[id]), t);
            && (v.Refuse? ==> Confined(db, Refused(db, id, db.txs[id], v.code, v.ref), db.txs[id].wallet))
            && (v.Move? ==>
                  v.ref == Some(t) && Confined(db, Moved(db, id, db.txs[id], v.dir, v.ref), db.txs[id].wallet))
  {
    hide Confined, Moved, Refused, JudgeAgainst, RefsOk, WalletsOk;
    match JudgeAgainst(db, OperationOf(db.txs[id]), t) {
      case Refuse(code, ref) => RefusedConfined(db, id, code, ref);
      case Move(dir, ref) =>
        AgainstGrounds(db, t, db.txs[id], dir, ref);
        MovedConfined(db, id, dir, ref);
      case _ =>
    }
  }

  /** A worker's treatment of one item touches nothing outside the wallet of its transaction. */
  lemma WorkConfined(db: Db, id: nat, item: Work, env: Env)
    requires Inv(db) && id < |db.txs|
    ensures Confined(db, Worked(db, id, item, env), db.txs[id].wallet)
  {
    hide Inv, Confined, Resumed, NotedInfra;
    if IsTerminal(db.txs[id].state) {
      DroppedKeepsInv(db, id);
      SelfConfined(db, db.txs[id].wallet);
    } else {
      WaitingIsParked(db, id);
      ResumedConfined(db, id, env);
      NotedConfined(db, id, item, env);
      SelfConfined(db, db.txs[id].wallet);
    }
  }
}
