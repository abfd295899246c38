/** What later transactions may change of what earlier ones committed. */
module History {
  import opened Wrappers
  import opened Failures
  import opened Money
  import opened Domain
  import opened Tables
  import opened Engine
  import opened Invariant
  import opened Settling
  import opened Resting
  import opened Opening
  import opened Steps
  import C = Canonical

  /** A row after a step: inputs fixed, state moved along CanTransition at most once, a terminal
      outcome untouched (only the reversal columns of a processed row may change). */
  ghost predicate RowEvolves(t: Tx, t': Tx) {
    && Identity(t) == Identity(t')
    && (t'.state == t.state || CanTransition(t.state, t'.state))
    && (t'.state == t.state ==> t' == t.(reversal := t'.reversal))
    && (t'.state != Processed ==> t'.reversal == t.reversal)
  }

  ghost predicate RowsEvolve(txs: seq<Tx>, txs': seq<Tx>) {
    && |txs| <= |txs'|
    && (forall i :: 0 <= i < |txs| ==> RowEvolves(txs[i], txs'[i]))
    && (forall i :: |txs| <= i < |txs'| ==> CanTransition(Pending, txs'[i].state))
  }

  ghost predicate Evolves(db: Db, db': Db) {
    && RowsEvolve(db.txs, db'.txs)
    && db.ledger <= db'.ledger
    && db.outbox <= db'.outbox
    && (forall w :: w in db.wallets ==>
          && w in db'.wallets
          && db'.wallets[w].player == db.wallets[w].player
          && db'.wallets[w].currency == db.wallets[w].currency)
    && (forall slot :: slot in db.inbox ==> slot in db'.inbox && db'.inbox[slot] == db.inbox[slot])
    && (forall i :: |db.txs| <= i < |db'.txs| && db'.txs[i].kind == Kind.Opening ==> db'.txs[i].wallet !in db.wallets)
  }

  /** One row changed; rows stay put, and so does every other table that only grows. */
  ghost predicate OneRow(db: Db, db': Db, id: nat) {
    && id < |db.txs| == |db'.txs|
    && RowEvolves(db.txs[id], db'.txs[id])
    && (forall i :: 0 <= i < |db.txs| && i != id ==> RowEvolves(db.txs[i], db'.txs[i]))
    && db.ledger <= db'.ledger && db.outbox <= db'.outbox
    && (forall w :: w in db.wallets ==>
          && w in db'.wallets
          && db'.wallets[w].player == db.wallets[w].player
          && db'.wallets[w].currency == db.wallets[w].currency)
    && db'.inbox == db.inbox
  }

  lemma MovedRowEvolves(db: Db, id: nat, dir: Direction, ref: Option<nat>)
    requires RefsOk(db.txs) && MarksExact(db.txs) && Grounds(db.txs, id, dir, ref) && db.txs[id].wallet in db.wallets
    ensures OneRow(db, Moved(db, id, db.txs[id], dir, ref), id)
  {
    MovedShape(db, id, dir, ref);
    var db' := Moved(db, id, db.txs[id], dir, ref);
    if ref.Some? {
      assert RefOk(db.txs, db.txs[ref.value]);
    }
    forall i | 0 <= i < |db.txs| && i != id
      ensures RowEvolves(db.txs[i], db'.txs[i])
    {
      assert db'.txs[i] == db.txs[i].(reversal := db'.txs[i].reversal);
    }
  }

  lemma RestedRowEvolves(db: Db, db': Db, id: nat)
    requires Rested(db, db', id) && CanTransition(db.txs[id].state, db'.txs[id].state)
    ensures OneRow(db, db', id)
  {
  }

  lemma OneRowEvolves(db: Db, db': Db, id: nat)
    requires OneRow(db, db', id)
    ensures Evolves(db, db')
  {
  }

  /** A row that joined in the initial state and settled in the same transaction. */
  lemma JoinedRowEvolves(db: Db, row: Tx, db': Db)
    requires row.state == Pending && row.kind != Kind.Opening
    requires OneRow(Added(db, row), db', |db.txs|) && db'.txs[|db.txs|].state != Pending
    ensures Evolves(db, db')
  {
    var db1 := Added(db, row);
    assert db1.ledger == db.ledger && db1.outbox == db.outbox && db1.wallets == db.wallets;
    assert Identity(db'.txs[|db.txs|]).kind == Identity(row).kind;
    forall i | 0 <= i < |db.txs|
      ensures RowEvolves(db.txs[i], db'.txs[i])
    {
      assert db1.txs[i] == db.txs[i];
      assert RowEvolves(db1.txs[i], db'.txs[i]);
    }
  }

  lemma EvolvesReflexive(db: Db)
    ensures Evolves(db, db)
  {
  }

  lemma RowEvolvesTransitive(a: Tx, b: Tx, c: Tx)
    requires RowEvolves(a, b) && RowEvolves(b, c)
    ensures RowEvolves(a, c)
  {
  }

  lemma EvolvesTransitive(a: Db, b: Db, c: Db)
    requires Evolves(a, b) && Evolves(b, c)
    ensures Evolves(a, c)
  {
    hide RowEvolves;
    forall i | 0 <= i < |a.txs|
      ensures RowEvolves(a.txs[i], c.txs[i])
    {
      RowEvolvesTransitive(a.txs[i], b.txs[i], c.txs[i]);
    }
    forall i | |a.txs| <= i < |c.txs|
      ensures CanTransition(Pending, c.txs[i].state)
    {
      if i < |b.txs| {
        NewStaysOffPending(b.txs[i], c.txs[i]);
      }
    }
    forall i | |a.txs| <= i < |c.txs| && c.txs[i].kind == Kind.Opening
      ensures c.txs[i].wallet !in a.wallets
    {
      if i < |b.txs| {
        NewStaysOffPending(b.txs[i], c.txs[i]);
      }
    }
  }

  lemma NewStaysOffPending(b: Tx, c: Tx)
    requires CanTransition(Pending, b.state) && RowEvolves(b, c)
    ensures CanTransition(Pending, c.state) && b.kind == c.kind && b.wallet == c.wallet
  {
    assert Identity(b).kind == Identity(c).kind && Identity(b).wallet == Identity(c).wallet;
  }

  // ---------------------------------------------------------------- each step

  lemma AppliedMoveEvolves(db: Db, row: Tx, dir: Direction, ref: Option<nat>)
    requires Inv(db) && Admissible(db, row)
    requires Judge(db, OperationOf(row), row.refExternal) == Move(dir, ref)
    ensures ref.Some? ==> ref.value < |db.txs|
    ensures Evolves(db, Moved(Added(db, row), |db.txs|, row, dir, ref))
  {
    hide Core, Evolves, OneRow, Moved, RowOk, WorkOk, RefsOk, MarksExact, WalletsOk;
    var db1, id := Added(db, row), |db.txs|;
    AddedKeepsCore(db, row);
    CoreParts(db1, id);
    CoreWallets(db);
    AdmissibleFields(db, row);
    JudgedGrounds(db, row, dir, ref);
    MovedRowEvolves(db1, id, dir, ref);
    MovedStates(db1, id, dir, ref);
    JoinedRowEvolves(db, row, Moved(db1, id, row, dir, ref));
  }

  lemma AppliedEvolves(db: Db, row: Tx, env: Env)
    requires Inv(db) && Admissible(db, row)
    requires row.kind == Refund || row.kind == Rollback ==> row.refExternal != ""
    ensures Evolves(db, Applied(db, row, env).0)
  {
    hide Core, Evolves, OneRow, Rested, Moved, Refused, Stilled, Parked, RowOk, WorkOk, RefsOk, MarksExact, HasEntry,
      WalletsOk, Judge;
    var db1, id := Added(db, row), |db.txs|;
    AddedKeepsCore(db, row);
    CoreParts(db1, id);
    CoreWallets(db);
    assert db1.txs[id] == row && db1.wallets == db.wallets;
    EvolvesReflexive(db);
    AdmissibleFields(db, row);
    JudgeByKind(db, row);
    match Judge(db, OperationOf(row), row.refExternal) {
      case Park =>
        ParkedShape(db1, id, env);
        SettledJoins(db, row, Parked(db1, id, row, env));
      case Still =>
        StilledShape(db1, id);
        SettledJoins(db, row, Stilled(db1, id, row));
      case Refuse(code, ref) =>
        RefusedShape(db1, id, code, ref);
        SettledJoins(db, row, Refused(db1, id, row, code, ref));
      case Move(dir, ref) =>
        AppliedMoveEvolves(db, row, dir, ref);
      case Halt(_) =>
    }
  }

  lemma AdmissibleFields(db: Db, row: Tx)
    requires Admissible(db, row)
    ensures row.state == Pending && row.wallet in db.wallets && RowOk(db.wallets, row) && row.kind != Kind.Opening
  {
  }

  lemma CoreParts(db: Db, id: nat)
    requires Core(db) && id < |db.txs|
    ensures RowOk(db.wallets, db.txs[id]) && WorkOk(db.txs, db.work) && RefsOk(db.txs) && MarksExact(db.txs)
  {
  }

  lemma SettledJoins(db: Db, row: Tx, db': Db)
    requires row.state == Pending && row.kind != Kind.Opening && Rested(Added(db, row), db', |db.txs|)
    requires |db'.txs| == |db.txs| + 1 && CanTransition(Pending, db'.txs[|db.txs|].state)
    ensures Evolves(db, db')
  {
    RestedRowEvolves(Added(db, row), db', |db.txs|);
    JoinedRowEvolves(db, row, db');
  }

  lemma InboxEvolves(db: Db, db': Db, slot: (string, string), hash: string)
    requires Evolves(db, db') && slot !in db.inbox && db'.inbox == db.inbox
    ensures Evolves(db, db'.(inbox := db.inbox[slot := hash]))
  {
  }

  lemma SubmittedEvolves(db: Db, i: SubmitInput, missed: bool, env: Env)
    requires Inv(db)
    ensures Evolves(db, Submitted(db, i, missed, env).0)
  {
    hide Core, Evolves, Applied, C.PayloadHash;
    EvolvesReflexive(db);
    var out := Submitted(db, i, missed, env).0;
    if out != db {
      var hash, m := C.PayloadHash(BusinessOf(i)), Prepared(i).value;
      var row := NewRow(i, m, hash);
      CoreWallets(db);
      NewRowIsAdmissible(db, i, m);
      AppliedEvolves(db, row, env);
      AppliedRow(db, row, env);
      if i.messageId != "" {
        InboxEvolves(db, Applied(db, row, env).0, (i.consumer, i.messageId), hash);
      }
    }
  }

  lemma RefusedEvolves(db: Db, id: nat, code: Code, ref: Option<nat>)
    requires Inv(db) && id < |db.txs| && db.txs[id].state == PendingReference
    ensures db.txs[id].wallet in db.wallets && Evolves(db, Refused(db, id, db.txs[id], code, ref))
  {
    hide Core, Evolves, OneRow, Rested, Refused, WorkOk, RefsOk, MarksExact;
    CoreParts(db, id);
    RefusedShape(db, id, code, ref);
    RestedRowEvolves(db, Refused(db, id, db.txs[id], code, ref), id);
    OneRowEvolves(db, Refused(db, id, db.txs[id], code, ref), id);
  }

  lemma ExhaustedEvolves(db: Db, id: nat, item: Work, env: Env)
    requires Inv(db) && id < |db.txs| && db.txs[id].state == PendingReference
    requires item.infraAttempts + 1 >= MAX_INFRA_ATTEMPTS
    ensures Evolves(db, NotedInfra(db, id, item, env))
  {
    hide Core, Evolves, OneRow, Rested, NotedInfra, RowOk, WorkOk, RefsOk, MarksExact;
    CoreParts(db, id);
    ExhaustedShape(db, id, item, env);
    RestedRowEvolves(db, NotedInfra(db, id, item, env), id);
    OneRowEvolves(db, NotedInfra(db, id, item, env), id);
  }

  lemma ResumedMoveEvolves(db: Db, id: nat, t: nat, dir: Direction, ref: Option<nat>)
    requires Inv(db) && id < |db.txs| && db.txs[id].state == PendingReference
    requires t < |db.txs| && db.txs[t].state == Processed && db.txs[id].wallet in db.wallets
    requires JudgeAgainst(db, OperationOf(db.txs[id]), t) == Move(dir, ref)
    ensures ref == Some(t) && Evolves(db, Moved(db, id, db.txs[id], dir, ref))
  {
    hide Core, Evolves, OneRow, Moved, WorkOk, RefsOk, MarksExact, WalletsOk;
    CoreParts(db, id);
    CoreWallets(db);
    AgainstGrounds(db, t, db.txs[id], dir, ref);
    MovedRowEvolves(db, id, dir, ref);
    OneRowEvolves(db, Moved(db, id, db.txs[id], dir, ref), id);
  }

  lemma TouchedEvolves(db: Db, id: nat, refAttempts: nat, infraAttempts: nat, nextAt: int, clear: bool)
    ensures Evolves(db, Touched(db, id, refAttempts, infraAttempts, nextAt, clear))
  {
  }

  lemma ResumedEvolves(db: Db, id: nat, env: Env)
    requires Inv(db) && id < |db.txs| && db.txs[id].state == PendingReference
    ensures var r := Resumed(db, id, db.txs[id], env); !r.Stuck? ==> Evolves(db, r.db)
  {
    hide Core, Evolves, Moved, Refused, Touched, JudgeAgainst, HasEntry, RefsOk, MarksExact, WorkOk;
    var rec := db.txs[id];
    CoreParts(db, id);
    var found := FindByProviderExternal(db.txs, Provider(rec), rec.refExternal);
    var attempts := if id in db.work then db.work[id].refAttempts else 0;
    RefusedEvolves(db, id, ReferenceNotFound, None);
    RefusedEvolves(db, id, ReferenceNotProcessed, found);
    TouchedEvolves(db, id, attempts + 1, 0, env.now + env.jitter, true);
    if found.Some? && db.txs[found.value].state == Processed {
      match JudgeAgainst(db, OperationOf(rec), found.value) {
        case Refuse(code, ref) => RefusedEvolves(db, id, code, ref);
        case Move(dir, ref) => ResumedMoveEvolves(db, id, found.value, dir, ref);
        case _ =>
      }
    }
  }

  lemma WorkedEvolves(db: Db, id: nat, item: Work, env: Env)
    requires Inv(db)
    ensures Evolves(db, Worked(db, id, item, env))
  {
    hide Inv, Evolves, Resumed, Touched;
    if id >= |db.txs| || IsTerminal(db.txs[id].state) {
      DroppedKeepsInv(db, id);
      EvolvesReflexive(db);
    } else {
      WaitingIsParked(db, id);
      ResumedKeepsInv(db, id, env);
      ResumedEvolves(db, id, env);
      if item.infraAttempts + 1 >= MAX_INFRA_ATTEMPTS {
        ExhaustedEvolves(db, id, item, env);
      } else {
        TouchedEvolves(db, id, item.refAttempts, item.infraAttempts + 1, env.now + env.jitter, false);
      }
    }
  }

  lemma {:induction false} ReevaluatedEvolves(db: Db, ids: seq<nat>, env: Env)
    requires Inv(db)
    ensures Evolves(db, Reevaluated(db, ids, env))
    decreases |ids|
  {
    hide Inv, Evolves, Resumed;
    EvolvesReflexive(db);
    if ids != [] {
      var mid := Nudged(db, ids[0], env);
      NudgedKeepsInv(db, ids[0], env);
      if ids[0] < |db.txs| && db.txs[ids[0]].state == PendingReference {
        ResumedEvolves(db, ids[0], env);
      }
      ReevaluatedEvolves(mid, ids[1..], env);
      EvolvesTransitive(db, mid, Reevaluated(db, ids, env));
    }
  }

  lemma OpenedEvolves(db: Db, w: string, player: string, currency: string, text: string)
    ensures Evolves(db, Opened(db, w, player, currency, text).0)
  {
  }

  lemma ClaimedEvolves(db: Db, rows: set<nat>, lease: Lease)
    ensures Evolves(db, Claimed(db, rows, lease))
  {
  }

  lemma NextEvolves(db: Db, s: Step)
    requires Inv(db)
    ensures Evolves(db, Next(db, s))
  {
    hide Inv, Evolves, Opened, Submitted, Reevaluated, Worked, Claimed;
    match s
    case OpenWallet(wallet, player, currency, text) => OpenedEvolves(db, wallet, player, currency, text);
    case Submit(i, missed, env) => SubmittedEvolves(db, i, missed, env);
    case Reevaluate(ids, env) => ReevaluatedEvolves(db, ids, env);
    case ProcessWork(id, item, env) => WorkedEvolves(db, id, item, env);
    case ClaimWork(rows, lease) => ClaimedEvolves(db, rows, lease);
  }

  /** Over any run: rows never leave their table, states follow CanTransition from PENDING, terminal
      outcomes never change, and the ledger and the outbox only grow. */
  lemma {:induction false} RunEvolves(steps: seq<Step>, n: nat)
    requires n <= |steps|
    ensures Evolves(Run(steps[..n]), Run(steps))
    decreases |steps|
  {
    hide Inv, Evolves, Next;
    if n == |steps| {
      assert steps[..n] == steps;
      EvolvesReflexive(Run(steps));
    } else {
      var front := steps[..|steps| - 1];
      assert front[..n] == steps[..n];
      RunEvolves(front, n);
      RunHasInv(front);
      NextEvolves(Run(front), steps[|steps| - 1]);
      EvolvesTransitive(Run(steps[..n]), Run(front), Run(steps));
    }
  }
}
