/** Row changes that move no money (rejecting, parking, failing, a LOSS, a new row) keep the invariant. */
module Resting {
  import opened Wrappers
  import opened Failures
  import opened Money
  import opened Domain
  import opened Tables
  import opened Engine
  import opened Invariant
  import opened Sums
  import opened Settling
  import C = Canonical

  /** `row` is the waiting row `t` with an outcome that moves nothing. */
  ghost predicate Rests(t: Tx, row: Tx) {
    && IsWaiting(t.state) && t.reversal.None? && t.refTx.None?
    && Identity(row) == Identity(t) && row.reversal.None?
    && (row.state == Processed ==> row.kind == Loss && row.refTx.None?)
  }

  lemma RestReferences(wallets: map<string, WalletRow>, txs: seq<Tx>, id: nat, row: Tx)
    requires id < |txs| && Rests(txs[id], row)
    requires RefsOk(txs) && MarksExact(txs) && NoOverpayment(txs) && BalancesNet(wallets, txs)
    ensures var txs' := txs[id := row];
            RefsOk(txs') && MarksExact(txs') && NoOverpayment(txs') && BalancesNet(wallets, txs')
  {
    var txs' := txs[id := row];
    assert row.kind == txs[id].kind;
    RestRefs(txs, id, row);
    RestMarks(txs, id, row);
    forall w | w in wallets
      ensures wallets[w].balance == Net(txs', w)
    {
      NetUpdate(txs, id, row, w);
    }
    forall i | 0 <= i < |txs'| && txs'[i].refTx.Some? && ActiveWin(txs'[i], txs'[i].refTx.value)
      ensures txs'[i].refTx.value < |txs'| && txs'[txs'[i].refTx.value].reversal.None?
    {
      assert i != id && ActiveWin(txs[i], txs[i].refTx.value);
    }
  }

  lemma RestRefs(txs: seq<Tx>, id: nat, row: Tx)
    requires id < |txs| && Rests(txs[id], row) && RefsOk(txs)
    ensures RefsOk(txs[id := row])
  {
    var txs' := txs[id := row];
    assert row.kind == txs[id].kind;
    forall i | 0 <= i < |txs'|
      ensures RefOk(txs', txs'[i])
    {
      if i != id {
        assert RefOk(txs, txs[i]);
      }
    }
  }

  lemma RestMarks(txs: seq<Tx>, id: nat, row: Tx)
    requires id < |txs| && Rests(txs[id], row) && MarksExact(txs)
    ensures MarksExact(txs[id := row])
  {
    var txs' := txs[id := row];
    assert row.kind == txs[id].kind;
    forall r | 0 <= r < |txs'| && LiveReversal(txs'[r]) && txs'[r].refTx.Some?
      ensures txs'[r].refTx.value < |txs'| && txs'[txs'[r].refTx.value].reversal == Some(Mark(txs'[r].kind, r))
    {
      assert r != id && LiveReversal(txs[r]);
    }
  }

  lemma RestEntries(txs: seq<Tx>, id: nat, row: Tx, ledger: seq<Entry>)
    requires id < |txs| && Rests(txs[id], row) && EntriesOk(txs, ledger)
    ensures EntriesOk(txs[id := row], ledger)
  {
    var txs' := txs[id := row];
    forall k | 0 <= k < |ledger|
      ensures ledger[k].tx < |txs'| && Justifies(txs'[ledger[k].tx], ledger[k])
    {
      assert Justifies(txs[ledger[k].tx], ledger[k]);
    }
    forall t: nat | t < |txs'|
      ensures EntryCount(ledger, t) == if Moves(txs'[t]) then 1 else 0
    {
      assert EntryCount(ledger, t) == if Moves(txs[t]) then 1 else 0;
    }
  }

  /** The outcome announced by `news` is the one the row now carries. */
  ghost predicate Announces(row: Tx, id: nat, news: seq<Event>) {
    if row.state == Processed then |news| == 1 && news[0].ProcessedEvent? && news[0].tx == id && Reports(row, news[0])
    else if row.state == Rejected then
      |news| == 1 && news[0].RejectedEvent? && news[0].tx == id && Reports(row, news[0])
    else if row.state == PendingReference then
      |news| == 1 && news[0].PendingEvent? && news[0].tx == id && Reports(row, news[0])
    else news == []
  }

  lemma RestReports(txs: seq<Tx>, id: nat, row: Tx, outbox: seq<Event>, news: seq<Event>)
    requires id < |txs| && Rests(txs[id], row)
    requires forall k :: 0 <= k < |outbox| ==> outbox[k].tx < |txs| && Reports(txs[outbox[k].tx], outbox[k])
    requires forall k :: 0 <= k < |news| ==> news[k].tx == id && Reports(row, news[k])
    ensures forall k :: 0 <= k < |outbox + news| ==>
              (outbox + news)[k].tx < |txs| && Reports(txs[id := row][(outbox + news)[k].tx], (outbox + news)[k])
  {
    forall k | 0 <= k < |outbox|
      ensures Reports(txs[id := row][outbox[k].tx], outbox[k])
    {
      ReportStands(txs[outbox[k].tx], txs[id := row][outbox[k].tx], outbox[k]);
    }
  }

  lemma NewsCounts(outbox: seq<Event>, row: Tx, id: nat, news: seq<Event>, t: nat)
    requires Announces(row, id, news)
    ensures BalanceEvents(outbox + news) == BalanceEvents(outbox)
    ensures ProcessedCount(outbox + news, t) ==
            ProcessedCount(outbox, t) + if t == id && row.state == Processed then 1 else 0
    ensures RejectedCount(outbox + news, t) ==
            RejectedCount(outbox, t) + if t == id && row.state == Rejected then 1 else 0
  {
    if news == [] {
      assert outbox + news == outbox;
    } else {
      assert outbox + news == outbox + [news[0]];
      OutboxAppend(outbox, news[0], t);
    }
  }

  lemma RestCounts(txs: seq<Tx>, id: nat, row: Tx, outbox: seq<Event>, news: seq<Event>)
    requires id < |txs| && IsWaiting(txs[id].state) && Announces(row, id, news)
    requires forall t: nat :: t < |txs| ==> ProcessedCount(outbox, t) == if txs[t].state == Processed then 1 else 0
    requires forall t: nat :: t < |txs| ==> RejectedCount(outbox, t) == if txs[t].state == Rejected then 1 else 0
    ensures var txs' := txs[id := row];
            && (forall t: nat :: t < |txs'| ==>
                  ProcessedCount(outbox + news, t) == if txs'[t].state == Processed then 1 else 0)
            && (forall t: nat :: t < |txs'| ==>
                  RejectedCount(outbox + news, t) == if txs'[t].state == Rejected then 1 else 0)
  {
    forall t: nat | t < |txs|
      ensures ProcessedCount(outbox + news, t) ==
              ProcessedCount(outbox, t) + if t == id && row.state == Processed then 1 else 0
      ensures RejectedCount(outbox + news, t) ==
              RejectedCount(outbox, t) + if t == id && row.state == Rejected then 1 else 0
    {
      NewsCounts(outbox, row, id, news, t);
    }
  }

  lemma RestEvents(txs: seq<Tx>, id: nat, row: Tx, ledger: seq<Entry>, outbox: seq<Event>, news: seq<Event>)
    requires id < |txs| && Rests(txs[id], row) && EventsOk(txs, ledger, outbox) && Announces(row, id, news)
    ensures EventsOk(txs[id := row], ledger, outbox + news)
  {
    RestReports(txs, id, row, outbox, news);
    NewsCounts(outbox, row, id, news, id);
    RestCounts(txs, id, row, outbox, news);
  }

  lemma RestTables(wallets: map<string, WalletRow>, txs: seq<Tx>, id: nat, row: Tx,
                   inbox: map<(string, string), string>)
    requires id < |txs| && Rests(txs[id], row)
    requires RowsOk(wallets, txs) && RowOk(wallets, row)
    requires KeysUnique(txs) && HashesOk(txs) && InboxOk(txs, inbox)
    ensures var txs' := txs[id := row];
            && SameIdentities(txs, txs') && RowsOk(wallets, txs')
            && KeysUnique(txs') && HashesOk(txs') && InboxOk(txs', inbox)
  {
    IdentitiesKeep(txs, txs[id := row], inbox);
  }

  /** Everything but the row, the outbox and the work table stays, so the invariant stays. */
  lemma RestKeepsCore(db: Db, db': Db, id: nat)
    requires Core(db) && Rested(db, db', id)
    ensures Core(db') && SameIdentities(db.txs, db'.txs)
  {
    var row, news := db'.txs[id], db'.outbox[|db.outbox|..];
    RestReferences(db.wallets, db.txs, id, row);
    RestEntries(db.txs, id, row, db.ledger);
    RestEvents(db.txs, id, row, db.ledger, db.outbox, news);
    RestTables(db.wallets, db.txs, id, row, db.inbox);
  }

  lemma RestWork(txs: seq<Tx>, id: nat, row: Tx, work: map<nat, Work>, work': map<nat, Work>)
    requires id < |txs| && WorkOk(txs, work)
    requires work'.Keys == if row.state == PendingReference then work.Keys + {id} else work.Keys - {id}
    ensures WorkOk(txs[id := row], work')
  {
    assert forall k: nat :: k in work' <==> k in work'.Keys;
  }

  // ---------------------------------------------------------------- the four outcomes

  /** `db'` differs from `db` in the resting row `id`, the news about it and the work table. */
  ghost predicate Rested(db: Db, db': Db, id: nat) {
    && id < |db.txs| == |db'.txs| && |db.outbox| <= |db'.outbox|
    && Rests(db.txs[id], db'.txs[id]) && RowOk(db.wallets, db'.txs[id])
    && Announces(db'.txs[id], id, db'.outbox[|db.outbox|..])
    && db' == db.(txs := db.txs[id := db'.txs[id]], outbox := db.outbox + db'.outbox[|db.outbox|..], work := db'.work)
    && WorkOk(db'.txs, db'.work)
  }

  lemma RefusedShape(db: Db, id: nat, code: Code, ref: Option<nat>)
    requires id < |db.txs| && RowOk(db.wallets, db.txs[id]) && WorkOk(db.txs, db.work)
    requires IsWaiting(db.txs[id].state)
    ensures Rested(db, Refused(db, id, db.txs[id], code, ref), id)
    ensures Refused(db, id, db.txs[id], code, ref).txs[id].state == Rejected
  {
    var db' := Refused(db, id, db.txs[id], code, ref);
    assert db'.txs == db.txs[id := db'.txs[id]];
    assert db'.outbox[|db.outbox|..] == [db'.outbox[|db.outbox|]];
    RestWork(db.txs, id, db'.txs[id], db.work, db'.work);
  }

  lemma RefusedKeepsCore(db: Db, id: nat, code: Code, ref: Option<nat>)
    requires Core(db) && id < |db.txs|
    requires IsWaiting(db.txs[id].state)
    ensures db.txs[id].wallet in db.wallets
    ensures var db' := Refused(db, id, db.txs[id], code, ref);
            Core(db') && SameIdentities(db.txs, db'.txs)
  {
    assert RowOk(db.wallets, db.txs[id]);
    RefusedShape(db, id, code, ref);
    RestKeepsCore(db, Refused(db, id, db.txs[id], code, ref), id);
  }

  lemma StilledShape(db: Db, id: nat)
    requires id < |db.txs| && RowOk(db.wallets, db.txs[id]) && WorkOk(db.txs, db.work)
    requires db.txs[id].state == Pending && db.txs[id].kind == Loss
    ensures Rested(db, Stilled(db, id, db.txs[id]), id) && Stilled(db, id, db.txs[id]).txs[id].state == Processed
  {
    var db' := Stilled(db, id, db.txs[id]);
    assert db'.txs == db.txs[id := db'.txs[id]];
    assert db'.outbox[|db.outbox|..] == [db'.outbox[|db.outbox|]];
    assert db.work.Keys == db.work.Keys - {id};
    RestWork(db.txs, id, db'.txs[id], db.work, db'.work);
  }

  lemma StilledKeepsCore(db: Db, id: nat)
    requires Core(db) && id < |db.txs|
    requires db.txs[id].state == Pending && db.txs[id].kind == Loss
    ensures db.txs[id].wallet in db.wallets
    ensures var db' := Stilled(db, id, db.txs[id]);
            Core(db') && SameIdentities(db.txs, db'.txs)
  {
    assert RowOk(db.wallets, db.txs[id]);
    StilledShape(db, id);
    RestKeepsCore(db, Stilled(db, id, db.txs[id]), id);
  }

  lemma ParkedShape(db: Db, id: nat, env: Env)
    requires id < |db.txs| && RowOk(db.wallets, db.txs[id]) && WorkOk(db.txs, db.work)
    requires db.txs[id].state == Pending && db.txs[id].refExternal != ""
    requires db.txs[id].kind == Win || IsReversal(db.txs[id].kind)
    ensures Rested(db, Parked(db, id, db.txs[id], env), id)
    ensures Parked(db, id, db.txs[id], env).txs[id].state == PendingReference
  {
    var db' := Parked(db, id, db.txs[id], env);
    assert db'.txs == db.txs[id := db'.txs[id]];
    assert db'.outbox[|db.outbox|..] == [db'.outbox[|db.outbox|]];
    RestWork(db.txs, id, db'.txs[id], db.work, db'.work);
  }

  lemma ParkedKeepsCore(db: Db, id: nat, env: Env)
    requires Core(db) && id < |db.txs|
    requires db.txs[id].state == Pending && db.txs[id].refExternal != ""
    requires db.txs[id].kind == Win || IsReversal(db.txs[id].kind)
    ensures db.txs[id].wallet in db.wallets
    ensures var db' := Parked(db, id, db.txs[id], env);
            Core(db') && SameIdentities(db.txs, db'.txs)
  {
    assert RowOk(db.wallets, db.txs[id]);
    ParkedShape(db, id, env);
    RestKeepsCore(db, Parked(db, id, db.txs[id], env), id);
  }

  lemma ExhaustedShape(db: Db, id: nat, item: Work, env: Env)
    requires id < |db.txs| && RowOk(db.wallets, db.txs[id]) && WorkOk(db.txs, db.work)
    requires db.txs[id].state == PendingReference && item.infraAttempts + 1 >= MAX_INFRA_ATTEMPTS
    ensures var db' := NotedInfra(db, id, item, env); Rested(db, db', id) && db'.txs[id].state == Failed
  {
    var db' := NotedInfra(db, id, item, env);
    assert db'.outbox[|db.outbox|..] == [];
    assert db'.outbox == db.outbox + [];
    RestWork(db.txs, id, db'.txs[id], db.work, db'.work);
  }

  lemma ExhaustedKeepsCore(db: Db, id: nat, item: Work, env: Env)
    requires Core(db) && id < |db.txs| && db.txs[id].state == PendingReference
    requires item.infraAttempts + 1 >= MAX_INFRA_ATTEMPTS
    ensures var db' := NotedInfra(db, id, item, env); Core(db') && SameIdentities(db.txs, db'.txs)
  {
    assert RowOk(db.wallets, db.txs[id]);
    ExhaustedShape(db, id, item, env);
    RestKeepsCore(db, NotedInfra(db, id, item, env), id);
  }

  lemma TouchedKeepsCore(db: Db, id: nat, refAttempts: nat, infraAttempts: nat, nextAt: int, clear: bool)
    requires Core(db)
    ensures Core(Touched(db, id, refAttempts, infraAttempts, nextAt, clear))
    ensures Touched(db, id, refAttempts, infraAttempts, nextAt, clear).txs == db.txs
  {
  }

  lemma ClaimedKeepsCore(db: Db, ids: set<nat>, lease: Lease)
    requires Core(db)
    ensures Core(Claimed(db, ids, lease)) && Claimed(db, ids, lease).txs == db.txs
  {
  }

  lemma DroppedIsAbsent(db: Db, id: nat)
    requires WorkOk(db.txs, db.work) && (id >= |db.txs| || IsTerminal(db.txs[id].state))
    ensures db.(work := db.work - {id}) == db
  {
    assert id !in db.work;
  }

  // ---------------------------------------------------------------- a new row

  /** A row in the initial state that the identity columns of `txs` do not clash with. */
  ghost predicate Admissible(db: Db, row: Tx) {
    && row.state == Pending
    && RowOk(db.wallets, row)
    && row.origin.External?
    && HashOf(row)
    && (forall i :: 0 <= i < |db.txs| ==> !HasKey(db.txs[i], row.origin.provider, row.origin.key))
    && (forall i :: 0 <= i < |db.txs| ==> !HasExternal(db.txs[i], row.origin.provider, row.origin.id))
  }

  lemma AddedReferences(wallets: map<string, WalletRow>, txs: seq<Tx>, row: Tx)
    requires row.state == Pending && row.reversal.None? && row.refTx.None?
    requires RefsOk(txs) && MarksExact(txs) && NoOverpayment(txs) && BalancesNet(wallets, txs)
    ensures var txs' := txs + [row];
            RefsOk(txs') && MarksExact(txs') && NoOverpayment(txs') && BalancesNet(wallets, txs')
  {
    var txs' := txs + [row];
    forall i | 0 <= i < |txs'|
      ensures RefOk(txs', txs'[i])
    {
      if i < |txs| {
        assert RefOk(txs, txs[i]);
      }
    }
    forall w | w in wallets
      ensures wallets[w].balance == Net(txs', w)
    {
      NetAppend(txs, row, w);
    }
  }

  lemma AddedEntries(txs: seq<Tx>, row: Tx, ledger: seq<Entry>, work: map<nat, Work>)
    requires row.state == Pending && EntriesOk(txs, ledger) && WorkOk(txs, work)
    ensures EntriesOk(txs + [row], ledger) && WorkOk(txs + [row], work)
  {
    EntryCountZero(ledger, |txs|);
  }

  lemma AddedEvents(txs: seq<Tx>, row: Tx, ledger: seq<Entry>, outbox: seq<Event>)
    requires row.state == Pending && EventsOk(txs, ledger, outbox)
    ensures EventsOk(txs + [row], ledger, outbox)
  {
    CountsZero(outbox, |txs|);
  }

  lemma AddedTables(wallets: map<string, WalletRow>, txs: seq<Tx>, row: Tx, inbox: map<(string, string), string>)
    requires RowsOk(wallets, txs) && RowOk(wallets, row) && HashesOk(txs) && InboxOk(txs, inbox)
    requires row.origin.External? && HashOf(row)
    ensures var txs' := txs + [row]; RowsOk(wallets, txs') && HashesOk(txs') && InboxOk(txs', inbox)
  {
    InboxGrows(txs, [row], inbox);
  }

  lemma AddedKeys(txs: seq<Tx>, row: Tx)
    requires KeysUnique(txs) && row.origin.External?
    requires forall i :: 0 <= i < |txs| ==> !HasKey(txs[i], row.origin.provider, row.origin.key)
    requires forall i :: 0 <= i < |txs| ==> !HasExternal(txs[i], row.origin.provider, row.origin.id)
    ensures KeysUnique(txs + [row])
  {
  }

  lemma InboxGrows(txs: seq<Tx>, more: seq<Tx>, inbox: map<(string, string), string>)
    requires InboxOk(txs, inbox)
    ensures InboxOk(txs + more, inbox)
  {
    forall slot | slot in inbox
      ensures Recorded(txs + more, inbox[slot])
    {
      assert Recorded(txs, inbox[slot]);
      var i :| 0 <= i < |txs| && txs[i].origin.External? && txs[i].origin.hash == inbox[slot];
      assert (txs + more)[i] == txs[i];
    }
  }

  lemma AddedKeepsCore(db: Db, row: Tx)
    requires Core(db) && Admissible(db, row)
    ensures Core(Added(db, row))
  {
    AddedReferences(db.wallets, db.txs, row);
    AddedEntries(db.txs, row, db.ledger, db.work);
    AddedEvents(db.txs, row, db.ledger, db.outbox);
    AddedTables(db.wallets, db.txs, row, db.inbox);
    AddedKeys(db.txs, row);
  }
}
