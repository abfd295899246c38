/** Settling a waiting row, in any of the four ways, keeps every part of the invariant. */
module Settling {
  import opened Wrappers
  import opened Failures
  import opened Money
  import opened Domain
  import opened Tables
  import opened Engine
  import opened Invariant
  import opened Sums
  import Int64
  import C = Canonical

  /** Reference `ref` is one the reversal rules allow the waiting row `id`, for a movement `dir`. */
  ghost predicate Grounds(txs: seq<Tx>, id: nat, dir: Direction, ref: Option<nat>) {
    && id < |txs|
    && IsWaiting(txs[id].state) && txs[id].reversal.None? && txs[id].refTx.None? && txs[id].failure.None?
    && txs[id].amount > 0
    && match ref
       case None => (txs[id].kind == Bet && dir == Debit) || (txs[id].kind == Win && dir == Credit)
       case Some(t) =>
         && t < |txs|
         && txs[t].state == Processed
         && txs[t].reversal.None?
         && SameDeal(txs[id], txs[t])
         && dir == (if txs[t].kind == Bet then Credit else Debit)
         && (if txs[id].kind == Win then txs[t].kind == Bet else
               && MayReverse(txs[id].kind, txs[t].kind)
               && !(txs[t].kind == Bet && HasActiveWin(txs, t)))
  }

  /** The wallet can bear the movement. */
  ghost predicate Affordable(wallets: map<string, WalletRow>, t: Tx, dir: Direction) {
    && t.wallet in wallets
    && t.currency == wallets[t.wallet].currency
    && 0 <= After(wallets[t.wallet].balance, dir, t.amount) <= Int64.MAX
  }

  /** The input columns of a row, which nothing ever rewrites. */
  function Identity(t: Tx): Tx {
    t.(refTx := None, state := Pending, failure := None, result := None, observed := None, reversal := None)
  }

  ghost predicate SameIdentities(a: seq<Tx>, b: seq<Tx>) {
    |a| == |b| && forall i :: 0 <= i < |a| ==> Identity(a[i]) == Identity(b[i])
  }

  lemma IdentityFields(a: seq<Tx>, b: seq<Tx>)
    requires SameIdentities(a, b)
    ensures forall i :: 0 <= i < |a| ==>
              a[i].origin == b[i].origin && a[i].wallet == b[i].wallet && a[i].player == b[i].player
              && a[i].kind == b[i].kind && a[i].amount == b[i].amount && a[i].currency == b[i].currency
              && a[i].refExternal == b[i].refExternal
  {
    forall i | 0 <= i < |a|
      ensures a[i].origin == b[i].origin && a[i].wallet == b[i].wallet && a[i].player == b[i].player
              && a[i].kind == b[i].kind && a[i].amount == b[i].amount && a[i].currency == b[i].currency
              && a[i].refExternal == b[i].refExternal
    {
      assert Identity(a[i]).origin == Identity(b[i]).origin;
    }
  }

  lemma HashOfIdentity(a: Tx, b: Tx)
    requires Identity(a) == Identity(b) && a.origin.External? && HashOf(a)
    ensures b.origin.External? && HashOf(b)
  {
    assert Identity(a).origin == a.origin && Identity(b).origin == b.origin;
    var p: C.Business :| Describes(p, a) && C.PayloadHash(p) == a.origin.hash;
    assert Describes(p, b);
  }

  lemma IdentitiesKeep(a: seq<Tx>, b: seq<Tx>, inbox: map<(string, string), string>)
    requires SameIdentities(a, b) && KeysUnique(a) && HashesOk(a) && InboxOk(a, inbox)
    ensures KeysUnique(b) && HashesOk(b) && InboxOk(b, inbox)
  {
    IdentityFields(a, b);
    forall i | 0 <= i < |b| && b[i].origin.External?
      ensures HashOf(b[i])
    {
      HashOfIdentity(a[i], b[i]);
    }
    forall slot | slot in inbox
      ensures Recorded(b, inbox[slot])
    {
      assert Recorded(a, inbox[slot]);
      var i :| 0 <= i < |a| && a[i].origin.External? && a[i].origin.hash == inbox[slot];
      assert b[i].origin.hash == inbox[slot];
    }
  }

  // ---------------------------------------------------------------- a movement, row by row

  function ReversalAfter(txs: seq<Tx>, id: nat, kind: Kind, ref: Option<nat>, i: nat): Option<Mark>
    requires i < |txs|
  {
    if IsReversal(kind) && ref == Some(i) then Some(Mark(kind, id))
    else if kind == Rollback && ref.Some? && ref.value < |txs| && txs[ref.value].kind == Refund
            && txs[ref.value].refTx == Some(i) then None
    else txs[i].reversal
  }

  /** Row `id` became `row`; every other row changed at most its reversal columns. */
  ghost predicate Rewritten(txs: seq<Tx>, txs': seq<Tx>, id: nat, row: Tx, ref: Option<nat>) {
    && id < |txs| == |txs'|
    && txs'[id] == row
    && forall i :: 0 <= i < |txs| && i != id ==>
         txs'[i] == txs[i].(reversal := ReversalAfter(txs, id, row.kind, ref, i))
  }

  function MovedRow(w: WalletRow, t: Tx, dir: Direction, ref: Option<nat>): Tx {
    t.(state := Processed, result := Some(Money(After(w.balance, dir, t.amount), w.currency)),
       observed := Some(w.version + 1), refTx := ref)
  }

  lemma MovedRewrites(db: Db, id: nat, dir: Direction, ref: Option<nat>)
    requires RefsOk(db.txs) && Grounds(db.txs, id, dir, ref) && db.txs[id].wallet in db.wallets
    ensures Rewritten(db.txs, Moved(db, id, db.txs[id], dir, ref).txs, id,
                      MovedRow(db.wallets[db.txs[id].wallet], db.txs[id], dir, ref), ref)
  {
    if ref.Some? {
      assert RefOk(db.txs, db.txs[ref.value]);
      if db.txs[ref.value].refTx.Some? {
        assert RefOk(db.txs, db.txs[db.txs[ref.value].refTx.value]);
      }
    }
  }

  lemma RewrittenRefs(txs: seq<Tx>, txs': seq<Tx>, id: nat, row: Tx, dir: Direction, ref: Option<nat>)
    requires RefsOk(txs) && Grounds(txs, id, dir, ref)
    requires Rewritten(txs, txs', id, row, ref)
    requires row.refTx == ref && Identity(row) == Identity(txs[id]) && row.state == Processed
    ensures RefsOk(txs')
  {
    assert row.kind == txs[id].kind;
    forall i | 0 <= i < |txs'|
      ensures RefOk(txs', txs'[i])
    {
      if i != id {
        assert RefOk(txs, txs[i]);
      } else if ref.Some? {
        assert SameDeal(row, txs'[ref.value]);
      }
    }
  }

  lemma RewrittenMarks(txs: seq<Tx>, txs': seq<Tx>, id: nat, row: Tx, dir: Direction, ref: Option<nat>)
    requires RefsOk(txs) && MarksExact(txs) && Grounds(txs, id, dir, ref)
    requires Rewritten(txs, txs', id, row, ref)
    requires row.refTx == ref && row.kind == txs[id].kind && row.state == Processed && row.reversal.None?
    ensures MarksExact(txs')
  {
    if ref.Some? {
      assert RefOk(txs, txs[ref.value]);
    }
    forall r | 0 <= r < |txs'| && LiveReversal(txs'[r]) && txs'[r].refTx.Some?
      ensures txs'[r].refTx.value < |txs'| && txs'[txs'[r].refTx.value].reversal == Some(Mark(txs'[r].kind, r))
    {
      if r != id {
        assert LiveReversal(txs[r]) && RefOk(txs, txs[r]);
      }
    }
    forall t | 0 <= t < |txs'| && txs'[t].reversal.Some?
      ensures var m := txs'[t].reversal.value;
              m.reverser < |txs'| && LiveReversal(txs'[m.reverser]) && txs'[m.reverser].refTx == Some(t)
              && txs'[m.reverser].kind == m.kind
    {
      assert t != id;
      var m := txs'[t].reversal.value;
      if !(IsReversal(row.kind) && ref == Some(t)) {
        assert txs[t].reversal == Some(m);
        assert LiveReversal(txs[m.reverser]) && txs[m.reverser].refTx == Some(t);
      }
    }
  }

  lemma RewrittenNoOverpayment(txs: seq<Tx>, txs': seq<Tx>, id: nat, row: Tx, dir: Direction, ref: Option<nat>)
    requires RefsOk(txs) && NoOverpayment(txs) && Grounds(txs, id, dir, ref)
    requires Rewritten(txs, txs', id, row, ref)
    requires row.refTx == ref && row.kind == txs[id].kind
    ensures NoOverpayment(txs')
  {
    if ref.Some? {
      assert RefOk(txs, txs[ref.value]);
    }
    forall i | 0 <= i < |txs'| && txs'[i].refTx.Some? && ActiveWin(txs'[i], txs'[i].refTx.value)
      ensures txs'[i].refTx.value < |txs'| && txs'[txs'[i].refTx.value].reversal.None?
    {
      if i != id {
        assert RefOk(txs, txs[i]);
        var b := txs[i].refTx.value;
        assert ActiveWin(txs[i], b);
        assert HasActiveWin(txs, b);
      }
    }
  }

  /** Voiding a REFUND frees the BET it had reversed, which counts again. */
  lemma VoidingNet(txs: seq<Tx>, txs': seq<Tx>, id: nat, row: Tx, t: nat, w: string)
    requires RefsOk(txs) && MarksExact(txs) && Grounds(txs, id, Debit, Some(t)) && txs[t].kind == Refund
    requires Rewritten(txs, txs', id, row, Some(t)) && row.kind == Rollback
    requires row.wallet == txs[t].wallet && row.amount == txs[t].amount
    ensures Net(txs', w) == Net(txs, w) - if row.wallet == w then row.amount else 0
  {
    var b := txs[t].refTx.value;
    assert RefOk(txs, txs[t]);
    assert LiveReversal(txs[t]) && txs[b].reversal == Some(Mark(Refund, t));
    assert txs[b].wallet == row.wallet && txs[b].amount == row.amount;
    assert b != id && b != t && t != id;
    NetOneChange(txs, txs', b, w);
  }

  /** Reversing a BET or a WIN stops it from counting. */
  lemma UndoingNet(txs: seq<Tx>, txs': seq<Tx>, id: nat, row: Tx, dir: Direction, t: nat, w: string)
    requires Grounds(txs, id, dir, Some(t)) && txs[t].kind != Refund && IsReversal(row.kind) && row.kind == txs[id].kind
    requires Rewritten(txs, txs', id, row, Some(t))
    requires row.wallet == txs[t].wallet && row.amount == txs[t].amount
    ensures Net(txs', w) == Net(txs, w) + if row.wallet == w then After(0, dir, row.amount) else 0
  {
    assert t != id;
    NetOneChange(txs, txs', t, w);
  }

  lemma PlainNet(txs: seq<Tx>, txs': seq<Tx>, id: nat, row: Tx, dir: Direction, ref: Option<nat>, w: string)
    requires Grounds(txs, id, dir, ref) && !IsReversal(row.kind) && row.kind == txs[id].kind
    requires Rewritten(txs, txs', id, row, ref)
    requires row.state == Processed && row.reversal.None?
    ensures Net(txs', w) == Net(txs, w) + if row.wallet == w then After(0, dir, row.amount) else 0
  {
    NetOneChange(txs, txs', id, w);
  }

  /** Marking and freeing slots moves the live total by exactly the ledger movement. */
  lemma RewrittenNet(txs: seq<Tx>, txs': seq<Tx>, id: nat, row: Tx, dir: Direction, ref: Option<nat>, w: string)
    requires RefsOk(txs) && MarksExact(txs) && Grounds(txs, id, dir, ref)
    requires Rewritten(txs, txs', id, row, ref)
    requires Identity(row) == Identity(txs[id]) && row.state == Processed && row.reversal.None?
    ensures Net(txs', w) == Net(txs, w) + if row.wallet == w then After(0, dir, row.amount) else 0
  {
    assert row.kind == txs[id].kind && row.wallet == txs[id].wallet && row.amount == txs[id].amount;
    if !IsReversal(row.kind) {
      PlainNet(txs, txs', id, row, dir, ref, w);
    } else {
      assert txs[ref.value].wallet == row.wallet && txs[ref.value].amount == row.amount;
      if txs[ref.value].kind == Refund {
        VoidingNet(txs, txs', id, row, ref.value, w);
      } else {
        UndoingNet(txs, txs', id, row, dir, ref.value, w);
      }
    }
  }

  lemma ChainExtends(chain: seq<Entry>, row: WalletRow, e: Entry)
    requires ChainOk(chain, row)
    requires e.amount > 0 && e.currency == row.currency && e.before == row.balance && 0 <= row.balance <= Int64.MAX
    requires e.after == After(e.before, e.dir, e.amount) && 0 <= e.after <= Int64.MAX
    requires e.version == row.version + 1
    ensures ChainOk(chain + [e], row.(balance := e.after, version := e.version))
  {
  }

  /** One more entry for the wallet it names; all other chains are untouched. */
  lemma AppendKeepsChains(wallets: map<string, WalletRow>, ledger: seq<Entry>, e: Entry)
    requires ChainsOk(wallets, ledger) && e.wallet in wallets
    requires e.amount > 0 && e.currency == wallets[e.wallet].currency
    requires e.before == wallets[e.wallet].balance && 0 <= e.before <= Int64.MAX
    requires e.after == After(e.before, e.dir, e.amount) && 0 <= e.after <= Int64.MAX
    requires e.version == wallets[e.wallet].version + 1
    ensures ChainsOk(wallets[e.wallet := wallets[e.wallet].(balance := e.after, version := e.version)], ledger + [e])
  {
    var wallets' := wallets[e.wallet := wallets[e.wallet].(balance := e.after, version := e.version)];
    forall w | w in wallets'
      ensures ChainOk(WalletLedger(ledger + [e], w), wallets'[w])
    {
      LedgerAppend(ledger, e, w);
      if w == e.wallet {
        ChainExtends(WalletLedger(ledger, w), wallets[w], e);
      }
    }
  }

  /** Rows keep their link to the ledger while row `id` gains its entry `e`. */
  lemma RewrittenEntries(txs: seq<Tx>, txs': seq<Tx>, id: nat, row: Tx, ref: Option<nat>, ledger: seq<Entry>, e: Entry)
    requires EntriesOk(txs, ledger) && Rewritten(txs, txs', id, row, ref)
    requires !Moves(txs[id]) && e.tx == id && Justifies(row, e)
    ensures EntriesOk(txs', ledger + [e])
  {
    forall k | 0 <= k < |ledger + [e]|
      ensures (ledger + [e])[k].tx < |txs'| && Justifies(txs'[(ledger + [e])[k].tx], (ledger + [e])[k])
    {
      if k < |ledger| {
        assert Justifies(txs[ledger[k].tx], ledger[k]);
      }
    }
    forall t: nat | t < |txs'|
      ensures EntryCount(ledger + [e], t) == if Moves(txs'[t]) then 1 else 0
    {
      EntryCountAppend(ledger, e, t);
      assert EntryCount(ledger, t) == if Moves(txs[t]) then 1 else 0;
    }
  }

  lemma RewrittenEvents(txs: seq<Tx>, txs': seq<Tx>, id: nat, row: Tx, ref: Option<nat>,
                        ledger: seq<Entry>, e: Entry, outbox: seq<Event>, p: Event)
    requires EventsOk(txs, ledger, outbox) && Rewritten(txs, txs', id, row, ref)
    requires IsWaiting(txs[id].state) && Identity(row) == Identity(txs[id]) && e.tx == id && p.tx == id
    requires p.ProcessedEvent? && Reports(row, p) && Reports(row, Announcement(e))
    ensures EventsOk(txs', ledger + [e], outbox + [p, Announcement(e)])
  {
    var b := Announcement(e);
    var outbox' := outbox + [p, b];
    AnnouncementsAppend(ledger, e);
    OutboxAppendTwo(outbox, p, b, id);
    forall k | 0 <= k < |outbox'|
      ensures outbox'[k].tx < |txs'| && Reports(txs'[outbox'[k].tx], outbox'[k])
    {
      if k < |outbox| {
        ReportStands(txs[outbox[k].tx], txs'[outbox[k].tx], outbox[k]);
      }
    }
    forall t: nat | t < |txs'|
      ensures ProcessedCount(outbox', t) == if txs'[t].state == Processed then 1 else 0
      ensures RejectedCount(outbox', t) == if txs'[t].state == Rejected then 1 else 0
    {
      OutboxAppendTwo(outbox, p, b, t);
      assert ProcessedCount(outbox, t) == if txs[t].state == Processed then 1 else 0;
      assert RejectedCount(outbox, t) == if txs[t].state == Rejected then 1 else 0;
    }
  }

  /** An event already reported stays true while its row changes only reversal columns, or settles. */
  lemma ReportStands(t: Tx, t': Tx, e: Event)
    requires Reports(t, e)
    requires t' == t.(reversal := t'.reversal) || (IsWaiting(t.state) && Identity(t) == Identity(t'))
    ensures Reports(t', e)
  {
    assert PartyOf(Identity(t)) == PartyOf(t) && PartyOf(Identity(t')) == PartyOf(t');
    assert MoneyOf(Identity(t)) == MoneyOf(t) && MoneyOf(Identity(t')) == MoneyOf(t');
  }

  lemma RewrittenBalances(wallets: map<string, WalletRow>, wallets': map<string, WalletRow>, txs: seq<Tx>,
                          txs': seq<Tx>,
                          id: nat, row: Tx, dir: Direction, ref: Option<nat>)
    requires BalancesNet(wallets, txs) && RefsOk(txs) && MarksExact(txs) && Grounds(txs, id, dir, ref)
    requires Rewritten(txs, txs', id, row, ref)
    requires Identity(row) == Identity(txs[id]) && row.state == Processed && row.reversal.None?
    requires row.wallet in wallets && wallets'.Keys == wallets.Keys
    requires forall w :: w in wallets ==>
               wallets'[w].balance ==
                 if w == row.wallet then After(wallets[w].balance, dir, row.amount) else wallets[w].balance
    ensures BalancesNet(wallets', txs')
  {
    forall w | w in wallets'
      ensures wallets'[w].balance == Net(txs', w)
    {
      RewrittenNet(txs, txs', id, row, dir, ref, w);
    }
  }

  lemma RewrittenWork(txs: seq<Tx>, txs': seq<Tx>, id: nat, row: Tx, ref: Option<nat>, work: map<nat, Work>)
    requires WorkOk(txs, work) && Rewritten(txs, txs', id, row, ref) && row.state != PendingReference
    ensures WorkOk(txs', work - {id})
  {
  }

  lemma MovedWallets(wallets: map<string, WalletRow>, w: string, balance: int, version: int)
    requires WalletsOk(wallets) && w in wallets && 0 <= balance <= Int64.MAX && version >= 1
    ensures WalletsOk(wallets[w := wallets[w].(balance := balance, version := version)])
  {
  }

  /** What a movement writes, table by table. */
  lemma MovedShape(db: Db, id: nat, dir: Direction, ref: Option<nat>)
    requires RefsOk(db.txs) && Grounds(db.txs, id, dir, ref) && db.txs[id].wallet in db.wallets
    ensures var db' := Moved(db, id, db.txs[id], dir, ref);
            var t, w := db.txs[id], db.wallets[db.txs[id].wallet];
            var after := After(w.balance, dir, t.amount);
            var e := Entry(t.wallet, id, dir, t.amount, t.currency, w.balance, after, w.version + 1);
            && Rewritten(db.txs, db'.txs, id, MovedRow(w, t, dir, ref), ref)
            && db'.wallets == db.wallets[t.wallet := w.(balance := after, version := w.version + 1)]
            && db'.ledger == db.ledger + [e]
            && db'.outbox == db.outbox + [ProcessedEvent(id, t.wallet, PartyOf(t), MoneyOf(t), after, w.version + 1),
                                           Announcement(e)]
            && db'.work == db.work - {id} && db'.inbox == db.inbox
  {
    MovedRewrites(db, id, dir, ref);
  }

  lemma MovedReferences(db: Db, id: nat, dir: Direction, ref: Option<nat>)
    requires RefsOk(db.txs) && MarksExact(db.txs) && NoOverpayment(db.txs) && BalancesNet(db.wallets, db.txs)
    requires Grounds(db.txs, id, dir, ref) && db.txs[id].wallet in db.wallets
    ensures var db' := Moved(db, id, db.txs[id], dir, ref);
            RefsOk(db'.txs) && MarksExact(db'.txs) && NoOverpayment(db'.txs) && BalancesNet(db'.wallets, db'.txs)
  {
    hide RefsOk, MarksExact, NoOverpayment, BalancesNet, Rewritten, Moved;
    var db' := Moved(db, id, db.txs[id], dir, ref);
    var row := MovedRow(db.wallets[db.txs[id].wallet], db.txs[id], dir, ref);
    MovedShape(db, id, dir, ref);
    RewrittenRefs(db.txs, db'.txs, id, row, dir, ref);
    RewrittenMarks(db.txs, db'.txs, id, row, dir, ref);
    RewrittenNoOverpayment(db.txs, db'.txs, id, row, dir, ref);
    RewrittenBalances(db.wallets, db'.wallets, db.txs, db'.txs, id, row, dir, ref);
  }

  lemma MovedRecords(db: Db, id: nat, dir: Direction, ref: Option<nat>)
    requires RefsOk(db.txs) && ChainsOk(db.wallets, db.ledger) && EntriesOk(db.txs, db.ledger)
    requires EventsOk(db.txs, db.ledger, db.outbox) && WorkOk(db.txs, db.work)
    requires Grounds(db.txs, id, dir, ref) && Affordable(db.wallets, db.txs[id], dir)
    requires 0 <= db.wallets[db.txs[id].wallet].balance <= Int64.MAX
    ensures var db' := Moved(db, id, db.txs[id], dir, ref);
            && ChainsOk(db'.wallets, db'.ledger) && EntriesOk(db'.txs, db'.ledger)
            && EventsOk(db'.txs, db'.ledger, db'.outbox) && WorkOk(db'.txs, db'.work)
  {
    hide RefsOk, ChainsOk, EntriesOk, EventsOk, WorkOk, Rewritten, Moved;
    MovedShape(db, id, dir, ref);
    var db' := Moved(db, id, db.txs[id], dir, ref);
    var row := MovedRow(db.wallets[db.txs[id].wallet], db.txs[id], dir, ref);
    var e := db'.ledger[|db.ledger|];
    AppendKeepsChains(db.wallets, db.ledger, e);
    RewrittenEntries(db.txs, db'.txs, id, row, ref, db.ledger, e);
    RewrittenEvents(db.txs, db'.txs, id, row, ref, db.ledger, e, db.outbox, db'.outbox[|db.outbox|]);
    RewrittenWork(db.txs, db'.txs, id, row, ref, db.work);
  }

  lemma MovedTables(db: Db, id: nat, dir: Direction, ref: Option<nat>)
    requires RowsOk(db.wallets, db.txs) && RefsOk(db.txs)
    requires Grounds(db.txs, id, dir, ref) && Affordable(db.wallets, db.txs[id], dir)
    ensures var db' := Moved(db, id, db.txs[id], dir, ref);
            SameIdentities(db.txs, db'.txs) && RowsOk(db'.wallets, db'.txs)
  {
    hide RefsOk, RowsOk, Rewritten, Moved;
    var db' := Moved(db, id, db.txs[id], dir, ref);
    MovedShape(db, id, dir, ref);
    RewrittenRows(db.wallets, db'.wallets, db.txs, db'.txs, id,
                  MovedRow(db.wallets[db.txs[id].wallet], db.txs[id], dir, ref), dir, ref);
  }

  lemma MovedKeys(db: Db, id: nat, dir: Direction, ref: Option<nat>)
    requires WalletsOk(db.wallets) && KeysUnique(db.txs) && HashesOk(db.txs) && InboxOk(db.txs, db.inbox)
    requires Grounds(db.txs, id, dir, ref) && Affordable(db.wallets, db.txs[id], dir)
    requires SameIdentities(db.txs, Moved(db, id, db.txs[id], dir, ref).txs)
    ensures var db' := Moved(db, id, db.txs[id], dir, ref);
            WalletsOk(db'.wallets) && KeysUnique(db'.txs) && HashesOk(db'.txs) && InboxOk(db'.txs, db'.inbox)
  {
    var w := db.wallets[db.txs[id].wallet];
    MovedWallets(db.wallets, db.txs[id].wallet, After(w.balance, dir, db.txs[id].amount), w.version + 1);
    IdentitiesKeep(db.txs, Moved(db, id, db.txs[id], dir, ref).txs, db.inbox);
  }

  /** Any grounded and affordable movement, inline or resumed, keeps the invariant. */
  lemma MovedKeepsCore(db: Db, id: nat, dir: Direction, ref: Option<nat>)
    requires Core(db) && Grounds(db.txs, id, dir, ref) && Affordable(db.wallets, db.txs[id], dir)
    ensures Core(Moved(db, id, db.txs[id], dir, ref)) && SameIdentities(db.txs, Moved(db, id, db.txs[id], dir, ref).txs)
  {
    assert 0 <= db.wallets[db.txs[id].wallet].balance <= Int64.MAX;
    hide WalletsOk, RowsOk, KeysUnique, HashesOk, RefsOk, MarksExact, NoOverpayment, BalancesNet, ChainsOk, EntriesOk,
      EventsOk, WorkOk, InboxOk, Moved, Grounds, SameIdentities;
    MovedReferences(db, id, dir, ref);
    MovedRecords(db, id, dir, ref);
    MovedTables(db, id, dir, ref);
    MovedKeys(db, id, dir, ref);
  }

  lemma RewrittenRows(wallets: map<string, WalletRow>, wallets': map<string, WalletRow>, txs: seq<Tx>, txs': seq<Tx>,
                      id: nat, row: Tx, dir: Direction, ref: Option<nat>)
    requires RowsOk(wallets, txs) && RefsOk(txs) && Grounds(txs, id, dir, ref) && Rewritten(txs, txs', id, row, ref)
    requires wallets.Keys == wallets'.Keys
    requires forall w :: w in wallets ==>
               wallets[w].player == wallets'[w].player && wallets[w].currency == wallets'[w].currency
    requires row.state == Processed && row.result.Some? && row.observed.Some? && row.failure.None?
    requires Identity(row) == Identity(txs[id])
    ensures RowsOk(wallets', txs') && SameIdentities(txs, txs')
  {
    assert row.kind == txs[id].kind;
    assert row.wallet == txs[id].wallet && row.player == txs[id].player && row.origin == txs[id].origin;
    assert row.currency == txs[id].currency && row.amount == txs[id].amount;
    if ref.Some? {
      assert RefOk(txs, txs[ref.value]);
    }
    forall i | 0 <= i < |txs'|
      ensures RowOk(wallets', txs'[i]) && Identity(txs'[i]) == Identity(txs[i])
    {
      assert RowOk(wallets, txs[i]);
    }
  }
}
