/** Opening a wallet (internal/wagering/wallet.go) keeps the invariant. */
module Opening {
  import opened Wrappers
  import opened Failures
  import opened Money
  import opened Domain
  import opened Tables
  import opened Engine
  import opened Invariant
  import opened Sums
  import opened Settling
  import opened Resting
  import Int64

  lemma {:induction false} NetOfStranger(wallets: map<string, WalletRow>, txs: seq<Tx>, w: string)
    requires RowsOk(wallets, txs) && w !in wallets
    ensures Net(txs, w) == 0
  {
    if txs != [] {
      assert RowOk(wallets, txs[|txs| - 1]);
      NetOfStranger(wallets, txs[..|txs| - 1], w);
    }
  }

  lemma {:induction false} LedgerOfStranger(ledger: seq<Entry>, w: string)
    requires forall k :: 0 <= k < |ledger| ==> ledger[k].wallet != w
    ensures WalletLedger(ledger, w) == []
  {
    if ledger != [] {
      LedgerOfStranger(ledger[..|ledger| - 1], w);
    }
  }

  lemma EntriesNameWallets(wallets: map<string, WalletRow>, txs: seq<Tx>, ledger: seq<Entry>)
    requires RowsOk(wallets, txs) && EntriesOk(txs, ledger)
    ensures forall k :: 0 <= k < |ledger| ==> ledger[k].wallet in wallets
  {
    forall k | 0 <= k < |ledger|
      ensures ledger[k].wallet in wallets
    {
      assert Justifies(txs[ledger[k].tx], ledger[k]) && RowOk(wallets, txs[ledger[k].tx]);
    }
  }

  /** A new wallet row, before any opening credit is recorded. */
  lemma NewWalletRow(wallets: map<string, WalletRow>, txs: seq<Tx>, w: string, row: WalletRow)
    requires WalletsOk(wallets) && RowsOk(wallets, txs) && w !in wallets && w != ""
    requires 0 <= row.balance <= Int64.MAX && Rehydrates(row)
    requires forall v :: v in wallets ==> wallets[v].player != row.player || wallets[v].currency != row.currency
    ensures WalletsOk(wallets[w := row]) && RowsOk(wallets[w := row], txs)
  {
    forall i | 0 <= i < |txs|
      ensures RowOk(wallets[w := row], txs[i])
    {
      assert RowOk(wallets, txs[i]);
    }
  }

  lemma NewWalletChains(wallets: map<string, WalletRow>, ledger: seq<Entry>, w: string, row: WalletRow,
                        more: seq<Entry>)
    requires ChainsOk(wallets, ledger) && w !in wallets && ChainOk(more, row) && |more| <= 1
    requires forall k :: 0 <= k < |ledger| ==> ledger[k].wallet in wallets
    requires forall k :: 0 <= k < |more| ==> more[k].wallet == w
    ensures ChainsOk(wallets[w := row], ledger + more)
  {
    hide ChainOk;
    LedgerOfStranger(ledger, w);
    forall v | v in wallets[w := row]
      ensures ChainOk(WalletLedger(ledger + more, v), wallets[w := row][v])
    {
      LedgerGains(ledger, w, more, v);
      if v == w {
        assert WalletLedger(ledger, v) + more == more;
      } else {
        assert WalletLedger(ledger, v) + [] == WalletLedger(ledger, v);
      }
    }
  }

  lemma LedgerGains(ledger: seq<Entry>, w: string, more: seq<Entry>, v: string)
    requires |more| <= 1 && forall k :: 0 <= k < |more| ==> more[k].wallet == w
    ensures WalletLedger(ledger + more, v) == WalletLedger(ledger, v) + if v == w then more else []
  {
    if more == [] {
      assert ledger + more == ledger;
    } else {
      assert more == [more[0]];
      LedgerAppend(ledger, more[0], v);
    }
  }

  lemma ZeroOpening(db: Db, w: string, row: WalletRow)
    requires Core(db) && w !in db.wallets && w != "" && row.balance == 0 && row.version == 1
    requires ValidCurrency(row.currency)
    requires forall v :: v in db.wallets ==>
               db.wallets[v].player != row.player || db.wallets[v].currency != row.currency
    ensures Core(db.(wallets := db.wallets[w := row]))
  {
    hide RefsOk, MarksExact, NoOverpayment, ChainsOk, EventsOk, KeysUnique, HashesOk, InboxOk, WorkOk, EntriesOk,
      WalletsOk, RowsOk;
    NewWalletRow(db.wallets, db.txs, w, row);
    EntriesNameWallets(db.wallets, db.txs, db.ledger);
    NewWalletChains(db.wallets, db.ledger, w, row, []);
    assert db.ledger + [] == db.ledger;
    NetOfStranger(db.wallets, db.txs, w);
  }

  lemma OpeningReferences(wallets: map<string, WalletRow>, txs: seq<Tx>, w: string, row: WalletRow, t: Tx)
    requires RowsOk(wallets, txs) && w !in wallets
    requires RefsOk(txs) && MarksExact(txs) && NoOverpayment(txs) && BalancesNet(wallets, txs)
    requires t == OpeningRow(w, row.player, Money(row.balance, row.currency))
    ensures RefsOk(txs + [t]) && MarksExact(txs + [t]) && NoOverpayment(txs + [t])
    ensures BalancesNet(wallets[w := row], txs + [t])
  {
    PlainRowJoins(txs, t);
    OpeningBalances(wallets, txs, w, row, t);
  }

  lemma OpeningBalances(wallets: map<string, WalletRow>, txs: seq<Tx>, w: string, row: WalletRow, t: Tx)
    requires RowsOk(wallets, txs) && w !in wallets && BalancesNet(wallets, txs)
    requires t == OpeningRow(w, row.player, Money(row.balance, row.currency))
    ensures BalancesNet(wallets[w := row], txs + [t])
  {
    NetOfStranger(wallets, txs, w);
    forall v | v in wallets[w := row]
      ensures wallets[w := row][v].balance == Net(txs + [t], v)
    {
      NetAppend(txs, t, v);
    }
  }

  /** A row without reference and without mark changes nothing about references and marks. */
  lemma PlainRowJoins(txs: seq<Tx>, t: Tx)
    requires RefsOk(txs) && MarksExact(txs) && NoOverpayment(txs)
    requires t.refTx.None? && t.reversal.None? && !IsReversal(t.kind)
    ensures RefsOk(txs + [t]) && MarksExact(txs + [t]) && NoOverpayment(txs + [t])
  {
    forall i | 0 <= i < |txs + [t]|
      ensures RefOk(txs + [t], (txs + [t])[i])
    {
      if i < |txs| {
        assert RefOk(txs, txs[i]);
      }
    }
  }

  lemma OpeningEntries(txs: seq<Tx>, t: Tx, ledger: seq<Entry>, e: Entry, work: map<nat, Work>)
    requires EntriesOk(txs, ledger) && WorkOk(txs, work) && e.tx == |txs| && Justifies(t, e) && t.state == Processed
    ensures EntriesOk(txs + [t], ledger + [e]) && WorkOk(txs + [t], work)
  {
    EntryCountZero(ledger, |txs|);
    forall n: nat | n < |txs + [t]|
      ensures EntryCount(ledger + [e], n) == EntryCount(ledger, n) + if n == |txs| then 1 else 0
    {
      EntryCountAppend(ledger, e, n);
    }
  }

  lemma OpeningEvents(txs: seq<Tx>, t: Tx, ledger: seq<Entry>, e: Entry, outbox: seq<Event>, p: Event)
    requires EventsOk(txs, ledger, outbox) && e.tx == p.tx == |txs| && t.state == Processed
    requires p.ProcessedEvent? && Reports(t, p) && Reports(t, Announcement(e))
    ensures EventsOk(txs + [t], ledger + [e], outbox + [p, Announcement(e)])
  {
    CountsZero(outbox, |txs|);
    AnnouncementsAppend(ledger, e);
    OutboxAppendTwo(outbox, p, Announcement(e), |txs|);
    forall n: nat | n < |txs + [t]|
      ensures ProcessedCount(outbox + [p, Announcement(e)], n) ==
              ProcessedCount(outbox, n) + if n == |txs| then 1 else 0
      ensures RejectedCount(outbox + [p, Announcement(e)], n) == RejectedCount(outbox, n)
    {
      OutboxAppendTwo(outbox, p, Announcement(e), n);
    }
  }

  lemma OpeningTables(wallets: map<string, WalletRow>, txs: seq<Tx>, t: Tx, inbox: map<(string, string), string>)
    requires RowsOk(wallets, txs) && RowOk(wallets, t) && t.origin.Internal?
    requires KeysUnique(txs) && HashesOk(txs) && InboxOk(txs, inbox)
    ensures RowsOk(wallets, txs + [t]) && KeysUnique(txs + [t]) && HashesOk(txs + [t]) && InboxOk(txs + [t], inbox)
  {
    InboxGrows(txs, [t], inbox);
  }

  lemma OpeningWallet(db: Db, w: string, row: WalletRow, t: Tx, e: Entry)
    requires WalletsOk(db.wallets) && RowsOk(db.wallets, db.txs) && ChainsOk(db.wallets, db.ledger)
    requires EntriesOk(db.txs, db.ledger)
    requires w !in db.wallets && w != "" && 0 < row.balance <= Int64.MAX && row.version == 1
    requires ValidCurrency(row.currency)
    requires forall v :: v in db.wallets ==>
               db.wallets[v].player != row.player || db.wallets[v].currency != row.currency
    requires t == OpeningRow(w, row.player, Money(row.balance, row.currency))
    requires e == Entry(w, |db.txs|, Credit, row.balance, row.currency, 0, row.balance, 1)
    ensures WalletsOk(db.wallets[w := row]) && RowsOk(db.wallets[w := row], db.txs) && RowOk(db.wallets[w := row], t)
    ensures ChainsOk(db.wallets[w := row], db.ledger + [e])
  {
    NewWalletRow(db.wallets, db.txs, w, row);
    EntriesNameWallets(db.wallets, db.txs, db.ledger);
    NewWalletChains(db.wallets, db.ledger, w, row, [e]);
  }

  lemma PositiveOpening(db: Db, db': Db, w: string, row: WalletRow, t: Tx, e: Entry, p: Event)
    requires Core(db) && w !in db.wallets && w != "" && 0 < row.balance <= Int64.MAX && row.version == 1
    requires ValidCurrency(row.currency)
    requires forall v :: v in db.wallets ==>
               db.wallets[v].player != row.player || db.wallets[v].currency != row.currency
    requires t == OpeningRow(w, row.player, Money(row.balance, row.currency))
    requires e == Entry(w, |db.txs|, Credit, row.balance, row.currency, 0, row.balance, 1)
    requires p == ProcessedEvent(|db.txs|, w, PartyOf(t), MoneyOf(t), row.balance, 1)
    requires db' == db.(wallets := db.wallets[w := row], txs := db.txs + [t], ledger := db.ledger + [e],
                        outbox := db.outbox + [p, Announcement(e)])
    ensures Core(db')
  {
    OpeningWallet(db, w, row, t, e);
    OpeningReferences(db.wallets, db.txs, w, row, t);
    OpeningEntries(db.txs, t, db.ledger, e, db.work);
    OpeningEvents(db.txs, t, db.ledger, e, db.outbox, p);
    OpeningTables(db.wallets[w := row], db.txs, t, db.inbox);
  }

  lemma OpenedKeepsInv(db: Db, w: string, player: string, currency: string, text: string)
    requires Inv(db)
    ensures Inv(Opened(db, w, player, currency, text).0)
  {
    hide Core;
    var m := Parsed(text, currency);
    if m.Ok? && w != "" && player != "" && !WalletTaken(db, w, player, currency) {
      var row := WalletRow(player, currency, m.value.minor, 1);
      if row.balance == 0 {
        ZeroOpening(db, w, row);
      } else {
        var id := |db.txs|;
        PositiveOpening(db, Opened(db, w, player, currency, text).0, w, row, OpeningRow(w, player, m.value),
                        Entry(w, id, Credit, row.balance, currency, 0, row.balance, 1),
                        ProcessedEvent(id, w, Party(Kind.Opening, "", "", player), m.value, row.balance, 1));
      }
    }
  }
}
