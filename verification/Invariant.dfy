/** What holds of the database between any two committed transactions. */
module Invariant {
  import opened Wrappers
  import opened Failures
  import opened Money
  import opened Domain
  import opened Tables
  import opened Engine
  import C = Canonical
  import Int64

  // ---------------------------------------------------------------- sums and counts

  /** What a row adds to the balance of wallet `w`: live openings and wins in, live bets out. */
  function Contribution(t: Tx, w: string): int {
    if t.wallet != w || t.state != Processed || t.reversal.Some? then 0
    else if t.kind == Opening || t.kind == Win then t.amount
    else if t.kind == Bet then -t.amount
    else 0
  }

  function Net(txs: seq<Tx>, w: string): int {
    if txs == [] then 0 else Net(txs[..|txs| - 1], w) + Contribution(txs[|txs| - 1], w)
  }

  function EntryCount(ledger: seq<Entry>, tx: nat): nat {
    if ledger == [] then 0
    else EntryCount(ledger[..|ledger| - 1], tx) + (if ledger[|ledger| - 1].tx == tx then 1 else 0)
  }

  function ProcessedCount(outbox: seq<Event>, tx: nat): nat {
    if outbox == [] then 0
    else
      var e := outbox[|outbox| - 1];
      ProcessedCount(outbox[..|outbox| - 1], tx) + (if e.ProcessedEvent? && e.tx == tx then 1 else 0)
  }

  function RejectedCount(outbox: seq<Event>, tx: nat): nat {
    if outbox == [] then 0
    else
      var e := outbox[|outbox| - 1];
      RejectedCount(outbox[..|outbox| - 1], tx) + (if e.RejectedEvent? && e.tx == tx then 1 else 0)
  }

  function BalanceEvents(outbox: seq<Event>): seq<Event> {
    if outbox == [] then []
    else
      var e, front := outbox[|outbox| - 1], BalanceEvents(outbox[..|outbox| - 1]);
      if e.BalanceEvent? then front + [e] else front
  }

  function Announcement(e: Entry): Event {
    BalanceEvent(e.tx, e.wallet, e.dir, Money(e.amount, e.currency), e.before, e.after, e.version)
  }

  function Announcements(ledger: seq<Entry>): seq<Event> {
    seq(|ledger|, k requires 0 <= k < |ledger| => Announcement(ledger[k]))
  }

  // ---------------------------------------------------------------- rows and parties

  ghost predicate WalletsOk(wallets: map<string, WalletRow>) {
    && "" !in wallets
    && (forall w :: w in wallets ==> 0 <= wallets[w].balance <= Int64.MAX && Rehydrates(wallets[w]))
    && (forall v, w | v in wallets && w in wallets ::
          wallets[v].player == wallets[w].player && wallets[v].currency == wallets[w].currency ==> v == w)
  }

  ghost predicate RowOk(wallets: map<string, WalletRow>, t: Tx) {
    && t.wallet in wallets
    && t.player == wallets[t.wallet].player
    && t.currency == wallets[t.wallet].currency
    && AmountFitsKind(t.kind, t.amount) && t.amount <= Int64.MAX
    && (t.origin.Internal? <==> t.kind == Opening)
    && (t.kind == Opening ==> t.state == Processed && t.amount > 0)
    && (IsWaiting(t.state) ==>
          t.refTx.None? && t.failure.None? && t.result.None? && t.observed.None? && t.reversal.None?)
    && (t.state == PendingReference ==> (t.kind == Win || IsReversal(t.kind)) && t.refExternal != "")
    && (t.state == Processed ==> t.result.Some? && t.observed.Some? && t.failure.None?)
    && (t.state == Rejected ==> t.result.Some? && t.observed.Some? && t.failure.Some? && t.reversal.None?)
    && (t.state == Failed ==> t.reversal.None?)
  }

  ghost predicate RowsOk(wallets: map<string, WalletRow>, txs: seq<Tx>) {
    forall i :: 0 <= i < |txs| ==> RowOk(wallets, txs[i])
  }

  /** At most one row per (provider, key) and per (provider, external id). */
  ghost predicate KeysUnique(txs: seq<Tx>) {
    && (forall i, j | 0 <= i < |txs| && 0 <= j < |txs| && txs[i].origin.External? ::
          HasKey(txs[j], txs[i].origin.provider, txs[i].origin.key) ==> i == j)
    && (forall i, j | 0 <= i < |txs| && 0 <= j < |txs| && txs[i].origin.External? ::
          HasExternal(txs[j], txs[i].origin.provider, txs[i].origin.id) ==> i == j)
  }

  // ---------------------------------------------------------------- references and reversals

  /** Two rows agree on provider, player, wallet, currency, round and amount. */
  predicate SameDeal(a: Tx, b: Tx) {
    Agrees(OperationOf(a), ReferenceView(b))
  }

  ghost predicate RefOk(txs: seq<Tx>, t: Tx) {
    t.state == Processed ==>
      && (IsReversal(t.kind) ==> t.refTx.Some?)
      && (t.kind == Bet || t.kind == Loss || t.kind == Opening ==> t.refTx.None?)
      && (t.refTx.Some? ==>
            var r := t.refTx.value;
            && r < |txs|
            && txs[r].state == Processed
            && SameDeal(t, txs[r])
            && (if t.kind == Win then txs[r].kind == Bet else MayReverse(t.kind, txs[r].kind)))
  }

  ghost predicate RefsOk(txs: seq<Tx>) {
    forall i :: 0 <= i < |txs| ==> RefOk(txs, txs[i])
  }

  /** A processed REFUND or ROLLBACK that nothing has reversed. */
  predicate LiveReversal(t: Tx) {
    t.state == Processed && IsReversal(t.kind) && t.reversal.None?
  }

  /** A row carries a mark exactly when a live reversal resolves to it, and the mark names that reversal. */
  ghost predicate MarksExact(txs: seq<Tx>) {
    && (forall t :: 0 <= t < |txs| && txs[t].reversal.Some? ==>
          var m := txs[t].reversal.value;
          m.reverser < |txs| && LiveReversal(txs[m.reverser]) && txs[m.reverser].refTx == Some(t)
          && txs[m.reverser].kind == m.kind)
    && (forall r :: 0 <= r < |txs| && LiveReversal(txs[r]) && txs[r].refTx.Some? ==>
          txs[r].refTx.value < |txs| && txs[txs[r].refTx.value].reversal == Some(Mark(txs[r].kind, r)))
  }

  /** No stake back plus prize: a live referenced WIN's BET is not reversed. */
  ghost predicate NoOverpayment(txs: seq<Tx>) {
    forall i :: 0 <= i < |txs| && txs[i].refTx.Some? && ActiveWin(txs[i], txs[i].refTx.value) ==>
      txs[i].refTx.value < |txs| && txs[txs[i].refTx.value].reversal.None?
  }

  // ---------------------------------------------------------------- money

  ghost predicate BalancesNet(wallets: map<string, WalletRow>, txs: seq<Tx>) {
    forall w :: w in wallets ==> wallets[w].balance == Net(txs, w)
  }

  /** One wallet's entries replay without gaps from zero to its stored balance and version. */
  ghost predicate ChainOk(chain: seq<Entry>, row: WalletRow) {
    && (forall k :: 0 <= k < |chain| ==>
          && chain[k].amount > 0
          && chain[k].currency == row.currency
          && chain[k].after == After(chain[k].before, chain[k].dir, chain[k].amount)
          && 0 <= chain[k].before <= Int64.MAX && 0 <= chain[k].after <= Int64.MAX
          && chain[k].version == row.version - (|chain| - 1 - k))
    && (forall k :: 0 < k < |chain| ==> chain[k].before == chain[k - 1].after)
    && (if chain == [] then row.balance == 0
        else chain[0].before == 0 && chain[|chain| - 1].after == row.balance)
    && (row.version == |chain| || row.version == |chain| + 1)
  }

  ghost predicate ChainsOk(wallets: map<string, WalletRow>, ledger: seq<Entry>) {
    forall w :: w in wallets ==> ChainOk(WalletLedger(ledger, w), wallets[w])
  }

  predicate Moves(t: Tx) {
    t.state == Processed && t.kind != Loss
  }

  /** The entry records what its transaction decided. */
  predicate Justifies(t: Tx, e: Entry) {
    && t.wallet == e.wallet
    && Moves(t)
    && t.amount == e.amount && t.currency == e.currency
    && t.result == Some(Money(e.after, e.currency)) && t.observed == Some(e.version)
    && (t.kind == Opening || t.kind == Win || t.kind == Refund ==> e.dir == Credit)
    && (t.kind == Bet ==> e.dir == Debit)
  }

  ghost predicate EntriesOk(txs: seq<Tx>, ledger: seq<Entry>) {
    && (forall k :: 0 <= k < |ledger| ==> ledger[k].tx < |txs| && Justifies(txs[ledger[k].tx], ledger[k]))
    && (forall t: nat :: t < |txs| ==> EntryCount(ledger, t) == if Moves(txs[t]) then 1 else 0)
  }

  // ---------------------------------------------------------------- events, work, inbox

  predicate Reports(t: Tx, e: Event) {
    && t.wallet == e.wallet
    && match e
       case ProcessedEvent(_, _, party, money, balance, version) =>
         && t.state == Processed && PartyOf(t) == party && MoneyOf(t) == money
         && t.result == Some(Money(balance, t.currency)) && t.observed == Some(version)
       case RejectedEvent(_, _, party, money, code, balance, version) =>
         && t.state == Rejected && PartyOf(t) == party && MoneyOf(t) == money && t.failure == Some(code)
         && t.result == Some(Money(balance, t.currency)) && t.observed == Some(version)
       case BalanceEvent(_, _, _, money, _, after, version) =>
         Moves(t) && MoneyOf(t) == money && t.result == Some(Money(after, t.currency)) && t.observed == Some(version)
       case PendingEvent(_, _, party, reference, _) => PartyOf(t) == party && t.refExternal == reference
  }

  ghost predicate EventsOk(txs: seq<Tx>, ledger: seq<Entry>, outbox: seq<Event>) {
    && BalanceEvents(outbox) == Announcements(ledger)
    && (forall k :: 0 <= k < |outbox| ==> outbox[k].tx < |txs| && Reports(txs[outbox[k].tx], outbox[k]))
    && (forall t: nat :: t < |txs| ==> ProcessedCount(outbox, t) == if txs[t].state == Processed then 1 else 0)
    && (forall t: nat :: t < |txs| ==> RejectedCount(outbox, t) == if txs[t].state == Rejected then 1 else 0)
  }

  /** A work row exists exactly for the transactions waiting on a reference. */
  ghost predicate WorkOk(txs: seq<Tx>, work: map<nat, Work>) {
    forall id: nat :: id in work <==> id < |txs| && txs[id].state == PendingReference
  }

  /** `b` is a business payload whose fields are the row's input columns. */
  ghost predicate Describes(b: C.Business, t: Tx) {
    && t.origin.External?
    && b.provider == t.origin.provider && b.external == t.origin.id
    && b.round == t.origin.round && b.game == t.origin.game
    && b.wallet == t.wallet && b.player == t.player && b.kind == KindText(t.kind)
    && b.reference == t.refExternal && b.currency == t.currency
    && Parsed(b.amount, b.currency) == Ok(Money(t.amount, t.currency))
  }

  /** The stored hash is the hash of a payload with the row's own columns. */
  ghost predicate HashOf(t: Tx) {
    exists b: C.Business :: Describes(b, t) && C.PayloadHash(b) == t.origin.hash
  }

  ghost predicate HashesOk(txs: seq<Tx>) {
    forall i :: 0 <= i < |txs| && txs[i].origin.External? ==> HashOf(txs[i])
  }

  ghost predicate Recorded(txs: seq<Tx>, hash: string) {
    exists i :: 0 <= i < |txs| && txs[i].origin.External? && txs[i].origin.hash == hash
  }

  /** Every consumed message left a transaction with the same hash. */
  ghost predicate InboxOk(txs: seq<Tx>, inbox: map<(string, string), string>) {
    forall slot :: slot in inbox ==> Recorded(txs, inbox[slot])
  }

  /** No committed row is left in the transient initial state. */
  ghost predicate Quiet(txs: seq<Tx>) {
    forall i :: 0 <= i < |txs| ==> txs[i].state != Pending
  }

  // ---------------------------------------------------------------- the invariant

  ghost predicate Core(db: Db) {
    && WalletsOk(db.wallets)
    && RowsOk(db.wallets, db.txs)
    && KeysUnique(db.txs)
    && HashesOk(db.txs)
    && RefsOk(db.txs)
    && MarksExact(db.txs)
    && NoOverpayment(db.txs)
    && BalancesNet(db.wallets, db.txs)
    && ChainsOk(db.wallets, db.ledger)
    && EntriesOk(db.txs, db.ledger)
    && EventsOk(db.txs, db.ledger, db.outbox)
    && WorkOk(db.txs, db.work)
    && InboxOk(db.txs, db.inbox)
  }

  ghost predicate Inv(db: Db) {
    Core(db) && Quiet(db.txs)
  }
}
