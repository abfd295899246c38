/**
 The database of the service: wallets, wager transactions, ledger, outbox, work items
 and inbox (migrations/), with the queries of internal/adapters/postgres. A row of an
 append-only table is identified by its position, which stands for a fresh id.
 */
module Tables {
  import opened Wrappers
  import opened Failures
  import opened Money
  import opened Domain

  datatype Origin =
    | Internal
    | External(provider: string, id: string, key: string, hash: string, round: string, game: string)

  datatype Mark = Mark(kind: Kind, reverser: nat)

  /** A wager_transactions row. `refExternal` is "" when the column is null. */
  datatype Tx = Tx(
    origin: Origin, wallet: string, player: string, kind: Kind, amount: int, currency: string,
    refExternal: string, refTx: Option<nat>, state: State, failure: Option<Code>,
    result: Option<Money>, observed: Option<int>, reversal: Option<Mark>)

  datatype Entry = Entry(
    wallet: string, tx: nat, dir: Direction, amount: int, currency: string,
    before: int, after: int, version: int)

  /** Who asked for what: the identifying fields an event repeats from its transaction. */
  datatype Party = Party(kind: Kind, provider: string, external: string, player: string)

  function PartyOf(t: Tx): Party {
    if t.origin.External? then Party(t.kind, t.origin.provider, t.origin.id, t.player)
    else Party(t.kind, "", "", t.player)
  }

  function MoneyOf(t: Tx): Money {
    Money(t.amount, t.currency)
  }

  datatype Event =
    | ProcessedEvent(tx: nat, wallet: string, party: Party, money: Money, balance: int, version: int)
    | BalanceEvent(tx: nat, wallet: string, dir: Direction, money: Money, before: int, after: int, version: int)
    | RejectedEvent(tx: nat, wallet: string, party: Party, money: Money, code: Code, balance: int, version: int)
    | PendingEvent(tx: nat, wallet: string, party: Party, reference: string, version: int)

  datatype Lease = Lease(owner: string, expires: int)

  datatype Work = Work(
    refAttempts: nat, infraAttempts: nat, nextAt: int, createdAt: int, lease: Option<Lease>)

  datatype Db = Db(
    wallets: map<string, WalletRow>,
    txs: seq<Tx>,
    ledger: seq<Entry>,
    outbox: seq<Event>,
    work: map<nat, Work>,
    inbox: map<(string, string), string>)

  const EMPTY := Db(map[], [], [], [], map[], map[])

  // ---------------------------------------------------------------- queries

  predicate HasExternal(t: Tx, provider: string, id: string) {
    t.origin.External? && t.origin.provider == provider && t.origin.id == id
  }

  predicate HasKey(t: Tx, provider: string, key: string) {
    t.origin.External? && t.origin.provider == provider && t.origin.key == key
  }

  function FindByProviderExternal(txs: seq<Tx>, provider: string, id: string): (r: Option<nat>)
    ensures r.Some? ==> r.value < |txs| && HasExternal(txs[r.value], provider, id)
    ensures r.None? ==> forall i :: 0 <= i < |txs| ==> !HasExternal(txs[i], provider, id)
  {
    if txs == [] then None
    else if HasExternal(txs[|txs| - 1], provider, id) then Some(|txs| - 1)
    else FindByProviderExternal(txs[..|txs| - 1], provider, id)
  }

  function FindByProviderKey(txs: seq<Tx>, provider: string, key: string): (r: Option<nat>)
    ensures r.Some? ==> r.value < |txs| && HasKey(txs[r.value], provider, key)
    ensures r.None? ==> forall i :: 0 <= i < |txs| ==> !HasKey(txs[i], provider, key)
  {
    if txs == [] then None
    else if HasKey(txs[|txs| - 1], provider, key) then Some(|txs| - 1)
    else FindByProviderKey(txs[..|txs| - 1], provider, key)
  }

  /** A processed WIN that nothing has reversed and whose resolved reference is `bet`. */
  predicate ActiveWin(t: Tx, bet: nat) {
    t.refTx == Some(bet) && t.kind == Win && t.state == Processed && t.reversal.None?
  }

  predicate HasActiveWin(txs: seq<Tx>, bet: nat) {
    exists i :: 0 <= i < |txs| && ActiveWin(txs[i], bet)
  }

  /** The unique constraint (wallet_id, transaction_id) of the ledger is already taken. */
  predicate HasEntry(ledger: seq<Entry>, wallet: string, tx: nat) {
    exists i :: 0 <= i < |ledger| && ledger[i].wallet == wallet && ledger[i].tx == tx
  }

  /** The entries of one wallet, in the order they were appended. */
  function WalletLedger(ledger: seq<Entry>, wallet: string): seq<Entry> {
    if ledger == [] then []
    else
      var rest := WalletLedger(ledger[..|ledger| - 1], wallet);
      var last := ledger[|ledger| - 1];
      if last.wallet == wallet then rest + [last] else rest
  }

  // ---------------------------------------------------------------- row writes

  /** The columns UpdateState writes; inputs and reversal columns stay as they are. */
  function Overwrite(row: Tx, rec: Tx): Tx {
    row.(state := rec.state, failure := rec.failure, result := rec.result, refTx := rec.refTx, observed := rec.observed)
  }

  function MarkReversed(txs: seq<Tx>, target: nat, kind: Kind, reverser: nat): seq<Tx>
    requires target < |txs|
  {
    txs[target := txs[target].(reversal := Some(Mark(kind, reverser)))]
  }

  function ClearReversal(txs: seq<Tx>, target: nat): seq<Tx>
    requires target < |txs|
  {
    txs[target := txs[target].(reversal := None)]
  }
}
