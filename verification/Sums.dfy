/** How sums, counts and filtered views change when a table row is appended or rewritten. */
module Sums {
  import opened Wrappers
  import opened Domain
  import opened Tables
  import opened Engine
  import opened Invariant

  lemma NetAppend(txs: seq<Tx>, t: Tx, w: string)
    ensures Net(txs + [t], w) == Net(txs, w) + Contribution(t, w)
  {
    assert (txs + [t])[..|txs|] == txs;
  }

  lemma {:induction false} NetUpdate(txs: seq<Tx>, i: nat, t: Tx, w: string)
    requires i < |txs|
    ensures Net(txs[i := t], w) == Net(txs, w) - Contribution(txs[i], w) + Contribution(t, w)
  {
    var n := |txs| - 1;
    if i == n {
      assert txs[i := t][..n] == txs[..n];
    } else {
      NetUpdate(txs[..n], i, t, w);
      assert txs[i := t][..n] == txs[..n][i := t];
    }
  }

  /** If only row `k` changes what it contributes, the net changes by that row's difference. */
  lemma {:induction false} NetOneChange(a: seq<Tx>, b: seq<Tx>, k: nat, w: string)
    requires k < |a| == |b|
    requires forall i :: 0 <= i < |a| && i != k ==> Contribution(a[i], w) == Contribution(b[i], w)
    ensures Net(b, w) == Net(a, w) - Contribution(a[k], w) + Contribution(b[k], w)
  {
    var n := |a| - 1;
    if k < n {
      NetOneChange(a[..n], b[..n], k, w);
    } else {
      NetSame(a[..n], b[..n], w);
    }
  }

  lemma {:induction false} NetSame(a: seq<Tx>, b: seq<Tx>, w: string)
    requires |a| == |b| && forall i :: 0 <= i < |a| ==> Contribution(a[i], w) == Contribution(b[i], w)
    ensures Net(a, w) == Net(b, w)
  {
    if a != [] {
      NetSame(a[..|a| - 1], b[..|b| - 1], w);
    }
  }

  lemma LedgerAppend(ledger: seq<Entry>, e: Entry, w: string)
    ensures WalletLedger(ledger + [e], w) == WalletLedger(ledger, w) + if e.wallet == w then [e] else []
  {
    assert (ledger + [e])[..|ledger|] == ledger;
  }

  lemma EntryCountAppend(ledger: seq<Entry>, e: Entry, tx: nat)
    ensures EntryCount(ledger + [e], tx) == EntryCount(ledger, tx) + if e.tx == tx then 1 else 0
  {
    assert (ledger + [e])[..|ledger|] == ledger;
  }

  /** A transaction none of the entries mentions is counted zero times. */
  lemma {:induction false} EntryCountZero(ledger: seq<Entry>, tx: nat)
    requires forall k :: 0 <= k < |ledger| ==> ledger[k].tx != tx
    ensures EntryCount(ledger, tx) == 0
  {
    if ledger != [] {
      EntryCountZero(ledger[..|ledger| - 1], tx);
    }
  }

  lemma {:induction false} EntryCounted(ledger: seq<Entry>, k: nat)
    requires k < |ledger|
    ensures EntryCount(ledger, ledger[k].tx) >= 1
  {
    if k < |ledger| - 1 {
      EntryCounted(ledger[..|ledger| - 1], k);
    }
  }

  /** The counts and the balance stream of an outbox that gained one event. */
  lemma OutboxAppend(outbox: seq<Event>, e: Event, tx: nat)
    ensures ProcessedCount(outbox + [e], tx) ==
            ProcessedCount(outbox, tx) + if e.ProcessedEvent? && e.tx == tx then 1 else 0
    ensures RejectedCount(outbox + [e], tx) ==
            RejectedCount(outbox, tx) + if e.RejectedEvent? && e.tx == tx then 1 else 0
    ensures BalanceEvents(outbox + [e]) == BalanceEvents(outbox) + if e.BalanceEvent? then [e] else []
  {
    assert (outbox + [e])[..|outbox|] == outbox;
  }

  lemma OutboxAppendTwo(outbox: seq<Event>, p: Event, b: Event, tx: nat)
    requires p.ProcessedEvent? && b.BalanceEvent?
    ensures ProcessedCount(outbox + [p, b], tx) == ProcessedCount(outbox, tx) + if p.tx == tx then 1 else 0
    ensures RejectedCount(outbox + [p, b], tx) == RejectedCount(outbox, tx)
    ensures BalanceEvents(outbox + [p, b]) == BalanceEvents(outbox) + [b]
  {
    OutboxAppend(outbox, p, tx);
    OutboxAppend(outbox + [p], b, tx);
    assert outbox + [p] + [b] == outbox + [p, b];
  }

  lemma {:induction false} CountsZero(outbox: seq<Event>, tx: nat)
    requires forall k :: 0 <= k < |outbox| ==> outbox[k].tx != tx
    ensures ProcessedCount(outbox, tx) == 0 && RejectedCount(outbox, tx) == 0
  {
    if outbox != [] {
      CountsZero(outbox[..|outbox| - 1], tx);
    }
  }

  lemma AnnouncementsAppend(ledger: seq<Entry>, e: Entry)
    ensures Announcements(ledger + [e]) == Announcements(ledger) + [Announcement(e)]
  {
  }

  /** The signed sum of a wallet's entries. */
  function LedgerSum(chain: seq<Entry>): int {
    if chain == [] then 0
    else LedgerSum(chain[..|chain| - 1]) + After(0, chain[|chain| - 1].dir, chain[|chain| - 1].amount)
  }

  lemma {:induction false} ChainSums(chain: seq<Entry>, row: WalletRow)
    requires ChainOk(chain, row)
    ensures row.balance == LedgerSum(chain)
    decreases |chain|
  {
    if |chain| > 0 {
      var front, last := chain[..|chain| - 1], chain[|chain| - 1];
      ChainSums(front, row.(balance := last.before, version := row.version - 1));
    }
  }
}
