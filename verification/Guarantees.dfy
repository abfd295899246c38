/** What every reachable database guarantees, stated without reference to how it was reached. */
module Guarantees {
  import opened Wrappers
  import opened Failures
  import opened Money
  import opened Domain
  import opened Tables
  import opened Engine
  import opened Invariant
  import opened Sums
  import opened Settling
  import opened Steps
  import opened History
  import C = Canonical
  import Int64

  // ---------------------------------------------------------------- conservation

  predicate Live(t: Tx, w: string, k: Kind) {
    t.wallet == w && t.kind == k && t.state == Processed && t.reversal.None?
  }

  /** The total of the unreversed PROCESSED rows of one kind in one wallet. */
  function LiveTotal(txs: seq<Tx>, w: string, k: Kind): int {
    if txs == [] then 0
    else
      var t := txs[|txs| - 1];
      LiveTotal(txs[..|txs| - 1], w, k) + if Live(t, w, k) then t.amount else 0
  }

  /** The amount the wallet was opened with: its OPENING rows, reversed or not. */
  function OpeningOf(txs: seq<Tx>, w: string): int {
    if txs == [] then 0
    else
      var t := txs[|txs| - 1];
      OpeningOf(txs[..|txs| - 1], w) + if t.kind == Kind.Opening && t.wallet == w then t.amount else 0
  }

  lemma {:induction false} NetSplits(txs: seq<Tx>, w: string)
    requires forall i :: 0 <= i < |txs| && txs[i].kind == Kind.Opening ==>
               txs[i].state == Processed && txs[i].reversal.None?
    ensures Net(txs, w) == OpeningOf(txs, w) + LiveTotal(txs, w, Win) - LiveTotal(txs, w, Bet)
  {
    if txs != [] {
      NetSplits(txs[..|txs| - 1], w);
    }
  }

  /** Nothing reverses an OPENING. */
  lemma OpeningsStand(db: Db)
    requires RowsOk(db.wallets, db.txs) && RefsOk(db.txs) && MarksExact(db.txs)
    ensures forall i :: 0 <= i < |db.txs| && db.txs[i].kind == Kind.Opening ==>
              db.txs[i].state == Processed && db.txs[i].reversal.None?
  {
    forall i | 0 <= i < |db.txs| && db.txs[i].kind == Kind.Opening
      ensures db.txs[i].state == Processed && db.txs[i].reversal.None?
    {
      assert RowOk(db.wallets, db.txs[i]);
      assert forall r :: 0 <= r < |db.txs| ==> RefOk(db.txs, db.txs[r]);
    }
  }

  /** In every reachable database a balance is the opening amount plus the unreversed processed WINs
      minus the unreversed processed BETs, whatever refunds, rollbacks and voids came between. */
  lemma Conservation(steps: seq<Step>, w: string)
    requires w in Run(steps).wallets
    ensures var db := Run(steps);
            && db.wallets[w].balance == OpeningOf(db.txs, w) + LiveTotal(db.txs, w, Win) - LiveTotal(db.txs, w, Bet)
            && 0 <= db.wallets[w].balance <= Int64.MAX
  {
    var db := Run(steps);
    RunHasInv(steps);
    OpeningsStand(db);
    NetSplits(db.txs, w);
    assert BalancesNet(db.wallets, db.txs) && WalletsOk(db.wallets);
  }

  lemma {:induction false} OpeningOfPrefix(a: seq<Tx>, b: seq<Tx>, w: string)
    requires |a| <= |b|
    requires forall i :: 0 <= i < |a| ==>
               a[i].kind == b[i].kind && a[i].wallet == b[i].wallet && a[i].amount == b[i].amount
    requires forall i :: |a| <= i < |b| && b[i].kind == Kind.Opening ==> b[i].wallet != w
    ensures OpeningOf(a, w) == OpeningOf(b, w)
    decreases |b|
  {
    if |a| < |b| {
      OpeningOfPrefix(a, b[..|b| - 1], w);
    } else if a != [] {
      OpeningOfPrefix(a[..|a| - 1], b[..|b| - 1], w);
    }
  }

  lemma OpeningIsForever(db: Db, db': Db, w: string)
    requires Evolves(db, db') && w in db.wallets
    ensures OpeningOf(db'.txs, w) == OpeningOf(db.txs, w)
  {
    forall i | 0 <= i < |db.txs|
      ensures db.txs[i].kind == db'.txs[i].kind && db.txs[i].wallet == db'.txs[i].wallet
      ensures db.txs[i].amount == db'.txs[i].amount
    {
      assert RowEvolves(db.txs[i], db'.txs[i]);
      assert Identity(db.txs[i]).amount == Identity(db'.txs[i]).amount;
    }
    OpeningOfPrefix(db.txs, db'.txs, w);
  }

  lemma OpenedAmount(db: Db, w: string, player: string, currency: string, text: string)
    requires RowsOk(db.wallets, db.txs) && Opened(db, w, player, currency, text).1.Done?
    ensures var db' := Opened(db, w, player, currency, text).0;
            w in db'.wallets && OpeningOf(db'.txs, w) == Parsed(text, currency).value.minor
  {
    var db' := Opened(db, w, player, currency, text).0;
    StrangersHaveNoOpening(db.wallets, db.txs, w);
    if db'.txs != db.txs {
      assert db'.txs[..|db'.txs| - 1] == db.txs;
    }
  }

  lemma {:induction false} StrangersHaveNoOpening(wallets: map<string, WalletRow>, txs: seq<Tx>, w: string)
    requires RowsOk(wallets, txs) && w !in wallets
    ensures OpeningOf(txs, w) == 0
  {
    if txs != [] {
      assert RowOk(wallets, txs[|txs| - 1]);
      StrangersHaveNoOpening(wallets, txs[..|txs| - 1], w);
    }
  }

  /** From the text a wallet was opened with, at any later point of any run. */
  lemma ConservationFromOpening(before: seq<Step>, w: string, player: string, currency: string, text: string,
                                later: seq<Step>)
    requires Opened(Run(before), w, player, currency, text).1.Done?
    ensures var db := Run(before + [OpenWallet(w, player, currency, text)] + later);
            && w in db.wallets
            && db.wallets[w].balance ==
                 Parsed(text, currency).value.minor + LiveTotal(db.txs, w, Win) - LiveTotal(db.txs, w, Bet)
  {
    hide Inv, Evolves, Opened;
    var open := OpenWallet(w, player, currency, text);
    var steps, n := before + [open] + later, |before| + 1;
    assert steps[..n] == before + [open];
    assert (before + [open])[..|before|] == before;
    RunHasInv(before);
    RowsAreOk(Run(before));
    OpenedAmount(Run(before), w, player, currency, text);
    RunEvolves(steps, n);
    EvolvedWallet(Run(steps[..n]), Run(steps), w);
    OpeningIsForever(Run(steps[..n]), Run(steps), w);
    Conservation(steps, w);
  }

  lemma RowsAreOk(db: Db)
    requires Inv(db)
    ensures RowsOk(db.wallets, db.txs)
  {
  }

  lemma EvolvedWallet(db: Db, db': Db, w: string)
    requires Evolves(db, db') && w in db.wallets
    ensures w in db'.wallets
  {
  }

  // ---------------------------------------------------------------- reversals

  /** `t` carries the mark of `r` if and only if `r` is a processed, unreversed REFUND or ROLLBACK of `t`. */
  lemma ReversalMarksAreExact(steps: seq<Step>, t: nat, r: nat)
    requires t < |Run(steps).txs| && r < |Run(steps).txs|
    ensures var mark, row := Run(steps).txs[t].reversal, Run(steps).txs[r];
            mark == Some(Mark(row.kind, r)) <==>
              && row.state == Processed && (row.kind == Refund || row.kind == Rollback)
              && row.reversal.None? && row.refTx == Some(t)
  {
    RunHasInv(steps);
    assert MarksExact(Run(steps).txs);
  }

  /** No target ever has two live reversals. */
  lemma OneLiveReversal(steps: seq<Step>, r: nat, s: nat)
    requires r < |Run(steps).txs| && s < |Run(steps).txs|
    requires Run(steps).txs[r].state == Processed && Run(steps).txs[r].reversal.None?
    requires Run(steps).txs[s].state == Processed && Run(steps).txs[s].reversal.None?
    requires Run(steps).txs[r].kind == Refund || Run(steps).txs[r].kind == Rollback
    requires Run(steps).txs[s].kind == Refund || Run(steps).txs[s].kind == Rollback
    requires Run(steps).txs[r].refTx == Run(steps).txs[s].refTx
    ensures r == s
  {
    RunHasInv(steps);
    var txs := Run(steps).txs;
    assert MarksExact(txs) && RefOk(txs, txs[r]);
    assert LiveReversal(txs[r]) && LiveReversal(txs[s]);
  }

  /** A committed transaction takes the mark `m` from a row if and only if it reverses the reversal `m` names.
      Then that reversal is a REFUND of a BET, voided by a ROLLBACK, and the BET's slot is free or names a
      new live reversal. */
  lemma VoidingFreesItsOwnMark(steps: seq<Step>, s: Step, t: nat)
    requires t < |Run(steps).txs| && Run(steps).txs[t].reversal.Some?
    ensures var before, after := Run(steps).txs, Next(Run(steps), s).txs;
            var m := before[t].reversal.value;
            && t < |before| <= |after| && m.reverser < |before|
            && (after[t].reversal != Some(m) <==> after[m.reverser].reversal.Some?)
            && (after[t].reversal != Some(m) ==>
                  && m.kind == Refund && after[t].kind == Bet
                  && after[m.reverser].reversal.value.kind == Rollback
                  && (after[t].reversal.Some? ==>
                        var r := after[t].reversal.value.reverser;
                        r != m.reverser && r < |after| && LiveReversal(after[r]) && after[r].refTx == Some(t)))
  {
    hide Inv, Evolves, Next, Run;
    var db, db' := Run(steps), Next(Run(steps), s);
    RunHasInv(steps);
    NextKeepsInv(db, s);
    NextEvolves(db, s);
    MarksAndRefs(db);
    MarksAndRefs(db');
    MarkFalls(db, db', t);
  }

  lemma MarksAndRefs(db: Db)
    requires Inv(db)
    ensures MarksExact(db.txs) && RefsOk(db.txs)
  {
  }

  lemma MarkFalls(db: Db, db': Db, t: nat)
    requires MarksExact(db.txs) && RefsOk(db.txs) && MarksExact(db'.txs) && RefsOk(db'.txs) && Evolves(db, db')
    requires t < |db.txs| && db.txs[t].reversal.Some?
    ensures var before, after := db.txs, db'.txs;
            var m := before[t].reversal.value;
            && t < |before| <= |after| && m.reverser < |before|
            && (after[t].reversal != Some(m) <==> after[m.reverser].reversal.Some?)
            && (after[t].reversal != Some(m) ==>
                  && m.kind == Refund && after[t].kind == Bet
                  && after[m.reverser].reversal.value.kind == Rollback
                  && (after[t].reversal.Some? ==>
                        var r := after[t].reversal.value.reverser;
                        r != m.reverser && r < |after| && LiveReversal(after[r]) && after[r].refTx == Some(t)))
  {
    var before, after := db.txs, db'.txs;
    var m := before[t].reversal.value;
    var r := m.reverser;
    assert RowEvolves(before[r], after[r]) && RowEvolves(before[t], after[t]);
    assert after[r] == before[r].(reversal := after[r].reversal);
    assert RefOk(after, after[r]);
    if after[r].reversal.Some? {
      assert RefOk(after, after[after[r].reversal.value.reverser]);
    }
  }

  /** While an unreversed processed WIN stands on a row, nothing reverses that row. */
  lemma NoStakeBackPlusPrize(steps: seq<Step>, bet: nat, win: nat, r: nat)
    requires bet < |Run(steps).txs| && win < |Run(steps).txs| && r < |Run(steps).txs|
    requires Run(steps).txs[win].kind == Win && Run(steps).txs[win].state == Processed
    requires Run(steps).txs[win].reversal.None? && Run(steps).txs[win].refTx == Some(bet)
    ensures Run(steps).txs[bet].reversal.None?
    ensures var row := Run(steps).txs[r];
            row.state == Processed && (row.kind == Refund || row.kind == Rollback) && row.refTx == Some(bet) ==>
              row.reversal.Some?
  {
    RunHasInv(steps);
    var txs := Run(steps).txs;
    assert NoOverpayment(txs) && MarksExact(txs);
    assert ActiveWin(txs[win], bet);
    assert LiveReversal(txs[r]) || !LiveReversal(txs[r]);
  }

  /** A resolved reference is another PROCESSED row of the same provider, player, wallet, currency, round and
      amount: of a WIN or REFUND a BET, of a ROLLBACK a BET, WIN or REFUND. */
  lemma ReferencesAgree(steps: seq<Step>, i: nat)
    requires i < |Run(steps).txs| && Run(steps).txs[i].state == Processed && Run(steps).txs[i].refTx.Some?
    ensures var txs := Run(steps).txs;
            var r := txs[i].refTx.value;
            && r < |txs| && r != i && txs[r].state == Processed
            && PartyOf(txs[r]).provider == PartyOf(txs[i]).provider && txs[r].player == txs[i].player
            && txs[r].wallet == txs[i].wallet && txs[r].currency == txs[i].currency
            && Round(txs[r]) == Round(txs[i]) && txs[r].amount == txs[i].amount
            && (txs[i].kind == Win || txs[i].kind == Refund ==> txs[r].kind == Bet)
            && (txs[i].kind == Rollback ==> txs[r].kind == Bet || txs[r].kind == Win || txs[r].kind == Refund)
            && (txs[i].kind == Win || txs[i].kind == Refund || txs[i].kind == Rollback)
  {
    RunHasInv(steps);
    assert RefOk(Run(steps).txs, Run(steps).txs[i]);
  }

  // ---------------------------------------------------------------- lifecycle

  /** A decided transaction keeps its state, code, observed balance, version and reference for good. */
  lemma TerminalIsForever(steps: seq<Step>, n: nat, id: nat)
    requires n <= |steps| && id < |Run(steps[..n]).txs| && IsTerminal(Run(steps[..n]).txs[id].state)
    ensures id < |Run(steps).txs|
    ensures var t, t' := Run(steps[..n]).txs[id], Run(steps).txs[id]; t' == t.(reversal := t'.reversal)
  {
    RunEvolves(steps, n);
    assert RowEvolves(Run(steps[..n]).txs[id], Run(steps).txs[id]);
  }

  /** Every state a row shows later is one CanTransition reaches from the state it showed before. */
  lemma StatesFollowTheMachine(steps: seq<Step>, n: nat, id: nat)
    requires n <= |steps| && id < |Run(steps).txs|
    ensures id < |Run(steps[..n]).txs| ==>
              Run(steps[..n]).txs[id].state == Run(steps).txs[id].state
              || CanTransition(Run(steps[..n]).txs[id].state, Run(steps).txs[id].state)
    ensures id >= |Run(steps[..n]).txs| ==> CanTransition(Pending, Run(steps).txs[id].state)
  {
    RunEvolves(steps, n);
    if id < |Run(steps[..n]).txs| {
      assert RowEvolves(Run(steps[..n]).txs[id], Run(steps).txs[id]);
    }
  }

  /** Work rows are exactly the parked transactions. */
  lemma WorkRowIffParked(steps: seq<Step>, id: nat)
    ensures id in Run(steps).work <==> id < |Run(steps).txs| && Run(steps).txs[id].state == PendingReference
  {
    RunHasInv(steps);
    assert WorkOk(Run(steps).txs, Run(steps).work);
  }

  // ---------------------------------------------------------------- ledger and events

  /** A PROCESSED transaction other than a LOSS has exactly one ledger entry, any other none; the entry has
      its wallet, amount, currency, balance and version, and the direction of its kind. */
  lemma OneEntryPerMovement(steps: seq<Step>, id: nat)
    requires id < |Run(steps).txs|
    ensures var t := Run(steps).txs[id];
            EntryCount(Run(steps).ledger, id) == if t.state == Processed && t.kind != Loss then 1 else 0
    ensures var t := Run(steps).txs[id];
            forall k :: 0 <= k < |Run(steps).ledger| && Run(steps).ledger[k].tx == id ==>
              var e := Run(steps).ledger[k];
              && e.wallet == t.wallet && e.amount == t.amount && e.currency == t.currency
              && t.result == Some(Money(e.after, e.currency)) && t.observed == Some(e.version)
              && (t.kind == Kind.Opening || t.kind == Win || t.kind == Refund ==> e.dir == Credit)
              && (t.kind == Bet ==> e.dir == Debit)
  {
    RunHasInv(steps);
    EntriesOfRun(Run(steps));
  }

  lemma EntriesOfRun(db: Db)
    requires Inv(db)
    ensures forall k :: 0 <= k < |db.ledger| ==>
              db.ledger[k].tx < |db.txs| && Justifies(db.txs[db.ledger[k].tx], db.ledger[k])
    ensures forall t: nat :: t < |db.txs| ==> EntryCount(db.ledger, t) == if Moves(db.txs[t]) then 1 else 0
  {
    assert EntriesOk(db.txs, db.ledger);
  }

  /** Balance events are the ledger entries, in ledger order; outcome events match outcomes one to one. */
  lemma EventsMirrorState(steps: seq<Step>, id: nat)
    requires id < |Run(steps).txs|
    ensures var db := Run(steps);
            && BalanceEvents(db.outbox) == Announcements(db.ledger)
            && ProcessedCount(db.outbox, id) == (if db.txs[id].state == Processed then 1 else 0)
            && RejectedCount(db.outbox, id) == (if db.txs[id].state == Rejected then 1 else 0)
            && forall k :: 0 <= k < |db.outbox| && db.outbox[k].tx == id ==> Reports(db.txs[id], db.outbox[k])
  {
    RunHasInv(steps);
    assert EventsOk(Run(steps).txs, Run(steps).ledger, Run(steps).outbox);
  }

  /** Every event repeats its transaction: who asked for what, with which outcome, balance and version. */
  lemma EventsCarryTheRow(steps: seq<Step>, k: nat)
    requires k < |Run(steps).outbox|
    ensures Run(steps).outbox[k].tx < |Run(steps).txs|
    ensures CarriesTheRow(Run(steps).outbox[k], Run(steps).txs[Run(steps).outbox[k].tx])
  {
    RunHasInv(steps);
    EventsOfRun(Run(steps));
  }

  predicate CarriesTheRow(e: Event, t: Tx) {
    && e.wallet == t.wallet
    && (!e.BalanceEvent? ==>
          && e.party.kind == t.kind && e.party.player == t.player
          && (t.origin.External? ==> e.party.provider == t.origin.provider && e.party.external == t.origin.id))
    && (e.ProcessedEvent? || e.RejectedEvent? || e.BalanceEvent? ==> e.money == Money(t.amount, t.currency))
    && (e.ProcessedEvent? || e.RejectedEvent? ==>
          t.result == Some(Money(e.balance, t.currency)) && t.observed == Some(e.version))
    && (e.ProcessedEvent? ==> t.state == Processed)
    && (e.RejectedEvent? ==> t.state == Rejected && t.failure == Some(e.code))
    && (e.PendingEvent? ==> e.reference == t.refExternal)
  }

  lemma EventsOfRun(db: Db)
    requires Inv(db)
    ensures BalanceEvents(db.outbox) == Announcements(db.ledger)
    ensures forall k :: 0 <= k < |db.outbox| ==>
              db.outbox[k].tx < |db.txs| && Reports(db.txs[db.outbox[k].tx], db.outbox[k])
  {
    assert EventsOk(db.txs, db.ledger, db.outbox);
  }

  /** The `k`-th balance event tells the `k`-th ledger entry. */
  lemma BalanceEventsTellEntries(steps: seq<Step>, k: nat)
    requires k < |Run(steps).ledger|
    ensures var events, e := BalanceEvents(Run(steps).outbox), Run(steps).ledger[k];
            && |events| == |Run(steps).ledger|
            && events[k] == BalanceEvent(e.tx, e.wallet, e.dir, Money(e.amount, e.currency), e.before, e.after,
                                         e.version)
  {
    hide Inv;
    RunHasInv(steps);
    EventsOfRun(Run(steps));
  }

  /** One wallet's entries form a gap-free chain from zero to the stored balance and version. */
  lemma LedgerIsAChain(steps: seq<Step>, w: string)
    requires w in Run(steps).wallets
    ensures ChainOk(WalletLedger(Run(steps).ledger, w), Run(steps).wallets[w])
  {
    RunHasInv(steps);
    assert ChainsOk(Run(steps).wallets, Run(steps).ledger);
  }
}
