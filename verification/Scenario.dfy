/**
 Two concrete histories: a wallet is opened and a REFUND arrives before its BET and is parked.
 In the first the BET is placed and one worker settles the REFUND; in the second a worker gives
 the REFUND up before the BET is placed. Then another worker, holding an older copy of the
 row, treats it again.
 */
module Scenario {
  import opened Wrappers
  import opened Failures
  import opened Money
  import opened Domain
  import opened Tables
  import opened Engine
  import opened Invariant
  import opened Steps
  import opened Races
  import opened Service
  import S = Settlement
  import C = Canonical
  import Int64

  const CLOCK := Env(0, 0)
  const CURRENCY := "EUR"

  function Input(kind: Kind, external: string, reference: string): SubmitInput {
    SubmitInput("casino", external, external, "ana", "purse", "round", "game",
                    kind, Render(100), CURRENCY, reference, "", "")
  }

  const REFUND := Input(Refund, "refund", "bet")
  const BET := Input(Bet, "bet", "")

  const OPEN := OpenWallet("purse", "ana", CURRENCY, Render(1000))

  ghost function RowFor(i: SubmitInput): Tx {
    NewRow(i, Money(100, CURRENCY), C.PayloadHash(BusinessOf(i)))
  }

  lemma Texts()
    ensures ValidCurrency(CURRENCY)
    ensures Parsed(Render(100), CURRENCY) == Ok(Money(100, CURRENCY))
    ensures Parsed(Render(1000), CURRENCY) == Ok(Money(1000, CURRENCY))
  {
    RenderThenParse(100, CURRENCY);
    RenderThenParse(1000, CURRENCY);
  }

  ghost predicate Funded(db: Db, balance: int, version: int) {
    db.wallets == map["purse" := WalletRow("ana", CURRENCY, balance, version)]
  }

  lemma Opens()
    ensures var db := Next(EMPTY, OPEN);
            Funded(db, 1000, 1) && db.txs == [OpeningRow("purse", "ana", Money(1000, CURRENCY))]
  {
    hide Render;
    Texts();
  }

  /** A new operation of the scenario reaches applyOperation. */
  lemma Accepts(db: Db, i: SubmitInput, balance: int, version: int)
    requires i == REFUND || i == BET
    requires Funded(db, balance, version)
    requires forall k :: 0 <= k < |db.txs| ==>
               !HasKey(db.txs[k], i.provider, i.key) && !HasExternal(db.txs[k], i.provider, i.external)
    ensures var out := Applied(db, RowFor(i), CLOCK);
            Submitted(db, i, false, CLOCK).0 == if out.1.Done? then out.0 else db
  {
    hide Render, Applied, C.PayloadHash;
    Texts();
  }

  lemma Parks(db: Db)
    requires Funded(db, 1000, 1) && db.txs == [OpeningRow("purse", "ana", Money(1000, CURRENCY))]
    ensures var db' := Next(db, Submit(REFUND, false, CLOCK));
            && Funded(db', 1000, 1)
            && db'.txs == db.txs + [RowFor(REFUND).(state := PendingReference)]
            && 1 in db'.work && db'.work[1].createdAt == CLOCK.now
  {
    hide Render, C.PayloadHash, Judge, Submitted;
    Texts();
    Accepts(db, REFUND, 1000, 1);
    RefundWaits(db);
  }

  lemma RefundWaits(db: Db)
    requires Funded(db, 1000, 1) && db.txs == [OpeningRow("purse", "ana", Money(1000, CURRENCY))]
    ensures Judge(db, OperationOf(RowFor(REFUND)), RowFor(REFUND).refExternal) == Park
  {
    hide Render, C.PayloadHash;
  }

  lemma BetMoves(db: Db)
    requires Funded(db, 1000, 1)
    ensures Judge(db, OperationOf(RowFor(BET)), RowFor(BET).refExternal) == Move(Debit, None)
  {
    hide Render, C.PayloadHash;
  }

  /** The BET is placed, whatever became of the REFUND. */
  lemma Places(db: Db)
    requires Funded(db, 1000, 1) && Inv(db) && |db.txs| == 2
    requires db.txs[0].origin.Internal? && db.txs[1].origin == RowFor(REFUND).origin
    ensures var db' := Next(db, Submit(BET, false, CLOCK));
            && Funded(db', 900, 2)
            && |db'.txs| == 3 && db'.txs[..2] == db.txs && db'.txs[2] == PlacedBet()
  {
    hide Render, C.PayloadHash, Inv, HasEntry, Judge, Submitted;
    Texts();
    NoEntryYet(db);
    BetMoves(db);
    Accepts(db, BET, 1000, 1);
  }

  ghost function PlacedBet(): Tx {
    RowFor(BET).(state := Processed, result := Some(Money(900, CURRENCY)), observed := Some(2))
  }

  lemma NoEntryYet(db: Db)
    requires Inv(db)
    ensures !HasEntry(db.ledger, "purse", |db.txs|)
  {
    NewIdHasNoEntry(db, "purse");
  }

  // ---------------------------------------------------------------- two workers

  const PLACED: seq<Step> := [OPEN, Submit(REFUND, false, CLOCK), Submit(BET, false, CLOCK)]
  const ITEM := Work(0, 0, BACKOFF_BASE, 0, None)

  /** After the BET the parked REFUND may go through. */
  lemma AfterPlacing()
    ensures var db := Run(PLACED);
            && Inv(db) && Funded(db, 900, 2) && |db.txs| == 3
            && db.txs[1] == RowFor(REFUND).(state := PendingReference)
            && db.txs[2] == PlacedBet()
            && db.txs[0].origin.Internal?
  {
    hide Inv, Next, RowFor, Run;
    var one, two := [OPEN], [OPEN, Submit(REFUND, false, CLOCK)];
    RunSnoc([], OPEN);
    RunSnoc(one, Submit(REFUND, false, CLOCK));
    RunSnoc(two, Submit(BET, false, CLOCK));
    assert [] + [OPEN] == one && one + [Submit(REFUND, false, CLOCK)] == two;
    assert two + [Submit(BET, false, CLOCK)] == PLACED;
    RunNothing();
    Opens();
    Parks(Run(one));
    RunHasInv(two);
    RefundIsNamed();
    Places(Run(two));
    RunHasInv(PLACED);
    var db := Run(PLACED);
    assert db.txs[0] == db.txs[..2][0] && db.txs[1] == db.txs[..2][1];
  }

  lemma RefundIsNamed()
    ensures OpeningRow("purse", "ana", Money(1000, CURRENCY)).origin.Internal?
    ensures RowFor(REFUND).(state := PendingReference).origin == RowFor(REFUND).origin
  {
  }

  lemma RunNothing()
    ensures Run([]) == EMPTY
  {
  }

  lemma RunSnoc(steps: seq<Step>, s: Step)
    ensures Run(steps + [s]) == Next(Run(steps), s)
  {
    hide Next;
    assert (steps + [s])[..|steps|] == steps;
  }

  lemma FindsTheBet(txs: seq<Tx>)
    requires |txs| == 3 && HasExternal(txs[2], "casino", "bet")
    ensures FindByProviderExternal(txs, "casino", "bet") == Some(2)
  {
  }

  lemma NoWinYet(txs: seq<Tx>)
    requires |txs| == 3 && txs[0].kind != Win && txs[1].kind != Win && txs[2].kind != Win
    ensures !HasActiveWin(txs, 2)
  {
  }

  lemma MayRefund(db: Db)
    requires Funded(db, 900, 2) && |db.txs| == 3
    requires db.txs[2] == PlacedBet() && db.txs[0].kind != Win && db.txs[1].kind != Win
    ensures JudgeAgainst(db, OperationOf(RowFor(REFUND)), 2) == Move(Credit, Some(2))
  {
    hide C.PayloadHash, HasActiveWin, Render;
    NoWinYet(db.txs);
  }

  /** The first worker settles the REFUND. */
  lemma FirstWorker()
    ensures var db := Run(PLACED);
            && 1 < |db.txs| && db.txs[1].wallet in db.wallets
            && 2 < |db.txs| && Resumed(db, 1, db.txs[1], CLOCK) == Settled(Moved(db, 1, db.txs[1], Credit, Some(2)))
            && db.txs[1].state == PendingReference
  {
    hide Inv, Moved, JudgeAgainst, HasEntry, C.PayloadHash, Render, Run;
    AfterPlacing();
    var db := Run(PLACED);
    Texts();
    FindsTheBet(db.txs);
    OpeningIsNoWin(db);
    MayRefund(db);
    NoEntryOf(db, 1);
  }

  lemma OpeningIsNoWin(db: Db)
    requires Inv(db) && 0 < |db.txs| && db.txs[0].origin.Internal?
    ensures db.txs[0].kind != Win
  {
    assert RowOk(db.wallets, db.txs[0]);
  }

  lemma NoEntryOf(db: Db, id: nat)
    requires Inv(db) && id < |db.txs| && db.txs[id].state == PendingReference
    ensures !HasEntry(db.ledger, "purse", id)
  {
    CoreRow(db, id);
    WaitingHasNoEntry(db.txs, db.ledger, id, "purse");
  }

  const SETTLED := PLACED + [ProcessWork(1, ITEM, CLOCK)]

  /** A run of the finer model in which nobody holds an old copy. */
  function Serially(steps: seq<Step>): seq<FineStep> {
    seq(|steps|, k requires 0 <= k < |steps| => Serial(steps[k]))
  }

  /** The query yields each dependent once. */
  predicate Distinct(ids: seq<nat>) {
    forall j, k :: 0 <= j < k < |ids| ==> ids[j] != ids[k]
  }

  lemma NudgedKeepsRows(db: Db, id: nat, env: Env)
    requires Inv(db)
    ensures |Nudged(db, id, env).txs| == |db.txs|
  {
    hide Inv, Resumed;
    if id < |db.txs| && db.txs[id].state == PendingReference {
      S.ResumedElsewhere(db, id, env);
    }
  }

  /** Copies read at the start of the transaction stay current through the whole re-evaluation. */
  lemma {:induction false} BatchIsReevaluated(db: Db, past: Db, ids: seq<nat>, env: Env)
    requires Inv(db) && Distinct(ids) && |past.txs| == |db.txs|
    requires forall j :: 0 <= j < |ids| && ids[j] < |db.txs| ==> StillThere(past.txs, db.txs, ids[j])
    ensures LateBatch(db, past, ids, env) == Some(Reevaluated(db, ids, env))
    decreases |ids|
  {
    hide Inv, Resumed;
    if ids != [] {
      var id, rest, db' := ids[0], ids[1..], Nudged(db, ids[0], env);
      NudgedKeepsInv(db, id, env);
      NudgedKeepsRows(db, id, env);
      if id < |db.txs| {
        assert StillThere(past.txs, db.txs, ids[0]);
        if db.txs[id].state == PendingReference {
          ResumedKeepsInv(db, id, env);
        }
        forall j | 0 <= j < |rest| && rest[j] < |db'.txs|
          ensures StillThere(past.txs, db'.txs, rest[j])
        {
          assert rest[j] == ids[j + 1];
          NudgeSpares(past.txs, db, id, rest[j], env);
        }
      }
      BatchIsReevaluated(db', past, rest, env);
    }
  }

  /** Without old copies the finer model and the serial one run alike. */
  lemma {:induction false} SerialIsRun(steps: seq<Step>)
    requires forall k :: 0 <= k < |steps| && steps[k].Reevaluate? ==> Distinct(steps[k].ids)
    ensures FineRun(Serially(steps)) == Run(steps)
    decreases |steps|
  {
    hide Next, Inv, LateBatch, Reevaluated;
    if steps != [] {
      var n := |steps| - 1;
      SerialIsRun(steps[..n]);
      assert Serially(steps)[..n] == Serially(steps[..n]);
      if steps[n].Reevaluate? {
        var db := Run(steps[..n]);
        RunHasInv(steps[..n]);
        BatchIsReevaluated(db, db, steps[n].ids, steps[n].env);
        NextReevaluates(db, steps[n].ids, steps[n].env);
      }
    }
  }

  lemma NextReevaluates(db: Db, ids: seq<nat>, env: Env)
    ensures Next(db, Reevaluate(ids, env)) == Reevaluated(db, ids, env)
  {
  }

  lemma LateSnoc(steps: seq<FineStep>, id: nat, readAt: nat, item: Work, env: Env)
    requires readAt <= |steps|
    ensures var past, db := FineRun(steps[..readAt]), FineRun(steps);
            id < |past.txs| && id < |db.txs| ==>
              FineRun(steps + [LateResume(id, readAt, item, env)]) == Late(db, id, past.txs[id], item, env)
  {
    hide Late, Next;
    var all := steps + [LateResume(id, readAt, item, env)];
    assert all[..|steps|] == steps && all[..readAt] == steps[..readAt];
  }

  /** The refunded row has its one entry. */
  lemma RefundedOnce(db: Db)
    requires |db.txs| == 3 && db.txs[1].wallet in db.wallets && db.txs[1].kind == Refund
    requires Inv(Moved(db, 1, db.txs[1], Credit, Some(2)))
    ensures EntryCount(Moved(db, 1, db.txs[1], Credit, Some(2)).ledger, 1) == 1
  {
    hide Core;
    var db' := Moved(db, 1, db.txs[1], Credit, Some(2));
    MovedStates(db, 1, Credit, Some(2));
    CoreRow(db', 1);
    assert db'.txs[1].kind == Refund;
  }

  const RACE := Serially(SETTLED) + [LateResume(1, 3, ITEM, CLOCK)]

  /** PROCESSED after the first worker, REJECTED after the second, with the stake back in both: the
      outcome of a row is not final when a worker holds an old copy of it. */
  lemma OutcomeIsOverturned()
    ensures var first, second := FineRun(RACE[..4]), FineRun(RACE);
            && 1 < |first.txs| && first.txs[1].state == Processed
            && 1 < |second.txs| && second.txs[1].state == Rejected && second.txs[1].failure == Some(AlreadyReversed)
            && second.wallets == first.wallets && EntryCount(second.ledger, 1) == 1
  {
    hide Inv, Moved, Run, FineRun, Late, Resumed, RowFor;
    FirstWorker();
    AfterPlacing();
    RunHasInv(SETTLED);
    RunSnoc(PLACED, ProcessWork(1, ITEM, CLOCK));
    SerialIsRun(PLACED);
    SerialIsRun(SETTLED);
    assert Serially(SETTLED)[..3] == Serially(PLACED) && RACE[..4] == Serially(SETTLED);
    LateSnoc(Serially(SETTLED), 1, 3, ITEM, CLOCK);
    var db, first := Run(PLACED), Run(SETTLED);
    MovedStates(db, 1, Credit, Some(2));
    KindOfRefund();
    SecondWorkerOverturnsIff(db, 1, CLOCK, first, ITEM, CLOCK);
    RefundedOnce(db);
  }

  lemma KindOfRefund()
    ensures RowFor(REFUND).kind == Refund
  {
  }

  // ---------------------------------------------------------------- an expired REFUND comes back

  const LATER := Env(REFERENCE_TTL + 1, 0)
  const EXPIRED: seq<Step> := [OPEN, Submit(REFUND, false, CLOCK), ProcessWork(1, ITEM, LATER)]
  const TOOLATE: seq<Step> := EXPIRED + [Submit(BET, false, CLOCK)]

  /** Past its TTL the parked REFUND is given up. */
  lemma Expires(db: Db)
    requires Funded(db, 1000, 1) && |db.txs| == 2 && db.txs[0].origin.Internal?
    requires db.txs[1] == RowFor(REFUND).(state := PendingReference)
    requires 1 in db.work && db.work[1].createdAt == CLOCK.now
    ensures var db' := Next(db, ProcessWork(1, ITEM, LATER));
            && Funded(db', 1000, 1) && |db'.txs| == 2 && db'.txs[0] == db.txs[0]
            && db'.txs[1].state == Rejected && db'.txs[1].failure == Some(ReferenceNotFound)
            && db'.txs[1].origin == RowFor(REFUND).origin && db'.txs[1].kind == Refund
  {
    hide C.PayloadHash, Render, JudgeAgainst, Moved;
    Texts();
    assert FindByProviderExternal(db.txs, "casino", "bet").None?;
  }

  lemma AfterExpiry()
    ensures var db := Run(TOOLATE);
            && Funded(db, 900, 2) && |db.txs| == 3 && db.txs[0].origin.Internal? && db.txs[2] == PlacedBet()
            && db.txs[1].state == Rejected && db.txs[1].failure == Some(ReferenceNotFound) && db.txs[1].kind == Refund
    ensures var past := Run(EXPIRED[..2]);
            |past.txs| == 2 && past.txs[1] == RowFor(REFUND).(state := PendingReference)
  {
    hide Inv, Next, RowFor, Run, PlacedBet;
    var one, two := [OPEN], [OPEN, Submit(REFUND, false, CLOCK)];
    RunSnoc([], OPEN);
    RunSnoc(one, Submit(REFUND, false, CLOCK));
    RunSnoc(two, ProcessWork(1, ITEM, LATER));
    RunSnoc(EXPIRED, Submit(BET, false, CLOCK));
    assert [] + [OPEN] == one && one + [Submit(REFUND, false, CLOCK)] == two;
    assert two + [ProcessWork(1, ITEM, LATER)] == EXPIRED;
    assert EXPIRED[..2] == two;
    RunNothing();
    Opens();
    Parks(Run(one));
    RefundIsNamed();
    Expires(Run(two));
    RunHasInv(EXPIRED);
    Places(Run(EXPIRED));
    var db := Run(TOOLATE);
    assert db.txs[0] == db.txs[..2][0] && db.txs[1] == db.txs[..2][1];
  }

  lemma RejectedHasNoEntry(db: Db, id: nat)
    requires Inv(db) && id < |db.txs| && db.txs[id].state == Rejected
    ensures !HasEntry(db.ledger, "purse", id)
  {
    hide Core;
    CoreRow(db, id);
    assert forall k :: 0 <= k < |db.ledger| ==> Justifies(db.txs[db.ledger[k].tx], db.ledger[k]);
  }

  const REVIVAL := Serially(TOOLATE) + [LateResume(1, 2, ITEM, CLOCK)]

  /** REJECTED after the first worker, PROCESSED after the second: an old copy can also move money, and the
      entry it adds is the transaction's first. */
  lemma RejectedIsRevived()
    ensures var first, second := FineRun(REVIVAL[..4]), FineRun(REVIVAL);
            && 1 < |first.txs| && first.txs[1].state == Rejected && first.txs[1].failure == Some(ReferenceNotFound)
            && 1 < |second.txs| && second.txs[1].state == Processed
            && Funded(first, 900, 2) && Funded(second, 1000, 3)
            && |second.ledger| == |first.ledger| + 1 && EntryCount(first.ledger, 1) == 0
  {
    hide Inv, Run, FineRun, Late, RowFor, LookAgain, HasEntry, PlacedBet;
    AfterExpiry();
    SerialIsRun(TOOLATE);
    SerialIsRun(EXPIRED[..2]);
    assert Serially(TOOLATE)[..2] == Serially(EXPIRED[..2]) && REVIVAL[..4] == Serially(TOOLATE);
    LateSnoc(Serially(TOOLATE), 1, 2, ITEM, CLOCK);
    var db := Run(TOOLATE);
    LateOverturnsIff(Serially(TOOLATE), 2, 1, ITEM, CLOCK);
    RunHasInv(TOOLATE);
    RejectedHasNoEntry(db, 1);
    NoEntryCount(db, 1);
    LooksDue(db);
  }

  lemma NoEntryCount(db: Db, id: nat)
    requires Inv(db) && id < |db.txs| && db.txs[id].state == Rejected
    ensures EntryCount(db.ledger, id) == 0
  {
    hide Core;
    CoreRow(db, id);
  }

  lemma LooksDue(db: Db)
    requires Inv(db) && Funded(db, 900, 2) && |db.txs| == 3 && db.txs[0].origin.Internal? && db.txs[2] == PlacedBet()
    requires db.txs[1].kind == Refund
    ensures var rec := RowFor(REFUND).(state := PendingReference);
            && rec.wallet == "purse" && rec.wallet in db.wallets && rec.amount == 100
            && LookAgain(db, rec) == Moving(Credit, 2)
  {
    hide Inv, JudgeAgainst, C.PayloadHash, Render;
    FindsTheBet(db.txs);
    OpeningIsNoWin(db);
    MayRefund(db);
  }
}
