/**
 The service over its database (internal/wagering): each public operation opens a transaction,
 runs its body and commits. Whatever statement fails, and wherever the answer to COMMIT is
 lost, what is committed is either nothing or the whole step.
 */
module Service {
  import opened Wrappers
  import opened Failures
  import opened Money
  import opened Domain
  import opened Tables
  import opened Engine
  import opened Invariant
  import opened Settling
  import opened Resting
  import opened Opening
  import opened Steps
  import opened Store
  import opened Bookkeeping
  import opened Resuming
  import opened Accepting
  import S = Settlement
  import C = Canonical
  import Int64

  class Wagering {
    var db: Db
    const reliable: bool

    ghost predicate Valid()
      reads this
    {
      Inv(db)
    }

    constructor (reliable: bool)
      ensures Valid() && db == EMPTY && this.reliable == reliable
    {
      db := EMPTY;
      this.reliable := reliable;
      new;
      EmptyHasInv();
    }

    /** The end of Transact: roll back on an error of the body, else COMMIT, which rolls an aborted
        transaction back and whose answer may get lost. */
    method Finish(s: Session, failed: Option<Code>) returns (err: Option<Code>)
      requires s.reliable == reliable
      modifies this`db
      ensures failed.Some? ==> err == failed && db == old(db)
      ensures s.aborted ==> err.Some? && db == old(db)
      ensures db == old(db) || (db == s.db && failed.None? && !s.aborted)
      ensures err.None? ==> db == s.db
      ensures reliable && failed.None? && !s.aborted ==> err.None?
    {
      if failed.Some? {
        return failed;
      }
      if s.aborted {
        return Some(StatementFailed);
      }
      var reached: bool, answered: bool := *, *;
      if reliable || reached {
        db := s.db;
      }
      err := if reliable || (reached && answered) then None else Some(StatementFailed);
    }

    /** OpenWallet, under the fresh id `wallet`. */
    method OpenWallet(wallet: string, player: string, currency: string, text: string) returns (reply: Reply)
      requires Valid()
      modifies this
      ensures Valid()
      ensures db == old(db) || db == Opened(old(db), wallet, player, currency, text).0
      ensures reply.Done? ==> (db, reply) == Opened(old(db), wallet, player, currency, text)
      ensures reliable ==> (db, reply) == Opened(old(db), wallet, player, currency, text)
    {
      hide Inv, WalletTaken;
      OpenedKeepsInv(db, wallet, player, currency, text);
      var initial := ParseMoney(text, currency);
      if initial.Err? || wallet == "" || player == "" {
        return Correctable(InvalidMoney);
      }
      var s := new Session(db, reliable);
      var m, id := initial.value, |db.txs|;
      var err := s.InsertWallet(wallet, WalletRow(player, currency, m.minor, 1));
      if err.Some? {
        return if err == Some(UniqueViolation) then Conflict else Fault(err.value);
      }
      if m.minor != 0 {
        NewWalletHasNoRows(db, wallet, player, currency);
        err := RecordOpening(s, wallet, player, m);
        if err.Some? {
          return Fault(err.value);
        }
      }
      err := Finish(s, None);
      reply := if err.Some? then Fault(err.value)
               else Done(SubmitResult(OutcomeProcessed, id, Some(m), None, 1, false));
    }

    /** processWorkItem: one claimed item, one transaction. */
    method ProcessWorkItem(id: nat, item: Work, env: Env) returns (settled: bool, err: Option<Code>)
      requires Valid()
      modifies this
      ensures Valid()
      ensures db == old(db) || db == Worked(old(db), id, item, env)
      ensures err.None? ==> db == Worked(old(db), id, item, env)
      ensures reliable ==> err.None?
      ensures reliable ==>
                (settled <==>
                   || id >= |old(db).txs| || IsTerminal(old(db).txs[id].state)
                   || Resumed(old(db), id, old(db).txs[id], env).Settled?)
    {
      hide Inv, Resumed, NotedInfra;
      WorkedKeepsInv(db, id, item, env);
      settled := false;
      var s := new Session(db, reliable);
      var failed: Option<Code> := None;
      var got := s.GetTx(id);
      if got.Err? {
        failed := NoteInfra(s, id, item, env);
        err := Finish(s, failed);
        return;
      }
      if got.value.None? || IsTerminal(got.value.value.state) {
        var _ := s.DeleteWork(id);
        settled := true;
        err := Finish(s, None);
        return;
      }
      WaitingIsParked(db, id);
      ResumedKeepsInv(db, id, env);
      var r := ResumeOne(s, id, got.value.value, env);
      if r.Err? {
        failed := NoteInfra(s, id, item, env);
      } else {
        settled := r.value;
      }
      err := Finish(s, failed);
    }

    /** ReevaluateDependents: all dependents in one transaction; an error skips its dependent, and a
        failed statement, though swallowed here, still rolls everything back at COMMIT. */
    method ReevaluateDependents(provider: string, external: string,
                                env: Env) returns (err: Option<Code>, ghost ids: seq<nat>)
      requires Valid()
      modifies this
      ensures Valid()
      ensures || db == old(db)
              || (IsDependents(old(db).txs, provider, external, ids) && db == Reevaluated(old(db), ids, env))
      ensures err.None? ==> IsDependents(old(db).txs, provider, external, ids) && db == Reevaluated(old(db), ids, env)
      ensures reliable ==> err.None?
    {
      hide Inv, Resumed, Nudged, IsDependents;
      ids := [];
      var s := new Session(db, reliable);
      var found := s.FindDependents(provider, external);
      if found.Err? {
        err := Finish(s, Some(found.error));
        return;
      }
      var rows, copies := found.value, s.db.txs;
      ids := rows;
      DependentsAreRows(db.txs, provider, external, rows);
      ReevaluatedKeepsInv(db, rows, env);
      for k := 0 to |rows|
        invariant !s.aborted ==> Inv(s.db) && Reevaluated(s.db, rows[k..], env) == Reevaluated(db, rows, env)
        invariant !s.aborted ==> forall j :: k <= j < |rows| ==> StillThere(copies, s.db.txs, rows[j])
        invariant db == old(db) && (reliable ==> !s.aborted)
      {
        var id := rows[k];
        ghost var before := s.db;
        if copies[id].state == PendingReference {
          var r := ResumeOne(s, id, copies[id], env);
          if !s.aborted {
            ResumedIsNudged(before, s.db, id, env, r);
          }
        }
        if !s.aborted {
          assert StillThere(copies, before.txs, id) && rows[k..][1..] == rows[k + 1..];
          UnparkedIsSkipped(before, id, env);
          NudgedKeepsInv(before, id, env);
          forall j | k + 1 <= j < |rows|
            ensures StillThere(copies, s.db.txs, rows[j])
          {
            NudgeSpares(copies, before, id, rows[j], env);
          }
        }
      }
      assert rows[|rows|..] == [];
      err := Finish(s, None);
    }

    /** The transaction that leases due rows; `items` are the claimed copies. */
    method Claim(owner: string, now: int, limit: nat)
      returns (r: Result<seq<nat>, Code>, items: map<nat, Work>, ghost steps: seq<Step>)
      requires Valid()
      modifies this
      ensures Valid()
      ensures db == S.Played(old(db), steps) && S.Workers(old(db), steps)
      ensures r.Ok? ==>
                && IsClaim(old(db).work, now, limit, r.value) && items == db.work && db.work.Keys == old(db).work.Keys
                && db == Claimed(old(db), (set id | id in r.value), Lease(owner, now + 30_000))
      ensures reliable ==> r.Ok?
    {
      hide Inv, S.Played, S.Workers, IsClaim;
      steps, items := [], map[];
      PlayedNothing(db);
      var s := new Session(db, reliable);
      r := s.ClaimWork(owner, now, WORK_LEASE_TTL, limit);
      if r.Ok? {
        items := s.db.work;
        ghost var step := ClaimWork((set id | id in r.value), Lease(owner, now + WORK_LEASE_TTL));
        NextKeepsInv(db, step);
        S.PlayedAppend(db, [], step);
        var err := Finish(s, None);
        if db != old(db) || err.None? {
          steps := [] + [step];
        }
        if err.Some? {
          r := Err(err.value);
        }
      }
    }

    /** ProcessDueWork: claim what is due, then treat each item in its own transaction, going on after
        an error. `steps` are the transactions that committed. */
    method ProcessDueWork(owner: string, now: int, limit: nat, clock: nat -> Env)
      returns (settled: nat, err: Option<Code>, ghost batch: seq<nat>, ghost steps: seq<Step>)
      requires Valid()
      modifies this
      ensures Valid()
      ensures db == S.Played(old(db), steps) && S.Workers(old(db), steps)
      ensures settled <= limit
      ensures reliable ==>
                && err.None? && IsClaim(old(db).work, now, limit, batch)
                && (forall id :: id in batch ==> S.Processes(steps, id))
                && settled == DecidedCount(db.txs, batch)
      ensures reliable && |old(db).work| <= limit ==>
                forall id :: id in old(db).work && Due(old(db).work[id], now) ==> S.Processes(steps, id)
      ensures reliable && |old(db).work| <= limit && AllDue(old(db).work, now) ==>
                S.Pass(old(db), steps)
    {
      hide Inv, S.Played, S.Workers, S.Processes, Worked, IsClaim, DecidedCount, Claimed, Resumed, Due;
      NoneDecided();
      settled, err, batch := 0, None, [];
      var claimed, items;
      claimed, items, steps := Claim(owner, now, limit);
      if claimed.Err? {
        err := Some(claimed.error);
        return;
      }
      var ids := claimed.value;
      batch := ids;
      ClaimIsSmall(old(db).work, now, limit, ids);
      ClaimIsAll(old(db).work, now, limit, ids);
      for k := 0 to |ids|
        invariant Valid() && db == S.Played(old(db), steps) && S.Workers(old(db), steps)
        invariant settled <= k
        invariant reliable ==> forall j :: 0 <= j < k ==> S.Processes(steps, ids[j])
        invariant reliable ==> settled == DecidedCount(db.txs, ids[..k])
        invariant forall j :: k <= j < |ids| ==>
                    ids[j] in items && ids[j] in db.work && items[ids[j]] == db.work[ids[j]]
      {
        ghost var before := db;
        var id := ids[k];
        var ok, failed := ProcessWorkItem(id, items[id], clock(k));
        ghost var more := ProcessWork(id, items[id], clock(k));
        S.PlayedAppend(old(db), steps, more);
        S.WorkedElsewhere(before, id, items[id], clock(k));
        ProcessesAppend(steps, more);
        if reliable {
          assert ids[..k] + [id] == ids[..k + 1] && id !in ids[..k];
          DecidedStep(before, ids[..k], id, items[id], clock(k));
        }
        if db != before || reliable {
          steps := steps + [more];
        }
        if failed.None? && ok {
          settled := settled + 1;
        }
      }
      assert ids[..|ids|] == ids;
    }

    /** The part of Submit up to its commit. */
    method AcceptOnce(i: SubmitInput, env: Env) returns (reply: Reply)
      requires Valid()
      modifies this
      ensures Valid()
      ensures db == old(db) || db == Submitted(old(db), i, false, env).0
      ensures reply.Done? ==> (db, reply) == Submitted(old(db), i, false, env)
      ensures reply.Poison? ==> Poisoned(old(db), i)
      ensures reliable ==> (db, reply) == Submitted(old(db), i, false, env)
    {
      hide Inv, Accepted, Prepared, C.PayloadHash;
      SubmittedKeepsInv(db, i, false, env);
      var m := Prepare(i);
      if m.Err? {
        return Correctable(m.error);
      }
      var hash := C.HashPayload(BusinessOf(i));
      if i.messageId != "" {
        var read := new Session(db, reliable);
        var seen := read.FindInbox((i.consumer, i.messageId));
        if seen.Err? {
          return Fault(seen.error);
        }
        if seen.value.Some? && seen.value.value != hash {
          return Poison;
        }
      }
      var s := new Session(db, reliable);
      reply := Accept(s, i, m.value, hash, env);
      if !reply.Done? {
        FailedWritesNothing(db, i, m.value, hash, env);
        return;
      }
      var err := Finish(s, None);
      if err.Some? {
        reply := Fault(err.value);
      }
    }

    /** Submit: accept, and after a processed BET give its dependents an immediate second look. */
    method Submit(i: SubmitInput, env: Env, later: Env) returns (reply: Reply, ghost ids: seq<nat>)
      requires Valid()
      modifies this
      ensures Valid()
      ensures db == old(db) || Submission(old(db), db, i, env, ids, later)
      ensures reply.Done? ==>
                Submission(old(db), db, i, env, ids, later) && reply == Submitted(old(db), i, false, env).1
      ensures reply.Poison? ==> Poisoned(old(db), i)
      ensures reliable ==> reply == Submitted(old(db), i, false, env).1
      ensures reliable ==>
                var mid := Submitted(old(db), i, false, env).0;
                if reply.Done? && reply.result.outcome == OutcomeProcessed && i.kind == Bet
                then NamesDependents(mid.txs, i, ids) && db == Reevaluated(mid, ids, later)
                else db == mid
    {
      hide Inv, Submitted, Reevaluated, IsDependents;
      ids := [];
      reply := AcceptOnce(i, env);
      if reply.Done? && reply.result.outcome == OutcomeProcessed && i.kind == Bet {
        AnsweredHasProvider(old(db), i, env);
        ghost var mid := db;
        var ignored;
        ignored, ids := ReevaluateDependents(i.provider, i.external, later);
        if ignored.None? {
          DependentsByFields(mid.txs, i, ids);
        }
      }
    }
  }

  /** How many of the rows are PROCESSED or REJECTED. */
  function DecidedCount(txs: seq<Tx>, ids: seq<nat>): nat {
    if ids == [] then 0
    else
      var last := ids[|ids| - 1];
      DecidedCount(txs, ids[..|ids| - 1])
      + if last < |txs| && (txs[last].state == Processed || txs[last].state == Rejected) then 1 else 0
  }

  lemma NoneDecided()
    ensures forall t: seq<Tx> :: DecidedCount(t, []) == 0
  {
  }

  lemma {:induction false} CountSame(txs: seq<Tx>, txs': seq<Tx>, ids: seq<nat>)
    requires |txs| == |txs'|
    requires forall id :: id in ids && id < |txs| ==> txs[id].state == txs'[id].state
    ensures DecidedCount(txs, ids) == DecidedCount(txs', ids)
    decreases |ids|
  {
    if ids != [] {
      assert ids[|ids| - 1] in ids;
      CountSame(txs, txs', ids[..|ids| - 1]);
    }
  }

  /** One more treated row: it counts if and only if its resume settled it. */
  lemma DecidedStep(db: Db, ids: seq<nat>, id: nat, item: Work, env: Env)
    requires Inv(db) && id in db.work && id !in ids
    ensures id < |db.txs| && !IsTerminal(db.txs[id].state)
    ensures DecidedCount(Worked(db, id, item, env).txs, ids + [id]) ==
            DecidedCount(db.txs, ids) + if Resumed(db, id, db.txs[id], env).Settled? then 1 else 0
  {
    hide Inv, Resumed, NotedInfra;
    S.WorkedStates(db, id, item, env);
    CountSame(db.txs, Worked(db, id, item, env).txs, ids);
    assert (ids + [id])[..|ids|] == ids;
  }

  predicate AllDue(work: map<nat, Work>, now: int) {
    forall id :: id in work ==> Due(work[id], now)
  }

  /** The inbox holds this message with other content. */
  ghost predicate Poisoned(db: Db, i: SubmitInput) {
    var slot := (i.consumer, i.messageId);
    slot in db.inbox && db.inbox[slot] != C.PayloadHash(BusinessOf(i))
  }

  /** Exactly the rows of the input's provider that refer to its external id, each once. */
  ghost predicate NamesDependents(txs: seq<Tx>, i: SubmitInput, ids: seq<nat>) {
    && (forall id: nat :: id in ids <==>
          && id < |txs| && txs[id].origin.External?
          && txs[id].origin.provider == i.provider && txs[id].refExternal == i.external)
    && (forall j, k :: 0 <= j < k < |ids| ==> ids[j] != ids[k])
  }

  lemma DependentsByFields(txs: seq<Tx>, i: SubmitInput, ids: seq<nat>)
    requires i.provider != "" && IsDependents(txs, i.provider, i.external, ids)
    ensures NamesDependents(txs, i, ids)
  {
  }

  lemma AnsweredHasProvider(db: Db, i: SubmitInput, env: Env)
    requires Submitted(db, i, false, env).1.Done?
    ensures i.provider != ""
  {
    hide Accepted, C.PayloadHash;
  }

  /** The whole submission, with or without the follow-up that only a processed BET has. */
  ghost predicate Submission(db: Db, db': Db, i: SubmitInput, env: Env, ids: seq<nat>, later: Env) {
    var mid, answer := Submitted(db, i, false, env).0, Submitted(db, i, false, env).1;
    || db' == mid
    || (&& answer.Done? && answer.result.outcome == OutcomeProcessed && i.kind == Bet
        && IsDependents(mid.txs, i.provider, i.external, ids) && db' == Reevaluated(mid, ids, later))
  }

  /** The rows of a positive opening: transaction, entry and two events, all at version 1. */
  method RecordOpening(s: Session, wallet: string, player: string, m: Money) returns (err: Option<Code>)
    requires !s.aborted && wallet != "" && m.minor > 0 && Int64.Fits(m.minor)
    modifies s
    ensures err.None? <==> !s.aborted
    ensures err.None? ==>
              var db, id := old(s.db), |old(s.db).txs|;
              s.db == db.(txs := db.txs + [OpeningRow(wallet, player, m)],
                          ledger := db.ledger + [Entry(wallet, id, Credit, m.minor, m.currency, 0, m.minor, 1)],
                          outbox := db.outbox + [ProcessedEvent(id, wallet, Party(Kind.Opening, "", "", player),
                                                                m, m.minor, 1),
                                                 BalanceEvent(id, wallet, Credit, m, 0, m.minor, 1)])
    ensures s.reliable && Clear(old(s.db), OpeningRow(wallet, player, m)) ==> err.None?
  {
    hide InsertAllowed, HasEntry;
    var id := |s.db.txs|;
    var entry := NewLedgerEntry(wallet, id, Credit, m, Money(0, m.currency), m, 1);
    err := s.InsertTx(OpeningRow(wallet, player, m));
    if err.Some? { return; }
    err := s.Append(entry.value);
    if err.Some? { return; }
    err := EmitProcessed(s, id, wallet, Party(Kind.Opening, "", "", player), m, m.minor, 1, Some(entry.value));
  }

  lemma NewWalletHasNoRows(db: Db, wallet: string, player: string, currency: string)
    requires Inv(db) && !WalletTaken(db, wallet, player, currency)
    ensures forall i :: 0 <= i < |db.txs| ==> db.txs[i].wallet != wallet
    ensures !HasEntry(db.ledger, wallet, |db.txs|)
  {
    NewIdHasNoEntry(db, wallet);
    assert forall i :: 0 <= i < |db.txs| ==> RowOk(db.wallets, db.txs[i]);
  }

  const WORK_LEASE_TTL := 30_000

  lemma FailedWritesNothing(db: Db, i: SubmitInput, m: Money, hash: string, env: Env)
    ensures !Accepted(db, i, m, hash, env).1.Done? ==> Accepted(db, i, m, hash, env).0 == db
  {
    hide Applied;
  }

  lemma PlayedNothing(db: Db)
    ensures S.Played(db, []) == db && S.Workers(db, [])
  {
  }

  lemma ProcessesAppend(steps: seq<Step>, s: Step)
    ensures forall id :: S.Processes(steps, id) ==> S.Processes(steps + [s], id)
    ensures s.ProcessWork? ==> S.Processes(steps + [s], s.id)
  {
    forall id | S.Processes(steps, id)
      ensures S.Processes(steps + [s], id)
    {
      var k :| 0 <= k < |steps| && steps[k].ProcessWork? && steps[k].id == id;
      assert (steps + [s])[k] == steps[k];
    }
    assert (steps + [s])[|steps|] == s;
  }

  lemma ClaimIsSmall(work: map<nat, Work>, now: int, limit: nat, ids: seq<nat>)
    requires IsClaim(work, now, limit, ids)
    ensures |ids| <= limit
    ensures forall k :: 0 <= k < |ids| ==> ids[k] in work
    ensures forall j, k :: 0 <= j < k < |ids| ==> ids[j] != ids[k]
  {
  }

  /** Distinct members of a set are not more than the set has. */
  lemma {:induction false} DistinctAreFew(ids: seq<nat>, all: set<nat>)
    requires forall k :: 0 <= k < |ids| ==> ids[k] in all
    requires forall j, k :: 0 <= j < k < |ids| ==> ids[j] != ids[k]
    ensures |ids| <= |all|
    decreases |ids|
  {
    if ids != [] {
      var last := ids[|ids| - 1];
      DistinctAreFew(ids[..|ids| - 1], all - {last});
    }
  }

  /** With room for every work row, a claim takes all that is due. */
  lemma ClaimIsAll(work: map<nat, Work>, now: int, limit: nat, ids: seq<nat>)
    requires IsClaim(work, now, limit, ids)
    ensures |work| <= limit ==> forall id :: id in work && Due(work[id], now) ==> id in ids
  {
    forall id | |work| <= limit && id in work && Due(work[id], now)
      ensures id in ids
    {
      assert |work.Keys| == |work|;
      if id !in ids {
        DistinctAreFew(ids, work.Keys - {id});
      }
    }
  }

  lemma DependentsAreRows(txs: seq<Tx>, provider: string, external: string, ids: seq<nat>)
    requires IsDependents(txs, provider, external, ids)
    ensures forall k :: 0 <= k < |ids| ==> ids[k] < |txs|
    ensures forall j, k :: 0 <= j < k < |ids| ==> ids[j] != ids[k]
  {
    assert forall k :: 0 <= k < |ids| ==> ids[k] in ids;
  }

  /** The copy of row `id` still says whether it is parked and, if so, is the row. */
  ghost predicate StillThere(copies: seq<Tx>, txs: seq<Tx>, id: nat) {
    && id < |copies| == |txs|
    && (copies[id].state == PendingReference || txs[id].state == PendingReference ==> copies[id] == txs[id])
  }

  lemma ResumedIsNudged(db: Db, db': Db, id: nat, env: Env, r: Result<bool, Code>)
    requires id < |db.txs| && db.txs[id].state == PendingReference
    requires ResumedTo(db, db', Resumed(db, id, db.txs[id], env), r)
    ensures db' == Nudged(db, id, env)
  {
    hide Resumed;
  }

  lemma UnparkedIsSkipped(db: Db, id: nat, env: Env)
    ensures id < |db.txs| && db.txs[id].state != PendingReference ==> Nudged(db, id, env) == db
  {
    hide Resumed;
  }

  /** Two parked rows with the same inputs are the same row. */
  lemma ParkedIsItsInputs(db: Db, db': Db, j: nat)
    requires Inv(db) && Inv(db') && SameIdentities(db.txs, db'.txs) && j < |db.txs|
    requires db.txs[j].state == PendingReference && db'.txs[j].state == PendingReference
    ensures db.txs[j] == db'.txs[j]
  {
    hide Core;
    CoreRow(db, j);
    CoreRow(db', j);
    IdentityFields(db.txs, db'.txs);
  }

  lemma NudgeSpares(copies: seq<Tx>, db: Db, id: nat, j: nat, env: Env)
    requires Inv(db) && StillThere(copies, db.txs, j) && j != id && id < |db.txs|
    ensures StillThere(copies, Nudged(db, id, env).txs, j)
  {
    hide Inv, Resumed;
    if db.txs[id].state == PendingReference && !Resumed(db, id, db.txs[id], env).Stuck? {
      var db' := Nudged(db, id, env);
      S.ResumedElsewhere(db, id, env);
      NudgedKeepsInv(db, id, env);
      if db.txs[j].state == PendingReference {
        ParkedIsItsInputs(db, db', j);
      }
    }
  }
}
