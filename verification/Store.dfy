/**
 One SQL transaction over the tables (internal/adapters/postgres). Any statement may fail,
 for an infrastructure reason or a constraint; a failed statement aborts the transaction, and
 from then on every statement fails and COMMIT rolls back.
 */
module Store {
  import opened Wrappers
  import opened Failures
  import opened Domain
  import opened Tables
  import opened Engine

  // ---------------------------------------------------------------- constraints of migrations/

  ghost predicate InsertAllowed(txs: seq<Tx>, row: Tx) {
    if row.origin.External? then
      forall i :: 0 <= i < |txs| ==>
        !HasKey(txs[i], row.origin.provider, row.origin.key) && !HasExternal(txs[i], row.origin.provider, row.origin.id)
    else forall i :: 0 <= i < |txs| ==> txs[i].origin.External? || txs[i].wallet != row.wallet
  }

  ghost predicate EntryAllowed(ledger: seq<Entry>, e: Entry) {
    && !HasEntry(ledger, e.wallet, e.tx)
    && e.amount > 0 && e.before >= 0 && e.after >= 0 && e.after == After(e.before, e.dir, e.amount)
  }

  predicate BalanceAllowed(balance: int, version: int) {
    balance >= 0 && version >= 1
  }

  /** The rows of `provider` that name `reference`, each once, in any order. */
  ghost predicate IsDependents(txs: seq<Tx>, provider: string, reference: string, ids: seq<nat>) {
    && (forall id: nat :: id in ids <==>
          id < |txs| && Provider(txs[id]) == provider && txs[id].refExternal == reference)
    && (forall j, k :: 0 <= j < k < |ids| ==> ids[j] != ids[k])
  }

  /** The work row may be claimed at `now`: its time has come and nobody holds a lease on it. */
  predicate Due(w: Work, now: int) {
    w.nextAt <= now && (w.lease.None? || w.lease.value.expires <= now)
  }

  /** Claimable rows, each once, earliest first; a row left out for the limit is not earlier. */
  ghost predicate IsClaim(work: map<nat, Work>, now: int, limit: nat, ids: seq<nat>) {
    && |ids| <= limit
    && (forall k :: 0 <= k < |ids| ==> ids[k] in work && Due(work[ids[k]], now))
    && (forall j, k :: 0 <= j < k < |ids| ==> ids[j] != ids[k] && work[ids[j]].nextAt <= work[ids[k]].nextAt)
    && (forall id :: id in work && Due(work[id], now) && id !in ids ==>
          |ids| == limit && forall k :: 0 <= k < |ids| ==> work[ids[k]].nextAt <= work[id].nextAt)
  }

  /** The row among `due` with the earliest time. */
  method Earliest(work: map<nat, Work>, due: set<nat>) returns (id: nat)
    requires due != {} && due <= work.Keys
    ensures id in due && forall other :: other in due ==> work[id].nextAt <= work[other].nextAt
  {
    id :| id in due;
    var rest := due - {id};
    while rest != {}
      invariant rest <= due && id in due
      invariant forall other :: other in due && other !in rest ==> work[id].nextAt <= work[other].nextAt
    {
      var next :| next in rest;
      rest := rest - {next};
      if work[next].nextAt < work[id].nextAt {
        id := next;
      }
    }
  }

  /** SELECT of the claimable rows ordered by time, up to a limit. */
  method SelectDue(work: map<nat, Work>, now: int, limit: nat) returns (ids: seq<nat>)
    ensures IsClaim(work, now, limit, ids)
  {
    ids := [];
    var due := set id | id in work && Due(work[id], now);
    while |ids| < limit && due != {}
      invariant |ids| <= limit
      invariant forall id :: id in due <==> id in work && Due(work[id], now) && id !in ids
      invariant forall k :: 0 <= k < |ids| ==> ids[k] in work && Due(work[ids[k]], now)
      invariant forall j, k :: 0 <= j < k < |ids| ==> ids[j] != ids[k] && work[ids[j]].nextAt <= work[ids[k]].nextAt
      invariant forall id, k :: id in due && 0 <= k < |ids| ==> work[ids[k]].nextAt <= work[id].nextAt
      decreases limit - |ids|
    {
      var id := Earliest(work, due);
      ids, due := ids + [id], due - {id};
    }
  }

  class Session {
    var db: Db
    var aborted: bool
    const reliable: bool

    constructor (start: Db, reliable: bool)
      ensures db == start && !aborted && this.reliable == reliable
    {
      db := start;
      aborted := false;
      this.reliable := reliable;
    }

    /** One round trip. `allowed` says that no constraint stands against it. */
    method Statement(allowed: bool) returns (err: Option<Code>)
      modifies this`aborted
      ensures err.None? <==> !aborted
      ensures err.None? ==> !old(aborted) && allowed
      ensures reliable && !old(aborted) && allowed ==> err.None?
      ensures err == Some(UniqueViolation) ==> !old(aborted) && !allowed
      ensures reliable && !old(aborted) && !allowed ==> err == Some(UniqueViolation)
    {
      var reached: bool := *;
      if aborted || !(reliable || reached) {
        err := Some(StatementFailed);
      } else {
        err := if allowed then None else Some(UniqueViolation);
      }
      aborted := err.Some?;
    }

    // -------------------------------------------------------------- wallets

    method LockForUpdate(wallet: string) returns (r: Result<Option<WalletRow>, Code>)
      modifies this`aborted
      ensures r.Ok? <==> !aborted
      ensures r.Ok? ==> !old(aborted) && r.value == if wallet in db.wallets then Some(db.wallets[wallet]) else None
      ensures reliable && !old(aborted) ==> r.Ok?
    {
      var err := Statement(true);
      if err.Some? {
        return Err(err.value);
      }
      r := Ok(if wallet in db.wallets then Some(db.wallets[wallet]) else None);
    }

    method InsertWallet(wallet: string, row: WalletRow) returns (err: Option<Code>)
      modifies this
      ensures err.None? <==> !aborted
      ensures err.None? ==>
                && !old(aborted) && !WalletTaken(old(db), wallet, row.player, row.currency)
                && db == old(db).(wallets := old(db).wallets[wallet := row])
      ensures err.Some? ==> db == old(db)
      ensures err == Some(UniqueViolation) ==> WalletTaken(old(db), wallet, row.player, row.currency)
      ensures reliable && !old(aborted) ==>
                if WalletTaken(old(db), wallet, row.player, row.currency) then err == Some(UniqueViolation)
                else err.None?
    {
      var taken := WalletTaken(db, wallet, row.player, row.currency);
      err := Statement(!taken);
      if err.None? {
        db := db.(wallets := db.wallets[wallet := row]);
      }
    }

    method UpdateBalance(wallet: string, balance: int, version: int) returns (err: Option<Code>)
      requires wallet in db.wallets
      modifies this
      ensures err.None? <==> !aborted
      ensures err.None? ==>
                && !old(aborted)
                && var row := old(db).wallets[wallet].(balance := balance, version := version);
                   db == old(db).(wallets := old(db).wallets[wallet := row])
      ensures err.Some? ==> db == old(db)
      ensures reliable && !old(aborted) && BalanceAllowed(balance, version) ==> err.None?
    {
      err := Statement(BalanceAllowed(balance, version));
      if err.None? {
        db := db.(wallets := db.wallets[wallet := db.wallets[wallet].(balance := balance, version := version)]);
      }
    }

    // -------------------------------------------------------------- transactions

    method GetTx(id: nat) returns (r: Result<Option<Tx>, Code>)
      modifies this`aborted
      ensures r.Ok? <==> !aborted
      ensures r.Ok? ==> !old(aborted) && r.value == if id < |db.txs| then Some(db.txs[id]) else None
      ensures reliable && !old(aborted) ==> r.Ok?
    {
      var err := Statement(true);
      if err.Some? {
        return Err(err.value);
      }
      r := Ok(if id < |db.txs| then Some(db.txs[id]) else None);
    }

    method FindKey(provider: string, key: string) returns (r: Result<Option<nat>, Code>)
      modifies this`aborted
      ensures r.Ok? <==> !aborted
      ensures r.Ok? ==> !old(aborted) && r.value == FindByProviderKey(db.txs, provider, key)
      ensures reliable && !old(aborted) ==> r.Ok?
    {
      var err := Statement(true);
      if err.Some? {
        return Err(err.value);
      }
      r := Ok(FindByProviderKey(db.txs, provider, key));
    }

    method FindExternal(provider: string, id: string) returns (r: Result<Option<nat>, Code>)
      modifies this`aborted
      ensures r.Ok? <==> !aborted
      ensures r.Ok? ==> !old(aborted) && r.value == FindByProviderExternal(db.txs, provider, id)
      ensures reliable && !old(aborted) ==> r.Ok?
    {
      var err := Statement(true);
      if err.Some? {
        return Err(err.value);
      }
      r := Ok(FindByProviderExternal(db.txs, provider, id));
    }

    method FindDependents(provider: string, reference: string) returns (r: Result<seq<nat>, Code>)
      modifies this`aborted
      ensures r.Ok? <==> !aborted
      ensures r.Ok? ==> !old(aborted) && IsDependents(db.txs, provider, reference, r.value)
      ensures reliable && !old(aborted) ==> r.Ok?
    {
      var err := Statement(true);
      if err.Some? {
        return Err(err.value);
      }
      var ids: seq<nat> := [];
      for i := 0 to |db.txs|
        invariant forall id: nat :: id in ids <==>
                  id < i && Provider(db.txs[id]) == provider && db.txs[id].refExternal == reference
        invariant forall j, k :: 0 <= j < k < |ids| ==> ids[j] != ids[k]
      {
        if Provider(db.txs[i]) == provider && db.txs[i].refExternal == reference {
          ids := ids + [i];
        }
      }
      r := Ok(ids);
    }

    method CountActiveWins(bet: nat) returns (r: Result<bool, Code>)
      modifies this`aborted
      ensures r.Ok? <==> !aborted
      ensures r.Ok? ==> !old(aborted) && r.value == HasActiveWin(db.txs, bet)
      ensures reliable && !old(aborted) ==> r.Ok?
    {
      var err := Statement(true);
      if err.Some? {
        return Err(err.value);
      }
      r := Ok(HasActiveWin(db.txs, bet));
    }

    method InsertTx(row: Tx) returns (err: Option<Code>)
      modifies this
      ensures err.None? <==> !aborted
      ensures err.None? ==> !old(aborted) && InsertAllowed(old(db).txs, row) && db == Added(old(db), row)
      ensures err.Some? ==> db == old(db)
      ensures reliable && !old(aborted) && InsertAllowed(old(db).txs, row) ==> err.None?
    {
      var allowed := if row.origin.External?
        then FindByProviderKey(db.txs, row.origin.provider, row.origin.key).None?
             && FindByProviderExternal(db.txs, row.origin.provider, row.origin.id).None?
        else forall i :: 0 <= i < |db.txs| ==> db.txs[i].origin.External? || db.txs[i].wallet != row.wallet;
      assert allowed <==> InsertAllowed(db.txs, row);
      err := Statement(allowed);
      if err.None? {
        db := Added(db, row);
      }
    }

    /** The outcome columns of `rec` are written over row `id`. */
    method UpdateState(id: nat, rec: Tx) returns (err: Option<Code>)
      requires id < |db.txs|
      modifies this
      ensures err.None? <==> !aborted
      ensures err.None? ==> !old(aborted) && db == old(db).(txs := old(db).txs[id := Overwrite(old(db).txs[id], rec)])
      ensures err.Some? ==> db == old(db)
      ensures reliable && !old(aborted) ==> err.None?
    {
      err := Statement(true);
      if err.None? {
        db := db.(txs := db.txs[id := Overwrite(db.txs[id], rec)]);
      }
    }

    method MarkTx(target: nat, kind: Kind, reverser: nat) returns (err: Option<Code>)
      requires target < |db.txs|
      modifies this
      ensures err.None? <==> !aborted
      ensures err.None? ==> !old(aborted) && db == old(db).(txs := MarkReversed(old(db).txs, target, kind, reverser))
      ensures err.Some? ==> db == old(db)
      ensures reliable && !old(aborted) ==> err.None?
    {
      err := Statement(true);
      if err.None? {
        db := db.(txs := MarkReversed(db.txs, target, kind, reverser));
      }
    }

    method ClearTx(target: nat) returns (err: Option<Code>)
      requires target < |db.txs|
      modifies this
      ensures err.None? <==> !aborted
      ensures err.None? ==> !old(aborted) && db == old(db).(txs := ClearReversal(old(db).txs, target))
      ensures err.Some? ==> db == old(db)
      ensures reliable && !old(aborted) ==> err.None?
    {
      err := Statement(true);
      if err.None? {
        db := db.(txs := ClearReversal(db.txs, target));
      }
    }

    // -------------------------------------------------------------- ledger, outbox, work, inbox

    method Append(e: Entry) returns (err: Option<Code>)
      modifies this
      ensures err.None? <==> !aborted
      ensures err.None? ==>
                !old(aborted) && EntryAllowed(old(db).ledger, e) && db == old(db).(ledger := old(db).ledger + [e])
      ensures err.Some? ==> db == old(db)
      ensures reliable && !old(aborted) && EntryAllowed(old(db).ledger, e) ==> err.None?
    {
      var allowed := !HasEntry(db.ledger, e.wallet, e.tx) && e.amount > 0 && e.before >= 0 && e.after >= 0
                     && e.after == After(e.before, e.dir, e.amount);
      err := Statement(allowed);
      if err.None? {
        db := db.(ledger := db.ledger + [e]);
      }
    }

    method EnqueueOutbox(e: Event) returns (err: Option<Code>)
      modifies this
      ensures err.None? <==> !aborted
      ensures err.None? ==> !old(aborted) && db == old(db).(outbox := old(db).outbox + [e])
      ensures err.Some? ==> db == old(db)
      ensures reliable && !old(aborted) ==> err.None?
    {
      err := Statement(true);
      if err.None? {
        db := db.(outbox := db.outbox + [e]);
      }
    }

    method EnqueueWork(id: nat, item: Work) returns (err: Option<Code>)
      modifies this
      ensures err.None? <==> !aborted
      ensures err.None? ==> !old(aborted) && id !in old(db).work && db == old(db).(work := old(db).work[id := item])
      ensures err.Some? ==> db == old(db)
      ensures reliable && !old(aborted) && id !in old(db).work ==> err.None?
    {
      err := Statement(id !in db.work);
      if err.None? {
        db := db.(work := db.work[id := item]);
      }
    }

    method GetWork(id: nat) returns (r: Result<Option<Work>, Code>)
      modifies this`aborted
      ensures r.Ok? <==> !aborted
      ensures r.Ok? ==> !old(aborted) && r.value == if id in db.work then Some(db.work[id]) else None
      ensures reliable && !old(aborted) ==> r.Ok?
    {
      var err := Statement(true);
      if err.Some? {
        return Err(err.value);
      }
      r := Ok(if id in db.work then Some(db.work[id]) else None);
    }

    /** ClaimWork: select the due rows and lease them one by one. */
    method ClaimWork(owner: string, now: int, ttl: int, limit: nat) returns (r: Result<seq<nat>, Code>)
      modifies this
      ensures r.Ok? <==> !aborted
      ensures r.Ok? ==>
                && !old(aborted)
                && IsClaim(old(db).work, now, limit, r.value)
                && db == Claimed(old(db), (set id | id in r.value), Lease(owner, now + ttl))
      ensures reliable && !old(aborted) ==> r.Ok?
    {
      var err := Statement(true);
      if err.Some? {
        return Err(err.value);
      }
      var ids := SelectDue(db.work, now, limit);
      var lease := Lease(owner, now + ttl);
      ghost var work := db.work;
      for k := 0 to |ids|
        invariant !aborted && db == old(db).(work := db.work) && db.work.Keys == work.Keys
        invariant forall id :: id in work ==>
                    db.work[id] == if id in ids[..k] then work[id].(lease := Some(lease)) else work[id]
      {
        err := Statement(true);
        if err.Some? {
          return Err(err.value);
        }
        db := db.(work := db.work[ids[k] := db.work[ids[k]].(lease := Some(lease))]);
        assert ids[..k + 1] == ids[..k] + [ids[k]];
      }
      assert ids[..|ids|] == ids;
      assert db.work == Claimed(old(db), (set id | id in ids), lease).work;
      r := Ok(ids);
    }

    method TouchWork(id: nat, refAttempts: nat, infraAttempts: nat, nextAt: int,
                     clearLease: bool) returns (err: Option<Code>)
      modifies this
      ensures err.None? <==> !aborted
      ensures err.None? ==> !old(aborted) && db == Touched(old(db), id, refAttempts, infraAttempts, nextAt, clearLease)
      ensures err.Some? ==> db == old(db)
      ensures reliable && !old(aborted) ==> err.None?
    {
      err := Statement(true);
      if err.None? {
        db := Touched(db, id, refAttempts, infraAttempts, nextAt, clearLease);
      }
    }

    method DeleteWork(id: nat) returns (err: Option<Code>)
      modifies this
      ensures err.None? <==> !aborted
      ensures err.None? ==> !old(aborted) && db == old(db).(work := old(db).work - {id})
      ensures err.Some? ==> db == old(db)
      ensures reliable && !old(aborted) ==> err.None?
    {
      err := Statement(true);
      if err.None? {
        db := db.(work := db.work - {id});
      }
    }

    method FindInbox(slot: (string, string)) returns (r: Result<Option<string>, Code>)
      modifies this`aborted
      ensures r.Ok? <==> !aborted
      ensures r.Ok? ==> !old(aborted) && r.value == if slot in db.inbox then Some(db.inbox[slot]) else None
      ensures reliable && !old(aborted) ==> r.Ok?
    {
      var err := Statement(true);
      if err.Some? {
        return Err(err.value);
      }
      r := Ok(if slot in db.inbox then Some(db.inbox[slot]) else None);
    }

    method InsertInbox(slot: (string, string), hash: string) returns (err: Option<Code>)
      modifies this
      ensures err.None? <==> !aborted
      ensures err.None? ==>
                !old(aborted) && slot !in old(db).inbox && db == old(db).(inbox := old(db).inbox[slot := hash])
      ensures err.Some? ==> db == old(db)
      ensures err == Some(UniqueViolation) ==> slot in old(db).inbox
      ensures reliable && !old(aborted) ==> if slot in old(db).inbox then err == Some(UniqueViolation) else err.None?
    {
      err := Statement(slot !in db.inbox);
      if err.None? {
        db := db.(inbox := db.inbox[slot := hash]);
      }
    }
  }
}
