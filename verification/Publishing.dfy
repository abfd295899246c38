/**
 The publisher's loop over the outbox table and the broker (internal/adapters/postgres/aux_repo.go,
 internal/adapters/sqs/publisher.go). Whatever statement or send fails, what it did is a legal
 run of the outbox protocol.
 */
module Publishing {
  import opened Wrappers
  import opened Failures
  import opened Tables
  import opened Outbox

  /** What a claim hands to the publisher. */
  datatype Claimed = Claimed(copy: Copy, attempts: nat)

  /** Claimable rows, each once, earliest send time first; a row left out for the limit is not earlier. */
  ghost predicate IsBatch(rows: seq<Row>, now: int, limit: nat, ids: seq<nat>) {
    && |ids| <= limit
    && (forall k :: 0 <= k < |ids| ==> ids[k] < |rows| && Claimable(rows[ids[k]], now))
    && (forall j, k :: 0 <= j < k < |ids| ==> ids[j] != ids[k] && rows[ids[j]].nextSendAt <= rows[ids[k]].nextSendAt)
    && (forall id: nat | id < |rows| && Claimable(rows[id], now) && id !in ids ::
          |ids| == limit && forall k :: 0 <= k < |ids| ==> rows[ids[k]].nextSendAt <= rows[id].nextSendAt)
  }

  /** Row `id` placed behind every row that is not due later. */
  function InsertByTime(rows: seq<Row>, ids: seq<nat>, id: nat): (r: seq<nat>)
    requires id < |rows| && forall k :: 0 <= k < |ids| ==> ids[k] < |rows|
    ensures forall x :: x in r <==> x in ids || x == id
    ensures |r| == |ids| + 1
    decreases |ids|
  {
    if ids == [] || rows[ids[|ids| - 1]].nextSendAt <= rows[id].nextSendAt then ids + [id]
    else InsertByTime(rows, ids[..|ids| - 1], id) + [ids[|ids| - 1]]
  }

  predicate InTimeOrder(rows: seq<Row>, ids: seq<nat>) {
    && (forall k :: 0 <= k < |ids| ==> ids[k] < |rows|)
    && (forall j, k :: 0 <= j < k < |ids| ==> ids[j] != ids[k] && rows[ids[j]].nextSendAt <= rows[ids[k]].nextSendAt)
  }

  lemma AppendKeepsOrder(rows: seq<Row>, ids: seq<nat>, last: nat)
    requires InTimeOrder(rows, ids) && last < |rows|
    requires forall x :: x in ids ==> x != last && x < |rows| && rows[x].nextSendAt <= rows[last].nextSendAt
    ensures InTimeOrder(rows, ids + [last])
  {
    assert forall k :: 0 <= k < |ids| ==> ids[k] in ids;
  }

  lemma {:induction false} InsertKeepsOrder(rows: seq<Row>, ids: seq<nat>, id: nat)
    requires id < |rows| && InTimeOrder(rows, ids) && id !in ids
    ensures InTimeOrder(rows, InsertByTime(rows, ids, id))
    decreases |ids|
  {
    if ids == [] || rows[ids[|ids| - 1]].nextSendAt <= rows[id].nextSendAt {
      OrderedUpTo(rows, ids);
      AppendKeepsOrder(rows, ids, id);
    } else {
      var front, last := ids[..|ids| - 1], ids[|ids| - 1];
      OrderedUpTo(rows, ids);
      InsertKeepsOrder(rows, front, id);
      assert forall x :: x in front ==> x in ids && x != last;
      AppendKeepsOrder(rows, InsertByTime(rows, front, id), last);
    }
  }

  /** No row comes after the last one. */
  lemma OrderedUpTo(rows: seq<Row>, ids: seq<nat>)
    requires InTimeOrder(rows, ids)
    ensures forall k :: 0 <= k < |ids| ==> ids[k] < |rows|
    ensures forall x :: x in ids ==> x < |rows| && rows[x].nextSendAt <= rows[ids[|ids| - 1]].nextSendAt
    ensures ids != [] ==> ids[|ids| - 1] !in ids[..|ids| - 1]
  {
  }

  /** All claimable rows in time order are a batch when they fit the limit. */
  lemma AllAreBatch(rows: seq<Row>, now: int, limit: nat, all: seq<nat>)
    requires InTimeOrder(rows, all) && |all| <= limit
    requires forall id: nat :: id in all <==> id < |rows| && Claimable(rows[id], now)
    ensures IsBatch(rows, now, limit, all)
  {
    hide Claimable;
    assert forall k :: 0 <= k < |all| ==> all[k] in all;
  }

  /** Otherwise the first ones are: a row further back is not earlier. */
  lemma FirstAreBatch(rows: seq<Row>, now: int, limit: nat, all: seq<nat>)
    requires InTimeOrder(rows, all) && |all| > limit
    requires forall id: nat :: id in all <==> id < |rows| && Claimable(rows[id], now)
    ensures IsBatch(rows, now, limit, all[..limit])
  {
    hide Claimable;
    var ids := all[..limit];
    assert forall k :: 0 <= k < limit ==> ids[k] == all[k] && all[k] in all;
    forall id: nat | id < |rows| && Claimable(rows[id], now) && id !in ids
      ensures forall k :: 0 <= k < limit ==> rows[ids[k]].nextSendAt <= rows[id].nextSendAt
    {
      var j :| 0 <= j < |all| && all[j] == id;
      assert j >= limit by {
        assert forall k :: 0 <= k < limit ==> ids[k] in ids;
      }
    }
  }

  /** SELECT of the claimable rows ordered by send time, up to a limit. */
  method SelectClaimable(rows: seq<Row>, now: int, limit: nat) returns (ids: seq<nat>)
    ensures IsBatch(rows, now, limit, ids)
  {
    hide InTimeOrder, IsBatch, InsertByTime;
    ids := [];
    EmptyInOrder(rows);
    for i := 0 to |rows|
      invariant InTimeOrder(rows, ids)
      invariant forall id: nat :: id in ids <==> id < i && Claimable(rows[id], now)
    {
      if Claimable(rows[i], now) {
        InsertKeepsOrder(rows, ids, i);
        OrderedUpTo(rows, ids);
        ids := InsertByTime(rows, ids, i);
      }
    }
    if |ids| > limit {
      FirstAreBatch(rows, now, limit, ids);
      ids := ids[..limit];
    } else {
      AllAreBatch(rows, now, limit, ids);
    }
  }

  lemma EmptyInOrder(rows: seq<Row>)
    ensures InTimeOrder(rows, [])
  {
  }

  lemma {:induction false} LegalAppend(w: World, steps: seq<Step>, s: Step)
    requires LegalRun(w, steps) && Legal(Run(w, steps), s)
    ensures LegalRun(w, steps + [s]) && Run(w, steps + [s]) == Next(Run(w, steps), s)
  {
    assert (steps + [s])[..|steps|] == steps;
  }

  class Publisher {
    var rows: seq<Row>
    var sent: seq<Copy>
    var now: int
    ghost var claimed: set<Copy>
    const reliable: bool

    ghost function TheWorld(): World
      reads this
    {
      World(rows, sent, claimed, now)
    }

    constructor (now: int, reliable: bool)
      ensures TheWorld() == Start(now) && this.reliable == reliable
    {
      rows, sent, claimed := [], [], {};
      this.now := now;
      this.reliable := reliable;
    }

    /** ClaimOutbox: select and lease in one transaction; a failure before COMMIT leaves nothing, one
        after it leaves the leases. */
    method ClaimOutbox(owner: string, limit: nat) returns (r: Result<seq<Claimed>, Code>, ghost steps: seq<Step>)
      modifies this
      ensures LegalRun(old(TheWorld()), steps) && Run(old(TheWorld()), steps) == TheWorld()
      ensures r.Ok? ==>
                && (forall k :: 0 <= k < |r.value| ==> r.value[k].copy in claimed && r.value[k].copy.id < |rows|)
                && IsBatch(old(rows), old(now), limit, Ids(r.value))
                && |rows| == |old(rows)| && now == old(now) && sent == old(sent)
                && AllClaimed(old(rows), rows, r.value, owner, now)
      ensures reliable ==> r.Ok?
    {
      hide IsBatch, LegalRun, Run, Leased, AllClaimed, Ids;
      steps := [];
      NothingDone(TheWorld());
      var ids := SelectClaimable(rows, now, limit);
      BatchIsLegal(TheWorld(), limit, ids, owner);
      var leases := LeaseAll(rows, ids, owner, now, reliable);
      if leases.None? {
        return Err(StatementFailed), [];
      }
      var (leased, out) := leases.value;
      LeasesAreClaims(rows, leased, ids, out, owner, now, limit);
      var committed: bool, answered: bool := *, *;
      if reliable || committed {
        ghost var step := Step.Claim(owner, set id | id in ids);
        LegalAppend(TheWorld(), [], step);
        steps := [] + [step];
        claimed := claimed + set id | id in step.ids :: Copy(id, rows[id].event);
        rows := leased;
      }
      if reliable || (committed && answered) {
        r := Ok(out);
      } else {
        r := Err(StatementFailed);
      }
    }

    /** Publish: the broker may take the message and its answer may still get lost. */
    method Publish(copy: Copy) returns (ok: bool)
      requires copy in claimed
      modifies this`sent
      ensures TheWorld() == old(TheWorld()) || TheWorld() == Next(old(TheWorld()), Send(copy))
      ensures ok ==> TheWorld() == Next(old(TheWorld()), Send(copy))
      ensures reliable ==> ok
    {
      var taken: bool, answered: bool := *, *;
      if reliable || taken {
        sent := sent + [copy];
      }
      ok := reliable || (taken && answered);
    }

    method NackOutbox(copy: Copy, attempts: nat, nextSendAt: int) returns (err: Option<Code>)
      requires copy in claimed && copy.id < |rows|
      modifies this`rows
      ensures TheWorld() == old(TheWorld()) || TheWorld() == Next(old(TheWorld()), Nack(copy.id, attempts, nextSendAt))
      ensures err.None? ==> TheWorld() == Next(old(TheWorld()), Nack(copy.id, attempts, nextSendAt))
      ensures reliable ==> err.None?
    {
      var reached: bool, answered: bool := *, *;
      if reliable || reached {
        rows := rows[copy.id := Nacked(rows[copy.id], attempts, nextSendAt)];
      }
      err := if reliable || (reached && answered) then None else Some(StatementFailed);
    }

    method MarkOutboxPublished(copy: Copy) returns (err: Option<Code>)
      requires copy in sent && copy.id < |rows|
      modifies this`rows
      ensures TheWorld() == old(TheWorld()) || TheWorld() == Next(old(TheWorld()), Step.Mark(copy, now))
      ensures err.None? ==> TheWorld() == Next(old(TheWorld()), Step.Mark(copy, now))
      ensures reliable ==> err.None?
    {
      var reached: bool, answered: bool := *, *;
      if reliable || reached {
        rows := rows[copy.id := Published(rows[copy.id], now)];
      }
      err := if reliable || (reached && answered) then None else Some(StatementFailed);
    }

    /** One claimed row: send it, then mark it, or nack it with backoff. */
    method Treat(c: Claimed, backoff: int) returns (done: bool, err: Option<Code>, ghost steps: seq<Step>)
      requires c.copy in claimed && c.copy.id < |rows|
      modifies this`rows, this`sent
      ensures LegalRun(old(TheWorld()), steps) && Run(old(TheWorld()), steps) == TheWorld()
      ensures Outbox.Keeps(old(TheWorld()), TheWorld()) && |rows| == |old(rows)|
      ensures forall i :: 0 <= i < |rows| && i != c.copy.id ==> rows[i] == old(rows)[i]
      ensures done ==> err.None?
      ensures err.None? ==> Handled(old(rows)[c.copy.id], rows[c.copy.id], c.attempts, now, now + backoff, done)
      ensures reliable ==> done && err.None?
    {
      hide LegalRun, Run;
      ghost var start := TheWorld();
      done, err, steps := false, None, [];
      NothingDone(start);
      var ok := Publish(c.copy);
      if TheWorld() != start || ok {
        LegalAppend(start, steps, Send(c.copy));
        steps := steps + [Send(c.copy)];
      }
      ghost var sentWorld := TheWorld();
      if !ok {
        err := NackOutbox(c.copy, c.attempts + 1, now + backoff);
        if TheWorld() != sentWorld {
          LegalAppend(start, steps, Nack(c.copy.id, c.attempts + 1, now + backoff));
          steps := steps + [Nack(c.copy.id, c.attempts + 1, now + backoff)];
        }
        return;
      }
      err := MarkOutboxPublished(c.copy);
      if TheWorld() != sentWorld || err.None? {
        LegalAppend(start, steps, Step.Mark(c.copy, now));
        steps := steps + [Step.Mark(c.copy, now)];
      }
      done := err.None?;
    }

    /** PublishDueOutbox: claim a batch, then treat each row; a failed mark or nack ends the pass. */
    method PublishDueOutbox(owner: string, limit: nat, backoff: nat -> int)
      returns (published: nat, err: Option<Code>, ghost batch: seq<nat>, ghost steps: seq<Step>)
      modifies this
      ensures LegalRun(old(TheWorld()), steps) && Run(old(TheWorld()), steps) == TheWorld()
      ensures reliable ==> err.None? && published == |batch|
      ensures err.None? ==>
                && IsBatch(old(rows), old(now), limit, batch) && |rows| == |old(rows)|
                && (forall k :: 0 <= k < |batch| ==>
                      batch[k] < |rows| && TreatedRow(old(rows)[batch[k]], rows[batch[k]], now + backoff(k)))
                && (reliable ==> forall k :: 0 <= k < |batch| ==> rows[batch[k]].published.Some?)
    {
      hide IsBatch, LegalRun, Run, TreatedRow, ClaimedRow, Handled, Keeps, Ids;
      published, err, batch := 0, None, [];
      var claims;
      claims, steps := ClaimOutbox(owner, limit);
      if claims.Err? {
        err := Some(claims.error);
        return;
      }
      batch := Ids(claims.value);
      IdsAre(claims.value);
      BatchIsDistinct(old(rows), old(now), limit, batch);
      for k := 0 to |claims.value|
        invariant LegalRun(old(TheWorld()), steps) && Run(old(TheWorld()), steps) == TheWorld()
        invariant forall j :: 0 <= j < |claims.value| ==>
                    claims.value[j].copy in claimed && claims.value[j].copy.id < |rows|
        invariant reliable ==> published == k && forall j :: 0 <= j < k ==> rows[batch[j]].published.Some?
        invariant |rows| == |old(rows)| && now == old(now)
        invariant forall j :: 0 <= j < k ==> TreatedRow(old(rows)[batch[j]], rows[batch[j]], now + backoff(j))
        invariant forall j :: k <= j < |batch| ==>
                    ClaimedRow(old(rows)[batch[j]], rows[batch[j]], claims.value[j], owner, now)
      {
        assert batch[k] == claims.value[k].copy.id && forall j :: 0 <= j < |batch| && j != k ==> batch[j] != batch[k];
        ghost var claimedRow := rows[batch[k]];
        var done, failed;
        ghost var more;
        done, failed, more := Treat(claims.value[k], backoff(k));
        LegalConcat(old(TheWorld()), steps, more);
        steps := steps + more;
        if failed.Some? {
          err := failed;
          return;
        }
        IsTreated(old(rows)[batch[k]], claimedRow, rows[batch[k]], claims.value[k], owner, now, now + backoff(k), done);
        if done {
          published := published + 1;
        }
      }
    }
  }

  lemma NothingDone(w: World)
    ensures LegalRun(w, []) && Run(w, []) == w
  {
  }

  lemma {:induction false} LegalConcat(w: World, steps: seq<Step>, more: seq<Step>)
    requires LegalRun(w, steps) && LegalRun(Run(w, steps), more)
    ensures LegalRun(w, steps + more) && Run(w, steps + more) == Run(Run(w, steps), more)
    decreases |more|
  {
    hide Legal, Next;
    if more == [] {
      assert steps + more == steps;
    } else {
      var front, last := more[..|more| - 1], more[|more| - 1];
      LegalConcat(w, steps, front);
      LegalAppend(w, steps + front, last);
      assert steps + front + [last] == steps + more;
    }
  }

  /** What a pass leaves of a claimed row: published, or nacked with one more attempt and a later send time. */
  predicate TreatedRow(before: Row, after: Row, retryAt: int) {
    && after.event == before.event && after.lease.None?
    && (after.published.Some?
        || (after.published.None? && after.attempts == before.attempts + 1 && after.nextSendAt == retryAt))
  }

  /** The row as a claim leaves it, and the copy made of it. */
  predicate ClaimedRow(before: Row, row: Row, c: Claimed, owner: string, now: int) {
    && row == before.(lease := Some(Lease(owner, now + 30_000))) && before.published.None?
    && c.attempts == before.attempts && c.copy.event == before.event
  }

  predicate AllClaimed(before: seq<Row>, after: seq<Row>, claims: seq<Claimed>, owner: string, now: int) {
    forall k :: 0 <= k < |claims| ==>
      && claims[k].copy.id < |before| && claims[k].copy.id < |after|
      && ClaimedRow(before[claims[k].copy.id], after[claims[k].copy.id], claims[k], owner, now)
  }

  lemma LeasesAreClaims(rows: seq<Row>, leased: seq<Row>, ids: seq<nat>, out: seq<Claimed>, owner: string, now: int,
                        limit: nat)
    requires IsBatch(rows, now, limit, ids) && |out| == |ids| && |leased| == |rows|
    requires forall i :: 0 <= i < |rows| ==> leased[i] == if i in ids then Leased(rows[i], owner, now) else rows[i]
    requires forall j :: 0 <= j < |ids| ==>
               ids[j] < |rows| && out[j] == Claimed(Copy(ids[j], rows[ids[j]].event), rows[ids[j]].attempts)
    ensures Ids(out) == ids && AllClaimed(rows, leased, out, owner, now)
  {
    assert forall k :: 0 <= k < |ids| ==> ids[k] in ids;
  }

  /** What treating a row without error leaves of it. */
  predicate Handled(row: Row, after: Row, attempts: nat, now: int, retryAt: int, done: bool) {
    after == if done then row.(published := Some(now), lease := None)
             else row.(attempts := attempts + 1, nextSendAt := retryAt, lease := None)
  }

  lemma IsTreated(before: Row, row: Row, after: Row, c: Claimed, owner: string, now: int, retryAt: int, done: bool)
    requires ClaimedRow(before, row, c, owner, now) && Handled(row, after, c.attempts, now, retryAt, done)
    ensures TreatedRow(before, after, retryAt) && (done ==> after.published.Some?)
  {
  }

  lemma BatchIsDistinct(rows: seq<Row>, now: int, limit: nat, ids: seq<nat>)
    requires IsBatch(rows, now, limit, ids)
    ensures forall j, k :: 0 <= j < k < |ids| ==> ids[j] != ids[k]
    ensures forall k :: 0 <= k < |ids| ==> ids[k] < |rows| && rows[ids[k]].published.None?
  {
  }

  lemma BatchIsLegal(w: World, limit: nat, ids: seq<nat>, owner: string)
    requires IsBatch(w.rows, w.now, limit, ids)
    ensures Legal(w, Step.Claim(owner, set id | id in ids))
    ensures forall k :: 0 <= k < |ids| ==> ids[k] < |w.rows|
  {
  }

  /** The lease updates of a claim, row by row; None when a statement failed. */
  method LeaseAll(rows: seq<Row>, ids: seq<nat>, owner: string, now: int, reliable: bool)
    returns (r: Option<(seq<Row>, seq<Claimed>)>)
    requires forall k :: 0 <= k < |ids| ==> ids[k] < |rows|
    ensures r.Some? ==>
              && r.value.0 == seq(|rows|, i requires 0 <= i < |rows| =>
                    if i in ids then Leased(rows[i], owner, now) else rows[i])
              && |r.value.1| == |ids|
              && forall j :: 0 <= j < |ids| ==>
                   r.value.1[j] == Claimed(Copy(ids[j], rows[ids[j]].event), rows[ids[j]].attempts)
    ensures reliable ==> r.Some?
  {
    var leased := rows;
    var out: seq<Claimed> := [];
    for k := 0 to |ids|
      invariant |leased| == |rows| && |out| == k
      invariant forall i :: 0 <= i < |rows| ==>
                  leased[i] == if i in ids[..k] then Leased(rows[i], owner, now) else rows[i]
      invariant forall j :: 0 <= j < k ==> out[j] == Claimed(Copy(ids[j], rows[ids[j]].event), rows[ids[j]].attempts)
    {
      var reached: bool := *;
      if !(reliable || reached) {
        return None;
      }
      var id := ids[k];
      out := out + [Claimed(Copy(id, leased[id].event), rows[id].attempts)];
      leased := leased[id := Leased(leased[id], owner, now)];
      assert ids[..k + 1] == ids[..k] + [id];
    }
    assert ids[..|ids|] == ids;
    r := Some((leased, out));
  }

  lemma IdsAre(claims: seq<Claimed>)
    ensures |Ids(claims)| == |claims| && forall k :: 0 <= k < |claims| ==> Ids(claims)[k] == claims[k].copy.id
  {
  }

  function Ids(claims: seq<Claimed>): seq<nat> {
    seq(|claims|, k requires 0 <= k < |claims| => claims[k].copy.id)
  }
}
