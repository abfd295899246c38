/**
 The outbox protocol (internal/adapters/postgres/aux_repo.go and internal/adapters/sqs/publisher.go):
 publishers claim due rows under a lease, send them, and mark or nack them. Any number of
 publishers take these steps in any order; a crash is a publisher that takes no further step,
 and a send that reached the broker without its answer is a Send followed by a Nack.
 */
module Outbox {
  import opened Wrappers
  import opened Tables

  const OUTBOX_LEASE_TTL := 30_000

  datatype Row = Row(event: Event, attempts: nat, nextSendAt: int, published: Option<int>, lease: Option<Lease>)

  /** An event as a publisher read it or as the broker received it, under its stable id. */
  datatype Copy = Copy(id: nat, event: Event)

  datatype World = World(rows: seq<Row>, sent: seq<Copy>, claimed: set<Copy>, now: int)

  predicate Claimable(row: Row, now: int) {
    && row.published.None?
    && row.nextSendAt <= now
    && (row.lease.None? || row.lease.value.expires <= now)
  }

  // ---------------------------------------------------------------- row writes

  function Leased(row: Row, owner: string, now: int): Row {
    row.(lease := Some(Lease(owner, now + OUTBOX_LEASE_TTL)))
  }

  function Published(row: Row, at: int): Row {
    row.(published := Some(at), lease := None)
  }

  function Nacked(row: Row, attempts: nat, nextSendAt: int): Row {
    row.(attempts := attempts, nextSendAt := nextSendAt, lease := None)
  }

  // ---------------------------------------------------------------- the protocol

  datatype Step =
    | Enqueue(event: Event)
    | Tick(elapsed: nat)
    | Claim(owner: string, ids: set<nat>)
    | Send(copy: Copy)
    | Mark(copy: Copy, at: int)
    | Nack(id: nat, attempts: nat, nextSendAt: int)

  /** What the program order of a publisher guarantees: it sends what it claimed, marks what it sent
      and nacks what it claimed. No later step checks who holds the lease. */
  ghost predicate Legal(w: World, s: Step) {
    match s
    case Enqueue(_) => true
    case Tick(_) => true
    case Claim(_, ids) => forall id :: id in ids ==> id < |w.rows| && Claimable(w.rows[id], w.now)
    case Send(copy) => copy in w.claimed
    case Mark(copy, _) => copy in w.sent && copy.id < |w.rows|
    case Nack(id, _, _) => id < |w.rows| && exists copy :: copy in w.claimed && copy.id == id
  }

  ghost function Next(w: World, s: Step): World
    requires Legal(w, s)
  {
    match s
    case Enqueue(event) => w.(rows := w.rows + [Row(event, 0, w.now, None, None)])
    case Tick(elapsed) => w.(now := w.now + elapsed)
    case Claim(owner, ids) =>
      w.(rows := seq(|w.rows|, i requires 0 <= i < |w.rows| =>
                 if i in ids then Leased(w.rows[i], owner, w.now) else w.rows[i]),
         claimed := w.claimed + set id | id in ids :: Copy(id, w.rows[id].event))
    case Send(copy) => w.(sent := w.sent + [copy])
    case Mark(copy, at) => w.(rows := w.rows[copy.id := Published(w.rows[copy.id], at)])
    case Nack(id, attempts, nextSendAt) => w.(rows := w.rows[id := Nacked(w.rows[id], attempts, nextSendAt)])
  }

  /** The outbox before its first event. */
  function Start(now: int): World {
    World([], [], {}, now)
  }

  ghost predicate LegalRun(w: World, steps: seq<Step>)
    decreases |steps|, 0
  {
    steps == [] || (LegalRun(w, steps[..|steps| - 1]) && Legal(Run(w, steps[..|steps| - 1]), steps[|steps| - 1]))
  }

  ghost function Run(w: World, steps: seq<Step>): World
    requires LegalRun(w, steps)
    decreases |steps|, 1
  {
    if steps == [] then w else Next(Run(w, steps[..|steps| - 1]), steps[|steps| - 1])
  }

  // ---------------------------------------------------------------- the invariant

  ghost predicate Honest(w: World) {
    && (forall c :: c in w.claimed ==> c.id < |w.rows| && w.rows[c.id].event == c.event)
    && (forall c :: c in w.sent ==> c in w.claimed)
    && (forall i :: 0 <= i < |w.rows| && w.rows[i].published.Some? ==> Copy(i, w.rows[i].event) in w.sent)
    && (forall i :: 0 <= i < |w.rows| && w.rows[i].lease.Some? ==>
          w.rows[i].lease.value.expires <= w.now + OUTBOX_LEASE_TTL)
  }

  lemma NextIsHonest(w: World, s: Step)
    requires Honest(w) && Legal(w, s)
    ensures Honest(Next(w, s))
  {
    var w' := Next(w, s);
    match s
    case Claim(owner, ids) =>
      forall c | c in w'.claimed
        ensures c.id < |w'.rows| && w'.rows[c.id].event == c.event
      {
      }
    case Mark(copy, at) =>
      assert copy in w.claimed;
    case _ =>
  }

  lemma {:induction false} RunIsHonest(now: int, steps: seq<Step>)
    requires LegalRun(Start(now), steps)
    ensures Honest(Run(Start(now), steps))
    decreases |steps|
  {
    if steps != [] {
      RunIsHonest(now, steps[..|steps| - 1]);
      NextIsHonest(Run(Start(now), steps[..|steps| - 1]), steps[|steps| - 1]);
    }
  }

  /** What later steps keep: rows with their events, marks, messages and the direction of time. */
  ghost predicate Keeps(w: World, w': World) {
    && |w.rows| <= |w'.rows|
    && (forall i :: 0 <= i < |w.rows| ==> w'.rows[i].event == w.rows[i].event)
    && (forall i :: 0 <= i < |w.rows| && w.rows[i].published.Some? ==> w'.rows[i].published.Some?)
    && w.sent <= w'.sent
    && w.now <= w'.now
  }

  lemma NextKeeps(w: World, s: Step)
    requires Legal(w, s)
    ensures Keeps(w, Next(w, s))
  {
  }

  lemma {:induction false} RunKeeps(w: World, steps: seq<Step>, n: nat)
    requires LegalRun(w, steps) && n <= |steps|
    ensures LegalRun(w, steps[..n]) && Keeps(Run(w, steps[..n]), Run(w, steps))
    decreases |steps|
  {
    if n < |steps| {
      var front := steps[..|steps| - 1];
      assert front[..n] == steps[..n];
      RunKeeps(w, front, n);
      NextKeeps(Run(w, front), steps[|steps| - 1]);
    } else {
      assert steps[..n] == steps;
    }
  }

  // ---------------------------------------------------------------- guarantees

  /** The events enqueued so far, in order. */
  function Enqueued(steps: seq<Step>): seq<Event> {
    if steps == [] then []
    else
      var front, s := Enqueued(steps[..|steps| - 1]), steps[|steps| - 1];
      if s.Enqueue? then front + [s.event] else front
  }

  /** Nothing is lost or altered: the rows are the enqueued events, whatever else happened. */
  lemma {:induction false} NothingIsLost(now: int, steps: seq<Step>)
    requires LegalRun(Start(now), steps)
    ensures var rows := Run(Start(now), steps).rows;
            |rows| == |Enqueued(steps)| && forall i :: 0 <= i < |rows| ==> rows[i].event == Enqueued(steps)[i]
    decreases |steps|
  {
    if steps != [] {
      NothingIsLost(now, steps[..|steps| - 1]);
    }
  }

  /** A published event was sent under its own id with its original content, and so was every message. */
  lemma PublishedWasSent(now: int, steps: seq<Step>, id: nat)
    requires LegalRun(Start(now), steps) && id < |Run(Start(now), steps).rows|
    ensures var w := Run(Start(now), steps);
            && |w.rows| == |Enqueued(steps)|
            && (w.rows[id].published.Some? ==> Copy(id, Enqueued(steps)[id]) in w.sent)
            && forall c :: c in w.sent ==> c.id < |Enqueued(steps)| && c.event == Enqueued(steps)[c.id]
  {
    RunIsHonest(now, steps);
    NothingIsLost(now, steps);
  }

  /** Once published, never claimed again. */
  lemma PublishedIsNeverClaimed(now: int, steps: seq<Step>, n: nat, id: nat)
    requires LegalRun(Start(now), steps) && n < |steps| && steps[n].Claim? && id in steps[n].ids
    ensures forall m :: 0 <= m <= n ==>
              LegalRun(Start(now), steps[..m])
              && (id < |Run(Start(now), steps[..m]).rows| ==> Run(Start(now), steps[..m]).rows[id].published.None?)
  {
    hide LegalRun, Run;
    StepIsLegal(Start(now), steps, n);
    forall m | 0 <= m <= n
      ensures LegalRun(Start(now), steps[..m])
              && (id < |Run(Start(now), steps[..m]).rows| ==> Run(Start(now), steps[..m]).rows[id].published.None?)
    {
      RunKeeps(Start(now), steps[..n], m);
      assert steps[..n][..m] == steps[..m];
    }
  }

  /** The row is out of reach until `until`: published, or leased at least that long. */
  ghost predicate Held(w: World, id: nat, until: int) {
    id < |w.rows| && (w.rows[id].published.Some? || (w.rows[id].lease.Some? && w.rows[id].lease.value.expires >= until))
  }

  lemma HeldStays(w: World, s: Step, id: nat, until: int)
    requires Legal(w, s) && Held(w, id, until) && !(s.Nack? && s.id == id)
    requires until <= w.now + OUTBOX_LEASE_TTL
    ensures Held(Next(w, s), id, until)
  {
  }

  lemma {:induction false} HeldSince(w: World, steps: seq<Step>, i: nat, id: nat)
    requires LegalRun(w, steps) && i < |steps| && steps[i].Claim? && id in steps[i].ids
    requires forall k :: i < k < |steps| ==> !(steps[k].Nack? && steps[k].id == id)
    ensures LegalRun(w, steps[..i]) && Held(Run(w, steps), id, Run(w, steps[..i]).now + OUTBOX_LEASE_TTL)
    decreases |steps|
  {
    var last := |steps| - 1;
    var front := steps[..last];
    RunKeeps(w, steps, i);
    if i < last {
      assert front[..i] == steps[..i];
      HeldSince(w, front, i, id);
      RunKeeps(w, front, i);
      HeldStays(Run(w, front), steps[last], id, Run(w, steps[..i]).now + OUTBOX_LEASE_TTL);
    }
  }

  /** A step of a legal run is legal where it was taken. */
  lemma StepIsLegal(w: World, steps: seq<Step>, j: nat)
    requires LegalRun(w, steps) && j < |steps|
    ensures LegalRun(w, steps[..j]) && Legal(Run(w, steps[..j]), steps[j])
  {
    RunKeeps(w, steps, j + 1);
    assert steps[..j + 1][..j] == steps[..j];
  }

  /** Two claims of the same row without a nack of it between them are at least one lease apart. */
  lemma ClaimsAreSpaced(w: World, steps: seq<Step>, i: nat, j: nat, id: nat)
    requires LegalRun(w, steps) && i < j < |steps|
    requires steps[i].Claim? && id in steps[i].ids && steps[j].Claim? && id in steps[j].ids
    requires forall k :: i < k < j ==> !(steps[k].Nack? && steps[k].id == id)
    ensures LegalRun(w, steps[..i]) && LegalRun(w, steps[..j])
    ensures Run(w, steps[..j]).now >= Run(w, steps[..i]).now + 30_000
  {
    hide LegalRun, Run;
    StepIsLegal(w, steps, j);
    assert steps[..j][..i] == steps[..i];
    HeldSince(w, steps[..j], i, id);
  }

  /** No unpublished event is ever stuck: after a lease, and once its send time has come, it is claimable. */
  lemma UnpublishedIsClaimableLater(now: int, steps: seq<Step>, id: nat, wait: nat)
    requires LegalRun(Start(now), steps) && id < |Run(Start(now), steps).rows|
    requires Run(Start(now), steps).rows[id].published.None?
    requires wait >= 30_000 && wait >= Run(Start(now), steps).rows[id].nextSendAt - Run(Start(now), steps).now
    ensures var w := Next(Run(Start(now), steps), Tick(wait)); Claimable(w.rows[id], w.now)
  {
    RunIsHonest(now, steps);
  }

  /** A new event is claimable at once. */
  lemma NewIsClaimable(w: World, event: Event)
    ensures var w' := Next(w, Enqueue(event));
            w'.rows == w.rows + [w'.rows[|w.rows|]] && w'.rows[|w.rows|].event == event
            && Claimable(w'.rows[|w.rows|], w.now)
  {
  }

  /** A nacked row that is not published is claimable again exactly from its send time on, lease or no lease. */
  lemma NackedIsClaimableIff(w: World, id: nat, attempts: nat, nextSendAt: int, later: int)
    requires Legal(w, Nack(id, attempts, nextSendAt)) && w.rows[id].published.None?
    ensures var row := Next(w, Nack(id, attempts, nextSendAt)).rows[id];
            row.attempts == attempts && (Claimable(row, later) <==> later >= nextSendAt)
  {
  }

  /** The row is not sent before `at`: published, or its send time is that late. */
  ghost predicate Delayed(w: World, id: nat, at: int) {
    id < |w.rows| && (w.rows[id].published.Some? || w.rows[id].nextSendAt >= at)
  }

  lemma DelayStays(w: World, s: Step, id: nat, at: int)
    requires Legal(w, s) && Delayed(w, id, at) && !(s.Nack? && s.id == id)
    ensures Delayed(Next(w, s), id, at)
  {
  }

  lemma {:induction false} DelayedSince(w: World, steps: seq<Step>, i: nat, id: nat)
    requires LegalRun(w, steps) && i < |steps| && steps[i].Nack? && steps[i].id == id
    requires forall k :: i < k < |steps| ==> !(steps[k].Nack? && steps[k].id == id)
    ensures Delayed(Run(w, steps), id, steps[i].nextSendAt)
    decreases |steps|
  {
    var last := |steps| - 1;
    var front := steps[..last];
    if i < last {
      DelayedSince(w, front, i, id);
      DelayStays(Run(w, front), steps[last], id, steps[i].nextSendAt);
    }
  }

  /** After a nack a row is not claimed before the send time the nack set. */
  lemma NackDelaysClaims(w: World, steps: seq<Step>, i: nat, j: nat, id: nat)
    requires LegalRun(w, steps) && i < j < |steps|
    requires steps[i].Nack? && steps[i].id == id && steps[j].Claim? && id in steps[j].ids
    requires forall k :: i < k < j ==> !(steps[k].Nack? && steps[k].id == id)
    ensures LegalRun(w, steps[..j]) && Run(w, steps[..j]).now >= steps[i].nextSendAt
  {
    hide LegalRun, Run;
    StepIsLegal(w, steps, j);
    DelayedSince(w, steps[..j], i, id);
  }
}
