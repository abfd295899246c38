/**
 The engine and the publishers together: business transactions append to the outbox in their own
 commit, publishers work on its rows at any time in between. Outbox row `k` is always the `k`-th
 event of the database, so what is published and sent is what the events of the engine say.
 */
module Broadcast {
  import opened Wrappers
  import opened Domain
  import opened Tables
  import opened Invariant
  import E = Engine
  import H = History
  import S = Steps
  import O = Outbox

  /** One act of the system: a committed business transaction or a publisher's step. */
  datatype Act = Commit(step: E.Step) | Publish(work: O.Step)

  function Commits(acts: seq<Act>): seq<E.Step> {
    if acts == [] then []
    else
      var front, last := Commits(acts[..|acts| - 1]), acts[|acts| - 1];
      if last.Commit? then front + [last.step] else front
  }

  function Enqueues(events: seq<Event>): seq<O.Step> {
    seq(|events|, k requires 0 <= k < |events| => O.Enqueue(events[k]))
  }

  /** The events a transaction adds. */
  ghost function News(db: Db, s: E.Step): seq<Event> {
    var outbox := E.Next(db, s).outbox;
    if |db.outbox| <= |outbox| then outbox[|db.outbox|..] else []
  }

  /** The acts as the outbox sees them. */
  ghost function Outgoing(acts: seq<Act>): seq<O.Step> {
    if acts == [] then []
    else
      var front, last := acts[..|acts| - 1], acts[|acts| - 1];
      Outgoing(front) + match last
                        case Commit(s) => Enqueues(News(E.Run(Commits(front)), s))
                        case Publish(p) => [p]
  }

  /** Publishers claim, send, mark and nack, and time passes; only the engine enqueues. */
  predicate Proper(acts: seq<Act>) {
    forall k :: 0 <= k < |acts| && acts[k].Publish? ==> !acts[k].work.Enqueue?
  }

  lemma {:induction false} EnqueuedAppend(steps: seq<O.Step>, events: seq<Event>)
    ensures O.Enqueued(steps + Enqueues(events)) == O.Enqueued(steps) + events
    decreases |events|
  {
    if events == [] {
      assert steps + Enqueues(events) == steps;
    } else {
      var n := |events| - 1;
      var front := events[..n];
      var all := steps + Enqueues(events);
      EnqueuedAppend(steps, front);
      assert all[..|all| - 1] == steps + Enqueues(front);
      assert O.Enqueued(steps) + events == O.Enqueued(steps) + front + [events[n]];
    }
  }

  lemma SteppedAppend(steps: seq<O.Step>, p: O.Step)
    requires !p.Enqueue?
    ensures O.Enqueued(steps + [p]) == O.Enqueued(steps)
  {
    assert (steps + [p])[..|steps|] == steps;
  }

  lemma NewsContinue(steps: seq<E.Step>, s: E.Step)
    ensures E.Run(steps + [s]).outbox == E.Run(steps).outbox + News(E.Run(steps), s)
  {
    hide Inv, E.Next;
    S.RunHasInv(steps);
    H.NextEvolves(E.Run(steps), s);
    assert (steps + [s])[..|steps|] == steps;
  }

  /** What was enqueued is what the engine announced, in the same order. */
  lemma {:induction false} OutboxIsEnqueued(acts: seq<Act>)
    requires Proper(acts)
    ensures O.Enqueued(Outgoing(acts)) == E.Run(Commits(acts)).outbox
  {
    hide E.Next, E.Run, O.Enqueued, News;
    if acts == [] {
      NothingYet();
    } else {
      var front, last := acts[..|acts| - 1], acts[|acts| - 1];
      OutboxIsEnqueued(front);
      match last
      case Commit(s) =>
        EnqueuedAppend(Outgoing(front), News(E.Run(Commits(front)), s));
        NewsContinue(Commits(front), s);
      case Publish(p) => SteppedAppend(Outgoing(front), p);
    }
  }

  lemma NothingYet()
    ensures E.Run([]).outbox == [] && O.Enqueued([]) == []
  {
  }

  /** In every interleaving: outbox rows are the engine's events; a published one was sent; and every
      message sent reports the state its transaction has. */
  lemma MessagesReportState(acts: seq<Act>, now: int)
    requires Proper(acts) && O.LegalRun(O.Start(now), Outgoing(acts))
    ensures var w, db := O.Run(O.Start(now), Outgoing(acts)), E.Run(Commits(acts));
            && |w.rows| == |db.outbox|
            && (forall k :: 0 <= k < |w.rows| ==> w.rows[k].event == db.outbox[k])
            && (forall k :: 0 <= k < |w.rows| && w.rows[k].published.Some? ==> O.Copy(k, db.outbox[k]) in w.sent)
            && (forall c :: c in w.sent ==>
                  && c.id < |db.outbox| && c.event == db.outbox[c.id]
                  && c.event.tx < |db.txs| && Reports(db.txs[c.event.tx], c.event))
  {
    hide E.Run, O.LegalRun, O.Run, O.Enqueued, Core, Reports;
    var w, db := O.Run(O.Start(now), Outgoing(acts)), E.Run(Commits(acts));
    OutboxIsEnqueued(acts);
    O.NothingIsLost(now, Outgoing(acts));
    O.RunIsHonest(now, Outgoing(acts));
    S.RunHasInv(Commits(acts));
    EventsAreReports(db);
  }

  lemma EventsAreReports(db: Db)
    requires Inv(db)
    ensures forall k :: 0 <= k < |db.outbox| ==>
              db.outbox[k].tx < |db.txs| && Reports(db.txs[db.outbox[k].tx], db.outbox[k])
  {
    assert EventsOk(db.txs, db.ledger, db.outbox);
  }
}
