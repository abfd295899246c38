/**
 Messages and their redelivery (internal/adapters/sqs/consumer.go): a message leaves the queue
 only after its outcome is durable, and a message that comes again changes nothing.
 */
module Delivery {
  import opened Wrappers
  import opened Failures
  import opened Domain
  import opened Tables
  import opened Engine
  import opened Invariant
  import opened Settling
  import opened Steps
  import opened History
  import opened ExactlyOnce
  import opened Service
  import C = Canonical

  /** The operation of the input is on record, with the input's own content. */
  ghost predicate OnRecord(txs: seq<Tx>, i: SubmitInput) {
    exists id: nat :: id < |txs| && RowOf(txs[id], i)
  }

  ghost predicate RowOf(t: Tx, i: SubmitInput) {
    && (HasKey(t, i.provider, i.key) || HasExternal(t, i.provider, i.external))
    && t.origin.hash == C.PayloadHash(BusinessOf(i))
  }

  /** An answered submission is on record. */
  lemma AnsweredIsOnRecord(db: Db, i: SubmitInput, missed: bool, env: Env)
    requires Submitted(db, i, missed, env).1.Done?
    ensures OnRecord(Submitted(db, i, missed, env).0.txs, i)
  {
    hide C.PayloadHash, Applied;
    var hash := C.PayloadHash(BusinessOf(i));
    var db' := Submitted(db, i, missed, env).0;
    var byKey, byExternal := FindByProviderKey(db.txs, i.provider, i.key),
                             FindByProviderExternal(db.txs, i.provider, i.external);
    if byKey.Some? {
      assert RowOf(db'.txs[byKey.value], i);
    } else if byExternal.Some? {
      assert RowOf(db'.txs[byExternal.value], i);
    } else {
      AppliedRow(db, NewRow(i, Prepared(i).value, hash), env);
      assert RowOf(db'.txs[|db.txs|], i);
    }
  }

  lemma RecordStays(db: Db, db': Db, i: SubmitInput)
    requires Evolves(db, db') && OnRecord(db.txs, i)
    ensures OnRecord(db'.txs, i)
  {
    var id: nat :| id < |db.txs| && RowOf(db.txs[id], i);
    assert RowEvolves(db.txs[id], db'.txs[id]);
    assert Identity(db.txs[id]).origin == Identity(db'.txs[id]).origin;
    assert RowOf(db'.txs[id], i);
  }

  lemma SubmissionIsOnRecord(db: Db, db': Db, i: SubmitInput, env: Env, ids: seq<nat>, later: Env)
    requires Inv(db) && Submission(db, db', i, env, ids, later) && Submitted(db, i, false, env).1.Done?
    ensures OnRecord(db'.txs, i)
  {
    hide Inv, Submitted, OnRecord, Evolves, Reevaluated;
    var mid := Submitted(db, i, false, env).0;
    AnsweredIsOnRecord(db, i, false, env);
    SubmittedKeepsInv(db, i, false, env);
    ReevaluatedEvolves(mid, ids, later);
    if db' != mid {
      RecordStays(mid, db', i);
    }
  }

  /** A submission of what is on record changes nothing. */
  lemma RepeatedSubmission(db: Db, db': Db, i: SubmitInput, env: Env, ids: seq<nat>, later: Env)
    requires OnRecord(db.txs, i) && Submission(db, db', i, env, ids, later)
    ensures db' == db
  {
    hide C.PayloadHash;
    var id: nat :| id < |db.txs| && RowOf(db.txs[id], i);
    RepeatWritesNothing(db, i, false, env, id);
    RepeatIsNotProcessed(db, i, env, id);
  }

  lemma RepeatIsNotProcessed(db: Db, i: SubmitInput, env: Env, id: nat)
    requires id < |db.txs| && RowOf(db.txs[id], i)
    ensures Submitted(db, i, false, env).1.Done? ==> Submitted(db, i, false, env).1.result.outcome != OutcomeProcessed
  {
    hide C.PayloadHash, Applied;
  }

  const CONSUMER := "wallet-consumer"

  /** The input of message `id`: the envelope's operation under the transport identity of the delivery. */
  function Delivered(id: string, envelope: SubmitInput): SubmitInput {
    envelope.(consumer := CONSUMER, messageId := id)
  }

  class Consumer {
    const service: Wagering
    /** No call to the queues fails. */
    const reliable: bool
    /** The messages in the queue by id; None is a body that is not a valid envelope. */
    var queue: map<string, Option<SubmitInput>>
    var deadLetters: set<string>

    constructor (service: Wagering, reliable: bool)
      ensures this.service == service && this.reliable == reliable && queue == map[] && deadLetters == {}
    {
      this.service := service;
      this.reliable := reliable;
      queue, deadLetters := map[], {};
    }

    /** DeleteMessage; a failure leaves the message to be delivered again. */
    method Delete(id: string)
      modifies this`queue
      ensures queue == old(queue) || queue == old(queue) - {id}
      ensures reliable ==> queue == old(queue) - {id}
    {
      var reached: bool := *;
      if reliable || reached {
        queue := queue - {id};
      }
    }

    /** toDLQ; a failed send is only logged. */
    method ToDeadLetters(id: string)
      modifies this`deadLetters
      ensures deadLetters == old(deadLetters) || deadLetters == old(deadLetters) + {id}
      ensures reliable ==> deadLetters == old(deadLetters) + {id}
    {
      var reached: bool := *;
      if reliable || reached {
        deadLetters := deadLetters + {id};
      }
    }

    /** Handle one delivery of message `id`; `reply` is the service's, or None for a malformed body. */
    method Handle(id: string, env: Env, later: Env) returns (err: bool, ghost reply: Option<Reply>)
      requires service.Valid() && id in queue
      modifies this, service
      ensures service.Valid() && (queue == old(queue) || queue == old(queue) - {id})
      ensures deadLetters == old(deadLetters) || deadLetters == old(deadLetters) + {id}
      // what the service did with it
      ensures old(queue)[id].None? ==> reply.None? && service.db == old(service.db)
      ensures old(queue)[id].Some? ==>
                && reply.Some?
                && (service.reliable || reply.value.Done? ==>
                      reply.value == Submitted(old(service.db), Delivered(id, old(queue)[id].value), false, env).1)
                && (reply.value.Done? ==> OnRecord(service.db.txs, Delivered(id, old(queue)[id].value)))
                && (reply.value.Poison? ==> Poisoned(old(service.db), Delivered(id, old(queue)[id].value)))
      ensures old(queue)[id].Some? && OnRecord(old(service.db).txs, Delivered(id, old(queue)[id].value)) ==>
                service.db == old(service.db)
      // and what became of the message
      ensures err <==> reply.Some? && !reply.value.Done? && !reply.value.Poison?
      ensures err ==> queue == old(queue)
      ensures reliable && !err ==> id !in queue
      ensures id !in queue ==>
                || old(queue)[id].None?
                || OnRecord(service.db.txs, Delivered(id, old(queue)[id].value))
                || Poisoned(old(service.db), Delivered(id, old(queue)[id].value))
      ensures err || (reply.Some? && reply.value.Done?) ==> deadLetters == old(deadLetters)
      ensures reliable && (reply.None? || reply.value.Poison?) ==> id in deadLetters
    {
      hide Inv, Submission, OnRecord, Submitted, Reevaluated, Poisoned, NamesDependents;
      err, reply := false, None;
      if queue[id].None? {
        ToDeadLetters(id);
        Delete(id);
        return;
      }
      var i := Delivered(id, queue[id].value);
      ghost var before := service.db;
      var answer;
      ghost var ids;
      answer, ids := service.Submit(i, env, later);
      reply := Some(answer);
      if OnRecord(before.txs, i) && service.db != before {
        RepeatedSubmission(before, service.db, i, env, ids, later);
      }
      if answer.Done? {
        SubmissionIsOnRecord(before, service.db, i, env, ids, later);
        Delete(id);
      } else if answer.Poison? {
        ToDeadLetters(id);
        Delete(id);
      } else {
        err := true;
      }
    }
  }
}
