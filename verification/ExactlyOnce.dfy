/** One financial effect per operation, over both channels and any number of repeats. */
module ExactlyOnce {
  import opened Wrappers
  import opened Failures
  import opened Money
  import opened Domain
  import opened Tables
  import opened Engine
  import opened Invariant
  import opened Settling
  import opened Resting
  import opened Steps
  import opened History
  import C = Canonical

  /** No two rows share a provider and key, or a provider and external id. */
  lemma OneRowPerOperation(steps: seq<Step>, i: nat, j: nat)
    requires i < |Run(steps).txs| && j < |Run(steps).txs|
    requires Run(steps).txs[i].origin.External? && Run(steps).txs[j].origin.External?
    requires Run(steps).txs[i].origin.provider == Run(steps).txs[j].origin.provider
    requires || Run(steps).txs[i].origin.key == Run(steps).txs[j].origin.key
             || Run(steps).txs[i].origin.id == Run(steps).txs[j].origin.id
    ensures i == j
  {
    RunHasInv(steps);
    var txs := Run(steps).txs;
    assert KeysUnique(txs);
    assert HasKey(txs[j], txs[i].origin.provider, txs[i].origin.key)
        || HasExternal(txs[j], txs[i].origin.provider, txs[i].origin.id);
  }

  /** A used key or external id never writes again, whatever the rest of the input says. */
  lemma RepeatWritesNothing(db: Db, i: SubmitInput, missed: bool, env: Env, id: nat)
    requires id < |db.txs|
    requires HasKey(db.txs[id], i.provider, i.key) || HasExternal(db.txs[id], i.provider, i.external)
    ensures Submitted(db, i, missed, env).0 == db
  {
    hide Applied, C.PayloadHash, Prepared;
  }

  /** The transport check lets the message through. */
  ghost predicate NotPoison(db: Db, i: SubmitInput, missed: bool) {
    i.messageId == "" || missed || (i.consumer, i.messageId) !in db.inbox
    || db.inbox[(i.consumer, i.messageId)] == C.PayloadHash(BusinessOf(i))
  }

  lemma SameHashSameColumns(t: Tx, i: SubmitInput)
    requires t.origin.External? && HashOf(t) && t.origin.hash == C.PayloadHash(BusinessOf(i))
    ensures t.wallet == i.wallet && t.player == i.player && t.currency == i.currency
    ensures t.origin.provider == i.provider && t.origin.id == i.external
  {
    hide C.PayloadHash;
    var b: C.Business :| Describes(b, t) && C.PayloadHash(b) == t.origin.hash;
    C.PayloadHashIsInjective(b, BusinessOf(i));
  }

  lemma RowFacts(db: Db, id: nat)
    requires Inv(db) && id < |db.txs| && db.txs[id].origin.External?
    ensures HashOf(db.txs[id]) && RowOk(db.wallets, db.txs[id]) && KeysUnique(db.txs)
  {
    assert HashesOk(db.txs) && RowsOk(db.wallets, db.txs);
  }

  /** The input's key is free, or the row's own. */
  ghost predicate KeyFits(db: Db, i: SubmitInput, id: nat) {
    forall j :: 0 <= j < |db.txs| && HasKey(db.txs[j], i.provider, i.key) ==> j == id
  }

  /** A repeat of row `id` gets an answer: it is well formed, no poison, and claims no other row's key. */
  ghost predicate Answerable(db: Db, i: SubmitInput, missed: bool, id: nat) {
    Prepared(i).Ok? && NotPoison(db, i, missed) && KeyFits(db, i, id)
  }

  /** The reply to a repeat of row `id`, whatever its key and channel. */
  ghost function RepeatReply(db: Db, i: SubmitInput, missed: bool, id: nat): Reply
    requires id < |db.txs|
  {
    if Prepared(i).Err? then Correctable(Prepared(i).error)
    else if !NotPoison(db, i, missed) then Poison
    else if KeyFits(db, i, id) then Done(ReplayResult(id, db.txs[id]))
    else Conflict
  }

  /** Both lookups, by key and by external id, lead to the row with the input's hash, unless another row
      holds the key, and that row has another hash. */
  lemma BothHandlersMeet(db: Db, i: SubmitInput, id: nat)
    requires Inv(db) && id < |db.txs| && db.txs[id].origin.External?
    requires db.txs[id].origin.hash == C.PayloadHash(BusinessOf(i))
    ensures var key := FindByProviderKey(db.txs, i.provider, i.key);
            && FindByProviderExternal(db.txs, i.provider, i.external) == Some(id)
            && (KeyFits(db, i, id) <==> key.None? || key == Some(id))
            && (key.Some? && key != Some(id) ==> db.txs[key.value].origin.hash != C.PayloadHash(BusinessOf(i)))
  {
    hide Core, C.PayloadHash, HashOf, RowOk;
    RowFacts(db, id);
    SameHashSameColumns(db.txs[id], i);
    var e := FindByProviderExternal(db.txs, i.provider, i.external);
    assert HasExternal(db.txs[id], i.provider, i.external);
    assert HasExternal(db.txs[e.value], db.txs[id].origin.provider, db.txs[id].origin.id);
    var key := FindByProviderKey(db.txs, i.provider, i.key);
    if key.Some? {
      var k := key.value;
      RowFacts(db, k);
      forall j | 0 <= j < |db.txs| && HasKey(db.txs[j], i.provider, i.key)
        ensures j == k
      {
        assert HasKey(db.txs[j], db.txs[k].origin.provider, db.txs[k].origin.key);
      }
      if db.txs[k].origin.hash == C.PayloadHash(BusinessOf(i)) {
        SameHashSameColumns(db.txs[k], i);
        assert HasExternal(db.txs[k], db.txs[id].origin.provider, db.txs[id].origin.id);
      }
    }
  }

  /** A repeat of the content of row `id`, under any key and over any channel, changes nothing and is
      answered from that row; only a key held by another row, or a reused message id, refuses it. */
  lemma ReplayAnswersFromTheRow(db: Db, i: SubmitInput, missed: bool, env: Env, id: nat)
    requires Inv(db) && id < |db.txs| && db.txs[id].origin.External?
    requires db.txs[id].origin.hash == C.PayloadHash(BusinessOf(i))
    ensures Submitted(db, i, missed, env) == (db, RepeatReply(db, i, missed, id))
  {
    hide Core, Applied, C.PayloadHash, Prepared, ReplayResult, HashOf;
    RowFacts(db, id);
    SameHashSameColumns(db.txs[id], i);
    BothHandlersMeet(db, i, id);
  }

  /** A used key or external id with another content is never accepted. */
  lemma DivergentIsRefused(db: Db, i: SubmitInput, missed: bool, env: Env, id: nat)
    requires Inv(db) && id < |db.txs|
    requires HasKey(db.txs[id], i.provider, i.key) || HasExternal(db.txs[id], i.provider, i.external)
    requires db.txs[id].origin.hash != C.PayloadHash(BusinessOf(i))
    ensures Submitted(db, i, missed, env).0 == db && !Submitted(db, i, missed, env).1.Done?
    ensures Prepared(i).Ok? && NotPoison(db, i, missed) && i.wallet in db.wallets
            && i.player == db.wallets[i.wallet].player && i.currency == db.wallets[i.wallet].currency ==>
              Submitted(db, i, missed, env).1 == Conflict
  {
    hide Core, Applied, C.PayloadHash, Prepared, HashOf, RowOk;
    RepeatWritesNothing(db, i, missed, env, id);
    FirstFoundDiverges(db, i, id);
  }

  /** The row Submit finds first has another hash too. */
  lemma FirstFoundDiverges(db: Db, i: SubmitInput, id: nat)
    requires Inv(db) && id < |db.txs|
    requires HasKey(db.txs[id], i.provider, i.key) || HasExternal(db.txs[id], i.provider, i.external)
    requires db.txs[id].origin.hash != C.PayloadHash(BusinessOf(i))
    ensures var key, external := FindByProviderKey(db.txs, i.provider, i.key),
                                 FindByProviderExternal(db.txs, i.provider, i.external);
            var first := if key.Some? then key else external;
            first.Some? && db.txs[first.value].origin.hash != C.PayloadHash(BusinessOf(i))
  {
    hide Core, C.PayloadHash, HashOf, RowOk;
    RowFacts(db, id);
    var key, external := FindByProviderKey(db.txs, i.provider, i.key),
                         FindByProviderExternal(db.txs, i.provider, i.external);
    var first := if key.Some? then key else external;
    var f := first.value;
    RowFacts(db, f);
    if db.txs[f].origin.hash == C.PayloadHash(BusinessOf(i)) {
      BothHandlersMeet(db, i, f);
    }
  }

  // ---------------------------------------------------------------- from the first answer to every later one

  /** What the first answer says is what the row records. */
  ghost predicate Matches(r: SubmitResult, t: Tx) {
    match r.outcome
    case OutcomeProcessed =>
      && t.state == Processed && t.result == r.balance
      && t.observed == Some(r.version) && t.failure == r.failure
    case OutcomeRejected =>
      && t.state == Rejected && t.result == r.balance
      && t.observed == Some(r.version) && t.failure == r.failure
    case OutcomePending => t.state == PendingReference
    case OutcomeReplay => false
  }

  lemma AppliedMatches(db: Db, row: Tx, env: Env)
    requires row.wallet in db.wallets && row.state == Pending && row.failure.None? && Applied(db, row, env).1.Done?
    ensures var (db', reply) := Applied(db, row, env);
            && reply.result.tx == |db.txs| && !reply.result.replay
            && |db'.txs| == |db.txs| + 1
            && db'.txs[|db.txs|].origin == row.origin
            && Matches(reply.result, db'.txs[|db.txs|])
  {
    hide Judge, Moved, HasEntry;
    var id, db1 := |db.txs|, Added(db, row);
    JudgeNamesRows(db, OperationOf(row), row.refExternal);
    match Judge(db, OperationOf(row), row.refExternal)
    case Move(dir, ref) => MovedMatches(db1, id, dir, ref);
    case _ =>
  }

  lemma MovedMatches(db: Db, id: nat, dir: Direction, ref: Option<nat>)
    requires id < |db.txs| && db.txs[id].wallet in db.wallets && db.txs[id].failure.None?
    requires ref.Some? ==> ref.value < id
    ensures var db' := Moved(db, id, db.txs[id], dir, ref);
            var w := db.wallets[db.txs[id].wallet];
            && |db'.txs| == |db.txs|
            && db'.txs[id].state == Processed && db'.txs[id].failure.None? && db'.txs[id].origin == db.txs[id].origin
            && db'.txs[id].result == Some(Money(After(w.balance, dir, db.txs[id].amount), w.currency))
            && db'.txs[id].observed == Some(w.version + 1)
  {
  }

  lemma AcceptedMatches(db: Db, i: SubmitInput, missed: bool, env: Env)
    requires Submitted(db, i, missed, env).1.Done? && !Submitted(db, i, missed, env).1.result.replay
    ensures Prepared(i).Ok?
    ensures var (db', reply) := Submitted(db, i, missed, env);
            var id := reply.result.tx;
            && id == |db.txs| < |db'.txs|
            && HasKey(db'.txs[id], i.provider, i.key)
            && db'.txs[id].origin.hash == C.PayloadHash(BusinessOf(i))
            && Matches(reply.result, db'.txs[id])
  {
    hide Applied, C.PayloadHash, Matches;
    var hash, m := C.PayloadHash(BusinessOf(i)), Prepared(i).value;
    AppliedMatches(db, NewRow(i, m, hash), env);
  }

  lemma LaterRow(db: Db, db': Db, id: nat, r: SubmitResult)
    requires Evolves(db, db') && id < |db.txs| && db.txs[id].origin.External?
    requires Matches(r, db.txs[id])
    ensures id < |db'.txs| && db'.txs[id].origin == db.txs[id].origin
    ensures r.outcome == OutcomeProcessed || r.outcome == OutcomeRejected ==> Matches(r, db'.txs[id])
  {
    assert RowEvolves(db.txs[id], db'.txs[id]);
    assert Identity(db.txs[id]).origin == Identity(db'.txs[id]).origin;
  }

  /** Once an operation was answered, sending its content again at any later point, under any key and over
      either channel, writes nothing; the repeat is answered exactly when it is answerable, names the same
      transaction, and repeats the first answer's code, balance and version if that was a decision. */
  lemma EveryRepeatGetsTheFirstAnswer(before: seq<Step>, i: SubmitInput, missed: bool, env: Env, later: seq<Step>,
                                      again: SubmitInput, missed': bool, env': Env)
    requires Submitted(Run(before), i, missed, env).1.Done? && !Submitted(Run(before), i, missed, env).1.result.replay
    requires BusinessOf(again) == BusinessOf(i)
    ensures var first := Submitted(Run(before), i, missed, env).1.result;
            var db := Run(before + [Submit(i, missed, env)] + later);
            var (db', reply) := Submitted(db, again, missed', env');
            && db' == db
            && (reply.Done? <==> Answerable(db, again, missed', first.tx))
            && (reply.Done? ==>
                  && reply.result.replay && reply.result.tx == first.tx
                  && (first.outcome == OutcomeProcessed || first.outcome == OutcomeRejected ==>
                        reply.result == first.(outcome := OutcomeReplay, replay := true)))
  {
    hide Inv, Evolves, Submitted, C.PayloadHash, NotPoison, Matches, KeyFits, Prepared;
    var s := Submit(i, missed, env);
    var steps, n := before + [s] + later, |before| + 1;
    assert steps[..n] == before + [s];
    assert (before + [s])[..|before|] == before;
    var first := Submitted(Run(before), i, missed, env).1.result;
    var db1, db := Run(steps[..n]), Run(steps);
    AcceptedMatches(Run(before), i, missed, env);
    RunEvolves(steps, n);
    LaterRow(db1, db, first.tx, first);
    RunHasInv(steps);
    ReplayAnswersFromTheRow(db, again, missed', env', first.tx);
    ReplayMatches(first, db.txs[first.tx]);
  }

  lemma ReplayMatches(r: SubmitResult, t: Tx)
    ensures Matches(r, t) && (r.outcome == OutcomeProcessed || r.outcome == OutcomeRejected) ==>
              ReplayResult(r.tx, t) == r.(outcome := OutcomeReplay, replay := true)
    ensures ReplayResult(r.tx, t).tx == r.tx && ReplayResult(r.tx, t).replay
  {
  }

  /** However a transaction was decided, inline or by a resume, from then on every repeat of its content
      changes nothing and, if answerable, returns its id with the balance, code and version it was
      decided with; a repeat that is not answerable gets no result. */
  lemma DecidedRepeats(steps: seq<Step>, n: nat, id: nat, again: SubmitInput, missed: bool, env: Env)
    requires n <= |steps| && id < |Run(steps[..n]).txs|
    requires Run(steps[..n]).txs[id].state == Processed || Run(steps[..n]).txs[id].state == Rejected
    requires Run(steps[..n]).txs[id].origin.External?
    requires Run(steps[..n]).txs[id].origin.hash == C.PayloadHash(BusinessOf(again))
    ensures var t, db := Run(steps[..n]).txs[id], Run(steps);
            var (db', reply) := Submitted(db, again, missed, env);
            && db' == db && t.observed.Some? && t.result.Some?
            && (Answerable(db, again, missed, id) ==>
                  reply == Done(SubmitResult(OutcomeReplay, id, t.result, t.failure, t.observed.value, true)))
            && (!Answerable(db, again, missed, id) ==> !reply.Done?)
  {
    hide Inv, Evolves, Submitted, C.PayloadHash, NotPoison, KeyFits, Prepared;
    RunEvolves(steps, n);
    RunHasInv(steps[..n]);
    RunHasInv(steps);
    DecidedStays(Run(steps[..n]), Run(steps), id);
    ReplayAnswersFromTheRow(Run(steps), again, missed, env, id);
  }

  lemma DecidedStays(db: Db, db': Db, id: nat)
    requires Inv(db) && Evolves(db, db') && id < |db.txs|
    requires db.txs[id].state == Processed || db.txs[id].state == Rejected
    ensures id < |db'.txs| && db'.txs[id] == db.txs[id].(reversal := db'.txs[id].reversal)
    ensures db.txs[id].observed.Some? && db.txs[id].result.Some?
  {
    hide Core;
    CoreRow(db, id);
    assert RowEvolves(db.txs[id], db'.txs[id]);
  }

  lemma WaitingIsBlank(db: Db, id: nat)
    requires Inv(db) && id < |db.txs|
    ensures db.txs[id].state == PendingReference ==> db.txs[id].failure.None? && db.txs[id].observed.None?
  {
    hide Core;
    CoreRow(db, id);
  }

  /** While a transaction is parked, and for good once it FAILED, every answerable repeat of its content
      reads as pending, without a balance, and changes nothing. */
  lemma UndecidedReplaysAsPending(steps: seq<Step>, id: nat, again: SubmitInput, missed: bool, env: Env)
    requires id < |Run(steps).txs| && Run(steps).txs[id].origin.External?
    requires Run(steps).txs[id].state == PendingReference || Run(steps).txs[id].state == Failed
    requires Run(steps).txs[id].origin.hash == C.PayloadHash(BusinessOf(again))
    ensures var db := Run(steps);
            var (db', reply) := Submitted(db, again, missed, env);
            && db' == db
            && (reply.Done? <==> Answerable(db, again, missed, id))
            && (reply.Done? ==>
                  && reply.result.outcome == OutcomePending && reply.result.balance.None?
                  && reply.result.tx == id && reply.result.replay
                  && reply.result.failure == db.txs[id].failure
                  && (db.txs[id].state == PendingReference ==> reply.result.failure.None? && reply.result.version == 0))
  {
    hide Inv, Submitted, C.PayloadHash, NotPoison, KeyFits, Prepared;
    RunHasInv(steps);
    WaitingIsBlank(Run(steps), id);
    ReplayAnswersFromTheRow(Run(steps), again, missed, env, id);
  }
}
