/**
 Which parked transactions the workers settle, and in how many passes
 (internal/wagering/work.go). A missing reference is given up after a bounded number of
 attempts and a failing resume after a bounded number of errors, but a reference that is
 itself parked is waited for without limit.
 */
module Settlement {
  import opened Wrappers
  import opened Failures
  import opened Money
  import opened Domain
  import opened Tables
  import opened Engine
  import opened Invariant
  import opened Settling
  import opened Steps
  import opened Waiting
  import C = Canonical

  function TargetOf(txs: seq<Tx>, i: nat): (r: Option<nat>)
    requires i < |txs|
    ensures r.Some? ==> r.value < |txs|
  {
    FindByProviderExternal(txs, Provider(txs[i]), txs[i].refExternal)
  }

  function WaitOf(db: Db, i: nat): Wait
    requires i < |db.txs|
  {
    Wait(db.txs[i].state == PendingReference, TargetOf(db.txs, i),
         if i in db.work then db.work[i].refAttempts else 0,
         if i in db.work then db.work[i].infraAttempts else 0)
  }

  function WaitsOf(db: Db): Waits {
    seq(|db.txs|, i requires 0 <= i < |db.txs| => WaitOf(db, i))
  }

  // ---------------------------------------------------------------- a step is a treatment

  lemma {:induction false} SameFind(a: seq<Tx>, b: seq<Tx>, provider: string, id: string)
    requires SameIdentities(a, b)
    ensures FindByProviderExternal(a, provider, id) == FindByProviderExternal(b, provider, id)
    decreases |a|
  {
    IdentityFields(a, b);
    if a != [] {
      SameFind(a[..|a| - 1], b[..|b| - 1], provider, id);
    }
  }

  /** Outside row `id`, states, references and work items stay as they are. */
  ghost predicate Elsewhere(db: Db, db': Db, id: nat) {
    && SameIdentities(db.txs, db'.txs)
    && (forall j :: 0 <= j < |db.txs| && j != id ==> db'.txs[j].state == db.txs[j].state)
    && (forall j: nat :: j != id ==> (j in db'.work <==> j in db.work) && (j in db.work ==> db'.work[j] == db.work[j]))
  }

  lemma SameTargets(db: Db, db': Db, id: nat)
    requires Elsewhere(db, db', id)
    ensures forall j :: 0 <= j < |db.txs| ==> TargetOf(db'.txs, j) == TargetOf(db.txs, j)
    ensures forall j :: 0 <= j < |db.txs| && j != id ==> WaitOf(db', j) == WaitOf(db, j)
  {
    IdentityFields(db.txs, db'.txs);
    forall j | 0 <= j < |db.txs|
      ensures TargetOf(db'.txs, j) == TargetOf(db.txs, j)
    {
      SameFind(db.txs, db'.txs, Provider(db.txs[j]), db.txs[j].refExternal);
    }
  }

  lemma MovedElsewhere(db: Db, id: nat, dir: Direction, ref: Option<nat>)
    requires id < |db.txs| && db.txs[id].wallet in db.wallets && (ref.Some? ==> ref.value < |db.txs|)
    requires ref != Some(id)
    ensures var db' := Moved(db, id, db.txs[id], dir, ref); Elsewhere(db, db', id) && db'.txs[id].state == Processed
  {
    MovedStates(db, id, dir, ref);
    var db' := Moved(db, id, db.txs[id], dir, ref);
    forall j | 0 <= j < |db.txs|
      ensures Identity(db.txs[j]) == Identity(db'.txs[j])
    {
      if j == id {
        assert db'.txs[id] == db.txs[id].(state := db'.txs[id].state, result := db'.txs[id].result,
          observed := db'.txs[id].observed, refTx := db'.txs[id].refTx, reversal := db'.txs[id].reversal);
      }
    }
  }

  lemma RefusedElsewhere(db: Db, id: nat, code: Code, ref: Option<nat>)
    requires id < |db.txs| && db.txs[id].wallet in db.wallets
    ensures var db' := Refused(db, id, db.txs[id], code, ref); Elsewhere(db, db', id) && db'.txs[id].state == Rejected
  {
  }

  lemma TouchedElsewhere(db: Db, id: nat, refAttempts: nat, infraAttempts: nat, nextAt: int, clear: bool)
    requires id < |db.txs| && id in db.work
    ensures var db' := Touched(db, id, refAttempts, infraAttempts, nextAt, clear);
            Elsewhere(db, db', id) && db'.txs == db.txs && id in db'.work
            && db'.work[id].refAttempts == refAttempts && db'.work[id].infraAttempts == infraAttempts
  {
  }

  /** The waiting graph around a step whose effect on row `id` is known. */
  lemma ElsewhereTreats(db: Db, db': Db, id: nat, counted: bool)
    requires Elsewhere(db, db', id) && id < |db.txs| && db.txs[id].state == PendingReference
    requires var a, b := WaitOf(db, id), WaitOf(db', id);
             if a.target.None? then !b.parked || (b.refs == a.refs + 1 < MAX_REF_ATTEMPTS)
             else if db.txs[a.target.value].state == PendingReference then b.parked
             else !b.parked || (if counted then b.infra == a.infra + 1 < MAX_INFRA_ATTEMPTS else b == a)
    ensures Treats(WaitsOf(db), WaitsOf(db'), id, counted)
  {
    SameTargets(db, db', id);
  }

  lemma UntouchedTreats(db: Db, id: nat, counted: bool)
    requires id >= |db.txs| || db.txs[id].state != PendingReference
    ensures Treats(WaitsOf(db), WaitsOf(db), id, counted)
  {
  }

  /** Against a processed reference a parked row settles or meets an error. */
  lemma AgainstTreats(db: Db, id: nat, t: nat, counted: bool)
    requires WalletsOk(db.wallets) && id < |db.txs| && RowOk(db.wallets, db.txs[id])
    requires db.txs[id].state == PendingReference && TargetOf(db.txs, id) == Some(t) && db.txs[t].state == Processed
    ensures var v := JudgeAgainst(db, OperationOf(db.txs[id]), t);
            && (v.Refuse? ==> Treats(WaitsOf(db), WaitsOf(Refused(db, id, db.txs[id], v.code, v.ref)), id, counted))
            && (v.Move? ==>
                  && v.ref == Some(t)
                  && Treats(WaitsOf(db), WaitsOf(Moved(db, id, db.txs[id], v.dir, v.ref)), id, counted))
  {
    hide Moved, Refused, JudgeAgainst, Elsewhere, Treats, WalletsOk;
    match JudgeAgainst(db, OperationOf(db.txs[id]), t) {
      case Refuse(code, ref) =>
        RefusedElsewhere(db, id, code, ref);
        ElsewhereTreats(db, Refused(db, id, db.txs[id], code, ref), id, counted);
      case Move(dir, ref) =>
        AgainstGrounds(db, t, db.txs[id], dir, ref);
        MovedElsewhere(db, id, dir, ref);
        ElsewhereTreats(db, Moved(db, id, db.txs[id], dir, ref), id, counted);
      case _ =>
    }
  }

  lemma WalletRehydrates(wallets: map<string, WalletRow>, w: string)
    requires WalletsOk(wallets) && w in wallets
    ensures Rehydrates(wallets[w])
  {
  }

  predicate IsParked(txs: seq<Tx>, t: nat) {
    t < |txs| && txs[t].state == PendingReference
  }

  /** Against a missing, waiting or refused reference it is refused or counts one more attempt. */
  lemma AsideTreats(db: Db, id: nat, code: Code, nextAt: int, counted: bool)
    requires id < |db.txs| && db.txs[id].state == PendingReference && id in db.work && db.txs[id].wallet in db.wallets
    ensures var found := TargetOf(db.txs, id);
            var attempts := db.work[id].refAttempts + 1;
            && (found.None? || db.txs[found.value].state != PendingReference ==>
                  Treats(WaitsOf(db), WaitsOf(Refused(db, id, db.txs[id], code, found)), id, counted))
            && ((found.None? && attempts < MAX_REF_ATTEMPTS) || (found.Some? && IsParked(db.txs, found.value)) ==>
                  Treats(WaitsOf(db), WaitsOf(Touched(db, id, attempts, 0, nextAt, true)), id, counted))
  {
    hide Refused, Touched, Elsewhere, Treats;
    var found := TargetOf(db.txs, id);
    var attempts := db.work[id].refAttempts + 1;
    if found.None? || db.txs[found.value].state != PendingReference {
      RefusedElsewhere(db, id, code, found);
      ElsewhereTreats(db, Refused(db, id, db.txs[id], code, found), id, counted);
    }
    if (found.None? && attempts < MAX_REF_ATTEMPTS) || (found.Some? && db.txs[found.value].state == PendingReference) {
      TouchedElsewhere(db, id, attempts, 0, nextAt, true);
      ElsewhereTreats(db, Touched(db, id, attempts, 0, nextAt, true), id, counted);
    }
  }

  ghost predicate ResumeTreats(db: Db, id: nat, r: Resumption, counted: bool)
    requires id < |db.txs|
  {
    if r.Stuck? then Ready(WaitsOf(db), id) && TargetOf(db.txs, id).Some?
    else Treats(WaitsOf(db), WaitsOf(r.db), id, counted)
  }

  /** What resuming a parked row does to the waiting graph, unless it meets an error. */
  lemma ResumedTreats(db: Db, id: nat, env: Env, counted: bool)
    requires Inv(db) && id < |db.txs| && db.txs[id].state == PendingReference
    ensures ResumeTreats(db, id, Resumed(db, id, db.txs[id], env), counted)
  {
    hide Core, Moved, Refused, Touched, JudgeAgainst, HasEntry, Treats, WalletsOk;
    CoreRow(db, id);
    WalletRehydrates(db.wallets, db.txs[id].wallet);
    var found := TargetOf(db.txs, id);
    if found.Some? && db.txs[found.value].state == Processed {
      AgainstTreats(db, id, found.value, counted);
    } else {
      AsideTreats(db, id, if found.None? then ReferenceNotFound else ReferenceNotProcessed,
                  env.now + env.jitter, counted);
    }
  }

  lemma AgainstElsewhere(db: Db, id: nat, t: nat)
    requires WalletsOk(db.wallets) && id < |db.txs| && RowOk(db.wallets, db.txs[id])
    requires db.txs[id].state == PendingReference && t < |db.txs| && db.txs[t].state == Processed
    ensures var v := JudgeAgainst(db, OperationOf(db.txs[id]), t);
            && (v.Refuse? ==> Elsewhere(db, Refused(db, id, db.txs[id], v.code, v.ref), id))
            && (v.Move? ==> v.ref == Some(t) && Elsewhere(db, Moved(db, id, db.txs[id], v.dir, v.ref), id))
  {
    hide Moved, Refused, JudgeAgainst, Elsewhere, WalletsOk;
    match JudgeAgainst(db, OperationOf(db.txs[id]), t) {
      case Refuse(code, ref) => RefusedElsewhere(db, id, code, ref);
      case Move(dir, ref) =>
        AgainstGrounds(db, t, db.txs[id], dir, ref);
        MovedElsewhere(db, id, dir, ref);
      case _ =>
    }
  }

  lemma AsideElsewhere(db: Db, id: nat, attempts: nat, nextAt: int)
    requires id < |db.txs| && id in db.work && db.txs[id].wallet in db.wallets
    ensures forall code, ref :: Elsewhere(db, Refused(db, id, db.txs[id], code, ref), id)
    ensures Elsewhere(db, Touched(db, id, attempts, 0, nextAt, true), id)
  {
    hide Refused, Touched, Elsewhere;
    TouchedElsewhere(db, id, attempts, 0, nextAt, true);
    forall code, ref
      ensures Elsewhere(db, Refused(db, id, db.txs[id], code, ref), id)
    {
      RefusedElsewhere(db, id, code, ref);
    }
  }

  /** Resuming a row leaves every other row's state and work item alone. */
  lemma ResumedElsewhere(db: Db, id: nat, env: Env)
    requires Inv(db) && id < |db.txs| && db.txs[id].state == PendingReference
    ensures var r := Resumed(db, id, db.txs[id], env); !r.Stuck? ==> Elsewhere(db, r.db, id)
  {
    hide Core, Moved, Refused, Touched, JudgeAgainst, HasEntry, Elsewhere, WalletsOk;
    CoreRow(db, id);
    AsideElsewhere(db, id, db.work[id].refAttempts + 1, env.now + env.jitter);
    var found := TargetOf(db.txs, id);
    if found.Some? && db.txs[found.value].state == Processed {
      AgainstElsewhere(db, id, found.value);
    }
  }

  lemma WorkedTreats(db: Db, id: nat, item: Work, env: Env)
    requires Inv(db) && (id in db.work ==> item.infraAttempts == db.work[id].infraAttempts)
    ensures Treats(WaitsOf(db), WaitsOf(Worked(db, id, item, env)), id, true)
  {
    hide Inv, Resumed, Touched, Treats;
    if id >= |db.txs| || IsTerminal(db.txs[id].state) {
      DroppedKeepsInv(db, id);
      UntouchedTreats(db, id, true);
    } else {
      WaitingIsParked(db, id);
      ParkedHasWork(db, id);
      ResumedKeepsInv(db, id, env);
      ResumedTreats(db, id, env, true);
      if Resumed(db, id, db.txs[id], env).Stuck? {
        NotedTreats(db, id, item, env);
      }
    }
  }

  lemma ParkedHasWork(db: Db, id: nat)
    requires Inv(db) && id < |db.txs| && db.txs[id].state == PendingReference
    ensures id in db.work
  {
    assert WorkOk(db.txs, db.work);
  }

  lemma NotedTreats(db: Db, id: nat, item: Work, env: Env)
    requires id < |db.txs| && db.txs[id].state == PendingReference && id in db.work
    requires item.infraAttempts == db.work[id].infraAttempts
    requires Ready(WaitsOf(db), id) && TargetOf(db.txs, id).Some?
    ensures Treats(WaitsOf(db), WaitsOf(NotedInfra(db, id, item, env)), id, true)
  {
    hide Treats, Touched;
    var db' := NotedInfra(db, id, item, env);
    if item.infraAttempts + 1 >= MAX_INFRA_ATTEMPTS {
      assert Elsewhere(db, db', id);
    } else {
      TouchedElsewhere(db, id, item.refAttempts, item.infraAttempts + 1, env.now + env.jitter, false);
    }
    ElsewhereTreats(db, db', id, true);
  }

  lemma NudgedLightens(db: Db, id: nat, env: Env)
    requires Inv(db)
    ensures Lightens(WaitsOf(db), WaitsOf(Nudged(db, id, env)))
  {
    hide Inv, Resumed, Treats, Lightens;
    LightensReflexive(WaitsOf(db));
    if id < |db.txs| && db.txs[id].state == PendingReference {
      ResumedTreats(db, id, env, false);
      if !Resumed(db, id, db.txs[id], env).Stuck? {
        TreatsLightens(WaitsOf(db), WaitsOf(Nudged(db, id, env)), id, false);
      }
    }
  }

  lemma {:induction false} ReevaluatedLightens(db: Db, ids: seq<nat>, env: Env)
    requires Inv(db)
    ensures Lightens(WaitsOf(db), WaitsOf(Reevaluated(db, ids, env)))
    decreases |ids|
  {
    hide Inv, Lightens, Nudged, WaitsOf;
    LightensReflexive(WaitsOf(db));
    if ids != [] {
      var mid := Nudged(db, ids[0], env);
      NudgedKeepsInv(db, ids[0], env);
      NudgedLightens(db, ids[0], env);
      ReevaluatedLightens(mid, ids[1..], env);
      LightensTransitive(WaitsOf(db), WaitsOf(mid), WaitsOf(Reevaluated(db, ids, env)));
    }
  }

  lemma ClaimedWaits(db: Db, rows: set<nat>, lease: Lease)
    ensures WaitsOf(Claimed(db, rows, lease)) == WaitsOf(db)
  {
  }

  // ---------------------------------------------------------------- passes

  /** A step of the background workers; a worker treats an item from a copy with the current error count. */
  ghost predicate Worker(db: Db, s: Step) {
    match s
    case ProcessWork(id, item, _) => id in db.work ==> item.infraAttempts == db.work[id].infraAttempts
    case ClaimWork(_, _) => true
    case Reevaluate(_, _) => true
    case _ => false
  }

  ghost function Played(db: Db, steps: seq<Step>): Db
    decreases |steps|
  {
    if steps == [] then db else Played(Next(db, steps[0]), steps[1..])
  }

  ghost predicate Workers(db: Db, steps: seq<Step>)
    decreases |steps|
  {
    steps == [] || (Worker(db, steps[0]) && Workers(Next(db, steps[0]), steps[1..]))
  }

  ghost predicate Processes(steps: seq<Step>, id: nat) {
    exists k :: 0 <= k < |steps| && steps[k].ProcessWork? && steps[k].id == id
  }

  /** A pass: worker steps in any order and number that process every work row present at its start. */
  ghost predicate Pass(db: Db, steps: seq<Step>) {
    Workers(db, steps) && forall id: nat :: id in db.work ==> Processes(steps, id)
  }

  ghost predicate Passes(db: Db, passes: seq<seq<Step>>)
    decreases |passes|
  {
    passes == [] || (Pass(db, passes[0]) && Passes(Played(db, passes[0]), passes[1..]))
  }

  ghost function PlayedAll(db: Db, passes: seq<seq<Step>>): Db
    decreases |passes|
  {
    if passes == [] then db else PlayedAll(Played(db, passes[0]), passes[1..])
  }

  lemma {:induction false} PlayedAppend(db: Db, steps: seq<Step>, s: Step)
    ensures Played(db, steps + [s]) == Next(Played(db, steps), s)
    ensures Workers(db, steps) && Worker(Played(db, steps), s) ==> Workers(db, steps + [s])
    decreases |steps|
  {
    hide Next, Worker;
    if steps == [] {
      assert (steps + [s])[1..] == [];
    } else {
      assert (steps + [s])[1..] == steps[1..] + [s];
      PlayedAppend(Next(db, steps[0]), steps[1..], s);
    }
  }

  /** Treating one row leaves the other work rows as they are. */
  lemma WorkedElsewhere(db: Db, id: nat, item: Work, env: Env)
    requires Inv(db)
    ensures forall j: nat :: j != id && j in db.work ==>
              j in Worked(db, id, item, env).work && Worked(db, id, item, env).work[j] == db.work[j]
  {
    hide Inv, Resumed;
    if id < |db.txs| && !IsTerminal(db.txs[id].state) {
      WaitingIsParked(db, id);
      ResumedElsewhere(db, id, env);
    }
  }

  /** Treating a parked row leaves the other rows' states alone, and decides it if and only if its resume
      settles it. */
  lemma WorkedStates(db: Db, id: nat, item: Work, env: Env)
    requires Inv(db) && id in db.work
    ensures id < |db.txs| && db.txs[id].state == PendingReference
    ensures var txs' := Worked(db, id, item, env).txs;
            && |txs'| == |db.txs|
            && (forall j :: 0 <= j < |db.txs| && j != id ==> txs'[j].state == db.txs[j].state)
            && ((txs'[id].state == Processed || txs'[id].state == Rejected) <==>
                  Resumed(db, id, db.txs[id], env).Settled?)
  {
    hide Inv, Resumed, Touched;
    WorkedIsParked(db, id);
    ResumedElsewhere(db, id, env);
    NotedStates(db, id, item, env);
    ResumedStates(db, id, env);
  }

  lemma WorkedIsParked(db: Db, id: nat)
    requires Inv(db) && id in db.work
    ensures id < |db.txs| && db.txs[id].state == PendingReference
  {
    assert WorkOk(db.txs, db.work);
  }

  lemma NotedStates(db: Db, id: nat, item: Work, env: Env)
    requires id < |db.txs| && db.txs[id].state == PendingReference
    ensures var txs' := NotedInfra(db, id, item, env).txs;
            && |txs'| == |db.txs| && (forall j :: 0 <= j < |db.txs| && j != id ==> txs'[j] == db.txs[j])
            && txs'[id].state != Processed && txs'[id].state != Rejected
  {
  }

  lemma ResumedStates(db: Db, id: nat, env: Env)
    requires Inv(db) && id < |db.txs| && db.txs[id].state == PendingReference
    ensures var r := Resumed(db, id, db.txs[id], env);
            && (r.Settled? ==> id < |r.db.txs| && (r.db.txs[id].state == Processed || r.db.txs[id].state == Rejected))
            && (r.Retried? ==> r.db.txs == db.txs)
  {
    hide Core, Moved, JudgeAgainst, HasEntry, WalletsOk;
    CoreRow(db, id);
    var found := TargetOf(db.txs, id);
    if found.Some? && db.txs[found.value].state == Processed {
      match JudgeAgainst(db, OperationOf(db.txs[id]), found.value) {
        case Move(dir, ref) =>
          AgainstGrounds(db, found.value, db.txs[id], dir, ref);
          MovedStates(db, id, dir, ref);
        case _ =>
      }
    }
  }

  lemma WorkerLightens(db: Db, s: Step)
    requires Inv(db) && Worker(db, s)
    ensures Lightens(WaitsOf(db), WaitsOf(Next(db, s)))
    ensures s.ProcessWork? && s.id < |db.txs| && Ready(WaitsOf(db), s.id) ==>
              Weight(WaitsOf(Next(db, s)), s.id) < Weight(WaitsOf(db), s.id)
  {
    hide Inv, Lightens, Treats, Worked, Reevaluated, Claimed, WaitsOf, Weight;
    match s
    case ProcessWork(id, item, env) =>
      WorkedTreats(db, id, item, env);
      TreatsLightens(WaitsOf(db), WaitsOf(Next(db, s)), id, true);
      assert |WaitsOf(db)| == |db.txs| by { SizeOfWaits(db); }
    case ClaimWork(rows, lease) =>
      ClaimedWaits(db, rows, lease);
      LightensReflexive(WaitsOf(db));
    case Reevaluate(ids, env) => ReevaluatedLightens(db, ids, env);
  }

  lemma SizeOfWaits(db: Db)
    ensures |WaitsOf(db)| == |db.txs|
    ensures forall i :: 0 <= i < |db.txs| ==> WaitsOf(db)[i] == WaitOf(db, i)
  {
  }

  lemma LightensRow(v: Waits, v': Waits, i: nat)
    requires Lightens(v, v') && i < |v|
    ensures |v'| == |v| && Weight(v', i) <= Weight(v, i)
    ensures Ready(v, i) ==> !v'[i].parked || Ready(v', i)
    ensures Ready(v, i) && !v'[i].parked ==> Weight(v', i) < Weight(v, i)
  {
    hide Grounded;
  }

  lemma {:induction false} PlayedLightens(db: Db, steps: seq<Step>, r: nat)
    requires Inv(db) && Workers(db, steps)
    ensures Inv(Played(db, steps)) && Lightens(WaitsOf(db), WaitsOf(Played(db, steps)))
    ensures r < |WaitsOf(db)| && Ready(WaitsOf(db), r) && Processes(steps, r) ==>
              Weight(WaitsOf(Played(db, steps)), r) < Weight(WaitsOf(db), r)
    decreases |steps|
  {
    hide Inv, Lightens, Worker, Next, WaitsOf, Weight, Ready;
    LightensReflexive(WaitsOf(db));
    if steps != [] {
      var mid := Next(db, steps[0]);
      var v, v', v'' := WaitsOf(db), WaitsOf(mid), WaitsOf(Played(db, steps));
      NextKeepsInv(db, steps[0]);
      WorkerLightens(db, steps[0]);
      PlayedLightens(mid, steps[1..], r);
      LightensTransitive(v, v', v'');
      if r < |v| && Ready(v, r) && Processes(steps, r) {
        SizeOfWaits(db);
        LightensRow(v, v', r);
        LightensRow(v', v'', r);
        if !(steps[0].ProcessWork? && steps[0].id == r) {
          var k :| 0 <= k < |steps| && steps[k].ProcessWork? && steps[k].id == r;
          assert steps[1..][k - 1] == steps[k];
        }
      }
    }
  }

  /** A pass that starts with a grounded row parked takes some weight away. */
  lemma PassLightens(db: Db, steps: seq<Step>)
    requires Inv(db) && Pass(db, steps)
    ensures var v, v' := WaitsOf(db), WaitsOf(Played(db, steps));
            && Inv(Played(db, steps)) && Lightens(v, v')
            && ((exists i :: 0 <= i < |v| && v[i].parked && Grounded(v, i)) ==> Total(v', |v'|) < Total(v, |v|))
  {
    hide Inv, Lightens, Workers, Weight, Played;
    var v, v' := WaitsOf(db), WaitsOf(Played(db, steps));
    PlayedLightens(db, steps, 0);
    if i :| 0 <= i < |v| && v[i].parked && Grounded(v, i) {
      var d: nat :| GroundedWithin(v, i, d);
      var r := GroundedReachesReady(v, i, d);
      ParkedHasWork(db, r);
      PlayedLightens(db, steps, r);
      LightensRow(v, v', r);
      TotalLightens(v, v', |v|);
    }
  }

  /** Passes never undo a settlement, and as many passes as there is weight settle every grounded row. */
  lemma {:induction false} PassesSettle(db: Db, passes: seq<seq<Step>>)
    requires Inv(db) && Passes(db, passes)
    ensures var v, v' := WaitsOf(db), WaitsOf(PlayedAll(db, passes));
            && Inv(PlayedAll(db, passes)) && Lightens(v, v')
            && (|passes| >= Total(v, |v|) ==> forall i :: 0 <= i < |v| && Grounded(v, i) ==> !v'[i].parked)
    decreases |passes|
  {
    hide Inv, Pass, Played, WaitsOf, Weight, Ready, Grounded, Total;
    var v, v' := WaitsOf(db), WaitsOf(PlayedAll(db, passes));
    LightensReflexive(v);
    if passes != [] {
      var mid := Played(db, passes[0]);
      PassLightens(db, passes[0]);
      PassesSettle(mid, passes[1..]);
      LightensTransitive(v, WaitsOf(mid), v');
    }
    if |passes| >= Total(v, |v|) {
      forall i | 0 <= i < |v| && Grounded(v, i)
        ensures !v'[i].parked
      {
        if v[i].parked {
          ParkedWeighs(v, i, |v|);
        }
      }
    }
  }

  /** The passes a database needs at most: a sum over its parked rows of the attempts each has left. */
  function Budget(db: Db): nat {
    var v := WaitsOf(db);
    Total(v, |v|)
  }

  lemma {:induction false} BudgetIsSmall(v: Waits, n: nat)
    requires n <= |v|
    ensures Total(v, n) <= MAX_INFRA_ATTEMPTS * n
  {
    if n > 0 {
      BudgetIsSmall(v, n - 1);
    }
  }

  lemma UnparkedIsTerminal(db: Db, id: nat)
    requires Inv(db) && id < |db.txs|
    ensures WaitsOf(db)[id].parked <==> !IsTerminal(db.txs[id].state)
  {
    assert Quiet(db.txs);
  }

  /** With no new submissions, enough passes settle a parked transaction (PROCESSED, REJECTED or FAILED)
      if and only if the references of parked transactions leading from it contain no cycle. */
  lemma SettlesIffAcyclic(db: Db, passes: seq<seq<Step>>, id: nat)
    requires Inv(db) && id < |db.txs| && Passes(db, passes) && |passes| >= Budget(db)
    ensures var db' := PlayedAll(db, passes);
            && |db'.txs| == |db.txs|
            && (IsTerminal(db'.txs[id].state) <==> !Cyclic(WaitsOf(db), id))
            && Budget(db) <= MAX_INFRA_ATTEMPTS * |db.txs|
  {
    hide Inv, Passes, PlayedAll, Cyclic, Total;
    var db' := PlayedAll(db, passes);
    var v, v' := WaitsOf(db), WaitsOf(db');
    PassesSettle(db, passes);
    UnparkedIsTerminal(db', id);
    GroundedIffAcyclic(v, id);
    BudgetIsSmall(v, |v|);
    assert !v'[id].parked ==> GroundedWithin(v', id, 0);
  }

  // ---------------------------------------------------------------- cycles never settle

  /** Parked rows that wait only for each other. */
  ghost predicate Trapped(txs: seq<Tx>, rows: set<nat>) {
    forall i :: i in rows ==>
      && i < |txs| && txs[i].state == PendingReference
      && TargetOf(txs, i).Some? && TargetOf(txs, i).value in rows
  }

  lemma UngroundedIsTrapped(db: Db)
    ensures Trapped(db.txs, set i: nat | i < |db.txs| && !Grounded(WaitsOf(db), i))
  {
    var v := WaitsOf(db);
    forall i: nat | i < |v| && !Grounded(v, i)
      ensures v[i].parked && v[i].target.Some? && !Grounded(v, v[i].target.value)
    {
      assert !GroundedWithin(v, i, 0);
      if Grounded(v, v[i].target.value) {
        var d: nat :| GroundedWithin(v, v[i].target.value, d);
        assert GroundedWithin(v, i, d + 1);
      }
    }
  }

  /** Rows of `txs` keep their inputs in `txs'`, which may have more rows. */
  ghost predicate Extends(txs: seq<Tx>, txs': seq<Tx>) {
    |txs| <= |txs'| && forall i :: 0 <= i < |txs| ==> Identity(txs'[i]) == Identity(txs[i])
  }

  /** External ids are unique, so no new row can become the reference of an old one. */
  lemma TargetIsFixed(txs: seq<Tx>, txs': seq<Tx>, i: nat)
    requires Extends(txs, txs') && KeysUnique(txs') && i < |txs| && TargetOf(txs, i).Some?
    ensures TargetOf(txs', i) == TargetOf(txs, i)
  {
    var t := TargetOf(txs, i).value;
    assert Identity(txs'[i]).origin == Identity(txs[i]).origin && Identity(txs'[t]).origin == Identity(txs[t]).origin;
    assert Identity(txs'[i]).refExternal == Identity(txs[i]).refExternal;
    assert HasExternal(txs'[t], Provider(txs'[i]), txs'[i].refExternal);
    var t' := TargetOf(txs', i).value;
    assert HasExternal(txs'[t'], txs'[t].origin.provider, txs'[t].origin.id);
  }

  lemma TrapStays(txs: seq<Tx>, txs': seq<Tx>, rows: set<nat>)
    requires Trapped(txs, rows) && Spares(txs, txs', rows) && KeysUnique(txs')
    ensures Trapped(txs', rows)
  {
    hide KeysUnique, TargetOf, Extends;
    forall i | i in rows
      ensures TargetOf(txs', i) == TargetOf(txs, i)
    {
      TargetIsFixed(txs, txs', i);
    }
  }

  /** Resuming a trapped row finds its reference parked. */
  lemma TrappedWaits(db: Db, id: nat, env: Env, rows: set<nat>)
    requires Inv(db) && Trapped(db.txs, rows) && id in rows
    ensures var r := Resumed(db, id, db.txs[id], env); r.Retried? && r.db.txs == db.txs
  {
    hide Core, Moved, Refused, JudgeAgainst, HasEntry, WalletsOk;
    CoreRow(db, id);
    WalletRehydrates(db.wallets, db.txs[id].wallet);
  }

  /** Every row of the trap is still parked, and no inputs changed. */
  ghost predicate Spares(txs: seq<Tx>, txs': seq<Tx>, rows: set<nat>) {
    Extends(txs, txs') && forall i :: i in rows ==> i < |txs'| && txs'[i].state == PendingReference
  }

  lemma SameRowsSpare(txs: seq<Tx>, rows: set<nat>)
    requires Trapped(txs, rows)
    ensures Spares(txs, txs, rows)
  {
  }

  lemma ElsewhereSpares(db: Db, db': Db, id: nat, rows: set<nat>)
    requires Elsewhere(db, db', id) && Trapped(db.txs, rows) && id !in rows
    ensures Spares(db.txs, db'.txs, rows)
  {
    hide TargetOf, Identity;
    assert forall i :: i in rows ==> i < |db.txs| && i != id && db'.txs[i].state == db.txs[i].state;
  }

  lemma WorkedSpares(db: Db, id: nat, item: Work, env: Env, rows: set<nat>)
    requires Inv(db) && Trapped(db.txs, rows)
    ensures Spares(db.txs, Worked(db, id, item, env).txs, rows)
  {
    hide Inv, Resumed, NotedInfra, Trapped, Elsewhere, Spares;
    SameRowsSpare(db.txs, rows);
    if id < |db.txs| && !IsTerminal(db.txs[id].state) {
      WaitingIsParked(db, id);
      if id in rows {
        TrappedWaits(db, id, env, rows);
      } else {
        NotedSpares(db, id, item, env);
        ElsewhereSpares(db, NotedInfra(db, id, item, env), id, rows);
        ResumedElsewhere(db, id, env);
        var r := Resumed(db, id, db.txs[id], env);
        if !r.Stuck? {
          ElsewhereSpares(db, r.db, id, rows);
        }
      }
    }
  }

  lemma NotedSpares(db: Db, id: nat, item: Work, env: Env)
    requires id < |db.txs|
    ensures Elsewhere(db, NotedInfra(db, id, item, env), id)
  {
  }

  lemma NudgedSpares(db: Db, id: nat, env: Env, rows: set<nat>)
    requires Inv(db) && Trapped(db.txs, rows)
    ensures Spares(db.txs, Nudged(db, id, env).txs, rows)
  {
    hide Inv, Resumed, Trapped, Elsewhere, Spares;
    SameRowsSpare(db.txs, rows);
    if id < |db.txs| && db.txs[id].state == PendingReference {
      if id in rows {
        TrappedWaits(db, id, env, rows);
      } else {
        ResumedElsewhere(db, id, env);
        var r := Resumed(db, id, db.txs[id], env);
        if !r.Stuck? {
          ElsewhereSpares(db, r.db, id, rows);
        }
      }
    }
  }

  lemma InvKeys(db: Db)
    requires Inv(db)
    ensures KeysUnique(db.txs)
  {
  }

  lemma {:induction false} ReevaluatedTraps(db: Db, ids: seq<nat>, env: Env, rows: set<nat>)
    requires Inv(db) && Trapped(db.txs, rows)
    ensures Trapped(Reevaluated(db, ids, env).txs, rows)
    decreases |ids|
  {
    hide Inv, Nudged, Trapped, Extends, KeysUnique;
    if ids != [] {
      var mid := Nudged(db, ids[0], env);
      NudgedKeepsInv(db, ids[0], env);
      NudgedTraps(db, ids[0], env, rows);
      ReevaluatedTraps(mid, ids[1..], env, rows);
    }
  }

  lemma NudgedTraps(db: Db, id: nat, env: Env, rows: set<nat>)
    requires Inv(db) && Trapped(db.txs, rows)
    ensures Trapped(Nudged(db, id, env).txs, rows)
  {
    hide Inv, Nudged, KeysUnique, Trapped, Spares;
    NudgedKeepsInv(db, id, env);
    InvKeys(Nudged(db, id, env));
    NudgedSpares(db, id, env, rows);
    TrapStays(db.txs, Nudged(db, id, env).txs, rows);
  }

  /** A new operation changes no state but its own. */
  lemma AppliedSpares(db: Db, row: Tx, env: Env)
    requires row.wallet in db.wallets
    ensures var txs' := Applied(db, row, env).0.txs;
            |db.txs| <= |txs'| && forall i :: 0 <= i < |db.txs| ==> txs'[i] == db.txs[i].(reversal := txs'[i].reversal)
  {
    hide Judge, Moved, HasEntry;
    JudgeNamesRows(db, OperationOf(row), row.refExternal);
    match Judge(db, OperationOf(row), row.refExternal)
    case Move(dir, ref) =>
      var db1 := Added(db, row);
      MovedStates(db1, |db.txs|, dir, ref);
      assert forall i :: 0 <= i < |db.txs| ==> db1.txs[i] == db.txs[i];
    case _ =>
  }

  lemma SubmittedSpares(db: Db, i: SubmitInput, missed: bool, env: Env)
    ensures var txs' := Submitted(db, i, missed, env).0.txs;
            |db.txs| <= |txs'| && forall k :: 0 <= k < |db.txs| ==> txs'[k] == db.txs[k].(reversal := txs'[k].reversal)
  {
    hide Applied, C.PayloadHash;
    if Submitted(db, i, missed, env).0 != db {
      AppliedSpares(db, NewRow(i, Prepared(i).value, C.PayloadHash(BusinessOf(i))), env);
    }
  }

  lemma OpenedSpares(db: Db, w: string, player: string, currency: string, text: string)
    ensures db.txs <= Opened(db, w, player, currency, text).0.txs
  {
  }

  lemma GrownSpares(txs: seq<Tx>, txs': seq<Tx>, rows: set<nat>)
    requires Trapped(txs, rows) && |txs| <= |txs'|
    requires forall k :: 0 <= k < |txs| ==> txs'[k] == txs[k].(reversal := txs'[k].reversal)
    ensures Spares(txs, txs', rows)
  {
    hide TargetOf;
  }

  /** No committed transaction, submissions included, frees a trapped row. */
  lemma NextTraps(db: Db, s: Step, rows: set<nat>)
    requires Inv(db) && Trapped(db.txs, rows)
    ensures Trapped(Next(db, s).txs, rows)
  {
    hide Inv, Opened, Submitted, Reevaluated, Worked, KeysUnique, Trapped, Spares;
    NextKeepsInv(db, s);
    InvKeys(Next(db, s));
    match s
    case OpenWallet(wallet, player, currency, text) =>
      OpenedSpares(db, wallet, player, currency, text);
      GrownSpares(db.txs, Next(db, s).txs, rows);
      TrapStays(db.txs, Next(db, s).txs, rows);
    case Submit(i, missed, env) =>
      SubmittedSpares(db, i, missed, env);
      GrownSpares(db.txs, Next(db, s).txs, rows);
      TrapStays(db.txs, Next(db, s).txs, rows);
    case Reevaluate(ids, env) => ReevaluatedTraps(db, ids, env, rows);
    case ProcessWork(id, item, env) =>
      WorkedSpares(db, id, item, env, rows);
      TrapStays(db.txs, Next(db, s).txs, rows);
    case ClaimWork(_, _) =>
  }

  lemma {:induction false} PlayedTraps(db: Db, steps: seq<Step>, rows: set<nat>)
    requires Inv(db) && Trapped(db.txs, rows)
    ensures Trapped(Played(db, steps).txs, rows)
    decreases |steps|
  {
    hide Inv, Next, Trapped;
    if steps != [] {
      NextKeepsInv(db, steps[0]);
      NextTraps(db, steps[0], rows);
      PlayedTraps(Next(db, steps[0]), steps[1..], rows);
    }
  }

  /** A transaction whose references lead into a cycle stays parked through any continuation: worker steps
      with any copies, submissions and new wallets. */
  lemma CyclicWaitsForever(db: Db, steps: seq<Step>, id: nat)
    requires Inv(db) && id < |db.txs| && Cyclic(WaitsOf(db), id)
    ensures id < |Played(db, steps).txs| && Played(db, steps).txs[id].state == PendingReference
  {
    hide Inv, Played, Cyclic, WaitsOf, Grounded;
    SizeOfWaits(db);
    var rows := set i: nat | i < |db.txs| && !Grounded(WaitsOf(db), i);
    UngroundedIsTrapped(db);
    GroundedIffAcyclic(WaitsOf(db), id);
    assert id in rows;
    PlayedTraps(db, steps, rows);
  }

  /** The smallest cycle: an operation that names itself as its reference. */
  lemma SelfReferenceIsCyclic(db: Db, id: nat)
    requires id < |db.txs| && db.txs[id].state == PendingReference && TargetOf(db.txs, id) == Some(id)
    ensures Cyclic(WaitsOf(db), id)
  {
    var v := WaitsOf(db);
    assert Walk(v, id, 0) == Some(id);
    assert Walk(v, id, 1) == Some(id);
  }

  /** Such an operation is accepted: naming itself, it parks on its own row. */
  lemma SelfReferenceParks(db: Db, i: SubmitInput, missed: bool, env: Env)
    requires i.kind == Win || IsReversal(i.kind)
    requires i.refExternal == i.external && Submitted(db, i, missed, env).1.Done?
    requires !Submitted(db, i, missed, env).1.result.replay
    ensures var db', id := Submitted(db, i, missed, env).0, |db.txs|;
            |db'.txs| == id + 1 && db'.txs[id].state == PendingReference && TargetOf(db'.txs, id) == Some(id)
  {
    hide Parked;
    var m, hash := Prepared(i).value, C.PayloadHash(BusinessOf(i));
    ParkedRow(Added(db, NewRow(i, m, hash)), |db.txs|, env);
  }

  lemma ParkedRow(db: Db, id: nat, env: Env)
    requires id < |db.txs| && db.txs[id].wallet in db.wallets
    ensures Parked(db, id, db.txs[id], env).txs == db.txs[id := db.txs[id].(state := PendingReference)]
  {
  }
}
