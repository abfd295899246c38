/**
 The waiting graph of parked transactions: what one treatment of one row may do to it, which
 rows can ever settle, and the weight that every counted treatment of a ready row reduces.
 */
module Waiting {
  import opened Wrappers
  import opened Engine

  /** What a worker sees of a row: is it parked, on which row, and how often it was tried. */
  datatype Wait = Wait(parked: bool, target: Option<nat>, refs: nat, infra: nat)

  predicate Bounded(v: seq<Wait>) {
    forall i :: 0 <= i < |v| && v[i].target.Some? ==> v[i].target.value < |v|
  }

  type Waits = v: seq<Wait> | Bounded(v)

  // ---------------------------------------------------------------- one treatment of one row

  /** The row waits for a decision that is there: its reference is missing for good or decided. */
  predicate Ready(v: Waits, i: nat)
    requires i < |v|
  {
    v[i].parked && (v[i].target.Some? ==> !v[v[i].target.value].parked)
  }

  /** One treatment of row `id`; a treatment by the worker counts its errors, any other does not. */
  ghost predicate Treats(v: Waits, v': Waits, id: nat, counted: bool) {
    && |v'| == |v|
    && (forall j :: 0 <= j < |v| && j != id ==> v'[j] == v[j])
    && (id < |v| ==>
          var a, b := v[id], v'[id];
          && b.target == a.target
          && if !a.parked then b == a
             else if a.target.None? then
               !b.parked || (b.refs == a.refs + 1 < MAX_REF_ATTEMPTS)
             else if v[a.target.value].parked then b.parked
             else !b.parked || (if counted then b.infra == a.infra + 1 < MAX_INFRA_ATTEMPTS else b == a))
  }

  function Weight(v: Waits, i: nat): nat
    requires i < |v|
  {
    var a := v[i];
    if !a.parked then 0
    else if a.target.None? then (if a.refs < MAX_REF_ATTEMPTS then MAX_REF_ATTEMPTS - a.refs else 1)
    else if v[a.target.value].parked then MAX_INFRA_ATTEMPTS
    else (if a.infra < MAX_INFRA_ATTEMPTS then MAX_INFRA_ATTEMPTS - a.infra else 1)
  }

  /** No weight grows, a ready row stays ready or settles, and the worker makes a ready row lighter. */
  lemma TreatedWeights(v: Waits, v': Waits, id: nat, counted: bool, i: nat)
    requires Treats(v, v', id, counted) && i < |v|
    ensures Weight(v', i) <= Weight(v, i)
    ensures Ready(v, i) ==> !v'[i].parked || Ready(v', i)
    ensures Ready(v, i) && counted && i == id ==> Weight(v', i) < Weight(v, i)
    ensures v'[i].parked ==> v[i].parked
    ensures v'[i].target == v[i].target
  {
  }

  // ---------------------------------------------------------------- which rows can settle

  predicate GroundedWithin(v: Waits, i: nat, d: nat)
    requires i < |v|
    decreases d
  {
    || !v[i].parked
    || v[i].target.None?
    || (d > 0 && GroundedWithin(v, v[i].target.value, d - 1))
  }

  /** The chain of parked references from `i` ends. */
  ghost predicate Grounded(v: Waits, i: nat)
    requires i < |v|
  {
    exists d: nat :: GroundedWithin(v, i, d)
  }

  lemma {:induction false} GroundedKept(v: Waits, v': Waits, id: nat, counted: bool, i: nat, d: nat)
    requires Treats(v, v', id, counted) && i < |v| && GroundedWithin(v, i, d)
    ensures GroundedWithin(v', i, d)
    decreases d
  {
    TreatedWeights(v, v', id, counted, i);
    if v[i].parked && v[i].target.Some? {
      GroundedKept(v, v', id, counted, v[i].target.value, d - 1);
    }
  }

  lemma {:induction false} UngroundedKept(v: Waits, v': Waits, id: nat, counted: bool, i: nat, d: nat)
    requires Treats(v, v', id, counted) && i < |v| && GroundedWithin(v', i, d)
    ensures Grounded(v, i)
    decreases d
  {
    if v[i].parked && v[i].target.Some? {
      var t := v[i].target.value;
      if v[t].parked {
        assert v'[i].parked && v'[i].target == Some(t);
        UngroundedKept(v, v', id, counted, t, d - 1);
        var e: nat :| GroundedWithin(v, t, e);
        assert GroundedWithin(v, i, e + 1);
      } else {
        assert GroundedWithin(v, t, 0);
        assert GroundedWithin(v, i, 1);
      }
    } else {
      assert GroundedWithin(v, i, 0);
    }
  }

  /** No treatment changes which rows are grounded. */
  lemma GroundedIffKept(v: Waits, v': Waits, id: nat, counted: bool, i: nat)
    requires Treats(v, v', id, counted) && i < |v|
    ensures Grounded(v, i) <==> Grounded(v', i)
  {
    if Grounded(v, i) {
      var d: nat :| GroundedWithin(v, i, d);
      GroundedKept(v, v', id, counted, i, d);
    }
    if Grounded(v', i) {
      var d: nat :| GroundedWithin(v', i, d);
      UngroundedKept(v, v', id, counted, i, d);
    }
  }

  /** A parked grounded row leads to a ready one. */
  lemma {:induction false} GroundedReachesReady(v: Waits, i: nat, d: nat) returns (r: nat)
    requires i < |v| && v[i].parked && GroundedWithin(v, i, d)
    ensures r < |v| && Ready(v, r)
    decreases d
  {
    if v[i].target.Some? && v[v[i].target.value].parked {
      r := GroundedReachesReady(v, v[i].target.value, d - 1);
    } else {
      r := i;
    }
  }

  // ---------------------------------------------------------------- cycles

  /** The row reached after `k` references of parked rows. */
  function Walk(v: Waits, i: nat, k: nat): (r: Option<nat>)
    requires i < |v|
    ensures r.Some? ==> r.value < |v|
  {
    if k == 0 then Some(i)
    else
      var at := Walk(v, i, k - 1);
      if at.Some? && v[at.value].parked then v[at.value].target else None
  }

  /** The references of parked rows starting at `i` come back to a row already visited. */
  ghost predicate Cyclic(v: Waits, i: nat)
    requires i < |v|
  {
    exists j: nat, k: nat :: j < k && Walk(v, i, j).Some? && Walk(v, i, j) == Walk(v, i, k)
  }

  lemma {:induction false} WalkFrom(v: Waits, i: nat, k: nat)
    requires i < |v| && v[i].parked && v[i].target.Some?
    ensures Walk(v, i, k + 1) == Walk(v, v[i].target.value, k)
  {
    if k > 0 {
      WalkFrom(v, i, k - 1);
    } else {
      assert Walk(v, i, 0) == Some(i);
    }
  }

  lemma {:induction false} GroundedWalkEnds(v: Waits, i: nat, d: nat)
    requires i < |v| && GroundedWithin(v, i, d)
    ensures Walk(v, i, d + 1).None?
    decreases d
  {
    if v[i].parked && v[i].target.Some? {
      GroundedWalkEnds(v, v[i].target.value, d - 1);
      WalkFrom(v, i, d);
    } else {
      assert Walk(v, i, 0) == Some(i);
      assert Walk(v, i, 1).None?;
      WalkStaysEnded(v, i, 1, d);
    }
  }

  lemma {:induction false} WalkStaysEnded(v: Waits, i: nat, k: nat, x: nat)
    requires i < |v| && Walk(v, i, k).None?
    ensures Walk(v, i, k + x).None?
  {
    if x > 0 {
      WalkStaysEnded(v, i, k, x - 1);
    }
  }

  lemma {:induction false} UngroundedWalksOn(v: Waits, i: nat, k: nat)
    requires i < |v| && !GroundedWithin(v, i, k)
    ensures Walk(v, i, k).Some? && Walk(v, i, k + 1).Some?
    decreases k
  {
    var t := v[i].target.value;
    if k > 0 {
      UngroundedWalksOn(v, t, k - 1);
      WalkFrom(v, i, k - 1);
    }
    WalkFrom(v, i, k);
    assert Walk(v, i, 0) == Some(i) && Walk(v, t, 0) == Some(t);
  }

  lemma {:induction false} WalkRepeats(v: Waits, i: nat, j: nat, k: nat, x: nat)
    requires i < |v| && Walk(v, i, j) == Walk(v, i, k)
    ensures Walk(v, i, j + x) == Walk(v, i, k + x)
  {
    if x > 0 {
      WalkRepeats(v, i, j, k, x - 1);
      assert Walk(v, i, j + (x - 1)) == Walk(v, i, k + (x - 1));
    }
  }

  /** Once a walk has repeated itself it never ends. */
  lemma {:induction false} CyclicWalksOn(v: Waits, i: nat, j: nat, k: nat, m: nat)
    requires i < |v| && j < k && Walk(v, i, j).Some? && Walk(v, i, j) == Walk(v, i, k)
    ensures Walk(v, i, m).Some?
    decreases m
  {
    if m <= j {
      if Walk(v, i, m).None? {
        WalkStaysEnded(v, i, m, j - m);
      }
    } else if m < k {
      if Walk(v, i, m).None? {
        WalkStaysEnded(v, i, m, k - m);
      }
    } else {
      CyclicWalksOn(v, i, j, k, m - (k - j));
      WalkRepeats(v, i, j, k, m - k);
    }
  }

  /** More visits than rows: some row is visited twice. */
  lemma {:induction false} Pigeonhole(s: seq<nat>, n: nat) returns (j: nat, k: nat)
    requires |s| > n && forall x :: 0 <= x < |s| ==> s[x] < n
    ensures j < k < |s| && s[j] == s[k]
    decreases n
  {
    var last := |s| - 1;
    if x: nat :| x < last && s[x] == s[last] {
      return x, last;
    }
    assert s[last] < n;
    var rest := seq(last, x requires 0 <= x < last => if s[x] == n - 1 then s[last] else s[x]);
    j, k := Pigeonhole(rest, n - 1);
  }

  /** A parked reference chain ends if and only if it has no cycle. */
  lemma GroundedIffAcyclic(v: Waits, i: nat)
    requires i < |v|
    ensures Grounded(v, i) <==> !Cyclic(v, i)
  {
    if Grounded(v, i) && Cyclic(v, i) {
      var d: nat :| GroundedWithin(v, i, d);
      var j: nat, k: nat :| j < k && Walk(v, i, j).Some? && Walk(v, i, j) == Walk(v, i, k);
      GroundedWalkEnds(v, i, d);
      CyclicWalksOn(v, i, j, k, d + 1);
    }
    if !Grounded(v, i) {
      forall x: nat
        ensures Walk(v, i, x).Some?
      {
        UngroundedWalksOn(v, i, x);
      }
      var visits := seq(|v| + 1, x requires 0 <= x < |v| + 1 => Walk(v, i, x).value);
      var j, k := Pigeonhole(visits, |v|);
      assert Walk(v, i, j) == Some(visits[j]) == Walk(v, i, k);
    }
  }

  // ---------------------------------------------------------------- many treatments

  ghost predicate Lightens(v: Waits, v': Waits) {
    && |v'| == |v|
    && forall i :: 0 <= i < |v| ==>
         && Weight(v', i) <= Weight(v, i)
         && (Ready(v, i) ==> !v'[i].parked || Ready(v', i))
         && (v'[i].parked ==> v[i].parked)
         && (Grounded(v, i) <==> Grounded(v', i))
  }

  lemma TreatsLightens(v: Waits, v': Waits, id: nat, counted: bool)
    requires Treats(v, v', id, counted)
    ensures Lightens(v, v')
    ensures id < |v| && Ready(v, id) && counted ==> Weight(v', id) < Weight(v, id)
  {
    hide Grounded;
    forall i | 0 <= i < |v|
      ensures Grounded(v, i) <==> Grounded(v', i)
    {
      GroundedIffKept(v, v', id, counted, i);
    }
  }

  lemma LightensReflexive(v: Waits)
    ensures Lightens(v, v)
  {
  }

  lemma LightensTransitive(a: Waits, b: Waits, c: Waits)
    requires Lightens(a, b) && Lightens(b, c)
    ensures Lightens(a, c)
  {
    hide Grounded, Weight, Ready;
  }

  function Total(v: Waits, n: nat): nat
    requires n <= |v|
  {
    if n == 0 then 0 else Total(v, n - 1) + Weight(v, n - 1)
  }

  /** Lighter rows make a lighter total, strictly so where one row lost weight. */
  lemma {:induction false} TotalLightens(v: Waits, v': Waits, n: nat)
    requires Lightens(v, v') && n <= |v|
    ensures Total(v', n) <= Total(v, n)
    ensures (exists i :: 0 <= i < n && Weight(v', i) < Weight(v, i)) ==> Total(v', n) < Total(v, n)
  {
    hide Grounded, Weight, Ready;
    if n > 0 {
      TotalLightens(v, v', n - 1);
      if i :| 0 <= i < n && Weight(v', i) < Weight(v, i) {
        assert i == n - 1 || Weight(v', i) < Weight(v, i);
      }
    }
  }

  /** While a grounded row is parked there is weight left. */
  lemma {:induction false} ParkedWeighs(v: Waits, i: nat, n: nat)
    requires i < n <= |v| && v[i].parked
    ensures Total(v, n) > 0
  {
    if i < n - 1 {
      ParkedWeighs(v, i, n - 1);
    }
  }
}
