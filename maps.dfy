/** Tables filled by map insertion in a loop over a sequence of records. The
    initializer builds every one of its tables this way, so a later record
    with the same id replaces the entry of an earlier one. `Filled` is the
    reference description of such a table: the keys are the ids the loop
    inserted, and each holds the value of the LAST position that inserted
    it. */
module Maps {
  import opened Topology

  /** A selection mask that keeps every position. */
  function Everyone(n: nat): (sel: seq<bool>)
    ensures |sel| == n && forall i :: 0 <= i < n ==> sel[i]
  {
    seq(n, _ => true)
  }

  /** The last position `r` at which `ids` holds `x` and the mask `sel` is set,
      or -1 when there is none. */
  function LastIndex(ids: seq<NodeId>, sel: seq<bool>, x: NodeId): (r: int)
    requires |sel| == |ids|
    ensures -1 <= r < |ids|
    ensures r >= 0 ==> ids[r] == x && sel[r]
    ensures forall j :: r < j < |ids| ==> !(ids[j] == x && sel[j])
    decreases |ids|
  {
    if |ids| == 0 then -1
    else if ids[|ids| - 1] == x && sel[|ids| - 1] then |ids| - 1
    else LastIndex(ids[..|ids| - 1], sel[..|ids| - 1], x)
  }

  /** The ids at the positions the mask keeps. */
  function Selected(ids: seq<NodeId>, sel: seq<bool>): set<NodeId>
    requires |sel| == |ids|
  {
    set i | 0 <= i < |ids| && sel[i] :: ids[i]
  }

  lemma SelectedHasLastIndex(ids: seq<NodeId>, sel: seq<bool>, x: NodeId)
    requires |sel| == |ids|
    ensures x in Selected(ids, sel) <==> LastIndex(ids, sel, x) >= 0
  {
    if x in Selected(ids, sel) {
      var i :| 0 <= i < |ids| && sel[i] && ids[i] == x;
      assert LastIndex(ids, sel, x) >= i;
    }
  }

  /** The table left behind by a loop that, at each position `i` the mask
      keeps, inserts `vals[i]` under `ids[i]`. */
  function Filled<V>(ids: seq<NodeId>, sel: seq<bool>, vals: seq<V>): map<NodeId, V>
    requires |sel| == |ids| == |vals|
  {
    map x | x in Selected(ids, sel) ::
      SelectedHasLastIndex(ids, sel, x);
      vals[LastIndex(ids, sel, x)]
  }

  /** What the filled table holds: exactly the kept ids, each with the value
      of the last kept position that declared it. */
  lemma FilledSpec<V>(ids: seq<NodeId>, sel: seq<bool>, vals: seq<V>)
    requires |sel| == |ids| == |vals|
    ensures Filled(ids, sel, vals).Keys == Selected(ids, sel)
    ensures forall x :: x in Filled(ids, sel, vals) ==>
              && 0 <= LastIndex(ids, sel, x) && ids[LastIndex(ids, sel, x)] == x && sel[LastIndex(ids, sel, x)]
              && (forall j :: LastIndex(ids, sel, x) < j < |ids| && ids[j] == x ==> !sel[j])
              && Filled(ids, sel, vals)[x] == vals[LastIndex(ids, sel, x)]
  {
    forall x | x in Filled(ids, sel, vals)
      ensures 0 <= LastIndex(ids, sel, x)
    {
      SelectedHasLastIndex(ids, sel, x);
    }
  }

  lemma SelectedStep(ids: seq<NodeId>, sel: seq<bool>, i: nat)
    requires |sel| == |ids| && i < |ids|
    ensures Selected(ids[..i + 1], sel[..i + 1])
         == Selected(ids[..i], sel[..i]) + (if sel[i] then {ids[i]} else {})
  {
    var ids', sel' := ids[..i + 1], sel[..i + 1];
    forall x | x in Selected(ids', sel')
      ensures x in Selected(ids[..i], sel[..i]) + (if sel[i] then {ids[i]} else {})
    {
      var k :| 0 <= k < |ids'| && sel'[k] && ids'[k] == x;
      if k < i {
        assert ids[..i][k] == x && sel[..i][k];
      }
    }
    forall x | x in Selected(ids[..i], sel[..i])
      ensures x in Selected(ids', sel')
    {
      var k :| 0 <= k < i && sel[..i][k] && ids[..i][k] == x;
      assert ids'[k] == x && sel'[k];
    }
    if sel[i] {
      assert ids'[i] == ids[i] && sel'[i];
    }
  }

  lemma LastIndexStep(ids: seq<NodeId>, sel: seq<bool>, i: nat, x: NodeId)
    requires |sel| == |ids| && i < |ids|
    ensures LastIndex(ids[..i + 1], sel[..i + 1], x)
         == if ids[i] == x && sel[i] then i else LastIndex(ids[..i], sel[..i], x)
  {
    assert ids[..i + 1][..i] == ids[..i] && sel[..i + 1][..i] == sel[..i];
  }

  /** One more iteration of the filling loop: the table for the first `i + 1`
      positions is the table for the first `i` with, when position `i` is
      kept, `vals[i]` inserted under `ids[i]`. */
  lemma FilledStep<V>(ids: seq<NodeId>, sel: seq<bool>, vals: seq<V>, i: nat)
    requires |sel| == |ids| == |vals| && i < |ids|
    ensures Filled(ids[..i + 1], sel[..i + 1], vals[..i + 1])
         == if sel[i] then Filled(ids[..i], sel[..i], vals[..i])[ids[i] := vals[i]]
            else Filled(ids[..i], sel[..i], vals[..i])
  {
    var before := Filled(ids[..i], sel[..i], vals[..i]);
    var after := Filled(ids[..i + 1], sel[..i + 1], vals[..i + 1]);
    var expected := if sel[i] then before[ids[i] := vals[i]] else before;
    SelectedStep(ids, sel, i);
    assert after.Keys == expected.Keys;
    forall x | x in after
      ensures after[x] == expected[x]
    {
      LastIndexStep(ids, sel, i, x);
    }
  }

  /** No id occurs twice. */
  predicate Unique(ids: seq<NodeId>) {
    forall a, b :: 0 <= a < b < |ids| ==> ids[a] != ids[b]
  }

  /** When no id occurs twice, every kept position keeps its own value. */
  lemma FilledAt<V>(ids: seq<NodeId>, sel: seq<bool>, vals: seq<V>, i: nat)
    requires |sel| == |ids| == |vals| && i < |ids| && sel[i] && Unique(ids)
    ensures ids[i] in Filled(ids, sel, vals) && Filled(ids, sel, vals)[ids[i]] == vals[i]
  {
    assert ids[i] in Selected(ids, sel);
    FilledSpec(ids, sel, vals);
  }

  /** After the last iteration, the prefix is the whole sequence. */
  lemma FilledComplete<V>(ids: seq<NodeId>, sel: seq<bool>, vals: seq<V>)
    requires |sel| == |ids| == |vals|
    ensures Filled(ids[..|ids|], sel[..|ids|], vals[..|ids|]) == Filled(ids, sel, vals)
  {
    assert ids[..|ids|] == ids && sel[..|ids|] == sel && vals[..|ids|] == vals;
  }

  /** The table `base` after the first `i` iterations of a loop that inserts
      `vals[k]` under `ids[k]` at every position `k`. */
  function Extended<V>(base: map<NodeId, V>, ids: seq<NodeId>, vals: seq<V>, i: nat): map<NodeId, V>
    requires |vals| == |ids| && i <= |ids|
  {
    base + Filled(ids[..i], Everyone(|ids|)[..i], vals[..i])
  }

  lemma ExtendedStep<V>(base: map<NodeId, V>, ids: seq<NodeId>, vals: seq<V>, i: nat)
    requires |vals| == |ids| && i < |ids|
    ensures Extended(base, ids, vals, i)[ids[i] := vals[i]] == Extended(base, ids, vals, i + 1)
  {
    FilledStep(ids, Everyone(|ids|), vals, i);
  }

  lemma ExtendedComplete<V>(base: map<NodeId, V>, ids: seq<NodeId>, vals: seq<V>)
    requires |vals| == |ids|
    ensures Extended(base, ids, vals, |ids|) == base + Filled(ids, Everyone(|ids|), vals)
  {
    FilledComplete(ids, Everyone(|ids|), vals);
  }
}
