/** impl::Rename (src/bjit-impl.h): replacements applied in the order in which they were
    added. */
module RenameMap {
  datatype Entry = Entry(src: nat, dst: nat)

  function Chase(map_: seq<Entry>, x: nat): nat {
    if map_ == [] then x
    else
      var y := Chase(map_[..|map_| - 1], x);
      if y == map_[|map_| - 1].src then map_[|map_| - 1].dst else y
  }

  /** Rename::operator(): every entry in turn over all inputs of an op. */
  method RenameInputs(map_: seq<Entry>, ins0: seq<nat>) returns (ins: seq<nat>)
    ensures |ins| == |ins0| && forall k :: 0 <= k < |ins| ==> ins[k] == Chase(map_, ins0[k])
  {
    ins := ins0;
    if |ins| == 0 { return; }
    for i := 0 to |map_|
      invariant |ins| == |ins0| && forall k :: 0 <= k < |ins| ==> ins[k] == Chase(map_[..i], ins0[k])
    {
      ghost var before := ins;
      for k := 0 to |ins|
        invariant |ins| == |ins0|
        invariant forall j :: k <= j < |ins| ==> ins[j] == before[j]
        invariant forall j :: 0 <= j < k ==> ins[j] == if before[j] == map_[i].src then map_[i].dst else before[j]
      {
        if ins[k] == map_[i].src { ins := ins[k := map_[i].dst]; }
      }
      assert map_[..i + 1][..i] == map_[..i];
    }
    assert map_[..|map_|] == map_;
  }

  /** No replacement is itself replaced by an earlier entry, and nothing is replaced twice. */
  ghost predicate FreshEntries(map_: seq<Entry>) {
    forall i, j :: 0 <= i < j < |map_| ==> map_[j].src != map_[i].src && map_[j].dst != map_[i].src
  }

  /** Then no renamed operand names a replaced op. */
  lemma {:induction false} NoReplacedUses(map_: seq<Entry>, x: nat)
    requires FreshEntries(map_) && forall i :: 0 <= i < |map_| ==> map_[i].src != map_[i].dst
    ensures forall i :: 0 <= i < |map_| ==> Chase(map_, x) != map_[i].src
  {
    if map_ != [] {
      NoReplacedUses(map_[..|map_| - 1], x);
      assert forall i :: 0 <= i < |map_| - 1 ==> map_[i] == map_[..|map_| - 1][i];
    }
  }

  /** If all replacements are new, a value below `first` survives exactly when no entry names
      it. */
  lemma {:induction false} ChaseKeeps(map_: seq<Entry>, first: nat, x: nat)
    requires forall i :: 0 <= i < |map_| ==> map_[i].dst >= first
    requires x < first
    ensures Chase(map_, x) == x <==> forall i :: 0 <= i < |map_| ==> map_[i].src != x
    ensures Chase(map_, x) == x || Chase(map_, x) >= first
  {
    if map_ != [] {
      var n := |map_| - 1;
      ChaseKeeps(map_[..n], first, x);
      assert forall i :: 0 <= i < n ==> map_[..n][i] == map_[i];
    }
  }
}
