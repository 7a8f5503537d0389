/** HashTable (src/hash.h): open addressing with tombstones, refining a finite map. */
module HashTable {
  import opened Lists
  import opened Probing
  import opened Words

  const SlotFree := 0
  const SlotInUse := 1
  const SlotRemoved := 2
  const FreeFactor := 3

  datatype Option<T> = None | Some(value: T)
  datatype Item<K, V> = Item(key: K, val: V)

  /** The item is absent where the source stores a default one; the two low bits of the hash
      say what the slot is. */
  datatype Slot<K, V> = Slot(item: Option<Item<K, V>>, hash: Hash) {
    predicate Free() { hash % 4 == SlotFree }
    predicate InUse() { hash % 4 == SlotInUse }
    predicate Removed() { hash % 4 == SlotRemoved }
  }

  type Hasher<!K> = K -> Hash

  function Mark(hash: Hash, state: nat): (r: Hash)
    requires state < 4
    ensures r % 4 == state && r / 4 == hash / 4
  {
    hash - hash % 4 + state
  }

  /** Slots marked in use carry an item and its hash, others carry none. */
  predicate SlotOk<K(==), V>(h: Hasher<K>, s: Slot<K, V>) {
    && (s.Free() || s.InUse() || s.Removed())
    && (s.InUse() <==> s.item.Some?)
    && (s.InUse() ==> s.hash / 4 == h(s.item.value.key) / 4)
  }

  predicate HoldsKey<K(==), V>(s: Slot<K, V>, k: K) {
    s.InUse() && s.item.Some? && s.item.value.key == k
  }

  ghost predicate AllOk<K, V>(h: Hasher<K>, slots: seq<Slot<K, V>>) {
    forall i :: 0 <= i < |slots| ==> SlotOk(h, slots[i])
  }

  /** Each key is in at most one used slot. */
  ghost predicate OncePerKey<K, V>(slots: seq<Slot<K, V>>) {
    forall i, j :: 0 <= i < j < |slots| && slots[i].InUse() && slots[j].InUse() && slots[i].item.Some? ==>
      slots[i].item != slots[j].item && !HoldsKey(slots[j], slots[i].item.value.key)
  }

  /** No slot tried before the j-th for hash x is free. */
  ghost predicate PathTaken<K, V>(slots: seq<Slot<K, V>>, x: Hash, j: nat) {
    |slots| > 0 && forall m: nat :: m < j ==> !slots[Probe(x, m, |slots|)].Free()
  }

  ghost predicate PathOk<K, V>(h: Hasher<K>, slots: seq<Slot<K, V>>, i: nat)
    requires i < |slots|
  {
    slots[i].InUse() && slots[i].item.Some? ==>
      forall j: nat :: j < |slots| && Probe(h(slots[i].item.value.key), j, |slots|) == i ==>
        PathTaken(slots, h(slots[i].item.value.key), j)
  }

  /** No free slot precedes a key on its probe path. */
  ghost predicate PathsOk<K, V>(h: Hasher<K>, slots: seq<Slot<K, V>>) {
    forall i :: 0 <= i < |slots| ==> PathOk(h, slots, i)
  }

  ghost predicate IsSize(n: nat) {
    exists k: nat :: k <= 31 && n == Pow2(k)
  }

  ghost predicate TableOk<K, V>(h: Hasher<K>, slots: seq<Slot<K, V>>) {
    IsSize(|slots|) && AllOk(h, slots) && OncePerKey(slots) && PathsOk(h, slots)
  }

  function Used<K, V>(slots: seq<Slot<K, V>>): (n: nat)
    ensures n <= |slots|
  {
    if slots == [] then 0
    else Used(slots[..|slots| - 1]) + if slots[|slots| - 1].InUse() then 1 else 0
  }

  /** The map that a table stands for. */
  function Contents<K(==), V>(slots: seq<Slot<K, V>>): map<K, V> {
    if slots == [] then map[]
    else
      var s := slots[|slots| - 1];
      var m := Contents(slots[..|slots| - 1]);
      if s.InUse() && s.item.Some? then m[s.item.value.key := s.item.value.val] else m
  }

  // ---- counting ------------------------------------------------------------------------

  lemma {:induction false} UsedUpdate<K, V>(slots: seq<Slot<K, V>>, i: nat, s: Slot<K, V>)
    requires i < |slots|
    ensures Used(slots[i := s]) ==
              Used(slots) - (if slots[i].InUse() then 1 else 0) + (if s.InUse() then 1 else 0)
  {
    var n := |slots| - 1;
    if i < n {
      UsedUpdate(slots[..n], i, s);
      assert slots[i := s][..n] == slots[..n][i := s];
    } else {
      assert slots[i := s][..n] == slots[..n];
    }
  }

  lemma {:induction false} SomeUnused<K, V>(slots: seq<Slot<K, V>>) returns (i: nat)
    requires Used(slots) < |slots|
    ensures i < |slots| && !slots[i].InUse()
  {
    var n := |slots| - 1;
    if slots[n].InUse() {
      i := SomeUnused(slots[..n]);
    } else {
      i := n;
    }
  }

  lemma {:induction false} AllFree<K, V>(slots: seq<Slot<K, V>>)
    requires forall i :: 0 <= i < |slots| ==> slots[i].Free()
    ensures Used(slots) == 0 && Contents(slots) == map[]
  {
    if slots != [] {
      AllFree(slots[..|slots| - 1]);
    }
  }

  // ---- contents -------------------------------------------------------------------------

  lemma {:induction false} ContentsFrom<K, V>(slots: seq<Slot<K, V>>, k: K)
    requires k in Contents(slots)
    ensures exists i :: 0 <= i < |slots| && HoldsKey(slots[i], k) && slots[i].item.value.val == Contents(slots)[k]
  {
    var n := |slots| - 1;
    if !HoldsKey(slots[n], k) {
      ContentsFrom(slots[..n], k);
      var i :| 0 <= i < n && HoldsKey(slots[..n][i], k) && slots[..n][i].item.value.val == Contents(slots[..n])[k];
      assert HoldsKey(slots[i], k);
    }
  }

  lemma {:induction false} ContentsAt<K, V>(slots: seq<Slot<K, V>>, i: nat, k: K)
    requires i < |slots| && HoldsKey(slots[i], k)
    requires OncePerKey(slots)
    ensures k in Contents(slots) && Contents(slots)[k] == slots[i].item.value.val
  {
    var n := |slots| - 1;
    if i < n {
      ContentsAt(slots[..n], i, k);
      assert !HoldsKey(slots[n], k);
    }
  }

  /** Filling a slot with a key that no other slot holds updates the map there. */
  lemma ContentsPut<K, V>(slots: seq<Slot<K, V>>, i: nat, s: Slot<K, V>)
    requires i < |slots| && s.InUse() && s.item.Some?
    requires OncePerKey(slots)
    requires slots[i].InUse() && slots[i].item.Some? ==> HoldsKey(slots[i], s.item.value.key)
    requires forall m :: 0 <= m < |slots| && m != i ==> !HoldsKey(slots[m], s.item.value.key)
    ensures OncePerKey(slots[i := s])
    ensures Contents(slots[i := s]) == Contents(slots)[s.item.value.key := s.item.value.val]
  {
    var next, k := slots[i := s], s.item.value.key;
    var want := Contents(slots)[k := s.item.value.val];
    ContentsAt(next, i, k);
    forall q | q in Contents(next) ensures q in want && Contents(next)[q] == want[q] {
      ContentsFrom(next, q);
      var m :| 0 <= m < |next| && HoldsKey(next[m], q) && next[m].item.value.val == Contents(next)[q];
      if m != i {
        ContentsAt(slots, m, q);
      }
    }
    forall q | q in want ensures q in Contents(next) {
      if q != k {
        ContentsFrom(slots, q);
        var m :| 0 <= m < |slots| && HoldsKey(slots[m], q);
        ContentsAt(next, m, q);
      }
    }
  }

  /** Emptying a slot takes its key out of the map. */
  lemma ContentsDrop<K, V>(slots: seq<Slot<K, V>>, i: nat, s: Slot<K, V>, k: K)
    requires i < |slots| && !s.InUse() && HoldsKey(slots[i], k)
    requires OncePerKey(slots)
    ensures OncePerKey(slots[i := s])
    ensures Contents(slots[i := s]) == Contents(slots) - {k}
  {
    var next := slots[i := s];
    forall q | q in Contents(next) ensures q in Contents(slots) && q != k && Contents(next)[q] == Contents(slots)[q] {
      ContentsFrom(next, q);
      var m :| 0 <= m < |next| && HoldsKey(next[m], q) && next[m].item.value.val == Contents(next)[q];
      ContentsAt(slots, m, q);
    }
    forall q | q in Contents(slots) && q != k ensures q in Contents(next) {
      ContentsFrom(slots, q);
      var m :| 0 <= m < |slots| && HoldsKey(slots[m], q);
      ContentsAt(next, m, q);
    }
  }

  // ---- probing --------------------------------------------------------------------------

  /** The first j slots tried for k are taken, by other keys. */
  ghost predicate Passed<K, V>(h: Hasher<K>, slots: seq<Slot<K, V>>, k: K, j: nat) {
    PathTaken(slots, h(k), j) && forall m: nat :: m < j ==> !HoldsKey(slots[Probe(h(k), m, |slots|)], k)
  }

  lemma PassOne<K, V>(h: Hasher<K>, slots: seq<Slot<K, V>>, k: K, j: nat)
    requires AllOk(h, slots) && Passed(h, slots, k, j)
    requires var s := slots[Probe(h(k), j, |slots|)]; !s.Free() && !(s.hash / 4 == h(k) / 4 && s.item.Some? && s.item.value.key == k)
    ensures Passed(h, slots, k, j + 1)
  {
  }

  /** Once all slots tried for a key's hash before a free one, or all slots, are known not to
      hold it, no slot holds it. */
  lemma NotFound<K, V>(h: Hasher<K>, slots: seq<Slot<K, V>>, k: K, j: nat)
    requires TableOk(h, slots) && j <= |slots| && Passed(h, slots, k, j)
    requires j == |slots| || slots[Probe(h(k), j, |slots|)].Free()
    ensures forall i :: 0 <= i < |slots| ==> !HoldsKey(slots[i], k)
  {
    forall i | 0 <= i < |slots| ensures !HoldsKey(slots[i], k) {
      var e: nat :| e <= 31 && |slots| == Pow2(e);
      var at := ProbePermutes(h(k), e, i);
      assert PathOk(h, slots, i);
    }
  }

  /** A key may be put in a slot on its path that has only taken slots before it. */
  lemma PathsPut<K, V>(h: Hasher<K>, slots: seq<Slot<K, V>>, k: K, v: V, j: nat)
    requires TableOk(h, slots) && j < |slots| && PathTaken(slots, h(k), j)
    ensures PathsOk(h, slots[Probe(h(k), j, |slots|) := Slot(Some(Item(k, v)), Mark(h(k), SlotInUse))])
  {
    var i0 := Probe(h(k), j, |slots|);
    var next := slots[i0 := Slot(Some(Item(k, v)), Mark(h(k), SlotInUse))];
    forall i | 0 <= i < |next| ensures PathOk(h, next, i) {
      if i == i0 {
        PathOnce(slots, h(k), j);
      } else {
        assert PathOk(h, slots, i);
      }
      if next[i].InUse() && next[i].item.Some? {
        var x := h(next[i].item.value.key);
        forall m: nat | m < |next| && Probe(x, m, |next|) == i ensures PathTaken(next, x, m) {
          assert PathTaken(slots, x, m);
        }
      }
    }
  }

  lemma PathOnce<K, V>(slots: seq<Slot<K, V>>, x: Hash, j: nat)
    requires IsSize(|slots|) && j < |slots|
    ensures forall m: nat :: m < |slots| && Probe(x, m, |slots|) == Probe(x, j, |slots|) ==> m == j
  {
    var e: nat :| e <= 31 && |slots| == Pow2(e);
    var at := ProbePermutes(x, e, Probe(x, j, |slots|));
  }

  /** Emptying a slot without freeing it leaves every path taken. */
  lemma PathsDrop<K, V>(h: Hasher<K>, slots: seq<Slot<K, V>>, i0: nat, s: Slot<K, V>)
    requires TableOk(h, slots) && i0 < |slots| && s.Removed()
    ensures PathsOk(h, slots[i0 := s])
  {
    var next := slots[i0 := s];
    forall i | 0 <= i < |next| ensures PathOk(h, next, i) {
      assert PathOk(h, slots, i);
      if next[i].InUse() && next[i].item.Some? {
        var x := h(next[i].item.value.key);
        forall m: nat | m < |next| && Probe(x, m, |next|) == i ensures PathTaken(next, x, m) {
          assert PathTaken(slots, x, m);
        }
      }
    }
  }

  // ---- what the operations do to a table -------------------------------------------------

  /** Slot i holds k, or no slot does and i is an unused slot that k may be put in. */
  ghost predicate Locates<K, V>(h: Hasher<K>, slots: seq<Slot<K, V>>, k: K, i: nat) {
    && i < |slots|
    && (HoldsKey(slots[i], k) || (!slots[i].InUse() && NoneHolds(slots, k)))
    && exists j: nat :: j < |slots| && Probe(h(k), j, |slots|) == i && PathTaken(slots, h(k), j)
  }

  ghost predicate NoneHolds<K, V>(slots: seq<Slot<K, V>>, k: K) {
    forall m :: 0 <= m < |slots| ==> !HoldsKey(slots[m], k)
  }

  lemma PutKeeps<K, V>(h: Hasher<K>, slots: seq<Slot<K, V>>, k: K, v: V, i: nat)
    requires TableOk(h, slots) && Locates(h, slots, k, i)
    ensures var next := slots[i := Slot(Some(Item(k, v)), Mark(h(k), SlotInUse))];
            && TableOk(h, next) && Contents(next) == Contents(slots)[k := v]
            && Used(next) == Used(slots) + if k in Contents(slots) then 0 else 1
  {
    var s := Slot(Some(Item(k, v)), Mark(h(k), SlotInUse));
    var j: nat :| j < |slots| && Probe(h(k), j, |slots|) == i && PathTaken(slots, h(k), j);
    PathsPut(h, slots, k, v, j);
    if HoldsKey(slots[i], k) {
      ContentsAt(slots, i, k);
    } else if k in Contents(slots) {
      ContentsFrom(slots, k);
      assert false;
    }
    ContentsPut(slots, i, s);
    UsedUpdate(slots, i, s);
  }

  lemma DropKeeps<K, V>(h: Hasher<K>, slots: seq<Slot<K, V>>, k: K, i: nat)
    requires TableOk(h, slots) && i < |slots| && HoldsKey(slots[i], k)
    ensures var next := slots[i := Slot(None, Mark(slots[i].hash, SlotRemoved))];
            && TableOk(h, next) && Contents(next) == Contents(slots) - {k} && Used(next) == Used(slots) - 1
  {
    var s := Slot(None, Mark(slots[i].hash, SlotRemoved));
    PathsDrop(h, slots, i, s);
    ContentsDrop(slots, i, s, k);
    UsedUpdate(slots, i, s);
  }

  /** An unused slot found for k means that the map has no k. */
  lemma Absent<K, V>(h: Hasher<K>, slots: seq<Slot<K, V>>, k: K, i: nat)
    requires TableOk(h, slots) && Locates(h, slots, k, i)
    ensures k in Contents(slots) <==> HoldsKey(slots[i], k)
    ensures k in Contents(slots) ==> Contents(slots)[k] == slots[i].item.value.val
  {
    if HoldsKey(slots[i], k) {
      ContentsAt(slots, i, k);
    } else if k in Contents(slots) {
      ContentsFrom(slots, k);
    }
  }

  lemma FreshTable<K, V>(h: Hasher<K>, slots: seq<Slot<K, V>>)
    requires IsSize(|slots|) && forall i :: 0 <= i < |slots| ==> slots[i] == Slot(None, SlotFree)
    ensures TableOk(h, slots) && Contents(slots) == map[] && Used(slots) == 0
  {
    AllFree(slots);
  }

  lemma {:induction false} UsedPrefix<K, V>(slots: seq<Slot<K, V>>, i: nat)
    requires i <= |slots|
    ensures Used(slots[..i]) <= Used(slots)
  {
    if i < |slots| {
      UsedPrefix(slots[..|slots| - 1], i);
      assert slots[..|slots| - 1][..i] == slots[..i];
    } else {
      assert slots[..i] == slots;
    }
  }

  lemma PrefixStep<K, V>(slots: seq<Slot<K, V>>, i: nat)
    requires i < |slots|
    ensures Used(slots[..i + 1]) == Used(slots[..i]) + if slots[i].InUse() then 1 else 0
    ensures Contents(slots[..i + 1]) ==
              if slots[i].InUse() && slots[i].item.Some?
              then Contents(slots[..i])[slots[i].item.value.key := slots[i].item.value.val]
              else Contents(slots[..i])
  {
    assert slots[..i + 1][..i] == slots[..i];
  }

  /** The next used slot of a table brings a new key. */
  lemma NextIsNew<K, V>(h: Hasher<K>, slots: seq<Slot<K, V>>, i: nat)
    requires AllOk(h, slots) && OncePerKey(slots) && i < |slots| && slots[i].InUse()
    ensures slots[i].item.Some? && slots[i].item.value.key !in Contents(slots[..i])
    ensures Used(slots[..i]) < Used(slots)
  {
    PrefixStep(slots, i);
    UsedPrefix(slots, i + 1);
    assert SlotOk(h, slots[i]);
    if slots[i].item.value.key in Contents(slots[..i]) {
      ContentsFrom(slots[..i], slots[i].item.value.key);
    }
  }

  lemma NoUsedIsEmpty<K, V>(h: Hasher<K>, slots: seq<Slot<K, V>>)
    requires AllOk(h, slots) && Used(slots) == 0
    ensures Contents(slots) == map[]
  {
    if Contents(slots) != map[] {
      var k :| k in Contents(slots);
      ContentsFrom(slots, k);
      var i :| 0 <= i < |slots| && HoldsKey(slots[i], k);
      UsedUpdate(slots, i, Slot(None, SlotFree));
    }
  }

  lemma DoubleIsSize(n: nat)
    requires IsSize(n) && n < TwoTo31
    ensures IsSize(2 * n)
  {
    var k: nat :| k <= 31 && n == Pow2(k);
    PowersKnown();
    assert k < 31;
    assert Pow2(k + 1) == 2 * n;
  }

  /** The least power of two that is at least 4 and holds `fit` slots. */
  method SizeFor(fit: nat) returns (n: nat)
    requires fit <= TwoTo31
    ensures IsSize(n) && n >= 4 && n >= fit && (n == 4 || n / 2 < fit)
  {
    n := 4;
    assert Pow2(2) == 4;
    while n < fit
      invariant IsSize(n) && n >= 4 && (n == 4 || n / 2 < fit)
    {
      DoubleIsSize(n);
      n := 2 * n;
    }
  }

  class Table<K(==), V> {
    const hash: Hasher<K>
    var slots: seq<Slot<K, V>>
    var nUsed: nat

    /** nUsed is at least the number of used slots, and a third of the slots is not counted by
        it, so some slot is unused. */
    ghost predicate Valid()
      reads this
    {
      && TableOk(hash, slots) && Used(slots) <= nUsed <= |slots|
      && (|slots| - nUsed) * FreeFactor >= |slots|
    }

    /** Must the table grow to take one more item? */
    predicate Grows()
      reads this
    {
      (|slots| - (nUsed + 1)) * FreeFactor < |slots|
    }

    constructor (hash: Hasher<K>, reserveCapacity: nat)
      requires 1 + reserveCapacity * 4 / 3 <= TwoTo31
      ensures Valid() && Contents(slots) == map[] && nUsed == 0 && this.hash == hash
    {
      this.hash, nUsed := hash, 0;
      var fit := if reserveCapacity < 4 then 4 else reserveCapacity;
      var n := SizeFor(1 + fit * (FreeFactor + 1) / FreeFactor);
      slots := seq(n, i => Slot(None, SlotFree));
      new;
      FreshTable(hash, slots);
    }

    function Matches(s: Slot<K, V>, k: K): bool
      reads this
    {
      s.hash / 4 == hash(k) / 4 && s.item.Some? && s.item.value.key == k
    }

    /** Go on past the removed slot i0 at step j0: a matching slot, or else i0. */
    method PastRemoved(k: K, j0: nat, i0: nat) returns (i: nat)
      requires TableOk(hash, slots) && j0 < |slots| && i0 == Probe(hash(k), j0, |slots|)
      requires slots[i0].Removed() && Passed(hash, slots, k, j0)
      ensures Locates(hash, slots, k, i)
    {
      var j := j0 + 1;
      PassOne(hash, slots, k, j0);
      while j < |slots|
        invariant j0 < j <= |slots| && Passed(hash, slots, k, j)
      {
        i := Probe(hash(k), j, |slots|);
        if slots[i].Free() { break; }
        if Matches(slots[i], k) { return; }
        PassOne(hash, slots, k, j);
        j := j + 1;
      }
      NotFound(hash, slots, k, j);
      i := i0;
    }

    /** The slot of a key, or one to put it in. The failure branch after the loop cannot be
        reached. */
    method FindSlot(k: K) returns (i: nat)
      requires TableOk(hash, slots) && Used(slots) < |slots|
      ensures Locates(hash, slots, k, i)
    {
      for j := 0 to |slots|
        invariant Passed(hash, slots, k, j)
        invariant forall m: nat :: m < j ==> slots[Probe(hash(k), m, |slots|)].InUse()
      {
        i := Probe(hash(k), j, |slots|);
        if slots[i].Free() {
          NotFound(hash, slots, k, j);
          return;
        }
        if Matches(slots[i], k) { return; }
        if slots[i].Removed() {
          i := PastRemoved(k, j, i);
          return;
        }
        PassOne(hash, slots, k, j);
      }
      ghost var u := SomeUnused(slots);
      ghost var e: nat :| e <= 31 && |slots| == Pow2(e);
      ghost var at := ProbePermutes(hash(k), e, u);
      assert false;
    }

    method InternalFind(k: K, doInsert: bool) returns (i: nat)
      requires TableOk(hash, slots) && Used(slots) < |slots|
      modifies this`slots
      ensures Locates(hash, old(slots), k, i)
      ensures slots == if doInsert then old(slots)[i := old(slots)[i].(hash := Mark(hash(k), SlotInUse))] else old(slots)
    {
      i := FindSlot(k);
      if doInsert {
        slots := slots[i := slots[i].(hash := Mark(hash(k), SlotInUse))];
      }
    }

    method Find(k: K) returns (r: Option<V>)
      requires Valid()
      modifies this`slots
      ensures slots == old(slots)
      ensures r == if k in Contents(slots) then Some(Contents(slots)[k]) else None
    {
      var i := InternalFind(k, false);
      Absent(hash, slots, k, i);
      r := if slots[i].InUse() then Some(slots[i].item.value.val) else None;
    }

    method Remove(k: K)
      requires Valid()
      modifies this
      ensures Valid() && |slots| == |old(slots)| && Contents(slots) == old(Contents(slots)) - {k}
      ensures nUsed == old(nUsed) - if k in old(Contents(slots)) then 1 else 0
    {
      var i := InternalFind(k, false);
      Absent(hash, slots, k, i);
      if slots[i].InUse() {
        DropKeeps(hash, slots, k, i);
        slots := slots[i := Slot(None, Mark(slots[i].hash, SlotRemoved))];
        nUsed := nUsed - 1;
      }
    }

    /** Put an item in without growing yet. */
    method Put(k: K, v: V)
      requires TableOk(hash, slots) && Used(slots) < |slots|
      modifies this`slots
      ensures TableOk(hash, slots) && |slots| == |old(slots)|
      ensures Contents(slots) == old(Contents(slots))[k := v]
      ensures Used(slots) == old(Used(slots)) + if k in old(Contents(slots)) then 0 else 1
    {
      var i := InternalFind(k, true);
      slots := slots[i := slots[i].(item := Some(Item(k, v)))];
      PutKeeps(hash, old(slots), k, v, i);
      assert slots == old(slots)[i := Slot(Some(Item(k, v)), Mark(hash(k), SlotInUse))];
    }

    /** Add an item; an item with the same key is replaced. A replacement counts as used
        again, which only makes the table grow earlier. */
    method Insert(k: K, v: V)
      requires Valid() && (Grows() ==> |slots| < TwoTo31)
      modifies this
      ensures Valid() && Contents(slots) == old(Contents(slots))[k := v]
      ensures Used(slots) == old(Used(slots)) + if k in old(Contents(slots)) then 0 else 1
      ensures |slots| == if old(Grows()) then 2 * |old(slots)| else |old(slots)|
      ensures nUsed == if old(Grows()) then Used(slots) else old(nUsed) + 1
      decreases if Grows() then 2 else 0
    {
      Put(k, v);
      nUsed := nUsed + 1;
      if (|slots| - nUsed) * FreeFactor < |slots| {
        DoubleIsSize(|slots|);
        Resize(2 * |slots|);
      }
    }

    /** Move all items to a new vector of slots; this recounts the used ones. */
    method Resize(newSize: nat)
      requires TableOk(hash, slots) && Used(slots) <= nUsed && IsSize(newSize)
      requires Used(slots) <= newSize && (newSize - Used(slots)) * FreeFactor >= newSize
      modifies this
      ensures Valid() && |slots| == newSize && Contents(slots) == old(Contents(slots))
      ensures nUsed == Used(slots) == old(Used(slots))
      decreases 1
    {
      var tmp := slots;
      slots := seq(newSize, i => Slot(None, SlotFree));
      FreshTable(hash, slots);
      if nUsed == 0 {
        NoUsedIsEmpty(hash, tmp);
        return;
      }
      nUsed := 0;
      for i := 0 to |tmp|
        invariant Valid() && |slots| == newSize && Contents(slots) == Contents(tmp[..i])
        invariant nUsed == Used(slots) == Used(tmp[..i])
      {
        PrefixStep(tmp, i);
        if tmp[i].InUse() {
          NextIsNew(hash, tmp, i);
          Insert(tmp[i].item.value.key, tmp[i].item.value.val);
        }
      }
      assert tmp[..|tmp|] == tmp;
    }

    method Rehash()
      requires Valid()
      modifies this
      ensures Valid() && |slots| == |old(slots)| && Contents(slots) == old(Contents(slots))
      ensures nUsed == Used(slots)
    {
      Resize(|slots|);
    }

    /** Empty every slot; nUsed stays as it was. */
    method Clear()
      requires Valid()
      modifies this`slots
      ensures Valid() && |slots| == |old(slots)| && Contents(slots) == map[]
    {
      for i := 0 to |slots|
        invariant |slots| == |old(slots)|
        invariant forall m :: 0 <= m < i ==> slots[m] == Slot(None, SlotFree)
      {
        slots := slots[i := Slot(None, SlotFree)];
      }
      FreshTable(hash, slots);
    }
  }
}
