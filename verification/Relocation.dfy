/** Executable images: bytes, near relocations and stubs, as arch_patchNear and arch_patchStub
    of src/arch-x64-emit.cpp change them. */
module Relocation {
  import opened Words

  type Byte = b: nat | b < 256 witness 0
  type Memory = seq<Byte>

  datatype Reloc = Reloc(at: nat, target: nat)      // codeOffset, procIndex
  datatype StubPatch = StubPatch(index: nat, address: Word)
  datatype NearPatch = NearPatch(oldTarget: nat, newTarget: nat, start: nat, end: nat)

  // ---- little-endian fields --------------------------------------------------------------

  function Pow256(n: nat): (r: nat)
    ensures r > 0
  {
    if n == 0 then 1 else 0x100 * Pow256(n - 1)
  }

  function Read(m: Memory, i: nat, n: nat): (w: nat)
    requires i + n <= |m|
    ensures w < Pow256(n)
    decreases n
  {
    if n == 0 then 0
    else
      var low: nat := m[i];
      low + 0x100 * Read(m, i + 1, n - 1)
  }

  function Write(m: Memory, i: nat, n: nat, w: nat): (r: Memory)
    requires i + n <= |m|
    ensures |r| == |m| && forall k :: 0 <= k < |m| && !(i <= k < i + n) ==> r[k] == m[k]
    decreases n
  {
    if n == 0 then m else Write(m[i := w % 0x100], i + 1, n - 1, w / 0x100)
  }

  lemma {:induction false} ReadSame(m: Memory, m': Memory, i: nat, n: nat)
    requires i + n <= |m| && i + n <= |m'| && forall k :: i <= k < i + n ==> m[k] == m'[k]
    ensures Read(m, i, n) == Read(m', i, n)
    decreases n
  {
    if n > 0 {
      ReadSame(m, m', i + 1, n - 1);
    }
  }

  lemma {:induction false} ReadDetermines(m: Memory, m': Memory, i: nat, n: nat)
    requires i + n <= |m| && i + n <= |m'| && Read(m, i, n) == Read(m', i, n)
    ensures forall k :: i <= k < i + n ==> m[k] == m'[k]
    decreases n
  {
    if n > 0 {
      ReadDetermines(m, m', i + 1, n - 1);
    }
  }

  lemma {:induction false} ReadWritten(m: Memory, i: nat, n: nat, w: nat)
    requires i + n <= |m| && w < Pow256(n)
    ensures Read(Write(m, i, n, w), i, n) == w
    decreases n
  {
    if n > 0 {
      ReadWritten(m[i := w % 0x100], i + 1, n - 1, w / 0x100);
    }
  }

  /** What is overwritten does not matter. */
  lemma {:induction false} WriteForgets(m: Memory, m': Memory, i: nat, n: nat, w: nat)
    requires |m| == |m'| && i + n <= |m| && forall k :: 0 <= k < |m| && !(i <= k < i + n) ==> m[k] == m'[k]
    ensures Write(m, i, n, w) == Write(m', i, n, w)
    decreases n
  {
    if n > 0 {
      WriteForgets(m[i := w % 0x100], m'[i := w % 0x100], i + 1, n - 1, w / 0x100);
    } else {
      assert m == m';
    }
  }

  lemma {:induction false} WriteAppend(m: Memory, more: Memory, i: nat, n: nat, w: nat)
    requires i + n <= |m|
    ensures Write(m + more, i, n, w) == Write(m, i, n, w) + more
    decreases n
  {
    if n > 0 {
      assert (m + more)[i := w % 0x100] == m[i := w % 0x100] + more;
      WriteAppend(m[i := w % 0x100], more, i + 1, n - 1, w / 0x100);
    }
  }

  function Wrap32(x: int): (r: nat)
    ensures r < 0x1_0000_0000
  {
    x % 0x1_0000_0000
  }

  /** *addr += delta on 32 bits */
  function AddNear(m: Memory, i: nat, delta: int): (r: Memory)
    requires i + 4 <= |m|
    ensures |r| == |m| && forall k :: 0 <= k < |m| && !(i <= k < i + 4) ==> r[k] == m[k]
  {
    Write(m, i, 4, Wrap32(Read(m, i, 4) + delta))
  }

  lemma AddedNear(m: Memory, i: nat, delta: int)
    requires i + 4 <= |m|
    ensures Read(AddNear(m, i, delta), i, 4) == Wrap32(Read(m, i, 4) + delta)
  {
    assert Pow256(2) == 0x1_0000;
    assert Pow256(4) == 0x1_0000_0000;
    ReadWritten(m, i, 4, Wrap32(Read(m, i, 4) + delta));
  }

  /** The eight address bytes of the stub at i. */
  function WriteStub(m: Memory, i: nat, address: Word): (r: Memory)
    requires i + 12 <= |m|
    ensures |r| == |m| && forall k :: 0 <= k < |m| && !(i + 2 <= k < i + 10) ==> r[k] == m[k]
  {
    Write(m, i + 2, 8, address)
  }

  /** The stub at i holds the address, low byte first, and nothing else has changed. */
  predicate Readdressed(m: Memory, m': Memory, i: nat, address: Word) {
    && i + 12 <= |m| == |m'| && Read(m', i + 2, 8) == address && m'[i + 2] == address % 0x100
    && forall k :: 0 <= k < |m| && !(i + 2 <= k < i + 10) ==> m'[k] == m[k]
  }

  lemma AddressWritten(m: Memory, i: nat, address: Word)
    requires i + 12 <= |m|
    ensures Readdressed(m, WriteStub(m, i, address), i, address)
  {
    assert Pow256(2) == 0x1_0000;
    assert Pow256(4) == 0x1_0000_0000;
    assert Pow256(6) == 0x1_0000_0000_0000;
    assert Pow256(8) == 0x1_0000_0000_0000_0000;
    ReadWritten(m, i + 2, 8, address);
    assert Read(WriteStub(m, i, address), i + 2, 8) % 0x100 == WriteStub(m, i, address)[i + 2];
  }

  // ---- images ------------------------------------------------------------------------------

  predicate Apart(r: Reloc, s: Reloc) { r.at + 4 <= s.at || s.at + 4 <= r.at }

  /** Fields lie within the code and do not overlap. */
  ghost predicate RelocsOk(relocs: seq<Reloc>, size: nat) {
    && (forall k :: 0 <= k < |relocs| ==> relocs[k].at + 4 <= size)
    && (forall j, k :: 0 <= j < k < |relocs| ==> Apart(relocs[j], relocs[k]))
  }

  ghost predicate TargetsOk(relocs: seq<Reloc>, n: nat) {
    forall k :: 0 <= k < |relocs| ==> relocs[k].target < n
  }

  ghost predicate InField(relocs: seq<Reloc>, i: nat) {
    exists k :: 0 <= k < |relocs| && relocs[k].at <= i < relocs[k].at + 4
  }

  /** The field holds what the code says plus the offset of its target. */
  ghost predicate FieldOk(mem: Memory, bytes: Memory, r: Reloc, offsets: seq<nat>) {
    && r.at + 4 <= |mem| && r.at + 4 <= |bytes| && r.target < |offsets|
    && Read(mem, r.at, 4) == Wrap32(Read(bytes, r.at, 4) + offsets[r.target])
  }

  /** mem starts with the code, all listed fields relocated. */
  ghost predicate Image(mem: Memory, bytes: Memory, relocs: seq<Reloc>, offsets: seq<nat>) {
    && |bytes| <= |mem|
    && (forall i {:trigger InField(relocs, i)} :: 0 <= i < |bytes| && !InField(relocs, i) ==> mem[i] == bytes[i])
    && (forall k :: 0 <= k < |relocs| ==> FieldOk(mem, bytes, relocs[k], offsets))
  }

  /** A fresh relocation: one field after another. */
  ghost function Fresh(bytes: Memory, relocs: seq<Reloc>, offsets: seq<nat>): (r: Memory)
    requires RelocsOk(relocs, |bytes|) && TargetsOk(relocs, |offsets|)
    ensures |r| == |bytes|
  {
    if relocs == [] then bytes
    else
      var n := |relocs| - 1;
      AddNear(Fresh(bytes, relocs[..n], offsets), relocs[n].at, offsets[relocs[n].target])
  }

  lemma FieldElsewhere(mem: Memory, bytes: Memory, s: Reloc, r: Reloc, delta: int, offsets: seq<nat>)
    requires FieldOk(mem, bytes, s, offsets) && Apart(s, r) && r.at + 4 <= |mem|
    ensures FieldOk(AddNear(mem, r.at, delta), bytes, s, offsets)
  {
    ReadSame(AddNear(mem, r.at, delta), mem, s.at, 4);
  }

  lemma InFieldMore(relocs: seq<Reloc>, r: Reloc, i: nat)
    ensures InField(relocs + [r], i) <==> InField(relocs, i) || r.at <= i < r.at + 4
  {
    var all := relocs + [r];
    assert all[|relocs|] == r && forall k :: 0 <= k < |relocs| ==> all[k] == relocs[k];
    if InField(relocs, i) {
      var j :| 0 <= j < |relocs| && relocs[j].at <= i < relocs[j].at + 4;
      assert all[j].at <= i < all[j].at + 4;
    }
  }

  /** Relocating one more field. */
  lemma ImageStep(mem: Memory, bytes: Memory, relocs: seq<Reloc>, r: Reloc, offsets: seq<nat>)
    requires Image(mem, bytes, relocs, offsets) && r.at + 4 <= |bytes| && r.target < |offsets|
    requires forall k :: 0 <= k < |relocs| ==> Apart(relocs[k], r)
    ensures Image(AddNear(mem, r.at, offsets[r.target]), bytes, relocs + [r], offsets)
  {
    var all, next := relocs + [r], AddNear(mem, r.at, offsets[r.target]);
    forall k | r.at <= k < r.at + 4 ensures mem[k] == bytes[k] {
      assert !InField(relocs, k);
    }
    forall i | 0 <= i < |bytes| && !InField(all, i) ensures next[i] == bytes[i] {
      InFieldMore(relocs, r, i);
    }
    forall k | 0 <= k < |all| ensures FieldOk(next, bytes, all[k], offsets) {
      if k < |relocs| {
        FieldElsewhere(mem, bytes, relocs[k], r, offsets[r.target], offsets);
      } else {
        ReadSame(mem, bytes, r.at, 4);
        AddedNear(mem, r.at, offsets[r.target]);
      }
    }
  }

  lemma RelocsPrefix(relocs: seq<Reloc>, size: nat, n: nat)
    requires RelocsOk(relocs, size) && n < |relocs|
    ensures RelocsOk(relocs[..n], size) && relocs[n].at + 4 <= size
    ensures forall k :: 0 <= k < |relocs[..n]| ==> Apart(relocs[..n][k], relocs[n])
  {
  }

  lemma {:induction false} FreshIsImage(bytes: Memory, relocs: seq<Reloc>, offsets: seq<nat>)
    requires RelocsOk(relocs, |bytes|) && TargetsOk(relocs, |offsets|)
    ensures Image(Fresh(bytes, relocs, offsets), bytes, relocs, offsets)
  {
    if relocs != [] {
      var n := |relocs| - 1;
      RelocsPrefix(relocs, |bytes|, n);
      FreshIsImage(bytes, relocs[..n], offsets);
      FreshStep(bytes, relocs[..n], relocs[n], offsets);
      assert relocs == relocs[..n] + [relocs[n]];
    }
  }

  lemma FreshStep(bytes: Memory, rest: seq<Reloc>, r: Reloc, offsets: seq<nat>)
    requires RelocsOk(rest, |bytes|) && TargetsOk(rest, |offsets|) && r.at + 4 <= |bytes| && r.target < |offsets|
    requires forall k :: 0 <= k < |rest| ==> Apart(rest[k], r)
    requires Image(Fresh(bytes, rest, offsets), bytes, rest, offsets)
    ensures Image(AddNear(Fresh(bytes, rest, offsets), r.at, offsets[r.target]), bytes, rest + [r], offsets)
  {
    ImageStep(Fresh(bytes, rest, offsets), bytes, rest, r, offsets);
  }

  lemma ImageByte(mem: Memory, f: Memory, bytes: Memory, relocs: seq<Reloc>, offsets: seq<nat>, i: nat)
    requires Image(mem, bytes, relocs, offsets) && Image(f, bytes, relocs, offsets) && i < |bytes|
    ensures mem[i] == f[i]
  {
    if InField(relocs, i) {
      var k :| 0 <= k < |relocs| && relocs[k].at <= i < relocs[k].at + 4;
      FieldByte(mem, f, bytes, relocs[k], offsets, i);
    }
  }

  lemma FieldByte(mem: Memory, f: Memory, bytes: Memory, r: Reloc, offsets: seq<nat>, i: nat)
    requires FieldOk(mem, bytes, r, offsets) && FieldOk(f, bytes, r, offsets) && r.at <= i < r.at + 4
    ensures mem[i] == f[i]
  {
    ReadDetermines(mem, f, r.at, 4);
  }

  /** An image is determined by code, relocations and offsets. */
  lemma ImageIsFresh(mem: Memory, bytes: Memory, relocs: seq<Reloc>, offsets: seq<nat>)
    requires RelocsOk(relocs, |bytes|) && TargetsOk(relocs, |offsets|) && Image(mem, bytes, relocs, offsets)
    ensures mem[..|bytes|] == Fresh(bytes, relocs, offsets)
  {
    FreshIsImage(bytes, relocs, offsets);
    forall i | 0 <= i < |bytes| ensures mem[i] == Fresh(bytes, relocs, offsets)[i] {
      ImageByte(mem, Fresh(bytes, relocs, offsets), bytes, relocs, offsets, i);
    }
  }

  // ---- changing targets ----------------------------------------------------------------------

  /** Calls keep number and place. Those at offsets from start up to end that went to `from`
      go to `to`; all others go where they went. */
  predicate Redirected(calls: seq<Reloc>, next: seq<Reloc>, start: nat, end: nat, from: nat, to: nat) {
    && |next| == |calls|
    && forall k :: 0 <= k < |calls| ==>
         && next[k].at == calls[k].at
         && next[k].target == if start <= calls[k].at < end && calls[k].target == from then to else calls[k].target
  }

  predicate Hits(p: NearPatch, r: Reloc) {
    p.start <= r.at < p.end && r.target == p.oldTarget
  }

  function Retargeted(r: Reloc, p: NearPatch): Reloc {
    if Hits(p, r) then r.(target := p.newTarget) else r
  }

  /** Rewrite the targets of all relocations in range. */
  function Retarget(relocs: seq<Reloc>, p: NearPatch): (r: seq<Reloc>)
    ensures |r| == |relocs| && forall k :: 0 <= k < |r| ==> r[k] == Retargeted(relocs[k], p)
  {
    seq(|relocs|, k requires 0 <= k < |relocs| => Retargeted(relocs[k], p))
  }

  lemma OneRetargeted(relocs: seq<Reloc>, k: nat, p: NearPatch, size: nat, n: nat)
    requires RelocsOk(relocs, size) && TargetsOk(relocs, n) && k < |relocs| && p.newTarget < n
    ensures RelocsOk(relocs[k := Retargeted(relocs[k], p)], size) && TargetsOk(relocs[k := Retargeted(relocs[k], p)], n)
  {
    var next := relocs[k := Retargeted(relocs[k], p)];
    forall i, j | 0 <= i < j < |next| ensures Apart(next[i], next[j]) {
      assert Apart(relocs[i], relocs[j]);
    }
  }

  /** Several rewritings in order. */
  function RetargetAll(relocs: seq<Reloc>, ps: seq<NearPatch>): (r: seq<Reloc>)
    ensures |r| == |relocs| && forall k :: 0 <= k < |r| ==> r[k].at == relocs[k].at
  {
    if ps == [] then relocs else Retarget(RetargetAll(relocs, ps[..|ps| - 1]), ps[|ps| - 1])
  }

  /** Relocations out of range of every pending change are not affected by it. */
  lemma {:induction false} RetargetAppend(relocs: seq<Reloc>, more: seq<Reloc>, ps: seq<NearPatch>)
    requires forall i, k :: 0 <= i < |ps| && 0 <= k < |more| ==> ps[i].end <= more[k].at
    ensures RetargetAll(relocs + more, ps) == RetargetAll(relocs, ps) + more
  {
    if ps != [] {
      RetargetAppend(relocs, more, ps[..|ps| - 1]);
    }
  }

  /** How far a field moves with its target. */
  function Shift(offsets: seq<nat>, from: nat, to: nat): int
    requires from < |offsets| && to < |offsets|
  {
    var a: int := offsets[to];
    var b: int := offsets[from];
    a - b
  }

  lemma FieldMoved(mem: Memory, bytes: Memory, r: Reloc, target: nat, offsets: seq<nat>)
    requires FieldOk(mem, bytes, r, offsets) && target < |offsets|
    ensures FieldOk(AddNear(mem, r.at, Shift(offsets, r.target, target)), bytes, r.(target := target), offsets)
  {
    AddedNear(mem, r.at, Shift(offsets, r.target, target));
    Rebase(Read(bytes, r.at, 4), offsets[r.target], offsets[target]);
  }

  /** Moving a field from one target to another. */
  lemma ImageRetarget(mem: Memory, bytes: Memory, relocs: seq<Reloc>, k: nat, target: nat, offsets: seq<nat>)
    requires Image(mem, bytes, relocs, offsets) && RelocsOk(relocs, |bytes|) && k < |relocs| && target < |offsets|
    requires relocs[k].target < |offsets|
    ensures Image(AddNear(mem, relocs[k].at, Shift(offsets, relocs[k].target, target)), bytes,
                  relocs[k := relocs[k].(target := target)], offsets)
  {
    assert FieldOk(mem, bytes, relocs[k], offsets);
    var r, delta := relocs[k], Shift(offsets, relocs[k].target, target);
    var next, m := relocs[k := r.(target := target)], AddNear(mem, r.at, delta);
    forall i | 0 <= i < |bytes| && !InField(next, i) ensures m[i] == bytes[i] {
      assert next[k].at == r.at;
      SameFields(relocs, next, i);
    }
    forall j | 0 <= j < |next| ensures FieldOk(m, bytes, next[j], offsets) {
      assert FieldOk(mem, bytes, relocs[j], offsets);
      if j < k {
        assert Apart(relocs[j], relocs[k]);
      }
      if k < j {
        assert Apart(relocs[k], relocs[j]);
      }
      if j != k {
        FieldElsewhere(mem, bytes, relocs[j], r, delta, offsets);
      } else {
        FieldMoved(mem, bytes, r, target, offsets);
      }
    }
  }

  lemma SameFields(relocs: seq<Reloc>, next: seq<Reloc>, i: nat)
    requires |next| == |relocs| && forall k :: 0 <= k < |relocs| ==> next[k].at == relocs[k].at
    ensures InField(next, i) <==> InField(relocs, i)
  {
    if InField(relocs, i) {
      var j :| 0 <= j < |relocs| && relocs[j].at <= i < relocs[j].at + 4;
      assert next[j].at <= i < next[j].at + 4;
    }
  }

  /** Adding the difference of two offsets, modulo 2^32. */
  lemma Rebase(w: nat, from: nat, to: nat)
    ensures Wrap32(Wrap32(w + from) + ((to as int) - (from as int))) == Wrap32(w + to)
  {
  }

  // ---- stubs -----------------------------------------------------------------------------------

  ghost predicate StubOk(offsets: seq<nat>, relocs: seq<Reloc>, size: nat, s: nat) {
    && s < |offsets| && offsets[s] + 12 <= size
    && forall k :: 0 <= k < |relocs| ==> relocs[k].at + 4 <= offsets[s] || offsets[s] + 12 <= relocs[k].at
  }

  lemma FieldPastStub(mem: Memory, bytes: Memory, r: Reloc, offsets: seq<nat>, o: nat, address: Word)
    requires FieldOk(mem, bytes, r, offsets) && (r.at + 4 <= o || o + 12 <= r.at) && o + 12 <= |bytes| <= |mem|
    ensures FieldOk(WriteStub(mem, o, address), WriteStub(bytes, o, address), r, offsets)
  {
    ReadSame(WriteStub(mem, o, address), mem, r.at, 4);
    ReadSame(WriteStub(bytes, o, address), bytes, r.at, 4);
  }

  lemma StubBytes(mem: Memory, bytes: Memory, o: nat, address: Word, i: nat)
    requires o + 12 <= |bytes| <= |mem| && i < |bytes| && mem[i] == bytes[i]
    ensures WriteStub(mem, o, address)[i] == WriteStub(bytes, o, address)[i]
  {
    WriteSame(mem, bytes, o + 2, 8, address);
  }

  /** A stub's address can be changed in an image as in the code it was made from. */
  lemma ImageStub(mem: Memory, bytes: Memory, relocs: seq<Reloc>, offsets: seq<nat>, s: nat, address: Word)
    requires Image(mem, bytes, relocs, offsets) && StubOk(offsets, relocs, |bytes|, s)
    ensures Image(WriteStub(mem, offsets[s], address), WriteStub(bytes, offsets[s], address), relocs, offsets)
  {
    var o := offsets[s];
    forall k | 0 <= k < |relocs|
      ensures FieldOk(WriteStub(mem, o, address), WriteStub(bytes, o, address), relocs[k], offsets)
    {
      FieldPastStub(mem, bytes, relocs[k], offsets, o, address);
    }
    forall i | 0 <= i < |bytes| && !InField(relocs, i)
      ensures WriteStub(mem, o, address)[i] == WriteStub(bytes, o, address)[i]
    {
      StubBytes(mem, bytes, o, address, i);
    }
  }

  lemma {:induction false} WriteSame(m: Memory, m': Memory, i: nat, n: nat, w: nat)
    requires i + n <= |m| && i + n <= |m'|
    ensures forall k :: i <= k < i + n ==> Write(m, i, n, w)[k] == Write(m', i, n, w)[k]
    decreases n
  {
    if n > 0 {
      WriteSame(m[i := w % 0x100], m'[i := w % 0x100], i + 1, n - 1, w / 0x100);
    }
  }

  ghost predicate StubPatchesOk(ps: seq<StubPatch>, offsets: seq<nat>, size: nat) {
    forall i :: 0 <= i < |ps| ==> ps[i].index < |offsets| && offsets[ps[i].index] + 12 <= size
  }

  function ApplyStubs(m: Memory, ps: seq<StubPatch>, offsets: seq<nat>): (r: Memory)
    requires StubPatchesOk(ps, offsets, |m|)
    ensures |r| == |m|
  {
    if ps == [] then m
    else
      var n := |ps| - 1;
      WriteStub(ApplyStubs(m, ps[..n], offsets), offsets[ps[n].index], ps[n].address)
  }

  lemma {:induction false} ApplyStubsAppend(m: Memory, more: Memory, ps: seq<StubPatch>, offsets: seq<nat>, offsets': seq<nat>)
    requires StubPatchesOk(ps, offsets, |m|) && offsets <= offsets'
    ensures ApplyStubs(m + more, ps, offsets') == ApplyStubs(m, ps, offsets) + more
  {
    if ps != [] {
      var n := |ps| - 1;
      ApplyStubsAppend(m, more, ps[..n], offsets, offsets');
      WriteAppend(ApplyStubs(m, ps[..n], offsets), more, offsets[ps[n].index] + 2, 8, ps[n].address);
    }
  }

  /** Code that differs at most in one stub's address. */
  ghost predicate AlikeBut(m: Memory, m': Memory, i: nat) {
    |m| == |m'| && forall k :: 0 <= k < |m| && !(i + 2 <= k < i + 10) ==> m[k] == m'[k]
  }

  lemma {:induction false} ApplyStubsAlike(m: Memory, m': Memory, ps: seq<StubPatch>, offsets: seq<nat>, i: nat)
    requires StubPatchesOk(ps, offsets, |m|) && AlikeBut(m, m', i)
    ensures AlikeBut(ApplyStubs(m, ps, offsets), ApplyStubs(m', ps, offsets), i)
  {
    if ps != [] {
      var n := |ps| - 1;
      ApplyStubsAlike(m, m', ps[..n], offsets, i);
      WriteSame(ApplyStubs(m, ps[..n], offsets), ApplyStubs(m', ps[..n], offsets), offsets[ps[n].index] + 2, 8, ps[n].address);
    }
  }

  /** A stub patched at once and again later holds the later address, whatever came between. */
  lemma StubPatchedTwice(m: Memory, ps: seq<StubPatch>, offsets: seq<nat>, i: nat, address: Word)
    requires StubPatchesOk(ps, offsets, |m|) && i + 12 <= |m|
    ensures WriteStub(ApplyStubs(WriteStub(m, i, address), ps, offsets), i, address) ==
              WriteStub(ApplyStubs(m, ps, offsets), i, address)
  {
    var m' := WriteStub(m, i, address);
    ApplyStubsAlike(m, m', ps, offsets, i);
    WriteForgets(ApplyStubs(m', ps, offsets), ApplyStubs(m, ps, offsets), i + 2, 8, address);
  }
}
