/** Module (src/module.cpp, src/bjit.h): code that can be loaded, patched while loaded and
    unloaded again. */
module Loader {
  import opened Words
  import opened Relocation

  /** What a module is about, whether it is loaded or not: code, procedure offsets and the
      targets of all calls. Changes to it take effect at once. */
  datatype Spec = Spec(bytes: Memory, offsets: seq<nat>, calls: seq<Reloc>) {
    function Retargeted(p: NearPatch): Spec {
      this.(calls := Retarget(calls, p))
    }

    function StubPatched(index: nat, address: Word): Spec
      requires index < |offsets| && offsets[index] + 12 <= |bytes|
    {
      this.(bytes := WriteStub(bytes, offsets[index], address))
    }

    function Added(code: Memory, relocs: seq<Reloc>): Spec {
      Spec(bytes + code, offsets + [|bytes|], calls + relocs)
    }

    ghost predicate Linked() {
      RelocsOk(calls, |bytes|) && TargetsOk(calls, |offsets|)
    }

    /** What executable memory should start with. */
    ghost function Executable(): Memory
      requires Linked()
    {
      Fresh(bytes, calls, offsets)
    }
  }

  method WriteField(a: array<Byte>, i: nat, n: nat, w0: nat)
    requires i + n <= a.Length
    modifies a
    ensures a[..] == Write(old(a[..]), i, n, w0)
  {
    var w := w0;
    for k := 0 to n
      invariant Write(a[..], i + k, n - k, w) == Write(old(a[..]), i, n, w0)
    {
      ghost var before := a[..];
      a[i + k] := w % 0x100;
      assert a[..] == before[i + k := w % 0x100];
      w := w / 0x100;
    }
  }

  method PatchNear(a: array<Byte>, i: nat, delta: int)
    requires i + 4 <= a.Length
    modifies a
    ensures a[..] == AddNear(old(a[..]), i, delta)
  {
    WriteField(a, i, 4, Wrap32(Read(a[..], i, 4) + delta));
  }

  method PatchStubAt(a: array<Byte>, i: nat, address: Word)
    requires i + 12 <= a.Length
    modifies a
    ensures a[..] == WriteStub(old(a[..]), i, address)
  {
    WriteField(a, i + 2, 8, address);
  }

  /** memcpy of the code from `from` on. */
  method CopyFrom(a: array<Byte>, bytes: Memory, from: nat)
    requires from <= |bytes| <= a.Length
    modifies a
    ensures a[..] == old(a[..])[..from] + bytes[from..] + old(a[..])[|bytes|..]
  {
    for k := from to |bytes|
      invariant forall j :: 0 <= j < a.Length ==> a[j] == if from <= j < k then bytes[j] else old(a[j])
    {
      a[k] := bytes[k];
    }
  }

  method RelocateOne(a: array<Byte>, r: Reloc, offsets: seq<nat>, ghost bytes: Memory, ghost relocs: seq<Reloc>)
    requires Image(a[..], bytes, relocs, offsets) && r.at + 4 <= |bytes| <= a.Length && r.target < |offsets|
    requires forall k :: 0 <= k < |relocs| ==> Apart(relocs[k], r)
    modifies a
    ensures Image(a[..], bytes, relocs + [r], offsets)
  {
    ImageStep(a[..], bytes, relocs, r, offsets);
    PatchNear(a, r.at, offsets[r.target]);
  }

  ghost function Upto(done: nat, k: nat): nat { if k < done then done else k }

  /** Relocation k, unless it was relocated before. */
  method RelocateNext(a: array<Byte>, ghost bytes: Memory, relocs: seq<Reloc>, offsets: seq<nat>, from: nat, k: nat, ghost done: nat)
    requires |bytes| <= a.Length && RelocsOk(relocs, |bytes|) && k < |relocs| && relocs[k].target < |offsets|
    requires done <= |relocs| && (relocs[k].at < from <==> k < done)
    requires Image(a[..], bytes, relocs[..Upto(done, k)], offsets)
    modifies a
    ensures Image(a[..], bytes, relocs[..Upto(done, k + 1)], offsets)
  {
    if relocs[k].at >= from {
      RelocsPrefix(relocs, |bytes|, k);
      assert relocs[..k + 1] == relocs[..k] + [relocs[k]];
      RelocateOne(a, relocs[k], offsets, bytes, relocs[..k]);
    }
  }

  /** Relocate all fields at or after `from`, those before being relocated already. */
  method RelocateFrom(a: array<Byte>, ghost bytes: Memory, relocs: seq<Reloc>, offsets: seq<nat>, from: nat, ghost done: nat)
    requires |bytes| <= a.Length && RelocsOk(relocs, |bytes|) && TargetsOk(relocs, |offsets|) && done <= |relocs|
    requires forall k :: 0 <= k < |relocs| ==> (relocs[k].at < from <==> k < done)
    requires Image(a[..], bytes, relocs[..done], offsets)
    modifies a
    ensures Image(a[..], bytes, relocs, offsets)
  {
    for k := 0 to |relocs|
      invariant Image(a[..], bytes, relocs[..Upto(done, k)], offsets)
    {
      RelocateNext(a, bytes, relocs, offsets, from, k, done);
    }
    assert relocs[..|relocs|] == relocs;
  }

  /** All pending stub patches, in order. */
  method PatchStubs(a: array<Byte>, ps: seq<StubPatch>, offsets: seq<nat>, ghost bytes: Memory, ghost relocs: seq<Reloc>)
    requires |bytes| <= a.Length && Image(a[..], bytes, relocs, offsets) && StubPatchesOk(ps, offsets, |bytes|)
    requires forall i :: 0 <= i < |ps| ==> StubOk(offsets, relocs, |bytes|, ps[i].index)
    modifies a
    ensures Image(a[..], ApplyStubs(bytes, ps, offsets), relocs, offsets)
  {
    ghost var b := bytes;
    for k := 0 to |ps|
      invariant StubPatchesOk(ps[..k], offsets, |bytes|) && b == ApplyStubs(bytes, ps[..k], offsets)
      invariant Image(a[..], b, relocs, offsets)
    {
      ImageStub(a[..], b, relocs, offsets, ps[k].index, ps[k].address);
      PatchStubAt(a, offsets[ps[k].index], ps[k].address);
      b := WriteStub(b, offsets[ps[k].index], ps[k].address);
      assert ps[..k + 1][..k] == ps[..k];
    }
    assert ps[..|ps|] == ps;
  }

  method RetargetOne(a: array<Byte>, p: NearPatch, relocs0: seq<Reloc>, k: nat, offsets: seq<nat>, ghost bytes: Memory)
    returns (relocs: seq<Reloc>)
    requires |bytes| <= a.Length && Image(a[..], bytes, relocs0, offsets) && RelocsOk(relocs0, |bytes|) && k < |relocs0|
    requires TargetsOk(relocs0, |offsets|) && p.oldTarget < |offsets| && p.newTarget < |offsets|
    modifies a
    ensures relocs == relocs0[k := Retargeted(relocs0[k], p)] && Image(a[..], bytes, relocs, offsets)
  {
    relocs := relocs0;
    if relocs[k].at < p.start || relocs[k].at >= p.end { return; }
    if relocs[k].target == p.oldTarget {
      ImageRetarget(a[..], bytes, relocs, k, p.newTarget, offsets);
      PatchNear(a, relocs[k].at, Shift(offsets, p.oldTarget, p.newTarget));
      relocs := relocs[k := relocs[k].(target := p.newTarget)];
    }
  }

  /** One pending change of call targets. */
  method Retargets(a: array<Byte>, p: NearPatch, relocs0: seq<Reloc>, offsets: seq<nat>, ghost bytes: Memory) returns (relocs: seq<Reloc>)
    requires |bytes| <= a.Length && Image(a[..], bytes, relocs0, offsets) && RelocsOk(relocs0, |bytes|)
    requires TargetsOk(relocs0, |offsets|) && p.oldTarget < |offsets| && p.newTarget < |offsets|
    modifies a
    ensures relocs == Retarget(relocs0, p) && Image(a[..], bytes, relocs, offsets)
    ensures RelocsOk(relocs, |bytes|) && TargetsOk(relocs, |offsets|)
  {
    relocs := relocs0;
    for k := 0 to |relocs|
      invariant |relocs| == |relocs0| && RelocsOk(relocs, |bytes|) && TargetsOk(relocs, |offsets|)
      invariant Image(a[..], bytes, relocs, offsets)
      invariant forall j :: 0 <= j < |relocs| ==> relocs[j] == if j < k then Retargeted(relocs0[j], p) else relocs0[j]
    {
      OneRetargeted(relocs, k, p, |bytes|, |offsets|);
      relocs := RetargetOne(a, p, relocs, k, offsets, bytes);
    }
  }

  ghost predicate NearOk(ps: seq<NearPatch>, n: nat) {
    forall i :: 0 <= i < |ps| ==> ps[i].oldTarget < n && ps[i].newTarget < n
  }

  /** All pending changes of call targets, in order. */
  method RetargetsAll(a: array<Byte>, ps: seq<NearPatch>, relocs0: seq<Reloc>, offsets: seq<nat>, ghost bytes: Memory)
    returns (relocs: seq<Reloc>)
    requires |bytes| <= a.Length && Image(a[..], bytes, relocs0, offsets) && RelocsOk(relocs0, |bytes|)
    requires TargetsOk(relocs0, |offsets|) && NearOk(ps, |offsets|)
    modifies a
    ensures relocs == RetargetAll(relocs0, ps) && Image(a[..], bytes, relocs, offsets)
    ensures RelocsOk(relocs, |bytes|) && TargetsOk(relocs, |offsets|)
  {
    relocs := relocs0;
    for i := 0 to |ps|
      invariant RelocsOk(relocs, |bytes|) && TargetsOk(relocs, |offsets|)
      invariant relocs == RetargetAll(relocs0, ps[..i]) && Image(a[..], bytes, relocs, offsets)
    {
      relocs := Retargets(a, ps[i], relocs, offsets, bytes);
      assert ps[..i + 1][..i] == ps[..i];
    }
    assert ps[..|ps|] == ps;
  }

  // ---- the module ----------------------------------------------------------------------------

  /** Calls and stubs lie within the code and apart from each other. */
  ghost predicate Sane(bytes: Memory, offsets: seq<nat>, relocs: seq<Reloc>, stubs: set<nat>) {
    && RelocsOk(relocs, |bytes|)
    && (forall s :: s in stubs ==> StubOk(offsets, relocs, |bytes|, s))
    && forall k :: 0 <= k < |offsets| ==> offsets[k] <= |bytes|
  }

  /** Nothing straddles the end of what was published: `done` relocations and the stubs of
      that part lie below it, the others above. */
  ghost predicate Divided(offsets: seq<nat>, relocs: seq<Reloc>, stubs: set<nat>, done: nat, size: nat) {
    && done <= |relocs|
    && (forall k :: 0 <= k < |relocs| ==> (relocs[k].at < size <==> k < done))
    && (forall k :: 0 <= k < done ==> relocs[k].at + 4 <= size)
    && (forall s :: s in stubs && s < |offsets| ==> offsets[s] + 12 <= size || size <= offsets[s])
  }

  /** Executable memory is the image of the code as it was published; the code is that plus
      what was compiled since, with the pending stub patches applied. */
  ghost predicate Live(mem: Memory, pub: Memory, bytes: Memory, offsets: seq<nat>, relocs: seq<Reloc>, stubPatches: seq<StubPatch>,
                       done: nat, size: nat)
  {
    && size == |pub| <= |bytes| && size <= |mem| && done <= |relocs|
    && Image(mem, pub, relocs[..done], offsets)
    && StubPatchesOk(stubPatches, offsets, |bytes|)
    && ApplyStubs(pub + bytes[size..], stubPatches, offsets) == bytes
  }

  class Module {
    var bytes: Memory
    var offsets: seq<nat>
    var relocs: seq<Reloc>
    var stubPatches: seq<StubPatch>
    var nearPatches: seq<NearPatch>
    var exec: array?<Byte>
    var loadSize: nat
    ghost var stubs: set<nat>       // which procedures are stubs
    ghost var pub: Memory           // the code when it was last loaded or patched
    ghost var done: nat             // how many relocations there were then

    constructor ()
      ensures Valid() && exec == null && Abs() == Spec([], [], []) && stubs == {}
    {
      bytes, offsets, relocs, stubPatches, nearPatches := [], [], [], [], [];
      exec, loadSize, stubs, pub, done := null, 0, {}, [], 0;
      new;
      NothingIsSane(bytes, offsets, relocs, stubs);
    }

    ghost predicate Valid()
      reads this, exec
    {
      && Sane(bytes, offsets, relocs, stubs)
      && (forall i :: 0 <= i < |stubPatches| ==> stubPatches[i].index in stubs)
      && (forall i :: 0 <= i < |nearPatches| ==> nearPatches[i].end <= |bytes|)
      && (exec == null ==> stubPatches == [] && nearPatches == [] && loadSize == 0)
      && (exec != null ==>
            && Divided(offsets, relocs, stubs, done, loadSize)
            && Live(exec[..], pub, bytes, offsets, relocs, stubPatches, done, loadSize))
    }

    /** The module as its user sees it: all changes made. */
    ghost function Abs(): Spec
      reads this
    {
      Spec(bytes, offsets, RetargetAll(relocs, nearPatches))
    }

    // ---- changes ------------------------------------------------------------------------

    method Add(code: Memory, calls: seq<Reloc>, ghost stub: bool) returns (index: nat)
      requires Valid() && RelocsOk(calls, |bytes| + |code|) && forall k :: 0 <= k < |calls| ==> |bytes| <= calls[k].at
      requires stub ==> calls == [] && |code| == 12
      modifies this
      ensures Valid() && Abs() == old(Abs()).Added(code, calls) && index == |old(offsets)| && exec == old(exec)
      ensures stubs == old(stubs) + if stub then {index} else {}
    {
      index := |offsets|;
      ghost var all := stubs + if stub then {index} else {};
      AddKeeps(bytes, offsets, relocs, stubs, all, code, calls);
      if exec != null {
        AddLive(exec[..], pub, bytes, offsets, relocs, stubs, all, stubPatches, done, loadSize, code, calls);
      }
      RetargetAppend(relocs, calls, nearPatches);
      offsets, bytes, relocs, stubs := offsets + [|bytes|], bytes + code, relocs + calls, all;
    }

    /** A compiled procedure: its code and its calls. */
    method Compile(code: Memory, calls: seq<Reloc>) returns (index: nat)
      requires Valid() && RelocsOk(calls, |bytes| + |code|) && forall k :: 0 <= k < |calls| ==> |bytes| <= calls[k].at
      modifies this
      ensures Valid() && Abs() == old(Abs()).Added(code, calls) && index == |old(offsets)|
      ensures stubs == old(stubs) && exec == old(exec)
    {
      index := Add(code, calls, false);
    }

    /** A stub: a jump to an external address, called like a procedure. */
    method CompileStub(address: Word) returns (index: nat)
      requires Valid()
      modifies this
      ensures Valid() && Abs() == old(Abs()).Added(StubCode(address), []) && index == |old(offsets)|
      ensures stubs == old(stubs) + {index} && exec == old(exec)
    {
      index := Add(StubCode(address), [], true);
    }

    method PatchStub(index: nat, address: Word)
      requires Valid() && index in stubs
      modifies this
      ensures Valid() && Abs() == old(Abs()).StubPatched(index, address)
      ensures Readdressed(old(bytes), bytes, offsets[index], address)
      ensures stubs == old(stubs) && exec == old(exec)
    {
      if exec != null {
        StubLive(exec[..], pub, bytes, offsets, relocs, stubs, stubPatches, done, loadSize, StubPatch(index, address));
      }
      AddressWritten(bytes, offsets[index], address);
      bytes := WriteStub(bytes, offsets[index], address);
      if exec != null {
        stubPatches := stubPatches + [StubPatch(index, address)];
      }
    }

    method Retarget1(p: NearPatch)
      requires Sane(bytes, offsets, relocs, stubs)
      modifies this`relocs
      ensures relocs == Retarget(old(relocs), p) && Sane(bytes, offsets, relocs, stubs)
    {
      ghost var relocs0 := relocs;
      for k := 0 to |relocs|
        invariant |relocs| == |relocs0|
        invariant forall j :: 0 <= j < |relocs| ==> relocs[j] == if j < k then Retargeted(relocs0[j], p) else relocs0[j]
      {
        if relocs[k].at < p.start || relocs[k].at >= p.end { continue; }
        if relocs[k].target == p.oldTarget {
          relocs := relocs[k := relocs[k].(target := p.newTarget)];
        }
      }
      SaneRetargeted(bytes, offsets, relocs0, relocs, stubs);
    }

    /** Change targets at once, or later if executable memory has to change as well. */
    method ChangeCalls(p: NearPatch)
      requires Valid() && p.end <= |bytes|
      modifies this
      ensures Valid() && Abs() == old(Abs()).Retargeted(p)
      ensures stubs == old(stubs) && exec == old(exec)
    {
      if exec != null {
        nearPatches := nearPatches + [p];
        assert nearPatches[..|nearPatches| - 1] == old(nearPatches);
      } else {
        Retarget1(p);
      }
    }

    /** All calls of one procedure become calls of another. */
    method PatchCalls(oldTarget: nat, newTarget: nat)
      requires Valid()
      modifies this
      ensures Valid() && Abs() == old(Abs()).Retargeted(NearPatch(oldTarget, newTarget, 0, |bytes|))
      ensures Abs() == old(Abs()).(calls := Abs().calls) && |Abs().calls| == |old(Abs()).calls|
      ensures forall k :: 0 <= k < |Abs().calls| ==>
                var call := old(Abs()).calls[k];
                Abs().calls[k] == Reloc(call.at, if call.target == oldTarget then newTarget else call.target)
      ensures stubs == old(stubs) && exec == old(exec) && bytes == old(bytes)
    {
      ChangeCalls(NearPatch(oldTarget, newTarget, 0, |bytes|));
      assert RelocsOk(old(relocs), |bytes|);
    }

    /** The same for the calls in one procedure. */
    method PatchCallsIn(inProc: nat, oldTarget: nat, newTarget: nat)
      requires Valid() && inProc < |offsets|
      modifies this
      ensures Valid() && stubs == old(stubs) && exec == old(exec) && offsets == old(offsets) && bytes == old(bytes)
      ensures Abs() == old(Abs()).Retargeted(
                NearPatch(oldTarget, newTarget, offsets[inProc], if inProc + 1 < |offsets| then offsets[inProc + 1] else |bytes|))
      ensures Abs() == old(Abs()).(calls := Abs().calls)
      ensures Redirected(old(Abs()).calls, Abs().calls, offsets[inProc],
                         if inProc + 1 < |offsets| then offsets[inProc + 1] else |bytes|, oldTarget, newTarget)
    {
      ChangeCalls(NearPatch(oldTarget, newTarget, offsets[inProc], if inProc + 1 < |offsets| then offsets[inProc + 1] else |bytes|));
    }

    // ---- publishing -----------------------------------------------------------------------

    method MakeImage(mmapSizeMin: nat) returns (mem: array<Byte>)
      requires Sane(bytes, offsets, relocs, stubs) && TargetsOk(relocs, |offsets|)
      ensures fresh(mem) && mem.Length >= mmapSizeMin && mem.Length >= |bytes|
      ensures Image(mem[..], bytes, relocs, offsets)
    {
      var size := if mmapSizeMin < |bytes| then |bytes| else mmapSizeMin;
      mem := new Byte[size](_ => 0);
      CopyFrom(mem, bytes, 0);
      RelocateFrom(mem, bytes, relocs, offsets, 0, 0);
    }

    /** mapped and protected say whether the system calls succeed. */
    method Load(mmapSizeMin: nat, mapped: bool, protected: bool) returns (ok: bool)
      requires Valid() && exec == null && Abs().Linked()
      modifies this
      ensures Valid() && Abs() == old(Abs()) && stubs == old(stubs)
      ensures ok == (mapped && protected) == (exec != null)
      ensures ok ==> fresh(exec) && exec.Length >= mmapSizeMin && |bytes| <= exec.Length && exec[..|bytes|] == Abs().Executable()
    {
      if !mapped { return false; }
      var mem := MakeImage(mmapSizeMin);
      if !protected { return false; }
      Publish(mem, relocs);
      ok := true;
    }

    /** Memory that is up to date becomes the executable one. */
    method Publish(mem: array<Byte>, next: seq<Reloc>)
      requires Sane(bytes, offsets, next, stubs) && TargetsOk(next, |offsets|) && Image(mem[..], bytes, next, offsets)
      modifies this
      ensures Valid() && exec == mem && stubs == old(stubs) && Abs() == Spec(old(bytes), old(offsets), next)
      ensures |bytes| <= mem.Length && mem[..|bytes|] == Fresh(old(bytes), next, old(offsets))
      ensures stubPatches == [] && nearPatches == []
    {
      ImageIsFresh(mem[..], bytes, next, offsets);
      LiveAtOnce(mem[..], bytes, offsets, next, stubs);
      exec, relocs, loadSize, stubPatches, nearPatches, pub, done := mem, next, |bytes|, [], [], bytes, |next|;
    }

    /** Change executable memory as the code and the calls have changed. */
    method PatchMemory(mem: array<Byte>) returns (next: seq<Reloc>)
      requires mem == exec && Sane(bytes, offsets, relocs, stubs) && Divided(offsets, relocs, stubs, done, loadSize)
      requires Live(mem[..], pub, bytes, offsets, relocs, stubPatches, done, loadSize) && |bytes| <= mem.Length
      requires forall i :: 0 <= i < |stubPatches| ==> stubPatches[i].index in stubs
      requires TargetsOk(relocs, |offsets|) && NearOk(nearPatches, |offsets|)
      modifies mem
      ensures next == RetargetAll(relocs, nearPatches) && Image(mem[..], bytes, next, offsets)
      ensures TargetsOk(next, |offsets|)
    {
      ghost var base := pub + bytes[loadSize..];
      CopiedImage(mem[..], pub, bytes, relocs[..done], offsets, loadSize);
      CopyFrom(mem, bytes, loadSize);
      RelocateFrom(mem, base, relocs, offsets, loadSize, done);
      PatchStubs(mem, stubPatches, offsets, base, relocs);
      next := RetargetsAll(mem, nearPatches, relocs, offsets, bytes);
    }

    /** Bring executable memory up to date in place, if the code fits. */
    method Patch() returns (ok: bool)
      requires Valid() && exec != null && TargetsOk(relocs, |offsets|) && NearOk(nearPatches, |offsets|)
      modifies this, exec
      ensures Valid() && Abs() == old(Abs()) && stubs == old(stubs) && exec == old(exec) && exec != null
      ensures ok <==> |bytes| <= exec.Length
      ensures ok ==> Abs().Linked() && exec[..|bytes|] == Abs().Executable() && stubPatches == [] && nearPatches == []
      ensures !ok ==> unchanged(this) && unchanged(exec)
    {
      if exec.Length < |bytes| { return false; }
      var next := PatchMemory(exec);
      SaneRetargeted(bytes, offsets, relocs, next, stubs);
      Publish(exec, next);
      ok := true;
    }

    /** Give the memory back; changes still pending take effect now. */
    method Unload()
      requires Valid() && exec != null
      modifies this
      ensures Valid() && Abs() == old(Abs()) && stubs == old(stubs) && exec == null
    {
      ghost var relocs0 := relocs;
      var ps := nearPatches;
      for i := 0 to |ps|
        invariant Sane(bytes, offsets, relocs, stubs) && relocs == RetargetAll(relocs0, ps[..i])
        invariant bytes == old(bytes) && offsets == old(offsets) && stubs == old(stubs)
      {
        Retarget1(ps[i]);
        assert ps[..i + 1][..i] == ps[..i];
      }
      assert ps[..|ps|] == ps;
      stubPatches, nearPatches, exec, loadSize := [], [], null, 0;
    }
  }

  lemma NothingIsSane(bytes: Memory, offsets: seq<nat>, relocs: seq<Reloc>, stubs: set<nat>)
    requires bytes == [] && offsets == [] && relocs == [] && stubs == {}
    ensures Sane(bytes, offsets, relocs, stubs)
  {
  }

  function StubCode(address: Word): (r: Memory)
    ensures |r| == 12
  {
    WriteStub([0x48, 0xB8, 0, 0, 0, 0, 0, 0, 0, 0, 0xFF, 0xE0], 0, address)
  }

  /** MOVABS of the address to RAX, and a jump there. */
  lemma StubCodeBytes(address: Word)
    ensures var r := StubCode(address);
            && r[0] == 0x48 && r[1] == 0xB8 && Read(r, 2, 8) == address && r[2] == address % 0x100
            && r[10] == 0xFF && r[11] == 0xE0
  {
    AddressWritten([0x48, 0xB8, 0, 0, 0, 0, 0, 0, 0, 0, 0xFF, 0xE0], 0, address);
  }

  lemma SaneRetargeted(bytes: Memory, offsets: seq<nat>, relocs: seq<Reloc>, next: seq<Reloc>, stubs: set<nat>)
    requires Sane(bytes, offsets, relocs, stubs) && |next| == |relocs|
    requires forall k :: 0 <= k < |relocs| ==> next[k].at == relocs[k].at
    ensures Sane(bytes, offsets, next, stubs)
  {
    forall i, j | 0 <= i < j < |next| ensures Apart(next[i], next[j]) {
      assert Apart(relocs[i], relocs[j]);
    }
    forall s | s in stubs ensures StubOk(offsets, next, |bytes|, s) {
      assert StubOk(offsets, relocs, |bytes|, s);
    }
  }

  /** Freshly published: everything lies below the end, and nothing is pending. */
  lemma LiveAtOnce(mem: Memory, bytes: Memory, offsets: seq<nat>, relocs: seq<Reloc>, stubs: set<nat>)
    requires Sane(bytes, offsets, relocs, stubs) && Image(mem, bytes, relocs, offsets)
    ensures Divided(offsets, relocs, stubs, |relocs|, |bytes|)
    ensures Live(mem, bytes, bytes, offsets, relocs, [], |relocs|, |bytes|)
  {
    assert relocs[..|relocs|] == relocs;
    assert bytes + bytes[|bytes|..] == bytes;
    forall s | s in stubs ensures offsets[s] + 12 <= |bytes| {
      assert StubOk(offsets, relocs, |bytes|, s);
    }
  }

  /** Copying in what was compiled since keeps the old part relocated. */
  lemma CopiedImage(mem: Memory, pub: Memory, bytes: Memory, relocs: seq<Reloc>, offsets: seq<nat>, size: nat)
    requires Image(mem, pub, relocs, offsets) && size == |pub| <= |bytes| <= |mem|
    requires forall k :: 0 <= k < |relocs| ==> relocs[k].at + 4 <= size
    ensures Image(mem[..size] + bytes[size..] + mem[|bytes|..], pub + bytes[size..], relocs, offsets)
  {
    var next, base := mem[..size] + bytes[size..] + mem[|bytes|..], pub + bytes[size..];
    forall k | 0 <= k < |relocs| ensures FieldOk(next, base, relocs[k], offsets) {
      assert FieldOk(mem, pub, relocs[k], offsets);
      ReadSame(next, mem, relocs[k].at, 4);
      ReadSame(base, pub, relocs[k].at, 4);
    }
    forall i | 0 <= i < |base| && !InField(relocs, i) ensures next[i] == base[i] {
    }
  }

  lemma StubLive(mem: Memory, pub: Memory, bytes: Memory, offsets: seq<nat>, relocs: seq<Reloc>, stubs: set<nat>,
                 ps: seq<StubPatch>, done: nat, size: nat, p: StubPatch)
    requires Divided(offsets, relocs, stubs, done, size) && Live(mem, pub, bytes, offsets, relocs, ps, done, size)
    requires p.index in stubs && StubOk(offsets, relocs, |bytes|, p.index)
    ensures Live(mem, pub, WriteStub(bytes, offsets[p.index], p.address), offsets, relocs, ps + [p], done, size)
  {
    var o, base := offsets[p.index], pub + bytes[size..];
    var next := WriteStub(bytes, o, p.address);
    assert (ps + [p])[..|ps|] == ps;
    if o + 12 <= size {
      assert pub + next[size..] == base;
    } else {
      StubBeyond(pub, bytes, o, p.address, size);
      StubPatchedTwice(base, ps, offsets, o, p.address);
    }
  }

  lemma StubBeyond(pub: Memory, bytes: Memory, o: nat, address: Word, size: nat)
    requires size == |pub| <= o && o + 12 <= |bytes|
    ensures pub + WriteStub(bytes, o, address)[size..] == WriteStub(pub + bytes[size..], o, address)
  {
    WriteSame(pub + bytes[size..], bytes, o + 2, 8, address);
  }

  /** Only what has just been added may be a new stub, and then it has no calls. */
  ghost predicate NewStubs(offsets: seq<nat>, stubs: set<nat>, all: set<nat>, code: Memory, calls: seq<Reloc>) {
    all == stubs || (all == stubs + {|offsets|} && calls == [] && |code| == 12)
  }

  lemma AddKeeps(bytes: Memory, offsets: seq<nat>, relocs: seq<Reloc>, stubs: set<nat>, all: set<nat>, code: Memory, calls: seq<Reloc>)
    requires Sane(bytes, offsets, relocs, stubs) && NewStubs(offsets, stubs, all, code, calls)
    requires RelocsOk(calls, |bytes| + |code|) && forall k :: 0 <= k < |calls| ==> |bytes| <= calls[k].at
    ensures Sane(bytes + code, offsets + [|bytes|], relocs + calls, all)
  {
    var both := relocs + calls;
    forall j, k | 0 <= j < k < |both| ensures Apart(both[j], both[k]) {
      if k < |relocs| {
        assert Apart(relocs[j], relocs[k]);
      } else if j >= |relocs| {
        assert Apart(calls[j - |relocs|], calls[k - |relocs|]);
      }
    }
    forall s | s in all ensures StubOk(offsets + [|bytes|], both, |bytes + code|, s) {
      if s in stubs {
        assert StubOk(offsets, relocs, |bytes|, s);
      }
    }
  }

  /** Offsets of new procedures do not disturb an image. */
  lemma ImageMoreOffsets(mem: Memory, bytes: Memory, relocs: seq<Reloc>, offsets: seq<nat>, offsets': seq<nat>)
    requires Image(mem, bytes, relocs, offsets) && offsets <= offsets'
    ensures Image(mem, bytes, relocs, offsets')
  {
    forall k | 0 <= k < |relocs| ensures FieldOk(mem, bytes, relocs[k], offsets') {
      assert FieldOk(mem, bytes, relocs[k], offsets);
    }
  }

  lemma AddLive(mem: Memory, pub: Memory, bytes: Memory, offsets: seq<nat>, relocs: seq<Reloc>, stubs: set<nat>, all: set<nat>,
                ps: seq<StubPatch>, done: nat, size: nat, code: Memory, calls: seq<Reloc>)
    requires Divided(offsets, relocs, stubs, done, size) && Live(mem, pub, bytes, offsets, relocs, ps, done, size)
    requires forall k :: 0 <= k < |calls| ==> |bytes| <= calls[k].at
    requires NewStubs(offsets, stubs, all, code, calls) && forall s :: s in stubs ==> s < |offsets|
    ensures Divided(offsets + [|bytes|], relocs + calls, all, done, size)
    ensures Live(mem, pub, bytes + code, offsets + [|bytes|], relocs + calls, ps, done, size)
  {
    var offs := offsets + [|bytes|];
    assert (relocs + calls)[..done] == relocs[..done];
    ImageMoreOffsets(mem, pub, relocs[..done], offsets, offs);
    assert pub + (bytes + code)[size..] == pub + bytes[size..] + code;
    ApplyStubsAppend(pub + bytes[size..], code, ps, offsets, offs);
  }
}
