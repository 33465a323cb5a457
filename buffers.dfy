/** src/buffers.c: managed GL buffer objects. */
module Buffers {
  import opened Wrappers
  import opened Gl
  import opened Errors
  import opened State
  import OrionGlad

  /** The version assertions `oriCreateBuffer` makes for `target`, in order. The
      switch has no `break` after the atomic-counter, dispatch-indirect/shader-storage
      and query cases, so each of them falls through to the later assertions. */
  function VersionAssertions(target: nat): (required: seq<nat>)
    ensures required != [] && 200 <= MaxOf(required)
  {
    if target == COPY_READ_BUFFER || target == UNIFORM_BUFFER || target == TEXTURE_BUFFER then [310]
    else if target == ATOMIC_COUNTER_BUFFER then [420, 430, 440, 200]
    else if target == DISPATCH_INDIRECT_BUFFER || target == SHADER_STORAGE_BUFFER then [430, 440, 200]
    else if target == QUERY_BUFFER then [440, 200]
    else [200]
  }

  /** The version `oriCreateBuffer` effectively demands, the largest of its
      assertions: 4.4 for the atomic-counter, dispatch-indirect, shader-storage
      and query targets, 3.1 for copy-read, uniform and texture buffers, 2.0
      otherwise. */
  lemma EffectiveMinimumVersion(target: nat)
    ensures MaxOf(VersionAssertions(target)) ==
      if target in {ATOMIC_COUNTER_BUFFER, DISPATCH_INDIRECT_BUFFER, SHADER_STORAGE_BUFFER, QUERY_BUFFER} then 440
      else if target in {COPY_READ_BUFFER, UNIFORM_BUFFER, TEXTURE_BUFFER} then 310
      else 200
  {
    assert MaxOf([200]) == 200;
    assert MaxOf([440, 200]) == 440;
    assert MaxOf([430, 440, 200]) == 440;
    assert MaxOf([420, 430, 440, 200]) == 440;
  }

  /** The checks `oriCreateBuffer` makes before allocating: the version
      assertions, then the initialisation flag. */
  function CreateCheck(initialised: bool, glVersion: nat, target: nat): (r: Option<Error>)
    ensures r.Some? <==> glVersion < MaxOf(VersionAssertions(target)) || !initialised
    ensures r.Some? ==> r.value == if glVersion < MaxOf(VersionAssertions(target)) then GlVersTooLow else NotInit
  {
    AssertVersionsIsMax(glVersion, VersionAssertions(target));
    if AssertVersions(glVersion, VersionAssertions(target)).Some? then AssertVersions(glVersion, VersionAssertions(target))
    else if !initialised then Some(NotInit)
    else None
  }

  /** On the zeroed state (version 0, not initialised) the version assertion fires
      first, so creation reports ORERR_GL_VERS_TOO_LOW rather than ORERR_NOT_INIT. */
  lemma CreateBeforeInitReportsVersion(target: nat)
    ensures CreateCheck(false, 0, target) == Some(GlVersTooLow)
  {
  }

  /** `oriCreateBuffer`: a fresh buffer with no data, the given target and a new
      GL name (from glCreateBuffers at 4.5 and above, glGenBuffers below), pushed
      at the head of the buffer list. */
  method CreateBuffer(st: Orion, target: nat) returns (r: Result<Buffer, Error>)
    requires st.Valid()
    modifies st`bufferList, st.gl`calls, st.gl`nextName
    ensures st.Valid()
    ensures r.Failure? <==> CreateCheck(st.initialised, st.glVersion, target).Some?
    ensures r.Failure? ==>
      && r.error == CreateCheck(st.initialised, st.glVersion, target).value
      && st.bufferList == old(st.bufferList) && st.gl.calls == old(st.gl.calls)
      && st.gl.nextName == old(st.gl.nextName)
    ensures r.Success? ==>
      && fresh(r.value) && r.value.target == target && !r.value.dataSet && r.value.dataSize == 0
      && r.value.handle == old(st.gl.nextName)
      && st.bufferList == [r.value] + old(st.bufferList)
      && st.gl.calls == old(st.gl.calls) +
        [if st.glVersion >= 450 then CreateBuffers(r.value.handle) else GenBuffers(r.value.handle)]
  {
    var check := CreateCheck(st.initialised, st.glVersion, target);
    if check.Some? {
      return Failure(check.value);
    }
    var handle;
    if st.glVersion >= 450 {
      handle := st.gl.NewName((n: nat) => CreateBuffers(n));
    } else {
      handle := st.gl.NewName((n: nat) => GenBuffers(n));
    }
    var b := new Buffer(handle, target);
    st.bufferList := [b] + st.bufferList;
    r := Success(b);
  }

  /** `oriFreeBuffer`. The search loop walks the list until it meets the buffer
      (it runs off the end of a list without it, so the caller must pass a listed
      buffer); then the head is set to the buffer's successor, and glDeleteBuffers
      goes through the tracker. */
  method FreeBuffer(st: Orion, b: Buffer) returns (r: Outcome<Error>)
    requires st.Valid() && b in st.bufferList
    modifies st`bufferList, st.gl`boundBuffers, st.gl`calls
    ensures st.Valid()
    ensures r.Fail? <==> st.glVersion < 200
    ensures r.Fail? ==>
      && r.error == GlVersTooLow && st.bufferList == old(st.bufferList)
      && st.gl.boundBuffers == old(st.gl.boundBuffers) && st.gl.calls == old(st.gl.calls)
    ensures r.Pass? ==>
      && st.bufferList == SuffixAfter(old(st.bufferList), b)
      && var (bound, deleted) := OrionGlad.DeletedBuffers(old(st.gl.boundBuffers), [b.handle]);
         st.gl.boundBuffers == bound
         && st.gl.calls == old(st.gl.calls) + if deleted then [Call.DeleteBuffers([b.handle])] else []
  {
    var check := AssertVersion(st.glVersion, 200);
    if check.Some? {
      return Fail(check.value);
    }
    var i := 0;
    while st.bufferList[i] != b
      invariant 0 <= i < |st.bufferList| && b !in st.bufferList[..i] && b in st.bufferList[i..]
      decreases |st.bufferList| - i
    {
      assert st.bufferList[..i + 1] == st.bufferList[..i] + [st.bufferList[i]];
      i := i + 1;
    }
    assert IndexOf(st.bufferList, b) == i;
    st.bufferList := st.bufferList[i + 1..];
    st.gl.DeleteBuffers([b.handle]);
    r := Pass;
  }

  /** The backend calls `oriBindBuffer` produces for a buffer with `handle` and
      `target` when the tracker holds `bound`: none when the buffer is already
      current there, and none for a target the tracker does not know. */
  function BindCalls(bound: seq<nat>, target: nat, handle: nat): (c: seq<Call>)
    requires |bound| == |OrionGlad.BufferTargets|
    ensures c != [] <==> target in OrionGlad.BufferTargets && bound[OrionGlad.BufferSlot(target).value] != handle
    ensures c != [] ==> c == [Call.BindBuffer(target, handle)]
  {
    if target in OrionGlad.BufferTargets && OrionGlad.CurrentBufferAt(bound, target) != handle then
      [Call.BindBuffer(target, handle)]
    else []
  }

  /** The library skips exactly the binds that could not change the tracker:
      no call is made precisely when binding the buffer at its target would leave
      every slot as it is. */
  lemma BindSkippedExactlyWhenNoOp(bound: seq<nat>, target: nat, handle: nat)
    requires |bound| == |OrionGlad.BufferTargets|
    ensures BindCalls(bound, target, handle) == [] <==>
      (target in OrionGlad.BufferTargets ==> bound[OrionGlad.BufferSlot(target).value := handle] == bound)
  {
    if target in OrionGlad.BufferTargets {
      var s := OrionGlad.BufferSlot(target).value;
      if bound[s := handle] == bound {
        assert bound[s := handle][s] == handle;
      }
    }
  }

  /** `oriBindBuffer`: nothing happens when the tracker already holds the buffer at
      its target; otherwise the bind goes through the tracker, after which the
      buffer is current at its target. */
  method BindBuffer(st: Orion, b: Buffer) returns (r: Outcome<Error>)
    requires st.Valid()
    modifies st.gl`boundBuffers, st.gl`calls
    ensures st.Valid()
    ensures r.Fail? <==> st.glVersion < 200
    ensures r.Fail? ==>
      && r.error == GlVersTooLow
      && st.gl.boundBuffers == old(st.gl.boundBuffers) && st.gl.calls == old(st.gl.calls)
    ensures r.Pass? ==>
      && st.gl.calls == old(st.gl.calls) + BindCalls(old(st.gl.boundBuffers), b.target, b.handle)
      && st.gl.boundBuffers == if b.target in OrionGlad.BufferTargets
                               then old(st.gl.boundBuffers)[OrionGlad.BufferSlot(b.target).value := b.handle]
                               else old(st.gl.boundBuffers)
    ensures r.Pass? && b.target in OrionGlad.BufferTargets ==>
      OrionGlad.CurrentBufferAt(st.gl.boundBuffers, b.target) == b.handle
  {
    var check := AssertVersion(st.glVersion, 200);
    if check.Some? {
      return Fail(check.value);
    }
    OrionGlad.BufferTargetsDistinct();
    if OrionGlad.CurrentBufferAt(st.gl.boundBuffers, b.target) == b.handle {
      return Pass;
    }
    st.gl.BindBuffer(b.target, b.handle);
    r := Pass;
  }

  /** Whether `oriSetBufferData` takes the full re-allocation path. */
  predicate Reallocates(dataSet: bool, dataSize: nat, size: nat)
  {
    !dataSet || dataSize != size
  }

  /** The upload state machine: a buffer's first upload allocates; after an
      upload of `size` the buffer holds data of that size, so uploading the same
      size again overwrites in place, and any other size allocates anew. */
  lemma ReallocatesOnlyOnChange(dataSize: nat, size: nat, nextSize: nat)
    ensures Reallocates(false, dataSize, size)
    ensures !Reallocates(true, size, size)
    ensures nextSize != size ==> Reallocates(true, size, nextSize)
  {
  }

  /** `oriSetBufferData`. A buffer without data, or whose recorded size differs
      from `size`, gets a new data store; otherwise the existing store is
      overwritten from offset 0. Below 4.5 the buffer is bound first and the
      previously bound buffer is bound back afterwards; from 4.5 on the named
      (direct state access) calls are used and no binding is touched. Either way
      the tracker's bindings end as they began. */
  method SetBufferData(st: Orion, b: Buffer, size: nat, usage: nat) returns (r: Outcome<Error>)
    requires st.Valid()
    modifies b, st.gl`boundBuffers, st.gl`calls
    ensures st.Valid()
    ensures r.Fail? <==> st.glVersion < 200
    ensures r.Fail? ==> r.error == GlVersTooLow && unchanged(b) && st.gl.calls == old(st.gl.calls)
    ensures r.Pass? ==> b.dataSet && b.dataSize == size
    ensures st.gl.boundBuffers == old(st.gl.boundBuffers)
    ensures r.Pass? && st.glVersion >= 450 ==>
      st.gl.calls == old(st.gl.calls) + [if Reallocates(old(b.dataSet), old(b.dataSize), size) then NamedBufferData(b.handle, size, usage)
                                         else NamedBufferSubData(b.handle, 0, size)]
    ensures r.Pass? && st.glVersion < 450 ==>
      st.gl.calls == old(st.gl.calls) + BindCalls(old(st.gl.boundBuffers), b.target, b.handle) +
        [if Reallocates(old(b.dataSet), old(b.dataSize), size) then Call.BufferData(b.target, size, usage)
         else BufferSubData(b.target, 0, size)] +
        if b.target in OrionGlad.BufferTargets
        then [Call.BindBuffer(b.target, OrionGlad.CurrentBufferAt(old(st.gl.boundBuffers), b.target))]
        else []
  {
    var check := AssertVersion(st.glVersion, 200);
    if check.Some? {
      return Fail(check.value);
    }
    var dsaEnabled := st.glVersion >= 450;
    var boundCache := 0;
    if !dsaEnabled {
      boundCache := OrionGlad.CurrentBufferAt(st.gl.boundBuffers, b.target);
      var _ := BindBuffer(st, b);
    }
    if !b.dataSet || b.dataSize != size {
      b.dataSize := size;
      if dsaEnabled {
        st.gl.Forward(NamedBufferData(b.handle, size, usage));
      } else {
        st.gl.Forward(Call.BufferData(b.target, size, usage));
      }
      b.dataSet := true;
      if !dsaEnabled {
        st.gl.BindBuffer(b.target, boundCache);
        if b.target in OrionGlad.BufferTargets {
          RestoreBinding(old(st.gl.boundBuffers), b.target, b.handle);
        }
      }
      return Pass;
    }
    if dsaEnabled {
      st.gl.Forward(NamedBufferSubData(b.handle, 0, size));
    } else {
      st.gl.Forward(BufferSubData(b.target, 0, size));
    }
    if !dsaEnabled {
      st.gl.BindBuffer(b.target, boundCache);
      if b.target in OrionGlad.BufferTargets {
        RestoreBinding(old(st.gl.boundBuffers), b.target, b.handle);
      }
    }
    r := Pass;
  }

  /** Binding a name at a slot and then binding back the slot's earlier value
      leaves the slots as they were. */
  lemma RestoreBinding(bound: seq<nat>, target: nat, name: nat)
    requires |bound| == |OrionGlad.BufferTargets| && target in OrionGlad.BufferTargets
    ensures var s := OrionGlad.BufferSlot(target).value;
      bound[s := name][s := OrionGlad.CurrentBufferAt(bound, target)] == bound
  {
    OrionGlad.BufferTargetsDistinct();
  }
}
