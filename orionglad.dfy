/** The bound-object tracker of orionglad.c: a shadow copy of the GL binding
    state, kept up to date by overrides of glBindBuffer, glDeleteBuffers,
    glBindTexture, glDeleteTextures, glBindVertexArray, glDeleteVertexArrays,
    glUseProgram and glDeleteProgram (the library's sources are redirected to
    these overrides by macros in orionglad.h). An override updates the shadow
    state and then forwards the call to the driver, except that a bind at an
    untracked target forwards nothing and the buffer and texture delete loops
    return at the first name no slot holds, before the driver's delete. */
module OrionGlad {
  import opened Wrappers
  import opened Gl

  /** The tracked buffer targets, in the field order of the buffer record. */
  const BufferTargets: seq<nat> :=
    [ARRAY_BUFFER, ATOMIC_COUNTER_BUFFER, COPY_READ_BUFFER, COPY_WRITE_BUFFER,
     DISPATCH_INDIRECT_BUFFER, DRAW_INDIRECT_BUFFER, ELEMENT_ARRAY_BUFFER, PIXEL_PACK_BUFFER,
     PIXEL_UNPACK_BUFFER, QUERY_BUFFER, SHADER_STORAGE_BUFFER, TEXTURE_BUFFER,
     TRANSFORM_FEEDBACK_BUFFER, UNIFORM_BUFFER]

  /** The tracked texture targets, in the field order of the texture record. */
  const TextureTargets: seq<nat> :=
    [TEXTURE_1D, TEXTURE_2D, TEXTURE_3D, TEXTURE_1D_ARRAY, TEXTURE_2D_ARRAY, TEXTURE_RECTANGLE,
     TEXTURE_CUBE_MAP, TEXTURE_CUBE_MAP_ARRAY, TEXTURE_BUFFER, TEXTURE_2D_MULTISAMPLE,
     TEXTURE_2D_MULTISAMPLE_ARRAY]

  /** Slot indices of the two multisample fields of the texture record. */
  const MultisampleSlot: nat := 9
  const MultisampleArraySlot: nat := 10

  lemma BufferTargetsDistinct()
    ensures forall i, j :: 0 <= i < j < |BufferTargets| ==> BufferTargets[i] != BufferTargets[j]
    ensures 0 !in BufferTargets
  {
  }

  lemma TextureTargetsDistinct()
    ensures forall i, j :: 0 <= i < j < |TextureTargets| ==> TextureTargets[i] != TextureTargets[j]
    ensures 0 !in TextureTargets
  {
  }

  /** `_oriCurrentBufferPtrAt`: the field a buffer target selects; None is the null pointer. */
  function BufferSlot(target: nat): (slot: Option<nat>)
    ensures slot.Some? <==> target in BufferTargets
    ensures slot.Some? ==> slot.value < |BufferTargets| && BufferTargets[slot.value] == target
  {
    if target == ARRAY_BUFFER then Some(0)
    else if target == ATOMIC_COUNTER_BUFFER then Some(1)
    else if target == COPY_READ_BUFFER then Some(2)
    else if target == COPY_WRITE_BUFFER then Some(3)
    else if target == DISPATCH_INDIRECT_BUFFER then Some(4)
    else if target == DRAW_INDIRECT_BUFFER then Some(5)
    else if target == ELEMENT_ARRAY_BUFFER then Some(6)
    else if target == PIXEL_PACK_BUFFER then Some(7)
    else if target == PIXEL_UNPACK_BUFFER then Some(8)
    else if target == QUERY_BUFFER then Some(9)
    else if target == SHADER_STORAGE_BUFFER then Some(10)
    else if target == TEXTURE_BUFFER then Some(11)
    else if target == TRANSFORM_FEEDBACK_BUFFER then Some(12)
    else if target == UNIFORM_BUFFER then Some(13)
    else None
  }

  /** Each of the 14 buffer targets has a slot of its own, and every other enum has none. */
  lemma BufferSlotsDistinct(t1: nat, t2: nat)
    requires BufferSlot(t1).Some? && t1 != t2
    ensures BufferSlot(t2) != BufferSlot(t1)
  {
  }

  /** `_oriCurrentTexturePtrAt`: the field a texture target selects; None is the null pointer.
      GL_TEXTURE_2D_MULTISAMPLE_ARRAY selects the GL_TEXTURE_2D_MULTISAMPLE field, so the
      multisample-array field is never selected. */
  function TextureSlot(target: nat): (slot: Option<nat>)
    ensures slot.Some? <==> target in TextureTargets
    ensures slot.Some? ==> slot.value < MultisampleArraySlot
    ensures slot.Some? && target != TEXTURE_2D_MULTISAMPLE_ARRAY ==> TextureTargets[slot.value] == target
    ensures target == TEXTURE_2D_MULTISAMPLE_ARRAY ==> slot == Some(MultisampleSlot)
  {
    if target == TEXTURE_1D then Some(0)
    else if target == TEXTURE_2D then Some(1)
    else if target == TEXTURE_3D then Some(2)
    else if target == TEXTURE_1D_ARRAY then Some(3)
    else if target == TEXTURE_2D_ARRAY then Some(4)
    else if target == TEXTURE_RECTANGLE then Some(5)
    else if target == TEXTURE_CUBE_MAP then Some(6)
    else if target == TEXTURE_CUBE_MAP_ARRAY then Some(7)
    else if target == TEXTURE_BUFFER then Some(8)
    else if target == TEXTURE_2D_MULTISAMPLE then Some(9)
    else if target == TEXTURE_2D_MULTISAMPLE_ARRAY then Some(9)
    else None
  }

  /** The two multisample targets share one slot. */
  lemma MultisampleTargetsAlias()
    ensures TextureSlot(TEXTURE_2D_MULTISAMPLE) == TextureSlot(TEXTURE_2D_MULTISAMPLE_ARRAY)
  {
  }

  /** The first position of `name` in `slots`, if any. */
  function FirstIndex(slots: seq<nat>, name: nat): (r: Option<nat>)
    ensures r.None? <==> name !in slots
    ensures r.Some? ==> r.value < |slots| && slots[r.value] == name && name !in slots[..r.value]
  {
    if slots == [] then None
    else if slots[0] == name then Some(0)
    else match FirstIndex(slots[1..], name)
      case None => None
      case Some(i) =>
        assert slots[..i + 1] == [slots[0]] + slots[1..][..i];
        Some(i + 1)
  }

  /** `orion_glCurrentBufferAt`: the buffer the tracker holds at `target`, 0 for an unknown target. */
  function CurrentBufferAt(bound: seq<nat>, target: nat): (name: nat)
    requires |bound| == |BufferTargets|
    ensures target !in BufferTargets ==> name == 0
    ensures forall i :: 0 <= i < |BufferTargets| && BufferTargets[i] == target ==> name == bound[i]
  {
    BufferTargetsDistinct();
    match BufferSlot(target)
    case None => 0
    case Some(i) => bound[i]
  }

  /** `orion_glCurrentTextureAt`: the texture the tracker holds at `target`, 0 for an unknown target. */
  function CurrentTextureAt(bound: seq<nat>, target: nat): (name: nat)
    requires |bound| == |TextureTargets|
    ensures target !in TextureTargets ==> name == 0
    ensures forall i :: 0 <= i < MultisampleArraySlot && TextureTargets[i] == target ==> name == bound[i]
    ensures target == TEXTURE_2D_MULTISAMPLE_ARRAY ==> name == bound[MultisampleSlot]
  {
    TextureTargetsDistinct();
    match TextureSlot(target)
    case None => 0
    case Some(i) => bound[i]
  }

  /** `orion_glGetBufferTarget`: the first target, in field order, whose slot holds
      `name`; 0 when no slot does. */
  function GetBufferTarget(bound: seq<nat>, name: nat): (target: nat)
    requires |bound| == |BufferTargets|
    ensures target == 0 <==> name !in bound
    ensures target != 0 ==> target in BufferTargets && CurrentBufferAt(bound, target) == name
    ensures target != 0 ==> name !in bound[..BufferSlot(target).value]
  {
    BufferTargetsDistinct();
    match FirstIndex(bound, name)
    case None => 0
    case Some(i) => BufferTargets[i]
  }

  /** `orion_glGetTextureTarget`: the first target, in field order, whose slot holds
      `name`; 0 when no slot does. A nonzero answer names a target whose lookup
      gives `name` back, except when only the never-written multisample-array
      field matched. */
  function GetTextureTarget(bound: seq<nat>, name: nat): (target: nat)
    requires |bound| == |TextureTargets|
    ensures target == 0 <==> name !in bound
    ensures target != 0 ==> target in TextureTargets
    ensures target != 0 && (target != TEXTURE_2D_MULTISAMPLE_ARRAY || bound[MultisampleSlot] == name)
      ==> CurrentTextureAt(bound, target) == name
    ensures target != 0 ==>
      && name !in bound[..FirstIndex(bound, name).value]
      && target == TextureTargets[FirstIndex(bound, name).value]
  {
    TextureTargetsDistinct();
    match FirstIndex(bound, name)
    case None => 0
    case Some(i) => TextureTargets[i]
  }

  /** The buffer slots after the loop of `orion_gladoverride_glDeleteBuffers`, and
      whether the loop ran to its end (only then is the driver's delete reached).
      Each name is looked up with `GetBufferTarget`; a name bound nowhere ends the
      loop at once. */
  function DeletedBuffers(bound: seq<nat>, names: seq<nat>): (r: (seq<nat>, bool))
    requires |bound| == |BufferTargets|
    ensures |r.0| == |bound|
    decreases |names|
  {
    if names == [] then (bound, true)
    else match BufferSlot(GetBufferTarget(bound, names[0]))
      case None => (bound, false)
      case Some(s) =>
        if bound[s] == names[0] then DeletedBuffers(bound[s := 0], names[1..])
        else DeletedBuffers(bound, names[1..])
  }

  /** The texture slots after the loop of `orion_gladoverride_glDeleteTextures`, and
      whether the loop ran to its end. */
  function DeletedTextures(bound: seq<nat>, names: seq<nat>): (r: (seq<nat>, bool))
    requires |bound| == |TextureTargets|
    ensures |r.0| == |bound|
    decreases |names|
  {
    if names == [] then (bound, true)
    else match TextureSlot(GetTextureTarget(bound, names[0]))
      case None => (bound, false)
      case Some(s) =>
        if bound[s] == names[0] then DeletedTextures(bound[s := 0], names[1..])
        else DeletedTextures(bound, names[1..])
  }

  /** Deleting buffers only ever clears slots: no slot receives a nonzero value. */
  lemma {:induction false} DeletedBuffersOnlyClear(bound: seq<nat>, names: seq<nat>, k: nat)
    requires |bound| == |BufferTargets| && k < |bound|
    ensures DeletedBuffers(bound, names).0[k] in {bound[k], 0}
    decreases |names|
  {
    if names != [] {
      match BufferSlot(GetBufferTarget(bound, names[0]))
      case None =>
      case Some(s) =>
        if bound[s] == names[0] {
          DeletedBuffersOnlyClear(bound[s := 0], names[1..], k);
        } else {
          DeletedBuffersOnlyClear(bound, names[1..], k);
        }
    }
  }

  /** Deleting textures only ever clears slots, so the multisample-array slot
      stays 0 once it is 0. */
  lemma {:induction false} DeletedTexturesOnlyClear(bound: seq<nat>, names: seq<nat>, k: nat)
    requires |bound| == |TextureTargets| && k < |bound|
    ensures DeletedTextures(bound, names).0[k] in {bound[k], 0}
    decreases |names|
  {
    if names != [] {
      match TextureSlot(GetTextureTarget(bound, names[0]))
      case None =>
      case Some(s) =>
        if bound[s] == names[0] {
          DeletedTexturesOnlyClear(bound[s := 0], names[1..], k);
        } else {
          DeletedTexturesOnlyClear(bound, names[1..], k);
        }
    }
  }

  /** At the first name bound nowhere the delete stops: the names after it are
      not processed and the driver's delete is not reached. */
  lemma DeleteBuffersStopsAtUnbound(bound: seq<nat>, name: nat, rest: seq<nat>)
    requires |bound| == |BufferTargets| && name !in bound
    ensures DeletedBuffers(bound, [name] + rest) == (bound, false)
  {
    assert ([name] + rest)[0] == name;
  }

  /** The same for textures. */
  lemma DeleteTexturesStopsAtUnbound(bound: seq<nat>, name: nat, rest: seq<nat>)
    requires |bound| == |TextureTargets| && name !in bound
    ensures DeletedTextures(bound, [name] + rest) == (bound, false)
  {
    assert ([name] + rest)[0] == name;
  }

  /** One step of the buffer delete loop for a bound name: exactly the first slot
      holding it is cleared (another target holding the same name keeps it), and
      the loop goes on with the remaining names. With
      `DeleteBuffersStopsAtUnbound` this decides the loop for every input. */
  lemma DeleteBufferClearsFirstOnly(bound: seq<nat>, name: nat, rest: seq<nat>)
    requires |bound| == |BufferTargets| && name in bound
    ensures var i := FirstIndex(bound, name).value;
      DeletedBuffers(bound, [name] + rest) == DeletedBuffers(bound[i := 0], rest)
  {
    var i := FirstIndex(bound, name).value;
    BufferTargetsDistinct();
    assert BufferSlot(BufferTargets[i]) == Some(i);
    assert ([name] + rest)[0] == name && ([name] + rest)[1..] == rest;
  }

  /** One step of the texture delete loop for a bound name: the first slot holding
      it is cleared and the loop goes on. When that first slot is the never-written
      multisample-array field, the lookup answers the multisample-array target,
      whose slot is the multisample field, which does not hold the name: nothing
      is cleared. */
  lemma DeleteTextureClearsFirstOnly(bound: seq<nat>, name: nat, rest: seq<nat>)
    requires |bound| == |TextureTargets| && name in bound
    ensures var i := FirstIndex(bound, name).value;
      DeletedTextures(bound, [name] + rest) ==
        if i < MultisampleArraySlot then DeletedTextures(bound[i := 0], rest)
        else DeletedTextures(bound, rest)
  {
    var i := FirstIndex(bound, name).value;
    TextureTargetsDistinct();
    assert ([name] + rest)[0] == name && ([name] + rest)[1..] == rest;
    if i < MultisampleArraySlot {
      assert TextureSlot(TextureTargets[i]) == Some(i);
    } else {
      assert bound[MultisampleSlot] != name by {
        assert bound[..i][MultisampleSlot] == bound[MultisampleSlot];
      }
    }
  }

  /** The calls that orionglad.h redirects to the tracker's overrides. */
  predicate Redirected(c: Call) {
    || c.BindBuffer? || c.DeleteBuffers? || c.BindTexture? || c.DeleteTextures?
    || c.BindVertexArray? || c.DeleteVertexArrays? || c.UseProgram? || c.DeleteProgram?
  }

  /** The tracker's state: the currently bound buffers and textures (one slot per
      field of the tracker's records), the current vertex array and the current
      program. `calls` and `nextName` stand for the GL driver behind the tracker:
      the log of calls it received and its supply of fresh object names. */
  class Tracker {
    var boundBuffers: seq<nat>
    var boundTextures: seq<nat>
    var vertexArray: nat
    var program: nat
    var calls: seq<Call>
    var nextName: nat

    /** Slot counts match the records; the multisample-array field is never
        written, so it keeps its initial 0; the driver never hands out name 0. */
    ghost predicate Valid()
      reads this
    {
      && |boundBuffers| == |BufferTargets|
      && |boundTextures| == |TextureTargets|
      && boundTextures[MultisampleArraySlot] == 0
      && 0 < nextName
    }

    /** All records start zeroed; the driver has received nothing. */
    constructor ()
      ensures Valid()
      ensures boundBuffers == seq(|BufferTargets|, _ => 0)
      ensures boundTextures == seq(|TextureTargets|, _ => 0)
      ensures vertexArray == 0 && program == 0 && calls == []
    {
      boundBuffers := seq(|BufferTargets|, _ => 0);
      boundTextures := seq(|TextureTargets|, _ => 0);
      vertexArray := 0;
      program := 0;
      calls := [];
      nextName := 1;
    }

    /** `orion_gladoverride_glBindBuffer`: a known target's slot becomes `buffer` and
        the call is forwarded; an unknown target changes nothing and is not forwarded. */
    method BindBuffer(target: nat, buffer: nat)
      requires Valid()
      modifies this`boundBuffers, this`calls
      ensures Valid()
      ensures target in BufferTargets ==>
        && boundBuffers == old(boundBuffers)[BufferSlot(target).value := buffer]
        && calls == old(calls) + [Call.BindBuffer(target, buffer)]
      ensures target !in BufferTargets ==> boundBuffers == old(boundBuffers) && calls == old(calls)
    {
      var slot := BufferSlot(target);
      if slot.None? {
        return;
      }
      boundBuffers := boundBuffers[slot.value := buffer];
      calls := calls + [Call.BindBuffer(target, buffer)];
    }

    /** `orion_gladoverride_glDeleteBuffers`. */
    method DeleteBuffers(names: seq<nat>)
      requires Valid()
      modifies this`boundBuffers, this`calls
      ensures Valid()
      ensures boundBuffers == DeletedBuffers(old(boundBuffers), names).0
      ensures calls == old(calls) + if DeletedBuffers(old(boundBuffers), names).1 then [Call.DeleteBuffers(names)] else []
    {
      var i := 0;
      while i < |names|
        invariant 0 <= i <= |names| && |boundBuffers| == |BufferTargets|
        invariant DeletedBuffers(old(boundBuffers), names) == DeletedBuffers(boundBuffers, names[i..])
        invariant calls == old(calls)
      {
        assert names[i..][0] == names[i] && names[i..][1..] == names[i + 1..];
        var target := GetBufferTarget(boundBuffers, names[i]);
        var slot := BufferSlot(target);
        if slot.None? {
          return;
        }
        if boundBuffers[slot.value] == names[i] {
          boundBuffers := boundBuffers[slot.value := 0];
        }
        i := i + 1;
      }
      calls := calls + [Call.DeleteBuffers(names)];
    }

    /** `orion_gladoverride_glBindTexture`: a known target's slot becomes `texture` and
        the call is forwarded; an unknown target changes nothing and is not forwarded. */
    method BindTexture(target: nat, texture: nat)
      requires Valid()
      modifies this`boundTextures, this`calls
      ensures Valid()
      ensures target in TextureTargets ==>
        && boundTextures == old(boundTextures)[TextureSlot(target).value := texture]
        && calls == old(calls) + [Call.BindTexture(target, texture)]
      ensures target !in TextureTargets ==> boundTextures == old(boundTextures) && calls == old(calls)
    {
      var slot := TextureSlot(target);
      if slot.None? {
        return;
      }
      boundTextures := boundTextures[slot.value := texture];
      calls := calls + [Call.BindTexture(target, texture)];
    }

    /** `orion_gladoverride_glDeleteTextures`. */
    method DeleteTextures(names: seq<nat>)
      requires Valid()
      modifies this`boundTextures, this`calls
      ensures Valid()
      ensures boundTextures == DeletedTextures(old(boundTextures), names).0
      ensures calls == old(calls) + if DeletedTextures(old(boundTextures), names).1 then [Call.DeleteTextures(names)] else []
    {
      var i := 0;
      while i < |names|
        invariant 0 <= i <= |names| && |boundTextures| == |TextureTargets|
        invariant boundTextures[MultisampleArraySlot] == 0
        invariant DeletedTextures(old(boundTextures), names) == DeletedTextures(boundTextures, names[i..])
        invariant calls == old(calls)
      {
        assert names[i..][0] == names[i] && names[i..][1..] == names[i + 1..];
        var target := GetTextureTarget(boundTextures, names[i]);
        var slot := TextureSlot(target);
        if slot.None? {
          return;
        }
        if boundTextures[slot.value] == names[i] {
          boundTextures := boundTextures[slot.value := 0];
        }
        i := i + 1;
      }
      calls := calls + [Call.DeleteTextures(names)];
    }

    /** `orion_gladoverride_glBindVertexArray`. */
    method BindVertexArray(vao: nat)
      requires Valid()
      modifies this`vertexArray, this`calls
      ensures Valid()
      ensures vertexArray == vao && calls == old(calls) + [Call.BindVertexArray(vao)]
    {
      vertexArray := vao;
      calls := calls + [Call.BindVertexArray(vao)];
    }

    /** `orion_gladoverride_glDeleteVertexArrays`: the current vertex array drops to 0
        exactly when it is among the deleted names; the call is always forwarded. */
    method DeleteVertexArrays(arrays: seq<nat>)
      requires Valid()
      modifies this`vertexArray, this`calls
      ensures Valid()
      ensures vertexArray == if old(vertexArray) in arrays then 0 else old(vertexArray)
      ensures calls == old(calls) + [Call.DeleteVertexArrays(arrays)]
    {
      for i := 0 to |arrays|
        invariant vertexArray == if old(vertexArray) in arrays[..i] then 0 else old(vertexArray)
        invariant calls == old(calls)
      {
        assert arrays[..i + 1] == arrays[..i] + [arrays[i]];
        if vertexArray == arrays[i] {
          vertexArray := 0;
        }
      }
      assert arrays[..|arrays|] == arrays;
      calls := calls + [Call.DeleteVertexArrays(arrays)];
    }

    /** `orion_gladoverride_glUseProgram`. */
    method UseProgram(p: nat)
      requires Valid()
      modifies this`program, this`calls
      ensures Valid()
      ensures program == p && calls == old(calls) + [Call.UseProgram(p)]
    {
      program := p;
      calls := calls + [Call.UseProgram(p)];
    }

    /** `orion_gladoverride_glDeleteProgram`: the current program drops to 0 exactly
        when it is the deleted one; the call is always forwarded. */
    method DeleteProgram(p: nat)
      requires Valid()
      modifies this`program, this`calls
      ensures Valid()
      ensures program == if old(program) == p then 0 else old(program)
      ensures calls == old(calls) + [Call.DeleteProgram(p)]
    {
      if program == p {
        program := 0;
      }
      calls := calls + [Call.DeleteProgram(p)];
    }

    /** A call the library makes to the driver directly, without the tracker:
        one of the calls the macros do not redirect. */
    method Forward(c: Call)
      requires Valid() && !Redirected(c)
      modifies this`calls
      ensures Valid() && calls == old(calls) + [c]
    {
      calls := calls + [c];
    }

    /** A glGen or glCreate call: the driver hands out a fresh, nonzero name. */
    method NewName(gen: nat -> Call) returns (name: nat)
      requires Valid()
      modifies this`calls, this`nextName
      ensures Valid()
      ensures name == old(nextName) && 0 < name && nextName == name + 1
      ensures calls == old(calls) + [gen(name)]
    {
      name := nextName;
      nextName := nextName + 1;
      calls := calls + [gen(name)];
    }
  }
}
