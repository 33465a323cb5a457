/** src/textures.c: managed GL texture objects. */
module Textures {
  import opened Wrappers
  import opened Gl
  import opened Errors
  import opened State
  import OrionGlad

  /** Whether `target` is one of the two multisample targets, which need GL 3.2. */
  predicate IsMultisample(target: nat)
  {
    target == TEXTURE_2D_MULTISAMPLE || target == TEXTURE_2D_MULTISAMPLE_ARRAY
  }

  /** The checks `oriCreateTexture` makes before allocating: version 2.0, then the
      initialisation flag, then version 3.2 for the multisample targets. */
  function CreateCheck(initialised: bool, glVersion: nat, target: nat): (r: Option<Error>)
    ensures r.None? <==> initialised && glVersion >= if IsMultisample(target) then 320 else 200
    ensures r == Some(NotInit) <==> !initialised && 200 <= glVersion
    ensures r.Some? && r.value != NotInit ==> r.value == GlVersTooLow
  {
    if AssertVersion(glVersion, 200).Some? then AssertVersion(glVersion, 200)
    else if !initialised then Some(NotInit)
    else if IsMultisample(target) then AssertVersion(glVersion, 320)
    else None
  }

  /** `oriCreateTexture`: a fresh texture of type `target` with every dimension 0
      and mutable storage, named by glCreateTextures at 4.5 and above and by
      glGenTextures below, pushed at the head of the texture list. */
  method CreateTexture(st: Orion, target: nat, internalFormat: nat) returns (r: Result<Texture, Error>)
    requires st.Valid()
    modifies st`textureList, st.gl`calls, st.gl`nextName
    ensures st.Valid()
    ensures r.Failure? <==> CreateCheck(st.initialised, st.glVersion, target).Some?
    ensures r.Failure? ==>
      && r.error == CreateCheck(st.initialised, st.glVersion, target).value
      && st.textureList == old(st.textureList) && st.gl.calls == old(st.gl.calls)
      && st.gl.nextName == old(st.gl.nextName)
    ensures r.Success? ==>
      && fresh(r.value) && r.value.textureType == target && r.value.internalFormat == internalFormat
      && r.value.width == 0 && r.value.height == 0 && r.value.depth == 0 && r.value.colourDepth == 0
      && r.value.levels == 0 && r.value.samples == 0 && !r.value.immutableStorage
      && r.value.handle == old(st.gl.nextName)
      && st.textureList == [r.value] + old(st.textureList)
      && st.gl.calls == old(st.gl.calls) +
        [if st.glVersion >= 450 then CreateTextures(target, r.value.handle) else GenTextures(r.value.handle)]
  {
    var check := CreateCheck(st.initialised, st.glVersion, target);
    if check.Some? {
      return Failure(check.value);
    }
    var handle;
    if st.glVersion >= 450 {
      handle := st.gl.NewName((n: nat) => CreateTextures(target, n));
    } else {
      handle := st.gl.NewName((n: nat) => GenTextures(n));
    }
    var t := new Texture(handle, target, internalFormat);
    st.textureList := [t] + st.textureList;
    r := Success(t);
  }

  /** Which glTexStorage function `oriCreateTextureImmutable` picks for a target:
      0 for 1D, 1 for 2D, 2 for 3D storage, 3 and 4 for the 2D and 3D multisample
      storage; a target outside the texture targets has none. */
  function StorageKind(target: nat): (kind: Option<nat>)
    ensures kind.Some? <==> target in OrionGlad.TextureTargets && target != TEXTURE_BUFFER
    ensures kind == Some(0) <==> target == TEXTURE_1D
    ensures kind == Some(1) <==> target in {TEXTURE_2D, TEXTURE_RECTANGLE, TEXTURE_CUBE_MAP, TEXTURE_1D_ARRAY}
    ensures kind == Some(2) <==> target in {TEXTURE_3D, TEXTURE_2D_ARRAY, TEXTURE_CUBE_MAP_ARRAY}
    ensures kind == Some(3) <==> target == TEXTURE_2D_MULTISAMPLE
    ensures kind == Some(4) <==> target == TEXTURE_2D_MULTISAMPLE_ARRAY
  {
    if target == TEXTURE_1D then Some(0)
    else if target == TEXTURE_2D || target == TEXTURE_RECTANGLE || target == TEXTURE_CUBE_MAP || target == TEXTURE_1D_ARRAY then Some(1)
    else if target == TEXTURE_3D || target == TEXTURE_2D_ARRAY || target == TEXTURE_CUBE_MAP_ARRAY then Some(2)
    else if target == TEXTURE_2D_MULTISAMPLE then Some(3)
    else if target == TEXTURE_2D_MULTISAMPLE_ARRAY then Some(4)
    else None
  }

  /** Whether immutable creation reaches the storage call: only kinds 0 to 2 do;
      the multisample kinds and unknown targets return straight after creation. */
  predicate AllocatesStorage(target: nat)
  {
    StorageKind(target).Some? && StorageKind(target).value < 3
  }

  /** Every target that gets storage has its own tracker slot, so the bind and the
      bind back both reach the tracker. */
  lemma StorageTargetsAreTracked(target: nat)
    requires AllocatesStorage(target)
    ensures OrionGlad.TextureSlot(target).Some?
    ensures OrionGlad.TextureTargets[OrionGlad.TextureSlot(target).value] == target
  {
  }

  /** The storage call for a target that gets storage: the named (direct state
      access) form at 4.5 and above, the target form below. */
  function StorageCall(target: nat, dsa: bool, handle: nat, levels: nat, internalFormat: nat,
                       width: nat, height: nat, depth: nat): (c: Call)
    requires AllocatesStorage(target)
    ensures dsa ==> (c.TextureStorage1D? || c.TextureStorage2D? || c.TextureStorage3D?) && c.texture == handle
    ensures !dsa ==> (c.TexStorage1D? || c.TexStorage2D? || c.TexStorage3D?) && c.target == target
    ensures
      && (c.TexStorage1D? || c.TexStorage2D? || c.TexStorage3D? || c.TextureStorage1D? || c.TextureStorage2D? || c.TextureStorage3D?)
      && c.levels == levels && c.internalFormat == internalFormat && c.width == width
    ensures (c.TexStorage2D? || c.TextureStorage2D? || c.TexStorage3D? || c.TextureStorage3D?) ==> c.height == height
    ensures (c.TexStorage3D? || c.TextureStorage3D?) ==> c.depth == depth
    ensures target == TEXTURE_1D <==> c.TexStorage1D? || c.TextureStorage1D?
    ensures target in {TEXTURE_3D, TEXTURE_2D_ARRAY, TEXTURE_CUBE_MAP_ARRAY} <==> c.TexStorage3D? || c.TextureStorage3D?
  {
    match StorageKind(target).value
    case 0 => if dsa then TextureStorage1D(handle, levels, internalFormat, width)
              else TexStorage1D(target, levels, internalFormat, width)
    case 1 => if dsa then TextureStorage2D(handle, levels, internalFormat, width, height)
              else TexStorage2D(target, levels, internalFormat, width, height)
    case _ => if dsa then TextureStorage3D(handle, levels, internalFormat, width, height, depth)
              else TexStorage3D(target, levels, internalFormat, width, height, depth)
  }

  /** Binding a name at a texture slot and then the slot's earlier value leaves
      the slots as they were. */
  lemma RestoreBinding(bound: seq<nat>, target: nat, name: nat)
    requires |bound| == |OrionGlad.TextureTargets| && target in OrionGlad.TextureTargets
    ensures var s := OrionGlad.TextureSlot(target).value;
      bound[s := name][s := OrionGlad.CurrentTextureAt(bound, target)] == bound
  {
    OrionGlad.TextureTargetsDistinct();
  }

  /** `oriCreateTextureImmutable`. Version 4.2 is asserted first, so it fails
      exactly when the version is below 4.2 or the library is not initialised.
      The new texture is always marked immutable; for 1D, 2D and 3D storage the
      dimensions, levels and samples are stored as passed and the storage call is
      made, bound and bound back below 4.5 so the tracker ends as it began. The
      multisample and unknown targets return right after creation with every
      dimension 0. */
  method CreateTextureImmutable(st: Orion, target: nat, width: nat, height: nat, depth: nat,
                                internalFormat: nat, levels: nat, samples: nat, fixedSampleLocations: bool)
    returns (r: Result<Texture, Error>)
    requires st.Valid()
    modifies st`textureList, st.gl`boundTextures, st.gl`calls, st.gl`nextName
    ensures st.Valid()
    ensures r.Failure? <==> st.glVersion < 420 || !st.initialised
    ensures r.Failure? ==>
      && r.error == (if st.glVersion < 420 then GlVersTooLow else NotInit)
      && st.textureList == old(st.textureList) && st.gl.calls == old(st.gl.calls)
      && st.gl.nextName == old(st.gl.nextName)
    ensures st.gl.boundTextures == old(st.gl.boundTextures)
    ensures r.Success? ==>
      && fresh(r.value) && r.value.immutableStorage
      && r.value.textureType == target && r.value.internalFormat == internalFormat
      && r.value.handle == old(st.gl.nextName) && r.value.colourDepth == 0
      && st.textureList == [r.value] + old(st.textureList)
    ensures r.Success? && AllocatesStorage(target) ==>
      && r.value.width == width && r.value.height == height && r.value.depth == depth
      && r.value.levels == levels && r.value.samples == samples
      && st.gl.calls == old(st.gl.calls) +
        if st.glVersion >= 450 then
          [CreateTextures(target, r.value.handle),
           StorageCall(target, true, r.value.handle, levels, internalFormat, width, height, depth)]
        else
          [GenTextures(r.value.handle), Call.BindTexture(target, r.value.handle),
           StorageCall(target, false, r.value.handle, levels, internalFormat, width, height, depth),
           Call.BindTexture(target, OrionGlad.CurrentTextureAt(old(st.gl.boundTextures), target))]
    ensures r.Success? && !AllocatesStorage(target) ==>
      && r.value.width == 0 && r.value.height == 0 && r.value.depth == 0
      && r.value.levels == 0 && r.value.samples == 0
      && st.gl.calls == old(st.gl.calls) +
        [if st.glVersion >= 450 then CreateTextures(target, r.value.handle) else GenTextures(r.value.handle)]
  {
    var check := AssertVersion(st.glVersion, 420);
    if check.Some? {
      return Failure(check.value);
    }
    r := CreateTexture(st, target, internalFormat);
    if r.Failure? {
      return;
    }
    var t := r.value;
    t.immutableStorage := true;
    if !AllocatesStorage(target) {
      return;
    }
    AllocateStorage(st, t, width, height, depth, internalFormat, levels, samples);
  }

  /** The storage step of `oriCreateTextureImmutable` for a target that gets
      storage: the sizes are recorded and one storage call is made; below 4.5
      the texture is bound around it and the previous binding restored. */
  method AllocateStorage(st: Orion, t: Texture, width: nat, height: nat, depth: nat,
                         internalFormat: nat, levels: nat, samples: nat)
    requires st.Valid() && AllocatesStorage(t.textureType)
    modifies t`width, t`height, t`depth, t`levels, t`samples, st.gl`boundTextures, st.gl`calls
    ensures st.Valid()
    ensures t.width == width && t.height == height && t.depth == depth && t.levels == levels && t.samples == samples
    ensures st.gl.boundTextures == old(st.gl.boundTextures)
    ensures st.gl.calls == old(st.gl.calls) +
      if st.glVersion >= 450 then
        [StorageCall(t.textureType, true, t.handle, levels, internalFormat, width, height, depth)]
      else
        [Call.BindTexture(t.textureType, t.handle),
         StorageCall(t.textureType, false, t.handle, levels, internalFormat, width, height, depth),
         Call.BindTexture(t.textureType, OrionGlad.CurrentTextureAt(old(st.gl.boundTextures), t.textureType))]
  {
    StorageTargetsAreTracked(t.textureType);
    var dsa := st.glVersion >= 450;
    var boundCache := 0;
    if !dsa {
      boundCache := OrionGlad.CurrentTextureAt(st.gl.boundTextures, t.textureType);
      st.gl.BindTexture(t.textureType, t.handle);
    }
    t.width, t.height, t.depth, t.levels, t.samples := width, height, depth, levels, samples;
    st.gl.Forward(StorageCall(t.textureType, dsa, t.handle, levels, internalFormat, width, height, depth));
    if !dsa {
      st.gl.BindTexture(t.textureType, boundCache);
      RestoreBinding(old(st.gl.boundTextures), t.textureType, t.handle);
    }
  }

  /** `oriFreeTexture`: as for buffers, the search loop needs the texture to be
      listed, the head becomes the texture's successor, and glDeleteTextures
      goes through the tracker. */
  method FreeTexture(st: Orion, t: Texture) returns (r: Outcome<Error>)
    requires st.Valid() && t in st.textureList
    modifies st`textureList, st.gl`boundTextures, st.gl`calls
    ensures st.Valid()
    ensures r.Fail? <==> st.glVersion < 200
    ensures r.Fail? ==>
      && r.error == GlVersTooLow && st.textureList == old(st.textureList)
      && st.gl.boundTextures == old(st.gl.boundTextures) && st.gl.calls == old(st.gl.calls)
    ensures r.Pass? ==>
      && st.textureList == SuffixAfter(old(st.textureList), t)
      && var (bound, deleted) := OrionGlad.DeletedTextures(old(st.gl.boundTextures), [t.handle]);
         st.gl.boundTextures == bound
         && st.gl.calls == old(st.gl.calls) + if deleted then [Call.DeleteTextures([t.handle])] else []
  {
    var check := AssertVersion(st.glVersion, 200);
    if check.Some? {
      return Fail(check.value);
    }
    var i := 0;
    while st.textureList[i] != t
      invariant 0 <= i < |st.textureList| && t !in st.textureList[..i] && t in st.textureList[i..]
      decreases |st.textureList| - i
    {
      assert st.textureList[..i + 1] == st.textureList[..i] + [st.textureList[i]];
      i := i + 1;
    }
    assert IndexOf(st.textureList, t) == i;
    st.textureList := st.textureList[i + 1..];
    st.gl.DeleteTextures([t.handle]);
    r := Pass;
  }

  /** `oriBindTexture`: whatever `unit` is asked for, nothing happens when the
      tracker already holds the texture at its type. Otherwise the unit is made
      active and the bind goes through the tracker, after which the texture is
      current at its type. */
  method BindTexture(st: Orion, t: Texture, unit: nat) returns (r: Outcome<Error>)
    requires st.Valid()
    modifies st.gl`boundTextures, st.gl`calls
    ensures st.Valid()
    ensures r.Fail? <==> st.glVersion < 200
    ensures r.Fail? ==>
      && r.error == GlVersTooLow
      && st.gl.boundTextures == old(st.gl.boundTextures) && st.gl.calls == old(st.gl.calls)
    ensures r.Pass? && OrionGlad.CurrentTextureAt(old(st.gl.boundTextures), t.textureType) == t.handle ==>
      st.gl.boundTextures == old(st.gl.boundTextures) && st.gl.calls == old(st.gl.calls)
    ensures r.Pass? && OrionGlad.CurrentTextureAt(old(st.gl.boundTextures), t.textureType) != t.handle ==>
      && st.gl.boundTextures == (if t.textureType in OrionGlad.TextureTargets
                                 then old(st.gl.boundTextures)[OrionGlad.TextureSlot(t.textureType).value := t.handle]
                                 else old(st.gl.boundTextures))
      && st.gl.calls == old(st.gl.calls) + [ActiveTexture(TEXTURE0 + unit)] +
                        if t.textureType in OrionGlad.TextureTargets then [Call.BindTexture(t.textureType, t.handle)] else []
    ensures r.Pass? && t.textureType in OrionGlad.TextureTargets ==>
      OrionGlad.CurrentTextureAt(st.gl.boundTextures, t.textureType) == t.handle
  {
    var check := AssertVersion(st.glVersion, 200);
    if check.Some? {
      return Fail(check.value);
    }
    OrionGlad.TextureTargetsDistinct();
    if OrionGlad.CurrentTextureAt(st.gl.boundTextures, t.textureType) == t.handle {
      return Pass;
    }
    st.gl.Forward(ActiveTexture(TEXTURE0 + unit));
    st.gl.BindTexture(t.textureType, t.handle);
    r := Pass;
  }

  /** `oriGetTextureProperty`: each requested property is reported from the
      record, one not requested (a null output pointer) is not written, and
      nothing changes. */
  method GetTextureProperty(t: Texture, wantType: bool, wantWidth: bool, wantHeight: bool,
                            wantDepth: bool, wantColourDepth: bool)
    returns (textureType: Option<nat>, width: Option<nat>, height: Option<nat>,
             depth: Option<nat>, colourDepth: Option<nat>)
    ensures textureType == if wantType then Some(t.textureType) else None
    ensures width == if wantWidth then Some(t.width) else None
    ensures height == if wantHeight then Some(t.height) else None
    ensures depth == if wantDepth then Some(t.depth) else None
    ensures colourDepth == if wantColourDepth then Some(t.colourDepth) else None
  {
    textureType, width, height, depth, colourDepth := None, None, None, None, None;
    if wantType { textureType := Some(t.textureType); }
    if wantWidth { width := Some(t.width); }
    if wantHeight { height := Some(t.height); }
    if wantDepth { depth := Some(t.depth); }
    if wantColourDepth { colourDepth := Some(t.colourDepth); }
  }

  /** Which glTexImage function `oriUploadTexImagePath` picks: 0 for 1D, 1 for
      2D; 3D, array, multisample and unknown types are not uploaded. */
  function ImageKind(target: nat): (kind: Option<nat>)
    ensures kind.Some? ==> kind.value < 2
  {
    if target == TEXTURE_1D then Some(0)
    else if target == TEXTURE_2D || target == TEXTURE_RECTANGLE || target == TEXTURE_CUBE_MAP || target == TEXTURE_1D_ARRAY then Some(1)
    else None
  }

  /** The upload classification is the storage classification cut down to its
      first two kinds. */
  lemma ImageKindIsStorageKind(target: nat)
    ensures ImageKind(target).Some? <==> StorageKind(target) == Some(0) || StorageKind(target) == Some(1)
    ensures ImageKind(target).Some? ==> ImageKind(target) == StorageKind(target)
  {
  }

  /** The image call of an upload: a sub-image into immutable storage (named form
      at 4.5 and above), or a new image for mutable storage. */
  function ImageCall(t: nat, kind: nat, immutable: bool, dsa: bool, handle: nat, internalFormat: nat,
                     width: nat, height: nat, imageFormat: nat): (c: Call)
    ensures immutable <==> c.TexSubImage1D? || c.TexSubImage2D? || c.TextureSubImage1D? || c.TextureSubImage2D?
    ensures c.TextureSubImage1D? || c.TextureSubImage2D? <==> immutable && dsa
    ensures kind == 0 <==> c.TexImage1D? || c.TexSubImage1D? || c.TextureSubImage1D?
    ensures
      && (c.TexImage1D? || c.TexImage2D? || c.TexSubImage1D? || c.TexSubImage2D? || c.TextureSubImage1D? || c.TextureSubImage2D?)
      && c.width == width && c.format == imageFormat
    ensures (c.TexImage2D? || c.TexSubImage2D? || c.TextureSubImage2D?) ==> c.height == height
    ensures (c.TextureSubImage1D? || c.TextureSubImage2D?) ==> c.texture == handle
    ensures (c.TexImage1D? || c.TexImage2D? || c.TexSubImage1D? || c.TexSubImage2D?) ==> c.target == t
    ensures (c.TexImage1D? || c.TexImage2D?) ==> c.internalFormat == internalFormat
  {
    if immutable then
      if kind == 0 then
        if dsa then TextureSubImage1D(handle, width, imageFormat) else TexSubImage1D(t, width, imageFormat)
      else
        if dsa then TextureSubImage2D(handle, width, height, imageFormat) else TexSubImage2D(t, width, height, imageFormat)
    else
      if kind == 0 then TexImage1D(t, internalFormat, width, imageFormat)
      else TexImage2D(t, internalFormat, width, height, imageFormat)
  }

  /** The image step of an upload, between the bind and the mipmap generation:
      immutable storage receives a sub-image and keeps its dimensions; mutable
      storage is bound at 4.5 and above (there is no named form of glTexImage)
      and re-specified, recording the new width, and height for 2D. */
  method SpecifyImage(st: Orion, t: Texture, kind: nat, imageWidth: nat, imageHeight: nat, imageFormat: nat)
    requires st.Valid() && ImageKind(t.textureType) == Some(kind)
    modifies t`width, t`height, st.gl`boundTextures, st.gl`calls
    ensures st.Valid()
    ensures t.immutableStorage ==> t.width == old(t.width) && t.height == old(t.height)
    ensures !t.immutableStorage ==> t.width == imageWidth
    ensures !t.immutableStorage ==> t.height == if kind == 1 then imageHeight else old(t.height)
    ensures st.gl.boundTextures ==
      if st.glVersion >= 450 && !t.immutableStorage
      then old(st.gl.boundTextures)[OrionGlad.TextureSlot(t.textureType).value := t.handle]
      else old(st.gl.boundTextures)
    ensures st.gl.calls == old(st.gl.calls) +
      (if st.glVersion >= 450 && !t.immutableStorage then [Call.BindTexture(t.textureType, t.handle)] else []) +
      [ImageCall(t.textureType, kind, t.immutableStorage, st.glVersion >= 450, t.handle, t.internalFormat,
                 imageWidth, imageHeight, imageFormat)]
  {
    ImageKindIsStorageKind(t.textureType);
    StorageTargetsAreTracked(t.textureType);
    var dsa := st.glVersion >= 450;
    if t.immutableStorage {
      st.gl.Forward(ImageCall(t.textureType, kind, true, dsa, t.handle, t.internalFormat,
                              imageWidth, imageHeight, imageFormat));
      return;
    }
    if dsa {
      st.gl.BindTexture(t.textureType, t.handle);
    }
    st.gl.Forward(ImageCall(t.textureType, kind, false, dsa, t.handle, t.internalFormat,
                            imageWidth, imageHeight, imageFormat));
    if kind == 0 {
      t.width := imageWidth;
    } else {
      t.width := imageWidth;
      t.height := imageHeight;
    }
  }

  /** The upload below 4.5, where there are no named calls: the texture is bound,
      its image specified and its mipmaps generated, and then the previous
      binding is restored, so the tracker's slots end as they began. */
  method UploadBelowDsa(st: Orion, t: Texture, kind: nat, imageWidth: nat, imageHeight: nat, imageFormat: nat)
    requires st.Valid() && ImageKind(t.textureType) == Some(kind) && st.glVersion < 450
    modifies t`width, t`height, st.gl`boundTextures, st.gl`calls
    ensures st.Valid()
    ensures t.immutableStorage ==> t.width == old(t.width) && t.height == old(t.height)
    ensures !t.immutableStorage ==> t.width == imageWidth
    ensures !t.immutableStorage ==> t.height == if kind == 1 then imageHeight else old(t.height)
    ensures st.gl.boundTextures == old(st.gl.boundTextures)
    ensures st.gl.calls == old(st.gl.calls) +
      [Call.BindTexture(t.textureType, t.handle),
       ImageCall(t.textureType, kind, t.immutableStorage, false, t.handle, t.internalFormat,
                 imageWidth, imageHeight, imageFormat),
       GenerateMipmap(t.textureType),
       Call.BindTexture(t.textureType, OrionGlad.CurrentTextureAt(old(st.gl.boundTextures), t.textureType))]
  {
    ImageKindIsStorageKind(t.textureType);
    StorageTargetsAreTracked(t.textureType);
    var boundCache := OrionGlad.CurrentTextureAt(st.gl.boundTextures, t.textureType);
    st.gl.BindTexture(t.textureType, t.handle);
    SpecifyImage(st, t, kind, imageWidth, imageHeight, imageFormat);
    st.gl.Forward(GenerateMipmap(t.textureType));
    st.gl.BindTexture(t.textureType, boundCache);
    RestoreBinding(old(st.gl.boundTextures), t.textureType, t.handle);
  }

  /** The record and tracker updates of `oriUploadTexImagePath`. Decoding the
      file is outside the model: `imageWidth`, `imageHeight` and `channels` are
      what the loader reported. 3D, array, multisample and unknown types leave
      everything as it was. Otherwise the channel count becomes the colour depth;
      mutable storage is re-specified, which records the new width (and height,
      for 2D); immutable storage keeps its dimensions. Below 4.5 the texture is
      bound for the upload and the previous binding restored; at 4.5 and above a
      mutable upload leaves the texture bound at its type. */
  method UploadTexImagePath(st: Orion, t: Texture, imageWidth: nat, imageHeight: nat,
                            channels: nat, imageFormat: nat) returns (r: Outcome<Error>)
    requires st.Valid()
    modifies t, st.gl`boundTextures, st.gl`calls
    ensures st.Valid()
    ensures r.Fail? <==> st.glVersion < 200
    ensures r.Fail? ==> r.error == GlVersTooLow
    ensures r.Fail? || ImageKind(t.textureType).None? ==>
      && unchanged(t)
      && st.gl.boundTextures == old(st.gl.boundTextures) && st.gl.calls == old(st.gl.calls)
    ensures r.Pass? && ImageKind(t.textureType).Some? ==>
      && t.colourDepth == channels
      && t.depth == old(t.depth) && t.levels == old(t.levels) && t.samples == old(t.samples)
      && t.immutableStorage == old(t.immutableStorage)
      && (t.immutableStorage ==> t.width == old(t.width) && t.height == old(t.height))
      && (!t.immutableStorage ==> t.width == imageWidth)
      && (!t.immutableStorage && ImageKind(t.textureType) == Some(1) ==> t.height == imageHeight)
      && (!t.immutableStorage && ImageKind(t.textureType) == Some(0) ==> t.height == old(t.height))
    ensures r.Pass? && ImageKind(t.textureType).Some? ==>
      st.gl.boundTextures ==
        if st.glVersion >= 450 && !t.immutableStorage
        then old(st.gl.boundTextures)[OrionGlad.TextureSlot(t.textureType).value := t.handle]
        else old(st.gl.boundTextures)
    ensures r.Pass? && ImageKind(t.textureType).Some? ==>
      var image := ImageCall(t.textureType, ImageKind(t.textureType).value, t.immutableStorage,
                             st.glVersion >= 450, t.handle, t.internalFormat, imageWidth, imageHeight, imageFormat);
      st.gl.calls == old(st.gl.calls) +
        if st.glVersion >= 450 then
          (if t.immutableStorage then [] else [Call.BindTexture(t.textureType, t.handle)]) +
          [image, GenerateTextureMipmap(t.handle)]
        else
          [Call.BindTexture(t.textureType, t.handle), image, GenerateMipmap(t.textureType),
           Call.BindTexture(t.textureType, OrionGlad.CurrentTextureAt(old(st.gl.boundTextures), t.textureType))]
  {
    var check := AssertVersion(st.glVersion, 200);
    if check.Some? {
      return Fail(check.value);
    }
    r := Pass;
    var kind := ImageKind(t.textureType);
    if kind.None? {
      return;
    }
    if st.glVersion < 450 {
      UploadBelowDsa(st, t, kind.value, imageWidth, imageHeight, imageFormat);
    } else {
      SpecifyImage(st, t, kind.value, imageWidth, imageHeight, imageFormat);
      st.gl.Forward(GenerateTextureMipmap(t.handle));
    }
    t.colourDepth := channels;
  }
}
