# Orion OpenGL wrapper: binding tracker, resource registries and process state

Orion is a thin C library over OpenGL and GLFW. This project models three
connected parts of it in Dafny.

- **The bound-object tracker of orionglad.** This is a shadow copy of the GL
  binding state. It has 14 buffer-target slots, 11 texture-target slots, the
  current vertex array and the current program. Macros redirect `glBindBuffer`,
  `glBindTexture`, `glDelete*` and `glUseProgram` to overrides. An override
  updates the shadow state and then forwards the call to the driver, with two
  exceptions. A bind at a target that is not tracked forwards nothing. The
  buffer and texture delete loops return at the first name that no slot holds,
  before the driver's delete. So `oriFreeBuffer` or `oriFreeTexture` of an
  object that is not bound anywhere never reaches `glDeleteBuffers` or
  `glDeleteTextures`, and the GL object is never released.
  - `OrionGlad.Tracker` is a class holding those fields.
  - The driver is represented by a log of the calls it received (`calls`) and
    a supply of fresh object names (`nextName`).
  - The target lookups, the reverse lookups and the delete loops have
    specification functions, and the tracker's methods are proved against them.
- **The managed resources and their registries.** These are buffers, textures,
  shader programs and windows. Each record is a class. Each registry is an
  intrusive singly-linked list with push at the head, modelled as the sequence
  of its nodes from the head on.
  - Every `oriFree*` searches for the node and then sets the head to the
    node's successor. The model keeps this as written: the list becomes the part
    after the freed node (`State.SuffixAfter`). This is a correct removal only
    when the node is the head (`State.SuffixIsUnlinkOnlyAtHead`).
  - The buffer upload state machine, the texture storage classification, the
    bind-if-not-already-bound rule and the save-and-restore of the previous
    binding below GL 4.5 are proved against the tracker.
- **Process state, version validation and the error tables.** The two revisions
  of the state record (src/internal.h and src/internal/internal.h) are unified
  into one class, `State.Orion`. Each revision's error table is kept with its
  own codes. `_orionThrowError` never returns, so an operation that throws
  returns `Failure(error)` / `Fail(error)` and goes no further.

GL enums and object names are natural numbers. The enums have their values from
the OpenGL registry. Modules follow the source files:

| module | models |
|---|---|
| `Gl` | GL enum values and the calls the driver can receive |
| `Errors` | both error tables and the version assertion |
| `OrionGlad` | deps/glad/4.6/orionglad/orionglad.c |
| `State` | the state records, resource records and list unlinking |
| `Buffers` | src/buffers.c |
| `Textures` | src/textures.c |
| `Shaders` | src/shaders.c |
| `Window` | src/window.c |
| `Init` | src/init.c |
| `LibInit` | src/lib/init.c |

`_orionAssertVersion(v)` is not defined in any of the modelled files. The model
**assumes** it fails with ORERR_GL_VERS_TOO_LOW exactly when the stored GL
version is below `v` (`Errors.AssertVersion`). One consequence: the zeroed state
has version 0, so creating a buffer before initialisation reports
ORERR_GL_VERS_TOO_LOW and never reaches the ORERR_NOT_INIT check
(`Buffers.CreateBeforeInitReportsVersion`).

Where the library's documentation and its code disagree, the model follows the
code: `oriTerminate` frees only the window list. It leaves `initialised`, the GL
version and the GLFW flag set, even though the public header says objects are
freed by it.

The two revisions of the error table also differ from each other. This is a
difference between revisions, not between documentation and code.
`ORERR_GLFW_FAIL` has a different message in each. The later revision inserts
`ORERR_GLFW_WIN_FAIL`, so codes from `ORERR_ACCESS_DENIED` on are one higher in
src/internal/internal.h than in src/internal.h.

## Model

| member | source | states |
|---|---|---|
| Errors.CoreCode | src/internal.h:67-80 | the earlier revision's code of each of its 14 errors lies in 0x001-0x00E and is the error's position in declaration order |
| Errors.LibCode | src/internal/internal.h:25-39 | the later revision's code of each of its 15 errors lies in 0x001-0x00F and is the error's position in declaration order |
| Errors.CoreError | src/internal.h:67-80 | a code names an error of the earlier table exactly when it is in 0x001-0x00E, and that error has that code |
| Errors.LibError | src/internal/internal.h:25-39 | a code names an error of the later table exactly when it is in 0x001-0x00F, and that error has that code |
| Errors.CodesIdentify | src/internal.h:67-80 | in each table, an error's code identifies it, so the codes are pairwise distinct |
| Errors.LabelsDistinct | src/internal.h:67-80 | distinct errors have distinct labels, and every label is its macro name, starting with ORERR_ |
| Errors.RevisionCodesShift | src/internal/internal.h:35-39 | ORERR_GLFW_WIN_FAIL takes 0x00B in the later table, so every error from 0x00B on is one higher there, and the errors before it keep their code |
| Errors.Label | src/internal.h:67-80 | every label is the error's macro name, which starts with ORERR_ |
| Errors.LibMessage | src/internal/internal.h:25-39 | the later revision keeps the earlier revision's message for every error except the two GLFW errors |
| Errors.CoreEntry | src/internal.h:67-80 | the triple of an error of the earlier table carries a code that decodes back to that error, and the error's label |
| Errors.LibEntry | src/internal/internal.h:25-39 | the triple of an error of the later table carries a code that decodes back to that error, and the error's label |
| Errors.AssertVersions | src/buffers.c:51-66 | a run of assertions fails exactly when some requirement in it exceeds the version, and then with ORERR_GL_VERS_TOO_LOW |
| Errors.MaxOf | src/buffers.c:51-66 | the largest requirement of a run: no requirement exceeds it, and it is one of them when the run is not empty |
| Errors.AssertVersionsIsMax | src/buffers.c:51-66 | a run of version assertions fails exactly when the version is below the largest requirement in the run |
| OrionGlad.BufferTargetsDistinct | deps/glad/4.6/orionglad/orionglad.c:78-111 | the 14 buffer targets are distinct enums, and none is 0 |
| OrionGlad.TextureTargetsDistinct | deps/glad/4.6/orionglad/orionglad.c:119-145 | the 11 texture targets are distinct enums, and none is 0 |
| OrionGlad.BufferSlot | deps/glad/4.6/orionglad/orionglad.c:78-111 | a target has a slot exactly when it is one of the 14 buffer targets, and the slot is that target's own position |
| OrionGlad.BufferSlotsDistinct | deps/glad/4.6/orionglad/orionglad.c:78-111 | two different targets never share a buffer slot |
| OrionGlad.TextureSlot | deps/glad/4.6/orionglad/orionglad.c:119-145 | a target has a slot exactly when it is a texture target; the slot is the target's own position, except that the multisample-array target gets the multisample slot, so the last slot is never selected |
| OrionGlad.MultisampleTargetsAlias | deps/glad/4.6/orionglad/orionglad.c:139-142 | the two multisample targets select the same slot |
| OrionGlad.FirstIndex | deps/glad/4.6/orionglad/orionglad.c:188-218 | the if-chain's scan: the first slot holding a name, or none exactly when no slot holds it |
| OrionGlad.CurrentBufferAt | deps/glad/4.6/orionglad/orionglad.c:168-173 | an unknown target reads as 0, and a known target reads its own slot |
| OrionGlad.CurrentTextureAt | deps/glad/4.6/orionglad/orionglad.c:234-239 | an unknown target reads as 0, a known target reads its own slot, and the multisample-array target reads the multisample slot |
| OrionGlad.GetBufferTarget | deps/glad/4.6/orionglad/orionglad.c:185-220 | the result is 0 exactly when the name is in no slot; otherwise it is the first target, in field order, whose slot holds the name, so reading that target gives the name back |
| OrionGlad.GetTextureTarget | deps/glad/4.6/orionglad/orionglad.c:250-279 | the same for textures: 0 exactly when no slot holds the name, otherwise the target of the first slot holding it, with no earlier slot holding it; reading the result gives the name back unless the result is the multisample-array target found only through the unwritten last slot |
| OrionGlad.DeletedBuffers | deps/glad/4.6/orionglad/orionglad.c:342-360 | specification of the buffer delete loop: the slots keep their number |
| OrionGlad.DeletedTextures | deps/glad/4.6/orionglad/orionglad.c:391-409 | specification of the texture delete loop: the slots keep their number |
| OrionGlad.DeletedBuffersOnlyClear | deps/glad/4.6/orionglad/orionglad.c:342-360 | deleting buffers never writes a nonzero value: every slot ends as it was or 0 |
| OrionGlad.DeletedTexturesOnlyClear | deps/glad/4.6/orionglad/orionglad.c:391-409 | deleting textures never writes a nonzero value, so the unwritten multisample-array slot stays 0 |
| OrionGlad.DeleteBuffersStopsAtUnbound | deps/glad/4.6/orionglad/orionglad.c:346-350 | at the first name bound nowhere, the loop returns: later names are not processed and the driver's delete is not reached |
| OrionGlad.DeleteTexturesStopsAtUnbound | deps/glad/4.6/orionglad/orionglad.c:395-399 | the same for textures |
| OrionGlad.DeleteBufferClearsFirstOnly | deps/glad/4.6/orionglad/orionglad.c:345-356 | one step of the loop: a bound name at the head of the names clears only the first slot holding it, and the loop goes on with the rest from there; another target holding the same name keeps it |
| OrionGlad.DeleteTextureClearsFirstOnly | deps/glad/4.6/orionglad/orionglad.c:394-405 | the same step for textures, except that a name found first in the unwritten multisample-array slot clears nothing |
| OrionGlad.Tracker.constructor | deps/glad/4.6/orionglad/orionglad.c:25-69 | every slot, the vertex array and the program start at 0 |
| OrionGlad.Tracker.BindBuffer | deps/glad/4.6/orionglad/orionglad.c:325-332 | a known target's slot becomes the name and the call is forwarded; an unknown target changes nothing and forwards nothing; no other field is in the frame |
| OrionGlad.Tracker.DeleteBuffers | deps/glad/4.6/orionglad/orionglad.c:342-360 | the loop over the names leaves the slots that the delete specification gives, and the driver's delete is made exactly when the loop runs to its end |
| OrionGlad.Tracker.BindTexture | deps/glad/4.6/orionglad/orionglad.c:374-381 | a known target's slot (the shared one for the multisample targets) becomes the name and the call is forwarded; an unknown target changes nothing |
| OrionGlad.Tracker.DeleteTextures | deps/glad/4.6/orionglad/orionglad.c:391-409 | as for buffers, with the texture slots |
| OrionGlad.Tracker.BindVertexArray | deps/glad/4.6/orionglad/orionglad.c:422-425 | the current vertex array becomes the name and the call is forwarded |
| OrionGlad.Tracker.DeleteVertexArrays | deps/glad/4.6/orionglad/orionglad.c:435-444 | the current vertex array becomes 0 exactly when it is among the deleted names; the delete is always forwarded |
| OrionGlad.Tracker.UseProgram | deps/glad/4.6/orionglad/orionglad.c:457-460 | the current program becomes the name and the call is forwarded |
| OrionGlad.Tracker.DeleteProgram | deps/glad/4.6/orionglad/orionglad.c:469-474 | the current program becomes 0 exactly when it is the deleted one; the delete is always forwarded |
| OrionGlad.Tracker.Forward | deps/glad/4.6/orionglad/orionglad.h:231-255 | a call that the macros do not redirect (none of the eight overridden calls) reaches the driver unchanged and touches no tracked state |
| OrionGlad.Tracker.NewName | src/buffers.c:79-84 | glGen and glCreate hand out a fresh nonzero name and log the call |
| State.Orion.constructor | src/init.c:26 | the state record starts zeroed: flags false, version and profile 0, no directory, every list empty |
| State.Buffer.constructor | src/buffers.c:72-76 | a new buffer record has no data, size 0 and the given target |
| State.Texture.constructor | src/textures.c:74-83 | a new texture record has every dimension, level count and sample count 0, and mutable storage |
| State.Shader.constructor | src/shaders.c:48-50 | a shader record holds its program name |
| State.Window.constructor | src/window.c:77-78 | a window record holds its GLFW handle |
| State.SuffixAfter | src/buffers.c:102-106 | setting the head to the node's successor leaves a strictly shorter tail of the list |
| State.Without | src/buffers.c:102-106 | a correct unlink: the list loses one node, and exactly one occurrence of the freed node |
| State.IndexOf | src/buffers.c:103-105 | the search loop stops at the first node equal to the one searched for |
| State.FreeHeadRemovesIt | src/buffers.c:102-106 | freeing the head removes exactly that node, and the list shrinks by one |
| State.SuffixIsUnlinkOnlyAtHead | src/buffers.c:102-106 | setting the head to the node's successor equals removing the node exactly when the node is the head; otherwise every node before it is lost as well |
| Buffers.VersionAssertions | src/buffers.c:51-66 | the assertion sequence of each target, following the switch's fall-through, is never empty and demands at least 2.0 |
| Buffers.EffectiveMinimumVersion | src/buffers.c:51-66 | the version effectively required is 4.4 for atomic-counter, dispatch-indirect, shader-storage and query buffers, 3.1 for copy-read, uniform and texture buffers, and 2.0 otherwise |
| Buffers.CreateCheck | src/buffers.c:51-70 | creation is refused exactly when the version is too low or the library is not initialised, and the version error takes precedence |
| Buffers.CreateBeforeInitReportsVersion | src/buffers.c:51-70 | on the zeroed state, creation fails with ORERR_GL_VERS_TOO_LOW, never ORERR_NOT_INIT |
| Buffers.CreateBuffer | src/buffers.c:48-90 | fails exactly as the checks say, changing nothing; otherwise the new buffer has no data, size 0, the target and a fresh name from glCreateBuffers at 4.5 and above or glGenBuffers below, and it heads the list in front of the old list |
| Buffers.FreeBuffer | src/buffers.c:99-113 | the buffer list becomes the part after the buffer, and the tracker's delete decides the slots and whether the driver is reached |
| Buffers.BindSkippedExactlyWhenNoOp | src/buffers.c:125-128 | the bind is skipped exactly when it would change no tracker slot |
| Buffers.BindBuffer | src/buffers.c:122-129 | nothing happens when the buffer is already current; otherwise its slot becomes its name, so afterwards it is current at its target |
| Buffers.SetBufferData | src/buffers.c:141-186 | the data store is re-specified exactly when there is no data or the size differs, otherwise overwritten from offset 0; afterwards the buffer has data of the given size; named calls are used at 4.5 and above; the tracker's slots end as they began |
| Buffers.ReallocatesOnlyOnChange | src/buffers.c:155 | the data store is re-specified on the first upload and whenever the size changes, and never for a same-size upload after data is set |
| Buffers.RestoreBinding | src/buffers.c:147-151 | binding a name and then the slot's cached value leaves every slot as it was |
| Textures.CreateCheck | src/textures.c:63-72 | creation is refused exactly when the version is below 2.0 (3.2 for the multisample targets) or the library is not initialised; ORERR_NOT_INIT is reported exactly when the version is at least 2.0 and the library is not initialised |
| Textures.CreateTexture | src/textures.c:61-97 | fails exactly as the checks say; otherwise the new texture has every dimension 0, mutable storage, the type, the internal format and a fresh name, and it heads the list |
| Textures.StorageKind | src/textures.c:139-163 | the storage classification: 1D, 2D-like, 3D-like and the two multisample kinds, and none for the texture-buffer target and for enums that are not texture targets |
| Textures.StorageTargetsAreTracked | src/textures.c:168-171 | every target that gets storage has its own tracker slot |
| Textures.StorageCall | src/textures.c:185-205 | the named storage call at 4.5 and above and the target form below, of the dimension the classification gives, carrying the levels, internal format and width, the height for 2D and 3D and the depth for 3D |
| Textures.RestoreBinding | src/textures.c:166-171 | binding a texture and then the slot's cached value leaves every texture slot as it was |
| Textures.CreateTextureImmutable | src/textures.c:123-229 | fails exactly below 4.2 or before initialisation; the texture is always immutable; for 1D, 2D and 3D storage the dimensions, levels and samples are stored as passed and one storage call is made; otherwise every dimension stays 0; the tracker's slots end as they began |
| Textures.AllocateStorage | src/textures.c:164-224 | the sizes are stored as passed and one storage call is made; below 4.5 the texture is bound around it and the cached binding restored, so the tracker's slots end as they began |
| Textures.FreeTexture | src/textures.c:238-252 | the texture list becomes the part after the texture, and the tracker's delete decides the slots and whether the driver is reached |
| Textures.BindTexture | src/textures.c:262-271 | nothing happens, whatever the unit, when the texture is already current; otherwise the unit is activated and the texture bound, so it is current at its type |
| Textures.GetTextureProperty | src/textures.c:298-304 | each requested property is the record's value, an unrequested one is not written, and nothing changes |
| Textures.ImageKind | src/textures.c:339-362 | only 1D and 2D-like types are uploaded |
| Textures.ImageKindIsStorageKind | src/textures.c:339-362 | the upload classification agrees with the storage classification on its first two kinds and is empty elsewhere |
| Textures.ImageCall | src/textures.c:372-405 | a sub-image call exactly for immutable storage, its named form exactly for immutable storage at 4.5 and above, the 1D form exactly for the 1D kind; it carries the handle in the named form and the target otherwise, the width, the height for 2D and the image format, and the internal format for a new image |
| Textures.SpecifyImage | src/textures.c:372-409 | immutable storage gets a sub-image and keeps its dimensions; mutable storage is bound at 4.5 and above and re-specified with the new width (and height for 2D) |
| Textures.UploadBelowDsa | src/textures.c:364-421 | below 4.5: bind, image call, mipmap generation and rebinding of the cached name, in that order; the tracker's slots end as they began; only mutable storage takes the new width (and height for 2D) |
| Textures.UploadTexImagePath | src/textures.c:318-425 | unsupported types change nothing; otherwise the colour depth becomes the channel count, only the width and height of mutable storage change, below 4.5 the previous binding is restored after the mipmaps, and at 4.5 and above a mutable upload leaves the texture bound |
| Shaders.CreateShader | src/shaders.c:43-55 | fails with ORERR_NOT_INIT exactly before initialisation; otherwise the new shader holds a fresh nonzero program name and heads the list |
| Shaders.FreeShader | src/shaders.c:62-72 | the head-rewriting loop leaves the list as the part after the shader, and nothing reaches the driver |
| Window.SplitVersion | src/window.c:59-60 | the major version is the hundreds digit and the minor version the tens digit, and with the units digit they make up the version |
| Window.SplitVersionExamples | src/window.c:59-60 | 460 gives (4, 6), 121 gives (1, 2) and 330 gives (3, 3) |
| Window.CreationCalls | src/window.c:59-71 | the GLFW_CONTEXT_VERSION_MAJOR hint, the GLFW_CONTEXT_VERSION_MINOR hint with a single digit, the profile hint, the creation and the hint reset, in that order; major * 100 + minor * 10 plus the units digit gives the version back, and the major version is a single digit below 1000 |
| Window.CreateWindow | src/window.c:49-85 | GLFW is initialised only on the first creation and stays flagged; the three hints, the creation and the hint reset are issued; a null handle fails with ORERR_GLFW_FAIL and leaves the list alone; otherwise the window heads the list |
| Window.FreeWindow | src/window.c:92-102 | the list becomes the part after the window, and the GLFW window is destroyed |
| Init.CheckVersion | src/init.c:76-103 | a rejected version is reported with one of the four version errors |
| Init.AcceptedExactly | src/init.c:76-103 | the version checks pass exactly for the 19 accepted versions |
| Init.RejectionReasons | src/init.c:76-103 | which check rejects a version: the units digit first (465 and 105 are invalid), then null, above 4.6, below 1.1, then the three gaps |
| Init.AcceptedVersionsSplit | src/window.c:59-60 | every accepted version splits into a major version of 1 to 4, and the digits give the version back, except that 1.2.1 becomes 1.2 |
| Init.InitialiseGL | src/init.c:70-140 | a second call fails with ORERR_MULTIPLE_CALLS; an invalid version fails with its check's error; otherwise the version is stored, and the directory too once it is accessible; it succeeds exactly when every step does, and only then is the library marked initialised |
| Init.DestroyCalls | src/init.c:148-150 | one destroy call per window, in list order |
| Init.DestroyCallsAppend | src/init.c:148-150 | destroying one more window appends its call |
| Init.Terminate | src/init.c:146-160 | every window is destroyed head first until the list is empty, GLFW is terminated exactly when it was initialised, and the directory is cleared; the flags and the version are not in the frame |
| LibInit.CheckVersionProfile | src/lib/init.c:42-69 | the checks pass exactly for an accepted version with a nonzero profile |
| LibInit.SameChecksAsInitialiseGL | src/lib/init.c:42-69 | the checks equal those of oriInitialiseGL, except that a zero profile gives ORERR_NULL_RECIEVED once the units-digit check has passed; version 5 with profile 0 is an invalid version |
| LibInit.Initialise | src/lib/init.c:36-110 | a second call fails with ORERR_MULTIPLE_CALLS; after the checks the library is marked initialised and the version and profile are stored before the directory steps, which can still fail |

## Left out

- Executable-directory resolution (`access`, `realpath`, `dirname`, `chdir`) is operating-system I/O. Its results are inputs (`Init.Platform`), and only the stored directory is modelled.
- The Windows branch of src/lib/init.c (`GetModuleFileNameA`) is not modelled; the Unix build is.
- Loading OpenGL with glad is a foreign call; its success is an input.
- Decoding the image file with stb_image, including vertical flipping and freeing, is external. The loader's width, height and channel count are inputs to `Textures.UploadTexImagePath`, and the pixel data is not modelled.
- The size of buffer data and the pixels of texture calls are not modelled; only sizes, formats and dimensions are logged.
- `oriSetTextureParameteri/f` and `oriGetTextureParameteri/f` are not modelled. They are GL pass-through calls, with floating point in two of them.
- `fixedSampleLocations` of `Textures.CreateTextureImmutable` is accepted and ignored. The multisample storage calls are never reached, because those targets return before them.
- `_orionThrowError` prints, breaks into a debugger and exits; the model returns the failure instead. The printing in src/internal/internal.c and the callbacks in src/callback.c are not part of this model.
- `Errors.AssertVersion`: `_orionAssertVersion` is not defined in any modelled file, so its behaviour is an assumption; see above.
- GL and GLFW handles and unsigned sizes are unbounded naturals, so 32-bit unsigned wrap-around is not modelled. This includes `GL_TEXTURE0 + unit` in `Textures.BindTexture` and the loader's `int` results.
- `OrionGlad.Tracker.NewName` never fails: the name supply always has a fresh nonzero name. `glCreateProgram` can return 0, and a zero program name is not modelled, so the "fresh nonzero" result of `Shaders.CreateShader` holds only under this abstraction.
- Intrusive `next` pointers are modelled as list order in a sequence. A node's own `next` field, and reading it after the node is unlinked, are not modelled.
- `Window.CreateWindow`: the C code writes through an uninitialised pointer `r`. The model allocates a fresh window record instead.
- `Shaders.CreateShader`: the C function has no `return r`. The model returns the new shader.
- `Textures.UploadTexImagePath`: printed warnings for unsupported types are not modelled, and `desiredChannels` is passed only to the loader.
- The `_orionObject` registry of src/internal/internal.h (`State.ObjectData`, `State.Orion.objectList`) is declared but no modelled operation uses it.
- The uniform-location cache, shader compilation and the debug-context filter are declared in include/oriongl.h, but their implementations are not part of this model.
- Window-hint constants are GLFW's values. The GLFW functions themselves are represented only by the calls logged in `State.Orion.glfwCalls`.
