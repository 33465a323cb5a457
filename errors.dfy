/** The error taxonomy. Every fatal path passes one (code, message, label)
    triple to `_orionThrowError`. The library exists in two revisions with
    their own tables: the one of src/internal.h (14 entries) and the one of
    src/internal/internal.h (15 entries; it inserts ORERR_GLFW_WIN_FAIL). The
    error NAMES are shared; each revision numbers them its own way. */
module Errors {
  import opened Wrappers

  /** One constructor per error macro (the macro name without its `ORERR_`
      prefix, in CamelCase). */
  datatype Error =
    | MultipleCalls | GlInvalidVers | GlAboveMax | GlBelowMin | NotInit
    | NullRecieved | GlfwFail | GlVersTooLow | GlFail | MultipleDebug
    | GlfwWinFail | AccessDenied | AccessPhantom | UnsupportedType | BufferInvalid

  /** The arguments of `_orionThrowError`, in its parameter order (code, msg, label). */
  datatype Entry = Entry(code: nat, message: string, tag: string)

  /** The errors of src/internal.h, in declaration order. */
  const CoreDeclared: seq<Error> :=
    [MultipleCalls, GlInvalidVers, GlAboveMax, GlBelowMin, NotInit, NullRecieved, GlfwFail,
     GlVersTooLow, GlFail, MultipleDebug, AccessDenied, AccessPhantom, UnsupportedType, BufferInvalid]

  /** The errors of src/internal/internal.h, in declaration order. */
  const LibDeclared: seq<Error> :=
    [MultipleCalls, GlInvalidVers, GlAboveMax, GlBelowMin, NotInit, NullRecieved, GlfwFail,
     GlVersTooLow, GlFail, MultipleDebug, GlfwWinFail, AccessDenied, AccessPhantom, UnsupportedType,
     BufferInvalid]

  /** src/internal.h has no ORERR_GLFW_WIN_FAIL. */
  predicate InCoreTable(e: Error) {
    e != GlfwWinFail
  }

  /** The code src/internal.h gives `e`: 0x001..0x00E in declaration order. */
  function CoreCode(e: Error): (code: nat)
    requires InCoreTable(e)
    ensures 0x001 <= code <= 0x00E && CoreDeclared[code - 1] == e
  {
    match e
    case MultipleCalls => 0x001
    case GlInvalidVers => 0x002
    case GlAboveMax => 0x003
    case GlBelowMin => 0x004
    case NotInit => 0x005
    case NullRecieved => 0x006
    case GlfwFail => 0x007
    case GlVersTooLow => 0x008
    case GlFail => 0x009
    case MultipleDebug => 0x00A
    case AccessDenied => 0x00B
    case AccessPhantom => 0x00C
    case UnsupportedType => 0x00D
    case BufferInvalid => 0x00E
  }

  /** The code src/internal/internal.h gives `e`: 0x001..0x00F in declaration order. */
  function LibCode(e: Error): (code: nat)
    ensures 0x001 <= code <= 0x00F && LibDeclared[code - 1] == e
  {
    match e
    case MultipleCalls => 0x001
    case GlInvalidVers => 0x002
    case GlAboveMax => 0x003
    case GlBelowMin => 0x004
    case NotInit => 0x005
    case NullRecieved => 0x006
    case GlfwFail => 0x007
    case GlVersTooLow => 0x008
    case GlFail => 0x009
    case MultipleDebug => 0x00A
    case GlfwWinFail => 0x00B
    case AccessDenied => 0x00C
    case AccessPhantom => 0x00D
    case UnsupportedType => 0x00E
    case BufferInvalid => 0x00F
  }

  /** The label of `e`: its macro name, the same in both revisions. */
  function Label(e: Error): (name: string)
    ensures |name| > 6 && name[..6] == "ORERR_"
  {
    match e
    case MultipleCalls => "ORERR_MULTIPLE_CALLS"
    case GlInvalidVers => "ORERR_GL_INVALID_VERS"
    case GlAboveMax => "ORERR_GL_ABOVE_MAX"
    case GlBelowMin => "ORERR_GL_BELOW_MIN"
    case NotInit => "ORERR_NOT_INIT"
    case NullRecieved => "ORERR_NULL_RECIEVED"
    case GlfwFail => "ORERR_GLFW_FAIL"
    case GlVersTooLow => "ORERR_GL_VERS_TOO_LOW"
    case GlFail => "ORERR_GL_FAIL"
    case MultipleDebug => "ORERR_MULTIPLE_DEBUG"
    case GlfwWinFail => "ORERR_GLFW_WIN_FAIL"
    case AccessDenied => "ORERR_ACCESS_DENIED"
    case AccessPhantom => "ORERR_ACCESS_PHANTOM"
    case UnsupportedType => "ORERR_UNSUPPORTED_TYPE"
    case BufferInvalid => "ORERR_BUFFER_INVALID"
  }

  /** The message src/internal.h gives `e`. */
  function CoreMessage(e: Error): string
    requires InCoreTable(e)
  {
    match e
    case MultipleCalls => "Illegal call of function that has already been called; this function can not be called more than once."
    case GlInvalidVers => "Attempted to load invalid OpenGL version."
    case GlAboveMax => "Attempted to load invalid OpenGL version; maximum OpenGL version supported by Orion is 4.6."
    case GlBelowMin => "Attempted to load invalid OpenGL version; versions earlier than 1.1 are not supported by Orion."
    case NotInit => "A function was called that requires Orion to be initialised, but Orion has not been initialised!"
    case NullRecieved => "A function recieved NULL but it was not able to accept this argument."
    case GlfwFail => "GLFW sent an error and Orion failed to recover."
    case GlVersTooLow => "A function was called that requires OpenGL to be of a higher version than was specified."
    case GlFail => "Failed to load OpenGL."
    case MultipleDebug => "Illegal attempt to enable a debug context after a debug context has already been enabled."
    case AccessDenied => "Couldn't execute a necessary function; access denied."
    case AccessPhantom => "Attempted to access resource that didn't exist."
    case UnsupportedType => "Unsupported type given to function"
    case BufferInvalid => "Invalid type given to buffer"
  }

  /** The message src/internal/internal.h gives `e`: the text of src/internal.h,
      except for the two GLFW errors. */
  function LibMessage(e: Error): (message: string)
    ensures e != GlfwFail && e != GlfwWinFail ==> message == CoreMessage(e)
  {
    match e
    case GlfwFail => "GLFW failed to initialise."
    case GlfwWinFail => "GLFW failed to create a window."
    case _ => CoreMessage(e)
  }

  /** The triple src/internal.h passes to `_orionThrowError` for `e`. */
  function CoreEntry(e: Error): (entry: Entry)
    requires InCoreTable(e)
    ensures CoreError(entry.code) == Some(e)
    ensures entry.tag == Label(e)
  {
    Entry(CoreCode(e), CoreMessage(e), Label(e))
  }

  /** The triple src/internal/internal.h passes to `_orionThrowError` for `e`. */
  function LibEntry(e: Error): (entry: Entry)
    ensures LibError(entry.code) == Some(e)
    ensures entry.tag == Label(e)
  {
    var code := LibCode(e);
    assert LibError(code) == Some(e);
    Entry(code, LibMessage(e), Label(e))
  }

  /** The error a src/internal.h code stands for, if any. */
  function CoreError(code: nat): (r: Option<Error>)
    ensures r.Some? <==> 0x001 <= code <= 0x00E
    ensures r.Some? ==> InCoreTable(r.value) && CoreCode(r.value) == code
  {
    if 0x001 <= code <= 0x00E then Some(CoreDeclared[code - 1]) else None
  }

  /** The error a src/internal/internal.h code stands for, if any. */
  function LibError(code: nat): (r: Option<Error>)
    ensures r.Some? <==> 0x001 <= code <= 0x00F
    ensures r.Some? ==> LibCode(r.value) == code
  {
    if 0x001 <= code <= 0x00F then Some(LibDeclared[code - 1]) else None
  }

  /** Decoding a code gives its error back, so the codes of each revision are
      pairwise distinct. */
  lemma CodesIdentify(e: Error)
    ensures InCoreTable(e) ==> CoreError(CoreCode(e)) == Some(e)
    ensures LibError(LibCode(e)) == Some(e)
  {
  }

  /** The labels are pairwise distinct and carry the `ORERR_` prefix. */
  lemma LabelsDistinct(e1: Error, e2: Error)
    requires e1 != e2
    ensures Label(e1) != Label(e2)
    ensures |Label(e1)| > 6 && Label(e1)[..6] == "ORERR_"
  {
  }

  /** Codes agree between the revisions up to ORERR_MULTIPLE_DEBUG; inserting
      ORERR_GLFW_WIN_FAIL at 0x00B pushes ACCESS_DENIED..BUFFER_INVALID one higher. */
  lemma RevisionCodesShift(e: Error)
    requires InCoreTable(e)
    ensures LibCode(e) == CoreCode(e) + (if CoreCode(e) >= 0x00B then 1 else 0)
  {
  }

  /** The assumed meaning of `_orionAssertVersion(required)`, which no modelled
      file defines: stop with ORERR_GL_VERS_TOO_LOW when the loaded GL version
      is below `required`. */
  function AssertVersion(glVersion: nat, required: nat): (r: Option<Error>)
    ensures r.Some? <==> glVersion < required
    ensures r.Some? ==> r.value == GlVersTooLow
  {
    if glVersion < required then Some(GlVersTooLow) else None
  }

  /** A run of version assertions, stopping at the first one that fails. */
  function AssertVersions(glVersion: nat, required: seq<nat>): (r: Option<Error>)
    ensures r.Some? <==> exists i :: 0 <= i < |required| && glVersion < required[i]
    ensures r.Some? ==> r.value == GlVersTooLow
  {
    if required == [] then None
    else if AssertVersion(glVersion, required[0]).Some? then AssertVersion(glVersion, required[0])
    else AssertVersions(glVersion, required[1..])
  }

  /** The largest of `vs`, 0 for none. */
  function MaxOf(vs: seq<nat>): (m: nat)
    ensures forall i :: 0 <= i < |vs| ==> vs[i] <= m
    ensures vs != [] ==> m in vs
  {
    if vs == [] then 0 else var m := MaxOf(vs[1..]); if vs[0] > m then vs[0] else m
  }

  /** A run of assertions fails exactly when the version is below the largest
      requirement, and then with ORERR_GL_VERS_TOO_LOW. */
  lemma {:induction false} AssertVersionsIsMax(glVersion: nat, required: seq<nat>)
    ensures AssertVersions(glVersion, required).Some? <==> glVersion < MaxOf(required)
    ensures AssertVersions(glVersion, required).Some? ==> AssertVersions(glVersion, required).value == GlVersTooLow
  {
    if required != [] {
      AssertVersionsIsMax(glVersion, required[1..]);
    }
  }
}
