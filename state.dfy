/** The process-wide state `_orion` and the managed resource records. The two
    revisions of the state record (src/internal.h and src/internal/internal.h)
    are unified into one class holding every field the modelled operations
    touch. Each registry is an intrusive singly-linked list with push at the
    head; it is modelled as the sequence of its nodes from the head on. */
module State {
  import opened Wrappers
  import OrionGlad

  /** `oriBuffer`. */
  class Buffer {
    const handle: nat
    const target: nat
    var dataSet: bool
    var dataSize: nat

    constructor (handle: nat, target: nat)
      ensures this.handle == handle && this.target == target
      ensures !dataSet && dataSize == 0
    {
      this.handle := handle;
      this.target := target;
      dataSet := false;
      dataSize := 0;
    }
  }

  /** `oriTexture`. */
  class Texture {
    const handle: nat
    const textureType: nat
    const internalFormat: nat
    var width: nat
    var height: nat
    var depth: nat
    var colourDepth: nat
    var levels: nat
    var samples: nat
    var immutableStorage: bool

    constructor (handle: nat, textureType: nat, internalFormat: nat)
      ensures this.handle == handle && this.textureType == textureType && this.internalFormat == internalFormat
      ensures width == 0 && height == 0 && depth == 0 && colourDepth == 0 && levels == 0 && samples == 0
      ensures !immutableStorage
    {
      this.handle := handle;
      this.textureType := textureType;
      this.internalFormat := internalFormat;
      width, height, depth, colourDepth, levels, samples := 0, 0, 0, 0, 0, 0;
      immutableStorage := false;
    }
  }

  /** `oriShader`: a GL program object. */
  class Shader {
    const handle: nat

    constructor (handle: nat)
      ensures this.handle == handle
    {
      this.handle := handle;
    }
  }

  /** `oriWindow`: `handle` stands for the GLFW window pointer (never null here). */
  class Window {
    const handle: nat

    constructor (handle: nat)
      ensures this.handle == handle
    {
      this.handle := handle;
    }
  }

  /** Payload of a registry node `_orionObject` of src/internal/internal.h:
      a union whose only variant is a buffer. */
  datatype ObjectData = BufferData(buffer: Buffer)

  /** A call into GLFW. */
  datatype GlfwCall =
    | Init
    | WindowHint(hint: nat, value: nat)
    | CreateWindow(width: nat, height: nat, title: string)
    | DefaultWindowHints
    | DestroyWindow(window: nat)
    | Terminate

  /** `_orionState`, both revisions' fields together. `gl` is the binding tracker
      of orionglad.c (with the driver behind it); `glfwCalls` logs the calls made
      into GLFW. */
  class Orion {
    var initialised: bool
    var glfwInitialised: bool
    var glVersion: nat
    var glProfile: nat
    var execDir: Option<string>
    var windowList: seq<Window>
    var bufferList: seq<Buffer>
    var textureList: seq<Texture>
    var shaderList: seq<Shader>
    var objectList: seq<ObjectData>
    var glfwCalls: seq<GlfwCall>
    const gl: OrionGlad.Tracker

    ghost predicate Valid()
      reads this, gl
    {
      gl.Valid()
    }

    /** The state record starts zeroed: no flag set, version and profile 0, no
        executable directory, every list empty. */
    constructor ()
      ensures Valid() && fresh(gl)
      ensures !initialised && !glfwInitialised && glVersion == 0 && glProfile == 0 && execDir == None
      ensures windowList == [] && bufferList == [] && textureList == [] && shaderList == [] && objectList == []
      ensures glfwCalls == [] && gl.calls == []
    {
      initialised, glfwInitialised := false, false;
      glVersion, glProfile := 0, 0;
      execDir := None;
      windowList, bufferList, textureList, shaderList, objectList := [], [], [], [], [];
      glfwCalls := [];
      gl := new OrionGlad.Tracker();
    }
  }

  /** The position of the first occurrence of `x` in `s`. */
  function IndexOf<T(==)>(s: seq<T>, x: T): (i: nat)
    requires x in s
    ensures i < |s| && s[i] == x && x !in s[..i]
  {
    if s[0] == x then 0
    else
      var i := IndexOf(s[1..], x);
      assert s[..i + 1] == [s[0]] + s[1..][..i];
      i + 1
  }

  /** What every `oriFree*` leaves as the list: the head is set to the freed
      node's successor, so the list becomes the part after the node. */
  function SuffixAfter<T(==)>(s: seq<T>, x: T): (rest: seq<T>)
    requires x in s
    ensures |rest| < |s| && rest == s[|s| - |rest|..]
  {
    s[IndexOf(s, x) + 1..]
  }

  /** The list with the first occurrence of `x` taken out: what a correct unlink gives. */
  function Without<T(==)>(s: seq<T>, x: T): (rest: seq<T>)
    requires x in s
    ensures |rest| == |s| - 1 && multiset(rest) == multiset(s) - multiset{x}
  {
    var i := IndexOf(s, x);
    assert s == s[..i] + [x] + s[i + 1..];
    s[..i] + s[i + 1..]
  }

  /** Freeing the head removes exactly that node: the list shrinks by one. */
  lemma FreeHeadRemovesIt<T>(s: seq<T>)
    requires s != []
    ensures SuffixAfter(s, s[0]) == Without(s, s[0]) == s[1..]
    ensures |SuffixAfter(s, s[0])| == |s| - 1
  {
  }

  /** Freeing a node that is not the head loses every node in front of it as
      well: the result is a correct unlink exactly when the node is the head. */
  lemma {:induction false} SuffixIsUnlinkOnlyAtHead<T>(s: seq<T>, x: T)
    requires x in s
    ensures SuffixAfter(s, x) == Without(s, x) <==> x == s[0]
    ensures |Without(s, x)| - |SuffixAfter(s, x)| == IndexOf(s, x)
  {
    var i := IndexOf(s, x);
    if x != s[0] {
      assert i > 0;
      assert |Without(s, x)| == |s| - 1 != |SuffixAfter(s, x)|;
    }
  }
}
