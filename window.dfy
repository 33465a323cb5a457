/** src/window.c: the GLFW window registry. */
module Window {
  import opened Wrappers
  import opened Errors
  import opened State

  /** GLFW window hint names. */
  const CONTEXT_VERSION_MAJOR: nat := 0x0002_2002
  const CONTEXT_VERSION_MINOR: nat := 0x0002_2003
  const OPENGL_PROFILE: nat := 0x0002_2008

  /** The context version hints `oriCreateWindow` derives from a version number
      such as 460: the hundreds digit is the major version and the tens digit the
      minor version (the units digit is dropped). */
  function SplitVersion(version: nat): (r: (nat, nat))
    ensures r.1 < 10
    ensures version < 1000 ==> r.0 < 10
    ensures r.0 * 100 + r.1 * 10 + version % 10 == version
  {
    (version / 100, (version / 10) % 10)
  }

  /** The digits taken apart by the split are put together again by major * 100
      + minor * 10 for a multiple of ten; 1.2.1 loses its last digit. */
  lemma SplitVersionExamples()
    ensures SplitVersion(460) == (4, 6)
    ensures SplitVersion(121) == (1, 2)
    ensures SplitVersion(330) == (3, 3)
  {
  }

  /** The GLFW calls of one window creation after GLFW is up: the three context
      hints, the creation itself and the reset to the default hints. */
  function CreationCalls(width: nat, height: nat, title: string, version: nat, profile: nat): (calls: seq<GlfwCall>)
    ensures |calls| == 5 && calls[3] == GlfwCall.CreateWindow(width, height, title) && calls[4] == DefaultWindowHints
    ensures calls[0].WindowHint? && calls[0].hint == CONTEXT_VERSION_MAJOR
    ensures calls[1].WindowHint? && calls[1].hint == CONTEXT_VERSION_MINOR && calls[1].value < 10
    ensures calls[2] == WindowHint(OPENGL_PROFILE, profile)
    ensures calls[0].value * 100 + calls[1].value * 10 + version % 10 == version
    ensures version < 1000 ==> calls[0].value < 10
  {
    [WindowHint(CONTEXT_VERSION_MAJOR, SplitVersion(version).0),
     WindowHint(CONTEXT_VERSION_MINOR, SplitVersion(version).1),
     WindowHint(OPENGL_PROFILE, profile),
     GlfwCall.CreateWindow(width, height, title),
     DefaultWindowHints]
  }

  /** `oriCreateWindow`. `glfwHandle` is what glfwCreateWindow returned, 0 for
      null. GLFW is initialised on the first creation only and stays flagged as
      initialised. A null handle fails with ORERR_GLFW_FAIL after the hints have
      been reset; otherwise the new window is the head of the window list. */
  method CreateWindow(st: Orion, width: nat, height: nat, title: string, version: nat, profile: nat,
                      glfwHandle: nat) returns (r: Result<Window, Error>)
    modifies st`glfwInitialised, st`glfwCalls, st`windowList
    ensures st.glfwInitialised
    ensures st.glfwCalls == old(st.glfwCalls) + (if old(st.glfwInitialised) then [] else [Init]) +
                            CreationCalls(width, height, title, version, profile)
    ensures r.Failure? <==> glfwHandle == 0
    ensures r.Failure? ==> r.error == GlfwFail && st.windowList == old(st.windowList)
    ensures r.Success? ==>
      fresh(r.value) && r.value.handle == glfwHandle && st.windowList == [r.value] + old(st.windowList)
  {
    if !st.glfwInitialised {
      st.glfwCalls := st.glfwCalls + [Init];
      st.glfwInitialised := true;
    }
    var (major, minor) := SplitVersion(version);
    st.glfwCalls := st.glfwCalls + [WindowHint(CONTEXT_VERSION_MAJOR, major)];
    st.glfwCalls := st.glfwCalls + [WindowHint(CONTEXT_VERSION_MINOR, minor)];
    st.glfwCalls := st.glfwCalls + [WindowHint(OPENGL_PROFILE, profile)];
    st.glfwCalls := st.glfwCalls + [GlfwCall.CreateWindow(width, height, title)];
    st.glfwCalls := st.glfwCalls + [DefaultWindowHints];
    if glfwHandle == 0 {
      return Failure(GlfwFail);
    }
    var w := new Window(glfwHandle);
    st.windowList := [w] + st.windowList;
    r := Success(w);
  }

  /** `oriFreeWindow`: the same head-rewriting loop as the shader registry, so
      the list ends as the part after the window; the GLFW window is destroyed. */
  method FreeWindow(st: Orion, w: Window)
    requires w in st.windowList
    modifies st`windowList, st`glfwCalls
    ensures st.windowList == SuffixAfter(old(st.windowList), w)
    ensures st.glfwCalls == old(st.glfwCalls) + [DestroyWindow(w.handle)]
  {
    ghost var k := 0;
    while st.windowList[0] != w
      invariant k <= IndexOf(old(st.windowList), w) && st.windowList == old(st.windowList)[k..]
      invariant st.glfwCalls == old(st.glfwCalls)
      decreases |st.windowList|
    {
      assert old(st.windowList)[k] != w;
      st.windowList := st.windowList[1..];
      k := k + 1;
    }
    st.windowList := st.windowList[1..];
    st.glfwCalls := st.glfwCalls + [DestroyWindow(w.handle)];
  }
}
