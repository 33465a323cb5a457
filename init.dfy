/** src/init.c: initialisation and termination of the library (the revision
    whose errors use the table of src/internal.h). */
module Init {
  import opened Wrappers
  import opened Errors
  import opened State
  import Window

  /** The OpenGL versions initialisation accepts: 1.1 to 1.5, 1.2.1, 2.0, 2.1,
      3.0 to 3.3 and 4.0 to 4.6, written as major * 100 + minor * 10. */
  const AcceptedVersions: set<nat> :=
    {110, 120, 121, 130, 140, 150, 200, 210, 300, 310, 320, 330, 400, 410, 420, 430, 440, 450, 460}

  /** The version checks of `oriInitialiseGL`, in source order; the first that
      fails decides the error. */
  function CheckVersion(version: nat): (r: Option<Error>)
    ensures r.Some? ==> r.value in {GlInvalidVers, NullRecieved, GlAboveMax, GlBelowMin}
  {
    if version % 10 != 0 && version != 121 then Some(GlInvalidVers)
    else if version == 0 then Some(NullRecieved)
    else if version > 460 then Some(GlAboveMax)
    else if version < 110 then Some(GlBelowMin)
    else if 150 < version < 200 then Some(GlInvalidVers)
    else if 210 < version < 300 then Some(GlInvalidVers)
    else if 330 < version < 400 then Some(GlInvalidVers)
    else None
  }

  /** The checks pass exactly for the accepted versions. */
  lemma AcceptedExactly(version: nat)
    ensures CheckVersion(version).None? <==> version in AcceptedVersions
  {
    if CheckVersion(version).None? && version != 121 {
      var k := version / 10;
      assert version == 10 * k;
      assert 11 <= k <= 46;
      assert k in {11, 12, 13, 14, 15, 20, 21, 30, 31, 32, 33, 40, 41, 42, 43, 44, 45, 46};
    }
  }

  /** Which check rejects a version. The units-digit check comes first, so a
      version such as 465 or 105 is reported as invalid rather than out of range;
      0 passes it and is reported as null; among multiples of ten, those above
      4.6 and below 1.1 are out of range and the gaps 1.6 to 1.9, 2.2 to 2.9 and
      3.4 to 3.9 are invalid. */
  lemma RejectionReasons(version: nat)
    ensures CheckVersion(version) == Some(NullRecieved) <==> version == 0
    ensures CheckVersion(version) == Some(GlAboveMax) <==> version > 460 && version % 10 == 0
    ensures CheckVersion(version) == Some(GlBelowMin) <==> 0 < version < 110 && version % 10 == 0
    ensures CheckVersion(version) == Some(GlInvalidVers) <==>
      || (version % 10 != 0 && version != 121)
      || (version % 10 == 0 && (150 < version < 200 || 210 < version < 300 || 330 < version < 400))
  {
  }

  /** Every accepted version is split by window creation into digits that give
      it back, except 1.2.1, which becomes the hint pair 1 and 2. */
  lemma AcceptedVersionsSplit(version: nat)
    requires version in AcceptedVersions
    ensures Window.SplitVersion(version).0 * 100 + Window.SplitVersion(version).1 * 10 ==
      if version == 121 then 120 else version
    ensures 1 <= Window.SplitVersion(version).0 <= 4
  {
  }

  /** What the operating system and the loader report during initialisation:
      whether /proc/self/exe is accessible, the directory of the executable,
      whether changing into it succeeds, and whether glad loaded OpenGL. */
  datatype Platform = Platform(exeAccessible: bool, exeDir: string, chdirSucceeds: bool, glLoaded: bool)

  /** `oriInitialiseGL`. A second call fails with ORERR_MULTIPLE_CALLS; then the
      version is validated and stored; then the executable directory is looked
      up and stored and made the working directory, and OpenGL is loaded. Each
      failure stops the process, leaving what was already written; the library
      is marked initialised only as the very last step. */
  method InitialiseGL(st: Orion, version: nat, platform: Platform) returns (r: Outcome<Error>)
    modifies st`initialised, st`glVersion, st`execDir
    ensures r.Pass? <==>
      !old(st.initialised) && version in AcceptedVersions
      && platform.exeAccessible && platform.chdirSucceeds && platform.glLoaded
    ensures st.initialised <==> old(st.initialised) || r.Pass?
    ensures old(st.initialised) ==> r == Fail(MultipleCalls) && unchanged(st`glVersion, st`execDir)
    ensures !old(st.initialised) && version !in AcceptedVersions ==>
      r == Fail(CheckVersion(version).value) && unchanged(st`glVersion, st`execDir)
    ensures !old(st.initialised) && version in AcceptedVersions ==>
      && st.glVersion == version
      && st.execDir == (if platform.exeAccessible then Some(platform.exeDir) else old(st.execDir))
      && (r.Fail? ==> r.error == (if !platform.exeAccessible then AccessDenied
                                  else if !platform.chdirSucceeds then AccessPhantom else GlFail))
  {
    AcceptedExactly(version);
    if st.initialised {
      return Fail(MultipleCalls);
    }
    var check := CheckVersion(version);
    if check.Some? {
      return Fail(check.value);
    }
    st.glVersion := version;
    if !platform.exeAccessible {
      return Fail(AccessDenied);
    }
    st.execDir := Some(platform.exeDir);
    if !platform.chdirSucceeds {
      return Fail(AccessPhantom);
    }
    if !platform.glLoaded {
      return Fail(GlFail);
    }
    st.initialised := true;
    r := Pass;
  }

  /** The GLFW destroy calls for a list of windows, in list order. */
  function DestroyCalls(windows: seq<State.Window>): (calls: seq<GlfwCall>)
    ensures |calls| == |windows|
    ensures forall i :: 0 <= i < |windows| ==> calls[i] == DestroyWindow(windows[i].handle)
  {
    if windows == [] then [] else [DestroyWindow(windows[0].handle)] + DestroyCalls(windows[1..])
  }

  /** `oriTerminate`: every window is freed, head first, until the list is
      empty; GLFW is terminated exactly when it was initialised; the executable
      directory is released. The flags and the version are left as they were,
      and no other registry is swept. */
  method Terminate(st: Orion)
    modifies st`windowList, st`glfwCalls, st`execDir
    ensures st.windowList == []
    ensures st.glfwCalls == old(st.glfwCalls) + DestroyCalls(old(st.windowList)) +
                            (if st.glfwInitialised then [GlfwCall.Terminate] else [])
    ensures st.execDir == None
  {
    ghost var k := 0;
    while st.windowList != []
      invariant 0 <= k <= |old(st.windowList)| && st.windowList == old(st.windowList)[k..]
      invariant st.glfwCalls == old(st.glfwCalls) + DestroyCalls(old(st.windowList)[..k])
      decreases |st.windowList|
    {
      var head := st.windowList[0];
      assert old(st.windowList)[..k + 1] == old(st.windowList)[..k] + [head];
      DestroyCallsAppend(old(st.windowList)[..k], head);
      FreeHeadRemovesIt(st.windowList);
      Window.FreeWindow(st, head);
      k := k + 1;
    }
    if st.glfwInitialised {
      st.glfwCalls := st.glfwCalls + [GlfwCall.Terminate];
    }
    st.execDir := None;
  }

  /** Destroying one more window appends its call. */
  lemma {:induction false} DestroyCallsAppend(windows: seq<State.Window>, w: State.Window)
    ensures DestroyCalls(windows + [w]) == DestroyCalls(windows) + [DestroyWindow(w.handle)]
  {
    if windows != [] {
      assert (windows + [w])[1..] == windows[1..] + [w];
      DestroyCallsAppend(windows[1..], w);
    }
  }
}
