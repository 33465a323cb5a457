/** src/lib/init.c: initialisation in the later revision, which takes a profile
    and reports errors with the table of src/internal/internal.h. */
module LibInit {
  import opened Wrappers
  import opened Errors
  import opened State
  import Init

  /** The argument checks of `oriInitialise`, in source order. They are those of
      `oriInitialiseGL` with a zero profile rejected at the same point as a zero
      version. */
  function CheckVersionProfile(version: nat, profile: nat): (r: Option<Error>)
    ensures r.None? <==> version in Init.AcceptedVersions && profile != 0
  {
    Init.AcceptedExactly(version);
    if version % 10 != 0 && version != 121 then Some(GlInvalidVers)
    else if version == 0 || profile == 0 then Some(NullRecieved)
    else if version > 460 then Some(GlAboveMax)
    else if version < 110 then Some(GlBelowMin)
    else if 150 < version < 200 then Some(GlInvalidVers)
    else if 210 < version < 300 then Some(GlInvalidVers)
    else if 330 < version < 400 then Some(GlInvalidVers)
    else None
  }

  /** Both revisions accept the same versions with the same precedence; a zero
      profile turns the answer into ORERR_NULL_RECIEVED only for a version that
      passes the units-digit check, so version 5 with profile 0 is still an
      invalid version. */
  lemma SameChecksAsInitialiseGL(version: nat, profile: nat)
    ensures CheckVersionProfile(version, profile) ==
      if profile == 0 && (version % 10 == 0 || version == 121) then Some(NullRecieved)
      else Init.CheckVersion(version)
    ensures CheckVersionProfile(5, 0) == Some(GlInvalidVers)
  {
  }

  /** `oriInitialise`. A second call fails with ORERR_MULTIPLE_CALLS; after the
      argument checks the library is marked initialised and the version and
      profile are stored, before the executable directory is looked up (Unix
      build) and made the working directory, so those two failures leave an
      initialised library behind. */
  method Initialise(st: Orion, version: nat, profile: nat, platform: Init.Platform) returns (r: Outcome<Error>)
    modifies st`initialised, st`glVersion, st`glProfile, st`execDir
    ensures r.Pass? <==>
      !old(st.initialised) && version in Init.AcceptedVersions && profile != 0
      && platform.exeAccessible && platform.chdirSucceeds
    ensures old(st.initialised) ==>
      r == Fail(MultipleCalls) && unchanged(st`initialised, st`glVersion, st`glProfile, st`execDir)
    ensures !old(st.initialised) && CheckVersionProfile(version, profile).Some? ==>
      && r == Fail(CheckVersionProfile(version, profile).value)
      && unchanged(st`initialised, st`glVersion, st`glProfile, st`execDir)
    ensures !old(st.initialised) && CheckVersionProfile(version, profile).None? ==>
      && st.initialised && st.glVersion == version && st.glProfile == profile
      && st.execDir == (if platform.exeAccessible then Some(platform.exeDir) else old(st.execDir))
      && (r.Fail? ==> r.error == if !platform.exeAccessible then AccessDenied else AccessPhantom)
  {
    if st.initialised {
      return Fail(MultipleCalls);
    }
    var check := CheckVersionProfile(version, profile);
    if check.Some? {
      return Fail(check.value);
    }
    st.initialised := true;
    st.glVersion := version;
    st.glProfile := profile;
    if !platform.exeAccessible {
      return Fail(AccessDenied);
    }
    st.execDir := Some(platform.exeDir);
    if !platform.chdirSucceeds {
      return Fail(AccessPhantom);
    }
    r := Pass;
  }
}
