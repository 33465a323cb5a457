/** src/shaders.c: the shader program registry. */
module Shaders {
  import opened Wrappers
  import opened Gl
  import opened Errors
  import opened State

  /** `oriCreateShader`: refused before initialisation; otherwise a new shader
      holding a fresh program name from glCreateProgram becomes the head of the
      shader list. The C function falls off its end without returning the
      shader; the model returns it. */
  method CreateShader(st: Orion) returns (r: Result<Shader, Error>)
    requires st.Valid()
    modifies st`shaderList, st.gl`calls, st.gl`nextName
    ensures st.Valid()
    ensures r.Failure? <==> !st.initialised
    ensures r.Failure? ==>
      && r.error == NotInit
      && st.shaderList == old(st.shaderList) && st.gl.calls == old(st.gl.calls)
      && st.gl.nextName == old(st.gl.nextName)
    ensures r.Success? ==>
      && fresh(r.value) && r.value.handle == old(st.gl.nextName) && r.value.handle != 0
      && st.shaderList == [r.value] + old(st.shaderList)
      && st.gl.calls == old(st.gl.calls) + [CreateProgram(r.value.handle)]
  {
    if !st.initialised {
      return Failure(NotInit);
    }
    var handle := st.gl.NewName((n: nat) => CreateProgram(n));
    var s := new Shader(handle);
    st.shaderList := [s] + st.shaderList;
    r := Success(s);
  }

  /** `oriFreeShader`. The loop writes through a pointer to the head, so each
      step drops the head instead of advancing a cursor; the final write drops
      the shader itself. The list ends as the part after the shader (the search
      needs the shader to be listed). The program object is not deleted: nothing
      reaches the driver. */
  method FreeShader(st: Orion, s: Shader)
    requires s in st.shaderList
    modifies st`shaderList
    ensures st.shaderList == SuffixAfter(old(st.shaderList), s)
  {
    ghost var k := 0;
    while st.shaderList[0] != s
      invariant k <= IndexOf(old(st.shaderList), s) && st.shaderList == old(st.shaderList)[k..]
      decreases |st.shaderList|
    {
      assert old(st.shaderList)[k] != s;
      st.shaderList := st.shaderList[1..];
      k := k + 1;
    }
    st.shaderList := st.shaderList[1..];
  }
}
