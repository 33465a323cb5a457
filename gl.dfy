/** The OpenGL enumerants the library switches on (values as in the OpenGL
    registry, which the generated loader header reproduces) and the calls the
    library issues to the GL driver. */
module Gl {

  // Buffer binding targets.
  const ARRAY_BUFFER: nat := 0x8892
  const ATOMIC_COUNTER_BUFFER: nat := 0x92C0
  const COPY_READ_BUFFER: nat := 0x8F36
  const COPY_WRITE_BUFFER: nat := 0x8F37
  const DISPATCH_INDIRECT_BUFFER: nat := 0x90EE
  const DRAW_INDIRECT_BUFFER: nat := 0x8F3F
  const ELEMENT_ARRAY_BUFFER: nat := 0x8893
  const PIXEL_PACK_BUFFER: nat := 0x88EB
  const PIXEL_UNPACK_BUFFER: nat := 0x88EC
  const QUERY_BUFFER: nat := 0x9192
  const SHADER_STORAGE_BUFFER: nat := 0x90D2
  const TEXTURE_BUFFER: nat := 0x8C2A // also a texture target
  const TRANSFORM_FEEDBACK_BUFFER: nat := 0x8C8E
  const UNIFORM_BUFFER: nat := 0x8A11

  // Texture binding targets.
  const TEXTURE_1D: nat := 0x0DE0
  const TEXTURE_2D: nat := 0x0DE1
  const TEXTURE_3D: nat := 0x806F
  const TEXTURE_1D_ARRAY: nat := 0x8C18
  const TEXTURE_2D_ARRAY: nat := 0x8C1A
  const TEXTURE_RECTANGLE: nat := 0x84F5
  const TEXTURE_CUBE_MAP: nat := 0x8513
  const TEXTURE_CUBE_MAP_ARRAY: nat := 0x9009
  const TEXTURE_2D_MULTISAMPLE: nat := 0x9100
  const TEXTURE_2D_MULTISAMPLE_ARRAY: nat := 0x9102

  const TEXTURE0: nat := 0x84C0
  const UNSIGNED_BYTE: nat := 0x1401

  /** One call that reaches the GL driver. Object names are `nat`s; 0 is "no object".
      Data pointers are not recorded, only sizes and offsets. */
  datatype Call =
    // calls that the tracker intercepts before forwarding
    | BindBuffer(target: nat, buffer: nat)
    | DeleteBuffers(buffers: seq<nat>)
    | BindTexture(target: nat, texture: nat)
    | DeleteTextures(textures: seq<nat>)
    | BindVertexArray(vao: nat)
    | DeleteVertexArrays(arrays: seq<nat>)
    | UseProgram(program: nat)
    | DeleteProgram(program: nat)
    // name generation (the name is the one the driver hands out)
    | GenBuffers(name: nat)
    | CreateBuffers(name: nat)
    | GenTextures(name: nat)
    | CreateTextures(target: nat, name: nat)
    | CreateProgram(name: nat)
    // buffer data stores
    | BufferData(target: nat, size: nat, usage: nat)
    | NamedBufferData(buffer: nat, size: nat, usage: nat)
    | BufferSubData(target: nat, offset: nat, size: nat)
    | NamedBufferSubData(buffer: nat, offset: nat, size: nat)
    // texture storage and images
    | ActiveTexture(unit: nat)
    | TexStorage1D(target: nat, levels: nat, internalFormat: nat, width: nat)
    | TexStorage2D(target: nat, levels: nat, internalFormat: nat, width: nat, height: nat)
    | TexStorage3D(target: nat, levels: nat, internalFormat: nat, width: nat, height: nat, depth: nat)
    | TextureStorage1D(texture: nat, levels: nat, internalFormat: nat, width: nat)
    | TextureStorage2D(texture: nat, levels: nat, internalFormat: nat, width: nat, height: nat)
    | TextureStorage3D(texture: nat, levels: nat, internalFormat: nat, width: nat, height: nat, depth: nat)
    | TexImage1D(target: nat, internalFormat: nat, width: nat, format: nat)
    | TexImage2D(target: nat, internalFormat: nat, width: nat, height: nat, format: nat)
    | TexSubImage1D(target: nat, width: nat, format: nat)
    | TexSubImage2D(target: nat, width: nat, height: nat, format: nat)
    | TextureSubImage1D(texture: nat, width: nat, format: nat)
    | TextureSubImage2D(texture: nat, width: nat, height: nat, format: nat)
    | GenerateMipmap(target: nat)
    | GenerateTextureMipmap(texture: nat)
}
