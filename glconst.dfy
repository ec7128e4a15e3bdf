/** The WebGL enumerants the core uses, with the values the WebGL 1.0 and 2.0
    specifications (and the OpenGL ES headers they follow) give them. */
module GlConst {

  const NO_ERROR: nat := 0

  const TRIANGLES: nat := 0x0004
  const DEPTH_BUFFER_BIT: nat := 0x0100
  const COLOR_BUFFER_BIT: nat := 0x4000
  /** `COLOR_BUFFER_BIT | DEPTH_BUFFER_BIT` */
  const COLOR_AND_DEPTH_BUFFER_BITS: nat := ((COLOR_BUFFER_BIT as bv16) | (DEPTH_BUFFER_BIT as bv16)) as nat

  const UNSIGNED_BYTE: nat := 0x1401
  const UNSIGNED_SHORT: nat := 0x1403
  const FLOAT: nat := 0x1406

  const DEPTH_COMPONENT: nat := 0x1902
  const RGB: nat := 0x1907
  const RGBA: nat := 0x1908
  const DEPTH_COMPONENT16: nat := 0x81A5

  const VERSION: nat := 0x1F02

  const NEAREST: nat := 0x2600
  const LINEAR: nat := 0x2601
  const TEXTURE_MAG_FILTER: nat := 0x2800
  const TEXTURE_MIN_FILTER: nat := 0x2801
  const TEXTURE_WRAP_S: nat := 0x2802
  const TEXTURE_WRAP_T: nat := 0x2803
  const REPEAT: nat := 0x2901
  const CLAMP_TO_EDGE: nat := 0x812F

  const TEXTURE_2D: nat := 0x0DE1
  const TEXTURE0: nat := 0x84C0
  const TEXTURE_CUBE_MAP: nat := 0x8513
  const TEXTURE_CUBE_MAP_POSITIVE_X: nat := 0x8515
  const TEXTURE_CUBE_MAP_NEGATIVE_X: nat := 0x8516
  const TEXTURE_CUBE_MAP_POSITIVE_Y: nat := 0x8517
  const TEXTURE_CUBE_MAP_NEGATIVE_Y: nat := 0x8518
  const TEXTURE_CUBE_MAP_POSITIVE_Z: nat := 0x8519
  const TEXTURE_CUBE_MAP_NEGATIVE_Z: nat := 0x851A

  const ARRAY_BUFFER: nat := 0x8892
  const ELEMENT_ARRAY_BUFFER: nat := 0x8893
  const STATIC_DRAW: nat := 0x88E4

  const FRAGMENT_SHADER: nat := 0x8B30
  const VERTEX_SHADER: nat := 0x8B31
  const COMPILE_STATUS: nat := 0x8B81
  const LINK_STATUS: nat := 0x8B82

  const COLOR_ATTACHMENT0: nat := 0x8CE0
  const FRAMEBUFFER_COMPLETE: nat := 0x8CD5
  const DEPTH_ATTACHMENT: nat := 0x8D00
  const FRAMEBUFFER: nat := 0x8D40
  const RENDERBUFFER: nat := 0x8D41

  /** ETC1_RGB8_OES, from the New Tokens section of the
      OES_compressed_ETC1_RGB8_texture extension. */
  const ETC1_RGB8_OES: nat := 0x8D64
}
