/** The OpenGL objects the viewer's logic touches, reduced to what is
    observable: object names, texture formats and issued draw calls. */
module Gl {

  /** A name returned by `glGen*`; OpenGL never hands out 0. */
  type Name = n: nat | 0 < n witness 1

  /** A supply of fresh object names, one counter per namespace. */
  datatype Names = Names(nextTexture: Name, nextVertexArray: Name, nextBuffer: Name)

  /** `glGenTextures(1, &t)`. */
  function GenTexture(ns: Names): (Name, Names) {
    (ns.nextTexture, ns.(nextTexture := ns.nextTexture + 1))
  }

  /** `glGenVertexArrays(1, &vao)`. */
  function GenVertexArray(ns: Names): (Name, Names) {
    (ns.nextVertexArray, ns.(nextVertexArray := ns.nextVertexArray + 1))
  }

  /** `glGenBuffers(1, &buf)`. */
  function GenBuffer(ns: Names): (Name, Names) {
    (ns.nextBuffer, ns.(nextBuffer := ns.nextBuffer + 1))
  }

  /** Pixel formats passed to `glTexImage2D`. */
  datatype TexFormat = Rgb | Rgba

  /** `glDrawElements(GL_TRIANGLES, count, GL_UNSIGNED_INT, 0)` with
      `vertexArray` bound. */
  datatype DrawCall = DrawElements(vertexArray: nat, count: nat)

  /** The largest `unsigned int`: what `return -1` from a function
      returning `unsigned int` yields. */
  const UintMax: nat := 0xFFFF_FFFF
}
