/** The OpenGL commands the modelled code issues, recorded in order.
    The graphics driver itself is not modelled; a method that talks to it
    returns the list of commands it would have sent. */
module GlCalls {
  import opened Geometry

  datatype GlCall =
    | BindVertexArray(vertexArray: nat)
    // binds the vertex array object a `Mesh` generated for itself
    | BindOwnVertexArray
    | BindArrayBuffer(buffer: nat)
    | EnableVertexAttribArray(index: nat)
    | VertexAttribPointer(index: nat, size: int, stride: nat, offset: nat)
    | ActiveTexture(unit: nat)
    | BindTexture(texture: nat)
    | SetInt(name: string, value: int)
    | SetMat4(name: string, matrix: Mat4)
    | SetVec3(name: string, vector: Vec3)
    | SetFloat(name: string, scalar: real)
    | DrawElements(count: nat)
    | UseProgram(program: nat)
    | DeleteProgram(program: nat)
}
