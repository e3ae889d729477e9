/** `MiniGl.Attribute`: a GPU buffer and the layout of the vertex attribute
    it feeds. The typed array a buffer is filled from belongs to the geometry
    that owns the attribute; `Update` receives its current contents. */
module Buffers {

  import opened Text
  import opened Gl

  class Attribute {
    /** The context the attribute class closes over. */
    const gl: Context
    const target: Target
    /** Components per vertex. */
    const size: nat
    const componentType: ComponentType
    const normalized: bool
    const buffer: Handle

    /** `new Attribute(config)`: the type defaults to `FLOAT`, `normalized`
        to false, and the buffer is created before the configuration is
        applied. No configuration passes `values`, so the closing `update()`
        issues nothing. */
    constructor (gl: Context, target: Target, size: nat, componentType: ComponentType := Float)
      modifies gl`log, gl`nextHandle
      ensures this.gl == gl && this.target == target && this.size == size
      ensures this.componentType == componentType && !normalized
      ensures buffer == old(gl.nextHandle) && gl.nextHandle == buffer + 1
      ensures gl.log == old(gl.log) + [CreateBuffer(buffer)]
    {
      this.gl := gl;
      this.target := target;
      this.size := size;
      this.componentType := componentType;
      normalized := false;
      var b := gl.NewHandle();
      buffer := b;
      new;
      gl.Call(CreateBuffer(b));
    }

    /** The calls of `update()`: nothing while there are no values, otherwise
        bind the buffer and upload them to it. */
    function UpdateCalls(values: Option<Payload>): (calls: seq<GlCall>)
      ensures values.None? <==> calls == []
      ensures values.Some? ==>
                |calls| == 2 && calls[0] == BindBuffer(target, buffer) && calls[1] == BufferData(target, values.value)
    {
      if values.None? then [] else [BindBuffer(target, buffer), BufferData(target, values.value)]
    }

    /** The calls of `use(location)`: the buffer is always bound; a vertex
        buffer with an active location also gets its pointer enabled and set. */
    function UseCalls(location: int): (calls: seq<GlCall>)
      ensures |calls| >= 1 && calls[0] == BindBuffer(target, buffer)
      ensures |calls| == 3 <==> target == ArrayBuffer && location != -1
      ensures |calls| != 3 ==> |calls| == 1
      ensures |calls| == 3 ==>
                && calls[1] == EnableVertexAttribArray(location)
                && calls[2] == VertexAttribPointer(location, size, componentType, normalized, 0, 0)
    {
      [BindBuffer(target, buffer)]
      + if target == ArrayBuffer && location != -1 then
          [EnableVertexAttribArray(location), VertexAttribPointer(location, size, componentType, normalized, 0, 0)]
        else []
    }

    /** The calls of `attach(name, program)`: none for an inactive attribute,
        otherwise exactly what `use` issues for the location found. */
    function AttachCalls(name: string, program: Handle): (calls: seq<GlCall>)
      ensures gl.attribLocation(program, name) == -1 <==> calls == []
      ensures gl.attribLocation(program, name) != -1 ==> calls == UseCalls(gl.attribLocation(program, name))
    {
      var location := gl.attribLocation(program, name);
      if location == -1 then []
      else
        [BindBuffer(target, buffer)]
        + if target == ArrayBuffer then
            [EnableVertexAttribArray(location), VertexAttribPointer(location, size, componentType, normalized, 0, 0)]
          else []
    }

    /** `update()` for the given contents of the attribute's typed array. */
    method Update(values: Option<Payload>)
      modifies gl`log
      ensures gl.log == old(gl.log) + UpdateCalls(values)
    {
      if values.Some? {
        gl.Call(BindBuffer(target, buffer));
        gl.Call(BufferData(target, values.value));
      }
    }

    /** `attach(name, program)`: looks the attribute up in the linked program. */
    method Attach(name: string, program: Handle) returns (location: int)
      modifies gl`log
      ensures location == gl.attribLocation(program, name)
      ensures gl.log == old(gl.log) + AttachCalls(name, program)
    {
      location := gl.attribLocation(program, name);
      if location == -1 {
        return;
      }
      gl.Call(BindBuffer(target, buffer));
      if target == ArrayBuffer {
        gl.Call(EnableVertexAttribArray(location));
        gl.Call(VertexAttribPointer(location, size, componentType, normalized, 0, 0));
      }
    }

    /** `use(location)` before a draw. */
    method Use(location: int)
      modifies gl`log
      ensures gl.log == old(gl.log) + UseCalls(location)
    {
      gl.Call(BindBuffer(target, buffer));
      if target == ArrayBuffer && location != -1 {
        gl.Call(EnableVertexAttribArray(location));
        gl.Call(VertexAttribPointer(location, size, componentType, normalized, 0, 0));
      }
    }
  }
}
