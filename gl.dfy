/** The WebGL context as the rendering layer sees it: every call it makes is
    appended to a trace, handles come from a counter, and the locations the
    linked program reports are oracle functions fixed when the context is made. */
module Gl {

  import Text

  type Handle = nat

  datatype Stage = Vertex | Fragment

  /** `gl.ARRAY_BUFFER` (per-vertex data) or `gl.ELEMENT_ARRAY_BUFFER` (indices). */
  datatype Target = ArrayBuffer | ElementArrayBuffer

  datatype ComponentType = Float | UnsignedShort

  datatype DrawMode = Triangles | Lines

  /** What `getUniformLocation` returns: `null` when the name is not active,
      otherwise a location object. The upload guard also rejects `-1`. */
  datatype UniformLocation = Null | At(id: int)
  {
    predicate Usable() { At? && id != -1 }
  }

  /** A uniform's value. `Quotient(n, d)` is the floating-point quotient `n / d`
      as the browser computes it; it is passed through and never evaluated. */
  datatype Value = Num(x: real) | Nums(xs: seq<real>) | Quotient(n: real, d: real)

  /** The contents of a typed array handed to `bufferData`. */
  datatype Payload = Floats(fs: seq<real>) | Shorts(ss: seq<int>)

  /** The `uniform*` upload functions of the dispatch table. */
  datatype UploadFn = Uniform1f | Uniform1i | Uniform2fv | Uniform3fv | Uniform4fv | UniformMatrix4fv
  {
    /** The suffix after `uniform` in the WebGL method name. */
    function Suffix(): string
    {
      match this
      case Uniform1f => "1f"
      case Uniform1i => "1i"
      case Uniform2fv => "2fv"
      case Uniform3fv => "3fv"
      case Uniform4fv => "4fv"
      case UniformMatrix4fv => "Matrix4fv"
    }

    /** `typeFn.startsWith("Matrix")`. */
    predicate IsMatrix()
    {
      |Suffix()| >= 6 && Suffix()[..6] == "Matrix"
    }
  }

  datatype GlCall =
    | CreateShader(stage: Stage, shader: Handle)
    | ShaderSource(shader: Handle, source: string)
    | CompileShader(shader: Handle)
    | CreateProgram(program: Handle)
    | AttachShader(program: Handle, shader: Handle)
    | LinkProgram(program: Handle)
    | UseProgram(program: Handle)
    | CreateBuffer(buffer: Handle)
    | BindBuffer(target: Target, buffer: Handle)
    | BufferData(target: Target, data: Payload)
    | EnableVertexAttribArray(location: int)
    | VertexAttribPointer(location: int, size: nat, componentType: ComponentType, normalized: bool, stride: nat, offset: nat)
    | UploadUniform(fn: UploadFn, uniformLocation: UniformLocation, transpose: Text.Option<bool>, value: Value)
    | DrawElements(mode: DrawMode, count: nat, indexType: ComponentType, offset: nat)
    | Viewport(x: int, y: int, width: real, height: real)
    | ClearColor(r: real, g: real, b: real, a: real)
    | ClearDepth(depth: real)

  class Context {
    /** Every call issued so far, oldest first. */
    var log: seq<GlCall>
    var nextHandle: Handle
    /** `getUniformLocation(program, name)` of the linked program. */
    const uniformLocation: (Handle, string) -> UniformLocation
    /** `getAttribLocation(program, name)`: `-1` when the attribute is not active. */
    const attribLocation: (Handle, string) -> int

    constructor (uniformLocation: (Handle, string) -> UniformLocation, attribLocation: (Handle, string) -> int)
      ensures log == [] && nextHandle == 0
      ensures this.uniformLocation == uniformLocation && this.attribLocation == attribLocation
    {
      log := [];
      nextHandle := 0;
      this.uniformLocation := uniformLocation;
      this.attribLocation := attribLocation;
    }

    /** Issues one call. */
    method Call(c: GlCall)
      modifies this`log
      ensures log == old(log) + [c]
    {
      log := log + [c];
    }

    /** A handle no earlier `New*` call has returned. */
    method NewHandle() returns (h: Handle)
      modifies this`nextHandle
      ensures h == old(nextHandle) && nextHandle == h + 1
    {
      h := nextHandle;
      nextHandle := nextHandle + 1;
    }
  }

  /** A step's calls, once issued, move from the calls still to come to the log. */
  lemma Advance(total: seq<GlCall>, log: seq<GlCall>, step: seq<GlCall>, rest: seq<GlCall>)
    requires total == log + (step + rest)
    ensures total == (log + step) + rest
  {
  }

  /** Calls issued in four steps are the log followed by the four steps' calls. */
  lemma AdvanceFour(log: seq<GlCall>, a: seq<GlCall>, b: seq<GlCall>, c: seq<GlCall>, d: seq<GlCall>)
    ensures log + a + b + c + d == log + (a + b + c + d)
  {
  }

  /** Calls issued in two steps are the log followed by both steps' calls. */
  lemma AdvanceTwo(log: seq<GlCall>, a: seq<GlCall>, b: seq<GlCall>)
    ensures log + a + b == log + (a + b)
  {
  }
}
