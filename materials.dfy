/** `MiniGl.Material`: the two shader sources assembled from a fixed prefix,
    the vertex attribute lines, the uniform declarations and the caller's
    GLSL bodies; the compiled and linked program; and the flat list of
    (uniform, location) entries `attachUniforms` builds for later uploads. */
module Materials {

  import opened Text
  import opened Gl
  import opened Uniforms
  import opened Flatten

  // ---------------------------------------------------------------------
  // Shader source assembly

  const Prefix: string := "\nprecision highp float;\n"

  /** The three attribute declarations only the vertex stage receives. */
  const AttributeBlock: string := "\nattribute vec4 position;\nattribute vec2 uv;\nattribute vec2 uvNorm;"

  /** The declarations of a map of named uniforms for one stage, in entry order. */
  function DeclarationList(entries: seq<(string, Uniform)>, stage: Stage): (ds: seq<string>)
    ensures |ds| == |entries|
  {
    seq(|entries|, i requires 0 <= i < |entries| => Declaration(entries[i].1, entries[i].0, stage, 0))
  }

  /** `getUniformVariableDeclarations(uniforms, stage)`: one declaration per
      entry, joined by newlines. */
  function Declarations(entries: seq<(string, Uniform)>, stage: Stage): (r: string)
    ensures |entries| == 0 ==> r == ""
    ensures |entries| == 1 ==> r == Declaration(entries[0].1, entries[0].0, stage, 0)
  {
    Join(DeclarationList(entries, stage), "\n")
  }

  /** What both stages share after the prefix: the common uniforms'
      declarations, the material's own, then the stage's body, each on a new line. */
  function Tail(common: seq<(string, Uniform)>, own: seq<(string, Uniform)>, stage: Stage, body: string): string
  {
    "\n" + Declarations(common, stage) + "\n" + Declarations(own, stage) + "\n" + body
  }

  /** `material.vertexSource`: prefix, attribute lines, the common uniforms'
      declarations, the material's own, then the vertex body. */
  function VertexSource(common: seq<(string, Uniform)>, own: seq<(string, Uniform)>, body: string): (src: string)
  {
    Prefix + (AttributeBlock + Tail(common, own, Vertex, body))
  }

  /** The fragment source (the property the source calls `Source`): prefix,
      the common and own declarations for the fragment stage, then the body. */
  function FragmentSource(common: seq<(string, Uniform)>, own: seq<(string, Uniform)>, body: string): (src: string)
  {
    Prefix + Tail(common, own, Fragment, body)
  }

  /** A concatenation starts with its first part and ends with its last. */
  lemma Bracketed(first: string, middle: string, last: string)
    ensures |first + middle + last| == |first| + |middle| + |last|
    ensures (first + middle + last)[..|first|] == first
    ensures (first + middle + last)[|first| + |middle|..] == last
  {
  }

  /** A right-nested concatenation starts with its first two parts and ends with its last. */
  lemma Nested(first: string, second: string, middle: string, last: string)
    ensures var s := first + (second + (middle + last));
            && |s| == |first| + |second| + |middle| + |last|
            && s[..|first|] == first
            && s[|first|..][..|second|] == second
            && s[|s| - |last|..] == last
  {
    var s := first + (second + (middle + last));
    assert s[|first|..] == second + (middle + last);
    assert s[|s| - |last|..] == (second + (middle + last))[|second| + |middle|..];
    assert (middle + last)[|middle|..] == last;
  }

  /** The vertex source opens with the precision prefix and the attribute
      lines, and closes with its body. */
  lemma VertexFrame(common: seq<(string, Uniform)>, own: seq<(string, Uniform)>, body: string)
    ensures var v := VertexSource(common, own, body);
            && |v| >= |Prefix| + |AttributeBlock| + |body|
            && v[..|Prefix|] == Prefix
            && v[|Prefix|..][..|AttributeBlock|] == AttributeBlock
            && v[|v| - |body|..] == body
  {
    var head := "\n" + Declarations(common, Vertex) + "\n" + Declarations(own, Vertex) + "\n";
    Nested(Prefix, AttributeBlock, head, body);
  }

  /** The fragment source opens with the precision prefix and closes with its body. */
  lemma FragmentFrame(common: seq<(string, Uniform)>, own: seq<(string, Uniform)>, body: string)
    ensures var f := FragmentSource(common, own, body);
            && |f| >= |Prefix| + |body|
            && f[..|Prefix|] == Prefix
            && f[|f| - |body|..] == body
  {
    var head := "\n" + Declarations(common, Fragment) + "\n" + Declarations(own, Fragment) + "\n";
    Bracketed(Prefix, head, body);
    assert FragmentSource(common, own, body) == Prefix + head + body;
  }

  /** A uniform excluded from a stage leaves an empty line in that stage's
      declarations and a non-empty one in the other's. */
  lemma ExcludedLine(entries: seq<(string, Uniform)>, i: nat, stage: Stage)
    requires i < |entries|
    ensures DeclarationList(entries, stage)[i] == "" <==> entries[i].1.ExcludeFrom() == Some(stage)
  {
    DeclarationEmptyIff(entries[i].1, entries[i].0, stage, 0);
  }

  /** Without stage exclusions the two stages see the same declarations: the
      vertex source is the fragment source with the attribute lines inserted
      after the prefix, when the bodies agree. */
  lemma VertexIsFragmentWithAttributes(common: seq<(string, Uniform)>, own: seq<(string, Uniform)>, body: string)
    requires forall i :: 0 <= i < |common| ==> NoExclusions(common[i].1)
    requires forall i :: 0 <= i < |own| ==> NoExclusions(own[i].1)
    ensures |FragmentSource(common, own, body)| >= |Prefix|
    ensures VertexSource(common, own, body)
         == Prefix + AttributeBlock + FragmentSource(common, own, body)[|Prefix|..]
  {
    SameDeclarations(common);
    SameDeclarations(own);
    assert FragmentSource(common, own, body)[|Prefix|..] == Tail(common, own, Fragment, body);
  }

  lemma SameDeclarations(entries: seq<(string, Uniform)>)
    requires forall i :: 0 <= i < |entries| ==> NoExclusions(entries[i].1)
    ensures Declarations(entries, Vertex) == Declarations(entries, Fragment)
  {
    forall i | 0 <= i < |entries|
      ensures DeclarationList(entries, Vertex)[i] == DeclarationList(entries, Fragment)[i]
    {
      StageIndependent(entries[i].1, entries[i].0, 0);
    }
    assert DeclarationList(entries, Vertex) == DeclarationList(entries, Fragment);
  }

  // ---------------------------------------------------------------------
  // Program creation

  /** `getShaderByType(type, source)`: create, load and compile one shader.
      The compile status is only reported on the console. */
  function CompileCalls(stage: Stage, shader: Handle, source: string): (calls: seq<GlCall>)
    ensures |calls| == 3
  {
    [CreateShader(stage, shader), ShaderSource(shader, source), CompileShader(shader)]
  }

  /** Create the program, attach both shaders, link it and make it current.
      The link status is only reported on the console. */
  function LinkCalls(program: Handle, vertexShader: Handle, fragmentShader: Handle): (calls: seq<GlCall>)
    ensures |calls| == 5
  {
    [CreateProgram(program), AttachShader(program, vertexShader), AttachShader(program, fragmentShader),
     LinkProgram(program), UseProgram(program)]
  }

  /** The order of the whole build: each shader is created, given its source
      and compiled, the vertex shader first; then the program is created,
      both shaders are attached, the program is linked and made current. */
  lemma BuildOrder(vertexShader: Handle, fragmentShader: Handle, program: Handle, vertexSource: string, fragmentSource: string)
    ensures var calls := CompileCalls(Vertex, vertexShader, vertexSource) + CompileCalls(Fragment, fragmentShader, fragmentSource)
                         + LinkCalls(program, vertexShader, fragmentShader);
            && |calls| == 11
            && calls[0] == CreateShader(Vertex, vertexShader) && calls[1] == ShaderSource(vertexShader, vertexSource)
            && calls[2] == CompileShader(vertexShader)
            && calls[3] == CreateShader(Fragment, fragmentShader) && calls[4] == ShaderSource(fragmentShader, fragmentSource)
            && calls[5] == CompileShader(fragmentShader)
            && calls[6] == CreateProgram(program) && calls[7] == AttachShader(program, vertexShader)
            && calls[8] == AttachShader(program, fragmentShader) && calls[9] == LinkProgram(program)
            && calls[10] == UseProgram(program)
  {
  }

  /** Compiles both sources and links them; returns the three new handles. */
  method BuildProgram(gl: Context, vertexSource: string, fragmentSource: string)
    returns (vertexShader: Handle, fragmentShader: Handle, program: Handle)
    modifies gl`log, gl`nextHandle
    ensures vertexShader == old(gl.nextHandle) && fragmentShader == vertexShader + 1 && program == vertexShader + 2
    ensures gl.nextHandle == vertexShader + 3
    ensures gl.log == old(gl.log) + CompileCalls(Vertex, vertexShader, vertexSource)
                      + CompileCalls(Fragment, fragmentShader, fragmentSource)
                      + LinkCalls(program, vertexShader, fragmentShader)
  {
    vertexShader := CompileStage(gl, Vertex, vertexSource);
    fragmentShader := CompileStage(gl, Fragment, fragmentSource);
    program := gl.NewHandle();
    gl.Call(CreateProgram(program));
    gl.Call(AttachShader(program, vertexShader));
    gl.Call(AttachShader(program, fragmentShader));
    gl.Call(LinkProgram(program));
    gl.Call(UseProgram(program));
  }

  /** `getShaderByType(type, source)`. */
  method CompileStage(gl: Context, stage: Stage, source: string) returns (shader: Handle)
    modifies gl`log, gl`nextHandle
    ensures shader == old(gl.nextHandle) && gl.nextHandle == shader + 1
    ensures gl.log == old(gl.log) + CompileCalls(stage, shader, source)
  {
    shader := gl.NewHandle();
    gl.Call(CreateShader(stage, shader));
    gl.Call(ShaderSource(shader, source));
    gl.Call(CompileShader(shader));
  }

  // ---------------------------------------------------------------------
  // Uniform uploads

  /** The leaf uniform objects a list of instances refers to. */
  function InstanceUniforms(instances: seq<UniformInstance>): set<LeafUniform>
  {
    set i | 0 <= i < |instances| :: instances[i].uniform
  }

  /** Each entry paired with the value its uniform holds now. */
  function Snapshot(instances: seq<UniformInstance>): (pending: seq<(UniformInstance, Option<Value>)>)
    reads InstanceUniforms(instances)
    ensures |pending| == |instances|
    ensures forall i :: 0 <= i < |instances| ==> pending[i] == (instances[i], instances[i].uniform.value)
  {
    seq(|instances|, i requires 0 <= i < |instances| reads InstanceUniforms(instances) =>
          (instances[i], instances[i].uniform.value))
  }

  /** The calls of `uniformInstances.forEach(({uniform, location}) =>
      uniform.update(location))` when each entry's uniform holds the value
      paired with it: each entry's upload, in list order. */
  function UniformCalls(pending: seq<(UniformInstance, Option<Value>)>): (calls: seq<GlCall>)
    ensures |calls| <= |pending|
  {
    if |pending| == 0 then []
    else UploadCalls(pending[0].0.uniform, pending[0].1, pending[0].0.location) + UniformCalls(pending[1..])
  }

  /** The uniform pass issues uploads and nothing else. */
  lemma {:induction false} UniformCallsUpload(pending: seq<(UniformInstance, Option<Value>)>)
    ensures forall i :: 0 <= i < |UniformCalls(pending)| ==> UniformCalls(pending)[i].UploadUniform?
  {
    if |pending| > 0 {
      UniformCallsUpload(pending[1..]);
      var first := UploadCalls(pending[0].0.uniform, pending[0].1, pending[0].0.location);
      assert UniformCalls(pending) == first + UniformCalls(pending[1..]);
    }
  }

  /** Every call of one entry's upload is among the calls of the whole pass. */
  lemma {:induction false} UniformCallsInclude(pending: seq<(UniformInstance, Option<Value>)>, k: nat)
    requires k < |pending|
    ensures forall c :: c in UploadCalls(pending[k].0.uniform, pending[k].1, pending[k].0.location) ==> c in UniformCalls(pending)
  {
    var first := UploadCalls(pending[0].0.uniform, pending[0].1, pending[0].0.location);
    assert UniformCalls(pending) == first + UniformCalls(pending[1..]);
    if k > 0 {
      UniformCallsInclude(pending[1..], k - 1);
      assert pending[1..][k - 1] == pending[k];
    }
  }

  /** Drawing uploads nothing exactly when no entry has both a value and a
      usable location. */
  lemma {:induction false} UniformCallsEmpty(pending: seq<(UniformInstance, Option<Value>)>)
    ensures UniformCalls(pending) == []
        <==> forall i :: 0 <= i < |pending| ==> pending[i].1.None? || !pending[i].0.location.Usable()
  {
    if |pending| > 0 {
      UniformCallsEmpty(pending[1..]);
      assert forall i :: 1 <= i < |pending| ==> pending[i] == pending[1..][i - 1];
    }
  }

  // ---------------------------------------------------------------------
  // The material

  class Material {
    const gl: Context
    /** The owner's common uniforms, which every material declares and attaches first. */
    const common: seq<(string, Uniform)>
    /** The material's own uniforms, as (name, uniform) entries. */
    const uniforms: seq<(string, Uniform)>
    const vertexSource: string
    const fragmentSource: string
    const vertexShader: Handle
    const fragmentShader: Handle
    const program: Handle
    /** One entry per leaf uniform, common uniforms first. */
    var uniformInstances: seq<UniformInstance>

    /** `getUniformLocation(program, name)` of this material's program. */
    function Locator(): string -> UniformLocation
    {
      name => gl.uniformLocation(program, name)
    }

    /** The entry list is the one the constructor attached: the common
        uniforms' leaves, then the material's own, each at its path's location. */
    predicate Attached()
      reads this
    {
      uniformInstances == MapInstances(Locator(), common) + MapInstances(Locator(), uniforms)
    }

    /** `new Material(vertexShaders, fragments, uniforms)` for the owner whose
        common uniforms are `common`: builds both sources, compiles and links
        them, then attaches the common uniforms and the material's own. */
    constructor (gl: Context, common: seq<(string, Uniform)>, vertexShaders: string, fragments: string,
                 uniforms: seq<(string, Uniform)>)
      modifies gl`log, gl`nextHandle
      ensures this.gl == gl && this.common == common && this.uniforms == uniforms
      ensures vertexSource == VertexSource(common, uniforms, vertexShaders)
      ensures fragmentSource == FragmentSource(common, uniforms, fragments)
      ensures vertexShader == old(gl.nextHandle) && fragmentShader == vertexShader + 1 && program == vertexShader + 2
      ensures gl.nextHandle == vertexShader + 3
      ensures gl.log == old(gl.log) + CompileCalls(Vertex, vertexShader, vertexSource)
                        + CompileCalls(Fragment, fragmentShader, fragmentSource)
                        + LinkCalls(program, vertexShader, fragmentShader)
      ensures uniformInstances == MapInstances(Locator(), common) + MapInstances(Locator(), uniforms)
    {
      this.gl := gl;
      this.common := common;
      this.uniforms := uniforms;
      uniformInstances := [];
      var vsrc := VertexSource(common, uniforms, vertexShaders);
      var fsrc := FragmentSource(common, uniforms, fragments);
      vertexSource, fragmentSource := vsrc, fsrc;
      var vs, fs, p := BuildProgram(gl, vsrc, fsrc);
      vertexShader, fragmentShader, program := vs, fs, p;
      new;
      AttachAll(common, uniforms);
    }

    /** The two `attachUniforms(undefined, ...)` calls of the constructor:
        the common uniforms first, then the material's own. */
    method AttachAll(common: seq<(string, Uniform)>, own: seq<(string, Uniform)>)
      modifies this`uniformInstances
      ensures uniformInstances == old(uniformInstances) + MapInstances(Locator(), common) + MapInstances(Locator(), own)
    {
      AttachEntries(common);
      AttachEntries(own);
    }

    /** `attachUniforms(undefined, uniforms)`: every entry of a uniform map, in order. */
    method AttachEntries(entries: seq<(string, Uniform)>)
      modifies this`uniformInstances
      ensures uniformInstances == old(uniformInstances) + MapInstances(Locator(), entries)
    {
      for k := 0 to |entries|
        invariant old(uniformInstances) + MapInstances(Locator(), entries)
               == uniformInstances + MapInstances(Locator(), entries[k..])
      {
        assert entries[k..][1..] == entries[k + 1..];
        AttachUniform(entries[k].0, entries[k].1);
      }
    }

    /** `attachUniforms(name, uniform)`: an array attaches each element under
        `name[i]`, a struct each field under `name.key`, and a leaf records
        itself with the location of `name`. */
    method AttachUniform(name: string, u: Uniform)
      modifies this`uniformInstances
      ensures uniformInstances == old(uniformInstances) + Locate(Locator(), name, Leaves(u))
      decreases u, 2
    {
      match u
      case Leaf(l) =>
        assert Locate(Locator(), name, Leaves(u)) == [UniformInstance(l, Locator()(PathName(name, [])))];
        uniformInstances := uniformInstances + [UniformInstance(l, gl.uniformLocation(program, name))];
      case ArrayOf(es, _) =>
        AttachElements(name, es);
      case StructOf(fs, _) =>
        AttachFields(name, fs);
    }

    /** `value.forEach((u, i) => attachUniforms(name[i], u))`. */
    method AttachElements(name: string, es: seq<Uniform>)
      modifies this`uniformInstances
      ensures uniformInstances == old(uniformInstances) + Locate(Locator(), name, ElementLeaves(es, 0))
      decreases es, 1
    {
      for i := 0 to |es|
        invariant old(uniformInstances) + Locate(Locator(), name, ElementLeaves(es, 0))
               == uniformInstances + Locate(Locator(), name, ElementLeaves(es, i))
      {
        ElementLeavesStep(Locator(), name, es, i);
        AttachUniform(name + "[" + NatToString(i) + "]", es[i]);
      }
    }

    /** `Object.entries(value).forEach(([key, u]) => attachUniforms(name.key, u))`. */
    method AttachFields(name: string, fs: seq<(string, Uniform)>)
      modifies this`uniformInstances
      ensures uniformInstances == old(uniformInstances) + Locate(Locator(), name, FieldLeaves(fs, 0))
      decreases fs, 1
    {
      for k := 0 to |fs|
        invariant old(uniformInstances) + Locate(Locator(), name, FieldLeaves(fs, 0))
               == uniformInstances + Locate(Locator(), name, FieldLeaves(fs, k))
      {
        FieldLeavesStep(Locator(), name, fs, k);
        AttachField(name, fs[k]);
      }
    }

    /** One struct field: attached under `name.key`. */
    method AttachField(name: string, field: (string, Uniform))
      modifies this`uniformInstances
      ensures uniformInstances == old(uniformInstances) + Locate(Locator(), name + "." + field.0, Leaves(field.1))
      decreases field, 0
    {
      AttachUniform(name + "." + field.0, field.1);
    }
  }

  // ---------------------------------------------------------------------
  // What the instance list holds

  /** Every instance belongs to a leaf of one of the map's uniforms and carries
      the location of that leaf's path name. */
  lemma {:induction false} InstanceOfLeaf(locate: string -> UniformLocation, entries: seq<(string, Uniform)>, inst: UniformInstance)
    requires inst in MapInstances(locate, entries)
    ensures exists j, e :: 0 <= j < |entries| && e in Leaves(entries[j].1)
              && inst == UniformInstance(e.leaf, locate(PathName(entries[j].0, e.path)))
  {
    var head := Locate(locate, entries[0].0, Leaves(entries[0].1));
    if inst in head {
      var i :| 0 <= i < |head| && head[i] == inst;
      var e := Leaves(entries[0].1)[i];
      assert e in Leaves(entries[0].1);
      assert inst == UniformInstance(e.leaf, locate(PathName(entries[0].0, e.path)));
    } else {
      InstanceOfLeaf(locate, entries[1..], inst);
      var j, e :| 0 <= j < |entries[1..]| && e in Leaves(entries[1..][j].1)
                  && inst == UniformInstance(e.leaf, locate(PathName(entries[1..][j].0, e.path)));
      assert entries[1..][j] == entries[j + 1];
    }
  }

  /** Every leaf of every uniform in the map has its instance. */
  lemma {:induction false} LeafHasInstance(locate: string -> UniformLocation, entries: seq<(string, Uniform)>, j: nat, e: LeafEntry)
    requires j < |entries| && e in Leaves(entries[j].1)
    ensures UniformInstance(e.leaf, locate(PathName(entries[j].0, e.path))) in MapInstances(locate, entries)
    decreases j
  {
    if j == 0 {
      var i :| 0 <= i < |Leaves(entries[0].1)| && Leaves(entries[0].1)[i] == e;
      assert Locate(locate, entries[0].0, Leaves(entries[0].1))[i] == UniformInstance(e.leaf, locate(PathName(entries[0].0, e.path)));
    } else {
      assert entries[1..][j - 1] == entries[j];
      LeafHasInstance(locate, entries[1..], j - 1, e);
    }
  }

  /** The instance list of a map is as long as the map has leaves. */
  lemma {:induction false} InstanceCount(locate: string -> UniformLocation, entries: seq<(string, Uniform)>)
    ensures |MapInstances(locate, entries)| == LeafCount(entries)
  {
    if |entries| > 0 {
      InstanceCount(locate, entries[1..]);
    }
  }

  /** The number of leaves of a uniform map. */
  function LeafCount(entries: seq<(string, Uniform)>): nat
  {
    if |entries| == 0 then 0 else |Leaves(entries[0].1)| + LeafCount(entries[1..])
  }
}
