/** The `MiniGl` object itself and its `Mesh` class: meshes bind a geometry's
    attributes to a material's program, register with their owner on
    construction, and are drawn in list order by `render`. */
module Engine {

  import opened Text
  import opened Gl
  import opened Uniforms
  import opened Flatten
  import opened Buffers
  import opened Geometry
  import opened Materials

  /** `{attribute, location}`: an attribute and the location `attach` found for it. */
  datatype AttributeInstance = AttributeInstance(attribute: Attribute, location: int)

  /** `Object.entries(geometry.attributes)`: the four attributes under their names. */
  function AttributeEntries(g: PlaneGeometry): (entries: seq<(string, Attribute)>)
  {
    [("position", g.position), ("uv", g.uv), ("uvNorm", g.uvNorm), ("index", g.index)]
  }

  /** The calls of attaching each entry to `program`, in entry order. */
  function AttachAllCalls(entries: seq<(string, Attribute)>, program: Handle): seq<GlCall>
  {
    if |entries| == 0 then [] else entries[0].1.AttachCalls(entries[0].0, program) + AttachAllCalls(entries[1..], program)
  }

  /** The calls of `attributeInstances.forEach(({attribute, location}) => attribute.use(location))`. */
  function UseAllCalls(instances: seq<AttributeInstance>): (calls: seq<GlCall>)
    ensures |calls| >= |instances|
  {
    if |instances| == 0 then []
    else instances[0].attribute.UseCalls(instances[0].location) + UseAllCalls(instances[1..])
  }

  /** Binding the attributes issues binds, enables and pointers, never a draw. */
  lemma {:induction false} UseAllCallsBind(instances: seq<AttributeInstance>)
    ensures forall i :: 0 <= i < |UseAllCalls(instances)| ==>
              var c := UseAllCalls(instances)[i];
              c.BindBuffer? || c.EnableVertexAttribArray? || c.VertexAttribPointer?
  {
    if |instances| > 0 {
      UseAllCallsBind(instances[1..]);
      var first := instances[0].attribute.UseCalls(instances[0].location);
      assert UseAllCalls(instances) == first + UseAllCalls(instances[1..]);
    }
  }

  /** `meshes.filter(m => m !== mesh)`. */
  function Without(meshes: seq<Mesh>, mesh: Mesh): (r: seq<Mesh>)
    ensures forall i :: 0 <= i < |r| ==> r[i] in meshes && r[i] != mesh
    ensures forall i :: 0 <= i < |meshes| && meshes[i] != mesh ==> meshes[i] in r
    ensures |r| <= |meshes|
  {
    if |meshes| == 0 then []
    else (if meshes[0] == mesh then [] else [meshes[0]]) + Without(meshes[1..], mesh)
  }

  /** Filtering out a mesh that is not in the list changes nothing. */
  lemma {:induction false} WithoutAbsent(meshes: seq<Mesh>, mesh: Mesh)
    requires mesh !in meshes
    ensures Without(meshes, mesh) == meshes
  {
    if |meshes| > 0 {
      WithoutAbsent(meshes[1..], mesh);
      assert [meshes[0]] + meshes[1..] == meshes;
    }
  }

  /** Filtering keeps the other meshes in their order: it works piecewise. */
  lemma {:induction false} WithoutAppend(a: seq<Mesh>, b: seq<Mesh>, mesh: Mesh)
    ensures Without(a + b, mesh) == Without(a, mesh) + Without(b, mesh)
  {
    if |a| == 0 {
      assert a + b == b;
    } else {
      assert (a + b)[1..] == a[1..] + b;
      WithoutAppend(a[1..], b, mesh);
    }
  }

  /** Removing a mesh right after it registered restores the list. */
  lemma RegisterThenRemove(meshes: seq<Mesh>, mesh: Mesh)
    requires mesh !in meshes
    ensures Without(meshes + [mesh], mesh) == meshes
  {
    WithoutAppend(meshes, [mesh], mesh);
    WithoutAbsent(meshes, mesh);
    assert [mesh][1..] == [];
  }

  /** Attaches each entry to `program`, as the mesh constructor's `forEach` does. */
  method AttachAttributes(gl: Context, entries: seq<(string, Attribute)>, program: Handle)
    returns (instances: seq<AttributeInstance>)
    requires forall i :: 0 <= i < |entries| ==> entries[i].1.gl == gl
    modifies gl`log
    ensures |instances| == |entries|
    ensures forall i :: 0 <= i < |entries| ==>
              instances[i] == AttributeInstance(entries[i].1, gl.attribLocation(program, entries[i].0))
    ensures gl.log == old(gl.log) + AttachAllCalls(entries, program)
  {
    instances := [];
    ghost var total := gl.log + AttachAllCalls(entries, program);
    for k := 0 to |entries|
      invariant total == gl.log + AttachAllCalls(entries[k..], program)
      invariant |instances| == k
      invariant forall i :: 0 <= i < k ==>
                  instances[i] == AttributeInstance(entries[i].1, gl.attribLocation(program, entries[i].0))
    {
      var location := AttachNext(gl, entries, k, program, total);
      ghost var earlier := instances;
      instances := instances + [AttributeInstance(entries[k].1, location)];
      assert forall i :: 0 <= i < k ==> instances[i] == earlier[i];
    }
  }

  /** One step of the constructor's `forEach`: attaches entry `k`, whose
      calls come next among the calls `total` still expects. */
  method AttachNext(gl: Context, entries: seq<(string, Attribute)>, k: nat, program: Handle, ghost total: seq<GlCall>)
    returns (location: int)
    requires k < |entries| && entries[k].1.gl == gl
    requires total == gl.log + AttachAllCalls(entries[k..], program)
    modifies gl`log
    ensures location == gl.attribLocation(program, entries[k].0)
    ensures total == gl.log + AttachAllCalls(entries[k + 1..], program)
  {
    assert entries[k..][1..] == entries[k + 1..];
    ghost var log := gl.log;
    location := entries[k].1.Attach(entries[k].0, program);
    Advance(total, log, entries[k].1.AttachCalls(entries[k].0, program), AttachAllCalls(entries[k + 1..], program));
  }

  /** Uploads every entry's value, in list order; `pending` pairs each
      entry with the value its uniform holds. */
  method UploadUniforms(gl: Context, instances: seq<UniformInstance>, ghost pending: seq<(UniformInstance, Option<Value>)>)
    requires |pending| == |instances|
    requires forall i :: 0 <= i < |instances| ==> pending[i] == (instances[i], instances[i].uniform.value)
    modifies gl`log
    ensures gl.log == old(gl.log) + UniformCalls(pending)
  {
    for k := 0 to |instances|
      invariant old(gl.log) + UniformCalls(pending) == gl.log + UniformCalls(pending[k..])
    {
      assert pending[k..][1..] == pending[k + 1..];
      ghost var log := gl.log;
      instances[k].uniform.Update(gl, instances[k].location);
      Advance(old(gl.log) + UniformCalls(pending), log,
              UploadCalls(pending[k].0.uniform, pending[k].1, pending[k].0.location), UniformCalls(pending[k + 1..]));
    }
  }

  /** Binds every attribute for drawing, in list order. */
  method UseAttributes(gl: Context, instances: seq<AttributeInstance>)
    requires forall i :: 0 <= i < |instances| ==> instances[i].attribute.gl == gl
    modifies gl`log
    ensures gl.log == old(gl.log) + UseAllCalls(instances)
  {
    for k := 0 to |instances|
      invariant old(gl.log) + UseAllCalls(instances) == gl.log + UseAllCalls(instances[k..])
    {
      assert instances[k..][1..] == instances[k + 1..];
      ghost var log := gl.log;
      instances[k].attribute.Use(instances[k].location);
      Advance(old(gl.log) + UseAllCalls(instances), log,
              instances[k].attribute.UseCalls(instances[k].location), UseAllCalls(instances[k + 1..]));
    }
  }

  /** What a draw depends on, read off a mesh when it is drawn. */
  datatype DrawState = DrawState(program: Handle, uploads: seq<(UniformInstance, Option<Value>)>,
                                 attributes: seq<AttributeInstance>, wireframe: bool, indexCount: nat)

  /** The calls of `draw()`: make the program current, upload the uniforms,
      bind the attributes, and draw the indexed triangles (or lines). */
  function DrawCalls(s: DrawState): (calls: seq<GlCall>)
    ensures |calls| >= 1 + |s.attributes| && calls[0] == UseProgram(s.program)
  {
    [UseProgram(s.program)] + UniformCalls(s.uploads) + UseAllCalls(s.attributes) + IndexedDraw(s.wireframe, s.indexCount)
  }

  /** The indexed draw: only when the index buffer holds something. */
  function IndexedDraw(wireframe: bool, indexCount: nat): (calls: seq<GlCall>)
  {
    if indexCount > 0 then [DrawElements(if wireframe then Lines else Triangles, indexCount, UnsignedShort, 0)] else []
  }

  class Mesh {
    /** The `MiniGl` whose context the mesh draws with and whose list it joins. */
    const owner: MiniGl
    const geometry: PlaneGeometry
    const material: Material
    var wireframe: bool
    const attributeInstances: seq<AttributeInstance>

    /** The geometry and the material use the owner's context, the material
        declares the owner's common uniforms, and there is one instance per attribute. */
    predicate Valid()
    {
      && geometry.Wired() && geometry.gl == owner.gl
      && material.gl == owner.gl && material.common == owner.CommonUniforms()
      && |attributeInstances| == 4
      && forall i :: 0 <= i < 4 ==> attributeInstances[i].attribute == AttributeEntries(geometry)[i].1
    }

    /** `new Mesh(geometry, material)`: attaches the four attributes to the
        material's program in the order `position`, `uv`, `uvNorm`, `index`,
        then appends itself to the owner's mesh list. */
    constructor (owner: MiniGl, geometry: PlaneGeometry, material: Material)
      requires geometry.Wired() && geometry.gl == owner.gl
      requires material.gl == owner.gl && material.common == owner.CommonUniforms()
      modifies owner`meshes, owner.gl`log
      ensures Valid() && this.owner == owner && this.geometry == geometry && this.material == material && !wireframe
      ensures forall i :: 0 <= i < 4 ==>
                attributeInstances[i].location == owner.gl.attribLocation(material.program, AttributeEntries(geometry)[i].0)
      ensures owner.gl.log == old(owner.gl.log) + AttachAllCalls(AttributeEntries(geometry), material.program)
      ensures owner.meshes == old(owner.meshes) + [this]
    {
      this.owner := owner;
      this.geometry := geometry;
      this.material := material;
      wireframe := false;
      var instances := AttachAttributes(owner.gl, AttributeEntries(geometry), material.program);
      attributeInstances := instances;
      new;
      owner.Register(this);
    }

    /** The mesh's program, uniform entries and their values, attribute
        entries, draw mode and index count as they are now. */
    function State(): (s: DrawState)
      reads this, material, geometry, InstanceUniforms(material.uniformInstances)
      ensures s.program == material.program && s.attributes == attributeInstances && s.wireframe == wireframe
      ensures s.indexCount == geometry.indexValues.Length
      ensures |s.uploads| == |material.uniformInstances|
      ensures forall j :: 0 <= j < |s.uploads| ==>
                s.uploads[j] == (material.uniformInstances[j], material.uniformInstances[j].uniform.value)
    {
      DrawState(material.program, Snapshot(material.uniformInstances),
                attributeInstances, wireframe, geometry.indexValues.Length)
    }

    /** `draw()`, for the mesh in state `s` (see `StateIs`). */
    method Draw(ghost s: DrawState)
      requires Valid()
      requires wireframe == s.wireframe && material.program == s.program
      requires attributeInstances == s.attributes && geometry.indexValues.Length == s.indexCount
      requires |material.uniformInstances| == |s.uploads|
      requires forall j :: 0 <= j < |s.uploads| ==>
                 s.uploads[j] == (material.uniformInstances[j], material.uniformInstances[j].uniform.value)
      modifies owner.gl`log
      ensures owner.gl.log == old(owner.gl.log) + DrawCalls(s)
    {
      var gl := owner.gl;
      gl.Call(UseProgram(material.program));
      UploadUniforms(gl, material.uniformInstances, s.uploads);
      UseAttributes(gl, attributeInstances);
      if geometry.indexValues.Length > 0 {
        gl.Call(DrawElements(if wireframe then Lines else Triangles, geometry.indexValues.Length, UnsignedShort, 0));
      }
      AdvanceFour(old(gl.log), [UseProgram(s.program)], UniformCalls(s.uploads), UseAllCalls(s.attributes),
                  IndexedDraw(s.wireframe, s.indexCount));
    }

    /** `remove()`: the owner's list without this mesh. */
    method Remove()
      modifies owner`meshes
      ensures owner.meshes == Without(old(owner.meshes), this)
    {
      owner.meshes := Without(owner.meshes, this);
    }
  }

  /** A mesh whose parts agree with a state is in that state. */
  lemma StateIs(m: Mesh, s: DrawState)
    requires m.wireframe == s.wireframe && m.material.program == s.program
    requires m.attributeInstances == s.attributes && m.geometry.indexValues.Length == s.indexCount
    requires |m.material.uniformInstances| == |s.uploads|
    requires forall j :: 0 <= j < |s.uploads| ==>
               s.uploads[j] == (m.material.uniformInstances[j], m.material.uniformInstances[j].uniform.value)
    ensures m.State() == s
  {
  }

  /** A draw starts by making the program current and issues at most one
      indexed draw, as its last call, exactly when the index buffer is not
      empty; the draw covers the whole buffer. */
  lemma DrawShape(s: DrawState)
    ensures var calls := DrawCalls(s);
            && calls[0] == UseProgram(s.program)
            && (forall i :: 0 <= i < |calls| - 1 ==> !calls[i].DrawElements?)
            && (calls[|calls| - 1].DrawElements? <==> s.indexCount > 0)
            && (s.indexCount > 0 ==>
                  calls[|calls| - 1] == DrawElements(if s.wireframe then Lines else Triangles, s.indexCount, UnsignedShort, 0))
  {
    var uploads := UniformCalls(s.uploads);
    var binds := UseAllCalls(s.attributes);
    var head := [UseProgram(s.program)] + uploads + binds;
    UniformCallsUpload(s.uploads);
    UseAllCallsBind(s.attributes);
    assert forall i :: 0 <= i < |head| ==> !head[i].DrawElements? by {
      forall i | 1 <= i < |head|
        ensures !head[i].DrawElements?
      {
        if i < 1 + |uploads| {
          assert head[i] == uploads[i - 1];
        } else {
          assert head[i] == binds[i - 1 - |uploads|];
        }
      }
    }
    assert DrawCalls(s) == head + IndexedDraw(s.wireframe, s.indexCount);
  }

  /** A mesh on a plane with its topology set always draws all six indices
      of every quad. */
  lemma DrawCoversEveryQuad(m: Mesh)
    requires m.geometry.TopologyValid()
    ensures var calls := DrawCalls(m.State());
            calls[|calls| - 1] == DrawElements(if m.wireframe then Lines else Triangles,
                                               6 * m.geometry.xSegCount * m.geometry.ySegCount, UnsignedShort, 0)
  {
    DrawShape(m.State());
    assert m.geometry.indexValues.Length == 6 * (m.geometry.xSegCount * m.geometry.ySegCount) > 0 by {
      assert m.geometry.xSegCount * m.geometry.ySegCount >= 1;
    }
  }

  /** The uniforms' leaf objects of every mesh's material. */
  function MeshLeaves(meshes: seq<Mesh>): set<LeafUniform>
    reads set m | m in meshes :: m.material
  {
    if |meshes| == 0 then {}
    else InstanceUniforms(meshes[0].material.uniformInstances) + MeshLeaves(meshes[1..])
  }

  /** The meshes' states, in list order. */
  function States(meshes: seq<Mesh>): (states: seq<DrawState>)
    reads set m | m in meshes, set m | m in meshes :: m.material, set m | m in meshes :: m.geometry
    reads MeshLeaves(meshes)
    ensures |states| == |meshes|
    ensures forall i :: 0 <= i < |meshes| ==> states[i] == meshes[i].State()
  {
    if |meshes| == 0 then [] else [meshes[0].State()] + States(meshes[1..])
  }

  /** The calls of `meshes.forEach(mesh => mesh.draw())` for meshes in the given states. */
  function SweepCalls(states: seq<DrawState>): (calls: seq<GlCall>)
    ensures |calls| >= |states|
    ensures calls == [] <==> states == []
  {
    if |states| == 0 then []
    else SweepCalls(states[..|states| - 1]) + DrawCalls(states[|states| - 1])
  }

  /** `meshes.forEach(mesh => mesh.draw())` over the first `n` meshes, whose
      parts agree with `states`: one draw per mesh, in list order. */
  method DrawFirst(gl: Context, ms: seq<Mesh>, ghost states: seq<DrawState>, n: nat)
    requires |states| == |ms| && n <= |ms|
    requires forall i :: 0 <= i < n ==> ms[i].Valid() && ms[i].owner.gl == gl
    requires forall i :: 0 <= i < n ==>
               && ms[i].material.program == states[i].program && ms[i].attributeInstances == states[i].attributes
               && ms[i].wireframe == states[i].wireframe && ms[i].geometry.indexValues.Length == states[i].indexCount
               && |ms[i].material.uniformInstances| == |states[i].uploads|
               && forall j :: 0 <= j < |states[i].uploads| ==>
                    states[i].uploads[j] == (ms[i].material.uniformInstances[j], ms[i].material.uniformInstances[j].uniform.value)
    modifies gl`log
    ensures gl.log == old(gl.log) + SweepCalls(states[..n])
  {
    if n > 0 {
      assert states[..n][..n - 1] == states[..n - 1];
      DrawFirst(gl, ms, states, n - 1);
      ms[n - 1].Draw(states[n - 1]);
      AdvanceTwo(old(gl.log), SweepCalls(states[..n - 1]), DrawCalls(states[n - 1]));
    }
  }

  /** The sweep is one draw per mesh, in list order. */
  lemma {:induction false} SweepAppend(a: seq<DrawState>, b: seq<DrawState>)
    ensures SweepCalls(a + b) == SweepCalls(a) + SweepCalls(b)
  {
    if |b| == 0 {
      assert a + b == a;
    } else {
      var front := b[..|b| - 1];
      assert (a + b)[..|a + b| - 1] == a + front;
      SweepAppend(a, front);
      AdvanceTwo(SweepCalls(a), SweepCalls(front), DrawCalls(b[|b| - 1]));
    }
  }

  /** A removed mesh no longer draws; the others still draw in their order. */
  lemma RemovedMeshNotDrawn(a: seq<Mesh>, mesh: Mesh, b: seq<Mesh>)
    requires mesh !in a && mesh !in b
    ensures Without(a + [mesh] + b, mesh) == a + b
    ensures SweepCalls(States(Without(a + [mesh] + b, mesh))) == SweepCalls(States(a)) + SweepCalls(States(b))
  {
    WithoutAppend(a + [mesh], b, mesh);
    RegisterThenRemove(a, mesh);
    WithoutAbsent(b, mesh);
    assert States(a + b) == States(a) + States(b);
    SweepAppend(States(a), States(b));
  }

  class MiniGl {
    /** The WebGL context the canvas returned. */
    const gl: Context
    var meshes: seq<Mesh>
    var width: real
    var height: real
    var canvasWidth: real
    var canvasHeight: real
    /** `commonUniforms`: the uniforms every material declares first. */
    const projectionMatrix: LeafUniform
    const modelViewMatrix: LeafUniform
    const resolution: LeafUniform
    const aspectRatio: LeafUniform

    /** The common uniforms as the entries `Object.entries(commonUniforms)` lists. */
    function CommonUniforms(): seq<(string, Uniform)>
    {
      [("projectionMatrix", Leaf(projectionMatrix)), ("modelViewMatrix", Leaf(modelViewMatrix)),
       ("resolution", Leaf(resolution)), ("aspectRatio", Leaf(aspectRatio))]
    }

    /** The common uniforms' fixed types, as the constructor creates them. */
    predicate CommonTypes()
    {
      && projectionMatrix.glslType == "mat4" && modelViewMatrix.glslType == "mat4"
      && resolution.glslType == "vec2" && aspectRatio.glslType == "float"
      && !projectionMatrix.transpose && !modelViewMatrix.transpose
      && projectionMatrix.excludeFrom.None? && modelViewMatrix.excludeFrom.None?
      && resolution.excludeFrom.None? && aspectRatio.excludeFrom.None?
    }

    /** Every registered mesh belongs to this object and is wired to its context. */
    predicate Valid()
      reads this
    {
      CommonTypes() && forall i :: 0 <= i < |meshes| ==> meshes[i].owner == this && meshes[i].Valid()
    }

    /** `new MiniGl(canvas, width, height)` on a canvas whose context is `gl`:
        no meshes, the four common uniforms, and a first `setSize` with the
        given size, else the canvas's own non-zero size, else 640 by 480. */
    constructor (gl: Context, canvasWidth: real, canvasHeight: real, width: Option<real>, height: Option<real>)
      modifies gl`log
      ensures Valid() && this.gl == gl && meshes == []
      ensures width.Some? && height.Some? ==> this.width == width.value && this.height == height.value
      ensures !(width.Some? && height.Some?) && canvasWidth != 0.0 && canvasHeight != 0.0 ==>
                this.width == canvasWidth && this.height == canvasHeight
      ensures !(width.Some? && height.Some?) && (canvasWidth == 0.0 || canvasHeight == 0.0) ==>
                this.width == 640.0 && this.height == 480.0
      ensures this.canvasWidth == this.width && this.canvasHeight == this.height
      ensures projectionMatrix.value == Some(Identity) && modelViewMatrix.value == Some(Identity)
      ensures resolution.value == Some(Nums([this.width, this.height]))
      ensures aspectRatio.value == Some(Quotient(this.width, this.height))
      ensures gl.log == old(gl.log) + [Viewport(0, 0, this.width, this.height)]
    {
      this.gl := gl;
      meshes := [];
      this.canvasWidth, this.canvasHeight := canvasWidth, canvasHeight;
      var p, m, r, a := NewCommonUniforms();
      projectionMatrix, modelViewMatrix, resolution, aspectRatio := p, m, r, a;
      new;
      if width.Some? && height.Some? {
        SetSize(width.value, height.value);
      } else if canvasWidth != 0.0 && canvasHeight != 0.0 {
        SetSize(canvasWidth, canvasHeight);
      } else {
        SetSize(640.0, 480.0);
      }
    }

    /** `setSize(width, height)`: the canvas and viewport take the size, and
        the `resolution` and `aspectRatio` uniforms take its values for the
        next uploads. */
    method SetSize(width: real := 640.0, height: real := 480.0)
      requires CommonTypes()
      modifies this`width, this`height, this`canvasWidth, this`canvasHeight, resolution`value, aspectRatio`value, gl`log
      ensures this.width == width && this.height == height
      ensures canvasWidth == width && canvasHeight == height
      ensures resolution.value == Some(Nums([width, height]))
      ensures aspectRatio.value == Some(Quotient(width, height))
      ensures gl.log == old(gl.log) + [Viewport(0, 0, width, height)]
    {
      this.width, this.height := width, height;
      canvasWidth, canvasHeight := width, height;
      gl.Call(Viewport(0, 0, width, height));
      resolution.value := Some(Nums([width, height]));
      aspectRatio.value := Some(Quotient(width, height));
    }

    /** `_miniGl.meshes.push(mesh)`. */
    method Register(mesh: Mesh)
      modifies this`meshes
      ensures meshes == old(meshes) + [mesh]
    {
      meshes := meshes + [mesh];
    }

    /** `render()`: set the clear colour and depth, then draw every mesh in
        list order. */
    method Render()
      requires Valid()
      modifies gl`log
      ensures gl.log == old(gl.log) + [ClearColor(0.0, 0.0, 0.0, 0.0), ClearDepth(1.0)] + SweepCalls(old(States(meshes)))
    {
      var ms := meshes;
      ghost var states := States(ms);
      assert states[..|ms|] == states;
      assert forall i :: 0 <= i < |ms| ==> ms[i].owner == this && ms[i].Valid();
      gl.Call(ClearColor(0.0, 0.0, 0.0, 0.0));
      gl.Call(ClearDepth(1.0));
      assert gl.log == old(gl.log) + [ClearColor(0.0, 0.0, 0.0, 0.0), ClearDepth(1.0)];
      DrawFirst(gl, ms, states, |ms|);
    }

    /** After `setSize(w, h)`, drawing a mesh of this object uploads `[w, h]`
        with `uniform2fv` to the location its program gives `resolution`,
        when that location is usable. */
    lemma ResolutionUpload(m: Mesh)
      requires CommonTypes() && resolution.value == Some(Nums([width, height]))
      requires m.owner == this && m.Valid() && m.material.Attached()
      ensures var location := gl.uniformLocation(m.material.program, "resolution");
              location.Usable() ==> UploadUniform(Uniform2fv, location, None, Nums([width, height])) in DrawCalls(m.State())
    {
      var location := gl.uniformLocation(m.material.program, "resolution");
      var locate := m.material.Locator();
      LeafMapInstances(locate, CommonUniforms());
      var instance := UniformInstance(resolution, location);
      assert m.material.uniformInstances[2] == instance;
      var s := m.State();
      assert s.uploads[2] == (instance, resolution.value);
      UniformCallsInclude(s.uploads, 2);
      var calls := UploadCalls(resolution, resolution.value, location);
      if location.Usable() {
        assert calls[0] in calls;
        assert DrawCalls(s) == [UseProgram(s.program)] + UniformCalls(s.uploads) + (UseAllCalls(s.attributes) + IndexedDraw(s.wireframe, s.indexCount));
      }
    }
  }

  /** The 4 by 4 identity matrix, row by row. */
  const Identity: Value := Nums([1.0, 0.0, 0.0, 0.0, 0.0, 1.0, 0.0, 0.0, 0.0, 0.0, 1.0, 0.0, 0.0, 0.0, 0.0, 1.0])

  /** The four common uniforms with their initial values. */
  method NewCommonUniforms() returns (projection: LeafUniform, modelView: LeafUniform, resolution: LeafUniform, aspectRatio: LeafUniform)
    ensures projection.glslType == "mat4" && !projection.transpose && projection.excludeFrom.None? && projection.value == Some(Identity)
    ensures modelView.glslType == "mat4" && !modelView.transpose && modelView.excludeFrom.None? && modelView.value == Some(Identity)
    ensures resolution.glslType == "vec2" && resolution.excludeFrom.None? && resolution.value == Some(Nums([1.0, 1.0]))
    ensures aspectRatio.glslType == "float" && aspectRatio.excludeFrom.None? && aspectRatio.value == Some(Num(1.0))
    ensures fresh(projection) && fresh(modelView) && fresh(resolution) && fresh(aspectRatio)
    ensures resolution != aspectRatio
  {
    projection := new LeafUniform(Some("mat4"), Some(Identity), None, false);
    modelView := new LeafUniform(Some("mat4"), Some(Identity), None, false);
    resolution := new LeafUniform(Some("vec2"), Some(Nums([1.0, 1.0])), None, false);
    aspectRatio := new LeafUniform(Some("float"), Some(Num(1.0)), None, false);
  }
}
