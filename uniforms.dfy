/** `MiniGl.Uniform`: typed value cells, their upload dispatch, and the
    shader declaration text they generate, including the recursive expansion
    of `array` and `struct` uniforms. */
module Uniforms {

  import opened Text
  import opened Gl

  /** A uniform whose type is neither `array` nor `struct`. Its `value` is
      replaced in place between frames; everything else is fixed at creation. */
  class LeafUniform {
    const glslType: string
    const transpose: bool
    const excludeFrom: Option<Stage>
    var value: Option<Value>

    /** `new Uniform(config)`: the type defaults to `float` when the
        configuration does not name one. */
    constructor (glslType: Option<string>, value: Option<Value>, excludeFrom: Option<Stage>, transpose: bool)
      ensures this.glslType == (if glslType.Some? then glslType.value else "float")
      ensures this.value == value && this.excludeFrom == excludeFrom && this.transpose == transpose
    {
      this.glslType := if glslType.Some? then glslType.value else "float";
      this.value := value;
      this.excludeFrom := excludeFrom;
      this.transpose := transpose;
    }

    /** `uniform.update(location)` on the drawing context `gl`: uploads the
        current value through the dispatch table, or does nothing. */
    method Update(gl: Context, location: UniformLocation)
      modifies gl`log
      ensures gl.log == old(gl.log) + UploadCalls(this, value, location)
    {
      if value.Some? && location.Usable() {
        var fn := Dispatch(glslType);
        gl.Call(UploadUniform(fn, location, if fn.IsMatrix() then Some(transpose) else None, value.value));
      }
    }
  }

  /** A uniform as a tree: `array` uniforms hold element uniforms, `struct`
      uniforms hold their fields as (key, uniform) entries in the order
      `Object.entries` lists them. */
  datatype Uniform =
    | Leaf(leaf: LeafUniform)
    | ArrayOf(elements: seq<Uniform>, arrayExclude: Option<Stage>)
    | StructOf(fields: seq<(string, Uniform)>, structExclude: Option<Stage>)
  {
    function ExcludeFrom(): Option<Stage>
    {
      match this
      case Leaf(l) => l.excludeFrom
      case ArrayOf(_, e) => e
      case StructOf(_, e) => e
    }
  }

  /** Keys of an object's entries are distinct. */
  predicate DistinctKeys<T>(entries: seq<(string, T)>)
  {
    forall i, j :: 0 <= i < j < |entries| ==> entries[i].0 != entries[j].0
  }

  /** What a JavaScript object can describe: a leaf is never typed `array` or
      `struct`, and a struct's keys are distinct, at every level. */
  predicate WellFormed(u: Uniform)
    decreases u
  {
    match u
    case Leaf(l) => l.glslType != "array" && l.glslType != "struct"
    case ArrayOf(es, _) => forall i :: 0 <= i < |es| ==> WellFormed(es[i])
    case StructOf(fs, _) => DistinctKeys(fs) && forall i :: 0 <= i < |fs| ==> WellFormed(fs[i].1)
  }

  // ---------------------------------------------------------------------
  // Upload dispatch

  /** The `typeFn` table: the upload function for a type name, `1f` for any
      name the table does not list. */
  function Dispatch(glslType: string): (fn: UploadFn)
    ensures fn.IsMatrix() <==> glslType == "mat4"
    ensures fn == UniformMatrix4fv <==> glslType == "mat4"
    ensures fn == Uniform1i <==> glslType == "int"
    ensures fn == Uniform2fv <==> glslType == "vec2"
    ensures fn == Uniform3fv <==> glslType == "vec3"
    ensures fn == Uniform4fv <==> glslType == "vec4"
    ensures fn == Uniform1f <==> glslType !in {"int", "vec2", "vec3", "vec4", "mat4"}
  {
    assert "Matrix4fv"[..6] == "Matrix";
    if glslType == "float" then Uniform1f
    else if glslType == "int" then Uniform1i
    else if glslType == "vec2" then Uniform2fv
    else if glslType == "vec3" then Uniform3fv
    else if glslType == "vec4" then Uniform4fv
    else if glslType == "mat4" then UniformMatrix4fv
    else Uniform1f
  }

  /** `uniform.update(location)`: the calls it issues while the uniform holds `value`. */
  function UploadCalls(u: LeafUniform, value: Option<Value>, location: UniformLocation): (calls: seq<GlCall>)
    ensures calls == [] <==> value.None? || location.Null? || location == At(-1)
    ensures |calls| <= 1
    ensures calls != [] ==>
              && calls[0].UploadUniform?
              && calls[0].fn == Dispatch(u.glslType)
              && calls[0].uniformLocation == location
              && value == Some(calls[0].value)
              && (calls[0].transpose.Some? <==> u.glslType == "mat4")
              && (calls[0].transpose.Some? ==> calls[0].transpose.value == u.transpose)
  {
    if value.Some? && location.Usable() then
      var fn := Dispatch(u.glslType);
      [UploadUniform(fn, location, if fn.IsMatrix() then Some(u.transpose) else None, value.value)]
    else []
  }

  // ---------------------------------------------------------------------
  // Declarations

  /** `[length]` after a declared name when an array length was passed. */
  function LengthSuffix(length: nat): string
  {
    if length > 0 then "[" + NatToString(length) + "]" else ""
  }

  /** The struct type name: the uniform name without its first `u_`, first letter upper-cased. */
  function StructTypeName(name: string): (r: string)
    ensures IndexOf(name, "u_").None? ==> |r| == |name|
    ensures IndexOf(name, "u_").Some? ==> |r| == |name| - 2
  {
    UpperFirst(ReplaceFirst(name, "u_", ""))
  }

  /** `uniform.getDeclaration(name, stage, length)`; a `length` of 0 stands for no length. */
  function Declaration(u: Uniform, name: string, stage: Stage, length: nat): (d: string)
    ensures !u.ArrayOf? && u.ExcludeFrom() != Some(stage) ==>
              |d| > |UniformKeyword| && d[..|UniformKeyword| + 1] == UniformKeyword + " "
    decreases u
  {
    if u.ExcludeFrom() == Some(stage) then ""
    else match u
      case Leaf(l) => LeafText(l.glslType, name, length)
      case ArrayOf(es, _) =>
        if |es| == 0 then EmptyArrayText(name)
        else ArrayText(Declaration(es[0], name, stage, |es|), name, |es|)
      case StructOf(fs, _) => StructText(name, MemberLines(fs, stage), length)
  }

  /** A leaf's declaration: `uniform <type> <name>` and the length suffix. */
  function LeafText(glslType: string, name: string, length: nat): string
  {
    "uniform " + glslType + " " + name + LengthSuffix(length)
  }

  /** The comment that stands in for an array without elements. */
  function EmptyArrayText(name: string): string
  {
    "// Uniform array " + name + " is empty\n"
  }

  /** A non-empty array: its first element's declaration and the length constant. */
  function ArrayText(first: string, name: string, count: nat): string
  {
    first + "\nconst int " + name + "_length = " + NatToString(count) + ";"
  }

  /** A struct's declaration around its member lines. */
  function StructText(name: string, lines: seq<string>, length: nat): string
  {
    "uniform struct " + StructTypeName(name) + " {\n" + Join(lines, "\n") + "\n} " + name + LengthSuffix(length)
  }

  /** The lines a struct's fields contribute to its declaration, in field order. */
  function MemberLines(fs: seq<(string, Uniform)>, stage: Stage): (lines: seq<string>)
    ensures |lines| == |fs|
    decreases fs
  {
    if |fs| == 0 then [] else [MemberLine(fs[0], stage)] + MemberLines(fs[1..], stage)
  }

  /** A field's line: its own declaration, without the `uniform` keyword, after a tab. */
  function MemberLine(field: (string, Uniform), stage: Stage): (line: string)
    ensures |line| >= 2 && line[0] == '\t' && line[|line| - 1] == ';'
    decreases field
  {
    "\t" + StripUniformKeyword(Declaration(field.1, field.0, stage, 0)) + ";"
  }

  lemma {:induction false} MemberLineAt(fs: seq<(string, Uniform)>, stage: Stage, i: nat)
    requires i < |fs|
    ensures MemberLines(fs, stage)[i] == MemberLine(fs[i], stage)
    decreases i
  {
    if i > 0 {
      MemberLineAt(fs[1..], stage, i - 1);
    }
  }

  /** Nothing is declared for the stage a uniform is excluded from, and
      something always is for the other. */
  lemma DeclarationEmptyIff(u: Uniform, name: string, stage: Stage, length: nat)
    ensures Declaration(u, name, stage, length) == "" <==> u.ExcludeFrom() == Some(stage)
  {
    if u.ExcludeFrom() != Some(stage) {
      if u.Leaf? {
        LeafDeclarationNonEmpty(u.leaf, name, stage, length);
      } else if u.ArrayOf? {
        ArrayDeclarationNonEmpty(u.elements, u.arrayExclude, name, stage, length);
      } else {
        StructDeclarationNonEmpty(u.fields, u.structExclude, name, stage, length);
      }
    }
  }

  lemma LeafDeclarationNonEmpty(l: LeafUniform, name: string, stage: Stage, length: nat)
    requires l.excludeFrom != Some(stage)
    ensures |Declaration(Leaf(l), name, stage, length)| > 0
  {
    assert Declaration(Leaf(l), name, stage, length) == LeafText(l.glslType, name, length);
  }

  lemma ArrayDeclarationNonEmpty(es: seq<Uniform>, e: Option<Stage>, name: string, stage: Stage, length: nat)
    requires e != Some(stage)
    ensures |Declaration(ArrayOf(es, e), name, stage, length)| > 0
  {
    if |es| == 0 {
      assert Declaration(ArrayOf(es, e), name, stage, length) == EmptyArrayText(name);
    } else {
      assert Declaration(ArrayOf(es, e), name, stage, length) == ArrayText(Declaration(es[0], name, stage, |es|), name, |es|);
    }
  }

  lemma StructDeclarationNonEmpty(fs: seq<(string, Uniform)>, e: Option<Stage>, name: string, stage: Stage, length: nat)
    requires e != Some(stage)
    ensures |Declaration(StructOf(fs, e), name, stage, length)| > 0
  {
    assert Declaration(StructOf(fs, e), name, stage, length) == StructText(name, MemberLines(fs, stage), length);
  }

  /** Passing an array length only appends `[length]` to a leaf's or a
      struct's declaration. */
  lemma LengthOnlyAppends(u: Uniform, name: string, stage: Stage, length: nat)
    requires !u.ArrayOf? && u.ExcludeFrom() != Some(stage)
    ensures Declaration(u, name, stage, length) == Declaration(u, name, stage, 0) + LengthSuffix(length)
  {
    assert LengthSuffix(0) == "";
  }

  /** A leaf field's line in a struct is its declaration without the
      `uniform` keyword: a tab, the type, the key and a semicolon. */
  lemma LeafMemberLine(l: LeafUniform, key: string, stage: Stage)
    requires l.excludeFrom != Some(stage)
    requires |l.glslType| > 0 && !IsJsWhitespace(l.glslType[0])
    ensures MemberLine((key, Leaf(l)), stage) == "\t" + l.glslType + " " + key + ";"
  {
    assert Declaration(Leaf(l), key, stage, 0) == LeafText(l.glslType, key, 0) == UniformKeyword + " " + (l.glslType + " " + key);
    StripUniformKeywordOf(l.glslType + " " + key);
  }

  /** A field excluded from the stage still leaves an empty member line. */
  lemma ExcludedMemberLine(field: (string, Uniform), stage: Stage)
    requires field.1.ExcludeFrom() == Some(stage)
    ensures MemberLine(field, stage) == "\t;"
  {
  }

  /** A name carrying the conventional `u_` prefix loses it and has its next
      letter upper-cased. */
  lemma {:induction false} StructTypeNameOfPrefixed(rest: string)
    ensures StructTypeName("u_" + rest) == UpperFirst(rest)
  {
    var s := "u_" + rest;
    assert OccursAt(s, "u_", 0) by { assert s[0..2] == "u_"; }
    assert IndexOf(s, "u_") == Some(0);
    assert s[2..] == rest;
  }

  /** Only the first `u_` goes: a later one is kept. */
  lemma StructTypeNameKeepsLaterPrefix(name: string, i: nat)
    requires OccursAt(name, "u_", i)
    requires forall j :: 0 <= j < i ==> !OccursAt(name, "u_", j)
    ensures StructTypeName(name) == UpperFirst(name[..i] + name[i + 2..])
  {
    match IndexOf(name, "u_")
    case None =>
      assert false;
    case Some(k) =>
      assert k == i;
  }

  /** An array is declared from its first element alone: arrays of the same
      length whose first elements agree have the same declaration. */
  lemma ArrayDeclaredByFirstElement(es: seq<Uniform>, fs: seq<Uniform>, e: Option<Stage>,
                                    name: string, stage: Stage, length: nat, length': nat)
    requires |es| == |fs| > 0 && es[0] == fs[0]
    ensures Declaration(ArrayOf(es, e), name, stage, length) == Declaration(ArrayOf(fs, e), name, stage, length')
  {
  }

  /** The `_length` constant spells the element count. */
  lemma ArrayLengthConstant(es: seq<Uniform>, e: Option<Stage>, name: string, stage: Stage, length: nat)
    requires |es| > 0 && e != Some(stage)
    ensures var d := Declaration(ArrayOf(es, e), name, stage, length);
            var digits := NatToString(|es|);
            && d == Declaration(es[0], name, stage, |es|) + "\nconst int " + name + "_length = " + digits + ";"
            && DigitsValue(digits) == |es|
  {
    NatToStringRoundTrip(|es|);
  }

  /** No node of the tree is excluded from either stage. */
  predicate NoExclusions(u: Uniform)
    decreases u
  {
    u.ExcludeFrom().None? &&
    match u
    case Leaf(_) => true
    case ArrayOf(es, _) => forall i :: 0 <= i < |es| ==> NoExclusions(es[i])
    case StructOf(fs, _) => forall i :: 0 <= i < |fs| ==> NoExclusions(fs[i].1)
  }

  /** Without stage exclusions both shader stages receive the same declaration. */
  lemma {:induction false} StageIndependent(u: Uniform, name: string, length: nat)
    requires NoExclusions(u)
    ensures Declaration(u, name, Vertex, length) == Declaration(u, name, Fragment, length)
    decreases u
  {
    match u
    case Leaf(_) =>
    case ArrayOf(es, _) =>
      if |es| > 0 {
        StageIndependent(es[0], name, |es|);
      }
    case StructOf(fs, e) =>
      StageIndependentFields(fs);
  }

  lemma {:induction false} StageIndependentFields(fs: seq<(string, Uniform)>)
    requires forall i :: 0 <= i < |fs| ==> NoExclusions(fs[i].1)
    ensures MemberLines(fs, Vertex) == MemberLines(fs, Fragment)
    decreases fs
  {
    if |fs| > 0 {
      StageIndependentField(fs[0]);
      StageIndependentFields(fs[1..]);
    }
  }

  lemma {:induction false} StageIndependentField(field: (string, Uniform))
    requires NoExclusions(field.1)
    ensures MemberLine(field, Vertex) == MemberLine(field, Fragment)
    decreases field
  {
    StageIndependent(field.1, field.0, 0);
  }

  /** The `u_global` uniform of the gradient: a struct named `Global` whose two
      member lines carry no `uniform` keyword. */
  lemma GlobalStructDeclaration(noiseFreq: LeafUniform, noiseSpeed: LeafUniform, stage: Stage)
    requires noiseFreq.glslType == "vec2" && noiseFreq.excludeFrom.None?
    requires noiseSpeed.glslType == "float" && noiseSpeed.excludeFrom.None?
    ensures var freqLine := "\t" + "vec2" + " " + "noiseFreq" + ";";
            var speedLine := "\t" + "float" + " " + "noiseSpeed" + ";";
            Declaration(StructOf([("noiseFreq", Leaf(noiseFreq)), ("noiseSpeed", Leaf(noiseSpeed))], None), "u_global", stage, 0)
              == "uniform struct " + "Global" + " {\n" + (freqLine + "\n" + speedLine) + "\n} " + "u_global"
  {
    var fs := [("noiseFreq", Leaf(noiseFreq)), ("noiseSpeed", Leaf(noiseSpeed))];
    GlobalMembers(noiseFreq, noiseSpeed, stage);
    GlobalTypeName();
    assert LengthSuffix(0) == "";
    assert Declaration(StructOf(fs, None), "u_global", stage, 0) == StructText("u_global", MemberLines(fs, stage), 0);
  }

  lemma GlobalMembers(noiseFreq: LeafUniform, noiseSpeed: LeafUniform, stage: Stage)
    requires noiseFreq.glslType == "vec2" && noiseFreq.excludeFrom.None?
    requires noiseSpeed.glslType == "float" && noiseSpeed.excludeFrom.None?
    ensures var freqLine := "\t" + "vec2" + " " + "noiseFreq" + ";";
            var speedLine := "\t" + "float" + " " + "noiseSpeed" + ";";
            Join(MemberLines([("noiseFreq", Leaf(noiseFreq)), ("noiseSpeed", Leaf(noiseSpeed))], stage), "\n")
              == freqLine + "\n" + speedLine
  {
    var fs := [("noiseFreq", Leaf(noiseFreq)), ("noiseSpeed", Leaf(noiseSpeed))];
    var lines := MemberLines(fs, stage);
    MemberLineAt(fs, stage, 0);
    MemberLineAt(fs, stage, 1);
    assert noiseFreq.glslType[0] == 'v' && noiseSpeed.glslType[0] == 'f';
    LeafMemberLine(noiseFreq, "noiseFreq", stage);
    LeafMemberLine(noiseSpeed, "noiseSpeed", stage);
    assert lines == [lines[0], lines[1]];
    JoinTwo(lines[0], lines[1], "\n");
  }

  lemma GlobalTypeName()
    ensures StructTypeName("u_global") == "Global"
  {
    StructTypeNameOfPrefixed("global");
    assert "u_" + "global" == "u_global";
    assert "global"[1..] == "lobal";
  }

  /** An array of three structs declares one struct type, sized 3, and a
      length constant equal to 3. */
  lemma ArrayOfThreeStructs(fs: seq<(string, Uniform)>, a: Uniform, b: Uniform, name: string, stage: Stage)
    ensures Declaration(ArrayOf([StructOf(fs, None), a, b], None), name, stage, 0)
         == Declaration(StructOf(fs, None), name, stage, 0) + "[3]" + "\nconst int " + name + "_length = " + "3" + ";"
  {
    var s := StructOf(fs, None);
    LengthOnlyAppends(s, name, stage, 3);
    assert NatToString(3) == "3";
    assert LengthSuffix(3) == "[3]";
    assert Declaration(ArrayOf([s, a, b], None), name, stage, 0) == ArrayText(Declaration(s, name, stage, 3), name, 3);
  }
}
