/** The depth-first expansion `Material.attachUniforms` performs: every leaf
    of a uniform tree, reached through `[i]` element steps and `.key` field
    steps, gets exactly one (uniform, location) entry. */
module Flatten {

  import opened Text
  import opened Gl
  import opened Uniforms

  datatype Step = Index(i: nat) | Member(key: string)

  /** A leaf together with the steps that lead to it from the root. */
  datatype LeafEntry = LeafEntry(path: seq<Step>, leaf: LeafUniform)

  /** What `attachUniforms` records for a leaf: the uniform object and the
      location the linked program reports for its path name. */
  datatype UniformInstance = UniformInstance(uniform: LeafUniform, location: UniformLocation)

  /** The text one step adds to a name: `[i]` or `.key`. */
  function StepText(s: Step): string
  {
    match s
    case Index(i) => "[" + NatToString(i) + "]"
    case Member(k) => "." + k
  }

  /** The GLSL name of the uniform reached by `path` from the uniform called `root`. */
  function PathName(root: string, path: seq<Step>): string
    decreases |path|
  {
    if |path| == 0 then root else PathName(root + StepText(path[0]), path[1..])
  }

  /** Position of the first field called `key`. */
  function FieldIndex(fs: seq<(string, Uniform)>, key: string): (r: Option<nat>)
    ensures r.Some? ==> r.value < |fs| && fs[r.value].0 == key
    ensures r.None? ==> forall j :: 0 <= j < |fs| ==> fs[j].0 != key
  {
    if |fs| == 0 then None
    else if fs[0].0 == key then Some(0)
    else match FieldIndex(fs[1..], key)
      case None => None
      case Some(j) => Some(j + 1)
  }

  /** The leaf found by following `path` from `u`; `None` when the path
      leaves the tree or stops at an array or a struct. */
  function LeafAt(u: Uniform, path: seq<Step>): Option<LeafUniform>
    decreases |path|
  {
    if |path| == 0 then (if u.Leaf? then Some(u.leaf) else None)
    else match path[0]
      case Index(i) =>
        if u.ArrayOf? && i < |u.elements| then LeafAt(u.elements[i], path[1..]) else None
      case Member(k) =>
        if u.StructOf? then
          match FieldIndex(u.fields, k)
          case None => None
          case Some(j) => LeafAt(u.fields[j].1, path[1..])
        else None
  }

  /** Every leaf of `u` in the order `attachUniforms` visits them. */
  function Leaves(u: Uniform): (r: seq<LeafEntry>)
    ensures u.Leaf? ==> r == [LeafEntry([], u.leaf)]
    ensures u.ArrayOf? && |u.elements| == 0 ==> r == []
    ensures u.StructOf? && |u.fields| == 0 ==> r == []
    decreases u
  {
    match u
    case Leaf(l) => [LeafEntry([], l)]
    case ArrayOf(es, _) => ElementLeaves(es, 0)
    case StructOf(fs, _) => FieldLeaves(fs, 0)
  }

  /** The leaves of elements `k..` of an array, each path starting with its element's index. */
  function ElementLeaves(es: seq<Uniform>, k: nat): seq<LeafEntry>
    requires k <= |es|
    decreases es, |es| - k
  {
    if k == |es| then [] else Prefixed(Index(k), Leaves(es[k])) + ElementLeaves(es, k + 1)
  }

  /** The leaves of fields `k..` of a struct, each path starting with its field's key. */
  function FieldLeaves(fs: seq<(string, Uniform)>, k: nat): seq<LeafEntry>
    requires k <= |fs|
    decreases fs, |fs| - k
  {
    if k == |fs| then [] else FieldEntryLeaves(fs[k]) + FieldLeaves(fs, k + 1)
  }

  /** The leaves of one struct field, each path starting with the field's key. */
  function FieldEntryLeaves(field: (string, Uniform)): seq<LeafEntry>
    decreases field
  {
    Prefixed(Member(field.0), Leaves(field.1))
  }

  function Prefixed(s: Step, entries: seq<LeafEntry>): (r: seq<LeafEntry>)
    ensures |r| == |entries|
  {
    seq(|entries|, i requires 0 <= i < |entries| => LeafEntry([s] + entries[i].path, entries[i].leaf))
  }

  /** The entries `attachUniforms` pushes for `entries` below the uniform named `root`. */
  function Locate(locate: string -> UniformLocation, root: string, entries: seq<LeafEntry>): (r: seq<UniformInstance>)
    ensures |r| == |entries|
  {
    seq(|entries|, i requires 0 <= i < |entries| =>
      UniformInstance(entries[i].leaf, locate(PathName(root, entries[i].path))))
  }

  /** The entries for a map of named uniforms, in entry order. */
  function MapInstances(locate: string -> UniformLocation, entries: seq<(string, Uniform)>): seq<UniformInstance>
  {
    if |entries| == 0 then []
    else Locate(locate, entries[0].0, Leaves(entries[0].1)) + MapInstances(locate, entries[1..])
  }

  /** A map of plain (non-array, non-struct) uniforms gets one entry per
      uniform, in map order, each at the location of its own name. */
  lemma {:induction false} LeafMapInstances(locate: string -> UniformLocation, entries: seq<(string, Uniform)>)
    requires forall i :: 0 <= i < |entries| ==> entries[i].1.Leaf?
    ensures |MapInstances(locate, entries)| == |entries|
    ensures forall i :: 0 <= i < |entries| ==>
              MapInstances(locate, entries)[i] == UniformInstance(entries[i].1.leaf, locate(entries[i].0))
  {
    if |entries| > 0 {
      LeafMapInstances(locate, entries[1..]);
      var head := Locate(locate, entries[0].0, Leaves(entries[0].1));
      assert head == [UniformInstance(entries[0].1.leaf, locate(PathName(entries[0].0, [])))];
      assert forall i :: 1 <= i < |entries| ==> entries[1..][i - 1] == entries[i];
    }
  }

  // ---------------------------------------------------------------------
  // Bookkeeping lemmas the attaching loops use

  lemma LocateAppend(locate: string -> UniformLocation, root: string, a: seq<LeafEntry>, b: seq<LeafEntry>)
    ensures Locate(locate, root, a + b) == Locate(locate, root, a) + Locate(locate, root, b)
  {
  }

  /** Prefixing a step is the same as extending the root name by that step's text. */
  lemma LocatePrefixed(locate: string -> UniformLocation, root: string, s: Step, entries: seq<LeafEntry>)
    ensures Locate(locate, root, Prefixed(s, entries)) == Locate(locate, root + StepText(s), entries)
  {
    forall i | 0 <= i < |entries|
      ensures PathName(root, [s] + entries[i].path) == PathName(root + StepText(s), entries[i].path)
    {
      assert ([s] + entries[i].path)[1..] == entries[i].path;
    }
  }

  lemma ElementLeavesStep(locate: string -> UniformLocation, root: string, es: seq<Uniform>, k: nat)
    requires k < |es|
    ensures Locate(locate, root, ElementLeaves(es, k))
         == Locate(locate, root + "[" + NatToString(k) + "]", Leaves(es[k])) + Locate(locate, root, ElementLeaves(es, k + 1))
  {
    LocateAppend(locate, root, Prefixed(Index(k), Leaves(es[k])), ElementLeaves(es, k + 1));
    LocatePrefixed(locate, root, Index(k), Leaves(es[k]));
    assert root + StepText(Index(k)) == root + "[" + NatToString(k) + "]";
  }

  lemma FieldLeavesStep(locate: string -> UniformLocation, root: string, fs: seq<(string, Uniform)>, k: nat)
    requires k < |fs|
    ensures Locate(locate, root, FieldLeaves(fs, k))
         == Locate(locate, root + "." + fs[k].0, Leaves(fs[k].1)) + Locate(locate, root, FieldLeaves(fs, k + 1))
  {
    LocateAppend(locate, root, Prefixed(Member(fs[k].0), Leaves(fs[k].1)), FieldLeaves(fs, k + 1));
    LocatePrefixed(locate, root, Member(fs[k].0), Leaves(fs[k].1));
    assert root + StepText(Member(fs[k].0)) == root + "." + fs[k].0;
  }

  // ---------------------------------------------------------------------
  // Exactly one entry per leaf

  /** Every path in the arrays' part of the expansion starts with the index of an element at or after `k`. */
  lemma {:induction false} ElementLeavesHead(es: seq<Uniform>, k: nat, e: LeafEntry)
    requires k <= |es| && e in ElementLeaves(es, k)
    ensures |e.path| > 0 && e.path[0].Index? && k <= e.path[0].i < |es|
    ensures LeafEntry(e.path[1..], e.leaf) in Leaves(es[e.path[0].i])
    decreases |es| - k
  {
    var head := Prefixed(Index(k), Leaves(es[k]));
    if e in head {
      var j :| 0 <= j < |head| && head[j] == e;
      assert e.path[1..] == Leaves(es[k])[j].path;
    } else {
      ElementLeavesHead(es, k + 1, e);
    }
  }

  /** Every path in the struct's part of the expansion starts with the key of a field at or after `k`. */
  lemma {:induction false} FieldLeavesHead(fs: seq<(string, Uniform)>, k: nat, e: LeafEntry)
    requires k <= |fs| && e in FieldLeaves(fs, k)
    ensures |e.path| > 0 && e.path[0].Member?
    ensures exists j :: k <= j < |fs| && e.path[0].key == fs[j].0 && LeafEntry(e.path[1..], e.leaf) in Leaves(fs[j].1)
    decreases |fs| - k
  {
    var head := Prefixed(Member(fs[k].0), Leaves(fs[k].1));
    if e in head {
      var j :| 0 <= j < |head| && head[j] == e;
      assert e.path[1..] == Leaves(fs[k].1)[j].path;
    } else {
      FieldLeavesHead(fs, k + 1, e);
    }
  }

  /** Sound: each entry names a leaf of the tree, found by following its path;
      no entry is made for an array or a struct node. */
  lemma {:induction false} LeavesSound(u: Uniform, e: LeafEntry)
    requires WellFormed(u) && e in Leaves(u)
    ensures LeafAt(u, e.path) == Some(e.leaf)
    decreases u
  {
    match u
    case Leaf(l) =>
    case ArrayOf(es, _) =>
      ElementLeavesHead(es, 0, e);
      var i := e.path[0].i;
      LeavesSound(es[i], LeafEntry(e.path[1..], e.leaf));
    case StructOf(fs, _) =>
      FieldLeavesHead(fs, 0, e);
      var j :| 0 <= j < |fs| && e.path[0].key == fs[j].0 && LeafEntry(e.path[1..], e.leaf) in Leaves(fs[j].1);
      assert FieldIndex(fs, fs[j].0) == Some(j);
      LeavesSound(fs[j].1, LeafEntry(e.path[1..], e.leaf));
  }

  lemma {:induction false} ElementLeavesContain(es: seq<Uniform>, k: nat, i: nat, e: LeafEntry)
    requires k <= i < |es| && e in Leaves(es[i])
    ensures LeafEntry([Index(i)] + e.path, e.leaf) in ElementLeaves(es, k)
    decreases i - k
  {
    if k == i {
      var j :| 0 <= j < |Leaves(es[i])| && Leaves(es[i])[j] == e;
      assert Prefixed(Index(i), Leaves(es[i]))[j] == LeafEntry([Index(i)] + e.path, e.leaf);
    } else {
      ElementLeavesContain(es, k + 1, i, e);
    }
  }

  lemma {:induction false} FieldLeavesContain(fs: seq<(string, Uniform)>, k: nat, i: nat, e: LeafEntry)
    requires k <= i < |fs| && e in Leaves(fs[i].1)
    ensures LeafEntry([Member(fs[i].0)] + e.path, e.leaf) in FieldLeaves(fs, k)
    decreases i - k
  {
    if k == i {
      var j :| 0 <= j < |Leaves(fs[i].1)| && Leaves(fs[i].1)[j] == e;
      assert Prefixed(Member(fs[i].0), Leaves(fs[i].1))[j] == LeafEntry([Member(fs[i].0)] + e.path, e.leaf);
    } else {
      FieldLeavesContain(fs, k + 1, i, e);
    }
  }

  /** Complete: every leaf reachable by a path has an entry with that path. */
  lemma {:induction false} LeavesComplete(u: Uniform, path: seq<Step>, l: LeafUniform)
    requires LeafAt(u, path) == Some(l)
    ensures LeafEntry(path, l) in Leaves(u)
    decreases u
  {
    if |path| == 0 {
    } else {
      match path[0]
      case Index(i) =>
        LeavesComplete(u.elements[i], path[1..], l);
        ElementLeavesContain(u.elements, 0, i, LeafEntry(path[1..], l));
        assert [Index(i)] + path[1..] == path;
      case Member(k) =>
        var j := FieldIndex(u.fields, k).value;
        LeavesComplete(u.fields[j].1, path[1..], l);
        FieldLeavesContain(u.fields, 0, j, LeafEntry(path[1..], l));
        assert [Member(u.fields[j].0)] + path[1..] == path;
    }
  }

  predicate DistinctPaths(entries: seq<LeafEntry>)
  {
    forall i, j :: 0 <= i < j < |entries| ==> entries[i].path != entries[j].path
  }

  lemma DistinctAppend(a: seq<LeafEntry>, b: seq<LeafEntry>)
    requires DistinctPaths(a) && DistinctPaths(b)
    requires forall x, y :: x in a && y in b ==> x.path != y.path
    ensures DistinctPaths(a + b)
  {
    forall i, j | 0 <= i < j < |a + b|
      ensures (a + b)[i].path != (a + b)[j].path
    {
      if j < |a| {
      } else if i >= |a| {
        assert (a + b)[i] == b[i - |a|] && (a + b)[j] == b[j - |a|];
      } else {
        assert (a + b)[i] in a && (a + b)[j] in b;
      }
    }
  }

  lemma DistinctPrefixed(s: Step, entries: seq<LeafEntry>)
    requires DistinctPaths(entries)
    ensures DistinctPaths(Prefixed(s, entries))
  {
    var r := Prefixed(s, entries);
    forall i, j | 0 <= i < j < |r|
      ensures r[i].path != r[j].path
    {
      assert r[i].path[1..] == entries[i].path;
      assert r[j].path[1..] == entries[j].path;
    }
  }

  lemma PrefixedHead(s: Step, entries: seq<LeafEntry>, x: LeafEntry)
    requires x in Prefixed(s, entries)
    ensures |x.path| > 0 && x.path[0] == s
  {
  }

  /** Distinct: no two entries share a path, so each leaf is attached once. */
  lemma {:induction false} LeavesDistinct(u: Uniform)
    requires WellFormed(u)
    ensures DistinctPaths(Leaves(u))
    decreases u, 1
  {
    match u
    case Leaf(_) =>
    case ArrayOf(es, _) => ElementLeavesDistinct(es, 0);
    case StructOf(fs, _) => FieldLeavesDistinct(fs, 0);
  }

  lemma {:induction false} ElementLeavesDistinct(es: seq<Uniform>, k: nat)
    requires k <= |es| && forall i :: 0 <= i < |es| ==> WellFormed(es[i])
    ensures DistinctPaths(ElementLeaves(es, k))
    decreases es, |es| - k
  {
    if k < |es| {
      LeavesDistinct(es[k]);
      DistinctPrefixed(Index(k), Leaves(es[k]));
      ElementLeavesDistinct(es, k + 1);
      forall x, y | x in Prefixed(Index(k), Leaves(es[k])) && y in ElementLeaves(es, k + 1)
        ensures x.path != y.path
      {
        PrefixedHead(Index(k), Leaves(es[k]), x);
        ElementLeavesHead(es, k + 1, y);
      }
      DistinctAppend(Prefixed(Index(k), Leaves(es[k])), ElementLeaves(es, k + 1));
    }
  }

  lemma {:induction false} FieldLeavesDistinct(fs: seq<(string, Uniform)>, k: nat)
    requires k <= |fs| && DistinctKeys(fs) && forall i :: 0 <= i < |fs| ==> WellFormed(fs[i].1)
    ensures DistinctPaths(FieldLeaves(fs, k))
    decreases fs, |fs| - k
  {
    if k < |fs| {
      FieldEntryDistinct(fs[k]);
      FieldLeavesDistinct(fs, k + 1);
      forall x, y | x in Prefixed(Member(fs[k].0), Leaves(fs[k].1)) && y in FieldLeaves(fs, k + 1)
        ensures x.path != y.path
      {
        PrefixedHead(Member(fs[k].0), Leaves(fs[k].1), x);
        FieldLeavesHead(fs, k + 1, y);
      }
      DistinctAppend(Prefixed(Member(fs[k].0), Leaves(fs[k].1)), FieldLeaves(fs, k + 1));
    }
  }

  lemma {:induction false} FieldEntryDistinct(field: (string, Uniform))
    requires WellFormed(field.1)
    ensures DistinctPaths(FieldEntryLeaves(field))
    decreases field
  {
    LeavesDistinct(field.1);
    DistinctPrefixed(Member(field.0), Leaves(field.1));
  }

  /** A path and its name: `name[i]` for an element, `name.key` for a field. */
  lemma PathNameOfSteps(root: string, i: nat, key: string)
    ensures PathName(root, [Index(i), Member(key)]) == root + "[" + NatToString(i) + "]" + "." + key
  {
    var r1 := root + StepText(Index(i));
    assert [Index(i), Member(key)][1..] == [Member(key)];
    assert PathName(root, [Index(i), Member(key)]) == PathName(r1, [Member(key)]);
    assert [Member(key)][1..] == [];
    assert PathName(r1, [Member(key)]) == PathName(r1 + StepText(Member(key)), []);
    assert r1 == root + "[" + NatToString(i) + "]";
  }
}
