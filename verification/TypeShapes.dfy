/** The contract extractor's view of types: a recursion over a graph of named types that may
    be cyclic, cut by the set of named types on the way down. */
module TypeShapes {
  import opened Prelude

  // ---- types and shapes ----

  /** A type as go/types gives it; named types are known by their identity. */
  datatype Type =
    | Named(id: int)
    | Struct(fields: seq<Field>)
    | Pointer(elem: Type)
    | Slice(elem: Type)
    | Map(key: Type, elem: Type)
    | Basic(name: string)
    | Interface(empty: bool, text: string)
    | Other(text: string)

  /** A field with the value of its json tag, "" for none. */
  datatype Field = Field(name: string, exported: bool, typ: Type, json: string)

  /** A named type: its package path ("" for the universe), its object's name, its text, which
      also has the package and the type arguments, and what it stands for. */
  datatype Decl = Decl(pkg: string, name: string, text: string, underlying: Type)

  datatype Shape = Shape(
    name: string, pkg: string, kind: string, fields: seq<FieldShape>, key: Option<Shape>, elem: Option<Shape>)

  datatype FieldShape = FieldShape(name: string, json: string, typ: Shape)

  function Leaf(name: string, kind: string): Shape {
    Shape(name, "", kind, [], None, None)
  }

  type Graph = map<int, Decl>

  predicate Known(g: Graph, t: Type) {
    match t
    case Named(id) => id in g
    case Struct(fields) => AllKnown(g, fields)
    case Pointer(elem) => Known(g, elem)
    case Slice(elem) => Known(g, elem)
    case Map(key, elem) => Known(g, key) && Known(g, elem)
    case Basic(_) => true
    case Interface(_, _) => true
    case Other(_) => true
  }

  predicate AllKnown(g: Graph, fields: seq<Field>) {
    fields != [] ==> Known(g, fields[0].typ) && AllKnown(g, fields[1..])
  }

  /** A finite graph of named types, cycles allowed. */
  ghost predicate Closed(g: Graph) {
    forall id | id in g :: Known(g, g[id].underlying) && !g[id].underlying.Named?
  }

  // ---- the path-set recursion ----

  function KindOf(t: Type): string {
    match t
    case Struct(_) => "struct"
    case Basic(name) => name
    case Slice(_) => "slice"
    case Map(_, _) => "map"
    case Pointer(_) => "pointer"
    case Interface(_, _) => "interface"
    case Named(_) => "unknown"
    case Other(_) => "unknown"
  }

  /** The position of the first comma, or the length. */
  function CommaAt(s: string): (i: nat)
    ensures i <= |s| && ',' !in s[..i] && (i < |s| ==> s[i] == ',')
  {
    if s == [] || s[0] == ',' then 0
    else
      assert forall k :: 1 <= k <= |s| ==> s[..k] == [s[0]] + s[1..][..k - 1];
      1 + CommaAt(s[1..])
  }

  /** The name a json tag gives, "" for none or a hidden field. */
  function JsonName(json: string): string {
    if json == "" || json == "-" then "" else json[..CommaAt(json)]
  }

  function Resolve(g: Graph, t: Type, seen: set<int>): Shape
    requires Closed(g) && Known(g, t)
    decreases g.Keys - seen, t
  {
    match t
    case Named(id) =>
      if id in seen then Leaf(g[id].text, "recursive")
      else
        var d, below := g[id], seen + {id};
        Shape(d.name, d.pkg, KindOf(d.underlying),
              if d.underlying.Struct? then ResolveFields(g, d.underlying.fields, below) else [],
              if d.underlying.Map? then Some(Resolve(g, d.underlying.key, below)) else None,
              if d.underlying.Slice? || d.underlying.Map? || d.underlying.Pointer?
              then Some(Resolve(g, d.underlying.elem, below)) else None)
    case Struct(fields) => Shape("", "", "struct", ResolveFields(g, fields, seen), None, None)
    case Pointer(elem) =>
      var e := Resolve(g, elem, seen);
      Shape("*" + e.name, "", "pointer", [], None, Some(e))
    case Slice(elem) =>
      var e := Resolve(g, elem, seen);
      Shape("[]" + e.name, "", "slice", [], None, Some(e))
    case Map(key, elem) =>
      var k, e := Resolve(g, key, seen), Resolve(g, elem, seen);
      Shape("map[" + k.name + "]" + e.name, "", "map", [], Some(k), Some(e))
    case Basic(name) => Leaf(name, name)
    case Interface(empty, text) => Leaf(if empty then "any" else text, "interface")
    case Other(text) => Leaf(text, "unknown")
  }

  function ResolveFields(g: Graph, fields: seq<Field>, seen: set<int>): seq<FieldShape>
    requires Closed(g) && AllKnown(g, fields)
    decreases g.Keys - seen, fields
  {
    if fields == [] then []
    else
      (if fields[0].exported
       then [FieldShape(fields[0].name, JsonName(fields[0].json), Resolve(g, fields[0].typ, seen))] else [])
      + ResolveFields(g, fields[1..], seen)
  }

  /** The shape of a named type is that of what it stands for, its own name and package aside,
      with the type itself cut below. */
  lemma NamedIsUnderlying(g: Graph, id: int, seen: set<int>)
    requires Closed(g) && id in g && id !in seen
    ensures Resolve(g, Named(id), seen)
         == Resolve(g, g[id].underlying, seen + {id}).(name := g[id].name, pkg := g[id].pkg)
  {
  }

  /** A field's json name is its tag up to the first comma; none for an empty tag and for "-". */
  lemma JsonNameExactly(json: string, name: string)
    ensures json == "" || json == "-" ==> JsonName(json) == ""
    ensures json != "" && json != "-" && ',' !in name ==>
      (JsonName(json) == name <==> json == name || (name + ",") <= json)
  {
    if ',' !in name && (json == name || (name + ",") <= json) {
      CommaAfter(json, name);
    }
    var i := CommaAt(json);
    assert i < |json| ==> json[..i] + "," <= json;
  }

  lemma {:induction false} CommaAfter(s: string, name: string)
    requires ',' !in name && (s == name || (name + ",") <= s)
    ensures CommaAt(s) == |name| && s[..|name|] == name
  {
    if name == "" {
      assert s == "" || s[0] == ("" + ",")[0];
    } else {
      assert s[0] == name[0] && name == [name[0]] + name[1..];
      assert (name + ",")[1..] == name[1..] + ",";
      CommaAfter(s[1..], name[1..]);
    }
  }

  // ---- the recursion on one mutable set ----

  lemma AllKnownAppend(g: Graph, a: seq<Field>, f: Field)
    requires AllKnown(g, a) && Known(g, f.typ)
    ensures AllKnown(g, a + [f])
  {
    if a != [] {
      AllKnownAppend(g, a[1..], f);
      assert (a + [f])[1..] == a[1..] + [f];
    }
  }

  lemma {:induction false} ResolveFieldsAppend(g: Graph, a: seq<Field>, f: Field, seen: set<int>)
    requires Closed(g) && AllKnown(g, a) && Known(g, f.typ)
    ensures AllKnown(g, a + [f])
    ensures ResolveFields(g, a + [f], seen)
         == ResolveFields(g, a, seen)
            + if f.exported then [FieldShape(f.name, JsonName(f.json), Resolve(g, f.typ, seen))] else []
  {
    hide Resolve;
    AllKnownAppend(g, a, f);
    if a == [] {
      assert a + [f] == [f] && [f][1..] == [];
    } else {
      ResolveFieldsAppend(g, a[1..], f, seen);
      assert (a + [f])[1..] == a[1..] + [f] && (a + [f])[0] == a[0];
    }
  }

  lemma {:induction false} KnownAt(g: Graph, fields: seq<Field>, i: nat)
    requires AllKnown(g, fields) && i < |fields|
    ensures Known(g, fields[i].typ) && AllKnown(g, fields[..i])
  {
    if i == 0 {
    } else {
      KnownAt(g, fields[1..], i - 1);
      assert fields[..i][1..] == fields[1..][..i - 1];
    }
  }

  class Resolver {
    const graph: Graph
    var seen: set<int>

    constructor (g: Graph)
      ensures graph == g && seen == {}
    {
      graph := g;
      seen := {};
    }

    /** resolveTypeShape: nothing is seen yet. */
    method ResolveShape(t: Option<Type>) returns (shape: Shape)
      requires Closed(graph) && (t.Some? ==> Known(graph, t.value)) && seen == {}
      modifies this
      ensures seen == {}
      ensures shape == if t.None? then Leaf("<unknown>", "unknown") else Resolve(graph, t.value, {})
    {
      if t.None? {
        return Leaf("<unknown>", "unknown");
      }
      shape := ResolveType(t.value);
    }

    /** resolveTypeShapeImpl: puts a named type in the set on the way down, takes it out on
        the way up. */
    method ResolveType(t: Type) returns (shape: Shape)
      requires Closed(graph) && Known(graph, t)
      modifies this
      ensures seen == old(seen)
      ensures shape == Resolve(graph, t, old(seen))
      decreases graph.Keys - seen, t
    {
      match t
      case Named(id) =>
        if id in seen {
          return Leaf(graph[id].text, "recursive");
        }
        seen := seen + {id};
        var d := graph[id];
        shape := Leaf(d.name, KindOf(d.underlying)).(pkg := d.pkg);
        if d.underlying.Struct? {
          var fields := ResolveStruct(d.underlying.fields);
          shape := shape.(fields := fields);
        }
        match d.underlying {
          case Slice(u) =>
            var elem := ResolveType(u);
            shape := shape.(elem := Some(elem));
          case Map(k, u) =>
            var key := ResolveType(k);
            var elem := ResolveType(u);
            shape := shape.(key := Some(key), elem := Some(elem));
          case Pointer(u) =>
            var elem := ResolveType(u);
            shape := shape.(elem := Some(elem));
          case Struct(_) =>
          case Basic(_) =>
          case Interface(_, _) =>
          case Other(_) =>
        }
        seen := seen - {id};
        assert seen == old(seen);
      case Struct(fields) =>
        var fs := ResolveStruct(fields);
        shape := Shape("", "", "struct", fs, None, None);
      case Pointer(u) =>
        var elem := ResolveType(u);
        shape := Shape("*" + elem.name, "", "pointer", [], None, Some(elem));
      case Slice(u) =>
        var elem := ResolveType(u);
        shape := Shape("[]" + elem.name, "", "slice", [], None, Some(elem));
      case Map(k, u) =>
        var key := ResolveType(k);
        var elem := ResolveType(u);
        shape := Shape("map[" + key.name + "]" + elem.name, "", "map", [], Some(key), Some(elem));
      case Basic(name) => shape := Leaf(name, name);
      case Interface(empty, text) => shape := Leaf(if empty then "any" else text, "interface");
      case Other(text) => shape := Leaf(text, "unknown");
    }

    /** resolveStructFields: exported fields only, in order. */
    method ResolveStruct(fields: seq<Field>) returns (shapes: seq<FieldShape>)
      requires Closed(graph) && AllKnown(graph, fields)
      modifies this
      ensures seen == old(seen)
      ensures shapes == ResolveFields(graph, fields, old(seen))
      decreases graph.Keys - seen, fields
    {
      shapes := [];
      assert fields[..0] == [];
      for i := 0 to |fields|
        invariant seen == old(seen)
        invariant AllKnown(graph, fields[..i])
        invariant shapes == ResolveFields(graph, fields[..i], seen)
      {
        var f := fields[i];
        KnownAt(graph, fields, i);
        ResolveFieldsAppend(graph, fields[..i], f, seen);
        assert fields[..i + 1] == fields[..i] + [f];
        if !f.exported {
          continue;
        }
        var typ := ResolveType(f.typ);
        var json := "";
        if f.json != "" && f.json != "-" {
          var comma := CommaAt(f.json);
          json := f.json[..comma];
        }
        shapes := shapes + [FieldShape(f.name, json, typ)];
      }
      assert fields[..|fields|] == fields;
    }
  }

  // ---- no named type is expanded below itself ----

  /** What a node of a shape came from. */
  datatype Tag = Expanded(id: int) | Cut(id: int) | Unnamed

  /** A shape that remembers where each node came from. */
  datatype Tree = Tree(tag: Tag, name: string, pkg: string, kind: string, fields: seq<Branch>, key: Option<Tree>,
    elem: Option<Tree>)

  datatype Branch = Branch(name: string, json: string, tree: Tree)

  function Erase(tree: Tree): Shape {
    Shape(tree.name, tree.pkg, tree.kind, EraseFields(tree.fields),
          if tree.key.Some? then Some(Erase(tree.key.value)) else None,
          if tree.elem.Some? then Some(Erase(tree.elem.value)) else None)
  }

  function EraseFields(fields: seq<Branch>): seq<FieldShape> {
    if fields == [] then []
    else [FieldShape(fields[0].name, fields[0].json, Erase(fields[0].tree))] + EraseFields(fields[1..])
  }

  function Grow(g: Graph, t: Type, seen: set<int>): Tree
    requires Closed(g) && Known(g, t)
    decreases g.Keys - seen, t
  {
    match t
    case Named(id) =>
      if id in seen then Tree(Cut(id), g[id].text, "", "recursive", [], None, None)
      else
        var d, below := g[id], seen + {id};
        Tree(Expanded(id), d.name, d.pkg, KindOf(d.underlying),
             if d.underlying.Struct? then GrowFields(g, d.underlying.fields, below) else [],
             if d.underlying.Map? then Some(Grow(g, d.underlying.key, below)) else None,
             if d.underlying.Slice? || d.underlying.Map? || d.underlying.Pointer?
             then Some(Grow(g, d.underlying.elem, below)) else None)
    case Struct(fields) => Tree(Unnamed, "", "", "struct", GrowFields(g, fields, seen), None, None)
    case Pointer(elem) =>
      var e := Grow(g, elem, seen);
      Tree(Unnamed, "*" + e.name, "", "pointer", [], None, Some(e))
    case Slice(elem) =>
      var e := Grow(g, elem, seen);
      Tree(Unnamed, "[]" + e.name, "", "slice", [], None, Some(e))
    case Map(key, elem) =>
      var k, e := Grow(g, key, seen), Grow(g, elem, seen);
      Tree(Unnamed, "map[" + k.name + "]" + e.name, "", "map", [], Some(k), Some(e))
    case Basic(name) => Tree(Unnamed, name, "", name, [], None, None)
    case Interface(empty, text) => Tree(Unnamed, if empty then "any" else text, "", "interface", [], None, None)
    case Other(text) => Tree(Unnamed, text, "", "unknown", [], None, None)
  }

  function GrowFields(g: Graph, fields: seq<Field>, seen: set<int>): seq<Branch>
    requires Closed(g) && AllKnown(g, fields)
    decreases g.Keys - seen, fields
  {
    if fields == [] then []
    else
      (if fields[0].exported
       then [Branch(fields[0].name, JsonName(fields[0].json), Grow(g, fields[0].typ, seen))] else [])
      + GrowFields(g, fields[1..], seen)
  }

  /** The shape is the tree without its tags. */
  lemma {:induction false} GrowErases(g: Graph, t: Type, seen: set<int>)
    requires Closed(g) && Known(g, t)
    ensures Erase(Grow(g, t, seen)) == Resolve(g, t, seen)
    decreases g.Keys - seen, t
  {
    match t
    case Named(id) =>
      if id !in seen {
        var u := g[id].underlying;
        if u.Struct? {
          GrowFieldsErases(g, u.fields, seen + {id});
        } else if u.Map? {
          GrowErases(g, u.key, seen + {id});
          GrowErases(g, u.elem, seen + {id});
        } else if u.Slice? || u.Pointer? {
          GrowErases(g, u.elem, seen + {id});
        }
      }
    case Struct(fields) => GrowFieldsErases(g, fields, seen);
    case Pointer(elem) => GrowErases(g, elem, seen);
    case Slice(elem) => GrowErases(g, elem, seen);
    case Map(key, elem) =>
      GrowErases(g, key, seen);
      GrowErases(g, elem, seen);
    case Basic(_) =>
    case Interface(_, _) =>
    case Other(_) =>
  }

  lemma {:induction false} GrowFieldsErases(g: Graph, fields: seq<Field>, seen: set<int>)
    requires Closed(g) && AllKnown(g, fields)
    ensures EraseFields(GrowFields(g, fields, seen)) == ResolveFields(g, fields, seen)
    decreases g.Keys - seen, fields
  {
    if fields != [] {
      GrowFieldsErases(g, fields[1..], seen);
      var rest := GrowFields(g, fields[1..], seen);
      if fields[0].exported {
        GrowErases(g, fields[0].typ, seen);
        assert GrowFields(g, fields, seen)[1..] == rest;
      } else {
        assert GrowFields(g, fields, seen) == rest;
      }
    }
  }

  function TreesOf(fields: seq<Branch>): seq<Tree> {
    if fields == [] then [] else [fields[0].tree] + TreesOf(fields[1..])
  }

  function Children(tree: Tree): seq<Tree> {
    TreesOf(tree.fields)
    + (if tree.key.Some? then [tree.key.value] else [])
    + (if tree.elem.Some? then [tree.elem.value] else [])
  }

  /** The tags from the root some way down. */
  predicate IsPath(tree: Tree, path: seq<Tag>)
    decreases |path|
  {
    && path != [] && path[0] == tree.tag
    && (|path| > 1 ==> exists child <- Children(tree) :: IsPath(child, path[1..]))
  }

  function Below(tag: Tag, seen: set<int>): set<int> {
    if tag.Expanded? then seen + {tag.id} else seen
  }

  /** The tree is grown from some type. */
  ghost predicate Grown(g: Graph, tree: Tree, seen: set<int>)
    requires Closed(g)
  {
    exists t :: Known(g, t) && tree == Grow(g, t, seen)
  }

  ghost predicate AllGrown(g: Graph, trees: seq<Tree>, seen: set<int>)
    requires Closed(g)
  {
    forall tree <- trees :: Grown(g, tree, seen)
  }

  lemma {:induction false} FieldTreesGrown(g: Graph, fields: seq<Field>, seen: set<int>)
    requires Closed(g) && AllKnown(g, fields)
    ensures AllGrown(g, TreesOf(GrowFields(g, fields, seen)), seen)
  {
    if fields != [] {
      FieldTreesGrown(g, fields[1..], seen);
      if fields[0].exported {
        assert Grown(g, Grow(g, fields[0].typ, seen), seen);
        assert GrowFields(g, fields, seen)[1..] == GrowFields(g, fields[1..], seen);
      } else {
        assert GrowFields(g, fields, seen) == GrowFields(g, fields[1..], seen);
      }
    }
  }

  /** What stands below a node is grown with the node's own type seen. */
  lemma ChildrenGrown(g: Graph, t: Type, seen: set<int>)
    requires Closed(g) && Known(g, t)
    ensures var tree := Grow(g, t, seen); AllGrown(g, Children(tree), Below(tree.tag, seen))
  {
    var tree := Grow(g, t, seen);
    var u := if t.Named? then g[t.id].underlying else t;
    var below := Below(tree.tag, seen);
    if !tree.tag.Cut? {
      if u.Struct? {
        FieldTreesGrown(g, u.fields, below);
      } else if u.Map? {
        assert Grown(g, Grow(g, u.key, below), below) && Grown(g, Grow(g, u.elem, below), below);
      } else if u.Slice? || u.Pointer? {
        assert Grown(g, Grow(g, u.elem, below), below);
      }
    }
  }

  /** On the path from j up to the root. */
  predicate ExpandedBefore(path: seq<Tag>, j: nat, id: int)
    requires j <= |path|
  {
    exists i | 0 <= i < j :: path[i] == Expanded(id)
  }

  /** A named type is expanded where it is not seen yet, and cut where it is. */
  ghost predicate ExpandedOrCut(path: seq<Tag>, seen: set<int>) {
    forall j | 0 <= j < |path| ::
      && (path[j].Expanded? ==> path[j].id !in seen && !ExpandedBefore(path, j, path[j].id))
      && (path[j].Cut? ==> path[j].id in seen || ExpandedBefore(path, j, path[j].id))
  }

  lemma PathStep(path: seq<Tag>, seen: set<int>)
    requires path != [] && ExpandedOrCut(path[1..], Below(path[0], seen))
    requires path[0].Expanded? ==> path[0].id !in seen
    requires path[0].Cut? ==> path[0].id in seen
    ensures ExpandedOrCut(path, seen)
  {
    forall j, id | 1 <= j < |path|
      ensures ExpandedBefore(path, j, id) <==> path[0] == Expanded(id) || ExpandedBefore(path[1..], j - 1, id)
    {
      if i :| 0 <= i < j && path[i] == Expanded(id) && i > 0 {
        assert path[1..][i - 1] == Expanded(id);
      }
      if i :| 0 <= i < j - 1 && path[1..][i] == Expanded(id) {
        assert path[i + 1] == Expanded(id);
      }
    }
    forall j | 1 <= j < |path|
      ensures path[j] == path[1..][j - 1]
    {
    }
  }

  lemma {:induction false} PathsAreCut(g: Graph, t: Type, seen: set<int>, path: seq<Tag>)
    requires Closed(g) && Known(g, t) && IsPath(Grow(g, t, seen), path)
    ensures ExpandedOrCut(path, seen)
    decreases |path|
  {
    var tree := Grow(g, t, seen);
    if |path| > 1 {
      var child :| child in Children(tree) && IsPath(child, path[1..]);
      ChildrenGrown(g, t, seen);
      assert Grown(g, child, Below(tree.tag, seen));
      var u :| Known(g, u) && child == Grow(g, u, Below(tree.tag, seen));
      PathsAreCut(g, u, Below(tree.tag, seen), path[1..]);
    }
    PathStep(path, seen);
  }

  /** In the shape of any type of any finite graph, going down from the root: no named type is
      expanded twice, and one is cut exactly where it is met below itself. */
  lemma ExpandedOnce(g: Graph, t: Type, path: seq<Tag>)
    requires Closed(g) && Known(g, t) && IsPath(Grow(g, t, {}), path)
    ensures Erase(Grow(g, t, {})) == Resolve(g, t, {})
    ensures forall j | 0 <= j < |path| ::
      && (path[j].Expanded? ==> !ExpandedBefore(path, j, path[j].id))
      && (path[j].Cut? ==> ExpandedBefore(path, j, path[j].id))
  {
    GrowErases(g, t, {});
    PathsAreCut(g, t, {}, path);
  }

  // ---- and by package and name ----

  datatype Label = Label(pkg: string, name: string)

  function LabelOf(d: Decl): Label {
    Label(d.pkg, d.name)
  }

  /** No two named types of a package have one name: no two instances of a generic type, and
      no two local types, that share it. */
  ghost predicate Labelled(g: Graph) {
    forall i, j | i in g && j in g && g[i].pkg != "" && LabelOf(g[i]) == LabelOf(g[j]) :: i == j
  }

  function LabelsOf(g: Graph, ids: set<int>): set<Label> {
    set id | id in ids && id in g && g[id].pkg != "" :: LabelOf(g[id])
  }

  /** Going down from any expanded named type, its label does not come again. */
  predicate Once(s: Shape, above: set<Label>)
    decreases s
  {
    var here := Label(s.pkg, s.name);
    var below := if s.pkg != "" then above + {here} else above;
    && (s.pkg != "" ==> here !in above)
    && OnceInFields(s.fields, below)
    && (s.key.Some? ==> Once(s.key.value, below))
    && (s.elem.Some? ==> Once(s.elem.value, below))
  }

  predicate OnceInFields(fields: seq<FieldShape>, above: set<Label>)
    decreases fields
  {
    fields != [] ==> Once(fields[0].typ, above) && OnceInFields(fields[1..], above)
  }

  lemma LabelsWith(g: Graph, seen: set<int>, id: int)
    requires Labelled(g) && id in g && id !in seen
    ensures LabelsOf(g, seen + {id})
         == if g[id].pkg != "" then LabelsOf(g, seen) + {LabelOf(g[id])} else LabelsOf(g, seen)
    ensures g[id].pkg != "" ==> LabelOf(g[id]) !in LabelsOf(g, seen)
  {
  }

  /** On such a graph the shape itself shows it. */
  lemma {:induction false} LabelledOnce(g: Graph, t: Type, seen: set<int>)
    requires Closed(g) && Labelled(g) && Known(g, t)
    ensures Once(Resolve(g, t, seen), LabelsOf(g, seen))
    decreases g.Keys - seen, t
  {
    match t
    case Named(id) =>
      if id !in seen {
        LabelsWith(g, seen, id);
        var u := g[id].underlying;
        if u.Struct? {
          FieldsLabelledOnce(g, u.fields, seen + {id});
        } else if u.Map? {
          LabelledOnce(g, u.key, seen + {id});
          LabelledOnce(g, u.elem, seen + {id});
        } else if u.Slice? || u.Pointer? {
          LabelledOnce(g, u.elem, seen + {id});
        }
      }
    case Struct(fields) => FieldsLabelledOnce(g, fields, seen);
    case Pointer(elem) => LabelledOnce(g, elem, seen);
    case Slice(elem) => LabelledOnce(g, elem, seen);
    case Map(key, elem) =>
      LabelledOnce(g, key, seen);
      LabelledOnce(g, elem, seen);
    case Basic(_) =>
    case Interface(_, _) =>
    case Other(_) =>
  }

  lemma {:induction false} FieldsLabelledOnce(g: Graph, fields: seq<Field>, seen: set<int>)
    requires Closed(g) && Labelled(g) && AllKnown(g, fields)
    ensures OnceInFields(ResolveFields(g, fields, seen), LabelsOf(g, seen))
    decreases g.Keys - seen, fields
  {
    if fields != [] {
      FieldsLabelledOnce(g, fields[1..], seen);
      if fields[0].exported {
        LabelledOnce(g, fields[0].typ, seen);
        var head := FieldShape(fields[0].name, JsonName(fields[0].json), Resolve(g, fields[0].typ, seen));
        assert ResolveFields(g, fields, seen)[1..] == ResolveFields(g, fields[1..], seen);
      } else {
        assert ResolveFields(g, fields, seen) == ResolveFields(g, fields[1..], seen);
      }
    }
  }

  const BOX_OF_INT := Decl("p", "Box", "p.Box[int]", Struct([Field("V", true, Basic("int"), "")]))
  const BOX_OF_BOX := Decl("p", "Box", "p.Box[p.Box[int]]", Struct([Field("V", true, Named(0), "")]))

  /** Two instances of one generic type have one name: it comes twice, though no type does. */
  lemma InstancesRepeatAName()
    ensures var g := map[0 := BOX_OF_INT, 1 := BOX_OF_BOX]; Closed(g) && !Once(Resolve(g, Named(1), {}), {})
  {
    var g := map[0 := BOX_OF_INT, 1 := BOX_OF_BOX];
    assert Known(g, BOX_OF_INT.underlying) && Known(g, BOX_OF_BOX.underlying);
    assert {} + {1} == {1};
    var inner := Resolve(g, Named(0), {1});
    assert !Once(inner, {Label("p", "Box")});
    var fields := ResolveFields(g, BOX_OF_BOX.underlying.fields, {1});
    assert fields[0].typ == inner;
    assert !OnceInFields(fields, {Label("p", "Box")});
    assert Resolve(g, Named(1), {}) == Shape("Box", "p", "struct", fields, None, None);
    assert {} + {Label("p", "Box")} == {Label("p", "Box")};
  }

  // ---- on acyclic graphs: the full unfolding ----

  /** Every named type in t has rank less than r. */
  predicate RanksBelow(rank: map<int, nat>, t: Type, r: nat) {
    match t
    case Named(id) => id in rank && rank[id] < r
    case Struct(fields) => AllRanksBelow(rank, fields, r)
    case Pointer(elem) => RanksBelow(rank, elem, r)
    case Slice(elem) => RanksBelow(rank, elem, r)
    case Map(key, elem) => RanksBelow(rank, key, r) && RanksBelow(rank, elem, r)
    case Basic(_) => true
    case Interface(_, _) => true
    case Other(_) => true
  }

  predicate AllRanksBelow(rank: map<int, nat>, fields: seq<Field>, r: nat) {
    fields != [] ==> RanksBelow(rank, fields[0].typ, r) && AllRanksBelow(rank, fields[1..], r)
  }

  /** Named types stand only for types of lower rank. */
  ghost predicate Acyclic(g: Graph, rank: map<int, nat>) {
    forall id | id in g :: id in rank && RanksBelow(rank, g[id].underlying, rank[id])
  }

  /** Every named type replaced by what it stands for, all the way down. */
  function Unfold(g: Graph, rank: map<int, nat>, t: Type, r: nat): Shape
    requires Closed(g) && Acyclic(g, rank) && Known(g, t) && RanksBelow(rank, t, r)
    decreases r, t
  {
    match t
    case Named(id) =>
      var d := g[id];
      var u, below := d.underlying, rank[id];
      Shape(d.name, d.pkg, KindOf(u),
            if u.Struct? then UnfoldFields(g, rank, u.fields, below) else [],
            if u.Map? then Some(Unfold(g, rank, u.key, below)) else None,
            if u.Slice? || u.Map? || u.Pointer? then Some(Unfold(g, rank, u.elem, below)) else None)
    case Struct(fields) => Shape("", "", "struct", UnfoldFields(g, rank, fields, r), None, None)
    case Pointer(elem) =>
      var e := Unfold(g, rank, elem, r);
      Shape("*" + e.name, "", "pointer", [], None, Some(e))
    case Slice(elem) =>
      var e := Unfold(g, rank, elem, r);
      Shape("[]" + e.name, "", "slice", [], None, Some(e))
    case Map(key, elem) =>
      var k, e := Unfold(g, rank, key, r), Unfold(g, rank, elem, r);
      Shape("map[" + k.name + "]" + e.name, "", "map", [], Some(k), Some(e))
    case Basic(name) => Leaf(name, name)
    case Interface(empty, text) => Leaf(if empty then "any" else text, "interface")
    case Other(text) => Leaf(text, "unknown")
  }

  function UnfoldFields(g: Graph, rank: map<int, nat>, fields: seq<Field>, r: nat): seq<FieldShape>
    requires Closed(g) && Acyclic(g, rank) && AllKnown(g, fields) && AllRanksBelow(rank, fields, r)
    decreases r, fields
  {
    if fields == [] then []
    else
      (if fields[0].exported
       then [FieldShape(fields[0].name, JsonName(fields[0].json), Unfold(g, rank, fields[0].typ, r))] else [])
      + UnfoldFields(g, rank, fields[1..], r)
  }

  /** Without cycles nothing is cut: the path set never bites. */
  lemma {:induction false} AcyclicUnfolds(g: Graph, rank: map<int, nat>, t: Type, r: nat, seen: set<int>)
    requires Closed(g) && Acyclic(g, rank) && Known(g, t) && RanksBelow(rank, t, r)
    requires forall id | id in seen && id in rank :: rank[id] >= r
    ensures Resolve(g, t, seen) == Unfold(g, rank, t, r)
    decreases r, t
  {
    match t
    case Named(id) =>
      var u := g[id].underlying;
      if u.Struct? {
        AcyclicFieldsUnfold(g, rank, u.fields, rank[id], seen + {id});
      } else if u.Map? {
        AcyclicUnfolds(g, rank, u.key, rank[id], seen + {id});
        AcyclicUnfolds(g, rank, u.elem, rank[id], seen + {id});
      } else if u.Slice? || u.Pointer? {
        AcyclicUnfolds(g, rank, u.elem, rank[id], seen + {id});
      }
    case Struct(fields) => AcyclicFieldsUnfold(g, rank, fields, r, seen);
    case Pointer(elem) => AcyclicUnfolds(g, rank, elem, r, seen);
    case Slice(elem) => AcyclicUnfolds(g, rank, elem, r, seen);
    case Map(key, elem) =>
      AcyclicUnfolds(g, rank, key, r, seen);
      AcyclicUnfolds(g, rank, elem, r, seen);
    case Basic(_) =>
    case Interface(_, _) =>
    case Other(_) =>
  }

  lemma {:induction false} AcyclicFieldsUnfold(g: Graph, rank: map<int, nat>, fields: seq<Field>, r: nat,
          seen: set<int>)
    requires Closed(g) && Acyclic(g, rank) && AllKnown(g, fields) && AllRanksBelow(rank, fields, r)
    requires forall id | id in seen && id in rank :: rank[id] >= r
    ensures ResolveFields(g, fields, seen) == UnfoldFields(g, rank, fields, r)
    decreases r, fields
  {
    if fields != [] {
      AcyclicUnfolds(g, rank, fields[0].typ, r, seen);
      AcyclicFieldsUnfold(g, rank, fields[1..], r, seen);
    }
  }
}
