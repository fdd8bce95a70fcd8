/** The two projections of the folder tree (src/writers.py:31-42, :151-165,
    :269-279): box-drawing lines for Markdown, `{path, type[, files]}` records
    for JSON and TOON, and `file`/`directory` elements for XML. */
module TreeViews {
  import opened Wrappers
  import opened Text
  import opened Values
  import opened XmlTree
  import opened FolderTree

  // ---------------------------------------------------------------------------
  // format_tree_md

  function Connector(last: bool): string
  {
    if last then "└── " else "├── "
  }

  function Extension(last: bool): string
  {
    if last then "    " else "│   "
  }

  /** `format_tree_md(tree, prefix, is_last)`. The source never reads
      `is_last`; each entry decides its own connector from its position. */
  function FormatTreeMd(t: Tree, prefix: string, isLast: bool): seq<string>
  {
    Flatten(seq(|t|, i requires 0 <= i < |t| => EntryLines(t[i], i == |t| - 1, prefix)))
  }

  /** The line of one entry, then the lines of its subtree if it is a directory. */
  function EntryLines(e: (string, Node), last: bool, prefix: string): seq<string>
  {
    [prefix + Connector(last) + e.0]
    + match e.1
      case File => []
      case Dir(es) => FormatTreeMd(es, prefix + Extension(last), last)
  }

  /** One entry of the tree seen from the top: the last-sibling flags of its
      ancestors (outermost first), whether it is itself a last sibling, its name. */
  datatype Row = Row(ancestorsLast: seq<bool>, isLast: bool, name: string)

  /** Every entry of the tree, depth first in insertion order. */
  function Outline(t: Tree): seq<Row>
  {
    Flatten(seq(|t|, i requires 0 <= i < |t| => EntryRows(t[i], i == |t| - 1)))
  }

  function EntryRows(e: (string, Node), last: bool): seq<Row>
  {
    [Row([], last, e.0)]
    + match e.1
      case File => []
      case Dir(es) => Nest(last, Outline(es))
  }

  /** The rows of a subtree seen from one level higher. */
  function Nest(last: bool, rows: seq<Row>): seq<Row>
  {
    seq(|rows|, k requires 0 <= k < |rows| => rows[k].(ancestorsLast := [last] + rows[k].ancestorsLast))
  }

  /** One `"    "` under each last ancestor, one `"│   "` under each other. */
  function Guides(ancestorsLast: seq<bool>): string
  {
    if ancestorsLast == [] then "" else Extension(ancestorsLast[0]) + Guides(ancestorsLast[1..])
  }

  function RenderRow(prefix: string, r: Row): string
  {
    prefix + Guides(r.ancestorsLast) + Connector(r.isLast) + r.name
  }

  function Render(prefix: string, rows: seq<Row>): seq<string>
  {
    seq(|rows|, k requires 0 <= k < |rows| => RenderRow(prefix, rows[k]))
  }

  /** The number of entries in a tree, directories and files alike. */
  function Count(t: Tree): nat
  {
    Sum(seq(|t|, i requires 0 <= i < |t| => EntryCount(t[i])))
  }

  function EntryCount(e: (string, Node)): nat
  {
    1 + match e.1 case File => 0 case Dir(es) => Count(es)
  }

  lemma {:induction false} RenderAppend(prefix: string, xs: seq<Row>, ys: seq<Row>)
    ensures Render(prefix, xs + ys) == Render(prefix, xs) + Render(prefix, ys)
  {
  }

  lemma RenderRowNest(prefix: string, last: bool, r: Row)
    ensures RenderRow(prefix, r.(ancestorsLast := [last] + r.ancestorsLast)) == RenderRow(prefix + Extension(last), r)
  {
    assert ([last] + r.ancestorsLast)[1..] == r.ancestorsLast;
  }

  lemma RenderNest(prefix: string, last: bool, rows: seq<Row>)
    ensures Render(prefix, Nest(last, rows)) == Render(prefix + Extension(last), rows)
  {
    var a := Render(prefix, Nest(last, rows));
    var b := Render(prefix + Extension(last), rows);
    forall k | 0 <= k < |rows|
      ensures a[k] == b[k]
    {
      RenderRowNest(prefix, last, rows[k]);
    }
  }

  lemma {:induction false} RenderFlatten(prefix: string, rss: seq<seq<Row>>, lss: seq<seq<string>>)
    requires |rss| == |lss|
    requires forall i :: 0 <= i < |rss| ==> lss[i] == Render(prefix, rss[i])
    ensures Flatten(lss) == Render(prefix, Flatten(rss))
  {
    if rss != [] {
      RenderFlatten(prefix, rss[1..], lss[1..]);
      RenderAppend(prefix, rss[0], Flatten(rss[1..]));
    }
  }

  /** `format_tree_md` emits one line per entry, depth first in insertion
      order: the prefix, a guide per ancestor (`"    "` below a last sibling,
      `"│   "` otherwise), `"└── "` for a last sibling and `"├── "` for the
      others, then the entry's name. */
  lemma {:induction false} FormatTreeMdRendersOutline(t: Tree, prefix: string, isLast: bool)
    ensures FormatTreeMd(t, prefix, isLast) == Render(prefix, Outline(t))
    decreases t
  {
    var rss := seq(|t|, i requires 0 <= i < |t| => EntryRows(t[i], i == |t| - 1));
    var lss := seq(|t|, i requires 0 <= i < |t| => EntryLines(t[i], i == |t| - 1, prefix));
    forall i | 0 <= i < |t|
      ensures lss[i] == Render(prefix, rss[i])
    {
      EntryLinesRendersRows(t[i], i == |t| - 1, prefix);
    }
    RenderFlatten(prefix, rss, lss);
  }

  lemma {:induction false} EntryLinesRendersRows(e: (string, Node), last: bool, prefix: string)
    ensures EntryLines(e, last, prefix) == Render(prefix, EntryRows(e, last))
    decreases e
  {
    var head := [Row([], last, e.0)];
    assert RenderRow(prefix, head[0]) == prefix + Connector(last) + e.0;
    assert Render(prefix, head) == [prefix + Connector(last) + e.0];
    match e.1
    case File =>
    case Dir(es) =>
      FormatTreeMdRendersOutline(es, prefix + Extension(last), last);
      RenderNest(prefix, last, Outline(es));
      RenderAppend(prefix, head, Nest(last, Outline(es)));
  }

  /** The outline, hence `format_tree_md`, has exactly one row per entry. */
  lemma {:induction false} OutlineCount(t: Tree)
    ensures |Outline(t)| == Count(t)
    decreases Dir(t)
  {
    var rss := seq(|t|, i requires 0 <= i < |t| => EntryRows(t[i], i == |t| - 1));
    var ns := seq(|t|, i requires 0 <= i < |t| => EntryCount(t[i]));
    forall i | 0 <= i < |t|
      ensures |rss[i]| == ns[i]
    {
      assert t[i] in t;
      match t[i].1
      case File =>
      case Dir(es) => OutlineCount(es);
    }
    FlattenLength(rss, ns);
  }

  // ---------------------------------------------------------------------------
  // tree_to_list

  /** `f"{parent}/{name}" if parent else name` */
  function ChildPath(parent: string, name: string): string
  {
    if parent != "" then parent + "/" + name else name
  }

  /** `tree_to_list(tree, path)`: one record per entry, in insertion order. */
  function TreeToList(t: Tree, path: string): seq<Value>
  {
    seq(|t|, i requires 0 <= i < |t| => EntryRecord(t[i], path))
  }

  /** `{"path", "type": "file"}` for a file; `{"path", "type": "directory",
      "files": [...]}` for a directory, its entries listed under its own path. */
  function EntryRecord(e: (string, Node), path: string): Value
  {
    var current := ChildPath(path, e.0);
    match e.1
    case File => Obj([("path", Str(current)), ("type", Str("file"))])
    case Dir(es) => Obj([("path", Str(current)), ("type", Str("directory")), ("files", Arr(TreeToList(es, current)))])
  }

  /** `KindName(n)` is the `type` a record gives to node `n`. */
  function KindName(n: Node): string
  {
    if n.File? then "file" else "directory"
  }

  /** The `(path, type)` of every record in a structure listing, at every
      depth, read the way a consumer of the JSON reads it: through the keys. */
  function Listed(v: Value): set<(string, string)>
  {
    match v
    case Arr(items) => set k, e | 0 <= k < |items| && e in Listed(items[k]) :: e
    case Obj(fields) =>
      OwnEntry(fields) + (set k, e | 0 <= k < |fields| && fields[k].0 == "files" && e in Listed(fields[k].1) :: e)
    case _ => {}
  }

  /** The `(path, type)` a record states about itself, when both are strings. */
  function OwnEntry(fields: seq<(string, Value)>): set<(string, string)>
  {
    match (Get(fields, "path"), Get(fields, "type"))
    case (Some(Str(p)), Some(Str(ty))) => {(p, ty)}
    case _ => {}
  }

  /** The path a segment path gets below `base`, joined as `tree_to_list` joins it. */
  function PathJoin(base: string, q: seq<string>): string
    decreases q
  {
    if q == [] then base else PathJoin(ChildPath(base, q[0]), q[1..])
  }

  lemma {:induction false} LookupDistinct(t: Tree, j: nat)
    requires j < |t| && Distinct(Names(t))
    ensures Lookup(t, t[j].0) == Some(t[j].1)
  {
    if j > 0 {
      assert Names(t)[0] != Names(t)[j];
      assert Names(t[1..]) == Names(t)[1..];
      LookupDistinct(t[1..], j - 1);
    }
  }

  lemma {:induction false} LookupIndex(t: Tree, name: string)
    requires Lookup(t, name).Some?
    ensures exists j :: 0 <= j < |t| && t[j] == (name, Lookup(t, name).value)
  {
    if t[0].0 != name {
      LookupIndex(t[1..], name);
      var j :| 0 <= j < |t| - 1 && t[1..][j] == (name, Lookup(t, name).value);
      assert t[j + 1] == t[1..][j];
    }
  }

  lemma ListedFileRecord(name: string, path: string)
    ensures Listed(EntryRecord((name, File), path)) == {(ChildPath(path, name), "file")}
  {
    var fs := [("path", Str(ChildPath(path, name))), ("type", Str("file"))];
    assert Get(fs, "path") == Some(Str(ChildPath(path, name)));
    assert Get(fs, "type") == Some(Str("file"));
    assert OwnEntry(fs) == {(ChildPath(path, name), "file")};
    assert fs[0].0 != "files" && fs[1].0 != "files";
  }

  lemma ListedDirRecord(name: string, es: Tree, path: string)
    ensures Listed(EntryRecord((name, Dir(es)), path)) ==
      {(ChildPath(path, name), "directory")} + Listed(Arr(TreeToList(es, ChildPath(path, name))))
  {
    var current := ChildPath(path, name);
    var fs := [("path", Str(current)), ("type", Str("directory")), ("files", Arr(TreeToList(es, current)))];
    assert Get(fs, "path") == Some(Str(current));
    assert Get(fs, "type") == Some(Str("directory"));
    assert OwnEntry(fs) == {(current, "directory")};
    var files := set k, e | 0 <= k < |fs| && fs[k].0 == "files" && e in Listed(fs[k].1) :: e;
    assert fs[0].0 != "files" && fs[1].0 != "files" && fs[2].0 == "files";
    assert files == Listed(fs[2].1);
  }

  /** What one record lists: its own path and kind, then its subtree's. */
  lemma ListedRecord(e: (string, Node), path: string)
    ensures Listed(EntryRecord(e, path)) ==
      {(ChildPath(path, e.0), KindName(e.1))}
      + match e.1 case File => {} case Dir(es) => Listed(Arr(TreeToList(es, ChildPath(path, e.0))))
  {
    match e.1
    case File => ListedFileRecord(e.0, path);
    case Dir(es) => ListedDirRecord(e.0, es, path);
  }

  /** Every record of the listing names a node of the tree: its `type` is
      the node's kind and its `path` is the node's segment path joined below
      the starting path. */
  lemma ListedItem(items: seq<Value>, e: (string, string))
    requires e in Listed(Arr(items))
    ensures exists k :: 0 <= k < |items| && e in Listed(items[k])
  {
  }

  lemma {:induction false} ListedIsReachable(t: Tree, base: string, p: string, ty: string)
    requires WellFormed(t)
    requires (p, ty) in Listed(Arr(TreeToList(t, base)))
    ensures exists q :: NodeAt(t, q).Some? && KindName(NodeAt(t, q).value) == ty && PathJoin(base, q) == p
    decreases Dir(t), 1
  {
    var recs := TreeToList(t, base);
    ListedItem(recs, (p, ty));
    var k :| 0 <= k < |recs| && (p, ty) in Listed(recs[k]);
    assert recs[k] == EntryRecord(t[k], base);
    ListedRecord(t[k], base);
    var current := ChildPath(base, t[k].0);
    if (p, ty) == (current, KindName(t[k].1)) {
      var q := StepOnto(t, base, k);
    } else {
      ListedBelow(t, base, k, p, ty);
    }
  }

  lemma {:induction false} ListedBelow(t: Tree, base: string, k: nat, p: string, ty: string)
    requires WellFormed(t) && k < |t| && t[k].1.Dir?
    requires (p, ty) in Listed(Arr(TreeToList(t[k].1.entries, ChildPath(base, t[k].0))))
    ensures exists q :: NodeAt(t, q).Some? && KindName(NodeAt(t, q).value) == ty && PathJoin(base, q) == p
    decreases Dir(t), 0
  {
    var es := t[k].1.entries;
    assert t[k] in t;
    assert WellFormedNode(t[k].1);
    ListedIsReachable(es, ChildPath(base, t[k].0), p, ty);
    var q' :| NodeAt(es, q').Some? && KindName(NodeAt(es, q').value) == ty && PathJoin(ChildPath(base, t[k].0), q') == p;
    var q := StepInto(t, base, k, q');
    assert NodeAt(t, q).Some? && KindName(NodeAt(t, q).value) == ty && PathJoin(base, q) == p;
  }

  /** The one-segment path naming entry `k` itself. */
  lemma StepOnto(t: Tree, base: string, k: nat) returns (q: seq<string>)
    requires Distinct(Names(t)) && k < |t|
    ensures NodeAt(t, q) == Some(t[k].1)
    ensures PathJoin(base, q) == ChildPath(base, t[k].0)
  {
    LookupDistinct(t, k);
    q := [t[k].0];
    assert PathJoin(base, q) == PathJoin(ChildPath(base, t[k].0), []);
  }

  /** A segment path inside entry `k`'s directory, seen from the tree. */
  lemma StepInto(t: Tree, base: string, k: nat, q': seq<string>) returns (q: seq<string>)
    requires Distinct(Names(t)) && k < |t| && t[k].1.Dir? && q' != []
    ensures NodeAt(t, q) == NodeAt(t[k].1.entries, q')
    ensures PathJoin(base, q) == PathJoin(ChildPath(base, t[k].0), q')
  {
    LookupDistinct(t, k);
    q := [t[k].0] + q';
    assert q[1..] == q';
  }

  /** Every node of the tree is listed, under its joined path and its kind. */
  lemma {:induction false} ReachableIsListed(t: Tree, base: string, q: seq<string>)
    requires WellFormed(t)
    requires NodeAt(t, q).Some?
    ensures (PathJoin(base, q), KindName(NodeAt(t, q).value)) in Listed(Arr(TreeToList(t, base)))
    decreases Dir(t)
  {
    var recs := TreeToList(t, base);
    LookupIndex(t, q[0]);
    var k :| 0 <= k < |t| && t[k] == (q[0], Lookup(t, q[0]).value);
    ListedRecord(t[k], base);
    var current := ChildPath(base, t[k].0);
    assert recs[k] == EntryRecord(t[k], base);
    if |q| == 1 {
      assert PathJoin(base, q) == PathJoin(current, []);
      assert (PathJoin(base, q), KindName(NodeAt(t, q).value)) in Listed(recs[k]);
    } else {
      var es := t[k].1.entries;
      assert t[k] in t;
      assert WellFormedNode(t[k].1);
      ReachableIsListed(es, current, q[1..]);
      assert NodeAt(es, q[1..]) == NodeAt(t, q);
      assert (PathJoin(base, q), KindName(NodeAt(t, q).value)) in Listed(recs[k]);
    }
  }

  // ---------------------------------------------------------------------------
  // tree_to_xml

  /** The elements `tree_to_xml` appends for a tree below `path`. */
  function StructureElements(t: Tree, path: string): seq<Element>
  {
    seq(|t|, i requires 0 <= i < |t| => EntryElement(t[i], path))
  }

  function EntryElement(e: (string, Node), path: string): Element
  {
    var current := ChildPath(path, e.0);
    match e.1
    case File => Element("file", [("path", current)], None, [])
    case Dir(es) => Element("directory", [("path", current)], None, StructureElements(es, current))
  }

  /** `tree_to_xml(parent, tree, path)`: `SubElement` one `file` or
      `directory` element per entry onto `parent`, each carrying its `path`,
      directories filled by the recursive call. */
  method TreeToXml(parent: Element, t: Tree, path: string) returns (updated: Element)
    ensures updated == parent.(children := parent.children + StructureElements(t, path))
    decreases Dir(t)
  {
    updated := parent;
    var i := 0;
    while i < |t|
      invariant 0 <= i <= |t|
      invariant updated == parent.(children := parent.children + StructureElements(t, path)[..i])
    {
      var (name, subtree) := t[i];
      var current := ChildPath(path, name);
      var item: Element;
      match subtree {
        case File =>
          item := Element("file", [("path", current)], None, []);
        case Dir(es) =>
          item := Element("directory", [("path", current)], None, []);
          item := TreeToXml(item, es, current);
      }
      assert item == EntryElement(t[i], path);
      assert StructureElements(t, path)[..i + 1] == StructureElements(t, path)[..i] + [item];
      updated := Append(updated, item);
      i := i + 1;
    }
    assert StructureElements(t, path)[..|t|] == StructureElements(t, path);
  }

  /** An element mirrors a structure record: same tag as the record's `type`,
      the record's `path` as its only attribute, and for a directory one
      mirroring child per entry of `files`, in order. */
  predicate Mirrors(el: Element, rec: Value)
  {
    match rec
    case Obj(fields) =>
      && Get(fields, "type").Some? && Get(fields, "type").value.Str?
      && Get(fields, "path").Some? && Get(fields, "path").value.Str?
      && el.tag == Get(fields, "type").value.s
      && el.attrs == [("path", Get(fields, "path").value.s)]
      && el.text == None
      && (match Get(fields, "files")
          case Some(Arr(items)) =>
            && el.tag == "directory"
            && |el.children| == |items|
            && forall k :: 0 <= k < |items| ==> Mirrors(el.children[k], items[k])
          case _ => el.tag == "file" && el.children == [])
    case _ => false
  }

  /** The XML structure and the JSON/TOON structure list describe the same
      tree: element for record, in the same order, at every depth. */
  lemma {:induction false} XmlMirrorsList(t: Tree, path: string)
    ensures |StructureElements(t, path)| == |TreeToList(t, path)|
    ensures forall i :: 0 <= i < |t| ==> Mirrors(StructureElements(t, path)[i], TreeToList(t, path)[i])
    decreases Dir(t)
  {
    forall i | 0 <= i < |t|
      ensures Mirrors(StructureElements(t, path)[i], TreeToList(t, path)[i])
    {
      var current := ChildPath(path, t[i].0);
      assert t[i] in t;
      match t[i].1
      case File =>
        var fs := [("path", Str(current)), ("type", Str("file"))];
        assert fs[0].0 != "files" && fs[1].0 != "files";
        assert Get(fs, "type") == Some(Str("file"));
        assert Get(fs, "files") == None;
      case Dir(es) =>
        XmlMirrorsList(es, current);
        var fs := [("path", Str(current)), ("type", Str("directory")), ("files", Arr(TreeToList(es, current)))];
        assert Get(fs, "type") == Some(Str("directory"));
        assert Get(fs[2..], "files") == Some(Arr(TreeToList(es, current)));
        assert Get(fs, "files") == Some(Arr(TreeToList(es, current)));
    }
  }

  /** Every element in the XML structure, at every depth, carries a
      non-empty `path` attribute. */
  predicate AllPathed(el: Element)
  {
    && |el.attrs| == 1 && el.attrs[0].0 == "path" && el.attrs[0].1 != ""
    && forall k :: 0 <= k < |el.children| ==> AllPathed(el.children[k])
  }

  lemma {:induction false} StructurePathsNonEmpty(t: Tree, path: string)
    requires WellFormed(t)
    ensures forall i :: 0 <= i < |t| ==> AllPathed(StructureElements(t, path)[i])
    decreases Dir(t)
  {
    forall i | 0 <= i < |t|
      ensures AllPathed(StructureElements(t, path)[i])
    {
      assert t[i] in t;
      assert t[i].0 != "" && WellFormedNode(t[i].1);
      match t[i].1
      case File =>
      case Dir(es) =>
        StructurePathsNonEmpty(es, ChildPath(path, t[i].0));
        assert StructureElements(t, path)[i].children == StructureElements(es, ChildPath(path, t[i].0));
    }
  }
}
