/** `build_folder_structure` (src/writers.py:13-26): the nested, insertion-ordered
    folder tree built from the documents' paths. A file is a `File` leaf (the
    source's `None`); a directory is a `Dir` holding its own ordered entries
    (the source's nested `dict`). */
module FolderTree {
  import opened Wrappers
  import opened Text
  import opened Records

  datatype Node = File | Dir(entries: seq<(string, Node)>)

  /** A `dict` from segment name to node, in insertion order. */
  type Tree = seq<(string, Node)>

  // ---------------------------------------------------------------------------
  // Path.parts

  /** `s.split('/')` */
  function Split(s: string): (r: seq<string>)
    ensures |r| >= 1
    ensures forall k :: 0 <= k < |r| ==> '/' !in r[k]
  {
    if s == [] then [""]
    else
      var rest := Split(s[1..]);
      if s[0] == '/' then [""] + rest else [[s[0]] + rest[0]] + rest[1..]
  }

  /** The pieces `Path.parts` keeps: empty and `.` pieces vanish. */
  function KeepParts(pieces: seq<string>): (r: seq<string>)
    ensures forall k :: 0 <= k < |r| ==> r[k] in pieces && r[k] != "" && r[k] != "."
  {
    if pieces == [] then []
    else if pieces[0] == "" || pieces[0] == "." then KeepParts(pieces[1..])
    else [pieces[0]] + KeepParts(pieces[1..])
  }

  /** The root part of a POSIX path: `//` for exactly two leading slashes,
      `/` for one or three and more, none for a relative path. */
  function Root(path: string): string
  {
    if |path| >= 2 && path[..2] == "//" && (|path| == 2 || path[2] != '/') then "//"
    else if |path| >= 1 && path[0] == '/' then "/"
    else ""
  }

  /** `Path(path).parts` */
  function Segments(path: string): (parts: seq<string>)
    ensures forall k :: 0 <= k < |parts| ==> parts[k] != ""
    ensures Root(path) != "" ==> parts != [] && parts[0] == Root(path)
    ensures forall k :: (if Root(path) == "" then 0 else 1) <= k < |parts| ==>
      parts[k] != "." && '/' !in parts[k]
  {
    var root := Root(path);
    (if root == "" then [] else [root]) + KeepParts(Split(path))
  }

  /** A name that `Path.parts` returns unchanged when it stands between slashes. */
  predicate ValidSegment(x: string)
  {
    x != "" && x != "." && '/' !in x
  }

  lemma {:induction false} SplitNoSlash(x: string)
    requires '/' !in x
    ensures Split(x) == [x]
  {
    if x != [] {
      SplitNoSlash(x[1..]);
      assert x[0] != '/' && [x[0]] + x[1..] == x;
    }
  }

  lemma {:induction false} SplitAtSlash(x: string, y: string)
    requires '/' !in x
    ensures Split(x + "/" + y) == [x] + Split(y)
  {
    if x == [] {
      assert x + "/" + y == "/" + y;
      assert ("/" + y)[1..] == y;
    } else {
      SplitAtSlash(x[1..], y);
      assert (x + "/" + y)[1..] == x[1..] + "/" + y;
      assert [x[0]] + x[1..] == x;
    }
  }

  /** A path written as valid names joined by single slashes is exactly what
      `Path.parts` gives back. */
  lemma {:induction false} SegmentsOfJoin(xs: seq<string>)
    requires forall k :: 0 <= k < |xs| ==> ValidSegment(xs[k])
    ensures Segments(Join(xs, "/")) == xs
  {
    if xs == [] {
    } else if |xs| == 1 {
      SplitNoSlash(xs[0]);
      assert xs[0][0] != '/';
      assert Join(xs, "/") == xs[0];
      assert KeepParts([xs[0]]) == [xs[0]] + KeepParts([]);
    } else {
      SegmentsOfJoin(xs[1..]);
      SplitAtSlash(xs[0], Join(xs[1..], "/"));
      assert Join(xs, "/") == xs[0] + "/" + Join(xs[1..], "/");
      var rest := Join(xs[1..], "/");
      assert Root(Join(xs, "/")) == "" by {
        assert Join(xs, "/")[0] == xs[0][0];
      }
      assert Root(rest) == "" by {
        assert rest[0] == xs[1][0];
      }
    }
  }

  // ---------------------------------------------------------------------------
  // The tree as an insertion-ordered dict

  /** `tree.get(name)` */
  function Lookup(t: Tree, name: string): (r: Option<Node>)
    ensures r.Some? <==> name in Names(t)
  {
    if t == [] then None
    else if t[0].0 == name then Some(t[0].1)
    else Lookup(t[1..], name)
  }

  /** `list(tree.keys())` */
  function Names(t: Tree): (ns: seq<string>)
    ensures |ns| == |t|
    ensures forall k :: 0 <= k < |t| ==> ns[k] == t[k].0
  {
    if t == [] then [] else [t[0].0] + Names(t[1..])
  }

  /** `tree[name] = n`: an existing entry keeps its place, a new one goes last. */
  function Put(t: Tree, name: string, n: Node): Tree
  {
    if t == [] then [(name, n)]
    else if t[0].0 == name then [(name, n)] + t[1..]
    else [t[0]] + Put(t[1..], name, n)
  }

  lemma {:induction false} PutLookup(t: Tree, name: string, n: Node, other: string)
    ensures Lookup(Put(t, name, n), other) == if other == name then Some(n) else Lookup(t, other)
  {
    if t != [] && t[0].0 != name {
      PutLookup(t[1..], name, n, other);
    }
  }

  lemma {:induction false} PutNames(t: Tree, name: string, n: Node)
    ensures Names(Put(t, name, n)) == if name in Names(t) then Names(t) else Names(t) + [name]
  {
    if t != [] && t[0].0 != name {
      PutNames(t[1..], name, n);
      assert Names(t) == [t[0].0] + Names(t[1..]);
    }
  }

  lemma {:induction false} PutPut(t: Tree, name: string, n: Node, n': Node)
    ensures Put(Put(t, name, n), name, n') == Put(t, name, n')
  {
    if t != [] && t[0].0 != name {
      PutPut(t[1..], name, n, n');
    }
  }

  predicate Distinct(xs: seq<string>)
  {
    forall i, j :: 0 <= i < j < |xs| ==> xs[i] != xs[j]
  }

  /** In every dict of the tree the names are distinct and non-empty. */
  predicate WellFormed(t: Tree)
    decreases Dir(t), 0
  {
    && Distinct(Names(t))
    && forall i :: 0 <= i < |t| ==> t[i].0 != "" && WellFormedNode(t[i].1)
  }

  predicate WellFormedNode(n: Node)
    decreases n, 1
  {
    match n
    case File => true
    case Dir(es) => WellFormed(es)
  }

  lemma {:induction false} PutEntries(t: Tree, name: string, n: Node)
    ensures forall e :: e in Put(t, name, n) ==> e == (name, n) || e in t
  {
    if t != [] && t[0].0 != name {
      PutEntries(t[1..], name, n);
    }
  }

  lemma PutWellFormed(t: Tree, name: string, n: Node)
    requires WellFormed(t) && name != "" && WellFormedNode(n)
    ensures WellFormed(Put(t, name, n))
  {
    var p := Put(t, name, n);
    PutNames(t, name, n);
    PutEntries(t, name, n);
    forall i | 0 <= i < |p|
      ensures p[i].0 != "" && WellFormedNode(p[i].1)
    {
      assert p[i] in p;
    }
  }

  // ---------------------------------------------------------------------------
  // Inserting one path

  /** The cursor walk never reaches a file marker: no proper prefix of `segs`
      names a file already in `t` (otherwise the source indexes into `None`). */
  predicate CanInsert(t: Tree, segs: seq<string>)
    decreases segs
  {
    |segs| <= 1 ||
    match Lookup(t, segs[0])
    case None => true
    case Some(File) => false
    case Some(Dir(es)) => CanInsert(es, segs[1..])
  }

  /** One iteration of the outer loop: walk or create the directories of
      all segments but the last, then set the last segment to a file marker. */
  function Insert(t: Tree, segs: seq<string>): Tree
    requires CanInsert(t, segs)
    decreases segs
  {
    if segs == [] then t
    else if |segs| == 1 then Put(t, segs[0], File)
    else
      Put(t, segs[0], Dir(Insert(Below(t, segs[0]), segs[1..])))
  }

  /** Top-level keys keep their first-encounter order: inserting a path adds
      its first segment at the end when it is new and adds nothing otherwise
      (nothing at all for a path without segments). */
  lemma InsertNames(t: Tree, segs: seq<string>)
    requires CanInsert(t, segs)
    ensures Names(Insert(t, segs)) ==
      if segs == [] || segs[0] in Names(t) then Names(t) else Names(t) + [segs[0]]
  {
    if segs != [] {
      if |segs| == 1 {
        PutNames(t, segs[0], File);
      } else {
        PutNames(t, segs[0], Dir(Insert(Below(t, segs[0]), segs[1..])));
      }
    }
  }

  /** Inserting the same path twice is inserting it once: a repeated path or
      shared prefix creates nothing new and a re-set leaf stays a file. */
  lemma {:induction false} InsertIdempotent(t: Tree, segs: seq<string>)
    requires CanInsert(t, segs)
    ensures CanInsert(Insert(t, segs), segs)
    ensures Insert(Insert(t, segs), segs) == Insert(t, segs)
    decreases segs
  {
    if |segs| == 1 {
      PutLookup(t, segs[0], File, segs[0]);
      PutPut(t, segs[0], File, File);
    } else if |segs| > 1 {
      var below := Below(t, segs[0]);
      var sub := Insert(below, segs[1..]);
      InsertIdempotent(below, segs[1..]);
      PutLookup(t, segs[0], Dir(sub), segs[0]);
      PutPut(t, segs[0], Dir(sub), Dir(Insert(sub, segs[1..])));
    }
  }

  lemma {:induction false} InsertWellFormed(t: Tree, segs: seq<string>)
    requires CanInsert(t, segs) && WellFormed(t)
    requires forall k :: 0 <= k < |segs| ==> segs[k] != ""
    ensures WellFormed(Insert(t, segs))
    decreases segs
  {
    if |segs| == 1 {
      PutWellFormed(t, segs[0], File);
    } else if |segs| > 1 {
      var below := Below(t, segs[0]);
      if Lookup(t, segs[0]).Some? {
        LookupEntry(t, segs[0]);
      }
      InsertWellFormed(below, segs[1..]);
      PutWellFormed(t, segs[0], Dir(Insert(below, segs[1..])));
    }
  }

  lemma {:induction false} LookupEntry(t: Tree, name: string)
    requires Lookup(t, name).Some?
    ensures (name, Lookup(t, name).value) in t
  {
    if t[0].0 != name {
      LookupEntry(t[1..], name);
    }
  }

  // ---------------------------------------------------------------------------
  // What a tree holds, by path

  /** The node a segment path leads to, if any. */
  function NodeAt(t: Tree, q: seq<string>): Option<Node>
    decreases q
  {
    if q == [] then None
    else
      match Lookup(t, q[0])
      case None => None
      case Some(n) =>
        if |q| == 1 then Some(n)
        else match n
          case File => None
          case Dir(es) => NodeAt(es, q[1..])
  }

  predicate FileAt(t: Tree, q: seq<string>)
  {
    NodeAt(t, q) == Some(File)
  }

  predicate DirAt(t: Tree, q: seq<string>)
  {
    NodeAt(t, q).Some? && NodeAt(t, q).value.Dir?
  }

  /** `p` is a non-empty proper prefix of `q`. */
  predicate ProperPrefix(p: seq<string>, q: seq<string>)
  {
    p != [] && |p| < |q| && q[..|p|] == p
  }

  /** When the cursor walk would fail, some proper prefix of the path is a file. */
  lemma {:induction false} BlockedByFile(t: Tree, segs: seq<string>)
    requires !CanInsert(t, segs)
    ensures exists k :: 1 <= k < |segs| && FileAt(t, segs[..k])
    decreases segs
  {
    match Lookup(t, segs[0])
    case Some(File) =>
      assert FileAt(t, segs[..1]);
    case Some(Dir(es)) =>
      BlockedByFile(es, segs[1..]);
      var k :| 1 <= k < |segs| - 1 && FileAt(es, segs[1..][..k]);
      assert segs[..k + 1][1..] == segs[1..][..k];
      assert FileAt(t, segs[..k + 1]);
  }

  /** Inserting a path creates no file other than the path itself. */
  lemma {:induction false} InsertAddsOnlyItsFile(t: Tree, segs: seq<string>, q: seq<string>)
    requires CanInsert(t, segs)
    requires FileAt(Insert(t, segs), q)
    ensures FileAt(t, q) || q == segs
    decreases segs
  {
    if segs == [] {
    } else if q[0] != segs[0] {
      InsertElsewhere(t, segs, q);
    } else if |segs| == 1 {
      PutLookup(t, segs[0], File, q[0]);
      assert q == segs;
    } else if |q| == 1 {
      PutLookup(t, segs[0], Dir(Insert(Below(t, segs[0]), segs[1..])), q[0]);
    } else {
      InsertBelow(t, segs, q);
      PrefixCons(q, segs);
      InsertAddsOnlyItsFile(Below(t, segs[0]), segs[1..], q[1..]);
    }
  }

  /** The directory entries under `name`, or none when there is no directory. */
  function Below(t: Tree, name: string): Tree
  {
    match Lookup(t, name) case Some(Dir(es)) => es case _ => []
  }

  /** Inserting a path leaves every path under another top-level name alone. */
  lemma InsertElsewhere(t: Tree, segs: seq<string>, q: seq<string>)
    requires CanInsert(t, segs) && segs != [] && q != [] && q[0] != segs[0]
    ensures NodeAt(Insert(t, segs), q) == NodeAt(t, q)
  {
    if |segs| == 1 {
      PutLookup(t, segs[0], File, q[0]);
    } else {
      PutLookup(t, segs[0], Dir(Insert(Below(t, segs[0]), segs[1..])), q[0]);
    }
  }

  /** Below its first segment, inserting a path is inserting the rest of it. */
  lemma InsertBelow(t: Tree, segs: seq<string>, q: seq<string>)
    requires CanInsert(t, segs) && |segs| > 1 && |q| > 1 && q[0] == segs[0]
    ensures CanInsert(Below(t, segs[0]), segs[1..])
    ensures NodeAt(Insert(t, segs), q) == NodeAt(Insert(Below(t, segs[0]), segs[1..]), q[1..])
    ensures NodeAt(t, q) == NodeAt(Below(t, segs[0]), q[1..])
    ensures NodeAt(t, segs) == NodeAt(Below(t, segs[0]), segs[1..])
  {
    PutLookup(t, segs[0], Dir(Insert(Below(t, segs[0]), segs[1..])), q[0]);
  }

  lemma PrefixCons(q: seq<string>, segs: seq<string>)
    requires |q| > 1 && |segs| > 1 && q[0] == segs[0]
    ensures ProperPrefix(q, segs) <==> ProperPrefix(q[1..], segs[1..])
    ensures q == segs <==> q[1..] == segs[1..]
  {
    assert q == [q[0]] + q[1..];
    assert segs == [segs[0]] + segs[1..];
    if |q| < |segs| {
      assert segs[..|q|] == [segs[0]] + segs[1..][..|q| - 1];
    }
  }

  /** With no file above it and no directory at its place, inserting a path
      adds exactly that file. */
  lemma {:induction false} InsertExactFiles(t: Tree, segs: seq<string>, q: seq<string>)
    requires segs != [] && CanInsert(t, segs) && !DirAt(t, segs)
    ensures FileAt(Insert(t, segs), q) <==> FileAt(t, q) || q == segs
    decreases segs
  {
    if q == [] {
    } else if q[0] != segs[0] {
      InsertElsewhere(t, segs, q);
    } else if |segs| == 1 {
      PutLookup(t, segs[0], File, q[0]);
      assert |q| == 1 ==> q == segs;
    } else if |q| == 1 {
      PutLookup(t, segs[0], Dir(Insert(Below(t, segs[0]), segs[1..])), q[0]);
      assert q != segs;
    } else {
      InsertBelow(t, segs, q);
      PrefixCons(q, segs);
      InsertExactFiles(Below(t, segs[0]), segs[1..], q[1..]);
    }
  }

  /** With no file above it and no directory at its place, inserting a path
      adds exactly its proper prefixes as directories. */
  lemma {:induction false} InsertExactDirs(t: Tree, segs: seq<string>, q: seq<string>)
    requires segs != [] && CanInsert(t, segs) && !DirAt(t, segs)
    ensures DirAt(Insert(t, segs), q) <==> DirAt(t, q) || ProperPrefix(q, segs)
    decreases segs
  {
    if q == [] {
    } else if q[0] != segs[0] {
      InsertElsewhere(t, segs, q);
      if |q| < |segs| {
        assert segs[..|q|][0] == segs[0];
      }
    } else if |segs| == 1 {
      PutLookup(t, segs[0], File, q[0]);
    } else if |q| == 1 {
      PutLookup(t, segs[0], Dir(Insert(Below(t, segs[0]), segs[1..])), q[0]);
      assert segs[..1] == [segs[0]];
      assert ProperPrefix(q, segs);
    } else {
      InsertBelow(t, segs, q);
      PrefixCons(q, segs);
      InsertExactDirs(Below(t, segs[0]), segs[1..], q[1..]);
    }
  }

  // ---------------------------------------------------------------------------
  // The whole build

  /** No path is a proper prefix of a later one, so the cursor walk never
      reaches a file marker. */
  predicate NoFileAbove(paths: seq<seq<string>>)
  {
    forall i, j :: 0 <= i < j < |paths| ==> !ProperPrefix(paths[i], paths[j])
  }

  /** No path is a proper prefix of any other, earlier or later: files and
      directories never share a name. */
  predicate CollisionFree(paths: seq<seq<string>>)
  {
    forall i, j :: 0 <= i < |paths| && 0 <= j < |paths| ==> !ProperPrefix(paths[i], paths[j])
  }

  /** The tree after inserting `paths` in order into an empty tree. */
  function Build(paths: seq<seq<string>>): Tree
    requires NoFileAbove(paths)
    decreases |paths|, 1
  {
    if paths == [] then []
    else
      BuildCanInsert(paths);
      Insert(Build(paths[..|paths| - 1]), paths[|paths| - 1])
  }

  /** Under `NoFileAbove` every step of the build can insert its path. */
  lemma {:induction false} BuildCanInsert(paths: seq<seq<string>>)
    requires paths != [] && NoFileAbove(paths)
    ensures NoFileAbove(paths[..|paths| - 1])
    ensures CanInsert(Build(paths[..|paths| - 1]), paths[|paths| - 1])
    decreases |paths|, 0
  {
    var init := paths[..|paths| - 1];
    var last := paths[|paths| - 1];
    if !CanInsert(Build(init), last) {
      BlockedByFile(Build(init), last);
      var k :| 1 <= k < |last| && FileAt(Build(init), last[..k]);
      BuiltFilesAreGiven(init, last[..k]);
      assert false;
    }
  }

  /** A tree built from `Path.parts` segments is well formed. */
  lemma {:induction false} BuildWellFormed(paths: seq<seq<string>>)
    requires NoFileAbove(paths)
    requires forall i, k :: 0 <= i < |paths| && 0 <= k < |paths[i]| ==> paths[i][k] != ""
    ensures WellFormed(Build(paths))
  {
    if paths != [] {
      BuildCanInsert(paths);
      BuildWellFormed(paths[..|paths| - 1]);
      InsertWellFormed(Build(paths[..|paths| - 1]), paths[|paths| - 1]);
    }
  }

  /** Every file in a built tree comes from one of the paths. */
  lemma {:induction false} BuiltFilesAreGiven(paths: seq<seq<string>>, q: seq<string>)
    requires NoFileAbove(paths)
    requires FileAt(Build(paths), q)
    ensures exists i :: 0 <= i < |paths| && paths[i] == q
    decreases |paths|, 2
  {
    var init := paths[..|paths| - 1];
    var last := paths[|paths| - 1];
    BuildCanInsert(paths);
    InsertAddsOnlyItsFile(Build(init), last, q);
    if q != last {
      BuiltFilesAreGiven(init, q);
      var i :| 0 <= i < |init| && init[i] == q;
      assert paths[i] == q;
    }
  }

  lemma CollisionFreeInit(paths: seq<seq<string>>)
    requires paths != [] && CollisionFree(paths)
    ensures CollisionFree(paths[..|paths| - 1]) && NoFileAbove(paths)
  {
  }

  /** The last path of a collision-free list names no directory built from
      the paths before it. */
  lemma LastIsNoDir(paths: seq<seq<string>>)
    requires paths != [] && CollisionFree(paths)
    ensures NoFileAbove(paths[..|paths| - 1])
    ensures !DirAt(Build(paths[..|paths| - 1]), paths[|paths| - 1])
    decreases |paths|, 0
  {
    var init := paths[..|paths| - 1];
    var last := paths[|paths| - 1];
    CollisionFreeInit(paths);
    forall i | 0 <= i < |init|
      ensures !ProperPrefix(last, init[i])
    {
      assert !ProperPrefix(paths[|paths| - 1], paths[i]);
    }
    BuildDirs(init, last);
  }

  /** For collision-free paths the built tree holds a file at exactly the
      given non-empty paths. */
  lemma {:induction false} BuildFiles(paths: seq<seq<string>>, q: seq<string>)
    requires CollisionFree(paths)
    ensures NoFileAbove(paths)
    ensures FileAt(Build(paths), q) <==> q != [] && q in paths
    decreases |paths|, 2
  {
    if paths != [] {
      var init := paths[..|paths| - 1];
      var last := paths[|paths| - 1];
      CollisionFreeInit(paths);
      BuildFiles(init, q);
      assert paths == init + [last];
      if last != [] {
        LastIsNoDir(paths);
        BuildCanInsert(paths);
        InsertExactFiles(Build(init), last, q);
      }
    }
  }

  /** For collision-free paths the built tree holds a directory at exactly the
      proper prefixes of the given paths. */
  lemma {:induction false} BuildDirs(paths: seq<seq<string>>, q: seq<string>)
    requires NoFileAbove(paths) && CollisionFree(paths)
    ensures DirAt(Build(paths), q) <==> exists i :: 0 <= i < |paths| && ProperPrefix(q, paths[i])
    decreases |paths|, 1
  {
    if paths != [] {
      var init := paths[..|paths| - 1];
      var last := paths[|paths| - 1];
      CollisionFreeInit(paths);
      BuildDirs(init, q);
      assert paths == init + [last];
      if last != [] {
        LastIsNoDir(paths);
        BuildCanInsert(paths);
        InsertExactDirs(Build(init), last, q);
      }
      if exists i :: 0 <= i < |paths| && ProperPrefix(q, paths[i]) {
        var i :| 0 <= i < |paths| && ProperPrefix(q, paths[i]);
        if i < |init| {
          assert ProperPrefix(q, init[i]);
        }
      }
    }
  }

  // ---------------------------------------------------------------------------
  // The loop of build_folder_structure

  /** `Path(doc.path).parts` for every document, in order. */
  function PathsOf(documents: seq<Document>): (ps: seq<seq<string>>)
    ensures |ps| == |documents|
    ensures forall i :: 0 <= i < |documents| ==> ps[i] == Segments(documents[i].path)
  {
    seq(|documents|, i requires 0 <= i < |documents| => Segments(documents[i].path))
  }

  method BuildFolderStructure(documents: seq<Document>) returns (tree: Tree)
    requires NoFileAbove(PathsOf(documents))
    ensures tree == Build(PathsOf(documents))
  {
    var paths := PathsOf(documents);
    tree := [];
    var i := 0;
    while i < |documents|
      invariant 0 <= i <= |documents|
      invariant NoFileAbove(paths[..i])
      invariant tree == Build(paths[..i])
    {
      var parts := Segments(documents[i].path);
      BuildStep(paths, i);
      tree := Insert(tree, parts);
      i := i + 1;
    }
    assert paths[..|documents|] == paths;
  }

  /** Building the first `i + 1` paths inserts path `i` into the tree of the
      first `i`. */
  lemma BuildStep(paths: seq<seq<string>>, i: nat)
    requires NoFileAbove(paths) && i < |paths|
    ensures NoFileAbove(paths[..i + 1])
    ensures NoFileAbove(paths[..i]) && CanInsert(Build(paths[..i]), paths[i])
    ensures Build(paths[..i + 1]) == Insert(Build(paths[..i]), paths[i])
  {
    var front := paths[..i + 1];
    assert front[..i] == paths[..i] && front[i] == paths[i];
    BuildCanInsert(front);
  }
}
