/** The folder tree built from the documents, read back through its
    `tree_to_list` records, gives back exactly the documents' paths as files
    and exactly their leading parts as directories. */
module StructureRoundTrip {
  import opened Wrappers
  import opened Text
  import opened Values
  import opened Records
  import opened FolderTree
  import opened TreeViews

  /** A relative path with no empty, `.` or doubled-slash parts: joining its
      parts with `/` gives it back. */
  predicate NormalPath(p: string)
  {
    p != "" && Join(Segments(p), "/") == p
  }

  /** Any non-empty run of plain names, joined with `/`, is a normal path. */
  lemma NormalPathOfNames(xs: seq<string>)
    requires xs != [] && forall k :: 0 <= k < |xs| ==> ValidSegment(xs[k])
    ensures NormalPath(Join(xs, "/"))
  {
    SegmentsOfJoin(xs);
    if |xs| > 1 {
      assert |Join(xs, "/")| >= |xs[0]| + 1;
    }
  }

  lemma {:induction false} PathJoinBelow(base: string, q: seq<string>)
    requires base != "" && q != []
    requires forall k :: 0 <= k < |q| ==> q[k] != ""
    ensures PathJoin(base, q) == base + "/" + Join(q, "/")
    decreases q
  {
    if |q| > 1 {
      PathJoinBelow(base + "/" + q[0], q[1..]);
    }
  }

  /** Joining below the top of the tree is joining with `/`. */
  lemma PathJoinTop(q: seq<string>)
    requires q != []
    requires forall k :: 0 <= k < |q| ==> q[k] != ""
    ensures PathJoin("", q) == Join(q, "/")
  {
    if |q| > 1 {
      PathJoinBelow(q[0], q[1..]);
    }
  }

  /** The records of the built structure list a file at `p` exactly when `p`
      is the path of one of the documents. */
  lemma ListedFilesAreDocuments(documents: seq<Document>, p: string)
    requires forall i :: 0 <= i < |documents| ==> NormalPath(documents[i].path)
    requires CollisionFree(PathsOf(documents))
    ensures NoFileAbove(PathsOf(documents))
    ensures (p, "file") in Listed(Arr(TreeToList(Build(PathsOf(documents)), ""))) <==>
      exists i :: 0 <= i < |documents| && documents[i].path == p
  {
    var paths := PathsOf(documents);
    CollisionFreeInitAll(paths);
    if (p, "file") in Listed(Arr(TreeToList(Build(paths), ""))) {
      ListedFileIsDocument(documents, p);
    }
    if exists i :: 0 <= i < |documents| && documents[i].path == p {
      var i :| 0 <= i < |documents| && documents[i].path == p;
      DocumentIsListedFile(documents, i);
    }
  }

  lemma ListedFileIsDocument(documents: seq<Document>, p: string)
    requires forall i :: 0 <= i < |documents| ==> NormalPath(documents[i].path)
    requires CollisionFree(PathsOf(documents)) && NoFileAbove(PathsOf(documents))
    requires (p, "file") in Listed(Arr(TreeToList(Build(PathsOf(documents)), "")))
    ensures exists i :: 0 <= i < |documents| && documents[i].path == p
  {
    var paths := PathsOf(documents);
    var q := ListedNode(paths, p, "file");
    BuildFiles(paths, q);
    var i :| 0 <= i < |paths| && paths[i] == q;
    PathJoinTop(q);
    assert documents[i].path == p;
  }

  lemma DocumentIsListedFile(documents: seq<Document>, i: nat)
    requires forall i :: 0 <= i < |documents| ==> NormalPath(documents[i].path)
    requires CollisionFree(PathsOf(documents)) && NoFileAbove(PathsOf(documents))
    requires i < |documents|
    ensures (documents[i].path, "file") in Listed(Arr(TreeToList(Build(PathsOf(documents)), "")))
  {
    var paths := PathsOf(documents);
    var t := Build(paths);
    BuildWellFormed(paths);
    var q := paths[i];
    assert q != [];
    BuildFiles(paths, q);
    ReachableIsListed(t, "", q);
    PathJoinTop(q);
  }

  /** `p` is the path of a directory above some document: the first `k`
      parts of its path, joined with `/`. */
  predicate LeadingPart(documents: seq<Document>, p: string)
  {
    exists i, k :: 0 <= i < |documents| && 0 < k < |Segments(documents[i].path)| && p == Join(Segments(documents[i].path)[..k], "/")
  }

  lemma ListedDirIsLeadingPart(documents: seq<Document>, p: string)
    requires CollisionFree(PathsOf(documents))
    requires NoFileAbove(PathsOf(documents))
    requires (p, "directory") in Listed(Arr(TreeToList(Build(PathsOf(documents)), "")))
    ensures LeadingPart(documents, p)
  {
    var paths := PathsOf(documents);
    var q := ListedNode(paths, p, "directory");
    BuildDirs(paths, q);
    var i :| 0 <= i < |paths| && ProperPrefix(q, paths[i]);
    PrefixIsLeadingPart(documents, q, i);
  }

  /** A listed entry is the node at some path of segments below the root. */
  lemma ListedNode(paths: seq<seq<string>>, p: string, ty: string) returns (q: seq<string>)
    requires NoFileAbove(paths)
    requires forall i, k :: 0 <= i < |paths| && 0 <= k < |paths[i]| ==> paths[i][k] != ""
    requires (p, ty) in Listed(Arr(TreeToList(Build(paths), "")))
    ensures NodeAt(Build(paths), q).Some? && KindName(NodeAt(Build(paths), q).value) == ty
    ensures PathJoin("", q) == p
  {
    BuildWellFormed(paths);
    ListedIsReachable(Build(paths), "", p, ty);
    q :| NodeAt(Build(paths), q).Some? && KindName(NodeAt(Build(paths), q).value) == ty && PathJoin("", q) == p;
  }

  lemma PrefixIsLeadingPart(documents: seq<Document>, q: seq<string>, i: nat)
    requires i < |documents| && ProperPrefix(q, Segments(documents[i].path))
    ensures LeadingPart(documents, PathJoin("", q))
  {
    var segs := Segments(documents[i].path);
    assert forall k :: 0 <= k < |q| ==> q[k] == segs[k];
    PathJoinTop(q);
    assert segs[..|q|] == q;
  }

  lemma PrefixIsListedDir(documents: seq<Document>, i: nat, k: nat)
    requires CollisionFree(PathsOf(documents))
    requires NoFileAbove(PathsOf(documents))
    requires i < |documents| && 0 < k < |PathsOf(documents)[i]|
    ensures (Join(PathsOf(documents)[i][..k], "/"), "directory") in Listed(Arr(TreeToList(Build(PathsOf(documents)), "")))
  {
    PrefixListed(PathsOf(documents), i, k);
  }

  lemma PrefixListed(paths: seq<seq<string>>, i: nat, k: nat)
    requires NoFileAbove(paths) && CollisionFree(paths)
    requires forall i, k :: 0 <= i < |paths| && 0 <= k < |paths[i]| ==> paths[i][k] != ""
    requires i < |paths| && 0 < k < |paths[i]|
    ensures (Join(paths[i][..k], "/"), "directory") in Listed(Arr(TreeToList(Build(paths), "")))
  {
    var q := paths[i][..k];
    assert forall j :: 0 <= j < |q| ==> q[j] == paths[i][j];
    PrefixIsDir(paths, i, q);
    NodeIsListed(paths, q);
    PathJoinTop(q);
  }

  lemma PrefixIsDir(paths: seq<seq<string>>, i: nat, q: seq<string>)
    requires NoFileAbove(paths) && CollisionFree(paths)
    requires i < |paths| && ProperPrefix(q, paths[i])
    ensures NodeAt(Build(paths), q).Some? && KindName(NodeAt(Build(paths), q).value) == "directory"
  {
    BuildDirs(paths, q);
  }

  /** Every node of the built tree is listed under its joined path. */
  lemma NodeIsListed(paths: seq<seq<string>>, q: seq<string>)
    requires NoFileAbove(paths)
    requires forall i, k :: 0 <= i < |paths| && 0 <= k < |paths[i]| ==> paths[i][k] != ""
    requires NodeAt(Build(paths), q).Some?
    ensures (PathJoin("", q), KindName(NodeAt(Build(paths), q).value)) in Listed(Arr(TreeToList(Build(paths), "")))
  {
    BuildWellFormed(paths);
    ReachableIsListed(Build(paths), "", q);
  }

  lemma LeadingPartIsListedDir(documents: seq<Document>, p: string)
    requires CollisionFree(PathsOf(documents))
    requires NoFileAbove(PathsOf(documents))
    requires LeadingPart(documents, p)
    ensures (p, "directory") in Listed(Arr(TreeToList(Build(PathsOf(documents)), "")))
  {
    var i, k :| 0 <= i < |documents| && 0 < k < |Segments(documents[i].path)| && p == Join(Segments(documents[i].path)[..k], "/");
    PrefixIsListedDir(documents, i, k);
  }

  /** The records of the built structure list a directory at `p` exactly
      when `p` is a proper leading part of some document's path. */
  lemma ListedDirsArePrefixes(documents: seq<Document>, p: string)
    requires CollisionFree(PathsOf(documents))
    ensures NoFileAbove(PathsOf(documents))
    ensures (p, "directory") in Listed(Arr(TreeToList(Build(PathsOf(documents)), ""))) <==> LeadingPart(documents, p)
  {
    CollisionFreeInitAll(PathsOf(documents));
    if (p, "directory") in Listed(Arr(TreeToList(Build(PathsOf(documents)), ""))) {
      ListedDirIsLeadingPart(documents, p);
    }
    if LeadingPart(documents, p) {
      LeadingPartIsListedDir(documents, p);
    }
  }

  lemma CollisionFreeInitAll(paths: seq<seq<string>>)
    requires CollisionFree(paths)
    ensures NoFileAbove(paths)
  {
  }
}
