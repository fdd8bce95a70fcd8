/** The dictionary the JSON and TOON writers assemble (src/writers.py:173-266
    and :493-593, which build it with the same code): repository line,
    folder structure, one record per file with its language's metadata, and
    the git history when the repository has one. */
module Report {
  import opened Wrappers
  import opened Text
  import opened Values
  import opened Records
  import opened FolderTree
  import opened TreeViews

  // ---------------------------------------------------------------------------
  // Per-file metadata

  /** `doc.meta.get(key, default)` */
  function MetaGet(doc: Document, key: string, default: Value): (r: Value)
    ensures key in doc.meta ==> r == doc.meta[key]
    ensures key !in doc.meta ==> r == default
  {
    if key in doc.meta then doc.meta[key] else default
  }

  /** `file_info["metadata"]`, filled by the language chain: Python functions
      then classes, Markdown headers, a licence header, the five Dockerfile
      settings; any other language gets an empty mapping. */
  function Metadata(doc: Document): seq<(string, Value)>
  {
    if doc.language == "python" then
      [("functions", MetaGet(doc, "functions", Arr([]))), ("classes", MetaGet(doc, "classes", Arr([])))]
    else if doc.language == "markdown" then
      [("headers", MetaGet(doc, "headers", Arr([])))]
    else if doc.language == "license" then
      [("header", MetaGet(doc, "header", Str("")))]
    else if doc.language == "dockerfile" then
      [ ("image", MetaGet(doc, "image", Str(""))), ("workdir", MetaGet(doc, "workdir", Str(""))),
        ("entrypoint", MetaGet(doc, "entrypoint", Str(""))), ("cmd", MetaGet(doc, "cmd", Str(""))),
        ("env", MetaGet(doc, "env", Str(""))) ]
    else []
  }

  /** A second, tabular formulation of the same language chain: the metadata
      keys each language reports, in output order, with the value used when
      the scanner did not record the key. Lists default to `[]`, everything
      else (the Dockerfile `env` mapping included) to `""`.
      `MetadataFollowsTable` shows that the two formulations agree. */
  function MetadataTable(language: string): seq<(string, Value)>
  {
    match language
    case "python" => [("functions", Arr([])), ("classes", Arr([]))]
    case "markdown" => [("headers", Arr([]))]
    case "license" => [("header", Str(""))]
    case "dockerfile" => [("image", Str("")), ("workdir", Str("")), ("entrypoint", Str("")), ("cmd", Str("")), ("env", Str(""))]
    case _ => []
  }

  /** The metadata record holds exactly the keys of the document's language,
      in the table's order, each with the scanned value or else the default. */
  lemma MetadataFollowsTable(doc: Document)
    ensures var table := MetadataTable(doc.language);
      && |Metadata(doc)| == |table|
      && forall k :: 0 <= k < |table| ==>
           Metadata(doc)[k] == (table[k].0, MetaGet(doc, table[k].0, table[k].1))
  {
  }

  /** A language outside the four the scanners describe gets `{}`. */
  lemma OtherLanguagesHaveNoMetadata(doc: Document)
    requires doc.language !in {"python", "markdown", "license", "dockerfile"}
    ensures Metadata(doc) == []
  {
  }

  /** `file_info` with a given metadata mapping. */
  function FileRecord(doc: Document, metadata: seq<(string, Value)>): Value
  {
    Obj([
      ("path", Str(doc.path)),
      ("language", Str(doc.language)),
      ("size_bytes", Int(doc.sizeBytes)),
      ("lines", Int(doc.lines)),
      ("metadata", Obj(metadata))])
  }

  /** `file_info` */
  function FileInfo(doc: Document): Value
  {
    FileRecord(doc, Metadata(doc))
  }

  function FileInfos(documents: seq<Document>): (r: seq<Value>)
    ensures |r| == |documents|
    ensures forall i :: 0 <= i < |documents| ==> r[i] == FileInfo(documents[i])
  {
    seq(|documents|, i requires 0 <= i < |documents| => FileInfo(documents[i]))
  }

  // ---------------------------------------------------------------------------
  // Git history

  function BranchRecord(b: Branch): Value
  {
    Obj([
      ("name", Str(b.name)),
      ("is_current", Bool(b.isCurrent)),
      ("last_commit", Str(b.lastCommit)),
      ("last_commit_date", Str(b.lastCommitDate.iso))])
  }

  function CommitRecord(c: Commit): Value
  {
    Obj([
      ("hash", Str(c.hash)),
      ("author", Str(c.author)),
      ("email", Str(c.email)),
      ("date", Str(c.date.iso)),
      ("message", Str(c.message)),
      ("files_changed", Int(c.filesChanged)),
      ("insertions", Int(c.insertions)),
      ("deletions", Int(c.deletions))])
  }

  function ContributorRecord(c: Contributor): Value
  {
    Obj([
      ("name", Str(c.name)),
      ("email", Str(c.email)),
      ("commits", Int(c.commits)),
      ("insertions", Int(c.insertions)),
      ("deletions", Int(c.deletions))])
  }

  /** `git_data`: the analyzer's summary, the first ten branches, every
      commit the analyzer returned and the first ten contributors. */
  function GitHistory(g: GitData): Value
  {
    var branches := Capped(g.branches);
    var contributors := Capped(g.contributors);
    Obj([
      ("summary", Obj(g.summary)),
      ("branches", Arr(seq(|branches|, k requires 0 <= k < |branches| => BranchRecord(branches[k])))),
      ("recent_commits", Arr(seq(|g.commits|, k requires 0 <= k < |g.commits| => CommitRecord(g.commits[k])))),
      ("contributors", Arr(seq(|contributors|, k requires 0 <= k < |contributors| => ContributorRecord(contributors[k]))))])
  }

  /** The `git_data` loops: a branch record per branch up to the cap, a
      commit record per commit, a contributor record per contributor up to
      the cap, each list in the analyzer's order. */
  method GitHistoryRecord(g: GitData) returns (history: Value)
    ensures history == GitHistory(g)
  {
    var branches: seq<Value> := [];
    var capped := Capped(g.branches);
    for k := 0 to |capped|
      invariant branches == seq(k, j requires 0 <= j < k => BranchRecord(capped[j]))
    {
      branches := branches + [BranchRecord(capped[k])];
    }
    var commits: seq<Value> := [];
    for k := 0 to |g.commits|
      invariant commits == seq(k, j requires 0 <= j < k => CommitRecord(g.commits[j]))
    {
      commits := commits + [CommitRecord(g.commits[k])];
    }
    var contributors: seq<Value> := [];
    var top := Capped(g.contributors);
    for k := 0 to |top|
      invariant contributors == seq(k, j requires 0 <= j < k => ContributorRecord(top[j]))
    {
      contributors := contributors + [ContributorRecord(top[k])];
    }
    assert branches == seq(|capped|, k requires 0 <= k < |capped| => BranchRecord(capped[k]));
    assert commits == seq(|g.commits|, k requires 0 <= k < |g.commits| => CommitRecord(g.commits[k]));
    assert contributors == seq(|top|, k requires 0 <= k < |top| => ContributorRecord(top[k]));
    history := Obj([
      ("summary", Obj(g.summary)),
      ("branches", Arr(branches)),
      ("recent_commits", Arr(commits)),
      ("contributors", Arr(contributors))]);
  }

  /** At most ten branches and ten contributors are reported, the first ones
      the analyzer gave, while every returned commit is kept; with no
      branches the `branches` list is present and empty. */
  lemma GitHistoryCaps(g: GitData)
    ensures var fs := GitHistory(g).fields;
      && Keys(fs) == ["summary", "branches", "recent_commits", "contributors"]
      && |fs[1].1.items| == (if |g.branches| <= 10 then |g.branches| else 10)
      && (forall k :: 0 <= k < |fs[1].1.items| ==> fs[1].1.items[k] == BranchRecord(g.branches[k]))
      && |fs[2].1.items| == |g.commits|
      && (forall k :: 0 <= k < |g.commits| ==> fs[2].1.items[k] == CommitRecord(g.commits[k]))
      && |fs[3].1.items| == (if |g.contributors| <= 10 then |g.contributors| else 10)
      && (forall k :: 0 <= k < |fs[3].1.items| ==> fs[3].1.items[k] == ContributorRecord(g.contributors[k]))
      && (g.branches == [] ==> fs[1] == ("branches", Arr([])))
  {
    var fs := GitHistory(g).fields;
    assert Keys(fs) == ["summary", "branches", "recent_commits", "contributors"];
    forall k | 0 <= k < |fs[1].1.items|
      ensures fs[1].1.items[k] == BranchRecord(g.branches[k])
    {
      assert Capped(g.branches)[k] == g.branches[k];
    }
    forall k | 0 <= k < |fs[3].1.items|
      ensures fs[3].1.items[k] == ContributorRecord(g.contributors[k])
    {
      assert Capped(g.contributors)[k] == g.contributors[k];
    }
  }

  // ---------------------------------------------------------------------------
  // The whole output

  function RepoRecord(repo: RepoInfo, filesProcessed: nat): Value
  {
    Obj([
      ("name", Str(repo.name)),
      ("path", Str(repo.path)),
      ("generated_at", Str(repo.generatedAt)),
      ("files_processed", Int(filesProcessed))])
  }

  /** `output` as the writers leave it. `git` is `None` when there is no
      analyzer or the directory is not a git repository. */
  function Output(repo: RepoInfo, documents: seq<Document>, git: Option<GitData>): Value
    requires NoFileAbove(PathsOf(documents))
  {
    Obj([
      ("repo", RepoRecord(repo, |documents|)),
      ("structure", Arr(TreeToList(Build(PathsOf(documents)), ""))),
      ("files", Arr(FileInfos(documents)))]
      + if git.Some? then [("git_history", GitHistory(git.value))] else [])
  }

  /** The file loop: one record per document, appended in order. */
  method FileInfoLoop(documents: seq<Document>) returns (files: seq<Value>)
    ensures files == FileInfos(documents)
  {
    files := [];
    for i := 0 to |documents|
      invariant |files| == i
      invariant forall k :: 0 <= k < i ==> files[k] == FileInfo(documents[k])
    {
      files := files + [FileInfo(documents[i])];
    }
  }

  /** The writers' assembly: the three initial keys, `git_history` added
      next, then the file records put into the existing `files` list, which
      keeps its place before `git_history`. */
  method AssembleOutput(repo: RepoInfo, documents: seq<Document>, git: Option<GitData>) returns (output: Value)
    requires NoFileAbove(PathsOf(documents))
    ensures output == Output(repo, documents, git)
  {
    var tree := BuildFolderStructure(documents);
    var structure := TreeToList(tree, "");
    var history: seq<(string, Value)> := [];
    if git.Some? {
      var h := GitHistoryRecord(git.value);
      history := [("git_history", h)];
    }
    var repoField, structureField := ("repo", RepoRecord(repo, |documents|)), ("structure", Arr(structure));
    var fields := [repoField, structureField, ("files", Arr([]))] + history;
    var files := FileInfoLoop(documents);
    ReplaceThird(repoField, structureField, ("files", Arr([])), ("files", Arr(files)), history);
    fields := fields[2 := ("files", Arr(files))];
    output := Obj(fields);
  }

  lemma ReplaceThird<T>(a: T, b: T, c: T, c': T, rest: seq<T>)
    ensures ([a, b, c] + rest)[2 := c'] == [a, b, c'] + rest
  {
  }

  /** The output's keys are `repo`, `structure`, `files` and, for a git
      repository only, `git_history` last, although it is added before the
      files are. */
  lemma OutputKeyOrder(repo: RepoInfo, documents: seq<Document>, git: Option<GitData>)
    requires NoFileAbove(PathsOf(documents))
    ensures Keys(Output(repo, documents, git).fields) ==
      ["repo", "structure", "files"] + if git.Some? then ["git_history"] else []
  {
    var r, st, f := RepoRecord(repo, |documents|), Arr(TreeToList(Build(PathsOf(documents)), "")), Arr(FileInfos(documents));
    var rest := HistoryField(git);
    assert Output(repo, documents, git).fields == [("repo", r), ("structure", st), ("files", f)] + rest;
    KeysOfLeading(r, st, f, rest);
  }

  /** The optional trailing `git_history` field and its key. */
  lemma HistoryField(git: Option<GitData>) returns (rest: seq<(string, Value)>)
    ensures rest == if git.Some? then [("git_history", GitHistory(git.value))] else []
    ensures Keys(rest) == if git.Some? then ["git_history"] else []
  {
    rest := if git.Some? then [("git_history", GitHistory(git.value))] else [];
  }

  lemma KeysOfLeading(r: Value, st: Value, f: Value, rest: seq<(string, Value)>)
    ensures Keys([("repo", r), ("structure", st), ("files", f)] + rest) == ["repo", "structure", "files"] + Keys(rest)
  {
  }

  lemma OutputFilesField(repo: RepoInfo, documents: seq<Document>, git: Option<GitData>)
    requires NoFileAbove(PathsOf(documents))
    ensures Output(repo, documents, git).Obj?
    ensures |Output(repo, documents, git).fields| >= 3
    ensures Output(repo, documents, git).fields[2] == ("files", Arr(FileInfos(documents)))
  {
  }

  lemma GetLeadingFields(r: Value, st: Value, f: Value, rest: seq<(string, Value)>)
    ensures var fs := [("repo", r), ("structure", st), ("files", f)] + rest;
      Get(fs, "repo") == Some(r) && Get(fs, "files") == Some(f)
  {
    var fs := [("repo", r), ("structure", st), ("files", f)] + rest;
    GetAt(fs, "repo", 0);
    GetAt(fs, "files", 2);
  }

  lemma FileInfoNames(doc: Document)
    ensures Get(FileInfo(doc).fields, "path") == Some(Str(doc.path))
    ensures Get(FileInfo(doc).fields, "language") == Some(Str(doc.language))
  {
    GetAt(FileInfo(doc).fields, "path", 0);
    GetAt(FileInfo(doc).fields, "language", 1);
  }

  lemma RepoCountsFiles(repo: RepoInfo, n: nat)
    ensures Get(RepoRecord(repo, n).fields, "files_processed") == Some(Int(n))
  {
    GetAt(RepoRecord(repo, n).fields, "files_processed", 3);
  }

  /** One file record per document, in the documents' order, each naming
      its document's path and language, and `files_processed` counts them. */
  lemma OutputListsEveryFile(repo: RepoInfo, documents: seq<Document>, git: Option<GitData>)
    requires NoFileAbove(PathsOf(documents))
    ensures var fs := Output(repo, documents, git).fields;
      && Get(fs, "files") == Some(Arr(FileInfos(documents)))
      && (forall i :: 0 <= i < |documents| ==>
            Get(FileInfos(documents)[i].fields, "path") == Some(Str(documents[i].path))
            && Get(FileInfos(documents)[i].fields, "language") == Some(Str(documents[i].language)))
      && Get(fs, "repo") == Some(RepoRecord(repo, |documents|))
      && Get(RepoRecord(repo, |documents|).fields, "files_processed") == Some(Int(|documents|))
  {
    var st := Arr(TreeToList(Build(PathsOf(documents)), ""));
    var rest := if git.Some? then [("git_history", GitHistory(git.value))] else [];
    GetLeadingFields(RepoRecord(repo, |documents|), st, Arr(FileInfos(documents)), rest);
    RepoCountsFiles(repo, |documents|);
    forall i | 0 <= i < |documents|
      ensures Get(FileInfos(documents)[i].fields, "path") == Some(Str(documents[i].path))
      ensures Get(FileInfos(documents)[i].fields, "language") == Some(Str(documents[i].language))
    {
      FileInfoNames(documents[i]);
    }
  }
}
