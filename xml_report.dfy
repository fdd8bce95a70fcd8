/** The element tree `XMLWriter.write` builds (src/writers.py:287-402)
    before it is pretty-printed, or `None` where the writer raises because a
    truthy metadata value cannot be looped over. */
module XmlReport {
  import opened Wrappers
  import opened Text
  import opened Values
  import opened Records
  import opened FolderTree
  import opened TreeViews
  import opened XmlTree

  // ---------------------------------------------------------------------------
  // Repository information and git history

  function InfoElement(repo: RepoInfo, filesProcessed: nat): Element
  {
    Element("info", [], None, [
      TextElement("name", Str(repo.name)),
      TextElement("path", Str(repo.path)),
      TextElement("generated_at", Str(repo.generatedAt)),
      TextElement("files_processed", Str(NatToString(filesProcessed)))])
  }

  /** A date element, added only when `summary.get(key)` is truthy. */
  function DateElement(summary: seq<(string, Value)>, key: string): seq<Element>
  {
    var v := Get(summary, key);
    if v.Some? && Truthy(v.value) then [TextElement(key, v.value)] else []
  }

  /** The current branch is stored as given (`"N/A"` when missing), the two
      counts as their `str()`. */
  function SummaryElement(summary: seq<(string, Value)>): Element
  {
    Element("summary", [], None,
      [ TextElement("current_branch", Get(summary, "current_branch").GetOr(Str("N/A"))),
        TextElement("total_commits", Str(PyStr(Get(summary, "total_commits").GetOr(Int(0))))),
        TextElement("total_contributors", Str(PyStr(Get(summary, "total_contributors").GetOr(Int(0))))) ]
      + DateElement(summary, "first_commit_date")
      + DateElement(summary, "last_commit_date"))
  }

  /** `str(branch.is_current).lower()` */
  function CurrentFlag(isCurrent: bool): string
  {
    if isCurrent then "true" else "false"
  }

  function BranchElement(b: Branch): Element
  {
    Element("branch", [("current", CurrentFlag(b.isCurrent))], None, [
      TextElement("name", Str(b.name)),
      TextElement("last_commit", Str(b.lastCommit)),
      TextElement("last_commit_date", Str(b.lastCommitDate.iso))])
  }

  function CommitElement(c: Commit): Element
  {
    Element("commit", [], None, [
      TextElement("hash", Str(c.hash)),
      TextElement("author", Str(c.author)),
      TextElement("email", Str(c.email)),
      TextElement("date", Str(c.date.iso)),
      TextElement("message", Str(c.message)),
      TextElement("files_changed", Str(IntToString(c.filesChanged))),
      TextElement("insertions", Str(IntToString(c.insertions))),
      TextElement("deletions", Str(IntToString(c.deletions)))])
  }

  function ContributorElement(c: Contributor): Element
  {
    Element("contributor", [], None, [
      TextElement("name", Str(c.name)),
      TextElement("email", Str(c.email)),
      TextElement("commits", Str(IntToString(c.commits))),
      TextElement("insertions", Str(IntToString(c.insertions))),
      TextElement("deletions", Str(IntToString(c.deletions)))])
  }

  /** Each list element is added only when its list is not empty. */
  function BranchesElements(bs: seq<Branch>): seq<Element>
  {
    var capped := Capped(bs);
    if bs == [] then []
    else [Element("branches", [], None, seq(|capped|, k requires 0 <= k < |capped| => BranchElement(capped[k])))]
  }

  function CommitsElements(cs: seq<Commit>): seq<Element>
  {
    if cs == [] then []
    else [Element("recent_commits", [], None, seq(|cs|, k requires 0 <= k < |cs| => CommitElement(cs[k])))]
  }

  function ContributorsElements(cs: seq<Contributor>): seq<Element>
  {
    var top := Capped(cs);
    if cs == [] then []
    else [Element("contributors", [], None, seq(|top|, k requires 0 <= k < |top| => ContributorElement(top[k])))]
  }

  function GitElement(g: GitData): Element
  {
    Element("git_history", [], None,
      [SummaryElement(g.summary)]
      + BranchesElements(g.branches) + CommitsElements(g.commits) + ContributorsElements(g.contributors))
  }

  method BranchesChild(bs: seq<Branch>) returns (els: seq<Element>)
    ensures els == BranchesElements(bs)
  {
    els := [];
    if bs != [] {
      var list := Empty("branches");
      var capped := Capped(bs);
      for k := 0 to |capped|
        invariant list == Element("branches", [], None, seq(k, j requires 0 <= j < k => BranchElement(capped[j])))
      {
        list := Append(list, BranchElement(capped[k]));
      }
      els := [list];
    }
  }

  method CommitsChild(cs: seq<Commit>) returns (els: seq<Element>)
    ensures els == CommitsElements(cs)
  {
    els := [];
    if cs != [] {
      var list := Empty("recent_commits");
      for k := 0 to |cs|
        invariant list == Element("recent_commits", [], None, seq(k, j requires 0 <= j < k => CommitElement(cs[j])))
      {
        list := Append(list, CommitElement(cs[k]));
      }
      els := [list];
    }
  }

  method ContributorsChild(cs: seq<Contributor>) returns (els: seq<Element>)
    ensures els == ContributorsElements(cs)
  {
    els := [];
    if cs != [] {
      var list := Empty("contributors");
      var top := Capped(cs);
      for k := 0 to |top|
        invariant list == Element("contributors", [], None, seq(k, j requires 0 <= j < k => ContributorElement(top[j])))
      {
        list := Append(list, ContributorElement(top[k]));
      }
      els := [list];
    }
  }

  /** The `git_history` element, its parts added in the writer's order. */
  method GitHistoryElement(g: GitData) returns (git: Element)
    ensures git == GitElement(g)
  {
    git := Append(Empty("git_history"), SummaryElement(g.summary));
    var branches := BranchesChild(g.branches);
    git := git.(children := git.children + branches);
    var commits := CommitsChild(g.commits);
    git := git.(children := git.children + commits);
    var contributors := ContributorsChild(g.contributors);
    git := git.(children := git.children + contributors);
  }

  // ---------------------------------------------------------------------------
  // Per-file metadata elements

  /** One `itemTag` element per item a loop over the value visits, its text
      the item itself. */
  function ListElement(key: string, itemTag: string, items: seq<Value>): Element
  {
    Element(key, [], None, seq(|items|, k requires 0 <= k < |items| => TextElement(itemTag, items[k])))
  }

  /** One `variable` element per environment entry, named by the key and
      holding the value. */
  function EnvElement(fields: seq<(string, Value)>): Element
  {
    Element("env", [], None, seq(|fields|, k requires 0 <= k < |fields| => Element("variable", [("name", fields[k].0)], Some(fields[k].1), [])))
  }

  function ListChild(doc: Document, key: string, itemTag: string): Option<seq<Element>>
  {
    if !Shown(doc, key) then Some([])
    else
      var items := Iterate(doc.meta[key]);
      if items.None? then None else Some([ListElement(key, itemTag, items.value)])
  }

  function TextChild(doc: Document, key: string): seq<Element>
  {
    if Shown(doc, key) then [TextElement(key, doc.meta[key])] else []
  }

  /** `None` where `env` has no `items()`. */
  function EnvChild(doc: Document): Option<seq<Element>>
  {
    if !Shown(doc, "env") then Some([])
    else
      match doc.meta["env"]
      case Obj(fields) => Some([EnvElement(fields)])
      case _ => None
  }

  /** The children of a file's `metadata` element, by language. */
  function MetaChildren(doc: Document): Option<seq<Element>>
  {
    if doc.language == "python" then
      Then(ListChild(doc, "functions", "function"), ListChild(doc, "classes", "class"))
    else if doc.language == "markdown" then
      ListChild(doc, "headers", "header")
    else if doc.language == "license" then
      Some(TextChild(doc, "header"))
    else if doc.language == "dockerfile" then
      Then(
        Some(TextChild(doc, "image") + TextChild(doc, "workdir") + TextChild(doc, "entrypoint") + TextChild(doc, "cmd")),
        EnvChild(doc))
    else Some([])
  }

  function MetadataElement(doc: Document): Option<Element>
  {
    var children := MetaChildren(doc);
    if children.None? then None else Some(Element("metadata", [], None, children.value))
  }

  /** The loop over a list value's items. */
  method ItemsElement(key: string, itemTag: string, items: seq<Value>) returns (el: Element)
    ensures el == ListElement(key, itemTag, items)
  {
    el := Empty(key);
    for k := 0 to |items|
      invariant el == Element(key, [], None, seq(k, j requires 0 <= j < k => TextElement(itemTag, items[j])))
    {
      el := Append(el, TextElement(itemTag, items[k]));
    }
  }

  /** The loop over the environment entries. */
  method EnvVariables(fields: seq<(string, Value)>) returns (el: Element)
    ensures el == EnvElement(fields)
  {
    el := Empty("env");
    for k := 0 to |fields|
      invariant el == Element("env", [], None, seq(k, j requires 0 <= j < k => Element("variable", [("name", fields[j].0)], Some(fields[j].1), [])))
    {
      el := Append(el, Element("variable", [("name", fields[k].0)], Some(fields[k].1), []));
    }
  }

  /** A list key's element, if the key is truthy. */
  method AddList(metadata: Element, doc: Document, key: string, itemTag: string) returns (r: Option<Element>)
    ensures var more := ListChild(doc, key, itemTag);
      r == if more.None? then None else Some(metadata.(children := metadata.children + more.value))
  {
    if !Shown(doc, key) {
      assert metadata.children + [] == metadata.children;
      return Some(metadata);
    }
    var items := Iterate(doc.meta[key]);
    if items.None? {
      return None;
    }
    var el := ItemsElement(key, itemTag, items.value);
    r := Some(Append(metadata, el));
  }

  /** A text key's element, if the key is truthy. */
  method AddText(metadata: Element, doc: Document, key: string) returns (r: Element)
    ensures r == metadata.(children := metadata.children + TextChild(doc, key))
  {
    r := metadata;
    if Shown(doc, key) {
      r := Append(r, TextElement(key, doc.meta[key]));
    } else {
      assert metadata.children + [] == metadata.children;
    }
  }

  method PythonMetadata(doc: Document) returns (r: Option<Element>)
    requires doc.language == "python"
    ensures r == MetadataElement(doc)
  {
    var functions := ListChild(doc, "functions", "function");
    r := AddList(Empty("metadata"), doc, "functions", "function");
    if r.Some? {
      assert [] + functions.value == functions.value;
      assert r.value == Element("metadata", [], None, functions.value);
      r := AddList(r.value, doc, "classes", "class");
    }
  }

  method DockerfileMetadata(doc: Document) returns (r: Option<Element>)
    requires doc.language == "dockerfile"
    ensures r == MetadataElement(doc)
  {
    var metadata := AddText(Empty("metadata"), doc, "image");
    metadata := AddText(metadata, doc, "workdir");
    metadata := AddText(metadata, doc, "entrypoint");
    metadata := AddText(metadata, doc, "cmd");
    var texts := TextChild(doc, "image") + TextChild(doc, "workdir") + TextChild(doc, "entrypoint") + TextChild(doc, "cmd");
    assert [] + TextChild(doc, "image") == TextChild(doc, "image");
    assert metadata == Element("metadata", [], None, texts);
    if !Shown(doc, "env") {
      assert metadata.children + [] == metadata.children;
      return Some(metadata);
    }
    match doc.meta["env"]
    case Obj(fields) =>
      var env := EnvVariables(fields);
      r := Some(Append(metadata, env));
    case _ =>
      r := None;
  }

  /** The language chain that fills a file's `metadata` element. */
  method MetadataOf(doc: Document) returns (r: Option<Element>)
    ensures r == MetadataElement(doc)
  {
    if doc.language == "python" {
      r := PythonMetadata(doc);
    } else if doc.language == "markdown" {
      r := AddList(Empty("metadata"), doc, "headers", "header");
      var headers := ListChild(doc, "headers", "header");
      if headers.Some? {
        assert [] + headers.value == headers.value;
      }
    } else if doc.language == "license" {
      var metadata := AddText(Empty("metadata"), doc, "header");
      assert [] + TextChild(doc, "header") == TextChild(doc, "header");
      r := Some(metadata);
    } else if doc.language == "dockerfile" {
      r := DockerfileMetadata(doc);
    } else {
      r := Some(Empty("metadata"));
    }
  }

  // ---------------------------------------------------------------------------
  // Metadata keys

  /** The keys each language's `metadata` element reports, in element order:
      for Python the functions come before the classes. With `KeysChildren`
      this is a second, key-by-key formulation of `MetaChildren`;
      `MetaChildrenFollowKeys` shows that the two agree. */
  function XmlMetaKeys(language: string): seq<string>
  {
    match language
    case "python" => ["functions", "classes"]
    case "markdown" => ["headers"]
    case "license" => ["header"]
    case "dockerfile" => ["image", "workdir", "entrypoint", "cmd", "env"]
    case _ => []
  }

  /** The tag of one item of a list key. */
  function ItemTag(key: string): string
  {
    match key
    case "functions" => "function"
    case "classes" => "class"
    case _ => "header"
  }

  /** A value the writer can loop over for a key: a list, string or dict for
      a list key, a dict for `env`, anything for a text key. */
  predicate Iterable(key: string, v: Value)
  {
    if IsListKey(key) then v.Arr? || v.Str? || v.Obj? else if key == "env" then v.Obj? else true
  }

  /** The element of one key, chosen by the kind of the key alone. */
  function KeyChild(doc: Document, key: string): Option<seq<Element>>
  {
    if IsListKey(key) then ListChild(doc, key, ItemTag(key))
    else if key == "env" then EnvChild(doc)
    else Some(TextChild(doc, key))
  }

  /** Reference reading of the metadata children: one key after another. It
      restates `MetaChildren` key by key, and `MetaChildrenFollowKeys` shows
      that the two agree. */
  function KeysChildren(doc: Document, keys: seq<string>): Option<seq<Element>>
  {
    if keys == [] then Some([]) else Then(KeyChild(doc, keys[0]), KeysChildren(doc, keys[1..]))
  }

  lemma KeysChildrenSingle(doc: Document, key: string)
    ensures KeysChildren(doc, [key]) == KeyChild(doc, key)
  {
    assert [key][1..] == [];
    var child := KeyChild(doc, key);
    if child.Some? {
      assert child.value + [] == child.value;
    }
  }

  lemma DockerfileChildren(doc: Document)
    requires doc.language == "dockerfile"
    ensures MetaChildren(doc) == KeysChildren(doc, ["image", "workdir", "entrypoint", "cmd", "env"])
  {
    var image := TextKeyChild(doc, "image");
    var workdir := TextKeyChild(doc, "workdir");
    var entrypoint := TextKeyChild(doc, "entrypoint");
    var cmd := TextKeyChild(doc, "cmd");
    var env := KeysChildren(doc, ["env"]);
    KeysChildrenSingle(doc, "env");
    KeysChildrenCons(doc, "cmd", ["env"]);
    KeysChildrenCons(doc, "entrypoint", ["cmd", "env"]);
    KeysChildrenCons(doc, "workdir", ["entrypoint", "cmd", "env"]);
    KeysChildrenCons(doc, "image", ["workdir", "entrypoint", "cmd", "env"]);
    assert KeysChildren(doc, ["image", "workdir", "entrypoint", "cmd", "env"])
      == Then(Some(image), Then(Some(workdir), Then(Some(entrypoint), Then(Some(cmd), env))));
    ThenLeading(image, workdir, entrypoint, cmd, env);
    EnvKeyChild(doc);
    DockerfileMetaChildren(doc);
  }

  lemma EnvKeyChild(doc: Document)
    ensures KeyChild(doc, "env") == EnvChild(doc)
  {
  }

  lemma DockerfileMetaChildren(doc: Document)
    requires doc.language == "dockerfile"
    ensures MetaChildren(doc) == Then(
      Some(TextChild(doc, "image") + TextChild(doc, "workdir") + TextChild(doc, "entrypoint") + TextChild(doc, "cmd")),
      EnvChild(doc))
  {
  }

  /** The element of a key whose text is the value itself. */
  lemma TextKeyChild(doc: Document, key: string) returns (child: seq<Element>)
    requires key in {"image", "workdir", "entrypoint", "cmd"}
    ensures child == TextChild(doc, key)
    ensures KeyChild(doc, key) == Some(child)
  {
    child := TextChild(doc, key);
  }

  lemma KeysChildrenCons(doc: Document, key: string, rest: seq<string>)
    ensures KeysChildren(doc, [key] + rest) == Then(KeyChild(doc, key), KeysChildren(doc, rest))
  {
    assert ([key] + rest)[1..] == rest;
  }

  /** The language chain adds the elements of its language's keys in table
      order. */
  lemma MetaChildrenFollowKeys(doc: Document)
    ensures MetaChildren(doc) == KeysChildren(doc, XmlMetaKeys(doc.language))
  {
    if doc.language == "dockerfile" {
      assert XmlMetaKeys(doc.language) == ["image", "workdir", "entrypoint", "cmd", "env"];
      DockerfileChildren(doc);
    } else if doc.language == "python" {
      KeysChildrenSingle(doc, "classes");
    } else if doc.language == "markdown" {
      KeysChildrenSingle(doc, "headers");
    } else if doc.language == "license" {
      KeysChildrenSingle(doc, "header");
    }
  }

  lemma KeyChildTags(doc: Document, key: string)
    requires KeyChild(doc, key).Some?
    ensures Tags(KeyChild(doc, key).value) == if Shown(doc, key) then [key] else []
  {
  }

  /** A `metadata` element holds one child per truthy key, tagged with the
      key, in table order. */
  lemma {:induction false} KeysChildrenTags(doc: Document, keys: seq<string>)
    requires KeysChildren(doc, keys).Some?
    ensures Tags(KeysChildren(doc, keys).value) == ShownKeys(doc, keys)
  {
    if keys != [] {
      KeyChildTags(doc, keys[0]);
      KeysChildrenTags(doc, keys[1..]);
      var head := KeyChild(doc, keys[0]).value;
      var rest := KeysChildren(doc, keys[1..]).value;
      assert KeysChildren(doc, keys).value == head + rest;
      assert Tags(head + rest) == Tags(head) + Tags(rest);
    }
  }

  lemma KeyChildSomeIff(doc: Document, key: string)
    ensures KeyChild(doc, key).Some? <==> (Shown(doc, key) ==> Iterable(key, doc.meta[key]))
  {
  }

  /** The writer raises exactly when a truthy key holds a value it cannot
      loop over. */
  lemma {:induction false} KeysChildrenSomeIff(doc: Document, keys: seq<string>)
    ensures KeysChildren(doc, keys).Some? <==>
      forall k :: 0 <= k < |keys| && Shown(doc, keys[k]) ==> Iterable(keys[k], doc.meta[keys[k]])
  {
    if keys != [] {
      KeyChildSomeIff(doc, keys[0]);
      KeysChildrenSomeIff(doc, keys[1..]);
      assert forall k :: 1 <= k < |keys| ==> keys[k] == keys[1..][k - 1];
    }
  }

  /** A truthy list key holding a list gets one item element per entry, in
      order, each holding the entry. */
  lemma ListItems(doc: Document, key: string)
    requires IsListKey(key) && Shown(doc, key) && doc.meta[key].Arr?
    ensures var items := doc.meta[key].items;
      var el := KeyChild(doc, key).value[0];
      && KeyChild(doc, key).Some? && |KeyChild(doc, key).value| == 1
      && el.tag == key && |el.children| == |items|
      && forall k :: 0 <= k < |items| ==> el.children[k] == TextElement(ItemTag(key), items[k])
  {
  }

  // ---------------------------------------------------------------------------
  // Files and the whole tree

  function FileElement(doc: Document): Option<Element>
  {
    var metadata := MetadataElement(doc);
    if metadata.None? then None
    else Some(Element("file", [], None, [
      TextElement("path", Str(doc.path)),
      TextElement("language", Str(doc.language)),
      TextElement("size_bytes", Str(IntToString(doc.sizeBytes))),
      TextElement("lines", Str(IntToString(doc.lines))),
      metadata.value]))
  }

  /** A document's `file` element as a one-element list, for `ConcatMap`. */
  function FileElementList(doc: Document): Option<seq<Element>>
  {
    var file := FileElement(doc);
    if file.None? then None else Some([file.value])
  }

  function FileElements(documents: seq<Document>): Option<seq<Element>>
  {
    ConcatMap(FileElementList, documents)
  }

  /** The `file` elements are built unless some file's metadata raises. */
  lemma FileElementsSomeIff(documents: seq<Document>)
    ensures FileElements(documents).Some? <==> forall i :: 0 <= i < |documents| ==> MetaChildren(documents[i]).Some?
  {
    ConcatMapSomeIff(FileElementList, documents);
  }

  /** One `file` element per document, in the documents' order. */
  lemma FileElementsInOrder(documents: seq<Document>)
    requires FileElements(documents).Some?
    ensures |FileElements(documents).value| == |documents|
    ensures forall i :: 0 <= i < |documents| ==> FileElement(documents[i]) == Some(FileElements(documents).value[i])
  {
    ConcatMapSingles(FileElementList, documents);
  }

  lemma FileElementsStop(documents: seq<Document>, i: nat)
    requires i < |documents| && FileElement(documents[i]).None?
    ensures FileElements(documents) == None
  {
    ConcatMapSomeIff(FileElementList, documents);
  }

  /** The children of `repository` before `files`. */
  function Opening(repo: RepoInfo, documents: seq<Document>, git: Option<GitData>): seq<Element>
    requires NoFileAbove(PathsOf(documents))
  {
    [InfoElement(repo, |documents|)]
    + (if git.Some? then [GitElement(git.value)] else [])
    + [Element("structure", [], None, StructureElements(Build(PathsOf(documents)), ""))]
  }

  /** The `repository` element: info, git history when there is a
      repository, folder structure and files. */
  function RepositoryElement(repo: RepoInfo, documents: seq<Document>, git: Option<GitData>): Option<Element>
    requires NoFileAbove(PathsOf(documents))
  {
    var files := FileElements(documents);
    if files.None? then None
    else Some(Element("repository", [], None, Opening(repo, documents, git) + [Element("files", [], None, files.value)]))
  }

  method FileElementOf(doc: Document) returns (r: Option<Element>)
    ensures r == FileElement(doc)
  {
    var file := Empty("file");
    file := Append(file, TextElement("path", Str(doc.path)));
    file := Append(file, TextElement("language", Str(doc.language)));
    file := Append(file, TextElement("size_bytes", Str(IntToString(doc.sizeBytes))));
    file := Append(file, TextElement("lines", Str(IntToString(doc.lines))));
    assert file.children == [
      TextElement("path", Str(doc.path)),
      TextElement("language", Str(doc.language)),
      TextElement("size_bytes", Str(IntToString(doc.sizeBytes))),
      TextElement("lines", Str(IntToString(doc.lines)))];
    var metadata := MetadataOf(doc);
    if metadata.None? {
      return None;
    }
    file := Append(file, metadata.value);
    assert file == Element("file", [], None, [
      TextElement("path", Str(doc.path)),
      TextElement("language", Str(doc.language)),
      TextElement("size_bytes", Str(IntToString(doc.sizeBytes))),
      TextElement("lines", Str(IntToString(doc.lines))),
      metadata.value]);
    r := Some(file);
  }

  /** The loop over the documents, which stops at the first file whose
      metadata raises. */
  method FilesLoop(documents: seq<Document>) returns (files: Option<Element>)
    ensures FileElements(documents).None? ==> files == None
    ensures FileElements(documents).Some? ==> files == Some(Element("files", [], None, FileElements(documents).value))
  {
    var el := Empty("files");
    for i := 0 to |documents|
      invariant FileElements(documents[..i]) == Some(el.children)
      invariant el.tag == "files" && el.attrs == [] && el.text == None
    {
      var file := FileElementOf(documents[i]);
      assert documents[..i + 1][..i] == documents[..i];
      if file.None? {
        FileElementsStop(documents, i);
        return None;
      }
      el := Append(el, file.value);
    }
    assert documents[..|documents|] == documents;
    files := Some(el);
  }

  /** `info`, `git_history` and `structure`, added in the writer's order. */
  method OpeningElements(repo: RepoInfo, documents: seq<Document>, git: Option<GitData>) returns (repository: Element)
    requires NoFileAbove(PathsOf(documents))
    ensures repository == Element("repository", [], None, Opening(repo, documents, git))
  {
    repository := Append(Empty("repository"), InfoElement(repo, |documents|));
    ghost var gitChildren: seq<Element> := [];
    if git.Some? {
      var history := GitHistoryElement(git.value);
      repository := Append(repository, history);
      gitChildren := [history];
    }
    assert repository == Element("repository", [], None, [InfoElement(repo, |documents|)] + gitChildren);
    var tree := BuildFolderStructure(documents);
    var structure := TreeToXml(Empty("structure"), tree, "");
    assert [] + StructureElements(tree, "") == StructureElements(tree, "");
    assert structure == Element("structure", [], None, StructureElements(Build(PathsOf(documents)), ""));
    repository := Append(repository, structure);
  }

  /** The whole element tree. */
  method XmlRepository(repo: RepoInfo, documents: seq<Document>, git: Option<GitData>) returns (root: Option<Element>)
    requires NoFileAbove(PathsOf(documents))
    ensures root == RepositoryElement(repo, documents, git)
  {
    var repository := OpeningElements(repo, documents, git);
    var files := FilesLoop(documents);
    if files.None? {
      return None;
    }
    root := Some(Append(repository, files.value));
  }

  // ---------------------------------------------------------------------------
  // Properties of the tree

  /** `repository` holds `info`, `git_history` for a git repository only,
      `structure` and `files`, in that order. */
  lemma RepositoryChildTags(repo: RepoInfo, documents: seq<Document>, git: Option<GitData>)
    requires NoFileAbove(PathsOf(documents))
    requires RepositoryElement(repo, documents, git).Some?
    ensures Tags(RepositoryElement(repo, documents, git).value.children)
      == ["info"] + (if git.Some? then ["git_history"] else []) + ["structure", "files"]
  {
    var info, history, structure, files := RepositoryChildren(repo, documents, git);
    OpeningTags(info, history, structure, files);
  }

  /** The children of `repository`, piece by piece. */
  lemma RepositoryChildren(repo: RepoInfo, documents: seq<Document>, git: Option<GitData>)
    returns (info: Element, history: seq<Element>, structure: Element, files: Element)
    requires NoFileAbove(PathsOf(documents))
    requires RepositoryElement(repo, documents, git).Some?
    ensures RepositoryElement(repo, documents, git).value.children == [info] + history + [structure] + [files]
    ensures info.tag == "info" && structure.tag == "structure" && files.tag == "files"
    ensures Tags(history) == if git.Some? then ["git_history"] else []
  {
    info := InfoElement(repo, |documents|);
    history := if git.Some? then [GitElement(git.value)] else [];
    structure := Element("structure", [], None, StructureElements(Build(PathsOf(documents)), ""));
    files := Element("files", [], None, FileElements(documents).value);
  }

  lemma OpeningTags(info: Element, history: seq<Element>, structure: Element, files: Element)
    requires info.tag == "info" && structure.tag == "structure" && files.tag == "files"
    ensures Tags([info] + history + [structure] + [files]) == ["info"] + Tags(history) + ["structure", "files"]
  {
    TagsConcat([info], history);
    TagsConcat([info] + history, [structure]);
    TagsConcat([info] + history + [structure], [files]);
  }

  /** `git_history` holds the summary, then the branch, commit and
      contributor lists that are not empty; in particular `branches` is
      there exactly when the repository has branches. */
  lemma GitChildTags(g: GitData)
    ensures Tags(GitElement(g).children)
      == ["summary"]
         + (if g.branches != [] then ["branches"] else [])
         + (if g.commits != [] then ["recent_commits"] else [])
         + (if g.contributors != [] then ["contributors"] else [])
    ensures "branches" in Tags(GitElement(g).children) <==> g.branches != []
  {
    var summary, branches := [SummaryElement(g.summary)], BranchesElements(g.branches);
    var commits, contributors := CommitsElements(g.commits), ContributorsElements(g.contributors);
    assert Tags(summary) == ["summary"];
    assert Tags(branches) == if g.branches != [] then ["branches"] else [];
    assert Tags(commits) == if g.commits != [] then ["recent_commits"] else [];
    assert Tags(contributors) == if g.contributors != [] then ["contributors"] else [];
    TagsConcat(summary, branches);
    TagsConcat(summary + branches, commits);
    TagsConcat(summary + branches + commits, contributors);
    if g.branches == [] {
      assert |"summary"| != |"branches"| && |"recent_commits"| != |"branches"| && |"contributors"| != |"branches"|;
      NotInConcat("branches", ["summary"], Tags(branches), Tags(commits), Tags(contributors));
    } else {
      IndexAfter(["summary"], Tags(branches), Tags(commits), Tags(contributors));
    }
  }

  lemma TagsConcat(a: seq<Element>, b: seq<Element>)
    ensures Tags(a + b) == Tags(a) + Tags(b)
  {
  }

  /** At most ten branches and ten contributors, the first ones, each
      branch flagged `current="true"` exactly when it is checked out. */
  lemma GitListsCapped(g: GitData)
    requires g.branches != [] && g.contributors != []
    ensures var branches := BranchesElements(g.branches)[0].children;
      && |branches| == (if |g.branches| <= 10 then |g.branches| else 10)
      && forall k :: 0 <= k < |branches| ==>
           branches[k] == BranchElement(g.branches[k])
           && (branches[k].attrs == [("current", "true")] <==> g.branches[k].isCurrent)
    ensures |ContributorsElements(g.contributors)[0].children| == (if |g.contributors| <= 10 then |g.contributors| else 10)
  {
    var branches := BranchesElements(g.branches)[0].children;
    forall k | 0 <= k < |branches|
      ensures branches[k] == BranchElement(g.branches[k])
    {
      assert Capped(g.branches)[k] == g.branches[k];
    }
  }

  /** The `structure` element mirrors the list view of the folder tree, entry
      for entry, and every element in it carries a non-empty `path`. */
  lemma StructureMirrorsList(repo: RepoInfo, documents: seq<Document>, git: Option<GitData>)
    requires NoFileAbove(PathsOf(documents))
    ensures var structure := Opening(repo, documents, git)[|Opening(repo, documents, git)| - 1];
      var tree := Build(PathsOf(documents));
      && structure.tag == "structure"
      && |structure.children| == |TreeToList(tree, "")|
      && (forall i :: 0 <= i < |tree| ==> Mirrors(structure.children[i], TreeToList(tree, "")[i]))
      && (forall i :: 0 <= i < |tree| ==> AllPathed(structure.children[i]))
  {
    var tree := Build(PathsOf(documents));
    BuildWellFormed(PathsOf(documents));
    XmlMirrorsList(tree, "");
    StructurePathsNonEmpty(tree, "");
  }

  /** `files` holds one `file` element per document, in order, each starting
      with the document's path and language. */
  lemma FilesPerDocument(repo: RepoInfo, documents: seq<Document>, git: Option<GitData>)
    requires NoFileAbove(PathsOf(documents))
    requires RepositoryElement(repo, documents, git).Some?
    ensures var children := RepositoryElement(repo, documents, git).value.children;
      var files := children[|children| - 1];
      && files.tag == "files"
      && |files.children| == |documents|
      && forall i :: 0 <= i < |documents| ==>
           files.children[i].tag == "file" && |files.children[i].children| == 5
           && files.children[i].children[0] == TextElement("path", Str(documents[i].path))
           && files.children[i].children[1] == TextElement("language", Str(documents[i].language))
  {
    var els := FileElements(documents).value;
    var children := RepositoryElement(repo, documents, git).value.children;
    assert children[|children| - 1] == Element("files", [], None, els);
    FileElementsInOrder(documents);
    forall i | 0 <= i < |documents|
      ensures els[i].tag == "file" && |els[i].children| == 5
      ensures els[i].children[0] == TextElement("path", Str(documents[i].path))
      ensures els[i].children[1] == TextElement("language", Str(documents[i].language))
    {
      FileElementHead(documents[i]);
    }
  }

  lemma FileElementHead(doc: Document)
    requires FileElement(doc).Some?
    ensures var file := FileElement(doc).value;
      && file.tag == "file" && |file.children| == 5
      && file.children[0] == TextElement("path", Str(doc.path))
      && file.children[1] == TextElement("language", Str(doc.language))
  {
  }
}
