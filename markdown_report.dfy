/** The Markdown report (src/writers.py:50-148): the list of lines that
    `MarkdownWriter.write` joins with newlines, or `None` where the writer
    raises because a truthy metadata value cannot be joined. */
module MarkdownReport {
  import opened Wrappers
  import opened Text
  import opened Values
  import opened Records
  import opened FolderTree
  import opened TreeViews

  // ---------------------------------------------------------------------------
  // Title and git history

  function HeaderLines(repo: RepoInfo, filesProcessed: nat): seq<string>
  {
    [ "# Repo Summary: " + repo.name + "\n",
      "**Generated:** " + repo.generatedAt + "  ",
      "**Files processed:** " + NatToString(filesProcessed) + "\n" ]
  }

  /** `summary.get(key, default)` as an f-string prints it. */
  function SummaryText(summary: seq<(string, Value)>, key: string, default: Value): string
  {
    PyStr(Get(summary, key).GetOr(default))
  }

  /** A date line, written only when `summary.get(key)` is truthy. */
  function DateLine(summary: seq<(string, Value)>, key: string, caption: string): seq<string>
  {
    var v := Get(summary, key);
    if v.Some? && Truthy(v.value) then [caption + PyStr(v.value) + "  "] else []
  }

  function SummaryLines(summary: seq<(string, Value)>): seq<string>
  {
    [ "**Current Branch:** " + SummaryText(summary, "current_branch", Str("N/A")) + "  ",
      "**Total Commits:** " + SummaryText(summary, "total_commits", Int(0)) + "  ",
      "**Contributors:** " + SummaryText(summary, "total_contributors", Int(0)) + "  " ]
    + DateLine(summary, "first_commit_date", "**First Commit:** ")
    + DateLine(summary, "last_commit_date", "**Last Commit:** ")
    + [""]
  }

  /** `"* "` marks the current branch, `"- "` every other one. */
  function BranchLine(b: Branch): string
  {
    (if b.isCurrent then "* " else "- ") + "**" + b.name + "** (Last: " + b.lastCommit + ", " + b.lastCommitDate.day + ")"
  }

  function BranchLines(bs: seq<Branch>): seq<string>
  {
    seq(|bs|, k requires 0 <= k < |bs| => BranchLine(bs[k]))
  }

  /** Hash and message, author and time, and a change count line only for a
      commit that changed files. */
  function CommitLines(c: Commit): seq<string>
  {
    [ "- **" + c.hash + "** - " + c.message,
      "  *" + c.author + "* on " + c.date.minute ]
    + if c.filesChanged > 0 then
        ["  " + IntToString(c.filesChanged) + " files: +" + IntToString(c.insertions) + "/-" + IntToString(c.deletions)]
      else []
  }

  function CommitsLines(cs: seq<Commit>): seq<string>
  {
    if cs == [] then [] else CommitsLines(cs[..|cs| - 1]) + CommitLines(cs[|cs| - 1])
  }

  function ContributorLines(c: Contributor): seq<string>
  {
    [ "- **" + c.name + "** (" + c.email + ")",
      "  " + IntToString(c.commits) + " commits, +" + IntToString(c.insertions) + "/-" + IntToString(c.deletions) ]
  }

  function ContributorsLines(cs: seq<Contributor>): seq<string>
  {
    if cs == [] then [] else ContributorsLines(cs[..|cs| - 1]) + ContributorLines(cs[|cs| - 1])
  }

  /** Each list gets a heading and a closing blank line, and nothing at all
      when it is empty. */
  function BranchesBlock(bs: seq<Branch>): seq<string>
  {
    if bs == [] then [] else ["### Branches\n"] + BranchLines(Capped(bs)) + [""]
  }

  function CommitsBlock(cs: seq<Commit>): seq<string>
  {
    if cs == [] then [] else ["### Recent Commits\n"] + CommitsLines(cs) + [""]
  }

  function ContributorsBlock(cs: seq<Contributor>): seq<string>
  {
    if cs == [] then [] else ["### Contributors\n"] + ContributorsLines(Capped(cs)) + [""]
  }

  function GitLines(g: GitData): seq<string>
  {
    ["## Git History\n"] + SummaryLines(g.summary)
    + BranchesBlock(g.branches) + CommitsBlock(g.commits) + ContributorsBlock(g.contributors)
  }

  /** The branch list, one line per branch up to the cap. */
  method BranchesSection(bs: seq<Branch>) returns (lines: seq<string>)
    ensures lines == BranchesBlock(bs)
  {
    lines := [];
    if bs != [] {
      var capped := Capped(bs);
      var body: seq<string> := [];
      for k := 0 to |capped|
        invariant body == BranchLines(capped[..k])
      {
        body := body + [BranchLine(capped[k])];
      }
      assert capped[..|capped|] == capped;
      lines := ["### Branches\n"] + body + [""];
    }
  }

  method CommitsSection(cs: seq<Commit>) returns (lines: seq<string>)
    ensures lines == CommitsBlock(cs)
  {
    lines := [];
    if cs != [] {
      var body: seq<string> := [];
      for k := 0 to |cs|
        invariant body == CommitsLines(cs[..k])
      {
        assert cs[..k + 1][..k] == cs[..k];
        body := body + CommitLines(cs[k]);
      }
      assert cs[..|cs|] == cs;
      lines := ["### Recent Commits\n"] + body + [""];
    }
  }

  method ContributorsSection(cs: seq<Contributor>) returns (lines: seq<string>)
    ensures lines == ContributorsBlock(cs)
  {
    lines := [];
    if cs != [] {
      var top := Capped(cs);
      var body: seq<string> := [];
      for k := 0 to |top|
        invariant body == ContributorsLines(top[..k])
      {
        assert top[..k + 1][..k] == top[..k];
        body := body + ContributorLines(top[k]);
      }
      assert top[..|top|] == top;
      lines := ["### Contributors\n"] + body + [""];
    }
  }

  /** The git history section, appended block by block as the writer does. */
  method GitSection(g: GitData) returns (lines: seq<string>)
    ensures lines == GitLines(g)
  {
    lines := ["## Git History\n"] + SummaryLines(g.summary);
    var branches := BranchesSection(g.branches);
    lines := lines + branches;
    var commits := CommitsSection(g.commits);
    lines := lines + commits;
    var contributors := ContributorsSection(g.contributors);
    lines := lines + contributors;
  }

  // ---------------------------------------------------------------------------
  // Per-file metadata lines

  /** `', '.join(v)`: the items a loop over `v` visits, which must all be
      strings; `None` where Python raises `TypeError`. */
  function JoinItems(v: Value): Option<string>
  {
    var items := Iterate(v);
    if items.Some? && forall i :: 0 <= i < |items.value| ==> items.value[i].Str? then
      Some(Join(seq(|items.value|, i requires 0 <= i < |items.value| => items.value[i].s), ", "))
    else None
  }

  /** A value `', '.join` accepts: a string (joined character by character),
      a dict (its keys) or a list of strings. */
  predicate StringItems(v: Value)
  {
    v.Str? || v.Obj? || (v.Arr? && forall i :: 0 <= i < |v.items| ==> v.items[i].Str?)
  }

  lemma JoinItemsSomeIff(v: Value)
    ensures JoinItems(v).Some? <==> StringItems(v)
  {
    if v.Str? {
      var items := Iterate(v).value;
      forall i | 0 <= i < |items|
        ensures items[i].Str?
      {
        assert items[i] == Str([v.s[i]]);
      }
    } else if v.Obj? {
      var items := Iterate(v).value;
      forall i | 0 <= i < |items|
        ensures items[i].Str?
      {
        assert items[i] == Str(v.fields[i].0);
      }
    }
  }

  /** A list of strings is joined with `", "`. */
  lemma JoinStrings(names: seq<string>)
    ensures JoinItems(Arr(seq(|names|, i requires 0 <= i < |names| => Str(names[i])))) == Some(Join(names, ", "))
  {
    var v := Arr(seq(|names|, i requires 0 <= i < |names| => Str(names[i])));
    var items := Iterate(v).value;
    assert seq(|items|, i requires 0 <= i < |items| => items[i].s) == names;
  }

  /** A list line (classes, functions, headers), written only when the key
      is truthy. */
  function ListLine(doc: Document, key: string, caption: string): Option<seq<string>>
  {
    if !Shown(doc, key) then Some([])
    else
      var joined := JoinItems(doc.meta[key]);
      if joined.None? then None else Some([caption + joined.value + "  "])
  }

  /** A text line (licence header, Dockerfile settings), written only when
      the key is truthy; the value is printed with `str()`. */
  function TextLine(doc: Document, key: string, caption: string): seq<string>
  {
    if Shown(doc, key) then [caption + PyStr(doc.meta[key]) + "  "] else []
  }

  /** `', '.join(f"{k}={v}" for k, v in env.items())`; `None` where `env` has
      no `items()`. */
  function EnvText(v: Value): Option<string>
  {
    match v
    case Obj(fields) =>
      Some(Join(seq(|fields|, k requires 0 <= k < |fields| => fields[k].0 + "=" + PyStr(fields[k].1)), ", "))
    case _ => None
  }

  function EnvLine(doc: Document): Option<seq<string>>
  {
    if !Shown(doc, "env") then Some([])
    else
      var text := EnvText(doc.meta["env"]);
      if text.None? then None else Some(["*ENV:* " + text.value + "  "])
  }

  /** The metadata lines of one file, by language. */
  function MetaLines(doc: Document): Option<seq<string>>
  {
    if doc.language == "python" then
      Then(ListLine(doc, "classes", "*Classes:* "), ListLine(doc, "functions", "*Functions:* "))
    else if doc.language == "markdown" then
      ListLine(doc, "headers", "*Headers:* ")
    else if doc.language == "license" then
      Some(TextLine(doc, "header", "*Header:* "))
    else if doc.language == "dockerfile" then
      Then(
        Some(TextLine(doc, "image", "*Image:* ") + TextLine(doc, "workdir", "*Workdir:* ")
          + TextLine(doc, "entrypoint", "*Entrypoint:* ") + TextLine(doc, "cmd", "*CMD:* ")),
        EnvLine(doc))
    else Some([])
  }

  /** The keys each language's Markdown section reports, in line order: for
      Python the classes come before the functions. With `KeysLines` this is a
      second, key-by-key formulation of `MetaLines`; `MetaLinesFollowKeys`
      shows that the two agree. */
  function MarkdownMetaKeys(language: string): seq<string>
  {
    match language
    case "python" => ["classes", "functions"]
    case "markdown" => ["headers"]
    case "license" => ["header"]
    case "dockerfile" => ["image", "workdir", "entrypoint", "cmd", "env"]
    case _ => []
  }

  /** The label each key's line starts with. */
  function Label(key: string): string
  {
    match key
    case "classes" => "*Classes:* "
    case "functions" => "*Functions:* "
    case "headers" => "*Headers:* "
    case "header" => "*Header:* "
    case "image" => "*Image:* "
    case "workdir" => "*Workdir:* "
    case "entrypoint" => "*Entrypoint:* "
    case "cmd" => "*CMD:* "
    case _ => "*ENV:* "
  }

  /** The value a key's line can be printed from. */
  predicate Printable(key: string, v: Value)
  {
    if IsListKey(key) then StringItems(v) else if key == "env" then v.Obj? else true
  }

  /** The line of one key, chosen by the kind of the key alone. */
  function KeyLine(doc: Document, key: string): Option<seq<string>>
  {
    if IsListKey(key) then ListLine(doc, key, Label(key))
    else if key == "env" then EnvLine(doc)
    else Some(TextLine(doc, key, Label(key)))
  }

  /** Reference reading of the metadata lines: one key after another. It
      restates `MetaLines` key by key, and `MetaLinesFollowKeys` shows that
      the two agree. */
  function KeysLines(doc: Document, keys: seq<string>): Option<seq<string>>
  {
    if keys == [] then Some([]) else Then(KeyLine(doc, keys[0]), KeysLines(doc, keys[1..]))
  }

  /** The language chain writes the lines of its language's keys in table
      order. */
  lemma MetaLinesFollowKeys(doc: Document)
    ensures MetaLines(doc) == KeysLines(doc, MarkdownMetaKeys(doc.language))
  {
    if doc.language == "dockerfile" {
      assert MarkdownMetaKeys(doc.language) == ["image", "workdir", "entrypoint", "cmd", "env"];
      DockerfileLines(doc);
    } else if doc.language == "python" {
      KeysLinesSingle(doc, "functions");
    } else if doc.language == "markdown" {
      KeysLinesSingle(doc, "headers");
    } else if doc.language == "license" {
      KeysLinesSingle(doc, "header");
    }
  }

  lemma DockerfileLines(doc: Document)
    requires doc.language == "dockerfile"
    ensures MetaLines(doc) == KeysLines(doc, ["image", "workdir", "entrypoint", "cmd", "env"])
  {
    var image := TextKeyLine(doc, "image");
    var workdir := TextKeyLine(doc, "workdir");
    var entrypoint := TextKeyLine(doc, "entrypoint");
    var cmd := TextKeyLine(doc, "cmd");
    var env := KeysLines(doc, ["env"]);
    KeysLinesSingle(doc, "env");
    KeysLinesCons(doc, "cmd", ["env"]);
    KeysLinesCons(doc, "entrypoint", ["cmd", "env"]);
    KeysLinesCons(doc, "workdir", ["entrypoint", "cmd", "env"]);
    KeysLinesCons(doc, "image", ["workdir", "entrypoint", "cmd", "env"]);
    assert KeysLines(doc, ["image", "workdir", "entrypoint", "cmd", "env"])
      == Then(Some(image), Then(Some(workdir), Then(Some(entrypoint), Then(Some(cmd), env))));
    ThenLeading(image, workdir, entrypoint, cmd, env);
    EnvKeyLine(doc);
    DockerfileMetaLines(doc);
  }

  lemma EnvKeyLine(doc: Document)
    ensures KeyLine(doc, "env") == EnvLine(doc)
  {
  }

  lemma DockerfileMetaLines(doc: Document)
    requires doc.language == "dockerfile"
    ensures MetaLines(doc) == Then(
      Some(TextLine(doc, "image", Label("image")) + TextLine(doc, "workdir", Label("workdir"))
        + TextLine(doc, "entrypoint", Label("entrypoint")) + TextLine(doc, "cmd", Label("cmd"))),
      EnvLine(doc))
  {
  }

  /** The line of a key printed with `str()` and its label. */
  lemma TextKeyLine(doc: Document, key: string) returns (line: seq<string>)
    requires key in {"image", "workdir", "entrypoint", "cmd"}
    ensures line == TextLine(doc, key, Label(key))
    ensures KeyLine(doc, key) == Some(line)
  {
    line := TextLine(doc, key, Label(key));
  }

  lemma KeysLinesCons(doc: Document, key: string, rest: seq<string>)
    ensures KeysLines(doc, [key] + rest) == Then(KeyLine(doc, key), KeysLines(doc, rest))
  {
    assert ([key] + rest)[1..] == rest;
  }

  lemma KeysLinesSingle(doc: Document, key: string)
    ensures KeysLines(doc, [key]) == KeyLine(doc, key)
  {
    assert [key][1..] == [];
    var line := KeyLine(doc, key);
    if line.Some? {
      assert line.value + [] == line.value;
    }
  }

  predicate StartsWith(s: string, p: string)
  {
    |p| <= |s| && s[..|p|] == p
  }

  lemma KeyLineShape(doc: Document, key: string)
    requires KeyLine(doc, key).Some?
    ensures var lines := KeyLine(doc, key).value;
      && |lines| == (if Shown(doc, key) then 1 else 0)
      && (Shown(doc, key) ==> StartsWith(lines[0], Label(key)))
  {
    if Shown(doc, key) {
      var line := KeyLine(doc, key).value[0];
      if IsListKey(key) {
        assert line == Label(key) + JoinItems(doc.meta[key]).value + "  ";
      } else if key == "env" {
        assert line == Label(key) + EnvText(doc.meta[key]).value + "  ";
      } else {
        assert line == Label(key) + PyStr(doc.meta[key]) + "  ";
      }
    }
  }

  /** A file's metadata lines are one per truthy key of its language, in
      table order, each opening with that key's label. */
  lemma {:induction false} KeysLinesShape(doc: Document, keys: seq<string>)
    requires KeysLines(doc, keys).Some?
    ensures var lines := KeysLines(doc, keys).value;
      var shown := ShownKeys(doc, keys);
      && |lines| == |shown|
      && forall i :: 0 <= i < |lines| ==> StartsWith(lines[i], Label(shown[i]))
  {
    if keys != [] {
      KeyLineShape(doc, keys[0]);
      KeysLinesShape(doc, keys[1..]);
      var head := KeyLine(doc, keys[0]).value;
      var rest := KeysLines(doc, keys[1..]).value;
      assert KeysLines(doc, keys).value == head + rest;
    }
  }

  lemma KeyLineSomeIff(doc: Document, key: string)
    ensures KeyLine(doc, key).Some? <==> (Shown(doc, key) ==> Printable(key, doc.meta[key]))
  {
    if Shown(doc, key) && IsListKey(key) {
      JoinItemsSomeIff(doc.meta[key]);
    }
  }

  /** The section raises exactly when a truthy key holds a value its line
      cannot be printed from: a list key whose items are not all strings,
      an `env` that is not a dict. */
  lemma {:induction false} KeysLinesSomeIff(doc: Document, keys: seq<string>)
    ensures KeysLines(doc, keys).Some? <==>
      forall k :: 0 <= k < |keys| && Shown(doc, keys[k]) ==> Printable(keys[k], doc.meta[keys[k]])
  {
    if keys != [] {
      KeyLineSomeIff(doc, keys[0]);
      KeysLinesSomeIff(doc, keys[1..]);
      assert forall k :: 1 <= k < |keys| ==> keys[k] == keys[1..][k - 1];
    }
  }

  // ---------------------------------------------------------------------------
  // File sections and the whole report

  function FileSection(doc: Document): Option<seq<string>>
  {
    var meta := MetaLines(doc);
    if meta.None? then None
    else Some(
      [ "### " + doc.path,
        "*Language:* " + doc.language + "  ",
        "*Size:* " + IntToString(doc.sizeBytes) + " bytes, " + IntToString(doc.lines) + " lines  " ]
      + meta.value + [""])
  }

  function FileSections(documents: seq<Document>): Option<seq<string>>
  {
    ConcatMap(FileSection, documents)
  }

  /** The file sections are written unless some file's metadata raises. */
  lemma FileSectionsSomeIff(documents: seq<Document>)
    ensures FileSections(documents).Some? <==> forall i :: 0 <= i < |documents| ==> MetaLines(documents[i]).Some?
  {
    ConcatMapSomeIff(FileSection, documents);
    forall i | 0 <= i < |documents|
      ensures FileSection(documents[i]).Some? <==> MetaLines(documents[i]).Some?
    {
      FileSectionSomeIff(documents[i]);
    }
  }

  lemma FileSectionSomeIff(doc: Document)
    ensures FileSection(doc).Some? <==> MetaLines(doc).Some?
    ensures FileSection(doc).Some? ==> FileSection(doc).value[0] == "### " + doc.path
  {
  }

  lemma FileSectionsStop(documents: seq<Document>, i: nat)
    requires i < |documents| && FileSection(documents[i]).None?
    ensures FileSections(documents) == None
  {
    ConcatMapSomeIff(FileSection, documents);
  }

  /** Every file gets its `### path` heading. */
  lemma FileSectionsHaveHeadings(documents: seq<Document>)
    requires FileSections(documents).Some?
    ensures forall i :: 0 <= i < |documents| ==> "### " + documents[i].path in FileSections(documents).value
  {
    ConcatMapSomeIff(FileSection, documents);
    ConcatMapHas(FileSection, documents);
    forall i | 0 <= i < |documents|
      ensures "### " + documents[i].path in FileSections(documents).value
    {
      FileSectionSomeIff(documents[i]);
      assert FileSection(documents[i]).value[0] in FileSection(documents[i]).value;
    }
  }

  /** The lines `MarkdownWriter.write` joins: title, git history when there
      is a repository, the folder tree between code fences, then one section
      per file. */
  function MarkdownLines(repo: RepoInfo, documents: seq<Document>, git: Option<GitData>): Option<seq<string>>
    requires NoFileAbove(PathsOf(documents))
  {
    Then(Some(Preamble(repo, documents, git) + FolderLines(Build(PathsOf(documents)))), FileSections(documents))
  }

  /** Title lines, then the git history of a repository. */
  function Preamble(repo: RepoInfo, documents: seq<Document>, git: Option<GitData>): seq<string>
  {
    HeaderLines(repo, |documents|) + if git.Some? then GitLines(git.value) else []
  }

  /** The folder tree in a code block, then the heading of the file sections. */
  function FolderLines(tree: Tree): seq<string>
  {
    ["## Folder Structure\n", "```"] + FormatTreeMd(tree, "", true) + ["```\n", "## Files\n"]
  }

  function MarkdownDocument(repo: RepoInfo, documents: seq<Document>, git: Option<GitData>): Option<string>
    requires NoFileAbove(PathsOf(documents))
  {
    var lines := MarkdownLines(repo, documents, git);
    if lines.None? then None else Some(Join(lines.value, "\n"))
  }

  /** The title, the git history and the folder tree, appended in the
      writer's order. */
  method OpeningLines(repo: RepoInfo, documents: seq<Document>, git: Option<GitData>) returns (lines: seq<string>)
    requires NoFileAbove(PathsOf(documents))
    ensures lines == Preamble(repo, documents, git) + FolderLines(Build(PathsOf(documents)))
  {
    var head := HeaderLines(repo, |documents|);
    if git.Some? {
      var history := GitSection(git.value);
      head := head + history;
    } else {
      assert head + [] == head;
    }
    var tree := BuildFolderStructure(documents);
    var folder := ["## Folder Structure\n", "```"] + FormatTreeMd(tree, "", true) + ["```\n", "## Files\n"];
    assert head == Preamble(repo, documents, git);
    assert folder == FolderLines(Build(PathsOf(documents)));
    lines := head + folder;
  }

  /** The loop over the documents, which stops at the first file whose
      metadata raises. */
  method FileSectionLoop(documents: seq<Document>) returns (sections: Option<seq<string>>)
    ensures sections == FileSections(documents)
  {
    var lines: seq<string> := [];
    for i := 0 to |documents|
      invariant FileSections(documents[..i]) == Some(lines)
    {
      var section := FileSection(documents[i]);
      assert documents[..i + 1][..i] == documents[..i];
      if section.None? {
        FileSectionsStop(documents, i);
        return None;
      }
      lines := lines + section.value;
    }
    assert documents[..|documents|] == documents;
    sections := Some(lines);
  }

  /** `content` as the writer builds it, one append at a time. */
  method MarkdownContent(repo: RepoInfo, documents: seq<Document>, git: Option<GitData>) returns (content: Option<seq<string>>)
    requires NoFileAbove(PathsOf(documents))
    ensures content == MarkdownLines(repo, documents, git)
  {
    var lines := OpeningLines(repo, documents, git);
    var sections := FileSectionLoop(documents);
    content := Then(Some(lines), sections);
  }

  /** Between the fences stands one line per tree entry, depth first, as the
      outline renders it; the file sections follow the `## Files` heading. */
  lemma FolderBlock(repo: RepoInfo, documents: seq<Document>, git: Option<GitData>)
    requires NoFileAbove(PathsOf(documents))
    requires MarkdownLines(repo, documents, git).Some?
    ensures var tree := Build(PathsOf(documents));
      && MarkdownLines(repo, documents, git).value
         == Preamble(repo, documents, git) + FolderLines(tree) + FileSections(documents).value
      && FolderLines(tree) == ["## Folder Structure\n", "```"] + Render("", Outline(tree)) + ["```\n", "## Files\n"]
      && |Render("", Outline(tree))| == Count(tree)
  {
    var tree := Build(PathsOf(documents));
    FormatTreeMdRendersOutline(tree, "", true);
    OutlineCount(tree);
  }

  /** The title takes three lines. */
  lemma PreambleLength(repo: RepoInfo, documents: seq<Document>, git: Option<GitData>)
    ensures |Preamble(repo, documents, git)| == 3 + if git.Some? then |GitLines(git.value)| else 0
  {
  }

  // ---------------------------------------------------------------------------
  // The git history section

  lemma {:induction false} CommitsLinesLength(cs: seq<Commit>)
    ensures |CommitsLines(cs)| >= 2 * |cs|
  {
    if cs != [] {
      CommitsLinesLength(cs[..|cs| - 1]);
    }
  }

  /** Two lines per contributor. */
  lemma {:induction false} ContributorsLinesLength(cs: seq<Contributor>)
    ensures |ContributorsLines(cs)| == 2 * |cs|
  {
    if cs != [] {
      ContributorsLinesLength(cs[..|cs| - 1]);
    }
  }

  /** Only the first ten branches and the first ten contributors are listed,
      the current branch marked with `"* "`. */
  lemma GitListsCapped(g: GitData)
    ensures |BranchesBlock(g.branches)| == if g.branches == [] then 0 else 2 + |Capped(g.branches)|
    ensures |BranchesBlock(g.branches)| <= 12
    ensures forall k :: 0 <= k < |Capped(g.branches)| ==>
      BranchesBlock(g.branches)[k + 1] == BranchLine(g.branches[k])
      && (BranchLine(g.branches[k])[0] == '*' <==> g.branches[k].isCurrent)
    ensures |ContributorsBlock(g.contributors)| == if g.contributors == [] then 0 else 2 + 2 * |Capped(g.contributors)|
    ensures |ContributorsBlock(g.contributors)| <= 22
  {
    BranchesCapped(g.branches);
    ContributorsLinesLength(Capped(g.contributors));
  }

  /** The branch block: the heading, at most ten branch lines in order, each
      marked `*` for the current branch, and a closing blank line. */
  lemma BranchesCapped(bs: seq<Branch>)
    ensures |BranchesBlock(bs)| == if bs == [] then 0 else 2 + |Capped(bs)|
    ensures bs != [] ==> BranchesBlock(bs)[0] == "### Branches\n" && BranchesBlock(bs)[|BranchesBlock(bs)| - 1] == ""
    ensures forall k :: 0 <= k < |Capped(bs)| ==>
      BranchesBlock(bs)[k + 1] == BranchLine(bs[k])
      && (BranchLine(bs[k])[0] == '*' <==> bs[k].isCurrent)
  {
    forall k | 0 <= k < |Capped(bs)|
      ensures BranchesBlock(bs)[k + 1] == BranchLine(bs[k])
      ensures BranchLine(bs[k])[0] == '*' <==> bs[k].isCurrent
    {
      BranchLineMark(bs[k]);
    }
  }

  lemma BranchLineMark(b: Branch)
    ensures BranchLine(b)[0] == if b.isCurrent then '*' else '-'
  {
    var mark := if b.isCurrent then "* " else "- ";
    assert BranchLine(b) == mark + ("**" + b.name + "** (Last: " + b.lastCommit + ", " + b.lastCommitDate.day + ")");
  }

  /** The lines of the summary and of the three lists never read
      `### Branches`: they open with `*`, `-`, a space or another heading. */
  lemma {:induction false} CommitsLinesNotHeading(cs: seq<Commit>)
    ensures "### Branches\n" !in CommitsLines(cs)
  {
    if cs != [] {
      CommitsLinesNotHeading(cs[..|cs| - 1]);
      var c := cs[|cs| - 1];
      var ls := CommitLines(c);
      forall k | 0 <= k < |ls|
        ensures ls[k][0] == '-' || ls[k][0] == ' '
      {
      }
    }
  }

  lemma {:induction false} ContributorsLinesNotHeading(cs: seq<Contributor>)
    ensures "### Branches\n" !in ContributorsLines(cs)
  {
    if cs != [] {
      ContributorsLinesNotHeading(cs[..|cs| - 1]);
      var ls := ContributorLines(cs[|cs| - 1]);
      assert ls[0][0] == '-' && ls[1][0] == ' ';
    }
  }

  lemma SummaryLinesNotHeading(summary: seq<(string, Value)>)
    ensures "### Branches\n" !in SummaryLines(summary)
  {
    var counts := [ "**Current Branch:** " + SummaryText(summary, "current_branch", Str("N/A")) + "  ",
      "**Total Commits:** " + SummaryText(summary, "total_commits", Int(0)) + "  ",
      "**Contributors:** " + SummaryText(summary, "total_contributors", Int(0)) + "  " ];
    assert forall k :: 0 <= k < |counts| ==> counts[k][0] == '*';
    DateLineNotHeading(summary, "first_commit_date", "**First Commit:** ");
    DateLineNotHeading(summary, "last_commit_date", "**Last Commit:** ");
    NotInConcat("### Branches\n", counts, DateLine(summary, "first_commit_date", "**First Commit:** "),
      DateLine(summary, "last_commit_date", "**Last Commit:** "), [""]);
  }

  lemma DateLineNotHeading(summary: seq<(string, Value)>, key: string, caption: string)
    requires caption != [] && caption[0] == '*'
    ensures "### Branches\n" !in DateLine(summary, key, caption)
  {
    var ls := DateLine(summary, key, caption);
    if ls != [] {
      assert ls[0][0] == '*';
    }
  }

  lemma CommitsBlockNotHeading(cs: seq<Commit>)
    ensures "### Branches\n" !in CommitsBlock(cs)
  {
    if cs != [] {
      CommitsLinesNotHeading(cs);
      assert |"### Recent Commits\n"| != |"### Branches\n"|;
    }
  }

  lemma ContributorsBlockNotHeading(cs: seq<Contributor>)
    ensures "### Branches\n" !in ContributorsBlock(cs)
  {
    if cs != [] {
      ContributorsLinesNotHeading(Capped(cs));
      assert |"### Contributors\n"| != |"### Branches\n"|;
    }
  }

  /** Without branches no line of the git history is the branch heading. */
  lemma NoBranchesNoHeading(g: GitData)
    requires g.branches == []
    ensures "### Branches\n" !in GitLines(g)
  {
    SummaryLinesNotHeading(g.summary);
    assert |"## Git History\n"| != |"### Branches\n"|;
    CommitsBlockNotHeading(g.commits);
    ContributorsBlockNotHeading(g.contributors);
    NotInConcat("### Branches\n", ["## Git History\n"] + SummaryLines(g.summary), BranchesBlock(g.branches),
      CommitsBlock(g.commits), ContributorsBlock(g.contributors));
  }

  /** With branches the heading follows the summary. */
  lemma BranchesHeadingPlace(g: GitData)
    requires g.branches != []
    ensures GitLines(g)[1 + |SummaryLines(g.summary)|] == "### Branches\n"
  {
    var head := ["## Git History\n"] + SummaryLines(g.summary);
    var block := BranchesBlock(g.branches);
    assert |head| == 1 + |SummaryLines(g.summary)| && block[0] == "### Branches\n";
    assert GitLines(g) == head + block + CommitsBlock(g.commits) + ContributorsBlock(g.contributors);
    IndexAfter(head, block, CommitsBlock(g.commits), ContributorsBlock(g.contributors));
  }

  /** The `### Branches` heading appears exactly when the repository has
      branches. */
  lemma BranchesHeadingIff(g: GitData)
    ensures "### Branches\n" in GitLines(g) <==> g.branches != []
  {
    if g.branches == [] {
      NoBranchesNoHeading(g);
    } else {
      BranchesHeadingPlace(g);
    }
  }
}
