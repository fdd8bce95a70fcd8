/** The inputs the writers read and never change: the scanned files and the
    git collaborator's answers. */
module Records {
  import opened Values

  /** One scanned file (`Document`): its repository-relative path, language
      tag, size, line count and the language-specific metadata mapping. */
  datatype Document = Document(
    path: string,
    language: string,
    sizeBytes: int,
    lines: int,
    meta: map<string, Value>)

  /** A commit time as the writers print it: `isoformat()`,
      `strftime('%Y-%m-%d')` and `strftime('%Y-%m-%d %H:%M')`. */
  datatype Timestamp = Timestamp(iso: string, day: string, minute: string)

  datatype Branch = Branch(name: string, isCurrent: bool, lastCommit: string, lastCommitDate: Timestamp)

  datatype Commit = Commit(
    hash: string,
    author: string,
    email: string,
    date: Timestamp,
    message: string,
    filesChanged: int,
    insertions: int,
    deletions: int)

  datatype Contributor = Contributor(name: string, email: string, commits: int, insertions: int, deletions: int)

  /** `doc.meta.get(key)` is truthy: the Markdown and XML writers report a
      metadata key only then. */
  predicate Shown(doc: Document, key: string)
  {
    key in doc.meta && Truthy(doc.meta[key])
  }

  /** The metadata keys that hold lists of names: Python functions and
      classes, Markdown headers. */
  predicate IsListKey(key: string)
  {
    key == "classes" || key == "functions" || key == "headers"
  }

  /** The keys among `keys` that `doc` shows, in their order. */
  function ShownKeys(doc: Document, keys: seq<string>): (r: seq<string>)
    ensures |r| <= |keys|
    ensures forall k :: k in r <==> k in keys && Shown(doc, k)
  {
    if keys == [] then []
    else (if Shown(doc, keys[0]) then [keys[0]] else []) + ShownKeys(doc, keys[1..])
  }

  /** Filtering keeps the keys' order: the shown keys of two lists one after
      the other are the shown keys of each, in the same order. */
  lemma {:induction false} ShownKeysAppend(doc: Document, a: seq<string>, b: seq<string>)
    ensures ShownKeys(doc, a + b) == ShownKeys(doc, a) + ShownKeys(doc, b)
    decreases |a|
  {
    if a == [] {
      assert a + b == b;
    } else {
      assert (a + b)[1..] == a[1..] + b;
      ShownKeysAppend(doc, a[1..], b);
    }
  }

  /** One key is shown alone exactly when `doc` shows it. */
  lemma ShownKeysSingle(doc: Document, key: string)
    ensures ShownKeys(doc, [key]) == if Shown(doc, key) then [key] else []
  {
    assert [key][1..] == [];
  }

  /** What a git analyzer reports for a version-controlled repository: the
      summary mapping and the branch, commit and contributor lists, commits
      already limited by the analyzer to the caller's commit limit. */
  datatype GitData = GitData(
    summary: seq<(string, Value)>,
    branches: seq<Branch>,
    commits: seq<Commit>,
    contributors: seq<Contributor>)

  /** The repository line of every report: `Path(repo_path).absolute().name`,
      its full text, and the generation time. */
  datatype RepoInfo = RepoInfo(name: string, path: string, generatedAt: string)

  /** Branches and contributors are capped at this many entries. */
  const ListCap: nat := 10

  /** `xs[:ListCap]` */
  function Capped<T>(xs: seq<T>): (r: seq<T>)
    ensures |r| == if |xs| <= ListCap then |xs| else ListCap
    ensures r <= xs
  {
    if |xs| <= ListCap then xs else xs[..ListCap]
  }
}
