# tria output writers, modelled in Dafny

tria scans a repository and writes a single report about it in one of four
formats: Markdown, JSON, XML or TOON (Token-Oriented Object Notation). This
project models the serialisation core of `src/writers.py`:

- `build_folder_structure`: the insertion-ordered folder tree built from the
  documents' paths.
- The three views of that tree:
  - `format_tree_md`: the box-drawing outline used in Markdown;
  - `tree_to_list`: the `structure` list of JSON and TOON;
  - `tree_to_xml`: the `<structure>` element.
- The TOON encoder: `_escape_value`, `_format_array` (tabular, inline and
  block layouts) and `_format_value`.
- The dictionary that `JsonWriter.write` and `TOONWriter.write` assemble:
  - the repository record;
  - the structure;
  - one record per file, with metadata filtered by language;
  - the optional git history, with branches and contributors capped at 10.
- The line list of `MarkdownWriter.write` and the element tree of
  `XMLWriter.write`, both without the final file write.

Modules:

| module | file | what it holds |
|---|---|---|
| `Wrappers` | wrappers.dfy | `Option`; `Then` concatenates two results that may have failed |
| `Text` | text.dfy | `str.join`, `str(int)`, `str.strip`, indentation |
| `Values` | values.dfy | Python values (`None`, bool, int, str, list, dict in insertion order), truthiness, `str()`/`repr()`, iteration |
| `Records` | records.dfy | `Document` and the git records the writers read |
| `FolderTree` | folder_tree.dfy | `Path.parts` and `build_folder_structure` |
| `TreeViews` | tree_views.dfy | `format_tree_md`, `tree_to_list`, `tree_to_xml` |
| `StructureRoundTrip` | round_trip.dfy | the structure list gives back the documents' paths |
| `Toon` | toon.dfy | the TOON encoder and a decoder for its headers and rows |
| `Report` | report.dfy | the dictionary that the JSON and TOON writers share |
| `ToonReport` | toon_report.dfy | that dictionary in TOON; the `files` table |
| `XmlTree` | xml_tree.dfy | ElementTree elements as values |
| `MarkdownReport` | markdown_report.dfy | the Markdown writer's lines |
| `XmlReport` | xml_report.dfy | the XML writer's element tree |
| `Formats` | formats.dfy | where the four writers agree and where they differ |

The loops that fill a list or an element are methods with `for` or `while`
loops: the outer loop of `build_folder_structure`, the loop of
`tree_to_xml`, the branch, commit and contributor loops of the Markdown,
JSON/TOON and XML writers, the per-file loops of all writers and the list
and `env` loops of the XML metadata. Each method is proved equal to a
function, and the properties are lemmas about that function. The loops
inside the recursive `format_tree_md`, `tree_to_list`, `_format_array` and
`_format_value` are modelled as recursive functions, since each recursive
call returns a list that the loop extends.

Some writer paths raise an exception:
- `', '.join` over a value whose iteration does not give strings (Markdown).
  A list of strings, a string and a dictionary with string keys all join;
- `.items()` on a non-dictionary `env` (Markdown and XML);
- iteration over a non-iterable list value (XML).

The model returns `None` on exactly those paths.

Three facts about the code that the model keeps:
- **Empty branches in XML.** The XML writer adds a `branches` element only
  when the list is non-empty (`src/writers.py:316`), so an empty list leaves
  no element.
- **Names in the structure list.** A directory's record holds its children
  under the key `"files"` (`src/writers.py:162`), and every key is
  snake_case (`size_bytes`, `recent_commits`).
- **The `env` default.** A Dockerfile without `env` gets the default `""`
  in JSON and TOON (`src/writers.py:258`).

## Model

| member | source | states |
|---|---|---|
| FolderTree.Split | src/writers.py:17 | splitting on `/` leaves at least one piece and no piece holds a slash |
| FolderTree.Segments | src/writers.py:17 | `Path(p).parts` has no empty part; an absolute path's root (`/` or `//`) is its first part, and every later part is a name without `/` and other than `.` |
| FolderTree.SegmentsOfJoin | src/writers.py:17 | the parts of names joined by `/` are those names, so a relative path reads back |
| FolderTree.Lookup | src/writers.py:20-22 | `part in current` holds exactly when the name is among the tree's keys |
| FolderTree.Names | src/writers.py:20 | the tree's keys in insertion order |
| FolderTree.PutLookup | src/writers.py:25 | after `current[name] = n`, `name` maps to `n` and every other key is unchanged |
| FolderTree.PutNames | src/writers.py:21 | a new key goes last; reassigning an existing key keeps its position |
| FolderTree.PutPut | src/writers.py:25 | assigning the same key twice equals the last assignment |
| FolderTree.PutEntries | src/writers.py:25 | assignment adds only the new pair |
| FolderTree.PutWellFormed | src/writers.py:21 | assignment keeps keys distinct and non-empty at every level |
| FolderTree.InsertNames | src/writers.py:19-25 | inserting a path adds its first part at the end, and only when it is new (first-encounter order) |
| FolderTree.InsertIdempotent | src/writers.py:16-25 | inserting the same path twice gives the same tree as inserting it once |
| FolderTree.InsertWellFormed | src/writers.py:19-25 | insertion keeps every level's keys distinct and non-empty |
| FolderTree.LookupEntry | src/writers.py:22 | a found key's node is an entry of the tree |
| FolderTree.BlockedByFile | src/writers.py:19-22 | the walk fails only when a proper prefix of the path is already a file (the source then indexes into `None`) |
| FolderTree.InsertAddsOnlyItsFile | src/writers.py:24-25 | inserting a path creates no file other than that path |
| FolderTree.InsertElsewhere | src/writers.py:19-25 | inserting under one top-level name leaves the other top-level subtrees unchanged |
| FolderTree.InsertBelow | src/writers.py:19-22 | inserting below a directory is inserting the rest of the path into that directory |
| FolderTree.PrefixCons | src/writers.py:19 | a proper prefix stays a proper prefix after both lose the same first part |
| FolderTree.InsertExactFiles | src/writers.py:19-25 | after insertion the files are the old files plus the path |
| FolderTree.InsertExactDirs | src/writers.py:19-25 | after insertion the directories are the old ones plus every proper prefix of the path |
| FolderTree.BuildCanInsert | src/writers.py:16-25 | under the no-file-above condition every document's walk succeeds |
| FolderTree.BuildWellFormed | src/writers.py:13-26 | the built tree has distinct, non-empty keys at every level |
| FolderTree.BuiltFilesAreGiven | src/writers.py:13-26 | every file of the tree is the part list of some document |
| FolderTree.CollisionFreeInit | src/writers.py:16-25 | dropping the last document keeps the paths collision-free |
| FolderTree.LastIsNoDir | src/writers.py:24-25 | with no collisions, the last document's path is not a directory of the tree built before it |
| FolderTree.BuildFiles | src/writers.py:13-26 | with no file/directory collisions, the tree's files are exactly the documents' part lists |
| FolderTree.BuildDirs | src/writers.py:13-26 | with no collisions, the tree's directories are exactly the proper prefixes of the documents' part lists |
| FolderTree.BuildFolderStructure | src/writers.py:13-26 | the loop over documents returns the tree `Build` describes; it requires that no path runs through an earlier file |
| TreeViews.RenderAppend | src/writers.py:35-41 | rendering the rows of two trees one after the other gives the two renderings in sequence |
| TreeViews.RenderRowNest | src/writers.py:40-41 | a row one level deeper renders as the row under the prefix extended by `"    "` or `"│   "` |
| TreeViews.RenderNest | src/writers.py:40-41 | rendering a subtree's rows one level deeper is rendering them under the extended prefix |
| TreeViews.RenderFlatten | src/writers.py:35-41 | rendering commutes with concatenating the entries' rows |
| TreeViews.FormatTreeMdRendersOutline | src/writers.py:31-42 | `format_tree_md` gives one line per outline row: prefix, a guide per ancestor (`"    "` after a last entry, `"│   "` otherwise), `└── ` for the last sibling and `├── ` otherwise, then the name |
| TreeViews.EntryLinesRendersRows | src/writers.py:35-41 | one entry's lines are the rendering of its row followed by its subtree's rows |
| TreeViews.OutlineCount | src/writers.py:31-42 | the outline has exactly one row per file and directory of the tree |
| TreeViews.LookupDistinct | src/writers.py:154 | with distinct keys, the j-th entry is what looking up its name finds |
| TreeViews.LookupIndex | src/writers.py:154 | a found name sits at some index of the tree |
| TreeViews.ListedFileRecord | src/writers.py:155-157 | a file entry lists `{"path": parent/name, "type": "file"}` |
| TreeViews.ListedDirRecord | src/writers.py:158-164 | a directory entry lists itself as `"directory"` plus everything below it, under its own path |
| TreeViews.ListedRecord | src/writers.py:155-164 | each entry's record carries its joined path and its kind |
| TreeViews.ListedItem | src/writers.py:154-165 | anything listed in the result is listed by one of its records |
| TreeViews.ListedIsReachable | src/writers.py:151-165 | every (path, type) pair in `tree_to_list` names a node of the tree at that joined path and of that kind |
| TreeViews.ListedBelow | src/writers.py:158-163 | what a directory's `files` list holds is a node below that directory |
| TreeViews.ReachableIsListed | src/writers.py:151-165 | every node of a well-formed tree appears in `tree_to_list` with its joined path and kind |
| TreeViews.TreeToXml | src/writers.py:269-279 | the recursive walk appends to the parent exactly the elements `StructureElements` describes, after its existing children, leaving its tag, attributes and text unchanged |
| TreeViews.XmlMirrorsList | src/writers.py:269-279 | the `<structure>` elements mirror the `tree_to_list` records one for one: same kind as tag, same `path`, same children |
| TreeViews.StructurePathsNonEmpty | src/writers.py:272-278 | every `file` and `directory` element of a well-formed tree has a single non-empty `path` attribute |
| StructureRoundTrip.NormalPathOfNames | src/writers.py:17 | names joined by `/` form a normal relative path |
| StructureRoundTrip.PathJoinBelow | src/writers.py:155 | joining path parts under a non-empty base gives `base/p1/.../pn` |
| StructureRoundTrip.PathJoinTop | src/writers.py:155 | at the top level, the joined path has no leading slash |
| StructureRoundTrip.ListedFilesAreDocuments | src/writers.py:151-165 | for normal collision-free paths, the `"file"` entries of the structure list are exactly the documents' paths |
| StructureRoundTrip.ListedFileIsDocument | src/writers.py:151-165 | every `"file"` entry of the structure list is the path of some document |
| StructureRoundTrip.DocumentIsListedFile | src/writers.py:151-165 | every document's path is listed as a `"file"` entry |
| StructureRoundTrip.ListedDirIsLeadingPart | src/writers.py:158-164 | every `"directory"` entry is a leading part of some document's path |
| StructureRoundTrip.PrefixIsListedDir | src/writers.py:158-164 | every proper prefix of a document's parts is listed as a directory |
| StructureRoundTrip.LeadingPartIsListedDir | src/writers.py:158-164 | every leading part of a document's path is listed as a directory |
| StructureRoundTrip.ListedDirsArePrefixes | src/writers.py:151-165 | the `"directory"` entries are exactly the leading parts of the documents' paths |
| StructureRoundTrip.CollisionFreeInitAll | src/writers.py:19-22 | collision-free paths never run through an earlier file, so the writer does not raise |
| Text.FlattenLength | src/writers.py:41 | extending by several line lists gives the sum of their lengths |
| Text.NatToStringReadsBack | src/writers.py:429 | `str(n)` is a non-empty run of decimal digits whose value is `n` |
| Text.StripLeftShortens | src/writers.py:433 | `lstrip` never lengthens a string and removes a leading whitespace character |
| Text.StripRightIsPrefix | src/writers.py:433 | `rstrip` returns a prefix and removes a trailing whitespace character |
| Text.StripChangesIff | src/writers.py:433 | `s != s.strip()` exactly when `s` starts or ends with whitespace |
| Text.Indent | src/writers.py:473 | `"  " * indent` is `2 * indent` spaces |
| Values.Get | src/writers.py:455 | `item.get(k)` finds a value exactly when `k` is a key, and what it finds is stored under `k` |
| Values.GetAt | src/writers.py:455 | the value found is the one at the key's first position |
| Values.GetDistinct | src/writers.py:455 | with distinct keys, looking up the j-th key gives the j-th value |
| Values.Iterate | src/writers.py:374 | `for x in v` works exactly for lists, strings and dicts; a list gives its items |
| Records.ShownKeys | src/writers.py:371-402 | a key is kept exactly when it is one of the given keys and `doc.meta.get(key)` is truthy; no more keys than given |
| Records.ShownKeysAppend | src/writers.py:371-402 | filtering keeps the given order: the shown keys of two key lists one after the other are each list's shown keys, in turn |
| Records.ShownKeysSingle | src/writers.py:371-402 | a single key is kept exactly when it is shown |
| Records.Capped | src/writers.py:77 | `xs[:10]` is a prefix of `xs` holding `min(len(xs), 10)` items |
| Toon.NeedsQuotesIff | src/writers.py:433 | a string is quoted exactly when it holds a comma, newline or double quote, or starts or ends with whitespace |
| Toon.PlainNeedsNoQuotes | src/writers.py:433 | a string without commas, quotes or whitespace stays bare |
| Toon.IntTextIsPlain | src/writers.py:428-429 | an integer's text is digits and a sign only, so it is never quoted |
| Toon.EscapeValueQuotesCellText | src/writers.py:422-437 | `_escape_value` is the value's unquoted text (`""` for `None`, `true`/`false`, `str(int)`, `str(x)`) quoted when needed |
| Toon.ReadQuotedDoubled | src/writers.py:435-436 | a quoted cell with doubled inner quotes reads back as the original string |
| Toon.ReadBarePlain | src/writers.py:437 | an unquoted cell reads back as itself up to the next comma |
| Toon.ReadEscapedCell | src/writers.py:433-437 | every escaped cell reads back as the string it came from |
| Toon.ReadQuotedCell | src/writers.py:433-436 | a cell that needs quotes reads back from its quoted form |
| Toon.ReadBareCell | src/writers.py:437 | a cell that needs no quotes reads back from its bare form |
| Toon.ReadEscapedRow | src/writers.py:455-456 | a comma-joined row of escaped cells splits back into exactly those cells |
| Toon.ReadValueRow | src/writers.py:462-463 | a row of escaped values reads back as the values' unquoted texts |
| Toon.FormatArray | src/writers.py:439-469 | `_format_array` returns at least one line, so `array_lines[0]` never fails |
| Toon.TableHeader | src/writers.py:451-453 | a uniform array of dicts opens with `[n]{k1,...,km}:` over the first dict's keys |
| Toon.TableFieldFirstLine | src/writers.py:478-480 | a uniform list under `key` opens with `prefix + key + [n]{keys}:` |
| Toon.ListFieldFirstLine | src/writers.py:478-480 | a list under `key` puts its first array line right after the key |
| Toon.DigitRun | src/writers.py:452 | the digits leading a header, as a prefix of it |
| Toon.DigitRunStops | src/writers.py:452 | the length tag's digit run stops at `]` |
| Toon.ReadTaggedHeader | src/writers.py:443-466 | after `[n]`, a `{` marks a table, a lone `:` a block and `: ` an inline list |
| Toon.ArrayHeaderReadsBack | src/writers.py:439-469 | every array's first line reads back as its length and layout (`[0]: ` is an inline list of none) |
| Toon.HeaderTail | src/writers.py:439-469 | the first line of every array is `[n]` followed by `{` for a table, `:` alone for a block and `: ` for an inline list |
| Toon.RowValues | src/writers.py:455 | one value per key of the first item |
| Toon.RowValuesOfOwnKeys | src/writers.py:455 | a dict with distinct keys yields its own values in order |
| Toon.CellTexts | src/writers.py:455 | one cell text per value |
| Toon.TableRowReadsBack | src/writers.py:454-456 | row k of a table is indented by two spaces and reads back as item k's values for the first item's keys |
| Toon.TableLines | src/writers.py:451-457 | a table is its header followed by exactly one row per item, in order |
| Toon.TableRowCells | src/writers.py:454-456 | a row is two spaces followed by the escaped values under the first item's keys, comma-joined |
| Toon.TableRowsHaveEveryKey | src/writers.py:449 | in a uniform array every item has each key of the first, so `item.get(k)` never falls back to `None` |
| Toon.InlineReadsBack | src/writers.py:460-463 | a non-empty list of scalars is one line whose values read back after `[n]: ` |
| Toon.BlockLineCount | src/writers.py:466-469 | a mixed array opens with `[n]:` and has one line more than its items' lines at the next depth |
| Toon.BlockItemLine | src/writers.py:466-469 | line j of item k, formatted one level deeper, sits right after the header and the lines of the items before k |
| Toon.LinesAreIndented | src/writers.py:473-491 | every line of a dict or scalar at depth d starts with 2d spaces |
| Toon.FieldLinesIndented | src/writers.py:477-486 | every line of a dict entry starts with the dict's prefix |
| Toon.ArrayFieldIndented | src/writers.py:477-481 | every line of a list under a key starts with the dictionary's prefix |
| Toon.ObjectFieldIndented | src/writers.py:482-484 | every line of a dictionary under a key starts with the outer dictionary's prefix |
| Toon.FlattenAll | src/writers.py:481 | indented line lists stay indented when joined |
| Toon.FilesTableExample | src/writers.py:471-491 | `{"files": [{path: x, lines: 5}, {path: y, lines: 7}]}` encodes as `files[2]{path,lines}:`, `  x,5`, `  y,7` |
| Report.MetadataFollowsTable | src/writers.py:246-258 | each language's metadata holds its keys in the written order, with defaults `[]` for lists and `""` for text, `env` included |
| Report.OtherLanguagesHaveNoMetadata | src/writers.py:243-258 | languages other than python, markdown, license and dockerfile get an empty metadata dict |
| Report.GitHistoryRecord | src/writers.py:192-235 | the three loops build exactly the `git_history` value |
| Report.GitHistoryCaps | src/writers.py:193-233 | `git_history` has keys summary, branches, recent_commits, contributors; branches and contributors are the first ≤ 10 records, commits all; an empty branch list gives `"branches": []` |
| Report.AssembleOutput | src/writers.py:173-260 | the writer's assembly steps build exactly the `output` dictionary |
| Report.FileInfoLoop | src/writers.py:237-260 | the loop over the documents appends exactly one file record per document, in order |
| Report.OutputKeyOrder | src/writers.py:180-235 | the output's keys are repo, structure, files, then git_history when git data is present |
| Report.OutputFilesField | src/writers.py:188 | the third field is `files` holding one record per document |
| Report.GetLeadingFields | src/writers.py:180-188 | `repo` and `files` are found at their places |
| Report.FileInfoNames | src/writers.py:238-240 | each file record carries its document's path and language |
| Report.RepoCountsFiles | src/writers.py:185 | `files_processed` is the number of documents |
| Report.OutputListsEveryFile | src/writers.py:180-260 | the output lists every document's path and language in order and counts them |
| ToonReport.FileInfosAreRecords | src/writers.py:561-584 | the TOON file records are the file records with each document's metadata |
| ToonReport.FileRecordKeys | src/writers.py:562-568 | every file record has the keys path, language, size_bytes, lines, metadata |
| ToonReport.RecordsAreUniform | src/writers.py:446-449 | file records with any metadata form a uniform table |
| ToonReport.FilesAreUniform | src/writers.py:446-449 | a non-empty `files` list is written in the tabular layout |
| ToonReport.RecordValues | src/writers.py:455 | a file row's values are path, language, size, lines and the metadata dict |
| ToonReport.RecordCellTexts | src/writers.py:431 | those values' texts, with the metadata as its Python `repr` |
| ToonReport.RecordRowReadsBack | src/writers.py:454-456 | row i of a records table reads back as document i's fields |
| ToonReport.FileRowReadsBack | src/writers.py:454-456 | row i of the `files` table reads back as document i's path, language, size, lines and `repr` of its metadata |
| ToonReport.FlattenHas | src/writers.py:477-487 | a line of one field's lines is a line of the dict's lines |
| ToonReport.JoinFileKeys | src/writers.py:452 | the file keys join to `path,language,size_bytes,lines,metadata` |
| ToonReport.FileKeysHeader | src/writers.py:478-480 | a uniform table with the file keys opens with `files[n]{path,language,size_bytes,lines,metadata}:` |
| ToonReport.FilesFieldFirstLine | src/writers.py:478-480 | the `files` field of n documents opens with `files[n]{...}:` |
| ToonReport.FilesTableHeader | src/writers.py:586-587 | with at least one document, the TOON output contains the line `files[n]{path,language,size_bytes,lines,metadata}:` |
| MarkdownReport.BranchesSection | src/writers.py:74-80 | the loop writes the heading, one `* `/`- ` line per branch among the first 10 and a blank line; nothing for no branches |
| MarkdownReport.CommitsSection | src/writers.py:83-91 | the loop writes two lines per commit, a third when it changed files, or nothing for no commits |
| MarkdownReport.ContributorsSection | src/writers.py:94-100 | the loop writes two lines for each of the first 10 contributors, or nothing for none |
| MarkdownReport.GitSection | src/writers.py:59-100 | the git history lines are the heading, the summary and the three blocks |
| MarkdownReport.JoinItemsSomeIff | src/writers.py:120 | `', '.join(v)` succeeds exactly when `v` iterates to strings only |
| MarkdownReport.JoinStrings | src/writers.py:120 | joining a list of strings separates them by `, ` |
| MarkdownReport.MetaLinesFollowKeys | src/writers.py:117-140 | the language branches write one line per key of the language's key list, with Python's classes before functions |
| MarkdownReport.DockerfileLines | src/writers.py:129-140 | a Dockerfile's lines follow image, workdir, entrypoint, cmd, env |
| MarkdownReport.DockerfileMetaLines | src/writers.py:129-140 | a Dockerfile's lines are the four text lines, then the `env` line |
| MarkdownReport.KeysLinesSingle | src/writers.py:119-140 | the lines for one key are that key's line |
| MarkdownReport.KeyLineShape | src/writers.py:119-140 | a key gives one line exactly when its value is truthy, and the line starts with the key's caption |
| MarkdownReport.KeysLinesShape | src/writers.py:117-140 | the metadata lines are one per shown key, in order, each starting with that key's caption |
| MarkdownReport.KeyLineSomeIff | src/writers.py:119-140 | a key's line fails exactly when the key is shown and its value cannot be printed |
| MarkdownReport.KeysLinesSomeIff | src/writers.py:117-140 | the metadata lines fail exactly when some shown key's value cannot be joined or its `env` is not a dict |
| MarkdownReport.FileSectionsSomeIff | src/writers.py:112-142 | the Files section is written exactly when every document's metadata can be printed |
| MarkdownReport.FileSectionsStop | src/writers.py:112-142 | one failing document makes the writer fail |
| MarkdownReport.FileSectionsHaveHeadings | src/writers.py:113 | every document has its `### path` heading |
| MarkdownReport.FileSectionSomeIff | src/writers.py:113-142 | one file's section is written exactly when its metadata lines are, and it opens with `### path` |
| MarkdownReport.OpeningLines | src/writers.py:53-110 | the title, git history and folder block come before the files |
| MarkdownReport.FileSectionLoop | src/writers.py:112-142 | the loop over documents writes each file section in order and stops at the first failure |
| MarkdownReport.MarkdownContent | src/writers.py:50-142 | the writer's line list is the opening followed by the file sections |
| MarkdownReport.FolderBlock | src/writers.py:102-110 | the folder block is the fenced outline with one line per tree node, between the git history and the file sections |
| MarkdownReport.CommitsLinesLength | src/writers.py:86-90 | at least two lines per commit |
| MarkdownReport.ContributorsLinesLength | src/writers.py:97-99 | exactly two lines per contributor |
| MarkdownReport.GitListsCapped | src/writers.py:74-100 | at most 10 branch lines and 10 contributors; line k of the branch block is branch k, marked `*` exactly when it is current |
| MarkdownReport.BranchesCapped | src/writers.py:74-80 | the branch block holds the heading, at most ten branch lines in order and a blank line |
| MarkdownReport.BranchLineMark | src/writers.py:78-79 | a branch line starts with `*` for the current branch and `-` for any other |
| MarkdownReport.CommitsLinesNotHeading | src/writers.py:86-90 | no commit line is the branch heading |
| MarkdownReport.ContributorsLinesNotHeading | src/writers.py:97-99 | no contributor line is the branch heading |
| MarkdownReport.SummaryLinesNotHeading | src/writers.py:64-71 | no summary line is the branch heading |
| MarkdownReport.BranchesHeadingIff | src/writers.py:74-80 | `### Branches` appears exactly when there are branches |
| MarkdownReport.BranchesHeadingPlace | src/writers.py:72-86 | with branches, `### Branches` directly follows the summary lines |
| MarkdownReport.NoBranchesNoHeading | src/writers.py:72-108 | without branches no Git History line reads `### Branches` |
| XmlReport.BranchesChild | src/writers.py:315-323 | the loop builds a `branches` element with one `branch` per branch among the first 10, or nothing |
| XmlReport.CommitsChild | src/writers.py:326-338 | the loop builds a `recent_commits` element with one `commit` per commit, or nothing |
| XmlReport.ContributorsChild | src/writers.py:341-350 | the loop builds a `contributors` element for the first 10, or nothing |
| XmlReport.GitHistoryElement | src/writers.py:300-350 | `git_history` is the summary followed by the non-empty lists |
| XmlReport.ItemsElement | src/writers.py:373-379 | the loop builds a wrapper with one text child per item |
| XmlReport.EnvVariables | src/writers.py:397-402 | one `variable` per `env` entry, with its name as attribute and its value as text |
| XmlReport.AddList | src/writers.py:372-384 | a list key adds its wrapper, adds nothing when falsy, or fails when the value cannot be iterated |
| XmlReport.AddText | src/writers.py:386-396 | a text key adds one element when truthy |
| XmlReport.PythonMetadata | src/writers.py:371-379 | Python metadata is functions, then classes |
| XmlReport.DockerfileMetadata | src/writers.py:388-402 | Dockerfile metadata follows image, workdir, entrypoint, cmd, env |
| XmlReport.MetadataOf | src/writers.py:369-402 | the `metadata` element per language |
| XmlReport.KeysChildrenSingle | src/writers.py:371-402 | the children for one key are that key's children |
| XmlReport.DockerfileChildren | src/writers.py:388-402 | a Dockerfile's metadata children follow its five keys |
| XmlReport.DockerfileMetaChildren | src/writers.py:388-402 | a Dockerfile's metadata children are the four text elements, then the `env` element |
| XmlReport.MetaChildrenFollowKeys | src/writers.py:369-402 | the language branches add one child per key of the language's key list, functions before classes |
| XmlReport.KeyChildTags | src/writers.py:371-402 | a key adds an element tagged with the key exactly when it is shown |
| XmlReport.KeysChildrenTags | src/writers.py:369-402 | the metadata children's tags are exactly the shown keys, in order |
| XmlReport.KeyChildSomeIff | src/writers.py:371-402 | a key fails exactly when it is shown and its value cannot be iterated |
| XmlReport.KeysChildrenSomeIff | src/writers.py:369-402 | the metadata fails exactly when some shown key's value cannot be iterated as the writer does |
| XmlReport.ListItems | src/writers.py:372-384 | a shown list becomes one wrapper with one `function`/`class`/`header` element per item |
| XmlReport.FileElementsSomeIff | src/writers.py:359-402 | the files element is built exactly when every document's metadata is |
| XmlReport.FileElementsInOrder | src/writers.py:361 | one `file` element per document, in order |
| XmlReport.FileElementsStop | src/writers.py:361-402 | one failing document makes the writer fail |
| XmlReport.FileElementOf | src/writers.py:362-402 | a file element is path, language, size_bytes, lines and metadata |
| XmlReport.FilesLoop | src/writers.py:359-402 | the loop over documents builds the `files` element, or fails |
| XmlReport.OpeningElements | src/writers.py:290-356 | the root holds info, git_history when present, and structure |
| XmlReport.XmlRepository | src/writers.py:287-402 | the writer's root element is `repository` over info, optional git_history, structure and files |
| XmlReport.RepositoryChildTags | src/writers.py:290-359 | the root's children are tagged info, [git_history], structure, files |
| XmlReport.GitChildTags | src/writers.py:301-350 | `git_history` holds summary and then only the non-empty lists; `branches` appears exactly when there are branches |
| XmlReport.GitListsCapped | src/writers.py:316-350 | the branches and contributors elements hold at most 10 children; a branch is marked `current="true"` exactly when it is current |
| XmlReport.StructureMirrorsList | src/writers.py:352-356 | the `structure` element mirrors `tree_to_list` of the folder tree, and every path is non-empty |
| XmlReport.FilesPerDocument | src/writers.py:359-366 | the `files` element has one `file` per document, with its path and language first |
| XmlReport.FileElementHead | src/writers.py:362-366 | a file element starts with its path and language |
| Formats.EmptyBranches | src/writers.py:195-316 | with no branches, JSON and TOON keep `"branches": []` while Markdown writes no heading and XML no element |
| Formats.ShownMatchesDictionary | src/writers.py:119-258 | Markdown and XML report a metadata key exactly when the JSON metadata holds a truthy value for it |
| Formats.MetadataKeyOrders | src/writers.py:118-379 | XML orders metadata keys as JSON does; Markdown does too, except that Python's classes come before functions |

## Left out

- File writes, logging (`log_tree`, `logger.info`) and `'\n'.join` written to disk are I/O. The model stops at the line list (Markdown, TOON), the dictionary (JSON) or the element tree (XML).
- `datetime.now()`, `strftime`, `isoformat` and `Path(repo_path).absolute()` depend on the clock and the filesystem. They are opaque string inputs (`RepoInfo`, `Timestamp`).
- `json.dump`, `ET.tostring`, minidom pretty-printing and the cut of the XML declaration are library serialisers. The model ends at the value each receives.
- Floats are not modelled. `str(float)` in `_escape_value` has no counterpart, and `Value` holds integers only.
- `Path.parts` is modelled for POSIX paths: empty and `.` pieces are dropped, and a leading root is kept as a part. Windows drive letters are not modelled, and `..` is kept as a plain name. The round trip from structure list to document paths is proved only for relative paths whose parts are plain names.
- FolderTree.BuildFolderStructure requires that no path runs through an earlier document's file. In the source such input makes the inner walk index into `None` and raise a `TypeError`, which the model does not return.
- Nested dictionaries updated in place through the `current` cursor are modelled as a value that is rebuilt. This loses aliasing, not order: insertion order is kept.
- The loops of `format_tree_md`, `tree_to_list`, `_format_array` and `_format_value` are recursive functions over values. The local list each loop extends is built by concatenation in the same order; only its growth in place is not captured.
- XmlTree.Append: `ET.SubElement` mutates the parent, and a child stays shared with it. The model rebuilds the parent as a value instead.
- `repr` of characters above U+00FF that Python escapes as non-printable is not modelled. They are written as themselves.
- `GitAnalyzer` is not part of this model. Its answers are plain inputs, and `commits_limit` is applied by the analyzer before the writers see the commits.
- The XML serialiser's failure on a non-string `.text` (an integer summary value, for example) happens in `ET.tostring` and is not modelled.
- MarkdownReport.CommitsLinesLength states only a lower bound (two lines per commit). The optional third line depends on each commit's `files_changed`.
- XmlReport.GitListsCapped requires non-empty branch and contributor lists, because an empty list has no element to measure. Formats.EmptyBranches covers the empty case.
- The tria.py command line (argument parsing, reader and chunker calls, writer selection) is not part of this model.
