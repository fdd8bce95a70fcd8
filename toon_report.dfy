/** The TOON document (src/writers.py:493-593): the output dictionary of the
    JSON writer rendered by `_format_value` at depth 0, lines joined by
    newlines. */
module ToonReport {
  import opened Wrappers
  import opened Text
  import opened Values
  import opened Records
  import opened FolderTree
  import opened Toon
  import opened Report

  /** The lines `TOONWriter.write` joins with `"\n"` and writes out. */
  function ToonLines(repo: RepoInfo, documents: seq<Document>, git: Option<GitData>): seq<string>
    requires NoFileAbove(PathsOf(documents))
  {
    FormatValue(Output(repo, documents, git), 0)
  }

  function ToonDocument(repo: RepoInfo, documents: seq<Document>, git: Option<GitData>): string
    requires NoFileAbove(PathsOf(documents))
  {
    Join(ToonLines(repo, documents, git), "\n")
  }

  const FileKeys: seq<string> := ["path", "language", "size_bytes", "lines", "metadata"]

  /** File records over arbitrary metadata mappings. */
  function FileRecords(documents: seq<Document>, metas: seq<seq<(string, Value)>>): seq<Value>
    requires |metas| == |documents|
  {
    seq(|documents|, k requires 0 <= k < |documents| => FileRecord(documents[k], metas[k]))
  }

  lemma FileInfosAreRecords(documents: seq<Document>)
    ensures FileInfos(documents) == FileRecords(documents, seq(|documents|, k requires 0 <= k < |documents| => Metadata(documents[k])))
  {
  }

  lemma FileRecordKeys(doc: Document, m: seq<(string, Value)>)
    ensures Keys(FileRecord(doc, m).fields) == FileKeys
    ensures KeySet(FileRecord(doc, m).fields) == {"path", "language", "size_bytes", "lines", "metadata"}
  {
    var fs := FileRecord(doc, m).fields;
    assert fs[0].0 == "path" && fs[1].0 == "language" && fs[2].0 == "size_bytes" && fs[3].0 == "lines" && fs[4].0 == "metadata";
  }

  lemma RecordsAreUniform(documents: seq<Document>, metas: seq<seq<(string, Value)>>)
    requires |metas| == |documents| && documents != []
    ensures Uniform(FileRecords(documents, metas))
  {
    var arr := FileRecords(documents, metas);
    forall k | 0 <= k < |arr|
      ensures KeySet(arr[k].fields) == KeySet(arr[0].fields)
    {
      FileRecordKeys(documents[k], metas[k]);
      FileRecordKeys(documents[0], metas[0]);
    }
  }

  /** Every file record has the same five keys, so a non-empty `files` list
      always takes the tabular layout. */
  lemma FilesAreUniform(documents: seq<Document>)
    requires documents != []
    ensures Uniform(FileInfos(documents))
    ensures LayoutOf(FileInfos(documents)) == Table
  {
    FileInfosAreRecords(documents);
    RecordsAreUniform(documents, seq(|documents|, k requires 0 <= k < |documents| => Metadata(documents[k])));
  }

  lemma RecordValues(doc: Document, m: seq<(string, Value)>)
    ensures RowValues(FileRecord(doc, m), FileKeys)
      == [Str(doc.path), Str(doc.language), Int(doc.sizeBytes), Int(doc.lines), Obj(m)]
  {
    var r := FileRecord(doc, m);
    FileRecordKeys(doc, m);
    assert DistinctKeys(r.fields);
    RowValuesOfOwnKeys(r);
    ValuesOfFive(r.fields);
  }

  lemma ValuesOfFive(fields: seq<(string, Value)>)
    requires |fields| == 5
    ensures seq(|fields|, j requires 0 <= j < |fields| => fields[j].1)
      == [fields[0].1, fields[1].1, fields[2].1, fields[3].1, fields[4].1]
  {
  }

  lemma RecordCellTexts(doc: Document, m: seq<(string, Value)>)
    ensures CellTexts([Str(doc.path), Str(doc.language), Int(doc.sizeBytes), Int(doc.lines), Obj(m)])
      == [doc.path, doc.language, IntToString(doc.sizeBytes), IntToString(doc.lines), Repr(Obj(m))]
  {
    CellTextOfStr(doc.path);
    CellTextOfStr(doc.language);
    CellTextOfObj(m);
  }

  lemma RecordRowReadsBack(documents: seq<Document>, metas: seq<seq<(string, Value)>>, indent: nat, i: nat)
    requires |metas| == |documents| && i < |documents|
    ensures var lines := FormatArray(FileRecords(documents, metas), indent);
      && |lines| == |documents| + 1
      && |lines[i + 1]| >= 2 && lines[i + 1][..2] == "  "
      && ReadCells(lines[i + 1][2..]) == Some([
           documents[i].path, documents[i].language,
           IntToString(documents[i].sizeBytes), IntToString(documents[i].lines),
           Repr(Obj(metas[i]))])
  {
    var arr := FileRecords(documents, metas);
    RecordsAreUniform(documents, metas);
    FileRecordKeys(documents[0], metas[0]);
    TableRowReadsBack(arr, indent, i);
    RecordValues(documents[i], metas[i]);
    RecordCellTexts(documents[i], metas[i]);
  }

  /** The TOON row of document `i` reads back as its path, its language, its
      size and line count in decimal, and the Python `repr` of its metadata
      mapping, the one nested value the table flattens into a cell. */
  lemma FileRowReadsBack(documents: seq<Document>, indent: nat, i: nat)
    requires i < |documents|
    ensures var lines := FormatArray(FileInfos(documents), indent);
      && |lines| == |documents| + 1
      && |lines[i + 1]| >= 2 && lines[i + 1][..2] == "  "
      && ReadCells(lines[i + 1][2..]) == Some([
           documents[i].path, documents[i].language,
           IntToString(documents[i].sizeBytes), IntToString(documents[i].lines),
           Repr(Obj(Metadata(documents[i])))])
  {
    var metas := seq(|documents|, k requires 0 <= k < |documents| => Metadata(documents[k]));
    FileInfosAreRecords(documents);
    RecordRowReadsBack(documents, metas, indent, i);
  }

  lemma FlattenHas<T>(xss: seq<seq<T>>, k: nat, x: T)
    requires k < |xss| && x in xss[k]
    ensures x in Flatten(xss)
  {
    if k > 0 {
      FlattenHas(xss[1..], k - 1, x);
    }
  }

  /** The column list of the file table, as it appears in the header:
      `path,language,size_bytes,lines,metadata`. */
  lemma JoinFileKeys()
    ensures Join(FileKeys, ",") == "path" + "," + "language" + "," + "size_bytes" + "," + "lines" + "," + "metadata"
  {
    JoinFive("path", "language", "size_bytes", "lines", "metadata", ",");
  }

  lemma FileKeysHeader(arr: seq<Value>)
    requires Uniform(arr) && Keys(arr[0].fields) == FileKeys
    ensures FieldLines(("files", Arr(arr)), 0)[0]
      == "files" + LengthTag(|arr|) + "{" + Join(FileKeys, ",") + "}:"
  {
    TableFieldFirstLine("files", arr, 0);
    assert Indent(0) == "";
  }

  lemma FilesFieldFirstLine(documents: seq<Document>)
    requires documents != []
    ensures FieldLines(("files", Arr(FileInfos(documents))), 0)[0]
      == "files" + LengthTag(|documents|) + "{" + Join(FileKeys, ",") + "}:"
  {
    var arr := FileInfos(documents);
    FilesAreUniform(documents);
    FileRecordKeys(documents[0], Metadata(documents[0]));
    FileKeysHeader(arr);
  }

  /** A TOON report of at least one file carries the line
      `files[n]{path,language,size_bytes,lines,metadata}:` announcing the
      file table. */
  lemma FilesTableHeader(repo: RepoInfo, documents: seq<Document>, git: Option<GitData>)
    requires NoFileAbove(PathsOf(documents)) && documents != []
    ensures "files" + LengthTag(|documents|) + "{" + Join(FileKeys, ",") + "}:" in ToonLines(repo, documents, git)
  {
    var fields := Output(repo, documents, git).fields;
    OutputFilesField(repo, documents, git);
    FilesFieldFirstLine(documents);
    FieldLineInObject(fields, 2, 0);
  }

  /** A dictionary's lines include the first line of each of its fields. */
  lemma FieldLineInObject(fields: seq<(string, Value)>, k: nat, indent: nat)
    requires k < |fields|
    ensures FieldLines(fields[k], indent) != []
    ensures FieldLines(fields[k], indent)[0] in FormatValue(Obj(fields), indent)
  {
    var xss := seq(|fields|, j requires 0 <= j < |fields| => FieldLines(fields[j], indent));
    FieldLinesNonEmpty(fields[k], indent);
    FlattenHas(xss, k, xss[k][0]);
  }

  lemma FieldLinesNonEmpty(field: (string, Value), indent: nat)
    ensures FieldLines(field, indent) != []
  {
  }
}
