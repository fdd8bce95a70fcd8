/** The TOON encoder (src/writers.py:416-491): scalar escaping, the three
    array layouts and the recursive rendering of nested dictionaries into
    indented lines. */
module Toon {
  import opened Wrappers
  import opened Text
  import opened Values

  // ---------------------------------------------------------------------------
  // _escape_value

  /** A string is quoted when it holds a comma, a newline or a double quote,
      or when `strip()` would change it. */
  predicate NeedsQuotes(s: string)
  {
    ',' in s || '\n' in s || s != Strip(s) || '"' in s
  }

  /** `s.replace('"', '""')` */
  function DoubleQuotes(s: string): string
  {
    if s == [] then []
    else (if s[0] == '"' then "\"\"" else [s[0]]) + DoubleQuotes(s[1..])
  }

  function QuoteIfNeeded(s: string): string
  {
    if NeedsQuotes(s) then "\"" + DoubleQuotes(s) + "\"" else s
  }

  /** `_escape_value(value)`: `None` is empty, booleans are checked before
      integers and print in lower case, integers print in decimal, and
      everything else goes through `str()` and is quoted when needed. */
  function EscapeValue(v: Value): string
  {
    match v
    case Null => ""
    case Bool(b) => if b then "true" else "false"
    case Int(i) => IntToString(i)
    case _ => QuoteIfNeeded(PyStr(v))
  }

  /** The text a TOON cell stands for once its quoting is undone. */
  function CellText(v: Value): string
  {
    match v
    case Null => ""
    case Bool(b) => if b then "true" else "false"
    case Int(i) => IntToString(i)
    case _ => PyStr(v)
  }

  /** Quoting happens exactly for the strings that hold `,`, a newline or
      `"`, or that begin or end with whitespace. */
  lemma NeedsQuotesIff(s: string)
    ensures NeedsQuotes(s) <==>
      ',' in s || '\n' in s || '"' in s || (s != [] && (IsSpace(s[0]) || IsSpace(s[|s| - 1])))
  {
    StripChangesIff(s);
  }

  /** Text made of characters that are neither delimiters nor whitespace is
      never quoted. */
  lemma PlainNeedsNoQuotes(s: string)
    requires forall k :: 0 <= k < |s| ==> s[k] != ',' && s[k] != '"' && !IsSpace(s[k])
    ensures !NeedsQuotes(s)
  {
    NeedsQuotesIff(s);
    assert '\n' !in s by {
      forall k | 0 <= k < |s| ensures s[k] != '\n' {
        assert !IsSpace(s[k]);
      }
    }
  }

  lemma IntTextIsPlain(i: int)
    ensures forall k :: 0 <= k < |IntToString(i)| ==> IntToString(i)[k] == '-' || IsDigit(IntToString(i)[k])
  {
    if i < 0 {
      var d := NatToString(-i);
      NatToStringReadsBack(-i);
      assert IntToString(i) == "-" + d;
      forall k | 1 <= k < |IntToString(i)|
        ensures IsDigit(IntToString(i)[k])
      {
        assert IntToString(i)[k] == d[k - 1];
      }
    } else {
      NatToStringReadsBack(i);
    }
  }

  /** Every escaped value is its cell text, quoted exactly when needed:
      `None`, booleans and integers never need quotes. */
  lemma EscapeValueQuotesCellText(v: Value)
    ensures EscapeValue(v) == QuoteIfNeeded(CellText(v))
  {
    match v
    case Null =>
      PlainNeedsNoQuotes("");
    case Bool(b) =>
      PlainNeedsNoQuotes(if b then "true" else "false");
    case Int(i) =>
      IntTextIsPlain(i);
      PlainNeedsNoQuotes(IntToString(i));
    case _ =>
  }

  // A reader for the cells `_escape_value` writes: the partner that shows
  // the escaping loses nothing.

  /** Reads a quoted cell whose opening quote is already consumed: `""`
      stands for `"`, a lone `"` closes the cell. */
  function ReadQuoted(t: string): (r: Option<(string, string)>)
    ensures r.Some? ==> |r.value.1| < |t|
  {
    if t == [] then None
    else if t[0] == '"' then
      if |t| >= 2 && t[1] == '"' then
        match ReadQuoted(t[2..])
        case None => None
        case Some((c, rest)) => Some(("\"" + c, rest))
      else Some(("", t[1..]))
    else
      match ReadQuoted(t[1..])
      case None => None
      case Some((c, rest)) => Some(([t[0]] + c, rest))
  }

  /** Reads a bare cell: everything up to the next comma. */
  function ReadBare(t: string): (r: (string, string))
    ensures |r.1| <= |t|
  {
    if t == [] || t[0] == ',' then ("", t)
    else
      var (c, rest) := ReadBare(t[1..]);
      ([t[0]] + c, rest)
  }

  function ReadCell(t: string): (r: Option<(string, string)>)
    ensures r.Some? ==> |r.value.1| <= |t|
  {
    if t != [] && t[0] == '"' then ReadQuoted(t[1..]) else Some(ReadBare(t))
  }

  /** Splits a comma-separated row into its cells. */
  function ReadCells(t: string): Option<seq<string>>
    decreases |t|
  {
    match ReadCell(t)
    case None => None
    case Some((c, rest)) =>
      if rest == [] then Some([c])
      else if rest[0] == ',' then
        match ReadCells(rest[1..])
        case None => None
        case Some(cs) => Some([c] + cs)
      else None
  }

  predicate EndsCell(rest: string)
  {
    rest == [] || rest[0] == ','
  }

  lemma {:induction false} ReadQuotedDoubled(s: string, rest: string)
    requires EndsCell(rest)
    ensures ReadQuoted(DoubleQuotes(s) + "\"" + rest) == Some((s, rest))
  {
    if s == [] {
      assert DoubleQuotes(s) + "\"" + rest == ['"'] + rest;
    } else {
      var u := DoubleQuotes(s[1..]) + "\"" + rest;
      ReadQuotedDoubled(s[1..], rest);
      var head := if s[0] == '"' then "\"\"" else [s[0]];
      ConcatAssoc(head, DoubleQuotes(s[1..]), "\"", rest);
      if s[0] == '"' {
        ReadQuotedPair(u);
      } else {
        ReadQuotedChar(s[0], u);
      }
      assert s == [s[0]] + s[1..];
    }
  }

  /** A doubled quote inside a quoted cell reads as one quote. */
  lemma ReadQuotedPair(u: string)
    requires ReadQuoted(u).Some?
    ensures ReadQuoted("\"\"" + u) == Some(("\"" + ReadQuoted(u).value.0, ReadQuoted(u).value.1))
  {
    assert ("\"\"" + u)[2..] == u;
  }

  /** Any other character inside a quoted cell reads as itself. */
  lemma ReadQuotedChar(c: char, u: string)
    requires c != '"' && ReadQuoted(u).Some?
    ensures ReadQuoted([c] + u) == Some(([c] + ReadQuoted(u).value.0, ReadQuoted(u).value.1))
  {
    assert ([c] + u)[1..] == u;
  }

  lemma {:induction false} ReadBarePlain(s: string, rest: string)
    requires ',' !in s && EndsCell(rest)
    ensures ReadBare(s + rest) == (s, rest)
  {
    if s != [] {
      ReadBarePlain(s[1..], rest);
      assert (s + rest)[1..] == s[1..] + rest;
      assert s == [s[0]] + s[1..];
    } else {
      assert s + rest == rest;
    }
  }

  /** An escaped cell followed by a comma or the end of the row reads back
      as the text that was escaped. */
  lemma ReadEscapedCell(s: string, rest: string)
    requires EndsCell(rest)
    ensures ReadCell(QuoteIfNeeded(s) + rest) == Some((s, rest))
  {
    if NeedsQuotes(s) {
      ReadQuotedCell(s, rest);
    } else {
      ReadBareCell(s, rest);
    }
  }

  lemma ReadQuotedCell(s: string, rest: string)
    requires EndsCell(rest) && NeedsQuotes(s)
    ensures ReadCell(QuoteIfNeeded(s) + rest) == Some((s, rest))
  {
    var t := QuoteIfNeeded(s) + rest;
    assert t == "\"" + (DoubleQuotes(s) + "\"" + rest);
    assert t[1..] == DoubleQuotes(s) + "\"" + rest;
    ReadQuotedDoubled(s, rest);
  }

  lemma ReadBareCell(s: string, rest: string)
    requires EndsCell(rest) && !NeedsQuotes(s)
    ensures ReadCell(QuoteIfNeeded(s) + rest) == Some((s, rest))
  {
    ReadBarePlain(s, rest);
    if s == [] {
      assert s + rest == rest;
    } else {
      assert s[0] in s;
      assert (s + rest)[0] == s[0];
    }
  }

  /** The comma-joined escapes of the texts `ss`. */
  function EscapedRow(ss: seq<string>): string
  {
    Join(seq(|ss|, k requires 0 <= k < |ss| => QuoteIfNeeded(ss[k])), ",")
  }

  /** A non-empty row of escaped texts splits back into exactly those texts. */
  lemma {:induction false} ReadEscapedRow(ss: seq<string>)
    requires ss != []
    ensures ReadCells(EscapedRow(ss)) == Some(ss)
  {
    if |ss| == 1 {
      ReadEscapedCell(ss[0], "");
      assert EscapedRow(ss) == QuoteIfNeeded(ss[0]) + "";
      assert ss == [ss[0]];
    } else {
      var tail := EscapedRow(ss[1..]);
      EscapedRowCons(ss);
      ReadEscapedCell(ss[0], "," + tail);
      ReadEscapedRow(ss[1..]);
      ReadCellsCons(QuoteIfNeeded(ss[0]) + ("," + tail), ss[0], tail, ss[1..]);
      assert ss == [ss[0]] + ss[1..];
    }
  }

  lemma EscapedRowCons(ss: seq<string>)
    requires |ss| >= 2
    ensures EscapedRow(ss) == QuoteIfNeeded(ss[0]) + ("," + EscapedRow(ss[1..]))
  {
    var cells := seq(|ss|, k requires 0 <= k < |ss| => QuoteIfNeeded(ss[k]));
    assert cells[1..] == seq(|ss| - 1, k requires 0 <= k < |ss| - 1 => QuoteIfNeeded(ss[1..][k]));
  }

  /** A cell followed by a comma, then the rest of the row. */
  lemma ReadCellsCons(t: string, c: string, tail: string, cs: seq<string>)
    requires ReadCell(t) == Some((c, "," + tail)) && ReadCells(tail) == Some(cs)
    ensures ReadCells(t) == Some([c] + cs)
  {
    assert ("," + tail)[1..] == tail;
  }

  /** A row of escaped values, read back, gives each value's cell text. */
  lemma ReadValueRow(vs: seq<Value>)
    requires vs != []
    ensures ReadCells(Join(seq(|vs|, k requires 0 <= k < |vs| => EscapeValue(vs[k])), ","))
      == Some(seq(|vs|, k requires 0 <= k < |vs| => CellText(vs[k])))
  {
    var ss := seq(|vs|, k requires 0 <= k < |vs| => CellText(vs[k]));
    forall k | 0 <= k < |vs|
      ensures EscapeValue(vs[k]) == QuoteIfNeeded(ss[k])
    {
      EscapeValueQuotesCellText(vs[k]);
    }
    assert seq(|vs|, k requires 0 <= k < |vs| => EscapeValue(vs[k]))
      == seq(|ss|, k requires 0 <= k < |ss| => QuoteIfNeeded(ss[k]));
    ReadEscapedRow(ss);
  }

  // ---------------------------------------------------------------------------
  // _format_array and _format_value

  predicate AllObjects(arr: seq<Value>)
  {
    forall k :: 0 <= k < |arr| ==> arr[k].Obj?
  }

  /** Every item is a dictionary with the key set of the first. */
  predicate Uniform(arr: seq<Value>)
  {
    && arr != [] && AllObjects(arr)
    && forall k :: 0 <= k < |arr| ==> KeySet(arr[k].fields) == KeySet(arr[0].fields)
  }

  /** No item is a list or a dictionary. */
  predicate AllScalars(arr: seq<Value>)
  {
    forall k :: 0 <= k < |arr| ==> IsScalar(arr[k])
  }

  /** `[n]`, the length tag every array header starts with. */
  function LengthTag(n: nat): string
  {
    "[" + NatToString(n) + "]"
  }

  /** One row of the tabular layout: `item.get(k)` escaped for every key of
      the first item, comma-joined, indented by two spaces. */
  function TableRow(item: Value, keys: seq<string>): string
    requires item.Obj?
  {
    "  " + Join(seq(|keys|, j requires 0 <= j < |keys| => EscapeValue(Get(item.fields, keys[j]).GetOr(Null))), ",")
  }

  /** `_format_array(arr, indent)` */
  function FormatArray(arr: seq<Value>, indent: nat): (lines: seq<string>)
    ensures |lines| >= 1
    decreases Arr(arr), 0
  {
    if arr == [] then ["[0]: "]
    else if Uniform(arr) then
      var keys := Keys(arr[0].fields);
      [LengthTag(|arr|) + "{" + Join(keys, ",") + "}:"]
      + seq(|arr|, k requires 0 <= k < |arr| => TableRow(arr[k], keys))
    else if AllScalars(arr) then
      [LengthTag(|arr|) + ": " + Join(seq(|arr|, k requires 0 <= k < |arr| => EscapeValue(arr[k])), ",")]
    else
      [LengthTag(|arr|) + ":"]
      + Flatten(seq(|arr|, k requires 0 <= k < |arr| => FormatValue(arr[k], indent + 1)))
  }

  /** `_format_value(value, indent)` */
  function FormatValue(v: Value, indent: nat): seq<string>
    decreases v, 1
  {
    match v
    case Obj(fields) => Flatten(seq(|fields|, k requires 0 <= k < |fields| => FieldLines(fields[k], indent)))
    case Arr(items) => FormatArray(items, indent)
    case _ => [Indent(indent) + EscapeValue(v)]
  }

  /** The lines of one `key: value` pair of a dictionary at depth `indent`.
      A list's first line follows the key directly and every later line gets
      the dictionary's prefix on top of its own indentation. */
  function FieldLines(field: (string, Value), indent: nat): seq<string>
    decreases field, 2
  {
    var (key, val) := field;
    var prefix := Indent(indent);
    match val
    case Arr(items) =>
      var a := FormatArray(items, indent);
      [prefix + key + a[0]] + seq(|a| - 1, j requires 0 <= j < |a| - 1 => prefix + a[j + 1])
    case Obj(_) => [prefix + key + ":"] + FormatValue(val, indent + 1)
    case _ => [prefix + key + ": " + EscapeValue(val)]
  }

  /** The header of a table lists the first item's keys. */
  lemma TableHeader(arr: seq<Value>, indent: nat)
    requires Uniform(arr)
    ensures FormatArray(arr, indent)[0] == LengthTag(|arr|) + "{" + Join(Keys(arr[0].fields), ",") + "}:"
  {
  }

  /** A table under a key: the key, the length tag and the key list share
      the first line. */
  lemma TableFieldFirstLine(key: string, arr: seq<Value>, indent: nat)
    requires Uniform(arr)
    ensures FieldLines((key, Arr(arr)), indent)[0]
      == Indent(indent) + key + LengthTag(|arr|) + "{" + Join(Keys(arr[0].fields), ",") + "}:"
  {
    ListFieldFirstLine(key, arr, indent);
    TableHeader(arr, indent);
    ConcatPrepend(Indent(indent) + key, LengthTag(|arr|), "{", Join(Keys(arr[0].fields), ","), "}:");
  }

  /** A list under a key starts on the key's own line. */
  lemma ListFieldFirstLine(key: string, items: seq<Value>, indent: nat)
    ensures FieldLines((key, Arr(items)), indent)[0] == Indent(indent) + key + FormatArray(items, indent)[0]
  {
  }

  lemma CellTextOfStr(s: string)
    ensures CellText(Str(s)) == s
  {
  }

  lemma CellTextOfObj(fields: seq<(string, Value)>)
    ensures CellText(Obj(fields)) == Repr(Obj(fields))
  {
  }

  // ---------------------------------------------------------------------------
  // Reading an array header back

  datatype Layout = Table | Inline | Block

  /** The layout `_format_array` picks; the empty array reads as an inline
      array of no values. */
  function LayoutOf(arr: seq<Value>): Layout
  {
    if Uniform(arr) then Table else if AllScalars(arr) then Inline else Block
  }

  /** The leading run of digits of `s`. */
  function DigitRun(s: string): (r: string)
    ensures |r| <= |s| && r == s[..|r|]
    ensures forall k :: 0 <= k < |r| ==> IsDigit(r[k])
  {
    if s != [] && IsDigit(s[0]) then [s[0]] + DigitRun(s[1..]) else []
  }

  /** Reads `[n]` and what follows it: `{` opens a table's key list, a bare
      `:` announces a block, `: ` an inline list. */
  function ReadHeader(line: string): Option<(nat, Layout)>
  {
    if line == [] || line[0] != '[' then None
    else
      var d := DigitRun(line[1..]);
      var rest := line[1 + |d|..];
      if d == [] || rest == [] || rest[0] != ']' then None
      else
        var tail := rest[1..];
        if tail != [] && tail[0] == '{' then Some((DigitsValue(d), Table))
        else if tail == ":" then Some((DigitsValue(d), Block))
        else if |tail| >= 2 && tail[..2] == ": " then Some((DigitsValue(d), Inline))
        else None
  }

  lemma {:induction false} DigitRunStops(d: string, rest: string)
    requires forall k :: 0 <= k < |d| ==> IsDigit(d[k])
    requires rest != [] && !IsDigit(rest[0])
    ensures DigitRun(d + rest) == d
  {
    if d == [] {
      assert d + rest == rest;
    } else {
      DigitRunStops(d[1..], rest);
      assert (d + rest)[1..] == d[1..] + rest;
      assert d == [d[0]] + d[1..];
    }
  }

  /** What follows the length tag of a header in each layout. */
  predicate Announces(tail: string, layout: Layout)
  {
    match layout
    case Table => tail != [] && tail[0] == '{'
    case Block => tail == ":"
    case Inline => |tail| >= 2 && tail[..2] == ": "
  }

  lemma ReadTaggedHeader(n: nat, tail: string, layout: Layout)
    requires Announces(tail, layout)
    ensures ReadHeader(LengthTag(n) + tail) == Some((n, layout))
  {
    var line := LengthTag(n) + tail;
    var s := NatToString(n);
    NatToStringReadsBack(n);
    assert line[1..] == s + ("]" + tail);
    DigitRunStops(s, "]" + tail);
    assert line[1 + |s|..] == "]" + tail;
  }

  /** The first line of every formatted array announces its length and its
      layout to a reader. */
  lemma ArrayHeaderReadsBack(arr: seq<Value>, indent: nat)
    ensures ReadHeader(FormatArray(arr, indent)[0]) == Some((|arr|, LayoutOf(arr)))
  {
    var layout := LayoutOf(arr);
    var tail := HeaderTail(arr, indent, layout);
    ReadTaggedHeader(|arr|, tail, layout);
  }

  /** The first line of a formatted array is its length tag, then what
      announces the layout. */
  lemma HeaderTail(arr: seq<Value>, indent: nat, layout: Layout) returns (tail: string)
    requires layout == LayoutOf(arr)
    ensures FormatArray(arr, indent)[0] == LengthTag(|arr|) + tail
    ensures Announces(tail, layout)
  {
    if arr == [] {
      assert NatToString(0) == "0";
      tail := ": ";
    } else if layout == Table {
      TableHeader(arr, indent);
      ConcatAssoc(LengthTag(|arr|), "{", Join(Keys(arr[0].fields), ","), "}:");
      tail := "{" + Join(Keys(arr[0].fields), ",") + "}:";
    } else if layout == Inline {
      tail := InlineHeader(arr, indent);
    } else {
      BlockHeader(arr, indent);
      tail := ":";
    }
  }

  lemma InlineHeader(arr: seq<Value>, indent: nat) returns (tail: string)
    requires arr != [] && !Uniform(arr) && AllScalars(arr)
    ensures tail == ": " + Join(seq(|arr|, k requires 0 <= k < |arr| => EscapeValue(arr[k])), ",")
    ensures FormatArray(arr, indent)[0] == LengthTag(|arr|) + tail
  {
    tail := ": " + Join(seq(|arr|, k requires 0 <= k < |arr| => EscapeValue(arr[k])), ",");
  }

  lemma BlockHeader(arr: seq<Value>, indent: nat)
    requires arr != [] && !Uniform(arr) && !AllScalars(arr)
    ensures FormatArray(arr, indent)[0] == LengthTag(|arr|) + ":"
  {
  }

  /** `item.get(k)` for every key, `None` where it is missing. */
  function RowValues(item: Value, keys: seq<string>): (vs: seq<Value>)
    requires item.Obj?
    ensures |vs| == |keys|
  {
    seq(|keys|, j requires 0 <= j < |keys| => Get(item.fields, keys[j]).GetOr(Null))
  }

  /** Looking up a dictionary's own keys in order gives its values in order. */
  lemma RowValuesOfOwnKeys(item: Value)
    requires item.Obj? && DistinctKeys(item.fields)
    ensures RowValues(item, Keys(item.fields)) == seq(|item.fields|, j requires 0 <= j < |item.fields| => item.fields[j].1)
  {
    forall j | 0 <= j < |item.fields|
      ensures RowValues(item, Keys(item.fields))[j] == item.fields[j].1
    {
      GetDistinct(item.fields, j);
    }
  }

  function CellTexts(vs: seq<Value>): (ts: seq<string>)
    ensures |ts| == |vs|
  {
    seq(|vs|, j requires 0 <= j < |vs| => CellText(vs[j]))
  }

  /** In the tabular layout, row `k` holds, for every key of the first item
      in order, the cell text of item `k`'s value under that key, and a reader
      splits it back into exactly those texts. */
  lemma TableRowReadsBack(arr: seq<Value>, indent: nat, k: nat)
    requires Uniform(arr) && k < |arr| && arr[0].fields != []
    ensures |FormatArray(arr, indent)| == |arr| + 1
    ensures FormatArray(arr, indent)[k + 1][..2] == "  "
    ensures ReadCells(FormatArray(arr, indent)[k + 1][2..]) == Some(CellTexts(RowValues(arr[k], Keys(arr[0].fields))))
  {
    var keys := Keys(arr[0].fields);
    TableLines(arr, indent);
    TableRowCells(arr[k], keys);
    ReadValueRow(RowValues(arr[k], keys));
  }

  /** The tabular layout: the header, then one row per item. */
  lemma TableLines(arr: seq<Value>, indent: nat)
    requires Uniform(arr)
    ensures |FormatArray(arr, indent)| == |arr| + 1
    ensures forall k :: 0 <= k < |arr| ==> FormatArray(arr, indent)[k + 1] == TableRow(arr[k], Keys(arr[0].fields))
  {
  }

  /** A row is two spaces, then the escaped values under the keys. */
  lemma TableRowCells(item: Value, keys: seq<string>)
    requires item.Obj?
    ensures TableRow(item, keys)[..2] == "  "
    ensures var vs := RowValues(item, keys);
      TableRow(item, keys)[2..] == Join(seq(|vs|, j requires 0 <= j < |vs| => EscapeValue(vs[j])), ",")
  {
    var vs := RowValues(item, keys);
    assert seq(|keys|, j requires 0 <= j < |keys| => EscapeValue(Get(item.fields, keys[j]).GetOr(Null)))
      == seq(|vs|, j requires 0 <= j < |vs| => EscapeValue(vs[j]));
  }

  /** In a uniform table every row has a value under every key: none reads
      as a missing `None`. */
  lemma TableRowsHaveEveryKey(arr: seq<Value>, k: nat, j: nat)
    requires Uniform(arr) && k < |arr| && j < |arr[0].fields|
    ensures Get(arr[k].fields, arr[0].fields[j].0).Some?
  {
    assert arr[0].fields[j].0 in KeySet(arr[0].fields);
  }

  /** The inline layout is one line whose values read back in order. */
  lemma InlineReadsBack(arr: seq<Value>, indent: nat)
    requires arr != [] && !Uniform(arr) && AllScalars(arr)
    ensures |FormatArray(arr, indent)| == 1
    ensures ReadCells(FormatArray(arr, indent)[0][|LengthTag(|arr|)| + 2..]) ==
      Some(seq(|arr|, k requires 0 <= k < |arr| => CellText(arr[k])))
  {
    var body := Join(seq(|arr|, k requires 0 <= k < |arr| => EscapeValue(arr[k])), ",");
    assert FormatArray(arr, indent)[0] == LengthTag(|arr|) + ": " + body;
    assert FormatArray(arr, indent)[0][|LengthTag(|arr|)| + 2..] == body;
    ReadValueRow(arr);
  }

  /** The number of lines the first `k` items of a block array take, each
      formatted one level deeper. */
  function LinesBefore(arr: seq<Value>, indent: nat, k: nat): nat
    requires k <= |arr|
  {
    Sum(seq(k, i requires 0 <= i < k => |FormatValue(arr[i], indent + 1)|))
  }

  /** A block array opens with its `[n]:` header line and then takes the
      lines of all its items. */
  lemma BlockLineCount(arr: seq<Value>, indent: nat)
    requires LayoutOf(arr) == Block
    ensures FormatArray(arr, indent)[0] == LengthTag(|arr|) + ":"
    ensures |FormatArray(arr, indent)| == 1 + LinesBefore(arr, indent, |arr|)
  {
    var xss := seq(|arr|, k requires 0 <= k < |arr| => FormatValue(arr[k], indent + 1));
    FlattenLength(xss, seq(|arr|, k requires 0 <= k < |arr| => |FormatValue(arr[k], indent + 1)|));
  }

  /** After the header, a block array holds each item's own lines one level
      deeper, in order: line `j` of item `k` follows the header and the
      lines of the items before `k`. */
  lemma BlockItemLine(arr: seq<Value>, indent: nat, k: nat, j: nat)
    requires LayoutOf(arr) == Block && k < |arr| && j < |FormatValue(arr[k], indent + 1)|
    ensures 1 + LinesBefore(arr, indent, k) + j < |FormatArray(arr, indent)|
    ensures FormatArray(arr, indent)[1 + LinesBefore(arr, indent, k) + j] == FormatValue(arr[k], indent + 1)[j]
  {
    var xss := seq(|arr|, i requires 0 <= i < |arr| => FormatValue(arr[i], indent + 1));
    assert FormatArray(arr, indent) == [LengthTag(|arr|) + ":"] + Flatten(xss);
    FlattenAt(xss, k, j);
    FlattenLength(xss[..k], seq(k, i requires 0 <= i < k => |FormatValue(arr[i], indent + 1)|));
  }

  /** Every line of a dictionary or a scalar at depth `indent` begins with
      that depth's indentation; only a bare list starts at its header. */
  lemma {:induction false} LinesAreIndented(v: Value, indent: nat)
    requires !v.Arr?
    ensures forall l :: l in FormatValue(v, indent) ==> |l| >= 2 * indent && l[..2 * indent] == Indent(indent)
    decreases v, 0
  {
    match v
    case Obj(fields) =>
      var xss := seq(|fields|, k requires 0 <= k < |fields| => FieldLines(fields[k], indent));
      forall k | 0 <= k < |fields|
        ensures forall l :: l in xss[k] ==> |l| >= 2 * indent && l[..2 * indent] == Indent(indent)
      {
        FieldLinesIndented(fields[k], indent);
      }
      FlattenAll(xss, indent);
    case _ =>
  }

  predicate StartsWithIndent(l: string, indent: nat)
  {
    |l| >= 2 * indent && l[..2 * indent] == Indent(indent)
  }

  lemma FieldLinesIndented(field: (string, Value), indent: nat)
    ensures forall l :: l in FieldLines(field, indent) ==> StartsWithIndent(l, indent)
    decreases field, 2
  {
    match field.1
    case Arr(items) => ArrayFieldIndented(field.0, items, indent);
    case Obj(fields) => ObjectFieldIndented(field.0, fields, indent);
    case _ =>
      PrefixedIsIndented(indent, field.0 + ": " + EscapeValue(field.1));
      assert Indent(indent) + field.0 + ": " + EscapeValue(field.1)
        == Indent(indent) + (field.0 + ": " + EscapeValue(field.1));
  }

  lemma PrefixedIsIndented(indent: nat, rest: string)
    ensures StartsWithIndent(Indent(indent) + rest, indent)
  {
    assert (Indent(indent) + rest)[..2 * indent] == Indent(indent);
  }

  lemma ArrayFieldIndented(key: string, items: seq<Value>, indent: nat)
    ensures forall l :: l in FieldLines((key, Arr(items)), indent) ==> StartsWithIndent(l, indent)
  {
    ShiftedLinesIndented(key, FormatArray(items, indent), indent);
  }

  /** The lines of a list under a key: the key's line, then every later
      line of the list behind the dictionary's prefix. */
  lemma ShiftedLinesIndented(key: string, a: seq<string>, indent: nat)
    requires |a| >= 1
    ensures var lines := [Indent(indent) + key + a[0]] + seq(|a| - 1, j requires 0 <= j < |a| - 1 => Indent(indent) + a[j + 1]);
      forall l :: l in lines ==> StartsWithIndent(l, indent)
  {
    var prefix := Indent(indent);
    var lines := [prefix + key + a[0]] + seq(|a| - 1, j requires 0 <= j < |a| - 1 => prefix + a[j + 1]);
    forall l | l in lines
      ensures StartsWithIndent(l, indent)
    {
      if l == prefix + key + a[0] {
        PrefixedIsIndented(indent, key + a[0]);
        assert prefix + key + a[0] == prefix + (key + a[0]);
      } else {
        var j :| 0 <= j < |a| - 1 && l == prefix + a[j + 1];
        PrefixedIsIndented(indent, a[j + 1]);
      }
    }
  }

  lemma ObjectFieldIndented(key: string, fields: seq<(string, Value)>, indent: nat)
    ensures forall l :: l in FieldLines((key, Obj(fields)), indent) ==> StartsWithIndent(l, indent)
    decreases Obj(fields), 1
  {
    LinesAreIndented(Obj(fields), indent + 1);
    NestedLinesIndented(key, FormatValue(Obj(fields), indent + 1), indent);
  }

  /** The lines of a dictionary under a key: the key's line, then the
      dictionary's own lines one level deeper. */
  lemma NestedLinesIndented(key: string, inner: seq<string>, indent: nat)
    requires forall l :: l in inner ==> StartsWithIndent(l, indent + 1)
    ensures forall l :: l in [Indent(indent) + key + ":"] + inner ==> StartsWithIndent(l, indent)
  {
    var prefix := Indent(indent);
    IndentStep(indent);
    forall l | l in [prefix + key + ":"] + inner
      ensures StartsWithIndent(l, indent)
    {
      if l == prefix + key + ":" {
        PrefixedIsIndented(indent, key + ":");
        assert prefix + key + ":" == prefix + (key + ":");
      } else {
        assert l[..2 * indent] == l[..2 * (indent + 1)][..2 * indent];
      }
    }
  }

  lemma IndentStep(n: nat)
    ensures Indent(n + 1)[..2 * n] == Indent(n)
  {
  }

  lemma {:induction false} FlattenAll(xss: seq<seq<string>>, indent: nat)
    requires forall k :: 0 <= k < |xss| ==> forall l :: l in xss[k] ==> StartsWithIndent(l, indent)
    ensures forall l :: l in Flatten(xss) ==> StartsWithIndent(l, indent)
  {
    if xss != [] {
      FlattenAll(xss[1..], indent);
    }
  }

  lemma KeySetOfPair(a: string, va: Value, b: string, vb: Value)
    ensures KeySet([(a, va), (b, vb)]) == {a, b}
  {
    var fs := [(a, va), (b, vb)];
    assert fs[0].0 == a && fs[1].0 == b;
  }

  lemma ExampleRow(name: string, lines: int, text: string)
    requires name == "x" || name == "y"
    requires lines == 5 || lines == 7
    requires text == "  " + name + "," + IntToString(lines)
    ensures TableRow(Obj([("path", Str(name)), ("lines", Int(lines))]), ["path", "lines"]) == text
  {
    var r := Obj([("path", Str(name)), ("lines", Int(lines))]);
    PlainNeedsNoQuotes(name);
    assert EscapeValue(Str(name)) == name;
    assert Get(r.fields, "path") == Some(Str(name));
    assert Get(r.fields, "lines") == Some(Int(lines));
    var keys := ["path", "lines"];
    assert seq(|keys|, j requires 0 <= j < |keys| => EscapeValue(Get(r.fields, keys[j]).GetOr(Null))) == [name, IntToString(lines)];
    assert Join([name, IntToString(lines)], ",") == name + "," + IntToString(lines);
  }

  function ExampleRecords(): seq<Value>
  {
    [Obj([("path", Str("x")), ("lines", Int(5))]), Obj([("path", Str("y")), ("lines", Int(7))])]
  }

  lemma ExampleIsUniform()
    ensures Uniform(ExampleRecords())
    ensures Keys(ExampleRecords()[0].fields) == ["path", "lines"]
  {
    var arr := ExampleRecords();
    KeySetOfPair("path", Str("x"), "lines", Int(5));
    KeySetOfPair("path", Str("y"), "lines", Int(7));
  }

  lemma ExampleArray()
    ensures FormatArray(ExampleRecords(), 0) == ["[2]{path,lines}:", "  x,5", "  y,7"]
  {
    var arr := ExampleRecords();
    ExampleIsUniform();
    TableLines(arr, 0);
    ExampleHeader();
    ExampleRows();
    var lines := FormatArray(arr, 0);
    assert lines[0] == "[2]{path,lines}:" && lines[1] == "  x,5" && lines[2] == "  y,7";
  }

  lemma ExampleHeader()
    ensures FormatArray(ExampleRecords(), 0)[0] == "[2]{path,lines}:"
  {
    var arr := ExampleRecords();
    ExampleIsUniform();
    TableHeader(arr, 0);
    var keys := Join(["path", "lines"], ",");
    assert keys == "path,lines";
    assert NatToString(2) == "2";
    assert LengthTag(2) == "[2]";
    assert "[2]" + "{" + "path,lines" + "}:" == "[2]{path,lines}:";
  }

  lemma ExampleRows()
    ensures Uniform(ExampleRecords())
    ensures TableRow(ExampleRecords()[0], ["path", "lines"]) == "  x,5"
    ensures TableRow(ExampleRecords()[1], ["path", "lines"]) == "  y,7"
  {
    ExampleIsUniform();
    assert IntToString(5) == "5" && IntToString(7) == "7";
    ExampleRow("x", 5, "  x,5");
    ExampleRow("y", 7, "  y,7");
  }

  lemma ExampleField(a: seq<string>)
    requires a == ["[2]{path,lines}:", "  x,5", "  y,7"]
    ensures [Indent(0) + "files" + a[0]] + seq(|a| - 1, j requires 0 <= j < |a| - 1 => Indent(0) + a[j + 1])
      == ["files[2]{path,lines}:", "  x,5", "  y,7"]
  {
    assert Indent(0) == "";
    var t := seq(|a| - 1, j requires 0 <= j < |a| - 1 => Indent(0) + a[j + 1]);
    assert |t| == 2 && t[0] == a[1] && t[1] == a[2];
    assert "" + "files" + a[0] == "files[2]{path,lines}:";
  }

  /** The worked example: a list of uniform records under a key becomes a
      table headed by the key. */
  lemma FilesTableExample()
    ensures FormatValue(Obj([("files", Arr([
        Obj([("path", Str("x")), ("lines", Int(5))]),
        Obj([("path", Str("y")), ("lines", Int(7))])]))]), 0)
      == ["files[2]{path,lines}:", "  x,5", "  y,7"]
  {
    var arr := ExampleRecords();
    ExampleArray();
    ExampleField(FormatArray(arr, 0));
    var lines := FieldLines(("files", Arr(arr)), 0);
    assert lines == ["files[2]{path,lines}:", "  x,5", "  y,7"];
    var xss := seq(1, k requires 0 <= k < 1 => FieldLines([("files", Arr(arr))][k], 0));
    assert xss == [lines];
    assert Flatten(xss) == lines + Flatten(xss[1..]);
  }
}
