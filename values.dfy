/** The universal record the writers hand to `json.dump` and to the TOON
    encoder: Python's `None`, `bool`, `int`, `str`, `list` and insertion-ordered
    `dict`, together with Python's `str()` and `repr()` of such values. */
module Values {
  import opened Wrappers
  import opened Text

  datatype Value =
    | Null
    | Bool(b: bool)
    | Int(i: int)
    | Str(s: string)
    | Arr(items: seq<Value>)
    | Obj(fields: seq<(string, Value)>)

  /** Neither a `dict` nor a `list`. */
  predicate IsScalar(v: Value)
  {
    !v.Arr? && !v.Obj?
  }

  /** `d.get(key)`: the value of the first field named `key`. */
  function Get(fields: seq<(string, Value)>, key: string): (r: Option<Value>)
    ensures r.Some? <==> exists i :: 0 <= i < |fields| && fields[i].0 == key
    ensures r.Some? ==> exists i :: 0 <= i < |fields| && fields[i] == (key, r.value)
  {
    if fields == [] then None
    else if fields[0].0 == key then Some(fields[0].1)
    else Get(fields[1..], key)
  }

  /** Looking a key up skips the fields before its first occurrence. */
  lemma {:induction false} GetAt(fields: seq<(string, Value)>, key: string, n: nat)
    requires n < |fields| && fields[n].0 == key
    requires forall j :: 0 <= j < n ==> fields[j].0 != key
    ensures Get(fields, key) == Some(fields[n].1)
  {
    if n > 0 {
      GetAt(fields[1..], key, n - 1);
    }
  }

  /** A Python dictionary never repeats a key. */
  predicate DistinctKeys(fields: seq<(string, Value)>)
  {
    forall i, j :: 0 <= i < j < |fields| ==> fields[i].0 != fields[j].0
  }

  lemma GetDistinct(fields: seq<(string, Value)>, j: nat)
    requires DistinctKeys(fields) && j < |fields|
    ensures Get(fields, fields[j].0) == Some(fields[j].1)
  {
    GetAt(fields, fields[j].0, j);
  }

  /** `list(d.keys())` */
  function Keys(fields: seq<(string, Value)>): (ks: seq<string>)
    ensures |ks| == |fields|
    ensures forall i :: 0 <= i < |fields| ==> ks[i] == fields[i].0
  {
    seq(|fields|, i requires 0 <= i < |fields| => fields[i].0)
  }

  /** `set(d.keys())` */
  function KeySet(fields: seq<(string, Value)>): set<string>
  {
    set i | 0 <= i < |fields| :: fields[i].0
  }

  /** What a `for` loop over `v` visits: a list's items, a string's
      characters, a dict's keys; `None` where Python raises `TypeError`. */
  function Iterate(v: Value): (r: Option<seq<Value>>)
    ensures r.Some? <==> (v.Arr? || v.Str? || v.Obj?)
    ensures v.Arr? ==> r == Some(v.items)
  {
    match v
    case Arr(items) => Some(items)
    case Str(s) => Some(seq(|s|, i requires 0 <= i < |s| => Str([s[i]])))
    case Obj(fields) => Some(seq(|fields|, i requires 0 <= i < |fields| => Str(fields[i].0)))
    case _ => None
  }

  /** Python truthiness: `None`, `False`, `0`, `""`, `[]` and `{}` are false. */
  predicate Truthy(v: Value)
  {
    match v
    case Null => false
    case Bool(b) => b
    case Int(i) => i != 0
    case Str(s) => s != ""
    case Arr(items) => items != []
    case Obj(fields) => fields != []
  }

  function HexDigit(d: nat): char
    requires d < 16
  {
    "0123456789abcdef"[d]
  }

  /** Characters `repr()` writes as `\xNN`: the ASCII and Latin-1 control
      characters, the no-break space and the soft hyphen. */
  predicate HexEscaped(c: char)
  {
    c < ' ' || ('\U{7F}' <= c <= '\U{A0}') || c == '\U{AD}'
  }

  /** One character of a string's `repr()` body, with `quote` the delimiter. */
  function ReprChar(c: char, quote: char): string
  {
    if c == quote || c == '\\' then ['\\', c]
    else if c == '\t' then "\\t"
    else if c == '\n' then "\\n"
    else if c == '\r' then "\\r"
    else if HexEscaped(c) then "\\x" + [HexDigit(c as int / 16), HexDigit(c as int % 16)]
    else [c]
  }

  function ReprBody(s: string, quote: char): string
  {
    if s == [] then "" else ReprChar(s[0], quote) + ReprBody(s[1..], quote)
  }

  /** `repr(s)` for a string: single quotes unless the text holds a single
      quote and no double quote. */
  function StrRepr(s: string): string
  {
    var quote := if '\'' in s && '"' !in s then '"' else '\'';
    [quote] + ReprBody(s, quote) + [quote]
  }

  /** `str()` and `repr()` of `None`, a bool or an int, which agree. */
  function AtomText(v: Value): string
    requires !v.Str? && IsScalar(v)
  {
    match v
    case Null => "None"
    case Bool(b) => if b then "True" else "False"
    case Int(i) => IntToString(i)
  }

  /** `repr(v)`, as Python prints a value nested in a list or dict. */
  function Repr(v: Value): string
  {
    match v
    case Str(s) => StrRepr(s)
    case Arr(items) =>
      "[" + Join(seq(|items|, i requires 0 <= i < |items| => Repr(items[i])), ", ") + "]"
    case Obj(fields) =>
      "{" + Join(seq(|fields|, i requires 0 <= i < |fields| => StrRepr(fields[i].0) + ": " + Repr(fields[i].1)), ", ") + "}"
    case _ => AtomText(v)
  }

  /** `str(v)`: a string is its own text, containers use `repr`. */
  function PyStr(v: Value): string
  {
    match v
    case Str(s) => s
    case Arr(_) => Repr(v)
    case Obj(_) => Repr(v)
    case _ => AtomText(v)
  }
}
