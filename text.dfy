/** Python string primitives the writers rely on: `sep.join(...)`, `str(int)`,
    `str.strip()` and the two-space indentation unit of the TOON writer. */
module Text {

  /** `sep.join(parts)` */
  function Join(parts: seq<string>, sep: string): string
  {
    if parts == [] then ""
    else if |parts| == 1 then parts[0]
    else parts[0] + sep + Join(parts[1..], sep)
  }

  /** `sep.join` of five parts. */
  lemma JoinFive(a: string, b: string, c: string, d: string, e: string, sep: string)
    ensures Join([a, b, c, d, e], sep) == a + sep + b + sep + c + sep + d + sep + e
  {
    var parts := [a, b, c, d, e];
    assert parts[1..] == [b, c, d, e] && parts[1..][1..] == [c, d, e];
    assert parts[1..][1..][1..] == [d, e] && parts[1..][1..][1..][1..] == [e];
    var de := d + sep + e;
    var cde := c + sep + de;
    var bcde := b + sep + cde;
    assert Join([d, e], sep) == de;
    assert Join([c, d, e], sep) == cde;
    assert Join([b, c, d, e], sep) == bcde;
    assert c + sep + de == c + sep + d + sep + e;
    assert b + sep + cde == b + sep + c + sep + d + sep + e;
  }

  /** The lists of `lines.extend(...)` calls, concatenated in order. */
  function Flatten<T>(xss: seq<seq<T>>): seq<T>
  {
    if xss == [] then [] else xss[0] + Flatten(xss[1..])
  }

  function Sum(xs: seq<nat>): nat
  {
    if xs == [] then 0 else xs[0] + Sum(xs[1..])
  }

  lemma {:induction false} FlattenLength<T>(xss: seq<seq<T>>, ns: seq<nat>)
    requires |xss| == |ns|
    requires forall i :: 0 <= i < |xss| ==> |xss[i]| == ns[i]
    ensures |Flatten(xss)| == Sum(ns)
  {
    if xss != [] {
      FlattenLength(xss[1..], ns[1..]);
    }
  }

  /** Item `j` of list `k` sits in the concatenation after every item of
      the lists before `k`. */
  lemma {:induction false} FlattenAt<T>(xss: seq<seq<T>>, k: nat, j: nat)
    requires k < |xss| && j < |xss[k]|
    ensures |Flatten(xss[..k])| + j < |Flatten(xss)|
    ensures Flatten(xss)[|Flatten(xss[..k])| + j] == xss[k][j]
  {
    if k == 0 {
      assert xss[..0] == [];
    } else {
      assert xss[..k][1..] == xss[1..][..k - 1];
      FlattenAt(xss[1..], k - 1, j);
    }
  }

  /** Regrouping four concatenated lists. */
  lemma ConcatAssoc<T>(a: seq<T>, b: seq<T>, c: seq<T>, d: seq<T>)
    ensures a + b + c + d == a + (b + c + d)
  {
  }

  lemma ConcatPrepend<T>(a: seq<T>, b: seq<T>, c: seq<T>, d: seq<T>, e: seq<T>)
    ensures a + (b + c + d + e) == a + b + c + d + e
  {
  }

  /** An item missing from four lists is missing from their concatenation. */
  lemma NotInConcat<T>(x: T, a: seq<T>, b: seq<T>, c: seq<T>, d: seq<T>)
    requires x !in a && x !in b && x !in c && x !in d
    ensures x !in a + b + c + d
  {
  }

  /** The first item of the second of four concatenated lists. */
  lemma IndexAfter<T>(a: seq<T>, b: seq<T>, c: seq<T>, d: seq<T>)
    requires b != []
    ensures (a + b + c + d)[|a|] == b[0]
  {
  }

  predicate IsDigit(c: char)
  {
    '0' <= c <= '9'
  }

  function DigitChar(d: nat): char
    requires d < 10
  {
    "0123456789"[d]
  }

  /** Decimal text of a natural number, most significant digit first. */
  function NatToString(n: nat): string
  {
    if n < 10 then [DigitChar(n)] else NatToString(n / 10) + [DigitChar(n % 10)]
  }

  /** The number a run of decimal digits denotes. */
  function DigitsValue(s: string): nat
    requires forall k :: 0 <= k < |s| ==> IsDigit(s[k])
  {
    if s == [] then 0
    else
      assert IsDigit(s[|s| - 1]);
      10 * DigitsValue(s[..|s| - 1]) + (s[|s| - 1] as int - '0' as int)
  }

  /** `str(n)` is a non-empty run of digits that reads back as `n`. */
  lemma {:induction false} NatToStringReadsBack(n: nat)
    ensures NatToString(n) != []
    ensures forall k :: 0 <= k < |NatToString(n)| ==> IsDigit(NatToString(n)[k])
    ensures DigitsValue(NatToString(n)) == n
  {
    if n < 10 {
      DigitCharValue(n);
    } else {
      var q, d := n / 10, n % 10;
      NatToStringReadsBack(q);
      DigitCharValue(d);
      var s := NatToString(n);
      assert s == NatToString(q) + [DigitChar(d)];
      assert s[..|s| - 1] == NatToString(q);
      assert DigitsValue(s) == 10 * DigitsValue(NatToString(q)) + d;
    }
  }

  lemma DigitCharValue(d: nat)
    requires d < 10
    ensures IsDigit(DigitChar(d)) && DigitChar(d) as int - '0' as int == d
  {
  }

  /** `str(n)` for a Python int. */
  function IntToString(n: int): string
  {
    if n < 0 then "-" + NatToString(-n) else NatToString(n)
  }

  /** The characters Python's `str.strip()` removes (`str.isspace()`). */
  predicate IsSpace(c: char)
  {
    || c == ' ' || c == '\t' || c == '\n' || c == '\r'
    || c == '\U{0B}' || c == '\U{0C}'
    || ('\U{1C}' <= c <= '\U{1F}')
    || c == '\U{85}' || c == '\U{A0}' || c == '\U{1680}'
    || ('\U{2000}' <= c <= '\U{200A}')
    || c == '\U{2028}' || c == '\U{2029}' || c == '\U{202F}' || c == '\U{205F}' || c == '\U{3000}'
  }

  function StripLeft(s: string): string
  {
    if s != [] && IsSpace(s[0]) then StripLeft(s[1..]) else s
  }

  function StripRight(s: string): string
  {
    if s != [] && IsSpace(s[|s| - 1]) then StripRight(s[..|s| - 1]) else s
  }

  /** `s.strip()` */
  function Strip(s: string): string
  {
    StripLeft(StripRight(s))
  }

  lemma {:induction false} StripLeftShortens(s: string)
    ensures |StripLeft(s)| <= |s|
    ensures s != [] && IsSpace(s[0]) ==> |StripLeft(s)| < |s|
  {
    if s != [] && IsSpace(s[0]) {
      StripLeftShortens(s[1..]);
    }
  }

  lemma {:induction false} StripRightIsPrefix(s: string)
    ensures |StripRight(s)| <= |s| && StripRight(s) == s[..|StripRight(s)|]
    ensures s != [] && IsSpace(s[|s| - 1]) ==> |StripRight(s)| < |s|
  {
    if s != [] && IsSpace(s[|s| - 1]) {
      StripRightIsPrefix(s[..|s| - 1]);
    }
  }

  /** `s != s.strip()` holds exactly when `s` begins or ends with whitespace. */
  lemma StripChangesIff(s: string)
    ensures Strip(s) != s <==> (s != [] && (IsSpace(s[0]) || IsSpace(s[|s| - 1])))
  {
    var r := StripRight(s);
    StripRightIsPrefix(s);
    StripLeftShortens(r);
    if s != [] && IsSpace(s[0]) && r != [] {
      assert r[0] == s[0];
    }
  }

  /** Two spaces per nesting level (`"  " * n`). */
  function Indent(n: nat): (r: string)
    ensures |r| == 2 * n
    ensures forall i :: 0 <= i < |r| ==> r[i] == ' '
  {
    if n == 0 then "" else Indent(n - 1) + "  "
  }
}
