/** The small part of Python's value and string semantics that the review analyser relies on:
    the values held in data-frame cells and metadata dicts, `str()`, truthiness, `str.strip()`,
    slicing, `str.join`, `str.replace`, `str.split(' ')[0]`, `int()` on text and ASCII `lower()`. */
module Python {

  datatype Option<+T> = None | Some(value: T)

  datatype Result<+T> = Ok(value: T) | Err(error: Error)

  /** The Python exceptions the modelled code can raise. */
  datatype Error = ValueError(message: string) | TypeError(message: string)

  /** A Python value as it appears in a data-frame cell, a metadata dict, a filter dict or a
      result dict. A float is represented by the two texts the program renders it as:
      `str(x)` (its `repr`) and `format(x, '.1f')`; no float arithmetic is modelled. */
  datatype Value = Null | Str(s: string) | Int(i: int) | Float(repr: string, fixed1: string) | Bool(b: bool)

  const NaN: Value := Float("nan", "nan")

  /** pandas' notion of a missing value: None or a NaN float. */
  predicate IsNA(v: Value) {
    v.Null? || v == NaN
  }

  predicate IsDigit(c: char) {
    '0' <= c <= '9'
  }

  function DigitChar(d: nat): (c: char)
    requires d < 10
    ensures IsDigit(c) && c as int - '0' as int == d
  {
    (d + '0' as int) as char
  }

  /** `str(n)` for a non-negative integer. */
  function NatText(n: nat): (r: string)
    ensures |r| > 0
    ensures forall k :: 0 <= k < |r| ==> IsDigit(r[k])
  {
    if n < 10 then [DigitChar(n)] else NatText(n / 10) + [DigitChar(n % 10)]
  }

  /** `str(i)` for any integer. */
  function IntText(i: int): string {
    if i < 0 then "-" + NatText(-i) else NatText(i)
  }

  /** `str(v)`, which is also what an f-string substitutes for `{v}`. */
  function StrOf(v: Value): string {
    match v
    case Null => "None"
    case Str(s) => s
    case Int(i) => IntText(i)
    case Float(r, _) => r
    case Bool(b) => if b then "True" else "False"
  }

  /** `repr(v)`; a string is shown between single quotes. Python's choice of double quotes for a
      string holding a single quote, and its escapes, are not modelled (see "Left out" in the
      README). */
  function ReprOf(v: Value): string {
    match v
    case Str(s) => "'" + s + "'"
    case _ => StrOf(v)
  }

  /** `format(v, '.1f')`: a float gives its one-decimal rendering, an int its digits and one zero
      decimal (exact only for ints a float holds exactly; Python converts the int to a float
      first), a bool 1.0 or 0.0; None and strings raise. */
  function Fixed1(v: Value): Result<string> {
    match v
    case Null => Err(TypeError("unsupported format string passed to NoneType.__format__"))
    case Str(_) => Err(ValueError("Unknown format code 'f' for object of type 'str'"))
    case Int(i) => Ok(IntText(i) + ".0")
    case Float(_, f) => Ok(f)
    case Bool(b) => Ok(if b then "1.0" else "0.0")
  }

  /** Python truthiness (`if v:`). NaN is truthy. */
  predicate Truthy(v: Value) {
    match v
    case Null => false
    case Str(s) => s != ""
    case Int(i) => i != 0
    case Float(r, _) => r != "0.0" && r != "-0.0"
    case Bool(b) => b
  }

  /** The characters for which Python's `str.isspace()` holds. */
  const WhiteSpace: set<char> := {
    '\t', '\n', '\U{000B}', '\U{000C}', '\r', '\U{001C}', '\U{001D}', '\U{001E}', '\U{001F}', ' ',
    '\U{0085}', '\U{00A0}', '\U{1680}', '\U{2000}', '\U{2001}', '\U{2002}', '\U{2003}', '\U{2004}',
    '\U{2005}', '\U{2006}', '\U{2007}', '\U{2008}', '\U{2009}', '\U{200A}', '\U{2028}', '\U{2029}',
    '\U{202F}', '\U{205F}', '\U{3000}'
  }

  predicate IsSpace(c: char) {
    c in WhiteSpace
  }

  /** The characters `int()` skips around its digits: those for which `str.isspace()` holds,
      except the four separators U+001C to U+001F, which `int()` rejects. */
  const IntSpace: set<char> := {
    '\t', '\n', '\U{000B}', '\U{000C}', '\r', ' ',
    '\U{0085}', '\U{00A0}', '\U{1680}', '\U{2000}', '\U{2001}', '\U{2002}', '\U{2003}', '\U{2004}',
    '\U{2005}', '\U{2006}', '\U{2007}', '\U{2008}', '\U{2009}', '\U{200A}', '\U{2028}', '\U{2029}',
    '\U{202F}', '\U{205F}', '\U{3000}'
  }

  /** The first position at or after `i` that is not in `ws`, or `|s|`. */
  function SpaceEnd(s: string, i: nat, ws: set<char>): (e: nat)
    requires i <= |s|
    ensures i <= e <= |s|
    ensures forall k :: i <= k < e ==> s[k] in ws
    ensures e < |s| ==> s[e] !in ws
    decreases |s| - i
  {
    if i < |s| && s[i] in ws then SpaceEnd(s, i + 1, ws) else i
  }

  /** The last position at or before `j` that follows a character not in `ws`, or 0. */
  function SpaceStart(s: string, j: nat, ws: set<char>): (b: nat)
    requires j <= |s|
    ensures b <= j
    ensures forall k :: b <= k < j ==> s[k] in ws
    ensures b > 0 ==> s[b - 1] !in ws
  {
    if j > 0 && s[j - 1] in ws then SpaceStart(s, j - 1, ws) else j
  }

  function StripLeft(s: string, ws: set<char>): (r: string)
    ensures |r| <= |s| && r == s[|s| - |r|..]
    ensures r != [] ==> r[0] !in ws
    ensures forall k :: 0 <= k < |s| - |r| ==> s[k] in ws
  {
    s[SpaceEnd(s, 0, ws)..]
  }

  function StripRight(s: string, ws: set<char>): (r: string)
    ensures |r| <= |s| && r == s[..|r|]
    ensures r != [] ==> r[|r| - 1] !in ws
    ensures forall k :: |r| <= k < |s| ==> s[k] in ws
  {
    s[..SpaceStart(s, |s|, ws)]
  }

  /** `s.strip()`: drops leading and trailing whitespace. */
  function Strip(s: string): (r: string)
    ensures |r| <= |s|
    ensures r != [] ==> !IsSpace(r[0]) && !IsSpace(r[|r| - 1])
  {
    StripRight(StripLeft(s, WhiteSpace), WhiteSpace)
  }

  /** What `int()` ignores around a literal: the characters of `IntSpace` at either end. */
  function IntStrip(s: string): (r: string)
    ensures |r| <= |s|
    ensures r != [] ==> r[0] !in IntSpace && r[|r| - 1] !in IntSpace
  {
    StripRight(StripLeft(s, IntSpace), IntSpace)
  }

  /** The test `not text or len(text.strip()) == 0` applied to an optional string. */
  predicate NoText(text: Option<string>) {
    text.None? || |Strip(text.value)| == 0
  }

  /** A text is blank exactly when every one of its characters is whitespace. */
  lemma NoTextIffAllSpace(s: string)
    ensures NoText(Some(s)) <==> forall k :: 0 <= k < |s| ==> IsSpace(s[k])
  {
    var l := StripLeft(s, WhiteSpace);
    if !forall k :: 0 <= k < |s| ==> IsSpace(s[k]) {
      var k :| 0 <= k < |s| && !IsSpace(s[k]);
      assert k >= |s| - |l|;
      assert l[k - (|s| - |l|)] == s[k];
      var r := StripRight(l, WhiteSpace);
      assert |r| > k - (|s| - |l|);
    }
  }

  /** `s[:n]` for a non-negative bound. */
  function Truncate(s: string, n: nat): (r: string)
    ensures |r| == if |s| <= n then |s| else n
    ensures r == s[..|r|]
    ensures |s| <= n ==> r == s
  {
    if |s| <= n then s else s[..n]
  }

  /** `s[:n]` with Python's meaning for every integer bound: a negative bound counts from the end. */
  function SliceTo<T>(s: seq<T>, n: int): (r: seq<T>)
    ensures |r| <= |s| && r == s[..|r|]
    ensures 0 <= n ==> |r| == if |s| <= n then |s| else n
    ensures n < 0 ==> |r| == if |s| + n < 0 then 0 else |s| + n
  {
    if 0 <= n then (if |s| <= n then s else s[..n])
    else if |s| + n < 0 then [] else s[..|s| + n]
  }

  /** `sep.join(parts)`. */
  function Join(sep: string, parts: seq<string>): string {
    if |parts| == 0 then ""
    else if |parts| == 1 then parts[0]
    else parts[0] + sep + Join(sep, parts[1..])
  }

  /** The concatenation of `parts` (the result of repeated `+=`). */
  function Concat(parts: seq<string>): string {
    if parts == [] then "" else Concat(parts[..|parts| - 1]) + parts[|parts| - 1]
  }

  /** The parts of `a + b + c` sit where they were put. */
  lemma Framed(a: string, b: string, c: string)
    ensures |a + b + c| == |a| + |b| + |c|
    ensures (a + b + c)[..|a|] == a
    ensures (a + b + c)[|a|..|a| + |b|] == b
    ensures (a + b + c)[|a| + |b|..] == c
  {
  }

  lemma ConcatSnoc(parts: seq<string>, i: nat)
    requires i < |parts|
    ensures Concat(parts[..i + 1]) == Concat(parts[..i]) + parts[i]
  {
    assert parts[..i + 1][..i] == parts[..i];
  }

  /** `s.replace(a, b)` for single characters. */
  function ReplaceChar(s: string, a: char, b: char): (r: string)
    ensures |r| == |s|
    ensures forall k :: 0 <= k < |s| ==> r[k] == if s[k] == a then b else s[k]
  {
    seq(|s|, k requires 0 <= k < |s| => if s[k] == a then b else s[k])
  }

  /** `s.replace(a, '')`. */
  function RemoveChar(s: string, a: char): (r: string)
    ensures |r| <= |s|
    ensures forall k :: 0 <= k < |r| ==> r[k] != a
    ensures (forall k :: 0 <= k < |s| ==> s[k] != a) ==> r == s
  {
    if s == [] then [] else (if s[0] == a then [] else [s[0]]) + RemoveChar(s[1..], a)
  }

  /** `s.split(' ')[0]`: everything before the first space (split never returns an empty list). */
  function FirstToken(s: string): (r: string)
    ensures |r| <= |s| && r == s[..|r|]
    ensures forall k :: 0 <= k < |r| ==> r[k] != ' '
    ensures |r| < |s| ==> s[|r|] == ' '
  {
    if s == [] || s[0] == ' ' then [] else [s[0]] + FirstToken(s[1..])
  }

  /** A run of the ASCII digits 0 to 9 in which single underscores may separate digits. */
  predicate DigitRun(s: string) {
    && |s| > 0
    && IsDigit(s[0])
    && IsDigit(s[|s| - 1])
    && (forall k :: 0 <= k < |s| ==> IsDigit(s[k]) || s[k] == '_')
    && (forall j, k :: 0 <= j < |s| && 0 <= k < |s| && k == j + 1 ==> IsDigit(s[j]) || IsDigit(s[k]))
  }

  /** The value of a digit run, underscores skipped. */
  function DigitRunValue(s: string): nat {
    if s == [] then 0
    else if IsDigit(s[|s| - 1]) then 10 * DigitRunValue(s[..|s| - 1]) + (s[|s| - 1] as int - '0' as int)
    else DigitRunValue(s[..|s| - 1])
  }

  /** `int(s)` for base-10 text: surrounding `IntSpace` characters, an optional sign, then a run
      of ASCII digits; anything else raises ValueError, modelled as None. */
  function ParseInt(s: string): Option<int> {
    ParseStripped(IntStrip(s))
  }

  /** `int()` on text with no surrounding whitespace. */
  function ParseStripped(t: string): Option<int> {
    if |t| > 0 && (t[0] == '+' || t[0] == '-') then
      match Magnitude(t[1..])
      case Some(v) => var n: int := v; Some(if t[0] == '-' then -n else n)
      case None => None
    else Magnitude(t)
  }

  /** The value of a digit run, or None when the text is not one. */
  function Magnitude(d: string): (r: Option<nat>)
    ensures r.Some? <==> DigitRun(d)
    ensures r.Some? ==> r.value == DigitRunValue(d)
  {
    if DigitRun(d) then Some(DigitRunValue(d)) else None
  }

  /** Text without a digit is not an integer literal. */
  lemma NoDigitNoInt(s: string)
    requires forall k :: 0 <= k < |s| ==> !IsDigit(s[k])
    ensures ParseInt(s) == None
  {
    var l := StripLeft(s, IntSpace);
    var t := IntStrip(s);
    assert forall k :: 0 <= k < |t| ==> t[k] == l[k] == s[|s| - |l| + k];
  }

  lemma {:induction false} NatTextValue(n: nat)
    ensures DigitRunValue(NatText(n)) == n
  {
    var r := NatText(n);
    if n >= 10 {
      NatTextValue(n / 10);
      assert r[..|r| - 1] == NatText(n / 10);
    }
  }

  lemma IntStripUnchanged(s: string)
    requires s != [] && s[0] !in IntSpace && s[|s| - 1] !in IntSpace
    ensures IntStrip(s) == s
  {
  }

  lemma DigitIsNotSpace(c: char)
    requires IsDigit(c)
    ensures c !in IntSpace
  {
  }

  lemma {:induction false} AllDigitsRun(d: string)
    requires |d| > 0 && forall k :: 0 <= k < |d| ==> IsDigit(d[k])
    ensures DigitRun(d)
  {
  }

  lemma ParseDigitRun(d: string)
    requires DigitRun(d)
    ensures ParseInt(d) == Some(DigitRunValue(d))
  {
    DigitIsNotSpace(d[0]);
    DigitIsNotSpace(d[|d| - 1]);
    IntStripUnchanged(d);
  }

  lemma ParseNegativeDigitRun(d: string)
    requires DigitRun(d)
    ensures ParseInt("-" + d) == Some(-(DigitRunValue(d) as int))
  {
    var t := "-" + d;
    DigitIsNotSpace(d[|d| - 1]);
    assert t[0] !in IntSpace && t[|t| - 1] == d[|d| - 1];
    IntStripUnchanged(t);
    assert t[1..] == d;
  }

  /** Text whose first character is neither `IntSpace`, a sign nor a digit never parses. */
  lemma {:induction false} BadStartNoInt(c: char, d: string)
    requires c !in IntSpace && !IsDigit(c) && c != '+' && c != '-'
    ensures ParseInt([c] + d) == None
  {
    var s := [c] + d;
    var l := StripLeft(s, IntSpace);
    assert l == s;
    var t := StripRight(l, IntSpace);
    assert t != [];
    assert t[0] == c;
  }

  /** `int()` does not skip the information separators U+001C to U+001F, although `str.strip()`
      does: text that starts with one never parses, whatever follows. */
  lemma SeparatorBlocksInt(c: char, d: string)
    requires c in {'\U{001C}', '\U{001D}', '\U{001E}', '\U{001F}'}
    ensures IsSpace(c)
    ensures ParseInt([c] + d) == None
  {
    assert c !in IntSpace;
    BadStartNoInt(c, d);
  }

  /** `int(str(i)) == i`: the decimal rendering of an integer parses back to it. */
  lemma ParseIntText(i: int)
    ensures ParseInt(IntText(i)) == Some(i)
  {
    var n: nat := if i < 0 then -i else i;
    NatTextValue(n);
    AllDigitsRun(NatText(n));
    if i < 0 {
      ParseNegativeDigitRun(NatText(n));
    } else {
      ParseDigitRun(NatText(n));
    }
  }

  function LowerChar(c: char): char {
    if 'A' <= c <= 'Z' then (c as int + 32) as char else c
  }

  /** `s.lower()` on ASCII letters; other characters are left as they are. */
  function LowerAscii(s: string): (r: string)
    ensures |r| == |s|
    ensures forall k :: 0 <= k < |r| ==> !('A' <= r[k] <= 'Z')
    ensures forall k :: 0 <= k < |s| ==> 'A' <= s[k] <= 'Z' ==> r[k] as int == s[k] as int + 32
    ensures forall k :: 0 <= k < |s| ==> !('A' <= s[k] <= 'Z') ==> r[k] == s[k]
  {
    if s == [] then [] else [LowerChar(s[0])] + LowerAscii(s[1..])
  }
}
