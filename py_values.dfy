/** Python value conventions that the application's code relies on everywhere:
    optional attributes (`None`), truthiness of text and integers, the
    `x or default` idiom, f-string rendering of `None`, `str(int)` and `int(str)`,
    `str.lower()`, `str.strip()` and the `in` operator on strings. */
module PyValues {

  datatype Option<+T> = None | Some(value: T)

  /** The outcome of a call that may raise: its value, or the exception's message. */
  datatype Result<+T> = Success(value: T) | Failure(error: string)

  /** `bool(x)` for an optional text attribute: `None` and `''` are falsy. */
  predicate Truthy(o: Option<string>) {
    o.Some? && o.value != ""
  }

  /** `bool(n)` for an optional integer attribute: `None` and `0` are falsy. */
  predicate IntTruthy(o: Option<int>) {
    o.Some? && o.value != 0
  }

  /** `x or d` for an optional text attribute. */
  function Or(o: Option<string>, d: string): (r: string)
    ensures Truthy(o) ==> r == o.value
    ensures !Truthy(o) ==> r == d
  {
    if Truthy(o) then o.value else d
  }

  /** `a or b` for two optional text attributes. */
  function OrElse(a: Option<string>, b: Option<string>): (r: Option<string>)
    ensures Truthy(a) ==> r == a
    ensures !Truthy(a) ==> r == b
  {
    if Truthy(a) then a else b
  }

  /** The text a python-docx paragraph created from an optional attribute holds:
      `None` creates an empty paragraph. */
  function TextOrEmpty(o: Option<string>): string {
    match o
    case None => ""
    case Some(s) => s
  }

  /** `list(filter(None, xs))`: the truthy texts of `xs`, in order. */
  function TruthyTexts(xs: seq<Option<string>>): (r: seq<string>)
    ensures |r| <= |xs|
    ensures forall i :: 0 <= i < |r| ==> r[i] != ""
  {
    if |xs| == 0 then []
    else TruthyTexts(xs[..|xs| - 1]) + (if Truthy(xs[|xs| - 1]) then [xs[|xs| - 1].value] else [])
  }

  /** `if x: text += f"{prefix}{x}{suffix}"`: the fragment is added only for a truthy `x`. */
  function IfTruthy(o: Option<string>, prefix: string, suffix: string): string {
    if Truthy(o) then prefix + o.value + suffix else ""
  }

  /** `f"{x}"` for an optional text attribute: `None` renders as the text `None`. */
  function Str(o: Option<string>): string {
    match o
    case None => "None"
    case Some(s) => s
  }

  // ------------------------------------------------------------------
  // str(int) and int(str)
  // ------------------------------------------------------------------

  predicate IsDigit(c: char) {
    '0' <= c <= '9'
  }

  predicate AllDigits(s: string) {
    forall i :: 0 <= i < |s| ==> IsDigit(s[i])
  }

  function DigitChar(d: nat): (c: char)
    requires d < 10
    ensures IsDigit(c)
  {
    ['0', '1', '2', '3', '4', '5', '6', '7', '8', '9'][d]
  }

  function DigitValue(c: char): (d: nat)
    requires IsDigit(c)
    ensures d < 10
  {
    (c as int - '0' as int) as nat
  }

  /** Decimal digits of a natural number, most significant first, no leading zeros. */
  function NatToDigits(n: nat): (s: string)
    ensures |s| >= 1
    ensures AllDigits(s)
    decreases n
  {
    if n < 10 then [DigitChar(n)] else NatToDigits(n / 10) + [DigitChar(n % 10)]
  }

  /** Value of a run of decimal digits. */
  function DigitsValue(s: string): nat
    requires AllDigits(s)
  {
    if |s| == 0 then 0 else DigitsValue(s[..|s| - 1]) * 10 + DigitValue(s[|s| - 1])
  }

  /** `str(n)` for a Python int. */
  function IntToString(n: int): string {
    if n < 0 then "-" + NatToDigits(-n) else NatToDigits(n)
  }

  /** `int(s)`: an optional sign followed by one or more decimal digits;
      anything else raises ValueError, modelled as `None`. */
  function ParseInt(s: string): (r: Option<int>)
    ensures r.Some? ==> |s| > 0
  {
    if |s| > 0 && (s[0] == '-' || s[0] == '+') then
      var rest := s[1..];
      if |rest| > 0 && AllDigits(rest) then
        Some(if s[0] == '-' then -(DigitsValue(rest) as int) else DigitsValue(rest))
      else None
    else if |s| > 0 && AllDigits(s) then Some(DigitsValue(s))
    else None
  }

  lemma {:induction false} DigitsValueOfNatToDigits(n: nat)
    ensures DigitsValue(NatToDigits(n)) == n
    decreases n
  {
    var s := NatToDigits(n);
    if n < 10 {
      assert DigitValue(DigitChar(n)) == n;
    } else {
      DigitsValueOfNatToDigits(n / 10);
      assert s[..|s| - 1] == NatToDigits(n / 10);
      assert DigitValue(DigitChar(n % 10)) == n % 10;
    }
  }

  /** `int(str(n)) == n`: the decimal text of an integer parses back to it. */
  lemma ParseIntOfIntToString(n: int)
    ensures ParseInt(IntToString(n)) == Some(n)
  {
    var s := IntToString(n);
    if n < 0 {
      var rest := NatToDigits(-n);
      DigitsValueOfNatToDigits(-n);
      assert s == "-" + rest;
      assert s[1..] == rest;
      assert ParseInt(s) == Some(-(DigitsValue(rest) as int));
    } else {
      DigitsValueOfNatToDigits(n);
      assert s == NatToDigits(n);
      assert IsDigit(s[0]);
      assert ParseInt(s) == Some(DigitsValue(s));
    }
  }


  // ------------------------------------------------------------------
  // Text operations
  // ------------------------------------------------------------------

  /** `c.lower()` on the ASCII letters; other characters are unchanged. */
  function LowerChar(c: char): (r: char)
    ensures 'A' <= c <= 'Z' ==> 'a' <= r <= 'z'
    ensures !('A' <= c <= 'Z') ==> r == c
  {
    if 'A' <= c <= 'Z' then (c as int - 'A' as int + 'a' as int) as char else c
  }

  function Lower(s: string): (r: string)
    ensures |r| == |s|
    ensures forall i :: 0 <= i < |s| ==> r[i] == LowerChar(s[i])
  {
    if |s| == 0 then [] else Lower(s[..|s| - 1]) + [LowerChar(s[|s| - 1])]
  }

  /** `c.upper()` for the Latin-1 characters: the ASCII and Latin-1 lower-case
      letters map to their capitals, `ß` to `SS`, `µ` to Greek capital mu and
      `ÿ` to `Ÿ`; every other character is unchanged. */
  function UpperChar(c: char): (r: string)
    ensures 1 <= |r| <= 2
    ensures forall i :: 0 <= i < |r| ==> !('a' <= r[i] <= 'z')
  {
    if 'a' <= c <= 'z' || ('\U{00E0}' <= c <= '\U{00FE}' && c != '\U{00F7}') then [(c as int - 32) as char]
    else if c == '\U{00DF}' then "SS"
    else if c == '\U{00B5}' then "\U{039C}"
    else if c == '\U{00FF}' then "\U{0178}"
    else [c]
  }

  /** `s.upper()`, character by character. */
  function Upper(s: string): (r: string)
    ensures |s| <= |r| <= 2 * |s|
  {
    if |s| == 0 then "" else Upper(s[..|s| - 1]) + UpperChar(s[|s| - 1])
  }

  lemma {:induction false} UpperAppend(a: string, b: string)
    ensures Upper(a + b) == Upper(a) + Upper(b)
    decreases |b|
  {
    if |b| == 0 {
      assert a + b == a;
    } else {
      var init, c := b[..|b| - 1], b[|b| - 1];
      assert (a + b)[..|a + b| - 1] == a + init;
      assert (a + b)[|a + b| - 1] == c;
      UpperAppend(a, init);
      assert Upper(a + b) == Upper(a + init) + UpperChar(c);
      assert Upper(b) == Upper(init) + UpperChar(c);
      StringAssoc(Upper(a), Upper(init), UpperChar(c));
    }
  }

  /** Concatenation regroups freely; stated once so that long proofs can
      name the one regrouping they need. */
  lemma StringAssoc(a: string, b: string, c: string)
    ensures (a + b) + c == a + (b + c)
  {
  }

  lemma UpperOfUpperChar(c: char)
    ensures Upper(UpperChar(c)) == UpperChar(c)
  {
    var u := UpperChar(c);
    if |u| == 1 {
      assert Upper(u) == Upper(u[..0]) + UpperChar(u[0]);
    } else {
      assert u == "SS";
      assert u[..1] == "S";
      assert Upper(u[..1]) == Upper(u[..1][..0]) + UpperChar('S');
    }
  }

  /** No ASCII lower-case letter survives upper-casing. */
  lemma {:induction false} UpperHasNoLowerAscii(s: string)
    ensures forall i :: 0 <= i < |Upper(s)| ==> !('a' <= Upper(s)[i] <= 'z')
    decreases |s|
  {
    if |s| > 0 {
      var init := s[..|s| - 1];
      UpperHasNoLowerAscii(init);
      var u, t := Upper(init), UpperChar(s[|s| - 1]);
      forall i | |u| <= i < |u| + |t|
        ensures !('a' <= (u + t)[i] <= 'z')
      {
        assert (u + t)[i] == t[i - |u|];
      }
    }
  }

  /** Upper-casing twice changes nothing more. */
  lemma {:induction false} UpperIdempotent(s: string)
    ensures Upper(Upper(s)) == Upper(s)
    decreases |s|
  {
    if |s| > 0 {
      var init, c := s[..|s| - 1], s[|s| - 1];
      UpperIdempotent(init);
      UpperAppend(Upper(init), UpperChar(c));
      UpperOfUpperChar(c);
    }
  }

  /** The characters `str.isspace()` accepts. */
  predicate IsSpace(c: char) {
    c == ' ' || ('\t' <= c <= '\r') || ('\U{1C}' <= c <= '\U{1F}')
    || c == '\U{85}' || c == '\U{A0}' || c == '\U{1680}' || ('\U{2000}' <= c <= '\U{200A}')
    || c == '\U{2028}' || c == '\U{2029}' || c == '\U{202F}' || c == '\U{205F}' || c == '\U{3000}'
  }

  function StripLeft(s: string): (r: string)
    ensures |r| <= |s| && r == s[|s| - |r|..]
    ensures |r| > 0 ==> !IsSpace(r[0])
    ensures forall i :: 0 <= i < |s| - |r| ==> IsSpace(s[i])
  {
    if |s| > 0 && IsSpace(s[0]) then StripLeft(s[1..]) else s
  }

  function StripRight(s: string): (r: string)
    ensures |r| <= |s| && r == s[..|r|]
    ensures |r| > 0 ==> !IsSpace(r[|r| - 1])
    ensures forall i :: |r| <= i < |s| ==> IsSpace(s[i])
  {
    if |s| > 0 && IsSpace(s[|s| - 1]) then StripRight(s[..|s| - 1]) else s
  }

  /** `s.strip()`: leading and trailing whitespace removed. */
  function Strip(s: string): (r: string)
    ensures |r| <= |s|
    ensures |r| > 0 ==> !IsSpace(r[0]) && !IsSpace(r[|r| - 1])
  {
    StripRight(StripLeft(s))
  }

  predicate IsPrefix(p: string, s: string) {
    |p| <= |s| && s[..|p|] == p
  }

  /** `p` occurs in `s` starting at index `i`. */
  predicate OccursAt(s: string, p: string, i: int) {
    0 <= i <= |s| - |p| && s[i..i + |p|] == p
  }

  /** `p in s` for strings. */
  function Contains(s: string, p: string): (r: bool)
    ensures r <==> exists i :: OccursAt(s, p, i)
  {
    ContainsFrom(s, p, 0)
  }

  function ContainsFrom(s: string, p: string, k: nat): (r: bool)
    requires k <= |s|
    ensures r <==> exists i :: k <= i && OccursAt(s, p, i)
    decreases |s| - k
  {
    if |s| - k < |p| then false
    else if s[k..k + |p|] == p then assert OccursAt(s, p, k); true
    else ContainsFrom(s, p, k + 1)
  }

  /** `s.find(c)`: the first index holding `c`, or -1. */
  function Find(s: string, c: char): (r: int)
    ensures -1 <= r < |s|
    ensures r >= 0 ==> s[r] == c
    ensures forall j :: 0 <= j < |s| && (r < 0 || j < r) ==> s[j] != c
  {
    if |s| == 0 then -1
    else if s[0] == c then 0
    else
      var r := Find(s[1..], c);
      if r < 0 then -1 else r + 1
  }

  /** `s.rfind(c)`: the last index holding `c`, or -1. */
  function RFind(s: string, c: char): (r: int)
    ensures -1 <= r < |s|
    ensures r >= 0 ==> s[r] == c
    ensures forall k :: r < k < |s| ==> s[k] != c
  {
    if |s| == 0 then -1
    else if s[|s| - 1] == c then |s| - 1
    else RFind(s[..|s| - 1], c)
  }

  /** `s.replace(a, b)` for single characters. */
  function ReplaceChar(s: string, a: char, b: char): (r: string)
    ensures |r| == |s|
    ensures forall i :: 0 <= i < |s| ==> r[i] == (if s[i] == a then b else s[i])
  {
    if |s| == 0 then [] else ReplaceChar(s[..|s| - 1], a, b) + [if s[|s| - 1] == a then b else s[|s| - 1]]
  }

  /** `sep.join(parts)`. */
  function Join(sep: string, parts: seq<string>): string {
    if |parts| == 0 then ""
    else if |parts| == 1 then parts[0]
    else Join(sep, parts[..|parts| - 1]) + sep + parts[|parts| - 1]
  }
}
