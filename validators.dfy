/** The form-field validators. Each returns the message of the
    `ValidationError` it raises, or `None` when the value passes. An empty
    or missing value is never checked.

    The regular expressions are read with Python's `re.match` semantics:
    the match is anchored at the start only, and `$` also matches just
    before a final newline. */
module Validators {
  import opened PyValues

  // ------------------------------------------------------------------
  // Character classes
  // ------------------------------------------------------------------

  predicate Letter(c: char) {
    'a' <= c <= 'z' || 'A' <= c <= 'Z'
  }

  /** `[a-zA-Z0-9._%+-]`. */
  predicate LocalChar(c: char) {
    Letter(c) || IsDigit(c) || c == '.' || c == '_' || c == '%' || c == '+' || c == '-'
  }

  /** `[a-zA-Z0-9.-]`. */
  predicate DomainChar(c: char) {
    Letter(c) || IsDigit(c) || c == '.' || c == '-'
  }

  predicate AllLocal(s: string) {
    forall k :: 0 <= k < |s| ==> LocalChar(s[k])
  }

  predicate AllDomain(s: string) {
    forall k :: 0 <= k < |s| ==> DomainChar(s[k])
  }

  predicate AllLetters(s: string) {
    forall k :: 0 <= k < |s| ==> Letter(s[k])
  }

  /** What `$` allows: the end of the text, or a final newline. */
  predicate AtEnd(s: string, t: string) {
    s == t || s == t + "\n"
  }

  // ------------------------------------------------------------------
  // validate_email
  // ------------------------------------------------------------------

  /** The pattern `[a-zA-Z0-9._%+-]+@[a-zA-Z0-9.-]+\.[a-zA-Z]{2,}` matches
      all of `t`, with the `@` at `i` and the final `.` at `j`. */
  predicate EmailSplit(t: string, i: int, j: int) {
    1 <= i && i + 2 <= j && j + 3 <= |t|
    && AllLocal(t[..i]) && t[i] == '@' && AllDomain(t[i + 1..j]) && t[j] == '.' && AllLetters(t[j + 1..])
  }

  /** The email regular expression, as a set of strings. */
  ghost predicate EmailPattern(s: string) {
    exists t, i, j :: AtEnd(s, t) && EmailSplit(t, i, j)
  }

  /** The check of one candidate `t`: the local part runs to the first `@`,
      and the domain's last `.` has at least two letters after it. */
  predicate EmailCore(t: string) {
    var i := Find(t, '@');
    i >= 1 && AllLocal(t[..i])
    && var r := t[i + 1..];
       AllDomain(r) && var j := RFind(r, '.');
       j >= 1 && |r| - j - 1 >= 2 && AllLetters(r[j + 1..])
  }

  predicate EmailMatches(s: string) {
    EmailCore(s) || (|s| > 0 && s[|s| - 1] == '\n' && EmailCore(s[..|s| - 1]))
  }

  /** `validate_email`. */
  function ValidateEmail(email: Option<string>): (r: Option<string>)
    ensures r.None? <==> !Truthy(email) || EmailPattern(email.value)
    ensures r.Some? ==> r.value == "Email inválido"
  {
    if Truthy(email) then EmailMatchesIffPattern(email.value); if !EmailMatches(email.value) then Some("Email inválido") else None
    else None
  }

  lemma EmailCoreSound(t: string)
    requires EmailCore(t)
    ensures exists i, j :: EmailSplit(t, i, j)
  {
    var i := Find(t, '@');
    var r := t[i + 1..];
    var j := RFind(r, '.');
    assert t[i + 1..i + 1 + j] == r[..j];
    assert t[i + 1 + j + 1..] == r[j + 1..];
    assert EmailSplit(t, i, i + 1 + j);
  }

  lemma EmailCoreComplete(t: string, i: int, j: int)
    requires EmailSplit(t, i, j)
    ensures EmailCore(t)
  {
    assert forall k :: 0 <= k < i ==> t[..i][k] == t[k];
    assert Find(t, '@') == i;
    var r := t[i + 1..];
    forall k | 0 <= k < |r|
      ensures DomainChar(r[k])
    {
      if k < j - i - 1 {
        assert r[k] == t[i + 1..j][k];
      } else if k > j - i - 1 {
        assert r[k] == t[j + 1..][k - (j - i)];
      }
    }
    var d := j - i - 1;
    assert r[d] == '.';
    forall k | d < k < |r|
      ensures r[k] != '.'
    {
      assert r[k] == t[j + 1..][k - d - 1];
    }
    assert RFind(r, '.') == d;
    assert r[d + 1..] == t[j + 1..];
  }

  /** The validator's check accepts exactly the strings the regular
      expression matches. */
  lemma EmailMatchesIffPattern(s: string)
    ensures EmailMatches(s) <==> EmailPattern(s)
  {
    if EmailMatches(s) {
      EmailMatchesSound(s);
    }
    if EmailPattern(s) {
      EmailPatternComplete(s);
    }
  }

  /** What the check accepts, the regular expression matches. */
  lemma EmailMatchesSound(s: string)
    requires EmailMatches(s)
    ensures EmailPattern(s)
  {
    if EmailCore(s) {
      EmailCoreSound(s);
      var i, j :| EmailSplit(s, i, j);
      assert AtEnd(s, s);
    } else {
      var t := s[..|s| - 1];
      EmailCoreSound(t);
      var i, j :| EmailSplit(t, i, j);
      assert s == t + "\n";
      assert AtEnd(s, t);
    }
  }

  /** What the regular expression matches, the check accepts. */
  lemma EmailPatternComplete(s: string)
    requires EmailPattern(s)
    ensures EmailMatches(s)
  {
    var t, i, j :| AtEnd(s, t) && EmailSplit(t, i, j);
    EmailCoreComplete(t, i, j);
    if s != t {
      assert s[..|s| - 1] == t;
    }
  }

  // ------------------------------------------------------------------
  // validate_orcid
  // ------------------------------------------------------------------

  /** `\d{4}-\d{4}-\d{4}-\d{3}[\dX]` matching all of `t`. */
  predicate OrcidCore(t: string) {
    |t| == 19
    && (forall k :: 0 <= k < 18 && k != 4 && k != 9 && k != 14 ==> IsDigit(t[k]))
    && t[4] == '-' && t[9] == '-' && t[14] == '-'
    && (IsDigit(t[18]) || t[18] == 'X')
  }

  predicate OrcidMatches(s: string) {
    OrcidCore(s) || (|s| > 0 && s[|s| - 1] == '\n' && OrcidCore(s[..|s| - 1]))
  }

  /** `validate_orcid`. No checksum is verified. */
  function ValidateOrcid(orcid: Option<string>): (r: Option<string>)
    ensures r.None? <==> !Truthy(orcid) || OrcidMatches(orcid.value)
    ensures r.Some? ==> r.value == "ORCID ID inválido. Formato: 0000-0000-0000-0000"
  {
    if Truthy(orcid) && !OrcidMatches(orcid.value) then Some("ORCID ID inválido. Formato: 0000-0000-0000-0000") else None
  }

  /** Four dash-separated groups of four digits pass, whatever the check
      digit would be; an `X` may end the last group. */
  lemma OrcidGroupsPass(a: string, b: string, c: string, d: string, x: char)
    requires |a| == 4 && |b| == 4 && |c| == 4 && |d| == 3
    requires AllDigits(a) && AllDigits(b) && AllDigits(c) && AllDigits(d) && (IsDigit(x) || x == 'X')
    ensures ValidateOrcid(Some(a + "-" + b + "-" + c + "-" + d + [x])) == None
  {
    var s := a + "-" + b + "-" + c + "-" + d + [x];
    forall k | 0 <= k < 18 && k != 4 && k != 9 && k != 14
      ensures IsDigit(s[k])
    {
      if k < 4 { assert s[k] == a[k]; }
      else if k < 9 { assert s[k] == b[k - 5]; }
      else if k < 14 { assert s[k] == c[k - 10]; }
      else { assert s[k] == d[k - 15]; }
    }
    assert OrcidCore(s);
  }

  /** A non-empty ORCID passes only with 19 characters, or 20 when the last
      is a newline. */
  lemma OrcidLength(s: string)
    requires s != "" && ValidateOrcid(Some(s)) == None
    ensures |s| == 19 || (|s| == 20 && s[19] == '\n')
  {
  }

  // ------------------------------------------------------------------
  // validate_doi
  // ------------------------------------------------------------------

  /** `10\.\d{4,}/.+` matching a prefix of `s`, with `k` digits. */
  predicate DoiSplit(s: string, k: int) {
    k >= 4 && |s| >= 5 + k && s[..3] == "10." && AllDigits(s[3..3 + k]) && s[3 + k] == '/' && s[4 + k] != '\n'
  }

  ghost predicate DoiPattern(s: string) {
    exists k :: DoiSplit(s, k)
  }

  /** The number of digits at the start of `s`. */
  function LeadingDigits(s: string): (n: nat)
    ensures n <= |s| && AllDigits(s[..n])
    ensures n < |s| ==> !IsDigit(s[n])
  {
    if |s| == 0 || !IsDigit(s[0]) then 0
    else
      var n := LeadingDigits(s[1..]);
      assert s[..n + 1] == [s[0]] + s[1..][..n];
      n + 1
  }

  /** The check: `10.`, a run of at least four digits, `/`, then a
      character other than a newline. */
  predicate DoiMatches(s: string) {
    |s| >= 3 && s[..3] == "10."
    && var n := LeadingDigits(s[3..]);
       n >= 4 && |s| >= 5 + n && s[3 + n] == '/' && s[4 + n] != '\n'
  }

  /** `validate_doi`. */
  function ValidateDoi(doi: Option<string>): (r: Option<string>)
    ensures r.None? <==> !Truthy(doi) || DoiPattern(doi.value)
    ensures r.Some? ==> r.value == "DOI inválido. Formato: 10.xxxx/..."
  {
    if Truthy(doi) then DoiMatchesIffPattern(doi.value); if !DoiMatches(doi.value) then Some("DOI inválido. Formato: 10.xxxx/...") else None
    else None
  }

  /** The validator's check accepts exactly the strings whose prefix the
      regular expression matches. */
  lemma DoiMatchesIffPattern(s: string)
    ensures DoiMatches(s) <==> DoiPattern(s)
  {
    if DoiMatches(s) {
      var n := LeadingDigits(s[3..]);
      assert s[3..3 + n] == s[3..][..n];
      assert DoiSplit(s, n);
    }
    if DoiPattern(s) {
      var k :| DoiSplit(s, k);
      var n := LeadingDigits(s[3..]);
      assert forall m :: 0 <= m < k ==> s[3..][m] == s[3..3 + k][m];
      assert s[3..][k] == '/';
      assert n == k;
    }
  }

  // ------------------------------------------------------------------
  // validate_year
  // ------------------------------------------------------------------

  const CURRENT_YEAR := 2024

  /** `validate_year`. */
  function ValidateYear(year: Option<int>): (r: Option<string>)
    ensures r.None? <==> !IntTruthy(year) || 1900 <= year.value <= CURRENT_YEAR + 1
    ensures r.Some? ==> r.value == "Año debe estar entre 1900 y " + IntToString(CURRENT_YEAR + 1)
  {
    if IntTruthy(year) && (year.value < 1900 || year.value > CURRENT_YEAR + 1) then
      Some("Año debe estar entre 1900 y " + IntToString(CURRENT_YEAR + 1))
    else None
  }

  /** A year is rejected exactly when it is set, not 0, and outside 1900..2025. */
  lemma YearRange(year: Option<int>)
    ensures ValidateYear(year).Some? <==> year.Some? && year.value != 0 && (year.value < 1900 || year.value > 2025)
  {
  }

  /** Every validator lets an empty or missing value through. */
  lemma EmptyPasses()
    ensures ValidateEmail(None) == None && ValidateEmail(Some("")) == None
    ensures ValidateOrcid(None) == None && ValidateOrcid(Some("")) == None
    ensures ValidateDoi(None) == None && ValidateDoi(Some("")) == None
    ensures ValidateYear(None) == None && ValidateYear(Some(0)) == None
  {
  }
}
