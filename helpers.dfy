/** Small text helpers used by the views: upload-name checking, date
    formatting and truncation. */
module Helpers {
  import opened PyValues
  import opened Dates

  /** `ALLOWED_EXTENSIONS` of the application's configuration. */
  const ALLOWED_EXTENSIONS: set<string> := {"pdf", "doc", "docx", "jpg", "png"}

  /** `filename.rsplit('.', 1)[1]`: the text after the last dot. */
  function Extension(filename: string): string
    requires RFind(filename, '.') >= 0
  {
    filename[RFind(filename, '.') + 1..]
  }

  /** `allowed_file`: the name has a dot and its lower-cased extension is
      allowed. */
  function AllowedFile(filename: string, allowed: set<string>): (r: bool)
    ensures r ==> '.' in filename
    ensures r <==> '.' in filename && Lower(filename[RFind(filename, '.') + 1..]) in allowed
  {
    RFind(filename, '.') >= 0 && Lower(Extension(filename)) in allowed
  }

  /** A name is allowed exactly when what follows its last dot is an
      allowed extension in any ASCII case. */
  lemma AllowedFileIff(base: string, ext: string, allowed: set<string>)
    requires forall k :: 0 <= k < |ext| ==> ext[k] != '.'
    ensures AllowedFile(base + "." + ext, allowed) <==> Lower(ext) in allowed
  {
    LastDot(base, ext);
    assert (base + "." + ext)[|base| + 1..] == ext;
  }

  /** The last dot of `base.ext`, when `ext` has none, is the one before it. */
  lemma {:induction false} LastDot(base: string, ext: string)
    requires forall k :: 0 <= k < |ext| ==> ext[k] != '.'
    ensures RFind(base + "." + ext, '.') == |base|
    decreases |ext|
  {
    var f := base + "." + ext;
    if |ext| == 0 {
      assert f[|f| - 1] == '.';
    } else {
      assert f[|f| - 1] == ext[|ext| - 1];
      assert f[..|f| - 1] == base + "." + ext[..|ext| - 1];
      LastDot(base, ext[..|ext| - 1]);
    }
  }

  /** A name without a dot is never allowed. */
  lemma NoDotNotAllowed(filename: string, allowed: set<string>)
    requires forall k :: 0 <= k < |filename| ==> filename[k] != '.'
    ensures !AllowedFile(filename, allowed)
  {
  }

  /** Lower-casing makes the check case-insensitive: `CV.PDF` is a PDF. */
  lemma UpperCaseExtensionAllowed(base: string)
    ensures AllowedFile(base + ".PDF", ALLOWED_EXTENSIONS)
  {
    assert base + ".PDF" == base + "." + "PDF";
    AllowedFileIff(base, "PDF", ALLOWED_EXTENSIONS);
    assert Lower("PDF") == "pdf";
  }

  /** `format_date(date, format)`: `strftime` is the parameter `fmt`; a
      missing date gives `''`. */
  function FormatDate(date: Option<Date>, fmt: Date -> string): (r: string)
    ensures date.None? ==> r == ""
    ensures date.Some? ==> r == fmt(date.value)
  {
    match date
    case None => ""
    case Some(d) => fmt(d)
  }

  /** With the default `%d/%m/%Y` the text is empty exactly when the date
      is missing, and otherwise is `dd/mm/yyyy`-shaped. */
  lemma DefaultFormatDate(date: Option<Date>)
    ensures FormatDate(date, DayMonthYearText) == "" <==> date.None?
    ensures date.Some? ==>
              var s := FormatDate(date, DayMonthYearText);
              7 <= |s| <= 10 && s[2] == '/' && s[5] == '/'
  {
    if date.Some? {
      var d := date.value;
      var y := YearText(d);
      assert FormatDate(date, DayMonthYearText) == Pad2(d.day) + "/" + Pad2(d.month) + "/" + y;
    }
  }

  /** Python's `s[:n]`: a negative `n` counts from the end. */
  function SliceTo(s: string, n: int): (r: string)
    ensures |r| <= |s|
    ensures n >= 0 ==> |r| == if n < |s| then n else |s|
    ensures r == s[..|r|]
  {
    if n >= 0 then (if n < |s| then s[..n] else s)
    else if |s| + n > 0 then s[..|s| + n] else ""
  }

  /** `truncate_text(text, length)`. */
  function TruncateText(text: Option<string>, length: int): (r: string)
    ensures text.None? ==> r == ""
  {
    if Truthy(text) && |text.value| > length then SliceTo(text.value, length) + "..." else Or(text, "")
  }

  /** For a non-negative limit the result is at most three characters
      longer than the limit, and a text within the limit is unchanged. */
  lemma TruncateBounds(text: Option<string>, length: int)
    requires length >= 0
    ensures |TruncateText(text, length)| <= length + 3
    ensures text.Some? && |text.value| <= length ==> TruncateText(text, length) == text.value
    ensures text.Some? && |text.value| > length ==>
              TruncateText(text, length) == text.value[..length] + "..."
  {
  }

  /** Truncating twice with the same non-negative limit is truncating once. */
  lemma TruncateIdempotent(text: Option<string>, length: int)
    requires length >= 0
    ensures TruncateText(Some(TruncateText(text, length)), length) == TruncateText(text, length)
  {
    var r := TruncateText(text, length);
    if Truthy(text) && |text.value| > length {
      assert |r| == length + 3;
      assert r[..length] == text.value[..length];
      assert SliceTo(r, length) == r[..length];
    }
  }
}
