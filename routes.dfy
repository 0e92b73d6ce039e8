/**
 * The upload guard of the web layer: a filename is accepted when it has an
 * extension (the text after its last dot) whose lower-cased form is one of the
 * configured extensions.
 */
module Routes {
  import Config

  /** The index of the last occurrence of `c` in `s`, or -1 when there is none. */
  function LastIndexOf(s: string, c: char): (r: int)
    ensures -1 <= r < |s|
    ensures r >= 0 ==> s[r] == c
    ensures forall j :: r < j < |s| ==> s[j] != c
  {
    if s == [] then -1
    else if s[|s| - 1] == c then |s| - 1
    else LastIndexOf(s[..|s| - 1], c)
  }

  /** Python's `s.rsplit(sep, 1)`: split once, at the last separator. */
  function RSplitOnce(s: string, sep: char): (parts: seq<string>)
    ensures sep !in s ==> parts == [s]
    ensures sep in s ==> |parts| == 2 && s == parts[0] + [sep] + parts[1] && sep !in parts[1]
  {
    var k := LastIndexOf(s, sep);
    if k < 0 then [s]
    else
      assert s == s[..k] + [sep] + s[k + 1..];
      [s[..k], s[k + 1..]]
  }

  /** Lower-casing of one character (ASCII letters only). */
  function LowerChar(c: char): char
  {
    if 'A' <= c <= 'Z' then (c as int + 32) as char else c
  }

  /** Python's `str.lower()`, restricted to ASCII letters. */
  function Lower(s: string): string
  {
    seq(|s|, i requires 0 <= i < |s| => LowerChar(s[i]))
  }

  /** `allowed_file`: the filename has a dot and its lower-cased last extension is allowed. */
  predicate AllowedFile(filename: string, allowedExtensions: set<string>)
  {
    '.' in filename && Lower(RSplitOnce(filename, '.')[1]) in allowedExtensions
  }

  /** `allowed_file` with the application's configured extension set. */
  predicate AllowedUpload(filename: string)
  {
    AllowedFile(filename, Config.AllowedExtensions)
  }

  // ---------------------------------------------------------------------------
  // Properties
  // ---------------------------------------------------------------------------

  /** A filename without a dot is never accepted, whatever the extension set. */
  lemma NoDotRejected(filename: string, allowedExtensions: set<string>)
    requires '.' !in filename
    ensures !AllowedFile(filename, allowedExtensions)
  {
  }

  /**
   * Reference characterisation: the filename is accepted exactly when some dot in it
   * is followed by dot-free text whose lower-cased form is an allowed extension.
   */
  lemma AllowedFileCharacterization(filename: string, allowedExtensions: set<string>)
    ensures AllowedFile(filename, allowedExtensions) <==>
      exists k :: 0 <= k < |filename| && filename[k] == '.' && '.' !in filename[k + 1..]
        && Lower(filename[k + 1..]) in allowedExtensions
  {
  }

  /** Only the text after the last dot decides: `scan.tar.pdf` is judged by `pdf`. */
  lemma LastExtensionDecides(stem: string, extension: string, allowedExtensions: set<string>)
    requires '.' !in extension
    ensures AllowedFile(stem + "." + extension, allowedExtensions) <==> Lower(extension) in allowedExtensions
  {
    var filename := stem + "." + extension;
    assert filename[|stem|] == '.';
    assert filename[|stem| + 1..] == extension;
    AllowedFileCharacterization(filename, allowedExtensions);
  }

  lemma LowerCharIdempotent(c: char)
    ensures LowerChar(LowerChar(c)) == LowerChar(c)
    ensures LowerChar(c) == '.' <==> c == '.'
  {
  }

  lemma LowerSlice(s: string, k: nat)
    requires k <= |s|
    ensures Lower(s)[k..] == Lower(s[k..])
    ensures Lower(Lower(s[k..])) == Lower(s[k..])
    ensures ('.' in Lower(s)[k..]) <==> ('.' in s[k..])
  {
    forall i | 0 <= i < |s| - k
      ensures Lower(Lower(s[k..]))[i] == Lower(s[k..])[i]
    {
      LowerCharIdempotent(s[k + i]);
    }
    if '.' in Lower(s)[k..] {
      var i :| 0 <= i < |s| - k && Lower(s)[k..][i] == '.';
      LowerCharIdempotent(s[k + i]);
      assert s[k..][i] == '.';
    }
    if '.' in s[k..] {
      var i :| 0 <= i < |s| - k && s[k..][i] == '.';
      assert Lower(s)[k..][i] == '.';
    }
  }

  /** Lower-casing the whole filename never changes the verdict. */
  lemma AllowedFileOfLower(filename: string, allowedExtensions: set<string>)
    ensures AllowedFile(Lower(filename), allowedExtensions) == AllowedFile(filename, allowedExtensions)
  {
    var low := Lower(filename);
    AllowedFileCharacterization(filename, allowedExtensions);
    AllowedFileCharacterization(low, allowedExtensions);
    forall k | 0 <= k < |filename|
      ensures (low[k] == '.' && '.' !in low[k + 1..] && Lower(low[k + 1..]) in allowedExtensions)
        <==> (filename[k] == '.' && '.' !in filename[k + 1..] && Lower(filename[k + 1..]) in allowedExtensions)
    {
      LowerCharIdempotent(filename[k]);
      LowerSlice(filename, k + 1);
    }
  }

  /** The match is case-insensitive: `X.PNG` is accepted exactly when `x.png` is. */
  lemma CaseInsensitive(a: string, b: string, allowedExtensions: set<string>)
    requires Lower(a) == Lower(b)
    ensures AllowedFile(a, allowedExtensions) == AllowedFile(b, allowedExtensions)
  {
    AllowedFileOfLower(a, allowedExtensions);
    AllowedFileOfLower(b, allowedExtensions);
  }

  /** Accepted: inner dots are ignored, and a bare extension suffices. */
  lemma AcceptedExamples()
    ensures AllowedUpload("scan.tar.pdf")
    ensures AllowedUpload(".pdf")
  {
    assert Lower("pdf") == "pdf";
    LastExtensionDecides("scan.tar", "pdf", Config.AllowedExtensions);
    assert "scan.tar" + "." + "pdf" == "scan.tar.pdf";
    LastExtensionDecides("", "pdf", Config.AllowedExtensions);
    assert "" + "." + "pdf" == ".pdf";
  }

  /** Accepted: upper case is folded before the lookup. */
  lemma UpperCaseExample()
    ensures AllowedUpload("X.PNG")
  {
    assert Lower("PNG") == "png";
    LastExtensionDecides("X", "PNG", Config.AllowedExtensions);
    assert "X" + "." + "PNG" == "X.PNG";
  }

  /** Refused: a disguised last extension, an empty extension, and no dot at all. */
  lemma RejectedExamples()
    ensures !AllowedUpload("report.pdf.exe")
    ensures !AllowedUpload("archive.")
    ensures !AllowedUpload("pdf")
  {
    LastExtensionDecides("report.pdf", "exe", Config.AllowedExtensions);
    assert "report.pdf" + "." + "exe" == "report.pdf.exe";
    var low := Lower("exe");
    assert |low| == 3 && low[0] == 'e';
    LastExtensionDecides("archive", "", Config.AllowedExtensions);
    assert "archive" + "." + "" == "archive.";
    assert Lower("") == "";
    assert '.' !in "pdf";
  }
}
