/** Extension-based file classification (`DocumentIngestionPipeline.get_file_type`, identical in
    both pipeline versions) over POSIX `pathlib` path semantics. */
module FileTypes {
  import opened Results
  import opened Text
  import opened Collections

  /** The two processors the ingestion pipeline registers. */
  datatype FileType = Pdf | Csv {
    /** The processor key: `'pdf'` or `'csv'`. */
    function Name(): string {
      match this
      case Pdf => "pdf"
      case Csv => "csv"
    }
  }

  /** A path component that names something: POSIX `pathlib` drops empty and `.` components. */
  predicate IsNamePart(part: string) { part != "" && part != "." }

  /** `PurePosixPath(path).name`: the last component that names something, or `""`. */
  function PathName(path: string): (name: string)
    ensures '/' !in name
  {
    var parts := Filter(Split(path, '/'), IsNamePart);
    FilterMembership(Split(path, '/'), IsNamePart, if |parts| == 0 then "" else parts[|parts| - 1]);
    if |parts| == 0 then "" else parts[|parts| - 1]
  }

  /** Index of the last occurrence of `c` in `s`. */
  function LastIndexOf(s: string, c: char): (r: Option<nat>)
    ensures r.Some? ==> r.value < |s| && s[r.value] == c && forall k :: r.value < k < |s| ==> s[k] != c
    ensures r.None? ==> c !in s
  {
    if |s| == 0 then None
    else if s[|s| - 1] == c then Some(|s| - 1)
    else LastIndexOf(s[..|s| - 1], c)
  }

  /** `PurePath.suffix`: from the last `.` of the name, provided that dot is neither the first nor
      the last character of the name; otherwise empty. */
  function Suffix(name: string): string {
    var i := LastIndexOf(name, '.');
    if i.Some? && 0 < i.value < |name| - 1 then name[i.value..] else ""
  }

  /** The last occurrence of `c` is found before a tail free of `c`. */
  lemma {:induction false} LastIndexOfBefore(s: string, c: char, t: string)
    requires c !in t
    ensures LastIndexOf(s + [c] + t, c) == Some(|s|)
  {
    if |t| > 0 {
      var u := s + [c] + t;
      assert u[..|u| - 1] == s + [c] + t[..|t| - 1];
      assert u[|u| - 1] == t[|t| - 1];
      LastIndexOfBefore(s, c, t[..|t| - 1]);
    }
  }

  /** A non-empty suffix is a proper tail of the name that starts with its only dot, after a
      non-empty stem, and has at least one more character. */
  lemma SuffixShape(name: string)
    ensures var x := Suffix(name);
      x == "" || (2 <= |x| < |name| && name[|name| - |x|..] == x && x[0] == '.' && '.' !in x[1..])
  {
    var x := Suffix(name);
    if x != "" {
      var i := LastIndexOf(name, '.').value;
      assert x[1..] == name[i + 1..];
    }
  }

  /** The suffix is empty exactly when the name has no dot after its first character or ends in one. */
  lemma SuffixEmpty(name: string)
    ensures Suffix(name) == "" <==>
      (forall k :: 0 < k < |name| ==> name[k] != '.') || (|name| > 0 && name[|name| - 1] == '.')
  {
    var i := LastIndexOf(name, '.');
    if i.Some? && i.value == 0 {
      assert forall k :: 0 < k < |name| ==> name[k] != '.';
    }
  }

  /** `get_file_type`: the lowercased suffix of the name decides; `.pdf` and `.csv` are the only
      accepted ones and anything else, including no suffix, is a `ValueError`. */
  function GetFileType(filename: string): (r: Result<FileType>)
    ensures r == Success(Pdf) <==> Lower(Suffix(PathName(filename))) == ".pdf"
    ensures r == Success(Csv) <==> Lower(Suffix(PathName(filename))) == ".csv"
    ensures r.Failure? <==> Lower(Suffix(PathName(filename))) !in {".pdf", ".csv"}
    ensures r.Failure? ==> r.error == "Unsupported file type: " + Lower(Suffix(PathName(filename)))
  {
    var ext := Lower(Suffix(PathName(filename)));
    if ext == ".pdf" then Success(Pdf)
    else if ext == ".csv" then Success(Csv)
    else Failure("Unsupported file type: " + ext)
  }

  /** Classification ignores case and the directory part: only the lowercased suffix matters. */
  lemma FileTypeDependsOnlyOnLoweredSuffix(f: string, g: string)
    requires Lower(Suffix(PathName(f))) == Lower(Suffix(PathName(g)))
    ensures GetFileType(f) == GetFileType(g)
  {
  }

  /** An accepted file always has a four-character suffix whose dot follows a non-empty stem. */
  lemma {:induction false} AcceptedHasStem(filename: string)
    requires GetFileType(filename).Success?
    ensures var name := PathName(filename); |name| >= 5 && |Suffix(name)| == 4
  {
    var name := PathName(filename);
    SuffixShape(name);
    assert |Lower(Suffix(name))| == 4;
  }

  /** A hidden file named just `.pdf` has no suffix, so it is rejected. */
  lemma DotfileRejected()
    ensures GetFileType(".pdf") == Failure("Unsupported file type: ")
  {
    SplitNoSep(".pdf", '/');
    assert Filter([".pdf"], IsNamePart) == [".pdf"];
    LastIndexOfBefore("", '.', "pdf");
    assert "" + ['.'] + "pdf" == ".pdf";
  }

  /** The extension is case-insensitive and the directory part is ignored. */
  lemma UpperCaseAccepted()
    ensures GetFileType("q3/Report.PDF") == Success(Pdf)
  {
    ReportName();
    ReportSuffix();
    LowerPdf();
  }

  lemma ReportName()
    ensures PathName("q3/Report.PDF") == "Report.PDF"
  {
    ReportParts();
    assert Filter(["q3", "Report.PDF"], IsNamePart) == ["q3", "Report.PDF"];
  }

  lemma ReportParts()
    ensures Split("q3/Report.PDF", '/') == ["q3", "Report.PDF"]
  {
    ReportPath();
    SplitFirst("q3", '/', "Report.PDF");
    SplitNoSep("Report.PDF", '/');
  }

  lemma ReportPath()
    ensures "q3/Report.PDF" == "q3" + ['/'] + "Report.PDF"
    ensures '/' !in "q3" && '/' !in "Report.PDF"
  {
  }

  lemma ReportSuffix()
    ensures Suffix("Report.PDF") == ".PDF"
  {
    assert "Report.PDF" == "Report" + ['.'] + "PDF";
    LastIndexOfBefore("Report", '.', "PDF");
  }

  lemma LowerPdf()
    ensures Lower(".PDF") == ".pdf"
  {
    var r := Lower(".PDF");
    assert r[0] == '.' && r[1] == 'p' && r[2] == 'd' && r[3] == 'f';
  }
}
