/**
 * A hand-written matcher for the issue-line regex of the test suite,
 *   (?P<line>\d+):(?P<column>\d+)-(?P<end_line>\d+):(?P<end_column>\d+)-
 *   (?P<message>.*) \((?P<severity>.*)\) -> ORIGIN=(?P<origin>.*)
 * with the regex's greedy semantics, digits restricted to ASCII. Since `.`
 * does not match a newline, every match lies within one line and runs to the
 * end of it, so `re.finditer` yields at most one match per line: the one
 * starting at the leftmost position of the line where the regex matches.
 */
module IssueLines {
  import opened Wrappers
  import opened LinterTypes
  import opened Extraction

  const SeverityOpen := " ("
  const OriginSeparator := ") -> ORIGIN="

  /** `p` occurs in `s` starting at index `k`. */
  predicate OccursAt(s: string, p: string, k: nat) {
    k + |p| <= |s| && s[k..k + |p|] == p
  }

  /** The largest `k < n` at which `p` occurs in `s`. */
  function LastIndexBelow(s: string, p: string, n: nat): (r: Option<nat>)
    ensures r.Some? ==> r.value < n && OccursAt(s, p, r.value)
    ensures r.Some? ==> forall k :: r.value < k < n ==> !OccursAt(s, p, k)
    ensures r.None? ==> forall k :: 0 <= k < n ==> !OccursAt(s, p, k)
  {
    if n == 0 then None
    else if OccursAt(s, p, n - 1) then Some(n - 1)
    else LastIndexBelow(s, p, n - 1)
  }

  /** The start of the last occurrence of `p` in `s`. */
  function LastIndex(s: string, p: string): (r: Option<nat>)
    ensures r.Some? ==> OccursAt(s, p, r.value)
    ensures r.Some? ==> forall k :: r.value < k ==> !OccursAt(s, p, k)
    ensures r.None? ==> forall k :: !OccursAt(s, p, k)
  {
    LastIndexBelow(s, p, |s| + 1)
  }

  /** The last occurrence is the one with no occurrence after it. */
  lemma LastIndexIs(s: string, p: string, at: nat)
    requires OccursAt(s, p, at)
    requires forall k :: at < k ==> !OccursAt(s, p, k)
    ensures LastIndex(s, p) == Some(at)
  {
  }

  /** The length of the run of digits `s` starts with. */
  function DigitRun(s: string): (n: nat)
    ensures n <= |s|
    ensures forall i :: 0 <= i < n ==> IsDigit(s[i])
    ensures n < |s| ==> !IsDigit(s[n])
  {
    if |s| > 0 && IsDigit(s[0]) then 1 + DigitRun(s[1..]) else 0
  }

  /** `(?P<g>\d+)c`: a non-empty run of digits followed by `c`; the digits and what follows `c`. */
  function NumberThen(s: string, c: char): (r: Option<(string, string)>)
    requires !IsDigit(c)
    ensures r.Some? ==> IsNumeral(r.value.0) && s == r.value.0 + [c] + r.value.1
  {
    var n := DigitRun(s);
    if n == 0 || n == |s| || s[n] != c then None
    else
      assert s == s[..n] + [c] + s[n + 1..];
      Some((s[..n], s[n + 1..]))
  }

  /** `(?P<message>.*) \((?P<severity>.*)\) -> ORIGIN=(?P<origin>.*)` on the rest of a line, greedily. */
  function SplitTail(rest: string): (r: Option<(string, string, string)>)
  {
    var sep :- LastIndex(rest, OriginSeparator);
    var open :- LastIndex(rest[..sep], SeverityOpen);
    Some((rest[..open], rest[open + |SeverityOpen|..sep], rest[sep + |OriginSeparator|..]))
  }

  /** The regex matched at the start of `s`, a line or the tail of one. */
  function MatchAt(s: string): Option<Match> {
    var (line, s1) :- NumberThen(s, ':');
    var (column, s2) :- NumberThen(s1, '-');
    var (endLine, s3) :- NumberThen(s2, ':');
    var (endColumn, rest) :- NumberThen(s3, '-');
    var (message, severity, origin) :- SplitTail(rest);
    Some(Match(Some(line), Some(column), Some(endLine), Some(endColumn),
               Some(severity), Some(message), Some(origin)))
  }

  /** The leftmost match in `line` at or after index `k`. */
  function FirstMatchFrom(line: string, k: nat): Option<Match>
    requires k <= |line|
    decreases |line| - k
  {
    match MatchAt(line[k..])
    case Some(m) => Some(m)
    case None => if k == |line| then None else FirstMatchFrom(line, k + 1)
  }

  /** The length of the first line of `text`, up to its first newline. */
  function LineLength(text: string): (n: nat)
    ensures n <= |text|
    ensures forall i :: 0 <= i < n ==> text[i] != '\n'
    ensures n < |text| ==> text[n] == '\n'
  {
    if |text| == 0 || text[0] == '\n' then 0 else 1 + LineLength(text[1..])
  }

  /** `re.finditer(regex, text)`: the matches of the issue-line regex, line by line. */
  function ScanIssues(text: string): seq<Match>
    decreases |text|
  {
    var n := LineLength(text);
    var here := match FirstMatchFrom(text[..n], 0) case Some(m) => [m] case None => [];
    if n == |text| then here else here + ScanIssues(text[n + 1..])
  }

  /** One issue as a tool following this format reports it. */
  datatype Issue = Issue(line: nat, column: nat, endLine: nat, endColumn: nat,
                         message: string, severity: string, origin: string)

  /** The text fields can be printed and read back unambiguously. */
  predicate Printable(x: Issue) {
    && '\n' !in x.message && '\n' !in x.severity && '\n' !in x.origin
    && LastIndex(x.severity, SeverityOpen).None?
    && LastIndex(x.origin, OriginSeparator).None?
  }

  /** The text after the four positions. */
  function Tail(x: Issue): string {
    x.message + SeverityOpen + x.severity + OriginSeparator + x.origin
  }

  /** The four positions that start the line. */
  function Positions(x: Issue): string {
    NatToString(x.line) + ":" + NatToString(x.column) + "-"
      + NatToString(x.endLine) + ":" + NatToString(x.endColumn) + "-"
  }

  /** The line the tool prints for an issue, without its newline. */
  function FormatIssue(x: Issue): string {
    Positions(x) + Tail(x)
  }

  /** The match record the regex produces for an issue's line. */
  function IssueMatch(x: Issue): Match {
    Match(Some(NatToString(x.line)), Some(NatToString(x.column)),
          Some(NatToString(x.endLine)), Some(NatToString(x.endColumn)),
          Some(x.severity), Some(x.message), Some(x.origin))
  }

  /** The tool's whole report: every issue on a line of its own. */
  function FormatReport(xs: seq<Issue>): string {
    if xs == [] then "" else FormatIssue(xs[0]) + "\n" + FormatReport(xs[1..])
  }

  /** A printed number is read back whole when a non-digit follows it. */
  lemma {:induction false} NumberThenNatToString(n: nat, c: char, rest: string)
    requires !IsDigit(c)
    ensures NumberThen(NatToString(n) + [c] + rest, c) == Some((NatToString(n), rest))
  {
    var t := NatToString(n);
    var s := t + [c] + rest;
    ParseIntNatToString(n);
    DigitRunOfNumeral(t, [c] + rest);
    assert s == t + ([c] + rest);
    assert s[|t|] == c;
    assert s[..|t|] == t;
    assert s[|t| + 1..] == rest;
  }

  /** The digit run of a numeral followed by a non-digit is the numeral. */
  lemma {:induction false} DigitRunOfNumeral(t: string, u: string)
    requires forall i :: 0 <= i < |t| ==> IsDigit(t[i])
    requires |u| > 0 && !IsDigit(u[0])
    ensures DigitRun(t + u) == |t|
  {
    if |t| > 0 {
      assert (t + u)[1..] == t[1..] + u;
      DigitRunOfNumeral(t[1..], u);
    } else {
      assert t + u == u;
    }
  }

  /** The separator's only `)` is its first character, so two occurrences never overlap. */
  lemma OriginSeparatorHasOneParen()
    ensures forall i :: 1 <= i < |OriginSeparator| ==> OriginSeparator[i] != ')'
  {
  }

  /** The separator before the origin is the last one on the line. */
  lemma OriginSeparatorIsLast(x: Issue)
    requires forall j :: !OccursAt(x.origin, OriginSeparator, j)
    ensures LastIndex(Tail(x), OriginSeparator) == Some(|x.message| + 2 + |x.severity|)
  {
    var r := Tail(x);
    var sep := |x.message| + 2 + |x.severity|;
    var n := |OriginSeparator|;
    assert r == (x.message + SeverityOpen + x.severity) + OriginSeparator + x.origin;
    assert r[sep..sep + n] == OriginSeparator;
    assert r[sep + n..] == x.origin;
    forall k | sep < k
      ensures !OccursAt(r, OriginSeparator, k)
    {
      if sep + n <= k && k + n <= |r| {
        var j := k - sep - n;
        assert r[k..k + n] == r[sep + n..][j..j + n];
        assert r[k..k + n] == x.origin[j..j + n];
        assert !OccursAt(x.origin, OriginSeparator, j);
      } else if k < sep + n && k + n <= |r| {
        assert r[k] == r[sep..sep + n][k - sep];
        OriginSeparatorHasOneParen();
        assert r[k..k + n][0] != OriginSeparator[0];
      }
    }
    LastIndexIs(r, OriginSeparator, sep);
  }

  /** The ` (` that opens the severity is the last one before the separator. */
  lemma SeverityOpenIsLast(x: Issue)
    requires forall j :: !OccursAt(x.severity, SeverityOpen, j)
    ensures var head := x.message + SeverityOpen + x.severity;
            LastIndex(head, SeverityOpen) == Some(|x.message|)
  {
    var head := x.message + SeverityOpen + x.severity;
    var m := |x.message|;
    assert head[m..m + 2] == SeverityOpen;
    assert head[m + 2..] == x.severity;
    forall k | m < k
      ensures !OccursAt(head, SeverityOpen, k)
    {
      if m + 2 <= k && k + 2 <= |head| {
        var j := k - m - 2;
        assert head[k..k + 2] == head[m + 2..][j..j + 2];
        assert head[k..k + 2] == x.severity[j..j + 2];
        assert !OccursAt(x.severity, SeverityOpen, j);
      } else if k == m + 1 && k + 2 <= |head| {
        assert head[k] == head[m..m + 2][1];
        assert head[k] == '(';
        assert head[k..k + 2][0] != SeverityOpen[0];
      }
    }
    LastIndexIs(head, SeverityOpen, m);
  }

  /** The greedy message and severity groups split the tail where it was joined. */
  lemma SplitTailOfIssue(x: Issue)
    requires LastIndex(x.severity, SeverityOpen).None? && LastIndex(x.origin, OriginSeparator).None?
    ensures SplitTail(Tail(x)) == Some((x.message, x.severity, x.origin))
  {
    var r := Tail(x);
    var sep := |x.message| + 2 + |x.severity|;
    OriginSeparatorIsLast(x);
    SeverityOpenIsLast(x);
    assert r == (x.message + SeverityOpen + x.severity) + OriginSeparator + x.origin;
    assert r[..sep] == x.message + SeverityOpen + x.severity;
    assert r[..|x.message|] == x.message;
    assert r[|x.message| + 2..sep] == x.severity;
    assert r[sep + |OriginSeparator|..] == x.origin;
  }

  /** The regex matches a printed issue line from its first character, capturing each field. */
  lemma MatchAtFormatIssue(x: Issue)
    requires Printable(x)
    ensures MatchAt(FormatIssue(x)) == Some(IssueMatch(x))
  {
    var t := Tail(x);
    var s3 := NatToString(x.endColumn) + "-" + t;
    var s2 := NatToString(x.endLine) + ":" + s3;
    var s1 := NatToString(x.column) + "-" + s2;
    assert FormatIssue(x) == NatToString(x.line) + ":" + s1;
    NumberThenNatToString(x.line, ':', s1);
    NumberThenNatToString(x.column, '-', s2);
    NumberThenNatToString(x.endLine, ':', s3);
    NumberThenNatToString(x.endColumn, '-', t);
    SplitTailOfIssue(x);
  }

  /** A printed report is scanned back into one match per issue, in order. */
  lemma {:induction false} ScanFormatReport(xs: seq<Issue>)
    requires forall i :: 0 <= i < |xs| ==> Printable(xs[i])
    ensures ScanIssues(FormatReport(xs)) == MapIssueMatch(xs)
  {
    if xs != [] {
      var line := FormatIssue(xs[0]);
      var rest := FormatReport(xs[1..]);
      var text := FormatReport(xs);
      assert text == line + "\n" + rest;
      NoNewlineInFormatIssue(xs[0]);
      LineLengthOf(line, rest);
      assert text[..|line|] == line;
      assert text[|line| + 1..] == rest;
      MatchAtFormatIssue(xs[0]);
      assert line[0..] == line;
      ScanFormatReport(xs[1..]);
    } else {
      assert ScanIssues("") == [];
    }
  }

  /** The match records of a list of issues. */
  function MapIssueMatch(xs: seq<Issue>): (ms: seq<Match>)
    ensures |ms| == |xs|
    ensures forall i :: 0 <= i < |xs| ==> ms[i] == IssueMatch(xs[i])
  {
    if xs == [] then [] else [IssueMatch(xs[0])] + MapIssueMatch(xs[1..])
  }

  lemma {:induction false} LineLengthOf(line: string, rest: string)
    requires '\n' !in line
    ensures LineLength(line + "\n" + rest) == |line|
  {
    var text := line + "\n" + rest;
    if |line| > 0 {
      assert text[0] == line[0];
      assert text[1..] == line[1..] + "\n" + rest;
      LineLengthOf(line[1..], rest);
    } else {
      assert text[0] == '\n';
    }
  }

  lemma NoNewlineInFormatIssue(x: Issue)
    requires Printable(x)
    ensures '\n' !in FormatIssue(x)
  {
    NumeralHasNoNewline(x.line);
    NumeralHasNoNewline(x.column);
    NumeralHasNoNewline(x.endLine);
    NumeralHasNoNewline(x.endColumn);
  }

  lemma NumeralHasNoNewline(n: nat)
    ensures '\n' !in NatToString(n)
  {
    ParseIntNatToString(n);
  }

  /** The diagnostic `_process_output` should give for a reported issue. */
  function IssueDiagnostic(severityMap: SeverityMap, filename: string, x: Issue): Diagnostic
    requires x.severity in severityMap
  {
    Diagnostic(Named(x.origin), x.message, filename, Some(x.line), Some(x.column),
               Some(x.endLine), Some(x.endColumn), severityMap[x.severity])
  }

  lemma {:induction false} IssueMatchConverts(severityMap: SeverityMap, filename: string, x: Issue)
    requires x.severity in severityMap
    ensures ToDiagnostic(severityMap, filename, IssueMatch(x)) == Success(IssueDiagnostic(severityMap, filename, x))
  {
    ParseIntNatToString(x.line);
    ParseIntNatToString(x.column);
    ParseIntNatToString(x.endLine);
    ParseIntNatToString(x.endColumn);
  }

  /**
   * From a tool's report to diagnostics: scanning a report with the
   * issue-line regex and processing the matches gives back every printable
   * issue whose severity is mapped, in the order reported, with its
   * positions, message, origin and mapped severity, and the file name
   * attached.
   */
  lemma {:induction false} ReportRoundTrip(severityMap: SeverityMap, filename: string, xs: seq<Issue>)
    requires forall i :: 0 <= i < |xs| ==> Printable(xs[i]) && xs[i].severity in severityMap
    ensures var r := ProcessOutput(severityMap, filename, ScanIssues(FormatReport(xs)));
      && r.Success?
      && |r.value| == |xs|
      && forall i :: 0 <= i < |xs| ==> r.value[i] == IssueDiagnostic(severityMap, filename, xs[i])
  {
    ScanFormatReport(xs);
    var ms := ScanIssues(FormatReport(xs));
    forall i | 0 <= i < |xs|
      ensures ToDiagnostic(severityMap, filename, ms[i]) == Success(IssueDiagnostic(severityMap, filename, xs[i]))
    {
      IssueMatchConverts(severityMap, filename, xs[i]);
    }
  }

  /** The three issues of the test suite's sample output. */
  const SampleIssue0 := Issue(12, 4, 14, 0, "Serious issue", "error", "X")
  const SampleIssue1 := Issue(0, 0, 0, 1, "This is a warning", "warning", "Y")
  const SampleIssue2 := Issue(813, 77, 1024, 32, "Just a note", "info", "Z")
  const SampleIssues := [SampleIssue0, SampleIssue1, SampleIssue2]

  /** A severity label without spaces cannot contain the text that opens it. */
  lemma NoSeverityOpenWithoutSpace(severity: string)
    requires ' ' !in severity
    ensures LastIndex(severity, SeverityOpen).None?
  {
    forall k: nat | k + |SeverityOpen| <= |severity|
      ensures !OccursAt(severity, SeverityOpen, k)
    {
      assert severity[k..k + |SeverityOpen|][0] == severity[k];
    }
  }

  lemma SampleTail0()
    ensures Tail(SampleIssue0) == "Serious issue (error) -> ORIGIN=X"
  {
  }

  lemma SamplePositions0()
    ensures Positions(SampleIssue0) == "12:4-14:0-"
  {
  }

  lemma SampleJoined0()
    ensures "12:4-14:0-" + "Serious issue (error) -> ORIGIN=X" == "12:4-14:0-Serious issue (error) -> ORIGIN=X"
  {
  }

  lemma SampleLine0Printed()
    ensures FormatIssue(SampleIssue0) == "12:4-14:0-Serious issue (error) -> ORIGIN=X"
  {
    var x := SampleIssue0;
    assert FormatIssue(x) == Positions(x) + Tail(x);
    SampleTail0();
    SamplePositions0();
    SampleJoined0();
  }

  lemma SampleTail1()
    ensures Tail(SampleIssue1) == "This is a warning (warning) -> ORIGIN=Y"
  {
  }

  lemma SamplePositions1()
    ensures Positions(SampleIssue1) == "0:0-0:1-"
  {
  }

  lemma SampleJoined1()
    ensures "0:0-0:1-" + "This is a warning (warning) -> ORIGIN=Y" == "0:0-0:1-This is a warning (warning) -> ORIGIN=Y"
  {
  }

  lemma SampleLine1Printed()
    ensures FormatIssue(SampleIssue1) == "0:0-0:1-This is a warning (warning) -> ORIGIN=Y"
  {
    var x := SampleIssue1;
    assert FormatIssue(x) == Positions(x) + Tail(x);
    SampleTail1();
    SamplePositions1();
    SampleJoined1();
  }

  lemma SampleTail2()
    ensures Tail(SampleIssue2) == "Just a note (info) -> ORIGIN=Z"
  {
  }

  lemma SamplePositions2()
    ensures Positions(SampleIssue2) == "813:77-1024:32-"
  {
  }

  lemma SampleJoined2()
    ensures "813:77-1024:32-" + "Just a note (info) -> ORIGIN=Z" == "813:77-1024:32-Just a note (info) -> ORIGIN=Z"
  {
  }

  lemma SampleLine2Printed()
    ensures FormatIssue(SampleIssue2) == "813:77-1024:32-Just a note (info) -> ORIGIN=Z"
  {
    var x := SampleIssue2;
    assert FormatIssue(x) == Positions(x) + Tail(x);
    SampleTail2();
    SamplePositions2();
    SampleJoined2();
  }

  lemma SampleReportPrinted()
    ensures FormatReport(SampleIssues) == SampleOutput
  {
    var xs := SampleIssues;
    var a, b, c := FormatIssue(SampleIssue0), FormatIssue(SampleIssue1), FormatIssue(SampleIssue2);
    var ys, zs: seq<Issue> := [SampleIssue1, SampleIssue2], [SampleIssue2];
    assert xs[1..] == ys && ys[1..] == zs && zs[1..] == [];
    assert FormatReport(zs) == c + "\n" + "";
    assert FormatReport(ys) == b + "\n" + FormatReport(zs);
    assert FormatReport(xs) == a + "\n" + FormatReport(ys);
    SampleLine0Printed();
    SampleLine1Printed();
    SampleLine2Printed();
    ThreeLines(a, b, c);
  }

  lemma ThreeLines(a: string, b: string, c: string)
    ensures a + "\n" + (b + "\n" + (c + "\n" + "")) == a + "\n" + b + "\n" + c + "\n"
  {
  }

  /** The issue-line regex of the test suite, as a Python raw string. */
  const IssueRegex := "(?P<line>\\d+):(?P<column>\\d+)-(?P<end_line>\\d+):(?P<end_column>\\d+)-"
                    + "(?P<message>.*) \\((?P<severity>.*)\\) -> ORIGIN=(?P<origin>.*)"

  /** The diagnostics expected for the sample issues. */
  const SampleDiagnostics := [
    Diagnostic(Named("X"), "Serious issue", "some-file.xtx", Some(12), Some(4), Some(14), Some(0), Major),
    Diagnostic(Named("Y"), "This is a warning", "some-file.xtx", Some(0), Some(0), Some(0), Some(1), Normal),
    Diagnostic(Named("Z"), "Just a note", "some-file.xtx", Some(813), Some(77), Some(1024), Some(32), Minor)]

  /** A one-line issue whose severity has no space and whose origin is short is printable. */
  lemma PrintableWhenShort(x: Issue)
    requires '\n' !in x.message && '\n' !in x.severity && '\n' !in x.origin
    requires ' ' !in x.severity && |x.origin| < |OriginSeparator|
    ensures Printable(x)
  {
    NoSeverityOpenWithoutSpace(x.severity);
  }

  lemma SamplePrintable()
    ensures forall i :: 0 <= i < |SampleIssues| ==> Printable(SampleIssues[i]) && SampleIssues[i].severity in DefaultSeverityMap()
  {
    PrintableWhenShort(SampleIssue0);
    PrintableWhenShort(SampleIssue1);
    PrintableWhenShort(SampleIssue2);
  }

  lemma SampleReportDiagnostics()
    ensures ProcessOutput(DefaultSeverityMap(), "some-file.xtx", ScanIssues(FormatReport(SampleIssues)))
         == Success(SampleDiagnostics)
  {
    SamplePrintable();
    ThreeIssueReport(DefaultSeverityMap(), "some-file.xtx", SampleIssues);
    assert IssueDiagnostic(DefaultSeverityMap(), "some-file.xtx", SampleIssue0) == SampleDiagnostics[0];
    assert IssueDiagnostic(DefaultSeverityMap(), "some-file.xtx", SampleIssue1) == SampleDiagnostics[1];
    assert IssueDiagnostic(DefaultSeverityMap(), "some-file.xtx", SampleIssue2) == SampleDiagnostics[2];
  }

  lemma ThreeIssueReport(severityMap: SeverityMap, filename: string, xs: seq<Issue>)
    requires |xs| == 3
    requires forall i :: 0 <= i < |xs| ==> Printable(xs[i]) && xs[i].severity in severityMap
    ensures ProcessOutput(severityMap, filename, ScanIssues(FormatReport(xs)))
         == Success([IssueDiagnostic(severityMap, filename, xs[0]), IssueDiagnostic(severityMap, filename, xs[1]),
                     IssueDiagnostic(severityMap, filename, xs[2])])
  {
    ReportRoundTrip(severityMap, filename, xs);
    var r := ProcessOutput(severityMap, filename, ScanIssues(FormatReport(xs)));
    assert r.value == [r.value[0], r.value[1], r.value[2]];
  }

  /** The tool output of the test suite's sample. */
  const SampleOutput :=
    "12:4-14:0-Serious issue (error) -> ORIGIN=X" + "\n"
    + "0:0-0:1-This is a warning (warning) -> ORIGIN=Y" + "\n"
    + "813:77-1024:32-Just a note (info) -> ORIGIN=Z" + "\n"

  /** The sample output of the test suite, diagnosed with the default severity map. */
  lemma SampleOutputDiagnostics()
    ensures ProcessOutput(DefaultSeverityMap(), "some-file.xtx", ScanIssues(SampleOutput))
         == Success(SampleDiagnostics)
  {
    SampleReportPrinted();
    SampleReportDiagnostics();
  }
}
