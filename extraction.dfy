/**
 * `_process_output(output, filename, file)` for an adapter with an output
 * regex: every match of the regex in the tool's output becomes one
 * diagnostic, in the order the matches appear. The regex engine itself is
 * not modelled: a match is the record of the named groups it captured.
 */
module Extraction {
  import opened Wrappers
  import opened LinterTypes

  /**
   * One regex match: the text of each named group, or `None` when the regex
   * has no such group or the group did not take part in the match.
   */
  datatype Match = Match(
    line: Option<string>,
    column: Option<string>,
    endLine: Option<string>,
    endColumn: Option<string>,
    severity: Option<string>,
    message: Option<string>,
    origin: Option<string>)

  /** Why a match could not be turned into a diagnostic. */
  datatype ExtractionError =
    | MissingGroup(group: string)
    | UnparsablePosition(group: string, text: string)
    | UnknownSeverity(severity: string)

  predicate IsDigit(c: char) {
    '0' <= c <= '9'
  }

  /** A non-empty string of decimal digits, the text `int(...)` is applied to. */
  predicate IsNumeral(s: string) {
    |s| > 0 && forall i :: 0 <= i < |s| ==> IsDigit(s[i])
  }

  function DigitValue(c: char): (d: nat)
    requires IsDigit(c)
    ensures d < 10
  {
    c as int - '0' as int
  }

  function DigitChar(d: nat): (c: char)
    requires d < 10
    ensures IsDigit(c) && DigitValue(c) == d
  {
    ('0' as int + d) as char
  }

  /** The value of a string of decimal digits, most significant digit first. */
  function NumeralValue(s: string): nat
    requires forall i :: 0 <= i < |s| ==> IsDigit(s[i])
  {
    if |s| == 0 then 0 else NumeralValue(s[..|s| - 1]) * 10 + DigitValue(s[|s| - 1])
  }

  /** The decimal representation of `n`, without leading zeros. */
  function NatToString(n: nat): string {
    if n < 10 then [DigitChar(n)] else NatToString(n / 10) + [DigitChar(n % 10)]
  }

  /** `int(text)` on a captured position: defined exactly on numerals. */
  function ParseInt(s: string): (r: Option<nat>)
    ensures r.Some? <==> IsNumeral(s)
  {
    if IsNumeral(s) then Some(NumeralValue(s)) else None
  }

  /** Parsing undoes printing: `int(str(n)) == n`. */
  lemma {:induction false} ParseIntNatToString(n: nat)
    ensures IsNumeral(NatToString(n))
    ensures ParseInt(NatToString(n)) == Some(n)
  {
    var s := NatToString(n);
    if n < 10 {
      assert s[..|s| - 1] == [];
      assert NumeralValue(s) == DigitValue(s[0]);
    } else {
      ParseIntNatToString(n / 10);
      var t := NatToString(n / 10);
      assert s == t + [DigitChar(n % 10)];
      assert s[..|s| - 1] == t;
    }
  }

  /** `k` zero digits. */
  function Zeros(k: nat): (z: string)
    ensures |z| == k && forall i :: 0 <= i < k ==> z[i] == '0'
  {
    if k == 0 then [] else "0" + Zeros(k - 1)
  }

  /** A leading zero does not change the value of a string of digits. */
  lemma {:induction false} NumeralValueLeadingZero(s: string)
    requires forall i :: 0 <= i < |s| ==> IsDigit(s[i])
    ensures forall i :: 0 <= i < |"0" + s| ==> IsDigit(("0" + s)[i])
    ensures NumeralValue("0" + s) == NumeralValue(s)
  {
    var t := "0" + s;
    assert forall i :: 0 <= i < |t| ==> IsDigit(t[i]) by {
      forall i | 0 <= i < |t| ensures IsDigit(t[i]) {
        if i > 0 { assert t[i] == s[i - 1]; }
      }
    }
    if |s| == 0 {
      assert t[..|t| - 1] == [];
    } else {
      var p := s[..|s| - 1];
      assert t[..|t| - 1] == "0" + p;
      assert t[|t| - 1] == s[|s| - 1];
      NumeralValueLeadingZero(p);
    }
  }

  /**
   * `int` ignores leading zeros: a numeral padded with any number of zeros
   * parses to the value of the unpadded one. With `NumeralIsZeroPadded`,
   * this fixes the value `ParseInt` gives on every numeral.
   */
  lemma {:induction false} ParseIntZeroPadded(k: nat, n: nat)
    ensures IsNumeral(Zeros(k) + NatToString(n))
    ensures ParseInt(Zeros(k) + NatToString(n)) == Some(n)
  {
    if k == 0 {
      assert Zeros(k) + NatToString(n) == NatToString(n);
      ParseIntNatToString(n);
    } else {
      var u := Zeros(k - 1) + NatToString(n);
      ParseIntZeroPadded(k - 1, n);
      assert Zeros(k) + NatToString(n) == "0" + u;
      NumeralValueLeadingZero(u);
    }
  }

  /** A numeral whose first digit is not zero has a positive value. */
  lemma {:induction false} NumeralValuePositive(s: string)
    requires IsNumeral(s) && s[0] != '0'
    ensures NumeralValue(s) >= 1
  {
    if |s| > 1 {
      var p := s[..|s| - 1];
      assert p[0] == s[0];
      NumeralValuePositive(p);
    }
  }

  /** A numeral without a leading zero is the printed form of its value. */
  lemma {:induction false} CanonicalNumeral(s: string)
    requires IsNumeral(s) && (s[0] != '0' || |s| == 1)
    ensures NatToString(NumeralValue(s)) == s
  {
    var c := s[|s| - 1];
    var d := DigitValue(c);
    assert DigitChar(d) == c;
    if |s| == 1 {
      assert s[..0] == [];
      assert s == [c];
    } else {
      var p := s[..|s| - 1];
      assert p[0] == s[0];
      CanonicalNumeral(p);
      NumeralValuePositive(p);
      var n := NumeralValue(s);
      assert n == NumeralValue(p) * 10 + d;
      assert n / 10 == NumeralValue(p) && n % 10 == d;
      assert s == p + [c];
    }
  }

  /** Every numeral is some zeros followed by the printed form of its value. */
  lemma {:induction false} NumeralIsZeroPadded(s: string)
    requires IsNumeral(s)
    ensures exists k: nat :: k < |s| && s == Zeros(k) + NatToString(NumeralValue(s))
  {
    if s[0] != '0' || |s| == 1 {
      CanonicalNumeral(s);
      assert s == Zeros(0) + NatToString(NumeralValue(s));
    } else {
      var u := s[1..];
      assert s == "0" + u;
      NumeralValueLeadingZero(u);
      NumeralIsZeroPadded(u);
      var k: nat :| k < |u| && u == Zeros(k) + NatToString(NumeralValue(u));
      assert s == Zeros(k + 1) + NatToString(NumeralValue(s));
    }
  }

  /** A position group: absent stays absent, a numeral becomes its value, anything else fails. */
  function Position(group: string, g: Option<string>): (r: Result<Option<nat>, ExtractionError>)
    ensures r.Success? <==> (g.Some? ==> IsNumeral(g.value))
    ensures r.Success? && g.None? ==> r.value.None?
    ensures r.Success? && g.Some? ==> r.value == ParseInt(g.value)
    ensures r.Failure? ==> r.error == UnparsablePosition(group, g.value)
  {
    match g
    case None => Success(None)
    case Some(t) =>
      match ParseInt(t)
      case Some(n) => Success(Some(n))
      case None => Failure(UnparsablePosition(group, t))
  }

  /** The conditions under which a match yields a diagnostic rather than an error. */
  ghost predicate Converts(severityMap: SeverityMap, m: Match) {
    && (m.line.Some? ==> IsNumeral(m.line.value))
    && (m.column.Some? ==> IsNumeral(m.column.value))
    && (m.endLine.Some? ==> IsNumeral(m.endLine.value))
    && (m.endColumn.Some? ==> IsNumeral(m.endColumn.value))
    && m.message.Some?
    && m.severity.Some? && m.severity.value in severityMap
  }

  /** The value a position group stands for once it has been parsed. */
  function PositionValue(g: Option<string>): Option<nat> {
    if g.Some? then ParseInt(g.value) else None
  }

  /**
   * One match to one `Result.from_values(origin, message, filename, line,
   * column, end_line, end_column, severity)`.
   */
  function ToDiagnostic(severityMap: SeverityMap, filename: string, m: Match): (r: Result<Diagnostic, ExtractionError>)
    ensures r.Success? <==> Converts(severityMap, m)
    ensures r.Success? ==>
      && r.value.file == filename
      && r.value.message == m.message.value
      && r.value.origin == (if m.origin.Some? then Named(m.origin.value) else OwnLinter)
      && r.value.severity == severityMap[m.severity.value]
      && r.value.line == PositionValue(m.line)
      && r.value.column == PositionValue(m.column)
      && r.value.endLine == PositionValue(m.endLine)
      && r.value.endColumn == PositionValue(m.endColumn)
  {
    var line :- Position("line", m.line);
    var column :- Position("column", m.column);
    var endLine :- Position("end_line", m.endLine);
    var endColumn :- Position("end_column", m.endColumn);
    if m.message.None? then Failure(MissingGroup("message"))
    else if m.severity.None? then Failure(MissingGroup("severity"))
    else if m.severity.value !in severityMap then Failure(UnknownSeverity(m.severity.value))
    else
      var origin := if m.origin.Some? then Named(m.origin.value) else OwnLinter;
      Success(Diagnostic(origin, m.message.value, filename, line, column, endLine, endColumn,
                         severityMap[m.severity.value]))
  }

  /**
   * `list(_process_output(...))` over the matches in order of appearance: one
   * diagnostic per match, or the error of the first match that fails.
   */
  function ProcessOutput(severityMap: SeverityMap, filename: string, ms: seq<Match>): (r: Result<seq<Diagnostic>, ExtractionError>)
    ensures r.Success? <==> forall i :: 0 <= i < |ms| ==> Converts(severityMap, ms[i])
    ensures r.Success? ==> |r.value| == |ms|
    ensures r.Success? ==> forall i :: 0 <= i < |ms| ==> ToDiagnostic(severityMap, filename, ms[i]) == Success(r.value[i])
    ensures r.Failure? ==> exists k :: 0 <= k < |ms| && ToDiagnostic(severityMap, filename, ms[k]) == Failure(r.error)
                                    && forall j :: 0 <= j < k ==> Converts(severityMap, ms[j])
  {
    if |ms| == 0 then Success([])
    else
      match ToDiagnostic(severityMap, filename, ms[0])
      case Failure(e) => Failure(e)
      case Success(d) =>
        match ProcessOutput(severityMap, filename, ms[1..])
        case Failure(e) =>
          ghost var k :| 0 <= k < |ms| - 1 && ToDiagnostic(severityMap, filename, ms[1..][k]) == Failure(e)
                         && forall j :: 0 <= j < k ==> Converts(severityMap, ms[1..][j]);
          assert ToDiagnostic(severityMap, filename, ms[k + 1]) == Failure(e);
          Failure(e)
        case Success(ds) => Success([d] + ds)
  }

  /**
   * Matches are processed independently and in order: the diagnostics for
   * two stretches of output are those of the first followed by those of the
   * second, and an error in the first is the one reported.
   */
  lemma {:induction false} ProcessOutputAppend(severityMap: SeverityMap, filename: string, a: seq<Match>, b: seq<Match>)
    ensures ProcessOutput(severityMap, filename, a + b) ==
      match ProcessOutput(severityMap, filename, a)
      case Failure(e) => Failure(e)
      case Success(da) =>
        match ProcessOutput(severityMap, filename, b)
        case Failure(e) => Failure(e)
        case Success(db) => Success(da + db)
  {
    if |a| > 0 {
      assert (a + b)[0] == a[0];
      assert (a + b)[1..] == a[1..] + b;
      ProcessOutputAppend(severityMap, filename, a[1..], b);
      match ProcessOutput(severityMap, filename, a[1..])
      case Failure(_) =>
      case Success(da) =>
        match ProcessOutput(severityMap, filename, b)
        case Failure(_) =>
        case Success(db) =>
          match ToDiagnostic(severityMap, filename, a[0])
          case Failure(_) =>
          case Success(d) => assert [d] + (da + db) == ([d] + da) + db;
    } else {
      assert a + b == b;
      match ProcessOutput(severityMap, filename, b)
      case Failure(_) =>
      case Success(db) => assert [] + db == db;
    }
  }

  /** A match of a regex without an `origin` group, as the tool of the real-life tests reports it. */
  function InvalidCharMatch(line: string, message: string): Match {
    Match(Some(line), Some("0"), Some(line), Some("1"), Some("MAJOR"), Some(message), None)
  }

  /**
   * With the user severity map `{"MAJOR": MAJOR}` and no `origin` group, each
   * match becomes a major diagnostic whose origin is the linter itself.
   */
  lemma UserSeverityMapExample(filename: string)
    ensures ProcessOutput(map["MAJOR" := Major], filename,
                          [InvalidCharMatch("3", "Invalid char ('0')"), InvalidCharMatch("5", "Invalid char ('.')"), InvalidCharMatch("9", "Invalid char ('p')")])
         == Success([
              Diagnostic(OwnLinter, "Invalid char ('0')", filename, Some(3), Some(0), Some(3), Some(1), Major),
              Diagnostic(OwnLinter, "Invalid char ('.')", filename, Some(5), Some(0), Some(5), Some(1), Major),
              Diagnostic(OwnLinter, "Invalid char ('p')", filename, Some(9), Some(0), Some(9), Some(1), Major)])
  {
    var sm := map["MAJOR" := Major];
    var ms := [InvalidCharMatch("3", "Invalid char ('0')"), InvalidCharMatch("5", "Invalid char ('.')"), InvalidCharMatch("9", "Invalid char ('p')")];
    assert NumeralValue("0") == 0 && NumeralValue("1") == 1;
    assert NumeralValue("3") == 3 && NumeralValue("5") == 5 && NumeralValue("9") == 9;
    var r := ProcessOutput(sm, filename, ms);
    assert Converts(sm, ms[0]) && Converts(sm, ms[1]) && Converts(sm, ms[2]);
    assert r.value == [r.value[0], r.value[1], r.value[2]];
  }
}
