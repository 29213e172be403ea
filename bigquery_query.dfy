/**
 * The query text built by `BigQueryService.fetch_business_metrics`: the
 * date-range argument ("30d", "2w", "6M") is parsed into a count and an
 * interval unit, and an optional list of metric names becomes an
 * `AND metric_name IN ('a','b')` filter.
 */
module BigQueryQuery {
  import opened Wrappers

  // ----- characters -----

  /** `\d` (ASCII digits only; see README). */
  predicate IsDigit(c: char) { '0' <= c <= '9' }

  /** `[a-zA-Z]`. */
  predicate IsLetter(c: char) { 'a' <= c <= 'z' || 'A' <= c <= 'Z' }

  predicate AllDigits(s: string) { forall i :: 0 <= i < |s| ==> IsDigit(s[i]) }

  /** `str.upper()` on one character, for the ASCII letters the pattern admits. */
  function Upper(c: char): (u: char)
    ensures IsLetter(c) ==> 'A' <= u <= 'Z' && (u == c || u as int == c as int - 32)
  {
    if 'a' <= c <= 'z' then (c as int - 32) as char else c
  }

  function UpperAll(s: string): (u: string)
    ensures |u| == |s|
    ensures forall i :: 0 <= i < |s| ==> u[i] == Upper(s[i])
  {
    seq(|s|, i requires 0 <= i < |s| => Upper(s[i]))
  }

  /** Length of the longest prefix of digits: what the greedy `(\d+)` takes. */
  function DigitRun(s: string): (n: nat)
    ensures n <= |s|
    ensures AllDigits(s[..n])
    ensures n < |s| ==> !IsDigit(s[n])
  {
    if s == [] || !IsDigit(s[0]) then 0
    else
      var n := 1 + DigitRun(s[1..]);
      assert forall i :: 1 <= i < n ==> s[..n][i] == s[1..][..n - 1][i - 1];
      n
  }

  /** Length of the longest prefix of letters: what the greedy `([a-zA-Z]+)` takes. */
  function LetterRun(s: string): (n: nat)
    ensures n <= |s|
    ensures forall i :: 0 <= i < n ==> IsLetter(s[i])
    ensures n < |s| ==> !IsLetter(s[n])
  {
    if s == [] || !IsLetter(s[0]) then 0
    else
      var n := 1 + LetterRun(s[1..]);
      assert forall i :: 1 <= i < n ==> s[i] == s[1..][i - 1];
      n
  }

  // ----- date range -----

  datatype IntervalUnit = Day | Week | Month

  /** A parsed date range: the digit string as written, and the unit. */
  datatype Interval = Interval(count: string, unit: IntervalUnit)

  const InvalidFormatMessage := "Invalid date_range format. " + "Use like '30d' or '2w'"
  const UnsupportedUnitMessage := "Unsupported interval unit: "

  /** The unit letter in upper case, as the code compares it. */
  function UnitLetter(u: IntervalUnit): char {
    match u
    case Day => 'D'
    case Week => 'W'
    case Month => 'M'
  }

  /** The SQL keyword placed after INTERVAL. */
  function UnitKeyword(u: IntervalUnit): string {
    match u
    case Day => "DAY"
    case Week => "WEEK"
    case Month => "MONTH"
  }

  /** `re.match(r"(\d+)([a-zA-Z]+)", s)` followed by the unit table. The match
      is anchored only at the start, so whatever follows the letter run is
      ignored. */
  function ParseDateRange(s: string): (r: Result<Interval, Exception>)
    ensures r.Err? ==> r.error.ValueError?
    ensures r.Ok? ==> r.value.count != [] && r.value.count <= s && AllDigits(r.value.count)
  {
    var d := DigitRun(s);
    if d == 0 then Err(ValueError(InvalidFormatMessage))
    else
      var l := LetterRun(s[d..]);
      if l == 0 then Err(ValueError(InvalidFormatMessage))
      else
        var unit := UpperAll(s[d..d + l]);
        if unit == "D" then Ok(Interval(s[..d], Day))
        else if unit == "W" then Ok(Interval(s[..d], Week))
        else if unit == "M" then Ok(Interval(s[..d], Month))
        else Err(ValueError(UnsupportedUnitMessage + unit))
  }

  /** The way callers write a date range: the count then the lower-case unit letter. */
  function FormatDateRange(i: Interval): string {
    i.count + [match i.unit case Day => 'd' case Week => 'w' case Month => 'm']
  }

  /** `s` begins with at least one digit immediately followed by a letter. */
  ghost predicate DigitsThenLetter(s: string) {
    exists n :: 0 < n < |s| && AllDigits(s[..n]) && IsLetter(s[n])
  }

  /** `s` begins with a digit run, then exactly one letter that upper-cases to
      D, W or M, then (if anything) a character that is not a letter. */
  ghost predicate AcceptedDateRange(s: string) {
    exists n :: 0 < n < |s| && AllDigits(s[..n]) && Upper(s[n]) in {'D', 'W', 'M'} && IsLetter(s[n])
                && (n + 1 == |s| || !IsLetter(s[n + 1]))
  }

  /** Any digit prefix followed by a non-digit is the whole digit run. */
  lemma DigitRunAt(s: string, n: nat)
    requires n < |s| && AllDigits(s[..n]) && !IsDigit(s[n])
    ensures DigitRun(s) == n
  {
  }

  /** Any letter prefix followed by a non-letter (or the end) is the whole letter run. */
  lemma LetterRunAt(s: string, n: nat)
    requires n <= |s| && (forall i :: 0 <= i < n ==> IsLetter(s[i]))
    requires n < |s| ==> !IsLetter(s[n])
    ensures LetterRun(s) == n
  {
  }

  /** The format error is raised exactly when the input does not start with a
      digit run followed by a letter. */
  lemma {:induction false} InvalidFormatIff(s: string)
    ensures ParseDateRange(s) == Err(ValueError(InvalidFormatMessage)) <==> !DigitsThenLetter(s)
  {
    var d := DigitRun(s);
    if DigitsThenLetter(s) {
      var n :| 0 < n < |s| && AllDigits(s[..n]) && IsLetter(s[n]);
      DigitRunAt(s, n);
    }
    if 0 < d < |s| && IsLetter(s[d]) {
      assert DigitsThenLetter(s);
    }
    if 0 < d < |s| {
      assert s[d..][0] == s[d];
      MessagesDiffer(UpperAll(s[d..d + LetterRun(s[d..])]));
    }
  }

  /** The two error messages can never coincide. */
  lemma MessagesDiffer(unit: string)
    ensures UnsupportedUnitMessage + unit != InvalidFormatMessage
  {
    assert (UnsupportedUnitMessage + unit)[0] == 'U';
  }

  /** A date range is accepted exactly when its letter run is a single letter
      that upper-cases to D, W or M; the count is then the digit prefix,
      unchanged, and the unit is the one that letter names. */
  lemma AcceptedIff(s: string)
    ensures ParseDateRange(s).Ok? <==> AcceptedDateRange(s)
    ensures ParseDateRange(s).Ok? ==>
      var i := ParseDateRange(s).value;
      0 < |i.count| < |s| && i.count == s[..|i.count|] && AllDigits(i.count)
      && Upper(s[|i.count|]) == UnitLetter(i.unit)
  {
    if AcceptedDateRange(s) {
      AcceptedParses(s);
    }
    if ParseDateRange(s).Ok? {
      ParsedIsAccepted(s);
    }
  }

  lemma AcceptedParses(s: string)
    requires AcceptedDateRange(s)
    ensures ParseDateRange(s).Ok?
  {
    var n :| 0 < n < |s| && AllDigits(s[..n]) && Upper(s[n]) in {'D', 'W', 'M'} && IsLetter(s[n])
              && (n + 1 == |s| || !IsLetter(s[n + 1]));
    DigitRunAt(s, n);
    var t := s[n..];
    assert t[0] == s[n];
    assert 1 < |t| ==> t[1] == s[n + 1];
    LetterRunAt(t, 1);
    assert s[n..n + 1] == [s[n]];
    var u := Upper(s[n]);
    assert UpperAll(s[n..n + 1]) == [u];
    if u == 'D' {
      assert [u] == "D";
    } else if u == 'W' {
      assert [u] == "W";
    } else {
      assert [u] == "M";
    }
  }

  lemma ParsedIsAccepted(s: string)
    requires ParseDateRange(s).Ok?
    ensures AcceptedDateRange(s)
    ensures var i := ParseDateRange(s).value;
      0 < |i.count| < |s| && i.count == s[..|i.count|] && AllDigits(i.count)
      && Upper(s[|i.count|]) == UnitLetter(i.unit)
  {
    var d := DigitRun(s);
    var t := s[d..];
    var l := LetterRun(t);
    var unit := UpperAll(s[d..d + l]);
    assert unit == "D" || unit == "W" || unit == "M";
    assert |unit| == 1 && l == 1;
    assert t[0] == s[d];
    var u := Upper(s[d]);
    assert unit[0] == u;
    assert u == 'D' || u == 'W' || u == 'M';
    assert ParseDateRange(s).value.count == s[..d];
    assert u == UnitLetter(ParseDateRange(s).value.unit);
    if d + 1 < |s| {
      assert t[1] == s[d + 1];
    }
    assert 0 < d < |s| && AllDigits(s[..d]) && u in {'D', 'W', 'M'} && IsLetter(s[d])
           && (d + 1 == |s| || !IsLetter(s[d + 1]));
  }

  /** A letter run longer than one letter is rejected as an unsupported unit,
      naming the whole run in upper case (so "30days" names "DAYS"). */
  lemma MultiLetterUnitRejected(digits: string, letters: string, rest: string)
    requires |digits| > 0 && AllDigits(digits)
    requires |letters| >= 2 && forall i :: 0 <= i < |letters| ==> IsLetter(letters[i])
    requires rest == [] || !IsLetter(rest[0])
    ensures ParseDateRange(digits + letters + rest) == Err(ValueError(UnsupportedUnitMessage + UpperAll(letters)))
  {
    var s := digits + letters + rest;
    assert s[..|digits|] == digits;
    DigitRunAt(s, |digits|);
    var t := s[|digits|..];
    assert t == letters + rest;
    assert forall i :: 0 <= i < |letters| ==> t[i] == letters[i];
    assert |letters| < |t| ==> t[|letters|] == rest[0];
    LetterRunAt(t, |letters|);
    var l := LetterRun(t);
    assert t[..l] == letters;
    assert s[|digits|..|digits| + l] == letters;
    var unit := UpperAll(letters);
    assert |unit| >= 2;
  }

  /** Round trip: a formatted date range parses back to itself, whatever
      non-letter text follows it. */
  lemma FormatThenParse(i: Interval, rest: string)
    requires |i.count| > 0 && AllDigits(i.count)
    requires rest == [] || !IsLetter(rest[0])
    ensures ParseDateRange(FormatDateRange(i) + rest) == Ok(i)
  {
    var s := FormatDateRange(i) + rest;
    var n := |i.count|;
    assert s[..n] == i.count;
    assert IsLetter(s[n]);
    DigitRunAt(s, n);
    var t := s[n..];
    assert t[0] == s[n];
    assert LetterRun(t) == 1;
    assert s[n..n + 1] == [s[n]];
  }

  /** The default argument "30d" means thirty days. */
  lemma DefaultDateRange()
    ensures ParseDateRange("30d") == Ok(Interval("30", Day))
  {
    FormatThenParse(Interval("30", Day), "");
    assert FormatDateRange(Interval("30", Day)) + "" == "30d";
  }

  // ----- metric filter -----

  /** `f"'{m}'"`. */
  function Quote(m: string): (q: string)
    ensures |q| == |m| + 2 && q[0] == '\'' && q[|q| - 1] == '\'' && q[1..|q| - 1] == m
  {
    "'" + m + "'"
  }

  /** `",".join(f"'{m}'" for m in names)`. */
  function QuotedList(names: seq<string>): (l: string)
    ensures l == [] <==> names == []
    ensures names != [] ==> l[0] == '\''
  {
    if |names| == 0 then ""
    else if |names| == 1 then Quote(names[0])
    else Quote(names[0]) + "," + QuotedList(names[1..])
  }

  /** The clause appended for `metrics_filter`: nothing for None or an empty
      list, otherwise exactly one `IN (...)` clause. */
  function FilterClause(filter: Option<seq<string>>): (c: string)
    ensures filter.None? || filter.value == [] ==> c == ""
    ensures filter.Some? && filter.value != [] ==>
      c == " AND metric_name IN (" + QuotedList(filter.value) + ")"
  {
    if filter.Some? && filter.value != [] then " AND metric_name IN (" + QuotedList(filter.value) + ")"
    else ""
  }

  /** Index of the first quote character, or |s| when there is none. */
  function UntilQuote(s: string): (n: nat)
    ensures n <= |s|
    ensures forall i :: 0 <= i < n ==> s[i] != '\''
    ensures n < |s| ==> s[n] == '\''
  {
    if s == [] || s[0] == '\'' then 0
    else
      var n := 1 + UntilQuote(s[1..]);
      assert forall i :: 1 <= i < n ==> s[i] == s[1..][i - 1];
      n
  }

  /** Reads back a non-empty comma-separated list of quoted names. */
  function DecodeQuotedItems(s: string): Option<seq<string>>
    decreases |s|
  {
    if |s| < 2 || s[0] != '\'' then None
    else
      var n := UntilQuote(s[1..]);
      if n == |s| - 1 then None
      else
        var name := s[1..1 + n];
        var rest := s[n + 2..];
        if rest == [] then Some([name])
        else if rest[0] != ',' then None
        else
          match DecodeQuotedItems(rest[1..])
          case Some(tail) => Some([name] + tail)
          case None => None
  }

  /** Reads back the text between the parentheses of the IN clause. */
  function DecodeQuotedList(s: string): Option<seq<string>> {
    if s == [] then Some([]) else DecodeQuotedItems(s)
  }

  predicate NoQuote(m: string) { forall i :: 0 <= i < |m| ==> m[i] != '\'' }

  /** Round trip of the IN list: every name comes back, in list order, as long
      as no name contains a quote (the code does not escape quotes). */
  lemma {:induction false} QuotedListRoundTrip(names: seq<string>)
    requires forall k :: 0 <= k < |names| ==> NoQuote(names[k])
    ensures DecodeQuotedList(QuotedList(names)) == Some(names)
  {
    if |names| > 0 {
      QuotedItemsRoundTrip(names);
    }
  }

  lemma {:induction false} QuotedItemsRoundTrip(names: seq<string>)
    requires |names| > 0
    requires forall k :: 0 <= k < |names| ==> NoQuote(names[k])
    ensures DecodeQuotedItems(QuotedList(names)) == Some(names)
  {
    if |names| == 1 {
      DecodeLastItem(names[0]);
      assert names == [names[0]];
    } else {
      var more := names[1..];
      assert forall k :: 0 <= k < |more| ==> more[k] == names[k + 1];
      QuotedItemsRoundTrip(more);
      DecodeNextItem(names[0], QuotedList(more));
      assert names == [names[0]] + more;
    }
  }

  /** Any quote-free prefix followed by a quote ends where the quote is. */
  lemma UntilQuoteAt(s: string, n: nat)
    requires n < |s| && s[n] == '\'' && forall i :: 0 <= i < n ==> s[i] != '\''
    ensures UntilQuote(s) == n
  {
  }

  /** In a quoted quote-free name followed by anything, the closing quote
      comes right after the name. */
  lemma QuoteEndsAt(m: string, tail: string)
    requires NoQuote(m)
    ensures (Quote(m) + tail)[0] == '\''
    ensures UntilQuote((Quote(m) + tail)[1..]) == |m|
  {
    var x := (Quote(m) + tail)[1..];
    assert forall i :: 0 <= i < |m| ==> x[i] == m[i];
    assert x[|m|] == '\'';
    UntilQuoteAt(x, |m|);
  }

  /** A single quoted quote-free name reads back as itself. */
  lemma DecodeLastItem(m: string)
    requires NoQuote(m)
    ensures DecodeQuotedItems(Quote(m)) == Some([m])
  {
    var s := Quote(m);
    QuoteEndsAt(m, "");
    assert s[1..1 + |m|] == m;
    assert s[|m| + 2..] == [];
  }

  /** A quoted quote-free name and a comma are read, then decoding continues
      with the rest. */
  lemma DecodeNextItem(m: string, rest: string)
    requires NoQuote(m)
    ensures DecodeQuotedItems(Quote(m) + "," + rest) ==
      match DecodeQuotedItems(rest)
      case Some(t) => Some([m] + t)
      case None => None
  {
    var s := Quote(m) + "," + rest;
    QuoteEndsAt(m, "," + rest);
    assert s == Quote(m) + ("," + rest);
    assert s[1..1 + |m|] == m;
    assert s[|m| + 2..] == "," + rest;
    assert s[|m| + 2..][1..] == rest;
  }

  /** The query issued by `fetch_business_metrics`, or the error it raises
      before querying. */
  function BusinessMetricsQuery(project: string, dataset: string, dateRange: string, filter: Option<seq<string>>)
    : (r: Result<string, Exception>)
    ensures r.Err? <==> ParseDateRange(dateRange).Err?
    ensures r.Err? ==> r.error == ParseDateRange(dateRange).error
    ensures r.Ok? ==>
      var i := ParseDateRange(dateRange).value;
      r.value == "SELECT * FROM `" + project + "." + dataset + ".business_metrics` "
                 + "WHERE timestamp >= TIMESTAMP_SUB(CURRENT_TIMESTAMP(), INTERVAL " + i.count + " " + UnitKeyword(i.unit) + ")"
                 + FilterClause(filter)
  {
    match ParseDateRange(dateRange)
    case Err(e) => Err(e)
    case Ok(i) =>
      var query := "SELECT * FROM `" + project + "." + dataset + ".business_metrics` ";
      var query := query + "WHERE timestamp >= TIMESTAMP_SUB(CURRENT_TIMESTAMP(), INTERVAL " + i.count + " " + UnitKeyword(i.unit) + ")";
      Ok(query + FilterClause(filter))
  }
}
