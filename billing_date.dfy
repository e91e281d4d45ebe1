/** The next-billing-date projection's parser: Python's
    `datetime.strptime(s, "%Y-%m-%d")`. The format compiles to the regular
    expression `(\d\d\d\d)-(1[0-2]|0[1-9]|[1-9])-(3[01]|[12]\d|0[1-9]|[1-9]| [1-9])`,
    matched at the start of the string with alternatives tried in order; any
    unmatched tail is an error, and so is a day the month does not have. The
    result is midnight of the parsed date. */
module BillingDate {
  import opened Wrappers

  datatype DateTime = DateTime(year: int, month: int, day: int, hour: int, minute: int, second: int)

  /** Why strptime raised ValueError. */
  datatype ValueError = DoesNotMatchFormat | UnconvertedDataRemains | DateOutOfRange

  predicate IsLeapYear(y: int) {
    y % 4 == 0 && (y % 100 != 0 || y % 400 == 0)
  }

  function DaysInMonth(y: int, m: int): int
    requires 1 <= m <= 12
  {
    if m == 2 then (if IsLeapYear(y) then 29 else 28)
    else if m in {4, 6, 9, 11} then 30
    else 31
  }

  /** A date Python's `datetime` accepts. */
  predicate ValidDate(y: int, m: int, d: int) {
    1 <= y <= 9999 && 1 <= m <= 12 && 1 <= d <= DaysInMonth(y, m)
  }

  predicate IsDigit(c: char) {
    '0' <= c <= '9'
  }

  function Digit(c: char): int
    requires IsDigit(c)
  {
    c as int - '0' as int
  }

  /** `t` is four digits whose decimal value is `y`. */
  predicate SpellsYear(t: string, y: int) {
    |t| == 4 && IsDigit(t[0]) && IsDigit(t[1]) && IsDigit(t[2]) && IsDigit(t[3]) &&
    Digit(t[0]) * 1000 + Digit(t[1]) * 100 + Digit(t[2]) * 10 + Digit(t[3]) == y
  }

  /** `t` writes month `m` with one or two digits. */
  predicate SpellsMonth(t: string, m: int) {
    (|t| == 1 && IsDigit(t[0]) && Digit(t[0]) == m) ||
    (|t| == 2 && IsDigit(t[0]) && IsDigit(t[1]) && Digit(t[0]) * 10 + Digit(t[1]) == m)
  }

  /** `t` writes day `d` with one or two digits, or as a space and one digit. */
  predicate SpellsDay(t: string, d: int) {
    (|t| == 1 && IsDigit(t[0]) && Digit(t[0]) == d) ||
    (|t| == 2 && IsDigit(t[0]) && IsDigit(t[1]) && Digit(t[0]) * 10 + Digit(t[1]) == d) ||
    (|t| == 2 && t[0] == ' ' && IsDigit(t[1]) && Digit(t[1]) == d)
  }

  /** After "YYYY-", a month of `k` characters, a '-', then the day up to the end. */
  predicate MonthDayAt(s: string, k: int, m: int, d: int) {
    1 <= k <= 2 && 6 + k <= |s| && s[5 + k] == '-' && SpellsMonth(s[5..5 + k], m) && SpellsDay(s[6 + k..], d)
  }

  /** `s` is a way of writing the date `y`-`m`-`d`: the year in four digits,
      then '-', the month, '-', the day, and nothing else. */
  predicate Spells(s: string, y: int, m: int, d: int) {
    |s| >= 5 && SpellsYear(s[..4], y) && s[4] == '-' && (MonthDayAt(s, 1, m, d) || MonthDayAt(s, 2, m, d))
  }

  /** What one group of the pattern matched at the start of a string:
      the group's integer value and the number of characters it took. */
  datatype Piece = Piece(value: int, len: nat)

  /** `%Y`: exactly four digits. */
  function MatchYear(s: string): (p: Option<Piece>)
    ensures p.Some? ==> |s| >= 4 && p.value.len == 4 && 0 <= p.value.value <= 9999 && SpellsYear(s[..4], p.value.value)
  {
    if |s| >= 4 && IsDigit(s[0]) && IsDigit(s[1]) && IsDigit(s[2]) && IsDigit(s[3])
    then Some(Piece(Digit(s[0]) * 1000 + Digit(s[1]) * 100 + Digit(s[2]) * 10 + Digit(s[3]), 4))
    else None
  }

  /** `%m`: the alternatives `1[0-2]`, `0[1-9]`, `[1-9]` that match at the start
      of `s`, in the order the regular expression tries them. */
  function MonthAlternatives(s: string): (ps: seq<Piece>)
    ensures forall i :: 0 <= i < |ps| ==> 1 <= ps[i].len <= 2 && ps[i].len <= |s| && 1 <= ps[i].value <= 12
    ensures forall i :: 0 <= i < |ps| ==> SpellsMonth(s[..ps[i].len], ps[i].value)
  {
    (if |s| >= 2 && s[0] == '1' && '0' <= s[1] <= '2' then [Piece(10 + Digit(s[1]), 2)] else [])
    + (if |s| >= 2 && s[0] == '0' && '1' <= s[1] <= '9' then [Piece(Digit(s[1]), 2)] else [])
    + (if |s| >= 1 && '1' <= s[0] <= '9' then [Piece(Digit(s[0]), 1)] else [])
  }

  /** `%d`: the alternatives `3[01]`, `[12]\d`, `0[1-9]`, `[1-9]`, ` [1-9]` that
      match at the start of `s`, in the order the regular expression tries them. */
  function DayAlternatives(s: string): (ps: seq<Piece>)
    ensures forall i :: 0 <= i < |ps| ==> 1 <= ps[i].len <= 2 && ps[i].len <= |s| && 1 <= ps[i].value <= 31
    ensures forall i :: 0 <= i < |ps| ==> SpellsDay(s[..ps[i].len], ps[i].value)
  {
    (if |s| >= 2 && s[0] == '3' && '0' <= s[1] <= '1' then [Piece(30 + Digit(s[1]), 2)] else [])
    + (if |s| >= 2 && '1' <= s[0] <= '2' && IsDigit(s[1]) then [Piece(Digit(s[0]) * 10 + Digit(s[1]), 2)] else [])
    + (if |s| >= 2 && s[0] == '0' && '1' <= s[1] <= '9' then [Piece(Digit(s[1]), 2)] else [])
    + (if |s| >= 1 && '1' <= s[0] <= '9' then [Piece(Digit(s[0]), 1)] else [])
    + (if |s| >= 2 && s[0] == ' ' && '1' <= s[1] <= '9' then [Piece(Digit(s[1]), 2)] else [])
  }

  /** The regular expression's backtracking over `-%m-%d`: the first month
      alternative (of `ms`) after which a `-` and some day alternative follow,
      paired with the first such day alternative. Nothing follows `%d` in the
      pattern, so the day never backtracks. */
  function MatchMonthDay(s: string, ms: seq<Piece>): (r: Option<(Piece, Piece)>)
    requires forall i :: 0 <= i < |ms| ==> 1 <= ms[i].len <= 2 && ms[i].len <= |s| && 1 <= ms[i].value <= 12
    ensures r.Some? ==> r.value.0 in ms && r.value.0.len < |s| && s[r.value.0.len] == '-' &&
                        DayAlternatives(s[r.value.0.len + 1..]) != [] &&
                        r.value.1 == DayAlternatives(s[r.value.0.len + 1..])[0]
    decreases |ms|
  {
    if ms == [] then None
    else
      var m := ms[0];
      if m.len < |s| && s[m.len] == '-' && DayAlternatives(s[m.len + 1..]) != []
      then Some((m, DayAlternatives(s[m.len + 1..])[0]))
      else
        var r := MatchMonthDay(s, ms[1..]);
        assert r.Some? ==> r.value.0 in ms[1..];
        r
  }

  /** `datetime.strptime(s, "%Y-%m-%d")`. */
  function Strptime(s: string): (r: Result<DateTime, ValueError>)
    ensures r.Success? ==> ValidDate(r.value.year, r.value.month, r.value.day)
    ensures r.Success? ==> r.value.hour == 0 && r.value.minute == 0 && r.value.second == 0
    ensures r.Success? ==> 8 <= |s| <= 10 && s[4] == '-'
    ensures r.Success? ==> Spells(s, r.value.year, r.value.month, r.value.day)
  {
    match MatchYear(s)
    case None => Failure(DoesNotMatchFormat)
    case Some(y) =>
      if |s| < 5 || s[4] != '-' then Failure(DoesNotMatchFormat)
      else
        var rest := s[5..];
        match MatchMonthDay(rest, MonthAlternatives(rest))
        case None => Failure(DoesNotMatchFormat)
        case Some((m, d)) =>
          if 5 + m.len + 1 + d.len != |s| then Failure(UnconvertedDataRemains)
          else if !ValidDate(y.value, m.value, d.value) then Failure(DateOutOfRange)
          else
            MatchSpells(s, y, m, d);
            Success(DateTime(y.value, m.value, d.value, 0, 0, 0))
  }

  /** A complete match of the pattern reads the year, month and day the text spells. */
  lemma MatchSpells(s: string, y: Piece, m: Piece, d: Piece)
    requires |s| >= 5 && s[4] == '-' && MatchYear(s) == Some(y)
    requires MatchMonthDay(s[5..], MonthAlternatives(s[5..])) == Some((m, d))
    requires 5 + m.len + 1 + d.len == |s|
    ensures Spells(s, y.value, m.value, d.value)
  {
    var rest := s[5..];
    var alts := MonthAlternatives(rest);
    var k := m.len;
    var i :| 0 <= i < |alts| && alts[i] == m;
    assert SpellsMonth(rest[..k], m.value);
    assert rest[..k] == s[5..5 + k];
    var tail := rest[k + 1..];
    assert tail == s[6 + k..];
    assert d == DayAlternatives(tail)[0];
    assert tail[..d.len] == tail;
    assert SpellsDay(tail, d.value);
    assert MonthDayAt(s, k, m.value, d.value);
  }

  /** A month spelled by the first `k` characters and followed by '-' is the
      first month alternative the pattern tries. */
  lemma MonthSpellingIsFirst(rest: string, k: int, m: int)
    requires 1 <= k <= 2 && k < |rest| && rest[k] == '-' && 1 <= m <= 12
    requires SpellsMonth(rest[..k], m)
    ensures MonthAlternatives(rest) != [] && MonthAlternatives(rest)[0] == Piece(m, k)
  {
    assert rest[..k][0] == rest[0];
    if k == 2 {
      assert rest[..k][1] == rest[1];
    }
  }

  /** A day spelling is read whole by the first day alternative. */
  lemma DaySpellingIsFirst(t: string, d: int)
    requires 1 <= d <= 31 && SpellsDay(t, d)
    ensures DayAlternatives(t) != [] && DayAlternatives(t)[0] == Piece(d, |t|)
  {
  }

  /** Every spelling of a valid date parses to midnight of that date. */
  lemma SpelledDateParses(s: string, y: int, m: int, d: int)
    requires ValidDate(y, m, d) && Spells(s, y, m, d)
    ensures Strptime(s) == Success(DateTime(y, m, d, 0, 0, 0))
  {
    assert s[..4][0] == s[0] && s[..4][1] == s[1] && s[..4][2] == s[2] && s[..4][3] == s[3];
    assert MatchYear(s) == Some(Piece(y, 4));
    var k := if MonthDayAt(s, 1, m, d) then 1 else 2;
    var rest := s[5..];
    assert rest[..k] == s[5..5 + k];
    MonthSpellingIsFirst(rest, k, m);
    var tail := rest[k + 1..];
    assert tail == s[6 + k..];
    DaySpellingIsFirst(tail, d);
    assert MatchMonthDay(rest, MonthAlternatives(rest)) == Some((Piece(m, k), Piece(d, |tail|)));
  }

  /** strptime accepts exactly the spellings of valid dates: it returns midnight
      of `y`-`m`-`d` if and only if that date is valid and `s` spells it. */
  lemma StrptimeCharacterised(s: string, y: int, m: int, d: int)
    ensures Strptime(s) == Success(DateTime(y, m, d, 0, 0, 0)) <==> ValidDate(y, m, d) && Spells(s, y, m, d)
  {
    if ValidDate(y, m, d) && Spells(s, y, m, d) {
      SpelledDateParses(s, y, m, d);
    }
  }

  /** strptime raises exactly on texts that spell no valid date. */
  lemma StrptimeRejectsNonSpellings(s: string)
    ensures Strptime(s).Failure? <==> forall y, m, d :: !(ValidDate(y, m, d) && Spells(s, y, m, d))
  {
    if !Strptime(s).Failure? {
      var r := Strptime(s).value;
      assert ValidDate(r.year, r.month, r.day) && Spells(s, r.year, r.month, r.day);
    } else {
      forall y, m, d ensures !(ValidDate(y, m, d) && Spells(s, y, m, d)) {
        if ValidDate(y, m, d) && Spells(s, y, m, d) {
          SpelledDateParses(s, y, m, d);
        }
      }
    }
  }

  function DigitChar(n: int): (c: char)
    requires 0 <= n <= 9
    ensures IsDigit(c) && Digit(c) == n
  {
    ('0' as int + n) as char
  }

  /** Zero-padded two-digit text. */
  function Pad2(n: int): (s: string)
    requires 0 <= n <= 99
    ensures |s| == 2 && IsDigit(s[0]) && IsDigit(s[1]) && Digit(s[0]) * 10 + Digit(s[1]) == n
  {
    [DigitChar(n / 10), DigitChar(n % 10)]
  }

  lemma FourDigits(n: int)
    requires 0 <= n <= 9999
    ensures 0 <= n / 1000 <= 9 && 0 <= n / 100 % 10 <= 9 && 0 <= n / 10 % 10 <= 9
    ensures n / 1000 * 1000 + n / 100 % 10 * 100 + n / 10 % 10 * 10 + n % 10 == n
  {
    var a := n / 10;
    var b := a / 10;
    assert n == a * 10 + n % 10;
    assert a == b * 10 + a % 10;
    assert b == n / 100;
    assert b / 10 == n / 1000;
    assert b == b / 10 * 10 + b % 10;
  }

  /** Zero-padded four-digit text. */
  function Pad4(n: int): (s: string)
    requires 0 <= n <= 9999
    ensures |s| == 4 && forall i :: 0 <= i < 4 ==> IsDigit(s[i])
    ensures Digit(s[0]) * 1000 + Digit(s[1]) * 100 + Digit(s[2]) * 10 + Digit(s[3]) == n
  {
    FourDigits(n);
    [DigitChar(n / 1000), DigitChar(n / 100 % 10), DigitChar(n / 10 % 10), DigitChar(n % 10)]
  }

  /** The canonical `YYYY-MM-DD` text of a date. */
  function FormatDate(y: int, m: int, d: int): (s: string)
    requires ValidDate(y, m, d)
    ensures |s| == 10
  {
    Pad4(y) + "-" + Pad2(m) + "-" + Pad2(d)
  }

  /** Every date in canonical `YYYY-MM-DD` form parses back to midnight of that date. */
  lemma ParseFormattedDate(y: int, m: int, d: int)
    requires ValidDate(y, m, d)
    ensures Strptime(FormatDate(y, m, d)) == Success(DateTime(y, m, d, 0, 0, 0))
  {
    var s := FormatDate(y, m, d);
    var ys, ms, ds := Pad4(y), Pad2(m), Pad2(d);
    assert s[..4] == ys && s[4] == '-';
    assert s[5..7] == ms && s[7] == '-' && s[8..] == ds;
    assert MonthDayAt(s, 2, m, d);
    SpelledDateParses(s, y, m, d);
  }

  /** Decimal digits are unique: two four-digit texts of one value are equal. */
  lemma SameYearText(a: string, b: string, y: int)
    requires SpellsYear(a, y) && SpellsYear(b, y)
    ensures a == b
  {
    assert Digit(a[0]) == Digit(b[0]);
    assert Digit(a[1]) == Digit(b[1]);
    assert Digit(a[2]) == Digit(b[2]);
    assert a[0] == b[0] && a[1] == b[1] && a[2] == b[2] && a[3] == b[3];
  }

  /** Two two-digit texts of one value are equal. */
  lemma SameTwoDigitText(a: string, b: string, n: int)
    requires |a| == 2 && IsDigit(a[0]) && IsDigit(a[1]) && Digit(a[0]) * 10 + Digit(a[1]) == n
    requires |b| == 2 && IsDigit(b[0]) && IsDigit(b[1]) && Digit(b[0]) * 10 + Digit(b[1]) == n
    ensures a == b
  {
    assert Digit(a[0]) == Digit(b[0]);
    assert a[0] == b[0] && a[1] == b[1];
  }

  /** A ten-character text that strptime accepts, with a digit where the day
      starts, is exactly the canonical `YYYY-MM-DD` text of the date it reads. */
  lemma CanonicalTextIsFormatted(s: string)
    requires Strptime(s).Success? && |s| == 10 && IsDigit(s[8])
    ensures FormatDate(Strptime(s).value.year, Strptime(s).value.month, Strptime(s).value.day) == s
  {
    var r := Strptime(s).value;
    assert Spells(s, r.year, r.month, r.day);
    assert MonthDayAt(s, 2, r.month, r.day);
    var f := FormatDate(r.year, r.month, r.day);
    SameYearText(s[..4], f[..4], r.year);
    SameTwoDigitText(s[5..7], f[5..7], r.month);
    SameTwoDigitText(s[8..], f[8..], r.day);
    assert s == s[..4] + "-" + s[5..7] + "-" + s[8..];
    assert f == f[..4] + "-" + f[5..7] + "-" + f[8..];
  }

  /** The billing date the account test feeds in parses to its midnight. */
  lemma StrptimeAcceptsCanonical()
    ensures Strptime("2020-11-03") == Success(DateTime(2020, 11, 3, 0, 0, 0))
  {
    var s := "2020-11-03";
    assert s[..4] == "2020" && s[5..7] == "11" && s[8..] == "03";
    SpelledDateParses(s, 2020, 11, 3);
  }

  /** A single-digit month or day is also accepted: the pattern is looser than
      `YYYY-MM-DD`. */
  lemma StrptimeAcceptsUnpadded()
    ensures Strptime("2020-1-3") == Success(DateTime(2020, 1, 3, 0, 0, 0))
  {
    var s := "2020-1-3";
    assert s[..4] == "2020" && s[5..6] == "1" && s[7..] == "3";
    assert SpellsMonth(s[5..6], 1) && SpellsDay(s[7..], 3);
    assert MonthDayAt(s, 1, 1, 3);
    SpelledDateParses(s, 2020, 1, 3);
  }

  /** A space before a single day digit passes too. */
  lemma StrptimeAcceptsSpacePaddedDay()
    ensures Strptime("2020-01- 3") == Success(DateTime(2020, 1, 3, 0, 0, 0))
  {
    var t := "2020-01- 3";
    assert t[..4] == "2020" && t[5..7] == "01" && t[8..] == " 3";
    assert SpellsMonth(t[5..7], 1) && SpellsDay(t[8..], 3);
    assert MonthDayAt(t, 2, 1, 3);
    SpelledDateParses(t, 2020, 1, 3);
  }

  /** A tail after the day is refused. */
  lemma StrptimeRejectsTail()
    ensures Strptime("2020-11-03T00:00:00") == Failure(UnconvertedDataRemains)
  {
    var s := "2020-11-03T00:00:00";
    assert s[5..] == "11-03T00:00:00";
    assert MonthAlternatives(s[5..]) == [Piece(11, 2), Piece(1, 1)];
    assert s[5..][3..] == "03T00:00:00";
    assert DayAlternatives("03T00:00:00") == [Piece(3, 2)];
  }

  /** Month 13 and a missing separator do not match the pattern. */
  lemma StrptimeRejectsMalformed()
    ensures Strptime("2020-13-01") == Failure(DoesNotMatchFormat)
    ensures Strptime("20201103") == Failure(DoesNotMatchFormat)
  {
    assert "2020-13-01"[5..] == "13-01";
    assert MonthAlternatives("13-01") == [Piece(1, 1)];
  }

  /** 29 February of a common year and year 0 match the pattern but are not dates. */
  lemma StrptimeRejectsImpossibleDates()
    ensures Strptime("2021-02-29") == Failure(DateOutOfRange)
    ensures Strptime("0000-01-01") == Failure(DateOutOfRange)
  {
    assert "2021-02-29"[5..] == "02-29";
    assert MonthAlternatives("02-29") == [Piece(2, 2)];
    assert "02-29"[3..] == "29";
    assert DayAlternatives("29") == [Piece(29, 2), Piece(2, 1)];
    assert "0000-01-01"[5..] == "01-01";
    assert MonthAlternatives("01-01") == [Piece(1, 2)];
    assert "01-01"[3..] == "01";
    assert DayAlternatives("01") == [Piece(1, 2)];
  }
}
