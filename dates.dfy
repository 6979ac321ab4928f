/** `parse_date_string` and `to_dcp_version` (exporter/utils.py): ingest
    timestamps are read with `strptime`, first as "%Y-%m-%dT%H:%M:%S.%fZ", then
    as "%Y-%m-%dT%H:%M:%SZ", and re-rendered as "%Y-%m-%dT%H:%M:%S.%fZ".
    Fields are read in their two-digit (four for the year) zero-padded form;
    `strptime` matches the literal 'T' and 'Z' without regard to case. */
module Dates {
  import opened Wrappers
  import opened Strings

  datatype DateTime = DateTime(year: nat, month: nat, day: nat,
                               hour: nat, minute: nat, second: nat, microsecond: nat)

  predicate IsLeapYear(y: nat) {
    y % 4 == 0 && (y % 100 != 0 || y % 400 == 0)
  }

  function DaysInMonth(y: nat, m: nat): nat
    requires 1 <= m <= 12
  {
    if m == 2 then (if IsLeapYear(y) then 29 else 28)
    else if m == 4 || m == 6 || m == 9 || m == 11 then 30
    else 31
  }

  /** The values Python's `datetime` constructor accepts. */
  predicate ValidDateTime(d: DateTime) {
    1 <= d.year <= 9999 && 1 <= d.month <= 12 && 1 <= d.day <= DaysInMonth(d.year, d.month)
    && d.hour < 24 && d.minute < 60 && d.second < 60 && d.microsecond < 1000000
  }

  predicate IsT(c: char) { c == 'T' || c == 't' }

  predicate IsZ(c: char) { c == 'Z' || c == 'z' }

  /** "YYYY-MM-DDTHH:MM:SS" at the start of `s`. */
  predicate HeadShape(s: string) {
    |s| >= 19
    && AllDigits(s[0..4]) && s[4] == '-' && AllDigits(s[5..7]) && s[7] == '-'
    && AllDigits(s[8..10]) && IsT(s[10]) && AllDigits(s[11..13]) && s[13] == ':'
    && AllDigits(s[14..16]) && s[16] == ':' && AllDigits(s[17..19])
  }

  function HeadFields(s: string): DateTime
    requires HeadShape(s)
  {
    DateTime(DigitsValue(s[0..4]), DigitsValue(s[5..7]), DigitsValue(s[8..10]),
             DigitsValue(s[11..13]), DigitsValue(s[14..16]), DigitsValue(s[17..19]), 0)
  }

  /** "%Y-%m-%dT%H:%M:%S.%fZ" with `%f` one to six digits. */
  predicate LongShape(s: string) {
    HeadShape(s) && 22 <= |s| <= 27 && s[19] == '.' && AllDigits(s[20..|s| - 1]) && IsZ(s[|s| - 1])
  }

  /** "%Y-%m-%dT%H:%M:%SZ" */
  predicate ShortShape(s: string) {
    HeadShape(s) && |s| == 20 && IsZ(s[19])
  }

  /** `%f` right-pads its digits with zeros to microseconds. */
  function FractionValue(f: string): (us: nat)
    requires 1 <= |f| <= 6 && AllDigits(f)
    ensures us < 1000000
  {
    ShiftBound(DigitsValue(f), |f|, 6 - |f|);
    DigitsValue(f) * Pow10(6 - |f|)
  }

  function Fields(s: string): DateTime
    requires LongShape(s) || ShortShape(s)
  {
    if ShortShape(s) then HeadFields(s)
    else HeadFields(s).(microsecond := FractionValue(s[20..|s| - 1]))
  }

  /** `parse_date_string`: the first expected format that `strptime` accepts,
      otherwise ValueError. */
  function ParseDateString(s: string): (r: Result<DateTime>)
    ensures r.Ok? <==> (LongShape(s) || ShortShape(s)) && ValidDateTime(Fields(s))
    ensures r.Ok? ==> ValidDateTime(r.value) && r.value == Fields(s)
    ensures r.Err? ==> r.error == ValueError
  {
    if (LongShape(s) || ShortShape(s)) && ValidDateTime(Fields(s)) then Ok(Fields(s))
    else Err(ValueError)
  }

  /** `%Y` as glibc's strftime renders it: four digits from year 1000 on,
      unpadded below. */
  function YearString(y: nat): string
    requires y <= 9999
  {
    if y >= 1000 then Pad(y, 4) else NatToString(y)
  }

  /** "%Y-%m-%d" */
  function DatePart(d: DateTime): string
    requires ValidDateTime(d)
  {
    YearString(d.year) + "-" + Pad(d.month, 2) + "-" + Pad(d.day, 2)
  }

  /** "%H:%M:%S" */
  function TimePart(d: DateTime): string
    requires ValidDateTime(d)
  {
    Pad(d.hour, 2) + ":" + Pad(d.minute, 2) + ":" + Pad(d.second, 2)
  }

  /** `strftime("%Y-%m-%dT%H:%M:%S.%fZ")` */
  function Format(d: DateTime): string
    requires ValidDateTime(d)
  {
    DatePart(d) + "T" + TimePart(d) + "." + Pad(d.microsecond, 6) + "Z"
  }

  /** `to_dcp_version` */
  function ToDcpVersion(s: string): (r: Result<string>)
    ensures r.Err? <==> ParseDateString(s).Err?
    ensures r.Err? ==> r.error == ValueError
  {
    var d :- ParseDateString(s);
    Ok(Format(d))
  }

  /** The rendering of a date from year 1000 on: 27 characters, separators in
      place, the six fraction digits and the closing 'Z'. */
  predicate IsDcpVersion(v: string) {
    |v| == 27 && LongShape(v) && v[10] == 'T' && v[26] == 'Z'
  }

  function Zeros(n: nat): (z: string)
    ensures |z| == n && AllDigits(z) && forall i :: 0 <= i < n ==> z[i] == '0'
  {
    seq(n, _ => '0')
  }

  lemma MulPow10(v: nat, m: nat)
    requires m > 0
    ensures v * Pow10(m) == (v * Pow10(m - 1)) * 10
  {
    calc {
      v * Pow10(m);
      v * (10 * Pow10(m - 1));
      (v * Pow10(m - 1)) * 10;
    }
  }

  /** Scaling by a power of ten keeps a number within the scaled bound. */
  lemma {:induction false} ShiftBound(v: nat, w: nat, m: nat)
    requires v < Pow10(w)
    ensures v * Pow10(m) < Pow10(w + m)
    decreases m
  {
    if m > 0 {
      ShiftBound(v, w, m - 1);
      MulPow10(v, m);
      assert Pow10(w + m) == 10 * Pow10(w + m - 1);
    }
  }

  /** Scaling by a power of ten appends zeros to the rendering. */
  lemma {:induction false} PadShift(v: nat, w: nat, m: nat)
    requires v < Pow10(w)
    ensures v * Pow10(m) < Pow10(w + m)
    ensures Pad(v * Pow10(m), w + m) == Pad(v, w) + Zeros(m)
    decreases m
  {
    ShiftBound(v, w, m);
    if m > 0 {
      var x := v * Pow10(m - 1);
      ShiftBound(v, w, m - 1);
      MulPow10(v, m);
      DivMod10(x, 0);
      calc {
        Pad(v * Pow10(m), w + m);
        Pad(x * 10, w + m);
        Pad(x, w + m - 1) + [DigitChar(0)];
        { PadShift(v, w, m - 1); }
        Pad(v, w) + Zeros(m - 1) + ['0'];
        { ZerosSnoc(m); }
        Pad(v, w) + Zeros(m);
      }
    }
  }

  lemma ZerosSnoc(m: nat)
    requires m > 0
    ensures Zeros(m - 1) + ['0'] == Zeros(m)
  {
    assert (Zeros(m - 1) + ['0'])[m - 1] == '0';
  }

  /** Where each of six concatenated pieces sits. */
  lemma SixPieces(a: string, b: string, c: string, d: string, e: string, f: string)
    ensures var v := a + b + c + d + e + f;
      var i := |a| + |b|;
      var j := i + |c| + |d|;
      var k := j + |e|;
      && v[..|a|] == a && v[|a|..i] == b && v[i..i + |c|] == c
      && v[i + |c|..j] == d && v[j..k] == e && v[k..] == f
  {
  }

  lemma DatePartSlices(d: DateTime)
    requires ValidDateTime(d) && d.year >= 1000
    ensures var p := DatePart(d);
      |p| == 10 && p[0..4] == Pad(d.year, 4) && p[4] == '-' && p[5..7] == Pad(d.month, 2)
      && p[7] == '-' && p[8..10] == Pad(d.day, 2)
  {
  }

  lemma TimePartSlices(d: DateTime)
    requires ValidDateTime(d)
    ensures var p := TimePart(d);
      |p| == 8 && p[0..2] == Pad(d.hour, 2) && p[2] == ':' && p[3..5] == Pad(d.minute, 2)
      && p[5] == ':' && p[6..8] == Pad(d.second, 2)
  {
  }

  lemma FormatSlices(d: DateTime)
    requires ValidDateTime(d) && d.year >= 1000
    ensures var v := Format(d);
      |v| == 27 && v[..10] == DatePart(d) && v[10] == 'T' && v[11..19] == TimePart(d)
      && v[19] == '.' && v[20..26] == Pad(d.microsecond, 6) && v[26] == 'Z'
  {
    var v := Format(d);
    DatePartSlices(d);
    TimePartSlices(d);
    SixPieces(DatePart(d), "T", TimePart(d), ".", Pad(d.microsecond, 6), "Z");
    assert v[10] == v[10..11][0] && v[19] == v[19..20][0] && v[26] == v[26..][0];
  }

  /** A rendered date from year 1000 on has the long shape. */
  lemma FormatShape(d: DateTime)
    requires ValidDateTime(d) && d.year >= 1000
    ensures IsDcpVersion(Format(d))
    ensures Format(d)[0..4] == Pad(d.year, 4) && Format(d)[5..7] == Pad(d.month, 2)
    ensures Format(d)[8..10] == Pad(d.day, 2) && Format(d)[11..13] == Pad(d.hour, 2)
    ensures Format(d)[14..16] == Pad(d.minute, 2) && Format(d)[17..19] == Pad(d.second, 2)
    ensures Format(d)[20..26] == Pad(d.microsecond, 6)
  {
    var v := Format(d);
    FormatSlices(d);
    DatePartSlices(d);
    TimePartSlices(d);
    assert v[0..4] == v[..10][0..4] && v[5..7] == v[..10][5..7] && v[8..10] == v[..10][8..10];
    assert v[11..13] == v[11..19][0..2] && v[14..16] == v[11..19][3..5] && v[17..19] == v[11..19][6..8];
    assert v[4] == v[..10][4] && v[7] == v[..10][7];
    assert v[13] == v[11..19][2] && v[16] == v[11..19][5];
    assert v[20..|v| - 1] == v[20..26];
  }

  /** Reading a rendered date gives the date back. */
  lemma ParseFormat(d: DateTime)
    requires ValidDateTime(d) && d.year >= 1000
    ensures IsDcpVersion(Format(d))
    ensures ParseDateString(Format(d)) == Ok(d)
  {
    var v := Format(d);
    FormatShape(d);
    PadValue(d.year, 4);
    PadValue(d.month, 2);
    PadValue(d.day, 2);
    PadValue(d.hour, 2);
    PadValue(d.minute, 2);
    PadValue(d.second, 2);
    PadValue(d.microsecond, 6);
    assert !ShortShape(v);
    assert Fields(v) == d;
  }

  /** `to_dcp_version` is idempotent on the dates it renders in four-digit
      years. */
  lemma ToDcpVersionIdempotent(s: string)
    requires ToDcpVersion(s).Ok? && Fields(s).year >= 1000
    ensures IsDcpVersion(ToDcpVersion(s).value)
    ensures ToDcpVersion(ToDcpVersion(s).value) == ToDcpVersion(s)
  {
    ParseFormat(Fields(s));
  }

  lemma HeadPieces(s: string)
    requires HeadShape(s)
    ensures s[..10] == s[0..4] + "-" + s[5..7] + "-" + s[8..10]
    ensures s[11..19] == s[11..13] + ":" + s[14..16] + ":" + s[17..19]
  {
  }

  lemma DatePartOfFields(s: string)
    requires (LongShape(s) || ShortShape(s)) && ValidDateTime(Fields(s)) && Fields(s).year >= 1000
    ensures DatePart(Fields(s)) == s[..10]
  {
    HeadPieces(s);
    ValuePad(s[0..4]);
    ValuePad(s[5..7]);
    ValuePad(s[8..10]);
  }

  lemma TimePartOfFields(s: string)
    requires (LongShape(s) || ShortShape(s)) && ValidDateTime(Fields(s))
    ensures TimePart(Fields(s)) == s[11..19]
  {
    HeadPieces(s);
    ValuePad(s[11..13]);
    ValuePad(s[14..16]);
    ValuePad(s[17..19]);
  }

  lemma FractionOfFields(s: string)
    requires (LongShape(s) || ShortShape(s)) && ValidDateTime(Fields(s))
    ensures Pad(Fields(s).microsecond, 6)
         == (if ShortShape(s) then Zeros(6) else s[20..|s| - 1] + Zeros(27 - |s|))
  {
    if ShortShape(s) {
      assert Fields(s).microsecond == 0;
      PadZeros(6);
    } else {
      var f := s[20..|s| - 1];
      assert Fields(s).microsecond == DigitsValue(f) * Pow10(6 - |f|);
      ValuePad(f);
      PadShift(DigitsValue(f), |f|, 6 - |f|);
    }
  }

  lemma {:induction false} PadZeros(n: nat)
    ensures Pad(0, n) == Zeros(n)
  {
    if n > 0 {
      PadZeros(n - 1);
      ZerosSnoc(n);
    }
  }

  /** `to_dcp_version` keeps the date and time digits as written, upper-cases
      the 'T', and pads the fraction with zeros to six digits ("000000" when
      there is none). */
  lemma ToDcpVersionKeepsDigits(s: string)
    requires ToDcpVersion(s).Ok? && Fields(s).year >= 1000
    ensures var v := ToDcpVersion(s).value;
      && |v| == 27 && v[..10] == s[..10] && v[10] == 'T' && v[11..19] == s[11..19]
      && v[19] == '.' && v[26] == 'Z'
      && v[20..26] == (if ShortShape(s) then Zeros(6) else s[20..|s| - 1] + Zeros(27 - |s|))
  {
    FormatSlices(Fields(s));
    DatePartOfFields(s);
    TimePartOfFields(s);
    FractionOfFields(s);
  }

  lemma TwoDigits(s: string, i: nat)
    requires i + 2 <= |s| && IsDigit(s[i]) && IsDigit(s[i + 1])
    ensures AllDigits(s[i..i + 2])
    ensures DigitsValue(s[i..i + 2]) == DigitValue(s[i]) * 10 + DigitValue(s[i + 1])
  {
    assert s[i..i + 2][..1] == [s[i]];
  }

  lemma FourDigits(s: string, i: nat)
    requires i + 4 <= |s| && IsDigit(s[i]) && IsDigit(s[i + 1]) && IsDigit(s[i + 2]) && IsDigit(s[i + 3])
    ensures AllDigits(s[i..i + 4])
    ensures DigitsValue(s[i..i + 4])
         == ((DigitValue(s[i]) * 10 + DigitValue(s[i + 1])) * 10 + DigitValue(s[i + 2])) * 10 + DigitValue(s[i + 3])
  {
    var x := s[i..i + 4];
    assert x[..3] == s[i..i + 3];
    assert x[..3][..2] == s[i..i + 2];
    TwoDigits(s, i);
  }

  /** The head "YYYY-MM-DDTHH:MM:SS" from its characters. */
  lemma HeadOf(s: string)
    requires |s| >= 19
    requires IsDigit(s[0]) && IsDigit(s[1]) && IsDigit(s[2]) && IsDigit(s[3]) && s[4] == '-'
    requires IsDigit(s[5]) && IsDigit(s[6]) && s[7] == '-' && IsDigit(s[8]) && IsDigit(s[9])
    requires IsT(s[10]) && IsDigit(s[11]) && IsDigit(s[12]) && s[13] == ':'
    requires IsDigit(s[14]) && IsDigit(s[15]) && s[16] == ':' && IsDigit(s[17]) && IsDigit(s[18])
    ensures HeadShape(s)
    ensures HeadFields(s) == DateTime(
      ((DigitValue(s[0]) * 10 + DigitValue(s[1])) * 10 + DigitValue(s[2])) * 10 + DigitValue(s[3]),
      DigitValue(s[5]) * 10 + DigitValue(s[6]), DigitValue(s[8]) * 10 + DigitValue(s[9]),
      DigitValue(s[11]) * 10 + DigitValue(s[12]), DigitValue(s[14]) * 10 + DigitValue(s[15]),
      DigitValue(s[17]) * 10 + DigitValue(s[18]), 0)
  {
    FourDigits(s, 0);
    TwoDigits(s, 5);
    TwoDigits(s, 8);
    TwoDigits(s, 11);
    TwoDigits(s, 14);
    TwoDigits(s, 17);
  }

  // ------------------------------------------------------------ examples

  lemma ExamplePads()
    ensures Pad(2019, 4) == "2019" && Pad(5, 2) == "05" && Pad(23, 2) == "23"
    ensures Pad(16, 2) == "16" && Pad(53, 2) == "53" && Pad(40, 2) == "40"
  {
    assert Pad(2, 1) == "2" && Pad(20, 2) == "20" && Pad(201, 3) == "201";
  }

  lemma ExampleShortFormat(d: DateTime)
    requires d == DateTime(2019, 5, 23, 16, 53, 40, 0)
    ensures Format(d) == "2019-05-23T16:53:40.000000Z"
  {
    assert "2019-05-23" + "T" + "16:53:40" + "." + "000000" + "Z" == "2019-05-23T16:53:40.000000Z";
    ExampleParts(d.microsecond);
    PadZero(d.microsecond);
    FormatOfPieces(d, "2019-05-23", "16:53:40", "000000");
  }

  lemma PadZero(us: nat)
    requires us == 0
    ensures Pad(us, 6) == "000000"
  {
  }

  lemma ExampleParts(us: nat)
    requires us < 1000000
    ensures DatePart(DateTime(2019, 5, 23, 16, 53, 40, us)) == "2019-05-23"
    ensures TimePart(DateTime(2019, 5, 23, 16, 53, 40, us)) == "16:53:40"
  {
    ExamplePads();
  }

  lemma FormatOfPieces(d: DateTime, date: string, time: string, fraction: string)
    requires ValidDateTime(d) && DatePart(d) == date && TimePart(d) == time && Pad(d.microsecond, 6) == fraction
    ensures Format(d) == date + "T" + time + "." + fraction + "Z"
  {
  }

  lemma ExampleMillisFormat(d: DateTime)
    requires d == DateTime(2019, 5, 23, 16, 53, 40, 931000)
    ensures Format(d) == "2019-05-23T16:53:40.931000Z"
  {
    assert "2019-05-23" + "T" + "16:53:40" + "." + "931000" + "Z" == "2019-05-23T16:53:40.931000Z";
    ExampleParts(d.microsecond);
    PadMillis(d.microsecond);
    FormatOfPieces(d, "2019-05-23", "16:53:40", "931000");
  }

  lemma PadMillis(us: nat)
    requires us == 931000
    ensures Pad(us, 6) == "931000"
  {
    assert Pad(9, 1) == "9" && Pad(93, 2) == "93" && Pad(931, 3) == "931";
    assert Pad(9310, 4) == "9310" && Pad(93100, 5) == "93100";
  }

  lemma ExampleShortFields()
    ensures ShortShape("2019-05-23T16:53:40Z")
    ensures Fields("2019-05-23T16:53:40Z") == DateTime(2019, 5, 23, 16, 53, 40, 0)
  {
    HeadOf("2019-05-23T16:53:40Z");
  }

  /** A short timestamp gains a zero fraction. */
  lemma ExampleShort()
    ensures ToDcpVersion("2019-05-23T16:53:40Z") == Ok("2019-05-23T16:53:40.000000Z")
  {
    ExampleShortFields();
    ExampleShortFormat(DateTime(2019, 5, 23, 16, 53, 40, 0));
  }

  lemma ExampleMillisFields(s: string)
    requires s == "2019-05-23T16:53:40.931Z"
    ensures LongShape(s)
    ensures Fields(s) == DateTime(2019, 5, 23, 16, 53, 40, 931000)
  {
    HeadOf(s);
    assert s[20..23] == "931";
    assert DigitsValue("931") == 931 by {
      assert "931"[..2] == "93" && "93"[..1] == "9";
    }
  }

  /** Three fraction digits are padded to six. */
  lemma ExampleMillis()
    ensures ToDcpVersion("2019-05-23T16:53:40.931Z") == Ok("2019-05-23T16:53:40.931000Z")
  {
    ExampleMillisFields("2019-05-23T16:53:40.931Z");
    ExampleMillisFormat(DateTime(2019, 5, 23, 16, 53, 40, 931000));
  }

  /** Separators in the wrong places are a ValueError. */
  lemma ExampleUnknownFormat()
    ensures ParseDateString("2019:06:12Y09-49-25.000X") == Err(ValueError)
  {
    assert !HeadShape("2019:06:12Y09-49-25.000X");
  }

  lemma ExampleThreeDigitYearFields()
    ensures ShortShape("0999-01-01T00:00:00Z")
    ensures Fields("0999-01-01T00:00:00Z") == DateTime(999, 1, 1, 0, 0, 0, 0)
  {
    HeadOf("0999-01-01T00:00:00Z");
  }

  lemma ExampleThreeDigitYearFormat(d: DateTime)
    requires d == DateTime(999, 1, 1, 0, 0, 0, 0)
    ensures Format(d) == "999-01-01T00:00:00.000000Z"
  {
    assert "999-01-01" + "T" + "00:00:00" + "." + "000000" + "Z" == "999-01-01T00:00:00.000000Z";
    ThreeDigitYearParts(d);
    PadZero(d.microsecond);
    FormatOfPieces(d, "999-01-01", "00:00:00", "000000");
  }

  lemma ThreeDigitYearParts(d: DateTime)
    requires d == DateTime(999, 1, 1, 0, 0, 0, 0)
    ensures DatePart(d) == "999-01-01" && TimePart(d) == "00:00:00"
  {
    assert "999" + "-" + "01" + "-" + "01" == "999-01-01";
    assert "00" + ":" + "00" + ":" + "00" == "00:00:00";
    NineNineNine(d.year);
    PadDigit(d.month);
    PadDigit(d.hour);
  }

  lemma NineNineNine(n: nat)
    requires n == 999
    ensures NatToString(n) == "999"
  {
    assert NatToString(9) == "9" && NatToString(99) == "99";
  }

  /** A digit as two characters. */
  lemma PadDigit(n: nat)
    requires n < 10
    ensures Pad(n, 2) == ['0', DigitChar(n)]
  {
    assert n / 10 == 0 && n % 10 == n;
    assert Pad(0, 1) == Pad(0, 0) + [DigitChar(0)];
  }

  /** Below year 1000 the rendering loses its four-digit year and no longer
      parses: the normalisation is not idempotent there. */
  lemma ExampleThreeDigitYear()
    ensures ToDcpVersion("0999-01-01T00:00:00Z") == Ok("999-01-01T00:00:00.000000Z")
    ensures ToDcpVersion("999-01-01T00:00:00.000000Z") == Err(ValueError)
  {
    ExampleThreeDigitYearFields();
    ExampleThreeDigitYearFormat(DateTime(999, 1, 1, 0, 0, 0, 0));
    var t := "999-01-01T00:00:00.000000Z";
    assert !IsDigit(t[0..4][3]);
  }
}
