/**
 * `DateTime.Now.ToString("yyyy-MM-dd-HH-mm-ss")`, the stamp a branch records when it is
 * designed or moved. The clock reading is a parameter. The format uses the current
 * culture's calendar; this model assumes a culture whose calendar is the Gregorian one
 * (years 1 to 9999, Gregorian leap years).
 */
module TimeStamps {
  import opened Wrappers

  datatype DateTime = DateTime(year: int, month: int, day: int, hour: int, minute: int, second: int)

  predicate IsLeapYear(y: int) {
    y % 4 == 0 && (y % 100 != 0 || y % 400 == 0)
  }

  function DaysInMonth(y: int, m: int): int
    requires 1 <= m <= 12
  {
    if m == 2 then (if IsLeapYear(y) then 29 else 28)
    else if m == 4 || m == 6 || m == 9 || m == 11 then 30
    else 31
  }

  /** The values a `System.DateTime` can hold, to the second. */
  predicate ValidDateTime(t: DateTime) {
    1 <= t.year <= 9999 && 1 <= t.month <= 12 && 1 <= t.day <= DaysInMonth(t.year, t.month) &&
    0 <= t.hour < 24 && 0 <= t.minute < 60 && 0 <= t.second < 60
  }

  function Pow10(n: nat): (p: nat)
    ensures p >= 1
  {
    if n == 0 then 1 else 10 * Pow10(n - 1)
  }

  predicate IsDigit(c: char) {
    '0' <= c <= '9'
  }

  predicate AllDigits(s: string) {
    forall i :: 0 <= i < |s| ==> IsDigit(s[i])
  }

  function DigitChar(d: int): (c: char)
    requires 0 <= d < 10
    ensures IsDigit(c) && c as int - '0' as int == d
  {
    ('0' as int + d) as char
  }

  /** `n` written in decimal with exactly `width` digits, zero-padded on the left. */
  function Digits(n: nat, width: nat): (s: string)
    requires n < Pow10(width)
    ensures |s| == width && AllDigits(s)
    decreases width
  {
    if width == 0 then "" else Digits(n / 10, width - 1) + [DigitChar(n % 10)]
  }

  /** The number a string of decimal digits denotes. */
  function DigitsValue(s: string): nat
    requires AllDigits(s)
    decreases |s|
  {
    if s == [] then 0 else 10 * DigitsValue(s[..|s| - 1]) + (s[|s| - 1] as int - '0' as int)
  }

  lemma {:induction false} DigitsValueOfDigits(n: nat, width: nat)
    requires n < Pow10(width)
    ensures DigitsValue(Digits(n, width)) == n
    decreases width
  {
    if width > 0 {
      var s := Digits(n, width);
      assert s[..|s| - 1] == Digits(n / 10, width - 1);
      DigitsValueOfDigits(n / 10, width - 1);
    }
  }

  lemma DivModDigit(v: nat, d: int)
    requires 0 <= d < 10
    ensures (10 * v + d) / 10 == v && (10 * v + d) % 10 == d
  {
  }

  lemma {:induction false} DigitsOfDigitsValue(s: string)
    requires AllDigits(s)
    ensures DigitsValue(s) < Pow10(|s|) && Digits(DigitsValue(s), |s|) == s
    decreases |s|
  {
    if s != [] {
      var init := s[..|s| - 1];
      var last := s[|s| - 1];
      var d := last as int - '0' as int;
      DigitsOfDigitsValue(init);
      var v := DigitsValue(init);
      assert DigitsValue(s) == 10 * v + d;
      DivModDigit(v, d);
      assert DigitChar(d) == last;
      assert Digits(10 * v + d, |s|) == Digits(v, |init|) + [last];
      assert s == init + [last];
    }
  }

  /** The positions of the five '-' separators in a stamp. */
  predicate IsSeparatorPosition(i: int) {
    i == 4 || i == 7 || i == 10 || i == 13 || i == 16
  }

  /** 19 characters: '-' at the separator positions, decimal digits everywhere else. */
  predicate HasStampShape(s: string) {
    |s| == 19 &&
    forall i :: 0 <= i < 19 ==> if IsSeparatorPosition(i) then s[i] == '-' else IsDigit(s[i])
  }

  /** `t.ToString("yyyy-MM-dd-HH-mm-ss")` */
  function GetTimeStamp(t: DateTime): (s: string)
    requires ValidDateTime(t)
    ensures HasStampShape(s)
  {
    var s := JoinFields(Digits(t.year, 4), Digits(t.month, 2), Digits(t.day, 2),
                        Digits(t.hour, 2), Digits(t.minute, 2), Digits(t.second, 2));
    StampFields(t, s);
    s
  }

  /** Six fields joined by '-', as the format string lays them out. */
  function JoinFields(y: string, mo: string, d: string, h: string, mi: string, se: string): string {
    y + "-" + mo + "-" + d + "-" + h + "-" + mi + "-" + se
  }

  /** Where each field sits in the joined string, when the fields have the format's widths. */
  lemma JoinLayout(y: string, mo: string, d: string, h: string, mi: string, se: string)
    requires |y| == 4 && |mo| == 2 && |d| == 2 && |h| == 2 && |mi| == 2 && |se| == 2
    ensures var s := JoinFields(y, mo, d, h, mi, se);
      |s| == 19 && s[0..4] == y && s[5..7] == mo && s[8..10] == d &&
      s[11..13] == h && s[14..16] == mi && s[17..19] == se &&
      s[4] == '-' && s[7] == '-' && s[10] == '-' && s[13] == '-' && s[16] == '-'
  {
    var s := JoinFields(y, mo, d, h, mi, se);
    var p1 := y + "-";
    var p2 := p1 + mo + "-";
    var p3 := p2 + d + "-";
    var p4 := p3 + h + "-";
    var p5 := p4 + mi + "-";
    assert s == p5 + se;
    assert p5 == p4 + mi + "-";
    assert s[0..4] == y by { assert s[0..4] == p1[0..4]; }
    assert s[5..7] == mo by { assert s[5..7] == p2[5..7]; }
    assert s[8..10] == d by { assert s[8..10] == p3[8..10]; }
    assert s[11..13] == h by { assert s[11..13] == p4[11..13]; }
    assert s[14..16] == mi by { assert s[14..16] == p5[14..16]; }
  }

  /** Where each field of `t` sits in its stamp. */
  lemma StampFields(t: DateTime, s: string)
    requires ValidDateTime(t)
    requires s == JoinFields(Digits(t.year, 4), Digits(t.month, 2), Digits(t.day, 2),
                             Digits(t.hour, 2), Digits(t.minute, 2), Digits(t.second, 2))
    ensures |s| == 19
    ensures s[0..4] == Digits(t.year, 4) && s[5..7] == Digits(t.month, 2) && s[8..10] == Digits(t.day, 2)
    ensures s[11..13] == Digits(t.hour, 2) && s[14..16] == Digits(t.minute, 2) && s[17..19] == Digits(t.second, 2)
    ensures HasStampShape(s)
  {
    JoinLayout(Digits(t.year, 4), Digits(t.month, 2), Digits(t.day, 2),
               Digits(t.hour, 2), Digits(t.minute, 2), Digits(t.second, 2));
    forall i | 0 <= i < 19
      ensures if IsSeparatorPosition(i) then s[i] == '-' else IsDigit(s[i])
    {
      if i < 4 { assert s[i] == s[0..4][i]; }
      else if 4 < i < 7 { assert s[i] == s[5..7][i - 5]; }
      else if 7 < i < 10 { assert s[i] == s[8..10][i - 8]; }
      else if 10 < i < 13 { assert s[i] == s[11..13][i - 11]; }
      else if 13 < i < 16 { assert s[i] == s[14..16][i - 14]; }
      else if 16 < i { assert s[i] == s[17..19][i - 17]; }
    }
  }

  /** Reads a stamp back; `None` unless `s` is exactly what `GetTimeStamp` writes for some instant. */
  function ParseTimeStamp(s: string): (r: Option<DateTime>)
    ensures r.Some? ==> ValidDateTime(r.value) && HasStampShape(s)
  {
    if HasStampShape(s) then
      assert AllDigits(s[0..4]) && AllDigits(s[5..7]) && AllDigits(s[8..10]);
      assert AllDigits(s[11..13]) && AllDigits(s[14..16]) && AllDigits(s[17..19]);
      var t := DateTime(DigitsValue(s[0..4]), DigitsValue(s[5..7]), DigitsValue(s[8..10]),
                        DigitsValue(s[11..13]), DigitsValue(s[14..16]), DigitsValue(s[17..19]));
      if ValidDateTime(t) then Some(t) else None
    else None
  }

  /** Every instant's stamp reads back as that instant. */
  lemma ParseOfStamp(t: DateTime)
    requires ValidDateTime(t)
    ensures ParseTimeStamp(GetTimeStamp(t)) == Some(t)
  {
    var s := GetTimeStamp(t);
    StampFields(t, s);
    DigitsValueOfDigits(t.year, 4);
    DigitsValueOfDigits(t.month, 2);
    DigitsValueOfDigits(t.day, 2);
    DigitsValueOfDigits(t.hour, 2);
    DigitsValueOfDigits(t.minute, 2);
    DigitsValueOfDigits(t.second, 2);
  }

  /** A string of stamp shape is the join of its own fields. */
  lemma JoinOfFields(s: string)
    requires HasStampShape(s)
    ensures JoinFields(s[0..4], s[5..7], s[8..10], s[11..13], s[14..16], s[17..19]) == s
  {
    var u := JoinFields(s[0..4], s[5..7], s[8..10], s[11..13], s[14..16], s[17..19]);
    JoinLayout(s[0..4], s[5..7], s[8..10], s[11..13], s[14..16], s[17..19]);
    forall i | 0 <= i < 19
      ensures u[i] == s[i]
    {
      if i < 4 { assert u[i] == u[0..4][i]; }
      else if 4 < i < 7 { assert u[i] == u[5..7][i - 5]; }
      else if 7 < i < 10 { assert u[i] == u[8..10][i - 8]; }
      else if 10 < i < 13 { assert u[i] == u[11..13][i - 11]; }
      else if 13 < i < 16 { assert u[i] == u[14..16][i - 14]; }
      else if 16 < i { assert u[i] == u[17..19][i - 17]; }
    }
  }

  /** Every string that reads back as an instant is that instant's stamp. */
  lemma StampOfParse(s: string)
    requires ParseTimeStamp(s).Some?
    ensures GetTimeStamp(ParseTimeStamp(s).value) == s
  {
    assert AllDigits(s[0..4]) && AllDigits(s[5..7]) && AllDigits(s[8..10]);
    assert AllDigits(s[11..13]) && AllDigits(s[14..16]) && AllDigits(s[17..19]);
    DigitsOfDigitsValue(s[0..4]);
    DigitsOfDigitsValue(s[5..7]);
    DigitsOfDigitsValue(s[8..10]);
    DigitsOfDigitsValue(s[11..13]);
    DigitsOfDigitsValue(s[14..16]);
    DigitsOfDigitsValue(s[17..19]);
    JoinOfFields(s);
  }

  /** Distinct instants never share a stamp. */
  lemma StampInjective(t1: DateTime, t2: DateTime)
    requires ValidDateTime(t1) && ValidDateTime(t2)
    requires GetTimeStamp(t1) == GetTimeStamp(t2)
    ensures t1 == t2
  {
    ParseOfStamp(t1);
    ParseOfStamp(t2);
  }
}
