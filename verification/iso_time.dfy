/**
  Naive (time-zone-less) datetimes as produced by datetime.utcnow(), with the
  ISO 8601 text that datetime.isoformat() writes and datetime.fromisoformat()
  reads back. Only the two shapes isoformat() emits for a naive datetime are
  modelled:
    YYYY-MM-DDTHH:MM:SS          when the microsecond is zero
    YYYY-MM-DDTHH:MM:SS.ffffff   otherwise
 */
module IsoTime {
  import opened Wrappers

  datatype DateTime = DateTime(year: nat, month: nat, day: nat,
                               hour: nat, minute: nat, second: nat, microsecond: nat)
  {
    /** The range checks datetime's constructor applies (it raises ValueError otherwise). */
    predicate Valid() {
      && 1 <= year <= 9999
      && 1 <= month <= 12
      && 1 <= day <= DaysInMonth(year, month)
      && hour < 24 && minute < 60 && second < 60
      && microsecond < 1000000
    }
  }

  /** Every Python datetime object satisfies the constructor's range checks. */
  type Timestamp = t: DateTime | t.Valid() witness DateTime(1, 1, 1, 0, 0, 0, 0)

  predicate IsLeapYear(year: nat) {
    year % 4 == 0 && (year % 100 != 0 || year % 400 == 0)
  }

  function DaysInMonth(year: nat, month: nat): (days: nat)
    requires 1 <= month <= 12
    ensures 28 <= days <= 31
    ensures days == 29 <==> month == 2 && IsLeapYear(year)
  {
    if month == 2 then (if IsLeapYear(year) then 29 else 28)
    else if month == 4 || month == 6 || month == 9 || month == 11 then 30
    else 31
  }

  // ---------------------------------------------------------------------------
  // Fixed-width decimal fields

  function Pow10(width: nat): (p: nat)
    ensures p >= 1
  {
    if width == 0 then 1 else 10 * Pow10(width - 1)
  }

  predicate IsDigit(c: char) {
    '0' <= c <= '9'
  }

  predicate AllDigits(s: string) {
    forall i :: 0 <= i < |s| ==> IsDigit(s[i])
  }

  function DigitChar(d: nat): (c: char)
    requires d < 10
    ensures IsDigit(c)
  {
    ('0' as int + d) as char
  }

  function DigitValue(c: char): (d: nat)
    requires IsDigit(c)
    ensures d < 10 && DigitChar(d) == c
  {
    c as int - '0' as int
  }

  /** n written in exactly `width` decimal digits with leading zeros, as "%0*d" does. */
  function Padded(n: nat, width: nat): (s: string)
    requires n < Pow10(width)
    ensures |s| == width && AllDigits(s)
  {
    if width == 0 then ""
    else
      assert n / 10 < Pow10(width - 1);
      Padded(n / 10, width - 1) + [DigitChar(n % 10)]
  }

  /** The number a run of decimal digits denotes. */
  function DigitsValue(s: string): (n: nat)
    requires AllDigits(s)
    ensures n < Pow10(|s|)
  {
    if s == [] then 0
    else
      var prefix := s[..|s| - 1];
      assert AllDigits(prefix);
      var high := DigitsValue(prefix);
      var low := DigitValue(s[|s| - 1]);
      assert high + 1 <= Pow10(|s| - 1);
      assert 10 * high + low < 10 * (high + 1);
      10 * high + low
  }

  lemma {:induction false} DigitsValueOfPadded(n: nat, width: nat)
    requires n < Pow10(width)
    ensures DigitsValue(Padded(n, width)) == n
  {
    if width > 0 {
      var s := Padded(n, width);
      assert s[..|s| - 1] == Padded(n / 10, width - 1);
      assert DigitValue(s[|s| - 1]) == n % 10;
      DigitsValueOfPadded(n / 10, width - 1);
    }
  }

  lemma {:induction false} PaddedOfDigitsValue(s: string)
    requires AllDigits(s)
    ensures Padded(DigitsValue(s), |s|) == s
  {
    if s != [] {
      var prefix := s[..|s| - 1];
      var low := DigitValue(s[|s| - 1]);
      var n := DigitsValue(s);
      assert n == 10 * DigitsValue(prefix) + low;
      assert n / 10 == DigitsValue(prefix) && n % 10 == low;
      PaddedOfDigitsValue(prefix);
      assert s == prefix + [s[|s| - 1]];
    }
  }

  // ---------------------------------------------------------------------------
  // Groups of three fields: "YYYY-MM-DD" and "HH:MM:SS"

  /** Three fields of widths `wide`, 2 and 2 joined by `sep`. */
  function Group(a: nat, b: nat, c: nat, wide: nat, sep: char): (s: string)
    requires a < Pow10(wide) && b < 100 && c < 100
    ensures |s| == wide + 6
  {
    assert Pow10(2) == 100;
    Padded(a, wide) + [sep] + Padded(b, 2) + [sep] + Padded(c, 2)
  }

  /** The shape Group produces: separators in place and digits elsewhere. */
  predicate GroupShape(s: string, wide: nat, sep: char) {
    && |s| == wide + 6 && s[wide] == sep && s[wide + 3] == sep
    && AllDigits(s[..wide]) && AllDigits(s[wide + 1..wide + 3]) && AllDigits(s[wide + 4..])
  }

  lemma JoinSlices(x: string, y: string, z: string, sep: char)
    ensures var s := x + [sep] + y + [sep] + z;
            && s[..|x|] == x && s[|x|] == sep
            && s[|x| + 1..|x| + 1 + |y|] == y && s[|x| + 1 + |y|] == sep
            && s[|x| + 2 + |y|..] == z
  {
    var s := x + [sep] + y + [sep] + z;
    assert s == (x + [sep]) + (y + [sep]) + z;
  }

  lemma GroupSlices(a: nat, b: nat, c: nat, wide: nat, sep: char)
    requires a < Pow10(wide) && b < 100 && c < 100
    ensures var s := Group(a, b, c, wide, sep);
            && GroupShape(s, wide, sep)
            && DigitsValue(s[..wide]) == a
            && DigitsValue(s[wide + 1..wide + 3]) == b
            && DigitsValue(s[wide + 4..]) == c
  {
    assert Pow10(2) == 100;
    var x, y, z := Padded(a, wide), Padded(b, 2), Padded(c, 2);
    var s := Group(a, b, c, wide, sep);
    assert s == x + [sep] + y + [sep] + z;
    JoinSlices(x, y, z, sep);
    assert s[..wide] == x;
    assert s[wide + 1..wide + 3] == y;
    assert s[wide + 4..] == z;
    DigitsValueOfPadded(a, wide);
    DigitsValueOfPadded(b, 2);
    DigitsValueOfPadded(c, 2);
  }

  lemma SplitGroup(s: string, wide: nat)
    requires |s| == wide + 6
    ensures s == s[..wide] + [s[wide]] + s[wide + 1..wide + 3] + [s[wide + 3]] + s[wide + 4..]
  {
  }

  lemma GroupOfShape(s: string, wide: nat, sep: char)
    requires GroupShape(s, wide, sep)
    ensures DigitsValue(s[..wide]) < Pow10(wide)
    ensures DigitsValue(s[wide + 1..wide + 3]) < 100 && DigitsValue(s[wide + 4..]) < 100
    ensures s == Group(DigitsValue(s[..wide]), DigitsValue(s[wide + 1..wide + 3]),
                       DigitsValue(s[wide + 4..]), wide, sep)
  {
    assert Pow10(2) == 100;
    var x, y, z := s[..wide], s[wide + 1..wide + 3], s[wide + 4..];
    PaddedOfDigitsValue(x);
    PaddedOfDigitsValue(y);
    PaddedOfDigitsValue(z);
    SplitGroup(s, wide);
    assert s == x + [sep] + y + [sep] + z;
  }

  // ---------------------------------------------------------------------------
  // isoformat() and fromisoformat()

  function DateText(t: Timestamp): (s: string)
    ensures |s| == 10
  {
    Group(t.year, t.month, t.day, 4, '-')
  }

  function ClockText(t: Timestamp): (s: string)
    ensures |s| == 8
  {
    Group(t.hour, t.minute, t.second, 2, ':')
  }

  function FractionText(t: Timestamp): (s: string)
    ensures |s| == if t.microsecond == 0 then 0 else 7
  {
    if t.microsecond == 0 then "" else "." + Padded(t.microsecond, 6)
  }

  /** datetime.isoformat() of a naive datetime; the fraction is omitted when the microsecond is zero. */
  function IsoFormat(t: Timestamp): (s: string)
    ensures |s| == if t.microsecond == 0 then 19 else 26
  {
    DateText(t) + "T" + ClockText(t) + FractionText(t)
  }

  /** The shape of an ISO text isoformat() can emit, before range checks. */
  predicate IsoShape(s: string) {
    && (|s| == 19 || |s| == 26)
    && GroupShape(s[..10], 4, '-') && s[10] == 'T' && GroupShape(s[11..19], 2, ':')
    && (|s| == 26 ==> s[19] == '.' && AllDigits(s[20..]))
  }

  /** The datetime the fields of a well-shaped ISO text denote, before range checks. */
  function IsoFields(s: string): DateTime
    requires IsoShape(s)
  {
    var date, clock := s[..10], s[11..19];
    DateTime(DigitsValue(date[..4]), DigitsValue(date[5..7]), DigitsValue(date[8..]),
             DigitsValue(clock[..2]), DigitsValue(clock[3..5]), DigitsValue(clock[6..]),
             if |s| == 26 then DigitsValue(s[20..]) else 0)
  }

  /**
    datetime.fromisoformat() restricted to the two shapes isoformat() emits:
    None stands for the ValueError it raises on any other text or on a field
    out of range (month 13, 30 February, hour 24, year 0).
   */
  function ParseIso(s: string): (r: Option<Timestamp>)
    ensures r.Some? <==> IsoShape(s) && IsoFields(s).Valid()
    ensures r.Some? ==> r.value == IsoFields(s)
  {
    if !IsoShape(s) then None
    else
      var t := IsoFields(s);
      if t.Valid() then Some(t) else None
  }

  lemma IsoSlices(date: string, clock: string, fraction: string)
    requires |date| == 10 && |clock| == 8
    ensures var s := date + "T" + clock + fraction;
            s[..10] == date && s[10] == 'T' && s[11..19] == clock && s[19..] == fraction
  {
    var s := date + "T" + clock + fraction;
    assert s == (date + "T") + (clock + fraction);
  }

  lemma SplitIso(s: string)
    requires |s| >= 19
    ensures s == s[..10] + [s[10]] + s[11..19] + s[19..]
  {
  }

  lemma IsoFormatFields(t: Timestamp)
    ensures IsoShape(IsoFormat(t)) && IsoFields(IsoFormat(t)) == t
  {
    var s := IsoFormat(t);
    var date, clock, fraction := DateText(t), ClockText(t), FractionText(t);
    IsoSlices(date, clock, fraction);
    assert s[..10] == date && s[11..19] == clock && s[19..] == fraction;
    GroupSlices(t.year, t.month, t.day, 4, '-');
    GroupSlices(t.hour, t.minute, t.second, 2, ':');
    if t.microsecond != 0 {
      assert s[20..] == fraction[1..] == Padded(t.microsecond, 6);
      DigitsValueOfPadded(t.microsecond, 6);
    }
  }

  /** fromisoformat(t.isoformat()) == t. */
  lemma ParseIsoFormat(t: Timestamp)
    ensures ParseIso(IsoFormat(t)) == Some(t)
  {
    IsoFormatFields(t);
  }

  /**
    Every text ParseIso accepts is the isoformat() of what it parses to, except
    a text with an all-zero fraction, which isoformat() omits.
   */
  lemma IsoFormatParse(s: string, t: Timestamp)
    requires ParseIso(s) == Some(t)
    ensures IsoFormat(t) == s || (|s| == 26 && t.microsecond == 0 && IsoFormat(t) == s[..19])
  {
    var date, clock := s[..10], s[11..19];
    GroupOfShape(date, 4, '-');
    GroupOfShape(clock, 2, ':');
    assert date == DateText(t);
    assert clock == ClockText(t);
    SplitIso(s);
    assert s[..19] == date + "T" + clock;
    if |s| == 26 {
      PaddedOfDigitsValue(s[20..]);
      assert s[19..] == "." + s[20..];
      assert t.microsecond != 0 ==> FractionText(t) == s[19..];
    } else {
      assert s[19..] == [] && t.microsecond == 0;
    }
  }
}
