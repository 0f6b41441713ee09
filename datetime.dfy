// The dateTime item: the lexical form a string must have to become a
// dateTime (the dateTime representation of section 3.3.7 of W3C XML Schema
// Definition Language 1.1 Part 2, as the item's regular expression writes
// it), the guard of the conversion from a string, and the type checks of
// equality and comparison.
//
// The regular expression is stated declaratively, fragment by fragment,
// with the split points existentially chosen; a left-to-right recognizer
// decides it and is proved equivalent.

module DateTimeItems {
  import opened Base
  import opened Names
  import opened Items

  // ---------------------------------------------------------------------
  // Fragments

  predicate IsNonZeroDigit(c: char) { '1' <= c <= '9' }

  /** The digits of a year: exactly four starting with 0, or four or more starting with 1-9. */
  predicate YearDigits(d: string)
  {
    AllDigits(d) && |d| >= 4 && (d[0] == '0' ==> |d| == 4)
  }

  /** yearFrag: an optional minus sign, then the year digits. */
  predicate IsYear(y: string)
  {
    if |y| > 0 && y[0] == '-' then YearDigits(y[1..]) else YearDigits(y)
  }

  /** monthFrag: 01 to 12. */
  predicate IsMonth(m: string)
  {
    |m| == 2 && ((m[0] == '0' && IsNonZeroDigit(m[1])) || (m[0] == '1' && '0' <= m[1] <= '2'))
  }

  /** dayFrag: 01 to 31, whatever the month. */
  predicate IsDay(d: string)
  {
    |d| == 2 && ((d[0] == '0' && IsNonZeroDigit(d[1])) || ('1' <= d[0] <= '2' && IsDigit(d[1]))
                 || (d[0] == '3' && '0' <= d[1] <= '1'))
  }

  /** hourFrag: 00 to 23. */
  predicate IsHour(h: string)
  {
    |h| == 2 && (('0' <= h[0] <= '1' && IsDigit(h[1])) || (h[0] == '2' && '0' <= h[1] <= '3'))
  }

  /** minuteFrag (also the whole seconds): 00 to 59. */
  predicate IsMinute(m: string)
  {
    |m| == 2 && '0' <= m[0] <= '5' && IsDigit(m[1])
  }

  /** The optional fraction of the seconds: nothing, or a dot and one or more digits. */
  predicate IsFraction(f: string)
  {
    f == "" || (|f| >= 2 && f[0] == '.' && AllDigits(f[1..]))
  }

  /** The optional fraction of the end of day: nothing, or a dot and one or more zeros. */
  predicate IsZeroFraction(f: string)
  {
    f == "" || (|f| >= 2 && f[0] == '.' && forall i :: 1 <= i < |f| ==> f[i] == '0')
  }

  /** hourFrag ":" minuteFrag ":" secondFrag. */
  predicate IsPlainTime(t: string)
  {
    |t| >= 8 && IsHour(t[..2]) && t[2] == ':' && IsMinute(t[3..5]) && t[5] == ':'
    && IsMinute(t[6..8]) && IsFraction(t[8..])
  }

  /** endOfDayFrag: 24:00:00 with an optional all-zero fraction. */
  predicate IsEndOfDay(t: string)
  {
    |t| >= 8 && t[..8] == "24:00:00" && IsZeroFraction(t[8..])
  }

  predicate IsTime(t: string)
  {
    IsPlainTime(t) || IsEndOfDay(t)
  }

  /** The hours of a zone offset other than 14: 00 to 13. */
  predicate IsOffsetHour(h: string)
  {
    |h| == 2 && ((h[0] == '0' && IsDigit(h[1])) || (h[0] == '1' && '0' <= h[1] <= '3'))
  }

  /** The optional timezoneFrag: nothing, Z, or a sign and hh:mm up to 14:00. */
  predicate IsTimezone(z: string)
  {
    z == "" || z == "Z"
    || (|z| == 6 && (z[0] == '+' || z[0] == '-')
        && ((IsOffsetHour(z[1..3]) && z[3] == ':' && IsMinute(z[4..6])) || z[1..] == "14:00"))
  }

  /** The time and the zone, split at some point. */
  predicate TimeAndZone(t: string)
  {
    exists k :: 0 <= k <= |t| && IsTime(t[..k]) && IsTimezone(t[k..])
  }

  /** What follows the year: "-" month "-" day "T", then the time and zone. */
  predicate AfterYear(r: string)
  {
    |r| >= 7 && r[0] == '-' && IsMonth(r[1..3]) && r[3] == '-' && IsDay(r[4..6]) && r[6] == 'T'
    && TimeAndZone(r[7..])
  }

  /** The whole string matches the dateTime lexical representation. */
  predicate IsDateTimeLexical(s: string)
  {
    exists i :: 0 <= i <= |s| && IsYear(s[..i]) && AfterYear(s[i..])
  }

  // ---------------------------------------------------------------------
  // The recognizer

  /** The number of digits the string starts with. */
  function LeadingDigits(s: string): (n: nat)
    ensures n <= |s|
    ensures AllDigits(s[..n])
    ensures n < |s| ==> !IsDigit(s[n])
  {
    if |s| > 0 && IsDigit(s[0]) then
      var n := 1 + LeadingDigits(s[1..]);
      assert s[..n] == [s[0]] + s[1..][..n - 1];
      n
    else 0
  }

  /** Digits followed by a non-digit: the digits are exactly the leading ones. */
  lemma LeadingDigitsUnique(s: string, n: nat)
    requires n <= |s| && AllDigits(s[..n]) && (n < |s| ==> !IsDigit(s[n]))
    ensures n == LeadingDigits(s)
  {
    var m := LeadingDigits(s);
    forall k | 0 <= k < n
      ensures IsDigit(s[k])
    {
      assert s[..n][k] == s[k];
    }
    forall k | 0 <= k < m
      ensures IsDigit(s[k])
    {
      assert s[..m][k] == s[k];
    }
  }

  /** The end of the year: an optional minus sign and the leading digits after it. */
  function YearEnd(s: string): (i: nat)
    ensures i <= |s|
  {
    var sign := if |s| > 0 && s[0] == '-' then 1 else 0;
    sign + LeadingDigits(s[sign..])
  }

  /** The number of characters a seconds fraction takes at the start of f. */
  function FractionLength(f: string): (n: nat)
    ensures n <= |f| && IsFraction(f[..n])
  {
    if |f| >= 2 && f[0] == '.' && IsDigit(f[1]) then
      var n := 1 + LeadingDigits(f[1..]);
      assert f[..n][1..] == f[1..][..n - 1];
      n
    else 0
  }

  /** The number of leading zeros. */
  function LeadingZeros(s: string): (n: nat)
    ensures n <= |s|
    ensures forall i :: 0 <= i < n ==> s[i] == '0'
    ensures n < |s| ==> s[n] != '0'
  {
    if |s| > 0 && s[0] == '0' then 1 + LeadingZeros(s[1..]) else 0
  }

  /** The number of characters an end-of-day fraction takes at the start of f. */
  function ZeroFractionLength(f: string): (n: nat)
    ensures n <= |f| && IsZeroFraction(f[..n])
  {
    if |f| >= 2 && f[0] == '.' && f[1] == '0' then 1 + LeadingZeros(f[1..]) else 0
  }

  /** The time and zone, read left to right: the fraction takes every digit it can. */
  predicate RecognizeTimeAndZone(t: string)
  {
    |t| >= 8 &&
    if IsHour(t[..2]) && t[2] == ':' && IsMinute(t[3..5]) && t[5] == ':' && IsMinute(t[6..8]) then
      IsTimezone(t[8 + FractionLength(t[8..])..])
    else
      t[..8] == "24:00:00" && IsTimezone(t[8 + ZeroFractionLength(t[8..])..])
  }

  /** What follows the year, read left to right. */
  predicate RecognizeAfterYear(r: string)
  {
    |r| >= 7 && r[0] == '-' && IsMonth(r[1..3]) && r[3] == '-' && IsDay(r[4..6]) && r[6] == 'T'
    && RecognizeTimeAndZone(r[7..])
  }

  /** The whole string, read left to right: the year takes every digit it can. */
  predicate RecognizeDateTime(s: string): (b: bool)
    ensures b ==> |s| >= 19 && YearEnd(s) + 6 < |s| && s[YearEnd(s) + 6] == 'T'
  {
    var i := YearEnd(s);
    IsYear(s[..i]) && RecognizeAfterYear(s[i..])
  }

  // ---------------------------------------------------------------------
  // The recognizer decides the lexical representation

  /** A zone never starts with a digit or a dot. */
  lemma TimezoneStart(z: string)
    requires IsTimezone(z) && |z| > 0
    ensures !IsDigit(z[0]) && z[0] != '.'
  {
  }

  /** A plain time's fraction ends where the recognizer says, once a zone follows. */
  lemma PlainTimeSplit(t: string, k: nat)
    requires 8 <= k <= |t| && IsFraction(t[8..k]) && IsTimezone(t[k..])
    ensures k == 8 + FractionLength(t[8..])
  {
    var f := t[8..];
    var n := k - 8;
    assert f[..n] == t[8..k] && f[n..] == t[k..];
    if n < |f| {
      TimezoneStart(t[k..]);
    }
    if n > 0 {
      assert f[..n][1..] == f[1..][..n - 1];
      LeadingDigitsUnique(f[1..], n - 1);
    }
  }

  /** An end-of-day fraction ends where the recognizer says, once a zone follows. */
  lemma EndOfDaySplit(t: string, k: nat)
    requires 8 <= k <= |t| && IsZeroFraction(t[8..k]) && IsTimezone(t[k..])
    ensures k == 8 + ZeroFractionLength(t[8..])
  {
    var f := t[8..];
    var n := k - 8;
    assert f[..n] == t[8..k] && f[n..] == t[k..];
    if n < |f| {
      TimezoneStart(t[k..]);
    }
  }

  /** The time fragments of a prefix are those of the whole string. */
  lemma TimePrefix(t: string, k: nat)
    requires 8 <= k <= |t|
    ensures IsPlainTime(t[..k]) <==>
      IsHour(t[..2]) && t[2] == ':' && IsMinute(t[3..5]) && t[5] == ':' && IsMinute(t[6..8])
      && IsFraction(t[8..k])
    ensures IsEndOfDay(t[..k]) <==> t[..8] == "24:00:00" && IsZeroFraction(t[8..k])
  {
    var time := t[..k];
    assert time[..8] == t[..8] && time[8..] == t[8..k];
    assert time[..2] == t[..2] && time[3..5] == t[3..5] && time[6..8] == t[6..8];
  }

  /** The end of day does not start with an hour of a plain time. */
  lemma EndOfDayIsNotPlain(t: string)
    requires |t| >= 8 && t[..8] == "24:00:00"
    ensures !IsHour(t[..2])
  {
    assert t[1] == t[..8][1];
  }

  /** The recognizer of the time and zone accepts exactly the strings with a valid split. */
  lemma RecognizeTimeAndZoneCorrect(t: string)
    ensures RecognizeTimeAndZone(t) <==> TimeAndZone(t)
  {
    if |t| < 8 {
      return;
    }
    var plain := IsHour(t[..2]) && t[2] == ':' && IsMinute(t[3..5]) && t[5] == ':' && IsMinute(t[6..8]);
    if RecognizeTimeAndZone(t) {
      var n := if plain then FractionLength(t[8..]) else ZeroFractionLength(t[8..]);
      var k := 8 + n;
      assert t[8..][..n] == t[8..k];
      TimePrefix(t, k);
      assert IsTime(t[..k]) && IsTimezone(t[k..]);
    }
    if TimeAndZone(t) {
      var k :| 0 <= k <= |t| && IsTime(t[..k]) && IsTimezone(t[k..]);
      TimePrefix(t, k);
      if plain {
        if t[..8] == "24:00:00" {
          EndOfDayIsNotPlain(t);
        }
        PlainTimeSplit(t, k);
      } else {
        EndOfDaySplit(t, k);
      }
    }
  }

  /** The recognizer of what follows the year accepts exactly what the expression does. */
  lemma RecognizeAfterYearCorrect(r: string)
    ensures RecognizeAfterYear(r) <==> AfterYear(r)
  {
    if |r| >= 7 {
      RecognizeTimeAndZoneCorrect(r[7..]);
    }
  }

  /** A year followed by a minus sign ends where the recognizer says. */
  lemma YearSplit(s: string, i: nat)
    requires i < |s| && IsYear(s[..i]) && s[i] == '-'
    ensures i == YearEnd(s)
  {
    var y := s[..i];
    var sign := if |s| > 0 && s[0] == '-' then 1 else 0;
    assert |y| > 0;
    assert y[0] == s[0];
    assert y[sign..] == s[sign..][..i - sign];
    assert s[sign..][i - sign] == s[i];
    LeadingDigitsUnique(s[sign..], i - sign);
  }

  /** The recognizer accepts exactly the strings the regular expression matches as a whole. */
  lemma RecognizeDateTimeCorrect(s: string)
    ensures RecognizeDateTime(s) <==> IsDateTimeLexical(s)
  {
    var i := YearEnd(s);
    RecognizeAfterYearCorrect(s[i..]);
    if IsDateTimeLexical(s) {
      var j :| 0 <= j <= |s| && IsYear(s[..j]) && AfterYear(s[j..]);
      assert s[j..][0] == s[j];
      YearSplit(s, j);
    }
  }

  /** A time followed by a zone is a valid time-and-zone part. */
  lemma TimeAndZoneOfParts(t: string, z: string)
    requires IsTime(t) && IsTimezone(z)
    ensures TimeAndZone(t + z)
  {
    assert (t + z)[..|t|] == t && (t + z)[|t|..] == z;
  }

  /**
   * A string cut after its year-shaped start (a minus sign or a digit, then
   * digits) at a minus sign matches exactly when the start is a year and
   * the rest is what follows a year.
   */
  lemma {:induction false} DateTimeOfParts(y: string, r: string)
    requires |y| > 0 && (if y[0] == '-' then AllDigits(y[1..]) else AllDigits(y))
    requires |r| > 0 && r[0] == '-'
    ensures IsDateTimeLexical(y + r) <==> IsYear(y) && AfterYear(r)
  {
    var s := y + r;
    assert s[..|y|] == y && s[|y|..] == r;
    var sign := if y[0] == '-' then 1 else 0;
    assert s[0] == y[0];
    assert s[sign..][..|y| - sign] == y[sign..];
    assert s[sign..][|y| - sign] == r[0];
    LeadingDigitsUnique(s[sign..], |y| - sign);
    if IsDateTimeLexical(s) {
      var j :| 0 <= j <= |s| && IsYear(s[..j]) && AfterYear(s[j..]);
      assert s[j..][0] == s[j];
      YearSplit(s, j);
    }
  }

  /** A year, a date, a time and a zone, each valid, make a valid date-time. */
  lemma DateTimeOfValidParts(y: string, date: string, t: string, z: string)
    requires IsYear(y) && IsTime(t) && IsTimezone(z)
    requires |date| == 7 && date[0] == '-' && IsMonth(date[1..3]) && date[3] == '-' && IsDay(date[4..6]) && date[6] == 'T'
    ensures IsDateTimeLexical(y + date + t + z)
  {
    AfterYearOfParts(date, t, z);
    var r := date + t + z;
    var s := y + date + t + z;
    assert s == y + r;
    assert s[..|y|] == y && s[|y|..] == r;
  }

  lemma AfterYearOfParts(date: string, t: string, z: string)
    requires IsTime(t) && IsTimezone(z)
    requires |date| == 7 && date[0] == '-' && IsMonth(date[1..3]) && date[3] == '-' && IsDay(date[4..6]) && date[6] == 'T'
    ensures AfterYear(date + t + z)
  {
    var r := date + t + z;
    TimeAndZoneOfParts(t, z);
    assert r[7..] == t + z;
    assert r[1..3] == date[1..3] && r[4..6] == date[4..6];
  }

  /** A date-time with a fraction of a second and a UTC zone. */
  lemma AcceptsFractionAndUtc()
    ensures IsDateTimeLexical("2019" + "-03-01T" + "10:20:30.5" + "Z")
  {
    var t := "10:20:30.5";
    assert t[..2] == "10" && t[3..5] == "20" && t[6..8] == "30" && t[8..] == ".5" && ".5"[1..] == "5";
    assert IsPlainTime(t);
    var date := "-03-01T";
    assert date[1..3] == "03" && date[4..6] == "01";
    DateTimeOfValidParts("2019", date, t, "Z");
  }

  /** A negative year, the end of the day with a zero fraction, and the largest offset. */
  lemma AcceptsEndOfDay()
    ensures IsDateTimeLexical("-0001" + "-12-31T" + "24:00:00.000" + "+14:00")
  {
    var t := "24:00:00.000";
    assert t[..8] == "24:00:00" && t[8..] == ".000";
    assert IsEndOfDay(t);
    assert "+14:00"[1..] == "14:00";
    var date := "-12-31T";
    assert date[1..3] == "12" && date[4..6] == "31";
    assert "-0001"[1..] == "0001";
    DateTimeOfValidParts("-0001", date, t, "+14:00");
  }

  /** Month 13 is refused. */
  lemma RefusesMonth13()
    ensures !IsDateTimeLexical("2019" + "-13-01T10:20:30")
  {
    assert "-13-01T10:20:30"[1..3] == "13";
    DateTimeOfParts("2019", "-13-01T10:20:30");
  }

  /** The end of the day with a non-zero fraction is refused. */
  lemma RefusesLateEndOfDay()
    ensures !TimeAndZone("24:00:00.5")
  {
    var t := "24:00:00.5";
    RecognizeTimeAndZoneCorrect(t);
    assert t[..2] == "24" && t[8..] == ".5";
  }

  /** A three-digit year is refused. */
  lemma RefusesShortYear()
    ensures !IsDateTimeLexical("019" + "-03-01T10:20:30")
  {
    DateTimeOfParts("019", "-03-01T10:20:30");
  }

  // ---------------------------------------------------------------------
  // The item

  /**
   * getDateTimeFromString: a string that does not match the lexical
   * representation as a whole is an IllegalArgumentException. Otherwise the
   * library parses it, which can still fail on a string the pattern accepts
   * (a day the month does not have, such as February 30), and a value in the
   * JVM's default zone keeps its fields but moves to UTC. The parser and that
   * conversion are library calls, passed in.
   */
  function GetDateTimeFromString(s: string, parse: string -> Result<DateTime>,
                                 retainFieldsInUtc: DateTime -> DateTime): (r: Result<DateTime>)
    ensures r.Err? <==> !IsDateTimeLexical(s) || parse(s).Err?
    ensures !IsDateTimeLexical(s) ==> r == Err(IllegalArgumentException)
    ensures IsDateTimeLexical(s) && parse(s).Err? ==> r == parse(s)
    ensures r.Ok? && parse(s).value.zone != DefaultZone ==> r.value == parse(s).value
    ensures r.Ok? && parse(s).value.zone == DefaultZone ==> r.value == retainFieldsInUtc(parse(s).value)
  {
    RecognizeDateTimeCorrect(s);
    if !RecognizeDateTime(s) then Err(IllegalArgumentException)
    else
      var dt :- parse(s);
      if dt.zone == DefaultZone then Ok(retainFieldsInUtc(dt)) else Ok(dt)
  }

  /** isCastableAs: only to dateTime and to string. */
  function IsCastableAs(t: ItemType): (b: bool)
    ensures t == ItemType.DateTimeItem ==> b
    ensures t == ItemType.StringItem ==> b
    ensures b ==> t in {ItemType.DateTimeItem, ItemType.StringItem}
  {
    t == ItemType.DateTimeItem || t == ItemType.StringItem
  }

  /** equals: only a dateTime at the same instant is equal to a dateTime. */
  lemma DateTimeEqualsOnlyDateTimes(d: DateTime, other: Item)
    ensures ItemEquals(DateTimeValue(d), other) <==> other.DateTimeValue? && other.dateTime.instant == d.instant
  {
  }

  /**
   * compareTo: against another dateTime, the order of the instants (-1, 0
   * or 1); against anything else, an IteratorFlowException.
   */
  function CompareTo(d: DateTime, other: Item): (r: Result<int>)
    ensures r.Err? <==> !other.DateTimeValue?
    ensures r.Err? ==> r.error.IteratorFlowException?
    ensures r.Ok? ==> -1 <= r.value <= 1
    ensures r.Ok? ==> (r.value == 0 <==> ItemEquals(DateTimeValue(d), other))
    ensures r.Ok? ==> (r.value < 0 <==> d.instant < other.dateTime.instant)
  {
    if !other.DateTimeValue? then Err(IteratorFlowException)
    else if d.instant < other.dateTime.instant then Ok(-1)
    else if d.instant == other.dateTime.instant then Ok(0)
    else Ok(1)
  }

  /** compareTo is antisymmetric on dateTimes. */
  lemma CompareToAntisymmetric(d: DateTime, e: DateTime)
    ensures CompareTo(d, DateTimeValue(e)).value == -CompareTo(e, DateTimeValue(d)).value
  {
  }

  /**
   * compareItem: against a non-dateTime, an UnexpectedTypeException;
   * otherwise the operator applied to both items.
   */
  function CompareItem(d: DateTime, other: Item, apply: (Item, Item) -> Item): (r: Result<Item>)
    ensures r.Err? <==> !other.DateTimeValue?
    ensures r.Err? ==> r.error.UnexpectedTypeException?
    ensures r.Ok? ==> r.value == apply(DateTimeValue(d), other)
  {
    if !other.DateTimeValue? then
      Err(UnexpectedTypeException("\"dateTime\": invalid type: can not compare for equality to type \""
                                  + TypeName(DynamicType(other)) + "\""))
    else Ok(apply(DateTimeValue(d), other))
  }
}
