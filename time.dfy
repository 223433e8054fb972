/** Python `datetime` values as the session snapshots and the pruning stamp use them. */
module Time {
  import opened Common

  /** A naive `datetime`; the clock is never read, times are always inputs. */
  datatype DateTime = DateTime(year: nat, month: nat, day: nat, hour: nat, minute: nat, second: nat, microsecond: nat)

  /** The Gregorian leap years. */
  predicate Leap(year: nat) {
    year % 4 == 0 && (year % 100 != 0 || year % 400 == 0)
  }

  /** The number of days in a month of a year. */
  function DaysIn(year: nat, month: nat): (r: nat)
    ensures 28 <= r <= 31
  {
    if month == 2 then (if Leap(year) then 29 else 28)
    else if month == 4 || month == 6 || month == 9 || month == 11 then 30
    else 31
  }

  /** The ranges `datetime` enforces on its fields. */
  predicate Valid(d: DateTime) {
    1 <= d.year <= 9999 && 1 <= d.month <= 12 && 1 <= d.day <= DaysIn(d.year, d.month)
    && d.hour < 24 && d.minute < 60 && d.second < 60 && d.microsecond < 1000000
  }

  function Pow10(w: nat): (r: nat)
    ensures r >= 1
  {
    if w == 0 then 1 else 10 * Pow10(w - 1)
  }

  /** `f"{n:0{w}d}"` for `n < 10**w`: exactly `w` digits. */
  function Pad(n: nat, w: nat): (r: string)
    requires n < Pow10(w)
    ensures |r| == w && forall i :: 0 <= i < w ==> IsDigit(r[i])
  {
    if w == 0 then [] else Pad(n / 10, w - 1) + [DigitChar(n % 10)]
  }

  lemma {:induction false} ParsePad(n: nat, w: nat)
    requires n < Pow10(w)
    ensures ParseNat(Pad(n, w)) == n
  {
    if w > 0 {
      var r := Pad(n, w);
      assert r[..|r| - 1] == Pad(n / 10, w - 1);
      ParsePad(n / 10, w - 1);
    }
  }

  /** `datetime.isoformat()`: the microseconds appear only when they are not zero. */
  function IsoFormat(d: DateTime): (r: string)
    requires Valid(d)
    ensures |r| == (if d.microsecond == 0 then 19 else 26)
  {
    Pad(d.year, 4) + "-" + Pad(d.month, 2) + "-" + Pad(d.day, 2) + "T"
    + Pad(d.hour, 2) + ":" + Pad(d.minute, 2) + ":" + Pad(d.second, 2)
    + (if d.microsecond == 0 then "" else "." + Pad(d.microsecond, 6))
  }

  predicate AllDigits(s: string) {
    forall i :: 0 <= i < |s| ==> IsDigit(s[i])
  }

  function Field(s: string, i: nat, j: nat): Option<nat>
    requires i <= j <= |s|
  {
    if AllDigits(s[i..j]) then Some(ParseNat(s[i..j])) else None
  }

  /** The lengths of `YYYY-MM-DD[*HH[:MM[:SS[.fff[fff]]]]]`, the naive shapes `fromisoformat` reads. */
  predicate IsoLength(n: nat) {
    n == 10 || n == 13 || n == 16 || n == 19 || n == 23 || n == 26
  }

  /** A field that a shorter shape leaves out reads as 0. */
  function FieldOr(s: string, i: nat, j: nat): Option<nat>
    requires i <= j
  {
    if j <= |s| then Field(s, i, j) else Some(0)
  }

  /**
   * `datetime.fromisoformat` on `YYYY-MM-DD[*HH[:MM[:SS[.fff[fff]]]]]`, where `*` is any one
   * character: the missing parts are zero, three fraction digits are milliseconds, and the
   * fields must name a real moment.
   */
  function FromIsoFormat(s: string): (r: Option<DateTime>)
    ensures r.Some? ==> Valid(r.value) && IsoLength(|s|)
  {
    if !IsoLength(|s|) then None
    else if s[4] != '-' || s[7] != '-' then None
    else if |s| >= 16 && s[13] != ':' then None
    else if |s| >= 19 && s[16] != ':' then None
    else if |s| >= 23 && s[19] != '.' then None
    else
      var y, mo, d := Field(s, 0, 4), Field(s, 5, 7), Field(s, 8, 10);
      var h, mi, se := FieldOr(s, 11, 13), FieldOr(s, 14, 16), FieldOr(s, 17, 19);
      var us := if |s| == 26 then Field(s, 20, 26)
        else if |s| == 23 then (var ms := Field(s, 20, 23); if ms.Some? then Some(ms.value * 1000) else None)
        else Some(0);
      if y.None? || mo.None? || d.None? || h.None? || mi.None? || se.None? || us.None? then None
      else
        var r := DateTime(y.value, mo.value, d.value, h.value, mi.value, se.value, us.value);
        if Valid(r) then Some(r) else None
  }

  lemma FieldOfPad(s: string, i: nat, n: nat, w: nat)
    requires n < Pow10(w) && i + w <= |s| && s[i..i + w] == Pad(n, w)
    ensures Field(s, i, i + w) == Some(n)
  {
    ParsePad(n, w);
  }

  lemma Pow10Values()
    ensures Pow10(2) == 100 && Pow10(4) == 10000 && Pow10(6) == 1000000
  {
    assert Pow10(1) == 10;
    assert Pow10(3) == 1000;
    assert Pow10(5) == 100000;
  }

  /** The text `isoformat` writes, as its date part, its time part and its fraction. */
  lemma IsoParts(d: DateTime) returns (date: string, time: string, frac: string)
    requires Valid(d)
    ensures IsoFormat(d) == date + time + frac && |date| == 11 && |time| == 8
    ensures date == Pad(d.year, 4) + "-" + Pad(d.month, 2) + "-" + Pad(d.day, 2) + "T"
    ensures time == Pad(d.hour, 2) + ":" + Pad(d.minute, 2) + ":" + Pad(d.second, 2)
    ensures frac == if d.microsecond == 0 then "" else "." + Pad(d.microsecond, 6)
  {
    Pow10Values();
    date := Pad(d.year, 4) + "-" + Pad(d.month, 2) + "-" + Pad(d.day, 2) + "T";
    time := Pad(d.hour, 2) + ":" + Pad(d.minute, 2) + ":" + Pad(d.second, 2);
    frac := if d.microsecond == 0 then "" else "." + Pad(d.microsecond, 6);
  }

  lemma DateFields(d: DateTime, s: string, date: string)
    requires Valid(d) && |s| >= 11 && s[..11] == date
    requires date == Pad(d.year, 4) + "-" + Pad(d.month, 2) + "-" + Pad(d.day, 2) + "T"
    ensures Field(s, 0, 4) == Some(d.year) && Field(s, 5, 7) == Some(d.month) && Field(s, 8, 10) == Some(d.day)
    ensures s[4] == '-' && s[7] == '-' && s[10] == 'T'
  {
    Pow10Values();
    assert s[0..4] == date[0..4] == Pad(d.year, 4);
    assert s[5..7] == date[5..7] == Pad(d.month, 2);
    assert s[8..10] == date[8..10] == Pad(d.day, 2);
    assert s[4] == date[4] && s[7] == date[7] && s[10] == date[10];
    FieldOfPad(s, 0, d.year, 4);
    FieldOfPad(s, 5, d.month, 2);
    FieldOfPad(s, 8, d.day, 2);
  }

  lemma SubSlice(s: string, i: nat, j: nat, a: nat, b: nat)
    requires i <= j <= |s| && a <= b <= j - i
    ensures s[i..j][a..b] == s[i + a..i + b]
  {
    assert forall k :: 0 <= k < b - a ==> s[i..j][a..b][k] == s[i + a + k];
  }

  lemma TimeFields(d: DateTime, s: string, time: string)
    requires Valid(d) && |s| >= 19 && s[11..19] == time
    requires time == Pad(d.hour, 2) + ":" + Pad(d.minute, 2) + ":" + Pad(d.second, 2)
    ensures Field(s, 11, 13) == Some(d.hour) && Field(s, 14, 16) == Some(d.minute) && Field(s, 17, 19) == Some(d.second)
    ensures s[13] == ':' && s[16] == ':'
  {
    Pow10Values();
    assert s[11..13] == time[0..2] == Pad(d.hour, 2);
    var hm := Pad(d.hour, 2) + ":" + Pad(d.minute, 2);
    assert time == hm + ":" + Pad(d.second, 2);
    assert hm[3..5] == Pad(d.minute, 2);
    assert time[..5] == hm;
    assert time[3..5] == time[..5][3..5];
    SubSlice(s, 11, 19, 3, 5);
    assert s[14..16] == time[3..5] == hm[3..5];
    assert s[17..19] == time[6..8] == Pad(d.second, 2);
    assert s[13] == time[2] && s[16] == time[5];
    FieldOfPad(s, 11, d.hour, 2);
    FieldOfPad(s, 14, d.minute, 2);
    FieldOfPad(s, 17, d.second, 2);
  }

  /** A digit field read one more character to the right. */
  lemma FieldSnoc(s: string, i: nat, j: nat)
    requires i < j <= |s| && AllDigits(s[i..j])
    ensures Field(s, i, j - 1).Some? && Field(s, i, j) == Some(10 * Field(s, i, j - 1).value + DigitValue(s[j - 1]))
  {
    assert s[i..j][..j - 1 - i] == s[i..j - 1];
  }

  /** The concrete fields of an example: two digits from `i`. */
  lemma Digits2(s: string, i: nat)
    requires i + 2 <= |s| && IsDigit(s[i]) && IsDigit(s[i + 1])
    ensures Field(s, i, i + 2) == Some(10 * DigitValue(s[i]) + DigitValue(s[i + 1]))
  {
    FieldSnoc(s, i, i + 1);
    FieldSnoc(s, i, i + 2);
  }

  lemma Digits4(s: string, i: nat)
    requires i + 4 <= |s| && IsDigit(s[i]) && IsDigit(s[i + 1]) && IsDigit(s[i + 2]) && IsDigit(s[i + 3])
    ensures Field(s, i, i + 4) == Some(1000 * DigitValue(s[i]) + 100 * DigitValue(s[i + 1]) + 10 * DigitValue(s[i + 2]) + DigitValue(s[i + 3]))
  {
    FieldSnoc(s, i, i + 1);
    FieldSnoc(s, i, i + 2);
    FieldSnoc(s, i, i + 3);
    FieldSnoc(s, i, i + 4);
  }

  /** The 31st of February is not a date. */
  lemma FebruaryThirtyFirst()
    ensures FromIsoFormat("2024-02-31T00:00:00").None?
  {
    var s := "2024-02-31T00:00:00";
    FebruaryThirtyFirstFields(s);
    RejectsDay(s, 2024, 2, 31);
  }

  lemma FebruaryThirtyFirstFields(s: string)
    requires s == "2024-02-31T00:00:00"
    ensures Field(s, 0, 4) == Some(2024) && Field(s, 5, 7) == Some(2) && Field(s, 8, 10) == Some(31)
  {
    Digits4(s, 0); Digits2(s, 5); Digits2(s, 8);
  }

  /** The 29th of February is a date in a leap year; a date alone is midnight. */
  lemma LeapDay()
    ensures FromIsoFormat("2024-02-29") == Some(DateTime(2024, 2, 29, 0, 0, 0, 0))
  {
    var s := "2024-02-29";
    Digits4(s, 0); Digits2(s, 5); Digits2(s, 8);
    Reads(s, DateTime(2024, 2, 29, 0, 0, 0, 0));
  }

  /** The 29th of February is not a date in a common year. */
  lemma CommonYearFebruary()
    ensures FromIsoFormat("2023-02-29").None?
  {
    var s := "2023-02-29";
    Digits4(s, 0); Digits2(s, 5); Digits2(s, 8);
    RejectsDay(s, 2023, 2, 29);
  }

  /** Any character may separate date and time, and missing seconds are zero. */
  lemma SpaceSeparated()
    ensures FromIsoFormat("2024-01-01 12:30") == Some(DateTime(2024, 1, 1, 12, 30, 0, 0))
  {
    var s := "2024-01-01 12:30";
    SpaceSeparatedFields(s);
    Reads(s, DateTime(2024, 1, 1, 12, 30, 0, 0));
  }

  lemma SpaceSeparatedFields(s: string)
    requires s == "2024-01-01 12:30"
    ensures Field(s, 0, 4) == Some(2024) && Field(s, 5, 7) == Some(1) && Field(s, 8, 10) == Some(1)
    ensures Field(s, 11, 13) == Some(12) && Field(s, 14, 16) == Some(30)
  {
    Digits4(s, 0); Digits2(s, 5); Digits2(s, 8); Digits2(s, 11); Digits2(s, 14);
  }

  /** Reading back what `isoformat` wrote gives the same moment. */
  lemma IsoRoundTrip(d: DateTime)
    requires Valid(d)
    ensures FromIsoFormat(IsoFormat(d)) == Some(d)
  {
    var s := IsoFormat(d);
    var date, time, frac := IsoParts(d);
    IsoFields(d, s, date, time, frac);
    Reads(s, d);
  }

  /** Where `isoformat` puts the separators and the fields. */
  lemma IsoFields(d: DateTime, s: string, date: string, time: string, frac: string)
    requires Valid(d) && s == date + time + frac
    requires date == Pad(d.year, 4) + "-" + Pad(d.month, 2) + "-" + Pad(d.day, 2) + "T"
    requires time == Pad(d.hour, 2) + ":" + Pad(d.minute, 2) + ":" + Pad(d.second, 2)
    requires frac == if d.microsecond == 0 then "" else "." + Pad(d.microsecond, 6)
    ensures |s| == 19 || |s| == 26
    ensures s[4] == '-' && s[7] == '-' && s[13] == ':' && s[16] == ':' && (|s| == 26 ==> s[19] == '.')
    ensures Field(s, 0, 4) == Some(d.year) && Field(s, 5, 7) == Some(d.month) && Field(s, 8, 10) == Some(d.day)
    ensures Field(s, 11, 13) == Some(d.hour) && Field(s, 14, 16) == Some(d.minute) && Field(s, 17, 19) == Some(d.second)
    ensures |s| == 19 ==> d.microsecond == 0
    ensures |s| == 26 ==> Field(s, 20, 26) == Some(d.microsecond)
  {
    Pow10Values();
    ThreeParts(date, time, frac);
    DateFields(d, s, date);
    TimeFields(d, s, time);
    if d.microsecond != 0 {
      FracField(s, date + time, d.microsecond);
    }
  }

  /** The six fraction digits after the seconds. */
  lemma FracField(s: string, head: string, us: nat)
    requires |head| == 19 && us < 1000000 && s == head + "." + Pad(us, 6)
    ensures |s| == 26 && s[19] == '.' && Field(s, 20, 26) == Some(us)
  {
    Pow10Values();
    var p := Pad(us, 6);
    ThreeParts(head, ".", p);
    FieldOfPad(s, 20, us, 6);
  }

  /** The three parts of a concatenation, sliced back out. */
  lemma ThreeParts(a: string, b: string, c: string)
    ensures (a + b + c)[..|a|] == a && (a + b + c)[|a|..|a| + |b|] == b && (a + b + c)[|a| + |b|..] == c
  {
    var s := a + b + c;
    assert s[..|a|] == a;
    assert s[|a|..|a| + |b|] == b;
    assert s[|a| + |b|..] == c;
  }

  /** A text of one of the shapes, with its separators and fields in place, reads as the moment they name. */
  lemma Reads(s: string, d: DateTime)
    requires Valid(d) && IsoLength(|s|)
    requires s[4] == '-' && s[7] == '-' && (|s| >= 16 ==> s[13] == ':') && (|s| >= 19 ==> s[16] == ':') && (|s| >= 23 ==> s[19] == '.')
    requires Field(s, 0, 4) == Some(d.year) && Field(s, 5, 7) == Some(d.month) && Field(s, 8, 10) == Some(d.day)
    requires FieldOr(s, 11, 13) == Some(d.hour) && FieldOr(s, 14, 16) == Some(d.minute) && FieldOr(s, 17, 19) == Some(d.second)
    requires |s| < 23 ==> d.microsecond == 0
    requires |s| == 23 ==> Field(s, 20, 23).Some? && d.microsecond == Field(s, 20, 23).value * 1000
    requires |s| == 26 ==> Field(s, 20, 26) == Some(d.microsecond)
    ensures FromIsoFormat(s) == Some(d)
  {
  }

  /** A day past the end of its month is rejected, whatever follows it. */
  lemma RejectsDay(s: string, year: nat, month: nat, day: nat)
    requires IsoLength(|s|) && Field(s, 0, 4) == Some(year) && Field(s, 5, 7) == Some(month) && Field(s, 8, 10) == Some(day)
    requires day > DaysIn(year, month)
    ensures FromIsoFormat(s).None?
  {
  }
}
