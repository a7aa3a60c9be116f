/**
 * Backup tags are named after the moment of the backup in Go's layout
 * "20060102-150405": four-digit year, two-digit month and day, a dash, then
 * two-digit hour, minute and second (cmd/backup.go, cmd/list.go). This module
 * formats such names and parses the names of exactly that shape as time.Parse
 * does; the fractional-second suffix time.Parse also accepts after the seconds
 * (".5", ",25") is not part of this model, and backups never write one.
 */
module Stamp {
  import opened Wrappers
  import opened Text

  /** A UTC wall-clock time to the second. */
  datatype Time = Time(year: nat, month: nat, day: nat, hour: nat, minute: nat, second: nat)

  predicate IsLeap(year: nat) {
    year % 4 == 0 && (year % 100 != 0 || year % 400 == 0)
  }

  function DaysIn(month: nat, year: nat): nat
    requires 1 <= month <= 12
  {
    if month == 2 then (if IsLeap(year) then 29 else 28)
    else if month == 4 || month == 6 || month == 9 || month == 11 then 30
    else 31
  }

  /** The times the layout can name: a four-digit year and in-range fields, days checked against the month. */
  predicate ValidTime(t: Time) {
    && t.year <= 9999
    && 1 <= t.month <= 12
    && 1 <= t.day <= DaysIn(t.month, t.year)
    && t.hour < 24 && t.minute < 60 && t.second < 60
  }

  /** The length of every tag name in this layout. */
  const StampLength := 15

  function Pad2(n: nat): (r: string)
    requires n < 100
    ensures |r| == 2 && IsDigit(r[0]) && IsDigit(r[1])
  {
    [Digit(n / 10), Digit(n % 10)]
  }

  function Pad4(n: nat): (r: string)
    requires n < 10000
    ensures |r| == 4 && forall k :: 0 <= k < 4 ==> IsDigit(r[k])
  {
    Pad2(n / 100) + Pad2(n % 100)
  }

  /** time.Format(t, "20060102-150405"). */
  function FormatStamp(t: Time): (s: string)
    requires ValidTime(t)
    ensures |s| == StampLength && s[8] == '-'
    ensures forall k :: 0 <= k < StampLength && k != 8 ==> IsDigit(s[k])
  {
    Pad4(t.year) + Pad2(t.month) + Pad2(t.day) + "-" + Pad2(t.hour) + Pad2(t.minute) + Pad2(t.second)
  }

  function DigitAt(s: string, i: nat): nat
    requires i < |s| && IsDigit(s[i])
  {
    s[i] as int - '0' as int
  }

  function Num2(s: string, i: nat): nat
    requires i + 2 <= |s| && IsDigit(s[i]) && IsDigit(s[i + 1])
  {
    DigitAt(s, i) * 10 + DigitAt(s, i + 1)
  }

  function Num4(s: string, i: nat): nat
    requires i + 4 <= |s| && forall k :: i <= k < i + 4 ==> IsDigit(s[k])
  {
    Num2(s, i) * 100 + Num2(s, i + 2)
  }

  /** The shape the layout accepts: fifteen characters, a dash at position 8, digits elsewhere. */
  predicate StampShape(s: string) {
    |s| == StampLength && s[8] == '-' && forall k :: 0 <= k < StampLength && k != 8 ==> IsDigit(s[k])
  }

  /**
   * time.Parse("20060102-150405", s) on names without a fractional-second
   * suffix: the fields read at their fixed positions, then rejected when out of
   * range, including a day past the end of its month.
   */
  function ParseStamp(s: string): (r: Option<Time>)
    ensures r.Some? ==> ValidTime(r.value) && StampShape(s)
  {
    if !StampShape(s) then None
    else
      var t := Time(Num4(s, 0), Num2(s, 4), Num2(s, 6), Num2(s, 9), Num2(s, 11), Num2(s, 13));
      if ValidTime(t) then Some(t) else None
  }

  /** Two digits written for `n` read back as `n`, wherever they stand. */
  lemma Num2Of(s: string, i: nat, n: nat)
    requires n < 100 && i + 2 <= |s| && s[i..i + 2] == Pad2(n)
    ensures IsDigit(s[i]) && IsDigit(s[i + 1]) && Num2(s, i) == n
  {
    assert s[i] == Pad2(n)[0] && s[i + 1] == Pad2(n)[1];
  }

  /** Two digits read as a number are written back as the same two digits. */
  lemma Pad2Of(s: string, i: nat)
    requires i + 2 <= |s| && IsDigit(s[i]) && IsDigit(s[i + 1])
    ensures Pad2(Num2(s, i)) == s[i..i + 2]
  {
    var a, b := DigitAt(s, i), DigitAt(s, i + 1);
    DivMod100(a * 10 + b, a, b, 10);
  }

  /** `n == q * base + r` with `r < base` determines the quotient and remainder. */
  lemma DivMod100(n: nat, q: nat, r: nat, base: nat)
    requires base == 10 || base == 100
    requires n == q * base + r && r < base
    ensures n / base == q && n % base == r
  {
  }

  /** Every time the layout can name comes back from its tag name unchanged. */
  lemma {:induction false} ParseFormat(t: Time)
    requires ValidTime(t)
    ensures ParseStamp(FormatStamp(t)) == Some(t)
  {
    var s := FormatStamp(t);
    Num2Of(s, 0, t.year / 100);
    Num2Of(s, 2, t.year % 100);
    Num2Of(s, 4, t.month);
    Num2Of(s, 6, t.day);
    Num2Of(s, 9, t.hour);
    Num2Of(s, 11, t.minute);
    Num2Of(s, 13, t.second);
    assert Num4(s, 0) == t.year;
  }

  /** A name the layout accepts is the formatting of its time: each time has exactly one tag name. */
  lemma {:induction false} FormatParse(s: string)
    requires ParseStamp(s).Some?
    ensures FormatStamp(ParseStamp(s).value) == s
  {
    var t := ParseStamp(s).value;
    Pad2Of(s, 0);
    Pad2Of(s, 2);
    Pad2Of(s, 4);
    Pad2Of(s, 6);
    Pad2Of(s, 9);
    Pad2Of(s, 11);
    Pad2Of(s, 13);
    DivMod100(t.year, Num2(s, 0), Num2(s, 2), 100);
    assert s == s[0..2] + s[2..4] + s[4..6] + s[6..8] + "-" + s[9..11] + s[11..13] + s[13..15];
  }

  /** Two numbers written base 100 with the same value have the same digits. */
  lemma SameBase100(q1: nat, r1: nat, q2: nat, r2: nat)
    requires r1 < 100 && r2 < 100
    ensures q1 * 100 + r1 == q2 * 100 + r2 <==> q1 == q2 && r1 == r2
  {
  }

  /**
   * A key that orders valid times as Time.After does: each field is below 100
   * (the year below 10000), so comparing keys compares the fields in order.
   */
  function Key(t: Time): nat {
    ((((t.year * 100 + t.month) * 100 + t.day) * 100 + t.hour) * 100 + t.minute) * 100 + t.second
  }

  /** Time.After */
  predicate After(a: Time, b: Time) {
    Key(a) > Key(b)
  }

  /** Distinct valid times have distinct keys, so ordering by key leaves no ties between distinct tags. */
  lemma KeyInjective(a: Time, b: Time)
    requires ValidTime(a) && ValidTime(b)
    requires Key(a) == Key(b)
    ensures a == b
  {
    var ya, yb := a.year * 100 + a.month, b.year * 100 + b.month;
    var da, db := ya * 100 + a.day, yb * 100 + b.day;
    var ha, hb := da * 100 + a.hour, db * 100 + b.hour;
    var ma, mb := ha * 100 + a.minute, hb * 100 + b.minute;
    SameBase100(ma, a.second, mb, b.second);
    SameBase100(ha, a.minute, hb, b.minute);
    SameBase100(da, a.hour, db, b.hour);
    SameBase100(ya, a.day, yb, b.day);
    SameBase100(a.year, a.month, b.year, b.month);
  }

  /** Later in time, field by field from the year down, as the calendar orders instants. */
  predicate Later(a: Time, b: Time) {
    if a.year != b.year then a.year > b.year
    else if a.month != b.month then a.month > b.month
    else if a.day != b.day then a.day > b.day
    else if a.hour != b.hour then a.hour > b.hour
    else if a.minute != b.minute then a.minute > b.minute
    else a.second > b.second
  }

  /** Comparing two numbers written base 100 compares the high parts first, then the low digits. */
  lemma GreaterBase100(q1: nat, r1: nat, q2: nat, r2: nat)
    requires r1 < 100 && r2 < 100
    ensures q1 * 100 + r1 > q2 * 100 + r2 <==> q1 > q2 || (q1 == q2 && r1 > r2)
  {
  }

  /** The key ordering is the chronological one on the times the layout can name. */
  lemma AfterIsLater(a: Time, b: Time)
    requires ValidTime(a) && ValidTime(b)
    ensures After(a, b) <==> Later(a, b)
  {
    var ya, yb := a.year * 100 + a.month, b.year * 100 + b.month;
    var da, db := ya * 100 + a.day, yb * 100 + b.day;
    var ha, hb := da * 100 + a.hour, db * 100 + b.hour;
    var ma, mb := ha * 100 + a.minute, hb * 100 + b.minute;
    GreaterBase100(ma, a.second, mb, b.second);
    GreaterBase100(ha, a.minute, hb, b.minute);
    GreaterBase100(da, a.hour, db, b.hour);
    GreaterBase100(ya, a.day, yb, b.day);
    GreaterBase100(a.year, a.month, b.year, b.month);
    SameBase100(ha, a.minute, hb, b.minute);
    SameBase100(da, a.hour, db, b.hour);
    SameBase100(ya, a.day, yb, b.day);
    SameBase100(a.year, a.month, b.year, b.month);
  }
}
