/** The audit timestamps: UTC in the fixed-width form of RFC 3339, whose string order is the order in time. */
module Timestamp {
  import opened Strings

  datatype Time = Time(year: nat, month: nat, day: nat, hour: nat, minute: nat, second: nat)

  predicate Leap(y: nat) {
    y % 4 == 0 && (y % 100 != 0 || y % 400 == 0)
  }

  function DaysIn(y: nat, m: nat): nat {
    if m == 2 then (if Leap(y) then 29 else 28)
    else if m in {4, 6, 9, 11} then 30
    else 31
  }

  predicate Valid(t: Time) {
    && t.year <= 9999
    && 1 <= t.month <= 12
    && 1 <= t.day <= DaysIn(t.year, t.month)
    && t.hour < 24 && t.minute < 60 && t.second < 60
  }

  function DaysBeforeYear(y: nat): nat {
    if y == 0 then 0 else DaysBeforeYear(y - 1) + if Leap(y - 1) then 366 else 365
  }

  function DaysBeforeMonth(y: nat, m: nat): nat {
    if m <= 1 then 0 else DaysBeforeMonth(y, m - 1) + DaysIn(y, m - 1)
  }

  /** Seconds elapsed since the start of year 0. */
  function Seconds(t: Time): nat
    requires Valid(t)
  {
    var days := DaysBeforeYear(t.year) + DaysBeforeMonth(t.year, t.month) + t.day - 1;
    ((days * 24 + t.hour) * 60 + t.minute) * 60 + t.second
  }

  function Digits(n: nat, width: nat): (s: string)
    ensures |s| == width
  {
    if width == 0 then "" else Digits(n / 10, width - 1) + [('0' as int + n % 10) as char]
  }

  function Pow10(w: nat): nat {
    if w == 0 then 1 else 10 * Pow10(w - 1)
  }

  function Format(t: Time): string {
    Digits(t.year, 4) + ("-" + (Digits(t.month, 2) + ("-" + (Digits(t.day, 2) + ("T" +
    (Digits(t.hour, 2) + (":" + (Digits(t.minute, 2) + (":" + (Digits(t.second, 2) + "Z"))))))))))
  }

  lemma FieldThen(a: string, sep: char, rest: string)
    ensures var s := a + ([sep] + rest);
            |s| == |a| + 1 + |rest| && s[..|a|] == a && s[|a|] == sep && s[|a| + 1..] == rest
  {
  }

  /** The fixed positions of RFC 3339: four digits, five times a separator and two digits, and a final Z. */
  lemma FormatShape(t: Time)
    ensures var s := Format(t);
            && |s| == 20 && s[4] == s[7] == '-' && s[10] == 'T' && s[13] == s[16] == ':' && s[19] == 'Z'
            && s[..4] == Digits(t.year, 4)
            && s[5..][..2] == Digits(t.month, 2) && s[8..][..2] == Digits(t.day, 2)
            && s[11..][..2] == Digits(t.hour, 2) && s[14..][..2] == Digits(t.minute, 2)
            && s[17..] == Digits(t.second, 2) + "Z"
  {
    var second := Digits(t.second, 2) + "Z";
    var minute := Digits(t.minute, 2) + (":" + second);
    var hour := Digits(t.hour, 2) + (":" + minute);
    var day := Digits(t.day, 2) + ("T" + hour);
    var month := Digits(t.month, 2) + ("-" + day);
    FieldThen(Digits(t.minute, 2), ':', second);
    FieldThen(Digits(t.hour, 2), ':', minute);
    FieldThen(Digits(t.day, 2), 'T', hour);
    FieldThen(Digits(t.month, 2), '-', day);
    FieldThen(Digits(t.year, 4), '-', month);
    var s := Format(t);
    assert s[5..] == month;
    assert s[8..] == month[3..] == day;
    assert s[11..] == day[3..] == hour;
    assert s[14..] == hour[3..] == minute;
    assert s[17..] == minute[3..] == second;
  }

  lemma {:induction false} DigitsOrder(a: nat, b: nat, w: nat)
    requires a < Pow10(w) && b < Pow10(w)
    ensures Less(Digits(a, w), Digits(b, w)) <==> a < b
    ensures Digits(a, w) == Digits(b, w) <==> a == b
  {
    if w > 0 {
      DigitsOrder(a / 10, b / 10, w - 1);
      var da, db := [('0' as int + a % 10) as char], [('0' as int + b % 10) as char];
      LessFields(Digits(a / 10, w - 1), Digits(b / 10, w - 1), da, db);
      assert Less(da, db) <==> a % 10 < b % 10;
      assert Digits(a, w) == Digits(b, w) ==> Digits(a / 10, w - 1) == Digits(b / 10, w - 1) && da[0] == db[0] by {
        var sa, sb := Digits(a, w), Digits(b, w);
        assert sa[..w - 1] == Digits(a / 10, w - 1) && sb[..w - 1] == Digits(b / 10, w - 1);
        assert sa[w - 1] == da[0] && sb[w - 1] == db[0];
      }
    }
  }

  /** One numeric field and its separator, then the rest. */
  lemma FieldOrder(a: nat, b: nat, w: nat, sep: string, x: string, y: string)
    requires a < Pow10(w) && b < Pow10(w) && |sep| == 1
    ensures Less(Digits(a, w) + (sep + x), Digits(b, w) + (sep + y)) <==> a < b || (a == b && Less(x, y))
  {
    DigitsOrder(a, b, w);
    LessFields(Digits(a, w), Digits(b, w), sep + x, sep + y);
    LessFields(sep, sep, x, y);
    Irreflexive(sep);
  }

  /** Earlier by the first field that differs. */
  predicate FieldsLess(a: Time, b: Time) {
    a.year < b.year || (a.year == b.year &&
    (a.month < b.month || (a.month == b.month &&
    (a.day < b.day || (a.day == b.day &&
    (a.hour < b.hour || (a.hour == b.hour &&
    (a.minute < b.minute || (a.minute == b.minute && a.second < b.second)))))))))
  }

  lemma FormatComparesFields(a: Time, b: Time)
    requires Valid(a) && Valid(b)
    ensures Less(Format(a), Format(b)) <==> FieldsLess(a, b)
  {
    assert Pow10(1) == 10 && Pow10(2) == 100 && Pow10(3) == 1000 && Pow10(4) == 10000;
    var a6, b6 := Digits(a.second, 2) + "Z", Digits(b.second, 2) + "Z";
    var a5, b5 := Digits(a.minute, 2) + (":" + a6), Digits(b.minute, 2) + (":" + b6);
    var a4, b4 := Digits(a.hour, 2) + (":" + a5), Digits(b.hour, 2) + (":" + b5);
    var a3, b3 := Digits(a.day, 2) + ("T" + a4), Digits(b.day, 2) + ("T" + b4);
    var a2, b2 := Digits(a.month, 2) + ("-" + a3), Digits(b.month, 2) + ("-" + b3);
    FieldOrder(a.year, b.year, 4, "-", a2, b2);
    FieldOrder(a.month, b.month, 2, "-", a3, b3);
    FieldOrder(a.day, b.day, 2, "T", a4, b4);
    FieldOrder(a.hour, b.hour, 2, ":", a5, b5);
    FieldOrder(a.minute, b.minute, 2, ":", a6, b6);
    DigitsOrder(a.second, b.second, 2);
    LessFields(Digits(a.second, 2), Digits(b.second, 2), "Z", "Z");
    Irreflexive("Z");
  }

  lemma {:induction false} YearsGrow(y: nat, z: nat)
    requires y <= z
    ensures DaysBeforeYear(y) <= DaysBeforeYear(z)
    decreases z
  {
    if y < z {
      YearsGrow(y, z - 1);
    }
  }

  lemma {:induction false} MonthsGrow(y: nat, m: nat, k: nat)
    requires 1 <= m < k
    ensures DaysBeforeMonth(y, m) + DaysIn(y, m) <= DaysBeforeMonth(y, k)
    decreases k
  {
    if m < k - 1 {
      MonthsGrow(y, m, k - 1);
    }
  }

  lemma YearLength(y: nat)
    ensures DaysBeforeMonth(y, 12) + DaysIn(y, 12) == if Leap(y) then 366 else 365
  {
    var feb := DaysIn(y, 2);
    assert DaysBeforeMonth(y, 2) == 31;
    assert DaysBeforeMonth(y, 4) == 62 + feb;
    assert DaysBeforeMonth(y, 6) == 123 + feb;
    assert DaysBeforeMonth(y, 8) == 184 + feb;
    assert DaysBeforeMonth(y, 10) == 245 + feb;
    assert DaysBeforeMonth(y, 12) == 306 + feb;
  }

  lemma DayInYear(t: Time)
    requires Valid(t)
    ensures DaysBeforeMonth(t.year, t.month) + t.day <= if Leap(t.year) then 366 else 365
  {
    YearLength(t.year);
    if t.month < 12 {
      MonthsGrow(t.year, t.month, 12);
    }
  }

  lemma FieldsLessIsEarlier(a: Time, b: Time)
    requires Valid(a) && Valid(b) && FieldsLess(a, b)
    ensures Seconds(a) < Seconds(b)
  {
    var da := DaysBeforeYear(a.year) + DaysBeforeMonth(a.year, a.month) + a.day;
    var db := DaysBeforeYear(b.year) + DaysBeforeMonth(b.year, b.month) + b.day;
    if a.year < b.year {
      DayInYear(a);
      YearsGrow(a.year + 1, b.year);
      assert da < db;
    } else if a.month < b.month {
      MonthsGrow(a.year, a.month, b.month);
      assert da < db;
    }
  }

  /** String order of the timestamps is the order in time, to the second. */
  lemma StringOrderIsTimeOrder(a: Time, b: Time)
    requires Valid(a) && Valid(b)
    ensures Less(Format(a), Format(b)) <==> Seconds(a) < Seconds(b)
  {
    FormatComparesFields(a, b);
    if FieldsLess(a, b) {
      FieldsLessIsEarlier(a, b);
    } else if a != b {
      assert FieldsLess(b, a);
      FieldsLessIsEarlier(b, a);
    }
  }
}
