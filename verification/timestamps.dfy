/** The two time fields `ChallanSender.set_auto_dates` computes once, when
    the widget is created: the date two days before start-up, formatted
    with `strftime` and a fixed clock time. The shifted date is a parameter. */
module Timestamps {
  import opened Decimal

  datatype Date = Date(year: nat, month: nat, day: nat)

  /** The range Python's `datetime` admits for year, month and day. */
  predicate ValidDate(d: Date) {
    1 <= d.year <= 9999 && 1 <= d.month <= 12 && 1 <= d.day <= 31
  }

  /** `%Y-%m-%d`: four-digit year, two-digit month and day. */
  function DateText(d: Date): (r: string)
    requires ValidDate(d)
    ensures |r| == 10 && r[4] == '-' && r[7] == '-'
    ensures AllDigits(r[..4]) && Value(r[..4]) == d.year
    ensures AllDigits(r[5..7]) && Value(r[5..7]) == d.month
    ensures AllDigits(r[8..10]) && Value(r[8..10]) == d.day
  {
    var y := Pad(d.year, 4);
    var m := Pad(d.month, 2);
    var dd := Pad(d.day, 2);
    var r := y + "-" + m + "-" + dd;
    assert r[..4] == y && r[5..7] == m && r[8..10] == dd;
    r
  }

  const ViolationClock := " 10:14:45.0"
  const ActionClock := " 10:44:00.0"

  /** `base_date.strftime("%Y-%m-%d 10:14:45.0")`. */
  function ViolationTime(d: Date): (r: string)
    requires ValidDate(d)
    ensures |r| == 21 && r[..10] == DateText(d) && r[10..] == ViolationClock
  {
    var r := DateText(d) + ViolationClock;
    assert r[..10] == DateText(d) && r[10..] == ViolationClock;
    r
  }

  /** `base_date.strftime("%Y-%m-%d 10:44:00.0")`. */
  function ActionTime(d: Date): (r: string)
    requires ValidDate(d)
    ensures |r| == 21 && r[..10] == DateText(d) && r[10..] == ActionClock
  {
    var r := DateText(d) + ActionClock;
    assert r[..10] == DateText(d) && r[10..] == ActionClock;
    r
  }

  /** The formatted date is a faithful encoding: equal texts mean equal
      dates, so the violation time identifies the day it was taken from. */
  lemma {:induction false} DateTextInjective(a: Date, b: Date)
    requires ValidDate(a) && ValidDate(b)
    requires ViolationTime(a) == ViolationTime(b)
    ensures a == b
  {
    assert DateText(a) == ViolationTime(a)[..10] == ViolationTime(b)[..10] == DateText(b);
    assert a.year == Value(DateText(a)[..4]) == b.year;
    assert a.month == Value(DateText(a)[5..7]) == b.month;
    assert a.day == Value(DateText(a)[8..10]) == b.day;
  }

  /** Both fields carry the same date and differ only in the clock time. */
  lemma SameDayDifferentClock(d: Date)
    requires ValidDate(d)
    ensures ViolationTime(d)[..10] == ActionTime(d)[..10]
    ensures ViolationTime(d) != ActionTime(d)
  {
    assert ViolationClock[4] != ActionClock[4];
    assert ViolationTime(d)[10..] != ActionTime(d)[10..];
  }

  /** The pair kept by the widget for every submission it makes. */
  datatype Clock = Clock(violationTime: string, actionTime: string)

  function AutoDates(base: Date): (c: Clock)
    requires ValidDate(base)
    ensures |c.violationTime| == |c.actionTime| == 21
    ensures c.violationTime[..10] == c.actionTime[..10] == DateText(base)
    ensures c.violationTime[10..] == ViolationClock && c.actionTime[10..] == ActionClock
  {
    Clock(ViolationTime(base), ActionTime(base))
  }
}
