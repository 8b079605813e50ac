/**
 * services/date_utils.py: the next working days after a given day, each
 * with its Ukrainian label "Пон, 1 лютого 2026".
 */
module DateUtils {
  import opened Text
  import opened Datetime

  /** Abbreviated Ukrainian day names, indexed by `date.weekday()`. */
  function DayName(w: int): string
    requires 0 <= w < 7
  {
    ["Пон", "Вів", "Сер", "Чет", "П'ят", "Суб", "Нед"][w]
  }

  /** Ukrainian month names in the genitive, indexed by month number 1..12. */
  function MonthName(m: int): string
    requires 1 <= m <= 12
  {
    ["січня", "лютого", "березня", "квітня", "травня", "червня",
     "липня", "серпня", "вересня", "жовтня", "листопада", "грудня"][m - 1]
  }

  /** The month number a genitive month name stands for, 0 for anything else. */
  function MonthNumber(name: string): (m: int)
    ensures 0 <= m <= 12
  {
    if name == "січня" then 1 else if name == "лютого" then 2
    else if name == "березня" then 3 else if name == "квітня" then 4
    else if name == "травня" then 5 else if name == "червня" then 6
    else if name == "липня" then 7 else if name == "серпня" then 8
    else if name == "вересня" then 9 else if name == "жовтня" then 10
    else if name == "листопада" then 11 else if name == "грудня" then 12
    else 0
  }

  lemma MonthNumberOfName(m: int)
    requires 1 <= m <= 12
    ensures MonthNumber(MonthName(m)) == m
    ensures ' ' !in MonthName(m)
  {
  }

  lemma DayNameHasNoComma(w: int)
    requires 0 <= w < 7
    ensures ',' !in DayName(w)
  {
  }

  /** `format_date_ukrainian`: "day-name, day month-name year". */
  function FormatDateUkrainian(d: Date): (r: string)
    requires Valid(d)
    ensures DayName(Weekday(d)) + ", " <= r
    ensures |NatToString(d.year)| <= |r| && r[|r| - |NatToString(d.year)|..] == NatToString(d.year)
  {
    DayName(Weekday(d)) + ", " + NatToString(d.day) + " " + MonthName(d.month) + " " + NatToString(d.year)
  }

  /** Cutting two strings at the first occurrence of a separator neither head contains. */
  lemma SplitAtFirst(a1: string, r1: string, a2: string, r2: string, c: char)
    requires c !in a1 && c !in a2
    requires a1 + [c] + r1 == a2 + [c] + r2
    ensures a1 == a2 && r1 == r2
  {
    var s := a1 + [c] + r1;
    assert |a1| == |a2| by {
      assert s[|a1|] == c && s[|a2|] == c;
      assert forall k :: 0 <= k < |a1| ==> s[k] == a1[k];
      assert forall k :: 0 <= k < |a2| ==> s[k] == a2[k];
    }
    assert a1 == s[..|a1|] && a2 == s[..|a2|];
    assert r1 == s[|a1| + 1..] && r2 == s[|a2| + 1..];
  }

  /** Two digit strings that denote the same number and have no leading zero are equal. */
  lemma NatToStringInjective(a: nat, b: nat)
    requires NatToString(a) == NatToString(b)
    ensures a == b
  {
  }

  /** The part of a label after the day name: " day month-name year". */
  function LabelTail(day: nat, month: int, year: nat): string
    requires 1 <= month <= 12
  {
    " " + NatToString(day) + " " + MonthYear(month, year)
  }

  /** The end of a label: "month-name year". */
  function MonthYear(month: int, year: nat): string
    requires 1 <= month <= 12
  {
    MonthName(month) + " " + NatToString(year)
  }

  /** Cutting two strings `c head c tail` after their leading separator and at the next one. */
  lemma SeparatedInjective(n1: string, u1: string, n2: string, u2: string, c: char)
    requires c !in n1 && c !in n2
    requires [c] + n1 + [c] + u1 == [c] + n2 + [c] + u2
    ensures n1 == n2 && u1 == u2
  {
    assert ([c] + n1 + [c] + u1)[1..] == n1 + [c] + u1;
    assert ([c] + n2 + [c] + u2)[1..] == n2 + [c] + u2;
    SplitAtFirst(n1, u1, n2, u2, c);
  }

  /** The month name and year at the end of a label determine the month and the year. */
  lemma MonthYearInjective(m1: int, y1: nat, m2: int, y2: nat)
    requires 1 <= m1 <= 12 && 1 <= m2 <= 12
    requires MonthYear(m1, y1) == MonthYear(m2, y2)
    ensures m1 == m2 && y1 == y2
  {
    MonthNumberOfName(m1);
    MonthNumberOfName(m2);
    SplitAtFirst(MonthName(m1), NatToString(y1), MonthName(m2), NatToString(y2), ' ');
    NatToStringInjective(y1, y2);
  }

  /** The tail of a label determines its day, month and year. */
  lemma LabelTailInjective(d1: nat, m1: int, y1: nat, d2: nat, m2: int, y2: nat)
    requires 1 <= m1 <= 12 && 1 <= m2 <= 12
    requires LabelTail(d1, m1, y1) == LabelTail(d2, m2, y2)
    ensures d1 == d2 && m1 == m2 && y1 == y2
  {
    var n1, n2 := NatToString(d1), NatToString(d2);
    var u1, u2 := MonthYear(m1, y1), MonthYear(m2, y2);
    assert LabelTail(d1, m1, y1) == [' '] + n1 + [' '] + u1;
    assert LabelTail(d2, m2, y2) == [' '] + n2 + [' '] + u2;
    SeparatedInjective(n1, u1, n2, u2, ' ');
    NatToStringInjective(d1, d2);
    MonthYearInjective(m1, y1, m2, y2);
  }

  /** A label is its day name, a comma, and its tail. */
  lemma LabelSplit(d: Date)
    requires Valid(d)
    ensures FormatDateUkrainian(d) == DayName(Weekday(d)) + [','] + LabelTail(d.day, d.month, d.year)
  {
  }

  /** Different dates get different labels, so a label names its date unambiguously. */
  lemma FormatDateInjective(a: Date, b: Date)
    requires Valid(a) && Valid(b)
    requires FormatDateUkrainian(a) == FormatDateUkrainian(b)
    ensures a == b
  {
    var na, nb := DayName(Weekday(a)), DayName(Weekday(b));
    var ta, tb := LabelTail(a.day, a.month, a.year), LabelTail(b.day, b.month, b.year);
    LabelSplit(a);
    LabelSplit(b);
    DayNameHasNoComma(Weekday(a));
    DayNameHasNoComma(Weekday(b));
    SplitAtFirst(na, ta, nb, tb, ',');
    LabelTailInjective(a.day, a.month, a.year, b.day, b.month, b.year);
  }

  /** How many weekend days lie ahead before the next Monday (used to measure the walk). */
  function WeekendRemaining(w: int): nat {
    if w == 5 then 2 else if w == 6 then 1 else 0
  }

  /** A working day is Monday to Friday. */
  predicate IsWorkingDay(o: int) {
    WeekdayOf(o) < 5
  }

  /**
   * The ordinals of the first `count` working days from the day with ordinal
   * `o` on, that day included: the specification of the walk in
   * `get_next_working_days`.
   */
  function WorkingDaysFrom(o: int, count: nat): (r: seq<int>)
    ensures |r| == count
    ensures forall i :: 0 <= i < |r| ==> o <= r[i] && IsWorkingDay(r[i])
    decreases count * 3 + WeekendRemaining(WeekdayOf(o))
  {
    WeekdayOfSucc(o);
    if count == 0 then []
    else if IsWorkingDay(o) then [o] + WorkingDaysFrom(o + 1, count - 1)
    else WorkingDaysFrom(o + 1, count)
  }

  /** Days from weekday `w` to the first working day on or after it. */
  function DaysToWorkingDay(w: int): nat {
    if w == 5 then 2 else if w == 6 then 1 else 0
  }

  /** The first working day found is the first one on or after `o`. */
  lemma {:induction false} WorkingDaysFirst(o: int, count: nat)
    requires count > 0
    ensures WorkingDaysFrom(o, count)[0] == o + DaysToWorkingDay(WeekdayOf(o))
    decreases WeekendRemaining(WeekdayOf(o))
  {
    WeekdayOfSucc(o);
    if !IsWorkingDay(o) {
      WorkingDaysFirst(o + 1, count);
    }
  }

  /** Consecutive working days are one day apart, or three from a Friday to the Monday after it. */
  lemma {:induction false} WorkingDaysStep(o: int, count: nat, i: nat)
    requires i + 1 < count
    ensures var r := WorkingDaysFrom(o, count);
      r[i + 1] == r[i] + (if WeekdayOf(r[i]) == 4 then 3 else 1)
    decreases count * 3 + WeekendRemaining(WeekdayOf(o))
  {
    WeekdayOfSucc(o);
    if !IsWorkingDay(o) {
      WorkingDaysStep(o + 1, count, i);
    } else if i > 0 {
      WorkingDaysStep(o + 1, count - 1, i - 1);
    } else {
      WorkingDaysFirst(o + 1, count - 1);
    }
  }

  /** Working days come in strictly increasing order. */
  lemma {:induction false} WorkingDaysIncreasing(o: int, count: nat, i: nat, j: nat)
    requires i < j < count
    ensures WorkingDaysFrom(o, count)[i] < WorkingDaysFrom(o, count)[j]
    decreases j - i
  {
    WorkingDaysStep(o, count, j - 1);
    if i < j - 1 {
      WorkingDaysIncreasing(o, count, i, j - 1);
    }
  }

  /**
   * No working day is skipped: every working day from `o` up to the last
   * one in the result is in the result.
   */
  lemma {:induction false} WorkingDaysComplete(o: int, count: nat, e: int)
    requires count > 0 && IsWorkingDay(e)
    requires o <= e <= WorkingDaysFrom(o, count)[count - 1]
    ensures e in WorkingDaysFrom(o, count)
    decreases count * 3 + WeekendRemaining(WeekdayOf(o))
  {
    WeekdayOfSucc(o);
    var r := WorkingDaysFrom(o, count);
    if e == o {
      assert r[0] == o;
    } else if !IsWorkingDay(o) {
      WorkingDaysComplete(o + 1, count, e);
    } else {
      var rest := WorkingDaysFrom(o + 1, count - 1);
      assert r == [o] + rest;
      assert count > 1;
      assert rest[count - 2] == r[count - 1];
      WorkingDaysComplete(o + 1, count - 1, e);
    }
  }

  /**
   * One step of the walk over the tail `spec[k..]` still to be found: a
   * working day is the next element, any other day is passed over.
   */
  lemma WorkingDaysAdvance(spec: seq<int>, k: nat, o: int, m: nat)
    requires k < |spec| && m > 0 && spec[k..] == WorkingDaysFrom(o, m)
    ensures IsWorkingDay(o) ==> spec[k] == o && spec[k + 1..] == WorkingDaysFrom(o + 1, m - 1)
    ensures !IsWorkingDay(o) ==> spec[k..] == WorkingDaysFrom(o + 1, m)
  {
    if IsWorkingDay(o) {
      assert spec[k] == spec[k..][0];
      assert spec[k + 1..] == spec[k..][1..];
    }
  }

  /** The collected days are, in order, the days with the ordinals in `spec`. */
  predicate Follows(days: seq<(Date, string)>, spec: seq<int>) {
    |days| <= |spec| &&
    forall i :: 0 <= i < |days| ==> Valid(days[i].0) && Ordinal(days[i].0) == spec[i]
  }

  /** Each collected day carries its own label. */
  predicate Labelled(days: seq<(Date, string)>) {
    forall i :: 0 <= i < |days| ==> Valid(days[i].0) && days[i].1 == FormatDateUkrainian(days[i].0)
  }

  predicate Collected(days: seq<(Date, string)>, spec: seq<int>) {
    Follows(days, spec) && Labelled(days)
  }

  lemma CollectedAppend(days: seq<(Date, string)>, spec: seq<int>, d: Date)
    requires Collected(days, spec) && |days| < |spec|
    requires Valid(d) && Ordinal(d) == spec[|days|]
    ensures Collected(days + [(d, FormatDateUkrainian(d))], spec)
  {
  }

  /** The loop invariant of `GetNextWorkingDays`: `days` found, `current` next to look at. */
  predicate WalkInvariant(days: seq<(Date, string)>, spec: seq<int>, current: Date) {
    Valid(current) && Collected(days, spec) &&
    spec[|days|..] == WorkingDaysFrom(Ordinal(current), |spec| - |days|)
  }

  /** A working day taken by the loop keeps its invariant. */
  lemma WalkTake(days: seq<(Date, string)>, spec: seq<int>, current: Date, next: Date)
    requires WalkInvariant(days, spec, current) && |days| < |spec| && Weekday(current) < 5
    requires Valid(next) && Ordinal(next) == Ordinal(current) + 1
    ensures WalkInvariant(days + [(current, FormatDateUkrainian(current))], spec, next)
  {
    var k := |days|;
    var taken := days + [(current, FormatDateUkrainian(current))];
    assert IsWorkingDay(Ordinal(current));
    WorkingDaysAdvance(spec, k, Ordinal(current), |spec| - k);
    CollectedAppend(days, spec, current);
    assert |taken| == k + 1 && |spec| - |taken| == |spec| - k - 1;
    assert spec[|taken|..] == WorkingDaysFrom(Ordinal(next), |spec| - |taken|);
  }

  /** A weekend day passed over keeps the invariant and brings Monday nearer. */
  lemma WalkSkip(days: seq<(Date, string)>, spec: seq<int>, current: Date, next: Date)
    requires WalkInvariant(days, spec, current) && |days| < |spec| && Weekday(current) >= 5
    requires Valid(next) && Ordinal(next) == Ordinal(current) + 1
    ensures WalkInvariant(days, spec, next)
    ensures WeekendRemaining(Weekday(next)) < WeekendRemaining(Weekday(current))
  {
    WorkingDaysAdvance(spec, |days|, Ordinal(current), |spec| - |days|);
    WeekdayOfSucc(Ordinal(current));
  }

  /**
   * `get_next_working_days(count)` with today's date as a parameter: walks
   * from tomorrow, skipping Saturdays and Sundays, until `count` days are
   * collected, each with its label.
   */
  method GetNextWorkingDays(today: Date, count: int) returns (days: seq<(Date, string)>)
    requires Valid(today)
    ensures |days| == if count <= 0 then 0 else count
    ensures Collected(days, WorkingDaysFrom(Ordinal(today) + 1, |days|))
  {
    var n: nat := if count <= 0 then 0 else count;
    ghost var spec := WorkingDaysFrom(Ordinal(today) + 1, n);
    days := [];
    var current := NextDay(today);
    while |days| < count
      invariant |days| <= n
      invariant WalkInvariant(days, spec, current)
      decreases n - |days|, WeekendRemaining(Weekday(current))
    {
      var next := NextDay(current);
      if Weekday(current) < 5 {
        WalkTake(days, spec, current, next);
        days := days + [(current, FormatDateUkrainian(current))];
      } else {
        WalkSkip(days, spec, current, next);
      }
      current := next;
    }
  }

  /**
   * The days collected from tomorrow on are working days after today, the
   * first of them the first working day after today.
   */
  lemma CollectedWorkingDays(days: seq<(Date, string)>, today: Date)
    requires Valid(today) && Follows(days, WorkingDaysFrom(Ordinal(today) + 1, |days|))
    ensures forall i :: 0 <= i < |days| ==> Weekday(days[i].0) < 5 && Ordinal(today) < Ordinal(days[i].0)
    ensures |days| > 0 ==>
      Ordinal(days[0].0) == Ordinal(today) + 1 + DaysToWorkingDay(WeekdayOf(Ordinal(today) + 1))
  {
    if |days| > 0 {
      WorkingDaysFirst(Ordinal(today) + 1, |days|);
    }
  }

  /** The days collected come in strictly increasing order. */
  lemma CollectedIncreasing(days: seq<(Date, string)>, today: Date, i: nat, j: nat)
    requires Valid(today) && Follows(days, WorkingDaysFrom(Ordinal(today) + 1, |days|))
    requires i < j < |days|
    ensures Ordinal(days[i].0) < Ordinal(days[j].0)
  {
    WorkingDaysIncreasing(Ordinal(today) + 1, |days|, i, j);
  }

  /** Where `x` first occurs in `s`, or `|s|` when it does not. */
  function Position(s: seq<int>, x: int): (i: nat)
    ensures i <= |s| && (i < |s| ==> s[i] == x)
    ensures x in s ==> i < |s|
  {
    if s == [] then 0 else if s[0] == x then 0 else Position(s[1..], x) + 1
  }

  /** `WorkingDaysComplete` with the place of the day named. */
  lemma WorkingDaysPosition(o: int, count: nat, e: int)
    requires count > 0 && IsWorkingDay(e)
    requires o <= e <= WorkingDaysFrom(o, count)[count - 1]
    ensures Position(WorkingDaysFrom(o, count), e) < count
  {
    WorkingDaysComplete(o, count, e);
  }

  /** Where the day `e` first occurs among the collected days, or `|days|` when it does not. */
  function DayPosition(days: seq<(Date, string)>, e: Date): (i: nat)
    ensures i <= |days| && (i < |days| ==> days[i].0 == e)
  {
    if days == [] then 0 else if days[0].0 == e then 0 else DayPosition(days[1..], e) + 1
  }

  lemma {:induction false} DayPositionAt(days: seq<(Date, string)>, e: Date, k: nat)
    requires k < |days| && days[k].0 == e
    ensures DayPosition(days, e) <= k
  {
    if days[0].0 != e {
      DayPositionAt(days[1..], e, k - 1);
    }
  }

  /**
   * No working day between tomorrow and the last day collected is missing:
   * it occurs among the collected days (with its label, by `Collected`).
   */
  lemma CollectedComplete(days: seq<(Date, string)>, today: Date, e: Date)
    requires Valid(today) && |days| > 0 && Follows(days, WorkingDaysFrom(Ordinal(today) + 1, |days|))
    requires Valid(e) && Weekday(e) < 5 && Ordinal(today) < Ordinal(e) <= Ordinal(days[|days| - 1].0)
    ensures DayPosition(days, e) < |days|
  {
    var o, x := Ordinal(today) + 1, Ordinal(e);
    var spec := WorkingDaysFrom(o, |days|);
    assert spec[|days| - 1] == Ordinal(days[|days| - 1].0);
    WorkingDaysPosition(o, |days|, x);
    var i := Position(spec, x);
    var d := days[i].0;
    assert Valid(d) && Ordinal(d) == x;
    OrdinalInjective(d, e);
    DayPositionAt(days, e, i);
  }
}
