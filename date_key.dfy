/**
 * The request side of a refresh: the local `YYYY-MM-DD` key and the schedule
 * endpoint URL built from it.
 */
module DateKey {
  import opened Wrappers
  import opened Numerals

  /** `Date.getMonth()`: zero-based. */
  type MonthIndex = m: nat | m < 12
  /** `Date.getDate()`. */
  type DayOfMonth = d: nat | 1 <= d <= 31 witness 1

  /** `yyyy-mm-dd`, with the one-based month and the day padded to two digits. */
  function LocalDateKey(year: nat, month: MonthIndex, day: DayOfMonth): (key: string)
    ensures |key| == |NatToString(year)| + 6
    ensures key[..|key| - 6] == NatToString(year)
    ensures key[|key| - 6] == '-' && key[|key| - 3] == '-'
    ensures key[|key| - 5..|key| - 3] == TwoDigits(month + 1)
    ensures key[|key| - 2..] == TwoDigits(day)
  {
    TwoDigitsSpec(month + 1);
    TwoDigitsSpec(day);
    NatToString(year) + "-" + TwoDigits(month + 1) + "-" + TwoDigits(day)
  }

  /** Reads a date key back as (year, zero-based month, day); None for anything else. */
  function ParseDateKey(key: string): (r: Option<(nat, MonthIndex, DayOfMonth)>)
  {
    var n := |key|;
    if n < 7 || key[n - 6] != '-' || key[n - 3] != '-' then None
    else
      var y, m, d := ParseNat(key[..n - 6]), ParseNat(key[n - 5..n - 3]), ParseNat(key[n - 2..]);
      if y.None? || m.None? || d.None? then None
      else if !(1 <= m.value <= 12 && 1 <= d.value <= 31) then None
      else Some((y.value, (m.value - 1) as MonthIndex, d.value as DayOfMonth))
  }

  /** The key loses nothing: year, month and day are recovered from it. */
  lemma DateKeyRoundTrip(year: nat, month: MonthIndex, day: DayOfMonth)
    ensures ParseDateKey(LocalDateKey(year, month, day)) == Some((year, month, day))
  {
    NatToStringRoundTrip(year);
    TwoDigitsSpec(month + 1);
    TwoDigitsSpec(day);
  }

  /** Different dates give different keys. */
  lemma DateKeyInjective(y1: nat, m1: MonthIndex, d1: DayOfMonth, y2: nat, m2: MonthIndex, d2: DayOfMonth)
    requires LocalDateKey(y1, m1, d1) == LocalDateKey(y2, m2, d2)
    ensures y1 == y2 && m1 == m2 && d1 == d2
  {
    DateKeyRoundTrip(y1, m1, d1);
    DateKeyRoundTrip(y2, m2, d2);
  }

  const ScheduleBase := "https://statsapi.mlb.com/api/v1/schedule"
  const ScheduleQueryHead := "?sportId=1&date="
  const ScheduleQueryTail := "&hydrate=linescore,status"

  /** The schedule request for league 1 on `date`, with linescore and status included. */
  function ScheduleUrl(date: string): (url: string)
    ensures |url| == |ScheduleBase + ScheduleQueryHead| + |date| + |ScheduleQueryTail|
    ensures url[..|ScheduleBase + ScheduleQueryHead|] == ScheduleBase + ScheduleQueryHead
    ensures url[|ScheduleBase + ScheduleQueryHead|..|url| - |ScheduleQueryTail|] == date
    ensures url[|url| - |ScheduleQueryTail|..] == ScheduleQueryTail
  {
    ScheduleBase + ScheduleQueryHead + date + ScheduleQueryTail
  }

  /** Different dates request different URLs. */
  lemma ScheduleUrlInjective(a: string, b: string)
    requires ScheduleUrl(a) == ScheduleUrl(b)
    ensures a == b
  {
    var u := ScheduleUrl(a);
    assert a == u[|ScheduleBase + ScheduleQueryHead|..|u| - |ScheduleQueryTail|];
  }
}
