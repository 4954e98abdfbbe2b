/**
 * CommentCard's formatDate: the time since a comment was posted, bucketed into
 * "Just now", minutes, hours or days ago, or else the absolute date. The
 * elapsed time `now - date` in milliseconds is the input; the absolute,
 * locale-formatted date is supplied by the caller.
 */
module CommentCardView {
  import opened Strings

  const MsPerMinute := 60000
  const MsPerHour := 3600000
  const MsPerDay := 86400000
  const MsPerWeek := 604800000

  function DigitChar(d: nat): (c: char)
    requires d < 10
    ensures '0' <= c <= '9' && c as int - '0' as int == d
  {
    ('0' as int + d) as char
  }

  /** The decimal numeral JavaScript prints for a non-negative integer. */
  function DecimalString(n: nat): (r: string)
    ensures r != [] && forall i :: 0 <= i < |r| ==> '0' <= r[i] <= '9'
    ensures r[0] == '0' ==> n == 0
  {
    if n < 10 then [DigitChar(n)] else DecimalString(n / 10) + [DigitChar(n % 10)]
  }

  /** The number a string of decimal digits denotes. */
  function DecimalValue(s: string): nat
    requires forall i :: 0 <= i < |s| ==> '0' <= s[i] <= '9'
  {
    if s == [] then 0 else 10 * DecimalValue(s[..|s| - 1]) + (s[|s| - 1] as int - '0' as int)
  }

  /** The numeral shown is the count itself. */
  lemma {:induction false} DecimalRoundTrip(n: nat)
    ensures DecimalValue(DecimalString(n)) == n
  {
    if n >= 10 {
      var r := DecimalString(n);
      assert r[..|r| - 1] == DecimalString(n / 10);
      DecimalRoundTrip(n / 10);
    }
  }

  /** `${count} ${unit}${count > 1 ? 's' : ''} ago` */
  function Ago(count: nat, unit: string): string {
    DecimalString(count) + " " + unit + (if count > 1 then "s" else "") + " ago"
  }

  /**
   * formatDate, with the elapsed milliseconds as input. `/` on int with a
   * positive divisor is Math.floor of the quotient. By elapsed time: under a
   * minute (also any negative time) is "Just now"; each later bucket shows a
   * count within its range, so "0 hours ago" or "24 hours ago" never appears;
   * a week or more gives the absolute date.
   */
  function FormatDate(elapsedMs: int, absoluteDate: string): (r: string)
    ensures elapsedMs < MsPerMinute ==> r == "Just now"
    ensures MsPerMinute <= elapsedMs < MsPerHour ==>
      1 <= elapsedMs / MsPerMinute <= 59 && r == Ago(elapsedMs / MsPerMinute, "minute")
    ensures MsPerHour <= elapsedMs < MsPerDay ==>
      1 <= elapsedMs / MsPerHour <= 23 && r == Ago(elapsedMs / MsPerHour, "hour")
    ensures MsPerDay <= elapsedMs < MsPerWeek ==>
      1 <= elapsedMs / MsPerDay <= 6 && r == Ago(elapsedMs / MsPerDay, "day")
    ensures MsPerWeek <= elapsedMs ==> r == absoluteDate
  {
    var diffMins := elapsedMs / MsPerMinute;
    var diffHours := elapsedMs / MsPerHour;
    var diffDays := elapsedMs / MsPerDay;
    if diffMins < 1 then "Just now"
    else if diffMins < 60 then Ago(diffMins, "minute")
    else if diffHours < 24 then Ago(diffHours, "hour")
    else if diffDays < 7 then Ago(diffDays, "day")
    else absoluteDate
  }

  /**
   * Stated on the branch conditions themselves: when the hour branch is
   * reached the hour count is 1 to 23, and when the day branch is reached the
   * day count is 1 to 6.
   */
  lemma BranchCounts(elapsedMs: int)
    ensures elapsedMs / MsPerMinute >= 60 && elapsedMs / MsPerHour < 24 ==> 1 <= elapsedMs / MsPerHour <= 23
    ensures elapsedMs / MsPerHour >= 24 && elapsedMs / MsPerDay < 7 ==> 1 <= elapsedMs / MsPerDay <= 6
  {
  }

  /** The unit is pluralised exactly when the count is more than one. */
  lemma AgoPluralIff(count: nat, unit: string)
    requires unit != "" && unit[|unit| - 1] != 's'
    ensures EndsWith(Ago(count, unit), "s ago") <==> count > 1
  {
    var a := Ago(count, unit);
    if count > 1 {
      assert a == (DecimalString(count) + " " + unit) + "s ago";
    } else {
      assert a == (DecimalString(count) + " " + unit) + " ago";
      assert a[|a| - 5] == unit[|unit| - 1];
    }
  }

  /** The text starts with the count's numeral and a space, and ends in " ago". */
  lemma AgoShape(count: nat, unit: string)
    ensures StartsWith(Ago(count, unit), DecimalString(count) + " ")
    ensures EndsWith(Ago(count, unit), " ago")
  {
    var head := DecimalString(count) + " ";
    var a := Ago(count, unit);
    assert a == head + (unit + (if count > 1 then "s" else "") + " ago");
    assert a[..|head|] == head;
    assert a == (head + unit + (if count > 1 then "s" else "")) + " ago";
  }

  /** Under a minute, and any negative time, is "Just now". */
  lemma JustNowEdges(d: string)
    ensures FormatDate(-5000, d) == "Just now"
    ensures FormatDate(59999, d) == "Just now"
  {
  }

  /** The first minute counts: singular, then plural. */
  lemma MinuteEdges(d: string)
    ensures FormatDate(60000, d) == "1 minute ago"
    ensures FormatDate(120000, d) == "2 minutes ago"
  {
  }

  /** One millisecond short of an hour is still counted in minutes. */
  lemma LastMinuteEdge(d: string)
    ensures FormatDate(3599999, d) == "59 minutes ago"
  {
    assert FormatDate(3599999, d) == Ago(59, "minute");
    assert DecimalString(59) == DecimalString(5) + [DigitChar(9)] == "59";
  }

  /** An hour exactly is the first hour count. */
  lemma FirstHourEdge(d: string)
    ensures FormatDate(3600000, d) == "1 hour ago"
  {
    assert FormatDate(3600000, d) == Ago(1, "hour");
  }

  /** One millisecond short of a day is still counted in hours. */
  lemma LastHourEdge(d: string)
    ensures FormatDate(86399999, d) == "23 hours ago"
  {
    assert FormatDate(86399999, d) == Ago(23, "hour");
    assert DecimalString(23) == DecimalString(2) + [DigitChar(3)] == "23";
  }

  /** Bucket edges around a day and a week. */
  lemma DayEdges(d: string)
    ensures FormatDate(86400000, d) == "1 day ago"
    ensures FormatDate(604799999, d) == "6 days ago"
    ensures FormatDate(604800000, d) == d
  {
    assert 604799999 / MsPerDay == 6;
  }
}
