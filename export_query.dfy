/**
 * The export query of utility/TempExportQueryData.java: a date and an event
 * name that an export of attendance records filters on. A date string is
 * accepted only in the shape of the pattern
 *   ^\d{4}-((1[0-2])|(0?[1-9]))-\d{1,2}$
 * (matched against the whole string, with \d standing for an ASCII digit);
 * an accepted string is stored as the date its three digit groups name, and a
 * rejected one leaves the stored date as it was.
 */
module ExportQuery {
  import opened Wrappers

  predicate IsDigit(c: char)
  {
    '0' <= c <= '9'
  }

  predicate AllDigits(s: string)
  {
    forall i :: 0 <= i < |s| ==> IsDigit(s[i])
  }

  /** The month alternatives of the pattern: `1[0-2]`, or `0?[1-9]`. */
  predicate ValidMonth(m: string)
  {
    (|m| == 2 && m[0] == '1' && '0' <= m[1] <= '2') ||
    (|m| == 1 && '1' <= m[0] <= '9') ||
    (|m| == 2 && m[0] == '0' && '1' <= m[1] <= '9')
  }

  /** The year, month and day groups of a date string. */
  datatype DateParts = DateParts(year: string, month: string, day: string)

  /** The groups the pattern allows: four digits, a month, one or two digits. */
  predicate ValidParts(p: DateParts)
  {
    |p.year| == 4 && AllDigits(p.year) &&
    ValidMonth(p.month) &&
    1 <= |p.day| <= 2 && AllDigits(p.day)
  }

  /** The string the pattern matches for the given groups. */
  function Render(p: DateParts): string
  {
    p.year + "-" + p.month + "-" + p.day
  }

  /** The index of the dash after the month of a string that starts like a date. */
  function MonthEnd(s: string): nat
    requires |s| > 6
  {
    if s[6] == '-' then 6 else 7
  }

  /**
   * The matcher, reading the string left to right: four digits, a dash, a
   * month of one or two characters up to the second dash, then one or two
   * digits up to the end.
   */
  predicate MatchesDatePattern(s: string)
  {
    |s| >= 8 && AllDigits(s[..4]) && s[4] == '-' &&
    var m := MonthEnd(s);
    s[m] == '-' && ValidMonth(s[5..m]) &&
    1 <= |s| - (m + 1) <= 2 && AllDigits(s[m + 1..])
  }

  /** The groups of an accepted string. */
  function SplitDate(s: string): DateParts
    requires MatchesDatePattern(s)
  {
    var m := MonthEnd(s);
    DateParts(s[..4], s[5..m], s[m + 1..])
  }

  /** Every string the matcher accepts is the rendering of the groups it splits into, and those are groups the pattern allows. */
  lemma DatePatternSound(s: string)
    requires MatchesDatePattern(s)
    ensures ValidParts(SplitDate(s)) && Render(SplitDate(s)) == s
  {
    var m := MonthEnd(s);
    assert s == s[..4] + "-" + s[5..m] + "-" + s[m + 1..];
  }

  /** Every string the pattern describes is accepted, and splits back into its groups. */
  lemma DatePatternComplete(p: DateParts)
    requires ValidParts(p)
    ensures MatchesDatePattern(Render(p)) && SplitDate(Render(p)) == p
  {
    var s := Render(p);
    var m := 5 + |p.month|;
    var head := p.year + "-" + p.month;
    assert s == head + ("-" + p.day);
    assert |head| == m;
    assert s[..m] == head;
    assert head[..4] == p.year && head[4] == '-' && head[5..] == p.month by {
      assert head == p.year + ("-" + p.month);
    }
    assert s[m] == '-';
    assert MonthEnd(s) == m;
    assert s[5..m] == head[5..];
    assert s[m + 1..] == p.day;
  }

  function Pow10(n: nat): nat
  {
    if n == 0 then 1 else 10 * Pow10(n - 1)
  }

  /** The decimal value of a string of digits, as Integer.parseInt reads it. */
  function DigitsValue(s: string): (v: nat)
    requires AllDigits(s)
    ensures v < Pow10(|s|)
  {
    if s == [] then 0
    else DigitsValue(s[..|s| - 1]) * 10 + (s[|s| - 1] - '0') as int
  }

  /** A calendar date by its year, month and day numbers. */
  datatype Date = Date(year: int, month: int, day: int)

  /**
   * The date an accepted string names, by the values of its three groups;
   * the month is always one of the twelve, the day is not checked.
   */
  function DateOf(s: string): (d: Date)
    requires MatchesDatePattern(s)
    ensures 0 <= d.year <= 9999 && 1 <= d.month <= 12 && 0 <= d.day <= 99
  {
    var p := SplitDate(s);
    var month := p.month;
    assert DigitsValue(month) == if |month| == 1 then (month[0] - '0') as int
                                 else 10 * (month[0] - '0') as int + (month[1] - '0') as int by {
      if |month| == 2 {
        assert month[..1][..0] == [];
      }
    }
    Date(DigitsValue(p.year), DigitsValue(month), DigitsValue(p.day))
  }

  /** Every accepted string is 8 to 10 characters long and names a month from 1 to 12. */
  lemma AcceptedShape(s: string)
    requires MatchesDatePattern(s)
    ensures 8 <= |s| <= 10 && 1 <= DateOf(s).month <= 12
  {
  }

  /**
   * The pattern does not check the day: `2024-1-0` and `2024-01-99` match.
   * Months `0`, `00` and `13` do not.
   */
  lemma DatePatternExamples()
    ensures MatchesDatePattern("2024-1-0") && MatchesDatePattern("2024-01-99")
    ensures !MatchesDatePattern("2024-0-1") && !MatchesDatePattern("2024-00-1") && !MatchesDatePattern("2024-13-1")
  {
  }

  class TempExportQueryData {
    var dateQuery: Option<Date>     // null until a date is accepted
    var eventName: Option<string>   // null until an event name is set

    constructor ()
      ensures dateQuery == None && eventName == None
    {
      dateQuery := None;
      eventName := None;
    }

    /** getDateQuery: the date last accepted by BuildDate, if any. */
    function GetDateQuery(): (d: Option<Date>)
      reads this
      ensures d == dateQuery
    {
      dateQuery
    }

    /** getEventNameQuery: the name last stored by BuildEventName, if any. */
    function GetEventNameQuery(): (name: Option<string>)
      reads this
      ensures name == eventName
    {
      eventName
    }

    /**
     * buildDate: reports whether the string has the shape of a date; when
     * it has, the stored date becomes the one it names, and when it has not,
     * nothing changes. The event name never changes.
     */
    method BuildDate(dateString: string) returns (validFormat: bool)
      modifies this`dateQuery
      ensures validFormat == MatchesDatePattern(dateString)
      ensures validFormat ==> GetDateQuery() == Some(DateOf(dateString))
      ensures !validFormat ==> GetDateQuery() == old(GetDateQuery())
      ensures GetEventNameQuery() == old(GetEventNameQuery())
    {
      validFormat := MatchesDatePattern(dateString);
      if validFormat {
        dateQuery := Some(DateOf(dateString));
      }
    }

    /** buildEventName: stores the name as given; the date is untouched. */
    method BuildEventName(name: string)
      modifies this`eventName
      ensures GetEventNameQuery() == Some(name)
      ensures GetDateQuery() == old(GetDateQuery())
    {
      eventName := Some(name);
    }
  }
}
