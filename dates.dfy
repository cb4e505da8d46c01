/** The date helpers of src/utils/date.ts. The clock and calendar arithmetic are
    parameters: `today` is `formatDate(new Date())` and `ago(n)` is
    `formatDate(daysAgo(n))`, both already rendered as YYYY-MM-DD text. */
module Dates {
  import opened Wrappers
  import opened Strings

  datatype Calendar = Calendar(today: string, ago: int -> string)

  datatype DateRange = DateRange(startDate: string, endDate: string)

  /** The number of days the default range reaches back. */
  const DefaultDays := 28

  /** `getDefaultStartDate`. */
  function DefaultStartDate(cal: Calendar): string {
    cal.ago(DefaultDays)
  }

  /** `getDefaultEndDate`. */
  function DefaultEndDate(cal: Calendar): string {
    cal.today
  }

  /** `if (days)`: a number is truthy when it is present and non-zero. */
  predicate DaysGiven(days: Option<int>) {
    days.Some? && days.value != 0
  }

  /** `parseDateRange`: the end date falls back only when absent (`??`), the start
      date falls back whenever it is absent or empty, first to `days` and then to
      the default of 28 days ago. */
  function ParseDateRange(startDate: Option<string>, endDate: Option<string>, days: Option<int>, cal: Calendar)
    : (r: DateRange)
    ensures endDate.Some? ==> r.endDate == endDate.value
    ensures endDate.None? ==> r.endDate == DefaultEndDate(cal)
    ensures Truthy(startDate) ==> r.startDate == startDate.value
    ensures !Truthy(startDate) && DaysGiven(days) ==> r.startDate == cal.ago(days.value)
    ensures !Truthy(startDate) && !DaysGiven(days) ==> r.startDate == DefaultStartDate(cal)
  {
    var resolvedEndDate := endDate.GetOr(DefaultEndDate(cal));
    var resolvedStartDate :=
      if Truthy(startDate) then startDate.value
      else if DaysGiven(days) then cal.ago(days.value)
      else DefaultStartDate(cal);
    DateRange(resolvedStartDate, resolvedEndDate)
  }

  /** An explicit, non-empty start date makes `days` irrelevant. */
  lemma ExplicitStartOverridesDays(s: string, endDate: Option<string>, d1: Option<int>, d2: Option<int>, cal: Calendar)
    requires s != ""
    ensures ParseDateRange(Some(s), endDate, d1, cal) == ParseDateRange(Some(s), endDate, d2, cal)
    ensures ParseDateRange(Some(s), endDate, d1, cal).startDate == s
  {
  }

  /** An empty start date counts as absent, while an empty end date is kept. */
  lemma EmptyStartIsAbsentEmptyEndIsKept(endDate: Option<string>, days: Option<int>, cal: Calendar)
    ensures ParseDateRange(Some(""), endDate, days, cal) == ParseDateRange(None, endDate, days, cal)
    ensures ParseDateRange(None, Some(""), days, cal).endDate == ""
  {
  }

  /** `days = 28` and `days = 0` both give the default range. */
  lemma DefaultDaysAgree(endDate: Option<string>, cal: Calendar)
    ensures ParseDateRange(None, endDate, Some(DefaultDays), cal) == ParseDateRange(None, endDate, None, cal)
    ensures ParseDateRange(None, endDate, Some(0), cal) == ParseDateRange(None, endDate, None, cal)
  {
  }

  /** Each digit position of `^\d{4}-\d{2}-\d{2}$` (JavaScript's `\d` is ASCII). */
  predicate IsDigitPosition(i: int) {
    0 <= i < 10 && i != 4 && i != 7
  }

  /** The regular expression `^\d{4}-\d{2}-\d{2}$`, position by position: a
      matching text is ten characters, each an ASCII digit or a dash. */
  function MatchesDatePattern(s: string): (b: bool)
    ensures b ==> |s| == 10
    ensures b ==> forall i :: 0 <= i < |s| ==> IsDigit(s[i]) || s[i] == '-'
  {
    |s| == 10 && s[4] == '-' && s[7] == '-'
    && forall i :: 0 <= i < |s| && IsDigitPosition(i) ==> IsDigit(s[i])
  }

  predicate AllDigits(s: string) {
    forall i :: 0 <= i < |s| ==> IsDigit(s[i])
  }

  /** The pattern read the way it is written: four digits, a dash, two digits, a dash, two digits. */
  lemma MatchesDatePatternIffSplit(s: string)
    ensures MatchesDatePattern(s) <==>
      |s| == 10 && AllDigits(s[..4]) && s[4] == '-' && AllDigits(s[5..7]) && s[7] == '-' && AllDigits(s[8..])
  {
    if |s| == 10 && AllDigits(s[..4]) && s[4] == '-' && AllDigits(s[5..7]) && s[7] == '-' && AllDigits(s[8..]) {
      forall i | 0 <= i < |s| && IsDigitPosition(i)
        ensures IsDigit(s[i])
      {
        if i < 4 {
          assert s[..4][i] == s[i];
        } else if i < 7 {
          assert s[5..7][i - 5] == s[i];
        } else {
          assert s[8..][i - 8] == s[i];
        }
      }
    }
    if MatchesDatePattern(s) {
      assert forall i :: 0 <= i < 4 ==> s[..4][i] == s[i] && IsDigitPosition(i);
      assert forall i :: 0 <= i < 2 ==> s[5..7][i] == s[i + 5] && IsDigitPosition(i + 5);
      assert forall i :: 0 <= i < 2 ==> s[8..][i] == s[i + 8] && IsDigitPosition(i + 8);
    }
  }

  /** `isValidDateString`: the pattern first, then whether `new Date(s)` is a real
      time (`calendarValid`, which is left to the caller). */
  function IsValidDateString(s: string, calendarValid: string -> bool): (r: bool)
    ensures !MatchesDatePattern(s) ==> !r
    ensures MatchesDatePattern(s) ==> (r <==> calendarValid(s))
  {
    if !MatchesDatePattern(s) then false else calendarValid(s)
  }

  /** A month or day as `toISOString` writes it: two digits, with a leading zero
      below ten. */
  function Pad2(n: nat): (r: string)
    requires n < 100
    ensures |r| == 2 && IsDigit(r[0]) && IsDigit(r[1])
  {
    if n < 10 then "0" + NatToString(n)
    else
      assert Pow10(2) == 100 && Pow10(1) == 10;
      NatLength(n, 2);
      NatToString(n)
  }

  /** The shape of `formatDate`'s output: the zero-padded text of any
      four-digit year, month and day matches the pattern that
      `isValidDateString` tests. The calendar of `Calendar` stays a parameter,
      so this says nothing about which date `ParseDateRange` chooses. */
  lemma ComposedDateMatches(year: nat, month: nat, day: nat)
    requires 1000 <= year < 10000 && 1 <= month <= 12 && 1 <= day <= 31
    ensures MatchesDatePattern(NatToString(year) + "-" + Pad2(month) + "-" + Pad2(day))
  {
    assert Pow10(4) == 10000 && Pow10(3) == 1000 by {
      assert Pow10(1) == 10;
      assert Pow10(2) == 100;
    }
    NatLength(year, 4);
    DigitPartsMatch(NatToString(year), Pad2(month), Pad2(day));
  }

  /** Four digits, a dash, two digits, a dash and two digits match the pattern. */
  lemma DigitPartsMatch(y: string, m: string, d: string)
    requires |y| == 4 && |m| == 2 && |d| == 2
    requires AllDigits(y) && AllDigits(m) && AllDigits(d)
    ensures MatchesDatePattern(y + "-" + m + "-" + d)
  {
    var s := y + "-" + m + "-" + d;
    assert s[..4] == y && s[5..7] == m && s[8..] == d;
    MatchesDatePatternIffSplit(s);
  }

  /** A number with `k` decimal digits renders as `k` characters. */
  lemma {:induction false} NatLength(n: nat, k: nat)
    requires k > 0
    requires (k == 1 ==> n < 10) && (k > 1 ==> Pow10(k - 1) <= n < Pow10(k))
    ensures |NatToString(n)| == k
  {
    if k > 1 {
      assert Pow10(k) == 10 * Pow10(k - 1);
      if k == 2 {
        assert 1 <= n / 10 < 10;
      } else {
        assert Pow10(k - 1) == 10 * Pow10(k - 2);
        assert Pow10(k - 2) <= n / 10 < Pow10(k - 1);
      }
      NatLength(n / 10, k - 1);
    }
  }

  function Pow10(k: nat): nat
  {
    if k == 0 then 1 else 10 * Pow10(k - 1)
  }
}
