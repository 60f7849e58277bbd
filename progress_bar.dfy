/** The progress bar: the number of distinct days the user has progress rows for,
    and the percentage of the 30-day roadmap that stands for. */
module Progress {
  import opened Wrappers

  const TotalDays := 30

  /** `new Set(data.map((entry) => entry.day)).size`: how many distinct day labels
      occur, whatever each row's completed flag. */
  function DayCount(days: seq<string>): (n: nat)
    ensures n <= |days|
    ensures n == 0 <==> days == []
  {
    var distinct := set d | d in days;
    DistinctBound(days);
    assert days != [] ==> days[0] in distinct;
    |distinct|
  }

  lemma {:induction false} DistinctBound(days: seq<string>)
    ensures |set d | d in days| <= |days|
  {
    if days != [] {
      DistinctBound(days[1..]);
      assert (set d | d in days) == (set d | d in days[1..]) + {days[0]};
    }
  }

  /** A reference count of distinct days: scan the rows and count each day label
      at its last occurrence. */
  function CountDistinct(days: seq<string>): nat {
    if days == [] then 0
    else (if days[0] in days[1..] then 0 else 1) + CountDistinct(days[1..])
  }

  /** The set size is the scan's count. */
  lemma {:induction false} DayCountIsCountDistinct(days: seq<string>)
    ensures DayCount(days) == CountDistinct(days)
  {
    if days != [] {
      DayCountIsCountDistinct(days[1..]);
      var rest := set d | d in days[1..];
      assert (set d | d in days) == rest + {days[0]};
      if days[0] !in days[1..] {
        assert days[0] !in rest;
      } else {
        assert rest + {days[0]} == rest;
      }
    }
  }

  /** Reordering or repeating rows does not change the count: it depends only on
      which day labels occur. */
  lemma DayCountOfSameDays(a: seq<string>, b: seq<string>)
    requires forall d :: d in a <==> d in b
    ensures DayCount(a) == DayCount(b)
  {
    assert (set d | d in a) == (set d | d in b);
  }

  /** `Math.round(n / m)` for `n >= 0`: the nearest integer, halves rounded up. */
  function RoundRatio(n: nat, m: nat): (r: nat)
    requires m > 0
    ensures m * (2 * r - 1) <= 2 * n < m * (2 * r + 1)
  {
    (2 * n + m) / (2 * m)
  }

  /** `Math.min(Math.round((dayCount / totalDays) * 100), 100)`. */
  function Percentage(dayCount: nat): (p: nat)
    ensures p <= 100
  {
    var r := RoundRatio(dayCount * 100, TotalDays);
    if r < 100 then r else 100
  }

  /** Below 30 days the rounded value is `(10 * dayCount + 1) / 3`: the exact ratio
      `10 * dayCount / 3` never ends in one half, so the rounding is unambiguous. */
  lemma PercentageClosedForm(dayCount: nat)
    requires dayCount < TotalDays
    ensures Percentage(dayCount) == (10 * dayCount + 1) / 3
  {
    var r := RoundRatio(dayCount * 100, TotalDays);
    assert 30 * (2 * r - 1) <= 200 * dayCount < 30 * (2 * r + 1);
    assert 3 * (2 * r - 1) <= 20 * dayCount < 3 * (2 * r + 1);
  }

  /** More days never show a smaller percentage. */
  lemma PercentageMonotone(a: nat, b: nat)
    requires a <= b
    ensures Percentage(a) <= Percentage(b)
  {
    var ra, rb := RoundRatio(a * 100, TotalDays), RoundRatio(b * 100, TotalDays);
    assert 30 * (2 * ra - 1) <= 200 * a <= 200 * b < 30 * (2 * rb + 1);
  }

  /** The bar is full exactly from the thirtieth day on. */
  lemma PercentageFull(dayCount: nat)
    ensures Percentage(dayCount) == 100 <==> dayCount >= TotalDays
  {
    if dayCount < TotalDays {
      PercentageClosedForm(dayCount);
    } else {
      var r := RoundRatio(dayCount * 100, TotalDays);
      assert 200 * dayCount < 30 * (2 * r + 1);
    }
  }

  /** The `dayCount` after the effect runs for `userId`: an empty id queries nothing
      and an error leaves the count; otherwise it is the distinct-day count of the
      rows' `day` values. */
  function FetchedDayCount(userId: string, current: nat, reply: Option<seq<string>>): (n: nat)
    ensures userId == "" || reply.None? ==> n == current
    ensures userId != "" && reply.Some? ==> n == CountDistinct(reply.value)
  {
    if userId == "" || reply.None? then current
    else
      DayCountIsCountDistinct(reply.value);
      DayCount(reply.value)
  }
}
