/** The arithmetic of the statistics page (src/pages/Statistics.tsx): the
    month-over-month growth rate, the bar-chart scale and the category
    percentages. Divisions are exact: a quotient is a pair of integers and
    `Math.round` is rounding half up, `floor(x + 1/2)`. */
module Statistics {
  import opened Wrappers
  import opened Text

  /** `Math.round(num / den)` for a positive denominator. */
  function RoundHalfUp(num: int, den: int): (r: int)
    requires den > 0
    ensures 2 * den * r - den <= 2 * num < 2 * den * r + den
  {
    (2 * num + den) / (2 * den)
  }

  /** The bounds determine the rounded value: no other integer lies within
      one half of the quotient on the side rounding picks. */
  lemma RoundHalfUpUnique(num: int, den: int, s: int)
    requires den > 0
    requires 2 * den * s - den <= 2 * num < 2 * den * s + den
    ensures s == RoundHalfUp(num, den)
  {
    var r := RoundHalfUp(num, den);
    if s > r {
      MulMonotone(2 * den, r + 1, s);
    } else if s < r {
      MulMonotone(2 * den, s + 1, r);
    }
  }

  lemma MulMonotone(k: int, a: int, b: int)
    requires k > 0 && a <= b
    ensures k * a <= k * b
  {
  }

  /** `calculateGrowthRate(current, previous)`. */
  function GrowthRate(current: int, previous: int): int {
    if previous == 0 then (if current > 0 then 100 else 0)
    else if previous > 0 then RoundHalfUp(100 * (current - previous), previous)
    else RoundHalfUp(-100 * (current - previous), -previous)
  }

  /** The rate is the percentage change rounded half up; from zero it is
      100 for any rise and 0 otherwise; no change is 0. */
  lemma GrowthRateSpec(current: int, previous: int)
    ensures previous != 0 ==>
      var r := GrowthRate(current, previous);
      var p := if previous > 0 then previous else -previous;
      var n := if previous > 0 then 100 * (current - previous) else -100 * (current - previous);
      2 * p * r - p <= 2 * n < 2 * p * r + p
    ensures previous == 0 ==> GrowthRate(current, previous) == (if current > 0 then 100 else 0)
    ensures previous != 0 ==> GrowthRate(previous, previous) == 0
  {
  }

  /** For a positive previous count the rate is non-negative exactly when
      the fall is at most half a percent: any rise or no change gives a
      non-negative rate, and so does 199 after 200, which rounds to 0. */
  lemma GrowthRateSign(current: int, previous: int)
    requires previous > 0
    ensures GrowthRate(current, previous) >= 0 <==> 200 * (current - previous) + previous >= 0
    ensures current >= previous ==> GrowthRate(current, previous) >= 0
    ensures current < previous ==> GrowthRate(current, previous) <= 0
  {
    var r := GrowthRate(current, previous);
    var n := 100 * (current - previous);
    if r >= 0 {
      assert 2 * n + previous >= 2 * previous * r;
      MulMonotone(2 * previous, 0, r);
    } else {
      MulMonotone(2 * previous, r, -1);
    }
    if current < previous && r > 0 {
      MulMonotone(2 * previous, 1, r);
    }
  }

  lemma SmallFallShowsPlus()
    ensures GrowthRate(199, 200) == 0 && GrowthLabel(GrowthRate(199, 200)) == "+0%"
  {
    assert GrowthRate(199, 200) == RoundHalfUp(-100, 200) == 0;
    assert IntToDecimal(0) == NatToDecimal(0) == [DigitChar(0)] == "0";
  }

  /** The label `{growthRate >= 0 ? '+' : ''}{growthRate}%`. */
  function GrowthLabel(rate: int): string {
    (if rate >= 0 then "+" else "") + IntToDecimal(rate) + "%"
  }

  /** The label carries exactly one sign, `+` for a non-negative rate and
      `-` for a negative one, and the rate can be read back from it. */
  lemma GrowthLabelSign(rate: int)
    ensures GrowthLabel(rate)[0] == '+' <==> rate >= 0
    ensures GrowthLabel(rate)[0] == '-' <==> rate < 0
    ensures GrowthLabel(rate)[|GrowthLabel(rate)| - 1] == '%'
    ensures var l := GrowthLabel(rate);
      ParseDecimal(l[(if rate >= 0 then 1 else 0)..|l| - 1]) == Some(rate)
  {
    var l := GrowthLabel(rate);
    assert l[(if rate >= 0 then 1 else 0)..|l| - 1] == IntToDecimal(rate);
    DecimalRoundTrip(rate);
  }

  /** `Math.max(...counts, 1)`. */
  function MaxValue(counts: seq<int>): (m: int)
    ensures m >= 1
    ensures forall i :: 0 <= i < |counts| ==> counts[i] <= m
    ensures m == 1 || m in counts
  {
    if counts == [] then 1
    else
      var rest := MaxValue(counts[1..]);
      if counts[0] > rest then counts[0] else rest
  }

  /** `count ? round(count / total * 100)` with a missing count read as 0
      and 0 for an empty total. */
  function Percentage(count: Option<int>, total: int): (r: int)
    ensures total <= 0 ==> r == 0
    ensures total > 0 ==> 2 * total * r - total <= 200 * count.GetOr(0) < 2 * total * r + total
  {
    if total > 0 then RoundHalfUp(100 * count.GetOr(0), total) else 0
  }

  lemma PercentageBounds(c: int, total: int)
    requires 0 <= c <= total && total > 0
    ensures 0 <= RoundHalfUp(100 * c, total) <= 100
  {
    var r := RoundHalfUp(100 * c, total);
    if r < 0 {
      MulMonotone(2 * total, r, -1);
    }
    if r > 100 {
      MulMonotone(2 * total, 101, r);
    }
  }

  /** A missing count is 0%, the whole total is 100%, and the percentage
      is the quotient rounded half up. */
  lemma PercentageSpec(count: Option<int>, total: int)
    requires total > 0
    ensures count.None? ==> Percentage(count, total) == 0
    ensures count == Some(total) ==> Percentage(count, total) == 100
    ensures var c := count.GetOr(0); var r := Percentage(count, total);
      2 * total * r - total <= 200 * c < 2 * total * r + total
    ensures 0 <= count.GetOr(0) <= total ==> 0 <= Percentage(count, total) <= 100
  {
    if 0 <= count.GetOr(0) <= total {
      PercentageBounds(count.GetOr(0), total);
    }
    if count == Some(total) {
      RoundHalfUpUnique(100 * total, total, 100);
    }
  }
}
