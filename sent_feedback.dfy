/** The sent-feedback page (src/pages/SentFeedback.tsx): the category and
    period filters, the relative date shown on each item, and the counts.
    Timestamps are integer milliseconds since the epoch; `createdAt` is
    taken as already parsed. */
module SentFeedback {
  import opened Wrappers
  import opened Text
  import opened Lists
  import opened Categories

  /** The page's own `Feedback` interface: the category is a plain string. */
  datatype SentItem = SentItem(
    id: int,
    message: string,
    category: string,
    isRead: bool,
    isAnonymous: bool,
    createdMs: int,
    recipientName: string)

  /** `'all' | '7d' | '30d' | '90d'`. */
  datatype Period = AnyTime | Last7Days | Last30Days | Last90Days

  /** `24 * 60 * 60 * 1000`. */
  const DayMs: int := 86400000

  function PeriodDays(p: Period): nat
    requires !p.AnyTime?
  {
    match p
    case Last7Days => 7
    case Last30Days => 30
    case Last90Days => 90
  }

  function CategoryTest(sel: CategoryFilter): SentItem -> bool {
    (x: SentItem) => sel.AnyCategory? || x.category == CategoryKey(sel.c)
  }

  /** `new Date(f.createdAt) >= cutoffDate`: the cutoff itself is kept. */
  function PeriodTest(p: Period, nowMs: int): SentItem -> bool {
    (x: SentItem) => p.AnyTime? || x.createdMs >= nowMs - PeriodDays(p) * DayMs
  }

  function KeepTest(sel: CategoryFilter, p: Period, nowMs: int): SentItem -> bool {
    (x: SentItem) => CategoryTest(sel)(x) && PeriodTest(p, nowMs)(x)
  }

  /** The items passing both filters, in their original order. */
  function SentFilter(fs: seq<SentItem>, sel: CategoryFilter, p: Period, nowMs: int): seq<SentItem> {
    Filter(fs, KeepTest(sel, p, nowMs))
  }

  lemma AnyIsIdentity(fs: seq<SentItem>, sel: CategoryFilter, p: Period, nowMs: int)
    ensures sel.AnyCategory? ==> Filter(fs, CategoryTest(sel)) == fs
    ensures p.AnyTime? ==> Filter(fs, PeriodTest(p, nowMs)) == fs
  {
    if sel.AnyCategory? {
      FilterKeepsAll(fs, CategoryTest(sel));
    }
    if p.AnyTime? {
      FilterKeepsAll(fs, PeriodTest(p, nowMs));
    }
  }

  /** The filter effect: `filtered` starts as the whole list and is narrowed
      by the category, then by the period, each only when selected. The
      result is one filter by both tests. */
  method ComputeFiltered(feedbacks: seq<SentItem>, sel: CategoryFilter, p: Period, nowMs: int)
    returns (filtered: seq<SentItem>)
    ensures filtered == SentFilter(feedbacks, sel, p, nowMs)
  {
    AnyIsIdentity(feedbacks, sel, p, nowMs);
    filtered := feedbacks;
    if sel != AnyCategory {
      filtered := Filter(filtered, CategoryTest(sel));
    }
    ghost var byCategory := Filter(feedbacks, CategoryTest(sel));
    assert filtered == byCategory;
    AnyIsIdentity(byCategory, sel, p, nowMs);
    if p != AnyTime {
      filtered := Filter(filtered, PeriodTest(p, nowMs));
    }
    FilterFilter(feedbacks, CategoryTest(sel), PeriodTest(p, nowMs), KeepTest(sel, p, nowMs));
  }

  /** What the filtered list holds: exactly the items of the selected
      category created at or after the cutoff, in the original order; with
      both selectors at 'all' it is the whole list. */
  lemma SentFilterExact(fs: seq<SentItem>, sel: CategoryFilter, p: Period, nowMs: int)
    ensures forall x :: x in SentFilter(fs, sel, p, nowMs) <==>
      x in fs
      && (sel.OnlyCategory? ==> x.category == CategoryKey(sel.c))
      && (!p.AnyTime? ==> x.createdMs >= nowMs - PeriodDays(p) * DayMs)
    ensures IsSubsequence(SentFilter(fs, sel, p, nowMs), fs)
    ensures sel.AnyCategory? && p.AnyTime? ==> SentFilter(fs, sel, p, nowMs) == fs
  {
    FilterIsSubsequence(fs, KeepTest(sel, p, nowMs));
    forall x
      ensures KeepTest(sel, p, nowMs)(x) <==>
        (sel.OnlyCategory? ==> x.category == CategoryKey(sel.c))
        && (!p.AnyTime? ==> x.createdMs >= nowMs - PeriodDays(p) * DayMs)
    {
      assert KeepTest(sel, p, nowMs)(x) == (CategoryTest(sel)(x) && PeriodTest(p, nowMs)(x));
    }
    if sel.AnyCategory? && p.AnyTime? {
      FilterKeepsAll(fs, KeepTest(sel, p, nowMs));
    }
  }

  /** The two filters may run in either order, and filtering the result
      again changes nothing. */
  lemma SentFilterCommutesAndSettles(fs: seq<SentItem>, sel: CategoryFilter, p: Period, nowMs: int)
    ensures Filter(Filter(fs, PeriodTest(p, nowMs)), CategoryTest(sel)) == SentFilter(fs, sel, p, nowMs)
    ensures SentFilter(SentFilter(fs, sel, p, nowMs), sel, p, nowMs) == SentFilter(fs, sel, p, nowMs)
  {
    FilterFilter(fs, CategoryTest(sel), PeriodTest(p, nowMs), KeepTest(sel, p, nowMs));
    FilterCommutes(fs, CategoryTest(sel), PeriodTest(p, nowMs));
    FilterIdempotent(fs, KeepTest(sel, p, nowMs));
  }

  /** `Math.floor(diffTime / (1000 * 60 * 60 * 24))`. */
  function DiffDays(createdMs: int, nowMs: int): (d: int)
    ensures d * DayMs <= nowMs - createdMs < (d + 1) * DayMs
  {
    (nowMs - createdMs) / DayMs
  }

  /** `getRelativeDate`. */
  function RelativeDate(createdMs: int, nowMs: int): string {
    var d := DiffDays(createdMs, nowMs);
    if d == 0 then "今日"
    else if d == 1 then "昨日"
    else if d < 7 then IntToDecimal(d) + "日前"
    else if d < 30 then IntToDecimal(d / 7) + "週間前"
    else if d < 365 then IntToDecimal(d / 30) + "ヶ月前"
    else IntToDecimal(d / 365) + "年前"
  }

  /** The buckets of `getRelativeDate`: weeks run from 1 to 4, months from 1
      to 12, years from 1 up. A date in the future (a negative day count)
      falls into the "days ago" bucket with its minus sign. */
  lemma RelativeDateBuckets(createdMs: int, nowMs: int)
    ensures var d := DiffDays(createdMs, nowMs);
      && (0 <= nowMs - createdMs < DayMs ==> RelativeDate(createdMs, nowMs) == "今日")
      && (DayMs <= nowMs - createdMs < 2 * DayMs ==> RelativeDate(createdMs, nowMs) == "昨日")
      && (d < 0 ==> RelativeDate(createdMs, nowMs) == "-" + NatToDecimal(-d) + "日前")
      && (2 <= d < 7 ==> RelativeDate(createdMs, nowMs) == IntToDecimal(d) + "日前")
      && (7 <= d < 30 ==> 1 <= d / 7 <= 4 && RelativeDate(createdMs, nowMs) == IntToDecimal(d / 7) + "週間前")
      && (30 <= d < 365 ==> 1 <= d / 30 <= 12 && RelativeDate(createdMs, nowMs) == IntToDecimal(d / 30) + "ヶ月前")
      && (365 <= d ==> 1 <= d / 365 && RelativeDate(createdMs, nowMs) == IntToDecimal(d / 365) + "年前")
  {
    var d := DiffDays(createdMs, nowMs);
    if 0 <= nowMs - createdMs < DayMs {
      assert d == 0;
    }
    if DayMs <= nowMs - createdMs < 2 * DayMs {
      assert d == 1;
    }
  }

  /** `feedbacks.filter(f => f.category === category).length`. */
  function SentCategoryCount(fs: seq<SentItem>, c: Category): nat {
    |Filter(fs, CategoryTest(OnlyCategory(c)))|
  }

  /** The four counts add up to at most the total, and to exactly the total
      when every item's category is one of the four. */
  lemma {:induction false} SentCountsBound(fs: seq<SentItem>)
    ensures SentCategoryCount(fs, Gratitude) + SentCategoryCount(fs, Admiration)
          + SentCategoryCount(fs, Appreciation) + SentCategoryCount(fs, Respect) <= |fs|
    ensures (forall x :: x in fs ==> ParseCategory(x.category).Some?) ==>
      SentCategoryCount(fs, Gratitude) + SentCategoryCount(fs, Admiration)
      + SentCategoryCount(fs, Appreciation) + SentCategoryCount(fs, Respect) == |fs|
  {
    if fs != [] {
      SentCountsBound(fs[1..]);
      forall c | c in AllCategories
        ensures SentCategoryCount(fs, c) == (if fs[0].category == CategoryKey(c) then 1 else 0) + SentCategoryCount(fs[1..], c)
      {
        assert Filter(fs, CategoryTest(OnlyCategory(c)))
          == (if fs[0].category == CategoryKey(c) then [fs[0]] else []) + Filter(fs[1..], CategoryTest(OnlyCategory(c)));
      }
    }
  }

  class SentFeedbackPage {
    var feedbacks: seq<SentItem>
    var filteredFeedbacks: seq<SentItem>
    var selectedCategory: CategoryFilter
    var selectedPeriod: Period

    constructor ()
      ensures feedbacks == [] && filteredFeedbacks == []
      ensures selectedCategory == AnyCategory && selectedPeriod == AnyTime
    {
      feedbacks := [];
      filteredFeedbacks := [];
      selectedCategory := AnyCategory;
      selectedPeriod := AnyTime;
    }

    /** The effect on `[selectedCategory, selectedPeriod, feedbacks]`, at
        clock reading `nowMs`. */
    method ApplyFilter(nowMs: int)
      modifies this
      ensures filteredFeedbacks == SentFilter(feedbacks, selectedCategory, selectedPeriod, nowMs)
      ensures feedbacks == old(feedbacks)
      ensures selectedCategory == old(selectedCategory) && selectedPeriod == old(selectedPeriod)
    {
      filteredFeedbacks := ComputeFiltered(feedbacks, selectedCategory, selectedPeriod, nowMs);
    }
  }
}
