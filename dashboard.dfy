/** The two display helpers of the dashboard (src/pages/Dashboard.tsx):
    the "time ago" text of a feedback and the sender line. Timestamps are
    integer milliseconds. */
module Dashboard {
  import opened Wrappers
  import opened Text

  /** `1000 * 60 * 60`. */
  const HourMs: int := 3600000

  /** `Math.floor((now - date) / (1000 * 60 * 60))`. */
  function DiffHours(createdMs: int, nowMs: int): (h: int)
    ensures h * HourMs <= nowMs - createdMs < (h + 1) * HourMs
  {
    (nowMs - createdMs) / HourMs
  }

  /** `formatRelativeTime`. */
  function FormatRelativeTime(createdMs: int, nowMs: int): string {
    var hours := DiffHours(createdMs, nowMs);
    if hours < 24 then IntToDecimal(hours) + "時間前"
    else IntToDecimal(hours / 24) + "日前"
  }

  /** Under a day the text counts whole hours; from 24 hours on it counts
      whole days, at least one, and the day count is the elapsed time in
      whole days. */
  lemma RelativeTimeBuckets(createdMs: int, nowMs: int)
    ensures var h := DiffHours(createdMs, nowMs);
      && (h < 24 ==> FormatRelativeTime(createdMs, nowMs) == IntToDecimal(h) + "時間前")
      && (h >= 24 ==>
            && h / 24 >= 1 && h / 24 == (nowMs - createdMs) / (24 * HourMs)
            && FormatRelativeTime(createdMs, nowMs) == IntToDecimal((nowMs - createdMs) / (24 * HourMs)) + "日前")
    ensures nowMs - createdMs == 24 * HourMs ==> FormatRelativeTime(createdMs, nowMs) == "1日前"
  {
    var h := DiffHours(createdMs, nowMs);
    if h >= 24 {
      DaysOfHours(nowMs - createdMs);
    }
    if nowMs - createdMs == 24 * HourMs {
      assert h == 24;
    }
  }

  /** Whole hours divided into whole days are the whole days elapsed. */
  lemma DaysOfHours(x: int)
    ensures (x / HourMs) / 24 == x / (24 * HourMs)
  {
    var q := x / HourMs;
    var d := q / 24;
    assert q * HourMs <= x < q * HourMs + HourMs;
    assert d * 24 <= q < d * 24 + 24;
    assert d * (24 * HourMs) <= x < d * (24 * HourMs) + 24 * HourMs;
  }

  /** The sender of a dashboard feedback, when it is not anonymous. */
  datatype Sender = Sender(displayName: string)

  const Anonymous: string := "匿名"

  /** The sender line: `from <display_name>` or 匿名. */
  function SenderLabel(sender: Option<Sender>): string {
    if sender.Some? then "from " + sender.value.displayName else Anonymous
  }

  /** The line says 匿名 exactly when there is no sender, and otherwise
      carries the sender's display name after `from `. */
  lemma SenderLabelExact(sender: Option<Sender>)
    ensures SenderLabel(sender) == Anonymous <==> sender.None?
    ensures sender.Some? ==> SenderLabel(sender)[|"from "|..] == sender.value.displayName
  {
    if sender.Some? {
      assert SenderLabel(sender)[0] == 'f';
    }
  }
}
