/** The report toolbar (src/components/reports/ReportSelector.tsx): the
    report-type tabs and the date range. Dates are day numbers; the clock
    that gives "today" is a parameter. */
module ReportSelector {
  import opened Common

  /** A date range whose ends may be missing, as `handleDateSelect` tests. */
  datatype Range = Range(from: Option<int>, to: Option<int>)

  /** `handleDateSelect`'s new range: a fresh one-day range when there is no
      start or the range is already closed; otherwise an earlier day moves
      the start and any other day closes the range. */
  function NextRange(r: Range, d: int): (n: Range)
    ensures n.from.Some?
    ensures r.from.None? || r.to.Some? ==> n == Range(Some(d), Some(d))
    ensures r.from.Some? && r.to.None? && d < r.from.value ==> n == Range(Some(d), None)
    ensures r.from.Some? && r.to.None? && d >= r.from.value ==> n == Range(r.from, Some(d))
  {
    if r.from.None? || r.to.Some? then Range(Some(d), Some(d))
    else if d < r.from.value then r.(from := Some(d))
    else r.(to := Some(d))
  }

  /** A range is well formed when an end implies a start no later than it. */
  predicate Ordered(r: Range) {
    r.to.Some? ==> r.from.Some? && r.from.value <= r.to.value
  }

  /** Every selection keeps the range well formed, and the selected day is
      always one of its ends. */
  lemma NextRangeOrdered(r: Range, d: int)
    requires Ordered(r)
    ensures Ordered(NextRange(r, d))
    ensures NextRange(r, d).from == Some(d) || NextRange(r, d).to == Some(d)
  {
  }

  /** The ranges the component can hold: the initial one and those set by the
      calendar both have two ends. */
  predicate Complete(r: Range) {
    r.from.Some? && r.to.Some?
  }

  /** From a complete range, a selection always gives the one-day range of
      the selected day, so the two-click branches never run. */
  lemma CompleteCollapses(r: Range, d: int)
    requires Complete(r)
    ensures NextRange(r, d) == Range(Some(d), Some(d)) && Complete(NextRange(r, d))
  {
  }

  /** The calendar's `onSelect`: a range is taken only when both its ends are
      present. */
  function CalendarRange(current: Range, picked: Option<Range>): (r: Range)
    ensures picked.Some? && Complete(picked.value) ==> r == picked.value
    ensures !(picked.Some? && Complete(picked.value)) ==> r == current
  {
    if picked.Some? && picked.value.from.Some? && picked.value.to.Some? then picked.value else current
  }

  /** Whatever the calendar hands over, a complete range stays complete. */
  lemma CalendarKeepsComplete(current: Range, picked: Option<Range>)
    requires Complete(current)
    ensures Complete(CalendarRange(current, picked))
  {
  }

  /** The toolbar's state. */
  class Selector {
    var reportType: string
    var date: Range

    /** The range held always has both ends: the initial one does, a click
        on a day from a complete range gives a one-day range, and the
        calendar hands over only complete ranges. Ordering is not part of
        it, because the calendar's range is stored as given. */
    predicate Valid()
      reads this
    {
      Complete(date)
    }

    /** The last seven days up to `today`, daily report. */
    constructor (today: int)
      ensures reportType == "daily" && date == Range(Some(today - 7), Some(today))
      ensures Valid()
    {
      reportType := "daily";
      date := Range(Some(today - 7), Some(today));
    }

    /** `handleReportTypeChange`: store the tab and forward the same value. */
    method HandleReportTypeChange(value: string) returns (forwarded: string)
      requires Valid()
      modifies this
      ensures Valid()
      ensures reportType == value && forwarded == value
      ensures date == old(date)
    {
      reportType := value;
      forwarded := value;
    }

    /** `handleDateSelect`: nothing happens without a day; otherwise the new
        range is stored and handed to `onDateRangeChange`. */
    method HandleDateSelect(selected: Option<int>) returns (notified: Option<Range>)
      modifies this
      ensures old(Valid()) ==> Valid()
      ensures selected.None? ==> date == old(date) && notified.None?
      ensures selected.Some? ==> date == NextRange(old(date), selected.value) && notified == Some(date)
      ensures reportType == old(reportType)
      ensures old(Ordered(date)) ==> Ordered(date)
    {
      if selected.None? {
        return None;
      }
      var d := selected.value;
      var newDate := date;
      if date.from.None? || date.to.Some? {
        newDate := newDate.(from := Some(d));
        newDate := newDate.(to := Some(d));
      } else if d < date.from.value {
        newDate := newDate.(from := Some(d));
      } else {
        newDate := newDate.(to := Some(d));
      }
      if Ordered(date) {
        NextRangeOrdered(date, d);
      }
      if Complete(date) {
        CompleteCollapses(date, d);
      }
      date := newDate;
      notified := Some(newDate);
    }

    /** The calendar's `onSelect`: a complete range is stored and forwarded;
        anything else changes nothing. */
    method CalendarSelect(picked: Option<Range>) returns (notified: Option<Range>)
      requires Valid()
      modifies this
      ensures Valid()
      ensures date == CalendarRange(old(date), picked)
      ensures notified.Some? <==> picked.Some? && Complete(picked.value)
      ensures notified.Some? ==> notified.value == date
      ensures reportType == old(reportType)
    {
      if picked.Some? && picked.value.from.Some? && picked.value.to.Some? {
        date := Range(picked.value.from, picked.value.to);
        notified := Some(date);
      } else {
        notified := None;
      }
    }
  }
}
