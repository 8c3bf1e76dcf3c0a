/** `PersonDetailView.timeAgoString`, the label on a person's detail
    screen. It has the same verbose wording as the roster rows. */
module PersonDetail {
  import opened Common
  import Decimal
  import opened TimeLabels

  /** The label for the time elapsed since `date` at wall-clock time `now`. */
  function TimeAgo(now: int, date: int): (r: string)
    ensures ParseLabel(Verbose, r) == Some(Classify(now - date))
    ensures r == "just now" <==> now - date < 60
  {
    ParseRender(Verbose, Classify(now - date));
    Label(Verbose, now - date)
  }

  /** The three buckets spelled out: below a minute (negative intervals
      too) is "just now"; below an hour is the whole number of minutes,
      between 1 and 59; beyond that, the whole number of hours, at least 1. */
  lemma TimeAgoBuckets(now: int, date: int)
    ensures now - date < 60 ==> TimeAgo(now, date) == "just now"
    ensures 60 <= now - date < 3600 ==>
      1 <= (now - date) / 60 <= 59 &&
      TimeAgo(now, date) == Decimal.Show((now - date) / 60) + " minutes ago"
    ensures 3600 <= now - date ==>
      1 <= (now - date) / 3600 &&
      TimeAgo(now, date) == Decimal.Show((now - date) / 3600) + " hours ago"
  {
  }

  /** There is no singular form: one minute and one hour read "1 minutes
      ago" and "1 hours ago". */
  lemma NoSingularForm(date: int)
    ensures TimeAgo(date + 60, date) == "1 minutes ago"
    ensures TimeAgo(date + 119, date) == "1 minutes ago"
    ensures TimeAgo(date + 3600, date) == "1 hours ago"
  {
  }

  /** As time passes the label only moves forward: "just now", then
      minutes, then hours, with a count that never decreases. */
  lemma TimeAgoMonotone(date: int, t1: int, t2: int)
    requires t1 <= t2
    ensures NotLater(ParseLabel(Verbose, TimeAgo(t1, date)).value,
                     ParseLabel(Verbose, TimeAgo(t2, date)).value)
  {
  }
}
