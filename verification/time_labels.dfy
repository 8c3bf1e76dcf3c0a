/** The relative-time labels shown under each person ("Now", "5m ago",
    "2 hours ago"). Every label view computes the interval since the
    person's `lastUpdated` and sorts it into one of three buckets; the views
    differ only in wording. The wall clock `Date()` is the parameter `now`,
    and times are whole seconds. */
module TimeLabels {
  import opened Common
  import Decimal

  /** The bucket an interval falls into, with the count the label shows. */
  datatype Elapsed = Recent | Minutes(count: nat) | Hours(count: nat)

  /** The wording of a label family: `PersonCard` is `Compact`,
      `PersonRow` and `PersonDetailView` are `Verbose`. */
  datatype Style = Compact | Verbose

  function RecentText(style: Style): string {
    match style
    case Compact => "Now"
    case Verbose => "just now"
  }

  function MinutesSuffix(style: Style): string {
    match style
    case Compact => "m ago"
    case Verbose => " minutes ago"
  }

  function HoursSuffix(style: Style): string {
    match style
    case Compact => "h ago"
    case Verbose => " hours ago"
  }

  /** Bucketing of an elapsed interval in seconds. Below a minute
      (negative intervals included) is recent; below an hour counts whole
      minutes; everything else counts whole hours. The count is the
      truncated quotient, which for these positive intervals is the floor. */
  function Classify(interval: int): (e: Elapsed)
    ensures e.Recent? <==> interval < 60
    ensures e.Minutes? <==> 60 <= interval < 3600
    ensures e.Hours? <==> 3600 <= interval
    ensures e.Minutes? ==> 1 <= e.count <= 59 && 60 * e.count <= interval < 60 * (e.count + 1)
    ensures e.Hours? ==> 1 <= e.count && 3600 * e.count <= interval < 3600 * (e.count + 1)
  {
    if interval < 60 then Recent
    else if interval < 3600 then Minutes(interval / 60)
    else Hours(interval / 3600)
  }

  function Render(style: Style, e: Elapsed): string {
    match e
    case Recent => RecentText(style)
    case Minutes(n) => Decimal.Show(n) + MinutesSuffix(style)
    case Hours(n) => Decimal.Show(n) + HoursSuffix(style)
  }

  /** The label for an interval in the given wording. */
  function Label(style: Style, interval: int): string {
    Render(style, Classify(interval))
  }

  /** Reads a label back into its bucket; `None` for any other string. */
  function ParseLabel(style: Style, s: string): Option<Elapsed> {
    if s == RecentText(style) then Some(Recent)
    else if EndsWith(s, MinutesSuffix(style)) then
      match Decimal.Parse(s[..|s| - |MinutesSuffix(style)|])
      case Some(n) => Some(Minutes(n))
      case None => None
    else if EndsWith(s, HoursSuffix(style)) then
      match Decimal.Parse(s[..|s| - |HoursSuffix(style)|])
      case Some(n) => Some(Hours(n))
      case None => None
    else None
  }

  /** An hours label never carries the minutes suffix. */
  lemma HoursLabelNotMinutes(style: Style, n: nat)
    ensures !EndsWith(Decimal.Show(n) + HoursSuffix(style), MinutesSuffix(style))
  {
    var s := Decimal.Show(n) + HoursSuffix(style);
    match style
    case Compact =>
      assert s[|s| - 5..] == "h ago";
    case Verbose =>
      if |s| >= 12 {
        assert s[|s| - 12..][2] == ' ';
      }
  }

  /** Rendering then parsing recovers the bucket. */
  lemma ParseRender(style: Style, e: Elapsed)
    ensures ParseLabel(style, Render(style, e)) == Some(e)
  {
    var s := Render(style, e);
    match e
    case Recent =>
    case Minutes(n) =>
      var ms := MinutesSuffix(style);
      assert |s| > |RecentText(style)|;
      assert s[|s| - |ms|..] == ms;
      assert s[..|s| - |ms|] == Decimal.Show(n);
      Decimal.ParseShow(n);
    case Hours(n) =>
      var hs := HoursSuffix(style);
      assert |s| > |RecentText(style)|;
      HoursLabelNotMinutes(style, n);
      assert s[|s| - |hs|..] == hs;
      assert s[..|s| - |hs|] == Decimal.Show(n);
      Decimal.ParseShow(n);
  }

  /** Parsing then rendering recovers the string: every string the parser
      accepts is exactly one label. */
  lemma RenderParse(style: Style, s: string)
    requires ParseLabel(style, s).Some?
    ensures Render(style, ParseLabel(style, s).value) == s
  {
    if s != RecentText(style) {
      var ms := MinutesSuffix(style);
      var hs := HoursSuffix(style);
      if EndsWith(s, ms) {
        var prefix := s[..|s| - |ms|];
        Decimal.ShowParse(prefix);
        assert s == prefix + ms;
      } else {
        var prefix := s[..|s| - |hs|];
        Decimal.ShowParse(prefix);
        assert s == prefix + hs;
      }
    }
  }

  /** Two intervals get the same label exactly when they fall into the
      same bucket with the same count. */
  lemma LabelDeterminesBucket(style: Style, i: int, j: int)
    ensures Label(style, i) == Label(style, j) <==> Classify(i) == Classify(j)
  {
    ParseRender(style, Classify(i));
    ParseRender(style, Classify(j));
  }

  /** Order of buckets: recent, then minutes by count, then hours by count. */
  function Rank(e: Elapsed): nat {
    match e
    case Recent => 0
    case Minutes(n) => 1
    case Hours(n) => 2
  }

  predicate NotLater(a: Elapsed, b: Elapsed) {
    Rank(a) < Rank(b) || (Rank(a) == Rank(b) && (a.Recent? || a.count <= b.count))
  }

  /** The bucket never goes back as the interval grows: recent, then
      minutes, then hours, with counts that do not decrease. */
  lemma ClassifyMonotone(i: int, j: int)
    requires i <= j
    ensures NotLater(Classify(i), Classify(j))
  {
  }

  /** `PersonCard.timeAgoString`: the compact label for the time since `date`. */
  function CardTimeAgo(now: int, date: int): (r: string)
    ensures ParseLabel(Compact, r) == Some(Classify(now - date))
    ensures r == "Now" <==> now - date < 60
  {
    ParseRender(Compact, Classify(now - date));
    Label(Compact, now - date)
  }

  /** `PersonRow.timeAgoString`: the verbose label for the time since `date`. */
  function RowTimeAgo(now: int, date: int): (r: string)
    ensures ParseLabel(Verbose, r) == Some(Classify(now - date))
    ensures r == "just now" <==> now - date < 60
  {
    ParseRender(Verbose, Classify(now - date));
    Label(Verbose, now - date)
  }

  /** The compact card label in each bucket. */
  lemma CardTimeAgoBuckets(now: int, date: int)
    ensures now - date < 60 ==> CardTimeAgo(now, date) == "Now"
    ensures 60 <= now - date < 3600 ==>
      CardTimeAgo(now, date) == Decimal.Show((now - date) / 60) + "m ago"
    ensures 3600 <= now - date ==>
      CardTimeAgo(now, date) == Decimal.Show((now - date) / 3600) + "h ago"
  {
  }

  /** The verbose row label in each bucket. */
  lemma RowTimeAgoBuckets(now: int, date: int)
    ensures now - date < 60 ==> RowTimeAgo(now, date) == "just now"
    ensures 60 <= now - date < 3600 ==>
      RowTimeAgo(now, date) == Decimal.Show((now - date) / 60) + " minutes ago"
    ensures 3600 <= now - date ==>
      RowTimeAgo(now, date) == Decimal.Show((now - date) / 3600) + " hours ago"
  {
  }
}
