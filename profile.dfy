/** The profile page: per-user report statistics, the level and status badges, and the
    category label table. */
module Profile {
  import opened Reports

  datatype Stats = Stats(total: nat, approved: nat, pending: nat, rejected: nat)

  /** The statistics of `fetchReports`: all of the user's reports, and those whose status is
      exactly "approved", "pending" and "rejected". */
  function ComputeStats(reports: seq<Report>): (s: Stats)
    ensures s.total == |reports|
    ensures s.approved <= s.total && s.pending <= s.total && s.rejected <= s.total
    ensures reports == [] ==> s == Stats(0, 0, 0, 0)
  {
    Stats(|reports|, CountStatus(reports, Approved), CountStatus(reports, Pending), CountStatus(reports, Rejected))
  }

  /** One more report adds one to the total and one to exactly the count of its own status,
      so each field counts the reports with exactly that status. */
  lemma {:induction false} ComputeStatsAppend(reports: seq<Report>, x: Report)
    ensures var before, after := ComputeStats(reports), ComputeStats(reports + [x]);
      && after.total == before.total + 1
      && after.approved == before.approved + (if x.status == Approved then 1 else 0)
      && after.pending == before.pending + (if x.status == Pending then 1 else 0)
      && after.rejected == before.rejected + (if x.status == Rejected then 1 else 0)
  {
    var rows := reports + [x];
    assert rows[..|rows| - 1] == reports;
    CountStatusLast(rows, Approved);
    CountStatusLast(rows, Pending);
    CountStatusLast(rows, Rejected);
  }

  /** The status is one of the three moderation states. */
  predicate KnownStatus(r: Report)
  {
    r.status == Approved || r.status == Pending || r.status == Rejected
  }

  /** The three counts never exceed the total, and add up to it exactly when every report
      has one of the three statuses. */
  lemma {:induction false} StatsPartition(reports: seq<Report>)
    ensures var s := ComputeStats(reports);
      && s.approved + s.pending + s.rejected <= s.total
      && (s.approved + s.pending + s.rejected == s.total <==> forall i :: 0 <= i < |reports| ==> KnownStatus(reports[i]))
    decreases |reports|
  {
    if reports != [] {
      var init := reports[..|reports| - 1];
      var last := reports[|reports| - 1];
      StatsPartition(init);
      assert reports == init + [last];
      ComputeStatsAppend(init, last);
      assert (forall i :: 0 <= i < |reports| ==> KnownStatus(reports[i]))
             <==> (forall i :: 0 <= i < |init| ==> KnownStatus(init[i])) && KnownStatus(last);
    }
  }

  /** The level badge of this page. */
  datatype AccessBadge = AccessibleBadge | PartlyAccessibleBadge | NotAccessibleBadge | UnknownAccessBadge

  /** Each level badge has its own text. */
  function AccessBadgeText(b: AccessBadge): (t: string)
    ensures t == "접근 가능" <==> b == AccessibleBadge
    ensures t == "부분 접근 가능" <==> b == PartlyAccessibleBadge
    ensures t == "접근 불가" <==> b == NotAccessibleBadge
    ensures t == "알 수 없음" <==> b == UnknownAccessBadge
  {
    match b
    case AccessibleBadge => "접근 가능"
    case PartlyAccessibleBadge => "부분 접근 가능"
    case NotAccessibleBadge => "접근 불가"
    case UnknownAccessBadge => "알 수 없음"
  }

  /** `getAccessibilityBadge`: recognises "accessible", "partially_accessible" and
      "not_accessible"; every other level gets the unknown badge. */
  function AccessibilityBadge(level: string): (b: AccessBadge)
    ensures b == UnknownAccessBadge
            <==> level != "accessible" && level != "partially_accessible" && level != "not_accessible"
    ensures level == "accessible" ==> b == AccessibleBadge
    ensures level == "partially_accessible" ==> b == PartlyAccessibleBadge
    ensures level == "not_accessible" ==> b == NotAccessibleBadge
  {
    match level
    case "accessible" => AccessibleBadge
    case "partially_accessible" => PartlyAccessibleBadge
    case "not_accessible" => NotAccessibleBadge
    case _ => UnknownAccessBadge
  }

  /** Every level the submission forms write is shown as unknown on this page. */
  lemma SubmittedLevelsShowUnknown(l: Level)
    ensures AccessibilityBadge(LevelKey(l)) == UnknownAccessBadge
  {
  }

  datatype StatusBadge = ApprovedBadge | RejectedBadge | UnderReviewBadge

  /** Each status badge has its own text. */
  function StatusBadgeText(b: StatusBadge): (t: string)
    ensures t == "승인됨" <==> b == ApprovedBadge
    ensures t == "거부됨" <==> b == RejectedBadge
    ensures t == "검토 중" <==> b == UnderReviewBadge
  {
    match b
    case ApprovedBadge => "승인됨"
    case RejectedBadge => "거부됨"
    case UnderReviewBadge => "검토 중"
  }

  /** `getStatusBadge`: "under review" for every status other than approved and rejected,
      unknown strings included. */
  function StatusBadgeOf(status: string): (b: StatusBadge)
    ensures b == UnderReviewBadge <==> status != Approved && status != Rejected
    ensures b == ApprovedBadge <==> status == Approved
  {
    if status == Approved then ApprovedBadge
    else if status == Rejected then RejectedBadge
    else UnderReviewBadge
  }

  /** `categoryLabels`. */
  const CategoryLabels: map<string, string> := map[
    "ramp" := "경사로",
    "elevator" := "엘리베이터",
    "parking" := "주차",
    "restroom" := "화장실",
    "entrance" := "출입구",
    "etc" := "기타"]

  /** The category shown on a report: its label when the table has one, else the raw string. */
  function CategoryDisplay(category: string): (r: string)
    ensures category in CategoryLabels ==> r == CategoryLabels[category]
    ensures category !in CategoryLabels ==> r == category
    ensures category == "ramp" ==> r == "경사로"
    ensures category == "elevator" ==> r == "엘리베이터"
    ensures category == "parking" ==> r == "주차"
    ensures category == "restroom" ==> r == "화장실"
    ensures category == "entrance" ==> r == "출입구"
    ensures category == "etc" ==> r == "기타"
  {
    if category in CategoryLabels then CategoryLabels[category] else category
  }

  /** The table covers exactly six categories, and no two share a label. */
  lemma CategoryLabelsShape()
    ensures CategoryLabels.Keys == {"ramp", "elevator", "parking", "restroom", "entrance", "etc"}
    ensures CategoryLabels["ramp"] == "경사로" && CategoryLabels["elevator"] == "엘리베이터"
    ensures CategoryLabels["parking"] == "주차" && CategoryLabels["restroom"] == "화장실"
    ensures CategoryLabels["entrance"] == "출입구" && CategoryLabels["etc"] == "기타"
    ensures forall a, b :: a in CategoryLabels && b in CategoryLabels && a != b ==> CategoryLabels[a] != CategoryLabels[b]
  {
  }
}
