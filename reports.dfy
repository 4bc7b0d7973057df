/** The `accessibility_reports` table shared by every page: its record, the closed vocabularies of
    its level and status columns, the row filters the pages apply (`.filter` on the client, `.eq`,
    `.gte` and `.lte` on the backend), row updates selected by id, and the table itself. */
module Reports {
  import opened Wrappers
  import opened Text
  import opened Seqs

  /** One row of `accessibility_reports`. Coordinates are exact reals; `details`, `photo_url`,
      `reviewed_by` and `reviewed_at` are nullable columns. */
  datatype Report = Report(
    id: string,
    userId: string,
    locationName: string,
    latitude: real,
    longitude: real,
    accessibilityLevel: string,
    category: string,
    details: Option<string>,
    photoUrl: Option<string>,
    status: string,
    createdAt: string,
    reviewedBy: Option<string>,
    reviewedAt: Option<string>)

  // ----- The closed vocabulary of `accessibility_level` written by the submission forms -----

  datatype Level = Good | Moderate | Difficult

  function LevelKey(l: Level): string
  {
    match l
    case Good => "good"
    case Moderate => "moderate"
    case Difficult => "difficult"
  }

  /** Recognises a stored level string; the exact inverse of `LevelKey`. */
  function ParseLevel(s: string): (r: Option<Level>)
    ensures r.Some? ==> LevelKey(r.value) == s
    ensures r.None? ==> forall l :: LevelKey(l) != s
  {
    if s == "good" then Some(Good)
    else if s == "moderate" then Some(Moderate)
    else if s == "difficult" then Some(Difficult)
    else None
  }

  lemma ParseLevelKey(l: Level)
    ensures ParseLevel(LevelKey(l)) == Some(l)
  {
  }

  /** `getLevelLabel` on a known level: 양호, 보통, 어려움, one label per level. */
  function LevelLabel(l: Level): (t: string)
    ensures t == "양호" <==> l == Good
    ensures t == "보통" <==> l == Moderate
    ensures t == "어려움" <==> l == Difficult
  {
    match l
    case Good => "양호"
    case Moderate => "보통"
    case Difficult => "어려움"
  }

  /** `getLevelColor` on a known level: green, yellow, red, one colour per level, never the
      grey of an unknown level. */
  function LevelColor(l: Level): (c: string)
    ensures c == "bg-green-500" <==> l == Good
    ensures c == "bg-yellow-500" <==> l == Moderate
    ensures c == "bg-red-500" <==> l == Difficult
    ensures c != FallbackColor
  {
    match l
    case Good => "bg-green-500"
    case Moderate => "bg-yellow-500"
    case Difficult => "bg-red-500"
  }

  /** A rendered badge: its text and its style class. */
  datatype Badge = Badge(text: string, className: string)

  const FallbackColor: string := "bg-gray-500"

  /** The level badge: a known level gets its label and colour, any other string is shown
      as itself on a grey badge. */
  function LevelBadge(level: string): (b: Badge)
    ensures ParseLevel(level).None? ==> b == Badge(level, FallbackColor)
    ensures ParseLevel(level).Some? ==> b == Badge(LevelLabel(ParseLevel(level).value), LevelColor(ParseLevel(level).value))
  {
    match ParseLevel(level)
    case Some(l) => Badge(LevelLabel(l), LevelColor(l))
    case None => Badge(level, FallbackColor)
  }

  /** The grey colour marks exactly the unrecognised levels, and the three known levels
      have three different badges, so a badge identifies the level it shows. */
  lemma {:induction false} LevelBadgeDistinguishes(level: string, other: string)
    ensures LevelBadge(level).className == FallbackColor <==> ParseLevel(level).None?
    ensures ParseLevel(level).Some? && ParseLevel(other).Some? && LevelBadge(level) == LevelBadge(other)
            ==> level == other
  {
    match ParseLevel(level)
    case None =>
    case Some(l) =>
      match ParseLevel(other)
      case None =>
      case Some(m) =>
        assert LevelBadge(level) == Badge(LevelLabel(l), LevelColor(l));
        assert LevelBadge(other) == Badge(LevelLabel(m), LevelColor(m));
  }

  // ----- The details text of both report forms -----

  const MaxDetailsLength: nat := 2000

  datatype DetailsIssue = DetailsBlank | DetailsTooLong

  /** `z.string().trim().min(1).max(2000)`: the first bound the trimmed details break. */
  function CheckDetails(details: string): (r: Option<DetailsIssue>)
    ensures r.None? <==> 1 <= |Trim(details)| <= MaxDetailsLength
    ensures r == Some(DetailsBlank) <==> Trim(details) == []
  {
    var t := Trim(details);
    if |t| < 1 then Some(DetailsBlank)
    else if |t| > MaxDetailsLength then Some(DetailsTooLong)
    else None
  }

  /** Details pass exactly when they hold a character other than trim space and their trimmed
      length is at most 2000; a string that already passed passes again once trimmed. */
  lemma {:induction false} CheckDetailsIff(details: string)
    ensures CheckDetails(details).None?
            <==> (exists i :: 0 <= i < |details| && !IsTrimSpace(details[i])) && |Trim(details)| <= MaxDetailsLength
    ensures CheckDetails(details).None? ==> CheckDetails(Trim(details)).None?
  {
    TrimBlankIff(details);
    TrimIdempotent(details);
  }

  // ----- The moderation vocabulary of `status` -----

  const Pending: string := "pending"
  const Approved: string := "approved"
  const Rejected: string := "rejected"

  /** The label each page gives the three statuses. */
  datatype StatusLabels = StatusLabels(pending: string, approved: string, rejected: string)

  /** The status badge lookup of the admin and review pages: the three statuses get the page's
      label on yellow, green and red; any other status is shown as itself on grey. */
  function StatusBadgeFrom(labels: StatusLabels, status: string): (b: Badge)
    ensures b.className == FallbackColor <==> status != Pending && status != Approved && status != Rejected
    ensures b.className == FallbackColor ==> b.text == status
    ensures status == Pending ==> b == Badge(labels.pending, "bg-yellow-500")
    ensures status == Approved ==> b == Badge(labels.approved, "bg-green-500")
    ensures status == Rejected ==> b == Badge(labels.rejected, "bg-red-500")
  {
    if status == Pending then Badge(labels.pending, "bg-yellow-500")
    else if status == Approved then Badge(labels.approved, "bg-green-500")
    else if status == Rejected then Badge(labels.rejected, "bg-red-500")
    else Badge(status, FallbackColor)
  }

  // ----- Row filters -----

  /** One filter step over report rows. */
  datatype Criterion =
    | TextQuery(query: string)         // the admin search box
    | StatusIs(status: string)         // `r.status === s`, or `.eq("status", s)`
    | LevelIs(level: string)           // `r.accessibility_level === l`
    | OwnedBy(userId: string)          // `.eq("user_id", u)`
    | NearPlace(lat: real, lon: real)  // the ±0.001 box around a place, bounds included

  const NearbyRadius: real := 0.001

  /** The lower-cased query occurs at some position of the lower-cased name, category or
      non-null details; an empty query matches every report. */
  function MatchesQuery(r: Report, query: string): (b: bool)
    ensures query == "" ==> b
    ensures b <==>
      || (exists i :: OccursAt(ToLower(r.locationName), ToLower(query), i))
      || (exists i :: OccursAt(ToLower(r.category), ToLower(query), i))
      || (r.details.Some? && exists i :: OccursAt(ToLower(r.details.value), ToLower(query), i))
  {
    var q := ToLower(query);
    IncludesIff(ToLower(r.locationName), q);
    IncludesIff(ToLower(r.category), q);
    IncludesIff(ToLower(if r.details.Some? then r.details.value else ""), q);
    assert query == "" ==> OccursAt(ToLower(r.locationName), q, 0);
    || Includes(ToLower(r.locationName), q)
    || Includes(ToLower(r.category), q)
    || (r.details.Some? && Includes(ToLower(r.details.value), q))
  }

  predicate Accepts(c: Criterion, r: Report)
  {
    match c
    case TextQuery(q) => MatchesQuery(r, q)
    case StatusIs(s) => r.status == s
    case LevelIs(l) => r.accessibilityLevel == l
    case OwnedBy(u) => r.userId == u
    case NearPlace(lat, lon) =>
      && lat - NearbyRadius <= r.latitude <= lat + NearbyRadius
      && lon - NearbyRadius <= r.longitude <= lon + NearbyRadius
  }

  /** The rows that pass `c`, in their original order: every passing row is kept as often as
      it occurs, every other row is dropped. */
  function Select(rows: seq<Report>, c: Criterion): (r: seq<Report>)
    ensures |r| <= |rows|
    ensures IsSubsequence(r, rows)
    ensures forall x {:trigger multiset(r)[x]} :: multiset(r)[x] == if Accepts(c, x) then multiset(rows)[x] else 0
    decreases |rows|
  {
    if rows == [] then []
    else
      var init := Select(rows[..|rows| - 1], c);
      var last := rows[|rows| - 1];
      assert rows == rows[..|rows| - 1] + [last];
      if Accepts(c, last) then
        assert (init + [last])[..|init|] == init;
        init + [last]
      else init
  }

  /** A row is selected exactly when it is one of the rows and passes the criterion. */
  lemma {:induction false} SelectMembers(rows: seq<Report>, c: Criterion, x: Report)
    ensures x in Select(rows, c) <==> x in rows && Accepts(c, x)
  {
    assert x in Select(rows, c) <==> multiset(Select(rows, c))[x] > 0;
    assert x in rows <==> multiset(rows)[x] > 0;
  }

  /** Selecting rows that all pass keeps every one of them. */
  lemma {:induction false} SelectKeepsAll(rows: seq<Report>, c: Criterion)
    requires forall i :: 0 <= i < |rows| ==> Accepts(c, rows[i])
    ensures Select(rows, c) == rows
    decreases |rows|
  {
    if rows != [] {
      SelectKeepsAll(rows[..|rows| - 1], c);
      assert rows == rows[..|rows| - 1] + [rows[|rows| - 1]];
    }
  }

  /** The number of rows whose status is `status`: `rows.filter(r => r.status === status).length`. */
  function CountStatus(rows: seq<Report>, status: string): (n: nat)
    ensures n <= |rows|
  {
    |Select(rows, StatusIs(status))|
  }

  /** Counting over one more row adds one exactly when that row has the status. */
  lemma CountStatusLast(rows: seq<Report>, status: string)
    requires rows != []
    ensures CountStatus(rows, status)
            == CountStatus(rows[..|rows| - 1], status) + (if rows[|rows| - 1].status == status then 1 else 0)
  {
  }

  /** No row is counted exactly when no row has the status. */
  lemma {:induction false} CountStatusZeroIff(rows: seq<Report>, status: string)
    ensures CountStatus(rows, status) == 0 <==> forall i :: 0 <= i < |rows| ==> rows[i].status != status
    decreases |rows|
  {
    if rows != [] {
      var init := rows[..|rows| - 1];
      CountStatusLast(rows, status);
      CountStatusZeroIff(init, status);
      assert forall i :: 0 <= i < |init| ==> init[i] == rows[i];
    }
  }

  // ----- Row updates -----

  /** The columns an `update` call writes. */
  datatype Patch =
    | Review(status: string, reviewer: string, at: string)    // an admin's moderation decision
    | Edit(details: string, level: string)                     // an owner's edit, which resets status

  /** A row after `p` is written to it. A review sets status, `reviewed_by` and `reviewed_at`;
      an edit sets details and level and puts the row back to pending. No other column changes. */
  function Patched(r: Report, p: Patch): (q: Report)
    ensures q.id == r.id && q.userId == r.userId && q.locationName == r.locationName
    ensures q.latitude == r.latitude && q.longitude == r.longitude
    ensures q.category == r.category && q.photoUrl == r.photoUrl && q.createdAt == r.createdAt
    ensures p.Review? ==> q.status == p.status && q.reviewedBy == Some(p.reviewer) && q.reviewedAt == Some(p.at)
    ensures p.Review? ==> q.details == r.details && q.accessibilityLevel == r.accessibilityLevel
    ensures p.Edit? ==> q.details == Some(p.details) && q.accessibilityLevel == p.level && q.status == Pending
    ensures p.Edit? ==> q.reviewedBy == r.reviewedBy && q.reviewedAt == r.reviewedAt
  {
    match p
    case Review(s, who, at) => r.(status := s, reviewedBy := Some(who), reviewedAt := Some(at))
    case Edit(d, l) => r.(details := Some(d), accessibilityLevel := l, status := Pending)
  }

  /** Writing the same patch twice is writing it once. */
  lemma PatchedIdempotent(r: Report, p: Patch)
    ensures Patched(Patched(r, p), p) == Patched(r, p)
  {
  }

  /** `update(p).eq("id", x)` for every `x` in `ids`: the rows whose id is in `ids` are patched,
      every other row is left as it was, and no row is added, removed or moved. */
  function UpdateWhere(rows: seq<Report>, ids: set<string>, p: Patch): (u: seq<Report>)
    ensures |u| == |rows|
    ensures forall i :: 0 <= i < |rows| && rows[i].id in ids ==> u[i] == Patched(rows[i], p)
    ensures forall i :: 0 <= i < |rows| && rows[i].id !in ids ==> u[i] == rows[i]
    decreases |rows|
  {
    if rows == [] then []
    else
      var last := rows[|rows| - 1];
      UpdateWhere(rows[..|rows| - 1], ids, p) + [if last.id in ids then Patched(last, p) else last]
  }

  /** One review request per id of `ids`, each stamped with the time `stamp(id)` at which its
      own request was built: the rows whose id is in `ids` get the status, the reviewer and
      their own time, every other row is left as it was, and no row is added, removed or moved. */
  function ReviewEach(rows: seq<Report>, ids: set<string>, status: string, reviewer: string, stamp: string -> string): (u: seq<Report>)
    ensures |u| == |rows|
    ensures forall i :: 0 <= i < |rows| && rows[i].id in ids ==>
      u[i] == Patched(rows[i], Review(status, reviewer, stamp(rows[i].id)))
    ensures forall i :: 0 <= i < |rows| && rows[i].id !in ids ==> u[i] == rows[i]
    decreases |rows|
  {
    if rows == [] then []
    else
      var last := rows[|rows| - 1];
      ReviewEach(rows[..|rows| - 1], ids, status, reviewer, stamp)
        + [if last.id in ids then Patched(last, Review(status, reviewer, stamp(last.id))) else last]
  }

  /** Reviewing the ids of `done` and then the one request for `id` is one review of `done + {id}`. */
  lemma {:induction false} ReviewEachExtend(rows: seq<Report>, done: set<string>, id: string, status: string, reviewer: string, stamp: string -> string)
    ensures UpdateWhere(ReviewEach(rows, done, status, reviewer, stamp), {id}, Review(status, reviewer, stamp(id)))
            == ReviewEach(rows, done + {id}, status, reviewer, stamp)
  {
    var a := UpdateWhere(ReviewEach(rows, done, status, reviewer, stamp), {id}, Review(status, reviewer, stamp(id)));
    var b := ReviewEach(rows, done + {id}, status, reviewer, stamp);
    forall i | 0 <= i < |rows| ensures a[i] == b[i] {
      PatchedIdempotent(rows[i], Review(status, reviewer, stamp(rows[i].id)));
    }
  }

  /** When every request happens to get the same time, the reviews are one update of the whole
      id set with that time. */
  lemma {:induction false} ReviewEachSameTime(rows: seq<Report>, ids: set<string>, status: string, reviewer: string, stamp: string -> string, at: string)
    requires forall x :: x in ids ==> stamp(x) == at
    ensures ReviewEach(rows, ids, status, reviewer, stamp) == UpdateWhere(rows, ids, Review(status, reviewer, at))
  {
    var a, b := ReviewEach(rows, ids, status, reviewer, stamp), UpdateWhere(rows, ids, Review(status, reviewer, at));
    assert forall i :: 0 <= i < |rows| ==> a[i] == b[i];
  }

  /** Reviews writing a status other than "pending" never raise the pending count. */
  lemma {:induction false} ReviewEachKeepsPendingBound(rows: seq<Report>, ids: set<string>, status: string, reviewer: string, stamp: string -> string)
    requires status != Pending
    ensures CountStatus(ReviewEach(rows, ids, status, reviewer, stamp), Pending) <= CountStatus(rows, Pending)
    decreases |rows|
  {
    if rows != [] {
      var init := rows[..|rows| - 1];
      ReviewEachKeepsPendingBound(init, ids, status, reviewer, stamp);
      var u := ReviewEach(rows, ids, status, reviewer, stamp);
      assert u[..|u| - 1] == ReviewEach(init, ids, status, reviewer, stamp);
    }
  }

  /** A review patch never creates a pending row unless it writes "pending" itself. */
  lemma {:induction false} ReviewKeepsPendingBound(rows: seq<Report>, ids: set<string>, p: Patch)
    requires p.Review? && p.status != Pending
    ensures CountStatus(UpdateWhere(rows, ids, p), Pending) <= CountStatus(rows, Pending)
    decreases |rows|
  {
    if rows != [] {
      var init := rows[..|rows| - 1];
      ReviewKeepsPendingBound(init, ids, p);
      var u := UpdateWhere(rows, ids, p);
      assert u[..|u| - 1] == UpdateWhere(init, ids, p);
    }
  }

  /** The backend table, in the order the pages' queries return it. */
  class ReportTable {
    var rows: seq<Report>

    constructor (initial: seq<Report>)
      ensures rows == initial
    {
      rows := initial;
    }

    /** One `update(...).eq("id", x)` request per id of `ids`, issued in any order, each
        reviewing its row with its own time `stamp(x)`. */
    method UpdateEach(ids: set<string>, status: string, reviewer: string, stamp: string -> string)
      modifies this
      ensures rows == ReviewEach(old(rows), ids, status, reviewer, stamp)
    {
      ghost var start := rows;
      ghost var done: set<string> := {};
      assert ReviewEach(start, done, status, reviewer, stamp) == start;
      var todo := ids;
      while todo != {}
        invariant todo + done == ids && todo !! done
        invariant rows == ReviewEach(start, done, status, reviewer, stamp)
        decreases |todo|
      {
        var id :| id in todo;
        ReviewEachExtend(start, done, id, status, reviewer, stamp);
        rows := UpdateWhere(rows, {id}, Review(status, reviewer, stamp(id)));
        todo, done := todo - {id}, done + {id};
      }
    }
  }
}
