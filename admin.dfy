/** The moderation page: the fetched report list, the search box and the two dropdown filters,
    the selection of pending reports, single and bulk approve/reject, and the badges. */
module Admin {
  import opened Wrappers
  import opened Seqs
  import opened Reports

  /** The dropdown value that switches a filter off. */
  const All: string := "all"

  /** What the filter effect keeps, stated directly: the search query (when one is typed)
      matches, and so do the status and level dropdowns (when not set to "all"). */
  predicate MatchesFilters(r: Report, query: string, statusFilter: string, levelFilter: string)
  {
    && (query == "" || MatchesQuery(r, query))
    && (statusFilter == All || r.status == statusFilter)
    && (levelFilter == All || r.accessibilityLevel == levelFilter)
  }

  /** The list the filter effect computes: the query step, then the status step, then the
      level step, each skipped when its input is off. */
  function Shown(reports: seq<Report>, query: string, statusFilter: string, levelFilter: string): (r: seq<Report>)
    ensures |r| <= |reports|
    ensures forall x :: multiset(r)[x] == if MatchesFilters(x, query, statusFilter, levelFilter) then multiset(reports)[x] else 0
  {
    var afterQuery := if query != "" then Select(reports, TextQuery(query)) else reports;
    var afterStatus := if statusFilter != All then Select(afterQuery, StatusIs(statusFilter)) else afterQuery;
    if levelFilter != All then Select(afterStatus, LevelIs(levelFilter)) else afterStatus
  }

  /** The shown list keeps the fetched order: it is a subsequence of the reports. */
  lemma {:induction false} ShownIsSubsequence(reports: seq<Report>, query: string, statusFilter: string, levelFilter: string)
    ensures IsSubsequence(Shown(reports, query, statusFilter, levelFilter), reports)
  {
    var afterQuery := if query != "" then Select(reports, TextQuery(query)) else reports;
    var afterStatus := if statusFilter != All then Select(afterQuery, StatusIs(statusFilter)) else afterQuery;
    SubsequenceReflexive(reports);
    SubsequenceReflexive(afterQuery);
    SubsequenceReflexive(afterStatus);
    SubsequenceTransitive(afterStatus, afterQuery, reports);
    SubsequenceTransitive(Shown(reports, query, statusFilter, levelFilter), afterStatus, reports);
  }

  /** A report is shown exactly when it was fetched and passes every active filter. */
  lemma {:induction false} ShownMembers(reports: seq<Report>, query: string, statusFilter: string, levelFilter: string, x: Report)
    ensures x in Shown(reports, query, statusFilter, levelFilter)
            <==> x in reports && MatchesFilters(x, query, statusFilter, levelFilter)
  {
    var afterQuery := if query != "" then Select(reports, TextQuery(query)) else reports;
    var afterStatus := if statusFilter != All then Select(afterQuery, StatusIs(statusFilter)) else afterQuery;
    SelectMembers(reports, TextQuery(query), x);
    SelectMembers(afterQuery, StatusIs(statusFilter), x);
    SelectMembers(afterStatus, LevelIs(levelFilter), x);
  }

  /** With no query and both dropdowns on "all" the whole list is shown. */
  lemma ShownUnfiltered(reports: seq<Report>)
    ensures Shown(reports, "", All, All) == reports
  {
  }

  /** The checkbox handler: the id is added when absent and removed when present. */
  function Toggled(selection: set<string>, id: string): (r: set<string>)
    ensures id in r <==> id !in selection
    ensures forall other :: other != id ==> (other in r <==> other in selection)
  {
    if id in selection then selection - {id} else selection + {id}
  }

  /** Ticking a checkbox twice gives back the selection it started from. */
  lemma ToggledTwice(selection: set<string>, id: string)
    ensures Toggled(Toggled(selection, id), id) == selection
  {
  }

  /** Checkboxes and the approve/reject buttons are rendered for pending reports only. */
  predicate OffersModeration(r: Report)
  {
    r.status == Pending
  }

  /** The two moderation decisions and the status each one writes. */
  datatype Decision = Approve | Reject

  function DecisionStatus(d: Decision): (s: string)
    ensures s == Approved <==> d == Approve
    ensures s == Rejected <==> d == Reject
    ensures s != Pending
  {
    match d
    case Approve => Approved
    case Reject => Rejected
  }

  /** A decided report leaves the moderation queue: it no longer gets a checkbox or buttons. */
  lemma DecidedReportLeavesQueue(r: Report, d: Decision, reviewer: string, at: string)
    ensures !OffersModeration(Patched(r, Review(DecisionStatus(d), reviewer, at)))
  {
  }

  /** The admin page's status labels: 대기중, 승인 and 거부. */
  const AdminStatusLabels: StatusLabels := StatusLabels("대기중", "승인", "거부")

  /** `getStatusBadge` of the admin page: 대기중 on yellow, 승인 on green, 거부 on red, and any
      other status as itself on grey. */
  function StatusBadge(status: string): (b: Badge)
    ensures status == Pending ==> b == Badge("대기중", "bg-yellow-500")
    ensures status == Approved ==> b == Badge("승인", "bg-green-500")
    ensures status == Rejected ==> b == Badge("거부", "bg-red-500")
    ensures status != Pending && status != Approved && status != Rejected ==> b == Badge(status, FallbackColor)
  {
    StatusBadgeFrom(AdminStatusLabels, status)
  }

  datatype StatusChangeOutcome = SessionExpired | StatusChanged

  datatype BulkOutcome = NothingSelected | BulkCancelled | BulkSessionExpired | BulkApplied(count: nat)

  class AdminPage {
    const db: ReportTable
    var reports: seq<Report>
    var filteredReports: seq<Report>
    var selected: set<string>
    var searchQuery: string
    var statusFilter: string
    var levelFilter: string

    /** The filter effect has run on the current reports and inputs. */
    ghost predicate Valid()
      reads this
    {
      filteredReports == Shown(reports, searchQuery, statusFilter, levelFilter)
    }

    /** Number of fetched reports awaiting moderation (`pendingCount`). */
    function PendingCount(): (n: nat)
      reads this
      ensures n <= |reports|
      ensures n == 0 <==> forall i :: 0 <= i < |reports| ==> reports[i].status != Pending
    {
      CountStatusZeroIff(reports, Pending);
      CountStatus(reports, Pending)
    }

    constructor (db: ReportTable)
      ensures this.db == db && Valid()
      ensures reports == [] && filteredReports == [] && selected == {}
      ensures searchQuery == "" && statusFilter == All && levelFilter == All
    {
      this.db := db;
      reports, filteredReports, selected := [], [], {};
      searchQuery, statusFilter, levelFilter := "", All, All;
    }

    /** The filter effect: copy the reports, then narrow the copy one step at a time. */
    method ApplyFilters()
      modifies this`filteredReports
      ensures Valid()
    {
      var filtered := reports;
      if searchQuery != "" {
        filtered := Select(filtered, TextQuery(searchQuery));
      }
      if statusFilter != All {
        filtered := Select(filtered, StatusIs(statusFilter));
      }
      if levelFilter != All {
        filtered := Select(filtered, LevelIs(levelFilter));
      }
      filteredReports := filtered;
    }

    /** Typing in the search box; the filter effect runs again. */
    method SetSearchQuery(query: string)
      modifies this`searchQuery, this`filteredReports
      ensures searchQuery == query && Valid()
    {
      searchQuery := query;
      ApplyFilters();
    }

    method SetStatusFilter(filter: string)
      modifies this`statusFilter, this`filteredReports
      ensures statusFilter == filter && Valid()
    {
      statusFilter := filter;
      ApplyFilters();
    }

    method SetLevelFilter(filter: string)
      modifies this`levelFilter, this`filteredReports
      ensures levelFilter == filter && Valid()
    {
      levelFilter := filter;
      ApplyFilters();
    }

    /** `fetchReports`: load the table, after which the filter effect runs again. */
    method FetchReports()
      modifies this`reports, this`filteredReports
      ensures reports == db.rows && Valid()
    {
      reports := db.rows;
      ApplyFilters();
    }

    /** The checkbox of one report. */
    method ToggleSelection(id: string)
      modifies this`selected
      ensures selected == Toggled(old(selected), id)
    {
      var s := selected;
      if id in s {
        s := s - {id};
      } else {
        s := s + {id};
      }
      selected := s;
    }

    /** `handleStatusChange`: with a live session, write the decision, the reviewer and the
        time to the report with that id, then fetch again. Without one, nothing changes. */
    method HandleStatusChange(reportId: string, decision: Decision, session: Option<string>, now: string)
      returns (outcome: StatusChangeOutcome)
      modifies this`reports, this`filteredReports, db
      ensures Valid() || session.None?
      ensures session.None? ==> outcome == SessionExpired && db.rows == old(db.rows)
      ensures session.None? ==> reports == old(reports) && filteredReports == old(filteredReports)
      ensures session.Some? ==> outcome == StatusChanged
      ensures session.Some? ==>
        db.rows == UpdateWhere(old(db.rows), {reportId}, Review(DecisionStatus(decision), session.value, now))
      ensures session.Some? ==> reports == db.rows
      ensures session.Some? ==> PendingCount() <= CountStatus(old(db.rows), Pending)
    {
      if session.None? {
        return SessionExpired;
      }
      db.rows := UpdateWhere(db.rows, {reportId}, Review(DecisionStatus(decision), session.value, now));
      outcome := StatusChanged;
      FetchReports();
      ReviewKeepsPendingBound(old(db.rows), {reportId}, Review(DecisionStatus(decision), session.value, now));
    }

    /** `handleBulkAction`: with something selected, the dialog confirmed and a live session,
        write the same decision to every selected id (whether or not the current filter shows
        it), each with the time `stamp(id)` at which its request was built, then clear the
        selection and fetch again. */
    method HandleBulkAction(decision: Decision, confirmed: bool, session: Option<string>, stamp: string -> string)
      returns (outcome: BulkOutcome)
      modifies this`reports, this`filteredReports, this`selected, db
      ensures old(selected) == {} ==> outcome == NothingSelected
      ensures old(selected) != {} && !confirmed ==> outcome == BulkCancelled
      ensures old(selected) != {} && confirmed && session.None? ==> outcome == BulkSessionExpired
      ensures !outcome.BulkApplied? ==>
        db.rows == old(db.rows) && selected == old(selected) && reports == old(reports)
        && filteredReports == old(filteredReports)
      ensures old(selected) != {} && confirmed && session.Some? ==>
        && outcome == BulkApplied(|old(selected)|)
        && db.rows == ReviewEach(old(db.rows), old(selected), DecisionStatus(decision), session.value, stamp)
        && selected == {} && reports == db.rows && Valid()
        && PendingCount() <= CountStatus(old(db.rows), Pending)
    {
      if selected == {} {
        return NothingSelected;
      }
      if !confirmed {
        return BulkCancelled;
      }
      if session.None? {
        return BulkSessionExpired;
      }
      db.UpdateEach(selected, DecisionStatus(decision), session.value, stamp);
      outcome := BulkApplied(|selected|);
      selected := {};
      FetchReports();
      ReviewEachKeepsPendingBound(old(db.rows), old(selected), DecisionStatus(decision), session.value, stamp);
    }
  }

  /** Moderating reports, one at a time or in bulk, never adds to the pending count. */
  lemma ModerationNeverAddsPending(rows: seq<Report>, id: string, ids: set<string>, decision: Decision, reviewer: string, at: string, stamp: string -> string)
    ensures CountStatus(UpdateWhere(rows, {id}, Review(DecisionStatus(decision), reviewer, at)), Pending)
            <= CountStatus(rows, Pending)
    ensures CountStatus(ReviewEach(rows, ids, DecisionStatus(decision), reviewer, stamp), Pending)
            <= CountStatus(rows, Pending)
  {
    ReviewKeepsPendingBound(rows, {id}, Review(DecisionStatus(decision), reviewer, at));
    ReviewEachKeepsPendingBound(rows, ids, DecisionStatus(decision), reviewer, stamp);
  }
}
