# A verified model of the tech4impact accessibility map client

tech4impact is a React web client for a wheelchair-accessibility map. Reports about places are stored in the backend table `accessibility_reports`. A report has a level of good, moderate or difficult, a category, free-text details and coordinates. Only the place dialog inserts rows into that table. The older report form (`ReviewModal`) checks its three required fields, reports success, closes and resets; it stores nothing, and its level choices offer "easy" where the table's level keys have "good". Three pages read and update the table:

- the admin page moderates reports (approve or reject);
- the owner's review page lets a user edit their reports, which sends them back to moderation;
- the profile page shows per-user statistics.

A place dialog lists the approved reports around a place. The road view can play back a route point by point. A bottom sheet describes a single barrier on the map.

This project models those pieces in Dafny and proves their properties. Each source file has one module:

- `Admin`
- `Profile`
- `MyRoutes`
- `MyReviews`
- `PlaceReviewModal`
- `RoadView`
- `ReviewModal`
- `BarrierDetailSheet`

Shared modules:

- `Reports`: the report record, its level and status vocabularies, the row filters, the row updates and the `ReportTable` class. `ReportTable` stands for the backend table.
- `Text`: JavaScript's `trim`, `toLowerCase`, `includes` and decimal number rendering.
- `Seqs`: the subsequence relation.
- `Wrappers`: `Option` and `Outcome`.

Stateful components are classes whose methods change their fields:

- the admin page;
- the review editor;
- the place dialog;
- the road-view player;
- the report form.

A method's postcondition ties its new state to the specification functions. Lemmas prove what the source promises about those functions.

Modelling choices:

- The signed-in session or user, the current time and the `confirm()` answer are method parameters.
- Backend queries return rows in the table's stored order.
- A timer tick is an explicit call of `RoadViewPlayer.Tick`.
- The road-view code comment says at most 50 points are shown. The code does not keep that bound: `RoadView.NinetyNinePointRoute` proves that a 99-point route shows all 99 points. The model follows the code.

## Model

| member | source | states |
|---|---|---|
| Reports.ParseLevel | src/pages/MyReviews.tsx:38 | recognises exactly the three level keys good, moderate and difficult; it is the inverse of `LevelKey` |
| Reports.ParseLevelKey | src/components/PlaceReviewModal.tsx:22 | every level key the schemas accept parses back to its level |
| Reports.LevelLabel | src/pages/MyReviews.tsx:166-173 | `getLevelLabel` on the three keys: 양호, 보통 and 어려움, each label belonging to exactly one level |
| Reports.LevelColor | src/pages/MyReviews.tsx:157-164 | `getLevelColor` on the three keys: green, yellow and red, each colour belonging to exactly one level and none of them the grey used for unknown levels |
| Reports.LevelBadge | src/pages/Admin.tsx:133-140 | a known level gets its Korean label on its own colour (`LevelLabel`, `LevelColor`); any other string is shown as itself on the grey class (the same fallback as `getLevelLabel`/`getLevelColor` in MyReviews and PlaceReviewModal) |
| Reports.LevelBadgeDistinguishes | src/pages/Admin.tsx:133-140 | the grey class appears iff the level is unknown; two known levels with equal badges are the same level |
| Reports.CheckDetails | src/pages/MyReviews.tsx:37 | details pass iff their trimmed length is between 1 and 2000 inclusive; they are blank iff they trim to the empty string |
| Reports.CheckDetailsIff | src/components/PlaceReviewModal.tsx:18 | details pass iff some character is not trim whitespace and the trimmed length is at most 2000; passing details still pass after trimming |
| Reports.StatusBadgeFrom | src/pages/Admin.tsx:142-149 | pending, approved and rejected get the page's own labels on yellow, green and red (대기중/승인/거부 on the admin page; 승인 대기/승인됨/거부됨 in `getStatusLabel`, src/pages/MyReviews.tsx:175-182); any other status is shown as itself, and only then on the grey class |
| Reports.Select | src/pages/Admin.tsx:44-51 | a filter step keeps an order-preserving subsequence of its input, never longer; every row that passes is kept as many times as it occurs and every other row is dropped |
| Reports.SelectMembers | src/pages/Admin.tsx:46-50 | a row is kept iff it was in the input and passes the criterion |
| Reports.SelectKeepsAll | src/pages/Admin.tsx:44-51 | a filter that every row passes returns the list unchanged |
| Reports.CountStatus | src/pages/Admin.tsx:154 | the number of rows with a given status is at most the number of rows |
| Reports.CountStatusLast | src/pages/Profile.tsx:78-80 | counting over one more row adds one exactly when that row has the status |
| Reports.CountStatusZeroIff | src/pages/Admin.tsx:154 | the count of a status is zero iff no row has that status |
| Reports.Patched | src/pages/Admin.tsx:100-102 | a review writes status, reviewer and review time; an edit writes details and level and resets status to pending; no other column changes |
| Reports.PatchedIdempotent | src/pages/Admin.tsx:120-123 | writing the same update to a row twice is the same as writing it once |
| Reports.UpdateWhere | src/pages/Admin.tsx:100-102 | rows whose id is selected are patched; every other row is unchanged; no row is added, removed or moved |
| Reports.ReviewEach | src/pages/Admin.tsx:120-123 | the bulk requests: each selected row gets the decision, the reviewer and the time its own request was built; every other row is unchanged; no row is added, removed or moved |
| Reports.ReviewEachExtend | src/pages/Admin.tsx:120-123 | issuing one more per-id request extends the reviews by that id |
| Reports.ReviewEachSameTime | src/pages/Admin.tsx:120-121 | when every request gets the same time, the bulk reviews equal one update of the whole id set |
| Reports.ReviewEachKeepsPendingBound | src/pages/Admin.tsx:120-123 | bulk reviews writing a non-pending status never raise the pending count |
| Reports.ReviewKeepsPendingBound | src/pages/Admin.tsx:100-102 | a review writing a non-pending status never raises the pending count |
| Reports.MatchesQuery | src/pages/Admin.tsx:46-47 | an empty query matches every report; otherwise the lower-cased query occurs at some position of the lower-cased name, category or non-null details |
| Reports.ReportTable.constructor | src/pages/Admin.tsx:82 | the table holds the given rows in the order the queries return them |
| Reports.ReportTable.UpdateEach | src/pages/Admin.tsx:120-123 | after one request per selected id, in any order, each with its own time, the table equals `ReviewEach` applied to the old table |
| Text.Trim | src/pages/MyReviews.tsx:116 | the trimmed text is no longer than the input, and unless it is empty neither its first nor its last character is trim whitespace |
| Text.TrimIsSlice | src/pages/MyReviews.tsx:116 | the trimmed text is a slice of the input, and everything cut off either end is trim whitespace |
| Text.TrimBlankIff | src/pages/MyReviews.tsx:37 | a text trims to empty iff every character is trim whitespace |
| Text.TrimIdempotent | src/pages/MyReviews.tsx:116 | trimming twice is trimming once |
| Text.ToLower | src/pages/Admin.tsx:46-47 | maps the ASCII capitals A-Z to their small letters, character by character, and leaves every other character as it is, keeping the length |
| Text.IncludesIff | src/pages/Admin.tsx:46-47 | `includes` holds iff the needle occurs at some position of the text |
| Text.NatToString | src/pages/MyRoutes.tsx:88 | a number renders as a non-empty string of digits with no leading zero |
| Text.NatToStringRoundTrip | src/pages/MyRoutes.tsx:95 | reading the rendered digits back gives the number |
| Admin.ShownIsSubsequence | src/pages/Admin.tsx:43-52 | the filtered list keeps the fetched order: it is a subsequence of the reports |
| Admin.Shown | src/pages/Admin.tsx:43-52 | the filter effect's list is never longer than the reports, and holds each report passing the query and both filters as often as it was fetched, and no other |
| Admin.ShownMembers | src/pages/Admin.tsx:45-50 | a report is shown iff it was fetched, the query is empty or its lower-cased form occurs in the lower-cased name, category or non-null details, and it matches every filter not set to "all" |
| Admin.ShownUnfiltered | src/pages/Admin.tsx:44-51 | with no query and both filters on "all", every report is shown |
| Admin.Toggled | src/pages/Admin.tsx:211 | toggling flips the clicked id's membership and leaves every other id alone |
| Admin.ToggledTwice | src/pages/Admin.tsx:211 | toggling the same id twice restores the selection |
| Admin.DecisionStatus | src/pages/Admin.tsx:121 | the status written is "approved" iff the decision is approve and "rejected" iff it is reject; neither writes "pending" |
| Admin.DecidedReportLeavesQueue | src/pages/Admin.tsx:221 | a decided report is no longer pending, so it loses its checkbox and buttons |
| Admin.StatusBadge | src/pages/Admin.tsx:142-149 | 대기중 on yellow, 승인 on green and 거부 on red; any other status is shown as itself on grey |
| Admin.AdminPage.PendingCount | src/pages/Admin.tsx:154 | the pending count never exceeds the number of fetched reports, and is zero iff no fetched report is pending |
| Admin.AdminPage.constructor | src/pages/Admin.tsx:28-36 | starts with no reports, an empty selection, an empty query and both filters on "all" |
| Admin.AdminPage.ApplyFilters | src/pages/Admin.tsx:43-52 | the filter effect leaves `filteredReports` equal to the specified filtered list |
| Admin.AdminPage.SetSearchQuery | src/pages/Admin.tsx:166 | the new query is stored and the filtered list is recomputed |
| Admin.AdminPage.SetStatusFilter | src/pages/Admin.tsx:169 | the new status filter is stored and the filtered list is recomputed |
| Admin.AdminPage.SetLevelFilter | src/pages/Admin.tsx:178 | the new level filter is stored and the filtered list is recomputed |
| Admin.AdminPage.FetchReports | src/pages/Admin.tsx:80-89 | the page holds the table's rows and a filtered list consistent with them |
| Admin.AdminPage.ToggleSelection | src/pages/Admin.tsx:210-211 | the checkbox handler replaces the selection by its toggle |
| Admin.AdminPage.HandleStatusChange | src/pages/Admin.tsx:91-112 | without a session nothing is written; with one, only the report with that id gets the decision, the reviewer and the time, the page refetches, and its pending count is at most the table's count before the write |
| Admin.AdminPage.HandleBulkAction | src/pages/Admin.tsx:114-131 | an empty selection, a declined confirmation or a missing session writes nothing and keeps the selection; otherwise every selected id is reviewed with the same decision, each at the time its own request was built (including ids the filter hides), the selection is cleared, the page refetches, and its pending count is at most the table's count before the writes |
| Admin.ModerationNeverAddsPending | src/pages/Admin.tsx:91-126 | a single decision or a bulk decision with per-request times never raises the pending count |
| Profile.ComputeStats | src/pages/Profile.tsx:76-81 | `total` is the number of reports, each status count is at most `total`, and no reports give all zeros |
| Profile.ComputeStatsAppend | src/pages/Profile.tsx:76-81 | one more report adds one to `total` and one to exactly the count of its own status, so `approved`, `pending` and `rejected` count the exact status matches |
| Profile.StatsPartition | src/pages/Profile.tsx:78-80 | approved + pending + rejected is at most `total`, with equality iff every report has one of the three statuses |
| Profile.AccessibilityBadge | src/pages/Profile.tsx:88-113 | "accessible", "partially_accessible" and "not_accessible" get the accessible, partly accessible and not accessible badges; everything else, and only that, is "unknown" |
| Profile.AccessBadgeText | src/pages/Profile.tsx:88-113 | each level badge has its own text: 접근 가능, 부분 접근 가능, 접근 불가 or 알 수 없음 |
| Profile.SubmittedLevelsShowUnknown | src/components/PlaceReviewModal.tsx:22 | every level the forms write (good, moderate, difficult) is shown as "unknown" on the profile page |
| Profile.StatusBadgeOf | src/pages/Profile.tsx:115-139 | "under review" for every status other than approved and rejected, unknown strings included |
| Profile.StatusBadgeText | src/pages/Profile.tsx:115-139 | each status badge has its own text: 승인됨, 거부됨 or 검토 중 |
| Profile.CategoryDisplay | src/pages/Profile.tsx:242 | a category in the table is shown by its label (ramp 경사로, elevator 엘리베이터, parking 주차, restroom 화장실, entrance 출입구, etc 기타); any other category is shown as its raw string |
| Profile.CategoryLabelsShape | src/pages/Profile.tsx:141-148 | the label table has exactly the six keys, each with its own label, and no two keys share a label |
| MyRoutes.KilometreTenths | src/pages/MyRoutes.tsx:89 | the tenths of a kilometre round the distance half up |
| MyRoutes.FormatDistance | src/pages/MyRoutes.tsx:86-90 | "unknown" is shown iff the distance is null or 0; any other text ends in the unit m or km |
| MyRoutes.FormatDistanceShape | src/pages/MyRoutes.tsx:86-90 | a missing distance shows "unknown"; below 1000 m the text is digits plus "m", and the digits read back as the distance; from 1000 m on it is whole.tenth plus "km", within 50 m of the distance |
| MyRoutes.RoundedMinutes | src/pages/MyRoutes.tsx:94 | minutes are the seconds divided by 60, rounded with halves up |
| MyRoutes.FormatDuration | src/pages/MyRoutes.tsx:92-99 | "unknown" is shown iff the duration is null or 0; any other text ends in the unit 분 |
| MyRoutes.FormatDurationShape | src/pages/MyRoutes.tsx:92-99 | below 60 minutes the text is the minutes plus 분; from 60 on it is hours and remaining minutes, with hours*60 + rest equal to the minutes and rest below 60 |
| MyRoutes.NavigateState | src/pages/MyRoutes.tsx:69-84 | the navigation state carries the stored start and end names and coordinates unchanged |
| MyReviews.ValidateEdit | src/pages/MyReviews.tsx:36-39 | an edit passes iff its details pass and its level is one of the three keys; a details error is reported before a level error, and the level error is reported iff the details pass and the level does not |
| MyReviews.EditMessage | src/pages/MyReviews.tsx:37-38 | each issue of the edit schema has its own message, the one zod reports for it |
| MyReviews.CanEdit | src/pages/MyReviews.tsx:249 | editing is disabled exactly for approved reviews: pending and rejected ones can be edited, and a review that cannot be edited is approved |
| MyReviews.StatusLabel | src/pages/MyReviews.tsx:175-182 | 승인 대기 on yellow, 승인됨 on green and 거부됨 on red; any other status is shown as itself on grey |
| MyReviews.SavedEditPassesSchema | src/pages/MyReviews.tsx:113-120 | a saved edit leaves the row pending, with the trimmed details and the chosen level, and those stored values pass the schema again |
| MyReviews.MyReviewsPage.constructor | src/pages/MyReviews.tsx:43-47 | starts with no reviews and no review open |
| MyReviews.MyReviewsPage.FetchReviews | src/pages/MyReviews.tsx:71-89 | the list is exactly the user's own rows, in table order |
| MyReviews.MyReviewsPage.HandleEdit | src/pages/MyReviews.tsx:91-95 | opens the editor on the review, seeded with its details ("" when null) and its level |
| MyReviews.MyReviewsPage.SetEditedLevel | src/pages/MyReviews.tsx:312 | a level button stores its key, so the editor holds one of the three known levels |
| MyReviews.MyReviewsPage.SetEditedDetails | src/pages/MyReviews.tsx:325 | the details box stores the text as typed |
| MyReviews.MyReviewsPage.CancelEdit | src/pages/MyReviews.tsx:334 | closing the dialog leaves no review open |
| MyReviews.MyReviewsPage.HandleSaveEdit | src/pages/MyReviews.tsx:97-133 | with no review open nothing happens; a failed check reports its first issue and writes nothing; otherwise the trimmed details and the level are written to that review only, it goes back to pending, the editor closes and a signed-in user's list is refetched |
| PlaceReviewModal.ValidateReview | src/components/PlaceReviewModal.tsx:17-23 | the reported field fails its bound, and a details issue is the one the details check gives |
| PlaceReviewModal.ValidateReviewFirstError | src/components/PlaceReviewModal.tsx:57-69 | the input passes iff every field is in bounds (details 1..2000 after trimming, latitude in [-90, 90], longitude in [-180, 180], name at most 200 characters, level a known key); on failure every field before the reported one passes |
| PlaceReviewModal.ReviewMessage | src/components/PlaceReviewModal.tsx:18-22 | each issue of the submit schema has its own message, and the level message is the edit schema's |
| PlaceReviewModal.NewReport | src/components/PlaceReviewModal.tsx:78-87 | the inserted row is pending, in category 시설, has the trimmed details and the chosen level, and copies the place's name and coordinates |
| PlaceReviewModal.SubmittedReportIsWellFormed | src/components/PlaceReviewModal.tsx:57-87 | a row this dialog inserts has in-range coordinates, and its stored details and level pass the owner's edit schema |
| PlaceReviewModal.NearbyReviews | src/components/PlaceReviewModal.tsx:38-40 | the listed reports are a subsequence of the table holding each approved report inside the ±0.001 box as often as it is stored, and no other |
| PlaceReviewModal.NearbyMembers | src/components/PlaceReviewModal.tsx:38-41 | a report is listed iff it is approved and both coordinates lie within 0.001 of the place, bounds included |
| PlaceReviewModal.NewReportNotListed | src/components/PlaceReviewModal.tsx:86 | a freshly submitted report is pending, so it never shows in the nearby list |
| PlaceReviewModal.PlaceReviewPanel.constructor | src/components/PlaceReviewModal.tsx:26-29 | starts with no reviews, empty text, level "good" and not loading |
| PlaceReviewModal.PlaceReviewPanel.SetAccessibilityLevel | src/components/PlaceReviewModal.tsx:135 | a level button stores its key, so the form holds one of the three known levels |
| PlaceReviewModal.PlaceReviewPanel.SetNewReview | src/components/PlaceReviewModal.tsx:141 | the review box stores the text as typed |
| PlaceReviewModal.PlaceReviewPanel.FetchReviews | src/components/PlaceReviewModal.tsx:35-47 | without a place nothing changes; with one, the list is the place's nearby approved reports |
| PlaceReviewModal.PlaceReviewPanel.HandleSubmitReview | src/components/PlaceReviewModal.tsx:49-100 | no place: nothing changes. Invalid input: its first issue is reported. No user: "sign in". In all three cases nothing is inserted and the form is kept. Otherwise the new pending row is appended, the text is cleared, the level resets to "good" and the list is refetched. When there is a place, loading ends false |
| RoadView.Step | src/components/RoadView.tsx:104 | the step is at least 1; it is 1 iff the route has fewer than 100 points; otherwise 50 steps fit in the route and 51 do not |
| RoadView.VisitsFrom | src/components/RoadView.tsx:107-127 | the visited indices start at the given index, are all inside the path, and the one after the last is past the end |
| RoadView.VisitsFromIndex | src/components/RoadView.tsx:108 | the k-th visited index is start + k·step |
| RoadView.VisitsFromIncreasing | src/components/RoadView.tsx:107-127 | visited indices strictly increase |
| RoadView.VisitsFromUnitStep | src/components/RoadView.tsx:104 | with step 1, every point from the start to the end is visited |
| RoadView.Visits | src/components/RoadView.tsx:104-127 | a run visits at least one index iff the route is non-empty, and its first visit is index 0 |
| RoadView.VisitsShape | src/components/RoadView.tsx:104-127 | an autoplay run shows 0, step, 2·step, …: it starts at 0, goes up by exactly the step, strictly increases and stays below the path length |
| RoadView.NinetyNinePointRoute | src/components/RoadView.tsx:104 | a 99-point route gets step 1 and shows all 99 points |
| RoadView.VisitsNext | src/components/RoadView.tsx:108-110 | the next visit is the current one plus the step exactly when that is still inside the path |
| RoadView.RoadViewPlayer.constructor | src/components/RoadView.tsx:31-32 | starts with no interval, index 0, nothing reported and no end call |
| RoadView.RoadViewPlayer.Teardown | src/components/RoadView.tsx:130-135 | the cleanup leaves no interval running |
| RoadView.RoadViewPlayer.RunEffect | src/components/RoadView.tsx:83-107 | the effect clears any earlier interval first. With autoplay off, or a missing or empty path, the index is 0 and no interval runs. Otherwise the index is 0, `path[0]` is reported first, and exactly one new interval runs |
| RoadView.RoadViewPlayer.Tick | src/components/RoadView.tsx:107-128 | a tick inside the path reports the run's next visit and sets the index to it. The first tick past the end stops the interval, calls the end callback once, resets the index to 0 and reports nothing; by then the run has reported the point at every visit, in order |
| ReviewModal.CapDetails | src/components/ReviewModal.tsx:136 | the details box keeps a prefix of the entered text of at most 50 characters, and all of it when it fits |
| ReviewModal.CapDetailsIdempotent | src/components/ReviewModal.tsx:136 | capping twice is capping once; a text is kept whole iff it has at most 50 characters |
| ReviewModal.FormLevelsAgainstReportLevels | src/components/ReviewModal.tsx:96-98 | the form's "easy" is not one of the stored level keys, while "moderate" and "difficult" are |
| ReviewModal.ReviewForm.constructor | src/components/ReviewModal.tsx:28-31 | all four fields start empty |
| ReviewModal.ReviewForm.SetLocation | src/components/ReviewModal.tsx:71 | the location input stores its value |
| ReviewModal.ReviewForm.SetAccessibility | src/components/ReviewModal.tsx:91 | the accessibility select stores its value |
| ReviewModal.ReviewForm.SetCategory | src/components/ReviewModal.tsx:108 | the category select stores its value |
| ReviewModal.ReviewForm.SetDetails | src/components/ReviewModal.tsx:134-136 | typing stores the capped text, keeping the details within 50 characters |
| ReviewModal.ReviewForm.HandleSubmit | src/components/ReviewModal.tsx:33-49 | accepted iff location, accessibility and category are all non-empty (details optional); a rejected submit changes nothing; an accepted one closes the dialog and clears all four fields |
| ReviewModal.ReviewForm.Cancel | src/components/ReviewModal.tsx:163 | cancel closes the dialog |
| BarrierDetailSheet.ParseSeverity | src/components/BarrierDetailSheet.tsx:24-31 | recognises exactly safe, warning and danger; it is the inverse of `SeverityKey` |
| BarrierDetailSheet.SeverityBadgeOf | src/components/BarrierDetailSheet.tsx:23-34 | safe, warning and danger get 양호, 보통 and 어려움 with their colours; anything else gets 알 수 없음 with no colour, and only then |
| BarrierDetailSheet.SeverityMatchesLevels | src/components/BarrierDetailSheet.tsx:24-30 | safe, warning and danger are drawn exactly like the report levels good, moderate and difficult |
| BarrierDetailSheet.ParseType | src/components/BarrierDetailSheet.tsx:37-51 | recognises exactly the seven barrier types; it is the inverse of `TypeKey` |
| BarrierDetailSheet.TypeLabel | src/components/BarrierDetailSheet.tsx:38-51 | each of the seven types has its own label (경사로, 엘리베이터, 턱, 계단, 주차장, 화장실, 출입구), each iff its type, and none is 기타 |
| BarrierDetailSheet.CategoryText | src/components/BarrierDetailSheet.tsx:36-55 | the seven types get their labels; 기타 is shown iff the type is not one of them |
| BarrierDetailSheet.CategoryTextInjective | src/components/BarrierDetailSheet.tsx:37-51 | two known types with the same text are the same type |
| BarrierDetailSheet.AltTextsDistinct | src/components/BarrierDetailSheet.tsx:111 | no two photos of a barrier get the same alt text |
| BarrierDetailSheet.MakeGallery | src/components/BarrierDetailSheet.tsx:104-130 | one slide and numbered alt text per photo; previous/next controls iff more than one photo; the caption gives the photo count |
| BarrierDetailSheet.Render | src/components/BarrierDetailSheet.tsx:21-132 | a null barrier renders nothing. Otherwise the sheet shows the name, the severity badge and the category text; details appear iff non-empty; the carousel appears iff there is at least one photo |
| BarrierDetailSheet.PhotoDisplayRules | src/components/BarrierDetailSheet.tsx:101-121 | the photo section appears iff there is at least one photo; its controls appear iff there is more than one; every photo's alt text is distinct |

## Left out

Backend and runtime:

- Backend errors (the `catch` branches): the model assumes every insert, update and select succeeds.
- Ordering and limits: the order by `created_at` and the `.limit(20)` of the route history are not modelled, and neither is row-level security. Rows come back in stored order.
- The route-history fetch: MyRoutes only formats and re-opens routes, so the fetch is not modelled.
- The admin-role check and redirects: the `user_roles` lookup, navigation, toasts and loading spinners are not modelled.
- Concurrency: `Promise.all` in the bulk action is not modelled. The per-id updates are independent, so `ReportTable.UpdateEach` applies them one after another in an arbitrary order. The busy-id set `processingIds` only guards overlapping requests and is left out.
- Other operations: deleting a review in MyReviews and the confirmation dialog around it are not modelled.
- Other files: the favourites page and the other presentational components are not part of this model. The route and barrier proximity scoring is not part of the code shown either; `MapView` is a placeholder.
- The Kakao road-view SDK: the panorama lookup and position updates are not modelled. Interval timing is not modelled; ticks are explicit calls.
- The profile fetch: `.eq("user_id", ...)` selects the signed-in user's rows; `Profile.ComputeStats` is handed those rows.
- The `open` prop of the place dialog and the barrier sheet: the place dialog fetches only while open and the sheet is drawn only while open; the model describes the content of an open dialog or sheet.
- The position and end callbacks of the road view are optional. The model always records what would be passed to them.
- The unmount cleanup of the first road-view effect clears the interval like `Teardown`; it is not modelled separately.
- The image `onError` fallback to a placeholder picture in the barrier sheet is a DOM event and is not modelled.

Number and string formatting:

- Number and date rendering: `toFixed(6)` coordinates, `toLocaleDateString` dates and `new Date().toISOString()` are not modelled. A single decision takes the time as a string parameter; the bulk action takes a function from id to the time its request was built.
- MyRoutes.KilometreTenths: rounds the exact distance half up. `toFixed(1)` on the binary double can round some ties down (1150 m can show "1.1km").
- Distances are whole metres and durations whole seconds. `Math.round` of a fractional metre count is not modelled.
- Text.ToLower: maps only the ASCII capitals A-Z. JavaScript's `toLowerCase` maps every cased letter and can change the length ('İ' becomes two code units); that is not modelled.
- Reports.MatchesQuery: `toLowerCase` is modelled for ASCII letters only; other scripts are left as they are. Korean has no case, so Korean text is unaffected.
- Text.IsTrimSpace: approximates JavaScript's whitespace set by the ECMAScript WhiteSpace and LineTerminator code points. String lengths (`max(2000)`, `max(200)`, `maxLength={50}`) are counted in characters, not in UTF-16 code units.
- Record-based lookups such as `categoryLabels[...]` are modelled as plain maps. JavaScript's inherited prototype keys are not modelled.
- Coordinates are exact reals; NaN and infinities are not modelled.

Contracts stated weaker than the source:

- ReviewModal.ReviewForm.SetDetails: the browser's `maxLength` also blocks typing past the cap. The model keeps the first 50 characters of whatever is entered.
- MyReviews.MyReviewsPage.HandleEdit: requires the review to be editable, because the edit button is disabled for approved reviews (src/pages/MyReviews.tsx:249). A direct call on an approved review is not modelled.
