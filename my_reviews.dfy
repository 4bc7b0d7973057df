/** The owner's review list: the edit dialog, its validation schema, saving an edit (which
    sends the review back to moderation), and the level and status labels. */
module MyReviews {
  import opened Wrappers
  import opened Text
  import opened Reports

  datatype EditIssue = EditDetails(details: DetailsIssue) | EditLevelInvalid

  /** The message zod reports for each issue of the edit schema; each issue has its own. */
  function EditMessage(i: EditIssue): (m: string)
    ensures m == "상세 내용을 입력해주세요." <==> i == EditDetails(DetailsBlank)
    ensures m == "상세 내용은 2000자 이하여야 합니다." <==> i == EditDetails(DetailsTooLong)
    ensures m == "유효한 접근성 수준을 선택해주세요." <==> i == EditLevelInvalid
  {
    match i
    case EditDetails(DetailsBlank) => "상세 내용을 입력해주세요."
    case EditDetails(DetailsTooLong) => "상세 내용은 2000자 이하여야 합니다."
    case EditLevelInvalid => "유효한 접근성 수준을 선택해주세요."
  }

  /** `editReviewSchema.safeParse` reduced to its first error: details are checked before the
      level, so a details error hides a level error. */
  function ValidateEdit(details: string, level: string): (r: Outcome<EditIssue>)
    ensures r.Pass? <==> CheckDetails(details).None? && ParseLevel(level).Some?
    ensures CheckDetails(details).Some? ==> r == Fail(EditDetails(CheckDetails(details).value))
    ensures r == Fail(EditLevelInvalid) <==> CheckDetails(details).None? && ParseLevel(level).None?
  {
    match CheckDetails(details)
    case Some(d) => Fail(EditDetails(d))
    case None => if ParseLevel(level).Some? then Pass else Fail(EditLevelInvalid)
  }

  /** The edit button is disabled for approved reviews only: pending and rejected reviews can
      be edited, approved ones cannot. */
  function CanEdit(r: Report): (b: bool)
    ensures r.status == Pending || r.status == Rejected ==> b
    ensures r.status == Approved ==> !b
    ensures !b ==> r.status == Approved
  {
    r.status != Approved
  }

  /** The review page's status labels: 승인 대기, 승인됨 and 거부됨. */
  const ReviewStatusLabels: StatusLabels := StatusLabels("승인 대기", "승인됨", "거부됨")

  /** `getStatusLabel`: 승인 대기 on yellow, 승인됨 on green, 거부됨 on red, and any other status
      as itself on grey. */
  function StatusLabel(status: string): (b: Badge)
    ensures status == Pending ==> b == Badge("승인 대기", "bg-yellow-500")
    ensures status == Approved ==> b == Badge("승인됨", "bg-green-500")
    ensures status == Rejected ==> b == Badge("거부됨", "bg-red-500")
    ensures status != Pending && status != Approved && status != Rejected ==> b == Badge(status, FallbackColor)
  {
    StatusBadgeFrom(ReviewStatusLabels, status)
  }

  /** A saved edit leaves the row pending, with trimmed details that pass the schema again. */
  lemma {:induction false} SavedEditPassesSchema(rows: seq<Report>, id: string, details: string, level: string, i: int)
    requires ValidateEdit(details, level).Pass?
    requires 0 <= i < |rows| && rows[i].id == id
    ensures var u := UpdateWhere(rows, {id}, Edit(Trim(details), level));
      && u[i].status == Pending
      && u[i].details == Some(Trim(details)) && u[i].accessibilityLevel == level
      && ValidateEdit(u[i].details.value, u[i].accessibilityLevel).Pass?
  {
    CheckDetailsIff(details);
  }

  datatype SaveOutcome = NoReviewOpen | EditRejected(issue: EditIssue) | Saved

  class MyReviewsPage {
    const db: ReportTable
    var reviews: seq<Report>
    var editingReview: Option<Report>
    var editedDetails: string
    var editedLevel: string

    /** Only a review whose edit button was enabled can be open in the editor. */
    ghost predicate Valid()
      reads this
    {
      editingReview.Some? ==> CanEdit(editingReview.value)
    }

    constructor (db: ReportTable)
      ensures this.db == db && Valid()
      ensures reviews == [] && editingReview == None && editedDetails == "" && editedLevel == ""
    {
      this.db := db;
      reviews, editingReview := [], None;
      editedDetails, editedLevel := "", "";
    }

    /** `fetchReviews`: the user's own reports. */
    method FetchReviews(userId: string)
      modifies this`reviews
      ensures reviews == Select(db.rows, OwnedBy(userId))
      ensures forall x :: x in reviews ==> x in db.rows && x.userId == userId
    {
      reviews := Select(db.rows, OwnedBy(userId));
      forall x | x in reviews ensures x in db.rows && x.userId == userId {
        SelectMembers(db.rows, OwnedBy(userId), x);
      }
    }

    /** `handleEdit`, reached through the enabled edit button: open the editor on the review,
        seeded with its details ("" when null) and its level. */
    method HandleEdit(review: Report)
      requires CanEdit(review)
      modifies this`editingReview, this`editedDetails, this`editedLevel
      ensures Valid() && editingReview == Some(review)
      ensures editedDetails == (if review.details.Some? then review.details.value else "")
      ensures editedLevel == review.accessibilityLevel
    {
      editingReview := Some(review);
      editedDetails := if review.details.Some? then review.details.value else "";
      editedLevel := review.accessibilityLevel;
    }

    /** One of the three level buttons: the editor can only hold a known level key this way. */
    method SetEditedLevel(level: Level)
      modifies this`editedLevel
      ensures editedLevel == LevelKey(level) && ParseLevel(editedLevel) == Some(level)
    {
      editedLevel := LevelKey(level);
    }

    /** Typing in the details box stores the text as entered. */
    method SetEditedDetails(value: string)
      modifies this`editedDetails
      ensures editedDetails == value
    {
      editedDetails := value;
    }

    /** Closing the dialog without saving. */
    method CancelEdit()
      modifies this`editingReview
      ensures Valid() && editingReview == None
    {
      editingReview := None;
    }

    /** `handleSaveEdit`: validate, then write the trimmed details and the level to the open
        review and reset its status to pending, close the editor, and fetch the signed-in
        user's reviews again. A failed check reports its first issue and writes nothing. */
    method HandleSaveEdit(user: Option<string>) returns (outcome: SaveOutcome)
      requires Valid()
      modifies this`reviews, this`editingReview, db
      ensures Valid()
      ensures old(editingReview).None? ==>
        outcome == NoReviewOpen && db.rows == old(db.rows) && reviews == old(reviews) && editingReview == None
      ensures old(editingReview).Some? && ValidateEdit(editedDetails, editedLevel).Fail? ==>
        && outcome == EditRejected(ValidateEdit(editedDetails, editedLevel).error)
        && db.rows == old(db.rows) && reviews == old(reviews) && editingReview == old(editingReview)
      ensures old(editingReview).Some? && ValidateEdit(editedDetails, editedLevel).Pass? ==>
        && outcome == Saved && editingReview == None
        && db.rows == UpdateWhere(old(db.rows), {old(editingReview).value.id}, Edit(Trim(editedDetails), editedLevel))
        && reviews == (if user.Some? then Select(db.rows, OwnedBy(user.value)) else old(reviews))
    {
      if editingReview.None? {
        return NoReviewOpen;
      }
      var check := ValidateEdit(editedDetails, editedLevel);
      if check.Fail? {
        return EditRejected(check.error);
      }
      db.rows := UpdateWhere(db.rows, {editingReview.value.id}, Edit(Trim(editedDetails), editedLevel));
      outcome := Saved;
      editingReview := None;
      if user.Some? {
        FetchReviews(user.value);
      }
    }
  }
}
