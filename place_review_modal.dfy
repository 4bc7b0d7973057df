/** The review dialog of a place: the submit schema with coordinate bounds, submitting a new
    report, and the list of approved reports within a small box around the place. */
module PlaceReviewModal {
  import opened Wrappers
  import opened Text
  import opened Reports
  import MyReviews
  import opened Seqs

  /** The place the dialog is open on. */
  datatype Place = Place(name: string, lat: real, lon: real)

  /** The object handed to `reviewSchema.safeParse`. */
  datatype ReviewInput = ReviewInput(
    details: string, latitude: real, longitude: real, locationName: string, accessibilityLevel: string)

  const MaxNameLength: nat := 200

  /** The schema's fields, in the order it declares (and so reports) them. */
  datatype ReviewField = DetailsField | LatitudeField | LongitudeField | NameField | LevelField

  function FieldOrder(f: ReviewField): nat
  {
    match f
    case DetailsField => 0
    case LatitudeField => 1
    case LongitudeField => 2
    case NameField => 3
    case LevelField => 4
  }

  /** The bound one field must meet; both coordinate ranges include their ends, and an empty
      place name is allowed. */
  predicate FieldOk(f: ReviewField, input: ReviewInput)
  {
    match f
    case DetailsField => CheckDetails(input.details).None?
    case LatitudeField => -90.0 <= input.latitude <= 90.0
    case LongitudeField => -180.0 <= input.longitude <= 180.0
    case NameField => |input.locationName| <= MaxNameLength
    case LevelField => ParseLevel(input.accessibilityLevel).Some?
  }

  datatype ReviewIssue =
    | ReviewDetails(details: DetailsIssue)
    | LatitudeOutOfRange
    | LongitudeOutOfRange
    | NameTooLong
    | LevelInvalid

  function IssueField(i: ReviewIssue): ReviewField
  {
    match i
    case ReviewDetails(_) => DetailsField
    case LatitudeOutOfRange => LatitudeField
    case LongitudeOutOfRange => LongitudeField
    case NameTooLong => NameField
    case LevelInvalid => LevelField
  }

  /** The message zod reports for each issue of the submit schema: each issue has its own, and
      the level message is the one the edit schema uses. */
  function ReviewMessage(i: ReviewIssue): (m: string)
    ensures m == "후기 내용을 입력해주세요." <==> i == ReviewDetails(DetailsBlank)
    ensures m == "후기는 2000자 이하여야 합니다." <==> i == ReviewDetails(DetailsTooLong)
    ensures m == "위도는 -90에서 90 사이여야 합니다." <==> i == LatitudeOutOfRange
    ensures m == "경도는 -180에서 180 사이여야 합니다." <==> i == LongitudeOutOfRange
    ensures m == "장소명은 200자 이하여야 합니다." <==> i == NameTooLong
    ensures m == MyReviews.EditMessage(MyReviews.EditLevelInvalid) <==> i == LevelInvalid
  {
    match i
    case ReviewDetails(DetailsBlank) => "후기 내용을 입력해주세요."
    case ReviewDetails(DetailsTooLong) => "후기는 2000자 이하여야 합니다."
    case LatitudeOutOfRange => "위도는 -90에서 90 사이여야 합니다."
    case LongitudeOutOfRange => "경도는 -180에서 180 사이여야 합니다."
    case NameTooLong => "장소명은 200자 이하여야 합니다."
    case LevelInvalid => "유효한 접근성 수준을 선택해주세요."
  }

  /** `reviewSchema.safeParse` reduced to its first error. The input passes exactly when every
      field is within bounds; otherwise the reported field fails and every field before it
      passes. */
  function ValidateReview(input: ReviewInput): (r: Outcome<ReviewIssue>)
    ensures r.Fail? ==> !FieldOk(IssueField(r.error), input)
    ensures r.Fail? && r.error.ReviewDetails? ==> r.error.details == CheckDetails(input.details).value
  {
    match CheckDetails(input.details)
    case Some(issue) => Fail(ReviewDetails(issue))
    case None =>
      if !FieldOk(LatitudeField, input) then Fail(LatitudeOutOfRange)
      else if !FieldOk(LongitudeField, input) then Fail(LongitudeOutOfRange)
      else if !FieldOk(NameField, input) then Fail(NameTooLong)
      else if !FieldOk(LevelField, input) then Fail(LevelInvalid)
      else Pass
  }

  /** The input passes exactly when every field is within bounds; a failure names a field
      that fails while every field before it passes. */
  lemma ValidateReviewFirstError(input: ReviewInput)
    ensures ValidateReview(input).Pass? <==> forall f :: FieldOk(f, input)
    ensures var r := ValidateReview(input);
      r.Fail? ==> forall f :: FieldOrder(f) < FieldOrder(IssueField(r.error)) ==> FieldOk(f, input)
  {
    var r := ValidateReview(input);
    forall f
      ensures r.Pass? ==> FieldOk(f, input)
      ensures r.Fail? && FieldOrder(f) < FieldOrder(IssueField(r.error)) ==> FieldOk(f, input)
    {
    }
    if r.Fail? {
      assert !FieldOk(IssueField(r.error), input);
    }
  }

  /** The category every review submitted from this dialog is stored under. */
  const SubmittedCategory: string := "시설"

  /** The row `handleSubmitReview` inserts; `id` and `createdAt` are assigned by the backend. */
  function NewReport(place: Place, userId: string, details: string, level: string, id: string, createdAt: string): (r: Report)
    ensures r.status == Pending && r.category == SubmittedCategory
    ensures r.details == Some(Trim(details)) && r.accessibilityLevel == level && r.userId == userId
    ensures r.locationName == place.name && r.latitude == place.lat && r.longitude == place.lon
  {
    Report(id, userId, place.name, place.lat, place.lon, level, SubmittedCategory,
           Some(Trim(details)), None, Pending, createdAt, None, None)
  }

  /** A report this dialog accepts is stored with a level the submit form offers, with
      coordinates in range, and with details that the owner's edit schema accepts as they are. */
  lemma {:induction false} SubmittedReportIsWellFormed(place: Place, userId: string, details: string, level: string, id: string, createdAt: string)
    requires ValidateReview(ReviewInput(details, place.lat, place.lon, place.name, level)).Pass?
    ensures var r := NewReport(place, userId, details, level, id, createdAt);
      && -90.0 <= r.latitude <= 90.0 && -180.0 <= r.longitude <= 180.0
      && MyReviews.ValidateEdit(r.details.value, r.accessibilityLevel).Pass?
  {
    var input := ReviewInput(details, place.lat, place.lon, place.name, level);
    assert FieldOk(DetailsField, input) && FieldOk(LatitudeField, input);
    assert FieldOk(LongitudeField, input) && FieldOk(LevelField, input);
    CheckDetailsIff(details);
  }

  /** The reports listed under the form: approved ones with both coordinates within 0.001
      of the place, bounds included. */
  function NearbyReviews(rows: seq<Report>, place: Place): (r: seq<Report>)
    ensures |r| <= |rows| && IsSubsequence(r, rows)
    ensures forall x {:trigger multiset(r)[x]} ::
              multiset(r)[x] == if x.status == Approved && Accepts(NearPlace(place.lat, place.lon), x) then multiset(rows)[x] else 0
  {
    SubsequenceTransitive(Select(Select(rows, StatusIs(Approved)), NearPlace(place.lat, place.lon)),
                          Select(rows, StatusIs(Approved)), rows);
    Select(Select(rows, StatusIs(Approved)), NearPlace(place.lat, place.lon))
  }

  lemma {:induction false} NearbyMembers(rows: seq<Report>, place: Place, x: Report)
    ensures x in NearbyReviews(rows, place) <==>
      && x in rows && x.status == Approved
      && place.lat - NearbyRadius <= x.latitude <= place.lat + NearbyRadius
      && place.lon - NearbyRadius <= x.longitude <= place.lon + NearbyRadius
  {
    SelectMembers(rows, StatusIs(Approved), x);
    SelectMembers(Select(rows, StatusIs(Approved)), NearPlace(place.lat, place.lon), x);
  }

  datatype SubmitOutcome = NoPlace | SubmitRejected(issue: ReviewIssue) | NotSignedIn | Submitted

  class PlaceReviewPanel {
    const db: ReportTable
    var reviews: seq<Report>
    var newReview: string
    var accessibilityLevel: string
    var loading: bool

    constructor (db: ReportTable)
      ensures this.db == db && reviews == [] && newReview == "" && accessibilityLevel == LevelKey(Good) && !loading
    {
      this.db := db;
      reviews, newReview, accessibilityLevel, loading := [], "", LevelKey(Good), false;
    }

    /** One of the three level buttons: the form can only hold a known level key. */
    method SetAccessibilityLevel(level: Level)
      modifies this`accessibilityLevel
      ensures accessibilityLevel == LevelKey(level) && ParseLevel(accessibilityLevel) == Some(level)
    {
      accessibilityLevel := LevelKey(level);
    }

    /** Typing in the review box stores the text as entered. */
    method SetNewReview(value: string)
      modifies this`newReview
      ensures newReview == value
    {
      newReview := value;
    }

    /** `fetchReviews`: nothing without a place. */
    method FetchReviews(place: Option<Place>)
      modifies this`reviews
      ensures place.None? ==> reviews == old(reviews)
      ensures place.Some? ==> reviews == NearbyReviews(db.rows, place.value)
    {
      if place.Some? {
        reviews := NearbyReviews(db.rows, place.value);
      }
    }

    /** `handleSubmitReview`: with a place, valid input and a signed-in user, insert the new
        pending report, clear the text, reset the level to "good" and fetch the list again.
        Every other path inserts nothing and keeps the form. */
    method HandleSubmitReview(place: Option<Place>, user: Option<string>, newId: string, now: string)
      returns (outcome: SubmitOutcome)
      modifies this`reviews, this`newReview, this`accessibilityLevel, this`loading, db
      ensures place.None? ==> outcome == NoPlace && unchanged(this) && db.rows == old(db.rows)
      ensures place.Some? ==> !loading
      ensures !outcome.Submitted? ==>
        && db.rows == old(db.rows) && newReview == old(newReview)
        && accessibilityLevel == old(accessibilityLevel) && reviews == old(reviews)
      ensures place.Some? ==>
        var input := ReviewInput(old(newReview), place.value.lat, place.value.lon, place.value.name, old(accessibilityLevel));
        && (ValidateReview(input).Fail? ==> outcome == SubmitRejected(ValidateReview(input).error))
        && (ValidateReview(input).Pass? && user.None? ==> outcome == NotSignedIn)
        && (ValidateReview(input).Pass? && user.Some? ==>
              && outcome == Submitted
              && db.rows == old(db.rows) + [NewReport(place.value, user.value, old(newReview), old(accessibilityLevel), newId, now)]
              && newReview == "" && accessibilityLevel == LevelKey(Good)
              && reviews == NearbyReviews(db.rows, place.value))
    {
      if place.None? {
        return NoPlace;
      }
      var p := place.value;
      var check := ValidateReview(ReviewInput(newReview, p.lat, p.lon, p.name, accessibilityLevel));
      if check.Fail? {
        loading := false;
        return SubmitRejected(check.error);
      }
      loading := true;
      if user.None? {
        loading := false;
        return NotSignedIn;
      }
      db.rows := db.rows + [NewReport(p, user.value, newReview, accessibilityLevel, newId, now)];
      newReview := "";
      accessibilityLevel := LevelKey(Good);
      FetchReviews(place);
      outcome := Submitted;
      loading := false;
    }
  }

  /** A freshly submitted report is pending, so it is never among the listed reviews. */
  lemma NewReportNotListed(rows: seq<Report>, place: Place, userId: string, details: string, level: string, id: string, createdAt: string)
    ensures NewReport(place, userId, details, level, id, createdAt) !in NearbyReviews(rows, place)
  {
    NearbyMembers(rows, place, NewReport(place, userId, details, level, id, createdAt));
  }
}
