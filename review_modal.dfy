/** The stand-alone report dialog: four form fields, a submit that only checks that the three
    required ones are filled, and a details box capped at 50 characters. */
module ReviewModal {
  import opened Wrappers
  import Reports

  /** The `maxLength` of the details box. */
  const MaxDetails: nat := 50

  /** The choices the accessibility select offers. */
  const FormLevels: seq<string> := ["easy", "moderate", "difficult"]

  /** The submit guard `!location || !accessibility || !category`, negated: only the empty
      string counts as missing, and the details are optional. */
  predicate RequiredFilled(location: string, accessibility: string, category: string)
  {
    location != "" && accessibility != "" && category != ""
  }

  /** What the details box keeps of an entered text: its first 50 characters. */
  function CapDetails(s: string): (r: string)
    ensures |r| <= MaxDetails && r <= s
    ensures |r| == if |s| <= MaxDetails then |s| else MaxDetails
  {
    if |s| <= MaxDetails then s else s[..MaxDetails]
  }

  /** Entering a text that already fits keeps it, so capping twice is capping once. */
  lemma CapDetailsIdempotent(s: string)
    ensures CapDetails(CapDetails(s)) == CapDetails(s)
    ensures |s| <= MaxDetails <==> CapDetails(s) == s
  {
  }

  /** The first choice of this dialog's accessibility select is not one of the level keys the
      stored reports use, while the other two are. */
  lemma FormLevelsAgainstReportLevels()
    ensures Reports.ParseLevel(FormLevels[0]).None?
    ensures Reports.ParseLevel(FormLevels[1]) == Some(Reports.Moderate)
    ensures Reports.ParseLevel(FormLevels[2]) == Some(Reports.Difficult)
  {
  }

  /** The dialog's form state; `open` is the parent's open flag, which the dialog changes only
      through its `onOpenChange` callback. */
  class ReviewForm {
    var open: bool
    var location: string
    var accessibility: string
    var category: string
    var details: string

    ghost predicate Valid()
      reads this
    {
      |details| <= MaxDetails
    }

    constructor (open: bool)
      ensures Valid()
      ensures this.open == open && location == "" && accessibility == "" && category == "" && details == ""
    {
      this.open := open;
      location, accessibility, category, details := "", "", "", "";
    }

    method SetLocation(value: string)
      modifies this`location
      ensures location == value
    {
      location := value;
    }

    method SetAccessibility(value: string)
      modifies this`accessibility
      ensures accessibility == value
    {
      accessibility := value;
    }

    method SetCategory(value: string)
      modifies this`category
      ensures category == value
    {
      category := value;
    }

    /** Typing into the details box: the box keeps at most 50 characters. */
    method SetDetails(value: string)
      requires Valid()
      modifies this`details
      ensures Valid()
      ensures details == CapDetails(value)
    {
      details := CapDetails(value);
    }

    /** `handleSubmit`: rejected, changing nothing, unless the three required fields are filled;
        accepted, it closes the dialog and clears all four fields. */
    method HandleSubmit() returns (accepted: bool)
      requires Valid()
      modifies this
      ensures Valid()
      ensures accepted <==> old(RequiredFilled(location, accessibility, category))
      ensures !accepted ==> unchanged(this)
      ensures accepted ==> !open && location == "" && accessibility == "" && category == "" && details == ""
    {
      if location == "" || accessibility == "" || category == "" {
        return false;
      }
      open := false;
      location, accessibility, category, details := "", "", "", "";
      return true;
    }

    /** The cancel button: closes the dialog and keeps the fields. */
    method Cancel()
      modifies this`open
      ensures !open
    {
      open := false;
    }
  }
}
