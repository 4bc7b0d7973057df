/** The bottom sheet describing one barrier on the map: its severity badge, its category text,
    its location, optional details and an optional photo carousel. */
module BarrierDetailSheet {
  import opened Wrappers
  import opened Text
  import Reports

  /** The `barrier` prop; `photo_urls` may be absent. */
  datatype Barrier = Barrier(
    name: string,
    kind: string,
    severity: string,
    details: string,
    photoUrls: Option<seq<string>>,
    latitude: real,
    longitude: real)

  // ----- Severity -----

  datatype Severity = Safe | Warning | Danger

  function SeverityKey(s: Severity): string
  {
    match s
    case Safe => "safe"
    case Warning => "warning"
    case Danger => "danger"
  }

  /** Recognises a severity string; the exact inverse of `SeverityKey`. */
  function ParseSeverity(s: string): (r: Option<Severity>)
    ensures r.Some? ==> SeverityKey(r.value) == s
    ensures r.None? ==> forall v :: SeverityKey(v) != s
  {
    if s == "safe" then Some(Safe)
    else if s == "warning" then Some(Warning)
    else if s == "danger" then Some(Danger)
    else None
  }

  /** A badge as the sheet draws it: the default badge carries no colour class. */
  datatype SeverityBadge = SeverityBadge(text: string, color: Option<string>)

  const UnknownSeverity: string := "알 수 없음"

  function SeverityText(s: Severity): string
  {
    match s
    case Safe => "양호"
    case Warning => "보통"
    case Danger => "어려움"
  }

  function SeverityColor(s: Severity): string
  {
    match s
    case Safe => "bg-green-500"
    case Warning => "bg-yellow-500"
    case Danger => "bg-red-500"
  }

  /** `getSeverityBadge`: a known severity gets its label and colour; anything else gets the
      uncoloured "unknown" badge. */
  function SeverityBadgeOf(severity: string): (b: SeverityBadge)
    ensures b.text == UnknownSeverity <==> ParseSeverity(severity).None?
    ensures b.color.None? <==> ParseSeverity(severity).None?
    ensures ParseSeverity(severity).Some? ==>
      b == SeverityBadge(SeverityText(ParseSeverity(severity).value), Some(SeverityColor(ParseSeverity(severity).value)))
  {
    match ParseSeverity(severity)
    case Some(s) => SeverityBadge(SeverityText(s), Some(SeverityColor(s)))
    case None => SeverityBadge(UnknownSeverity, None)
  }

  /** The three severities are drawn exactly like the three report levels: safe like good,
      warning like moderate, danger like difficult, both in text and colour. */
  function LevelOfSeverity(s: Severity): Reports.Level
  {
    match s
    case Safe => Reports.Good
    case Warning => Reports.Moderate
    case Danger => Reports.Difficult
  }

  lemma {:induction false} SeverityMatchesLevels(s: Severity)
    ensures SeverityText(s) == Reports.LevelLabel(LevelOfSeverity(s))
    ensures SeverityColor(s) == Reports.LevelColor(LevelOfSeverity(s))
    ensures SeverityBadgeOf(SeverityKey(s)) ==
      SeverityBadge(Reports.LevelBadge(Reports.LevelKey(LevelOfSeverity(s))).text,
                    Some(Reports.LevelBadge(Reports.LevelKey(LevelOfSeverity(s))).className))
  {
    var l := LevelOfSeverity(s);
    Reports.ParseLevelKey(l);
    assert ParseSeverity(SeverityKey(s)) == Some(s);
  }

  // ----- Category -----

  datatype BarrierType = Ramp | Elevator | Curb | Stairs | Parking | Restroom | Entrance

  function TypeKey(t: BarrierType): string
  {
    match t
    case Ramp => "ramp"
    case Elevator => "elevator"
    case Curb => "curb"
    case Stairs => "stairs"
    case Parking => "parking"
    case Restroom => "restroom"
    case Entrance => "entrance"
  }

  /** Recognises a barrier type string; the exact inverse of `TypeKey`. */
  function ParseType(s: string): (r: Option<BarrierType>)
    ensures r.Some? ==> TypeKey(r.value) == s
    ensures r.None? ==> forall t :: TypeKey(t) != s
  {
    if s == "ramp" then Some(Ramp)
    else if s == "elevator" then Some(Elevator)
    else if s == "curb" then Some(Curb)
    else if s == "stairs" then Some(Stairs)
    else if s == "parking" then Some(Parking)
    else if s == "restroom" then Some(Restroom)
    else if s == "entrance" then Some(Entrance)
    else None
  }

  /** The label `getCategoryText` gives each known type. */
  function TypeLabel(t: BarrierType): (l: string)
    ensures l == "경사로" <==> t == Ramp
    ensures l == "엘리베이터" <==> t == Elevator
    ensures l == "턱" <==> t == Curb
    ensures l == "계단" <==> t == Stairs
    ensures l == "주차장" <==> t == Parking
    ensures l == "화장실" <==> t == Restroom
    ensures l == "출입구" <==> t == Entrance
    ensures l != OtherCategory
  {
    match t
    case Ramp => "경사로"
    case Elevator => "엘리베이터"
    case Curb => "턱"
    case Stairs => "계단"
    case Parking => "주차장"
    case Restroom => "화장실"
    case Entrance => "출입구"
  }

  const OtherCategory: string := "기타"

  /** `getCategoryText`: the label of one of the seven known types, "other" for every other
      string. */
  function CategoryText(kind: string): (r: string)
    ensures r == OtherCategory <==> ParseType(kind).None?
    ensures ParseType(kind).Some? ==> r == TypeLabel(ParseType(kind).value)
  {
    match ParseType(kind)
    case Some(t) => TypeLabel(t)
    case None => OtherCategory
  }

  /** Distinct known types get distinct texts, so the category text identifies the type. */
  lemma CategoryTextInjective(a: string, b: string)
    requires ParseType(a).Some? && ParseType(b).Some? && CategoryText(a) == CategoryText(b)
    ensures a == b
  {
    var ta, tb := ParseType(a).value, ParseType(b).value;
    assert TypeLabel(ta) == TypeLabel(tb);
    assert |TypeLabel(ta)| == |TypeLabel(tb)| && TypeLabel(ta)[0] == TypeLabel(tb)[0];
  }

  // ----- The sheet -----

  /** The carousel: one slide per photo, each with its alt text, previous/next controls only
      for more than one photo, and the photo count caption. */
  datatype Gallery = Gallery(slides: seq<string>, altTexts: seq<string>, showControls: bool, caption: string)

  datatype SheetView = SheetView(
    title: string,
    severityBadge: SeverityBadge,
    category: string,
    locationName: string,
    details: Option<string>,
    gallery: Option<Gallery>)

  /** The alt text of the photo at `index`: the barrier's name, "사진" and the 1-based number. */
  function AltText(name: string, index: nat): string
  {
    name + " 사진 " + NatToString(index + 1)
  }

  /** No two photos of a barrier get the same alt text. */
  lemma {:induction false} AltTextsDistinct(name: string, i: nat, j: nat)
    requires i != j
    ensures AltText(name, i) != AltText(name, j)
  {
    var p := name + " 사진 ";
    if AltText(name, i) == AltText(name, j) {
      assert NatToString(i + 1) == AltText(name, i)[|p|..];
      assert NatToString(j + 1) == AltText(name, j)[|p|..];
      NatToStringRoundTrip(i + 1);
      NatToStringRoundTrip(j + 1);
    }
  }

  function MakeGallery(name: string, urls: seq<string>): (g: Gallery)
    ensures g.slides == urls && |g.altTexts| == |urls|
    ensures forall k :: 0 <= k < |urls| ==> g.altTexts[k] == AltText(name, k)
    ensures g.showControls <==> |urls| > 1
    ensures g.caption == NatToString(|urls|) + "개의 사진"
  {
    Gallery(urls, seq(|urls|, (k: int) requires 0 <= k => AltText(name, k)), |urls| > 1, NatToString(|urls|) + "개의 사진")
  }

  /** What the sheet renders: nothing for a null barrier; otherwise the name as title, the
      severity badge, the category text, the details only when non-empty, and the carousel
      only when there is at least one photo. */
  function Render(barrier: Option<Barrier>): (v: Option<SheetView>)
    ensures v.None? <==> barrier.None?
    ensures v.Some? ==>
      var b := barrier.value;
      && v.value.title == b.name && v.value.locationName == b.name
      && v.value.severityBadge == SeverityBadgeOf(b.severity)
      && v.value.category == CategoryText(b.kind)
      && (v.value.details.Some? <==> b.details != "")
      && (v.value.details.Some? ==> v.value.details.value == b.details)
      && (v.value.gallery.Some? <==> b.photoUrls.Some? && |b.photoUrls.value| >= 1)
      && (v.value.gallery.Some? ==> v.value.gallery.value == MakeGallery(b.name, b.photoUrls.value))
  {
    match barrier
    case None => None
    case Some(b) =>
      var gallery := if b.photoUrls.Some? && |b.photoUrls.value| > 0 then Some(MakeGallery(b.name, b.photoUrls.value)) else None;
      Some(SheetView(b.name, SeverityBadgeOf(b.severity), CategoryText(b.kind), b.name,
                     if b.details != "" then Some(b.details) else None, gallery))
  }

  /** The photo rules together: a carousel appears exactly with at least one photo, and its
      controls exactly with more than one; every photo gets its own alt text. */
  lemma {:induction false} PhotoDisplayRules(b: Barrier)
    ensures var g := Render(Some(b)).value.gallery;
      && (g.Some? <==> b.photoUrls.Some? && |b.photoUrls.value| >= 1)
      && (g.Some? ==> (g.value.showControls <==> |b.photoUrls.value| > 1))
      && (g.Some? ==> forall i, j :: 0 <= i < j < |g.value.altTexts| ==> g.value.altTexts[i] != g.value.altTexts[j])
  {
    var g := Render(Some(b)).value.gallery;
    if g.Some? {
      forall i, j | 0 <= i < j < |g.value.altTexts|
        ensures g.value.altTexts[i] != g.value.altTexts[j]
      {
        AltTextsDistinct(b.name, i, j);
      }
    }
  }
}
