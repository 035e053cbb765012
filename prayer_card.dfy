/**
 * Presentation rules of a prayer card: the colour palette chosen by category, the
 * submitter attribution line and the URGENT badge.
 */
module PrayerCard {
  import Languages

  /** A prayer request as the card shows it. */
  datatype PrayerRequest = PrayerRequest(
    id: int,
    category: string,
    title: string,
    content: string,
    submittedBy: string,
    urgent: bool,
    timeAgo: string)

  /** The palette for categories without their own colours. */
  const DefaultPalette: seq<string> := ["#f1f5f9", "#e2e8f0", "#cbd5e1"]

  /** The categories that have a palette of their own. */
  const ColouredCategories: set<string> :=
    {"Health & Healing", "Job Opportunities", "Spiritual Growth",
     "Marriage & Relationships", "Family & Children", "Financial Breakthrough"}

  /** The three gradient colours of a category; exact-match on the English name, default otherwise. */
  function CategoryColor(category: string): (palette: seq<string>)
    ensures |palette| == 3
    ensures category !in ColouredCategories <==> palette == DefaultPalette
  {
    match category
    case "Health & Healing" => ["#dcfce7", "#bbf7d0", "#86efac"]
    case "Job Opportunities" => ["#dbeafe", "#bfdbfe", "#93c5fd"]
    case "Spiritual Growth" => ["#f3e8ff", "#e9d5ff", "#d8b4fe"]
    case "Marriage & Relationships" => ["#fce7f3", "#fbcfe8", "#f9a8d4"]
    case "Family & Children" => ["#fef3c7", "#fde68a", "#fcd34d"]
    case "Financial Breakthrough" => ["#d1fae5", "#a7f3d0", "#6ee7b7"]
    case _ => DefaultPalette
  }

  /** Distinct coloured categories get distinct palettes. */
  lemma PalettesAreDistinct(a: string, b: string)
    requires a in ColouredCategories && b in ColouredCategories && a != b
    ensures CategoryColor(a) != CategoryColor(b)
  {
  }

  /**
   * Every category name of the English table but the last has its own palette;
   * the last, "Other", gets the default one.
   */
  lemma EnglishCategoriesAreColoured()
    ensures forall i :: 0 <= i < 6 ==> Languages.PrayerCategories(Languages.En)[i] in ColouredCategories
    ensures CategoryColor(Languages.PrayerCategories(Languages.En)[6]) == DefaultPalette
    ensures forall c :: c in ColouredCategories ==> c in Languages.PrayerCategories(Languages.En)
  {
    var english := Languages.PrayerCategories(Languages.En);
    assert english[6] == "Other";
    assert forall c :: c in ColouredCategories ==> c in english[..6] by {
      assert english[..6] == ["Spiritual Growth", "Financial Breakthrough", "Job Opportunities",
                              "Marriage & Relationships", "Health & Healing", "Family & Children"];
    }
  }

  /** The footer line naming the submitter; the anonymous sentinel is shown as it is. */
  function Attribution(submittedBy: string): (line: string)
    ensures line == "Anonymous" <==> submittedBy == "Anonymous"
    ensures submittedBy != "Anonymous" ==> |line| >= 3 && line[..3] == "by " && line[3..] == submittedBy
  {
    if submittedBy == "Anonymous" then "Anonymous"
    else
      var line := "by " + submittedBy;
      assert line[0] == 'b' != "Anonymous"[0];
      line
  }

  /** Reading a submitter back from an attribution line. */
  function SubmitterOf(line: string): string {
    if |line| >= 3 && line[..3] == "by " then line[3..] else line
  }

  /** Attribution loses nothing: the submitter can be read back from every line. */
  lemma AttributionRoundTrip(submittedBy: string)
    ensures SubmitterOf(Attribution(submittedBy)) == submittedBy
  {
    if submittedBy == "Anonymous" {
      assert "Anonymous"[..3][0] == 'A';
    }
  }

  /** What a card shows, apart from layout. */
  datatype CardView = CardView(
    accentColors: seq<string>,
    badgeColors: seq<string>,
    categoryLabel: string,
    urgentBadge: bool,
    title: string,
    content: string,
    timeAgo: string,
    attribution: string)

  /**
   * A card: the top accent uses the whole category palette, the category badge its first
   * two colours, and the URGENT badge appears exactly for urgent requests.
   */
  function Render(prayer: PrayerRequest): (view: CardView)
    ensures view.accentColors == CategoryColor(prayer.category)
    ensures |view.accentColors| == 3 && view.badgeColors == view.accentColors[..2]
    ensures (view.accentColors == DefaultPalette) <==> prayer.category !in ColouredCategories
    ensures view.urgentBadge <==> prayer.urgent
    ensures view.categoryLabel == prayer.category && view.title == prayer.title
    ensures view.content == prayer.content && view.timeAgo == prayer.timeAgo
    ensures view.attribution == Attribution(prayer.submittedBy)
    ensures SubmitterOf(view.attribution) == prayer.submittedBy
  {
    AttributionRoundTrip(prayer.submittedBy);
    var palette := CategoryColor(prayer.category);
    CardView(palette, [palette[0], palette[1]], prayer.category, prayer.urgent,
             prayer.title, prayer.content, prayer.timeAgo, Attribution(prayer.submittedBy))
  }
}
