/**
 * The enumerations of mangadex/types/base.py and mangadex/types/manga.py.
 *
 * A Python `Enum` member is identified by its value (two members with the same
 * value are aliases of one member), so each member is modelled by its value.
 */
module MangaTypes {
  import opened Wrappers

  /** The values of `MangaDexLanguage`, in declaration order, `Other` (value None) excluded. */
  const LanguageCodes: seq<string> := [
    "en", "ja", "pl", "sh", "nl", "it", "ru", "de", "hu", "fr",
    "fi", "vi", "el", "bg", "es", "pt-br", "pt", "sv", "ar", "da",
    "zh", "bn", "ro", "cs", "mn", "tr", "id", "ko", "es-la", "fa",
    "ms", "th", "ca", "tl", "zh-hk", "uk", "my", "lt", "he", "hi",
    "no"
  ]

  /** A candidate `MangaDexLanguage` member, given by its value (`None` for `Other`). */
  datatype LanguageValue = Language(value: Option<string>)

  predicate IsLanguage(l: LanguageValue) {
    l.value.None? || l.value.value in LanguageCodes
  }

  /** A member of `MangaDexLanguage`. */
  type MangaDexLanguage = l: LanguageValue | IsLanguage(l) witness Language(None)

  const English: MangaDexLanguage := Language(Some("en"))
  const OtherLanguage: MangaDexLanguage := Language(None)

  datatype MangaStatus = Ongoing | Completed | Paused | Cancelled

  function StatusValue(s: MangaStatus): string {
    match s
    case Ongoing => "ongoing"
    case Completed => "completed"
    case Paused => "hiatus"
    case Cancelled => "cancelled"
  }

  /** `list(i.value for i in MangaStatus)` */
  const StatusValues: seq<string> := ["ongoing", "completed", "hiatus", "cancelled"]

  datatype ContentRating = Safe | Suggestive | Erotica | Pornographic

  function RatingValue(r: ContentRating): string {
    match r
    case Safe => "safe"
    case Suggestive => "suggestive"
    case Erotica => "erotica"
    case Pornographic => "pornographic"
  }

  const RatingValues: seq<string> := ["safe", "suggestive", "erotica", "pornographic"]

  datatype Relationship =
    | MangaRel | ChapterRel | CoverArtRel | AuthorRel | ArtistRel
    | ScanlationGroupRel | TagRel | UserRel | CustomListRel

  function RelationshipValue(r: Relationship): string {
    match r
    case MangaRel => "manga"
    case ChapterRel => "chapter"
    case CoverArtRel => "cover_art"
    case AuthorRel => "author"
    case ArtistRel => "artist"
    case ScanlationGroupRel => "scanlation_group"
    case TagRel => "tag"
    case UserRel => "user"
    case CustomListRel => "custom_list"
  }

  const RelationshipValues: seq<string> := [
    "manga", "chapter", "cover_art", "author", "artist",
    "scanlation_group", "tag", "user", "custom_list"
  ]

  /** The status value table: a string is a status value iff some member has it, and members
      are told apart by their values (so `PAUSED` is the only member whose value is "hiatus"). */
  lemma StatusValueTable(v: string)
    ensures v in StatusValues <==> exists s :: StatusValue(s) == v
    ensures forall s, t :: StatusValue(s) == StatusValue(t) ==> s == t
  {
    if v in StatusValues {
      if v == "ongoing" { assert StatusValue(Ongoing) == v; }
      else if v == "completed" { assert StatusValue(Completed) == v; }
      else if v == "hiatus" { assert StatusValue(Paused) == v; }
      else { assert StatusValue(Cancelled) == v; }
    }
  }

  /** `ContentRating` has exactly the four listed values, one per member. */
  lemma RatingValueTable(v: string)
    ensures v in RatingValues <==> exists r :: RatingValue(r) == v
    ensures forall r, q :: RatingValue(r) == RatingValue(q) ==> r == q
  {
    if v in RatingValues {
      if v == "safe" { assert RatingValue(Safe) == v; }
      else if v == "suggestive" { assert RatingValue(Suggestive) == v; }
      else if v == "erotica" { assert RatingValue(Erotica) == v; }
      else { assert RatingValue(Pornographic) == v; }
    }
  }

  /** `Relationship` has exactly the nine listed values, one per member. */
  lemma RelationshipValueTable(v: string)
    ensures v in RelationshipValues <==> exists r :: RelationshipValue(r) == v
    ensures forall r, q :: RelationshipValue(r) == RelationshipValue(q) ==> r == q
  {
    if v in RelationshipValues {
      var i :| 0 <= i < |RelationshipValues| && RelationshipValues[i] == v;
      var members := [MangaRel, ChapterRel, CoverArtRel, AuthorRel, ArtistRel,
                      ScanlationGroupRel, TagRel, UserRel, CustomListRel];
      assert RelationshipValue(members[i]) == v;
    }
  }
}
