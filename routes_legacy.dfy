/**
 * mangadex/routes.py: the older route module. Its `MangaList` takes the same twenty arguments
 * as the newer one, with defaults, and checks them in the same order, but with looser limits,
 * single-value language filters, a mandatory `order`, and an `includes` check written for
 * content ratings; it does not override `BaseRoute.build_request`, which only raises.
 */
module LegacyRoutes {
  import opened Wrappers
  import opened MangaTypes
  import opened Python
  import opened Patterns
  import opened Checks
  import opened Routes
  import opened MangaRoutes

  /** The method names of this module's `GET`, `POST`, `PUT` and `DEL` classes. */
  function LegacyMethodName(m: HttpMethod): (name: string)
    ensures name in {"GET", "POST", "PUT", "DEL"}
    ensures m != Delete ==> name == MethodName(m)
  {
    match m
    case Get => "GET"
    case Post => "POST"
    case Put => "PUT"
    case Delete => "DEL"
  }

  /** The delete method is spelled differently from the newer routes, which send `DELETE`. */
  lemma DeleteSpelling()
    ensures LegacyMethodName(Delete) != MethodName(Delete)
  {
  }

  /** The constructor's defaults: `limit` 10, the modes `AND` and `OR`, the safe, suggestive
      and erotica ratings, and None elsewhere. */
  const LegacyDefaults: MangaListArgs := MangaListArgs(
    PInt(10), PNone, PNone, PNone, PNone, PNone, PNone, PStr("AND"), PNone, PStr("OR"),
    PNone, PNone, PNone, PNone, PNone,
    PList([PEnum(RatingMember(Safe)), PEnum(RatingMember(Suggestive)), PEnum(RatingMember(Erotica))]),
    PNone, PNone, PNone, PNone)

  /** The language filters here take one language, not a list: a member, or one of the
      codes. */
  predicate LanguageValueOk(v: PyValue) {
    !Truthy(v) || LanguageItemOk(v)
  }

  function LanguageValueCheck(v: PyValue, name: string): (r: Option<PyError>)
    ensures r.None? <==> LanguageValueOk(v)
    ensures Truthy(v) && IsListOrTuple(v) ==> r == Some(ValueError(name + " must be MangaDexLanguage or str"))
  {
    if !Truthy(v) then None
    else if v.PEnum? && v.member.LanguageMember? then None
    else if v.PStr? then (if v.s in LanguageCodes then None else Some(ValueError("Invalid language")))
    else Some(ValueError(name + " must be MangaDexLanguage or str"))
  }

  /** `ids`: a list of UUID strings, of any length. */
  predicate LegacyIdsOk(v: PyValue) {
    !Truthy(v) || (v.PList? && forall i :: 0 <= i < |v.items| ==> v.items[i].PStr? && IsUuid(v.items[i].s))
  }

  function LegacyIdsCheck(v: PyValue): (r: Option<PyError>)
    ensures r.None? <==> LegacyIdsOk(v)
  {
    if !Truthy(v) then None
    else if !v.PList? then Some(ValueError("ids must be list or tuple"))
    else
      var check := (x: PyValue, pos: nat) => UuidCheck(x, IdMessage(x));
      FirstErrorNone(v.items, check, 0);
      FirstError(v.items, check, 0)
  }

  /** `limit` must be an int, of any value. */
  function LegacyLimitCheck(v: PyValue): (r: Option<PyError>)
    ensures r.None? <==> IsInt(v)
  {
    if !IsInt(v) then Some(ValueError("limit must be int")) else None
  }

  /** More than 100 ids pass here and fail in the newer route. */
  lemma IdsUncapped(v: PyValue)
    requires v.PList? && |v.items| > 100 && LegacyIdsOk(v)
    ensures LegacyIdsCheck(v).None?
    ensures IdsCheck(v) == Some(ValueError("ids cannot be more than 100"))
  {
  }

  /** `order` as written: anything but a `MangaListOrder`, None included, is refused, although
      None is the default. */
  function LegacyOrderCheck(v: PyValue): (r: Option<PyError>)
    ensures r.None? <==> v.POrder?
  {
    if !v.POrder? then Some(ValueError("order must be a MangaListOrder")) else None
  }

  /** `includes` as written: the elements must be `ContentRating` members, although the
      parameter is documented as a list of relationships. */
  predicate LegacyIncludesOk(v: PyValue) {
    !Truthy(v) || (IsListOrTuple(v) && forall i :: 0 <= i < |Items(v)| ==> Items(v)[i].PEnum? && Items(v)[i].member.RatingMember?)
  }

  function LegacyIncludesCheck(v: PyValue): (r: Option<PyError>)
    ensures r.None? <==> LegacyIncludesOk(v)
  {
    if !Truthy(v) then None
    else if !IsListOrTuple(v) then Some(ValueError("includes must be list or tuple"))
    else if !AllHaveValue(Items(v)) then Some(AttributeError)
    else
      var check := (x: PyValue, pos: nat) =>
        if x.PEnum? && x.member.RatingMember? then None else Some(ValueError("includes must be ContentRating or str"));
      FirstErrorNone(Items(v), check, 0);
      FirstError(Items(v), check, 0)
  }

  /** Every argument passes its check. */
  predicate LegacyAcceptable(a: MangaListArgs) {
    && IsInt(a.limit)
    && (!Truthy(a.offset) || IsInt(a.offset))
    && (!Truthy(a.title) || a.title.PStr?)
    && StrListOk(a.authors) && StrListOk(a.artists)
    && (!Truthy(a.year) || IsInt(a.year))
    && TagsOk(a.includedTags) && a.includedTagsMode in {PStr("AND"), PStr("OR")}
    && TagsOk(a.excludedTags) && a.excludedTagsMode in {PStr("AND"), PStr("OR")}
    && StatusOk(a.status)
    && LanguageValueOk(a.originalLanguage) && LanguageValueOk(a.excludedOriginalLanguage)
    && LanguageValueOk(a.availableTranslatedLanguage)
    && LegacyIdsOk(a.ids) && ContentRatingOk(a.contentRating)
    && DateOk(a.createdAtSince) && DateOk(a.updatedAtSince)
    && a.order.POrder?
    && LegacyIncludesOk(a.includes)
  }

  /** The checks of the arguments before `order`, in source order. The third language filter
      is called `available_original_language` here. */
  function LegacyArgumentChecks(a: MangaListArgs): Option<PyError> {
    Then(LegacyLimitCheck(a.limit),
    Then(KindCheck(a.offset, IsInt(a.offset), "offset must be int"),
    Then(KindCheck(a.title, a.title.PStr?, "title must be str"),
    Then(StrListCheck(a.authors, "authors", " is not str"),
    Then(StrListCheck(a.artists, "artists", " is not a str"),
    Then(KindCheck(a.year, IsInt(a.year), "year must be int"),
    Then(TagsCheck(a.includedTags, "included_tags"),
    Then(ModeCheck(a.includedTagsMode, "included_tags_mode"),
    Then(TagsCheck(a.excludedTags, "excluded_tags"),
    Then(ModeCheck(a.excludedTagsMode, "excluded_tags_mode"),
    Then(StatusCheck(a.status),
    Then(LanguageValueCheck(a.originalLanguage, "original_language"),
    Then(LanguageValueCheck(a.excludedOriginalLanguage, "excluded_original_language"),
    Then(LanguageValueCheck(a.availableTranslatedLanguage, "available_original_language"),
    Then(LegacyIdsCheck(a.ids),
    Then(ContentRatingCheck(a.contentRating),
    Then(DateCheck(a.createdAtSince, "created_at_since"),
         DateCheck(a.updatedAtSince, "updated_at_since"))))))))))))))))))
  }

  /** All checks in source order; the first failure is raised. */
  function LegacyValidate(a: MangaListArgs): Option<PyError> {
    Then(LegacyArgumentChecks(a), Then(LegacyOrderCheck(a.order), LegacyIncludesCheck(a.includes)))
  }

  /** What the object keeps: every argument but `order`, and `includes` only when truthy. */
  datatype LegacyMangaList = LegacyMangaList(args: MangaListArgs, includes: Option<PyValue>)

  /** `MangaList(...)` of this module. */
  function NewLegacyMangaList(a: MangaListArgs): (r: Result<LegacyMangaList, PyError>)
    ensures r.Ok? <==> LegacyAcceptable(a)
    ensures r.Ok? ==> r.value.args == a.(order := PNone, includes := PNone)
    ensures r.Ok? ==> r.value.includes == (if Truthy(a.includes) then Some(a.includes) else None)
  {
    DateCheckAccepts(a.createdAtSince, "created_at_since");
    DateCheckAccepts(a.updatedAtSince, "updated_at_since");
    var e := LegacyValidate(a);
    if e.Some? then Err(e.value)
    else Ok(LegacyMangaList(a.(order := PNone, includes := PNone), if Truthy(a.includes) then Some(a.includes) else None))
  }

  /** Constructing with the defaults always fails on `order`, while the newer route accepts
      them (apart from its limit and other bounds, which the defaults meet). */
  lemma DefaultsRejected()
    ensures NewLegacyMangaList(LegacyDefaults) == Err(ValueError("order must be a MangaListOrder"))
    ensures NewMangaList(LegacyDefaults) == Ok(LegacyDefaults)
  {
    var a := LegacyDefaults;
    var items := Items(a.contentRating);
    assert ContentRatingOk(a.contentRating) by {
      assert items[0].member.RatingMember? && items[1].member.RatingMember? && items[2].member.RatingMember?;
    }
    assert Acceptable(a);
    assert LegacyArgumentChecks(a).None?;
  }

  /** One relationship as the includes: refused by the check of this module, accepted by the
      newer one. */
  lemma SingleRelationshipIncludes(rel: Relationship)
    ensures LegacyIncludesCheck(PList([PEnum(RelationshipMember(rel))])) == Some(ValueError("includes must be ContentRating or str"))
    ensures IncludesCheck(PList([PEnum(RelationshipMember(rel))])).None?
  {
    var v := PList([PEnum(RelationshipMember(rel))]);
    var check := (x: PyValue, pos: nat) =>
      if x.PEnum? && x.member.RatingMember? then None else Some(ValueError("includes must be ContentRating or str"));
    assert FirstError(v.items, check, 0) == Some(ValueError("includes must be ContentRating or str"));
  }

  /** A relationship among the includes is refused here and accepted by the newer route. */
  lemma RelationshipIncludesRejected(a: MangaListArgs, rel: Relationship)
    requires LegacyAcceptable(a.(includes := PNone))
    requires a.includes == PList([PEnum(RelationshipMember(rel))])
    ensures NewLegacyMangaList(a) == Err(ValueError("includes must be ContentRating or str"))
    ensures IncludesCheck(a.includes).None?
  {
    var b := a.(includes := PNone);
    assert LegacyArgumentChecks(b).None? by {
      assert NewLegacyMangaList(b).Ok?;
    }
    assert LegacyArgumentChecks(a) == LegacyArgumentChecks(b);
    SingleRelationshipIncludes(rel);
  }

  /** `build_request` is inherited from `BaseRoute`, which raises `NotImplementedError`: no
      list built here ever produces a request. */
  function LegacyBuildRequest(m: LegacyMangaList): (r: Result<RequestParams, PyError>)
    ensures r == Err(NotImplementedError)
  {
    Err(NotImplementedError)
  }
}
