/**
 * mangadex/routes/manga.py: the `MangaList` route. Its constructor runs one
 * check per argument, in argument order, and raises the first failure; its
 * `build_request` turns the checked arguments into the query of a GET on
 * `/manga`.
 *
 * Each check is a function returning the exception it raises, stated against
 * a predicate saying which values it lets through.
 */
module MangaRoutes {
  import opened Wrappers
  import opened MangaTypes
  import opened Python
  import opened Patterns
  import opened Checks
  import opened Routes

  /** The constructor's twenty arguments, in order. */
  datatype MangaListArgs = MangaListArgs(
    limit: PyValue,
    offset: PyValue,
    title: PyValue,
    authors: PyValue,
    artists: PyValue,
    year: PyValue,
    includedTags: PyValue,
    includedTagsMode: PyValue,
    excludedTags: PyValue,
    excludedTagsMode: PyValue,
    status: PyValue,
    originalLanguage: PyValue,
    excludedOriginalLanguage: PyValue,
    availableTranslatedLanguage: PyValue,
    ids: PyValue,
    contentRating: PyValue,
    createdAtSince: PyValue,
    updatedAtSince: PyValue,
    order: PyValue,
    includes: PyValue)

  /** `'%s' % pos` inside an element message. */
  function At(name: string, pos: nat): string {
    name + "[" + IntToString(pos) + "]"
  }

  // ---------------------------------------------------------------------------
  // One check per argument.

  /** `limit` must be an int from 1 to 100 (a bool is an int). */
  function LimitCheck(v: PyValue): (r: Option<PyError>)
    ensures r.None? <==> IsInt(v) && 1 <= AsInt(v) <= 100
    ensures !IsInt(v) ==> r == Some(ValueError("limit must be int"))
  {
    if !IsInt(v) then Some(ValueError("limit must be int"))
    else if AsInt(v) > 100 || AsInt(v) <= 0 then Some(ValueError("limit range must from 1 to 100"))
    else None
  }

  /** `offset` is looked at only when truthy, and must then be a positive int. */
  function OffsetCheck(v: PyValue): (r: Option<PyError>)
    ensures r.None? <==> !Truthy(v) || (IsInt(v) && AsInt(v) > 0)
  {
    if !Truthy(v) then None
    else if !IsInt(v) then Some(ValueError("offset must be int"))
    else if AsInt(v) <= 0 then Some(ValueError("offset cannot lower than 0"))
    else None
  }

  /** A truthy value must be of one kind: `title` a str, `year` an int. */
  function KindCheck(v: PyValue, ok: bool, msg: string): (r: Option<PyError>)
    ensures r.None? <==> !Truthy(v) || ok
    ensures r.Some? ==> r.value == ValueError(msg)
  {
    if Truthy(v) && !ok then Some(ValueError(msg)) else None
  }

  /** The elements of a list or tuple. */
  function Items(v: PyValue): seq<PyValue>
    requires IsListOrTuple(v)
  {
    v.items
  }

  /** `authors` and `artists`: a truthy value must be a list or tuple of strings; `suffix` is
      the element message of each (they differ by an article). */
  predicate StrListOk(v: PyValue) {
    !Truthy(v) || (IsListOrTuple(v) && forall i :: 0 <= i < |Items(v)| ==> Items(v)[i].PStr?)
  }

  function StrListCheck(v: PyValue, name: string, suffix: string): (r: Option<PyError>)
    ensures r.None? <==> StrListOk(v)
  {
    if !Truthy(v) then None
    else if !IsListOrTuple(v) then Some(ValueError(name + " must be list or tuple"))
    else
      var check := (x: PyValue, pos: nat) => if x.PStr? then None else Some(ValueError(At(name, pos) + suffix));
      FirstErrorNone(Items(v), check, 0);
      FirstError(Items(v), check, 0)
  }

  /** `included_tags` and `excluded_tags`: a truthy value must be a list or tuple of UUID
      strings. */
  predicate TagsOk(v: PyValue) {
    !Truthy(v) || (IsListOrTuple(v) && forall i :: 0 <= i < |Items(v)| ==> Items(v)[i].PStr? && IsUuid(Items(v)[i].s))
  }

  function TagsCheck(v: PyValue, name: string): (r: Option<PyError>)
    ensures r.None? <==> TagsOk(v)
  {
    if !Truthy(v) then None
    else if !IsListOrTuple(v) then Some(ValueError(name + " must be list or tuple"))
    else
      var check := (x: PyValue, pos: nat) => UuidCheck(x, ValueError(At(name, pos) + " is not a uuid"));
      FirstErrorNone(Items(v), check, 0);
      FirstError(Items(v), check, 0)
  }

  /** A tag that is not a string escapes the `except ValueError`: a datetime raises `TypeError`
      from its own `.replace`, an int `AttributeError`. */
  lemma NonStringTagsUncaught(d: DateTime, n: int, name: string)
    ensures TagsCheck(PList([PDatetime(d)]), name) == Some(TypeError)
    ensures TagsCheck(PList([PInt(n)]), name) == Some(AttributeError)
  {
  }

  /** The tag modes must be exactly the string `AND` or `OR`. */
  function ModeCheck(v: PyValue, name: string): (r: Option<PyError>)
    ensures r.None? <==> v in {PStr("AND"), PStr("OR")}
  {
    if v != PStr("AND") && v != PStr("OR") then Some(ValueError(name + " must be \"AND\" or \"OR\"")) else None
  }

  /** `status`: a truthy value must be a `MangaStatus` member or one of their values. */
  predicate StatusOk(v: PyValue) {
    !Truthy(v) || (v.PEnum? && v.member.StatusMember?) || (v.PStr? && v.s in StatusValues)
  }

  /** The status check with the class it evidently means, `MangaStatus`. */
  function StatusCheck(v: PyValue): (r: Option<PyError>)
    ensures r.None? <==> StatusOk(v)
  {
    if !Truthy(v) then None
    else if v.PEnum? && v.member.StatusMember? then None
    else if v.PStr? then (if v.s in StatusValues then None else Some(ValueError("Invalid manga status")))
    else Some(ValueError("status must be MangaStatus or str"))
  }

  /** The status check as written: it names `Status`, which none of the modelled modules
      defines, so any truthy status raises `NameError` before it is looked at. */
  function StatusCheckAsWritten(v: PyValue): (r: Option<PyError>)
    ensures r.None? <==> !Truthy(v)
  {
    if Truthy(v) then Some(NameError("Status")) else None
  }

  /** A hiatus status, accepted by the intended check, is refused as written. */
  lemma StatusAsWrittenRefusesMembers()
    ensures StatusCheck(PEnum(StatusMember(Paused))).None?
    ensures StatusCheck(PStr("hiatus")).None?
    ensures StatusCheckAsWritten(PEnum(StatusMember(Paused))) == Some(NameError("Status"))
    ensures StatusCheckAsWritten(PStr("hiatus")) == Some(NameError("Status"))
  {
    assert StatusValues[2] == "hiatus";
  }

  /** An element of a language list: a `MangaDexLanguage` member or one of their code strings
      (the value of `Other` is None, which no string equals). */
  predicate LanguageItemOk(x: PyValue) {
    (x.PEnum? && x.member.LanguageMember?) || (x.PStr? && x.s in LanguageCodes)
  }

  function LanguageItemCheck(x: PyValue, name: string, pos: nat): (r: Option<PyError>)
    ensures r.None? <==> LanguageItemOk(x)
  {
    if x.PEnum? && x.member.LanguageMember? then None
    else if x.PStr? then (if x.s in LanguageCodes then None else Some(ValueError(At(name, pos) + " is not valid language")))
    else Some(ValueError(At(name, pos) + " must be MangaDexLanguage or str"))
  }

  /** The three language filters: a truthy value must be a list or tuple of languages. */
  predicate LanguageListOk(v: PyValue) {
    !Truthy(v) || (IsListOrTuple(v) && forall i :: 0 <= i < |Items(v)| ==> LanguageItemOk(Items(v)[i]))
  }

  function LanguageListCheck(v: PyValue, name: string): (r: Option<PyError>)
    ensures r.None? <==> LanguageListOk(v)
  {
    if !Truthy(v) then None
    else if !IsListOrTuple(v) then Some(ValueError(name + " must be tuple or list"))
    else
      var check := (x: PyValue, pos: nat) => LanguageItemCheck(x, name, pos);
      FirstErrorNone(Items(v), check, 0);
      FirstError(Items(v), check, 0)
  }

  /** The message of a bad id formats the id itself, not its position. */
  function IdMessage(x: PyValue): PyError {
    ValueError("ids[" + (if x.PStr? then x.s else "") + "] is not uuid")
  }

  /** `ids`: a truthy value must be a list (a tuple is refused) of at most 100 UUID strings. */
  predicate IdsOk(v: PyValue) {
    !Truthy(v) || (v.PList? && |v.items| <= 100 && forall i :: 0 <= i < |v.items| ==> v.items[i].PStr? && IsUuid(v.items[i].s))
  }

  function IdsCheck(v: PyValue): (r: Option<PyError>)
    ensures r.None? <==> IdsOk(v)
  {
    if !Truthy(v) then None
    else if !v.PList? then Some(ValueError("ids must be list or tuple"))
    else if |v.items| > 100 then Some(ValueError("ids cannot be more than 100"))
    else
      var check := (x: PyValue, pos: nat) => UuidCheck(x, IdMessage(x));
      FirstErrorNone(v.items, check, 0);
      FirstError(v.items, check, 0)
  }

  /** `content_rating`: always checked, and must be a list or tuple of `ContentRating` members.
      The allowed strings are the elements' own values, computed first, so a string element has
      no `.value` and raises `AttributeError`; an empty list passes. */
  predicate ContentRatingOk(v: PyValue) {
    IsListOrTuple(v) && forall i :: 0 <= i < |Items(v)| ==> Items(v)[i].PEnum? && Items(v)[i].member.RatingMember?
  }

  function ContentRatingCheck(v: PyValue): (r: Option<PyError>)
    ensures r.None? <==> ContentRatingOk(v)
    ensures IsListOrTuple(v) && (exists i :: 0 <= i < |Items(v)| && Items(v)[i].PStr?) ==> r == Some(AttributeError)
  {
    if !IsListOrTuple(v) then Some(ValueError("content_rating must be list or tuple"))
    else if !AllHaveValue(Items(v)) then Some(AttributeError)
    else
      var check := (x: PyValue, pos: nat) =>
        if x.PEnum? && x.member.RatingMember? then None else Some(ValueError("content_rating must be ContentRating or str"));
      FirstErrorNone(Items(v), check, 0);
      FirstError(Items(v), check, 0)
  }

  /** `created_at_since` and `updated_at_since`: a truthy value must be a datetime or a string
      in the date-time format. */
  predicate DateOk(v: PyValue) {
    !Truthy(v) || v.PDatetime? || (v.PStr? && MatchesDatePattern(v.s))
  }

  lemma DateCheckAccepts(v: PyValue, name: string)
    ensures DateCheck(v, name).None? <==> DateOk(v)
  {
  }

  /** `order`: a truthy value must be a `MangaListOrder`. */
  function OrderCheck(v: PyValue): (r: Option<PyError>)
    ensures r.None? <==> !Truthy(v) || v.POrder?
  {
    if Truthy(v) && !v.POrder? then Some(ValueError("order must be a MangaListOrder")) else None
  }

  /** `includes`: a truthy value must be a list or tuple of `Relationship` members (string
      elements fail on `.value` as for `content_rating`). */
  predicate IncludesOk(v: PyValue) {
    !Truthy(v) || (IsListOrTuple(v) && forall i :: 0 <= i < |Items(v)| ==> Items(v)[i].PEnum? && Items(v)[i].member.RelationshipMember?)
  }

  function IncludesCheck(v: PyValue): (r: Option<PyError>)
    ensures r.None? <==> IncludesOk(v)
  {
    if !Truthy(v) then None
    else if !IsListOrTuple(v) then Some(ValueError("includes must be list or tuple"))
    else if !AllHaveValue(Items(v)) then Some(AttributeError)
    else
      var check := (x: PyValue, pos: nat) =>
        if x.PEnum? && x.member.RelationshipMember? then None else Some(ValueError(At("includes", pos) + " must be Relationship or str"));
      FirstErrorNone(Items(v), check, 0);
      FirstError(Items(v), check, 0)
  }

  // ---------------------------------------------------------------------------
  // The constructor.

  /** Every argument passes its check. */
  predicate Acceptable(a: MangaListArgs) {
    && IsInt(a.limit) && 1 <= AsInt(a.limit) <= 100
    && (!Truthy(a.offset) || (IsInt(a.offset) && AsInt(a.offset) > 0))
    && (!Truthy(a.title) || a.title.PStr?)
    && StrListOk(a.authors) && StrListOk(a.artists)
    && (!Truthy(a.year) || IsInt(a.year))
    && TagsOk(a.includedTags) && a.includedTagsMode in {PStr("AND"), PStr("OR")}
    && TagsOk(a.excludedTags) && a.excludedTagsMode in {PStr("AND"), PStr("OR")}
    && StatusOk(a.status)
    && LanguageListOk(a.originalLanguage) && LanguageListOk(a.excludedOriginalLanguage)
    && LanguageListOk(a.availableTranslatedLanguage)
    && IdsOk(a.ids) && ContentRatingOk(a.contentRating)
    && DateOk(a.createdAtSince) && DateOk(a.updatedAtSince)
    && (!Truthy(a.order) || a.order.POrder?)
    && IncludesOk(a.includes)
  }

  /** The checks of the ten arguments before `status`, in source order. */
  function ChecksBeforeStatus(a: MangaListArgs): Option<PyError> {
    Then(LimitCheck(a.limit),
    Then(OffsetCheck(a.offset),
    Then(KindCheck(a.title, a.title.PStr?, "title must be str"),
    Then(StrListCheck(a.authors, "authors", " is not str"),
    Then(StrListCheck(a.artists, "artists", " is not a str"),
    Then(KindCheck(a.year, IsInt(a.year), "year must be int"),
    Then(TagsCheck(a.includedTags, "included_tags"),
    Then(ModeCheck(a.includedTagsMode, "included_tags_mode"),
    Then(TagsCheck(a.excludedTags, "excluded_tags"),
         ModeCheck(a.excludedTagsMode, "excluded_tags_mode"))))))))))
  }

  /** The checks of the nine arguments after `status`, in source order. */
  function ChecksAfterStatus(a: MangaListArgs): Option<PyError> {
    Then(LanguageListCheck(a.originalLanguage, "original_language"),
    Then(LanguageListCheck(a.excludedOriginalLanguage, "excluded_original_language"),
    Then(LanguageListCheck(a.availableTranslatedLanguage, "available_translated_language"),
    Then(IdsCheck(a.ids),
    Then(ContentRatingCheck(a.contentRating),
    Then(DateCheck(a.createdAtSince, "created_at_since"),
    Then(DateCheck(a.updatedAtSince, "updated_at_since"),
    Then(OrderCheck(a.order),
         IncludesCheck(a.includes)))))))))
  }

  /** The checks in source order, with the corrected status check; the first failure is
      raised. */
  function Validate(a: MangaListArgs): Option<PyError> {
    Then(ChecksBeforeStatus(a), Then(StatusCheck(a.status), ChecksAfterStatus(a)))
  }

  /** `MangaList(...)` with the corrected status check: the arguments are kept as given when
      every check passes. */
  function NewMangaList(a: MangaListArgs): (r: Result<MangaListArgs, PyError>)
    ensures r.Ok? <==> Acceptable(a)
    ensures r.Ok? ==> r.value == a
    ensures !IsInt(a.limit) ==> r == Err(ValueError("limit must be int"))
  {
    DateCheckAccepts(a.createdAtSince, "created_at_since");
    DateCheckAccepts(a.updatedAtSince, "updated_at_since");
    var e := Validate(a);
    if e.Some? then Err(e.value) else Ok(a)
  }

  /** `MangaList(...)` as written: the same checks, with the status check that names the
      undefined `Status`. */
  function NewMangaListAsWritten(a: MangaListArgs): (r: Result<MangaListArgs, PyError>)
    ensures r.Ok? <==> Acceptable(a) && !Truthy(a.status)
    ensures r.Ok? ==> r.value == a
  {
    var e := Then(ChecksBeforeStatus(a), Then(StatusCheckAsWritten(a.status), ChecksAfterStatus(a)));
    assert e.None? <==> Validate(a).None? && !Truthy(a.status);
    assert NewMangaList(a).Ok? <==> Validate(a).None?;
    if e.Some? then Err(e.value) else Ok(a)
  }

  /** The two constructors differ exactly on a truthy status: there, once the ten earlier
      checks pass, the constructor as written raises `NameError` whatever the status is. */
  lemma AsWrittenDiffersOnStatus(a: MangaListArgs)
    ensures !Truthy(a.status) ==> NewMangaListAsWritten(a) == NewMangaList(a)
    ensures Truthy(a.status) && ChecksBeforeStatus(a).Some? ==>
              NewMangaListAsWritten(a) == NewMangaList(a) == Err(ChecksBeforeStatus(a).value)
    ensures Truthy(a.status) && ChecksBeforeStatus(a).None? ==>
              NewMangaListAsWritten(a) == Err(NameError("Status"))
  {
  }

  /** A later check is reached only when all earlier ones pass: with every argument before it
      valid, a bad content rating raises its own error whatever the dates, `order` and
      `includes` are. */
  lemma ChecksInOrder(a: MangaListArgs)
    requires Acceptable(a.(contentRating := PList([]), createdAtSince := PNone, updatedAtSince := PNone, order := PNone, includes := PNone))
    requires !ContentRatingOk(a.contentRating)
    ensures NewMangaList(a) == Err(ContentRatingCheck(a.contentRating).value)
  {
    var b := a.(contentRating := PList([]), createdAtSince := PNone, updatedAtSince := PNone, order := PNone, includes := PNone);
    assert NewMangaList(b).Ok?;
    assert ChecksBeforeStatus(a) == ChecksBeforeStatus(b) && StatusCheck(a.status) == StatusCheck(b.status);
    assert LanguageListCheck(a.originalLanguage, "original_language").None?;
    assert LanguageListCheck(a.excludedOriginalLanguage, "excluded_original_language").None?;
    assert LanguageListCheck(a.availableTranslatedLanguage, "available_translated_language").None?;
    assert IdsCheck(a.ids).None?;
  }

  // ---------------------------------------------------------------------------
  // build_request.

  /** Datetime objects hold calendar values (Python's `datetime` refuses any other). */
  predicate WellFormedDates(a: MangaListArgs) {
    && (a.createdAtSince.PDatetime? ==> ValidDateTime(a.createdAtSince.dt))
    && (a.updatedAtSince.PDatetime? ==> ValidDateTime(a.updatedAtSince.dt))
  }

  /** An element of a converted list: an enum member becomes its value, anything else (a string,
      after the constructor's checks) is kept. */
  function WireItem(x: PyValue): PyValue {
    if x.PEnum? then EnumValue(x.member) else x
  }

  function WireItems(items: seq<PyValue>): (xs: seq<PyValue>)
    ensures |xs| == |items|
    ensures forall i :: 0 <= i < |items| ==> xs[i] == WireItem(items[i])
  {
    seq(|items|, i requires 0 <= i < |items| => WireItem(items[i]))
  }

  /** The converting loops of `build_request`. */
  method ConvertItems(items: seq<PyValue>) returns (xs: seq<PyValue>)
    ensures xs == WireItems(items)
  {
    xs := [];
    for i := 0 to |items|
      invariant xs == WireItems(items[..i])
    {
      assert items[..i + 1] == items[..i] + [items[i]];
      if items[i].PEnum? {
        xs := xs + [EnumValue(items[i].member)];
      } else {
        xs := xs + [items[i]];
      }
    }
    assert items[..|items|] == items;
  }

  /** A date as sent: a datetime is formatted, a string is sent as it is. */
  function WireDate(v: PyValue): PyValue
    requires v.PDatetime? ==> ValidDateTime(v.dt)
  {
    if v.PDatetime? then PStr(Strftime(v.dt)) else v
  }

  /** One assignment `build_request` may make: key `key` gets `value` when `sent` holds. */
  datatype Entry = Entry(key: string, value: PyValue, sent: bool)

  /** The dict the assignments produce, made in order (a later one wins, as in Python). */
  function Collect(es: seq<Entry>): map<string, PyValue>
    decreases |es|
  {
    if es == [] then map[]
    else
      var q, e := Collect(es[..|es| - 1]), es[|es| - 1];
      if e.sent then q[e.key := e.value] else q
  }

  predicate DistinctKeys(es: seq<Entry>) {
    forall i, j :: 0 <= i < j < |es| ==> es[i].key != es[j].key
  }

  /** With distinct keys, a key is present exactly when its assignment is made, and then holds
      that assignment's value; no other key is present. */
  lemma {:induction false} CollectSpec(es: seq<Entry>)
    requires DistinctKeys(es)
    ensures forall i :: 0 <= i < |es| ==>
              && (es[i].key in Collect(es) <==> es[i].sent)
              && (es[i].sent ==> Collect(es)[es[i].key] == es[i].value)
    ensures forall k :: k in Collect(es) ==> exists i :: 0 <= i < |es| && es[i].key == k
    decreases |es|
  {
    if es != [] {
      var front := es[..|es| - 1];
      assert DistinctKeys(front) by {
        forall i, j | 0 <= i < j < |front|
          ensures front[i].key != front[j].key
        {
          assert front[i] == es[i] && front[j] == es[j];
        }
      }
      CollectSpec(front);
      forall i | 0 <= i < |es| - 1
        ensures es[i] == front[i]
      {
      }
    }
  }

  /** Key `k` of query `q` is sent exactly when field value `v` is truthy, and then carries `w`. */
  predicate SentWhenTruthy(q: map<string, PyValue>, k: string, v: PyValue, w: PyValue) {
    (k in q <==> Truthy(v)) && (k in q ==> q[k] == w)
  }

  /** The twenty keys `build_request` may send, in the order it assigns them. */
  const QueryKeys: seq<string> := [
    "limit", "offset", "title", "authors[]", "artists[]", "year", "includedTags[]",
    "includedTagsMode", "excludedTags[]", "excludedTagsMode", "status[]", "originalLanguage[]",
    "excludedOriginalLanguage[]", "availableTranslatedLanguage[]", "ids[]", "contentRating[]",
    "createdAtSince", "updatedAtSince", "order", "includes[]"]

  /** Field shapes `build_request` relies on; the constructor's checks guarantee them. */
  predicate Buildable(a: MangaListArgs) {
    && (a.contentRating.PList? || a.contentRating.PTuple?)
    && (Truthy(a.originalLanguage) ==> a.originalLanguage.PList? || a.originalLanguage.PTuple?)
    && WellFormedDates(a)
  }

  lemma AcceptableIsBuildable(a: MangaListArgs)
    requires Acceptable(a) && WellFormedDates(a)
    ensures Buildable(a)
  {
  }

  /** The assignments of `build_request`, in source order; `langs` and `ratings` are the
      converted original languages and content ratings. */
  function Entries(a: MangaListArgs, langs: seq<PyValue>, ratings: seq<PyValue>): (es: seq<Entry>)
    requires WellFormedDates(a)
    ensures |es| == |QueryKeys| && forall i :: 0 <= i < |es| ==> es[i].key == QueryKeys[i]
  {
    [Entry("limit", a.limit, true),
     Entry("offset", a.offset, Truthy(a.offset)),
     Entry("title", a.title, Truthy(a.title)),
     Entry("authors[]", a.authors, Truthy(a.authors)),
     Entry("artists[]", a.artists, Truthy(a.artists)),
     Entry("year", a.year, Truthy(a.year)),
     Entry("includedTags[]", a.includedTags, Truthy(a.includedTags)),
     Entry("includedTagsMode", a.includedTagsMode, true),
     Entry("excludedTags[]", a.excludedTags, Truthy(a.excludedTags)),
     Entry("excludedTagsMode", a.excludedTagsMode, true),
     Entry("status[]", a.status, Truthy(a.status)),
     Entry("originalLanguage[]", PList(langs), Truthy(a.originalLanguage)),
     Entry("excludedOriginalLanguage[]", a.excludedOriginalLanguage, Truthy(a.excludedOriginalLanguage)),
     Entry("availableTranslatedLanguage[]", a.availableTranslatedLanguage, Truthy(a.availableTranslatedLanguage)),
     Entry("ids[]", a.ids, Truthy(a.ids)),
     Entry("contentRating[]", PList(ratings), true),
     Entry("createdAtSince", WireDate(a.createdAtSince), Truthy(a.createdAtSince)),
     Entry("updatedAtSince", WireDate(a.updatedAtSince), Truthy(a.updatedAtSince)),
     Entry("order", if a.order.POrder? then PDict(a.order.params) else PNone, Truthy(a.order)),
     Entry("includes[]", PList([]), Truthy(a.includes))]
  }

  /** The original languages as sent: converted, and empty when the field is falsy. */
  function SentLanguages(a: MangaListArgs): seq<PyValue>
    requires Buildable(a)
  {
    if Truthy(a.originalLanguage) then WireItems(Items(a.originalLanguage)) else []
  }

  /** The `params` dict of `build_request` for arguments `a`. */
  function Query(a: MangaListArgs): map<string, PyValue>
    requires Buildable(a)
  {
    Collect(Entries(a, SentLanguages(a), WireItems(Items(a.contentRating))))
  }

  /** `MangaList.build_request`: a GET on `/manga` carrying `Query(a)`; the loops convert the
      language and content-rating lists, and the assignments are made in order. */
  method BuildRequest(a: MangaListArgs, headers: map<string, string>) returns (p: RequestParams)
    requires Acceptable(a) && WellFormedDates(a)
    ensures p.verb == "GET" && p.url == BaseUrl + "/manga" && p.headers == headers
    ensures Buildable(a) && p.json.None? && p.params == Some(Query(a))
  {
    AcceptableIsBuildable(a);
    var langs := [];
    if Truthy(a.originalLanguage) {
      langs := ConvertItems(Items(a.originalLanguage));
    }
    var ratings := ConvertItems(Items(a.contentRating));
    assert langs == SentLanguages(a);
    var q := Assign(Entries(a, langs, ratings));
    p := Routes.BuildRequest(Get, "/manga", headers).(params := Some(q));
  }

  /** The assignments made one after another into a fresh dict. */
  method Assign(es: seq<Entry>) returns (q: map<string, PyValue>)
    ensures q == Collect(es)
  {
    q := map[];
    for i := 0 to |es|
      invariant q == Collect(es[..i])
    {
      assert es[..i + 1][..i] == es[..i];
      if es[i].sent {
        q := q[es[i].key := es[i].value];
      }
    }
    assert es[..|es|] == es;
  }

  lemma QueryKeysDistinct()
    ensures forall i, j :: 0 <= i < j < |QueryKeys| ==> QueryKeys[i] != QueryKeys[j]
  {
  }

  /** The query's entries, and the fact that its keys are distinct. */
  lemma QueryEntries(a: MangaListArgs) returns (es: seq<Entry>)
    requires Buildable(a)
    ensures es == Entries(a, SentLanguages(a), WireItems(Items(a.contentRating)))
    ensures Query(a) == Collect(es) && DistinctKeys(es)
    ensures forall i :: 0 <= i < |es| ==>
              && (es[i].key in Query(a) <==> es[i].sent)
              && (es[i].sent ==> Query(a)[es[i].key] == es[i].value)
  {
    es := Entries(a, SentLanguages(a), WireItems(Items(a.contentRating)));
    QueryKeysDistinct();
    assert DistinctKeys(es);
    CollectSpec(es);
  }

  /** Assignment `i` of `build_request` decides whether its key is sent, and what it carries. */
  lemma SentAt(a: MangaListArgs, i: nat)
    requires Buildable(a) && i < |QueryKeys|
    ensures var e := Entries(a, SentLanguages(a), WireItems(Items(a.contentRating)))[i];
            && (e.key in Query(a) <==> e.sent)
            && (e.sent ==> Query(a)[e.key] == e.value)
  {
    var es := QueryEntries(a);
  }

  /** Only the twenty query keys are ever sent. */
  lemma QueryKeysBounded(a: MangaListArgs)
    requires Buildable(a)
    ensures forall k :: k in Query(a) ==> k in QueryKeys
  {
    var es := QueryEntries(a);
    CollectSpec(es);
  }

  /** The search fields: `limit` always, and `offset`, `title`, `authors[]` and `artists[]` as
      given exactly when truthy. */
  lemma QuerySearchFields(a: MangaListArgs)
    requires Buildable(a)
    ensures var q := Query(a);
            && "limit" in q && q["limit"] == a.limit
            && SentWhenTruthy(q, "offset", a.offset, a.offset)
            && SentWhenTruthy(q, "title", a.title, a.title)
            && SentWhenTruthy(q, "authors[]", a.authors, a.authors)
            && SentWhenTruthy(q, "artists[]", a.artists, a.artists)
  {
    SentAt(a, 0);
    SentAt(a, 1);
    SentAt(a, 2);
    SentAt(a, 3);
    SentAt(a, 4);
  }

  /** The tag fields: both modes always, and `year` and the tag lists as given exactly when
      truthy. */
  lemma QueryTagFields(a: MangaListArgs)
    requires Buildable(a)
    ensures var q := Query(a);
            && SentWhenTruthy(q, "year", a.year, a.year)
            && SentWhenTruthy(q, "includedTags[]", a.includedTags, a.includedTags)
            && "includedTagsMode" in q && q["includedTagsMode"] == a.includedTagsMode
            && SentWhenTruthy(q, "excludedTags[]", a.excludedTags, a.excludedTags)
            && "excludedTagsMode" in q && q["excludedTagsMode"] == a.excludedTagsMode
  {
    SentAt(a, 5);
    SentAt(a, 6);
    SentAt(a, 7);
    SentAt(a, 8);
    SentAt(a, 9);
  }

  /** The language fields, each exactly when truthy: original languages converted to their
      codes, while the excluded and available languages are sent as given, members unconverted
      (their converted lists are built and dropped); `status[]` and `ids[]` as given. */
  lemma QueryLanguageFields(a: MangaListArgs)
    requires Buildable(a)
    ensures var q := Query(a);
            && SentWhenTruthy(q, "status[]", a.status, a.status)
            && SentWhenTruthy(q, "originalLanguage[]", a.originalLanguage, PList(SentLanguages(a)))
            && SentWhenTruthy(q, "excludedOriginalLanguage[]", a.excludedOriginalLanguage, a.excludedOriginalLanguage)
            && SentWhenTruthy(q, "availableTranslatedLanguage[]", a.availableTranslatedLanguage, a.availableTranslatedLanguage)
            && SentWhenTruthy(q, "ids[]", a.ids, a.ids)
  {
    SentAt(a, 10);
    SentAt(a, 11);
    SentAt(a, 12);
    SentAt(a, 13);
    SentAt(a, 14);
  }

  /** The filter fields: the converted content ratings always; dates formatted, `order` as its
      `params`, and `includes[]` empty, each exactly when its field is truthy. */
  lemma QueryFilterFields(a: MangaListArgs)
    requires Buildable(a)
    ensures var q := Query(a);
            && "contentRating[]" in q && q["contentRating[]"] == PList(WireItems(Items(a.contentRating)))
            && SentWhenTruthy(q, "createdAtSince", a.createdAtSince, WireDate(a.createdAtSince))
            && SentWhenTruthy(q, "updatedAtSince", a.updatedAtSince, WireDate(a.updatedAtSince))
            && ("order" in q <==> Truthy(a.order))
            && (a.order.POrder? && "order" in q ==> q["order"] == PDict(a.order.params))
            && SentWhenTruthy(q, "includes[]", a.includes, PList([]))
  {
    SentAt(a, 15);
    SentAt(a, 16);
    SentAt(a, 17);
    SentAt(a, 18);
    SentAt(a, 19);
  }

  /** What is sent for content ratings is always a list of rating values. */
  lemma SentRatingsAreValues(a: MangaListArgs)
    requires Acceptable(a) && WellFormedDates(a)
    ensures Buildable(a)
    ensures "contentRating[]" in Query(a)
    ensures var xs := Query(a)["contentRating[]"];
            xs.PList? && forall i :: 0 <= i < |xs.items| ==> xs.items[i].PStr? && xs.items[i].s in RatingValues
  {
    QueryFilterFields(a);
    var items := Items(a.contentRating);
    forall i | 0 <= i < |items|
      ensures WireItem(items[i]).PStr? && WireItem(items[i]).s in RatingValues
    {
      RatingValueTable(RatingValue(items[i].member.rating));
    }
  }

  /** A date that passes the constructor is sent in the date-time format, whichever of the two
      forms it was given in. */
  lemma SentDatesMatchPattern(v: PyValue)
    requires DateOk(v) && Truthy(v)
    requires v.PDatetime? ==> ValidDateTime(v.dt)
    ensures WireDate(v).PStr? && MatchesDatePattern(WireDate(v).s)
  {
    if v.PDatetime? {
      StrftimeMatchesPattern(v.dt);
    }
  }

  /** What `includes[]` evidently should carry: the included relationships' values. */
  function IntendedIncludes(v: PyValue): (xs: seq<PyValue>)
    requires IncludesOk(v)
    ensures |xs| == (if Truthy(v) then |Items(v)| else 0)
    ensures forall i :: 0 <= i < |xs| ==> xs[i].PStr? && xs[i].s in RelationshipValues
  {
    if !Truthy(v) then []
    else
      var xs := WireItems(Items(v));
      assert forall i :: 0 <= i < |xs| ==> xs[i].PStr? && xs[i].s in RelationshipValues by {
        forall i | 0 <= i < |xs|
          ensures xs[i].PStr? && xs[i].s in RelationshipValues
        {
          RelationshipValueTable(RelationshipValue(Items(v)[i].member.rel));
        }
      }
      xs
  }

  /** As written, a non-empty `includes` is announced by an empty `includes[]` list, whereas
      the intended list has one value per relationship. */
  lemma IncludesDropped(a: MangaListArgs)
    requires Buildable(a) && IncludesOk(a.includes) && Truthy(a.includes)
    ensures Query(a)["includes[]"] == PList([])
    ensures |IntendedIncludes(a.includes)| > 0
  {
    QueryFilterFields(a);
  }
}
