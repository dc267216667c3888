/**
 * mangadex/utils/manga.py and the `MangaListOrder` of mangadex/types/manga.py:
 * the sort-order parameters of a manga search, and the per-language title and
 * description tables of a manga.
 */
module MangaUtils {
  import opened Wrappers
  import opened MangaTypes
  import opened Python

  /** The arguments of `MangaListOrder(...)`, in declaration order. */
  datatype OrderArgs = OrderArgs(
    title: PyValue,
    year: PyValue,
    createdAt: PyValue,
    updatedAt: PyValue,
    latestUploadedChapter: PyValue,
    followedCount: PyValue,
    relevance: PyValue)

  /** `MangaListOrder()` with every argument left at its default. */
  const DefaultOrderArgs: OrderArgs :=
    OrderArgs(PNone, PNone, PNone, PNone, PStr("desc"), PNone, PNone)

  /** Each argument beside the key it is stored under. */
  function OrderFields(o: OrderArgs): (fields: seq<(string, PyValue)>)
    ensures |fields| == 7
  {
    [("title", o.title), ("year", o.year), ("createdAt", o.createdAt), ("updatedAt", o.updatedAt),
     ("latestUploadedChapter", o.latestUploadedChapter), ("followedCount", o.followedCount),
     ("relevance", o.relevance)]
  }

  const OrderKeys: set<string> :=
    {"title", "year", "createdAt", "updatedAt", "latestUploadedChapter", "followedCount", "relevance"}

  /** No key occurs twice. */
  predicate DistinctKeys(fields: seq<(string, PyValue)>) {
    forall i, j :: 0 <= i < j < |fields| ==> fields[i].0 != fields[j].0
  }

  /** Entries inserted in order, each only when its value is truthy: with distinct keys, a key
      is present exactly when its value is truthy, and then holds that value. */
  function TruthyEntries(fields: seq<(string, PyValue)>): (m: map<string, PyValue>)
    ensures forall k :: k in m ==> exists i :: 0 <= i < |fields| && fields[i].0 == k
    ensures DistinctKeys(fields) ==>
              forall i :: 0 <= i < |fields| ==>
                && (fields[i].0 in m <==> Truthy(fields[i].1))
                && (fields[i].0 in m ==> m[fields[i].0] == fields[i].1)
    decreases |fields|
  {
    if fields == [] then map[]
    else
      var front, last := fields[..|fields| - 1], fields[|fields| - 1];
      var m := TruthyEntries(front);
      assert forall i :: 0 <= i < |front| ==> front[i] == fields[i];
      if Truthy(last.1) then m[last.0 := last.1] else m
  }

  /** The seven keys are distinct. */
  lemma OrderKeysDistinct(o: OrderArgs)
    ensures DistinctKeys(OrderFields(o))
  {
    var f := OrderFields(o);
    forall i, j | 0 <= i < j < 7
      ensures f[i].0 != f[j].0
    {
      assert |f[i].0| != |f[j].0| || f[i].0[0] != f[j].0[0];
    }
  }

  /** `MangaListOrder(...).params`: exactly the truthy arguments, each under its camelCase
      key. */
  function OrderParams(o: OrderArgs): (params: map<string, PyValue>)
    ensures params.Keys <= OrderKeys
    ensures forall i :: 0 <= i < 7 ==>
              && (OrderFields(o)[i].0 in params <==> Truthy(OrderFields(o)[i].1))
              && (OrderFields(o)[i].0 in params ==> params[OrderFields(o)[i].0] == OrderFields(o)[i].1)
  {
    OrderKeysDistinct(o);
    TruthyEntries(OrderFields(o))
  }

  /** With no arguments only the default `latestUploadedChapter` order is sent. */
  lemma DefaultOrder()
    ensures OrderParams(DefaultOrderArgs) == map["latestUploadedChapter" := PStr("desc")]
  {
    var fields, p := OrderFields(DefaultOrderArgs), OrderParams(DefaultOrderArgs);
    assert fields[4] == ("latestUploadedChapter", PStr("desc"));
    assert forall i :: 0 <= i < 7 && i != 4 ==> fields[i].1 == PNone;
    forall k | k in p
      ensures k == "latestUploadedChapter"
    {
      assert k in OrderKeys;
    }
    assert p.Keys == {"latestUploadedChapter"};
  }

  /** The `.value` a language key is replaced by. */
  function Wire(l: MangaDexLanguage): PyValue {
    EnumValue(LanguageMember(l))
  }

  /** Distinct languages have distinct values. */
  lemma WireInjective(l1: MangaDexLanguage, l2: MangaDexLanguage)
    ensures Wire(l1) == Wire(l2) ==> l1 == l2
  {
    if Wire(l1) == Wire(l2) {
      assert l1.value == l2.value;
    }
  }

  /** A per-language table keyed by the languages' values, what `getvalue` is meant to give. */
  function WireKeyed(m: map<MangaDexLanguage, PyValue>): (r: map<PyValue, PyValue>)
    ensures r.Keys == set l | l in m :: Wire(l)
    ensures forall l :: l in m ==> r[Wire(l)] == m[l]
  {
    forall l1, l2 ensures Wire(l1) == Wire(l2) ==> l1 == l2 {
      WireInjective(l1, l2);
    }
    map l | l in m :: Wire(l) := m[l]
  }

  /** The loop over `.items()` that both `getvalue` methods are meant to run: one entry per
      language, under that language's value, and no two languages collide. */
  method KeyByWire(m: map<MangaDexLanguage, PyValue>) returns (r: map<PyValue, PyValue>)
    ensures r == WireKeyed(m)
    ensures |r| == |m|
  {
    r := map[];
    var rest := m.Keys;
    while rest != {}
      invariant rest <= m.Keys
      invariant |r| + |rest| == |m|
      invariant r.Keys == set l | l in m.Keys - rest :: Wire(l)
      invariant forall l :: l in m.Keys - rest ==> r[Wire(l)] == m[l]
      decreases |rest|
    {
      var l :| l in rest;
      forall k | k in m.Keys - rest ensures Wire(k) != Wire(l) {
        WireInjective(k, l);
      }
      assert Wire(l) !in r;
      r := r[Wire(l) := m[l]];
      rest := rest - {l};
    }
  }

  /** `MangaTitles`: a title per language. */
  class MangaTitles {
    var titles: map<MangaDexLanguage, PyValue>

    /** `MangaTitles(title, language=English)` */
    constructor (title: PyValue, language: MangaDexLanguage)
      ensures titles == map[language := title]
    {
      titles := map[language := title];
    }

    /** `add_title`: sets or replaces the one language's title. */
    method AddTitle(title: PyValue, language: MangaDexLanguage)
      modifies this
      ensures titles == old(titles)[language := title]
    {
      titles := titles[language := title];
    }

    /** `getvalue`: the titles keyed by the languages' values. */
    method GetValue() returns (r: map<PyValue, PyValue>)
      ensures r == WireKeyed(titles)
      ensures |r| == |titles|
    {
      r := KeyByWire(titles);
    }
  }

  /** `MangaDescriptions`: a description per language, built like `MangaTitles`. */
  class MangaDescriptions {
    var descriptions: map<MangaDexLanguage, PyValue>

    /** A table is never empty: it starts with one entry and entries are never removed. */
    ghost predicate Valid()
      reads this
    {
      descriptions != map[]
    }

    constructor (desc: PyValue, language: MangaDexLanguage)
      ensures descriptions == map[language := desc] && Valid()
    {
      descriptions := map[language := desc];
      new;
      assert language in descriptions;
    }

    /** `add_description` */
    method AddDescription(desc: PyValue, language: MangaDexLanguage)
      modifies this
      ensures descriptions == old(descriptions)[language := desc] && Valid()
    {
      descriptions := descriptions[language := desc];
      assert language in descriptions;
    }

    /** `getvalue` as written: its loop iterates the keys and unpacks each language member into
        two names, which raises `TypeError` on the first one. */
    method GetValue() returns (r: Result<map<PyValue, PyValue>, PyError>)
      requires Valid()
      ensures r == Err(TypeError)
    {
      var first :| first in descriptions.Keys;  // the key the loop unpacks first
      r := Err(TypeError);
    }

    /** `getvalue` as meant, iterating `.items()` as `MangaTitles.getvalue` does: every
        description, under its language's value. */
    method IntendedGetValue() returns (r: map<PyValue, PyValue>)
      ensures r == WireKeyed(descriptions)
      ensures |r| == |descriptions|
    {
      r := KeyByWire(descriptions);
    }
  }

  /** What `getvalue` of `MangaDescriptions(desc)` is meant to return, where the method as
      written raises `TypeError`: the description under the English code. */
  lemma IntendedDescriptionsValue(desc: PyValue)
    ensures WireKeyed(map[English := desc]) == map[PStr("en") := desc]
  {
    var r := WireKeyed(map[English := desc]);
    assert Wire(English) == PStr("en");
    assert r.Keys == {PStr("en")};
  }

  /** `MangaLinks`: starts with no links; the class has no other member. */
  class MangaLinks {
    var links: map<PyValue, PyValue>

    constructor ()
      ensures links == map[]
    {
      links := map[];
    }
  }
}
