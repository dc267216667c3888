/**
 * The Python values and built-in exceptions that the route builders, the error
 * classes and the result wrappers of mangadex.py inspect at run time.
 */
module Python {
  import opened Wrappers
  import opened MangaTypes

  /** A member of one of the library's enumerations. */
  datatype EnumMember =
    | LanguageMember(lang: MangaDexLanguage)
    | RatingMember(rating: ContentRating)
    | RelationshipMember(rel: Relationship)
    | StatusMember(status: MangaStatus)

  /** A `datetime.datetime` object (time zone and microseconds are not modelled). */
  datatype DateTime = DateTime(year: int, month: int, day: int, hour: int, minute: int, second: int)

  /** A Python object as far as `isinstance` checks, truthiness and JSON bodies tell them apart. */
  datatype PyValue =
    | PNone
    | PBool(b: bool)
    | PInt(i: int)
    | PStr(s: string)
    | PList(items: seq<PyValue>)
    | PTuple(items: seq<PyValue>)
    | PDict(entries: map<string, PyValue>)
    | PEnum(member: EnumMember)
    | PDatetime(dt: DateTime)
    | POrder(params: map<string, PyValue>)   // a MangaListOrder instance and its `params`
    | PObject                                // any other object

  /** The exceptions the modelled code raises (or lets escape). */
  datatype PyError =
    | ValueError(msg: string)
    | ValueErrorAt(template: string, arg: PyValue)  // ValueError(template % arg)
    | TypeError
    | AttributeError
    | NotImplementedError
    | RuntimeError(msg: string)
    | UnboundLocalError(name: string)
    | NameError(name: string)

  /** `bool(v)`: None, False, 0, empty strings and empty containers are false; every other
      object (enum members, datetimes, MangaListOrder instances) is true. */
  predicate Truthy(v: PyValue) {
    match v
    case PNone => false
    case PBool(b) => b
    case PInt(i) => i != 0
    case PStr(s) => s != ""
    case PList(xs) => xs != []
    case PTuple(xs) => xs != []
    case PDict(m) => m != map[]
    case _ => true
  }

  /** `isinstance(v, int)`: `bool` is a subclass of `int`. */
  predicate IsInt(v: PyValue) {
    v.PInt? || v.PBool?
  }

  function AsInt(v: PyValue): int
    requires IsInt(v)
  {
    if v.PInt? then v.i else if v.b then 1 else 0
  }

  /** `isinstance(v, list) or isinstance(v, tuple)` */
  predicate IsListOrTuple(v: PyValue) {
    v.PList? || v.PTuple?
  }

  /** Whether `v.value` exists, i.e. `v` is an enum member. */
  predicate HasValueAttr(v: PyValue) {
    v.PEnum?
  }

  /** The `.value` of an enum member. */
  function EnumValue(m: EnumMember): PyValue {
    match m
    case LanguageMember(l) => if l.value.Some? then PStr(l.value.value) else PNone
    case RatingMember(r) => PStr(RatingValue(r))
    case RelationshipMember(r) => PStr(RelationshipValue(r))
    case StatusMember(s) => PStr(StatusValue(s))
  }

  /** `d.get(key)` on a dict. */
  function Get(d: map<string, PyValue>, key: string): PyValue {
    if key in d then d[key] else PNone
  }

  function DigitChar(d: int): char
    requires 0 <= d < 10
  {
    ('0' as int + d) as char
  }

  /** Decimal digits of a natural number, without leading zeros. */
  function NatToString(n: nat): (s: string)
    ensures |s| >= 1
    ensures forall i :: 0 <= i < |s| ==> '0' <= s[i] <= '9'
  {
    if n < 10 then [DigitChar(n)] else NatToString(n / 10) + [DigitChar(n % 10)]
  }

  /** `str(i)` for an int. */
  function IntToString(i: int): string {
    if i < 0 then "-" + NatToString(-i) else NatToString(i)
  }

  /** `str(v)` for the scalar values; the text of containers and other objects is not modelled. */
  function Str(v: PyValue): Option<string> {
    match v
    case PNone => Some("None")
    case PBool(b) => Some(if b then "True" else "False")
    case PInt(i) => Some(IntToString(i))
    case PStr(s) => Some(s)
    case _ => None
  }

  /** Reading the decimal text back gives the number: the partner of `NatToString`. */
  function ParseNat(s: string): nat
    requires forall i :: 0 <= i < |s| ==> '0' <= s[i] <= '9'
  {
    if s == [] then 0 else 10 * ParseNat(s[..|s| - 1]) + (s[|s| - 1] - '0') as nat
  }

  lemma {:induction false} ParseNatToString(n: nat)
    ensures ParseNat(NatToString(n)) == n
  {
    if n >= 10 {
      var s := NatToString(n / 10) + [DigitChar(n % 10)];
      assert s[..|s| - 1] == NatToString(n / 10);
      ParseNatToString(n / 10);
    }
  }
}
