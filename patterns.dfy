/**
 * The string formats that the route validators check with library parsers:
 * the date-time regular expression and `datetime.strftime` of
 * mangadex/routes/manga.py, the e-mail regular expression of
 * mangadex/routes/auth.py, and the string form accepted by `uuid.UUID`.
 */
module Patterns {
  import opened Python

  predicate IsDigit(c: char) {
    '0' <= c <= '9'
  }

  /** `\s` restricted to ASCII: space, `\t\n\v\f\r` and the separators `\x1c` to `\x1f`,
      for all of which `str.isspace()` holds. */
  predicate IsSpace(c: char) {
    c == ' ' || 9 <= c as int <= 13 || 28 <= c as int <= 31
  }

  // ---------------------------------------------------------------------------
  // ^\d{4}-[0-1]\d-([0-2]\d|3[0-1])T([0-1]\d|2[0-3]):[0-5]\d:[0-5]\d$

  /** The nineteen characters the pattern consumes. */
  predicate DateCore(s: string) {
    && |s| == 19
    && IsDigit(s[0]) && IsDigit(s[1]) && IsDigit(s[2]) && IsDigit(s[3])
    && s[4] == '-'
    && '0' <= s[5] <= '1' && IsDigit(s[6])
    && s[7] == '-'
    && (('0' <= s[8] <= '2' && IsDigit(s[9])) || (s[8] == '3' && '0' <= s[9] <= '1'))
    && s[10] == 'T'
    && (('0' <= s[11] <= '1' && IsDigit(s[12])) || (s[11] == '2' && '0' <= s[12] <= '3'))
    && s[13] == ':'
    && '0' <= s[14] <= '5' && IsDigit(s[15])
    && s[16] == ':'
    && '0' <= s[17] <= '5' && IsDigit(s[18])
  }

  /** `re_datetime.match(s)` succeeds: `$` also matches just before a final newline. */
  predicate MatchesDatePattern(s: string) {
    DateCore(s) || (|s| == 20 && s[19] == '\n' && DateCore(s[..19]))
  }

  /** The last `width` decimal digits of `n`, zero-padded. */
  function PadDigits(n: nat, width: nat): (s: string)
    ensures |s| == width
    ensures forall i :: 0 <= i < |s| ==> IsDigit(s[i])
  {
    if width == 0 then "" else PadDigits(n / 10, width - 1) + [DigitChar(n % 10)]
  }

  predicate ValidDateTime(dt: DateTime) {
    && 1 <= dt.year <= 9999 && 1 <= dt.month <= 12 && 1 <= dt.day <= 31
    && 0 <= dt.hour < 24 && 0 <= dt.minute < 60 && 0 <= dt.second < 60
  }

  /** `dt.strftime('%Y-%m-%dT%H:%M:%S')`, with the year written in four digits. */
  function Strftime(dt: DateTime): (s: string)
    requires ValidDateTime(dt)
    ensures |s| == 19
  {
    var y, mo, d := PadDigits(dt.year, 4), PadDigits(dt.month, 2), PadDigits(dt.day, 2);
    var h, mi, se := PadDigits(dt.hour, 2), PadDigits(dt.minute, 2), PadDigits(dt.second, 2);
    [y[0], y[1], y[2], y[3], '-', mo[0], mo[1], '-', d[0], d[1], 'T',
     h[0], h[1], ':', mi[0], mi[1], ':', se[0], se[1]]
  }

  /** Two padded digits are the tens and the units digit. */
  lemma PadTwo(n: nat)
    requires n < 100
    ensures PadDigits(n, 2) == [DigitChar(n / 10), DigitChar(n % 10)]
  {
    var t := n / 10;
    assert t < 10;
    assert t % 10 == t;
    assert PadDigits(t, 1) == PadDigits(t / 10, 0) + [DigitChar(t)];
    assert PadDigits(n, 2) == PadDigits(t, 1) + [DigitChar(n % 10)];
  }

  /** What `build_request` sends for a datetime passes the check the constructor applies to a
      string: the two date forms the route accepts agree. */
  lemma StrftimeMatchesPattern(dt: DateTime)
    requires ValidDateTime(dt)
    ensures MatchesDatePattern(Strftime(dt))
  {
    var s := Strftime(dt);
    PadTwo(dt.month);
    assert '0' <= s[5] <= '1' && IsDigit(s[6]);
    PadTwo(dt.day);
    assert ('0' <= s[8] <= '2' && IsDigit(s[9])) || (s[8] == '3' && '0' <= s[9] <= '1');
    PadTwo(dt.hour);
    assert ('0' <= s[11] <= '1' && IsDigit(s[12])) || (s[11] == '2' && '0' <= s[12] <= '3');
    PadTwo(dt.minute);
    assert '0' <= s[14] <= '5' && IsDigit(s[15]);
    PadTwo(dt.second);
    assert '0' <= s[17] <= '5' && IsDigit(s[18]);
    assert DateCore(s);
  }

  // ---------------------------------------------------------------------------
  // uuid.UUID(hex): drop "urn:" and "uuid:", strip braces, drop hyphens, 32 hex digits remain.

  /** `s.replace(pat, '')` */
  function RemoveAll(s: string, pat: string): (r: string)
    requires pat != ""
    ensures |r| <= |s|
    decreases |s|
  {
    if s == [] then []
    else if pat <= s then RemoveAll(s[|pat|..], pat)
    else [s[0]] + RemoveAll(s[1..], pat)
  }

  function StripLeft(s: string, chars: set<char>): (r: string)
    decreases |s|
  {
    if s != [] && s[0] in chars then StripLeft(s[1..], chars) else s
  }

  function StripRight(s: string, chars: set<char>): (r: string)
    decreases |s|
  {
    if s != [] && s[|s| - 1] in chars then StripRight(s[..|s| - 1], chars) else s
  }

  predicate IsHexDigit(c: char) {
    IsDigit(c) || 'a' <= c <= 'f' || 'A' <= c <= 'F'
  }

  /** The hexadecimal text that `uuid.UUID` parses out of `s`. */
  function UuidHex(s: string): string {
    var t := RemoveAll(RemoveAll(s, "urn:"), "uuid:");
    RemoveAll(StripRight(StripLeft(t, {'{', '}'}), {'{', '}'}), "-")
  }

  /** The strings `uuid.UUID(s, version=4)` accepts when its 32 remaining characters are ASCII
      hexadecimal digits. The parse `int(hex, 16)` also accepts a `0x` prefix, a sign, underscores,
      surrounding white space and non-ASCII digits; such strings are not counted here. */
  predicate IsUuid(s: string) {
    var h := UuidHex(s);
    |h| == 32 && forall i :: 0 <= i < |h| ==> IsHexDigit(h[i])
  }

  // ---------------------------------------------------------------------------
  // ^(([^<>()[\]\.,;:\s@\"]+(\.[^<>()[\]\.,;:\s@\"]+)*)|(\".+\"))@(([^<>()[\]\.,;:\s@\"]+\.)+[^<>()[\]\.,;:\s@\"]{2,})$

  /** `[^<>()[\]\.,;:\s@\"]` */
  predicate IsAtomChar(c: char) {
    c !in "<>()[].,;:@\"" && !IsSpace(c)
  }

  /** One or more runs of atom characters separated by single dots. */
  predicate DottedAtoms(s: string) {
    && |s| > 0 && s[0] != '.' && s[|s| - 1] != '.'
    && (forall i :: 0 <= i < |s| ==> IsAtomChar(s[i]) || s[i] == '.')
    && (forall i :: 0 <= i < |s| - 1 ==> s[i] == '.' ==> s[i + 1] != '.')
  }

  predicate LocalPart(l: string) {
    || DottedAtoms(l)
    || (|l| >= 3 && l[0] == '"' && l[|l| - 1] == '"' && '\n' !in l[1..|l| - 1])
  }

  /** At least two labels, the last one at least two characters long. */
  predicate DomainPart(d: string) {
    DottedAtoms(d) && '.' in d && d[|d| - 2] != '.'
  }

  /** The index of the last `@` in `s`, or -1. */
  function LastAt(s: string): (i: int)
    ensures -1 <= i < |s|
    ensures i >= 0 ==> s[i] == '@'
    ensures forall j :: i < j < |s| ==> s[j] != '@'
  {
    if s == [] then -1 else if s[|s| - 1] == '@' then |s| - 1 else LastAt(s[..|s| - 1])
  }

  /** The domain part holds no `@`, so the match splits `s` at its last `@`. */
  predicate EmailCore(s: string) {
    var i := LastAt(s);
    i >= 0 && LocalPart(s[..i]) && DomainPart(s[i + 1..])
  }

  /** `re_email.match(s) is not None` */
  predicate MatchesEmailPattern(s: string) {
    EmailCore(s) || (|s| > 0 && s[|s| - 1] == '\n' && EmailCore(s[..|s| - 1]))
  }
}
