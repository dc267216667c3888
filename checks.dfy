/**
 * The shape shared by the route constructors' validation loops
 * (`for pos in range(len(xs)): ... raise ValueError(...)`): the first element
 * that fails decides the exception, and later elements are not looked at.
 */
module Checks {
  import opened Wrappers
  import opened Python
  import opened Patterns

  /** The error raised by the first failing element of `items[i..]`, positions counted from 0. */
  function FirstError(items: seq<PyValue>, check: (PyValue, nat) -> Option<PyError>, i: nat): Option<PyError>
    requires i <= |items|
    decreases |items| - i
  {
    if i == |items| then None
    else if check(items[i], i).Some? then check(items[i], i)
    else FirstError(items, check, i + 1)
  }

  /** The loop raises nothing exactly when every element passes. */
  lemma {:induction false} FirstErrorNone(items: seq<PyValue>, check: (PyValue, nat) -> Option<PyError>, i: nat)
    requires i <= |items|
    ensures FirstError(items, check, i).None? <==> forall j :: i <= j < |items| ==> check(items[j], j).None?
    decreases |items| - i
  {
    if i < |items| {
      FirstErrorNone(items, check, i + 1);
    }
  }

  /** When the loop raises, it raises the error of an element all of whose predecessors pass. */
  lemma {:induction false} FirstErrorFirst(items: seq<PyValue>, check: (PyValue, nat) -> Option<PyError>, i: nat)
    requires i <= |items|
    requires FirstError(items, check, i).Some?
    ensures exists j :: i <= j < |items| && check(items[j], j) == FirstError(items, check, i)
                        && forall k :: i <= k < j ==> check(items[k], k).None?
    decreases |items| - i
  {
    if check(items[i], i).None? {
      FirstErrorFirst(items, check, i + 1);
    }
  }

  /** Checks run in source order: the first one that raises wins. */
  function Then(first: Option<PyError>, next: Option<PyError>): Option<PyError> {
    if first.Some? then first else next
  }

  /** `uuid.UUID(v, version=4)` inside `try: ... except ValueError: raise ValueError(msg)`:
      a malformed string raises `msg`. `None` makes `uuid.UUID` raise `TypeError` (no argument
      given); a datetime's `.replace('urn:', '')` takes `'urn:'` for the year and raises
      `TypeError`; any other non-string has no `.replace` and raises `AttributeError`. None of
      these is caught. */
  function UuidCheck(v: PyValue, msg: PyError): Option<PyError> {
    match v
    case PStr(s) => if IsUuid(s) then None else Some(msg)
    case PNone => Some(TypeError)
    case PDatetime(_) => Some(TypeError)
    case _ => Some(AttributeError)
  }

  /** The check shared by `created_at_since` and `updated_at_since`. Its `ValueError` formats the
      failed match object, which is always `None`. */
  function DateCheck(v: PyValue, name: string): Option<PyError> {
    if !Truthy(v) then None
    else if v.PDatetime? then None
    else if v.PStr? then
      if MatchesDatePattern(v.s) then None else Some(ValueError("\"None\" is not valid datetime string"))
    else Some(ValueError(name + " must be datetime or str"))
  }

  /** `list(i.value for i in xs)` raises `AttributeError` unless every element is an enum member. */
  predicate AllHaveValue(items: seq<PyValue>) {
    forall i :: 0 <= i < |items| ==> HasValueAttr(items[i])
  }
}
