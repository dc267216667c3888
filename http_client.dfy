/**
 * mangadex/http.py: `HTTPClient.request`, a loop of at most five attempts that
 * classifies each response, and `recreate_session`.
 *
 * The network and the clock are inputs: `answers[i]` is what attempt `i` gets
 * back (a response with its status, JSON body and rate-limit headers, read
 * together with the clock, an `OSError`, or another exception that escapes the
 * loop), and the sleeps are returned instead of awaited.
 */
module Http {
  import opened Wrappers
  import opened Python
  import opened Errors
  import opened Routes

  /** What one attempt gets back. `xRetryAfter` is the `x-ratelimit-retry-after` header (an
      epoch time) and `retryAfter` the `Retry-After` header (seconds), `None` when missing or
      empty; `now` is `time.time()` when the header is read. `Escaped` is an exception the loop
      does not catch: `float()` of a non-numeric rate-limit header, a body that is not JSON, or
      an aiohttp error that is not an `OSError`. None of these is a `RuntimeError`. */
  datatype Answer =
    | Reply(status: int, body: PyValue, xRetryAfter: Option<int>, retryAfter: Option<int>, now: int)
    | TransportFailure
    | Escaped(exception: EscapingError)

  /** An exception that can escape an attempt: anything but a `RuntimeError`, so it is never
      confused with the loop's own giving-up error. */
  type EscapingError = e: PyError | !e.RuntimeError? witness ValueError("")

  /** How `request` ends: the parsed body, one of the library's HTTP errors, or a built-in
      exception. */
  datatype Outcome =
    | Returned(body: PyValue)
    | RaisedHTTP(error: HTTPError)
    | Raised(exception: PyError)

  /** The ending, the sleeps in order, and the number of attempts made. */
  datatype Trace = Trace(outcome: Outcome, sleeps: seq<int>, attempts: nat)

  const Attempts: nat := 5

  const OutOfAttempts: PyError := RuntimeError("Unknown error in HTTP handling")

  /** The delay a 429 response sets: the MangaDex header minus the clock, else DDoS-Guard's
      header, else whatever an earlier 429 left in `delay` (`None`: still unbound). */
  function RateLimitDelay(a: Answer, delay: Option<int>): Option<int>
    requires a.Reply?
  {
    if a.xRetryAfter.Some? then Some(a.xRetryAfter.value - a.now)
    else if a.retryAfter.Some? then Some(a.retryAfter.value)
    else delay
  }

  /** A status other than 429 and 200 raises `ServerError` from 500 up, `Forbidden` for 403 and
      `HTTPException` otherwise, built from the JSON body; a body that is not an object has no
      `.get`. */
  function Failure(status: int, body: PyValue): (o: Outcome)
    ensures o.RaisedHTTP? <==> body.PDict?
    ensures o.RaisedHTTP? ==> o.error == NewHTTPError(ErrorClass(status), body.entries)
    ensures o.Raised? ==> o.exception == AttributeError
  {
    if body.PDict? then RaisedHTTP(NewHTTPError(ErrorClass(status), body.entries)) else Raised(AttributeError)
  }

  /** The class chosen for a failing status: 500 and above, then 403, then everything else,
      other 2xx codes included. */
  function ErrorClass(status: int): (c: ExceptionClass)
    ensures IsSubclass(c, HTTPException)
    ensures c == ServerError <==> status >= 500
    ensures c == Forbidden <==> status == 403
  {
    if status >= 500 then ServerError else if status == 403 then Forbidden else HTTPException
  }

  /** Attempts `attempt` to 4 of `request`, `delay` being what earlier 429s left behind. */
  function Run(answers: seq<Answer>, attempt: nat, delay: Option<int>): (t: Trace)
    requires |answers| == Attempts && attempt <= Attempts
    ensures attempt + t.attempts <= Attempts
    ensures |t.sleeps| <= t.attempts
    ensures t.outcome == Raised(OutOfAttempts) ==> attempt + t.attempts == Attempts && |t.sleeps| == t.attempts
    ensures t.outcome.Returned? ==>
              && t.attempts > 0 && |t.sleeps| == t.attempts - 1
              && var last := answers[attempt + t.attempts - 1];
                 last.Reply? && last.status == 200 && t.outcome.body == last.body
    decreases Attempts - attempt
  {
    if attempt == Attempts then Trace(Raised(OutOfAttempts), [], 0)
    else
      var a := answers[attempt];
      if a.TransportFailure? then
        var rest := Run(answers, attempt + 1, delay);
        Trace(rest.outcome, [1 + 2 * attempt] + rest.sleeps, rest.attempts + 1)
      else if a.Escaped? then Trace(Raised(a.exception), [], 1)
      else if a.status == 429 then
        var d := RateLimitDelay(a, delay);
        if d.None? then Trace(Raised(UnboundLocalError("delay")), [], 1)
        else
          var rest := Run(answers, attempt + 1, d);
          Trace(rest.outcome, [d.value] + rest.sleeps, rest.attempts + 1)
      else if a.status == 200 then Trace(Returned(a.body), [], 1)
      else Trace(Failure(a.status, a.body), [], 1)
  }

  /** The loop of `request` once the parameters are built: every attempt sends the same
      parameters, and the result is `Run` from the first attempt with `delay` unbound. */
  method RetryLoop(params: RequestParams, answers: seq<Answer>) returns (outcome: Outcome, sleeps: seq<int>, sent: seq<RequestParams>)
    requires |answers| == Attempts
    ensures var t := Run(answers, 0, None);
            outcome == t.outcome && sleeps == t.sleeps && |sent| == t.attempts
    ensures forall i :: 0 <= i < |sent| ==> sent[i] == params
  {
    ghost var whole := Run(answers, 0, None);
    var delay: Option<int> := None;
    sleeps, sent := [], [];
    for attempt := 0 to Attempts
      invariant |sent| == attempt
      invariant forall i :: 0 <= i < |sent| ==> sent[i] == params
      invariant whole.outcome == Run(answers, attempt, delay).outcome
      invariant whole.sleeps == sleeps + Run(answers, attempt, delay).sleeps
      invariant whole.attempts == attempt + Run(answers, attempt, delay).attempts
    {
      sent := sent + [params];
      var a := answers[attempt];
      if a.TransportFailure? {
        RunRetries(answers, attempt, delay, delay);
        AppendShift(sleeps, 1 + 2 * attempt, Run(answers, attempt + 1, delay).sleeps);
        sleeps := sleeps + [1 + 2 * attempt];
      } else if a.Escaped? {
        RunStops(answers, attempt, delay);
        return Raised(a.exception), sleeps, sent;
      } else if a.status == 429 {
        var d := RateLimitDelay(a, delay);
        if d.None? {
          RunStops(answers, attempt, delay);
          return Raised(UnboundLocalError("delay")), sleeps, sent;
        }
        RunRetries(answers, attempt, delay, d);
        AppendShift(sleeps, d.value, Run(answers, attempt + 1, d).sleeps);
        delay := d;
        sleeps := sleeps + [d.value];
      } else {
        RunStops(answers, attempt, delay);
        if a.status == 200 {
          return Returned(a.body), sleeps, sent;
        } else {
          return Failure(a.status, a.body), sleeps, sent;
        }
      }
    }
    outcome := Raised(OutOfAttempts);
  }

  /** A round of `Run` that retries: the sleep it takes goes before those of the rounds after
      it, carrying the delay `d` in force afterwards. */
  lemma RunRetries(answers: seq<Answer>, attempt: nat, delay: Option<int>, d: Option<int>)
    requires |answers| == Attempts && attempt < Attempts
    requires var a := answers[attempt];
             (a.TransportFailure? && d == delay) ||
             (a.Reply? && a.status == 429 && d == RateLimitDelay(a, delay) && d.Some?)
    ensures var r := Run(answers, attempt + 1, d);
            var pause := if answers[attempt].TransportFailure? then 1 + 2 * attempt else d.value;
            Run(answers, attempt, delay) == Trace(r.outcome, [pause] + r.sleeps, r.attempts + 1)
  {
  }

  /** A round of `Run` that decides the outcome: one attempt, no sleep. */
  lemma RunStops(answers: seq<Answer>, attempt: nat, delay: Option<int>)
    requires |answers| == Attempts && attempt < Attempts
    requires var a := answers[attempt];
             a.Escaped? || (a.Reply? && (a.status == 429 ==> RateLimitDelay(a, delay).None?))
    ensures var a := answers[attempt];
            Run(answers, attempt, delay) ==
              if a.Escaped? then Trace(Raised(a.exception), [], 1)
              else if a.status == 429 then Trace(Raised(UnboundLocalError("delay")), [], 1)
              else if a.status == 200 then Trace(Returned(a.body), [], 1)
              else Trace(Failure(a.status, a.body), [], 1)
  {
  }

  /** Moving one sleep from the pending part to the slept part keeps the whole. */
  lemma AppendShift(done: seq<int>, x: int, rest: seq<int>)
    ensures (done + [x]) + rest == done + ([x] + rest)
  {
  }

  /** A 429, or an `OSError`, with a delay available: the answers `request` retries on. */
  predicate Retried(a: Answer, delay: Option<int>) {
    a.TransportFailure? || (a.Reply? && a.status == 429 && RateLimitDelay(a, delay).Some?)
  }

  /** The delay in force after the answers `answers[from..upto]`. */
  function DelayAfter(answers: seq<Answer>, from: nat, upto: nat, delay: Option<int>): Option<int>
    requires from <= upto <= |answers|
    decreases upto - from
  {
    if from == upto then delay
    else
      var a := answers[from];
      DelayAfter(answers, from + 1, upto, if a.Reply? && a.status == 429 then RateLimitDelay(a, delay) else delay)
  }

  /** Retried answers only postpone: the first answer that is not retried decides the outcome
      of `request` by itself (its status, or the exception that escapes), after exactly that
      many attempts. */
  lemma {:induction false} FirstDecidingAnswer(answers: seq<Answer>, attempt: nat, k: nat, delay: Option<int>)
    requires |answers| == Attempts && attempt <= k < Attempts
    requires forall j :: attempt <= j < k ==> Retried(answers[j], DelayAfter(answers, attempt, j, delay))
    requires answers[k].Escaped? || (answers[k].Reply? && answers[k].status != 429)
    ensures Run(answers, attempt, delay).attempts == k - attempt + 1
    ensures Run(answers, attempt, delay).outcome ==
              if answers[k].Escaped? then Raised(answers[k].exception)
              else if answers[k].status == 200 then Returned(answers[k].body)
              else Failure(answers[k].status, answers[k].body)
    decreases k - attempt
  {
    if attempt < k {
      var a := answers[attempt];
      var d := if a.Reply? && a.status == 429 then RateLimitDelay(a, delay) else delay;
      assert Retried(a, DelayAfter(answers, attempt, attempt, delay));
      forall j | attempt + 1 <= j < k
        ensures Retried(answers[j], DelayAfter(answers, attempt + 1, j, d))
      {
        assert DelayAfter(answers, attempt, j, delay) == DelayAfter(answers, attempt + 1, j, d);
      }
      FirstDecidingAnswer(answers, attempt + 1, k, d);
    }
  }

  /** When every remaining answer is retried, `request` gives up with `RuntimeError` after the
      fifth attempt, having slept once per attempt. */
  lemma {:induction false} AllRetriedGivesUp(answers: seq<Answer>, attempt: nat, delay: Option<int>)
    requires |answers| == Attempts && attempt <= Attempts
    requires forall j :: attempt <= j < Attempts ==> Retried(answers[j], DelayAfter(answers, attempt, j, delay))
    ensures Run(answers, attempt, delay).outcome == Raised(OutOfAttempts)
    ensures Run(answers, attempt, delay).attempts == Attempts - attempt
    ensures |Run(answers, attempt, delay).sleeps| == Attempts - attempt
    decreases Attempts - attempt
  {
    if attempt < Attempts {
      var a := answers[attempt];
      var d := if a.Reply? && a.status == 429 then RateLimitDelay(a, delay) else delay;
      assert Retried(a, DelayAfter(answers, attempt, attempt, delay));
      forall j | attempt + 1 <= j < Attempts
        ensures Retried(answers[j], DelayAfter(answers, attempt + 1, j, d))
      {
        assert DelayAfter(answers, attempt, j, delay) == DelayAfter(answers, attempt + 1, j, d);
      }
      AllRetriedGivesUp(answers, attempt + 1, d);
    }
  }

  /** Five `OSError`s: sleeps of 1, 3, 5, 7 and 9 seconds, then `RuntimeError`. */
  lemma NetworkDownBacksOff()
    ensures var t := Run(seq(Attempts, _ => TransportFailure), 0, None);
            t == Trace(Raised(OutOfAttempts), [1, 3, 5, 7, 9], 5)
  {
    var answers := seq(Attempts, _ => TransportFailure);
    assert Run(answers, 4, None) == Trace(Raised(OutOfAttempts), [9], 1);
    assert Run(answers, 3, None) == Trace(Raised(OutOfAttempts), [7, 9], 2);
    assert Run(answers, 2, None) == Trace(Raised(OutOfAttempts), [5, 7, 9], 3);
    assert Run(answers, 1, None) == Trace(Raised(OutOfAttempts), [3, 5, 7, 9], 4);
  }

  /** An exception the loop does not catch ends it at once, even after a retried `OSError`:
      one sleep, then the exception itself. */
  lemma EscapeAfterRetry(answers: seq<Answer>, e: EscapingError)
    requires |answers| == Attempts
    requires answers[0] == TransportFailure && answers[1] == Escaped(e)
    ensures Run(answers, 0, None) == Trace(Raised(e), [1], 2)
  {
  }

  /** A first 429 without either header finds `delay` unbound. */
  lemma UnboundDelay(answers: seq<Answer>, body: PyValue, now: int)
    requires |answers| == Attempts && answers[0] == Reply(429, body, None, None, now)
    ensures Run(answers, 0, None) == Trace(Raised(UnboundLocalError("delay")), [], 1)
  {
  }

  /** A header-less 429 after one that set a delay waits that same delay again. */
  lemma DelayCarriedOver(answers: seq<Answer>, wait: int, body: PyValue)
    requires |answers| == Attempts
    requires answers[0] == Reply(429, PDict(map[]), None, Some(wait), 0)
    requires answers[1] == Reply(429, PDict(map[]), None, None, 0)
    requires answers[2] == Reply(200, body, None, None, 0)
    ensures Run(answers, 0, None) == Trace(Returned(body), [wait, wait], 3)
  {
  }

  /** The MangaDex header wins over DDoS-Guard's and is turned into a wait relative to now. */
  lemma MangaDexHeaderFirst(answers: seq<Answer>, body: PyValue)
    requires |answers| == Attempts
    requires answers[0] == Reply(429, PDict(map[]), Some(1000), Some(7), 990)
    requires answers[1] == Reply(200, body, None, None, 1000)
    ensures Run(answers, 0, None) == Trace(Returned(body), [10], 2)
  {
  }

  /** A 403 ends the loop at once with `Forbidden`, whose message is the server's detail and
      status. */
  lemma ForbiddenNotRetried(answers: seq<Answer>, err: map<string, PyValue>, detail: string)
    requires |answers| == Attempts
    requires answers[0].Reply? && answers[0].status == 403 && answers[0].body == PDict(err)
    requires "status" in err && err["status"] == PInt(403)
    requires "detail" in err && err["detail"] == PStr(detail)
    ensures var t := Run(answers, 0, None);
            && t.attempts == 1 && t.sleeps == [] && t.outcome.RaisedHTTP?
            && t.outcome.error.cls == Forbidden
            && Message(t.outcome.error) == Some(detail + " (code: 403)")
  {
    RunStops(answers, 0, None);
    ForbiddenMessage(err, detail);
  }

  /** An aiohttp session: an identity and whether it was closed. */
  datatype Session = Session(id: nat, closed: bool)

  class HTTPClient {
    var session: Option<Session>
    var sessionsCreated: nat

    constructor ()
      ensures session.None? && sessionsCreated == 0
    {
      session := None;
      sessionsCreated := 0;
    }

    /** `_create_session` */
    method CreateSession()
      modifies this
      ensures session == Some(Session(old(sessionsCreated), false))
      ensures sessionsCreated == old(sessionsCreated) + 1
    {
      session := Some(Session(sessionsCreated, false));
      sessionsCreated := sessionsCreated + 1;
    }

    /** `recreate_session`: afterwards an open session exists; an open one is kept, a missing
        or closed one replaced by a new one. */
    method RecreateSession()
      modifies this
      ensures session.Some? && !session.value.closed
      ensures old(session).Some? && !old(session).value.closed ==>
                session == old(session) && sessionsCreated == old(sessionsCreated)
      ensures old(session).None? || old(session).value.closed ==>
                session == Some(Session(old(sessionsCreated), false)) && sessionsCreated == old(sessionsCreated) + 1
    {
      if session.None? {
        CreateSession();
      }
      if session.value.closed {
        CreateSession();
      }
    }

    /** `close_session` */
    method CloseSession()
      modifies this
      ensures old(session).None? ==> session.None?
      ensures old(session).Some? ==> session == Some(old(session).value.(closed := true))
      ensures sessionsCreated == old(sessionsCreated)
    {
      if session.Some? {
        session := Some(session.value.(closed := true));
      }
    }

    /** `request(route)`: the session is made usable, the route builds its parameters once
        (which may raise before any attempt), then the retry loop runs. */
    method Request(built: Result<RequestParams, PyError>, answers: seq<Answer>)
      returns (outcome: Outcome, sleeps: seq<int>, sent: seq<RequestParams>)
      requires |answers| == Attempts
      modifies this
      ensures session.Some? && !session.value.closed
      ensures old(session).Some? && !old(session).value.closed ==>
                session == old(session) && sessionsCreated == old(sessionsCreated)
      ensures old(session).None? || old(session).value.closed ==>
                session == Some(Session(old(sessionsCreated), false)) && sessionsCreated == old(sessionsCreated) + 1
      ensures built.Err? ==> outcome == Raised(built.error) && sleeps == [] && sent == []
      ensures built.Ok? ==>
                && var t := Run(answers, 0, None);
                && outcome == t.outcome && sleeps == t.sleeps && |sent| == t.attempts
                && forall i :: 0 <= i < |sent| ==> sent[i] == built.value
    {
      RecreateSession();
      if built.Err? {
        return Raised(built.error), [], [];
      }
      outcome, sleeps, sent := RetryLoop(built.value, answers);
    }
  }
}
